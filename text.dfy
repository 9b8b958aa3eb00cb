/** Character classes and the string operations of Python's `str` that the
    analyzers and the chat client rely on: `isspace`, `lower`, `split`,
    `strip`, `in` (substring), `replace` and `re.split(r'[.!?]+', ...)`. */
module TextModel {

  /** `str.isspace()`: the code points Python treats as whitespace, which are
      also what `\s`, `str.split()` and `str.strip()` use. */
  predicate IsSpace(c: char) {
    var n := c as int;
    n == 32 || 9 <= n <= 13 || 28 <= n <= 31 || n == 0x85 || n == 0xA0 || n == 0x1680
    || 0x2000 <= n <= 0x200A || n == 0x2028 || n == 0x2029 || n == 0x202F || n == 0x205F || n == 0x3000
  }

  predicate NotSpace(c: char) { !IsSpace(c) }

  /** The regular-expression class `\w`, restricted to ASCII. */
  predicate IsWordChar(c: char) {
    'a' <= c <= 'z' || 'A' <= c <= 'Z' || '0' <= c <= '9' || c == '_'
  }

  /** The sentence terminators `.`, `!` and `?`. */
  predicate IsTerminator(c: char) { c == '.' || c == '!' || c == '?' }

  predicate NotTerminator(c: char) { !IsTerminator(c) }

  predicate IsUpper(c: char) { 'A' <= c <= 'Z' }

  /** `str.lower()` on one character, restricted to ASCII letters. */
  function LowerChar(c: char): (r: char)
    ensures IsSpace(r) == IsSpace(c) && IsWordChar(r) == IsWordChar(c)
    ensures IsTerminator(r) == IsTerminator(c)
    ensures !IsUpper(r)
    ensures !IsUpper(c) ==> r == c
  {
    if IsUpper(c) then (c as int + 32) as char else c
  }

  function Lower(s: string): (r: string)
    ensures |r| == |s|
    ensures forall k | 0 <= k < |s| :: r[k] == LowerChar(s[k])
  {
    seq(|s|, k requires 0 <= k < |s| => LowerChar(s[k]))
  }

  /** Holds of a string that `Lower` leaves unchanged. */
  predicate IsLowered(s: string) {
    forall k | 0 <= k < |s| :: !IsUpper(s[k])
  }

  lemma {:induction false} LowerIsLowered(s: string)
    ensures IsLowered(Lower(s))
    ensures Lower(Lower(s)) == Lower(s)
  {
    var t := Lower(s);
    forall k | 0 <= k < |t| ensures !IsUpper(t[k]) {
      assert t[k] == LowerChar(s[k]);
    }
    assert Lower(t) == t;
  }

  /** `lower()` works character by character, so it distributes over
      concatenation. */
  lemma {:induction false} LowerAppend(x: string, y: string)
    ensures Lower(x + y) == Lower(x) + Lower(y)
  {
    var l, r := Lower(x + y), Lower(x) + Lower(y);
    forall k | 0 <= k < |l| ensures l[k] == r[k] {
      if k < |x| {
        assert (x + y)[k] == x[k];
      } else {
        assert (x + y)[k] == y[k - |x|];
      }
    }
  }

  lemma LowerOfLowered(s: string)
    requires IsLowered(s)
    ensures Lower(s) == s
  {
  }

  /** Length of the longest run of characters satisfying `p` that starts at
      index `i`. */
  function Run(s: string, i: nat, p: char -> bool): (n: nat)
    requires i <= |s|
    ensures i + n <= |s|
    ensures forall k | i <= k < i + n :: p(s[k])
    ensures i + n == |s| || !p(s[i + n])
    decreases |s| - i
  {
    if i == |s| || !p(s[i]) then 0 else 1 + Run(s, i + 1, p)
  }

  /** Python's `not text.strip()`: the text is empty or all whitespace. */
  predicate IsBlank(s: string) {
    forall k | 0 <= k < |s| :: IsSpace(s[k])
  }

  // ---------------------------------------------------------------------------
  // str.strip()

  function StripLeft(s: string): (r: string)
    ensures |r| <= |s| && r == s[|s| - |r|..]
    ensures r != [] ==> !IsSpace(r[0])
    ensures r == [] <==> IsBlank(s)
  {
    if s != [] && IsSpace(s[0]) then StripLeft(s[1..]) else s
  }

  function StripRight(s: string): (r: string)
    ensures |r| <= |s| && r == s[..|r|]
    ensures r != [] ==> !IsSpace(r[|r| - 1])
    ensures r == [] <==> IsBlank(s)
  {
    if s != [] && IsSpace(s[|s| - 1]) then StripRight(s[..|s| - 1]) else s
  }

  /** `str.strip()` with no argument. */
  function Strip(s: string): (r: string)
    ensures r == [] <==> IsBlank(s)
    ensures r != [] ==> !IsSpace(r[0]) && !IsSpace(r[|r| - 1])
    ensures exists i, j | 0 <= i <= j <= |s| :: r == s[i..j]
  {
    var l := StripLeft(s);
    var r := StripRight(l);
    assert r == s[|s| - |l|..][..|r|] == s[|s| - |l|..|s| - |l| + |r|];
    r
  }

  /** A string with no whitespace at either end is its own `strip()`. */
  lemma StripUnpadded(s: string)
    requires s != [] && !IsSpace(s[0]) && !IsSpace(s[|s| - 1])
    ensures Strip(s) == s
  {
    assert StripLeft(s) == s;
    assert StripRight(s) == s;
  }

  lemma {:induction false} StripIdempotent(s: string)
    ensures Strip(Strip(s)) == Strip(s)
  {
    var t := Strip(s);
    assert StripLeft(t) == t;
    assert StripRight(t) == t;
  }

  lemma {:induction false} SliceOfLowered(s: string, i: nat, j: nat)
    requires IsLowered(s) && i <= j <= |s|
    ensures IsLowered(s[i..j])
  {
    forall k | 0 <= k < j - i ensures !IsUpper(s[i..j][k]) {
      assert s[i..j][k] == s[i + k];
    }
  }

  // ---------------------------------------------------------------------------
  // str.split() and re.split(r'[.!?]+', text)

  /** `str.split()` with no argument: the maximal runs of non-whitespace. */
  function Words(s: string): seq<string>
    decreases |s|
  {
    var lead := Run(s, 0, IsSpace);
    if lead == |s| then []
    else
      var n := Run(s, lead, NotSpace);
      [s[lead..lead + n]] + Words(s[lead + n..])
  }

  /** Every word is a non-empty stretch without whitespace, and there is no
      word exactly when the text is blank. */
  lemma {:induction false} WordsShape(s: string)
    ensures forall k | 0 <= k < |Words(s)| :: Words(s)[k] != [] && NoSpace(Words(s)[k])
    ensures Words(s) == [] <==> IsBlank(s)
  {
    WordsAreWords(s);
    WordsNoneIffBlank(s);
  }

  lemma {:induction false} WordsAreWords(s: string)
    ensures forall k | 0 <= k < |Words(s)| :: Words(s)[k] != [] && NoSpace(Words(s)[k])
    decreases |s|
  {
    var lead := Run(s, 0, IsSpace);
    if lead < |s| {
      var n := Run(s, lead, NotSpace);
      var w, rest := s[lead..lead + n], s[lead + n..];
      FirstWord(s, lead, n);
      WordsUnfold(s, lead, n, w, rest);
      WordsAreWords(rest);
      forall k | 0 <= k < |Words(s)| ensures Words(s)[k] != [] && NoSpace(Words(s)[k]) {
        if k > 0 {
          assert Words(s)[k] == Words(rest)[k - 1];
        }
      }
    }
  }

  lemma {:induction false} WordsNoneIffBlank(s: string)
    ensures Words(s) == [] <==> IsBlank(s)
  {
    var lead := Run(s, 0, IsSpace);
    if lead < |s| {
      var n := Run(s, lead, NotSpace);
      FirstWord(s, lead, n);
      WordsUnfold(s, lead, n, s[lead..lead + n], s[lead + n..]);
    }
  }

  /** The words of a lower-case text are lower-case. */
  lemma {:induction false} WordsLowered(s: string)
    requires IsLowered(s)
    ensures forall k | 0 <= k < |Words(s)| :: IsLowered(Words(s)[k])
    decreases |s|
  {
    var lead := Run(s, 0, IsSpace);
    if lead < |s| {
      var n := Run(s, lead, NotSpace);
      var w, rest := s[lead..lead + n], s[lead + n..];
      WordsUnfold(s, lead, n, w, rest);
      PartsLowered(s, lead, lead + n);
      WordsLowered(rest);
      AllLoweredCons(w, Words(rest));
    }
  }

  lemma {:induction false} PartsLowered(s: string, i: nat, j: nat)
    requires IsLowered(s) && i <= j <= |s|
    ensures IsLowered(s[i..j]) && IsLowered(s[j..])
  {
    SliceOfLowered(s, i, j);
    SliceOfLowered(s, j, |s|);
    assert s[j..] == s[j..|s|];
  }

  lemma AllLoweredCons(w: string, ws: seq<string>)
    requires IsLowered(w) && forall k | 0 <= k < |ws| :: IsLowered(ws[k])
    ensures forall k | 0 <= k < |[w] + ws| :: IsLowered(([w] + ws)[k])
  {
    forall k | 0 <= k < |[w] + ws| ensures IsLowered(([w] + ws)[k]) {
      if k > 0 {
        assert ([w] + ws)[k] == ws[k - 1];
      }
    }
  }

  /** The first word is a non-empty stretch without whitespace, so the text
      is not blank. */
  lemma {:induction false} FirstWord(s: string, lead: nat, n: nat)
    requires lead == Run(s, 0, IsSpace) && lead < |s| && n == Run(s, lead, NotSpace)
    ensures s[lead..lead + n] != [] && NoSpace(s[lead..lead + n]) && !IsBlank(s)
  {
    var w := s[lead..lead + n];
    assert w[0] == s[lead];
    forall k | 0 <= k < |w| ensures !IsSpace(w[k]) {
      assert w[k] == s[lead + k];
    }
  }

  predicate NoSpace(w: string) {
    forall k | 0 <= k < |w| :: !IsSpace(w[k])
  }

  predicate NoTerminator(w: string) {
    forall k | 0 <= k < |w| :: !IsTerminator(w[k])
  }

  /** `re.split(r'[.!?]+', s)`: the pieces between maximal runs of
      terminators, including the empty piece before a leading run and after a
      trailing one. */
  function Pieces(s: string): seq<string>
    decreases |s|
  {
    var i := Run(s, 0, NotTerminator);
    if i == |s| then [s]
    else
      var t := Run(s, i, IsTerminator);
      [s[..i]] + Pieces(s[i + t..])
  }

  /** There is at least one piece, no piece holds a terminator, and a text
      without terminators is its own single piece. */
  lemma {:induction false} PiecesShape(s: string)
    ensures |Pieces(s)| >= 1
    ensures forall k | 0 <= k < |Pieces(s)| :: NoTerminator(Pieces(s)[k])
    ensures NoTerminator(s) ==> Pieces(s) == [s]
    decreases |s|
  {
    var i := Run(s, 0, NotTerminator);
    if i < |s| {
      var t := Run(s, i, IsTerminator);
      var rest := s[i + t..];
      FirstPiece(s, i);
      PiecesUnfold(s, i, t, s[..i], rest);
      PiecesShape(rest);
    }
  }

  /** The first piece holds no terminator, and the text does. */
  lemma {:induction false} FirstPiece(s: string, i: nat)
    requires i == Run(s, 0, NotTerminator) && i < |s|
    ensures NoTerminator(s[..i]) && !NoTerminator(s)
  {
    var p := s[..i];
    forall k | 0 <= k < |p| ensures !IsTerminator(p[k]) {
      assert p[k] == s[k];
    }
  }

  /** `[p for p in pieces if p.strip()]`. */
  function NonBlank(ps: seq<string>): (r: seq<string>)
    ensures |r| <= |ps|
    ensures forall k | 0 <= k < |r| :: r[k] in ps && !IsBlank(r[k])
  {
    if ps == [] then []
    else if IsBlank(ps[0]) then NonBlank(ps[1..])
    else [ps[0]] + NonBlank(ps[1..])
  }

  function Sentences(s: string): seq<string> {
    NonBlank(Pieces(s))
  }

  // Laws that pin `Words` and `Sentences` on every input: splitting at one
  // separator splits the result, and a separator-free stretch is one item
  // (or none when it is empty, or blank for sentences).

  /** A run is exactly as long as the stretch of `p` characters from `i`. */
  lemma {:induction false} RunExact(s: string, i: nat, p: char -> bool, m: nat)
    requires i + m <= |s|
    requires forall k | i <= k < i + m :: p(s[k])
    requires i + m == |s| || !p(s[i + m])
    ensures Run(s, i, p) == m
  {
  }

  /** A run does not depend on what precedes its start. */
  lemma {:induction false} RunShift(x: string, y: string, i: nat, p: char -> bool)
    requires i <= |y|
    ensures Run(x + y, |x| + i, p) == Run(y, i, p)
  {
    var n := Run(y, i, p);
    forall k | |x| + i <= k < |x| + i + n ensures p((x + y)[k]) {
      assert (x + y)[k] == y[k - |x|];
    }
    if i + n < |y| {
      assert (x + y)[|x| + i + n] == y[i + n];
    }
    RunExact(x + y, |x| + i, p, n);
  }

  /** Slices of `x + y` past `x` are slices of `y`. */
  lemma {:induction false} SliceShift(x: string, y: string, i: nat, j: nat)
    requires i <= j <= |y|
    ensures (x + y)[|x| + i..|x| + j] == y[i..j]
    ensures (x + y)[|x| + i..] == y[i..]
  {
  }

  /** One step of `str.split()`: skip the leading whitespace, take a word. */
  lemma {:induction false} WordsUnfold(s: string, lead: nat, n: nat, w: string, rest: string)
    requires lead == Run(s, 0, IsSpace) && lead < |s| && n == Run(s, lead, NotSpace)
    requires w == s[lead..lead + n] && rest == s[lead + n..]
    ensures Words(s) == [w] + Words(rest)
  {
    WordsStep(s, lead, n);
  }

  lemma {:induction false} WordsStep(s: string, lead: nat, n: nat)
    requires lead == Run(s, 0, IsSpace) && lead < |s| && n == Run(s, lead, NotSpace)
    ensures Words(s) == [s[lead..lead + n]] + Words(s[lead + n..])
  {
    var w, r := s[lead..lead + n], s[lead + n..];
    assert Words(s) == [w] + Words(r);
  }

  /** Leading whitespace adds no word. */
  lemma {:induction false} WordsAfterSpace(c: char, s: string)
    requires IsSpace(c)
    ensures Words([c] + s) == Words(s)
  {
    var lead := Run(s, 0, IsSpace);
    RunShift([c], s, 0, IsSpace);
    if lead < |s| {
      WordsAfterSpaceThenWord(c, s, lead);
    } else {
      BlankAfterSpace(c, s);
    }
  }

  lemma {:induction false} BlankAfterSpace(c: char, s: string)
    requires IsSpace(c) && IsBlank(s)
    ensures Words([c] + s) == [] && Words(s) == []
  {
    assert IsBlank([c] + s);
  }

  lemma {:induction false} WordsAfterSpaceThenWord(c: char, s: string, lead: nat)
    requires IsSpace(c) && lead == Run(s, 0, IsSpace) && lead < |s|
    requires Run([c] + s, 1, IsSpace) == lead
    ensures Words([c] + s) == Words(s)
  {
    var n := Run(s, lead, NotSpace);
    WordsShifted(c, s, lead, n);
    WordsUnfold(s, lead, n, s[lead..lead + n], s[lead + n..]);
  }

  /** The first word of `[c] + s` is the first word of `s`. */
  lemma {:induction false} WordsShifted(c: char, s: string, lead: nat, n: nat)
    requires IsSpace(c) && lead < |s| && Run([c] + s, 1, IsSpace) == lead
    requires n == Run(s, lead, NotSpace)
    ensures Words([c] + s) == [s[lead..lead + n]] + Words(s[lead + n..])
  {
    ShiftedWord(c, s, lead, n);
    WordsUnfold([c] + s, lead + 1, n, s[lead..lead + n], s[lead + n..]);
  }

  /** Where the first word of `[c] + s` starts and ends, and what it is. */
  lemma {:induction false} ShiftedWord(c: char, s: string, lead: nat, n: nat)
    requires IsSpace(c) && lead < |s| && Run([c] + s, 1, IsSpace) == lead
    requires n == Run(s, lead, NotSpace)
    ensures Run([c] + s, 0, IsSpace) == lead + 1 && Run([c] + s, lead + 1, NotSpace) == n
    ensures ([c] + s)[lead + 1..lead + 1 + n] == s[lead..lead + n]
    ensures ([c] + s)[lead + 1 + n..] == s[lead + n..]
  {
    RunShift([c], s, lead, NotSpace);
    SliceAfterOne(c, s, lead, lead + n);
  }

  lemma {:induction false} SliceAfterOne(c: char, s: string, i: nat, j: nat)
    requires i <= j <= |s|
    ensures ([c] + s)[i + 1..j + 1] == s[i..j] && ([c] + s)[j + 1..] == s[j..]
  {
    SliceShift([c], s, i, j);
    SliceShift([c], s, j, j);
  }

  /** A stretch without whitespace, followed by whitespace, is the first word. */
  lemma {:induction false} WordThenSpace(w: string, c: char, b: string)
    requires w != [] && NoSpace(w) && IsSpace(c)
    ensures Words(w + [c] + b) == [w] + Words([c] + b)
  {
    var y := [c] + b;
    var t := w + y;
    assert w + [c] + b == t;
    RunExact(t, 0, IsSpace, 0);
    RunExact(t, 0, NotSpace, |w|);
    assert t[0..|w|] == w;
    SliceShift(w, y, 0, 0);
    WordsUnfold(t, 0, |w|, w, y);
  }

  /** A non-empty stretch without whitespace is one word. */
  lemma {:induction false} SingleWord(w: string)
    requires w != [] && NoSpace(w)
    ensures Words(w) == [w]
  {
    RunExact(w, 0, IsSpace, 0);
    RunCovers(w, 0, NotSpace);
    assert w[0..|w|] == w;
    assert w[|w|..] == [];
    WordsUnfold(w, 0, |w|, w, []);
  }

  /** A run over characters that all satisfy `p` reaches the end. */
  lemma {:induction false} RunCovers(s: string, i: nat, p: char -> bool)
    requires i <= |s| && forall k | i <= k < |s| :: p(s[k])
    ensures Run(s, i, p) == |s| - i
  {
    RunExact(s, i, p, |s| - i);
  }

  /** `str.split()` splits the text at every whitespace character. */
  lemma {:induction false} WordsSplit(a: string, c: char, b: string)
    requires IsSpace(c)
    ensures Words(a + [c] + b) == Words(a) + Words(b)
    decreases |a|
  {
    var i := Run(a, 0, NotSpace);
    if i == |a| {
      WordsSplitAtWord(a, c, b);
    } else {
      var a1, d, a2 := a[..i], a[i], a[i + 1..];
      assert a == a1 + [d] + a2;
      assert a + [c] + b == a1 + [d] + (a2 + [c] + b);
      WordsSplit(a2, c, b);
      WordsSplitStep(a1, d, a2, c, b);
    }
  }

  /** The first separator of `a + [c] + b` is `c` itself. */
  lemma {:induction false} WordsSplitAtWord(a: string, c: char, b: string)
    requires IsSpace(c) && NoSpace(a)
    ensures Words(a + [c] + b) == Words(a) + Words(b)
  {
    WordsAfterSpace(c, b);
    if a == [] {
      assert a + [c] + b == [c] + b;
    } else {
      WordThenSpace(a, c, b);
      SingleWord(a);
    }
  }

  /** The induction step of `WordsSplit`: `a1 + [d]` goes in front of both
      sides. */
  lemma {:induction false} WordsSplitStep(a1: string, d: char, a2: string, c: char, b: string)
    requires NoSpace(a1) && IsSpace(d) && IsSpace(c)
    requires Words(a2 + [c] + b) == Words(a2) + Words(b)
    ensures Words(a1 + [d] + (a2 + [c] + b)) == Words(a1 + [d] + a2) + Words(b)
  {
    WordsSplitAtWord(a1, d, a2 + [c] + b);
    WordsSplitAtWord(a1, d, a2);
    AppendAssoc(Words(a1), Words(a2), Words(b));
  }

  /** Concatenation of sequences is associative. */
  lemma AppendAssoc<T>(x: seq<T>, y: seq<T>, z: seq<T>)
    ensures x + (y + z) == x + y + z
  {
  }

  /** The blank-piece filter distributes over concatenation. */
  lemma {:induction false} NonBlankAppend(x: seq<string>, y: seq<string>)
    ensures NonBlank(x + y) == NonBlank(x) + NonBlank(y)
    decreases |x|
  {
    if x != [] {
      assert (x + y)[0] == x[0];
      assert (x + y)[1..] == x[1..] + y;
      NonBlankAppend(x[1..], y);
    } else {
      assert x + y == y;
    }
  }

  /** A stretch without terminators is one sentence unless it is blank. */
  lemma {:induction false} SentencesOfSegment(s: string)
    requires NoTerminator(s)
    ensures Sentences(s) == if IsBlank(s) then [] else [s]
  {
    assert Pieces(s) == [s];
    assert [s][1..] == [];
  }

  /** One step of `re.split`: the piece before the first terminator run, then
      the pieces after it. */
  lemma {:induction false} PiecesUnfold(s: string, i: nat, t: nat, first: string, rest: string)
    requires i == Run(s, 0, NotTerminator) && i < |s| && t == Run(s, i, IsTerminator)
    requires first == s[..i] && rest == s[i + t..]
    ensures Pieces(s) == [first] + Pieces(rest)
  {
    PiecesStep(s, i, t);
  }

  lemma {:induction false} PiecesStep(s: string, i: nat, t: nat)
    requires i == Run(s, 0, NotTerminator) && i < |s| && t == Run(s, i, IsTerminator)
    ensures Pieces(s) == [s[..i]] + Pieces(s[i + t..])
  {
    var p, r := s[..i], s[i + t..];
    assert Pieces(s) == [p] + Pieces(r);
  }

  /** Dropping an empty first piece does not change the sentences. */
  lemma {:induction false} NonBlankEmptyFirst(ps: seq<string>)
    ensures NonBlank([[]] + ps) == NonBlank(ps)
  {
    var e: string := [];
    assert IsBlank(e);
    assert ([e] + ps)[1..] == ps;
  }

  /** Leading terminators add no sentence. */
  lemma {:induction false} SentencesAfterTerminator(c: char, s: string)
    requires IsTerminator(c)
    ensures Sentences([c] + s) == Sentences(s)
  {
    var u := Run(s, 0, IsTerminator);
    PiecesAfterTerminator(c, s);
    NonBlankEmptyFirst(Pieces(s[u..]));
    if u > 0 {
      PiecesAtTerminator(s);
    } else {
      assert s[u..] == s;
    }
  }

  /** `re.split` on a terminator followed by `s`: an empty first piece, then
      the pieces after the terminator run that starts `s`. */
  lemma {:induction false} PiecesAfterTerminator(c: char, s: string)
    requires IsTerminator(c)
    ensures Pieces([c] + s) == [[]] + Pieces(s[Run(s, 0, IsTerminator)..])
  {
    var t := [c] + s;
    var u := Run(s, 0, IsTerminator);
    RunShift([c], s, 0, IsTerminator);
    assert Run(t, 0, IsTerminator) == 1 + u;
    SliceShift([c], s, u, u);
    assert t[1 + u..] == s[u..];
    PiecesAtTerminator(t);
  }

  /** A stretch without terminators, followed by a terminator, is the first
      piece. */
  lemma {:induction false} SegmentThenTerminator(a: string, c: char, b: string)
    requires NoTerminator(a) && IsTerminator(c)
    ensures Sentences(a + [c] + b) == Sentences(a) + Sentences([c] + b)
  {
    var y := [c] + b;
    assert a + [c] + b == a + y;
    var rest := Pieces(y[Run(y, 0, IsTerminator)..]);
    PiecesAfterSegment(a, y);
    PiecesAtTerminator(y);
    NonBlankEmptyFirst(rest);
    NonBlankAppend([a], rest);
  }

  /** `re.split` on a segment followed by terminators: the segment is the
      first piece. */
  lemma {:induction false} PiecesAfterSegment(a: string, y: string)
    requires NoTerminator(a) && y != [] && IsTerminator(y[0])
    ensures Pieces(a + y) == [a] + Pieces(y[Run(y, 0, IsTerminator)..])
  {
    var t := a + y;
    var T := Run(y, 0, IsTerminator);
    RunExact(t, 0, NotTerminator, |a|);
    RunShift(a, y, 0, IsTerminator);
    SliceShift(a, y, T, T);
    assert t[..|a|] == a;
    PiecesUnfold(t, |a|, T, a, y[T..]);
  }

  /** `re.split` on a text that starts with terminators: an empty first
      piece. */
  lemma {:induction false} PiecesAtTerminator(y: string)
    requires y != [] && IsTerminator(y[0])
    ensures Pieces(y) == [[]] + Pieces(y[Run(y, 0, IsTerminator)..])
  {
    var T := Run(y, 0, IsTerminator);
    RunExact(y, 0, NotTerminator, 0);
    assert y[..0] == [];
    PiecesUnfold(y, 0, T, [], y[T..]);
  }

  /** `re.split(r'[.!?]+')` followed by the blank filter splits the text at
      every terminator. */
  lemma {:induction false} SentencesSplit(a: string, c: char, b: string)
    requires IsTerminator(c)
    ensures Sentences(a + [c] + b) == Sentences(a) + Sentences(b)
    decreases |a|
  {
    var i := Run(a, 0, NotTerminator);
    if i == |a| {
      SentencesSplitAtSegment(a, c, b);
    } else {
      var a1, d, a2 := a[..i], a[i], a[i + 1..];
      assert a == a1 + [d] + a2;
      assert a + [c] + b == a1 + [d] + (a2 + [c] + b);
      SentencesSplit(a2, c, b);
      SentencesSplitStep(a1, d, a2, c, b);
    }
  }

  /** The first terminator of `a + [c] + b` is `c` itself. */
  lemma {:induction false} SentencesSplitAtSegment(a: string, c: char, b: string)
    requires IsTerminator(c) && NoTerminator(a)
    ensures Sentences(a + [c] + b) == Sentences(a) + Sentences(b)
  {
    SegmentThenTerminator(a, c, b);
    SentencesAfterTerminator(c, b);
  }

  /** The induction step of `SentencesSplit`. */
  lemma {:induction false} SentencesSplitStep(a1: string, d: char, a2: string, c: char, b: string)
    requires NoTerminator(a1) && IsTerminator(d) && IsTerminator(c)
    requires Sentences(a2 + [c] + b) == Sentences(a2) + Sentences(b)
    ensures Sentences(a1 + [d] + (a2 + [c] + b)) == Sentences(a1 + [d] + a2) + Sentences(b)
  {
    SentencesSplitAtSegment(a1, d, a2 + [c] + b);
    SentencesSplitAtSegment(a1, d, a2);
    AppendAssoc(Sentences(a1), Sentences(a2), Sentences(b));
  }

  // ---------------------------------------------------------------------------
  // Substrings, prefixes and str.replace

  /** `needle` occurs in `hay` at index `i`. */
  predicate OccursAt(hay: string, needle: string, i: nat) {
    i + |needle| <= |hay| && hay[i..i + |needle|] == needle
  }

  /** Python's `needle in hay` for strings: some index of `hay` starts a copy
      of `needle`. */
  predicate Contains(hay: string, needle: string) {
    exists i: nat | i <= |hay| :: OccursAt(hay, needle, i)
  }

  /** A needle with a character the haystack lacks does not occur in it. */
  lemma NotContainsChar(hay: string, needle: string, j: nat)
    requires j < |needle| && needle[j] !in hay
    ensures !Contains(hay, needle)
  {
    forall i: nat ensures !OccursAt(hay, needle, i) {
      if i + |needle| <= |hay| {
        assert hay[i..i + |needle|][j] == hay[i + j];
      }
    }
  }

  /** A needle with two adjacent characters that are never adjacent in the
      haystack does not occur in it. */
  lemma NotContainsPair(hay: string, needle: string, j: nat)
    requires j + 1 < |needle|
    requires forall i | 0 <= i < |hay| - 1 :: !(hay[i] == needle[j] && hay[i + 1] == needle[j + 1])
    ensures !Contains(hay, needle)
  {
    forall i: nat ensures !OccursAt(hay, needle, i) {
      if i + |needle| <= |hay| {
        assert hay[i..i + |needle|][j] == hay[i + j] && hay[i..i + |needle|][j + 1] == hay[i + j + 1];
      }
    }
  }

  predicate StartsWith(s: string, prefix: string) {
    |prefix| <= |s| && s[..|prefix|] == prefix
  }

  /** `s.replace(pat, "")`: every non-overlapping occurrence of `pat`,
      scanning left to right, is removed. */
  function RemoveAll(s: string, pat: string): (r: string)
    requires pat != []
    ensures |r| <= |s|
    decreases |s|
  {
    if |s| < |pat| then s
    else if s[..|pat|] == pat then RemoveAll(s[|pat|..], pat)
    else [s[0]] + RemoveAll(s[1..], pat)
  }

  /** `s[:n]`. */
  function Take<T>(s: seq<T>, n: nat): (r: seq<T>)
    ensures |r| == if |s| <= n then |s| else n
    ensures r == s[..|r|]
  {
    if |s| <= n then s else s[..n]
  }

  /** `str(n)` for a natural number. */
  function NatToString(n: nat): (r: string)
    ensures r != []
    ensures forall k | 0 <= k < |r| :: '0' <= r[k] <= '9'
    ensures DigitsValue(r) == n
    ensures r[0] != '0' || r == "0"
  {
    if n < 10 then [('0' as int + n) as char]
    else
      var front := NatToString(n / 10);
      var r := front + [('0' as int + n % 10) as char];
      assert r[..|r| - 1] == front;
      r
  }

  /** The number a string of decimal digits spells. */
  function DigitsValue(r: string): int {
    if r == [] then 0 else DigitsValue(r[..|r| - 1]) * 10 + (r[|r| - 1] as int - '0' as int)
  }

  // ---------------------------------------------------------------------------
  // String order

  /** Python's `a < b` on strings: lexicographic by code point, a proper
      prefix coming first. */
  predicate StrLess(a: string, b: string)
    decreases |a|
  {
    b != [] && (a == [] || a[0] < b[0] || (a[0] == b[0] && StrLess(a[1..], b[1..])))
  }

  lemma {:induction false} StrLessIrreflexive(a: string)
    ensures !StrLess(a, a)
    decreases |a|
  {
    if a != [] {
      StrLessIrreflexive(a[1..]);
    }
  }

  lemma {:induction false} StrLessTransitive(a: string, b: string, c: string)
    requires StrLess(a, b) && StrLess(b, c)
    ensures StrLess(a, c)
    decreases |a|
  {
    if a != [] && a[0] == b[0] && b[0] == c[0] {
      StrLessTransitive(a[1..], b[1..], c[1..]);
    }
  }

  lemma {:induction false} StrLessTotal(a: string, b: string)
    requires a != b
    ensures StrLess(a, b) || StrLess(b, a)
    decreases |a|
  {
    if a != [] && b != [] && a[0] == b[0] {
      assert a == [a[0]] + a[1..] && b == [b[0]] + b[1..];
      StrLessTotal(a[1..], b[1..]);
    }
  }

  lemma {:induction false} StrLessAsymmetric(a: string, b: string)
    requires StrLess(a, b)
    ensures !StrLess(b, a)
  {
    if StrLess(b, a) {
      StrLessTransitive(a, b, a);
      StrLessIrreflexive(a);
    }
  }
}
