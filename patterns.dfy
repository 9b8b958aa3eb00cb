/** The pattern library shared by both analyzers: the regular expressions of
    `self.patterns`, each written out as an explicit matcher that follows
    Python's backtracking semantics, and `re.finditer` as a left-to-right scan
    for leftmost, non-overlapping matches. */
module Patterns {
  import opened Wrappers
  import opened TextModel

  /** One match: `match.start()` and `match.end()`. */
  datatype Match = Match(start: nat, end: nat)

  datatype Rule =
    /** `\b(w1|w2|...)\b` with `re.IGNORECASE`. */
    | WordList(words: seq<string>)
    /** `\b(a1|a2|...)\s+\w*ed\b` with `re.IGNORECASE`. */
    | PassiveVoice(auxiliaries: seq<string>)
    /** `[.!?]+\s*[A-Z][^.!?]{100,}[.!?]`, case-sensitive. */
    | LongSentence

  const Contractions := WordList(["it's", "you're", "we're", "don't", "can't", "won't", "let's", "you'll", "we'll"])
  const YouAddressing := WordList(["you"])
  const GenderedPronouns := WordList(["he", "him", "his", "she", "her", "hers"])
  const NonInclusiveTerms := WordList(["guys", "mankind", "blacklist", "whitelist", "master", "slave", "crazy", "insane", "lame"])
  const PassiveConstruction := PassiveVoice(["is", "are", "was", "were", "been", "be"])
  /** The `{100,}` of the long-sentence pattern. */
  const LongSentenceMinimum: nat := 100

  /** A word list whose alternatives begin and end with a `\w` character, as
      every list above does; then `\b` on either side of a match means the
      neighbouring character is not a word character. */
  predicate WellFormed(rule: Rule) {
    match rule
    case WordList(ws) => WholeWords(ws)
    case PassiveVoice(auxs) => WholeWords(auxs)
    case LongSentence => true
  }

  predicate WholeWords(ws: seq<string>) {
    forall k | 0 <= k < |ws| :: ws[k] != [] && IsWordChar(ws[k][0]) && IsWordChar(ws[k][|ws[k]| - 1])
  }

  lemma LibraryWellFormed()
    ensures WellFormed(Contractions) && WellFormed(YouAddressing)
    ensures WellFormed(GenderedPronouns) && WellFormed(NonInclusiveTerms)
    ensures WellFormed(PassiveConstruction) && WellFormed(LongSentence)
  {
    assert WellFormed(Contractions);
    assert WellFormed(GenderedPronouns);
    assert WellFormed(NonInclusiveTerms);
  }

  predicate WordAt(s: string, p: int) {
    0 <= p < |s| && IsWordChar(s[p])
  }

  /** `\b` at position `p`. */
  predicate Boundary(s: string, p: int) {
    WordAt(s, p - 1) != WordAt(s, p)
  }

  /** The literal `w` at position `i` under `re.IGNORECASE`. */
  predicate MatchesIgnoringCase(s: string, i: nat, w: string)
    decreases |w|
  {
    i + |w| <= |s| && (w == [] || (LowerChar(s[i]) == LowerChar(w[0]) && MatchesIgnoringCase(s, i + 1, w[1..])))
  }

  /** The alternatives of `(w1|w2|...)\b` are tried in order; the first one that
      matches and is followed by `\b` wins. */
  function FirstWord(s: string, i: nat, ws: seq<string>): (r: Option<nat>)
    requires i <= |s|
    ensures r.Some? ==> exists k | 0 <= k < |ws| :: r.value == i + |ws[k]| && MatchesIgnoringCase(s, i, ws[k])
    ensures r.Some? ==> r.value <= |s| && Boundary(s, r.value)
  {
    if ws == [] then None
    else if MatchesIgnoringCase(s, i, ws[0]) && Boundary(s, i + |ws[0]|) then Some(i + |ws[0]|)
    else
      var r := FirstWord(s, i, ws[1..]);
      assert r.Some? ==> exists k | 1 <= k < |ws| :: r.value == i + |ws[k]| && MatchesIgnoringCase(s, i, ws[k]) by {
        if r.Some? {
          var k :| 0 <= k < |ws[1..]| && r.value == i + |ws[1..][k]| && MatchesIgnoringCase(s, i, ws[1..][k]);
          assert ws[k + 1] == ws[1..][k];
        }
      }
      r
  }

  /** `\s+\w*ed\b` from position `j`. `\s+` and `\w*` are greedy and only the
      end of the maximal word run can be followed by `\b`, so the match exists
      exactly when that run ends in "ed" (in either case). */
  function ParticipleEnd(s: string, j: nat): (r: Option<nat>)
    requires j <= |s|
    ensures r.Some? ==> j + 3 <= r.value <= |s|
    ensures r.Some? ==> LowerChar(s[r.value - 2]) == 'e' && LowerChar(s[r.value - 1]) == 'd'
    ensures r.Some? ==> r.value == |s| || !IsWordChar(s[r.value])
  {
    var w := j + Run(s, j, IsSpace);
    if w == j then None
    else
      var e := w + Run(s, w, IsWordChar);
      if e - w >= 2 && LowerChar(s[e - 2]) == 'e' && LowerChar(s[e - 1]) == 'd' then Some(e) else None
  }

  /** The alternatives of `(is|are|was|were|been|be)` are tried in order; the
      first one that spells the text at `i` and is followed by a participle
      wins. The result is the end of that auxiliary. */
  function FirstAuxiliary(s: string, i: nat, auxs: seq<string>): (r: Option<nat>)
    requires i <= |s|
    ensures r.Some? ==> exists k | 0 <= k < |auxs| :: r.value == i + |auxs[k]| && MatchesIgnoringCase(s, i, auxs[k])
    ensures r.Some? ==> r.value <= |s| && ParticipleEnd(s, r.value).Some?
  {
    if auxs == [] then None
    else if MatchesIgnoringCase(s, i, auxs[0]) && ParticipleEnd(s, i + |auxs[0]|).Some? then Some(i + |auxs[0]|)
    else
      var r := FirstAuxiliary(s, i, auxs[1..]);
      assert r.Some? ==> exists k | 1 <= k < |auxs| :: r.value == i + |auxs[k]| && MatchesIgnoringCase(s, i, auxs[k]) by {
        if r.Some? {
          var k :| 0 <= k < |auxs[1..]| && r.value == i + |auxs[1..][k]| && MatchesIgnoringCase(s, i, auxs[1..][k]);
          assert auxs[k + 1] == auxs[1..][k];
        }
      }
      r
  }

  /** `\b(a1|a2|...)\s+\w*ed\b` from position `i`. */
  function PassiveEnd(s: string, i: nat, auxs: seq<string>): (r: Option<nat>)
    requires i <= |s|
    ensures r.Some? ==> i < r.value <= |s|
  {
    if Boundary(s, i) then
      match FirstAuxiliary(s, i, auxs)
      case Some(j) => ParticipleEnd(s, j)
      case None => None
    else None
  }

  /** `[.!?]+\s*[A-Z][^.!?]{100,}[.!?]` from position `i`. Every greedy part
      must take its maximal run, since giving a character back leaves one the
      next part cannot match. */
  function LongSentenceEnd(s: string, i: nat): (r: Option<nat>)
    requires i <= |s|
    ensures r.Some? ==> i < r.value <= |s|
  {
    var t := Run(s, i, IsTerminator);
    if t == 0 then None
    else
      var w := i + t + Run(s, i + t, IsSpace);
      if w < |s| && IsUpper(s[w]) then
        var n := w + 1 + Run(s, w + 1, NotTerminator);
        if n - (w + 1) >= LongSentenceMinimum && n < |s| then Some(n + 1) else None
      else None
  }

  /** The end of the match of `rule` that starts at position `i`, if any. */
  function MatchAt(rule: Rule, s: string, i: nat): (r: Option<nat>)
    requires WellFormed(rule) && i <= |s|
    ensures r.Some? ==> i < r.value <= |s|
  {
    match rule
    case WordList(ws) => if Boundary(s, i) then FirstWord(s, i, ws) else None
    case PassiveVoice(auxs) => PassiveEnd(s, i, auxs)
    case LongSentence => LongSentenceEnd(s, i)
  }

  /** The outcome of `MatchAt` at every position of `s`. */
  function MatchTable(rule: Rule, s: string): (t: seq<Option<nat>>)
    requires WellFormed(rule)
    ensures |t| == |s|
    ensures forall p | 0 <= p < |s| :: t[p] == MatchAt(rule, s, p)
  {
    seq(|s|, p requires 0 <= p < |s| => MatchAt(rule, s, p))
  }

  /** Every recorded match is non-empty and ends within the text. */
  predicate Progressive(t: seq<Option<nat>>) {
    forall p | 0 <= p < |t| && t[p].Some? :: p < t[p].value <= |t|
  }

  /** Position `p` lies inside one of the matches. */
  predicate Covered(ms: seq<Match>, p: int) {
    exists k | 0 <= k < |ms| :: ms[k].start <= p < ms[k].end
  }

  /** Every match is genuine and starts at `from` or later. */
  predicate Genuine(t: seq<Option<nat>>, from: nat, ms: seq<Match>) {
    forall k | 0 <= k < |ms| :: from <= ms[k].start < |t| && t[ms[k].start] == Some(ms[k].end)
  }

  /** Matches come in order and do not overlap. */
  predicate Ordered(ms: seq<Match>) {
    forall k | 0 <= k < |ms| - 1 :: ms[k].end <= ms[k + 1].start
  }

  /** No position from `from` on that lies outside every match admits one. */
  predicate NoneMissed(t: seq<Option<nat>>, from: nat, ms: seq<Match>) {
    forall p {:trigger Covered(ms, p)} | from <= p < |t| && !Covered(ms, p) :: t[p].None?
  }

  lemma {:induction false} ExtendByMatch(t: seq<Option<nat>>, from: nat, rest: seq<Match>)
    requires Progressive(t) && from < |t| && t[from].Some?
    requires Genuine(t, t[from].value, rest) && Ordered(rest) && NoneMissed(t, t[from].value, rest)
    ensures Genuine(t, from, [Match(from, t[from].value)] + rest)
    ensures Ordered([Match(from, t[from].value)] + rest)
    ensures NoneMissed(t, from, [Match(from, t[from].value)] + rest)
  {
    var e := t[from].value;
    var ms := [Match(from, e)] + rest;
    forall p | from <= p < |t| && t[p].Some? ensures Covered(ms, p) {
      if p < e {
        assert ms[0].start <= p < ms[0].end;
      } else {
        assert Covered(rest, p);
        var k :| 0 <= k < |rest| && rest[k].start <= p < rest[k].end;
        assert ms[k + 1] == rest[k];
      }
    }
  }

  /** The scan of `re.finditer` over a table of per-position outcomes: take the
      match at `from` and resume at its end, or move one position on. */
  function Scan(t: seq<Option<nat>>, from: nat): (ms: seq<Match>)
    requires Progressive(t) && from <= |t|
    ensures Genuine(t, from, ms) && Ordered(ms) && NoneMissed(t, from, ms)
    decreases |t| - from
  {
    if from == |t| then []
    else if t[from].Some? then
      var rest := Scan(t, t[from].value);
      ExtendByMatch(t, from, rest);
      [Match(from, t[from].value)] + rest
    else
      Scan(t, from + 1)
  }

  /** `re.finditer(rule, s)`: the matches are genuine, ordered without
      overlap, and every position the scan skips over admits no match, so no
      match was missed. */
  function FindAll(rule: Rule, s: string): (ms: seq<Match>)
    requires WellFormed(rule)
    ensures forall k | 0 <= k < |ms| :: ms[k].start < ms[k].end <= |s|
    ensures Ordered(ms)
  {
    var t := MatchTable(rule, s);
    Scan(t, 0)
  }

  /** What the scan promises in terms of the rule itself: every reported
      match is the rule's match at its start, and every position outside the
      reported matches admits none. */
  lemma FindAllSound(rule: Rule, s: string)
    requires WellFormed(rule)
    ensures var ms := FindAll(rule, s);
      forall k | 0 <= k < |ms| :: MatchAt(rule, s, ms[k].start) == Some(ms[k].end)
    ensures var ms := FindAll(rule, s);
      forall p | 0 <= p < |s| && !Covered(ms, p) :: MatchAt(rule, s, p).None?
  {
  }

  /** `match.group()`. */
  function MatchText(s: string, m: Match): string
    requires m.start <= m.end <= |s|
  {
    s[m.start..m.end]
  }

  /** Every position where the rule matches lies inside a reported match. */
  lemma MatchedIsCovered(rule: Rule, s: string, p: nat)
    requires WellFormed(rule) && p < |s| && MatchAt(rule, s, p).Some?
    ensures Covered(FindAll(rule, s), p)
  {
    FindAllSound(rule, s);
  }

  /** `len(re.findall(rule, s)) > 0` exactly when the rule matches somewhere. */
  lemma {:induction false} FindAllEmptyIff(rule: Rule, s: string)
    requires WellFormed(rule)
    ensures FindAll(rule, s) == [] <==> forall p | 0 <= p < |s| :: MatchAt(rule, s, p).None?
  {
    var ms := FindAll(rule, s);
    FindAllSound(rule, s);
    if ms != [] {
      assert MatchAt(rule, s, ms[0].start).Some?;
    }
  }

  /** Within one rule, match positions strictly increase. */
  lemma {:induction false} StartsIncrease(rule: Rule, s: string, i: nat, j: nat)
    requires WellFormed(rule)
    requires i < j < |FindAll(rule, s)|
    ensures FindAll(rule, s)[i].start < FindAll(rule, s)[j].start
    decreases j - i
  {
    var ms := FindAll(rule, s);
    if j > i + 1 {
      StartsIncrease(rule, s, i, j - 1);
    }
    assert ms[j - 1].start < ms[j - 1].end <= ms[j].start;
  }

  /** The `k`-th character of a case-insensitive match. */
  lemma {:induction false} MatchedChar(s: string, i: nat, w: string, k: nat)
    requires MatchesIgnoringCase(s, i, w) && k < |w|
    ensures LowerChar(s[i + k]) == LowerChar(w[k])
    decreases k
  {
    if k > 0 {
      MatchedChar(s, i + 1, w[1..], k - 1);
    }
  }

  /** A word-list match is a whole word: it spells one of the alternatives
      (in any case) and is not preceded or followed by a word character. */
  lemma WordListMatchIsWholeWord(ws: seq<string>, s: string, i: nat)
    requires WholeWords(ws) && i <= |s|
    requires MatchAt(WordList(ws), s, i).Some?
    ensures var e := MatchAt(WordList(ws), s, i).value;
      (i == 0 || !IsWordChar(s[i - 1])) && (e == |s| || !IsWordChar(s[e]))
      && exists k | 0 <= k < |ws| :: e == i + |ws[k]| && MatchesIgnoringCase(s, i, ws[k])
  {
    var e := MatchAt(WordList(ws), s, i).value;
    var k :| 0 <= k < |ws| && e == i + |ws[k]| && MatchesIgnoringCase(s, i, ws[k]);
    var w := ws[k];
    MatchedChar(s, i, w, 0);
    MatchedChar(s, i, w, |w| - 1);
    assert IsWordChar(s[i]) && IsWordChar(s[e - 1]);
  }

  /** No alternative that spells the text at `i` is followed by `\b`. */
  lemma {:induction false} FirstWordNone(s: string, i: nat, ws: seq<string>)
    requires i <= |s|
    requires forall k | 0 <= k < |ws| :: !MatchesIgnoringCase(s, i, ws[k]) || !Boundary(s, i + |ws[k]|)
    ensures FirstWord(s, i, ws).None?
  {
    if ws != [] {
      assert !MatchesIgnoringCase(s, i, ws[0]) || !Boundary(s, i + |ws[0]|);
      assert forall k | 0 <= k < |ws[1..]| :: ws[1..][k] == ws[k + 1];
      FirstWordNone(s, i, ws[1..]);
    }
  }

  /** Matching is whole-word: "mastered" contains no non-inclusive term. */
  lemma MasteredIsNotMaster(s: string)
    requires s == "mastered"
    ensures MatchAt(NonInclusiveTerms, s, 0).None?
  {
    var ws := NonInclusiveTerms.words;
    forall k | 0 <= k < |ws| ensures !MatchesIgnoringCase(s, 0, ws[k]) || !Boundary(s, |ws[k]|) {
      if |ws[k]| < |s| {
        assert WordAt(s, |ws[k]| - 1) && WordAt(s, |ws[k]|);
      }
    }
    FirstWordNone(s, 0, ws);
  }

  lemma MasterIsFlagged()
    ensures MatchAt(NonInclusiveTerms, "master", 0) == Some(6)
  {
    assert MatchesIgnoringCase("master", 0, "master");
  }

  /** The shape of a passive-voice match: a whole-word auxiliary, whitespace,
      then a word ending in "ed" whose end is a word boundary. */
  lemma PassiveMatchShape(auxs: seq<string>, s: string, i: nat)
    requires WellFormed(PassiveVoice(auxs)) && i <= |s| && MatchAt(PassiveVoice(auxs), s, i).Some?
    ensures var e := MatchAt(PassiveVoice(auxs), s, i).value;
      (i == 0 || !IsWordChar(s[i - 1]))
      && (exists k | 0 <= k < |auxs| :: MatchesIgnoringCase(s, i, auxs[k]))
      && LowerChar(s[e - 2]) == 'e' && LowerChar(s[e - 1]) == 'd'
      && (e == |s| || !IsWordChar(s[e]))
  {
    var j := FirstAuxiliary(s, i, auxs).value;
    var k :| 0 <= k < |auxs| && j == i + |auxs[k]| && MatchesIgnoringCase(s, i, auxs[k]);
    MatchedChar(s, i, auxs[k], 0);
  }

  /** The shape of a long-sentence match: it starts at a terminator, then after
      optional whitespace comes an upper-case ASCII letter followed by at least
      100 characters that are not terminators, and it ends with a terminator. */
  lemma LongSentenceShape(s: string, i: nat)
    requires i <= |s| && MatchAt(LongSentence, s, i).Some?
    ensures var e := MatchAt(LongSentence, s, i).value;
      IsTerminator(s[i]) && IsTerminator(s[e - 1])
      && exists w | i < w < e - 1 :: IsUpper(s[w]) && e - 1 - (w + 1) >= LongSentenceMinimum
           && NoTerminator(s[w + 1..e - 1])
  {
    var t := Run(s, i, IsTerminator);
    var w := i + t + Run(s, i + t, IsSpace);
    var n := w + 1 + Run(s, w + 1, NotTerminator);
    assert IsUpper(s[w]);
    var body := s[w + 1..n];
    forall k | 0 <= k < |body| ensures !IsTerminator(body[k]) {
      assert body[k] == s[w + 1 + k];
    }
  }

  /** The first sentence of a text is never flagged as long: a text with no
      terminator except possibly its last character yields no long-sentence
      match, however long it is. */
  lemma {:induction false} SingleSentenceNeverLong(s: string)
    requires forall k | 0 <= k < |s| - 1 :: !IsTerminator(s[k])
    ensures FindAll(LongSentence, s) == []
  {
    forall p | 0 <= p < |s| ensures MatchAt(LongSentence, s, p).None? {
      if MatchAt(LongSentence, s, p).Some? {
        LongSentenceShape(s, p);
      }
    }
    FindAllEmptyIff(LongSentence, s);
  }
}
