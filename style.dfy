/** What the offline and the web-enabled analyzers share: the issue records
    they emit, the text statistics, the three-tier status, the terminology
    table, the canned improvement suggestions and the style-guideline
    reference data. */
module Style {
  import opened Wrappers
  import opened TextModel
  import opened Patterns

  const StyleGuideBaseUrl := "https://learn.microsoft.com/en-us/style-guide"

  // ---------------------------------------------------------------------------
  // Issues and suggestions

  /** The `type` of an issue. */
  datatype Category = VoiceTone | Grammar | Terminology | Accessibility

  function CategoryName(c: Category): string {
    match c
    case VoiceTone => "voice_tone"
    case Grammar => "grammar"
    case Terminology => "terminology"
    case Accessibility => "accessibility"
  }

  /** Distinct categories have distinct names. */
  lemma CategoryNameInjective(c: Category, d: Category)
    requires CategoryName(c) == CategoryName(d)
    ensures c == d
  {
  }

  datatype Severity = Info | Warning | Error

  datatype Principle = WarmAndRelaxed | ReadyToHelp | CrispAndClear | BiasFreeCommunication

  /** The `message` of an issue. */
  datatype Message =
    | UseContractions
    | UseActiveVoice
    | BreakLongSentence
    | MayNotBeInclusive(matched: string)
    | UseGenderNeutral
    | UseInstead(correct: string, avoid: string)
    | HighAverage
  {
    function Text(): string {
      match this
      case UseContractions => "Consider using contractions (it's, you're, we'll) for a more natural tone"
      case UseActiveVoice => "Consider using active voice for clarity"
      case BreakLongSentence => "Long sentence detected - " + "consider breaking into shorter sentences"
      case MayNotBeInclusive(t) => "'" + t + "' may not be inclusive - consider alternatives"
      case UseGenderNeutral => "Consider gender-neutral alternatives"
      case UseInstead(correct, avoid) => "Use '" + correct + "' instead of '" + avoid + "'"
      case HighAverage => "Average sentence length is high"
    }
  }

  /** One entry of `issues`; the optional fields are the dictionary keys that
      only some rules set. */
  datatype Issue = Issue(
    category: Category,
    severity: Severity,
    message: Message,
    position: Option<nat>,
    text: Option<string>,
    principle: Option<Principle>,
    note: Option<string>)

  /** One entry of `suggestions`; its `type` is always "positive". */
  datatype Suggestion = Suggestion(message: string, principle: Principle)

  /** The issue raised when the text has no contraction. */
  const ContractionIssue := Issue(VoiceTone, Info, UseContractions, None, None, Some(WarmAndRelaxed), None)

  function ContractionSuggestion(count: nat): Suggestion {
    Suggestion("Good use of contractions (" + NatToString(count) + " found) - supports warm, natural tone", WarmAndRelaxed)
  }

  function YouSuggestion(count: nat): Suggestion {
    Suggestion("Good use of 'you' (" + NatToString(count) + " instances) - directly engages readers", ReadyToHelp)
  }

  /** The position of an issue in the order the analyzers emit them: voice and
      tone, passive voice, long sentences, terminology, non-inclusive terms,
      gendered pronouns. */
  function Rank(issue: Issue): nat {
    match (issue.category, issue.severity)
    case (VoiceTone, _) => 0
    case (Grammar, Warning) => 1
    case (Grammar, _) => 2
    case (Terminology, _) => 3
    case (Accessibility, Error) => 4
    case (Accessibility, _) => 5
  }

  // ---------------------------------------------------------------------------
  // One issue per regular-expression match

  /** The pattern rules that raise one issue per match. */
  datatype Finding = PassiveFinding | LongFinding | NonInclusiveFinding | GenderedFinding

  /** What an analyzer's constructor sets up and its analyses only read: the
      word lists of `self.patterns` and `self.terminology_standards`. The
      long-sentence pattern has no list. */
  datatype Analyzer = Analyzer(
    contractions: seq<string>,
    youAddressing: seq<string>,
    passiveAuxiliaries: seq<string>,
    nonInclusiveTerms: seq<string>,
    genderedPronouns: seq<string>,
    terminologyStandards: seq<TermStandard>)
  {
    predicate Valid() {
      && WholeWords(contractions) && WholeWords(youAddressing) && WholeWords(passiveAuxiliaries)
      && WholeWords(nonInclusiveTerms) && WholeWords(genderedPronouns)
    }

    /** The rule behind each finding. */
    function RuleFor(f: Finding): (rule: Rule)
      requires Valid()
      ensures WellFormed(rule)
    {
      match f
      case PassiveFinding => PassiveVoice(passiveAuxiliaries)
      case LongFinding => LongSentence
      case NonInclusiveFinding => WordList(nonInclusiveTerms)
      case GenderedFinding => WordList(genderedPronouns)
    }
  }

  /** The analyzer as the constructor builds it. */
  const Builtin := Analyzer(Contractions.words, YouAddressing.words, PassiveConstruction.auxiliaries,
    NonInclusiveTerms.words, GenderedPronouns.words, TerminologyStandards)

  lemma BuiltinValid()
    ensures Builtin.Valid()
  {
    LibraryWellFormed();
  }

  function FindingRank(f: Finding): nat {
    match f
    case PassiveFinding => 1
    case LongFinding => 2
    case NonInclusiveFinding => 4
    case GenderedFinding => 5
  }

  /** The category and severity of the issues each rule raises: passive
      voice is a grammar warning, a long sentence grammar information, a
      non-inclusive term an accessibility error and a gendered pronoun an
      accessibility warning. */
  function FindingKind(f: Finding): (Category, Severity) {
    match f
    case PassiveFinding => (Grammar, Warning)
    case LongFinding => (Grammar, Info)
    case NonInclusiveFinding => (Accessibility, Error)
    case GenderedFinding => (Accessibility, Warning)
  }

  /** The issue raised for match `m` of rule `f` in `s`: it has the rule's
      category and severity, records the match start, and every rule but the
      long-sentence one records the matched text. */
  function FindingIssue(f: Finding, s: string, m: Match): (r: Issue)
    requires m.start <= m.end <= |s|
    ensures (r.category, r.severity) == FindingKind(f)
    ensures r.position == Some(m.start)
    ensures Rank(r) == FindingRank(f)
    ensures r.text == if f == LongFinding then None else Some(s[m.start..m.end])
  {
    var t := MatchText(s, m);
    match f
    case PassiveFinding => Issue(Grammar, Warning, UseActiveVoice, Some(m.start), Some(t), Some(CrispAndClear), None)
    case LongFinding => Issue(Grammar, Info, BreakLongSentence, Some(m.start), None, Some(CrispAndClear), None)
    case NonInclusiveFinding =>
      Issue(Accessibility, Error, MayNotBeInclusive(t), Some(m.start), Some(t), Some(BiasFreeCommunication), None)
    case GenderedFinding => Issue(Accessibility, Warning, UseGenderNeutral, Some(m.start), Some(t), Some(BiasFreeCommunication), None)
  }

  predicate WithinText(ms: seq<Match>, s: string) {
    forall k | 0 <= k < |ms| :: ms[k].start <= ms[k].end <= |s|
  }

  function MatchIssues(f: Finding, s: string, ms: seq<Match>): (r: seq<Issue>)
    requires WithinText(ms, s)
    ensures |r| == |ms|
  {
    if ms == [] then []
    else MatchIssues(f, s, ms[..|ms| - 1]) + [FindingIssue(f, s, ms[|ms| - 1])]
  }

  /** The `k`-th issue is the one for the `k`-th match. */
  lemma {:induction false} MatchIssueAt(f: Finding, s: string, ms: seq<Match>, k: nat)
    requires WithinText(ms, s) && k < |ms|
    ensures MatchIssues(f, s, ms)[k] == FindingIssue(f, s, ms[k])
    decreases |ms|
  {
    if k < |ms| - 1 {
      MatchIssueAt(f, s, ms[..|ms| - 1], k);
    }
  }

  /** `re.finditer` for rule `f`. */
  function FindingMatches(an: Analyzer, f: Finding, s: string): (ms: seq<Match>)
    requires an.Valid()
    ensures WithinText(ms, s)
  {
    FindAll(an.RuleFor(f), s)
  }

  /** The issues of rule `f` over the whole text, one per `re.finditer` match. */
  function FindingIssues(an: Analyzer, f: Finding, s: string): seq<Issue>
    requires an.Valid()
  {
    MatchIssues(f, s, FindingMatches(an, f, s))
  }

  /** `for match in matches: issues.append(...)`. */
  method AppendMatchIssues(issues: seq<Issue>, f: Finding, s: string, ms: seq<Match>) returns (r: seq<Issue>)
    requires WithinText(ms, s)
    ensures r == issues + MatchIssues(f, s, ms)
  {
    r := issues;
    var i := 0;
    while i < |ms|
      invariant 0 <= i <= |ms|
      invariant r == issues + MatchIssues(f, s, ms[..i])
    {
      assert ms[..i + 1][..i] == ms[..i];
      r := r + [FindingIssue(f, s, ms[i])];
      i := i + 1;
    }
    assert ms[..|ms|] == ms;
  }

  /** One issue per `re.finditer` match of the rule behind `f`. */
  method AppendFindings(issues: seq<Issue>, an: Analyzer, f: Finding, s: string) returns (r: seq<Issue>)
    requires an.Valid()
    ensures r == issues + FindingIssues(an, f, s)
  {
    var ms := FindingMatches(an, f, s);
    r := AppendMatchIssues(issues, f, s, ms);
  }

  /** The `k`-th issue of rule `f` is the issue for the `k`-th match, which
      is a genuine match of the rule. */
  lemma FindingIssueIsMatch(an: Analyzer, f: Finding, s: string, k: nat)
    requires an.Valid() && k < |FindingIssues(an, f, s)|
    ensures var m := FindingMatches(an, f, s)[k];
      FindingIssues(an, f, s)[k] == FindingIssue(f, s, m) && MatchAt(an.RuleFor(f), s, m.start) == Some(m.end)
  {
    MatchIssueAt(f, s, FindingMatches(an, f, s), k);
    FindAllSound(an.RuleFor(f), s);
  }

  /** Within one rule, issue positions strictly increase. */
  lemma FindingPositionsIncrease(an: Analyzer, f: Finding, s: string, i: nat, j: nat)
    requires an.Valid() && i < j < |FindingIssues(an, f, s)|
    ensures FindingIssues(an, f, s)[i].position.Some? && FindingIssues(an, f, s)[j].position.Some?
    ensures FindingIssues(an, f, s)[i].position.value < FindingIssues(an, f, s)[j].position.value
  {
    MatchIssueAt(f, s, FindingMatches(an, f, s), i);
    MatchIssueAt(f, s, FindingMatches(an, f, s), j);
    StartsIncrease(an.RuleFor(f), s, i, j);
  }

  /** The issue for the match that covers position `p`. */
  lemma MatchIssuesCover(f: Finding, s: string, ms: seq<Match>, p: nat) returns (k: nat)
    requires WithinText(ms, s) && Covered(ms, p)
    ensures k < |ms| && ms[k].start <= p < ms[k].end
    ensures MatchIssues(f, s, ms)[k].position == Some(ms[k].start)
  {
    k :| 0 <= k < |ms| && ms[k].start <= p < ms[k].end;
    MatchIssueAt(f, s, ms, k);
  }

  /** No match is missed: every position where the rule matches lies inside a
      reported match, whose issue's position is its start. */
  lemma FindingIssuesComplete(an: Analyzer, f: Finding, s: string, p: nat)
    requires an.Valid() && p < |s| && MatchAt(an.RuleFor(f), s, p).Some?
    ensures exists k | 0 <= k < |FindingIssues(an, f, s)| ::
      FindingIssues(an, f, s)[k].position == Some(FindingMatches(an, f, s)[k].start)
      && FindingMatches(an, f, s)[k].start <= p < FindingMatches(an, f, s)[k].end
  {
    MatchedIsCovered(an.RuleFor(f), s, p);
    var k := MatchIssuesCover(f, s, FindingMatches(an, f, s), p);
  }

  // ---------------------------------------------------------------------------
  // Terminology

  datatype TermStandard = TermStandard(key: string, correct: string, avoid: seq<string>, note: string)

  const TerminologyStandards: seq<TermStandard> := [
    TermStandard("AI", "AI", ["A.I."], "No periods"),
    TermStandard("email", "email", ["e-mail"], "One word"),
    TermStandard("website", "website", ["web site"], "One word"),
    TermStandard("sign_in", "sign in (verb), sign-in (noun)", ["login", "log in"], "Microsoft standard"),
    TermStandard("setup", "set up (verb), setup (noun)", ["setup (verb)"], "Context dependent"),
    TermStandard("wifi", "Wi-Fi", ["WiFi", "wifi"], "Hyphenated, both caps")
  ]

  /** `avoid_term.lower() in text.lower()`: a substring test, not a word test. */
  predicate Flags(text: string, avoid: string) {
    Contains(Lower(text), Lower(avoid))
  }

  function TermIssue(std: TermStandard, avoid: string): Issue {
    Issue(Terminology, Warning, UseInstead(std.correct, avoid), None, Some(avoid), None, Some(std.note))
  }

  /** The issues for the avoid-terms `avoids` of one standard, in order. */
  function StandardIssues(std: TermStandard, avoids: seq<string>, text: string): (r: seq<Issue>)
    ensures |r| <= |avoids|
    ensures forall k | 0 <= k < |r| :: Rank(r[k]) == 3
  {
    if avoids == [] then []
    else
      var a := avoids[|avoids| - 1];
      StandardIssues(std, avoids[..|avoids| - 1], text) + (if Flags(text, a) then [TermIssue(std, a)] else [])
  }

  /** The issues of the terminology check over the standards `stds`, in
      table order. */
  function TermIssues(stds: seq<TermStandard>, text: string): (r: seq<Issue>)
    ensures forall k | 0 <= k < |r| :: Rank(r[k]) == 3
  {
    if stds == [] then []
    else
      var std := stds[|stds| - 1];
      TermIssues(stds[..|stds| - 1], text) + StandardIssues(std, std.avoid, text)
  }

  /** The outer loop over the table. */
  method AppendTerminology(issues: seq<Issue>, stds: seq<TermStandard>, text: string) returns (r: seq<Issue>)
    ensures r == issues + TermIssues(stds, text)
  {
    r := issues;
    var i := 0;
    while i < |stds|
      invariant 0 <= i <= |stds|
      invariant r == issues + TermIssues(stds[..i], text)
    {
      TermStep(stds, i, text);
      r := AppendStandard(r, stds[i], text);
      i := i + 1;
    }
    assert stds[..i] == stds;
  }

  /** The inner loop over one standard's avoid-terms. */
  method AppendStandard(issues: seq<Issue>, std: TermStandard, text: string) returns (r: seq<Issue>)
    ensures r == issues + StandardIssues(std, std.avoid, text)
  {
    r := issues;
    var j := 0;
    while j < |std.avoid|
      invariant 0 <= j <= |std.avoid|
      invariant r == issues + StandardIssues(std, std.avoid[..j], text)
    {
      var a := std.avoid[j];
      StandardStep(std, std.avoid, j, text);
      if Flags(text, a) {
        r := r + [TermIssue(std, a)];
      }
      j := j + 1;
    }
    assert std.avoid[..j] == std.avoid;
  }

  lemma StandardStep(std: TermStandard, avoids: seq<string>, j: nat, text: string)
    requires j < |avoids|
    ensures StandardIssues(std, avoids[..j + 1], text)
            == StandardIssues(std, avoids[..j], text) + (if Flags(text, avoids[j]) then [TermIssue(std, avoids[j])] else [])
  {
    assert avoids[..j + 1][..j] == avoids[..j];
  }

  lemma TermStep(stds: seq<TermStandard>, i: nat, text: string)
    requires i < |stds|
    ensures TermIssues(stds[..i + 1], text) == TermIssues(stds[..i], text) + StandardIssues(stds[i], stds[i].avoid, text)
  {
    assert stds[..i + 1][..i] == stds[..i];
  }

  /** The number of avoid-terms in a table. */
  function AvoidCount(stds: seq<TermStandard>): nat {
    if stds == [] then 0 else AvoidCount(stds[..|stds| - 1]) + |stds[|stds| - 1].avoid|
  }

  /** Each (standard, avoid-term) pair yields at most one issue. */
  lemma {:induction false} TermIssuesBound(stds: seq<TermStandard>, text: string)
    ensures |TermIssues(stds, text)| <= AvoidCount(stds)
    decreases |stds|
  {
    if stds != [] {
      TermIssuesBound(stds[..|stds| - 1], text);
    }
  }

  /** An issue of one standard names one of its avoid-terms that the text
      contains, and each flagged avoid-term has its issue. */
  lemma {:induction false} StandardIssuesIff(std: TermStandard, avoids: seq<string>, text: string, a: string)
    ensures TermIssue(std, a) in StandardIssues(std, avoids, text) <==> a in avoids && Flags(text, a)
    decreases |avoids|
  {
    if avoids != [] {
      var init := avoids[..|avoids| - 1];
      StandardIssuesIff(std, init, text, a);
      assert avoids == init + [avoids[|avoids| - 1]];
    }
  }

  /** No two standards of a table share their replacement. */
  predicate DistinctStandards(stds: seq<TermStandard>) {
    forall i, j | 0 <= i < j < |stds| :: stds[i].correct != stds[j].correct
  }

  /** Every issue of a standard carries that standard's replacement. */
  lemma {:induction false} StandardIssueShape(std: TermStandard, avoids: seq<string>, text: string, k: nat)
    requires k < |StandardIssues(std, avoids, text)|
    ensures exists a :: StandardIssues(std, avoids, text)[k] == TermIssue(std, a)
    decreases |avoids|
  {
    var init := avoids[..|avoids| - 1];
    if k < |StandardIssues(std, init, text)| {
      StandardIssueShape(std, init, text, k);
    } else {
      assert StandardIssues(std, avoids, text)[k] == TermIssue(std, avoids[|avoids| - 1]);
    }
  }

  /** Standards with different replacements never raise the same issue. */
  lemma IssuesOfDifferentStandards(s1: TermStandard, s2: TermStandard, a: string, b: string)
    requires s1.correct != s2.correct
    ensures TermIssue(s1, a) != TermIssue(s2, b)
  {
  }

  /** A standard whose replacement differs from every one of `stds` has none
      of its issues among theirs. */
  lemma {:induction false} TermIssuesExclude(stds: seq<TermStandard>, text: string, std: TermStandard, a: string)
    requires forall i | 0 <= i < |stds| :: stds[i].correct != std.correct
    ensures TermIssue(std, a) !in TermIssues(stds, text)
  {
    var issues := TermIssues(stds, text);
    forall k | 0 <= k < |issues| ensures issues[k] != TermIssue(std, a) {
      TermIssueShape(stds, text, k);
      var i, b :| 0 <= i < |stds| && issues[k] == TermIssue(stds[i], b);
      IssuesOfDifferentStandards(stds[i], std, b, a);
    }
  }

  /** A standard's issues are never raised by a standard with another
      replacement. */
  lemma StandardIssuesExclude(std: TermStandard, avoids: seq<string>, text: string, other: TermStandard, a: string)
    requires std.correct != other.correct
    ensures TermIssue(other, a) !in StandardIssues(std, avoids, text)
  {
    var issues := StandardIssues(std, avoids, text);
    forall k | 0 <= k < |issues| ensures issues[k] != TermIssue(other, a) {
      StandardIssueShape(std, avoids, text, k);
      var b :| issues[k] == TermIssue(std, b);
      IssuesOfDifferentStandards(std, other, b, a);
    }
  }

  /** Every terminology issue comes from a standard of the table. */
  lemma {:induction false} TermIssueShape(stds: seq<TermStandard>, text: string, k: nat)
    requires k < |TermIssues(stds, text)|
    ensures exists i, a | 0 <= i < |stds| :: TermIssues(stds, text)[k] == TermIssue(stds[i], a)
    decreases |stds|
  {
    var init := stds[..|stds| - 1];
    var last := stds[|stds| - 1];
    if k < |TermIssues(init, text)| {
      TermIssueShape(init, text, k);
      var i, a :| 0 <= i < |init| && TermIssues(init, text)[k] == TermIssue(init[i], a);
      assert init[i] == stds[i];
    } else {
      StandardIssueShape(last, last.avoid, text, k - |TermIssues(init, text)|);
    }
  }

  /** The issue for avoid-term `a` of a standard `std` of the table is raised
      exactly when `a` is one of its avoid-terms and the text contains `a`,
      ignoring case. */
  lemma {:induction false} TermIssuesIff(stds: seq<TermStandard>, text: string, std: TermStandard, a: string)
    requires DistinctStandards(stds) && std in stds
    ensures TermIssue(std, a) in TermIssues(stds, text) <==> a in std.avoid && Flags(text, a)
    decreases |stds|
  {
    var init := stds[..|stds| - 1];
    var last := stds[|stds| - 1];
    var issue := TermIssue(std, a);
    assert stds == init + [last];
    StandardIssuesIff(last, last.avoid, text, a);
    if std == last {
      assert forall i | 0 <= i < |init| :: init[i].correct != stds[|stds| - 1].correct;
      TermIssuesExclude(init, text, std, a);
    } else {
      var i :| 0 <= i < |stds| && stds[i] == std;
      assert i < |stds| - 1;
      assert std in init;
      TermIssuesIff(init, text, std, a);
      StandardIssuesExclude(last, last.avoid, text, std, a);
    }
  }

  lemma TableDistinct()
    ensures DistinctStandards(TerminologyStandards)
  {
  }

  /** The test is a substring test on lowered text, so a text containing
      "WiFi" in any case raises both Wi-Fi issues. */
  lemma WifiRaisesBoth(text: string)
    requires Flags(text, "wifi")
    ensures TermIssue(TerminologyStandards[5], "WiFi") in TermIssues(TerminologyStandards, text)
    ensures TermIssue(TerminologyStandards[5], "wifi") in TermIssues(TerminologyStandards, text)
  {
    TableDistinct();
    assert Lower("WiFi") == Lower("wifi");
    TermIssuesIff(TerminologyStandards, text, TerminologyStandards[5], "WiFi");
    TermIssuesIff(TerminologyStandards, text, TerminologyStandards[5], "wifi");
  }

  // ---------------------------------------------------------------------------
  // Statistics and status

  /** `word_count` and `sentence_count`. */
  datatype Statistics = Statistics(wordCount: nat, sentenceCount: nat)

  function StatisticsOf(text: string): (st: Statistics)
    ensures IsBlank(text) ==> st == Statistics(0, 0)
    ensures st.wordCount == |Words(text)| && st.sentenceCount == |Sentences(text)|
  {
    if IsBlank(text) then
      NonBlankOfBlankPieces(text);
      Statistics(0, 0)
    else Statistics(|Words(text)|, |Sentences(text)|)
  }

  /** Joining two texts with whitespace adds their word counts. */
  lemma StatisticsJoinAtSpace(a: string, c: char, b: string)
    requires IsSpace(c)
    ensures StatisticsOf(a + [c] + b).wordCount == StatisticsOf(a).wordCount + StatisticsOf(b).wordCount
  {
    WordsSplit(a, c, b);
  }

  /** Joining two texts with a terminator adds their sentence counts. */
  lemma StatisticsJoinAtTerminator(a: string, c: char, b: string)
    requires IsTerminator(c)
    ensures StatisticsOf(a + [c] + b).sentenceCount == StatisticsOf(a).sentenceCount + StatisticsOf(b).sentenceCount
  {
    SentencesSplit(a, c, b);
  }

  /** A stretch with neither whitespace nor terminators counts as one word
      and one sentence. */
  lemma StatisticsOfOneWord(w: string)
    requires w != [] && NoSpace(w) && NoTerminator(w)
    ensures StatisticsOf(w) == Statistics(1, 1)
  {
    SingleWord(w);
    SentencesOfSegment(w);
    assert !IsBlank(w) by {
      assert !IsSpace(w[0]);
    }
  }

  /** A blank text has only blank pieces. */
  lemma {:induction false} NonBlankOfBlankPieces(s: string)
    requires IsBlank(s)
    ensures Sentences(s) == [] && Words(s) == []
  {
    assert NoTerminator(s) by {
      forall k | 0 <= k < |s| ensures !IsTerminator(s[k]) {
        assert IsSpace(s[k]);
      }
    }
    assert Pieces(s) == [s];
  }

  /** `avg_words_per_sentence > 25`, where the average is
      `round(word_count / max(1, sentence_count), 1)`: rounding to one decimal
      gives more than 25 exactly when the quotient is at least 25.05. */
  predicate LongAverage(st: Statistics) {
    var sentences := if st.sentenceCount == 0 then 1 else st.sentenceCount;
    20 * st.wordCount >= 501 * sentences
  }

  /** A text of terminators only, such as "...", is one word but no sentence. */
  lemma TerminatorsOnly(s: string)
    requires s != [] && forall k | 0 <= k < |s| :: IsTerminator(s[k])
    ensures StatisticsOf(s) == Statistics(1, 0)
  {
    assert !IsSpace(s[0]);
    TerminatorsOneWord(s);
    TerminatorsNoSentence(s);
  }

  lemma {:induction false} TerminatorsOneWord(s: string)
    requires s != [] && forall k | 0 <= k < |s| :: IsTerminator(s[k])
    ensures Words(s) == [s]
  {
    assert NoSpace(s) by {
      forall k | 0 <= k < |s| ensures !IsSpace(s[k]) {
        assert IsTerminator(s[k]);
      }
    }
    SingleWord(s);
  }

  lemma {:induction false} TerminatorsNoSentence(s: string)
    requires s != [] && forall k | 0 <= k < |s| :: IsTerminator(s[k])
    ensures Sentences(s) == []
  {
    RunCovers(s, 0, IsTerminator);
    assert Run(s, 0, NotTerminator) == 0;
    var empty: string := [];
    assert Pieces(s) == [s[..0]] + Pieces(s[|s|..]);
    assert Pieces(empty) == [empty];
    assert IsBlank(empty);
    assert NonBlank([empty]) == [];
    assert NonBlank([empty, empty]) == NonBlank([empty]);
  }

  /** The three tiers of the overall assessment. */
  datatype Status = Excellent | Good | NeedsWork {
    function Label(): string {
      match this
      case Excellent => "✅ Excellent"
      case Good => "⚠️ Good"
      case NeedsWork => "❌ Needs Work"
    }
    function Assessment(): string {
      match this
      case Excellent => "Content follows Microsoft Style Guide principles well"
      case Good => "Minor style improvements suggested"
      case NeedsWork => "Multiple style issues detected"
    }
  }

  function StatusFor(totalIssues: nat): (s: Status)
    ensures s == Excellent <==> totalIssues == 0
    ensures s == Good <==> 1 <= totalIssues <= 2
    ensures s == NeedsWork <==> totalIssues >= 3
  {
    if totalIssues == 0 then Excellent
    else if totalIssues <= 2 then Good
    else NeedsWork
  }

  function Level(s: Status): nat {
    match s
    case Excellent => 0
    case Good => 1
    case NeedsWork => 2
  }

  /** More issues never give a better status. */
  lemma StatusMonotone(a: nat, b: nat)
    requires a <= b
    ensures Level(StatusFor(a)) <= Level(StatusFor(b))
  {
  }

  /** The result of `analyze_content` without the web-only keys. */
  datatype Analysis = Analysis(
    status: Status,
    statistics: Statistics,
    issues: seq<Issue>,
    suggestions: seq<Suggestion>,
    totalIssues: nat,
    analysisType: string,
    styleGuideUrl: string)

  /** `analysis_type in ["comprehensive", <block>]`: whether the block of
      checks for category `c` runs. */
  predicate Runs(analysisType: string, c: Category) {
    analysisType == "comprehensive" || analysisType == CategoryName(c)
  }

  /** The issues of a block that runs only when `runs` holds. */
  function Gate(runs: bool, issues: seq<Issue>): seq<Issue> {
    if runs then issues else []
  }

  /** Builds the result dictionary from the collected issues and suggestions. */
  function Assemble(text: string, analysisType: string, issues: seq<Issue>, suggestions: seq<Suggestion>): (a: Analysis)
    ensures a.totalIssues == |a.issues| && a.issues == issues && a.suggestions == suggestions
    ensures a.status == Excellent <==> issues == []
    ensures a.status == Good <==> 1 <= |issues| <= 2
    ensures a.status == NeedsWork <==> |issues| >= 3
  {
    Analysis(StatusFor(|issues|), StatisticsOf(text), issues, suggestions, |issues|, analysisType, StyleGuideBaseUrl)
  }

  // ---------------------------------------------------------------------------
  // Voice and tone

  function ContractionCount(an: Analyzer, text: string): nat
    requires an.Valid()
  {
    |FindAll(WordList(an.contractions), text)|
  }

  function YouCount(an: Analyzer, text: string): nat
    requires an.Valid()
  {
    |FindAll(WordList(an.youAddressing), text)|
  }

  /** The contraction issue, raised when the text has no contraction. */
  function VoiceIssues(an: Analyzer, text: string): seq<Issue>
    requires an.Valid()
  {
    if ContractionCount(an, text) > 0 then [] else [ContractionIssue]
  }

  function VoiceSuggestions(an: Analyzer, text: string): seq<Suggestion>
    requires an.Valid()
  {
    (if ContractionCount(an, text) > 0 then [ContractionSuggestion(ContractionCount(an, text))] else [])
    + (if YouCount(an, text) > 0 then [YouSuggestion(YouCount(an, text))] else [])
  }

  /** Exactly one of the contraction suggestion and the contraction issue is
      emitted; the "you" suggestion appears exactly when "you" occurs as a
      whole word somewhere. */
  lemma VoiceExclusive(an: Analyzer, text: string)
    requires an.Valid()
    ensures |VoiceIssues(an, text)| + (if ContractionCount(an, text) > 0 then 1 else 0) == 1
    ensures |VoiceSuggestions(an, text)| <= 2
    ensures (exists k | 0 <= k < |VoiceSuggestions(an, text)| :: VoiceSuggestions(an, text)[k].principle == ReadyToHelp)
      <==> exists p | 0 <= p < |text| :: MatchAt(WordList(an.youAddressing), text, p).Some?
  {
    FindAllEmptyIff(WordList(an.youAddressing), text);
    if YouCount(an, text) > 0 {
      var vs := VoiceSuggestions(an, text);
      assert vs[|vs| - 1].principle == ReadyToHelp;
    }
  }

  // ---------------------------------------------------------------------------
  // Improvement suggestions

  /** The canned texts of `_get_improvement_suggestion`. */
  datatype Advice =
    | SoundNatural
    | ChangeToActiveVoice(text: string)
    | ReplaceWithApprovedTerm
    | UseInclusiveAlternative(text: string)
    | FollowStyleGuide
    | BreakLongSentences
  {
    function Text(): string {
      match this
      case SoundNatural => "Use more contractions and direct language to sound natural and friendly"
      case ChangeToActiveVoice(t) => "Change '" + t + "' to active voice"
      case ReplaceWithApprovedTerm => "Replace with Microsoft-approved term as noted"
      case UseInclusiveAlternative(t) => "Use inclusive alternative for '" + t + "'"
      case FollowStyleGuide => "Follow Microsoft Style Guide recommendations"
      case BreakLongSentences => "Break long sentences into shorter, clearer ones"
    }
  }

  /** One entry of `improvements`. */
  datatype Improvement = Improvement(issue: Message, suggestion: Advice, category: Category, severity: Severity)

  /** `_get_improvement_suggestion`: the advice depends on the issue type
      alone, except that a grammar issue gets the passive-voice advice only
      when its message mentions "passive". */
  function ImprovementSuggestion(issue: Issue): (r: Advice)
    ensures issue.category == Grammar && !Contains(issue.message.Text(), "passive") ==> r == FollowStyleGuide
    ensures issue.category == Accessibility ==> r == UseInclusiveAlternative(issue.text.GetOr(""))
  {
    match issue.category
    case VoiceTone => SoundNatural
    case Grammar => if Contains(issue.message.Text(), "passive") then ChangeToActiveVoice(issue.text.GetOr("")) else FollowStyleGuide
    case Terminology => ReplaceWithApprovedTerm
    case Accessibility => UseInclusiveAlternative(issue.text.GetOr(""))
  }

  function ImprovementFor(issue: Issue): Improvement {
    Improvement(issue.message, ImprovementSuggestion(issue), issue.category, issue.severity)
  }

  /** `focus_area == "all" or issue["type"] == focus_area`. */
  predicate Selects(focusArea: string, issue: Issue) {
    focusArea == "all" || CategoryName(issue.category) == focusArea
  }

  /** The improvements for the selected issues, in order. */
  function Improvements(issues: seq<Issue>, focusArea: string): (r: seq<Improvement>)
    ensures |r| <= |issues|
  {
    if issues == [] then []
    else
      var last := issues[|issues| - 1];
      Improvements(issues[..|issues| - 1], focusArea) + (if Selects(focusArea, last) then [ImprovementFor(last)] else [])
  }

  /** The extra item added when the average sentence length is high. */
  const AverageImprovement := Improvement(HighAverage, BreakLongSentences, Grammar, Info)

  function ImprovementsSpec(issues: seq<Issue>, focusArea: string, st: Statistics): seq<Improvement> {
    Improvements(issues, focusArea) + (if LongAverage(st) then [AverageImprovement] else [])
  }

  /** The result of `suggest_improvements`. */
  datatype Report = Report(
    textPreview: string,
    totalImprovements: nat,
    improvements: seq<Improvement>,
    focusArea: string,
    styleGuideUrl: string)

  /** The loop of `suggest_improvements` followed by the average check. */
  method CollectImprovements(issues: seq<Issue>, focusArea: string, st: Statistics) returns (r: seq<Improvement>)
    ensures r == ImprovementsSpec(issues, focusArea, st)
  {
    r := [];
    var i := 0;
    while i < |issues|
      invariant 0 <= i <= |issues|
      invariant r == Improvements(issues[..i], focusArea)
    {
      assert issues[..i + 1][..i] == issues[..i];
      if Selects(focusArea, issues[i]) {
        r := r + [ImprovementFor(issues[i])];
      }
      i := i + 1;
    }
    assert issues[..i] == issues;
    if LongAverage(st) {
      r := r + [AverageImprovement];
    }
  }

  /** With focus "all" every issue becomes an improvement, in order. */
  lemma {:induction false} ImprovementsAll(issues: seq<Issue>)
    ensures |Improvements(issues, "all")| == |issues|
    ensures forall k | 0 <= k < |issues| :: Improvements(issues, "all")[k] == ImprovementFor(issues[k])
    decreases |issues|
  {
    if issues != [] {
      var init := issues[..|issues| - 1];
      ImprovementsAll(init);
      assert forall k | 0 <= k < |init| :: init[k] == issues[k];
    }
  }

  /** Any other focus keeps exactly the issues of that type, in order: the
      improvements are those that focus "all" gives for `Only(issues, c)`. */
  lemma {:induction false} ImprovementsFiltered(issues: seq<Issue>, focusArea: string, c: Category)
    requires focusArea == CategoryName(c)
    ensures Improvements(issues, focusArea) == Improvements(Only(issues, c), "all")
    ensures forall k | 0 <= k < |Improvements(issues, focusArea)| :: Improvements(issues, focusArea)[k].category == c
    ensures |Improvements(issues, focusArea)| == |Only(issues, c)|
    decreases |issues|
  {
    if issues != [] {
      var init, last := issues[..|issues| - 1], issues[|issues| - 1];
      ImprovementsFiltered(init, focusArea, c);
      SelectsCategory(focusArea, c, last);
      var kept := Only(init, c);
      if last.category == c {
        var both := kept + [last];
        assert both[..|kept|] == kept && both[|both| - 1] == last;
        assert Improvements(both, "all") == Improvements(kept, "all") + [ImprovementFor(last)];
        assert Improvements(issues, focusArea) == Improvements(init, focusArea) + [ImprovementFor(last)];
      } else {
        assert Only(issues, c) == kept;
        assert Improvements(issues, focusArea) == Improvements(init, focusArea);
      }
    }
  }

  /** A category's focus selects exactly the issues of that category. */
  lemma SelectsCategory(focusArea: string, c: Category, issue: Issue)
    requires focusArea == CategoryName(c)
    ensures Selects(focusArea, issue) <==> issue.category == c
  {
    if CategoryName(issue.category) == focusArea {
      CategoryNameInjective(issue.category, c);
    }
  }

  /** The issues of category `c`, in order: every issue of that category is
      kept, and nothing else. */
  function Only(issues: seq<Issue>, c: Category): (r: seq<Issue>)
    ensures |r| <= |issues|
    ensures forall k | 0 <= k < |r| :: r[k].category == c
    ensures forall k | 0 <= k < |issues| && issues[k].category == c :: issues[k] in r
    ensures multiset(r) <= multiset(issues)
  {
    if issues == [] then []
    else
      var init, last := issues[..|issues| - 1], issues[|issues| - 1];
      assert issues == init + [last];
      assert forall k | 0 <= k < |init| :: issues[k] == init[k];
      Only(init, c) + (if last.category == c then [last] else [])
  }

  /** A focus that names no issue type keeps only the average item. */
  lemma {:induction false} ImprovementsUnknownFocus(issues: seq<Issue>, focusArea: string)
    requires focusArea != "all" && forall c: Category :: CategoryName(c) != focusArea
    ensures Improvements(issues, focusArea) == []
    decreases |issues|
  {
    if issues != [] {
      ImprovementsUnknownFocus(issues[..|issues| - 1], focusArea);
    }
  }

  /** The grammar messages never contain "passive", so every grammar issue an
      analyzer raises gets the generic suggestion, passive voice included. */
  lemma GrammarGetsGeneric(f: Finding, s: string, m: Match)
    requires m.start <= m.end <= |s| && (f == PassiveFinding || f == LongFinding)
    ensures ImprovementSuggestion(FindingIssue(f, s, m)) == FollowStyleGuide
  {
    var msg := FindingIssue(f, s, m).message.Text();
    forall k | 0 <= k < |msg| ensures msg[k] != 'p' {
      if f == PassiveFinding {
        NoLetterInActiveVoice(msg, k);
      } else {
        NoLetterInLongSentence(msg, k);
      }
    }
    NotContainsChar(msg, "passive", 0);
  }

  /** Neither grammar message has the letter 'p'. */
  lemma NoLetterInActiveVoice(m: string, k: nat)
    requires m == UseActiveVoice.Text() && k < |m|
    ensures m[k] != 'p'
  {
    assert m == "Consider using active voice for clarity";
  }

  lemma NoLetterInLongSentence(m: string, k: nat)
    requires m == BreakLongSentence.Text() && k < |m|
    ensures m[k] != 'p'
  {
    var head, tail := "Long sentence detected - ", "consider breaking into shorter sentences";
    if k < |head| {
      NoLetterInPiece(head, k);
    } else {
      NoLetterInPiece(tail, k - |head|);
    }
  }

  lemma NoLetterInPiece(piece: string, k: nat)
    requires piece == "Long sentence detected - " || piece == "consider breaking into shorter sentences"
    requires k < |piece|
    ensures piece[k] != 'p'
  {
  }

  /** `text[:100] + "..." if len(text) > 100 else text`. */
  function TextPreview(text: string): (r: string)
    ensures |text| <= 100 ==> r == text
    ensures |text| > 100 ==> |r| == 103 && r[..100] == text[..100] && r[100..] == "..."
  {
    if |text| > 100 then text[..100] + "..." else text
  }

  // ---------------------------------------------------------------------------
  // Style guidelines

  /** The four blocks of `principles`. */
  datatype Block =
    | VoiceAndTone(warmAndRelaxed: seq<string>, crispAndClear: seq<string>, readyToHelp: seq<string>)
    | GrammarRules(activeVoice: string, sentenceStructure: string, imperativeMood: string)
    | TerminologyRules(standards: seq<TermStandard>)
    | AccessibilityRules(inclusiveLanguage: seq<string>, peopleFirst: string, genderNeutral: string)

  /** The keys of `principles`. */
  datatype Key = VoiceAndToneKey | GrammarKey | TerminologyKey | AccessibilityKey {
    function Name(): string {
      match this
      case VoiceAndToneKey => "voice_and_tone"
      case GrammarKey => "grammar"
      case TerminologyKey => "terminology"
      case AccessibilityKey => "accessibility"
    }
  }

  /** One key of `principles` with its block and, in the web variant, the
      `official_url` stored inside the block. */
  datatype Entry = Entry(key: Key, block: Block, officialUrl: Option<string>)

  datatype Guidelines = Guidelines(category: string, baseUrl: string, principles: seq<Entry>, webEnabled: bool)

  /** The `official_url` of each block in the web variant. */
  datatype BlockUrls = BlockUrls(voice: string, grammar: string, terminology: string, accessibility: string)

  const VoiceBlock := VoiceAndTone(
    ["Use contractions (it's, you're, we'll)", "Write like you speak - natural, conversational", "Be friendly and approachable"],
    ["Be direct and scannable", "Keep sentences under 25 words", "Use simple, clear language"],
    ["Use action-oriented language", "Address readers as 'you'", "Be supportive and encouraging"])

  const GrammarBlock := GrammarRules(
    "Use active voice for clarity and engagement",
    "Keep sentences short and parallel",
    "Use for instructions (Click, Choose, Select)")

  const AccessibilityBlock := AccessibilityRules(
    ["Use 'everyone' instead of 'guys'", "Use 'allow list' instead of 'whitelist'", "Use 'primary/secondary' instead of 'master/slave'"],
    "Use 'people with disabilities' not 'disabled people'",
    "Avoid gendered pronouns in generic references")

  /** The key order of a `principles` dictionary. */
  function EntryOrder(key: Key): nat {
    match key
    case VoiceAndToneKey => 0
    case GrammarKey => 1
    case TerminologyKey => 2
    case AccessibilityKey => 3
  }

  /** The keys of `principles`, in insertion order. */
  function Keys(ps: seq<Entry>): (r: seq<Key>)
    ensures |r| == |ps| && forall k | 0 <= k < |ps| :: r[k] == ps[k].key
  {
    seq(|ps|, k requires 0 <= k < |ps| => ps[k].key)
  }

  /** The block stored under each key is the one that key names, with the
      official URL of the web variant when one is given. */
  predicate EntryFits(e: Entry, urls: Option<BlockUrls>) {
    match e.key
    case VoiceAndToneKey => e.block == VoiceBlock && e.officialUrl == (if urls.Some? then Some(urls.value.voice) else None)
    case GrammarKey => e.block == GrammarBlock && e.officialUrl == (if urls.Some? then Some(urls.value.grammar) else None)
    case TerminologyKey =>
      e.block == TerminologyRules(TerminologyStandards) && e.officialUrl == (if urls.Some? then Some(urls.value.terminology) else None)
    case AccessibilityKey => e.block == AccessibilityBlock && e.officialUrl == (if urls.Some? then Some(urls.value.accessibility) else None)
  }

  /** The `category` words that select each block besides "all". */
  function CategoryWord(key: Key): string {
    match key
    case VoiceAndToneKey => "voice"
    case GrammarKey => "grammar"
    case TerminologyKey => "terminology"
    case AccessibilityKey => "accessibility"
  }

  /** `category in [<word>, "all"]`. */
  predicate Requested(category: string, key: Key) {
    category == CategoryWord(key) || category == "all"
  }

  /** The entry stored under `key`, with its official URL in the web variant. */
  function EntryFor(key: Key, urls: Option<BlockUrls>): (e: Entry)
    ensures e.key == key && EntryFits(e, urls)
  {
    match key
    case VoiceAndToneKey => Entry(key, VoiceBlock, if urls.Some? then Some(urls.value.voice) else None)
    case GrammarKey => Entry(key, GrammarBlock, if urls.Some? then Some(urls.value.grammar) else None)
    case TerminologyKey => Entry(key, TerminologyRules(TerminologyStandards), if urls.Some? then Some(urls.value.terminology) else None)
    case AccessibilityKey => Entry(key, AccessibilityBlock, if urls.Some? then Some(urls.value.accessibility) else None)
  }

  /** `if category in [<word>, "all"]: principles[<key>] = ...` as the
      entries it adds. */
  function Section(category: string, key: Key, urls: Option<BlockUrls>): seq<Entry> {
    if Requested(category, key) then [EntryFor(key, urls)] else []
  }

  /** `ps` is what `principles` holds once the first `n` keys of the key
      order have been considered. */
  ghost predicate BuiltUpTo(category: string, urls: Option<BlockUrls>, ps: seq<Entry>, n: nat) {
    && (forall key :: key in Keys(ps) <==> Requested(category, key) && EntryOrder(key) < n)
    && (forall k | 0 <= k < |ps| :: EntryFits(ps[k], urls) && EntryOrder(ps[k].key) < n)
    && (forall i, j | 0 <= i < j < |ps| :: EntryOrder(ps[i].key) < EntryOrder(ps[j].key))
  }

  lemma {:induction false} SectionExtends(category: string, urls: Option<BlockUrls>, ps: seq<Entry>, key: Key)
    requires BuiltUpTo(category, urls, ps, EntryOrder(key))
    ensures BuiltUpTo(category, urls, ps + Section(category, key, urls), EntryOrder(key) + 1)
  {
    var qs := ps + Section(category, key, urls);
    var added := Keys(Section(category, key, urls));
    assert Keys(qs) == Keys(ps) + added;
    assert added == if Requested(category, key) then [key] else [];
    forall other: Key
      ensures other in Keys(qs) <==> Requested(category, other) && EntryOrder(other) < EntryOrder(key) + 1
    {
      if EntryOrder(other) == EntryOrder(key) {
        assert other == key;
      }
    }
  }

  /** The key at position `n` of the key order. */
  function KeyAt(n: nat): (key: Key)
    requires n < 4
    ensures EntryOrder(key) == n
  {
    if n == 0 then VoiceAndToneKey else if n == 1 then GrammarKey else if n == 2 then TerminologyKey else AccessibilityKey
  }

  /** What `principles` holds after the first `n` conditional insertions. */
  function Built(category: string, urls: Option<BlockUrls>, n: nat): seq<Entry>
    requires n <= 4
  {
    if n == 0 then [] else Built(category, urls, n - 1) + Section(category, KeyAt(n - 1), urls)
  }

  lemma {:induction false} BuiltIsBuiltUpTo(category: string, urls: Option<BlockUrls>, n: nat)
    requires n <= 4
    ensures BuiltUpTo(category, urls, Built(category, urls, n), n)
  {
    if n > 0 {
      BuiltIsBuiltUpTo(category, urls, n - 1);
      SectionExtends(category, urls, Built(category, urls, n - 1), KeyAt(n - 1));
    }
  }

  /** Once every key has been considered, `principles` holds exactly the
      requested blocks, each the one its key names, in key order. */
  lemma BuiltFits(category: string, urls: Option<BlockUrls>)
    ensures var ps := Built(category, urls, 4);
      && (forall key :: key in Keys(ps) <==> Requested(category, key))
      && (forall k | 0 <= k < |ps| :: EntryFits(ps[k], urls))
      && (forall i, j | 0 <= i < j < |ps| :: EntryOrder(ps[i].key) < EntryOrder(ps[j].key))
  {
    var ps := Built(category, urls, 4);
    BuiltIsBuiltUpTo(category, urls, 4);
    forall key ensures key in Keys(ps) <==> Requested(category, key) {
      assert EntryOrder(key) < 4;
    }
  }

  /** `get_style_guidelines`: each block is added when `category` names it or
      is "all", in the fixed key order. `urls` is given by the web variant. */
  method GetStyleGuidelines(category: string, urls: Option<BlockUrls>) returns (g: Guidelines)
    ensures g.category == category && g.baseUrl == StyleGuideBaseUrl && g.webEnabled == urls.Some?
    ensures forall key :: key in Keys(g.principles) <==> Requested(category, key)
    ensures forall k | 0 <= k < |g.principles| :: EntryFits(g.principles[k], urls)
    ensures forall i, j | 0 <= i < j < |g.principles| :: EntryOrder(g.principles[i].key) < EntryOrder(g.principles[j].key)
  {
    var principles: seq<Entry> := [];
    principles := principles + Section(category, VoiceAndToneKey, urls);
    assert principles == Built(category, urls, 1);
    principles := principles + Section(category, GrammarKey, urls);
    assert principles == Built(category, urls, 2);
    principles := principles + Section(category, TerminologyKey, urls);
    assert principles == Built(category, urls, 3);
    principles := principles + Section(category, AccessibilityKey, urls);
    assert principles == Built(category, urls, 4);
    BuiltFits(category, urls);
    g := Guidelines(category, StyleGuideBaseUrl, principles, urls.Some?);
  }
}
