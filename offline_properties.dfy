/** What the offline analyzer promises: the analysis-type gating, the order
    of the issues, the voice check, the long-sentence rule and the
    improvement suggestions. */
module OfflineProperties {
  import opened Wrappers
  import opened TextModel
  import opened Patterns
  import opened Style
  import opened OfflineSpec

  /** An analysis type that names no block runs no check: nothing is found
      and the text is rated excellent. */
  lemma UnknownTypeFindsNothing(an: Analyzer, text: string, analysisType: string)
    requires an.Valid() && analysisType != "comprehensive" && forall c: Category :: CategoryName(c) != analysisType
    ensures OfflineAnalysis(an, text, analysisType).issues == []
    ensures OfflineAnalysis(an, text, analysisType).suggestions == []
    ensures OfflineAnalysis(an, text, analysisType).status == Excellent
  {
  }

  /** `xs` is ordered by rank and every rank in it lies in `lo..hi`. */
  predicate RankedWithin(xs: seq<Issue>, lo: nat, hi: nat) {
    && (forall i, j | 0 <= i < j < |xs| :: Rank(xs[i]) <= Rank(xs[j]))
    && (forall k | 0 <= k < |xs| :: lo <= Rank(xs[k]) <= hi)
  }

  lemma {:induction false} ConcatRanked(xs: seq<Issue>, ys: seq<Issue>, lo: nat, mid: nat, hi: nat)
    requires lo <= mid <= hi && RankedWithin(xs, lo, mid) && RankedWithin(ys, mid, hi)
    ensures RankedWithin(xs + ys, lo, hi)
  {
    var zs := xs + ys;
    forall i, j | 0 <= i < j < |zs| ensures Rank(zs[i]) <= Rank(zs[j]) {
      if j < |xs| {
        assert zs[i] == xs[i] && zs[j] == xs[j];
      } else if i < |xs| {
        assert zs[i] == xs[i] && zs[j] == ys[j - |xs|];
      } else {
        assert zs[i] == ys[i - |xs|] && zs[j] == ys[j - |xs|];
      }
    }
    forall k | 0 <= k < |zs| ensures lo <= Rank(zs[k]) <= hi {
      if k < |xs| {
        assert zs[k] == xs[k];
      } else {
        assert zs[k] == ys[k - |xs|];
      }
    }
  }

  lemma GateRanked(runs: bool, xs: seq<Issue>, lo: nat, hi: nat)
    requires RankedWithin(xs, lo, hi)
    ensures RankedWithin(Gate(runs, xs), lo, hi)
  {
  }

  lemma {:induction false} FindingIssuesRanked(an: Analyzer, f: Finding, s: string)
    requires an.Valid()
    ensures RankedWithin(FindingIssues(an, f, s), FindingRank(f), FindingRank(f))
  {
    forall k | 0 <= k < |FindingIssues(an, f, s)| ensures Rank(FindingIssues(an, f, s)[k]) == FindingRank(f) {
      MatchIssueAt(f, s, FindingMatches(an, f, s), k);
    }
  }

  lemma VoiceRanked(an: Analyzer, text: string)
    requires an.Valid()
    ensures RankedWithin(VoiceIssues(an, text), 0, 0)
  {
  }

  lemma GrammarRanked(an: Analyzer, text: string)
    requires an.Valid()
    ensures RankedWithin(GrammarIssues(an, text), 1, 2)
  {
    FindingIssuesRanked(an, PassiveFinding, text);
    FindingIssuesRanked(an, LongFinding, text);
    ConcatRanked(FindingIssues(an, PassiveFinding, text), FindingIssues(an, LongFinding, text), 1, 1, 2);
  }

  lemma TerminologyRanked(an: Analyzer, text: string)
    ensures RankedWithin(TerminologyIssues(an, text), 3, 3)
  {
  }

  lemma AccessibilityRanked(an: Analyzer, text: string)
    requires an.Valid()
    ensures RankedWithin(AccessibilityIssues(an, text), 4, 5)
  {
    FindingIssuesRanked(an, NonInclusiveFinding, text);
    FindingIssuesRanked(an, GenderedFinding, text);
    ConcatRanked(FindingIssues(an, NonInclusiveFinding, text), FindingIssues(an, GenderedFinding, text), 4, 4, 5);
  }

  /** Blocks of increasing rank, each of them possibly skipped, make a
      sequence ordered by rank. */
  lemma {:induction false} BlocksInOrder(v: seq<Issue>, g: seq<Issue>, t: seq<Issue>, a: seq<Issue>)
    requires RankedWithin(v, 0, 0) && RankedWithin(g, 1, 2) && RankedWithin(t, 3, 3) && RankedWithin(a, 4, 5)
    ensures RankedWithin(v + g + t + a, 0, 5)
  {
    ConcatRanked(v, g, 0, 1, 2);
    ConcatRanked(v + g, t, 0, 3, 3);
    ConcatRanked(v + g + t, a, 0, 4, 5);
  }

  /** The issues come out grouped in the fixed order voice and tone, passive
      voice, long sentences, terminology, non-inclusive terms, gendered
      pronouns, whatever the analysis type. */
  lemma {:induction false} IssuesInRankOrder(an: Analyzer, text: string, analysisType: string)
    requires an.Valid()
    ensures var issues := OfflineIssues(an, text, analysisType);
      forall i, j | 0 <= i < j < |issues| :: Rank(issues[i]) <= Rank(issues[j])
  {
    VoiceRanked(an, text);
    GrammarRanked(an, text);
    TerminologyRanked(an, text);
    AccessibilityRanked(an, text);
    GateRanked(Runs(analysisType, VoiceTone), VoiceIssues(an, text), 0, 0);
    GateRanked(Runs(analysisType, Grammar), GrammarIssues(an, text), 1, 2);
    GateRanked(Runs(analysisType, Terminology), TerminologyIssues(an, text), 3, 3);
    GateRanked(Runs(analysisType, Accessibility), AccessibilityIssues(an, text), 4, 5);
    BlocksInOrder(Gate(Runs(analysisType, VoiceTone), VoiceIssues(an, text)), Gate(Runs(analysisType, Grammar), GrammarIssues(an, text)),
      Gate(Runs(analysisType, Terminology), TerminologyIssues(an, text)), Gate(Runs(analysisType, Accessibility), AccessibilityIssues(an, text)));
  }

  /** The contraction issue is raised exactly when the voice block runs and
      finds no contraction: every other block ranks above it. */
  lemma {:induction false} ContractionIssueIff(an: Analyzer, text: string, analysisType: string)
    requires an.Valid()
    ensures ContractionIssue in OfflineIssues(an, text, analysisType)
      <==> Runs(analysisType, VoiceTone) && ContractionCount(an, text) == 0
  {
    GrammarRanked(an, text);
    TerminologyRanked(an, text);
    AccessibilityRanked(an, text);
    GateRanked(Runs(analysisType, Grammar), GrammarIssues(an, text), 1, 2);
    GateRanked(Runs(analysisType, Terminology), TerminologyIssues(an, text), 3, 3);
    GateRanked(Runs(analysisType, Accessibility), AccessibilityIssues(an, text), 4, 5);
  }

  /** No issue of `xs` has rank `r`. */
  predicate Avoids(xs: seq<Issue>, r: nat) {
    forall k | 0 <= k < |xs| :: Rank(xs[k]) != r
  }

  lemma {:induction false} ConcatAvoids(xs: seq<Issue>, ys: seq<Issue>, r: nat)
    requires Avoids(xs, r) && Avoids(ys, r)
    ensures Avoids(xs + ys, r)
  {
    var zs := xs + ys;
    forall k | 0 <= k < |zs| ensures Rank(zs[k]) != r {
      if k < |xs| {
        assert zs[k] == xs[k];
      } else {
        assert zs[k] == ys[k - |xs|];
      }
    }
  }

  lemma {:induction false} GatedAvoids(runs: bool, xs: seq<Issue>, lo: nat, hi: nat, r: nat)
    requires RankedWithin(xs, lo, hi) && (r < lo || hi < r)
    ensures Avoids(Gate(runs, xs), r)
  {
    GateRanked(runs, xs, lo, hi);
    var ys := Gate(runs, xs);
    forall k | 0 <= k < |ys| ensures Rank(ys[k]) != r {
      assert lo <= Rank(ys[k]) <= hi;
    }
  }

  /** Without a long-sentence match the grammar block holds only
      passive-voice warnings. */
  lemma {:induction false} SingleSentenceGrammar(an: Analyzer, text: string)
    requires an.Valid()
    requires forall k | 0 <= k < |text| - 1 :: !IsTerminator(text[k])
    ensures RankedWithin(GrammarIssues(an, text), 1, 1)
  {
    SingleSentenceNeverLong(text);
    assert FindingMatches(an, LongFinding, text) == [];
    FindingIssuesRanked(an, PassiveFinding, text);
    assert GrammarIssues(an, text) == FindingIssues(an, PassiveFinding, text) + [];
  }

  /** A text whose only terminator, if any, is its last character gets no
      long-sentence issue: every grammar issue is then a passive-voice
      warning. */
  lemma {:induction false} SingleSentenceHasNoLongIssue(an: Analyzer, text: string, analysisType: string)
    requires an.Valid()
    requires forall k | 0 <= k < |text| - 1 :: !IsTerminator(text[k])
    ensures var issues := OfflineIssues(an, text, analysisType);
      forall k | 0 <= k < |issues| && issues[k].category == Grammar :: issues[k].severity == Warning
  {
    var v := Gate(Runs(analysisType, VoiceTone), VoiceIssues(an, text));
    var g := Gate(Runs(analysisType, Grammar), GrammarIssues(an, text));
    var t := Gate(Runs(analysisType, Terminology), TerminologyIssues(an, text));
    var a := Gate(Runs(analysisType, Accessibility), AccessibilityIssues(an, text));
    VoiceRanked(an, text);
    SingleSentenceGrammar(an, text);
    TerminologyRanked(an, text);
    AccessibilityRanked(an, text);
    GatedAvoids(Runs(analysisType, VoiceTone), VoiceIssues(an, text), 0, 0, 2);
    GatedAvoids(Runs(analysisType, Grammar), GrammarIssues(an, text), 1, 1, 2);
    GatedAvoids(Runs(analysisType, Terminology), TerminologyIssues(an, text), 3, 3, 2);
    GatedAvoids(Runs(analysisType, Accessibility), AccessibilityIssues(an, text), 4, 5, 2);
    ConcatAvoids(v, g, 2);
    ConcatAvoids(v + g, t, 2);
    ConcatAvoids(v + g + t, a, 2);
    assert OfflineIssues(an, text, analysisType) == v + g + t + a;
    GrammarWarningsOnly(v + g + t + a);
  }

  /** Without rank 2 every grammar issue is a warning. */
  lemma GrammarWarningsOnly(issues: seq<Issue>)
    requires Avoids(issues, 2)
    ensures forall k | 0 <= k < |issues| && issues[k].category == Grammar :: issues[k].severity == Warning
  {
    forall k | 0 <= k < |issues| && issues[k].category == Grammar ensures issues[k].severity == Warning {
      assert Rank(issues[k]) != 2;
    }
  }

  // ---------------------------------------------------------------------------
  // suggest_improvements

  /** With focus "all" there is one improvement per issue, in issue order,
      plus the average item exactly when the average sentence length is
      high. */
  lemma SuggestAllCoversEveryIssue(an: Analyzer, text: string)
    requires an.Valid()
    ensures var issues := OfflineIssues(an, text, "comprehensive");
      var rs := ImprovementsSpec(issues, "all", StatisticsOf(text));
      |rs| == |issues| + (if LongAverage(StatisticsOf(text)) then 1 else 0)
      && forall k | 0 <= k < |issues| :: rs[k] == ImprovementFor(issues[k])
  {
    ImprovementsAll(OfflineIssues(an, text, "comprehensive"));
  }

  /** No issue an analyzer raises is given an advice to change it to active
      voice. */
  predicate NoActiveVoiceAdvice(issues: seq<Issue>) {
    forall k | 0 <= k < |issues| :: !ImprovementSuggestion(issues[k]).ChangeToActiveVoice?
  }

  lemma {:induction false} FindingIssuesNoActiveVoiceAdvice(an: Analyzer, f: Finding, s: string)
    requires an.Valid()
    ensures NoActiveVoiceAdvice(FindingIssues(an, f, s))
  {
    var ms := FindingMatches(an, f, s);
    forall k | 0 <= k < |FindingIssues(an, f, s)| ensures !ImprovementSuggestion(FindingIssues(an, f, s)[k]).ChangeToActiveVoice? {
      MatchIssueAt(f, s, ms, k);
      if f == PassiveFinding || f == LongFinding {
        GrammarGetsGeneric(f, s, ms[k]);
      }
    }
  }

  lemma {:induction false} ImprovementsNoActiveVoice(issues: seq<Issue>, focusArea: string)
    requires NoActiveVoiceAdvice(issues)
    ensures forall k | 0 <= k < |Improvements(issues, focusArea)| :: !Improvements(issues, focusArea)[k].suggestion.ChangeToActiveVoice?
    decreases |issues|
  {
    if issues != [] {
      ImprovementsNoActiveVoice(issues[..|issues| - 1], focusArea);
    }
  }

  lemma {:induction false} ConcatNoActiveVoiceAdvice(xs: seq<Issue>, ys: seq<Issue>)
    requires NoActiveVoiceAdvice(xs) && NoActiveVoiceAdvice(ys)
    ensures NoActiveVoiceAdvice(xs + ys)
  {
    var zs := xs + ys;
    forall k | 0 <= k < |zs| ensures !ImprovementSuggestion(zs[k]).ChangeToActiveVoice? {
      if k < |xs| {
        assert zs[k] == xs[k];
      } else {
        assert zs[k] == ys[k - |xs|];
      }
    }
  }

  /** The grammar and accessibility blocks: two findings each. */
  lemma PairNoActiveVoiceAdvice(an: Analyzer, f: Finding, h: Finding, s: string)
    requires an.Valid()
    ensures NoActiveVoiceAdvice(FindingIssues(an, f, s) + FindingIssues(an, h, s))
  {
    FindingIssuesNoActiveVoiceAdvice(an, f, s);
    FindingIssuesNoActiveVoiceAdvice(an, h, s);
    ConcatNoActiveVoiceAdvice(FindingIssues(an, f, s), FindingIssues(an, h, s));
  }

  lemma TerminologyNoActiveVoiceAdvice(an: Analyzer, text: string)
    ensures NoActiveVoiceAdvice(TerminologyIssues(an, text))
  {
    var t := TerminologyIssues(an, text);
    forall k | 0 <= k < |t| ensures t[k].category == Terminology {
      assert Rank(t[k]) == 3;
    }
  }

  /** The passive-voice branch of `_get_improvement_suggestion` is never
      taken: whatever the text and focus, no improvement advises changing a
      phrase to active voice, because no grammar message contains the word
      "passive". */
  lemma NeverAdvisesActiveVoice(an: Analyzer, text: string, focusArea: string)
    requires an.Valid()
    ensures var rs := ImprovementsSpec(OfflineIssues(an, text, "comprehensive"), focusArea, StatisticsOf(text));
      forall k | 0 <= k < |rs| :: !rs[k].suggestion.ChangeToActiveVoice?
  {
    var v, g, t, a := VoiceIssues(an, text), GrammarIssues(an, text), TerminologyIssues(an, text), AccessibilityIssues(an, text);
    assert NoActiveVoiceAdvice(v);
    PairNoActiveVoiceAdvice(an, PassiveFinding, LongFinding, text);
    TerminologyNoActiveVoiceAdvice(an, text);
    PairNoActiveVoiceAdvice(an, NonInclusiveFinding, GenderedFinding, text);
    ConcatNoActiveVoiceAdvice(v, g);
    ConcatNoActiveVoiceAdvice(v + g, t);
    ConcatNoActiveVoiceAdvice(v + g + t, a);
    var issues := OfflineIssues(an, text, "comprehensive");
    assert issues == v + g + t + a;
    ImprovementsNoActiveVoice(issues, focusArea);
  }
}
