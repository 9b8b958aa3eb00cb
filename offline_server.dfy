/** The offline server: `MicrosoftStyleGuideAnalyzer.analyze_content` and
    `suggest_improvements` as the source writes them, appending to lists
    block by block, and the empty-text guards of the tools that wrap them. */
module StyleServer {
  import opened Wrappers
  import opened TextModel
  import opened Patterns
  import opened Style
  import opened OfflineSpec

  /** `analyze_content`: the checks append to `issues` and `suggestions` block
      by block. */
  method AnalyzeContent(an: Analyzer, text: string, analysisType: string) returns (a: Analysis)
    requires an.Valid()
    ensures a == OfflineAnalysis(an, text, analysisType)
  {
    var issues: seq<Issue> := [];
    var suggestions: seq<Suggestion> := [];
    if Runs(analysisType, VoiceTone) {
      issues := issues + VoiceIssues(an, text);
      suggestions := suggestions + VoiceSuggestions(an, text);
    }
    ghost var v := issues;
    assert v == Gate(Runs(analysisType, VoiceTone), VoiceIssues(an, text));
    assert suggestions == OfflineSuggestions(an, text, analysisType);
    if Runs(analysisType, Grammar) {
      issues := AppendGrammar(issues, an, text);
    }
    ghost var g := issues;
    assert g == v + Gate(Runs(analysisType, Grammar), GrammarIssues(an, text));
    if Runs(analysisType, Terminology) {
      issues := AppendTerminology(issues, an.terminologyStandards, text);
    }
    ghost var t := issues;
    assert t == g + Gate(Runs(analysisType, Terminology), TerminologyIssues(an, text));
    if Runs(analysisType, Accessibility) {
      issues := AppendAccessibility(issues, an, text);
    }
    assert issues == t + Gate(Runs(analysisType, Accessibility), AccessibilityIssues(an, text));
    OfflineIssuesByBlock(an, text, analysisType, v, g, t, issues);
    a := Assemble(text, analysisType, issues, suggestions);
  }

  /** The passive-voice check, then the long-sentence check. */
  method AppendGrammar(issues: seq<Issue>, an: Analyzer, text: string) returns (r: seq<Issue>)
    requires an.Valid()
    ensures r == issues + GrammarIssues(an, text)
  {
    r := AppendFindings(issues, an, PassiveFinding, text);
    r := AppendFindings(r, an, LongFinding, text);
    AppendTwice(issues, FindingIssues(an, PassiveFinding, text), FindingIssues(an, LongFinding, text));
  }

  /** The non-inclusive-language check, then the gendered-pronoun check. */
  method AppendAccessibility(issues: seq<Issue>, an: Analyzer, text: string) returns (r: seq<Issue>)
    requires an.Valid()
    ensures r == issues + AccessibilityIssues(an, text)
  {
    r := AppendFindings(issues, an, NonInclusiveFinding, text);
    r := AppendFindings(r, an, GenderedFinding, text);
    AppendTwice(issues, FindingIssues(an, NonInclusiveFinding, text), FindingIssues(an, GenderedFinding, text));
  }

  lemma AppendTwice(xs: seq<Issue>, ys: seq<Issue>, zs: seq<Issue>)
    ensures xs + ys + zs == xs + (ys + zs)
  {
  }

  /** The issue list after each block is the gated blocks so far. */
  lemma OfflineIssuesByBlock(an: Analyzer, text: string, analysisType: string,
                             v: seq<Issue>, g: seq<Issue>, t: seq<Issue>, issues: seq<Issue>)
    requires an.Valid()
    requires v == Gate(Runs(analysisType, VoiceTone), VoiceIssues(an, text))
    requires g == v + Gate(Runs(analysisType, Grammar), GrammarIssues(an, text))
    requires t == g + Gate(Runs(analysisType, Terminology), TerminologyIssues(an, text))
    requires issues == t + Gate(Runs(analysisType, Accessibility), AccessibilityIssues(an, text))
    ensures issues == OfflineIssues(an, text, analysisType)
  {
  }

  // ---------------------------------------------------------------------------
  // suggest_improvements

  /** `suggest_improvements`: a comprehensive analysis, then the selected
      issues' improvements and the average-length item. */
  method SuggestImprovements(an: Analyzer, text: string, focusArea: string) returns (r: Report)
    requires an.Valid()
    ensures r.textPreview == TextPreview(text) && r.focusArea == focusArea
    ensures r.improvements == ImprovementsSpec(OfflineIssues(an, text, "comprehensive"), focusArea, StatisticsOf(text))
    ensures r.totalImprovements == |r.improvements|
    ensures r.styleGuideUrl == StyleGuideBaseUrl + "/top-10-tips-style-voice"
  {
    var analysis := AnalyzeContent(an, text, "comprehensive");
    var improvements := CollectImprovements(analysis.issues, focusArea, analysis.statistics);
    r := Report(TextPreview(text), |improvements|, improvements, focusArea, StyleGuideBaseUrl + "/top-10-tips-style-voice");
  }

  // ---------------------------------------------------------------------------
  // The tools

  /** A tool's answer: the analyzer's dictionary, or `{"error": message}`. */
  datatype Reply<T> = Done(value: T) | Refused(error: string)

  /** The `analyze_content` tool: blank text is refused before analysis. The
      server passes its module-level analyzer, `Builtin`, which
      `BuiltinValid` shows valid. */
  method AnalyzeContentTool(an: Analyzer, text: string, analysisType: string) returns (r: Reply<Analysis>)
    requires an.Valid()
    ensures IsBlank(text) ==> r == Refused("No text provided for analysis")
    ensures !IsBlank(text) ==> r == Done(OfflineAnalysis(an, text, analysisType))
  {
    if IsBlank(text) {
      return Refused("No text provided for analysis");
    }
    var a := AnalyzeContent(an, text, analysisType);
    r := Done(a);
  }

  /** The `suggest_improvements` tool: blank text is refused. */
  method SuggestImprovementsTool(an: Analyzer, text: string, focusArea: string) returns (r: Reply<Report>)
    requires an.Valid()
    ensures IsBlank(text) ==> r == Refused("No text provided for improvement suggestions")
    ensures !IsBlank(text) ==> (r.Done? && r.value.focusArea == focusArea
      && r.value.improvements == ImprovementsSpec(OfflineIssues(an, text, "comprehensive"), focusArea, StatisticsOf(text)))
  {
    if IsBlank(text) {
      return Refused("No text provided for improvement suggestions");
    }
    var report := SuggestImprovements(an, text, focusArea);
    r := Done(report);
  }
}
