/** The offline analyzer `MicrosoftStyleGuideAnalyzer` as specification
    functions: what `analyze_content` returns for a text and an analysis type,
    and the shape of the `suggest_improvements` result. The analyzer's rules
    and terminology table are fixed when it is built, so every function takes
    them as an `Analyzer` value. */
module OfflineSpec {
  import opened Wrappers
  import opened TextModel
  import opened Patterns
  import opened Style

  // ---------------------------------------------------------------------------
  // Specification of analyze_content

  function GrammarIssues(an: Analyzer, text: string): seq<Issue>
    requires an.Valid()
  {
    FindingIssues(an, PassiveFinding, text) + FindingIssues(an, LongFinding, text)
  }

  function TerminologyIssues(an: Analyzer, text: string): seq<Issue> {
    TermIssues(an.terminologyStandards, text)
  }

  function AccessibilityIssues(an: Analyzer, text: string): seq<Issue>
    requires an.Valid()
  {
    FindingIssues(an, NonInclusiveFinding, text) + FindingIssues(an, GenderedFinding, text)
  }

  /** The issues of `analyze_content`: the four blocks in source order, each
      present only when `analysisType` selects it. */
  function OfflineIssues(an: Analyzer, text: string, analysisType: string): seq<Issue>
    requires an.Valid()
  {
    Gate(Runs(analysisType, VoiceTone), VoiceIssues(an, text))
    + Gate(Runs(analysisType, Grammar), GrammarIssues(an, text))
    + Gate(Runs(analysisType, Terminology), TerminologyIssues(an, text))
    + Gate(Runs(analysisType, Accessibility), AccessibilityIssues(an, text))
  }

  function OfflineSuggestions(an: Analyzer, text: string, analysisType: string): seq<Suggestion>
    requires an.Valid()
  {
    if Runs(analysisType, VoiceTone) then VoiceSuggestions(an, text) else []
  }

  function OfflineAnalysis(an: Analyzer, text: string, analysisType: string): Analysis
    requires an.Valid()
  {
    Assemble(text, analysisType, OfflineIssues(an, text, analysisType), OfflineSuggestions(an, text, analysisType))
  }
}
