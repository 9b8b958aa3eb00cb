/** The client side: how `GitHubCopilotInterface.process_chat_command` turns a
    chat command into a tool call or an error, how `FastMCPClient.call_tool`
    answers with and without a session, and how `CLIInterface._format_result`
    renders a tool result. */
module McpClient {
  import opened Wrappers
  import opened TextModel
  import Style

  // ---------------------------------------------------------------------------
  // Values exchanged with the server

  /** A JSON value: what a tool returns and what its arguments hold. A
      dictionary is its entries in insertion order, keys distinct. */
  datatype Value =
    | Null
    | Bool(b: bool)
    | Int(i: int)
    | Str(s: string)
    | List(items: seq<Value>)
    | Dict(entries: seq<(string, Value)>)

  /** `key in d` and `d[key]` on a dictionary given by its entries. */
  function Lookup(entries: seq<(string, Value)>, key: string): (r: Option<Value>)
    ensures r.Some? ==> exists k | 0 <= k < |entries| :: entries[k] == (key, r.value)
    ensures r.None? ==> forall k | 0 <= k < |entries| :: entries[k].0 != key
  {
    if entries == [] then None
    else if entries[0].0 == key then Some(entries[0].1)
    else
      var r := Lookup(entries[1..], key);
      assert r.Some? ==> exists k | 0 <= k < |entries[1..]| :: entries[1..][k] == (key, r.value);
      r
  }

  /** A key that the first entries lack is looked up in the rest. */
  lemma {:induction false} LookupAppend(front: seq<(string, Value)>, back: seq<(string, Value)>, key: string)
    ensures Lookup(front + back, key) == if Lookup(front, key).Some? then Lookup(front, key) else Lookup(back, key)
    decreases |front|
  {
    if front != [] {
      assert (front + back)[0] == front[0];
      assert (front + back)[1..] == front[1..] + back;
      if front[0].0 != key {
        LookupAppend(front[1..], back, key);
        assert Lookup(front + back, key) == Lookup(front[1..] + back, key);
        assert Lookup(front, key) == Lookup(front[1..], key);
      }
    } else {
      assert front + back == back;
    }
  }

  // ---------------------------------------------------------------------------
  // Tool calls

  /** The requests of the `FastMCPClient` helpers that the chat router uses. */
  datatype ToolCall =
    | AnalyzeCall(text: string, analysisType: string)
    | GuidelinesCall(category: string)
    | ImproveCall(text: string, focusArea: string)
    | SearchCall(query: string)

  function ToolName(call: ToolCall): string {
    match call
    case AnalyzeCall(_, _) => "analyze_content"
    case GuidelinesCall(_) => "get_style_guidelines"
    case ImproveCall(_, _) => "suggest_improvements"
    case SearchCall(_) => "search_style_guide"
  }

  /** The `arguments` dictionary each helper hands to `call_tool`. */
  function Arguments(call: ToolCall): seq<(string, Value)> {
    match call
    case AnalyzeCall(text, analysisType) => [("text", Str(text)), ("analysis_type", Str(analysisType))]
    case GuidelinesCall(category) => [("category", Str(category))]
    case ImproveCall(text, focusArea) => [("text", Str(text)), ("focus_area", Str(focusArea))]
    case SearchCall(query) => [("query", Str(query))]
  }

  /** A string argument, or `default` when it is absent. */
  function StrArg(args: seq<(string, Value)>, name: string, default: Option<string>): Option<string> {
    match Lookup(args, name)
    case Some(Str(s)) => Some(s)
    case Some(_) => None
    case None => default
  }

  /** How a server binds a request to its tool's parameters: the name picks
      the tool, each parameter is read by name, and a missing optional one
      takes its default ("comprehensive" or "all"). */
  function ReadCall(name: string, args: seq<(string, Value)>): Option<ToolCall> {
    if name == "analyze_content" then
      match (StrArg(args, "text", None), StrArg(args, "analysis_type", Some("comprehensive")))
      case (Some(text), Some(analysisType)) => Some(AnalyzeCall(text, analysisType))
      case _ => None
    else if name == "get_style_guidelines" then
      match StrArg(args, "category", Some("all"))
      case Some(category) => Some(GuidelinesCall(category))
      case None => None
    else if name == "suggest_improvements" then
      match (StrArg(args, "text", None), StrArg(args, "focus_area", Some("all")))
      case (Some(text), Some(focusArea)) => Some(ImproveCall(text, focusArea))
      case _ => None
    else if name == "search_style_guide" then
      match StrArg(args, "query", None)
      case Some(query) => Some(SearchCall(query))
      case None => None
    else None
  }

  /** The server reads back exactly the call the client sent. */
  lemma ArgumentsRoundTrip(call: ToolCall)
    ensures ReadCall(ToolName(call), Arguments(call)) == Some(call)
  {
    match call
    case AnalyzeCall(text, analysisType) =>
      assert Lookup(Arguments(call), "text") == Some(Str(text));
      assert Lookup(Arguments(call), "analysis_type") == Some(Str(analysisType));
    case GuidelinesCall(category) =>
    case ImproveCall(text, focusArea) =>
      assert Lookup(Arguments(call), "text") == Some(Str(text));
      assert Lookup(Arguments(call), "focus_area") == Some(Str(focusArea));
    case SearchCall(query) =>
  }

  // ---------------------------------------------------------------------------
  // process_chat_command

  /** `command.lower().strip()`. */
  function Normalize(command: string): string {
    Strip(Lower(command))
  }

  lemma NormalizeIdempotent(command: string)
    ensures Normalize(Normalize(command)) == Normalize(command)
  {
    var l := Lower(command);
    var s := Strip(l);
    LowerIsLowered(command);
    var i, j :| 0 <= i <= j <= |l| && s == l[i..j];
    SliceOfLowered(l, i, j);
    LowerOfLowered(s);
    StripIdempotent(l);
  }

  const AnalyzeAliases: seq<string> := ["analyze", "check", "review", "style-check"]
  const VoiceAliases: seq<string> := ["voice", "tone", "voice-tone"]
  const GrammarAliases: seq<string> := ["grammar", "style", "writing"]
  const TermsAliases: seq<string> := ["terms", "terminology", "vocab"]
  const AccessibilityAliases: seq<string> := ["accessibility", "inclusive", "bias"]
  const ImproveAliases: seq<string> := ["improve", "suggest", "fix", "help"]
  const GuidelinesAliases: seq<string> := ["guidelines", "rules", "guide"]
  const GuidelinesPrefix: string := "guidelines-"
  const GuidelineCategories: seq<string> := ["voice", "grammar", "terminology", "accessibility"]

  /** The `available_commands` list of the unknown-command answer. */
  const AvailableCommands: seq<string> := [
    "analyze - Comprehensive style analysis",
    "voice - Voice and tone analysis",
    "grammar - Grammar and style analysis",
    "terminology - Terminology consistency",
    "accessibility - Inclusive language check",
    "improve - Get improvement suggestions",
    "guidelines - Get style guidelines",
    "search - Search style guide (web version only)",
    "guidelines-voice - Voice guidelines only",
    "guidelines-grammar - Grammar guidelines only",
    "guidelines-terminology - Terminology guidelines only",
    "guidelines-accessibility - Accessibility guidelines only"
  ]

  /** What `process_chat_command` does with a command: call one tool, or
      answer at once with an error dictionary. */
  datatype Route =
    | Invoke(call: ToolCall)
    | Refuse(error: string)
    | Unknown(error: string, availableCommands: seq<string>)

  /** `if not content: return error` in front of a call. */
  function NeedsContent(content: string, error: string, call: ToolCall): Route {
    if content == "" then Refuse(error) else Invoke(call)
  }

  /** Which branch of the if/elif chain a normalised command takes. */
  datatype Command =
    | AnalyzeCommand
    | VoiceCommand
    | GrammarCommand
    | TermsCommand
    | AccessibilityCommand
    | ImproveCommand
    | GuidelinesCommand
    | CategoryGuidelines(category: string)
    | SearchCommand
    | Other

  /** The tests of the if/elif chain, in their order. The category of a
      "guidelines-" command is the command with every occurrence of the
      prefix removed, as `str.replace` does. */
  function Classify(c: string): Command {
    if c in AnalyzeAliases then AnalyzeCommand
    else if c in VoiceAliases then VoiceCommand
    else if c in GrammarAliases then GrammarCommand
    else if c in TermsAliases then TermsCommand
    else if c in AccessibilityAliases then AccessibilityCommand
    else if c in ImproveAliases then ImproveCommand
    else if c in GuidelinesAliases then GuidelinesCommand
    else if StartsWith(c, GuidelinesPrefix) then CategoryGuidelines(RemoveAll(c, GuidelinesPrefix))
    else if c == "search" then SearchCommand
    else Other
  }

  /** The body of each branch. */
  function Dispatch(k: Command, c: string, content: string): Route {
    match k
    case AnalyzeCommand =>
      NeedsContent(content, "No content provided for analysis", AnalyzeCall(content, "comprehensive"))
    case VoiceCommand =>
      NeedsContent(content, "No content provided for voice analysis", AnalyzeCall(content, "voice_tone"))
    case GrammarCommand =>
      NeedsContent(content, "No content provided for grammar analysis", AnalyzeCall(content, "grammar"))
    case TermsCommand =>
      NeedsContent(content, "No content provided for terminology analysis", AnalyzeCall(content, "terminology"))
    case AccessibilityCommand =>
      NeedsContent(content, "No content provided for accessibility analysis", AnalyzeCall(content, "accessibility"))
    case ImproveCommand =>
      NeedsContent(content, "No content provided for improvement suggestions", ImproveCall(content, "all"))
    case GuidelinesCommand => Invoke(GuidelinesCall("all"))
    case CategoryGuidelines(category) =>
      if category in GuidelineCategories then Invoke(GuidelinesCall(category))
      else Refuse("Unknown guidelines category: " + category)
    case SearchCommand => NeedsContent(content, "No search query provided", SearchCall(content))
    case Other => Unknown("Unknown command: " + c, AvailableCommands)
  }

  /** The chain over the normalised command `c`. */
  function RouteNormalized(c: string, content: string): Route {
    Dispatch(Classify(c), c, content)
  }

  function RouteCommand(command: string, content: string): Route {
    RouteNormalized(Normalize(command), content)
  }

  /** Case and surrounding whitespace of a command do not matter. */
  lemma RouteIgnoresCaseAndPadding(command: string, content: string)
    ensures RouteCommand(Normalize(command), content) == RouteCommand(command, content)
  {
    NormalizeIdempotent(command);
  }

  /** A word of lower-case letters and hyphens is its own normal form. */
  predicate Plain(w: string) {
    w != [] && forall k | 0 <= k < |w| :: 'a' <= w[k] <= 'z' || w[k] == '-'
  }

  lemma PlainIsNormal(w: string)
    requires Plain(w)
    ensures Normalize(w) == w
  {
    assert IsLowered(w);
    LowerOfLowered(w);
    StripUnpadded(w);
  }

  /** The command words the chain compares against. */
  const CommandWords: seq<string> := AnalyzeAliases + VoiceAliases + GrammarAliases + TermsAliases
    + AccessibilityAliases + ImproveAliases + GuidelinesAliases + ["search"]

  lemma AnalysisWordsPlain(w: string)
    requires w in AnalyzeAliases + VoiceAliases
    ensures Plain(w)
  {
    if w == "analyze" {} else if w == "check" {} else if w == "review" {}
    else if w == "style-check" {} else if w == "voice" {} else if w == "tone" {} else {}
  }

  lemma TopicWordsPlain(w: string)
    requires w in GrammarAliases + TermsAliases
    ensures Plain(w)
  {
    if w == "grammar" {} else if w == "style" {} else if w == "writing" {}
    else if w == "terms" {} else if w == "terminology" {} else {}
  }

  lemma InclusiveWordsPlain(w: string)
    requires w in AccessibilityAliases + ImproveAliases
    ensures Plain(w)
  {
    if w == "accessibility" {} else if w == "inclusive" {} else if w == "bias" {}
    else if w == "improve" {} else if w == "suggest" {} else if w == "fix" {} else {}
  }

  lemma GuideWordsPlain(w: string)
    requires w in GuidelinesAliases + ["search"]
    ensures Plain(w)
  {
    if w == "guidelines" {} else if w == "rules" {} else if w == "guide" {} else {}
  }

  lemma CommandWordsPlain(w: string)
    requires w in CommandWords
    ensures Plain(w)
  {
    if w in AnalyzeAliases + VoiceAliases {
      AnalysisWordsPlain(w);
    } else if w in GrammarAliases + TermsAliases {
      TopicWordsPlain(w);
    } else if w in AccessibilityAliases + ImproveAliases {
      InclusiveWordsPlain(w);
    } else {
      GuideWordsPlain(w);
    }
  }

  /** Every command word, typed as listed, reaches the chain unchanged, and
      so does "guidelines-" followed by a category. */
  lemma CommandWordsAreNormal(w: string, content: string)
    requires w in CommandWords || exists category | category in GuidelineCategories :: w == GuidelinesPrefix + category
    ensures Normalize(w) == w
    ensures RouteCommand(w, content) == RouteNormalized(w, content)
  {
    if w in CommandWords {
      CommandWordsPlain(w);
    } else {
      var category :| category in GuidelineCategories && w == GuidelinesPrefix + category;
      CategoriesPlain(category);
      PrefixedPlain(category);
    }
    PlainIsNormal(w);
  }

  // Each alias group, typed as listed, takes its own branch.

  lemma AnalyzeAliasesClassified(a: string)
    requires a in AnalyzeAliases
    ensures Classify(a) == AnalyzeCommand
  {
  }

  lemma VoiceAliasesClassified(a: string)
    requires a in VoiceAliases
    ensures Classify(a) == VoiceCommand
  {
  }

  lemma GrammarAliasesClassified(a: string)
    requires a in GrammarAliases
    ensures Classify(a) == GrammarCommand
  {
  }

  lemma TermsAliasesClassified(a: string)
    requires a in TermsAliases
    ensures Classify(a) == TermsCommand
  {
  }

  lemma AccessibilityAliasesClassified(a: string)
    requires a in AccessibilityAliases
    ensures Classify(a) == AccessibilityCommand
  {
  }

  lemma ImproveAliasesClassified(a: string)
    requires a in ImproveAliases
    ensures Classify(a) == ImproveCommand
  {
  }

  lemma GuidelinesAliasesClassified(a: string)
    requires a in GuidelinesAliases
    ensures Classify(a) == GuidelinesCommand
  {
  }

  /** The analysis aliases ask for their analysis type when there is content
      and for content otherwise. */
  lemma AnalyzeAliasesRoute(a: string, content: string)
    requires a in AnalyzeAliases
    ensures RouteNormalized(a, content) ==
      NeedsContent(content, "No content provided for analysis", AnalyzeCall(content, "comprehensive"))
  {
    AnalyzeAliasesClassified(a);
  }

  lemma VoiceAliasesRoute(a: string, content: string)
    requires a in VoiceAliases
    ensures RouteNormalized(a, content) ==
      NeedsContent(content, "No content provided for voice analysis", AnalyzeCall(content, "voice_tone"))
  {
    VoiceAliasesClassified(a);
  }

  lemma GrammarAliasesRoute(a: string, content: string)
    requires a in GrammarAliases
    ensures RouteNormalized(a, content) ==
      NeedsContent(content, "No content provided for grammar analysis", AnalyzeCall(content, "grammar"))
  {
    GrammarAliasesClassified(a);
  }

  lemma TermsAliasesRoute(a: string, content: string)
    requires a in TermsAliases
    ensures RouteNormalized(a, content) ==
      NeedsContent(content, "No content provided for terminology analysis", AnalyzeCall(content, "terminology"))
  {
    TermsAliasesClassified(a);
  }

  lemma AccessibilityAliasesRoute(a: string, content: string)
    requires a in AccessibilityAliases
    ensures RouteNormalized(a, content) ==
      NeedsContent(content, "No content provided for accessibility analysis", AnalyzeCall(content, "accessibility"))
  {
    AccessibilityAliasesClassified(a);
  }

  /** "help" is an improvement alias, so it too needs content. */
  lemma ImproveAliasesRoute(a: string, content: string)
    requires a in ImproveAliases
    ensures RouteNormalized(a, content) ==
      NeedsContent(content, "No content provided for improvement suggestions", ImproveCall(content, "all"))
  {
    ImproveAliasesClassified(a);
  }

  /** The plain guidelines aliases always ask for every category, with or
      without content. */
  lemma GuidelinesAliasesRoute(a: string, content: string)
    requires a in GuidelinesAliases
    ensures RouteNormalized(a, content) == Invoke(GuidelinesCall("all"))
  {
    GuidelinesAliasesClassified(a);
  }

  lemma SearchRoute(content: string)
    ensures RouteNormalized("search", content) == NeedsContent(content, "No search query provided", SearchCall(content))
  {
    assert Classify("search") == SearchCommand;
  }

  // The lemmas below speak of the normalised command `c`; `RouteCommand`
  // applies them to `Normalize(command)`.

  /** Without content, the only tool a branch calls is get_style_guidelines. */
  lemma EmptyContentCallsOnlyGuidelines(k: Command, c: string)
    ensures Dispatch(k, c, "").Invoke? ==> Dispatch(k, c, "").call.GuidelinesCall?
  {
  }

  /** Every other call carries the chat content, which is then non-empty. */
  lemma ContentIsForwarded(k: Command, c: string, content: string)
    ensures var r := Dispatch(k, c, content);
      r.Invoke? && !r.call.GuidelinesCall? ==>
        content != "" && (if r.call.SearchCall? then r.call.query else r.call.text) == content
  {
  }

  // `command.replace("guidelines-", "")` removes every occurrence.

  /** A leading copy of the pattern is removed and scanning resumes after it. */
  lemma RemoveAllPrefix(pat: string, rest: string)
    requires pat != []
    ensures RemoveAll(pat + rest, pat) == RemoveAll(rest, pat)
  {
    assert (pat + rest)[..|pat|] == pat;
    assert (pat + rest)[|pat|..] == rest;
  }

  /** A string that lacks the pattern's `j`-th character is left alone. */
  lemma {:induction false} RemoveAllAbsent(s: string, pat: string, j: nat)
    requires j < |pat| && pat[j] !in s
    ensures RemoveAll(s, pat) == s
    decreases |s|
  {
    if |s| >= |pat| {
      assert s[..|pat|][j] == s[j];
      assert s[1..] + [] == s[1..];
      RemoveAllAbsent(s[1..], pat, j);
      assert [s[0]] + s[1..] == s;
    }
  }

  /** No alias is longer than "accessibility". */
  lemma AliasesShort(c: string)
    requires c in AnalyzeAliases + VoiceAliases + GrammarAliases + TermsAliases
      + AccessibilityAliases + ImproveAliases + GuidelinesAliases
    ensures |c| <= 13
  {
  }

  /** A "guidelines-" command longer than every alias is classified by its
      category. */
  lemma PrefixedClassified(rest: string)
    requires |rest| >= 3
    ensures Classify(GuidelinesPrefix + rest) == CategoryGuidelines(RemoveAll(GuidelinesPrefix + rest, GuidelinesPrefix))
  {
    var c := GuidelinesPrefix + rest;
    assert |c| >= 14;
    if c in AnalyzeAliases + VoiceAliases + GrammarAliases + TermsAliases
      + AccessibilityAliases + ImproveAliases + GuidelinesAliases {
      AliasesShort(c);
      assert false;
    }
    assert StartsWith(c, GuidelinesPrefix) by {
      assert c[..|GuidelinesPrefix|] == GuidelinesPrefix;
    }
  }

  /** Prefixing a plain word keeps it plain. */
  lemma PrefixedPlain(rest: string)
    requires Plain(rest)
    ensures Plain(GuidelinesPrefix + rest)
  {
    var c := GuidelinesPrefix + rest;
    forall k | 0 <= k < |c| ensures 'a' <= c[k] <= 'z' || c[k] == '-' {
      if k >= |GuidelinesPrefix| {
        assert c[k] == rest[k - |GuidelinesPrefix|];
      }
    }
  }

  /** "guidelines-" followed by a word without hyphens takes the category
      branch with that word. */
  lemma PrefixedRoute(category: string, content: string)
    requires '-' !in category && |category| >= 3
    ensures RouteNormalized(GuidelinesPrefix + category, content)
      == if category in GuidelineCategories then Invoke(GuidelinesCall(category))
         else Refuse("Unknown guidelines category: " + category)
  {
    PrefixedClassified(category);
    RemoveAllPrefix(GuidelinesPrefix, category);
    RemoveAllAbsent(category, GuidelinesPrefix, 10);
  }

  lemma CategoriesPlain(category: string)
    requires category in GuidelineCategories
    ensures Plain(category) && '-' !in category && |category| >= 3
  {
    if category == "voice" {
    } else if category == "grammar" {
    } else if category == "terminology" {
    } else {
    }
  }

  /** "guidelines-<category>" asks for that category alone. */
  lemma GuidelinesCategoryRoutes(category: string, content: string)
    requires category in GuidelineCategories
    ensures RouteNormalized(GuidelinesPrefix + category, content) == Invoke(GuidelinesCall(category))
  {
    CategoriesPlain(category);
    PrefixedRoute(category, content);
  }

  /** "guidelines-all" is not accepted: "all" is not one of the four
      categories. */
  lemma GuidelinesAllRefused(content: string)
    ensures RouteNormalized(GuidelinesPrefix + "all", content) == Refuse("Unknown guidelines category: " + "all")
  {
    assert "all" !in GuidelineCategories;
    PrefixedRoute("all", content);
  }

  /** Because every occurrence of the prefix is removed, a doubled prefix is
      accepted too. */
  lemma RepeatedPrefixAccepted(content: string)
    ensures RouteNormalized(GuidelinesPrefix + (GuidelinesPrefix + "voice"), content) == Invoke(GuidelinesCall("voice"))
  {
    var c := GuidelinesPrefix + (GuidelinesPrefix + "voice");
    PrefixedClassified(GuidelinesPrefix + "voice");
    RemoveAllPrefix(GuidelinesPrefix, GuidelinesPrefix + "voice");
    RemoveAllPrefix(GuidelinesPrefix, "voice");
    RemoveAllAbsent("voice", GuidelinesPrefix, 10);
    assert Classify(c) == CategoryGuidelines("voice");
  }

  /** The commands the router knows, after normalisation. */
  predicate Known(c: string) {
    c in AnalyzeAliases || c in VoiceAliases || c in GrammarAliases || c in TermsAliases
    || c in AccessibilityAliases || c in ImproveAliases || c in GuidelinesAliases
    || StartsWith(c, GuidelinesPrefix) || c == "search"
  }

  /** A command is answered with the list of available commands exactly when
      the router does not know it; the answer names the normalised command. */
  lemma UnknownIff(c: string, content: string)
    ensures RouteNormalized(c, content).Unknown? <==> !Known(c)
    ensures RouteNormalized(c, content).Unknown? ==>
      RouteNormalized(c, content) == Unknown("Unknown command: " + c, AvailableCommands)
      && |AvailableCommands| == 12
  {
  }

  /** Every call the router makes is one the server serves with content: an
      analysis type that runs at least one check, a guidelines category that
      selects at least one block, and the "all" focus. */
  lemma RoutedCallsAreServed(k: Command, c: string, content: string)
    ensures var r := Dispatch(k, c, content);
      r.Invoke? ==>
        match r.call
        case AnalyzeCall(_, t) => exists c :: Style.Runs(t, c)
        case GuidelinesCall(category) => exists key :: Style.Requested(category, key)
        case ImproveCall(_, focusArea) => focusArea == "all"
        case SearchCall(query) => query != ""
  {
    match k
    case AnalyzeCommand => assert Style.Runs("comprehensive", Style.VoiceTone);
    case VoiceCommand => assert Style.Runs("voice_tone", Style.VoiceTone);
    case GrammarCommand => assert Style.Runs("grammar", Style.Grammar);
    case TermsCommand => assert Style.Runs("terminology", Style.Terminology);
    case AccessibilityCommand => assert Style.Runs("accessibility", Style.Accessibility);
    case GuidelinesCommand => assert Style.Requested("all", Style.VoiceAndToneKey);
    case CategoryGuidelines(category) =>
      if category in GuidelineCategories {
        CategoriesServed(category);
      }
    case _ =>
  }

  /** Each of the four categories selects a block of the guidelines. */
  lemma CategoriesServed(category: string)
    requires category in GuidelineCategories
    ensures exists key :: Style.Requested(category, key)
  {
    if category == "voice" {
      assert Style.Requested(category, Style.VoiceAndToneKey);
    } else if category == "grammar" {
      assert Style.Requested(category, Style.GrammarKey);
    } else if category == "terminology" {
      assert Style.Requested(category, Style.TerminologyKey);
    } else {
      assert Style.Requested(category, Style.AccessibilityKey);
    }
  }

  // ---------------------------------------------------------------------------
  // call_tool

  /** What the transport gives back for one request: a response with its
      status, its decoded body and its raw text, or an exception. */
  datatype Reply = Answered(status: nat, body: Value, text: string) | Raised(message: string)

  /** The dictionaries the client returns: `{"success": True, "result": ...}`,
      `{"success": False, "error": ...}`, and the unknown-command error that
      also lists the available commands. */
  datatype Outcome =
    | Success(result: Value)
    | Failure(error: string)
    | UnknownCommand(error: string, availableCommands: seq<string>)

  /** The answer of `call_tool` in a given connection state; `transport`
      stands for the MCP session or the HTTP post of that connection type. */
  function CallOutcome(sessionOpen: bool, connectionType: Option<string>, toolName: string,
                       arguments: seq<(string, Value)>, transport: (string, string, seq<(string, Value)>) -> Reply): Outcome
  {
    if !sessionOpen then Failure("Not connected to server")
    else if connectionType == Some("stdio") then
      match transport("stdio", toolName, arguments)
      case Answered(_, body, _) => Success(body)
      case Raised(message) => Failure(message)
    else if connectionType == Some("http") then
      match transport("http", toolName, arguments)
      case Answered(status, body, text) =>
        if status == 200 then Success(body) else Failure("HTTP " + NatToString(status) + ": " + text)
      case Raised(message) => Failure(message)
    else Failure("Unknown connection type")
  }

  /** A call succeeds only over an open session of a known type, and over HTTP
      only with status 200; without a session or with an unknown type the
      transport's reply does not matter. */
  lemma CallOutcomeGuards(sessionOpen: bool, connectionType: Option<string>, toolName: string,
                          arguments: seq<(string, Value)>, transport: (string, string, seq<(string, Value)>) -> Reply,
                          other: (string, string, seq<(string, Value)>) -> Reply)
    ensures var r := CallOutcome(sessionOpen, connectionType, toolName, arguments, transport);
      && (r.Success? ==> sessionOpen && (connectionType == Some("stdio") || connectionType == Some("http")))
      && (r.Success? && connectionType == Some("http") ==>
            transport("http", toolName, arguments).Answered? && transport("http", toolName, arguments).status == 200)
      && !r.UnknownCommand?
    ensures !sessionOpen || (connectionType != Some("stdio") && connectionType != Some("http")) ==>
      CallOutcome(sessionOpen, connectionType, toolName, arguments, transport)
      == CallOutcome(sessionOpen, connectionType, toolName, arguments, other)
  {
  }

  /** `FastMCPClient` as far as `call_tool` depends on it: whether a session
      object exists and the connection type the connect methods recorded. */
  class FastMcpClient {
    var sessionOpen: bool
    var connectionType: Option<string>

    constructor()
      ensures !sessionOpen && connectionType == None
    {
      sessionOpen := false;
      connectionType := None;
    }

    method CallTool(toolName: string, arguments: seq<(string, Value)>,
                    transport: (string, string, seq<(string, Value)>) -> Reply) returns (r: Outcome)
      ensures r == CallOutcome(sessionOpen, connectionType, toolName, arguments, transport)
      ensures !sessionOpen ==> r == Failure("Not connected to server")
    {
      if !sessionOpen {
        return Failure("Not connected to server");
      }
      if connectionType == Some("stdio") {
        var reply := transport("stdio", toolName, arguments);
        match reply
        case Answered(_, body, _) => r := Success(body);
        case Raised(message) => r := Failure(message);
      } else if connectionType == Some("http") {
        var reply := transport("http", toolName, arguments);
        match reply
        case Answered(status, body, text) =>
          if status == 200 {
            r := Success(body);
          } else {
            r := Failure("HTTP " + NatToString(status) + ": " + text);
          }
        case Raised(message) => r := Failure(message);
      } else {
        r := Failure("Unknown connection type");
      }
    }

    /** The `analyze_content`, `get_style_guidelines`, `suggest_improvements`
        and `search_style_guide` helpers. */
    method Call(call: ToolCall, transport: (string, string, seq<(string, Value)>) -> Reply) returns (r: Outcome)
      ensures r == CallOutcome(sessionOpen, connectionType, ToolName(call), Arguments(call), transport)
    {
      r := CallTool(ToolName(call), Arguments(call), transport);
    }
  }

  /** `GitHubCopilotInterface.process_chat_command` over its client: the
      routed call goes through `call_tool`, a refusal is answered at once. */
  method ProcessChatCommand(client: FastMcpClient, command: string, content: string,
                            transport: (string, string, seq<(string, Value)>) -> Reply) returns (r: Outcome)
    ensures match RouteCommand(command, content)
      case Invoke(call) => r == CallOutcome(client.sessionOpen, client.connectionType, ToolName(call), Arguments(call), transport)
      case Refuse(error) => r == Failure(error)
      case Unknown(error, commands) => r == UnknownCommand(error, commands)
  {
    var route := RouteCommand(command, content);
    match route
    case Invoke(call) => r := client.Call(call, transport);
    case Refuse(error) => r := Failure(error);
    case Unknown(error, commands) => r := UnknownCommand(error, commands);
  }

  // ---------------------------------------------------------------------------
  // _format_result

  /** `_format_result`: a dictionary shows its "summary", else its
      "assessment", else its JSON dump; anything else is shown with `str`.
      `str` and `json.dumps` are parameters. */
  function FormatResult(result: Value, str: Value -> string, dumps: Value -> string): string {
    if result.Dict? then
      match Lookup(result.entries, "summary")
      case Some(summary) => "Summary: " + str(summary)
      case None =>
        match Lookup(result.entries, "assessment")
        case Some(assessment) => "Assessment: " + str(assessment)
        case None => dumps(result)
    else str(result)
  }

  /** With a summary present, entries added after it, an assessment
      included, do not change what is shown. */
  lemma SummaryTakesPrecedence(entries: seq<(string, Value)>, more: seq<(string, Value)>,
                               str: Value -> string, dumps: Value -> string)
    requires Lookup(entries, "summary").Some?
    ensures FormatResult(Dict(entries + more), str, dumps) == FormatResult(Dict(entries), str, dumps)
    ensures FormatResult(Dict(entries), str, dumps) == "Summary: " + str(Lookup(entries, "summary").value)
  {
    LookupAppend(entries, more, "summary");
  }

  /** Without a summary, an assessment is shown whatever else is added,
      as long as no summary is added. */
  lemma AssessmentBeforeDump(entries: seq<(string, Value)>, more: seq<(string, Value)>,
                             str: Value -> string, dumps: Value -> string)
    requires Lookup(entries, "summary").None? && Lookup(more, "summary").None?
    requires Lookup(entries, "assessment").Some?
    ensures FormatResult(Dict(entries + more), str, dumps) == "Assessment: " + str(Lookup(entries, "assessment").value)
  {
    LookupAppend(entries, more, "summary");
    LookupAppend(entries, more, "assessment");
  }

  /** Only a dictionary with neither key is dumped as JSON. */
  lemma DumpOnlyWithoutKeys(result: Value, str: Value -> string, dumps: Value -> string)
    requires result.Dict?
    ensures Lookup(result.entries, "summary").None? && Lookup(result.entries, "assessment").None? ==>
      FormatResult(result, str, dumps) == dumps(result)
  {
  }
}
