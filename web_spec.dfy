/** The web-enabled analyzer `WebEnabledStyleGuideAnalyzer` as functions of
    its inputs. The network is an oracle from URL to response; the content
    cache is a map from URL to fetch result; and search ranking, the topic
    selection for official guidance and the analysis itself (which lacks the
    long-sentence and gendered-pronoun rules and always runs the voice
    checks) are stated over them. */
module WebSpec {
  import opened Wrappers
  import opened TextModel
  import opened Patterns
  import opened Style

  // ---------------------------------------------------------------------------
  // The core pages

  /** One entry of `core_urls`. */
  datatype Section = Section(name: string, url: string)

  /** `core_urls`, in dictionary order. */
  const CoreSections: seq<Section> := [
    Section("voice_tone", StyleGuideBaseUrl + "/brand-voice-above-all-simple-human"),
    Section("top_tips", StyleGuideBaseUrl + "/top-10-tips-style-voice"),
    Section("bias_free", StyleGuideBaseUrl + "/bias-free-communication"),
    Section("writing_tips", StyleGuideBaseUrl + "/global-communications/writing-tips"),
    Section("welcome", StyleGuideBaseUrl + "/welcome/"),
    Section("word_list", StyleGuideBaseUrl + "/a-z-word-list-term-collections")
  ]

  function Names(secs: seq<Section>): (r: seq<string>)
    ensures |r| == |secs| && forall k | 0 <= k < |secs| :: r[k] == secs[k].name
  {
    seq(|secs|, k requires 0 <= k < |secs| => secs[k].name)
  }

  function Urls(secs: seq<Section>): (r: seq<string>)
    ensures |r| == |secs| && forall k | 0 <= k < |secs| :: r[k] == secs[k].url
  {
    seq(|secs|, k requires 0 <= k < |secs| => secs[k].url)
  }

  /** `self.core_urls[name]` when `name in self.core_urls`. */
  function SectionUrl(secs: seq<Section>, name: string): (r: Option<string>)
    ensures r.None? <==> forall k | 0 <= k < |secs| :: secs[k].name != name
    ensures r.Some? ==> exists k | 0 <= k < |secs| :: secs[k] == Section(name, r.value)
  {
    if secs == [] then None
    else if secs[0].name == name then Some(secs[0].url)
    else
      var r := SectionUrl(secs[1..], name);
      assert r.Some? ==> exists k | 1 <= k < |secs| :: secs[k] == Section(name, r.value) by {
        if r.Some? {
          var k :| 0 <= k < |secs[1..]| && secs[1..][k] == Section(name, r.value);
          assert secs[k + 1] == secs[1..][k];
        }
      }
      assert r.None? ==> forall k | 1 <= k < |secs| :: secs[k].name != name by {
        if r.None? {
          forall k | 1 <= k < |secs| ensures secs[k].name != name {
            assert secs[k] == secs[1..][k - 1];
          }
        }
      }
      r
  }

  // ---------------------------------------------------------------------------
  // The network and the cache

  /** What one GET of a URL yields: the HTTP status, the `<title>` text if the
      page has one, and the page text once markup is removed and whitespace
      collapsed; or the message of the exception raised on the way. */
  datatype Response = Response(status: nat, title: Option<string>, text: string) | Failure(error: string)

  type Network = string -> Response

  /** The dictionary `fetch_web_content` returns. */
  datatype Fetch =
    | Fetched(url: string, title: string, content: string, fullContent: string)
    | FetchFailed(error: string, url: string)

  const DefaultTitle := "Microsoft Style Guide"

  /** The `content` field is capped at this many characters. */
  const PreviewLength: nat := 2000

  /** The result of fetching `url` from the network: success exactly on
      status 200, with the title defaulting to the guide's name and the
      content cut to its first 2000 characters. */
  function FetchOutcome(net: Network, url: string): (r: Fetch)
    ensures r.url == url
    ensures r.Fetched? <==> net(url).Response? && net(url).status == 200
    ensures r.Fetched? ==> r.fullContent == net(url).text && r.title == net(url).title.GetOr(DefaultTitle)
    ensures r.Fetched? ==> |r.content| <= PreviewLength && |r.content| <= |r.fullContent|
    ensures r.Fetched? ==> r.content == r.fullContent[..|r.content|]
    ensures r.Fetched? && |r.fullContent| <= PreviewLength ==> r.content == r.fullContent
    ensures r.Fetched? && |r.fullContent| > PreviewLength ==> |r.content| == PreviewLength
    ensures net(url).Failure? ==> r == FetchFailed(net(url).error, url)
  {
    match net(url)
    case Failure(e) => FetchFailed(e, url)
    case Response(status, title, text) =>
      if status == 200 then Fetched(url, title.GetOr(DefaultTitle), Take(text, PreviewLength), text)
      else FetchFailed("HTTP " + NatToString(status), url)
  }

  type Cache = map<string, Fetch>

  /** Only successful results are cached, each under its own URL. */
  predicate WellCached(c: Cache) {
    forall u | u in c :: c[u].Fetched? && c[u].url == u
  }

  /** What `fetch_web_content(url)` answers with cache `c`. */
  function Seen(c: Cache, net: Network, url: string): Fetch {
    if url in c then c[url] else FetchOutcome(net, url)
  }

  /** The cache after `fetch_web_content(url)`. */
  function Cached(c: Cache, net: Network, url: string): Cache {
    if url in c then c
    else if FetchOutcome(net, url).Fetched? then c[url := FetchOutcome(net, url)]
    else c
  }

  /** The cache after fetching `urls` in order. */
  function CacheAfter(c: Cache, net: Network, urls: seq<string>): Cache
    decreases |urls|
  {
    if urls == [] then c else Cached(CacheAfter(c, net, urls[..|urls| - 1]), net, urls[|urls| - 1])
  }

  /** `c1` holds everything `c0` holds, unchanged, and whatever it adds is
      what the network gives for that URL. */
  predicate Refines(c0: Cache, c1: Cache, net: Network) {
    && (forall u | u in c0 :: u in c1 && c1[u] == c0[u])
    && (forall u | u in c1 && u !in c0 :: c1[u] == FetchOutcome(net, u))
  }

  /** A fetch leaves the cache refined, and keeps it well formed. */
  lemma CachedRefines(c: Cache, net: Network, url: string)
    requires WellCached(c)
    ensures Refines(c, Cached(c, net, url), net) && WellCached(Cached(c, net, url))
    ensures url in Cached(c, net, url) <==> url in c || FetchOutcome(net, url).Fetched?
  {
  }

  lemma RefinesTransitive(c0: Cache, c1: Cache, c2: Cache, net: Network)
    requires Refines(c0, c1, net) && Refines(c1, c2, net)
    ensures Refines(c0, c2, net)
  {
  }

  /** A refined cache answers every fetch exactly as the original one did. */
  lemma RefinesKeepsSeen(c0: Cache, c1: Cache, net: Network, url: string)
    requires Refines(c0, c1, net)
    ensures Seen(c1, net, url) == Seen(c0, net, url)
  {
  }

  lemma {:induction false} CacheAfterRefines(c: Cache, net: Network, urls: seq<string>)
    requires WellCached(c)
    ensures Refines(c, CacheAfter(c, net, urls), net) && WellCached(CacheAfter(c, net, urls))
    decreases |urls|
  {
    if urls != [] {
      var before := CacheAfter(c, net, urls[..|urls| - 1]);
      CacheAfterRefines(c, net, urls[..|urls| - 1]);
      CachedRefines(before, net, urls[|urls| - 1]);
      RefinesTransitive(c, before, CacheAfter(c, net, urls), net);
    }
  }

  // ---------------------------------------------------------------------------
  // search_style_guide_live

  /** `sum(1 for term in terms if term in content)`. */
  function Score(terms: seq<string>, content: string): (n: nat)
    ensures n <= |terms|
  {
    if terms == [] then 0
    else Score(terms[..|terms| - 1], content) + (if Contains(content, terms[|terms| - 1]) then 1 else 0)
  }

  /** One entry of `search_results`; `high` is `relevance == "high"`. */
  datatype SearchResult = SearchResult(section: string, title: string, url: string, high: bool, contentPreview: string)

  /** The entry a fetched core page contributes to `search_results`. */
  function Hit(terms: seq<string>, sec: Section, f: Fetch): seq<SearchResult> {
    if f.Fetched? && Score(terms, Lower(f.fullContent)) > 0 then
      [SearchResult(sec.name, f.title, sec.url, Score(terms, Lower(f.fullContent)) >= |terms| / 2, f.content)]
    else []
  }

  /** `search_results` before sorting: one entry per core page that was
      fetched and contains at least one query term, in `core_urls` order. */
  function Hits(terms: seq<string>, secs: seq<Section>, c: Cache, net: Network): (r: seq<SearchResult>)
    ensures |r| <= |secs|
  {
    if secs == [] then []
    else
      var last := secs[|secs| - 1];
      Hits(terms, secs[..|secs| - 1], c, net) + Hit(terms, last, Seen(c, net, last.url))
  }

  /** One more core page adds its hit, if any, to the hits so far. */
  lemma HitsStep(terms: seq<string>, secs: seq<Section>, i: nat, c: Cache, net: Network)
    requires i < |secs|
    ensures Hits(terms, secs[..i + 1], c, net) == Hits(terms, secs[..i], c, net) + Hit(terms, secs[i], Seen(c, net, secs[i].url))
  {
    assert secs[..i + 1][..i] == secs[..i];
  }

  /** One more core page fetched leaves the cache as `Cached` says. */
  lemma CacheAfterStep(c: Cache, net: Network, secs: seq<Section>, i: nat)
    requires i < |secs|
    ensures CacheAfter(c, net, Urls(secs[..i + 1])) == Cached(CacheAfter(c, net, Urls(secs[..i])), net, secs[i].url)
  {
    assert Urls(secs[..i + 1])[..i] == Urls(secs[..i]);
  }

  /** One more URL fetched after `urls`. */
  lemma CacheAfterSnoc(c: Cache, net: Network, urls: seq<string>, u: string)
    ensures CacheAfter(c, net, urls + [u]) == Cached(CacheAfter(c, net, urls), net, u)
  {
    assert (urls + [u])[..|urls|] == urls;
  }

  /** One pass of the guidance loop: the section's entry is appended, and the
      cache grows by the section's URL, if it has one. */
  lemma GuidanceLoopStep(names: seq<string>, j: nat, secs: seq<Section>, c0: Cache, net: Network)
    requires j < |names|
    ensures GuidanceFor(names[..j + 1], secs, c0, net) == GuidanceFor(names[..j], secs, c0, net) + GuidanceEntry(names[j], secs, c0, net)
    ensures var cache := CacheAfter(c0, net, SelectedUrls(names[..j], secs));
      CacheAfter(c0, net, SelectedUrls(names[..j + 1], secs)) == match SectionUrl(secs, names[j])
        case None => cache
        case Some(u) => Cached(cache, net, u)
  {
    GuidanceStep(names, j, secs, c0, net);
    var urls := SelectedUrls(names[..j], secs);
    match SectionUrl(secs, names[j])
    case None =>
      assert SelectedUrls(names[..j + 1], secs) == urls + [];
      assert urls + [] == urls;
    case Some(u) =>
      CacheAfterSnoc(c0, net, urls, u);
  }

  /** `x` comes before `y` under `key=(relevance == "high", section)` with
      `reverse=True`. */
  predicate Before(x: SearchResult, y: SearchResult) {
    (x.high && !y.high) || (x.high == y.high && StrLess(y.section, x.section))
  }

  lemma BeforeTransitive(x: SearchResult, y: SearchResult, z: SearchResult)
    requires Before(x, y) && Before(y, z)
    ensures Before(x, z)
  {
    if x.high == y.high && y.high == z.high {
      StrLessTransitive(z.section, y.section, x.section);
    }
  }

  lemma BeforeAsymmetric(x: SearchResult, y: SearchResult)
    requires Before(x, y)
    ensures !Before(y, x)
  {
    if x.high == y.high {
      StrLessAsymmetric(y.section, x.section);
    }
  }

  /** No entry has a strictly larger key than one before it. */
  predicate SortedByKey(rs: seq<SearchResult>) {
    forall i, j | 0 <= i < j < |rs| :: !Before(rs[j], rs[i])
  }

  function Insert(x: SearchResult, rs: seq<SearchResult>): (r: seq<SearchResult>)
    requires SortedByKey(rs)
    ensures SortedByKey(r) && multiset(r) == multiset(rs) + multiset{x}
  {
    if rs == [] then [x]
    else if Before(x, rs[0]) then
      var r := [x] + rs;
      forall i, j | 0 <= i < j < |r| ensures !Before(r[j], r[i]) {
        if i == 0 {
          if j == 1 {
            BeforeAsymmetric(x, rs[0]);
          } else if Before(rs[j - 1], x) {
            BeforeTransitive(rs[j - 1], x, rs[0]);
          }
        }
      }
      r
    else
      var rest := Insert(x, rs[1..]);
      var r := [rs[0]] + rest;
      assert rs == [rs[0]] + rs[1..];
      forall j | 0 < j < |r| ensures !Before(r[j], rs[0]) {
        assert r[j] in multiset(rest);
        assert r[j] == x || r[j] in rs[1..];
      }
      r
  }

  /** `search_results.sort(key=..., reverse=True)`: the entries rearranged so
      that no entry's key exceeds an earlier one's. */
  function SortResults(rs: seq<SearchResult>): (r: seq<SearchResult>)
    ensures SortedByKey(r) && multiset(r) == multiset(rs)
  {
    if rs == [] then []
    else
      assert rs == rs[..|rs| - 1] + [rs[|rs| - 1]];
      Insert(rs[|rs| - 1], SortResults(rs[..|rs| - 1]))
  }

  /** The result of `search_style_guide_live`. */
  datatype SearchReport = SearchReport(query: string, results: seq<SearchResult>, totalFound: nat)

  /** `query.lower().split()`. */
  function QueryTerms(query: string): seq<string> {
    Words(Lower(query))
  }

  /** At most five results are returned; `total_found` counts them all. */
  const MaxResults: nat := 5

  function SearchSpec(query: string, secs: seq<Section>, c: Cache, net: Network): SearchReport {
    var hits := Hits(QueryTerms(query), secs, c, net);
    SearchReport(query, Take(SortResults(hits), MaxResults), |hits|)
  }

  // ---------------------------------------------------------------------------
  // get_official_guidance

  /** `topic_mappings`, in dictionary order. */
  const TopicMappings: seq<(string, string)> := [
    ("voice", "voice_tone"), ("tone", "voice_tone"), ("tips", "top_tips"),
    ("bias", "bias_free"), ("inclusive", "bias_free"), ("writing", "writing_tips"),
    ("grammar", "writing_tips"), ("words", "word_list"), ("terminology", "word_list")
  ]

  /** The sections of the mapping keys that occur in `topic`, in mapping
      order, duplicates kept. */
  function Matched(maps: seq<(string, string)>, topic: string): (r: seq<string>)
    ensures |r| <= |maps|
  {
    if maps == [] then []
    else
      var last := maps[|maps| - 1];
      Matched(maps[..|maps| - 1], topic) + (if Contains(topic, last.0) then [last.1] else [])
  }

  /** A section is selected exactly when some mapping entry whose key occurs
      in `topic` names it. */
  lemma {:induction false} MatchedIff(maps: seq<(string, string)>, topic: string, section: string)
    ensures section in Matched(maps, topic) <==>
      exists j | 0 <= j < |maps| :: Contains(topic, maps[j].0) && maps[j].1 == section
    decreases |maps|
  {
    if maps != [] {
      var init, last := maps[..|maps| - 1], maps[|maps| - 1];
      MatchedIff(init, topic, section);
      if exists j | 0 <= j < |init| :: Contains(topic, init[j].0) && init[j].1 == section {
        var j :| 0 <= j < |init| && Contains(topic, init[j].0) && init[j].1 == section;
        assert maps[j] == init[j];
      }
      if exists j | 0 <= j < |maps| :: Contains(topic, maps[j].0) && maps[j].1 == section {
        var j :| 0 <= j < |maps| && Contains(topic, maps[j].0) && maps[j].1 == section;
        if j < |init| {
          assert init[j] == maps[j];
        }
      }
    }
  }

  /** No key occurs in `topic`: nothing matches. */
  lemma {:induction false} MatchedNone(maps: seq<(string, string)>, topic: string)
    requires forall j | 0 <= j < |maps| :: !Contains(topic, maps[j].0)
    ensures Matched(maps, topic) == []
    decreases |maps|
  {
    if maps != [] {
      MatchedNone(maps[..|maps| - 1], topic);
    }
  }

  /** No key among the first `n` occurs in `topic`: nothing matches there. */
  lemma {:induction false} MatchedPrefixNone(maps: seq<(string, string)>, topic: string, n: nat)
    requires n <= |maps| && forall j | 0 <= j < n :: !Contains(topic, maps[j].0)
    ensures Matched(maps[..n], topic) == []
  {
    var m := 0;
    assert maps[..0] == [];
    while m < n
      invariant m <= n && Matched(maps[..m], topic) == []
    {
      MatchedStep(maps, m, topic);
      m := m + 1;
    }
  }

  /** No key from index `n` on occurs in `topic`: those add nothing. */
  lemma {:induction false} MatchedSuffixNone(maps: seq<(string, string)>, topic: string, n: nat)
    requires n <= |maps| && forall j | n <= j < |maps| :: !Contains(topic, maps[j].0)
    ensures Matched(maps, topic) == Matched(maps[..n], topic)
  {
    var m := n;
    while m < |maps|
      invariant n <= m <= |maps| && Matched(maps[..m], topic) == Matched(maps[..n], topic)
    {
      MatchedStep(maps, m, topic);
      m := m + 1;
    }
    assert maps[..m] == maps;
  }

  /** `relevant_sections`: the matched sections, or every core section when
      none matched. */
  function RelevantSections(topicLower: string, secs: seq<Section>): seq<string> {
    var m := Matched(TopicMappings, topicLower);
    if m == [] then Names(secs) else m
  }

  /** At most three sections are consulted. */
  const MaxSections: nat := 3

  /** `relevant_sections[:3]`. */
  function SelectedSections(topic: string, secs: seq<Section>): seq<string> {
    Take(RelevantSections(Lower(topic), secs), MaxSections)
  }

  /** One entry of `guidance`. */
  datatype GuidanceItem = GuidanceItem(section: string, title: string, url: string, content: string)

  /** The entry one section contributes: its page, when it has a URL and the
      fetch succeeds. */
  function GuidanceEntry(name: string, secs: seq<Section>, c: Cache, net: Network): seq<GuidanceItem> {
    match SectionUrl(secs, name)
    case None => []
    case Some(u) =>
      var f := Seen(c, net, u);
      if f.Fetched? then [GuidanceItem(name, f.title, u, f.content)] else []
  }

  function GuidanceFor(names: seq<string>, secs: seq<Section>, c: Cache, net: Network): (r: seq<GuidanceItem>)
    ensures |r| <= |names|
  {
    if names == [] then []
    else GuidanceFor(names[..|names| - 1], secs, c, net) + GuidanceEntry(names[|names| - 1], secs, c, net)
  }

  /** The URLs fetched for `names`, in order. */
  function SelectedUrls(names: seq<string>, secs: seq<Section>): seq<string> {
    if names == [] then []
    else
      var last := names[|names| - 1];
      SelectedUrls(names[..|names| - 1], secs) + (match SectionUrl(secs, last) case None => [] case Some(u) => [u])
  }

  lemma MatchedStep(maps: seq<(string, string)>, i: nat, topic: string)
    requires i < |maps|
    ensures Matched(maps[..i + 1], topic) == Matched(maps[..i], topic) + (if Contains(topic, maps[i].0) then [maps[i].1] else [])
  {
    assert maps[..i + 1][..i] == maps[..i];
  }

  /** One more section consulted: its entry and its URL follow the earlier ones. */
  lemma GuidanceStep(names: seq<string>, j: nat, secs: seq<Section>, c: Cache, net: Network)
    requires j < |names|
    ensures GuidanceFor(names[..j + 1], secs, c, net) == GuidanceFor(names[..j], secs, c, net) + GuidanceEntry(names[j], secs, c, net)
    ensures SelectedUrls(names[..j + 1], secs)
            == SelectedUrls(names[..j], secs) + (match SectionUrl(secs, names[j]) case None => [] case Some(u) => [u])
  {
    assert names[..j + 1][..j] == names[..j];
  }

  /** A refined cache gives every section the same guidance. */
  lemma {:induction false} GuidanceForRefines(names: seq<string>, secs: seq<Section>, c0: Cache, c1: Cache, net: Network)
    requires Refines(c0, c1, net)
    ensures GuidanceFor(names, secs, c1, net) == GuidanceFor(names, secs, c0, net)
    decreases |names|
  {
    if names != [] {
      GuidanceForRefines(names[..|names| - 1], secs, c0, c1, net);
      match SectionUrl(secs, names[|names| - 1])
      case None =>
      case Some(u) => RefinesKeepsSeen(c0, c1, net, u);
    }
  }

  /** The result of `get_official_guidance`. */
  datatype GuidanceReport = GuidanceReport(topic: string, guidance: seq<GuidanceItem>)

  function GuidanceSpec(topic: string, secs: seq<Section>, c: Cache, net: Network): seq<GuidanceItem> {
    GuidanceFor(SelectedSections(topic, secs), secs, c, net)
  }

  // ---------------------------------------------------------------------------
  // analyze_content

  /** The issues of the web `analyze_content`: the voice check always, then
      passive voice, terminology and non-inclusive terms when the analysis
      type selects them. */
  function WebIssues(an: Analyzer, text: string, analysisType: string): seq<Issue>
    requires an.Valid()
  {
    VoiceIssues(an, text)
    + Gate(Runs(analysisType, Grammar), FindingIssues(an, PassiveFinding, text))
    + Gate(Runs(analysisType, Terminology), TermIssues(an.terminologyStandards, text))
    + Gate(Runs(analysisType, Accessibility), FindingIssues(an, NonInclusiveFinding, text))
  }

  /** The issue list after each block of the web `analyze_content` is the
      blocks so far. */
  lemma WebIssuesByBlock(an: Analyzer, text: string, analysisType: string,
                         g: seq<Issue>, t: seq<Issue>, issues: seq<Issue>)
    requires an.Valid()
    requires g == VoiceIssues(an, text) + Gate(Runs(analysisType, Grammar), FindingIssues(an, PassiveFinding, text))
    requires t == g + Gate(Runs(analysisType, Terminology), TermIssues(an.terminologyStandards, text))
    requires issues == t + Gate(Runs(analysisType, Accessibility), FindingIssues(an, NonInclusiveFinding, text))
    ensures issues == WebIssues(an, text, analysisType)
  {
  }

  function WebAnalysis(an: Analyzer, text: string, analysisType: string): Analysis
    requires an.Valid()
  {
    Assemble(text, analysisType, WebIssues(an, text, analysisType), VoiceSuggestions(an, text))
  }

  /** `set(issue["type"] for issue in issues)`. */
  function IssueTypes(issues: seq<Issue>): set<Category> {
    set k | 0 <= k < |issues| :: issues[k].category
  }

  /** The first guidance entry for the issue type `t`, when there is one. */
  function TypeGuidance(t: Category, secs: seq<Section>, c: Cache, net: Network): seq<GuidanceItem> {
    GuidanceSpec(CategoryName(t), secs, c, net)
  }

  /** What `live_guidance` may hold, whatever order the set of issue types is
      visited in: nothing without issues; otherwise at most two of the issue
      types, each mapped to the first official-guidance entry for its name,
      and every type that has an entry when there are at most two types. */
  predicate LiveGuidanceFits(live: map<Category, GuidanceItem>, issues: seq<Issue>, secs: seq<Section>, c: Cache, net: Network) {
    && (issues == [] ==> live == map[])
    && live.Keys <= IssueTypes(issues)
    && |live.Keys| <= 2
    && (forall t | t in live :: TypeGuidance(t, secs, c, net) != [] && live[t] == TypeGuidance(t, secs, c, net)[0])
    && (|IssueTypes(issues)| <= 2 ==> forall t | t in IssueTypes(issues) && TypeGuidance(t, secs, c, net) != [] :: t in live)
  }

  lemma SubsetNoLarger<T>(a: set<T>, b: set<T>)
    requires a <= b
    ensures |a| <= |b|
  {
    assert b == a + (b - a);
  }

  /** Looking up a topic leaves the cache refined and sees what the first
      cache would have seen. */
  lemma GuidanceKeepsRefining(topic: string, secs: seq<Section>, c0: Cache, before: Cache, net: Network)
    requires WellCached(before) && Refines(c0, before, net)
    ensures Refines(c0, CacheAfter(before, net, SelectedUrls(SelectedSections(topic, secs), secs)), net)
    ensures GuidanceSpec(topic, secs, before, net) == GuidanceSpec(topic, secs, c0, net)
  {
    var urls := SelectedUrls(SelectedSections(topic, secs), secs);
    CacheAfterRefines(before, net, urls);
    RefinesTransitive(c0, before, CacheAfter(before, net, urls), net);
    GuidanceForRefines(SelectedSections(topic, secs), secs, c0, before, net);
  }

  /** What the loop of `live_guidance` keeps: the types visited so far
      (`done`) that have guidance are exactly the keys, each mapped to its
      first entry. */
  predicate LiveSoFar(live: map<Category, GuidanceItem>, done: set<Category>, secs: seq<Section>, c: Cache, net: Network) {
    && live.Keys <= done
    && (forall t | t in live :: TypeGuidance(t, secs, c, net) != [] && live[t] == TypeGuidance(t, secs, c, net)[0])
    && (forall t | t in done && TypeGuidance(t, secs, c, net) != [] :: t in live)
  }

  /** Visiting one more type `t` whose guidance is `g` keeps `LiveSoFar`. */
  lemma LiveStep(live: map<Category, GuidanceItem>, done: set<Category>, t: Category, g: seq<GuidanceItem>,
                 secs: seq<Section>, c: Cache, net: Network)
    requires LiveSoFar(live, done, secs, c, net) && g == TypeGuidance(t, secs, c, net)
    ensures LiveSoFar(if g != [] then live[t := g[0]] else live, done + {t}, secs, c, net)
  {
  }

  /** Moving `t` from `remaining` to `done` keeps them a partition of the
      same set, and `done` grows by one. */
  lemma VisitOne<T>(done: set<T>, remaining: set<T>, t: T)
    requires done !! remaining && t in remaining
    ensures (done + {t}) + (remaining - {t}) == done + remaining
    ensures (done + {t}) !! (remaining - {t}) && |done + {t}| == |done| + 1
  {
  }

  /** The loop of `live_guidance` ends with a map that fits: it visited at
      most two types, and all of them when there were at most two. */
  lemma LiveGuidanceLoopFits(live: map<Category, GuidanceItem>, issues: seq<Issue>, secs: seq<Section>, c: Cache, net: Network,
                             done: set<Category>, remaining: set<Category>)
    requires issues != []
    requires done + remaining == IssueTypes(issues) && done !! remaining
    requires |done| <= 2 && (|done| < 2 ==> remaining == {})
    requires LiveSoFar(live, done, secs, c, net)
    ensures LiveGuidanceFits(live, issues, secs, c, net)
  {
    SubsetNoLarger(live.Keys, done);
    if remaining != {} {
      assert |IssueTypes(issues)| == |done| + |remaining|;
    }
  }

  /** The result of the web `analyze_content`: the offline dictionary plus
      `live_guidance`. */
  datatype WebReport = WebReport(analysis: Analysis, liveGuidance: map<Category, GuidanceItem>)

  /** The result of the web `suggest_improvements`. */
  datatype WebImprovementReport = WebImprovementReport(report: Report, liveGuidance: map<Category, GuidanceItem>)

  /** The `official_url` of each guideline block in the web variant. */
  const WebBlockUrls := BlockUrls(
    CoreSections[0].url,  // voice_tone
    CoreSections[3].url,  // writing_tips
    CoreSections[5].url,  // word_list
    CoreSections[2].url)  // bias_free
}
