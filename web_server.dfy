/** The web-enabled server: `WebEnabledStyleGuideAnalyzer`, whose only
    mutable state is `content_cache`, with each method appending and fetching
    step by step as the source does and proved against the functions of
    `WebSpec`. The network is a parameter of every method that fetches. */
module WebStyleServer {
  import opened Wrappers
  import opened TextModel
  import opened Patterns
  import opened Style
  import opened WebSpec

  class WebStyleGuideAnalyzer {
    /** `self.patterns` and `self.terminology_standards`. */
    const analyzer: Analyzer
    /** `self.core_urls`. */
    const coreUrls: seq<Section>
    /** `self.content_cache`. */
    var contentCache: Cache

    predicate Valid()
      reads this
    {
      analyzer.Valid() && WellCached(contentCache)
    }

    constructor()
      ensures Valid() && analyzer == Builtin && coreUrls == CoreSections && contentCache == map[]
    {
      analyzer := Builtin;
      coreUrls := CoreSections;
      contentCache := map[];
      BuiltinValid();
    }

    /** `fetch_web_content`: a cached URL is answered from the cache; otherwise
        the page is fetched and, only when the status is 200, cached. */
    method FetchWebContent(url: string, net: Network) returns (r: Fetch)
      requires Valid()
      modifies this
      ensures Valid()
      ensures url in old(contentCache) ==> r == old(contentCache)[url] && contentCache == old(contentCache)
      ensures url !in old(contentCache) ==> r == FetchOutcome(net, url)
      ensures url !in old(contentCache) && r.Fetched? ==> contentCache == old(contentCache)[url := r]
      ensures url !in old(contentCache) && r.FetchFailed? ==> contentCache == old(contentCache)
      ensures r == Seen(old(contentCache), net, url) && contentCache == Cached(old(contentCache), net, url)
    {
      if url in contentCache {
        return contentCache[url];
      }
      match net(url)
      case Failure(e) =>
        r := FetchFailed(e, url);
      case Response(status, title, text) =>
        if status == 200 {
          r := Fetched(url, title.GetOr(DefaultTitle), Take(text, PreviewLength), text);
          contentCache := contentCache[url := r];
        } else {
          r := FetchFailed("HTTP " + NatToString(status), url);
        }
    }

    /** `search_style_guide_live`: every core page is fetched in turn, the
        pages containing a query term are collected, then sorted and cut to
        five. */
    method SearchStyleGuideLive(query: string, net: Network) returns (r: SearchReport)
      requires Valid()
      modifies this
      ensures Valid()
      ensures r == SearchSpec(query, coreUrls, old(contentCache), net)
      ensures contentCache == CacheAfter(old(contentCache), net, Urls(coreUrls))
    {
      ghost var c0 := contentCache;
      var terms := QueryTerms(query);
      var results: seq<SearchResult> := [];
      var i := 0;
      while i < |coreUrls|
        invariant 0 <= i <= |coreUrls|
        invariant Valid()
        invariant contentCache == CacheAfter(c0, net, Urls(coreUrls[..i]))
        invariant results == Hits(terms, coreUrls[..i], c0, net)
      {
        var sec := coreUrls[i];
        CacheAfterRefines(c0, net, Urls(coreUrls[..i]));
        RefinesKeepsSeen(c0, contentCache, net, sec.url);
        CacheAfterStep(c0, net, coreUrls, i);
        HitsStep(terms, coreUrls, i, c0, net);
        ghost var before := results;
        var f := FetchWebContent(sec.url, net);
        assert f == Seen(c0, net, sec.url);
        if f.Fetched? {
          var score := Score(terms, Lower(f.fullContent));
          if score > 0 {
            results := results + [SearchResult(sec.name, f.title, sec.url, score >= |terms| / 2, f.content)];
          }
        }
        assert results == before + Hit(terms, sec, f);
        i := i + 1;
      }
      assert coreUrls[..i] == coreUrls;
      var sorted := SortResults(results);
      r := SearchReport(query, Take(sorted, MaxResults), |results|);
    }

    /** `get_official_guidance`: the mapping keys found in the lowercased
        topic select sections (all core sections when none is found), and the
        first three of them are fetched. */
    method GetOfficialGuidance(topic: string, net: Network) returns (r: GuidanceReport)
      requires Valid()
      modifies this
      ensures Valid()
      ensures r == GuidanceReport(topic, GuidanceSpec(topic, coreUrls, old(contentCache), net))
      ensures contentCache == CacheAfter(old(contentCache), net, SelectedUrls(SelectedSections(topic, coreUrls), coreUrls))
    {
      ghost var c0 := contentCache;
      var relevant := RelevantSectionsOf(Lower(topic));
      var selected := Take(relevant, MaxSections);
      assert selected == SelectedSections(topic, coreUrls);
      assert selected[..0] == [];
      var guidance: seq<GuidanceItem> := [];
      var j := 0;
      while j < |selected|
        invariant 0 <= j <= |selected|
        invariant Valid()
        invariant contentCache == CacheAfter(c0, net, SelectedUrls(selected[..j], coreUrls))
        invariant guidance == GuidanceFor(selected[..j], coreUrls, c0, net)
      {
        GuidanceLoopStep(selected, j, coreUrls, c0, net);
        CacheAfterRefines(c0, net, SelectedUrls(selected[..j], coreUrls));
        var entry := GuidanceEntryOf(selected[j], net, c0);
        guidance := guidance + entry;
        j := j + 1;
      }
      assert selected[..j] == selected;
      r := GuidanceReport(topic, guidance);
    }

    /** The body of the loop of `get_official_guidance`: the section's URL,
        if it has one, is fetched, and a page that was fetched becomes the
        section's guidance entry. The entry is the one the first cache `c0`
        gives, since the cache only ever gains what the network gives. */
    method GuidanceEntryOf(section: string, net: Network, ghost c0: Cache) returns (entry: seq<GuidanceItem>)
      requires Valid() && Refines(c0, contentCache, net)
      modifies this
      ensures Valid()
      ensures entry == GuidanceEntry(section, coreUrls, c0, net)
      ensures contentCache == match SectionUrl(coreUrls, section)
        case None => old(contentCache)
        case Some(u) => Cached(old(contentCache), net, u)
    {
      var url := SectionUrl(coreUrls, section);
      entry := [];
      if url.Some? {
        RefinesKeepsSeen(c0, contentCache, net, url.value);
        var f := FetchWebContent(url.value, net);
        if f.Fetched? {
          entry := [GuidanceItem(section, f.title, url.value, f.content)];
        }
      }
    }

    /** The first half of `get_official_guidance`: the sections of the
        mapping keys found in `topicLower`, in mapping order, or every core
        section when none is found. */
    method RelevantSectionsOf(topicLower: string) returns (relevant: seq<string>)
      ensures relevant == RelevantSections(topicLower, coreUrls)
    {
      relevant := [];
      var i := 0;
      while i < |TopicMappings|
        invariant 0 <= i <= |TopicMappings|
        invariant relevant == Matched(TopicMappings[..i], topicLower)
      {
        var mapping := TopicMappings[i];
        MatchedStep(TopicMappings, i, topicLower);
        if Contains(topicLower, mapping.0) {
          relevant := relevant + [mapping.1];
        }
        i := i + 1;
      }
      assert TopicMappings[..i] == TopicMappings;
      if relevant == [] {
        relevant := Names(coreUrls);
      }
    }

    /** `live_guidance` of `analyze_content`: with at least one issue, the
        first two issue types of `list(set(...))`, in an order the model
        leaves open, are looked up, and each keeps the first guidance entry
        found for it. */
    method LiveGuidance(issues: seq<Issue>, net: Network) returns (live: map<Category, GuidanceItem>)
      requires Valid()
      modifies this
      ensures Valid()
      ensures LiveGuidanceFits(live, issues, coreUrls, old(contentCache), net)
      ensures Refines(old(contentCache), contentCache, net)
    {
      ghost var c0 := contentCache;
      live := map[];
      if issues == [] {
        return;
      }
      var types := IssueTypes(issues);
      var remaining := types;
      ghost var done: set<Category> := {};
      var taken := 0;
      while taken < 2 && remaining != {}
        invariant Valid()
        invariant done + remaining == types && done !! remaining
        invariant |done| == taken <= 2
        invariant Refines(c0, contentCache, net)
        invariant LiveSoFar(live, done, coreUrls, c0, net)
        decreases remaining
      {
        var t :| t in remaining;
        VisitOne(done, remaining, t);
        ghost var before := contentCache;
        var g := GuidanceForType(t, net);
        RefinesTransitive(c0, before, contentCache, net);
        GuidanceForRefines(SelectedSections(CategoryName(t), coreUrls), coreUrls, c0, before, net);
        LiveStep(live, done, t, g.guidance, coreUrls, c0, net);
        if g.guidance != [] {
          live := live[t := g.guidance[0]];
        }
        remaining := remaining - {t};
        done := done + {t};
        taken := taken + 1;
      }
      LiveGuidanceLoopFits(live, issues, coreUrls, c0, net, done, remaining);
    }

    /** `get_official_guidance(issue_type)` as `analyze_content` calls it. */
    method GuidanceForType(t: Category, net: Network) returns (g: GuidanceReport)
      requires Valid()
      modifies this
      ensures Valid()
      ensures g.guidance == TypeGuidance(t, coreUrls, old(contentCache), net)
      ensures Refines(old(contentCache), contentCache, net)
    {
      ghost var c0 := contentCache;
      g := GetOfficialGuidance(CategoryName(t), net);
      CacheAfterRefines(c0, net, SelectedUrls(SelectedSections(CategoryName(t), coreUrls), coreUrls));
    }

    /** `analyze_content`: the voice checks always run, then passive voice,
        terminology and non-inclusive terms as `analysisType` selects, then
        the live guidance for the issue types found. */
    method AnalyzeContent(text: string, analysisType: string, net: Network) returns (r: WebReport)
      requires Valid()
      modifies this
      ensures Valid()
      ensures r.analysis == WebAnalysis(analyzer, text, analysisType)
      ensures LiveGuidanceFits(r.liveGuidance, r.analysis.issues, coreUrls, old(contentCache), net)
      ensures Refines(old(contentCache), contentCache, net)
    {
      var issues := VoiceIssues(analyzer, text);
      var suggestions := VoiceSuggestions(analyzer, text);
      if Runs(analysisType, Grammar) {
        issues := AppendFindings(issues, analyzer, PassiveFinding, text);
      }
      ghost var g := issues;
      assert g == VoiceIssues(analyzer, text) + Gate(Runs(analysisType, Grammar), FindingIssues(analyzer, PassiveFinding, text));
      if Runs(analysisType, Terminology) {
        issues := AppendTerminology(issues, analyzer.terminologyStandards, text);
      }
      ghost var t := issues;
      assert t == g + Gate(Runs(analysisType, Terminology), TermIssues(analyzer.terminologyStandards, text));
      if Runs(analysisType, Accessibility) {
        issues := AppendFindings(issues, analyzer, NonInclusiveFinding, text);
      }
      assert issues == t + Gate(Runs(analysisType, Accessibility), FindingIssues(analyzer, NonInclusiveFinding, text));
      WebIssuesByBlock(analyzer, text, analysisType, g, t, issues);
      var live := LiveGuidance(issues, net);
      r := WebReport(Assemble(text, analysisType, issues, suggestions), live);
    }

    /** `suggest_improvements`: a comprehensive analysis, the selected issues'
        improvements and the average-length item, and the analysis's live
        guidance passed through. */
    method SuggestImprovements(text: string, focusArea: string, net: Network) returns (r: WebImprovementReport)
      requires Valid()
      modifies this
      ensures Valid()
      ensures r.report.textPreview == TextPreview(text) && r.report.focusArea == focusArea
      ensures r.report.improvements == ImprovementsSpec(WebIssues(analyzer, text, "comprehensive"), focusArea, StatisticsOf(text))
      ensures r.report.totalImprovements == |r.report.improvements|
      ensures r.report.styleGuideUrl == StyleGuideBaseUrl + "/top-10-tips-style-voice"
      ensures LiveGuidanceFits(r.liveGuidance, WebIssues(analyzer, text, "comprehensive"), coreUrls, old(contentCache), net)
      ensures Refines(old(contentCache), contentCache, net)
    {
      var analysis := AnalyzeContent(text, "comprehensive", net);
      var improvements := CollectImprovements(analysis.analysis.issues, focusArea, analysis.analysis.statistics);
      var report := Report(TextPreview(text), |improvements|, improvements, focusArea, StyleGuideBaseUrl + "/top-10-tips-style-voice");
      r := WebImprovementReport(report, analysis.liveGuidance);
    }

    /** `get_style_guidelines`: the offline blocks, each with the official
        URL of its core page, and `web_enabled` set. */
    method GetStyleGuidelines(category: string) returns (g: Guidelines)
      ensures g.category == category && g.baseUrl == StyleGuideBaseUrl && g.webEnabled
      ensures forall key :: key in Keys(g.principles) <==> Requested(category, key)
      ensures forall k | 0 <= k < |g.principles| :: EntryFits(g.principles[k], Some(WebBlockUrls))
      ensures forall i, j | 0 <= i < j < |g.principles| :: EntryOrder(g.principles[i].key) < EntryOrder(g.principles[j].key)
    {
      g := Style.GetStyleGuidelines(category, Some(WebBlockUrls));
    }
  }
}
