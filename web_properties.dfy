/** Properties of the web-enabled analyzer: what its `analyze_content` finds
    compared with the offline one, what a live search returns, how the cache
    makes repeated fetches agree, and which sections a topic consults. */
module WebProperties {
  import opened Wrappers
  import opened TextModel
  import opened Patterns
  import opened Style
  import opened OfflineProperties
  import opened WebSpec

  // ---------------------------------------------------------------------------
  // analyze_content

  /** The four blocks of the web `analyze_content`, each within its ranks. */
  lemma {:induction false} WebBlocksRanked(an: Analyzer, text: string, analysisType: string)
      returns (v: seq<Issue>, g: seq<Issue>, t: seq<Issue>, a: seq<Issue>)
    requires an.Valid()
    ensures WebIssues(an, text, analysisType) == v + g + t + a && v == VoiceIssues(an, text)
    ensures RankedWithin(v, 0, 0) && RankedWithin(g, 1, 1) && RankedWithin(t, 3, 3) && RankedWithin(a, 4, 4)
  {
    v := VoiceIssues(an, text);
    g := Gate(Runs(analysisType, Grammar), FindingIssues(an, PassiveFinding, text));
    t := Gate(Runs(analysisType, Terminology), TermIssues(an.terminologyStandards, text));
    a := Gate(Runs(analysisType, Accessibility), FindingIssues(an, NonInclusiveFinding, text));
    VoiceRanked(an, text);
    FindingIssuesRanked(an, PassiveFinding, text);
    TerminologyRanked(an, text);
    FindingIssuesRanked(an, NonInclusiveFinding, text);
    GateRanked(Runs(analysisType, Grammar), FindingIssues(an, PassiveFinding, text), 1, 1);
    GateRanked(Runs(analysisType, Terminology), TermIssues(an.terminologyStandards, text), 3, 3);
    GateRanked(Runs(analysisType, Accessibility), FindingIssues(an, NonInclusiveFinding, text), 4, 4);
  }

  /** Unlike the offline analyzer, the web one runs the voice check for every
      analysis type: the contraction issue is raised exactly when the text
      has no contraction. */
  lemma {:induction false} WebContractionIssueIff(an: Analyzer, text: string, analysisType: string)
    requires an.Valid()
    ensures ContractionIssue in WebIssues(an, text, analysisType) <==> ContractionCount(an, text) == 0
  {
    var v, g, t, a := WebBlocksRanked(an, text, analysisType);
    GatedAvoids(true, g, 1, 1, 0);
    GatedAvoids(true, t, 3, 3, 0);
    GatedAvoids(true, a, 4, 4, 0);
    ConcatAvoids(g, t, 0);
    ConcatAvoids(g + t, a, 0);
    assert Rank(ContractionIssue) == 0;
    assert ContractionIssue !in g + t + a;
    assert ContractionIssue in v <==> ContractionCount(an, text) == 0;
  }

  /** The web analyzer has no long-sentence check and no gendered-pronoun
      check: its issues are in block order and never of those two kinds. */
  lemma {:induction false} WebIssuesRanked(an: Analyzer, text: string, analysisType: string)
    requires an.Valid()
    ensures RankedWithin(WebIssues(an, text, analysisType), 0, 4)
    ensures Avoids(WebIssues(an, text, analysisType), 2) && Avoids(WebIssues(an, text, analysisType), 5)
  {
    var v, g, t, a := WebBlocksRanked(an, text, analysisType);
    ConcatRanked(v, g, 0, 0, 1);
    ConcatRanked(v + g, t, 0, 1, 3);
    ConcatRanked(v + g + t, a, 0, 3, 4);
    BlocksAvoid(v, g, t, a, 2);
    BlocksAvoid(v, g, t, a, 5);
  }

  lemma {:induction false} BlocksAvoid(v: seq<Issue>, g: seq<Issue>, t: seq<Issue>, a: seq<Issue>, r: nat)
    requires RankedWithin(v, 0, 0) && RankedWithin(g, 1, 1) && RankedWithin(t, 3, 3) && RankedWithin(a, 4, 4)
    requires r == 2 || r == 5
    ensures Avoids(v + g + t + a, r)
  {
    GatedAvoids(true, v, 0, 0, r);
    GatedAvoids(true, g, 1, 1, r);
    GatedAvoids(true, t, 3, 3, r);
    GatedAvoids(true, a, 4, 4, r);
    ConcatAvoids(v, g, r);
    ConcatAvoids(v + g, t, r);
    ConcatAvoids(v + g + t, a, r);
  }

  /** An analysis type that names no block still reports the voice check,
      and nothing else. */
  lemma UnknownTypeOnlyVoice(an: Analyzer, text: string, analysisType: string)
    requires an.Valid() && analysisType != "comprehensive" && forall c: Category :: CategoryName(c) != analysisType
    ensures WebAnalysis(an, text, analysisType).issues == VoiceIssues(an, text)
    ensures |WebAnalysis(an, text, analysisType).issues| <= 1
    ensures WebAnalysis(an, text, analysisType).suggestions == VoiceSuggestions(an, text)
  {
    assert !Runs(analysisType, Grammar) && !Runs(analysisType, Terminology) && !Runs(analysisType, Accessibility);
  }

  /** The web suggestions never advise switching to active voice either. */
  lemma WebNeverAdvisesActiveVoice(an: Analyzer, text: string, focusArea: string)
    requires an.Valid()
    ensures var rs := ImprovementsSpec(WebIssues(an, text, "comprehensive"), focusArea, StatisticsOf(text));
      forall k | 0 <= k < |rs| :: !rs[k].suggestion.ChangeToActiveVoice?
  {
    var v := VoiceIssues(an, text);
    var g := FindingIssues(an, PassiveFinding, text);
    var t := TermIssues(an.terminologyStandards, text);
    var a := FindingIssues(an, NonInclusiveFinding, text);
    assert WebIssues(an, text, "comprehensive") == v + g + t + a;
    FindingIssuesNoActiveVoiceAdvice(an, PassiveFinding, text);
    FindingIssuesNoActiveVoiceAdvice(an, NonInclusiveFinding, text);
    TerminologyNoActiveVoiceAdvice(an, text);
    assert NoActiveVoiceAdvice(v);
    ConcatNoActiveVoiceAdvice(v, g);
    ConcatNoActiveVoiceAdvice(v + g, t);
    ConcatNoActiveVoiceAdvice(v + g + t, a);
    ImprovementsNoActiveVoice(v + g + t + a, focusArea);
  }

  // ---------------------------------------------------------------------------
  // search_style_guide_live

  lemma {:induction false} NoTermsNoHits(secs: seq<Section>, c: Cache, net: Network)
    ensures Hits([], secs, c, net) == []
    decreases |secs|
  {
    if secs != [] {
      NoTermsNoHits(secs[..|secs| - 1], c, net);
    }
  }

  /** A blank query has no terms, so no page scores and nothing is found. */
  lemma BlankQueryFindsNothing(query: string, secs: seq<Section>, c: Cache, net: Network)
    requires IsBlank(query)
    ensures SearchSpec(query, secs, c, net) == SearchReport(query, [], 0)
  {
    assert IsBlank(Lower(query));
    NoTermsNoHits(secs, c, net);
  }

  /** Whitespace in the query separates terms: the terms of two queries
      joined by whitespace are the terms of the first, then of the second. */
  lemma QueryTermsSplit(a: string, c: char, b: string)
    requires IsSpace(c)
    ensures QueryTerms(a + [c] + b) == QueryTerms(a) + QueryTerms(b)
  {
    LowerAppend(a + [c], b);
    LowerAppend(a, [c]);
    assert Lower([c]) == [LowerChar(c)];
    WordsSplit(Lower(a), LowerChar(c), Lower(b));
  }

  /** Every query term is a non-empty lower-case stretch without whitespace,
      and a query has no terms exactly when it is blank. */
  lemma QueryTermsShape(query: string)
    ensures forall k | 0 <= k < |QueryTerms(query)| ::
      var t := QueryTerms(query)[k]; t != [] && NoSpace(t) && IsLowered(t)
    ensures QueryTerms(query) == [] <==> IsBlank(query)
  {
    var l := Lower(query);
    LowerIsLowered(query);
    WordsShape(l);
    WordsLowered(l);
    assert IsBlank(l) == IsBlank(query);
  }

  /** The page of `sec` scores for `terms`: it was fetched and contains at
      least one term. */
  predicate Scores(terms: seq<string>, sec: Section, c: Cache, net: Network) {
    var f := Seen(c, net, sec.url);
    f.Fetched? && Score(terms, Lower(f.fullContent)) > 0
  }

  /** Every hit comes from a section whose page scores, carries that page's
      title and preview, and is "high" exactly when at least half the terms
      (rounded down) occur. */
  lemma {:induction false} HitsSound(terms: seq<string>, secs: seq<Section>, c: Cache, net: Network)
    ensures forall r | r in Hits(terms, secs, c, net) :: exists k | 0 <= k < |secs| ::
      && Scores(terms, secs[k], c, net) && r.section == secs[k].name && r.url == secs[k].url
      && r.title == Seen(c, net, secs[k].url).title && r.contentPreview == Seen(c, net, secs[k].url).content
      && (r.high <==> Score(terms, Lower(Seen(c, net, secs[k].url).fullContent)) >= |terms| / 2)
    decreases |secs|
  {
    if secs != [] {
      var n := |secs| - 1;
      HitsSound(terms, secs[..n], c, net);
      forall r | r in Hits(terms, secs, c, net) ensures exists k | 0 <= k < |secs| ::
        && Scores(terms, secs[k], c, net) && r.section == secs[k].name && r.url == secs[k].url
        && r.title == Seen(c, net, secs[k].url).title && r.contentPreview == Seen(c, net, secs[k].url).content
        && (r.high <==> Score(terms, Lower(Seen(c, net, secs[k].url).fullContent)) >= |terms| / 2)
      {
        if r in Hits(terms, secs[..n], c, net) {
          var k :| 0 <= k < n && Scores(terms, secs[..n][k], c, net) && r.section == secs[..n][k].name && r.url == secs[..n][k].url
            && r.title == Seen(c, net, secs[..n][k].url).title && r.contentPreview == Seen(c, net, secs[..n][k].url).content
            && (r.high <==> Score(terms, Lower(Seen(c, net, secs[..n][k].url).fullContent)) >= |terms| / 2);
          assert secs[..n][k] == secs[k];
        } else {
          assert r in Hit(terms, secs[n], Seen(c, net, secs[n].url));
        }
      }
    }
  }

  /** Every section whose page scores is among the hits. */
  lemma {:induction false} HitsComplete(terms: seq<string>, secs: seq<Section>, c: Cache, net: Network)
    ensures forall k | 0 <= k < |secs| && Scores(terms, secs[k], c, net) ::
      exists r | r in Hits(terms, secs, c, net) :: r.section == secs[k].name && r.url == secs[k].url
    decreases |secs|
  {
    if secs != [] {
      var n := |secs| - 1;
      HitsComplete(terms, secs[..n], c, net);
      forall k | 0 <= k < |secs| && Scores(terms, secs[k], c, net)
        ensures exists r | r in Hits(terms, secs, c, net) :: r.section == secs[k].name && r.url == secs[k].url
      {
        if k < n {
          assert secs[..n][k] == secs[k];
          var r :| r in Hits(terms, secs[..n], c, net) && r.section == secs[k].name && r.url == secs[k].url;
          assert r in Hits(terms, secs, c, net);
        } else {
          var r := Hit(terms, secs[n], Seen(c, net, secs[n].url))[0];
          assert r in Hits(terms, secs, c, net);
        }
      }
    }
  }

  /** The results are at most five of the hits; `total_found` counts every
      hit. */
  lemma SearchResultsBounded(query: string, secs: seq<Section>, c: Cache, net: Network)
    ensures var r := SearchSpec(query, secs, c, net);
      && |r.results| <= MaxResults && |r.results| <= r.totalFound <= |secs|
      && r.totalFound == |Hits(QueryTerms(query), secs, c, net)|
      && multiset(r.results) <= multiset(Hits(QueryTerms(query), secs, c, net))
  {
    var hits := Hits(QueryTerms(query), secs, c, net);
    var sorted := SortResults(hits);
    var r := Take(sorted, MaxResults);
    assert sorted == r + sorted[|r|..];
    assert multiset(sorted) == multiset(r) + multiset(sorted[|r|..]);
  }

  /** The results come "high" ones first and, within the same relevance,
      sections in descending order. */
  lemma SearchResultsOrdered(query: string, secs: seq<Section>, c: Cache, net: Network)
    ensures var r := SearchSpec(query, secs, c, net);
      && (forall i, j | 0 <= i < j < |r.results| :: r.results[j].high ==> r.results[i].high)
      && (forall i, j | 0 <= i < j < |r.results| && r.results[i].high == r.results[j].high ::
            !StrLess(r.results[i].section, r.results[j].section))
  {
    var sorted := SortResults(Hits(QueryTerms(query), secs, c, net));
    var r := Take(sorted, MaxResults);
    forall i, j | 0 <= i < j < |r| ensures !Before(r[j], r[i]) {
      assert r[i] == sorted[i] && r[j] == sorted[j];
    }
  }

  // ---------------------------------------------------------------------------
  // The cache

  /** Hits seen through a refined cache are the same hits. */
  lemma {:induction false} HitsRefines(terms: seq<string>, secs: seq<Section>, c0: Cache, c1: Cache, net: Network)
    requires Refines(c0, c1, net)
    ensures Hits(terms, secs, c1, net) == Hits(terms, secs, c0, net)
    decreases |secs|
  {
    if secs != [] {
      HitsRefines(terms, secs[..|secs| - 1], c0, c1, net);
      RefinesKeepsSeen(c0, c1, net, secs[|secs| - 1].url);
    }
  }

  /** Searching again after a search gives the same report: the pages it
      fetched are answered from the cache. */
  lemma SearchRepeatable(query: string, secs: seq<Section>, c: Cache, net: Network)
    requires WellCached(c)
    ensures SearchSpec(query, secs, CacheAfter(c, net, Urls(secs)), net) == SearchSpec(query, secs, c, net)
  {
    CacheAfterRefines(c, net, Urls(secs));
    HitsRefines(QueryTerms(query), secs, c, CacheAfter(c, net, Urls(secs)), net);
  }

  /** Once every core page is cached, the network is never consulted: any
      two networks give the same search. */
  lemma {:induction false} CachedHitsIgnoreNetwork(terms: seq<string>, secs: seq<Section>, c: Cache, net1: Network, net2: Network)
    requires forall k | 0 <= k < |secs| :: secs[k].url in c
    ensures Hits(terms, secs, c, net1) == Hits(terms, secs, c, net2)
    decreases |secs|
  {
    if secs != [] {
      var n := |secs| - 1;
      assert forall k | 0 <= k < n :: secs[..n][k] == secs[k];
      CachedHitsIgnoreNetwork(terms, secs[..n], c, net1, net2);
    }
  }

  lemma SearchIgnoresNetworkOnceCached(query: string, secs: seq<Section>, c: Cache, net1: Network, net2: Network)
    requires forall k | 0 <= k < |secs| :: secs[k].url in c
    ensures SearchSpec(query, secs, c, net1) == SearchSpec(query, secs, c, net2)
  {
    CachedHitsIgnoreNetwork(QueryTerms(query), secs, c, net1, net2);
  }

  /** After fetching `urls`, each of them is cached unless its fetch
      failed. */
  lemma {:induction false} FetchedAreCached(c: Cache, net: Network, urls: seq<string>, k: nat)
    requires WellCached(c) && k < |urls|
    ensures urls[k] in CacheAfter(c, net, urls) || !FetchOutcome(net, urls[k]).Fetched?
    decreases |urls|
  {
    var n := |urls| - 1;
    var before := CacheAfter(c, net, urls[..n]);
    CacheAfterRefines(c, net, urls[..n]);
    CachedRefines(before, net, urls[n]);
    if k < n {
      FetchedAreCached(c, net, urls[..n], k);
    }
  }

  /** Fetching the same URLs a second time changes nothing. */
  lemma {:induction false} CacheAfterIdempotent(c: Cache, net: Network, urls: seq<string>)
    requires WellCached(c)
    ensures CacheAfter(CacheAfter(c, net, urls), net, urls) == CacheAfter(c, net, urls)
  {
    var c1 := CacheAfter(c, net, urls);
    var m := 0;
    while m < |urls|
      invariant m <= |urls| && CacheAfter(c1, net, urls[..m]) == c1
    {
      FetchedAreCached(c, net, urls, m);
      assert urls[..m + 1][..m] == urls[..m];
      m := m + 1;
    }
    assert urls[..m] == urls;
  }

  // ---------------------------------------------------------------------------
  // get_official_guidance

  /** Every guidance entry is a page that was fetched for one of the selected
      sections, under that section's URL. */
  lemma {:induction false} GuidanceSound(names: seq<string>, secs: seq<Section>, c: Cache, net: Network)
    ensures forall g | g in GuidanceFor(names, secs, c, net) ::
      && g.section in names && SectionUrl(secs, g.section) == Some(g.url)
      && Seen(c, net, g.url).Fetched? && g.content == Seen(c, net, g.url).content
    decreases |names|
  {
    if names != [] {
      var n := |names| - 1;
      GuidanceSound(names[..n], secs, c, net);
      forall g | g in GuidanceFor(names, secs, c, net) ensures g.section in names {
        if g in GuidanceFor(names[..n], secs, c, net) {
          assert g.section in names[..n];
        }
      }
    }
  }

  /** A topic consults at most three sections, and gets at most one entry
      for each. */
  lemma GuidanceBounded(topic: string, secs: seq<Section>, c: Cache, net: Network)
    ensures |SelectedSections(topic, secs)| <= MaxSections
    ensures |GuidanceSpec(topic, secs, c, net)| <= |SelectedSections(topic, secs)|
  {
  }

  /** Of the mapping keys, only "grammar" occurs in "grammar". */
  lemma GrammarKeyOccurs(j: nat)
    requires j < |TopicMappings|
    ensures Contains("grammar", TopicMappings[j].0) <==> j == 6
  {
    var topic := "grammar";
    if j == 0 {
      NotContainsChar(topic, "voice", 0);
    } else if j == 1 {
      NotContainsChar(topic, "tone", 0);
    } else if j == 2 {
      NotContainsChar(topic, "tips", 0);
    } else if j == 3 {
      NotContainsChar(topic, "bias", 0);
    } else if j == 4 {
      NotContainsChar(topic, "inclusive", 0);
    } else if j == 5 {
      NotContainsChar(topic, "writing", 0);
    } else if j == 6 {
      assert OccursAt(topic, "grammar", 0);
    } else if j == 7 {
      NotContainsChar(topic, "words", 0);
    } else {
      NotContainsChar(topic, "terminology", 0);
    }
  }

  /** "grammar" issues are looked up on the writing-tips page only. */
  lemma GrammarTopicSelectsWritingTips()
    ensures SelectedSections("grammar", CoreSections) == ["writing_tips"]
  {
    var topic := "grammar";
    LowerOfLowered(topic);
    forall j | 0 <= j < 9 ensures Contains(topic, TopicMappings[j].0) <==> j == 6 {
      GrammarKeyOccurs(j);
    }
    MatchedPrefixNone(TopicMappings, topic, 6);
    MatchedStep(TopicMappings, 6, topic);
    MatchedStep(TopicMappings, 7, topic);
    MatchedStep(TopicMappings, 8, topic);
    assert TopicMappings[..9] == TopicMappings;
  }

  /** No mapping key occurs in "accessibility": each has a letter, or a pair
      of letters, that the topic lacks. */
  lemma AccessibilityLacksKey(j: nat)
    requires j < |TopicMappings|
    ensures !Contains("accessibility", TopicMappings[j].0)
  {
    var topic := "accessibility";
    if j == 0 {
      NotContainsChar(topic, "voice", 0);
    } else if j == 1 {
      NotContainsChar(topic, "tone", 2);
    } else if j == 2 {
      NotContainsChar(topic, "tips", 2);
    } else if j == 3 {
      NotContainsPair(topic, "bias", 1);
    } else if j == 4 {
      NotContainsChar(topic, "inclusive", 1);
    } else if j == 5 {
      NotContainsChar(topic, "writing", 0);
    } else if j == 6 {
      NotContainsChar(topic, "grammar", 0);
    } else if j == 7 {
      NotContainsChar(topic, "words", 0);
    } else {
      NotContainsChar(topic, "terminology", 2);
    }
  }

  /** "accessibility" issues match no mapping key, so their guidance comes
      from the first three core sections: voice and tone, the top tips and
      bias-free communication. */
  lemma AccessibilityTopicFallsBack()
    ensures SelectedSections("accessibility", CoreSections) == ["voice_tone", "top_tips", "bias_free"]
  {
    var topic := "accessibility";
    LowerOfLowered(topic);
    forall j | 0 <= j < 9 ensures !Contains(topic, TopicMappings[j].0) {
      AccessibilityLacksKey(j);
    }
    MatchedPrefixNone(TopicMappings, topic, 9);
    assert TopicMappings[..9] == TopicMappings;
  }

  /** Of the mapping keys, exactly "voice" and "tone" occur in "voice_tone". */
  lemma VoiceToneKeyOccurs(j: nat)
    requires j < |TopicMappings|
    ensures Contains("voice_tone", TopicMappings[j].0) <==> j < 2
  {
    var topic := "voice_tone";
    if j == 0 {
      assert OccursAt(topic, "voice", 0);
    } else if j == 1 {
      assert OccursAt(topic, "tone", 6);
    } else if j == 2 {
      NotContainsChar(topic, "tips", 2);
    } else if j == 3 {
      NotContainsChar(topic, "bias", 0);
    } else if j == 4 {
      NotContainsChar(topic, "inclusive", 3);
    } else if j == 5 {
      NotContainsChar(topic, "writing", 0);
    } else if j == 6 {
      NotContainsChar(topic, "grammar", 0);
    } else if j == 7 {
      NotContainsChar(topic, "words", 0);
    } else {
      NotContainsChar(topic, "terminology", 2);
    }
  }

  /** "voice_tone" issues select the voice-and-tone section twice, once for
      each key. */
  lemma VoiceToneSelectsTwice()
    ensures SelectedSections("voice_tone", CoreSections) == ["voice_tone", "voice_tone"]
  {
    var topic := "voice_tone";
    LowerOfLowered(topic);
    forall j | 0 <= j < 9 ensures Contains(topic, TopicMappings[j].0) <==> j < 2 {
      VoiceToneKeyOccurs(j);
    }
    assert TopicMappings[..0] == [];
    MatchedStep(TopicMappings, 0, topic);
    MatchedStep(TopicMappings, 1, topic);
    MatchedSuffixNone(TopicMappings, topic, 2);
  }

  /** So their guidance holds that page's entry twice. */
  lemma VoiceToneGuidanceRepeats(c: Cache, net: Network)
    ensures var e := GuidanceEntry("voice_tone", CoreSections, c, net);
      GuidanceSpec("voice_tone", CoreSections, c, net) == e + e
  {
    VoiceToneSelectsTwice();
    var names := ["voice_tone", "voice_tone"];
    GuidanceStep(names, 0, CoreSections, c, net);
    GuidanceStep(names, 1, CoreSections, c, net);
    assert names[..2] == names && names[..0] == [];
  }
}
