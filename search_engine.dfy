/**
 * The deterministic part of `VCSearchEngine` (search_engine.py): the
 * order-preserving de-duplication of hits, the fixed list of search queries,
 * the keyword relevance test for feed entries, the "mentions India twice"
 * filter for global hits and the search statistics. The search API, the
 * feeds, the clock and the string-similarity measure are not modelled; the
 * similarity is a parameter.
 */
module SearchEngine {
  import opened Text
  import opened Sequences

  /** A processed search hit, with the fields the de-duplication reads. */
  datatype SearchResult = SearchResult(title: string, url: string, content: string, source: string, searchQuery: string)

  /**
   * `difflib.SequenceMatcher(None, a, b).ratio()`, left abstract. Nothing is
   * assumed of it except, where stated, that a string is fully similar to itself.
   */
  type Similarity = (string, string) -> real

  const Tier1Vcs: seq<string> := [
    "Peak XV Partners", "Sequoia Capital India", "Accel India", "Matrix Partners India",
    "Elevation Capital", "Lightspeed India", "Blume Ventures"
  ]

  const PrioritySectors: seq<string> := ["Consumer", "D2C", "SaaS", "Fintech", "AI SaaS", "Agentic AI"]

  /** VC blog feeds, as (firm, feed address). */
  const VcRssFeeds: seq<(string, string)> := [
    ("Blume Ventures", "https://blume.vc/feed"),
    ("Accel", "https://www.accel.com/noteworthy/feed"),
    ("Matrix Partners", "https://medium.com/feed/@matrixpartnersindia"),
    ("Lightspeed", "https://medium.com/feed/@lightspeedindiapartners")
  ]

  const PriorityDomains: seq<string> := [
    "techcrunch.com", "inc42.com", "entrackr.com", "yourstory.com",
    "economictimes.indiatimes.com", "business-standard.com",
    "livemint.com", "moneycontrol.com", "blume.vc", "accel.com",
    "peakxv.com", "matrixpartners.in", "elevationcarital.com"
  ]

  /** Keywords that make a feed entry relevant. */
  const SectorKeywords: seq<string> := [
    "consumer", "d2c", "saas", "fintech", "ai", "artificial intelligence",
    "investment thesis", "funding", "venture capital", "startup",
    "portfolio", "market analysis", "trends"
  ]

  /** The number of search queries the Tavily pass uses per run. */
  const TavilyQueryLimit: nat := 10

  // ---------------------------------------------------------------------
  // De-duplication
  // ---------------------------------------------------------------------

  /** The title as compared: lower-cased and stripped. */
  function NormTitle(title: string): string {
    Strip(ToLower(title))
  }

  /** Some already-kept title is more than 0.8 similar to `title`. */
  predicate TitleClash(title: string, seenTitles: set<string>, sim: Similarity) {
    exists seen | seen in seenTitles :: sim(title, seen) > 0.8
  }

  function Urls(rs: seq<SearchResult>): set<string> {
    set r | r in rs :: r.url
  }

  function Titles(rs: seq<SearchResult>): set<string> {
    set r | r in rs :: NormTitle(r.title)
  }

  /** `r` gets past both checks, given the results kept so far. */
  predicate Admits(kept: seq<SearchResult>, r: SearchResult, sim: Similarity) {
    r.url !in Urls(kept) && !TitleClash(NormTitle(r.title), Titles(kept), sim)
  }

  /** The results the de-duplication keeps, defined on prefixes of its input. */
  function Dedup(rs: seq<SearchResult>, sim: Similarity): seq<SearchResult>
    decreases |rs|
  {
    if rs == [] then []
    else
      var kept := Dedup(rs[..|rs| - 1], sim);
      if Admits(kept, rs[|rs| - 1], sim) then kept + [rs[|rs| - 1]] else kept
  }

  lemma UrlsAppend(rs: seq<SearchResult>, r: SearchResult)
    ensures Urls(rs + [r]) == Urls(rs) + {r.url}
  {
    forall u | u in Urls(rs + [r]) ensures u in Urls(rs) + {r.url} {
      var x :| x in rs + [r] && x.url == u;
    }
    forall u | u in Urls(rs) + {r.url} ensures u in Urls(rs + [r]) {
      if u != r.url {
        var x :| x in rs && x.url == u;
        assert x in rs + [r];
      } else {
        assert r in rs + [r];
      }
    }
  }

  lemma TitlesAppend(rs: seq<SearchResult>, r: SearchResult)
    ensures Titles(rs + [r]) == Titles(rs) + {NormTitle(r.title)}
  {
    forall t | t in Titles(rs + [r]) ensures t in Titles(rs) + {NormTitle(r.title)} {
      var x :| x in rs + [r] && NormTitle(x.title) == t;
    }
    forall t | t in Titles(rs) + {NormTitle(r.title)} ensures t in Titles(rs + [r]) {
      if t != NormTitle(r.title) {
        var x :| x in rs && NormTitle(x.title) == t;
        assert x in rs + [r];
      } else {
        assert r in rs + [r];
      }
    }
  }

  /** `_deduplicate_results`: the loop with its seen-URL and seen-title sets. */
  method DeduplicateResults(results: seq<SearchResult>, sim: Similarity) returns (unique: seq<SearchResult>)
    ensures unique == Dedup(results, sim)
  {
    unique := [];
    var seenUrls: set<string> := {};
    var seenTitles: set<string> := {};
    for i := 0 to |results|
      invariant unique == Dedup(results[..i], sim)
      invariant seenUrls == Urls(unique)
      invariant seenTitles == Titles(unique)
    {
      assert results[..i + 1][..i] == results[..i];
      var result := results[i];
      var url := result.url;
      var title := NormTitle(result.title);
      if url in seenUrls {
        continue;
      }
      if exists seen | seen in seenTitles :: sim(title, seen) > 0.8 {
        continue;
      }
      UrlsAppend(unique, result);
      TitlesAppend(unique, result);
      seenUrls := seenUrls + {url};
      seenTitles := seenTitles + {title};
      unique := unique + [result];
    }
    assert results[..|results|] == results;
  }

  /** The output is the input with some results deleted, order kept. */
  lemma {:induction false} DedupIsSubsequence(rs: seq<SearchResult>, sim: Similarity)
    ensures IsSubsequence(Dedup(rs, sim), rs)
    decreases |rs|
  {
    if rs != [] {
      var init, last := rs[..|rs| - 1], rs[|rs| - 1];
      DedupIsSubsequence(init, sim);
      assert init + [last] == rs;
      if Admits(Dedup(init, sim), last, sim) {
        SubsequenceBoth(Dedup(init, sim), init, last);
      } else {
        SubsequenceExtend(Dedup(init, sim), init, last);
      }
    }
  }

  /**
   * Pairwise, the kept results have different URLs, and no kept title is more
   * than 0.8 similar to the title of a result kept before it.
   */
  predicate NoDuplicates(kept: seq<SearchResult>, sim: Similarity) {
    forall i, j :: 0 <= i < j < |kept| ==>
      kept[i].url != kept[j].url && !(sim(NormTitle(kept[j].title), NormTitle(kept[i].title)) > 0.8)
  }

  /** `kept` can be extended by `r` without breaking `NoDuplicates` exactly when `r` is admitted. */
  lemma AdmitsExtends(kept: seq<SearchResult>, r: SearchResult, sim: Similarity)
    requires NoDuplicates(kept, sim)
    ensures NoDuplicates(kept + [r], sim) <==> Admits(kept, r, sim)
  {
    var k := kept + [r];
    if Admits(kept, r, sim) {
      forall i, j | 0 <= i < j < |k|
        ensures k[i].url != k[j].url && !(sim(NormTitle(k[j].title), NormTitle(k[i].title)) > 0.8)
      {
        if j == |kept| {
          assert k[i] in kept;
          assert k[i].url in Urls(kept);
          assert NormTitle(k[i].title) in Titles(kept);
        }
      }
    } else if r.url in Urls(kept) {
      var x :| x in kept && x.url == r.url;
      var i :| 0 <= i < |kept| && kept[i] == x;
      assert k[i].url == k[|kept|].url;
    } else {
      var seen :| seen in Titles(kept) && sim(NormTitle(r.title), seen) > 0.8;
      var x :| x in kept && NormTitle(x.title) == seen;
      var i :| 0 <= i < |kept| && kept[i] == x;
      assert sim(NormTitle(k[|kept|].title), NormTitle(k[i].title)) > 0.8;
    }
  }

  /** No two kept results share a URL, and no kept title is too close to an earlier kept one. */
  lemma {:induction false} DedupNoDuplicates(rs: seq<SearchResult>, sim: Similarity)
    ensures NoDuplicates(Dedup(rs, sim), sim)
    decreases |rs|
  {
    if rs != [] {
      var init, last := rs[..|rs| - 1], rs[|rs| - 1];
      DedupNoDuplicates(init, sim);
      AdmitsExtends(Dedup(init, sim), last, sim);
    }
  }

  /** The results kept from a prefix are a prefix of the results kept from the whole. */
  lemma {:induction false} DedupPrefix(rs: seq<SearchResult>, n: nat, sim: Similarity)
    requires n <= |rs|
    ensures Dedup(rs[..n], sim) <= Dedup(rs, sim)
    decreases |rs|
  {
    if n < |rs| {
      var init := rs[..|rs| - 1];
      DedupPrefix(init, n, sim);
      assert init[..n] == rs[..n];
    } else {
      assert rs[..n] == rs;
    }
  }

  /** A result admitted by what was kept before it is kept. */
  lemma AdmittedIsKept(rs: seq<SearchResult>, k: nat, sim: Similarity)
    requires k < |rs|
    ensures Admits(Dedup(rs[..k], sim), rs[k], sim) ==> rs[k] in Dedup(rs, sim)
  {
    var upto := rs[..k + 1];
    assert upto[..|upto| - 1] == rs[..k];
    assert upto[|upto| - 1] == rs[k];
    DedupPrefix(rs, k + 1, sim);
  }

  /** A result that is not admitted is blocked by one of the kept results. */
  lemma BlockedByKept(kept: seq<SearchResult>, r: SearchResult, sim: Similarity)
    requires !Admits(kept, r, sim)
    ensures exists y :: y in kept && (y.url == r.url || sim(NormTitle(r.title), NormTitle(y.title)) > 0.8)
  {
    if r.url in Urls(kept) {
      var y :| y in kept && y.url == r.url;
    } else {
      var seen :| seen in Titles(kept) && sim(NormTitle(r.title), seen) > 0.8;
      var y :| y in kept && NormTitle(y.title) == seen;
    }
  }

  /**
   * Every dropped result is blocked by a kept one: an earlier kept result has
   * its URL, or has a title it is more than 0.8 similar to.
   */
  lemma DroppedIsBlocked(rs: seq<SearchResult>, k: nat, sim: Similarity)
    requires k < |rs| && rs[k] !in Dedup(rs, sim)
    ensures exists y :: y in Dedup(rs, sim) &&
              (y.url == rs[k].url || sim(NormTitle(rs[k].title), NormTitle(y.title)) > 0.8)
  {
    var before := Dedup(rs[..k], sim);
    AdmittedIsKept(rs, k, sim);
    DedupPrefix(rs, k, sim);
    BlockedByKept(before, rs[k], sim);
    var y :| y in before && (y.url == rs[k].url || sim(NormTitle(rs[k].title), NormTitle(y.title)) > 0.8);
    assert y in Dedup(rs, sim);
  }

  /**
   * A result whose normalised title equals the title of an already-kept result
   * is dropped, provided that title is fully similar to itself.
   */
  lemma EqualTitleDropped(rs: seq<SearchResult>, r: SearchResult, sim: Similarity)
    requires exists y :: y in Dedup(rs, sim) && NormTitle(y.title) == NormTitle(r.title)
    requires sim(NormTitle(r.title), NormTitle(r.title)) == 1.0
    ensures Dedup(rs + [r], sim) == Dedup(rs, sim)
  {
    var y :| y in Dedup(rs, sim) && NormTitle(y.title) == NormTitle(r.title);
    assert NormTitle(r.title) in Titles(Dedup(rs, sim));
    assert (rs + [r])[..|rs|] == rs;
  }

  lemma NoDuplicatesDropLast(rs: seq<SearchResult>, sim: Similarity)
    requires rs != [] && NoDuplicates(rs, sim)
    ensures NoDuplicates(rs[..|rs| - 1], sim)
  {
    var init := rs[..|rs| - 1];
    forall i, j | 0 <= i < j < |init|
      ensures init[i].url != init[j].url && !(sim(NormTitle(init[j].title), NormTitle(init[i].title)) > 0.8)
    {
      assert init[i] == rs[i] && init[j] == rs[j];
    }
  }

  /** In a duplicate-free list the last result is admitted by the ones before it. */
  lemma LastAdmitted(rs: seq<SearchResult>, sim: Similarity)
    requires rs != [] && NoDuplicates(rs, sim)
    ensures Admits(rs[..|rs| - 1], rs[|rs| - 1], sim)
  {
    var init, last := rs[..|rs| - 1], rs[|rs| - 1];
    NoDuplicatesDropLast(rs, sim);
    assert init + [last] == rs;
    AdmitsExtends(init, last, sim);
  }

  /** A list that is already free of duplicates passes through unchanged. */
  lemma {:induction false} DedupKeepsDuplicateFree(rs: seq<SearchResult>, sim: Similarity)
    requires NoDuplicates(rs, sim)
    ensures Dedup(rs, sim) == rs
    decreases |rs|
  {
    if rs != [] {
      var init, last := rs[..|rs| - 1], rs[|rs| - 1];
      NoDuplicatesDropLast(rs, sim);
      DedupKeepsDuplicateFree(init, sim);
      LastAdmitted(rs, sim);
      assert Dedup(rs, sim) == init + [last];
      assert init + [last] == rs;
    }
  }

  /** Running the de-duplication on its own output changes nothing. */
  lemma DedupIdempotent(rs: seq<SearchResult>, sim: Similarity)
    ensures Dedup(Dedup(rs, sim), sim) == Dedup(rs, sim)
  {
    DedupNoDuplicates(rs, sim);
    DedupKeepsDuplicateFree(Dedup(rs, sim), sim);
  }

  /** One more input result: kept or dropped by the results kept before it. */
  lemma DedupStep(rs: seq<SearchResult>, r: SearchResult, sim: Similarity)
    ensures Dedup(rs + [r], sim) ==
            if Admits(Dedup(rs, sim), r, sim) then Dedup(rs, sim) + [r] else Dedup(rs, sim)
  {
    assert (rs + [r])[..|rs|] == rs;
  }

  /**
   * Only kept results enter the seen sets: when `dropped` is refused for its
   * title alone, a later result with the same URL is still kept if nothing
   * else blocks it.
   */
  lemma TitleDropDoesNotBlockUrl(rs: seq<SearchResult>, dropped: SearchResult, later: SearchResult, sim: Similarity)
    requires dropped.url !in Urls(Dedup(rs, sim))
    requires TitleClash(NormTitle(dropped.title), Titles(Dedup(rs, sim)), sim)
    requires later.url == dropped.url
    requires !TitleClash(NormTitle(later.title), Titles(Dedup(rs, sim)), sim)
    ensures dropped !in Dedup(rs + [dropped, later], sim)
    ensures Dedup(rs + [dropped, later], sim) == Dedup(rs, sim) + [later]
  {
    DedupStep(rs, dropped, sim);
    DedupStep(rs + [dropped], later, sim);
    assert rs + [dropped] + [later] == rs + [dropped, later];
    assert forall x :: x in Dedup(rs, sim) ==> x.url in Urls(Dedup(rs, sim));
  }

  // ---------------------------------------------------------------------
  // Search queries
  // ---------------------------------------------------------------------

  /** The three queries for one VC firm. */
  function VcQueries(vc: string): (r: seq<string>)
    ensures |r| == 3
  {
    [vc + " investment thesis India 2024 2025",
     vc + " portfolio strategy India market",
     vc + " India fund investment focus areas"]
  }

  /** The three queries for one sector. */
  function SectorQueries(sector: string): (r: seq<string>)
    ensures |r| == 3
  {
    ["India " + sector + " startup funding trends 2024",
     sector + " venture capital investment India thesis",
     "Indian " + sector + " market analysis investment opportunities"]
  }

  const ThoughtLeadershipQueries: seq<string> := [
    "India startup ecosystem investment outlook 2025",
    "Indian venture capital market trends analysis",
    "India unicorn valuation funding landscape",
    "Indian startup regulatory changes impact investment",
    "India vs China startup investment comparison"
  ]

  /** The queries of each item, one item after another. */
  function Expand(items: seq<string>, queries: string -> seq<string>): seq<string>
    decreases |items|
  {
    if items == [] then [] else Expand(items[..|items| - 1], queries) + queries(items[|items| - 1])
  }

  lemma ExpandNext(items: seq<string>, queries: string -> seq<string>, i: nat)
    requires i < |items|
    ensures Expand(items[..i + 1], queries) == Expand(items[..i], queries) + queries(items[i])
  {
    assert items[..i + 1][..i] == items[..i];
  }

  /** The query list: VC queries, then sector queries, then the fixed ones. */
  function SearchQueries(): seq<string> {
    Expand(Tier1Vcs, VcQueries) + Expand(PrioritySectors, SectorQueries) + ThoughtLeadershipQueries
  }

  /** `_generate_search_queries`, extending the list item by item. */
  method GenerateSearchQueries() returns (queries: seq<string>)
    ensures queries == SearchQueries()
  {
    queries := [];
    for i := 0 to |Tier1Vcs|
      invariant queries == Expand(Tier1Vcs[..i], VcQueries)
    {
      ExpandNext(Tier1Vcs, VcQueries, i);
      queries := queries + VcQueries(Tier1Vcs[i]);
    }
    assert Tier1Vcs[..|Tier1Vcs|] == Tier1Vcs;
    ghost var vcPart := queries;
    for j := 0 to |PrioritySectors|
      invariant queries == vcPart + Expand(PrioritySectors[..j], SectorQueries)
    {
      ExpandNext(PrioritySectors, SectorQueries, j);
      queries := queries + SectorQueries(PrioritySectors[j]);
    }
    assert PrioritySectors[..|PrioritySectors|] == PrioritySectors;
    queries := queries + ThoughtLeadershipQueries;
  }

  /** Three queries per item, the item's `k`-th query at position `3v + k`. */
  lemma {:induction false} ExpandIndex(items: seq<string>, queries: string -> seq<string>, v: nat, k: nat)
    requires forall x :: |queries(x)| == 3
    requires v < |items| && k < 3
    ensures |Expand(items, queries)| == 3 * |items|
    ensures Expand(items, queries)[3 * v + k] == queries(items[v])[k]
    decreases |items|
  {
    var init := items[..|items| - 1];
    if v < |init| {
      ExpandIndex(init, queries, v, k);
      assert init[v] == items[v];
    } else {
      if init != [] {
        ExpandIndex(init, queries, 0, 0);
      }
    }
  }

  /** Query `3v + k` is the `k`-th query of VC `v`. */
  lemma VcQueryAt(v: nat, k: nat)
    requires v < |Tier1Vcs| && k < 3
    ensures |SearchQueries()| == 44
    ensures SearchQueries()[3 * v + k] == VcQueries(Tier1Vcs[v])[k]
  {
    ExpandIndex(Tier1Vcs, VcQueries, v, k);
    ExpandIndex(PrioritySectors, SectorQueries, 0, 0);
  }

  /** Query `21 + 3s + k` is the `k`-th query of sector `s`. */
  lemma SectorQueryAt(s: nat, k: nat)
    requires s < |PrioritySectors| && k < 3
    ensures |SearchQueries()| == 44
    ensures SearchQueries()[21 + 3 * s + k] == SectorQueries(PrioritySectors[s])[k]
  {
    ExpandIndex(Tier1Vcs, VcQueries, 0, 0);
    ExpandIndex(PrioritySectors, SectorQueries, s, k);
  }

  /** The last five queries are the fixed thought-leadership ones. */
  lemma FixedQueriesLast()
    ensures |SearchQueries()| == 44
    ensures SearchQueries()[39..] == ThoughtLeadershipQueries
  {
    ExpandIndex(Tier1Vcs, VcQueries, 0, 0);
    ExpandIndex(PrioritySectors, SectorQueries, 0, 0);
  }

  /**
   * The Tavily pass searches only the first ten queries: the three queries of
   * each of the first three VCs and the first query of the fourth.
   */
  lemma TavilyQueriesAreVcQueries()
    ensures SearchQueries()[..TavilyQueryLimit] ==
            VcQueries(Tier1Vcs[0]) + VcQueries(Tier1Vcs[1]) + VcQueries(Tier1Vcs[2]) + [VcQueries(Tier1Vcs[3])[0]]
  {
    var q := SearchQueries()[..TavilyQueryLimit];
    var e := VcQueries(Tier1Vcs[0]) + VcQueries(Tier1Vcs[1]) + VcQueries(Tier1Vcs[2]) + [VcQueries(Tier1Vcs[3])[0]];
    forall n | 0 <= n < TavilyQueryLimit ensures q[n] == e[n] {
      VcQueryAt(n / 3, n % 3);
    }
  }

  // ---------------------------------------------------------------------
  // Filters and statistics
  // ---------------------------------------------------------------------

  /** `_is_relevant_content`: some keyword occurs in the lower-cased text. */
  predicate IsRelevantContent(content: string) {
    ContainsAny(ToLower(content), SectorKeywords)
  }

  /** Relevance ignores letter case. */
  lemma RelevanceIgnoresCase(content: string)
    ensures IsRelevantContent(ToLower(content)) <==> IsRelevantContent(content)
  {
    ToLowerIdempotent(content);
  }

  /** Relevant text stays relevant inside any longer text, such as the entry's title and summary. */
  lemma RelevanceInContext(a: string, content: string, b: string)
    requires IsRelevantContent(content)
    ensures IsRelevantContent(a + content + b)
  {
    ToLowerAppend(a + content, b);
    ToLowerAppend(a, content);
    ContainsAnyInContext(ToLower(a), ToLower(content), ToLower(b), SectorKeywords);
  }

  /** The text the global filter counts in: title and content, lower-cased. */
  function GlobalText(title: string, content: string): string {
    ToLower(title + " " + content)
  }

  /** The global-search filter: "india" counted at least twice, without overlaps. */
  predicate KeepGlobal(title: string, content: string) {
    CountOccurrences(GlobalText(title, content), "india") >= 2
  }

  /** A global hit is kept exactly when its text has two non-overlapping occurrences of "india". */
  lemma KeepGlobalIffTwoMentions(title: string, content: string)
    ensures KeepGlobal(title, content) <==>
            exists i, j | 0 <= i <= |GlobalText(title, content)| && 0 <= j <= |GlobalText(title, content)| ::
              OccursAt(GlobalText(title, content), "india", i) &&
              OccursAt(GlobalText(title, content), "india", j) && i + 5 <= j
  {
    var s := GlobalText(title, content);
    if KeepGlobal(title, content) {
      var i, j := CountTwoHasDisjointMatches(s, "india");
    }
    if exists i, j | 0 <= i <= |s| && 0 <= j <= |s| :: OccursAt(s, "india", i) && OccursAt(s, "india", j) && i + 5 <= j {
      var i, j :| 0 <= i <= |s| && 0 <= j <= |s| && OccursAt(s, "india", i) && OccursAt(s, "india", j) && i + 5 <= j;
      DisjointMatchesCountTwo(s, "india", i, j);
    }
  }

  datatype SearchStats = SearchStats(totalQueries: nat, activeRssFeeds: nat, priorityDomains: nat, targetVcs: nat)

  /** `get_search_stats`. */
  function GetSearchStats(): (r: SearchStats)
    ensures r.totalQueries == |Tier1Vcs| * 3 + |PrioritySectors| * 3 + |ThoughtLeadershipQueries|
  {
    FixedQueriesLast();
    SearchStats(|SearchQueries()|, |VcRssFeeds|, |PriorityDomains|, |Tier1Vcs|)
  }

  lemma SearchStatsValues()
    ensures GetSearchStats() == SearchStats(44, 4, 13, 7)
  {
  }
}
