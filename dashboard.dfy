/**
 * The pure pieces of the dashboard's two-stage discovery run (streamlit_app.py):
 * turning raw search hits into records (with the host taken from the URL),
 * the URL-only de-duplication, the clean-up of the model's reply, the keyword
 * fallback score and the accept/priority rule of stage 2. The search API and
 * the language model are inputs; Streamlit output is not modelled.
 */
module Dashboard {
  import opened Wrappers
  import opened Text
  import opened Sequences

  /** A hit as the search API returns it; `None` is a missing key, a missing URL reads as "". */
  datatype RawHit = RawHit(title: Option<string>, content: Option<string>, url: string)

  /** A stage-1 record. */
  datatype Hit = Hit(title: string, content: string, url: string, source: string, searchQuery: string)

  const NoTitle: string := "No title"
  const NoContent: string := "No content"
  const UnknownSource: string := "Unknown"

  const BroadQueries: seq<string> := [
    "venture capital India", "startup funding India", "Indian startup ecosystem",
    "venture capital news India", "startup investment India", "Indian unicorn startup",
    "startup founder India",
    "business strategy India startup", "scaling business India", "startup growth India",
    "business model India", "market expansion India",
    "Sequoia Capital India", "Peak XV Partners", "Accel India", "Matrix Partners India",
    "Elevation Capital", "Lightspeed India", "Blume Ventures", "Kalaari Capital"
  ]

  // ---------------------------------------------------------------------
  // Stage 1: records from raw hits
  // ---------------------------------------------------------------------

  /**
   * `url.split('/')[2] if url else 'Unknown'`. `None` stands for the
   * IndexError a non-empty URL with fewer than two slashes raises.
   */
  function SourceOf(url: string): (r: Option<string>)
    ensures url == [] ==> r == Some(UnknownSource)
    ensures url != [] ==> (r.None? <==> CountChar(url, '/') < 2)
    ensures url != [] && r.Some? ==> '/' !in r.value
  {
    if url == [] then Some(UnknownSource)
    else
      var parts := Split(url, '/');
      SplitLength(url, '/');
      SplitPiecesFree(url, '/');
      if |parts| > 2 then Some(parts[2]) else None
  }

  /** The host of `scheme://host/path` is what the source extraction returns. */
  lemma SourceOfHostUrl(scheme: string, host: string, path: string)
    requires '/' !in scheme && '/' !in host
    requires path == [] || path[0] == '/'
    ensures SourceOf(scheme + "//" + host + path) == Some(host)
  {
    var url := scheme + "//" + host + path;
    assert url == scheme + ['/'] + ("/" + host + path);
    SplitAtSeparator(scheme, '/', "/" + host + path);
    SplitNoSeparator(scheme, '/');
    assert "/" + host + path == [] + ['/'] + (host + path);
    SplitAtSeparator([], '/', host + path);
    if path == [] {
      assert host + path == host;
      SplitNoSeparator(host, '/');
    } else {
      assert host + path == host + ['/'] + path[1..];
      SplitAtSeparator(host, '/', path[1..]);
      SplitNoSeparator(host, '/');
    }
  }

  function ToHit(raw: RawHit, query: string, source: string): Hit {
    Hit(raw.title.GetOr(NoTitle), raw.content.GetOr(NoContent), raw.url, source, query)
  }

  /**
   * The records one query contributes: the hits before the first one whose
   * source extraction raises; the exception ends that query's loop.
   */
  function ConvertHits(raws: seq<RawHit>, query: string): (r: seq<Hit>)
    ensures |r| <= |raws|
    ensures forall k :: 0 <= k < |r| ==>
              SourceOf(raws[k].url).Some? && r[k] == ToHit(raws[k], query, SourceOf(raws[k].url).value)
    ensures |r| < |raws| ==> SourceOf(raws[|r|].url).None?
    decreases |raws|
  {
    if raws == [] then []
    else match SourceOf(raws[0].url)
      case None => []
      case Some(source) =>
        var rest := ConvertHits(raws[1..], query);
        assert forall k :: 1 <= k < |raws| ==> raws[k] == raws[1..][k - 1];
        [ToHit(raws[0], query, source)] + rest
  }

  /** The records one query contributes; `search(q)` is `None` when the search call for `q` raises. */
  function QueryHits(query: string, search: string -> Option<seq<RawHit>>): seq<Hit> {
    match search(query)
    case None => []
    case Some(raws) => ConvertHits(raws, query)
  }

  /** All stage-1 records, query by query. */
  function Stage1Hits(queries: seq<string>, search: string -> Option<seq<RawHit>>): seq<Hit>
    decreases |queries|
  {
    if queries == [] then []
    else Stage1Hits(queries[..|queries| - 1], search) + QueryHits(queries[|queries| - 1], search)
  }

  lemma Stage1HitsNext(queries: seq<string>, i: nat, search: string -> Option<seq<RawHit>>)
    requires i < |queries|
    ensures Stage1Hits(queries[..i + 1], search) == Stage1Hits(queries[..i], search) + QueryHits(queries[i], search)
  {
    assert queries[..i + 1][..i] == queries[..i];
  }

  /** While the sources keep coming, each converted prefix grows by the next hit. */
  lemma ConvertHitsNext(raws: seq<RawHit>, query: string, j: nat)
    requires j < |raws| && j <= |ConvertHits(raws, query)| && SourceOf(raws[j].url).Some?
    ensures j < |ConvertHits(raws, query)|
    ensures ConvertHits(raws, query)[..j + 1]
         == ConvertHits(raws, query)[..j] + [ToHit(raws[j], query, SourceOf(raws[j].url).value)]
  {
    var converted := ConvertHits(raws, query);
    assert j < |converted|;
    PrefixGrows(converted, j);
  }

  /** The conversion ends where the hits run out or a source cannot be extracted. */
  lemma ConvertHitsEnd(raws: seq<RawHit>, query: string, j: nat)
    requires j <= |ConvertHits(raws, query)|
    requires j == |raws| || (j < |raws| && SourceOf(raws[j].url).None?)
    ensures ConvertHits(raws, query)[..j] == ConvertHits(raws, query)
  {
  }

  /** The inner loop of stage 1: one query's hits converted in order until a source cannot be extracted. */
  method ConvertQueryHits(results: seq<RawHit>, query: string) returns (hits: seq<Hit>)
    ensures hits == ConvertHits(results, query)
  {
    ghost var converted := ConvertHits(results, query);
    hits := [];
    var j := 0;
    while j < |results|
      invariant 0 <= j <= |converted|
      invariant hits == converted[..j]
    {
      var source := SourceOf(results[j].url);
      if source.None? {
        break;
      }
      ConvertHitsNext(results, query, j);
      hits := hits + [ToHit(results[j], query, source.value)];
      j := j + 1;
    }
    ConvertHitsEnd(results, query, j);
  }

  /** Stage 1: every broad query in turn, its converted hits appended unless the search call fails. */
  method CollectRawResults(search: string -> Option<seq<RawHit>>) returns (allRawResults: seq<Hit>)
    ensures allRawResults == Stage1Hits(BroadQueries, search)
  {
    allRawResults := [];
    for i := 0 to |BroadQueries|
      invariant allRawResults == Stage1Hits(BroadQueries[..i], search)
    {
      Stage1HitsNext(BroadQueries, i, search);
      var query := BroadQueries[i];
      var response := search(query);
      if response.None? {
        continue;
      }
      var hits := ConvertQueryHits(response.value, query);
      allRawResults := allRawResults + hits;
    }
    assert BroadQueries[..|BroadQueries|] == BroadQueries;
  }

  /** A query whose hits all have extractable sources contributes one record per hit, in order. */
  lemma ConvertHitsAll(raws: seq<RawHit>, query: string)
    requires forall k :: 0 <= k < |raws| ==> SourceOf(raws[k].url).Some?
    ensures |ConvertHits(raws, query)| == |raws|
  {
  }

  // ---------------------------------------------------------------------
  // URL-only de-duplication
  // ---------------------------------------------------------------------

  function HitUrls(rs: seq<Hit>): set<string> {
    set r | r in rs :: r.url
  }

  /** The first record of each URL, in input order. */
  function FirstPerUrl(rs: seq<Hit>): seq<Hit>
    decreases |rs|
  {
    if rs == [] then []
    else
      var kept := FirstPerUrl(rs[..|rs| - 1]);
      var last := rs[|rs| - 1];
      if last.url in HitUrls(kept) then kept else kept + [last]
  }

  lemma HitUrlsAppend(rs: seq<Hit>, r: Hit)
    ensures HitUrls(rs + [r]) == HitUrls(rs) + {r.url}
  {
    forall u | u in HitUrls(rs + [r]) ensures u in HitUrls(rs) + {r.url} {
      var x :| x in rs + [r] && x.url == u;
    }
    forall u | u in HitUrls(rs) + {r.url} ensures u in HitUrls(rs + [r]) {
      if u != r.url {
        var x :| x in rs && x.url == u;
        assert x in rs + [r];
      } else {
        assert r in rs + [r];
      }
    }
  }

  /** The de-duplication loop with its `seen_urls` set. */
  method DedupByUrl(allRawResults: seq<Hit>) returns (uniqueResults: seq<Hit>)
    ensures uniqueResults == FirstPerUrl(allRawResults)
  {
    uniqueResults := [];
    var seenUrls: set<string> := {};
    for i := 0 to |allRawResults|
      invariant uniqueResults == FirstPerUrl(allRawResults[..i])
      invariant seenUrls == HitUrls(uniqueResults)
    {
      assert allRawResults[..i + 1][..i] == allRawResults[..i];
      var result := allRawResults[i];
      if result.url !in seenUrls {
        HitUrlsAppend(uniqueResults, result);
        uniqueResults := uniqueResults + [result];
        seenUrls := seenUrls + {result.url};
      }
    }
    assert allRawResults[..|allRawResults|] == allRawResults;
  }

  predicate DistinctUrls(rs: seq<Hit>) {
    forall i, j :: 0 <= i < j < |rs| ==> rs[i].url != rs[j].url
  }

  /** The output keeps input order. */
  lemma {:induction false} FirstPerUrlInOrder(rs: seq<Hit>)
    ensures IsSubsequence(FirstPerUrl(rs), rs)
    decreases |rs|
  {
    if rs != [] {
      var init, last := rs[..|rs| - 1], rs[|rs| - 1];
      FirstPerUrlInOrder(init);
      assert init + [last] == rs;
      if last.url in HitUrls(FirstPerUrl(init)) {
        SubsequenceExtend(FirstPerUrl(init), init, last);
      } else {
        SubsequenceBoth(FirstPerUrl(init), init, last);
      }
    }
  }

  /** The output has exactly the input's URLs. */
  lemma {:induction false} FirstPerUrlSameUrls(rs: seq<Hit>)
    ensures HitUrls(FirstPerUrl(rs)) == HitUrls(rs)
    decreases |rs|
  {
    if rs != [] {
      var init, last := rs[..|rs| - 1], rs[|rs| - 1];
      FirstPerUrlSameUrls(init);
      assert init + [last] == rs;
      HitUrlsAppend(init, last);
      HitUrlsAppend(FirstPerUrl(init), last);
    }
  }

  /** No URL occurs twice in the output. */
  lemma {:induction false} FirstPerUrlNoRepeat(rs: seq<Hit>)
    ensures DistinctUrls(FirstPerUrl(rs))
    decreases |rs|
  {
    if rs != [] {
      var init, last := rs[..|rs| - 1], rs[|rs| - 1];
      var kept := FirstPerUrl(init);
      FirstPerUrlNoRepeat(init);
      if last.url !in HitUrls(kept) {
        var r := kept + [last];
        forall i, j | 0 <= i < j < |r| ensures r[i].url != r[j].url {
          if j == |kept| {
            assert r[i] in kept;
          }
        }
      }
    }
  }

  /**
   * The output keeps input order, has pairwise distinct URLs and exactly the
   * input's URLs, so it is no longer than the input.
   */
  lemma FirstPerUrlSpec(rs: seq<Hit>)
    ensures IsSubsequence(FirstPerUrl(rs), rs)
    ensures DistinctUrls(FirstPerUrl(rs))
    ensures HitUrls(FirstPerUrl(rs)) == HitUrls(rs)
    ensures |FirstPerUrl(rs)| <= |rs|
  {
    FirstPerUrlInOrder(rs);
    FirstPerUrlNoRepeat(rs);
    FirstPerUrlSameUrls(rs);
    SubsequenceMembers(FirstPerUrl(rs), rs);
  }

  /** A record whose URL does not occur earlier in the input is kept. */
  lemma {:induction false} FirstOccurrenceKept(rs: seq<Hit>, k: nat)
    requires k < |rs|
    requires forall j :: 0 <= j < k ==> rs[j].url != rs[k].url
    ensures rs[k] in FirstPerUrl(rs)
    decreases |rs|
  {
    var init := rs[..|rs| - 1];
    if k < |init| {
      FirstOccurrenceKept(init, k);
    } else {
      FirstPerUrlSpec(init);
    }
  }

  /** A list with distinct URLs passes unchanged. */
  lemma {:induction false} FirstPerUrlDistinct(rs: seq<Hit>)
    requires DistinctUrls(rs)
    ensures FirstPerUrl(rs) == rs
    decreases |rs|
  {
    if rs != [] {
      var init, last := rs[..|rs| - 1], rs[|rs| - 1];
      assert DistinctUrls(init);
      FirstPerUrlDistinct(init);
      assert init + [last] == rs;
    }
  }

  /** De-duplicating twice is de-duplicating once. */
  lemma FirstPerUrlIdempotent(rs: seq<Hit>)
    ensures FirstPerUrl(FirstPerUrl(rs)) == FirstPerUrl(rs)
  {
    FirstPerUrlSpec(rs);
    FirstPerUrlDistinct(FirstPerUrl(rs));
  }

  // ---------------------------------------------------------------------
  // Stage 2: classification
  // ---------------------------------------------------------------------

  /** Python's `s[front:-back]` for positive `back`: empty once the two ends cross. */
  function DropEnds(s: string, front: nat, back: nat): (r: string)
    ensures front + back <= |s| ==> r == s[front..|s| - back]
    ensures front + back >= |s| ==> r == []
  {
    if front + back < |s| then s[front..|s| - back] else []
  }

  /**
   * The reply with surrounding whitespace and a Markdown code fence removed:
   * a leading "```json" costs 7 characters, a bare "```" 3, and the last 3
   * characters go in both cases.
   */
  function StripFences(reply: string): (r: string)
    ensures |r| <= |Strip(reply)|
    ensures !StartsWith(Strip(reply), "```") ==> r == Strip(reply)
    ensures StartsWith(Strip(reply), "```json") ==> r == DropEnds(Strip(reply), 7, 3)
    ensures StartsWith(Strip(reply), "```") && !StartsWith(Strip(reply), "```json") ==> r == DropEnds(Strip(reply), 3, 3)
  {
    var content := Strip(reply);
    if StartsWith(content, "```json") then DropEnds(content, 7, 3)
    else if StartsWith(content, "```") then DropEnds(content, 3, 3)
    else content
  }

  lemma FencedIsStripped(s: string)
    requires |s| >= 3 && s[..3] == "```" && s[|s| - 1] == '`'
    ensures Strip(s) == s
  {
    assert s[0] == '`';
    StripTrimmed(s);
  }

  /** A body fenced as JSON comes back unchanged. */
  lemma JsonFenceRoundTrip(body: string)
    ensures StripFences("```json" + body + "```") == body
  {
    var s := "```json" + body + "```";
    assert s[..3] == "```";
    FencedIsStripped(s);
    assert s[..7] == "```json";
    assert s[7..|s| - 3] == body;
  }

  /** A body in a bare fence comes back unchanged unless it starts with "json". */
  lemma PlainFenceRoundTrip(body: string)
    requires !StartsWith(body, "json")
    ensures StripFences("```" + body + "```") == body
  {
    var s := "```" + body + "```";
    assert s[..3] == "```";
    FencedIsStripped(s);
    if |body| >= 4 {
      assert s[3..7] == body[..4];
    } else {
      assert s[3 + |body|] == '`';
    }
    assert !StartsWith(s, "```json");
    assert s[3..|s| - 3] == body;
  }

  const HighValueKeywords: seq<string> := [
    "strategy", "thesis", "insights", "framework", "scaling",
    "growth", "investment", "analysis", "trends", "outlook"
  ]

  const FallbackCap: int := 85

  /** The high-value keywords found in the lower-cased title and content. */
  function FallbackMatches(hit: Hit): (n: nat)
    ensures n <= |HighValueKeywords|
  {
    CountContained(HighValueKeywords, ToLower(hit.title + " " + hit.content))
  }

  /** 15 points per high-value keyword present, at most 85. */
  function FallbackScore(hit: Hit): (score: int)
    ensures score == FallbackCap || (score % 15 == 0 && 0 <= score <= 75)
    ensures score == FallbackCap <==> FallbackMatches(hit) >= 6
    ensures FallbackMatches(hit) < 6 ==> score == 15 * FallbackMatches(hit)
  {
    var n := FallbackMatches(hit);
    if 15 * n < FallbackCap then 15 * n else FallbackCap
  }

  /** A fallback score passes stage 2 iff at least three keywords match, and is "High" iff at least five do. */
  lemma FallbackThresholds(hit: Hit)
    ensures FallbackScore(hit) >= AcceptThreshold <==> FallbackMatches(hit) >= 3
    ensures FallbackScore(hit) >= HighThreshold <==> FallbackMatches(hit) >= 5
  {
  }

  /** The classification dictionary; `None` is a missing key. */
  datatype Classification = Classification(score: Option<int>, category: Option<string>, reasoning: Option<string>)

  function FallbackClassification(hit: Hit): Classification {
    Classification(Some(FallbackScore(hit)), Some("general"), Some("fallback keyword analysis"))
  }

  /**
   * `ai_classify_content`: `reply` is the model's answer (`None` when the call
   * raises) and `parse` is `json.loads` (`None` when it raises). Any failure
   * gives the keyword fallback.
   */
  function AiClassify(hit: Hit, reply: Option<string>, parse: string -> Option<Classification>): (c: Classification)
    ensures reply.None? ==> c == FallbackClassification(hit)
    ensures reply.Some? && parse(StripFences(reply.value)).None? ==> c == FallbackClassification(hit)
    ensures reply.Some? && parse(StripFences(reply.value)).Some? ==> c == parse(StripFences(reply.value)).value
  {
    match reply
    case None => FallbackClassification(hit)
    case Some(text) =>
      match parse(StripFences(text))
      case None => FallbackClassification(hit)
      case Some(parsed) => parsed
  }

  /** When the model fails, the score is the keyword score: present, at most 85, category "general". */
  lemma AiClassifyFallback(hit: Hit, reply: Option<string>, parse: string -> Option<Classification>)
    requires reply.None? || parse(StripFences(reply.value)).None?
    ensures AiClassify(hit, reply, parse).score == Some(FallbackScore(hit))
    ensures AiClassify(hit, reply, parse).score.value <= FallbackCap
    ensures AiClassify(hit, reply, parse).category == Some("general")
  {
  }

  const TestLimit: nat := 10
  const AcceptThreshold: int := 40
  const HighThreshold: int := 70

  /** An accepted article with the fields stage 2 adds. */
  datatype Assessed = Assessed(hit: Hit, relevanceScore: int, category: string, reasoning: string, priority: string)

  /** The accept/priority rule for one article; a missing score counts as 0. */
  function Assess(hit: Hit, c: Classification): (r: Option<Assessed>)
    ensures r.Some? <==> c.score.GetOr(0) >= AcceptThreshold
    ensures r.Some? ==> r.value.hit == hit && r.value.relevanceScore == c.score.value
    ensures r.Some? ==> (r.value.priority == "High" <==> c.score.value >= HighThreshold)
    ensures r.Some? ==> (r.value.priority == "High" || r.value.priority == "Medium")
    ensures r.Some? ==> r.value.category == c.category.GetOr("general")
    ensures r.Some? ==> r.value.reasoning == c.reasoning.GetOr("No reasoning")
  {
    var score := c.score.GetOr(0);
    if score >= AcceptThreshold then
      Some(Assessed(hit, score, c.category.GetOr("general"), c.reasoning.GetOr("No reasoning"),
                    if score >= HighThreshold then "High" else "Medium"))
    else None
  }

  /** The accepted articles of `articles`, in order; `classify` is the stage-2 classifier. */
  function Accepted(articles: seq<Hit>, classify: Hit -> Classification): seq<Assessed>
    decreases |articles|
  {
    if articles == [] then []
    else
      var last := articles[|articles| - 1];
      Accepted(articles[..|articles| - 1], classify)
        + match Assess(last, classify(last)) case None => [] case Some(a) => [a]
  }

  /** `unique_results[:10]`: the articles stage 2 tests. */
  function TestArticles(uniqueResults: seq<Hit>): (r: seq<Hit>)
    ensures |r| == if |uniqueResults| <= TestLimit then |uniqueResults| else TestLimit
    ensures r <= uniqueResults
    ensures |uniqueResults| <= TestLimit ==> r == uniqueResults
  {
    if |uniqueResults| <= TestLimit then uniqueResults else uniqueResults[..TestLimit]
  }

  /** Stage 2: the first ten articles are classified and the accepted ones collected. */
  method Stage2(uniqueResults: seq<Hit>, classify: Hit -> Classification) returns (highValueArticles: seq<Assessed>)
    ensures highValueArticles == Accepted(TestArticles(uniqueResults), classify)
  {
    var testArticles := TestArticles(uniqueResults);
    highValueArticles := [];
    for i := 0 to |testArticles|
      invariant highValueArticles == Accepted(testArticles[..i], classify)
    {
      assert testArticles[..i + 1][..i] == testArticles[..i];
      var article := testArticles[i];
      var classification := classify(article);
      var score := classification.score.GetOr(0);
      if score >= AcceptThreshold {
        var priority := if score >= HighThreshold then "High" else "Medium";
        highValueArticles := highValueArticles
          + [Assessed(article, score, classification.category.GetOr("general"),
                      classification.reasoning.GetOr("No reasoning"), priority)];
      }
    }
    assert testArticles[..|testArticles|] == testArticles;
  }

  function HitsOf(assessed: seq<Assessed>): (r: seq<Hit>)
    ensures |r| == |assessed|
    ensures forall i :: 0 <= i < |assessed| ==> r[i] == assessed[i].hit
  {
    seq(|assessed|, i requires 0 <= i < |assessed| => assessed[i].hit)
  }

  /** Accepted articles keep their relative order. */
  lemma {:induction false} AcceptedInOrder(articles: seq<Hit>, classify: Hit -> Classification)
    ensures IsSubsequence(HitsOf(Accepted(articles, classify)), articles)
    decreases |articles|
  {
    if articles != [] {
      var init, last := articles[..|articles| - 1], articles[|articles| - 1];
      AcceptedInOrder(init, classify);
      var before := Accepted(init, classify);
      assert init + [last] == articles;
      var r := Assess(last, classify(last));
      if r.Some? {
        assert HitsOf(before + [r.value]) == HitsOf(before) + [last];
        SubsequenceBoth(HitsOf(before), init, last);
      } else {
        assert Accepted(articles, classify) == before;
        SubsequenceExtend(HitsOf(before), init, last);
      }
    }
  }

  /**
   * Every accepted record is what the accept rule makes of its article: scored
   * at least 40, with priority "High" exactly from 70.
   */
  lemma {:induction false} AcceptedSound(articles: seq<Hit>, classify: Hit -> Classification)
    ensures forall a :: a in Accepted(articles, classify) ==>
              a.relevanceScore >= AcceptThreshold && Assess(a.hit, classify(a.hit)) == Some(a)
              && (a.priority == "High" <==> a.relevanceScore >= HighThreshold)
    decreases |articles|
  {
    if articles != [] {
      AcceptedSound(articles[..|articles| - 1], classify);
    }
  }

  /** Every article scoring 40 or more is accepted. */
  lemma {:induction false} AcceptedComplete(articles: seq<Hit>, classify: Hit -> Classification)
    ensures forall h :: h in articles && classify(h).score.GetOr(0) >= AcceptThreshold ==>
              exists a :: a in Accepted(articles, classify) && a.hit == h
    decreases |articles|
  {
    if articles != [] {
      var init, last := articles[..|articles| - 1], articles[|articles| - 1];
      AcceptedComplete(init, classify);
      forall h | h in articles && classify(h).score.GetOr(0) >= AcceptThreshold
        ensures exists a :: a in Accepted(articles, classify) && a.hit == h
      {
        if h != last {
          var k :| 0 <= k < |articles| && articles[k] == h;
          assert init[k] == h;
        } else {
          assert Assess(last, classify(last)).value in Accepted(articles, classify);
        }
      }
    }
  }

  /** An article whose classification has no score is rejected. */
  lemma MissingScoreRejected(articles: seq<Hit>, classify: Hit -> Classification, h: Hit)
    requires classify(h).score.None?
    ensures forall a :: a in Accepted(articles, classify) ==> a.hit != h
  {
    AcceptedSound(articles, classify);
  }

  /** Stage 2 analyses at most ten articles, so it accepts at most ten. */
  lemma AtMostTenAccepted(uniqueResults: seq<Hit>, classify: Hit -> Classification)
    ensures |Accepted(TestArticles(uniqueResults), classify)| <= TestLimit
  {
    AcceptedInOrder(TestArticles(uniqueResults), classify);
    SubsequenceMembers(HitsOf(Accepted(TestArticles(uniqueResults), classify)), TestArticles(uniqueResults));
  }
}
