/**
 * The rule-based part of `ContentAnalyzer` (content_analyzer.py): the 0-100
 * relevance score, sector tagging, VC-firm detection, priority, content type,
 * sentiment, key topics, theme counts and the line parser for LLM replies.
 * The OpenAI calls are inputs: their replies (or their failure) are parameters.
 */
module ContentAnalyzer {
  import opened Wrappers
  import opened Text
  import opened Sequences
  import Ranking

  /**
   * A search hit as the analyser reads it. A missing key reads as "".
   * `daysOld` is `(now - date_published).days`; `None` stands for a missing or
   * unparsable date, which the analyser replaces by "now".
   */
  datatype ContentItem = ContentItem(title: string, content: string, source: string, daysOld: Option<int>)

  datatype Priority = Low | Medium | High {
    function Rank(): nat {
      match this
      case Low => 0
      case Medium => 1
      case High => 2
    }
    function Label(): string {
      match this
      case Low => "Low"
      case Medium => "Medium"
      case High => "High"
    }
  }

  datatype ContentType = InvestmentThesis | FundingNews | MarketAnalysis | ThoughtLeadership | GeneralContent {
    function Label(): string {
      match this
      case InvestmentThesis => "Investment Thesis"
      case FundingNews => "Funding News"
      case MarketAnalysis => "Market Analysis"
      case ThoughtLeadership => "Thought Leadership"
      case GeneralContent => "General"
    }
  }

  datatype Sentiment = Positive | Negative | Neutral

  // ---------------------------------------------------------------- tables

  const Tier1Vcs: seq<string> :=
    ["Peak XV", "Sequoia", "Accel", "Matrix Partners", "Elevation", "Lightspeed", "Blume"]

  /** Sector name and its keywords, in the dictionary's insertion order. */
  const PrioritySectors: seq<(string, seq<string>)> := [
    ("Consumer", ["consumer", "retail", "marketplace", "e-commerce"]),
    ("D2C", ["d2c", "direct-to-consumer", "brand", "digital native"]),
    ("SaaS", ["saas", "software-as-a-service", "enterprise software", "b2b software"]),
    ("Fintech", ["fintech", "financial technology", "payments", "banking", "neobank"]),
    ("AI SaaS", ["ai saas", "artificial intelligence software", "ai platform", "machine learning saas"]),
    ("Agentic AI", ["agentic ai", "ai agents", "autonomous ai", "ai automation", "intelligent agents"])
  ]

  const InvestmentKeywords: seq<string> := [
    "investment thesis", "portfolio strategy", "market analysis", "funding trends",
    "investment focus", "sector outlook", "market opportunity", "venture capital",
    "investment philosophy", "deal flow", "due diligence", "investment criteria"
  ]

  /** The three source-authority tiers, highest first. */
  const VcSourceMarkers: seq<string> := ["blume", "accel", "matrix", "peak", "sequoia", "elevation", "lightspeed"]
  const PressSourceMarkers: seq<string> := ["techcrunch", "inc42", "entrackr"]
  const BusinessSourceMarkers: seq<string> := ["economic", "business-standard", "livemint"]

  const FundingTitleTerms: seq<string> := ["funding", "investment"]
  /** The dollar and rupee signs (the test for "financial figures"). */
  const CurrencyMarkers: seq<string> := ["$", "\U{20B9}"]
  const OffTopicTerms: seq<string> := ["cricket", "bollywood", "politics", "weather"]

  const GeneralSectorTerms: seq<string> := ["startup", "investment", "funding"]
  const HotSectors: seq<string> := ["AI SaaS", "Agentic AI"]

  /** Alias and canonical firm name, in the dictionary's insertion order. */
  const VcAliases: seq<(string, string)> := [
    ("peak xv", "Peak XV Partners"),
    ("sequoia", "Peak XV Partners"),
    ("accel", "Accel India"),
    ("matrix", "Matrix Partners India"),
    ("elevation", "Elevation Capital"),
    ("lightspeed", "Lightspeed India"),
    ("blume", "Blume Ventures"),
    ("kalaari", "Kalaari Capital"),
    ("nexus", "Nexus Venture Partners")
  ]

  const ThesisTitleTerms: seq<string> := ["thesis", "strategy", "outlook", "perspective"]
  const FundingNewsTitleTerms: seq<string> := ["funding", "raises", "investment", "series"]
  const AnalysisTitleTerms: seq<string> := ["trend", "analysis", "report", "insights"]
  const LeadershipTitleTerms: seq<string> := ["interview", "podcast", "discussion"]

  const PositiveWords: seq<string> := ["growth", "opportunity", "bullish", "optimistic", "positive", "strong", "robust"]
  const NegativeWords: seq<string> := ["decline", "bearish", "pessimistic", "weak", "challenging", "difficult", "winter"]

  const Topics: seq<(string, seq<string>)> := [
    ("AI Revolution", ["ai", "artificial intelligence", "machine learning", "generative ai"]),
    ("Funding Environment", ["funding winter", "valuation", "ipo", "public markets"]),
    ("Regulatory Changes", ["regulation", "policy", "rbi", "sebi", "government"]),
    ("Market Expansion", ["global", "international", "expansion", "us market"]),
    ("Technology Trends", ["blockchain", "web3", "cloud", "automation"]),
    ("Consumer Behavior", ["consumer behavior", "digital adoption", "tier 2", "rural"])
  ]

  const Themes: seq<(string, seq<string>)> := [
    ("ai_revolution", ["ai", "artificial intelligence", "generative ai", "llm"]),
    ("funding_trends", ["funding", "investment", "valuation", "series"]),
    ("market_dynamics", ["market", "growth", "expansion", "opportunity"]),
    ("regulatory_impact", ["regulation", "policy", "compliance", "government"]),
    ("technology_adoption", ["digital", "technology", "platform", "innovation"])
  ]

  // ------------------------------------------------------ relevance score

  /** Days since publication; a missing or unparsable date counts as published now. */
  function DaysOld(item: ContentItem): int {
    item.daysOld.GetOr(0)
  }

  /** Source authority: the first tier with a marker in the source wins. */
  function SourceBonus(source: string): (b: int)
    ensures b == 20 <==> ContainsAny(source, VcSourceMarkers)
    ensures b == 15 <==> !ContainsAny(source, VcSourceMarkers) && ContainsAny(source, PressSourceMarkers)
    ensures b == 10 <==> !ContainsAny(source, VcSourceMarkers) && !ContainsAny(source, PressSourceMarkers)
                         && ContainsAny(source, BusinessSourceMarkers)
    ensures b == 0 || b == 10 || b == 15 || b == 20
  {
    if ContainsAny(source, VcSourceMarkers) then 20
    else if ContainsAny(source, PressSourceMarkers) then 15
    else if ContainsAny(source, BusinessSourceMarkers) then 10
    else 0
  }

  /** How many of `keywords` occur in the title or in the content. */
  function CountPresent(keywords: seq<string>, title: string, content: string): (n: nat)
    ensures n <= |keywords|
    ensures n == 0 <==> forall k :: 0 <= k < |keywords| ==> !Contains(title, keywords[k]) && !Contains(content, keywords[k])
  {
    if keywords == [] then 0
    else (if Contains(title, keywords[0]) || Contains(content, keywords[0]) then 1 else 0)
         + CountPresent(keywords[1..], title, content)
  }

  /** 5 points per investment keyword present, at most 20. */
  function InvestmentBonus(title: string, content: string): (b: int)
    ensures 0 <= b <= 20 && b % 5 == 0
    ensures b == 20 <==> CountPresent(InvestmentKeywords, title, content) >= 4
    ensures b < 20 ==> b == 5 * CountPresent(InvestmentKeywords, title, content)
  {
    var n := CountPresent(InvestmentKeywords, title, content);
    if 5 * n < 20 then 5 * n else 20
  }

  /** A sector matches when one of its keywords is in the title or in the content. */
  predicate SectorHit(keywords: seq<string>, title: string, content: string) {
    exists k :: k in keywords && (Contains(title, k) || Contains(content, k))
  }

  /** How many sectors of `table` match; the loop in the score counts these. */
  function SectorHitCount(table: seq<(string, seq<string>)>, title: string, content: string): (n: nat)
    ensures n <= |table|
  {
    if table == [] then 0
    else SectorHitCount(table[..|table| - 1], title, content)
         + (if SectorHit(table[|table| - 1].1, title, content) then 1 else 0)
  }

  /** 5 points per matching sector, at most 15. */
  function SectorBonus(matches: nat): (b: int)
    ensures 0 <= b <= 15 && b % 5 == 0
    ensures b == 15 <==> matches >= 3
  {
    if 5 * matches < 15 then 5 * matches else 15
  }

  /** 10 points for at most a day old, 5 for at most a week, else nothing. */
  function RecencyBonus(daysOld: int): (b: int)
    ensures b == 10 <==> daysOld <= 1
    ensures b == 5 <==> 1 < daysOld <= 7
    ensures b == 0 <==> 7 < daysOld
  {
    if daysOld <= 1 then 10 else if daysOld <= 7 then 5 else 0
  }

  /** Everything but the clamp: base 50, six bonuses, one penalty. */
  function RawScore(item: ContentItem): (s: int)
    ensures 30 <= s <= 135
  {
    var title := ToLower(item.title);
    var content := ToLower(item.content);
    var source := ToLower(item.source);
    50
    + SourceBonus(source)
    + InvestmentBonus(title, content)
    + SectorBonus(SectorHitCount(PrioritySectors, title, content))
    + RecencyBonus(DaysOld(item))
    + (if |content| > 500 then 5 else 0)
    + (if ContainsAny(title, FundingTitleTerms) then 10 else 0)
    + (if ContainsAny(content, CurrencyMarkers) then 5 else 0)
    - (if ContainsAny(title, OffTopicTerms) then 20 else 0)
  }

  function Clamp(x: int): (r: int)
    ensures 0 <= r <= 100
    ensures 0 <= x <= 100 ==> r == x
  {
    if x < 0 then 0 else if x > 100 then 100 else x
  }

  /** `_calculate_relevance_score`: the clamp keeps it in [0, 100] and the single 20-point penalty keeps it at 30 or more. */
  function RelevanceScore(item: ContentItem): (r: int)
    ensures 30 <= r <= 100
    ensures r == 100 <==> RawScore(item) >= 100
    ensures RawScore(item) <= 100 ==> r == RawScore(item)
  {
    Clamp(RawScore(item))
  }

  /** The loop over the sector table that counts matching sectors. */
  method CountSectorHits(title: string, content: string) returns (sectorMatches: nat)
    ensures sectorMatches == SectorHitCount(PrioritySectors, title, content)
    ensures sectorMatches <= |PrioritySectors|
  {
    sectorMatches := 0;
    var i := 0;
    while i < |PrioritySectors|
      invariant 0 <= i <= |PrioritySectors|
      invariant sectorMatches == SectorHitCount(PrioritySectors[..i], title, content)
    {
      assert PrioritySectors[..i + 1][..i] == PrioritySectors[..i];
      if SectorHit(PrioritySectors[i].1, title, content) {
        sectorMatches := sectorMatches + 1;
      }
      i := i + 1;
    }
    assert PrioritySectors[..i] == PrioritySectors;
  }

  /** The score, accumulated step by step as the analyser does. */
  method CalculateRelevanceScore(item: ContentItem) returns (score: int)
    ensures score == RelevanceScore(item)
    ensures 30 <= score <= 100
  {
    score := 50;
    var title := ToLower(item.title);
    var content := ToLower(item.content);
    var source := ToLower(item.source);

    score := score + (if ContainsAny(source, VcSourceMarkers) then 20
                      else if ContainsAny(source, PressSourceMarkers) then 15
                      else if ContainsAny(source, BusinessSourceMarkers) then 10
                      else 0);
    ghost var expected := 50 + SourceBonus(source);
    assert score == expected;

    var investmentTerms := CountPresent(InvestmentKeywords, title, content);
    score := score + (if investmentTerms * 5 < 20 then investmentTerms * 5 else 20);
    expected := expected + InvestmentBonus(title, content);
    assert score == expected;

    var sectorMatches := CountSectorHits(title, content);
    score := score + (if sectorMatches * 5 < 15 then sectorMatches * 5 else 15);
    expected := expected + SectorBonus(SectorHitCount(PrioritySectors, title, content));
    assert score == expected;

    var daysOld := DaysOld(item);
    score := score + (if daysOld <= 1 then 10 else if daysOld <= 7 then 5 else 0);
    expected := expected + RecencyBonus(daysOld);
    assert score == expected;

    score := score + (if |content| > 500 then 5 else 0);
    score := score + (if ContainsAny(title, FundingTitleTerms) then 10 else 0);
    score := score + (if ContainsAny(content, CurrencyMarkers) then 5 else 0);
    score := score - (if ContainsAny(title, OffTopicTerms) then 20 else 0);
    expected := expected + (if |content| > 500 then 5 else 0)
                + (if ContainsAny(title, FundingTitleTerms) then 10 else 0)
                + (if ContainsAny(content, CurrencyMarkers) then 5 else 0)
                - (if ContainsAny(title, OffTopicTerms) then 20 else 0);
    assert score == expected;
    assert expected == RawScore(item);
    score := Clamp(score);
  }

  // ------------------------------------------------------ classification

  /** The text the classifiers search: title, a space, content, lower-cased. */
  function TitleAndContent(item: ContentItem): string {
    ToLower(item.title + " " + item.content)
  }

  /** Names of the table entries with a keyword in `text`, in table order. */
  function MatchedNames(table: seq<(string, seq<string>)>, text: string): (r: seq<string>)
    ensures |r| <= |table|
  {
    if table == [] then []
    else
      var init := MatchedNames(table[..|table| - 1], text);
      if ContainsAny(text, table[|table| - 1].1) then init + [table[|table| - 1].0] else init
  }

  function Names(table: seq<(string, seq<string>)>): seq<string> {
    if table == [] then [] else Names(table[..|table| - 1]) + [table[|table| - 1].0]
  }

  /** The matched names keep the table's order. */
  lemma {:induction false} MatchedNamesInOrder(table: seq<(string, seq<string>)>, text: string)
    ensures IsSubsequence(MatchedNames(table, text), Names(table))
  {
    if table != [] {
      var init := table[..|table| - 1];
      MatchedNamesInOrder(init, text);
      if ContainsAny(text, table[|table| - 1].1) {
        SubsequenceBoth(MatchedNames(init, text), Names(init), table[|table| - 1].0);
      } else {
        SubsequenceExtend(MatchedNames(init, text), Names(init), table[|table| - 1].0);
      }
    }
  }

  /** With distinct names, an entry is listed exactly when one of its keywords occurs. */
  lemma {:induction false} MatchedNamesListed(table: seq<(string, seq<string>)>, text: string)
    requires forall i, j :: 0 <= i < j < |table| ==> table[i].0 != table[j].0
    ensures forall k :: 0 <= k < |table| ==> (table[k].0 in MatchedNames(table, text) <==> ContainsAny(text, table[k].1))
  {
    if table != [] {
      var init := table[..|table| - 1];
      var last := table[|table| - 1];
      MatchedNamesListed(init, text);
      MatchedNamesInOrder(init, text);
      SubsequenceMembers(MatchedNames(init, text), Names(init));
      NamesAre(init);
      forall k | 0 <= k < |table|
        ensures table[k].0 in MatchedNames(table, text) <==> ContainsAny(text, table[k].1)
      {
        if k < |table| - 1 {
          assert table[k] == init[k];
          assert table[k].0 != last.0;
        }
      }
    }
  }

  /** With distinct names, no name is matched twice. */
  lemma {:induction false} MatchedNamesDistinct(table: seq<(string, seq<string>)>, text: string)
    requires forall i, j :: 0 <= i < j < |table| ==> table[i].0 != table[j].0
    ensures forall i, j :: 0 <= i < j < |MatchedNames(table, text)| ==> MatchedNames(table, text)[i] != MatchedNames(table, text)[j]
  {
    if table != [] {
      var init := table[..|table| - 1];
      var last := table[|table| - 1];
      MatchedNamesDistinct(init, text);
      MatchedNamesInOrder(init, text);
      SubsequenceMembers(MatchedNames(init, text), Names(init));
      NamesAre(init);
      assert last.0 !in Names(init) by {
        forall k | 0 <= k < |init| ensures Names(init)[k] != last.0 {
          assert init[k] == table[k];
        }
      }
    }
  }

  /** The three facts about matched names together. */
  lemma MatchedNamesSpec(table: seq<(string, seq<string>)>, text: string)
    requires forall i, j :: 0 <= i < j < |table| ==> table[i].0 != table[j].0
    ensures IsSubsequence(MatchedNames(table, text), Names(table))
    ensures forall k :: 0 <= k < |table| ==> (table[k].0 in MatchedNames(table, text) <==> ContainsAny(text, table[k].1))
    ensures forall i, j :: 0 <= i < j < |MatchedNames(table, text)| ==> MatchedNames(table, text)[i] != MatchedNames(table, text)[j]
  {
    MatchedNamesInOrder(table, text);
    MatchedNamesListed(table, text);
    MatchedNamesDistinct(table, text);
  }

  lemma {:induction false} NamesAre(table: seq<(string, seq<string>)>)
    ensures |Names(table)| == |table|
    ensures forall k :: 0 <= k < |table| ==> Names(table)[k] == table[k].0
  {
    if table != [] {
      NamesAre(table[..|table| - 1]);
    }
  }

  /** `_classify_sectors`: the matched sectors, or "General" when none matched but the text is about startups or funding. */
  function SectorsOf(item: ContentItem): (r: seq<string>)
    ensures r == MatchedNames(PrioritySectors, TitleAndContent(item))
            || (r == ["General"] && MatchedNames(PrioritySectors, TitleAndContent(item)) == [])
  {
    var matched := MatchedNames(PrioritySectors, TitleAndContent(item));
    if matched == [] && ContainsAny(TitleAndContent(item), GeneralSectorTerms) then ["General"] else matched
  }

  /** The sectors of an item: table sectors in table order, without repeats, "General" only in place of an empty match. */
  lemma SectorsOfSpec(item: ContentItem)
    ensures var text := TitleAndContent(item);
            && (forall k :: 0 <= k < |PrioritySectors| ==>
                  (PrioritySectors[k].0 in SectorsOf(item) <==> ContainsAny(text, PrioritySectors[k].1)))
            && ("General" in SectorsOf(item) <==>
                  (forall k :: 0 <= k < |PrioritySectors| ==> !ContainsAny(text, PrioritySectors[k].1))
                  && ContainsAny(text, GeneralSectorTerms))
            && (forall i, j :: 0 <= i < j < |SectorsOf(item)| ==> SectorsOf(item)[i] != SectorsOf(item)[j])
  {
    var text := TitleAndContent(item);
    MatchedNamesSpec(PrioritySectors, text);
    NamesAre(PrioritySectors);
    var m := MatchedNames(PrioritySectors, text);
    SubsequenceMembers(m, Names(PrioritySectors));
    assert "General" !in Names(PrioritySectors);
    if m == [] {
      assert forall k :: 0 <= k < |PrioritySectors| ==> !ContainsAny(text, PrioritySectors[k].1);
    } else {
      var k :| 0 <= k < |m|;
      assert m[k] in Names(PrioritySectors);
    }
  }

  /** The sector loop, appending as it goes. */
  method ClassifySectors(item: ContentItem) returns (sectors: seq<string>)
    ensures sectors == SectorsOf(item)
  {
    var text := TitleAndContent(item);
    sectors := [];
    var i := 0;
    while i < |PrioritySectors|
      invariant 0 <= i <= |PrioritySectors|
      invariant sectors == MatchedNames(PrioritySectors[..i], text)
    {
      assert PrioritySectors[..i + 1][..i] == PrioritySectors[..i];
      if ContainsAny(text, PrioritySectors[i].1) {
        sectors := sectors + [PrioritySectors[i].0];
      }
      i := i + 1;
    }
    assert PrioritySectors[..i] == PrioritySectors;
    if sectors == [] && ContainsAny(text, GeneralSectorTerms) {
      sectors := sectors + ["General"];
    }
  }

  /** A keyword found in the title or the content is found in the text the tagger reads. */
  lemma KeywordInTitleAndContent(item: ContentItem, kw: string)
    requires Contains(ToLower(item.title), kw) || Contains(ToLower(item.content), kw)
    ensures Contains(TitleAndContent(item), kw)
  {
    var t, c := ToLower(item.title), ToLower(item.content);
    LowerOfJoinedPlain(item.title, item.content);
    if Contains(t, kw) {
      ContainsInContext([], t, " " + c, kw);
      AppendRegroup(t, c);
    } else {
      ContainsInContext(t + " ", c, [], kw);
      assert t + " " + c + [] == t + " " + c;
    }
  }

  lemma AppendRegroup(t: string, c: string)
    ensures [] + t + (" " + c) == t + " " + c
  {
  }

  lemma LowerOfJoinedPlain(title: string, content: string)
    ensures ToLower(title + " " + content) == ToLower(title) + " " + ToLower(content)
  {
    ToLowerAppend(title + " ", content);
    ToLowerAppend(title, " ");
    LowerOfSpace();
  }

  lemma LowerOfSpace()
    ensures ToLower(" ") == " "
  {
    var sp := ToLower(" ");
    assert |sp| == 1 && sp[0] == LowerChar(' ');
  }

  /** A sector that earns score points is also one the sector tagger reports. */
  lemma ScoredSectorIsClassified(item: ContentItem, k: nat)
    requires k < |PrioritySectors|
    requires SectorHit(PrioritySectors[k].1, ToLower(item.title), ToLower(item.content))
    ensures PrioritySectors[k].0 in SectorsOf(item)
  {
    var kw :| kw in PrioritySectors[k].1 && (Contains(ToLower(item.title), kw) || Contains(ToLower(item.content), kw));
    KeywordInTitleAndContent(item, kw);
    assert ContainsAny(TitleAndContent(item), PrioritySectors[k].1);
    SectorsOfSpec(item);
  }

  /** Index of the first alias found in `text`, or `|aliases|` when none is. */
  function FirstAliasIndex(aliases: seq<(string, string)>, text: string): (k: nat)
    ensures k <= |aliases|
    ensures forall j :: 0 <= j < k ==> !Contains(text, aliases[j].0)
    ensures k < |aliases| ==> Contains(text, aliases[k].0)
  {
    if aliases == [] then 0
    else if Contains(text, aliases[0].0) then 0
    else 1 + FirstAliasIndex(aliases[1..], text)
  }

  /** `_detect_vc_firm`: the canonical name of the first alias present in title, content and source, else "Unknown". */
  function DetectVcFirm(item: ContentItem): (r: string)
    ensures var text := ToLower(item.title + " " + item.content + " " + item.source);
            && (r == "Unknown" <==> forall j :: 0 <= j < |VcAliases| ==> !Contains(text, VcAliases[j].0))
            && (r != "Unknown" ==> exists k :: 0 <= k < |VcAliases| && r == VcAliases[k].1
                                     && Contains(text, VcAliases[k].0)
                                     && (forall j :: 0 <= j < k ==> !Contains(text, VcAliases[j].0)))
  {
    var text := ToLower(item.title + " " + item.content + " " + item.source);
    var k := FirstAliasIndex(VcAliases, text);
    if k < |VcAliases| then VcAliases[k].1 else "Unknown"
  }

  /** No name the detector can return is on the tier-1 list, whose entries are short forms. */
  lemma DetectedFirmNeverTier1(item: ContentItem)
    ensures DetectVcFirm(item) !in Tier1Vcs
  {
  }

  /** `_assign_priority`. */
  function AssignPriority(score: int, vcFirm: string, sectors: seq<string>): (p: Priority)
    ensures p == High <==> score >= 80 || vcFirm in Tier1Vcs || exists s :: s in sectors && s in HotSectors
    ensures p == Medium <==> !(score >= 80 || vcFirm in Tier1Vcs || exists s :: s in sectors && s in HotSectors)
                             && (score >= 60 || |sectors| >= 2)
  {
    if score >= 80 || vcFirm in Tier1Vcs || exists s :: s in sectors && s in HotSectors then High
    else if score >= 60 || |sectors| >= 2 then Medium
    else Low
  }

  /** A higher score never lowers the priority. */
  lemma PriorityMonotone(s1: int, s2: int, vcFirm: string, sectors: seq<string>)
    requires s1 <= s2
    ensures AssignPriority(s1, vcFirm, sectors).Rank() <= AssignPriority(s2, vcFirm, sectors).Rank()
  {
  }

  /** `_classify_content_type`: the first title-keyword group that matches decides. */
  function ClassifyContentType(item: ContentItem): (t: ContentType)
    ensures var title := ToLower(item.title);
            && (t == InvestmentThesis <==> ContainsAny(title, ThesisTitleTerms))
            && (t == FundingNews <==> !ContainsAny(title, ThesisTitleTerms) && ContainsAny(title, FundingNewsTitleTerms))
            && (t == MarketAnalysis <==> !ContainsAny(title, ThesisTitleTerms) && !ContainsAny(title, FundingNewsTitleTerms)
                                         && ContainsAny(title, AnalysisTitleTerms))
            && (t == GeneralContent <==> !ContainsAny(title, ThesisTitleTerms + FundingNewsTitleTerms
                                                             + AnalysisTitleTerms + LeadershipTitleTerms))
  {
    var title := ToLower(item.title);
    if ContainsAny(title, ThesisTitleTerms) then InvestmentThesis
    else if ContainsAny(title, FundingNewsTitleTerms) then FundingNews
    else if ContainsAny(title, AnalysisTitleTerms) then MarketAnalysis
    else if ContainsAny(title, LeadershipTitleTerms) then ThoughtLeadership
    else GeneralContent
  }

  /** `_analyze_sentiment`: the side with more of its words present wins; a tie is neutral. */
  function AnalyzeSentiment(item: ContentItem): (s: Sentiment)
    ensures var text := TitleAndContent(item);
            && (s == Positive <==> CountContained(PositiveWords, text) > CountContained(NegativeWords, text))
            && (s == Negative <==> CountContained(NegativeWords, text) > CountContained(PositiveWords, text))
  {
    var text := TitleAndContent(item);
    var pos := CountContained(PositiveWords, text);
    var neg := CountContained(NegativeWords, text);
    if pos > neg then Positive else if neg > pos then Negative else Neutral
  }

  /** `_extract_key_topics`: the first three matching topics. */
  function KeyTopicsOf(item: ContentItem): (r: seq<string>)
    ensures |r| <= 3
    ensures r <= MatchedNames(Topics, TitleAndContent(item))
    ensures var m := MatchedNames(Topics, TitleAndContent(item)); |r| == if |m| < 3 then |m| else 3
  {
    var matched := MatchedNames(Topics, TitleAndContent(item));
    if |matched| <= 3 then matched else matched[..3]
  }

  /**
   * Topics come in table order, without repeats, and only when one of their
   * keywords occurs; with fewer than three listed, every matching topic is listed.
   */
  lemma KeyTopicsSpec(item: ContentItem)
    ensures IsSubsequence(KeyTopicsOf(item), Names(Topics))
    ensures forall k :: 0 <= k < |Topics| && Topics[k].0 in KeyTopicsOf(item) ==> ContainsAny(TitleAndContent(item), Topics[k].1)
    ensures forall i, j :: 0 <= i < j < |KeyTopicsOf(item)| ==> KeyTopicsOf(item)[i] != KeyTopicsOf(item)[j]
    ensures forall k :: (0 <= k < |Topics| && |KeyTopicsOf(item)| < 3 && ContainsAny(TitleAndContent(item), Topics[k].1))
              ==> Topics[k].0 in KeyTopicsOf(item)
  {
    var m := MatchedNames(Topics, TitleAndContent(item));
    MatchedNamesSpec(Topics, TitleAndContent(item));
    var r := KeyTopicsOf(item);
    if |m| > 3 {
      PrefixIsSubsequence(m, 3);
      SubsequenceTransitive(r, m, Names(Topics));
    }
  }

  /** The topic loop, appending as it goes, then the cut to three. */
  method ExtractKeyTopics(item: ContentItem) returns (topics: seq<string>)
    ensures topics == KeyTopicsOf(item)
  {
    var text := TitleAndContent(item);
    var matched: seq<string> := [];
    var i := 0;
    while i < |Topics|
      invariant 0 <= i <= |Topics|
      invariant matched == MatchedNames(Topics[..i], text)
    {
      assert Topics[..i + 1][..i] == Topics[..i];
      if ContainsAny(text, Topics[i].1) {
        matched := matched + [Topics[i].0];
      }
      i := i + 1;
    }
    assert Topics[..i] == Topics;
    topics := if |matched| <= 3 then matched else matched[..3];
  }

  // ------------------------------------------------------ theme counts

  /** Total of the non-overlapping counts of the keywords in `text`. */
  function KeywordCount(keywords: seq<string>, text: string): nat
  {
    if keywords == [] then 0 else CountOccurrences(text, keywords[0]) + KeywordCount(keywords[1..], text)
  }

  /** Themes with a positive count, with their counts, in table order. */
  function ThemeScores(themes: seq<(string, seq<string>)>, text: string): (r: seq<(string, nat)>)
    ensures |r| <= |themes|
    ensures forall e :: e in r ==> e.1 > 0 && exists t :: t in themes && t.0 == e.0 && e.1 == KeywordCount(t.1, text)
    ensures forall t :: t in themes && KeywordCount(t.1, text) > 0 ==> (t.0, KeywordCount(t.1, text)) in r
  {
    if themes == [] then []
    else
      var init, last := themes[..|themes| - 1], themes[|themes| - 1];
      var rest := ThemeScores(init, text);
      assert forall t :: t in themes <==> t in init || t == last;
      var n := KeywordCount(last.1, text);
      if n > 0 then rest + [(last.0, n)] else rest
  }

  /** The theme names of scored entries, in order. */
  function EntryNames(entries: seq<(string, nat)>): seq<string> {
    if entries == [] then [] else EntryNames(entries[..|entries| - 1]) + [entries[|entries| - 1].0]
  }

  /** Scored themes keep the table's order. */
  lemma {:induction false} ThemeScoresInOrder(themes: seq<(string, seq<string>)>, text: string)
    ensures IsSubsequence(EntryNames(ThemeScores(themes, text)), Names(themes))
  {
    if themes != [] {
      var init, last := themes[..|themes| - 1], themes[|themes| - 1];
      var rest := ThemeScores(init, text);
      ThemeScoresInOrder(init, text);
      var n := KeywordCount(last.1, text);
      if n > 0 {
        assert (rest + [(last.0, n)])[..|rest|] == rest;
        SubsequenceBoth(EntryNames(rest), Names(init), last.0);
      } else {
        SubsequenceExtend(EntryNames(rest), Names(init), last.0);
      }
    }
  }

  function ThemeKey(e: (string, nat)): Ranking.Key {
    Ranking.Key(e.1, None)
  }

  /**
   * The `n` best-scored entries, best first: drawn from `scores` without
   * repeats, all of them when there are at most `n`, and none left out that
   * scores above one kept.
   */
  function TopRanked(scores: seq<(string, nat)>, n: nat): (r: seq<(string, nat)>)
    ensures |r| == if |scores| <= n then |scores| else n
    ensures Ranking.SortedDesc(r, ThemeKey)
    ensures multiset(r) <= multiset(scores)
    ensures |scores| <= n ==> multiset(r) == multiset(scores)
    ensures forall e, y :: e in scores && e !in r && y in r ==> !Ranking.Above(ThemeKey(e), ThemeKey(y))
  {
    var ranked := Ranking.SortDesc(scores, ThemeKey);
    var r := Ranking.Limit(ranked, n);
    assert |scores| <= n ==> r == ranked;
    forall e, y | e in scores && e !in r && y in r ensures !Ranking.Above(ThemeKey(e), ThemeKey(y)) {
      assert e in multiset(scores);
      assert e in ranked;
      Ranking.LimitKeepsTop(ranked, ThemeKey, n, e);
    }
    r
  }

  /** Among entries with equal scores, the kept ones are the first few, in input order. */
  lemma TopRankedStable(scores: seq<(string, nat)>, n: nat, v: Ranking.Key)
    ensures Ranking.KeyFilter(TopRanked(scores, n), ThemeKey, v) <= Ranking.KeyFilter(scores, ThemeKey, v)
  {
    var ranked := Ranking.SortDesc(scores, ThemeKey);
    Ranking.SortDescStable(scores, ThemeKey, v);
    Ranking.KeyFilterPrefix(Ranking.Limit(ranked, n), ranked, ThemeKey, v);
  }

  /**
   * `extract_themes` (the dictionary's keys, in order): themes ranked by how often
   * their keywords occur in the joined, lower-cased texts, at most five.
   */
  function ExtractThemes(contentList: seq<string>): (r: seq<(string, nat)>)
    ensures |r| <= 5
    ensures Ranking.SortedDesc(r, ThemeKey)
    ensures multiset(r) == multiset(ThemeScores(Themes, ToLower(Join(" ", contentList))))
  {
    TopRanked(ThemeScores(Themes, ToLower(Join(" ", contentList))), 5)
  }

  /** Exactly the themes with a keyword present are listed, each with its count. */
  lemma ThemesListed(contentList: seq<string>)
    ensures var text := ToLower(Join(" ", contentList));
            forall t :: t in Themes ==>
              (KeywordCount(t.1, text) > 0 <==> (t.0, KeywordCount(t.1, text)) in ExtractThemes(contentList))
  {
    var text := ToLower(Join(" ", contentList));
    var scores := ThemeScores(Themes, text);
    forall t | t in Themes
      ensures KeywordCount(t.1, text) > 0 <==> (t.0, KeywordCount(t.1, text)) in ExtractThemes(contentList)
    {
      var e := (t.0, KeywordCount(t.1, text));
      assert e in ExtractThemes(contentList) <==> e in multiset(scores);
    }
  }

  /**
   * Python's `sorted` is stable: themes with equal counts come out in the
   * order they were scored, which is table order.
   */
  lemma ExtractThemesTieOrder(contentList: seq<string>, count: nat)
    ensures var scores := ThemeScores(Themes, ToLower(Join(" ", contentList)));
            Ranking.KeyFilter(ExtractThemes(contentList), ThemeKey, Ranking.Key(count, None))
              == Ranking.KeyFilter(scores, ThemeKey, Ranking.Key(count, None))
            && IsSubsequence(EntryNames(scores), Names(Themes))
  {
    var text := ToLower(Join(" ", contentList));
    var scores := ThemeScores(Themes, text);
    var v := Ranking.Key(count, None);
    assert ExtractThemes(contentList) == Ranking.SortDesc(scores, ThemeKey);
    Ranking.SortDescStable(scores, ThemeKey, v);
    ThemeScoresInOrder(Themes, text);
  }

  // ------------------------------------------------------ reply sections

  /** Some digit among the first three characters of `line`. */
  predicate DigitInFirst3(line: string) {
    exists k :: 0 <= k < |line| && k < 3 && IsDigit(line[k])
  }

  predicate IsHeading(line: string, name: string) {
    Contains(ToLower(line), ToLower(name))
  }

  /** A line that ends a section: not a heading, not blank, no digit in its first three characters. */
  predicate IsStopLine(line: string, name: string) {
    !IsHeading(line, name) && Strip(line) != [] && !DigitInFirst3(line)
  }

  /** The stripped lines `_extract_section` collects, given whether a heading has been seen. */
  function SectionLines(lines: seq<string>, name: string, inSection: bool): seq<string> {
    if lines == [] then []
    else if IsHeading(lines[0], name) then SectionLines(lines[1..], name, true)
    else if inSection && IsStopLine(lines[0], name) then []
    else if inSection then [Strip(lines[0])] + SectionLines(lines[1..], name, true)
    else SectionLines(lines[1..], name, false)
  }

  /** The section text: the collected lines joined by spaces, stripped. */
  function SectionText(text: string, name: string): string {
    Strip(Join(" ", SectionLines(Split(text, '\n'), name, false)))
  }

  /** `_extract_section`, with its `in_section` flag and early exit. */
  method ExtractSection(text: string, sectionName: string) returns (r: string)
    ensures r == SectionText(text, sectionName)
  {
    var lines := Split(text, '\n');
    var collected: seq<string> := [];
    var inSection := false;
    var i := 0;
    while i < |lines|
      invariant 0 <= i <= |lines|
      invariant collected + SectionLines(lines[i..], sectionName, inSection) == SectionLines(lines, sectionName, false)
    {
      assert lines[i..][1..] == lines[i + 1..];
      var line := lines[i];
      if Contains(ToLower(line), ToLower(sectionName)) {
        inSection := true;
      } else if inSection && Strip(line) != [] && !(exists k :: 0 <= k < |line| && k < 3 && IsDigit(line[k])) {
        assert SectionLines(lines[i..], sectionName, inSection) == [];
        assert collected == SectionLines(lines, sectionName, false);
        break;
      } else if inSection {
        collected := collected + [Strip(line)];
      }
      i := i + 1;
    }
    if i == |lines| {
      assert lines[i..] == [];
      assert collected + [] == collected;
    }
    assert collected == SectionLines(lines, sectionName, false);
    r := Strip(Join(" ", collected));
  }

  /** With no heading line the section is empty. */
  lemma {:induction false} NoHeadingNoSection(lines: seq<string>, name: string)
    requires forall k :: 0 <= k < |lines| ==> !IsHeading(lines[k], name)
    ensures SectionLines(lines, name, false) == []
  {
    if lines != [] {
      NoHeadingNoSection(lines[1..], name);
    }
  }

  lemma NoHeadingEmptyText(text: string, name: string)
    requires forall k :: 0 <= k < |Split(text, '\n')| ==> !IsHeading(Split(text, '\n')[k], name)
    ensures SectionText(text, name) == []
  {
    NoHeadingNoSection(Split(text, '\n'), name);
  }

  /** Stripping keeps a digit that sits in the first three characters there. */
  lemma StripKeepsLeadingDigit(line: string)
    requires DigitInFirst3(line)
    ensures DigitInFirst3(Strip(line))
  {
    var k :| 0 <= k < |line| && k < 3 && IsDigit(line[k]);
    var r := Strip(line);
    assert !IsSpace(line[k]);
    assert r != [];
    var lo := LeadingSpaces(line);
    assert lo <= k;
    assert k < lo + |r|;
    assert r[k - lo] == line[k];
  }

  /** Every collected line is blank or has a digit among its first three characters. */
  lemma {:induction false} CollectedLinesShape(lines: seq<string>, name: string, inSection: bool)
    ensures forall e :: e in SectionLines(lines, name, inSection) ==> e == [] || DigitInFirst3(e)
  {
    if lines != [] {
      CollectedLinesShape(lines[1..], name, true);
      CollectedLinesShape(lines[1..], name, false);
      if !IsHeading(lines[0], name) && inSection && !IsStopLine(lines[0], name) {
        if Strip(lines[0]) != [] {
          StripKeepsLeadingDigit(lines[0]);
        }
      }
    }
  }

  /** Two line lists with the same first line collect the same section when their rests do. */
  lemma SameHeadSameSection(a: seq<string>, b: seq<string>, name: string, inSection: bool)
    requires a != [] && b != [] && a[0] == b[0]
    requires SectionLines(a[1..], name, inSection || IsHeading(a[0], name))
          == SectionLines(b[1..], name, inSection || IsHeading(a[0], name))
    ensures SectionLines(a, name, inSection) == SectionLines(b, name, inSection)
  {
  }

  /** Nothing after the first stop line inside a section is read. */
  lemma {:induction false} StopLineEndsSection(lines: seq<string>, name: string, inSection: bool, i: nat)
    requires i < |lines| && IsStopLine(lines[i], name)
    requires inSection || exists h :: 0 <= h < i && IsHeading(lines[h], name)
    ensures SectionLines(lines, name, inSection) == SectionLines(lines[..i], name, inSection)
  {
    if i == 0 {
      assert inSection;
    } else {
      var tail, prefix := lines[1..], lines[..i];
      assert prefix[1..] == tail[..i - 1];
      var next := inSection || IsHeading(lines[0], name);
      if !next {
        var h :| 0 <= h < i && IsHeading(lines[h], name);
        assert h > 0 && tail[h - 1] == lines[h];
      }
      StopLineEndsSection(tail, name, next, i - 1);
      SameHeadSameSection(lines, prefix, name, inSection);
    }
  }

  // ------------------------------------------------------ summary and analysis

  /**
   * `_generate_summary`: short content is its own summary; otherwise the model's
   * reply, stripped, or on failure the first 200 characters and an ellipsis.
   */
  function GenerateSummary(item: ContentItem, reply: Option<string>): (s: string)
    ensures |item.content| < 200 ==> s == item.content
    ensures |item.content| >= 200 && reply.None? ==> s == item.content[..200] + "..." && |s| == 203
    ensures |item.content| >= 200 && reply.Some? ==> s == Strip(reply.value)
  {
    var text := item.content;
    if |text| < 200 then text
    else match reply
      case Some(answer) => Strip(answer)
      case None => text[..200] + "..."
  }

  /** The record `analyze_content` returns, less the input keys and the timestamp. */
  datatype Analysis = Analysis(
    item: ContentItem,
    relevanceScore: int,
    sectors: string,
    vcFirm: string,
    priority: Priority,
    insights: string,
    summary: string,
    contentType: ContentType,
    sentiment: Sentiment,
    keyTopics: seq<string>)

  /**
   * `analyze_content`. `insights` is what `_extract_insights` produced (the model's
   * reply or its error text); `summaryReply` is the summary model's reply, if any.
   */
  method AnalyzeContent(item: ContentItem, insights: string, summaryReply: Option<string>) returns (a: Analysis)
    ensures a.item == item && 30 <= a.relevanceScore <= 100
    ensures a.relevanceScore == RelevanceScore(item)
    ensures a.sectors == Join(", ", SectorsOf(item))
    ensures a.vcFirm == DetectVcFirm(item)
    ensures a.priority == High <==> a.relevanceScore >= 80 || exists s :: s in SectorsOf(item) && s in HotSectors
    ensures a.priority == Medium <==> a.relevanceScore < 80 && !(exists s :: s in SectorsOf(item) && s in HotSectors)
                                      && (a.relevanceScore >= 60 || |SectorsOf(item)| >= 2)
    ensures a.summary == GenerateSummary(item, summaryReply)
    ensures a.contentType == ClassifyContentType(item) && a.sentiment == AnalyzeSentiment(item)
    ensures a.keyTopics == KeyTopicsOf(item)
    ensures a.insights == insights
  {
    var score := CalculateRelevanceScore(item);
    var sectors := ClassifySectors(item);
    var vcFirm := DetectVcFirm(item);
    DetectedFirmNeverTier1(item);
    var priority := AssignPriority(score, vcFirm, sectors);
    var summary := GenerateSummary(item, summaryReply);
    var topics := ExtractKeyTopics(item);
    a := Analysis(item, score, Join(", ", sectors), vcFirm, priority, insights, summary,
                  ClassifyContentType(item), AnalyzeSentiment(item), topics);
  }
}
