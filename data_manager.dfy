/**
 * `DataManager` (data_manager.py) over an in-memory `content` table and
 * `feedback` table: the insert-or-skip batch store, the filtered and ordered
 * query, user feedback, the cleanup of old rows and the tracked-VC count.
 * SQLite itself is not modelled: the clock is a parameter, timestamps are
 * integers, and an INSERT that raises is decided by a parameter.
 */
module DataManager {
  import opened Wrappers
  import opened Text
  import opened Sequences
  import Ranking

  /**
   * A record handed to `store_content`, with every missing key already read
   * as its default ("" for text, 0 for the score, NULL for the date).
   */
  datatype Article = Article(
    title: string,
    url: string,
    content: string,
    source: string,
    datePublished: Option<int>,
    relevanceScore: int,
    sectors: string,
    vcFirm: string,
    priority: string)

  /** A row of the `content` table. */
  datatype Row = Row(id: nat, article: Article, dateScraped: int, userFeedback: int)

  /** A row of the `feedback` table. */
  datatype Feedback = Feedback(id: nat, contentId: int, feedbackType: string, feedbackValue: int, timestamp: int)

  /** The first id SQLite's AUTOINCREMENT hands out. */
  const FirstId: nat := 1

  /** The `limit` argument's default. */
  const DefaultLimit: int := 100

  function UrlsOf(rows: seq<Row>): set<string> {
    set r | r in rows :: r.article.url
  }

  /** The `UNIQUE` constraint on `url`. */
  predicate UrlsDistinct(rows: seq<Row>) {
    forall i, j :: 0 <= i < j < |rows| ==> rows[i].article.url != rows[j].article.url
  }

  /** AUTOINCREMENT ids: increasing in insertion order and below the next id. */
  predicate IdsIncreasing(rows: seq<Row>, nextId: nat) {
    (forall i, j :: 0 <= i < j < |rows| ==> rows[i].id < rows[j].id)
    && (forall i :: 0 <= i < |rows| ==> rows[i].id < nextId)
  }

  predicate FeedbackIdsIncreasing(feedback: seq<Feedback>, nextId: nat) {
    (forall i, j :: 0 <= i < j < |feedback| ==> feedback[i].id < feedback[j].id)
    && (forall i :: 0 <= i < |feedback| ==> feedback[i].id < nextId)
  }

  predicate TableInvariant(rows: seq<Row>, nextId: nat) {
    UrlsDistinct(rows) && IdsIncreasing(rows, nextId) && nextId >= FirstId
  }

  lemma UrlsOfAppend(rows: seq<Row>, r: Row)
    ensures UrlsOf(rows + [r]) == UrlsOf(rows) + {r.article.url}
  {
    forall u | u in UrlsOf(rows + [r]) ensures u in UrlsOf(rows) + {r.article.url} {
      var x :| x in rows + [r] && x.article.url == u;
    }
    forall u | u in UrlsOf(rows) + {r.article.url} ensures u in UrlsOf(rows + [r]) {
      if u != r.article.url {
        var x :| x in rows && x.article.url == u;
        assert x in rows + [r];
      } else {
        assert r in rows + [r];
      }
    }
  }

  /** A fresh row for `a` with the next id: the table invariant survives when its URL is new. */
  lemma AppendKeepsInvariant(rows: seq<Row>, nextId: nat, a: Article, now: int)
    requires TableInvariant(rows, nextId) && a.url !in UrlsOf(rows)
    ensures TableInvariant(rows + [Row(nextId, a, now, 0)], nextId + 1)
  {
    var r := rows + [Row(nextId, a, now, 0)];
    forall i, j | 0 <= i < j < |r| ensures r[i].article.url != r[j].article.url {
      if j == |rows| {
        assert r[i] in rows;
      }
    }
  }

  // ---------------------------------------------------------------------
  // store_content
  // ---------------------------------------------------------------------

  /**
   * The table and the next id after storing `batch`, one article at a time:
   * an article whose URL is already in the table is skipped, one whose INSERT
   * raises (`rejects`) is skipped without using an id, and any other is
   * appended with the next id, scraped `now`, with no feedback yet.
   */
  function StoreAll(rows: seq<Row>, nextId: nat, batch: seq<Article>, now: int, rejects: Article -> bool): (seq<Row>, nat)
    decreases |batch|
  {
    if batch == [] then (rows, nextId)
    else
      var (r, n) := StoreAll(rows, nextId, batch[..|batch| - 1], now, rejects);
      var a := batch[|batch| - 1];
      if a.url in UrlsOf(r) || rejects(a) then (r, n) else (r + [Row(n, a, now, 0)], n + 1)
  }

  /** One more article in the batch. */
  lemma StoreAllStep(rows: seq<Row>, nextId: nat, batch: seq<Article>, a: Article, now: int, rejects: Article -> bool)
    ensures var (r, n) := StoreAll(rows, nextId, batch, now, rejects);
            StoreAll(rows, nextId, batch + [a], now, rejects) ==
              if a.url in UrlsOf(r) || rejects(a) then (r, n) else (r + [Row(n, a, now, 0)], n + 1)
  {
    assert (batch + [a])[..|batch|] == batch;
  }

  /**
   * Existing rows are never modified; at most one row per article is added;
   * each added row uses the next id, and ids are used by added rows only.
   */
  lemma {:induction false} StoreAllGrows(rows: seq<Row>, nextId: nat, batch: seq<Article>, now: int, rejects: Article -> bool)
    ensures var (r, n) := StoreAll(rows, nextId, batch, now, rejects);
            && rows <= r
            && |r| <= |rows| + |batch|
            && n == nextId + (|r| - |rows|)
            && (forall k :: |rows| <= k < |r| ==>
                  r[k].id == nextId + (k - |rows|) && r[k].dateScraped == now && r[k].userFeedback == 0
                  && r[k].article in batch && !rejects(r[k].article) && r[k].article.url !in UrlsOf(rows))
    decreases |batch|
  {
    if batch != [] {
      var init, a := batch[..|batch| - 1], batch[|batch| - 1];
      StoreAllGrows(rows, nextId, init, now, rejects);
      assert init + [a] == batch;
      StoreAllStep(rows, nextId, init, a, now, rejects);
      var (r, n) := StoreAll(rows, nextId, init, now, rejects);
      if !(a.url in UrlsOf(r) || rejects(a)) {
        var r' := r + [Row(n, a, now, 0)];
        forall k | |rows| <= k < |r'|
          ensures r'[k].id == nextId + (k - |rows|) && r'[k].dateScraped == now && r'[k].userFeedback == 0
                  && r'[k].article in batch && !rejects(r'[k].article) && r'[k].article.url !in UrlsOf(rows)
        {
          if k < |r| {
            assert r'[k] == r[k];
            assert r[k].article in init;
          } else {
            assert rows <= r;
          }
        }
      } else {
        forall k | |rows| <= k < |r| ensures r[k].article in batch {
          assert r[k].article in init;
        }
      }
    }
  }

  /** After storing a batch, no two rows share a URL, and the ids stay increasing. */
  lemma {:induction false} StoreAllKeepsInvariant(rows: seq<Row>, nextId: nat, batch: seq<Article>, now: int, rejects: Article -> bool)
    requires TableInvariant(rows, nextId)
    ensures var (r, n) := StoreAll(rows, nextId, batch, now, rejects);
            TableInvariant(r, n)
    decreases |batch|
  {
    if batch != [] {
      var init, a := batch[..|batch| - 1], batch[|batch| - 1];
      StoreAllKeepsInvariant(rows, nextId, init, now, rejects);
      var (r, n) := StoreAll(rows, nextId, init, now, rejects);
      if !(a.url in UrlsOf(r) || rejects(a)) {
        AppendKeepsInvariant(r, n, a, now);
      }
    }
  }

  /** Every article that does not fail to insert has its URL in the table afterwards. */
  lemma {:induction false} StoreAllComplete(rows: seq<Row>, nextId: nat, batch: seq<Article>, now: int, rejects: Article -> bool)
    ensures var (r, n) := StoreAll(rows, nextId, batch, now, rejects);
            UrlsOf(rows) <= UrlsOf(r)
            && forall a :: a in batch && !rejects(a) ==> a.url in UrlsOf(r)
    decreases |batch|
  {
    if batch != [] {
      var init, a := batch[..|batch| - 1], batch[|batch| - 1];
      StoreAllComplete(rows, nextId, init, now, rejects);
      var (r, n) := StoreAll(rows, nextId, init, now, rejects);
      if !(a.url in UrlsOf(r) || rejects(a)) {
        UrlsOfAppend(r, Row(n, a, now, 0));
      }
      forall b | b in batch && !rejects(b) ensures b.url in UrlsOf(StoreAll(rows, nextId, batch, now, rejects).0) {
        if b != a {
          var k :| 0 <= k < |batch| && batch[k] == b;
          assert init[k] == b;
        }
      }
    }
  }

  /** A batch none of whose URLs is new to the table adds nothing and uses no id. */
  lemma {:induction false} StoreAllNothingNew(rows: seq<Row>, nextId: nat, batch: seq<Article>, now: int, rejects: Article -> bool)
    requires forall a :: a in batch ==> a.url in UrlsOf(rows) || rejects(a)
    ensures StoreAll(rows, nextId, batch, now, rejects) == (rows, nextId)
    decreases |batch|
  {
    if batch != [] {
      var init := batch[..|batch| - 1];
      assert forall a :: a in init ==> a in batch;
      StoreAllNothingNew(rows, nextId, init, now, rejects);
    }
  }

  /** Storing the same batch a second time inserts nothing. */
  lemma StoreAgainStoresNothing(rows: seq<Row>, nextId: nat, batch: seq<Article>, now: int, later: int, rejects: Article -> bool)
    ensures var (r, n) := StoreAll(rows, nextId, batch, now, rejects);
            StoreAll(r, n, batch, later, rejects) == (r, n)
  {
    StoreAllComplete(rows, nextId, batch, now, rejects);
    var (r, n) := StoreAll(rows, nextId, batch, now, rejects);
    StoreAllNothingNew(r, n, batch, later, rejects);
  }

  // ---------------------------------------------------------------------
  // get_filtered_content
  // ---------------------------------------------------------------------

  /** The arguments of `get_filtered_content`; `None` is an argument left out. */
  datatype Filter = Filter(
    startDate: Option<int>,
    endDate: Option<int>,
    sector: Option<string>,
    vcFirm: Option<string>,
    priority: Option<string>,
    limit: int)

  /** `if v and v != "All"`: None, the empty string and "All" all switch the filter off. */
  predicate Active(v: Option<string>) {
    v.Some? && v.value != "" && v.value != "All"
  }

  /** SQLite's `column LIKE '%pattern%'` for a pattern with no wildcard: ASCII case-insensitive substring. */
  predicate LikeSubstring(column: string, pattern: string) {
    Contains(ToLower(column), ToLower(pattern))
  }

  /** The WHERE clause. A NULL `date_published` fails every date comparison. */
  predicate Matches(f: Filter, r: Row) {
    var date := r.article.datePublished;
    && (f.startDate.Some? ==> date.Some? && date.value >= f.startDate.value)
    && (f.endDate.Some? ==> date.Some? && date.value <= f.endDate.value)
    && (Active(f.sector) ==> LikeSubstring(r.article.sectors, f.sector.value))
    && (Active(f.vcFirm) ==> LikeSubstring(r.article.vcFirm, f.vcFirm.value))
    && (Active(f.priority) ==> r.article.priority == f.priority.value)
  }

  /** The rows the WHERE clause selects, in table order. */
  function Select(rows: seq<Row>, f: Filter): (r: seq<Row>)
    ensures forall x :: x in r <==> x in rows && Matches(f, x)
    ensures IsSubsequence(r, rows)
    decreases |rows|
  {
    if rows == [] then []
    else
      var init, last := rows[..|rows| - 1], rows[|rows| - 1];
      var s := Select(init, f);
      assert init + [last] == rows;
      if Matches(f, last) then
        SubsequenceBoth(s, init, last);
        s + [last]
      else
        SubsequenceExtend(s, init, last);
        s
  }

  /** `ORDER BY relevance_score DESC, date_published DESC`. */
  function RowKey(r: Row): Ranking.Key {
    Ranking.Key(r.article.relevanceScore, r.article.datePublished)
  }

  /**
   * `get_filtered_content`: the matching rows, best first, at most `limit` of
   * them (all of them for a negative limit).
   */
  function FilteredContent(rows: seq<Row>, f: Filter): (r: seq<Row>)
    ensures forall x :: x in r ==> x in rows && Matches(f, x)
    ensures Ranking.SortedDesc(r, RowKey)
    ensures f.limit < 0 ==> multiset(r) == multiset(Select(rows, f))
    ensures multiset(r) <= multiset(Select(rows, f))
    ensures 0 <= f.limit ==> |r| == if f.limit < |Select(rows, f)| then f.limit else |Select(rows, f)|
  {
    var sorted := Ranking.SortDesc(Select(rows, f), RowKey);
    assert forall x :: x in sorted ==> x in Select(rows, f) by {
      forall x | x in sorted ensures x in Select(rows, f) {
        assert x in multiset(sorted);
      }
    }
    Ranking.Limit(sorted, f.limit)
  }

  /** A matching row that the limit cuts off ranks above no returned row. */
  lemma FilteredContentKeepsTop(rows: seq<Row>, f: Filter, x: Row)
    requires x in rows && Matches(f, x) && x !in FilteredContent(rows, f)
    ensures forall y :: y in FilteredContent(rows, f) ==> !Ranking.Above(RowKey(x), RowKey(y))
  {
    var sorted := Ranking.SortDesc(Select(rows, f), RowKey);
    assert x in multiset(Select(rows, f));
    assert x in sorted;
    Ranking.LimitKeepsTop(sorted, RowKey, f.limit, x);
  }

  /** With no filter switched on and no limit, the query returns the whole table. */
  lemma NoFilterReturnsAll(rows: seq<Row>, f: Filter)
    requires f.startDate.None? && f.endDate.None?
    requires !Active(f.sector) && !Active(f.vcFirm) && !Active(f.priority) && f.limit < 0
    ensures multiset(FilteredContent(rows, f)) == multiset(rows)
  {
    SelectAll(rows, f);
  }

  lemma {:induction false} SelectAll(rows: seq<Row>, f: Filter)
    requires forall x :: x in rows ==> Matches(f, x)
    ensures Select(rows, f) == rows
    decreases |rows|
  {
    if rows != [] {
      var init := rows[..|rows| - 1];
      SelectAll(init, f);
      assert init + [rows[|rows| - 1]] == rows;
    }
  }

  // ---------------------------------------------------------------------
  // store_user_feedback
  // ---------------------------------------------------------------------

  /** One row under `UPDATE content SET user_feedback = user_feedback + value WHERE id = contentId`. */
  function Bump(row: Row, contentId: int, value: int): Row {
    if row.id == contentId then row.(userFeedback := row.userFeedback + value) else row
  }

  /** The table under that UPDATE: only `user_feedback` of the rows with that id changes. */
  function ApplyFeedback(rows: seq<Row>, contentId: int, value: int): (r: seq<Row>)
    ensures |r| == |rows|
    ensures forall i :: 0 <= i < |rows| ==>
              r[i].id == rows[i].id && r[i].article == rows[i].article && r[i].dateScraped == rows[i].dateScraped
              && r[i].userFeedback == rows[i].userFeedback + (if rows[i].id == contentId then value else 0)
    decreases |rows|
  {
    if rows == [] then []
    else ApplyFeedback(rows[..|rows| - 1], contentId, value) + [Bump(rows[|rows| - 1], contentId, value)]
  }

  /** The rows with a given id. */
  function CountId(rows: seq<Row>, id: int): nat
    decreases |rows|
  {
    if rows == [] then 0
    else CountId(rows[..|rows| - 1], id) + (if rows[|rows| - 1].id == id then 1 else 0)
  }

  function TotalFeedback(rows: seq<Row>): int
    decreases |rows|
  {
    if rows == [] then 0 else TotalFeedback(rows[..|rows| - 1]) + rows[|rows| - 1].userFeedback
  }

  /** The table's total feedback grows by the value once per row with that id. */
  lemma {:induction false} FeedbackTotal(rows: seq<Row>, contentId: int, value: int)
    ensures TotalFeedback(ApplyFeedback(rows, contentId, value)) == TotalFeedback(rows) + value * CountId(rows, contentId)
    decreases |rows|
  {
    if rows != [] {
      var init, last := rows[..|rows| - 1], rows[|rows| - 1];
      FeedbackTotal(init, contentId, value);
      FeedbackTotalStep(rows, contentId, value);
      assert TotalFeedback(rows) == TotalFeedback(init) + last.userFeedback;
      var c := CountId(init, contentId);
      if last.id == contentId {
        assert CountId(rows, contentId) == c + 1;
        calc {
          TotalFeedback(ApplyFeedback(rows, contentId, value));
          TotalFeedback(ApplyFeedback(init, contentId, value)) + last.userFeedback + value;
          TotalFeedback(init) + last.userFeedback + (value * c + value);
          { MultiplyOneMore(value, c); }
          TotalFeedback(rows) + value * (c + 1);
        }
      } else {
        assert CountId(rows, contentId) == c;
        calc {
          TotalFeedback(ApplyFeedback(rows, contentId, value));
          TotalFeedback(ApplyFeedback(init, contentId, value)) + last.userFeedback;
          TotalFeedback(rows) + value * c;
        }
      }
    }
  }

  lemma MultiplyOneMore(value: int, c: nat)
    ensures value * (c + 1) == value * c + value
  {
  }

  lemma FeedbackTotalStep(rows: seq<Row>, contentId: int, value: int)
    requires rows != []
    ensures var init, last := rows[..|rows| - 1], rows[|rows| - 1];
            TotalFeedback(ApplyFeedback(rows, contentId, value))
              == TotalFeedback(ApplyFeedback(init, contentId, value)) + Bump(last, contentId, value).userFeedback
  {
    var init, last := rows[..|rows| - 1], rows[|rows| - 1];
    var a, b := ApplyFeedback(init, contentId, value), Bump(last, contentId, value);
    assert ApplyFeedback(rows, contentId, value) == a + [b];
    assert (a + [b])[..|a|] == a;
  }

  /** With increasing ids, at most one row carries a given id. */
  lemma {:induction false} IdAtMostOnce(rows: seq<Row>, nextId: nat, id: int)
    requires IdsIncreasing(rows, nextId)
    ensures CountId(rows, id) <= 1
    ensures CountId(rows, id) == 1 <==> exists x :: x in rows && x.id == id
    decreases |rows|
  {
    if rows != [] {
      var init, last := rows[..|rows| - 1], rows[|rows| - 1];
      assert IdsIncreasing(init, last.id);
      IdAtMostOnce(init, last.id, id);
      if exists x :: x in init && x.id == id {
        var x :| x in init && x.id == id;
        assert x.id < last.id;
      }
      assert forall x :: x in rows ==> x in init || x == last;
    }
  }

  /** Feedback changes `user_feedback` and nothing else, so the invariant survives. */
  lemma ApplyFeedbackKeepsInvariant(rows: seq<Row>, nextId: nat, contentId: int, value: int)
    requires TableInvariant(rows, nextId)
    ensures TableInvariant(ApplyFeedback(rows, contentId, value), nextId)
  {
  }

  // ---------------------------------------------------------------------
  // cleanup_old_data
  // ---------------------------------------------------------------------

  /** `DELETE FROM content WHERE date_scraped < cutoff`: the rows that remain. */
  function RecentRows(rows: seq<Row>, cutoff: int): (r: seq<Row>)
    ensures forall x :: x in r <==> x in rows && x.dateScraped >= cutoff
    ensures IsSubsequence(r, rows)
    decreases |rows|
  {
    if rows == [] then []
    else
      var init, last := rows[..|rows| - 1], rows[|rows| - 1];
      var s := RecentRows(init, cutoff);
      assert init + [last] == rows;
      if last.dateScraped >= cutoff then
        SubsequenceBoth(s, init, last);
        s + [last]
      else
        SubsequenceExtend(s, init, last);
        s
  }

  /** `DELETE FROM feedback WHERE timestamp < cutoff`: the feedback that remains. */
  function RecentFeedback(feedback: seq<Feedback>, cutoff: int): (r: seq<Feedback>)
    ensures forall x :: x in r <==> x in feedback && x.timestamp >= cutoff
    ensures IsSubsequence(r, feedback)
    decreases |feedback|
  {
    if feedback == [] then []
    else
      var init, last := feedback[..|feedback| - 1], feedback[|feedback| - 1];
      var s := RecentFeedback(init, cutoff);
      assert init + [last] == feedback;
      if last.timestamp >= cutoff then
        SubsequenceBoth(s, init, last);
        s + [last]
      else
        SubsequenceExtend(s, init, last);
        s
  }

  /** A kept prefix of older rows, then the newest row: the table invariant still holds. */
  lemma AppendNewestRow(kept: seq<Row>, rows: seq<Row>, nextId: nat)
    requires rows != [] && TableInvariant(rows, nextId) && TableInvariant(kept, nextId)
    requires forall x :: x in kept ==> x in rows[..|rows| - 1]
    ensures TableInvariant(kept + [rows[|rows| - 1]], nextId)
  {
    var init, last, r := rows[..|rows| - 1], rows[|rows| - 1], kept + [rows[|rows| - 1]];
    forall i, j | 0 <= i < j < |r|
      ensures r[i].article.url != r[j].article.url && r[i].id < r[j].id
    {
      if j == |kept| {
        assert r[i] == kept[i] && kept[i] in kept;
        var k :| 0 <= k < |init| && init[k] == r[i];
        assert rows[k] == r[i];
      }
    }
  }

  /** Deleting rows keeps URLs distinct and ids increasing. */
  lemma {:induction false} RecentRowsKeepInvariant(rows: seq<Row>, nextId: nat, cutoff: int)
    requires TableInvariant(rows, nextId)
    ensures TableInvariant(RecentRows(rows, cutoff), nextId)
    decreases |rows|
  {
    if rows != [] {
      var init := rows[..|rows| - 1];
      RecentRowsKeepInvariant(init, nextId, cutoff);
      if rows[|rows| - 1].dateScraped >= cutoff {
        AppendNewestRow(RecentRows(init, cutoff), rows, nextId);
      }
    }
  }

  /** A kept prefix of older feedback, then the newest entry: ids still increase. */
  lemma AppendNewestFeedback(kept: seq<Feedback>, feedback: seq<Feedback>, nextId: nat)
    requires feedback != [] && FeedbackIdsIncreasing(feedback, nextId) && FeedbackIdsIncreasing(kept, nextId)
    requires forall x :: x in kept ==> x in feedback[..|feedback| - 1]
    ensures FeedbackIdsIncreasing(kept + [feedback[|feedback| - 1]], nextId)
  {
    var init, r := feedback[..|feedback| - 1], kept + [feedback[|feedback| - 1]];
    forall i, j | 0 <= i < j < |r| ensures r[i].id < r[j].id {
      if j == |kept| {
        assert r[i] == kept[i] && kept[i] in kept;
        var k :| 0 <= k < |init| && init[k] == r[i];
        assert feedback[k] == r[i];
      }
    }
  }

  lemma {:induction false} RecentFeedbackKeepsIds(feedback: seq<Feedback>, nextId: nat, cutoff: int)
    requires FeedbackIdsIncreasing(feedback, nextId)
    ensures FeedbackIdsIncreasing(RecentFeedback(feedback, cutoff), nextId)
    decreases |feedback|
  {
    if feedback != [] {
      var init := feedback[..|feedback| - 1];
      RecentFeedbackKeepsIds(init, nextId, cutoff);
      if feedback[|feedback| - 1].timestamp >= cutoff {
        AppendNewestFeedback(RecentFeedback(init, cutoff), feedback, nextId);
      }
    }
  }

  // ---------------------------------------------------------------------
  // get_database_stats: tracked_vcs
  // ---------------------------------------------------------------------

  /** The distinct `vc_firm` values other than "Unknown". */
  function TrackedVcSet(rows: seq<Row>): (r: set<string>)
    ensures |r| <= |rows|
    ensures forall v :: v in r <==> v != "Unknown" && exists x :: x in rows && x.article.vcFirm == v
    decreases |rows|
  {
    if rows == [] then {}
    else
      var init, last := rows[..|rows| - 1], rows[|rows| - 1];
      assert forall x :: x in rows <==> x in init || x == last;
      TrackedVcSet(init) + (if last.article.vcFirm != "Unknown" then {last.article.vcFirm} else {})
  }

  /** `SELECT COUNT(DISTINCT vc_firm) FROM content WHERE vc_firm != 'Unknown'`. */
  function TrackedVcs(rows: seq<Row>): nat {
    |TrackedVcSet(rows)|
  }

  /** Adding rows never lowers the tracked-VC count. */
  lemma TrackedVcsGrow(rows: seq<Row>, more: seq<Row>)
    ensures TrackedVcs(rows) <= TrackedVcs(rows + more)
  {
    assert TrackedVcSet(rows) <= TrackedVcSet(rows + more) by {
      forall v | v in TrackedVcSet(rows) ensures v in TrackedVcSet(rows + more) {
        var x :| x in rows && x.article.vcFirm == v;
        assert x in rows + more;
      }
    }
    SubsetCardinality(TrackedVcSet(rows), TrackedVcSet(rows + more));
  }

  lemma SubsetCardinality(a: set<string>, b: set<string>)
    requires a <= b
    ensures |a| <= |b|
  {
    assert b == a + (b - a);
  }

  // ---------------------------------------------------------------------
  // The store
  // ---------------------------------------------------------------------

  /** The two tables `DataManager` writes, with their AUTOINCREMENT counters. */
  class ContentStore {
    var rows: seq<Row>
    var nextId: nat
    var feedback: seq<Feedback>
    var nextFeedbackId: nat

    ghost predicate Valid()
      reads this
    {
      TableInvariant(rows, nextId) && FeedbackIdsIncreasing(feedback, nextFeedbackId) && nextFeedbackId >= FirstId
    }

    /** `init_database` on a fresh file: both tables empty. */
    constructor ()
      ensures Valid()
      ensures rows == [] && feedback == [] && nextId == FirstId && nextFeedbackId == FirstId
    {
      rows := [];
      nextId := FirstId;
      feedback := [];
      nextFeedbackId := FirstId;
    }

    /**
     * `store_content`: insert-or-skip, one article at a time, returning the
     * number of rows added. `now` is the scrape time SQLite stamps on each row.
     */
    method StoreContent(batch: seq<Article>, now: int, rejects: Article -> bool) returns (storedCount: nat)
      requires Valid()
      modifies this
      ensures Valid()
      ensures (rows, nextId) == StoreAll(old(rows), old(nextId), batch, now, rejects)
      ensures storedCount == |rows| - |old(rows)|
      ensures batch == [] ==> rows == old(rows) && storedCount == 0
      ensures feedback == old(feedback) && nextFeedbackId == old(nextFeedbackId)
    {
      if batch == [] {
        return 0;
      }
      storedCount := 0;
      for i := 0 to |batch|
        invariant (rows, nextId) == StoreAll(old(rows), old(nextId), batch[..i], now, rejects)
        invariant storedCount == |rows| - |old(rows)|
        invariant TableInvariant(rows, nextId)
        invariant feedback == old(feedback) && nextFeedbackId == old(nextFeedbackId)
      {
        StoreAllStep(old(rows), old(nextId), batch[..i], batch[i], now, rejects);
        assert batch[..i + 1] == batch[..i] + [batch[i]];
        StoreAllGrows(old(rows), old(nextId), batch[..i], now, rejects);
        var content := batch[i];
        if content.url in UrlsOf(rows) {
          continue;
        }
        if rejects(content) {
          continue;
        }
        AppendKeepsInvariant(rows, nextId, content, now);
        rows := rows + [Row(nextId, content, now, 0)];
        nextId := nextId + 1;
        storedCount := storedCount + 1;
      }
      assert batch[..|batch|] == batch;
    }

    /** `get_filtered_content` on the current table. */
    function GetFilteredContent(f: Filter): (r: seq<Row>)
      reads this
      ensures r == FilteredContent(rows, f)
    {
      FilteredContent(rows, f)
    }

    /** `store_user_feedback`: one feedback row appended, one counter bumped. */
    method StoreUserFeedback(contentId: int, feedbackValue: int, now: int)
      requires Valid()
      modifies this
      ensures Valid()
      ensures feedback == old(feedback) + [Feedback(old(nextFeedbackId), contentId, "relevance", feedbackValue, now)]
      ensures nextFeedbackId == old(nextFeedbackId) + 1
      ensures rows == ApplyFeedback(old(rows), contentId, feedbackValue) && nextId == old(nextId)
    {
      feedback := feedback + [Feedback(nextFeedbackId, contentId, "relevance", feedbackValue, now)];
      nextFeedbackId := nextFeedbackId + 1;
      ApplyFeedbackKeepsInvariant(rows, nextId, contentId, feedbackValue);
      rows := ApplyFeedback(rows, contentId, feedbackValue);
    }

    /**
     * `cleanup_old_data`: drops content scraped before `cutoff` and feedback
     * given before it, and returns the number of feedback rows deleted.
     */
    method CleanupOldData(cutoff: int) returns (deletedCount: nat)
      requires Valid()
      modifies this
      ensures Valid()
      ensures rows == RecentRows(old(rows), cutoff) && nextId == old(nextId)
      ensures feedback == RecentFeedback(old(feedback), cutoff) && nextFeedbackId == old(nextFeedbackId)
      ensures deletedCount == |old(feedback)| - |feedback|
    {
      RecentRowsKeepInvariant(rows, nextId, cutoff);
      rows := RecentRows(rows, cutoff);
      var remaining := RecentFeedback(feedback, cutoff);
      SubsequenceMembers(remaining, feedback);
      RecentFeedbackKeepsIds(feedback, nextFeedbackId, cutoff);
      deletedCount := |feedback| - |remaining|;
      feedback := remaining;
    }

    /** `tracked_vcs` of `get_database_stats`. */
    function GetTrackedVcs(): (n: nat)
      reads this
      ensures n == |TrackedVcSet(rows)| && n <= |rows|
    {
      TrackedVcs(rows)
    }
  }
}
