/**
 * Keyset pagination: `list_jobs` of src/service/jobs.py against tables that change between
 * pages.  A page carries the sort keys of its rows.
 */
module Listing {
  import opened Prelude
  import opened Cursor
  import opened Calendar
  import opened Models
  import opened Protocol
  import opened Preservation

  // ---------------------------------------------------------------- the sort order

  datatype Key = Key(createdAt: Moment, id: JobId)

  predicate Earlier(a: DateTime, b: DateTime) {
    a.year < b.year || (a.year == b.year &&
    (a.month < b.month || (a.month == b.month &&
    (a.day < b.day || (a.day == b.day &&
    (a.hour < b.hour || (a.hour == b.hour && (a.minute < b.minute || (a.minute == b.minute &&
    (a.second < b.second || (a.second == b.second && a.microsecond < b.microsecond)))))))))))
  }

  /** `created_at < c OR (created_at = c AND id < i)` */
  predicate Below(a: Key, b: Key) {
    Earlier(a.createdAt, b.createdAt) || (a.createdAt == b.createdAt && a.id < b.id)
  }

  lemma BelowIsTotalOrder(a: Key, b: Key, c: Key)
    ensures !Below(a, a)
    ensures a == b || Below(a, b) || Below(b, a)
    ensures Below(a, b) && Below(b, c) ==> Below(a, c)
  {
  }

  lemma EarlierOnOneDay(a: Moment, b: Moment)
    requires SameDate(a, b)
    ensures Earlier(a, b) <==> MicrosecondOfDay(a) < MicrosecondOfDay(b)
  {
  }

  lemma EarlierIsInstant(a: Moment, b: Moment)
    ensures Earlier(a, b) <==> Instant(a) < Instant(b)
  {
    if SameDate(a, b) {
      SameDayFields(a, b);
      EarlierOnOneDay(a, b);
    } else if a.year < b.year || (a.year == b.year && (a.month < b.month || (a.month == b.month && a.day < b.day))) {
      LaterDateLaterDay(a, b);
      LaterDayLaterInstant(a, b);
    } else {
      LaterDateLaterDay(b, a);
      LaterDayLaterInstant(b, a);
    }
  }

  /** A key is below another when it is older, or as old and has the smaller id. */
  lemma BelowIsOlder(a: Key, b: Key)
    ensures Below(a, b) <==>
              Instant(a.createdAt) < Instant(b.createdAt)
              || (Instant(a.createdAt) == Instant(b.createdAt) && a.id < b.id)
  {
    EarlierIsInstant(a.createdAt, b.createdAt);
    InstantIsInjective(a.createdAt, b.createdAt);
  }

  /** Newest first, no key twice. */
  ghost predicate Descending(ks: seq<Key>) {
    forall i, j | 0 <= i < j < |ks| :: Below(ks[j], ks[i])
  }

  ghost predicate IsTop(k: Key, keys: set<Key>) {
    k in keys && forall other | other in keys && other != k :: Below(other, k)
  }

  lemma TopExists(keys: set<Key>)
    requires keys != {}
    ensures exists k :: IsTop(k, keys)
  {
    var k :| k in keys;
    if keys == {k} {
      assert IsTop(k, keys);
    } else {
      var rest := keys - {k};
      assert rest < keys;
      TopExists(rest);
      var m :| IsTop(m, rest);
      if Below(m, k) {
        forall other | other in keys && other != k ensures Below(other, k) {
          BelowIsTotalOrder(other, m, k);
        }
        assert IsTop(k, keys);
      } else {
        BelowIsTotalOrder(m, k, k);
        assert IsTop(m, keys);
      }
    }
  }

  /** ORDER BY created_at DESC, id DESC */
  ghost function Ordered(keys: set<Key>): (ks: seq<Key>)
    ensures forall k :: k in ks <==> k in keys
    ensures Descending(ks)
  {
    if keys == {} then []
    else
      TopExists(keys);
      var top :| IsTop(top, keys);
      [top] + Ordered(keys - {top})
  }

  lemma HeadIsNotInTail(ks: seq<Key>)
    requires Descending(ks) && ks != []
    ensures Descending(ks[1..]) && forall k :: k in ks[1..] <==> k in ks && k != ks[0]
  {
    BelowIsTotalOrder(ks[0], ks[0], ks[0]);
    forall k | k in ks && k != ks[0] ensures k in ks[1..] {
      var i :| 0 <= i < |ks| && ks[i] == k;
      assert ks[1..][i - 1] == k;
    }
  }

  lemma {:induction false} DescendingIsUnique(a: seq<Key>, b: seq<Key>)
    requires Descending(a) && Descending(b) && forall k :: k in a <==> k in b
    ensures a == b
  {
    if a == [] {
      assert forall i | 0 <= i < |b| :: b[i] in b;
    } else {
      assert a[0] in b && b[0] in a;
      BelowIsTotalOrder(a[0], b[0], a[0]);
      assert a[0] == b[0];
      HeadIsNotInTail(a);
      HeadIsNotInTail(b);
      DescendingIsUnique(a[1..], b[1..]);
      assert a == [a[0]] + a[1..] && b == [b[0]] + b[1..];
    }
  }

  // ------------------------------------------------------------------------ the query

  /** Rows with the requested status; all of them when none is requested. */
  ghost function Matching(db: Database, status: Option<JobStatus>): set<Key> {
    set id | id in db.jobs && (status.None? || db.jobs[id].status == status.value) :: Key(db.jobs[id].createdAt, id)
  }

  ghost function KeysBelow(keys: set<Key>, cursor: Key): set<Key> {
    set k | k in keys && Below(k, cursor)
  }

  datatype Page = Page(items: seq<Key>, next: Option<string>) {
    /** The last row of a page that is not empty. */
    function Last(): Key
      requires items != []
    {
      items[|items| - 1]
    }
  }

  /** `naive` says how the driver returned the timestamp; the cursor is the same either way. */
  function CursorOf(k: Key, naive: bool): string {
    EncodeCursor(if naive then Naive(k.createdAt) else Aware(k.createdAt), k.id)
  }

  /** LIMIT limit + 1, and the extra row tells whether there is another page. */
  function PageOf(rows: seq<Key>, limit: nat, naive: bool): Page {
    var fetched := if |rows| <= limit + 1 then rows else rows[..limit + 1];
    var hasMore := |fetched| > limit;
    var items := if hasMore then fetched[..limit] else fetched;
    Page(items, if hasMore && items != [] then Some(CursorOf(items[|items| - 1], naive)) else None)
  }

  /** list_jobs; `None` stands for the error on a malformed cursor. */
  ghost function ListJobs(db: Database, status: Option<JobStatus>, limit: nat, cursor: Option<string>, naive: bool):
    Option<Page>
  {
    if cursor.None? then Some(PageOf(Ordered(Matching(db, status)), limit, naive))
    else
      match DecodeCursor(cursor.value)
      case None => None
      case Some((createdAt, id)) =>
        Some(PageOf(Ordered(KeysBelow(Matching(db, status), Key(createdAt, id))), limit, naive))
  }

  // ------------------------------------------------------------------------- one page

  /**
   * The newest `limit` of `keys`, or all of them.  A page that has a successor is full and
   * everything it leaves out lies below its last row.
   */
  ghost predicate IsNewest(p: Page, limit: nat, keys: set<Key>) {
    |p.items| <= limit && Descending(p.items) && (forall k | k in p.items :: k in keys)
    && (p.next.None? ==> forall k | k in keys :: k in p.items)
    && (p.next.Some? ==> p.items != [] && |p.items| == limit && forall k | k in keys
        && k !in p.items :: Below(k, p.Last()))
  }

  lemma PageIsNewest(keys: set<Key>, rows: seq<Key>, limit: nat, naive: bool)
    requires limit >= 1 && Descending(rows) && forall k :: k in rows <==> k in keys
    ensures IsNewest(PageOf(rows, limit, naive), limit, keys)
  {
    var p := PageOf(rows, limit, naive);
    if p.next.Some? {
      assert p.items == rows[..limit] && rows == rows[..limit] + rows[limit..];
      forall k | k in keys && k !in p.items ensures Below(k, p.Last()) {
        var i :| limit <= i < |rows| && rows[i] == k;
      }
    } else {
      assert p.items == rows;
    }
  }

  /** The cursor a page ends with selects exactly the keys below the page's last row. */
  lemma CursorSelectsBelow(db: Database, status: Option<JobStatus>, limit: nat, k: Key, naive: bool)
    ensures ListJobs(db, status, limit, Some(CursorOf(k, naive)), naive)
            == Some(PageOf(Ordered(KeysBelow(Matching(db, status), k)), limit, naive))
  {
    CursorRoundTrip(if naive then Naive(k.createdAt) else Aware(k.createdAt), k.id);
  }

  /** A request is refused exactly when it carries a cursor that cannot be read; any row's cursor can. */
  lemma OnlyMalformedCursorsAreRefused(
    db: Database, status: Option<JobStatus>, limit: nat, cursor: Option<string>, naive: bool, k: Key)
    ensures ListJobs(db, status, limit, cursor, naive).None? <==> cursor.Some? && DecodeCursor(cursor.value).None?
    ensures cursor == Some(CursorOf(k, naive)) ==> ListJobs(db, status, limit, cursor, naive).Some?
  {
    CursorRoundTrip(if naive then Naive(k.createdAt) else Aware(k.createdAt), k.id);
  }

  /** The request asks for this row: its status is the one asked for, and it is older than the cursor's row. */
  ghost predicate Asked(db: Database, id: JobId, status: Option<JobStatus>, from: Option<(Moment, JobId)>) {
    id in db.jobs && (status.None? || db.jobs[id].status == status.value)
    && (from.None? || Instant(db.jobs[id].createdAt) < Instant(from.value.0)
        || (Instant(db.jobs[id].createdAt) == Instant(from.value.0) && id < from.value.1))
  }

  ghost function KeyOf(db: Database, id: JobId): Key
    requires id in db.jobs
  {
    Key(db.jobs[id].createdAt, id)
  }

  ghost function Candidates(db: Database, status: Option<JobStatus>, from: Option<(Moment, JobId)>): set<Key> {
    if from.None? then Matching(db, status)
    else KeysBelow(Matching(db, status), Key(from.value.0, from.value.1))
  }

  lemma CandidatesAreAsked(db: Database, status: Option<JobStatus>, from: Option<(Moment, JobId)>, k: Key)
    ensures k in Candidates(db, status, from) <==> Asked(db, k.id, status, from) && k == KeyOf(db, k.id)
  {
    if from.Some? {
      BelowIsOlder(k, Key(from.value.0, from.value.1));
    }
  }

  lemma PageHasMore(keys: set<Key>, rows: seq<Key>, limit: nat, naive: bool)
    requires limit >= 1 && Descending(rows) && forall k :: k in rows <==> k in keys
    ensures var p := PageOf(rows, limit, naive);
            p.next.Some? ==>
              p.items != [] && p.next == Some(CursorOf(p.Last(), naive)) && exists k :: k in keys && k !in p.items
  {
    var p := PageOf(rows, limit, naive);
    if p.next.Some? {
      assert p.items == rows[..limit];
      var k := rows[limit];
      BelowIsTotalOrder(k, k, k);
      assert k in keys && k !in p.items;
    }
  }

  lemma ListedPage(
    db: Database, status: Option<JobStatus>, limit: nat, cursor: Option<string>, naive: bool, page: Page,
    from: Option<(Moment, JobId)>)
    requires limit >= 1 && ListJobs(db, status, limit, cursor, naive) == Some(page)
    requires from == if cursor.None? then None else DecodeCursor(cursor.value)
    ensures IsNewest(page, limit, Candidates(db, status, from))
    ensures page.next.Some? ==>
              page.next == Some(CursorOf(page.Last(), naive))
              && exists k :: k in Candidates(db, status, from) && k !in page.items
  {
    var keys := Candidates(db, status, from);
    PageIsNewest(keys, Ordered(keys), limit, naive);
    PageHasMore(keys, Ordered(keys), limit, naive);
  }

  ghost predicate IsOlder(a: Key, b: Key) {
    Instant(a.createdAt) < Instant(b.createdAt) || (Instant(a.createdAt) == Instant(b.createdAt) && a.id < b.id)
  }

  /** A later row is never newer than an earlier one, nor as old with a larger id. */
  ghost predicate NewestFirst(ks: seq<Key>) {
    forall m, n | 0 <= m < n < |ks| :: IsOlder(ks[n], ks[m])
  }

  lemma DescendingIsNewestFirst(ks: seq<Key>)
    ensures Descending(ks) <==> NewestFirst(ks)
  {
    forall m, n | 0 <= m < n < |ks| ensures Below(ks[n], ks[m]) <==> IsOlder(ks[n], ks[m]) {
      BelowIsOlder(ks[n], ks[m]);
    }
    assert Descending(ks) ==> NewestFirst(ks);
    assert NewestFirst(ks) ==> Descending(ks);
  }

  /** `keys` are the keys of the rows asked for. */
  ghost predicate AreTheAsked(
    keys: set<Key>, db: Database, status: Option<JobStatus>, from: Option<(Moment, JobId)>)
  {
    forall k :: k in keys <==> Asked(db, k.id, status, from) && k == KeyOf(db, k.id)
  }

  lemma ShownIsAsked(
    db: Database, status: Option<JobStatus>, from: Option<(Moment, JobId)>, page: Page, limit: nat)
    requires IsNewest(page, limit, Candidates(db, status, from))
    requires AreTheAsked(Candidates(db, status, from), db, status, from)
    ensures forall n | 0 <= n < |page.items| ::
              Asked(db, page.items[n].id, status, from) && page.items[n] == KeyOf(db, page.items[n].id)
    ensures page.next.None? ==> forall id | Asked(db, id, status, from) :: KeyOf(db, id) in page.items
  {
    forall n | 0 <= n < |page.items|
      ensures Asked(db, page.items[n].id, status, from) && page.items[n] == KeyOf(db, page.items[n].id)
    {
      assert page.items[n] in page.items;
    }
    forall id | Asked(db, id, status, from) ensures KeyOf(db, id) in Candidates(db, status, from) {
      assert KeyOf(db, id).id == id;
    }
  }

  lemma LeftOutIsOlder(
    db: Database, status: Option<JobStatus>, from: Option<(Moment, JobId)>, page: Page, limit: nat)
    requires IsNewest(page, limit, Candidates(db, status, from)) && page.next.Some?
    requires AreTheAsked(Candidates(db, status, from), db, status, from)
    requires exists k :: k in Candidates(db, status, from) && k !in page.items
    ensures forall id | Asked(db, id, status, from) && KeyOf(db, id) !in page.items ::
              IsOlder(KeyOf(db, id), page.Last())
    ensures exists id :: Asked(db, id, status, from) && KeyOf(db, id) !in page.items
  {
    forall id | Asked(db, id, status, from) && KeyOf(db, id) !in page.items
      ensures IsOlder(KeyOf(db, id), page.Last())
    {
      assert KeyOf(db, id).id == id && KeyOf(db, id) in Candidates(db, status, from);
      BelowIsOlder(KeyOf(db, id), page.Last());
    }
    var k :| k in Candidates(db, status, from) && k !in page.items;
    assert Asked(db, k.id, status, from) && KeyOf(db, k.id) !in page.items;
  }

  /**
   * What a page shows: rows that were asked for, newest first and by falling id among equally
   * old ones, at most `limit`; all of them when there is no next page, and otherwise `limit`
   * of them, none older than any left out, some left out, and a cursor that is the last row's.
   */
  lemma PageIsNewestFirst(
    db: Database, status: Option<JobStatus>, limit: nat, cursor: Option<string>, naive: bool, page: Page,
    from: Option<(Moment, JobId)>)
    requires limit >= 1 && ListJobs(db, status, limit, cursor, naive) == Some(page)
    requires from == if cursor.None? then None else DecodeCursor(cursor.value)
    ensures |page.items| <= limit && (page.next.Some? ==> |page.items| == limit)
    ensures forall n | 0 <= n < |page.items| ::
              Asked(db, page.items[n].id, status, from) && page.items[n] == KeyOf(db, page.items[n].id)
    ensures NewestFirst(page.items)
    ensures page.next.None? ==> forall id | Asked(db, id, status, from) :: KeyOf(db, id) in page.items
    ensures page.next.Some? ==>
              (forall id | Asked(db, id, status, from) && KeyOf(db, id) !in page.items ::
                 IsOlder(KeyOf(db, id), page.Last()))
              && (exists id :: Asked(db, id, status, from) && KeyOf(db, id) !in page.items)
              && DecodeCursor(page.next.value) == Some((page.Last().createdAt, page.Last().id))
  {
    ListedPage(db, status, limit, cursor, naive, page, from);
    var keys := Candidates(db, status, from);
    assert AreTheAsked(keys, db, status, from) by {
      forall k ensures k in keys <==> Asked(db, k.id, status, from) && k == KeyOf(db, k.id) {
        CandidatesAreAsked(db, status, from, k);
      }
    }
    DescendingIsNewestFirst(page.items);
    ShownIsAsked(db, status, from, page, limit);
    if page.next.Some? {
      LeftOutIsOlder(db, status, from, page, limit);
      CursorRoundTrip(if naive then Naive(page.Last().createdAt) else Aware(page.Last().createdAt), page.Last().id);
    }
  }

  // -------------------------------------------------------------------------- the walk

  ghost predicate Follows(
    db: Database, status: Option<JobStatus>, limit: nat, naive: bool, previous: Page, page: Page)
  {
    previous.next.Some? && ListJobs(db, status, limit, previous.next, naive) == Some(page)
  }

  /**
   * A client follows the cursor: page n is read from table dbs[n] with the cursor page n - 1
   * returned.  Nothing is assumed about how one table relates to the next.
   */
  ghost predicate IsWalk(
    dbs: seq<Database>, status: Option<JobStatus>, limit: nat, naive: bool, pages: seq<Page>)
  {
    |pages| == |dbs| > 0
    && ListJobs(dbs[0], status, limit, None, naive) == Some(pages[0])
    && forall n | 0 < n < |pages| :: Follows(dbs[n], status, limit, naive, pages[n - 1], pages[n])
  }

  ghost function MatchingAt(dbs: seq<Database>, status: Option<JobStatus>): (ms: seq<set<Key>>)
    ensures |ms| == |dbs| && forall n | 0 <= n < |ms| :: ms[n] == Matching(dbs[n], status)
  {
    seq(|dbs|, n requires 0 <= n < |dbs| => Matching(dbs[n], status))
  }

  /** Page n holds the newest of `ms[n]`, below the last row of the page before. */
  ghost predicate PageFits(ms: seq<set<Key>>, pages: seq<Page>, limit: nat, n: nat)
    requires n < |ms| == |pages|
  {
    if n == 0 then IsNewest(pages[0], limit, ms[0])
    else
      pages[n - 1].next.Some? && pages[n - 1].items != []
      && IsNewest(pages[n], limit, KeysBelow(ms[n], pages[n - 1].Last()))
  }

  /** A walk without cursors and tables: what its pages show of the keys there were to see. */
  ghost predicate IsTrail(ms: seq<set<Key>>, pages: seq<Page>, limit: nat) {
    limit >= 1 && |ms| == |pages| && forall n | 0 <= n < |pages| :: PageFits(ms, pages, limit, n)
  }

  lemma FollowsLastRow(
    db: Database, status: Option<JobStatus>, limit: nat, naive: bool, rows: seq<Key>, previous: Page, page: Page)
    requires limit >= 1 && previous == PageOf(rows, limit, naive) && Follows(db, status, limit, naive, previous, page)
    ensures previous.items != []
            && page == PageOf(Ordered(KeysBelow(Matching(db, status), previous.Last())), limit, naive)
  {
    CursorSelectsBelow(db, status, limit, previous.Last(), naive);
  }

  /** The sorted rows page n was cut from. */
  lemma {:induction false} RowsOfPage(
    dbs: seq<Database>, status: Option<JobStatus>, limit: nat, naive: bool, pages: seq<Page>, n: nat)
    returns (rows: seq<Key>)
    requires limit >= 1 && IsWalk(dbs, status, limit, naive, pages) && n < |pages|
    ensures pages[n] == PageOf(rows, limit, naive)
    ensures n == 0 ==> rows == Ordered(Matching(dbs[0], status))
    ensures n > 0 ==> pages[n - 1].next.Some? && pages[n - 1].items != []
                      && rows == Ordered(KeysBelow(Matching(dbs[n], status), pages[n - 1].Last()))
  {
    if n == 0 {
      rows := Ordered(Matching(dbs[0], status));
    } else {
      var before := RowsOfPage(dbs, status, limit, naive, pages, n - 1);
      assert Follows(dbs[n], status, limit, naive, pages[n - 1], pages[n]);
      FollowsLastRow(dbs[n], status, limit, naive, before, pages[n - 1], pages[n]);
      rows := Ordered(KeysBelow(Matching(dbs[n], status), pages[n - 1].Last()));
    }
  }

  lemma WalkIsTrail(dbs: seq<Database>, status: Option<JobStatus>, limit: nat, naive: bool, pages: seq<Page>)
    requires limit >= 1 && IsWalk(dbs, status, limit, naive, pages)
    ensures IsTrail(MatchingAt(dbs, status), pages, limit)
  {
    var ms := MatchingAt(dbs, status);
    forall n | 0 <= n < |pages| ensures PageFits(ms, pages, limit, n) {
      var rows := RowsOfPage(dbs, status, limit, naive, pages, n);
      PageIsNewest(if n == 0 then ms[0] else KeysBelow(ms[n], pages[n - 1].Last()), rows, limit, naive);
    }
  }

  /** Everything the first `n` pages show, in order. */
  function Shown(pages: seq<Page>, n: nat): seq<Key>
    requires n <= |pages|
  {
    if n == 0 then [] else Shown(pages, n - 1) + pages[n - 1].items
  }

  // ------------------------------------------------------------ what a trail has shown

  ghost predicate NoneBelow(ks: seq<Key>, last: Key) {
    forall k | k in ks :: k == last || Below(last, k)
  }

  lemma JoinDescends(a: seq<Key>, b: seq<Key>, pivot: Key)
    requires Descending(a) && Descending(b) && NoneBelow(a, pivot)
    requires forall k | k in b :: Below(k, pivot)
    ensures Descending(a + b)
  {
    forall i, j | 0 <= i < j < |a + b| ensures Below((a + b)[j], (a + b)[i]) {
      if i < |a| <= j {
        assert a[i] in a && b[j - |a|] in b;
        BelowIsTotalOrder(b[j - |a|], pivot, a[i]);
      }
    }
  }

  lemma LastIsLowest(ks: seq<Key>)
    requires Descending(ks) && ks != []
    ensures NoneBelow(ks, ks[|ks| - 1])
  {
  }

  /** The walk is strictly descending: it never shows a job twice and never goes back. */
  lemma {:induction false} TrailDescends(ms: seq<set<Key>>, pages: seq<Page>, limit: nat, n: nat)
    requires IsTrail(ms, pages, limit) && n <= |pages|
    ensures Descending(Shown(pages, n))
    ensures 0 < n < |pages| ==> pages[n - 1].items != [] && NoneBelow(Shown(pages, n), pages[n - 1].Last())
  {
    if n > 0 {
      TrailDescends(ms, pages, limit, n - 1);
      var shown, items := Shown(pages, n - 1), pages[n - 1].items;
      assert PageFits(ms, pages, limit, n - 1);
      if n == 1 {
        assert Shown(pages, 1) == items;
      } else {
        JoinDescends(shown, items, pages[n - 2].Last());
      }
      if n < |pages| {
        assert PageFits(ms, pages, limit, n);
        LastIsLowest(shown + items);
      }
    }
  }

  /** A key that matched at every page is on one of the first `n` pages, or still lies below them. */
  lemma {:induction false} ShownOrBelow(ms: seq<set<Key>>, pages: seq<Page>, limit: nat, n: nat, k: Key)
    requires IsTrail(ms, pages, limit) && 0 < n <= |pages|
    requires forall m | 0 <= m < n :: k in ms[m]
    ensures k in Shown(pages, n) || (pages[n - 1].next.Some? && pages[n - 1].items != []
        && Below(k, pages[n - 1].Last()))
  {
    assert PageFits(ms, pages, limit, n - 1);
    if n > 1 {
      ShownOrBelow(ms, pages, limit, n - 1, k);
    }
  }

  /** Nothing is shown that did not match when its page was read. */
  lemma {:induction false} ShownMatched(ms: seq<set<Key>>, pages: seq<Page>, limit: nat, n: nat, k: Key)
    requires IsTrail(ms, pages, limit) && n <= |pages| && k in Shown(pages, n)
    ensures exists m | 0 <= m < n :: k in ms[m]
  {
    assert PageFits(ms, pages, limit, n - 1);
    if k !in pages[n - 1].items {
      ShownMatched(ms, pages, limit, n - 1, k);
    } else {
      assert k in ms[n - 1];
    }
  }

  lemma {:induction false} FullPages(ms: seq<set<Key>>, pages: seq<Page>, limit: nat, n: nat)
    requires IsTrail(ms, pages, limit) && n <= |pages| && (n > 0 ==> pages[n - 1].next.Some?)
    ensures |Shown(pages, n)| == n * limit
  {
    if n > 0 {
      assert PageFits(ms, pages, limit, n - 1);
      FullPages(ms, pages, limit, n - 1);
      assert n * limit == (n - 1) * limit + limit;
    }
  }

  lemma {:induction false} DescendingHasNoRepeats(ks: seq<Key>, k: Key)
    requires Descending(ks)
    ensures multiset(ks)[k] == if k in ks then 1 else 0
  {
    if ks != [] {
      HeadIsNotInTail(ks);
      DescendingHasNoRepeats(ks[1..], k);
      assert ks == [ks[0]] + ks[1..];
    }
  }

  lemma {:induction false} DescendingFitsIn(ks: seq<Key>, keys: set<Key>)
    requires Descending(ks) && forall k | k in ks :: k in keys
    ensures |ks| <= |keys|
  {
    if ks != [] {
      HeadIsNotInTail(ks);
      assert ks[0] in keys;
      DescendingFitsIn(ks[1..], keys - {ks[0]});
    }
  }

  // -------------------------------------------------------------------- main results

  /** The rows asked for without a cursor, spelled out. */
  lemma MatchingIsAsked(db: Database, status: Option<JobStatus>, k: Key)
    ensures k in Matching(db, status) <==>
              k.id in db.jobs && k.createdAt == db.jobs[k.id].createdAt
              && (status.None? || db.jobs[k.id].status == status.value)
  {
  }

  /** Whatever happens to the table between pages, a walk is strictly descending and repeats nothing. */
  lemma WalkDescends(
    dbs: seq<Database>, status: Option<JobStatus>, limit: nat, naive: bool, pages: seq<Page>, k: Key)
    requires limit >= 1 && IsWalk(dbs, status, limit, naive, pages)
    ensures NewestFirst(Shown(pages, |pages|))
    ensures multiset(Shown(pages, |pages|))[k] <= 1
    ensures k in Shown(pages, |pages|) ==>
              exists m | 0 <= m < |dbs| ::
                k.id in dbs[m].jobs && k.createdAt == dbs[m].jobs[k.id].createdAt
                && (status.None? || dbs[m].jobs[k.id].status == status.value)
  {
    var ms, shown := MatchingAt(dbs, status), Shown(pages, |pages|);
    WalkIsTrail(dbs, status, limit, naive, pages);
    TrailDescends(ms, pages, limit, |pages|);
    DescendingIsNewestFirst(shown);
    DescendingHasNoRepeats(shown, k);
    if k in shown {
      ShownMatched(ms, pages, limit, |pages|, k);
      var m :| 0 <= m < |pages| && k in ms[m];
      MatchingIsAsked(dbs[m], status, k);
    }
  }

  lemma TrailMissesNothing(ms: seq<set<Key>>, pages: seq<Page>, limit: nat, k: Key)
    requires IsTrail(ms, pages, limit) && |pages| > 0 && pages[|pages| - 1].next.None?
    requires forall m | 0 <= m < |ms| :: k in ms[m]
    ensures multiset(Shown(pages, |pages|))[k] == 1
  {
    ShownOrBelow(ms, pages, limit, |pages|, k);
    TrailDescends(ms, pages, limit, |pages|);
    DescendingHasNoRepeats(Shown(pages, |pages|), k);
  }

  /** A walk that reached its end showed every job that matched at every page read, exactly once. */
  lemma CompleteWalkMissesNothing(
    dbs: seq<Database>, status: Option<JobStatus>, limit: nat, naive: bool, pages: seq<Page>, k: Key)
    requires limit >= 1 && IsWalk(dbs, status, limit, naive, pages) && pages[|pages| - 1].next.None?
    requires forall m | 0 <= m < |dbs| ::
               k.id in dbs[m].jobs && k.createdAt == dbs[m].jobs[k.id].createdAt
               && (status.None? || dbs[m].jobs[k.id].status == status.value)
    ensures multiset(Shown(pages, |pages|))[k] == 1
  {
    var ms := MatchingAt(dbs, status);
    WalkIsTrail(dbs, status, limit, naive, pages);
    forall m | 0 <= m < |ms| ensures k in ms[m] {
      MatchingIsAsked(dbs[m], status, k);
    }
    TrailMissesNothing(ms, pages, limit, k);
  }

  lemma FixedTrailShowsAll(keys: set<Key>, ms: seq<set<Key>>, pages: seq<Page>, limit: nat, k: Key)
    requires IsTrail(ms, pages, limit) && |pages| > 0 && pages[|pages| - 1].next.None?
    requires forall m | 0 <= m < |ms| :: ms[m] == keys
    ensures k in Shown(pages, |pages|) <==> k in keys
  {
    if k in Shown(pages, |pages|) {
      ShownMatched(ms, pages, limit, |pages|, k);
    }
    if k in keys {
      ShownOrBelow(ms, pages, limit, |pages|, k);
    }
  }

  /** On a table that does not change the pages concatenate to the whole sorted list. */
  lemma FixedWalkIsTheWholeList(
    db: Database, n: nat, status: Option<JobStatus>, limit: nat, naive: bool, pages: seq<Page>)
    requires limit >= 1 && IsWalk(seq(n, _ => db), status, limit, naive, pages) && pages[|pages| - 1].next.None?
    ensures Shown(pages, |pages|) == Ordered(Matching(db, status)) && NewestFirst(Shown(pages, |pages|))
    ensures forall k :: k in Shown(pages, |pages|) <==>
              k.id in db.jobs && k.createdAt == db.jobs[k.id].createdAt
              && (status.None? || db.jobs[k.id].status == status.value)
  {
    var dbs, keys := seq(n, _ => db), Matching(db, status);
    var ms, shown := MatchingAt(dbs, status), Shown(pages, |pages|);
    WalkIsTrail(dbs, status, limit, naive, pages);
    TrailDescends(ms, pages, limit, |pages|);
    forall k ensures k in shown <==> k in keys {
      FixedTrailShowsAll(keys, ms, pages, limit, k);
    }
    DescendingIsUnique(shown, Ordered(keys));
    DescendingIsNewestFirst(shown);
    forall k ensures k in keys <==> k.id in db.jobs && k.createdAt == db.jobs[k.id].createdAt
                                    && (status.None? || db.jobs[k.id].status == status.value) {
      MatchingIsAsked(db, status, k);
    }
  }

  /** ... and the walk stops: pages with a successor are full of different jobs. */
  lemma FixedWalkIsShort(
    db: Database, n: nat, status: Option<JobStatus>, limit: nat, naive: bool, pages: seq<Page>)
    requires limit >= 1 && IsWalk(seq(n, _ => db), status, limit, naive, pages) && pages[|pages| - 1].next.Some?
    ensures n * limit <= |Matching(db, status)|
  {
    var dbs := seq(n, _ => db);
    var ms, shown := MatchingAt(dbs, status), Shown(pages, |pages|);
    WalkIsTrail(dbs, status, limit, naive, pages);
    FullPages(ms, pages, limit, |pages|);
    TrailDescends(ms, pages, limit, |pages|);
    forall k | k in shown ensures k in Matching(db, status) {
      ShownMatched(ms, pages, limit, |pages|, k);
    }
    DescendingFitsIn(shown, Matching(db, status));
  }

  lemma JobsKeepTheirKey(r: Run, i: nat, j: nat, id: JobId)
    requires r.Valid() && i <= j < |r.states| && id in r.states[i].db.jobs
    ensures id in r.states[j].db.jobs && r.states[j].db.jobs[id].createdAt == r.states[i].db.jobs[id].createdAt
  {
    RunEvolves(r, i, j);
  }

  /**
   * While submitters, workers, cancels and the reaper keep going, an unfiltered walk shows
   * every job that existed when the first page was read exactly once.
   */
  lemma WalkDuringARun(
    r: Run, at: seq<nat>, dbs: seq<Database>, limit: nat, naive: bool, pages: seq<Page>, id: JobId)
    requires r.Valid() && limit >= 1 && |at| == |dbs| && IsWalk(dbs, None, limit, naive, pages)
    requires pages[|pages| - 1].next.None?
    requires forall m | 0 <= m < |at| :: at[0] <= at[m] < |r.states| && dbs[m] == r.states[at[m]].db
    requires id in dbs[0].jobs
    ensures multiset(Shown(pages, |pages|))[Key(dbs[0].jobs[id].createdAt, id)] == 1
  {
    forall m | 0 <= m < |dbs|
      ensures id in dbs[m].jobs && dbs[m].jobs[id].createdAt == dbs[0].jobs[id].createdAt
    {
      JobsKeepTheirKey(r, at[0], at[m], id);
    }
    CompleteWalkMissesNothing(dbs, None, limit, naive, pages, Key(dbs[0].jobs[id].createdAt, id));
  }
}
