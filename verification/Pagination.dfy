/**
 Cursor pagination: the server's page query and the device's pull loop, while jobs are created and
 soft-deleted between the pages.
 */
module Pagination {
  import opened Basics

  datatype Row = Row(id: JobId, createdAt: int)

  /** One user's rows in (createdAt, id) descending order, and the ids soft-deleted so far. */
  datatype Snapshot = Snapshot(rows: seq<Row>, deleted: set<JobId>)

  /** The state the n-th request finds. */
  type Server = nat -> Snapshot

  predicate Before(a: Row, b: Row) {
    a.createdAt > b.createdAt || (a.createdAt == b.createdAt && a.id > b.id)
  }

  ghost predicate Ordered(rows: seq<Row>) {
    forall i, j | 0 <= i < j < |rows| :: Before(rows[i], rows[j])
  }

  ghost predicate DistinctIds(rows: seq<Row>) {
    forall i, j | 0 <= i < j < |rows| :: rows[i].id != rows[j].id
  }

  /** Nothing is undeleted. */
  predicate NoneBack(s: Snapshot, s': Snapshot) {
    s.deleted <= s'.deleted
  }

  ghost predicate Monotone(server: Server) {
    forall m: nat, n: nat {:trigger NoneBack(server(m), server(n))} | m <= n :: NoneBack(server(m), server(n))
  }

  /** Jobs created since are newer than all before, so they come in front. */
  ghost predicate Extends(s: Snapshot, s': Snapshot) {
    && Ordered(s'.rows) && DistinctIds(s'.rows)
    && |s.rows| <= |s'.rows| && s'.rows[|s'.rows| - |s.rows|..] == s.rows
  }

  ghost predicate Evolves(server: Server) {
    && Ordered(server(0).rows) && DistinctIds(server(0).rows) && Monotone(server)
    && forall k: nat {:trigger Extends(server(0), server(k))} :: Extends(server(0), server(k))
  }

  function Visible(rows: seq<Row>, deleted: set<JobId>): seq<Row> {
    if rows == [] then []
    else (if rows[0].id in deleted then [] else [rows[0]]) + Visible(rows[1..], deleted)
  }

  function Take(rows: seq<Row>, limit: nat): seq<Row> {
    if |rows| <= limit then rows else rows[..limit]
  }

  function From(rows: seq<Row>, id: JobId): (r: seq<Row>)
    ensures r == [] || r[0].id == id
    ensures |r| <= |rows| && r == rows[|rows| - |r|..]
  {
    if rows == [] || rows[0].id == id then rows else From(rows[1..], id)
  }

  function Behind(rows: seq<Row>): seq<Row> {
    if rows == [] then [] else rows[1..]
  }

  /** What follows the cursor: the visible rows at or after its position, less the first of them. */
  function AfterCursor(tail: seq<Row>, deleted: set<JobId>): seq<Row> {
    Behind(Visible(tail, deleted))
  }

  /** listScoped. */
  function Page(s: Snapshot, cursor: Option<JobId>, limit: nat): seq<Row> {
    match cursor
    case None => Take(Visible(s.rows, s.deleted), limit)
    case Some(id) => Take(AfterCursor(From(s.rows, id), s.deleted), limit)
  }

  /** list: the cursor of the next page. */
  function NextCursor(page: seq<Row>, limit: nat): Option<JobId>
    requires limit >= 1
  {
    if |page| == limit then Some(page[|page| - 1].id) else None
  }

  // ---- the pull as a function of the rows behind the cursor ----

  lemma {:induction false} VisibleSound(rows: seq<Row>, deleted: set<JobId>)
    ensures |Visible(rows, deleted)| <= |rows|
    ensures forall x :: x in Visible(rows, deleted) <==> x in rows && x.id !in deleted
  {
    if rows != [] {
      VisibleSound(rows[1..], deleted);
      assert rows == [rows[0]] + rows[1..];
    }
  }

  lemma SliceShift<T>(xs: seq<T>, j: nat)
    requires 0 < |xs| && j <= |xs| - 1
    ensures xs[1..][j..] == xs[j + 1..]
  {
  }

  lemma SliceCons<T>(x: T, xs: seq<T>, m: nat)
    requires 0 < m <= |xs|
    ensures ([x] + xs)[m..] == xs[m - 1..]
  {
  }

  /** rows[j] is the m-th visible row, and what is visible from it on is what follows in the visible list. */
  ghost predicate IsVisibleAt(rows: seq<Row>, deleted: set<JobId>, m: nat, j: nat) {
    && m < |Visible(rows, deleted)| && m <= j < |rows| && rows[j] == Visible(rows, deleted)[m]
    && Visible(rows[j..], deleted) == Visible(rows, deleted)[m..]
  }

  lemma AfterSkipped(rows: seq<Row>, deleted: set<JobId>, m: nat, k: nat)
    requires rows != [] && rows[0].id in deleted && IsVisibleAt(rows[1..], deleted, m, k)
    ensures IsVisibleAt(rows, deleted, m, k + 1)
  {
    SliceShift(rows, k);
  }

  lemma AfterTaken(rows: seq<Row>, deleted: set<JobId>, m: nat, k: nat)
    requires rows != [] && rows[0].id !in deleted && IsVisibleAt(rows[1..], deleted, m, k)
    ensures IsVisibleAt(rows, deleted, m + 1, k + 1)
  {
    SliceShift(rows, k);
    SliceCons(rows[0], Visible(rows[1..], deleted), m + 1);
  }

  lemma {:induction false} VisibleAt(rows: seq<Row>, deleted: set<JobId>, m: nat) returns (j: nat)
    requires m < |Visible(rows, deleted)|
    ensures IsVisibleAt(rows, deleted, m, j)
    decreases |rows|
  {
    if rows[0].id in deleted {
      var k := VisibleAt(rows[1..], deleted, m);
      AfterSkipped(rows, deleted, m, k);
      j := k + 1;
    } else if m == 0 {
      assert rows[0..] == rows;
      j := 0;
    } else {
      var k := VisibleAt(rows[1..], deleted, m - 1);
      AfterTaken(rows, deleted, m - 1, k);
      j := k + 1;
    }
  }

  lemma {:induction false} FromAt(rows: seq<Row>, j: nat)
    requires DistinctIds(rows) && j < |rows|
    ensures From(rows, rows[j].id) == rows[j..]
    decreases j
  {
    if j > 0 {
      assert rows[0].id != rows[j].id;
      FromAt(rows[1..], j - 1);
    }
  }

  /** Cutting the rows at one that is visible cuts the visible rows at the same row. */
  lemma VisibleFrom(rows: seq<Row>, deleted: set<JobId>, m: nat)
    requires DistinctIds(rows) && m < |Visible(rows, deleted)|
    ensures var tail := From(rows, Visible(rows, deleted)[m].id);
      && tail != [] && tail[0] == Visible(rows, deleted)[m] && |tail| <= |rows| - m
      && Visible(tail, deleted) == Visible(rows, deleted)[m..]
  {
    var j := VisibleAt(rows, deleted, m);
    FromAt(rows, j);
  }

  /** The rows from the last of a full page on: its visible rows are the rest of the list, cursor first. */
  lemma FullPage(tail: seq<Row>, deleted: set<JobId>, limit: nat)
    requires DistinctIds(tail) && limit >= 1 && |Take(AfterCursor(tail, deleted), limit)| == limit
    ensures var page := Take(AfterCursor(tail, deleted), limit);
      var next := From(tail, page[limit - 1].id);
      && next != [] && next[0] == page[limit - 1] && |next| < |tail| && DistinctIds(next)
      && next == tail[|tail| - |next|..]
      && Visible(next, deleted) == Visible(tail, deleted)[limit..]
  {
    var v := Visible(tail, deleted);
    var page := Take(AfterCursor(tail, deleted), limit);
    assert page[limit - 1] == v[limit];
    VisibleFrom(tail, deleted, limit);
  }

  /** The pages pulled from the k-th request on, when tail starts at the cursor. */
  function Rest(server: Server, tail: seq<Row>, k: nat, limit: nat): seq<Row>
    requires limit >= 1 && DistinctIds(tail)
    decreases |tail|
  {
    var page := Take(AfterCursor(tail, server(k).deleted), limit);
    if |page| < limit then page
    else
      FullPage(tail, server(k).deleted, limit);
      page + Rest(server, From(tail, page[limit - 1].id), k + 1, limit)
  }

  /** The number of requests that makes. */
  function Requests(server: Server, tail: seq<Row>, k: nat, limit: nat): nat
    requires limit >= 1 && DistinctIds(tail)
    decreases |tail|
  {
    var page := Take(AfterCursor(tail, server(k).deleted), limit);
    if |page| < limit then 1
    else
      FullPage(tail, server(k).deleted, limit);
      1 + Requests(server, From(tail, page[limit - 1].id), k + 1, limit)
  }

  /** The row a page skips in place of its cursor, when the cursor itself is no longer visible. */
  function Here(tail: seq<Row>, deleted: set<JobId>): seq<Row>
    requires tail != []
  {
    if tail[0].id in deleted then Take(Visible(tail, deleted), 1) else []
  }

  /** The rows a pull skips that way, page after page. */
  function Lost(server: Server, tail: seq<Row>, k: nat, limit: nat): seq<Row>
    requires limit >= 1 && DistinctIds(tail) && tail != []
    decreases |tail|
  {
    var deleted := server(k).deleted;
    var page := Take(AfterCursor(tail, deleted), limit);
    if |page| < limit then Here(tail, deleted)
    else
      FullPage(tail, deleted, limit);
      Here(tail, deleted) + Lost(server, From(tail, page[limit - 1].id), k + 1, limit)
  }

  // ---- behind one cursor ----

  /** Every pulled or lost row is one behind the cursor. */
  lemma {:induction false} RestFromTail(server: Server, tail: seq<Row>, k: nat, limit: nat, x: Row)
    requires limit >= 1 && DistinctIds(tail) && tail != []
    ensures x in Rest(server, tail, k, limit) ==> x in tail[1..]
    ensures x in Lost(server, tail, k, limit) ==> x in tail[1..]
    decreases |tail|
  {
    var deleted := server(k).deleted;
    var page := Take(AfterCursor(tail, deleted), limit);
    VisibleTail(tail, deleted);
    if |page| == limit {
      FullPage(tail, deleted, limit);
      var next := From(tail, page[limit - 1].id);
      RestFromTail(server, next, k + 1, limit, x);
      assert next[1..] == tail[1..][|tail| - |next|..];
    }
  }

  /** The visible rows after the first of them, and the first itself when the cursor is gone, lie behind the cursor. */
  lemma VisibleTail(tail: seq<Row>, deleted: set<JobId>)
    requires tail != []
    ensures forall x | x in AfterCursor(tail, deleted) :: x in tail[1..]
    ensures tail[0].id in deleted ==> Visible(tail, deleted) == Visible(tail[1..], deleted)
    ensures tail[0].id !in deleted ==> AfterCursor(tail, deleted) == Visible(tail[1..], deleted)
    ensures forall x | x in Visible(tail[1..], deleted) :: x in tail[1..] && x.id !in deleted
  {
    VisibleSound(tail[1..], deleted);
    var v := Visible(tail, deleted);
    if tail[0].id !in deleted {
      assert v == [tail[0]] + Visible(tail[1..], deleted);
    } else if v != [] {
      assert forall x | x in v[1..] :: x in v;
    }
  }

  ghost predicate AlwaysVisible(server: Server, x: Row) {
    forall k: nat :: x.id !in server(k).deleted
  }

  lemma {:induction false} VisibleDistinct(rows: seq<Row>, deleted: set<JobId>)
    requires DistinctIds(rows)
    ensures forall i, j | 0 <= i < j < |Visible(rows, deleted)| :: Visible(rows, deleted)[i] != Visible(rows, deleted)[j]
    decreases |rows|
  {
    if rows != [] {
      VisibleDistinct(rows[1..], deleted);
      VisibleSound(rows[1..], deleted);
      forall x | x in Visible(rows[1..], deleted) ensures x != rows[0] {
        var i :| 0 <= i < |rows[1..]| && rows[1..][i] == x;
        assert rows[i + 1].id != rows[0].id;
      }
    }
  }

  /** A row visible behind the cursor is the one skipped here, on this page, or behind the next cursor. */
  lemma OneOfThree(tail: seq<Row>, deleted: set<JobId>, limit: nat, x: Row)
    requires DistinctIds(tail) && tail != [] && limit >= 1 && x in tail[1..] && x.id !in deleted
    ensures var page := Take(AfterCursor(tail, deleted), limit);
      && (|page| < limit ==> (x in page <==> x !in Here(tail, deleted)))
      && (|page| == limit ==>
            var behind := x in Behind(From(tail, page[limit - 1].id));
            (behind ==> x !in page && x !in Here(tail, deleted))
            && (!behind ==> (x in page <==> x !in Here(tail, deleted))))
  {
    var v := Visible(tail, deleted);
    VisibleTail(tail, deleted);
    VisibleSound(tail[1..], deleted);
    VisibleDistinct(tail, deleted);
    assert x in v && (tail[0].id !in deleted ==> x != v[0]) by { FirstIsCursor(tail, deleted, x); }
    var m :| 0 <= m < |v| && v[m] == x;
    var page := Take(AfterCursor(tail, deleted), limit);
    if |page| == limit {
      BehindNext(tail, deleted, limit, m);
    }
    PageHolds(v, limit, m);
  }

  lemma FirstIsCursor(tail: seq<Row>, deleted: set<JobId>, x: Row)
    requires DistinctIds(tail) && tail != [] && x in tail[1..] && x.id !in deleted
    ensures x in Visible(tail, deleted)
    ensures tail[0].id !in deleted ==> Visible(tail, deleted)[0] == tail[0] != x
  {
    VisibleSound(tail, deleted);
    assert tail == [tail[0]] + tail[1..];
    var i :| 0 <= i < |tail[1..]| && tail[1..][i] == x;
    assert tail[0].id != tail[i + 1].id;
  }

  lemma PageHolds(v: seq<Row>, limit: nat, m: nat)
    requires m < |v| && limit >= 1 && forall i, j | 0 <= i < j < |v| :: v[i] != v[j]
    ensures v[m] in Take(v[1..], limit) <==> 1 <= m <= limit
    ensures v[m] in Take(v, 1) <==> m == 0
  {
    if 1 <= m <= limit { assert Take(v[1..], limit)[m - 1] == v[m]; }
    if m == 0 { assert Take(v, 1)[0] == v[0]; }
  }

  lemma BehindNext(tail: seq<Row>, deleted: set<JobId>, limit: nat, m: nat)
    requires DistinctIds(tail) && limit >= 1 && |Take(AfterCursor(tail, deleted), limit)| == limit
    requires m < |Visible(tail, deleted)|
    ensures var page := Take(AfterCursor(tail, deleted), limit);
      Visible(tail, deleted)[m] in Behind(From(tail, page[limit - 1].id)) <==> m > limit
  {
    var v := Visible(tail, deleted);
    var page := Take(AfterCursor(tail, deleted), limit);
    FullPage(tail, deleted, limit);
    VisibleDistinct(tail, deleted);
    VisibleSound(tail, deleted);
    var next := From(tail, page[limit - 1].id);
    VisibleSound(next[1..], deleted);
    assert page[limit - 1] == v[limit] && v[limit] in v;
    assert Visible(next, deleted) == [next[0]] + Visible(next[1..], deleted);
    assert Visible(next[1..], deleted) == v[limit + 1..];
    assert v[m] in v;
    if m > limit { assert v[limit + 1..][m - limit - 1] == v[m]; }
  }

  /** A row that stays visible is pulled or lost, and not both. */
  lemma {:induction false} PulledOrLost(server: Server, tail: seq<Row>, k: nat, limit: nat, x: Row)
    requires limit >= 1 && DistinctIds(tail) && tail != [] && x in tail[1..] && AlwaysVisible(server, x)
    ensures x in Rest(server, tail, k, limit) <==> x !in Lost(server, tail, k, limit)
    decreases |tail|
  {
    var deleted := server(k).deleted;
    var page := Take(AfterCursor(tail, deleted), limit);
    OneOfThree(tail, deleted, limit, x);
    if |page| == limit {
      FullPage(tail, deleted, limit);
      var next := From(tail, page[limit - 1].id);
      RestFromTail(server, next, k + 1, limit, x);
      if x in next[1..] { PulledOrLost(server, next, k + 1, limit, x); }
    }
  }

  /** Whatever is pulled was visible at the k-th request. */
  lemma {:induction false} RestIsVisible(server: Server, tail: seq<Row>, k: nat, limit: nat, x: Row)
    requires limit >= 1 && DistinctIds(tail) && x in Rest(server, tail, k, limit)
    requires Monotone(server)
    ensures x.id !in server(k).deleted
    decreases |tail|
  {
    var deleted := server(k).deleted;
    var page := Take(AfterCursor(tail, deleted), limit);
    VisibleSound(tail, deleted);
    assert forall y | y in page :: y in Visible(tail, deleted);
    if |page| == limit && x !in page {
      FullPage(tail, deleted, limit);
      RestIsVisible(server, From(tail, page[limit - 1].id), k + 1, limit, x);
      assert NoneBack(server(k), server(k + 1));
    }
  }

  ghost predicate NoDuplicate(rows: seq<Row>) {
    forall i, j | 0 <= i < j < |rows| :: rows[i] != rows[j]
  }

  lemma NoDuplicatePlus(a: seq<Row>, b: seq<Row>)
    requires NoDuplicate(a) && NoDuplicate(b) && forall x | x in b :: x !in a
    ensures NoDuplicate(a + b)
  {
    forall i, j | 0 <= i < |a| && 0 <= j < |b| ensures a[i] != b[j] {
      assert b[j] in b;
    }
  }

  lemma {:induction false} RestNoDuplicate(server: Server, tail: seq<Row>, k: nat, limit: nat)
    requires limit >= 1 && DistinctIds(tail) && tail != []
    requires Monotone(server)
    ensures NoDuplicate(Rest(server, tail, k, limit))
    decreases |tail|
  {
    var deleted := server(k).deleted;
    var page := Take(AfterCursor(tail, deleted), limit);
    VisibleDistinct(tail, deleted);
    assert NoDuplicate(page);
    if |page| == limit {
      FullPage(tail, deleted, limit);
      var next := From(tail, page[limit - 1].id);
      RestNoDuplicate(server, next, k + 1, limit);
      forall x | x in Rest(server, next, k + 1, limit) ensures x !in page {
        RestFromTail(server, next, k + 1, limit, x);
        RestIsVisible(server, next, k + 1, limit, x);
        assert NoneBack(server(k), server(k + 1));
        assert next[1..] == tail[1..][|tail| - |next|..];
        OneOfThree(tail, deleted, limit, x);
      }
      NoDuplicatePlus(page, Rest(server, next, k + 1, limit));
    }
  }

  // ---- the whole pull ----

  function Pull(server: Server, limit: nat): seq<Row>
    requires limit >= 1 && DistinctIds(server(0).rows)
  {
    var page := Page(server(0), None, limit);
    if |page| < limit then page
    else
      FirstPage(server(0), limit);
      page + Rest(server, From(server(0).rows, page[limit - 1].id), 1, limit)
  }

  function PullRequests(server: Server, limit: nat): nat
    requires limit >= 1 && DistinctIds(server(0).rows)
  {
    var page := Page(server(0), None, limit);
    if |page| < limit then 1
    else
      FirstPage(server(0), limit);
      1 + Requests(server, From(server(0).rows, page[limit - 1].id), 1, limit)
  }

  function PullLost(server: Server, limit: nat): seq<Row>
    requires limit >= 1 && DistinctIds(server(0).rows)
  {
    var page := Page(server(0), None, limit);
    if |page| < limit then []
    else
      FirstPage(server(0), limit);
      Lost(server, From(server(0).rows, page[limit - 1].id), 1, limit)
  }

  lemma FirstPage(s: Snapshot, limit: nat)
    requires DistinctIds(s.rows) && limit >= 1 && |Page(s, None, limit)| == limit
    ensures var page := Page(s, None, limit);
      var next := From(s.rows, page[limit - 1].id);
      && next != [] && next[0] == page[limit - 1] && DistinctIds(next)
      && Visible(next, s.deleted) == Visible(s.rows, s.deleted)[limit - 1..]
      && next == s.rows[|s.rows| - |next|..]
  {
    var v := Visible(s.rows, s.deleted);
    var page := Page(s, None, limit);
    assert page == v[..limit] && page[limit - 1] == v[limit - 1];
    VisibleFrom(s.rows, s.deleted, limit - 1);
    SuffixDistinct(s.rows, |s.rows| - |From(s.rows, page[limit - 1].id)|);
  }

  lemma SuffixDistinct(rows: seq<Row>, n: nat)
    requires DistinctIds(rows) && n <= |rows|
    ensures DistinctIds(rows[n..])
  {
  }

  lemma FromInSuffix(rows: seq<Row>, n: nat, j: nat)
    requires DistinctIds(rows) && n + j < |rows|
    ensures From(rows, rows[n + j].id) == From(rows[n..], rows[n + j].id)
  {
    var tail := rows[n..];
    SuffixDistinct(rows, n);
    assert tail[j] == rows[n + j] && tail[j..] == rows[n + j..];
    FromAt(rows, n + j);
    FromAt(tail, j);
  }

  /** New rows in front of a cursor do not change what follows it. */
  lemma FromPastFront(rows: seq<Row>, base: seq<Row>, id: JobId)
    requires DistinctIds(rows) && |base| <= |rows| && rows[|rows| - |base|..] == base
    requires From(base, id) != []
    ensures From(rows, id) == From(base, id)
  {
    var n, j := |rows| - |base|, |base| - |From(base, id)|;
    assert base[j] == From(base, id)[0] == base[j..][0];
    assert rows[n + j] == base[j];
    FromInSuffix(rows, n, j);
  }

  /** A cursor handed out by an earlier page. */
  ghost predicate CursorOf(server: Server, id: JobId) {
    From(server(0).rows, id) != []
  }

  lemma TailDistinct(server: Server, id: JobId)
    requires DistinctIds(server(0).rows)
    ensures DistinctIds(From(server(0).rows, id))
  {
    SuffixDistinct(server(0).rows, |server(0).rows| - |From(server(0).rows, id)|);
  }

  /** The k-th page is what follows the cursor among the rows the first request found. */
  lemma PageIgnoresFront(server: Server, k: nat, id: JobId, limit: nat)
    requires limit >= 1 && Evolves(server) && CursorOf(server, id)
    ensures Page(server(k), Some(id), limit) == Take(AfterCursor(From(server(0).rows, id), server(k).deleted), limit)
  {
    assert Extends(server(0), server(k));
    FromPastFront(server(k).rows, server(0).rows, id);
  }

  lemma NextCursorIsCursor(server: Server, k: nat, id: JobId, limit: nat)
    requires limit >= 1 && Evolves(server) && CursorOf(server, id)
    requires |Page(server(k), Some(id), limit)| == limit
    ensures var tail := From(server(0).rows, id);
      var last := Page(server(k), Some(id), limit)[limit - 1].id;
      && From(tail, last) == From(server(0).rows, last) && CursorOf(server, last)
      && |From(server(0).rows, last)| < |tail|
  {
    var tail := From(server(0).rows, id);
    PageIgnoresFront(server, k, id, limit);
    TailDistinct(server, id);
    FullPage(tail, server(k).deleted, limit);
    FromPastFront(server(0).rows, tail, Page(server(k), Some(id), limit)[limit - 1].id);
  }

  /** What the pull still returns, and the requests it still makes, when its next cursor is `cursor`. */
  function Remaining(server: Server, cursor: Option<JobId>, k: nat, limit: nat): seq<Row>
    requires limit >= 1 && DistinctIds(server(0).rows)
  {
    if cursor.None? then []
    else
      TailDistinct(server, cursor.value);
      Rest(server, From(server(0).rows, cursor.value), k, limit)
  }

  function RemainingRequests(server: Server, cursor: Option<JobId>, k: nat, limit: nat): nat
    requires limit >= 1 && DistinctIds(server(0).rows)
  {
    if cursor.None? then 0
    else
      TailDistinct(server, cursor.value);
      Requests(server, From(server(0).rows, cursor.value), k, limit)
  }

  lemma RestStep(server: Server, tail: seq<Row>, k: nat, limit: nat)
    requires limit >= 1 && DistinctIds(tail)
    ensures var page := Take(AfterCursor(tail, server(k).deleted), limit);
      if |page| < limit then Rest(server, tail, k, limit) == page && Requests(server, tail, k, limit) == 1
      else
        var next := From(tail, page[limit - 1].id);
        && DistinctIds(next) && Rest(server, tail, k, limit) == page + Rest(server, next, k + 1, limit)
        && Requests(server, tail, k, limit) == 1 + Requests(server, next, k + 1, limit)
  {
    if |Take(AfterCursor(tail, server(k).deleted), limit)| == limit { FullPage(tail, server(k).deleted, limit); }
  }

  lemma Assoc(a: seq<Row>, b: seq<Row>, c: seq<Row>)
    ensures a + (b + c) == (a + b) + c && a + b + [] == a + b
  {
  }

  lemma LastPageStep(server: Server, id: JobId, k: nat, limit: nat)
    requires limit >= 1 && Evolves(server) && CursorOf(server, id) && |Page(server(k), Some(id), limit)| < limit
    ensures Remaining(server, Some(id), k, limit) == Page(server(k), Some(id), limit)
    ensures RemainingRequests(server, Some(id), k, limit) == 1
  {
    PageIgnoresFront(server, k, id, limit);
    TailDistinct(server, id);
    RestStep(server, From(server(0).rows, id), k, limit);
  }

  lemma FullPageStep(server: Server, id: JobId, k: nat, limit: nat)
    requires limit >= 1 && Evolves(server) && CursorOf(server, id) && |Page(server(k), Some(id), limit)| == limit
    ensures var page := Page(server(k), Some(id), limit); var next := Some(page[limit - 1].id);
      && Remaining(server, Some(id), k, limit) == page + Remaining(server, next, k + 1, limit)
      && RemainingRequests(server, Some(id), k, limit) == 1 + RemainingRequests(server, next, k + 1, limit)
  {
    PageIgnoresFront(server, k, id, limit);
    TailDistinct(server, id);
    RestStep(server, From(server(0).rows, id), k, limit);
    NextCursorIsCursor(server, k, id, limit);
  }

  /** One page moves from what remains to what is pulled. */
  lemma PullStep(server: Server, pulled: seq<Row>, id: JobId, k: nat, limit: nat)
    requires limit >= 1 && Evolves(server) && CursorOf(server, id)
    ensures var page := Page(server(k), Some(id), limit); var cursor := NextCursor(page, limit);
      && pulled + Remaining(server, Some(id), k, limit) == (pulled + page) + Remaining(server, cursor, k + 1, limit)
      && RemainingRequests(server, Some(id), k, limit) == 1 + RemainingRequests(server, cursor, k + 1, limit)
      && (cursor.Some? ==> CursorOf(server, cursor.value)
                           && |From(server(0).rows, cursor.value)| < |From(server(0).rows, id)|)
  {
    var page := Page(server(k), Some(id), limit);
    assert |page| <= limit;
    if |page| == limit {
      FullPageStep(server, id, k, limit);
      NextCursorIsCursor(server, k, id, limit);
    } else {
      LastPageStep(server, id, k, limit);
      assert page == page + [];
    }
    Assoc(pulled, page, Remaining(server, NextCursor(page, limit), k + 1, limit));
  }

  lemma PullStart(server: Server, limit: nat)
    requires limit >= 1 && DistinctIds(server(0).rows)
    ensures var page := Page(server(0), None, limit); var cursor := NextCursor(page, limit);
      && (cursor.Some? ==> CursorOf(server, cursor.value))
      && Pull(server, limit) == page + Remaining(server, cursor, 1, limit)
      && PullRequests(server, limit) == 1 + RemainingRequests(server, cursor, 1, limit)
  {
    var page := Page(server(0), None, limit);
    if |page| == limit {
      FirstPage(server(0), limit);
    } else {
      assert page + [] == page;
    }
  }

  /** refresh's loop: pages are fetched until one comes without a cursor. */
  method PullAll(server: Server, limit: nat) returns (pulled: seq<Row>, requests: nat)
    requires limit >= 1 && Evolves(server)
    ensures pulled == Pull(server, limit) && requests == PullRequests(server, limit)
  {
    var page := Page(server(0), None, limit);
    pulled, requests := page, 1;
    var cursor := NextCursor(page, limit);
    PullStart(server, limit);
    while cursor.Some?
      invariant cursor.Some? ==> CursorOf(server, cursor.value)
      invariant Pull(server, limit) == pulled + Remaining(server, cursor, requests, limit)
      invariant PullRequests(server, limit) == requests + RemainingRequests(server, cursor, requests, limit)
      decreases if cursor.Some? then |From(server(0).rows, cursor.value)| else 0
    {
      PullStep(server, pulled, cursor.value, requests, limit);
      page := Page(server(requests), cursor, limit);
      pulled := pulled + page;
      requests := requests + 1;
      cursor := NextCursor(page, limit);
    }
  }

  // ---- completeness ----

  /**
   A pull never returns a job twice, returns only jobs it started with, and every job that stays visible
   throughout is returned, unless it is one that a page skipped in place of its deleted cursor.
   */
  lemma PullIsComplete(server: Server, limit: nat, x: Row)
    requires limit >= 1 && Evolves(server)
    ensures NoDuplicate(Pull(server, limit))
    ensures x in Pull(server, limit) ==> x in server(0).rows && x.id !in server(0).deleted
    ensures x in server(0).rows && AlwaysVisible(server, x) ==>
      (x in Pull(server, limit) <==> x !in PullLost(server, limit))
  {
    var page := Page(server(0), None, limit);
    FirstPageSound(server(0), limit);
    if |page| == limit {
      var next := From(server(0).rows, page[limit - 1].id);
      FirstPage(server(0), limit);
      RestNoDuplicate(server, next, 1, limit);
      forall y | y in Rest(server, next, 1, limit) ensures y !in page && y in server(0).rows && y.id !in server(0).deleted {
        BehindFirstPage(server, limit, next, y);
      }
      NoDuplicatePlus(page, Rest(server, next, 1, limit));
      if x in server(0).rows && AlwaysVisible(server, x) { KeptOrLost(server, limit, x); }
    }
  }

  lemma FirstPageSound(s: Snapshot, limit: nat)
    requires DistinctIds(s.rows) && limit >= 1
    ensures var page := Page(s, None, limit);
      && NoDuplicate(page) && (forall y | y in page :: y in s.rows && y.id !in s.deleted)
      && (|page| < limit ==> forall y | y in s.rows && y.id !in s.deleted :: y in page)
  {
    VisibleSound(s.rows, s.deleted);
    VisibleDistinct(s.rows, s.deleted);
    assert forall y | y in Page(s, None, limit) :: y in Visible(s.rows, s.deleted);
  }

  lemma BehindFirst(s: Snapshot, limit: nat)
    requires DistinctIds(s.rows) && limit >= 1 && |Page(s, None, limit)| == limit
    ensures var v := Visible(s.rows, s.deleted); var page := Page(s, None, limit);
      && |v| >= limit && page == v[..limit]
      && Visible(Behind(From(s.rows, page[limit - 1].id)), s.deleted) == v[limit..]
  {
    var v := Visible(s.rows, s.deleted);
    var page := Page(s, None, limit);
    FirstPage(s, limit);
    VisibleSound(s.rows, s.deleted);
    var next := From(s.rows, page[limit - 1].id);
    assert page == v[..limit] && page[limit - 1] == v[limit - 1];
    assert v[limit - 1] in v;
    VisibleTail(next, s.deleted);
    assert v[limit - 1..][1..] == v[limit..];
  }

  lemma Halves(v: seq<Row>, limit: nat, y: Row)
    requires NoDuplicate(v) && y in v && limit <= |v|
    ensures y in v[..limit] <==> y !in v[limit..]
  {
    var m :| 0 <= m < |v| && v[m] == y;
    if m < limit { assert v[..limit][m] == y; } else { assert v[limit..][m - limit] == y; }
  }

  /** Visible rows are on the first page or behind its cursor, and not both. */
  lemma FirstPageSplits(s: Snapshot, limit: nat, y: Row)
    requires DistinctIds(s.rows) && limit >= 1 && |Page(s, None, limit)| == limit && y in s.rows && y.id !in s.deleted
    ensures var page := Page(s, None, limit);
      y in page <==> y !in Behind(From(s.rows, page[limit - 1].id))
  {
    BehindFirst(s, limit);
    VisibleSound(s.rows, s.deleted);
    VisibleSound(Behind(From(s.rows, Page(s, None, limit)[limit - 1].id)), s.deleted);
    assert NoDuplicate(Visible(s.rows, s.deleted)) by { VisibleDistinct(s.rows, s.deleted); }
    Halves(Visible(s.rows, s.deleted), limit, y);
  }

  lemma BehindFirstPage(server: Server, limit: nat, next: seq<Row>, y: Row)
    requires limit >= 1 && Evolves(server) && |Page(server(0), None, limit)| == limit
    requires next == From(server(0).rows, Page(server(0), None, limit)[limit - 1].id)
    requires next != [] && DistinctIds(next) && y in Rest(server, next, 1, limit)
    ensures y !in Page(server(0), None, limit) && y in server(0).rows && y.id !in server(0).deleted
  {
    assert y in next[1..] by { RestFromTail(server, next, 1, limit, y); }
    assert y.id !in server(0).deleted by {
      RestIsVisible(server, next, 1, limit, y);
      assert NoneBack(server(0), server(1));
    }
    InSuffix(server(0).rows, next, y);
    FirstPageSplits(server(0), limit, y);
  }

  lemma InSuffix(rows: seq<Row>, tail: seq<Row>, y: Row)
    requires |tail| <= |rows| && tail == rows[|rows| - |tail|..] && tail != [] && y in tail[1..]
    ensures y in rows
  {
  }

  lemma KeptOrLost(server: Server, limit: nat, x: Row)
    requires limit >= 1 && Evolves(server) && |Page(server(0), None, limit)| == limit
    requires x in server(0).rows && AlwaysVisible(server, x)
    ensures x in Pull(server, limit) <==> x !in PullLost(server, limit)
  {
    var page := Page(server(0), None, limit);
    var next := From(server(0).rows, page[limit - 1].id);
    FirstPage(server(0), limit);
    FirstPageSplits(server(0), limit, x);
    RestFromTail(server, next, 1, limit, x);
    if x in next[1..] { PulledOrLost(server, next, 1, limit, x); }
  }

  lemma {:induction false} LostHasCursor(server: Server, tail: seq<Row>, k: nat, limit: nat, x: Row)
    returns (cursor: Row, n: nat)
    requires limit >= 1 && DistinctIds(tail) && tail != [] && x in Lost(server, tail, k, limit)
    ensures (cursor == tail[0] || cursor in Rest(server, tail, k, limit)) && cursor.id in server(n).deleted
    decreases |tail|
  {
    var deleted := server(k).deleted;
    if tail[0].id in deleted {
      cursor, n := tail[0], k;
    } else {
      var page := Take(AfterCursor(tail, deleted), limit);
      FullPage(tail, deleted, limit);
      cursor, n := LostHasCursor(server, From(tail, page[limit - 1].id), k + 1, limit, x);
    }
  }

  lemma LostNeedsDeletion(server: Server, limit: nat, x: Row) returns (cursor: Row, n: nat)
    requires limit >= 1 && DistinctIds(server(0).rows) && x in PullLost(server, limit)
    ensures cursor in Pull(server, limit) && cursor.id in server(n).deleted
  {
    var page := Page(server(0), None, limit);
    FirstPage(server(0), limit);
    cursor, n := LostHasCursor(server, From(server(0).rows, page[limit - 1].id), 1, limit, x);
  }

  /** A pull none of whose jobs is deleted while it runs returns every job that stays visible. */
  lemma UndisturbedPullIsComplete(server: Server, limit: nat, x: Row)
    requires limit >= 1 && Evolves(server) && x in server(0).rows && AlwaysVisible(server, x)
    requires forall y | y in Pull(server, limit) :: AlwaysVisible(server, y)
    ensures x in Pull(server, limit)
  {
    PullIsComplete(server, limit, x);
    if x in PullLost(server, limit) {
      var cursor, n := LostNeedsDeletion(server, limit, x);
      assert false;
    }
  }

  // ---- a pull while nothing is deleted ----

  ghost predicate Quiet(server: Server, deleted: set<JobId>) {
    forall n: nat :: server(n).deleted == deleted
  }

  lemma {:induction false} QuietRest(server: Server, tail: seq<Row>, k: nat, limit: nat, deleted: set<JobId>)
    requires limit >= 1 && DistinctIds(tail) && tail != [] && tail[0].id !in deleted && Quiet(server, deleted)
    ensures Rest(server, tail, k, limit) == Behind(Visible(tail, deleted))
    decreases |tail|
  {
    var after := AfterCursor(tail, deleted);
    assert server(k).deleted == deleted;
    if |after| >= limit {
      var next := From(tail, after[limit - 1].id);
      QuietNext(tail, limit, deleted);
      QuietRest(server, next, k + 1, limit, deleted);
      assert after == after[..limit] + after[limit..];
    }
  }

  lemma QuietNext(tail: seq<Row>, limit: nat, deleted: set<JobId>)
    requires limit >= 1 && DistinctIds(tail) && |AfterCursor(tail, deleted)| >= limit
    ensures var after := AfterCursor(tail, deleted);
      var next := From(tail, after[limit - 1].id);
      && next != [] && next[0].id !in deleted && |next| < |tail| && DistinctIds(next)
      && Behind(Visible(next, deleted)) == after[limit..]
  {
    var v := Visible(tail, deleted);
    var after := AfterCursor(tail, deleted);
    assert Take(after, limit)[limit - 1] == after[limit - 1];
    FullPage(tail, deleted, limit);
    VisibleSound(tail, deleted);
    assert after[limit - 1] == v[limit] && v[limit] in v;
    assert v[limit..][1..] == after[limit..];
  }

  /** How many pages of this size n rows fill: n / limit. */
  function FullPages(n: nat, limit: nat): nat
    requires limit >= 1
  {
    if n < limit then 0 else 1 + FullPages(n - limit, limit)
  }

  lemma {:induction false} FullPagesDivides(n: nat, limit: nat)
    requires limit >= 1
    ensures FullPages(n, limit) == n / limit
    decreases n
  {
    if n < limit {
      DivUnique(n, limit, 0, n);
    } else {
      FullPagesDivides(n - limit, limit);
      DivStep(n, limit);
    }
  }

  lemma {:induction false} QuietRequests(server: Server, tail: seq<Row>, k: nat, limit: nat, deleted: set<JobId>)
    requires limit >= 1 && DistinctIds(tail) && tail != [] && tail[0].id !in deleted && Quiet(server, deleted)
    ensures Requests(server, tail, k, limit) == FullPages(|Behind(Visible(tail, deleted))|, limit) + 1
    decreases |tail|
  {
    var after := AfterCursor(tail, deleted);
    assert server(k).deleted == deleted;
    if |after| >= limit {
      QuietNext(tail, limit, deleted);
      QuietRequests(server, From(tail, after[limit - 1].id), k + 1, limit, deleted);
    }
  }

  lemma DivUnique(n: nat, d: nat, q: nat, r: nat)
    requires d >= 1 && n == q * d + r && r < d
    ensures n / d == q
  {
    var q', r' := n / d, n % d;
    assert n == q' * d + r';
    assert (q' - q) * d == q' * d - q * d && (q - q') * d == q * d - q' * d;
    if q' > q { Product(q' - q, d); }
    if q > q' { Product(q - q', d); }
  }

  lemma Product(a: nat, d: nat)
    requires a >= 1
    ensures a * d >= d
  {
    assert a * d == (a - 1) * d + d;
  }

  lemma DivStep(n: nat, limit: nat)
    requires n >= limit >= 1
    ensures (n - limit) / limit + 1 == n / limit
  {
    var q, r := (n - limit) / limit, (n - limit) % limit;
    assert n - limit == q * limit + r;
    assert n == (q + 1) * limit + r;
    DivUnique(n, limit, q + 1, r);
  }

  lemma QuietStart(server: Server, limit: nat)
    requires limit >= 1 && DistinctIds(server(0).rows) && Quiet(server, server(0).deleted)
    requires |Page(server(0), None, limit)| == limit
    ensures var v := Visible(server(0).rows, server(0).deleted);
      var next := From(server(0).rows, Page(server(0), None, limit)[limit - 1].id);
      && |v| >= limit && Page(server(0), None, limit) == v[..limit]
      && next != [] && DistinctIds(next) && next[0].id !in server(0).deleted
      && Behind(Visible(next, server(0).deleted)) == v[limit..]
  {
    var rows, deleted := server(0).rows, server(0).deleted;
    var v := Visible(rows, deleted);
    BehindFirst(server(0), limit);
    FirstPage(server(0), limit);
    VisibleSound(rows, deleted);
    assert v[limit - 1] in v;
    VisibleTail(From(rows, v[limit - 1].id), deleted);
  }

  lemma Rejoin(v: seq<Row>, n: nat)
    requires n <= |v|
    ensures v[..n] + v[n..] == v
  {
  }

  lemma QuietRows(server: Server, limit: nat)
    requires limit >= 1 && Evolves(server) && Quiet(server, server(0).deleted)
    ensures Pull(server, limit) == Visible(server(0).rows, server(0).deleted)
  {
    var v := Visible(server(0).rows, server(0).deleted);
    var page := Page(server(0), None, limit);
    if |page| == limit {
      QuietStart(server, limit);
      var next := From(server(0).rows, page[limit - 1].id);
      QuietRest(server, next, 1, limit, server(0).deleted);
      assert Pull(server, limit) == page + Rest(server, next, 1, limit);
      Rejoin(v, limit);
    }
  }

  lemma QuietLength(server: Server, limit: nat)
    requires limit >= 1 && DistinctIds(server(0).rows) && Quiet(server, server(0).deleted)
    requires |Page(server(0), None, limit)| == limit
    ensures var next := From(server(0).rows, Page(server(0), None, limit)[limit - 1].id);
      && next != [] && DistinctIds(next) && next[0].id !in server(0).deleted
      && |Behind(Visible(next, server(0).deleted))| + limit == |Visible(server(0).rows, server(0).deleted)|
  {
    QuietStart(server, limit);
  }

  lemma QuietCountBehind(server: Server, limit: nat, n: nat)
    requires limit >= 1 && DistinctIds(server(0).rows) && Quiet(server, server(0).deleted)
    requires |Page(server(0), None, limit)| == limit && |Visible(server(0).rows, server(0).deleted)| == n + limit
    ensures PullRequests(server, limit) == 2 + FullPages(n, limit)
  {
    QuietLength(server, limit);
    QuietRequests(server, From(server(0).rows, Page(server(0), None, limit)[limit - 1].id), 1, limit, server(0).deleted);
  }

  lemma OneRequest(server: Server, limit: nat)
    requires limit >= 1 && DistinctIds(server(0).rows) && |Visible(server(0).rows, server(0).deleted)| < limit
    ensures PullRequests(server, limit) == 1
  {
    assert |Page(server(0), None, limit)| < limit;
  }

  lemma CountFull(n: nat, limit: nat)
    requires n >= limit >= 1
    ensures 2 + FullPages(n - limit, limit) == n / limit + 1
  {
    FullPagesDivides(n - limit, limit);
    DivStep(n, limit);
  }

  lemma QuietCount(server: Server, limit: nat, n: nat)
    requires limit >= 1 && DistinctIds(server(0).rows) && Quiet(server, server(0).deleted)
    requires n == |Visible(server(0).rows, server(0).deleted)|
    ensures PullRequests(server, limit) == n / limit + 1
  {
    if n >= limit {
      FullFirstPage(server(0), limit);
      QuietCountBehind(server, limit, n - limit);
      CountFull(n, limit);
    } else {
      OneRequest(server, limit);
      DivUnique(n, limit, 0, n);
    }
  }

  lemma FullFirstPage(s: Snapshot, limit: nat)
    requires |Visible(s.rows, s.deleted)| >= limit
    ensures |Page(s, None, limit)| == limit
  {
  }

  lemma {:induction false} VisibleOrdered(rows: seq<Row>, deleted: set<JobId>)
    requires Ordered(rows)
    ensures Ordered(Visible(rows, deleted))
    decreases |rows|
  {
    if rows != [] {
      var rest := rows[1..];
      VisibleOrdered(rest, deleted);
      VisibleSound(rest, deleted);
      forall k | 0 <= k < |Visible(rest, deleted)| ensures Before(rows[0], Visible(rest, deleted)[k]) {
        assert Visible(rest, deleted)[k] in rest;
        var j :| 0 <= j < |rest| && rest[j] == Visible(rest, deleted)[k];
        assert rows[j + 1] == rest[j];
      }
    }
  }

  /** While nothing is deleted, the pages add up to the whole list, newest first, in n / limit + 1 requests. */
  lemma QuietPull(server: Server, limit: nat)
    requires limit >= 1 && Evolves(server) && Quiet(server, server(0).deleted)
    ensures var v := Visible(server(0).rows, server(0).deleted);
      Pull(server, limit) == v && Ordered(v) && PullRequests(server, limit) == |v| / limit + 1
  {
    VisibleOrdered(server(0).rows, server(0).deleted);
    QuietRows(server, limit);
    QuietCount(server, limit, |Visible(server(0).rows, server(0).deleted)|);
  }

  // ---- order ----

  lemma OrderedPlus(a: seq<Row>, b: seq<Row>)
    requires Ordered(a) && Ordered(b) && a != [] && forall k | 0 <= k < |b| :: Before(a[|a| - 1], b[k])
    ensures Ordered(a + b)
  {
    forall i, j | 0 <= i < j < |a + b| ensures Before((a + b)[i], (a + b)[j]) {
      if i < |a| <= j {
        assert Before(a[|a| - 1], b[j - |a|]);
        assert i == |a| - 1 || Before(a[i], a[|a| - 1]);
      }
    }
  }

  lemma BehindIsLater(tail: seq<Row>, y: Row)
    requires tail != [] && Ordered(tail) && y in tail[1..]
    ensures Before(tail[0], y)
  {
    var j :| 0 <= j < |tail[1..]| && tail[1..][j] == y;
    assert tail[j + 1] == y;
  }

  lemma {:induction false} RestOrdered(server: Server, tail: seq<Row>, k: nat, limit: nat)
    requires limit >= 1 && DistinctIds(tail) && tail != [] && Ordered(tail)
    ensures Ordered(Rest(server, tail, k, limit))
    decreases |tail|
  {
    var deleted := server(k).deleted;
    var page := Take(AfterCursor(tail, deleted), limit);
    VisibleOrdered(tail, deleted);
    if |page| == limit {
      FullPage(tail, deleted, limit);
      var next := From(tail, page[limit - 1].id);
      RestOrdered(server, next, k + 1, limit);
      LaterPages(server, next, k + 1, limit, page);
    }
  }

  lemma LaterPages(server: Server, next: seq<Row>, k: nat, limit: nat, page: seq<Row>)
    requires limit >= 1 && DistinctIds(next) && next != [] && Ordered(next)
    requires page != [] && Ordered(page) && page[|page| - 1] == next[0] && Ordered(Rest(server, next, k, limit))
    ensures Ordered(page + Rest(server, next, k, limit))
  {
    var rest := Rest(server, next, k, limit);
    forall j | 0 <= j < |rest| ensures Before(page[|page| - 1], rest[j]) {
      RestFromTail(server, next, k, limit, rest[j]);
      BehindIsLater(next, rest[j]);
    }
    OrderedPlus(page, rest);
  }

  lemma PageOrdered(s: Snapshot, limit: nat)
    requires Ordered(s.rows)
    ensures Ordered(Page(s, None, limit))
  {
    VisibleOrdered(s.rows, s.deleted);
  }

  lemma PullOrdered(server: Server, limit: nat)
    requires limit >= 1 && Evolves(server)
    ensures Ordered(Pull(server, limit))
  {
    var page := Page(server(0), None, limit);
    PageOrdered(server(0), limit);
    if |page| == limit {
      FirstPage(server(0), limit);
      var next := From(server(0).rows, page[limit - 1].id);
      assert Ordered(next);
      RestOrdered(server, next, 1, limit);
      LaterPages(server, next, 1, limit, page);
    }
  }

  /**
   Whatever is created or deleted meanwhile, every pull lists its jobs newest first, and jobs of one instant
   by descending id.
   */
  lemma PulledNewestFirst(server: Server, limit: nat, i: nat, j: nat)
    requires limit >= 1 && Evolves(server) && i < j < |Pull(server, limit)|
    ensures var a, b := Pull(server, limit)[i], Pull(server, limit)[j];
      a.createdAt > b.createdAt || (a.createdAt == b.createdAt && a.id > b.id)
  {
    PullOrdered(server, limit);
  }

  // ---- a deleted cursor ----

  const A := Row(3, 3)
  const B := Row(2, 2)
  const C := Row(1, 1)

  /** Three jobs; the newest is soft-deleted after the first page. */
  function Disturbed(k: nat): Snapshot {
    Snapshot([A, B, C], if k == 0 then {} else {3})
  }

  lemma VisibleCons(row: Row, rows: seq<Row>, deleted: set<JobId>)
    ensures Visible([row] + rows, deleted) == (if row.id in deleted then [] else [row]) + Visible(rows, deleted)
    ensures From([row] + rows, row.id) == [row] + rows
    ensures forall id | id != row.id :: From([row] + rows, id) == From(rows, id)
  {
    assert ([row] + rows)[1..] == rows;
  }

  lemma VisibleOfDisturbed()
    ensures Visible([A, B, C], {}) == [A, B, C] && Visible([A, B, C], {3}) == [B, C] && Visible([C], {3}) == [C]
    ensures From([A, B, C], 3) == [A, B, C] && From([A, B, C], 1) == [C]
  {
    assert [A] + [B, C] == [A, B, C] && [B] + [C] == [B, C] && [C] + [] == [C];
    VisibleCons(C, [], {});
    VisibleCons(B, [C], {});
    VisibleCons(A, [B, C], {});
    VisibleCons(C, [], {3});
    VisibleCons(B, [C], {3});
    VisibleCons(A, [B, C], {3});
  }

  lemma DisturbedEvolves()
    ensures Evolves(Disturbed) && AlwaysVisible(Disturbed, B)
  {
    forall k: nat ensures Extends(Disturbed(0), Disturbed(k)) {
      assert [A, B, C][0..] == [A, B, C];
    }
  }

  lemma TwoPages(server: Server, tail: seq<Row>, k: nat, last: Row)
    requires DistinctIds(tail)
    requires Take(AfterCursor(tail, server(k).deleted), 1) == [last] && From(tail, last.id) == [last]
    requires AfterCursor([last], server(k + 1).deleted) == []
    ensures Rest(server, tail, k, 1) == [last]
  {
    RestStep(server, tail, k, 1);
    RestStep(server, [last], k + 1, 1);
  }

  lemma PullOfTwo(server: Server, first: Row, last: Row)
    requires DistinctIds(server(0).rows) && Page(server(0), None, 1) == [first]
    requires var tail := From(server(0).rows, first.id); DistinctIds(tail) && Rest(server, tail, 1, 1) == [last]
    ensures Pull(server, 1) == [first, last]
  {
  }

  lemma DisturbedPages()
    ensures Page(Disturbed(0), None, 1) == [A] && From(Disturbed(0).rows, 3) == [A, B, C] && From([A, B, C], 1) == [C]
    ensures Take(AfterCursor([A, B, C], Disturbed(1).deleted), 1) == [C] && AfterCursor([C], Disturbed(2).deleted) == []
  {
    VisibleOfDisturbed();
    assert [B, C][1..] == [C] && [C][1..] == [];
  }

  /** Deleting the last job of a page before the next request makes the pull skip a job that never changed. */
  lemma DeletedCursorSkipsAJob()
    ensures Evolves(Disturbed) && AlwaysVisible(Disturbed, B)
    ensures Pull(Disturbed, 1) == [A, C]
  {
    DisturbedEvolves();
    DisturbedPages();
    TwoPages(Disturbed, [A, B, C], 1, C);
    PullOfTwo(Disturbed, A, C);
  }
}
