/**
 The reconciliation loops as steps over a list: one DTO at a time is written onto the item with its id
 or appended, then the items of other ids are dropped. Together they leave Reconcile's merged list.
 */
module ReconcileSteps {
  import opened Basics
  import opened ReportTree
  import opened Reconcile

  /** What one pass of the first loop leaves: `merge` writes the DTO onto the item, or onto a new one. */
  function Upserted<T>(xs: seq<T>, d: T, idOf: T -> RowId, merge: (Option<T>, T) -> T): seq<T> {
    if idOf(d) in Ids(xs, idOf) then
      seq(|xs|, i requires 0 <= i < |xs| => if idOf(xs[i]) == idOf(d) then merge(Some(xs[i]), d) else xs[i])
    else xs + [merge(None, d)]
  }

  function UpsertedAll<T>(xs: seq<T>, ds: seq<T>, idOf: T -> RowId, merge: (Option<T>, T) -> T): seq<T> {
    if ds == [] then xs
    else Upserted(UpsertedAll(xs, ds[..|ds| - 1], idOf, merge), ds[|ds| - 1], idOf, merge)
  }

  /** The second loop. */
  function Pruned<T>(xs: seq<T>, idOf: T -> RowId, keep: set<RowId>): seq<T> {
    if xs == [] then []
    else Pruned(xs[..|xs| - 1], idOf, keep) + (if idOf(xs[|xs| - 1]) in keep then [xs[|xs| - 1]] else [])
  }

  // ---- closed forms ----

  function Placed<T>(prior: seq<T>, d: T, idOf: T -> RowId, merge: (Option<T>, T) -> T): T {
    merge(Find(prior, idOf, idOf(d)), d)
  }

  function PlacedAll<T>(prior: seq<T>, ds: seq<T>, idOf: T -> RowId, merge: (Option<T>, T) -> T): seq<T> {
    seq(|ds|, i requires 0 <= i < |ds| => Placed(prior, ds[i], idOf, merge))
  }

  /** A cached item after the first loop. */
  function Rewritten<T>(prior: seq<T>, x: T, ds: seq<T>, idOf: T -> RowId, merge: (Option<T>, T) -> T): T {
    match Find(ds, idOf, idOf(x))
    case Some(d) => Placed(prior, d, idOf, merge)
    case None => x
  }

  function RewrittenAll<T>(prior: seq<T>, xs: seq<T>, ds: seq<T>, idOf: T -> RowId, merge: (Option<T>, T) -> T): seq<T> {
    seq(|xs|, k requires 0 <= k < |xs| => Rewritten(prior, xs[k], ds, idOf, merge))
  }

  ghost predicate KeepsId<T(!new)>(idOf: T -> RowId, merge: (Option<T>, T) -> T) {
    forall p, d :: idOf(merge(p, d)) == idOf(d)
  }

  lemma IdsOfRewritten<T(!new)>(xs: seq<T>, ds: seq<T>, idOf: T -> RowId, merge: (Option<T>, T) -> T)
    requires KeepsId(idOf, merge)
    ensures Ids(RewrittenAll(xs, xs, ds, idOf, merge), idOf) == Ids(xs, idOf)
  {
    forall k | 0 <= k < |xs| ensures idOf(Rewritten(xs, xs[k], ds, idOf, merge)) == idOf(xs[k]) {
    }
  }

  lemma IdsOfPlaced<T(!new)>(xs: seq<T>, ds: seq<T>, idOf: T -> RowId, merge: (Option<T>, T) -> T)
    requires KeepsId(idOf, merge)
    ensures Ids(PlacedAll(xs, ds, idOf, merge), idOf) == Ids(ds, idOf)
  {
    forall k | 0 <= k < |ds| ensures idOf(Placed(xs, ds[k], idOf, merge)) == idOf(ds[k]) {
    }
  }

  lemma {:induction false} AddedIds<T>(ids: seq<RowId>, ds: seq<T>, idOf: T -> RowId)
    ensures forall a | a in Added(ids, ds, idOf) :: a in ds && idOf(a) !in ids
    decreases |ds|
  {
    if ds != [] { AddedIds(ids, ds[..|ds| - 1], idOf); }
  }

  lemma NotYet<T>(ds: seq<T>, idOf: T -> RowId)
    requires ds != [] && Distinct(Ids(ds, idOf))
    ensures Distinct(Ids(ds[..|ds| - 1], idOf))
    ensures forall x | x in ds[..|ds| - 1] :: idOf(x) != idOf(ds[|ds| - 1])
  {
    var n := |ds| - 1;
    assert Ids(ds[..n], idOf) == Ids(ds, idOf)[..n];
    forall i | 0 <= i < n ensures idOf(ds[i]) != idOf(ds[n]) {
      assert Ids(ds, idOf)[i] != Ids(ds, idOf)[n];
    }
  }

  /** One more DTO on top of the closed form, when its id is cached. */
  lemma RewriteOne<T(!new)>(xs: seq<T>, ds: seq<T>, idOf: T -> RowId, merge: (Option<T>, T) -> T, k: nat)
    requires KeepsId(idOf, merge) && Distinct(Ids(xs, idOf)) && ds != [] && Distinct(Ids(ds, idOf)) && k < |xs|
    ensures var front, d := ds[..|ds| - 1], ds[|ds| - 1];
      Rewritten(xs, xs[k], ds, idOf, merge)
        == if idOf(xs[k]) == idOf(d) then merge(Some(Rewritten(xs, xs[k], front, idOf, merge)), d)
           else Rewritten(xs, xs[k], front, idOf, merge)
  {
    NotYet(ds, idOf);
    FindItself(xs, idOf, k);
  }

  lemma {:induction false} UpsertedShape<T(!new)>(xs: seq<T>, ds: seq<T>, idOf: T -> RowId, merge: (Option<T>, T) -> T)
    requires KeepsId(idOf, merge) && Distinct(Ids(xs, idOf)) && Distinct(Ids(ds, idOf))
    ensures UpsertedAll(xs, ds, idOf, merge)
         == RewrittenAll(xs, xs, ds, idOf, merge) + PlacedAll(xs, Added(Ids(xs, idOf), ds, idOf), idOf, merge)
    decreases |ds|
  {
    if ds == [] {
      assert RewrittenAll(xs, xs, ds, idOf, merge) == xs;
    } else {
      var front := ds[..|ds| - 1];
      NotYet(ds, idOf);
      UpsertedShape(xs, front, idOf, merge);
      UpsertedStep(xs, ds, idOf, merge);
    }
  }

  lemma NotCached<T>(xs: seq<T>, idOf: T -> RowId, id: RowId)
    requires id !in Ids(xs, idOf)
    ensures Find(xs, idOf, id).None?
  {
    forall x | x in xs ensures idOf(x) != id {
      var k :| 0 <= k < |xs| && xs[k] == x;
      assert Ids(xs, idOf)[k] == idOf(x);
    }
  }

  lemma IdsPlus<T>(xs: seq<T>, ys: seq<T>, idOf: T -> RowId)
    ensures Ids(xs + ys, idOf) == Ids(xs, idOf) + Ids(ys, idOf)
  {
  }

  lemma RewrittenStep<T(!new)>(xs: seq<T>, ds: seq<T>, idOf: T -> RowId, merge: (Option<T>, T) -> T)
    requires KeepsId(idOf, merge) && Distinct(Ids(xs, idOf)) && ds != [] && Distinct(Ids(ds, idOf))
    ensures var d := ds[|ds| - 1]; var r := RewrittenAll(xs, xs, ds[..|ds| - 1], idOf, merge);
      RewrittenAll(xs, xs, ds, idOf, merge) == if idOf(d) in Ids(xs, idOf) then Upserted(r, d, idOf, merge) else r
  {
    var d := ds[|ds| - 1];
    var r := RewrittenAll(xs, xs, ds[..|ds| - 1], idOf, merge);
    IdsOfRewritten(xs, ds[..|ds| - 1], idOf, merge);
    forall k | 0 <= k < |xs| ensures Rewritten(xs, xs[k], ds, idOf, merge)
        == if idOf(r[k]) == idOf(d) then merge(Some(r[k]), d) else r[k]
    {
      assert Ids(r, idOf)[k] == Ids(xs, idOf)[k];
      RewriteOne(xs, ds, idOf, merge, k);
    }
    if idOf(d) !in Ids(xs, idOf) {
      forall k | 0 <= k < |xs| ensures idOf(r[k]) != idOf(d) {
        assert Ids(r, idOf)[k] == Ids(xs, idOf)[k];
      }
    }
  }

  lemma AddedAreOthers<T(!new)>(xs: seq<T>, ds: seq<T>, idOf: T -> RowId, merge: (Option<T>, T) -> T)
    requires KeepsId(idOf, merge) && ds != [] && Distinct(Ids(ds, idOf))
    ensures idOf(ds[|ds| - 1]) !in Ids(PlacedAll(xs, Added(Ids(xs, idOf), ds[..|ds| - 1], idOf), idOf, merge), idOf)
  {
    var front := ds[..|ds| - 1];
    var added := Added(Ids(xs, idOf), front, idOf);
    NotYet(ds, idOf);
    IdsOfPlaced(xs, added, idOf, merge);
    AddedIds(Ids(xs, idOf), front, idOf);
    forall k | 0 <= k < |added| ensures Ids(added, idOf)[k] != idOf(ds[|ds| - 1]) {
      assert added[k] in added;
    }
  }

  lemma UpsertedStep<T(!new)>(xs: seq<T>, ds: seq<T>, idOf: T -> RowId, merge: (Option<T>, T) -> T)
    requires KeepsId(idOf, merge) && Distinct(Ids(xs, idOf)) && ds != [] && Distinct(Ids(ds, idOf))
    ensures var front, d := ds[..|ds| - 1], ds[|ds| - 1];
      Upserted(RewrittenAll(xs, xs, front, idOf, merge) + PlacedAll(xs, Added(Ids(xs, idOf), front, idOf), idOf, merge), d, idOf, merge)
        == RewrittenAll(xs, xs, ds, idOf, merge) + PlacedAll(xs, Added(Ids(xs, idOf), ds, idOf), idOf, merge)
  {
    var front, d := ds[..|ds| - 1], ds[|ds| - 1];
    var added := Added(Ids(xs, idOf), front, idOf);
    var r, a := RewrittenAll(xs, xs, front, idOf, merge), PlacedAll(xs, added, idOf, merge);
    AddedAreOthers(xs, ds, idOf, merge);
    RewrittenStep(xs, ds, idOf, merge);
    assert Ids(r, idOf) == Ids(xs, idOf) by { IdsOfRewritten(xs, front, idOf, merge); }
    if idOf(d) in Ids(xs, idOf) {
      AppendUntouched(r, a, d, idOf, merge);
    } else {
      IdsPlus(r, a, idOf);
      assert Find(xs, idOf, idOf(d)).None? by { NotCached(xs, idOf, idOf(d)); }
      assert PlacedAll(xs, added + [d], idOf, merge) == a + [merge(None, d)];
    }
  }

  lemma AppendUntouched<T>(r: seq<T>, a: seq<T>, d: T, idOf: T -> RowId, merge: (Option<T>, T) -> T)
    requires idOf(d) in Ids(r, idOf) && idOf(d) !in Ids(a, idOf)
    ensures Upserted(r + a, d, idOf, merge) == Upserted(r, d, idOf, merge) + a
  {
    assert Ids(r + a, idOf) == Ids(r, idOf) + Ids(a, idOf);
    forall k | 0 <= k < |a| ensures idOf(a[k]) != idOf(d) {
      assert Ids(a, idOf)[k] == idOf(a[k]);
    }
  }

  // ---- after pruning ----

  lemma {:induction false} PrunedPlus<T>(xs: seq<T>, ys: seq<T>, idOf: T -> RowId, keep: set<RowId>)
    requires forall y | y in ys :: idOf(y) in keep
    ensures Pruned(xs + ys, idOf, keep) == Pruned(xs, idOf, keep) + ys
    decreases |ys|
  {
    if ys == [] {
      assert xs + ys == xs;
    } else {
      var n := |ys| - 1;
      assert (xs + ys)[..|xs + ys| - 1] == xs + ys[..n];
      assert ys == ys[..n] + [ys[n]] && ys[n] in ys;
      PrunedPlus(xs, ys[..n], idOf, keep);
    }
  }

  lemma {:induction false} PrunedIsKept<T(!new)>(prior: seq<T>, xs: seq<T>, ds: seq<T>, idOf: T -> RowId,
                                                 merge: (Option<T>, T) -> T, keep: set<RowId>)
    requires KeepsId(idOf, merge) && forall id :: id in keep <==> Find(ds, idOf, id).Some?
    ensures Pruned(RewrittenAll(prior, xs, ds, idOf, merge), idOf, keep)
         == PlacedAll(prior, Kept(Ids(xs, idOf), ds, idOf), idOf, merge)
    decreases |xs|
  {
    if xs != [] {
      var n := |xs| - 1;
      PrunedIsKept(prior, xs[..n], ds, idOf, merge, keep);
      assert Ids(xs[..n], idOf) == Ids(xs, idOf)[..n];
      var r := RewrittenAll(prior, xs, ds, idOf, merge);
      assert r[..n] == RewrittenAll(prior, xs[..n], ds, idOf, merge);
      assert r[n] == Rewritten(prior, xs[n], ds, idOf, merge);
    }
  }

  lemma FoundExactly<T>(ds: seq<T>, idOf: T -> RowId, id: RowId)
    requires Distinct(Ids(ds, idOf))
    ensures Find(ds, idOf, id).Some? <==> id in Ids(ds, idOf)
  {
    if id in Ids(ds, idOf) {
      var k :| 0 <= k < |ds| && Ids(ds, idOf)[k] == id;
      FindItself(ds, idOf, k);
    } else {
      NotCached(ds, idOf, id);
    }
  }

  lemma PlacedAreKept<T(!new)>(xs: seq<T>, ds: seq<T>, idOf: T -> RowId, merge: (Option<T>, T) -> T, keep: set<RowId>)
    requires KeepsId(idOf, merge) && forall d | d in ds :: idOf(d) in keep
    ensures forall y | y in PlacedAll(xs, Added(Ids(xs, idOf), ds, idOf), idOf, merge) :: idOf(y) in keep
  {
    var added := Added(Ids(xs, idOf), ds, idOf);
    AddedIds(Ids(xs, idOf), ds, idOf);
    assert forall k | 0 <= k < |added| :: added[k] in added;
  }

  lemma PlacedPlus<T>(xs: seq<T>, a: seq<T>, b: seq<T>, idOf: T -> RowId, merge: (Option<T>, T) -> T)
    ensures PlacedAll(xs, a + b, idOf, merge) == PlacedAll(xs, a, idOf, merge) + PlacedAll(xs, b, idOf, merge)
  {
  }

  lemma KeepIsFound<T>(ds: seq<T>, idOf: T -> RowId, keep: set<RowId>)
    requires Distinct(Ids(ds, idOf)) && forall id :: id in keep <==> id in Ids(ds, idOf)
    ensures (forall id :: id in keep <==> Find(ds, idOf, id).Some?) && forall d | d in ds :: idOf(d) in keep
  {
    forall id ensures id in keep <==> Find(ds, idOf, id).Some? {
      FoundExactly(ds, idOf, id);
    }
    forall d | d in ds ensures idOf(d) in keep {
      var k :| 0 <= k < |ds| && ds[k] == d;
      assert Ids(ds, idOf)[k] == idOf(d);
    }
  }

  /** Both loops together. */
  lemma LoopsMerge<T(!new)>(xs: seq<T>, ds: seq<T>, idOf: T -> RowId, merge: (Option<T>, T) -> T, keep: set<RowId>)
    requires KeepsId(idOf, merge) && Distinct(Ids(xs, idOf)) && Distinct(Ids(ds, idOf))
    requires forall id :: id in keep <==> id in Ids(ds, idOf)
    ensures Pruned(UpsertedAll(xs, ds, idOf, merge), idOf, keep)
         == PlacedAll(xs, Merged(Ids(xs, idOf), ds, idOf), idOf, merge)
  {
    var kept, added := Kept(Ids(xs, idOf), ds, idOf), Added(Ids(xs, idOf), ds, idOf);
    var front, back := RewrittenAll(xs, xs, ds, idOf, merge), PlacedAll(xs, added, idOf, merge);
    KeepIsFound(ds, idOf, keep);
    assert UpsertedAll(xs, ds, idOf, merge) == front + back by { UpsertedShape(xs, ds, idOf, merge); }
    assert Pruned(front, idOf, keep) == PlacedAll(xs, kept, idOf, merge) by { PrunedIsKept(xs, xs, ds, idOf, merge, keep); }
    PlacedAreKept(xs, ds, idOf, merge, keep);
    PrunedPlus(front, back, idOf, keep);
    PlacedPlus(xs, kept, added, idOf, merge);
  }

  // ---- the two instances ----

  function WriteFinding(was: Option<FindingRec>, d: FindingRec): FindingRec { d }

  /** A section found or made, and its findings synced. */
  function WriteSection(was: Option<SectionRec>, d: SectionRec): SectionRec {
    d.(findings := Merged(if was.Some? then Ids(was.value.findings, FindingId) else [], d.findings, FindingId))
  }

  lemma FindingLoops(xs: seq<FindingRec>, ds: seq<FindingRec>, keep: set<RowId>)
    requires Distinct(Ids(xs, FindingId)) && Distinct(Ids(ds, FindingId))
    requires forall id :: id in keep <==> id in Ids(ds, FindingId)
    ensures Pruned(UpsertedAll(xs, ds, FindingId, WriteFinding), FindingId, keep) == Merged(Ids(xs, FindingId), ds, FindingId)
  {
    LoopsMerge(xs, ds, FindingId, WriteFinding, keep);
    var rows := Merged(Ids(xs, FindingId), ds, FindingId);
    assert PlacedAll(xs, rows, FindingId, WriteFinding) == rows;
  }

  lemma SectionLoops(xs: seq<SectionRec>, ds: seq<SectionRec>, keep: set<RowId>)
    requires Distinct(Ids(xs, SectionId)) && Distinct(Ids(ds, SectionId))
    requires forall id :: id in keep <==> id in Ids(ds, SectionId)
    ensures Pruned(UpsertedAll(xs, ds, SectionId, WriteSection), SectionId, keep) == SyncedTree(xs, ds)
  {
    LoopsMerge(xs, ds, SectionId, WriteSection, keep);
    var rows := Merged(Ids(xs, SectionId), ds, SectionId);
    forall k | 0 <= k < |rows| ensures Placed(xs, rows[k], SectionId, WriteSection) == MergedFindings(xs, rows[k]) {
    }
  }
}
