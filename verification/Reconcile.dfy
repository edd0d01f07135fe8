/**
 What syncSections and syncFindings leave in a cached list, as a value: survivors in their old order,
 then the newcomers in the order of the DTOs.
 */
module Reconcile {
  import opened Basics
  import opened ReportTree

  // ---- one level, for findings and sections alike ----

  function Ids<T>(xs: seq<T>, idOf: T -> RowId): seq<RowId> {
    seq(|xs|, i requires 0 <= i < |xs| => idOf(xs[i]))
  }

  ghost predicate Distinct(ids: seq<RowId>) {
    forall i, j | 0 <= i < j < |ids| :: ids[i] != ids[j]
  }

  /** The DTO with this id. */
  function Find<T>(xs: seq<T>, idOf: T -> RowId, id: RowId): (r: Option<T>)
    ensures r.Some? ==> r.value in xs && idOf(r.value) == id
    ensures r.None? ==> forall x | x in xs :: idOf(x) != id
  {
    if xs == [] then None
    else if idOf(xs[|xs| - 1]) == id then Some(xs[|xs| - 1])
    else
      var r := Find(xs[..|xs| - 1], idOf, id);
      assert xs == xs[..|xs| - 1] + [xs[|xs| - 1]];
      r
  }

  /** The DTOs of the ids already cached, in cache order. */
  function Kept<T>(ids: seq<RowId>, dtos: seq<T>, idOf: T -> RowId): seq<T> {
    if ids == [] then []
    else
      var n := |ids| - 1;
      Kept(ids[..n], dtos, idOf) + (match Find(dtos, idOf, ids[n]) case Some(d) => [d] case None => [])
  }

  /** The DTOs of ids not cached, in DTO order. */
  function Added<T>(ids: seq<RowId>, dtos: seq<T>, idOf: T -> RowId): seq<T> {
    if dtos == [] then []
    else
      var n := |dtos| - 1;
      Added(ids, dtos[..n], idOf) + (if idOf(dtos[n]) in ids then [] else [dtos[n]])
  }

  function Merged<T>(ids: seq<RowId>, dtos: seq<T>, idOf: T -> RowId): seq<T> {
    Kept(ids, dtos, idOf) + Added(ids, dtos, idOf)
  }

  lemma {:induction false} AddedPlain<T>(ids: seq<RowId>, dtos: seq<T>, idOf: T -> RowId)
    requires forall i | 0 <= i < |dtos| :: idOf(dtos[i]) !in ids
    ensures Added(ids, dtos, idOf) == dtos
    decreases |dtos|
  {
    if dtos != [] {
      AddedPlain(ids, dtos[..|dtos| - 1], idOf);
      assert dtos == dtos[..|dtos| - 1] + [dtos[|dtos| - 1]];
    }
  }

  lemma {:induction false} AddedNone<T>(ids: seq<RowId>, dtos: seq<T>, idOf: T -> RowId)
    requires forall i | 0 <= i < |dtos| :: idOf(dtos[i]) in ids
    ensures Added(ids, dtos, idOf) == []
    decreases |dtos|
  {
    if dtos != [] { AddedNone(ids, dtos[..|dtos| - 1], idOf); }
  }

  /** Moving one id into the cached ones takes at most its DTO out of Added. */
  lemma {:induction false} AddedLessOne<T>(ids: seq<RowId>, id: RowId, dtos: seq<T>, idOf: T -> RowId)
    requires id !in ids && Distinct(Ids(dtos, idOf))
    ensures multiset(Added(ids, dtos, idOf)) == multiset(Added(ids + [id], dtos, idOf))
             + (match Find(dtos, idOf, id) case Some(d) => multiset{d} case None => multiset{})
    decreases |dtos|
  {
    if dtos != [] {
      var n := |dtos| - 1;
      assert Ids(dtos[..n], idOf) == Ids(dtos, idOf)[..n];
      AddedLessOne(ids, id, dtos[..n], idOf);
      if idOf(dtos[n]) == id { LastIsFirst(dtos, idOf); }
    }
  }

  lemma LastIsFirst<T>(xs: seq<T>, idOf: T -> RowId)
    requires xs != [] && Distinct(Ids(xs, idOf))
    ensures Find(xs[..|xs| - 1], idOf, idOf(xs[|xs| - 1])).None?
  {
    var n := |xs| - 1;
    forall i | 0 <= i < n ensures idOf(xs[i]) != idOf(xs[n]) {
      assert Ids(xs, idOf)[i] != Ids(xs, idOf)[n];
    }
  }

  /** The merged list holds exactly the DTOs. */
  lemma {:induction false} MergedHoldsDtos<T>(ids: seq<RowId>, dtos: seq<T>, idOf: T -> RowId)
    requires Distinct(ids) && Distinct(Ids(dtos, idOf))
    ensures multiset(Merged(ids, dtos, idOf)) == multiset(dtos)
    decreases |ids|
  {
    if ids == [] {
      AddedPlain(ids, dtos, idOf);
    } else {
      var n := |ids| - 1;
      MergedHoldsDtos(ids[..n], dtos, idOf);
      AddedLessOne(ids[..n], ids[n], dtos, idOf);
      assert ids[..n] + [ids[n]] == ids;
    }
  }

  lemma SameItemsDistinct<T>(xs: seq<T>, ys: seq<T>, idOf: T -> RowId)
    requires multiset(xs) == multiset(ys) && Distinct(Ids(ys, idOf))
    ensures Distinct(Ids(xs, idOf))
    ensures forall x | x in xs :: Find(ys, idOf, idOf(x)) == Some(x)
    ensures forall y | y in ys :: y in xs
  {
    forall x | x in xs ensures Find(ys, idOf, idOf(x)) == Some(x) {
      assert x in multiset(ys);
      var i :| 0 <= i < |ys| && ys[i] == x;
      assert Ids(ys, idOf)[i] == idOf(x);
      var f := Find(ys, idOf, idOf(x));
      var j :| 0 <= j < |ys| && ys[j] == f.value;
      assert Ids(ys, idOf)[j] == idOf(x);
    }
    forall y | y in ys ensures y in xs {
      assert y in multiset(xs);
    }
    forall i, j | 0 <= i < j < |xs| ensures idOf(xs[i]) != idOf(xs[j]) {
      if idOf(xs[i]) == idOf(xs[j]) {
        assert xs[i] in xs && xs[j] in xs;
        AtMostOnce(ys, idOf, xs[i]);
        AtLeastTwice(xs, i, j);
      }
    }
  }

  lemma FindItself<T>(xs: seq<T>, idOf: T -> RowId, k: nat)
    requires Distinct(Ids(xs, idOf)) && k < |xs|
    ensures Find(xs, idOf, idOf(xs[k])) == Some(xs[k])
  {
    SameItemsDistinct(xs, xs, idOf);
    assert xs[k] in xs;
  }

  lemma {:induction false} AtMostOnce<T>(xs: seq<T>, idOf: T -> RowId, x: T)
    requires Distinct(Ids(xs, idOf))
    ensures multiset(xs)[x] <= 1
    decreases |xs|
  {
    if xs != [] {
      var n := |xs| - 1;
      assert Ids(xs[..n], idOf) == Ids(xs, idOf)[..n];
      AtMostOnce(xs[..n], idOf, x);
      LastIsFirst(xs, idOf);
      assert xs == xs[..n] + [xs[n]];
      assert x in multiset(xs[..n]) ==> x in xs[..n];
    }
  }

  lemma AtLeastTwice<T>(xs: seq<T>, i: nat, j: nat)
    requires i < j < |xs| && xs[i] == xs[j]
    ensures multiset(xs)[xs[i]] >= 2
  {
    assert xs == xs[..j] + xs[j..];
    assert xs[..j][i] in multiset(xs[..j]) && xs[j..][0] in multiset(xs[j..]);
  }

  lemma {:induction false} KeptFound<T>(xs: seq<T>, dtos: seq<T>, idOf: T -> RowId)
    requires forall x | x in xs :: Find(dtos, idOf, idOf(x)) == Some(x)
    ensures Kept(Ids(xs, idOf), dtos, idOf) == xs
    decreases |xs|
  {
    if xs != [] {
      var n := |xs| - 1;
      assert forall x | x in xs[..n] :: x in xs;
      KeptFound(xs[..n], dtos, idOf);
      assert Ids(xs, idOf)[..n] == Ids(xs[..n], idOf);
      assert xs[n] in xs;
      assert xs == xs[..n] + [xs[n]];
    }
  }

  /** A list that already holds exactly the DTOs is left as it is. */
  lemma MergedFixed<T>(xs: seq<T>, dtos: seq<T>, idOf: T -> RowId)
    requires multiset(xs) == multiset(dtos) && Distinct(Ids(dtos, idOf))
    ensures Merged(Ids(xs, idOf), dtos, idOf) == xs
  {
    SameItemsDistinct(xs, dtos, idOf);
    KeptFound(xs, dtos, idOf);
    forall i | 0 <= i < |dtos| ensures idOf(dtos[i]) in Ids(xs, idOf) {
      assert dtos[i] in dtos;
      var k :| 0 <= k < |xs| && xs[k] == dtos[i];
      assert Ids(xs, idOf)[k] == idOf(dtos[i]);
    }
    AddedNone(Ids(xs, idOf), dtos, idOf);
  }

  // ---- the two levels ----

  function FindingId(f: FindingRec): RowId { f.id }

  function SectionId(s: SectionRec): RowId { s.id }

  ghost predicate WellFormed(tree: seq<SectionRec>) {
    && Distinct(Ids(tree, SectionId))
    && forall k | 0 <= k < |tree| :: Distinct(Ids(tree[k].findings, FindingId))
  }

  /** The findings cached under this section id. */
  function PriorFindings(tree: seq<SectionRec>, id: RowId): seq<RowId> {
    match Find(tree, SectionId, id)
    case Some(s) => Ids(s.findings, FindingId)
    case None => []
  }

  function MergedFindings(prior: seq<SectionRec>, s: SectionRec): SectionRec {
    s.(findings := Merged(PriorFindings(prior, s.id), s.findings, FindingId))
  }

  /** syncSections. */
  function SyncedTree(prior: seq<SectionRec>, dtos: seq<SectionRec>): seq<SectionRec> {
    var rows := Merged(Ids(prior, SectionId), dtos, SectionId);
    seq(|rows|, k requires 0 <= k < |rows| => MergedFindings(prior, rows[k]))
  }

  lemma PriorFindingsDistinct(prior: seq<SectionRec>, id: RowId)
    requires WellFormed(prior)
    ensures Distinct(PriorFindings(prior, id))
  {
    var s := Find(prior, SectionId, id);
    if s.Some? {
      var k :| 0 <= k < |prior| && prior[k] == s.value;
    }
  }

  function Mapped<T, U>(xs: seq<T>, f: T -> U): seq<U> {
    seq(|xs|, k requires 0 <= k < |xs| => f(xs[k]))
  }

  lemma MappedPlus<T, U>(xs: seq<T>, ys: seq<T>, f: T -> U)
    ensures Mapped(xs + ys, f) == Mapped(xs, f) + Mapped(ys, f)
  {
  }

  lemma WithoutOne<T>(x: T, rest: seq<T>, a: seq<T>, b: seq<T>)
    requires multiset([x] + rest) == multiset(a + ([x] + b))
    ensures multiset(rest) == multiset(a + b)
  {
    assert multiset([x] + rest) == multiset{x} + multiset(rest);
    assert multiset(a + ([x] + b)) == multiset(a) + (multiset{x} + multiset(b));
    assert multiset(rest) == multiset([x] + rest) - multiset{x};
    assert multiset(a) + multiset(b) == multiset(a + ([x] + b)) - multiset{x};
  }

  lemma {:induction false} MappedPermutes<T, U>(xs: seq<T>, ys: seq<T>, f: T -> U)
    requires multiset(xs) == multiset(ys)
    ensures multiset(Mapped(xs, f)) == multiset(Mapped(ys, f))
    decreases |xs|
  {
    assert |multiset(xs)| == |xs| && |multiset(ys)| == |ys|;
    if xs != [] {
      var x, rest := xs[0], xs[1..];
      assert xs == [x] + rest && x in multiset(ys);
      var i :| 0 <= i < |ys| && ys[i] == x;
      var a, b := ys[..i], ys[i + 1..];
      assert ys == a + ([x] + b);
      WithoutOne(x, rest, a, b);
      MappedPermutes(rest, a + b, f);
      MappedPlus([x], rest, f);
      MappedPlus(a, [x] + b, f);
      MappedPlus([x], b, f);
      MappedPlus(a, b, f);
    }
  }

  /** The merged section of a DTO is the DTO with its findings in another order. */
  lemma MergedSectionSame(prior: seq<SectionRec>, s: SectionRec)
    requires WellFormed(prior) && Distinct(Ids(s.findings, FindingId))
    ensures SameSection(s, MergedFindings(prior, s)) && SameSection(MergedFindings(prior, s), s)
    ensures Distinct(Ids(MergedFindings(prior, s).findings, FindingId))
  {
    PriorFindingsDistinct(prior, s.id);
    MergedHoldsDtos(PriorFindings(prior, s.id), s.findings, FindingId);
    SameItemsDistinct(MergedFindings(prior, s).findings, s.findings, FindingId);
  }

  /** Whatever was cached, the tree afterwards is the DTO tree with its rows in another order, and nothing else. */
  lemma SyncedIsTheDtoTree(prior: seq<SectionRec>, dtos: seq<SectionRec>)
    requires WellFormed(prior) && WellFormed(dtos)
    ensures WellFormed(SyncedTree(prior, dtos))
    ensures Shuffled(dtos, SyncedTree(prior, dtos)) && Shuffled(SyncedTree(prior, dtos), dtos)
  {
    var rows := Merged(Ids(prior, SectionId), dtos, SectionId);
    var tree := SyncedTree(prior, dtos);
    MergedHoldsDtos(Ids(prior, SectionId), dtos, SectionId);
    SameItemsDistinct(rows, dtos, SectionId);
    assert Ids(tree, SectionId) == Ids(rows, SectionId);
    forall k | 0 <= k < |rows|
      ensures SameSection(rows[k], tree[k]) && Distinct(Ids(tree[k].findings, FindingId))
    {
      assert rows[k] in multiset(dtos);
      var j :| 0 <= j < |dtos| && dtos[j] == rows[k];
      MergedSectionSame(prior, rows[k]);
    }
    assert ShuffledVia(dtos, rows, tree);
    SyncedBack(prior, dtos);
  }

  lemma SyncedBack(prior: seq<SectionRec>, dtos: seq<SectionRec>)
    requires WellFormed(prior) && WellFormed(dtos)
    ensures Shuffled(SyncedTree(prior, dtos), dtos)
  {
    var rows := Merged(Ids(prior, SectionId), dtos, SectionId);
    var merge := s => MergedFindings(prior, s);
    var aligned := Mapped(dtos, merge);
    MergedHoldsDtos(Ids(prior, SectionId), dtos, SectionId);
    MappedPermutes(rows, dtos, merge);
    assert SyncedTree(prior, dtos) == Mapped(rows, merge);
    forall k | 0 <= k < |dtos| ensures SameSection(aligned[k], dtos[k]) {
      MergedSectionSame(prior, dtos[k]);
    }
    assert ShuffledVia(SyncedTree(prior, dtos), aligned, dtos);
  }

  lemma SectionSyncTwice(prior: seq<SectionRec>, tree: seq<SectionRec>, s: SectionRec)
    requires WellFormed(prior) && Distinct(Ids(s.findings, FindingId))
    requires Find(tree, SectionId, s.id) == Some(MergedFindings(prior, s))
    ensures MergedFindings(tree, s) == MergedFindings(prior, s)
  {
    PriorFindingsDistinct(prior, s.id);
    MergedHoldsDtos(PriorFindings(prior, s.id), s.findings, FindingId);
    MergedFixed(MergedFindings(prior, s).findings, s.findings, FindingId);
  }

  /** Applying the same DTOs again changes nothing, not even the order of the rows. */
  lemma SyncTwice(prior: seq<SectionRec>, dtos: seq<SectionRec>)
    requires WellFormed(prior) && WellFormed(dtos)
    ensures SyncedTree(SyncedTree(prior, dtos), dtos) == SyncedTree(prior, dtos)
  {
    var rows := Merged(Ids(prior, SectionId), dtos, SectionId);
    var tree := SyncedTree(prior, dtos);
    assert Distinct(Ids(tree, SectionId)) by { SyncedIsTheDtoTree(prior, dtos); }
    assert Ids(tree, SectionId) == Ids(rows, SectionId);
    assert multiset(rows) == multiset(dtos) by { MergedHoldsDtos(Ids(prior, SectionId), dtos, SectionId); }
    assert Merged(Ids(tree, SectionId), dtos, SectionId) == rows by { MergedFixed(rows, dtos, SectionId); }
    forall k | 0 <= k < |rows| ensures MergedFindings(tree, rows[k]) == tree[k] {
      assert rows[k] in multiset(dtos);
      var j :| 0 <= j < |dtos| && dtos[j] == rows[k];
      FindItself(tree, SectionId, k);
      SectionSyncTwice(prior, tree, rows[k]);
    }
  }
}
