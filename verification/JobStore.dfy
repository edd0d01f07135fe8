/**
 The device's job store over its managed objects: jobs, sections and findings with mutable fields, and
 the in-place reconciliation of the cached tree with a server tree.
 */
module JobStores {
  import opened Basics
  import opened ReportTree
  import opened Reconcile
  import opened ReconcileSteps
  import opened Pipeline
  import opened JobCache

  class Finding {
    const id: RowId
    var text: string
    var severity: Severity
    var sortOrder: int

    constructor (dto: FindingRec)
      ensures id == dto.id && Rec() == dto
    {
      id, text, severity, sortOrder := dto.id, dto.text, dto.severity, dto.sortOrder;
    }

    function Rec(): FindingRec
      reads this
    {
      FindingRec(id, text, severity, sortOrder)
    }
  }

  function Recs(fs: seq<Finding>): (r: seq<FindingRec>)
    reads fs
    ensures |r| == |fs| && forall i | 0 <= i < |fs| :: r[i] == fs[i].Rec()
  {
    if fs == [] then [] else Recs(fs[..|fs| - 1]) + [fs[|fs| - 1].Rec()]
  }

  class Section {
    const id: RowId
    var title: string
    var sortOrder: int
    var findings: seq<Finding>
    ghost var repr: set<Finding>   // every finding object it ever held
    ghost var view: SectionRec     // its value, findings included

    constructor (dto: SectionRec)
      ensures id == dto.id && findings == [] && repr == {} && Valid()
      ensures view == dto.(findings := [])
    {
      id, title, sortOrder, findings := dto.id, dto.title, dto.sortOrder, [];
      repr, view := {}, dto.(findings := []);
    }

    ghost predicate Owns()
      reads this
    {
      DistinctFindings(findings) && forall f | f in findings :: f in repr
    }

    ghost predicate Valid()
      reads this, repr
    {
      Owns() && view == SectionRec(id, title, sortOrder, Recs(findings))
    }
  }

  ghost predicate DistinctFindings(fs: seq<Finding>) {
    forall i, j | 0 <= i < j < |fs| :: fs[i].id != fs[j].id
  }

  /** The dictionary of the first loop. */
  ghost predicate Indexed(fs: seq<Finding>, existing: map<RowId, Finding>) {
    && (forall f | f in fs :: f.id in existing && existing[f.id] == f)
    && (forall id | id in existing :: existing[id] in fs && existing[id].id == id)
  }

  lemma IdsOfRecs(fs: seq<Finding>)
    ensures |Ids(Recs(fs), FindingId)| == |fs| && forall k | 0 <= k < |fs| :: Ids(Recs(fs), FindingId)[k] == fs[k].id
    ensures Distinct(Ids(Recs(fs), FindingId)) <==> DistinctFindings(fs)
  {
    IdsAre(Recs(fs));
  }

  lemma IdsAre(recs: seq<FindingRec>)
    ensures |Ids(recs, FindingId)| == |recs|
    ensures forall k | 0 <= k < |recs| :: Ids(recs, FindingId)[k] == recs[k].id
  {
    forall k | 0 <= k < |recs| ensures Ids(recs, FindingId)[k] == recs[k].id {
      assert FindingId(recs[k]) == recs[k].id;
    }
  }

  function FindingKey(f: Finding): RowId { f.id }

  lemma {:induction false} PrunedRecs(fs: seq<Finding>, keep: set<RowId>)
    ensures Recs(Pruned(fs, FindingKey, keep)) == Pruned(Recs(fs), FindingId, keep)
    decreases |fs|
  {
    if fs != [] {
      var front := fs[..|fs| - 1];
      PrunedRecs(front, keep);
      assert Recs(fs)[..|fs| - 1] == Recs(front);
      assert Pruned(fs, FindingKey, keep) == Pruned(front, FindingKey, keep) || Pruned(fs, FindingKey, keep)[..|Pruned(fs, FindingKey, keep)| - 1] == Pruned(front, FindingKey, keep);
    }
  }

  lemma {:induction false} PrunedMembers<T>(xs: seq<T>, idOf: T -> RowId, keep: set<RowId>)
    ensures forall x | x in xs && idOf(x) in keep :: x in Pruned(xs, idOf, keep)
    ensures forall x | x in Pruned(xs, idOf, keep) :: x in xs && idOf(x) in keep
    decreases |xs|
  {
    if xs != [] {
      PrunedMembers(xs[..|xs| - 1], idOf, keep);
      assert xs == xs[..|xs| - 1] + [xs[|xs| - 1]];
    }
  }

  lemma IndexedPlus(fs: seq<Finding>, existing: map<RowId, Finding>, f: Finding)
    requires DistinctFindings(fs) && Indexed(fs, existing) && f.id !in existing
    ensures DistinctFindings(fs + [f]) && Indexed(fs + [f], existing[f.id := f])
    ensures forall g | g in fs + [f] :: g in fs || g == f
  {
    forall i | 0 <= i < |fs| ensures fs[i].id != f.id {
      assert fs[i] in fs;
    }
  }

  lemma NotIndexed(fs: seq<Finding>, existing: map<RowId, Finding>, id: RowId)
    requires Indexed(fs, existing) && id !in existing
    ensures id !in Ids(Recs(fs), FindingId)
  {
    IdsAre(Recs(fs));
    forall k | 0 <= k < |fs| ensures fs[k].id != id {
      assert fs[k] in fs;
    }
  }

  lemma UpsertedAt<T>(xs: seq<T>, d: T, k: nat, idOf: T -> RowId, merge: (Option<T>, T) -> T)
    requires Distinct(Ids(xs, idOf)) && k < |xs| && idOf(xs[k]) == idOf(d)
    ensures Upserted(xs, d, idOf, merge) == xs[k := merge(Some(xs[k]), d)]
  {
    assert Ids(xs, idOf)[k] == idOf(d);
    forall i | 0 <= i < |xs| && i != k ensures idOf(xs[i]) != idOf(d) {
      assert Ids(xs, idOf)[i] != Ids(xs, idOf)[k];
    }
  }

  lemma UpsertedNext<T>(xs: seq<T>, ds: seq<T>, d: T, idOf: T -> RowId, merge: (Option<T>, T) -> T)
    ensures UpsertedAll(xs, ds + [d], idOf, merge) == Upserted(UpsertedAll(xs, ds, idOf, merge), d, idOf, merge)
  {
    assert (ds + [d])[..|ds + [d]| - 1] == ds;
  }

  ghost predicate KeepsIds<T>(keep: set<RowId>, ds: seq<T>, idOf: T -> RowId) {
    forall id :: id in keep <==> id in Ids(ds, idOf)
  }

  lemma KeepsNext<T>(keep: set<RowId>, ds: seq<T>, d: T, idOf: T -> RowId)
    requires KeepsIds(keep, ds, idOf)
    ensures KeepsIds(keep + {idOf(d)}, ds + [d], idOf)
  {
    assert Ids(ds + [d], idOf) == Ids(ds, idOf) + [idOf(d)];
  }

  lemma FindingsSynced(recs: seq<FindingRec>, dtos: seq<FindingRec>, keep: set<RowId>)
    requires Distinct(Ids(recs, FindingId)) && Distinct(Ids(dtos, FindingId))
    requires forall id :: id in keep <==> id in Ids(dtos, FindingId)
    ensures Pruned(UpsertedAll(recs, dtos, FindingId, WriteFinding), FindingId, keep) == Merged(Ids(recs, FindingId), dtos, FindingId)
    ensures Distinct(Ids(Merged(Ids(recs, FindingId), dtos, FindingId), FindingId))
  {
    FindingLoops(recs, dtos, keep);
    MergedHoldsDtos(Ids(recs, FindingId), dtos, FindingId);
    SameItemsDistinct(Merged(Ids(recs, FindingId), dtos, FindingId), dtos, FindingId);
  }

  /** The first loop of syncFindings after the DTOs ds: was and recs are the list it found. */
  ghost predicate Progress(section: Section, existing: map<RowId, Finding>, was: seq<Finding>,
                           recs: seq<FindingRec>, ds: seq<FindingRec>)
    reads section, section.findings
  {
    && section.Owns() && Indexed(section.findings, existing)
    && was <= section.findings
    && Recs(section.findings) == UpsertedAll(recs, ds, FindingId, WriteFinding)
  }

  // ---- sections and jobs ----

  ghost function Views(ss: seq<Section>): (r: seq<SectionRec>)
    reads ss
  {
    seq(|ss|, i requires 0 <= i < |ss| reads ss => ss[i].view)
  }

  ghost predicate DistinctSections(ss: seq<Section>) {
    forall i, j | 0 <= i < j < |ss| :: ss[i].id != ss[j].id
  }

  /** No two sections share a finding object. */
  ghost predicate Separate(ss: seq<Section>)
    reads ss
  {
    forall i, j | 0 <= i < j < |ss| :: ss[i].repr !! ss[j].repr
  }

  ghost predicate IndexedSections(ss: seq<Section>, existing: map<RowId, Section>) {
    && (forall s | s in ss :: s.id in existing && existing[s.id] == s)
    && (forall id | id in existing :: existing[id] in ss && existing[id].id == id)
  }

  function SectionKey(s: Section): RowId { s.id }

  /** Findings of the same id in the two lists are the same object. */
  ghost predicate SameObjects(was: seq<Finding>, now: seq<Finding>) {
    forall f, g | f in was && g in now && f.id == g.id :: f == g
  }

  class Job {
    var labelText: string
    var status: Status
    var transcript: Option<string>
    var error: Option<string>
    var pdfUrl: Option<string>
    const createdAt: int
    var updatedAt: int
    var dirty: bool
    var upload: Upload
    var sections: seq<Section>
    ghost var owned: set<Section>   // every section object it ever held
    ghost var parts: set<Finding>   // and every finding object in them
    ghost var value: CachedJob      // its value, tree included

    ghost predicate Owns()
      reads `sections, `owned, `parts, owned, parts
    {
      && (forall s | s in sections :: s in owned && s.repr <= parts)
      && DistinctSections(sections) && Separate(sections)
      && (forall s | s in sections :: s.Valid())
    }

    ghost predicate Valid()
      reads this, owned, parts
    {
      && Owns()
      && value == CachedJob(labelText, status, transcript, error, pdfUrl, createdAt, updatedAt, dirty, upload, Views(sections))
    }

    constructor (dto: JobDto)
      ensures Valid() && owned == {} && parts == {}
      ensures value == CachedJob(dto.labelText, dto.status, dto.transcript, dto.error, dto.pdfUrl,
                                 Stamp(dto.createdAt), Stamp(dto.updatedAt), false, NO_UPLOAD, [])
    {
      labelText, status, createdAt, updatedAt := dto.labelText, dto.status, Stamp(dto.createdAt), Stamp(dto.updatedAt);
      transcript, error, pdfUrl := dto.transcript, dto.error, dto.pdfUrl;
      dirty, upload := false, NO_UPLOAD;
      sections, owned, parts := [], {}, {};
      value := CachedJob(dto.labelText, dto.status, dto.transcript, dto.error, dto.pdfUrl,
                         Stamp(dto.createdAt), Stamp(dto.updatedAt), false, NO_UPLOAD, []);
    }
  }

  /** The first loop of syncSections after the DTOs ds: was and recs are the list it found. */
  ghost predicate JobProgress(job: Job, existing: map<RowId, Section>, was: seq<Section>,
                              recs: seq<SectionRec>, ds: seq<SectionRec>)
    reads job, job.owned, job.parts
  {
    && job.Owns() && IndexedSections(job.sections, existing)
    && was <= job.sections
    && Views(job.sections) == UpsertedAll(recs, ds, SectionId, WriteSection)
  }

  lemma IdsOfViews(ss: seq<Section>)
    requires forall s | s in ss :: s.Valid()
    ensures |Ids(Views(ss), SectionId)| == |ss| && forall k | 0 <= k < |ss| :: Ids(Views(ss), SectionId)[k] == ss[k].id
    ensures Distinct(Ids(Views(ss), SectionId)) <==> DistinctSections(ss)
  {
    forall k | 0 <= k < |ss| ensures Ids(Views(ss), SectionId)[k] == ss[k].id {
      assert ss[k] in ss;
      assert SectionId(Views(ss)[k]) == ss[k].view.id;
    }
  }

  lemma SeparatePlus(ss: seq<Section>, section: Section, parts: set<Finding>)
    requires DistinctSections(ss) && Separate(ss) && section.repr !! parts
    requires forall s | s in ss :: s.repr <= parts && s.id != section.id
    ensures DistinctSections(ss + [section]) && Separate(ss + [section])
    ensures forall s | s in ss + [section] :: s in ss || s == section
    ensures Views(ss + [section]) == Views(ss) + [section.view]
  {
    assert forall i | 0 <= i < |ss| :: ss[i] in ss;
  }

  lemma {:induction false} PrunedViews(ss: seq<Section>, keep: set<RowId>)
    requires forall s | s in ss :: s.Valid()
    ensures Views(Pruned(ss, SectionKey, keep)) == Pruned(Views(ss), SectionId, keep)
    decreases |ss|
  {
    if ss != [] {
      var n := |ss| - 1;
      PrunedViews(ss[..n], keep);
      assert Views(ss)[..n] == Views(ss[..n]);
      assert ss[n] in ss && SectionId(Views(ss)[n]) == SectionKey(ss[n]);
    }
  }

  lemma {:induction false} PrunedSeparate(ss: seq<Section>, keep: set<RowId>)
    requires DistinctSections(ss) && Separate(ss)
    ensures DistinctSections(Pruned(ss, SectionKey, keep)) && Separate(Pruned(ss, SectionKey, keep))
    decreases |ss|
  {
    if ss != [] {
      var n := |ss| - 1;
      var kept := Pruned(ss[..n], SectionKey, keep);
      PrunedSeparate(ss[..n], keep);
      PrunedMembers(ss[..n], SectionKey, keep);
      forall i | 0 <= i < |kept| ensures kept[i].id != ss[n].id && kept[i].repr !! ss[n].repr {
        assert kept[i] in kept;
        var j :| 0 <= j < n && ss[j] == kept[i];
      }
    }
  }

  lemma TreeSynced(recs: seq<SectionRec>, dtos: seq<SectionRec>, keep: set<RowId>)
    requires Distinct(Ids(recs, SectionId)) && WellFormed(dtos) && KeepsIds(keep, dtos, SectionId)
    ensures Pruned(UpsertedAll(recs, dtos, SectionId, WriteSection), SectionId, keep) == SyncedTree(recs, dtos)
  {
    SectionLoops(recs, dtos, keep);
  }

  /** A DTO's id is none of the earlier ones'. */
  lemma NewId(dtos: seq<SectionRec>, i: nat)
    requires i < |dtos| && WellFormed(dtos)
    ensures Ids(dtos[..i + 1], SectionId) == Ids(dtos[..i], SectionId) + [dtos[i].id]
    ensures dtos[i].id !in Ids(dtos[..i], SectionId)
  {
    forall j | 0 <= j < i ensures Ids(dtos[..i], SectionId)[j] != dtos[i].id {
      assert Ids(dtos, SectionId)[j] != Ids(dtos, SectionId)[i];
      assert SectionId(dtos[i]) == dtos[i].id;
    }
    assert SectionId(dtos[..i + 1][i]) == dtos[i].id;
  }

  /** After the DTOs with ids `done`: each prior section's findings against those it had, `before`. */
  ghost predicate Rewrites(was: seq<Section>, before: map<Section, seq<Finding>>, done: seq<RowId>)
    reads was
  {
    forall s | s in was ::
      s in before && SameObjects(before[s], s.findings) && (s.id !in done ==> s.findings == before[s])
  }

  lemma SurvivorsAreSame(was: seq<Finding>, now: seq<Finding>, ids: seq<RowId>)
    requires DistinctFindings(now) && forall f | f in was :: f in now <==> f.id in ids
    requires forall g | g in now :: g.id in ids
    ensures SameObjects(was, now)
  {
    forall f, g | f in was && g in now && f.id == g.id ensures f == g {
      assert f in now;
    }
  }

  lemma ViewsUpserted(ss: seq<Section>, k: nat, dto: SectionRec)
    requires k < |ss| && ss[k].id == dto.id && DistinctSections(ss) && forall s | s in ss :: s.Valid()
    ensures Upserted(Views(ss), dto, SectionId, WriteSection) == Views(ss)[k := WriteSection(Some(ss[k].view), dto)]
  {
    IdsOfViews(ss);
    assert SectionId(Views(ss)[k]) == dto.id;
    UpsertedAt(Views(ss), dto, k, SectionId, WriteSection);
  }

  lemma OneViewChanged(ss: seq<Section>, views: seq<SectionRec>, k: nat)
    requires |views| == |ss| && k < |ss| && forall i | 0 <= i < |ss| && i != k :: views[i] == ss[i].view
    ensures Views(ss) == views[k := ss[k].view]
  {
  }

  /** What can happen to a cached job: a server DTO is merged, or an edit is saved. */
  datatype Change = Pulled(dto: JobDto) | Edited(labelText: string, sections: seq<SectionRec>, now: int)

  function Changed(job: CachedJob, change: Change): CachedJob {
    match change
    case Pulled(dto) => UpsertOne(Some(job), dto)
    case Edited(labelText, sections, now) => EditOne(job, labelText, sections, now)
  }

  ghost predicate ChangeWellFormed(change: Change) {
    WellFormed(if change.Pulled? then change.dto.sections else change.sections)
  }

  lemma OneWritten(before: Cache, after: Cache, id: JobId, job: CachedJob)
    requires id in before && after.Keys == before.Keys && after[id] == job
    requires forall a | a in before && a != id :: after[a] == before[a]
    ensures after == before[id := job]
  {
  }

  lemma OneInserted(before: Cache, after: Cache, id: JobId, job: CachedJob)
    requires after.Keys == before.Keys + {id} && id !in before && after[id] == job
    requires forall a | a in before :: after[a] == before[a]
    ensures after == before[id := job]
  {
  }

  lemma UpsertIs(c: Cache, d: JobDto)
    ensures Upsert(c, d) == c[d.id := if d.id in c then Changed(c[d.id], Pulled(d)) else UpsertOne(None, d)]
  {
  }

  /** The store of all cached jobs (SwiftData's context): jobs share no managed object. */
  class JobStore {
    var jobs: map<JobId, Job>
    ghost var held: set<Job>
    ghost var allSections: set<Section>
    ghost var allFindings: set<Finding>

    ghost predicate Apart()
      reads this, held
    {
      && (forall id | id in jobs :: jobs[id] in held && jobs[id].owned <= allSections && jobs[id].parts <= allFindings)
      && (forall a, b | a in jobs && b in jobs && a != b ::
            jobs[a] != jobs[b] && jobs[a].owned !! jobs[b].owned && jobs[a].parts !! jobs[b].parts)
    }

    ghost predicate Valid()
      reads this, held, allSections, allFindings
    {
      Apart() && forall id {:trigger jobs[id].Valid()} | id in jobs :: jobs[id].Valid()
    }

    ghost function Cache(): Cache
      reads this, jobs.Values
    {
      map id | id in jobs :: jobs[id].value
    }

    constructor ()
      ensures Valid() && Cache() == map[]
    {
      jobs, held, allSections, allFindings := map[], {}, {}, {};
    }

    // ---- syncFindings ----

    method OverwriteFinding(ghost fs: seq<Finding>, ghost k: nat, finding: Finding, dto: FindingRec)
      requires k < |fs| && fs[k] == finding && finding.id == dto.id && DistinctFindings(fs)
      modifies finding
      ensures Recs(fs) == old(Recs(fs))[k := dto]
    {
      finding.text := dto.text;
      finding.severity := dto.severity;
      finding.sortOrder := dto.sortOrder;
      assert finding.Rec() == dto;
      forall i | 0 <= i < |fs| && i != k ensures fs[i].Rec() == old(fs[i].Rec()) {
        assert fs[i].id != fs[k].id;
      }
    }

    method AppendFinding(section: Section, dto: FindingRec) returns (finding: Finding)
      modifies section`findings, section`repr
      ensures section.repr == old(section.repr) + {finding}
      ensures fresh(finding) && finding.id == dto.id && section.findings == old(section.findings) + [finding]
      ensures Recs(section.findings) == old(Recs(section.findings)) + [dto]
    {
      ghost var was := section.findings;
      finding := new Finding(dto);
      assert Recs(was) == old(Recs(was));
      section.findings := section.findings + [finding];
      section.repr := section.repr + {finding};
      assert section.findings[..|was|] == was;
    }

    /** One pass of the first loop of syncFindings, when the id is cached. */
    method OverwriteStep(section: Section, existing: map<RowId, Finding>, dto: FindingRec,
                         ghost was: seq<Finding>, ghost recs: seq<FindingRec>, ghost ds: seq<FindingRec>)
      requires Progress(section, existing, was, recs, ds) && dto.id in existing
      modifies existing[dto.id]
      ensures Progress(section, existing, was, recs, ds + [dto])
    {
      var finding := existing[dto.id];
      ghost var fs := section.findings;
      ghost var k :| 0 <= k < |fs| && fs[k] == finding;
      assert Distinct(Ids(Recs(fs), FindingId)) by { IdsOfRecs(fs); }
      UpsertedAt(Recs(fs), dto, k, FindingId, WriteFinding);
      OverwriteFinding(fs, k, finding, dto);
      UpsertedNext(recs, ds, dto, FindingId, WriteFinding);
    }

    /** The same, when it is not. */
    method AppendStep(section: Section, existing: map<RowId, Finding>, dto: FindingRec,
                      ghost was: seq<Finding>, ghost recs: seq<FindingRec>, ghost ds: seq<FindingRec>)
      returns (existing': map<RowId, Finding>)
      requires Progress(section, existing, was, recs, ds) && dto.id !in existing
      modifies section`findings, section`repr
      ensures Progress(section, existing', was, recs, ds + [dto])
      ensures old(section.repr) <= section.repr && fresh(section.repr - old(section.repr))
    {
      ghost var fs := section.findings;
      NotIndexed(fs, existing, dto.id);
      UpsertedNext(recs, ds, dto, FindingId, WriteFinding);
      var finding := AppendFinding(section, dto);
      IndexedPlus(fs, existing, finding);
      existing' := existing[dto.id := finding];
      assert section.Owns();
      assert was <= section.findings;
    }

    /** One pass of the first loop of syncFindings. */
    method UpsertFinding(section: Section, existing: map<RowId, Finding>, keep: set<RowId>, dtos: seq<FindingRec>, i: nat,
                         ghost was: seq<Finding>, ghost recs: seq<FindingRec>)
      returns (existing': map<RowId, Finding>, keep': set<RowId>)
      requires i < |dtos| && Progress(section, existing, was, recs, dtos[..i]) && KeepsIds(keep, dtos[..i], FindingId)
      modifies section`findings, section`repr, section.repr
      ensures Progress(section, existing', was, recs, dtos[..i + 1]) && KeepsIds(keep', dtos[..i + 1], FindingId)
      ensures old(section.repr) <= section.repr && fresh(section.repr - old(section.repr))
    {
      var dto := dtos[i];
      assert dtos[..i + 1] == dtos[..i] + [dto];
      KeepsNext(keep, dtos[..i], dto, FindingId);
      keep' := keep + {dto.id};
      if dto.id in existing {
        existing' := existing;
        OverwriteStep(section, existing, dto, was, recs, dtos[..i]);
      } else {
        existing' := AppendStep(section, existing, dto, was, recs, dtos[..i]);
      }
    }

    /** The second loop of syncFindings. */
    method PruneFindings(all: seq<Finding>, keep: set<RowId>) returns (kept: seq<Finding>)
      ensures kept == Pruned(all, FindingKey, keep)
    {
      kept := [];
      for k := 0 to |all|
        invariant kept == Pruned(all[..k], FindingKey, keep)
      {
        assert all[..k + 1][..k] == all[..k];
        if all[k].id in keep { kept := kept + [all[k]]; }
      }
      assert all[..|all|] == all;
    }

    /** The dictionary and the empty keep-set the first loop starts from. */
    method StartSync(section: Section) returns (existing: map<RowId, Finding>, keep: set<RowId>)
      requires section.Owns()
      ensures Progress(section, existing, section.findings, Recs(section.findings), [])
      ensures KeepsIds(keep, [], FindingId)
    {
      existing := map f | f in section.findings :: f.id := f;
      keep := {};
    }

    /** The first loop of syncFindings. */
    method UpsertFindings(section: Section, dtos: seq<FindingRec>) returns (existing: map<RowId, Finding>, keep: set<RowId>)
      requires section.Owns()
      modifies section`findings, section`repr, section.repr
      ensures Progress(section, existing, old(section.findings), old(Recs(section.findings)), dtos)
      ensures KeepsIds(keep, dtos, FindingId)
      ensures old(section.repr) <= section.repr && fresh(section.repr - old(section.repr))
    {
      ghost var was := section.findings;
      ghost var recs := Recs(was);
      existing, keep := StartSync(section);
      assert dtos[..0] == [];
      for i := 0 to |dtos|
        invariant Progress(section, existing, was, recs, dtos[..i])
        invariant KeepsIds(keep, dtos[..i], FindingId)
        invariant old(section.repr) <= section.repr && fresh(section.repr - old(section.repr))
      {
        existing, keep := UpsertFinding(section, existing, keep, dtos, i, was, recs);
      }
      assert dtos[..|dtos|] == dtos;
    }

    method SyncFindings(section: Section, dtos: seq<FindingRec>)
      requires section.Owns() && Distinct(Ids(dtos, FindingId))
      modifies section`findings, section`repr, section.repr
      ensures Recs(section.findings) == Merged(Ids(old(Recs(section.findings)), FindingId), dtos, FindingId)
      ensures section.Owns()
      ensures old(section.repr) <= section.repr && fresh(section.repr - old(section.repr))
      ensures forall f | f in old(section.findings) :: f in section.findings <==> f.id in Ids(dtos, FindingId)
      ensures forall f | f in section.findings :: f.id in Ids(dtos, FindingId)
    {
      ghost var recs := Recs(section.findings);
      assert Distinct(Ids(recs, FindingId)) by { IdsOfRecs(section.findings); }
      var _, keep := UpsertFindings(section, dtos);
      PruneStep(section, keep, dtos, recs);
    }

    /** The second loop of syncFindings, over what the first one left. */
    method PruneStep(section: Section, keep: set<RowId>, ghost dtos: seq<FindingRec>, ghost recs: seq<FindingRec>)
      requires section.Owns() && KeepsIds(keep, dtos, FindingId)
      requires Distinct(Ids(recs, FindingId)) && Distinct(Ids(dtos, FindingId))
      requires Recs(section.findings) == UpsertedAll(recs, dtos, FindingId, WriteFinding)
      modifies section`findings
      ensures Recs(section.findings) == Merged(Ids(recs, FindingId), dtos, FindingId)
      ensures section.Owns()
      ensures forall f :: f in section.findings <==> f in old(section.findings) && f.id in Ids(dtos, FindingId)
    {
      var all := section.findings;
      var kept := PruneFindings(all, keep);
      PrunedRecs(all, keep);
      PrunedMembers(all, FindingKey, keep);
      FindingsSynced(recs, dtos, keep);
      assert DistinctFindings(kept) by { IdsOfRecs(kept); }
      section.findings := kept;
    }

    // ---- syncSections ----

    method SetHeader(section: Section, title: string, sortOrder: int)
      requires section.Valid()
      modifies section`title, section`sortOrder, section`view
      ensures section.Valid() && section.view == old(section.view).(title := title, sortOrder := sortOrder)
    {
      section.title := title;
      section.sortOrder := sortOrder;
      section.view := section.view.(title := title, sortOrder := sortOrder);
    }

    /** Writes a DTO onto one section. */
    method WriteOnto(section: Section, dto: SectionRec)
      requires section.id == dto.id && section.Valid() && Distinct(Ids(dto.findings, FindingId))
      modifies section, section.repr
      ensures section.view == WriteSection(Some(old(section.view)), dto) && section.Valid()
      ensures old(section.repr) <= section.repr && fresh(section.repr - old(section.repr))
      ensures SameObjects(old(section.findings), section.findings)
    {
      ghost var was := section.findings;
      SetHeader(section, dto.title, dto.sortOrder);
      SyncFindings(section, dto.findings);
      section.view := section.view.(findings := Recs(section.findings));
      SurvivorsAreSame(was, section.findings, Ids(dto.findings, FindingId));
    }

    /** One pass of the first loop of syncSections, when the id is cached. */
    method OverwriteSection(ghost ss: seq<Section>, ghost k: nat, section: Section, dto: SectionRec)
      requires k < |ss| && ss[k] == section && section.id == dto.id && DistinctSections(ss) && Separate(ss)
      requires forall s | s in ss :: s.Valid()
      requires Distinct(Ids(dto.findings, FindingId))
      modifies section, section.repr
      ensures Views(ss) == old(Views(ss))[k := WriteSection(Some(old(section.view)), dto)]
      ensures Separate(ss) && old(section.repr) <= section.repr && fresh(section.repr - old(section.repr))
      ensures forall s | s in ss :: s.Valid()
      ensures SameObjects(old(section.findings), section.findings)
    {
      ghost var views := Views(ss);
      WriteOnto(section, dto);
      forall i | 0 <= i < |ss| ensures ss[i].Valid() && (i != k ==> ss[i].view == old(ss[i].view) && ss[i].repr == old(ss[i].repr)) {
        if i != k {
          assert ss[i].id != ss[k].id;
          assert ss[i].repr !! old(section.repr);
        }
      }
      OneViewChanged(ss, views, k);
    }

    method OverwriteInJob(job: Job, ghost k: nat, section: Section, dto: SectionRec)
      requires job.Owns() && k < |job.sections| && job.sections[k] == section && section.id == dto.id
      requires Distinct(Ids(dto.findings, FindingId))
      modifies job`parts, section, section.repr
      ensures job.Owns()
      ensures Views(job.sections) == old(Views(job.sections))[k := WriteSection(Some(old(section.view)), dto)]
      ensures old(job.parts) <= job.parts && fresh(job.parts - old(job.parts))
      ensures SameObjects(old(section.findings), section.findings)
    {
      OverwriteSection(job.sections, k, section, dto);
      job.parts := job.parts + section.repr;
    }

    method OverwriteSectionStep(job: Job, existing: map<RowId, Section>, dto: SectionRec,
                                ghost was: seq<Section>, ghost recs: seq<SectionRec>, ghost ds: seq<SectionRec>)
      requires JobProgress(job, existing, was, recs, ds) && dto.id in existing && Distinct(Ids(dto.findings, FindingId))
      modifies job`parts, existing[dto.id], existing[dto.id].repr
      ensures JobProgress(job, existing, was, recs, ds + [dto])
      ensures old(job.parts) <= job.parts && fresh(job.parts - old(job.parts))
      ensures SameObjects(old(existing[dto.id].findings), existing[dto.id].findings)
    {
      var section := existing[dto.id];
      ghost var views := Views(job.sections);
      ghost var k :| 0 <= k < |job.sections| && job.sections[k] == section;
      ViewsUpserted(job.sections, k, dto);
      UpsertedNext(recs, ds, dto, SectionId, WriteSection);
      OverwriteInJob(job, k, section, dto);
    }

    /** A section made for a DTO, with its findings. */
    method NewSection(dto: SectionRec) returns (section: Section)
      requires Distinct(Ids(dto.findings, FindingId))
      ensures fresh(section) && fresh(section.repr) && section.Valid() && section.id == dto.id
      ensures section.view == WriteSection(None, dto)
    {
      section := new Section(dto);
      assert Ids(section.view.findings, FindingId) == [];
      WriteOnto(section, dto);
    }

    method Adopt(job: Job, section: Section)
      requires job.Owns() && section.Valid() && section.repr !! job.parts && section !in job.owned
      requires forall s | s in job.sections :: s.id != section.id
      modifies job`sections, job`owned, job`parts
      ensures job.sections == old(job.sections) + [section]
      ensures job.owned == old(job.owned) + {section} && job.parts == old(job.parts) + section.repr
      ensures Views(job.sections) == old(Views(job.sections)) + [section.view]
      ensures job.Owns()
    {
      ghost var was := job.sections;
      assert forall s | s in was :: s in job.owned && s.repr <= job.parts && s.Valid();
      SeparatePlus(was, section, job.parts);
      job.sections := job.sections + [section];
      job.owned := job.owned + {section};
      job.parts := job.parts + section.repr;
      assert forall s | s in job.sections :: s in was || s == section;
    }

    method AppendInJob(job: Job, dto: SectionRec) returns (section: Section)
      requires job.Owns() && Distinct(Ids(dto.findings, FindingId))
      requires forall s | s in job.sections :: s.id != dto.id
      modifies job`sections, job`owned, job`parts
      ensures job.Owns() && fresh(section) && section.id == dto.id
      ensures job.sections == old(job.sections) + [section]
      ensures Views(job.sections) == old(Views(job.sections)) + [WriteSection(None, dto)]
      ensures job.owned == old(job.owned) + {section}
      ensures old(job.parts) <= job.parts && fresh(job.parts - old(job.parts))
    {
      section := NewSection(dto);
      Adopt(job, section);
    }

    method AppendSectionStep(job: Job, existing: map<RowId, Section>, dto: SectionRec,
                             ghost was: seq<Section>, ghost recs: seq<SectionRec>, ghost ds: seq<SectionRec>)
      returns (existing': map<RowId, Section>)
      requires JobProgress(job, existing, was, recs, ds) && dto.id !in existing && Distinct(Ids(dto.findings, FindingId))
      modifies job`sections, job`owned, job`parts
      ensures JobProgress(job, existing', was, recs, ds + [dto])
      ensures old(job.owned) <= job.owned && fresh(job.owned - old(job.owned))
      ensures old(job.parts) <= job.parts && fresh(job.parts - old(job.parts))
    {
      ghost var ss := job.sections;
      assert dto.id !in Ids(Views(ss), SectionId) by { IdsOfViews(ss); assert forall k | 0 <= k < |ss| :: ss[k] in ss; }
      UpsertedNext(recs, ds, dto, SectionId, WriteSection);
      var section := AppendInJob(job, dto);
      existing' := existing[dto.id := section];
      assert was <= job.sections;
      assert IndexedSections(job.sections, existing');
    }

    /** One pass of the first loop of syncSections. */
    method UpsertSection(job: Job, existing: map<RowId, Section>, keep: set<RowId>, dtos: seq<SectionRec>, i: nat,
                         ghost was: seq<Section>, ghost recs: seq<SectionRec>)
      returns (existing': map<RowId, Section>, keep': set<RowId>)
      requires i < |dtos| && JobProgress(job, existing, was, recs, dtos[..i]) && KeepsIds(keep, dtos[..i], SectionId)
      requires Distinct(Ids(dtos[i].findings, FindingId))
      modifies job`sections, job`owned, job`parts, job.owned, job.parts
      ensures JobProgress(job, existing', was, recs, dtos[..i + 1]) && KeepsIds(keep', dtos[..i + 1], SectionId)
      ensures old(job.owned) <= job.owned && fresh(job.owned - old(job.owned))
      ensures old(job.parts) <= job.parts && fresh(job.parts - old(job.parts))
      ensures forall s | s in was && s.id != dtos[i].id :: s.findings == old(s.findings)
      ensures forall s | s in was && s.id == dtos[i].id :: SameObjects(old(s.findings), s.findings)
    {
      var dto := dtos[i];
      assert dtos[..i + 1] == dtos[..i] + [dto];
      KeepsNext(keep, dtos[..i], dto, SectionId);
      keep' := keep + {dto.id};
      if dto.id in existing {
        existing' := existing;
        assert existing[dto.id] in job.sections;
        OverwriteSectionStep(job, existing, dto, was, recs, dtos[..i]);
      } else {
        existing' := AppendSectionStep(job, existing, dto, was, recs, dtos[..i]);
      }
    }

    /** The same, as the loop sees it. */
    method SectionPass(job: Job, existing: map<RowId, Section>, keep: set<RowId>, dtos: seq<SectionRec>, i: nat,
                       ghost was: seq<Section>, ghost recs: seq<SectionRec>, ghost before: map<Section, seq<Finding>>)
      returns (existing': map<RowId, Section>, keep': set<RowId>)
      requires i < |dtos| && WellFormed(dtos)
      requires JobProgress(job, existing, was, recs, dtos[..i]) && KeepsIds(keep, dtos[..i], SectionId)
      requires Rewrites(was, before, Ids(dtos[..i], SectionId))
      modifies job`sections, job`owned, job`parts, job.owned, job.parts
      ensures JobProgress(job, existing', was, recs, dtos[..i + 1]) && KeepsIds(keep', dtos[..i + 1], SectionId)
      ensures Rewrites(was, before, Ids(dtos[..i + 1], SectionId))
      ensures old(job.owned) <= job.owned && fresh(job.owned - old(job.owned))
      ensures old(job.parts) <= job.parts && fresh(job.parts - old(job.parts))
    {
      existing', keep' := UpsertSection(job, existing, keep, dtos, i, was, recs);
      NewId(dtos, i);
    }

    method StartSectionSync(job: Job) returns (existing: map<RowId, Section>, keep: set<RowId>)
      requires job.Owns()
      ensures JobProgress(job, existing, job.sections, Views(job.sections), [])
      ensures KeepsIds(keep, [], SectionId)
    {
      existing := map s | s in job.sections :: s.id := s;
      keep := {};
    }

    /** The first loop of syncSections. */
    method UpsertSections(job: Job, dtos: seq<SectionRec>, ghost before: map<Section, seq<Finding>>)
      returns (existing: map<RowId, Section>, keep: set<RowId>)
      requires job.Owns() && WellFormed(dtos) && Rewrites(job.sections, before, [])
      modifies job`sections, job`owned, job`parts, job.owned, job.parts
      ensures JobProgress(job, existing, old(job.sections), old(Views(job.sections)), dtos)
      ensures KeepsIds(keep, dtos, SectionId)
      ensures Rewrites(old(job.sections), before, Ids(dtos, SectionId))
      ensures old(job.owned) <= job.owned && fresh(job.owned - old(job.owned))
      ensures old(job.parts) <= job.parts && fresh(job.parts - old(job.parts))
    {
      ghost var was := job.sections;
      ghost var recs := Views(was);
      existing, keep := StartSectionSync(job);
      assert dtos[..0] == [];
      for i := 0 to |dtos|
        invariant JobProgress(job, existing, was, recs, dtos[..i])
        invariant KeepsIds(keep, dtos[..i], SectionId)
        invariant Rewrites(was, before, Ids(dtos[..i], SectionId))
        invariant old(job.owned) <= job.owned && fresh(job.owned - old(job.owned))
        invariant old(job.parts) <= job.parts && fresh(job.parts - old(job.parts))
      {
        existing, keep := SectionPass(job, existing, keep, dtos, i, was, recs, before);
      }
      assert dtos[..|dtos|] == dtos;
    }

    /** The second loop of syncSections. */
    method PruneSections(all: seq<Section>, keep: set<RowId>) returns (kept: seq<Section>)
      ensures kept == Pruned(all, SectionKey, keep)
    {
      kept := [];
      for k := 0 to |all|
        invariant kept == Pruned(all[..k], SectionKey, keep)
      {
        assert all[..k + 1][..k] == all[..k];
        if all[k].id in keep { kept := kept + [all[k]]; }
      }
      assert all[..|all|] == all;
    }

    method DropOthers(job: Job, keep: set<RowId>)
      requires job.Owns()
      modifies job`sections
      ensures job.Owns() && forall s | s in old(job.sections) :: s in job.sections <==> s.id in keep
      ensures Views(job.sections) == Pruned(old(Views(job.sections)), SectionId, keep)
    {
      var all := job.sections;
      var kept := PruneSections(all, keep);
      PrunedViews(all, keep);
      PrunedSeparate(all, keep);
      PrunedMembers(all, SectionKey, keep);
      job.sections := kept;
    }

    /** Both loops of syncSections. */
    method SyncTracked(job: Job, dtos: seq<SectionRec>, ghost before: map<Section, seq<Finding>>)
      requires job.Owns() && WellFormed(dtos) && Rewrites(job.sections, before, [])
      modifies job`sections, job`owned, job`parts, job.owned, job.parts
      ensures job.Owns() && Views(job.sections) == SyncedTree(old(Views(job.sections)), dtos)
      ensures forall s | s in old(job.sections) :: s in job.sections <==> s.id in Ids(dtos, SectionId)
      ensures Rewrites(old(job.sections), before, Ids(dtos, SectionId))
      ensures old(job.owned) <= job.owned && fresh(job.owned - old(job.owned))
      ensures old(job.parts) <= job.parts && fresh(job.parts - old(job.parts))
    {
      ghost var recs := Views(job.sections);
      assert Distinct(Ids(recs, SectionId)) by { IdsOfViews(job.sections); }
      var _, keep := UpsertSections(job, dtos, before);
      TreeSynced(recs, dtos, keep);
      DropOthers(job, keep);
    }

    /**
     The cached tree becomes exactly the server's. A section whose id survives keeps its object and so
     does each of its findings; the others are dropped.
     */
    method SyncSections(job: Job, dtos: seq<SectionRec>)
      requires job.Owns() && WellFormed(dtos)
      modifies job`sections, job`owned, job`parts, job.owned, job.parts
      ensures job.Owns() && Views(job.sections) == SyncedTree(old(Views(job.sections)), dtos)
      ensures forall s | s in old(job.sections) :: s in job.sections <==> s.id in Ids(dtos, SectionId)
      ensures forall s | s in old(job.sections) :: SameObjects(old(s.findings), s.findings)
      ensures old(job.owned) <= job.owned && fresh(job.owned - old(job.owned))
      ensures old(job.parts) <= job.parts && fresh(job.parts - old(job.parts))
    {
      ghost var before := map s | s in job.sections :: s.findings;
      SyncTracked(job, dtos, before);
    }

    // ---- upsert ----

    /** Server-owned fields are never edited on the device, so they are always adopted. */
    method AdoptServerFields(job: Job, dto: JobDto)
      requires job.Valid()
      modifies job`status, job`transcript, job`error, job`pdfUrl, job`value
      ensures job.Valid()
      ensures job.value == old(job.value).(status := dto.status, transcript := dto.transcript, error := dto.error, pdfUrl := dto.pdfUrl)
    {
      SetProgress(job, dto.status, dto.transcript);
      SetResult(job, dto.error, dto.pdfUrl);
    }

    method SetProgress(job: Job, status: Status, transcript: Option<string>)
      requires job.Valid()
      modifies job`status, job`transcript, job`value
      ensures job.Valid() && job.value == old(job.value).(status := status, transcript := transcript)
    {
      ghost var owns := job.Owns();
      job.status := status;
      job.transcript := transcript;
      job.value := job.value.(status := status, transcript := transcript);
      assert job.Owns() == owns;
    }

    method SetResult(job: Job, error: Option<string>, pdfUrl: Option<string>)
      requires job.Valid()
      modifies job`error, job`pdfUrl, job`value
      ensures job.Valid() && job.value == old(job.value).(error := error, pdfUrl := pdfUrl)
    {
      ghost var owns := job.Owns();
      job.error := error;
      job.pdfUrl := pdfUrl;
      job.value := job.value.(error := error, pdfUrl := pdfUrl);
      assert job.Owns() == owns;
    }

    method SetLabel(job: Job, labelText: string, updatedAt: int, dirty: bool)
      requires job.Valid()
      modifies job`labelText, job`updatedAt, job`dirty, job`value
      ensures job.Valid()
      ensures job.value == old(job.value).(labelText := labelText, updatedAt := updatedAt, dirty := dirty)
    {
      ghost var owns := job.Owns();
      job.labelText := labelText;
      job.updatedAt := updatedAt;
      job.dirty := dirty;
      job.value := job.value.(labelText := labelText, updatedAt := updatedAt, dirty := dirty);
      assert job.Owns() == owns;
    }

    /** SyncSections as the job's value sees it. */
    method SyncTree(job: Job, sections: seq<SectionRec>)
      requires job.Valid() && WellFormed(sections)
      modifies job`sections, job`owned, job`parts, job`value, job.owned, job.parts
      ensures job.Valid()
      ensures job.value == old(job.value).(tree := SyncedTree(old(job.value).tree, sections))
      ensures old(job.owned) <= job.owned && fresh(job.owned - old(job.owned))
      ensures old(job.parts) <= job.parts && fresh(job.parts - old(job.parts))
    {
      SyncSections(job, sections);
      job.value := job.value.(tree := Views(job.sections));
    }

    /** upsert's branch for a job already cached. */
    method UpsertExisting(existing: Job, dto: JobDto)
      requires existing.Valid() && WellFormed(dto.sections)
      modifies existing, existing.owned, existing.parts
      ensures existing.Valid() && existing.value == UpsertOne(Some(old(existing.value)), dto)
      ensures old(existing.owned) <= existing.owned && fresh(existing.owned - old(existing.owned))
      ensures old(existing.parts) <= existing.parts && fresh(existing.parts - old(existing.parts))
    {
      var serverUpdated := Stamp(dto.updatedAt);
      AdoptServerFields(existing, dto);
      var localWins := existing.dirty && existing.updatedAt > serverUpdated;
      if !localWins {
        SetLabel(existing, dto.labelText, serverUpdated, false);
        SyncTree(existing, dto.sections);
      }
    }

    /** upsert's branch for a new job. */
    method InsertNew(dto: JobDto) returns (job: Job)
      requires WellFormed(dto.sections)
      ensures fresh(job) && fresh(job.owned) && fresh(job.parts)
      ensures job.Valid() && job.value == UpsertOne(None, dto)
    {
      job := new Job(dto);
      SyncTree(job, dto.sections);
    }

    /** applyLocalEdits on the job it finds. */
    method EditExisting(job: Job, labelText: string, sections: seq<SectionRec>, now: int)
      requires job.Valid() && WellFormed(sections)
      modifies job, job.owned, job.parts
      ensures job.Valid()
      ensures job.value == EditOne(old(job.value), labelText, sections, now)
      ensures old(job.owned) <= job.owned && fresh(job.owned - old(job.owned))
      ensures old(job.parts) <= job.parts && fresh(job.parts - old(job.parts))
    {
      SetLabel(job, labelText, now, true);
      SyncTree(job, sections);
    }

    // ---- the store ----

    /** Takes in what one job's footprint has grown by. */
    ghost method Absorb(id: JobId)
      requires id in jobs
      modifies `allSections, `allFindings
      ensures allSections == old(allSections) + jobs[id].owned && allFindings == old(allFindings) + jobs[id].parts
      ensures forall a {:trigger jobs[a].Valid()} | a in jobs && old(jobs[a].Valid()) :: jobs[a].Valid()
    {
      allSections := allSections + jobs[id].owned;
      allFindings := allFindings + jobs[id].parts;
    }

    method ChangeExisting(job: Job, change: Change)
      requires job.Valid() && ChangeWellFormed(change)
      modifies job, job.owned, job.parts
      ensures job.Valid() && job.value == Changed(old(job.value), change)
      ensures old(job.owned) <= job.owned && fresh(job.owned - old(job.owned))
      ensures old(job.parts) <= job.parts && fresh(job.parts - old(job.parts))
    {
      match change {
        case Pulled(dto) => UpsertExisting(job, dto);
        case Edited(labelText, sections, now) => EditExisting(job, labelText, sections, now);
      }
    }

    /** One cached job changes; the others keep their objects and values. */
    method ChangeJob(id: JobId, change: Change)
      requires Valid() && id in jobs && ChangeWellFormed(change)
      modifies jobs[id], jobs[id].owned, jobs[id].parts
      ensures jobs[id].Valid() && jobs[id].value == Changed(old(jobs[id].value), change)
      ensures old(jobs[id].owned) <= jobs[id].owned && fresh(jobs[id].owned - old(jobs[id].owned))
      ensures old(jobs[id].parts) <= jobs[id].parts && fresh(jobs[id].parts - old(jobs[id].parts))
      ensures forall a {:trigger jobs[a].Valid()} | a in jobs && a != id :: jobs[a].Valid()
      ensures forall a | a in jobs && a != id :: jobs[a].value == old(jobs[a].value)
      ensures forall a | a in jobs && a != id :: jobs[a].owned == old(jobs[a].owned) && jobs[a].parts == old(jobs[a].parts)
    {
      ChangeExisting(jobs[id], change);
      forall a | a in jobs && a != id
        ensures jobs[a].Valid() && jobs[a].value == old(jobs[a].value)
        ensures jobs[a].owned == old(jobs[a].owned) && jobs[a].parts == old(jobs[a].parts)
      {
        assert jobs[a] != jobs[id];
      }
    }

    /** Jobs stay apart when one of them takes in new objects only. */
    twostate lemma StaysApart(id: JobId)
      requires old(Apart()) && id in jobs && jobs == old(jobs) && held == old(held)
      requires allSections == old(allSections) + jobs[id].owned && allFindings == old(allFindings) + jobs[id].parts
      requires old(allocated(jobs[id])) && fresh(jobs[id].owned - old(jobs[id].owned)) && fresh(jobs[id].parts - old(jobs[id].parts))
      requires forall a | a in jobs && a != id :: jobs[a].owned == old(jobs[a].owned) && jobs[a].parts == old(jobs[a].parts)
      ensures Apart()
    {
    }

    /** The change together with its bookkeeping. */
    method ChangeApart(id: JobId, change: Change)
      requires Valid() && id in jobs && ChangeWellFormed(change)
      modifies `allSections, `allFindings, jobs[id], jobs[id].owned, jobs[id].parts
      ensures Apart() && jobs[id].Valid() && jobs[id].value == Changed(old(jobs[id].value), change)
      ensures forall a {:trigger jobs[a].Valid()} | a in jobs && a != id :: jobs[a].Valid()
      ensures forall a | a in jobs && a != id :: jobs[a].value == old(jobs[a].value)
      ensures old(allSections) <= allSections && fresh(allSections - old(allSections))
      ensures old(allFindings) <= allFindings && fresh(allFindings - old(allFindings))
    {
      ChangeJob(id, change);
      Absorb(id);
      StaysApart(id);
    }

    method ChangeCached(id: JobId, change: Change)
      requires Valid() && id in jobs && ChangeWellFormed(change)
      modifies `allSections, `allFindings, held, allSections, allFindings
      ensures Valid() && Cache() == old(Cache())[id := Changed(old(Cache())[id], change)]
      ensures old(allSections) <= allSections && fresh(allSections - old(allSections))
      ensures old(allFindings) <= allFindings && fresh(allFindings - old(allFindings))
    {
      ghost var before := Cache();
      ChangeApart(id, change);
      ghost var after := Cache();
      assert after[id] == Changed(before[id], change);
      assert forall a | a in before && a != id :: after[a] == jobs[a].value;
      OneWritten(before, after, id, Changed(before[id], change));
    }

    /** A job made elsewhere joins the store. */
    method Attach(id: JobId, job: Job)
      requires Valid() && id !in jobs && job.Valid()
      requires job !in held && job.owned !! allSections && job.parts !! allFindings
      modifies this
      ensures Valid() && jobs == old(jobs)[id := job] && held == old(held) + {job}
      ensures allSections == old(allSections) + job.owned && allFindings == old(allFindings) + job.parts
    {
      jobs := jobs[id := job];
      held := held + {job};
      allSections := allSections + job.owned;
      allFindings := allFindings + job.parts;
    }

    method InsertJob(dto: JobDto) returns (job: Job)
      requires Valid() && dto.id !in jobs && WellFormed(dto.sections)
      modifies this
      ensures Valid() && jobs == old(jobs)[dto.id := job] && job.value == UpsertOne(None, dto)
      ensures forall id | id in old(jobs) :: jobs[id].value == old(jobs[id].value)
      ensures fresh(job) && fresh(job.owned) && fresh(job.parts)
      ensures held == old(held) + {job}
      ensures allSections == old(allSections) + job.owned && allFindings == old(allFindings) + job.parts
    {
      job := InsertNew(dto);
      Attach(dto.id, job);
    }

    method InsertCached(dto: JobDto)
      requires Valid() && dto.id !in jobs && WellFormed(dto.sections)
      modifies this
      ensures Valid() && Cache() == old(Cache())[dto.id := UpsertOne(None, dto)]
      ensures old(held) <= held && fresh(held - old(held))
      ensures old(allSections) <= allSections && fresh(allSections - old(allSections))
      ensures old(allFindings) <= allFindings && fresh(allFindings - old(allFindings))
    {
      ghost var before := Cache();
      var job := InsertJob(dto);
      OneInserted(before, Cache(), dto.id, UpsertOne(None, dto));
    }

    method UpsertDto(dto: JobDto)
      requires Valid() && WellFormed(dto.sections)
      modifies this, held, allSections, allFindings
      ensures Valid() && Cache() == Upsert(old(Cache()), dto)
      ensures old(held) <= held && fresh(held - old(held))
      ensures old(allSections) <= allSections && fresh(allSections - old(allSections))
      ensures old(allFindings) <= allFindings && fresh(allFindings - old(allFindings))
    {
      ghost var before := Cache();
      UpsertIs(before, dto);
      if dto.id in jobs {
        ChangeCached(dto.id, Pulled(dto));
        assert Cache() == Upsert(before, dto);
      } else {
        InsertCached(dto);
        assert Cache() == Upsert(before, dto);
      }
    }

    method ApplyLocalEdits(id: JobId, labelText: string, sections: seq<SectionRec>, now: int)
      requires Valid() && WellFormed(sections)
      modifies this, held, allSections, allFindings
      ensures Valid() && Cache() == JobCache.ApplyLocalEdits(old(Cache()), id, labelText, sections, now)
    {
      if id !in jobs { return; }
      ChangeCached(id, Edited(labelText, sections, now));
    }

    /** mergePulled: the whole pull, one upsert at a time. */
    method MergePulled(dtos: seq<JobDto>)
      requires Valid() && DtosWellFormed(dtos)
      modifies this, held, allSections, allFindings
      ensures Valid() && Cache() == JobCache.MergePulled(old(Cache()), dtos)
    {
      ghost var before := Cache();
      for i := 0 to |dtos|
        invariant Valid() && Cache() == JobCache.MergePulled(before, dtos[..i])
        invariant old(held) <= held && fresh(held - old(held))
        invariant old(allSections) <= allSections && fresh(allSections - old(allSections))
        invariant old(allFindings) <= allFindings && fresh(allFindings - old(allFindings))
      {
        assert dtos[..i + 1][..i] == dtos[..i];
        UpsertDto(dtos[i]);
      }
      assert dtos[..|dtos|] == dtos;
    }
  }
}
