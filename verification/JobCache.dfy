/**
 The device's cache as a value: upsert's last-write-wins merge of one server DTO, and whole pulls of
 them. JobStore is the same over mutable objects.
 */
module JobCache {
  import opened Basics
  import opened ReportTree
  import opened Reconcile
  import opened Pipeline

  /** Local-only bookkeeping of a recording waiting to be uploaded. */
  datatype Upload = Upload(
    pending: bool, path: Option<string>, url: Option<string>, contentType: Option<string>, expiresAt: Option<int>)

  const NO_UPLOAD := Upload(false, None, None, None, None)

  datatype CachedJob = CachedJob(
    labelText: string, status: Status, transcript: Option<string>, error: Option<string>, pdfUrl: Option<string>,
    createdAt: int, updatedAt: int, dirty: bool, upload: Upload, tree: seq<SectionRec>)

  /** A job on the wire; None is a timestamp that does not parse. */
  datatype JobDto = JobDto(
    id: JobId, labelText: string, status: Status, transcript: Option<string>, error: Option<string>,
    pdfUrl: Option<string>, createdAt: Option<int>, updatedAt: Option<int>, sections: seq<SectionRec>)

  type Cache = map<JobId, CachedJob>

  /** ISO8601.date(from:): milliseconds since 1970, or 0. */
  function Stamp(t: Option<int>): int { t.GetOr(0) }

  function Lookup(c: Cache, id: JobId): Option<CachedJob> {
    if id in c then Some(c[id]) else None
  }

  function LocalWins(job: CachedJob, d: JobDto): bool {
    job.dirty && job.updatedAt > Stamp(d.updatedAt)
  }

  function UpsertOne(prior: Option<CachedJob>, d: JobDto): CachedJob {
    match prior
    case None =>
      CachedJob(d.labelText, d.status, d.transcript, d.error, d.pdfUrl, Stamp(d.createdAt), Stamp(d.updatedAt),
                false, NO_UPLOAD, SyncedTree([], d.sections))
    case Some(job) =>
      var job' := job.(status := d.status, transcript := d.transcript, error := d.error, pdfUrl := d.pdfUrl);
      if LocalWins(job, d) then job'
      else job'.(labelText := d.labelText, updatedAt := Stamp(d.updatedAt), dirty := false,
                 tree := SyncedTree(job.tree, d.sections))
  }

  function Upsert(c: Cache, d: JobDto): Cache {
    c[d.id := UpsertOne(Lookup(c, d.id), d)]
  }

  function MergePulled(c: Cache, ds: seq<JobDto>): Cache {
    if ds == [] then c else Upsert(MergePulled(c, ds[..|ds| - 1]), ds[|ds| - 1])
  }

  function EditOne(job: CachedJob, labelText: string, sections: seq<SectionRec>, now: int): CachedJob {
    job.(labelText := labelText, updatedAt := now, dirty := true, tree := SyncedTree(job.tree, sections))
  }

  function ApplyLocalEdits(c: Cache, id: JobId, labelText: string, sections: seq<SectionRec>, now: int): Cache {
    if id !in c then c else c[id := EditOne(c[id], labelText, sections, now)]
  }

  ghost predicate CacheWellFormed(c: Cache) {
    forall id | id in c :: WellFormed(c[id].tree)
  }

  ghost predicate DtosWellFormed(ds: seq<JobDto>) {
    forall i | 0 <= i < |ds| :: WellFormed(ds[i].sections)
  }

  // ---- a pull, job by job ----

  function Mine(ds: seq<JobDto>, id: JobId): seq<JobDto> {
    if ds == [] then []
    else Mine(ds[..|ds| - 1], id) + (if ds[|ds| - 1].id == id then [ds[|ds| - 1]] else [])
  }

  function FoldJob(prior: Option<CachedJob>, ds: seq<JobDto>): Option<CachedJob> {
    if ds == [] then prior else Some(UpsertOne(FoldJob(prior, ds[..|ds| - 1]), ds[|ds| - 1]))
  }

  /** What a pull leaves of a job depends only on that job's own DTOs. */
  lemma {:induction false} PullIsPerJob(c: Cache, ds: seq<JobDto>, id: JobId)
    ensures Lookup(MergePulled(c, ds), id) == FoldJob(Lookup(c, id), Mine(ds, id))
    decreases |ds|
  {
    if ds != [] {
      var front, last := ds[..|ds| - 1], ds[|ds| - 1];
      PullIsPerJob(c, front, id);
      if last.id == id {
        assert Mine(ds, id)[..|Mine(ds, id)| - 1] == Mine(front, id);
      } else {
        assert Mine(ds, id) == Mine(front, id);
      }
    }
  }

  lemma UpsertKeepsWellFormed(prior: Option<CachedJob>, d: JobDto)
    requires WellFormed(d.sections) && (prior.Some? ==> WellFormed(prior.value.tree))
    ensures WellFormed(UpsertOne(prior, d).tree)
  {
    SyncedIsTheDtoTree(if prior.Some? then prior.value.tree else [], d.sections);
  }

  /** label and tree are the DTO's (the tree with its rows in some order), and nothing is unpushed. */
  ghost predicate SyncedWith(job: CachedJob, d: JobDto) {
    && !job.dirty && job.labelText == d.labelText && job.updatedAt == Stamp(d.updatedAt)
    && Shuffled(d.sections, job.tree)
  }

  predicate ServerFields(job: CachedJob, d: JobDto) {
    job.status == d.status && job.transcript == d.transcript && job.error == d.error && job.pdfUrl == d.pdfUrl
  }

  /** The local edit of this job survives a list of its DTOs. */
  ghost predicate Survives(job: CachedJob, ds: seq<JobDto>) {
    job.dirty && forall i | 0 <= i < |ds| :: Stamp(ds[i].updatedAt) < job.updatedAt
  }

  lemma {:induction false} FoldLastWriteWins(job: CachedJob, ds: seq<JobDto>)
    requires WellFormed(job.tree) && DtosWellFormed(ds)
    ensures var r := FoldJob(Some(job), ds);
      && r.Some? && WellFormed(r.value.tree)
      && r.value.upload == job.upload && r.value.createdAt == job.createdAt
      && (ds == [] ==> r.value == job)
      && (ds != [] ==> ServerFields(r.value, ds[|ds| - 1]))
      && (Survives(job, ds) ==> r.value.dirty && r.value.labelText == job.labelText
                                && r.value.updatedAt == job.updatedAt && r.value.tree == job.tree)
      && (ds != [] && !Survives(job, ds) ==> SyncedWith(r.value, ds[|ds| - 1]))
    decreases |ds|
  {
    if ds != [] {
      var front, d := ds[..|ds| - 1], ds[|ds| - 1];
      FoldLastWriteWins(job, front);
      var mid := FoldJob(Some(job), front);
      UpsertKeepsWellFormed(mid, d);
      SyncedIsTheDtoTree(mid.value.tree, d.sections);
      assert Survives(job, ds) <==> Survives(job, front) && Stamp(d.updatedAt) < job.updatedAt;
    }
  }

  /**
   Last write wins over a whole pull, in whatever order DTOs of this and other jobs arrive: an edited
   job keeps its edit and stays dirty exactly when every DTO of it is strictly older; otherwise it ends
   synced with the last one. Server-owned fields are always the last one's, and the upload bookkeeping
   never changes.
   */
  lemma LastWriteWins(c: Cache, id: JobId, ds: seq<JobDto>)
    requires id in c && WellFormed(c[id].tree) && DtosWellFormed(ds)
    ensures id in MergePulled(c, ds)
    ensures var job := MergePulled(c, ds)[id]; var mine := Mine(ds, id);
      && job.upload == c[id].upload && job.createdAt == c[id].createdAt
      && (mine == [] ==> job == c[id])
      && (mine != [] ==> ServerFields(job, mine[|mine| - 1]))
      && (c[id].dirty ==> (job.dirty <==> forall d | d in mine :: Stamp(d.updatedAt) < c[id].updatedAt))
      && (job.dirty ==> job.labelText == c[id].labelText && job.tree == c[id].tree && job.updatedAt == c[id].updatedAt)
      && (mine != [] && !job.dirty ==> SyncedWith(job, mine[|mine| - 1]))
  {
    var mine := Mine(ds, id);
    PullIsPerJob(c, ds, id);
    MineWellFormed(ds, id);
    FoldLastWriteWins(c[id], mine);
  }

  /** A DTO whose updatedAt does not parse counts as of 1970, and is adopted unless a later edit is pending. */
  lemma UnparsedTimestamp(job: CachedJob, d: JobDto)
    requires WellFormed(job.tree) && WellFormed(d.sections) && d.updatedAt.None?
    ensures SyncedWith(UpsertOne(Some(job), d), d) <==> !(job.dirty && job.updatedAt > 0)
  {
    SyncedIsTheDtoTree(job.tree, d.sections);
  }

  lemma {:induction false} FoldNewJob(ds: seq<JobDto>)
    requires DtosWellFormed(ds) && ds != []
    ensures var r := FoldJob(None, ds);
      && r.Some? && WellFormed(r.value.tree) && r.value.upload == NO_UPLOAD && r.value.createdAt == Stamp(ds[0].createdAt)
      && ServerFields(r.value, ds[|ds| - 1]) && SyncedWith(r.value, ds[|ds| - 1])
    decreases |ds|
  {
    var front, d := ds[..|ds| - 1], ds[|ds| - 1];
    if front == [] {
      assert WellFormed([]);
      UpsertKeepsWellFormed(None, d);
      SyncedIsTheDtoTree([], d.sections);
    } else {
      FoldNewJob(front);
      var mid := FoldJob(None, front);
      UpsertKeepsWellFormed(mid, d);
      SyncedIsTheDtoTree(mid.value.tree, d.sections);
    }
  }

  /** A job the cache did not have ends synced with the last DTO of it, with no upload pending. */
  lemma PulledNewJob(c: Cache, id: JobId, ds: seq<JobDto>)
    requires id !in c && DtosWellFormed(ds) && Mine(ds, id) != []
    ensures id in MergePulled(c, ds)
    ensures var job := MergePulled(c, ds)[id]; var mine := Mine(ds, id);
      && ServerFields(job, mine[|mine| - 1]) && SyncedWith(job, mine[|mine| - 1]) && job.upload == Upload(false, None, None, None, None)
      && job.createdAt == Stamp(mine[0].createdAt)
  {
    PullIsPerJob(c, ds, id);
    MineWellFormed(ds, id);
    FoldNewJob(Mine(ds, id));
  }

  lemma {:induction false} MineWellFormed(ds: seq<JobDto>, id: JobId)
    requires DtosWellFormed(ds)
    ensures DtosWellFormed(Mine(ds, id))
    decreases |ds|
  {
    if ds != [] { MineWellFormed(ds[..|ds| - 1], id); }
  }

  /**
   A local edit of a cached job sets its label and its tree, stamps it and makes it dirty; the server's fields,
   the upload and every other job stay. An edit of a job that is not cached does nothing.
   */
  lemma EditStaysWithJob(c: Cache, id: JobId, labelText: string, sections: seq<SectionRec>, now: int)
    requires CacheWellFormed(c) && WellFormed(sections)
    ensures var r := ApplyLocalEdits(c, id, labelText, sections, now);
      && r.Keys == c.Keys && (forall other | other in c && other != id :: r[other] == c[other])
      && (id in c ==>
            && r[id].labelText == labelText && r[id].updatedAt == now && r[id].dirty && Shuffled(sections, r[id].tree)
            && r[id].status == c[id].status && r[id].transcript == c[id].transcript && r[id].error == c[id].error
            && r[id].pdfUrl == c[id].pdfUrl && r[id].createdAt == c[id].createdAt && r[id].upload == c[id].upload)
  {
    if id in c { SyncedIsTheDtoTree(c[id].tree, sections); }
  }

  /** Merging a DTO again changes nothing. */
  lemma UpsertTwice(prior: Option<CachedJob>, d: JobDto)
    requires WellFormed(d.sections) && (prior.Some? ==> WellFormed(prior.value.tree))
    ensures UpsertOne(Some(UpsertOne(prior, d)), d) == UpsertOne(prior, d)
  {
    SyncTwice(if prior.Some? then prior.value.tree else [], d.sections);
  }

  ghost predicate OnePerJob(ds: seq<JobDto>) {
    forall i, j | 0 <= i < j < |ds| :: ds[i].id != ds[j].id
  }

  lemma {:induction false} MineAtMostOne(ds: seq<JobDto>, id: JobId)
    requires OnePerJob(ds)
    ensures |Mine(ds, id)| <= 1
    ensures Mine(ds, id) != [] ==> exists i :: 0 <= i < |ds| && ds[i].id == id
    decreases |ds|
  {
    if ds != [] {
      MineAtMostOne(ds[..|ds| - 1], id);
      if Mine(ds[..|ds| - 1], id) != [] {
        var i :| 0 <= i < |ds[..|ds| - 1]| && ds[..|ds| - 1][i].id == id;
        assert ds[i].id == id && ds[i].id != ds[|ds| - 1].id;
      } else if ds[|ds| - 1].id == id {
        assert 0 <= |ds| - 1 < |ds|;
      }
    }
  }

  /** Pulling the same list of jobs again leaves the whole cache as it is. */
  lemma PullTwice(c: Cache, ds: seq<JobDto>)
    requires CacheWellFormed(c) && DtosWellFormed(ds) && OnePerJob(ds)
    ensures MergePulled(MergePulled(c, ds), ds) == MergePulled(c, ds)
  {
    var once := MergePulled(c, ds);
    var twice := MergePulled(once, ds);
    forall id ensures Lookup(twice, id) == Lookup(once, id) {
      JobPulledTwice(c, ds, id);
    }
    assert forall id :: (id in twice <==> Lookup(twice, id).Some?) && (id in once <==> Lookup(once, id).Some?);
    assert forall id | id in once :: Lookup(once, id) == Some(once[id]) && Lookup(twice, id) == Some(twice[id]);
  }

  lemma JobPulledTwice(c: Cache, ds: seq<JobDto>, id: JobId)
    requires CacheWellFormed(c) && DtosWellFormed(ds) && OnePerJob(ds)
    ensures Lookup(MergePulled(MergePulled(c, ds), ds), id) == Lookup(MergePulled(c, ds), id)
  {
    var mine := Mine(ds, id);
    PullIsPerJob(c, ds, id);
    PullIsPerJob(MergePulled(c, ds), ds, id);
    MineAtMostOne(ds, id);
    MineWellFormed(ds, id);
    if mine != [] {
      assert mine[..0] == [] && mine[..|mine| - 1] == [];
      UpsertTwice(Lookup(c, id), mine[0]);
    }
  }
}
