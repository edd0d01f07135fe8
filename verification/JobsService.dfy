/**
 The jobs endpoints in their own form: JobsService over the jobs table, one request at a time. Each
 method is the uninterrupted run of the request that JobsApi and PipelineSafety interleave.
 */
module JobsEndpoints {
  import opened Basics
  import opened Text
  import opened StableSort
  import opened ReportTree
  import opened Pipeline
  import opened JobsApi
  import Safety = PipelineSafety
  import Life = PipelineLife

  // ---- wire values ----

  datatype PatchFinding = PatchFinding(text: string, severity: Severity, sortOrder: int)
  datatype PatchSection = PatchSection(title: string, sortOrder: int, findings: seq<PatchFinding>)

  datatype JobDto = JobDto(
    id: JobId, labelText: string, status: Status, transcript: Option<string>, error: Option<string>,
    sections: seq<SectionRec>, pdf: Option<Key>)

  /** A reply, or the HTTP status of the refusal. */
  datatype Answer<+T> = Good(value: T) | Refused(status: nat)

  function JobToDto(s: Store, pdf: Option<Key>): JobDto {
    JobDto(s.row.id, s.row.labelText, s.row.status, s.row.transcript, s.row.error, ToDto(s.tree), pdf)
  }

  /** maybePdfUrl: the key to presign. */
  function MaybePdf(s: Store): Option<Key> {
    if s.row.status.Ready? then s.row.pdfKey else None
  }

  function PatchFindingOrder(f: PatchFinding): int { f.sortOrder }

  function PatchSectionOrder(s: PatchSection): int { s.sortOrder }

  function FindingInputs(fs: seq<PatchFinding>): seq<FindingInput> {
    seq(|fs|, i requires 0 <= i < |fs| => FindingInput(fs[i].text, fs[i].severity))
  }

  function Inputs(sections: seq<PatchSection>): seq<SectionInput> {
    seq(|sections|, i requires 0 <= i < |sections| => SectionInput(sections[i].title, FindingInputs(sections[i].findings)))
  }

  function ToReportInput(sections: seq<PatchSection>): seq<SectionInput> {
    var sorted := Sort(sections, PatchSectionOrder);
    seq(|sorted|, i requires 0 <= i < |sorted| =>
      SectionInput(sorted[i].title, FindingInputs(Sort(sorted[i].findings, PatchFindingOrder))))
  }

  ghost predicate PatchInOrder(sections: seq<PatchSection>) {
    && StrictlyAscending(sections, PatchSectionOrder)
    && forall k | 0 <= k < |sections| :: StrictlyAscending(sections[k].findings, PatchFindingOrder)
  }

  /** A body listed in order, whatever the gaps between its sortOrders, is taken as listed. */
  lemma InOrderIsTakenAsListed(sections: seq<PatchSection>)
    requires PatchInOrder(sections)
    ensures ToReportInput(sections) == Inputs(sections)
  {
    SortDistinct(sections, sections, PatchSectionOrder);
    forall k | 0 <= k < |sections| ensures ToReportInput(sections)[k] == Inputs(sections)[k] {
      SortDistinct(sections[k].findings, sections[k].findings, PatchFindingOrder);
    }
  }

  /** fs holds the findings by ascending sortOrder, those of one sortOrder as they were listed. */
  ghost predicate FindingsSorted(listed: seq<PatchFinding>, fs: seq<PatchFinding>) {
    && multiset(fs) == multiset(listed) && IsStableSort(listed, fs, PatchFindingOrder)
    && forall i, j | 0 <= i < j < |fs| :: fs[i].sortOrder <= fs[j].sortOrder
  }

  ghost predicate SectionsSorted(listed: seq<PatchSection>, ss: seq<PatchSection>) {
    && multiset(ss) == multiset(listed) && IsStableSort(listed, ss, PatchSectionOrder)
    && forall i, j | 0 <= i < j < |ss| :: ss[i].sortOrder <= ss[j].sortOrder
  }

  /** x has the title of s, and the texts and severities of fs. */
  ghost predicate Says(s: PatchSection, fs: seq<PatchFinding>, x: SectionInput) {
    && x.title == s.title && |x.findings| == |fs|
    && forall j | 0 <= j < |fs| :: x.findings[j].text == fs[j].text && x.findings[j].severity == fs[j].severity
  }

  ghost predicate TakenAs(s: PatchSection, x: SectionInput) {
    exists fs :: FindingsSorted(s.findings, fs) && Says(s, fs, x)
  }

  /**
   Every body, in whatever order it lists its rows, is taken as its sections by ascending sortOrder, each
   with its own findings by ascending sortOrder; rows with the same sortOrder stay as listed.
   */
  lemma BodyIsSorted(sections: seq<PatchSection>) returns (sorted: seq<PatchSection>)
    ensures SectionsSorted(sections, sorted) && |ToReportInput(sections)| == |sorted|
    ensures forall i | 0 <= i < |sorted| :: TakenAs(sorted[i], ToReportInput(sections)[i])
  {
    sorted := Sort(sections, PatchSectionOrder);
    SortIsStable(sections, PatchSectionOrder);
    forall i, j | 0 <= i < j < |sorted| ensures sorted[i].sortOrder <= sorted[j].sortOrder {
      assert PatchSectionOrder(sorted[i]) <= PatchSectionOrder(sorted[j]);
    }
    forall i | 0 <= i < |sorted| ensures TakenAs(sorted[i], ToReportInput(sections)[i]) {
      var fs := SortedFindings(sorted[i].findings);
      assert Says(sorted[i], fs, ToReportInput(sections)[i]);
    }
  }

  lemma SortedFindings(listed: seq<PatchFinding>) returns (fs: seq<PatchFinding>)
    ensures fs == Sort(listed, PatchFindingOrder) && FindingsSorted(listed, fs)
  {
    fs := Sort(listed, PatchFindingOrder);
    SortIsStable(listed, PatchFindingOrder);
    forall i, j | 0 <= i < j < |fs| ensures fs[i].sortOrder <= fs[j].sortOrder {
      assert PatchFindingOrder(fs[i]) <= PatchFindingOrder(fs[j]);
    }
  }

  // ---- the service ----

  /** Where between process's first and closing read another request's soft delete can land. */
  datatype Moment = BeforeQueued | AfterQueued

  /** Rewriting a row without touching its owner or key keeps the index unique. */
  lemma RewriteKeepsKeysUnique(jobs: Table, id: JobId, s: Store)
    requires KeysUnique(jobs) && id in jobs
    requires s.row.owner == jobs[id].row.owner && s.row.idempotencyKey == jobs[id].row.idempotencyKey
    ensures KeysUnique(jobs[id := s])
  {
    var jobs' := jobs[id := s];
    forall a, b, user, key | HasKey(jobs', a, user, key) && HasKey(jobs', b, user, key) ensures a == b {
      assert HasKey(jobs, a, user, key) && HasKey(jobs, b, user, key);
    }
  }

  function PutOnQueue(s: Store, user: UserId, attempts: nat): Store {
    Life.Enqueue(SetStatusError(s, Queued, None), user, attempts)
  }

  /** The soft delete and the queueing of a job write different fields, so their order does not matter. */
  lemma DeleteCommutes(s: Store, user: UserId, attempts: nat)
    ensures PutOnQueue(RemoveOp(s, false), user, attempts) == RemoveOp(PutOnQueue(s, user, attempts), false)
  {
  }

  class JobsService {
    var jobs: Table
    const attempts: nat

    ghost predicate Valid()
      reads this
    {
      KeysUnique(jobs) && forall id | id in jobs :: jobs[id].row.id == id
    }

    constructor (attempts: nat)
      ensures Valid() && jobs == map[] && this.attempts == attempts
    {
      jobs := map[];
      this.attempts := attempts;
    }

    /** requireOwned over findScoped. */
    method RequireOwned(user: UserId, id: JobId) returns (job: Option<Store>)
      ensures job == if Sees(jobs, user, id) then Some(jobs[id]) else None
    {
      if id in jobs && jobs[id].row.owner == user && !jobs[id].row.deleted { return Some(jobs[id]); }
      return None;
    }

    method Create(user: UserId, labelText: string, key: Option<string>, id: JobId) returns (reply: Answer<JobDto>)
      requires Valid()
      modifies `jobs
      ensures Valid()
      ensures var r := CreateOp(old(jobs), user, labelText, key, id);
        jobs == r.0 && reply == (if r.1.Duplicate? then Refused(409) else Good(JobToDto(jobs[r.1.id], None)))
    {
      if key.Some? {
        if a :| a in jobs && LiveKey(jobs, a, user, key.value) {
          assert HasKey(jobs, FindByKey(jobs, user, key.value).value, user, key.value);
          return Good(JobToDto(jobs[a], None));
        }
      }
      // the unique indexes on id and on (userId, idempotencyKey)
      if id in jobs { return Refused(409); }
      if key.Some? {
        if b :| b in jobs && HasKey(jobs, b, user, key.value) { return Refused(409); }
      }
      DraftKeepsKeysUnique(jobs, user, labelText, key, id);
      jobs := jobs[id := Store(
        Row(id, user, labelText, Status.Created, None, Some(AudioKey(user, id)), None, None, key, false),
        [], 0, [], map[], None, [], [], [])];
      return Good(JobToDto(jobs[id], None));
    }

    method FindOne(user: UserId, id: JobId) returns (reply: Answer<JobDto>)
      ensures reply == if Sees(jobs, user, id) then Good(JobToDto(jobs[id], MaybePdf(jobs[id]))) else Refused(404)
    {
      var job := RequireOwned(user, id);
      if job.None? { return Refused(404); }
      return Good(JobToDto(job.value, MaybePdf(job.value)));
    }

    method Update(user: UserId, id: JobId, labelText: Option<string>, sections: Option<seq<PatchSection>>)
      returns (reply: Answer<JobDto>)
      requires Valid()
      modifies `jobs
      ensures Valid()
      ensures !Sees(old(jobs), user, id) ==> jobs == old(jobs) && reply == Refused(404)
      ensures Sees(old(jobs), user, id) ==>
        && jobs == old(jobs)[id := UpdateOp(old(jobs)[id], labelText, ReportInput(sections))]
        && reply == Good(JobToDto(jobs[id], MaybePdf(jobs[id])))
    {
      var job := RequireOwned(user, id);
      if job.None? { return Refused(404); }
      if sections.Some? {
        var rows, next := InsertSections(ToReportInput(sections.value), jobs[id].nextId);
        var s := jobs[id].(tree := rows, nextId := next);
        if labelText.Some? { s := s.(row := s.row.(labelText := labelText.value)); }
        RewriteKeepsKeysUnique(jobs, id, s);
        jobs := jobs[id := s];
      } else if labelText.Some? {
        var s := jobs[id].(row := jobs[id].row.(labelText := labelText.value));
        RewriteKeepsKeysUnique(jobs, id, s);
        jobs := jobs[id := s];
      }
      reply := FindOne(user, id);
    }

    /** gone: whether, and when, another request soft-deletes the job meanwhile. */
    method Process(user: UserId, id: JobId, gone: Option<Moment>) returns (reply: Answer<JobDto>)
      requires Valid()
      modifies `jobs
      ensures Valid()
      ensures !Sees(old(jobs), user, id) ==> jobs == old(jobs) && reply == Refused(404)
      ensures Sees(old(jobs), user, id) ==>
        && jobs == old(jobs)[id := Processed(old(jobs)[id], user, attempts, gone)]
        && reply == ProcessReply(old(jobs)[id], user, attempts, gone)
    {
      var job := RequireOwned(user, id);
      if job.None? { return Refused(404); }
      var s := job.value;
      if s.row.status.Ready? { return Good(JobToDto(s, MaybePdf(s))); }
      if InFlight(s.row.status) { return Good(JobToDto(s, None)); }
      var audioKey := if s.row.audioKey.Some? then s.row.audioKey.value else AudioKey(user, id);
      if audioKey !in s.objects {
        return Refused(400);
      }
      QueueJob(user, id, gone);
      var refreshed := RequireOwned(user, id);
      return Good(JobToDto(if refreshed.Some? then refreshed.value else s, None));
    }

    method QueueJob(user: UserId, id: JobId, gone: Option<Moment>)
      requires Valid() && id in jobs
      modifies `jobs
      ensures Valid()
      ensures var s := PutOnQueue(old(jobs)[id], user, attempts);
        jobs == old(jobs)[id := if gone.Some? then RemoveOp(s, false) else s]
    {
      ghost var table, s := jobs, jobs[id];
      var early, late := gone.Some? && gone.value.BeforeQueued?, gone.Some? && gone.value.AfterQueued?;
      if early { SoftDelete(id); }
      WriteQueued(user, id);
      assert early ==> jobs == table[id := PutOnQueue(RemoveOp(s, false), user, attempts)];
      assert !early ==> jobs == table[id := PutOnQueue(s, user, attempts)];
      if late { SoftDelete(id); }
      DeleteCommutes(s, user, attempts);
    }

    /** The QUEUED write and the enqueue; both go by the job's id alone. */
    method WriteQueued(user: UserId, id: JobId)
      requires Valid() && id in jobs
      modifies `jobs
      ensures Valid() && jobs == old(jobs)[id := PutOnQueue(old(jobs)[id], user, attempts)]
    {
      SetQueued(id);
      EnqueueProcessing(user, id);
    }

    method SetQueued(id: JobId)
      requires Valid() && id in jobs
      modifies `jobs
      ensures Valid() && jobs == old(jobs)[id := SetStatusError(old(jobs)[id], Queued, None)]
    {
      var s := jobs[id].(row := jobs[id].row.(status := Queued, error := None));
      RewriteKeepsKeysUnique(jobs, id, s);
      jobs := jobs[id := s];
    }

    method SoftDelete(id: JobId)
      requires Valid() && id in jobs
      modifies `jobs
      ensures Valid() && jobs == old(jobs)[id := RemoveOp(old(jobs)[id], false)]
    {
      var s := jobs[id].(row := jobs[id].row.(deleted := true));
      RewriteKeepsKeysUnique(jobs, id, s);
      jobs := jobs[id := s];
    }

    method EnqueueProcessing(user: UserId, id: JobId)
      requires Valid() && id in jobs
      modifies `jobs
      ensures Valid()
      ensures jobs == old(jobs)[id := Life.Enqueue(old(jobs)[id], user, attempts)]
    {
      var s := jobs[id];
      if s.entry.Some? {
        var state := s.entry.value.state;
        if state.Done? || state.Dead? { s := s.(entry := None); } else { return; }
      }
      s := s.(entry := Some(Entry(user, attempts, 0, Waiting)));
      RewriteKeepsKeysUnique(jobs, id, s);
      jobs := jobs[id := s];
    }

    /** storage: whether the best-effort deletion of the objects succeeds. */
    method Remove(user: UserId, id: JobId, storage: bool) returns (reply: Answer<()>)
      requires Valid()
      modifies `jobs
      ensures Valid()
      ensures !Sees(old(jobs), user, id) ==> jobs == old(jobs) && reply == Refused(404)
      ensures Sees(old(jobs), user, id) ==> jobs == old(jobs)[id := RemoveOp(old(jobs)[id], storage)] && reply == Good(())
    {
      var job := RequireOwned(user, id);
      if job.None? { return Refused(404); }
      SoftDelete(id);
      if storage {
        var s := jobs[id].(objects := jobs[id].objects - Safety.Keys(job.value));
        RewriteKeepsKeysUnique(jobs, id, s);
        jobs := jobs[id := s];
      }
      return Good(());
    }

    method GetPdfUrl(user: UserId, id: JobId) returns (reply: Answer<Key>)
      ensures reply ==
        if !Sees(jobs, user, id) then Refused(404)
        else if Safety.GetPdfUrl(jobs[id], user).None? then Refused(409)
        else Good(Safety.GetPdfUrl(jobs[id], user).value)
    {
      var job := RequireOwned(user, id);
      if job.None? { return Refused(404); }
      if !job.value.row.status.Ready? || job.value.row.pdfKey.None? { return Refused(409); }
      return Good(job.value.row.pdfKey.value);
    }
  }

  function ReportInput(sections: Option<seq<PatchSection>>): Option<seq<SectionInput>> {
    if sections.Some? then Some(ToReportInput(sections.value)) else None
  }

  /** Wherever the soft delete falls, process still queues the job. */
  function Processed(s: Store, user: UserId, attempts: nat, gone: Option<Moment>): Store {
    if !Life.Asks(s, user) then s
    else if gone.Some? then RemoveOp(PutOnQueue(s, user, attempts), false)
    else PutOnQueue(s, user, attempts)
  }

  /** The closing read answers the job as queued; when it no longer finds the job, the row first read is answered. */
  function ProcessReply(s: Store, user: UserId, attempts: nat, gone: Option<Moment>): Answer<JobDto> {
    if s.row.status.Ready? then Good(JobToDto(s, s.row.pdfKey))
    else if InFlight(s.row.status) then Good(JobToDto(s, None))
    else if s.row.audioKey.GetOr(AudioKey(user, s.row.id)) !in s.objects then Refused(400)
    else Good(JobToDto(if gone.Some? then s else PutOnQueue(s, user, attempts), None))
  }

  // ---- what a user is shown ----

  /**
   In every state any interleaving reaches, the answer shows the job's own fields: a READY job with its
   transcript and its PDF and without an error, a FAILED one with its error and without a PDF, and the
   report in its stored order, numbered 0..n-1.
   */
  lemma AnswersAreSafe(id: JobId, owner: UserId, labelText: string, key: Option<string>, moves: seq<Safety.Move>, attempts: nat)
    ensures var s := Safety.Run(Safety.Sys(Safety.Draft(id, owner, labelText, key), [], []), moves, attempts).s;
      var dto := JobToDto(s, MaybePdf(s));
      && dto.id == id && dto.labelText == s.row.labelText && dto.status == s.row.status
      && dto.transcript == s.row.transcript && dto.error == s.row.error
      && Numbered(dto.sections, Project(s.tree))
      && (dto.status.Ready? && !s.row.deleted ==>
            dto.transcript.Some? && NonBlank(dto.transcript.value) && dto.error.None? && dto.pdf == Some(PdfKey(owner, id)))
      && (dto.status.Failed? ==> dto.error.Some? && |dto.error.value| <= 1000)
      && (!dto.status.Ready? ==> dto.pdf.None?)
  {
    Safety.ReachableStatesAreSafe(id, owner, labelText, key, moves, attempts, owner);
    EmptyIsStored();
    Safety.RunKeeps(Safety.Sys(Safety.Draft(id, owner, labelText, key), [], []), moves, attempts);
    var s := Safety.Run(Safety.Sys(Safety.Draft(id, owner, labelText, key), [], []), moves, attempts).s;
    PersistThenProject(s.tree, Project(s.tree));
  }

  // ---- the same requests, step by step ----

  lemma UpdateIsTheRequest(s: Store, user: UserId, labelText: Option<string>, sections: Option<seq<SectionInput>>, attempts: nat)
    ensures Life.Requests(s, Safety.PatchRead(user, labelText, sections), 2, attempts).0
         == if Safety.Visible(s, user) then UpdateOp(s, labelText, sections) else s
  {
    var r1 := Safety.StepRequest(s, Safety.PatchRead(user, labelText, sections), Ok, attempts);
    var r2 := Safety.StepRequest(r1.0, r1.1, Ok, attempts);
    assert Life.Requests(r1.0, r1.1, 1, attempts) == Life.Requests(r2.0, r2.1, 0, attempts);
  }

  lemma RemoveIsTheRequest(s: Store, user: UserId, attempts: nat)
    ensures Life.Requests(s, Safety.RmRead(user), 3, attempts).0
         == if Safety.Visible(s, user) then RemoveOp(s, true) else s
    ensures Life.Requests(s, Safety.RmRead(user), 2, attempts).0
         == if Safety.Visible(s, user) then RemoveOp(s, false) else s
  {
    var r1 := Safety.StepRequest(s, Safety.RmRead(user), Ok, attempts);
    var r2 := Safety.StepRequest(r1.0, r1.1, Ok, attempts);
    var r3 := Safety.StepRequest(r2.0, r2.1, Ok, attempts);
    assert Life.Requests(r1.0, r1.1, 1, attempts) == Life.Requests(r2.0, r2.1, 0, attempts);
    assert Life.Requests(r1.0, r1.1, 2, attempts) == Life.Requests(r2.0, r2.1, 1, attempts);
    assert Life.Requests(r2.0, r2.1, 1, attempts) == Life.Requests(r3.0, r3.1, 0, attempts);
  }

  /** What the process endpoint answers, for every job its caller sees; `gone` is a deletion while it runs. */
  lemma ProcessTells(s: Store, user: UserId, attempts: nat, gone: Option<Moment>)
    requires s.row.owner == user && !s.row.deleted
    ensures var key := if s.row.audioKey.Some? then s.row.audioKey.value else AudioKey(user, s.row.id);
      var busy := s.row.status.Queued? || s.row.status.Transcribing? || s.row.status.Compiling? || s.row.status.Rendering?;
      match ProcessReply(s, user, attempts, gone)
      case Refused(code) => code == 400 && !s.row.status.Ready? && !busy && key !in s.objects
      case Good(dto) =>
        && (s.row.status.Ready? || busy || key in s.objects)
        && dto.id == s.row.id && dto.labelText == s.row.labelText && dto.transcript == s.row.transcript && dto.sections == ToDto(s.tree)
        && dto.pdf == (if s.row.status.Ready? then s.row.pdfKey else None)
        && (if s.row.status.Ready? || busy || gone.Some? then dto.status == s.row.status && dto.error == s.row.error
            else dto.status.Queued? && dto.error.None?)
  {
  }
}
