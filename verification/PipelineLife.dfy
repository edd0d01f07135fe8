/**
 A job's whole life on the queue: user requests to process it, each of which may be cut off after
 any of its awaited calls, and deliveries of its entry. A delivery runs one attempt that may succeed,
 fail or crash at any awaited call, the queue's record of how it ended, which a dying worker may not
 reach, and the failure handler, which may fail or crash anywhere too. Requests and deliveries do not
 overlap here, and a timed-out body has no later effect.
 */
module PipelineLife {
  import opened Basics
  import opened Text
  import opened ReportTree
  import opened Pipeline
  import Safety = PipelineSafety

  /**
   One delivery of the entry: what the attempt's awaited calls answer, whether the queue gets to
   record how the attempt ended, and what handleFailure's calls answer.
   */
  datatype Delivery = Delivery(plan: Plan, recorded: bool, handler: Plan)

  datatype Op =
    | Ask(user: UserId, calls: nat)   // JobsService.process, of which this many awaited calls return
    | Attempt(d: Delivery)

  predicate Settled(e: Entry) {
    e.state.Done? || e.state.Dead?
  }

  /** enqueueProcessing: a finished entry is replaced, a live one left alone. */
  function Enqueue(s: Store, user: UserId, attempts: nat): Store {
    if s.entry.Some? && !Settled(s.entry.value) then s
    else s.(entry := Some(Entry(user, attempts, 0, Waiting)))
  }

  /** process goes on to queue the job. */
  predicate Asks(s: Store, user: UserId) {
    && Safety.Visible(s, user) && !s.row.status.Ready? && !InFlight(s.row.status)
    && s.row.audioKey.GetOr(AudioKey(user, s.row.id)) in s.objects
  }

  function AskOp(s: Store, user: UserId, attempts: nat): Store {
    if Asks(s, user) then Enqueue(SetStatusError(s, Queued, None), user, attempts) else s
  }

  /** enqueueProcessing cut off: a finished entry is removed by its second call, the new one added by the next. */
  function EnqueueUpTo(s: Store, user: UserId, calls: nat, attempts: nat): Store {
    if s.entry.Some? && !Settled(s.entry.value) then s
    else if calls >= (if s.entry.None? then 2 else 3) then s.(entry := Some(Entry(user, attempts, 0, Waiting)))
    else if calls == 2 then s.(entry := None)
    else s
  }

  /** The request cut off: its third call writes QUEUED. */
  function AskUpTo(s: Store, user: UserId, calls: nat, attempts: nat): Store {
    if Asks(s, user) && calls >= 3 then EnqueueUpTo(SetStatusError(s, Queued, None), user, calls - 3, attempts) else s
  }

  const WHOLE := 6

  predicate Live(s: Store) {
    s.entry.Some? && s.entry.value.state.Waiting?
  }

  function Activate(s: Store): Store
    requires s.entry.Some?
  {
    s.(entry := Some(s.entry.value.(state := Active)))
  }

  /** The worker lived to see its attempt end and the queue record that. */
  predicate Recorded(t: Thread, d: Delivery) {
    (t.Finished? || t.Thrown?) && d.recorded
  }

  /** The attempt's end as the queue sees it; an entry whose end it never saw is delivered again. */
  function AfterAttempt(s: Store, t: Thread, d: Delivery): Store {
    if Recorded(t, d) then
      var n := Safety.SettleEntry(s, t);
      Fold(n.0, n.1, d.handler).0
    else if s.entry.Some? then s.(entry := Some(s.entry.value.(state := Waiting)))
    else s
  }

  function AttemptOp(s: Store, d: Delivery): Store {
    if !Live(s) then s
    else
      var m := Fold(Activate(s), Read(s.entry.value.user), d.plan);
      AfterAttempt(m.0, m.1, d)
  }

  function Do(s: Store, op: Op, attempts: nat): Store {
    match op
    case Ask(user, calls) => AskUpTo(s, user, calls, attempts)
    case Attempt(d) => AttemptOp(s, d)
  }

  function Life(s: Store, ops: seq<Op>, attempts: nat): Store
    decreases |ops|
  {
    if ops == [] then s else Life(Do(s, ops[0], attempts), ops[1..], attempts)
  }

  /** A draft whose recording has been uploaded. */
  function Uploaded(id: JobId, owner: UserId, labelText: string, content: nat): Store {
    Safety.Draft(id, owner, labelText, None).(objects := map[AudioKey(owner, id) := Audio(content)])
  }

  function Requests(s: Store, r: Safety.Request, n: nat, attempts: nat): (Store, Safety.Request)
    decreases n
  {
    if n == 0 then (s, r)
    else
      var m := Safety.StepRequest(s, r, Ok, attempts);
      Requests(m.0, m.1, n - 1, attempts)
  }

  /** From its closing read on a request writes nothing. */
  lemma {:induction false} Writeless(s: Store, r: Safety.Request, n: nat, attempts: nat)
    requires r.Over? || r.Told? || r.ProcBack?
    ensures Requests(s, r, n, attempts).0 == s
    decreases n
  {
    if n > 0 { Writeless(s, Safety.StepRequest(s, r, Ok, attempts).1, n - 1, attempts); }
  }

  lemma AddUpTo(s: Store, user: UserId, first: Row, n: nat, attempts: nat)
    requires s.entry.None? && n > 0
    ensures Requests(s, Safety.EnqAdd(user, first), n, attempts).0 == s.(entry := Some(Entry(user, attempts, 0, Waiting)))
  {
    Writeless(s.(entry := Some(Entry(user, attempts, 0, Waiting))), Safety.ProcBack(user, first), n - 1, attempts);
  }

  lemma RemoveUpTo(s: Store, user: UserId, first: Row, n: nat, attempts: nat)
    requires s.entry.Some? && Settled(s.entry.value) && n > 0
    ensures Requests(s, Safety.EnqRemove(user, first), n, attempts).0
         == s.(entry := if n > 1 then Some(Entry(user, attempts, 0, Waiting)) else None)
  {
    if n > 1 { AddUpTo(s.(entry := None), user, first, n - 1, attempts); }
  }

  lemma LookUpTo(s: Store, user: UserId, first: Row, n: nat, attempts: nat)
    ensures Requests(s, Safety.EnqLook(user, first), n, attempts).0 == EnqueueUpTo(s, user, n, attempts)
  {
    if n > 1 {
      if s.entry.None? { AddUpTo(s, user, first, n - 1, attempts); }
      else if Settled(s.entry.value) { RemoveUpTo(s, user, first, n - 1, attempts); }
      else { Writeless(s, Safety.ProcBack(user, first), n - 1, attempts); }
    }
  }

  /** A refused request, or one for a job READY or in flight, changes nothing. */
  lemma RefusedUpTo(s: Store, user: UserId, n: nat, attempts: nat)
    requires !Asks(s, user)
    ensures Requests(s, Safety.ProcRead(user), n, attempts).0 == s
  {
    if n > 0 {
      var r := Safety.StepRequest(s, Safety.ProcRead(user), Ok, attempts);
      if !r.1.ProcHead? { Writeless(s, r.1, n - 1, attempts); }
      else if n > 1 { Writeless(s, Safety.Over, n - 2, attempts); }
    }
  }

  /**
   AskUpTo is what the API request has done when it throws, or its process dies, after this many of
   its awaited calls; and six calls are always enough for all that it writes.
   */
  lemma AskIsTheRequest(s: Store, user: UserId, calls: nat, attempts: nat)
    ensures Requests(s, Safety.ProcRead(user), calls, attempts).0 == AskUpTo(s, user, calls, attempts)
    ensures calls >= WHOLE ==> AskUpTo(s, user, calls, attempts) == AskOp(s, user, attempts)
  {
    if !Asks(s, user) {
      RefusedUpTo(s, user, calls, attempts);
    } else if calls > 0 {
      var head := Safety.ProcHead(user, s.row, s.row.audioKey.GetOr(AudioKey(user, s.row.id)));
      assert Requests(s, Safety.ProcRead(user), calls, attempts) == Requests(s, head, calls - 1, attempts);
      if calls >= 3 {
        assert Requests(s, head, calls - 1, attempts) == Requests(s, Safety.ProcSet(user, s.row), calls - 2, attempts);
        LookUpTo(SetStatusError(s, Queued, None), user, s.row, calls - 3, attempts);
      }
    }
  }

  // ---- what every life keeps ----

  predicate SameRow(s: Store, s': Store) {
    s'.row.id == s.row.id && s'.row.owner == s.row.owner && s'.row.labelText == s.row.labelText
  }

  lemma {:induction false} FoldKeepsJob(s: Store, t: Thread, plan: Plan)
    ensures SameRow(s, Fold(s, t, plan).0) && Fold(s, t, plan).0.entry == s.entry
    decreases plan
  {
    if plan.Then? && !Ended(t) {
      var n := Step(s, t, plan.c);
      assert SameRow(s, n.s) && n.s.entry == s.entry;
      FoldKeepsJob(n.s, n.t, plan.rest);
    }
  }

  ghost predicate RowInv(s: Store) {
    && s.row.audioKey == Some(AudioKey(s.row.owner, s.row.id)) && !s.row.deleted
    && AudioKey(s.row.owner, s.row.id) in s.objects
    && (s.entry.Some? ==> s.entry.value.user == s.row.owner)
  }

  /** The stored transcript is the one ever saved; the stored report is the last one committed. */
  ghost predicate WorkInv(s: Store) {
    && s.saved == (if s.row.transcript.Some? then [s.row.transcript.value] else [])
    && (s.row.transcript.Some? ==> NonBlank(s.row.transcript.value))
    && (s.committed == [] ==> s.tree == [])
    && (s.committed != [] ==> s.row.transcript.Some? && Project(s.tree) == s.committed[|s.committed| - 1])
    && (forall i | 0 <= i < |s.committed| - 1 :: s.committed[i] == [])
  }

  ghost predicate PdfInv(s: Store) {
    s.row.status.Ready? ==>
      && s.committed != [] && s.row.error.None?
      && s.row.pdfKey == Some(PdfKey(s.row.owner, s.row.id))
      && HasPdf(s, s.row.labelText, Project(s.tree))
  }

  predicate HasPdf(s: Store, labelText: string, sections: seq<SectionInput>) {
    var k := PdfKey(s.row.owner, s.row.id);
    k in s.objects && s.objects[k] == Pdf(labelText, sections)
  }

  ghost predicate CoreInv(s: Store) {
    RowInv(s) && WorkInv(s) && PdfInv(s)
  }

  ghost predicate SameJob(s: Store, l: Locals) {
    && l.user == s.row.owner && l.labelText == s.row.labelText && l.audioKey == AudioKey(s.row.owner, s.row.id)
    && !s.row.status.Ready?
  }

  /** What an attempt inside a stage knows about the store it is changing. */
  ghost predicate InStage(s: Store, stage: Stage, l: Locals) {
    match stage
    case Transcribe => s.row.transcript.None? && l.existing == []
    case Compile => s.row.transcript == Some(l.transcript) && Project(s.tree) == []
    case Render => s.committed != [] && l.sections == Project(s.tree)
  }

  ghost predicate CoreThread(s: Store, t: Thread) {
    match t
    case Read(user) => user == s.row.owner
    case Enter(stage, l) => SameJob(s, l) && InStage(s, stage, l)
    case Begin(stage, l) => SameJob(s, l) && InStage(s, stage, l)
    case Work(stage, l, late) => SameJob(s, l) && InStage(s, stage, l) && !late
    case Write(stage, l, late) =>
      SameJob(s, l) && InStage(s, stage, l) && !late && (stage.Transcribe? ==> NonBlank(l.transcript))
    case Publish(l, late) => SameJob(s, l) && InStage(s, Render, l) && !late && HasPdf(s, l.labelText, l.sections)
    case Complete(stage, l) =>
      (match stage
       case Transcribe => SameJob(s, l) && s.row.transcript == Some(l.transcript) && s.tree == [] && l.existing == []
       case Compile => SameJob(s, l) && InStage(s, Render, l)
       case Render => s.row.status.Ready?)
    case Finished => s.row.status.Ready?
    case _ => true
  }

  ghost predicate Core(s: Store, t: Thread) {
    CoreInv(s) && CoreThread(s, t)
  }

  lemma ReadCore(s: Store, t: Thread, c: Choice)
    requires Core(s, t) && t.Read?
    ensures var n := Step(s, t, c); Core(n.s, n.t)
  {
    assert |Project(s.tree)| == |s.tree|;
  }

  lemma StageCore(s: Store, t: Thread, c: Choice)
    requires Core(s, t) && (t.Enter? || t.Begin? || t.Fault?)
    ensures var n := Step(s, t, c); Core(n.s, n.t)
  {
  }

  lemma CompleteCore(s: Store, t: Thread, c: Choice)
    requires Core(s, t) && t.Complete?
    ensures var n := Step(s, t, c); Core(n.s, n.t)
  {
    assert |Project(s.tree)| == |s.tree|;
  }

  /** The foreign calls change nothing; what they leave the body with. */
  lemma WorkStep(s: Store, t: Thread, c: Choice) returns (n: Next)
    requires t.Work? && !t.late
    ensures n == Step(s, t, c) && n.s == s
    ensures n.t.Fault? || (n.t.Write? && n.t.stage == t.stage && !n.t.late
                           && n.t.l == t.l.(transcript := n.t.l.transcript, sections := n.t.l.sections)
                           && (t.stage.Transcribe? ==> NonBlank(n.t.l.transcript))
                           && (!t.stage.Transcribe? ==> n.t.l.transcript == t.l.transcript)
                           && (t.stage.Render? ==> n.t.l == t.l))
  {
    if c.Text? { TrimTwice(c.text); }
    n := Step(s, t, c);
  }

  lemma WorkCore(s: Store, t: Thread, c: Choice)
    requires Core(s, t) && t.Work?
    ensures var n := Step(s, t, c); Core(n.s, n.t)
  {
    var n := WorkStep(s, t, c);
  }

  lemma WriteFailsCore(s: Store, t: Thread, c: Choice)
    requires Core(s, t) && t.Write? && (c.Throw? || c.Timeout?)
    ensures var n := Step(s, t, c); Core(n.s, n.t)
  {
  }

  lemma TranscriptCore(s: Store, t: Thread, c: Choice)
    requires Core(s, t) && t.Write? && t.stage.Transcribe? && !c.Throw? && !c.Timeout?
    ensures var n := Step(s, t, c); Core(n.s, n.t)
  {
    assert |Project(s.tree)| == |s.tree|;
  }

  lemma ReplacedProjects(s: Store, sections: seq<SectionInput>)
    ensures Project(Replaced(s, sections).tree) == sections
  {
    ShuffledSelf(Inserted(sections, s.nextId));
    InsertedIsStored(sections, s.nextId, Inserted(sections, s.nextId));
  }

  lemma CommitKeeps(s: Store, sections: seq<SectionInput>)
    requires CoreInv(s) && !s.row.status.Ready? && s.row.transcript.Some? && Project(s.tree) == []
    ensures CoreInv(ReplaceReport(s, sections)) && Project(ReplaceReport(s, sections).tree) == sections
  {
    var s' := ReplaceReport(s, sections);
    assert Project(s'.tree) == sections by { ReplacedProjects(s, sections); }
    assert WorkInv(s') by { CommitWorks(s, s', sections); }
  }

  lemma CommitWorks(s: Store, s': Store, sections: seq<SectionInput>)
    requires WorkInv(s) && s.row.transcript.Some? && Project(s.tree) == []
    requires s'.row == s.row && s'.saved == s.saved && s'.committed == s.committed + [sections] && Project(s'.tree) == sections
    ensures WorkInv(s')
  {
    AllButLastEmpty(s.committed, sections);
  }

  lemma AllButLastEmpty(reports: seq<seq<SectionInput>>, last: seq<SectionInput>)
    requires (forall i | 0 <= i < |reports| - 1 :: reports[i] == []) && (reports != [] ==> reports[|reports| - 1] == [])
    ensures forall i | 0 <= i < |reports| :: (reports + [last])[i] == []
    ensures (reports + [last])[|reports|] == last
  {
  }

  lemma ReportCore(s: Store, t: Thread, c: Choice)
    requires Core(s, t) && t.Write? && t.stage.Compile? && !c.Throw? && !c.Timeout?
    ensures var n := Step(s, t, c); Core(n.s, n.t)
  {
    CommitKeeps(s, t.l.sections);
    assert Step(s, t, c) == Next(ReplaceReport(s, t.l.sections), Complete(Compile, t.l), None);
  }

  lemma PutCore(s: Store, t: Thread, c: Choice)
    requires Core(s, t) && t.Write? && t.stage.Render? && !c.Throw? && !c.Timeout?
    ensures var n := Step(s, t, c); Core(n.s, n.t)
  {
  }

  lemma WriteCore(s: Store, t: Thread, c: Choice)
    requires Core(s, t) && t.Write?
    ensures var n := Step(s, t, c); Core(n.s, n.t)
  {
    if c.Throw? || c.Timeout? { WriteFailsCore(s, t, c); }
    else if t.stage.Transcribe? { TranscriptCore(s, t, c); }
    else if t.stage.Compile? { ReportCore(s, t, c); }
    else { PutCore(s, t, c); }
  }

  lemma PublishCore(s: Store, t: Thread, c: Choice)
    requires Core(s, t) && t.Publish?
    ensures var n := Step(s, t, c); Core(n.s, n.t)
  {
  }

  lemma LogCore(s: Store, events: seq<Event>, dlq: seq<DeadLetter>)
    requires CoreInv(s)
    ensures CoreInv(s.(events := events, dlq := dlq))
  {
  }

  lemma FailedCore(s: Store, msg: string)
    requires CoreInv(s)
    ensures CoreInv(SetStatusError(s, Status.Failed, Some(Cut(msg))))
  {
  }

  lemma MarkStep(s: Store, t: Thread, c: Choice) returns (n: Next)
    requires t.MarkRead? || t.MarkSet? || t.MarkEvent? || t.Park?
    ensures n == Step(s, t, c)
    ensures n.s == (if t.MarkSet? && !c.Throw? then SetStatusError(s, Status.Failed, Some(Cut(t.msg)))
                    else s.(events := n.s.events, dlq := n.s.dlq))
    ensures n.t.MarkSet? || n.t.MarkEvent? || n.t.Park? || n.t.Thrown? || n.t.Gone?
  {
    n := Step(s, t, c);
  }

  lemma MarkCore(s: Store, t: Thread, c: Choice)
    requires Core(s, t) && (t.MarkRead? || t.MarkSet? || t.MarkEvent? || t.Park?)
    ensures var n := Step(s, t, c); Core(n.s, n.t)
  {
    var n := MarkStep(s, t, c);
    assert CoreInv(n.s) by {
      if t.MarkSet? && !c.Throw? { FailedCore(s, t.msg); } else { LogCore(s, n.s.events, n.s.dlq); }
    }
  }

  lemma StepCore(s: Store, t: Thread, c: Choice)
    requires Core(s, t)
    ensures var n := Step(s, t, c); Core(n.s, n.t)
  {
    match t
    case Read(_) => ReadCore(s, t, c);
    case Enter(_, _) => StageCore(s, t, c);
    case Begin(_, _) => StageCore(s, t, c);
    case Fault(_, _) => StageCore(s, t, c);
    case Complete(_, _) => CompleteCore(s, t, c);
    case Work(_, _, _) => WorkCore(s, t, c);
    case Write(_, _, _) => WriteCore(s, t, c);
    case Publish(_, _) => PublishCore(s, t, c);
    case MarkRead(_, _) => MarkCore(s, t, c);
    case MarkSet(_, _) => MarkCore(s, t, c);
    case MarkEvent(_, _) => MarkCore(s, t, c);
    case Park(_, _, _) => MarkCore(s, t, c);
    case _ =>
  }

  lemma {:induction false} FoldCore(s: Store, t: Thread, plan: Plan)
    requires Core(s, t)
    ensures var m := Fold(s, t, plan); Core(m.0, m.1)
    decreases plan
  {
    if plan.Then? && !Ended(t) {
      StepCore(s, t, plan.c);
      var n := Step(s, t, plan.c);
      FoldCore(n.s, n.t, plan.rest);
    }
  }

  lemma EntryCore(s: Store, e: Option<Entry>)
    requires CoreInv(s) && (e.Some? ==> e.value.user == s.row.owner)
    ensures CoreInv(s.(entry := e))
  {
  }

  lemma AfterAttemptCore(s: Store, t: Thread, d: Delivery)
    requires CoreInv(s)
    ensures CoreInv(AfterAttempt(s, t, d))
  {
    if Recorded(t, d) {
      Safety.SettleShape(s, t);
      var n := Safety.SettleEntry(s, t);
      EntryCore(s, n.0.entry);
      FoldCore(n.0, n.1, d.handler);
    } else if s.entry.Some? {
      EntryCore(s, Some(s.entry.value.(state := Waiting)));
    }
  }

  lemma AskCore(s: Store, user: UserId, calls: nat, attempts: nat)
    requires CoreInv(s)
    ensures CoreInv(AskUpTo(s, user, calls, attempts))
  {
    if Asks(s, user) && calls >= 3 {
      var s1 := SetStatusError(s, Queued, None);
      assert CoreInv(s1);
      EntryCore(s1, EnqueueUpTo(s1, user, calls - 3, attempts).entry);
    }
  }

  lemma AttemptCore(s: Store, d: Delivery)
    requires CoreInv(s)
    ensures CoreInv(AttemptOp(s, d))
  {
    if Live(s) {
      EntryCore(s, Activate(s).entry);
      var t := Read(s.entry.value.user);
      FoldCore(Activate(s), t, d.plan);
      var m := Fold(Activate(s), t, d.plan);
      AfterAttemptCore(m.0, m.1, d);
    }
  }

  lemma DoCore(s: Store, op: Op, attempts: nat)
    requires CoreInv(s)
    ensures CoreInv(Do(s, op, attempts))
  {
    match op
    case Ask(user, calls) => AskCore(s, user, calls, attempts);
    case Attempt(d) => AttemptCore(s, d);
  }

  lemma {:induction false} LifeCore(s: Store, ops: seq<Op>, attempts: nat)
    requires CoreInv(s)
    ensures CoreInv(Life(s, ops, attempts))
    decreases |ops|
  {
    if ops != [] {
      DoCore(s, ops[0], attempts);
      LifeCore(Do(s, ops[0], attempts), ops[1..], attempts);
    }
  }

  lemma UploadedCore(id: JobId, owner: UserId, labelText: string, content: nat)
    ensures CoreInv(Uploaded(id, owner, labelText, content))
  {
  }

  /** The reports among rs that have a section. */
  function NonEmpty(rs: seq<seq<SectionInput>>): seq<seq<SectionInput>> {
    if rs == [] then []
    else NonEmpty(rs[..|rs| - 1]) + if rs[|rs| - 1] != [] then [rs[|rs| - 1]] else []
  }

  lemma {:induction false} NonEmptyNone(rs: seq<seq<SectionInput>>)
    requires forall i | 0 <= i < |rs| :: rs[i] == []
    ensures NonEmpty(rs) == []
    decreases |rs|
  {
    if rs != [] { NonEmptyNone(rs[..|rs| - 1]); }
  }

  /**
   Work is done once over a whole life, whatever fails or crashes: at most one transcript is ever
   saved and at most one non-empty report committed, and these are what the job holds in the end;
   a READY job's document was rendered from exactly the stored report.
   */
  lemma WorkIsDoneOnce(id: JobId, owner: UserId, labelText: string, content: nat, ops: seq<Op>, attempts: nat)
    ensures var s := Life(Uploaded(id, owner, labelText, content), ops, attempts);
      && |s.saved| <= 1 && s.row.transcript == (if s.saved == [] then None else Some(s.saved[0]))
      && |NonEmpty(s.committed)| <= 1
      && Project(s.tree) == (if NonEmpty(s.committed) == [] then [] else NonEmpty(s.committed)[0])
      && (s.row.status.Ready? ==> s.row.transcript.Some? && HasPdf(s, s.row.labelText, Project(s.tree)))
  {
    UploadedCore(id, owner, labelText, content);
    LifeCore(Uploaded(id, owner, labelText, content), ops, attempts);
    var s := Life(Uploaded(id, owner, labelText, content), ops, attempts);
    if s.committed != [] {
      NonEmptyNone(s.committed[..|s.committed| - 1]);
    }
  }
}
