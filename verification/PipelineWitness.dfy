/**
 Concrete lives in which a promise of the pipeline fails: the inputs behind the exact conditions of
 PipelineOutcome.
 */
module PipelineWitness {
  import opened Basics
  import opened Text
  import opened ReportTree
  import opened Pipeline
  import opened PipelineLife
  import opened PipelineOutcome
  import opened PipelineResume

  const HANDLER: Plan := Then(Ok, Then(Ok, Then(Ok, Then(Ok, Crash))))

  const NO_DATABASE: Plan := Then(Throw("db"), Crash)

  lemma HandlerCalls()
    ensures Calls(2, HANDLER) && Calls(4, HANDLER)
  {
    assert Calls(2, HANDLER.rest.rest);
    FourCalls(HANDLER);
  }

  /** The job right after its first request, with its queue entry. */
  function Asked(id: JobId, owner: UserId, labelText: string, content: nat, attempts: nat): Store {
    AskOp(Uploaded(id, owner, labelText, content), owner, attempts)
  }

  lemma AskedCore(id: JobId, owner: UserId, labelText: string, content: nat, attempts: nat)
    ensures var s := Asked(id, owner, labelText, content, attempts);
      && CoreInv(s) && s.entry == Some(Entry(owner, attempts, 0, Waiting)) && s.row.status.Queued?
      && s.row.transcript.None? && s.tree == [] && s.events == [] && s.dlq == [] && s.row.owner == owner
  {
    UploadedCore(id, owner, labelText, content);
    AskCore(Uploaded(id, owner, labelText, content), owner, WHOLE, attempts);
  }

  // ---- READY lost ----

  /** The rendering stage up to setPdfReady. */
  const CUT_RENDER: Plan := Then(Ok, Then(Ok, Then(Ok, Then(Ok, Then(Ok, Crash)))))

  lemma CutRender(s: Store, l: Locals) returns (m: Store)
    ensures Fold(s, Enter(Render, l), CUT_RENDER) == (m, Complete(Render, l)) && m.row.status.Ready?
  {
    var rest := Then(Ok, Then(Ok, Crash));
    var s1 := EnterStage(s, Render, l, Then(Ok, rest));
    Fold1(s1, Work(Render, l, false), Ok, rest, Next(s1, Write(Render, l, false), None));
    m := CutPublish(s1, l);
  }

  lemma CutPublish(s: Store, l: Locals) returns (m: Store)
    ensures Fold(s, Write(Render, l, false), Then(Ok, Then(Ok, Crash))) == (m, Complete(Render, l)) && m.row.status.Ready?
  {
    var s1 := PutPdf(s, l);
    Fold1(s, Write(Render, l, false), Ok, Then(Ok, Crash), Next(s1, Publish(l, false), None));
    m := SetPdfReady(s1, l);
    Fold1(s1, Publish(l, false), Ok, Crash, Next(m, Complete(Render, l), None));
  }

  /** An attempt that publishes, and then meets `tail`. */
  lemma PublishRun(s: Store, o: Oracle, tail: Plan) returns (m: Store, l: Locals)
    requires CoreInv(s) && Live(s) && !s.row.status.Ready? && Usable(o)
    ensures Fold(Activate(s), Read(s.entry.value.user), PlanFrom(s, o, Plus(CUT_RENDER, tail))) == Fold(m, Complete(Render, l), tail)
    ensures m.row.status.Ready?
  {
    var a := Activate(s);
    EntryCore(s, a.entry);
    assert PlanFrom(a, o, Plus(CUT_RENDER, tail)) == PlanFrom(s, o, Plus(CUT_RENDER, tail));
    var m1, l1 := FaultFreeAttemptReachesRendering(a, o, Plus(CUT_RENDER, tail));
    m := CutRender(m1, l1);
    l := l1;
    FoldPlus(m1, Enter(Render, l), CUT_RENDER, tail);
  }

  /** The worker dies right after publishing. */
  function PublishThenDie(s: Store, o: Oracle): Delivery {
    Delivery(PlanFrom(s, o, Plus(CUT_RENDER, Crash)), true, HANDLER)
  }

  /** The completed event of the rendering is not written: the stage, and with it the attempt, fails. */
  function PublishUnreported(s: Store, o: Oracle): Delivery {
    Delivery(PlanFrom(s, o, Plus(CUT_RENDER, Then(Throw("db"), Then(Ok, Crash)))), true, HANDLER)
  }

  /**
   With one attempt configured, a worker that dies right after publishing and a redelivery whose first
   read fails turn any READY job into a FAILED one.
   */
  lemma ReadyCanBeLost(id: JobId, owner: UserId, labelText: string, content: nat, o: Oracle)
    requires Usable(o)
    ensures
      var asked := Asked(id, owner, labelText, content, 1);
      var published := AttemptOp(asked, PublishThenDie(asked, o));
      var lost := AttemptOp(published, Delivery(NO_DATABASE, true, HANDLER));
      published.row.status.Ready? && lost.row.status.Failed?
  {
    AskedCore(id, owner, labelText, content, 1);
    var asked := Asked(id, owner, labelText, content, 1);
    var m, l := PublishRun(asked, o, Crash);
    DeliveryOutcome(asked, PublishThenDie(asked, o));
    var published := AttemptOp(asked, PublishThenDie(asked, o));
    LastReadFails(published);
  }

  lemma LastReadFails(s: Store)
    requires CoreInv(s) && Live(s) && s.entry.value.made + 1 >= s.entry.value.attempts
    ensures AttemptOp(s, Delivery(NO_DATABASE, true, HANDLER)).row.status.Failed?
  {
    DatabaseDown(Activate(s), s.entry.value.user);
    FailedForGood(s, Delivery(NO_DATABASE, true, HANDLER));
  }

  lemma DatabaseDown(s: Store, user: UserId)
    ensures Fold(s, Read(user), NO_DATABASE) == (s, Thrown("db", false))
  {
    Fold1(s, Read(user), Throw("db"), Crash, Next(s, Thrown("db", false), None));
  }

  /**
   No death is needed: when the last attempt publishes the document and only its completed event cannot
   be written, the job becomes FAILED although setPdfReady had made it READY.
   */
  lemma LostEventLosesTheReport(id: JobId, owner: UserId, labelText: string, content: nat, o: Oracle)
    requires Usable(o)
    ensures
      var asked := Asked(id, owner, labelText, content, 1);
      var d := PublishUnreported(asked, o);
      Ran(asked, d).0.row.status.Ready? && AttemptOp(asked, d).row.status.Failed?
  {
    AskedCore(id, owner, labelText, content, 1);
    UnreportedDelivery(Asked(id, owner, labelText, content, 1), o);
  }

  lemma UnreportedDelivery(s: Store, o: Oracle)
    requires CoreInv(s) && Live(s) && !s.row.status.Ready? && Usable(o)
    requires s.entry.value.made + 1 >= s.entry.value.attempts
    ensures var d := PublishUnreported(s, o);
      Ran(s, d).0.row.status.Ready? && AttemptOp(s, d).row.status.Failed?
  {
    var d := PublishUnreported(s, o);
    assert Ran(s, d).1 == Thrown("db", false) && Ran(s, d).0.row.status.Ready? by {
      var m, l := PublishRun(s, o, Then(Throw("db"), Then(Ok, Crash)));
      Unreported(m, l);
    }
    FailedForGood(s, d);
  }

  lemma FailedForGood(s: Store, d: Delivery)
    requires CoreInv(s) && Live(s) && Ran(s, d).1.Thrown? && d.recorded && d.handler == HANDLER
    requires s.entry.value.made + 1 >= s.entry.value.attempts
    ensures AttemptOp(s, d).row.status.Failed?
  {
    HandlerCalls();
    DeliveryOutcome(s, d);
  }

  lemma Unreported(m: Store, l: Locals)
    requires m.row.status.Ready?
    ensures var r := Fold(m, Complete(Render, l), Then(Throw("db"), Then(Ok, Crash)));
      r.1 == Thrown("db", false) && r.0.row.status.Ready?
  {
    var err := Err("db", false);
    Fold1(m, Complete(Render, l), Throw("db"), Then(Ok, Crash), Next(m, Fault(Render, err), None));
    var m' := AddEvent(m, Of(Render), Errored, Some(Cut("db")));
    Fold1(m, Fault(Render, err), Ok, Crash, Next(m', Thrown("db", false), None));
  }

  // ---- events and dead letters apart ----

  /** A silent recording, up to markFailed's status write. */
  const SILENT: Plan :=
    Then(Ok, Then(Ok, Then(Ok, Then(Choice.Text(""), Then(Ok, Then(Ok, Then(Ok, Crash)))))))

  lemma SilentStage(s: Store, l: Locals) returns (m: Store)
    requires l.audioKey in s.objects
    ensures Fold(s, Enter(Transcribe, l), SILENT.rest) == Fold(m, MarkRead(EMPTY_TRANSCRIPT, ByAttempt), SILENT.rest.rest.rest.rest.rest)
    ensures m.row.status.Transcribing? && m.row.transcript == s.row.transcript
  {
    var p := SILENT.rest.rest.rest;
    var s1 := SetStatus(s, Transcribing);
    var s2 := AddEvent(s1, Of(Transcribe), Started, None);
    Fold1(s, Enter(Transcribe, l), Ok, SILENT.rest.rest, Next(s1, Begin(Transcribe, l), None));
    Fold1(s1, Begin(Transcribe, l), Ok, p, Next(s2, Work(Transcribe, l, false), None));
    var err := Err(EMPTY_TRANSCRIPT, true);
    assert Trim("") == "";
    Fold1(s2, Work(Transcribe, l, false), Choice.Text(""), p.rest, Next(s2, Fault(Transcribe, err), None));
    m := AddEvent(s2, Of(Transcribe), Errored, Some(Cut(EMPTY_TRANSCRIPT)));
    Fold1(s2, Fault(Transcribe, err), Ok, p.rest.rest, Next(m, MarkRead(EMPTY_TRANSCRIPT, ByAttempt), None));
  }

  lemma MarkCut(m: Store)
    requires !m.row.status.Failed?
    ensures Fold(m, MarkRead(EMPTY_TRANSCRIPT, ByAttempt), SILENT.rest.rest.rest.rest.rest)
      == (MarkedFailed(m, EMPTY_TRANSCRIPT), MarkEvent(EMPTY_TRANSCRIPT, ByAttempt))
  {
    var p := SILENT.rest.rest.rest.rest.rest;
    Fold1(m, MarkRead(EMPTY_TRANSCRIPT, ByAttempt), Ok, p.rest, Next(m, MarkSet(EMPTY_TRANSCRIPT, ByAttempt), None));
    var m' := MarkedFailed(m, EMPTY_TRANSCRIPT);
    Fold1(m, MarkSet(EMPTY_TRANSCRIPT, ByAttempt), Ok, Crash, Next(m', MarkEvent(EMPTY_TRANSCRIPT, ByAttempt), None));
  }

  /** Of a job without a transcript, FAILED before or not. */
  lemma SilentRun(s: Store)
    requires CoreInv(s) && Live(s) && !s.row.status.Ready? && s.row.transcript.None?
    ensures var m := Fold(Activate(s), Read(s.entry.value.user), SILENT);
      m.1 == MarkEvent(EMPTY_TRANSCRIPT, ByAttempt) && m.0.row.status.Failed? && m.0.row.transcript.None?
  {
    var a, user := Activate(s), s.row.owner;
    EntryCore(s, a.entry);
    var l := Locals(user, a.row.labelText, a.row.audioKey.value, Project(a.tree), "", []);
    assert AfterRead(a, user) == Enter(Transcribe, l);
    Fold1(a, Read(user), Ok, SILENT.rest, Next(a, Enter(Transcribe, l), None));
    var m := SilentStage(a, l);
    MarkCut(m);
  }

  /** The silent recording again, markFailed's event write included. */
  const SILENT_MARKED: Plan := Plus(SILENT, Then(Ok, Crash))

  lemma SilentMarked(s: Store)
    requires CoreInv(s) && Live(s) && !s.row.status.Ready? && s.row.transcript.None?
    ensures var m := Fold(Activate(s), Read(s.entry.value.user), SILENT_MARKED);
      m.1 == Thrown(EMPTY_TRANSCRIPT, true) && m.0.row.status.Failed? && m.0.row.transcript.None?
  {
    SilentRun(s);
    var m := Fold(Activate(s), Read(s.entry.value.user), SILENT).0;
    FoldPlus(Activate(s), Read(s.entry.value.user), SILENT, Then(Ok, Crash));
    var n := WithFailedEvent(m, EMPTY_TRANSCRIPT);
    Fold1(m, MarkEvent(EMPTY_TRANSCRIPT, ByAttempt), Ok, Crash, Next(n, Thrown(EMPTY_TRANSCRIPT, true), None));
  }

  /**
   A worker that dies between markFailed's two writes, and a redelivery whose read fails: the job is
   FAILED with a dead letter and no event.
   */
  lemma CrashInsideMarkFailedLosesTheEvent(id: JobId, owner: UserId, labelText: string, content: nat)
    ensures
      var asked := Asked(id, owner, labelText, content, 1);
      var cut := AttemptOp(asked, Delivery(SILENT, true, HANDLER));
      var s := AttemptOp(cut, Delivery(NO_DATABASE, true, HANDLER));
      s.row.status.Failed? && |s.dlq| == 1 && FailedEvents(s.events) == 0
  {
    AskedCore(id, owner, labelText, content, 1);
    var asked := Asked(id, owner, labelText, content, 1);
    SilentRun(asked);
    DeliveryOutcome(asked, Delivery(SILENT, true, HANDLER));
    LetterOnly(AttemptOp(asked, Delivery(SILENT, true, HANDLER)));
  }

  lemma LetterOnly(s: Store)
    requires CoreInv(s) && Live(s) && s.entry.value.made + 1 >= s.entry.value.attempts && s.row.status.Failed?
    ensures var r := AttemptOp(s, Delivery(NO_DATABASE, true, HANDLER));
      r.row.status.Failed? && |r.dlq| == |s.dlq| + 1 && FailedEvents(r.events) == FailedEvents(s.events)
  {
    DatabaseDown(Activate(s), s.entry.value.user);
    HandlerCalls();
    DeliveryOutcome(s, Delivery(NO_DATABASE, true, HANDLER));
  }

  lemma MarkedUnrecorded(s: Store)
    requires CoreInv(s) && Live(s) && !s.row.status.Ready? && s.row.transcript.None?
    ensures var r := AttemptOp(s, Delivery(SILENT_MARKED, false, HANDLER));
      && CoreInv(r) && r.entry == s.entry && !r.row.status.Ready? && r.row.transcript.None? && r.dlq == s.dlq && FailedEvents(r.events) == FailedEvents(s.events) + 1
  {
    SilentMarked(s);
    DeliveryOutcome(s, Delivery(SILENT_MARKED, false, HANDLER));
  }

  lemma MarkedRecorded(s: Store)
    requires CoreInv(s) && Live(s) && !s.row.status.Ready? && s.row.transcript.None?
    ensures var r := AttemptOp(s, Delivery(SILENT_MARKED, true, HANDLER));
      && r.row.status.Failed? && |r.dlq| == |s.dlq| + 1 && FailedEvents(r.events) == FailedEvents(s.events) + 1
  {
    SilentMarked(s);
    HandlerCalls();
    DeliveryOutcome(s, Delivery(SILENT_MARKED, true, HANDLER));
  }

  /**
   A worker that dies after its attempt marked the job and before the queue recorded the failure: the
   redelivery fails for good in the same way and writes the event a second time.
   */
  lemma UnrecordedFailureDoublesTheEvent(id: JobId, owner: UserId, labelText: string, content: nat)
    ensures
      var asked := Asked(id, owner, labelText, content, 3);
      var unrecorded := AttemptOp(asked, Delivery(SILENT_MARKED, false, HANDLER));
      var s := AttemptOp(unrecorded, Delivery(SILENT_MARKED, true, HANDLER));
      s.row.status.Failed? && |s.dlq| == 1 && FailedEvents(s.events) == 2
  {
    AskedCore(id, owner, labelText, content, 3);
    var asked := Asked(id, owner, labelText, content, 3);
    MarkedUnrecorded(asked);
    MarkedRecorded(AttemptOp(asked, Delivery(SILENT_MARKED, false, HANDLER)));
  }

  /** The handler's first two calls return, and its event write fails. */
  const CUT_HANDLER: Plan := Then(Ok, Then(Ok, NO_DATABASE))

  /**
   A handler that fails at its own event write: the job is FAILED and its entry dead, with neither an
   event nor a dead letter. Events and letters do not differ, and the job is not stranded.
   */
  lemma HandlerCutLosesBoth(id: JobId, owner: UserId, labelText: string, content: nat)
    ensures
      var asked := Asked(id, owner, labelText, content, 1);
      var d := Delivery(NO_DATABASE, true, CUT_HANDLER);
      var s := AttemptOp(asked, d);
      && s.row.status.Failed? && s.entry.value.state.Dead? && s.dlq == [] && FailedEvents(s.events) == 0
      && !Stranded(s) && forall w :: !Falls(asked, d, w)
  {
    AskedCore(id, owner, labelText, content, 1);
    BothLost(Asked(id, owner, labelText, content, 1));
  }

  lemma BothLost(s: Store)
    requires CoreInv(s) && Live(s) && s.entry.value.made + 1 >= s.entry.value.attempts && !s.row.status.Failed?
    ensures var d := Delivery(NO_DATABASE, true, CUT_HANDLER); var r := AttemptOp(s, d);
      && r.row.status.Failed? && DeadEntry(r) && r.dlq == s.dlq && FailedEvents(r.events) == FailedEvents(s.events)
      && forall w :: !Falls(s, d, w)
  {
    DatabaseDown(Activate(s), s.entry.value.user);
    assert Calls(2, CUT_HANDLER) && !Calls(1, NO_DATABASE);
    FourCalls(CUT_HANDLER);
    CallsMore(1, NO_DATABASE);
    DeliveryOutcome(s, Delivery(NO_DATABASE, true, CUT_HANDLER));
  }

  // ---- stranded ----

  /**
   The last attempt and its handler both find the database down: the job stays QUEUED with a dead entry
   and no dead letter, and nothing that happens later moves it.
   */
  lemma FailedHandlerStrandsTheJob(id: JobId, owner: UserId, labelText: string, content: nat, ops: seq<Op>)
    ensures
      var asked := Asked(id, owner, labelText, content, 1);
      var s := AttemptOp(asked, Delivery(NO_DATABASE, true, NO_DATABASE));
      s.row.status.Queued? && s.entry.value.state.Dead? && s.dlq == [] && Life(s, ops, 1) == s
  {
    AskedCore(id, owner, labelText, content, 1);
    var asked := Asked(id, owner, labelText, content, 1);
    DatabaseDown(Activate(asked), owner);
    CallsMore(1, NO_DATABASE);
    CallsMore(3, NO_DATABASE);
    DeliveryOutcome(asked, Delivery(NO_DATABASE, true, NO_DATABASE));
    StrandedForGood(AttemptOp(asked, Delivery(NO_DATABASE, true, NO_DATABASE)), ops, 1);
  }

  /** The API process dies between its QUEUED write and its enqueue: QUEUED for ever, with no entry. */
  lemma CutRequestStrandsTheJob(id: JobId, owner: UserId, labelText: string, content: nat, ops: seq<Op>, attempts: nat)
    ensures
      var s := AskUpTo(Uploaded(id, owner, labelText, content), owner, 3, attempts);
      s.row.status.Queued? && s.entry.None? && Life(s, ops, attempts) == s
  {
    StrandedForGood(AskUpTo(Uploaded(id, owner, labelText, content), owner, 3, attempts), ops, attempts);
  }
}
