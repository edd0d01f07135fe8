/**
 When an attempt is for good: exactly when a foreign call answers with input that no retry can mend.
 Stated over every attempt of every live job, in terms of what the calls answered.
 */
module PipelineRefusal {
  import opened Basics
  import opened Text
  import opened ReportTree
  import opened ReportCompiler
  import opened Pipeline
  import opened PipelineLife
  import opened PipelineOutcome

  /** The recording has no speech in it, or neither of the compiler's two replies is a valid report. */
  predicate Refused(t: Thread, c: Choice) {
    t.Work? &&
    match t.stage
    case Transcribe => c.Text? && Trim(c.text) == ""
    case Compile => c.Replies? && !ValidReply(c.first) && !ValidReply(c.second)
    case Render => false
  }

  /** The first stage of the attempt whose input is refused, and what is left of the plan then. */
  function FirstRefusal(s: Store, t: Thread, plan: Plan): Option<(Stage, Plan)>
    decreases plan
  {
    if plan.Crash? || Ended(t) then None
    else if Refused(t, plan.c) then Some((t.stage, plan.rest))
    else
      var n := Step(s, t, plan.c);
      FirstRefusal(n.s, n.t, plan.rest)
  }

  function RefusalOf(s: Store, d: Delivery): Option<(Stage, Plan)>
    requires s.entry.Some?
  {
    FirstRefusal(Activate(s), Read(s.entry.value.user), d.plan)
  }

  /** What the job then shows as its error. */
  function Reason(stage: Stage): string {
    if stage.Transcribe? then EMPTY_TRANSCRIPT else MALFORMED
  }

  /** No foreign call has refused its input yet. */
  predicate Open(t: Thread) {
    !t.MarkRead? && !t.MarkSet? && !t.MarkEvent? && !ForGood(t) && (t.Fault? ==> !t.err.permanent)
  }

  lemma OpenWork(s: Store, t: Thread, c: Choice)
    requires Core(s, t) && t.Work? && !Refused(t, c)
    ensures Open(Step(s, t, c).t)
  {
  }

  lemma OpenWrite(s: Store, t: Thread, c: Choice)
    requires Core(s, t) && (t.Write? || t.Publish? || t.Complete? || t.Fault?) && Open(t)
    ensures Open(Step(s, t, c).t)
  {
  }

  lemma OpenStep(s: Store, t: Thread, c: Choice)
    requires Core(s, t) && FlowThread(s, t, FailedEvents(s.events), s.dlq) && Open(t) && !Refused(t, c)
    ensures Open(Step(s, t, c).t)
  {
    if t.Work? { OpenWork(s, t, c); }
    else if t.Write? || t.Publish? || t.Complete? || t.Fault? { OpenWrite(s, t, c); }
    else if t.Read? { ReadCore(s, t, c); }
  }

  lemma RefusedStep(s: Store, t: Thread, c: Choice)
    requires Core(s, t) && Refused(t, c)
    ensures Step(s, t, c) == Next(s, Fault(t.stage, Err(Reason(t.stage), true)), None)
  {
  }

  // ---- after the refusal: the stage's failed event, then markFailed's three calls ----

  lemma ShortReasons(stage: Stage)
    ensures Cut(Reason(stage)) == Reason(stage)
  {
  }

  lemma MarkWritten(s: Store, msg: string, plan: Plan)
    requires s.row.status.Failed?
    ensures var m := Fold(s, MarkEvent(msg, ByAttempt), plan);
      && (ForGood(m.1) <==> Calls(1, plan)) && m.0.row == s.row && (ForGood(m.1) ==> m.1.msg == msg)
  {
    CallsMore(0, plan);
    if plan.Then? {
      Fold1(s, MarkEvent(msg, ByAttempt), plan.c, plan.rest, Step(s, MarkEvent(msg, ByAttempt), plan.c));
    }
  }

  lemma MarkSets(s: Store, msg: string, plan: Plan)
    ensures var m := Fold(s, MarkSet(msg, ByAttempt), plan);
      && (ForGood(m.1) <==> Calls(2, plan))
      && (ForGood(m.1) ==> m.1.msg == msg && m.0.row == s.row.(status := Status.Failed, error := Some(Cut(msg))))
  {
    CallsMore(1, plan);
    if plan.Then? {
      var n := Step(s, MarkSet(msg, ByAttempt), plan.c);
      Fold1(s, MarkSet(msg, ByAttempt), plan.c, plan.rest, n);
      if !plan.c.Throw? { MarkWritten(n.s, msg, plan.rest); }
    }
  }

  lemma MarkReads(s: Store, msg: string, plan: Plan)
    requires !s.row.status.Failed?
    ensures var m := Fold(s, MarkRead(msg, ByAttempt), plan);
      && (ForGood(m.1) <==> Calls(3, plan))
      && (ForGood(m.1) ==> m.1.msg == msg && m.0.row == s.row.(status := Status.Failed, error := Some(Cut(msg))))
  {
    CallsMore(2, plan);
    if plan.Then? {
      var n := Step(s, MarkRead(msg, ByAttempt), plan.c);
      Fold1(s, MarkRead(msg, ByAttempt), plan.c, plan.rest, n);
      if !plan.c.Throw? { MarkSets(s, msg, plan.rest); }
    }
  }

  lemma FaultRuns(s: Store, stage: Stage, msg: string, plan: Plan)
    requires !s.row.status.Failed?
    ensures var m := Fold(s, Fault(stage, Err(msg, true)), plan);
      && (ForGood(m.1) <==> Calls(4, plan))
      && (ForGood(m.1) ==> m.1.msg == msg && m.0.row == s.row.(status := Status.Failed, error := Some(Cut(msg))))
  {
    CallsMore(3, plan);
    if plan.Then? {
      var n := Step(s, Fault(stage, Err(msg, true)), plan.c);
      Fold1(s, Fault(stage, Err(msg, true)), plan.c, plan.rest, n);
      if !plan.c.Throw? { MarkReads(n.s, msg, plan.rest); }
    }
  }

  lemma {:induction false} FoldRefusal(s: Store, t: Thread, plan: Plan)
    requires Core(s, t) && FlowThread(s, t, FailedEvents(s.events), s.dlq) && Open(t)
    ensures var m := Fold(s, t, plan); var w := FirstRefusal(s, t, plan);
      && (ForGood(m.1) <==> w.Some? && Calls(4, w.value.1))
      && (ForGood(m.1) ==> m.1.msg == Reason(w.value.0) && m.0.row.status.Failed? && m.0.row.error == Some(Reason(w.value.0)))
    decreases plan
  {
    if plan.Then? && !Ended(t) {
      var n := Step(s, t, plan.c);
      Fold1(s, t, plan.c, plan.rest, n);
      if Refused(t, plan.c) {
        RefusedStep(s, t, plan.c);
        ShortReasons(t.stage);
        FaultRuns(s, t.stage, Reason(t.stage), plan.rest);
      } else {
        OpenNext(s, t, plan.c);
        FoldRefusal(n.s, n.t, plan.rest);
      }
    }
  }

  lemma OpenNext(s: Store, t: Thread, c: Choice)
    requires Core(s, t) && FlowThread(s, t, FailedEvents(s.events), s.dlq) && Open(t) && !Refused(t, c)
    ensures var n := Step(s, t, c);
      Core(n.s, n.t) && FlowThread(n.s, n.t, FailedEvents(n.s.events), n.s.dlq) && Open(n.t)
  {
    StepCore(s, t, c);
    OpenStep(s, t, c);
    StepFlow(s, t, c, FailedEvents(s.events), s.dlq);
  }

  /**
   Over every live job and every attempt, whatever its calls answer and wherever it is cut: it is for
   good exactly when it comes to a transcription that hears nothing or a compilation both of whose
   replies are invalid, and the four calls after that, the stage's failed event and markFailed's three,
   return. Then the job is FAILED with that reason. A call that throws, a timeout and a missing reply
   never make an attempt for good.
   */
  lemma ForGoodExactlyWhen(s: Store, d: Delivery)
    requires CoreInv(s) && Live(s)
    ensures var w := RefusalOf(s, d); var m := Ran(s, d);
      && (Marked(s, d) <==> w.Some? && Calls(4, w.value.1))
      && (Marked(s, d) ==> m.1.msg == Reason(w.value.0)
                           && m.0.row.status.Failed? && m.0.row.error == Some(Reason(w.value.0)))
  {
    var a := Activate(s);
    EntryCore(s, a.entry);
    FoldRefusal(a, Read(s.entry.value.user), d.plan);
  }

  /** A recorded refusal ends the entry, however many attempts were left, and whatever the handler does. */
  lemma RefusedForGood(s: Store, d: Delivery)
    requires CoreInv(s) && Live(s) && d.recorded
    requires RefusalOf(s, d).Some? && Calls(4, RefusalOf(s, d).value.1)
    ensures var r := AttemptOp(s, d);
      && EndOf(s, d).Perished? && DeadEntry(r)
      && r.row.status.Failed? && r.row.error == Some(Reason(RefusalOf(s, d).value.0))
  {
    ForGoodExactlyWhen(s, d);
    DeliveryOutcome(s, d);
  }

  /** Two invalid replies, and every call around them returns. */
  function MalformedPlan(first: Reply, second: Reply): Plan {
    Then(Ok, Then(Ok, Then(Ok, Then(Replies(first, second), Then(Ok, Then(Ok, Then(Ok, Then(Ok, Crash))))))))
  }

  /** A transcribed job whose compiler replies are both invalid fails at its first such attempt. */
  lemma MalformedFailsAtOnce(s: Store, first: Reply, second: Reply, handler: Plan)
    requires CoreInv(s) && Live(s) && !s.row.status.Ready? && s.row.transcript.Some? && Project(s.tree) == []
    requires !ValidReply(first) && !ValidReply(second)
    ensures var r := AttemptOp(s, Delivery(MalformedPlan(first, second), true, handler));
      r.row.status.Failed? && r.row.error == Some(MALFORMED) && DeadEntry(r)
  {
    var d := Delivery(MalformedPlan(first, second), true, handler);
    var a := Activate(s);
    var user := s.entry.value.user;
    var l := Locals(user, a.row.labelText, a.row.audioKey.value, Project(a.tree), a.row.transcript.value, []);
    assert AfterRead(a, user) == Enter(Compile, l);
    var s1 := SetStatus(a, Compiling);
    var s2 := AddEvent(s1, Of(Compile), Started, None);
    var four := Then(Ok, Then(Ok, Then(Ok, Then(Ok, Crash))));
    var p := Then(Replies(first, second), four);
    assert FirstRefusal(s2, Work(Compile, l, false), p) == Some((Compile, four));
    assert FirstRefusal(s1, Begin(Compile, l), Then(Ok, p)) == Some((Compile, four));
    assert FirstRefusal(a, Enter(Compile, l), Then(Ok, Then(Ok, p))) == Some((Compile, four));
    assert FirstRefusal(a, Read(user), d.plan) == Some((Compile, four));
    FourCalls(four);
    assert Calls(2, four) && Calls(2, four.rest.rest);
    RefusedForGood(s, d);
  }
}
