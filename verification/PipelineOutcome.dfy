/**
 Outcomes of deliveries and of whole lives, for whatever the awaited calls of the attempt and of its
 failure handler answer and wherever the worker dies: what one delivery does to the entry, the status,
 the pipeline/failed events and the dead letters, exactly; how many deliveries an entry can take; how
 far events and dead letters can come apart; when a job is stranded; when progress is lost.
 */
module PipelineOutcome {
  import opened Basics
  import opened ReportTree
  import opened Pipeline
  import opened PipelineLife
  import Safety = PipelineSafety

  /** The first n awaited calls along a plan return. */
  predicate Calls(n: nat, plan: Plan): (r: bool)
    ensures r && n >= 1 ==> plan.Then?
    ensures r && n >= 2 ==> plan.rest.Then?
  {
    n == 0 || (plan.Then? && !plan.c.Throw? && Calls(n - 1, plan.rest))
  }

  lemma CallsMore(n: nat, plan: Plan)
    ensures Calls(n + 1, plan) <==> plan.Then? && !plan.c.Throw? && Calls(n, plan.rest)
    ensures Calls(1, plan) <==> plan.Then? && !plan.c.Throw?
  {
    assert plan.Then? ==> Calls(0, plan.rest);
  }

  predicate IsFailedEvent(e: Event) { e.stage.Whole? && e.status.Errored? }

  /** Number of pipeline/failed events. */
  function FailedEvents(events: seq<Event>): nat {
    if events == [] then 0
    else FailedEvents(events[..|events| - 1]) + if IsFailedEvent(events[|events| - 1]) then 1 else 0
  }

  lemma FailedEventsAppend(events: seq<Event>, e: Event)
    ensures FailedEvents(events + [e]) == FailedEvents(events) + if IsFailedEvent(e) then 1 else 0
  {
    assert (events + [e])[..|events|] == events;
  }

  // ---- one attempt ----

  /** Where the attempt of this delivery ends. */
  function Ran(s: Store, d: Delivery): (Store, Thread)
    requires s.entry.Some?
  {
    Fold(Activate(s), Read(s.entry.value.user), d.plan)
  }

  predicate Busy(s: Store) {
    InFlight(s.row.status) || s.row.status.Ready?
  }

  /**
   What an attempt that began with these events and dead letters has done so far: it writes one
   pipeline/failed event, and only by marking the job before it throws for good.
   */
  ghost predicate FlowThread(s: Store, t: Thread, failed: nat, dlq: seq<DeadLetter>) {
    && s.dlq == dlq
    && match t
       case MarkEvent(_, from) => FailedEvents(s.events) == failed && s.row.status.Failed? && from.ByAttempt?
       case MarkRead(_, from) => FailedEvents(s.events) == failed && InFlight(s.row.status) && from.ByAttempt?
       case MarkSet(_, from) => FailedEvents(s.events) == failed && InFlight(s.row.status) && from.ByAttempt?
       case Fault(_, err) => FailedEvents(s.events) == failed && Busy(s) && (err.permanent ==> InFlight(s.row.status))
       case Thrown(_, unrecoverable) =>
         if unrecoverable then FailedEvents(s.events) == failed + 1 && s.row.status.Failed? else FailedEvents(s.events) == failed
       case Read(_) => FailedEvents(s.events) == failed
       case Enter(_, _) => FailedEvents(s.events) == failed
       case Park(_, _, _) => false
       case Gone => false
       case _ => FailedEvents(s.events) == failed && Busy(s)
  }

  predicate IsEventWrite(t: Thread) {
    t.Begin? || t.Complete? || t.Fault? || t.MarkEvent?
  }

  lemma WorkFlow(s: Store, t: Thread, c: Choice, failed: nat, dlq: seq<DeadLetter>)
    requires Core(s, t) && FlowThread(s, t, failed, dlq) && t.Work?
    ensures var n := StepBody(s, t, c); FlowThread(n.s, n.t, failed, dlq)
  {
    assert StepBody(s, t, c).s == s;
  }

  lemma WriteFlow(s: Store, t: Thread, c: Choice, failed: nat, dlq: seq<DeadLetter>)
    requires Core(s, t) && FlowThread(s, t, failed, dlq) && (t.Write? || t.Publish?)
    ensures var n := StepBody(s, t, c); FlowThread(n.s, n.t, failed, dlq)
  {
    assert StepBody(s, t, c).s.events == s.events && StepBody(s, t, c).s.dlq == s.dlq;
  }

  lemma EventFlow(s: Store, t: Thread, c: Choice, failed: nat, dlq: seq<DeadLetter>)
    requires Core(s, t) && FlowThread(s, t, failed, dlq) && IsEventWrite(t)
    ensures var n := Step(s, t, c); FlowThread(n.s, n.t, failed, dlq)
  {
    if !c.Throw? {
      var n := Step(s, t, c);
      var e := n.s.events[|n.s.events| - 1];
      assert n.s.events == s.events + [e];
      FailedEventsAppend(s.events, e);
    }
  }

  lemma OtherFlow(s: Store, t: Thread, c: Choice, failed: nat, dlq: seq<DeadLetter>)
    requires Core(s, t) && FlowThread(s, t, failed, dlq)
    requires !InBody(t) && !IsEventWrite(t)
    ensures var n := Step(s, t, c); FlowThread(n.s, n.t, failed, dlq)
  {
    if t.Read? { ReadCore(s, t, c); }
  }

  lemma StepFlow(s: Store, t: Thread, c: Choice, failed: nat, dlq: seq<DeadLetter>)
    requires Core(s, t) && FlowThread(s, t, failed, dlq)
    ensures var n := Step(s, t, c); FlowThread(n.s, n.t, failed, dlq)
  {
    if t.Work? { WorkFlow(s, t, c, failed, dlq); }
    else if t.Write? || t.Publish? { WriteFlow(s, t, c, failed, dlq); }
    else if IsEventWrite(t) { EventFlow(s, t, c, failed, dlq); }
    else { OtherFlow(s, t, c, failed, dlq); }
  }

  lemma {:induction false} FoldFlow(s: Store, t: Thread, plan: Plan, failed: nat, dlq: seq<DeadLetter>)
    requires Core(s, t) && FlowThread(s, t, failed, dlq)
    ensures var m := Fold(s, t, plan); Core(m.0, m.1) && FlowThread(m.0, m.1, failed, dlq)
    decreases plan
  {
    if plan.Then? && !Ended(t) {
      StepCore(s, t, plan.c);
      StepFlow(s, t, plan.c, failed, dlq);
      var n := Step(s, t, plan.c);
      FoldFlow(n.s, n.t, plan.rest, failed, dlq);
    }
  }

  /** What the attempt itself leaves behind, before the queue looks at it. */
  lemma AttemptFlow(s: Store, d: Delivery)
    requires CoreInv(s) && Live(s)
    ensures var m := Ran(s, d);
      && CoreInv(m.0) && m.0.entry == Activate(s).entry && SameRow(s, m.0)
      && CoreThread(m.0, m.1) && FlowThread(m.0, m.1, FailedEvents(s.events), s.dlq)
  {
    var a := Activate(s);
    var t := Read(s.entry.value.user);
    EntryCore(s, a.entry);
    assert Core(a, t) && FlowThread(a, t, FailedEvents(s.events), s.dlq);
    FoldFlow(a, t, d.plan, FailedEvents(s.events), s.dlq);
    FoldKeepsJob(a, t, d.plan);
  }

  // ---- the failure handler ----

  function WithLetter(s: Store, msg: string, user: UserId, made: nat): Store {
    s.(dlq := s.dlq + [DeadLetter(s.row.id, user, msg, made)])
  }

  function MarkedFailed(s: Store, msg: string): Store {
    SetStatusError(s, Status.Failed, Some(Cut(msg)))
  }

  function WithFailedEvent(s: Store, msg: string): Store {
    AddEvent(s, Whole, Errored, Some(Cut(msg)))
  }

  /** The handler when the job is FAILED already: its calls are rawById and dlq.add. */
  lemma HandlerParks(s: Store, msg: string, user: UserId, made: nat, handler: Plan)
    requires s.row.status.Failed?
    ensures Fold(s, MarkRead(msg, ByHandler(user, made)), handler).0
         == if Calls(2, handler) then WithLetter(s, msg, user, made) else s
  {
    var from := ByHandler(user, made);
    CallsMore(1, handler);
    if Calls(1, handler) {
      var p := handler.rest;
      Fold1(s, MarkRead(msg, from), handler.c, p, Next(s, Park(msg, user, made), None));
      ParkRuns(s, msg, user, made, p);
    } else if handler.Then? {
      Fold1(s, MarkRead(msg, from), handler.c, handler.rest, Next(s, Gone, None));
    }
  }

  lemma ParkRuns(s: Store, msg: string, user: UserId, made: nat, handler: Plan)
    ensures Fold(s, Park(msg, user, made), handler).0 == if Calls(1, handler) then WithLetter(s, msg, user, made) else s
  {
    CallsMore(0, handler);
    if handler.Then? {
      var s' := if handler.c.Throw? then s else WithLetter(s, msg, user, made);
      Fold1(s, Park(msg, user, made), handler.c, handler.rest, Next(s', Gone, None));
    }
  }

  /** From markFailed's event write on. */
  lemma HandlerReports(s: Store, msg: string, user: UserId, made: nat, handler: Plan)
    ensures Fold(s, MarkEvent(msg, ByHandler(user, made)), handler).0
         == if !Calls(1, handler) then s
            else if !Calls(2, handler) then WithFailedEvent(s, msg)
            else WithLetter(WithFailedEvent(s, msg), msg, user, made)
  {
    var from := ByHandler(user, made);
    CallsMore(1, handler);
    if Calls(1, handler) {
      Fold1(s, MarkEvent(msg, from), handler.c, handler.rest, Next(WithFailedEvent(s, msg), Park(msg, user, made), None));
      ParkRuns(WithFailedEvent(s, msg), msg, user, made, handler.rest);
    } else if handler.Then? {
      Fold1(s, MarkEvent(msg, from), handler.c, handler.rest, Next(s, Gone, None));
    }
  }

  lemma HandlerSets(s: Store, msg: string, user: UserId, made: nat, handler: Plan)
    ensures Fold(s, MarkSet(msg, ByHandler(user, made)), handler).0
         == if !Calls(1, handler) then s
            else Fold(MarkedFailed(s, msg), MarkEvent(msg, ByHandler(user, made)), handler.rest).0
  {
    CallsMore(0, handler);
    if handler.Then? {
      var from := ByHandler(user, made);
      var n := if handler.c.Throw? then Next(s, Gone, None) else Next(MarkedFailed(s, msg), MarkEvent(msg, from), None);
      Fold1(s, MarkSet(msg, from), handler.c, handler.rest, n);
    }
  }

  /** The handler when the attempt failed for the last time without marking: rawById, setStatus, addEvent, dlq.add. */
  lemma HandlerMarks(s: Store, msg: string, user: UserId, made: nat, handler: Plan)
    requires !s.row.status.Failed?
    ensures Fold(s, MarkRead(msg, ByHandler(user, made)), handler).0
         == if !Calls(2, handler) then s
            else Fold(MarkedFailed(s, msg), MarkEvent(msg, ByHandler(user, made)), handler.rest.rest).0
  {
    var from := ByHandler(user, made);
    CallsMore(1, handler);
    if Calls(1, handler) {
      Fold1(s, MarkRead(msg, from), handler.c, handler.rest, Next(s, MarkSet(msg, from), None));
      HandlerSets(s, msg, user, made, handler.rest);
    } else if handler.Then? {
      Fold1(s, MarkRead(msg, from), handler.c, handler.rest, Next(s, Gone, None));
    }
  }

  /** How many of the handler's calls must return for the dead letter. */
  function LetterCalls(s: Store): nat { if s.row.status.Failed? then 2 else 4 }

  lemma FourCalls(handler: Plan)
    ensures Calls(3, handler) <==> Calls(2, handler) && Calls(1, handler.rest.rest)
    ensures Calls(4, handler) <==> Calls(2, handler) && Calls(2, handler.rest.rest)
  {
    CallsMore(1, handler);
    CallsMore(2, handler);
    CallsMore(3, handler);
    if handler.Then? {
      CallsMore(0, handler.rest);
      CallsMore(1, handler.rest);
      CallsMore(2, handler.rest);
    }
  }

  /** The handler's whole effect, for whatever its calls answer and wherever it dies. */
  lemma HandlerRuns(s: Store, msg: string, user: UserId, made: nat, handler: Plan)
    ensures var r := Fold(s, MarkRead(msg, ByHandler(user, made)), handler).0;
      && r.entry == s.entry && r.tree == s.tree && r.row.transcript == s.row.transcript
      && r.row == (if Calls(2, handler) && !s.row.status.Failed? then MarkedFailed(s, msg).row else s.row)
      && r.dlq == s.dlq + (if Calls(LetterCalls(s), handler) then [DeadLetter(s.row.id, user, msg, made)] else [])
      && FailedEvents(r.events)
           == FailedEvents(s.events) + (if !s.row.status.Failed? && Calls(3, handler) then 1 else 0)
  {
    if s.row.status.Failed? {
      HandlerParks(s, msg, user, made, handler);
    } else {
      HandlerMarks(s, msg, user, made, handler);
      FourCalls(handler);
      if Calls(2, handler) {
        HandlerReports(MarkedFailed(s, msg), msg, user, made, handler.rest.rest);
        FailedEventsAppend(s.events, Event(Whole, Errored, Some(Cut(msg))));
      }
    }
  }

  // ---- one delivery ----

  /**
   How a delivery ended: cut off before the queue recorded anything, or recorded as a success, as a
   failure to be retried, or as a failure for good.
   */
  datatype End = Lost | Succeeded | Retried | Perished

  function EndOf(s: Store, d: Delivery): End
    requires s.entry.Some?
  {
    var t := Ran(s, d).1;
    if !Recorded(t, d) then Lost
    else if t.Finished? then Succeeded
    else if t.unrecoverable || s.entry.value.made + 1 >= s.entry.value.attempts then Perished
    else Retried
  }

  /** The attempt itself marked the job FAILED, both writes of it, and threw for good. */
  predicate Marked(s: Store, d: Delivery)
    requires s.entry.Some?
  {
    var t := Ran(s, d).1;
    t.Thrown? && t.unrecoverable
  }

  /** A pipeline/failed event: from the attempt that marks, or from the handler whose third call returns. */
  predicate AddsEvent(s: Store, d: Delivery)
    requires s.entry.Some?
  {
    Marked(s, d) || (EndOf(s, d).Perished? && !Ran(s, d).0.row.status.Failed? && Calls(3, d.handler))
  }

  /** A dead letter: from the handler of a failure for good, all of whose calls return. */
  predicate AddsLetter(s: Store, d: Delivery)
    requires s.entry.Some?
  {
    EndOf(s, d).Perished? && Calls(LetterCalls(Ran(s, d).0), d.handler)
  }

  /** The dead letter names the job, its user, the attempt's error and the failures so far. */
  function Letters(s: Store, d: Delivery): seq<DeadLetter>
    requires s.entry.Some?
  {
    if AddsLetter(s, d)
    then [DeadLetter(s.row.id, s.entry.value.user, Ran(s, d).1.msg, s.entry.value.made + 1)]
    else []
  }

  /** What the delivery leaves when the queue saw no failure for good. */
  lemma Unfailed(s: Store, d: Delivery)
    requires CoreInv(s) && Live(s) && !EndOf(s, d).Perished?
    ensures var e := s.entry.value;
      AttemptOp(s, d) == Ran(s, d).0.(entry := Some(
        match EndOf(s, d)
        case Lost => e
        case Succeeded => e.(state := Done)
        case _ => e.(made := e.made + 1)))
  {
    FoldKeepsJob(Activate(s), Read(s.entry.value.user), d.plan);
  }

  /** And when it saw one: the entry dead, then the handler. */
  lemma Failing(s: Store, d: Delivery)
    requires CoreInv(s) && Live(s) && EndOf(s, d).Perished?
    ensures var m := Ran(s, d); var e := s.entry.value.(made := s.entry.value.made + 1, state := Dead);
      AttemptOp(s, d) == Fold(m.0.(entry := Some(e)), MarkRead(m.1.msg, ByHandler(e.user, e.made)), d.handler).0
  {
    FoldKeepsJob(Activate(s), Read(s.entry.value.user), d.plan);
    var m := Ran(s, d);
    var e := s.entry.value.(made := s.entry.value.made + 1, state := Dead);
    assert Safety.SettleEntry(m.0, m.1) == (m.0.(entry := Some(e)), MarkRead(m.1.msg, ByHandler(e.user, e.made)));
  }

  /** The entry and the status after a delivery, in terms of its end. */
  ghost predicate Ends(s: Store, d: Delivery, r: Store)
    requires s.entry.Some?
  {
    var e := s.entry.value;
    match EndOf(s, d)
    case Lost => r.entry == s.entry && r.row == Ran(s, d).0.row
    case Succeeded => r.entry == Some(e.(state := Done)) && r.row == Ran(s, d).0.row && r.row.status.Ready?
    case Retried => r.entry == Some(e.(made := e.made + 1)) && r.row == Ran(s, d).0.row
    case Perished =>
      && r.entry == Some(e.(made := e.made + 1, state := Dead))
      && var m := Ran(s, d).0;
         r.row == if Calls(2, d.handler) && !m.row.status.Failed?
                  then m.row.(status := Status.Failed, error := Some(Cut(Ran(s, d).1.msg))) else m.row
  }

  /**
   One delivery of a live entry, whatever fails and wherever anything dies: its end decides entry and
   status, and it adds one pipeline/failed event and one dead letter exactly when AddsEvent and
   AddsLetter say so, else none.
   */
  lemma DeliveryOutcome(s: Store, d: Delivery)
    requires CoreInv(s) && Live(s)
    ensures var r := AttemptOp(s, d);
      && CoreInv(r) && Ends(s, d, r)
      && FailedEvents(r.events) == FailedEvents(s.events) + (if AddsEvent(s, d) then 1 else 0)
      && r.dlq == s.dlq + Letters(s, d)
  {
    AttemptCore(s, d);
    if EndOf(s, d).Perished? { PerishedOutcome(s, d); } else { UnfailedOutcome(s, d); }
  }

  lemma UnfailedOutcome(s: Store, d: Delivery)
    requires CoreInv(s) && Live(s) && !EndOf(s, d).Perished?
    ensures var r := AttemptOp(s, d);
      && Ends(s, d, r) && r.dlq == s.dlq
      && FailedEvents(r.events) == FailedEvents(s.events) + (if Marked(s, d) then 1 else 0)
  {
    AttemptFlow(s, d);
    Unfailed(s, d);
  }

  lemma PerishedOutcome(s: Store, d: Delivery)
    requires CoreInv(s) && Live(s) && EndOf(s, d).Perished?
    ensures var r := AttemptOp(s, d);
      && Ends(s, d, r)
      && FailedEvents(r.events) == FailedEvents(s.events) + (if AddsEvent(s, d) then 1 else 0)
      && r.dlq == s.dlq + Letters(s, d)
  {
    AttemptFlow(s, d);
    Failing(s, d);
    var m := Ran(s, d);
    var e := s.entry.value.(made := s.entry.value.made + 1, state := Dead);
    HandlerRuns(m.0.(entry := Some(e)), m.1.msg, e.user, e.made, d.handler);
  }

  // ---- when an attempt marks the job ----

  /** What is left of the plan when the attempt reaches markFailed's event write, if it does. */
  function AtMark(s: Store, t: Thread, plan: Plan): Option<Plan>
    decreases plan
  {
    if t.MarkEvent? then Some(plan)
    else if plan.Crash? || Ended(t) then None
    else
      var n := Step(s, t, plan.c);
      AtMark(n.s, n.t, plan.rest)
  }

  function MarkOf(s: Store, d: Delivery): Option<Plan>
    requires s.entry.Some?
  {
    AtMark(Activate(s), Read(s.entry.value.user), d.plan)
  }

  predicate ForGood(t: Thread) { t.Thrown? && t.unrecoverable }

  /** From a point where the row is FAILED only inside markFailed: the event write decides. */
  lemma {:induction false} FoldMark(s: Store, t: Thread, plan: Plan, failed: nat, dlq: seq<DeadLetter>)
    requires Core(s, t) && FlowThread(s, t, failed, dlq) && (s.row.status.Failed? ==> t.MarkEvent?)
    ensures var m := Fold(s, t, plan); var w := AtMark(s, t, plan);
      && (ForGood(m.1) <==> w.Some? && Calls(1, w.value))
      && (m.0.row.status.Failed? && !ForGood(m.1) <==> w.Some? && !Calls(1, w.value))
    decreases plan
  {
    if t.MarkEvent? {
      MarkDecides(s, t, plan);
    } else if plan.Then? && !Ended(t) {
      StepCore(s, t, plan.c);
      StepFlow(s, t, plan.c, failed, dlq);
      var n := Step(s, t, plan.c);
      StepFailed(s, t, plan.c, failed, dlq);
      FoldMark(n.s, n.t, plan.rest, failed, dlq);
    }
  }

  lemma MarkDecides(s: Store, t: Thread, plan: Plan)
    requires t.MarkEvent? && t.from.ByAttempt? && s.row.status.Failed?
    ensures var m := Fold(s, t, plan);
      (ForGood(m.1) <==> Calls(1, plan)) && m.0.row.status.Failed?
  {
    CallsMore(0, plan);
    if plan.Then? {
      var n := Step(s, t, plan.c);
      Fold1(s, t, plan.c, plan.rest, n);
    }
  }

  /** Only markFailed's status write makes a row FAILED. */
  lemma StepFailed(s: Store, t: Thread, c: Choice, failed: nat, dlq: seq<DeadLetter>)
    requires Core(s, t) && FlowThread(s, t, failed, dlq) && !s.row.status.Failed?
    ensures var n := Step(s, t, c); n.s.row.status.Failed? ==> n.t.MarkEvent?
  {
  }

  /** A job already FAILED stays so until the attempt's second call, its first status write, returns. */
  lemma FailedAtFirst(s: Store, plan: Plan)
    requires CoreInv(s) && s.row.status.Failed?
    ensures var m := Fold(s, Read(s.row.owner), plan); var w := AtMark(s, Read(s.row.owner), plan);
      && (ForGood(m.1) <==> w.Some? && Calls(1, w.value))
      && (m.0.row.status.Failed? && !ForGood(m.1) <==> !Calls(2, plan) || (w.Some? && !Calls(1, w.value)))
  {
    CallsMore(1, plan);
    if plan.Then? {
      var user := s.row.owner;
      var n := Step(s, Read(user), plan.c);
      Fold1(s, Read(user), plan.c, plan.rest, n);
      assert AtMark(s, Read(user), plan) == AtMark(n.s, n.t, plan.rest);
      if !plan.c.Throw? {
        ReadCore(s, Read(user), plan.c);
        FailedAtEntry(n.s, n.t, plan.rest);
      }
    }
  }

  lemma FailedAtEntry(s: Store, t: Thread, plan: Plan)
    requires Core(s, t) && s.row.status.Failed? && t.Enter?
    ensures var m := Fold(s, t, plan); var w := AtMark(s, t, plan);
      && (ForGood(m.1) <==> w.Some? && Calls(1, w.value))
      && (m.0.row.status.Failed? && !ForGood(m.1) <==> !Calls(1, plan) || (w.Some? && !Calls(1, w.value)))
  {
    CallsMore(0, plan);
    if plan.Then? {
      var n := Step(s, t, plan.c);
      Fold1(s, t, plan.c, plan.rest, n);
      assert AtMark(s, t, plan) == AtMark(n.s, n.t, plan.rest);
      if !plan.c.Throw? {
        StageCore(s, t, plan.c);
        FoldMark(n.s, n.t, plan.rest, FailedEvents(n.s.events), n.s.dlq);
      }
    }
  }

  /**
   The attempt marks the job exactly when it reaches markFailed's event write and that write returns.
   It leaves the job FAILED without having marked it exactly when that write throws or the worker dies
   at it, or when the job was FAILED before and the attempt did not get past its first status write.
   */
  lemma MarkedExactlyWhen(s: Store, d: Delivery)
    requires CoreInv(s) && Live(s)
    ensures var w := MarkOf(s, d);
      && (Marked(s, d) <==> w.Some? && Calls(1, w.value))
      && (Ran(s, d).0.row.status.Failed? && !Marked(s, d)
          <==> (s.row.status.Failed? && !Calls(2, d.plan)) || (w.Some? && !Calls(1, w.value)))
  {
    var a := Activate(s);
    EntryCore(s, a.entry);
    if s.row.status.Failed? {
      FailedAtFirst(a, d.plan);
    } else {
      FoldMark(a, Read(s.entry.value.user), d.plan, FailedEvents(s.events), s.dlq);
    }
  }

  // ---- events against dead letters ----

  /** The places where a worker's death or a failing call takes an event and its dead letter apart. */
  datatype Window =
    | Unrecorded    // the attempt marked the job, and the queue never recorded the failure
    | HandlerCut    // the event is written, and the handler does not get its dead letter through
    | LetterAlone   // the handler finds the job FAILED without an event of this delivery

  predicate Falls(s: Store, d: Delivery, w: Window)
    requires s.entry.Some?
  {
    match w
    case Unrecorded => Marked(s, d) && !d.recorded
    case HandlerCut =>
      EndOf(s, d).Perished? &&
      if Marked(s, d) then !Calls(2, d.handler)
      else !Ran(s, d).0.row.status.Failed? && Calls(3, d.handler) && !Calls(4, d.handler)
    case LetterAlone =>
      EndOf(s, d).Perished? && !Marked(s, d) && Ran(s, d).0.row.status.Failed? && Calls(2, d.handler)
  }

  function One(b: bool): nat { if b then 1 else 0 }

  /** One delivery adds an event and no dead letter, or a dead letter and no event, exactly in these windows. */
  lemma DeliveryBalance(s: Store, d: Delivery)
    requires CoreInv(s) && Live(s)
    ensures One(AddsEvent(s, d)) + One(Falls(s, d, LetterAlone))
         == One(AddsLetter(s, d)) + One(Falls(s, d, Unrecorded)) + One(Falls(s, d, HandlerCut))
    ensures (AddsEvent(s, d) <==> AddsLetter(s, d)) <==> (forall w :: !Falls(s, d, w))
  {
    AttemptFlow(s, d);
    FourCalls(d.handler);
    assert !Falls(s, d, Unrecorded) && !Falls(s, d, HandlerCut) && !Falls(s, d, LetterAlone) <==> forall w :: !Falls(s, d, w);
  }

  /** How many deliveries of a life fall into this window. */
  function Count(s: Store, ops: seq<Op>, attempts: nat, w: Window): nat
    decreases |ops|
  {
    if ops == [] then 0
    else One(ops[0].Attempt? && Live(s) && Falls(s, ops[0].d, w)) + Count(Do(s, ops[0], attempts), ops[1..], attempts, w)
  }

  lemma OpBalance(s: Store, op: Op, attempts: nat)
    requires CoreInv(s)
    ensures var r := Do(s, op, attempts); var live := op.Attempt? && Live(s);
      FailedEvents(r.events) + |s.dlq| + One(live && Falls(s, op.d, LetterAlone))
      == FailedEvents(s.events) + |r.dlq| + One(live && Falls(s, op.d, Unrecorded)) + One(live && Falls(s, op.d, HandlerCut))
  {
    if op.Attempt? && Live(s) {
      DeliveryOutcome(s, op.d);
      DeliveryBalance(s, op.d);
    }
  }

  lemma {:induction false} LifeBalance(s: Store, ops: seq<Op>, attempts: nat)
    requires CoreInv(s)
    ensures var r := Life(s, ops, attempts);
      FailedEvents(r.events) + |s.dlq| + Count(s, ops, attempts, LetterAlone)
      == FailedEvents(s.events) + |r.dlq| + Count(s, ops, attempts, Unrecorded) + Count(s, ops, attempts, HandlerCut)
    decreases |ops|
  {
    if ops != [] {
      DoCore(s, ops[0], attempts);
      OpBalance(s, ops[0], attempts);
      LifeBalance(Do(s, ops[0], attempts), ops[1..], attempts);
    }
  }

  /**
   Over every life of a job: the pipeline/failed events exceed the dead letters by exactly the
   deliveries that died unrecorded after marking or whose handler lost its dead letter, less those
   whose handler found FAILED without an event.
   */
  lemma EventsAgainstLetters(id: JobId, owner: UserId, labelText: string, content: nat, ops: seq<Op>, attempts: nat)
    ensures var draft := Uploaded(id, owner, labelText, content); var s := Life(draft, ops, attempts);
      FailedEvents(s.events) + Count(draft, ops, attempts, LetterAlone)
      == |s.dlq| + Count(draft, ops, attempts, Unrecorded) + Count(draft, ops, attempts, HandlerCut)
  {
    UploadedCore(id, owner, labelText, content);
    LifeBalance(Uploaded(id, owner, labelText, content), ops, attempts);
  }

  // ---- one entry from now to its end ----

  /** The operations up to the one that ends the live entry; requests may come in between. */
  function EntryLife(s: Store, ops: seq<Op>, attempts: nat): Store
    decreases |ops|
  {
    if ops == [] || !Live(s) then s else EntryLife(Do(s, ops[0], attempts), ops[1..], attempts)
  }

  /** The deliveries of the entry whose attempt ended and was recorded. */
  function Completed(s: Store, ops: seq<Op>, attempts: nat): nat
    decreases |ops|
  {
    if ops == [] || !Live(s) then 0
    else One(ops[0].Attempt? && !EndOf(s, ops[0].d).Lost?) + Completed(Do(s, ops[0], attempts), ops[1..], attempts)
  }

  /** The deliveries of the entry that marked the job, and whose end the queue never recorded. */
  function LostMarks(s: Store, ops: seq<Op>, attempts: nat): nat
    decreases |ops|
  {
    if ops == [] || !Live(s) then 0
    else One(ops[0].Attempt? && Falls(s, ops[0].d, Unrecorded)) + LostMarks(Do(s, ops[0], attempts), ops[1..], attempts)
  }

  /** The delivery that ended the entry, and the store it was handed. */
  function Last(s: Store, ops: seq<Op>, attempts: nat): Option<(Store, Delivery)>
    decreases |ops|
  {
    if ops == [] || !Live(s) then None
    else
      var r := Do(s, ops[0], attempts);
      if !Live(r) && ops[0].Attempt? then Some((s, ops[0].d)) else Last(r, ops[1..], attempts)
  }

  /** Requests leave a live entry, the events and the dead letters alone. */
  lemma AskWhileLive(s: Store, user: UserId, calls: nat, attempts: nat)
    requires Live(s)
    ensures var r := AskUpTo(s, user, calls, attempts); r.entry == s.entry && r.events == s.events && r.dlq == s.dlq
  {
  }

  /** The entry has ended: in success, or for good with at most one dead letter more. */
  ghost predicate Over(s: Store, r: Store) {
    && r.entry.Some?
    && ((r.entry.value.state.Done? && r.row.status.Ready? && r.dlq == s.dlq)
        || (r.entry.value.state.Dead? && s.dlq <= r.dlq && |r.dlq| <= |s.dlq| + 1))
  }

  /** The entry r of a series of operations begun at s, n deliveries of which completed. */
  ghost predicate Counts(s: Store, r: Store, n: nat)
    requires s.entry.Some?
  {
    var e := s.entry.value;
    if Live(r) then r.entry == Some(e.(made := e.made + n)) && r.dlq == s.dlq && (n > 0 ==> e.made + n < e.attempts)
    else Over(s, r) && 0 < n && (e.made < e.attempts ==> e.made + n <= e.attempts)
  }

  lemma OneCounts(s: Store, op: Op, attempts: nat)
    requires CoreInv(s) && Live(s)
    ensures Counts(s, Do(s, op, attempts), One(op.Attempt? && !EndOf(s, op.d).Lost?))
  {
    match op
    case Ask(user, calls) => AskWhileLive(s, user, calls, attempts);
    case Attempt(d) => DeliveryOutcome(s, d);
  }

  lemma CountsAdd(s: Store, r: Store, r': Store, m: nat, n: nat)
    requires Live(s) && Live(r) && Counts(s, r, m) && Counts(r, r', n)
    ensures Counts(s, r', m + n)
  {
  }

  /**
   However many deliveries are cut off in between, an entry ends as soon as it has completed as many
   as it has attempts left; still live, it has used up exactly the completed ones and has one left.
   */
  lemma {:induction false} EndsWithinAttempts(s: Store, ops: seq<Op>, attempts: nat)
    requires CoreInv(s) && Live(s)
    ensures var r := EntryLife(s, ops, attempts); var e := s.entry.value; var n := Completed(s, ops, attempts);
      && Counts(s, r, n)
      && (n > 0 && e.made + n >= e.attempts ==> !Live(r))
    decreases |ops|
  {
    if ops != [] {
      OneCounts(s, ops[0], attempts);
      DoCore(s, ops[0], attempts);
      var r := Do(s, ops[0], attempts);
      if Live(r) {
        EndsWithinAttempts(r, ops[1..], attempts);
        CountsAdd(s, r, EntryLife(r, ops[1..], attempts), One(ops[0].Attempt? && !EndOf(s, ops[0].d).Lost?),
                  Completed(r, ops[1..], attempts));
      }
    }
  }

  ghost predicate DeadEntry(s: Store) {
    s.entry.Some? && s.entry.value.state.Dead?
  }

  /** What a series of operations adds, in terms of the delivery that ended the entry for good, if one did. */
  ghost predicate Totals(s: Store, r: Store, lost: nat, last: Option<(Store, Delivery)>) {
    if DeadEntry(r) then
      && last.Some? && Live(last.value.0) && EndOf(last.value.0, last.value.1).Perished?
      && FailedEvents(r.events) == FailedEvents(s.events) + lost + One(AddsEvent(last.value.0, last.value.1))
      && r.dlq == s.dlq + Letters(last.value.0, last.value.1)
    else FailedEvents(r.events) == FailedEvents(s.events) + lost && r.dlq == s.dlq
  }

  lemma OneTotals(s: Store, op: Op, attempts: nat)
    requires CoreInv(s) && Live(s)
    ensures var r := Do(s, op, attempts);
      Totals(s, r, One(op.Attempt? && Falls(s, op.d, Unrecorded)),
             if !Live(r) && op.Attempt? then Some((s, op.d)) else None)
  {
    match op
    case Ask(user, calls) => AskWhileLive(s, user, calls, attempts);
    case Attempt(d) => DeliveryOutcome(s, d);
  }

  lemma TotalsAdd(s: Store, r: Store, r': Store, lost: nat, more: nat, last: Option<(Store, Delivery)>)
    requires Live(r) && Totals(s, r, lost, None) && Totals(r, r', more, last)
    ensures Totals(s, r', lost + more, last)
  {
  }

  /** Over an entry: every unrecorded mark adds an event, and the delivery that ends it for good its own event and letter. */
  lemma {:induction false} EntryTotals(s: Store, ops: seq<Op>, attempts: nat)
    requires CoreInv(s) && Live(s)
    ensures Totals(s, EntryLife(s, ops, attempts), LostMarks(s, ops, attempts), Last(s, ops, attempts))
    decreases |ops|
  {
    if ops != [] {
      OneTotals(s, ops[0], attempts);
      DoCore(s, ops[0], attempts);
      var r := Do(s, ops[0], attempts);
      if Live(r) {
        EntryTotals(r, ops[1..], attempts);
        TotalsAdd(s, r, EntryLife(r, ops[1..], attempts), One(ops[0].Attempt? && Falls(s, ops[0].d, Unrecorded)),
                  LostMarks(r, ops[1..], attempts), Last(r, ops[1..], attempts));
      } else {
        OnlyDeliveriesEnd(s, ops[0], attempts);
      }
    }
  }

  lemma OnlyDeliveriesEnd(s: Store, op: Op, attempts: nat)
    requires Live(s) && !Live(Do(s, op, attempts))
    ensures op.Attempt?
  {
    if op.Ask? { AskWhileLive(s, op.user, op.calls, attempts); }
  }

  /**
   One event and one dead letter for a failed entry, exactly when: the last delivery's handler gets its
   dead letter through, and either no earlier delivery marked unrecorded and the last one marked or found
   the job not FAILED, or one earlier delivery did and the last one found FAILED without marking. In
   every other case an entry that ends for good has too few or too many of one of them.
   */
  lemma OneEventOneLetter(s: Store, ops: seq<Op>, attempts: nat)
    requires CoreInv(s) && Live(s) && DeadEntry(EntryLife(s, ops, attempts))
    ensures Last(s, ops, attempts).Some?
    ensures var r := EntryLife(s, ops, attempts); var (z, d) := Last(s, ops, attempts).value;
      && z.entry.Some?
      && var m := Ran(z, d).0;
         (FailedEvents(r.events) == FailedEvents(s.events) + 1 && |r.dlq| == |s.dlq| + 1)
         <==> (Calls(LetterCalls(m), d.handler)
               && LostMarks(s, ops, attempts) == if m.row.status.Failed? && !Marked(z, d) then 1 else 0)
  {
    EntryTotals(s, ops, attempts);
    var (z, d) := Last(s, ops, attempts).value;
    FourCalls(d.handler);
  }

  /** An entry that has not ended for good has no dead letter, and an event only from unrecorded marks. */
  lemma NoFailureNoLetter(s: Store, ops: seq<Op>, attempts: nat)
    requires CoreInv(s) && Live(s) && !DeadEntry(EntryLife(s, ops, attempts))
    ensures var r := EntryLife(s, ops, attempts);
      r.dlq == s.dlq && FailedEvents(r.events) == FailedEvents(s.events) + LostMarks(s, ops, attempts)
  {
    EntryTotals(s, ops, attempts);
  }

  // ---- an in-flight status without a live entry ----

  predicate Stranded(s: Store) {
    InFlight(s.row.status) && !Live(s)
  }

  /**
   What strands a job: a request cut off after its QUEUED write and before its enqueue adds the entry,
   or a failure for good whose handler does not get past rawById and setStatus.
   */
  predicate Strands(s: Store, op: Op) {
    match op
    case Ask(user, calls) => Asks(s, user) && !Live(s) && 3 <= calls < (if s.entry.None? then 5 else 6)
    case Attempt(d) =>
      Live(s) && EndOf(s, d).Perished? && InFlight(Ran(s, d).0.row.status) && !Calls(2, d.handler)
  }

  ghost predicate EverStrands(s: Store, ops: seq<Op>, attempts: nat)
    decreases |ops|
  {
    ops != [] && (Strands(s, ops[0]) || EverStrands(Do(s, ops[0], attempts), ops[1..], attempts))
  }

  /** The entry between two operations. */
  ghost predicate EntryInv(s: Store, attempts: nat) {
    s.entry.Some? ==>
      match s.entry.value.state
      case Waiting => s.entry.value.attempts == attempts && (attempts > 0 ==> s.entry.value.made < attempts)
      case Done => s.row.status.Ready?
      case Dead => true
      case Active => false
  }

  lemma AskStrands(s: Store, user: UserId, calls: nat, attempts: nat)
    requires CoreInv(s) && EntryInv(s, attempts)
    ensures var r := AskUpTo(s, user, calls, attempts);
      EntryInv(r, attempts) && (Stranded(r) <==> Stranded(s) || Strands(s, Ask(user, calls)))
  {
  }

  lemma AttemptStrands(s: Store, d: Delivery, attempts: nat)
    requires CoreInv(s) && EntryInv(s, attempts) && Live(s)
    ensures var r := AttemptOp(s, d); EntryInv(r, attempts) && (Stranded(r) <==> Strands(s, Attempt(d)))
  {
    DeliveryOutcome(s, d);
  }

  lemma OpStrands(s: Store, op: Op, attempts: nat)
    requires CoreInv(s) && EntryInv(s, attempts)
    ensures EntryInv(Do(s, op, attempts), attempts)
    ensures Stranded(Do(s, op, attempts)) <==> Stranded(s) || Strands(s, op)
  {
    match op
    case Ask(user, calls) => AskStrands(s, user, calls, attempts);
    case Attempt(d) => if Live(s) { AttemptStrands(s, d, attempts); }
  }

  /** Nothing moves a stranded job: requests leave an in-flight job alone, and there is nothing to deliver. */
  lemma {:induction false} StrandedForGood(s: Store, ops: seq<Op>, attempts: nat)
    requires Stranded(s)
    ensures Life(s, ops, attempts) == s
    decreases |ops|
  {
    if ops != [] {
      assert Do(s, ops[0], attempts) == s;
      StrandedForGood(s, ops[1..], attempts);
    }
  }

  lemma {:induction false} LifeStrands(s: Store, ops: seq<Op>, attempts: nat)
    requires CoreInv(s) && EntryInv(s, attempts)
    ensures EntryInv(Life(s, ops, attempts), attempts)
    ensures Stranded(Life(s, ops, attempts)) <==> Stranded(s) || EverStrands(s, ops, attempts)
    decreases |ops|
  {
    if ops != [] {
      DoCore(s, ops[0], attempts);
      OpStrands(s, ops[0], attempts);
      LifeStrands(Do(s, ops[0], attempts), ops[1..], attempts);
    }
  }

  /**
   Over every life of a job, whatever fails: an in-flight status has a live queue entry with an attempt
   left, exactly unless some operation stranded the job; and then nothing ever moves it again.
   */
  lemma InFlightMeansLive(id: JobId, owner: UserId, labelText: string, content: nat,
                          ops: seq<Op>, more: seq<Op>, attempts: nat)
    requires attempts > 0
    ensures var draft := Uploaded(id, owner, labelText, content); var s := Life(draft, ops, attempts);
      && (InFlight(s.row.status) && !Live(s) <==> EverStrands(draft, ops, attempts))
      && (Live(s) ==> s.entry.value.made < attempts)
      && (EverStrands(draft, ops, attempts) ==> Life(s, more, attempts) == s)
  {
    var draft := Uploaded(id, owner, labelText, content);
    UploadedCore(id, owner, labelText, content);
    LifeStrands(draft, ops, attempts);
    if Stranded(Life(draft, ops, attempts)) {
      StrandedForGood(Life(draft, ops, attempts), more, attempts);
    }
  }

  // ---- durable progress ----

  /** none < transcript < report */
  function Work(s: Store): nat {
    if Project(s.tree) != [] then 2 else if s.row.transcript.Some? then 1 else 0
  }

  /** none < transcript < report < READY */
  function Progress(s: Store): nat {
    if s.row.status.Ready? then 3 else Work(s)
  }

  lemma StepWorks(s: Store, t: Thread, c: Choice)
    requires Core(s, t)
    ensures Work(s) <= Work(Step(s, t, c).s)
  {
    assert |Project(s.tree)| == |s.tree|;
    if t.Write? { WriteWorks(s, t, c); }
  }

  lemma WriteWorks(s: Store, t: Thread, c: Choice)
    requires Core(s, t) && t.Write?
    ensures Work(s) <= Work(Step(s, t, c).s)
  {
    assert |Project(s.tree)| == |s.tree|;
  }

  lemma {:induction false} FoldWorks(s: Store, t: Thread, plan: Plan)
    requires Core(s, t)
    ensures Work(s) <= Work(Fold(s, t, plan).0)
    decreases plan
  {
    if plan.Then? && !Ended(t) {
      StepWorks(s, t, plan.c);
      StepCore(s, t, plan.c);
      var n := Step(s, t, plan.c);
      FoldWorks(n.s, n.t, plan.rest);
    }
  }

  /** The queue's record and the handler touch neither transcript nor report. */
  lemma AfterWorks(s: Store, d: Delivery)
    requires CoreInv(s) && Live(s)
    ensures var r := AttemptOp(s, d); r.tree == Ran(s, d).0.tree && r.row.transcript == Ran(s, d).0.row.transcript
  {
    if EndOf(s, d).Perished? {
      Failing(s, d);
      var m := Ran(s, d);
      var e := s.entry.value.(made := s.entry.value.made + 1, state := Dead);
      HandlerRuns(m.0.(entry := Some(e)), m.1.msg, e.user, e.made, d.handler);
    } else {
      Unfailed(s, d);
    }
  }

  lemma DoWorks(s: Store, op: Op, attempts: nat)
    requires CoreInv(s)
    ensures Work(s) <= Work(Do(s, op, attempts))
  {
    if op.Attempt? && Live(s) {
      EntryCore(s, Activate(s).entry);
      FoldWorks(Activate(s), Read(s.entry.value.user), op.d.plan);
      AfterWorks(s, op.d);
    }
  }

  /** The first answer to findById is an error. */
  predicate ReadThrows(plan: Plan) {
    plan.Then? && plan.c.Throw?
  }

  /** The one way an operation takes progress back. */
  predicate Loses(s: Store, op: Op) {
    && op.Attempt? && Live(s) && s.row.status.Ready?
    && ReadThrows(op.d.plan) && op.d.recorded && s.entry.value.made + 1 >= s.entry.value.attempts
    && Calls(2, op.d.handler)
  }

  lemma ReadyAttempt(s: Store, plan: Plan)
    requires CoreInv(s) && s.row.status.Ready?
    ensures var m := Fold(s, Read(s.row.owner), plan);
      m.0 == s && (m.1.Thrown? <==> ReadThrows(plan)) && (m.1.Thrown? ==> !m.1.unrecoverable)
  {
    if plan.Then? {
      var n := Step(s, Read(s.row.owner), plan.c);
      Fold1(s, Read(s.row.owner), plan.c, plan.rest, n);
    }
  }

  lemma ReadyDelivered(s: Store, d: Delivery)
    requires CoreInv(s) && Live(s) && s.row.status.Ready?
    ensures AttemptOp(s, d).row.status.Ready? <==> !Loses(s, Attempt(d))
  {
    EntryCore(s, Activate(s).entry);
    ReadyAttempt(Activate(s), d.plan);
    DeliveryOutcome(s, d);
  }

  lemma OpProgress(s: Store, op: Op, attempts: nat)
    requires CoreInv(s)
    ensures Progress(s) <= Progress(Do(s, op, attempts)) <==> !Loses(s, op)
  {
    if s.row.status.Ready? {
      if op.Attempt? && Live(s) { ReadyDelivered(s, op.d); }
    } else {
      DoWorks(s, op, attempts);
    }
  }

  /** No operation of this life takes progress back. */
  ghost predicate NeverBack(s: Store, ops: seq<Op>, attempts: nat)
    decreases |ops|
  {
    ops != [] ==>
      var s' := Do(s, ops[0], attempts);
      Progress(s) <= Progress(s') && NeverBack(s', ops[1..], attempts)
  }

  ghost predicate NeverLoses(s: Store, ops: seq<Op>, attempts: nat)
    decreases |ops|
  {
    ops != [] ==> !Loses(s, ops[0]) && NeverLoses(Do(s, ops[0], attempts), ops[1..], attempts)
  }

  /**
   Over every life, whatever fails: stored transcript and report are never lost, and no operation takes
   durable progress back, except exactly a recorded last attempt on a READY job whose very first read
   fails and whose handler gets to its status write: then the job becomes FAILED.
   */
  lemma {:induction false} ProgressKept(s: Store, ops: seq<Op>, attempts: nat)
    requires CoreInv(s)
    ensures Work(s) <= Work(Life(s, ops, attempts))
    ensures NeverBack(s, ops, attempts) <==> NeverLoses(s, ops, attempts)
    ensures NeverLoses(s, ops, attempts) ==> Progress(s) <= Progress(Life(s, ops, attempts))
    decreases |ops|
  {
    if ops != [] {
      DoCore(s, ops[0], attempts);
      DoWorks(s, ops[0], attempts);
      OpProgress(s, ops[0], attempts);
      ProgressKept(Do(s, ops[0], attempts), ops[1..], attempts);
    }
  }

  /** A document the attempt itself published, or found published, is lost exactly in a failure for good. */
  lemma PublishedThenLost(s: Store, d: Delivery)
    requires CoreInv(s) && Live(s) && Ran(s, d).0.row.status.Ready?
    ensures AttemptOp(s, d).row.status.Ready? <==> !(EndOf(s, d).Perished? && Calls(2, d.handler))
  {
    DeliveryOutcome(s, d);
  }
}
