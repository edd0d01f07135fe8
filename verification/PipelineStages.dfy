/**
 What an attempt shows and logs: the guards before it touches anything, the status of the stage it is in,
 the events of its stages in order, and the error it ends with.
 */
module PipelineStages {
  import opened Basics
  import opened Text
  import opened ReportTree
  import opened Pipeline
  import opened PipelineLife
  import opened PipelineOutcome

  // ---- the guards ----

  /**
   Whatever its calls answer, an attempt changes nothing when its job is deleted, somebody else's, READY or
   without a recording: it is over at its first read. A deleted job and a READY one of its own owner are
   no-ops; a payload that names another user is rejected for good, READY or not, and so is a job without a
   recording.
   */
  lemma GuardsHold(s: Store, user: UserId, plan: Plan)
    requires s.row.deleted || s.row.owner != user || s.row.status.Ready? || s.row.audioKey.None?
    ensures var m := Fold(s, Read(user), plan);
      && m.0 == s
      && (plan.Crash? ==> m.1 == Read(user))
      && (plan.Then? && plan.c.Throw? ==> m.1 == Thrown(plan.c.msg, false))
      && (plan.Then? && !plan.c.Throw? ==>
            if s.row.deleted then m.1.Finished?
            else if s.row.owner != user then m.1 == Thrown(OWNER_MISMATCH, true)
            else if s.row.status.Ready? then m.1.Finished?
            else m.1 == Thrown(NO_AUDIO_KEY, true))
  {
    if plan.Then? {
      Fold1(s, Read(user), plan.c, plan.rest, Step(s, Read(user), plan.c));
    }
  }

  /**
   Where an attempt starts, past the guards: at the first stage whose work is not in the row yet. A blank
   transcript is no transcript, and a transcript without a report is compiled again.
   */
  lemma FirstStage(s: Store, user: UserId, c: Choice)
    requires !s.row.deleted && s.row.owner == user && !s.row.status.Ready? && s.row.audioKey.Some? && !c.Throw?
    ensures var t := Step(s, Read(user), c).t; var heard := s.row.transcript.GetOr("");
      && t.Enter? && t.l.user == user && t.l.labelText == s.row.labelText && t.l.audioKey == s.row.audioKey.value
      && (t.stage.Transcribe? <==> Trim(heard) == "")
      && (t.stage.Compile? <==> Trim(heard) != "" && Project(s.tree) == [])
      && (!t.stage.Transcribe? ==> t.l.transcript == heard)
      && (t.stage.Render? ==> t.l.sections == Project(s.tree))
  {
  }

  // ---- the status of a stage ----

  /** While a stage runs the job shows it. */
  predicate Shown(s: Store, t: Thread) {
    match t
    case Begin(stage, _) => Shows(s, stage)
    case Work(stage, _, late) => Shows(s, stage) && !late
    case Write(stage, _, late) => Shows(s, stage) && !late
    case Publish(_, late) => s.row.status.Rendering? && !late
    case Complete(stage, _) => if stage.Render? then s.row.status.Ready? else Shows(s, stage)
    case _ => true
  }

  predicate Shows(s: Store, stage: Stage) {
    match stage
    case Transcribe => s.row.status.Transcribing?
    case Compile => s.row.status.Compiling?
    case Render => s.row.status.Rendering?
  }

  lemma BodyShown(s: Store, t: Thread, c: Choice)
    requires InBody(t) && Shown(s, t) && (t.Work? || t.Write? ==> !t.late)
    ensures Shown(StepBody(s, t, c).s, StepBody(s, t, c).t)
  {
  }

  lemma StepShown(s: Store, t: Thread, c: Choice)
    requires Shown(s, t)
    ensures var n := Step(s, t, c); Shown(n.s, n.t)
  {
    if InBody(t) { BodyShown(s, t, c); }
  }

  lemma {:induction false} FoldShown(s: Store, t: Thread, plan: Plan)
    requires Shown(s, t)
    ensures var m := Fold(s, t, plan); Shown(m.0, m.1)
    decreases plan
  {
    if plan.Then? && !Ended(t) {
      StepShown(s, t, plan.c);
      var n := Step(s, t, plan.c);
      FoldShown(n.s, n.t, plan.rest);
    }
  }

  /** A worker that dies inside a stage leaves the job showing that stage, and READY once it has published. */
  lemma StageIsShown(s: Store, user: UserId, plan: Plan)
    ensures var m := Fold(s, Read(user), plan); Shown(m.0, m.1)
  {
    FoldShown(s, Read(user), plan);
  }

  // ---- the event log ----

  function Place(stage: Stage): nat {
    match stage
    case Transcribe => 1
    case Compile => 2
    case Render => 3
  }

  /** Stages later than `done`, in order, each started and then completed, or failed and nothing more; cut off anywhere. */
  predicate StageLog(log: seq<Event>, done: nat)
    decreases |log|
  {
    log == [] ||
      (log[0].stage.Of? && log[0].status.Started? && log[0].message.None? && Place(log[0].stage.stage) > done
       && StartedLog(log[1..], log[0].stage.stage))
  }

  predicate StartedLog(log: seq<Event>, stage: Stage)
    decreases |log|
  {
    log == [] || (log[0] == Event(Of(stage), Completed, None) && StageLog(log[1..], Place(stage)))
    || (log[0].stage == Of(stage) && log[0].status.Errored? && log[0].message.Some? && MarkLog(log[1..], log[0].message.value))
  }

  /** markFailed's event, with the message of the stage's. */
  predicate MarkLog(log: seq<Event>, msg: string) {
    log == [] || log == [Event(Whole, Errored, Some(msg))]
  }

  /** What a thread can still log. */
  predicate CanLog(t: Thread, log: seq<Event>) {
    match t
    case Read(_) => StageLog(log, 0)
    case Enter(stage, _) => StageLog(log, Place(stage) - 1)
    case Begin(stage, _) => log == [] || (log[0] == Event(Of(stage), Started, None) && StartedLog(log[1..], stage))
    case Work(stage, _, _) => StartedLog(log, stage)
    case Write(stage, _, _) => StartedLog(log, stage)
    case Publish(_, _) => StartedLog(log, Render)
    case Complete(stage, _) => StartedLog(log, stage)
    case Fault(stage, err) =>
      log == [] || (log[0] == Event(Of(stage), Errored, Some(Cut(err.msg))) && MarkLog(log[1..], Cut(err.msg)))
    case MarkRead(msg, _) => MarkLog(log, Cut(msg))
    case MarkSet(msg, _) => MarkLog(log, Cut(msg))
    case MarkEvent(msg, _) => MarkLog(log, Cut(msg))
    case _ => log == []
  }

  /** Threads of an attempt itself. */
  predicate OfAttempt(t: Thread) {
    && !t.Park? && !t.Gone?
    && (t.Work? || t.Write? || t.Publish? ==> !t.late)
    && (t.MarkRead? || t.MarkSet? || t.MarkEvent? ==> t.from.ByAttempt?)
  }

  /** The event an awaited call writes, if any. */
  function Logged(t: Thread, c: Choice): seq<Event> {
    if c.Throw? then []
    else
      match t
      case Begin(stage, _) => [Event(Of(stage), Started, None)]
      case Complete(stage, _) => [Event(Of(stage), Completed, None)]
      case Fault(stage, err) => [Event(Of(stage), Errored, Some(Cut(err.msg)))]
      case MarkEvent(msg, _) => [Event(Whole, Errored, Some(Cut(msg)))]
      case _ => []
  }

  lemma StepLogs(s: Store, t: Thread, c: Choice)
    ensures Step(s, t, c).s.events == s.events + Logged(t, c)
  {
    if InBody(t) { assert StepBody(s, t, c).s.events == s.events; }
  }

  lemma StepOfAttempt(s: Store, t: Thread, c: Choice)
    requires OfAttempt(t) && !Ended(t)
    ensures OfAttempt(Step(s, t, c).t)
  {
  }

  lemma LaterLog(log: seq<Event>, done: nat, before: nat)
    requires StageLog(log, done) && before <= done
    ensures StageLog(log, before)
  {
  }

  lemma FailedBodyLog(stage: Stage, err: Err, log: seq<Event>)
    requires CanLog(Fault(stage, err), log)
    ensures StartedLog(log, stage)
  {
  }

  lemma BodyLog(s: Store, t: Thread, c: Choice, log: seq<Event>)
    requires InBody(t) && !t.late && CanLog(StepBody(s, t, c).t, log)
    ensures CanLog(t, log)
  {
    var t' := StepBody(s, t, c).t;
    if t'.Fault? { FailedBodyLog(t'.stage, t'.err, log); }
  }

  lemma EntryLog(s: Store, t: Thread, c: Choice, log: seq<Event>)
    requires (t.Read? || t.Enter?) && CanLog(Step(s, t, c).t, log)
    ensures CanLog(t, log)
  {
    var t' := Step(s, t, c).t;
    if t'.Enter? { LaterLog(log, Place(t'.stage) - 1, 0); }
  }

  lemma CompleteLog(s: Store, t: Thread, c: Choice, log: seq<Event>)
    requires t.Complete? && CanLog(Step(s, t, c).t, log)
    ensures CanLog(t, Logged(t, c) + log)
  {
    var t' := Step(s, t, c).t;
    if c.Throw? {
      assert [] + log == log;
      FailedBodyLog(t'.stage, t'.err, log);
    } else {
      assert (Logged(t, c) + log)[1..] == log;
      if t'.Enter? { LaterLog(log, Place(t'.stage) - 1, Place(t.stage)); }
    }
  }

  lemma OtherLog(s: Store, t: Thread, c: Choice, log: seq<Event>)
    requires (t.Begin? || t.Fault? || t.MarkRead? || t.MarkSet? || t.MarkEvent?) && OfAttempt(t) && CanLog(Step(s, t, c).t, log)
    ensures CanLog(t, Logged(t, c) + log)
  {
    var whole := Logged(t, c) + log;
    if c.Throw? {
      assert whole == log;
    } else if Logged(t, c) != [] {
      assert whole[1..] == log;
    } else {
      assert whole == log;
    }
  }

  lemma NextLog(s: Store, t: Thread, c: Choice, log: seq<Event>)
    requires OfAttempt(t) && !Ended(t) && CanLog(Step(s, t, c).t, log)
    ensures CanLog(t, Logged(t, c) + log)
  {
    if InBody(t) {
      BodyLog(s, t, c, log);
      assert [] + log == log;
    } else if t.Read? || t.Enter? {
      EntryLog(s, t, c, log);
      assert [] + log == log;
    } else if t.Complete? {
      CompleteLog(s, t, c, log);
    } else {
      OtherLog(s, t, c, log);
    }
  }

  lemma {:induction false} FoldLog(s: Store, t: Thread, plan: Plan) returns (log: seq<Event>)
    requires OfAttempt(t)
    ensures Fold(s, t, plan).0.events == s.events + log && CanLog(t, log)
    decreases plan
  {
    if plan.Then? && !Ended(t) {
      var n := Step(s, t, plan.c);
      Fold1(s, t, plan.c, plan.rest, n);
      StepOfAttempt(s, t, plan.c);
      StepLogs(s, t, plan.c);
      var rest := FoldLog(n.s, n.t, plan.rest);
      log := Logged(t, plan.c) + rest;
      NextLog(s, t, plan.c, rest);
    } else {
      log := [];
    }
  }

  /**
   The log of every attempt, whatever fails and wherever it is cut: earlier events stay, and after them come
   its stages in order, each with `started` and then `completed`, or with `failed` and its message as the
   last stage; only then, if at all, the pipeline's own failed event with the same message.
   */
  lemma AttemptLog(s: Store, user: UserId, plan: Plan) returns (log: seq<Event>)
    ensures Fold(s, Read(user), plan).0.events == s.events + log && StageLog(log, 0)
  {
    log := FoldLog(s, Read(user), plan);
  }

  // ---- the error of a failed attempt ----

  /** The messages of the calls that throw along a plan. */
  function Voices(plan: Plan): set<string> {
    if plan.Crash? then {} else (if plan.c.Throw? then {plan.c.msg} else {}) + Voices(plan.rest)
  }

  predicate Heard(t: Thread, msgs: set<string>) {
    && (t.Fault? && !t.err.permanent ==> t.err.msg in msgs)
    && (t.Thrown? && !t.unrecoverable ==> t.msg in msgs)
  }

  const OWN_ERRORS: set<string> := {NO_REPLY, STAGE_TIMEOUT}

  lemma StepHeard(s: Store, t: Thread, c: Choice, msgs: set<string>)
    requires Heard(t, msgs) && OWN_ERRORS <= msgs && (c.Throw? ==> c.msg in msgs)
    ensures Heard(Step(s, t, c).t, msgs)
  {
    assert NO_REPLY in OWN_ERRORS && STAGE_TIMEOUT in OWN_ERRORS;
  }

  lemma {:induction false} FoldHeard(s: Store, t: Thread, plan: Plan, msgs: set<string>)
    requires Heard(t, msgs) && OWN_ERRORS <= msgs && Voices(plan) <= msgs
    ensures Heard(Fold(s, t, plan).1, msgs)
    decreases plan
  {
    if plan.Then? && !Ended(t) {
      StepHeard(s, t, plan.c, msgs);
      var n := Step(s, t, plan.c);
      FoldHeard(n.s, n.t, plan.rest, msgs);
    }
  }

  /** A failure worth a retry is reported with the message of a call that threw, or of the timeout or missing reply. */
  lemma FailureIsReported(s: Store, user: UserId, plan: Plan)
    ensures var t := Fold(s, Read(user), plan).1;
      t.Thrown? && !t.unrecoverable ==> t.msg in Voices(plan) + OWN_ERRORS
  {
    FoldHeard(s, Read(user), plan, Voices(plan) + OWN_ERRORS);
  }
}
