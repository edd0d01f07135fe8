/**
 PipelineService and the processor's handleFailure in
 their own imperative form: awaited calls one after another with early returns and catch blocks,
 changing one job's rows, objects and queue entry in place. Each method is proved to be a run of
 the step machine, so the results about lives and interleavings are about this code.
 */
module PipelineWorker {
  import opened Basics
  import opened Text
  import opened ReportTree
  import opened Pipeline
  import Life = PipelineLife
  import ReportCompiler
  import Safety = PipelineSafety

  /** What an async function came to: a value, an exception, or the death of its process. */
  datatype Outcome<+T> = Returned(value: T) | Threw(err: Err) | Died {
    predicate IsFailure() { !Returned? }

    function PropagateFailure<U>(): Outcome<U>
      requires !Returned?
    {
      match this
      case Threw(err) => Threw(err)
      case Died => Died
    }

    function Extract(): T
      requires Returned?
    {
      value
    }
  }

  class Worker {
    var row: Row
    var tree: seq<SectionRec>
    var nextId: RowId
    var events: seq<Event>
    var objects: map<Key, Object>
    var entry: Option<Entry>
    var dlq: seq<DeadLetter>
    ghost var saved: seq<string>
    ghost var committed: seq<seq<SectionInput>>

    /** What the awaited calls still to come will answer. */
    var plan: Plan

    ghost function State(): Store
      reads this
    {
      Store(row, tree, nextId, events, objects, entry, dlq, saved, committed)
    }

    constructor (s: Store, plan: Plan)
      ensures State() == s && this.plan == plan
    {
      row, tree, nextId, events, objects, entry, dlq := s.row, s.tree, s.nextId, s.events, s.objects, s.entry, s.dlq;
      saved, committed := s.saved, s.committed;
      this.plan := plan;
    }

    // ---- one awaited call ----

    method Await() returns (r: Outcome<Choice>)
      modifies `plan
      ensures old(plan).Crash? ==> r.Died? && plan == old(plan)
      ensures old(plan).Then? ==> plan == old(plan).rest
      ensures old(plan).Then? ==> r == if old(plan).c.Throw? then Threw(Err(old(plan).c.msg, false)) else Returned(old(plan).c)
    {
      if plan.Crash? { return Died; }
      var c := plan.c;
      plan := plan.rest;
      r := if c.Throw? then Threw(Err(c.msg, false)) else Returned(c);
    }

    /** An awaited call inside a stage body: the stage timer may fire first. */
    method AwaitInBody() returns (r: Outcome<Choice>)
      modifies `plan
      ensures old(plan).Crash? ==> r.Died? && plan == old(plan)
      ensures old(plan).Then? ==> plan == old(plan).rest
      ensures old(plan).Then? ==> r == BodyAnswer(old(plan).c)
    {
      r := Await();
      if r.Returned? && r.value.Timeout? {
        r := Threw(Err(STAGE_TIMEOUT, false));
      }
    }

    // ---- repository writes ----

    method SetStatus(status: Status) returns (r: Outcome<()>)
      modifies `row, `plan
      ensures plan == if old(plan).Then? then old(plan).rest else old(plan)
      ensures r == Written(old(plan))
      ensures State() == if r.Returned? then Pipeline.SetStatus(old(State()), status) else old(State())
    {
      var _ :- Await();
      row := row.(status := status);
      return Returned(());
    }

    method AddEvent(stage: EventStage, status: EventStatus, message: Option<string>) returns (r: Outcome<()>)
      modifies `events, `plan
      ensures plan == if old(plan).Then? then old(plan).rest else old(plan)
      ensures r == Written(old(plan))
      ensures State() == if r.Returned? then Pipeline.AddEvent(old(State()), stage, status, message) else old(State())
    {
      var _ :- Await();
      events := events + [Event(stage, status, message)];
      return Returned(());
    }

    method ReplaceReport(sections: seq<SectionInput>) returns (r: Outcome<()>)
      modifies `tree, `nextId, `committed, `plan
      ensures plan == if old(plan).Then? then old(plan).rest else old(plan)
      ensures r == WrittenInBody(old(plan))
      ensures State() == if r.Returned? then Pipeline.ReplaceReport(old(State()), sections) else old(State())
    {
      var _ :- AwaitInBody();
      tree, nextId := InsertSections(sections, nextId);
      committed := committed + [sections];
      return Returned(());
    }

    // ---- stage bodies ----

    method TranscribeBody(l: Locals) returns (r: Outcome<Locals>)
      modifies this
      ensures BodyRan(old(State()), Transcribe, l, old(plan), r)
    {
      var c :- AwaitInBody();
      if l.audioKey !in objects || !c.Text? {
        return Threw(Err(NO_REPLY, false));
      }
      var transcript := Trim(c.text);
      if transcript == "" {
        return Threw(Err(EMPTY_TRANSCRIPT, true));
      }
      ghost var l' := l.(transcript := transcript);
      assert Fold(old(State()), Work(Transcribe, l, false), old(plan)) == Fold(State(), Write(Transcribe, l', false), plan);
      r := SaveTranscript(l.(transcript := transcript));
    }

    method SaveTranscript(l: Locals) returns (r: Outcome<Locals>)
      modifies this
      ensures BodyRanFrom(old(State()), Write(Transcribe, l, false), old(plan), r, Transcribe)
    {
      var _ :- AwaitInBody();
      row := row.(transcript := Some(l.transcript));
      saved := saved + [l.transcript];
      return Returned(l);
    }

    method CompileBody(l: Locals) returns (r: Outcome<Locals>)
      modifies this
      ensures BodyRan(old(State()), Compile, l, old(plan), r)
    {
      var c :- AwaitInBody();
      if !c.Replies? {
        return Threw(Err(NO_REPLY, false));
      }
      var compiled := ReportCompiler.Compile(c.first, c.second);
      if compiled.Failure? {
        return Threw(Err(compiled.error, true));
      }
      var l' := l.(sections := compiled.value);
      assert Fold(old(State()), Work(Compile, l, false), old(plan)) == Fold(State(), Write(Compile, l', false), plan);
      r := CommitReport(l');
    }

    method CommitReport(l: Locals) returns (r: Outcome<Locals>)
      modifies this
      ensures BodyRanFrom(old(State()), Write(Compile, l, false), old(plan), r, Compile)
      ensures r.Returned? ==> r.value == l
    {
      var _ :- ReplaceReport(l.sections);
      return Returned(l);
    }

    method RenderBody(l: Locals) returns (r: Outcome<Locals>)
      modifies this
      ensures BodyRan(old(State()), Render, l, old(plan), r)
    {
      var _ :- AwaitInBody();
      var pdf := Pdf(l.labelText, l.sections);
      assert Fold(old(State()), Work(Render, l, false), old(plan)) == Fold(State(), Write(Render, l, false), plan);
      r := StorePdf(l, pdf);
    }

    method StorePdf(l: Locals, pdf: Object) returns (r: Outcome<Locals>)
      requires pdf == Pdf(l.labelText, l.sections)
      modifies this
      ensures BodyRanFrom(old(State()), Write(Render, l, false), old(plan), r, Render)
    {
      var pdfKey := PdfKey(l.user, row.id);
      var _ :- AwaitInBody();
      objects := objects[pdfKey := pdf];
      assert Fold(old(State()), Write(Render, l, false), old(plan)) == Fold(State(), Publish(l, false), plan);
      r := PublishPdf(l, pdfKey);
    }

    method PublishPdf(l: Locals, pdfKey: Key) returns (r: Outcome<Locals>)
      requires pdfKey == PdfKey(l.user, row.id)
      modifies this
      ensures BodyRanFrom(old(State()), Publish(l, false), old(plan), r, Render)
    {
      var _ :- AwaitInBody();
      row := row.(pdfKey := Some(pdfKey), status := Ready, error := None);
      return Returned(l);
    }

    /** The body of a stage has run from t to r, with the machine in step. */
    ghost predicate BodyRanFrom(s: Store, t: Thread, p: Plan, r: Outcome<Locals>, stage: Stage)
      reads this
    {
      match r
      case Returned(l') => Fold(s, t, p) == Fold(State(), Complete(stage, l'), plan)
      case Threw(err) => Fold(s, t, p) == Fold(State(), Fault(stage, err), plan)
      case Died => Stopped(s, t, p)
    }

    ghost predicate BodyRan(s: Store, stage: Stage, l: Locals, p: Plan, r: Outcome<Locals>)
      reads this
    {
      BodyRanFrom(s, Work(stage, l, false), p, r, stage)
    }

    /** The process died: what the machine did before is all that happened. */
    ghost predicate Stopped(s: Store, t: Thread, p: Plan)
      reads this
    {
      Fold(s, t, p).0 == State() && !Ended(Fold(s, t, p).1)
    }

    // ---- runStage ----

    /** The stage has run from t: on to the next one, or into process's catch block. */
    ghost predicate StageRan(s: Store, t: Thread, p: Plan, stage: Stage, r: Outcome<Locals>)
      reads this
    {
      Ran(s, t, p, r, if r.Returned? then AfterStage(stage, r.value) else Gone)
    }

    method RunStage(stage: Stage, l: Locals) returns (r: Outcome<Locals>)
      modifies this
      ensures StageRan(old(State()), Enter(stage, l), old(plan), stage, r)
    {
      ghost var whole := Fold(State(), Enter(stage, l), plan);
      var _ :- SetStatus(StatusOf(stage));
      assert whole == Fold(State(), Begin(stage, l), plan);
      var _ :- AddEvent(Of(stage), Started, None);
      assert whole == Fold(State(), Work(stage, l, false), plan);
      r := TryBody(stage, l);
    }

    /** The try block of runStage. */
    method TryBody(stage: Stage, l: Locals) returns (r: Outcome<Locals>)
      modifies this
      ensures StageRan(old(State()), Work(stage, l, false), old(plan), stage, r)
    {
      ghost var whole := Fold(State(), Work(stage, l, false), plan);
      var body := Body(stage, l);
      if body.Returned? {
        assert whole == Fold(State(), Complete(stage, body.value), plan);
        var completed := AddEvent(Of(stage), Completed, None);
        match completed {
          case Returned(_) => return body;
          case Threw(err) => body := Threw(err);
          case Died => return Died;
        }
      }
      if body.Died? { return Died; }
      assert whole == Fold(State(), Fault(stage, body.err), plan);
      r := CatchFault(stage, body.err);
    }

    /** Its catch block. */
    method CatchFault(stage: Stage, err: Err) returns (r: Outcome<Locals>)
      modifies this
      ensures !r.Returned? && StageRan(old(State()), Fault(stage, err), old(plan), stage, r)
    {
      var _ :- AddEvent(Of(stage), Errored, Some(Cut(err.msg)));
      return Threw(err);
    }

    method Body(stage: Stage, l: Locals) returns (r: Outcome<Locals>)
      modifies this
      ensures BodyRan(old(State()), stage, l, old(plan), r)
    {
      match stage
      case Transcribe => r := TranscribeBody(l);
      case Compile => r := CompileBody(l);
      case Render => r := RenderBody(l);
    }

    // ---- the three stages, each skipped when its result is already stored ----

    method TranscribeStage(l: Locals, existing: Option<string>) returns (r: Outcome<Locals>)
      modifies this
      ensures Ran(old(State()), StartOf(l, existing), old(plan), r, if r.Returned? then AfterTranscribe(r.value) else Gone)
    {
      if existing.Some? && NonBlank(existing.value) {
        return Returned(l.(transcript := existing.value));
      }
      r := RunStage(Transcribe, l);
    }

    method CompileStage(l: Locals) returns (r: Outcome<Locals>)
      modifies this
      ensures Ran(old(State()), AfterTranscribe(l), old(plan), r, if r.Returned? then Enter(Render, r.value) else Gone)
    {
      if l.existing != [] {
        return Returned(l.(sections := l.existing));
      }
      r := RunStage(Compile, l);
    }

    method RenderStage(l: Locals) returns (r: Outcome<Locals>)
      modifies this
      ensures Ran(old(State()), Enter(Render, l), old(plan), r, Thread.Finished)
    {
      r := RunStage(Render, l);
    }

    /** A stage has run: on to `next` when it returned, into process's catch block when it threw. */
    ghost predicate Ran(s: Store, t: Thread, p: Plan, r: Outcome<Locals>, next: Thread)
      reads this
    {
      match r
      case Returned(_) => Fold(s, t, p) == Fold(State(), next, plan)
      case Threw(err) => Fold(s, t, p) == Fold(State(), Raise(err), plan)
      case Died => Stopped(s, t, p)
    }

    method Stages(l: Locals, existing: Option<string>) returns (r: Outcome<Locals>)
      modifies this
      ensures Ran(old(State()), StartOf(l, existing), old(plan), r, Thread.Finished)
    {
      var heard :- TranscribeStage(l, existing);
      var compiled :- CompileStage(heard);
      r := RenderStage(compiled);
    }

    // ---- markFailed, process ----

    method MarkFailed(msg: string, ghost from: Caller) returns (r: Outcome<()>)
      modifies this
      ensures MarkRan(old(State()), MarkRead(msg, from), old(plan), msg, from, r)
    {
      ghost var whole := Fold(State(), MarkRead(msg, from), plan);
      var _ :- Await();
      if row.status.Failed? { return Returned(()); }
      assert whole == Fold(State(), MarkSet(msg, from), plan);
      r := RecordFailure(msg, from);
    }

    /** The two writes of markFailed. */
    method RecordFailure(msg: string, ghost from: Caller) returns (r: Outcome<()>)
      modifies this
      ensures MarkRan(old(State()), MarkSet(msg, from), old(plan), msg, from, r)
    {
      ghost var whole := Fold(State(), MarkSet(msg, from), plan);
      var trimmed := Cut(msg);
      var _ :- Await();
      row := row.(status := Status.Failed, error := Some(trimmed));
      assert whole == Fold(State(), MarkEvent(msg, from), plan);
      var _ :- AddEvent(Whole, Errored, Some(trimmed));
      return Returned(());
    }

    /** markFailed has run from t: on as its caller goes on. */
    ghost predicate MarkRan(s: Store, t: Thread, p: Plan, msg: string, from: Caller, r: Outcome<()>)
      reads this
    {
      match r
      case Returned(_) => Fold(s, t, p) == Fold(State(), MarkReturns(msg, from), plan)
      case Threw(err) => Fold(s, t, p) == Fold(State(), MarkThrows(err.msg, from), plan) && !err.permanent
      case Died => Stopped(s, t, p)
    }

    /** process: the machine's whole run from the read of the job. */
    method Process(user: UserId) returns (r: Outcome<()>)
      modifies this
      ensures match r
        case Returned(_) => Fold(old(State()), Read(user), old(plan)) == (State(), Thread.Finished)
        case Threw(err) => Fold(old(State()), Read(user), old(plan)) == (State(), Thrown(err.msg, err.permanent))
        case Died => Stopped(old(State()), Read(user), old(plan))
    {
      ghost var whole := Fold(State(), Read(user), plan);
      var _ :- Await();
      var job := row;
      if job.deleted { return Returned(()); }
      if job.owner != user { return Threw(Err(OWNER_MISMATCH, true)); }
      if job.status.Ready? { return Returned(()); }
      if job.audioKey.None? { return Threw(Err(NO_AUDIO_KEY, true)); }
      var l := Locals(user, job.labelText, job.audioKey.value, Project(tree), "", []);
      assert whole == Fold(State(), StartOf(l, job.transcript), plan);
      // try
      var done := Stages(l, job.transcript);
      match done {
        case Returned(_) => return Returned(());
        case Died => return Died;
        case Threw(err) =>
          // catch
          assert whole == Fold(State(), Raise(err), plan);
          if err.permanent {
            var _ :- MarkFailed(err.msg, ByAttempt);
          }
          return Threw(err);
      }
    }

    // ---- the processor ----

    /** handleFailure for the attempt that made job.made failures; its own errors are only logged. */
    method HandleFailure(job: Entry, msg: string, unrecoverable: bool)
      modifies this
      ensures State() ==
        if Safety.Terminal(job, unrecoverable) then Fold(old(State()), MarkRead(msg, ByHandler(job.user, job.made)), old(plan)).0
        else old(State())
    {
      var terminal := unrecoverable || job.made >= job.attempts;
      if !terminal { return; }
      ghost var from := ByHandler(job.user, job.made);
      ghost var whole := Fold(State(), MarkRead(msg, from), plan);
      // try
      var marked := MarkFailed(msg, from);
      if marked.Returned? {
        assert whole == Fold(State(), Park(msg, job.user, job.made), plan);
        AddLetter(job, msg);
      } else {
        assert whole.0 == State();
      }
    }

    method AddLetter(job: Entry, msg: string)
      modifies `dlq, `plan
      ensures State() == Fold(old(State()), Park(msg, job.user, job.made), old(plan)).0
    {
      var added := Await();
      if added.Returned? {
        dlq := dlq + [DeadLetter(row.id, job.user, msg, job.made)];
      }
    }

    /**
     One delivery by the queue: process, the queue's record of its end unless the worker dies before
     it, the 'failed' listener. Exactly the AttemptOp that PipelineLife's theorems are about.
     */
    method Deliver(d: Life.Delivery)
      requires entry.Some? && entry.value.state.Waiting?
      modifies this
      ensures State() == Life.AttemptOp(old(State()), d)
    {
      entry := Some(entry.value.(state := Active));
      plan := d.plan;
      var user := entry.value.user;
      ghost var started := State();
      var r := Process(user);
      ghost var m := Fold(started, Read(user), d.plan);
      assert m.0 == State();
      Life.FoldKeepsJob(started, Read(user), d.plan);
      if r.Died? || !d.recorded {
        entry := Some(entry.value.(state := Waiting));
        return;
      }
      plan := d.handler;
      match r {
        case Returned(_) =>
          entry := Some(entry.value.(state := Done));
        case Threw(err) =>
          var e := entry.value.(made := entry.value.made + 1);
          entry := Some(e.(state := if err.permanent || e.made >= e.attempts then Dead else Waiting));
          assert State() == Safety.SettleEntry(m.0, m.1).0;
          HandleFailure(e, err.msg, err.permanent);
      }
    }
  }

  /** Where process enters its try block. */
  function StartOf(l: Locals, existing: Option<string>): Thread {
    if existing.Some? && NonBlank(existing.value) then AfterTranscribe(l.(transcript := existing.value))
    else Enter(Transcribe, l)
  }

  function BodyAnswer(c: Choice): Outcome<Choice> {
    if c.Throw? then Threw(Err(c.msg, false)) else if c.Timeout? then Threw(Err(STAGE_TIMEOUT, false)) else Returned(c)
  }

  /** How a write that returns nothing ends: the next outcome, or death. */
  function Written(p: Plan): Outcome<()> {
    if p.Crash? then Died else if p.c.Throw? then Threw(Err(p.c.msg, false)) else Returned(())
  }

  function WrittenInBody(p: Plan): Outcome<()> {
    if p.Then? && p.c.Timeout? then Threw(Err(STAGE_TIMEOUT, false)) else Written(p)
  }
}
