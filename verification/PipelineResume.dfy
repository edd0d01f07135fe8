/**
 Crash-resume equivalence. With the same speech-to-text and compiler replies, every life that ends
 READY ends exactly like one uninterrupted run, and from every live state an attempt in which
 nothing fails re-does only the missing stages and completes.
 */
module PipelineResume {
  import opened Basics
  import opened Text
  import opened ReportTree
  import opened ReportCompiler
  import opened Pipeline
  import opened PipelineLife
  import Safety = PipelineSafety

  /** What the foreign calls answer for this job. */
  datatype Oracle = Oracle(text: string, first: Reply, second: Reply)

  /** The input is not itself the problem: there is speech, and one compiler reply is valid. */
  predicate Usable(o: Oracle) {
    NonBlank(o.text) && ReportCompiler.Compile(o.first, o.second).Success?
  }

  function ReportOf(o: Oracle): seq<SectionInput>
    requires Usable(o)
  {
    ReportCompiler.Compile(o.first, o.second).value
  }

  predicate Answers(o: Oracle, c: Choice) {
    (c.Text? ==> c.text == o.text) && (c.Replies? ==> c.first == o.first && c.second == o.second)
  }

  ghost predicate Follows(o: Oracle, plan: Plan) {
    plan.Then? ==> Answers(o, plan.c) && Follows(o, plan.rest)
  }

  ghost predicate AllFollow(o: Oracle, ops: seq<Op>) {
    forall i | 0 <= i < |ops| && ops[i].Attempt? :: Follows(o, ops[i].d.plan) && Follows(o, ops[i].d.handler)
  }

  // ---- everything ever written came from the oracle ----

  ghost predicate From(o: Oracle, s: Store)
    requires Usable(o)
  {
    && (forall i | 0 <= i < |s.saved| :: s.saved[i] == Trim(o.text))
    && (forall i | 0 <= i < |s.committed| :: s.committed[i] == ReportOf(o))
  }

  ghost predicate ThreadFrom(o: Oracle, t: Thread)
    requires Usable(o)
  {
    t.Write? ==> (t.stage.Transcribe? ==> t.l.transcript == Trim(o.text)) && (t.stage.Compile? ==> t.l.sections == ReportOf(o))
  }

  lemma StepFrom(o: Oracle, s: Store, t: Thread, c: Choice)
    requires Usable(o) && From(o, s) && ThreadFrom(o, t) && Answers(o, c)
    ensures var n := Step(s, t, c); From(o, n.s) && ThreadFrom(o, n.t)
  {
    var n := Step(s, t, c);
    if InBody(t) {
      StepBodyFrom(o, s, t, c);
    } else {
      assert n.s.saved == s.saved && n.s.committed == s.committed;
    }
  }

  lemma StepBodyFrom(o: Oracle, s: Store, t: Thread, c: Choice)
    requires Usable(o) && From(o, s) && ThreadFrom(o, t) && Answers(o, c)
    requires InBody(t)
    ensures var n := StepBody(s, t, c); From(o, n.s) && ThreadFrom(o, n.t)
  {
    if t.Work? {
      WorkFrom(o, s, t, c);
    } else if t.Write? {
      WriteFrom(o, s, t, c);
    } else {
      assert StepBody(s, t, c).s.saved == s.saved && StepBody(s, t, c).s.committed == s.committed;
    }
  }

  lemma WorkFrom(o: Oracle, s: Store, t: Thread, c: Choice)
    requires Usable(o) && From(o, s) && ThreadFrom(o, t) && Answers(o, c) && t.Work?
    ensures var n := StepBody(s, t, c); From(o, n.s) && ThreadFrom(o, n.t)
  {
    assert StepBody(s, t, c).s == s;
  }

  lemma WriteFrom(o: Oracle, s: Store, t: Thread, c: Choice)
    requires Usable(o) && From(o, s) && ThreadFrom(o, t) && Answers(o, c) && t.Write?
    ensures var n := StepBody(s, t, c); From(o, n.s) && ThreadFrom(o, n.t)
  {
  }

  lemma {:induction false} FoldFrom(o: Oracle, s: Store, t: Thread, plan: Plan)
    requires Usable(o) && From(o, s) && ThreadFrom(o, t) && Follows(o, plan)
    ensures var m := Fold(s, t, plan); From(o, m.0) && ThreadFrom(o, m.1)
    decreases plan
  {
    if plan.Then? && !Ended(t) {
      StepFrom(o, s, t, plan.c);
      var n := Step(s, t, plan.c);
      FoldFrom(o, n.s, n.t, plan.rest);
    }
  }

  lemma DoFrom(o: Oracle, s: Store, op: Op, attempts: nat)
    requires Usable(o) && From(o, s) && AllFollow(o, [op])
    ensures From(o, Do(s, op, attempts))
  {
    if op.Attempt? && Live(s) {
      assert [op][0] == op;
      var t := Read(s.entry.value.user);
      FoldFrom(o, Activate(s), t, op.d.plan);
      var m := Fold(Activate(s), t, op.d.plan);
      if Recorded(m.1, op.d) {
        Safety.SettleShape(m.0, m.1);
        var n := Safety.SettleEntry(m.0, m.1);
        FoldFrom(o, n.0, n.1, op.d.handler);
      }
    }
  }

  lemma {:induction false} LifeFrom(o: Oracle, s: Store, ops: seq<Op>, attempts: nat)
    requires Usable(o) && From(o, s) && AllFollow(o, ops)
    ensures From(o, Life(s, ops, attempts))
    decreases |ops|
  {
    if ops != [] {
      assert AllFollow(o, [ops[0]]);
      DoFrom(o, s, ops[0], attempts);
      LifeFrom(o, Do(s, ops[0], attempts), ops[1..], attempts);
    }
  }

  // ---- the outcome is canonical ----

  /** What a user can see of a finished job, and the view its document was rendered from. */
  datatype Outcome = Outcome(status: Status, transcript: Option<string>, report: seq<SectionInput>,
                             pdfKey: Option<Key>, document: Option<Object>, error: Option<string>)

  function OutcomeOf(s: Store): Outcome {
    var k := PdfKey(s.row.owner, s.row.id);
    Outcome(s.row.status, s.row.transcript, Project(s.tree), s.row.pdfKey,
            if k in s.objects then Some(s.objects[k]) else None, s.row.error)
  }

  /** READY with the oracle's transcript and report, and the document rendered from that report. */
  function Canonical(s: Store, o: Oracle): Outcome
    requires Usable(o)
  {
    Outcome(Ready, Some(Trim(o.text)), ReportOf(o), Some(PdfKey(s.row.owner, s.row.id)),
            Some(Pdf(s.row.labelText, ReportOf(o))), None)
  }

  lemma ReadyIsCanonical(o: Oracle, s: Store)
    requires Usable(o) && CoreInv(s) && From(o, s) && s.row.status.Ready?
    ensures OutcomeOf(s) == Canonical(s, o)
  {
    assert s.saved == [s.row.transcript.value];
    assert s.saved[0] == Trim(o.text);
  }

  // ---- an attempt in which nothing fails ----

  function TranscribePlan(o: Oracle): Plan {
    Then(Ok, Then(Ok, Then(Choice.Text(o.text), Then(Ok, Then(Ok, Crash)))))
  }

  function CompilePlan(o: Oracle): Plan {
    Then(Ok, Then(Ok, Then(Replies(o.first, o.second), Then(Ok, Then(Ok, Crash)))))
  }

  const RENDER_PLAN: Plan := Then(Ok, Then(Ok, Then(Ok, Then(Ok, Then(Ok, Then(Ok, Crash))))))

  /** Exactly the stages whose result is not stored yet, then `rendering`. */
  function PlanFrom(s: Store, o: Oracle, rendering: Plan): Plan {
    Then(Ok,
      Plus(if s.row.transcript.None? then TranscribePlan(o) else Crash,
        Plus(if Project(s.tree) == [] then CompilePlan(o) else Crash, rendering)))
  }

  /** An attempt in which nothing fails. */
  function ResumePlan(s: Store, o: Oracle): Plan {
    PlanFrom(s, o, RENDER_PLAN)
  }

  /** Entering a stage: the status write and the started event. */
  lemma EnterStage(s: Store, stage: Stage, l: Locals, rest: Plan) returns (s': Store)
    ensures Fold(s, Enter(stage, l), Then(Ok, Then(Ok, rest))) == Fold(s', Work(stage, l, false), rest)
    ensures s'.tree == s.tree && s'.objects == s.objects
  {
    var s1 := SetStatus(s, StatusOf(stage));
    assert Fold(s, Enter(stage, l), Then(Ok, Then(Ok, rest))) == Fold(s1, Begin(stage, l), Then(Ok, rest));
    s' := AddEvent(s1, Of(stage), Started, None);
    assert Fold(s1, Begin(stage, l), Then(Ok, rest)) == Fold(s', Work(stage, l, false), rest);
  }

  lemma HearStep(s: Store, l: Locals, o: Oracle)
    requires Usable(o) && l.audioKey in s.objects
    ensures Step(s, Work(Transcribe, l, false), Choice.Text(o.text))
         == Next(s, Write(Transcribe, l.(transcript := Trim(o.text)), false), None)
  {
  }

  lemma CompileStep(s: Store, l: Locals, o: Oracle)
    requires Usable(o)
    ensures Step(s, Work(Compile, l, false), Replies(o.first, o.second))
         == Next(s, Write(Compile, l.(sections := ReportOf(o)), false), None)
  {
  }

  /** The last call of a stage: the completed event. */
  lemma LeaveStage(s: Store, stage: Stage, l: Locals)
    ensures var m := Fold(s, Complete(stage, l), Then(Ok, Crash)); m.1 == AfterStage(stage, l) && m.0.tree == s.tree
  {
    var n := Next(AddEvent(s, Of(stage), Completed, None), AfterStage(stage, l), None);
    Fold1(s, Complete(stage, l), Ok, Crash, n);
  }

  lemma CleanTranscribe(s: Store, l: Locals, o: Oracle)
    requires Usable(o) && l.audioKey in s.objects
    ensures var m := Fold(s, Enter(Transcribe, l), TranscribePlan(o));
      m.1 == AfterTranscribe(l.(transcript := Trim(o.text))) && m.0.tree == s.tree
  {
    var heard := l.(transcript := Trim(o.text));
    var rest := Then(Ok, Then(Ok, Crash));
    var s1 := EnterStage(s, Transcribe, l, Then(Choice.Text(o.text), rest));
    HearStep(s1, l, o);
    Fold1(s1, Work(Transcribe, l, false), Choice.Text(o.text), rest, Next(s1, Write(Transcribe, heard, false), None));
    var s2 := SaveTranscript(s1, heard.transcript);
    Fold1(s1, Write(Transcribe, heard, false), Ok, rest.rest, Next(s2, Complete(Transcribe, heard), None));
    LeaveStage(s2, Transcribe, heard);
  }

  lemma CleanCompile(s: Store, l: Locals, o: Oracle)
    requires Usable(o)
    ensures Fold(s, Enter(Compile, l), CompilePlan(o)).1 == Enter(Render, l.(sections := ReportOf(o)))
  {
    var compiled := l.(sections := ReportOf(o));
    var reply := Replies(o.first, o.second);
    var rest := Then(Ok, Then(Ok, Crash));
    var s1 := EnterStage(s, Compile, l, Then(reply, rest));
    assert Step(s1, Work(Compile, l, false), reply) == Next(s1, Write(Compile, compiled, false), None) by {
      CompileStep(s1, l, o);
    }
    Fold1(s1, Work(Compile, l, false), reply, rest, Next(s1, Write(Compile, compiled, false), None));
    CleanCommit(s1, compiled);
  }

  lemma CleanCommit(s1: Store, compiled: Locals)
    ensures Fold(s1, Write(Compile, compiled, false), Then(Ok, Then(Ok, Crash))).1 == Enter(Render, compiled)
  {
    var rest := Then(Ok, Then(Ok, Crash));
    var s2 := ReplaceReport(s1, compiled.sections);
    Fold1(s1, Write(Compile, compiled, false), Ok, rest.rest, Next(s2, Complete(Compile, compiled), None));
    LeaveStage(s2, Compile, compiled);
  }

  lemma CleanRender(s: Store, l: Locals)
    ensures Fold(s, Enter(Render, l), RENDER_PLAN).1 == Thread.Finished
  {
    var rest := Then(Ok, Then(Ok, Then(Ok, Crash)));
    var s1 := EnterStage(s, Render, l, Then(Ok, rest));
    Fold1(s1, Work(Render, l, false), Ok, rest, Next(s1, Write(Render, l, false), None));
    var s2 := PutPdf(s1, l);
    Fold1(s1, Write(Render, l, false), Ok, rest.rest, Next(s2, Publish(l, false), None));
    var s3 := SetPdfReady(s2, l);
    Fold1(s2, Publish(l, false), Ok, rest.rest.rest, Next(s3, Complete(Render, l), None));
    LeaveStage(s3, Render, l);
  }

  /** From any state, an attempt in which nothing fails runs just the missing stages up to the rendering. */
  lemma FaultFreeAttemptReachesRendering(s: Store, o: Oracle, rendering: Plan)
    returns (m: Store, l: Locals)
    requires CoreInv(s) && !s.row.status.Ready? && Usable(o)
    ensures Fold(s, Read(s.row.owner), PlanFrom(s, o, rendering)) == Fold(m, Enter(Render, l), rendering)
  {
    var first := if s.row.transcript.None? then TranscribePlan(o) else Crash;
    var second := if Project(s.tree) == [] then CompilePlan(o) else Crash;
    var t := AfterRead(s, s.row.owner);
    assert Step(s, Read(s.row.owner), Ok) == Next(s, t, None);
    var rest := Plus(second, rendering);
    assert Fold(s, Read(s.row.owner), PlanFrom(s, o, rendering)) == Fold(s, t, Plus(first, rest));
    FoldPlus(s, t, first, rest);
    FirstPart(s, o, t, first);
    var m1 := Fold(s, t, first);
    m, l := SecondPart(m1.0, m1.1, o, second, Project(s.tree), rendering);
  }

  lemma FaultFreeAttemptFinishes(s: Store, o: Oracle)
    requires CoreInv(s) && !s.row.status.Ready? && Usable(o)
    ensures Fold(s, Read(s.row.owner), ResumePlan(s, o)).1 == Thread.Finished
  {
    var m, l := FaultFreeAttemptReachesRendering(s, o, RENDER_PLAN);
    CleanRender(m, l);
  }

  lemma FirstPart(s: Store, o: Oracle, t: Thread, first: Plan)
    requires CoreInv(s) && !s.row.status.Ready? && Usable(o) && t == AfterRead(s, s.row.owner)
    requires first == if s.row.transcript.None? then TranscribePlan(o) else Crash
    ensures exists l :: Fold(s, t, first).1 == AfterTranscribe(l) && l.existing == Project(s.tree)
  {
    var l0 := Locals(s.row.owner, s.row.labelText, s.row.audioKey.value, Project(s.tree), "", []);
    if s.row.transcript.None? {
      assert t == Enter(Transcribe, l0);
      CleanTranscribe(s, l0, o);
      assert Fold(s, t, first).1 == AfterTranscribe(l0.(transcript := Trim(o.text)));
    } else {
      assert t == AfterTranscribe(l0.(transcript := s.row.transcript.value));
    }
  }

  lemma SecondPart(s: Store, t: Thread, o: Oracle, second: Plan,
                   existing: seq<SectionInput>, rendering: Plan)
    returns (m: Store, l: Locals)
    requires Usable(o)
    requires exists l :: t == AfterTranscribe(l) && l.existing == existing
    requires second == if existing == [] then CompilePlan(o) else Crash
    ensures Fold(s, t, Plus(second, rendering)) == Fold(m, Enter(Render, l), rendering)
  {
    FoldPlus(s, t, second, rendering);
    if existing == [] {
      CleanCompile(s, t.l, o);
    }
    m := Fold(s, t, second).0;
    l := Fold(s, t, second).1.l;
  }

  /** An attempt that returns without throwing leaves the job READY. */
  lemma FinishedMeansReady(s: Store, d: Delivery)
    requires CoreInv(s) && Live(s)
    requires Fold(Activate(s), Read(s.entry.value.user), d.plan).1.Finished?
    ensures CoreInv(AttemptOp(s, d)) && AttemptOp(s, d).row.status.Ready?
  {
    EntryCore(s, Activate(s).entry);
    FoldCore(Activate(s), Read(s.entry.value.user), d.plan);
    var m := Fold(Activate(s), Read(s.entry.value.user), d.plan);
    Safety.SettleShape(m.0, m.1);
    AfterAttemptCore(m.0, m.1, d);
  }

  lemma {:induction false} LifeKeepsJob(s: Store, ops: seq<Op>, attempts: nat)
    requires CoreInv(s)
    ensures SameRow(s, Life(s, ops, attempts))
    decreases |ops|
  {
    if ops != [] {
      DoCore(s, ops[0], attempts);
      DoKeepsJob(s, ops[0], attempts);
      LifeKeepsJob(Do(s, ops[0], attempts), ops[1..], attempts);
    }
  }

  lemma DoKeepsJob(s: Store, op: Op, attempts: nat)
    ensures SameRow(s, Do(s, op, attempts))
  {
    if op.Attempt? && Live(s) {
      var t := Read(s.entry.value.user);
      FoldKeepsJob(Activate(s), t, op.d.plan);
      var m := Fold(Activate(s), t, op.d.plan);
      if Recorded(m.1, op.d) {
        Safety.SettleShape(m.0, m.1);
        var n := Safety.SettleEntry(m.0, m.1);
        FoldKeepsJob(n.0, n.1, op.d.handler);
      }
    }
  }

  /**
   Crash-resume equivalence: take any life of requests and attempts that fail or crash anywhere,
   all answered by the same oracle. If it is still live, one attempt in which nothing fails
   completes it; and whenever it is READY, by whatever attempt, its outcome is exactly that of the
   uninterrupted run: one request and one attempt on the fresh job.
   */
  lemma CrashResumeEquivalence(id: JobId, owner: UserId, labelText: string, content: nat, attempts: nat,
                               ops: seq<Op>, o: Oracle, recorded: bool)
    requires Usable(o) && AllFollow(o, ops)
    ensures
      var draft := Uploaded(id, owner, labelText, content);
      var asked := AskOp(draft, owner, attempts);
      var clean := AttemptOp(asked, Delivery(ResumePlan(asked, o), true, Crash));
      var s := Life(draft, ops, attempts);
      var resumed := AttemptOp(s, Delivery(ResumePlan(s, o), recorded, Crash));
      && OutcomeOf(clean).status.Ready?
      && (s.row.status.Ready? ==> OutcomeOf(s) == OutcomeOf(clean))
      && (Live(s) && !s.row.status.Ready? ==> OutcomeOf(resumed) == OutcomeOf(clean))
  {
    var draft := Uploaded(id, owner, labelText, content);
    UploadedCore(id, owner, labelText, content);
    var asked := AskOp(draft, owner, attempts);
    AskCore(draft, owner, WHOLE, attempts);
    FinishResumed(asked, o, true);
    var clean := AttemptOp(asked, Delivery(ResumePlan(asked, o), true, Crash));
    var s := Life(draft, ops, attempts);
    LifeCore(draft, ops, attempts);
    LifeFrom(o, draft, ops, attempts);
    LifeKeepsJob(draft, ops, attempts);
    if s.row.status.Ready? {
      ReadyIsCanonical(o, s);
    } else if Live(s) {
      FinishResumed(s, o, recorded);
    }
  }

  /** One fault-free attempt on a live job leads to the canonical outcome. */
  lemma FinishResumed(s: Store, o: Oracle, recorded: bool)
    requires CoreInv(s) && Live(s) && !s.row.status.Ready? && Usable(o) && From(o, s)
    ensures var r := AttemptOp(s, Delivery(ResumePlan(s, o), recorded, Crash));
      r.row.status.Ready? && OutcomeOf(r) == Canonical(s, o)
  {
    var d := Delivery(ResumePlan(s, o), recorded, Crash);
    var r := AttemptOp(s, d);
    assert r.row.status.Ready? && CoreInv(r) by {
      EntryCore(s, Activate(s).entry);
      assert ResumePlan(Activate(s), o) == d.plan;
      FaultFreeAttemptFinishes(Activate(s), o);
      FinishedMeansReady(s, d);
    }
    assert From(o, r) by {
      PlanFollows(s, o, recorded);
      DoFrom(o, s, Attempt(d), 0);
    }
    assert SameRow(s, r) by { DoKeepsJob(s, Attempt(d), 0); }
    ReadyIsCanonical(o, r);
  }

  lemma PlanFollows(s: Store, o: Oracle, recorded: bool)
    ensures AllFollow(o, [Attempt(Delivery(ResumePlan(s, o), recorded, Crash))])
  {
    var second := if Project(s.tree) == [] then CompilePlan(o) else Crash;
    assert Follows(o, RENDER_PLAN.rest.rest.rest.rest);
    assert Follows(o, RENDER_PLAN.rest.rest);
    assert Follows(o, TranscribePlan(o).rest.rest) && Follows(o, CompilePlan(o).rest.rest);
    PlusFollows(o, second, RENDER_PLAN);
    PlusFollows(o, if s.row.transcript.None? then TranscribePlan(o) else Crash, Plus(second, RENDER_PLAN));
  }

  lemma PlusFollows(o: Oracle, p: Plan, q: Plan)
    requires Follows(o, p) && Follows(o, q)
    ensures Follows(o, Plus(p, q))
  {
  }
}
