/**
 What the life theorems leave to the interleaving machine: stage bodies that outlive their timeout, entries
 delivered twice after a stall, and attempts on a job whose recording is gone.
 */
module PipelineLate {
  import opened Basics
  import opened Text
  import opened ReportTree
  import opened ReportCompiler
  import opened Pipeline
  import opened PipelineLife
  import Safety = PipelineSafety

  // ---- a body that outlives its timeout ----

  predicate IsLate(t: Thread) {
    t.Gone? || (InBody(t) && t.late)
  }

  /** What a late body of this stage may have changed since s. */
  predicate OnlyBodyWrites(s: Store, m: Store, stage: Stage) {
    && m.events == s.events && m.dlq == s.dlq && m.entry == s.entry
    && match stage
       case Transcribe =>
         && m.tree == s.tree && m.objects == s.objects
         && (m.row == s.row || (m.row.transcript.Some? && m.row == s.row.(transcript := m.row.transcript)))
       case Compile => m.row == s.row && m.objects == s.objects
       case Render =>
         && m.tree == s.tree
         && (m.row == s.row || m.row == s.row.(pdfKey := m.row.pdfKey, status := Ready, error := None))
  }

  lemma LateStep(s: Store, t: Thread, c: Choice)
    requires InBody(t) && t.late
    ensures var n := Step(s, t, c);
      && IsLate(n.t) && n.late.None? && (InBody(n.t) ==> StageOf(n.t) == StageOf(t)) && OnlyBodyWrites(s, n.s, StageOf(t))
      && (InBody(n.t) && !StageOf(t).Render? ==> n.s == s) && (InBody(n.t) ==> n.s.row == s.row)
  {
  }

  /**
   A late body is never heard of again in the log, the queue or the dead letters, and cannot fail the job,
   whatever its calls answer. All it can change is its own stage's work, and for a rendering the status, to READY.
   */
  lemma {:induction false} LateBodyIsSilent(s: Store, t: Thread, plan: Plan)
    requires InBody(t) && t.late
    ensures var m := Fold(s, t, plan);
      && IsLate(m.1) && OnlyBodyWrites(s, m.0, StageOf(t)) && (InBody(m.1) ==> m.0.row == s.row)
    decreases plan
  {
    if plan.Then? {
      LateStep(s, t, plan.c);
      var n := Step(s, t, plan.c);
      Fold1(s, t, plan.c, plan.rest, n);
      if InBody(n.t) { LateBodyIsSilent(n.s, n.t, plan.rest); }
    }
  }

  /** The timeout leaves a late body behind, at the very call it interrupted. */
  lemma TimeoutLeavesBody(s: Store, t: Thread)
    requires InBody(t) && !t.late
    ensures var n := Step(s, t, Timeout);
      n.s == s && n.t == Fault(StageOf(t), Err(STAGE_TIMEOUT, false)) && n.late == Some(t.(late := true))
  {
  }

  /**
   But what it writes stands. Left alone it saves its transcript, replaces whatever report is there by then,
   also one the user has edited since, and turns the job READY, also one that is FAILED for good.
   */
  lemma LateBodies(s: Store, l: Locals, text: string, first: Reply, second: Reply)
    requires l.audioKey in s.objects && NonBlank(text) && (ValidReply(first) || ValidReply(second))
    ensures var m := Fold(s, Work(Transcribe, l, true), Then(Choice.Text(text), Then(Ok, Crash)));
      m.1.Gone? && m.0.row == s.row.(transcript := Some(Trim(text))) && OnlyBodyWrites(s, m.0, Transcribe)
    ensures var m := Fold(s, Work(Compile, l, true), Then(Replies(first, second), Then(Ok, Crash)));
      m.1.Gone? && Project(m.0.tree) == ReportCompiler.Compile(first, second).value && OnlyBodyWrites(s, m.0, Compile)
    ensures var m := Fold(s, Work(Render, l, true), Then(Ok, Then(Ok, Then(Ok, Crash)))); var k := PdfKey(l.user, s.row.id);
      && m.1.Gone? && m.0.row == s.row.(pdfKey := Some(k), status := Ready, error := None)
      && k in m.0.objects && m.0.objects[k] == Pdf(l.labelText, l.sections) && OnlyBodyWrites(s, m.0, Render)
  {
    LateTranscript(s, l, text);
    LateReport(s, l, first, second);
    LateDocument(s, l, Ok);
  }

  lemma LateTranscript(s: Store, l: Locals, text: string)
    requires l.audioKey in s.objects && NonBlank(text)
    ensures var m := Fold(s, Work(Transcribe, l, true), Then(Choice.Text(text), Then(Ok, Crash)));
      m.1.Gone? && m.0.row == s.row.(transcript := Some(Trim(text))) && OnlyBodyWrites(s, m.0, Transcribe)
  {
    var heard := l.(transcript := Trim(text));
    var rest := Then(Ok, Crash);
    Fold1(s, Work(Transcribe, l, true), Choice.Text(text), rest, Next(s, Write(Transcribe, heard, true), None));
    Fold1(s, Write(Transcribe, heard, true), Ok, Crash, Next(SaveTranscript(s, Trim(text)), Gone, None));
  }

  lemma LateReport(s: Store, l: Locals, first: Reply, second: Reply)
    requires ValidReply(first) || ValidReply(second)
    ensures var m := Fold(s, Work(Compile, l, true), Then(Replies(first, second), Then(Ok, Crash)));
      m.1.Gone? && Project(m.0.tree) == ReportCompiler.Compile(first, second).value && OnlyBodyWrites(s, m.0, Compile)
  {
    var sections := ReportCompiler.Compile(first, second).value;
    var compiled := l.(sections := sections);
    var rest := Then(Ok, Crash);
    assert Step(s, Work(Compile, l, true), Replies(first, second)) == Next(s, Write(Compile, compiled, true), None);
    Fold1(s, Work(Compile, l, true), Replies(first, second), rest, Next(s, Write(Compile, compiled, true), None));
    LateCommit(s, compiled);
  }

  lemma LateCommit(s: Store, l: Locals)
    ensures var m := Fold(s, Write(Compile, l, true), Then(Ok, Crash));
      m.1.Gone? && Project(m.0.tree) == l.sections && OnlyBodyWrites(s, m.0, Compile)
  {
    Fold1(s, Write(Compile, l, true), Ok, Crash, Next(ReplaceReport(s, l.sections), Gone, None));
    ReplacedProjects(s, l.sections);
  }

  lemma ReplacedProjects(s: Store, sections: seq<SectionInput>)
    ensures Project(ReplaceReport(s, sections).tree) == sections
  {
    var rows := Inserted(sections, s.nextId);
    assert Shuffled(rows, rows) by { ShuffledSelf(rows); }
    InsertedIsStored(sections, s.nextId, rows);
    PersistThenProject(rows, sections);
  }

  lemma ShuffledSelf(rows: seq<SectionRec>)
    ensures Shuffled(rows, rows)
  {
    assert ShuffledVia(rows, rows, rows);
  }

  lemma LateDocument(s: Store, l: Locals, c: Choice)
    requires !c.Throw?
    ensures var m := Fold(s, Work(Render, l, true), Then(c, Then(c, Then(c, Crash)))); var k := PdfKey(l.user, s.row.id);
      && m.1.Gone? && m.0.row == s.row.(pdfKey := Some(k), status := Ready, error := None)
      && k in m.0.objects && m.0.objects[k] == Pdf(l.labelText, l.sections) && OnlyBodyWrites(s, m.0, Render)
  {
    var s1 := PutPdf(s, l);
    Fold1(s, Work(Render, l, true), c, Then(c, Then(c, Crash)), Next(s, Write(Render, l, true), None));
    Fold1(s, Write(Render, l, true), c, Then(c, Crash), Next(s1, Publish(l, true), None));
    Fold1(s1, Publish(l, true), c, Crash, Next(SetPdfReady(s1, l), Gone, None));
  }

  // ---- an attempt on a job without its recording ----

  /** No stage but transcription can be ahead, and its recording is not there. */
  predicate Deaf(s: Store, t: Thread) {
    match t
    case Read(user) => user == s.row.owner && s.row.audioKey.Some?
    case Enter(stage, l) => stage.Transcribe? && l.audioKey !in s.objects
    case Begin(stage, l) => stage.Transcribe? && l.audioKey !in s.objects
    case Work(stage, l, _) => stage.Transcribe? && l.audioKey !in s.objects
    case Write(_, _, _) => false
    case Publish(_, _) => false
    case Complete(_, _) => false
    case Fault(_, err) => !err.permanent
    case MarkRead(_, _) => false
    case MarkSet(_, _) => false
    case MarkEvent(_, _) => false
    case Park(_, _, _) => false
    case Thrown(_, unrecoverable) => !unrecoverable
    case _ => true
  }

  predicate Unheard(s: Store) {
    && (s.row.transcript.Some? ==> Trim(s.row.transcript.value) == "")
    && (s.row.audioKey.Some? ==> s.row.audioKey.value !in s.objects)
  }

  predicate SameWork(s: Store, m: Store) {
    && m.row.(status := s.row.status) == s.row && m.tree == s.tree && m.objects == s.objects && m.entry == s.entry && m.dlq == s.dlq
  }

  lemma DeafStep(s: Store, t: Thread, c: Choice)
    requires Unheard(s) && Deaf(s, t)
    ensures var n := Step(s, t, c);
      Unheard(n.s) && Deaf(n.s, n.t) && SameWork(s, n.s) && (n.s.row.status != s.row.status ==> n.s.row.status.Transcribing?)
  {
  }

  lemma {:induction false} DeafFold(s: Store, t: Thread, plan: Plan)
    requires Unheard(s) && Deaf(s, t)
    ensures var m := Fold(s, t, plan);
      Unheard(m.0) && Deaf(m.0, m.1) && SameWork(s, m.0) && (m.0.row.status != s.row.status ==> m.0.row.status.Transcribing?)
    decreases plan
  {
    if plan.Then? && !Ended(t) {
      DeafStep(s, t, plan.c);
      var n := Step(s, t, plan.c);
      Fold1(s, t, plan.c, plan.rest, n);
      DeafFold(n.s, n.t, plan.rest);
    }
  }

  /**
   An attempt on a job that has no transcript, or a blank one, and whose recording is not in storage gets no
   further than transcribing, whatever its calls answer: it writes no transcript, no report and no document,
   and its failure is never for good.
   */
  lemma NoRecordingNoWork(s: Store, user: UserId, plan: Plan)
    requires Unheard(s) && s.row.audioKey.Some? && s.row.owner == user
    ensures var m := Fold(s, Read(user), plan);
      && SameWork(s, m.0) && (m.0.row.status != s.row.status ==> m.0.row.status.Transcribing?)
      && (m.1.Thrown? ==> !m.1.unrecoverable)
  {
    DeafFold(s, Read(user), plan);
  }

  // ---- runs of the interleaving machine ----

  /** Worker i takes its next calls, with these outcomes. */
  function Along(i: nat, plan: Plan): seq<Safety.Move> {
    match plan
    case Crash => []
    case Then(c, rest) => [Safety.RunWorker(i, c)] + Along(i, rest)
  }

  predicate Punctual(plan: Plan) {
    plan.Then? ==> !plan.c.Timeout? && Punctual(plan.rest)
  }

  lemma {:induction false} RunPlus(y: Safety.Sys, a: seq<Safety.Move>, b: seq<Safety.Move>, attempts: nat)
    ensures Safety.Run(y, a + b, attempts) == Safety.Run(Safety.Run(y, a, attempts), b, attempts)
    decreases |a|
  {
    if a == [] {
      assert a + b == b;
    } else {
      assert (a + b)[1..] == a[1..] + b;
      RunPlus(Safety.Apply(y, a[0], attempts), a[1..], b, attempts);
    }
  }

  lemma EndedStays(s: Store, t: Thread, c: Choice)
    requires Ended(t)
    ensures Step(s, t, c) == Next(s, t, None)
  {
  }

  lemma PunctualStep(s: Store, t: Thread, c: Choice)
    requires !c.Timeout?
    ensures Step(s, t, c).late.None?
  {
  }

  /** A worker left to itself does what its thread does. */
  lemma {:induction false} AlongIsFold(y: Safety.Sys, i: nat, plan: Plan, attempts: nat)
    requires i < |y.workers| && Punctual(plan)
    ensures var m := Fold(y.s, y.workers[i], plan);
      Safety.Run(y, Along(i, plan), attempts) == y.(s := m.0, workers := y.workers[i := m.1])
    decreases plan
  {
    if plan.Crash? {
      assert y.workers[i := y.workers[i]] == y.workers;
    } else {
      var t := y.workers[i];
      var n := Step(y.s, t, plan.c);
      PunctualStep(y.s, t, plan.c);
      var y1 := y.(s := n.s, workers := y.workers[i := n.t]);
      assert Along(i, plan)[1..] == Along(i, plan.rest);
      assert Safety.Apply(y, Safety.RunWorker(i, plan.c), attempts) == y1;
      AlongIsFold(y1, i, plan.rest, attempts);
      if Ended(t) { EndedStays(y.s, t, plan.c); EndedFolds(y.s, t, plan.rest); }
      assert y1.workers[i := Fold(n.s, n.t, plan.rest).1] == y.workers[i := Fold(n.s, n.t, plan.rest).1];
    }
  }

  lemma EndedFolds(s: Store, t: Thread, plan: Plan)
    requires Ended(t)
    ensures Fold(s, t, plan) == (s, t)
  {
  }

  // ---- an entry delivered twice ----

  /** A transcription up to its answer. */
  function Hearing(text: string): Plan { Then(Ok, Then(Ok, Then(Ok, Then(Choice.Text(text), Crash)))) }

  function ShownTranscribing(s: Store): Store {
    AddEvent(SetStatus(s, Transcribing), Of(Transcribe), Started, None)
  }

  predicate CanHear(s: Store, user: UserId) {
    && !s.row.deleted && s.row.owner == user && !s.row.status.Ready? && s.row.transcript.None?
    && s.row.audioKey.Some? && s.row.audioKey.value in s.objects
  }

  function Heard(s: Store, user: UserId, text: string): Locals
    requires CanHear(s, user)
  {
    Locals(user, s.row.labelText, s.row.audioKey.value, Project(s.tree), Trim(text), [])
  }

  lemma Hears(s: Store, user: UserId, text: string)
    requires CanHear(s, user) && NonBlank(text)
    ensures Fold(s, Read(user), Hearing(text)) == (ShownTranscribing(s), Write(Transcribe, Heard(s, user, text), false))
    ensures Punctual(Hearing(text))
  {
    var l := Locals(user, s.row.labelText, s.row.audioKey.value, Project(s.tree), "", []);
    var s1 := SetStatus(s, Transcribing);
    var s2 := ShownTranscribing(s);
    var last := Then(Choice.Text(text), Crash);
    assert Punctual(last) && Punctual(Then(Ok, Then(Ok, last)));
    Fold1(s, Read(user), Ok, Then(Ok, Then(Ok, last)), Next(s, Enter(Transcribe, l), None));
    Fold1(s, Enter(Transcribe, l), Ok, Then(Ok, last), Next(s1, Begin(Transcribe, l), None));
    Fold1(s1, Begin(Transcribe, l), Ok, last, Next(s2, Work(Transcribe, l, false), None));
    Fold1(s2, Work(Transcribe, l, false), Choice.Text(text), Crash, Next(s2, Write(Transcribe, Heard(s, user, text), false), None));
  }

  const SAVE: Plan := Then(Ok, Crash)

  lemma Saves(s: Store, l: Locals)
    ensures Fold(s, Write(Transcribe, l, false), SAVE) == (SaveTranscript(s, l.transcript), Complete(Transcribe, l))
  {
    Fold1(s, Write(Transcribe, l, false), Ok, Crash, Next(SaveTranscript(s, l.transcript), Complete(Transcribe, l), None));
  }

  /** Two deliveries of one entry, the second after a stall, as far as the transcripts they save. */
  function TwiceDelivered(a: string, b: string): seq<Safety.Move> {
    [Safety.Deliver, Safety.Deliver]
    + (Along(0, Hearing(a)) + (Along(1, Hearing(b)) + (Along(0, SAVE) + Along(1, SAVE))))
  }

  /**
   The work of a job is done once as long as its deliveries do not overlap. When the queue takes a worker for
   stalled that is not, the entry is delivered again: both attempts transcribe, and the later save wins.
   */
  lemma StallRepeatsWork(s: Store, a: string, b: string, attempts: nat)
    requires CoreInv(s) && Live(s) && !s.row.status.Ready? && s.row.transcript.None? && NonBlank(a) && NonBlank(b)
    ensures var r := Safety.Run(Safety.Sys(s, [], []), TwiceDelivered(a, b), attempts).s;
      r.saved == [Trim(a), Trim(b)] && r.row.transcript == Some(Trim(b))
  {
    var user := s.row.owner;
    var s0 := Activate(s);
    var y2 := Safety.Sys(s0, [Read(user), Read(user)], []);
    assert DeliveredTwice(s, attempts) == y2;
    RunPlus(Safety.Sys(s, [], []), [Safety.Deliver, Safety.Deliver],
            Along(0, Hearing(a)) + (Along(1, Hearing(b)) + (Along(0, SAVE) + Along(1, SAVE))), attempts);
    TwoDeliveries(s, attempts);
    var s1, la := ShownTranscribing(s0), Heard(s0, user, a);
    Hears(s0, user, a);
    AlongIsFold(y2, 0, Hearing(a), attempts);
    var y3 := Safety.Sys(s1, [Write(Transcribe, la, false), Read(user)], []);
    assert Safety.Run(y2, Along(0, Hearing(a)), attempts) == y3;
    RunPlus(y2, Along(0, Hearing(a)), Along(1, Hearing(b)) + (Along(0, SAVE) + Along(1, SAVE)), attempts);
    SecondHears(y3, a, b, attempts);
  }

  function DeliveredTwice(s: Store, attempts: nat): Safety.Sys {
    Safety.Apply(Safety.Apply(Safety.Sys(s, [], []), Safety.Deliver, attempts), Safety.Deliver, attempts)
  }

  lemma TwoDeliveries(s: Store, attempts: nat)
    ensures Safety.Run(Safety.Sys(s, [], []), [Safety.Deliver, Safety.Deliver], attempts) == DeliveredTwice(s, attempts)
  {
    assert [Safety.Deliver, Safety.Deliver][1..] == [Safety.Deliver];
    assert [Safety.Deliver][1..] == [];
  }

  lemma SecondHears(y: Safety.Sys, a: string, b: string, attempts: nat)
    requires |y.workers| == 2 && y.workers[1] == Read(y.s.row.owner) && CanHear(y.s, y.s.row.owner) && NonBlank(b)
    requires y.workers[0].Write? && y.workers[0].stage.Transcribe? && !y.workers[0].late && y.workers[0].l.transcript == Trim(a)
    requires y.s.saved == []
    ensures var r := Safety.Run(y, Along(1, Hearing(b)) + (Along(0, SAVE) + Along(1, SAVE)), attempts).s;
      r.saved == [Trim(a), Trim(b)] && r.row.transcript == Some(Trim(b))
  {
    var la, lb := y.workers[0].l, Heard(y.s, y.s.row.owner, b);
    Hears(y.s, y.s.row.owner, b);
    AlongIsFold(y, 1, Hearing(b), attempts);
    var y1 := Safety.Run(y, Along(1, Hearing(b)), attempts);
    RunPlus(y, Along(1, Hearing(b)), Along(0, SAVE) + Along(1, SAVE), attempts);
    Saves(y1.s, la);
    AlongIsFold(y1, 0, SAVE, attempts);
    RunPlus(y1, Along(0, SAVE), Along(1, SAVE), attempts);
    var y2 := Safety.Run(y1, Along(0, SAVE), attempts);
    Saves(y2.s, lb);
    AlongIsFold(y2, 1, SAVE, attempts);
  }

  // ---- a failed job that becomes READY ----

  /** Three calls, and four, that return; c is what they return with. */
  function Three(c: Choice): Plan { Then(c, Then(c, Then(c, Crash))) }

  function Four(c: Choice): Plan { Then(c, Three(c)) }

  predicate Returns(c: Choice) { !c.Throw? && !c.Timeout? }

  lemma ReturnsInTime(c: Choice)
    requires Returns(c)
    ensures Punctual(Three(c)) && Punctual(Four(c))
  {
    assert Punctual(Then(c, Then(c, Crash)));
  }

  predicate CanRender(s: Store) {
    && !s.row.deleted && !s.row.status.Ready? && s.row.audioKey.Some?
    && s.row.transcript.Some? && NonBlank(s.row.transcript.value) && Project(s.tree) != []
  }

  function Rendered(s: Store): Locals {
    Locals(s.row.owner, s.row.labelText, s.row.audioKey.GetOr(AudioKey(s.row.owner, s.row.id)), Project(s.tree),
           s.row.transcript.GetOr(""), Project(s.tree))
  }

  function ShownRendering(s: Store): Store {
    AddEvent(SetStatus(s, Rendering), Of(Render), Started, None)
  }

  lemma ComesToRender(s: Store, c: Choice)
    requires CanRender(s) && Returns(c)
    ensures Fold(s, Read(s.row.owner), Three(c)) == (ShownRendering(s), Work(Render, Rendered(s), false))
  {
    var user := s.row.owner;
    var l, s1, s2 := Rendered(s), SetStatus(s, Rendering), ShownRendering(s);
    Fold1(s, Read(user), c, Then(c, Then(c, Crash)), Next(s, Enter(Render, l), None));
    Fold1(s, Enter(Render, l), c, Then(c, Crash), Next(s1, Begin(Render, l), None));
    Fold1(s1, Begin(Render, l), c, Crash, Next(s2, Work(Render, l, false), None));
  }

  function Letter(s: Store): DeadLetter
    requires s.entry.Some?
  {
    DeadLetter(s.row.id, s.entry.value.user, STAGE_TIMEOUT, s.entry.value.made + 1)
  }

  /** The job has failed for good, and the body its last attempt left behind is still at work. */
  predicate FailedForGood(s: Store, y: Safety.Sys)
    requires s.entry.Some?
  {
    && y.s.row == s.row.(status := Status.Failed, error := Some(STAGE_TIMEOUT)) && y.s.dlq == s.dlq + [Letter(s)]
    && y.s.entry == Some(s.entry.value.(made := s.entry.value.made + 1, state := Dead))
    && |y.workers| == 2 && y.workers[1].Work? && y.workers[1].stage.Render? && y.workers[1].late && y.workers[1].l.user == s.row.owner
  }

  /**
   FAILED is not final either. A rendering that times out in the last attempt fails the job for good, with its
   event and its dead letter, once the handler has run; and when the renderer answers after all, the body left
   behind publishes the document and turns the same job READY.
   */
  lemma LateBodyRevivesFailedJob(s: Store, c: Choice, attempts: nat) returns (failing: seq<Safety.Move>, late: seq<Safety.Move>)
    requires Live(s) && s.entry.value.user == s.row.owner && CanRender(s) && s.entry.value.made + 1 >= s.entry.value.attempts
    requires Returns(c)
    ensures
      var failed := Safety.Run(Safety.Sys(s, [], []), failing, attempts);
      var r := Safety.Run(failed, late, attempts).s;
      && FailedForGood(s, failed)
      && r.row.status.Ready? && r.row.error.None? && r.row.pdfKey == Some(PdfKey(s.row.owner, s.row.id))
      && r.dlq == failed.s.dlq && r.entry == failed.s.entry && r.events == failed.s.events
  {
    var m, y1 := DeliversUntilRendered(s, c, attempts);
    var n, y2 := FailsForGood(s, y1, c, attempts);
    JoinRuns(Safety.Sys(s, [], []), m, y1, n, y2, attempts);
    failing := m + n;
    late := LateWrites(y2, c, attempts);
  }

  /** The job's entry is with its one worker, which has come to the rendering. */
  predicate AtRendering(s: Store, y: Safety.Sys)
    requires s.entry.Some?
  {
    && y.s.row == s.row.(status := Rendering) && y.s.dlq == s.dlq && y.s.entry == Some(s.entry.value.(state := Active))
    && |y.workers| == 1 && y.workers[0].Work? && y.workers[0].stage.Render? && !y.workers[0].late && y.workers[0].l.user == s.row.owner
  }

  lemma FailsForGood(s: Store, y: Safety.Sys, c: Choice, attempts: nat) returns (moves: seq<Safety.Move>, y': Safety.Sys)
    requires s.entry.Some? && s.entry.value.made + 1 >= s.entry.value.attempts && AtRendering(s, y) && Returns(c)
    ensures y' == Safety.Run(y, moves, attempts) && FailedForGood(s, y')
  {
    moves, y' := TimesOutForGood(y, c, attempts);
  }

  lemma JoinRuns(y0: Safety.Sys, a: seq<Safety.Move>, y1: Safety.Sys, b: seq<Safety.Move>, y2: Safety.Sys, attempts: nat)
    requires y1 == Safety.Run(y0, a, attempts) && y2 == Safety.Run(y1, b, attempts)
    ensures y2 == Safety.Run(y0, a + b, attempts)
  {
    RunPlus(y0, a, b, attempts);
  }

  lemma DeliversUntilRendered(s: Store, c: Choice, attempts: nat) returns (moves: seq<Safety.Move>, y: Safety.Sys)
    requires Live(s) && s.entry.value.user == s.row.owner && CanRender(s) && Returns(c)
    ensures y == Safety.Run(Safety.Sys(s, [], []), moves, attempts) && AtRendering(s, y)
  {
    var m, y1 := Delivers(s, attempts);
    var n;
    n, y := ReadsUntilRendered(y1, c, attempts);
    JoinRuns(Safety.Sys(s, [], []), m, y1, n, y, attempts);
    moves := m + n;
  }

  lemma TimesOutForGood(y: Safety.Sys, c: Choice, attempts: nat) returns (moves: seq<Safety.Move>, y': Safety.Sys)
    requires Returns(c) && |y.workers| == 1 && y.workers[0].Work? && y.workers[0].stage.Render? && !y.workers[0].late
    requires y.s.entry.Some? && y.s.entry.value.made + 1 >= y.s.entry.value.attempts && !y.s.row.status.Failed?
    ensures var e := y.s.entry.value;
      && y' == Safety.Run(y, moves, attempts) && y'.workers == [Gone, Work(Render, y.workers[0].l, true)]
      && y'.s.row == y.s.row.(status := Status.Failed, error := Some(STAGE_TIMEOUT))
      && y'.s.entry == Some(e.(made := e.made + 1, state := Dead))
      && y'.s.dlq == y.s.dlq + [DeadLetter(y.s.row.id, e.user, STAGE_TIMEOUT, e.made + 1)]
  {
    var m, y1 := TimesOut(y, c, attempts);
    var n;
    n, y' := HandlerRuns(y1, c, attempts);
    JoinRuns(y, m, y1, n, y', attempts);
    moves := m + n;
  }

  lemma Delivers(s: Store, attempts: nat) returns (moves: seq<Safety.Move>, y: Safety.Sys)
    requires Live(s)
    ensures y == Safety.Run(Safety.Sys(s, [], []), moves, attempts) == Safety.Sys(Activate(s), [Read(s.entry.value.user)], [])
  {
    moves := [Safety.Deliver];
    y := Safety.Sys(Activate(s), [Read(s.entry.value.user)], []);
    assert [Safety.Deliver][1..] == [];
    assert Safety.Apply(Safety.Sys(s, [], []), Safety.Deliver, attempts) == y;
  }

  lemma ReadsUntilRendered(y: Safety.Sys, c: Choice, attempts: nat) returns (moves: seq<Safety.Move>, y': Safety.Sys)
    requires Returns(c) && CanRender(y.s) && y.workers == [Read(y.s.row.owner)] && y.requests == []
    ensures y' == Safety.Run(y, moves, attempts) && y'.s == ShownRendering(y.s) && |y'.workers| == 1
    ensures var t := y'.workers[0]; t.Work? && t.stage.Render? && !t.late && t.l.user == y.s.row.owner
  {
    ComesToRender(y.s, c);
    ReturnsInTime(c);
    AlongIsFold(y, 0, Three(c), attempts);
    moves := Along(0, Three(c));
    y' := Safety.Run(y, moves, attempts);
  }

  lemma TimesOut(y: Safety.Sys, c: Choice, attempts: nat) returns (moves: seq<Safety.Move>, y': Safety.Sys)
    requires Returns(c) && |y.workers| == 1 && y.workers[0].Work? && y.workers[0].stage.Render? && !y.workers[0].late
    requires y.s.entry.Some? && y.s.entry.value.made + 1 >= y.s.entry.value.attempts
    ensures var e := y.s.entry.value;
      && y' == Safety.Run(y, moves, attempts)
      && y'.workers == [MarkRead(STAGE_TIMEOUT, ByHandler(e.user, e.made + 1)), Work(Render, y.workers[0].l, true)]
      && y'.s.entry == Some(e.(made := e.made + 1, state := Dead)) && y'.s.row == y.s.row && y'.s.dlq == y.s.dlq
  {
    moves := [Safety.RunWorker(0, Timeout), Safety.RunWorker(0, c), Safety.Settle(0)];
    var l, e := y.workers[0].l, y.s.entry.value;
    var y1 := Safety.Apply(y, moves[0], attempts);
    assert y1 == y.(workers := [Fault(Render, Err(STAGE_TIMEOUT, false)), Work(Render, l, true)]);
    var y2 := Safety.Apply(y1, moves[1], attempts);
    assert y2.workers == [Thrown(STAGE_TIMEOUT, false), Work(Render, l, true)];
    assert y2.s.entry == y.s.entry && y2.s.row == y.s.row && y2.s.dlq == y.s.dlq;
    y' := Safety.Apply(y2, moves[2], attempts);
    assert y'.workers == [MarkRead(STAGE_TIMEOUT, ByHandler(e.user, e.made + 1)), Work(Render, l, true)];
    ThreeMoves(y, moves, attempts);
  }

  lemma ThreeMoves(y: Safety.Sys, moves: seq<Safety.Move>, attempts: nat)
    requires |moves| == 3
    ensures Safety.Run(y, moves, attempts)
         == Safety.Apply(Safety.Apply(Safety.Apply(y, moves[0], attempts), moves[1], attempts), moves[2], attempts)
  {
    var y1 := Safety.Apply(y, moves[0], attempts);
    assert Safety.Run(y, moves, attempts) == Safety.Run(y1, moves[1..], attempts);
    var y2 := Safety.Apply(y1, moves[1..][0], attempts);
    assert Safety.Run(y1, moves[1..], attempts) == Safety.Run(y2, moves[1..][1..], attempts);
  }

  lemma HandlerFails(s: Store, msg: string, user: UserId, made: nat, c: Choice)
    requires !s.row.status.Failed? && Returns(c)
    ensures var m := Fold(s, MarkRead(msg, ByHandler(user, made)), Four(c));
      && m.1.Gone? && m.0.row == s.row.(status := Status.Failed, error := Some(Cut(msg)))
      && m.0.dlq == s.dlq + [DeadLetter(s.row.id, user, msg, made)] && m.0.entry == s.entry
  {
    var from := ByHandler(user, made);
    var s1 := SetStatusError(s, Status.Failed, Some(Cut(msg)));
    var s2 := AddEvent(s1, Whole, Errored, Some(Cut(msg)));
    Fold1(s, MarkRead(msg, from), c, Three(c), Next(s, MarkSet(msg, from), None));
    Fold1(s, MarkSet(msg, from), c, Then(c, Then(c, Crash)), Next(s1, MarkEvent(msg, from), None));
    Fold1(s1, MarkEvent(msg, from), c, Then(c, Crash), Next(s2, Park(msg, user, made), None));
    Fold1(s2, Park(msg, user, made), c, Crash, Next(s2.(dlq := s2.dlq + [DeadLetter(s.row.id, user, msg, made)]), Gone, None));
  }

  lemma HandlerRuns(y: Safety.Sys, c: Choice, attempts: nat) returns (moves: seq<Safety.Move>, y': Safety.Sys)
    requires Returns(c) && |y.workers| == 2 && !y.s.row.status.Failed?
    requires y.workers[0].MarkRead? && y.workers[0].msg == STAGE_TIMEOUT && y.workers[0].from.ByHandler?
    ensures var from := y.workers[0].from;
      && y' == Safety.Run(y, moves, attempts) && y'.workers == [Gone, y.workers[1]]
      && y'.s.row == y.s.row.(status := Status.Failed, error := Some(STAGE_TIMEOUT)) && y'.s.entry == y.s.entry
      && y'.s.dlq == y.s.dlq + [DeadLetter(y.s.row.id, from.user, STAGE_TIMEOUT, from.made)]
  {
    var from := y.workers[0].from;
    ReturnsInTime(c);
    HandlerFails(y.s, STAGE_TIMEOUT, from.user, from.made, c);
    AlongIsFold(y, 0, Four(c), attempts);
    moves := Along(0, Four(c));
    y' := Safety.Run(y, moves, attempts);
  }

  lemma LateWrites(y: Safety.Sys, c: Choice, attempts: nat) returns (moves: seq<Safety.Move>)
    requires Returns(c) && |y.workers| == 2
    requires y.workers[1].Work? && y.workers[1].stage.Render? && y.workers[1].late
    ensures var r := Safety.Run(y, moves, attempts).s;
      && r.row.status.Ready? && r.row.error.None? && r.row.pdfKey == Some(PdfKey(y.workers[1].l.user, y.s.row.id))
      && r.dlq == y.s.dlq && r.entry == y.s.entry && r.events == y.s.events
  {
    LateDocument(y.s, y.workers[1].l, c);
    ReturnsInTime(c);
    AlongIsFold(y, 1, Three(c), attempts);
    moves := Along(1, Three(c));
  }
}
