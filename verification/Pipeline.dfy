/**
 The worker's pipeline as a step machine over one job: its row, report rows, event log, stored
 objects, queue entry and dead letters. A Thread is a point between two awaited calls of
 PipelineService.process, of a timed-out stage body, or of the failure handler; Step runs the
 next awaited call with the outcome chosen for it. An attempt that stops before its thread ends
 is a crash at that point.
 */
module Pipeline {
  import opened Basics
  import opened Text
  import opened ReportTree
  import opened ReportCompiler

  // ---- data ----

  datatype Status = Created | Uploading | Queued | Transcribing | Compiling | Rendering | Ready | Failed

  /** IN_FLIGHT: statuses that mean the pipeline is already running. */
  predicate InFlight(s: Status) {
    s.Queued? || s.Transcribing? || s.Compiling? || s.Rendering?
  }

  /** Object keys audio/<user>/<job>.m4a and pdf/<user>/<job>.pdf. */
  datatype Key = AudioKey(user: UserId, job: JobId) | PdfKey(user: UserId, job: JobId)

  /** A recording, or a document together with the view it was rendered from. */
  datatype Object = Audio(content: nat) | Pdf(labelText: string, sections: seq<SectionInput>)

  datatype Row = Row(
    id: JobId, owner: UserId, labelText: string, status: Status, transcript: Option<string>,
    audioKey: Option<Key>, pdfKey: Option<Key>, error: Option<string>,
    idempotencyKey: Option<string>, deleted: bool)

  datatype Stage = Transcribe | Compile | Render
  datatype EventStage = Of(stage: Stage) | Whole
  datatype EventStatus = Started | Completed | Errored
  datatype Event = Event(stage: EventStage, status: EventStatus, message: Option<string>)

  datatype EntryState = Waiting | Active | Done | Dead
  datatype Entry = Entry(user: UserId, attempts: nat, made: nat, state: EntryState)
  datatype DeadLetter = DeadLetter(job: JobId, user: UserId, error: string, made: nat)

  /**
   Everything the program keeps for one job. `saved` and `committed` are history: the
   transcripts and reports the worker ever wrote; no code reads them.
   */
  datatype Store = Store(
    row: Row, tree: seq<SectionRec>, nextId: RowId, events: seq<Event>, objects: map<Key, Object>,
    entry: Option<Entry>, dlq: seq<DeadLetter>,
    saved: seq<string>, committed: seq<seq<SectionInput>>)

  // ---- threads ----

  /** What an attempt has read or computed so far. */
  datatype Locals = Locals(
    user: UserId, labelText: string, audioKey: Key, existing: seq<SectionInput>,
    transcript: string, sections: seq<SectionInput>)

  datatype Err = Err(msg: string, permanent: bool)

  /** Who called markFailed: process itself, or the failure handler of a finished attempt. */
  datatype Caller = ByAttempt | ByHandler(user: UserId, made: nat)

  datatype Thread =
    | Read(user: UserId)                          // findById
    | Enter(stage: Stage, l: Locals)              // runStage: setStatus
    | Begin(stage: Stage, l: Locals)              // runStage: addEvent started
    | Work(stage: Stage, l: Locals, late: bool)   // body: the foreign call
    | Write(stage: Stage, l: Locals, late: bool)  // body: saveTranscript, replaceReport, putObject
    | Publish(l: Locals, late: bool)              // body: setPdfReady
    | Complete(stage: Stage, l: Locals)           // runStage: addEvent completed
    | Fault(stage: Stage, err: Err)               // runStage: addEvent failed
    | MarkRead(msg: string, from: Caller)         // markFailed: rawById
    | MarkSet(msg: string, from: Caller)          // markFailed: setStatus
    | MarkEvent(msg: string, from: Caller)        // markFailed: addEvent
    | Park(msg: string, user: UserId, made: nat)  // handleFailure: dlq.add
    | Finished                                    // process returned
    | Thrown(msg: string, unrecoverable: bool)    // process threw
    | Gone                                        // a late body or a handler is over

  /** Outcome of the awaited call a thread is at. */
  datatype Choice =
    | Ok
    | Throw(msg: string)
    | Timeout
    | Text(text: string)
    | Replies(first: Reply, second: Reply)

  /** `late`: the body that keeps running after its stage timed out. */
  datatype Next = Next(s: Store, t: Thread, late: Option<Thread>)

  predicate Ended(t: Thread) {
    t.Finished? || t.Thrown? || t.Gone?
  }

  // ---- messages ----

  const OWNER_MISMATCH := "owner mismatch; refusing to process."
  const NO_AUDIO_KEY := "has no audio key; cannot process."
  const NO_REPLY := "the call did not return"
  const EMPTY_TRANSCRIPT := "Transcription produced no text"
  const STAGE_TIMEOUT := "Stage exceeded its timeout"

  // ---- row and event writes ----

  function SetStatus(s: Store, status: Status): Store {
    s.(row := s.row.(status := status))
  }

  function SetStatusError(s: Store, status: Status, error: Option<string>): Store {
    s.(row := s.row.(status := status, error := error))
  }

  function AddEvent(s: Store, stage: EventStage, status: EventStatus, message: Option<string>): Store {
    s.(events := s.events + [Event(stage, status, message)])
  }

  function SaveTranscript(s: Store, transcript: string): Store {
    s.(row := s.row.(transcript := Some(transcript)), saved := s.saved + [transcript])
  }

  /** replaceReport's transaction: delete the old rows, insert the new ones. */
  function Replaced(s: Store, sections: seq<SectionInput>): Store {
    s.(tree := Inserted(sections, s.nextId), nextId := NextId(sections, s.nextId))
  }

  function ReplaceReport(s: Store, sections: seq<SectionInput>): Store {
    Replaced(s, sections).(committed := s.committed + [sections])
  }

  function PutPdf(s: Store, l: Locals): Store {
    s.(objects := s.objects[PdfKey(l.user, s.row.id) := Pdf(l.labelText, l.sections)])
  }

  function SetPdfReady(s: Store, l: Locals): Store {
    s.(row := s.row.(pdfKey := Some(PdfKey(l.user, s.row.id)), status := Ready, error := None))
  }

  function StatusOf(stage: Stage): Status {
    match stage
    case Transcribe => Transcribing
    case Compile => Compiling
    case Render => Rendering
  }

  // ---- control flow between awaited calls ----

  /** process after findById returned the job. */
  function AfterRead(s: Store, user: UserId): Thread {
    var row := s.row;
    if row.deleted then Finished
    else if row.owner != user then Thrown(OWNER_MISMATCH, true)
    else if row.status.Ready? then Finished
    else if row.audioKey.None? then Thrown(NO_AUDIO_KEY, true)
    else
      var l := Locals(user, row.labelText, row.audioKey.value, Project(s.tree), "", []);
      if row.transcript.Some? && NonBlank(row.transcript.value)
      then AfterTranscribe(l.(transcript := row.transcript.value))
      else Enter(Transcribe, l)
  }

  function AfterTranscribe(l: Locals): Thread {
    if l.existing != [] then Enter(Render, l.(sections := l.existing)) else Enter(Compile, l)
  }

  function AfterStage(stage: Stage, l: Locals): Thread {
    match stage
    case Transcribe => AfterTranscribe(l)
    case Compile => Enter(Render, l)
    case Render => Finished
  }

  /** The catch block of process. */
  function Raise(err: Err): Thread {
    if err.permanent then MarkRead(err.msg, ByAttempt) else Thrown(err.msg, false)
  }

  /** A stage body throws: the stage catches it, unless the stage is long over. */
  function BodyThrows(stage: Stage, err: Err, late: bool): Thread {
    if late then Gone else Fault(stage, err)
  }

  function MarkReturns(msg: string, from: Caller): Thread {
    match from
    case ByAttempt => Thrown(msg, true)
    case ByHandler(user, made) => Park(msg, user, made)
  }

  function MarkThrows(msg: string, from: Caller): Thread {
    match from
    case ByAttempt => Thrown(msg, false)
    case ByHandler(_, _) => Gone
  }

  // ---- one awaited call ----

  /** Writes succeed unless their outcome is Throw; a foreign call without its reply throws. */
  function Step(s: Store, t: Thread, c: Choice): Next {
    match t
    case Read(user) =>
      Next(s, if c.Throw? then Thrown(c.msg, false) else AfterRead(s, user), None)
    case Enter(stage, l) =>
      if c.Throw? then Next(s, Raise(Err(c.msg, false)), None)
      else Next(SetStatus(s, StatusOf(stage)), Begin(stage, l), None)
    case Begin(stage, l) =>
      if c.Throw? then Next(s, Raise(Err(c.msg, false)), None)
      else Next(AddEvent(s, Of(stage), Started, None), Work(stage, l, false), None)
    case Work(_, _, _) => StepBody(s, t, c)
    case Write(_, _, _) => StepBody(s, t, c)
    case Publish(_, _) => StepBody(s, t, c)
    case Complete(stage, l) =>
      if c.Throw? then Next(s, Fault(stage, Err(c.msg, false)), None)
      else Next(AddEvent(s, Of(stage), Completed, None), AfterStage(stage, l), None)
    case Fault(stage, err) =>
      if c.Throw? then Next(s, Raise(Err(c.msg, false)), None)
      else Next(AddEvent(s, Of(stage), Errored, Some(Cut(err.msg))), Raise(err), None)
    case MarkRead(msg, from) =>
      if c.Throw? then Next(s, MarkThrows(c.msg, from), None)
      else if s.row.status.Failed? then Next(s, MarkReturns(msg, from), None)
      else Next(s, MarkSet(msg, from), None)
    case MarkSet(msg, from) =>
      if c.Throw? then Next(s, MarkThrows(c.msg, from), None)
      else Next(SetStatusError(s, Status.Failed, Some(Cut(msg))), MarkEvent(msg, from), None)
    case MarkEvent(msg, from) =>
      if c.Throw? then Next(s, MarkThrows(c.msg, from), None)
      else Next(AddEvent(s, Whole, Errored, Some(Cut(msg))), MarkReturns(msg, from), None)
    case Park(msg, user, made) =>
      Next(if c.Throw? then s else s.(dlq := s.dlq + [DeadLetter(s.row.id, user, msg, made)]), Gone, None)
    case _ => Next(s, t, None)
  }

  predicate InBody(t: Thread) {
    t.Work? || t.Write? || t.Publish?
  }

  function StageOf(t: Thread): Stage
    requires InBody(t)
  {
    if t.Publish? then Render else t.stage
  }

  /** Calls inside a stage body race against the stage timer; the loser is not cancelled. */
  function StepBody(s: Store, t: Thread, c: Choice): Next
    requires InBody(t)
  {
    if c.Throw? then Next(s, BodyThrows(StageOf(t), Err(c.msg, false), t.late), None)
    else if c.Timeout? && !t.late then
      Next(s, Fault(StageOf(t), Err(STAGE_TIMEOUT, false)), Some(t.(late := true)))
    else if t.Work? then Next(s, StepWork(s, t.stage, t.l, t.late, c), None)
    else if t.Write? then StepWrite(s, t.stage, t.l, t.late)
    else Next(SetPdfReady(s, t.l), if t.late then Gone else Complete(Render, t.l), None)
  }

  /** The foreign calls: speech-to-text, the compiler, the PDF renderer. They write nothing. */
  function StepWork(s: Store, stage: Stage, l: Locals, late: bool, c: Choice): Thread {
    match stage
    case Transcribe =>
      if l.audioKey !in s.objects || !c.Text? then BodyThrows(stage, Err(NO_REPLY, false), late)
      else if Trim(c.text) == "" then BodyThrows(stage, Err(EMPTY_TRANSCRIPT, true), late)
      else Write(stage, l.(transcript := Trim(c.text)), late)
    case Compile =>
      if !c.Replies? then BodyThrows(stage, Err(NO_REPLY, false), late)
      else
        (match ReportCompiler.Compile(c.first, c.second)
         case Failure(msg) => BodyThrows(stage, Err(msg, true), late)
         case Success(sections) => Write(stage, l.(sections := sections), late))
    case Render => Write(stage, l, late)
  }

  /** The first write of each body. */
  function StepWrite(s: Store, stage: Stage, l: Locals, late: bool): Next {
    var over := if late then Gone else Complete(stage, l);
    match stage
    case Transcribe => Next(SaveTranscript(s, l.transcript), over, None)
    case Compile => Next(ReplaceReport(s, l.sections), over, None)
    case Render => Next(PutPdf(s, l), Publish(l, late), None)
  }

  // ---- a whole thread ----

  /** The outcome of each awaited call in turn; at Crash the process dies. */
  datatype Plan = Crash | Then(c: Choice, rest: Plan)

  function Plus(p: Plan, q: Plan): Plan {
    match p
    case Crash => q
    case Then(c, rest) => Then(c, Plus(rest, q))
  }

  /** Run t along a plan. Bodies left behind by a timeout are dropped here. */
  function Fold(s: Store, t: Thread, plan: Plan): (Store, Thread)
    decreases plan
  {
    if plan.Crash? || Ended(t) then (s, t)
    else
      var n := Step(s, t, plan.c);
      Fold(n.s, n.t, plan.rest)
  }

  lemma {:induction false} FoldPlus(s: Store, t: Thread, p: Plan, q: Plan)
    ensures var m := Fold(s, t, p); Fold(s, t, Plus(p, q)) == Fold(m.0, m.1, q)
    decreases p
  {
    if p.Then? && !Ended(t) {
      var n := Step(s, t, p.c);
      FoldPlus(n.s, n.t, p.rest, q);
    }
  }

  lemma Fold1(s: Store, t: Thread, c: Choice, rest: Plan, n: Next)
    requires !Ended(t) && Step(s, t, c) == n
    ensures Fold(s, t, Then(c, rest)) == Fold(n.s, n.t, rest)
  {
  }
}
