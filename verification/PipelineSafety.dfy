/**
 One job under full concurrency: any number of attempts, bodies left running by a timeout, failure
 handlers and API requests interleave at every awaited call, any call may throw, and any thread may
 stop for ever. The invariants here hold in every reachable state.
 */
module PipelineSafety {
  import opened Basics
  import opened Text
  import opened ReportTree
  import opened Pipeline

  /** An API request between two awaited calls. */
  datatype Request =
    | ProcRead(user: UserId)                               // process: findScoped
    | ProcHead(user: UserId, first: Row, key: Key)         // process: objectExists
    | ProcSet(user: UserId, first: Row)                    // process: setStatus QUEUED
    | EnqLook(user: UserId, first: Row)                    // enqueueProcessing: getJob, getState
    | EnqRemove(user: UserId, first: Row)                  // enqueueProcessing: remove
    | EnqAdd(user: UserId, first: Row)                     // enqueueProcessing: add
    | ProcBack(user: UserId, first: Row)                   // process: the closing findScoped
    | Told(user: UserId, shown: Row, found: bool)          // process answered with this row
    | PatchRead(user: UserId, labelText: Option<string>, sections: Option<seq<SectionInput>>)
    | PatchWrite(user: UserId, labelText: Option<string>, sections: Option<seq<SectionInput>>)
    | RmRead(user: UserId)                                 // remove: findScoped
    | RmMark(user: UserId, keys: set<Key>)                 // remove: softDeleteScoped
    | RmObjects(user: UserId, keys: set<Key>)              // remove: deleteObjects
    | Over

  datatype Sys = Sys(s: Store, workers: seq<Thread>, requests: seq<Request>)

  datatype Move =
    | RunWorker(i: nat, c: Choice)
    | RunRequest(i: nat, c: Choice)
    | Call(r: Request)         // a user's request arrives
    | Upload(content: nat)     // the device PUTs the recording
    | Deliver                  // the queue hands the entry to a worker, also again after a stall
    | Settle(i: nat)           // the queue records how attempt i ended

  function Key0(s: Store): Key { AudioKey(s.row.owner, s.row.id) }

  function Keys(s: Store): set<Key> {
    (if s.row.audioKey.Some? then {s.row.audioKey.value} else {}) +
    (if s.row.pdfKey.Some? then {s.row.pdfKey.value} else {})
  }

  /** findScoped: the row is visible to its owner until it is soft-deleted. */
  predicate Visible(s: Store, user: UserId) {
    s.row.owner == user && !s.row.deleted
  }

  function ApplyLabel(s: Store, labelText: Option<string>): Store {
    if labelText.Some? then s.(row := s.row.(labelText := labelText.value)) else s
  }

  function StepRequest(s: Store, r: Request, c: Choice, attempts: nat): (Store, Request) {
    if r.Told? then (s, r)
    else if c.Throw? then (s, Over)
    else
      match r
      case ProcRead(user) =>
        if !Visible(s, user) then (s, Over)
        else if s.row.status.Ready? || InFlight(s.row.status) then (s, Told(user, s.row, true))
        else (s, ProcHead(user, s.row, s.row.audioKey.GetOr(AudioKey(user, s.row.id))))
      case ProcHead(user, first, key) => if key in s.objects then (s, ProcSet(user, first)) else (s, Over)
      case ProcSet(user, first) => (SetStatusError(s, Queued, None), EnqLook(user, first))
      case EnqLook(user, first) =>
        if s.entry.None? then (s, EnqAdd(user, first))
        else if s.entry.value.state.Done? || s.entry.value.state.Dead? then (s, EnqRemove(user, first))
        else (s, ProcBack(user, first))
      case EnqRemove(user, first) =>
        if s.entry.Some? && s.entry.value.state.Active? then (s, Over) else (s.(entry := None), EnqAdd(user, first))
      case EnqAdd(user, first) =>
        (if s.entry.Some? then s else s.(entry := Some(Entry(user, attempts, 0, Waiting))), ProcBack(user, first))
      case ProcBack(user, first) =>
        (s, if Visible(s, user) then Told(user, s.row, true) else Told(user, first, false))
      case PatchRead(user, labelText, sections) =>
        if Visible(s, user) then (s, PatchWrite(user, labelText, sections)) else (s, Over)
      case PatchWrite(user, labelText, sections) =>
        if !Visible(s, user) then (s, Over)
        else if sections.None? then (ApplyLabel(s, labelText), Over)
        else (ApplyLabel(Replaced(s, sections.value), labelText), Over)
      case RmRead(user) => if Visible(s, user) then (s, RmMark(user, Keys(s))) else (s, Over)
      case RmMark(user, keys) =>
        if Visible(s, user) then (s.(row := s.row.(deleted := true)), RmObjects(user, keys)) else (s, Over)
      case RmObjects(_, keys) => (s.(objects := s.objects - keys), Over)
      case _ => (s, r)
  }

  /** handleFailure's decision, taken on what the queue knows after the attempt. */
  predicate Terminal(e: Entry, unrecoverable: bool) {
    unrecoverable || e.made >= e.attempts
  }

  /** The queue's bookkeeping after an attempt, and the handler it starts. */
  function SettleEntry(s: Store, t: Thread): (Store, Thread)
    requires t.Finished? || t.Thrown?
  {
    if s.entry.None? then (s, Gone)
    else if t.Finished? then (s.(entry := Some(s.entry.value.(state := Done))), Gone)
    else
      var e := s.entry.value.(made := s.entry.value.made + 1);
      var e' := e.(state := if Terminal(e, t.unrecoverable) then Dead else Waiting);
      (s.(entry := Some(e')), if Terminal(e, t.unrecoverable) then MarkRead(t.msg, ByHandler(e.user, e.made)) else Gone)
  }

  function Apply(y: Sys, m: Move, attempts: nat): Sys {
    match m
    case RunWorker(i, c) =>
      if i >= |y.workers| then y
      else
        var n := Step(y.s, y.workers[i], c);
        var ws := y.workers[i := n.t];
        y.(s := n.s, workers := if n.late.Some? then ws + [n.late.value] else ws)
    case RunRequest(i, c) =>
      if i >= |y.requests| then y
      else
        var n := StepRequest(y.s, y.requests[i], c, attempts);
        y.(s := n.0, requests := y.requests[i := n.1])
    case Call(r) =>
      if r.ProcRead? || r.PatchRead? || r.RmRead? then y.(requests := y.requests + [r]) else y
    case Upload(content) => y.(s := y.s.(objects := y.s.objects[Key0(y.s) := Audio(content)]))
    case Deliver =>
      if y.s.entry.None? || y.s.entry.value.state.Done? || y.s.entry.value.state.Dead? then y
      else
        var e := y.s.entry.value;
        y.(s := y.s.(entry := Some(e.(state := Active))), workers := y.workers + [Read(e.user)])
    case Settle(i) =>
      if i >= |y.workers| || !(y.workers[i].Finished? || y.workers[i].Thrown?) then y
      else
        var n := SettleEntry(y.s, y.workers[i]);
        y.(s := n.0, workers := y.workers[i := n.1])
  }

  function Run(y: Sys, moves: seq<Move>, attempts: nat): Sys
    decreases |moves|
  {
    if moves == [] then y else Run(Apply(y, moves[0], attempts), moves[1..], attempts)
  }

  /** createDraft. */
  function Draft(id: JobId, owner: UserId, labelText: string, idempotencyKey: Option<string>): Store {
    Store(Row(id, owner, labelText, Created, None, Some(AudioKey(owner, id)), None, None, idempotencyKey, false),
          [], 0, [], map[], None, [], [], [])
  }

  // ---- invariants ----

  predicate AudioSafe(s: Store) {
    s.row.deleted || Key0(s) in s.objects
  }

  predicate PdfSafe(s: Store) {
    var k := PdfKey(s.row.owner, s.row.id);
    s.row.deleted || (k in s.objects && s.objects[k].Pdf?)
  }

  ghost predicate StoreInv(s: Store) {
    var row := s.row;
    && row.audioKey == Some(Key0(s))
    && (PdfKey(row.owner, row.id) in s.objects ==> s.objects[PdfKey(row.owner, row.id)].Pdf?)
    && (row.pdfKey.Some? ==> row.pdfKey.value == PdfKey(row.owner, row.id) && row.transcript.Some? && PdfSafe(s))
    && (row.transcript.Some? ==> NonBlank(row.transcript.value))
    && (row.status.Ready? ==> row.pdfKey.Some? && row.error.None?)
    && (row.status.Failed? ==> row.error.Some? && |row.error.value| <= 1000)
    && (InFlight(row.status) ==> AudioSafe(s))
    && (s.entry.Some? ==> s.entry.value.user == row.owner && AudioSafe(s))
    && WellNumbered(s.tree)
  }

  ghost predicate LocalsInv(s: Store, stage: Stage, l: Locals) {
    && l.user == s.row.owner && AudioSafe(s)
    && (!stage.Transcribe? ==> s.row.transcript.Some?)
  }

  ghost predicate ThreadInv(s: Store, t: Thread) {
    match t
    case Read(user) => user == s.row.owner && AudioSafe(s)
    case Enter(stage, l) => LocalsInv(s, stage, l)
    case Begin(stage, l) => LocalsInv(s, stage, l)
    case Work(stage, l, _) => LocalsInv(s, stage, l)
    case Write(stage, l, _) => LocalsInv(s, stage, l) && (stage.Transcribe? ==> NonBlank(l.transcript))
    case Publish(l, _) => LocalsInv(s, Render, l) && PdfSafe(s)
    case Complete(_, l) => LocalsInv(s, Compile, l)
    case _ => true
  }

  ghost predicate RequestInv(s: Store, r: Request) {
    match r
    case ProcHead(user, _, key) => user == s.row.owner && key == Key0(s)
    case ProcSet(user, _) => user == s.row.owner && AudioSafe(s)
    case EnqLook(user, _) => user == s.row.owner && AudioSafe(s)
    case EnqRemove(user, _) => user == s.row.owner && AudioSafe(s)
    case EnqAdd(user, _) => user == s.row.owner && AudioSafe(s)
    case RmObjects(user, _) => user == s.row.owner && s.row.deleted
    case _ => true
  }

  ghost predicate Inv(y: Sys) {
    && StoreInv(y.s)
    && (forall i | 0 <= i < |y.workers| :: ThreadInv(y.s, y.workers[i]))
    && (forall i | 0 <= i < |y.requests| :: RequestInv(y.s, y.requests[i]))
  }

  /** What no step ever takes back; every thread's own invariant depends on the store only through it. */
  ghost predicate Grows(s: Store, s': Store) {
    && s'.row.id == s.row.id && s'.row.owner == s.row.owner && s'.row.idempotencyKey == s.row.idempotencyKey
    && (s.row.deleted ==> s'.row.deleted)
    && (s.row.transcript.Some? ==> s'.row.transcript.Some?)
    && (AudioSafe(s) ==> AudioSafe(s'))
    && (PdfSafe(s) ==> PdfSafe(s'))
  }

  ghost predicate Kept(s: Store, n: Next) {
    && StoreInv(n.s) && Grows(s, n.s) && ThreadInv(n.s, n.t)
    && (n.late.Some? ==> ThreadInv(n.s, n.late.value))
  }

  // ---- single writes ----

  /** Writes that leave row, objects, tree and entry alone. */
  lemma LogKeeps(s: Store, events: seq<Event>, dlq: seq<DeadLetter>)
    requires StoreInv(s)
    ensures var s' := s.(events := events, dlq := dlq); StoreInv(s') && Grows(s, s')
  {
  }

  lemma StatusKeeps(s: Store, status: Status)
    requires StoreInv(s) && InFlight(status) && AudioSafe(s)
    ensures StoreInv(SetStatus(s, status)) && Grows(s, SetStatus(s, status))
  {
  }

  lemma QueuedKeeps(s: Store)
    requires StoreInv(s) && AudioSafe(s)
    ensures StoreInv(SetStatusError(s, Queued, None)) && Grows(s, SetStatusError(s, Queued, None))
  {
  }

  lemma FailedKeeps(s: Store, msg: string)
    requires StoreInv(s)
    ensures var s' := SetStatusError(s, Status.Failed, Some(Cut(msg))); StoreInv(s') && Grows(s, s')
  {
  }

  lemma ReadyKeeps(s: Store, l: Locals)
    requires StoreInv(s) && LocalsInv(s, Render, l) && PdfSafe(s)
    ensures StoreInv(SetPdfReady(s, l)) && Grows(s, SetPdfReady(s, l))
  {
  }

  lemma Unchanged(s: Store)
    ensures Grows(s, s)
  {
  }

  // ---- steps of the worker ----

  lemma ReadKeeps(s: Store, t: Thread, c: Choice)
    requires StoreInv(s) && ThreadInv(s, t) && t.Read?
    ensures Kept(s, Step(s, t, c))
  {
    var next := AfterRead(s, t.user);
    assert ThreadInv(s, next);
  }

  lemma EnterKeeps(s: Store, stage: Stage, l: Locals, c: Choice)
    requires StoreInv(s) && LocalsInv(s, stage, l)
    ensures Kept(s, Step(s, Enter(stage, l), c))
  {
    StatusKeeps(s, StatusOf(stage));
    Unchanged(s);
  }

  /** The event writes: the next thread needs no more than this one. */
  lemma EventKeeps(s: Store, t: Thread, c: Choice)
    requires StoreInv(s) && ThreadInv(s, t) && (t.Begin? || t.Complete? || t.Fault? || t.MarkEvent?)
    ensures Kept(s, Step(s, t, c))
  {
    var n := EventStep(s, t, c);
    LogKeeps(s, n.s.events, n.s.dlq);
  }

  lemma EventStep(s: Store, t: Thread, c: Choice) returns (n: Next)
    requires StoreInv(s) && ThreadInv(s, t) && (t.Begin? || t.Complete? || t.Fault? || t.MarkEvent?)
    ensures n == Step(s, t, c) && n.s == s.(events := n.s.events) && n.late.None? && ThreadInv(s, n.t)
  {
    n := Step(s, t, c);
  }

  lemma WorkKeeps(s: Store, t: Thread, c: Choice)
    requires StoreInv(s) && ThreadInv(s, t) && t.Work?
    ensures Kept(s, Step(s, t, c))
  {
    if c.Throw? || (c.Timeout? && !t.late) {
      BodyFails(s, t, c);
    } else {
      ForeignKeeps(s, t.stage, t.l, t.late, c);
    }
  }

  /** A body that throws or times out changes nothing, and leaves itself behind when it times out. */
  lemma BodyFails(s: Store, t: Thread, c: Choice)
    requires StoreInv(s) && ThreadInv(s, t) && InBody(t) && (c.Throw? || (c.Timeout? && !t.late))
    ensures Kept(s, Step(s, t, c))
  {
    var n := StepBody(s, t, c);
    assert n.s == s && (n.late.Some? ==> n.late.value == t.(late := true));
    Unchanged(s);
  }

  lemma ForeignKeeps(s: Store, stage: Stage, l: Locals, late: bool, c: Choice)
    requires StoreInv(s) && LocalsInv(s, stage, l) && !c.Throw? && (c.Timeout? ==> late)
    ensures Kept(s, Step(s, Work(stage, l, late), c))
  {
    if c.Text? { TrimTwice(c.text); }
    var t' := StepWork(s, stage, l, late, c);
    assert Step(s, Work(stage, l, late), c) == Next(s, t', None);
    assert ThreadInv(s, t');
    Unchanged(s);
  }

  lemma TreeKeeps(s: Store, sections: seq<SectionInput>)
    requires StoreInv(s)
    ensures StoreInv(Replaced(s, sections)) && Grows(s, Replaced(s, sections))
  {
    ShuffledSelf(Inserted(sections, s.nextId));
    InsertedIsStored(sections, s.nextId, Inserted(sections, s.nextId));
  }

  lemma CommitKeeps(s: Store, t: Thread, c: Choice)
    requires StoreInv(s) && ThreadInv(s, t) && t.Write? && t.stage.Compile?
    ensures Kept(s, Step(s, t, c))
  {
    var s1 := Replaced(s, t.l.sections);
    TreeKeeps(s, t.l.sections);
    var s2 := ReplaceReport(s, t.l.sections);
    assert StoreInv(s2) && Grows(s, s2);
    assert Step(s, t, c).s == s || Step(s, t, c).s == s2;
  }

  lemma TranscriptKeeps(s: Store, text: string)
    requires StoreInv(s) && NonBlank(text)
    ensures StoreInv(SaveTranscript(s, text)) && Grows(s, SaveTranscript(s, text))
  {
  }

  lemma PdfKeeps(s: Store, l: Locals)
    requires StoreInv(s) && l.user == s.row.owner
    ensures StoreInv(PutPdf(s, l)) && Grows(s, PutPdf(s, l)) && PdfSafe(PutPdf(s, l))
  {
  }

  lemma SaveKeeps(s: Store, t: Thread, c: Choice)
    requires StoreInv(s) && ThreadInv(s, t) && t.Write? && t.stage.Transcribe?
    ensures Kept(s, Step(s, t, c))
  {
    TranscriptKeeps(s, t.l.transcript);
    assert Step(s, t, c).s == s || Step(s, t, c).s == SaveTranscript(s, t.l.transcript);
  }

  lemma PutKeeps(s: Store, t: Thread, c: Choice)
    requires StoreInv(s) && ThreadInv(s, t) && t.Write? && t.stage.Render?
    ensures Kept(s, Step(s, t, c))
  {
    PdfKeeps(s, t.l);
    assert Step(s, t, c).s == s || Step(s, t, c).s == PutPdf(s, t.l);
  }

  lemma WriteKeeps(s: Store, t: Thread, c: Choice)
    requires StoreInv(s) && ThreadInv(s, t) && t.Write?
    ensures Kept(s, Step(s, t, c))
  {
    match t.stage
    case Transcribe => SaveKeeps(s, t, c);
    case Compile => CommitKeeps(s, t, c);
    case Render => PutKeeps(s, t, c);
  }

  lemma PublishKeeps(s: Store, t: Thread, c: Choice)
    requires StoreInv(s) && ThreadInv(s, t) && t.Publish?
    ensures Kept(s, Step(s, t, c))
  {
    if c.Throw? || (c.Timeout? && !t.late) {
      BodyFails(s, t, c);
    } else {
      var s' := SetPdfReady(s, t.l);
      assert Step(s, t, c) == Next(s', if t.late then Gone else Complete(Render, t.l), None);
      ReadyKeeps(s, t.l);
    }
  }

  lemma MarkReadKeeps(s: Store, msg: string, from: Caller, c: Choice)
    requires StoreInv(s)
    ensures Kept(s, Step(s, MarkRead(msg, from), c))
  {
    var n := Step(s, MarkRead(msg, from), c);
    assert n.s == s && n.late.None? && ThreadInv(s, n.t);
    Unchanged(s);
  }

  lemma MarkSetKeeps(s: Store, msg: string, from: Caller, c: Choice)
    requires StoreInv(s)
    ensures Kept(s, Step(s, MarkSet(msg, from), c))
  {
    if c.Throw? {
      assert Step(s, MarkSet(msg, from), c) == Next(s, MarkThrows(c.msg, from), None);
      Unchanged(s);
    } else {
      var s' := SetStatusError(s, Status.Failed, Some(Cut(msg)));
      assert Step(s, MarkSet(msg, from), c) == Next(s', MarkEvent(msg, from), None);
      FailedKeeps(s, msg);
    }
  }

  lemma ParkKeeps(s: Store, msg: string, user: UserId, made: nat, c: Choice)
    requires StoreInv(s)
    ensures Kept(s, Step(s, Park(msg, user, made), c))
  {
    LogKeeps(s, s.events, s.dlq + [DeadLetter(s.row.id, user, msg, made)]);
    Unchanged(s);
  }

  lemma StepKeeps(s: Store, t: Thread, c: Choice)
    requires StoreInv(s) && ThreadInv(s, t)
    ensures Kept(s, Step(s, t, c))
  {
    match t
    case Read(_) => ReadKeeps(s, t, c);
    case Enter(stage, l) => EnterKeeps(s, stage, l, c);
    case Begin(_, _) => EventKeeps(s, t, c);
    case Work(_, _, _) => WorkKeeps(s, t, c);
    case Write(_, _, _) => WriteKeeps(s, t, c);
    case Publish(_, _) => PublishKeeps(s, t, c);
    case Complete(_, _) => EventKeeps(s, t, c);
    case Fault(_, _) => EventKeeps(s, t, c);
    case MarkRead(msg, from) => MarkReadKeeps(s, msg, from, c);
    case MarkSet(msg, from) => MarkSetKeeps(s, msg, from, c);
    case MarkEvent(_, _) => EventKeeps(s, t, c);
    case Park(msg, user, made) => ParkKeeps(s, msg, user, made, c);
    case _ => Unchanged(s);
  }

  // ---- steps of the requests ----

  ghost predicate RequestKept(s: Store, n: (Store, Request)) {
    StoreInv(n.0) && Grows(s, n.0) && RequestInv(n.0, n.1)
  }

  lemma ProcessKeeps(s: Store, r: Request, c: Choice, attempts: nat)
    requires StoreInv(s) && RequestInv(s, r) && (r.ProcRead? || r.ProcHead? || r.ProcSet? || r.ProcBack? || r.Told?)
    ensures RequestKept(s, StepRequest(s, r, c, attempts))
  {
    if r.ProcSet? { QueuedKeeps(s); }
    Unchanged(s);
  }

  lemma EnqueueKeeps(s: Store, r: Request, c: Choice, attempts: nat)
    requires StoreInv(s) && RequestInv(s, r) && (r.EnqLook? || r.EnqRemove? || r.EnqAdd?)
    ensures RequestKept(s, StepRequest(s, r, c, attempts))
  {
    var e := StepRequest(s, r, c, attempts).0.entry;
    assert StepRequest(s, r, c, attempts).0 == s.(entry := e);
    EntryKeeps(s, e);
  }

  lemma PatchKeeps(s: Store, r: Request, c: Choice, attempts: nat)
    requires StoreInv(s) && (r.PatchRead? || r.PatchWrite?)
    ensures RequestKept(s, StepRequest(s, r, c, attempts))
  {
    if c.Throw? || r.PatchRead? || !Visible(s, r.user) {
      assert StepRequest(s, r, c, attempts).0 == s;
    } else if r.sections.None? {
      LabelKeeps(s, r.labelText);
    } else {
      var s1 := Replaced(s, r.sections.value);
      TreeKeeps(s, r.sections.value);
      LabelKeeps(s1, r.labelText);
      assert Grows(s, s1) && Grows(s1, ApplyLabel(s1, r.labelText));
    }
  }

  lemma LabelKeeps(s: Store, labelText: Option<string>)
    requires StoreInv(s)
    ensures StoreInv(ApplyLabel(s, labelText)) && Grows(s, ApplyLabel(s, labelText))
  {
  }

  lemma DeletedKeeps(s: Store)
    requires StoreInv(s)
    ensures var s' := s.(row := s.row.(deleted := true)); StoreInv(s') && Grows(s, s')
  {
  }

  /** Objects of a deleted job may go. */
  lemma ObjectsKeep(s: Store, keys: set<Key>)
    requires StoreInv(s) && s.row.deleted
    ensures var s' := s.(objects := s.objects - keys); StoreInv(s') && Grows(s, s')
  {
  }

  lemma RemoveKeeps(s: Store, r: Request, c: Choice, attempts: nat)
    requires StoreInv(s) && RequestInv(s, r) && (r.RmRead? || r.RmMark? || r.RmObjects? || r.Over?)
    ensures RequestKept(s, StepRequest(s, r, c, attempts))
  {
    Unchanged(s);
    if r.RmMark? { DeletedKeeps(s); }
    if r.RmObjects? { ObjectsKeep(s, r.keys); }
  }

  lemma StepRequestKeeps(s: Store, r: Request, c: Choice, attempts: nat)
    requires StoreInv(s) && RequestInv(s, r)
    ensures RequestKept(s, StepRequest(s, r, c, attempts))
  {
    if r.ProcRead? || r.ProcHead? || r.ProcSet? || r.ProcBack? || r.Told? { ProcessKeeps(s, r, c, attempts); }
    else if r.EnqLook? || r.EnqRemove? || r.EnqAdd? { EnqueueKeeps(s, r, c, attempts); }
    else if r.PatchRead? || r.PatchWrite? { PatchKeeps(s, r, c, attempts); }
    else { RemoveKeeps(s, r, c, attempts); }
  }

  lemma OthersKeep(y: Sys, s': Store)
    requires Inv(y) && Grows(y.s, s')
    ensures forall i | 0 <= i < |y.workers| :: ThreadInv(s', y.workers[i])
    ensures forall i | 0 <= i < |y.requests| :: RequestInv(s', y.requests[i])
  {
    forall i | 0 <= i < |y.workers| ensures ThreadInv(s', y.workers[i]) {
      assert ThreadInv(y.s, y.workers[i]);
    }
    forall i | 0 <= i < |y.requests| ensures RequestInv(s', y.requests[i]) {
      assert RequestInv(y.s, y.requests[i]);
    }
  }

  lemma WorkerMoveKeeps(y: Sys, i: nat, c: Choice, attempts: nat)
    requires Inv(y) && i < |y.workers|
    ensures Inv(Apply(y, RunWorker(i, c), attempts)) && Grows(y.s, Apply(y, RunWorker(i, c), attempts).s)
  {
    var n := Step(y.s, y.workers[i], c);
    assert Kept(y.s, n) by { StepKeeps(y.s, y.workers[i], c); }
    OthersKeep(y, n.s);
  }

  lemma RequestMoveKeeps(y: Sys, i: nat, c: Choice, attempts: nat)
    requires Inv(y) && i < |y.requests|
    ensures Inv(Apply(y, RunRequest(i, c), attempts)) && Grows(y.s, Apply(y, RunRequest(i, c), attempts).s)
  {
    var n := StepRequest(y.s, y.requests[i], c, attempts);
    assert RequestKept(y.s, n) by { StepRequestKeeps(y.s, y.requests[i], c, attempts); }
    OthersKeep(y, n.0);
  }

  lemma UploadKeeps(y: Sys, content: nat, attempts: nat)
    requires Inv(y)
    ensures Inv(Apply(y, Upload(content), attempts)) && Grows(y.s, Apply(y, Upload(content), attempts).s)
  {
    var s' := y.s.(objects := y.s.objects[Key0(y.s) := Audio(content)]);
    assert StoreInv(s') && Grows(y.s, s');
    OthersKeep(y, s');
  }

  lemma EntryKeeps(s: Store, e: Option<Entry>)
    requires StoreInv(s) && (e.Some? ==> e.value.user == s.row.owner && AudioSafe(s))
    ensures StoreInv(s.(entry := e)) && Grows(s, s.(entry := e))
  {
  }

  lemma DeliverKeeps(y: Sys, attempts: nat)
    requires Inv(y)
    ensures Inv(Apply(y, Deliver, attempts)) && Grows(y.s, Apply(y, Deliver, attempts).s)
  {
    if y.s.entry.Some? {
      EntryKeeps(y.s, Some(y.s.entry.value.(state := Active)));
      OthersKeep(y, y.s.(entry := Some(y.s.entry.value.(state := Active))));
    }
  }

  lemma SettleKeeps(y: Sys, i: nat, attempts: nat)
    requires Inv(y) && i < |y.workers| && (y.workers[i].Finished? || y.workers[i].Thrown?)
    ensures Inv(Apply(y, Settle(i), attempts)) && Grows(y.s, Apply(y, Settle(i), attempts).s)
  {
    var n := SettleEntry(y.s, y.workers[i]);
    SettleShape(y.s, y.workers[i]);
    EntryKeeps(y.s, n.0.entry);
    ReplaceKeeps(y, i, n.0, n.1);
  }

  lemma ReplaceKeeps(y: Sys, i: nat, s': Store, t': Thread)
    requires Inv(y) && i < |y.workers| && StoreInv(s') && Grows(y.s, s') && ThreadInv(s', t')
    ensures Inv(y.(s := s', workers := y.workers[i := t']))
  {
    OthersKeep(y, s');
  }

  lemma SettleShape(s: Store, t: Thread)
    requires t.Finished? || t.Thrown?
    ensures var n := SettleEntry(s, t);
      && n.0 == s.(entry := n.0.entry)
      && (n.1.Gone? || n.1.MarkRead?)
      && (n.0.entry.Some? ==> s.entry.Some? && n.0.entry.value.user == s.entry.value.user)
  {
  }

  lemma CallKeeps(y: Sys, r: Request, attempts: nat)
    requires Inv(y)
    ensures Inv(Apply(y, Call(r), attempts)) && Grows(y.s, Apply(y, Call(r), attempts).s)
  {
    assert Apply(y, Call(r), attempts).s == y.s;
  }

  lemma SettleMoveKeeps(y: Sys, i: nat, attempts: nat)
    requires Inv(y)
    ensures Inv(Apply(y, Settle(i), attempts)) && Grows(y.s, Apply(y, Settle(i), attempts).s)
  {
    if i < |y.workers| && (y.workers[i].Finished? || y.workers[i].Thrown?) {
      SettleKeeps(y, i, attempts);
    } else {
      assert Apply(y, Settle(i), attempts) == y;
    }
  }

  lemma ApplyKeeps(y: Sys, m: Move, attempts: nat)
    requires Inv(y)
    ensures Inv(Apply(y, m, attempts)) && Grows(y.s, Apply(y, m, attempts).s)
  {
    if m.Deliver? {
      DeliverKeeps(y, attempts);
    } else if m.Upload? {
      UploadKeeps(y, m.content, attempts);
    } else if m.Call? {
      CallKeeps(y, m.r, attempts);
    } else if m.Settle? {
      SettleMoveKeeps(y, m.i, attempts);
    } else if m.RunWorker? && m.i < |y.workers| {
      WorkerMoveKeeps(y, m.i, m.c, attempts);
    } else if m.RunRequest? && m.i < |y.requests| {
      RequestMoveKeeps(y, m.i, m.c, attempts);
    } else {
      assert Apply(y, m, attempts) == y;
    }
  }

  lemma {:induction false} RunKeeps(y: Sys, moves: seq<Move>, attempts: nat)
    requires Inv(y)
    ensures Inv(Run(y, moves, attempts)) && Grows(y.s, Run(y, moves, attempts).s)
    decreases |moves|
  {
    if moves != [] {
      ApplyKeeps(y, moves[0], attempts);
      RunKeeps(Apply(y, moves[0], attempts), moves[1..], attempts);
    }
  }

  /** getPdfUrl: the key that gets presigned, or the 404/409 refusals. */
  function GetPdfUrl(s: Store, user: UserId): Option<Key> {
    if !Visible(s, user) || !s.row.status.Ready? then None else s.row.pdfKey
  }

  /**
   Every state any interleaving reaches: a live READY job has its document stored, a non-blank
   transcript and no error; a FAILED one has an error of at most 1000 characters; a live in-flight
   one has its recording; the report rows are numbered 0..n-1; the owner of a live READY job, and
   nobody else, gets its PDF presigned, and it exists.
   */
  lemma ReachableStatesAreSafe(id: JobId, owner: UserId, labelText: string, key: Option<string>,
                               moves: seq<Move>, attempts: nat, user: UserId)
    ensures var s := Run(Sys(Draft(id, owner, labelText, key), [], []), moves, attempts).s; var row := s.row;
      && (row.status.Ready? && !row.deleted ==>
            && row.pdfKey == Some(PdfKey(owner, id)) && PdfKey(owner, id) in s.objects && s.objects[PdfKey(owner, id)].Pdf?
            && row.transcript.Some? && NonBlank(row.transcript.value) && row.error.None?)
      && (row.status.Failed? ==> row.error.Some? && |row.error.value| <= 1000)
      && (InFlight(row.status) && !row.deleted ==> AudioKey(owner, id) in s.objects)
      && (s.entry.Some? ==> s.entry.value.user == owner)
      && WellNumbered(s.tree)
      && GetPdfUrl(s, user) == (if user == owner && !row.deleted && row.status.Ready? then Some(PdfKey(owner, id)) else None)
      && (GetPdfUrl(s, user).Some? ==> GetPdfUrl(s, user).value in s.objects)
  {
    EmptyIsStored();
    RunKeeps(Sys(Draft(id, owner, labelText, key), [], []), moves, attempts);
  }

  /** A soft-deleted job stays deleted, whatever runs on. */
  lemma DeletedForGood(y: Sys, moves: seq<Move>, attempts: nat, user: UserId)
    requires Inv(y) && y.s.row.deleted
    ensures Run(y, moves, attempts).s.row.deleted && !Visible(Run(y, moves, attempts).s, user)
  {
    RunKeeps(y, moves, attempts);
  }
}
