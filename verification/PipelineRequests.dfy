/**
 What requests do to a job's queue entry: asking for processing, the entry a worker holds, and the upload
 that makes a job processable.
 */
module PipelineRequests {
  import opened Basics
  import opened Pipeline
  import opened PipelineSafety
  import Life = PipelineLife

  /** Where the recording is looked for: the job's key, or the one it would have been given. */
  function RecordingKey(s: Store, user: UserId): Key {
    if s.row.audioKey.Some? then s.row.audioKey.value else AudioKey(user, s.row.id)
  }

  /** The caller's live job, with its recording, and neither READY nor on its way. */
  predicate Processable(s: Store, user: UserId) {
    && s.row.owner == user && !s.row.deleted && RecordingKey(s, user) in s.objects
    && (s.row.status.Created? || s.row.status.Uploading? || s.row.status.Failed?)
  }

  /**
   Asking for processing changes exactly the processable jobs, and of them the status, the error and, unless
   it is waiting or with a worker, the entry: a finished one gives way to a new one with all its attempts.
   */
  lemma AskOutcome(s: Store, user: UserId, attempts: nat)
    ensures Life.AskOp(s, user, attempts) ==
      if !Processable(s, user) then s
      else s.(row := s.row.(status := Queued, error := None),
              entry := if s.entry.Some? && (s.entry.value.state.Waiting? || s.entry.value.state.Active?) then s.entry
                       else Some(Entry(user, attempts, 0, Waiting)))
  {
  }

  /** A request touches the entry in two places only: it removes one no worker holds, and adds one where there is none. */
  lemma EntriesUnderRequests(s: Store, r: Request, c: Choice, attempts: nat)
    ensures var s' := StepRequest(s, r, c, attempts).0;
      || s'.entry == s.entry
      || (r.EnqRemove? && !s.entry.value.state.Active? && s'.entry.None?)
      || (r.EnqAdd? && s.entry.None? && s'.entry == Some(Entry(r.user, attempts, 0, Waiting)))
  {
  }

  lemma ThreadLeavesEntry(s: Store, t: Thread, c: Choice)
    ensures Step(s, t, c).s.entry == s.entry
  {
  }

  /** While a worker holds the entry, nothing but the queue's own record of its end changes it. */
  lemma {:induction false} ActiveEntryStays(y: Sys, moves: seq<Move>, attempts: nat)
    requires y.s.entry.Some? && y.s.entry.value.state.Active? && forall i | 0 <= i < |moves| :: !moves[i].Settle?
    ensures Run(y, moves, attempts).s.entry == y.s.entry
    decreases |moves|
  {
    if moves != [] {
      ActiveEntryKept(y, moves[0], attempts);
      ActiveEntryStays(Apply(y, moves[0], attempts), moves[1..], attempts);
    }
  }

  lemma ActiveEntryKept(y: Sys, m: Move, attempts: nat)
    requires y.s.entry.Some? && y.s.entry.value.state.Active? && !m.Settle?
    ensures Apply(y, m, attempts).s.entry == y.s.entry
  {
    if m.RunRequest? && m.i < |y.requests| { EntriesUnderRequests(y.s, y.requests[m.i], m.c, attempts); }
    if m.RunWorker? && m.i < |y.workers| { ThreadLeavesEntry(y.s, y.workers[m.i], m.c); }
  }

  /** Before its recording is uploaded a job cannot be asked for, and after the upload it can. */
  lemma UploadMakesProcessable(y: Sys, content: nat, attempts: nat)
    requires StoreInv(y.s) && !y.s.row.deleted && (y.s.row.status.Created? || y.s.row.status.Uploading? || y.s.row.status.Failed?)
    ensures var key := AudioKey(y.s.row.owner, y.s.row.id); var y' := Apply(y, Upload(content), attempts);
      && (key !in y.s.objects ==> Life.AskOp(y.s, y.s.row.owner, attempts) == y.s)
      && y'.s == y.s.(objects := y.s.objects[key := Audio(content)])
      && Processable(y'.s, y.s.row.owner) && Life.AskOp(y'.s, y.s.row.owner, attempts).row.status.Queued?
  {
    AskOutcome(y.s, y.s.row.owner, attempts);
    AskOutcome(Apply(y, Upload(content), attempts).s, y.s.row.owner, attempts);
  }

  /** A request that finds the job deleted writes neither its label nor its report, however far it had come. */
  lemma DeletedUnderRequests(s: Store, r: Request, c: Choice, attempts: nat)
    requires s.row.deleted
    ensures var s' := StepRequest(s, r, c, attempts).0;
      s'.row.labelText == s.row.labelText && s'.tree == s.tree && s'.row.deleted && s'.row.transcript == s.row.transcript
  {
  }

  lemma ThreadLeavesLabel(s: Store, t: Thread, c: Choice)
    ensures var s' := Step(s, t, c).s; s'.row.labelText == s.row.labelText && s'.row.deleted == s.row.deleted
  {
  }

  /** So its label is final. */
  lemma {:induction false} DeletedKeepsLabel(y: Sys, moves: seq<Move>, attempts: nat)
    requires y.s.row.deleted
    ensures Run(y, moves, attempts).s.row.deleted && Run(y, moves, attempts).s.row.labelText == y.s.row.labelText
    decreases |moves|
  {
    if moves != [] {
      DeletedStepKeepsLabel(y, moves[0], attempts);
      DeletedKeepsLabel(Apply(y, moves[0], attempts), moves[1..], attempts);
    }
  }

  lemma DeletedStepKeepsLabel(y: Sys, m: Move, attempts: nat)
    requires y.s.row.deleted
    ensures var s' := Apply(y, m, attempts).s; s'.row.deleted && s'.row.labelText == y.s.row.labelText
  {
    if m.RunRequest? && m.i < |y.requests| { DeletedUnderRequests(y.s, y.requests[m.i], m.c, attempts); }
    if m.RunWorker? && m.i < |y.workers| { ThreadLeavesLabel(y.s, y.workers[m.i], m.c); }
  }

  function SoftDeleted(s: Store): Store {
    s.(row := s.row.(deleted := true))
  }

  /** The rest of a process request whose job is soft-deleted before the next of its calls. */
  function Overtaken(s: Store, r: Request, n: nat, attempts: nat): (Store, Request) {
    Life.Requests(SoftDeleted(s), r, n, attempts)
  }

  /**
   A deletion between its first read and its QUEUED write does not stop a process request: the deleted job is
   queued with a new entry, and its caller is shown the row of the first read.
   */
  lemma OvertakenAskStillQueues(s: Store, user: UserId, attempts: nat)
    requires Processable(s, user) && s.entry.None?
    ensures var afterRead := StepRequest(s, ProcRead(user), Ok, attempts).1;
      var afterHead := StepRequest(s, afterRead, Ok, attempts).1;
      var queued := SoftDeleted(s).(row := s.row.(deleted := true, status := Queued, error := None),
                                    entry := Some(Entry(user, attempts, 0, Waiting)));
      && Overtaken(s, afterRead, 5, attempts) == (queued, Told(user, s.row, false))
      && Overtaken(s, afterHead, 4, attempts) == (queued, Told(user, s.row, false))
  {
    var gone := SoftDeleted(s);
    var head := ProcHead(user, s.row, RecordingKey(s, user));
    assert StepRequest(s, ProcRead(user), Ok, attempts) == (s, head);
    assert StepRequest(gone, head, Ok, attempts) == (gone, ProcSet(user, s.row));
    QueuesFrom(gone, user, s.row, attempts);
    assert Life.Requests(gone, head, 5, attempts) == Life.Requests(gone, ProcSet(user, s.row), 4, attempts);
  }

  lemma QueuesFrom(s: Store, user: UserId, first: Row, attempts: nat)
    requires s.row.deleted && s.entry.None?
    ensures Life.Requests(s, ProcSet(user, first), 4, attempts)
         == (s.(row := s.row.(status := Queued, error := None), entry := Some(Entry(user, attempts, 0, Waiting))), Told(user, first, false))
  {
    var s1 := SetStatusError(s, Queued, None);
    var s2 := s1.(entry := Some(Entry(user, attempts, 0, Waiting)));
    assert Life.Requests(s2, ProcBack(user, first), 1, attempts) == (s2, Told(user, first, false));
    assert Life.Requests(s1, EnqAdd(user, first), 2, attempts) == (s2, Told(user, first, false));
    assert Life.Requests(s1, EnqLook(user, first), 3, attempts) == (s2, Told(user, first, false));
  }
}
