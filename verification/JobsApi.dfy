/**
 The jobs API over the whole jobs table: every user's rows, concurrent creates racing on the unique
 (user, idempotency key) index, and every job's own concurrent system. JobsService is the API in its
 own form; World interleaves its awaited calls with everything else.
 */
module JobsApi {
  import opened Basics
  import opened Text
  import opened ReportTree
  import opened Pipeline
  import Safety = PipelineSafety

  type Table = map<JobId, Store>

  // ---- queries ----

  /** A row of this user with this idempotency key, soft-deleted or not: what the unique index sees. */
  predicate HasKey(jobs: Table, id: JobId, user: UserId, key: string) {
    id in jobs && jobs[id].row.owner == user && jobs[id].row.idempotencyKey == Some(key)
  }

  predicate LiveKey(jobs: Table, id: JobId, user: UserId, key: string) {
    HasKey(jobs, id, user, key) && !jobs[id].row.deleted
  }

  ghost predicate KeyTaken(jobs: Table, user: UserId, key: Option<string>) {
    key.Some? && exists id :: HasKey(jobs, id, user, key.value)
  }

  /** @@unique([userId, idempotencyKey]): at most one row for each user and key. */
  ghost predicate KeysUnique(jobs: Table) {
    forall a, b, user, key | HasKey(jobs, a, user, key) && HasKey(jobs, b, user, key) :: a == b
  }

  /** findByIdempotencyKey. */
  ghost function FindByKey(jobs: Table, user: UserId, key: string): (r: Option<JobId>)
    ensures r.Some? ==> LiveKey(jobs, r.value, user, key)
    ensures r.None? ==> forall id :: !LiveKey(jobs, id, user, key)
  {
    if exists id :: LiveKey(jobs, id, user, key) then
      var id :| LiveKey(jobs, id, user, key);
      Some(id)
    else None
  }

  predicate Sees(jobs: Table, user: UserId, id: JobId) {
    id in jobs && Safety.Visible(jobs[id], user)
  }

  /** The jobs listScoped draws its pages from. */
  function Listed(jobs: Table, user: UserId): set<JobId> {
    set id | id in jobs && jobs[id].row.owner == user && !jobs[id].row.deleted
  }

  /** The Idempotency-Key header as the controller hands it on: trimmed, and absent when blank. */
  function HeaderKey(header: Option<string>): Option<string> {
    if header.None? || Trim(header.value) == "" then None else Some(Trim(header.value))
  }

  // ---- whole requests, none of whose calls fails ----

  datatype Created = Replayed(id: JobId) | Drafted(id: JobId) | Duplicate

  ghost function CreateOp(jobs: Table, user: UserId, labelText: string, key: Option<string>, id: JobId): (Table, Created) {
    if key.Some? && FindByKey(jobs, user, key.value).Some? then (jobs, Replayed(FindByKey(jobs, user, key.value).value))
    else if id in jobs || KeyTaken(jobs, user, key) then (jobs, Duplicate)
    else (jobs[id := Safety.Draft(id, user, labelText, key)], Drafted(id))
  }

  function UpdateOp(s: Store, labelText: Option<string>, sections: Option<seq<SectionInput>>): Store {
    if sections.None? then Safety.ApplyLabel(s, labelText)
    else Safety.ApplyLabel(Replaced(s, sections.value), labelText)
  }

  function RemoveOp(s: Store, storage: bool): Store {
    var s' := s.(row := s.row.(deleted := true));
    if storage then s'.(objects := s.objects - Safety.Keys(s)) else s'
  }

  /** A new job of this user with this label and key: no content, nothing queued, waiting for its recording. */
  predicate IsDraft(s: Store, user: UserId, labelText: string, key: Option<string>, id: JobId) {
    && s.row.id == id && s.row.owner == user && s.row.labelText == labelText && s.row.idempotencyKey == key
    && s.row.status.Created? && !s.row.deleted && s.row.audioKey == Some(AudioKey(user, id))
    && s.row.transcript.None? && s.row.pdfKey.None? && s.row.error.None?
    && s.tree == [] && s.events == [] && s.entry.None? && s.dlq == []
  }

  /** A PATCH changes the label when the body has one, the report when it has one, and nothing else. */
  lemma UpdateOutcome(s: Store, labelText: Option<string>, sections: Option<seq<SectionInput>>)
    ensures var r := UpdateOp(s, labelText, sections);
      && (labelText.Some? ==> r.row.labelText == labelText.value) && (labelText.None? ==> r.row.labelText == s.row.labelText)
      && (sections.Some? ==> Project(r.tree) == sections.value && WellNumbered(r.tree)) && (sections.None? ==> r.tree == s.tree)
      && r.row == s.row.(labelText := r.row.labelText) && r.objects == s.objects
      && r.entry == s.entry && r.events == s.events && r.dlq == s.dlq
  {
    if sections.Some? {
      ShuffledSelf(Inserted(sections.value, s.nextId));
      InsertedIsStored(sections.value, s.nextId, Inserted(sections.value, s.nextId));
    }
  }

  /** A delete marks the row and, when the storage answers, removes exactly the recording and the PDF. */
  lemma RemoveOutcome(s: Store, storage: bool)
    ensures var r := RemoveOp(s, storage);
      && r.row.deleted && r.row == s.row.(deleted := true) && r.tree == s.tree && r.entry == s.entry
      && forall k :: k in r.objects <==>
           k in s.objects && !(storage && (s.row.audioKey == Some(k) || s.row.pdfKey == Some(k)))
  {
  }

  /** The header's key is the header without its blank ends; a missing or blank header is no key. */
  lemma HeaderKeyIs(header: string) returns (lo: nat, hi: nat)
    ensures HeaderKey(None).None?
    ensures lo <= hi <= |header| && forall i | 0 <= i < lo || hi <= i < |header| :: IsSpace(header[i])
    ensures CleanEnds(header[lo..hi])
    ensures HeaderKey(Some(header)) == if lo == hi then None else Some(header[lo..hi])
  {
    lo, hi := TrimCuts(header);
  }

  /** Exactly when a create is a replay, a new draft, or refused by the unique index. */
  lemma CreateOutcome(jobs: Table, user: UserId, labelText: string, key: Option<string>, id: JobId)
    requires KeysUnique(jobs) && id !in jobs
    ensures var r := CreateOp(jobs, user, labelText, key, id);
      && KeysUnique(r.0)
      && (r.1.Replayed? <==> key.Some? && exists a :: LiveKey(jobs, a, user, key.value))
      && (r.1.Duplicate? <==> key.Some? && exists a :: HasKey(jobs, a, user, key.value) && jobs[a].row.deleted)
      && (r.1.Replayed? ==> LiveKey(jobs, r.1.id, user, key.value))
      && (r.1.Drafted? ==> r.0.Keys == jobs.Keys + {id} && IsDraft(r.0[id], user, labelText, key, id))
      && (forall a | a in jobs :: a in r.0 && r.0[a] == jobs[a])
  {
    if !KeyTaken(jobs, user, key) { DraftKeepsKeysUnique(jobs, user, labelText, key, id); }
    if key.Some? && KeyTaken(jobs, user, key) {
      var b :| HasKey(jobs, b, user, key.value);
      assert jobs[b].row.deleted || LiveKey(jobs, b, user, key.value);
      assert forall a | HasKey(jobs, a, user, key.value) :: a == b;
    }
  }

  lemma DraftKeepsKeysUnique(jobs: Table, user: UserId, labelText: string, key: Option<string>, id: JobId)
    requires KeysUnique(jobs) && id !in jobs && !KeyTaken(jobs, user, key)
    ensures KeysUnique(jobs[id := Safety.Draft(id, user, labelText, key)])
  {
    var jobs' := jobs[id := Safety.Draft(id, user, labelText, key)];
    forall a, b, u, k | HasKey(jobs', a, u, k) && HasKey(jobs', b, u, k) ensures a == b {
      if a != id { assert HasKey(jobs, a, u, k); }
      if b != id { assert HasKey(jobs, b, u, k); }
    }
  }

  // ---- everything interleaved ----

  /** A create request between two awaited calls. */
  datatype Create =
    | Look(user: UserId, labelText: string, wanted: string)           // findByIdempotencyKey
    | Insert(user: UserId, labelText: string, key: Option<string>)    // createDraft
    | Answered(user: UserId, key: Option<string>, reply: Created)
    | Broken(user: UserId)                                            // a call threw

  datatype World = World(jobs: map<JobId, Safety.Sys>, creates: seq<Create>)

  datatype Move =
    | Post(user: UserId, labelText: string, header: Option<string>)   // a create arrives
    | RunCreate(i: nat, id: JobId, c: Choice)                         // its next awaited call; id is the drawn UUID
    | On(id: JobId, m: Safety.Move)                                   // anything else, on one job

  const EMPTY := World(map[], [])

  function Rows(w: World): Table {
    map id | id in w.jobs :: w.jobs[id].s
  }

  function Arrives(user: UserId, labelText: string, header: Option<string>): Create {
    match HeaderKey(header)
    case None => Insert(user, labelText, None)
    case Some(key) => Look(user, labelText, key)
  }

  ghost function StepCreate(w: World, r: Create, id: JobId, c: Choice): (map<JobId, Safety.Sys>, Create) {
    if c.Throw? then (w.jobs, if r.Answered? then r else Broken(r.user))
    else
      match r
      case Look(user, labelText, key) =>
        (w.jobs, if FindByKey(Rows(w), user, key).Some? then Answered(user, Some(key), Replayed(FindByKey(Rows(w), user, key).value))
                 else Insert(user, labelText, Some(key)))
      case Insert(user, labelText, key) =>
        if id in w.jobs || KeyTaken(Rows(w), user, key) then (w.jobs, Answered(user, key, Duplicate))
        else (w.jobs[id := Safety.Sys(Safety.Draft(id, user, labelText, key), [], [])], Answered(user, key, Drafted(id)))
      case _ => (w.jobs, r)
  }

  ghost function Step(w: World, m: Move, attempts: nat): World {
    match m
    case Post(user, labelText, header) => w.(creates := w.creates + [Arrives(user, labelText, header)])
    case RunCreate(i, id, c) =>
      if i >= |w.creates| then w
      else
        var n := StepCreate(w, w.creates[i], id, c);
        World(n.0, w.creates[i := n.1])
    case On(id, m') => if id in w.jobs then w.(jobs := w.jobs[id := Safety.Apply(w.jobs[id], m', attempts)]) else w
  }

  ghost function Run(w: World, moves: seq<Move>, attempts: nat): World
    decreases |moves|
  {
    if moves == [] then w else Run(Step(w, moves[0], attempts), moves[1..], attempts)
  }

  // ---- invariant and growth ----

  ghost predicate AnswerInv(w: World, r: Create) {
    r.Answered? && !r.reply.Duplicate? ==>
      && r.reply.id in w.jobs && w.jobs[r.reply.id].s.row.owner == r.user
      && w.jobs[r.reply.id].s.row.idempotencyKey == r.key
  }

  ghost predicate Inv(w: World) {
    && KeysUnique(Rows(w))
    && (forall id {:trigger Safety.Inv(w.jobs[id])} | id in w.jobs :: Safety.Inv(w.jobs[id]))
    && (forall i | 0 <= i < |w.creates| :: AnswerInv(w, w.creates[i]))
  }

  predicate SameOwner(a: Row, b: Row) {
    b.owner == a.owner && b.idempotencyKey == a.idempotencyKey && (a.deleted ==> b.deleted)
  }

  /** No row disappears, changes hands or keys, or comes back from soft deletion. */
  ghost predicate Extends(w: World, w': World) {
    forall id | id in w.jobs :: id in w'.jobs && SameOwner(w.jobs[id].s.row, w'.jobs[id].s.row)
  }

  lemma AnswersKept(w: World, w': World)
    requires Extends(w, w')
    ensures forall r | AnswerInv(w, r) :: AnswerInv(w', r)
  {
  }

  /** Rows that keep their owner and key, with none added, stay unique. */
  lemma SameKeysUnique(w: World, w': World)
    requires KeysUnique(Rows(w)) && Extends(w, w') && w'.jobs.Keys == w.jobs.Keys
    ensures KeysUnique(Rows(w'))
  {
    forall a, b, user, key | HasKey(Rows(w'), a, user, key) && HasKey(Rows(w'), b, user, key) ensures a == b {
      assert HasKey(Rows(w), a, user, key) && HasKey(Rows(w), b, user, key);
    }
  }

  lemma JobMoveKeeps(w: World, id: JobId, m: Safety.Move, attempts: nat)
    requires Inv(w)
    ensures Inv(Step(w, On(id, m), attempts)) && Extends(w, Step(w, On(id, m), attempts))
  {
    if id in w.jobs {
      var w' := Step(w, On(id, m), attempts);
      assert Safety.Inv(w'.jobs[id]) && SameOwner(w.jobs[id].s.row, w'.jobs[id].s.row) by {
        assert Safety.Inv(w.jobs[id]);
        Safety.ApplyKeeps(w.jobs[id], m, attempts);
      }
      ReplacedJobKeeps(w, id, w'.jobs[id]);
    }
  }

  lemma ReplacedJobKeeps(w: World, id: JobId, y: Safety.Sys)
    requires Inv(w) && id in w.jobs && Safety.Inv(y) && SameOwner(w.jobs[id].s.row, y.s.row)
    ensures Inv(w.(jobs := w.jobs[id := y])) && Extends(w, w.(jobs := w.jobs[id := y]))
  {
    var w' := w.(jobs := w.jobs[id := y]);
    SameKeysUnique(w, w');
    AnswersKept(w, w');
    forall a | a in w'.jobs ensures Safety.Inv(w'.jobs[a]) {
      if a != id { assert Safety.Inv(w.jobs[a]); }
    }
  }

  lemma DraftIsSafe(id: JobId, user: UserId, labelText: string, key: Option<string>)
    ensures Safety.Inv(Safety.Sys(Safety.Draft(id, user, labelText, key), [], []))
  {
    EmptyIsStored();
  }

  lemma DraftKeeps(w: World, id: JobId, user: UserId, labelText: string, key: Option<string>)
    requires Inv(w) && id !in w.jobs && !KeyTaken(Rows(w), user, key)
    ensures var w' := w.(jobs := w.jobs[id := Safety.Sys(Safety.Draft(id, user, labelText, key), [], [])]);
      Inv(w') && Extends(w, w')
  {
    var w' := w.(jobs := w.jobs[id := Safety.Sys(Safety.Draft(id, user, labelText, key), [], [])]);
    DraftIsSafe(id, user, labelText, key);
    DraftKeepsKeysUnique(Rows(w), user, labelText, key, id);
    assert Rows(w') == Rows(w)[id := Safety.Draft(id, user, labelText, key)];
    AnswersKept(w, w');
    forall a | a in w'.jobs ensures Safety.Inv(w'.jobs[a]) {
      if a != id { assert Safety.Inv(w.jobs[a]); }
    }
  }

  /** Answering one create leaves the table and the other creates as they are. */
  lemma AnswerKeeps(w: World, i: nat, r: Create)
    requires Inv(w) && i < |w.creates| && AnswerInv(w, r)
    ensures Inv(w.(creates := w.creates[i := r])) && Extends(w, w.(creates := w.creates[i := r]))
  {
    var w' := w.(creates := w.creates[i := r]);
    assert Rows(w') == Rows(w);
    assert forall a | a in w'.jobs :: Safety.Inv(w.jobs[a]) ==> Safety.Inv(w'.jobs[a]);
    forall j | 0 <= j < |w'.creates| ensures AnswerInv(w', w'.creates[j]) {
      assert AnswerInv(w, w'.creates[j]);
    }
  }

  lemma CreateMoveKeeps(w: World, i: nat, id: JobId, c: Choice, attempts: nat)
    requires Inv(w)
    ensures Inv(Step(w, RunCreate(i, id, c), attempts)) && Extends(w, Step(w, RunCreate(i, id, c), attempts))
  {
    if i < |w.creates| {
      var r := w.creates[i];
      var n := StepCreate(w, r, id, c);
      assert AnswerInv(w, r);
      if r.Insert? && !c.Throw? && id !in w.jobs && !KeyTaken(Rows(w), r.user, r.key) {
        var w1 := w.(jobs := n.0);
        DraftKeeps(w, id, r.user, r.labelText, r.key);
        AnswerKeeps(w1, i, n.1);
      } else {
        AnswerKeeps(w, i, n.1);
      }
    }
  }

  lemma StepKeeps(w: World, m: Move, attempts: nat)
    requires Inv(w)
    ensures Inv(Step(w, m, attempts)) && Extends(w, Step(w, m, attempts))
  {
    match m
    case Post(_, _, _) => assert Step(w, m, attempts).jobs == w.jobs;
    case RunCreate(i, id, c) => CreateMoveKeeps(w, i, id, c, attempts);
    case On(id, m') => JobMoveKeeps(w, id, m', attempts);
  }

  lemma ExtendsTransitive(a: World, b: World, c: World)
    requires Extends(a, b) && Extends(b, c)
    ensures Extends(a, c)
  {
  }

  lemma {:induction false} RunKeeps(w: World, moves: seq<Move>, attempts: nat)
    requires Inv(w)
    ensures Inv(Run(w, moves, attempts)) && Extends(w, Run(w, moves, attempts))
    decreases |moves|
  {
    if moves != [] {
      var w1 := Step(w, moves[0], attempts);
      StepKeeps(w, moves[0], attempts);
      RunKeeps(w1, moves[1..], attempts);
      ExtendsTransitive(w, w1, Run(w1, moves[1..], attempts));
    }
  }

  // ---- main results ----

  /**
   In every reachable state: at most one row for each user and key, every queue entry names its
   job's owner, and every answered create names a row of its caller with its key.
   */
  lemma ReachableTables(moves: seq<Move>, attempts: nat)
    ensures var w := Run(EMPTY, moves, attempts);
      && KeysUnique(Rows(w))
      && (forall id | id in w.jobs && w.jobs[id].s.entry.Some? :: w.jobs[id].s.entry.value.user == w.jobs[id].s.row.owner)
      && (forall i | 0 <= i < |w.creates| && w.creates[i].Answered? && !w.creates[i].reply.Duplicate? ::
            HasKeyOrNone(Rows(w), w.creates[i].reply.id, w.creates[i].user, w.creates[i].key))
  {
    RunKeeps(EMPTY, moves, attempts);
    var w := Run(EMPTY, moves, attempts);
    forall id | id in w.jobs && w.jobs[id].s.entry.Some?
      ensures w.jobs[id].s.entry.value.user == w.jobs[id].s.row.owner
    {
      assert Safety.Inv(w.jobs[id]);
    }
    forall i | 0 <= i < |w.creates| && w.creates[i].Answered? && !w.creates[i].reply.Duplicate?
      ensures HasKeyOrNone(Rows(w), w.creates[i].reply.id, w.creates[i].user, w.creates[i].key)
    {
      assert AnswerInv(w, w.creates[i]);
    }
  }

  predicate HasKeyOrNone(jobs: Table, id: JobId, user: UserId, key: Option<string>) {
    id in jobs && jobs[id].row.owner == user && jobs[id].row.idempotencyKey == key
  }

  /**
   Idempotent create across any continuation: once a row with a key exists, a create of that user
   with that key finds exactly this row for as long as it is live, and once it is soft-deleted
   never creates another: its insert is refused.
   */
  lemma KeyIsBoundForGood(w: World, moves: seq<Move>, attempts: nat, user: UserId, key: string, a: JobId)
    requires Inv(w) && HasKey(Rows(w), a, user, key)
    ensures var w' := Run(w, moves, attempts);
      && HasKey(Rows(w'), a, user, key) && KeyTaken(Rows(w'), user, Some(key))
      && FindByKey(Rows(w'), user, key) == (if Rows(w')[a].row.deleted then None else Some(a))
  {
    var w' := Run(w, moves, attempts);
    RunKeeps(w, moves, attempts);
    assert HasKey(Rows(w'), a, user, key);
    var found := FindByKey(Rows(w'), user, key);
    if found.Some? {
      assert LiveKey(Rows(w'), found.value, user, key) && HasKey(Rows(w'), found.value, user, key);
    } else {
      assert !LiveKey(Rows(w'), a, user, key);
    }
  }

  /** What that means for a retried create, at each of its awaited calls. */
  lemma RetriedCreate(w: World, moves: seq<Move>, attempts: nat, user: UserId, key: string, a: JobId,
                      labelText: string, id: JobId, c: Choice)
    requires Inv(w) && HasKey(Rows(w), a, user, key) && !c.Throw?
    ensures var w' := Run(w, moves, attempts);
      && a in Rows(w')
      && StepCreate(w', Look(user, labelText, key), id, c)
           == (w'.jobs, if Rows(w')[a].row.deleted then Insert(user, labelText, Some(key))
                        else Answered(user, Some(key), Replayed(a)))
      && StepCreate(w', Insert(user, labelText, Some(key)), id, c) == (w'.jobs, Answered(user, Some(key), Duplicate))
  {
    KeyIsBoundForGood(w, moves, attempts, user, key, a);
  }

  /** A soft-deleted job is found by no scoped query of any user for ever after: by id, by key or in a list. */
  lemma DeletedIsNeverReturned(w: World, moves: seq<Move>, attempts: nat, id: JobId, user: UserId, key: string)
    requires Inv(w) && id in w.jobs && w.jobs[id].s.row.deleted
    ensures var w' := Run(w, moves, attempts);
      !Sees(Rows(w'), user, id) && FindByKey(Rows(w'), user, key) != Some(id) && id !in Listed(Rows(w'), user)
  {
    RunKeeps(w, moves, attempts);
  }

  /** The one-step create is the whole request: the header's key, and its awaited calls one after the other. */
  lemma CreateIsTheRequest(w: World, user: UserId, labelText: string, header: Option<string>, id: JobId, attempts: nat)
    ensures
      var n := |w.creates|;
      var w1 := Step(w, Post(user, labelText, header), attempts);
      var w2 := Step(w1, RunCreate(n, id, Ok), attempts);
      var w3 := if w2.creates[n].Answered? then w2 else Step(w2, RunCreate(n, id, Ok), attempts);
      var op := CreateOp(Rows(w), user, labelText, HeaderKey(header), id);
      && w1.jobs == w.jobs && Rows(w3) == op.0 && w3.creates == w.creates + [Answered(user, HeaderKey(header), op.1)]
  {
    var w1 := Step(w, Post(user, labelText, header), attempts);
    assert Rows(w1) == Rows(w);
    if HeaderKey(header).None? {
      InsertIsCreate(w1, user, labelText, None, id, attempts);
    } else {
      LookIsCreate(w1, user, labelText, HeaderKey(header).value, id, attempts);
    }
  }

  lemma InsertIsCreate(w: World, user: UserId, labelText: string, key: Option<string>, id: JobId, attempts: nat)
    requires w.creates != [] && w.creates[|w.creates| - 1] == Insert(user, labelText, key)
    requires key.Some? ==> FindByKey(Rows(w), user, key.value).None?
    ensures var n := |w.creates| - 1; var w' := Step(w, RunCreate(n, id, Ok), attempts);
      var op := CreateOp(Rows(w), user, labelText, key, id);
      Rows(w') == op.0 && w'.creates == w.creates[..n] + [Answered(user, key, op.1)]
  {
    var n := |w.creates| - 1;
    var w' := Step(w, RunCreate(n, id, Ok), attempts);
    assert w'.creates == w.creates[..n] + [w'.creates[n]];
    assert Rows(w') == CreateOp(Rows(w), user, labelText, key, id).0;
  }

  lemma LookIsCreate(w: World, user: UserId, labelText: string, key: string, id: JobId, attempts: nat)
    requires w.creates != [] && w.creates[|w.creates| - 1] == Look(user, labelText, key)
    ensures var n := |w.creates| - 1; var w1 := Step(w, RunCreate(n, id, Ok), attempts);
      var w2 := if w1.creates[n].Answered? then w1 else Step(w1, RunCreate(n, id, Ok), attempts);
      var op := CreateOp(Rows(w), user, labelText, Some(key), id);
      Rows(w2) == op.0 && w2.creates == w.creates[..n] + [Answered(user, Some(key), op.1)]
  {
    var n := |w.creates| - 1;
    var w1 := Step(w, RunCreate(n, id, Ok), attempts);
    assert w1.creates == w.creates[..n] + [w1.creates[n]];
    assert Rows(w1) == Rows(w);
    if FindByKey(Rows(w), user, key).None? { InsertIsCreate(w1, user, labelText, Some(key), id, attempts); }
  }

  /** An answer once given stands, whatever happens afterwards. */
  lemma {:induction false} AnswerStands(w: World, moves: seq<Move>, i: nat, attempts: nat)
    requires i < |w.creates| && w.creates[i].Answered?
    ensures i < |Run(w, moves, attempts).creates| && Run(w, moves, attempts).creates[i] == w.creates[i]
    decreases |moves|
  {
    if moves != [] { AnswerStands(Step(w, moves[0], attempts), moves[1..], i, attempts); }
  }

  // ---- frame ----

  /** The user a request acts for; a finished one acts for nobody. */
  function Caller(r: Safety.Request): Option<UserId> {
    if r.Over? then None else Some(r.user)
  }

  /** The move is a step of an API request of this user. */
  predicate ActsFor(w: World, m: Move, user: UserId) {
    match m
    case Post(u, _, _) => u == user
    case RunCreate(i, _, _) => i < |w.creates| && w.creates[i].user == user
    case On(id, m') =>
      id in w.jobs &&
      (match m'
       case RunRequest(i, _) => i < |w.jobs[id].requests| && Caller(w.jobs[id].requests[i]) == Some(user)
       case Call(r) => Caller(r) == Some(user)
       case _ => false)
  }

  ghost predicate AllActFor(w: World, moves: seq<Move>, user: UserId, attempts: nat)
    decreases |moves|
  {
    moves != [] ==> ActsFor(w, moves[0], user) && AllActFor(Step(w, moves[0], attempts), moves[1..], user, attempts)
  }

  lemma ForeignRequestIsIdle(s: Store, r: Safety.Request, c: Choice, attempts: nat)
    requires Safety.RequestInv(s, r) && Caller(r).Some? && Caller(r).value != s.row.owner
    ensures Safety.StepRequest(s, r, c, attempts).0 == s
  {
  }

  /** w' differs from w only in jobs of this user. */
  ghost predicate Within(w: World, w': World, user: UserId) {
    && (forall id | id in w.jobs :: id in w'.jobs && w'.jobs[id].s.row.owner == w.jobs[id].s.row.owner)
    && (forall id | id in w.jobs && w.jobs[id].s.row.owner != user :: w'.jobs[id].s == w.jobs[id].s)
    && (forall id | id in w'.jobs && id !in w.jobs :: w'.jobs[id].s.row.owner == user)
  }

  lemma RequestStaysWithUser(y: Safety.Sys, i: nat, c: Choice, attempts: nat, user: UserId)
    requires Safety.Inv(y) && i < |y.requests| && Caller(y.requests[i]) == Some(user)
    ensures var y' := Safety.Apply(y, Safety.RunRequest(i, c), attempts);
      y'.s.row.owner == y.s.row.owner && (y.s.row.owner != user ==> y'.s == y.s)
  {
    assert Safety.RequestInv(y.s, y.requests[i]);
    if y.s.row.owner != user {
      ForeignRequestIsIdle(y.s, y.requests[i], c, attempts);
    } else {
      Safety.ApplyKeeps(y, Safety.RunRequest(i, c), attempts);
    }
  }

  /** A request step of one user leaves every other user's row, report, files and queue entry alone. */
  lemma StepStaysWithUser(w: World, m: Move, attempts: nat, user: UserId)
    requires Inv(w) && ActsFor(w, m, user)
    ensures Within(w, Step(w, m, attempts), user)
  {
    match m
    case Post(_, _, _) =>
    case RunCreate(i, id, c) => CreateStaysWithUser(w, i, id, c, attempts, user);
    case On(id, m') => JobMoveStaysWithUser(w, id, m', attempts, user);
  }

  lemma CreateStaysWithUser(w: World, i: nat, id: JobId, c: Choice, attempts: nat, user: UserId)
    requires i < |w.creates| && w.creates[i].user == user
    ensures Within(w, Step(w, RunCreate(i, id, c), attempts), user)
  {
    var w' := Step(w, RunCreate(i, id, c), attempts);
    if w'.jobs != w.jobs {
      assert id !in w.jobs && w'.jobs == w.jobs[id := w'.jobs[id]] && w'.jobs[id].s.row.owner == user;
      JobAdded(w, w', id, user);
    }
  }

  lemma JobAdded(w: World, w': World, id: JobId, user: UserId)
    requires id !in w.jobs && id in w'.jobs && w'.jobs == w.jobs[id := w'.jobs[id]] && w'.jobs[id].s.row.owner == user
    ensures Within(w, w', user)
  {
  }

  lemma JobMoveStaysWithUser(w: World, id: JobId, m: Safety.Move, attempts: nat, user: UserId)
    requires Inv(w) && ActsFor(w, On(id, m), user)
    ensures Within(w, Step(w, On(id, m), attempts), user)
  {
    var y := w.jobs[id];
    var y' := Safety.Apply(y, m, attempts);
    assert y'.s.row.owner == y.s.row.owner && (y.s.row.owner != user ==> y'.s == y.s) by {
      if m.RunRequest? {
        assert Safety.Inv(y);
        RequestStaysWithUser(y, m.i, m.c, attempts, user);
      }
    }
    OneJobChanged(w, id, y', user);
  }

  lemma OneJobChanged(w: World, id: JobId, y: Safety.Sys, user: UserId)
    requires id in w.jobs && y.s.row.owner == w.jobs[id].s.row.owner
    requires w.jobs[id].s.row.owner != user ==> y.s == w.jobs[id].s
    ensures Within(w, w.(jobs := w.jobs[id := y]), user)
  {
  }

  lemma WithinTransitive(a: World, b: World, c: World, user: UserId)
    requires Within(a, b, user) && Within(b, c, user)
    ensures Within(a, c, user)
  {
  }

  /** Whatever one user does, in any number of interleaved requests, no other user's job changes. */
  lemma {:induction false} RunStaysWithUser(w: World, moves: seq<Move>, attempts: nat, user: UserId)
    requires Inv(w) && AllActFor(w, moves, user, attempts)
    ensures Within(w, Run(w, moves, attempts), user)
    decreases |moves|
  {
    if moves != [] {
      var w1 := Step(w, moves[0], attempts);
      StepStaysWithUser(w, moves[0], attempts, user);
      StepKeeps(w, moves[0], attempts);
      RunStaysWithUser(w1, moves[1..], attempts, user);
      WithinTransitive(w, w1, Run(w1, moves[1..], attempts), user);
    }
  }
}
