/**
 The device's re-entrant client actor against the token server: any number of callers whose requests
 answer 401, a single-flight refresh, sign-ins, and other devices, interleaved at every await.
 */
module ApiClient {
  import opened Basics
  import opened Auth

  const MAX_ATTEMPTS := 4

  datatype Pair = Pair(access: nat, refresh: Token)

  /** The result of a refresh task: still flying, or resolved and waiting to be picked up. */
  datatype Phase = Flying(attempt: nat) | Won(pair: Pair) | Lost

  /** `rotated` is history: the server rotated the token in an earlier send, and the reply was lost. */
  datatype Task = Task(token: Token, phase: Phase, rotated: bool)

  /** A caller inside performData, between two awaits. */
  datatype Caller =
    | Top(attempt: nat, didRefresh: bool)          // about to send
    | Waiting(attempt: nat, didRefresh: bool)      // request sent
    | Pausing(attempt: nat, didRefresh: bool)      // in backoff
    | Owning(attempt: nat, task: nat)              // refreshTokens: created the task, awaits it
    | Joining(attempt: nat, task: nat)             // refreshTokens: awaits another caller's task
    | Over(ok: bool)

  /** `tokens` and `stored` are the actor's and the keychain's copy; `tasks` keeps every task ever made. */
  datatype Client = Client(tokens: Option<Pair>, stored: Option<Pair>, refreshTask: Option<nat>, tasks: seq<Task>)

  /** The atomic first part of refreshTokens. */
  datatype Entered = Joined(task: nat) | Owned(task: nat) | NoSession

  function Current(c: Client): Option<Pair> {
    if c.tokens.Some? then c.tokens else c.stored
  }

  function EnterRefresh(c: Client): (Client, Entered) {
    if c.refreshTask.Some? then (c, Joined(c.refreshTask.value))
    else if Current(c).None? then (c, NoSession)
    else
      var k := |c.tasks|;
      (c.(refreshTask := Some(k), tasks := c.tasks + [Task(Current(c).value.refresh, Flying(0), false)]), Owned(k))
  }

  /** The atomic last part of refreshTokens in the caller that owns the task. */
  function LeaveRefresh(c: Client, phase: Phase): Client {
    match phase
    case Won(pair) => c.(tokens := Some(pair), stored := Some(pair), refreshTask := None)
    case _ => c.(tokens := None, stored := None, refreshTask := None)
  }

  function Apply(c: Client, pair: Pair): Client {
    c.(tokens := Some(pair), stored := Some(pair))
  }

  /** The actor's token state in its own form. */
  class Session {
    var tokens: Option<Pair>
    var stored: Option<Pair>
    var refreshTask: Option<nat>
    var tasks: seq<Task>

    function State(): Client
      reads this
    {
      Client(tokens, stored, refreshTask, tasks)
    }

    constructor (stored: Option<Pair>)
      ensures State() == Client(stored, stored, None, [])
    {
      tokens, this.stored, refreshTask, tasks := stored, stored, None, [];
    }

    method ApplyTokens(pair: Pair)
      modifies `tokens, `stored
      ensures State() == Apply(old(State()), pair)
    {
      tokens := Some(pair);
      stored := Some(pair);
    }

    method ClearTokens()
      modifies `tokens, `stored
      ensures State() == old(State()).(tokens := None, stored := None)
    {
      tokens := None;
      stored := None;
    }

    method CurrentAccessToken() returns (access: Option<nat>)
      modifies `tokens
      ensures State() == old(State()).(tokens := if old(tokens).Some? then old(tokens) else old(stored))
      ensures access == if tokens.Some? then Some(tokens.value.access) else None
    {
      if tokens.Some? { return Some(tokens.value.access); }
      if stored.Some? {
        tokens := stored;
        return Some(stored.value.access);
      }
      return None;
    }

    method BeginRefresh() returns (entered: Entered)
      modifies `refreshTask, `tasks
      ensures (State(), entered) == EnterRefresh(old(State()))
      ensures entered.Owned? <==> old(refreshTask).None? && (tokens.Some? || stored.Some?)
      ensures entered.Owned? ==>
        tasks[entered.task].token == (if tokens.Some? then tokens.value.refresh else stored.value.refresh)
    {
      if refreshTask.Some? { return Joined(refreshTask.value); }
      var current := if tokens.Some? then tokens else stored;
      if current.None? { return NoSession; }
      var k := |tasks|;
      tasks := tasks + [Task(current.value.refresh, Flying(0), false)];
      refreshTask := Some(k);
      return Owned(k);
    }

    /** After `await task.value`; refreshTask is reset on either way out. */
    method EndRefresh(phase: Phase) returns (ok: bool)
      modifies `tokens, `stored, `refreshTask
      ensures State() == LeaveRefresh(old(State()), phase) && ok == phase.Won?
    {
      if phase.Won? {
        ApplyTokens(phase.pair);
        ok := true;
      } else {
        ClearTokens();
        ok := false;
      }
      refreshTask := None;
    }
  }

  // ---- callers, flights, sign-ins and the server ----

  /**
   `arriving`: token pairs of sign-ins the server answered and the client has not applied yet. `mine`,
   `reused` and `killed` are history: the tokens issued to this client, whether one of its sends reached
   the server's reuse branch, and the tokens revoked by what others presented.
   */
  datatype World = World(
    client: Client, callers: seq<Caller>, arriving: seq<Pair>, server: Auth,
    mine: set<Token>, reused: bool, killed: set<Token>)

  datatype Answer = Unauthorized | Good | ServerError | Refused | Transport | Cancelled

  /** What becomes of one send of POST /auth/refresh. */
  datatype Send =
    | Delivered(now: int, next: Token, expiresAt: int, access: nat)  // processed, reply received
    | Failed                                                        // not processed, worth a retry
    | Rejected                                                      // not processed, not worth a retry
    | ReplyLost(now: int, next: Token, expiresAt: int)              // processed, reply lost
    | Unusable(now: int, next: Token, expiresAt: int)               // processed, reply unreadable or no longer awaited

  datatype Move =
    | Call                                           // a new caller enters performData
    | SendRequest(i: nat)
    | Answered(i: nat, answer: Answer)
    | Wake(i: nat)                                   // backoff over
    | Interrupted(i: nat)                            // backoff cancelled
    | RefreshSend(k: nat, send: Send)
    | Resume(i: nat)                                 // await task.value returns
    | SignInServed(user: UserId, next: Token, expiresAt: int, access: nat)
    | SignInApplied(j: nat)
    | Elsewhere(op: Op)                              // anyone else, presenting any token

  function Retried(caller: Caller): Caller
    requires caller.Waiting?
  {
    if caller.attempt < MAX_ATTEMPTS then Pausing(caller.attempt, caller.didRefresh) else Over(false)
  }

  /** A response reaches a waiting caller: the body of performData's loop after the await. */
  function OnAnswer(c: Client, caller: Caller, answer: Answer): (Client, Caller)
    requires caller.Waiting?
  {
    if answer.Unauthorized? && !caller.didRefresh then
      var (c', entered) := EnterRefresh(c);
      (c', match entered
           case Joined(k) => Joining(caller.attempt, k)
           case Owned(k) => Owning(caller.attempt, k)
           case NoSession => Over(false))
    else (c, match answer
             case Good => Over(true)
             case ServerError => Retried(caller)
             case Transport => Retried(caller)
             case _ => Over(false))
  }

  /** One more failed send of a flight: retried while attempts are left. */
  function SendFailed(t: Task): Task
    requires t.phase.Flying?
  {
    t.(phase := if t.phase.attempt + 1 < MAX_ATTEMPTS then Flying(t.phase.attempt + 1) else Lost)
  }

  function OnSend(w: World, k: nat, send: Send): World
    requires k < |w.client.tasks| && w.client.tasks[k].phase.Flying?
  {
    var t := w.client.tasks[k];
    match send
    case Failed => w.(client := w.client.(tasks := w.client.tasks[k := SendFailed(t)]))
    case Rejected => w.(client := w.client.(tasks := w.client.tasks[k := t.(phase := Lost)]))
    case Delivered(now, next, expiresAt, access) =>
      var (server, reply) := RefreshOp(w.server, t.token, now, next, expiresAt);
      var phase := if reply.Issued? then Won(Pair(access, next)) else Lost;
      w.(client := w.client.(tasks := w.client.tasks[k := t.(phase := phase)]), server := server,
         mine := if reply.Issued? then w.mine + {next} else w.mine, reused := w.reused || reply.Reused?)
    case ReplyLost(now, next, expiresAt) =>
      var (server, reply) := RefreshOp(w.server, t.token, now, next, expiresAt);
      var t' := SendFailed(t).(rotated := t.rotated || reply.Issued?);
      w.(client := w.client.(tasks := w.client.tasks[k := t']), server := server,
         mine := if reply.Issued? then w.mine + {next} else w.mine, reused := w.reused || reply.Reused?)
    case Unusable(now, next, expiresAt) =>
      var (server, reply) := RefreshOp(w.server, t.token, now, next, expiresAt);
      w.(client := w.client.(tasks := w.client.tasks[k := t.(phase := Lost)]), server := server,
         mine := if reply.Issued? then w.mine + {next} else w.mine, reused := w.reused || reply.Reused?)
  }

  /** The tokens an operation of someone else revokes: the rotated one, or all of a user's on a replay. */
  function KilledBy(a: Auth, op: Op): set<Token> {
    if op.SignIn? then {}
    else
      match Do(a, op).1
      case Issued(_, _) => {op.token}
      case Reused => set t | t in a.records && op.token in a.records && a.records[t].user == a.records[op.token].user
      case _ => {}
  }

  function OnResume(c: Client, caller: Caller): (Client, Caller)
    requires (caller.Owning? || caller.Joining?) && caller.task < |c.tasks|
  {
    var phase := c.tasks[caller.task].phase;
    if phase.Flying? then (c, caller)
    else
      var next := if phase.Won? then Top(caller.attempt, true) else Over(false);
      (if caller.Owning? then LeaveRefresh(c, phase) else c, next)
  }

  function Step(w: World, m: Move): World {
    match m
    case Call => w.(callers := w.callers + [Top(0, false)])
    case SendRequest(i) =>
      if i >= |w.callers| || !w.callers[i].Top? then w
      else
        var c := w.client.(tokens := Current(w.client));
        var caller := w.callers[i];
        w.(client := c, callers := w.callers[i :=
          if c.tokens.Some? then Waiting(caller.attempt + 1, caller.didRefresh) else Over(false)])
    case Answered(i, answer) =>
      if i >= |w.callers| || !w.callers[i].Waiting? then w
      else
        var (c, caller) := OnAnswer(w.client, w.callers[i], answer);
        w.(client := c, callers := w.callers[i := caller])
    case Wake(i) =>
      if i >= |w.callers| || !w.callers[i].Pausing? then w
      else w.(callers := w.callers[i := Top(w.callers[i].attempt, w.callers[i].didRefresh)])
    case Interrupted(i) =>
      if i >= |w.callers| || !w.callers[i].Pausing? then w else w.(callers := w.callers[i := Over(false)])
    case RefreshSend(k, send) =>
      if k >= |w.client.tasks| || !w.client.tasks[k].phase.Flying? then w else OnSend(w, k, send)
    case Resume(i) =>
      if i >= |w.callers| || !(w.callers[i].Owning? || w.callers[i].Joining?) || w.callers[i].task >= |w.client.tasks| then w
      else
        var (c, caller) := OnResume(w.client, w.callers[i]);
        w.(client := c, callers := w.callers[i := caller])
    case SignInServed(user, next, expiresAt, access) =>
      var (server, reply) := SignInOp(w.server, user, next, expiresAt);
      if reply.Issued? then w.(server := server, mine := w.mine + {next}, arriving := w.arriving + [Pair(access, next)])
      else w.(server := server)
    case SignInApplied(j) =>
      if j >= |w.arriving| then w
      else w.(client := Apply(w.client, w.arriving[j]), arriving := w.arriving[..j] + w.arriving[j + 1..])
    case Elsewhere(op) =>
      w.(server := Do(w.server, op).0, killed := w.killed + KilledBy(w.server, op))
  }

  function Run(w: World, moves: seq<Move>): World
    decreases |moves|
  {
    if moves == [] then w else Run(Step(w, moves[0]), moves[1..])
  }

  // ---- the invariant ----

  /** Known to this client and never yet presented in a flight. */
  predicate Unspent(w: World, token: Token) {
    && token in w.mine
    && forall k | 0 <= k < |w.client.tasks| :: w.client.tasks[k].token != token
  }

  /** Callers and the refreshTask field agree; only the task in that field can be unresolved. */
  ghost predicate FlightInv(w: World) {
    var c := w.client;
    && (c.refreshTask.Some? ==> c.refreshTask.value < |c.tasks|)
    && (forall k | 0 <= k < |c.tasks| :: c.tasks[k].phase.Flying? ==> c.refreshTask == Some(k))
    && (forall i | 0 <= i < |w.callers| :: w.callers[i].Owning? ==> c.refreshTask == Some(w.callers[i].task))
    && (forall i | 0 <= i < |w.callers| :: w.callers[i].Joining? ==> w.callers[i].task < |c.tasks|)
    && (forall i, j | 0 <= i < j < |w.callers| :: !(w.callers[i].Owning? && w.callers[j].Owning?))
  }

  ghost predicate TokenInv(w: World) {
    var c := w.client;
    && c.tokens == c.stored
    && w.mine <= w.server.records.Keys
    && (forall k, l | 0 <= k < l < |c.tasks| :: c.tasks[k].token != c.tasks[l].token)
    && (forall k | 0 <= k < |c.tasks| :: c.tasks[k].token in w.mine)
    && (c.refreshTask.None? && c.tokens.Some? ==> Unspent(w, c.tokens.value.refresh))
    && (c.refreshTask.Some? && c.refreshTask.value < |c.tasks| && c.tasks[c.refreshTask.value].phase.Won? ==>
          Unspent(w, c.tasks[c.refreshTask.value].phase.pair.refresh))
    && (forall j | 0 <= j < |w.arriving| :: Unspent(w, w.arriving[j].refresh))
  }

  /** The pairs that may become current later are pairwise different tokens. */
  ghost predicate ArrivalInv(w: World) {
    var c := w.client;
    && (forall i, j | 0 <= i < j < |w.arriving| :: w.arriving[i].refresh != w.arriving[j].refresh)
    && (c.refreshTask.None? && c.tokens.Some? ==>
          forall j | 0 <= j < |w.arriving| :: w.arriving[j].refresh != c.tokens.value.refresh)
    && (c.refreshTask.Some? && c.refreshTask.value < |c.tasks| && c.tasks[c.refreshTask.value].phase.Won? ==>
          forall j | 0 <= j < |w.arriving| ::
            w.arriving[j].refresh != c.tasks[c.refreshTask.value].phase.pair.refresh)
  }

  ghost predicate Inv(w: World) {
    FlightInv(w) && TokenInv(w) && ArrivalInv(w)
  }

  /** What a token needs to stay unspent: it is not forgotten, and no new flight presents it. */
  lemma UnspentKept(w: World, w': World)
    requires w.mine <= w'.mine && |w'.client.tasks| == |w.client.tasks|
    requires forall l | 0 <= l < |w.client.tasks| :: w'.client.tasks[l].token == w.client.tasks[l].token
    ensures forall t | Unspent(w, t) :: Unspent(w', t)
  {
  }

  lemma SameTokens(w: World, w': World)
    requires TokenInv(w) && ArrivalInv(w)
    requires w'.client == w.client && w'.mine == w.mine && w'.arriving == w.arriving
    requires w.server.records.Keys <= w'.server.records.Keys
    ensures TokenInv(w') && ArrivalInv(w')
  {
    UnspentKept(w, w');
  }

  lemma ElsewhereKeeps(w: World, op: Op)
    requires Inv(w)
    ensures Inv(Step(w, Elsewhere(op)))
  {
    SameTokens(w, Step(w, Elsewhere(op)));
  }

  lemma CallerKeeps(w: World, m: Move)
    requires Inv(w) && (m.Call? || m.SendRequest? || m.Wake? || m.Interrupted?)
    ensures Inv(Step(w, m))
  {
    var w' := Step(w, m);
    assert w'.client == w.client && w'.server == w.server && w'.mine == w.mine && w'.arriving == w.arriving;
    SameTokens(w, w');
  }

  /** A caller that answers 401 joins the flight in progress, or starts the only one with an unspent token. */
  lemma AnswerKeeps(w: World, i: nat, answer: Answer)
    requires Inv(w) && i < |w.callers| && w.callers[i].Waiting?
    ensures Inv(Step(w, Answered(i, answer)))
  {
    var w' := Step(w, Answered(i, answer));
    var entered := EnterRefresh(w.client).1;
    if answer.Unauthorized? && !w.callers[i].didRefresh && entered.Owned? {
      OwnKeeps(w, i);
    } else {
      assert w'.client == w.client;
      SameTokens(w, w');
    }
  }

  lemma OwnKeeps(w: World, i: nat)
    requires Inv(w) && i < |w.callers| && w.callers[i].Waiting? && !w.callers[i].didRefresh
    requires EnterRefresh(w.client).1.Owned?
    ensures Inv(Step(w, Answered(i, Unauthorized)))
  {
    var w' := Step(w, Answered(i, Unauthorized));
    var token := Current(w.client).value.refresh;
    assert w'.client.tasks == w.client.tasks + [Task(token, Flying(0), false)];
    assert Unspent(w, token);
    forall j | 0 <= j < |w'.arriving| ensures Unspent(w', w'.arriving[j].refresh) {
      assert Unspent(w, w.arriving[j].refresh);
    }
  }

  /** A send that brings no new pair to the client. */
  lemma FailedKeeps(w: World, k: nat, send: Send)
    requires Inv(w) && k < |w.client.tasks| && w.client.tasks[k].phase.Flying? && !OnSend(w, k, send).client.tasks[k].phase.Won?
    ensures Inv(OnSend(w, k, send))
  {
    var w' := OnSend(w, k, send);
    assert w'.client.tasks[k].token == w.client.tasks[k].token;
    UnspentKept(w, w');
  }

  /** A pair the server has just issued is new to this client. */
  lemma WonKeeps(w: World, k: nat, now: int, next: Token, expiresAt: int, access: nat)
    requires Inv(w) && k < |w.client.tasks| && w.client.tasks[k].phase.Flying?
    requires RefreshOp(w.server, w.client.tasks[k].token, now, next, expiresAt).1.Issued?
    ensures Inv(OnSend(w, k, Delivered(now, next, expiresAt, access)))
  {
    var w' := OnSend(w, k, Delivered(now, next, expiresAt, access));
    UnspentKept(w, w');
    assert Unspent(w', next) by {
      forall l | 0 <= l < |w'.client.tasks| ensures w'.client.tasks[l].token != next {
        assert w.client.tasks[l].token in w.mine;
      }
    }
    forall j | 0 <= j < |w.arriving| ensures w.arriving[j].refresh != next {
      assert Unspent(w, w.arriving[j].refresh);
    }
  }

  lemma SendKeeps(w: World, k: nat, send: Send)
    requires Inv(w) && k < |w.client.tasks| && w.client.tasks[k].phase.Flying?
    ensures Inv(OnSend(w, k, send))
  {
    if send.Delivered? && OnSend(w, k, send).client.tasks[k].phase.Won? {
      WonKeeps(w, k, send.now, send.next, send.expiresAt, send.access);
    } else {
      FailedKeeps(w, k, send);
    }
  }

  lemma ResumeKeeps(w: World, i: nat)
    requires Inv(w) && i < |w.callers| && (w.callers[i].Owning? || w.callers[i].Joining?)
    ensures Inv(Step(w, Resume(i)))
  {
    var w' := Step(w, Resume(i));
    assert w.callers[i].task < |w.client.tasks|;
    if w.callers[i].Joining? || w.client.tasks[w.callers[i].task].phase.Flying? {
      assert w'.client == w.client;
      SameTokens(w, w');
    } else {
      assert w'.client.tasks == w.client.tasks;
      UnspentKept(w, w');
    }
  }

  lemma SignInServedKeeps(w: World, user: UserId, next: Token, expiresAt: int, access: nat)
    requires Inv(w)
    ensures Inv(Step(w, SignInServed(user, next, expiresAt, access)))
  {
    var w' := Step(w, SignInServed(user, next, expiresAt, access));
    UnspentKept(w, w');
    if SignInOp(w.server, user, next, expiresAt).1.Issued? {
      assert Unspent(w', next) by {
        forall l | 0 <= l < |w.client.tasks| ensures w.client.tasks[l].token != next {
          assert w.client.tasks[l].token in w.mine;
        }
      }
      forall j | 0 <= j < |w.arriving| ensures w.arriving[j].refresh != next {
        assert Unspent(w, w.arriving[j].refresh);
      }
    }
  }

  lemma SignInAppliedKeeps(w: World, j: nat)
    requires Inv(w) && j < |w.arriving|
    ensures Inv(Step(w, SignInApplied(j)))
  {
    var w' := Step(w, SignInApplied(j));
    UnspentKept(w, w');
    assert Unspent(w, w.arriving[j].refresh);
    forall i | 0 <= i < |w'.arriving|
      ensures Unspent(w, w'.arriving[i].refresh) && w'.arriving[i].refresh != w.arriving[j].refresh
    {
      assert w'.arriving[i] == w.arriving[if i < j then i else i + 1];
    }
  }

  lemma StepKeeps(w: World, m: Move)
    requires Inv(w)
    ensures Inv(Step(w, m))
  {
    match m
    case Call => CallerKeeps(w, m);
    case SendRequest(_) => CallerKeeps(w, m);
    case Wake(_) => CallerKeeps(w, m);
    case Interrupted(_) => CallerKeeps(w, m);
    case Answered(i, answer) => if i < |w.callers| && w.callers[i].Waiting? { AnswerKeeps(w, i, answer); }
    case RefreshSend(k, send) => if k < |w.client.tasks| && w.client.tasks[k].phase.Flying? { SendKeeps(w, k, send); }
    case Resume(i) => if i < |w.callers| && (w.callers[i].Owning? || w.callers[i].Joining?) { ResumeKeeps(w, i); }
    case SignInServed(user, next, expiresAt, access) => SignInServedKeeps(w, user, next, expiresAt, access);
    case SignInApplied(j) => if j < |w.arriving| { SignInAppliedKeeps(w, j); }
    case Elsewhere(op) => ElsewhereKeeps(w, op);
  }

  lemma {:induction false} RunKeeps(w: World, moves: seq<Move>)
    requires Inv(w)
    ensures Inv(Run(w, moves))
    decreases |moves|
  {
    if moves != [] {
      StepKeeps(w, moves[0]);
      RunKeeps(Step(w, moves[0]), moves[1..]);
    }
  }

  // ---- the server's view of this client's tokens ----

  /**
   Until the reuse branch is taken, a token of this client is revoked only because others had it
   revoked or a flight presented it, and the token of a flight still in the air only because of the
   former or because a reply of that flight was lost.
   */
  ghost predicate Fresh(w: World) {
    && w.killed <= w.server.records.Keys
    && (!w.reused ==>
          && (forall t | Unspent(w, t) :: Dead(w.server, t) <==> t in w.killed)
          && (forall k | 0 <= k < |w.client.tasks| && w.client.tasks[k].phase.Flying? :: TaskFresh(w, w.client.tasks[k])))
  }

  ghost predicate TaskFresh(w: World, t: Task) {
    Dead(w.server, t.token) <==> t.rotated || t.token in w.killed
  }

  /** A step that leaves this client's tokens as they are on the server. */
  lemma ServerFresh(w: World, w': World)
    requires Inv(w) && Fresh(w) && w'.client.tasks == w.client.tasks && w'.mine == w.mine && w'.reused == w.reused
    requires w'.killed == w.killed && w.server.records.Keys <= w'.server.records.Keys
    requires forall t | t in w.mine :: t in w'.server.records && w'.server.records[t] == w.server.records[t]
    ensures Fresh(w')
  {
    assert forall t | Unspent(w', t) :: Unspent(w, t);
    forall k | !w'.reused && 0 <= k < |w'.client.tasks| && w'.client.tasks[k].phase.Flying?
      ensures TaskFresh(w', w'.client.tasks[k])
    {
      assert TaskFresh(w, w.client.tasks[k]);
    }
  }

  lemma OthersKill(a: Auth, op: Op, t: Token)
    requires t in a.records
    ensures Dead(Do(a, op).0, t) <==> Dead(a, t) || t in KilledBy(a, op)
    ensures KilledBy(a, op) <= a.records.Keys <= Do(a, op).0.records.Keys
  {
  }

  lemma ElsewhereFresh(w: World, op: Op)
    requires Inv(w) && Fresh(w)
    ensures Fresh(Step(w, Elsewhere(op)))
  {
    var w' := Step(w, Elsewhere(op));
    assert KilledBy(w.server, op) <= w.server.records.Keys <= w'.server.records.Keys;
    forall t | !w'.reused && Unspent(w', t) ensures Dead(w'.server, t) <==> t in w'.killed {
      assert Unspent(w, t);
      OthersKill(w.server, op, t);
    }
    forall k | !w'.reused && 0 <= k < |w'.client.tasks| && w'.client.tasks[k].phase.Flying?
      ensures TaskFresh(w', w'.client.tasks[k])
    {
      assert TaskFresh(w, w.client.tasks[k]);
      OthersKill(w.server, op, w.client.tasks[k].token);
    }
  }

  lemma SignInFresh(w: World, user: UserId, next: Token, expiresAt: int, access: nat)
    requires Inv(w) && Fresh(w)
    ensures Fresh(Step(w, SignInServed(user, next, expiresAt, access)))
  {
    var w' := Step(w, SignInServed(user, next, expiresAt, access));
    assert forall t | t in w.mine :: t in w'.server.records && w'.server.records[t] == w.server.records[t];
    if next in w.server.records {
      ServerFresh(w, w');
    } else {
      forall t | !w'.reused && Unspent(w', t) ensures Dead(w'.server, t) <==> t in w'.killed {
        if t != next { assert Unspent(w, t); }
      }
      forall k | !w'.reused && 0 <= k < |w'.client.tasks| && w'.client.tasks[k].phase.Flying?
        ensures TaskFresh(w', w'.client.tasks[k])
      {
        assert TaskFresh(w, w.client.tasks[k]);
      }
    }
  }

  lemma AnswerFresh(w: World, i: nat, answer: Answer)
    requires Inv(w) && Fresh(w) && i < |w.callers| && w.callers[i].Waiting?
    ensures Fresh(Step(w, Answered(i, answer)))
  {
    var w' := Step(w, Answered(i, answer));
    if w'.client == w.client {
      ServerFresh(w, w');
    } else {
      var token := Current(w.client).value.refresh;
      assert w'.client.tasks == w.client.tasks + [Task(token, Flying(0), false)];
      assert Unspent(w, token);
      NewTaskFresh(w, w', token);
    }
  }

  /** A new flight presents a token never presented before. */
  lemma NewTaskFresh(w: World, w': World, token: Token)
    requires Inv(w) && Fresh(w) && Unspent(w, token) && w'.client.tasks == w.client.tasks + [Task(token, Flying(0), false)]
    requires w'.server == w.server && w'.mine == w.mine && w'.reused == w.reused && w'.killed == w.killed
    ensures Fresh(w')
  {
    forall t | !w'.reused && Unspent(w', t) ensures Dead(w'.server, t) <==> t in w'.killed {
      assert Unspent(w, t) by {
        forall k | 0 <= k < |w.client.tasks| ensures w.client.tasks[k].token != t {
          assert w'.client.tasks[k] == w.client.tasks[k];
        }
      }
    }
    forall k | !w'.reused && 0 <= k < |w'.client.tasks| && w'.client.tasks[k].phase.Flying?
      ensures TaskFresh(w', w'.client.tasks[k])
    {
      if k < |w.client.tasks| { assert TaskFresh(w, w.client.tasks[k]); }
    }
  }

  /** Flight k presents its token and the server processes that. */
  predicate Presents(w: World, k: nat, m: Move) {
    && m.RefreshSend? && m.k == k && (m.send.Delivered? || m.send.ReplyLost? || m.send.Unusable?)
    && k < |w.client.tasks| && w.client.tasks[k].phase.Flying?
  }

  /** The server rotates flight k's token and the reply is lost. */
  predicate RotatesUnseen(w: World, k: nat, m: Move) {
    && Presents(w, k, m) && m.send.ReplyLost?
    && RefreshOp(w.server, w.client.tasks[k].token, m.send.now, m.send.next, m.send.expiresAt).1.Issued?
  }

  predicate Replays(w: World, m: Move) {
    && m.RefreshSend? && Presents(w, m.k, m)
    && (w.client.tasks[m.k].rotated || w.client.tasks[m.k].token in w.killed)
  }

  lemma FailedFresh(w: World, k: nat, send: Send)
    requires Inv(w) && Fresh(w) && k < |w.client.tasks| && w.client.tasks[k].phase.Flying? && (send.Failed? || send.Rejected?)
    ensures Fresh(OnSend(w, k, send))
  {
    var w' := OnSend(w, k, send);
    UnspentKept(w', w);
    forall l | !w'.reused && 0 <= l < |w'.client.tasks| && w'.client.tasks[l].phase.Flying?
      ensures TaskFresh(w', w'.client.tasks[l])
    {
      assert TaskFresh(w, w.client.tasks[l]);
    }
  }

  /** A processed send revokes this flight's token and no other of this client, unless it is a replay. */
  lemma PresentFresh(w: World, k: nat, send: Send)
    requires Inv(w) && Fresh(w) && Presents(w, k, RefreshSend(k, send))
    ensures Fresh(OnSend(w, k, send))
    ensures !w.reused ==> (OnSend(w, k, send).reused <==> Replays(w, RefreshSend(k, send)))
  {
    var w' := OnSend(w, k, send);
    var token := w.client.tasks[k].token;
    assert token in w.mine && token in w.server.records;
    if !w.reused { assert TaskFresh(w, w.client.tasks[k]); }
    assert w.server.records.Keys <= w'.server.records.Keys;
    forall t | !w'.reused && Unspent(w', t) ensures Dead(w'.server, t) <==> t in w'.killed {
      if t in w.mine {
        assert Unspent(w, t) && t != token by {
          assert w'.client.tasks[k].token == token;
          assert forall l | 0 <= l < |w.client.tasks| :: w'.client.tasks[l].token == w.client.tasks[l].token;
        }
      }
    }
    forall l | !w'.reused && 0 <= l < |w'.client.tasks| && w'.client.tasks[l].phase.Flying?
      ensures TaskFresh(w', w'.client.tasks[l])
    {
      assert w.client.refreshTask == Some(k);
      assert l == k;
    }
  }

  lemma StepFresh(w: World, m: Move)
    requires Inv(w) && Fresh(w)
    ensures Fresh(Step(w, m))
    ensures Step(w, m).reused <==> w.reused || Replays(w, m)
  {
    match m
    case Answered(i, answer) => if i < |w.callers| && w.callers[i].Waiting? { AnswerFresh(w, i, answer); }
    case RefreshSend(k, send) =>
      if Presents(w, k, m) { PresentFresh(w, k, send); }
      else if k < |w.client.tasks| && w.client.tasks[k].phase.Flying? { FailedFresh(w, k, send); }
    case SignInServed(user, next, expiresAt, access) => SignInFresh(w, user, next, expiresAt, access);
    case Elsewhere(op) => ElsewhereFresh(w, op);
    case _ => ServerFresh(w, Step(w, m));
  }

  // ---- along a run ----

  /** The world before the i-th move. */
  function At(w: World, moves: seq<Move>, i: nat): World
    requires i <= |moves|
  {
    Run(w, moves[..i])
  }

  lemma {:induction false} RunNext(w: World, moves: seq<Move>, m: Move)
    ensures Run(w, moves + [m]) == Step(Run(w, moves), m)
    decreases |moves|
  {
    if moves != [] {
      assert (moves + [m])[1..] == moves[1..] + [m];
      RunNext(Step(w, moves[0]), moves[1..], m);
    }
  }

  lemma AtNext(w: World, moves: seq<Move>, n: nat)
    requires n < |moves|
    ensures At(w, moves, n + 1) == Step(At(w, moves, n), moves[n])
  {
    assert moves[..n + 1] == moves[..n] + [moves[n]];
    RunNext(w, moves[..n], moves[n]);
  }

  predicate UnseenAt(w: World, moves: seq<Move>, i: nat, k: nat) {
    i < |moves| && RotatesUnseen(At(w, moves, i), k, moves[i])
  }

  predicate PresentedAt(w: World, moves: seq<Move>, j: nat, k: nat) {
    j < |moves| && Presents(At(w, moves, j), k, moves[j])
  }

  /** The i-th move is someone else's and revokes the token. */
  predicate KilledAt(w: World, moves: seq<Move>, i: nat, token: Token) {
    i < |moves| && moves[i].Elsewhere? && token in KilledBy(At(w, moves, i).server, moves[i].op)
  }

  function Tasks(w: World, moves: seq<Move>, n: nat): seq<Task>
    requires n <= |moves|
  {
    At(w, moves, n).client.tasks
  }

  predicate RotatedAt(w: World, moves: seq<Move>, n: nat, k: nat) {
    n <= |moves| && k < |Tasks(w, moves, n)| && Tasks(w, moves, n)[k].rotated
  }

  lemma StepRotated(w: World, m: Move, k: nat)
    ensures var tasks, tasks' := w.client.tasks, Step(w, m).client.tasks;
      k < |tasks'| && tasks'[k].rotated <==> (k < |tasks| && tasks[k].rotated) || RotatesUnseen(w, k, m)
  {
  }

  lemma RotatedNext(w: World, moves: seq<Move>, n: nat, k: nat)
    requires n < |moves|
    ensures RotatedAt(w, moves, n + 1, k) <==> RotatedAt(w, moves, n, k) || UnseenAt(w, moves, n, k)
  {
    AtNext(w, moves, n);
    StepRotated(At(w, moves, n), moves[n], k);
  }

  /** `rotated` is what it says: an earlier send of the flight rotated its token unseen. */
  lemma {:induction false} RotatedHasReason(w: World, moves: seq<Move>, n: nat, k: nat) returns (i: nat)
    requires RotatedAt(w, moves, n, k) && w.client.tasks == []
    ensures i < n && UnseenAt(w, moves, i, k)
    decreases n
  {
    if n == 0 {
      assert false;
    } else {
      RotatedNext(w, moves, n - 1, k);
      if UnseenAt(w, moves, n - 1, k) { i := n - 1; } else { i := RotatedHasReason(w, moves, n - 1, k); }
    }
  }

  lemma {:induction false} UnseenLeavesMark(w: World, moves: seq<Move>, n: nat, k: nat, i: nat)
    requires i < n <= |moves| && UnseenAt(w, moves, i, k)
    ensures RotatedAt(w, moves, n, k)
    decreases n
  {
    RotatedNext(w, moves, n - 1, k);
    if i < n - 1 { UnseenLeavesMark(w, moves, n - 1, k, i); }
  }

  lemma StepKilled(w: World, m: Move)
    ensures Step(w, m).killed == w.killed + (if m.Elsewhere? then KilledBy(w.server, m.op) else {})
  {
  }

  lemma KilledNext(w: World, moves: seq<Move>, n: nat, token: Token)
    requires n < |moves|
    ensures token in At(w, moves, n + 1).killed <==> token in At(w, moves, n).killed || KilledAt(w, moves, n, token)
  {
    AtNext(w, moves, n);
    StepKilled(At(w, moves, n), moves[n]);
  }

  lemma {:induction false} KilledHasReason(w: World, moves: seq<Move>, n: nat, token: Token) returns (i: nat)
    requires n <= |moves| && token in At(w, moves, n).killed && w.killed == {}
    ensures i < n && KilledAt(w, moves, i, token)
    decreases n
  {
    if n == 0 {
      assert false;
    } else {
      KilledNext(w, moves, n - 1, token);
      if KilledAt(w, moves, n - 1, token) { i := n - 1; } else { i := KilledHasReason(w, moves, n - 1, token); }
    }
  }

  lemma {:induction false} KillLeavesMark(w: World, moves: seq<Move>, n: nat, token: Token, i: nat)
    requires i < n <= |moves| && KilledAt(w, moves, i, token)
    ensures token in At(w, moves, n).killed
    decreases n
  {
    KilledNext(w, moves, n - 1, token);
    if i < n - 1 { KillLeavesMark(w, moves, n - 1, token, i); }
  }

  /**
   The i-th move spoils the token that flight k presents with the j-th: the server rotated it for this
   flight and the reply was lost, or someone else had it revoked.
   */
  predicate SpoiltAt(w: World, moves: seq<Move>, i: nat, j: nat, k: nat) {
    && i < j && PresentedAt(w, moves, j, k)
    && (UnseenAt(w, moves, i, k) || KilledAt(w, moves, i, Tasks(w, moves, j)[k].token))
  }

  ghost predicate SpoiltBefore(w: World, moves: seq<Move>, n: nat) {
    exists i: nat, j: nat, k: nat :: j < n && SpoiltAt(w, moves, i, j, k)
  }

  lemma ReplayIsSpoilt(w: World, moves: seq<Move>, n: nat)
    requires n < |moves| && w.client.tasks == [] && w.killed == {} && Replays(At(w, moves, n), moves[n])
    ensures SpoiltBefore(w, moves, n + 1)
  {
    var k := moves[n].k;
    assert PresentedAt(w, moves, n, k);
    var i;
    if Tasks(w, moves, n)[k].rotated {
      i := RotatedHasReason(w, moves, n, k);
    } else {
      i := KilledHasReason(w, moves, n, Tasks(w, moves, n)[k].token);
    }
    assert SpoiltAt(w, moves, i, n, k);
  }

  lemma SpoiltIsReplay(w: World, moves: seq<Move>, i: nat, j: nat, k: nat)
    requires SpoiltAt(w, moves, i, j, k)
    ensures Replays(At(w, moves, j), moves[j])
  {
    if UnseenAt(w, moves, i, k) {
      UnseenLeavesMark(w, moves, j, k, i);
    } else {
      KillLeavesMark(w, moves, j, Tasks(w, moves, j)[k].token, i);
    }
  }

  lemma SpoiltNext(w: World, moves: seq<Move>, n: nat)
    requires n < |moves| && w.client.tasks == [] && w.killed == {}
    ensures SpoiltBefore(w, moves, n + 1) <==> SpoiltBefore(w, moves, n) || Replays(At(w, moves, n), moves[n])
  {
    if SpoiltBefore(w, moves, n + 1) {
      var i: nat, j: nat, k: nat :| j < n + 1 && SpoiltAt(w, moves, i, j, k);
      if j == n { SpoiltIsReplay(w, moves, i, j, k); }
    }
    if Replays(At(w, moves, n), moves[n]) { ReplayIsSpoilt(w, moves, n); }
  }

  lemma {:induction false} ReusedSoFar(w: World, moves: seq<Move>, n: nat)
    requires n <= |moves| && Inv(w) && Fresh(w) && w.client.tasks == [] && w.killed == {} && !w.reused
    ensures Inv(At(w, moves, n)) && Fresh(At(w, moves, n))
    ensures At(w, moves, n).reused <==> SpoiltBefore(w, moves, n)
    decreases n
  {
    if n > 0 {
      ReusedSoFar(w, moves, n - 1);
      AtNext(w, moves, n - 1);
      StepKeeps(At(w, moves, n - 1), moves[n - 1]);
      StepFresh(At(w, moves, n - 1), moves[n - 1]);
      SpoiltNext(w, moves, n - 1);
    } else {
      assert At(w, moves, 0) == w;
    }
  }

  /** Others present no token of this client and none that is revoked already. */
  predicate ConsiderateAt(w: World, moves: seq<Move>, i: nat) {
    && i < |moves|
    && (moves[i].Elsewhere? && moves[i].op.Refresh? ==>
          moves[i].op.token !in At(w, moves, i).mine && !Dead(At(w, moves, i).server, moves[i].op.token))
  }

  lemma StepApart(w: World, m: Move)
    requires Inv(w) && w.killed !! w.mine && w.killed <= w.server.records.Keys
    requires m.Elsewhere? && m.op.Refresh? ==> m.op.token !in w.mine && !Dead(w.server, m.op.token)
    ensures Step(w, m).killed !! Step(w, m).mine
  {
  }

  lemma {:induction false} OthersApart(w: World, moves: seq<Move>, n: nat)
    requires n <= |moves| && Inv(w) && Fresh(w) && w.client.tasks == [] && w.killed == {} && !w.reused
    requires forall i: nat | i < n :: ConsiderateAt(w, moves, i)
    ensures At(w, moves, n).killed !! At(w, moves, n).mine
    decreases n
  {
    if n > 0 {
      OthersApart(w, moves, n - 1);
      ReusedSoFar(w, moves, n - 1);
      AtNext(w, moves, n - 1);
      assert ConsiderateAt(w, moves, n - 1);
      StepApart(At(w, moves, n - 1), moves[n - 1]);
    } else {
      assert At(w, moves, 0) == w;
    }
  }

  // ---- main results ----

  /** The app at launch with a stored session, or none. */
  function Launch(server: Auth, session: Option<Pair>): World {
    World(Client(session, session, None, []), [], [], server,
          if session.Some? then {session.value.refresh} else {}, false, {})
  }

  /** The stored refresh token was issued by the server. */
  predicate Known(server: Auth, session: Option<Pair>) {
    session.Some? ==> session.value.refresh in server.records
  }

  predicate Usable(server: Auth, session: Option<Pair>) {
    Known(server, session) && (session.Some? ==> !server.records[session.value.refresh].revoked)
  }

  /**
   Single flight meets single use: in every interleaving, whatever is lost, at most one refresh is
   unresolved at a time and it is the one in refreshTask, and no two flights ever present the same token.
   */
  lemma SingleFlight(server: Auth, session: Option<Pair>, moves: seq<Move>)
    requires Known(server, session)
    ensures var w := Run(Launch(server, session), moves); var tasks := w.client.tasks;
      && (forall k, l | 0 <= k < l < |tasks| :: !(tasks[k].phase.Flying? && tasks[l].phase.Flying?))
      && (forall k | 0 <= k < |tasks| && tasks[k].phase.Flying? :: w.client.refreshTask == Some(k))
      && (forall k, l | 0 <= k < l < |tasks| :: tasks[k].token != tasks[l].token)
  {
    assert Inv(Launch(server, session));
    RunKeeps(Launch(server, session), moves);
  }

  /**
   A send of this client reaches the server's reuse branch exactly when some flight is heard with a token
   that was spoilt before: the server had rotated it for this flight and the reply was lost, or someone
   else, another device of the user or a thief, had it revoked by presenting it or by a replay of any
   token of that user. A lost reply alone is not enough: if it was the flight's last attempt, or no later
   send of the flight is heard, the branch is not reached.
   */
  lemma ReuseExactlyWhen(server: Auth, session: Option<Pair>, moves: seq<Move>)
    requires Usable(server, session)
    ensures var w := Launch(server, session);
      Run(w, moves).reused <==> exists i: nat, j: nat, k: nat :: SpoiltAt(w, moves, i, j, k)
  {
    var w := Launch(server, session);
    assert Inv(w) && Fresh(w);
    ReusedSoFar(w, moves, |moves|);
    assert moves[..|moves|] == moves;
  }

  /** So while no reply is lost, and others present only live tokens of their own, it is never reached. */
  lemma NoLossNoReuse(server: Auth, session: Option<Pair>, moves: seq<Move>)
    requires Usable(server, session)
    requires forall i | 0 <= i < |moves| && moves[i].RefreshSend? :: !moves[i].send.ReplyLost?
    requires forall i: nat | i < |moves| :: ConsiderateAt(Launch(server, session), moves, i)
    ensures !Run(Launch(server, session), moves).reused
  {
    var w := Launch(server, session);
    ReuseExactlyWhen(server, session, moves);
    forall i: nat, j: nat, k: nat ensures !SpoiltAt(w, moves, i, j, k) {
      if SpoiltAt(w, moves, i, j, k) {
        assert !UnseenAt(w, moves, i, k);
        OthersApart(w, moves, j);
        ReusedSoFar(w, moves, j);
        KillLeavesMark(w, moves, j, Tasks(w, moves, j)[k].token, i);
        assert false;
      }
    }
  }

  /**
   It happens: when the reply of a processed refresh is lost, the flight's own retry presents the
   rotated token, and the server answers by revoking every session of the user.
   */
  lemma LostReplyTriggersReuse(user: UserId, pair: Pair, next: Token)
    requires next != pair.refresh
    ensures
      var server := SignInOp(EMPTY, user, pair.refresh, 100).0;
      var moves := [Call, SendRequest(0), Answered(0, Unauthorized), RefreshSend(0, ReplyLost(0, next, 100)),
                    RefreshSend(0, Delivered(0, next + 1, 100, 0))];
      var w := Run(Launch(server, Some(pair)), moves);
      Usable(server, Some(pair)) && w.reused && Active(w.server, user) == {}
  {
    var server := SignInOp(EMPTY, user, pair.refresh, 100).0;
    var moves := [Call, SendRequest(0), Answered(0, Unauthorized), RefreshSend(0, ReplyLost(0, next, 100)),
                  RefreshSend(0, Delivered(0, next + 1, 100, 0))];
    var w0 := Launch(server, Some(pair));
    var w1 := Step(w0, moves[0]);
    var w2 := Step(w1, moves[1]);
    var w3 := Step(w2, moves[2]);
    assert w3.client.tasks == [Task(pair.refresh, Flying(0), false)];
    var w4 := Step(w3, moves[3]);
    assert w4.client.tasks == [Task(pair.refresh, Flying(1), true)];
    assert Dead(w4.server, pair.refresh);
    var w5 := Step(w4, moves[4]);
    RefreshConserves(w4.server, pair.refresh, 0, next + 1, 100, user);
    assert Run(w0, moves) == Run(w1, moves[1..]);
    assert Run(w1, moves[1..]) == Run(w2, moves[1..][1..]);
    assert Run(w2, moves[1..][1..]) == Run(w3, moves[1..][1..][1..]);
    assert Run(w3, moves[1..][1..][1..]) == Run(w4, moves[1..][1..][1..][1..]);
    assert Run(w4, moves[1..][1..][1..][1..]) == w5;
  }

  /**
   Nor does this client have to lose anything: when another device of the user presents its own rotated
   token again, this client's next flight reaches the reuse branch although every reply arrived.
   */
  lemma ReplayElsewhereTriggersReuse(user: UserId, pair: Pair, other: Token, next: Token)
    requires other != pair.refresh && next != pair.refresh && next != other
    ensures
      var server := SignInOp(SignInOp(EMPTY, user, pair.refresh, 100).0, user, other, 100).0;
      var moves := [Elsewhere(Op.Refresh(other, 0, next, 100)), Elsewhere(Op.Refresh(other, 0, next + 1, 100)),
                    Call, SendRequest(0), Answered(0, Unauthorized), RefreshSend(0, Delivered(0, next + 2, 100, 0))];
      Usable(server, Some(pair)) && Run(Launch(server, Some(pair)), moves).reused
  {
    var server := SignInOp(SignInOp(EMPTY, user, pair.refresh, 100).0, user, other, 100).0;
    var moves := [Elsewhere(Op.Refresh(other, 0, next, 100)), Elsewhere(Op.Refresh(other, 0, next + 1, 100)),
                  Call, SendRequest(0), Answered(0, Unauthorized), RefreshSend(0, Delivered(0, next + 2, 100, 0))];
    var w0 := Launch(server, Some(pair));
    var w1 := Step(w0, moves[0]);
    assert Dead(w1.server, other) && !Dead(w1.server, pair.refresh);
    var w2 := Step(w1, moves[1]);
    assert Dead(w2.server, pair.refresh) && w2.client == w0.client && w2.callers == [];
    HeardAfterKill(w2, pair, next + 2);
    assert Run(w0, moves) == Run(w1, moves[1..]);
    assert Run(w1, moves[1..]) == Run(w2, moves[1..][1..]);
    assert moves[1..][1..] == [Call, SendRequest(0), Answered(0, Unauthorized), RefreshSend(0, Delivered(0, next + 2, 100, 0))];
  }

  lemma HeardAfterKill(w: World, pair: Pair, next: Token)
    requires w.client == Client(Some(pair), Some(pair), None, []) && w.callers == [] && Dead(w.server, pair.refresh)
    ensures Run(w, [Call, SendRequest(0), Answered(0, Unauthorized), RefreshSend(0, Delivered(0, next, 100, 0))]).reused
  {
    var moves := [Call, SendRequest(0), Answered(0, Unauthorized), RefreshSend(0, Delivered(0, next, 100, 0))];
    var w1 := Step(w, moves[0]);
    var w2 := Step(w1, moves[1]);
    var w3 := Step(w2, moves[2]);
    assert w3.client.tasks == [Task(pair.refresh, Flying(0), false)];
    var w4 := Step(w3, moves[3]);
    assert Run(w, moves) == Run(w1, moves[1..]);
    assert Run(w1, moves[1..]) == Run(w2, moves[1..][1..]);
    assert Run(w2, moves[1..][1..]) == Run(w3, moves[1..][1..][1..]);
    assert Run(w3, moves[1..][1..][1..]) == w4;
  }
}
