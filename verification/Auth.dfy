/**
 Refresh-token rotation. Tokens stand for their hashes (the hash is taken to be injective); a record
 is active until it is revoked. `born` numbers the records in creation order.
 */
module Auth {
  import opened Basics

  type Token = nat

  datatype Record = Record(user: UserId, expiresAt: int, revoked: bool, replacedBy: Option<Token>, born: nat)

  datatype Auth = Auth(records: map<Token, Record>, users: set<UserId>, count: nat)

  /** Unissued: the database refused the new row, because its hash is not new. */
  datatype Reply = Issued(token: Token, user: UserId) | Invalid | Reused | Expired | NoUser | Unissued

  datatype Op =
    | SignIn(user: UserId, next: Token, expiresAt: int)
    | Refresh(token: Token, now: int, next: Token, expiresAt: int)

  const EMPTY := Auth(map[], {}, 0)

  function Create(a: Auth, user: UserId, next: Token, expiresAt: int): Auth {
    a.(records := a.records[next := Record(user, expiresAt, false, None, a.count)], count := a.count + 1)
  }

  /** updateMany: every active record of the user is revoked. */
  function RevokeAll(a: Auth, user: UserId): Auth {
    a.(records := map t | t in a.records ::
      if a.records[t].user == user then a.records[t].(revoked := true) else a.records[t])
  }

  function Rotate(a: Auth, token: Token, next: Token, expiresAt: int): Auth
    requires token in a.records
  {
    var r := a.records[token];
    Create(a.(records := a.records[token := r.(revoked := true, replacedBy := Some(next))]), r.user, next, expiresAt)
  }

  function SignInOp(a: Auth, user: UserId, next: Token, expiresAt: int): (Auth, Reply) {
    var a1 := a.(users := a.users + {user});
    if next in a.records then (a1, Unissued) else (Create(a1, user, next, expiresAt), Issued(next, user))
  }

  function RefreshOp(a: Auth, token: Token, now: int, next: Token, expiresAt: int): (Auth, Reply) {
    if token !in a.records then (a, Invalid)
    else
      var r := a.records[token];
      if r.revoked then (RevokeAll(a, r.user), Reused)
      else if r.expiresAt <= now then (a, Expired)
      else if r.user !in a.users then (a, NoUser)
      else if next in a.records then (a, Unissued)
      else (Rotate(a, token, next, expiresAt), Issued(next, r.user))
  }

  function Do(a: Auth, op: Op): (Auth, Reply) {
    match op
    case SignIn(user, next, expiresAt) => SignInOp(a, user, next, expiresAt)
    case Refresh(token, now, next, expiresAt) => RefreshOp(a, token, now, next, expiresAt)
  }

  function Run(a: Auth, ops: seq<Op>): Auth
    decreases |ops|
  {
    if ops == [] then a else Run(Do(a, ops[0]).0, ops[1..])
  }

  /** AuthService with its table as a field. */
  class AuthService {
    var records: map<Token, Record>
    var users: set<UserId>
    var count: nat

    function State(): Auth
      reads this
    {
      Auth(records, users, count)
    }

    constructor ()
      ensures State() == EMPTY
    {
      records, users, count := map[], {}, 0;
    }

    method IssueTokenPair(user: UserId, next: Token, expiresAt: int) returns (r: Reply)
      modifies `records, `count
      ensures next in old(records) ==> State() == old(State()) && r == Unissued
      ensures next !in old(records) ==> State() == Create(old(State()), user, next, expiresAt) && r == Issued(next, user)
    {
      if next in records { return Unissued; }
      records := records[next := Record(user, expiresAt, false, None, count)];
      count := count + 1;
      return Issued(next, user);
    }

    method SignInWithApple(user: UserId, next: Token, expiresAt: int) returns (r: Reply)
      modifies this
      ensures (State(), r) == SignInOp(old(State()), user, next, expiresAt)
    {
      users := users + {user};
      r := IssueTokenPair(user, next, expiresAt);
    }

    method RefreshToken(token: Token, now: int, next: Token, expiresAt: int) returns (r: Reply)
      modifies `records, `count
      ensures (State(), r) == RefreshOp(old(State()), token, now, next, expiresAt)
    {
      if token !in records { return Invalid; }
      var record := records[token];
      if record.revoked {
        records := map t | t in records ::
          if records[t].user == record.user then records[t].(revoked := true) else records[t];
        return Reused;
      }
      if record.expiresAt <= now { return Expired; }
      if record.user !in users { return NoUser; }
      if next in records { return Unissued; }
      records := records[token := record.(revoked := true, replacedBy := Some(next))];
      r := IssueTokenPair(record.user, next, expiresAt);
    }
  }

  // ---- the chains of replacedBy links ----

  ghost predicate LinkOk(a: Auth, t: Token)
    requires t in a.records
  {
    var r := a.records[t];
    r.replacedBy.Some? ==>
      && r.revoked && r.replacedBy.value in a.records
      && a.records[r.replacedBy.value].user == r.user && r.born < a.records[r.replacedBy.value].born
  }

  ghost predicate ChainInv(a: Auth) {
    && (forall t | t in a.records :: LinkOk(a, t) && a.records[t].born < a.count)
    && (forall t, u | t in a.records && u in a.records && t != u ::
          a.records[t].replacedBy.Some? ==> a.records[t].replacedBy != a.records[u].replacedBy)
  }

  lemma CreateKeeps(a: Auth, user: UserId, next: Token, expiresAt: int)
    requires ChainInv(a) && next !in a.records
    ensures ChainInv(Create(a, user, next, expiresAt))
  {
    var a' := Create(a, user, next, expiresAt);
    forall t | t in a'.records ensures LinkOk(a', t) {
      if t != next { assert LinkOk(a, t); }
    }
  }

  lemma RotateKeeps(a: Auth, token: Token, next: Token, expiresAt: int)
    requires ChainInv(a) && token in a.records && !a.records[token].revoked && next !in a.records
    ensures ChainInv(Rotate(a, token, next, expiresAt))
  {
    var a' := Rotate(a, token, next, expiresAt);
    forall t | t in a'.records ensures LinkOk(a', t) {
      if t in a.records { assert LinkOk(a, t); }
    }
    forall t, u | t in a'.records && u in a'.records && t != u && a'.records[t].replacedBy.Some?
      ensures a'.records[t].replacedBy != a'.records[u].replacedBy
    {
      if t in a.records && u in a.records {
        assert LinkOk(a, t) && LinkOk(a, u);
      }
    }
  }

  lemma DoKeeps(a: Auth, op: Op)
    requires ChainInv(a)
    ensures ChainInv(Do(a, op).0)
  {
    match op
    case SignIn(user, next, expiresAt) =>
      var a1 := a.(users := a.users + {user});
      assert forall t | t in a1.records :: LinkOk(a, t) && LinkOk(a1, t);
      if next !in a.records { CreateKeeps(a1, user, next, expiresAt); }
    case Refresh(token, now, next, expiresAt) =>
      var r := RefreshOp(a, token, now, next, expiresAt);
      if r.1.Issued? { RotateKeeps(a, token, next, expiresAt); }
      else if r.1.Reused? {
        assert forall t | t in a.records :: LinkOk(a, t);
      }
  }

  /** k links further along the chain. */
  function Follow(a: Auth, t: Token, k: nat): Option<Token>
    decreases k
  {
    if k == 0 then Some(t)
    else if t in a.records && a.records[t].replacedBy.Some? then Follow(a, a.records[t].replacedBy.value, k - 1)
    else None
  }

  lemma {:induction false} FollowAges(a: Auth, t: Token, k: nat)
    requires ChainInv(a) && t in a.records && Follow(a, t, k).Some?
    ensures var u := Follow(a, t, k).value;
      && u in a.records && a.records[u].user == a.records[t].user
      && a.records[t].born + k <= a.records[u].born
      && (k > 0 ==> a.records[t].revoked)
    decreases k
  {
    if k > 0 {
      assert LinkOk(a, t);
      FollowAges(a, a.records[t].replacedBy.value, k - 1);
    }
  }

  lemma {:induction false} FollowMore(a: Auth, t: Token, i: nat, j: nat)
    requires Follow(a, t, i).Some?
    ensures Follow(a, t, i + j) == Follow(a, Follow(a, t, i).value, j)
    decreases i
  {
    if i > 0 { FollowMore(a, a.records[t].replacedBy.value, i - 1, j); }
  }

  lemma {:induction false} FollowBack(a: Auth, t: Token, u: Token, i: nat, j: nat)
    requires ChainInv(a) && t in a.records && u in a.records && i <= j
    requires Follow(a, t, i).Some? && Follow(a, t, i) == Follow(a, u, j)
    ensures Follow(a, u, j - i) == Some(t)
    decreases i
  {
    if i > 0 {
      FollowSome(a, t, i - 1, 1);
      FollowSome(a, u, j - 1, 1);
      FollowMore(a, t, i - 1, 1);
      FollowMore(a, u, j - 1, 1);
      var x, y := Follow(a, t, i - 1).value, Follow(a, u, j - 1).value;
      FollowAges(a, t, i - 1);
      FollowAges(a, u, j - 1);
      assert Follow(a, x, 1) == Follow(a, y, 1);
      assert Follow(a, x, 1) == a.records[x].replacedBy && Follow(a, y, 1) == a.records[y].replacedBy;
      FollowBack(a, t, u, i - 1, j - 1);
    }
  }

  lemma {:induction false} FollowSome(a: Auth, t: Token, i: nat, j: nat)
    requires Follow(a, t, i + j).Some?
    ensures Follow(a, t, i).Some?
    decreases i
  {
    if i > 0 { FollowSome(a, a.records[t].replacedBy.value, i - 1, j); }
  }

  lemma {:induction false} RunKeeps(a: Auth, ops: seq<Op>)
    requires ChainInv(a)
    ensures ChainInv(Run(a, ops))
    decreases |ops|
  {
    if ops != [] {
      DoKeeps(a, ops[0]);
      RunKeeps(Do(a, ops[0]).0, ops[1..]);
    }
  }

  /**
   In every run the links form disjoint acyclic chains within one user: chains that meet are the same
   chain (one start lies on the other's chain), none returns to a token, an active token is the end
   of its chain, and hence one chain holds at most one active token.
   */
  lemma RotationChains(ops: seq<Op>, t: Token, u: Token, i: nat, j: nat)
    requires var a := Run(EMPTY, ops);
      t in a.records && u in a.records && Follow(a, t, i).Some? && Follow(a, u, j).Some?
    ensures var a := Run(EMPTY, ops); var t', u' := Follow(a, t, i).value, Follow(a, u, j).value;
      && t' in a.records && u' in a.records && a.records[t'].user == a.records[t].user
      && (t' == t ==> i == 0)
      && (!a.records[t].revoked ==> a.records[t].replacedBy.None?)
      && (t' == u' ==> Follow(a, t, if i <= j then 0 else i - j) == Follow(a, u, if i <= j then j - i else 0))
      && (t == u && !a.records[t'].revoked && !a.records[u'].revoked ==> t' == u')
  {
    var a := Run(EMPTY, ops);
    RunKeeps(EMPTY, ops);
    FollowAges(a, t, i);
    FollowAges(a, u, j);
    assert LinkOk(a, t);
    var t', u' := Follow(a, t, i).value, Follow(a, u, j).value;
    if t' == u' {
      if i <= j { FollowBack(a, t, u, i, j); } else { FollowBack(a, u, t, j, i); }
    }
    if t == u && !a.records[t'].revoked && !a.records[u'].revoked {
      if i <= j {
        FollowMore(a, t, i, j - i);
        FollowAges(a, t', j - i);
      } else {
        FollowMore(a, t, j, i - j);
        FollowAges(a, u', i - j);
      }
    }
  }

  // ---- how many tokens are active ----

  function Active(a: Auth, user: UserId): set<Token> {
    set t | t in a.records && a.records[t].user == user && !a.records[t].revoked
  }

  function SignIns(ops: seq<Op>, user: UserId): nat {
    if ops == [] then 0
    else (if ops[0].SignIn? && ops[0].user == user then 1 else 0) + SignIns(ops[1..], user)
  }

  /** An accepted refresh exchanges one active token for another of the same user. */
  lemma RefreshConserves(a: Auth, token: Token, now: int, next: Token, expiresAt: int, user: UserId)
    ensures var r := RefreshOp(a, token, now, next, expiresAt);
      && (r.1.Issued? ==> |Active(r.0, user)| == |Active(a, user)|)
      && (r.1.Reused? ==> Active(r.0, user) == if user == a.records[token].user then {} else Active(a, user))
      && (!r.1.Issued? && !r.1.Reused? ==> r.0 == a)
  {
    var r := RefreshOp(a, token, now, next, expiresAt);
    if r.1.Issued? {
      if user == a.records[token].user {
        assert Active(r.0, user) == Active(a, user) - {token} + {next};
      } else {
        assert Active(r.0, user) == Active(a, user);
      }
    }
  }

  lemma {:induction false} ActiveAtMostSignIns(a: Auth, ops: seq<Op>, user: UserId)
    ensures |Active(Run(a, ops), user)| <= |Active(a, user)| + SignIns(ops, user)
    decreases |ops|
  {
    if ops != [] {
      var a' := Do(a, ops[0]).0;
      match ops[0] {
        case SignIn(u, next, expiresAt) =>
          if next !in a.records {
            assert Active(a', user) == Active(a, user) + if u == user then {next} else {};
          } else {
            assert Active(a', user) == Active(a, user);
          }
        case Refresh(token, now, next, expiresAt) =>
          RefreshConserves(a, token, now, next, expiresAt, user);
      }
      ActiveAtMostSignIns(a', ops[1..], user);
    }
  }

  /** A user never has more active tokens than sign-ins. */
  lemma ActiveCountBounded(ops: seq<Op>, user: UserId)
    ensures |Active(Run(EMPTY, ops), user)| <= SignIns(ops, user)
  {
    ActiveAtMostSignIns(EMPTY, ops, user);
  }

  // ---- single use and permanent kill ----

  /** How often a refresh with this token is accepted along a run. */
  function Accepted(a: Auth, ops: seq<Op>, token: Token): nat
    decreases |ops|
  {
    if ops == [] then 0
    else
      var r := Do(a, ops[0]);
      (if ops[0].Refresh? && ops[0].token == token && r.1.Issued? then 1 else 0) + Accepted(r.0, ops[1..], token)
  }

  predicate Dead(a: Auth, token: Token) {
    token in a.records && a.records[token].revoked
  }

  lemma {:induction false} DeadStaysDead(a: Auth, ops: seq<Op>, token: Token)
    requires Dead(a, token)
    ensures Dead(Run(a, ops), token) && Accepted(a, ops, token) == 0
    decreases |ops|
  {
    if ops != [] {
      assert Dead(Do(a, ops[0]).0, token);
      DeadStaysDead(Do(a, ops[0]).0, ops[1..], token);
    }
  }

  /** Over any run from any state a token is accepted at most once. */
  lemma {:induction false} SingleUse(a: Auth, ops: seq<Op>, token: Token)
    ensures Accepted(a, ops, token) <= 1
    decreases |ops|
  {
    if ops != [] {
      var r := Do(a, ops[0]);
      if ops[0].Refresh? && ops[0].token == token && r.1.Issued? {
        assert Dead(r.0, token);
        DeadStaysDead(r.0, ops[1..], token);
      } else {
        SingleUse(r.0, ops[1..], token);
      }
    }
  }

  /**
   Replaying a revoked token kills, for good, every token its user held at that moment, and
   touches nobody else's.
   */
  lemma ReplayKillsForGood(a: Auth, stolen: Token, now: int, next: Token, expiresAt: int, ops: seq<Op>, token: Token)
    requires Dead(a, stolen) && token in a.records
    ensures var a' := RefreshOp(a, stolen, now, next, expiresAt).0;
      && RefreshOp(a, stolen, now, next, expiresAt).1.Reused?
      && (a.records[token].user == a.records[stolen].user ==> Dead(Run(a', ops), token) && Accepted(a', ops, token) == 0)
      && (a.records[token].user != a.records[stolen].user ==> a'.records[token] == a.records[token])
  {
    var a' := RefreshOp(a, stolen, now, next, expiresAt).0;
    if a.records[token].user == a.records[stolen].user {
      DeadStaysDead(a', ops, token);
    }
  }

  // ---- exactly when a refresh is accepted ----

  /** The state before the i-th operation of a run. */
  function At(ops: seq<Op>, i: nat): Auth
    requires i <= |ops|
  {
    Run(EMPTY, ops[..i])
  }

  lemma {:induction false} RunNext(a: Auth, ops: seq<Op>, op: Op)
    ensures Run(a, ops + [op]) == Do(Run(a, ops), op).0
    decreases |ops|
  {
    if ops != [] {
      assert (ops + [op])[1..] == ops[1..] + [op];
      RunNext(Do(a, ops[0]).0, ops[1..], op);
    }
  }

  lemma AtNext(ops: seq<Op>, n: nat)
    requires n < |ops|
    ensures At(ops, n + 1) == Do(At(ops, n), ops[n]).0
  {
    assert ops[..n + 1] == ops[..n] + [ops[n]];
    RunNext(EMPTY, ops[..n], ops[n]);
  }

  /** The i-th operation, a sign-in or a refresh, was answered with this token for this user. */
  predicate IssuedAt(ops: seq<Op>, i: nat, token: Token, user: UserId) {
    i < |ops| && Do(At(ops, i), ops[i]).1 == Issued(token, user)
  }

  /** The operation presents this token and is accepted, or replays any token of this user. */
  predicate Revokes(a: Auth, op: Op, token: Token, user: UserId) {
    && op.Refresh?
    && ((op.token == token && Do(a, op).1.Issued?) || (Do(a, op).1.Reused? && a.records[op.token].user == user))
  }

  predicate RevokedAt(ops: seq<Op>, i: nat, token: Token, user: UserId) {
    i < |ops| && Revokes(At(ops, i), ops[i], token, user)
  }

  /** Up to the n-th operation the token was issued by the i-th one and by no other. */
  ghost predicate BornAt(ops: seq<Op>, n: nat, i: nat, token: Token)
    requires n <= |ops|
  {
    var records := At(ops, n).records;
    && token in records && i < n && IssuedAt(ops, i, token, records[token].user)
    && records[token].expiresAt == ops[i].expiresAt
    && (records[token].revoked <==> exists j: nat :: i < j < n && RevokedAt(ops, j, token, records[token].user))
  }

  lemma IssuedIsNew(a: Auth, op: Op, token: Token)
    ensures token in Do(a, op).0.records <==> token in a.records || (Do(a, op).1.Issued? && Do(a, op).1.token == token)
    ensures Do(a, op).1.Issued? ==>
      && Do(a, op).1.token !in a.records && Do(a, op).1.token == op.next
      && var r := Do(a, op).0.records[op.next];
         r.user == Do(a, op).1.user && r.expiresAt == op.expiresAt && !r.revoked
  {
  }

  lemma OldRecordKept(a: Auth, op: Op, token: Token)
    requires token in a.records
    ensures var r := Do(a, op); var was, now := a.records[token], r.0.records[token];
      && now.user == was.user && now.expiresAt == was.expiresAt
      && now.revoked == (was.revoked || Revokes(a, op, token, was.user))
  {
  }

  lemma BornStays(ops: seq<Op>, n: nat, i: nat, token: Token)
    requires n < |ops| && BornAt(ops, n, i, token)
    ensures BornAt(ops, n + 1, i, token)
  {
    AtNext(ops, n);
    IssuedIsNew(At(ops, n), ops[n], token);
    OldRecordKept(At(ops, n), ops[n], token);
    var user := At(ops, n).records[token].user;
    assert RevokedAt(ops, n, token, user) || At(ops, n).records[token].revoked <==> At(ops, n + 1).records[token].revoked;
  }

  lemma BornNow(ops: seq<Op>, n: nat, token: Token)
    requires n < |ops| && token !in At(ops, n).records && token in At(ops, n + 1).records
    ensures BornAt(ops, n + 1, n, token)
  {
    AtNext(ops, n);
    IssuedIsNew(At(ops, n), ops[n], token);
  }

  /** Every record of a run was issued by some operation of it. */
  lemma {:induction false} RecordHasOrigin(ops: seq<Op>, n: nat, token: Token) returns (i: nat)
    requires n <= |ops| && token in At(ops, n).records
    ensures BornAt(ops, n, i, token)
    decreases n
  {
    if n == 0 {
      assert false;
    } else if token in At(ops, n - 1).records {
      i := RecordHasOrigin(ops, n - 1, token);
      BornStays(ops, n - 1, i, token);
    } else {
      i := n - 1;
      BornNow(ops, n - 1, token);
    }
  }

  /** And a token once issued has its record ever after. */
  lemma {:induction false} IssuedHasRecord(ops: seq<Op>, n: nat, i: nat, token: Token, user: UserId)
    requires i < n <= |ops| && IssuedAt(ops, i, token, user)
    ensures BornAt(ops, n, i, token) && At(ops, n).records[token].user == user
    decreases n
  {
    AtNext(ops, n - 1);
    IssuedIsNew(At(ops, n - 1), ops[n - 1], token);
    if i == n - 1 {
      BornNow(ops, i, token);
    } else {
      IssuedHasRecord(ops, n - 1, i, token, user);
      BornStays(ops, n - 1, i, token);
      OldRecordKept(At(ops, n - 1), ops[n - 1], token);
    }
  }

  ghost predicate UsersInv(a: Auth) {
    forall t | t in a.records :: a.records[t].user in a.users
  }

  lemma {:induction false} HoldersAreRegistered(a: Auth, ops: seq<Op>)
    requires UsersInv(a)
    ensures UsersInv(Run(a, ops))
    decreases |ops|
  {
    if ops != [] {
      assert UsersInv(Do(a, ops[0]).0);
      HoldersAreRegistered(Do(a, ops[0]).0, ops[1..]);
    }
  }

  /** The answer for a token that the i-th operation of the run was answered with. */
  ghost function AnswerTo(ops: seq<Op>, i: nat, token: Token, user: UserId, now: int, next: Token): Reply
    requires i < |ops|
  {
    if exists j: nat :: i < j && RevokedAt(ops, j, token, user) then Reused
    else if ops[i].expiresAt <= now then Expired
    else if exists k: nat, other: UserId :: IssuedAt(ops, k, next, other) then Unissued
    else Issued(next, user)
  }

  /**
   What the server answers to every refresh after every run, by what happened before: a token no operation
   was answered with is invalid; one accepted since, or whose user's token was replayed since, is reuse;
   otherwise it is expired from the moment the operation that issued it gave; otherwise it is exchanged for
   the next token unless that one was issued before.
   */
  lemma AnswersExactly(ops: seq<Op>, token: Token, now: int, next: Token, expiresAt: int)
    ensures var reply := RefreshOp(Run(EMPTY, ops), token, now, next, expiresAt).1;
      if forall i: nat, user: UserId :: !IssuedAt(ops, i, token, user) then reply == Invalid
      else exists i: nat, user: UserId :: IssuedAt(ops, i, token, user) && reply == AnswerTo(ops, i, token, user, now, next)
  {
    var n := |ops|;
    assert ops[..n] == ops;
    var a := Run(EMPTY, ops);
    HoldersAreRegistered(EMPTY, ops);
    if token in a.records {
      var i := RecordHasOrigin(ops, n, token);
      var user := a.records[token].user;
      assert IssuedAt(ops, i, token, user);
      KnownIffIssued(ops, next);
      assert forall j: nat :: i < j < n && RevokedAt(ops, j, token, user) <==> i < j && RevokedAt(ops, j, token, user);
    } else {
      KnownIffIssued(ops, token);
    }
  }

  lemma KnownIffIssued(ops: seq<Op>, token: Token)
    ensures token in Run(EMPTY, ops).records <==> exists i: nat, user: UserId :: IssuedAt(ops, i, token, user)
  {
    var n := |ops|;
    assert ops[..n] == ops;
    if token in Run(EMPTY, ops).records {
      var i := RecordHasOrigin(ops, n, token);
    }
    forall i: nat, user: UserId | IssuedAt(ops, i, token, user) ensures token in Run(EMPTY, ops).records {
      IssuedHasRecord(ops, n, i, token, user);
    }
  }

  /** A user is registered by signing in; a refresh for a user who is not is refused and changes nothing. */
  lemma StrangersAreRefused(a: Auth, token: Token, now: int, next: Token, expiresAt: int)
    requires token in a.records && !a.records[token].revoked && now < a.records[token].expiresAt
    requires a.records[token].user !in a.users
    ensures RefreshOp(a, token, now, next, expiresAt) == (a, NoUser)
  {
  }

  /** Once a token has expired it is refused in every continuation, at every later time. */
  lemma ExpiredForGood(a: Auth, ops: seq<Op>, token: Token, now: int, next: Token, expiresAt: int)
    requires token in a.records && a.records[token].expiresAt <= now
    ensures var r := RefreshOp(Run(a, ops), token, now, next, expiresAt); r.1.Expired? || r.1.Reused?
  {
    ExpiryKept(a, ops, token);
  }

  lemma {:induction false} ExpiryKept(a: Auth, ops: seq<Op>, token: Token)
    requires token in a.records
    ensures token in Run(a, ops).records && Run(a, ops).records[token].expiresAt == a.records[token].expiresAt
    decreases |ops|
  {
    if ops != [] {
      OldRecordKept(a, ops[0], token);
      ExpiryKept(Do(a, ops[0]).0, ops[1..], token);
    }
  }

  // ---- exactly what a link says ----

  /** The i-th operation traded token t for token u. */
  predicate TradedAt(ops: seq<Op>, i: nat, t: Token, u: Token) {
    && i < |ops| && ops[i].Refresh? && ops[i].token == t
    && Do(At(ops, i), ops[i]).1.Issued? && Do(At(ops, i), ops[i]).1.token == u
  }

  predicate Linked(a: Auth, t: Token, u: Token) {
    t in a.records && a.records[t].replacedBy == Some(u)
  }

  lemma LinkStep(a: Auth, op: Op, t: Token, u: Token)
    requires ChainInv(a)
    ensures Linked(Do(a, op).0, t, u)
       <==> Linked(a, t, u) || (op.Refresh? && op.token == t && Do(a, op).1.Issued? && Do(a, op).1.token == u)
  {
    if t in a.records { assert LinkOk(a, t); }
  }

  ghost predicate TradedBefore(ops: seq<Op>, n: nat, t: Token, u: Token) {
    exists i: nat :: i < n && TradedAt(ops, i, t, u)
  }

  lemma {:induction false} LinkSoFar(ops: seq<Op>, n: nat, t: Token, u: Token)
    requires n <= |ops|
    ensures ChainInv(At(ops, n)) && (Linked(At(ops, n), t, u) <==> TradedBefore(ops, n, t, u))
    decreases n
  {
    if n > 0 {
      LinkSoFar(ops, n - 1, t, u);
      AtNext(ops, n - 1);
      DoKeeps(At(ops, n - 1), ops[n - 1]);
      LinkStep(At(ops, n - 1), ops[n - 1], t, u);
      assert TradedBefore(ops, n, t, u) <==> TradedBefore(ops, n - 1, t, u) || TradedAt(ops, n - 1, t, u);
    }
  }

  /** In every run a record links to another exactly when some refresh traded the one token for the other. */
  lemma LinksAreTrades(ops: seq<Op>, t: Token, u: Token)
    ensures Linked(Run(EMPTY, ops), t, u) <==> exists i: nat :: TradedAt(ops, i, t, u)
  {
    LinkSoFar(ops, |ops|, t, u);
    assert ops[..|ops|] == ops;
    if i: nat :| TradedAt(ops, i, t, u) { assert TradedBefore(ops, |ops|, t, u); }
  }
}
