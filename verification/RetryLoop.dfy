/**
 One call of the device's performData: the loop over `attempt` and `didRefresh`, the refresh it may
 run (itself an unauthorised performData). Backoff has the pauses between attempts.
 */
module RetryLoop {
  import opened Basics
  import ApiClient

  const MAX_ATTEMPTS := ApiClient.MAX_ATTEMPTS

  /** How one send ends. */
  datatype Reply = Http(status: nat) | NonHttp | Transport | Cancelled

  /** How a call ends: the status of a 2xx answer, or the error thrown. */
  datatype Outcome =
    | Got(status: nat)
    | Server(status: nat)
    | TransportError
    | Unauthorized
    | Decoding
    | CancelledOut

  /**
   What the world answers to the k-th pass of a loop: whether an access token is at hand before the
   send, the reply, and whether the pause after it runs to its end (it is cancellable).
   */
  datatype Net = Net(token: nat -> bool, reply: nat -> Reply, rests: nat -> bool)

  /** refreshTokens: join a flight (None when it succeeds), own one, or find no stored session. */
  datatype Refresh = Join(failure: Option<Outcome>) | Own(net: Net, parses: bool) | NoSession

  /** sends and refreshSends count the requests of this loop and of its refresh. */
  datatype Run = Run(outcome: Outcome, sends: nat, refreshes: nat, refreshSends: nat)

  predicate Ok(r: Reply) { r.Http? && 200 <= r.status < 300 }

  predicate Retryable(r: Reply) { r.Transport? || (r.Http? && r.status >= 500) }

  /** The error performData throws for a reply it gives up on. */
  function Thrown(r: Reply): Outcome {
    match r
    case Http(status) => Server(status)
    case Cancelled => CancelledOut
    case _ => TransportError
  }

  function Ends(outcome: Outcome): Run { Run(outcome, 0, 0, 0) }

  function Sent(rest: Run): Run { rest.(sends := rest.sends + 1) }

  function Refreshed(sends: nat, rest: Run): Run {
    rest.(refreshes := rest.refreshes + 1, refreshSends := rest.refreshSends + sends)
  }

  /** What becomes of the `attempt`-th pass without a refresh: None is another pass. */
  function Verdict(reply: Reply, attempt: nat, rests: bool): (r: Option<Outcome>)
    ensures r.None? ==> attempt < MAX_ATTEMPTS
  {
    if Ok(reply) then Some(Got(reply.status))
    else if Retryable(reply) && attempt < MAX_ATTEMPTS then (if rests then None else Some(CancelledOut))
    else Some(Thrown(reply))
  }

  /** How refreshTokens ended: the error it throws, if any, and the requests it sent. */
  type RefreshEnd = (Option<Outcome>, nat)

  /** performData from its loop head, with `attempt` passes begun; `end` is how a refresh in it ends. */
  function Perform(authorized: bool, net: Net, end: RefreshEnd, attempt: nat, didRefresh: bool): Run
    requires attempt <= MAX_ATTEMPTS && (attempt == MAX_ATTEMPTS ==> didRefresh)
    decreases !didRefresh, MAX_ATTEMPTS - attempt, net
  {
    if authorized && !net.token(attempt) then Ends(Unauthorized)
    else
      var reply := net.reply(attempt);
      if reply == Http(401) && authorized && !didRefresh then
        if end.0.Some? then Sent(Refreshed(end.1, Ends(end.0.value)))
        else Sent(Refreshed(end.1, Perform(authorized, net, end, attempt + 1, true)))
      else
        var verdict := Verdict(reply, attempt + 1, net.rests(attempt));
        Sent(if verdict.Some? then Ends(verdict.value) else Perform(authorized, net, end, attempt + 1, didRefresh))
  }

  const NO_SESSION: RefreshEnd := (Some(Unauthorized), 0)

  /** refreshTokens: its own request is an unauthorised call, which never refreshes. */
  function RefreshRun(refresh: Refresh): RefreshEnd {
    match refresh
    case Join(failure) => (failure, 0)
    case NoSession => NO_SESSION
    case Own(net, parses) =>
      var run := Perform(false, net, NO_SESSION, 0, false);
      (if run.outcome.Got? && parses then None else Some(Unauthorized), run.sends)
  }

  function Call(authorized: bool, net: Net, refresh: Refresh): Run {
    Perform(authorized, net, RefreshRun(refresh), 0, false)
  }

  // ---- the loop in its own form ----

  function Before(sends: nat, refreshes: nat, refreshSends: nat, rest: Run): Run {
    Run(rest.outcome, sends + rest.sends, refreshes + rest.refreshes, refreshSends + rest.refreshSends)
  }

  /** The loop from a state of its own variables: Perform with the counts carried along. */
  function Loop(authorized: bool, net: Net, end: RefreshEnd, attempt: nat, didRefresh: bool,
                sends: nat, refreshes: nat, refreshSends: nat): Run
    requires attempt <= MAX_ATTEMPTS && (attempt == MAX_ATTEMPTS ==> didRefresh)
    decreases !didRefresh, MAX_ATTEMPTS - attempt, net
  {
    if authorized && !net.token(attempt) then Run(Unauthorized, sends, refreshes, refreshSends)
    else if net.reply(attempt) == Http(401) && authorized && !didRefresh then
      if end.0.Some? then Run(end.0.value, sends + 1, refreshes + 1, refreshSends + end.1)
      else Loop(authorized, net, end, attempt + 1, true, sends + 1, refreshes + 1, refreshSends + end.1)
    else
      var verdict := Verdict(net.reply(attempt), attempt + 1, net.rests(attempt));
      if verdict.Some? then Run(verdict.value, sends + 1, refreshes, refreshSends)
      else Loop(authorized, net, end, attempt + 1, didRefresh, sends + 1, refreshes, refreshSends)
  }

  lemma {:induction false} LoopIsPerform(authorized: bool, net: Net, end: RefreshEnd, attempt: nat, didRefresh: bool,
                                         sends: nat, refreshes: nat, refreshSends: nat)
    requires attempt <= MAX_ATTEMPTS && (attempt == MAX_ATTEMPTS ==> didRefresh)
    ensures Loop(authorized, net, end, attempt, didRefresh, sends, refreshes, refreshSends)
         == Before(sends, refreshes, refreshSends, Perform(authorized, net, end, attempt, didRefresh))
    decreases !didRefresh, MAX_ATTEMPTS - attempt
  {
    if authorized && !net.token(attempt) {
    } else if net.reply(attempt) == Http(401) && authorized && !didRefresh {
      if end.0.None? {
        LoopIsPerform(authorized, net, end, attempt + 1, true, sends + 1, refreshes + 1, refreshSends + end.1);
      }
    } else if Verdict(net.reply(attempt), attempt + 1, net.rests(attempt)).None? {
      LoopIsPerform(authorized, net, end, attempt + 1, didRefresh, sends + 1, refreshes, refreshSends);
    }
  }

  /** The branches after the 401 check. */
  method Judge(reply: Reply, attempt: nat, rests: bool) returns (verdict: Option<Outcome>)
    ensures verdict == Verdict(reply, attempt, rests)
  {
    if Ok(reply) { return Some(Got(reply.status)); }
    if Retryable(reply) && attempt < MAX_ATTEMPTS {
      if !rests { return Some(CancelledOut); }
      return None;
    }
    return Some(Thrown(reply));
  }

  method RefreshTokens(refresh: Refresh) returns (failure: Option<Outcome>, sends: nat)
    ensures (failure, sends) == RefreshRun(refresh)
    decreases true, 0
  {
    match refresh {
      case Join(result) => return result, 0;
      case NoSession => return Some(Unauthorized), 0;
      case Own(net, parses) =>
        var run := PerformData(false, net, NoSession);
        return if run.outcome.Got? && parses then None else Some(Unauthorized), run.sends;
    }
  }

  method PerformData(authorized: bool, net: Net, refresh: Refresh) returns (run: Run)
    ensures run == Call(authorized, net, refresh)
    decreases authorized, 2
  {
    ghost var end := RefreshRun(refresh);
    LoopIsPerform(authorized, net, end, 0, false, 0, 0, 0);
    run := RunLoop(authorized, net, refresh, end);
  }

  method RunLoop(authorized: bool, net: Net, refresh: Refresh, ghost end: RefreshEnd) returns (run: Run)
    requires end == RefreshRun(refresh)
    ensures run == Loop(authorized, net, end, 0, false, 0, 0, 0)
    decreases authorized, 1
  {
    ghost var whole := Loop(authorized, net, end, 0, false, 0, 0, 0);
    var attempt, didRefresh := 0, false;
    var sends, refreshes, refreshSends := 0, 0, 0;
    while true
      invariant attempt <= MAX_ATTEMPTS && (attempt == MAX_ATTEMPTS ==> didRefresh)
      invariant whole == Loop(authorized, net, end, attempt, didRefresh, sends, refreshes, refreshSends)
      decreases !didRefresh, MAX_ATTEMPTS - attempt
    {
      attempt := attempt + 1;
      if authorized && !net.token(attempt - 1) {
        return Run(Unauthorized, sends, refreshes, refreshSends);
      }
      var reply := net.reply(attempt - 1);
      sends := sends + 1;
      if reply == Http(401) && authorized && !didRefresh {
        didRefresh := true;
        var failure, n := RefreshTokens(refresh);
        refreshes, refreshSends := refreshes + 1, refreshSends + n;
        if failure.Some? { return Run(failure.value, sends, refreshes, refreshSends); }
        continue;
      }
      var verdict := Judge(reply, attempt, net.rests(attempt - 1));
      if verdict.Some? { return Run(verdict.value, sends, refreshes, refreshSends); }
    }
  }

  // ---- bounds ----

  lemma {:induction false} BoundsFrom(authorized: bool, net: Net, end: RefreshEnd, attempt: nat, didRefresh: bool)
    requires attempt <= MAX_ATTEMPTS && (attempt == MAX_ATTEMPTS ==> didRefresh)
    ensures var run := Perform(authorized, net, end, attempt, didRefresh);
      && run.sends <= (if !authorized && !didRefresh then MAX_ATTEMPTS - attempt else MAX_ATTEMPTS + 1 - attempt)
      && run.refreshes <= (if authorized && !didRefresh then 1 else 0)
      && run.refreshSends <= (if run.refreshes == 0 then 0 else end.1)
    decreases !didRefresh, MAX_ATTEMPTS - attempt
  {
    if !(authorized && !net.token(attempt)) {
      var reply := net.reply(attempt);
      if reply == Http(401) && authorized && !didRefresh {
        BoundsFrom(authorized, net, end, attempt + 1, true);
      } else if !Ok(reply) && Retryable(reply) && attempt + 1 < MAX_ATTEMPTS {
        BoundsFrom(authorized, net, end, attempt + 1, didRefresh);
      }
    }
  }

  /** Whatever the network answers: at most one refresh, and so many requests. */
  lemma SendBounds(authorized: bool, net: Net, refresh: Refresh)
    ensures var run := Call(authorized, net, refresh);
      && run.sends <= MAX_ATTEMPTS + 1
      && run.refreshes <= 1
      && run.sends + run.refreshSends <= 2 * MAX_ATTEMPTS + 1
      && (!authorized ==> run.sends <= MAX_ATTEMPTS && run.refreshes == 0 && run.refreshSends == 0)
      && (run.sends == 0 <==> authorized && !net.token(0))
  {
    BoundsFrom(authorized, net, RefreshRun(refresh), 0, false);
    if refresh.Own? { BoundsFrom(false, refresh.net, NO_SESSION, 0, false); }
  }

  /** The bounds are reached: the pass after a refresh is not counted against maxAttempts. */
  lemma SendBoundsAreTight()
    ensures
      var net := Net(_ => true, k => if k == 3 then Http(401) else Transport, _ => true);
      var refresh := Own(Net(_ => true, k => if k == 3 then Http(200) else Transport, _ => true), true);
      Call(true, net, refresh) == Run(TransportError, MAX_ATTEMPTS + 1, 1, MAX_ATTEMPTS)
  {
    var net := Net(_ => true, k => if k == 3 then Http(401) else Transport, _ => true);
    var inner := Net(_ => true, k => if k == 3 then Http(200) else Transport, _ => true);
    var refresh := Own(inner, true);
    assert Perform(false, inner, NO_SESSION, 2, false) == Run(Got(200), 2, 0, 0);
    assert Perform(false, inner, NO_SESSION, 0, false) == Run(Got(200), 4, 0, 0);
    var end := RefreshRun(refresh);
    assert end == (None, 4);
    assert Perform(true, net, end, 4, true) == Run(TransportError, 1, 0, 0);
    assert Perform(true, net, end, 3, false) == Run(TransportError, 2, 1, 4);
    assert Perform(true, net, end, 1, false) == Run(TransportError, 4, 1, 4);
  }

  /** From this pass on, every pass fails retryably until the last allowed one, which is the refresh pass. */
  ghost predicate RefreshesLast(authorized: bool, net: Net, end: RefreshEnd, from: nat) {
    && authorized && (forall k | from <= k <= MAX_ATTEMPTS :: net.token(k))
    && (forall k | from <= k < MAX_ATTEMPTS - 1 ::
          (net.reply(k).Transport? || (net.reply(k).Http? && net.reply(k).status >= 500)) && net.rests(k))
    && net.reply(MAX_ATTEMPTS - 1) == Http(401) && end.0.None?
  }

  /** After the refresh the limit holds again, except that a pass beyond it is sent when it was the last. */
  lemma {:induction false} AfterRefresh(authorized: bool, net: Net, end: RefreshEnd, attempt: nat)
    requires attempt <= MAX_ATTEMPTS
    ensures var sends := Perform(authorized, net, end, attempt, true).sends;
      if attempt < MAX_ATTEMPTS then sends <= MAX_ATTEMPTS - attempt
      else sends == if authorized && !net.token(attempt) then 0 else 1
    decreases MAX_ATTEMPTS - attempt
  {
    if attempt + 1 < MAX_ATTEMPTS { AfterRefresh(authorized, net, end, attempt + 1); }
  }

  lemma RefreshesLater(authorized: bool, net: Net, end: RefreshEnd, attempt: nat)
    requires attempt + 1 < MAX_ATTEMPTS
    ensures RefreshesLast(authorized, net, end, attempt)
       <==> authorized && net.token(attempt) && Retryable(net.reply(attempt)) && net.rests(attempt)
            && RefreshesLast(authorized, net, end, attempt + 1)
  {
  }

  lemma LastPassSends(authorized: bool, net: Net, end: RefreshEnd)
    ensures Perform(authorized, net, end, MAX_ATTEMPTS - 1, false).sends == 2
       <==> RefreshesLast(authorized, net, end, MAX_ATTEMPTS - 1)
  {
    AfterRefresh(authorized, net, end, MAX_ATTEMPTS);
  }

  lemma {:induction false} MostSendsFrom(authorized: bool, net: Net, end: RefreshEnd, attempt: nat)
    requires attempt < MAX_ATTEMPTS
    ensures Perform(authorized, net, end, attempt, false).sends == MAX_ATTEMPTS + 1 - attempt
       <==> RefreshesLast(authorized, net, end, attempt)
    decreases MAX_ATTEMPTS - attempt
  {
    if attempt + 1 == MAX_ATTEMPTS {
      LastPassSends(authorized, net, end);
    } else {
      RefreshesLater(authorized, net, end, attempt);
      MostSendsFrom(authorized, net, end, attempt + 1);
      EarlyPassSends(authorized, net, end, attempt);
    }
  }

  /** Before the last allowed pass only a retry can lead to the largest number. */
  lemma EarlyPassSends(authorized: bool, net: Net, end: RefreshEnd, attempt: nat)
    requires attempt + 1 < MAX_ATTEMPTS
    ensures Perform(authorized, net, end, attempt, false).sends == MAX_ATTEMPTS + 1 - attempt
       <==> authorized && net.token(attempt) && Retryable(net.reply(attempt)) && net.rests(attempt)
            && Perform(authorized, net, end, attempt + 1, false).sends == MAX_ATTEMPTS - attempt
  {
    AfterRefresh(authorized, net, end, attempt + 1);
    BoundsFrom(authorized, net, end, attempt, false);
  }

  /**
   A call sends more than maxAttempts requests exactly when it is authorised with a token at hand on
   every pass, the passes before the last allowed one fail retryably with pauses that are not cancelled,
   the last allowed one answers 401, and the refresh works.
   */
  lemma MostSendsExactlyWhen(authorized: bool, net: Net, refresh: Refresh)
    ensures Call(authorized, net, refresh).sends > MAX_ATTEMPTS
       <==> RefreshesLast(authorized, net, RefreshRun(refresh), 0)
  {
    MostSendsFrom(authorized, net, RefreshRun(refresh), 0);
    BoundsFrom(authorized, net, RefreshRun(refresh), 0, false);
  }

  // ---- exactly when a call succeeds ----

  /** Pass k does not end the call: it is the refresh pass and the refresh works, or it is worth a retry. */
  ghost predicate Passes(authorized: bool, net: Net, end: RefreshEnd, k: nat, refreshAt: Option<nat>) {
    && (authorized ==> net.token(k))
    && (if authorized && refreshAt == Some(k) then net.reply(k) == Http(401) && end.0.None?
        else (net.reply(k).Transport? || (net.reply(k).Http? && net.reply(k).status >= 500))
             && k + 1 < MAX_ATTEMPTS && net.rests(k))
  }

  /** Passes from..n-1 go on and pass n is answered by a 2xx status. */
  ghost predicate SucceedsAt(authorized: bool, net: Net, end: RefreshEnd, from: nat, n: nat, refreshAt: Option<nat>) {
    && from <= n
    && (forall k | from <= k < n :: Passes(authorized, net, end, k, refreshAt))
    && (authorized ==> net.token(n)) && net.reply(n).Http? && 200 <= net.reply(n).status < 300
  }

  lemma {:induction false} SuccessIsReached(authorized: bool, net: Net, end: RefreshEnd, attempt: nat,
                                            didRefresh: bool, n: nat, refreshAt: Option<nat>)
    requires attempt <= MAX_ATTEMPTS && (attempt == MAX_ATTEMPTS ==> didRefresh)
    requires SucceedsAt(authorized, net, end, attempt, n, refreshAt)
    requires didRefresh ==> refreshAt.None? || refreshAt.value < attempt
    ensures Perform(authorized, net, end, attempt, didRefresh).outcome == Got(net.reply(n).status)
    ensures Perform(authorized, net, end, attempt, didRefresh).sends == n + 1 - attempt
    decreases n - attempt
  {
    if attempt < n {
      assert Passes(authorized, net, end, attempt, refreshAt);
      SuccessIsReached(authorized, net, end, attempt + 1,
                       didRefresh || (authorized && refreshAt == Some(attempt)), n, refreshAt);
    }
  }

  lemma {:induction false} SuccessHasReason(authorized: bool, net: Net, end: RefreshEnd, attempt: nat, didRefresh: bool)
    returns (n: nat, refreshAt: Option<nat>)
    requires attempt <= MAX_ATTEMPTS && (attempt == MAX_ATTEMPTS ==> didRefresh)
    requires Perform(authorized, net, end, attempt, didRefresh).outcome.Got?
    requires !(end.0.Some? && end.0.value.Got?)
    ensures SucceedsAt(authorized, net, end, attempt, n, refreshAt)
    ensures refreshAt.Some? ==> !didRefresh && attempt <= refreshAt.value
    decreases !didRefresh, MAX_ATTEMPTS - attempt
  {
    var reply := net.reply(attempt);
    if reply == Http(401) && authorized && !didRefresh {
      n, refreshAt := SuccessHasReason(authorized, net, end, attempt + 1, true);
      refreshAt := Some(attempt);
      assert forall k | attempt < k < n :: Passes(authorized, net, end, k, None) ==> Passes(authorized, net, end, k, refreshAt);
    } else if Ok(reply) {
      n, refreshAt := attempt, None;
    } else {
      n, refreshAt := SuccessHasReason(authorized, net, end, attempt + 1, didRefresh);
      assert Passes(authorized, net, end, attempt, refreshAt);
    }
  }

  /**
   A call succeeds exactly when some pass is answered by 2xx and every earlier pass was a failure worth a
   retry, with a pause that was not cancelled, or the one 401 whose refresh worked.
   (A flight joined never hands over a success as its error.)
   */
  lemma SucceedsExactlyWhen(authorized: bool, net: Net, refresh: Refresh)
    requires refresh.Join? && refresh.failure.Some? ==> !refresh.failure.value.Got?
    ensures Call(authorized, net, refresh).outcome.Got?
       <==> exists n: nat, refreshAt: Option<nat> :: SucceedsAt(authorized, net, RefreshRun(refresh), 0, n, refreshAt)
  {
    var end := RefreshRun(refresh);
    if Call(authorized, net, refresh).outcome.Got? {
      var n, refreshAt := SuccessHasReason(authorized, net, end, 0, false);
    }
    forall n: nat, refreshAt: Option<nat> | SucceedsAt(authorized, net, end, 0, n, refreshAt)
      ensures Call(authorized, net, refresh).outcome.Got?
    {
      SuccessIsReached(authorized, net, end, 0, false, n, refreshAt);
    }
  }

  // ---- exactly how a call ends ----

  /** Pass n is the last one, and this is what it makes of the call; a refresh before it was at refreshAt. */
  ghost predicate EndsWith(authorized: bool, net: Net, end: RefreshEnd, n: nat, refreshAt: Option<nat>, outcome: Outcome) {
    if authorized && !net.token(n) then outcome == Unauthorized
    else
      match net.reply(n)
      case Http(status) =>
        if status == 401 && authorized && refreshAt.None? then end.0 == Some(outcome)
        else if 200 <= status < 300 then outcome == Got(status)
        else if status >= 500 && n + 1 < MAX_ATTEMPTS then !net.rests(n) && outcome == CancelledOut
        else outcome == Server(status)
      case Transport =>
        if n + 1 < MAX_ATTEMPTS then !net.rests(n) && outcome == CancelledOut else outcome == TransportError
      case NonHttp => outcome == TransportError
      case Cancelled => outcome == CancelledOut
  }

  /** Passes from..n-1 go on, and pass n ends the call. */
  ghost predicate Course(authorized: bool, net: Net, end: RefreshEnd, from: nat, n: nat, refreshAt: Option<nat>, outcome: Outcome) {
    && from <= n && (refreshAt.Some? ==> refreshAt.value < n)
    && (forall k | from <= k < n :: Passes(authorized, net, end, k, refreshAt))
    && EndsWith(authorized, net, end, n, refreshAt, outcome)
  }

  function SendsUpTo(authorized: bool, net: Net, from: nat, n: nat): nat
    requires from <= n
  {
    if authorized && !net.token(n) then n - from else n + 1 - from
  }

  predicate Refreshes(authorized: bool, net: Net, n: nat, refreshAt: Option<nat>) {
    refreshAt.Some? || (authorized && net.token(n) && net.reply(n) == Http(401))
  }

  lemma {:induction false} CourseIsTaken(authorized: bool, net: Net, end: RefreshEnd, attempt: nat, didRefresh: bool,
                                         n: nat, refreshAt: Option<nat>, outcome: Outcome)
    requires attempt <= MAX_ATTEMPTS && (attempt == MAX_ATTEMPTS ==> didRefresh)
    requires Course(authorized, net, end, attempt, n, refreshAt, outcome)
    requires didRefresh <==> refreshAt.Some? && refreshAt.value < attempt
    requires refreshAt.Some? ==> authorized
    ensures var run := Perform(authorized, net, end, attempt, didRefresh);
      && run.outcome == outcome && run.sends == SendsUpTo(authorized, net, attempt, n)
      && run.refreshes == (if !didRefresh && Refreshes(authorized, net, n, refreshAt) then 1 else 0)
      && run.refreshSends == (if !didRefresh && Refreshes(authorized, net, n, refreshAt) then end.1 else 0)
    decreases n - attempt
  {
    if attempt < n {
      assert Passes(authorized, net, end, attempt, refreshAt);
      CourseIsTaken(authorized, net, end, attempt + 1, didRefresh || refreshAt == Some(attempt), n, refreshAt, outcome);
    }
  }

  lemma {:induction false} CourseExists(authorized: bool, net: Net, end: RefreshEnd, attempt: nat, refreshed: Option<nat>)
    returns (n: nat, refreshAt: Option<nat>)
    requires attempt <= MAX_ATTEMPTS && (attempt == MAX_ATTEMPTS ==> refreshed.Some?)
    requires refreshed.Some? ==> refreshed.value < attempt && authorized
    ensures Course(authorized, net, end, attempt, n, refreshAt, Perform(authorized, net, end, attempt, refreshed.Some?).outcome)
    ensures refreshed.Some? ==> refreshAt == refreshed
    ensures refreshed.None? && refreshAt.Some? ==> attempt <= refreshAt.value && authorized
    decreases refreshed.None?, MAX_ATTEMPTS - attempt
  {
    var reply := net.reply(attempt);
    if authorized && !net.token(attempt) {
      n, refreshAt := attempt, refreshed;
    } else if reply == Http(401) && authorized && refreshed.None? {
      if end.0.Some? {
        n, refreshAt := attempt, None;
      } else {
        n, refreshAt := CourseExists(authorized, net, end, attempt + 1, Some(attempt));
        assert Passes(authorized, net, end, attempt, refreshAt);
      }
    } else if Verdict(reply, attempt + 1, net.rests(attempt)).None? {
      n, refreshAt := CourseExists(authorized, net, end, attempt + 1, refreshed);
      assert Passes(authorized, net, end, attempt, refreshAt);
    } else {
      n, refreshAt := attempt, refreshed;
    }
  }

  /**
   How every call ends, and after how many requests: passes go on while they fail by transport or with a
   5xx status below the limit and their pause runs to its end, or by the one 401 whose refresh works; the
   first pass that does not go on decides.
   */
  lemma EndsExactlyAs(authorized: bool, net: Net, refresh: Refresh) returns (n: nat, refreshAt: Option<nat>)
    ensures var run := Call(authorized, net, refresh);
      && Course(authorized, net, RefreshRun(refresh), 0, n, refreshAt, run.outcome)
      && run.sends == SendsUpTo(authorized, net, 0, n)
      && run.refreshes == (if Refreshes(authorized, net, n, refreshAt) then 1 else 0)
      && run.refreshSends == (if Refreshes(authorized, net, n, refreshAt) then RefreshRun(refresh).1 else 0)
    ensures forall m: nat, at: Option<nat>, outcome: Outcome
      | (at.Some? ==> authorized) && Course(authorized, net, RefreshRun(refresh), 0, m, at, outcome) ::
      outcome == Call(authorized, net, refresh).outcome
  {
    var end := RefreshRun(refresh);
    n, refreshAt := CourseExists(authorized, net, end, 0, None);
    CourseIsTaken(authorized, net, end, 0, false, n, refreshAt, Call(authorized, net, refresh).outcome);
    forall m: nat, at: Option<nat>, outcome: Outcome
      | (at.Some? ==> authorized) && Course(authorized, net, end, 0, m, at, outcome)
      ensures outcome == Call(authorized, net, refresh).outcome
    {
      CourseIsTaken(authorized, net, end, 0, false, m, at, outcome);
    }
  }

  /** A redirect or client error other than the one refreshable 401 is final: one request, and that status. */
  lemma ClientErrorsAreFinal(authorized: bool, net: Net, refresh: Refresh, status: nat)
    requires (authorized ==> net.token(0)) && net.reply(0) == Http(status) && 300 <= status < 500
    requires !(status == 401 && authorized)
    ensures Call(authorized, net, refresh) == Run(Server(status), 1, 0, 0)
  {
  }

  /** A server that answers 5xx throughout gets exactly four requests, and its last status is the error. */
  lemma ServerErrorsAreRetried(authorized: bool, net: Net, refresh: Refresh)
    requires forall k | 0 <= k < 4 :: (authorized ==> net.token(k)) && net.reply(k).Http? && net.reply(k).status >= 500
    requires forall k | 0 <= k < 3 :: net.rests(k)
    ensures Call(authorized, net, refresh) == Run(Server(net.reply(3).status), 4, 0, 0)
  {
    var end := RefreshRun(refresh);
    assert Perform(authorized, net, end, 3, false) == Run(Server(net.reply(3).status), 1, 0, 0);
    assert Perform(authorized, net, end, 2, false) == Run(Server(net.reply(3).status), 2, 0, 0);
    assert Perform(authorized, net, end, 1, false) == Run(Server(net.reply(3).status), 3, 0, 0);
  }

  /** A call that ends in a server's 5xx status has sent as many requests as it may: all before were retried. */
  lemma ServerErrorsComeLast(authorized: bool, net: Net, refresh: Refresh)
    requires Call(authorized, net, refresh).outcome.Server? && Call(authorized, net, refresh).outcome.status >= 500
    requires !(refresh.Join? && refresh.failure.Some? && refresh.failure.value.Server?)
    ensures 4 <= Call(authorized, net, refresh).sends <= 5
  {
    SendBounds(authorized, net, refresh);
    var n, refreshAt := EndsExactlyAs(authorized, net, refresh);
    assert RefreshRun(refresh).0.Some? ==> !RefreshRun(refresh).0.value.Server?;
  }

  /**
   What the refresh makes of a call whose first answer is 401. Without a session it ends unauthorised and
   sends nothing more. A flight that was joined hands over its own error. A flight of its own costs the
   requests of an unauthorised call; unless that ends in a 2xx that parses, the error is unauthorised,
   whatever the flight ended with. Only a flight that worked sends the request again, and then a second 401
   is final.
   */
  lemma RefreshDecides(net: Net, refresh: Refresh)
    requires net.token(0) && net.reply(0) == Http(401)
    ensures var run := Call(true, net, refresh);
      match refresh
      case NoSession => run == Run(Unauthorized, 1, 1, 0)
      case Join(failure) =>
        && run.refreshes == 1 && run.refreshSends == 0
        && (failure.Some? ==> run == Run(failure.value, 1, 1, 0))
        && (failure.None? && net.token(1) && net.reply(1) == Http(401) ==> run == Run(Server(401), 2, 1, 0))
      case Own(inner, parses) =>
        var flight := Call(false, inner, NoSession);
        && run.refreshes == 1 && run.refreshSends == flight.sends
        && (!(flight.outcome.Got? && parses) ==> run == Run(Unauthorized, 1, 1, flight.sends))
        && (flight.outcome.Got? && parses && net.token(1) && net.reply(1) == Http(401) ==> run == Run(Server(401), 2, 1, flight.sends))
        && (flight.outcome.Got? && parses && net.token(1) && net.reply(1) == Http(200) ==> run == Run(Got(200), 2, 1, flight.sends))
  {
    BoundsFrom(true, net, RefreshRun(refresh), 1, true);
  }
}
