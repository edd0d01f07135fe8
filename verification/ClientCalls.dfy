/**
 The actor refines the loop: every caller, however its awaits are interleaved with other callers, flights,
 sign-ins and other devices, runs RetryLoop's performData on the answers it gets, and so does every flight.
 */
module ClientCalls {
  import opened Basics
  import Auth
  import opened ApiClient
  import Loop = RetryLoop

  // ---- callers ----

  /** What the loop sees of an answer. */
  predicate Means(reply: Loop.Reply, answer: Answer) {
    match answer
    case Unauthorized => reply == Loop.Http(401)
    case Good => reply.Http? && 200 <= reply.status < 300
    case ServerError => reply.Http? && reply.status >= 500
    case Refused => reply.NonHttp? || (reply.Http? && (reply.status < 200 || 300 <= reply.status < 500) && reply.status != 401)
    case Transport => reply.Transport?
    case Cancelled => reply.Cancelled?
  }

  /** If the move is caller i's, it is what the loop is told by net and end. */
  predicate Told(w: World, m: Move, i: nat, net: Loop.Net, end: Loop.RefreshEnd) {
    i < |w.callers| ==>
      var caller := w.callers[i];
      match m
      case SendRequest(j) => j == i && caller.Top? ==> (net.token(caller.attempt) <==> Current(w.client).Some?)
      case Answered(j, answer) =>
        j == i && caller.Waiting? && caller.attempt > 0 ==>
          && Means(net.reply(caller.attempt - 1), answer)
          && (answer.Unauthorized? && !caller.didRefresh && EnterRefresh(w.client).1.NoSession? ==> end.0 == Some(Loop.Unauthorized))
      case Wake(j) => j == i && caller.Pausing? && caller.attempt > 0 ==> net.rests(caller.attempt - 1)
      case Interrupted(j) => j == i && caller.Pausing? && caller.attempt > 0 ==> !net.rests(caller.attempt - 1)
      case Resume(j) => j == i && Resolved(w.client, caller) ==> (end.0.None? <==> w.client.tasks[caller.task].phase.Won?)
      case _ => true
  }

  /** The flight the caller awaits is over. */
  predicate Resolved(c: Client, caller: Caller) {
    (caller.Owning? || caller.Joining?) && caller.task < |c.tasks| && !c.tasks[caller.task].phase.Flying?
  }

  predicate AllTold(w: World, moves: seq<Move>, i: nat, net: Loop.Net, end: Loop.RefreshEnd)
    decreases |moves|
  {
    moves == [] || (Told(w, moves[0], i, net, end) && AllTold(Step(w, moves[0]), moves[1..], i, net, end))
  }

  /** The move sends caller i's request; it makes caller i enter refreshTokens. */
  predicate Sends(w: World, m: Move, i: nat) {
    m == SendRequest(i) && i < |w.callers| && w.callers[i].Top? && Current(w.client).Some?
  }

  predicate Enters(w: World, m: Move, i: nat) {
    m == Answered(i, Unauthorized) && i < |w.callers| && w.callers[i].Waiting? && !w.callers[i].didRefresh
  }

  function One(b: bool): nat { if b then 1 else 0 }

  /** How many requests caller i has sent after a run, and how often it has entered refreshTokens. */
  function SendsOf(w: World, moves: seq<Move>, i: nat, before: nat): nat
    decreases |moves|
  {
    if moves == [] then before else SendsOf(Step(w, moves[0]), moves[1..], i, before + One(Sends(w, moves[0], i)))
  }

  function EntriesOf(w: World, moves: seq<Move>, i: nat, before: nat): nat
    decreases |moves|
  {
    if moves == [] then before else EntriesOf(Step(w, moves[0]), moves[1..], i, before + One(Enters(w, moves[0], i)))
  }

  /** The whole call is what has happened so far, and the loop from its pass `attempt` on. */
  predicate Reaches(net: Loop.Net, end: Loop.RefreshEnd, attempt: nat, didRefresh: bool) {
    && attempt <= 4 && (attempt == 4 ==> didRefresh)
    && var whole, rest := Loop.Perform(true, net, end, 0, false), Loop.Perform(true, net, end, attempt, didRefresh);
       && whole.outcome == rest.outcome && whole.sends == attempt + rest.sends
       && whole.refreshes == One(didRefresh) + rest.refreshes
  }

  /** The caller has sent `sent` requests and entered refreshTokens `entered` times, as the loop would have by now. */
  predicate Follows(caller: Caller, net: Loop.Net, end: Loop.RefreshEnd, sent: nat, entered: nat) {
    match caller
    case Top(attempt, didRefresh) => Reaches(net, end, attempt, didRefresh) && sent == attempt && entered == One(didRefresh)
    case Waiting(attempt, didRefresh) =>
      && attempt > 0 && Reaches(net, end, attempt - 1, didRefresh) && net.token(attempt - 1)
      && sent == attempt && entered == One(didRefresh)
    case Pausing(attempt, didRefresh) =>
      && 0 < attempt < 4 && Reaches(net, end, attempt - 1, didRefresh) && net.token(attempt - 1)
      && (net.reply(attempt - 1).Transport? || (net.reply(attempt - 1).Http? && net.reply(attempt - 1).status >= 500))
      && sent == attempt && entered == One(didRefresh)
    case Owning(attempt, _) => Refreshing(net, end, attempt) && sent == attempt && entered == 1
    case Joining(attempt, _) => Refreshing(net, end, attempt) && sent == attempt && entered == 1
    case Over(ok) =>
      var whole := Loop.Perform(true, net, end, 0, false);
      (ok <==> whole.outcome.Got?) && sent == whole.sends && entered == whole.refreshes
  }

  predicate Refreshing(net: Loop.Net, end: Loop.RefreshEnd, attempt: nat) {
    attempt > 0 && Reaches(net, end, attempt - 1, false) && net.token(attempt - 1) && net.reply(attempt - 1) == Loop.Http(401)
  }

  predicate Stands(w: World, i: nat, net: Loop.Net, end: Loop.RefreshEnd, sent: nat, entered: nat) {
    if i < |w.callers| then Follows(w.callers[i], net, end, sent, entered) else sent == 0 && entered == 0
  }

  /** A refresh that fails never hands over a success. */
  predicate Honest(end: Loop.RefreshEnd) {
    end.0.Some? ==> !end.0.value.Got?
  }

  lemma SendFollows(w: World, i: nat, net: Loop.Net, end: Loop.RefreshEnd, sent: nat, entered: nat)
    requires i < |w.callers| && w.callers[i].Top? && Follows(w.callers[i], net, end, sent, entered)
    requires Told(w, SendRequest(i), i, net, end)
    ensures Stands(Step(w, SendRequest(i)), i, net, end, sent + One(Sends(w, SendRequest(i), i)), entered)
  {
  }

  /** One pass of the loop that ends the call, or goes on without a refresh. */
  lemma PassGoes(net: Loop.Net, end: Loop.RefreshEnd, attempt: nat, didRefresh: bool)
    requires Reaches(net, end, attempt, didRefresh) && net.token(attempt) && !(net.reply(attempt) == Loop.Http(401) && !didRefresh)
    ensures var whole, reply := Loop.Perform(true, net, end, 0, false), net.reply(attempt);
      if (reply.Transport? || (reply.Http? && reply.status >= 500)) && attempt + 1 < 4 then
        if net.rests(attempt) then Reaches(net, end, attempt + 1, didRefresh)
        else !whole.outcome.Got? && whole.sends == attempt + 1 && whole.refreshes == One(didRefresh)
      else
        && (whole.outcome.Got? <==> reply.Http? && 200 <= reply.status < 300)
        && whole.sends == attempt + 1 && whole.refreshes == One(didRefresh)
  {
  }

  /** The pass answered 401: the refresh decides. */
  lemma RefreshGoes(net: Loop.Net, end: Loop.RefreshEnd, attempt: nat)
    requires Reaches(net, end, attempt, false) && net.token(attempt) && net.reply(attempt) == Loop.Http(401)
    ensures var whole := Loop.Perform(true, net, end, 0, false);
      if end.0.None? then Reaches(net, end, attempt + 1, true)
      else whole.outcome == end.0.value && whole.sends == attempt + 1 && whole.refreshes == 1
  {
  }

  lemma RefreshAnswerFollows(c: Client, attempt: nat, net: Loop.Net, end: Loop.RefreshEnd)
    requires Follows(Waiting(attempt, false), net, end, attempt, 0) && net.reply(attempt - 1) == Loop.Http(401)
    requires EnterRefresh(c).1.NoSession? ==> end.0 == Some(Loop.Unauthorized)
    ensures Follows(OnAnswer(c, Waiting(attempt, false), Unauthorized).1, net, end, attempt, 1)
  {
    RefreshGoes(net, end, attempt - 1);
  }

  lemma OtherAnswerFollows(c: Client, attempt: nat, didRefresh: bool, answer: Answer, net: Loop.Net, end: Loop.RefreshEnd)
    requires Follows(Waiting(attempt, didRefresh), net, end, attempt, One(didRefresh)) && !(answer.Unauthorized? && !didRefresh)
    requires Means(net.reply(attempt - 1), answer)
    ensures Follows(OnAnswer(c, Waiting(attempt, didRefresh), answer).1, net, end, attempt, One(didRefresh))
  {
    PassGoes(net, end, attempt - 1, didRefresh);
  }

  lemma AnswerFollows(w: World, i: nat, answer: Answer, net: Loop.Net, end: Loop.RefreshEnd, sent: nat, entered: nat)
    requires i < |w.callers| && w.callers[i].Waiting? && Follows(w.callers[i], net, end, sent, entered) && Honest(end)
    requires Told(w, Answered(i, answer), i, net, end)
    ensures Stands(Step(w, Answered(i, answer)), i, net, end, sent, entered + One(Enters(w, Answered(i, answer), i)))
  {
    var caller := w.callers[i];
    assert w.callers[i] == Waiting(caller.attempt, caller.didRefresh);
    if answer.Unauthorized? && !caller.didRefresh {
      RefreshAnswerFollows(w.client, caller.attempt, net, end);
    } else {
      OtherAnswerFollows(w.client, caller.attempt, caller.didRefresh, answer, net, end);
    }
    assert Step(w, Answered(i, answer)).callers[i] == OnAnswer(w.client, caller, answer).1;
  }

  lemma PauseFollows(w: World, m: Move, i: nat, net: Loop.Net, end: Loop.RefreshEnd, sent: nat, entered: nat)
    requires i < |w.callers| && w.callers[i].Pausing? && Follows(w.callers[i], net, end, sent, entered)
    requires (m == Wake(i) || m == Interrupted(i)) && Told(w, m, i, net, end)
    ensures Stands(Step(w, m), i, net, end, sent, entered)
  {
    PassGoes(net, end, w.callers[i].attempt - 1, w.callers[i].didRefresh);
  }

  lemma ResumeFollows(w: World, i: nat, net: Loop.Net, end: Loop.RefreshEnd, sent: nat, entered: nat)
    requires i < |w.callers| && Resolved(w.client, w.callers[i]) && Follows(w.callers[i], net, end, sent, entered) && Honest(end)
    requires Told(w, Resume(i), i, net, end)
    ensures Stands(Step(w, Resume(i)), i, net, end, sent, entered)
  {
    RefreshGoes(net, end, w.callers[i].attempt - 1);
  }

  /** The move is one caller i takes. */
  predicate Moves(w: World, m: Move, i: nat) {
    && i < |w.callers|
    && match m
       case SendRequest(j) => j == i && w.callers[i].Top?
       case Answered(j, _) => j == i && w.callers[i].Waiting?
       case Wake(j) => j == i && w.callers[i].Pausing?
       case Interrupted(j) => j == i && w.callers[i].Pausing?
       case Resume(j) => j == i && Resolved(w.client, w.callers[i])
       case _ => false
  }

  /** Nobody else moves caller i. */
  lemma OthersStay(w: World, m: Move, i: nat)
    requires !Moves(w, m, i)
    ensures i < |w.callers| ==> i < |Step(w, m).callers| && Step(w, m).callers[i] == w.callers[i]
    ensures i >= |w.callers| && i < |Step(w, m).callers| ==> Step(w, m).callers[i] == Top(0, false)
    ensures !Sends(w, m, i) && !Enters(w, m, i)
  {
  }

  lemma StepFollows(w: World, m: Move, i: nat, net: Loop.Net, end: Loop.RefreshEnd, sent: nat, entered: nat)
    requires Stands(w, i, net, end, sent, entered) && Told(w, m, i, net, end) && Honest(end)
    ensures Stands(Step(w, m), i, net, end, sent + One(Sends(w, m, i)), entered + One(Enters(w, m, i)))
  {
    if Moves(w, m, i) {
      match m
      case SendRequest(_) => SendFollows(w, i, net, end, sent, entered);
      case Answered(_, answer) => AnswerFollows(w, i, answer, net, end, sent, entered);
      case Wake(_) => PauseFollows(w, m, i, net, end, sent, entered);
      case Interrupted(_) => PauseFollows(w, m, i, net, end, sent, entered);
      case Resume(_) => ResumeFollows(w, i, net, end, sent, entered);
    } else {
      OthersStay(w, m, i);
    }
  }

  /** A fact about a caller and its counts that every move keeps holds after every run. */
  lemma {:induction false} RunKeepsFact(w: World, moves: seq<Move>, i: nat, net: Loop.Net, end: Loop.RefreshEnd, sent: nat, entered: nat,
                                        fact: (World, nat, nat) -> bool)
    requires fact(w, sent, entered) && AllTold(w, moves, i, net, end) && Kept(i, net, end, fact)
    ensures fact(Run(w, moves), SendsOf(w, moves, i, sent), EntriesOf(w, moves, i, entered))
    decreases |moves|
  {
    if moves != [] {
      var m, rest, w' := moves[0], moves[1..], Step(w, moves[0]);
      assert KeptBy(w, m, i, net, end, sent, entered, fact);
      RunKeepsFact(w', rest, i, net, end, sent + One(Sends(w, m, i)), entered + One(Enters(w, m, i)), fact);
    }
  }

  predicate KeptBy(w: World, m: Move, i: nat, net: Loop.Net, end: Loop.RefreshEnd, sent: nat, entered: nat, fact: (World, nat, nat) -> bool) {
    fact(w, sent, entered) && Told(w, m, i, net, end) ==>
      fact(Step(w, m), sent + One(Sends(w, m, i)), entered + One(Enters(w, m, i)))
  }

  ghost predicate Kept(i: nat, net: Loop.Net, end: Loop.RefreshEnd, fact: (World, nat, nat) -> bool) {
    forall w: World, m: Move, sent: nat, entered: nat :: KeptBy(w, m, i, net, end, sent, entered, fact)
  }

  lemma RunFollows(w: World, moves: seq<Move>, i: nat, net: Loop.Net, end: Loop.RefreshEnd, sent: nat, entered: nat)
    requires Stands(w, i, net, end, sent, entered) && AllTold(w, moves, i, net, end) && Honest(end)
    ensures Stands(Run(w, moves), i, net, end, SendsOf(w, moves, i, sent), EntriesOf(w, moves, i, entered))
  {
    var fact := (w: World, sent: nat, entered: nat) => Stands(w, i, net, end, sent, entered);
    forall w: World, m: Move, sent: nat, entered: nat ensures KeptBy(w, m, i, net, end, sent, entered, fact) {
      if Stands(w, i, net, end, sent, entered) && Told(w, m, i, net, end) { StepFollows(w, m, i, net, end, sent, entered); }
    }
    RunKeepsFact(w, moves, i, net, end, sent, entered, fact);
  }

  // ---- what an answer sheet must say is fixed pass by pass ----

  /** The pass from which on the caller still has to be told its token, its reply and its rest; and the refresh. */
  function Needs(caller: Caller): (nat, nat, nat, bool) {
    match caller
    case Top(a, d) => (a, a, a, !d)
    case Waiting(a, d) => (a, if a > 0 then a - 1 else 0, if a > 0 then a - 1 else 0, !d)
    case Pausing(a, d) => (a, a, if a > 0 then a - 1 else 0, !d)
    case Owning(a, _) => (a, a, a, true)
    case Joining(a, _) => (a, a, a, true)
    case Over(_) => (0, 0, 0, false)
  }

  predicate Done(w: World, i: nat) {
    i < |w.callers| && w.callers[i].Over?
  }

  function NeedsAt(w: World, i: nat): (nat, nat, nat, bool) {
    if i < |w.callers| then Needs(w.callers[i]) else (0, 0, 0, true)
  }

  ghost predicate Agree(w: World, i: nat, net: Loop.Net, end: Loop.RefreshEnd, net': Loop.Net, end': Loop.RefreshEnd) {
    Done(w, i) ||
      var n := NeedsAt(w, i);
      && (forall k | n.0 <= k :: net'.token(k) == net.token(k))
      && (forall k | n.1 <= k :: net'.reply(k) == net.reply(k))
      && (forall k | n.2 <= k :: net'.rests(k) == net.rests(k))
      && (n.3 ==> end' == end)
  }

  lemma AgreeNext(w: World, m: Move, i: nat, net: Loop.Net, end: Loop.RefreshEnd, net': Loop.Net, end': Loop.RefreshEnd)
    requires Agree(w, i, net, end, net', end')
    ensures Agree(Step(w, m), i, net, end, net', end')
    ensures Told(w, m, i, net, end) ==> Told(w, m, i, net', end')
  {
    if !Moves(w, m, i) { OthersStay(w, m, i); }
  }

  lemma {:induction false} AgreeTold(w: World, moves: seq<Move>, i: nat,
                                     net: Loop.Net, end: Loop.RefreshEnd, net': Loop.Net, end': Loop.RefreshEnd)
    requires AllTold(w, moves, i, net, end) && Agree(w, i, net, end, net', end')
    ensures AllTold(w, moves, i, net', end')
    decreases |moves|
  {
    if moves != [] {
      AgreeNext(w, moves[0], i, net, end, net', end');
      AgreeTold(Step(w, moves[0]), moves[1..], i, net, end, net', end');
    }
  }

  function Reply(answer: Answer): Loop.Reply {
    match answer
    case Unauthorized => Loop.Http(401)
    case Good => Loop.Http(200)
    case ServerError => Loop.Http(500)
    case Refused => Loop.Http(400)
    case Transport => Loop.Reply.Transport
    case Cancelled => Loop.Reply.Cancelled
  }

  /** The sheets with what this move tells written in. */
  function Noted(w: World, m: Move, i: nat, net: Loop.Net): Loop.Net {
    if i >= |w.callers| then net
    else
      var caller := w.callers[i];
      if caller.Top? then net.(token := (k: nat) => if k == caller.attempt then Current(w.client).Some? else net.token(k))
      else if caller.Waiting? && m.Answered? then
        net.(reply := (k: nat) => if k == caller.attempt - 1 then Reply(m.answer) else net.reply(k))
      else if caller.Pausing? then net.(rests := (k: nat) => if k == caller.attempt - 1 then m.Wake? else net.rests(k))
      else net
  }

  function NotedEnd(w: World, m: Move, i: nat, end: Loop.RefreshEnd): Loop.RefreshEnd {
    if i < |w.callers| && m == Resume(i) && Resolved(w.client, w.callers[i])
    then (if w.client.tasks[w.callers[i].task].phase.Won? then None else Some(Loop.Unauthorized), 0)
    else if Enters(w, m, i) && EnterRefresh(w.client).1.NoSession? then (Some(Loop.Unauthorized), 0)
    else end
  }

  lemma NotedTells(w: World, m: Move, i: nat, net: Loop.Net, end: Loop.RefreshEnd)
    requires Moves(w, m, i)
    ensures Told(w, m, i, Noted(w, m, i, net), NotedEnd(w, m, i, end))
    ensures Agree(Step(w, m), i, net, end, Noted(w, m, i, net), NotedEnd(w, m, i, end))
    ensures Honest(end) ==> Honest(NotedEnd(w, m, i, end))
  {
    var attempt := w.callers[i].attempt;
    if m.Answered? && attempt > 0 {
      assert Noted(w, m, i, net).reply(attempt - 1) == Reply(m.answer);
    }
  }

  /** Every run tells every caller something: there is an answer sheet it agrees with. */
  lemma {:induction false} SheetExists(w: World, moves: seq<Move>, i: nat) returns (net: Loop.Net, end: Loop.RefreshEnd)
    ensures AllTold(w, moves, i, net, end) && Honest(end)
    decreases |moves|
  {
    if moves == [] {
      net, end := Loop.Net(_ => true, _ => Loop.NonHttp, _ => true), (None, 0);
    } else {
      var net1, end1 := SheetExists(Step(w, moves[0]), moves[1..], i);
      if Moves(w, moves[0], i) {
        NotedTells(w, moves[0], i, net1, end1);
        net, end := Noted(w, moves[0], i, net1), NotedEnd(w, moves[0], i, end1);
        AgreeTold(Step(w, moves[0]), moves[1..], i, net1, end1, net, end);
      } else {
        net, end := net1, end1;
      }
    }
  }

  /**
   The caller's theorem: take any run, any caller in it and any replies, pauses and refresh result the run
   agrees with. A call that is over has the outcome the retry loop has on them, after as many requests and
   refreshes; one still on its way has sent no more than that.
   */
  lemma CallersRunTheLoop(server: Auth.Auth, session: Option<Pair>, moves: seq<Move>, i: nat, net: Loop.Net, end: Loop.RefreshEnd)
    requires AllTold(Launch(server, session), moves, i, net, end) && Honest(end)
    ensures var w0 := Launch(server, session); var w := Run(w0, moves);
      var sent, entered := SendsOf(w0, moves, i, 0), EntriesOf(w0, moves, i, 0);
      var call := Loop.Perform(true, net, end, 0, false);
      && (i < |w.callers| && w.callers[i].Over? ==>
            (w.callers[i].ok <==> call.outcome.Got?) && sent == call.sends && entered == call.refreshes)
      && sent <= call.sends && entered <= call.refreshes
  {
    var w0 := Launch(server, session);
    RunFollows(w0, moves, i, net, end, 0, 0);
    StandsWithin(Run(w0, moves), i, net, end, SendsOf(w0, moves, i, 0), EntriesOf(w0, moves, i, 0));
  }

  lemma StandsWithin(w: World, i: nat, net: Loop.Net, end: Loop.RefreshEnd, sent: nat, entered: nat)
    requires Stands(w, i, net, end, sent, entered)
    ensures sent <= Loop.Perform(true, net, end, 0, false).sends && entered <= Loop.Perform(true, net, end, 0, false).refreshes
  {
    if i < |w.callers| {
      match w.callers[i]
      case Waiting(attempt, didRefresh) => PassGoesOn(net, end, attempt - 1, didRefresh);
      case Pausing(attempt, didRefresh) => PassGoesOn(net, end, attempt - 1, didRefresh);
      case Owning(attempt, _) => RefreshGoes(net, end, attempt - 1);
      case Joining(attempt, _) => RefreshGoes(net, end, attempt - 1);
      case _ =>
    }
  }

  lemma PassGoesOn(net: Loop.Net, end: Loop.RefreshEnd, attempt: nat, didRefresh: bool)
    requires Reaches(net, end, attempt, didRefresh) && net.token(attempt)
    ensures var whole := Loop.Perform(true, net, end, 0, false); attempt + 1 <= whole.sends && One(didRefresh) <= whole.refreshes
  {
    if net.reply(attempt) == Loop.Http(401) && !didRefresh { RefreshGoes(net, end, attempt); }
    else { PassGoes(net, end, attempt, didRefresh); }
  }

  // ---- flights ----

  predicate Flies(w: World, m: Move, k: nat) {
    m.RefreshSend? && m.k == k && k < |w.client.tasks| && w.client.tasks[k].phase.Flying?
  }

  /** What becomes of flight k's send is a reply of the loop behind it. */
  predicate Heard(w: World, m: Move, k: nat, net: Loop.Net, parses: bool) {
    Flies(w, m, k) ==>
      var attempt := w.client.tasks[k].phase.attempt;
      var reply := net.reply(attempt);
      match m.send
      case Failed => (reply.Transport? || (reply.Http? && reply.status >= 500)) && (attempt + 1 < 4 ==> net.rests(attempt))
      case ReplyLost(_, _, _) => reply.Transport? && (attempt + 1 < 4 ==> net.rests(attempt))
      case Rejected => !reply.Transport? && (reply.Http? ==> reply.status < 200 || 300 <= reply.status < 500)
      case Unusable(_, _, _) => !reply.Transport? && (reply.Http? ==> reply.status < 500 && (200 <= reply.status < 300 ==> !parses))
      case Delivered(now, next, expiresAt, _) =>
        if Auth.RefreshOp(w.server, w.client.tasks[k].token, now, next, expiresAt).1.Issued?
        then reply.Http? && 200 <= reply.status < 300 && parses
        else reply.Http? && 400 <= reply.status < 500
  }

  predicate AllHeard(w: World, moves: seq<Move>, k: nat, net: Loop.Net, parses: bool)
    decreases |moves|
  {
    moves == [] || (Heard(w, moves[0], k, net, parses) && AllHeard(Step(w, moves[0]), moves[1..], k, net, parses))
  }

  /** How many requests flight k has sent after a run. */
  function FlightSends(w: World, moves: seq<Move>, k: nat, before: nat): nat
    decreases |moves|
  {
    if moves == [] then before else FlightSends(Step(w, moves[0]), moves[1..], k, before + One(Flies(w, moves[0], k)))
  }

  predicate FliesOn(phase: Phase, net: Loop.Net, parses: bool, sent: nat) {
    var whole := Loop.Perform(false, net, Loop.NO_SESSION, 0, false);
    match phase
    case Flying(attempt) =>
      && attempt < 4 && sent == attempt
      && var rest := Loop.Perform(false, net, Loop.NO_SESSION, attempt, false);
         whole.outcome == rest.outcome && whole.sends == attempt + rest.sends
    case Won(_) => whole.outcome.Got? && parses && sent == whole.sends
    case Lost => !(whole.outcome.Got? && parses) && sent == whole.sends
  }

  predicate InFlight(w: World, k: nat, net: Loop.Net, parses: bool, sent: nat) {
    if k < |w.client.tasks| then FliesOn(w.client.tasks[k].phase, net, parses, sent) else sent == 0
  }

  lemma SendFlies(w: World, m: Move, k: nat, net: Loop.Net, parses: bool, sent: nat)
    requires Flies(w, m, k) && InFlight(w, k, net, parses, sent) && Heard(w, m, k, net, parses)
    ensures InFlight(Step(w, m), k, net, parses, sent + 1)
  {
  }

  lemma OthersFly(w: World, m: Move, k: nat)
    requires !Flies(w, m, k)
    ensures k < |w.client.tasks| ==> k < |Step(w, m).client.tasks| && Step(w, m).client.tasks[k].phase == w.client.tasks[k].phase
    ensures k >= |w.client.tasks| && k < |Step(w, m).client.tasks| ==> Step(w, m).client.tasks[k].phase == Flying(0)
  {
  }

  lemma StepFlies(w: World, m: Move, k: nat, net: Loop.Net, parses: bool, sent: nat)
    requires InFlight(w, k, net, parses, sent) && Heard(w, m, k, net, parses)
    ensures InFlight(Step(w, m), k, net, parses, sent + One(Flies(w, m, k)))
  {
    if Flies(w, m, k) { SendFlies(w, m, k, net, parses, sent); } else { OthersFly(w, m, k); }
  }

  lemma {:induction false} RunFlies(w: World, moves: seq<Move>, k: nat, net: Loop.Net, parses: bool, sent: nat)
    requires InFlight(w, k, net, parses, sent) && AllHeard(w, moves, k, net, parses)
    ensures InFlight(Run(w, moves), k, net, parses, FlightSends(w, moves, k, sent))
    decreases |moves|
  {
    if moves != [] {
      var m, rest, w' := moves[0], moves[1..], Step(w, moves[0]);
      StepFlies(w, m, k, net, parses, sent);
      RunFlies(w', rest, k, net, parses, sent + One(Flies(w, m, k)));
    }
  }

  /**
   The flight's theorem: a flight that is over has brought a new pair exactly when the loop behind
   POST /auth/refresh, on the replies it got, ends in a 2xx that parses; and it took as many requests.
   So its result and its count are those of RetryLoop's refreshTokens in the caller that owns it.
   */
  lemma FlightsRunTheLoop(server: Auth.Auth, session: Option<Pair>, moves: seq<Move>, k: nat, net: Loop.Net, parses: bool)
    requires AllHeard(Launch(server, session), moves, k, net, parses)
    ensures var w0 := Launch(server, session); var tasks := Run(w0, moves).client.tasks;
      k < |tasks| && !tasks[k].phase.Flying? ==>
        Loop.RefreshRun(Loop.Own(net, parses))
        == (if tasks[k].phase.Won? then None else Some(Loop.Unauthorized), FlightSends(w0, moves, k, 0))
  {
    RunFlies(Launch(server, session), moves, k, net, parses, 0);
  }

  // ---- every flight has such replies ----

  ghost predicate FlightAgrees(w: World, k: nat, net: Loop.Net, parses: bool, net': Loop.Net, parses': bool) {
    (k < |w.client.tasks| && !w.client.tasks[k].phase.Flying?) ||
      var from := if k < |w.client.tasks| then w.client.tasks[k].phase.attempt else 0;
      && (forall a | from <= a :: net'.reply(a) == net.reply(a) && net'.rests(a) == net.rests(a)) && parses' == parses
  }

  lemma FlightAgreesNext(w: World, m: Move, k: nat, net: Loop.Net, parses: bool, net': Loop.Net, parses': bool)
    requires FlightAgrees(w, k, net, parses, net', parses')
    ensures FlightAgrees(Step(w, m), k, net, parses, net', parses')
    ensures Heard(w, m, k, net, parses) ==> Heard(w, m, k, net', parses')
  {
    if !Flies(w, m, k) { OthersFly(w, m, k); }
  }

  lemma {:induction false} FlightAgreesTold(w: World, moves: seq<Move>, k: nat, net: Loop.Net, parses: bool, net': Loop.Net, parses': bool)
    requires AllHeard(w, moves, k, net, parses) && FlightAgrees(w, k, net, parses, net', parses')
    ensures AllHeard(w, moves, k, net', parses')
    decreases |moves|
  {
    if moves != [] {
      FlightAgreesNext(w, moves[0], k, net, parses, net', parses');
      FlightAgreesTold(Step(w, moves[0]), moves[1..], k, net, parses, net', parses');
    }
  }

  function SendReply(send: Send, issued: bool): Loop.Reply {
    match send
    case Failed => Loop.Reply.Transport
    case ReplyLost(_, _, _) => Loop.Reply.Transport
    case Rejected => Loop.Http(400)
    case Unusable(_, _, _) => Loop.Http(200)
    case Delivered(_, _, _, _) => if issued then Loop.Http(200) else Loop.Http(401)
  }

  predicate Issues(w: World, m: Move, k: nat)
    requires Flies(w, m, k)
  {
    m.send.Delivered? && Auth.RefreshOp(w.server, w.client.tasks[k].token, m.send.now, m.send.next, m.send.expiresAt).1.Issued?
  }

  lemma FlightNoted(w: World, m: Move, k: nat, net: Loop.Net, parses: bool) returns (net': Loop.Net, parses': bool)
    requires Flies(w, m, k)
    ensures Heard(w, m, k, net', parses') && FlightAgrees(Step(w, m), k, net, parses, net', parses')
  {
    var attempt, reply := w.client.tasks[k].phase.attempt, SendReply(m.send, Issues(w, m, k));
    net' := net.(reply := (a: nat) => if a == attempt then reply else net.reply(a),
                 rests := (a: nat) => a == attempt || net.rests(a));
    parses' := if m.send.Unusable? then false else if Issues(w, m, k) then true else parses;
    assert net'.reply(attempt) == reply && net'.rests(attempt);
  }

  lemma {:induction false} FlightSheetExists(w: World, moves: seq<Move>, k: nat) returns (net: Loop.Net, parses: bool)
    ensures AllHeard(w, moves, k, net, parses)
    decreases |moves|
  {
    if moves == [] {
      net, parses := Loop.Net(_ => true, _ => Loop.NonHttp, _ => true), true;
    } else {
      var net1, parses1 := FlightSheetExists(Step(w, moves[0]), moves[1..], k);
      if Flies(w, moves[0], k) {
        net, parses := FlightNoted(w, moves[0], k, net1, parses1);
        FlightAgreesTold(Step(w, moves[0]), moves[1..], k, net1, parses1, net, parses);
      } else {
        net, parses := net1, parses1;
      }
    }
  }

  /**
   So in every interleaving, whatever is answered or lost: no caller sends more than five requests or asks
   for a refresh twice, and no flight sends more than four.
   */
  lemma EveryoneKeepsTheBudget(server: Auth.Auth, session: Option<Pair>, moves: seq<Move>, i: nat, k: nat)
    ensures var w0 := Launch(server, session);
      SendsOf(w0, moves, i, 0) <= 5 && EntriesOf(w0, moves, i, 0) <= 1 && FlightSends(w0, moves, k, 0) <= 4
  {
    var w0 := Launch(server, session);
    var net, end := SheetExists(w0, moves, i);
    CallersRunTheLoop(server, session, moves, i, net, end);
    Loop.BoundsFrom(true, net, end, 0, false);
    var flight, parses := FlightSheetExists(w0, moves, k);
    RunFlies(w0, moves, k, flight, parses, 0);
    FlightWithin(Run(w0, moves), k, flight, parses, FlightSends(w0, moves, k, 0));
  }

  lemma FlightWithin(w: World, k: nat, net: Loop.Net, parses: bool, sent: nat)
    requires InFlight(w, k, net, parses, sent)
    ensures sent <= 4
  {
    Loop.BoundsFrom(false, net, Loop.NO_SESSION, 0, false);
  }

  // ---- where a session comes from ----

  /** The server answers the move with this pair, and the reply arrives. */
  predicate Brings(w: World, m: Move, pair: Pair) {
    match m
    case RefreshSend(k, Delivered(now, next, expiresAt, access)) =>
      Flies(w, m, k) && pair == Pair(access, next)
      && Auth.RefreshOp(w.server, w.client.tasks[k].token, now, next, expiresAt).1.Issued?
    case SignInServed(user, next, expiresAt, access) =>
      pair == Pair(access, next) && Auth.SignInOp(w.server, user, next, expiresAt).1.Issued?
    case _ => false
  }

  predicate BringsAt(w: World, moves: seq<Move>, j: nat, pair: Pair) {
    j < |moves| && Brings(At(w, moves, j), moves[j], pair)
  }

  /** The pairs the client has or is about to have. */
  predicate Holds(w: World, pair: Pair) {
    || w.client.tokens == Some(pair) || w.client.stored == Some(pair) || pair in w.arriving
    || exists k :: 0 <= k < |w.client.tasks| && w.client.tasks[k].phase == Won(pair)
  }

  lemma StepHolds(w: World, m: Move, pair: Pair)
    requires Holds(Step(w, m), pair) && !Brings(w, m, pair)
    ensures Holds(w, pair)
  {
    match m
    case RefreshSend(k, send) =>
      if k < |w.client.tasks| && w.client.tasks[k].phase.Flying? { SendHolds(w, k, send, pair); }
    case Resume(i) => ResumeHolds(w, i, pair);
    case SignInServed(user, next, expiresAt, access) =>
    case SignInApplied(j) =>
    case Answered(i, answer) => AnswerHolds(w, i, answer, pair);
    case _ =>
  }

  lemma SendHolds(w: World, k: nat, send: Send, pair: Pair)
    requires k < |w.client.tasks| && w.client.tasks[k].phase.Flying?
    requires Holds(OnSend(w, k, send), pair) && !Brings(w, RefreshSend(k, send), pair)
    ensures Holds(w, pair)
  {
    var tasks, tasks' := w.client.tasks, OnSend(w, k, send).client.tasks;
    if l :| 0 <= l < |tasks'| && tasks'[l].phase == Won(pair) {
      assert l != k;
      assert tasks[l].phase == Won(pair);
    }
  }

  lemma ResumeHolds(w: World, i: nat, pair: Pair)
    requires Holds(Step(w, Resume(i)), pair)
    ensures Holds(w, pair)
  {
    assert Step(w, Resume(i)).client.tasks == w.client.tasks;
  }

  lemma AnswerHolds(w: World, i: nat, answer: Answer, pair: Pair)
    requires Holds(Step(w, Answered(i, answer)), pair)
    ensures Holds(w, pair)
  {
    var tasks, tasks' := w.client.tasks, Step(w, Answered(i, answer)).client.tasks;
    if l :| 0 <= l < |tasks'| && tasks'[l].phase == Won(pair) {
      assert tasks[l].phase == Won(pair);
    }
  }

  lemma {:induction false} HeldHasSource(w: World, moves: seq<Move>, n: nat, pair: Pair) returns (j: nat)
    requires n <= |moves| && Holds(At(w, moves, n), pair) && !Holds(w, pair)
    ensures j < n && BringsAt(w, moves, j, pair)
    decreases n
  {
    if n == 0 {
      assert false;
    } else {
      AtNext(w, moves, n - 1);
      if BringsAt(w, moves, n - 1, pair) {
        j := n - 1;
      } else {
        StepHolds(At(w, moves, n - 1), moves[n - 1], pair);
        j := HeldHasSource(w, moves, n - 1, pair);
      }
    }
  }

  /**
   Memory and keychain always hold the same session, and it is the one of the launch or a pair with which
   the server answered this client's sign-in or refresh: its access token and its new refresh token together.
   */
  lemma SessionHasSource(server: Auth.Auth, session: Option<Pair>, moves: seq<Move>)
    requires Known(server, session)
    ensures var w0 := Launch(server, session); var c := Run(w0, moves).client;
      && c.tokens == c.stored
      && (c.tokens.Some? ==> c.tokens == session || exists j: nat :: BringsAt(w0, moves, j, c.tokens.value))
  {
    var w0 := Launch(server, session);
    assert Inv(w0);
    RunKeeps(w0, moves);
    assert moves[..|moves|] == moves;
    var c := Run(w0, moves).client;
    if c.tokens.Some? && c.tokens != session {
      var j := HeldHasSource(w0, moves, |moves|, c.tokens.value);
    }
  }

  /** A sign-in that the server answers brings its pair, whatever the client held. */
  lemma SignInTakesOver(w: World, user: UserId, next: Auth.Token, expiresAt: int, access: nat)
    requires next !in w.server.records
    ensures var w' := Step(Step(w, SignInServed(user, next, expiresAt, access)), SignInApplied(|w.arriving|));
      && w'.client.tokens == w'.client.stored == Some(Pair(access, next)) && w'.arriving == w.arriving
      && next in w'.server.records && w'.server.records[next].user == user && !w'.server.records[next].revoked
  {
    var w1 := Step(w, SignInServed(user, next, expiresAt, access));
    assert w1.arriving[..|w.arriving|] + w1.arriving[|w.arriving| + 1..] == w.arriving;
  }
}
