/**
 What the process endpoint answers under full concurrency: the row its closing read finds, or the row
 its first read found when the job has been soft-deleted in between.
 */
module PipelineAnswer {
  import opened Basics
  import opened Pipeline
  import opened PipelineSafety

  /** The system before the n-th move. */
  function At(y: Sys, moves: seq<Move>, n: nat, attempts: nat): Sys
    requires n <= |moves|
  {
    Run(y, moves[..n], attempts)
  }

  lemma {:induction false} RunNext(y: Sys, moves: seq<Move>, m: Move, attempts: nat)
    ensures Run(y, moves + [m], attempts) == Apply(Run(y, moves, attempts), m, attempts)
    decreases |moves|
  {
    if moves != [] {
      assert (moves + [m])[1..] == moves[1..] + [m];
      RunNext(Apply(y, moves[0], attempts), moves[1..], m, attempts);
    }
  }

  lemma AtNext(y: Sys, moves: seq<Move>, n: nat, attempts: nat)
    requires n < |moves|
    ensures At(y, moves, n + 1, attempts) == Apply(At(y, moves, n, attempts), moves[n], attempts)
  {
    assert moves[..n + 1] == moves[..n] + [moves[n]];
    RunNext(y, moves[..n], moves[n], attempts);
  }

  /** Where request i stands before the n-th move. */
  function Stands(y: Sys, moves: seq<Move>, n: nat, i: nat, attempts: nat): (r: Request)
    requires n <= |moves|
  {
    var requests := At(y, moves, n, attempts).requests;
    if i < |requests| then requests[i] else Over
  }

  /** The a-th move is the first read of request i, and it finds the job visible. */
  predicate FirstReadAt(y: Sys, moves: seq<Move>, a: nat, i: nat, user: UserId, attempts: nat) {
    && a < |moves| && moves[a].RunRequest? && moves[a].i == i
    && Stands(y, moves, a, i, attempts) == ProcRead(user) && Visible(At(y, moves, a, attempts).s, user)
  }

  /** The b-th move is the read request i answers from: its closing one, or the first of a job that needs no queueing. */
  predicate LastReadAt(y: Sys, moves: seq<Move>, b: nat, i: nat, user: UserId, attempts: nat) {
    && b < |moves| && moves[b].RunRequest? && moves[b].i == i
    && (Stands(y, moves, b, i, attempts).ProcBack? || Stands(y, moves, b, i, attempts) == ProcRead(user))
  }

  /** A request that has gone past its first read carries the row it found there. */
  ghost predicate ReadBefore(y: Sys, moves: seq<Move>, n: nat, i: nat, user: UserId, first: Row, attempts: nat)
    requires n <= |moves|
  {
    exists a: nat :: a < n && FirstReadAt(y, moves, a, i, user, attempts) && At(y, moves, a, attempts).s.row == first
  }

  /** A request that has answered showed the row of its last read, or that of its first when the last found none. */
  ghost predicate AnsweredBefore(y: Sys, moves: seq<Move>, n: nat, i: nat, user: UserId, shown: Row, found: bool, attempts: nat)
    requires n <= |moves|
  {
    exists a: nat, b: nat ::
      && a <= b < n && FirstReadAt(y, moves, a, i, user, attempts) && LastReadAt(y, moves, b, i, user, attempts)
      && (found <==> !At(y, moves, b, attempts).s.row.deleted)
      && shown == At(y, moves, if found then b else a, attempts).s.row
  }

  predicate Carries(r: Request) {
    r.ProcHead? || r.ProcSet? || r.EnqLook? || r.EnqRemove? || r.EnqAdd? || r.ProcBack?
  }

  ghost predicate Traced(y: Sys, moves: seq<Move>, n: nat, i: nat, user: UserId, attempts: nat)
    requires n <= |moves|
  {
    var r := Stands(y, moves, n, i, attempts);
    if r.ProcRead? || Carries(r) || r.Told? then
      && r.user == user
      && (Carries(r) ==> ReadBefore(y, moves, n, i, user, r.first, attempts))
      && (r.Told? ==> AnsweredBefore(y, moves, n, i, user, r.shown, r.found, attempts))
    else r.Over?
  }

  /** A step of a request between its two reads keeps what it carries. */
  lemma CarriesOn(s: Store, r: Request, c: Choice, attempts: nat)
    requires Carries(r) && !r.ProcBack?
    ensures var r' := StepRequest(s, r, c, attempts).1;
      r'.Over? || (Carries(r') && r'.user == r.user && r'.first == r.first)
  {
  }

  /** The reads of the request itself. */
  lemma ReadStep(y: Sys, moves: seq<Move>, n: nat, i: nat, user: UserId, attempts: nat)
    requires n < |moves| && Traced(y, moves, n, i, user, attempts) && i < |At(y, moves, n, attempts).requests|
    requires moves[n].RunRequest? && moves[n].i == i
    requires Stands(y, moves, n, i, attempts).ProcRead?
    ensures Traced(y, moves, n + 1, i, user, attempts)
  {
    AtNext(y, moves, n, attempts);
    var r' := StepRequest(At(y, moves, n, attempts).s, ProcRead(user), moves[n].c, attempts).1;
    assert Stands(y, moves, n + 1, i, attempts) == r';
    if !r'.Over? {
      assert FirstReadAt(y, moves, n, i, user, attempts);
      if r'.Told? { assert LastReadAt(y, moves, n, i, user, attempts); }
    }
  }

  lemma BackStep(y: Sys, moves: seq<Move>, n: nat, i: nat, user: UserId, attempts: nat)
    requires n < |moves| && Traced(y, moves, n, i, user, attempts) && i < |At(y, moves, n, attempts).requests|
    requires moves[n].RunRequest? && moves[n].i == i && At(y, moves, n, attempts).s.row.owner == user
    requires Stands(y, moves, n, i, attempts).ProcBack?
    ensures Traced(y, moves, n + 1, i, user, attempts)
  {
    AtNext(y, moves, n, attempts);
    var first := Stands(y, moves, n, i, attempts).first;
    assert Stands(y, moves, n + 1, i, attempts) == StepRequest(At(y, moves, n, attempts).s, ProcBack(user, first), moves[n].c, attempts).1;
    assert LastReadAt(y, moves, n, i, user, attempts);
  }

  /** Its other steps. */
  lemma OwnStep(y: Sys, moves: seq<Move>, n: nat, i: nat, user: UserId, attempts: nat)
    requires n < |moves| && Traced(y, moves, n, i, user, attempts) && i < |At(y, moves, n, attempts).requests|
    requires moves[n].RunRequest? && moves[n].i == i
    requires !Stands(y, moves, n, i, attempts).ProcRead? && !Stands(y, moves, n, i, attempts).ProcBack?
    ensures Traced(y, moves, n + 1, i, user, attempts)
  {
    AtNext(y, moves, n, attempts);
    var z, r := At(y, moves, n, attempts), Stands(y, moves, n, i, attempts);
    assert Stands(y, moves, n + 1, i, attempts) == StepRequest(z.s, r, moves[n].c, attempts).1;
    if Carries(r) { CarriesOn(z.s, r, moves[n].c, attempts); }
  }

  /** Moves of anything else leave the request where it stands. */
  lemma OtherStep(y: Sys, moves: seq<Move>, n: nat, i: nat, user: UserId, attempts: nat)
    requires n < |moves| && Traced(y, moves, n, i, user, attempts) && i < |At(y, moves, n, attempts).requests|
    requires !(moves[n].RunRequest? && moves[n].i == i)
    ensures Traced(y, moves, n + 1, i, user, attempts)
  {
    AtNext(y, moves, n, attempts);
    assert Stands(y, moves, n + 1, i, attempts) == Stands(y, moves, n, i, attempts);
  }

  lemma {:induction false} RequestsStay(y: Sys, moves: seq<Move>, n: nat, attempts: nat)
    requires n <= |moves|
    ensures |y.requests| <= |At(y, moves, n, attempts).requests|
    decreases n
  {
    if n > 0 {
      RequestsStay(y, moves, n - 1, attempts);
      AtNext(y, moves, n - 1, attempts);
    } else {
      assert At(y, moves, 0, attempts) == y;
    }
  }

  lemma OwnerStays(y: Sys, moves: seq<Move>, n: nat, attempts: nat)
    requires n <= |moves| && Inv(y)
    ensures At(y, moves, n, attempts).s.row.owner == y.s.row.owner
  {
    RunKeeps(y, moves[..n], attempts);
  }

  /** Only the owner's request gets past its first read. */
  lemma CarriesOwner(y: Sys, moves: seq<Move>, n: nat, i: nat, user: UserId, attempts: nat)
    requires n <= |moves| && Inv(y) && Traced(y, moves, n, i, user, attempts) && Carries(Stands(y, moves, n, i, attempts))
    ensures user == y.s.row.owner
  {
    var first := Stands(y, moves, n, i, attempts).first;
    var a: nat :| a < n && FirstReadAt(y, moves, a, i, user, attempts) && At(y, moves, a, attempts).s.row == first;
    OwnerStays(y, moves, a, attempts);
  }

  lemma {:induction false} TracedSoFar(y: Sys, moves: seq<Move>, n: nat, i: nat, user: UserId, attempts: nat)
    requires n <= |moves| && Inv(y) && i < |y.requests| && y.requests[i] == ProcRead(user)
    ensures Traced(y, moves, n, i, user, attempts)
    decreases n
  {
    if n > 0 {
      TracedSoFar(y, moves, n - 1, i, user, attempts);
      TracedNext(y, moves, n - 1, i, user, attempts);
    } else {
      assert At(y, moves, 0, attempts) == y;
    }
  }

  lemma TracedNext(y: Sys, moves: seq<Move>, n: nat, i: nat, user: UserId, attempts: nat)
    requires n < |moves| && Inv(y) && i < |y.requests| && Traced(y, moves, n, i, user, attempts)
    ensures Traced(y, moves, n + 1, i, user, attempts)
  {
    RequestsStay(y, moves, n, attempts);
    if moves[n].RunRequest? && moves[n].i == i {
      var r := Stands(y, moves, n, i, attempts);
      if r.ProcRead? {
        ReadStep(y, moves, n, i, user, attempts);
      } else if r.ProcBack? {
        OwnerStays(y, moves, n, attempts);
        CarriesOwner(y, moves, n, i, user, attempts);
        BackStep(y, moves, n, i, user, attempts);
      } else {
        OwnStep(y, moves, n, i, user, attempts);
      }
    } else {
      OtherStep(y, moves, n, i, user, attempts);
    }
  }

  /**
   In every interleaving, a process request that answers shows a row that was the caller's and visible
   when this request read it; and it shows a job that is deleted by then exactly when the soft delete
   fell between its first and its closing read: then it shows the row of its first read.
   */
  lemma ProcessAnswers(y: Sys, moves: seq<Move>, i: nat, user: UserId, attempts: nat)
    requires Inv(y) && i < |y.requests| && y.requests[i] == ProcRead(user)
    ensures var r := Stands(y, moves, |moves|, i, attempts);
      r.Told? ==>
        exists a: nat, b: nat ::
          && a <= b < |moves| && FirstReadAt(y, moves, a, i, user, attempts) && LastReadAt(y, moves, b, i, user, attempts)
          && (r.found <==> !At(y, moves, b, attempts).s.row.deleted)
          && r.shown == At(y, moves, if r.found then b else a, attempts).s.row
          && r.shown.owner == user && !r.shown.deleted
  {
    TracedSoFar(y, moves, |moves|, i, user, attempts);
    var r := Stands(y, moves, |moves|, i, attempts);
    if r.Told? {
      var a: nat, b: nat :| a <= b < |moves| && FirstReadAt(y, moves, a, i, user, attempts)
        && LastReadAt(y, moves, b, i, user, attempts) && (r.found <==> !At(y, moves, b, attempts).s.row.deleted)
        && r.shown == At(y, moves, if r.found then b else a, attempts).s.row;
      OwnerStays(y, moves, a, attempts);
      OwnerStays(y, moves, b, attempts);
    }
  }
}
