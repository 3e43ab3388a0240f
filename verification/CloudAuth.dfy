/**
 Browser authorization: one current session at a time, whose status is driven by
 callbacks, a timeout, a failing local server and a newer session, in any order.
 Models internal/app/cloud_auth.go.
 */
module CloudAuth {
  import opened Text

  datatype Status = Pending | Completed | Expired | Failed

  /** A stored token: the session it was stored for and the request that brought it. */
  datatype Stored = Stored(session: nat, request: nat)

  /** Sessions ever started, by number; a replaced one keeps the status it had. */
  datatype Auth = Auth(statuses: seq<Status>, current: Option<nat>, stored: seq<Stored>)

  function Started(a: Auth): Auth {
    a.(statuses := a.statuses + [Pending], current := Some(|a.statuses|))
  }

  /** What the critical section that ends a session does; storing a token can fail. */
  function Finished(a: Auth, session: nat, status: Status, request: nat, stores: bool): (Auth, bool) {
    if a.current != Some(session) || session >= |a.statuses| then (a, false)
    else if status.Completed? && !a.statuses[session].Pending? then (a, a.statuses[session].Completed?)
    else if status.Completed? && !stores then (a, false)
    else
      var ended := a.(statuses := a.statuses[session := status]);
      (if status.Completed? then ended.(stored := a.stored + [Stored(session, request)]) else ended, true)
  }

  class AuthService {
    var statuses: seq<Status>
    var current: Option<nat>
    var stored: seq<Stored>

    ghost function State(): Auth
      reads this
    {
      Auth(statuses, current, stored)
    }

    constructor ()
      ensures State() == Auth([], None, [])
    {
      statuses, current, stored := [], None, [];
    }

    method StartCloudProviderAuth() returns (session: nat)
      modifies this
      ensures State() == Started(old(State())) && session == |old(statuses)|
    {
      current := None;
      session := |statuses|;
      statuses := statuses + [Pending];
      current := Some(session);
    }

    method FinishCloudProviderAuthSession(session: nat, status: Status, request: nat, stores: bool) returns (done: bool)
      modifies this
      ensures (State(), done) == Finished(old(State()), session, status, request, stores)
    {
      if current.None? || current.value != session || session >= |statuses| {
        return false;
      }
      if status.Completed? && !statuses[session].Pending? {
        return statuses[session].Completed?;
      }
      if status.Completed? {
        if !stores {
          return false;
        }
        stored := stored + [Stored(session, request)];
      }
      statuses := statuses[session := status];
      return true;
    }
  }

  // ------------------------------------------------------------ interleaving

  /** Where the handler of a callback request stands. */
  datatype Progress = Arrived | Checked | HasToken | Answered

  datatype Request = Request(session: nat, knowsState: bool, progress: Progress)

  datatype State = State(auth: Auth, requests: seq<Request>)

  datatype Move =
    | Start
    | Arrive(session: nat, knowsState: bool)
    | Check(request: nat)
    | Read(request: nat, hasToken: bool)
    | Complete(request: nat, stores: bool)
    | Timeout(session: nat)
    | ServerFails(session: nat)

  function At(s: State, i: nat, progress: Progress): State
    requires i < |s.requests|
  {
    s.(requests := s.requests[i := s.requests[i].(progress := progress)])
  }

  function Step(s: State, move: Move): State {
    match move
    case Start => s.(auth := Started(s.auth))
    case Arrive(session, knowsState) => s.(requests := s.requests + [Request(session, knowsState, Arrived)])
    case Check(i) =>
      if i >= |s.requests| || !s.requests[i].progress.Arrived? then s
      else At(s, i, if s.auth.current == Some(s.requests[i].session) && s.requests[i].knowsState then Checked else Answered)
    case Read(i, hasToken) =>
      if i >= |s.requests| || !s.requests[i].progress.Checked? then s else At(s, i, if hasToken then HasToken else Answered)
    case Complete(i, stores) =>
      if i >= |s.requests| || !s.requests[i].progress.HasToken? then s
      else At(s, i, Answered).(auth := Finished(s.auth, s.requests[i].session, Completed, i, stores).0)
    case Timeout(session) => s.(auth := Finished(s.auth, session, Expired, 0, false).0)
    case ServerFails(session) => s.(auth := Finished(s.auth, session, Failed, 0, false).0)
  }

  function Run(s: State, moves: seq<Move>): State {
    if moves == [] then s else Step(Run(s, moves[..|moves| - 1]), moves[|moves| - 1])
  }

  const IDLE := State(Auth([], None, []), [])

  // -------------------------------------------------------------- invariants

  predicate InOrder(s: State) {
    && (s.auth.current.Some? ==> s.auth.current.value < |s.auth.statuses|)
    && (forall i :: 0 <= i < |s.requests| && (s.requests[i].progress.Checked? || s.requests[i].progress.HasToken?) ==> s.requests[i].knowsState)
    && (forall i :: 0 <= i < |s.auth.stored| ==>
          && s.auth.stored[i].session < |s.auth.statuses| && !s.auth.statuses[s.auth.stored[i].session].Pending?
          && s.auth.stored[i].request < |s.requests|
          && s.requests[s.auth.stored[i].request].knowsState
          && s.requests[s.auth.stored[i].request].session == s.auth.stored[i].session)
    && (forall i, j :: 0 <= i < j < |s.auth.stored| ==> s.auth.stored[i].session != s.auth.stored[j].session)
  }

  lemma CompleteInOrder(s: State, request: nat, stores: bool)
    requires InOrder(s) && request < |s.requests| && s.requests[request].progress.HasToken?
    ensures InOrder(Step(s, Complete(request, stores)))
  {
  }

  lemma StepInOrder(s: State, move: Move)
    requires InOrder(s)
    ensures InOrder(Step(s, move))
  {
    if move.Complete? && move.request < |s.requests| && s.requests[move.request].progress.HasToken? {
      CompleteInOrder(s, move.request, move.stores);
    }
  }

  lemma {:induction false} RunInOrder(s: State, moves: seq<Move>)
    requires InOrder(s)
    ensures InOrder(Run(s, moves))
  {
    hide InOrder, Step;
    if moves != [] {
      RunInOrder(s, moves[..|moves| - 1]);
      StepInOrder(Run(s, moves[..|moves| - 1]), moves[|moves| - 1]);
    }
  }

  /** In every run at most one token is stored per session, each brought by a request that knew that session's state. */
  lemma OneTokenPerSession(moves: seq<Move>)
    ensures var s := Run(IDLE, moves);
            && (forall i, j :: 0 <= i < j < |s.auth.stored| ==> s.auth.stored[i].session != s.auth.stored[j].session)
            && (forall i :: 0 <= i < |s.auth.stored| ==>
                  && s.auth.stored[i].request < |s.requests| && s.requests[s.auth.stored[i].request].knowsState
                  && s.requests[s.auth.stored[i].request].session == s.auth.stored[i].session)
  {
    hide Run;
    assert InOrder(IDLE);
    RunInOrder(IDLE, moves);
  }

  /** A step that stores a token finds its session current and pending, and leaves it completed. */
  lemma TokensComeFromPending(s: State, move: Move)
    requires InOrder(s)
    ensures var a, b := s.auth, Step(s, move).auth;
            && (b.stored == a.stored || (|b.stored| == |a.stored| + 1 && b.stored[..|a.stored|] == a.stored))
            && (b.stored != a.stored ==>
                  var k := b.stored[|a.stored|].session;
                  a.current == Some(k) && a.statuses[k].Pending? && b.statuses[k].Completed?)
  {
  }

  /** Over and done with: the session has ended or has been replaced. */
  predicate Closed(a: Auth, session: nat) {
    session < |a.statuses| && (!a.statuses[session].Pending? || a.current != Some(session))
  }

  predicate Stores(a: Auth, session: nat) {
    exists i :: 0 <= i < |a.stored| && a.stored[i].session == session
  }

  lemma StepKeepsClosed(s: State, move: Move, session: nat)
    requires InOrder(s) && Closed(s.auth, session)
    ensures var b := Step(s, move).auth;
            && Closed(b, session)
            && (!s.auth.statuses[session].Pending? ==> !b.statuses[session].Pending?)
            && (Stores(b, session) <==> Stores(s.auth, session))
  {
    var a, b := s.auth, Step(s, move).auth;
    TokensComeFromPending(s, move);
    if Stores(a, session) {
      var i :| 0 <= i < |a.stored| && a.stored[i].session == session;
      assert b.stored[i] == a.stored[i];
    }
  }

  /** No session returns to pending, and once it has ended or been replaced no token is ever stored for it again. */
  lemma {:induction false} ClosedForever(early: seq<Move>, later: seq<Move>, session: nat)
    requires Closed(Run(IDLE, early).auth, session)
    ensures var a, b := Run(IDLE, early).auth, Run(Run(IDLE, early), later).auth;
            && Closed(b, session)
            && (!a.statuses[session].Pending? ==> !b.statuses[session].Pending?)
            && (Stores(b, session) <==> Stores(a, session))
  {
    hide Step, InOrder, Closed, Stores;
    assert InOrder(IDLE) by { IdleInOrder(); }
    RunInOrder(IDLE, early);
    if later != [] {
      var n := |later| - 1;
      ClosedForever(early, later[..n], session);
      RunInOrder(Run(IDLE, early), later[..n]);
      StepKeepsClosed(Run(Run(IDLE, early), later[..n]), later[n], session);
      ClosedIsStarted(Run(IDLE, early).auth, session);
      ClosedIsStarted(Run(Run(IDLE, early), later[..n]).auth, session);
    }
  }

  lemma ClosedIsStarted(a: Auth, session: nat)
    requires Closed(a, session)
    ensures session < |a.statuses|
  {
  }

  lemma IdleInOrder()
    ensures InOrder(IDLE)
  {
  }

  // -------------------------------------------------------- completion

  /** The move ends the session from outside: its timeout fires or its local server fails while it is current. */
  /** A request whose handler holds a token for the session completes it now. */
  predicate Completing(s: State, move: Move, session: nat) {
    && move.Complete? && move.stores && move.request < |s.requests|
    && s.requests[move.request].progress.HasToken? && s.requests[move.request].session == session
  }

  /** A pending session ends exactly in its own way, and only while it is the current one: a stored token completes it, its timeout expires it, its server's failure fails it. */
  lemma PendingEndsExactly(s: State, move: Move, session: nat)
    requires InOrder(s) && session < |s.auth.statuses| && s.auth.statuses[session].Pending?
    ensures var b := Step(s, move).auth;
            && session < |b.statuses|
            && (b.statuses[session].Completed? <==> s.auth.current == Some(session) && Completing(s, move, session))
            && (b.statuses[session].Expired? <==> s.auth.current == Some(session) && move == Timeout(session))
            && (b.statuses[session].Failed? <==> s.auth.current == Some(session) && move == ServerFails(session))
            && (b.statuses[session].Completed? ==> b.stored == s.auth.stored + [Stored(session, move.request)])
  {
  }

  /** Starting makes a new pending session the current one and changes no other. */
  lemma StartTells(s: State)
    requires InOrder(s)
    ensures var b := Step(s, Start).auth;
            && |b.statuses| == |s.auth.statuses| + 1 && b.current == Some(|s.auth.statuses|) && b.statuses[|s.auth.statuses|].Pending?
            && (forall k :: 0 <= k < |s.auth.statuses| ==> b.statuses[k] == s.auth.statuses[k])
            && b.stored == s.auth.stored
  {
  }

  /** How far a callback gets: past the check exactly if it knew the state of the session current then, and on with a token exactly if it brought one. */
  lemma CallbackAdvancesExactly(s: State, move: Move, i: nat)
    requires i < |s.requests|
    ensures var before, after := s.requests[i], Step(s, move).requests;
            && i < |after| && after[i].session == before.session && after[i].knowsState == before.knowsState
            && (before.progress.Arrived? ==>
                  (after[i].progress.Checked? <==> move == Check(i) && s.auth.current == Some(before.session) && before.knowsState))
            && (before.progress.Arrived? ==> (after[i].progress.Arrived? <==> move != Check(i)) && !after[i].progress.HasToken?)
            && (before.progress.Checked? ==> (after[i].progress.HasToken? <==> move == Read(i, true)))
            && (before.progress.Answered? ==> after[i] == before)
  {
  }

  predicate Overrides(a: Auth, move: Move, session: nat) {
    a.current == Some(session) && (move == Timeout(session) || move == ServerFails(session))
  }

  /**
   Completion is not final, because only completing asks whether the session is
   still pending: a completed session stays completed through a step exactly when
   the step is not its timeout or its server's failure while it is current.
   */
  lemma CompletionLastsUnlessOverridden(s: State, move: Move, session: nat)
    requires InOrder(s) && session < |s.auth.statuses| && s.auth.statuses[session].Completed?
    ensures var b := Step(s, move).auth;
            && session < |b.statuses| && (b.statuses[session].Completed? <==> !Overrides(s.auth, move, session))
            && (Overrides(s.auth, move, session) ==> b.statuses[session] == if move.Timeout? then Expired else Failed)
  {
  }

  /** Some move of the run overrides the session in the state it finds. */
  ghost predicate OverriddenIn(s: State, moves: seq<Move>, session: nat) {
    moves != [] && (OverriddenIn(s, moves[..|moves| - 1], session)
                    || Overrides(Run(s, moves[..|moves| - 1]).auth, moves[|moves| - 1], session))
  }

  /** An expired or failed session never becomes completed. */
  lemma EndedStaysEnded(s: State, move: Move, session: nat)
    requires InOrder(s) && session < |s.auth.statuses| && (s.auth.statuses[session].Expired? || s.auth.statuses[session].Failed?)
    ensures var b := Step(s, move).auth;
            session < |b.statuses| && (b.statuses[session].Expired? || b.statuses[session].Failed?)
  {
  }

  /** Over every run a completed session is still completed at the end exactly when no move of the run overrode it. */
  lemma {:induction false} CompletedUntilOverridden(s: State, moves: seq<Move>, session: nat)
    requires InOrder(s) && session < |s.auth.statuses| && s.auth.statuses[session].Completed?
    ensures var b := Run(s, moves).auth;
            && session < |b.statuses| && (b.statuses[session].Completed? <==> !OverriddenIn(s, moves, session))
            && (!b.statuses[session].Completed? ==> b.statuses[session].Expired? || b.statuses[session].Failed?)
  {
    hide Step, InOrder, Overrides;
    if moves != [] {
      var n := |moves| - 1;
      CompletedUntilOverridden(s, moves[..n], session);
      RunInOrder(s, moves[..n]);
      var mid := Run(s, moves[..n]);
      if mid.auth.statuses[session].Completed? {
        CompletionLastsUnlessOverridden(mid, moves[n], session);
      } else {
        EndedStaysEnded(mid, moves[n], session);
      }
    }
  }

  /** One authorization, from its start to its stored token. */
  const AUTHORIZED := [Start, Arrive(0, true), Check(0), Read(0, true), Complete(0, true)]

  lemma Then(s: State, moves: seq<Move>, move: Move)
    ensures Run(s, moves + [move]) == Step(Run(s, moves), move)
  {
    assert (moves + [move])[..|moves|] == moves;
  }

  lemma AuthorizedCompletes()
    ensures Run(IDLE, AUTHORIZED) == State(Auth([Completed], Some(0), [Stored(0, 0)]), [Request(0, true, Answered)])
  {
    var m := AUTHORIZED;
    assert m == [] + [m[0]] + [m[1]] + [m[2]] + [m[3]] + [m[4]];
    Then(IDLE, [], m[0]);
    Then(IDLE, [] + [m[0]], m[1]);
    Then(IDLE, [] + [m[0]] + [m[1]], m[2]);
    Then(IDLE, [] + [m[0]] + [m[1]] + [m[2]], m[3]);
    Then(IDLE, [] + [m[0]] + [m[1]] + [m[2]] + [m[3]], m[4]);
  }

  /** A run that fails: the token is stored, and then the timeout or the server's failure overwrites the status. */
  lemma CompletionIsOverridden(move: Move)
    requires move == Timeout(0) || move == ServerFails(0)
    ensures var a := Run(IDLE, AUTHORIZED + [move]).auth;
            a.stored == [Stored(0, 0)] && a.statuses == [if move == Timeout(0) then Expired else Failed]
  {
    AuthorizedCompletes();
    Then(IDLE, AUTHORIZED, move);
  }
}
