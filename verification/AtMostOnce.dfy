/**
 Consumption of approvals over whole runs: an approved request reaches a host
 at most once, a retired (denied, consumed or dropped) one never does, and what
 ran is what the request that was raised for it named.
 */
module AtMostOnce {
  import opened Text
  import opened CommandPolicy
  import opened ToolCalling
  import opened LoopFacts
  import opened RunSafety

  ghost predicate Issued(w: World, id: string) {
    exists k :: 0 <= k < w.clock && id == RequestID(k)
  }

  predicate DistinctIDs(requests: seq<CommandRequest>) {
    forall i, j :: 0 <= i < j < |requests| ==> requests[i].id != requests[j].id
  }

  /** Listed identifiers are distinct and, like the continuation's, were issued earlier. */
  ghost predicate Structure(w: World) {
    && DistinctIDs(Listed(w))
    && (forall r :: r in Listed(w) ==> Issued(w, r.id))
    && (w.ai.pendingCall.Some? ==> Issued(w, w.ai.pendingCall.value.requestID))
  }

  /** Approving the identifier could still cause an effect. */
  ghost predicate Live(w: World, id: string) {
    (exists r :: r in Listed(w) && r.id == id && r.toolID != SFTP_WRITE) || Holds(w.ai, id)
  }

  ghost predicate Retired(w: World, id: string) {
    Issued(w, id) && !Live(w, id)
  }

  predicate Names(e: Effect, id: string) {
    match e
    case RanCommand(_, _, route) => route == Approved(id)
    case WroteFile(_, _, _, requestID) => requestID == id
    case LookedAt(_, _, _) => false
  }

  function Uses(effects: seq<Effect>, id: string): nat {
    if effects == [] then 0 else Uses(effects[..|effects| - 1], id) + (if Names(effects[|effects| - 1], id) then 1 else 0)
  }

  // -------------------------------------------------- kinds of transition

  /** Requests may leave the list and the continuation may be dropped, nothing else. */
  ghost predicate Shrinks(w: World, w': World) {
    && w.clock <= w'.clock && w'.asked == w.asked
    && (forall r :: r in Listed(w') ==> r in Listed(w))
    && (DistinctIDs(Listed(w)) ==> DistinctIDs(Listed(w')))
    && (w'.ai.pendingCall == w.ai.pendingCall || w'.ai.pendingCall.None?)
  }

  lemma IssuedLater(w: World, w': World, id: string)
    requires Issued(w, id) && w.clock <= w'.clock
    ensures Issued(w', id)
  {
    hide RequestID;
  }

  lemma ShrinksKeeps(w: World, w': World, id: string)
    requires Shrinks(w, w')
    ensures Structure(w) ==> Structure(w')
    ensures Retired(w, id) ==> Retired(w', id)
  {
    hide Listed, DistinctIDs, Issued;
    if Structure(w) {
      forall r | r in Listed(w') ensures Issued(w', r.id) {
        IssuedLater(w, w', r.id);
      }
      if w'.ai.pendingCall.Some? {
        IssuedLater(w, w', w.ai.pendingCall.value.requestID);
      }
    }
    if Retired(w, id) {
      IssuedLater(w, w', id);
    }
  }

  lemma FreshIsNotIssued(w: World, k: nat)
    requires w.clock <= k
    ensures !Issued(w, RequestID(k))
  {
    forall j: nat | j < w.clock ensures RequestID(j) != RequestID(k) {
      if RequestID(j) == RequestID(k) {
        NumberedIsInjective("cmdreq-", j, k);
      }
    }
  }

  lemma RaisedKeeps(w: World, w': World, id: string)
    requires Structure(w) && Raised(w, w') && w.clock <= w'.clock
    ensures Structure(w')
    ensures Retired(w, id) ==> Retired(w', id)
  {
    hide Listed, CleanRequests, RequestID, Matches, NamesPath;
    var r := w'.asked[|w.asked|];
    var k :| w.clock <= k < w'.clock && r.id == RequestID(k);
    FreshIsNotIssued(w, k);
    assert Issued(w', r.id);
    forall q | q in Listed(w') ensures Issued(w', q.id) {
      if q in Listed(w) {
        IssuedLater(w, w', q.id);
      }
    }
    forall i | 0 <= i < |Listed(w)| ensures Listed(w)[i].id != r.id {
      assert Listed(w)[i] in Listed(w);
    }
    if Retired(w, id) {
      IssuedLater(w, w', id);
    }
  }

  lemma QuietShrinks(w: World, w': World)
    requires Quiet(w, w') && w.clock <= w'.clock
    ensures Shrinks(w, w')
  {
    hide Listed;
  }

  lemma ProgressKeeps(w: World, w': World, policy: Policy, id: string)
    requires Structure(w) && Progress(w, w', policy)
    ensures Structure(w')
    ensures Retired(w, id) ==> Retired(w', id)
  {
    ClockForward(w, w', policy);
    hide Structure, Retired, Quiet, Raised, Forward, Shrinks;
    if Quiet(w, w') {
      QuietShrinks(w, w');
      ShrinksKeeps(w, w', id);
    } else {
      RaisedKeeps(w, w', id);
    }
  }

  lemma WithoutFacts(requests: seq<CommandRequest>, i: nat)
    requires i < |requests|
    ensures forall r :: r in Without(requests, i) ==> r in requests
    ensures CleanRequests(requests) ==> CleanRequests(Without(requests, i))
    ensures DistinctIDs(requests) ==> DistinctIDs(Without(requests, i)) && forall r :: r in Without(requests, i) ==> r.id != requests[i].id
  {
    hide UsableRequest, CleanRequest;
  }

  lemma ListedWithout(w: World, w': World, i: nat)
    requires i < |Listed(w)| && w'.ai.policy.pending == Without(Listed(w), i)
    ensures Listed(w') == Without(Listed(w), i)
  {
    NormalizedRequestsAreClean(w.ai.policy.pending);
    WithoutFacts(Listed(w), i);
    CleanRequestsStay(Without(Listed(w), i));
  }

  lemma RemovingShrinks(w: World, w': World, i: nat)
    requires i < |Listed(w)| && w'.ai.policy.pending == Without(Listed(w), i) && w.clock <= w'.clock && w'.asked == w.asked
    requires w'.ai.pendingCall == w.ai.pendingCall || w'.ai.pendingCall.None?
    ensures Shrinks(w, w')
    ensures Structure(w) && !Holds(w'.ai, Listed(w)[i].id) ==> Retired(w', Listed(w)[i].id)
  {
    hide Listed, DistinctIDs, Issued, Without;
    ListedWithout(w, w', i);
    WithoutFacts(Listed(w), i);
    if Structure(w) {
      assert Issued(w, Listed(w)[i].id);
      IssuedLater(w, w', Listed(w)[i].id);
    }
  }

  lemma SameListShrinks(w: World, w': World)
    requires w'.ai.policy.pending == w.ai.policy.pending && w.clock <= w'.clock && w'.asked == w.asked
    requires w'.ai.pendingCall == w.ai.pendingCall || w'.ai.pendingCall.None?
    ensures Shrinks(w, w')
  {
    ListedOfPolicy(w, w');
    hide Listed;
  }

  // ------------------------------------------------------------ resolving

  /** Requests may be removed first, and then at most one is raised. */
  ghost predicate Moves(w: World, w': World) {
    exists mid :: Shrinks(w, mid) && Progress(mid, w', Normalized(mid.ai.policy))
  }

  /** The call keeps the structure and every retirement, and retires the request unless it says otherwise. */
  ghost predicate Consumes(w: World, w': World, id: string, retires: bool) {
    && Structure(w') && Moves(w, w')
    && (forall other :: Retired(w, other) ==> Retired(w', other))
    && (retires ==> Retired(w', id))
  }

  lemma ShrinksConsumes(w: World, w': World, id: string, retires: bool)
    requires Structure(w) && Shrinks(w, w') && (retires ==> Retired(w', id))
    ensures Consumes(w, w', id, retires)
  {
    hide Structure, Retired, Shrinks, Forward, Quiet, Raised, Normalized;
    ShrinksKeeps(w, w', id);
    QuietIsReflexive(w', Normalized(w'.ai.policy));
    forall other ensures Retired(w, other) ==> Retired(w', other) {
      ShrinksKeeps(w, w', other);
    }
  }

  /** The request is out of the list and its continuation gone; then the conversation is resumed. */
  lemma RemovedThenResumed(env: Environment, w: World, w1: World, pending: PendingCall, result: ToolResult, id: string)
    requires Structure(w) && Shrinks(w, w1) && Retired(w1, id)
    ensures Consumes(w, Resume(env, w1, pending, result).0, id, true)
    ensures Consumes(w, Resume(env, w1, pending, result).0, id, false)
  {
    hide Structure, Retired, Shrinks, Resume, Progress, Normalized;
    ShrinksKeeps(w, w1, id);
    var w' := Resume(env, w1, pending, result).0;
    ResumeProgress(env, w1, pending, result);
    ProgressKeeps(w1, w', Normalized(w1.ai.policy), id);
    forall other ensures Retired(w, other) ==> Retired(w', other) {
      ShrinksKeeps(w, w1, other);
      ProgressKeeps(w1, w', Normalized(w1.ai.policy), other);
    }
  }

  lemma RejectConsumes(env: Environment, w: World, policy: Policy, i: nat)
    requires policy == Normalized(w.ai.policy) && i < |policy.pending| && Structure(w)
    ensures var w' := RejectRequest(env, w, policy, i).0;
            Consumes(w, w', policy.pending[i].id, env.succeeds(w.draws))
  {
    hide Structure, Retired, Shrinks, Resume, RejectedNote, Normalized, Listed, Without, Consumes;
    var r := policy.pending[i];
    PendingIsListed(w);
    var ai := w.ai.(policy := policy.(pending := Without(policy.pending, i)));
    var w' := RejectRequest(env, w, policy, i).0;
    if Holds(w.ai, r.id) {
      var (w1, saved) := Save(env, w, ai.(pendingCall := None));
      if saved {
        RemovingShrinks(w, w1, i);
        RemovedThenResumed(env, w, w1, w.ai.pendingCall.value, ApprovalDenied, r.id);
      } else {
        SameListShrinks(w, w1);
        ShrinksConsumes(w, w1, r.id, false);
      }
    } else {
      if env.succeeds(w.draws) {
        RemovingShrinks(w, w', i);
        ShrinksConsumes(w, w', r.id, true);
      } else {
        SameListShrinks(w, w');
        ShrinksConsumes(w, w', r.id, false);
      }
    }
  }

  lemma DropContinuationRetires(w: World, w1: World, r: CommandRequest)
    requires Structure(w) && r in Listed(w) && r.toolID == SFTP_WRITE && Holds(w.ai, r.id)
    requires w1.ai == w.ai.(pendingCall := None) && w1.clock == w.clock && w1.asked == w.asked
    ensures Shrinks(w, w1) && Retired(w1, r.id)
  {
    SameListShrinks(w, w1);
    ListedOfPolicy(w, w1);
    hide Listed, Issued, Shrinks;
    IssuedLater(w, w1, r.id);
    var i :| 0 <= i < |Listed(w)| && Listed(w)[i] == r;
    forall q | q in Listed(w) && q.id == r.id ensures q == r {
      var j :| 0 <= j < |Listed(w)| && Listed(w)[j] == q;
    }
  }

  /** Approving a write retires its request once the continuation's removal is saved. */
  lemma ApproveWriteConsumes(env: Environment, w: World, r: CommandRequest)
    requires Structure(w) && r in Listed(w) && r.toolID == SFTP_WRITE
    ensures var w' := ApproveWrite(env, w, r).0;
            Consumes(w, w', r.id, w'.effects != w.effects)
  {
    hide Structure, Retired, Shrinks, Resume, Listed, Consumes, Trim, Utf8Length, FindTab, StrictlyConnected, Field;
    var w' := ApproveWrite(env, w, r).0;
    if !Holds(w.ai, r.id) || w.ai.pendingCall.value.toolName != SFTP_WRITE {
      SameListShrinks(w, w');
      ShrinksConsumes(w, w', r.id, false);
    } else {
      var pending := w.ai.pendingCall.value;
      var (w1, saved) := Save(env, w, w.ai.(pendingCall := None));
      if !saved {
        SameListShrinks(w, w1);
        ShrinksConsumes(w, w1, r.id, false);
      } else {
        DropContinuationRetires(w, w1, r);
        WriteAfterConsumption(env, w, w1, r, pending, w');
        ConsumesWhen(w, w', r.id, true, w'.effects != w.effects);
      }
    }
  }

  lemma ConsumesWhen(w: World, w': World, id: string, retires: bool, fewer: bool)
    requires Consumes(w, w', id, retires) && (fewer ==> retires)
    ensures Consumes(w, w', id, fewer)
  {
    hide Structure, Retired;
  }

  lemma WriteAfterConsumption(env: Environment, w: World, w1: World, r: CommandRequest, pending: PendingCall, w': World)
    requires Structure(w) && Shrinks(w, w1) && Retired(w1, r.id)
    requires Holds(w.ai, r.id) && pending == w.ai.pendingCall.value && pending.toolName == SFTP_WRITE
    requires Save(env, w, w.ai.(pendingCall := None)) == (w1, true)
    requires w' == ApproveWrite(env, w, r).0
    ensures Consumes(w, w', r.id, true)
  {
    hide Structure, Retired, Shrinks, Resume, Consumes, Trim, Utf8Length, FindTab, StrictlyConnected, Field, Holds;
    ShrinksConsumes(w, w1, r.id, true);
    var fields := Decode(pending.arguments, WRITE_SCHEMA);
    if fields.Some? && w' != w1 {
      var session, path, content := Trim(Field(fields.value, "sessionId")), Trim(Field(fields.value, "path")), Field(fields.value, "content");
      var w2 := w1.(effects := w1.effects + [WroteFile(session, path, content, r.id)], draws := w1.draws + 1);
      EffectKeepsShape(w, w1, w2, r.id);
      RemovedThenResumed(env, w, w2, pending, Wrote(session, path, env.succeeds(w1.draws)), r.id);
    }
  }

  lemma EffectKeepsShape(w: World, w1: World, w2: World, id: string)
    requires Shrinks(w, w1) && w2.ai == w1.ai && w2.clock == w1.clock && w2.asked == w1.asked
    ensures Shrinks(w, w2) && (Retired(w1, id) ==> Retired(w2, id))
  {
    ListedOfPolicy(w1, w2);
    hide Listed, DistinctIDs, Issued;
    if Retired(w1, id) {
      IssuedLater(w1, w2, id);
    }
  }

  lemma ExecuteKeepsShape(env: Environment, w: World, w1: World, r: CommandRequest, id: string)
    requires Shrinks(w, w1)
    ensures var w2 := Execute(env, w1, r.sessionID, r.command, Approved(r.id)).0;
            Shrinks(w, w2) && (Retired(w1, id) ==> Retired(w2, id)) && w2 == w1.(effects := w2.effects)
  {
    hide Shrinks, Retired, Trim, ConnectedSSH;
    EffectKeepsShape(w, w1, Execute(env, w1, r.sessionID, r.command, Approved(r.id)).0, id);
  }

  /** A saved approval takes the request out of the list and drops the continuation that holds it. */
  lemma ApprovalRetires(w: World, w1: World, i: nat, mode: Mode)
    requires i < |Listed(w)| && Structure(w) && w1.clock == w.clock && w1.asked == w.asked
    requires w1.ai.policy == PolicyAfterApproval(Normalized(w.ai.policy), i, mode)
    requires w1.ai.pendingCall == w.ai.pendingCall || w1.ai.pendingCall.None?
    ensures Shrinks(w, w1) && (!Holds(w1.ai, Listed(w)[i].id) ==> Retired(w1, Listed(w)[i].id))
  {
    hide Shrinks, Retired, Listed, Structure, Normalized, NormalizedRules, GrantFor, Without;
    PendingIsListed(w);
    RemovingShrinks(w, w1, i);
  }

  lemma HeldCommandConsumes(env: Environment, w: World, policy: Policy, i: nat, mode: Mode)
    requires policy == Normalized(w.ai.policy) && i < |policy.pending| && Structure(w)
    requires Holds(w.ai, policy.pending[i].id)
    requires Decide(policy, policy.pending[i].toolID, policy.pending[i].sessionID, policy.pending[i].command) != Decision.Deny
    ensures var w' := ApproveCommand(env, w, policy, i, mode).0;
            Consumes(w, w', policy.pending[i].id, w'.effects != w.effects)
  {
    hide Structure, Retired, Shrinks, Resume, Normalized, Listed, Consumes, Execute, PolicyAfterApproval, Decide;
    PendingIsListed(w);
    var r := policy.pending[i];
    var ai := w.ai.(policy := PolicyAfterApproval(policy, i, mode), pendingCall := None);
    var (w1, saved) := Save(env, w, ai);
    if !saved {
      SameListShrinks(w, w1);
      ShrinksConsumes(w, w1, r.id, false);
    } else {
      ApprovalRetires(w, w1, i, mode);
      ExecuteKeepsShape(env, w, w1, r, r.id);
      var (w2, execution) := Execute(env, w1, r.sessionID, r.command, Approved(r.id));
      RemovedThenResumed(env, w, w2, w.ai.pendingCall.value, Ran(r.sessionID, r.command, execution), r.id);
      ConsumesWhen(w, Resume(env, w2, w.ai.pendingCall.value, Ran(r.sessionID, r.command, execution)).0, r.id, true,
                   ApproveCommand(env, w, policy, i, mode).0.effects != w.effects);
    }
  }

  lemma UnheldCommandConsumes(env: Environment, w: World, policy: Policy, i: nat, mode: Mode)
    requires policy == Normalized(w.ai.policy) && i < |policy.pending| && Structure(w)
    requires !Holds(w.ai, policy.pending[i].id)
    requires Decide(policy, policy.pending[i].toolID, policy.pending[i].sessionID, policy.pending[i].command) != Decision.Deny
    ensures var w' := ApproveCommand(env, w, policy, i, mode).0;
            Consumes(w, w', policy.pending[i].id, env.succeeds(w.draws))
  {
    hide Structure, Retired, Shrinks, Resume, Normalized, Listed, Consumes, Execute, PolicyAfterApproval, Decide, Report;
    PendingIsListed(w);
    var r := policy.pending[i];
    var w' := ApproveCommand(env, w, policy, i, mode).0;
    SameListShrinks(w, w);
    ExecuteKeepsShape(env, w, w, r, r.id);
    var (w1, execution) := Execute(env, w, r.sessionID, r.command, Approved(r.id));
    if env.succeeds(w.draws) {
      ApprovalRetires(w, w', i, mode);
      ShrinksConsumes(w, w', r.id, true);
    } else {
      SameListShrinks(w, w');
      ShrinksConsumes(w, w', r.id, false);
    }
  }

  /** Approving keeps the structure; an approval with an effect retires its request if it is held or the store can be written. */
  lemma ApproveConsumes(env: Environment, w: World, policy: Policy, i: nat, mode: Mode)
    requires policy == Normalized(w.ai.policy) && i < |policy.pending| && Grants(mode) && Structure(w)
    ensures var w' := ApproveRequest(env, w, policy, i, mode).0;
            Consumes(w, w', policy.pending[i].id, w'.effects != w.effects && (Holds(w.ai, policy.pending[i].id) || env.succeeds(w.draws)))
  {
    hide Structure, Retired, Shrinks, Normalized, Listed, Consumes, ToolEnabled, FindTab, ApproveWrite, ApproveCommand, Matches, Without;
    PendingIsListed(w);
    var r := policy.pending[i];
    var w' := ApproveRequest(env, w, policy, i, mode).0;
    if r.toolID != SFTP_WRITE && !ToolEnabled(policy.tools, r.toolID) {
      SameListShrinks(w, w');
      ShrinksConsumes(w, w', r.id, false);
    } else if FindTab(w.tabs, r.sessionID).None? {
      if env.succeeds(w.draws) {
        RemovingShrinks(w, w', i);
      } else {
        SameListShrinks(w, w');
      }
      ShrinksConsumes(w, w', r.id, false);
    } else if Holds(w.ai, r.id) && !Matches(w.ai.pendingCall.value, r) {
      SameListShrinks(w, w');
      ShrinksConsumes(w, w', r.id, false);
    } else if r.toolID == SFTP_WRITE {
      ApproveWriteConsumes(env, w, r);
      ConsumesWhen(w, w', r.id, w'.effects != w.effects, w'.effects != w.effects && (Holds(w.ai, r.id) || env.succeeds(w.draws)));
    } else {
      ApproveCommandConsumes(env, w, policy, i, mode);
    }
  }

  lemma ResumeSavesResult(env: Environment, w: World, pending: PendingCall, result: ToolResult)
    ensures Resume(env, w, pending, result).1 != Error(ResultNotSaved)
  {
    hide RunTurns, RefreshPrompt, Trim, Normalized, ToolsOn, ProviderByID;
  }

  lemma ApproveCommandConsumes(env: Environment, w: World, policy: Policy, i: nat, mode: Mode)
    requires policy == Normalized(w.ai.policy) && i < |policy.pending| && Structure(w)
    ensures var w' := ApproveCommand(env, w, policy, i, mode).0;
            Consumes(w, w', policy.pending[i].id, w'.effects != w.effects && (Holds(w.ai, policy.pending[i].id) || env.succeeds(w.draws)))
  {
    hide Structure, Retired, Shrinks, Normalized, Listed, Consumes, Decide, Execute, PolicyAfterApproval, Resume, Without, DeniedNote, Report;
    PendingIsListed(w);
    var r := policy.pending[i];
    var w' := ApproveCommand(env, w, policy, i, mode).0;
    if Decide(policy, r.toolID, r.sessionID, r.command) == Decision.Deny {
      if env.succeeds(w.draws) {
        RemovingShrinks(w, w', i);
      } else {
        SameListShrinks(w, w');
      }
      ShrinksConsumes(w, w', r.id, false);
    } else if Holds(w.ai, r.id) {
      HeldCommandConsumes(env, w, policy, i, mode);
    } else {
      UnheldCommandConsumes(env, w, policy, i, mode);
      if env.succeeds(w.draws) {
        ConsumesWhen(w, w', r.id, true, w'.effects != w.effects && (Holds(w.ai, r.id) || env.succeeds(w.draws)));
      }
    }
  }

  /** The identifier finds a listed request. */
  ghost predicate IsListed(w: World, id: string) {
    id != "" && exists i :: 0 <= i < |Listed(w)| && Listed(w)[i].id == id
  }

  /** A resolution keeps the structure and every retirement; it retires its own request when it had an effect and was recorded, or denied it. */
  lemma ResolveConsumes(env: Environment, w: World, requestID: string, mode: Mode)
    requires Structure(w)
    ensures var w', id := ResolveRequest(env, w, requestID, mode).0, Trim(requestID);
            && Consumes(w, w', id, w'.effects != w.effects && Grants(mode) && (Holds(w.ai, id) || env.succeeds(w.draws)))
            && (mode == Reject && env.succeeds(w.draws) && IsListed(w, id) ==> Retired(w', id))
  {
    hide Structure, Retired, Shrinks, Normalized, Listed, Trim, RejectRequest, ApproveRequest;
    PendingIsListed(w);
    var policy := Normalized(w.ai.policy);
    var found := FindRequest(policy.pending, Trim(requestID));
    SameListShrinks(w, w);
    ShrinksConsumes(w, w, Trim(requestID), false);
    if found.Some? && Trim(requestID) != "" {
      if mode == Reject {
        RejectConsumes(env, w, policy, found.value);
      } else if Grants(mode) {
        ApproveConsumes(env, w, policy, found.value, mode);
      }
    }
  }

  // -------------------------------------------------------------- any call

  /** A policy update may drop listed requests but not bring others back. */
  ghost predicate Admissible(w: World, action: ServiceCall) {
    action.SetPolicy? ==>
      && DistinctIDs(NormalizedRequests(action.policy.pending))
      && forall r :: r in NormalizedRequests(action.policy.pending) ==> r in Listed(w)
  }

  lemma ReplacePolicyShrinks(env: Environment, w: World, policy: Policy)
    requires Admissible(w, SetPolicy(policy))
    ensures Shrinks(w, ReplacePolicy(env, w, policy).0)
  {
    hide NormalizedTools, Trim;
    NormalizedRequestsIdempotent(policy.pending);
    var w' := ReplacePolicy(env, w, policy).0;
    if w'.ai == w.ai {
      SameListShrinks(w, w');
    } else {
      assert Listed(w') == NormalizedRequests(policy.pending);
    }
  }

  lemma EmptyingShrinks(w: World, w': World)
    requires w'.ai.policy.pending == [] && w'.ai.pendingCall.None? && w.clock <= w'.clock && w'.asked == w.asked
    ensures Shrinks(w, w')
  {
    assert Listed(w') == [];
  }

  lemma ClearShrinks(env: Environment, w: World)
    ensures Shrinks(w, Clear(env, w).0)
  {
    hide NormalizedTools, NormalizedRequests, Decimal, Trim, Shrinks;
    var w' := Clear(env, w).0;
    if env.succeeds(w.draws) {
      EmptyingShrinks(w, w');
    } else {
      SameListShrinks(w, w');
    }
  }

  lemma LockShrinks(env: Environment, w: World)
    ensures Shrinks(w, LockStorage(env, w))
  {
    hide Shrinks;
    if env.succeeds(w.draws) {
      EmptyingShrinks(w, LockStorage(env, w));
    } else {
      SameListShrinks(w, LockStorage(env, w));
    }
  }

  lemma ProgressMoves(w: World, w': World)
    requires Progress(w, w', Normalized(w.ai.policy))
    ensures Moves(w, w')
  {
    hide Progress, Normalized, Shrinks;
    SameListShrinks(w, w);
  }

  lemma ShrinksMoves(w: World, w': World)
    requires Shrinks(w, w')
    ensures Moves(w, w')
  {
    hide Forward, Quiet, Raised, Normalized, Shrinks;
    QuietIsReflexive(w', Normalized(w'.ai.policy));
  }

  /** Every call removes requests and then raises at most one. */
  lemma StepMoves(env: Environment, w: World, action: ServiceCall)
    requires Structure(w) && Admissible(w, action)
    ensures Moves(w, Step(env, w, action).0)
  {
    hide Structure, Moves, SendChat, RunAgent, ResolveRequest, Clear, ReplacePolicy, LockStorage, Admissible;
    match action
    case Send(message, sessionID) =>
      SendChatProgress(env, w, message, sessionID);
      ProgressMoves(w, SendChat(env, w, message, sessionID).0);
    case AgentRun(sessionID, input) =>
      RunAgentProgress(env, w, sessionID, input);
      ProgressMoves(w, RunAgent(env, w, sessionID, input).0);
    case Resolve(requestID, mode) =>
      ResolveConsumes(env, w, requestID, mode);
    case ClearChat =>
      ClearShrinks(env, w);
      ShrinksMoves(w, Clear(env, w).0);
    case SetPolicy(policy) =>
      ReplacePolicyShrinks(env, w, policy);
      ShrinksMoves(w, ReplacePolicy(env, w, policy).0);
    case Lock =>
      LockShrinks(env, w);
      ShrinksMoves(w, LockStorage(env, w));
    case ChangeTabs(tabs) =>
      SameListShrinks(w, w.(tabs := tabs));
      ShrinksMoves(w, w.(tabs := tabs));
  }

  /** Every call keeps the structure and every retirement. */
  lemma StepKeeps(env: Environment, w: World, action: ServiceCall, id: string)
    requires Structure(w) && Admissible(w, action)
    ensures Structure(Step(env, w, action).0)
    ensures Retired(w, id) ==> Retired(Step(env, w, action).0, id)
  {
    hide Structure, Retired, Shrinks, Progress, Step, Normalized, Admissible;
    StepMoves(env, w, action);
    var w' := Step(env, w, action).0;
    var mid :| Shrinks(w, mid) && Progress(mid, w', Normalized(mid.ai.policy));
    ShrinksKeeps(w, mid, id);
    ProgressKeeps(mid, w', Normalized(mid.ai.policy), id);
  }

  // ------------------------------------------------------------ how often

  lemma {:induction false} UsesExtended(a: seq<Effect>, b: seq<Effect>, id: string)
    requires a <= b
    requires forall k :: |a| < k < |b| ==> !Names(b[k], id)
    ensures Uses(b, id) == Uses(a, id) + (if |a| < |b| && Names(b[|a|], id) then 1 else 0)
  {
    if |a| < |b| {
      var n := |b| - 1;
      assert b[..n][..|a|] == a;
      UsesExtended(a, b[..n], id);
      if n > |a| {
        assert b[..n][|a|] == b[|a|];
      }
    } else {
      assert a == b;
    }
  }

  /** A call uses an identifier at most once, only if it is live, and only when it is the one being approved. */
  lemma StepUses(env: Environment, w: World, action: ServiceCall, id: string)
    ensures var w' := Step(env, w, action).0;
            Uses(w'.effects, id) == Uses(w.effects, id)
            || (Uses(w'.effects, id) == Uses(w.effects, id) + 1 && Live(w, id) && w'.effects != w.effects
                && action.Resolve? && Grants(action.mode) && Trim(action.requestID) == id)
  {
    hide Step, Allowed, Listed, Decide, Trim, ToolEnabled, ConnectedSSH, FindTab, StrictlyConnected, Matches, Utf8Length, Field;
    var w' := Step(env, w, action).0;
    StepJustified(env, w, action);
    forall k | |w.effects| < k < |w'.effects| ensures !Names(w'.effects[k], id) {
    }
    UsesExtended(w.effects, w'.effects, id);
  }

  /** Once retired, an identifier is never used again, over any run. */
  lemma {:induction false} RetiredNeverRuns(env: Environment, w: World, calls: seq<ServiceCall>, id: string)
    requires Structure(w) && Retired(w, id) && AdmissibleRun(env, w, calls)
    ensures Uses(Run(env, w, calls).effects, id) == Uses(w.effects, id)
    decreases |calls|
  {
    hide Structure, Live, Issued, Step, Admissible;
    if calls != [] {
      StepKeeps(env, w, calls[0], id);
      StepUses(env, w, calls[0], id);
      RetiredNeverRuns(env, Step(env, w, calls[0]).0, calls[1..], id);
    }
  }

  ghost predicate AdmissibleRun(env: Environment, w: World, calls: seq<ServiceCall>)
    decreases |calls|
  {
    calls == [] || (Admissible(w, calls[0]) && AdmissibleRun(env, Step(env, w, calls[0]).0, calls[1..]))
  }

  // ------------------------------------------------- which uses retire

  predicate Approves(action: ServiceCall, id: string) {
    action.Resolve? && Grants(action.mode) && Trim(action.requestID) == id
  }

  /**
   The one way to run without retiring: the request is listed without a continuation,
   its command may run on its connected session, and the store cannot be written.
   */
  ghost predicate RunsUnsaved(env: Environment, w: World, action: ServiceCall, id: string) {
    && Approves(action, id) && id != "" && !Holds(w.ai, id) && !env.succeeds(w.draws)
    && exists i :: 0 <= i < |Listed(w)| && RunsAs(w, Listed(w)[i], id)
  }

  ghost predicate RunsAs(w: World, r: CommandRequest, id: string) {
    r.id == id && MayRun(w, r) && r.sessionID != "" && ConnectedSSH(w.tabs, r.sessionID)
  }

  /** The saved call has everything approval looks at except, perhaps, the session. */
  predicate WriteIsReady(w: World, r: CommandRequest) {
    && Holds(w.ai, r.id) && w.ai.pendingCall.value.toolName == SFTP_WRITE
    && var arguments := w.ai.pendingCall.value.arguments;
    && Decode(arguments, WRITE_SCHEMA).Some?
    && Trim(Field(arguments.fields, "path")) != ""
    && Utf8Length(Field(arguments.fields, "content")) <= MAX_SFTP_WRITE
    && FindTab(w.tabs, r.sessionID).Some? && StrictlyConnected(FindTab(w.tabs, r.sessionID).value)
  }

  /** Approving this request reaches a host once its consumption is saved: a command that may run, or a write that names its session. */
  ghost predicate Carries(w: World, r: CommandRequest, id: string) {
    && r.id == id && (Holds(w.ai, id) ==> Matches(w.ai.pendingCall.value, r))
    && if r.toolID == SFTP_WRITE then WriteIsReady(w, r) && Trim(Field(w.ai.pendingCall.value.arguments.fields, "sessionId")) == r.sessionID
       else RunsAs(w, r, id)
  }

  /** The approval reaches a host and leaves a record. */
  ghost predicate RunsRecorded(env: Environment, w: World, action: ServiceCall, id: string) {
    && Approves(action, id) && id != "" && env.succeeds(w.draws)
    && exists i :: 0 <= i < |Listed(w)| && Carries(w, Listed(w)[i], id)
  }

  /** Past the policy's deny, an approved command's result goes unsaved exactly when it has no continuation and the store cannot be written. */
  lemma ResultNotSavedExactly(env: Environment, w: World, policy: Policy, i: nat, mode: Mode)
    requires i < |policy.pending|
    requires Decide(policy, policy.pending[i].toolID, policy.pending[i].sessionID, policy.pending[i].command) != Decision.Deny
    ensures ApproveCommand(env, w, policy, i, mode).1 == Error(ResultNotSaved)
            <==> !Holds(w.ai, policy.pending[i].id) && !env.succeeds(w.draws)
  {
    hide Resume, Execute, Decide, PolicyAfterApproval, Report, DeniedNote;
    var r := policy.pending[i];
    if Holds(w.ai, r.id) {
      var w1 := Save(env, w, w.ai.(policy := PolicyAfterApproval(policy, i, mode), pendingCall := None)).0;
      var (w2, execution) := Execute(env, w1, r.sessionID, r.command, Approved(r.id));
      ResumeSavesResult(env, w2, w.ai.pendingCall.value, Ran(r.sessionID, r.command, execution));
    } else {
      ExecuteKeepsDraws(env, w, r);
    }
  }

  lemma ExecuteKeepsDraws(env: Environment, w: World, r: CommandRequest)
    ensures var w' := Execute(env, w, r.sessionID, r.command, Approved(r.id)).0;
            w'.draws == w.draws && w' == w.(effects := w'.effects)
  {
    hide Trim, ConnectedSSH;
  }

  /** An approval without a continuation and without a writable store changes the log of effects and nothing else that is kept. */
  lemma UnsavedApproval(env: Environment, w: World, action: ServiceCall, id: string)
    requires Approves(action, id) && !Holds(w.ai, id) && !env.succeeds(w.draws)
    ensures var w' := Step(env, w, action).0;
            w' == w.(draws := w'.draws, effects := w'.effects)
  {
    hide Normalized, Trim, ToolEnabled, FindTab, Matches, Decide, Execute, PolicyAfterApproval, Without, Report, DeniedNote;
    var policy := Normalized(w.ai.policy);
    var found := FindRequest(policy.pending, id);
    if found.Some? {
      ExecuteKeepsDraws(env, w, policy.pending[found.value]);
    }
  }

  lemma ApprovalNeedsID(env: Environment, w: World, action: ServiceCall)
    requires action.Resolve? && Trim(action.requestID) == ""
    ensures Step(env, w, action).0 == w
  {
    hide Trim;
  }

  /** What a use tells about the state it found. */
  lemma UseTells(env: Environment, w: World, action: ServiceCall, id: string)
    requires Uses(Step(env, w, action).0.effects, id) > Uses(w.effects, id)
    ensures Approves(action, id) && Live(w, id)
    ensures Holds(w.ai, id) || env.succeeds(w.draws) || RunsUnsaved(env, w, action, id)
  {
    hide Step, Allowed, Listed, Decide, Trim, ToolEnabled, ConnectedSSH, FindTab, StrictlyConnected, Matches, Utf8Length, Field, Live;
    StepUses(env, w, action, id);
    StepJustified(env, w, action);
    var w' := Step(env, w, action).0;
    if forall k :: |w.effects| <= k < |w'.effects| ==> !Names(w'.effects[k], id) {
      UsesExtended(w.effects, w'.effects, id);
    } else {
      var k :| |w.effects| <= k < |w'.effects| && Names(w'.effects[k], id);
      var r :| r in Listed(w) && r.id == Trim(action.requestID) && ApprovedAs(w, r, w'.effects[k]);
      if id == "" {
        ApprovalNeedsID(env, w, action);
      }
      if !Holds(w.ai, id) {
        var i :| 0 <= i < |Listed(w)| && Listed(w)[i] == r;
        assert RunsAs(w, Listed(w)[i], id);
      }
    }
  }

  /** A call that uses an identifier retires it if and only if the request was held or its result could be saved; otherwise it stays approvable. */
  lemma UseRetires(env: Environment, w: World, action: ServiceCall, id: string)
    requires Structure(w) && Uses(Step(env, w, action).0.effects, id) > Uses(w.effects, id)
    ensures var w' := Step(env, w, action).0;
            && Approves(action, id)
            && (Retired(w', id) <==> Holds(w.ai, id) || env.succeeds(w.draws))
            && (Live(w', id) <==> RunsUnsaved(env, w, action, id))
  {
    hide Structure, Live, Issued, ResolveRequest, SendChat, RunAgent, Trim, RunsUnsaved;
    UseTells(env, w, action, id);
    ResolveConsumes(env, w, action.requestID, action.mode);
    if !Holds(w.ai, id) && !env.succeeds(w.draws) {
      UnsavedApproval(env, w, action, id);
      SameRequestsAreLive(w, Step(env, w, action).0, id);
    } else {
      RunsUnsavedTells(env, w, action, id);
    }
  }

  lemma RunsUnsavedTells(env: Environment, w: World, action: ServiceCall, id: string)
    ensures RunsUnsaved(env, w, action, id) ==> !Holds(w.ai, id) && !env.succeeds(w.draws)
  {
    hide Listed, RunsAs;
  }

  lemma SameRequestsAreLive(w: World, w': World, id: string)
    requires w'.ai == w.ai && Live(w, id)
    ensures Live(w', id)
  {
    ListedOfPolicy(w, w');
    hide Listed;
  }

  lemma UnsavedRunIsUse(env: Environment, w: World, action: ServiceCall, id: string)
    requires Structure(w) && RunsUnsaved(env, w, action, id)
    ensures Uses(Step(env, w, action).0.effects, id) == Uses(w.effects, id) + 1
  {
    hide Listed, MayRun, ConnectedSSH, ResolveRequest, Trim, Issued;
    var i :| 0 <= i < |Listed(w)| && RunsAs(w, Listed(w)[i], id);
    UnsavedApprovalRunsAgain(env, w, i, action.mode);
    ListedRequestIsClean(w, Listed(w)[i]);
    ResolvedByTrimmed(env, w, action.requestID, id, action.mode);
    UsesExtended(w.effects, Step(env, w, action).0.effects, id);
  }

  lemma ResolvedByTrimmed(env: Environment, w: World, requestID: string, id: string, mode: Mode)
    requires Trim(requestID) == id && Trim(id) == id
    ensures ResolveRequest(env, w, requestID, mode) == ResolveRequest(env, w, id, mode)
  {
    hide Trim, RejectRequest, ApproveRequest, Normalized;
  }

  /** How many calls of the run executed the request's command without recording it. */
  ghost function UnsavedRuns(env: Environment, w: World, calls: seq<ServiceCall>, id: string): nat
    decreases |calls|
  {
    if calls == [] then 0
    else (if RunsUnsaved(env, w, calls[0], id) then 1 else 0) + UnsavedRuns(env, Step(env, w, calls[0]).0, calls[1..], id)
  }

  // ------------------------------------------------------ exactly how often

  /** A first new effect that needed approval is a use of the identifier approved. */
  lemma ApprovedEffectIsUse(env: Environment, w: World, action: ServiceCall, id: string)
    requires Approves(action, id) && |Step(env, w, action).0.effects| > |w.effects|
    requires !AutomaticRun(Step(env, w, action).0.effects[|w.effects|])
    ensures Uses(Step(env, w, action).0.effects, id) == Uses(w.effects, id) + 1
  {
    hide Step, Allowed, Listed, Decide, Trim, ToolEnabled, ConnectedSSH, FindTab, StrictlyConnected, Matches, Utf8Length, Field;
    StepJustified(env, w, action);
    var w' := Step(env, w, action).0;
    forall k | |w.effects| < k < |w'.effects| ensures !Names(w'.effects[k], id) {
    }
    UsesExtended(w.effects, w'.effects, id);
  }

  /** Resuming keeps what has reached a host. */
  lemma ResumeKeepsEffects(env: Environment, w: World, pending: PendingCall, result: ToolResult)
    ensures w.effects <= Resume(env, w, pending, result).0.effects
  {
    hide Resume, Normalized, Allowed, DecidesAlike, Quiet, Raised;
    ResumeProgress(env, w, pending, result);
  }

  lemma ExecuteRuns(env: Environment, w: World, w1: World, r: CommandRequest, id: string)
    requires RunsAs(w, r, id) && w1.tabs == w.tabs && w1.effects == w.effects
    ensures Execute(env, w1, r.sessionID, r.command, Approved(r.id)).0.effects == w.effects + [RanCommand(r.sessionID, r.command, Approved(id))]
  {
    hide Listed, Decide, Trim, ToolEnabled, ConnectedSSH, FindTab;
    ListedRequestIsClean(w, r);
  }

  /** The shape of a log whose first new entry is an approved command. */
  ghost predicate StartsApproved(w: World, w': World) {
    w.effects <= w'.effects && |w'.effects| > |w.effects| && !AutomaticRun(w'.effects[|w.effects|])
  }

  lemma RecordedCommandRuns(env: Environment, w: World, policy: Policy, i: nat, mode: Mode)
    requires policy == Normalized(w.ai.policy) && i < |policy.pending| && env.succeeds(w.draws)
    requires RunsAs(w, policy.pending[i], policy.pending[i].id)
    ensures StartsApproved(w, ApproveCommand(env, w, policy, i, mode).0)
  {
    hide Resume, Normalized, Listed, Execute, PolicyAfterApproval, Decide, Report, ToolEnabled, FindTab, ConnectedSSH, DeniedNote;
    var r := policy.pending[i];
    DecideNormalizedRequest(w, r);
    var w1 := Save(env, w, w.ai.(policy := PolicyAfterApproval(policy, i, mode), pendingCall := None)).0;
    ExecuteRuns(env, w, w1, r, r.id);
    ExecuteRuns(env, w, w, r, r.id);
    var (w2, execution) := Execute(env, w1, r.sessionID, r.command, Approved(r.id));
    if Holds(w.ai, r.id) {
      ResumeKeepsEffects(env, w2, w.ai.pendingCall.value, Ran(r.sessionID, r.command, execution));
    }
  }

  /** A write that went through found everything ready and its session named. */
  lemma WriteTells(env: Environment, w: World, r: CommandRequest)
    ensures ApproveWrite(env, w, r).0.effects != w.effects ==>
              && WriteIsReady(w, r) && env.succeeds(w.draws)
              && Trim(Field(w.ai.pendingCall.value.arguments.fields, "sessionId")) == r.sessionID
  {
    hide Resume, Trim, Utf8Length, FindTab, StrictlyConnected, Field;
  }

  /** What approving reaches, past the checks: the branch for writes or the one for commands. */
  lemma ApprovalOf(env: Environment, w: World, i: nat, action: ServiceCall, id: string)
    requires Structure(w) && Approves(action, id) && id != "" && i < |Listed(w)| && Listed(w)[i].id == id
    ensures Normalized(w.ai.policy).pending == Listed(w)
    ensures Step(env, w, action) == ApproveRequest(env, w, Normalized(w.ai.policy), i, action.mode)
  {
    hide Listed, Normalized, Trim, ApproveRequest, Issued;
    PendingIsListed(w);
    var found := FindRequest(Listed(w), id);
  }

  lemma RecordedRunIsUse(env: Environment, w: World, action: ServiceCall, id: string)
    requires Structure(w) && RunsRecorded(env, w, action, id)
    ensures Uses(Step(env, w, action).0.effects, id) == Uses(w.effects, id) + 1
  {
    hide Structure, Listed, Normalized, Trim, Decide, ToolEnabled, ConnectedSSH, FindTab, StrictlyConnected, Matches, Utf8Length, Field, ApproveWrite, ApproveCommand, Step;
    var i :| 0 <= i < |Listed(w)| && Carries(w, Listed(w)[i], id);
    var r := Listed(w)[i];
    ApprovalOf(env, w, i, action, id);
    ToolsOfNormalized(w, r.toolID);
    if r.toolID == SFTP_WRITE {
      WriteNeedsNamedSession(env, w, r);
    } else {
      RecordedCommandRuns(env, w, Normalized(w.ai.policy), i, action.mode);
    }
    ApprovedEffectIsUse(env, w, action, id);
  }

  /** With a continuation, nothing runs unless its consumption could be saved first and it matches the request. */
  lemma HeldNeedsRecord(env: Environment, w: World, i: nat, action: ServiceCall, id: string)
    requires Structure(w) && Approves(action, id) && id != "" && i < |Listed(w)| && Listed(w)[i].id == id && Holds(w.ai, id)
    ensures Step(env, w, action).0.effects != w.effects ==> env.succeeds(w.draws) && Matches(w.ai.pendingCall.value, Listed(w)[i])
  {
    hide Structure, Listed, Normalized, Trim, Step, Decide, ToolEnabled, FindTab, Matches, Execute, Resume, PolicyAfterApproval, Without, Utf8Length, Field, StrictlyConnected, DeniedNote;
    ApprovalOf(env, w, i, action, id);
  }

  /** A call uses an identifier exactly when it approves it and the request runs, recorded or not. */
  lemma UsesExactly(env: Environment, w: World, action: ServiceCall, id: string)
    requires Structure(w)
    ensures Uses(Step(env, w, action).0.effects, id)
            == Uses(w.effects, id) + (if RunsUnsaved(env, w, action, id) || RunsRecorded(env, w, action, id) then 1 else 0)
  {
    hide Structure, Step, Listed, Trim, RunsUnsaved, RunsRecorded, RunsAs, Carries, Live;
    StepUses(env, w, action, id);
    if RunsUnsaved(env, w, action, id) {
      UnsavedRunIsUse(env, w, action, id);
    } else if RunsRecorded(env, w, action, id) {
      RecordedRunIsUse(env, w, action, id);
    } else if Uses(Step(env, w, action).0.effects, id) > Uses(w.effects, id) {
      UseTells(env, w, action, id);
      UseIsRecorded(env, w, action, id);
    }
  }

  lemma UseIsRecorded(env: Environment, w: World, action: ServiceCall, id: string)
    requires Structure(w) && Uses(Step(env, w, action).0.effects, id) > Uses(w.effects, id) && Approves(action, id)
    requires Holds(w.ai, id) || env.succeeds(w.draws)
    ensures RunsRecorded(env, w, action, id)
  {
    hide Structure, Step, Allowed, Listed, Normalized, Decide, Trim, ToolEnabled, ConnectedSSH, FindTab, StrictlyConnected, Matches, Utf8Length, Field, ApproveWrite, ApproveCommand;
    StepJustified(env, w, action);
    var w' := Step(env, w, action).0;
    if forall k :: |w.effects| <= k < |w'.effects| ==> !Names(w'.effects[k], id) {
      UsesExtended(w.effects, w'.effects, id);
    } else {
      var k :| |w.effects| <= k < |w'.effects| && Names(w'.effects[k], id);
      var r :| r in Listed(w) && r.id == Trim(action.requestID) && ApprovedAs(w, r, w'.effects[k]);
      if id == "" {
        ApprovalNeedsID(env, w, action);
      }
      var i :| 0 <= i < |Listed(w)| && Listed(w)[i] == r;
      ApprovalOf(env, w, i, action, id);
      if Holds(w.ai, id) {
        HeldNeedsRecord(env, w, i, action, id);
      }
      WriteTells(env, w, r);
      assert Carries(w, Listed(w)[i], id);
    }
  }

  /** Some call of the run executed the request and recorded it. */
  ghost predicate RecordedIn(env: Environment, w: World, calls: seq<ServiceCall>, id: string)
    decreases |calls|
  {
    calls != [] && (RunsRecorded(env, w, calls[0], id) || RecordedIn(env, Step(env, w, calls[0]).0, calls[1..], id))
  }

  /**
   Over any run, whatever fails, a request is used exactly once for each unsaved
   execution and once more if some call executed and recorded it.
   */
  lemma {:induction false} UsesOfARun(env: Environment, w: World, calls: seq<ServiceCall>, id: string)
    requires Structure(w) && AdmissibleRun(env, w, calls)
    ensures Uses(Run(env, w, calls).effects, id)
            == Uses(w.effects, id) + UnsavedRuns(env, w, calls, id) + (if RecordedIn(env, w, calls, id) then 1 else 0)
    decreases |calls|
  {
    hide Structure, Retired, Live, RunsUnsaved, RunsRecorded, Step, Admissible, Trim;
    if calls != [] {
      var w1 := Step(env, w, calls[0]).0;
      StepKeeps(env, w, calls[0], id);
      UsesExactly(env, w, calls[0], id);
      UsesOfARun(env, w1, calls[1..], id);
      if RunsRecorded(env, w, calls[0], id) {
        RecordedIsNotUnsaved(env, w, calls[0], id);
        UseRetires(env, w, calls[0], id);
        RetiredNeverRuns(env, w1, calls[1..], id);
      }
    }
  }

  lemma RecordedIsNotUnsaved(env: Environment, w: World, action: ServiceCall, id: string)
    requires RunsRecorded(env, w, action, id)
    ensures env.succeeds(w.draws) && !RunsUnsaved(env, w, action, id)
  {
    hide Listed, Carries, RunsAs;
  }

  /** Over any run a request reaches a host at most once if and only if it ran unrecorded never, or once and never recorded. */
  lemma AtMostOnePerRequest(env: Environment, w: World, calls: seq<ServiceCall>, id: string)
    requires Structure(w) && AdmissibleRun(env, w, calls) && Uses(w.effects, id) == 0
    ensures Uses(Run(env, w, calls).effects, id) <= 1
            <==> UnsavedRuns(env, w, calls, id) == 0 || (UnsavedRuns(env, w, calls, id) == 1 && !RecordedIn(env, w, calls, id))
  {
    hide Structure, AdmissibleRun, UnsavedRuns, RecordedIn, Run;
    UsesOfARun(env, w, calls, id);
  }

  /** Each approval of the identifier finds the continuation that holds it. */
  ghost predicate HeldWhenApproved(env: Environment, w: World, calls: seq<ServiceCall>, id: string)
    decreases |calls|
  {
    calls == [] ||
    ((Approves(calls[0], id) ==> Holds(w.ai, id)) && HeldWhenApproved(env, Step(env, w, calls[0]).0, calls[1..], id))
  }

  /** A request approved with its continuation runs at most once, whatever fails. */
  lemma {:induction false} AtMostOnceWhileHeld(env: Environment, w: World, calls: seq<ServiceCall>, id: string)
    requires Structure(w) && AdmissibleRun(env, w, calls) && HeldWhenApproved(env, w, calls, id)
    ensures UnsavedRuns(env, w, calls, id) == 0
    ensures Uses(w.effects, id) <= Uses(Run(env, w, calls).effects, id) <= Uses(w.effects, id) + 1
    decreases |calls|
  {
    hide Structure, Step, Admissible, Trim, Grants, Listed, RunsAs;
    UsesOfARun(env, w, calls, id);
    if calls != [] {
      StepKeeps(env, w, calls[0], id);
      AtMostOnceWhileHeld(env, Step(env, w, calls[0]).0, calls[1..], id);
    }
  }

  /** Once a held request has run, or been refused after its consumption was saved, nothing runs for it again. */
  lemma HeldApprovalIsFinal(env: Environment, w: World, action: ServiceCall, id: string, later: seq<ServiceCall>)
    requires Structure(w) && Holds(w.ai, id) && Step(env, w, action).0.effects != w.effects && Approves(action, id)
    requires AdmissibleRun(env, Step(env, w, action).0, later)
    ensures var w1 := Step(env, w, action).0;
            Uses(Run(env, w1, later).effects, id) == Uses(w1.effects, id)
  {
    hide Structure, Retired, Run, ResolveRequest, Trim, AdmissibleRun, Moves;
    ResolveConsumes(env, w, action.requestID, action.mode);
    RetiredNeverRuns(env, Step(env, w, action).0, later, id);
  }

  /** A denial the store took retires its request: over any later run it never reaches a host. */
  lemma DeniedNeverRuns(env: Environment, w: World, requestID: string, later: seq<ServiceCall>)
    requires Structure(w) && IsListed(w, Trim(requestID)) && env.succeeds(w.draws)
    requires AdmissibleRun(env, ResolveRequest(env, w, requestID, Reject).0, later)
    ensures var w1 := ResolveRequest(env, w, requestID, Reject).0;
            Uses(Run(env, w1, later).effects, Trim(requestID)) == Uses(w.effects, Trim(requestID))
  {
    hide Structure, Retired, Live, IsListed, ResolveRequest, Run, Trim, AdmissibleRun;
    ResolveConsumes(env, w, requestID, Reject);
    StepUses(env, w, Resolve(requestID, Reject), Trim(requestID));
    RetiredNeverRuns(env, ResolveRequest(env, w, requestID, Reject).0, later, Trim(requestID));
  }

  /** Without a saved result the approval is still listed: the same call runs the command again. */
  lemma UnsavedApprovalRunsAgain(env: Environment, w: World, i: nat, mode: Mode)
    requires i < |Listed(w)| && DistinctIDs(Listed(w)) && MayRun(w, Listed(w)[i]) && Grants(mode) && Listed(w)[i].id != ""
    requires !Holds(w.ai, Listed(w)[i].id)
    requires Listed(w)[i].sessionID != "" && ConnectedSSH(w.tabs, Listed(w)[i].sessionID)
    requires !env.succeeds(w.draws)
    ensures var (w1, reply) := ResolveRequest(env, w, Listed(w)[i].id, mode);
            && reply == Error(ResultNotSaved)
            && w1 == w.(draws := w.draws + 1, effects := w.effects + [RanCommand(Listed(w)[i].sessionID, Listed(w)[i].command, Approved(Listed(w)[i].id))])
            && MayRun(w1, Listed(w1)[i])
  {
    hide Listed, Trim, Normalized, Decide, ToolEnabled, ConnectedSSH, FindTab, PolicyAfterApproval, Report;
    var r := Listed(w)[i];
    assert r in Listed(w);
    ListedRequestIsClean(w, r);
    PendingIsListed(w);
    ToolsOfNormalized(w, r.toolID);
    DecideNormalizedRequest(w, r);
    var w1 := ResolveRequest(env, w, r.id, mode).0;
    var found := FindRequest(Listed(w), r.id);
    assert found == Some(i);
    ListedOfPolicy(w, w.(draws := w.draws + 1, effects := w.effects + [RanCommand(r.sessionID, r.command, Approved(r.id))]));
  }

  lemma DecideNormalizedRequest(w: World, r: CommandRequest)
    ensures Decide(Normalized(w.ai.policy), r.toolID, r.sessionID, r.command) == Decide(w.ai.policy, r.toolID, r.sessionID, r.command)
  {
    hide Decide, Normalized;
    NormalizedDecidesAlike(w.ai.policy);
  }

  // ----------------------------------------------------------- provenance

  /** Every listed request was raised by a tool call, and a saved write writes the file its request shows. */
  ghost predicate Genuine(w: World) {
    && Structure(w)
    && (forall r :: r in Listed(w) ==> r in w.asked)
    && (forall r :: r in Listed(w) && Holds(w.ai, r.id) && r.toolID == SFTP_WRITE ==> NamesPath(w.ai.pendingCall.value, r))
  }

  /** A service that has raised nothing yet. */
  predicate Unused(w: World) {
    w.ai.policy.pending == [] && w.ai.pendingCall.None? && w.effects == [] && w.asked == []
  }

  lemma UnusedIsGenuine(w: World)
    requires Unused(w)
    ensures Genuine(w)
  {
  }

  lemma ShrinksGenuine(w: World, w': World)
    requires Genuine(w) && Shrinks(w, w')
    ensures Genuine(w') && w'.asked == w.asked
  {
    ShrinksKeeps(w, w', "");
    hide Listed, Structure, NamesPath;
  }

  lemma RaisedGenuine(w: World, w': World)
    requires Genuine(w) && Raised(w, w') && w.clock <= w'.clock
    ensures Genuine(w') && forall r :: r in w.asked ==> r in w'.asked
  {
    RaisedKeeps(w, w', "");
    hide Listed, NamesPath, CleanRequests, RequestID, Matches;
    var r := w'.asked[|w.asked|];
    assert forall q :: q in w.asked ==> q in w'.asked by {
      forall q | q in w.asked ensures q in w'.asked {
        var j :| 0 <= j < |w.asked| && w.asked[j] == q;
        assert w'.asked[..|w.asked|][j] == w'.asked[j];
      }
    }
    assert r in w'.asked;
    forall q | q in Listed(w') && q.id == r.id ensures q == r {
      var j :| 0 <= j < |Listed(w')| && Listed(w')[j] == q;
      assert Listed(w')[|Listed(w)|] == r;
    }
  }

  lemma StepGenuine(env: Environment, w: World, action: ServiceCall)
    requires Genuine(w) && Admissible(w, action)
    ensures Genuine(Step(env, w, action).0) && forall r :: r in w.asked ==> r in Step(env, w, action).0.asked
  {
    StepMoves(env, w, action);
    hide Genuine, Shrinks, Step, Normalized, Admissible, Raised, Structure, Forward;
    var w' := Step(env, w, action).0;
    var mid :| Shrinks(w, mid) && Progress(mid, w', Normalized(mid.ai.policy));
    ShrinksGenuine(w, mid);
    ClockForward(mid, w', Normalized(mid.ai.policy));
    if Quiet(mid, w') {
      QuietShrinks(mid, w');
      ShrinksGenuine(mid, w');
    } else {
      RaisedGenuine(mid, w');
    }
  }

  /** The effect is exactly what the raised request showed: its session and its command, or its file. */
  predicate ShowsEffect(r: CommandRequest, e: Effect) {
    && Names(e, r.id) && e.sessionID == r.sessionID
    && match e
       case RanCommand(_, command, _) => command == r.command && r.toolID != SFTP_WRITE
       case WroteFile(_, path, _, _) => path == r.command && r.toolID == SFTP_WRITE
       case LookedAt(_, _, _) => false
  }

  function ApprovedIDs(calls: seq<ServiceCall>): set<string> {
    set i | 0 <= i < |calls| && calls[i].Resolve? && Grants(calls[i].mode) :: Trim(calls[i].requestID)
  }

  ghost predicate Authorized(asked: seq<CommandRequest>, approved: set<string>, e: Effect) {
    AutomaticRun(e) || exists r :: r in asked && r.id in approved && ShowsEffect(r, e)
  }

  lemma StepAuthorized(env: Environment, w: World, action: ServiceCall, k: nat)
    requires Genuine(w) && |w.effects| <= k < |Step(env, w, action).0.effects|
    ensures Authorized(w.asked, ApprovedIDs([action]), Step(env, w, action).0.effects[k])
  {
    hide Step, Allowed, Listed, Decide, Trim, ToolEnabled, ConnectedSSH, FindTab, StrictlyConnected, Matches, Utf8Length, Field, Structure;
    var w' := Step(env, w, action).0;
    var e := w'.effects[k];
    StepJustified(env, w, action);
    if !AutomaticRun(e) {
      var r :| r in Listed(w) && r.id == Trim(action.requestID) && ApprovedAs(w, r, e);
      assert [action][0] == action;
      assert r.id in ApprovedIDs([action]);
      assert ShowsEffect(r, e);
    }
  }

  lemma AuthorizedMore(asked: seq<CommandRequest>, approved: set<string>, asked': seq<CommandRequest>, approved': set<string>, e: Effect)
    requires Authorized(asked, approved, e) && approved <= approved' && forall r :: r in asked ==> r in asked'
    ensures Authorized(asked', approved', e)
  {
  }

  /** Over any run, each effect ran automatically or is what a raised request showed and the user approved. */
  lemma {:induction false} EveryEffectIsAuthorized(env: Environment, w: World, calls: seq<ServiceCall>)
    requires Genuine(w) && AdmissibleRun(env, w, calls)
    ensures var w' := Run(env, w, calls);
            && w.effects <= w'.effects
            && (forall r :: r in w.asked ==> r in w'.asked)
            && forall k :: |w.effects| <= k < |w'.effects| ==> Authorized(w'.asked, ApprovedIDs(calls), w'.effects[k])
    decreases |calls|
  {
    hide Genuine, Step, Admissible, Authorized, Justified;
    if calls != [] {
      var w1 := Step(env, w, calls[0]).0;
      StepGenuine(env, w, calls[0]);
      EffectsGrow(env, w, calls[0]);
      EveryEffectIsAuthorized(env, w1, calls[1..]);
      var w' := Run(env, w, calls);
      ApprovedSplit(calls);
      forall k | |w.effects| <= k < |w'.effects| ensures Authorized(w'.asked, ApprovedIDs(calls), w'.effects[k]) {
        if k < |w1.effects| {
          StepAuthorized(env, w, calls[0], k);
          AuthorizedMore(w.asked, ApprovedIDs([calls[0]]), w'.asked, ApprovedIDs(calls), w1.effects[k]);
        } else {
          AuthorizedMore(w'.asked, ApprovedIDs(calls[1..]), w'.asked, ApprovedIDs(calls), w'.effects[k]);
        }
      }
    }
  }

  lemma EffectsGrow(env: Environment, w: World, action: ServiceCall)
    ensures w.effects <= Step(env, w, action).0.effects
  {
    hide Step, Allowed, ApprovedBy;
    StepJustified(env, w, action);
  }

  lemma ApprovedSplit(calls: seq<ServiceCall>)
    requires calls != []
    ensures ApprovedIDs([calls[0]]) <= ApprovedIDs(calls) && ApprovedIDs(calls[1..]) <= ApprovedIDs(calls)
  {
    hide Trim;
    forall id | id in ApprovedIDs(calls[1..]) ensures id in ApprovedIDs(calls) {
      var i :| 0 <= i < |calls[1..]| && calls[1..][i].Resolve? && Grants(calls[1..][i].mode) && Trim(calls[1..][i].requestID) == id;
      assert calls[i + 1] == calls[1..][i];
    }
  }

  /**
   From a service that has raised nothing, over any run: every effect ran
   automatically or is exactly what a request raised in this run showed and the
   user approved, and a request has one effect for each run without a record and one more if it ran with one.
   */
  lemma EveryRunFromTheStart(env: Environment, w: World, calls: seq<ServiceCall>, id: string)
    requires Unused(w) && AdmissibleRun(env, w, calls)
    ensures var w' := Run(env, w, calls);
            && (forall k :: 0 <= k < |w'.effects| ==> Authorized(w'.asked, ApprovedIDs(calls), w'.effects[k]))
            && Uses(w'.effects, id) == UnsavedRuns(env, w, calls, id) + (if RecordedIn(env, w, calls, id) then 1 else 0)
  {
    hide Run, Authorized, AdmissibleRun, UnsavedRuns, RecordedIn, Structure;
    UnusedIsGenuine(w);
    EveryEffectIsAuthorized(env, w, calls);
    UsesOfARun(env, w, calls, id);
  }

  // ------------------------------------- writes that name no session

  /**
   An approved write reaches SFTP if and only if the call itself named the session.  Dispatch fills in the active
   session when the call omits it and raises the request, but approval reads the call's own arguments: then the
   continuation is consumed and nothing is written.
   */
  lemma WriteNeedsNamedSession(env: Environment, w: World, r: CommandRequest)
    requires WriteIsReady(w, r) && env.succeeds(w.draws)
    ensures var named := Trim(Field(w.ai.pendingCall.value.arguments.fields, "sessionId")) == r.sessionID;
            var (w', reply) := ApproveWrite(env, w, r);
            && (named <==> |w'.effects| > |w.effects| && w'.effects[|w.effects|].WroteFile?)
            && (!named ==> reply == Error(BadWriteArguments) && w' == w.(ai := w.ai.(pendingCall := None), draws := w.draws + 1))
  {
    hide Resume, Trim, Utf8Length, FindTab, StrictlyConnected, Field, Progress, Allowed, Normalized, DecidesAlike;
    var pending := w.ai.pendingCall.value;
    var fields := pending.arguments.fields;
    var session, path, content := Trim(Field(fields, "sessionId")), Trim(Field(fields, "path")), Field(fields, "content");
    var w1 := Save(env, w, w.ai.(pendingCall := None)).0;
    if session == r.sessionID {
      var w2 := w1.(effects := w1.effects + [WroteFile(session, path, content, r.id)], draws := w1.draws + 1);
      var result := Wrote(session, path, env.succeeds(w1.draws));
      ResumeProgress(env, w2, pending, result);
      StartAlike(w2);
      ProgressAllowed(w2, Resume(env, w2, pending, result).0, Normalized(w2.ai.policy));
      assert ApproveWrite(env, w, r) == Resume(env, w2, pending, result);
    }
  }
}
