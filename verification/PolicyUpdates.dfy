/**
 What the service keeps after the user replaces the policy, clears the chat or
 resolves a request: the policy just set governs what follows, and a request
 leaves the list exactly when its resolution took it out and could be saved.
 */
module PolicyUpdates {
  import opened Text
  import opened CommandPolicy
  import opened PolicyTheorems
  import opened ToolCalling
  import opened LoopFacts
  import opened RunSafety
  import opened AtMostOnce

  // ------------------------------------------------------- listed requests

  lemma {:induction false} RequestsOfSum(a: seq<CommandRequest>, b: seq<CommandRequest>)
    ensures NormalizedRequests(a + b) == NormalizedRequests(a) + NormalizedRequests(b)
  {
    hide UsableRequest, CleanRequest;
    if b == [] {
      assert a + b == a;
    } else {
      var n := |b| - 1;
      RequestsOfSum(a, b[..n]);
      assert (a + b)[..|a + b| - 1] == a + b[..n];
    }
  }

  /** One request is listed, every field cleaned, unless its command or its tool is blank. */
  lemma RequestsOfOne(q: CommandRequest)
    ensures NormalizedRequests([q]) ==
            if Trim(q.command) == "" || Key(q.toolID) == "" then []
            else [CommandRequest(Trim(q.id), Key(q.toolID), Trim(q.sessionID), Trim(q.command), Trim(q.reason), Trim(q.requestedAt))]
  {
    hide Trim, Key;
    assert [q][..0] == [];
  }

  // -------------------------------------------------------- a policy is set

  /** Setting a policy succeeds exactly when the store can be written; then it is what the service decides by, enables and lists, and otherwise nothing has changed. */
  lemma PolicyIsStored(env: Environment, w: World, policy: Policy, toolID: string)
    ensures var (w', reply) := ReplacePolicy(env, w, policy);
            && (reply == Done <==> env.succeeds(w.draws))
            && (reply == Done ==>
                  && DecidesAlike(policy, w'.ai.policy)
                  && ToolEnabled(w'.ai.policy.tools, toolID) == ToolEnabled(policy.tools, toolID)
                  && Listed(w') == NormalizedRequests(policy.pending)
                  && w'.ai == w.ai.(policy := w'.ai.policy))
            && (reply != Done ==> w'.ai == w.ai)
            && w'.effects == w.effects && w'.tabs == w.tabs
  {
    hide Decide, NormalizedTools, ToolEnabled, DecidesAlike, NormalizedRequests, Trim;
    NormalizedDecidesAlike(policy);
    NormalizingKeepsEnabledTools(policy.tools, toolID);
    NormalizedRequestsIdempotent(policy.pending);
  }

  /** Calls that leave the policy alone and resolve nothing. */
  predicate LeavesPolicy(action: ServiceCall) {
    action.Send? || action.AgentRun? || action.ClearChat? || action.Lock? || action.ChangeTabs?
  }

  lemma LeavesPolicyAlike(env: Environment, w: World, action: ServiceCall)
    requires LeavesPolicy(action)
    ensures DecidesAlike(w.ai.policy, Step(env, w, action).0.ai.policy)
  {
    hide Decide, SendChat, RunAgent, Normalized, DecidesAlike, Quiet, Raised, OnlyAllowed, NormalizedRules;
    SameRulesDecideAlike(w.ai.policy, w.ai.policy);
    match action
    case Send(message, sessionID) => SendChatProgress(env, w, message, sessionID);
    case AgentRun(sessionID, input) => RunAgentProgress(env, w, sessionID, input);
    case ClearChat => ListingKeepsDecisions(w.ai.policy, []);
    case Lock => SameRulesDecideAlike(w.ai.policy, w.ai.policy.(pending := []));
    case ChangeTabs(tabs) =>
  }

  /** What the policy itself says of an effect that nobody approved. */
  ghost predicate Obeys(policy: Policy, e: Effect) {
    match e
    case RanCommand(sessionID, command, route) => route == Automatic && Decide(policy, SHELL, sessionID, command) == Decision.Allow
    case LookedAt(_, _, _) => ToolEnabled(policy.tools, SFTP)
    case WroteFile(_, _, _, _) => false
  }

  lemma StepObeys(env: Environment, w: World, policy: Policy, action: ServiceCall)
    requires DecidesAlike(policy, w.ai.policy) && LeavesPolicy(action)
    ensures var w' := Step(env, w, action).0;
            && w.effects <= w'.effects && forall k :: |w.effects| <= k < |w'.effects| ==> Obeys(policy, w'.effects[k])
  {
    hide Step, Decide, DecidesAlike, ToolEnabled, ConnectedSSH, FindTab, StrictlyConnected, ContainsUnsafeShellSyntax, ApprovedBy;
    StepJustified(env, w, action);
    var w' := Step(env, w, action).0;
    forall k | |w.effects| <= k < |w'.effects| ensures Obeys(policy, w'.effects[k]) {
      AlikeTells(policy, w.ai.policy, w'.effects[k]);
      assert AutomaticRun(w'.effects[k]) by { OnlyResolvingApproves(w, action, w'.effects[k]); }
    }
  }

  lemma AlikeTells(p: Policy, q: Policy, e: Effect)
    requires DecidesAlike(p, q)
    ensures Obeys(q, e) ==> Obeys(p, e)
  {
    hide Decide, ToolEnabled;
  }

  lemma OnlyResolvingApproves(w: World, action: ServiceCall, e: Effect)
    ensures ApprovedBy(w, action, e) ==> action.Resolve?
  {
    hide ApprovedAs, Listed, Trim;
  }

  /** As long as nothing is resolved and no other policy is set, every effect of a run is allowed by the policy in force at its start. */
  lemma {:induction false} PolicyGoverns(env: Environment, w: World, policy: Policy, calls: seq<ServiceCall>)
    requires DecidesAlike(policy, w.ai.policy) && forall i :: 0 <= i < |calls| ==> LeavesPolicy(calls[i])
    ensures var w' := Run(env, w, calls);
            && w.effects <= w'.effects && DecidesAlike(policy, w'.ai.policy)
            && forall k :: |w.effects| <= k < |w'.effects| ==> Obeys(policy, w'.effects[k])
    decreases |calls|
  {
    hide Step, DecidesAlike, Obeys;
    if calls != [] {
      var w1 := Step(env, w, calls[0]).0;
      assert LeavesPolicy(calls[0]);
      StepObeys(env, w, policy, calls[0]);
      LeavesPolicyAlike(env, w, calls[0]);
      AlikeIsTransitive(policy, w.ai.policy, w1.ai.policy);
      PolicyGoverns(env, w1, policy, calls[1..]);
    }
  }

  /** So once the user has set a policy, whatever the service then does by itself is what that very policy allows. */
  lemma SetPolicyGoverns(env: Environment, w: World, policy: Policy, calls: seq<ServiceCall>)
    requires Step(env, w, SetPolicy(policy)).1 == Done && forall i :: 0 <= i < |calls| ==> LeavesPolicy(calls[i])
    ensures var w1 := Step(env, w, SetPolicy(policy)).0;
            var w' := Run(env, w1, calls);
            w1.effects == w.effects <= w'.effects && forall k :: |w.effects| <= k < |w'.effects| ==> Obeys(policy, w'.effects[k])
  {
    hide Run, Obeys, DecidesAlike, ReplacePolicy;
    PolicyIsStored(env, w, policy, SHELL);
    PolicyGoverns(env, ReplacePolicy(env, w, policy).0, policy, calls);
  }

  /** And no approval carries out a command that the policy just set denies, or whose tool it disables. */
  lemma SetPolicyBindsApprovals(env: Environment, w: World, policy: Policy, requestID: string, mode: Mode, k: nat)
    requires Step(env, w, SetPolicy(policy)).1 == Done
    requires var w1 := Step(env, w, SetPolicy(policy)).0;
             var w' := Step(env, w1, Resolve(requestID, mode)).0;
             |w1.effects| <= k < |w'.effects| && w'.effects[k].RanCommand? && !AutomaticRun(w'.effects[k])
    ensures var w1 := Step(env, w, SetPolicy(policy)).0;
            var e := Step(env, w1, Resolve(requestID, mode)).0.effects[k];
            exists r :: r in NormalizedRequests(policy.pending) && e == RanCommand(r.sessionID, r.command, Approved(r.id))
                        && Decide(policy, r.toolID, r.sessionID, r.command) != Decision.Deny && ToolEnabled(policy.tools, r.toolID)
  {
    var w1 := Step(env, w, SetPolicy(policy)).0;
    PolicyIsStored(env, w, policy, SHELL);
    StepJustified(env, w1, Resolve(requestID, mode));
    hide ResolveRequest, Decide, ToolEnabled, ReplacePolicy, Listed, NormalizedRequests, Allowed, FindTab, ConnectedSSH, Trim;
    var e := Step(env, w1, Resolve(requestID, mode)).0.effects[k];
    var r :| r in Listed(w1) && r.id == Trim(requestID) && ApprovedAs(w1, r, e);
    PolicyIsStored(env, w, policy, r.toolID);
  }

  // ------------------------------------------------------ the chat is cleared

  /** Clearing succeeds exactly when the store can be written; then conversation, requests and continuation are gone, and providers, tools and decisions stay. */
  lemma ClearTells(env: Environment, w: World, toolID: string)
    ensures var (w', reply) := Clear(env, w);
            && (reply == Done <==> env.succeeds(w.draws))
            && (reply == Done ==>
                  && w'.ai.messages == [] && w'.ai.pendingCall.None? && Listed(w') == []
                  && w'.ai.chatSessionID == "chat-" + Decimal(w.clock) && w'.ai.providers == w.ai.providers
                  && DecidesAlike(w.ai.policy, w'.ai.policy)
                  && ToolEnabled(w'.ai.policy.tools, toolID) == ToolEnabled(w.ai.policy.tools, toolID))
            && (reply != Done ==> w'.ai == w.ai)
            && w'.effects == w.effects && w'.sent == w.sent
  {
    hide Decide, NormalizedTools, ToolEnabled, DecidesAlike, Trim, Decimal;
    ListingKeepsDecisions(w.ai.policy, []);
    NormalizingKeepsEnabledTools(w.ai.policy.tools, toolID);
  }

  // -------------------------------------------------- a request leaves the list

  /** Approving the request takes nothing out of the list: its tool is disabled, or its continuation is another's, or it is a write for an open tab. */
  predicate KeptByApproval(w: World, r: CommandRequest) {
    if r.toolID == SFTP_WRITE then FindTab(w.tabs, r.sessionID).Some?
    else !ToolEnabled(w.ai.policy.tools, r.toolID)
         || (FindTab(w.tabs, r.sessionID).Some? && Holds(w.ai, r.id) && !Matches(w.ai.pendingCall.value, r))
  }

  predicate StaysListed(env: Environment, w: World, r: CommandRequest, mode: Mode) {
    !env.succeeds(w.draws) || mode == OtherMode || (Grants(mode) && KeptByApproval(w, r))
  }

  /** The request is still listed exactly if told so, and all others are. */
  ghost predicate Lists(w: World, w': World, r: CommandRequest, stays: bool) {
    && ((exists q :: q in Listed(w') && q.id == r.id) <==> stays)
    && (stays ==> r in Listed(w'))
    && (forall q :: q in Listed(w) && q.id != r.id ==> q in Listed(w'))
  }

  lemma ListsSame(w: World, w': World, r: CommandRequest)
    requires r in Listed(w) && w'.ai.policy.pending == w.ai.policy.pending
    ensures Lists(w, w', r, true)
  {
    ListedOfPolicy(w, w');
    hide Listed;
  }

  lemma ListsWithout(w: World, w': World, i: nat)
    requires i < |Listed(w)| && DistinctIDs(Listed(w)) && w'.ai.policy.pending == Without(Listed(w), i)
    ensures Lists(w, w', Listed(w)[i], false)
  {
    ListedWithout(w, w', i);
    hide Listed;
    var r := Listed(w)[i];
    forall q | q in Listed(w') ensures q.id != r.id {
      var j :| 0 <= j < |Listed(w')| && Listed(w')[j] == q;
      assert q == Listed(w)[if j < i then j else j + 1];
    }
    forall q | q in Listed(w) && q.id != r.id ensures q in Listed(w') {
      var j :| 0 <= j < |Listed(w)| && Listed(w)[j] == q;
      assert Listed(w')[if j < i then j else j - 1] == q;
    }
  }

  /** Resuming lists a fresh request at most, and removes none. */
  lemma ListsResumed(env: Environment, w: World, w1: World, pending: PendingCall, result: ToolResult, r: CommandRequest, stays: bool)
    requires Lists(w, w1, r, stays) && Issued(w1, r.id)
    ensures Lists(w, Resume(env, w1, pending, result).0, r, stays)
  {
    hide Listed, Resume, Normalized, CleanRequests, Matches, NamesPath, RequestID, Forward;
    var w' := Resume(env, w1, pending, result).0;
    ResumeProgress(env, w1, pending, result);
    if Raised(w1, w') {
      var raised := w'.asked[|w1.asked|];
      var k :| w1.clock <= k < w'.clock && raised.id == RequestID(k);
      FreshIsNotIssued(w1, k);
      assert forall q :: q in Listed(w') <==> q in Listed(w1) || q == raised;
    }
  }

  lemma ListedIsIssued(w: World, w1: World, i: nat)
    requires Structure(w) && i < |Listed(w)| && w1.clock == w.clock
    ensures Issued(w1, Listed(w)[i].id) && DistinctIDs(Listed(w))
  {
    hide Listed;
    assert Listed(w)[i] in Listed(w);
    IssuedLater(w, w1, Listed(w)[i].id);
  }

  lemma RejectLists(env: Environment, w: World, i: nat)
    requires Structure(w) && i < |Listed(w)|
    ensures Normalized(w.ai.policy).pending == Listed(w)
    ensures Lists(w, RejectRequest(env, w, Normalized(w.ai.policy), i).0, Listed(w)[i], !env.succeeds(w.draws))
  {
    hide Structure, Listed, Normalized, Resume, Lists, Issued, RejectedNote, Without;
    PendingIsListed(w);
    var policy, r := Normalized(w.ai.policy), Listed(w)[i];
    assert r in Listed(w);
    var w1 := Save(env, w, w.ai.(policy := policy.(pending := Without(policy.pending, i)), pendingCall := None)).0;
    ListedIsIssued(w, w1, i);
    var w' := RejectRequest(env, w, policy, i).0;
    if !env.succeeds(w.draws) {
      ListsSame(w, w', r);
    } else if Holds(w.ai, r.id) {
      ListsWithout(w, w1, i);
      ListsResumed(env, w, w1, w.ai.pendingCall.value, ApprovalDenied, r, false);
    } else {
      ListsWithout(w, w', i);
    }
  }

  lemma WriteLists(env: Environment, w: World, i: nat)
    requires Structure(w) && i < |Listed(w)|
    ensures Lists(w, ApproveWrite(env, w, Listed(w)[i]).0, Listed(w)[i], true)
  {
    hide Structure, Listed, Resume, Lists, Issued, Trim, Utf8Length, FindTab, StrictlyConnected, Field;
    var r := Listed(w)[i];
    assert r in Listed(w);
    var w' := ApproveWrite(env, w, r).0;
    var w1 := w.(ai := w.ai.(pendingCall := None), draws := w.draws + 1);
    ListedIsIssued(w, w1, i);
    if w'.ai == w.ai || w' == w1 {
      ListsSame(w, w', r);
    } else {
      var fields := w.ai.pendingCall.value.arguments.fields;
      var session, path, content := Trim(Field(fields, "sessionId")), Trim(Field(fields, "path")), Field(fields, "content");
      var w2 := w1.(effects := w1.effects + [WroteFile(session, path, content, r.id)], draws := w1.draws + 1);
      ListedIsIssued(w, w2, i);
      ListsSame(w, w2, r);
      ListsResumed(env, w, w2, w.ai.pendingCall.value, Wrote(session, path, env.succeeds(w1.draws)), r, true);
    }
  }

  lemma CommandLists(env: Environment, w: World, i: nat, mode: Mode)
    requires Structure(w) && i < |Listed(w)|
    ensures Normalized(w.ai.policy).pending == Listed(w)
    ensures Lists(w, ApproveCommand(env, w, Normalized(w.ai.policy), i, mode).0, Listed(w)[i], !env.succeeds(w.draws))
  {
    hide Structure, Listed, Normalized, Resume, Lists, Issued, Without, Decide, Execute, DeniedNote, Report, NormalizedRules, GrantFor;
    PendingIsListed(w);
    var policy, r := Normalized(w.ai.policy), Listed(w)[i];
    assert r in Listed(w);
    var w' := ApproveCommand(env, w, policy, i, mode).0;
    var w1 := Save(env, w, w.ai.(policy := PolicyAfterApproval(policy, i, mode), pendingCall := None)).0;
    ExecuteKeepsDraws(env, w, r);
    ExecuteKeepsDraws(env, w1, r);
    var (w2, execution) := Execute(env, w1, r.sessionID, r.command, Approved(r.id));
    ListedIsIssued(w, w2, i);
    if !env.succeeds(w.draws) {
      ListsSame(w, w', r);
    } else if Decide(policy, r.toolID, r.sessionID, r.command) == Decision.Deny || !Holds(w.ai, r.id) {
      ListsWithout(w, w', i);
    } else {
      ListsWithout(w, w2, i);
      ListsResumed(env, w, w2, w.ai.pendingCall.value, Ran(r.sessionID, r.command, execution), r, false);
    }
  }

  lemma ApproveLists(env: Environment, w: World, i: nat, mode: Mode)
    requires Structure(w) && i < |Listed(w)| && Grants(mode)
    ensures Normalized(w.ai.policy).pending == Listed(w)
    ensures Lists(w, ApproveRequest(env, w, Normalized(w.ai.policy), i, mode).0, Listed(w)[i], StaysListed(env, w, Listed(w)[i], mode))
  {
    hide Structure, Listed, Normalized, Lists, Without, ToolEnabled, FindTab, ApproveWrite, ApproveCommand, Matches;
    PendingIsListed(w);
    var policy, r := Normalized(w.ai.policy), Listed(w)[i];
    assert r in Listed(w);
    ToolsOfNormalized(w, r.toolID);
    var w' := ApproveRequest(env, w, policy, i, mode).0;
    WriteLists(env, w, i);
    CommandLists(env, w, i, mode);
    if r.toolID != SFTP_WRITE && !ToolEnabled(policy.tools, r.toolID) {
      ListsSame(w, w', r);
    } else if FindTab(w.tabs, r.sessionID).None? {
      ListedIsIssued(w, w, i);
      if env.succeeds(w.draws) {
        ListsWithout(w, w', i);
      } else {
        ListsSame(w, w', r);
      }
    } else if Holds(w.ai, r.id) && !Matches(w.ai.pendingCall.value, r) {
      ListsSame(w, w', r);
    }
  }

  /**
   A resolution takes its request out of the list exactly when it could be saved, its mode
   is known and, for an approval, nothing keeps it there. An approved write for an open tab
   always stays listed, even when it has been carried out.
   */
  lemma LeavesListExactly(env: Environment, w: World, i: nat, mode: Mode)
    requires Structure(w) && i < |Listed(w)| && Listed(w)[i].id != ""
    ensures Lists(w, ResolveRequest(env, w, Listed(w)[i].id, mode).0, Listed(w)[i], StaysListed(env, w, Listed(w)[i], mode))
  {
    var r := Listed(w)[i];
    assert r in Listed(w);
    ListedRequestIsClean(w, r);
    hide Structure, Listed, Normalized, Lists, Trim, Key, ResolveRequest, RejectRequest, ApproveRequest, KeptByApproval;
    if mode == OtherMode {
      OtherModeChangesNothing(env, w, r.id);
      ListsSame(w, w, r);
    } else if mode == Reject {
      DenialOf(env, w, i);
      RejectLists(env, w, i);
    } else {
      ApprovalOf(env, w, i, Resolve(r.id, mode), r.id);
      ApproveLists(env, w, i, mode);
    }
  }

  lemma OtherModeChangesNothing(env: Environment, w: World, requestID: string)
    ensures ResolveRequest(env, w, requestID, OtherMode).0 == w
  {
    hide Normalized, Trim, RejectRequest, ApproveRequest;
  }

  lemma DenialOf(env: Environment, w: World, i: nat)
    requires Structure(w) && i < |Listed(w)| && Listed(w)[i].id != "" && Trim(Listed(w)[i].id) == Listed(w)[i].id
    ensures Normalized(w.ai.policy).pending == Listed(w)
    ensures ResolveRequest(env, w, Listed(w)[i].id, Reject) == RejectRequest(env, w, Normalized(w.ai.policy), i)
  {
    hide Listed, Normalized, Trim, RejectRequest, ApproveRequest, Issued;
    PendingIsListed(w);
    var found := FindRequest(Listed(w), Listed(w)[i].id);
  }

  lemma StillListed(w: World, w': World, r: CommandRequest)
    requires Lists(w, w', r, true)
    ensures r in Listed(w')
  {
    hide Listed;
  }

  /** A write that has been carried out is still listed for the user, although approving it again does nothing. */
  lemma CarriedOutWriteStaysListed(env: Environment, w: World, i: nat, mode: Mode)
    requires Structure(w) && i < |Listed(w)| && Listed(w)[i].id != "" && Grants(mode)
    requires Listed(w)[i].toolID == SFTP_WRITE && Carries(w, Listed(w)[i], Listed(w)[i].id) && env.succeeds(w.draws)
    ensures var w' := ResolveRequest(env, w, Listed(w)[i].id, mode).0;
            Listed(w)[i] in Listed(w') && Retired(w', Listed(w)[i].id) && Uses(w'.effects, Listed(w)[i].id) == Uses(w.effects, Listed(w)[i].id) + 1
  {
    var r := Listed(w)[i];
    var w' := ResolveRequest(env, w, r.id, mode).0;
    ListedRequestIsClean(w, r);
    LeavesListExactly(env, w, i, mode);
    assert StaysListed(env, w, r, mode) by { CarriedWriteIsKept(w, r); }
    StillListed(w, w', r);
    hide Structure, Listed, ResolveRequest, Trim, Key, Retired, Live, Lists, Carries, RunsUnsaved, StaysListed;
    assert RunsRecorded(env, w, Resolve(r.id, mode), r.id);
    RecordedRunIsUse(env, w, Resolve(r.id, mode), r.id);
    UseRetires(env, w, Resolve(r.id, mode), r.id);
  }

  lemma CarriedWriteIsKept(w: World, r: CommandRequest)
    requires r.toolID == SFTP_WRITE && Carries(w, r, r.id)
    ensures KeptByApproval(w, r)
  {
    hide FindTab, Matches, Utf8Length, Field, Trim, StrictlyConnected;
  }

  // ------------------------------------------------------- what the chat shows

  /** Without a continuation a saved denial, and a saved approval of a command that runs, each add one assistant message: the denial, or what the host answered. */
  lemma ResolutionIsReported(env: Environment, w: World, i: nat, mode: Mode)
    requires i < |Listed(w)| && !Holds(w.ai, Listed(w)[i].id) && env.succeeds(w.draws)
    ensures Normalized(w.ai.policy).pending == Listed(w)
    ensures RejectRequest(env, w, Normalized(w.ai.policy), i).0.ai.messages
            == w.ai.messages + [ChatMessage(Assistant, "Denied command request for `" + Listed(w)[i].command + "`.")]
    ensures RunsAs(w, Listed(w)[i], Listed(w)[i].id) ==>
              ApproveCommand(env, w, Normalized(w.ai.policy), i, mode).0.ai.messages
              == w.ai.messages + [ChatMessage(Assistant, Report(Listed(w)[i], env.execution(|w.effects|)))]
  {
    hide Listed, Normalized, Execute, NormalizedRules, GrantFor, Without, Decide, ToolEnabled, ConnectedSSH, FindTab, DeniedNote, Report;
    PendingIsListed(w);
    var r := Listed(w)[i];
    DecideNormalizedRequest(w, r);
    ExecuteKeepsDraws(env, w, r);
    if RunsAs(w, r, r.id) {
      ReportedExecution(env, w, r);
    }
  }

  lemma ReportedExecution(env: Environment, w: World, r: CommandRequest)
    requires RunsAs(w, r, r.id)
    ensures Execute(env, w, r.sessionID, r.command, Approved(r.id)).1 == env.execution(|w.effects|)
  {
    hide Listed, Decide, Trim, ToolEnabled, ConnectedSSH, FindTab;
    ListedRequestIsClean(w, r);
  }

  /** An approval that the policy in force denies is not carried out; if it can be saved the chat says so. */
  lemma DenialByPolicyIsReported(env: Environment, w: World, i: nat, mode: Mode)
    requires i < |Listed(w)|
    ensures Normalized(w.ai.policy).pending == Listed(w)
    ensures var r := Listed(w)[i];
            Decide(w.ai.policy, r.toolID, r.sessionID, r.command) == Decision.Deny ==>
              var (w', reply) := ApproveCommand(env, w, Normalized(w.ai.policy), i, mode);
              && w'.effects == w.effects && (reply == Done <==> env.succeeds(w.draws))
              && w'.ai.messages == w.ai.messages + if reply == Done then [ChatMessage(Assistant, "Command denied by Command Policy: `" + r.command + "`")] else []
  {
    hide Listed, Normalized, Without, Decide;
    PendingIsListed(w);
    DecideNormalizedRequest(w, Listed(w)[i]);
  }

  // ------------------------------------------------------------------ replies

  /** The tool a call's name stands for in the policy. */
  predicate StandsFor(toolName: string, toolID: string) {
    if toolName == "ssh.exec" then toolID == "shell" else toolID == toolName
  }

  /** The held call is the one the request was raised for. */
  predicate IsItsCall(pending: PendingCall, r: CommandRequest) {
    StandsFor(pending.toolName, r.toolID) && Trim(pending.sessionID) == r.sessionID
  }

  lemma MatchesExactly(pending: PendingCall, r: CommandRequest)
    ensures Matches(pending, r) <==> IsItsCall(pending, r)
  {
    hide Trim;
  }

  /** A held approval has an effect only if the held call is for the tool and the session of the request. */
  lemma HeldEffectIsOfItsCall(env: Environment, w: World, i: nat, action: ServiceCall, id: string)
    requires Structure(w) && Approves(action, id) && id != "" && i < |Listed(w)| && Listed(w)[i].id == id && Holds(w.ai, id)
    requires Step(env, w, action).0.effects != w.effects
    ensures IsItsCall(w.ai.pendingCall.value, Listed(w)[i])
  {
    hide Structure, Listed, Step, Matches, IsItsCall, Trim;
    HeldNeedsRecord(env, w, i, action, id);
    MatchesExactly(w.ai.pendingCall.value, Listed(w)[i]);
  }

  /** The request can be approved as far as tool and tab go. */
  predicate Approachable(w: World, r: CommandRequest) {
    (r.toolID == "sftp.write" || ToolEnabled(w.ai.policy.tools, r.toolID)) && FindTab(w.tabs, r.sessionID).Some?
  }

  predicate Strange(w: World, r: CommandRequest) {
    Holds(w.ai, r.id) && !IsItsCall(w.ai.pendingCall.value, r)
  }

  /** What an approval of a listed request answers before anything is carried out, in the order of the checks. */
  lemma ApprovalRefusesExactly(env: Environment, w: World, i: nat, mode: Mode)
    requires i < |Listed(w)| && Grants(mode)
    ensures Normalized(w.ai.policy).pending == Listed(w)
    ensures var r := Listed(w)[i];
            var reply := ApproveRequest(env, w, Normalized(w.ai.policy), i, mode).1;
            && (reply == Error(RequestToolDisabled) <==> r.toolID != "sftp.write" && !ToolEnabled(w.ai.policy.tools, r.toolID))
            && (reply == Error(StaleSession) <==>
                  (r.toolID == "sftp.write" || ToolEnabled(w.ai.policy.tools, r.toolID)) && FindTab(w.tabs, r.sessionID).None? && env.succeeds(w.draws))
            && (reply == Error(ContinuationMismatch) <==> Approachable(w, r) && Strange(w, r))
            && (reply == Error(NoContinuation) <==>
                  Approachable(w, r) && !Strange(w, r) && r.toolID == "sftp.write"
                  && !(Holds(w.ai, r.id) && w.ai.pendingCall.value.toolName == "sftp.write"))
  {
    hide Listed, Normalized, ToolEnabled, FindTab, Matches, IsItsCall, Resume, Without, ApproveWrite, ApproveCommand;
    PendingIsListed(w);
    var r := Listed(w)[i];
    ToolsOfNormalized(w, r.toolID);
    if w.ai.pendingCall.Some? {
      MatchesExactly(w.ai.pendingCall.value, r);
    }
    WriteRefuses(env, w, r);
    CommandRefusesNothing(env, w, Normalized(w.ai.policy), i, mode);
  }

  predicate Preliminary(reply: Reply) {
    reply == Error(RequestToolDisabled) || reply == Error(StaleSession) || reply == Error(ContinuationMismatch) || reply == Error(NoContinuation)
    || reply == Error(RequestNotFound) || reply == Error(UnsupportedMode)
  }

  lemma ResumeRefusesNothing(env: Environment, w: World, pending: PendingCall, result: ToolResult)
    ensures !Preliminary(Resume(env, w, pending, result).1)
    ensures Resume(env, w, pending, result).1 !in {Error(BadWriteArguments), Error(WriteTooLarge), Error(WriteNeedsConnection)}
  {
    hide RunTurns, RefreshPrompt, Trim, Normalized, ToolsOn, ProviderByID;
  }

  lemma WriteRefuses(env: Environment, w: World, r: CommandRequest)
    ensures Preliminary(ApproveWrite(env, w, r).1) <==> !Holds(w.ai, r.id) || w.ai.pendingCall.value.toolName != SFTP_WRITE
    ensures Preliminary(ApproveWrite(env, w, r).1) ==> ApproveWrite(env, w, r).1 == Error(NoContinuation)
  {
    hide Resume, Trim, Utf8Length, FindTab, StrictlyConnected, Field;
    forall w1, pending, result ensures !Preliminary(Resume(env, w1, pending, result).1) {
      ResumeRefusesNothing(env, w1, pending, result);
    }
  }

  lemma CommandRefusesNothing(env: Environment, w: World, policy: Policy, i: nat, mode: Mode)
    requires i < |policy.pending|
    ensures !Preliminary(ApproveCommand(env, w, policy, i, mode).1)
  {
    hide Resume, Execute, Decide, PolicyAfterApproval, Report, DeniedNote, Without;
    var r := policy.pending[i];
    if Holds(w.ai, r.id) {
      var w1 := Save(env, w, w.ai.(policy := PolicyAfterApproval(policy, i, mode), pendingCall := None)).0;
      var (w2, execution) := Execute(env, w1, r.sessionID, r.command, Approved(r.id));
      ResumeRefusesNothing(env, w2, w.ai.pendingCall.value, Ran(r.sessionID, r.command, execution));
    }
  }

  /** A resolution is refused outright exactly when its identifier finds no listed request, or its mode is unknown. */
  lemma ResolutionRefusesExactly(env: Environment, w: World, requestID: string, mode: Mode)
    ensures var reply := ResolveRequest(env, w, requestID, mode).1;
            && (reply == Error(RequestNotFound) <==> !IsListed(w, Trim(requestID)))
            && (reply == Error(UnsupportedMode) <==> IsListed(w, Trim(requestID)) && mode == OtherMode)
  {
    hide Listed, Normalized, Trim, RejectRequest, ApproveRequest;
    PendingIsListed(w);
    var policy := Normalized(w.ai.policy);
    var found := FindRequest(policy.pending, Trim(requestID));
    if found.Some? {
      RejectRefusesNothing(env, w, policy, found.value);
      if Grants(mode) {
        ApprovalNeverPreliminary(env, w, policy, found.value, mode);
      }
    }
  }

  lemma RejectRefusesNothing(env: Environment, w: World, policy: Policy, i: nat)
    requires i < |policy.pending|
    ensures !Preliminary(RejectRequest(env, w, policy, i).1)
  {
    hide Resume, RejectedNote, Without;
    forall w1, pending, result ensures !Preliminary(Resume(env, w1, pending, result).1) {
      ResumeRefusesNothing(env, w1, pending, result);
    }
  }

  lemma ApprovalNeverPreliminary(env: Environment, w: World, policy: Policy, i: nat, mode: Mode)
    requires i < |policy.pending| && Grants(mode)
    ensures ApproveRequest(env, w, policy, i, mode).1 !in {Error(RequestNotFound), Error(UnsupportedMode)}
  {
    hide ToolEnabled, FindTab, Matches, Without, ApproveWrite, ApproveCommand;
    WriteRefuses(env, w, policy.pending[i]);
    CommandRefusesNothing(env, w, policy, i, mode);
  }

  /** A held write whose consumption was saved answers for what is wrong with the saved call, in the order of the checks, exactly if something is. */
  lemma WriteRefusesExactly(env: Environment, w: World, r: CommandRequest)
    requires Holds(w.ai, r.id) && w.ai.pendingCall.value.toolName == "sftp.write" && env.succeeds(w.draws)
    ensures var arguments := w.ai.pendingCall.value.arguments;
            var reply := ApproveWrite(env, w, r).1;
            var named := arguments.Object? && arguments.fields.Keys <= WRITE_SCHEMA
                         && Trim(Field(arguments.fields, "sessionId")) == r.sessionID && Trim(Field(arguments.fields, "path")) != "";
            var fits := named && Utf8Length(Field(arguments.fields, "content")) <= 256 * 1024 * 1024;
            && (reply == Error(BadWriteArguments) <==> !named)
            && (reply == Error(WriteTooLarge) <==> named && !fits)
            && (reply == Error(WriteNeedsConnection) <==>
                  fits && !(FindTab(w.tabs, r.sessionID).Some? && FindTab(w.tabs, r.sessionID).value.protocolID == "ssh"
                            && FindTab(w.tabs, r.sessionID).value.status == "connected"))
  {
    hide Resume, Trim, Utf8Length, FindTab, Field;
    forall w1, pending, result
      ensures Resume(env, w1, pending, result).1 !in {Error(BadWriteArguments), Error(WriteTooLarge), Error(WriteNeedsConnection)}
    {
      ResumeRefusesNothing(env, w1, pending, result);
    }
  }
}
