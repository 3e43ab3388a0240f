/**
 Safety of every run: whatever the model, the hosts and the store answer, each
 command that reaches a host was allowed by the policy in force or is exactly
 what a listed request named and the user approved.
 */
module RunSafety {
  import opened Text
  import opened CommandPolicy
  import opened PolicyTheorems
  import opened ToolCalling
  import opened LoopFacts

  predicate Grants(mode: Mode) {
    mode == Now || mode == Session || mode == Always
  }

  /** The effect is what approving the listed request `r` in state `w` stands for. */
  ghost predicate ApprovedAs(w: World, r: CommandRequest, e: Effect) {
    && FindTab(w.tabs, r.sessionID).Some?
    && match e
       case RanCommand(sessionID, command, route) =>
         && route == Approved(r.id) && sessionID == r.sessionID != "" && command == r.command != ""
         && r.toolID != SFTP_WRITE && ToolEnabled(w.ai.policy.tools, r.toolID)
         && Decide(w.ai.policy, r.toolID, r.sessionID, r.command) != Decision.Deny
         && ConnectedSSH(w.tabs, sessionID)
       case LookedAt(_, _, _) => false
       case WroteFile(sessionID, path, content, requestID) =>
         && requestID == r.id && sessionID == r.sessionID
         && r.toolID == SFTP_WRITE && Holds(w.ai, r.id)
         && var call := w.ai.pendingCall.value;
         && call.toolName == SFTP_WRITE && Matches(call, r)
         && call.arguments.Object? && path == Trim(Field(call.arguments.fields, "path")) && path != ""
         && content == Field(call.arguments.fields, "content") && Utf8Length(content) <= MAX_SFTP_WRITE
         && StrictlyConnected(FindTab(w.tabs, sessionID).value)
  }

  ghost predicate ApprovedBy(w: World, action: ServiceCall, e: Effect) {
    && action.Resolve? && Grants(action.mode)
    && exists r :: r in Listed(w) && r.id == Trim(action.requestID) && ApprovedAs(w, r, e)
  }

  /** An effect of the user's approval comes first; all others are allowed by the policy in force. */
  ghost predicate Justified(w: World, action: ServiceCall, w': World) {
    && w.effects <= w'.effects
    && forall k :: |w.effects| <= k < |w'.effects| ==>
         if AutomaticRun(w'.effects[k]) then
           (action.Send? || action.AgentRun? || action.Resolve?)
           && Allowed(if action.Resolve? then w'.ai.policy else w.ai.policy, w.tabs, w'.effects[k])
         else
           k == |w.effects| && ApprovedBy(w, action, w'.effects[k])
  }

  lemma AlikeIsSymmetric(p: Policy, q: Policy)
    requires DecidesAlike(p, q)
    ensures DecidesAlike(q, p)
  {
    hide Decide;
  }

  lemma AlikeIsTransitive(p: Policy, q: Policy, r: Policy)
    requires DecidesAlike(p, q) && DecidesAlike(q, r)
    ensures DecidesAlike(p, r)
  {
    hide Decide;
  }

  lemma AllowedAlike(p: Policy, q: Policy, tabs: seq<Tab>, e: Effect)
    requires DecidesAlike(p, q) && Allowed(p, tabs, e)
    ensures Allowed(q, tabs, e)
  {
    hide Decide, ConnectedSSH, ContainsUnsafeShellSyntax, ToolEnabled, FindTab, StrictlyConnected, KindOf;
  }

  /** New effects are allowed under the policy stored before and under the one stored after. */
  lemma ProgressAllowed(w: World, w': World, policy: Policy)
    requires Progress(w, w', policy) && DecidesAlike(policy, w.ai.policy)
    ensures w.effects <= w'.effects && w'.tabs == w.tabs
    ensures forall k :: |w.effects| <= k < |w'.effects| ==> Allowed(w.ai.policy, w.tabs, w'.effects[k]) && Allowed(w'.ai.policy, w.tabs, w'.effects[k])
  {
    hide Decide, Quiet, Raised, DecidesAlike, Allowed;
    forall k | |w.effects| <= k < |w'.effects|
      ensures Allowed(w.ai.policy, w.tabs, w'.effects[k]) && Allowed(w'.ai.policy, w.tabs, w'.effects[k])
    {
      AllowedAlike(policy, w.ai.policy, w.tabs, w'.effects[k]);
      AllowedAlike(w.ai.policy, w'.ai.policy, w.tabs, w'.effects[k]);
    }
  }

  lemma DrawQuiet(w: World, w': World, policy: Policy)
    requires w' == w.(draws := w'.draws) || w' == w.(draws := w'.draws, ai := w.ai.(pendingCall := None))
    ensures Forward(w, w', policy) && Quiet(w, w')
  {
    hide Listed, Decide;
    ListedOfPolicy(w, w');
  }

  lemma StartAlike(w: World)
    ensures DecidesAlike(Normalized(w.ai.policy), w.ai.policy)
  {
    hide DecidesAlike, Normalized;
    NormalizedDecidesAlike(w.ai.policy);
    AlikeIsSymmetric(w.ai.policy, Normalized(w.ai.policy));
  }

  lemma SendChatProgress(env: Environment, w: World, message: string, sessionID: string)
    ensures Progress(w, SendChat(env, w, message, sessionID).0, Normalized(w.ai.policy))
  {
    hide Forward, Quiet, Raised, RunTurns, Normalized, Opening, Trim, ToolsOn, ActiveProvider;
    QuietIsReflexive(w, Normalized(w.ai.policy));
    var provider := ActiveProvider(w.ai.providers);
    if provider.Some? {
      var w1 := w.(draws := w.draws + 1);
      DrawQuiet(w, w1, Normalized(w.ai.policy));
      var ctx := StartContext(w.ai, provider.value, Trim(sessionID), Trim(message));
      var opening := Opening(w.ai, Trim(sessionID), Trim(message));
      NormalizedDecidesAlike(w.ai.policy);
      TurnsProgress(env, w1, ctx, 0, opening, []);
      QuietThenProgress(w, w1, RunTurns(env, w1, ctx, 0, opening, []).world, Normalized(w.ai.policy));
    }
  }

  lemma RunAgentProgress(env: Environment, w: World, sessionID: string, input: string)
    ensures Progress(w, RunAgent(env, w, sessionID, input).0, Normalized(w.ai.policy))
  {
    hide Forward, Quiet, Raised, RunTurns, Normalized, Opening, ToolsOn, ActiveProvider, Closing;
    var w0 := w.(draws := w.draws + 1);
    DrawQuiet(w, w0, Normalized(w.ai.policy));
    var provider := ActiveProvider(w.ai.providers);
    if provider.Some? {
      var w1 := w.(draws := w.draws + 2);
      DrawQuiet(w, w1, Normalized(w.ai.policy));
      var ctx := StartContext(w.ai, provider.value, sessionID, input);
      var opening := Opening(w.ai, sessionID, input);
      NormalizedDecidesAlike(w.ai.policy);
      TurnsProgress(env, w1, ctx, 0, opening, [MessageStarted]);
      var w2 := RunTurns(env, w1, ctx, 0, opening, [MessageStarted]).world;
      QuietThenProgress(w, w1, w2, Normalized(w.ai.policy));
      DrawAfterProgress(w, w2, w2.(draws := w2.draws + 1), Normalized(w.ai.policy));
    }
  }

  lemma DrawAfterProgress(w: World, w1: World, w2: World, policy: Policy)
    requires Progress(w, w1, policy) && w2 == w1.(draws := w2.draws)
    ensures Progress(w, w2, policy)
  {
    hide Listed, Decide, Allowed, CleanRequests, Matches, RequestID;
    ListedOfPolicy(w1, w2);
  }

  lemma ResumeProgress(env: Environment, w: World, pending: PendingCall, result: ToolResult)
    ensures Progress(w, Resume(env, w, pending, result).0, Normalized(w.ai.policy))
  {
    hide Forward, Quiet, Raised, RunTurns, Normalized, RefreshPrompt, Trim, ToolsOn, ProviderByID;
    QuietIsReflexive(w, Normalized(w.ai.policy));
    var provider := ProviderByID(w.ai.providers, Trim(pending.providerID));
    if provider.Some? {
      var w1 := w.(draws := w.draws + 1);
      DrawQuiet(w, w1, Normalized(w.ai.policy));
      var (w2, saved) := Save(env, w1, w1.ai.(pendingCall := None));
      DrawQuiet(w, w2, Normalized(w.ai.policy));
      if saved {
        var ctx := StartContext(w.ai, provider.value, pending.sessionID, pending.userMessage);
        var messages := RefreshPrompt(pending.messages, w.ai.policy, pending.sessionID)
                        + [Message(Tool, Result(result), pending.toolCallID, [])];
        NormalizedDecidesAlike(w.ai.policy);
        TurnsProgress(env, w2, ctx, 0, messages, []);
        QuietThenProgress(w, w2, RunTurns(env, w2, ctx, 0, messages, []).world, Normalized(w.ai.policy));
      }
    }
  }

  // ------------------------------------------------------------ resolving

  /** `Justified` for the resolution of one listed request. */
  ghost predicate Warranted(w: World, r: CommandRequest, w': World) {
    && w.effects <= w'.effects
    && forall k :: |w.effects| <= k < |w'.effects| ==>
         if AutomaticRun(w'.effects[k]) then Allowed(w'.ai.policy, w.tabs, w'.effects[k])
         else k == |w.effects| && ApprovedAs(w, r, w'.effects[k])
  }

  lemma NoEffectsWarranted(w: World, r: CommandRequest, w': World)
    requires w'.effects == w.effects
    ensures Warranted(w, r, w')
  {
  }

  /** From a state with at most one approved effect more, resuming the conversation adds only allowed ones. */
  lemma ResumeWarranted(env: Environment, w: World, r: CommandRequest, w1: World, pending: PendingCall, result: ToolResult)
    requires w1.tabs == w.tabs
    requires w1.effects == w.effects || (|w1.effects| == |w.effects| + 1 && w.effects <= w1.effects && ApprovedAs(w, r, w1.effects[|w.effects|]) && !AutomaticRun(w1.effects[|w.effects|]))
    ensures Warranted(w, r, Resume(env, w1, pending, result).0)
  {
    hide ApprovedAs, Allowed, Progress, Resume, Normalized, DecidesAlike;
    ResumeProgress(env, w1, pending, result);
    StartAlike(w1);
    ProgressAllowed(w1, Resume(env, w1, pending, result).0, Normalized(w1.ai.policy));
    AllAutomatic(w1, Resume(env, w1, pending, result).0);
  }

  /** An effect that needs no approval. */
  predicate AutomaticRun(e: Effect) {
    e.LookedAt? || (e.RanCommand? && e.route == Automatic)
  }

  lemma RejectWarranted(env: Environment, w: World, policy: Policy, i: nat)
    requires policy == Normalized(w.ai.policy) && i < |policy.pending|
    ensures Warranted(w, policy.pending[i], RejectRequest(env, w, policy, i).0)
  {
    hide Warranted, Resume, Note, RejectedNote, Normalized;
    var r := policy.pending[i];
    var ai := w.ai.(policy := policy.(pending := Without(policy.pending, i)));
    var (w1, saved) := Save(env, w, ai.(pendingCall := None));
    NoEffectsWarranted(w, r, w1);
    if Holds(w.ai, r.id) {
      ResumeWarranted(env, w, r, w1, w.ai.pendingCall.value, ApprovalDenied);
    } else {
      NoEffectsWarranted(w, r, RejectRequest(env, w, policy, i).0);
    }
  }

  lemma ToolsOfNormalized(w: World, toolID: string)
    ensures ToolEnabled(Normalized(w.ai.policy).tools, toolID) == ToolEnabled(w.ai.policy.tools, toolID)
  {
    hide ToolEnabled, NormalizedTools;
    NormalizingKeepsEnabledTools(w.ai.policy.tools, toolID);
  }

  lemma PendingIsListed(w: World)
    ensures Normalized(w.ai.policy).pending == Listed(w)
  {
  }

  lemma ListedRequestIsClean(w: World, r: CommandRequest)
    requires r in Listed(w)
    ensures Trim(r.sessionID) == r.sessionID && Trim(r.command) == r.command && Trim(r.id) == r.id && Key(r.toolID) == r.toolID
    ensures r.command != "" && r.toolID != ""
  {
    NormalizedRequestsAreClean(w.ai.policy.pending);
    assert CleanRequests(Listed(w));
    hide Listed, Trim, Key;
    var i :| 0 <= i < |Listed(w)| && Listed(w)[i] == r;
    assert CleanRequest(Listed(w)[i]) == Listed(w)[i] && UsableRequest(Listed(w)[i]);
  }

  lemma ExecuteApproved(env: Environment, w: World, w1: World, r: CommandRequest)
    requires MayRun(w, r) && w1.tabs == w.tabs && w1.effects == w.effects
    ensures var w2 := Execute(env, w1, r.sessionID, r.command, Approved(r.id)).0;
            && w2.tabs == w.tabs
            && (w2.effects == w.effects || (|w2.effects| == |w.effects| + 1 && w.effects <= w2.effects && ApprovedAs(w, r, w2.effects[|w.effects|]) && !AutomaticRun(w2.effects[|w.effects|])))
  {
    ListedRequestIsClean(w, r);
    hide Trim, Key, Listed, ConnectedSSH, Decide, ToolEnabled, FindTab;
  }

  /** The request may be approved as a command: everything `ApproveRequest` checked, in terms of the stored state. */
  ghost predicate MayRun(w: World, r: CommandRequest) {
    && r in Listed(w) && FindTab(w.tabs, r.sessionID).Some?
    && r.toolID != SFTP_WRITE && ToolEnabled(w.ai.policy.tools, r.toolID)
    && Decide(w.ai.policy, r.toolID, r.sessionID, r.command) != Decision.Deny
  }

  lemma HeldCommandWarranted(env: Environment, w: World, ai: AIState, r: CommandRequest, pending: PendingCall)
    requires MayRun(w, r)
    ensures var w1 := Save(env, w, ai).0;
            var (w2, execution) := Execute(env, w1, r.sessionID, r.command, Approved(r.id));
            Warranted(w, r, Resume(env, w2, pending, Ran(r.sessionID, r.command, execution)).0)
  {
    hide Warranted, Resume, Listed, Decide, ToolEnabled, FindTab, Execute, ApprovedAs, AutomaticRun;
    var w1 := Save(env, w, ai).0;
    ExecuteApproved(env, w, w1, r);
    var (w2, execution) := Execute(env, w1, r.sessionID, r.command, Approved(r.id));
    ResumeWarranted(env, w, r, w2, pending, Ran(r.sessionID, r.command, execution));
  }

  lemma UnheldCommandWarranted(env: Environment, w: World, r: CommandRequest, w': World)
    requires MayRun(w, r)
    requires w'.effects == Execute(env, w, r.sessionID, r.command, Approved(r.id)).0.effects
    ensures Warranted(w, r, w')
  {
    hide Listed, Decide, ToolEnabled, FindTab, Execute, ApprovedAs, AutomaticRun, Warranted;
    ExecuteApproved(env, w, w, r);
    ApprovedEffectWarranted(w, r, w');
  }

  lemma ApproveCommandWarranted(env: Environment, w: World, policy: Policy, i: nat, mode: Mode)
    requires policy == Normalized(w.ai.policy) && i < |policy.pending|
    requires var r := policy.pending[i];
             FindTab(w.tabs, r.sessionID).Some? && r.toolID != SFTP_WRITE && ToolEnabled(policy.tools, r.toolID)
    ensures Warranted(w, policy.pending[i], ApproveCommand(env, w, policy, i, mode).0)
  {
    hide Warranted, Resume, Note, Normalized, Listed, Decide, ToolEnabled, FindTab, Execute, PolicyAfterApproval, Report, DeniedNote, Without;
    var r := policy.pending[i];
    ToolsOfNormalized(w, r.toolID);
    PendingIsListed(w);
    DecideNormalized(w.ai.policy, r.toolID, r.sessionID, r.command);
    var w' := ApproveCommand(env, w, policy, i, mode).0;
    if Decide(policy, r.toolID, r.sessionID, r.command) == Decision.Deny {
      NoEffectsWarranted(w, r, w');
    } else {
      assert MayRun(w, r);
      hide MayRun;
      if Holds(w.ai, r.id) {
        var ai := w.ai.(policy := PolicyAfterApproval(policy, i, mode), pendingCall := None);
        HeldCommandWarranted(env, w, ai, r, w.ai.pendingCall.value);
        if !Save(env, w, ai).1 {
          NoEffectsWarranted(w, r, w');
        }
      } else {
        UnheldCommandWarranted(env, w, r, w');
      }
    }
  }

  lemma ApprovedEffectWarranted(w: World, r: CommandRequest, w': World)
    requires w'.effects == w.effects || (|w'.effects| == |w.effects| + 1 && w.effects <= w'.effects && ApprovedAs(w, r, w'.effects[|w.effects|]) && !AutomaticRun(w'.effects[|w.effects|]))
    ensures Warranted(w, r, w')
  {
    hide ApprovedAs;
  }

  lemma ApproveWriteWarranted(env: Environment, w: World, r: CommandRequest)
    requires r in Listed(w) && r.toolID == SFTP_WRITE && FindTab(w.tabs, r.sessionID).Some?
    requires Holds(w.ai, r.id) ==> Matches(w.ai.pendingCall.value, r)
    ensures Warranted(w, r, ApproveWrite(env, w, r).0)
  {
    hide Warranted, Resume, Listed, Trim, Utf8Length, FindTab, StrictlyConnected, Matches;
    var w' := ApproveWrite(env, w, r).0;
    if w'.effects == w.effects {
      NoEffectsWarranted(w, r, w');
    } else {
      var pending := w.ai.pendingCall.value;
      var (w1, saved) := Save(env, w, w.ai.(pendingCall := None));
      var fields := pending.arguments.fields;
      var session, path, content := Trim(Field(fields, "sessionId")), Trim(Field(fields, "path")), Field(fields, "content");
      var w2 := w1.(effects := w1.effects + [WroteFile(session, path, content, r.id)], draws := w1.draws + 1);
      assert ApprovedAs(w, r, w2.effects[|w.effects|]);
      ResumeWarranted(env, w, r, w2, pending, Wrote(session, path, env.succeeds(w1.draws)));
    }
  }

  lemma ApproveRequestWarranted(env: Environment, w: World, policy: Policy, i: nat, mode: Mode)
    requires policy == Normalized(w.ai.policy) && i < |policy.pending| && Grants(mode)
    ensures Warranted(w, policy.pending[i], ApproveRequest(env, w, policy, i, mode).0)
  {
    hide Warranted, Normalized, Listed, ToolEnabled, FindTab, ApproveWrite, ApproveCommand, Matches;
    var r := policy.pending[i];
    PendingIsListed(w);
    var w' := ApproveRequest(env, w, policy, i, mode).0;
    if w'.effects == w.effects {
      NoEffectsWarranted(w, r, w');
    } else if r.toolID == SFTP_WRITE {
      ApproveWriteWarranted(env, w, r);
    } else {
      ApproveCommandWarranted(env, w, policy, i, mode);
    }
  }

  lemma ResolveJustified(env: Environment, w: World, requestID: string, mode: Mode)
    ensures Justified(w, Resolve(requestID, mode), ResolveRequest(env, w, requestID, mode).0)
  {
    hide Normalized, Listed, ApprovedAs, Allowed, RejectRequest, ApproveRequest, Trim;
    var policy := Normalized(w.ai.policy);
    PendingIsListed(w);
    var found := FindRequest(policy.pending, Trim(requestID));
    if found.Some? {
      var i := found.value;
      assert policy.pending[i] in Listed(w);
      if mode == Reject {
        RejectWarranted(env, w, policy, i);
        RejectApprovesNothing(env, w, policy, i);
      } else if Grants(mode) {
        ApproveRequestWarranted(env, w, policy, i, mode);
      }
    }
  }

  lemma RejectApprovesNothing(env: Environment, w: World, policy: Policy, i: nat)
    requires policy == Normalized(w.ai.policy) && i < |policy.pending|
    ensures var w' := RejectRequest(env, w, policy, i).0;
            w.effects <= w'.effects && forall k :: |w.effects| <= k < |w'.effects| ==> AutomaticRun(w'.effects[k])
  {
    hide Resume, Note, RejectedNote, Normalized, Allowed, Progress, DecidesAlike;
    var r := policy.pending[i];
    if Holds(w.ai, r.id) {
      var (w1, saved) := Save(env, w, w.ai.(policy := policy.(pending := Without(policy.pending, i)), pendingCall := None));
      ResumeProgress(env, w1, w.ai.pendingCall.value, ApprovalDenied);
      StartAlike(w1);
      var w' := Resume(env, w1, w.ai.pendingCall.value, ApprovalDenied).0;
      ProgressAllowed(w1, w', Normalized(w1.ai.policy));
      forall k | |w1.effects| <= k < |w'.effects| ensures AutomaticRun(w'.effects[k]) {
        AllowedIsAutomatic(w'.ai.policy, w1.tabs, w'.effects[k]);
      }
    }
  }

  lemma AllowedIsAutomatic(policy: Policy, tabs: seq<Tab>, e: Effect)
    requires Allowed(policy, tabs, e)
    ensures AutomaticRun(e)
  {
  }

  /** Every service call, in any state and for every answer from outside, has only justified effects. */
  lemma StepJustified(env: Environment, w: World, action: ServiceCall)
    ensures Justified(w, action, Step(env, w, action).0)
  {
    hide Allowed, ApprovedBy, SendChat, RunAgent, ResolveRequest, Normalized, Progress, DecidesAlike;
    match action
    case Send(message, sessionID) =>
      SendChatProgress(env, w, message, sessionID);
      StartAlike(w);
      ProgressAllowed(w, SendChat(env, w, message, sessionID).0, Normalized(w.ai.policy));
      AllAutomatic(w, SendChat(env, w, message, sessionID).0);
    case AgentRun(sessionID, input) =>
      RunAgentProgress(env, w, sessionID, input);
      StartAlike(w);
      ProgressAllowed(w, RunAgent(env, w, sessionID, input).0, Normalized(w.ai.policy));
      AllAutomatic(w, RunAgent(env, w, sessionID, input).0);
    case Resolve(requestID, mode) =>
      ResolveJustified(env, w, requestID, mode);
    case _ =>
  }

  lemma AllAutomatic(w: World, w': World)
    requires w.effects <= w'.effects
    requires forall k :: |w.effects| <= k < |w'.effects| ==> Allowed(w'.ai.policy, w.tabs, w'.effects[k])
    ensures forall k :: |w.effects| <= k < |w'.effects| ==> AutomaticRun(w'.effects[k])
  {
    forall k | |w.effects| <= k < |w'.effects| ensures AutomaticRun(w'.effects[k]) {
      AllowedIsAutomatic(w'.ai.policy, w.tabs, w'.effects[k]);
    }
  }

  // -------------------------------------------------- where paths are read

  /** The session a call's conversation is about. */
  function SessionOf(w: World, action: ServiceCall): string {
    match action
    case Send(_, sessionID) => Trim(sessionID)
    case AgentRun(sessionID, _) => Trim(sessionID)
    case Resolve(_, _) => if w.ai.pendingCall.Some? then Trim(w.ai.pendingCall.value.sessionID) else ""
    case _ => ""
  }

  lemma ResumeLooksIn(env: Environment, w: World, w1: World, pending: PendingCall, result: ToolResult)
    requires LooksIn(w, w1, Trim(pending.sessionID))
    ensures LooksIn(w, Resume(env, w1, pending, result).0, Trim(pending.sessionID))
  {
    hide LooksIn, RunTurns, Normalized, RefreshPrompt, Trim, ToolsOn, ProviderByID;
    var w' := Resume(env, w1, pending, result).0;
    if w'.effects == w1.effects {
      LooksNowhere(w1, w', Trim(pending.sessionID));
    } else {
      var provider := ProviderByID(w1.ai.providers, Trim(pending.providerID)).value;
      var w2 := Save(env, w1.(draws := w1.draws + 1), w1.ai.(pendingCall := None)).0;
      LooksNowhere(w1, w2, Trim(pending.sessionID));
      var messages := RefreshPrompt(pending.messages, w1.ai.policy, pending.sessionID)
                      + [Message(Tool, Result(result), pending.toolCallID, [])];
      TurnsLookIn(env, w2, StartContext(w1.ai, provider, pending.sessionID, pending.userMessage), 0, messages, []);
      LooksInThen(w1, w2, w', Trim(pending.sessionID));
    }
    LooksInThen(w, w1, w', Trim(pending.sessionID));
  }

  lemma SendLooksIn(env: Environment, w: World, message: string, sessionID: string)
    ensures LooksIn(w, SendChat(env, w, message, sessionID).0, Trim(sessionID))
  {
    hide LooksIn, RunTurns, Normalized, Opening, Trim, ToolsOn, ActiveProvider;
    var w' := SendChat(env, w, message, sessionID).0;
    if w'.effects == w.effects {
      LooksNowhere(w, w', Trim(sessionID));
    } else {
      var w1 := w.(draws := w.draws + 1);
      TrimIdempotent(sessionID);
      LooksNowhere(w, w1, Trim(sessionID));
      TurnsLookIn(env, w1, StartContext(w.ai, ActiveProvider(w.ai.providers).value, Trim(sessionID), Trim(message)), 0,
                  Opening(w.ai, Trim(sessionID), Trim(message)), []);
      LooksInThen(w, w1, w', Trim(sessionID));
    }
  }

  lemma AgentLooksIn(env: Environment, w: World, sessionID: string, input: string)
    ensures LooksIn(w, RunAgent(env, w, sessionID, input).0, Trim(sessionID))
  {
    hide LooksIn, RunTurns, Normalized, Opening, Trim, ToolsOn, ActiveProvider, Closing;
    var w' := RunAgent(env, w, sessionID, input).0;
    if w'.effects == w.effects {
      LooksNowhere(w, w', Trim(sessionID));
    } else {
      var w1 := w.(draws := w.draws + 2);
      LooksNowhere(w, w1, Trim(sessionID));
      var ctx := StartContext(w.ai, ActiveProvider(w.ai.providers).value, sessionID, input);
      TurnsLookIn(env, w1, ctx, 0, Opening(w.ai, sessionID, input), [MessageStarted]);
      var w2 := RunTurns(env, w1, ctx, 0, Opening(w.ai, sessionID, input), [MessageStarted]).world;
      LooksInThen(w, w1, w2, Trim(sessionID));
      LooksNowhere(w2, w', Trim(sessionID));
      LooksInThen(w, w2, w', Trim(sessionID));
    }
  }

  lemma RejectLooksIn(env: Environment, w: World, policy: Policy, i: nat, session: string)
    requires i < |policy.pending| && (w.ai.pendingCall.Some? ==> session == Trim(w.ai.pendingCall.value.sessionID))
    ensures LooksIn(w, RejectRequest(env, w, policy, i).0, session)
  {
    hide LooksIn, Resume, RejectedNote, Trim, Without;
    var w' := RejectRequest(env, w, policy, i).0;
    var w1 := Save(env, w, w.ai.(policy := policy.(pending := Without(policy.pending, i)), pendingCall := None)).0;
    LooksNowhere(w, w1, session);
    if w'.effects == w.effects {
      LooksNowhere(w, w', session);
    } else {
      ResumeLooksIn(env, w, w1, w.ai.pendingCall.value, ApprovalDenied);
    }
  }

  lemma WriteLooksIn(env: Environment, w: World, r: CommandRequest, session: string)
    requires w.ai.pendingCall.Some? ==> session == Trim(w.ai.pendingCall.value.sessionID)
    ensures LooksIn(w, ApproveWrite(env, w, r).0, session)
  {
    hide LooksIn, Resume, Trim, Utf8Length, FindTab, StrictlyConnected, Field;
    var w' := ApproveWrite(env, w, r).0;
    if w'.effects == w.effects {
      LooksNowhere(w, w', session);
    } else {
      var pending := w.ai.pendingCall.value;
      var w1 := Save(env, w, w.ai.(pendingCall := None)).0;
      var fields := pending.arguments.fields;
      var named, path, content := Trim(Field(fields, "sessionId")), Trim(Field(fields, "path")), Field(fields, "content");
      var w2 := w1.(effects := w1.effects + [WroteFile(named, path, content, r.id)], draws := w1.draws + 1);
      NoLookIsIn(w, w2, session);
      ResumeLooksIn(env, w, w2, pending, Wrote(named, path, env.succeeds(w1.draws)));
    }
  }

  lemma NoLookIsIn(w: World, w': World, session: string)
    requires w.effects <= w'.effects && forall k :: |w.effects| <= k < |w'.effects| ==> !w'.effects[k].LookedAt?
    ensures LooksIn(w, w', session)
  {
  }

  lemma ExecuteLooksNowhere(env: Environment, w: World, w1: World, r: CommandRequest, session: string)
    requires w1.effects == w.effects
    ensures LooksIn(w, Execute(env, w1, r.sessionID, r.command, Approved(r.id)).0, session)
  {
    hide Trim, ConnectedSSH;
  }

  lemma CommandLooksIn(env: Environment, w: World, policy: Policy, i: nat, mode: Mode, session: string)
    requires i < |policy.pending| && (w.ai.pendingCall.Some? ==> session == Trim(w.ai.pendingCall.value.sessionID))
    ensures LooksIn(w, ApproveCommand(env, w, policy, i, mode).0, session)
  {
    hide LooksIn, Resume, Trim, Execute, Decide, PolicyAfterApproval, Report, DeniedNote, Without;
    var r, w' := policy.pending[i], ApproveCommand(env, w, policy, i, mode).0;
    if w'.effects == w.effects {
      LooksNowhere(w, w', session);
    } else if Holds(w.ai, r.id) {
      var w1 := Save(env, w, w.ai.(policy := PolicyAfterApproval(policy, i, mode), pendingCall := None)).0;
      ExecuteLooksNowhere(env, w, w1, r, session);
      var (w2, execution) := Execute(env, w1, r.sessionID, r.command, Approved(r.id));
      ResumeLooksIn(env, w, w2, w.ai.pendingCall.value, Ran(r.sessionID, r.command, execution));
    } else {
      ExecuteLooksNowhere(env, w, w, r, session);
      var w1 := Execute(env, w, r.sessionID, r.command, Approved(r.id)).0;
      LooksNowhere(w1, w', session);
      LooksInThen(w, w1, w', session);
    }
  }

  /** Every service call looks at remote paths only in the session its conversation is about. */
  lemma StepLooksIn(env: Environment, w: World, action: ServiceCall)
    ensures LooksIn(w, Step(env, w, action).0, SessionOf(w, action))
  {
    hide LooksIn, SendChat, RunAgent, Normalized, RejectRequest, ApproveWrite, ApproveCommand, Trim, ToolEnabled, FindTab, Matches, Without;
    var w' := Step(env, w, action).0;
    var session := SessionOf(w, action);
    if w'.effects == w.effects {
      LooksNowhere(w, w', session);
    } else {
      match action
      case Send(message, sessionID) => SendLooksIn(env, w, message, sessionID);
      case AgentRun(sessionID, input) => AgentLooksIn(env, w, sessionID, input);
      case Resolve(requestID, mode) =>
        var policy := Normalized(w.ai.policy);
        var i := FindRequest(policy.pending, Trim(requestID)).value;
        if mode == Reject {
          RejectLooksIn(env, w, policy, i, session);
        } else {
          WriteLooksIn(env, w, policy.pending[i], session);
          CommandLooksIn(env, w, policy, i, mode, session);
        }
    }
  }

  // ----------------------------------------------------------------- runs

  /** The states of a run: the initial one and the one after each call. */
  ghost function Run(env: Environment, w: World, calls: seq<ServiceCall>): World
    decreases |calls|
  {
    if calls == [] then w else Run(env, Step(env, w, calls[0]).0, calls[1..])
  }

  /** Every effect of the call is justified, and every path it looks at is in its conversation's session. */
  ghost predicate Safe(w: World, action: ServiceCall, w': World) {
    Justified(w, action, w') && LooksIn(w, w', SessionOf(w, action))
  }

  ghost predicate SafeRun(env: Environment, w: World, calls: seq<ServiceCall>)
    decreases |calls|
  {
    calls == [] || (Safe(w, calls[0], Step(env, w, calls[0]).0) && SafeRun(env, Step(env, w, calls[0]).0, calls[1..]))
  }

  /** Safety of every run. */
  lemma {:induction false} EveryRunIsSafe(env: Environment, w: World, calls: seq<ServiceCall>)
    ensures SafeRun(env, w, calls)
    decreases |calls|
  {
    hide Justified, LooksIn, Step;
    if calls != [] {
      StepJustified(env, w, calls[0]);
      StepLooksIn(env, w, calls[0]);
      EveryRunIsSafe(env, Step(env, w, calls[0]).0, calls[1..]);
    }
  }
}
