/**
 What the user's choices mean afterwards: which decisions an approval changes,
 what clearing or locking retires, and which tools the model is told about.
 Models internal/app/service_command_policy.go and the system prompt of
 internal/app/native_tool_calling.go.
 */
module Approvals {
  import opened Text
  import opened CommandPolicy
  import opened PolicyTheorems
  import opened ToolCalling
  import opened LoopFacts
  import opened RunSafety
  import opened AtMostOnce

  // ------------------------------------------------------- what is granted

  /** The policy a service keeps after approving its i-th listed request. */
  function PolicyAfter(w: World, i: nat, mode: Mode): Policy
    requires i < |Normalized(w.ai.policy).pending|
  {
    PolicyAfterApproval(Normalized(w.ai.policy), i, mode)
  }

  lemma GrantIsAGrant(w: World, r: CommandRequest, mode: Mode)
    requires r in Listed(w) && (mode == Session || mode == Always)
    ensures |GrantFor(mode, r)| == 1 && IsGrant(GrantFor(mode, r)[0])
    ensures GrantFor(mode, r)[0].pattern == r.command && GrantFor(mode, r)[0].toolID == r.toolID
    ensures GrantFor(mode, r)[0].sessionID == if mode == Session then r.sessionID else ""
  {
    hide Key, Trim, Listed;
    ListedRequestIsClean(w, r);
    DescriptionIsTrimmed(mode, r);
  }

  lemma DescriptionIsTrimmed(mode: Mode, r: CommandRequest)
    requires mode == Session || mode == Always
    ensures Trim(GrantFor(mode, r)[0].description) == GrantFor(mode, r)[0].description && Trim("") == ""
  {
    var always, session := "always allow this exact command", "for this session";
    assert "Approved by user: "[0] == 'A' && always[|always| - 1] == 'd' && session[|session| - 1] == 'n';
    hide Trim;
    TrimOfTrimmed(GrantFor(mode, r)[0].description);
    TrimOfTrimmed("");
  }

  lemma DecidesAsGranted(w: World, i: nat, mode: Mode)
    requires i < |Listed(w)| && (mode == Session || mode == Always)
    ensures i < |Normalized(w.ai.policy).pending| && |GrantFor(mode, Listed(w)[i])| == 1
    ensures DecidesAlike(PolicyAfter(w, i, mode), Granted(Normalized(w.ai.policy), GrantFor(mode, Listed(w)[i])[0]))
  {
    hide Decide, Normalized, NormalizedRules, Listed, Without, DecidesAlike;
    PendingIsListed(w);
    var p := Normalized(w.ai.policy);
    var g := GrantFor(mode, Listed(w)[i])[0];
    assert p.rules + GrantFor(mode, p.pending[i]) == p.rules + [g];
    SameRulesDecideAlike(PolicyAfter(w, i, mode), Granted(p, g));
  }

  /**
   A session approval changes no decision but those about its own tool, session
   and command, and an always approval none but those about its own tool and
   command, as long as the command does not end in a star.
   */
  lemma ApprovalIsExact(w: World, i: nat, mode: Mode, toolID: string, sessionID: string, command: string)
    requires i < |Listed(w)| && (mode == Session || mode == Always)
    requires !EndsWith(Listed(w)[i].command, '*') && (mode == Session ==> Listed(w)[i].sessionID != "")
    ensures i < |Normalized(w.ai.policy).pending|
    ensures var r := Listed(w)[i];
            Decide(PolicyAfter(w, i, mode), toolID, sessionID, command) != Decide(w.ai.policy, toolID, sessionID, command) ==>
              Key(toolID) == r.toolID && Trim(command) == r.command && (mode == Session ==> Trim(sessionID) == r.sessionID)
  {
    hide Decide, Normalized, Key, Trim, Listed, PolicyAfter, IsGrant, Granted;
    var r := Listed(w)[i];
    assert r in Listed(w);
    DecidesAsGranted(w, i, mode);
    GrantIsAGrant(w, r, mode);
    NormalizedDecidesAlike(w.ai.policy);
    var g := GrantFor(mode, r)[0];
    if !Covers(g, Key(toolID), Trim(sessionID), Trim(command)) {
      GrantChangesNothingElse(Normalized(w.ai.policy), g, toolID, sessionID, command);
    }
  }

  /** Approving only for now changes no decision at all. */
  lemma NowGrantsNothing(w: World, i: nat)
    requires i < |Listed(w)|
    ensures i < |Normalized(w.ai.policy).pending| && DecidesAlike(w.ai.policy, PolicyAfter(w, i, Now))
  {
    PendingIsListed(w);
    hide Decide, Normalized, Listed, Without, DecidesAlike;
    var p := Normalized(w.ai.policy);
    assert p.rules + [] == p.rules;
    NormalizedDecidesAlike(w.ai.policy);
    NowDecides(p, PolicyAfter(w, i, Now));
    AlikeIsTransitive(w.ai.policy, p, PolicyAfter(w, i, Now));
  }

  lemma NowDecides(p: Policy, q: Policy)
    requires q.tools == p.tools && q.rules == NormalizedRules(p.rules)
    ensures DecidesAlike(p, q)
  {
    hide Verdict, ToolEnabled, ContainsUnsafeShellSyntax, Key, Trim, NormalizedRules;
    NormalizedRulesIdempotent(p.rules);
  }

  /** After an approval that was not denied, the same command is allowed exactly when its guards hold and no strongest rule at least as specific asks. */
  lemma ApprovalAllowsItself(w: World, i: nat, mode: Mode)
    requires i < |Listed(w)| && (mode == Session || mode == Always)
    ensures i < |Normalized(w.ai.policy).pending|
    ensures var r, p := Listed(w)[i], Normalized(w.ai.policy);
            Decide(p, r.toolID, r.sessionID, r.command) != Decision.Deny ==>
              (Decide(PolicyAfter(w, i, mode), r.toolID, r.sessionID, r.command) == Decision.Allow <==>
               !(exists q :: Strongest(NormalizedRules(p.rules), r.toolID, r.sessionID, r.command, q)
                             && q.action == Rules(Decision.Ask) && Specificity(q) >= Specificity(GrantFor(mode, r)[0])))
  {
    hide Normalized, Key, Trim, Listed, PolicyAfter, IsGrant, Granted, GuardsHold, Strongest, SomeRuleDenies, NormalizedRules, Specificity;
    var r := Listed(w)[i];
    assert r in Listed(w);
    DecidesAsGranted(w, i, mode);
    GrantIsAGrant(w, r, mode);
    ListedRequestIsClean(w, r);
    GrantAllowsItsOwnCommand(Normalized(w.ai.policy), GrantFor(mode, r)[0], r.toolID, r.sessionID, r.command);
  }

  /** Once an approval has been saved, the service decides by it, whatever the resumed conversation does. */
  lemma ApprovalTakesEffect(env: Environment, w: World, i: nat, mode: Mode)
    requires i < |Listed(w)| && Grants(mode)
    ensures i < |Normalized(w.ai.policy).pending|
    ensures var r, p := Listed(w)[i], Normalized(w.ai.policy);
            var w' := ApproveCommand(env, w, p, i, mode).0;
            Decide(p, r.toolID, r.sessionID, r.command) != Decision.Deny && env.succeeds(w.draws)
            ==> DecidesAlike(PolicyAfter(w, i, mode), w'.ai.policy)
  {
    hide Decide, Normalized, Listed, PolicyAfterApproval, Resume, Execute, Report, DecidesAlike, Quiet, Raised, DeniedNote;
    PendingIsListed(w);
    var r, p := Listed(w)[i], Normalized(w.ai.policy);
    SameRulesDecideAlike(PolicyAfter(w, i, mode), PolicyAfter(w, i, mode));
    if Holds(w.ai, r.id) {
      var (w1, saved) := Save(env, w, w.ai.(policy := PolicyAfter(w, i, mode), pendingCall := None));
      ExecuteKeepsAI(env, w1, r);
      var (w2, execution) := Execute(env, w1, r.sessionID, r.command, Approved(r.id));
      ResumeProgress(env, w2, w.ai.pendingCall.value, Ran(r.sessionID, r.command, execution));
    } else {
      ExecuteKeepsAI(env, w, r);
    }
  }

  lemma ExecuteKeepsAI(env: Environment, w: World, r: CommandRequest)
    ensures var w' := Execute(env, w, r.sessionID, r.command, Approved(r.id)).0; w'.ai == w.ai && w'.draws == w.draws
  {
    hide Trim, ConnectedSSH;
  }

  // ---------------------------------------------------- what is discarded

  lemma NothingListedIsRetired(w: World, id: string)
    requires Issued(w, id) && w.ai.policy.pending == [] && w.ai.pendingCall.None?
    ensures Retired(w, id)
  {
    hide Issued;
    assert Listed(w) == [];
  }

  /** Clearing the chat discards every request and continuation: none of them ever runs. */
  lemma ClearedNeverRuns(env: Environment, w: World, later: seq<ServiceCall>, id: string)
    requires Structure(w) && Issued(w, id) && Clear(env, w).1 == Done && AdmissibleRun(env, Clear(env, w).0, later)
    ensures Clear(env, w).0.ai.messages == []
    ensures Uses(RunSafety.Run(env, Clear(env, w).0, later).effects, id) == Uses(w.effects, id)
  {
    hide Structure, Issued, Retired, Normalized, Decimal, RunSafety.Run, AdmissibleRun;
    var w1 := Clear(env, w).0;
    IssuedLater(w, w1, id);
    NothingListedIsRetired(w1, id);
    hide Clear;
    StepKeeps(env, w, ClearChat, id);
    RetiredNeverRuns(env, w1, later, id);
    ClearHasNoEffects(env, w);
  }

  lemma ClearHasNoEffects(env: Environment, w: World)
    ensures Clear(env, w).0.effects == w.effects && Step(env, w, ClearChat).0 == Clear(env, w).0
  {
    hide Normalized, Decimal;
  }

  /** Locking empties the live messages; it discards the requests too if its own update of the stored state goes through, and otherwise leaves every one as it was. */
  lemma LockedNeverRuns(env: Environment, w: World, later: seq<ServiceCall>, id: string)
    requires Structure(w) && Issued(w, id) && AdmissibleRun(env, LockStorage(env, w), later)
    ensures LockStorage(env, w).ai.messages == []
    ensures !env.succeeds(w.draws) ==> LockStorage(env, w).ai == w.ai.(messages := [])
    ensures env.succeeds(w.draws) ==> Uses(RunSafety.Run(env, LockStorage(env, w), later).effects, id) == Uses(w.effects, id)
  {
    hide Structure, Issued, Retired, RunSafety.Run, AdmissibleRun;
    var w1 := LockStorage(env, w);
    if env.succeeds(w.draws) {
      IssuedLater(w, w1, id);
      NothingListedIsRetired(w1, id);
      StepKeeps(env, w, Lock, id);
      RetiredNeverRuns(env, w1, later, id);
    }
  }

  // ------------------------------------------------------ what is announced

  lemma {:induction false} EnabledToolsAre(tools: seq<CommandTool>, id: string)
    ensures id in EnabledTools(tools) <==> exists i :: 0 <= i < |tools| && tools[i].enabled && tools[i].id == id
  {
    if tools != [] {
      EnabledToolsAre(tools[1..], id);
      if exists i :: 0 <= i < |tools| && tools[i].enabled && tools[i].id == id {
        var i :| 0 <= i < |tools| && tools[i].enabled && tools[i].id == id;
        assert i == 0 || (tools[1..][i - 1].enabled && tools[1..][i - 1].id == id);
      }
    }
  }

  /** The system prompt names exactly the tools the policy enables. */
  lemma PromptNamesEnabledTools(policy: Policy, sessionID: string, toolID: string)
    requires Key(toolID) == toolID && toolID != ""
    ensures toolID in SystemPrompt(policy, sessionID).enabled <==> ToolEnabled(policy.tools, toolID)
  {
    hide Key, LastEntry, Order, Canonical, DefaultTools, ToolEnabled;
    ToolEnabledByOverlay(policy.tools, toolID);
    var all := DefaultTools() + policy.tools;
    EnabledToolsAre(NormalizedTools(policy.tools), toolID);
    CanonicalFacts(all);
    OrderFacts(all);
    forall i | 0 <= i < |Order(all)|
      ensures Canonical(all)[i].id == Order(all)[i] && LastEntry(all, Order(all)[i]).Some?
              && Canonical(all)[i].enabled == LastEntry(all, Order(all)[i]).value.enabled
    {
      CanonicalAt(all, i);
    }
    if ToolEnabled(policy.tools, toolID) {
      assert toolID in Order(all);
      var i :| 0 <= i < |Order(all)| && Order(all)[i] == toolID;
      assert NormalizedTools(policy.tools)[i].enabled;
    }
  }
}
