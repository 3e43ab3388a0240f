/**
 What a run of the tool-calling loop may change: the facts the theorems about
 authorization, consumption and conversations are built from.
 */
module LoopFacts {
  import opened Text
  import opened CommandPolicy
  import opened PolicyTheorems
  import opened ToolCalling

  // -------------------------------------------------- listed requests

  function Listed(w: World): seq<CommandRequest> {
    NormalizedRequests(w.ai.policy.pending)
  }

  predicate CleanRequests(requests: seq<CommandRequest>) {
    forall i :: 0 <= i < |requests| ==> UsableRequest(requests[i]) && CleanRequest(requests[i]) == requests[i]
  }

  lemma {:induction false} NormalizedRequestsAreClean(requests: seq<CommandRequest>)
    ensures CleanRequests(NormalizedRequests(requests))
  {
    hide UsableRequest, CleanRequest;
    if requests != [] {
      var last := requests[|requests| - 1];
      NormalizedRequestsAreClean(requests[..|requests| - 1]);
      if UsableRequest(last) {
        CleanRequestIsClean(last);
      }
    }
  }

  lemma CleanRequestIsClean(r: CommandRequest)
    requires UsableRequest(r)
    ensures UsableRequest(CleanRequest(r)) && CleanRequest(CleanRequest(r)) == CleanRequest(r)
  {
    hide Key, Trim;
    TrimIdempotent(r.id);
    KeyIdempotent(r.toolID);
    TrimIdempotent(r.sessionID);
    TrimIdempotent(r.command);
    TrimIdempotent(r.reason);
    TrimIdempotent(r.requestedAt);
  }

  lemma {:induction false} CleanRequestsStay(requests: seq<CommandRequest>)
    requires CleanRequests(requests)
    ensures NormalizedRequests(requests) == requests
  {
    hide UsableRequest, CleanRequest;
    if requests != [] {
      CleanRequestsStay(requests[..|requests| - 1]);
    }
  }

  lemma NormalizedRequestsIdempotent(requests: seq<CommandRequest>)
    ensures NormalizedRequests(NormalizedRequests(requests)) == NormalizedRequests(requests)
  {
    NormalizedRequestsAreClean(requests);
    CleanRequestsStay(NormalizedRequests(requests));
  }

  /** Normalising a policy twice is normalising it once. */
  lemma NormalizedIdempotent(policy: Policy)
    ensures Normalized(Normalized(policy)) == Normalized(policy)
  {
    hide NormalizedTools, NormalizedRequests, Trim;
    NormalizedToolsIdempotent(policy.tools);
    NormalizedRequestsIdempotent(policy.pending);
    TrimIdempotent(policy.localDocsPath);
  }

  // --------------------------------------------------------- decisions

  /** The policies decide every command alike, and open or close SFTP alike. */
  ghost predicate DecidesAlike(p: Policy, q: Policy) {
    && (forall t, s, c :: Decide(p, t, s, c) == Decide(q, t, s, c))
    && ToolEnabled(p.tools, SFTP) == ToolEnabled(q.tools, SFTP)
  }

  lemma NormalizedDecidesAlike(policy: Policy)
    ensures DecidesAlike(policy, Normalized(policy))
  {
    hide Decide, Normalized;
    forall t, s, c ensures Decide(policy, t, s, c) == Decide(Normalized(policy), t, s, c) {
      DecideNormalized(policy, t, s, c);
    }
    SftpOfNormalized(policy);
  }

  lemma SftpOfNormalized(policy: Policy)
    ensures ToolEnabled(Normalized(policy).tools, SFTP) == ToolEnabled(policy.tools, SFTP)
  {
    hide ToolEnabled, NormalizedTools;
    NormalizingKeepsEnabledTools(policy.tools, SFTP);
  }

  lemma SameRulesDecideAlike(p: Policy, q: Policy)
    requires p.tools == q.tools && p.rules == q.rules
    ensures DecidesAlike(p, q)
  {
    hide Verdict, ToolEnabled, ContainsUnsafeShellSyntax, Key, Trim, NormalizedRules;
  }

  lemma DecideTrims(policy: Policy, sessionID: string, command: string)
    ensures Decide(policy, SHELL, Trim(sessionID), Trim(command)) == Decide(policy, SHELL, sessionID, command)
  {
    hide Trim, Key, GuardsHold, Verdict;
    TrimIdempotent(sessionID);
    TrimIdempotent(command);
  }

  /** A command that ran because the policy allowed it, or a path looked at with SFTP enabled. */
  ghost predicate Allowed(policy: Policy, tabs: seq<Tab>, e: Effect) {
    match e
    case RanCommand(sessionID, command, route) =>
      && route == Automatic
      && ConnectedSSH(tabs, sessionID)
      && Decide(policy, SHELL, sessionID, command) == Decision.Allow
      && !ContainsUnsafeShellSyntax(command)
    case LookedAt(sessionID, path, tool) =>
      && KindOf(tool) == LookTool && sessionID != "" && path != ""
      && ToolEnabled(policy.tools, SFTP)
      && FindTab(tabs, sessionID).Some? && StrictlyConnected(FindTab(tabs, sessionID).value)
    case WroteFile(_, _, _, _) => false
  }

  lemma AllowedHasNoShellSyntax(policy: Policy, sessionID: string, command: string)
    requires Decide(policy, SHELL, sessionID, command) != Decision.Deny
    ensures !ContainsUnsafeShellSyntax(Trim(command))
  {
    hide Key, Trim, ContainsUnsafeShellSyntax, Verdict, ToolEnabled, NormalizedRules;
    ToolIDsAreClean();
  }

  const BANNED := {";", "&&", "||", "|", ">", "<", "`", "$", "\\", "\n", "\r"}

  /** A shell command that is not denied has none of the banned tokens anywhere in its text. */
  lemma NoBannedToken(policy: Policy, sessionID: string, command: string, token: string)
    requires Decide(policy, SHELL, sessionID, command) != Decision.Deny && token in BANNED
    ensures forall i: nat :: !FoundAt(Trim(command), token, i)
  {
    AllowedHasNoShellSyntax(policy, sessionID, command);
    hide Trim, Decide, Contains, FoundAt;
    BannedIsUnsafe(token);
    var k :| 0 <= k < |UNSAFE_TOKENS| && UNSAFE_TOKENS[k] == token;
    ContainsIsSubstring(Trim(command), UNSAFE_TOKENS[k]);
  }

  lemma BannedIsUnsafe(token: string)
    requires token in BANNED
    ensures exists k :: 0 <= k < |UNSAFE_TOKENS| && UNSAFE_TOKENS[k] == token
  {
    var u := UNSAFE_TOKENS;
    assert u[0] == ";" && u[1] == "&&" && u[2] == "||" && u[3] == "|" && u[4] == ">" && u[5] == "<" && u[6] == "`" && u[7] == "$"
           && u[8] == "\\" && u[9] == "\n" && u[10] == "\r";
  }

  // ------------------------------------------------------ what may change

  ghost predicate OnlyAllowed(w: World, w': World, policy: Policy) {
    && w'.tabs == w.tabs
    && w.effects <= w'.effects
    && forall k :: |w.effects| <= k < |w'.effects| ==> Allowed(policy, w.tabs, w'.effects[k])
  }

  ghost predicate Forward(w: World, w': World, policy: Policy) {
    && OnlyAllowed(w, w', policy)
    && w.clock <= w'.clock
    && w.sent <= w'.sent
    && DecidesAlike(w.ai.policy, w'.ai.policy)
  }

  ghost predicate Quiet(w: World, w': World) {
    && Listed(w') == Listed(w) && w'.asked == w.asked
    && (w'.ai.pendingCall == w.ai.pendingCall || w'.ai.pendingCall.None?)
  }

  /** The saved call writes the file the request shows to the user. */
  predicate NamesPath(pending: PendingCall, r: CommandRequest) {
    pending.arguments.Object? && Trim(Field(pending.arguments.fields, "path")) == r.command
  }

  /** Exactly one request was raised, with a fresh identifier and a saved continuation. */
  ghost predicate Raised(w: World, w': World) {
    && |w'.asked| == |w.asked| + 1 && w.asked == w'.asked[..|w.asked|]
    && var r := w'.asked[|w.asked|];
    && Listed(w') == Listed(w) + [r]
    && CleanRequests([r])
    && (exists k :: w.clock <= k < w'.clock && r.id == RequestID(k))
    && Holds(w'.ai, r.id) && Matches(w'.ai.pendingCall.value, r)
    && (r.toolID == SHELL || (r.toolID == SFTP_WRITE && NamesPath(w'.ai.pendingCall.value, r)))
  }

  ghost predicate Progress(w: World, w': World, policy: Policy) {
    Forward(w, w', policy) && (Quiet(w, w') || Raised(w, w'))
  }

  lemma ForwardTransitive(a: World, b: World, c: World, policy: Policy)
    requires Forward(a, b, policy) && Forward(b, c, policy)
    ensures Forward(a, c, policy)
  {
    hide Allowed, Decide;
  }

  lemma StillAlike(w: World, w': World, policy: Policy)
    requires Forward(w, w', policy) && DecidesAlike(w.ai.policy, policy)
    ensures DecidesAlike(w'.ai.policy, policy)
  {
    hide OnlyAllowed, Decide;
  }

  lemma QuietThenProgress(a: World, b: World, c: World, policy: Policy)
    requires Forward(a, b, policy) && Quiet(a, b) && Progress(b, c, policy)
    ensures Progress(a, c, policy)
    ensures Quiet(b, c) ==> Quiet(a, c)
  {
    ForwardTransitive(a, b, c, policy);
    hide Forward, Listed, CleanRequests, Matches, RequestID;
    assert a.clock <= b.clock by { ClockForward(a, b, policy); }
  }

  lemma ClockForward(a: World, b: World, policy: Policy)
    requires Forward(a, b, policy)
    ensures a.clock <= b.clock
  {
  }

  lemma QuietIsReflexive(w: World, policy: Policy)
    ensures Forward(w, w, policy) && Quiet(w, w)
  {
    hide Listed, Decide;
  }

  // ------------------------------------------------------------ dispatch

  lemma ToolIDsAreClean()
    ensures Key(SHELL) == SHELL && Key(SFTP_WRITE) == SFTP_WRITE && SHELL != "" && SFTP_WRITE != "" && SHELL != SFTP_WRITE
  {
    hide Key;
    KeyOfClean(SHELL);
    KeyOfClean(SFTP_WRITE);
  }

  lemma RequestIDIsTrimmed(k: nat)
    ensures Trim(RequestID(k)) == RequestID(k) && RequestID(k) != ""
  {
    hide Trim;
    NumberedIsTrimmed("cmdreq-", k);
  }

  lemma FreshRequestIsClean(k: nat, toolID: string, sessionID: string, command: string, reason: string)
    requires toolID == SHELL || toolID == SFTP_WRITE
    requires command != ""
    requires Trim(sessionID) == sessionID && Trim(command) == command && Trim(reason) == reason
    ensures CleanRequests([CommandRequest(RequestID(k), toolID, sessionID, command, reason, Decimal(k))])
  {
    RequestIDIsTrimmed(k);
    ToolIDsAreClean();
    hide Trim, Key, RequestID;
    assert Trimmed(Decimal(k));
    TrimOfTrimmed(Decimal(k));
  }

  lemma AppendCleanRequest(requests: seq<CommandRequest>, r: CommandRequest)
    requires CleanRequests([r])
    ensures NormalizedRequests(NormalizedRequests(requests) + [r]) == NormalizedRequests(requests) + [r]
  {
    hide UsableRequest, CleanRequest, NormalizedRequests;
    NormalizedRequestsAreClean(requests);
    assert UsableRequest([r][0]) && CleanRequest([r][0]) == [r][0];
    CleanRequestsStay(NormalizedRequests(requests) + [r]);
  }

  lemma ListingKeepsDecisions(policy: Policy, pending: seq<CommandRequest>)
    ensures DecidesAlike(policy, Normalized(policy).(pending := pending))
  {
    hide Decide, Normalized;
    NormalizedDecidesAlike(policy);
    SameRulesDecideAlike(Normalized(policy), Normalized(policy).(pending := pending));
  }

  lemma SuspendProgress(env: Environment, w: World, call: ToolCall, ctx: Context, toolID: string, sessionID: string,
                        command: string, reason: string, messages: seq<Message>)
    requires PolicyToolID(call.name) == toolID && (toolID == SHELL || toolID == SFTP_WRITE)
    requires toolID == SFTP_WRITE ==> call.arguments.Object? && Trim(Field(call.arguments.fields, "path")) == command
    requires command != "" && Trim(sessionID) == sessionID && Trim(command) == command && Trim(reason) == reason
    ensures var d := Suspend(env, w, call, ctx, toolID, sessionID, command, reason, messages);
            && Forward(w, d.world, ctx.policy)
            && d.failed == !d.pending
            && (d.pending ==> Raised(w, d.world))
            && (!d.pending ==> Quiet(w, d.world))
  {
    hide Trim, Decide, NormalizedRequests, NormalizedTools, PolicyToolID, Decimal, CleanRequests, DecidesAlike, Allowed, RequestID;
    var r := CommandRequest(RequestID(w.clock), toolID, sessionID, command, reason, Decimal(w.clock));
    FreshRequestIsClean(w.clock, toolID, sessionID, command, reason);
    AppendCleanRequest(w.ai.policy.pending, r);
    ListingKeepsDecisions(w.ai.policy, Normalized(w.ai.policy).pending + [r]);
    SameRulesDecideAlike(w.ai.policy, w.ai.policy);
    var d := Suspend(env, w, call, ctx, toolID, sessionID, command, reason, messages);
    if d.pending {
      assert d.world.asked == w.asked + [r] && d.world.asked[..|w.asked|] == w.asked;
      assert w.clock <= w.clock < d.world.clock && r.id == RequestID(w.clock);
    }
  }

  /** What one dispatch may change: a suspension raises one request, anything else raises none. */
  ghost predicate DispatchOK(w: World, d: Dispatched, policy: Policy) {
    && Forward(w, d.world, policy)
    && (d.pending ==> Raised(w, d.world) && !d.failed)
    && (!d.pending ==> Quiet(w, d.world))
  }

  lemma AnsweredOK(w: World, result: ToolResult, policy: Policy)
    ensures DispatchOK(w, Answered(w, result), policy)
  {
    hide Forward, Quiet;
    QuietIsReflexive(w, policy);
  }

  lemma ExecuteForward(env: Environment, w: World, sessionID: string, command: string, policy: Policy)
    requires Decide(policy, SHELL, sessionID, command) == Decision.Allow
    ensures var w' := Execute(env, w, sessionID, command, Automatic).0;
            Forward(w, w', policy) && Quiet(w, w')
  {
    hide Trim, Decide, DecidesAlike, ConnectedSSH, Listed, ContainsUnsafeShellSyntax, NormalizedRequests;
    DecideTrims(policy, sessionID, command);
    AllowedHasNoShellSyntax(policy, sessionID, command);
    SameRulesDecideAlike(w.ai.policy, w.ai.policy);
    ListedOfPolicy(w, Execute(env, w, sessionID, command, Automatic).0);
  }

  lemma ExecOK(env: Environment, w: World, call: ToolCall, ctx: Context, messages: seq<Message>)
    requires KindOf(call.name) == ExecTool
    ensures DispatchOK(w, DispatchExec(env, w, call, ctx, messages), ctx.policy)
  {
    hide Trim, Decide, Forward, Quiet, Raised, Suspend, Execute, KindOf;
    QuietIsReflexive(w, ctx.policy);
    var fields := Decode(call.arguments, {"sessionId", "command", "reason"});
    if fields.Some? {
      var active := Trim(ctx.activeSessionID);
      var session := if Trim(Field(fields.value, "sessionId")) == "" then active else Trim(Field(fields.value, "sessionId"));
      var command := Trim(Field(fields.value, "command"));
      var reason := Trim(Field(fields.value, "reason"));
      TrimIdempotent(ctx.activeSessionID);
      TrimIdempotent(Field(fields.value, "sessionId"));
      TrimIdempotent(Field(fields.value, "command"));
      TrimIdempotent(Field(fields.value, "reason"));
      if session != "" && command != "" && (active == "" || session == active) {
        match Decide(ctx.policy, SHELL, session, command)
        case Deny =>
        case Allow => ExecuteForward(env, w, session, command, ctx.policy);
        case Ask => SuspendProgress(env, w, call, ctx, SHELL, session, command, reason, messages);
      }
    }
  }

  lemma WriteToolID(name: string)
    requires KindOf(name) == WriteTool
    ensures PolicyToolID(name) == SFTP_WRITE
  {
  }

  lemma WriteSuspends(env: Environment, w: World, call: ToolCall, ctx: Context, sessionID: string, path: string, reason: string,
                      messages: seq<Message>)
    requires KindOf(call.name) == WriteTool
    requires call.arguments.Object? && Trim(Field(call.arguments.fields, "path")) == path
    requires path != "" && Trim(sessionID) == sessionID && Trim(path) == path && Trim(reason) == reason
    ensures DispatchOK(w, Suspend(env, w, call, ctx, SFTP_WRITE, sessionID, path, reason, messages), ctx.policy)
  {
    WriteToolID(call.name);
    hide Trim, Forward, Quiet, Raised, Suspend, PolicyToolID, KindOf;
    SuspendProgress(env, w, call, ctx, SFTP_WRITE, sessionID, path, reason, messages);
  }

  lemma WriteOK(env: Environment, w: World, call: ToolCall, ctx: Context, messages: seq<Message>)
    requires KindOf(call.name) == WriteTool
    ensures DispatchOK(w, DispatchWrite(env, w, call, ctx, messages), ctx.policy)
  {
    hide Trim, DispatchOK, Answered, Suspend, ToolEnabled, Utf8Length, KindOf, FindTab, Field, StrictlyConnected;
    forall refusal ensures DispatchOK(w, Answered(w, Refused(refusal)), ctx.policy) {
      AnsweredOK(w, Refused(refusal), ctx.policy);
    }
    var fields := Decode(call.arguments, WRITE_SCHEMA);
    if fields.Some? {
      TrimIdempotent(ctx.activeSessionID);
      TrimIdempotent(Field(fields.value, "sessionId"));
      TrimIdempotent(Field(fields.value, "path"));
      TrimIdempotent(Field(fields.value, "reason"));
      var active := Trim(ctx.activeSessionID);
      var session := if Trim(Field(fields.value, "sessionId")) == "" then active else Trim(Field(fields.value, "sessionId"));
      var path := Trim(Field(fields.value, "path"));
      if path != "" {
        WriteSuspends(env, w, call, ctx, session, path, Trim(Field(fields.value, "reason")), messages);
      }
    }
  }

  lemma {:induction false} NoneBlocked(policy: Policy, sessionID: string, i: nat)
    requires i <= |CHECKS| && FirstBlocked(policy, sessionID, i).None?
    ensures forall j :: i <= j < |CHECKS| ==> Decide(policy, SHELL, sessionID, CHECKS[j]) == Decision.Allow
    decreases |CHECKS| - i
  {
    hide Decide;
    if i < |CHECKS| {
      NoneBlocked(policy, sessionID, i + 1);
    }
  }

  lemma {:induction false} RunChecksForward(env: Environment, w: World, sessionID: string, i: nat, runs: seq<Execution>, policy: Policy)
    requires i <= |CHECKS|
    requires forall j :: i <= j < |CHECKS| ==> Decide(policy, SHELL, sessionID, CHECKS[j]) == Decision.Allow
    ensures var w' := RunChecks(env, w, sessionID, i, runs).0;
            Forward(w, w', policy) && Quiet(w, w')
    decreases |CHECKS| - i
  {
    hide Decide, Forward, Quiet, Execute;
    if i == |CHECKS| {
      QuietIsReflexive(w, policy);
    } else {
      var (w1, execution) := Execute(env, w, sessionID, CHECKS[i], Automatic);
      ExecuteForward(env, w, sessionID, CHECKS[i], policy);
      RunChecksForward(env, w1, sessionID, i + 1, runs + [execution], policy);
      QuietThenProgress(w, w1, RunChecks(env, w1, sessionID, i + 1, runs + [execution]).0, policy);
    }
  }

  lemma DiagnosticsOK(env: Environment, w: World, call: ToolCall, ctx: Context)
    ensures DispatchOK(w, DispatchDiagnostics(env, w, call, ctx), ctx.policy)
  {
    hide Trim, Forward, Quiet, ToolEnabled, Decide, FirstBlocked, RunChecks;
    QuietIsReflexive(w, ctx.policy);
    var fields := Decode(call.arguments, {"sessionId", "operation"});
    if fields.Some? {
      var session := if Trim(Field(fields.value, "sessionId")) == "" then Trim(ctx.activeSessionID) else Trim(Field(fields.value, "sessionId"));
      if FirstBlocked(ctx.policy, session, 0).None? {
        NoneBlocked(ctx.policy, session, 0);
        RunChecksForward(env, w, session, 0, [], ctx.policy);
      }
    }
  }

  ghost predicate AllChecksAllowed(policy: Policy, sessionID: string) {
    forall j :: 0 <= j < |CHECKS| ==> Decide(policy, SHELL, sessionID, CHECKS[j]) == Decision.Allow
  }

  /** The checks from `i` on, as they reach the executor. */
  function CheckEffects(tabs: seq<Tab>, sessionID: string, i: nat): seq<Effect>
    requires i <= |CHECKS|
  {
    if sessionID == "" || !ConnectedSSH(tabs, sessionID) then []
    else seq(|CHECKS| - i, j requires 0 <= j < |CHECKS| - i => RanCommand(sessionID, CHECKS[i + j], Automatic))
  }

  lemma CheckIsTrimmed(i: nat)
    requires i < |CHECKS|
    ensures Trim(CHECKS[i]) == CHECKS[i] && CHECKS[i] != ""
  {
    hide Trim;
    TrimOfTrimmed(CHECKS[i]);
  }

  lemma OneCheckFirst(tabs: seq<Tab>, sessionID: string, i: nat)
    requires i < |CHECKS| && sessionID != "" && ConnectedSSH(tabs, sessionID)
    ensures CheckEffects(tabs, sessionID, i) == [RanCommand(sessionID, CHECKS[i], Automatic)] + CheckEffects(tabs, sessionID, i + 1)
  {
    hide ConnectedSSH;
    var all, rest := CheckEffects(tabs, sessionID, i), CheckEffects(tabs, sessionID, i + 1);
    assert |all| == |rest| + 1;
    forall j | 0 < j < |all| ensures all[j] == rest[j - 1] {
      assert CHECKS[i + j] == CHECKS[i + 1 + (j - 1)];
    }
  }

  lemma {:induction false} RunChecksEffects(env: Environment, w: World, sessionID: string, i: nat, runs: seq<Execution>)
    requires i <= |CHECKS| && Trim(sessionID) == sessionID
    ensures RunChecks(env, w, sessionID, i, runs).0.effects == w.effects + CheckEffects(w.tabs, sessionID, i)
    decreases |CHECKS| - i
  {
    hide Trim, ConnectedSSH, CheckEffects;
    if i < |CHECKS| {
      CheckIsTrimmed(i);
      var (w1, execution) := Execute(env, w, sessionID, CHECKS[i], Automatic);
      RunChecksEffects(env, w1, sessionID, i + 1, runs + [execution]);
      if sessionID != "" && ConnectedSSH(w.tabs, sessionID) {
        OneCheckFirst(w.tabs, sessionID, i);
      } else {
        NoChecks(w.tabs, sessionID, i);
        NoChecks(w.tabs, sessionID, i + 1);
      }
    } else {
      AllChecked(w.tabs, sessionID);
    }
  }

  lemma NoChecks(tabs: seq<Tab>, sessionID: string, i: nat)
    requires i <= |CHECKS| && (sessionID == "" || !ConnectedSSH(tabs, sessionID))
    ensures CheckEffects(tabs, sessionID, i) == []
  {
  }

  lemma AllChecked(tabs: seq<Tab>, sessionID: string)
    ensures CheckEffects(tabs, sessionID, |CHECKS|) == []
  {
  }

  /** Diagnostics run nothing, or all six checks are allowed and exactly those six run, in order. */
  lemma DiagnosticsAllOrNothing(env: Environment, w: World, call: ToolCall, ctx: Context)
    ensures var w' := DispatchDiagnostics(env, w, call, ctx).world;
            w'.effects == w.effects
            || exists session :: AllChecksAllowed(ctx.policy, session) && w'.effects == w.effects + CheckEffects(w.tabs, session, 0)
  {
    hide Trim, ToolEnabled, Decide, FirstBlocked, RunChecks, CheckEffects;
    var fields := Decode(call.arguments, {"sessionId", "operation"});
    if fields.Some? {
      var session := if Trim(Field(fields.value, "sessionId")) == "" then Trim(ctx.activeSessionID) else Trim(Field(fields.value, "sessionId"));
      TrimIdempotent(ctx.activeSessionID);
      TrimIdempotent(Field(fields.value, "sessionId"));
      if FirstBlocked(ctx.policy, session, 0).None? {
        NoneBlocked(ctx.policy, session, 0);
        assert AllChecksAllowed(ctx.policy, session);
        RunChecksEffects(env, w, session, 0, []);
      }
    }
  }

  lemma DispatchIsOK(env: Environment, w: World, call: ToolCall, ctx: Context, messages: seq<Message>)
    requires DecidesAlike(w.ai.policy, ctx.policy)
    ensures DispatchOK(w, Dispatch(env, w, call, ctx, messages), ctx.policy)
  {
    hide DispatchOK, DispatchExec, DispatchWrite, DispatchLook, DispatchDiagnostics, DecidesAlike, KindOf;
    AnsweredOK(w, Refused(UnknownTool), ctx.policy);
    FailedOK(w, ctx.policy);
    match KindOf(call.name)
    case ExecTool => ExecOK(env, w, call, ctx, messages);
    case DiagnosticsTool => DiagnosticsOK(env, w, call, ctx);
    case WriteTool => WriteOK(env, w, call, ctx, messages);
    case LookTool => LookOK(env, w, call, ctx);
    case OtherTool =>
  }

  lemma FailedOK(w: World, policy: Policy)
    ensures DispatchOK(w, Dispatched(w, NoResult, false, true), policy)
  {
    hide Forward, Quiet;
    QuietIsReflexive(w, policy);
  }

  lemma LookOK(env: Environment, w: World, call: ToolCall, ctx: Context)
    requires DecidesAlike(w.ai.policy, ctx.policy) && KindOf(call.name) == LookTool
    ensures DispatchOK(w, DispatchLook(env, w, call, ctx), ctx.policy)
  {
    hide Listed, Decide, Trim, Field, FindTab, ToolEnabled, StrictlyConnected, KindOf;
    var w' := DispatchLook(env, w, call, ctx).world;
    SameRulesDecideAlike(w.ai.policy, w.ai.policy);
    ListedOfPolicy(w, w');
  }

  /** Whatever path is looked at, it is in the conversation's session, and only a call that says so or names none gets there. */
  lemma LooksInActiveSession(env: Environment, w: World, call: ToolCall, ctx: Context)
    ensures var d, active := DispatchLook(env, w, call, ctx), Trim(ctx.activeSessionID);
            d.world.effects != w.effects <==>
              && ToolEnabled(w.ai.policy.tools, SFTP) && active != ""
              && FindTab(w.tabs, active).Some? && StrictlyConnected(FindTab(w.tabs, active).value)
              && call.arguments.Object? && call.arguments.fields.Keys <= {"sessionId", "path"}
              && Trim(Field(call.arguments.fields, "path")) != ""
              && Trim(Field(call.arguments.fields, "sessionId")) in {"", active}
  {
    hide Trim, FindTab, ToolEnabled, StrictlyConnected, Field;
  }

  lemma ListedOfPolicy(a: World, b: World)
    requires a.ai.policy.pending == b.ai.policy.pending
    ensures Listed(a) == Listed(b)
  {
  }

  // ---------------------------------------------------------------- loop

  ghost predicate BatchOK(w: World, end: BatchEnd, policy: Policy) {
    match end
    case Continue(w', _, _) => Forward(w, w', policy) && Quiet(w, w')
    case Stop(w', _, outcome) => Progress(w, w', policy) && !outcome.Replied?
  }

  lemma {:induction false} BatchIsOK(env: Environment, w: World, ctx: Context, calls: seq<ToolCall>, i: nat,
                                     messages: seq<Message>, events: seq<Event>)
    requires i <= |calls| && DecidesAlike(w.ai.policy, ctx.policy)
    ensures BatchOK(w, RunBatch(env, w, ctx, calls, i, messages, events), ctx.policy)
    decreases |calls| - i
  {
    hide Forward, Quiet, Raised, Dispatch, ApprovalEvents, DecidesAlike;
    if i == |calls| {
      QuietIsReflexive(w, ctx.policy);
    } else {
      DispatchIsOK(env, w, calls[i], ctx, messages);
      var d := Dispatch(env, w, calls[i], ctx, messages);
      if !d.failed && !d.pending {
        var shown := events + [ToolStarted(calls[i].name)] + OutputEvents(calls[i].name, d.result);
        var messages' := messages + [AnswerTo(calls[i], d.result)];
        var events' := shown + [ToolFinished(calls[i].name)];
        StillAlike(w, d.world, ctx.policy);
        BatchIsOK(env, d.world, ctx, calls, i + 1, messages', events');
        var end := RunBatch(env, d.world, ctx, calls, i + 1, messages', events');
        QuietThenProgress(w, d.world, end.world, ctx.policy);
      }
    }
  }

  lemma FinishProgress(env: Environment, w: World, ctx: Context, content: string, events: seq<Event>)
    ensures var end := Finish(env, w, ctx, content, events);
            Forward(w, end.world, ctx.policy) && Quiet(w, end.world)
  {
    hide Listed, Decide, Trim;
    QuietIsReflexive(w, ctx.policy);
    var end := Finish(env, w, ctx, content, events);
    ListedOfPolicy(w, end.world);
  }

  lemma SentProgress(w: World, messages: seq<Message>, policy: Policy)
    ensures Forward(w, w.(sent := w.sent + [messages]), policy) && Quiet(w, w.(sent := w.sent + [messages]))
  {
    hide Listed, Decide;
    ListedOfPolicy(w, w.(sent := w.sent + [messages]));
  }

  /** A whole loop run makes progress and sends at most one message list per remaining turn. */
  lemma {:induction false} TurnsProgress(env: Environment, w: World, ctx: Context, turn: nat, messages: seq<Message>, events: seq<Event>)
    requires turn <= MAX_TURNS && DecidesAlike(w.ai.policy, ctx.policy)
    ensures var end := RunTurns(env, w, ctx, turn, messages, events);
            Progress(w, end.world, ctx.policy)
    decreases MAX_TURNS - turn
  {
    hide Forward, Quiet, Raised, RunBatch, Finish, DecidesAlike;
    if turn == MAX_TURNS {
      QuietIsReflexive(w, ctx.policy);
    } else {
      var w1 := w.(sent := w.sent + [messages]);
      SentProgress(w, messages, ctx.policy);
      var reply := env.completion(|w.sent|);
      if reply.Some? {
        var asked := messages + [Message(Assistant, Words(reply.value.content), "", reply.value.toolCalls)];
        if reply.value.toolCalls == [] {
          FinishProgress(env, w1, ctx, reply.value.content, events);
          QuietThenProgress(w, w1, Finish(env, w1, ctx, reply.value.content, events).world, ctx.policy);
        } else if ctx.toolsOn {
          BatchIsOK(env, w1, ctx, reply.value.toolCalls, 0, asked, events);
          var end := RunBatch(env, w1, ctx, reply.value.toolCalls, 0, asked, events);
          QuietThenProgress(w, w1, end.world, ctx.policy);
          if end.Continue? {
            StillAlike(w, end.world, ctx.policy);
            TurnsProgress(env, end.world, ctx, turn + 1, end.messages, end.events);
            QuietThenProgress(w, end.world, RunTurns(env, end.world, ctx, turn + 1, end.messages, end.events).world, ctx.policy);
          }
        }
      }
    }
  }

  // -------------------------------------------------- where paths are read

  /** Every path looked at on the way from `w` to `w'` is in the session. */
  ghost predicate LooksIn(w: World, w': World, session: string) {
    && w.effects <= w'.effects
    && forall k :: |w.effects| <= k < |w'.effects| && w'.effects[k].LookedAt? ==> w'.effects[k].sessionID == session != ""
  }

  lemma LooksInThen(a: World, b: World, c: World, session: string)
    requires LooksIn(a, b, session) && LooksIn(b, c, session)
    ensures LooksIn(a, c, session)
  {
  }

  lemma {:induction false} ChecksLookNowhere(env: Environment, w: World, sessionID: string, i: nat, runs: seq<Execution>, session: string)
    requires i <= |CHECKS|
    ensures LooksIn(w, RunChecks(env, w, sessionID, i, runs).0, session)
    decreases |CHECKS| - i
  {
    hide Trim, ConnectedSSH;
    if i < |CHECKS| {
      var (w1, execution) := Execute(env, w, sessionID, CHECKS[i], Automatic);
      ChecksLookNowhere(env, w1, sessionID, i + 1, runs + [execution], session);
    }
  }

  lemma DispatchLooksIn(env: Environment, w: World, call: ToolCall, ctx: Context, messages: seq<Message>)
    ensures LooksIn(w, Dispatch(env, w, call, ctx, messages).world, Trim(ctx.activeSessionID))
  {
    hide DispatchExec, DispatchDiagnostics, DispatchWrite, DispatchLook, KindOf, Trim;
    match KindOf(call.name)
    case ExecTool => ExecLooksNowhere(env, w, call, ctx, messages);
    case DiagnosticsTool => DiagnosticsLookNowhere(env, w, call, ctx);
    case LookTool => LookStaysIn(env, w, call, ctx);
    case WriteTool => WriteLooksNowhere(env, w, call, ctx, messages);
    case OtherTool =>
  }

  lemma ExecLooksNowhere(env: Environment, w: World, call: ToolCall, ctx: Context, messages: seq<Message>)
    ensures LooksIn(w, DispatchExec(env, w, call, ctx, messages).world, Trim(ctx.activeSessionID))
  {
    hide Trim, Decide, Field, ConnectedSSH, Normalized, RequestID, Decimal;
  }

  lemma WriteLooksNowhere(env: Environment, w: World, call: ToolCall, ctx: Context, messages: seq<Message>)
    ensures LooksIn(w, DispatchWrite(env, w, call, ctx, messages).world, Trim(ctx.activeSessionID))
  {
    hide Trim, Field, Normalized, RequestID, Decimal, Utf8Length, FindTab, StrictlyConnected, ToolEnabled;
  }

  lemma LookStaysIn(env: Environment, w: World, call: ToolCall, ctx: Context)
    ensures LooksIn(w, DispatchLook(env, w, call, ctx).world, Trim(ctx.activeSessionID))
  {
    hide Trim, Field, FindTab, StrictlyConnected, ToolEnabled;
  }

  lemma DiagnosticsLookNowhere(env: Environment, w: World, call: ToolCall, ctx: Context)
    ensures LooksIn(w, DispatchDiagnostics(env, w, call, ctx).world, Trim(ctx.activeSessionID))
  {
    hide Trim, Field, FirstBlocked, RunChecks, ToolEnabled;
    var fields := Decode(call.arguments, {"sessionId", "operation"});
    if fields.Some? {
      var session := if Trim(Field(fields.value, "sessionId")) == "" then Trim(ctx.activeSessionID) else Trim(Field(fields.value, "sessionId"));
      ChecksLookNowhere(env, w, session, 0, [], Trim(ctx.activeSessionID));
    }
  }

  lemma {:induction false} BatchLooksIn(env: Environment, w: World, ctx: Context, calls: seq<ToolCall>, i: nat,
                                        messages: seq<Message>, events: seq<Event>)
    requires i <= |calls|
    ensures LooksIn(w, RunBatch(env, w, ctx, calls, i, messages, events).world, Trim(ctx.activeSessionID))
    decreases |calls| - i
  {
    hide LooksIn, Dispatch, ApprovalEvents, OutputEvents, Trim;
    var session := Trim(ctx.activeSessionID);
    if i == |calls| {
      LooksNowhere(w, w, session);
    } else {
      var d := Dispatch(env, w, calls[i], ctx, messages);
      DispatchLooksIn(env, w, calls[i], ctx, messages);
      if !d.failed && !d.pending {
        var messages' := messages + [AnswerTo(calls[i], d.result)];
        var events' := events + [ToolStarted(calls[i].name)] + OutputEvents(calls[i].name, d.result) + [ToolFinished(calls[i].name)];
        BatchLooksIn(env, d.world, ctx, calls, i + 1, messages', events');
        LooksInThen(w, d.world, RunBatch(env, d.world, ctx, calls, i + 1, messages', events').world, session);
      }
    }
  }

  lemma LooksNowhere(w: World, w': World, session: string)
    requires w'.effects == w.effects
    ensures LooksIn(w, w', session)
  {
  }

  /** A loop reads remote paths in the session its conversation is about and in no other. */
  lemma {:induction false} TurnsLookIn(env: Environment, w: World, ctx: Context, turn: nat, messages: seq<Message>, events: seq<Event>)
    requires turn <= MAX_TURNS
    ensures LooksIn(w, RunTurns(env, w, ctx, turn, messages, events).world, Trim(ctx.activeSessionID))
    decreases MAX_TURNS - turn
  {
    hide LooksIn, RunBatch, Trim;
    var session, end := Trim(ctx.activeSessionID), RunTurns(env, w, ctx, turn, messages, events);
    if end.world.effects == w.effects {
      LooksNowhere(w, end.world, session);
    } else {
      var w1, reply := w.(sent := w.sent + [messages]), env.completion(|w.sent|).value;
      LooksNowhere(w, w1, session);
      var asked := messages + [Message(Assistant, Words(reply.content), "", reply.toolCalls)];
      BatchLooksIn(env, w1, ctx, reply.toolCalls, 0, asked, events);
      var batch := RunBatch(env, w1, ctx, reply.toolCalls, 0, asked, events);
      LooksInThen(w, w1, batch.world, session);
      if batch.Continue? {
        TurnsLookIn(env, batch.world, ctx, turn + 1, batch.messages, batch.events);
        LooksInThen(w, batch.world, end.world, session);
      }
    }
  }
}
