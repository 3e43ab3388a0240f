/**
 What each tool call does exactly, what the model is told of it, and where a
 reply comes from: the other half of the safety theorems, which only say what
 does not happen.
 */
module ToolResults {
  import opened Text
  import opened CommandPolicy
  import opened PolicyTheorems
  import opened ToolCalling
  import opened LoopFacts

  // ------------------------------------------------------------- arguments

  /** The decoded fields of a call, when its arguments are an object with no other fields. */
  predicate Fits(call: ToolCall, schema: set<string>) {
    call.arguments.Object? && call.arguments.fields.Keys <= schema
  }

  /** A trimmed argument; a missing one is empty. */
  function Given(call: ToolCall, name: string): string
    requires call.arguments.Object?
  {
    if name in call.arguments.fields then Trim(call.arguments.fields[name]) else ""
  }

  /** The session a call is about: the one it names, else the conversation's. */
  function Target(call: ToolCall, ctx: Context): string
    requires call.arguments.Object?
  {
    if Given(call, "sessionId") != "" then Given(call, "sessionId") else Trim(ctx.activeSessionID)
  }

  /** The session is there, and is the conversation's if that has one. */
  predicate OnTarget(call: ToolCall, ctx: Context)
    requires call.arguments.Object?
  {
    Target(call, ctx) != "" && (Trim(ctx.activeSessionID) == "" || Target(call, ctx) == Trim(ctx.activeSessionID))
  }

  lemma GivenIsField(call: ToolCall, name: string)
    requires call.arguments.Object?
    ensures Trim(Field(call.arguments.fields, name)) == Given(call, name)
    ensures Trim(Given(call, name)) == Given(call, name)
  {
    hide Trim;
    TrimOfTrimmed("");
    TrimIdempotent(Field(call.arguments.fields, name));
  }

  predicate IsCall(call: ToolCall, name: string) {
    call.name == name && (call.kind == "function" || call.kind == "")
  }

  /** The host of a session is there: the first tab with that identifier is a connected SSH session, whatever the case of the words. */
  ghost predicate HostIsThere(tabs: seq<Tab>, id: string) {
    exists i :: 0 <= i < |tabs| && tabs[i].id == id && Key(tabs[i].protocolID) == "ssh" && Key(tabs[i].status) == "connected"
                && forall j :: 0 <= j < i ==> tabs[j].id != id
  }

  lemma {:induction false} ConnectedExactly(tabs: seq<Tab>, id: string)
    ensures ConnectedSSH(tabs, id) <==> HostIsThere(tabs, id)
  {
    hide Key;
    if tabs != [] {
      if tabs[0].id == id {
        assert HostIsThere(tabs, id) <==> Key(tabs[0].protocolID) == "ssh" && Key(tabs[0].status) == "connected";
      } else {
        ConnectedExactly(tabs[1..], id);
        if HostIsThere(tabs[1..], id) {
          var i :| 0 <= i < |tabs[1..]| && tabs[1..][i].id == id && Key(tabs[1..][i].protocolID) == "ssh" && Key(tabs[1..][i].status) == "connected"
                   && forall j :: 0 <= j < i ==> tabs[1..][j].id != id;
          forall j | 0 <= j < i + 1 ensures tabs[j].id != id {
            if j > 0 {
              assert tabs[1..][j - 1].id != id;
            }
          }
          assert tabs[i + 1] == tabs[1..][i];
        }
        if HostIsThere(tabs, id) {
          var i :| 0 <= i < |tabs| && tabs[i].id == id && Key(tabs[i].protocolID) == "ssh" && Key(tabs[i].status) == "connected"
                   && forall j :: 0 <= j < i ==> tabs[j].id != id;
          assert tabs[1..][i - 1] == tabs[i];
        }
      }
    }
  }

  /** The bytes of a text: as many as characters exactly when it is ASCII, and never more than four for each. */
  lemma {:induction false} BytesOfText(s: string)
    ensures |s| <= Utf8Length(s) <= 4 * |s|
    ensures Utf8Length(s) == |s| <==> forall i :: 0 <= i < |s| ==> s[i] as int < 0x80
  {
    if s != "" {
      BytesOfText(s[1..]);
      assert s == [s[0]] + s[1..];
    }
  }

  // ------------------------------------------------------------------ ssh.exec

  predicate ExecReady(call: ToolCall, ctx: Context) {
    Fits(call, {"sessionId", "command", "reason"}) && OnTarget(call, ctx) && Given(call, "command") != ""
  }

  lemma ExecArguments(call: ToolCall, ctx: Context)
    requires call.arguments.Object?
    ensures Trim(Field(call.arguments.fields, "sessionId")) == Given(call, "sessionId")
    ensures Trim(Field(call.arguments.fields, "command")) == Given(call, "command")
    ensures Trim(Field(call.arguments.fields, "reason")) == Given(call, "reason")
    ensures Trim(Target(call, ctx)) == Target(call, ctx) && Trim(Given(call, "command")) == Given(call, "command")
  {
    GivenIsField(call, "sessionId");
    GivenIsField(call, "command");
    GivenIsField(call, "reason");
    hide Trim;
    TrimIdempotent(ctx.activeSessionID);
  }

  /** The branches of the ssh.exec dispatch. */
  lemma ExecBranches(env: Environment, w: World, call: ToolCall, ctx: Context, messages: seq<Message>)
    requires IsCall(call, "ssh.exec")
    ensures Dispatch(env, w, call, ctx, messages) ==
            if !Fits(call, {"sessionId", "command", "reason"}) then Answered(w, Refused(InvalidArguments))
            else if Target(call, ctx) == "" || Given(call, "command") == "" then Answered(w, Refused(MissingFields))
            else if !OnTarget(call, ctx) then Answered(w, Refused(WrongSession))
            else
              match Decide(ctx.policy, SHELL, Target(call, ctx), Given(call, "command"))
              case Deny => Answered(w, Refused(DeniedByPolicy))
              case Allow =>
                var (w', execution) := Execute(env, w, Target(call, ctx), Given(call, "command"), Automatic);
                Answered(w', Ran(Target(call, ctx), Given(call, "command"), execution))
              case Ask => Suspend(env, w, call, ctx, SHELL, Target(call, ctx), Given(call, "command"), Given(call, "reason"), messages)
  {
    if call.arguments.Object? {
      ExecArguments(call, ctx);
      TargetIs(call, ctx);
    }
    ExecIsDispatched(env, w, call, ctx, messages);
    FitsIs(call, {"sessionId", "command", "reason"});
    hide Dispatch, Trim, Decide, Execute, Field, Given, Suspend, OnTarget, Target, Fits, IsCall;
  }

  /** What the executor makes of a trimmed command: it runs on a session that is there, and nothing happens otherwise. */
  lemma ExecuteTells(env: Environment, w: World, session: string, command: string)
    requires Trim(session) == session != "" && Trim(command) == command != ""
    ensures Execute(env, w, session, command, Automatic) ==
            if HostIsThere(w.tabs, session) then (w.(effects := w.effects + [RanCommand(session, command, Automatic)]), env.execution(|w.effects|))
            else (w, NOT_RUN)
  {
    ConnectedExactly(w.tabs, session);
    hide Trim, ConnectedSSH, HostIsThere;
  }

  /**
   A call of ssh.exec hands its command to the host exactly when its arguments are
   well formed, its session is the conversation's or the named one, the policy allows
   the command and the session is connected; the answer is then the host's.
   */
  lemma ExecRunsExactly(env: Environment, w: World, call: ToolCall, ctx: Context, messages: seq<Message>)
    requires IsCall(call, "ssh.exec")
    ensures var d := Dispatch(env, w, call, ctx, messages);
            && (d.world.effects != w.effects <==>
                  ExecReady(call, ctx) && HostIsThere(w.tabs, Target(call, ctx))
                  && Decide(ctx.policy, SHELL, Target(call, ctx), Given(call, "command")) == Decision.Allow)
            && (d.world.effects != w.effects ==>
                  d == Dispatched(w.(effects := w.effects + [RanCommand(Target(call, ctx), Given(call, "command"), Automatic)]),
                                  Ran(Target(call, ctx), Given(call, "command"), env.execution(|w.effects|)), false, false))
  {
    ExecBranches(env, w, call, ctx, messages);
    FitsIs(call, {"sessionId", "command", "reason"});
    hide Dispatch, Trim, Decide, Execute, Given, Suspend, OnTarget, Target, Fits, IsCall, HostIsThere;
    if Fits(call, {"sessionId", "command", "reason"}) {
      ExecArguments(call, ctx);
      TargetIs(call, ctx);
      SuspendHasNoEffect(env, w, call, ctx, SHELL, Target(call, ctx), Given(call, "command"), Given(call, "reason"), messages);
      if Target(call, ctx) != "" && Given(call, "command") != "" {
        ExecuteTells(env, w, Target(call, ctx), Given(call, "command"));
      }
    }
  }

  lemma TargetIs(call: ToolCall, ctx: Context)
    requires call.arguments.Object?
    ensures Target(call, ctx) == if Given(call, "sessionId") == "" then Trim(ctx.activeSessionID) else Given(call, "sessionId")
    ensures OnTarget(call, ctx) <==> Target(call, ctx) != "" && (Trim(ctx.activeSessionID) == "" || Target(call, ctx) == Trim(ctx.activeSessionID))
  {
  }

  lemma ExecIsDispatched(env: Environment, w: World, call: ToolCall, ctx: Context, messages: seq<Message>)
    requires IsCall(call, "ssh.exec")
    ensures Dispatch(env, w, call, ctx, messages) == DispatchExec(env, w, call, ctx, messages)
  {
    hide DispatchExec;
  }

  /** What a saved suspension leaves: the request that is shown and the continuation that waits. */
  ghost predicate Suspends(w: World, d: Dispatched, call: ToolCall, ctx: Context, toolID: string, sessionID: string,
                           shown: string, messages: seq<Message>)
    requires call.arguments.Object?
  {
    var request := CommandRequest("cmdreq-" + Decimal(w.clock), toolID, sessionID, shown, Given(call, "reason"), Decimal(w.clock));
    && d.result == ApprovalRequired(request.id)
    && d.world.effects == w.effects && d.world.asked == w.asked + [request] && Listed(d.world) == Listed(w) + [request]
    && d.world.ai.pendingCall == Some(PendingCall(request.id, ctx.providerID, call.id, call.name, call.arguments,
                                                  ctx.userMessage, sessionID, messages))
  }

  /** A call of ssh.exec asks the user exactly when the policy asks and the request can be saved; the request shows that command for that session. */
  lemma ExecAsksExactly(env: Environment, w: World, call: ToolCall, ctx: Context, messages: seq<Message>)
    requires IsCall(call, "ssh.exec")
    ensures var d := Dispatch(env, w, call, ctx, messages);
            && (d.pending <==> ExecReady(call, ctx) && env.succeeds(w.draws)
                               && Decide(ctx.policy, SHELL, Target(call, ctx), Given(call, "command")) == Decision.Ask)
            && (d.pending ==> Suspends(w, d, call, ctx, SHELL, Target(call, ctx), Given(call, "command"), messages))
  {
    ExecBranches(env, w, call, ctx, messages);
    FitsIs(call, {"sessionId", "command", "reason"});
    hide Dispatch, Trim, Decide, Execute, Given, Suspend, Suspends, OnTarget, Target, Fits, IsCall;
    if Fits(call, {"sessionId", "command", "reason"}) && Target(call, ctx) != "" && Given(call, "command") != "" {
      ExecArguments(call, ctx);
      SuspendTells(env, w, call, ctx, SHELL, Target(call, ctx), Given(call, "command"), messages);
    }
  }

  lemma FitsIs(call: ToolCall, schema: set<string>)
    ensures Decode(call.arguments, schema) == if Fits(call, schema) then Some(call.arguments.fields) else None
    ensures Fits(call, schema) ==> call.arguments.Object?
  {
  }

  lemma SuspendTells(env: Environment, w: World, call: ToolCall, ctx: Context, toolID: string, sessionID: string, shown: string,
                     messages: seq<Message>)
    requires call.arguments.Object? && (toolID == SHELL || toolID == SFTP_WRITE)
    requires shown != "" && Trim(sessionID) == sessionID && Trim(shown) == shown
    ensures var d := Suspend(env, w, call, ctx, toolID, sessionID, shown, Given(call, "reason"), messages);
            && (d.pending <==> env.succeeds(w.draws))
            && (d.pending ==> Suspends(w, d, call, ctx, toolID, sessionID, shown, messages))
  {
    GivenIsField(call, "reason");
    hide Trim, Given, NormalizedRequests, NormalizedTools, Decimal, CleanRequests, RequestID;
    FreshRequestIsClean(w.clock, toolID, sessionID, shown, Given(call, "reason"));
    AppendCleanRequest(w.ai.policy.pending,
                       CommandRequest(RequestID(w.clock), toolID, sessionID, shown, Given(call, "reason"), Decimal(w.clock)));
    assert RequestID(w.clock) == "cmdreq-" + Decimal(w.clock) by { IDIs(w.clock); }
  }

  lemma IDIs(clock: nat)
    ensures RequestID(clock) == "cmdreq-" + Decimal(clock)
  {
    hide Decimal;
  }

  // ---------------------------------------------------------------- sftp tools

  /** The tab is a connected SSH session, by the letter. */
  predicate IsLive(tab: Tab) {
    tab.protocolID == "ssh" && tab.status == "connected"
  }

  predicate WriteReady(w: World, call: ToolCall, ctx: Context) {
    && Fits(call, WRITE_SCHEMA) && OnTarget(call, ctx) && Given(call, "path") != ""
    && ToolEnabled(w.ai.policy.tools, SFTP)
    && Utf8Length(Field(call.arguments.fields, "content")) <= 256 * 1024 * 1024
    && FindTab(w.tabs, Target(call, ctx)).Some? && IsLive(FindTab(w.tabs, Target(call, ctx)).value)
  }

  /** A call of sftp.write writes nothing itself; it asks the user exactly when everything is in order and the request can be saved, showing the path. */
  lemma WriteAsksExactly(env: Environment, w: World, call: ToolCall, ctx: Context, messages: seq<Message>)
    requires IsCall(call, "sftp.write")
    ensures var d := Dispatch(env, w, call, ctx, messages);
            && d.world.effects == w.effects
            && (d.pending <==> WriteReady(w, call, ctx) && env.succeeds(w.draws))
            && (d.pending ==> Suspends(w, d, call, ctx, SFTP_WRITE, Target(call, ctx), Given(call, "path"), messages))
  {
    WriteIsDispatched(env, w, call, ctx, messages);
    WriteBranches(env, w, call, ctx, messages);
    hide Trim, Given, Suspend, Suspends, Target, WriteReady, DispatchWrite;
    if WriteReady(w, call, ctx) {
      WriteReadyTells(w, call, ctx);
      SuspendTells(env, w, call, ctx, SFTP_WRITE, Target(call, ctx), Given(call, "path"), messages);
      SuspendHasNoEffect(env, w, call, ctx, SFTP_WRITE, Target(call, ctx), Given(call, "path"), Given(call, "reason"), messages);
    }
  }

  lemma WriteReadyTells(w: World, call: ToolCall, ctx: Context)
    requires WriteReady(w, call, ctx)
    ensures call.arguments.Object? && Given(call, "path") != ""
    ensures Trim(Target(call, ctx)) == Target(call, ctx) && Trim(Given(call, "path")) == Given(call, "path")
  {
    ExecArguments(call, ctx);
    GivenIsField(call, "path");
    hide Trim;
  }

  lemma WriteBranches(env: Environment, w: World, call: ToolCall, ctx: Context, messages: seq<Message>)
    ensures var d := DispatchWrite(env, w, call, ctx, messages);
            if WriteReady(w, call, ctx)
            then d == Suspend(env, w, call, ctx, SFTP_WRITE, Target(call, ctx), Given(call, "path"), Given(call, "reason"), messages)
            else d.result.Refused? && d == Answered(w, d.result)
  {
    if call.arguments.Object? {
      ExecArguments(call, ctx);
      GivenIsField(call, "path");
      TargetIs(call, ctx);
    }
    FitsIs(call, WRITE_SCHEMA);
    hide Trim, Field, Given, Suspend, OnTarget, Target, Fits, Utf8Length, FindTab, ToolEnabled;
  }

  lemma WriteIsDispatched(env: Environment, w: World, call: ToolCall, ctx: Context, messages: seq<Message>)
    requires IsCall(call, "sftp.write")
    ensures Dispatch(env, w, call, ctx, messages) == DispatchWrite(env, w, call, ctx, messages)
  {
    hide DispatchWrite;
  }

  const LOOKS := {"sftp.stat", "sftp.list", "sftp.read"}

  predicate LookReady(w: World, call: ToolCall, ctx: Context) {
    && Fits(call, {"sessionId", "path"}) && OnTarget(call, ctx) && Trim(ctx.activeSessionID) != "" && Given(call, "path") != ""
    && ToolEnabled(w.ai.policy.tools, SFTP)
    && FindTab(w.tabs, Target(call, ctx)).Some? && IsLive(FindTab(w.tabs, Target(call, ctx)).value)
  }

  /** A stat, list or read reaches SFTP exactly when everything is in order, for that path, and the answer is what was found there. */
  lemma LookAnswersExactly(env: Environment, w: World, call: ToolCall, ctx: Context, messages: seq<Message>)
    requires exists name :: name in LOOKS && IsCall(call, name)
    ensures var d := Dispatch(env, w, call, ctx, messages);
            && !d.pending && !d.failed
            && (d.world.effects != w.effects <==> LookReady(w, call, ctx))
            && (LookReady(w, call, ctx) ==>
                  && d.world.effects == w.effects + [LookedAt(Target(call, ctx), Given(call, "path"), call.name)]
                  && d.result == Looked(Target(call, ctx), Given(call, "path"), env.reading(w.draws)))
  {
    if call.arguments.Object? {
      GivenIsField(call, "sessionId");
      GivenIsField(call, "path");
      TargetIs(call, ctx);
    }
    LookIsDispatched(env, w, call, ctx, messages);
    FitsIs(call, {"sessionId", "path"});
    hide Trim, Field, Given, OnTarget, Target, Fits, FindTab, ToolEnabled;
  }

  lemma LookIsDispatched(env: Environment, w: World, call: ToolCall, ctx: Context, messages: seq<Message>)
    requires exists name :: name in LOOKS && IsCall(call, name)
    ensures Dispatch(env, w, call, ctx, messages) == DispatchLook(env, w, call, ctx)
  {
    hide DispatchLook;
  }

  // --------------------------------------------------------------- diagnostics

  predicate DiagnosticsReady(call: ToolCall, ctx: Context) {
    && Fits(call, {"sessionId", "operation"}) && Target(call, ctx) != "" && Given(call, "operation") == "summary"
    && ToolEnabled(ctx.policy.tools, SHELL)
  }

  /** The six checks of a summary. */
  const SIX := ["uname -a", "hostname", "whoami", "id", "free -h", "df -h"]

  lemma {:induction false} RunChecksAnswer(env: Environment, w: World, sessionID: string, i: nat, runs: seq<Execution>)
    requires i <= |CHECKS| && Trim(sessionID) == sessionID != "" && ConnectedSSH(w.tabs, sessionID)
    ensures var (w', all) := RunChecks(env, w, sessionID, i, runs);
            && |all| == |runs| + |CHECKS| - i && runs <= all
            && (forall j :: |runs| <= j < |all| ==> all[j] == env.execution(|w.effects| + j - |runs|))
    decreases |CHECKS| - i
  {
    hide Trim, ConnectedSSH;
    if i < |CHECKS| {
      CheckIsTrimmed(i);
      var (w1, execution) := Execute(env, w, sessionID, CHECKS[i], Automatic);
      RunChecksAnswer(env, w1, sessionID, i + 1, runs + [execution]);
      assert (runs + [execution])[|runs|] == execution;
    }
  }

  ghost predicate SixAllowed(ctx: Context, session: string) {
    forall j :: 0 <= j < |SIX| ==> Decide(ctx.policy, SHELL, session, SIX[j]) == Decision.Allow
  }

  lemma {:induction false} BlockedExactly(policy: Policy, sessionID: string, i: nat)
    requires i <= |CHECKS|
    ensures FirstBlocked(policy, sessionID, i).None? <==> forall j :: i <= j < |CHECKS| ==> Decide(policy, SHELL, sessionID, CHECKS[j]) == Decision.Allow
    decreases |CHECKS| - i
  {
    hide Decide;
    if i < |CHECKS| {
      BlockedExactly(policy, sessionID, i + 1);
    }
  }

  lemma DiagnosticsIsDispatched(env: Environment, w: World, call: ToolCall, ctx: Context, messages: seq<Message>)
    requires IsCall(call, "ssh.diagnostics")
    ensures Dispatch(env, w, call, ctx, messages) == DispatchDiagnostics(env, w, call, ctx)
  {
    hide DispatchDiagnostics;
  }

  /**
   A call of ssh.diagnostics runs commands exactly when it asks for a summary of a connected
   session with the shell tool enabled and all six checks allowed; it then runs those six in
   order, and the answer holds what the host said to each, in that order.
   */
  lemma DiagnosticsRunExactly(env: Environment, w: World, call: ToolCall, ctx: Context, messages: seq<Message>)
    requires IsCall(call, "ssh.diagnostics")
    ensures var d := Dispatch(env, w, call, ctx, messages);
            && !d.pending
            && (d.world.effects != w.effects <==>
                  DiagnosticsReady(call, ctx) && HostIsThere(w.tabs, Target(call, ctx)) && SixAllowed(ctx, Target(call, ctx)))
            && (d.world.effects != w.effects ==>
                  && d.world.effects == w.effects + seq(6, j requires 0 <= j < 6 => RanCommand(Target(call, ctx), SIX[j], Automatic))
                  && d.result == Diagnosed(Target(call, ctx), seq(6, j requires 0 <= j < 6 => env.execution(|w.effects| + j))))
  {
    DiagnosticsBranches(env, w, call, ctx, messages);
    FitsIs(call, {"sessionId", "operation"});
    hide Dispatch, Trim, Given, Fits, FirstBlocked, RunChecks, ToolEnabled, ConnectedSSH, HostIsThere, Decide, IsCall, Target;
    if Fits(call, {"sessionId", "operation"}) {
      var session := Target(call, ctx);
      ExecArguments(call, ctx);
      ConnectedExactly(w.tabs, session);
      BlockedExactly(ctx.policy, session, 0);
      ChecksReach(env, w, session);
    }
  }

  /** The branches of the diagnostics dispatch. */
  lemma DiagnosticsBranches(env: Environment, w: World, call: ToolCall, ctx: Context, messages: seq<Message>)
    requires IsCall(call, "ssh.diagnostics")
    ensures var d := Dispatch(env, w, call, ctx, messages);
            if !DiagnosticsReady(call, ctx) then d == Answered(w, d.result)
            else
              match FirstBlocked(ctx.policy, Target(call, ctx), 0)
              case Some((command, decision)) => d == Answered(w, DiagnosticsBlocked(Target(call, ctx), command, decision))
              case None =>
                var (w', runs) := RunChecks(env, w, Target(call, ctx), 0, []);
                d == Answered(w', Diagnosed(Target(call, ctx), runs))
  {
    if call.arguments.Object? {
      GivenIsField(call, "sessionId");
      GivenIsField(call, "operation");
      TargetIs(call, ctx);
    }
    DiagnosticsIsDispatched(env, w, call, ctx, messages);
    FitsIs(call, {"sessionId", "operation"});
    hide Dispatch, Trim, Field, Given, OnTarget, Target, Fits, FirstBlocked, RunChecks, ToolEnabled, Decide, IsCall;
  }

  lemma ChecksReach(env: Environment, w: World, session: string)
    requires Trim(session) == session
    ensures var (w', runs) := RunChecks(env, w, session, 0, []);
            && (session == "" || !ConnectedSSH(w.tabs, session) ==> w'.effects == w.effects)
            && (session != "" && ConnectedSSH(w.tabs, session) ==>
                  && w'.effects == w.effects + seq(6, j requires 0 <= j < 6 => RanCommand(session, SIX[j], Automatic))
                  && runs == seq(6, j requires 0 <= j < 6 => env.execution(|w.effects| + j)))
  {
    hide Trim, RunChecks, ConnectedSSH;
    RunChecksEffects(env, w, session, 0, []);
    if session != "" && ConnectedSSH(w.tabs, session) {
      RunChecksAnswer(env, w, session, 0, []);
      var runs := RunChecks(env, w, session, 0, []).1;
      assert runs == seq(6, j requires 0 <= j < 6 => env.execution(|w.effects| + j));
    }
  }

  // ---------------------------------------------------------------- refusals

  /** Why an ssh.exec that neither runs nor asks is refused; and an allowed one whose session is not connected is told that nothing was executed. */
  lemma ExecRefusesExactly(env: Environment, w: World, call: ToolCall, ctx: Context, messages: seq<Message>)
    requires IsCall(call, "ssh.exec")
    ensures var d := Dispatch(env, w, call, ctx, messages);
            && (d.result == Refused(InvalidArguments) <==> !Fits(call, {"sessionId", "command", "reason"}))
            && (d.result == Refused(MissingFields) <==>
                  Fits(call, {"sessionId", "command", "reason"}) && (Target(call, ctx) == "" || Given(call, "command") == ""))
            && (d.result == Refused(WrongSession) <==>
                  Fits(call, {"sessionId", "command", "reason"}) && Target(call, ctx) != "" && Given(call, "command") != "" && !OnTarget(call, ctx))
            && (d.result == Refused(DeniedByPolicy) <==>
                  ExecReady(call, ctx) && Decide(ctx.policy, SHELL, Target(call, ctx), Given(call, "command")) == Decision.Deny)
  {
    ExecBranches(env, w, call, ctx, messages);
    FitsIs(call, {"sessionId", "command", "reason"});
    hide Dispatch, Trim, Decide, Execute, Given, Suspend, OnTarget, Target, Fits, IsCall;
    if Fits(call, {"sessionId", "command", "reason"}) {
      SuspendIsNoRefusal(env, w, call, ctx, SHELL, Target(call, ctx), Given(call, "command"), Given(call, "reason"), messages);
    }
  }

  lemma SuspendHasNoEffect(env: Environment, w: World, call: ToolCall, ctx: Context, toolID: string, sessionID: string, shown: string,
                           reason: string, messages: seq<Message>)
    ensures Suspend(env, w, call, ctx, toolID, sessionID, shown, reason, messages).world.effects == w.effects
  {
    hide Normalized, RequestID, Decimal;
  }

  lemma SuspendIsNoRefusal(env: Environment, w: World, call: ToolCall, ctx: Context, toolID: string, sessionID: string, shown: string,
                           reason: string, messages: seq<Message>)
    ensures !Suspend(env, w, call, ctx, toolID, sessionID, shown, reason, messages).result.Refused?
  {
    hide Normalized, RequestID, Decimal;
  }

  /** An allowed command whose session is not connected changes nothing, and the model is told that it did not run. */
  lemma UnconnectedCommandDoesNotRun(env: Environment, w: World, call: ToolCall, ctx: Context, messages: seq<Message>)
    requires IsCall(call, "ssh.exec") && ExecReady(call, ctx) && !HostIsThere(w.tabs, Target(call, ctx))
    requires Decide(ctx.policy, SHELL, Target(call, ctx), Given(call, "command")) == Decision.Allow
    ensures var d := Dispatch(env, w, call, ctx, messages);
            d.world == w && d.result.Ran? && !d.result.execution.result.success && d.result.execution.error.Some?
  {
    ExecArguments(call, ctx);
    TargetIs(call, ctx);
    ExecBranches(env, w, call, ctx, messages);
    ExecuteTells(env, w, Target(call, ctx), Given(call, "command"));
    hide Dispatch, Trim, Decide, Execute, Given, Suspend, OnTarget, Target, IsCall, HostIsThere;
  }

  /** Why an sftp.write that does not ask is refused, in the order of the checks. */
  lemma WriteRefusesExactly(env: Environment, w: World, call: ToolCall, ctx: Context, messages: seq<Message>)
    requires IsCall(call, "sftp.write") && !WriteReady(w, call, ctx)
    ensures var d := Dispatch(env, w, call, ctx, messages);
            && d.world == w && !d.failed
            && d.result == Refused(
                 if !ToolEnabled(w.ai.policy.tools, SFTP) then ToolDisabled
                 else if !Fits(call, WRITE_SCHEMA) then InvalidArguments
                 else if Target(call, ctx) == "" || Given(call, "path") == "" then MissingFields
                 else if !OnTarget(call, ctx) then WrongSession
                 else if Utf8Length(Field(call.arguments.fields, "content")) > 256 * 1024 * 1024 then TooLarge
                 else if FindTab(w.tabs, Target(call, ctx)).None? then SessionNotFound else NotConnected)
  {
    if call.arguments.Object? {
      ExecArguments(call, ctx);
      GivenIsField(call, "path");
      TargetIs(call, ctx);
    }
    WriteIsDispatched(env, w, call, ctx, messages);
    FitsIs(call, WRITE_SCHEMA);
    hide Trim, Field, Given, Suspend, OnTarget, Target, Fits, Utf8Length, FindTab, ToolEnabled;
  }

  /** Why a stat, list or read that does not reach SFTP is refused. */
  lemma LookRefusesExactly(env: Environment, w: World, call: ToolCall, ctx: Context, messages: seq<Message>)
    requires (exists name :: name in LOOKS && IsCall(call, name)) && !LookReady(w, call, ctx)
    ensures var d := Dispatch(env, w, call, ctx, messages);
            && d.world == w && !d.failed
            && d.result == Refused(
                 if !ToolEnabled(w.ai.policy.tools, SFTP) then ToolDisabled
                 else if !Fits(call, {"sessionId", "path"}) then InvalidArguments
                 else if Target(call, ctx) == "" || Given(call, "path") == "" then MissingFields
                 else if Trim(ctx.activeSessionID) == "" || !OnTarget(call, ctx) then WrongSession else NotConnected)
  {
    if call.arguments.Object? {
      GivenIsField(call, "sessionId");
      GivenIsField(call, "path");
      TargetIs(call, ctx);
    }
    LookIsDispatched(env, w, call, ctx, messages);
    FitsIs(call, {"sessionId", "path"});
    hide Trim, Field, Given, OnTarget, Target, Fits, FindTab, ToolEnabled;
  }

  const TOOLS := LOOKS + {"ssh.exec", "ssh.diagnostics", "sftp.write"}

  /** A call of any other tool changes nothing and is told so; a call of another kind ends the loop. */
  lemma OtherCallsDoNothing(env: Environment, w: World, call: ToolCall, ctx: Context, messages: seq<Message>)
    ensures (call.kind == "function" || call.kind == "") && call.name !in TOOLS ==>
              Dispatch(env, w, call, ctx, messages) == Dispatched(w, Refused(UnknownTool), false, false)
    ensures call.kind != "function" && call.kind != "" ==> Dispatch(env, w, call, ctx, messages) == Dispatched(w, NoResult, false, true)
  {
    hide DispatchExec, DispatchWrite, DispatchLook, DispatchDiagnostics;
  }

  lemma {:induction false} BlockedIsFirst(policy: Policy, sessionID: string, i: nat)
    requires i <= |CHECKS|
    ensures var blocked := FirstBlocked(policy, sessionID, i);
            blocked.Some? ==> exists k :: i <= k < |CHECKS| && blocked.value == (CHECKS[k], Decide(policy, SHELL, sessionID, CHECKS[k]))
                                          && blocked.value.1 != Decision.Allow
                                          && forall j :: i <= j < k ==> Decide(policy, SHELL, sessionID, CHECKS[j]) == Decision.Allow
    decreases |CHECKS| - i
  {
    hide Decide;
    if i < |CHECKS| && Decide(policy, SHELL, sessionID, CHECKS[i]) == Decision.Allow {
      BlockedIsFirst(policy, sessionID, i + 1);
    }
  }

  /** Diagnostics that the policy does not allow name the first check it stops at, and how. */
  lemma DiagnosticsNameTheBlock(env: Environment, w: World, call: ToolCall, ctx: Context, messages: seq<Message>)
    requires IsCall(call, "ssh.diagnostics") && DiagnosticsReady(call, ctx) && !SixAllowed(ctx, Target(call, ctx))
    ensures var d, session := Dispatch(env, w, call, ctx, messages), Target(call, ctx);
            && d.world == w
            && exists k :: 0 <= k < |SIX| && d.result == DiagnosticsBlocked(session, SIX[k], Decide(ctx.policy, SHELL, session, SIX[k]))
                           && Decide(ctx.policy, SHELL, session, SIX[k]) != Decision.Allow
                           && forall j :: 0 <= j < k ==> Decide(ctx.policy, SHELL, session, SIX[j]) == Decision.Allow
  {
    DiagnosticsBranches(env, w, call, ctx, messages);
    hide Dispatch, Trim, Given, Target, Fits, FirstBlocked, RunChecks, ToolEnabled, Decide, IsCall, DiagnosticsReady;
    BlockedExactly(ctx.policy, Target(call, ctx), 0);
    BlockedIsFirst(ctx.policy, Target(call, ctx), 0);
  }
}
