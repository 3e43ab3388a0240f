/**
 The application service itself: stored fields updated step by step, loops that
 grow a message list, and methods for each entry point. Every method is proved
 to do exactly what the transition of the same operation in `ToolCalling` says,
 so the theorems about whole runs are theorems about these bodies.
 Models internal/app/service_command_policy.go, native_tool_calling.go,
 native_diagnostics.go, ssh_command_result.go and ai_agent.go.
 */
module AppService {
  import opened Text
  import opened CommandPolicy
  import opened ToolCalling
  import RunSafety

  class Service {
    const env: Environment
    var ai: AIState
    var tabs: seq<Tab>
    var clock: nat
    /** The log of what went out: answers drawn, host effects, model requests, saved approval requests. */
    var draws: nat
    var effects: seq<Effect>
    var sent: seq<seq<Message>>
    var asked: seq<CommandRequest>

    function Current(): World
      reads this
    {
      World(ai, tabs, clock, draws, effects, sent, asked)
    }

    constructor (env: Environment, ai: AIState, tabs: seq<Tab>)
      ensures this.env == env && Current() == World(ai, tabs, 0, 0, [], [], [])
    {
      this.env, this.ai, this.tabs, clock := env, ai, tabs, 0;
      draws, effects, sent, asked := 0, [], [], [];
    }

    // ------------------------------------------------------------ outside

    method Draw() returns (ok: bool)
      modifies this
      ensures ok == env.succeeds(old(draws)) && Current() == old(Current()).(draws := old(draws) + 1)
    {
      ok := env.succeeds(draws);
      draws := draws + 1;
    }

    method UpdateAIState(next: AIState) returns (saved: bool)
      modifies this
      ensures (Current(), saved) == Save(env, old(Current()), next)
    {
      saved := Draw();
      if saved {
        ai := next;
      }
    }

    method RuntimeTab(id: string) returns (tab: Option<Tab>)
      ensures tab == FindTab(tabs, id)
    {
      for i := 0 to |tabs|
        invariant FindTab(tabs, id) == FindTab(tabs[i..], id)
      {
        assert tabs[i..][1..] == tabs[i + 1..];
        if tabs[i].id == id {
          return Some(tabs[i]);
        }
      }
      return None;
    }

    method ExecuteSessionCommandResult(sessionID: string, command: string, route: Route) returns (execution: Execution)
      modifies this
      ensures (Current(), execution) == Execute(env, old(Current()), sessionID, command, route)
    {
      hide Trim, Key, FindTab;
      var session, text := Trim(sessionID), Trim(command);
      if session == "" || text == "" {
        return NOT_RUN;
      }
      var tab := RuntimeTab(session);
      if tab.None? || Key(tab.value.protocolID) != "ssh" || Key(tab.value.status) != "connected" {
        return NOT_RUN;
      }
      execution := env.execution(|effects|);
      effects := effects + [RanCommand(session, text, route)];
    }

    // ----------------------------------------------------------- dispatch

    method SuspendCall(call: ToolCall, ctx: Context, toolID: string, sessionID: string, command: string,
                       reason: string, messages: seq<Message>)
      returns (result: ToolResult, pending: bool, failed: bool)
      modifies this
      ensures Dispatched(Current(), result, pending, failed)
              == Suspend(env, old(Current()), call, ctx, toolID, sessionID, command, reason, messages)
    {
      hide RequestID, Decimal, Normalized;
      var state := ai;
      var policy := NormalizeCommandPolicy(state.policy);
      var request := CommandRequest(RequestID(clock), toolID, sessionID, command, reason, Decimal(clock));
      clock := clock + 1;
      policy := policy.(pending := policy.pending + [request]);
      state := state.(policy := policy,
                      pendingCall := Some(PendingCall(request.id, ctx.providerID, call.id, call.name, call.arguments,
                                                      ctx.userMessage, sessionID, messages)));
      var saved := UpdateAIState(state);
      if !saved {
        return NoResult, false, true;
      }
      asked := asked + [request];
      return ApprovalRequired(request.id), true, false;
    }

    method DispatchNativeExec(call: ToolCall, ctx: Context, messages: seq<Message>)
      returns (result: ToolResult, pending: bool, failed: bool)
      modifies this
      ensures Dispatched(Current(), result, pending, failed) == DispatchExec(env, old(Current()), call, ctx, messages)
    {
      hide Trim, Decide, Execute, Suspend, Field;
      pending, failed := false, false;
      var decoded := Decode(call.arguments, {"sessionId", "command", "reason"});
      if decoded.None? {
        return Refused(InvalidArguments), false, false;
      }
      var session, command := Trim(Field(decoded.value, "sessionId")), Trim(Field(decoded.value, "command"));
      var active := Trim(ctx.activeSessionID);
      if session == "" {
        session := active;
      }
      if session == "" || command == "" {
        return Refused(MissingFields), false, false;
      }
      if active != "" && session != active {
        return Refused(WrongSession), false, false;
      }
      var decision, _, _ := EvaluateCommandPolicy(ctx.policy, SHELL, session, command);
      match decision
      case Deny =>
        result := Refused(DeniedByPolicy);
      case Allow =>
        var execution := ExecuteSessionCommandResult(session, command, Automatic);
        result := Ran(session, command, execution);
      case Ask =>
        result, pending, failed :=
          SuspendCall(call, ctx, SHELL, session, command, Trim(Field(decoded.value, "reason")), messages);
    }

    method DispatchNativeSFTPWrite(call: ToolCall, ctx: Context, messages: seq<Message>)
      returns (result: ToolResult, pending: bool, failed: bool)
      modifies this
      ensures Dispatched(Current(), result, pending, failed) == DispatchWrite(env, old(Current()), call, ctx, messages)
    {
      hide Trim, ToolEnabled, FindTab, Utf8Length, Suspend, Field, StrictlyConnected;
      var enabled := CommandToolEnabled(ai.policy, SFTP);
      if !enabled {
        return Refused(ToolDisabled), false, false;
      }
      var decoded := Decode(call.arguments, WRITE_SCHEMA);
      if decoded.None? {
        return Refused(InvalidArguments), false, false;
      }
      var session, path := Trim(Field(decoded.value, "sessionId")), Trim(Field(decoded.value, "path"));
      var active := Trim(ctx.activeSessionID);
      if session == "" {
        session := active;
      }
      if session == "" || path == "" {
        return Refused(MissingFields), false, false;
      }
      if active != "" && session != active {
        return Refused(WrongSession), false, false;
      }
      if Utf8Length(Field(decoded.value, "content")) > MAX_SFTP_WRITE {
        return Refused(TooLarge), false, false;
      }
      var tab := RuntimeTab(session);
      if tab.None? {
        return Refused(SessionNotFound), false, false;
      }
      if !StrictlyConnected(tab.value) {
        return Refused(NotConnected), false, false;
      }
      result, pending, failed :=
        SuspendCall(call, ctx, SFTP_WRITE, session, path, Trim(Field(decoded.value, "reason")), messages);
    }

    /** The stat, list and read tools share their checks. */
    method DispatchNativeSFTPLook(call: ToolCall, ctx: Context) returns (result: ToolResult)
      modifies this
      ensures Answered(Current(), result) == DispatchLook(env, old(Current()), call, ctx)
    {
      hide Trim, ToolEnabled, FindTab, Field, StrictlyConnected;
      var enabled := CommandToolEnabled(ai.policy, SFTP);
      if !enabled {
        return Refused(ToolDisabled);
      }
      var decoded := Decode(call.arguments, {"sessionId", "path"});
      if decoded.None? {
        return Refused(InvalidArguments);
      }
      var session, path := Trim(Field(decoded.value, "sessionId")), Trim(Field(decoded.value, "path"));
      var active := Trim(ctx.activeSessionID);
      if session == "" {
        session := active;
      }
      if session == "" || path == "" {
        return Refused(MissingFields);
      }
      if active == "" || session != active {
        return Refused(WrongSession);
      }
      var tab := RuntimeTab(session);
      if tab.None? || !StrictlyConnected(tab.value) {
        return Refused(NotConnected);
      }
      effects := effects + [LookedAt(session, path, call.name)];
      result := Looked(session, path, env.reading(draws));
      draws := draws + 1;
    }

    /** Checks the policy for all six commands, and only then runs them. */
    method DispatchNativeDiagnostics(call: ToolCall, ctx: Context) returns (result: ToolResult)
      modifies this
      ensures Dispatched(Current(), result, false, false) == DispatchDiagnostics(env, old(Current()), call, ctx)
    {
      hide Trim, ToolEnabled, Decide, Execute, Field;
      var decoded := Decode(call.arguments, {"sessionId", "operation"});
      if decoded.None? {
        return Refused(InvalidArguments);
      }
      var session, operation := Trim(Field(decoded.value, "sessionId")), Trim(Field(decoded.value, "operation"));
      if session == "" {
        session := Trim(ctx.activeSessionID);
      }
      if session == "" || operation == "" {
        return Refused(MissingFields);
      }
      if operation != "summary" {
        return Refused(UnsupportedOperation);
      }
      var enabled := CommandToolEnabled(ctx.policy, SHELL);
      if !enabled {
        return Refused(ToolDisabled);
      }
      var blocked := CheckAll(ctx.policy, session);
      if blocked.Some? {
        return DiagnosticsBlocked(session, blocked.value.0, blocked.value.1);
      }
      var runs := RunAll(session);
      return Diagnosed(session, runs);
    }

    method CheckAll(policy: Policy, session: string) returns (blocked: Option<(string, Decision)>)
      ensures blocked == FirstBlocked(policy, session, 0)
    {
      hide Decide;
      for i := 0 to |CHECKS|
        invariant FirstBlocked(policy, session, 0) == FirstBlocked(policy, session, i)
      {
        var decision, _, _ := EvaluateCommandPolicy(policy, SHELL, session, CHECKS[i]);
        if decision != Allow {
          return Some((CHECKS[i], decision));
        }
      }
      return None;
    }

    method RunAll(session: string) returns (runs: seq<Execution>)
      modifies this
      ensures (Current(), runs) == RunChecks(env, old(Current()), session, 0, [])
    {
      hide Execute;
      runs := [];
      for i := 0 to |CHECKS|
        invariant RunChecks(env, old(Current()), session, 0, []) == RunChecks(env, Current(), session, i, runs)
      {
        var execution := ExecuteSessionCommandResult(session, CHECKS[i], Automatic);
        runs := runs + [execution];
      }
    }

    method DispatchNativeToolCall(call: ToolCall, ctx: Context, messages: seq<Message>)
      returns (result: ToolResult, pending: bool, failed: bool)
      modifies this
      ensures Dispatched(Current(), result, pending, failed) == Dispatch(env, old(Current()), call, ctx, messages)
    {
      hide KindOf, DispatchExec, DispatchWrite, DispatchLook, DispatchDiagnostics;
      pending, failed := false, false;
      if call.kind != "function" && call.kind != "" {
        return NoResult, false, true;
      }
      match KindOf(call.name)
      case DiagnosticsTool =>
        result := DispatchNativeDiagnostics(call, ctx);
      case LookTool =>
        result := DispatchNativeSFTPLook(call, ctx);
      case WriteTool =>
        result, pending, failed := DispatchNativeSFTPWrite(call, ctx, messages);
      case OtherTool =>
        result := Refused(UnknownTool);
      case ExecTool =>
        result, pending, failed := DispatchNativeExec(call, ctx, messages);
    }

    // --------------------------------------------------------------- loop

    /** The answers to one assistant message, one call after the other. */
    method RunNativeToolCalls(ctx: Context, calls: seq<ToolCall>, start: seq<Message>, before: seq<Event>)
      returns (messages: seq<Message>, events: seq<Event>, stopped: Option<Outcome>)
      modifies this
      ensures RunBatch(env, old(Current()), ctx, calls, 0, start, before)
              == if stopped.Some? then Stop(Current(), events, stopped.value) else Continue(Current(), messages, events)
    {
      hide Dispatch, OutputEvents, ApprovalEvents;
      messages, events := start, before;
      for i := 0 to |calls|
        invariant RunBatch(env, old(Current()), ctx, calls, 0, start, before) == RunBatch(env, Current(), ctx, calls, i, messages, events)
      {
        var call := calls[i];
        ghost var w, e := Current(), events;
        events := events + [ToolStarted(call.name)];
        var result, pending, failed := DispatchNativeToolCall(call, ctx, messages);
        assert Dispatched(Current(), result, pending, failed) == Dispatch(env, w, call, ctx, messages);
        events := events + OutputEvents(call.name, result);
        if failed {
          return messages, events, Some(Failed);
        }
        if pending {
          events := events + ApprovalEvents(Current(), result, call.name);
          return messages, events, Some(Suspended(result));
        }
        events := events + [ToolFinished(call.name)];
        messages := messages + [AnswerTo(call, result)];
      }
      stopped := None;
    }

    method RunNativeToolLoopWithEvents(ctx: Context, start: seq<Message>, before: seq<Event>)
      returns (events: seq<Event>, outcome: Outcome)
      modifies this
      ensures LoopEnd(Current(), events, outcome) == RunTurns(env, old(Current()), ctx, 0, start, before)
    {
      hide RunBatch, Finish;
      var messages := start;
      events := before;
      for turn := 0 to MAX_TURNS
        invariant RunTurns(env, old(Current()), ctx, 0, start, before) == RunTurns(env, Current(), ctx, turn, messages, events)
      {
        var completion := env.completion(|sent|);
        sent := sent + [messages];
        if completion.None? {
          return events, Failed;
        }
        var reply := completion.value;
        if reply.toolCalls == [] {
          outcome := FinishConversation(ctx, reply.content, events);
          return events, outcome;
        }
        if !ctx.toolsOn {
          return events, Failed;
        }
        messages := messages + [Message(Assistant, Words(reply.content), "", reply.toolCalls)];
        var stopped: Option<Outcome>;
        messages, events, stopped := RunNativeToolCalls(ctx, reply.toolCalls, messages, events);
        if stopped.Some? {
          return events, stopped.value;
        }
      }
      return events, Failed;
    }

    method FinishConversation(ctx: Context, content: string, ghost events: seq<Event>) returns (outcome: Outcome)
      modifies this
      ensures LoopEnd(Current(), events, outcome) == Finish(env, old(Current()), ctx, content, events)
    {
      hide Trim;
      var reply := Trim(content);
      if reply == "" {
        return Failed;
      }
      var latest := ai.(pendingCall := None);
      latest := latest.(messages := latest.messages + [ChatMessage(User, ctx.userMessage)]);
      latest := latest.(messages := latest.messages + [ChatMessage(Assistant, reply)]);
      assert latest.messages == ai.messages + [ChatMessage(User, ctx.userMessage), ChatMessage(Assistant, reply)];
      var saved := UpdateAIState(latest);
      return if saved then Replied(reply) else Failed;
    }

    // -------------------------------------------------------- entry points

    method NativeToolSystemPrompt(policy: Policy, sessionID: string) returns (content: Content)
      ensures content == SystemPrompt(policy, sessionID)
    {
      hide NormalizedTools;
      var normalized := NormalizeCommandPolicy(policy);
      var enabled := [];
      for i := 0 to |normalized.tools|
        invariant enabled + EnabledTools(normalized.tools[i..]) == EnabledTools(normalized.tools)
      {
        assert normalized.tools[i..][1..] == normalized.tools[i + 1..];
        if normalized.tools[i].enabled {
          enabled := enabled + [normalized.tools[i].id];
        }
      }
      return Prompt(enabled, sessionID);
    }

    method NativeMessagesFromState(state: AIState, sessionID: string, input: string) returns (messages: seq<Message>)
      ensures messages == Opening(state, sessionID, input)
    {
      hide SystemPrompt;
      var prompt := NativeToolSystemPrompt(state.policy, sessionID);
      messages := [Message(System, prompt, "", [])];
      for i := 0 to |state.messages|
        invariant messages == [Message(System, prompt, "", [])] + Transcript(state.messages)[..i]
      {
        messages := messages + [Message(state.messages[i].role, Words(state.messages[i].text), "", [])];
      }
      messages := messages + [Message(User, Words(input), "", [])];
    }

    method ActiveConfiguredProvider(state: AIState) returns (provider: Option<Provider>)
      modifies this
      ensures ActiveProvider(state.providers).None? ==> provider == None && Current() == old(Current())
      ensures ActiveProvider(state.providers).Some? ==>
                && Current() == old(Current()).(draws := old(draws) + 1)
                && provider == if env.succeeds(old(draws)) then ActiveProvider(state.providers) else None
    {
      for i := 0 to |state.providers|
        invariant Current() == old(Current())
        invariant ActiveProvider(state.providers) == ActiveProvider(state.providers[i..])
      {
        assert state.providers[i..][1..] == state.providers[i + 1..];
        if state.providers[i].selected && state.providers[i].configured {
          var usable := Draw();
          return if usable then Some(state.providers[i]) else None;
        }
      }
      return None;
    }

    method ProviderFor(state: AIState, providerID: string) returns (provider: Option<Provider>)
      modifies this
      ensures providerID == "" || ProviderByID(state.providers, providerID).None? ==> provider == None && Current() == old(Current())
      ensures providerID != "" && ProviderByID(state.providers, providerID).Some? ==>
                && Current() == old(Current()).(draws := old(draws) + 1)
                && provider == if env.succeeds(old(draws)) then ProviderByID(state.providers, providerID) else None
    {
      if providerID == "" {
        return None;
      }
      for i := 0 to |state.providers|
        invariant Current() == old(Current())
        invariant ProviderByID(state.providers, providerID) == ProviderByID(state.providers[i..], providerID)
      {
        assert state.providers[i..][1..] == state.providers[i + 1..];
        if state.providers[i].id != providerID {
          continue;
        }
        var usable := Draw();
        return if usable then Some(state.providers[i]) else None;
      }
      return None;
    }

    method LoopContext(state: AIState, provider: Provider, sessionID: string, input: string) returns (ctx: Context)
      ensures ctx == StartContext(state, provider, sessionID, input)
    {
      hide Normalized, ToolEnabled;
      var policy := NormalizeCommandPolicy(state.policy);
      var shell := CommandToolEnabled(state.policy, SHELL);
      var sftp := CommandToolEnabled(state.policy, SFTP);
      return Context(provider.id, policy, sessionID, input, shell || sftp);
    }

    method SendChatMessage(message: string, sessionID: string) returns (reply: Reply)
      modifies this
      ensures (Current(), reply) == SendChat(env, old(Current()), message, sessionID)
    {
      hide Trim, RunTurns, StartContext, Opening, ActiveProvider;
      var text, session := Trim(message), Trim(sessionID);
      if text == "" {
        return Error(EmptyInput);
      }
      var state := ai;
      var provider := ActiveConfiguredProvider(state);
      if provider.None? {
        return Error(NoProvider);
      }
      var ctx := LoopContext(state, provider.value, session, text);
      var messages := NativeMessagesFromState(state, session, text);
      var _, outcome := RunNativeToolLoopWithEvents(ctx, messages, []);
      return if outcome.Failed? then Error(LoopFailed) else Done;
    }

    method LastAssistantMessage(messages: seq<ChatMessage>) returns (content: string)
      ensures content == LastAssistant(messages)
    {
      assert messages[..|messages|] == messages;
      var i := |messages| - 1;
      while i >= 0
        invariant -1 <= i < |messages|
        invariant LastAssistant(messages) == LastAssistant(messages[..i + 1])
      {
        if messages[i].role == Assistant {
          return messages[i].text;
        }
        assert messages[..i + 1][..i] == messages[..i];
        i := i - 1;
      }
      return "";
    }

    /** One run of the agent: the events are what it sends on its channel. */
    method Run(sessionID: string, input: string) returns (events: seq<Event>)
      modifies this
      ensures (Current(), events) == RunAgent(env, old(Current()), sessionID, input)
    {
      hide RunTurns, StartContext, Opening, ActiveProvider, LastAssistant;
      var open := Draw();
      if !open {
        return [Cancelled];
      }
      events := [MessageStarted];
      var state := ai;
      var provider := ActiveConfiguredProvider(state);
      if provider.None? {
        return [MessageStarted, Errored];
      }
      var ctx := LoopContext(state, provider.value, sessionID, input);
      var messages := NativeMessagesFromState(state, sessionID, input);
      var outcome;
      events, outcome := RunNativeToolLoopWithEvents(ctx, messages, events);
      if outcome.Failed? {
        open := Draw();
        events := events + [if open then Errored else Cancelled];
        return;
      }
      var reply := LastAssistantMessage(ai.messages);
      ghost var streamed := events;
      if reply != "" {
        events := events + [TextDelta(reply)];
      }
      events := events + [MessageFinished(reply)];
      assert events == streamed + Closing(Current());
    }

    // ------------------------------------------------------ resolving

    method ResumePendingNativeToolCall(pending: PendingCall, result: ToolResult) returns (reply: Reply)
      modifies this
      ensures (Current(), reply) == Resume(env, old(Current()), pending, result)
    {
      hide Trim, RunTurns, StartContext, ProviderByID, SystemPrompt;
      var messages := pending.messages;
      var state := ai;
      var provider := ProviderFor(state, Trim(pending.providerID));
      if provider.None? {
        return Error(NoProvider);
      }
      state := state.(pendingCall := None);
      var saved := UpdateAIState(state);
      if !saved {
        return Error(NotSaved);
      }
      if messages != [] && messages[0].role == System {
        var prompt := NativeToolSystemPrompt(state.policy, pending.sessionID);
        messages := [messages[0].(content := prompt)] + messages[1..];
      }
      messages := messages + [Message(Tool, Result(result), pending.toolCallID, [])];
      var ctx := LoopContext(state, provider.value, pending.sessionID, pending.userMessage);
      SameContext(old(ai), provider.value, pending.sessionID, pending.userMessage);
      var _, outcome := RunNativeToolLoopWithEvents(ctx, messages, []);
      return if outcome.Failed? then Error(LoopFailed) else Done;
    }

    /** The saved continuation is not part of what a loop is given. */
    static lemma SameContext(state: AIState, provider: Provider, sessionID: string, input: string)
      ensures StartContext(state.(pendingCall := None), provider, sessionID, input) == StartContext(state, provider, sessionID, input)
    {
      hide Normalized, ToolsOn;
    }

    method FindPending(requests: seq<CommandRequest>, id: string) returns (index: Option<nat>)
      ensures index == FindRequest(requests, id)
    {
      for i := 0 to |requests|
        invariant forall j :: 0 <= j < i ==> requests[j].id != id
      {
        if requests[i].id == id {
          return Some(i);
        }
      }
      return None;
    }

    method ResolveCommandPolicyRequest(requestID: string, mode: Mode) returns (reply: Reply)
      modifies this
      ensures (Current(), reply) == ResolveRequest(env, old(Current()), requestID, mode)
    {
      hide Trim, Normalized, RejectRequest, ApproveRequest, FindRequest;
      var id := Trim(requestID);
      if id == "" {
        return Error(RequestNotFound);
      }
      var policy := NormalizeCommandPolicy(ai.policy);
      var index := FindPending(policy.pending, id);
      if index.None? {
        return Error(RequestNotFound);
      }
      if mode == Reject {
        reply := DenyRequest(policy, index.value);
      } else if mode == OtherMode {
        reply := Error(UnsupportedMode);
      } else {
        reply := Approve(policy, index.value, mode);
      }
    }

    method DenyRequest(policy: Policy, index: nat) returns (reply: Reply)
      requires index < |policy.pending|
      modifies this
      ensures (Current(), reply) == RejectRequest(env, old(Current()), policy, index)
    {
      hide Resume, RejectedNote;
      var request, state := policy.pending[index], ai;
      state := state.(policy := policy.(pending := policy.pending[..index] + policy.pending[index + 1..]));
      if state.pendingCall.Some? && state.pendingCall.value.requestID == request.id {
        var pending := state.pendingCall.value;
        var saved := UpdateAIState(state.(pendingCall := None));
        if !saved {
          return Error(NotSaved);
        }
        reply := ResumePendingNativeToolCall(pending, ApprovalDenied);
        return;
      }
      state := state.(messages := state.messages + [ChatMessage(Assistant, RejectedNote(request))]);
      var saved := UpdateAIState(state);
      return if saved then Done else Error(NotSaved);
    }

    method Approve(policy: Policy, index: nat, mode: Mode) returns (reply: Reply)
      requires index < |policy.pending| && (mode == Now || mode == Session || mode == Always)
      modifies this
      ensures (Current(), reply) == ApproveRequest(env, old(Current()), policy, index, mode)
    {
      hide ToolEnabled, FindTab, Trim, PolicyToolID, ApproveWrite, ApproveCommand;
      var request := policy.pending[index];
      if request.toolID != SFTP_WRITE {
        var enabled := CommandToolEnabled(policy, request.toolID);
        if !enabled {
          return Error(RequestToolDisabled);
        }
      }
      var tab := RuntimeTab(request.sessionID);
      if tab.None? {
        var saved := UpdateAIState(ai.(policy := policy.(pending := policy.pending[..index] + policy.pending[index + 1..])));
        return Error(if saved then StaleSession else NotSaved);
      }
      if ai.pendingCall.Some? && ai.pendingCall.value.requestID == request.id {
        var pending := ai.pendingCall.value;
        if PolicyToolID(pending.toolName) != request.toolID || Trim(pending.sessionID) != request.sessionID {
          return Error(ContinuationMismatch);
        }
      }
      if request.toolID == SFTP_WRITE {
        reply := ApproveSFTPWrite(request);
      } else {
        reply := ApproveShellCommand(policy, index, mode);
      }
    }

    method ApproveSFTPWrite(request: CommandRequest) returns (reply: Reply)
      modifies this
      ensures (Current(), reply) == ApproveWrite(env, old(Current()), request)
    {
      hide Trim, Field, Utf8Length, FindTab, StrictlyConnected, Resume;
      if ai.pendingCall.None? || ai.pendingCall.value.requestID != request.id || ai.pendingCall.value.toolName != SFTP_WRITE {
        return Error(NoContinuation);
      }
      var pending := ai.pendingCall.value;
      var saved := UpdateAIState(ai.(pendingCall := None));
      if !saved {
        return Error(NotSaved);
      }
      var decoded := Decode(pending.arguments, WRITE_SCHEMA);
      if decoded.None? {
        return Error(BadWriteArguments);
      }
      var session, path := Trim(Field(decoded.value, "sessionId")), Trim(Field(decoded.value, "path"));
      var content := Field(decoded.value, "content");
      if session != request.sessionID || path == "" {
        return Error(BadWriteArguments);
      }
      if Utf8Length(content) > MAX_SFTP_WRITE {
        return Error(WriteTooLarge);
      }
      var tab := RuntimeTab(session);
      if tab.None? || !StrictlyConnected(tab.value) {
        return Error(WriteNeedsConnection);
      }
      effects := effects + [WroteFile(session, path, content, request.id)];
      var written := Draw();
      reply := ResumePendingNativeToolCall(pending, Wrote(session, path, written));
    }

    method ApproveShellCommand(policy: Policy, index: nat, mode: Mode) returns (reply: Reply)
      requires index < |policy.pending|
      modifies this
      ensures (Current(), reply) == ApproveCommand(env, old(Current()), policy, index, mode)
    {
      hide Decide, NormalizedRules, Resume, Execute, DeniedNote, Report;
      var request, state := policy.pending[index], ai;
      var decision, _, _ := EvaluateCommandPolicy(policy, request.toolID, request.sessionID, request.command);
      var rest := policy.pending[..index] + policy.pending[index + 1..];
      if decision == Deny {
        state := state.(policy := policy.(pending := rest),
                        messages := state.messages + [ChatMessage(Assistant, DeniedNote(request))]);
        var saved := UpdateAIState(state);
        return if saved then Done else Error(NotSaved);
      }
      var rules := policy.rules + GrantFor(mode, request);
      rules := NormalizeCommandRules(rules);
      state := state.(policy := policy.(pending := rest, rules := rules));
      if state.pendingCall.Some? && state.pendingCall.value.requestID == request.id {
        var pending := state.pendingCall.value;
        var saved := UpdateAIState(state.(pendingCall := None));
        if !saved {
          return Error(NotSaved);
        }
        var execution := ExecuteSessionCommandResult(request.sessionID, request.command, Approved(request.id));
        reply := ResumePendingNativeToolCall(pending, Ran(request.sessionID, request.command, execution));
        return;
      }
      var execution := ExecuteSessionCommandResult(request.sessionID, request.command, Approved(request.id));
      state := state.(messages := state.messages + [ChatMessage(Assistant, Report(request, execution))]);
      var saved := UpdateAIState(state);
      return if saved then Done else Error(ResultNotSaved);
    }

    // --------------------------------------------------- other operations

    method ClearConversation() returns (reply: Reply)
      modifies this
      ensures (Current(), reply) == Clear(env, old(Current()))
    {
      hide Normalized, Decimal;
      var state := ai;
      state := state.(messages := [], chatSessionID := "chat-" + Decimal(clock), pendingCall := None);
      clock := clock + 1;
      var policy := NormalizeCommandPolicy(state.policy);
      state := state.(policy := policy.(pending := []));
      var saved := UpdateAIState(state);
      return if saved then Done else Error(NotSaved);
    }

    method UpdateCommandPolicy(policy: Policy) returns (reply: Reply)
      modifies this
      ensures (Current(), reply) == ReplacePolicy(env, old(Current()), policy)
    {
      hide Normalized;
      var normalized := NormalizeCommandPolicy(policy);
      var saved := UpdateAIState(ai.(policy := normalized));
      return if saved then Done else Error(NotSaved);
    }

    method LockSecureStorage()
      modifies this
      ensures Current() == LockStorage(env, old(Current()))
    {
      ai := ai.(messages := []);
      var _ := UpdateAIState(ai.(pendingCall := None, policy := ai.policy.(pending := [])));
      ai := ai.(messages := []);
    }

    /** One service call of a run. */
    method Perform(action: ServiceCall) returns (reply: Reply)
      modifies this
      ensures (Current(), reply) == Step(env, old(Current()), action)
    {
      hide SendChat, RunAgent, ResolveRequest, Clear, ReplacePolicy, LockStorage;
      match action
      case Send(message, sessionID) =>
        reply := SendChatMessage(message, sessionID);
      case AgentRun(sessionID, input) =>
        var _ := Run(sessionID, input);
        reply := Done;
      case Resolve(requestID, mode) =>
        reply := ResolveCommandPolicyRequest(requestID, mode);
      case ClearChat =>
        reply := ClearConversation();
      case SetPolicy(policy) =>
        reply := UpdateCommandPolicy(policy);
      case Lock =>
        LockSecureStorage();
        reply := Done;
      case ChangeTabs(newTabs) =>
        tabs := newTabs;
        reply := Done;
    }

    /** A run of service calls, each one atomic: every effect it has is justified. */
    method PerformAll(calls: seq<ServiceCall>)
      modifies this
      ensures Current() == RunSafety.Run(env, old(Current()), calls)
      ensures RunSafety.SafeRun(env, old(Current()), calls)
    {
      hide Step, RunSafety.SafeRun;
      for i := 0 to |calls|
        invariant RunSafety.Run(env, old(Current()), calls) == RunSafety.Run(env, Current(), calls[i..])
      {
        assert calls[i..][1..] == calls[i + 1..];
        var _ := Perform(calls[i]);
      }
      RunSafety.EveryRunIsSafe(env, old(Current()), calls);
    }
  }
}
