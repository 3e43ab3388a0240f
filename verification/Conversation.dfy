/**
 The conversation sent to the model stays well formed across suspension and
 resumption: after an assistant message with tool calls, tool messages answer
 those calls in order, and at least the first one before anything else follows.
 */
module Conversation {
  import opened Text
  import opened CommandPolicy
  import opened ToolCalling
  import opened RunSafety

  /** The calls of the last assistant message that are still unanswered. */
  datatype Debt = Broken | Owes(calls: seq<ToolCall>, total: nat)

  predicate Settled(d: Debt) {
    d.Owes? && (|d.calls| < d.total || d.total == 0)
  }

  function Advance(d: Debt, m: Message): Debt {
    if d.Broken? then Broken
    else if m.role == Tool then
      if d.calls != [] && d.calls[0].id == m.toolCallID then Owes(d.calls[1..], d.total) else Broken
    else if Settled(d) then Owes(m.toolCalls, |m.toolCalls|)
    else Broken
  }

  function DebtOf(messages: seq<Message>): Debt {
    if messages == [] then Owes([], 0)
    else Advance(DebtOf(messages[..|messages| - 1]), messages[|messages| - 1])
  }

  /** A message list fit to be sent; with one-call batches every call has its answer. */
  predicate WellFormed(messages: seq<Message>, single: bool) {
    Settled(DebtOf(messages)) && (single ==> DebtOf(messages).calls == [])
  }

  ghost predicate SingleCalls(env: Environment) {
    forall n :: env.completion(n).Some? ==> |env.completion(n).value.toolCalls| <= 1
  }

  /** The saved conversation waits for exactly the suspended call's answer. */
  predicate Awaits(p: PendingCall, single: bool) {
    var d := DebtOf(p.messages);
    && d.Owes? && d.calls != [] && d.calls[0].id == p.toolCallID && |d.calls| <= d.total
    && (single ==> |d.calls| == 1)
  }

  ghost predicate WellSpoken(w: World, single: bool) {
    && (forall m :: m in w.ai.messages ==> m.role != Tool)
    && (forall ms :: ms in w.sent ==> WellFormed(ms, single))
    && (w.ai.pendingCall.Some? ==> Awaits(w.ai.pendingCall.value, single))
  }

  // --------------------------------------------------------- message lists

  lemma DebtSnoc(messages: seq<Message>, m: Message)
    ensures DebtOf(messages + [m]) == Advance(DebtOf(messages), m)
  {
    assert (messages + [m])[..|messages|] == messages;
  }

  lemma {:induction false} PlainIsSettled(messages: seq<Message>)
    requires forall i :: 0 <= i < |messages| ==> messages[i].role != Tool && messages[i].toolCalls == []
    ensures DebtOf(messages) == Owes([], 0)
  {
    if messages != [] {
      PlainIsSettled(messages[..|messages| - 1]);
    }
  }

  lemma OpeningIsWellFormed(ai: AIState, sessionID: string, input: string)
    requires forall m :: m in ai.messages ==> m.role != Tool
    ensures DebtOf(Opening(ai, sessionID, input)) == Owes([], 0)
  {
    hide SystemPrompt;
    PlainIsSettled(Opening(ai, sessionID, input));
  }

  predicate SameShape(a: seq<Message>, b: seq<Message>) {
    |a| == |b| && forall i :: 0 <= i < |a| ==>
      a[i].role == b[i].role && a[i].toolCallID == b[i].toolCallID && a[i].toolCalls == b[i].toolCalls
  }

  lemma {:induction false} DebtOfSameShape(a: seq<Message>, b: seq<Message>)
    requires SameShape(a, b)
    ensures DebtOf(a) == DebtOf(b)
  {
    if a != [] {
      DebtOfSameShape(a[..|a| - 1], b[..|b| - 1]);
    }
  }

  lemma RefreshKeepsShape(messages: seq<Message>, policy: Policy, sessionID: string)
    ensures SameShape(messages, RefreshPrompt(messages, policy, sessionID))
  {
    hide SystemPrompt;
  }

  // ---------------------------------------------------------------- loop

  /** What a dispatch does to the conversation: it saves it, with the call, exactly when it suspends. */
  ghost predicate Spoken(w: World, call: ToolCall, messages: seq<Message>, d: Dispatched) {
    && d.world.sent == w.sent && d.world.ai.messages == w.ai.messages
    && (d.pending ==> d.world.ai.pendingCall.Some? && d.world.ai.pendingCall.value.messages == messages
                      && d.world.ai.pendingCall.value.toolCallID == call.id)
    && (!d.pending ==> d.world.ai.pendingCall == w.ai.pendingCall)
  }

  lemma {:induction false} ChecksSpeakNot(env: Environment, w: World, sessionID: string, i: nat, runs: seq<Execution>)
    requires i <= |CHECKS|
    ensures var w' := RunChecks(env, w, sessionID, i, runs).0; w'.sent == w.sent && w'.ai == w.ai
    decreases |CHECKS| - i
  {
    hide Trim, ConnectedSSH;
    if i < |CHECKS| {
      var (w1, execution) := Execute(env, w, sessionID, CHECKS[i], Automatic);
      ChecksSpeakNot(env, w1, sessionID, i + 1, runs + [execution]);
    }
  }

  lemma DispatchSpeaks(env: Environment, w: World, call: ToolCall, ctx: Context, messages: seq<Message>)
    ensures Spoken(w, call, messages, Dispatch(env, w, call, ctx, messages))
  {
    hide DispatchExec, DispatchWrite, DispatchDiagnostics, KindOf;
    match KindOf(call.name)
    case ExecTool => ExecSpeaks(env, w, call, ctx, messages);
    case DiagnosticsTool => DiagnosticsSpeak(env, w, call, ctx, messages);
    case WriteTool => WriteSpeaks(env, w, call, ctx, messages);
    case _ =>
  }

  lemma ExecSpeaks(env: Environment, w: World, call: ToolCall, ctx: Context, messages: seq<Message>)
    ensures Spoken(w, call, messages, DispatchExec(env, w, call, ctx, messages))
  {
    hide Trim, Decide, Field, ConnectedSSH, Normalized, RequestID, Decimal;
  }

  lemma WriteSpeaks(env: Environment, w: World, call: ToolCall, ctx: Context, messages: seq<Message>)
    ensures Spoken(w, call, messages, DispatchWrite(env, w, call, ctx, messages))
  {
    hide Trim, Field, Normalized, RequestID, Decimal, Utf8Length, FindTab, StrictlyConnected, ToolEnabled;
  }

  lemma DiagnosticsSpeak(env: Environment, w: World, call: ToolCall, ctx: Context, messages: seq<Message>)
    ensures Spoken(w, call, messages, DispatchDiagnostics(env, w, call, ctx))
  {
    hide Trim, Field, ToolEnabled, FirstBlocked, RunChecks;
    forall session ensures var w' := RunChecks(env, w, session, 0, []).0; w'.sent == w.sent && w'.ai == w.ai {
      ChecksSpeakNot(env, w, session, 0, []);
    }
  }

  lemma {:induction false} BatchSpeaks(env: Environment, w: World, ctx: Context, calls: seq<ToolCall>, i: nat,
                                       messages: seq<Message>, events: seq<Event>, single: bool)
    requires WellSpoken(w, single) && i <= |calls| && DebtOf(messages) == Owes(calls[i..], |calls|)
    requires single ==> |calls| <= 1
    ensures var end := RunBatch(env, w, ctx, calls, i, messages, events);
            && WellSpoken(end.world, single) && end.world.sent == w.sent
            && (end.Continue? ==> DebtOf(end.messages) == Owes([], |calls|))
    decreases |calls| - i
  {
    hide Dispatch, ApprovalEvents, DebtOf, OutputEvents;
    if i < |calls| {
      DispatchSpeaks(env, w, calls[i], ctx, messages);
      var d := Dispatch(env, w, calls[i], ctx, messages);
      if !d.failed && !d.pending {
        DebtSnoc(messages, AnswerTo(calls[i], d.result));
        BatchSpeaks(env, d.world, ctx, calls, i + 1, messages + [AnswerTo(calls[i], d.result)],
                    events + [ToolStarted(calls[i].name)] + OutputEvents(calls[i].name, d.result) + [ToolFinished(calls[i].name)], single);
      }
    }
  }

  lemma FinishSpeaks(env: Environment, w: World, ctx: Context, content: string, events: seq<Event>, single: bool)
    requires WellSpoken(w, single)
    ensures var end := Finish(env, w, ctx, content, events);
            WellSpoken(end.world, single) && end.world.sent == w.sent
  {
    hide Trim, WellFormed, Awaits;
  }

  lemma SendingSpeaks(w: World, messages: seq<Message>, single: bool)
    requires WellSpoken(w, single) && WellFormed(messages, single)
    ensures WellSpoken(w.(sent := w.sent + [messages]), single)
  {
    hide WellFormed, Awaits;
  }

  /** A loop run sends only well-formed conversations, saves one that awaits its answer, and asks the model at most four times. */
  lemma {:induction false} TurnsSpeak(env: Environment, w: World, ctx: Context, turn: nat, messages: seq<Message>,
                                      events: seq<Event>, single: bool)
    requires turn <= MAX_TURNS && WellSpoken(w, single) && WellFormed(messages, single) && (single ==> SingleCalls(env))
    ensures var w' := RunTurns(env, w, ctx, turn, messages, events).world;
            WellSpoken(w', single) && |w'.sent| <= |w.sent| + MAX_TURNS - turn
    decreases MAX_TURNS - turn
  {
    hide WellSpoken, RunBatch, Finish, DebtOf;
    if turn < MAX_TURNS {
      var w1 := w.(sent := w.sent + [messages]);
      SendingSpeaks(w, messages, single);
      var reply := env.completion(|w.sent|);
      if reply.Some? {
        if reply.value.toolCalls == [] {
          FinishSpeaks(env, w1, ctx, reply.value.content, events, single);
        } else if ctx.toolsOn {
          var calls := reply.value.toolCalls;
          var batch := Message(Assistant, Words(reply.value.content), "", calls);
          DebtSnoc(messages, batch);
          assert calls[0..] == calls;
          BatchSpeaks(env, w1, ctx, calls, 0, messages + [batch], events, single);
          var end := RunBatch(env, w1, ctx, calls, 0, messages + [batch], events);
          if end.Continue? {
            TurnsSpeak(env, end.world, ctx, turn + 1, end.messages, end.events, single);
          }
        }
      }
    }
  }

  // --------------------------------------------------------------- any call

  ghost predicate SpeaksOn(w: World, w': World, single: bool) {
    WellSpoken(w', single) && |w'.sent| <= |w.sent| + MAX_TURNS
  }

  lemma SendChatSpeaks(env: Environment, w: World, message: string, sessionID: string, single: bool)
    requires WellSpoken(w, single) && (single ==> SingleCalls(env))
    ensures SpeaksOn(w, SendChat(env, w, message, sessionID).0, single)
  {
    hide RunTurns, Normalized, Opening, Trim, ToolsOn, ActiveProvider, DebtOf, Awaits;
    var provider := ActiveProvider(w.ai.providers);
    if provider.Some? {
      var w1 := w.(draws := w.draws + 1);
      OpeningIsWellFormed(w.ai, Trim(sessionID), Trim(message));
      TurnsSpeak(env, w1, StartContext(w.ai, provider.value, Trim(sessionID), Trim(message)), 0, Opening(w.ai, Trim(sessionID), Trim(message)), [], single);
    }
  }

  lemma RunAgentSpeaks(env: Environment, w: World, sessionID: string, input: string, single: bool)
    requires WellSpoken(w, single) && (single ==> SingleCalls(env))
    ensures SpeaksOn(w, RunAgent(env, w, sessionID, input).0, single)
  {
    hide RunTurns, Normalized, Opening, ToolsOn, ActiveProvider, DebtOf, Awaits, Closing;
    var provider := ActiveProvider(w.ai.providers);
    if provider.Some? {
      var w1 := w.(draws := w.draws + 2);
      OpeningIsWellFormed(w.ai, sessionID, input);
      TurnsSpeak(env, w1, StartContext(w.ai, provider.value, sessionID, input), 0, Opening(w.ai, sessionID, input), [MessageStarted], single);
    }
  }

  /** Resuming a saved conversation appends the suspended call's answer at the one position where it is due. */
  lemma ResumedIsWellFormed(p: PendingCall, policy: Policy, result: ToolResult, single: bool)
    requires Awaits(p, single)
    ensures var messages := RefreshPrompt(p.messages, policy, p.sessionID) + [Message(Tool, Result(result), p.toolCallID, [])];
            && WellFormed(messages, single)
            && DebtOf(messages) == Owes(DebtOf(p.messages).calls[1..], DebtOf(p.messages).total)
  {
    hide RefreshPrompt, DebtOf;
    RefreshKeepsShape(p.messages, policy, p.sessionID);
    DebtOfSameShape(p.messages, RefreshPrompt(p.messages, policy, p.sessionID));
    DebtSnoc(RefreshPrompt(p.messages, policy, p.sessionID), Message(Tool, Result(result), p.toolCallID, []));
  }

  lemma ResumeSpeaks(env: Environment, w: World, p: PendingCall, result: ToolResult, single: bool)
    requires WellSpoken(w, single) && Awaits(p, single) && (single ==> SingleCalls(env))
    ensures SpeaksOn(w, Resume(env, w, p, result).0, single)
  {
    hide RunTurns, Normalized, RefreshPrompt, Trim, ToolsOn, ProviderByID, WellFormed, Awaits;
    var provider := ProviderByID(w.ai.providers, Trim(p.providerID));
    if provider.Some? {
      var w1 := w.(draws := w.draws + 1);
      var (w2, saved) := Save(env, w1, w1.ai.(pendingCall := None));
      var messages := RefreshPrompt(p.messages, w.ai.policy, p.sessionID) + [Message(Tool, Result(result), p.toolCallID, [])];
      ResumedIsWellFormed(p, w.ai.policy, result, single);
      TurnsSpeak(env, w2, StartContext(w.ai, provider.value, p.sessionID, p.userMessage), 0, messages, [], single);
    }
  }

  /** Only the chat log may have grown, by messages that are not tool answers, and the continuation may be gone. */
  predicate Talked(w: World, w': World) {
    && w'.sent == w.sent
    && (w'.ai.pendingCall == w.ai.pendingCall || w'.ai.pendingCall.None?)
    && forall m :: m in w'.ai.messages ==> m in w.ai.messages || m.role != Tool
  }

  lemma TalkedSpeaks(w: World, w': World, single: bool)
    requires WellSpoken(w, single) && Talked(w, w')
    ensures SpeaksOn(w, w', single)
  {
    hide WellFormed, Awaits;
  }

  lemma RejectSpeaks(env: Environment, w: World, policy: Policy, i: nat, single: bool)
    requires WellSpoken(w, single) && i < |policy.pending| && (single ==> SingleCalls(env))
    ensures SpeaksOn(w, RejectRequest(env, w, policy, i).0, single)
  {
    hide Resume, Without, RejectedNote, SpeaksOn, Awaits, WellFormed;
    var r := policy.pending[i];
    if Holds(w.ai, r.id) {
      var (w1, saved) := Save(env, w, w.ai.(policy := policy.(pending := Without(policy.pending, i)), pendingCall := None));
      TalkedSpeaks(w, w1, single);
      ResumeAfter(env, w, w1, w.ai.pendingCall.value, ApprovalDenied, single);
    } else {
      TalkedSpeaks(w, RejectRequest(env, w, policy, i).0, single);
    }
  }

  lemma ResumeAfter(env: Environment, w: World, w1: World, p: PendingCall, result: ToolResult, single: bool)
    requires WellSpoken(w, single) && Talked(w, w1) && w.ai.pendingCall == Some(p) && (single ==> SingleCalls(env))
    ensures SpeaksOn(w, Resume(env, w1, p, result).0, single)
  {
    hide Resume, Talked, Awaits, WellFormed;
    assert w1.sent == w.sent by { TalkedKeepsSent(w, w1); }
    TalkedSpeaks(w, w1, single);
    ResumeSpeaks(env, w1, p, result, single);
  }

  lemma TalkedKeepsSent(w: World, w': World)
    requires Talked(w, w')
    ensures w'.sent == w.sent
  {
  }

  lemma ApproveWriteSpeaks(env: Environment, w: World, r: CommandRequest, single: bool)
    requires WellSpoken(w, single) && (single ==> SingleCalls(env))
    ensures SpeaksOn(w, ApproveWrite(env, w, r).0, single)
  {
    hide Resume, SpeaksOn, Awaits, WellFormed, Trim, Field, Utf8Length, FindTab, StrictlyConnected, WellSpoken;
    var w' := ApproveWrite(env, w, r).0;
    if w'.sent == w.sent && (w'.ai == w.ai || w'.ai == w.ai.(pendingCall := None)) {
      TalkedSpeaks(w, w', single);
    } else {
      var p := w.ai.pendingCall.value;
      var (w1, saved) := Save(env, w, w.ai.(pendingCall := None));
      var fields := p.arguments.fields;
      var session, path, content := Trim(Field(fields, "sessionId")), Trim(Field(fields, "path")), Field(fields, "content");
      var w2 := w1.(effects := w1.effects + [WroteFile(session, path, content, r.id)], draws := w1.draws + 1);
      ResumeAfter(env, w, w2, p, Wrote(session, path, env.succeeds(w1.draws)), single);
    }
  }

  lemma ExecuteSpeaksNot(env: Environment, w: World, sessionID: string, command: string, route: Route)
    ensures var w' := Execute(env, w, sessionID, command, route).0; w'.sent == w.sent && w'.ai == w.ai
  {
    hide Trim, ConnectedSSH;
  }

  lemma ApproveCommandSpeaks(env: Environment, w: World, policy: Policy, i: nat, mode: Mode, single: bool)
    requires WellSpoken(w, single) && i < |policy.pending| && (single ==> SingleCalls(env))
    ensures SpeaksOn(w, ApproveCommand(env, w, policy, i, mode).0, single)
  {
    hide Resume, Without, DeniedNote, Report, SpeaksOn, Awaits, WellFormed, WellSpoken, Decide, Execute, PolicyAfterApproval;
    var r := policy.pending[i];
    var w' := ApproveCommand(env, w, policy, i, mode).0;
    if Decide(policy, r.toolID, r.sessionID, r.command) == Decision.Deny {
      TalkedSpeaks(w, w', single);
    } else if Holds(w.ai, r.id) {
      var (w1, saved) := Save(env, w, w.ai.(policy := PolicyAfterApproval(policy, i, mode), pendingCall := None));
      ExecuteSpeaksNot(env, w1, r.sessionID, r.command, Approved(r.id));
      var (w2, execution) := Execute(env, w1, r.sessionID, r.command, Approved(r.id));
      TalkedSpeaks(w, w1, single);
      ResumeAfter(env, w, w2, w.ai.pendingCall.value, Ran(r.sessionID, r.command, execution), single);
    } else {
      ExecuteSpeaksNot(env, w, r.sessionID, r.command, Approved(r.id));
      TalkedSpeaks(w, w', single);
    }
  }

  lemma ResolveSpeaks(env: Environment, w: World, requestID: string, mode: Mode, single: bool)
    requires WellSpoken(w, single) && (single ==> SingleCalls(env))
    ensures SpeaksOn(w, ResolveRequest(env, w, requestID, mode).0, single)
  {
    hide RejectRequest, ApproveWrite, ApproveCommand, Trim, Normalized, ToolEnabled, FindTab, Matches, Without, SpeaksOn, WellSpoken;
    var policy := Normalized(w.ai.policy);
    var found := FindRequest(policy.pending, Trim(requestID));
    var w' := ResolveRequest(env, w, requestID, mode).0;
    if found.Some? && Trim(requestID) != "" {
      RejectSpeaks(env, w, policy, found.value, single);
      if Grants(mode) {
        ApproveWriteSpeaks(env, w, policy.pending[found.value], single);
        ApproveCommandSpeaks(env, w, policy, found.value, mode, single);
      }
    }
    if Talked(w, w') {
      TalkedSpeaks(w, w', single);
    }
  }

  /** Every service call sends at most four message lists, all well formed, and leaves a continuation that awaits its answer. */
  lemma StepSpeaks(env: Environment, w: World, action: ServiceCall, single: bool)
    requires WellSpoken(w, single) && (single ==> SingleCalls(env))
    ensures SpeaksOn(w, Step(env, w, action).0, single)
  {
    hide SendChat, RunAgent, ResolveRequest, Normalized, Decimal, SpeaksOn, WellSpoken;
    match action
    case Send(message, sessionID) => SendChatSpeaks(env, w, message, sessionID, single);
    case AgentRun(sessionID, input) => RunAgentSpeaks(env, w, sessionID, input, single);
    case Resolve(requestID, mode) => ResolveSpeaks(env, w, requestID, mode, single);
    case _ => TalkedSpeaks(w, Step(env, w, action).0, single);
  }

  /** Over every run, every message list sent to the model is well formed; with one-call batches every call is answered. */
  lemma {:induction false} EveryRunSpeaksWell(env: Environment, w: World, calls: seq<ServiceCall>, single: bool)
    requires WellSpoken(w, single) && (single ==> SingleCalls(env))
    ensures WellSpoken(Run(env, w, calls), single) && |Run(env, w, calls).sent| <= |w.sent| + MAX_TURNS * |calls|
    decreases |calls|
  {
    hide Step, WellSpoken;
    if calls != [] {
      StepSpeaks(env, w, calls[0], single);
      EveryRunSpeaksWell(env, Step(env, w, calls[0]).0, calls[1..], single);
    }
  }

  /** A service whose chat holds no tool messages and that has sent nothing speaks well from the start. */
  lemma SilenceIsWellSpoken(w: World, single: bool)
    requires w.sent == [] && w.ai.pendingCall.None? && forall m :: m in w.ai.messages ==> m.role != Tool
    ensures WellSpoken(w, single)
  {
  }

  /**
   From such a service, over every run, no message list out of order was ever sent, at
   most four were sent per call, and a continuation that is saved awaits its own answer.
   */
  lemma EveryRunSpeaksFromTheStart(env: Environment, w: World, calls: seq<ServiceCall>, single: bool)
    requires w.sent == [] && w.ai.pendingCall.None? && (forall m :: m in w.ai.messages ==> m.role != Tool)
    requires single ==> SingleCalls(env)
    ensures var w' := Run(env, w, calls);
            && (forall k :: 0 <= k < |w'.sent| ==> WellFormed(w'.sent[k], single))
            && |w'.sent| <= MAX_TURNS * |calls|
            && (w'.ai.pendingCall.Some? ==> Awaits(w'.ai.pendingCall.value, single))
  {
    hide Run, WellFormed, Awaits, SingleCalls;
    SilenceIsWellSpoken(w, single);
    EveryRunSpeaksWell(env, w, calls, single);
  }
}
