/**
 What the model is told and where replies come from: what a conversation opens
 with, how each list sent extends the one before, that the model is answered
 what the host said and the pane shows, and that a reply is the model's own.
 */
module Answers {
  import opened Text
  import opened CommandPolicy
  import PolicyTheorems
  import opened ToolCalling
  import opened LoopFacts
  import opened RunSafety
  import opened AtMostOnce
  import opened AgentEvents

  // --------------------------------------------------- model and pane agree

  /** The answers to a batch, as the conversation holds them. */
  function AnswersOf(calls: seq<ToolCall>, i: nat, log: seq<Entry>): (r: seq<Message>)
    requires i + |log| <= |calls|
    ensures |r| == |log| && forall j :: 0 <= j < |r| ==> r[j] == Message(Tool, Result(log[j].result), calls[i + j].id, [])
  {
    seq(|log|, j requires 0 <= j < |log| => Message(Tool, Result(log[j].result), calls[i + j].id, []))
  }

  /**
   A batch that goes on has answered each call, in order and under its identifier, with
   the very result its view in the pane shows; one that suspends stops with the last such result.
   */
  lemma {:induction false} BatchTellsTheModel(env: Environment, w: World, ctx: Context, calls: seq<ToolCall>, i: nat,
                                              messages: seq<Message>, events: seq<Event>)
    requires i <= |calls|
    ensures var end, log := RunBatch(env, w, ctx, calls, i, messages, events), BatchLog(env, w, ctx, calls, i, messages);
            && i + |log| <= |calls|
            && (end.Continue? ==> i + |log| == |calls| && end.messages == messages + AnswersOf(calls, i, log))
            && (end.Stop? ==> |log| > 0 && (end.outcome.Suspended? ==> end.outcome.result == log[|log| - 1].result))
    decreases |calls| - i
  {
    hide Dispatch, ApprovalEvents, OutputEvents;
    if i < |calls| {
      var d := Dispatch(env, w, calls[i], ctx, messages);
      if !d.failed && !d.pending {
        var messages' := messages + [AnswerTo(calls[i], d.result)];
        var events' := events + [ToolStarted(calls[i].name)] + OutputEvents(calls[i].name, d.result) + [ToolFinished(calls[i].name)];
        BatchTellsTheModel(env, d.world, ctx, calls, i + 1, messages', events');
        var rest := BatchLog(env, d.world, ctx, calls, i + 1, messages');
        var log := BatchLog(env, w, ctx, calls, i, messages);
        assert log == [Entry(calls[i].name, d.result, true)] + rest;
        assert AnswersOf(calls, i, log) == [AnswerTo(calls[i], d.result)] + AnswersOf(calls, i + 1, rest);
      }
    }
  }

  // ------------------------------------------------------ lists that are sent

  /** The list extends another by an assistant turn and one answer, in order, to each of its calls. */
  ghost predicate Extends(before: seq<Message>, reply: Completion, after: seq<Message>) {
    && |after| == |before| + 1 + |reply.toolCalls| && before <= after
    && after[|before|] == Message(Assistant, Words(reply.content), "", reply.toolCalls)
    && forall j :: 0 <= j < |reply.toolCalls| ==>
         var m := after[|before| + 1 + j]; m.role == Tool && m.content.Result? && m.toolCallID == reply.toolCalls[j].id
  }

  /** From list `first` on, each list sent extends the one before it by what the model had replied to that. */
  ghost predicate Converses(env: Environment, sent: seq<seq<Message>>, first: nat) {
    forall k :: first <= k < |sent| - 1 ==>
      env.completion(k).Some? && env.completion(k).value.toolCalls != [] && Extends(sent[k], env.completion(k).value, sent[k + 1])
  }

  /** A reply is what the model said to the last list sent, trimmed, and it called no tool. */
  ghost predicate IsTheModels(env: Environment, sent: seq<seq<Message>>, reply: string) {
    && |sent| > 0 && env.completion(|sent| - 1).Some?
    && env.completion(|sent| - 1).value.toolCalls == []
    && reply == Trim(env.completion(|sent| - 1).value.content) != ""
  }

  /** What a whole loop sends and where its reply comes from. */
  ghost predicate Conversed(env: Environment, w: World, messages: seq<Message>, end: LoopEnd) {
    && |end.world.sent| > |w.sent| && w.sent <= end.world.sent && end.world.sent[|w.sent|] == messages
    && Converses(env, end.world.sent, |w.sent|)
    && (end.outcome.Replied? ==> IsTheModels(env, end.world.sent, end.outcome.text))
  }

  /** A loop sends the opening list first, each later one extends the one before, and a reply is the model's. */
  lemma {:induction false} TurnsConverse(env: Environment, w: World, ctx: Context, turn: nat, messages: seq<Message>, events: seq<Event>)
    requires turn < MAX_TURNS
    ensures Conversed(env, w, messages, RunTurns(env, w, ctx, turn, messages, events))
    decreases MAX_TURNS - turn
  {
    hide RunBatch, BatchLog, Trim, Watch, Conversed, Finish;
    var w1 := w.(sent := w.sent + [messages]);
    var reply, end := env.completion(|w.sent|), RunTurns(env, w, ctx, turn, messages, events);
    if reply.Some? && reply.value.toolCalls != [] && ctx.toolsOn {
      var asked := messages + [Message(Assistant, Words(reply.value.content), "", reply.value.toolCalls)];
      BatchSaysNothing(env, w1, ctx, reply.value.toolCalls, 0, asked, events, View([], [], None));
      var batch := RunBatch(env, w1, ctx, reply.value.toolCalls, 0, asked, events);
      if batch.Continue? && turn + 1 < MAX_TURNS {
        BatchExtends(env, w1, ctx, reply.value, messages, events);
        TurnsConverse(env, batch.world, ctx, turn + 1, batch.messages, batch.events);
        LaterConversed(env, w, batch.world, messages, batch.messages, reply.value, end);
      } else {
        if batch.Continue? {
          assert RunTurns(env, batch.world, ctx, turn + 1, batch.messages, batch.events).world == batch.world;
        }
        OnceConversed(env, w, messages, end);
      }
    } else if reply.Some? && reply.value.toolCalls == [] {
      FinishConversed(env, w, ctx, reply.value, messages, events);
    } else {
      OnceConversed(env, w, messages, end);
    }
  }

  lemma OnceConversed(env: Environment, w: World, messages: seq<Message>, end: LoopEnd)
    requires end.world.sent == w.sent + [messages] && !end.outcome.Replied?
    ensures Conversed(env, w, messages, end)
  {
    hide Extends;
  }

  lemma FinishConversed(env: Environment, w: World, ctx: Context, reply: Completion, messages: seq<Message>, events: seq<Event>)
    requires env.completion(|w.sent|) == Some(reply) && reply.toolCalls == []
    ensures Conversed(env, w, messages, Finish(env, w.(sent := w.sent + [messages]), ctx, reply.content, events))
  {
    hide Extends, Trim;
  }

  lemma BatchExtends(env: Environment, w: World, ctx: Context, reply: Completion, messages: seq<Message>, events: seq<Event>)
    ensures var end := RunBatch(env, w, ctx, reply.toolCalls, 0, messages + [Message(Assistant, Words(reply.content), "", reply.toolCalls)], events);
            end.Continue? ==> Extends(messages, reply, end.messages)
  {
    hide RunBatch, BatchLog, AnswersOf, Extends;
    var asked := messages + [Message(Assistant, Words(reply.content), "", reply.toolCalls)];
    BatchTellsTheModel(env, w, ctx, reply.toolCalls, 0, asked, events);
    if RunBatch(env, w, ctx, reply.toolCalls, 0, asked, events).Continue? {
      AnswersExtend(reply, messages, BatchLog(env, w, ctx, reply.toolCalls, 0, asked));
    }
  }

  lemma AnswersExtend(reply: Completion, messages: seq<Message>, log: seq<Entry>)
    requires |log| == |reply.toolCalls|
    ensures Extends(messages, reply, messages + [Message(Assistant, Words(reply.content), "", reply.toolCalls)] + AnswersOf(reply.toolCalls, 0, log))
  {
    hide AnswersOf;
    var turn, answers := Message(Assistant, Words(reply.content), "", reply.toolCalls), AnswersOf(reply.toolCalls, 0, log);
    var after := messages + [turn] + answers;
    JoinedAt(messages, turn, answers);
    assert |after| == |messages| + 1 + |reply.toolCalls| && messages <= after && after[|messages|] == turn;
    forall j | 0 <= j < |reply.toolCalls|
      ensures var m := after[|messages| + 1 + j]; m.role == Tool && m.content.Result? && m.toolCallID == reply.toolCalls[j].id
    {
      assert after[|messages| + 1 + j] == answers[j] == Message(Tool, Result(log[j].result), reply.toolCalls[0 + j].id, []);
    }
  }

  lemma JoinedAt<X>(a: seq<X>, m: X, b: seq<X>)
    ensures var all := a + [m] + b;
            && |all| == |a| + 1 + |b| && a <= all && all[|a|] == m
            && forall j :: 0 <= j < |b| ==> all[|a| + 1 + j] == b[j]
  {
  }

  lemma LaterConversed(env: Environment, w: World, w2: World, messages: seq<Message>, messages': seq<Message>, reply: Completion, end: LoopEnd)
    requires w2.sent == w.sent + [messages] && env.completion(|w.sent|) == Some(reply) && reply.toolCalls != []
    requires Extends(messages, reply, messages') && Conversed(env, w2, messages', end)
    ensures Conversed(env, w, messages, end)
  {
    hide Extends, IsTheModels, Converses;
    StepConverses(env, w, messages, messages', reply, end.world.sent);
    assert end.world.sent[|w.sent|] == w2.sent[|w.sent|];
  }

  lemma StepConverses(env: Environment, w: World, messages: seq<Message>, messages': seq<Message>, reply: Completion, sent: seq<seq<Message>>)
    requires env.completion(|w.sent|) == Some(reply) && reply.toolCalls != [] && Extends(messages, reply, messages')
    requires w.sent + [messages] <= sent && |sent| > |w.sent| + 1 && sent[|w.sent| + 1] == messages'
    requires Converses(env, sent, |w.sent| + 1)
    ensures Converses(env, sent, |w.sent|)
  {
    hide Extends;
    assert sent[|w.sent|] == (w.sent + [messages])[|w.sent|];
  }

  // ------------------------------------------------------- opening a conversation

  /** What a new conversation opens with: the prompt for the enabled tools, what was said so far, and the user's words. */
  ghost predicate Opens(ai: AIState, sessionID: string, input: string, first: seq<Message>) {
    && |first| == |ai.messages| + 2
    && first[0] == Message(System, Prompt(EnabledTools(NormalizedTools(ai.policy.tools)), sessionID), "", [])
    && (forall i :: 0 <= i < |ai.messages| ==> first[i + 1] == Message(ai.messages[i].role, Words(ai.messages[i].text), "", []))
    && first[|first| - 1] == Message(User, Words(input), "", [])
  }

  lemma OpeningOpens(ai: AIState, sessionID: string, input: string)
    ensures Opens(ai, sessionID, input, Opening(ai, sessionID, input))
  {
    hide EnabledTools, NormalizedTools, Transcript;
    var prompt, said, asked := [Message(System, SystemPrompt(ai.policy, sessionID), "", [])], Transcript(ai.messages), [Message(User, Words(input), "", [])];
    var first := Opening(ai, sessionID, input);
    assert first == prompt + said + asked;
    assert first[0] == prompt[0] && first[|first| - 1] == asked[0];
    forall i | 0 <= i < |said| ensures first[i + 1] == said[i] {
      assert (prompt + said)[i + 1] == said[i];
    }
  }

  predicate Chosen(provider: Provider) {
    provider.selected && provider.configured
  }

  /** The provider that is used is the first one that is both selected and configured. */
  lemma {:induction false} FirstChosenIsUsed(providers: seq<Provider>)
    ensures match ActiveProvider(providers)
            case None => forall i :: 0 <= i < |providers| ==> !Chosen(providers[i])
            case Some(p) => exists i :: 0 <= i < |providers| && providers[i] == p && Chosen(p) && forall j :: 0 <= j < i ==> !Chosen(providers[j])
  {
    if providers != [] {
      if Chosen(providers[0]) {
        assert ActiveProvider(providers) == Some(providers[0]);
      } else {
        FirstChosenIsUsed(providers[1..]);
        var p := ActiveProvider(providers[1..]);
        if p.Some? {
          var i :| 0 <= i < |providers[1..]| && providers[1..][i] == p.value && forall j :: 0 <= j < i ==> !Chosen(providers[1..][j]);
          assert providers[i + 1] == p.value;
          forall j | 0 <= j < i + 1 ensures !Chosen(providers[j]) {
            assert j > 0 ==> providers[j] == providers[1..][j - 1];
          }
        } else {
          forall j | 0 <= j < |providers| ensures !Chosen(providers[j]) {
            assert j > 0 ==> providers[j] == providers[1..][j - 1];
          }
        }
      }
    }
  }

  /** The model can be asked: some provider is selected and configured, and it can be used. */
  predicate CanAsk(env: Environment, w: World) {
    (exists i :: 0 <= i < |w.ai.providers| && Chosen(w.ai.providers[i])) && env.succeeds(w.draws)
  }

  /**
   A message that is not blank starts a conversation exactly when the model can be asked.
   It opens with prompt, transcript and message, each list extends the one before, and what
   is added to the transcript is nothing or the message and the model's own last words.
   */
  lemma SendTells(env: Environment, w: World, message: string, sessionID: string)
    ensures var (w', reply) := SendChat(env, w, message, sessionID);
            && (w'.sent != w.sent <==> Trim(message) != "" && CanAsk(env, w))
            && (w'.sent != w.sent ==>
                  && |w'.sent| > |w.sent| && w.sent <= w'.sent && Opens(w.ai, Trim(sessionID), Trim(message), w'.sent[|w.sent|])
                  && Converses(env, w'.sent, |w.sent|))
            && (w'.ai.messages == w.ai.messages
                || exists text :: reply == Done && IsTheModels(env, w'.sent, text)
                                  && w'.ai.messages == w.ai.messages + [ChatMessage(User, Trim(message)), ChatMessage(Assistant, text)])
            && (reply == Done && w'.ai.messages == w.ai.messages ==> |w'.asked| > |w.asked|)
  {
    hide RunTurns, Normalized, Opening, Trim, ToolsOn, ActiveProvider, Opens, Converses, IsTheModels, Watch;
    FirstChosenIsUsed(w.ai.providers);
    var provider := ActiveProvider(w.ai.providers);
    if Trim(message) != "" && provider.Some? && env.succeeds(w.draws) {
      var w1 := w.(draws := w.draws + 1);
      var ctx := StartContext(w.ai, provider.value, Trim(sessionID), Trim(message));
      var opening := Opening(w.ai, Trim(sessionID), Trim(message));
      OpeningOpens(w.ai, Trim(sessionID), Trim(message));
      TurnsConverse(env, w1, ctx, 0, opening, []);
      TurnsSayNothing(env, w1, ctx, 0, opening, [], View([], [], None));
      var end := RunTurns(env, w1, ctx, 0, opening, []);
      if end.outcome.Replied? {
        assert IsTheModels(env, end.world.sent, end.outcome.text);
      }
    }
  }

  /** An agent run's conversation, likewise; here neither session nor input is trimmed. */
  lemma AgentTells(env: Environment, w: World, sessionID: string, input: string)
    ensures var w' := RunAgent(env, w, sessionID, input).0;
            && (w'.sent != w.sent ==>
                  && |w'.sent| > |w.sent| && w.sent <= w'.sent && Opens(w.ai, sessionID, input, w'.sent[|w.sent|])
                  && Converses(env, w'.sent, |w.sent|))
            && (AgentOutcome(env, w, sessionID, input).Replied? ==> IsTheModels(env, w'.sent, AgentOutcome(env, w, sessionID, input).text))
  {
    hide RunTurns, Normalized, Opening, Trim, ToolsOn, ActiveProvider, Opens, Converses, IsTheModels, ToolCalling.Closing;
    var provider := ActiveProvider(w.ai.providers);
    if env.succeeds(w.draws) && provider.Some? && env.succeeds(w.draws + 1) {
      var w1 := w.(draws := w.draws + 2);
      var ctx := StartContext(w.ai, provider.value, sessionID, input);
      OpeningOpens(w.ai, sessionID, input);
      TurnsConverse(env, w1, ctx, 0, Opening(w.ai, sessionID, input), [MessageStarted]);
    }
  }

  // --------------------------------------------------------------- turn limit

  /** A model that always asks for a tool that does not exist. */
  const ASKS_FOREVER := Environment(
    (n: nat) => Some(Completion("", [ToolCall("call", "function", "", Malformed)])), (n: nat) => NOT_RUN, (n: nat) => "", (n: nat) => true)

  /** It is sent four lists, and then the loop gives up. */
  lemma {:induction false} FourTurnsAtMost(w: World, ctx: Context, turn: nat, messages: seq<Message>, events: seq<Event>)
    requires turn <= 4 && ctx.toolsOn
    ensures turn <= MAX_TURNS
    ensures var end := RunTurns(ASKS_FOREVER, w, ctx, turn, messages, events);
            end.outcome.Failed? && |end.world.sent| == |w.sent| + 4 - turn
    decreases 4 - turn
  {
    if turn < 4 {
      var calls := [ToolCall("call", "function", "", Malformed)];
      var w1, asked := w.(sent := w.sent + [messages]), messages + [Message(Assistant, Words(""), "", calls)];
      UnknownToolGoesOn(w1, ctx, calls, asked, events);
      hide RunBatch;
      var end := RunBatch(ASKS_FOREVER, w1, ctx, calls, 0, asked, events);
      FourTurnsAtMost(end.world, ctx, turn + 1, end.messages, end.events);
    }
  }

  lemma UnknownToolGoesOn(w: World, ctx: Context, calls: seq<ToolCall>, messages: seq<Message>, events: seq<Event>)
    requires calls == [ToolCall("call", "function", "", Malformed)]
    ensures var end := RunBatch(ASKS_FOREVER, w, ctx, calls, 0, messages, events);
            end.Continue? && end.world == w
  {
  }

  // ---------------------------------------------------------------- no tools

  /** With neither shell nor SFTP enabled a conversation reaches no host and raises no request, whatever the model asks for. */
  lemma NoToolsNoEffects(env: Environment, w: World, action: ServiceCall)
    requires action.Send? || action.AgentRun?
    requires !ToolEnabled(w.ai.policy.tools, SHELL) && !ToolEnabled(w.ai.policy.tools, SFTP)
    ensures var w' := Step(env, w, action).0; w'.effects == w.effects && w'.asked == w.asked
  {
    hide RunTurns, Normalized, Opening, Trim, ActiveProvider, ToolEnabled, ToolCalling.Closing;
    forall w1: World, ctx: Context, messages, events | !ctx.toolsOn
      ensures var end := RunTurns(env, w1, ctx, 0, messages, events); end.world.effects == w1.effects && end.world.asked == w1.asked
    {
      ToolsOffDoesNothing(env, w1, ctx, messages, events);
    }
  }

  lemma ToolsOffDoesNothing(env: Environment, w: World, ctx: Context, messages: seq<Message>, events: seq<Event>)
    requires !ctx.toolsOn
    ensures var end := RunTurns(env, w, ctx, 0, messages, events); end.world.effects == w.effects && end.world.asked == w.asked
  {
    hide Trim;
  }

  // ---------------------------------------------------- answering an approval

  /** The saved conversation as it is taken up again: its prompt made anew for the policy now in force, everything else as saved. */
  ghost predicate TakesUp(ai: AIState, pending: PendingCall, result: ToolResult, first: seq<Message>) {
    && |first| == |pending.messages| + 1
    && first[|pending.messages|] == Message(Tool, Result(result), pending.toolCallID, [])
    && (forall i :: 0 < i < |pending.messages| ==> first[i] == pending.messages[i])
    && (pending.messages != [] ==>
          first[0] == if pending.messages[0].role != System then pending.messages[0]
                      else pending.messages[0].(content := Prompt(EnabledTools(NormalizedTools(ai.policy.tools)), pending.sessionID)))
  }

  /** The conversation can be taken up: its provider is listed and usable, and the store can be written. */
  ghost predicate CanResume(env: Environment, ai: AIState, pending: PendingCall, draws: nat) {
    && Trim(pending.providerID) != "" && (exists i :: 0 <= i < |ai.providers| && ai.providers[i].id == Trim(pending.providerID))
    && env.succeeds(draws) && env.succeeds(draws + 1)
  }

  lemma {:induction false} ProviderIsListed(providers: seq<Provider>, id: string)
    ensures ProviderByID(providers, id).Some? <==> exists i :: 0 <= i < |providers| && providers[i].id == id
  {
    if providers != [] && providers[0].id != id {
      ProviderIsListed(providers[1..], id);
      assert forall i :: 0 < i < |providers| ==> providers[i] == providers[1..][i - 1];
      if i :| 0 <= i < |providers[1..]| && providers[1..][i].id == id {
        assert providers[i + 1].id == id;
      }
    }
  }

  lemma RefreshTakesUp(ai: AIState, pending: PendingCall, result: ToolResult)
    ensures TakesUp(ai, pending, result,
                    RefreshPrompt(pending.messages, ai.policy, pending.sessionID) + [Message(Tool, Result(result), pending.toolCallID, [])])
  {
    hide EnabledTools, NormalizedTools;
  }

  /** Resuming sends the saved conversation with the answer exactly when it can, and goes on from there. */
  lemma ResumeTells(env: Environment, w: World, pending: PendingCall, result: ToolResult)
    ensures var w' := Resume(env, w, pending, result).0;
            && w.sent <= w'.sent
            && (|w'.sent| > |w.sent| <==> CanResume(env, w.ai, pending, w.draws))
            && (|w'.sent| > |w.sent| ==> TakesUp(w.ai, pending, result, w'.sent[|w.sent|]) && Converses(env, w'.sent, |w.sent|))
  {
    hide RunTurns, Normalized, RefreshPrompt, Trim, ToolsOn, ProviderByID, TakesUp, Converses, IsTheModels;
    ProviderIsListed(w.ai.providers, Trim(pending.providerID));
    var provider := ProviderByID(w.ai.providers, Trim(pending.providerID));
    if CanResume(env, w.ai, pending, w.draws) {
      RefreshTakesUp(w.ai, pending, result);
      var w2 := w.(draws := w.draws + 2, ai := w.ai.(pendingCall := None));
      var messages := RefreshPrompt(pending.messages, w.ai.policy, pending.sessionID) + [Message(Tool, Result(result), pending.toolCallID, [])];
      TurnsConverse(env, w2, StartContext(w.ai, provider.value, pending.sessionID, pending.userMessage), 0, messages, []);
    }
  }

  lemma TakenUpAlike(a: AIState, b: AIState, pending: PendingCall, result: ToolResult, first: seq<Message>)
    requires NormalizedTools(a.policy.tools) == NormalizedTools(b.policy.tools)
    ensures TakesUp(a, pending, result, first) <==> TakesUp(b, pending, result, first)
  {
    hide EnabledTools, NormalizedTools;
  }

  /** The conversation is taken up with this answer, if it can be once some accesses have been made. */
  ghost predicate AnsweredWith(env: Environment, w: World, w': World, result: ToolResult, draws: nat) {
    w.ai.pendingCall.Some? && CanResume(env, w.ai, w.ai.pendingCall.value, draws) ==>
      |w'.sent| > |w.sent| && TakesUp(w.ai, w.ai.pendingCall.value, result, w'.sent[|w.sent|])
  }

  lemma ResumedWith(env: Environment, w: World, w1: World, result: ToolResult)
    requires w.ai.pendingCall.Some? && w1.sent == w.sent && w1.ai.providers == w.ai.providers
    requires NormalizedTools(w1.ai.policy.tools) == NormalizedTools(w.ai.policy.tools)
    ensures AnsweredWith(env, w, Resume(env, w1, w.ai.pendingCall.value, result).0, result, w1.draws)
  {
    hide NormalizedTools, Resume, TakesUp, Converses, Trim;
    ResumeTells(env, w1, w.ai.pendingCall.value, result);
    var w' := Resume(env, w1, w.ai.pendingCall.value, result).0;
    if |w'.sent| > |w1.sent| {
      TakenUpAlike(w1.ai, w.ai, w.ai.pendingCall.value, result, w'.sent[|w.sent|]);
    }
  }

  lemma ToolsStay(policy: Policy)
    ensures NormalizedTools(Normalized(policy).tools) == NormalizedTools(policy.tools)
  {
    hide NormalizedTools;
    PolicyTheorems.NormalizedToolsIdempotent(policy.tools);
  }

  /** A saved denial of a held request is what the model is then told. */
  lemma DenialIsAnswered(env: Environment, w: World, i: nat)
    requires i < |Listed(w)| && Holds(w.ai, Listed(w)[i].id) && env.succeeds(w.draws)
    ensures Normalized(w.ai.policy).pending == Listed(w)
    ensures AnsweredWith(env, w, RejectRequest(env, w, Normalized(w.ai.policy), i).0, ApprovalDenied, w.draws + 1)
  {
    hide Listed, Normalized, Resume, AnsweredWith, RejectedNote, Without, NormalizedTools;
    PendingIsListed(w);
    var policy := Normalized(w.ai.policy);
    ToolsStay(w.ai.policy);
    var w1 := Save(env, w, w.ai.(policy := policy.(pending := Without(policy.pending, i)), pendingCall := None)).0;
    ResumedWith(env, w, w1, ApprovalDenied);
  }

  /** An approved command that runs is answered with what its host said to it. */
  lemma ApprovedCommandIsAnswered(env: Environment, w: World, i: nat, mode: Mode)
    requires i < |Listed(w)| && Holds(w.ai, Listed(w)[i].id) && env.succeeds(w.draws) && RunsAs(w, Listed(w)[i], Listed(w)[i].id)
    ensures Normalized(w.ai.policy).pending == Listed(w)
    ensures var r := Listed(w)[i];
            AnsweredWith(env, w, ApproveCommand(env, w, Normalized(w.ai.policy), i, mode).0,
                         Ran(r.sessionID, r.command, env.execution(|w.effects|)), w.draws + 1)
  {
    hide Listed, Normalized, Resume, AnsweredWith, NormalizedTools, Execute, NormalizedRules, GrantFor, Without, Decide, RunsAs, DeniedNote, Report;
    PendingIsListed(w);
    var r, policy := Listed(w)[i], Normalized(w.ai.policy);
    ToolsStay(w.ai.policy);
    NotDenied(w, r);
    var w1 := Save(env, w, w.ai.(policy := PolicyAfterApproval(policy, i, mode), pendingCall := None)).0;
    ExecutedAnswer(env, w, w1, r);
    ResumedWith(env, w, Execute(env, w1, r.sessionID, r.command, Approved(r.id)).0, Ran(r.sessionID, r.command, env.execution(|w.effects|)));
  }

  lemma NotDenied(w: World, r: CommandRequest)
    requires RunsAs(w, r, r.id)
    ensures Decide(Normalized(w.ai.policy), r.toolID, r.sessionID, r.command) != Decision.Deny
  {
    hide Decide, Normalized, Listed, ToolEnabled, ConnectedSSH;
    DecideNormalizedRequest(w, r);
  }

  lemma ExecutedAnswer(env: Environment, w: World, w1: World, r: CommandRequest)
    requires RunsAs(w, r, r.id) && w1.tabs == w.tabs && w1.effects == w.effects
    ensures var (w2, execution) := Execute(env, w1, r.sessionID, r.command, Approved(r.id));
            execution == env.execution(|w.effects|) && w2 == w1.(effects := w2.effects)
  {
    hide Listed, Decide, Trim, ToolEnabled, ConnectedSSH, FindTab;
    ListedRequestIsClean(w, r);
  }

  /** An approved write that is carried out is answered with its session, its path and whether it succeeded. */
  lemma ApprovedWriteIsAnswered(env: Environment, w: World, r: CommandRequest)
    requires WriteIsReady(w, r) && env.succeeds(w.draws)
    requires Trim(Field(w.ai.pendingCall.value.arguments.fields, "sessionId")) == r.sessionID
    ensures AnsweredWith(env, w, ApproveWrite(env, w, r).0,
                         Wrote(r.sessionID, Trim(Field(w.ai.pendingCall.value.arguments.fields, "path")), env.succeeds(w.draws + 1)), w.draws + 2)
  {
    hide Resume, Trim, Utf8Length, FindTab, StrictlyConnected, Field, AnsweredWith, NormalizedTools;
    var fields := w.ai.pendingCall.value.arguments.fields;
    var w1 := Save(env, w, w.ai.(pendingCall := None)).0;
    var path, content := Trim(Field(fields, "path")), Field(fields, "content");
    var w2 := w1.(effects := w1.effects + [WroteFile(r.sessionID, path, content, r.id)], draws := w1.draws + 1);
    ResumedWith(env, w, w2, Wrote(r.sessionID, path, env.succeeds(w1.draws)));
  }

  // ------------------------------------------------------ what a suspension saves

  /** The continuation is this conversation's: its provider, its user's words, and its lists so far. */
  ghost predicate Saves(ai: AIState, ctx: Context, messages: seq<Message>) {
    && ai.pendingCall.Some? && ai.pendingCall.value.providerID == ctx.providerID
    && ai.pendingCall.value.userMessage == ctx.userMessage && messages <= ai.pendingCall.value.messages
  }

  lemma DispatchSaves(env: Environment, w: World, call: ToolCall, ctx: Context, messages: seq<Message>)
    ensures var d := Dispatch(env, w, call, ctx, messages); d.pending ==> Saves(d.world.ai, ctx, messages)
  {
    hide Trim, Decide, Field, ConnectedSSH, Normalized, RequestID, Decimal, Utf8Length, FindTab, StrictlyConnected, ToolEnabled, FirstBlocked, RunChecks, KindOf;
  }

  lemma {:induction false} BatchSaves(env: Environment, w: World, ctx: Context, calls: seq<ToolCall>, i: nat,
                                      messages: seq<Message>, events: seq<Event>)
    requires i <= |calls|
    ensures var end := RunBatch(env, w, ctx, calls, i, messages, events);
            && (end.Stop? && end.outcome.Suspended? ==> Saves(end.world.ai, ctx, messages))
            && (end.Continue? ==> messages <= end.messages)
    decreases |calls| - i
  {
    hide Dispatch, ApprovalEvents, OutputEvents;
    if i < |calls| {
      var d := Dispatch(env, w, calls[i], ctx, messages);
      DispatchSaves(env, w, calls[i], ctx, messages);
      if !d.failed && !d.pending {
        BatchSaves(env, d.world, ctx, calls, i + 1, messages + [AnswerTo(calls[i], d.result)],
                   events + [ToolStarted(calls[i].name)] + OutputEvents(calls[i].name, d.result) + [ToolFinished(calls[i].name)]);
      }
    }
  }

  /** A loop that suspends saves its own conversation: the continuation is resumed with the provider and the words it began with. */
  lemma {:induction false} TurnsSave(env: Environment, w: World, ctx: Context, turn: nat, messages: seq<Message>, events: seq<Event>)
    requires turn <= MAX_TURNS
    ensures var end := RunTurns(env, w, ctx, turn, messages, events);
            end.outcome.Suspended? ==> Saves(end.world.ai, ctx, messages)
    decreases MAX_TURNS - turn
  {
    hide RunBatch, Trim;
    if turn < MAX_TURNS && env.completion(|w.sent|).Some? {
      var reply := env.completion(|w.sent|).value;
      if reply.toolCalls != [] && ctx.toolsOn {
        var w1 := w.(sent := w.sent + [messages]);
        var asked := messages + [Message(Assistant, Words(reply.content), "", reply.toolCalls)];
        BatchSaves(env, w1, ctx, reply.toolCalls, 0, asked, events);
        match RunBatch(env, w1, ctx, reply.toolCalls, 0, asked, events)
        case Stop(_, _, _) =>
        case Continue(w2, messages', events') => TurnsSave(env, w2, ctx, turn + 1, messages', events');
      }
    }
  }

  /** A message that raises a request leaves a continuation with the provider in use, the message, and all that was said before it. */
  lemma SuspendedSendIsSaved(env: Environment, w: World, message: string, sessionID: string)
    requires |SendChat(env, w, message, sessionID).0.asked| > |w.asked|
    ensures var w' := SendChat(env, w, message, sessionID).0;
            && ActiveProvider(w.ai.providers).Some? && w'.ai.pendingCall.Some?
            && w'.ai.pendingCall.value.providerID == ActiveProvider(w.ai.providers).value.id
            && w'.ai.pendingCall.value.userMessage == Trim(message)
            && Opening(w.ai, Trim(sessionID), Trim(message)) <= w'.ai.pendingCall.value.messages
  {
    hide RunTurns, Normalized, Opening, Trim, ToolsOn, ActiveProvider, Watch;
    var w1 := w.(draws := w.draws + 1);
    var ctx := StartContext(w.ai, ActiveProvider(w.ai.providers).value, Trim(sessionID), Trim(message));
    TurnsSave(env, w1, ctx, 0, Opening(w.ai, Trim(sessionID), Trim(message)), []);
    TurnsSayNothing(env, w1, ctx, 0, Opening(w.ai, Trim(sessionID), Trim(message)), [], View([], [], None));
  }

  // ---------------------------------------------------------------- replies

  /** A resumed conversation replies that it is done exactly when it could be taken up and its loop ended in a reply, saved, or in a new request. */
  lemma ResumeReplies(env: Environment, w: World, pending: PendingCall, result: ToolResult)
    ensures var (w', reply) := Resume(env, w, pending, result);
            && (reply == Done ==> CanResume(env, w.ai, pending, w.draws) && (w'.ai.messages != w.ai.messages || |w'.asked| > |w.asked|))
            && (reply == Error(LoopFailed) ==> CanResume(env, w.ai, pending, w.draws) && w'.ai.messages == w.ai.messages && |w'.asked| == |w.asked|)
            && (reply == Error(NotSaved) ==> !env.succeeds(w.draws + 1))
            && reply in {Done, Error(LoopFailed), Error(NotSaved), Error(NoProvider)}
  {
    hide RunTurns, Normalized, RefreshPrompt, Trim, ToolsOn, ProviderByID, Watch;
    ProviderIsListed(w.ai.providers, Trim(pending.providerID));
    var provider := ProviderByID(w.ai.providers, Trim(pending.providerID));
    if CanResume(env, w.ai, pending, w.draws) {
      var w2 := w.(draws := w.draws + 2, ai := w.ai.(pendingCall := None));
      var messages := RefreshPrompt(pending.messages, w.ai.policy, pending.sessionID) + [Message(Tool, Result(result), pending.toolCallID, [])];
      var ctx := StartContext(w.ai, provider.value, pending.sessionID, pending.userMessage);
      TurnsSayNothing(env, w2, ctx, 0, messages, [], View([], [], None));
    }
  }
}
