/**
 The event stream of an agent run and the terminal UI that consumes it: the
 stream follows a grammar with exactly one terminal event, and folding the
 consumer over it shows one tool view per dispatched call with its own output.
 Models internal/app/ai_agent.go and `handleAgentEvent` in internal/tui/tui.go.
 */
module AgentEvents {
  import opened Text
  import opened CommandPolicy
  import opened PolicyTheorems
  import opened ToolCalling
  import opened LoopFacts
  import opened AtMostOnce

  // --------------------------------------------------------------- grammar

  datatype Phase =
    | Fresh
    | Between
    | Running(tool: string, shown: bool)
    | Waiting
    | Closing
    | Over
    | Bad

  function Next(p: Phase, e: Event): Phase {
    match (p, e)
    case (Fresh, MessageStarted) => Between
    case (Fresh, Cancelled) => Over
    case (Between, ToolStarted(tool)) => Running(tool, false)
    case (Running(tool, shown), ToolOutput(t, _)) => if t == tool && !shown then Running(tool, true) else Bad
    case (Running(tool, _), ToolFinished(t)) => if t == tool then Between else Bad
    case (Running(tool, shown), ApprovalNeeded(t, _)) => if t == tool && shown then Waiting else Bad
    case (_, TextDelta(_)) => if p.Between? || p.Running? || p.Waiting? then Phase.Closing else Bad
    case (_, MessageFinished(_)) => if p.Between? || p.Running? || p.Waiting? || p.Closing? then Over else Bad
    case (_, _) => if (e.Errored? || e.Cancelled?) && (p.Between? || p.Running?) then Over else Bad
  }

  function PhaseAfter(events: seq<Event>): Phase {
    if events == [] then Fresh else Next(PhaseAfter(events[..|events| - 1]), events[|events| - 1])
  }

  predicate Terminal(e: Event) {
    e.MessageFinished? || e.Errored? || e.Cancelled?
  }

  predicate ToolEvent(e: Event) {
    e.ToolStarted? || e.ToolOutput? || e.ToolFinished?
  }

  lemma PhaseSnoc(events: seq<Event>, e: Event)
    ensures PhaseAfter(events + [e]) == Next(PhaseAfter(events), e)
  {
    assert (events + [e])[..|events|] == events;
  }

  lemma {:induction false} NoneOverWithoutTerminal(events: seq<Event>, k: nat)
    requires k < |events| && !PhaseAfter(events).Bad?
    ensures Terminal(events[k]) ==> k == |events| - 1 && PhaseAfter(events).Over?
    ensures events[k].ApprovalNeeded? ==> forall j :: k < j < |events| ==> !ToolEvent(events[j])
    ensures events[k].ApprovalNeeded? ==> PhaseAfter(events).Waiting? || PhaseAfter(events).Closing? || PhaseAfter(events).Over?
  {
    var n := |events| - 1;
    if k < n {
      NoneOverWithoutTerminal(events[..n], k);
    }
  }

  lemma OverEndsTerminal(events: seq<Event>)
    requires PhaseAfter(events).Over?
    ensures |events| > 0 && Terminal(events[|events| - 1])
  {
  }

  /** What the grammar says about a complete stream: one terminal event, last, and no tool event once approval is needed. */
  lemma CompleteStream(events: seq<Event>)
    requires PhaseAfter(events).Over?
    ensures |events| > 0 && Terminal(events[|events| - 1])
    ensures forall k :: 0 <= k < |events| - 1 ==> !Terminal(events[k])
    ensures forall k, j :: 0 <= k < j < |events| && events[k].ApprovalNeeded? ==> !ToolEvent(events[j])
  {
    OverEndsTerminal(events);
    forall k | 0 <= k < |events|
      ensures Terminal(events[k]) ==> k == |events| - 1
      ensures events[k].ApprovalNeeded? ==> forall j :: k < j < |events| ==> !ToolEvent(events[j])
    {
      NoneOverWithoutTerminal(events, k);
    }
  }

  // -------------------------------------------------------------- dispatches

  datatype Entry = Entry(name: string, result: ToolResult, finished: bool)

  /** The calls a loop dispatches, each with its own result, independent of the events. */
  ghost function BatchLog(env: Environment, w: World, ctx: Context, calls: seq<ToolCall>, i: nat, messages: seq<Message>): seq<Entry>
    requires i <= |calls|
    decreases |calls| - i
  {
    if i == |calls| then []
    else
      var d := Dispatch(env, w, calls[i], ctx, messages);
      [Entry(calls[i].name, d.result, !d.failed && !d.pending)]
      + if d.failed || d.pending then []
        else BatchLog(env, d.world, ctx, calls, i + 1, messages + [AnswerTo(calls[i], d.result)])
  }

  ghost function TurnsLog(env: Environment, w: World, ctx: Context, turn: nat, messages: seq<Message>): seq<Entry>
    requires turn <= MAX_TURNS
    decreases MAX_TURNS - turn
  {
    if turn == MAX_TURNS || env.completion(|w.sent|).None? then []
    else
      var reply := env.completion(|w.sent|).value;
      if reply.toolCalls == [] || !ctx.toolsOn then []
      else
        var w1 := w.(sent := w.sent + [messages]);
        var batch := messages + [Message(Assistant, Words(reply.content), "", reply.toolCalls)];
        BatchLog(env, w1, ctx, reply.toolCalls, 0, batch)
        + match RunBatch(env, w1, ctx, reply.toolCalls, 0, batch, [])
          case Stop(_, _, _) => []
          case Continue(w2, messages', _) => TurnsLog(env, w2, ctx, turn + 1, messages')
  }

  // ---------------------------------------------------------------- consumer

  datatype ToolView = ToolView(name: string, status: string, output: ToolResult)

  datatype Line = FromAI(text: string) | ErrorLine | CancelledLine

  datatype View = View(toolCalls: seq<ToolView>, lines: seq<Line>, approval: Option<CommandRequest>)

  function DisplayName(tool: string): string {
    if Trim(tool) == "" then "unknown" else Trim(tool)
  }

  function OnLast(calls: seq<ToolView>, view: ToolView): seq<ToolView>
    requires calls != []
  {
    calls[..|calls| - 1] + [view]
  }

  function Handle(v: View, e: Event): View {
    match e
    case TextDelta(text) => if text == "" then v else v.(lines := v.lines + [FromAI(text)])
    case ToolStarted(tool) => v.(toolCalls := v.toolCalls + [ToolView(DisplayName(tool), "running", NoResult)])
    case ToolOutput(_, result) =>
      if v.toolCalls == [] then v
      else v.(toolCalls := OnLast(v.toolCalls, v.toolCalls[|v.toolCalls| - 1].(output := result)))
    case ToolFinished(tool) =>
      if v.toolCalls == [] then v
      else
        var last := v.toolCalls[|v.toolCalls| - 1].(status := "finished");
        v.(toolCalls := OnLast(v.toolCalls, if Trim(tool) == "" then last else last.(name := Trim(tool))))
    case ApprovalNeeded(_, request) => v.(approval := Some(request))
    case Errored => v.(lines := v.lines + [ErrorLine])
    case Cancelled => v.(lines := v.lines + [CancelledLine])
    case MessageStarted => v
    case MessageFinished(_) => v
  }

  function Watch(v: View, events: seq<Event>): View {
    if events == [] then v else Handle(Watch(v, events[..|events| - 1]), events[|events| - 1])
  }

  lemma WatchSnoc(v: View, events: seq<Event>, e: Event)
    ensures Watch(v, events + [e]) == Handle(Watch(v, events), e)
  {
    assert (events + [e])[..|events|] == events;
  }

  function Shown(entry: Entry): ToolView {
    ToolView(DisplayName(entry.name), if entry.finished then "finished" else "running", entry.result)
  }

  function ShownAll(log: seq<Entry>): (r: seq<ToolView>)
    ensures |r| == |log| && forall i :: 0 <= i < |r| ==> r[i] == Shown(log[i])
  {
    seq(|log|, i requires 0 <= i < |log| => Shown(log[i]))
  }

  /** The chat pane of the terminal UI. */
  class ChatPane {
    var toolCalls: seq<ToolView>
    var lines: seq<Line>
    var approval: Option<CommandRequest>

    ghost function State(): View
      reads this
    {
      View(toolCalls, lines, approval)
    }

    method HandleAgentEvent(event: Event)
      modifies this
      ensures State() == Handle(old(State()), event)
    {
      match event
      case TextDelta(text) =>
        if text != "" {
          lines := lines + [FromAI(text)];
        }
      case ToolStarted(tool) =>
        var name := Trim(tool);
        if name == "" {
          name := "unknown";
        }
        toolCalls := toolCalls + [ToolView(name, "running", NoResult)];
      case ToolOutput(_, result) =>
        if |toolCalls| > 0 {
          var last := |toolCalls| - 1;
          toolCalls := toolCalls[last := toolCalls[last].(output := result)];
        }
      case ToolFinished(tool) =>
        if |toolCalls| > 0 {
          var last := |toolCalls| - 1;
          var call := toolCalls[last].(status := "finished");
          if Trim(tool) != "" {
            call := call.(name := Trim(tool));
          }
          toolCalls := toolCalls[last := call];
        }
      case ApprovalNeeded(_, request) =>
        approval := Some(request);
      case Errored =>
        lines := lines + [ErrorLine];
      case Cancelled =>
        lines := lines + [CancelledLine];
      case MessageStarted =>
      case MessageFinished(_) =>
    }

    /** Draining a run's channel. */
    method HandleAll(events: seq<Event>)
      modifies this
      ensures State() == Watch(old(State()), events)
    {
      for i := 0 to |events|
        invariant State() == Watch(old(State()), events[..i])
      {
        WatchSnoc(old(State()), events[..i], events[i]);
        assert events[..i] + [events[i]] == events[..i + 1];
        HandleAgentEvent(events[i]);
      }
      assert events[..|events|] == events;
    }
  }

  // ----------------------------------------------------------------- loop

  ghost predicate AllFinished(log: seq<Entry>) {
    forall i :: 0 <= i < |log| ==> log[i].finished
  }

  ghost predicate AllButLastFinished(log: seq<Entry>) {
    forall i :: 0 <= i < |log| - 1 ==> log[i].finished
  }

  lemma GroupOpens(v: View, events: seq<Event>, call: ToolCall, result: ToolResult)
    requires PhaseAfter(events).Between?
    ensures var shown := events + [ToolStarted(call.name)] + OutputEvents(call.name, result);
            && PhaseAfter(shown) == Running(call.name, result != NoResult)
            && Watch(v, shown).toolCalls == Watch(v, events).toolCalls + [Shown(Entry(call.name, result, false))]
            && Watch(v, shown).approval == Watch(v, events).approval
  {
    hide PhaseAfter, Watch, DisplayName;
    PhaseSnoc(events, ToolStarted(call.name));
    WatchSnoc(v, events, ToolStarted(call.name));
    if result == NoResult {
      assert events + [ToolStarted(call.name)] + [] == events + [ToolStarted(call.name)];
    } else {
      PhaseSnoc(events + [ToolStarted(call.name)], ToolOutput(call.name, result));
      WatchSnoc(v, events + [ToolStarted(call.name)], ToolOutput(call.name, result));
    }
  }

  lemma GroupCloses(v: View, events: seq<Event>, shown: seq<Event>, call: ToolCall, result: ToolResult)
    requires PhaseAfter(shown) == Running(call.name, result != NoResult)
    requires Watch(v, shown).toolCalls == Watch(v, events).toolCalls + [Shown(Entry(call.name, result, false))]
    ensures PhaseAfter(shown + [ToolFinished(call.name)]).Between?
    ensures Watch(v, shown + [ToolFinished(call.name)]).toolCalls == Watch(v, events).toolCalls + [Shown(Entry(call.name, result, true))]
  {
    hide PhaseAfter, Watch, Trim;
    PhaseSnoc(shown, ToolFinished(call.name));
    WatchSnoc(v, shown, ToolFinished(call.name));
  }

  lemma ApprovalShows(v: View, shown: seq<Event>, w: World, result: ToolResult, tool: string)
    requires PhaseAfter(shown) == Running(tool, true)
    ensures var all := shown + ApprovalEvents(w, result, tool);
            && (PhaseAfter(all) == Running(tool, true) || PhaseAfter(all).Waiting?)
            && Watch(v, all).toolCalls == Watch(v, shown).toolCalls
  {
    hide PhaseAfter, Watch, Trim, FindRequest;
    var extra := ApprovalEvents(w, result, tool);
    if extra == [] {
      assert shown + extra == shown;
    } else {
      PhaseSnoc(shown, extra[0]);
      WatchSnoc(v, shown, extra[0]);
    }
  }

  /** What a finished batch or loop has streamed and shown. */
  ghost predicate Streamed(v: View, events: seq<Event>, events': seq<Event>, log: seq<Entry>, open: bool) {
    && (PhaseAfter(events').Between? || (open && (PhaseAfter(events').Running? || PhaseAfter(events').Waiting?)))
    && Watch(v, events').toolCalls == Watch(v, events).toolCalls + ShownAll(log)
    && AllButLastFinished(log) && (!open ==> AllFinished(log))
  }

  lemma StreamedThen(v: View, a: seq<Event>, b: seq<Event>, c: seq<Event>, first: seq<Entry>, rest: seq<Entry>, open: bool)
    requires Streamed(v, a, b, first, false) && Streamed(v, b, c, rest, open)
    ensures Streamed(v, a, c, first + rest, open)
  {
    hide PhaseAfter, Watch, Shown;
    assert ShownAll(first + rest) == ShownAll(first) + ShownAll(rest);
  }

  lemma GroupFinishes(v: View, events: seq<Event>, call: ToolCall, result: ToolResult)
    requires PhaseAfter(events).Between?
    ensures var all := events + [ToolStarted(call.name)] + OutputEvents(call.name, result) + [ToolFinished(call.name)];
            PhaseAfter(all).Between? && Streamed(v, events, all, [Entry(call.name, result, true)], false)
  {
    hide PhaseAfter, Watch, Shown, OutputEvents;
    GroupOpens(v, events, call, result);
    GroupCloses(v, events, events + [ToolStarted(call.name)] + OutputEvents(call.name, result), call, result);
    assert ShownAll([Entry(call.name, result, true)]) == [Shown(Entry(call.name, result, true))];
  }

  /** A group that ends the loop: left running by a failure, or waiting on an approval whose result it shows. */
  lemma GroupStops(v: View, events: seq<Event>, w: World, call: ToolCall, result: ToolResult, failed: bool)
    requires PhaseAfter(events).Between? && (!failed ==> result.ApprovalRequired?)
    ensures var shown := events + [ToolStarted(call.name)] + OutputEvents(call.name, result);
            var all := if failed then shown else shown + ApprovalEvents(w, result, call.name);
            Streamed(v, events, all, [Entry(call.name, result, false)], true) && (failed ==> PhaseAfter(all).Running?)
  {
    hide PhaseAfter, Watch, Shown, OutputEvents, ApprovalEvents;
    GroupOpens(v, events, call, result);
    assert ShownAll([Entry(call.name, result, false)]) == [Shown(Entry(call.name, result, false))];
    if !failed {
      ApprovalShows(v, events + [ToolStarted(call.name)] + OutputEvents(call.name, result), w, result, call.name);
    }
  }

  lemma {:induction false} BatchStreams(env: Environment, w: World, ctx: Context, calls: seq<ToolCall>, i: nat,
                                        messages: seq<Message>, events: seq<Event>, v: View)
    requires i <= |calls| && PhaseAfter(events).Between?
    ensures var end := RunBatch(env, w, ctx, calls, i, messages, events);
            && Streamed(v, events, end.events, BatchLog(env, w, ctx, calls, i, messages), end.Stop?)
            && (end.Stop? ==> !end.outcome.Replied?)
            && (end.Stop? && end.outcome.Failed? ==> !PhaseAfter(end.events).Waiting?)
    decreases |calls| - i
  {
    hide PhaseAfter, Watch, Dispatch, Shown, ApprovalEvents, OutputEvents, Streamed;
    if i == |calls| {
      StreamedNothing(v, events);
    } else {
      var call := calls[i];
      var d := Dispatch(env, w, call, ctx, messages);
      if d.failed || d.pending {
        PendingHasResult(env, w, call, ctx, messages);
        GroupStops(v, events, d.world, call, d.result, d.failed);
        assert [Entry(call.name, d.result, false)] + [] == [Entry(call.name, d.result, false)];
      } else {
        GroupFinishes(v, events, call, d.result);
        var all := events + [ToolStarted(call.name)] + OutputEvents(call.name, d.result) + [ToolFinished(call.name)];
        var messages' := messages + [AnswerTo(call, d.result)];
        BatchStreams(env, d.world, ctx, calls, i + 1, messages', all, v);
        var end := RunBatch(env, d.world, ctx, calls, i + 1, messages', all);
        StreamedThen(v, events, all, end.events, [Entry(call.name, d.result, true)],
                     BatchLog(env, d.world, ctx, calls, i + 1, messages'), end.Stop?);
      }
    }
  }

  lemma StreamedNothing(v: View, events: seq<Event>)
    requires PhaseAfter(events).Between?
    ensures Streamed(v, events, events, [], false)
  {
    hide PhaseAfter, Watch, Shown;
    assert ShownAll([]) == [];
  }

  /** A suspension always has a result to show. */
  lemma PendingHasResult(env: Environment, w: World, call: ToolCall, ctx: Context, messages: seq<Message>)
    ensures var d := Dispatch(env, w, call, ctx, messages);
            d.pending ==> d.result.ApprovalRequired? && !d.failed
  {
    hide Trim, Decide, Field, ConnectedSSH, Normalized, RequestID, Decimal, Utf8Length, FindTab, StrictlyConnected, ToolEnabled, FirstBlocked, RunChecks, KindOf;
  }

  /** The events are only a log: they change neither the world, nor the conversation, nor the outcome. */
  lemma {:induction false} BatchIgnoresEvents(env: Environment, w: World, ctx: Context, calls: seq<ToolCall>, i: nat,
                                              messages: seq<Message>, e1: seq<Event>, e2: seq<Event>)
    requires i <= |calls|
    ensures var a, b := RunBatch(env, w, ctx, calls, i, messages, e1), RunBatch(env, w, ctx, calls, i, messages, e2);
            a.world == b.world && match a case Continue(_, m, _) => b.Continue? && b.messages == m
                                          case Stop(_, _, outcome) => b.Stop? && b.outcome == outcome
    decreases |calls| - i
  {
    hide Dispatch, ApprovalEvents, OutputEvents;
    if i < |calls| {
      var call := calls[i];
      var d := Dispatch(env, w, call, ctx, messages);
      if !d.failed && !d.pending {
        BatchIgnoresEvents(env, d.world, ctx, calls, i + 1, messages + [AnswerTo(call, d.result)],
                           e1 + [ToolStarted(call.name)] + OutputEvents(call.name, d.result) + [ToolFinished(call.name)],
                           e2 + [ToolStarted(call.name)] + OutputEvents(call.name, d.result) + [ToolFinished(call.name)]);
      }
    }
  }

  lemma {:induction false} TurnsStream(env: Environment, w: World, ctx: Context, turn: nat, messages: seq<Message>,
                                       events: seq<Event>, v: View)
    requires turn <= MAX_TURNS && PhaseAfter(events).Between?
    ensures var end := RunTurns(env, w, ctx, turn, messages, events);
            && Streamed(v, events, end.events, TurnsLog(env, w, ctx, turn, messages), true)
            && (end.outcome.Failed? ==> !PhaseAfter(end.events).Waiting?)
            && (end.outcome.Replied? ==> AllFinished(TurnsLog(env, w, ctx, turn, messages)))
    decreases MAX_TURNS - turn
  {
    hide PhaseAfter, Watch, Shown, RunBatch, BatchLog, Trim, Streamed, AllFinished;
    StreamedNothing(v, events);
    StreamedOpen(v, events, events, []);
    if turn < MAX_TURNS && env.completion(|w.sent|).Some? {
      var reply := env.completion(|w.sent|).value;
      if reply.toolCalls != [] && ctx.toolsOn {
        TurnStreams(env, w, ctx, turn, messages, events, v);
      }
    }
  }

  lemma StreamedOpen(v: View, a: seq<Event>, b: seq<Event>, log: seq<Entry>)
    requires Streamed(v, a, b, log, false)
    ensures Streamed(v, a, b, log, true) && AllFinished(log) && PhaseAfter(b).Between?
  {
  }

  /** One turn that calls tools. */
  lemma {:induction false} TurnStreams(env: Environment, w: World, ctx: Context, turn: nat, messages: seq<Message>,
                                       events: seq<Event>, v: View)
    requires turn < MAX_TURNS && PhaseAfter(events).Between? && env.completion(|w.sent|).Some?
    requires env.completion(|w.sent|).value.toolCalls != [] && ctx.toolsOn
    ensures var end := RunTurns(env, w, ctx, turn, messages, events);
            && Streamed(v, events, end.events, TurnsLog(env, w, ctx, turn, messages), true)
            && (end.outcome.Failed? ==> !PhaseAfter(end.events).Waiting?)
            && (end.outcome.Replied? ==> AllFinished(TurnsLog(env, w, ctx, turn, messages)))
    decreases MAX_TURNS - turn, 0
  {
    hide PhaseAfter, Watch, Shown, RunBatch, BatchLog, Trim, Streamed, AllFinished, Finish;
    var reply := env.completion(|w.sent|).value;
    var w1 := w.(sent := w.sent + [messages]);
    var batch := messages + [Message(Assistant, Words(reply.content), "", reply.toolCalls)];
    var log := BatchLog(env, w1, ctx, reply.toolCalls, 0, batch);
    BatchStreams(env, w1, ctx, reply.toolCalls, 0, batch, events, v);
    BatchIgnoresEvents(env, w1, ctx, reply.toolCalls, 0, batch, events, []);
    match RunBatch(env, w1, ctx, reply.toolCalls, 0, batch, events)
    case Stop(_, _, _) => assert log + [] == log;
    case Continue(w2, messages', events') =>
      StreamedOpen(v, events, events', log);
      TurnsStream(env, w2, ctx, turn + 1, messages', events', v);
      var rest := TurnsLog(env, w2, ctx, turn + 1, messages');
      StreamedThen(v, events, events', RunTurns(env, w2, ctx, turn + 1, messages', events').events, log, rest, true);
      BothFinished(log, rest);
  }

  lemma BothFinished(log: seq<Entry>, rest: seq<Entry>)
    ensures AllFinished(log) && AllFinished(rest) ==> AllFinished(log + rest)
  {
  }

  // -------------------------------------------------------------- agent run

  /** The calls one agent run dispatches. */
  ghost function RunLog(env: Environment, w: World, sessionID: string, input: string): seq<Entry> {
    if !env.succeeds(w.draws) || ActiveProvider(w.ai.providers).None? || !env.succeeds(w.draws + 1) then []
    else
      TurnsLog(env, w.(draws := w.draws + 2), StartContext(w.ai, ActiveProvider(w.ai.providers).value, sessionID, input), 0,
               Opening(w.ai, sessionID, input))
  }

  lemma ClosingStreams(v: View, events: seq<Event>, w: World)
    requires PhaseAfter(events).Between? || PhaseAfter(events).Running? || PhaseAfter(events).Waiting?
    ensures PhaseAfter(events + ToolCalling.Closing(w)).Over?
    ensures Watch(v, events + ToolCalling.Closing(w)).toolCalls == Watch(v, events).toolCalls
    ensures Watch(v, events + ToolCalling.Closing(w)).approval == Watch(v, events).approval
  {
    hide PhaseAfter, Watch, LastAssistant;
    var reply := LastAssistant(w.ai.messages);
    if reply == "" {
      assert events + ToolCalling.Closing(w) == events + [MessageFinished(reply)];
      PhaseSnoc(events, MessageFinished(reply));
      WatchSnoc(v, events, MessageFinished(reply));
    } else {
      var said := events + [TextDelta(reply)];
      assert events + ToolCalling.Closing(w) == said + [MessageFinished(reply)];
      PhaseSnoc(events, TextDelta(reply));
      WatchSnoc(v, events, TextDelta(reply));
      PhaseSnoc(said, MessageFinished(reply));
      WatchSnoc(v, said, MessageFinished(reply));
    }
  }

  lemma FailureStreams(v: View, events: seq<Event>, e: Event)
    requires (PhaseAfter(events).Between? || PhaseAfter(events).Running?) && (e.Errored? || e.Cancelled?)
    ensures PhaseAfter(events + [e]).Over? && Watch(v, events + [e]).toolCalls == Watch(v, events).toolCalls
    ensures Watch(v, events + [e]).approval == Watch(v, events).approval
  {
    hide PhaseAfter, Watch;
    PhaseSnoc(events, e);
    WatchSnoc(v, events, e);
  }

  lemma EarlyExits(v: View)
    ensures PhaseAfter([Cancelled]).Over? && PhaseAfter([MessageStarted, Errored]).Over? && PhaseAfter([MessageStarted]).Between?
    ensures Watch(v, [MessageStarted]) == v
    ensures Watch(v, [Cancelled]).toolCalls == v.toolCalls && Watch(v, [MessageStarted, Errored]).toolCalls == v.toolCalls
    ensures Watch(v, [Cancelled]).lines == v.lines + [CancelledLine] && Watch(v, [MessageStarted, Errored]).lines == v.lines + [ErrorLine]
    ensures Watch(v, [Cancelled]).approval == v.approval && Watch(v, [MessageStarted, Errored]).approval == v.approval
  {
    PhaseSnoc([], Cancelled);
    PhaseSnoc([], MessageStarted);
    PhaseSnoc([MessageStarted], Errored);
    WatchSnoc(v, [], Cancelled);
    WatchSnoc(v, [], MessageStarted);
    WatchSnoc(v, [MessageStarted], Errored);
    assert [] + [Cancelled] == [Cancelled] && [] + [MessageStarted] == [MessageStarted];
    assert [MessageStarted] + [Errored] == [MessageStarted, Errored];
  }

  /**
   Every agent run sends a complete stream, and a pane that handles it gains
   one view per dispatched call, in order, each with that call's own output
   and all finished except possibly the last.
   */
  lemma AgentRunIsShown(env: Environment, w: World, sessionID: string, input: string, v: View)
    ensures var events := RunAgent(env, w, sessionID, input).1;
            var log := RunLog(env, w, sessionID, input);
            && PhaseAfter(events).Over?
            && Watch(v, events).toolCalls == v.toolCalls + ShownAll(log)
            && AllButLastFinished(log)
  {
    hide PhaseAfter, Watch, Shown, RunTurns, TurnsLog, ActiveProvider, StartContext, Opening, ToolCalling.Closing;
    EarlyExits(v);
    assert v.toolCalls + ShownAll([]) == v.toolCalls;
    if env.succeeds(w.draws) && ActiveProvider(w.ai.providers).Some? && env.succeeds(w.draws + 1) {
      var ctx := StartContext(w.ai, ActiveProvider(w.ai.providers).value, sessionID, input);
      var w1 := w.(draws := w.draws + 2);
      TurnsStream(env, w1, ctx, 0, Opening(w.ai, sessionID, input), [MessageStarted], v);
      var end := RunTurns(env, w1, ctx, 0, Opening(w.ai, sessionID, input), [MessageStarted]);
      if end.outcome.Failed? {
        FailureStreams(v, end.events, Errored);
        FailureStreams(v, end.events, Cancelled);
      } else {
        ClosingStreams(v, end.events, end.world);
      }
    }
  }

  /** Every view a run adds has a name: its tool's, trimmed, or "unknown" for a blank one. */
  lemma EveryViewIsNamed(env: Environment, w: World, sessionID: string, input: string, v: View, i: nat)
    requires i < |RunLog(env, w, sessionID, input)|
    ensures var views, tool := Watch(v, RunAgent(env, w, sessionID, input).1).toolCalls, RunLog(env, w, sessionID, input)[i].name;
            && |v.toolCalls| + i < |views|
            && views[|v.toolCalls| + i].name == if Trim(tool) == "" then "unknown" else Trim(tool)
  {
    hide Watch, RunAgent, RunLog, PhaseAfter, Trim;
    AgentRunIsShown(env, w, sessionID, input, v);
  }

  // -------------------------------------------------------- approval shown

  /** A suspension lists its request last, under a fresh identifier. */
  lemma SuspensionListsLast(env: Environment, w: World, call: ToolCall, ctx: Context, messages: seq<Message>)
    requires Dispatch(env, w, call, ctx, messages).pending
    ensures var d := Dispatch(env, w, call, ctx, messages);
            && d.result == ApprovalRequired(RequestID(w.clock))
            && |d.world.asked| == |w.asked| + 1 && d.world.asked[|w.asked|].id == RequestID(w.clock)
            && d.world.ai.policy.pending == Listed(w) + [d.world.asked[|w.asked|]]
  {
    hide Trim, Decide, Field, ConnectedSSH, RequestID, Decimal, Utf8Length, FindTab, StrictlyConnected, ToolEnabled, FirstBlocked, RunChecks, KindOf, NormalizedTools, NormalizedRequests;
  }

  lemma SuspensionShows(env: Environment, w: World, call: ToolCall, ctx: Context, messages: seq<Message>)
    requires Structure(w) && Dispatch(env, w, call, ctx, messages).pending
    ensures var d := Dispatch(env, w, call, ctx, messages);
            |d.world.asked| > 0 && ApprovalEvents(d.world, d.result, call.name) == [ApprovalNeeded(call.name, d.world.asked[|d.world.asked| - 1])]
  {
    hide Dispatch, Trim, Issued, Listed, RequestID;
    SuspensionListsLast(env, w, call, ctx, messages);
    RequestIDIsTrimmed(w.clock);
    FreshIsNotIssued(w, w.clock);
    var d := Dispatch(env, w, call, ctx, messages);
    forall i | 0 <= i < |Listed(w)| ensures d.world.ai.policy.pending[i].id != RequestID(w.clock) {
      assert Listed(w)[i] in Listed(w);
    }
    assert d.world.ai.policy.pending[|Listed(w)|].id == RequestID(w.clock);
  }

  /** What the pane's approval box holds once a loop has gone from `w` to `w'`. */
  ghost predicate BoxTells(v: View, events: seq<Event>, events': seq<Event>, w: World, w': World) {
    if w'.asked == w.asked then Watch(v, events').approval == Watch(v, events).approval
    else |w'.asked| > 0 && Watch(v, events').approval == Some(w'.asked[|w'.asked| - 1])
  }

  lemma GroupBox(v: View, events: seq<Event>, call: ToolCall, result: ToolResult)
    ensures var shown := events + [ToolStarted(call.name)] + OutputEvents(call.name, result);
            && Watch(v, shown).approval == Watch(v, events).approval
            && Watch(v, shown + [ToolFinished(call.name)]).approval == Watch(v, events).approval
            && forall r :: Watch(v, shown + [ApprovalNeeded(call.name, r)]).approval == Some(r)
  {
    hide Watch, Trim;
    var started := events + [ToolStarted(call.name)];
    var shown := started + OutputEvents(call.name, result);
    WatchSnoc(v, events, ToolStarted(call.name));
    if result == NoResult {
      assert shown == started;
    } else {
      WatchSnoc(v, started, ToolOutput(call.name, result));
    }
    WatchSnoc(v, shown, ToolFinished(call.name));
    forall r ensures Watch(v, shown + [ApprovalNeeded(call.name, r)]).approval == Some(r) {
      WatchSnoc(v, shown, ApprovalNeeded(call.name, r));
    }
  }

  lemma {:induction false} BatchBox(env: Environment, w: World, ctx: Context, calls: seq<ToolCall>, i: nat,
                                    messages: seq<Message>, events: seq<Event>, v: View)
    requires i <= |calls| && Structure(w) && DecidesAlike(w.ai.policy, ctx.policy)
    ensures var end := RunBatch(env, w, ctx, calls, i, messages, events);
            && BoxTells(v, events, end.events, w, end.world)
            && (end.Continue? ==> end.world.asked == w.asked && Structure(end.world) && DecidesAlike(end.world.ai.policy, ctx.policy))
    decreases |calls| - i
  {
    hide Watch, Dispatch, ApprovalEvents, OutputEvents, Structure, Forward, Listed, DecidesAlike, RequestID;
    if i < |calls| {
      var call := calls[i];
      var d := Dispatch(env, w, call, ctx, messages);
      var shown := events + [ToolStarted(call.name)] + OutputEvents(call.name, d.result);
      GroupBox(v, events, call, d.result);
      DispatchIsOK(env, w, call, ctx, messages);
      if d.failed {
      } else if d.pending {
        SuspensionShows(env, w, call, ctx, messages);
      } else {
        ProgressKeeps(w, d.world, ctx.policy, "");
        StillAlike(w, d.world, ctx.policy);
        BatchBox(env, d.world, ctx, calls, i + 1, messages + [AnswerTo(call, d.result)], shown + [ToolFinished(call.name)], v);
      }
    }
  }

  lemma {:induction false} TurnsBox(env: Environment, w: World, ctx: Context, turn: nat, messages: seq<Message>,
                                    events: seq<Event>, v: View)
    requires turn <= MAX_TURNS && Structure(w) && DecidesAlike(w.ai.policy, ctx.policy)
    ensures BoxTells(v, events, RunTurns(env, w, ctx, turn, messages, events).events, w, RunTurns(env, w, ctx, turn, messages, events).world)
    decreases MAX_TURNS - turn
  {
    hide Watch, RunBatch, Structure, Trim, Progress, DecidesAlike;
    if turn < MAX_TURNS && env.completion(|w.sent|).Some? {
      var reply := env.completion(|w.sent|).value;
      if reply.toolCalls != [] && ctx.toolsOn {
        var w1 := w.(sent := w.sent + [messages]);
        var batch := messages + [Message(Assistant, Words(reply.content), "", reply.toolCalls)];
        assert Structure(w1) by { SentKeeps(w, messages); }
        BatchBox(env, w1, ctx, reply.toolCalls, 0, batch, events, v);
        match RunBatch(env, w1, ctx, reply.toolCalls, 0, batch, events)
        case Stop(_, _, _) =>
        case Continue(w2, messages', events') =>
          TurnsBox(env, w2, ctx, turn + 1, messages', events', v);
      }
    }
  }

  lemma DrawsKeep(w: World, w1: World)
    requires Structure(w) && w1 == w.(draws := w1.draws)
    ensures Structure(w1)
  {
    hide RequestID, NormalizedRequests;
  }

  lemma SentKeeps(w: World, messages: seq<Message>)
    requires Structure(w)
    ensures Structure(w.(sent := w.sent + [messages]))
  {
    hide RequestID, NormalizedRequests;
  }

  /**
   The approval the pane ends up showing is the request this run raised, if it
   raised one, and otherwise whatever it showed before.
   */
  lemma ApprovalBoxTells(env: Environment, w: World, sessionID: string, input: string, v: View)
    requires Structure(w)
    ensures var (w', events) := RunAgent(env, w, sessionID, input);
            if w'.asked == w.asked then Watch(v, events).approval == v.approval
            else |w'.asked| > 0 && Watch(v, events).approval == Some(w'.asked[|w'.asked| - 1])
  {
    hide PhaseAfter, Watch, Shown, RunTurns, TurnsLog, ActiveProvider, Normalized, ToolsOn, Opening, ToolCalling.Closing, DecidesAlike, Structure;
    EarlyExits(v);
    if env.succeeds(w.draws) && ActiveProvider(w.ai.providers).Some? && env.succeeds(w.draws + 1) {
      var ctx := StartContext(w.ai, ActiveProvider(w.ai.providers).value, sessionID, input);
      var w1 := w.(draws := w.draws + 2);
      TurnsStream(env, w1, ctx, 0, Opening(w.ai, sessionID, input), [MessageStarted], v);
      DrawsKeep(w, w1);
      NormalizedDecidesAlike(w.ai.policy);
      TurnsBox(env, w1, ctx, 0, Opening(w.ai, sessionID, input), [MessageStarted], v);
      var end := RunTurns(env, w1, ctx, 0, Opening(w.ai, sessionID, input), [MessageStarted]);
      if end.outcome.Failed? {
        FailureStreams(v, end.events, Errored);
        FailureStreams(v, end.events, Cancelled);
      } else {
        ClosingStreams(v, end.events, end.world);
      }
    }
  }

  // ------------------------------------------------------------- text shown

  ghost predicate SaysNothing(w: World, d: Dispatched) {
    && d.world.ai.messages == w.ai.messages && d.world.sent == w.sent
    && |d.world.asked| == |w.asked| + (if d.pending then 1 else 0)
  }

  lemma DispatchSaysNothing(env: Environment, w: World, call: ToolCall, ctx: Context, messages: seq<Message>)
    ensures SaysNothing(w, Dispatch(env, w, call, ctx, messages))
  {
    hide DispatchExec, DispatchDiagnostics, DispatchWrite, DispatchLook, KindOf;
    ExecSaysNothing(env, w, call, ctx, messages);
    DiagnosticsSayNothing(env, w, call, ctx);
    FilesSayNothing(env, w, call, ctx, messages);
  }

  lemma ExecSaysNothing(env: Environment, w: World, call: ToolCall, ctx: Context, messages: seq<Message>)
    ensures SaysNothing(w, DispatchExec(env, w, call, ctx, messages))
  {
    hide Trim, Decide, Field, ConnectedSSH, Normalized, RequestID, Decimal;
  }

  lemma DiagnosticsSayNothing(env: Environment, w: World, call: ToolCall, ctx: Context)
    ensures SaysNothing(w, DispatchDiagnostics(env, w, call, ctx))
  {
    hide Trim, Field, FirstBlocked, RunChecks, ToolEnabled;
    var fields := Decode(call.arguments, {"sessionId", "operation"});
    if fields.Some? {
      var session := if Trim(Field(fields.value, "sessionId")) == "" then Trim(ctx.activeSessionID) else Trim(Field(fields.value, "sessionId"));
      ChecksSayNothing(env, w, session, 0, []);
    }
  }

  lemma FilesSayNothing(env: Environment, w: World, call: ToolCall, ctx: Context, messages: seq<Message>)
    ensures SaysNothing(w, DispatchWrite(env, w, call, ctx, messages)) && SaysNothing(w, DispatchLook(env, w, call, ctx))
  {
    hide Trim, Field, Normalized, RequestID, Decimal, Utf8Length, FindTab, StrictlyConnected, ToolEnabled;
  }

  lemma {:induction false} ChecksSayNothing(env: Environment, w: World, sessionID: string, i: nat, runs: seq<Execution>)
    requires i <= |CHECKS|
    ensures var w' := RunChecks(env, w, sessionID, i, runs).0; w'.ai == w.ai && w'.asked == w.asked && w'.sent == w.sent
    decreases |CHECKS| - i
  {
    hide Trim, ConnectedSSH;
    if i < |CHECKS| {
      var (w1, execution) := Execute(env, w, sessionID, CHECKS[i], Automatic);
      ChecksSayNothing(env, w1, sessionID, i + 1, runs + [execution]);
    }
  }

  lemma GroupSaysNothing(v: View, events: seq<Event>, call: ToolCall, result: ToolResult, w: World)
    ensures var shown := events + [ToolStarted(call.name)] + OutputEvents(call.name, result);
            && Watch(v, shown).lines == Watch(v, events).lines
            && Watch(v, shown + [ToolFinished(call.name)]).lines == Watch(v, events).lines
            && Watch(v, shown + ApprovalEvents(w, result, call.name)).lines == Watch(v, events).lines
  {
    hide Watch, Trim, FindRequest;
    var started := events + [ToolStarted(call.name)];
    var shown := started + OutputEvents(call.name, result);
    WatchSnoc(v, events, ToolStarted(call.name));
    if result == NoResult {
      assert shown == started;
    } else {
      WatchSnoc(v, started, ToolOutput(call.name, result));
    }
    WatchSnoc(v, shown, ToolFinished(call.name));
    var extra := ApprovalEvents(w, result, call.name);
    if extra == [] {
      assert shown + extra == shown;
    } else {
      WatchSnoc(v, shown, extra[0]);
    }
  }

  lemma {:induction false} BatchSaysNothing(env: Environment, w: World, ctx: Context, calls: seq<ToolCall>, i: nat,
                                            messages: seq<Message>, events: seq<Event>, v: View)
    requires i <= |calls|
    ensures var end := RunBatch(env, w, ctx, calls, i, messages, events);
            && Watch(v, end.events).lines == Watch(v, events).lines
            && end.world.ai.messages == w.ai.messages && end.world.sent == w.sent
            && (end.Stop? ==> !end.outcome.Replied?)
            && |end.world.asked| == |w.asked| + (if end.Stop? && end.outcome.Suspended? then 1 else 0)
    decreases |calls| - i
  {
    hide Watch, Dispatch, ApprovalEvents, OutputEvents;
    if i < |calls| {
      var call := calls[i];
      var d := Dispatch(env, w, call, ctx, messages);
      DispatchSaysNothing(env, w, call, ctx, messages);
      PendingHasResult(env, w, call, ctx, messages);
      GroupSaysNothing(v, events, call, d.result, d.world);
      if !d.failed && !d.pending {
        BatchSaysNothing(env, d.world, ctx, calls, i + 1, messages + [AnswerTo(call, d.result)],
                         events + [ToolStarted(call.name)] + OutputEvents(call.name, d.result) + [ToolFinished(call.name)], v);
      }
    }
  }

  /** What an outcome says of the transcript: a reply is saved with its question, nothing else is. */
  predicate Transcribed(before: seq<ChatMessage>, after: seq<ChatMessage>, input: string, outcome: Outcome) {
    match outcome
    case Replied(reply) => reply != "" && after == before + [ChatMessage(User, input), ChatMessage(Assistant, reply)]
    case _ => after == before
  }

  lemma {:induction false} TurnsSayNothing(env: Environment, w: World, ctx: Context, turn: nat, messages: seq<Message>,
                                           events: seq<Event>, v: View)
    requires turn <= MAX_TURNS
    ensures var end := RunTurns(env, w, ctx, turn, messages, events);
            && Watch(v, end.events).lines == Watch(v, events).lines
            && Transcribed(w.ai.messages, end.world.ai.messages, ctx.userMessage, end.outcome)
            && |end.world.asked| == |w.asked| + (if end.outcome.Suspended? then 1 else 0)
    decreases MAX_TURNS - turn
  {
    hide Watch, RunBatch, Trim;
    if turn < MAX_TURNS && env.completion(|w.sent|).Some? {
      var reply := env.completion(|w.sent|).value;
      if reply.toolCalls != [] && ctx.toolsOn {
        var w1 := w.(sent := w.sent + [messages]);
        var batch := messages + [Message(Assistant, Words(reply.content), "", reply.toolCalls)];
        BatchSaysNothing(env, w1, ctx, reply.toolCalls, 0, batch, events, v);
        match RunBatch(env, w1, ctx, reply.toolCalls, 0, batch, events)
        case Stop(_, _, _) =>
        case Continue(w2, messages', events') =>
          TurnsSayNothing(env, w2, ctx, turn + 1, messages', events', v);
      }
    }
  }

  /** How an agent run ends. */
  ghost function AgentOutcome(env: Environment, w: World, sessionID: string, input: string): Outcome {
    if !env.succeeds(w.draws) || ActiveProvider(w.ai.providers).None? || !env.succeeds(w.draws + 1) then Failed
    else
      RunTurns(env, w.(draws := w.draws + 2), StartContext(w.ai, ActiveProvider(w.ai.providers).value, sessionID, input), 0,
               Opening(w.ai, sessionID, input), [MessageStarted]).outcome
  }

  /** Whether the run's context had ended when the run failed: asked once at its start, and once after its loop. */
  ghost function AgentCancelled(env: Environment, w: World, sessionID: string, input: string): bool {
    if !env.succeeds(w.draws) then true
    else if ActiveProvider(w.ai.providers).None? || !env.succeeds(w.draws + 1) then false
    else
      !env.succeeds(RunTurns(env, w.(draws := w.draws + 2), StartContext(w.ai, ActiveProvider(w.ai.providers).value, sessionID, input), 0,
                             Opening(w.ai, sessionID, input), [MessageStarted]).world.draws)
  }

  /** The text a pane gains from a run that ended so: a suspended run repeats the last answer of an earlier one. */
  predicate Gains(before: seq<Line>, after: seq<Line>, outcome: Outcome, cancelled: bool, earlier: string) {
    match outcome
    case Failed => after == before + [if cancelled then CancelledLine else ErrorLine]
    case Replied(reply) => after == before + [FromAI(reply)]
    case Suspended(_) => after == before + if earlier == "" then [] else [FromAI(earlier)]
  }

  lemma ClosingSays(v: View, events: seq<Event>, w: World)
    ensures var reply := LastAssistant(w.ai.messages);
            Watch(v, events + ToolCalling.Closing(w)).lines == Watch(v, events).lines + if reply == "" then [] else [FromAI(reply)]
  {
    hide Watch, LastAssistant;
    var reply := LastAssistant(w.ai.messages);
    if reply == "" {
      assert events + ToolCalling.Closing(w) == events + [MessageFinished(reply)];
      WatchSnoc(v, events, MessageFinished(reply));
    } else {
      var said := events + [TextDelta(reply)];
      assert events + ToolCalling.Closing(w) == said + [MessageFinished(reply)];
      WatchSnoc(v, events, TextDelta(reply));
      WatchSnoc(v, said, MessageFinished(reply));
    }
  }

  lemma LastReply(messages: seq<ChatMessage>, input: string, reply: string)
    ensures LastAssistant(messages + [ChatMessage(User, input), ChatMessage(Assistant, reply)]) == reply
  {
  }

  /**
   What a run saves and what its pane gains.  The new text is the run's own
   reply exactly when the run ended in one; a run that stops for an approval
   shows the last answer of an earlier run once more.
   */
  lemma AgentTextTells(env: Environment, w: World, sessionID: string, input: string, v: View)
    ensures var (w', events) := RunAgent(env, w, sessionID, input);
            var outcome := AgentOutcome(env, w, sessionID, input);
            && Transcribed(w.ai.messages, w'.ai.messages, input, outcome)
            && Gains(v.lines, Watch(v, events).lines, outcome, AgentCancelled(env, w, sessionID, input), LastAssistant(w.ai.messages))
            && |w'.asked| == |w.asked| + (if outcome.Suspended? then 1 else 0)
  {
    hide Watch, RunTurns, ActiveProvider, Normalized, ToolsOn, Opening, ToolCalling.Closing, LastAssistant;
    EarlyExits(v);
    if env.succeeds(w.draws) && ActiveProvider(w.ai.providers).Some? && env.succeeds(w.draws + 1) {
      var ctx := StartContext(w.ai, ActiveProvider(w.ai.providers).value, sessionID, input);
      var w1 := w.(draws := w.draws + 2);
      TurnsSayNothing(env, w1, ctx, 0, Opening(w.ai, sessionID, input), [MessageStarted], v);
      var end := RunTurns(env, w1, ctx, 0, Opening(w.ai, sessionID, input), [MessageStarted]);
      if end.outcome.Failed? {
        WatchSnoc(v, end.events, Errored);
        WatchSnoc(v, end.events, Cancelled);
      } else {
        ClosingSays(v, end.events, end.world);
        if end.outcome.Replied? {
          LastReply(w.ai.messages, input, end.outcome.text);
        }
      }
    }
  }

  /** The pane gains a text that is not this run's saved reply if and only if the run raised a request and an earlier answer is there to repeat. */
  lemma RepeatsExactlyWhenSuspended(env: Environment, w: World, sessionID: string, input: string, v: View)
    ensures var (w', events) := RunAgent(env, w, sessionID, input);
            var after := Watch(v, events).lines;
            (|after| > |v.lines| && after[|v.lines|].FromAI? && w'.ai.messages == w.ai.messages)
            <==> (|w'.asked| > |w.asked| && LastAssistant(w.ai.messages) != "")
  {
    hide Watch, RunAgent, AgentOutcome, AgentCancelled, LastAssistant;
    AgentTextTells(env, w, sessionID, input, v);
  }

  const ASKING := ToolCall("call", "function", "ssh.exec", Object(map["command" := "id"]))

  /** A model that asks for one command, and a store that always saves. */
  const ASKS_FOR_A_COMMAND := Environment(
    (n: nat) => Some(Completion("", [ASKING])), (n: nat) => NOT_RUN, (n: nat) => "", (n: nat) => true)

  function AfterAnswer(earlier: string): World {
    var ai := AIState([Provider("p", true, true)], Policy([], [], [], ""), [ChatMessage(Assistant, earlier)], "chat", None);
    World(ai, [], 0, 0, [], [], [])
  }

  lemma UnruledCommandAsks(policy: Policy)
    requires policy == Normalized(Policy([], [], [], ""))
    ensures Decide(policy, SHELL, "tab", "id") == Decision.Ask
  {
    ToolIDsAreClean();
    DecideNormalized(Policy([], [], [], ""), SHELL, "tab", "id");
    NormalizingKeepsEnabledTools([], SHELL);
    hide Key, NormalizedTools, Contains;
    TrimOfTrimmed("id");
    forall i | 0 <= i < |UNSAFE_TOKENS| ensures !Contains("id", UNSAFE_TOKENS[i]) {
      NotInID(UNSAFE_TOKENS[i]);
    }
  }

  lemma NotInID(token: string)
    requires token in UNSAFE_TOKENS
    ensures !Contains("id", token)
  {
    var i :| 0 <= i < |UNSAFE_TOKENS| && UNSAFE_TOKENS[i] == token;
    assert token[0] != 'i' && token[0] != 'd';
  }

  lemma ShellIsOn()
    ensures ToolsOn(Policy([], [], [], ""))
  {
    ToolIDsAreClean();
    hide Key;
  }

  lemma AskingSuspends(w: World, ctx: Context, messages: seq<Message>)
    requires ctx.policy == Normalized(Policy([], [], [], "")) && ctx.activeSessionID == "tab"
    ensures DispatchExec(ASKS_FOR_A_COMMAND, w, ASKING, ctx, messages).pending
  {
    TrimOfTrimmed("tab");
    TrimOfTrimmed("id");
    TrimOfTrimmed("");
    UnruledCommandAsks(ctx.policy);
    hide Decide, Normalized, Trim, RequestID, Decimal;
  }

  lemma AskingStopsTheBatch(w: World, ctx: Context, messages: seq<Message>, events: seq<Event>)
    requires ctx.policy == Normalized(Policy([], [], [], "")) && ctx.activeSessionID == "tab"
    ensures var end := RunBatch(ASKS_FOR_A_COMMAND, w, ctx, [ASKING], 0, messages, events);
            end.Stop? && end.outcome.Suspended?
  {
    AskingSuspends(w, ctx, messages);
    PendingHasResult(ASKS_FOR_A_COMMAND, w, ASKING, ctx, messages);
    hide DispatchExec, ApprovalEvents, OutputEvents, Normalized;
  }

  lemma AskingStopsTheLoop(w: World, ctx: Context, turn: nat, messages: seq<Message>, events: seq<Event>)
    requires ctx.policy == Normalized(Policy([], [], [], "")) && ctx.activeSessionID == "tab" && ctx.toolsOn && turn < MAX_TURNS
    ensures RunTurns(ASKS_FOR_A_COMMAND, w, ctx, turn, messages, events).outcome.Suspended?
  {
    hide Normalized, RunBatch, Finish;
    AskingStopsTheBatch(w.(sent := w.sent + [messages]), ctx, messages + [Message(Assistant, Words(""), "", [ASKING])], events);
  }

  lemma FirstCommandSuspends(earlier: string, input: string)
    ensures AgentOutcome(ASKS_FOR_A_COMMAND, AfterAnswer(earlier), "tab", input).Suspended?
  {
    var w := AfterAnswer(earlier);
    ShellIsOn();
    hide Normalized, Opening, RunTurns, ToolsOn;
    AskingStopsTheLoop(w.(draws := w.draws + 2), StartContext(w.ai, w.ai.providers[0], "tab", input), 0, Opening(w.ai, "tab", input), [MessageStarted]);
  }

  /** The input that shows it: the model asks for a command, nothing is answered, and the pane shows the earlier answer again. */
  lemma EarlierAnswerIsRepeated(earlier: string, input: string, v: View)
    requires earlier != ""
    ensures var (w', events) := RunAgent(ASKS_FOR_A_COMMAND, AfterAnswer(earlier), "tab", input);
            w'.ai.messages == AfterAnswer(earlier).ai.messages && Watch(v, events).lines == v.lines + [FromAI(earlier)]
  {
    var w := AfterAnswer(earlier);
    AgentTextTells(ASKS_FOR_A_COMMAND, w, "tab", input, v);
    FirstCommandSuspends(earlier, input);
    assert LastAssistant([ChatMessage(Assistant, earlier)]) == earlier;
  }
}
