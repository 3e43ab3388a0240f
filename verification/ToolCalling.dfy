/**
 The tool-calling conversation as transitions on values: what one service call
 does to the stored AI state and to the outside world.
 Models internal/app/native_tool_calling.go, native_diagnostics.go,
 service_command_policy.go, ssh_command_result.go and ai_agent.go.

 Every answer from outside (model replies, command results, whether a store
 write or a provider lookup succeeds) comes from an `Environment`, indexed by
 how many such answers were drawn before; a statement for all environments is
 a statement for every behaviour of the outside world.
 */
module ToolCalling {
  import opened Text
  import opened CommandPolicy
  import RuntimeTabs

  // ------------------------------------------------------------------ data

  /** A JSON object with string values, or text that does not decode to one. */
  datatype Arguments = Malformed | Object(fields: map<string, string>)

  datatype ToolCall = ToolCall(id: string, kind: string, name: string, arguments: Arguments)

  datatype CommandResult = CommandResult(success: bool, exitCode: int, output: string)

  datatype Execution = Execution(result: CommandResult, error: Option<string>)

  datatype Refusal =
    | InvalidArguments | MissingFields | WrongSession | UnknownTool | ToolDisabled
    | UnsupportedOperation | SessionNotFound | NotConnected | TooLarge | DeniedByPolicy

  datatype ToolResult =
    | NoResult
    | Refused(refusal: Refusal)
    | Ran(sessionID: string, command: string, execution: Execution)
    | Wrote(sessionID: string, path: string, saved: bool)
    | Looked(sessionID: string, path: string, answer: string)
    | Diagnosed(sessionID: string, runs: seq<Execution>)
    | DiagnosticsBlocked(sessionID: string, command: string, decision: Decision)
    | ApprovalRequired(requestID: string)
    | ApprovalDenied

  datatype Role = System | User | Assistant | Tool

  datatype Content = Words(text: string) | Prompt(enabled: seq<string>, sessionID: string) | Result(result: ToolResult)

  datatype Message = Message(role: Role, content: Content, toolCallID: string, toolCalls: seq<ToolCall>)

  datatype ChatMessage = ChatMessage(role: Role, text: string)

  /** The saved continuation of a conversation suspended on one tool call. */
  datatype PendingCall = PendingCall(
    requestID: string, providerID: string, toolCallID: string, toolName: string, arguments: Arguments,
    userMessage: string, sessionID: string, messages: seq<Message>)

  datatype Provider = Provider(id: string, selected: bool, configured: bool)

  datatype AIState = AIState(
    providers: seq<Provider>, policy: Policy, messages: seq<ChatMessage>, chatSessionID: string,
    pendingCall: Option<PendingCall>)

  type Tab = RuntimeTabs.Tab

  datatype Route = Automatic | Approved(requestID: string)

  /** What reached a host: a command handed to the SSH executor, or a file written or a path looked at through SFTP. */
  datatype Effect =
    | RanCommand(sessionID: string, command: string, route: Route)
    | WroteFile(sessionID: string, path: string, content: string, requestID: string)
    | LookedAt(sessionID: string, path: string, tool: string)

  datatype Completion = Completion(content: string, toolCalls: seq<ToolCall>)

  datatype Environment = Environment(
    completion: nat -> Option<Completion>,
    execution: nat -> Execution,
    reading: nat -> string,
    succeeds: nat -> bool)

  /** The service's stored state and, below it, the log of what it has done. */
  datatype World = World(
    ai: AIState, tabs: seq<Tab>, clock: nat,
    draws: nat, effects: seq<Effect>, sent: seq<seq<Message>>, asked: seq<CommandRequest>)

  // ------------------------------------------------------- outside answers

  function Save(env: Environment, w: World, ai: AIState): (World, bool) {
    if env.succeeds(w.draws) then (w.(ai := ai, draws := w.draws + 1), true) else (w.(draws := w.draws + 1), false)
  }

  /** The tab with an identifier, if one is open. */
  function FindTab(tabs: seq<Tab>, id: string): (r: Option<Tab>)
    ensures r.Some? ==> r.value in tabs && r.value.id == id
    ensures r.None? ==> forall tab :: tab in tabs ==> tab.id != id
  {
    if tabs == [] then None else if tabs[0].id == id then Some(tabs[0]) else FindTab(tabs[1..], id)
  }

  predicate ConnectedSSH(tabs: seq<Tab>, id: string) {
    match FindTab(tabs, id)
    case Some(tab) => Key(tab.protocolID) == "ssh" && Key(tab.status) == "connected"
    case None => false
  }

  /** The SFTP paths compare without trimming or folding case. */
  predicate StrictlyConnected(tab: Tab) {
    tab.protocolID == "ssh" && tab.status == "connected"
  }

  const NOT_RUN := Execution(CommandResult(false, -1, ""), Some("not executed"))

  /** Hands a command to the SSH executor if its tab is a connected SSH session. */
  function Execute(env: Environment, w: World, sessionID: string, command: string, route: Route): (World, Execution) {
    var s, c := Trim(sessionID), Trim(command);
    if s == "" || c == "" || !ConnectedSSH(w.tabs, s) then (w, NOT_RUN)
    else (w.(effects := w.effects + [RanCommand(s, c, route)]), env.execution(|w.effects|))
  }

  // -------------------------------------------------------------- dispatch

  datatype ToolKind = ExecTool | DiagnosticsTool | LookTool | WriteTool | OtherTool

  const SFTP_WRITE := "sftp.write"
  const SFTP := "sftp"

  function KindOf(name: string): ToolKind {
    if name == "ssh.exec" then ExecTool
    else if name == "ssh.diagnostics" then DiagnosticsTool
    else if name == SFTP_WRITE then WriteTool
    else if name == "sftp.stat" || name == "sftp.list" || name == "sftp.read" then LookTool
    else OtherTool
  }

  /** Strict decoding: unknown fields are an error, missing ones are empty. */
  function Decode(arguments: Arguments, schema: set<string>): Option<map<string, string>> {
    if arguments.Object? && arguments.fields.Keys <= schema then Some(arguments.fields) else None
  }

  function Field(fields: map<string, string>, name: string): string {
    if name in fields then fields[name] else ""
  }

  /** What one loop invocation keeps fixed. */
  datatype Context = Context(providerID: string, policy: Policy, activeSessionID: string, userMessage: string, toolsOn: bool)

  datatype Dispatched = Dispatched(world: World, result: ToolResult, pending: bool, failed: bool)

  function Answered(w: World, result: ToolResult): Dispatched {
    Dispatched(w, result, false, false)
  }

  function RequestID(clock: nat): string {
    "cmdreq-" + Decimal(clock)
  }

  /** Lists a request, saves the continuation, and suspends the conversation. */
  function Suspend(env: Environment, w: World, call: ToolCall, ctx: Context, toolID: string, sessionID: string,
                   command: string, reason: string, messages: seq<Message>): Dispatched
  {
    var request := CommandRequest(RequestID(w.clock), toolID, sessionID, command, reason, Decimal(w.clock));
    var policy := Normalized(w.ai.policy);
    var pendingCall := PendingCall(request.id, ctx.providerID, call.id, call.name, call.arguments,
                                   ctx.userMessage, sessionID, messages);
    var ai := w.ai.(policy := policy.(pending := policy.pending + [request]), pendingCall := Some(pendingCall));
    var (w', saved) := Save(env, w.(clock := w.clock + 1), ai);
    if !saved then Dispatched(w', NoResult, false, true)
    else Dispatched(w'.(asked := w'.asked + [request]), ApprovalRequired(request.id), true, false)
  }

  ghost function DispatchExec(env: Environment, w: World, call: ToolCall, ctx: Context, messages: seq<Message>): Dispatched {
    match Decode(call.arguments, {"sessionId", "command", "reason"})
    case None => Answered(w, Refused(InvalidArguments))
    case Some(fields) =>
      var active := Trim(ctx.activeSessionID);
      var session := if Trim(Field(fields, "sessionId")) == "" then active else Trim(Field(fields, "sessionId"));
      var command := Trim(Field(fields, "command"));
      if session == "" || command == "" then Answered(w, Refused(MissingFields))
      else if active != "" && session != active then Answered(w, Refused(WrongSession))
      else
        match Decide(ctx.policy, SHELL, session, command)
        case Deny => Answered(w, Refused(DeniedByPolicy))
        case Allow =>
          var (w', execution) := Execute(env, w, session, command, Automatic);
          Answered(w', Ran(session, command, execution))
        case Ask => Suspend(env, w, call, ctx, SHELL, session, command, Trim(Field(fields, "reason")), messages)
  }

  const MAX_SFTP_WRITE: nat := 0x1000_0000

  /** Bytes of the UTF-8 encoding. */
  function Utf8Length(s: string): nat {
    if s == "" then 0
    else Utf8Length(s[1..]) +
         (if s[0] as int < 0x80 then 1 else if s[0] as int < 0x800 then 2 else if s[0] as int < 0x1_0000 then 3 else 4)
  }

  const WRITE_SCHEMA := {"sessionId", "path", "content", "reason"}

  function DispatchWrite(env: Environment, w: World, call: ToolCall, ctx: Context, messages: seq<Message>): Dispatched {
    if !ToolEnabled(w.ai.policy.tools, SFTP) then Answered(w, Refused(ToolDisabled))
    else
      match Decode(call.arguments, WRITE_SCHEMA)
      case None => Answered(w, Refused(InvalidArguments))
      case Some(fields) =>
        var active := Trim(ctx.activeSessionID);
        var session := if Trim(Field(fields, "sessionId")) == "" then active else Trim(Field(fields, "sessionId"));
        var path := Trim(Field(fields, "path"));
        if session == "" || path == "" then Answered(w, Refused(MissingFields))
        else if active != "" && session != active then Answered(w, Refused(WrongSession))
        else if Utf8Length(Field(fields, "content")) > MAX_SFTP_WRITE then Answered(w, Refused(TooLarge))
        else
          match FindTab(w.tabs, session)
          case None => Answered(w, Refused(SessionNotFound))
          case Some(tab) =>
            if !StrictlyConnected(tab) then Answered(w, Refused(NotConnected))
            else Suspend(env, w, call, ctx, SFTP_WRITE, session, path, Trim(Field(fields, "reason")), messages)
  }

  /** The three tools that stat, list or read a path: no approval, but only in the session the conversation is about. */
  function DispatchLook(env: Environment, w: World, call: ToolCall, ctx: Context): Dispatched {
    if !ToolEnabled(w.ai.policy.tools, SFTP) then Answered(w, Refused(ToolDisabled))
    else
      match Decode(call.arguments, {"sessionId", "path"})
      case None => Answered(w, Refused(InvalidArguments))
      case Some(fields) =>
        var active := Trim(ctx.activeSessionID);
        var session := if Trim(Field(fields, "sessionId")) == "" then active else Trim(Field(fields, "sessionId"));
        var path := Trim(Field(fields, "path"));
        if session == "" || path == "" then Answered(w, Refused(MissingFields))
        else if active == "" || session != active then Answered(w, Refused(WrongSession))
        else
          match FindTab(w.tabs, session)
          case None => Answered(w, Refused(NotConnected))
          case Some(tab) =>
            if !StrictlyConnected(tab) then Answered(w, Refused(NotConnected))
            else Answered(w.(effects := w.effects + [LookedAt(session, path, call.name)], draws := w.draws + 1),
                          Looked(session, path, env.reading(w.draws)))
  }

  const CHECKS := ["uname -a", "hostname", "whoami", "id", "free -h", "df -h"]

  /** The first check, from `i` on, that the policy does not allow. */
  ghost function FirstBlocked(policy: Policy, sessionID: string, i: nat): Option<(string, Decision)>
    requires i <= |CHECKS|
    decreases |CHECKS| - i
  {
    if i == |CHECKS| then None
    else if Decide(policy, SHELL, sessionID, CHECKS[i]) != Allow then Some((CHECKS[i], Decide(policy, SHELL, sessionID, CHECKS[i])))
    else FirstBlocked(policy, sessionID, i + 1)
  }

  function RunChecks(env: Environment, w: World, sessionID: string, i: nat, runs: seq<Execution>): (World, seq<Execution>)
    requires i <= |CHECKS|
    decreases |CHECKS| - i
  {
    if i == |CHECKS| then (w, runs)
    else
      var (w', execution) := Execute(env, w, sessionID, CHECKS[i], Automatic);
      RunChecks(env, w', sessionID, i + 1, runs + [execution])
  }

  ghost function DispatchDiagnostics(env: Environment, w: World, call: ToolCall, ctx: Context): Dispatched {
    match Decode(call.arguments, {"sessionId", "operation"})
    case None => Answered(w, Refused(InvalidArguments))
    case Some(fields) =>
      var session := if Trim(Field(fields, "sessionId")) == "" then Trim(ctx.activeSessionID) else Trim(Field(fields, "sessionId"));
      var operation := Trim(Field(fields, "operation"));
      if session == "" || operation == "" then Answered(w, Refused(MissingFields))
      else if operation != "summary" then Answered(w, Refused(UnsupportedOperation))
      else if !ToolEnabled(ctx.policy.tools, SHELL) then Answered(w, Refused(ToolDisabled))
      else
        match FirstBlocked(ctx.policy, session, 0)
        case Some((command, decision)) => Answered(w, DiagnosticsBlocked(session, command, decision))
        case None =>
          var (w', runs) := RunChecks(env, w, session, 0, []);
          Answered(w', Diagnosed(session, runs))
  }

  ghost function Dispatch(env: Environment, w: World, call: ToolCall, ctx: Context, messages: seq<Message>): Dispatched {
    if call.kind != "function" && call.kind != "" then Dispatched(w, NoResult, false, true)
    else
      match KindOf(call.name)
      case ExecTool => DispatchExec(env, w, call, ctx, messages)
      case DiagnosticsTool => DispatchDiagnostics(env, w, call, ctx)
      case WriteTool => DispatchWrite(env, w, call, ctx, messages)
      case LookTool => DispatchLook(env, w, call, ctx)
      case OtherTool => Answered(w, Refused(UnknownTool))
  }

  // ------------------------------------------------------------------ loop

  datatype Event =
    | MessageStarted
    | TextDelta(text: string)
    | ToolStarted(tool: string)
    | ToolOutput(tool: string, result: ToolResult)
    | ToolFinished(tool: string)
    | ApprovalNeeded(tool: string, request: CommandRequest)
    | MessageFinished(text: string)
    | Errored
    | Cancelled

  datatype Outcome = Replied(text: string) | Suspended(result: ToolResult) | Failed

  datatype BatchEnd =
    | Continue(world: World, messages: seq<Message>, events: seq<Event>)
    | Stop(world: World, events: seq<Event>, outcome: Outcome)

  datatype LoopEnd = LoopEnd(world: World, events: seq<Event>, outcome: Outcome)

  function FindRequest(requests: seq<CommandRequest>, id: string): (r: Option<nat>)
    ensures r.Some? ==> r.value < |requests| && requests[r.value].id == id && forall j :: 0 <= j < r.value ==> requests[j].id != id
    ensures r.None? ==> forall j :: 0 <= j < |requests| ==> requests[j].id != id
  {
    FindRequestFrom(requests, id, 0)
  }

  function FindRequestFrom(requests: seq<CommandRequest>, id: string, i: nat): (r: Option<nat>)
    requires i <= |requests|
    ensures r.Some? ==> i <= r.value < |requests| && requests[r.value].id == id && forall j :: i <= j < r.value ==> requests[j].id != id
    ensures r.None? ==> forall j :: i <= j < |requests| ==> requests[j].id != id
    decreases |requests| - i
  {
    if i == |requests| then None else if requests[i].id == id then Some(i) else FindRequestFrom(requests, id, i + 1)
  }

  function ApprovalEvents(w: World, result: ToolResult, tool: string): seq<Event> {
    if result.ApprovalRequired? && Trim(result.requestID) != "" then
      match FindRequest(w.ai.policy.pending, Trim(result.requestID))
      case Some(i) => [ApprovalNeeded(tool, w.ai.policy.pending[i])]
      case None => []
    else []
  }

  function OutputEvents(tool: string, result: ToolResult): seq<Event> {
    if result == NoResult then [] else [ToolOutput(tool, result)]
  }

  function AnswerTo(call: ToolCall, result: ToolResult): Message {
    Message(Tool, Result(result), call.id, [])
  }

  ghost function RunBatch(env: Environment, w: World, ctx: Context, calls: seq<ToolCall>, i: nat,
                          messages: seq<Message>, events: seq<Event>): BatchEnd
    requires i <= |calls|
    decreases |calls| - i
  {
    if i == |calls| then Continue(w, messages, events)
    else
      var call := calls[i];
      var d := Dispatch(env, w, call, ctx, messages);
      var shown := events + [ToolStarted(call.name)] + OutputEvents(call.name, d.result);
      if d.failed then Stop(d.world, shown, Failed)
      else if d.pending then Stop(d.world, shown + ApprovalEvents(d.world, d.result, call.name), Suspended(d.result))
      else RunBatch(env, d.world, ctx, calls, i + 1, messages + [AnswerTo(call, d.result)], shown + [ToolFinished(call.name)])
  }

  function Finish(env: Environment, w: World, ctx: Context, content: string, events: seq<Event>): LoopEnd {
    var reply := Trim(content);
    if reply == "" then LoopEnd(w, events, Failed)
    else
      var (w', saved) := Save(env, w, w.ai.(pendingCall := None,
                                            messages := w.ai.messages + [ChatMessage(User, ctx.userMessage), ChatMessage(Assistant, reply)]));
      LoopEnd(w', events, if saved then Replied(reply) else Failed)
  }

  const MAX_TURNS: nat := 4

  ghost function RunTurns(env: Environment, w: World, ctx: Context, turn: nat, messages: seq<Message>, events: seq<Event>): LoopEnd
    requires turn <= MAX_TURNS
    decreases MAX_TURNS - turn
  {
    if turn == MAX_TURNS then LoopEnd(w, events, Failed)
    else
      var w1 := w.(sent := w.sent + [messages]);
      match env.completion(|w.sent|)
      case None => LoopEnd(w1, events, Failed)
      case Some(reply) =>
        if reply.toolCalls == [] then Finish(env, w1, ctx, reply.content, events)
        else if !ctx.toolsOn then LoopEnd(w1, events, Failed)
        else
          match RunBatch(env, w1, ctx, reply.toolCalls, 0,
                         messages + [Message(Assistant, Words(reply.content), "", reply.toolCalls)], events)
          case Stop(w2, events', outcome) => LoopEnd(w2, events', outcome)
          case Continue(w2, messages', events') => RunTurns(env, w2, ctx, turn + 1, messages', events')
  }

  // ---------------------------------------------------------- entry points

  function EnabledTools(tools: seq<CommandTool>): seq<string> {
    if tools == [] then [] else (if tools[0].enabled then [tools[0].id] else []) + EnabledTools(tools[1..])
  }

  function SystemPrompt(policy: Policy, sessionID: string): Content {
    Prompt(EnabledTools(NormalizedTools(policy.tools)), sessionID)
  }

  function ToolsOn(policy: Policy): bool {
    ToolEnabled(policy.tools, SHELL) || ToolEnabled(policy.tools, SFTP)
  }

  function Transcript(messages: seq<ChatMessage>): (r: seq<Message>)
    ensures |r| == |messages| && forall i :: 0 <= i < |r| ==> r[i] == Message(messages[i].role, Words(messages[i].text), "", [])
  {
    seq(|messages|, i requires 0 <= i < |messages| => Message(messages[i].role, Words(messages[i].text), "", []))
  }

  function Opening(ai: AIState, sessionID: string, input: string): seq<Message> {
    [Message(System, SystemPrompt(ai.policy, sessionID), "", [])]
    + Transcript(ai.messages) + [Message(User, Words(input), "", [])]
  }

  function ActiveProvider(providers: seq<Provider>): Option<Provider> {
    if providers == [] then None
    else if providers[0].selected && providers[0].configured then Some(providers[0])
    else ActiveProvider(providers[1..])
  }

  function ProviderByID(providers: seq<Provider>, id: string): Option<Provider> {
    if providers == [] then None
    else if providers[0].id == id then Some(providers[0])
    else ProviderByID(providers[1..], id)
  }

  function StartContext(ai: AIState, provider: Provider, sessionID: string, input: string): Context {
    Context(provider.id, Normalized(ai.policy), sessionID, input, ToolsOn(ai.policy))
  }

  datatype Reply = Done | Error(reason: ErrorKind)

  datatype ErrorKind =
    | EmptyInput | NoProvider | LoopFailed | RequestNotFound | UnsupportedMode | RequestToolDisabled | StaleSession
    | ContinuationMismatch | NoContinuation | BadWriteArguments | WriteTooLarge | WriteNeedsConnection
    | NotSaved | ResultNotSaved

  ghost function SendChat(env: Environment, w: World, message: string, sessionID: string): (World, Reply) {
    if Trim(message) == "" then (w, Error(EmptyInput))
    else
      match ActiveProvider(w.ai.providers)
      case None => (w, Error(NoProvider))
      case Some(provider) =>
        var w1 := w.(draws := w.draws + 1);
        if !env.succeeds(w.draws) then (w1, Error(NoProvider))
        else
          var end := RunTurns(env, w1, StartContext(w.ai, provider, Trim(sessionID), Trim(message)), 0,
                              Opening(w.ai, Trim(sessionID), Trim(message)), []);
          (end.world, if end.outcome.Failed? then Error(LoopFailed) else Done)
  }

  function LastAssistant(messages: seq<ChatMessage>): string {
    if messages == [] then ""
    else if messages[|messages| - 1].role == Assistant then messages[|messages| - 1].text
    else LastAssistant(messages[..|messages| - 1])
  }

  function Closing(w: World): seq<Event> {
    var reply := LastAssistant(w.ai.messages);
    (if reply == "" then [] else [TextDelta(reply)]) + [MessageFinished(reply)]
  }

  /** One agent run: the world it leaves and the events it sent. */
  ghost function RunAgent(env: Environment, w: World, sessionID: string, input: string): (World, seq<Event>) {
    var w0 := w.(draws := w.draws + 1);
    if !env.succeeds(w.draws) then (w0, [Cancelled])
    else
      match ActiveProvider(w.ai.providers)
      case None => (w0, [MessageStarted, Errored])
      case Some(provider) =>
        var w1 := w0.(draws := w0.draws + 1);
        if !env.succeeds(w0.draws) then (w1, [MessageStarted, Errored])
        else
          var end := RunTurns(env, w1, StartContext(w.ai, provider, sessionID, input), 0, Opening(w.ai, sessionID, input), [MessageStarted]);
          if end.outcome.Failed? then
            var w2 := end.world.(draws := end.world.draws + 1);
            (w2, end.events + [if env.succeeds(end.world.draws) then Errored else Cancelled])
          else (end.world, end.events + Closing(end.world))
  }

  // ---------------------------------------------------- resuming, resolving

  function RefreshPrompt(messages: seq<Message>, policy: Policy, sessionID: string): seq<Message> {
    if messages != [] && messages[0].role == System then
      [messages[0].(content := SystemPrompt(policy, sessionID))] + messages[1..]
    else messages
  }

  ghost function Resume(env: Environment, w: World, pending: PendingCall, result: ToolResult): (World, Reply) {
    if Trim(pending.providerID) == "" then (w, Error(NoProvider))
    else
      match ProviderByID(w.ai.providers, Trim(pending.providerID))
      case None => (w, Error(NoProvider))
      case Some(provider) =>
        var w1 := w.(draws := w.draws + 1);
        if !env.succeeds(w.draws) then (w1, Error(NoProvider))
        else
          var (w2, saved) := Save(env, w1, w1.ai.(pendingCall := None));
          if !saved then (w2, Error(NotSaved))
          else
            var ctx := StartContext(w.ai, provider, pending.sessionID, pending.userMessage);
            var messages := RefreshPrompt(pending.messages, w.ai.policy, pending.sessionID)
                            + [Message(Tool, Result(result), pending.toolCallID, [])];
            var end := RunTurns(env, w2, ctx, 0, messages, []);
            (end.world, if end.outcome.Failed? then Error(LoopFailed) else Done)
  }

  datatype Mode = Now | Session | Always | Reject | OtherMode

  function Without(requests: seq<CommandRequest>, i: nat): seq<CommandRequest>
    requires i < |requests|
  {
    requests[..i] + requests[i + 1..]
  }

  predicate Holds(ai: AIState, requestID: string) {
    ai.pendingCall.Some? && ai.pendingCall.value.requestID == requestID
  }

  function PolicyToolID(toolName: string): string {
    if KindOf(toolName) == ExecTool then SHELL else toolName
  }

  predicate Matches(pending: PendingCall, request: CommandRequest) {
    PolicyToolID(pending.toolName) == request.toolID && Trim(pending.sessionID) == request.sessionID
  }

  function Note(ai: AIState, text: string): AIState {
    ai.(messages := ai.messages + [ChatMessage(Assistant, text)])
  }

  ghost function ResolveRequest(env: Environment, w: World, requestID: string, mode: Mode): (World, Reply) {
    var id := Trim(requestID);
    var policy := Normalized(w.ai.policy);
    if id == "" then (w, Error(RequestNotFound))
    else
      match FindRequest(policy.pending, id)
      case None => (w, Error(RequestNotFound))
      case Some(i) =>
        match mode
        case Reject => RejectRequest(env, w, policy, i)
        case OtherMode => (w, Error(UnsupportedMode))
        case _ => ApproveRequest(env, w, policy, i, mode)
  }

  ghost function RejectRequest(env: Environment, w: World, policy: Policy, i: nat): (World, Reply)
    requires i < |policy.pending|
  {
    var request := policy.pending[i];
    var ai := w.ai.(policy := policy.(pending := Without(policy.pending, i)));
    if Holds(w.ai, request.id) then
      var (w', saved) := Save(env, w, ai.(pendingCall := None));
      if !saved then (w', Error(NotSaved)) else Resume(env, w', w.ai.pendingCall.value, ApprovalDenied)
    else
      var (w', saved) := Save(env, w, Note(ai, RejectedNote(request)));
      (w', if saved then Done else Error(NotSaved))
  }

  ghost function ApproveRequest(env: Environment, w: World, policy: Policy, i: nat, mode: Mode): (World, Reply)
    requires i < |policy.pending| && (mode == Now || mode == Session || mode == Always)
  {
    var request := policy.pending[i];
    if request.toolID != SFTP_WRITE && !ToolEnabled(policy.tools, request.toolID) then (w, Error(RequestToolDisabled))
    else if FindTab(w.tabs, request.sessionID).None? then
      var (w', saved) := Save(env, w, w.ai.(policy := policy.(pending := Without(policy.pending, i))));
      (w', Error(if saved then StaleSession else NotSaved))
    else if Holds(w.ai, request.id) && !Matches(w.ai.pendingCall.value, request) then (w, Error(ContinuationMismatch))
    else if request.toolID == SFTP_WRITE then ApproveWrite(env, w, request)
    else ApproveCommand(env, w, policy, i, mode)
  }

  ghost function ApproveWrite(env: Environment, w: World, request: CommandRequest): (World, Reply) {
    if !Holds(w.ai, request.id) || w.ai.pendingCall.value.toolName != SFTP_WRITE then (w, Error(NoContinuation))
    else
      var pending := w.ai.pendingCall.value;
      var (w1, saved) := Save(env, w, w.ai.(pendingCall := None));
      if !saved then (w1, Error(NotSaved))
      else
        match Decode(pending.arguments, WRITE_SCHEMA)
        case None => (w1, Error(BadWriteArguments))
        case Some(fields) =>
          var session, path, content := Trim(Field(fields, "sessionId")), Trim(Field(fields, "path")), Field(fields, "content");
          if session != request.sessionID || path == "" then (w1, Error(BadWriteArguments))
          else if Utf8Length(content) > MAX_SFTP_WRITE then (w1, Error(WriteTooLarge))
          else
            match FindTab(w1.tabs, session)
            case None => (w1, Error(WriteNeedsConnection))
            case Some(tab) =>
              if !StrictlyConnected(tab) then (w1, Error(WriteNeedsConnection))
              else
                var w2 := w1.(effects := w1.effects + [WroteFile(session, path, content, request.id)], draws := w1.draws + 1);
                Resume(env, w2, pending, Wrote(session, path, env.succeeds(w1.draws)))
  }

  function GrantFor(mode: Mode, request: CommandRequest): seq<CommandRule> {
    match mode
    case Always => [CommandRule(request.toolID, "", request.command, Rules(Allow), "Approved by user: " + "always allow this exact command")]
    case Session => [CommandRule(request.toolID, request.sessionID, request.command, Rules(Allow), "Approved by user: " + "allow this exact command " + "for this session")]
    case _ => []
  }

  function PolicyAfterApproval(policy: Policy, i: nat, mode: Mode): Policy
    requires i < |policy.pending|
  {
    policy.(pending := Without(policy.pending, i), rules := NormalizedRules(policy.rules + GrantFor(mode, policy.pending[i])))
  }

  ghost function ApproveCommand(env: Environment, w: World, policy: Policy, i: nat, mode: Mode): (World, Reply)
    requires i < |policy.pending|
  {
    var request := policy.pending[i];
    if Decide(policy, request.toolID, request.sessionID, request.command) == Deny then
      var (w', saved) := Save(env, w, Note(w.ai.(policy := policy.(pending := Without(policy.pending, i))), DeniedNote(request)));
      (w', if saved then Done else Error(NotSaved))
    else
      var ai := w.ai.(policy := PolicyAfterApproval(policy, i, mode));
      if Holds(w.ai, request.id) then
        var (w1, saved) := Save(env, w, ai.(pendingCall := None));
        if !saved then (w1, Error(NotSaved))
        else
          var (w2, execution) := Execute(env, w1, request.sessionID, request.command, Approved(request.id));
          Resume(env, w2, w.ai.pendingCall.value, Ran(request.sessionID, request.command, execution))
      else
        var (w1, execution) := Execute(env, w, request.sessionID, request.command, Approved(request.id));
        var (w2, saved) := Save(env, w1, Note(ai, Report(request, execution)));
        (w2, if saved then Done else Error(ResultNotSaved))
  }

  function RejectedNote(request: CommandRequest): string {
    "Denied command request for `" + request.command + "`."
  }

  function DeniedNote(request: CommandRequest): string {
    "Command denied by Command Policy: `" + request.command + "`"
  }

  function Signed(i: int): string {
    if i < 0 then "-" + Decimal(-i) else Decimal(i)
  }

  function Report(request: CommandRequest, execution: Execution): string {
    if execution.error.Some? then "Command execution failed: " + execution.error.value
    else if !execution.result.success then
      "Command completed with exit code " + Signed(execution.result.exitCode) + " in session " + request.sessionID + ": `" + request.command + "`"
    else "Approved command in session " + request.sessionID + ": `" + request.command + "`"
  }

  // --------------------------------------------------- remaining operations

  function Clear(env: Environment, w: World): (World, Reply) {
    var ai := w.ai.(messages := [], chatSessionID := "chat-" + Decimal(w.clock), pendingCall := None,
                    policy := Normalized(w.ai.policy).(pending := []));
    var (w', saved) := Save(env, w.(clock := w.clock + 1), ai);
    (w', if saved then Done else Error(NotSaved))
  }

  function ReplacePolicy(env: Environment, w: World, policy: Policy): (World, Reply) {
    var (w', saved) := Save(env, w, w.ai.(policy := Normalized(policy)));
    (w', if saved then Done else Error(NotSaved))
  }

  /** Locking the secure storage: the live messages are emptied, approvals are dropped if that can be saved. */
  function LockStorage(env: Environment, w: World): World {
    var cleared := w.(ai := w.ai.(messages := []));
    var (w', _) := Save(env, cleared, cleared.ai.(pendingCall := None, policy := cleared.ai.policy.(pending := [])));
    w'.(ai := w'.ai.(messages := []))
  }

  datatype ServiceCall =
    | Send(message: string, sessionID: string)
    | AgentRun(sessionID: string, input: string)
    | Resolve(requestID: string, mode: Mode)
    | ClearChat
    | SetPolicy(policy: Policy)
    | Lock
    | ChangeTabs(tabs: seq<Tab>)

  ghost function Step(env: Environment, w: World, action: ServiceCall): (World, Reply) {
    match action
    case Send(message, sessionID) => SendChat(env, w, message, sessionID)
    case AgentRun(sessionID, input) => (RunAgent(env, w, sessionID, input).0, Done)
    case Resolve(requestID, mode) => ResolveRequest(env, w, requestID, mode)
    case ClearChat => Clear(env, w)
    case SetPolicy(policy) => ReplacePolicy(env, w, policy)
    case Lock => (LockStorage(env, w), Done)
    case ChangeTabs(tabs) => (w.(tabs := tabs), Done)
  }
}
