/**
 The command policy: which tools are enabled, which command rules apply, and
 the verdict (allow, ask, deny) they give a command an AI wants to run.
 Models internal/app/command_policy.go and the normalisation in
 internal/app/service_command_policy.go.
 */
module CommandPolicy {
  import opened Text

  const SHELL := "shell"

  datatype Decision = Allow | Ask | Deny

  /** A rule's action, read from its text with blanks trimmed and case folded. */
  datatype Action = Rules(decision: Decision) | Unrecognized(text: string)

  datatype CommandTool = CommandTool(id: string, name: string, description: string, enabled: bool)

  datatype CommandRule =
    CommandRule(toolID: string, sessionID: string, pattern: string, action: Action, description: string)

  datatype CommandRequest =
    CommandRequest(id: string, toolID: string, sessionID: string, command: string, reason: string, requestedAt: string)

  datatype Policy = Policy(
    tools: seq<CommandTool>,
    rules: seq<CommandRule>,
    pending: seq<CommandRequest>,
    localDocsPath: string)

  // ---------------------------------------------------------------- rules

  predicate Usable(rule: CommandRule) {
    Trim(rule.pattern) != "" && rule.action.Rules?
  }

  function CleanRule(rule: CommandRule): CommandRule {
    CommandRule(Key(rule.toolID), Trim(rule.sessionID), Trim(rule.pattern), rule.action, Trim(rule.description))
  }

  function NormalizedRules(rules: seq<CommandRule>): seq<CommandRule> {
    if rules == [] then []
    else
      var last := rules[|rules| - 1];
      NormalizedRules(rules[..|rules| - 1]) + (if Usable(last) then [CleanRule(last)] else [])
  }

  method NormalizeCommandRules(rules: seq<CommandRule>) returns (result: seq<CommandRule>)
    ensures result == NormalizedRules(rules)
  {
    result := [];
    for i := 0 to |rules|
      invariant result == NormalizedRules(rules[..i])
    {
      assert rules[..i + 1][..i] == rules[..i];
      var pattern := Trim(rules[i].pattern);
      if pattern == "" {
        continue;
      }
      var action := rules[i].action;
      if action.Unrecognized? {
        continue;
      }
      result := result + [CommandRule(Key(rules[i].toolID), Trim(rules[i].sessionID), pattern, action, Trim(rules[i].description))];
    }
    assert rules[..|rules|] == rules;
  }

  function MatchCommandPattern(pattern: string, command: string): bool {
    var p := Trim(pattern);
    var c := Trim(command);
    if p == "" || c == "" then false
    else if p == c then true
    else if !EndsWith(p, '*') then false
    else
      var prefix := p[..|p| - 1];
      if EndsWith(prefix, ' ') || EndsWith(prefix, '\t') then
        c == Trim(prefix) || prefix <= c
      else
        Trim(prefix) <= c
  }

  const UNSAFE_TOKENS := [";", "&&", "||", "|", ">", "<", "`", "$", "\\", "\n", "\r"]

  predicate ContainsUnsafeShellSyntax(command: string) {
    exists i :: 0 <= i < |UNSAFE_TOKENS| && Contains(command, UNSAFE_TOKENS[i])
  }

  function Specificity(rule: CommandRule): nat {
    (if rule.sessionID != "" then 4 else 0)
    + (if rule.toolID != "" then 1 else 0)
    + (if EndsWith(Trim(rule.pattern), '*') then 1 else 4)
  }

  predicate Applies(rule: CommandRule, toolID: string, sessionID: string, command: string) {
    && (rule.toolID == "" || rule.toolID == toolID)
    && (rule.sessionID == "" || rule.sessionID == sessionID)
    && MatchCommandPattern(rule.pattern, command)
  }

  // What the verdict of a rule list means, with no reference to list order.

  ghost predicate SomeRuleDenies(rules: seq<CommandRule>, t: string, s: string, c: string) {
    exists r :: r in rules && Applies(r, t, s, c) && r.action == Rules(Deny)
  }

  ghost predicate Strongest(rules: seq<CommandRule>, t: string, s: string, c: string, r: CommandRule) {
    && r in rules && Applies(r, t, s, c)
    && forall q :: q in rules && Applies(q, t, s, c) ==> Specificity(q) <= Specificity(r)
  }

  ghost predicate SomeRuleApplies(rules: seq<CommandRule>, t: string, s: string, c: string) {
    exists r :: r in rules && Applies(r, t, s, c)
  }

  ghost predicate StrongestAsks(rules: seq<CommandRule>, t: string, s: string, c: string) {
    exists r :: Strongest(rules, t, s, c, r) && r.action == Rules(Ask)
  }

  ghost function Verdict(rules: seq<CommandRule>, t: string, s: string, c: string): Decision {
    if SomeRuleDenies(rules, t, s, c) then Deny
    else if !SomeRuleApplies(rules, t, s, c) || StrongestAsks(rules, t, s, c) then Ask
    else Allow
  }

  predicate GuardsHold(policy: Policy, t: string, c: string) {
    t != "" && c != "" && ToolEnabled(policy.tools, t) && !(t == SHELL && ContainsUnsafeShellSyntax(c))
  }

  ghost function Decide(policy: Policy, toolID: string, sessionID: string, command: string): Decision {
    var t, s, c := Key(toolID), Trim(sessionID), Trim(command);
    if !GuardsHold(policy, t, c) then Deny else Verdict(NormalizedRules(policy.rules), t, s, c)
  }

  /** The reason comes from `rules[i]`: the first rule that denies, otherwise the last of the strongest rules that carry the decision. */
  ghost predicate Explains(rules: seq<CommandRule>, i: nat, t: string, s: string, c: string, d: Decision) {
    && i < |rules| && Applies(rules[i], t, s, c)
    && match d
       case Deny => rules[i].action == Rules(Deny) && forall j :: 0 <= j < i && Applies(rules[j], t, s, c) ==> rules[j].action != Rules(Deny)
       case Ask => Strongest(rules, t, s, c, rules[i]) && rules[i].action == Rules(Ask)
                   && forall j :: i < j < |rules| && Strongest(rules, t, s, c, rules[j]) ==> rules[j].action != Rules(Ask)
       case Allow => Strongest(rules, t, s, c, rules[i]) && rules[i].action == Rules(Allow)
                     && forall j :: i < j < |rules| ==> !Strongest(rules, t, s, c, rules[j])
  }

  // ---------------------------------------------------------------- tools

  function DefaultTools(): seq<CommandTool> {
    [CommandTool("shell", "Shell command", "Run command in active SSH session", true),
     CommandTool("sftp", "SFTP operations", "Browse and edit files over SFTP", true),
     CommandTool("search", "Search", "Run grep/find-like queries on host", true)]
  }

  function CleanTool(tool: CommandTool): CommandTool {
    var id := Key(tool.id);
    var name := Trim(tool.name);
    CommandTool(id, if name == "" then id else name, Trim(tool.description), tool.enabled)
  }

  /** The last entry with the given (normalised) identifier. */
  function LastEntry(tools: seq<CommandTool>, id: string): (r: Option<CommandTool>)
    ensures r.Some? ==> r.value in tools && Key(r.value.id) == id
  {
    if tools == [] then None
    else if Key(tools[|tools| - 1].id) == id then Some(tools[|tools| - 1])
    else LastEntry(tools[..|tools| - 1], id)
  }

  /** Identifiers in first-seen order. */
  function Order(tools: seq<CommandTool>): seq<string> {
    if tools == [] then []
    else
      var id := Key(tools[|tools| - 1].id);
      var o := Order(tools[..|tools| - 1]);
      if id == "" || id in o then o else o + [id]
  }

  lemma {:induction false} OrderFacts(tools: seq<CommandTool>)
    ensures forall i, j :: 0 <= i < j < |Order(tools)| ==> Order(tools)[i] != Order(tools)[j]
    ensures forall id :: id in Order(tools) <==> id != "" && LastEntry(tools, id).Some?
  {
    hide Key;
    if tools != [] {
      OrderFacts(tools[..|tools| - 1]);
    }
  }

  /** The last entries of some identifiers, cleaned. */
  function Entries(tools: seq<CommandTool>, ids: seq<string>): (r: seq<CommandTool>)
    ensures |r| == |ids|
  {
    if ids == [] then []
    else
      Entries(tools, ids[..|ids| - 1]) +
      [match LastEntry(tools, ids[|ids| - 1])
       case Some(tool) => CleanTool(tool)
       case None => CommandTool("", "", "", false)]
  }

  /** One entry for each identifier, in first-seen order, with the contents of its last entry. */
  function Canonical(tools: seq<CommandTool>): seq<CommandTool> {
    Entries(tools, Order(tools))
  }

  lemma {:induction false} EntriesAt(tools: seq<CommandTool>, ids: seq<string>, i: nat)
    requires i < |ids| && LastEntry(tools, ids[i]).Some?
    ensures Entries(tools, ids)[i] == CleanTool(LastEntry(tools, ids[i]).value)
  {
    hide LastEntry, CleanTool;
    if i < |ids| - 1 {
      EntriesAt(tools, ids[..|ids| - 1], i);
    }
  }

  lemma CanonicalFacts(tools: seq<CommandTool>)
    ensures |Canonical(tools)| == |Order(tools)|
    ensures forall i :: 0 <= i < |Canonical(tools)| ==>
              LastEntry(tools, Order(tools)[i]).Some? && Canonical(tools)[i] == CleanTool(LastEntry(tools, Order(tools)[i]).value)
  {
    OrderFacts(tools);
    hide LastEntry, CleanTool, Order, Entries;
    forall i | 0 <= i < |Order(tools)|
      ensures LastEntry(tools, Order(tools)[i]).Some? && Entries(tools, Order(tools))[i] == CleanTool(LastEntry(tools, Order(tools)[i]).value)
    {
      assert Order(tools)[i] in Order(tools);
      EntriesAt(tools, Order(tools), i);
    }
  }

  lemma CanonicalAt(tools: seq<CommandTool>, i: nat)
    requires i < |Order(tools)|
    ensures |Canonical(tools)| == |Order(tools)| && Canonical(tools)[i].id == Order(tools)[i]
    ensures LastEntry(tools, Order(tools)[i]).Some?
    ensures Canonical(tools)[i].enabled == LastEntry(tools, Order(tools)[i]).value.enabled
  {
    hide Key, Trim, LastEntry, Order, Canonical;
    CanonicalFacts(tools);
  }

  /** The policy's own entries override the defaults. */
  function NormalizedTools(tools: seq<CommandTool>): seq<CommandTool> {
    Canonical(DefaultTools() + tools)
  }

  /** The tools that are enabled as long as a policy does not mention them. */
  predicate DefaultEnabled(id: string) {
    id == SHELL || id == "sftp" || id == "search"
  }

  /** The last entry with the identifier decides, else the default, else the tool does not exist. */
  predicate ToolEnabled(tools: seq<CommandTool>, toolID: string) {
    var id := Key(toolID);
    id != "" && match LastEntry(tools, id)
                case Some(tool) => tool.enabled
                case None => DefaultEnabled(id)
  }

  lemma {:induction false} LastEntryOfSum(a: seq<CommandTool>, b: seq<CommandTool>, id: string)
    ensures LastEntry(a + b, id) == if LastEntry(b, id).Some? then LastEntry(b, id) else LastEntry(a, id)
  {
    hide Key;
    if b == [] {
      assert a + b == a;
    } else {
      var n := |b| - 1;
      LastEntryOfSum(a, b[..n], id);
      assert (a + b)[..|a + b| - 1] == a + b[..n];
    }
  }

  lemma DefaultEntry(id: string)
    ensures LastEntry(DefaultTools(), id).Some? == DefaultEnabled(id)
    ensures LastEntry(DefaultTools(), id).Some? ==> LastEntry(DefaultTools(), id).value.enabled
  {
    var d := DefaultTools();
    KeyOfClean(d[0].id);
    KeyOfClean(d[1].id);
    KeyOfClean(d[2].id);
    hide Key, Trim;
    assert d == [d[0], d[1], d[2]] && d[..2] == [d[0], d[1]] && d[..2][..1] == [d[0]] && d[..2][..1][..0] == [];
  }

  /** The same, read off the defaults overlaid by the policy's own entries. */
  lemma ToolEnabledByOverlay(tools: seq<CommandTool>, toolID: string)
    ensures var id := Key(toolID);
            ToolEnabled(tools, toolID) <==>
              id != "" && LastEntry(DefaultTools() + tools, id).Some? && LastEntry(DefaultTools() + tools, id).value.enabled
  {
    hide Key, LastEntry, DefaultTools, DefaultEnabled;
    LastEntryOfSum(DefaultTools(), tools, Key(toolID));
    DefaultEntry(Key(toolID));
  }

  // ------------------------------------------------------------- requests

  predicate UsableRequest(request: CommandRequest) {
    Trim(request.command) != "" && Key(request.toolID) != ""
  }

  function CleanRequest(request: CommandRequest): CommandRequest {
    CommandRequest(Trim(request.id), Key(request.toolID), Trim(request.sessionID), Trim(request.command),
                   Trim(request.reason), Trim(request.requestedAt))
  }

  function NormalizedRequests(requests: seq<CommandRequest>): seq<CommandRequest> {
    if requests == [] then []
    else
      var last := requests[|requests| - 1];
      NormalizedRequests(requests[..|requests| - 1]) + (if UsableRequest(last) then [CleanRequest(last)] else [])
  }

  function Normalized(policy: Policy): Policy {
    Policy(NormalizedTools(policy.tools), policy.rules, NormalizedRequests(policy.pending), Trim(policy.localDocsPath))
  }

  lemma EmptyIndex()
    ensures Order([]) == [] && Indexed(map[], [])
  {
  }

  lemma CleanAt(defaults: seq<CommandTool>, i: nat)
    requires CleanEntries(defaults) && i < |defaults|
    ensures Key(defaults[i].id) == defaults[i].id != "" && CleanTool(defaults[i]) == defaults[i]
    ensures forall j :: 0 <= j < i ==> defaults[j].id != defaults[i].id
  {
    hide Key, Trim;
  }

  method IndexDefaults(defaults: seq<CommandTool>) returns (toolByID: map<string, CommandTool>, order: seq<string>)
    requires CleanEntries(defaults)
    ensures order == Order(defaults) && Indexed(toolByID, defaults)
  {
    hide Indexed, Key, Trim, LastEntry, Order, Canonical, CleanTool, CleanEntries;
    EmptyIndex();
    assert defaults[..0] == [];
    toolByID, order := map[], [];
    for i := 0 to |defaults|
      invariant order == Order(defaults[..i])
      invariant Indexed(toolByID, defaults[..i])
      invariant forall id :: id in toolByID ==> id in order
      invariant |order| == i && forall j :: 0 <= j < i ==> order[j] == defaults[j].id
    {
      Extend(toolByID, defaults, i);
      CleanAt(defaults, i);
      toolByID := toolByID[defaults[i].id := defaults[i]];
      order := order + [defaults[i].id];
    }
    assert defaults[..|defaults|] == defaults;
  }

  method OverlayTools(toolByID: map<string, CommandTool>, order: seq<string>, defaults: seq<CommandTool>, tools: seq<CommandTool>)
    returns (toolByID': map<string, CommandTool>, order': seq<string>)
    requires order == Order(defaults) && Indexed(toolByID, defaults)
    ensures order' == Order(defaults + tools) && Indexed(toolByID', defaults + tools)
  {
    hide Indexed, Key, Trim, LastEntry, Order, Canonical;
    toolByID', order' := toolByID, order;
    ghost var all := defaults + tools;
    assert all[..|defaults|] == defaults;
    for i := 0 to |tools|
      invariant order' == Order(all[..|defaults| + i])
      invariant Indexed(toolByID', all[..|defaults| + i])
    {
      var id := Key(tools[i].id);
      Extend(toolByID', all, |defaults| + i);
      if id == "" {
        continue;
      }
      var clean := CommandTool(id, Trim(tools[i].name), Trim(tools[i].description), tools[i].enabled);
      if clean.name == "" {
        clean := clean.(name := id);
      }
      if id !in toolByID' {
        order' := order' + [id];
      }
      toolByID' := toolByID'[id := clean];
    }
    assert all[..|all|] == all;
  }

  method NormalizeTools(tools: seq<CommandTool>) returns (normalizedTools: seq<CommandTool>)
    ensures normalizedTools == NormalizedTools(tools)
  {
    hide DefaultTools, Indexed, Key, Trim, LastEntry, Order, Canonical, CleanTool, CleanEntries;
    DefaultsAreClean();
    var toolByID, order := IndexDefaults(DefaultTools());
    toolByID, order := OverlayTools(toolByID, order, DefaultTools(), tools);
    ghost var all := DefaultTools() + tools;
    CanonicalFacts(all);
    normalizedTools := [];
    for i := 0 to |order|
      invariant normalizedTools == Canonical(all)[..i]
    {
      IndexedAt(toolByID, all, i);
      normalizedTools := normalizedTools + [toolByID[order[i]]];
    }
  }

  ghost predicate Indexed(m: map<string, CommandTool>, tools: seq<CommandTool>) {
    && (forall id :: id in m <==> id in Order(tools))
    && (forall id :: id in m ==> LastEntry(tools, id).Some? && m[id] == CleanTool(LastEntry(tools, id).value))
  }

  lemma LastEntryExtends(tools: seq<CommandTool>, i: nat, id: string)
    requires i < |tools|
    ensures LastEntry(tools[..i + 1], id) == if Key(tools[i].id) == id then Some(tools[i]) else LastEntry(tools[..i], id)
  {
    hide Key;
    assert tools[..i + 1][..i] == tools[..i];
  }

  lemma OrderSnoc(tools: seq<CommandTool>, tool: CommandTool)
    ensures Order(tools + [tool]) ==
            Order(tools) + (if Key(tool.id) == "" || Key(tool.id) in Order(tools) then [] else [Key(tool.id)])
  {
    hide Key, LastEntry;
    assert (tools + [tool])[..|tools|] == tools;
  }

  /** One more entry: what it does to the identifier order and to the index. */
  lemma Extend(m: map<string, CommandTool>, tools: seq<CommandTool>, i: nat)
    requires i < |tools| && Indexed(m, tools[..i])
    ensures Key(tools[i].id) == "" ==> Order(tools[..i + 1]) == Order(tools[..i]) && Indexed(m, tools[..i + 1])
    ensures Key(tools[i].id) != "" ==>
              && Order(tools[..i + 1]) == Order(tools[..i]) + (if Key(tools[i].id) in m then [] else [Key(tools[i].id)])
              && Indexed(m[Key(tools[i].id) := CleanTool(tools[i])], tools[..i + 1])
  {
    hide Key, Order, LastEntry, CleanTool;
    OrderSnoc(tools[..i], tools[i]);
    assert tools[..i] + [tools[i]] == tools[..i + 1];
    var id := Key(tools[i].id);
    forall other | other in m || other == id ensures LastEntry(tools[..i + 1], other) == if other == id then Some(tools[i]) else LastEntry(tools[..i], other) {
      LastEntryExtends(tools, i, other);
    }
    OrderIsNotBlank(tools[..i]);
  }

  lemma OrderIsNotBlank(tools: seq<CommandTool>)
    ensures "" !in Order(tools)
  {
    OrderFacts(tools);
    hide Key, LastEntry, Order;
  }

  lemma IndexedAt(m: map<string, CommandTool>, tools: seq<CommandTool>, i: nat)
    requires Indexed(m, tools) && i < |Order(tools)|
    ensures Order(tools)[i] in m && m[Order(tools)[i]] == Canonical(tools)[i]
  {
    hide Key, Order, LastEntry, Canonical, CleanTool;
    CanonicalFacts(tools);
    assert Order(tools)[i] in Order(tools);
  }

  predicate CleanEntries(tools: seq<CommandTool>) {
    && (forall i :: 0 <= i < |tools| ==> tools[i].id != "" && CleanTool(tools[i]) == tools[i])
    && (forall i, j :: 0 <= i < j < |tools| ==> tools[i].id != tools[j].id)
  }

  lemma DefaultIsClean(i: nat)
    requires i < |DefaultTools()|
    ensures DefaultTools()[i].id != "" && CleanTool(DefaultTools()[i]) == DefaultTools()[i]
  {
    var tool := DefaultTools()[i];
    assert forall k :: 0 <= k < |tool.id| ==> !('A' <= tool.id[k] <= 'Z');
    hide Key, Trim;
    KeyOfClean(tool.id);
    TrimOfTrimmed(tool.name);
    TrimOfTrimmed(tool.description);
  }

  lemma DefaultsAreClean()
    ensures CleanEntries(DefaultTools())
  {
    hide Key, Trim, CleanTool;
    forall i | 0 <= i < |DefaultTools()|
      ensures DefaultTools()[i].id != "" && CleanTool(DefaultTools()[i]) == DefaultTools()[i]
    {
      DefaultIsClean(i);
    }
  }

  method NormalizeCommandPolicy(policy: Policy) returns (result: Policy)
    ensures result == Normalized(policy)
  {
    var normalizedTools := NormalizeTools(policy.tools);
    var filteredRequests := [];
    for i := 0 to |policy.pending|
      invariant filteredRequests == NormalizedRequests(policy.pending[..i])
    {
      assert policy.pending[..i + 1][..i] == policy.pending[..i];
      var request := policy.pending[i];
      var command, toolID := Trim(request.command), Key(request.toolID);
      if command == "" || toolID == "" {
        continue;
      }
      filteredRequests := filteredRequests +
        [CommandRequest(Trim(request.id), toolID, Trim(request.sessionID), command, Trim(request.reason), Trim(request.requestedAt))];
    }
    assert policy.pending[..|policy.pending|] == policy.pending;
    result := Policy(normalizedTools, policy.rules, filteredRequests, Trim(policy.localDocsPath));
  }

  method CommandToolEnabled(policy: Policy, toolID: string) returns (enabled: bool)
    ensures enabled == ToolEnabled(policy.tools, toolID)
  {
    hide DefaultTools, Key, Canonical, NormalizedRequests, LastEntry, Order, CleanTool, ToolEnabled;
    ToolEnabledByOverlay(policy.tools, toolID);
    var id := Key(toolID);
    if id == "" {
      return false;
    }
    var normalized := NormalizeCommandPolicy(policy);
    ghost var all := DefaultTools() + policy.tools;
    CanonicalFacts(all);
    OrderFacts(all);
    for i := 0 to |normalized.tools|
      invariant id !in Order(all)[..i]
    {
      CanonicalAt(all, i);
      if normalized.tools[i].id == id {
        return normalized.tools[i].enabled;
      }
    }
    assert Order(all)[..|Order(all)|] == Order(all);
    return false;
  }

  ghost predicate SomeRuleDecided(policy: Policy, toolID: string, sessionID: string, command: string) {
    && GuardsHold(policy, Key(toolID), Trim(command))
    && SomeRuleApplies(NormalizedRules(policy.rules), Key(toolID), Trim(sessionID), Trim(command))
  }

  method EvaluateCommandPolicy(policy: Policy, toolID: string, sessionID: string, command: string)
    returns (decision: Decision, reason: string, ghost at: Option<nat>)
    ensures decision == Decide(policy, toolID, sessionID, command)
    ensures at.Some? <==> SomeRuleDecided(policy, toolID, sessionID, command)
    ensures at.Some? ==> Explains(NormalizedRules(policy.rules), at.value, Key(toolID), Trim(sessionID), Trim(command), decision)
                         && reason == NormalizedRules(policy.rules)[at.value].description
  {
    hide Key, Trim, MatchCommandPattern, ContainsUnsafeShellSyntax, NormalizedRules, ToolEnabled, Specificity;
    at := None;
    var t, s, c := Key(toolID), Trim(sessionID), Trim(command);
    if t == "" || c == "" {
      return Deny, "tool and command are required", None;
    }
    var enabled := CommandToolEnabled(policy, t);
    if !enabled {
      return Deny, "tool is disabled", None;
    }
    if t == SHELL && ContainsUnsafeShellSyntax(c) {
      return Deny, "shell operators, expansion and command substitution are not permitted by Command Policy", None;
    }
    var rules := NormalizeCommandRules(policy.rules);
    var bestSpecificity: int := -1;
    decision, reason := Ask, "no command rule matched";
    for i := 0 to |rules|
      invariant forall j :: 0 <= j < i && Applies(rules[j], t, s, c) ==> rules[j].action != Rules(Deny) && Specificity(rules[j]) <= bestSpecificity
      invariant bestSpecificity < 0 ==> decision == Ask && at == None
      invariant bestSpecificity >= 0 ==>
                  && at.Some? && at.value < i && Applies(rules[at.value], t, s, c)
                  && Specificity(rules[at.value]) == bestSpecificity && reason == rules[at.value].description
                  && rules[at.value].action == Rules(decision)
      invariant decision == Allow ==> forall j :: 0 <= j < i && Applies(rules[j], t, s, c) && Specificity(rules[j]) == bestSpecificity ==> rules[j].action == Rules(Allow) && j <= at.value
      invariant decision == Ask && at.Some? ==> forall j :: at.value < j < i && Applies(rules[j], t, s, c) && Specificity(rules[j]) == bestSpecificity ==> rules[j].action != Rules(Ask)
    {
      var rule := rules[i];
      NormalizedActions(policy.rules, i);
      if !Applies(rule, t, s, c) {
        continue;
      }
      if rule.action == Rules(Deny) {
        assert SomeRuleDenies(rules, t, s, c) && Explains(rules, i, t, s, c, Deny);
        return Deny, rule.description, Some(i);
      }
      var specificity := Specificity(rule);
      if specificity < bestSpecificity {
        continue;
      }
      if specificity == bestSpecificity && bestSpecificity >= 0 && decision == Ask && rule.action == Rules(Allow) {
        continue;
      }
      bestSpecificity := specificity;
      decision := rule.action.decision;
      reason, at := rule.description, Some(i);
    }
    if at.Some? {
      assert Strongest(rules, t, s, c, rules[at.value]) && Explains(rules, at.value, t, s, c, decision);
    }
  }

  lemma NormalizedActions(rules: seq<CommandRule>, i: nat)
    requires i < |NormalizedRules(rules)|
    ensures NormalizedRules(rules)[i].action.Rules?
  {
  }
}
