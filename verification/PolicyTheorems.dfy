/**
 What the command policy promises as a whole: the verdict does not depend on
 rule order, a deny is final, a grant changes exactly the command it names,
 and normalising a policy changes no decision.
 */
module PolicyTheorems {
  import opened Text
  import opened CommandPolicy

  // ------------------------------------------------------ normalised rules

  lemma {:induction false} NormalizedRulesMember(rules: seq<CommandRule>, r: CommandRule)
    ensures r in NormalizedRules(rules) <==> exists q :: q in rules && Usable(q) && CleanRule(q) == r
  {
    hide Usable, CleanRule;
    if rules != [] {
      var n := |rules| - 1;
      NormalizedRulesMember(rules[..n], r);
      assert rules == rules[..n] + [rules[n]];
      assert NormalizedRules(rules) == NormalizedRules(rules[..n]) + (if Usable(rules[n]) then [CleanRule(rules[n])] else []);
    }
  }

  lemma {:induction false} NormalizedRulesAppend(a: seq<CommandRule>, b: seq<CommandRule>)
    ensures NormalizedRules(a + b) == NormalizedRules(a) + NormalizedRules(b)
  {
    hide Usable, CleanRule;
    if b == [] {
      assert a + b == a;
    } else {
      var n := |b| - 1;
      NormalizedRulesAppend(a, b[..n]);
      assert (a + b)[..|a + b| - 1] == a + b[..n];
    }
  }

  lemma CleanRuleIsClean(rule: CommandRule)
    requires Usable(rule)
    ensures Usable(CleanRule(rule)) && CleanRule(CleanRule(rule)) == CleanRule(rule)
  {
    hide Key, Trim;
    KeyIdempotent(rule.toolID);
    TrimIdempotent(rule.sessionID);
    TrimIdempotent(rule.pattern);
    TrimIdempotent(rule.description);
  }

  lemma {:induction false} NormalizedRulesIdempotent(rules: seq<CommandRule>)
    ensures NormalizedRules(NormalizedRules(rules)) == NormalizedRules(rules)
  {
    hide Usable, CleanRule;
    if rules != [] {
      var n := |rules| - 1;
      NormalizedRulesIdempotent(rules[..n]);
      var tail := if Usable(rules[n]) then [CleanRule(rules[n])] else [];
      if Usable(rules[n]) {
        CleanRuleIsClean(rules[n]);
        assert tail[..0] == [];
      }
      assert NormalizedRules(tail) == tail;
      NormalizedRulesAppend(NormalizedRules(rules[..n]), tail);
    }
  }

  // --------------------------------------------------- order is irrelevant

  ghost predicate SameRules(a: seq<CommandRule>, b: seq<CommandRule>) {
    forall r :: r in a <==> r in b
  }

  lemma VerdictOfSameRules(a: seq<CommandRule>, b: seq<CommandRule>, t: string, s: string, c: string)
    requires SameRules(a, b)
    ensures Verdict(a, t, s, c) == Verdict(b, t, s, c)
  {
    hide Applies, Specificity;
    assert forall r :: Strongest(a, t, s, c, r) <==> Strongest(b, t, s, c, r);
  }

  lemma GuardsIgnoreRules(policy: Policy, rules: seq<CommandRule>, t: string, c: string)
    ensures GuardsHold(policy.(rules := rules), t, c) == GuardsHold(policy, t, c)
  {
    hide ToolEnabled, ContainsUnsafeShellSyntax;
  }

  /** The case of a tool's identifier does not matter. */
  lemma DecisionIgnoresCase(policy: Policy, toolID: string, other: string, sessionID: string, command: string)
    requires AlikeButCase(toolID, other)
    ensures Decide(policy, toolID, sessionID, command) == Decide(policy, other, sessionID, command)
  {
    hide Key, Verdict, GuardsHold, Trim, NormalizedRules;
    KeyIgnoresCase(toolID, other);
  }

  /** Reordering the rules, or repeating some of them, changes no decision. */
  lemma DecisionIgnoresOrder(policy: Policy, rules: seq<CommandRule>, toolID: string, sessionID: string, command: string)
    requires SameRules(policy.rules, rules)
    ensures Decide(policy.(rules := rules), toolID, sessionID, command) == Decide(policy, toolID, sessionID, command)
  {
    hide Usable, CleanRule, Verdict, GuardsHold, Key, Trim, NormalizedRules;
    GuardsIgnoreRules(policy, rules, Key(toolID), Trim(command));
    var a, b := NormalizedRules(policy.rules), NormalizedRules(rules);
    forall r ensures r in a <==> r in b {
      NormalizedRulesMember(policy.rules, r);
      NormalizedRulesMember(rules, r);
    }
    VerdictOfSameRules(a, b, Key(toolID), Trim(sessionID), Trim(command));
  }

  // ---------------------------------------------------------- deny is final

  /** Adding rules that do not deny neither overturns a denial nor creates one; adding any rules never overturns one. */
  lemma DenyIsAbsorbing(policy: Policy, more: seq<CommandRule>, toolID: string, sessionID: string, command: string)
    ensures Decide(policy, toolID, sessionID, command) == Deny ==> Decide(policy.(rules := policy.rules + more), toolID, sessionID, command) == Deny
    ensures (forall r :: r in more ==> r.action != Rules(Deny)) ==>
              (Decide(policy.(rules := policy.rules + more), toolID, sessionID, command) == Deny <==> Decide(policy, toolID, sessionID, command) == Deny)
  {
    hide Usable, Applies, GuardsHold, Key, Trim, NormalizedRules;
    var t, s, c := Key(toolID), Trim(sessionID), Trim(command);
    GuardsIgnoreRules(policy, policy.rules + more, t, c);
    NormalizedRulesAppend(policy.rules, more);
    var a, b := NormalizedRules(policy.rules), NormalizedRules(more);
    if SomeRuleDenies(a, t, s, c) {
      var r :| r in a && Applies(r, t, s, c) && r.action == Rules(Deny);
      assert r in a + b;
    }
    if (forall r :: r in more ==> r.action != Rules(Deny)) && SomeRuleDenies(a + b, t, s, c) {
      var r :| r in a + b && Applies(r, t, s, c) && r.action == Rules(Deny);
      NormalizedRulesMember(more, r);
      assert r in a;
    }
  }

  // --------------------------------------------------------- user approvals

  /** An approval appends an allow rule for one tool and command, scoped to a session or (empty session) to all. */
  predicate IsGrant(g: CommandRule) {
    Usable(g) && CleanRule(g) == g && g.action == Rules(Allow) && g.toolID != ""
  }

  function Granted(policy: Policy, g: CommandRule): Policy {
    policy.(rules := NormalizedRules(policy.rules + [g]))
  }

  lemma GrantedRules(policy: Policy, g: CommandRule)
    requires IsGrant(g)
    ensures NormalizedRules(Granted(policy, g).rules) == NormalizedRules(policy.rules) + [g]
  {
    hide Usable, CleanRule, NormalizedRules;
    NormalizedRulesIdempotent(policy.rules + [g]);
    NormalizedRulesAppend(policy.rules, [g]);
    NormalizedRulesOne(g);
  }

  lemma NormalizedRulesOne(g: CommandRule)
    requires Usable(g) && CleanRule(g) == g
    ensures NormalizedRules([g]) == [g]
  {
    hide Usable, CleanRule;
    assert [g][..0] == [];
  }

  /** The triples a grant is meant to cover. */
  predicate Covers(g: CommandRule, t: string, s: string, c: string) {
    t == g.toolID && (g.sessionID == "" || s == g.sessionID) && c == g.pattern
  }

  lemma LiteralPatternMatchesItself(command: string, c: string)
    requires Trimmed(command) && command != "" && !EndsWith(command, '*') && Trimmed(c)
    ensures MatchCommandPattern(command, c) <==> c == command
  {
    hide Trim;
    TrimOfTrimmed(command);
    TrimOfTrimmed(c);
  }

  /** Approving a command without a trailing star changes no decision about any other tool, session or command. */
  lemma GrantChangesNothingElse(policy: Policy, g: CommandRule, toolID: string, sessionID: string, command: string)
    requires IsGrant(g) && !EndsWith(g.pattern, '*')
    requires !Covers(g, Key(toolID), Trim(sessionID), Trim(command))
    ensures Decide(Granted(policy, g), toolID, sessionID, command) == Decide(policy, toolID, sessionID, command)
  {
    GrantPatternIsClean(g);
    hide Key, Trim, GuardsHold, NormalizedRules, MatchCommandPattern, Specificity, CleanRule, Usable;
    var t, s, c := Key(toolID), Trim(sessionID), Trim(command);
    GrantedRules(policy, g);
    GuardsIgnoreRules(policy, Granted(policy, g).rules, t, c);
    TrimIsTrimmed(command);
    LiteralPatternMatchesItself(g.pattern, c);
    VerdictWithIdleRule(NormalizedRules(policy.rules), g, t, s, c);
  }

  lemma GrantPatternIsClean(g: CommandRule)
    requires IsGrant(g)
    ensures Trimmed(g.pattern) && g.pattern != ""
  {
    hide Key, Trim;
    TrimIsTrimmed(g.pattern);
  }

  lemma VerdictWithIdleRule(a: seq<CommandRule>, g: CommandRule, t: string, s: string, c: string)
    requires !Applies(g, t, s, c)
    ensures Verdict(a + [g], t, s, c) == Verdict(a, t, s, c)
  {
    hide Applies, Specificity;
    assert forall r :: r in a + [g] <==> r in a || r == g;
    assert forall r :: Strongest(a + [g], t, s, c, r) <==> Strongest(a, t, s, c, r);
  }

  lemma VerdictWithAllowRule(a: seq<CommandRule>, g: CommandRule, t: string, s: string, c: string)
    requires Applies(g, t, s, c) && g.action == Rules(Allow)
    ensures Verdict(a + [g], t, s, c) == Allow <==>
              !SomeRuleDenies(a, t, s, c) && !(exists q :: Strongest(a, t, s, c, q) && q.action == Rules(Ask) && Specificity(q) >= Specificity(g))
  {
    hide Applies, Specificity;
    assert g in a + [g];
    assert forall r :: r in a + [g] <==> r in a || r == g;
    assert SomeRuleDenies(a + [g], t, s, c) <==> SomeRuleDenies(a, t, s, c);
    forall q: CommandRule | q.action == Rules(Ask)
      ensures Strongest(a + [g], t, s, c, q) <==> Strongest(a, t, s, c, q) && Specificity(q) >= Specificity(g)
    {
    }
  }

  /** On the command it names, an approval yields Allow unless a guard fails, a rule denies, or a strongest rule at least as specific asks. */
  lemma GrantAllowsItsOwnCommand(policy: Policy, g: CommandRule, toolID: string, sessionID: string, command: string)
    requires IsGrant(g) && Covers(g, Key(toolID), Trim(sessionID), Trim(command))
    ensures Decide(Granted(policy, g), toolID, sessionID, command) == Allow <==>
              && GuardsHold(policy, Key(toolID), Trim(command))
              && !SomeRuleDenies(NormalizedRules(policy.rules), Key(toolID), Trim(sessionID), Trim(command))
              && !(exists q :: Strongest(NormalizedRules(policy.rules), Key(toolID), Trim(sessionID), Trim(command), q)
                               && q.action == Rules(Ask) && Specificity(q) >= Specificity(g))
  {
    GrantPatternIsClean(g);
    hide Key, Trim, GuardsHold, NormalizedRules, Specificity, SomeRuleDenies, CleanRule, Usable;
    GrantedRules(policy, g);
    GuardsIgnoreRules(policy, Granted(policy, g).rules, Key(toolID), Trim(command));
    TrimOfTrimmed(g.pattern);
    VerdictWithAllowRule(NormalizedRules(policy.rules), g, Key(toolID), Trim(sessionID), Trim(command));
  }

  /** No rule is more specific than a session approval of a command without a trailing star. */
  lemma SessionGrantIsStrongest(g: CommandRule, q: CommandRule)
    requires IsGrant(g) && g.sessionID != "" && !EndsWith(g.pattern, '*')
    ensures Specificity(q) <= Specificity(g)
  {
    GrantPatternIsClean(g);
    TrimOfTrimmed(g.pattern);
    hide Trim;
  }

  // ------------------------------------------------------- what patterns match

  /** `base*` matches exactly the commands that start with the base. */
  lemma StarPattern(base: string, c: string)
    requires Trimmed(base) && Trimmed(c) && c != ""
    ensures MatchCommandPattern(base + "*", c) <==> base <= c
  {
    hide Trim;
    var p := base + "*";
    assert p[|p| - 1] == '*' && p[..|p| - 1] == base && p[0] == if base == "" then '*' else base[0];
    assert !IsSpace('*') && (base != "" ==> !IsSpace(base[0]));
    TrimOfTrimmed(p);
    TrimOfTrimmed(base);
    TrimOfTrimmed(c);
    assert base != "" ==> !IsSpace(base[|base| - 1]);
  }

  /** `base *`, with any blanks that end in a space or a tab, matches exactly the base and the commands that start with both. */
  lemma SpacedStarPattern(base: string, blanks: string, c: string)
    requires Trimmed(base) && base != "" && Trimmed(c) && c != ""
    requires AllSpace(blanks) && (EndsWith(blanks, ' ') || EndsWith(blanks, '\t'))
    ensures MatchCommandPattern(base + blanks + "*", c) <==> c == base || base + blanks <= c
  {
    hide Trim, AllSpace;
    var p := base + blanks + "*";
    assert p[|p| - 1] == '*' && p[..|p| - 1] == base + blanks && p[0] == base[0];
    assert (base + blanks)[|base + blanks| - 1] == blanks[|blanks| - 1];
    TrimOfTrimmed(p);
    TrimOfSum(base, blanks);
    TrimOfTrimmed(c);
  }

  predicate InScope(rule: CommandRule, toolID: string, sessionID: string) {
    && (Key(rule.toolID) == "" || Key(rule.toolID) == Key(toolID))
    && (Trim(rule.sessionID) == "" || Trim(rule.sessionID) == Trim(sessionID))
  }

  lemma CleanRuleApplies(rule: CommandRule, toolID: string, sessionID: string, command: string)
    ensures Applies(CleanRule(rule), Key(toolID), Trim(sessionID), Trim(command))
            <==> InScope(rule, toolID, sessionID) && MatchCommandPattern(Trim(rule.pattern), Trim(command))
  {
    hide Key, Trim;
  }

  /** A policy with one rule gives its action to the commands in its scope that it matches, and asks about all others. */
  lemma OneRuleDecides(policy: Policy, rule: CommandRule, toolID: string, sessionID: string, command: string)
    requires policy.rules == [rule] && Usable(rule) && GuardsHold(policy, Key(toolID), Trim(command))
    ensures Decide(policy, toolID, sessionID, command) ==
            if InScope(rule, toolID, sessionID) && MatchCommandPattern(Trim(rule.pattern), Trim(command)) then rule.action.decision else Ask
  {
    hide Key, Trim, GuardsHold, MatchCommandPattern, Specificity, InScope, Usable, Applies;
    CleanRuleApplies(rule, toolID, sessionID, command);
    assert [rule][..0] == [];
    assert NormalizedRules(policy.rules) == [CleanRule(rule)];
    UsableRules(rule);
    OneRuleVerdict(CleanRule(rule), Key(toolID), Trim(sessionID), Trim(command));
  }

  lemma UsableRules(rule: CommandRule)
    requires Usable(rule)
    ensures rule.action.Rules? && CleanRule(rule).action == rule.action
  {
  }

  lemma OneRuleVerdict(rule: CommandRule, t: string, s: string, c: string)
    requires rule.action.Rules?
    ensures Verdict([rule], t, s, c) == if Applies(rule, t, s, c) then rule.action.decision else Ask
  {
    hide Applies, Specificity;
    assert forall r :: r in [rule] <==> r == rule;
    if Applies(rule, t, s, c) {
      assert Strongest([rule], t, s, c, rule);
    }
  }

  /** With the one rule `base *` for all tools and sessions, what it says holds for the base and the base with arguments, and all else is asked about. */
  lemma StarRuleDecides(policy: Policy, base: string, decision: Decision, sessionID: string, command: string)
    requires policy.rules == [CommandRule("", "", base + " *", Rules(decision), "")] && Trimmed(base) && base != ""
    requires GuardsHold(policy, Key(SHELL), Trim(command))
    ensures Decide(policy, SHELL, sessionID, command) ==
            if Trim(command) == base || base + " " <= Trim(command) then decision else Ask
  {
    hide Key, Trim, MatchCommandPattern, Decide;
    var rule, p := CommandRule("", "", base + " *", Rules(decision), ""), base + " " + "*";
    assert p == base + " *" && p[0] == base[0] && p[|p| - 1] == '*';
    TrimOfTrimmed(p);
    TrimOfTrimmed("");
    KeyOfClean("");
    TrimIsTrimmed(command);
    OneRuleDecides(policy, rule, SHELL, sessionID, command);
    SpacedStarPattern(base, " ", Trim(command));
  }

  /** A deny rule `base *` in the list denies the base and the base with arguments, whatever other rules there are or are added. */
  lemma DenyRuleIsFinal(policy: Policy, base: string, toolID: string, sessionID: string, command: string)
    requires Trimmed(base) && base != ""
    requires exists r :: r in policy.rules && r.action == Rules(Deny) && Trim(r.pattern) == base + " *" && InScope(r, toolID, sessionID)
    requires Trim(command) == base || base + " " <= Trim(command)
    ensures Decide(policy, toolID, sessionID, command) == Deny
  {
    hide Key, Trim, GuardsHold, MatchCommandPattern, Specificity, NormalizedRules, InScope;
    var r :| r in policy.rules && r.action == Rules(Deny) && Trim(r.pattern) == base + " *" && InScope(r, toolID, sessionID);
    TrimIsTrimmed(command);
    SpacedStarPattern(base, " ", Trim(command));
    assert base + " " + "*" == base + " *";
    CleanRuleApplies(r, toolID, sessionID, command);
    NormalizedRulesMember(policy.rules, CleanRule(r));
  }

  /** Nothing is allowed but by an allow rule of the policy whose scope and pattern take in the command. */
  lemma AllowedBySomeRule(policy: Policy, toolID: string, sessionID: string, command: string)
    requires Decide(policy, toolID, sessionID, command) == Allow
    ensures exists r :: r in policy.rules && r.action == Rules(Allow) && InScope(r, toolID, sessionID)
                        && MatchCommandPattern(Trim(r.pattern), Trim(command))
  {
    hide Key, Trim, GuardsHold, MatchCommandPattern, Specificity, NormalizedRules, InScope;
    var t, s, c := Key(toolID), Trim(sessionID), Trim(command);
    var rules := NormalizedRules(policy.rules);
    var r :| r in rules && Applies(r, t, s, c);
    var best := SomeStrongest(rules, t, s, c);
    NormalizedRulesMember(policy.rules, best);
    var q :| q in policy.rules && Usable(q) && CleanRule(q) == best;
    CleanRuleApplies(q, toolID, sessionID, command);
    assert q.action == best.action && best.action.decision != Deny && best.action.decision != Ask;
  }

  lemma {:induction false} SomeStrongest(rules: seq<CommandRule>, t: string, s: string, c: string) returns (best: CommandRule)
    requires SomeRuleApplies(rules, t, s, c)
    ensures Strongest(rules, t, s, c, best)
  {
    hide Applies, Specificity;
    var n := |rules| - 1;
    assert rules == rules[..n] + [rules[n]];
    if SomeRuleApplies(rules[..n], t, s, c) {
      best := SomeStrongest(rules[..n], t, s, c);
      if Applies(rules[n], t, s, c) && Specificity(rules[n]) > Specificity(best) {
        best := rules[n];
      }
    } else {
      best := rules[n];
    }
  }

  // ------------------------------------------------------------- specificity

  predicate Literal(rule: CommandRule) {
    !EndsWith(Trim(rule.pattern), '*')
  }

  /** How many of session and full command a rule fixes. */
  function Fixed(rule: CommandRule): nat {
    (if rule.sessionID != "" then 1 else 0) + (if Literal(rule) then 1 else 0)
  }

  /** What breaks a tie: naming the tool, and among rules that fix one of the two, fixing the session. */
  function Tie(rule: CommandRule): nat {
    (if rule.toolID != "" then 1 else 0) + (if rule.sessionID != "" && !Literal(rule) then 1 else 0)
  }

  /** The scores order rules so: first by how many of session and full command they fix, then by the tie. */
  lemma MoreSpecificExactly(a: CommandRule, b: CommandRule)
    ensures Specificity(a) > Specificity(b) <==> Fixed(a) > Fixed(b) || (Fixed(a) == Fixed(b) && Tie(a) > Tie(b))
  {
    hide Trim;
  }

  // A command that ends in a star is stored as a pattern, so approving "this
  // exact command" approves others too.

  function OtherMatch(command: string): string
    requires command != ""
  {
    command[..|command| - 1] + "a"
  }

  /** An approval is exact if and only if the approved command does not end in a star. */
  lemma GrantIsExactIffNoStar(command: string)
    requires Trimmed(command) && command != ""
    ensures (forall c :: Trimmed(c) ==> (MatchCommandPattern(command, c) <==> c == command)) <==> !EndsWith(command, '*')
  {
    hide Trim;
    if !EndsWith(command, '*') {
      forall c | Trimmed(c) ensures MatchCommandPattern(command, c) <==> c == command {
        LiteralPatternMatchesItself(command, c);
      }
    } else {
      StarMatchesMore(command);
    }
  }

  lemma StarMatchesMore(command: string)
    requires Trimmed(command) && EndsWith(command, '*')
    ensures Trimmed(OtherMatch(command)) && OtherMatch(command) != command && MatchCommandPattern(command, OtherMatch(command))
  {
    var prefix := command[..|command| - 1];
    var c := OtherMatch(command);
    assert prefix <= c && c[|c| - 1] == 'a' && command[|command| - 1] == '*';
    hide Trim;
    TrimOfTrimmed(command);
    TrimOfTrimmed(c);
    if prefix != "" {
      TrimIsPrefix(prefix);
    } else {
      TrimOfTrimmed(prefix);
    }
  }

  lemma TrimIsPrefix(s: string)
    requires s != "" && !IsSpace(s[0])
    ensures Trim(s) <= s
  {
    TrimRightEnds(s);
  }

  // ------------------------------------------------------ normalised tools

  lemma CleanToolIsClean(tool: CommandTool)
    ensures CleanTool(CleanTool(tool)) == CleanTool(tool)
  {
    hide Key, Trim;
    KeyIdempotent(tool.id);
    KeyIsTrimmed(tool.id);
    TrimIdempotent(tool.name);
    TrimIdempotent(tool.description);
  }

  lemma {:induction false} LastEntryAt(tools: seq<CommandTool>, j: nat)
    requires j < |tools|
    requires forall k :: j < k < |tools| ==> Key(tools[k].id) != Key(tools[j].id)
    ensures LastEntry(tools, Key(tools[j].id)) == Some(tools[j])
  {
    hide Key;
    var n := |tools| - 1;
    if j < n {
      LastEntryAt(tools[..n], j);
    }
  }

  lemma {:induction false} OrderExtends(a: seq<CommandTool>, b: seq<CommandTool>)
    ensures Order(a) <= Order(a + b)
  {
    hide Key, LastEntry, Order;
    if b == [] {
      assert a + b == a;
    } else {
      var n := |b| - 1;
      OrderExtends(a, b[..n]);
      OrderSnoc(a + b[..n], b[n]);
      assert a + b[..n] + [b[n]] == a + b;
    }
  }

  lemma {:induction false} OrderOfDistinct(tools: seq<CommandTool>)
    requires CleanEntries(tools)
    ensures |Order(tools)| == |tools| && forall i :: 0 <= i < |tools| ==> Order(tools)[i] == tools[i].id
  {
    hide Key, LastEntry, Order, Trim;
    if tools == [] {
      assert Order(tools) == [] by { OrderOfNone(); }
    } else {
      var n := |tools| - 1;
      OrderOfDistinct(tools[..n]);
      OrderSnoc(tools[..n], tools[n]);
      assert tools[..n] + [tools[n]] == tools;
      assert Key(tools[n].id) == CleanTool(tools[n]).id == tools[n].id;
    }
  }

  lemma OrderOfNone()
    ensures Order([]) == []
  {
  }

  /** Feeding a normalised tool list through again adds no identifier. */
  lemma {:induction false} OrderAgain(defaults: seq<CommandTool>, ids: seq<string>, nt: seq<CommandTool>, k: nat)
    requires CleanEntries(defaults) && CleanEntries(nt) && k <= |nt| == |ids|
    requires forall i :: 0 <= i < |nt| ==> nt[i].id == ids[i]
    requires Order(defaults) <= ids
    ensures Order(defaults + nt[..k]) == if k <= |Order(defaults)| then Order(defaults) else ids[..k]
  {
    hide Key, LastEntry, Order, Trim;
    if k == 0 {
      assert defaults + nt[..0] == defaults;
    } else {
      OrderAgain(defaults, ids, nt, k - 1);
      assert Key(nt[k - 1].id) == CleanTool(nt[k - 1]).id == nt[k - 1].id;
      OrderSnoc(defaults + nt[..k - 1], nt[k - 1]);
      assert defaults + nt[..k - 1] + [nt[k - 1]] == defaults + nt[..k];
      if k > |Order(defaults)| {
        assert nt[k - 1].id !in ids[..k - 1];
        assert k - 1 == |Order(defaults)| ==> ids[..k - 1] == Order(defaults);
        assert ids[..k - 1] + [ids[k - 1]] == ids[..k];
      } else {
        assert ids[k - 1] == Order(defaults)[k - 1];
      }
    }
  }

  lemma CanonicalIsClean(tools: seq<CommandTool>)
    ensures CleanEntries(Canonical(tools))
    ensures |Canonical(tools)| == |Order(tools)| && forall i :: 0 <= i < |Order(tools)| ==> Canonical(tools)[i].id == Order(tools)[i]
  {
    hide Key, LastEntry, Order, CleanTool, Canonical;
    CanonicalFacts(tools);
    OrderFacts(tools);
    forall i | 0 <= i < |Order(tools)|
      ensures Canonical(tools)[i].id == Order(tools)[i] != "" && CleanTool(Canonical(tools)[i]) == Canonical(tools)[i]
    {
      CanonicalAt(tools, i);
      CleanToolIsClean(LastEntry(tools, Order(tools)[i]).value);
      assert Order(tools)[i] in Order(tools);
    }
  }

  /** The identifiers and the last entries are the same before and after normalising. */
  lemma NormalizedToolsFacts(tools: seq<CommandTool>)
    ensures Order(DefaultTools() + NormalizedTools(tools)) == Order(DefaultTools() + tools)
    ensures forall i :: 0 <= i < |NormalizedTools(tools)| ==>
              LastEntry(DefaultTools() + NormalizedTools(tools), Order(DefaultTools() + tools)[i]) == Some(NormalizedTools(tools)[i])
  {
    hide Key, LastEntry, Order, CleanTool, Canonical, DefaultTools;
    var all := DefaultTools() + tools;
    var nt := Canonical(all);
    DefaultsAreClean();
    CanonicalIsClean(all);
    OrderExtends(DefaultTools(), tools);
    OrderAgain(DefaultTools(), Order(all), nt, |nt|);
    assert nt[..|nt|] == nt;
    assert Order(all)[..|nt|] == Order(all);
    forall i | 0 <= i < |nt|
      ensures LastEntry(DefaultTools() + nt, Order(all)[i]) == Some(nt[i])
    {
      KeyOfEntry(nt);
      LastEntryAt(DefaultTools() + nt, |DefaultTools()| + i);
    }
  }

  lemma KeyOfEntry(tools: seq<CommandTool>)
    requires CleanEntries(tools)
    ensures forall i :: 0 <= i < |tools| ==> Key(tools[i].id) == tools[i].id
  {
    hide Key, Trim;
    forall i | 0 <= i < |tools| ensures Key(tools[i].id) == tools[i].id {
      assert CleanTool(tools[i]).id == tools[i].id;
    }
  }

  /** Every default tool is kept, identifiers are unique, and normalising twice is normalising once. */
  lemma NormalizedToolsIdempotent(tools: seq<CommandTool>)
    ensures NormalizedTools(NormalizedTools(tools)) == NormalizedTools(tools)
    ensures forall d :: d in DefaultTools() ==> exists i :: 0 <= i < |NormalizedTools(tools)| && NormalizedTools(tools)[i].id == d.id
    ensures forall i, j :: 0 <= i < j < |NormalizedTools(tools)| ==> NormalizedTools(tools)[i].id != NormalizedTools(tools)[j].id
  {
    hide Key, LastEntry, Order, CleanTool, Canonical, DefaultTools;
    var all := DefaultTools() + tools;
    var nt := Canonical(all);
    NormalizedToolsFacts(tools);
    CanonicalIsClean(all);
    CanonicalFacts(DefaultTools() + nt);
    OrderFacts(all);
    forall i | 0 <= i < |nt| ensures Canonical(DefaultTools() + nt)[i] == nt[i] {
      assert CleanTool(nt[i]) == nt[i];
    }
    DefaultsAreClean();
    OrderOfDistinct(DefaultTools());
    OrderExtends(DefaultTools(), tools);
    forall d | d in DefaultTools() ensures exists i :: 0 <= i < |nt| && nt[i].id == d.id {
      var i :| 0 <= i < |DefaultTools()| && DefaultTools()[i] == d;
      assert nt[i].id == Order(all)[i] == Order(DefaultTools())[i];
    }
  }

  /** Normalising a policy enables exactly the tools it enabled before. */
  lemma NormalizingKeepsEnabledTools(tools: seq<CommandTool>, toolID: string)
    ensures ToolEnabled(NormalizedTools(tools), toolID) == ToolEnabled(tools, toolID)
  {
    hide Key, LastEntry, Order, CleanTool, Canonical, DefaultTools, ToolEnabled;
    var all := DefaultTools() + tools;
    var id := Key(toolID);
    ToolEnabledByOverlay(tools, toolID);
    ToolEnabledByOverlay(NormalizedTools(tools), toolID);
    NormalizedToolsFacts(tools);
    OrderFacts(all);
    OrderFacts(DefaultTools() + NormalizedTools(tools));
    if id in Order(all) {
      var i :| 0 <= i < |Order(all)| && Order(all)[i] == id;
      CanonicalAt(all, i);
    }
  }

  /** Decisions are the same under a policy and its normal form. */
  lemma DecideNormalized(policy: Policy, toolID: string, sessionID: string, command: string)
    ensures Decide(Normalized(policy), toolID, sessionID, command) == Decide(policy, toolID, sessionID, command)
  {
    hide Key, Trim, ToolEnabled, NormalizedTools, ContainsUnsafeShellSyntax, NormalizedRequests, Verdict;
    NormalizingKeepsEnabledTools(policy.tools, Key(toolID));
  }

  /** Every tool of a normalised list can be shown and found: it has a name, and its identifier is its own key. */
  lemma NormalizedToolsAreNamed(tools: seq<CommandTool>, i: nat)
    requires i < |NormalizedTools(tools)|
    ensures var tool := NormalizedTools(tools)[i]; tool.name != "" && tool.id != "" && Key(tool.id) == tool.id
  {
    var all := DefaultTools() + tools;
    hide Key, LastEntry, Order, Canonical, DefaultTools, Trim;
    CanonicalFacts(all);
    OrderFacts(all);
    assert Order(all)[i] in Order(all);
    KeyIdempotent(LastEntry(all, Order(all)[i]).value.id);
  }

  /** Normalising keeps every rule as it is and only trims the path of the local documents. */
  lemma NormalizingKeepsRules(policy: Policy)
    ensures Normalized(policy).rules == policy.rules && Normalized(policy).localDocsPath == Trim(policy.localDocsPath)
  {
    hide NormalizedTools, NormalizedRequests, Trim;
  }
}
