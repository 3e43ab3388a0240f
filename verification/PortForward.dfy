/**
 Port forwarding rules: what a rule asks for, the text the application prints
 for it, and what the SSH manager reads back from that text.
 Models buildPortForwardSpecs and applySSHForwardingSettings in
 internal/app/service_sessions.go and startLocalForwards and
 parseLocalForwardSpec in internal/ssh/manager.go.
 */
module PortForward {
  import opened Text
  import opened Separated

  datatype Forward = Forward(port: nat, host: string, target: nat)

  // ------------------------------------------------------ what a rule means

  predicate Digits(s: string) {
    forall i :: 0 <= i < |s| ==> IsDigit(s[i])
  }

  /** strconv.Atoi, without its overflow error: anything that long is out of range for a port. */
  function Atoi(s: string): Option<int> {
    var signed := s != "" && (s[0] == '+' || s[0] == '-');
    var digits := if signed then s[1..] else s;
    if digits == "" || !Digits(digits) then None
    else Some(if s[0] == '-' then 0 - DecimalValue(digits) else DecimalValue(digits))
  }

  const MAX_PORT := 65535
  const MAX_RANGE := 256

  function Range(first: nat, last: nat): (ports: seq<nat>)
    requires first <= last + 1
    ensures |ports| == last + 1 - first && forall i :: 0 <= i < |ports| ==> ports[i] == first + i
  {
    seq(last + 1 - first, i requires 0 <= i < last + 1 - first => first + i)
  }

  /** The text around the first dash. */
  function Cut(token: string): (string, string)
    requires '-' in token
  {
    if token[0] == '-' then ("", token[1..]) else ([token[0]] + Cut(token[1..]).0, Cut(token[1..]).1)
  }

  /** The ports one comma-separated token stands for. */
  function TokenPorts(token: string): (ports: seq<nat>)
    ensures |ports| <= MAX_RANGE && forall i :: 0 <= i < |ports| ==> 0 < ports[i] <= MAX_PORT
  {
    if '-' in token then
      match (Atoi(Trim(Cut(token).0)), Atoi(Trim(Cut(token).1)))
      case (Some(first), Some(last)) =>
        if 0 < first <= last <= MAX_PORT && last - first + 1 <= MAX_RANGE then Range(first, last) else []
      case _ => []
    else
      match Atoi(token)
      case Some(port) => if 0 < port <= MAX_PORT then [port] else []
      case None => []
  }

  lemma {:induction false} CutAtDash(left: string, right: string)
    requires '-' !in left
    ensures Cut(left + "-" + right) == (left, right)
  {
    if left != "" {
      CutAtDash(left[1..], right);
      assert (left + "-" + right)[1..] == left[1..] + "-" + right;
      assert left == [left[0]] + left[1..];
    }
  }

  lemma AtoiOfDecimal(n: nat)
    ensures Atoi(Decimal(n)) == Some(n) && Trim(Decimal(n)) == Decimal(n) && '-' !in Decimal(n)
  {
    hide Decimal;
    ValueOfDecimal(n);
    TrimOfTrimmed(Decimal(n));
  }

  /** A number is one port and `a-b` is every port from a to b, as long as they are ports and not too many. */
  lemma TokensMeanPorts(first: nat, last: nat)
    ensures TokenPorts(Decimal(first)) == if 0 < first <= MAX_PORT then [first] else []
    ensures TokenPorts(Decimal(first) + "-" + Decimal(last)) ==
            if 0 < first <= last <= MAX_PORT && last - first + 1 <= MAX_RANGE then Range(first, last) else []
  {
    hide Decimal, Atoi, Cut, Trim;
    AtoiOfDecimal(first);
    AtoiOfDecimal(last);
    CutAtDash(Decimal(first), Decimal(last));
    var token := Decimal(first) + "-" + Decimal(last);
    assert token[|Decimal(first)|] == '-';
  }

  function PortsOf(parts: seq<string>): (ports: seq<nat>)
    ensures |ports| <= MAX_RANGE * |parts| && forall i :: 0 <= i < |ports| ==> 0 < ports[i] <= MAX_PORT
  {
    if parts == [] then [] else PortsOf(parts[..|parts| - 1]) + TokenPorts(Trim(parts[|parts| - 1]))
  }

  /** The remote port: 0 stands for "the same as the local one". */
  function RemotePort(remotePort: string): Option<nat> {
    var text := Trim(remotePort);
    if text == "" then Some(0)
    else
      match Atoi(text)
      case Some(port) => if 0 < port <= MAX_PORT then Some(port) else None
      case None => None
  }

  function Forwards(ports: seq<nat>, host: string, remote: nat): (f: seq<Forward>)
    ensures |f| == |ports| && forall i :: 0 <= i < |f| ==> f[i] == Forward(ports[i], host, if remote == 0 then ports[i] else remote)
  {
    seq(|ports|, i requires 0 <= i < |ports| => Forward(ports[i], host, if remote == 0 then ports[i] else remote))
  }

  /** The forwards a rule intends, in order. */
  function Intended(localPorts: string, remoteHost: string, remotePort: string): seq<Forward> {
    match RemotePort(remotePort)
    case Some(remote) => if Trim(remoteHost) == "" then [] else Forwards(PortsOf(Split(localPorts, ',')), Trim(remoteHost), remote)
    case None => []
  }

  lemma IntendedPortsAreValid(localPorts: string, remoteHost: string, remotePort: string)
    ensures var f := Intended(localPorts, remoteHost, remotePort);
            && |f| <= MAX_RANGE * (Count(localPorts, ',') + 1)
            && forall i :: 0 <= i < |f| ==> 0 < f[i].port <= MAX_PORT && 0 < f[i].target <= MAX_PORT && f[i].host == Trim(remoteHost) != ""
  {
    hide Split, Count, PortsOf, Atoi, Trim;
    SplitLength(localPorts, ',');
    var ports := PortsOf(Split(localPorts, ','));
    assert forall i :: 0 <= i < |ports| ==> 0 < ports[i] <= MAX_PORT;
  }

  // ---------------------------------------------------------------- printing

  function Print(f: Forward): string {
    Decimal(f.port) + ":" + f.host + ":" + Decimal(f.target)
  }

  function Prints(forwards: seq<Forward>): (r: seq<string>)
    ensures |r| == |forwards| && forall i :: 0 <= i < |r| ==> r[i] == Print(forwards[i])
  {
    seq(|forwards|, i requires 0 <= i < |forwards| => Print(forwards[i]))
  }

  lemma PrintsOfMore(ports: seq<nat>, more: seq<nat>, host: string, remote: nat)
    ensures Prints(Forwards(ports + more, host, remote)) == Prints(Forwards(ports, host, remote)) + Prints(Forwards(more, host, remote))
  {
    hide Print;
  }

  method BuildPortForwardSpecs(localPorts: string, remoteHost: string, remotePort: string) returns (text: string)
    ensures text == Join(Prints(Intended(localPorts, remoteHost, remotePort)), ',')
  {
    hide Atoi, Trim, Print, Split, Cut, Tail;
    assert Join(Prints([]), ',') == "";
    var host, remoteText := Trim(remoteHost), Trim(remotePort);
    if host == "" {
      return "";
    }
    var remote := 0;
    if remoteText != "" {
      var parsed := Atoi(remoteText);
      if parsed.None? || parsed.value <= 0 || parsed.value > MAX_PORT {
        return "";
      }
      remote := parsed.value;
    }
    hide Join;
    var parts := Split(localPorts, ',');
    var specs: seq<string> := [];
    for i := 0 to |parts|
      invariant specs == Prints(Forwards(PortsOf(parts[..i]), host, remote))
    {
      assert parts[..i + 1][..i] == parts[..i];
      var token := Trim(parts[i]);
      PrintsOfMore(PortsOf(parts[..i]), TokenPorts(token), host, remote);
      var added := TokenSpecs(token, host, remote);
      specs := specs + added;
    }
    assert parts[..|parts|] == parts;
    return Join(specs, ',');
  }

  /** One token's specs: a range is printed port by port. */
  method TokenSpecs(token: string, host: string, remote: nat) returns (specs: seq<string>)
    ensures specs == Prints(Forwards(TokenPorts(token), host, remote))
  {
    hide Atoi, Trim, Print, Cut;
    specs := [];
    if '-' in token {
      var cut := Cut(token);
      var first, last := Atoi(Trim(cut.0)), Atoi(Trim(cut.1));
      if first.Some? && last.Some? && first.value > 0 && last.value >= first.value && last.value <= MAX_PORT
         && last.value - first.value + 1 <= MAX_RANGE {
        for port := first.value to last.value + 1
          invariant specs == Prints(Forwards(Range(first.value, port - 1), host, remote))
        {
          PrintsOfMore(Range(first.value, port - 1), [port], host, remote);
          assert Range(first.value, port - 1) + [port] == Range(first.value, port);
          var target := if remote == 0 then port else remote;
          specs := specs + [Print(Forward(port, host, target))];
        }
      }
      return;
    }
    var port := Atoi(token);
    if port.Some? && port.value > 0 && port.value <= MAX_PORT {
      var target := if remote == 0 then port.value else remote;
      specs := [Print(Forward(port.value, host, target))];
    }
  }

  // ----------------------------------------------------------------- parsing

  /** net.JoinHostPort. */
  function JoinHostPort(host: string, port: string): string {
    if ':' in host then "[" + host + "]:" + port else host + ":" + port
  }

  datatype Addresses = Addresses(bind: string, remote: string)

  function ParseLocalForwardSpec(spec: string): Option<Addresses> {
    var parts := Split(Trim(spec), ':');
    if |parts| != 3 then None
    else
      var local, host, port := Trim(parts[0]), Trim(parts[1]), Trim(parts[2]);
      if local == "" || host == "" || port == "" then None
      else Some(Addresses(JoinHostPort("127.0.0.1", local), JoinHostPort(host, port)))
  }

  function ParseAll(specs: seq<string>): Option<seq<Addresses>> {
    if specs == [] then Some([])
    else
      match (ParseAll(specs[..|specs| - 1]), ParseLocalForwardSpec(specs[|specs| - 1]))
      case (Some(before), Some(last)) => Some(before + [last])
      case _ => None
  }

  /** What a profile's option asks the SSH manager to listen on. */
  function ParseOption(text: string): Option<seq<Addresses>> {
    if Trim(text) == "" then Some([]) else ParseAll(Split(Trim(text), ','))
  }

  lemma {:induction false} ParseAllPrefix(specs: seq<string>, n: nat)
    requires n <= |specs| && ParseAll(specs).Some?
    ensures ParseAll(specs[..n]).Some? && |ParseAll(specs).value| == |specs|
    decreases |specs|
  {
    hide ParseLocalForwardSpec;
    if n < |specs| {
      ParseAllPrefix(specs[..|specs| - 1], n);
      assert specs[..|specs| - 1][..n] == specs[..n];
    } else {
      assert specs[..n] == specs;
      if specs != [] {
        ParseAllPrefix(specs[..|specs| - 1], 0);
      }
    }
  }

  /** Whether an address can be listened on, given those this call listens on already. */
  type Network = (seq<Addresses>, Addresses) -> bool

  /** Each address can be listened on while the earlier ones are. */
  predicate AllListen(listens: Network, wanted: seq<Addresses>) {
    forall i :: 0 <= i < |wanted| ==> listens(wanted[..i], wanted[i])
  }

  /** Opens the listeners one by one; the first failure closes all that were opened. */
  method StartLocalForwards(text: string, listens: Network) returns (ok: bool, listeners: seq<Addresses>, closed: seq<Addresses>)
    ensures ok == (ParseOption(text).Some? && AllListen(listens, ParseOption(text).value))
    ensures ok ==> listeners == ParseOption(text).value && closed == []
    ensures !ok ==> closed == listeners && AllListen(listens, listeners)
  {
    hide Trim, Split, ParseLocalForwardSpec, AllListen;
    closed, listeners := [], [];
    assert AllListen(listens, []) by { NoneToListenOn(listens); }
    var raw := Trim(text);
    if raw == "" {
      return true, [], [];
    }
    var specs := Split(raw, ',');
    for i := 0 to |specs|
      invariant ParseAll(specs[..i]) == Some(listeners) && closed == []
      invariant AllListen(listens, listeners)
    {
      assert specs[..i + 1][..i] == specs[..i];
      var parsed := ParseLocalForwardSpec(specs[i]);
      if parsed.None? || !listens(listeners, parsed.value) {
        if ParseAll(specs).Some? {
          ParseAllExtends(specs, i + 1);
          if parsed.Some? {
            OneFailureIsEnough(listens, listeners, parsed.value, ParseAll(specs).value);
          }
        }
        for k := 0 to |listeners|
          invariant closed == listeners[..k]
        {
          closed := closed + [listeners[k]];
        }
        return false, listeners, closed;
      }
      OneMoreListens(listens, listeners, parsed.value);
      listeners := listeners + [parsed.value];
    }
    assert specs[..|specs|] == specs;
    return true, listeners, [];
  }

  lemma NoneToListenOn(listens: Network)
    ensures AllListen(listens, [])
  {
  }

  lemma OneFailureIsEnough(listens: Network, open: seq<Addresses>, next: Addresses, wanted: seq<Addresses>)
    requires open + [next] <= wanted && !listens(open, next)
    ensures !AllListen(listens, wanted)
  {
    assert wanted[..|open|] == open && wanted[|open|] == next;
  }

  lemma OneMoreListens(listens: Network, open: seq<Addresses>, next: Addresses)
    requires AllListen(listens, open) && listens(open, next)
    ensures AllListen(listens, open + [next])
  {
    forall i | 0 <= i <= |open| ensures listens((open + [next])[..i], (open + [next])[i]) {
      assert (open + [next])[..i] == open[..i];
      assert open[..|open|] == open;
    }
  }

  lemma {:induction false} ParseAllExtends(specs: seq<string>, n: nat)
    requires n <= |specs| && ParseAll(specs).Some?
    ensures ParseAll(specs[..n]).Some? && ParseAll(specs[..n]).value <= ParseAll(specs).value
    decreases |specs|
  {
    hide ParseLocalForwardSpec;
    if n < |specs| {
      ParseAllExtends(specs[..|specs| - 1], n);
      assert specs[..|specs| - 1][..n] == specs[..n];
    } else {
      assert specs[..n] == specs;
    }
  }

  // -------------------------------------------------------------- round trip

  function AddressesOf(f: Forward): Addresses {
    Addresses(JoinHostPort("127.0.0.1", Decimal(f.port)), JoinHostPort(f.host, Decimal(f.target)))
  }

  function AllAddresses(forwards: seq<Forward>): (r: seq<Addresses>)
    ensures |r| == |forwards| && forall i :: 0 <= i < |r| ==> r[i] == AddressesOf(forwards[i])
  {
    seq(|forwards|, i requires 0 <= i < |forwards| => AddressesOf(forwards[i]))
  }

  /** A network on which an address is free or not, and is taken once it is listened on. */
  function Binding(free: string -> bool): Network {
    (open: seq<Addresses>, next: Addresses) => free(next.bind) && forall k :: 0 <= k < |open| ==> open[k].bind != next.bind
  }

  /** On such a network all forwards open exactly when their ports are free and no local port is asked for twice. */
  lemma OpenExactlyWhenDistinct(free: string -> bool, forwards: seq<Forward>)
    ensures AllListen(Binding(free), AllAddresses(forwards))
            <==> && (forall i :: 0 <= i < |forwards| ==> free(AddressesOf(forwards[i]).bind))
                 && (forall i, j :: 0 <= i < j < |forwards| ==> forwards[i].port != forwards[j].port)
  {
    hide Decimal;
    var wanted := AllAddresses(forwards);
    forall i, j | 0 <= i < j < |forwards| ensures wanted[..j][i].bind == wanted[j].bind <==> forwards[i].port == forwards[j].port {
      SameBindSamePort(forwards[i], forwards[j]);
    }
  }

  lemma SameBindSamePort(f: Forward, g: Forward)
    ensures AddressesOf(f).bind == AddressesOf(g).bind <==> f.port == g.port
  {
    hide Decimal;
    var local := "127.0.0.1" + ":";
    assert AddressesOf(f).bind[|local|..] == Decimal(f.port) && AddressesOf(g).bind[|local|..] == Decimal(g.port);
    if AddressesOf(f).bind == AddressesOf(g).bind {
      DecimalIsInjective(f.port, g.port);
    }
  }

  predicate Hosted(forwards: seq<Forward>) {
    forall i :: 0 <= i < |forwards| ==> forwards[i].host != "" && Trimmed(forwards[i].host)
  }

  lemma DecimalIsPlain(n: nat)
    ensures ',' !in Decimal(n) && ':' !in Decimal(n) && Trim(Decimal(n)) == Decimal(n) != ""
  {
    hide Decimal;
    TrimOfTrimmed(Decimal(n));
  }

  lemma PrintIsTrimmed(f: Forward)
    ensures Trimmed(Print(f)) && Print(f) != "" && Trim(Print(f)) == Print(f)
  {
    hide Decimal;
    assert IsDigit(Print(f)[0]) && IsDigit(Print(f)[|Print(f)| - 1]);
    TrimOfTrimmed(Print(f));
  }

  lemma PrintAsPieces(f: Forward)
    ensures Print(f) == Join([Decimal(f.port), f.host, Decimal(f.target)], ':')
  {
    hide Decimal;
    var pieces := [Decimal(f.port), f.host, Decimal(f.target)];
    assert pieces[1..] == [f.host, Decimal(f.target)] && [f.host, Decimal(f.target)][1..] == [Decimal(f.target)];
    assert Tail([Decimal(f.target)], ':') == ":" + Decimal(f.target);
    assert Tail([f.host, Decimal(f.target)], ':') == ":" + f.host + (":" + Decimal(f.target));
  }

  lemma ColonsOfPrint(f: Forward)
    ensures Count(Print(f), ':') == 2 + Count(f.host, ':')
  {
    DecimalIsPlain(f.port);
    DecimalIsPlain(f.target);
    OneColon();
    hide Trim, Decimal, Count;
    CountIsZero(Decimal(f.port), ':');
    CountIsZero(Decimal(f.target), ':');
    CountOfSum(Decimal(f.port) + ":" + f.host, ":" + Decimal(f.target), ':');
    CountOfSum(Decimal(f.port) + ":", f.host, ':');
    CountOfSum(Decimal(f.port), ":", ':');
    CountOfSum(":", Decimal(f.target), ':');
    assert Print(f) == (Decimal(f.port) + ":" + f.host) + (":" + Decimal(f.target));
  }

  /** A printed forward reads back as itself exactly when its host has no colon. */
  lemma SpecRoundTrip(f: Forward)
    requires f.host != "" && Trimmed(f.host)
    ensures ParseLocalForwardSpec(Print(f)) == if ':' in f.host then None else Some(AddressesOf(f))
  {
    PrintIsTrimmed(f);
    hide Trim, Decimal, Join, Split, Count;
    if ':' in f.host {
      SplitLength(Print(f), ':');
      ColonsOfPrint(f);
      CountIsZero(f.host, ':');
    } else {
      PrintAsPieces(f);
      DecimalIsPlain(f.port);
      DecimalIsPlain(f.target);
      TrimOfTrimmed(f.host);
      hide Print;
      SplitOfJoin([Decimal(f.port), f.host, Decimal(f.target)], ':');
    }
  }

  lemma OneColon()
    ensures Count(":", ':') == 1 && Count(":", ',') == 0
  {
    assert ":"[1..] == "";
  }

  lemma CommasOfPrint(f: Forward)
    ensures Count(Print(f), ',') == Count(f.host, ',')
  {
    DecimalIsPlain(f.port);
    DecimalIsPlain(f.target);
    OneColon();
    hide Trim, Decimal, Count;
    CountOfSum(Decimal(f.port) + ":" + f.host, ":" + Decimal(f.target), ',');
    CountOfSum(Decimal(f.port) + ":", f.host, ',');
    CountOfSum(Decimal(f.port), ":", ',');
    CountOfSum(":", Decimal(f.target), ',');
    CountIsZero(Decimal(f.port), ',');
    CountIsZero(Decimal(f.target), ',');
    assert Print(f) == (Decimal(f.port) + ":" + f.host) + (":" + Decimal(f.target));
  }

  /** Commas in a joined text: one between pieces and those inside them. */
  lemma {:induction false} CommasOfTail(forwards: seq<Forward>)
    ensures Count(Tail(Prints(forwards), ','), ',') >= |forwards|
    ensures Count(Tail(Prints(forwards), ','), ',') == |forwards| <==> forall i :: 0 <= i < |forwards| ==> ',' !in forwards[i].host
  {
    hide Print, Count;
    if forwards == [] {
      assert Count("", ',') == 0 by { CountIsZero("", ','); }
    } else {
      var f, rest := forwards[0], forwards[1..];
      CommasOfTail(rest);
      assert Prints(forwards)[1..] == Prints(rest);
      var tail := Tail(Prints(rest), ',');
      assert Tail(Prints(forwards), ',') == "," + Print(f) + tail;
      CountOfSum("," + Print(f), tail, ',');
      CountOfSum(",", Print(f), ',');
      CommasOfPrint(f);
      CountIsZero(f.host, ',');
      assert Count(",", ',') == 1 by { OneComma(); }
      assert forwards == [f] + rest;
    }
  }

  lemma OneComma()
    ensures Count(",", ',') == 1
  {
    assert ","[1..] == "";
  }

  lemma {:induction false} TailEnds(forwards: seq<Forward>)
    requires forwards != []
    ensures var t := Tail(Prints(forwards), ','); t != "" && IsDigit(t[|t| - 1])
  {
    hide Decimal;
    var rest := forwards[1..];
    assert Prints(forwards)[1..] == Prints(rest);
    var p := Print(forwards[0]);
    assert IsDigit(p[|p| - 1]);
    if rest != [] {
      TailEnds(rest);
    }
  }

  lemma JoinIsTrimmed(forwards: seq<Forward>)
    requires forwards != []
    ensures var text := Join(Prints(forwards), ','); text != "" && Trim(text) == text
  {
    var text, rest := Join(Prints(forwards), ','), forwards[1..];
    assert Prints(forwards)[1..] == Prints(rest);
    var p := Print(forwards[0]);
    assert IsDigit(p[0]) && IsDigit(p[|p| - 1]);
    if rest != [] {
      TailEnds(rest);
    }
    hide Decimal, Print, Tail;
    TrimOfTrimmed(text);
  }

  predicate NoColons(forwards: seq<Forward>) {
    forall i :: 0 <= i < |forwards| ==> ':' !in forwards[i].host
  }

  lemma {:induction false} ParseAllPrints(forwards: seq<Forward>)
    requires Hosted(forwards)
    ensures ParseAll(Prints(forwards)) == if NoColons(forwards) then Some(AllAddresses(forwards)) else None
  {
    hide Print, ParseLocalForwardSpec, AddressesOf;
    if forwards == [] {
      assert AllAddresses(forwards) == [];
    } else {
      var n := |forwards| - 1;
      ParseAllPrints(forwards[..n]);
      SpecRoundTrip(forwards[n]);
      assert Prints(forwards)[..n] == Prints(forwards[..n]);
      assert AllAddresses(forwards) == AllAddresses(forwards[..n]) + [AddressesOf(forwards[n])];
      assert NoColons(forwards) <==> NoColons(forwards[..n]) && ':' !in forwards[n].host;
    }
  }

  predicate PlainHosts(forwards: seq<Forward>) {
    forall i :: 0 <= i < |forwards| ==> ':' !in forwards[i].host && ',' !in forwards[i].host
  }

  /**
   The printed forwards read back as exactly the intended ones, in order, if and
   only if no host contains a colon or a comma.
   */
  lemma OptionRoundTrip(forwards: seq<Forward>)
    requires Hosted(forwards)
    ensures ParseOption(Join(Prints(forwards), ',')) == Some(AllAddresses(forwards)) <==> PlainHosts(forwards)
  {
    var text := Join(Prints(forwards), ',');
    if forwards == [] {
      assert text == "" && AllAddresses(forwards) == [] && Trim("") == "";
    } else {
      JoinIsTrimmed(forwards);
      ParseAllPrints(forwards);
      CommasOfTail(forwards);
      TailIsJoin(Prints(forwards), ',');
      CountOfSum(",", text, ',');
      OneComma();
      SplitLength(text, ',');
      PrintsClean(forwards);
      hide Join, Split, Tail, Count, Print, Trim, ParseLocalForwardSpec, AddressesOf;
      if forall i :: 0 <= i < |forwards| ==> ',' !in forwards[i].host {
        SplitOfJoin(Prints(forwards), ',');
      } else if ParseAll(Split(text, ',')).Some? {
        ParseAllPrefix(Split(text, ','), 0);
      }
    }
  }

  lemma PrintsClean(forwards: seq<Forward>)
    ensures (forall i :: 0 <= i < |forwards| ==> ',' !in forwards[i].host) ==> Clean(Prints(forwards), ',')
  {
    hide Print, Count;
    if forall i :: 0 <= i < |forwards| ==> ',' !in forwards[i].host {
      forall i | 0 <= i < |forwards| ensures ',' !in Print(forwards[i]) {
        CommasOfPrint(forwards[i]);
        CountIsZero(forwards[i].host, ',');
        CountIsZero(Print(forwards[i]), ',');
      }
    }
  }

  // ------------------------------------------------------------ several rules

  datatype Rule = Rule(enabled: bool, localPort: string, remoteHost: string, remotePort: string, hostID: string)

  datatype Profile = Profile(protocolID: string, host: string)

  /** The enabled rules with a port, a target and a host, trimmed. */
  function Active(rules: seq<Rule>): seq<Rule> {
    if rules == [] then []
    else
      var r := rules[|rules| - 1];
      var clean := Rule(true, Trim(r.localPort), Trim(r.remoteHost), Trim(r.remotePort), Trim(r.hostID));
      Active(rules[..|rules| - 1])
      + if r.enabled && clean.localPort != "" && clean.hostID != "" && clean.remoteHost != "" then [clean] else []
  }

  predicate Known(rule: Rule, profiles: map<string, Profile>) {
    rule.hostID in profiles && profiles[rule.hostID].protocolID == "ssh" && Trim(profiles[rule.hostID].host) != ""
  }

  function RuleForwards(rule: Rule, profiles: map<string, Profile>): seq<Forward> {
    if Known(rule, profiles) then Intended(rule.localPort, rule.remoteHost, rule.remotePort) else []
  }

  /** What all active rules together intend, rule by rule. */
  function AllIntended(rules: seq<Rule>, profiles: map<string, Profile>): seq<Forward> {
    if rules == [] then [] else AllIntended(rules[..|rules| - 1], profiles) + RuleForwards(rules[|rules| - 1], profiles)
  }

  /** The printed forwards of two groups, joined as groups or one by one. */
  lemma JoinGroups(a: seq<Forward>, b: seq<Forward>)
    ensures Join(Prints(a + b), ',') ==
            if a == [] then Join(Prints(b), ',') else if b == [] then Join(Prints(a), ',')
            else Join(Prints(a), ',') + "," + Join(Prints(b), ',')
  {
    hide Join, Print;
    assert Prints(a + b) == Prints(a) + Prints(b);
    if a == [] {
      assert a + b == b;
    } else if b == [] {
      assert a + b == a;
    } else {
      JoinOfSum(Prints(a), Prints(b), ',');
    }
  }

  lemma JoinOne(spec: string)
    ensures Join([spec], ',') == spec
  {
    assert [spec][1..] == [];
  }

  /** One more rule's text after those of the rules before it. */
  lemma OneMoreSpec(specs: seq<string>, before: seq<Forward>, more: seq<Forward>)
    requires Join(specs, ',') == Join(Prints(before), ',') && (specs == [] <==> before == [])
    ensures var spec := Join(Prints(more), ',');
            && (Trim(spec) != "" <==> more != [])
            && (more != [] ==> Join(specs + [spec], ',') == Join(Prints(before + more), ','))
            && (more == [] ==> before + more == before)
  {
    var spec := Join(Prints(more), ',');
    if more == [] {
      assert spec == "" && Trim("") == "";
    } else {
      JoinIsTrimmed(more);
      JoinGroups(before, more);
      JoinOne(spec);
      hide Join, Trim, Print;
      if specs == [] {
        assert specs + [spec] == [spec];
      } else {
        JoinOfSum(specs, [spec], ',');
      }
    }
  }

  lemma NothingPrinted()
    ensures Join([], ',') == Join(Prints([]), ',')
  {
    assert Prints([]) == [];
  }

  method ActiveRules(rules: seq<Rule>) returns (active: seq<Rule>)
    ensures active == Active(rules)
  {
    active := [];
    for i := 0 to |rules|
      invariant active == Active(rules[..i])
    {
      assert rules[..i + 1][..i] == rules[..i];
      var r := rules[i];
      if !r.enabled {
        continue;
      }
      var ports, host, port, id := Trim(r.localPort), Trim(r.remoteHost), Trim(r.remotePort), Trim(r.hostID);
      if ports != "" && id != "" && host != "" {
        active := active + [Rule(true, ports, host, port, id)];
      }
    }
    assert rules[..|rules|] == rules;
  }

  /** A profile's options with the text of all rules that apply. */
  method ApplySSHForwardingSettings(protocolID: string, options: map<string, string>, rules: seq<Rule>, profiles: map<string, Profile>)
    returns (applied: map<string, string>)
    ensures var forwards := AllIntended(Active(rules), profiles);
            applied == if protocolID != "ssh" || forwards == [] then options else options["local_forwards" := Join(Prints(forwards), ',')]
  {
    hide Trim, Join, Tail, Print, Intended;
    if protocolID != "ssh" {
      return options;
    }
    var active := ActiveRules(rules);
    var allSpecs := [];
    NothingPrinted();
    for i := 0 to |active|
      invariant Join(allSpecs, ',') == Join(Prints(AllIntended(active[..i], profiles)), ',')
      invariant allSpecs == [] <==> AllIntended(active[..i], profiles) == []
    {
      assert active[..i + 1][..i] == active[..i];
      var rule := active[i];
      OneMoreSpec(allSpecs, AllIntended(active[..i], profiles), RuleForwards(rule, profiles));
      if rule.hostID !in profiles || profiles[rule.hostID].protocolID != "ssh" || Trim(profiles[rule.hostID].host) == "" {
        continue;
      }
      var spec := BuildPortForwardSpecs(rule.localPort, rule.remoteHost, rule.remotePort);
      if Trim(spec) != "" {
        allSpecs := allSpecs + [spec];
      }
    }
    assert active[..|active|] == active;
    if |allSpecs| == 0 {
      return options;
    }
    return options["local_forwards" := Join(allSpecs, ',')];
  }

  lemma {:induction false} IntendedIsHosted(rules: seq<Rule>, profiles: map<string, Profile>)
    ensures Hosted(AllIntended(rules, profiles))
  {
    hide Intended, Known, Trim;
    if rules != [] {
      var r := rules[|rules| - 1];
      IntendedIsHosted(rules[..|rules| - 1], profiles);
      IntendedPortsAreValid(r.localPort, r.remoteHost, r.remotePort);
      TrimIsTrimmed(r.remoteHost);
    }
  }

  /**
   The listeners all rules together ask for are exactly the intended ones, in
   order, if and only if no rule in force names a host with a colon or a comma.
   */
  lemma RulesRoundTrip(rules: seq<Rule>, profiles: map<string, Profile>)
    ensures var forwards := AllIntended(Active(rules), profiles);
            ParseOption(Join(Prints(forwards), ',')) == Some(AllAddresses(forwards)) <==> PlainHosts(forwards)
  {
    IntendedIsHosted(Active(rules), profiles);
    OptionRoundTrip(AllIntended(Active(rules), profiles));
  }

  /** So connecting opens what the rules mean exactly when their ports are free and no two forwards share a local port. */
  lemma RulesOpenExactly(rules: seq<Rule>, profiles: map<string, Profile>, free: string -> bool)
    requires PlainHosts(AllIntended(Active(rules), profiles))
    ensures var forwards := AllIntended(Active(rules), profiles);
            var wanted := ParseOption(Join(Prints(forwards), ','));
            && wanted.Some?
            && (AllListen(Binding(free), wanted.value)
                <==> && (forall i :: 0 <= i < |forwards| ==> free(AddressesOf(forwards[i]).bind))
                     && (forall i, j :: 0 <= i < j < |forwards| ==> forwards[i].port != forwards[j].port))
  {
    RulesRoundTrip(rules, profiles);
    OpenExactlyWhenDistinct(free, AllIntended(Active(rules), profiles));
    hide AllIntended, Active, ParseOption, AllListen, AddressesOf, PlainHosts;
  }

  // ------------------------------------------------------- what one rule means

  function PortText(port: nat): string {
    if port == 0 then "" else Decimal(port)
  }

  lemma PortTextIsClean(port: nat)
    ensures Trim(PortText(port)) == PortText(port) && (port > 0 ==> PortText(port) != "" && Atoi(PortText(port)) == Some(port))
  {
    hide Decimal, Trim, Atoi;
    TrimOfTrimmed("");
    AtoiOfDecimal(port);
  }

  lemma RangeTextIsClean(first: nat, last: nat)
    ensures var text := Decimal(first) + "-" + Decimal(last);
            Trim(text) == text && text != "" && ',' !in text
  {
    hide Decimal;
    DecimalIsPlain(first);
    DecimalIsPlain(last);
    var text := Decimal(first) + "-" + Decimal(last);
    assert IsDigit(text[0]) && text[|text| - 1] == Decimal(last)[|Decimal(last)| - 1];
    TrimOfTrimmed(text);
  }

  /** A rule for the local ports from `first` to `last` forwards each of them, to the given remote port or to its own number; a disabled one forwards nothing. */
  lemma RuleMeans(enabled: bool, first: nat, last: nat, host: string, remote: nat, hostID: string, profiles: map<string, Profile>)
    requires 0 < first <= last <= 65535 && last - first < 256 && remote <= 65535
    requires Trimmed(host) && host != "" && Trimmed(hostID) && hostID != ""
    requires hostID in profiles && profiles[hostID].protocolID == "ssh" && Trim(profiles[hostID].host) != ""
    ensures var rule := Rule(enabled, Decimal(first) + "-" + Decimal(last), host, PortText(remote), hostID);
            var forwards := AllIntended(Active([rule]), profiles);
            && |forwards| == (if enabled then last - first + 1 else 0)
            && forall i :: 0 <= i < |forwards| ==> forwards[i] == Forward(first + i, host, if remote == 0 then first + i else remote)
  {
    hide Decimal, Trim, Intended, Active, AllIntended, PortText;
    var text := Decimal(first) + "-" + Decimal(last);
    RangeTextIsClean(first, last);
    PortTextIsClean(remote);
    TrimOfTrimmed(host);
    TrimOfTrimmed(hostID);
    RangeIntended(first, last, host, remote);
    OneRuleIntended(Rule(enabled, text, host, PortText(remote), hostID), profiles);
  }

  lemma RangeIntended(first: nat, last: nat, host: string, remote: nat)
    requires 0 < first <= last <= 65535 && last - first < 256 && remote <= 65535 && Trimmed(host) && host != ""
    ensures Intended(Decimal(first) + "-" + Decimal(last), host, PortText(remote)) == Forwards(Range(first, last), host, remote)
  {
    hide Decimal, Trim, Atoi, Split, TokenPorts, PortText;
    var text := Decimal(first) + "-" + Decimal(last);
    RangeTextIsClean(first, last);
    RemotePortIs(remote);
    TrimOfTrimmed(host);
    TokensMeanPorts(first, last);
    SplitOfOne(text);
    assert [text][..0] == [];
    assert PortsOf([text]) == Range(first, last);
  }

  lemma RemotePortIs(port: nat)
    requires port <= 65535
    ensures RemotePort(PortText(port)) == Some(port)
  {
    hide Decimal, Trim, Atoi;
    PortTextIsClean(port);
  }

  lemma OneRuleIntended(rule: Rule, profiles: map<string, Profile>)
    requires Known(rule, profiles) && rule.localPort != "" && rule.hostID != "" && rule.remoteHost != ""
    requires Trim(rule.localPort) == rule.localPort && Trim(rule.remoteHost) == rule.remoteHost
    requires Trim(rule.remotePort) == rule.remotePort && Trim(rule.hostID) == rule.hostID
    ensures AllIntended(Active([rule]), profiles) == if rule.enabled then Intended(rule.localPort, rule.remoteHost, rule.remotePort) else []
  {
    hide Trim, Intended;
    assert [rule][..0] == [];
    assert Active([rule]) == if rule.enabled then [rule] else [];
  }

  lemma SplitOfOne(text: string)
    requires ',' !in text
    ensures Split(text, ',') == [text]
  {
    SplitIsUnique(text, [text], ',');
  }

  /** A rule whose host is not a known SSH profile with an address forwards nothing. */
  lemma UnknownHostForwardsNothing(rule: Rule, profiles: map<string, Profile>)
    requires var id := Trim(rule.hostID); id !in profiles || profiles[id].protocolID != "ssh" || Trim(profiles[id].host) == ""
    ensures AllIntended(Active([rule]), profiles) == []
  {
    hide Trim, Intended, Active, AllIntended;
    OneActive(rule);
    var active := Active([rule]);
    if active != [] {
      OneIntended(active[0], profiles);
    } else {
      NothingIntended(profiles);
    }
  }

  lemma OneActive(rule: Rule)
    ensures var active := Active([rule]);
            active == [] || (active == [active[0]] && active[0].hostID == Trim(rule.hostID))
  {
    hide Trim;
    assert [rule][..0] == [] && Active([]) == [];
  }

  lemma OneIntended(rule: Rule, profiles: map<string, Profile>)
    ensures AllIntended([rule], profiles) == RuleForwards(rule, profiles)
  {
    hide RuleForwards;
    assert [rule][..0] == [] && AllIntended([], profiles) == [];
  }

  lemma NothingIntended(profiles: map<string, Profile>)
    ensures AllIntended([], profiles) == []
  {
  }
}
