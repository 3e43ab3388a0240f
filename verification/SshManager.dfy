/**
 The SSH connection manager as an interleaved protocol: Connect, Disconnect,
 AcceptHostKey, SetOutputHandler and one waiter per connection share three maps
 under a lock that each of them takes and releases several times.
 Models internal/ssh/manager.go.
 */
module SshManager {
  import opened Text

  // ----------------------------------------------------------- shared state

  /** A host key awaiting the user; the serial stands for the identity of the stored pointer. */
  datatype PendingKey = PendingKey(serial: nat, hostname: string, key: string)

  /** What the lock guards, and what the outside sees: keys written to known_hosts and connections closed. */
  datatype Shared = Shared(
    connections: map<string, nat>, handlers: map<string, nat>, pendingKeys: map<string, PendingKey>,
    installs: nat, serials: nat, knownHosts: seq<(string, string)>, closed: seq<nat>)

  function Lookup<T>(m: map<string, T>, tab: string): Option<T> {
    if tab in m then Some(m[tab]) else None
  }

  /** The locked part of Disconnect. */
  function Detached(s: Shared, tab: string): Shared {
    s.(connections := s.connections - {tab}, handlers := s.handlers - {tab}, pendingKeys := s.pendingKeys - {tab})
  }

  /** The locked part of disconnectConnection: it acts only for the connection it was started for. */
  function DetachedIfCurrent(s: Shared, tab: string, expected: nat): Shared {
    if Lookup(s.connections, tab) == Some(expected) then Detached(s, tab) else s
  }

  function Closed(s: Shared, conn: Option<nat>): Shared {
    match conn
    case Some(c) => s.(closed := s.closed + [c])
    case None => s
  }

  /** The locked part of Connect; the new connection's number is the old count. */
  function Installed(s: Shared, tab: string): Shared {
    s.(connections := s.connections[tab := s.installs], installs := s.installs + 1)
  }

  function KeyNoted(s: Shared, tab: string, hostname: string, key: string): Shared {
    s.(pendingKeys := s.pendingKeys[tab := PendingKey(s.serials, hostname, key)], serials := s.serials + 1)
  }

  function KeyWritten(s: Shared, pending: PendingKey): Shared {
    s.(knownHosts := s.knownHosts + [(pending.hostname, pending.key)])
  }

  function KeyDropped(s: Shared, tab: string, pending: PendingKey): Shared {
    if Lookup(s.pendingKeys, tab) == Some(pending) then s.(pendingKeys := s.pendingKeys - {tab}) else s
  }

  function HandlerSet(s: Shared, tab: string, handler: nat): Shared {
    s.(handlers := s.handlers[tab := handler])
  }

  /** How an attempt to reach the host ends. */
  datatype Dial = Reached | Unreachable | UnknownHost(hostname: string, key: string)

  /** A Disconnect, a Connect and an AcceptHostKey that nothing interrupts. */
  function Disconnected(s: Shared, tab: string): Shared {
    Closed(Detached(s, tab), Lookup(s.connections, tab))
  }

  function Connected(s: Shared, tab: string, dial: Dial): Shared {
    match dial
    case Reached => Installed(Disconnected(s, tab), tab)
    case Unreachable => Disconnected(s, tab)
    case UnknownHost(hostname, key) => KeyNoted(Disconnected(s, tab), tab, hostname, key)
  }

  function Accepted(s: Shared, tab: string, writable: bool): Shared {
    if tab in s.pendingKeys && writable then KeyDropped(KeyWritten(s, s.pendingKeys[tab]), tab, s.pendingKeys[tab]) else s
  }

  class Manager {
    var connections: map<string, nat>
    var handlers: map<string, nat>
    var pendingKeys: map<string, PendingKey>
    var installs: nat
    var serials: nat
    var knownHosts: seq<(string, string)>
    var closed: seq<nat>

    ghost function State(): Shared
      reads this
    {
      Shared(connections, handlers, pendingKeys, installs, serials, knownHosts, closed)
    }

    constructor ()
      ensures State() == Shared(map[], map[], map[], 0, 0, [], [])
    {
      connections, handlers, pendingKeys := map[], map[], map[];
      installs, serials, knownHosts, closed := 0, 0, [], [];
    }

    method Detach(tab: string) returns (conn: Option<nat>)
      modifies this
      ensures State() == Detached(old(State()), tab) && conn == Lookup(old(connections), tab)
    {
      conn := Lookup(connections, tab);
      connections := connections - {tab};
      handlers := handlers - {tab};
      pendingKeys := pendingKeys - {tab};
    }

    method CloseConnection(conn: Option<nat>)
      modifies this
      ensures State() == Closed(old(State()), conn)
    {
      if conn.Some? {
        closed := closed + [conn.value];
      }
    }

    method Disconnect(tab: string)
      modifies this
      ensures State() == Disconnected(old(State()), tab)
    {
      var conn := Detach(tab);
      CloseConnection(conn);
    }

    /** What a connection's waiter does once its session has ended. */
    method DisconnectConnection(tab: string, expected: nat)
      modifies this
      ensures var mine := Lookup(old(connections), tab) == Some(expected);
              State() == Closed(DetachedIfCurrent(old(State()), tab, expected), if mine then Some(expected) else None)
    {
      if tab !in connections || connections[tab] != expected {
        return;
      }
      connections := connections - {tab};
      handlers := handlers - {tab};
      pendingKeys := pendingKeys - {tab};
      CloseConnection(Some(expected));
    }

    method NoteUnknownKey(tab: string, hostname: string, key: string)
      modifies this
      ensures State() == KeyNoted(old(State()), tab, hostname, key)
    {
      pendingKeys := pendingKeys[tab := PendingKey(serials, hostname, key)];
      serials := serials + 1;
    }

    method Connect(tab: string, dial: Dial) returns (conn: Option<nat>)
      modifies this
      ensures State() == Connected(old(State()), tab, dial)
      ensures conn == if dial.Reached? then Some(old(installs)) else None
    {
      Disconnect(tab);
      match dial
      case Unreachable =>
        return None;
      case UnknownHost(hostname, key) =>
        NoteUnknownKey(tab, hostname, key);
        return None;
      case Reached =>
        conn := Some(installs);
        connections := connections[tab := installs];
        installs := installs + 1;
    }

    method SetOutputHandler(tab: string, handler: nat)
      modifies this
      ensures State() == HandlerSet(old(State()), tab, handler)
    {
      handlers := handlers[tab := handler];
    }

    method AcceptHostKey(tab: string, writable: bool) returns (ok: bool)
      modifies this
      ensures ok == (tab in old(pendingKeys) && writable)
      ensures State() == Accepted(old(State()), tab, writable)
    {
      var pending := Lookup(pendingKeys, tab);
      if pending.None? || !writable {
        return false;
      }
      knownHosts := knownHosts + [(pending.value.hostname, pending.value.key)];
      if Lookup(pendingKeys, tab) == pending {
        pendingKeys := pendingKeys - {tab};
      }
      return true;
    }
  }

  // ------------------------------------------------------------ interleaving

  /** Where a goroutine stands between two of its critical sections. */
  datatype Task =
    | ConnectBegins
    | ConnectCloses(conn: Option<nat>)
    | ConnectDials
    | DisconnectBegins
    | DisconnectCloses(conn: Option<nat>)
    | Waits(waited: nat)
    | WaiterCloses(waited: nat)
    | AcceptBegins
    | AcceptWrites(pending: PendingKey)
    | AcceptDrops(pending: PendingKey)
    | SetsHandler(handler: nat)
    | Finished

  datatype Thread = Thread(tab: string, task: Task)

  /** History: where each connection that was ever installed is now. */
  datatype Place = Mapped(tab: string) | Closing(thread: nat) | Shut | Overwritten(tab: string)

  datatype State = State(shared: Shared, threads: seq<Thread>, places: map<nat, Place>)

  datatype Move = Start(begun: Thread) | Continue(thread: nat, dial: Dial)

  predicate Begins(task: Task) {
    task.ConnectBegins? || task.DisconnectBegins? || task.AcceptBegins? || task.SetsHandler?
  }

  function Took(s: State, i: nat, shared: Shared, task: Task): State
    requires i < |s.threads|
  {
    s.(shared := shared, threads := s.threads[i := s.threads[i].(task := task)])
  }

  function Moved(places: map<nat, Place>, conn: Option<nat>, place: Place): map<nat, Place> {
    match conn
    case Some(c) => places[c := place]
    case None => places
  }

  function Detach(s: State, i: nat, task: Task): State
    requires i < |s.threads|
  {
    var tab := s.threads[i].tab;
    Took(s, i, Detached(s.shared, tab), task).(places := Moved(s.places, Lookup(s.shared.connections, tab), Closing(i)))
  }

  function Close(s: State, i: nat, conn: Option<nat>, task: Task): State
    requires i < |s.threads|
  {
    Took(s, i, Closed(s.shared, conn), task).(places := Moved(s.places, conn, Shut))
  }

  function Install(s: State, i: nat): State
    requires i < |s.threads|
  {
    var tab := s.threads[i].tab;
    var c := s.shared.installs;
    var after := Took(s, i, Installed(s.shared, tab), Finished);
    after.(threads := after.threads + [Thread(tab, Waits(c))],
           places := Moved(s.places, Lookup(s.shared.connections, tab), Overwritten(tab))[c := Mapped(tab)])
  }

  function Step(s: State, move: Move): State {
    match move
    case Start(thread) => if Begins(thread.task) then s.(threads := s.threads + [thread]) else s
    case Continue(i, dial) =>
      if i >= |s.threads| then s
      else
        var tab := s.threads[i].tab;
        match s.threads[i].task
        case ConnectBegins => Detach(s, i, ConnectCloses(Lookup(s.shared.connections, tab)))
        case ConnectCloses(conn) => Close(s, i, conn, ConnectDials)
        case ConnectDials =>
          (match dial
           case Reached => Install(s, i)
           case Unreachable => Took(s, i, s.shared, Finished)
           case UnknownHost(hostname, key) => Took(s, i, KeyNoted(s.shared, tab, hostname, key), Finished))
        case DisconnectBegins => Detach(s, i, DisconnectCloses(Lookup(s.shared.connections, tab)))
        case DisconnectCloses(conn) => Close(s, i, conn, Finished)
        case Waits(c) => if Lookup(s.shared.connections, tab) == Some(c) then Detach(s, i, WaiterCloses(c)) else Took(s, i, s.shared, Finished)
        case WaiterCloses(c) => Close(s, i, Some(c), Finished)
        case AcceptBegins =>
          (match Lookup(s.shared.pendingKeys, tab)
           case Some(pending) => Took(s, i, s.shared, AcceptWrites(pending))
           case None => Took(s, i, s.shared, Finished))
        case AcceptWrites(pending) =>
          if dial.Reached? then Took(s, i, KeyWritten(s.shared, pending), AcceptDrops(pending)) else Took(s, i, s.shared, Finished)
        case AcceptDrops(pending) => Took(s, i, KeyDropped(s.shared, tab, pending), Finished)
        case SetsHandler(handler) => Took(s, i, HandlerSet(s.shared, tab, handler), Finished)
        case Finished => s
  }

  function Run(s: State, moves: seq<Move>): State {
    if moves == [] then s else Step(Run(s, moves[..|moves| - 1]), moves[|moves| - 1])
  }

  const IDLE := State(Shared(map[], map[], map[], 0, 0, [], []), [], map[])

  /** A goroutine that runs uninterrupted does what the method of the same name does. */
  lemma UninterruptedIsSequential(s: State, tab: string, dial: Dial)
    ensures var n := |s.threads|;
            && Step(Step(Step(s, Start(Thread(tab, DisconnectBegins))), Continue(n, dial)), Continue(n, dial)).shared
               == Disconnected(s.shared, tab)
            && Step(Step(Step(Step(s, Start(Thread(tab, ConnectBegins))), Continue(n, dial)), Continue(n, dial)), Continue(n, dial)).shared
               == Connected(s.shared, tab, dial)
            && Step(Step(Step(Step(s, Start(Thread(tab, AcceptBegins))), Continue(n, dial)), Continue(n, dial)), Continue(n, dial)).shared
               == Accepted(s.shared, tab, dial.Reached?)
  {
    hide Moved, Detached, Closed, Installed, KeyNoted, KeyWritten, KeyDropped;
  }

  /** So does a waiter. */
  lemma WaiterIsSequential(s: State, i: nat, c: nat, dial: Dial)
    requires i < |s.threads| && s.threads[i].task == Waits(c)
    ensures var tab := s.threads[i].tab;
            var mine := Lookup(s.shared.connections, tab) == Some(c);
            Step(Step(s, Continue(i, dial)), Continue(i, dial)).shared
            == Closed(DetachedIfCurrent(s.shared, tab, c), if mine then Some(c) else None)
  {
    hide Moved, Detached;
  }

  // -------------------------------------------------------------- invariant

  function ClosingNow(task: Task): Option<nat> {
    match task
    case ConnectCloses(conn) => conn
    case DisconnectCloses(conn) => conn
    case WaiterCloses(c) => Some(c)
    case _ => None
  }

  predicate Distinct(s: seq<nat>) {
    forall i, j :: 0 <= i < j < |s| ==> s[i] != s[j]
  }

  /** The mapped connections are the ones the history calls mapped. */
  ghost predicate MapPlaced(s: State) {
    && (forall c: nat :: c in s.places <==> c < s.shared.installs)
    && (forall t :: t in s.shared.connections ==> s.shared.connections[t] in s.places && s.places[s.shared.connections[t]] == Mapped(t))
    && (forall c :: c in s.places && s.places[c].Mapped? ==> Lookup(s.shared.connections, s.places[c].tab) == Some(c))
  }

  ghost predicate QueuePlaced(s: State) {
    && (forall i :: 0 <= i < |s.threads| && ClosingNow(s.threads[i].task).Some? ==>
          ClosingNow(s.threads[i].task).value in s.places && s.places[ClosingNow(s.threads[i].task).value] == Closing(i))
    && (forall c :: c in s.places && s.places[c].Closing? ==>
          s.places[c].thread < |s.threads| && ClosingNow(s.threads[s.places[c].thread].task) == Some(c))
  }

  ghost predicate ShutPlaced(s: State) {
    && (forall c :: c in s.shared.closed <==> c in s.places && s.places[c].Shut?)
    && Distinct(s.shared.closed)
  }

  /** Every connection ever installed is in exactly the place the history says. */
  ghost predicate Placed(s: State) {
    MapPlaced(s) && QueuePlaced(s) && ShutPlaced(s)
  }

  lemma QuietPlaced(s: State, i: nat, shared: Shared, task: Task)
    requires Placed(s) && i < |s.threads|
    requires shared.connections == s.shared.connections && shared.installs == s.shared.installs && shared.closed == s.shared.closed
    requires ClosingNow(s.threads[i].task).None? && ClosingNow(task).None?
    ensures Placed(Took(s, i, shared, task))
  {
  }

  lemma DetachMap(s: State, i: nat, task: Task)
    requires Placed(s) && i < |s.threads| && ClosingNow(s.threads[i].task).None?
    requires ClosingNow(task) == Lookup(s.shared.connections, s.threads[i].tab)
    ensures MapPlaced(Detach(s, i, task))
  {
    hide QueuePlaced, ShutPlaced;
  }

  lemma DetachQueue(s: State, i: nat, task: Task)
    requires Placed(s) && i < |s.threads| && ClosingNow(s.threads[i].task).None?
    requires ClosingNow(task) == Lookup(s.shared.connections, s.threads[i].tab)
    ensures QueuePlaced(Detach(s, i, task))
  {
    hide ShutPlaced;
  }

  lemma DetachShut(s: State, i: nat, task: Task)
    requires Placed(s) && i < |s.threads| && ClosingNow(s.threads[i].task).None?
    requires ClosingNow(task) == Lookup(s.shared.connections, s.threads[i].tab)
    ensures ShutPlaced(Detach(s, i, task))
  {
    hide QueuePlaced;
  }

  lemma DetachPlaced(s: State, i: nat, task: Task)
    requires Placed(s) && i < |s.threads| && ClosingNow(s.threads[i].task).None?
    requires ClosingNow(task) == Lookup(s.shared.connections, s.threads[i].tab)
    ensures Placed(Detach(s, i, task))
  {
    hide MapPlaced, QueuePlaced, ShutPlaced, Detach;
    DetachMap(s, i, task);
    DetachQueue(s, i, task);
    DetachShut(s, i, task);
  }

  lemma ClosePlaced(s: State, i: nat, conn: Option<nat>, task: Task)
    requires Placed(s) && i < |s.threads| && ClosingNow(s.threads[i].task) == conn && ClosingNow(task).None?
    ensures Placed(Close(s, i, conn, task))
  {
  }

  lemma InstallMap(s: State, i: nat)
    requires Placed(s) && i < |s.threads| && ClosingNow(s.threads[i].task).None?
    ensures MapPlaced(Install(s, i))
  {
    hide QueuePlaced, ShutPlaced;
  }

  lemma InstallQueue(s: State, i: nat)
    requires Placed(s) && i < |s.threads| && ClosingNow(s.threads[i].task).None?
    ensures QueuePlaced(Install(s, i))
  {
    hide ShutPlaced;
  }

  lemma InstallShut(s: State, i: nat)
    requires Placed(s) && i < |s.threads| && ClosingNow(s.threads[i].task).None?
    ensures ShutPlaced(Install(s, i))
  {
    hide QueuePlaced;
  }

  lemma InstallPlaced(s: State, i: nat)
    requires Placed(s) && i < |s.threads| && ClosingNow(s.threads[i].task).None?
    ensures Placed(Install(s, i))
  {
    hide MapPlaced, QueuePlaced, ShutPlaced, Install;
    InstallMap(s, i);
    InstallQueue(s, i);
    InstallShut(s, i);
  }

  lemma StepPlaced(s: State, move: Move)
    requires Placed(s)
    ensures Placed(Step(s, move))
  {
    hide Placed, Detach, Close, Install, Took;
    match move
    case Start(thread) =>
      if Begins(thread.task) {
        StartPlaced(s, thread);
      }
    case Continue(i, dial) =>
      if i < |s.threads| {
        var tab := s.threads[i].tab;
        match s.threads[i].task
        case ConnectBegins => DetachPlaced(s, i, ConnectCloses(Lookup(s.shared.connections, tab)));
        case ConnectCloses(conn) => ClosePlaced(s, i, conn, ConnectDials);
        case ConnectDials =>
          InstallPlaced(s, i);
          QuietPlaced(s, i, s.shared, Finished);
          if dial.UnknownHost? {
            QuietPlaced(s, i, KeyNoted(s.shared, tab, dial.hostname, dial.key), Finished);
          }
        case DisconnectBegins => DetachPlaced(s, i, DisconnectCloses(Lookup(s.shared.connections, tab)));
        case DisconnectCloses(conn) => ClosePlaced(s, i, conn, Finished);
        case Waits(c) =>
          if Lookup(s.shared.connections, tab) == Some(c) {
            DetachPlaced(s, i, WaiterCloses(c));
          } else {
            QuietPlaced(s, i, s.shared, Finished);
          }
        case WaiterCloses(c) => ClosePlaced(s, i, Some(c), Finished);
        case AcceptBegins =>
          QuietPlaced(s, i, s.shared, Finished);
          if tab in s.shared.pendingKeys {
            QuietPlaced(s, i, s.shared, AcceptWrites(s.shared.pendingKeys[tab]));
          }
        case AcceptWrites(pending) =>
          QuietPlaced(s, i, KeyWritten(s.shared, pending), AcceptDrops(pending));
          QuietPlaced(s, i, s.shared, Finished);
        case AcceptDrops(pending) => QuietPlaced(s, i, KeyDropped(s.shared, tab, pending), Finished);
        case SetsHandler(handler) => QuietPlaced(s, i, HandlerSet(s.shared, tab, handler), Finished);
        case Finished =>
      }
  }

  lemma StartPlaced(s: State, thread: Thread)
    requires Placed(s) && Begins(thread.task)
    ensures Placed(s.(threads := s.threads + [thread]))
  {
  }

  lemma {:induction false} RunPlaced(s: State, moves: seq<Move>)
    requires Placed(s)
    ensures Placed(Run(s, moves))
  {
    hide Placed, Step;
    if moves != [] {
      RunPlaced(s, moves[..|moves| - 1]);
      StepPlaced(Run(s, moves[..|moves| - 1]), moves[|moves| - 1]);
    }
  }

  /** Installed connections some goroutine has removed from the map and is about to close. */
  ghost function Queued(s: State): set<nat> {
    set i | 0 <= i < |s.threads| && ClosingNow(s.threads[i].task).Some? :: ClosingNow(s.threads[i].task).value
  }

  ghost function Leaked(s: State): set<nat> {
    set c | c in s.places && s.places[c].Overwritten?
  }

  ghost function Unclosed(s: State): set<nat> {
    set c | 0 <= c < s.shared.installs && c !in s.shared.closed
  }

  /** Under every interleaving: no connection is closed twice, and the open ones are the mapped, the queued and the overwritten ones. */
  lemma EveryConnectionIsAccounted(moves: seq<Move>)
    ensures var s := Run(IDLE, moves);
            && Distinct(s.shared.closed)
            && Unclosed(s) == s.shared.connections.Values + Queued(s) + Leaked(s)
            && s.shared.connections.Values !! Queued(s) !! Leaked(s)
            && (forall t, u :: t in s.shared.connections && u in s.shared.connections && s.shared.connections[t] == s.shared.connections[u] ==> t == u)
  {
    var s := Run(IDLE, moves);
    assert Placed(IDLE);
    RunPlaced(IDLE, moves);
    hide Run, Step;
    forall c | c in Unclosed(s) ensures c in s.shared.connections.Values + Queued(s) + Leaked(s) {
      assert c in s.places;
      if s.places[c].Mapped? {
        assert s.shared.connections[s.places[c].tab] == c;
      } else if s.places[c].Closing? {
        assert ClosingNow(s.threads[s.places[c].thread].task) == Some(c);
      }
    }
    forall c | c in s.shared.connections.Values + Queued(s) + Leaked(s) ensures c in Unclosed(s) {
      assert c in s.places && !s.places[c].Shut?;
    }
  }

  // ---------------------------------------------------------------- waiters

  /** A waiter for `c` never removes, closes or disturbs anything that belongs to another connection. */
  lemma WaiterTouchesOnlyItsOwn(s: State, i: nat, c: nat, dial: Dial)
    requires i < |s.threads| && (s.threads[i].task == Waits(c) || s.threads[i].task == WaiterCloses(c))
    ensures var before, after, tab := s.shared, Step(s, Continue(i, dial)).shared, s.threads[i].tab;
            && (after.closed == before.closed || after.closed == before.closed + [c])
            && (Lookup(before.connections, tab) != Some(c) ==> after == before.(closed := after.closed))
            && (forall t :: t != tab ==>
                  && Lookup(after.connections, t) == Lookup(before.connections, t)
                  && Lookup(after.handlers, t) == Lookup(before.handlers, t)
                  && Lookup(after.pendingKeys, t) == Lookup(before.pendingKeys, t))
            && (forall t :: t in before.connections && before.connections[t] != c ==> t in after.connections && after.connections[t] == before.connections[t])
  {
  }

  // ------------------------------------------------------------ overlapping

  predicate InConnect(task: Task) {
    task.ConnectBegins? || task.ConnectCloses? || task.ConnectDials?
  }

  /** At most one Connect at a time is under way on a tab. */
  ghost predicate NoOverlap(s: State) {
    forall i, j :: 0 <= i < j < |s.threads| && InConnect(s.threads[i].task) && InConnect(s.threads[j].task) ==> s.threads[i].tab != s.threads[j].tab
  }

  ghost predicate SerialConnects(s: State, moves: seq<Move>) {
    NoOverlap(Run(s, moves)) && (moves == [] || SerialConnects(s, moves[..|moves| - 1]))
  }

  /** While a Connect dials, its tab is vacant; nothing was overwritten. */
  ghost predicate Vacant(s: State) {
    && (forall i :: 0 <= i < |s.threads| && (s.threads[i].task.ConnectCloses? || s.threads[i].task.ConnectDials?) ==> s.threads[i].tab !in s.shared.connections)
    && (forall c :: c in s.places ==> !s.places[c].Overwritten?)
  }

  lemma InstallVacant(s: State, i: nat)
    requires Vacant(s) && NoOverlap(s) && i < |s.threads| && s.threads[i].task.ConnectDials?
    ensures Vacant(Install(s, i))
  {
    var tab := s.threads[i].tab;
    forall j | 0 <= j < |s.threads| && j != i && InConnect(s.threads[j].task) ensures s.threads[j].tab != tab {
      if j < i {
        assert InConnect(s.threads[i].task);
      }
    }
  }

  lemma TookVacant(s: State, i: nat, shared: Shared, task: Task)
    requires Vacant(s) && i < |s.threads| && shared.connections == s.shared.connections
    requires task.ConnectDials? ==> s.threads[i].task.ConnectCloses?
    requires !task.ConnectCloses?
    ensures Vacant(Took(s, i, shared, task))
  {
  }

  lemma DetachVacant(s: State, i: nat, task: Task)
    requires Vacant(s) && i < |s.threads|
    ensures Vacant(Detach(s, i, task))
  {
  }

  lemma CloseVacant(s: State, i: nat, conn: Option<nat>, task: Task)
    requires Vacant(s) && i < |s.threads| && !task.ConnectCloses? && (task.ConnectDials? ==> s.threads[i].task.ConnectCloses?)
    ensures Vacant(Close(s, i, conn, task))
  {
  }

  lemma StartVacant(s: State, thread: Thread)
    requires Vacant(s) && Begins(thread.task)
    ensures Vacant(s.(threads := s.threads + [thread]))
  {
  }

  lemma StepVacant(s: State, move: Move)
    requires Vacant(s) && NoOverlap(s)
    ensures Vacant(Step(s, move))
  {
    hide Vacant, NoOverlap, Detach, Close, Install, Took;
    match move
    case Start(thread) =>
      if Begins(thread.task) {
        StartVacant(s, thread);
      }
    case Continue(i, dial) =>
      if i < |s.threads| {
        var tab, task := s.threads[i].tab, s.threads[i].task;
        TookVacant(s, i, s.shared, Finished);
        DetachVacant(s, i, if task.Waits? then WaiterCloses(task.waited) else DisconnectCloses(Lookup(s.shared.connections, tab)));
        DetachVacant(s, i, ConnectCloses(Lookup(s.shared.connections, tab)));
        if task.ConnectCloses? {
          CloseVacant(s, i, task.conn, ConnectDials);
        } else if ClosingNow(task).Some? || task.DisconnectCloses? {
          CloseVacant(s, i, ClosingNow(task), Finished);
        } else if task.ConnectDials? {
          InstallVacant(s, i);
          if dial.UnknownHost? {
            TookVacant(s, i, KeyNoted(s.shared, tab, dial.hostname, dial.key), Finished);
          }
        } else if task.AcceptBegins? {
          if tab in s.shared.pendingKeys {
            TookVacant(s, i, s.shared, AcceptWrites(s.shared.pendingKeys[tab]));
          }
        } else if task.AcceptWrites? {
          TookVacant(s, i, KeyWritten(s.shared, task.pending), AcceptDrops(task.pending));
        } else if task.AcceptDrops? {
          TookVacant(s, i, KeyDropped(s.shared, tab, task.pending), Finished);
        } else if task.SetsHandler? {
          TookVacant(s, i, HandlerSet(s.shared, tab, task.handler), Finished);
        }
      }
  }

  lemma {:induction false} RunVacant(s: State, moves: seq<Move>)
    requires Vacant(s) && SerialConnects(s, moves)
    ensures Vacant(Run(s, moves))
  {
    hide Vacant, NoOverlap, Step;
    if moves != [] {
      var n := |moves| - 1;
      RunVacant(s, moves[..n]);
      StepVacant(Run(s, moves[..n]), moves[n]);
    }
  }

  /** When Connects on one tab never overlap, every unclosed connection is in the map or queued for closing. */
  lemma SerialConnectsLeakNothing(moves: seq<Move>)
    requires SerialConnects(IDLE, moves)
    ensures var s := Run(IDLE, moves); Leaked(s) == {} && Unclosed(s) == s.shared.connections.Values + Queued(s)
  {
    hide Run, Step;
    EveryConnectionIsAccounted(moves);
    RunVacant(IDLE, moves);
  }

  /** A step leaks exactly when a Connect installs over a connection that is still mapped. */
  lemma LeaksExactlyWhenOverwriting(s: State, move: Move)
    requires Placed(s)
    ensures Leaked(Step(s, move)) != Leaked(s) <==>
              && move.Continue? && move.thread < |s.threads| && s.threads[move.thread].task.ConnectDials?
              && move.dial.Reached? && s.threads[move.thread].tab in s.shared.connections
  {
    var s' := Step(s, move);
    if move.Continue? && move.thread < |s.threads| && s.threads[move.thread].task.ConnectDials?
       && move.dial.Reached? && s.threads[move.thread].tab in s.shared.connections {
      var c := s.shared.connections[s.threads[move.thread].tab];
      assert c in Leaked(s') && c !in Leaked(s);
    } else {
      forall c ensures c in Leaked(s') <==> c in Leaked(s) {
      }
    }
  }

  lemma LeakStays(s: State, move: Move, c: nat)
    requires Placed(s) && c in Leaked(s)
    ensures c in Leaked(Step(s, move))
  {
    assert c in s.places && s.places[c].Overwritten?;
  }

  /** Nothing ever closes an overwritten connection: not its waiter, not a later Disconnect. */
  lemma {:induction false} LeakIsForever(s: State, moves: seq<Move>, c: nat)
    requires Placed(s) && c in Leaked(s)
    ensures c in Leaked(Run(s, moves)) && c !in Run(s, moves).shared.closed
  {
    hide Placed, Step, Leaked;
    RunPlaced(s, moves);
    if moves != [] {
      var n := |moves| - 1;
      LeakIsForever(s, moves[..n], c);
      RunPlaced(s, moves[..n]);
      LeakStays(Run(s, moves[..n]), moves[n], c);
    }
    LeakedIsOpen(Run(s, moves), c);
  }

  lemma LeakedIsOpen(s: State, c: nat)
    requires Placed(s) && c in Leaked(s)
    ensures c !in s.shared.closed
  {
  }

  /** Two Connects on one tab that both dial before either installs. */
  function OverlappingConnects(n: nat, tab: string): seq<Move> {
    [Start(Thread(tab, ConnectBegins)), Start(Thread(tab, ConnectBegins))]
    + [Continue(n, Reached), Continue(n, Reached)]
    + [Continue(n + 1, Reached), Continue(n + 1, Reached)]
    + [Continue(n, Reached), Continue(n + 1, Reached)]
  }

  lemma ThenTwo(s: State, moves: seq<Move>, a: Move, b: Move)
    ensures Run(s, moves + [a, b]) == Step(Step(Run(s, moves), a), b)
  {
    hide Step;
    assert (moves + [a, b])[..|moves| + 1] == moves + [a];
    assert (moves + [a])[..|moves|] == moves;
  }

  /** A Connect up to its dialing: its tab is vacant and nobody else has moved. */
  lemma UpToDialing(s: State, i: nat)
    requires i < |s.threads| && s.threads[i].task.ConnectBegins?
    ensures var s' := Step(Step(s, Continue(i, Reached)), Continue(i, Reached));
            && s'.threads == s.threads[i := Thread(s.threads[i].tab, ConnectDials)]
            && s'.shared.installs == s.shared.installs
  {
  }

  lemma InstallTwice(s: State, n: nat, tab: string)
    requires |s.threads| == n + 2 && s.threads[n] == s.threads[n + 1] == Thread(tab, ConnectDials)
    ensures var s' := Step(Step(s, Continue(n, Reached)), Continue(n + 1, Reached));
            s.shared.installs in s'.places && s'.places[s.shared.installs] == Overwritten(tab)
  {
  }

  lemma StartTwo(s: State, thread: Thread)
    requires Begins(thread.task)
    ensures Run(s, [Start(thread), Start(thread)]) == s.(threads := s.threads + [thread, thread])
  {
    ThenTwo(s, [], Start(thread), Start(thread));
    assert [] + [Start(thread), Start(thread)] == [Start(thread), Start(thread)];
    assert s.threads + [thread] + [thread] == s.threads + [thread, thread];
  }

  /** From any state, two overlapping Connects on a tab lose the connection the first one installs. */
  lemma OverlappingConnectsLeak(s: State, tab: string)
    ensures var s' := Run(s, OverlappingConnects(|s.threads|, tab));
            s.shared.installs in s'.places && s'.places[s.shared.installs] == Overwritten(tab)
  {
    hide Run, Step;
    var n, begins := |s.threads|, Thread(tab, ConnectBegins);
    StartTwo(s, begins);
    var m1 := [Start(begins), Start(begins)];
    var m2 := m1 + [Continue(n, Reached), Continue(n, Reached)];
    var m3 := m2 + [Continue(n + 1, Reached), Continue(n + 1, Reached)];
    ThenTwo(s, m1, Continue(n, Reached), Continue(n, Reached));
    UpToDialing(Run(s, m1), n);
    ThenTwo(s, m2, Continue(n + 1, Reached), Continue(n + 1, Reached));
    UpToDialing(Run(s, m2), n + 1);
    ThenTwo(s, m3, Continue(n, Reached), Continue(n + 1, Reached));
    InstallTwice(Run(s, m3), n, tab);
  }

  // -------------------------------------------------------------- host keys

  predicate Holds(task: Task, p: PendingKey) {
    (task.AcceptWrites? || task.AcceptDrops?) && task.pending == p
  }

  predicate KeyOf(task: Task, shared: Shared) {
    && (task.AcceptWrites? || task.AcceptDrops? ==> task.pending.serial < shared.serials)
    && (task.AcceptDrops? ==> (task.pending.hostname, task.pending.key) in shared.knownHosts)
  }

  predicate KeysNoted(shared: Shared) {
    forall t :: t in shared.pendingKeys ==> shared.pendingKeys[t].serial < shared.serials
  }

  /** Serials grow, and an acceptor about to drop its key has written it. */
  predicate KeysInOrder(s: State) {
    KeysNoted(s.shared) && forall i :: 0 <= i < |s.threads| ==> KeyOf(s.threads[i].task, s.shared)
  }

  lemma TookKeys(s: State, i: nat, shared: Shared, task: Task, more: seq<Thread>, places: map<nat, Place>)
    requires KeysInOrder(s) && i < |s.threads|
    requires KeysNoted(shared) && KeyOf(task, shared) && forall j :: 0 <= j < |more| ==> KeyOf(more[j].task, shared)
    requires s.shared.serials <= shared.serials && s.shared.knownHosts <= shared.knownHosts
    ensures var s' := Took(s, i, shared, task); KeysInOrder(s'.(threads := s'.threads + more, places := places))
  {
    forall h | h in s.shared.knownHosts ensures h in shared.knownHosts {
      var k :| 0 <= k < |s.shared.knownHosts| && s.shared.knownHosts[k] == h;
      assert shared.knownHosts[k] == h;
    }
  }

  lemma StepKeys(s: State, move: Move)
    requires KeysInOrder(s)
    ensures KeysInOrder(Step(s, move)) && s.shared.serials <= Step(s, move).shared.serials
  {
    if move.Continue? && move.thread < |s.threads| {
      hide KeysInOrder, Moved;
      var i, s' := move.thread, Step(s, move);
      assert KeyOf(s.threads[i].task, s.shared) && KeysNoted(s.shared) by {
        KeysAt(s, i);
      }
      if s.threads[i].task.Finished? {
        assert s' == s;
      } else {
        var more := s'.threads[|s.threads|..];
        TookKeys(s, i, s'.shared, s'.threads[i].task, more, s'.places);
        assert Took(s, i, s'.shared, s'.threads[i].task).threads + more == s'.threads;
      }
    }
  }

  lemma KeysAt(s: State, i: nat)
    requires KeysInOrder(s) && i < |s.threads|
    ensures KeyOf(s.threads[i].task, s.shared) && KeysNoted(s.shared)
  {
  }

  lemma {:induction false} RunKeys(s: State, moves: seq<Move>)
    requires KeysInOrder(s)
    ensures KeysInOrder(Run(s, moves)) && s.shared.serials <= Run(s, moves).shared.serials
  {
    hide KeysInOrder, Step;
    if moves != [] {
      RunKeys(s, moves[..|moves| - 1]);
      StepKeys(Run(s, moves[..|moves| - 1]), moves[|moves| - 1]);
    }
  }

  /**
   In every run, when AcceptHostKey comes to drop a key it has written that very
   key to known_hosts, it drops no other, and a key noted since it read its own survives.
   */
  lemma AcceptDropsOnlyWhatItWrote(moves: seq<Move>, i: nat, p: PendingKey, dial: Dial)
    requires i < |Run(IDLE, moves).threads| && Run(IDLE, moves).threads[i].task == AcceptDrops(p)
    ensures var before, tab := Run(IDLE, moves).shared, Run(IDLE, moves).threads[i].tab;
            var after := Step(Run(IDLE, moves), Continue(i, dial)).shared;
            && (p.hostname, p.key) in before.knownHosts
            && (forall t :: t in before.pendingKeys && t !in after.pendingKeys ==> t == tab && before.pendingKeys[t] == p)
            && (forall t :: t in after.pendingKeys ==> Lookup(before.pendingKeys, t) == Some(after.pendingKeys[t]))
            && after == before.(pendingKeys := after.pendingKeys)
  {
    hide Run;
    assert KeysInOrder(IDLE);
    RunKeys(IDLE, moves);
  }

  /** A key noted for the tab after an acceptor read its own is still there when that acceptor is done. */
  lemma NewerKeySurvives(early: seq<Move>, later: seq<Move>, i: nat, p: PendingKey, q: PendingKey, dial: Dial)
    requires i < |Run(IDLE, early).threads| && Holds(Run(IDLE, early).threads[i].task, p)
    requires var s := Run(Run(IDLE, early), later);
             && i < |s.threads| && s.threads[i].task == AcceptDrops(p)
             && Lookup(s.shared.pendingKeys, s.threads[i].tab) == Some(q)
             && q.serial >= Run(IDLE, early).shared.serials
    ensures var s := Run(Run(IDLE, early), later);
            Lookup(Step(s, Continue(i, dial)).shared.pendingKeys, s.threads[i].tab) == Some(q)
  {
    hide Run;
    assert KeysInOrder(IDLE);
    RunKeys(IDLE, early);
    assert p.serial < q.serial;
  }

  // -------------------------------------------------- where host keys come from

  /** A Connect that meets an unknown host, and then an accept: known_hosts gains that host with that key, and nothing is pending for the tab. */
  lemma AcceptingTrustsWhatWasMet(s: Shared, tab: string, hostname: string, key: string, writable: bool)
    ensures var met := Connected(s, tab, UnknownHost(hostname, key));
            var after := Accepted(met, tab, writable);
            && met.knownHosts == s.knownHosts && tab !in met.connections
            && after.knownHosts == s.knownHosts + (if writable then [(hostname, key)] else [])
            && (tab in after.pendingKeys <==> !writable)
  {
  }

  /** A host that was met: on this tab, with this key. */
  datatype Meeting = Meeting(tab: string, hostname: string, key: string)

  /** What the step meets: a Connect that dials finds a host that is not known. */
  function MetBy(s: State, move: Move): set<Meeting> {
    if move.Continue? && move.thread < |s.threads| && s.threads[move.thread].task.ConnectDials? && move.dial.UnknownHost?
    then {Meeting(s.threads[move.thread].tab, move.dial.hostname, move.dial.key)} else {}
  }

  /** The unknown hosts met in a run. */
  function Met(s: State, moves: seq<Move>): set<Meeting> {
    if moves == [] then {} else Met(s, moves[..|moves| - 1]) + MetBy(Run(s, moves[..|moves| - 1]), moves[|moves| - 1])
  }

  predicate PendingMet(pending: map<string, PendingKey>, met: set<Meeting>) {
    forall t :: t in pending ==> Meeting(t, pending[t].hostname, pending[t].key) in met
  }

  predicate TaskMet(thread: Thread, met: set<Meeting>) {
    thread.task.AcceptWrites? || thread.task.AcceptDrops? ==> Meeting(thread.tab, thread.task.pending.hostname, thread.task.pending.key) in met
  }

  ghost predicate HostsMet(hosts: seq<(string, string)>, met: set<Meeting>) {
    forall i :: 0 <= i < |hosts| ==> MetSomewhere(hosts[i], met)
  }

  ghost predicate MetSomewhere(host: (string, string), met: set<Meeting>) {
    exists t :: Meeting(t, host.0, host.1) in met
  }

  ghost predicate AllMet(s: State, met: set<Meeting>) {
    && PendingMet(s.shared.pendingKeys, met) && HostsMet(s.shared.knownHosts, met)
    && forall i :: 0 <= i < |s.threads| ==> TaskMet(s.threads[i], met)
  }

  lemma TookMet(s: State, i: nat, shared: Shared, task: Task, met: set<Meeting>, more: set<Meeting>)
    requires AllMet(s, met) && i < |s.threads| && met <= more
    requires PendingMet(shared.pendingKeys, more) && HostsMet(shared.knownHosts, more) && TaskMet(Thread(s.threads[i].tab, task), more)
    ensures AllMet(Took(s, i, shared, task), more)
  {
  }

  lemma MetGrows(s: State, met: set<Meeting>, more: set<Meeting>)
    requires AllMet(s, met) && met <= more
    ensures AllMet(s, more)
  {
    forall i | 0 <= i < |s.shared.knownHosts| ensures MetSomewhere(s.shared.knownHosts[i], more) {
      assert MetSomewhere(s.shared.knownHosts[i], met);
      var t :| Meeting(t, s.shared.knownHosts[i].0, s.shared.knownHosts[i].1) in met;
      assert Meeting(t, s.shared.knownHosts[i].0, s.shared.knownHosts[i].1) in more;
    }
    forall i | 0 <= i < |s.threads| ensures TaskMet(s.threads[i], more) {
      assert TaskMet(s.threads[i], met);
    }
  }

  lemma StepMet(s: State, move: Move, met: set<Meeting>)
    requires AllMet(s, met)
    ensures AllMet(Step(s, move), met + MetBy(s, move))
  {
    var more := met + MetBy(s, move);
    MetGrows(s, met, more);
    if move.Continue? && move.thread < |s.threads| {
      hide AllMet, HostsMet;
      var i, s' := move.thread, Step(s, move);
      MetAt(s, i, more);
      var task := s'.threads[i].task;
      WrittenMet(s, i, move.dial, more);
      TookMet(s, i, s'.shared, task, more, more);
      SpawnedMet(Took(s, i, s'.shared, task), s', more);
    } else {
      StartMet(s, move, more);
    }
  }

  lemma MetAt(s: State, i: nat, met: set<Meeting>)
    requires AllMet(s, met) && i < |s.threads|
    ensures PendingMet(s.shared.pendingKeys, met) && HostsMet(s.shared.knownHosts, met) && TaskMet(s.threads[i], met)
  {
  }

  lemma StartMet(s: State, move: Move, met: set<Meeting>)
    requires AllMet(s, met) && (move.Start? || move.thread >= |s.threads|)
    ensures AllMet(Step(s, move), met)
  {
  }

  lemma WrittenMet(s: State, i: nat, dial: Dial, met: set<Meeting>)
    requires i < |s.threads| && HostsMet(s.shared.knownHosts, met) && TaskMet(s.threads[i], met)
    ensures HostsMet(Step(s, Continue(i, dial)).shared.knownHosts, met)
  {
    var task, hosts := s.threads[i].task, Step(s, Continue(i, dial)).shared.knownHosts;
    if task.AcceptWrites? && dial.Reached? {
      assert Meeting(s.threads[i].tab, task.pending.hostname, task.pending.key) in met;
      assert MetSomewhere((task.pending.hostname, task.pending.key), met);
      assert hosts == s.shared.knownHosts + [(task.pending.hostname, task.pending.key)];
    } else {
      assert hosts == s.shared.knownHosts;
    }
  }

  lemma SpawnedMet(a: State, b: State, met: set<Meeting>)
    requires AllMet(a, met) && b.shared == a.shared && a.threads <= b.threads
    requires forall j :: |a.threads| <= j < |b.threads| ==> b.threads[j].task.Waits?
    ensures AllMet(b, met)
  {
  }

  lemma {:induction false} RunMet(s: State, moves: seq<Move>, met: set<Meeting>)
    requires AllMet(s, met)
    ensures AllMet(Run(s, moves), met + Met(s, moves))
  {
    hide AllMet, Step, MetBy;
    if moves == [] {
      assert met + Met(s, moves) == met;
    } else {
      var n := |moves| - 1;
      RunMet(s, moves[..n], met);
      StepMet(Run(s, moves[..n]), moves[n], met + Met(s, moves[..n]));
      assert met + Met(s, moves[..n]) + MetBy(Run(s, moves[..n]), moves[n]) == met + Met(s, moves);
    }
  }

  /**
   Under every interleaving, each host and key in known_hosts is one that some Connect of
   the run met as unknown, and each key that awaits the user was met so on its own tab.
   */
  lemma EveryTrustedKeyWasMet(moves: seq<Move>)
    ensures var s := Run(IDLE, moves);
            && (forall i :: 0 <= i < |s.shared.knownHosts| ==> MetSomewhere(s.shared.knownHosts[i], Met(IDLE, moves)))
            && (forall t :: t in s.shared.pendingKeys ==>
                  Meeting(t, s.shared.pendingKeys[t].hostname, s.shared.pendingKeys[t].key) in Met(IDLE, moves))
  {
    assert AllMet(IDLE, {});
    RunMet(IDLE, moves, {});
    hide Run, Met;
    assert {} + Met(IDLE, moves) == Met(IDLE, moves);
  }

  // ---------------------------------------------------------- one tab at a time

  predicate SameOn(a: Shared, b: Shared, tab: string) {
    && Lookup(a.connections, tab) == Lookup(b.connections, tab)
    && Lookup(a.handlers, tab) == Lookup(b.handlers, tab)
    && Lookup(a.pendingKeys, tab) == Lookup(b.pendingKeys, tab)
  }

  /** A Connect closes what the tab held, once, and leaves the tab with the new connection, the key to ask about, or nothing; other tabs keep theirs. */
  lemma ConnectTakesOver(s: Shared, tab: string, dial: Dial, other: string)
    ensures var t := Connected(s, tab, dial);
            && t.closed == s.closed + (if tab in s.connections then [s.connections[tab]] else [])
            && Lookup(t.connections, tab) == (if dial.Reached? then Some(s.installs) else None)
            && (tab in t.pendingKeys <==> dial.UnknownHost?) && tab !in t.handlers
            && (dial.UnknownHost? ==> t.pendingKeys[tab].hostname == dial.hostname && t.pendingKeys[tab].key == dial.key)
            && t.installs == s.installs + (if dial.Reached? then 1 else 0)
            && (other != tab ==> SameOn(s, t, other)) && t.knownHosts == s.knownHosts
  {
  }

  /** A Disconnect closes what the tab held, once, and leaves the tab with nothing; a second one does nothing. */
  lemma DisconnectEmptiesTab(s: Shared, tab: string, other: string)
    ensures var t := Disconnected(s, tab);
            && t.closed == s.closed + (if tab in s.connections then [s.connections[tab]] else [])
            && tab !in t.connections && tab !in t.handlers && tab !in t.pendingKeys
            && (other != tab ==> SameOn(s, t, other))
            && t.installs == s.installs && t.knownHosts == s.knownHosts
            && Disconnected(t, tab) == t
  {
  }

  /** A handler is set for its tab alone, and lasts until the tab is next connected or disconnected. */
  lemma HandlerLastsUntilDisconnect(s: Shared, tab: string, handler: nat, other: string, dial: Dial)
    ensures var t := HandlerSet(s, tab, handler);
            && Lookup(t.handlers, tab) == Some(handler) && t.connections == s.connections && t.pendingKeys == s.pendingKeys
            && (other != tab ==> SameOn(s, t, other) && Lookup(Disconnected(t, other).handlers, tab) == Some(handler))
            && tab !in Disconnected(t, tab).handlers && tab !in Connected(t, tab, dial).handlers
  {
  }
}
