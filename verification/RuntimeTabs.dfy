/**
 The open tabs of a workspace, kept as a map and an order by two stores with
 different bodies. Both refine one ordered list of tabs.
 Models the runtime tabs of internal/storage/disk/store.go and
 internal/storage/memory/store.go.
 */
module RuntimeTabs {
  import opened Text

  datatype Tab = Tab(id: string, title: string, protocolID: string, profileID: string, status: string, description: string)

  datatype Event = Event(id: string, kind: string, subject: string)

  // ------------------------------------------------------- ordered list

  /** What a user sees: the tabs in order, the active one, and the events so far. */
  datatype Workspace = Workspace(tabs: seq<Tab>, active: string, events: seq<Event>)

  datatype Operation = Open(tab: Tab) | Close(id: string)

  predicate Distinct(tabs: seq<Tab>) {
    forall i, j :: 0 <= i < j < |tabs| ==> tabs[i].id != tabs[j].id
  }

  function Find(tabs: seq<Tab>, id: string): (r: Option<nat>)
    ensures r.Some? ==> r.value < |tabs| && tabs[r.value].id == id
    ensures r.None? ==> forall i :: 0 <= i < |tabs| ==> tabs[i].id != id
  {
    if tabs == [] then None
    else if tabs[|tabs| - 1].id == id then Some(|tabs| - 1)
    else Find(tabs[..|tabs| - 1], id)
  }

  function Logged(events: seq<Event>, kind: string, subject: string): seq<Event> {
    events + [Event("event-" + Decimal(|events| + 1), kind, subject)]
  }

  /** An open tab is replaced where it is; a new one goes last. Either way it becomes the active one. */
  function Opened(w: Workspace, tab: Tab): Workspace {
    var tabs := match Find(w.tabs, tab.id)
                case Some(i) => w.tabs[i := tab]
                case None => w.tabs + [tab];
    Workspace(tabs, tab.id, Logged(w.events, "session.opened", tab.title))
  }

  /** The tab that moves into the closed one's place becomes active, or the last one if there is none. */
  function Closed(w: Workspace, id: string): Workspace {
    match Find(w.tabs, id)
    case None => w
    case Some(i) =>
      var tabs := w.tabs[..i] + w.tabs[i + 1..];
      var active := if tabs == [] then "" else if i < |tabs| then tabs[i].id else tabs[|tabs| - 1].id;
      Workspace(tabs, active, Logged(w.events, "session.closed", id))
  }

  function Applied(w: Workspace, op: Operation): Workspace {
    match op
    case Open(tab) => Opened(w, tab)
    case Close(id) => Closed(w, id)
  }

  function AppliedAll(w: Workspace, ops: seq<Operation>): Workspace {
    if ops == [] then w else Applied(AppliedAll(w, ops[..|ops| - 1]), ops[|ops| - 1])
  }

  const EMPTY := Workspace([], "", [])

  /** Identifiers are distinct, and the active tab is open whenever any tab is. */
  predicate Consistent(w: Workspace) {
    && Distinct(w.tabs)
    && (if w.tabs == [] then w.active == "" else exists i :: 0 <= i < |w.tabs| && w.tabs[i].id == w.active)
  }

  lemma AppliedIsConsistent(w: Workspace, op: Operation)
    requires Consistent(w)
    ensures Consistent(Applied(w, op))
  {
    hide Find;
    match op
    case Open(tab) =>
      var tabs := Applied(w, op).tabs;
      var i := if Find(w.tabs, tab.id).Some? then Find(w.tabs, tab.id).value else |w.tabs|;
      assert tabs[i].id == tab.id;
    case Close(id) =>
      if Find(w.tabs, id).Some? {
        var i, tabs := Find(w.tabs, id).value, Applied(w, op).tabs;
        assert tabs != [] ==> tabs[if i < |tabs| then i else |tabs| - 1].id == Applied(w, op).active;
      }
  }

  lemma {:induction false} EveryWorkspaceIsConsistent(ops: seq<Operation>)
    ensures Consistent(AppliedAll(EMPTY, ops))
  {
    hide Consistent, Applied;
    if ops == [] {
      assert Consistent(EMPTY) by { EmptyIsConsistent(); }
    } else {
      EveryWorkspaceIsConsistent(ops[..|ops| - 1]);
      AppliedIsConsistent(AppliedAll(EMPTY, ops[..|ops| - 1]), ops[|ops| - 1]);
    }
  }

  lemma EmptyIsConsistent()
    ensures Consistent(EMPTY)
  {
  }

  predicate Named(ops: seq<Operation>) {
    forall i :: 0 <= i < |ops| && ops[i].Open? ==> ops[i].tab.id != ""
  }

  lemma {:induction false} TabsAreNamed(ops: seq<Operation>)
    requires Named(ops)
    ensures forall i :: 0 <= i < |AppliedAll(EMPTY, ops).tabs| ==> AppliedAll(EMPTY, ops).tabs[i].id != ""
  {
    hide Find, Logged;
    if ops != [] {
      TabsAreNamed(ops[..|ops| - 1]);
    }
  }

  /** As long as no tab has an empty identifier, the active identifier is empty exactly when nothing is open. */
  lemma ActiveIsEmptyIffNoneOpen(ops: seq<Operation>)
    requires Named(ops)
    ensures AppliedAll(EMPTY, ops).active == "" <==> AppliedAll(EMPTY, ops).tabs == []
  {
    EveryWorkspaceIsConsistent(ops);
    TabsAreNamed(ops);
  }

  /** Opening a fresh tab and closing it again leaves the tabs as they were and activates the last of them. */
  lemma CloseUndoesOpen(w: Workspace, tab: Tab)
    requires Find(w.tabs, tab.id).None?
    ensures Closed(Opened(w, tab), tab.id).tabs == w.tabs
    ensures Closed(Opened(w, tab), tab.id).active == if w.tabs == [] then "" else w.tabs[|w.tabs| - 1].id
  {
    hide Logged;
    assert (w.tabs + [tab])[..|w.tabs|] == w.tabs;
  }

  predicate Listed(w: Workspace, tab: Tab) {
    exists i :: 0 <= i < |w.tabs| && w.tabs[i] == tab
  }

  /** Opening keeps every other tab where it is, lists the opened one once, last if it is new, and makes it active. */
  lemma OpenTells(w: Workspace, tab: Tab, i: nat)
    requires Distinct(w.tabs)
    ensures var t := Opened(w, tab);
            && t.active == tab.id && Distinct(t.tabs) && Listed(t, tab)
            && |t.tabs| == |w.tabs| + (if exists j :: 0 <= j < |w.tabs| && w.tabs[j].id == tab.id then 0 else 1)
            && (i < |w.tabs| ==> t.tabs[i] == if w.tabs[i].id == tab.id then tab else w.tabs[i])
            && t.events == w.events + [Event("event-" + Decimal(|w.events| + 1), "session.opened", tab.title)]
  {
    hide Find, Decimal;
    var found := Find(w.tabs, tab.id);
    var k := if found.Some? then found.value else |w.tabs|;
    assert Opened(w, tab).tabs[k] == tab;
  }

  /** Closing keeps all other tabs in order, and activates the one after the closed tab or, for the last, the one before it. */
  lemma CloseTells(w: Workspace, i: nat)
    requires Distinct(w.tabs) && i < |w.tabs|
    ensures var t := Closed(w, w.tabs[i].id);
            && |t.tabs| == |w.tabs| - 1
            && (forall j :: 0 <= j < i ==> t.tabs[j] == w.tabs[j]) && (forall j :: i < j < |w.tabs| ==> t.tabs[j - 1] == w.tabs[j])
            && t.active == (if i + 1 < |w.tabs| then w.tabs[i + 1].id else if i > 0 then w.tabs[i - 1].id else "")
            && t.events == w.events + [Event("event-" + Decimal(|w.events| + 1), "session.closed", w.tabs[i].id)]
  {
    hide Find, Decimal;
    var found := Find(w.tabs, w.tabs[i].id);
    assert found == Some(i);
  }

  /**
   Closing a tab that is not the active one keeps the active one exactly when that stands
   right after it, or right before it at the end; otherwise another tab becomes active.
   */
  lemma BackgroundCloseKeepsActiveExactly(w: Workspace, i: nat, a: nat)
    requires Distinct(w.tabs) && i < |w.tabs| && a < |w.tabs| && a != i && w.active == w.tabs[a].id
    ensures Closed(w, w.tabs[i].id).active == w.active <==> a == i + 1 || (i + 1 == |w.tabs| && a == i - 1)
  {
    CloseTells(w, i);
    hide Closed;
  }

  /** Closing the first of three tabs while the last is active makes the middle one active. */
  lemma BackgroundCloseMovesActive(w: Workspace)
    requires Distinct(w.tabs) && |w.tabs| == 3 && w.active == w.tabs[2].id
    ensures Closed(w, w.tabs[0].id).active == w.tabs[1].id != w.active
  {
    CloseTells(w, 0);
  }

  /** The n-th event of a workspace that starts empty. */
  function EventID(n: nat): string {
    "event-" + Decimal(n + 1)
  }

  /** Over every sequence of operations events are numbered from one. */
  lemma {:induction false} EventsAreNumbered(ops: seq<Operation>, i: nat)
    requires i < |AppliedAll(EMPTY, ops).events|
    ensures AppliedAll(EMPTY, ops).events[i].id == EventID(i)
  {
    hide Applied, Decimal;
    var before := AppliedAll(EMPTY, ops[..|ops| - 1]);
    OneEventAtMost(before, ops[|ops| - 1]);
    if i < |before.events| {
      EventsAreNumbered(ops[..|ops| - 1], i);
      assert AppliedAll(EMPTY, ops).events[..|before.events|][i] == before.events[i];
    }
  }

  lemma OneEventAtMost(w: Workspace, op: Operation)
    ensures var events := Applied(w, op).events;
            events == w.events
            || (|events| == |w.events| + 1 && events[..|w.events|] == w.events && events[|w.events|].id == "event-" + Decimal(|w.events| + 1))
  {
    hide Find, Decimal;
  }

  /** So no two events have the same identifier. */
  lemma EventsAreDistinct(ops: seq<Operation>, i: nat, j: nat)
    requires i < j < |AppliedAll(EMPTY, ops).events|
    ensures AppliedAll(EMPTY, ops).events[i].id != AppliedAll(EMPTY, ops).events[j].id
  {
    EventsAreNumbered(ops, i);
    EventsAreNumbered(ops, j);
    if AppliedAll(EMPTY, ops).events[i].id == AppliedAll(EMPTY, ops).events[j].id {
      NumberedIsInjective("event-", i + 1, j + 1);
    }
  }

  // ---------------------------------------------------- map and order

  ghost predicate Enumerates(tabs: map<string, Tab>, order: seq<string>) {
    && (forall i, j :: 0 <= i < j < |order| ==> order[i] != order[j])
    && (forall id :: id in order <==> id in tabs)
    && (forall id :: id in tabs ==> tabs[id].id == id)
  }

  function Listing(tabs: map<string, Tab>, order: seq<string>): (r: seq<Tab>)
    requires forall i :: 0 <= i < |order| ==> order[i] in tabs
    ensures |r| == |order| && forall i :: 0 <= i < |r| ==> r[i] == tabs[order[i]]
  {
    seq(|order|, i requires 0 <= i < |order| => tabs[order[i]])
  }

  /** The position of an identifier in an order that lists it once. */
  lemma FindInListing(tabs: map<string, Tab>, order: seq<string>, id: string)
    requires Enumerates(tabs, order)
    ensures Find(Listing(tabs, order), id).Some? <==> id in tabs
    ensures Distinct(Listing(tabs, order))
    ensures forall i :: 0 <= i < |order| && order[i] == id ==> Find(Listing(tabs, order), id) == Some(i)
  {
    hide Find;
    var list := Listing(tabs, order);
    if id in tabs {
      var i :| 0 <= i < |order| && order[i] == id;
      assert list[i].id == id;
    }
  }

  lemma OpenedListing(tabs: map<string, Tab>, order: seq<string>, w: Workspace, tab: Tab)
    requires Enumerates(tabs, order) && w.tabs == Listing(tabs, order)
    ensures var tabs', order' := tabs[tab.id := tab], if tab.id in tabs then order else order + [tab.id];
            Enumerates(tabs', order') && Opened(w, tab).tabs == Listing(tabs', order')
  {
    hide Find, Logged, Listing;
    FindInListing(tabs, order, tab.id);
  }

  lemma EnumeratesWithout(tabs: map<string, Tab>, order: seq<string>, i: nat)
    requires Enumerates(tabs, order) && i < |order|
    ensures Enumerates(tabs - {order[i]}, order[..i] + order[i + 1..])
  {
    var order' := order[..i] + order[i + 1..];
    forall id ensures id in order' <==> id in tabs - {order[i]} {
      if id in tabs - {order[i]} {
        var k :| 0 <= k < |order| && order[k] == id;
        assert order'[if k < i then k else k - 1] == id;
      }
    }
  }

  lemma ClosedMissing(tabs: map<string, Tab>, order: seq<string>, w: Workspace, id: string)
    requires Enumerates(tabs, order) && w.tabs == Listing(tabs, order) && id !in tabs
    ensures Closed(w, id) == w
  {
    FindInListing(tabs, order, id);
  }

  lemma ListingWithout(tabs: map<string, Tab>, order: seq<string>, i: nat)
    requires i < |order| && Enumerates(tabs, order) && Enumerates(tabs - {order[i]}, order[..i] + order[i + 1..])
    ensures Listing(tabs - {order[i]}, order[..i] + order[i + 1..]) == Listing(tabs, order)[..i] + Listing(tabs, order)[i + 1..]
  {
  }

  lemma ListingIDs(tabs: map<string, Tab>, order: seq<string>)
    requires Enumerates(tabs, order)
    ensures forall k :: 0 <= k < |order| ==> Listing(tabs, order)[k].id == order[k]
  {
  }

  lemma ClosedListing(tabs: map<string, Tab>, order: seq<string>, w: Workspace, i: nat)
    requires Enumerates(tabs, order) && w.tabs == Listing(tabs, order) && i < |order|
    ensures var tabs', order' := tabs - {order[i]}, order[..i] + order[i + 1..];
            && Enumerates(tabs', order')
            && Closed(w, order[i]) ==
               Workspace(Listing(tabs', order'),
                         if order' == [] then "" else if i < |order'| then order'[i] else order'[|order'| - 1],
                         Logged(w.events, "session.closed", order[i]))
  {
    FindInListing(tabs, order, order[i]);
    EnumeratesWithout(tabs, order, i);
    ListingWithout(tabs, order, i);
    ListingIDs(tabs - {order[i]}, order[..i] + order[i + 1..]);
    hide Find, Logged, Enumerates, Listing;
  }

  /** What the filtering loop leaves of an order, and where it met the identifier. */
  predicate Filtered(order: seq<string>, id: string, filtered: seq<string>, removedIndex: int) {
    if removedIndex < 0 then removedIndex == -1 && id !in order && filtered == order
    else removedIndex < |order| && order[removedIndex] == id && filtered == order[..removedIndex] + order[removedIndex + 1..]
  }

  method FilterOrder(order: seq<string>, id: string, ghost tabs: map<string, Tab>) returns (filtered: seq<string>, removedIndex: int)
    requires Enumerates(tabs, order) && id in tabs
    ensures 0 <= removedIndex < |order| && order[removedIndex] == id
    ensures filtered == order[..removedIndex] + order[removedIndex + 1..]
  {
    filtered, removedIndex := [], -1;
    for index := 0 to |order|
      invariant Filtered(order[..index], id, filtered, removedIndex)
    {
      if order[index] != id {
        filtered := filtered + [order[index]];
      } else {
        removedIndex := index;
      }
    }
    assert order[..|order|] == order;
  }

  class DiskStore {
    var runtimeTabs: map<string, Tab>
    var runtimeOrder: seq<string>
    var activeTabID: string
    var events: seq<Event>
    var eventCounter: nat

    ghost predicate Valid()
      reads this
    {
      Enumerates(runtimeTabs, runtimeOrder) && eventCounter == |events|
    }

    ghost function View(): Workspace
      reads this
      requires Valid()
    {
      Workspace(Listing(runtimeTabs, runtimeOrder), activeTabID, events)
    }

    constructor ()
      ensures Valid() && View() == EMPTY
    {
      runtimeTabs, runtimeOrder, activeTabID, events, eventCounter := map[], [], "", [], 0;
    }

    method NextEventID() returns (id: string)
      modifies `eventCounter
      ensures eventCounter == old(eventCounter) + 1 && id == "event-" + Decimal(eventCounter)
    {
      eventCounter := eventCounter + 1;
      id := "event-" + Decimal(eventCounter);
    }

    method OpenRuntimeTab(tab: Tab)
      requires Valid()
      modifies this
      ensures Valid() && View() == Opened(old(View()), tab)
    {
      hide Enumerates, Decimal;
      OpenedListing(runtimeTabs, runtimeOrder, View(), tab);
      if tab.id !in runtimeTabs {
        runtimeOrder := runtimeOrder + [tab.id];
      }
      runtimeTabs := runtimeTabs[tab.id := tab];
      activeTabID := tab.id;
      var id := NextEventID();
      events := events + [Event(id, "session.opened", tab.title)];
    }

    method CloseRuntimeTab(sessionID: string) returns (closed: bool)
      requires Valid()
      modifies this
      ensures Valid() && View() == Closed(old(View()), sessionID) && closed == (sessionID in old(runtimeTabs))
    {
      hide Decimal, Enumerates, Find, Listing, Closed;
      if sessionID !in runtimeTabs {
        ClosedMissing(runtimeTabs, runtimeOrder, View(), sessionID);
        return false;
      }
      var filtered, removedIndex := FilterOrder(runtimeOrder, sessionID, runtimeTabs);
      ClosedListing(runtimeTabs, runtimeOrder, View(), removedIndex);
      runtimeTabs := runtimeTabs - {sessionID};
      runtimeOrder := filtered;
      var id := NextEventID();
      events := events + [Event(id, "session.closed", sessionID)];
      if |runtimeOrder| == 0 {
        activeTabID := "";
        return true;
      }
      var nextIndex := removedIndex;
      if nextIndex >= |runtimeOrder| {
        nextIndex := |runtimeOrder| - 1;
      }
      if nextIndex < 0 {
        nextIndex := 0;
      }
      activeTabID := runtimeOrder[nextIndex];
      return true;
    }

    method RuntimeTabs() returns (result: seq<Tab>)
      requires Valid()
      ensures result == View().tabs
    {
      result := [];
      for i := 0 to |runtimeOrder|
        invariant result == Listing(runtimeTabs, runtimeOrder)[..i]
      {
        result := result + [runtimeTabs[runtimeOrder[i]]];
      }
    }

    method Perform(ops: seq<Operation>)
      requires Valid()
      modifies this
      ensures Valid() && View() == AppliedAll(old(View()), ops)
    {
      hide Opened, Closed, Enumerates;
      for i := 0 to |ops|
        invariant Valid() && View() == AppliedAll(old(View()), ops[..i])
      {
        assert ops[..i + 1][..i] == ops[..i];
        match ops[i]
        case Open(tab) => OpenRuntimeTab(tab);
        case Close(id) => var _ := CloseRuntimeTab(id);
      }
      assert ops[..|ops|] == ops;
    }
  }

  class MemoryStore {
    var runtimeTabs: map<string, Tab>
    var runtimeOrder: seq<string>
    var activeTabID: string
    var events: seq<Event>
    var eventCounter: nat

    ghost predicate Valid()
      reads this
    {
      Enumerates(runtimeTabs, runtimeOrder) && eventCounter == |events|
    }

    ghost function View(): Workspace
      reads this
      requires Valid()
    {
      Workspace(Listing(runtimeTabs, runtimeOrder), activeTabID, events)
    }

    constructor ()
      ensures Valid() && View() == EMPTY
    {
      runtimeTabs, runtimeOrder, activeTabID, events, eventCounter := map[], [], "", [], 0;
    }

    method NextEventID() returns (id: string)
      modifies `eventCounter
      ensures eventCounter == old(eventCounter) + 1 && id == "event-" + Decimal(eventCounter)
    {
      eventCounter := eventCounter + 1;
      id := "event-" + Decimal(eventCounter);
    }

    method OpenRuntimeTab(tab: Tab)
      requires Valid()
      modifies this
      ensures Valid() && View() == Opened(old(View()), tab)
    {
      hide Enumerates, Decimal;
      OpenedListing(runtimeTabs, runtimeOrder, View(), tab);
      if tab.id !in runtimeTabs {
        runtimeOrder := runtimeOrder + [tab.id];
      }
      runtimeTabs := runtimeTabs[tab.id := tab];
      activeTabID := tab.id;
      var id := NextEventID();
      events := events + [Event(id, "session.opened", tab.title)];
    }

    /** The event is logged before the order is replaced, and only if the order listed the tab. */
    method CloseRuntimeTab(sessionID: string) returns (closed: bool)
      requires Valid()
      modifies this
      ensures Valid() && View() == Closed(old(View()), sessionID) && closed == (sessionID in old(runtimeTabs))
    {
      hide Decimal, Enumerates, Find, Listing, Closed;
      if sessionID !in runtimeTabs {
        ClosedMissing(runtimeTabs, runtimeOrder, View(), sessionID);
        return false;
      }
      var filteredOrder, removedIndex := FilterOrder(runtimeOrder, sessionID, runtimeTabs);
      ClosedListing(runtimeTabs, runtimeOrder, View(), removedIndex);
      runtimeTabs := runtimeTabs - {sessionID};
      if removedIndex >= 0 {
        var id := NextEventID();
        events := events + [Event(id, "session.closed", sessionID)];
      }
      runtimeOrder := filteredOrder;
      if |runtimeOrder| > 0 {
        var nextIndex := removedIndex;
        if nextIndex >= |runtimeOrder| {
          nextIndex := |runtimeOrder| - 1;
        }
        if nextIndex < 0 {
          nextIndex := 0;
        }
        activeTabID := runtimeOrder[nextIndex];
      } else {
        activeTabID := "";
      }
      return true;
    }

    method Perform(ops: seq<Operation>)
      requires Valid()
      modifies this
      ensures Valid() && View() == AppliedAll(old(View()), ops)
    {
      hide Opened, Closed, Enumerates;
      for i := 0 to |ops|
        invariant Valid() && View() == AppliedAll(old(View()), ops[..i])
      {
        assert ops[..i + 1][..i] == ops[..i];
        match ops[i]
        case Open(tab) => OpenRuntimeTab(tab);
        case Close(id) => var _ := CloseRuntimeTab(id);
      }
      assert ops[..|ops|] == ops;
    }
  }

  /** The two stores show the same tabs, active tab and events after every sequence of operations. */
  method StoresAgree(ops: seq<Operation>) returns (disk: DiskStore, memory: MemoryStore)
    ensures disk.Valid() && memory.Valid() && disk.View() == memory.View() == AppliedAll(EMPTY, ops)
    ensures Consistent(disk.View())
  {
    hide Consistent, Applied, Enumerates;
    disk := new DiskStore();
    memory := new MemoryStore();
    disk.Perform(ops);
    memory.Perform(ops);
    EveryWorkspaceIsConsistent(ops);
  }
}
