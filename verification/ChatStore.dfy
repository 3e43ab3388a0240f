/**
 Chat sessions of the disk store: the live messages mirror the active session's
 entry, history is kept encrypted in the secret store, a failed update is rolled
 back in memory, and locking empties the live messages that unlocking restores.
 Models the chat-session part of internal/storage/disk/store.go.
 */
module ChatStore {
  import opened Text
  import CommandPolicy
  import S = SecureStorage
  import T = ToolCalling

  type ChatMessage = T.ChatMessage

  datatype ChatSession = ChatSession(id: string, title: string, messages: seq<ChatMessage>)

  /** What the store keeps for the service beside the chat. */
  datatype Rest = Rest(providers: seq<T.Provider>, policy: CommandPolicy.Policy, pendingCall: Option<T.PendingCall>)

  datatype AIState = AIState(sessions: seq<ChatSession>, active: string, messages: seq<ChatMessage>, rest: Rest)

  /** A stored secret: any text, a chat history, or a history in the older format, which may be null. */
  datatype Secret = Words(text: string) | Chats(sessions: seq<ChatSession>, legacy: seq<ChatMessage>) | Messages(messages: Option<seq<ChatMessage>>)

  /** What the settings file holds of it, and the unencrypted history an older version left there; a saved continuation is not written there. */
  datatype Settings = Settings(active: string, providers: seq<T.Provider>, policy: CommandPolicy.Policy, legacy: seq<ChatMessage>)

  function SettingsOf(ai: AIState): Settings {
    Settings(ai.active, ai.rest.providers, ai.rest.policy, [])
  }

  /** `stuck`: an unlock failed half-way and still holds the store's lock. */
  datatype Store = Store(
    ai: AIState, vault: S.Vault<Secret>, legacy: seq<ChatMessage>, file: Settings, clock: nat, saves: nat, stuck: bool)

  /** Whether the n-th access to the secret store, and the n-th write of the settings file, succeeds. */
  datatype Outside = Outside(vault: S.World, disk: S.World)

  const HISTORY := "ai-chat-history"

  function NewID(clock: nat): string {
    "chat-" + Decimal(clock)
  }

  function FindFrom(sessions: seq<ChatSession>, id: string, i: nat): (r: Option<nat>)
    requires i <= |sessions|
    ensures r.Some? ==> i <= r.value < |sessions| && sessions[r.value].id == id && forall j :: i <= j < r.value ==> sessions[j].id != id
    ensures r.None? ==> forall j :: i <= j < |sessions| ==> sessions[j].id != id
    decreases |sessions| - i
  {
    if i == |sessions| then None else if sessions[i].id == id then Some(i) else FindFrom(sessions, id, i + 1)
  }

  /** The first session with an identifier. */
  function Find(sessions: seq<ChatSession>, id: string): (r: Option<nat>)
    ensures r.Some? ==> r.value < |sessions| && sessions[r.value].id == id && forall j :: 0 <= j < r.value ==> sessions[j].id != id
    ensures r.None? ==> forall j :: 0 <= j < |sessions| ==> sessions[j].id != id
  {
    FindFrom(sessions, id, 0)
  }

  /** The live messages go into the active session's entry, which is added if it is missing. */
  function Sync(ai: AIState): AIState {
    match Find(ai.sessions, ai.active)
    case Some(i) => ai.(sessions := ai.sessions[i := ai.sessions[i].(messages := ai.messages)])
    case None => ai.(sessions := ai.sessions + [ChatSession(ai.active, "Main session", ai.messages)])
  }

  function Persist(out: Outside, s: Store, legacy: seq<ChatMessage>): (Store, bool) {
    var ai := Sync(s.ai);
    var (vault, outcome) := S.StoreSecret(out.vault, s.vault, HISTORY, Chats(ai.sessions, legacy));
    (s.(ai := ai, vault := vault), outcome.Ok?)
  }

  function SaveSettings(out: Outside, s: Store): (Store, bool) {
    if out.disk(s.saves) then (s.(saves := s.saves + 1, file := SettingsOf(s.ai)), true)
    else (s.(saves := s.saves + 1), false)
  }

  function Update(out: Outside, s: Store, state: AIState): (Store, bool) {
    var replaced := s.(ai := state);
    var (kept, ok) := if s.ai.messages != state.messages || state.sessions != [] then Persist(out, replaced, state.messages)
                      else (replaced, true);
    if !ok then (kept.(ai := s.ai), false)
    else
      var (saved, written) := SaveSettings(out, kept);
      if written then (saved, true) else (saved.(ai := s.ai), false)
  }

  function Title(title: string, otherwise: string): string {
    if Trim(title) == "" then otherwise else Trim(title)
  }

  function Start(out: Outside, s: Store, session: ChatSession): (Store, bool) {
    var begun := s.(clock := s.clock + 1,
                    ai := s.ai.(sessions := s.ai.sessions + [session], active := session.id, messages := session.messages));
    var (kept, ok) := Persist(out, begun, []);
    if !ok then (kept, false) else SaveSettings(out, kept)
  }

  function Create(out: Outside, s: Store, title: string): (Store, bool) {
    Start(out, s, ChatSession(NewID(s.clock), Title(title, "New session"), []))
  }

  function Fork(out: Outside, s: Store, id: string, title: string): (Store, bool) {
    match Find(s.ai.sessions, id)
    case None => (s, false)
    case Some(i) =>
      var source := s.ai.sessions[i];
      Start(out, s, ChatSession(NewID(s.clock), Title(title, source.title + " (fork)"), source.messages))
  }

  function Select(out: Outside, s: Store, id: string): (Store, bool) {
    match Find(s.ai.sessions, id)
    case None => (s, false)
    case Some(i) => SaveSettings(out, s.(ai := s.ai.(active := id, messages := s.ai.sessions[i].messages)))
  }

  function Lock(s: Store): Store {
    s.(vault := S.Lock(s.vault), ai := s.ai.(messages := []))
  }

  datatype Loaded = Nothing | History(messages: seq<ChatMessage>) | Broken

  function ActiveMessages(sessions: seq<ChatSession>, id: string): seq<ChatMessage> {
    match Find(sessions, id)
    case Some(i) => sessions[i].messages
    case None => []
  }

  /** An active session without messages reads as no history; an empty list in the older format is one. */
  function AsHistory(messages: seq<ChatMessage>): Loaded {
    if messages == [] then Nothing else History(messages)
  }

  function Load(out: Outside, s: Store): (Store, Loaded) {
    var (v1, present) := S.SecretExists(out.vault, s.vault, HISTORY);
    if !present then (s.(vault := v1), Nothing)
    else
      var read: (S.Vault<Secret>, S.Outcome<Secret>) := S.LoadSecret(out.vault, v1, HISTORY);
      var t := s.(vault := read.0);
      match read.1
      case Value(Some(Chats(sessions, _))) =>
        if sessions == [] then (t.(ai := t.ai.(sessions := [])), Nothing)
        else
          var active := if t.ai.active == "" then sessions[0].id else t.ai.active;
          (t.(ai := t.ai.(sessions := sessions, active := active)), AsHistory(ActiveMessages(sessions, active)))
      case Value(Some(Messages(Some(messages)))) => (t, History(messages))
      case Value(Some(Messages(None))) => (t, Nothing)
      case PasswordRequired => (t, Nothing)
      case _ => (t, Broken)
  }

  function Unlock(out: Outside, s: Store, password: string): (Store, bool) {
    var (vault, outcome) := S.EnsureMasterPassword(out.vault, s.vault, password);
    var afterwards := s.(vault := vault);
    if !outcome.Ok? then (afterwards, false)
    else
      var (t, loaded) := Load(out, afterwards);
      match loaded
      case Broken => (t.(stuck := true), false)
      case History(messages) => (t.(ai := Sync(t.ai.(messages := messages))), true)
      case Nothing =>
        if t.legacy == [] then (t, true)
        else
          var (kept, ok) := Persist(out, t, t.legacy);
          if !ok then (kept.(stuck := true), false)
          else
            var revived := kept.(ai := Sync(kept.ai.(messages := t.legacy)), legacy := []);
            var (saved, written) := SaveSettings(out, revived);
            (saved.(stuck := !written), written)
  }

  // --------------------------------------------------------------- the class

  class DiskStore {
    const out: Outside
    const secretManager: S.Manager<Secret>
    var ai: AIState
    var legacy: seq<ChatMessage>
    var file: Settings
    var clock: nat
    var saves: nat
    var stuck: bool

    ghost function State(): Store
      reads this, secretManager
    {
      Store(ai, secretManager.State(), legacy, file, clock, saves, stuck)
    }

    ghost predicate Valid()
    {
      secretManager.world == out.vault
    }

    constructor (out: Outside, secretManager: S.Manager<Secret>, ai: AIState, legacy: seq<ChatMessage>, file: Settings)
      requires secretManager.world == out.vault
      ensures Valid() && this.out == out && this.secretManager == secretManager
      ensures State() == Store(ai, secretManager.State(), legacy, file, 0, 0, false)
    {
      this.out, this.secretManager, this.ai, this.legacy, this.file := out, secretManager, ai, legacy, file;
      clock, saves, stuck := 0, 0, false;
    }

    method SyncChatSession()
      modifies `ai
      ensures ai == Sync(old(ai))
    {
      for i := 0 to |ai.sessions|
        invariant ai == old(ai) && forall j :: 0 <= j < i ==> ai.sessions[j].id != ai.active
      {
        if ai.sessions[i].id == ai.active {
          ai := ai.(sessions := ai.sessions[i := ai.sessions[i].(messages := ai.messages)]);
          return;
        }
      }
      ai := ai.(sessions := ai.sessions + [ChatSession(ai.active, "Main session", ai.messages)]);
    }

    method PersistAIChatHistory(messages: seq<ChatMessage>) returns (ok: bool)
      requires Valid()
      modifies this, secretManager
      ensures (State(), ok) == Persist(out, old(State()), messages)
    {
      hide S.StoreSecret, Sync;
      SyncChatSession();
      var outcome := secretManager.Store(HISTORY, Chats(ai.sessions, messages));
      return outcome.Ok?;
    }

    method Save() returns (ok: bool)
      modifies `file, `saves
      ensures (State(), ok) == SaveSettings(out, old(State()))
    {
      ok := out.disk(saves);
      saves := saves + 1;
      if ok {
        file := SettingsOf(ai);
      }
    }

    method UpdateAIState(state: AIState) returns (ok: bool)
      requires Valid() && !stuck
      modifies this, secretManager
      ensures (State(), ok) == Update(out, old(State()), state)
    {
      hide Persist;
      var previous := ai;
      ai := state;
      if previous.messages != ai.messages || |ai.sessions| > 0 {
        ok := PersistAIChatHistory(ai.messages);
        if !ok {
          ai := previous;
          return;
        }
      }
      ok := Save();
      if !ok {
        ai := previous;
      }
    }

    method StartSession(session: ChatSession) returns (ok: bool)
      requires Valid() && !stuck
      modifies this, secretManager
      ensures (State(), ok) == Start(out, old(State()), session)
    {
      hide Persist;
      clock := clock + 1;
      ai := ai.(sessions := ai.sessions + [session]);
      ai := ai.(active := session.id);
      ai := ai.(messages := session.messages);
      ok := PersistAIChatHistory([]);
      if ok {
        ok := Save();
      }
    }

    method CreateChatSession(title: string) returns (ok: bool)
      requires Valid() && !stuck
      modifies this, secretManager
      ensures (State(), ok) == Create(out, old(State()), title)
    {
      hide Start;
      ok := StartSession(ChatSession(NewID(clock), Title(title, "New session"), []));
    }

    method ForkChatSession(id: string, title: string) returns (ok: bool)
      requires Valid() && !stuck
      modifies this, secretManager
      ensures (State(), ok) == Fork(out, old(State()), id, title)
    {
      hide Start;
      for i := 0 to |ai.sessions|
        invariant State() == old(State()) && forall j :: 0 <= j < i ==> ai.sessions[j].id != id
      {
        if ai.sessions[i].id == id {
          var source := ai.sessions[i];
          ok := StartSession(ChatSession(NewID(clock), Title(title, source.title + " (fork)"), source.messages));
          return;
        }
      }
      return false;
    }

    method SelectChatSession(id: string) returns (ok: bool)
      requires Valid() && !stuck
      modifies this
      ensures (State(), ok) == Select(out, old(State()), id)
    {
      for i := 0 to |ai.sessions|
        invariant State() == old(State()) && forall j :: 0 <= j < i ==> ai.sessions[j].id != id
      {
        if ai.sessions[i].id != id {
          continue;
        }
        ai := ai.(active := ai.sessions[i].id, messages := ai.sessions[i].messages);
        ok := Save();
        return;
      }
      return false;
    }

    method LockSecureStorage()
      requires !stuck
      modifies this, secretManager
      ensures State() == Lock(old(State()))
    {
      secretManager.LockNow();
      ai := ai.(messages := []);
    }

    method LoadAIChatHistory() returns (loaded: Loaded)
      requires Valid()
      modifies this, secretManager
      ensures (State(), loaded) == Load(out, old(State()))
    {
      hide S.LoadSecret, S.SecretExists;
      var present := secretManager.Exists(HISTORY);
      if !present {
        return Nothing;
      }
      var outcome := secretManager.Load(HISTORY);
      if outcome.PasswordRequired? {
        return Nothing;
      }
      if !outcome.Value? || outcome.value.None? || outcome.value.value.Words? {
        return Broken;
      }
      match outcome.value.value
      case Messages(messages) =>
        return if messages.Some? then History(messages.value) else Nothing;
      case Chats(sessions, _) =>
        ai := ai.(sessions := sessions);
        if ai.active == "" && |ai.sessions| > 0 {
          ai := ai.(active := ai.sessions[0].id);
        }
        return AsHistory(ActiveMessages(ai.sessions, ai.active));
    }

    method EnsureMasterPassword(password: string) returns (ok: bool)
      requires Valid() && !stuck
      modifies this, secretManager
      ensures (State(), ok) == Unlock(out, old(State()), password)
    {
      hide S.EnsureMasterPassword, Load, S.StoreSecret, Sync;
      var outcome := secretManager.Ensure(password);
      if outcome != S.Ok {
        return false;
      }
      var loaded := LoadAIChatHistory();
      if loaded.Broken? {
        stuck := true;
        return false;
      }
      if loaded.History? {
        ai := ai.(messages := loaded.messages);
        SyncChatSession();
      } else if legacy != [] {
        ok := PersistAIChatHistory(legacy);
        if !ok {
          stuck := true;
          return;
        }
        ai := ai.(messages := legacy);
        SyncChatSession();
        legacy := [];
        ok := Save();
        stuck := !ok;
        return;
      }
      return true;
    }
  }

  // -------------------------------------------------------------- the mirror

  /** The active session has an entry and it holds the live messages. */
  predicate Mirrors(ai: AIState) {
    Find(ai.sessions, ai.active).Some? && ActiveMessages(ai.sessions, ai.active) == ai.messages
  }

  lemma FindIs(sessions: seq<ChatSession>, id: string, i: nat)
    requires i < |sessions| && sessions[i].id == id && forall j :: 0 <= j < i ==> sessions[j].id != id
    ensures Find(sessions, id) == Some(i)
  {
  }

  lemma SyncMirrors(ai: AIState)
    ensures Mirrors(Sync(ai)) && Sync(ai).(sessions := ai.sessions) == ai && Sync(ai).sessions != []
    ensures Mirrors(ai) ==> Sync(ai) == ai
  {
    hide Find;
    var i := if Find(ai.sessions, ai.active).Some? then Find(ai.sessions, ai.active).value else |ai.sessions|;
    FindIs(Sync(ai).sessions, ai.active, i);
  }

  /** Sync changes no entry but the first one of the active session. */
  lemma SyncTouchesOnlyActive(ai: AIState, id: string)
    requires id != ai.active
    ensures Find(ai.sessions, id).Some? ==> Find(Sync(ai).sessions, id) == Find(ai.sessions, id)
    ensures ActiveMessages(Sync(ai).sessions, id) == ActiveMessages(ai.sessions, id)
  {
    hide Find;
    var found := Find(ai.sessions, id);
    if found.Some? {
      FindIs(Sync(ai).sessions, id, found.value);
    }
  }

  /** After a successful update the mirror holds exactly when the update named sessions or changed messages. */
  lemma UpdateMirrors(out: Outside, s: Store, state: AIState)
    requires Update(out, s, state).1
    ensures var t := Update(out, s, state).0;
            && Mirrors(t.ai) == (state.sessions != [] || state.messages != s.ai.messages)
            && t.ai.messages == state.messages && t.ai.active == state.active && t.ai.rest == state.rest
            && t.file == SettingsOf(state)
  {
    hide S.StoreSecret, Sync;
    SyncMirrors(state);
  }

  lemma StartMirrors(out: Outside, s: Store, session: ChatSession)
    ensures var t := Start(out, s, session).0;
            Mirrors(t.ai) && t.ai.active == session.id && t.ai.messages == session.messages
  {
    hide S.StoreSecret, Sync;
    SyncMirrors(s.ai.(sessions := s.ai.sessions + [session], active := session.id, messages := session.messages));
  }

  /** Creating, forking and selecting leave the live messages equal to the active entry, even when saving fails. */
  lemma SessionCallsMirror(out: Outside, s: Store, id: string, title: string)
    ensures Mirrors(Create(out, s, title).0.ai)
    ensures Find(s.ai.sessions, id).Some? ==> Mirrors(Fork(out, s, id, title).0.ai) && Mirrors(Select(out, s, id).0.ai)
    ensures Find(s.ai.sessions, id).Some? ==>
              Fork(out, s, id, title).0.ai.messages == Select(out, s, id).0.ai.messages == ActiveMessages(s.ai.sessions, id)
  {
    hide Start, Find;
    StartMirrors(out, s, ChatSession(NewID(s.clock), Title(title, "New session"), []));
    if Find(s.ai.sessions, id).Some? {
      var source := s.ai.sessions[Find(s.ai.sessions, id).value];
      StartMirrors(out, s, ChatSession(NewID(s.clock), Title(title, source.title + " (fork)"), source.messages));
    }
  }

  datatype Call = UpdateTo(state: AIState) | New(title: string) | ForkOf(id: string, title: string) | Choose(id: string)

  function Step(out: Outside, s: Store, call: Call): (Store, bool) {
    match call
    case UpdateTo(state) => Update(out, s, state)
    case New(title) => Create(out, s, title)
    case ForkOf(id, title) => Fork(out, s, id, title)
    case Choose(id) => Select(out, s, id)
  }

  function Run(out: Outside, s: Store, calls: seq<Call>): Store {
    if calls == [] then s else Step(out, Run(out, s, calls[..|calls| - 1]), calls[|calls| - 1]).0
  }

  predicate NameSessions(calls: seq<Call>) {
    forall i :: 0 <= i < |calls| && calls[i].UpdateTo? ==> calls[i].state.sessions != []
  }

  lemma StepMirrors(out: Outside, s: Store, call: Call)
    requires Mirrors(s.ai) && (call.UpdateTo? ==> call.state.sessions != [])
    ensures Mirrors(Step(out, s, call).0.ai)
  {
    hide Create, Fork, Select, Mirrors, Find;
    match call
    case UpdateTo(state) =>
      if Update(out, s, state).1 {
        UpdateMirrors(out, s, state);
      } else {
        hide Update;
        FailedUpdateRollsBack(out, s, state);
      }
    case New(title) => SessionCallsMirror(out, s, "", title);
    case ForkOf(id, title) =>
      SessionCallsMirror(out, s, id, title);
      MissingChangesNothing(out, s, id, title);
    case Choose(id) =>
      SessionCallsMirror(out, s, id, "");
      MissingChangesNothing(out, s, id, "");
  }

  lemma MissingChangesNothing(out: Outside, s: Store, id: string, title: string)
    ensures Find(s.ai.sessions, id).None? ==> Fork(out, s, id, title) == (s, false) && Select(out, s, id) == (s, false)
  {
    hide Find;
  }

  /** Along every run of calls, the failed ones included, the active entry holds the live messages. */
  lemma {:induction false} EveryRunMirrors(out: Outside, s: Store, calls: seq<Call>)
    requires Mirrors(s.ai) && NameSessions(calls)
    ensures Mirrors(Run(out, s, calls).ai)
  {
    hide Mirrors, Step;
    if calls != [] {
      EveryRunMirrors(out, s, calls[..|calls| - 1]);
      StepMirrors(out, Run(out, s, calls[..|calls| - 1]), calls[|calls| - 1]);
    }
  }

  // --------------------------------------------------- no session is lost

  /** A successful update keeps every session it names but the active one, which takes the live messages. */
  lemma UpdateChangesOnlyActive(out: Outside, s: Store, state: AIState, id: string)
    requires Update(out, s, state).1 && id != state.active
    ensures var t := Update(out, s, state).0;
            && ActiveMessages(t.ai.sessions, id) == ActiveMessages(state.sessions, id)
            && |state.sessions| <= |t.ai.sessions| <= |state.sessions| + 1
            && forall i :: 0 <= i < |state.sessions| ==> t.ai.sessions[i].id == state.sessions[i].id && t.ai.sessions[i].title == state.sessions[i].title
  {
    SyncTouchesOnlyActive(state, id);
    hide S.StoreSecret, Find;
  }

  /** Selecting changes no session: it makes the first one with the identifier the live one, and succeeds exactly when there is one and the settings can be written. */
  lemma SelectTells(out: Outside, s: Store, id: string)
    ensures var (t, ok) := Select(out, s, id);
            && t.ai.sessions == s.ai.sessions && t.ai.rest == s.ai.rest && t.vault == s.vault
            && (ok <==> Find(s.ai.sessions, id).Some? && out.disk(s.saves))
            && (if Find(s.ai.sessions, id).Some? then t.ai.active == id && t.ai.messages == ActiveMessages(s.ai.sessions, id) else t == s)
            && (ok ==> t.file == SettingsOf(t.ai))
  {
    hide Find;
  }

  /** A session is started: all earlier ones stay, in order and unchanged, exactly if its identifier is new or the first one that has it says the same. */
  lemma StartKeepsExactly(out: Outside, s: Store, session: ChatSession)
    ensures var t := Start(out, s, session).0;
            && |t.ai.sessions| == |s.ai.sessions| + 1
            && (t.ai.sessions == s.ai.sessions + [session]
                <==> Find(s.ai.sessions, session.id).None? || ActiveMessages(s.ai.sessions, session.id) == session.messages)
            && t.ai.active == session.id && t.ai.messages == session.messages && t.ai.rest == s.ai.rest
  {
    hide S.StoreSecret, Find;
    var begun := s.ai.(sessions := s.ai.sessions + [session], active := session.id, messages := session.messages);
    var i := if Find(s.ai.sessions, session.id).Some? then Find(s.ai.sessions, session.id).value else |s.ai.sessions|;
    FindIs(begun.sessions, session.id, i);
    assert Sync(begun).sessions[i] == begun.sessions[i].(messages := session.messages);
  }

  /** Creating and forking add exactly one session, under the new identifier, and keep every other. */
  lemma StartedSessions(out: Outside, s: Store, id: string, title: string)
    requires Find(s.ai.sessions, NewID(s.clock)).None?
    ensures Create(out, s, title).0.ai.sessions
            == s.ai.sessions + [ChatSession("chat-" + Decimal(s.clock), if Trim(title) == "" then "New session" else Trim(title), [])]
    ensures Find(s.ai.sessions, id).Some? ==>
              var source := s.ai.sessions[Find(s.ai.sessions, id).value];
              Fork(out, s, id, title).0.ai.sessions
              == s.ai.sessions + [ChatSession("chat-" + Decimal(s.clock), if Trim(title) == "" then source.title + " (fork)" else Trim(title),
                                              ActiveMessages(s.ai.sessions, id))]
    ensures Find(s.ai.sessions, id).None? ==> Fork(out, s, id, title) == (s, false)
  {
    hide Start, Find, Trim, Decimal;
    StartKeepsExactly(out, s, ChatSession(NewID(s.clock), Title(title, "New session"), []));
    if Find(s.ai.sessions, id).Some? {
      var source := s.ai.sessions[Find(s.ai.sessions, id).value];
      StartKeepsExactly(out, s, ChatSession(NewID(s.clock), Title(title, source.title + " (fork)"), source.messages));
    }
  }

  /** Going to another session and back gives back the live messages exactly when they were the active entry's. */
  lemma SelectingBackExactly(out: Outside, s: Store, id: string)
    requires Find(s.ai.sessions, id).Some? && Find(s.ai.sessions, s.ai.active).Some?
    ensures var back := Select(out, Select(out, s, id).0, s.ai.active).0;
            back.ai == s.ai <==> Mirrors(s.ai)
  {
    hide Select, Find;
    SelectTells(out, s, id);
    SelectTells(out, Select(out, s, id).0, s.ai.active);
  }

  /** So does starting a session and going back: from a mirrored state the earlier conversation is live again, beside the new session. */
  lemma StartingAndBack(out: Outside, s: Store, session: ChatSession)
    requires Mirrors(s.ai) && Find(s.ai.sessions, session.id).None?
    ensures var back := Select(out, Start(out, s, session).0, s.ai.active).0;
            back.ai == s.ai.(sessions := s.ai.sessions + [session])
  {
    hide Select, Start, Find;
    StartKeepsExactly(out, s, session);
    var t := Start(out, s, session).0;
    SelectTells(out, t, s.ai.active);
    FindIs(t.ai.sessions, s.ai.active, Find(s.ai.sessions, s.ai.active).value);
  }

  /** A listed session disappears exactly through an update that succeeds, names a list without it, and does not then put it back as the active one. */
  lemma DisappearsExactly(out: Outside, s: Store, call: Call, id: string)
    requires Find(s.ai.sessions, id).Some?
    ensures var (t, ok) := Step(out, s, call);
            Find(t.ai.sessions, id).None? <==>
              && call.UpdateTo? && ok && Find(call.state.sessions, id).None?
              && !(Persists(s, call.state) && id == call.state.active)
  {
    hide Update, Select, Start, Find, NewID, Title;
    match call
    case UpdateTo(state) =>
      UpdateListing(out, s, state, id);
    case New(title) => StartListing(out, s, ChatSession(NewID(s.clock), Title(title, "New session"), []), id);
    case ForkOf(source, title) =>
      if Find(s.ai.sessions, source).Some? {
        var from := s.ai.sessions[Find(s.ai.sessions, source).value];
        StartListing(out, s, ChatSession(NewID(s.clock), Title(title, from.title + " (fork)"), from.messages), id);
      }
    case Choose(chosen) => SelectTells(out, s, chosen);
  }

  lemma SyncListing(ai: AIState, id: string)
    ensures Find(Sync(ai).sessions, id).Some? <==> Find(ai.sessions, id).Some? || id == ai.active
  {
    hide Find;
    SyncMirrors(ai);
    if id != ai.active {
      var found := Find(Sync(ai).sessions, id);
      if found.Some? {
        assert found.value < |ai.sessions| && ai.sessions[found.value].id == id;
      }
      SyncTouchesOnlyActive(ai, id);
    }
  }

  lemma StartListing(out: Outside, s: Store, session: ChatSession, id: string)
    requires Find(s.ai.sessions, id).Some?
    ensures Find(Start(out, s, session).0.ai.sessions, id).Some?
  {
    hide S.StoreSecret, Find, Sync;
    var begun := s.ai.(sessions := s.ai.sessions + [session], active := session.id, messages := session.messages);
    FindIs(begun.sessions, id, Find(s.ai.sessions, id).value);
    SyncListing(begun, id);
  }

  lemma UpdateListing(out: Outside, s: Store, state: AIState, id: string)
    ensures var (t, ok) := Update(out, s, state);
            && (!ok ==> t.ai == s.ai)
            && (ok ==> (Find(t.ai.sessions, id).Some? <==> Find(state.sessions, id).Some? || (Persists(s, state) && id == state.active)))
  {
    hide S.StoreSecret, Find, Sync;
    SyncListing(state, id);
  }

  /** Over every run of calls no listed session disappears unless some update named a list without it. */
  lemma {:induction false} NoSessionDisappears(out: Outside, s: Store, calls: seq<Call>, id: string)
    requires Find(s.ai.sessions, id).Some?
    requires forall i :: 0 <= i < |calls| && calls[i].UpdateTo? ==> Find(calls[i].state.sessions, id).Some?
    ensures Find(Run(out, s, calls).ai.sessions, id).Some?
  {
    hide Step, Find;
    if calls != [] {
      NoSessionDisappears(out, s, calls[..|calls| - 1], id);
      DisappearsExactly(out, Run(out, s, calls[..|calls| - 1]), calls[|calls| - 1], id);
    }
  }

  /** No identifier the clock can still give is taken. */
  ghost predicate FreshIDs(s: Store) {
    forall k: nat :: s.clock <= k ==> Find(s.ai.sessions, NewID(k)).None?
  }

  predicate Switching(calls: seq<Call>) {
    forall i :: 0 <= i < |calls| ==> !calls[i].UpdateTo?
  }

  lemma SwitchKeeps(out: Outside, s: Store, call: Call)
    requires FreshIDs(s) && !call.UpdateTo?
    ensures var t := Step(out, s, call).0; s.ai.sessions <= t.ai.sessions && FreshIDs(t)
  {
    hide Select, Start, Find, NewID, Title;
    match call
    case New(title) => FreshStart(out, s, ChatSession(NewID(s.clock), Title(title, "New session"), []));
    case ForkOf(source, title) =>
      if Find(s.ai.sessions, source).Some? {
        var from := s.ai.sessions[Find(s.ai.sessions, source).value];
        FreshStart(out, s, ChatSession(NewID(s.clock), Title(title, from.title + " (fork)"), from.messages));
      }
    case Choose(chosen) =>
      SelectTells(out, s, chosen);
      assert Select(out, s, chosen).0.clock == s.clock by { SelectKeepsClock(out, s, chosen); }
  }

  lemma SelectKeepsClock(out: Outside, s: Store, id: string)
    ensures Select(out, s, id).0.clock == s.clock
  {
    hide Find;
  }

  lemma FreshStart(out: Outside, s: Store, session: ChatSession)
    requires FreshIDs(s) && session.id == NewID(s.clock)
    ensures var t := Start(out, s, session).0; s.ai.sessions <= t.ai.sessions && FreshIDs(t)
  {
    hide Find;
    StartKeepsExactly(out, s, session);
    var t := Start(out, s, session).0;
    assert t.clock == s.clock + 1 by { hide S.StoreSecret, Sync; }
    hide Start;
    forall k: nat | t.clock <= k ensures Find(t.ai.sessions, NewID(k)).None? {
      if NewID(k) == NewID(s.clock) {
        NumberedIsInjective("chat-", k, s.clock);
      }
      assert Find(s.ai.sessions, NewID(k)).None?;
    }
  }

  /** Over every run of creating, forking and selecting, the sessions only grow at the end: none of them changes, whatever fails to be saved. */
  lemma {:induction false} SwitchingKeepsEverything(out: Outside, s: Store, calls: seq<Call>)
    requires FreshIDs(s) && Switching(calls)
    ensures s.ai.sessions <= Run(out, s, calls).ai.sessions && FreshIDs(Run(out, s, calls))
  {
    hide Step, FreshIDs;
    if calls != [] {
      SwitchingKeepsEverything(out, s, calls[..|calls| - 1]);
      SwitchKeeps(out, Run(out, s, calls[..|calls| - 1]), calls[|calls| - 1]);
    }
  }

  // ---------------------------------------------------------------- rollback

  /** The update names sessions or changes messages, so the history is to be stored first. */
  predicate Persists(s: Store, state: AIState) {
    state.sessions != [] || state.messages != s.ai.messages
  }

  /** Storing the history goes through: the keyring answers with a record, the key is in memory and the row is written. */
  predicate HistoryStored(out: Outside, s: Store, state: AIState) {
    && Persists(s, state) && s.vault.masterKey.Some? && s.vault.keyring.Some?
    && out.vault(s.vault.draws) && out.vault(s.vault.draws + 1)
  }

  /**
   An update fails exactly when the history that is to be stored cannot be, or the settings
   cannot be written. A failed one leaves everything in memory as it was, and the secret
   store holds the new history exactly when that was stored, rejected or not.
   */
  lemma FailedUpdateRollsBack(out: Outside, s: Store, state: AIState)
    ensures var (t, ok) := Update(out, s, state);
            && (ok <==> (Persists(s, state) ==> HistoryStored(out, s, state)) && out.disk(s.saves))
            && (!ok ==> t == s.(vault := t.vault, saves := t.saves))
            && t.vault.masterKey == s.vault.masterKey && t.vault.keyring == s.vault.keyring
            && t.vault.rows == if HistoryStored(out, s, state)
                               then s.vault.rows[HISTORY := S.Sealed(s.vault.masterKey.value, s.vault.randoms, Chats(Sync(state).sessions, state.messages))]
                               else s.vault.rows
  {
    HistoryIsAName();
    hide S.Blank, Sync;
  }

  lemma HistoryIsAName()
    ensures !S.Blank(HISTORY)
  {
    assert HISTORY[0] == 'a';
  }

  // ------------------------------------------------------------------- forks

  /** A run of updates that only replace the messages of the conversation. */
  function Typed(out: Outside, s: Store, conversation: seq<seq<ChatMessage>>): Store {
    if conversation == [] then s
    else
      var t := Typed(out, s, conversation[..|conversation| - 1]);
      Update(out, t, t.ai.(messages := conversation[|conversation| - 1])).0
  }

  lemma TypedOnce(out: Outside, s: Store, messages: seq<ChatMessage>, id: string)
    requires id != s.ai.active
    ensures var t := Update(out, s, s.ai.(messages := messages)).0;
            t.ai.active == s.ai.active && ActiveMessages(t.ai.sessions, id) == ActiveMessages(s.ai.sessions, id)
  {
    hide S.StoreSecret, Find;
    SyncTouchesOnlyActive(s.ai.(messages := messages), id);
  }

  lemma {:induction false} TypingElsewhere(out: Outside, s: Store, conversation: seq<seq<ChatMessage>>, id: string)
    requires id != s.ai.active
    ensures Typed(out, s, conversation).ai.active == s.ai.active
    ensures ActiveMessages(Typed(out, s, conversation).ai.sessions, id) == ActiveMessages(s.ai.sessions, id)
  {
    hide Update, ActiveMessages;
    if conversation != [] {
      var n := |conversation| - 1;
      TypingElsewhere(out, s, conversation[..n], id);
      TypedOnce(out, Typed(out, s, conversation[..n]), conversation[n], id);
    }
  }

  /** Whatever is then said in a fork, and whatever of it fails to be saved, the source keeps its messages. */
  lemma ForkNeverChangesSource(out: Outside, s: Store, id: string, title: string, conversation: seq<seq<ChatMessage>>)
    requires Find(s.ai.sessions, id).Some? && id != NewID(s.clock)
    ensures ActiveMessages(Typed(out, Fork(out, s, id, title).0, conversation).ai.sessions, id) == ActiveMessages(s.ai.sessions, id)
  {
    var source := s.ai.sessions[Find(s.ai.sessions, id).value];
    var session := ChatSession(NewID(s.clock), Title(title, source.title + " (fork)"), source.messages);
    var begun := s.ai.(sessions := s.ai.sessions + [session], active := session.id, messages := session.messages);
    var i := Find(s.ai.sessions, id).value;
    hide Find, NewID, Typed, Title, S.StoreSecret;
    FindIs(begun.sessions, id, i);
    SyncTouchesOnlyActive(begun, id);
    hide Sync;
    TypingElsewhere(out, Fork(out, s, id, title).0, conversation, id);
  }

  // ------------------------------------------------------- locking, unlocking

  /** The stored history is the one in memory, and it opens under the wrapped key. */
  ghost predicate Persisted(s: Store) {
    && S.Sound(s.vault) && HISTORY in s.vault.rows
    && s.vault.rows[HISTORY].plain.Chats? && s.vault.rows[HISTORY].plain.sessions == s.ai.sessions
    && Mirrors(s.ai)
  }

  /** Every successful update of a non-empty session list, create and fork persists the history. */
  lemma UpdatePersists(out: Outside, s: Store, state: AIState)
    requires S.Sound(s.vault) && Update(out, s, state).1 && (state.sessions != [] || state.messages != s.ai.messages)
    ensures Persisted(Update(out, s, state).0)
  {
    HistoryIsAName();
    SyncMirrors(state);
    S.StepSound(out.vault, s.vault, S.Put(HISTORY, Chats(Sync(state).sessions, state.messages)));
    hide S.Blank, S.Sound, Sync, Mirrors;
  }

  lemma StartPersists(out: Outside, s: Store, session: ChatSession)
    requires S.Sound(s.vault) && Start(out, s, session).1
    ensures Persisted(Start(out, s, session).0)
  {
    HistoryIsAName();
    var begun := s.ai.(sessions := s.ai.sessions + [session], active := session.id, messages := session.messages);
    SyncMirrors(begun);
    S.StepSound(out.vault, s.vault, S.Put(HISTORY, Chats(Sync(begun).sessions, [])));
    hide S.Blank, S.Sound, Sync, Mirrors;
  }

  /** While locked, an update succeeds only if it neither names sessions nor changes messages. */
  lemma LockedUpdateIsRejected(out: Outside, s: Store, state: AIState)
    requires s.vault.masterKey.None?
    ensures Update(out, s, state).1 ==> state.sessions == [] && state.messages == s.ai.messages
    ensures state.sessions != [] || state.messages != s.ai.messages ==>
              Update(out, s, state).0.vault == s.vault.(draws := s.vault.draws + 1)
  {
    HistoryIsAName();
    hide S.Blank, Sync;
  }

  /** The store after some updates, every one of them rejected. */
  ghost predicate AllRejected(out: Outside, s: Store, states: seq<AIState>) {
    states == [] || (AllRejected(out, s, states[..|states| - 1])
                     && !Update(out, Updated(out, s, states[..|states| - 1]), states[|states| - 1]).1)
  }

  function Updated(out: Outside, s: Store, states: seq<AIState>): Store {
    if states == [] then s else Update(out, Updated(out, s, states[..|states| - 1]), states[|states| - 1]).0
  }

  lemma {:induction false} RejectedUpdatesChangeNothing(out: Outside, s: Store, states: seq<AIState>)
    requires s.vault.masterKey.None? && AllRejected(out, s, states)
    ensures var t := Updated(out, s, states);
            t == s.(vault := s.vault.(draws := t.vault.draws), saves := t.saves)
  {
    hide Update;
    if states != [] {
      var n := |states| - 1;
      RejectedUpdatesChangeNothing(out, s, states[..n]);
      var t := Updated(out, s, states[..n]);
      LockedUpdateIsRejected(out, t, states[n]);
      FailedUpdateRollsBack(out, t, states[n]);
      RejectedLockedUpdate(out, t, states[n]);
    }
  }

  lemma RejectedLockedUpdate(out: Outside, s: Store, state: AIState)
    requires s.vault.masterKey.None? && !Update(out, s, state).1
    ensures var t := Update(out, s, state).0; t == s.(vault := s.vault.(draws := t.vault.draws), saves := t.saves)
  {
    HistoryIsAName();
    hide S.Blank, Sync;
  }

  // ------------------------------------------------------------ unlocking

  /** The password the keyring record was made with. */
  predicate Opens(password: string, s: Store) {
    password != "" && s.vault.keyring.Some? && s.vault.keyring.value.box.key == S.Derived(password, s.vault.keyring.value.salt)
  }

  /** The unlock opens the vault: the password is the record's, or there is no record and one can be written. */
  predicate Accepts(out: Outside, s: Store, password: string) {
    && password != "" && out.vault(s.vault.draws)
    && if s.vault.keyring.Some? then Opens(password, s) else out.vault(s.vault.draws + 1)
  }

  // An unlock reaches the keyring, twice if it makes the record, and then looks for
  // the history, reads it and asks the keyring for its status.

  /** The access that looks for the history. */
  function LookAt(s: Store): nat {
    s.vault.draws + if s.vault.keyring.Some? then 1 else 2
  }

  /** The key in memory once the vault is open: the wrapped one, or the one just made. */
  function OpenKey(s: Store): S.Key {
    if s.vault.keyring.Some? then s.vault.keyring.value.box.plain else S.Master(s.vault.randoms)
  }

  /** The look for the history finds it. */
  predicate Found(out: Outside, s: Store) {
    out.vault(LookAt(s)) && HISTORY in s.vault.rows
  }

  /** The history found is read and unsealed. */
  predicate Unsealed(out: Outside, s: Store) {
    Found(out, s) && out.vault(LookAt(s) + 1) && out.vault(LookAt(s) + 2) && s.vault.rows[HISTORY].key == OpenKey(s)
  }

  /** The session that is active once some stored sessions are loaded. */
  function ActiveIn(sessions: seq<ChatSession>, active: string): string {
    if active == "" && sessions != [] then sessions[0].id else active
  }

  /** The conversation a stored history holds for the store's active session. */
  function Stored(secret: Secret, active: string): seq<ChatMessage> {
    match secret
    case Chats(sessions, _) => ActiveMessages(sessions, ActiveIn(sessions, active))
    case Messages(Some(messages)) => messages
    case _ => []
  }

  /** What is stored is no history for the active session: it has no messages there, or the older list is null. */
  predicate IsNone(secret: Secret, active: string) {
    secret == Messages(None) || (secret.Chats? && Stored(secret, active) == [])
  }

  /** A history was found but the read fails, or what is read opens under another key or is no history. */
  predicate Unreadable(out: Outside, s: Store) {
    Found(out, s) && (!out.vault(LookAt(s) + 1)
                      || (out.vault(LookAt(s) + 2) && (!Unsealed(out, s) || s.vault.rows[HISTORY].plain.Words?)))
  }

  /** No history comes back: none was found, the store read as locked, or what is stored is none. */
  predicate NothingRead(out: Outside, s: Store) {
    !Unreadable(out, s)
    && (!Unsealed(out, s) || IsNone(s.vault.rows[HISTORY].plain, s.ai.active))
  }

  /** The accesses made so far when nothing was read. */
  function DrawnBy(out: Outside, s: Store): nat {
    LookAt(s) + (if Found(out, s) then 3 else 1)
  }

  /** The unencrypted history of an older version can be stored and the settings written without it. */
  predicate Migrates(out: Outside, s: Store) {
    out.vault(DrawnBy(out, s)) && out.vault(DrawnBy(out, s) + 1) && out.disk(s.saves)
  }

  /** The live state once the stored sessions, if any were unsealed, are loaded. */
  function LoadedState(out: Outside, s: Store): AIState {
    if Unsealed(out, s) && s.vault.rows[HISTORY].plain.Chats? then
      var sessions := s.vault.rows[HISTORY].plain.sessions;
      s.ai.(sessions := sessions, active := ActiveIn(sessions, s.ai.active))
    else s.ai
  }

  /** Opening the vault, for every password and with or without a record. */
  lemma EnsureOpens(out: Outside, s: Store, password: string)
    ensures var (v, outcome) := S.EnsureMasterPassword(out.vault, s.vault, password);
            && (outcome.Ok? <==> Accepts(out, s, password))
            && v.rows == s.vault.rows
            && (outcome.Ok? ==> v.draws == LookAt(s) && v.masterKey == Some(OpenKey(s)) && v.keyring.Some?
                                && (s.vault.keyring.Some? ==> v.keyring == s.vault.keyring))
  {
  }

  /** What loading the history after opening the vault finds, by the accesses that succeed and the row that is there. */
  lemma LoadTells(out: Outside, s: Store, password: string)
    requires Accepts(out, s, password)
    ensures var v := S.EnsureMasterPassword(out.vault, s.vault, password).0;
            var (t, loaded) := Load(out, s.(vault := v));
            && (loaded.Broken? <==> Unreadable(out, s))
            && (loaded.Nothing? <==> NothingRead(out, s))
            && (loaded.History? ==> Unsealed(out, s) && loaded.messages == Stored(s.vault.rows[HISTORY].plain, s.ai.active))
            && t == s.(vault := t.vault, ai := LoadedState(out, s))
            && t.vault.rows == s.vault.rows && t.vault.keyring == v.keyring && t.vault.masterKey == Some(OpenKey(s))
            && (loaded.Nothing? ==> t.vault.draws == DrawnBy(out, s))
  {
    HistoryIsAName();
    EnsureOpens(out, s, password);
    hide S.Blank, S.EnsureMasterPassword, Find, Accepts;
  }

  /**
   An unlock keeps the store's lock forever exactly when the vault opens and the history
   is unreadable, or nothing is read and the history of an older version that waits
   cannot be migrated. It succeeds exactly when the vault opens and it does not stick.
   */
  lemma UnlockSticksExactly(out: Outside, s: Store, password: string)
    requires !s.stuck
    ensures var (t, ok) := Unlock(out, s, password);
            && (t.stuck <==> Accepts(out, s, password)
                             && (Unreadable(out, s) || (NothingRead(out, s) && s.legacy != [] && !Migrates(out, s))))
            && (ok <==> Accepts(out, s, password) && !t.stuck)
  {
    EnsureOpens(out, s, password);
    if Accepts(out, s, password) {
      LoadTells(out, s, password);
      HistoryIsAName();
      hide S.Blank, S.EnsureMasterPassword, Load, Unreadable, NothingRead, Sync, DrawnBy, Accepts, OpenKey, LoadedState;
    }
  }

  /** The state an unlock leaves when it succeeds. */
  lemma UnlockLeaves(out: Outside, s: Store, password: string)
    requires !s.stuck && Unlock(out, s, password).1
    ensures Unlock(out, s, password).0.ai ==
              if !NothingRead(out, s) then Sync(LoadedState(out, s).(messages := Stored(s.vault.rows[HISTORY].plain, s.ai.active)))
              else if s.legacy == [] then LoadedState(out, s)
              else Sync(Sync(LoadedState(out, s)).(messages := s.legacy))
  {
    UnlockSticksExactly(out, s, password);
    LoadTells(out, s, password);
    HistoryIsAName();
    hide S.Blank, S.EnsureMasterPassword, S.StoreSecret, Load, Unreadable, NothingRead, Sync, DrawnBy, Migrates, Accepts, OpenKey, LoadedState;
  }

  // ---------------------------------------------------- what an unlock restores

  lemma SyncTwice(ai: AIState, messages: seq<ChatMessage>)
    requires Mirrors(ai.(messages := messages))
    ensures Sync(Sync(ai).(messages := messages)) == ai.(messages := messages)
  {
    var i := Find(ai.sessions, ai.active).value;
    FindIs(Sync(ai).sessions, ai.active, i);
    hide Find;
    assert ai.sessions[i].(messages := messages) == ai.sessions[i];
    assert Sync(Sync(ai).(messages := messages)).sessions == ai.sessions;
  }

  /** A locked store as it was locked, but for failed accesses since. */
  predicate StillLocked(s: Store, u: Store) {
    u == Lock(s).(vault := Lock(s).vault.(draws := u.vault.draws), saves := u.saves)
  }

  /** The active session keeps its identifier when the stored sessions are loaded. */
  predicate KeepsActive(ai: AIState) {
    ActiveIn(ai.sessions, ai.active) == ai.active
  }

  /**
   An unlock that succeeds after a lock gives back exactly the state last persisted if
   and only if the active session keeps its identifier and the conversation is read,
   or none was there and none waits, or the one that waits is the same. It can succeed
   without reading the conversation: when the look for it or the keyring's status fails.
   */
  lemma UnlockRestoresExactly(out: Outside, s: Store, u: Store, password: string)
    requires Persisted(s) && !s.stuck && StillLocked(s, u)
    ensures var (t, ok) := Unlock(out, u, password);
            var read := out.vault(u.vault.draws + 1) && out.vault(u.vault.draws + 3);
            ok ==> (t.ai == s.ai <==> (read ==> KeepsActive(s.ai)) && (s.legacy == s.ai.messages || (s.ai.messages != [] && read)))
  {
    if Unlock(out, u, password).1 {
      UnlockSticksExactly(out, u, password);
      UnlockLeaves(out, u, password);
      SyncMirrors(s.ai);
      PersistedIsUnsealed(out, s, u);
      SyncTwice(s.ai.(messages := []), s.ai.messages);
      var loaded := s.ai.(messages := [], active := ActiveIn(s.ai.sessions, s.ai.active));
      KeptBySync(u.ai, s.legacy);
      KeptBySync(loaded, s.legacy);
      KeptBySync(loaded, Stored(u.vault.rows[HISTORY].plain, u.ai.active));
      hide Unlock, Sync, Find, S.Sound, Unreadable, Unsealed, Stored, Mirrors;
    }
  }

  lemma PersistedIsUnsealed(out: Outside, s: Store, u: Store)
    requires Persisted(s) && StillLocked(s, u) && s.vault.keyring.Some? && !Unreadable(out, u)
    ensures Unsealed(out, u) <==> out.vault(u.vault.draws + 1) && out.vault(u.vault.draws + 3)
    ensures u.vault.rows == s.vault.rows && u.vault.rows[HISTORY].plain.Chats? && u.vault.rows[HISTORY].plain.sessions == s.ai.sessions
    ensures KeepsActive(s.ai) ==> Stored(u.vault.rows[HISTORY].plain, u.ai.active) == s.ai.messages
  {
    hide Find;
  }

  /** Syncing changes only the session list. */
  lemma KeptBySync(ai: AIState, messages: seq<ChatMessage>)
    ensures Sync(Sync(ai).(messages := messages)).messages == messages
    ensures Sync(Sync(ai).(messages := messages)).active == Sync(ai.(messages := messages)).active == ai.active
  {
    hide Find;
  }

  /** The four accesses an unlock makes to the keyring and the database all succeed. */
  predicate Reachable(out: Outside, s: Store) {
    forall k :: s.vault.draws <= k < s.vault.draws + 4 ==> out.vault(k)
  }

  /**
   Lock, any number of rejected updates, unlock with the password and every access
   succeeding: the state last persisted is back exactly when the active session keeps
   its identifier and either its conversation is not empty or no older one waits.
   */
  lemma LockThenUnlockRestores(out: Outside, s: Store, states: seq<AIState>, password: string)
    requires Persisted(s) && !s.stuck && Opens(password, s)
    requires AllRejected(out, Lock(s), states) && Reachable(out, Updated(out, Lock(s), states))
    ensures var (t, ok) := Unlock(out, Updated(out, Lock(s), states), password);
            ok && t.ai == s.ai <==> KeepsActive(s.ai) && (s.ai.messages != [] || s.legacy == [])
  {
    RejectedUpdatesChangeNothing(out, Lock(s), states);
    var u := Updated(out, Lock(s), states);
    assert out.vault(u.vault.draws) && out.vault(u.vault.draws + 1) && out.vault(u.vault.draws + 2) && out.vault(u.vault.draws + 3);
    UnlockSticksExactly(out, u, password);
    UnlockRestoresExactly(out, s, u, password);
    ReachableIsReadable(out, s, u);
    hide Unlock, Updated, AllRejected, Sync, Find, S.Sound, Mirrors, Stored, Migrates, DrawnBy;
    if Unlock(out, u, password).1 && s.legacy == s.ai.messages {
      assert s.legacy == [] || s.ai.messages != [];
    }
  }

  lemma ReachableIsReadable(out: Outside, s: Store, u: Store)
    requires Persisted(s) && StillLocked(s, u) && s.vault.keyring.Some? && Reachable(out, u)
    ensures !Unreadable(out, u) && Unsealed(out, u)
    ensures KeepsActive(s.ai) ==> (NothingRead(out, u) <==> s.ai.messages == [])
  {
    assert out.vault(u.vault.draws + 1) && out.vault(u.vault.draws + 2) && out.vault(u.vault.draws + 3);
    hide Find;
  }

  // ------------------------------------------------------------ what fails

  /** Two unlocks that fail to restore and say they succeeded: the look for the history fails, or the keyring's status does. */
  lemma MissedRestore(out: Outside, s: Store, password: string)
    requires Persisted(s) && !s.stuck && Opens(password, s) && s.legacy == [] && out.vault(s.vault.draws)
    requires !out.vault(s.vault.draws + 1) || (out.vault(s.vault.draws + 2) && !out.vault(s.vault.draws + 3))
    ensures var (t, ok) := Unlock(out, Lock(s), password);
            && ok && t.ai == s.ai.(messages := [])
            && t.vault.rows == s.vault.rows && t.vault.keyring == s.vault.keyring && t.vault.masterKey == Some(s.vault.keyring.value.box.plain)
  {
    UnlockSticksExactly(out, Lock(s), password);
    UnlockLeaves(out, Lock(s), password);
    LoadTells(out, Lock(s), password);
    hide Sync, Find, ActiveMessages, Mirrors, Load, S.EnsureMasterPassword, S.Sound;
  }

  lemma OpenedIsSound(v: S.Vault<Secret>, w: S.Vault<Secret>)
    requires S.Sound(v) && v.keyring.Some? && w.rows == v.rows && w.keyring == v.keyring && w.masterKey == Some(v.keyring.value.box.plain)
    ensures S.Sound(w)
  {
  }

  lemma MirrorHolds(ai: AIState)
    requires Mirrors(ai)
    ensures ActiveMessages(ai.sessions, ai.active) == ai.messages && ai.sessions != []
  {
  }

  /** After such an unlock the next saved update replaces what was stored of the conversation. */
  lemma MissedRestoreLosesTheConversation(out: Outside, s: Store, password: string, messages: seq<ChatMessage>)
    requires Persisted(s) && !s.stuck && Opens(password, s) && s.legacy == [] && out.vault(s.vault.draws)
    requires !out.vault(s.vault.draws + 1) || (out.vault(s.vault.draws + 2) && !out.vault(s.vault.draws + 3))
    ensures var t := Unlock(out, Lock(s), password).0;
            var (u, saved) := Update(out, t, t.ai.(messages := messages));
            saved ==> HISTORY in u.vault.rows && u.vault.rows[HISTORY].plain.Chats?
                      && ActiveMessages(u.vault.rows[HISTORY].plain.sessions, s.ai.active) == messages
  {
    MissedRestore(out, s, password);
    var t := Unlock(out, Lock(s), password).0;
    OpenedIsSound(s.vault, t.vault);
    MirrorHolds(s.ai);
    hide Sync, Find, ActiveMessages, Unlock, Mirrors, Update, S.Sound;
    if Update(out, t, t.ai.(messages := messages)).1 {
      UpdatePersists(out, t, t.ai.(messages := messages));
      UpdateMirrors(out, t, t.ai.(messages := messages));
      MirrorHolds(Update(out, t, t.ai.(messages := messages)).0.ai);
    }
  }

  /** Three unlocks that keep the store's lock: reading the history fails, storing the older one fails, writing the settings fails. */
  lemma UnlocksThatStick(out: Outside, s: Store, password: string)
    requires Accepts(out, s, password) && !s.stuck
    ensures Found(out, s) && !out.vault(LookAt(s) + 1) ==> Unlock(out, s, password).0.stuck
    ensures HISTORY !in s.vault.rows && s.legacy != [] && !out.vault(LookAt(s) + 2) ==> Unlock(out, s, password).0.stuck
    ensures HISTORY !in s.vault.rows && s.legacy != [] && !out.disk(s.saves) ==> Unlock(out, s, password).0.stuck
  {
    UnlockSticksExactly(out, s, password);
    hide Unlock, Accepts;
  }

  /** The first set-up over an older history: any password sets it up, and the store sticks exactly when the migration fails. */
  lemma FirstSetupSticksExactly(out: Outside, s: Store, password: string)
    requires S.Sound(s.vault) && s.vault.keyring.None? && password != "" && !s.stuck
    ensures var (t, ok) := Unlock(out, s, password);
            var d := s.vault.draws;
            && (t.stuck <==> out.vault(d) && out.vault(d + 1) && s.legacy != []
                             && !(out.vault(d + 3) && out.vault(d + 4) && out.disk(s.saves)))
            && (ok <==> out.vault(d) && out.vault(d + 1) && !t.stuck)
  {
    UnlockSticksExactly(out, s, password);
    hide Unlock;
  }

  /** A password that opens nothing leaves the store as it was and its lock free. */
  lemma RefusedPasswordNeverSticks(out: Outside, s: Store, password: string)
    requires !s.stuck && !Accepts(out, s, password)
    ensures var (t, ok) := Unlock(out, s, password);
            && !ok && t == s.(vault := t.vault) && t.vault.rows == s.vault.rows
            && t.vault.keyring == s.vault.keyring && t.vault.masterKey == s.vault.masterKey
  {
  }

  /**
   After any unlock that succeeds the active session has an entry with the live messages
   exactly when a history was read, an older one has just been migrated into it, or the
   state loaded had such an entry already.
   */
  lemma UnlockedMirrorsExactly(out: Outside, s: Store, password: string)
    requires !s.stuck
    ensures var (t, ok) := Unlock(out, s, password);
            ok ==> (Mirrors(t.ai) <==> !NothingRead(out, s) || s.legacy != [] || Mirrors(LoadedState(out, s)))
  {
    if Unlock(out, s, password).1 {
      UnlockLeaves(out, s, password);
      UnlockSticksExactly(out, s, password);
      if !NothingRead(out, s) {
        SyncMirrors(LoadedState(out, s).(messages := Stored(s.vault.rows[HISTORY].plain, s.ai.active)));
      }
      SyncMirrors(Sync(LoadedState(out, s)).(messages := s.legacy));
      hide Unlock, Sync, Find, Mirrors, LoadedState;
    }
  }

  /** A session created or forked while locked: not saved, yet active. */
  lemma LockedStart(out: Outside, s: Store, session: ChatSession)
    ensures var (t, started) := Start(out, Lock(s), session);
            && !started && t.ai.active == session.id && t.ai.messages == session.messages && t.legacy == s.legacy && t.stuck == s.stuck
            && t.vault == S.Lock(s.vault).(draws := t.vault.draws) && (S.Sound(s.vault) ==> S.Sound(t.vault))
  {
    HistoryIsAName();
    hide S.Blank, Find;
  }

  /** The accesses that tell an unlock about a stored history: the look for it and the keyring's status. */
  predicate Answered(out: Outside, s: Store) {
    out.vault(LookAt(s)) && out.vault(LookAt(s) + 2)
  }

  /**
   After any unlock that succeeds such a session has an entry exactly when the stored
   history was not seen, or an older one was migrated, or the stored sessions already
   had an entry that is not empty or matches the new session.
   */
  lemma StartedWhileLockedMirrorsExactly(out: Outside, s: Store, session: ChatSession, password: string)
    requires Persisted(s) && !s.stuck
    ensures var (t, started) := Start(out, Lock(s), session);
            var (u, ok) := Unlock(out, t, password);
            var active := ActiveIn(s.ai.sessions, session.id);
            && !started
            && (ok ==> (Mirrors(u.ai) <==>
                          || !Answered(out, t) || s.legacy != []
                          || (Find(s.ai.sessions, active).Some? && (ActiveMessages(s.ai.sessions, active) != [] || session.messages == []))))
            && (ok && Answered(out, t) && s.legacy == [] ==> u.ai.sessions == s.ai.sessions && u.ai.active == active)
  {
    LockedStart(out, s, session);
    var t := Start(out, Lock(s), session).0;
    if Unlock(out, t, password).1 {
      UnlockSticksExactly(out, t, password);
      UnlockedMirrorsExactly(out, t, password);
      UnlockLeaves(out, t, password);
      StartedReads(out, s, session);
      hide Start, Unlock, Sync, Find, Mirrors, Persisted, Unreadable, Unsealed, LoadedState, NothingRead, Answered, ActiveMessages, Stored;
      if Answered(out, t) && ActiveMessages(s.ai.sessions, ActiveIn(s.ai.sessions, session.id)) != [] {
        MirroredStays(LoadedState(out, t));
        SyncMirrors(LoadedState(out, t).(messages := ActiveMessages(s.ai.sessions, ActiveIn(s.ai.sessions, session.id))));
      } else if Answered(out, t) {
        MirrorsWhenEmpty(LoadedState(out, t));
      }
    }
  }

  lemma MirrorsWhenEmpty(ai: AIState)
    requires ActiveMessages(ai.sessions, ai.active) == []
    ensures Mirrors(ai) <==> Find(ai.sessions, ai.active).Some? && ai.messages == []
  {
    hide Find;
  }

  /** What an unlock after such a start reads and loads, if it can be read at all. */
  lemma StartedReads(out: Outside, s: Store, session: ChatSession)
    requires Persisted(s) && !Unreadable(out, Start(out, Lock(s), session).0)
    ensures var t := Start(out, Lock(s), session).0;
            var active := ActiveIn(s.ai.sessions, session.id);
            && HISTORY in t.vault.rows && Mirrors(t.ai)
            && (NothingRead(out, t) <==> !Answered(out, t) || ActiveMessages(s.ai.sessions, active) == [])
            && Stored(t.vault.rows[HISTORY].plain, t.ai.active) == ActiveMessages(s.ai.sessions, active)
            && LoadedState(out, t) == if Answered(out, t) then t.ai.(sessions := s.ai.sessions, active := active) else t.ai
  {
    LockedStart(out, s, session);
    StartMirrors(out, Lock(s), session);
    hide Start, Find, ActiveMessages;
  }

  lemma MirroredStays(ai: AIState)
    requires ActiveMessages(ai.sessions, ai.active) != []
    ensures Mirrors(ai.(messages := ActiveMessages(ai.sessions, ai.active)))
  {
    hide Find;
  }

  /** An unlock with the right password and every access succeeding succeeds when no older history waits. */
  lemma ReachedUnlockSucceeds(out: Outside, s: Store, session: ChatSession, password: string)
    requires Persisted(s) && !s.stuck && Opens(password, s) && s.legacy == [] && Reachable(out, Start(out, Lock(s), session).0)
    ensures var t := Start(out, Lock(s), session).0;
            Unlock(out, t, password).1 && Answered(out, t)
  {
    LockedStart(out, s, session);
    var t := Start(out, Lock(s), session).0;
    assert out.vault(t.vault.draws) && out.vault(t.vault.draws + 1) && out.vault(t.vault.draws + 2) && out.vault(t.vault.draws + 3);
    UnlockSticksExactly(out, t, password);
    hide Start, Unlock, Mirrors, Find, Reachable;
  }

  /** A session started while locked under a fresh identifier leaves the active one without an entry exactly when the history was seen and no older one waits. */
  lemma FreshStartDangles(out: Outside, s: Store, session: ChatSession, password: string)
    requires Persisted(s) && !s.stuck && Find(s.ai.sessions, session.id).None? && session.id != ""
    ensures var t := Start(out, Lock(s), session).0;
            var (u, ok) := Unlock(out, t, password);
            && (ok ==> (!Mirrors(u.ai) <==> Answered(out, t) && s.legacy == []))
            && (ok && !Mirrors(u.ai) ==> u.ai.active == session.id && u.ai.sessions == s.ai.sessions)
            && (Opens(password, s) && s.legacy == [] && Reachable(out, t) ==> ok && !Mirrors(u.ai))
  {
    StartedWhileLockedMirrorsExactly(out, s, session, password);
    var t := Start(out, Lock(s), session).0;
    if Opens(password, s) && s.legacy == [] && Reachable(out, t) {
      ReachedUnlockSucceeds(out, s, session, password);
    }
    hide Start, Unlock, Mirrors, Find, Persisted, Reachable, Opens, Answered;
  }

  /** Creating and forking while locked under a fresh identifier. */
  lemma CreatedWhileLockedDangles(out: Outside, s: Store, title: string, id: string, password: string)
    requires Persisted(s) && !s.stuck && Find(s.ai.sessions, NewID(s.clock)).None?
    ensures var t := Create(out, Lock(s), title).0;
            var (u, ok) := Unlock(out, t, password);
            && (ok ==> (!Mirrors(u.ai) <==> Answered(out, t) && s.legacy == []))
            && (Opens(password, s) && s.legacy == [] && Reachable(out, t) ==> ok && u.ai.active == NewID(s.clock) && !Mirrors(u.ai))
    ensures Find(s.ai.sessions, id).Some? ==>
              var t := Fork(out, Lock(s), id, title).0;
              var (u, ok) := Unlock(out, t, password);
              && (ok ==> (!Mirrors(u.ai) <==> Answered(out, t) && s.legacy == []))
              && (Opens(password, s) && s.legacy == [] && Reachable(out, t) ==> ok && u.ai.active == NewID(s.clock) && !Mirrors(u.ai))
  {
    assert NewID(s.clock)[0] == 'c';
    hide Find, NewID, Start, Unlock, Title, Mirrors, Reachable, S.Sound, Answered, Opens;
    FreshStartDangles(out, s, ChatSession(NewID(s.clock), Title(title, "New session"), []), password);
    if Find(s.ai.sessions, id).Some? {
      var source := s.ai.sessions[Find(s.ai.sessions, id).value];
      FreshStartDangles(out, s, ChatSession(NewID(s.clock), Title(title, source.title + " (fork)"), source.messages), password);
    }
  }

  /** Locking empties only the live list: selecting a session gives its conversation back without a password, for every listed session. */
  lemma LockedSelectGivesBack(out: Outside, s: Store, id: string)
    ensures var t := Select(out, Lock(s), id).0;
            && t.vault.masterKey.None?
            && t.ai.messages == if Find(s.ai.sessions, id).Some? then ActiveMessages(s.ai.sessions, id) else []
    ensures Mirrors(s.ai) ==> Select(out, Lock(s), s.ai.active).0.ai.messages == s.ai.messages
  {
    hide Find;
  }

  // ------------------------------------------------- what the service sees

  /** The part of the store's state the service's calls work on. */
  function Live(ai: AIState): T.AIState {
    T.AIState(ai.rest.providers, ai.rest.policy, ai.messages, ai.active, ai.rest.pendingCall)
  }

  /** What the service hands back after changing that part: the sessions are those it read. */
  function WithLive(ai: AIState, live: T.AIState): AIState {
    AIState(ai.sessions, live.chatSessionID, live.messages, Rest(live.providers, live.policy, live.pendingCall))
  }

  /** An update of this store is the save the service's transitions are built on. */
  lemma UpdateIsSave(out: Outside, s: Store, env: T.Environment, w: T.World, next: T.AIState)
    requires w.ai == Live(s.ai) && env.succeeds(w.draws) == Update(out, s, WithLive(s.ai, next)).1
    ensures var (t, ok) := Update(out, s, WithLive(s.ai, next));
            var (w', saved) := T.Save(env, w, next);
            Live(t.ai) == w'.ai && ok == saved
  {
    var state := WithLive(s.ai, next);
    if Update(out, s, state).1 {
      UpdateMirrors(out, s, state);
    } else {
      FailedUpdateRollsBack(out, s, state);
    }
    hide Update;
  }

  /** The update that follows the lock: it would drop continuation and requests. */
  function AfterLocking(ai: AIState): AIState {
    ai.(rest := ai.rest.(pendingCall := None, policy := ai.rest.policy.(pending := [])))
  }

  /** Locking is the service's transition, and drops continuation and requests exactly when no session is listed and the settings can be written. */
  lemma LockDropsApprovalsExactly(out: Outside, s: Store, env: T.Environment, w: T.World)
    requires w.ai == Live(s.ai) && env.succeeds(w.draws) == Update(out, Lock(s), AfterLocking(Lock(s).ai)).1
    ensures var (t, ok) := Update(out, Lock(s), AfterLocking(Lock(s).ai));
            && Live(t.ai.(messages := [])) == T.LockStorage(env, w).ai
            && (ok <==> s.ai.sessions == [] && out.disk(s.saves))
  {
    var locked := w.(ai := w.ai.(messages := []));
    assert WithLive(Lock(s).ai, Live(AfterLocking(Lock(s).ai))) == AfterLocking(Lock(s).ai);
    UpdateIsSave(out, Lock(s), env, locked, Live(AfterLocking(Lock(s).ai)));
    LockedUpdateIsRejected(out, Lock(s), AfterLocking(Lock(s).ai));
  }
}
