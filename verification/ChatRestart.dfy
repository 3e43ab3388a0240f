/**
 The chat across a restart: what the settings file and the secret store give
 back once the password is entered again, and what becomes of the unencrypted
 history an older version left in the settings file.
 Models loadSettings and aiStateFromPersisted in internal/storage/disk/store.go.
 */
module ChatRestart {
  import opened Text
  import CommandPolicy
  import S = SecureStorage
  import T = ToolCalling
  import opened ChatStore

  predicate HasProvider(providers: seq<T.Provider>, id: string) {
    exists i :: 0 <= i < |providers| && providers[i].id == id
  }

  /** Built-in providers that the file does not name are added at the end. */
  function WithDefaults(providers: seq<T.Provider>, defaults: seq<T.Provider>): seq<T.Provider>
    decreases |defaults|
  {
    if defaults == [] then providers
    else WithDefaults(if HasProvider(providers, defaults[0].id) then providers else providers + [defaults[0]], defaults[1..])
  }

  function WithTools(policy: CommandPolicy.Policy): CommandPolicy.Policy {
    if policy.tools == [] then policy.(tools := CommandPolicy.DefaultTools()) else policy
  }

  /** What is read back from the file; a continuation is not in it. */
  function FromSettings(file: Settings, defaults: seq<T.Provider>): AIState {
    AIState([], file.active, [], Rest(WithDefaults(file.providers, defaults), WithTools(file.policy), None))
  }

  /** The program ends and starts again: a new store on the same file, database and keyring. */
  function Restart(out: Outside, s: Store, defaults: seq<T.Provider>): (Store, bool) {
    var begun := s.(ai := FromSettings(s.file, defaults), legacy := s.file.legacy, vault := S.Lock(s.vault), stuck := false);
    var (t, loaded) := Load(out, begun);
    match loaded
    case Broken => (t, false)
    case History(messages) => (t.(ai := t.ai.(messages := messages)), true)
    case Nothing => (if t.ai.sessions == [] then t.(ai := Sync(t.ai)) else t, true)
  }

  // ----------------------------------------------------------- what is read back

  lemma {:induction false} DefaultsPresent(providers: seq<T.Provider>, defaults: seq<T.Provider>)
    ensures WithDefaults(providers, defaults) == providers <==> forall i :: 0 <= i < |defaults| ==> HasProvider(providers, defaults[i].id)
    ensures providers <= WithDefaults(providers, defaults)
    decreases |defaults|
  {
    if defaults != [] {
      var more := if HasProvider(providers, defaults[0].id) then providers else providers + [defaults[0]];
      DefaultsPresent(more, defaults[1..]);
      assert forall i :: 0 < i < |defaults| ==> defaults[i] == defaults[1..][i - 1];
      if HasProvider(providers, defaults[0].id) {
        if forall i :: 0 <= i < |defaults[1..]| ==> HasProvider(providers, defaults[1..][i].id) {
          forall i | 0 <= i < |defaults| ensures HasProvider(providers, defaults[i].id) {
            assert i > 0 ==> HasProvider(providers, defaults[1..][i - 1].id);
          }
        }
      } else {
        assert |WithDefaults(more, defaults[1..])| > |providers|;
      }
    }
  }

  /** The file knows every built-in provider and some tools, as it does from the second start on. */
  predicate Settled(rest: Rest, defaults: seq<T.Provider>) {
    rest.policy.tools != [] && forall i :: 0 <= i < |defaults| ==> HasProvider(rest.providers, defaults[i].id)
  }

  /** The state without its continuation. */
  function Forgetting(ai: AIState): AIState {
    ai.(rest := ai.rest.(pendingCall := None))
  }

  /** What the chat is before the password is entered: one session without messages, under the active identifier. */
  function Sealed(ai: AIState): AIState {
    Forgetting(ai).(sessions := [ChatSession(ai.active, "Main session", [])], messages := [])
  }

  /** A restart of a saved state gives an empty chat with providers, policy and active session as they were, unless the history is found and its row cannot be read. */
  lemma RestartTells(out: Outside, s: Store, defaults: seq<T.Provider>)
    requires Persisted(s) && s.file == SettingsOf(s.ai) && Settled(s.ai.rest, defaults)
    ensures var (u, ok) := Restart(out, s, defaults);
            && (ok <==> !out.vault(s.vault.draws) || out.vault(s.vault.draws + 1))
            && (ok ==> && u.ai == Sealed(s.ai) && u.legacy == [] && !u.stuck && u.file == s.file
                       && u.vault == S.Lock(s.vault).(draws := u.vault.draws))
  {
    HistoryIsAName();
    DefaultsPresent(s.ai.rest.providers, defaults);
    hide S.Blank, WithDefaults, Mirrors, HasProvider;
    NothingSynced(s.ai.active, Rest(s.ai.rest.providers, s.ai.rest.policy, None));
  }

  lemma NothingSynced(active: string, rest: Rest)
    ensures Sync(AIState([], active, [], rest)) == AIState([ChatSession(active, "Main session", [])], active, [], rest)
  {
  }

  /**
   After a restart and an unlock that succeeds, everything saved is back but the continuation,
   exactly when the unlock saw the stored history and the active session keeps its identifier,
   or there was nothing to give back.
   */
  lemma RestartThenUnlockRestores(out: Outside, s: Store, defaults: seq<T.Provider>, password: string)
    requires Persisted(s) && s.file == SettingsOf(s.ai) && Settled(s.ai.rest, defaults) && Restart(out, s, defaults).1
    ensures var u := Restart(out, s, defaults).0;
            var (t, ok) := Unlock(out, u, password);
            ok ==> (t.ai == Forgetting(s.ai) <==> if Answered(out, u) then KeepsActive(s.ai) else Forgetting(s.ai) == Sealed(s.ai))
  {
    RestartTells(out, s, defaults);
    var u := Restart(out, s, defaults).0;
    if Unlock(out, u, password).1 {
      UnlockSticksExactly(out, u, password);
      UnlockLeaves(out, u, password);
      SealedReads(out, s, u);
      SyncMirrors(Forgetting(s.ai));
      assert Mirrors(Forgetting(s.ai)) == Mirrors(s.ai);
      MirrorHolds(s.ai);
      SyncKeepsActive(LoadedState(out, u).(messages := Stored(u.vault.rows[HISTORY].plain, u.ai.active)));
      hide Restart, Unlock, Sync, Mirrors, Persisted, Unreadable, Unsealed, LoadedState, NothingRead, Answered, ActiveMessages, Stored;
    }
  }

  lemma SyncKeepsActive(ai: AIState)
    ensures Sync(ai).active == ai.active && Sync(ai).messages == ai.messages
  {
    hide Find;
  }

  lemma SealedReads(out: Outside, s: Store, u: Store)
    requires Persisted(s) && u.ai == Sealed(s.ai) && u.vault == S.Lock(s.vault).(draws := u.vault.draws) && !Unreadable(out, u)
    ensures HISTORY in u.vault.rows
    ensures NothingRead(out, u) <==> !Answered(out, u) || ActiveMessages(s.ai.sessions, ActiveIn(s.ai.sessions, s.ai.active)) == []
    ensures Stored(u.vault.rows[HISTORY].plain, u.ai.active) == ActiveMessages(s.ai.sessions, ActiveIn(s.ai.sessions, s.ai.active))
    ensures LoadedState(out, u) == if Answered(out, u) then u.ai.(sessions := s.ai.sessions, active := ActiveIn(s.ai.sessions, s.ai.active)) else u.ai
  {
    hide Find, ActiveMessages;
  }

  // -------------------------------------------------- the older version's history

  /** A call that succeeds has written the settings file, and the file then no longer holds the older history; any other leaves the file alone. */
  lemma CallWritesFile(out: Outside, s: Store, call: Call)
    ensures var (t, ok) := Step(out, s, call); t.file == (if ok then t.file.(legacy := []) else s.file)
  {
    hide S.StoreSecret, Sync, Find, NewID, Title;
  }

  ghost predicate SomeSucceeds(out: Outside, s: Store, calls: seq<Call>) {
    calls != [] && (SomeSucceeds(out, s, calls[..|calls| - 1]) || Step(out, Run(out, s, calls[..|calls| - 1]), calls[|calls| - 1]).1)
  }

  /**
   An unencrypted history that waits in the settings file for the first unlock is there at the
   next start exactly if no call has succeeded in between: each success rewrites the file without it.
   */
  lemma {:induction false} OlderHistoryWaitsExactly(out: Outside, s: Store, calls: seq<Call>, defaults: seq<T.Provider>)
    requires s.file.legacy != []
    ensures Run(out, s, calls).file.legacy == (if SomeSucceeds(out, s, calls) then [] else s.file.legacy)
    ensures Restart(out, Run(out, s, calls), defaults).0.legacy == if SomeSucceeds(out, s, calls) then [] else s.file.legacy
  {
    hide Step, Load, FromSettings, Sync;
    LoadKeepsLegacy(out, Run(out, s, calls), defaults);
    if calls != [] {
      OlderHistoryWaitsExactly(out, s, calls[..|calls| - 1], defaults);
      CallWritesFile(out, Run(out, s, calls[..|calls| - 1]), calls[|calls| - 1]);
    }
  }

  lemma LoadKeepsLegacy(out: Outside, s: Store, defaults: seq<T.Provider>)
    ensures Restart(out, s, defaults).0.legacy == s.file.legacy
  {
    hide S.LoadSecret, S.SecretExists, FromSettings, Sync, Find;
  }

  /** One call that loses it: while it still waits and the store is locked, selecting a listed session succeeds; at the next start nothing holds the history any more. */
  lemma SelectLosesOlderHistory(out: Outside, s: Store, id: string, defaults: seq<T.Provider>)
    requires s.file.legacy != [] && HISTORY !in s.vault.rows && Find(s.ai.sessions, id).Some? && out.disk(s.saves)
    ensures var (t, ok) := Select(out, s, id);
            var u := Restart(out, t, defaults).0;
            ok && u.legacy == [] && HISTORY !in u.vault.rows && u.ai.messages == []
  {
    SelectTells(out, s, id);
    LoadKeepsLegacy(out, Select(out, s, id).0, defaults);
    NothingStored(out, Select(out, s, id).0, defaults);
    hide Restart, Find, Select;
  }

  lemma NothingStored(out: Outside, s: Store, defaults: seq<T.Provider>)
    requires HISTORY !in s.vault.rows
    ensures var u := Restart(out, s, defaults).0; HISTORY !in u.vault.rows && u.ai.messages == []
  {
    HistoryIsAName();
    hide S.Blank, WithDefaults, Find;
  }
}
