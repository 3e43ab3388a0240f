/**
 First-time set-up of the secret store as an interleaved protocol: it reads the
 keyring, writes it and keeps the key in memory, and other set-ups, unlocks and
 locks may come between any two of these.
 Models EnsureMasterPassword and Lock in internal/securestorage/manager.go,
 which hold no lock across those accesses.
 */
module SetupRace {
  import opened Text
  import opened SecureStorage

  /** Where a call stands; a key is held together with the number of the call that made it. */
  datatype Stage = Reads | Writes(key: Key, record: WrappedKey) | Keeps(key: Key, maker: nat) | Done

  datatype Setup = Setup(password: string, stage: Stage)

  /** History: the keys that were made, who wrote the keyring last, who kept a key last and whose key that was. */
  datatype State<T> = State(
    vault: Vault<T>, setups: seq<Setup>, made: map<nat, Key>, writer: Option<nat>, keeper: Option<nat>, kept: Option<nat>)

  datatype Move = Begin(password: string) | Continue(setup: nat) | Relock

  function At<T>(s: State<T>, i: nat, vault: Vault<T>, stage: Stage): State<T>
    requires i < |s.setups|
  {
    s.(vault := vault, setups := s.setups[i := s.setups[i].(stage := stage)])
  }

  /** Reading the keyring: a record is unwrapped, and none means making a key. */
  function Read<T>(world: World, s: State<T>, i: nat): State<T>
    requires i < |s.setups|
  {
    var password, v := s.setups[i].password, s.vault;
    if password == "" then At(s, i, v, Done)
    else if !world(v.draws) then At(s, i, Drawn(v), Done)
    else
      match v.keyring
      case Some(record) =>
        (match Unwrap(password, record)
         case None => At(s, i, Drawn(v), Done)
         case Some(key) => At(s, i, Drawn(v), if s.writer.Some? then Keeps(key, s.writer.value) else Done))
      case None =>
        var (key, record) := NewKey(v, password);
        At(s, i, Drawn(v).(randoms := v.randoms + 3), Writes(key, record)).(made := s.made[i := key])
  }

  function Write<T>(world: World, s: State<T>, i: nat, key: Key, record: WrappedKey): State<T>
    requires i < |s.setups|
  {
    if world(s.vault.draws) then At(s, i, Drawn(s.vault).(keyring := Some(record)), Keeps(key, i)).(writer := Some(i))
    else At(s, i, Drawn(s.vault), Done)
  }

  function Keep<T>(s: State<T>, i: nat, key: Key, maker: nat): State<T>
    requires i < |s.setups|
  {
    At(s, i, s.vault.(masterKey := Some(key)), Done).(keeper := Some(i), kept := Some(maker))
  }

  function Step<T>(world: World, s: State<T>, move: Move): State<T> {
    match move
    case Begin(password) => s.(setups := s.setups + [Setup(password, Reads)])
    case Relock => s.(vault := Lock(s.vault), keeper := None, kept := None)
    case Continue(i) =>
      if i >= |s.setups| then s
      else
        match s.setups[i].stage
        case Reads => Read(world, s, i)
        case Writes(key, record) => Write(world, s, i, key, record)
        case Keeps(key, maker) => Keep(s, i, key, maker)
        case Done => s
  }

  function Run<T>(world: World, s: State<T>, moves: seq<Move>): State<T> {
    if moves == [] then s else Step(world, Run(world, s, moves[..|moves| - 1]), moves[|moves| - 1])
  }

  /** No call under way and nothing set up. */
  function Idle<T>(v: Vault<T>): State<T> {
    State(v, [], map[], None, None, None)
  }

  ghost predicate Empty<T>(v: Vault<T>) {
    v.keyring.None? && v.masterKey.None?
  }

  /** A call that nothing interrupts does what `EnsureMasterPassword` does. */
  lemma UninterruptedIsSequential<T>(world: World, s: State<T>, password: string)
    requires s.vault.keyring.Some? ==> s.writer.Some?
    ensures var i := |s.setups|;
            Step(world, Step(world, Step(world, Step(world, s, Begin(password)), Continue(i)), Continue(i)), Continue(i)).vault
            == EnsureMasterPassword(world, s.vault, password).0
  {
  }

  // -------------------------------------------------------------- invariant

  /** Keys are told apart by their makers. */
  ghost predicate MadeApart<T>(s: State<T>) {
    && (forall i :: i in s.made ==> i < |s.setups| && s.made[i].Master? && s.made[i].n < s.vault.randoms)
    && (forall i, j :: i in s.made && j in s.made && s.made[i] == s.made[j] ==> i == j)
  }

  ghost predicate StageTells<T>(s: State<T>, i: nat)
    requires i < |s.setups|
  {
    match s.setups[i].stage
    case Reads => i !in s.made
    case Writes(key, record) => i in s.made && s.made[i] == key && Wraps(record, s.setups[i].password, key)
    case Keeps(key, maker) => maker in s.made && s.made[maker] == key && s.writer.Some? && (i in s.made ==> maker == i)
    case Done => true
  }

  predicate Wraps(record: WrappedKey, password: string, key: Key) {
    record.box.plain == key && record.box.key == Derived(password, record.salt) && password != ""
  }

  ghost predicate Told<T>(s: State<T>) {
    && MadeApart(s)
    && (forall i :: 0 <= i < |s.setups| ==> StageTells(s, i))
    && (s.writer.None? <==> s.vault.keyring.None?)
    && (s.writer.Some? ==> s.writer.value in s.made && s.writer.value < |s.setups|
                           && Wraps(s.vault.keyring.value, s.setups[s.writer.value].password, s.made[s.writer.value]))
    && (s.kept.None? <==> s.vault.masterKey.None?)
    && (s.kept.None? <==> s.keeper.None?)
    && (s.kept.Some? ==> s.writer.Some? && s.kept.value in s.made && s.vault.masterKey.value == s.made[s.kept.value]
                         && s.keeper.value < |s.setups| && (s.keeper.value in s.made ==> s.kept == s.keeper))
  }

  lemma ReadMadeApart<T>(world: World, s: State<T>, i: nat)
    requires MadeApart(s) && i < |s.setups|
    ensures MadeApart(Read(world, s, i))
  {
  }

  lemma ReadTold<T>(world: World, s: State<T>, i: nat)
    requires Told(s) && i < |s.setups| && s.setups[i].stage.Reads?
    ensures Told(Read(world, s, i))
  {
    var s' := Read(world, s, i);
    ReadMadeApart(world, s, i);
    hide MadeApart;
    assert StageTells(s, i);
    forall j | 0 <= j < |s'.setups| ensures StageTells(s', j) {
      assert StageTells(s, j);
    }
  }

  lemma WriteTold<T>(world: World, s: State<T>, i: nat)
    requires Told(s) && i < |s.setups| && s.setups[i].stage.Writes?
    ensures Told(Write(world, s, i, s.setups[i].stage.key, s.setups[i].stage.record))
  {
    var s' := Write(world, s, i, s.setups[i].stage.key, s.setups[i].stage.record);
    assert StageTells(s, i);
    forall j | 0 <= j < |s'.setups| ensures StageTells(s', j) {
      assert StageTells(s, j);
    }
  }

  lemma KeepTold<T>(s: State<T>, i: nat)
    requires Told(s) && i < |s.setups| && s.setups[i].stage.Keeps?
    ensures Told(Keep(s, i, s.setups[i].stage.key, s.setups[i].stage.maker))
  {
    var s' := Keep(s, i, s.setups[i].stage.key, s.setups[i].stage.maker);
    assert StageTells(s, i);
    forall j | 0 <= j < |s'.setups| ensures StageTells(s', j) {
      assert StageTells(s, j);
    }
  }

  lemma BeginTold<T>(s: State<T>, password: string)
    requires Told(s)
    ensures Told(s.(setups := s.setups + [Setup(password, Reads)]))
  {
    var s' := s.(setups := s.setups + [Setup(password, Reads)]);
    forall j | 0 <= j < |s'.setups| ensures StageTells(s', j) {
      assert j < |s.setups| ==> StageTells(s, j);
    }
  }

  lemma LockTold<T>(world: World, s: State<T>)
    requires Told(s)
    ensures Told(Step(world, s, Relock))
  {
    var s' := Step(world, s, Relock);
    forall j | 0 <= j < |s'.setups| ensures StageTells(s', j) {
      assert StageTells(s, j);
    }
  }

  lemma StepTold<T>(world: World, s: State<T>, move: Move)
    requires Told(s)
    ensures Told(Step(world, s, move))
  {
    hide Told, Read, Write, Keep;
    match move
    case Begin(password) => BeginTold(s, password);
    case Relock => LockTold(world, s);
    case Continue(i) =>
      if i < |s.setups| {
        match s.setups[i].stage
        case Reads => ReadTold(world, s, i);
        case Writes(_, _) => WriteTold(world, s, i);
        case Keeps(_, _) => KeepTold(s, i);
        case Done =>
      }
  }

  lemma {:induction false} RunTold<T>(world: World, s: State<T>, moves: seq<Move>)
    requires Told(s)
    ensures Told(Run(world, s, moves))
  {
    hide Told, Step;
    if moves != [] {
      RunTold(world, s, moves[..|moves| - 1]);
      StepTold(world, Run(world, s, moves[..|moves| - 1]), moves[|moves| - 1]);
    }
  }

  // ------------------------------------------------------------ agreement

  /** The key in memory is the one the keyring wraps. */
  predicate Agrees<T>(v: Vault<T>) {
    v.masterKey.Some? && v.keyring.Some? && v.masterKey.value == v.keyring.value.box.plain
  }

  /**
   Over every run from an empty store, memory and keyring agree exactly when a key
   is in memory and the call that wrote the keyring last made it; when the call that
   kept it made its own, exactly when the last writer also kept last.
   */
  lemma AgreeExactlyWhenWriterKeptLast<T>(world: World, v: Vault<T>, moves: seq<Move>)
    requires Empty(v)
    ensures var s := Run(world, Idle(v), moves);
            && (Agrees(s.vault) <==> s.kept.Some? && s.kept == s.writer)
            && (s.keeper.Some? && s.keeper.value in s.made ==> (Agrees(s.vault) <==> s.keeper == s.writer))
            && (s.vault.masterKey.Some? <==> s.kept.Some?) && (s.kept.Some? ==> s.vault.keyring.Some? && s.writer.Some?)
  {
    hide Run;
    assert Told(Idle(v));
    RunTold(world, Idle(v), moves);
  }

  /** Two set-ups that both found the keyring empty and are both done: the same key exactly when the last writer kept last. */
  lemma TwoSetupsAgreeExactly<T>(world: World, v: Vault<T>, moves: seq<Move>)
    requires Empty(v)
    requires var s := Run(world, Idle(v), moves);
             |s.setups| == 2 && 0 in s.made && 1 in s.made && s.setups[0].stage.Done? && s.setups[1].stage.Done?
    ensures var s := Run(world, Idle(v), moves);
            Agrees(s.vault) <==> s.keeper.Some? && s.keeper == s.writer
  {
    hide Run;
    assert Told(Idle(v));
    RunTold(world, Idle(v), moves);
    AgreeExactlyWhenWriterKeptLast(world, v, moves);
  }

  /** No two calls are under way at once. */
  ghost predicate OneAtATime<T>(s: State<T>) {
    forall i, j :: 0 <= i < j < |s.setups| ==> s.setups[i].stage.Done? || s.setups[j].stage.Done?
  }

  ghost predicate Serial<T>(world: World, s: State<T>, moves: seq<Move>) {
    OneAtATime(Run(world, s, moves)) && (moves == [] || Serial(world, s, moves[..|moves| - 1]))
  }

  ghost predicate InStep<T>(s: State<T>) {
    && (s.kept.Some? ==> s.kept == s.writer)
    && (forall i :: 0 <= i < |s.setups| && s.setups[i].stage.Writes? ==> s.writer.None? && s.kept.None?)
    && (forall i :: 0 <= i < |s.setups| && s.setups[i].stage.Keeps? ==> s.writer == Some(s.setups[i].stage.maker))
  }

  lemma StepInStep<T>(world: World, s: State<T>, move: Move)
    requires Told(s) && InStep(s) && OneAtATime(s)
    ensures InStep(Step(world, s, move))
  {
    hide MadeApart, Wraps;
    if move.Continue? && move.setup < |s.setups| {
      assert StageTells(s, move.setup);
    }
  }

  lemma {:induction false} RunInStep<T>(world: World, v: Vault<T>, moves: seq<Move>)
    requires Empty(v) && Serial(world, Idle(v), moves)
    ensures InStep(Run(world, Idle(v), moves))
  {
    hide InStep, Told, OneAtATime, Step;
    if moves == [] {
      assert InStep(Idle(v)) by { IdleInStep(v); }
    } else {
      var n := |moves| - 1;
      RunInStep(world, v, moves[..n]);
      assert Told(Idle(v)) by { IdleTold(v); }
      RunTold(world, Idle(v), moves[..n]);
      SerialPrefix(world, Idle(v), moves);
      StepInStep(world, Run(world, Idle(v), moves[..n]), moves[n]);
    }
  }

  lemma SerialPrefix<T>(world: World, s: State<T>, moves: seq<Move>)
    requires Serial(world, s, moves) && moves != []
    ensures OneAtATime(Run(world, s, moves[..|moves| - 1]))
  {
    hide OneAtATime, Step;
  }

  lemma IdleTold<T>(v: Vault<T>)
    requires Empty(v)
    ensures Told(Idle(v))
  {
  }

  lemma IdleInStep<T>(v: Vault<T>)
    ensures InStep(Idle(v))
  {
  }

  /** When no two calls overlap, a key in memory is always the keyring's. */
  lemma SerialSetupsAgree<T>(world: World, v: Vault<T>, moves: seq<Move>)
    requires Empty(v) && Serial(world, Idle(v), moves) && Run(world, Idle(v), moves).vault.masterKey.Some?
    ensures Agrees(Run(world, Idle(v), moves).vault)
  {
    hide Run, Serial;
    RunInStep(world, v, moves);
    AgreeExactlyWhenWriterKeptLast(world, v, moves);
    IdleTold(v);
    RunTold(world, Idle(v), moves);
  }

  // ----------------------------------------------- what a disagreement costs

  /** The accesses of storing, unlocking and loading that follow. */
  predicate Reachable<T>(world: World, v: Vault<T>) {
    forall k :: v.draws <= k < v.draws + 5 ==> world(k)
  }

  /** What a caller finds who stores a secret, locks, unlocks with a password and loads it. */
  function StoredAndReopened<T>(world: World, v: Vault<T>, name: string, secret: T, password: string): (Outcome<T>, Outcome<T>, Outcome<T>) {
    var (stored, kept) := StoreSecret(world, v, name, secret);
    var (again, unlocked) := EnsureMasterPassword(world, Lock(stored), password);
    (kept, unlocked, LoadSecret(world, again, name).1)
  }

  lemma ReopensExactlyWhenAgreeing<T>(world: World, v: Vault<T>, name: string, secret: T, password: string)
    requires v.masterKey.Some? && v.keyring.Some? && Wraps(v.keyring.value, password, v.keyring.value.box.plain)
    requires !Blank(name) && Reachable(world, v)
    ensures StoredAndReopened(world, v, name, secret, password)
            == (Ok, Ok, if Agrees(v) then Value(Some(secret)) else Unavailable)
  {
    hide Blank;
    assert world(v.draws) && world(v.draws + 1) && world(v.draws + 2) && world(v.draws + 3) && world(v.draws + 4);
  }

  /**
   In every run from an empty store, a secret stored while a key is in memory can be
   loaded after locking and unlocking with the last writer's password exactly when
   the key kept last was made by that writer; otherwise it is lost.
   */
  lemma SecretsSurviveExactly<T>(world: World, v: Vault<T>, moves: seq<Move>, name: string, secret: T)
    requires Empty(v) && Run(world, Idle(v), moves).vault.masterKey.Some?
    requires !Blank(name) && Reachable(world, Run(world, Idle(v), moves).vault)
    ensures var s := Run(world, Idle(v), moves);
            && s.writer.Some? && s.writer.value < |s.setups|
            && StoredAndReopened(world, s.vault, name, secret, s.setups[s.writer.value].password)
               == (Ok, Ok, if s.kept == s.writer then Value(Some(secret)) else Unavailable)
  {
    hide Run, StoredAndReopened, Blank, Reachable, MadeApart, StageTells;
    AgreeExactlyWhenWriterKeptLast(world, v, moves);
    IdleTold(v);
    RunTold(world, Idle(v), moves);
    var s := Run(world, Idle(v), moves);
    ReopensExactlyWhenAgreeing(world, s.vault, name, secret, s.setups[s.writer.value].password);
  }

  // --------------------------------------------------------- a run that fails

  /** Both calls find the keyring empty; the first to write it keeps its key last. */
  function Overlapping(first: string, second: string): seq<Move> {
    [Begin(first), Begin(second)] + [Continue(0), Continue(1)] + [Continue(0), Continue(1)] + [Continue(1), Continue(0)]
  }

  lemma ThenTwo<T>(world: World, s: State<T>, moves: seq<Move>, a: Move, b: Move)
    ensures Run(world, s, moves + [a, b]) == Step(world, Step(world, Run(world, s, moves), a), b)
  {
    hide Step;
    assert (moves + [a, b])[..|moves| + 1] == moves + [a];
    assert (moves + [a])[..|moves|] == moves;
  }

  lemma BothBegin<T>(world: World, v: Vault<T>, first: string, second: string)
    ensures Run(world, Idle(v), [Begin(first), Begin(second)]) == Idle(v).(setups := [Setup(first, Reads), Setup(second, Reads)])
  {
    ThenTwo(world, Idle(v), [], Begin(first), Begin(second));
    assert [] + [Begin(first), Begin(second)] == [Begin(first), Begin(second)];
  }

  lemma BothRead<T>(world: World, s: State<T>)
    requires |s.setups| == 2 && s.setups[0].stage.Reads? && s.setups[1].stage.Reads? && s.vault.keyring.None?
    requires s.setups[0].password != "" && s.setups[1].password != "" && world(s.vault.draws) && world(s.vault.draws + 1)
    ensures var s' := Step(world, Step(world, s, Continue(0)), Continue(1));
            && |s'.setups| == 2 && s'.setups[0].stage.Writes? && s'.setups[1].stage.Writes?
            && s'.setups[0].stage.key != s'.setups[1].stage.key && s'.setups[1].stage.record.box.plain == s'.setups[1].stage.key
            && 0 in s'.made && 1 in s'.made && s'.vault.draws == s.vault.draws + 2
  {
  }

  lemma BothWrite<T>(world: World, s: State<T>)
    requires |s.setups| == 2 && s.setups[0].stage.Writes? && s.setups[1].stage.Writes?
    requires world(s.vault.draws) && world(s.vault.draws + 1)
    ensures var s' := Step(world, Step(world, s, Continue(0)), Continue(1));
            && s'.setups == [s.setups[0].(stage := Keeps(s.setups[0].stage.key, 0)), s.setups[1].(stage := Keeps(s.setups[1].stage.key, 1))]
            && s'.made == s.made && s'.writer == Some(1) && s'.vault.keyring == Some(s.setups[1].stage.record)
  {
  }

  lemma FirstKeepsLast<T>(world: World, s: State<T>)
    requires |s.setups| == 2 && s.setups[0].stage.Keeps? && s.setups[1].stage.Keeps?
    ensures var s' := Step(world, Step(world, s, Continue(1)), Continue(0));
            && |s'.setups| == 2 && s'.setups[0].stage.Done? && s'.setups[1].stage.Done? && s'.made == s.made
            && s'.writer == s.writer && s'.keeper == Some(0)
            && s'.vault.keyring == s.vault.keyring && s'.vault.masterKey == Some(s.setups[0].stage.key)
  {
  }

  /** From any empty store two overlapping set-ups can leave a key in memory that the keyring does not wrap. */
  lemma OverlappingSetupsDisagree<T>(world: World, v: Vault<T>, first: string, second: string)
    requires Empty(v) && first != "" && second != "" && forall k :: v.draws <= k < v.draws + 4 ==> world(k)
    ensures var s := Run(world, Idle(v), Overlapping(first, second));
            && |s.setups| == 2 && s.setups[0].stage.Done? && s.setups[1].stage.Done? && 0 in s.made && 1 in s.made
            && s.writer == Some(1) && s.keeper == Some(0) && s.vault.masterKey.Some? && !Agrees(s.vault)
  {
    hide Run, Step;
    assert world(v.draws) && world(v.draws + 1) && world(v.draws + 2) && world(v.draws + 3);
    var m1 := [Begin(first), Begin(second)];
    var m2 := m1 + [Continue(0), Continue(1)];
    var m3 := m2 + [Continue(0), Continue(1)];
    BothBegin(world, v, first, second);
    ThenTwo(world, Idle(v), m1, Continue(0), Continue(1));
    BothRead(world, Run(world, Idle(v), m1));
    ThenTwo(world, Idle(v), m2, Continue(0), Continue(1));
    BothWrite(world, Run(world, Idle(v), m2));
    ThenTwo(world, Idle(v), m3, Continue(1), Continue(0));
    FirstKeepsLast(world, Run(world, Idle(v), m3));
  }
}
