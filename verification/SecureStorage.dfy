/**
 The secret store: secrets sealed under one master key, which is itself wrapped
 under a password in the operating system's keyring.
 Models internal/securestorage/manager.go, with sealing taken symbolically: a
 box opens under exactly the key that sealed it.
 */
module SecureStorage {
  import opened Text

  // ----------------------------------------------------------------- sealing

  datatype Key = Master(n: nat) | Derived(password: string, salt: nat)

  datatype Sealed<T> = Sealed(key: Key, nonce: nat, plain: T)

  function Unseal<T>(key: Key, box: Sealed<T>): Option<T> {
    if box.key == key then Some(box.plain) else None
  }

  datatype WrappedKey = WrappedKey(salt: nat, box: Sealed<Key>)

  function Unwrap(password: string, record: WrappedKey): Option<Key> {
    Unseal(Derived(password, record.salt), record.box)
  }

  // ------------------------------------------------------------------- state

  /** The database rows, the keyring entry, the key in memory, and counters for random draws and for outside answers. */
  datatype Vault<T> = Vault(
    rows: map<string, Sealed<T>>, keyring: Option<WrappedKey>, masterKey: Option<Key>, randoms: nat, draws: nat)

  datatype Outcome<T> = Ok | Value(value: Option<T>) | PasswordRequired | InvalidPassword | Rejected | Unavailable

  /** Whether the n-th access to the keyring or the database succeeds. */
  type World = nat -> bool

  predicate Blank(name: string) {
    forall i :: 0 <= i < |name| ==> name[i] == ' ' || name[i] == '\n' || name[i] == '\r' || name[i] == '\t'
  }

  function Drawn<T>(v: Vault<T>): Vault<T> {
    v.(draws := v.draws + 1)
  }

  /** A new master key and its record, made when the keyring has none. */
  function NewKey<T>(v: Vault<T>, password: string): (Key, WrappedKey) {
    (Master(v.randoms), WrappedKey(v.randoms + 1, Sealed(Derived(password, v.randoms + 1), v.randoms + 2, Master(v.randoms))))
  }

  function EnsureMasterPassword<T>(world: World, v: Vault<T>, password: string): (Vault<T>, Outcome<T>) {
    if password == "" then (v, Rejected)
    else if !world(v.draws) then (Drawn(v), Unavailable)
    else
      match v.keyring
      case Some(record) =>
        (match Unwrap(password, record)
         case None => (Drawn(v), InvalidPassword)
         case Some(key) => (Drawn(v).(masterKey := Some(key)), Ok))
      case None =>
        var (key, record) := NewKey(v, password);
        var w := v.(randoms := v.randoms + 3, draws := v.draws + 2);
        if world(v.draws + 1) then (w.(keyring := Some(record), masterKey := Some(key)), Ok) else (w, Unavailable)
  }

  /** The key, if the keyring answers, holds a record, and the key is in memory. */
  function Unlocked<T>(world: World, v: Vault<T>): Option<Key> {
    if world(v.draws) && v.keyring.Some? then v.masterKey else None
  }

  function StoreSecret<T>(world: World, v: Vault<T>, name: string, secret: T): (Vault<T>, Outcome<T>) {
    if Blank(name) then (v, Rejected)
    else
      match Unlocked(world, v)
      case None => (Drawn(v), PasswordRequired)
      case Some(key) =>
        var w := v.(randoms := v.randoms + 1, draws := v.draws + 2);
        if world(v.draws + 1) then (w.(rows := v.rows[name := Sealed(key, v.randoms, secret)]), Ok) else (w, Unavailable)
  }

  function LoadSecret<T>(world: World, v: Vault<T>, name: string): (Vault<T>, Outcome<T>) {
    if Blank(name) then (v, Value(None))
    else if !world(v.draws) then (Drawn(v), Unavailable)
    else if name !in v.rows then (Drawn(v), Value(None))
    else
      match Unlocked(world, Drawn(v))
      case None => (Drawn(Drawn(v)), PasswordRequired)
      case Some(key) =>
        match Unseal(key, v.rows[name])
        case None => (Drawn(Drawn(v)), Unavailable)
        case Some(secret) => (Drawn(Drawn(v)), Value(Some(secret)))
  }

  function DeleteSecret<T>(world: World, v: Vault<T>, name: string): (Vault<T>, Outcome<T>) {
    if Blank(name) then (v, Ok)
    else if world(v.draws) then (Drawn(v).(rows := v.rows - {name}), Ok)
    else (Drawn(v), Unavailable)
  }

  function SecretExists<T>(world: World, v: Vault<T>, name: string): (Vault<T>, bool) {
    if Blank(name) then (v, false) else (Drawn(v), world(v.draws) && name in v.rows)
  }

  function Lock<T>(v: Vault<T>): Vault<T> {
    v.(masterKey := None)
  }

  // --------------------------------------------------------------- the class

  class Manager<T(==)> {
    const world: World
    var rows: map<string, Sealed<T>>
    var keyring: Option<WrappedKey>
    var masterKey: Option<Key>
    var randoms: nat
    var draws: nat

    ghost function State(): Vault<T>
      reads this
    {
      Vault(rows, keyring, masterKey, randoms, draws)
    }

    constructor (world: World)
      ensures this.world == world && State() == Vault(map[], None, None, 0, 0)
    {
      this.world := world;
      rows, keyring, masterKey, randoms, draws := map[], None, None, 0, 0;
    }

    method Reach() returns (ok: bool)
      modifies `draws
      ensures ok == world(old(draws)) && draws == old(draws) + 1
    {
      ok := world(draws);
      draws := draws + 1;
    }

    method Random() returns (n: nat)
      modifies `randoms
      ensures n == old(randoms) && randoms == n + 1
    {
      n := randoms;
      randoms := randoms + 1;
    }

    method Ensure(password: string) returns (outcome: Outcome<T>)
      modifies this
      ensures (State(), outcome) == EnsureMasterPassword(world, old(State()), password)
    {
      if password == "" {
        return Rejected;
      }
      var ok := Reach();
      if !ok {
        return Unavailable;
      }
      if keyring.Some? {
        var key := Unwrap(password, keyring.value);
        if key.None? {
          return InvalidPassword;
        }
        masterKey := key;
        return Ok;
      }
      var n := Random();
      var salt := Random();
      var nonce := Random();
      var record := WrappedKey(salt, Sealed(Derived(password, salt), nonce, Master(n)));
      ok := Reach();
      if !ok {
        return Unavailable;
      }
      keyring := Some(record);
      masterKey := Some(Master(n));
      return Ok;
    }

    method RequireUnlockedMasterKey() returns (key: Option<Key>)
      modifies `draws
      ensures key == Unlocked(world, old(State())) && draws == old(draws) + 1
    {
      var ok := Reach();
      if !ok || keyring.None? {
        return None;
      }
      return masterKey;
    }

    method Store(name: string, secret: T) returns (outcome: Outcome<T>)
      modifies this
      ensures (State(), outcome) == StoreSecret(world, old(State()), name, secret)
    {
      if Blank(name) {
        return Rejected;
      }
      var key := RequireUnlockedMasterKey();
      if key.None? {
        return PasswordRequired;
      }
      var nonce := Random();
      var ok := Reach();
      if !ok {
        return Unavailable;
      }
      rows := rows[name := Sealed(key.value, nonce, secret)];
      return Ok;
    }

    method Load(name: string) returns (outcome: Outcome<T>)
      modifies this
      ensures (State(), outcome) == LoadSecret(world, old(State()), name)
    {
      if Blank(name) {
        return Value(None);
      }
      var ok := Reach();
      if !ok {
        return Unavailable;
      }
      if name !in rows {
        return Value(None);
      }
      var key := RequireUnlockedMasterKey();
      if key.None? {
        return PasswordRequired;
      }
      var secret := Unseal(key.value, rows[name]);
      return if secret.None? then Unavailable else Value(secret);
    }

    method Delete(name: string) returns (outcome: Outcome<T>)
      modifies this
      ensures (State(), outcome) == DeleteSecret(world, old(State()), name)
    {
      if Blank(name) {
        return Ok;
      }
      var ok := Reach();
      if !ok {
        return Unavailable;
      }
      rows := rows - {name};
      return Ok;
    }

    method Exists(name: string) returns (present: bool)
      modifies this
      ensures (State(), present) == SecretExists(world, old(State()), name)
    {
      if Blank(name) {
        return false;
      }
      var ok := Reach();
      return ok && name in rows;
    }

    method LockNow()
      modifies this
      ensures State() == Lock(old(State()))
    {
      masterKey := None;
    }
  }

  // -------------------------------------------------------------------- runs

  datatype Call<T> = Unlock(password: string) | Put(name: string, secret: T) | Get(name: string) | Remove(name: string) | LockUp

  function Step<T>(world: World, v: Vault<T>, call: Call<T>): (Vault<T>, Outcome<T>) {
    match call
    case Unlock(password) => EnsureMasterPassword(world, v, password)
    case Put(name, secret) => StoreSecret(world, v, name, secret)
    case Get(name) => LoadSecret(world, v, name)
    case Remove(name) => DeleteSecret(world, v, name)
    case LockUp => (Lock(v), Ok)
  }

  function Run<T>(world: World, v: Vault<T>, calls: seq<Call<T>>): Vault<T> {
    if calls == [] then v else Step(world, Run(world, v, calls[..|calls| - 1]), calls[|calls| - 1]).0
  }

  /** The plain table of secrets a caller believes in: what was stored last and not deleted since. */
  function Believed<T>(world: World, v: Vault<T>, calls: seq<Call<T>>): map<string, T> {
    if calls == [] then map[]
    else
      var before := calls[..|calls| - 1];
      var table := Believed(world, v, before);
      var call := calls[|calls| - 1];
      if !Step(world, Run(world, v, before), call).1.Ok? then table
      else
        match call
        case Put(name, secret) => table[name := secret]
        case Remove(name) => if Blank(name) then table else table - {name}
        case _ => table
  }

  /** One master key: it is the one in memory, if any is, and it sealed every row. */
  ghost predicate Sound<T>(v: Vault<T>) {
    match v.keyring
    case None => v.masterKey.None? && v.rows == map[]
    case Some(record) =>
      && record.box.key.Derived? && record.box.key.salt == record.salt
      && (v.masterKey.Some? ==> v.masterKey.value == record.box.plain)
      && (forall name :: name in v.rows ==> v.rows[name].key == record.box.plain)
  }

  function Plain<T>(v: Vault<T>): map<string, T> {
    map name | name in v.rows :: v.rows[name].plain
  }

  function Fresh<T>(): Vault<T> {
    Vault(map[], None, None, 0, 0)
  }

  lemma StepSound<T>(world: World, v: Vault<T>, call: Call<T>)
    requires Sound(v)
    ensures Sound(Step(world, v, call).0)
    ensures v.keyring.Some? ==> Step(world, v, call).0.keyring == v.keyring
  {
  }

  lemma {:induction false} RunSound<T>(world: World, v: Vault<T>, calls: seq<Call<T>>)
    requires Sound(v)
    ensures Sound(Run(world, v, calls))
    ensures v.keyring.Some? ==> Run(world, v, calls).keyring == v.keyring
  {
    hide Sound, Step;
    if calls != [] {
      RunSound(world, v, calls[..|calls| - 1]);
      StepSound(world, Run(world, v, calls[..|calls| - 1]), calls[|calls| - 1]);
    }
  }

  /** From an empty store on, whatever is called and fails, every row opens under the key the keyring wraps, and that record never changes. */
  lemma OneMasterKeyForever<T>(world: World, early: seq<Call<T>>, later: seq<Call<T>>, name: string)
    ensures var v := Run(world, Fresh<T>(), early);
            var w := Run(world, v, later);
            && (name in v.rows ==> v.keyring.Some?)
            && (v.keyring.Some? ==> w.keyring == v.keyring)
            && (name in w.rows ==> w.keyring.Some? && Unseal(w.keyring.value.box.plain, w.rows[name]) == Some(w.rows[name].plain))
  {
    hide Run;
    RunSound(world, Fresh<T>(), early);
    RunSound(world, Run(world, Fresh<T>(), early), later);
  }

  lemma StepTable<T>(world: World, v: Vault<T>, call: Call<T>)
    requires Sound(v)
    ensures var (w, outcome) := Step(world, v, call);
            Plain(w) == if !outcome.Ok? then Plain(v)
                        else match call
                             case Put(name, secret) => Plain(v)[name := secret]
                             case Remove(name) => if Blank(name) then Plain(v) else Plain(v) - {name}
                             case _ => Plain(v)
  {
    hide Blank;
  }

  lemma {:induction false} TableIsBelieved<T>(world: World, calls: seq<Call<T>>)
    ensures Plain(Run(world, Fresh<T>(), calls)) == Believed(world, Fresh<T>(), calls)
  {
    hide Sound, Step, Plain;
    if calls == [] {
      assert Plain(Fresh<T>()) == map[] by { EmptyTable<T>(); }
    } else {
      var before := calls[..|calls| - 1];
      TableIsBelieved(world, before);
      RunSound(world, Fresh<T>(), before) by { FreshIsSound<T>(); }
      StepTable(world, Run(world, Fresh<T>(), before), calls[|calls| - 1]);
    }
  }

  lemma FreshIsSound<T>()
    ensures Sound(Fresh<T>())
  {
  }

  lemma EmptyTable<T>()
    ensures Plain(Fresh<T>()) == map[]
  {
  }

  /** After any calls, locks and unlocks included, loading either says why it cannot answer or gives the value stored last. */
  lemma LoadGivesLastStored<T>(world: World, calls: seq<Call<T>>, name: string)
    requires !Blank(name)
    ensures var v := Run(world, Fresh<T>(), calls);
            var table := Believed(world, Fresh<T>(), calls);
            match LoadSecret(world, v, name).1
            case Value(secret) => secret == if name in table then Some(table[name]) else None
            case PasswordRequired => name in table && (v.masterKey.None? || !world(v.draws + 1))
            case Unavailable => !world(v.draws)
            case _ => false
  {
    hide Run, Believed;
    TableIsBelieved(world, calls);
    FreshIsSound<T>();
    RunSound(world, Fresh<T>(), calls);
    var v := Run(world, Fresh<T>(), calls);
    assert name in Plain(v) <==> name in v.rows;
  }

  /** Once a password has set the store up, it is the only one that ever unlocks it; any other changes nothing. */
  lemma OnlyTheFirstPasswordUnlocks<T>(world: World, early: seq<Call<T>>, first: string, later: seq<Call<T>>, password: string)
    requires Run(world, Fresh<T>(), early).keyring.None? && password != ""
    requires EnsureMasterPassword(world, Run(world, Fresh<T>(), early), first).1 == Ok
    ensures var v := Run(world, EnsureMasterPassword(world, Run(world, Fresh<T>(), early), first).0, later);
            var (w, outcome) := EnsureMasterPassword(world, v, password);
            && (outcome == Ok <==> world(v.draws) && password == first)
            && (outcome != Ok ==> w == Drawn(v))
  {
    hide Run;
    FreshIsSound<T>();
    RunSound(world, Fresh<T>(), early);
    var ready := EnsureMasterPassword(world, Run(world, Fresh<T>(), early), first).0;
    StepSound(world, Run(world, Fresh<T>(), early), Unlock(first));
    RunSound(world, ready, later);
  }

  /** A blank name stores nothing, reads as absent and touches nothing, locked or not. */
  lemma BlankNamesHoldNothing<T>(world: World, v: Vault<T>, name: string, secret: T)
    requires Blank(name)
    ensures StoreSecret(world, v, name, secret) == (v, Rejected) && LoadSecret(world, v, name) == (v, Value(None))
    ensures SecretExists(world, v, name) == (v, false) && DeleteSecret(world, v, name) == (v, Ok)
  {
    hide Blank;
  }

  /** What a failed unlocking answers: an empty password, an unreachable keyring, a wrong password; none changes anything that is kept. */
  lemma UnlockingRefusesExactly<T>(world: World, v: Vault<T>, password: string)
    requires v.keyring.Some?
    ensures var (w, outcome) := EnsureMasterPassword(world, v, password);
            && (outcome == Rejected <==> password == "")
            && (outcome == Unavailable <==> password != "" && !world(v.draws))
            && (outcome == InvalidPassword <==>
                  password != "" && world(v.draws) && v.keyring.value.box.key != Derived(password, v.keyring.value.salt))
            && (outcome != Ok ==> w == v.(draws := w.draws))
  {
  }
}
