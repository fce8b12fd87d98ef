/**
 * The password-hashing manager: a registry from driver name to hasher, with one
 * default driver name fixed when the manager is built. `Hash` and `Check` always
 * go to the hasher registered under the default name; `RegisterHasher` adds a
 * new name and refuses one that is already taken.
 */
module Hashing {

  /** A driver name (a named string type in Go). */
  type Driver = string

  const Bcrypt: Driver := "bcrypt"
  const Argon2ID: Driver := "argon2id"

  datatype Option<+T> = None | Some(value: T)

  /** Abstract error values; the text of the messages is not modelled. */
  datatype Error =
    | HasherNotFound(driver: Driver)
    | DriverAlreadyRegistered
      /** whatever a hasher itself reports for a malformed input or an internal failure */
    | HasherFailed(reason: string)

  /**
   * A two-valued return `(value, error)`: on failure the source still returns a
   * value beside the error (the empty string, `false`, a nil hasher); in Go
   * the value is kept in both cases, and so it is here.
   */
  datatype Result<+T> = Result(value: T, err: Option<Error>) {
    predicate Ok() { err.None? }
  }

  /**
   * A hashing strategy. The algorithms themselves (bcrypt, argon2id) are not
   * part of this model: a hasher is any pair of total functions. They are
   * deterministic and stateless, so `r == h.hash(p)` below means that the call
   * is delegated to `h`, not that a salted hash repeats its output.
   */
  datatype Hasher = Hasher(hash: string -> Result<string>, check: (string, string) -> Result<bool>)

  /** The one configuration field the manager reads. */
  datatype Config = Config(hashingDriver: string)

  /** The default driver: bcrypt when none is configured, else the configured name, unchecked. */
  function DefaultDriver(cfg: Config): (d: Driver)
    ensures d != ""
    ensures cfg.hashingDriver == "" ==> d == Bcrypt
    ensures cfg.hashingDriver != "" ==> d == cfg.hashingDriver
  {
    if cfg.hashingDriver != "" then cfg.hashingDriver else Bcrypt
  }

  /**
   * One registration attempt on a registry: the registry afterwards and the
   * error returned. Specifies Manager.RegisterHasher.
   */
  function Register(hashers: map<Driver, Hasher>, d: Driver, h: Hasher): (r: (map<Driver, Hasher>, Option<Error>))
    ensures r.1.None? <==> d !in hashers
    ensures d in hashers ==> r.0 == hashers && r.1 == Some(DriverAlreadyRegistered)
    ensures d !in hashers ==> r.0.Keys == hashers.Keys + {d} && r.0[d] == h
    ensures forall k :: k in hashers ==> k in r.0 && r.0[k] == hashers[k]
  {
    if d in hashers then (hashers, Some(DriverAlreadyRegistered)) else (hashers[d := h], None)
  }

  /** The registry after a sequence of registration calls, made one after another. */
  function RegisterInTurn(hashers: map<Driver, Hasher>, regs: seq<(Driver, Hasher)>): map<Driver, Hasher>
    decreases |regs|
  {
    if regs == [] then hashers
    else RegisterInTurn(Register(hashers, regs[0].0, regs[0].1).0, regs[1..])
  }

  /** The names a sequence of registration calls mentions. */
  ghost function Names(regs: seq<(Driver, Hasher)>): set<Driver>
  {
    set i | 0 <= i < |regs| :: regs[i].0
  }

  /**
   * Registration never removes or rebinds: after any sequence of calls the
   * registered names are the old ones plus the names registered, and every old
   * name is still bound to its old hasher.
   */
  lemma {:induction false} RegisterInTurnOnlyGrows(hashers: map<Driver, Hasher>, regs: seq<(Driver, Hasher)>)
    ensures RegisterInTurn(hashers, regs).Keys == hashers.Keys + Names(regs)
    ensures forall k :: k in hashers ==> RegisterInTurn(hashers, regs)[k] == hashers[k]
    decreases |regs|
  {
    if regs != [] {
      var next := Register(hashers, regs[0].0, regs[0].1).0;
      RegisterInTurnOnlyGrows(next, regs[1..]);
      assert Names(regs) == {regs[0].0} + Names(regs[1..]) by {
        forall n | n in Names(regs) ensures n in {regs[0].0} + Names(regs[1..]) {
          var i :| 0 <= i < |regs| && regs[i].0 == n;
          if i > 0 { assert regs[1..][i - 1].0 == n; }
        }
        forall n | n in Names(regs[1..]) ensures n in Names(regs) {
          var i :| 0 <= i < |regs[1..]| && regs[1..][i].0 == n;
          assert regs[i + 1].0 == n;
        }
      }
    }
  }

  /**
   * The first registration of a new name wins: later calls with the same name
   * do not rebind it, and that first hasher stays in place.
   */
  lemma {:induction false} FirstRegistrationWins(hashers: map<Driver, Hasher>, regs: seq<(Driver, Hasher)>, i: nat)
    requires i < |regs| && regs[i].0 !in hashers
    requires forall j :: 0 <= j < i ==> regs[j].0 != regs[i].0
    ensures regs[i].0 in RegisterInTurn(hashers, regs)
    ensures RegisterInTurn(hashers, regs)[regs[i].0] == regs[i].1
    decreases |regs|
  {
    var next := Register(hashers, regs[0].0, regs[0].1).0;
    if i == 0 {
      RegisterInTurnOnlyGrows(next, regs[1..]);
    } else {
      assert regs[0].0 != regs[i].0;
      assert regs[1..][i - 1] == regs[i];
      FirstRegistrationWins(next, regs[1..], i - 1);
    }
  }

  /** The manager: a registry that grows by registration and a default name that never changes. */
  class Manager {
    var hashers: map<Driver, Hasher>
    const defaultDriver: Driver

    /** Builds the registry with the bcrypt and argon2id hashers and fixes the default from `cfg`. */
    constructor (cfg: Config, bcrypt: Hasher, argon2id: Hasher)
      ensures hashers.Keys == {Bcrypt, Argon2ID}
      ensures hashers[Bcrypt] == bcrypt && hashers[Argon2ID] == argon2id
      ensures defaultDriver == DefaultDriver(cfg)
    {
      var m: map<Driver, Hasher> := map[];
      m := m[Bcrypt := bcrypt];
      m := m[Argon2ID := argon2id];
      hashers := m;
      defaultDriver := DefaultDriver(cfg);
    }

    /** Looks a driver up: its hasher when registered, a nil hasher and an error otherwise. */
    function GetHasher(driver: Driver): (r: Result<Option<Hasher>>)
      reads this
      ensures r.Ok() <==> driver in hashers
      ensures r.Ok() ==> r.value == Some(hashers[driver])
      ensures !r.Ok() ==> r == Result(None, Some(HasherNotFound(driver)))
    {
      if driver in hashers then Result(Some(hashers[driver]), None)
      else Result(None, Some(HasherNotFound(driver)))
    }

    /** Adds `h` under the new name `d`; a name already taken is refused and nothing changes. */
    method RegisterHasher(d: Driver, h: Hasher) returns (err: Option<Error>)
      modifies this
      ensures (hashers, err) == Register(old(hashers), d, h)
      ensures err.None? <==> d !in old(hashers)
      ensures err.Some? ==> err == Some(DriverAlreadyRegistered) && hashers == old(hashers)
      ensures err.None? ==> hashers == old(hashers)[d := h]
      ensures old(hashers).Keys <= hashers.Keys
      ensures forall k :: k in old(hashers) ==> hashers[k] == old(hashers)[k]
      ensures d == defaultDriver && err.None? ==>
                (forall p :: Hash(p) == h.hash(p)) && (forall p, s :: Check(p, s) == h.check(p, s))
      ensures d != defaultDriver ==> GetHasher(defaultDriver) == old(GetHasher(defaultDriver))
      ensures d != defaultDriver ==>
                (forall p :: Hash(p) == old(Hash(p))) && (forall p, s :: Check(p, s) == old(Check(p, s)))
    {
      if d in hashers {
        return Some(DriverAlreadyRegistered);
      }
      hashers := hashers[d := h];
      err := None;
    }

    /** Hashes `password` with the default driver's hasher, or fails when that driver is not registered. */
    function Hash(password: string): (r: Result<string>)
      reads this
      ensures defaultDriver in hashers ==> r == hashers[defaultDriver].hash(password)
      ensures defaultDriver !in hashers ==> r == Result("", Some(HasherNotFound(defaultDriver)))
    {
      var got := GetHasher(defaultDriver);
      if !got.Ok() then Result("", got.err) else got.value.value.hash(password)
    }

    /** Checks `password` against `hash` with the default driver's hasher, or fails when that driver is not registered. */
    function Check(password: string, hash: string): (r: Result<bool>)
      reads this
      ensures defaultDriver in hashers ==> r == hashers[defaultDriver].check(password, hash)
      ensures defaultDriver !in hashers ==> r == Result(false, Some(HasherNotFound(defaultDriver)))
    {
      var got := GetHasher(defaultDriver);
      if !got.Ok() then Result(false, got.err) else got.value.value.check(password, hash)
    }
  }

  /**
   * Dispatch looks at the default driver only: two managers that agree on the
   * default name and on what it is bound to hash and check alike, whatever else
   * they have registered.
   */
  lemma DispatchIgnoresOtherDrivers(m1: Manager, m2: Manager, password: string, hash: string)
    requires m1.defaultDriver == m2.defaultDriver
    requires m1.defaultDriver in m1.hashers <==> m2.defaultDriver in m2.hashers
    requires m1.defaultDriver in m1.hashers ==> m1.hashers[m1.defaultDriver] == m2.hashers[m2.defaultDriver]
    ensures m1.Hash(password) == m2.Hash(password)
    ensures m1.Check(password, hash) == m2.Check(password, hash)
  {
  }

  /**
   * A second registration under a taken name is refused and the first hasher
   * stays the one in use.
   */
  method DuplicateRegistration(bcrypt: Hasher, argon2id: Hasher, h1: Hasher, h2: Hasher, password: string)
    returns (first: Option<Error>, second: Option<Error>, hashed: Result<string>)
    ensures first == None
    ensures second == Some(DriverAlreadyRegistered)
    ensures hashed == h1.hash(password)
  {
    var m := new Manager(Config("x"), bcrypt, argon2id);
    first := m.RegisterHasher("x", h1);
    second := m.RegisterHasher("x", h2);
    hashed := m.Hash(password);
  }

  /**
   * An error reported by the default driver's hasher is returned unchanged,
   * beside the value that hasher returned.
   */
  method HasherErrorPassesThrough(argon2id: Hasher, password: string, hash: string)
    returns (hashed: Result<string>, checked: Result<bool>)
    ensures hashed == Result("", Some(HasherFailed("malformed")))
    ensures checked == Result(false, Some(HasherFailed("malformed")))
  {
    var failing := Hasher(p => Result("", Some(HasherFailed("malformed"))),
                          (p, s) => Result(false, Some(HasherFailed("malformed"))));
    var m := new Manager(Config(""), failing, argon2id);
    hashed := m.Hash(password);
    checked := m.Check(password, hash);
  }

  /**
   * A configured default that is not registered is accepted at construction;
   * Hash and Check fail until a hasher is registered under that name, and
   * succeed with it afterwards.
   */
  method LateDefaultRegistration(bcrypt: Hasher, argon2id: Hasher, h: Hasher, password: string, hash: string)
    returns (hashedBefore: Result<string>, checkedBefore: Result<bool>, registered: Option<Error>,
             hashedAfter: Result<string>, checkedAfter: Result<bool>)
    ensures hashedBefore == Result("", Some(HasherNotFound("scrypt")))
    ensures checkedBefore == Result(false, Some(HasherNotFound("scrypt")))
    ensures registered == None
    ensures hashedAfter == h.hash(password)
    ensures checkedAfter == h.check(password, hash)
  {
    var m := new Manager(Config("scrypt"), bcrypt, argon2id);
    hashedBefore := m.Hash(password);
    checkedBefore := m.Check(password, hash);
    registered := m.RegisterHasher("scrypt", h);
    hashedAfter := m.Hash(password);
    checkedAfter := m.Check(password, hash);
  }
}
