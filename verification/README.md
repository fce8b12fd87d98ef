# Hashing-driver registry

A Dafny model of the password-hashing manager of the go-dash admin backend
(`internal/hashing/hash.go`). The manager holds a map from driver name to
hasher and one default driver name. It is built with two entries, `bcrypt`
and `argon2id`. The default name comes from configuration, or is `bcrypt`
when none is configured. `Hash` and `Check` dispatch to the hasher bound to
the default name and fail when that name is not registered.
`RegisterHasher` adds a hasher under a new name and refuses a name that is
already taken.

Everything is in `hashing.dfy`, module `Hashing`:

- `Hasher` is a pair of total functions (`hash`, `check`). The real bcrypt and
  argon2id algorithms are not part of this model, so a hasher's behaviour is
  left uninterpreted: `Hash` and `Check` are proved to delegate to the
  default driver's hasher, whatever that hasher does. The two built-in
  hashers are parameters of the constructor.
- `Result<T>` is Go's two-valued `(value, error)` return. The value returned
  beside an error (the empty string, `false`, a nil hasher) is kept.
- `Manager` is a class. Its `hashers` map is a field that `RegisterHasher`
  updates in place. `defaultDriver` is a `const`, so the type system
  guarantees it is never reassigned after construction. `GetHasher`, `Hash`
  and `Check` only read the state and are functions.
- `Register` is the pure specification of one registration call, and
  `RegisterInTurn` applies it to a sequence of calls. The lemmas about
  `RegisterInTurn` state what registration does over any number of calls.

The configured default name is used as given, with no check that a hasher is
registered under it. A manager whose default is unknown is built without
error, and its `Hash` and `Check` then fail at every call until that name is
registered. The model follows this code. It does not model a failure at
construction time.

## Model

| member | source | states |
|---|---|---|
| `Hashing.DefaultDriver` | internal/hashing/hash.go:88-94 | the default is `bcrypt` when the configured name is empty; otherwise it is exactly the configured name, unvalidated; it is never empty |
| `Hashing.Manager.constructor` | internal/hashing/hash.go:34-43 | a new manager has exactly the two drivers `bcrypt` and `argon2id`, bound to the given hashers, and its default is `DefaultDriver(cfg)` |
| `Hashing.Manager.GetHasher` | internal/hashing/hash.go:45-53 | lookup succeeds exactly when the driver is registered and then returns its hasher; otherwise it returns a nil hasher and a not-found error naming the driver |
| `Hashing.Register` | internal/hashing/hash.go:55-66 | a taken name is refused with `DriverAlreadyRegistered` and the registry is unchanged; a new name succeeds and is bound to the given hasher; every existing binding is kept |
| `Hashing.Manager.RegisterHasher` | internal/hashing/hash.go:55-66 | the new state and error are those of `Register`; names only grow and old bindings are kept; registering the default name makes `Hash`/`Check` use the new hasher; registering any other name leaves the default's lookup, and so `Hash`/`Check`, unchanged |
| `Hashing.RegisterInTurnOnlyGrows` | internal/hashing/hash.go:55-66 | after any sequence of registrations the names are the old names plus the names registered, and every old name keeps its hasher |
| `Hashing.FirstRegistrationWins` | internal/hashing/hash.go:59-65 | in any sequence of registrations, the first call with a new name binds it for good; later calls with that name do not rebind it |
| `Hashing.Manager.Hash` | internal/hashing/hash.go:68-76 | with the default registered, the result is that hasher's result unchanged; otherwise it is the empty string with a not-found error for the default name |
| `Hashing.Manager.Check` | internal/hashing/hash.go:78-86 | with the default registered, the result is that hasher's check result unchanged; otherwise it is `false` with a not-found error for the default name |
| `Hashing.DispatchIgnoresOtherDrivers` | internal/hashing/hash.go:69-86 | two managers that agree on the default name and its binding hash and check alike, whatever other drivers they hold |
| `Hashing.DuplicateRegistration` | internal/hashing/hash.go:55-76 | registering a name twice: the first call succeeds, the second fails with `DriverAlreadyRegistered`, and the first hasher stays in use |
| `Hashing.HasherErrorPassesThrough` | internal/hashing/hash.go:69-86 | an error reported by the default driver's hasher comes back from `Hash` and `Check` unchanged, with the value that hasher returned |
| `Hashing.LateDefaultRegistration` | internal/hashing/hash.go:55-86 | with an unregistered configured default, `Hash` returns `""` and `Check` returns `false`, each with a not-found error; after that name is registered both return the new hasher's results |

## Left out

- The `sync.RWMutex` in `manager` (internal/hashing/hash.go:29, 46-47, 56-57): each method is modelled as one atomic step, so concurrency is not modelled.
- `NewBcryptHasher` and `NewArgon2IDHasher` and the algorithms behind them are not part of this model. The two hashers are constructor parameters with uninterpreted behaviour.
- Error message text and the `get hasher: %w` wrapping in `Hash` and `Check`: the error is the abstract `HasherNotFound(driver)`, not wrapped.
- Hasher randomness and state: a `Hasher` is a pair of deterministic, stateless functions, so an equation such as `Hash(p) == h.hash(p)` means that `Hash` delegates to `h`. Real bcrypt and argon2id draw a random salt, and two calls with the same password return different strings; the model does not capture that.
- A nil hasher passed to `RegisterHasher`: in Go it is stored, and `getHasher` then returns it with no error; if it is stored under the default name, a later `Hash` or `Check` panics, and under any other name it is never called. A `Hasher` here is always a value, so this panic is not modelled.
- A nil `*config.Config` passed to `NewManager`: in Go `getDefaultDriver` dereferences it and panics. `Config` here is a value, so this panic is not modelled.
- The `Config` type is not part of this model beyond its `HashingDriver` field.
- The refresh-session engine (issuing, rotating and revoking refresh sessions) is not part of this model. `internal/auth/store.go` only declares a store interface and a record type, and the rotation logic lives in an external package.
- The HTTP handlers, routes and helpers in `internal/http` and the customer store in `internal/customer` are request glue and declarations, and are not modelled.
