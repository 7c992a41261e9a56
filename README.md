# homectl integration registry, in Dafny

This project models the integration registry of homectl
(`src/homectl_core/integrations.rs`). The registry owns one handler per
configured integration, such as a lighting, vacuum or wake-on-lan backend. It
does four things:

- A **factory** turns a module-name string into one of seven handler kinds:
  `circadian`, `random`, `dummy`, `lifx`, `hue`, `neato` and `wake_on_lan`.
  It then asks that kind's constructor for the handler.
- **Loading** builds a handler and stores it in a table keyed by integration
  id. A handler already stored under that id is replaced.
- Two **bulk passes** call `register` (or `start`) on every handler. The first
  error aborts the pass.
- Two **dispatch** calls look up one handler by id and forward a device-state
  push or an action to it. An unknown id is a "not found" error.

Modules and files:

- `integration.dfy`, module `Integration`: the value types. These are ids, the
  `Error` kinds, `Result`/`Outcome`, the handler `Kind`s, `Handler`, the `Call`s
  a handler accepts, and the ghost `Invocation` log entry. It also holds the
  two oracles that stand for the foreign handler code, and error messages.
- `factory.dfy`, module `Factory`: the free function `load_integration`, as a
  pure function.
- `registry.dfy`, module `Registry`: the class `Integrations`, whose table is a
  `map` field changed in place by its methods. It also holds `Traverse`, the
  specification of a bulk pass, and the lemmas about it.
- `scenarios.dfy`, module `Scenarios`: client runs of the registry. Each one is
  proved from the class's contracts and the pass lemmas.

Foreign code is modelled as parameters:

- The seven concrete constructors (`Circadian::new`, ...) are one
  `Constructor` function. For a kind, id, configuration and event sender, it
  returns either the identity of the new handler object or the constructor's
  own error.
- The handler methods `register`, `start`, `set_integration_device_state` and
  `run_integration_action` are one `Backend` function. For a handler and a
  call, it returns that call's `Outcome`.

The registry keeps a ghost `log` of every handler call it makes. This log is
how the contracts state "called exactly once", "never called" and "nothing
else was called".

The table is a `HashMap`, so its iteration order is unspecified. The pass
method therefore picks each next key by an arbitrary choice (`:|`) among the
keys it has not yet visited. It returns, as a ghost value, a full enumeration
of the table's keys whose visited prefix is the order it actually used. If the
pass aborts, the rest of the enumeration is arbitrary (`Enumeration`).

## Model

| member | source | states |
|---|---|---|
| `Integration.Message` | src/homectl_core/integrations.rs:66 | Line 74 repeats the not-found message of line 66; line 96 is the unknown-module message. The message of an unknown-module error contains the module name. The message of a not-found error contains the id. A foreign error's message is its own text. |
| `Factory.LoadIntegration` | src/homectl_core/integrations.rs:82-98 | For every kind whose module name equals the string, the result is exactly what that kind's constructor returns: a handler of that kind holding the constructed object, or the constructor's error unchanged. If no kind has that name, the result is `UnknownModule` naming the string. A successful result always has the kind named by the string. |
| `Factory.ModuleNameInjective` | src/homectl_core/integrations.rs:88-95 | No two of the seven kinds share a module name, so the factory's match selects at most one kind. |
| `Registry.Integrations.constructor` | src/homectl_core/integrations.rs:15-22 | A new registry has an empty table and an empty call log, and keeps the given event sender. |
| `Registry.Integrations.LoadIntegration` | src/homectl_core/integrations.rs:24-41 | If the factory succeeds, the new table is the old table with the handler stored at the id. Any earlier handler there is overwritten, and every other key is unchanged. The result is `Done`. If the factory fails, its error is returned unchanged and the table is unchanged. No handler is called. |
| `Registry.Enumeration` | src/homectl_core/integrations.rs:46 | Every finite set of ids has an order that lists each id exactly once. This is the order a hash table may hand its keys out in. |
| `Registry.EnumerationLength` | src/homectl_core/integrations.rs:46 | An order that lists each key of the table exactly once is exactly as long as the table. |
| `Registry.Traverse` | src/homectl_core/integrations.rs:46-48 | During a pass, the handlers called are a prefix of the iteration order. |
| `Registry.TraverseAppend` | src/homectl_core/integrations.rs:46-48 | A pass over `a + b` behaves as follows. If the pass over `a` fails, the result is that pass's result. Otherwise the pass continues over `b`, and the calls made concatenate. |
| `Registry.TraverseSucceeds` | src/homectl_core/integrations.rs:46-50 | A pass returns `Done` if and only if every handler in the order accepts the call. In that case it has called all of them, in order. |
| `Registry.TraverseFails` | src/homectl_core/integrations.rs:46-48 | Suppose the `k`-th handler is the first to fail. Then the pass returns exactly that handler's error, and the handlers called are exactly the first `k+1` in the order. |
| `Registry.AbortedPass` | src/homectl_core/integrations.rs:43-51 | Take any enumeration of the table's keys in which the `k`-th handler is the first to fail. The pass then returns that error. Each of handlers 0..k receives the call exactly once, and no handler after `k` receives it. |
| `Registry.CompletedPass` | src/homectl_core/integrations.rs:43-51 | When every handler accepts, the pass returns `Done` and every key in the table receives the call exactly once. |
| `Registry.DistinctOccurrences` | src/homectl_core/integrations.rs:46 | Each key appears in the iteration order at most once, since the order repeats no key. So each handler visited appears exactly once in the visited prefix. |
| `Registry.LoggedOccurrences` | src/homectl_core/integrations.rs:47 | In a pass's log, a handler receives the pass's call as many times as its id was visited. No other kind of call appears. |
| `Registry.Integrations.RunPass` | src/homectl_core/integrations.rs:44-50 | The table is unchanged. The ghost order is an enumeration of the table's keys. The result is `Traverse` over that order. The log grows by exactly the calls `Traverse` made, in order. |
| `Registry.Integrations.RunRegisterPass` | src/homectl_core/integrations.rs:43-51 | `RunPass` with `register`: all-or-abort over an enumeration of the keys. The table is unchanged, and the log grows by exactly the `register` calls made. |
| `Registry.Integrations.RunStartPass` | src/homectl_core/integrations.rs:53-61 | The same as the register pass, but with `start`. |
| `Registry.Integrations.SetIntegrationDeviceState` | src/homectl_core/integrations.rs:63-69 | If the device's integration id is absent, the result is `NotFound` naming that id, no handler is called, and the log is unchanged. If the id is present, the owning handler receives one state push, and its answer is returned unchanged. In both cases the table is unchanged. |
| `Registry.Integrations.RunIntegrationAction` | src/homectl_core/integrations.rs:71-77 | If the id is absent, the result is `NotFound` naming the id and no handler is called. If it is present, that one handler receives one action call, and its answer is returned unchanged. In both cases the table is unchanged. |
| `Scenarios.DummyEndToEnd` | src/homectl_core/integrations.rs:24-69 | Load `dummy` as "d1", then run the register pass, the start pass and a state push. When the handler accepts every call, each step returns `Done`. The log is then exactly `register`, `start`, state push, once each. |
| `Scenarios.MissingAction` | src/homectl_core/integrations.rs:71-77 | On an empty registry, an action for "missing" returns `NotFound("missing")`. Its message names "missing", and no handler is called. |
| `Scenarios.LoadTwiceSameId` | src/homectl_core/integrations.rs:32-37 | Load `lifx` and then `hue` under the same id "x". Afterwards there is exactly one entry, and it holds the handler from the second load. |
| `Scenarios.LoadUnknownModule` | src/homectl_core/integrations.rs:32-33 | Loading a name that is not one of the seven kinds returns `UnknownModule` naming it. The table is still exactly the one earlier `dummy` entry at "d1", unchanged. |
| `Scenarios.RegisterPassAborts` | src/homectl_core/integrations.rs:43-51 | With handlers "a" (whose `register` fails) and "b" (whose `register` succeeds), the pass returns the error from "a". "a" is registered exactly once. "b" is registered at most once, depending on the iteration order. |

## Left out

- The `Mutex`, the `Arc` and every `.await`. The passes and the two dispatch
  calls hold the registry-wide lock for the whole call, so each is one atomic
  step. Loading runs the factory before it takes the lock and holds the lock
  only around the insert. Modelling the load as one step is still sound: the
  factory never reads or writes the table, so the load takes effect at the
  insert. Concurrency, fairness and cancellation are not modelled.
- The concrete handlers (`Circadian`, `Random`, `Dummy`, `Lifx`, `Hue`, `Neato`,
  `WakeOnLan`). They exist only as the `Constructor` and `Backend` oracles.
  Both oracles are deterministic functions of their arguments.
- The handlers' own internal state. The source calls them through `&mut`, so a
  handler may change itself. The registry never sees this, so the model's table
  values stay the same across calls.
- `config::Value`, `TxEventChannel`, the `Device` fields other than the
  integration id, and `IntegrationActionPayload`. They are opaque values that
  are passed through untouched.
- The `println!` progress line in `load_integration`.
- How `anyhow` formats and chains errors. The model keeps only the message
  text for the two errors the registry raises itself.
- The dynamic-plugin TODO comment, which has no code.
- The device, event and integration type modules (`device.rs`, `events.rs`,
  `integration.rs`) are not part of this model. Their types appear only as the
  opaque values above.
