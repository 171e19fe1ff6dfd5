# alamid-signal in Dafny

A model of alamid-signal, a small JavaScript library of observable values.

- `Signal` (lib/Signal.js) is a callable cell. It holds one value and an ordered list of listener functions.
  - Calling it with no argument reads the value.
  - Calling it with one argument runs the optional `setter`, compares the result with the old value using `!==`, and on a change stores it and calls every listener with `(newValue, oldValue, signal)`.
  - `notify` and `unnotify` edit the listener list, and `dispose` clears the signal.
  - The process-wide `Signal.totalListeners` counter tracks listeners for leak detection.
  - `Signal.use` applies each plugin once.
- `MultiSignal` (lib/MultiSignal.js) and `SuperSignal` (lib/SuperSignal.js) are string-keyed stores whose entries are raw values or signals.
  - `set` writes through to a signal entry, or else replaces the raw entry.
  - `get` reads through to a signal entry.
  - `provide` turns an entry into a signal on demand and returns the same signal afterwards.

Files:

- `values.dfy` (module `Values`): JavaScript values, with Dafny `==` standing for `===`, and `typeof`. Also the errors the library throws and a `Completion` (return or throw).
- `signal.dfy` (module `Signals`): holds three parts.
  - The `Signal` class.
  - A `Registry` class for the statics of the `Signal` function object (`totalListeners`, `_plugins`, `use`).
  - The pure functions each method is proved against, and the lemmas about them.
- `stores.dfy` (module `Stores`): the map-level part shared by both stores.
  - The entry type, the entry `_set` leaves, and the progress of `set(obj)`.
  - It is generic in the signal class.
- `multi_signal.dfy` (module `MultiSignals`) and `super_signal.dfy` (module `SuperSignals`): the two stores as classes over a `map` field.
- `scenarios.dfy` (module `Scenarios`): concrete call sequences written against the model, some after the repository's tests (adapted to the call API), with their outcomes proved.

How the model represents things:

- Listeners, setters and plugins are user code. The model does not say what they do. Every call the library makes into user code is returned instead, in order, as a trace of `Call` values.
- Each class method is proved against a pure function of the old state: `Write` against `WriteCalls`, `Unnotify` against `Without`, `Use` against `UseStep`.
- The properties are lemmas about those functions or invariants the methods keep.
- The leak-tracking invariant `Registry.Valid()` is kept by every method that touches the counter. It says that `totalListeners` equals the sum of the listener counts of all signals created so far.

Where the code and the library's description disagree, the model follows the code:

- The change gate is `!==` on every value, objects included (lib/Signal.js:26). There is no primitives-only gate: writing the same object reference again notifies nobody.
- `unnotify` removes every registration of each argument, not only the first one (lib/Signal.js:97-102).
- `notify` creates the empty listener list before it validates the arguments (lib/Signal.js:63-65). So a call that throws still leaves `Some([])` where there was no list.
- lib/Signal.js has no pipe, read-only mode, `trigger`, or setter that receives the previous value. The model has none of these.

## Model

| member | source | states |
|---|---|---|
| Values.TypeOf | lib/Signal.js:68-69 | `typeof` yields "function" exactly for callable values and "undefined" exactly for `undefined` |
| Signals.FirstNonFunction | lib/Signal.js:67-71 | the argument `notify` rejects is the first non-function, every earlier argument is a function, and there is none exactly when all arguments are functions |
| Signals.CheckListeners | lib/Signal.js:67-71 | the validation loop of `notify` stops at exactly the first argument whose `typeof` is not "function" |
| Signals.Signal.Notify | lib/Signal.js:60-76 | all or nothing: with all arguments functions it appends them in order (duplicates kept), raises `totalListeners` by their number and returns the signal; otherwise it throws a TypeError naming the offending `typeof` and leaves the list and counter as they were (except that a missing list becomes empty); the leak invariant is kept |
| Signals.WithoutOccurrences | lib/Signal.js:96-103 | after `unnotify(args)` a listener that is an argument has no registration left, and any other keeps exactly as many registrations as it had |
| Signals.WithoutConcat | lib/Signal.js:97-102 | the filter keeps survivors in their relative order: filtering a concatenation is concatenating the filtered parts |
| Signals.WithoutUnregistered | lib/Signal.js:97-102 | unnotifying listeners that were never registered leaves the list unchanged |
| Signals.WithoutAll | lib/Signal.js:97-102 | unnotifying every registered listener leaves the list empty |
| Signals.WithoutMore | lib/Signal.js:97-102 | if filtering by some listeners empties a list, filtering by any superset of them empties it too |
| Signals.UnnotifyUndoesNotify | lib/Signal.js:86-107 | `unnotify(l1..ln)` after `notify(l1..ln)` restores the previous list when none of them was registered before |
| Signals.UnnotifyIdempotent | lib/Signal.js:86-107 | a second `unnotify` with the same arguments changes nothing |
| Signals.WithoutKeepsFunctions | lib/Signal.js:97-102 | the survivors of `unnotify` are earlier registrations, so the list still holds only functions |
| Signals.Remaining | lib/Signal.js:96-102 | the loop that builds `remaining` computes exactly the filtered list `Without(ls, args)` |
| Signals.Signal.Unnotify | lib/Signal.js:86-107 | without a list nothing changes; otherwise the list becomes the filtered list and `totalListeners` drops by the number removed; returns the signal; the leak invariant is kept |
| Signals.Signal.Dispose | lib/Signal.js:113-120 | the value becomes `null`, the list is dropped, and `totalListeners` drops by the old listener count (by zero when there was no list, so a second dispose gives nothing back); the leak invariant is kept |
| Signals.Signal.constructor | lib/Signal.js:12-42 | a new signal holds the initial value, has no listener list and no setter, and enters the leak accounting with zero listeners |
| Signals.Signal.Read | lib/Signal.js:16-18 | reading returns the stored value and changes nothing |
| Signals.Signal.Write | lib/Signal.js:20-31 | the stored value becomes the setter's result (the argument when there is no setter); the calls made are exactly `WriteCalls` of the old state |
| Signals.Signal.Invoke | lib/Signal.js:13-32 | with no argument the call is a read; with an argument it writes the first one and returns `undefined` |
| Signals.NotifyListeners | lib/Signal.js:162-172 | the private `notify` calls each listener of the list once, in index order, with `(newValue, oldValue, target)`, and nothing when there is no list |
| Signals.NotificationsAt | lib/Signal.js:169-171 | the k-th notification goes to the k-th registration with the new value, the old value and the signal |
| Signals.SetterRunsOnce | lib/Signal.js:22-24 | an installed setter is called exactly once per write, first, with the raw argument, whether or not the value then changes; no other call is a setter call |
| Signals.WriteGate | lib/Signal.js:26-29 | a write calls some listener if and only if the setter's result is not `===` the old value and a listener is registered |
| Signals.WriteNotifiesInOrder | lib/Signal.js:26-29 | on a change the trace is the setter call (if any) followed by one call per registration, in array order, each with the transformed new value, the old value and the signal |
| Signals.RepeatedWriteIsSilent | lib/Signal.js:22-26 | a write whose setter result is `===` the stored value (for example, the same argument twice with no setter, an object reference too) calls no listener |
| Signals.Registry.constructor | lib/Signal.js:50 | the counter starts at zero, no plugin is applied, and the leak invariant holds |
| Signals.Registry.Use | lib/Signal.js:142-151 | a plugin not applied before is called with `(Signal, config)` and then recorded; a repeat does nothing; a non-function throws before it is recorded; returns `Signal`; the leak invariant is kept |
| Signals.PluginAppliedAtMostOnce | lib/Signal.js:142-151 | over any series of `use` calls the applied list only grows, and a plugin is called exactly once if it ends up applied having not been applied at the start, never otherwise |
| Signals.SumUpdate | lib/Signal.js:44-50 | replacing one signal's share of the leak count changes the total by the difference |
| Stores.SetAllStep | lib/MultiSignal.js:30-36 | each pass of the loop of `set(obj)` finds the next key still holding its original entry, keeps signals distinct, and extends the "first n keys written, others untouched" state by one key |
| Stores.WrittenAt | lib/MultiSignal.js:32-36 | since the keys of `obj` are distinct and no two keys share a signal, the signal under the i-th key of `obj` ends up with the i-th value |
| MultiSignals.MultiSignal.constructor | lib/MultiSignal.js:8-10 | a new store has no entries |
| MultiSignals.MultiSignal.Get | lib/MultiSignal.js:84-99 | the read-through `_get`, corrected from lib/MultiSignal.js:98 (see Findings): a signal entry gives the signal's current value, a raw entry its stored value, an unset key `undefined` |
| MultiSignals.MultiSignal.Set | lib/MultiSignal.js:53-61 | on a signal entry the map is unchanged and the signal's write runs, with its whole call trace; otherwise only that key's entry becomes the raw value; afterwards `get(key)` returns what was written |
| MultiSignals.MultiSignal.SetAll | lib/MultiSignal.js:27-42 | `set(obj)` adds exactly the keys of `obj`, leaves every other key's entry as it was, gives each key of `obj` the entry `_set` leaves, and writes each signal entry's value through its setter; returns the store |
| MultiSignals.MultiSignal.SetNext | lib/MultiSignal.js:32-36 | one pass of the `for (key in obj)` loop moves the loop state from n keys written to n + 1 |
| MultiSignals.MultiSignal.GetAll | lib/MultiSignal.js:73-82 | `get()` returns exactly the stored keys, each mapped to the read-through `Get` (the as-written `_get` is `GetAsWritten`); empty for a new store |
| MultiSignals.MultiSignal.GetAsWritten | lib/MultiSignal.js:95-99 | as written, `_get` returns the signal object itself (the one stored under the key) for exactly the signal entries, and the stored value otherwise |
| MultiSignals.MultiSignal.Provide | lib/MultiSignal.js:107-117 | on a signal entry returns that signal and changes nothing; otherwise stores a new signal seeded with the previous `_get(key)`, which notifies nobody |
| SuperSignals.Cell.constructor | lib/SuperSignal.js:64 | `new Signal()` holds `undefined` |
| SuperSignals.Cell.Set | lib/SuperSignal.js:30 | `signal.set(v)` stores `v` and reports the change from the old value to `v` |
| SuperSignals.SuperSignal.constructor | lib/SuperSignal.js:5-7 | a new store has no entries |
| SuperSignals.SuperSignal.Get | lib/SuperSignal.js:36-58 | `get(key)` / `_get`: a signal entry gives the signal's `get()`, a raw entry its stored value, an unset key `undefined` |
| SuperSignals.SuperSignal.Set | lib/SuperSignal.js:26-34 | on a signal entry the map is unchanged and the signal receives `set(value)`, reporting its change; otherwise only that key's raw entry is replaced; afterwards `get(key)` returns the value |
| SuperSignals.SuperSignal.SetAll | lib/SuperSignal.js:9-24 | `set(obj)` adds exactly the keys of `obj`, leaves other keys' entries alone, and afterwards `get(key)` returns `obj[key]` for every key of `obj` |
| SuperSignals.SuperSignal.SetNext | lib/SuperSignal.js:14-18 | one pass of the `for (key in obj)` loop moves the loop state from n keys written to n + 1 |
| SuperSignals.SuperSignal.GetAll | lib/SuperSignal.js:40-49 | `get()` returns exactly the stored keys, each mapped to `_get(key)`; empty for a new store |
| SuperSignals.SuperSignal.Provide | lib/SuperSignal.js:60-70 | on a signal entry returns that signal and changes nothing; otherwise stores a new signal set to the previous `_get(key)` |
| Scenarios.ReadBack | test/Signal.test.js:41-57 | a fresh signal reads `undefined`, and each write is read back (strings, booleans, object references) |
| Scenarios.ListenerSeesChange | lib/Signal.js:26-29 | a registered listener receives `(newValue, oldValue, signal)` once, and repeating the write calls nobody |
| Scenarios.NotifyAccounting | lib/Signal.js:60-76 | two listeners raise the counter by two; a `notify` containing a number throws "number" and adds none |
| Scenarios.UnnotifyAccounting | lib/Signal.js:86-107 | unnotifying a listener registered twice removes both registrations, keeps the other one and lowers the counter by two |
| Scenarios.DisposeTwice | lib/Signal.js:113-120 | `dispose` gives back three listeners once, a second `dispose` gives back nothing, and a write after it calls no listener |
| Scenarios.UsePluginTwice | lib/Signal.js:142-151 | a plugin is called on its first `use` only; a non-function plugin throws |
| Scenarios.MultiSignalSetGet | test/MultiSignal.test.js:68-106 | `get(key)` of an unset key is `undefined`, and `get()` after `set(obj)` returns the object's pairs |
| Scenarios.MultiSignalProvide | test/MultiSignal.test.js:110-132 | `provide` twice returns the same signal, seeded with the stored value, and a later `set` is routed into it |
| Scenarios.MultiSignalGetAfterProvide | lib/MultiSignal.js:98 | after `provide` and `set`, `_get` as written yields the signal object, while reading through gives the value written |
| Scenarios.SuperSignalProvide | test/SuperSignal.test.js:96-119 | `provide` of an unset key gives a signal holding `undefined`, the same one each time, and a later `set` is reported as a change from `undefined` to "Ahoy!" |

## Findings

| source | as written | input that shows it | evidently intended | confidence | as-written member | corrected member |
|---|---|---|---|---|---|---|
| lib/MultiSignal.js:98 | `_get` tests `signal instanceof this.Signal`. A signal is built by a factory that returns a plain function, as lib/Signal.js and the test's `Signal` both do, so the test is false for every signal entry, and `_get` returns the signal function itself | `provide("greeting")`, then `set("greeting", "Ahoy!")`, then `get("greeting")` returns the signal, not "Ahoy!"; `get()` has the same problem | read through a signal entry with the same test `_set` and `provide` use (`constructor === this.Signal`), returning the signal's value | not executed; high | MultiSignals.MultiSignal.GetAsWritten, Scenarios.MultiSignalGetAfterProvide | MultiSignals.MultiSignal.Get, MultiSignals.MultiSignal.Set |

The rest of the model reads through signal entries: `Get` is used by `GetAll`, `Provide` and the stores' `Set` contracts. `MultiSignal.Set` proves that `get(key)` returns what was just written.

## Left out

- Listener, setter and plugin side effects: user code is opaque. A listener that changes the signal, or unregisters itself, while the notify loop runs (reentrancy) is not modelled. Neither is the difference between `notify` pushing onto the live array (lib/Signal.js:73) and `unnotify` swapping in a new one (lib/Signal.js:103), which only matters then.
- Exceptions from user code: every listener, setter and plugin is assumed to return normally, and lib/Signal.js catches nothing. The model therefore does not cover three cases.
  - `Signal.Write`: a listener that throws (lib/Signal.js:170) stops the notify loop after `_value` is already stored (lib/Signal.js:27), so later registrations are not called. Inside `set(obj)` (lib/MultiSignal.js:32-36, lib/SuperSignal.js:14-18) it also ends the loop, so later keys are not written. The `MultiSignal.SetAll` and `SuperSignal.SetAll` contracts, which say every key of `obj` is written, hold only when no listener throws.
  - `Signal.Write`: a setter that throws (lib/Signal.js:23) leaves `_value` as it was and notifies nobody.
  - `Registry.Use`: a plugin that throws (lib/Signal.js:146) is not pushed onto `_plugins` (lib/Signal.js:147), so the next `use` calls it again. `PluginAppliedAtMostOnce`'s "exactly once" holds only for plugins that return. The only throwing `use` modelled is the non-function plugin.
- The setter is a pure `Value -> Value` function. A `setter` property whose value is not a function is modelled as no setter, which is what the `typeof` test makes of it.
- What plugins do to `Signal` or its prototype, including prototype methods overridden by a plugin and then copied into new signals (lib/Signal.js:36-39). Only the applied-once bookkeeping of `Signal._plugins` is modelled. `_plugins` is undefined before the first `use` and is modelled as the empty list.
- JavaScript number semantics: numbers are integers here, so `NaN !== NaN` and `+0 === -0` are not modelled. `typeof` results "symbol" and "bigint" are not modelled.
- Arity overloading: `set(obj)` with one argument and `get()` with none are separate operations (`SetAll`, `GetAll`). The variadic `arguments` of `notify`/`unnotify` is a sequence. Edge cases such as `set("abc")` treating a string as an object are not modelled.
- `for ... in` and `hasOwnProperty`: `set(obj)` takes the own keys of `obj` as a sequence of distinct key/value pairs in enumeration order. Inherited keys and prototype keys of `_signals` are not modelled, and `get()` returns a map rather than an object with a key order.
- `MultiSignal.SetAll`: the listener calls made by the signal writes inside `set(obj)` are not collected into one trace. `Set` returns the trace of one write.
- `SuperSignal.SetAll`: the `Change` each cell reports during `set(obj)` is not returned. `Set` returns the change of one write, and `SetAll` promises only the values the cells end with.
- The injected signal class of `MultiSignal` (lib/MultiSignal.js:18) is modelled as lib/Signal.js's `Signal`. `Value` has no case for a signal object, so the only signal entries are those `provide` stored under their own key.
- `MultiSignal.SetAll`, `SuperSignal.SetAll`: the model cannot build a store where two keys share one signal, and its `Valid()` (no shared signals) rests on that. In the source, `set("b", provide("a"))` stores the provided signal as a value under "b" (lib/MultiSignal.js:59, lib/SuperSignal.js:32). From then on `_set` on "b" sees a signal entry (lib/MultiSignal.js:56, lib/SuperSignal.js:29) and writes into the signal of "a". So after `set({a: 1, b: 2})` the shared signal holds 2 and `get("a")` is 2, where the `SetAll` contracts promise each key its own value. `Set`, `Provide` and `Get` on such a store, and `SetAllStep`/`WrittenAt`, which assume distinct signals, do not cover this case either.
- `SuperSignal` calls `get()`/`set()` methods on its signal (lib/SuperSignal.js:30, 57, 65), which lib/Signal.js does not attach (it attaches only `notify`, `unnotify`, `setter` and `dispose`, lib/Signal.js:35-39). Its signal is modelled as an abstract read/write `Cell` whose `set` reports the change; the `change` event is what test/SuperSignal.test.js:113 listens for, not something lib/SuperSignal.js promises. With lib/Signal.js itself, every `provide` of a key without a signal would throw a TypeError at `signal.set(...)` (lib/SuperSignal.js:64-65) before storing anything; this is not modelled.
- The EventEmitter behaviour the test files describe (`.on("change")`, `.get()`, `.set()` returning `this`, `instanceof EventEmitter`) is not part of lib/Signal.js and is not modelled.
- The `instanceof` test of `MultiSignal._get` (lib/MultiSignal.js:98) is recorded under Findings. The model reads through signal entries there as `_set` does.
