# nucleus-state reactive cells, modelled in Dafny

This project models the two reactive cells of nucleus-state and proves
properties of them.

- The **value cell** comes from `createAtom` in `src/core/atom.ts`. It holds one
  mutable value and a set of listeners. `set` takes either a value or an
  updater function. It compares the replacement with the current value and, on
  a change, stores the replacement and calls every listener with it.
  `subscribe` adds a listener and returns a handle that removes that listener.
- The **derived cell** comes from `createComputed` in `src/core/computed.ts`. It
  calls its compute function once, at construction, and caches the result.
  `get` returns the cache, `set` always throws, and subscribe/unsubscribe work
  on a listener set.

Both implement the three-method `Atom<T>` interface of `src/types/index.ts`.

## Layout

- `cell.dfy`, module `Cell`: the shared vocabulary.
  - `ListenerId`: a listener's identity.
  - `Update<T>`: the argument of `set`, either `Direct(v)` or `Apply(f)`. This
    makes the source's `typeof newValue === 'function'` test explicit.
  - `Call<T>`: one listener invocation.
  - `Inbox(log, l)`: what listener `l` received, in order.
  - `Targets(log)`: which listeners a batch of calls reached, with multiplicity.
- `atom.dfy`, module `AtomCell`:
  - a functional description of one operation: `Step` gives the new state,
    `Emitted` what each listener receives;
  - its lifting to sequences of operations: `Run`, `Received`;
  - lemmas about whole sequences of operations;
  - `Notify`, the `forEach` loop of `set`;
  - the class `Atom`;
  - the class `Subscription`, which models the unsubscribe closure.
  - `Replay`, a client that performs any sequence of calls on an `Atom`.
  Every method of `Atom` is proved to perform exactly one `Step`, and to add to
  each listener's inbox exactly what `Emitted` says. `Replay` is proved to end
  in the state `Run` gives and to deliver exactly what `Received` gives, so the
  lemmas about `Run` and `Received` hold of any sequence of calls on an `Atom`.
- `computed.dfy`, module `ComputedCell`: the classes `Computed` and
  `Subscription`, and one scenario.
- `atom_tests.dfy`, module `AtomScenarios`: client methods that replay the
  scenarios of `tests/core/atom.test.ts` using only the class contracts.

Modelling choices:

- Each cell has a `log` field that records every listener call it makes. This
  stands for the effect of calling the listeners, much as the test suite's spies
  record their calls.
- Change detection (`nextValue !== value`) is Dafny `==` on a type with
  equality.
- The cached value of the derived cell is a `const`, because the source assigns
  it once and only reads it afterwards.
- The derived cell keeps no reference to its compute function, and its cached
  `value` is a `const`, so no operation after the constructor can recompute it.
  The `evaluations` field is bookkeeping beside this: the constructor, which
  calls the compute function once, sets it to 1, and no method writes it.
- The model follows the code where the repository's tests or comments expect
  more:
  - `createAtom` accepts `persist` and `storage` options but never reads or
    writes storage (src/core/atom.ts:3-42), although the tests at
    tests/core/atom.test.ts:73-108 expect storage behaviour.
  - `createComputed` never recomputes and tracks no dependencies; the comment
    at src/core/computed.ts:9 leaves dependency tracking for later.

## Model

| member | source | states |
|---|---|---|
| `AtomCell.Resolve` | src/core/atom.ts:16-18 | the replacement is the argument itself for a direct value, and the updater applied to the current value for a function |
| `AtomCell.Step` | src/core/atom.ts:15-33 | a set gives the resolved replacement as the new value (a replacement equal to the current value leaves it as it was) and keeps the listeners; a get keeps everything; a subscribe adds exactly `l` and an unsubscribe removes exactly `l`, and neither changes the value |
| `AtomCell.Emitted` | src/core/atom.ts:20-22 | an operation delivers at most one value to a listener; it delivers one exactly when it is a set that changes the value and the listener is registered, and the value delivered is the new value |
| `Cell.DeliveryInbox` | src/core/atom.ts:22 | a batch of calls that names each registered listener exactly once, always with the same value, gives every registered listener exactly that one value and gives any other listener nothing |
| `AtomCell.Notify` | src/core/atom.ts:22 | the notify loop calls each listener of the set exactly once (the multiset of called listeners equals the listener set), and every call passes the new value |
| `AtomCell.Atom.constructor` | src/core/atom.ts:3-8 | a new cell holds the initial value passed in, has no listeners and has called none |
| `AtomCell.Atom.Get` | src/core/atom.ts:11-13 | returns the current value and changes nothing: not the value, not the listeners, not the log |
| `AtomCell.Atom.Set` | src/core/atom.ts:15-24 | the new value is the argument (`Direct`) or the updater applied to the old value (`Apply`); the listener set does not change; if the new value equals the old one, nothing is logged; on a change, each listener registered at the time of the call is called exactly once with the new value, no other listener is called, and the earlier log is kept as a prefix; each listener's inbox grows by exactly what `Emitted` says |
| `AtomCell.Atom.Subscribe` | src/core/atom.ts:26-33 | the listener set becomes the old set plus `l` (so a second subscription of `l` adds nothing); the value and the log do not change; the returned handle is fresh and bound to this cell and `l` |
| `AtomCell.Subscription.Unsubscribe` | src/core/atom.ts:30-32 | removes exactly the handle's listener from the cell's set; calling it again right away changes nothing, and any handle of a listener also removes a later re-subscription of it; the value and the log do not change |
| `AtomCell.SilentWhileUnsubscribed` | src/core/atom.ts:20-32 | in any sequence of gets, sets, subscribes and unsubscribes that never subscribes `l`, a listener `l` that is not registered at the start receives nothing and stays unregistered |
| `AtomCell.SubscriberSeesLatest` | src/core/atom.ts:20-23 | as long as a registered listener is not unsubscribed, the cell's final value is the last value that listener received, or the starting value if it received nothing; so it misses no change |
| `AtomCell.SetsKeepListeners` | src/core/atom.ts:11-24 | any sequence of gets and sets leaves the listener set as it was |
| `AtomCell.UpdaterIsDirectSet` | src/core/atom.ts:16-18 | a set with an updater is a set with the updater's result on the value current at that moment: replacing every updater in any sequence of operations by the value it computes at its turn gives the same final state and the same notifications to every listener |
| `AtomCell.Replay` | src/core/atom.ts:10-34 | any sequence of gets, sets, subscribes and unsubscribe-handle calls on a cell leaves it in the state `Run` gives, and adds to each listener's inbox exactly what `Received` gives |
| `AtomScenarios.CreatesWithInitialValue` | tests/core/atom.test.ts:25-28 | a cell created with 42 reads 42 |
| `AtomScenarios.UpdatesValue` | tests/core/atom.test.ts:30-34 | setting 5 on a cell holding 0 leaves it reading 5 |
| `AtomScenarios.UpdatesWithFunction` | tests/core/atom.test.ts:36-40 | setting with `prev => prev + 5` on a cell holding 10 leaves it reading 15 |
| `AtomScenarios.NotifiesSubscribers` | tests/core/atom.test.ts:42-50 | a subscriber receives exactly `[5]` when the value changes from 0 to 5 |
| `AtomScenarios.SameValueDoesNotNotify` | tests/core/atom.test.ts:52-60 | setting 5 on a cell holding 5 calls no subscriber |
| `AtomScenarios.UnsubscribesCorrectly` | tests/core/atom.test.ts:62-71 | after a listener's unsubscribe handle is called, a change does not call it |
| `AtomScenarios.WorksWithComplexObjects` | tests/core/atom.test.ts:110-117 | updating the `count` field of a record with an updater gives count 1 and leaves the name `"test"` |
| `AtomScenarios.IncrementThrice` | src/core/atom.ts:15-24 | three increments on a cell holding 0 give a subscriber exactly 1, 2 and 3, one call per change, and leave the cell at 3 |
| `AtomScenarios.SubscribeTwiceNotifiesOnce` | src/core/atom.ts:8 | a listener subscribed twice is called once per change; calling both handles is safe, and afterwards the listener receives nothing more |
| `ComputedCell.Computed.constructor` | src/core/computed.ts:3-7 | construction calls the compute function once and caches its result (`value == computeFn()`, with the bookkeeping `evaluations == 1`), and there are no listeners and no calls |
| `ComputedCell.Computed.Get` | src/core/computed.ts:12-14 | returns the cached value and changes nothing; the cell keeps no compute function and `value` is a `const`, so it cannot recompute, and repeated reads agree |
| `ComputedCell.Computed.Set` | src/core/computed.ts:16-18 | always fails with the read-only error `"Cannot set value on computed atom"`, and changes nothing |
| `ComputedCell.Computed.Subscribe` | src/core/computed.ts:20-25 | the listener set becomes the old set plus `l`; the cached value, the compute count and the log do not change; the returned handle is bound to this cell and `l` |
| `ComputedCell.Subscription.Unsubscribe` | src/core/computed.ts:22-24 | removes exactly the handle's listener; calling it again right away changes nothing, and it also removes a later re-subscription of the same listener; the cached value, the compute count and the log do not change |
| `ComputedCell.CachedAndReadOnly` | src/core/computed.ts:3-27 | for `() => 21 * 2`, two reads both return 42, `evaluations` is still 1, a write fails with the read-only error, and no listener is ever called |

The helpers `Cell.InboxAppend` and `Cell.UniformInbox` support the proofs of
`Atom.Set` and `Cell.DeliveryInbox`. They are not listed above.

## Left out

- Persistence: `createAtom` ignores `options.persist` and `options.storage`
  (src/core/atom.ts:3-42). So there is no load on construction and no write on
  change. The storage tests at tests/core/atom.test.ts:73-108 assert behaviour
  the code does not have, and are not modelled.
- The debug name (src/core/atom.ts:37-39): it depends on the host environment
  and does not affect get, set or subscribe.
- src/persistence/localStorage.ts, src/utils/index.ts and src/react/hooks.ts are
  not part of this model. They are wrappers over `createAtom`, over
  `JSON.parse`/`JSON.stringify`, and over React.
- Listeners are opaque identities. The model records their invocations but does
  not run them. So it leaves out:
  - a listener that throws, and the abort of the remaining loop that follows;
  - a listener that calls `set` during notification.
- The order in which one `set` calls its listeners is JavaScript `Set`
  iteration order. `Notify` leaves the order unspecified and promises only
  "each exactly once".
- Equality: Dafny `==` stands for `!==`. Two differences follow:
  - For object values, JavaScript compares references. A Dafny datatype is
    compared by structure, so an updater that returns a structurally equal copy
    notifies in the source and not in the model.
  - The floating-point cases (`NaN`, `+0`/`-0`) are not modelled.
- Values in the model are immutable, so in-place mutation of the held value is
  not modelled. `get()` (src/core/atom.ts:12) hands out the live object. An
  updater such as `p => { p.count++; return p; }`, or a caller that mutates
  what `get` returned, changes the held object without a notification:
  `nextValue !== value` is false at src/core/atom.ts:20. The model's nearest
  input, `Apply(p => p.(count := p.count + 1))`, builds a new value and
  notifies.
- The updater test: a caller cannot store a function as a literal value, because
  `typeof` sends every function to the updater branch. The `Update` datatype
  makes the caller's choice explicit, so this ambiguity is not modelled.
- Updaters (`Apply(f)`, with `f: T -> T`) and the compute function
  (`() -> T`) are total, pure Dafny functions. Their error paths and side
  effects are therefore not modelled:
  - an updater that throws at src/core/atom.ts:17: `set` then throws, the value
    and the listeners stay as they were, and no listener is called; in the
    model `Apply(f)` always returns;
  - a compute function that throws at src/core/computed.ts:6: `createComputed`
    then throws and no cell is created; the `Computed` constructor always
    succeeds;
  - an updater that calls `set` on its own cell: the outer call then compares
    its result with the value the inner call stored (src/core/atom.ts:20);
  - a compute function that reads other mutable state.
  That the cache is never refreshed follows from `value` being a `const` and
  from the cell keeping no reference to the compute function.
- Garbage collection of cells and listeners has no counterpart.
