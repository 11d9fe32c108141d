# events: an in-process publish/subscribe dispatcher, modelled in Dafny

The Go package `events` keeps a table from event identifiers to ordered lists
of listeners. `Register` appends a listener to an identifier's list, and
`Dispatch` calls the listeners of an event's identifier in registration
order. A listener is called inline by default, or in its own goroutine when
the dispatcher is configured `async`. The dispatcher is built by
`NewDispatcher` from a `Config` that one or more configurer callbacks
adjust. It may be published as the package-wide *facade*, which the
package-level `Register` and `Dispatch` use.

Modules, one per source file:

- `EventValues` (`event.dfy`, events/event.go): `EventId`, the `Event` value, `Make` and `Get`.
- `Configs` (`config.dfy`, events/config.go):
  - the `Config` class with its three setters and `AsyncConfigError`;
  - a value view `Settings` of the four fields;
  - a `Configurer` datatype for the callbacks given to `NewDispatcher`;
  - the wait policy `shouldWait || waitGroup != nil` and the lemmas showing every setter preserves it.
- `Dispatchers` (`events.dfy`, events/events.go):
  - the `Dispatcher` class (listener table, configuration, wait group);
  - the `Registry` class, which holds the package-level `facade` slot, `NewDispatcher` and the facade `Register`/`Dispatch`;
  - the functions and lemmas that specify registration and dispatch.
- `Sync` (`sync.dfy`): `sync.WaitGroup` as an opaque handle class. Allocating
  one models `new(sync.WaitGroup)`.
- `Wrappers` (`wrappers.dfy`): `Option` models nil pointers. The package's
  one error return, from `ShouldWait`, is an `Option<AsyncConfigError>`.
  `Result` carries the facade panics and the construction-time re-check
  `Validate`.
- `Scenarios` (`scenarios.dfy`): the tests of events/events_test.go as
  client methods. Each method's contract states the outcome of the modelled
  code in the situation its test sets up, and follows from the other
  contracts alone.
  - All eleven tests are covered. Nine have a method of their own. The two
    tests of facade calls with no facade set share one method,
    `FacadeCallsWithoutFacade`.
  - For the async test, the contract states the trace: both listeners
    launched in registration order, then one wait. It does not state the
    two payload flags the test checks, because listeners' effects in
    goroutines are not modelled.
  - `WrongWaitConfigurerIsIgnored` states what the code does: the default
    configuration and no error. This contradicts its test, which expects
    an `AsyncConfigError` (see below).
  - Beyond these methods, `Registry.NewDispatcher` and
    `RegisterTwiceKeepsBoth` cover the construction and double-registration
    tests for every input.

How the model represents the source:

- **Listeners.** The listener type is a type parameter `L`. A dispatch
  returns its *trace*, a sequence of `Step`s:
  - `Invoke(l, e)`: `l` called inline with the event `e`;
  - `Launch(l, e)`: `l` started in a goroutine with the event `e`;
  - `Wait`: the blocking `waitGroup.Wait()`.
  `Scenarios.InlineEffect` gives the effect of an inline trace when listeners
  are transformations of the shared payload. `Scenarios.SyncDispatchEffect`
  shows this effect is the listeners applied in registration order.
- **Payload.** The payload is a type parameter of `Event`.
- **Wait groups.** Wait groups are `WaitGroup` objects. Only which handle
  is held matters: the configuration's handle, or a fresh one.
- **Configurers.** A configurer is a `Configurer` step. It is either a call
  of one of the three setters or an assignment of a whole struct value
  through the pointer. Assigning a whole struct is legal from any package:
  `*c = events.Config{}` writes the zero value.

### Where the code, its tests and its documentation disagree

- events/events_test.go:20 and :67-78 call `NewDispatcher` as if it returned
  `(*Dispatcher, error)`. They expect an `AsyncConfigError` from a configurer
  that calls `ShouldWait(false, nil)`. The code at events/events.go:137-159
  returns only `*Dispatcher` and validates nothing. The model follows the
  code: `Registry.NewDispatcher` always yields a dispatcher.
- In that test the strict `ShouldWait` rejects the call and leaves the
  configuration untouched. Its error is dropped, because a `func(*Config)`
  cannot return it. That dispatcher therefore has the default configuration
  (`RejectedWaitKeepsDefault`, `Scenarios.WrongWaitConfigurerIsIgnored`).
- A re-check at construction time is what `Validate` performs. It could
  never fail on a configuration reached through setter calls alone
  (`ValidateNeverFailsAfterConfigurers`).
- A configurer that assigns the zero struct can leave `shouldWait=false`
  with no wait group. The re-check then fails (`AssignedZeroBreaksWaitPolicy`).
  The code, which has no re-check, gives that dispatcher a fresh private wait
  group that no caller can wait on.
- The package comment (events/events.go:98-99) also says that omitting the
  wait group "will result in an error". In the code, that error comes from
  `ShouldWait` alone.
- The root-level config_test.go:49-52 expects a lenient `ShouldWait` that
  stores `shouldWait=false` with no wait group. The model follows
  events/config.go:44-47, which rejects it.

## Model

| member | source | states |
|---|---|---|
| `EventValues.Make` | events/event.go:10-16 | any identifier and payload give an event; its id is the identifier and `Get()` returns the payload unchanged |
| `Configs.NewAsyncConfigError` | events/config.go:55-68 | `Error()` of the built error returns exactly the text it was built with |
| `Configs.Config.constructor` | events/config.go:15-22 | the default configuration is not async, not facade, waits, has no wait group, and satisfies the wait policy |
| `Configs.DefaultHoldsWaitPolicy` | events/config.go:15-22 | the default settings satisfy "shouldWait or waitGroup != nil" and have the source's four default values |
| `Configs.Config.ShouldAsync` | events/config.go:26-30 | sets `isAsync` only, returns the same config, keeps the wait policy |
| `Configs.Config.AsFacade` | events/config.go:33-37 | sets `isFacade` only, returns the same config, keeps the wait policy |
| `Configs.Config.ShouldWait` | events/config.go:44-53 | errors iff `!shouldWait && waitGroup == nil`, with the fixed message and no field changed; otherwise sets both wait fields together, overwriting or clearing the earlier handle, and the policy then holds |
| `Configs.Config.Apply` | events/events.go:139-141 | running one configurer step (a setter call or a whole-struct assignment) changes the config as `Configure` says |
| `Configs.ConfigureKeepsWaitPolicy` | events/config.go:26-52 | each setter preserves the wait policy; a successful `ShouldWait` establishes it from any state |
| `Configs.AssignedZeroBreaksWaitPolicy` | events/config.go:7-12 | a configurer that assigns the zero `Config{}` and then sets async leaves a config that neither waits nor has a wait group, and the re-check fails on it |
| `Configs.ConfigureAllKeepsWaitPolicy` | events/config.go:44-52 | any sequence of setter calls run from a configuration satisfying the policy ends in one that satisfies it |
| `Configs.ConfigureAllAppend` | events/events.go:138-141 | configurers act in the order given on one shared config: running `a + b` equals running `b` on the result of `a` |
| `Configs.Validate` | events/config.go:44-47 | a construction-time re-check succeeds, returning the settings unchanged, iff the wait policy holds, and otherwise fails with the setter's message |
| `Configs.ValidateNeverFailsAfterConfigurers` | events/events.go:137-141 | no sequence of setter calls applied to the default config can make that re-check fail |
| `Configs.RejectedWaitKeepsDefault` | events/events_test.go:67-70 | a lone `ShouldWait(false, nil)` configurer leaves the default configuration exactly as it was |
| `Dispatchers.Appended` | events/events.go:162-171 | the table after a registration: the id's list is its old list (empty if absent) followed by the listener, the id is now a key, and every other id keeps its list |
| `Dispatchers.AppendedKeepsNoEmptyLists` | events/events.go:162-179 | one registration never leaves an empty list |
| `Dispatchers.RegisterAllNoEmptyLists` | events/events.go:162-179 | any series of registrations into an empty table leaves every list non-empty, so the empty-list guard of `Dispatch` only covers tables no registration produces |
| `Dispatchers.RegisterTwiceKeepsBoth` | events/events_test.go:80-99 | registering the same listener twice keeps both copies, in order |
| `Dispatchers.RegisterAllListOf` | events/events.go:162-171 | after any series of registrations, an id's list is its old list followed by exactly the listeners registered under that id, in order |
| `Dispatchers.DispatchStartsEachListenerOnce` | events/events.go:181-188 | a dispatch calls or starts exactly the listeners of the list, each once, in registration order, in either mode |
| `Dispatchers.PlannedShape` | events/events.go:175-195 | inline calls in sync mode and goroutine launches in async mode, one per listener in order, each passed the dispatched event, followed by one wait (in either mode) iff the list is non-empty and `shouldWait` holds |
| `Dispatchers.DispatchUnregisteredIsNoOp` | events/events.go:176-179 | an id that is absent or has an empty list dispatches to nothing, with no wait |
| `Dispatchers.SyncDispatchAfterRegistrations` | events/events_test.go:101-121 | from an empty table, a sync dispatch calls inline exactly the listeners registered under the event's id, in registration order, and none registered under other ids |
| `Dispatchers.Dispatcher.constructor` | events/events.go:148-152 | a dispatcher is built with an empty listener table, the given config and the given wait group |
| `Dispatchers.Dispatcher.Register` | events/events.go:162-171 | appends to the id's list (creating it on first use), changes no other list, never fails, returns the same dispatcher |
| `Dispatchers.Dispatcher.Dispatch` | events/events.go:175-195 | the dispatch trace is `Planned` over the event id's list, the config's async and wait flags and the event passed to every listener; the table is not modified; returns the same dispatcher |
| `Dispatchers.Registry.constructor` | events/events.go:105-106 | the facade slot starts empty |
| `Dispatchers.Registry.NewDispatcher` | events/events.go:137-159 | a fresh dispatcher whose config is the default with the configurers applied in order, with nothing validated (the wait policy holds when the configurers only call setters); its table is empty; it holds the config's wait group if one is set, else a fresh one; the facade becomes this dispatcher iff `isFacade`, otherwise stays as it was |
| `Dispatchers.Registry.Register` | events/events.go:208-215 | "No facade registered" when the slot is empty; otherwise exactly `Register` on the facade dispatcher, which is returned |
| `Dispatchers.Registry.Dispatch` | events/events.go:217-224 | "No facade registered" with no steps when the slot is empty; otherwise exactly the trace `Dispatch` produces on the facade dispatcher, which is returned |
| `Scenarios.SyncDispatchEffect` | events/events.go:181-188 | when listeners transform the shared payload, a sync dispatch has the effect of applying them to it one after the other, in registration order |
| `Scenarios.BuildsNewDefaultDispatcher` | events/events_test.go:19-36 | a dispatcher built with no configurers has an empty table and the default config, neither async nor facade |
| `Scenarios.BuildsNewAsyncDispatcher` | events/events_test.go:38-49 | a `ShouldAsync(true)` configurer gives an async dispatcher |
| `Scenarios.BuildsNewFacadeDispatcher` | events/events_test.go:51-65 | an `AsFacade(true)` configurer gives a facade dispatcher, and the facade slot holds it |
| `Scenarios.RegistersEvents` | events/events_test.go:80-99 | the first registration under an id gives a one-element list; the second registration of the same listener gives two copies |
| `Scenarios.TriggersListeners` | events/events_test.go:101-121 | one incrementing listener under each of two ids: dispatching the first takes the payload from 7 to 8, the second from 8 to 9 |
| `Scenarios.TriggersListenersAsync` | events/events_test.go:123-152 | an async dispatcher launches both listeners of the id in registration order, each with the event, then waits |
| `Scenarios.RegistersEventsAsFacade` | events/events_test.go:154-176 | the listeners in the facade slot for the id: one after the first package-level registration, and two copies after the second, still read through the slot once a later non-facade dispatcher has been built |
| `Scenarios.FacadeCallsWithoutFacade` | events/events_test.go:178-214 | with no facade set, package-level `Register` and `Dispatch` both fail with "No facade registered" |
| `Scenarios.TriggersListenersAsFacade` | events/events_test.go:189-203 | a listener registered through the facade runs on a facade dispatch, taking the payload from 7 to 8 |
| `Scenarios.WrongWaitConfigurerIsIgnored` | events/events_test.go:67-78 | the code's outcome: a `ShouldWait(false, nil)` configurer yields a dispatcher with the default config and no error, which contradicts the test's expected `AsyncConfigError` |

## Left out

- Goroutines and the wait group's counter (`dispatchAsync`, `Add`/`Done`/`Wait`, events/events.go:190-206) are concurrency. Async mode is modelled as `Launch` steps in start order. The `Wait` step is opaque: it follows the calls when `shouldWait` holds, in sync mode as well, since events/events.go:190-192 waits whatever `isAsync` is. When listeners complete is not modelled.
- Dispatchers.Dispatcher.Dispatch: the trace records which listeners are called, in which order, in which mode and with which event. It does not record what they do, which depends on closures the model cannot see. Payload mutation is only illustrated: `Scenarios.InlineEffect` treats inline listeners as state transformers. Listeners that re-enter the dispatcher are not modelled, for example by calling `Register` on it from events/events.go:187. The `range` at events/events.go:181 fixes the list when the loop starts, so such registrations are not seen by the dispatch in progress.
- Panics raised by listeners, and their propagation out of `Dispatch`, are not modelled.
- Listeners' runtime type assertions on the `any` payload are not modelled. The payload is a type parameter.
- The facade panic "No facade registered" is returned as `Failure(NoFacadeMessage)`.
- Configurer callbacks are arbitrary Go closures. The model represents each one by the steps it takes on the config: setter calls and whole-struct assignments. Other code a closure runs is not modelled. A closure taking several steps equals several consecutive configurers (`ConfigureAllAppend`).
- Configs.ConfigureAllKeepsWaitPolicy, Configs.ValidateNeverFailsAfterConfigurers and the wait-policy clause of Dispatchers.Registry.NewDispatcher cover only configurers that call setters. A whole-struct assignment can break the policy (`AssignedZeroBreaksWaitPolicy`).
- A closure that keeps the `*Config` pointer and changes it after construction is not modelled.
- The data race on the package-level `facade` slot under concurrent construction is not modelled.
- events/doc.go is not part of this model; it repeats the package comment of events/events.go.
- The root-level event.go, event_test.go and config_test.go are an older copy of the package and are not part of this model.
