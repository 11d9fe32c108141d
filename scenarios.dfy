/** The usage scenarios of events/events_test.go, written as client code
    whose outcomes follow from the contracts alone. */
module Scenarios {
  import opened Wrappers
  import opened EventValues
  import opened Configs
  import opened Dispatchers

  /** The payload the tests pass by pointer. */
  class Dto {
    var data: int

    constructor (data: int)
      ensures this.data == data
    {
      this.data := data;
    }
  }

  /** The state reached by applying the transformations in order. */
  function Fold<S>(fs: seq<S -> S>, s: S): (r: S)
  {
    if fs == [] then s else Fold(fs[1..], fs[0](s))
  }

  /** The effect on shared state of the listeners a dispatch calls inline, in
      order, when each listener is a transformation of that state. Launched
      listeners and the wait contribute nothing inline. */
  function InlineEffect<S, P>(steps: seq<Step<S -> S, P>>, s: S): (r: S)
  {
    if steps == [] then s
    else InlineEffect(steps[1..], if steps[0].Invoke? then steps[0].listener(s) else s)
  }

  lemma {:induction false} InlineEffectAppend<S, P>(a: seq<Step<S -> S, P>>, b: seq<Step<S -> S, P>>, s: S)
    ensures InlineEffect(a + b, s) == InlineEffect(b, InlineEffect(a, s))
  {
    if a == [] {
      assert a + b == b;
    } else {
      assert (a + b)[1..] == a[1..] + b;
      InlineEffectAppend(a[1..], b, if a[0].Invoke? then a[0].listener(s) else s);
    }
  }

  lemma {:induction false} InlineEffectOfCalls<S, P>(ls: seq<S -> S>, e: Event<P>, s: S)
    ensures InlineEffect(Calls(ls, false, e), s) == Fold(ls, s)
  {
    if ls != [] {
      assert Calls(ls, false, e)[1..] == Calls(ls[1..], false, e);
      InlineEffectOfCalls(ls[1..], e, ls[0](s));
    }
  }

  /** A synchronous dispatch over listeners that transform the shared state
      has the effect of applying them in registration order. */
  lemma SyncDispatchEffect<S, P>(ls: seq<S -> S>, shouldWait: bool, e: Event<P>, s: S)
    ensures InlineEffect(Planned(ls, false, shouldWait, e), s) == Fold(ls, s)
  {
    if ls != [] {
      var tail: seq<Step<S -> S, P>> := if shouldWait then [Wait] else [];
      InlineEffectAppend(Calls(ls, false, e), tail, s);
      InlineEffectOfCalls(ls, e, s);
      assert tail != [] ==> tail[1..] == [];
    }
  }

  /** events_test.go, TestBuildsNewDefaultDispatcher: a dispatcher built
      without configurers has an empty listener table and the default
      configuration, so it is neither async nor a facade. */
  method BuildsNewDefaultDispatcher() returns (settings: Settings, table: Table<string>)
    ensures settings == DefaultSettings
    ensures !settings.isAsync && !settings.isFacade
    ensures table == map[]
  {
    var registry := new Registry<string>();
    var d := registry.NewDispatcher([]);
    settings, table := d.config.View(), d.listeners;
  }

  /** events_test.go, TestBuildsNewAsyncDispatcher: a `ShouldAsync(true)`
      configurer gives an async dispatcher. */
  method BuildsNewAsyncDispatcher() returns (isAsync: bool)
    ensures isAsync
  {
    var registry := new Registry<string>();
    var d := registry.NewDispatcher([ShouldAsyncCall(true)]);
    assert [ShouldAsyncCall(true)][..0] == [];
    isAsync := d.config.isAsync;
  }

  /** events_test.go, TestBuildsNewFacadeDispatcher: an `AsFacade(true)`
      configurer gives a facade dispatcher, and that dispatcher is what the
      package-level slot now holds. */
  method BuildsNewFacadeDispatcher() returns (isFacade: bool, published: bool)
    ensures isFacade && published
  {
    var registry := new Registry<string>();
    var d := registry.NewDispatcher([AsFacadeCall(true)]);
    assert [AsFacadeCall(true)][..0] == [];
    isFacade := d.config.isFacade;
    published := registry.facade == Some(d);
  }

  /** events_test.go, TestRegistersEvents: the first registration under an
      identifier creates its list with one listener; registering the same
      listener again gives two. */
  method RegistersEvents() returns (afterOne: seq<string>, afterTwo: seq<string>)
    ensures afterOne == ["listener"]
    ensures afterTwo == ["listener", "listener"]
  {
    var registry := new Registry<string>();
    var d := registry.NewDispatcher([]);
    var _ := d.Register("event a", "listener");
    afterOne := d.listeners["event a"];
    var _ := d.Register("event a", "listener");
    afterTwo := d.listeners["event a"];
  }

  /** events_test.go, TestTriggersListeners: a default dispatcher with one
      incrementing listener under each of two identifiers; dispatching the
      first takes the payload from 7 to 8, then the second takes it to 9. */
  method TriggersListeners() returns (first: int, second: int)
    ensures first == 8 && second == 9
  {
    var registry := new Registry<int -> int>();
    var d := registry.NewDispatcher([]);
    assert d.config.View() == DefaultSettings;
    var increment := (x: int) => x + 1;
    var _ := d.Register("event a", increment);
    var _ := d.Register("event b", increment);
    var eventData := new Dto(7);
    var eventA := Make("event a", eventData);
    var _, steps := d.Dispatch(eventA);
    SyncDispatchEffect([increment], true, eventA, eventData.data);
    eventData.data := InlineEffect(steps, eventData.data);
    first := eventData.data;
    var eventB := Make("event b", eventData);
    var _, steps' := d.Dispatch(eventB);
    SyncDispatchEffect([increment], true, eventB, eventData.data);
    eventData.data := InlineEffect(steps', eventData.data);
    second := eventData.data;
  }

  /** events_test.go, TestTriggersListenersAsync: an async dispatcher starts
      both listeners of one identifier in goroutines, in registration order,
      each with the event, and then waits for them. The flags the test's
      listeners set in goroutines are outside the model. */
  method TriggersListenersAsync() returns (steps: seq<Step<string, string>>)
    ensures steps == [Launch("listenerA", Make("event a", "dto")), Launch("listenerB", Make("event a", "dto")), Wait]
  {
    var registry := new Registry<string>();
    var d := registry.NewDispatcher([ShouldAsyncCall(true)]);
    assert d.config.View() == DefaultSettings.(isAsync := true);
    var _ := d.Register("event a", "listenerA");
    var _ := d.Register("event a", "listenerB");
    var self;
    self, steps := d.Dispatch(Make("event a", "dto"));
  }

  /** events_test.go, TestRegistersEventsAsFacade: once a facade dispatcher
      is built, package-level registration lands on it, twice over; a later
      dispatcher that is not a facade does not replace it, so the slot still
      holds both registrations. */
  method RegistersEventsAsFacade() returns (afterOne: seq<string>, afterTwo: seq<string>)
    ensures afterOne == ["listener"]
    ensures afterTwo == ["listener", "listener"]
  {
    var registry := new Registry<string>();
    var _ := registry.NewDispatcher([AsFacadeCall(true)]);
    var _ := registry.Register("event a", "listener");
    afterOne := registry.facade.value.listeners["event a"];
    var _ := registry.Register("event a", "listener");
    var _ := registry.NewDispatcher([]);
    afterTwo := registry.facade.value.listeners["event a"];
  }

  /** events_test.go, TestPanicsOnRegisteringEventsAsFacadeWhenNotAFacade and
      TestPanicsOnDispatchingEventsAsFacadeWhenNotAFacade: with an empty slot
      and only a non-facade dispatcher built, both package-level calls fail
      with "No facade registered". */
  method FacadeCallsWithoutFacade() returns (registered: Result<Dispatcher<string>, string>,
                                            dispatched: Result<Dispatcher<string>, string>)
    ensures registered == Failure("No facade registered")
    ensures dispatched == Failure("No facade registered")
  {
    var registry := new Registry<string>();
    var _ := registry.NewDispatcher([]);
    registered := registry.Register("event b", "listener");
    var steps;
    dispatched, steps := registry.Dispatch(Make("event b", "some data"));
  }

  /** events_test.go, TestTriggersListenersAsFacade: a listener registered
      through the facade runs when the event is dispatched through the
      facade, taking the payload from 7 to 8. */
  method TriggersListenersAsFacade() returns (data: int)
    ensures data == 8
  {
    var registry := new Registry<int -> int>();
    var d := registry.NewDispatcher([AsFacadeCall(true)]);
    assert d.config.View() == DefaultSettings.(isFacade := true);
    var increment := (x: int) => x + 1;
    var _ := registry.Register("event b", increment);
    var eventData := new Dto(7);
    var event := Make("event b", eventData);
    var _, steps := registry.Dispatch(event);
    SyncDispatchEffect([increment], true, event, eventData.data);
    eventData.data := InlineEffect(steps, eventData.data);
    data := eventData.data;
  }

  /** events_test.go, TestFailsToBuildADispatcherOnWrongConfig: a configurer
      calling `ShouldWait(false, nil)` is refused by the setter itself, so the
      dispatcher is built with the default configuration and no error
      reaches the caller. This is the code's outcome; the test expects an
      `AsyncConfigError`, which the code as written cannot return. */
  method WrongWaitConfigurerIsIgnored() returns (settings: Settings)
    ensures settings == DefaultSettings
  {
    var registry := new Registry<string>();
    var d := registry.NewDispatcher([ShouldWaitCall(false, None)]);
    RejectedWaitKeepsDefault();
    settings := d.config.View();
  }
}
