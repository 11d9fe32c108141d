/** events/events.go: the listener table, registration, synchronous
    dispatch and the package-level facade. */
module Dispatchers {
  import opened Wrappers
  import opened Sync
  import opened EventValues
  import opened Configs

  /** The message of the panic raised by facade calls when no facade is set. */
  const NoFacadeMessage: string := "No facade registered"

  /** The listener table: for each event identifier, its listeners in
      registration order. The listener type `L` is a parameter: the model
      records which listener is called, not what it does. */
  type Table<L> = map<EventId, seq<L>>

  /** The list a Go map lookup yields: the registered listeners, or an empty
      list when the identifier was never registered. */
  function ListOf<L>(t: Table<L>, id: EventId): (ls: seq<L>)
  {
    if id in t then t[id] else []
  }

  /** The table after `Register(id, l)`: `l` appended to the list of `id`,
      which is created on first use. */
  function Appended<L>(t: Table<L>, id: EventId, l: L): (t': Table<L>)
    ensures t'.Keys == t.Keys + {id}
    ensures t'[id] == ListOf(t, id) + [l]
    ensures forall other | other in t && other != id :: t'[other] == t[other]
  {
    if id in t then t[id := t[id] + [l]] else t[id := [l]]
  }

  /** The table after a series of registrations `(id, listener)`, in order. */
  function RegisterAll<L>(t: Table<L>, regs: seq<(EventId, L)>): (t': Table<L>)
  {
    if regs == [] then t
    else Appended(RegisterAll(t, regs[..|regs| - 1]), regs[|regs| - 1].0, regs[|regs| - 1].1)
  }

  /** The listeners of the registrations made under `id`, in order. */
  function RegisteredUnder<L>(regs: seq<(EventId, L)>, id: EventId): (ls: seq<L>)
  {
    if regs == [] then []
    else RegisteredUnder(regs[..|regs| - 1], id)
         + (if regs[|regs| - 1].0 == id then [regs[|regs| - 1].1] else [])
  }

  /** Every list in the table is non-empty. */
  predicate NoEmptyLists<L>(t: Table<L>)
  {
    forall id | id in t :: t[id] != []
  }

  /** Registering keeps every list non-empty, so the empty-list test of
      `Dispatch` only guards tables no registration can produce. */
  lemma AppendedKeepsNoEmptyLists<L>(t: Table<L>, id: EventId, l: L)
    requires NoEmptyLists(t)
    ensures NoEmptyLists(Appended(t, id, l))
  {
  }

  /** Any series of registrations into an empty table leaves every list
      non-empty. */
  lemma {:induction false} RegisterAllNoEmptyLists<L>(regs: seq<(EventId, L)>)
    ensures NoEmptyLists(RegisterAll(map[], regs))
  {
    if regs != [] {
      var last := regs[|regs| - 1];
      RegisterAllNoEmptyLists(regs[..|regs| - 1]);
      AppendedKeepsNoEmptyLists(RegisterAll(map[], regs[..|regs| - 1]), last.0, last.1);
    }
  }

  /** Registering the same listener twice keeps both copies, in order. */
  lemma RegisterTwiceKeepsBoth<L>(t: Table<L>, id: EventId, l: L)
    ensures ListOf(Appended(Appended(t, id, l), id, l), id) == ListOf(t, id) + [l, l]
  {
  }

  /** After any series of registrations, the list of `id` is its old list
      followed by exactly the listeners registered under `id`, in
      registration order; registrations under other identifiers add nothing. */
  lemma {:induction false} RegisterAllListOf<L>(t: Table<L>, regs: seq<(EventId, L)>, id: EventId)
    ensures ListOf(RegisterAll(t, regs), id) == ListOf(t, id) + RegisteredUnder(regs, id)
  {
    if regs != [] {
      var init, last := regs[..|regs| - 1], regs[|regs| - 1];
      RegisterAllListOf(t, init, id);
      if last.0 != id {
        assert ListOf(RegisterAll(t, regs), id) == ListOf(RegisterAll(t, init), id);
      }
    }
  }

  /** One action of a dispatch: a listener called inline with an event, a
      listener started in its own goroutine with an event, or the blocking
      wait on the dispatcher's wait group. */
  datatype Step<L, P> = Invoke(listener: L, event: Event<P>) | Launch(listener: L, event: Event<P>) | Wait

  /** The listener calls of a dispatch of `e`: one per listener, in list
      order, inline or in goroutines, each passed `e`. */
  function Calls<L, P>(ls: seq<L>, isAsync: bool, e: Event<P>): (r: seq<Step<L, P>>)
    ensures |r| == |ls|
  {
    seq(|ls|, i requires 0 <= i < |ls| => if isAsync then Launch(ls[i], e) else Invoke(ls[i], e))
  }

  /** What a dispatch of `e` over the list `ls` does: nothing when the list is
      empty; otherwise every call, then a wait when the configuration says
      to wait. */
  function Planned<L, P>(ls: seq<L>, isAsync: bool, shouldWait: bool, e: Event<P>): (steps: seq<Step<L, P>>)
  {
    if ls == [] then [] else Calls(ls, isAsync, e) + (if shouldWait then [Wait] else [])
  }

  /** The listeners a trace calls or starts, in order. */
  function Started<L, P>(steps: seq<Step<L, P>>): (ls: seq<L>)
  {
    if steps == [] then []
    else (if steps[0].Wait? then [] else [steps[0].listener]) + Started(steps[1..])
  }

  lemma {:induction false} StartedAppend<L, P>(a: seq<Step<L, P>>, b: seq<Step<L, P>>)
    ensures Started(a + b) == Started(a) + Started(b)
  {
    if a == [] {
      assert a + b == b;
    } else {
      StartedAppend(a[1..], b);
      assert (a + b)[1..] == a[1..] + b;
    }
  }

  lemma {:induction false} StartedCalls<L, P>(ls: seq<L>, isAsync: bool, e: Event<P>)
    ensures Started(Calls(ls, isAsync, e)) == ls
  {
    if ls != [] {
      StartedCalls(ls[1..], isAsync, e);
      assert Calls(ls, isAsync, e)[1..] == Calls(ls[1..], isAsync, e);
    }
  }

  /** A dispatch starts exactly the listeners of the list, each once, in
      registration order, whatever the mode. */
  lemma DispatchStartsEachListenerOnce<L, P>(ls: seq<L>, isAsync: bool, shouldWait: bool, e: Event<P>)
    ensures Started(Planned(ls, isAsync, shouldWait, e)) == ls
  {
    if ls != [] {
      StartedCalls(ls, isAsync, e);
      StartedAppend(Calls(ls, isAsync, e), if shouldWait then [Wait] else []);
    }
  }

  /** In the default, synchronous mode every listener is called inline: the
      first |ls| steps call the listeners in order, and no goroutine is started.
      In async mode every listener is started in a goroutine instead. Every
      listener is passed the dispatched event. A wait step comes last, in
      either mode, and only when the list is non-empty and the
      configuration waits. */
  lemma PlannedShape<L, P>(ls: seq<L>, isAsync: bool, shouldWait: bool, e: Event<P>)
    ensures var p := Planned(ls, isAsync, shouldWait, e);
      && |p| == (if ls == [] then 0 else |ls| + (if shouldWait then 1 else 0))
      && (forall i | 0 <= i < |ls| :: p[i] == if isAsync then Launch(ls[i], e) else Invoke(ls[i], e))
      && (forall i | |ls| <= i < |p| :: p[i] == Wait)
  {
  }

  /** A dispatch under an identifier with no listeners does nothing at all. */
  lemma DispatchUnregisteredIsNoOp<L, P>(t: Table<L>, e: Event<P>, isAsync: bool, shouldWait: bool)
    requires e.id !in t || t[e.id] == []
    ensures Planned(ListOf(t, e.id), isAsync, shouldWait, e) == []
  {
  }

  /** On a dispatcher that starts empty and receives a series of
      registrations, a synchronous dispatch of `id` calls inline exactly the
      listeners registered under `id`, each once, in registration order, and
      none registered under another identifier. */
  lemma SyncDispatchAfterRegistrations<L, P>(regs: seq<(EventId, L)>, e: Event<P>, shouldWait: bool)
    ensures var p := Planned(ListOf(RegisterAll(map[], regs), e.id), false, shouldWait, e);
      && Started(p) == RegisteredUnder(regs, e.id)
      && (forall i | 0 <= i < |p| :: !p[i].Launch?)
  {
    RegisterAllListOf(map[], regs, e.id);
    DispatchStartsEachListenerOnce(ListOf(RegisterAll(map[], regs), e.id), false, shouldWait, e);
  }

  /** `Dispatcher`: the listener table, the configuration it was built with,
      and its wait group. */
  class Dispatcher<L> {
    var listeners: Table<L>
    const config: Config
    const waitGroup: WaitGroup

    /** The struct literal of `NewDispatcher`: an empty table. */
    constructor (config: Config, waitGroup: WaitGroup)
      ensures this.config == config && this.waitGroup == waitGroup
      ensures listeners == map[]
    {
      this.config := config;
      this.waitGroup := waitGroup;
      listeners := map[];
    }

    /** Appends `listener` to the list of `id`, creating it on first use.
        Never fails; other identifiers keep their lists. */
    method Register(id: EventId, listener: L) returns (self: Dispatcher<L>)
      modifies this
      ensures self == this
      ensures listeners == Appended(old(listeners), id, listener)
    {
      if id in listeners {
        listeners := listeners[id := listeners[id] + [listener]];
        return this;
      }
      listeners := listeners[id := [listener]];
      self := this;
    }

    /** Calls each listener registered under the event's identifier, in
        registration order, inline or in goroutines as configured, then waits
        on the wait group when configured to. An identifier with no listeners
        is a silent no-op. The table is not changed. Each listener is passed
        `event`. */
    method Dispatch<P>(event: Event<P>) returns (self: Dispatcher<L>, steps: seq<Step<L, P>>)
      ensures self == this
      ensures steps == Planned(ListOf(listeners, event.id), config.isAsync, config.shouldWait, event)
    {
      self := this;
      if event.id !in listeners || |listeners[event.id]| == 0 {
        return this, [];
      }
      var ls := listeners[event.id];
      steps := [];
      for i := 0 to |ls|
        invariant steps == Calls(ls[..i], config.isAsync, event)
      {
        if config.isAsync {
          steps := steps + [Launch(ls[i], event)];
          continue;
        }
        steps := steps + [Invoke(ls[i], event)];
      }
      assert ls[..|ls|] == ls;
      if config.shouldWait {
        steps := steps + [Wait];
      }
    }
  }

  /** The package-level `facade` variable and the functions that use it. */
  class Registry<L> {
    var facade: Option<Dispatcher<L>>

    /** The package starts with no facade. */
    constructor ()
      ensures facade == None
    {
      facade := None;
    }

    /** The objects a facade call may change: the facade dispatcher, if any. */
    function FacadeFrame(): set<object>
      reads this
    {
      if facade.Some? then {facade.value} else {}
    }

    /** `NewDispatcher`: runs the configurers in order on one default
        configuration, takes its wait group or allocates one, builds a
        dispatcher with an empty table and publishes it as the facade when
        the configuration says so; otherwise the facade is left as it was.
        Nothing is validated: the wait policy holds when the configurers only
        call setters, but a whole-struct assignment can leave a dispatcher
        that neither waits nor was given a wait group. */
    method NewDispatcher(configurers: seq<Configurer>) returns (d: Dispatcher<L>)
      modifies this
      ensures fresh(d) && fresh(d.config)
      ensures d.config.View() == ConfigureAll(DefaultSettings, configurers)
      ensures SetterCallsOnly(configurers) ==> d.config.Valid()
      ensures d.listeners == map[]
      ensures d.config.waitGroup.Some? ==> d.waitGroup == d.config.waitGroup.value
      ensures d.config.waitGroup.None? ==> fresh(d.waitGroup)
      ensures facade == if d.config.isFacade then Some(d) else old(facade)
    {
      var config := new Config();
      for i := 0 to |configurers|
        invariant fresh(config)
        invariant facade == old(facade)
        invariant config.View() == ConfigureAll(DefaultSettings, configurers[..i])
      {
        config.Apply(configurers[i]);
        assert configurers[..i + 1][..i] == configurers[..i];
      }
      assert configurers[..|configurers|] == configurers;
      if SetterCallsOnly(configurers) {
        ConfigureAllKeepsWaitPolicy(DefaultSettings, configurers);
      }
      var waitGroup: WaitGroup;
      if config.waitGroup.Some? {
        waitGroup := config.waitGroup.value;
      } else {
        waitGroup := new WaitGroup();
      }
      d := new Dispatcher(config, waitGroup);
      if config.isFacade {
        facade := Some(d);
      }
    }

    /** Package-level `Register`: "No facade registered" when there is no
        facade, otherwise the same call on the facade dispatcher. */
    method Register(id: EventId, listener: L) returns (r: Result<Dispatcher<L>, string>)
      modifies FacadeFrame()
      ensures facade == old(facade)
      ensures old(facade).None? ==> r == Failure(NoFacadeMessage)
      ensures old(facade).Some? ==> r == Success(facade.value)
      ensures old(facade).Some? ==> facade.value.listeners == Appended(old(facade.value.listeners), id, listener)
    {
      if facade.None? {
        return Failure(NoFacadeMessage);
      }
      var d := facade.value.Register(id, listener);
      r := Success(d);
    }

    /** Package-level `Dispatch`: "No facade registered" when there is no
        facade, otherwise the same call on the facade dispatcher. */
    method Dispatch<P>(event: Event<P>) returns (r: Result<Dispatcher<L>, string>, steps: seq<Step<L, P>>)
      ensures facade.None? ==> r == Failure(NoFacadeMessage) && steps == []
      ensures facade.Some? ==> r == Success(facade.value)
      ensures facade.Some? ==> steps == Planned(ListOf(facade.value.listeners, event.id),
                                                facade.value.config.isAsync, facade.value.config.shouldWait, event)
    {
      if facade.None? {
        return Failure(NoFacadeMessage), [];
      }
      var d;
      d, steps := facade.value.Dispatch(event);
      r := Success(d);
    }
  }
}
