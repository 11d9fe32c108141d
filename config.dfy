/** events/config.go: the dispatcher configuration, its three setters and
    the one validation rule they enforce. */
module Configs {
  import opened Wrappers
  import opened Sync

  /** The message `ShouldWait` builds its error with. */
  const WaitGroupRequiredMessage: string :=
    "When waiting for goroutines is managed outside the package, a `sync.waitGroup` instance should be provided"

  /** The error type returned by a rejected `ShouldWait`. */
  datatype AsyncConfigError = AsyncConfigError(message: string) {

    /** The `error` interface: the message the error was built with. */
    function Error(): (text: string)
    {
      message
    }
  }

  /** `newAsyncConfigError`: an error whose `Error()` is the given text. */
  function NewAsyncConfigError(text: string): (err: AsyncConfigError)
    ensures err.Error() == text
  {
    AsyncConfigError(text)
  }

  /** The four fields of a `Config`, as a value. */
  datatype Settings = Settings(isAsync: bool, isFacade: bool, shouldWait: bool, waitGroup: Option<WaitGroup>) {

    /** A dispatcher that does not wait must have been given a wait group to
        be awaited elsewhere. */
    predicate WaitPolicyHolds()
    {
      shouldWait || waitGroup.Some?
    }
  }

  /** What `newDefaultConfig` builds. */
  const DefaultSettings: Settings := Settings(false, false, true, None)

  /** The zero value `Config{}`, which any package may write: neither
      waiting nor holding a wait group. */
  const ZeroSettings: Settings := Settings(false, false, false, None)

  /** The combination `ShouldWait` refuses: not waiting, and no wait group. */
  predicate WaitRejected(shouldWait: bool, waitGroup: Option<WaitGroup>)
  {
    !shouldWait && waitGroup.None?
  }

  /** One step a configurer passed to `NewDispatcher` takes on the shared
      configuration: a call of one of the three setters, or an assignment of
      a whole struct value through the pointer (`*c = events.Config{}` is
      legal from any package). A closure that takes several steps is the
      same as several consecutive configurers (see ConfigureAllAppend). The
      error a closure's `ShouldWait` call returns is dropped, as a
      `func(*Config)` has nowhere to return it. */
  datatype Configurer =
    | ShouldAsyncCall(shouldAsync: bool)
    | AsFacadeCall(facade: bool)
    | ShouldWaitCall(wait: bool, group: Option<WaitGroup>)
    | AssignCall(settings: Settings)

  /** The configurers that only call setters. */
  predicate SetterCallsOnly(cs: seq<Configurer>)
  {
    forall i | 0 <= i < |cs| :: !cs[i].AssignCall?
  }

  /** The settings after one configurer has run. */
  function Configure(s: Settings, c: Configurer): (r: Settings)
  {
    match c
    case ShouldAsyncCall(b) => s.(isAsync := b)
    case AsFacadeCall(b) => s.(isFacade := b)
    case ShouldWaitCall(w, g) => if WaitRejected(w, g) then s else s.(shouldWait := w, waitGroup := g)
    case AssignCall(v) => v
  }

  /** The settings after the configurers have run one after the other, each on
      the result of the ones before it. */
  function ConfigureAll(s: Settings, cs: seq<Configurer>): (r: Settings)
  {
    if cs == [] then s else Configure(ConfigureAll(s, cs[..|cs| - 1]), cs[|cs| - 1])
  }

  /** The default configuration satisfies the wait policy. */
  lemma DefaultHoldsWaitPolicy()
    ensures DefaultSettings.WaitPolicyHolds()
    ensures !DefaultSettings.isAsync && !DefaultSettings.isFacade
    ensures DefaultSettings.shouldWait && DefaultSettings.waitGroup.None?
  {
  }

  /** Every setter keeps the wait policy; a successful `ShouldWait` even
      establishes it, whatever held before. Assigning a whole struct gives
      exactly the assigned value, which may break the policy. */
  lemma ConfigureKeepsWaitPolicy(s: Settings, c: Configurer)
    requires !c.AssignCall?
    requires s.WaitPolicyHolds() || (c.ShouldWaitCall? && !WaitRejected(c.wait, c.group))
    ensures Configure(s, c).WaitPolicyHolds()
  {
  }

  /** Running any sequence of setter calls keeps the wait policy. */
  lemma {:induction false} ConfigureAllKeepsWaitPolicy(s: Settings, cs: seq<Configurer>)
    requires s.WaitPolicyHolds()
    requires SetterCallsOnly(cs)
    ensures ConfigureAll(s, cs).WaitPolicyHolds()
  {
    if cs != [] {
      ConfigureAllKeepsWaitPolicy(s, cs[..|cs| - 1]);
      ConfigureKeepsWaitPolicy(ConfigureAll(s, cs[..|cs| - 1]), cs[|cs| - 1]);
    }
  }

  /** Configurers act in the order given: the later ones see what the earlier
      ones did. */
  lemma {:induction false} ConfigureAllAppend(s: Settings, a: seq<Configurer>, b: seq<Configurer>)
    ensures ConfigureAll(s, a + b) == ConfigureAll(ConfigureAll(s, a), b)
  {
    if b == [] {
      assert a + b == a;
    } else {
      ConfigureAllAppend(s, a, b[..|b| - 1]);
      assert (a + b)[..|a + b| - 1] == a + b[..|b| - 1];
      assert (a + b)[|a + b| - 1] == b[|b| - 1];
    }
  }

  /** A validation of the finished configuration, as a dispatcher
      constructor would re-check it. */
  function Validate(s: Settings): (r: Result<Settings, AsyncConfigError>)
    ensures r.Success? <==> s.WaitPolicyHolds()
    ensures r.Success? ==> r.value == s
    ensures r.Failure? ==> r.error.Error() == WaitGroupRequiredMessage
  {
    if WaitRejected(s.shouldWait, s.waitGroup) then Failure(NewAsyncConfigError(WaitGroupRequiredMessage)) else Success(s)
  }

  /** Since the setters never let the invalid combination in, such a re-check
      could never fail on a configuration built from the default by
      configurers that only call setters. */
  lemma ValidateNeverFailsAfterConfigurers(cs: seq<Configurer>)
    requires SetterCallsOnly(cs)
    ensures Validate(ConfigureAll(DefaultSettings, cs)) == Success(ConfigureAll(DefaultSettings, cs))
  {
    ConfigureAllKeepsWaitPolicy(DefaultSettings, cs);
  }

  /** A lone `ShouldWait(false, nil)` configurer is rejected and leaves the
      default configuration as it was. */
  lemma RejectedWaitKeepsDefault()
    ensures ConfigureAll(DefaultSettings, [ShouldWaitCall(false, None)]) == DefaultSettings
  {
    assert [ShouldWaitCall(false, None)][..0] == [];
  }

  /** A configurer that assigns the zero struct and then turns on async mode
      leaves a configuration that neither waits nor has a wait group: the
      re-check fails on it, while `NewDispatcher` as written accepts it. */
  lemma {:induction false} AssignedZeroBreaksWaitPolicy()
    ensures ConfigureAll(DefaultSettings, [AssignCall(ZeroSettings), ShouldAsyncCall(true)])
            == ZeroSettings.(isAsync := true)
    ensures Validate(ConfigureAll(DefaultSettings, [AssignCall(ZeroSettings), ShouldAsyncCall(true)])).Failure?
  {
    var cs := [AssignCall(ZeroSettings), ShouldAsyncCall(true)];
    assert cs[..1] == [AssignCall(ZeroSettings)] && cs[..1][..0] == [];
  }

  /** `Config`: the mutable settings a dispatcher is built from. */
  class Config {
    var isAsync: bool
    var isFacade: bool
    var shouldWait: bool
    var waitGroup: Option<WaitGroup>

    /** The current fields as a value. */
    function View(): (s: Settings)
      reads this
    {
      Settings(isAsync, isFacade, shouldWait, waitGroup)
    }

    /** The wait policy, on the current fields. */
    ghost predicate Valid()
      reads this
    {
      View().WaitPolicyHolds()
    }

    /** `newDefaultConfig`. */
    constructor ()
      ensures View() == DefaultSettings
      ensures Valid()
    {
      isAsync, isFacade, shouldWait, waitGroup := false, false, true, None;
    }

    /** Sets whether listeners run in goroutines; changes nothing else. */
    method ShouldAsync(shouldAsync: bool) returns (self: Config)
      modifies this
      ensures self == this
      ensures View() == old(View()).(isAsync := shouldAsync)
      ensures old(Valid()) ==> Valid()
    {
      isAsync := shouldAsync;
      self := this;
    }

    /** Sets whether the dispatcher becomes the facade; changes nothing else. */
    method AsFacade(facade: bool) returns (self: Config)
      modifies this
      ensures self == this
      ensures View() == old(View()).(isFacade := facade)
      ensures old(Valid()) ==> Valid()
    {
      isFacade := facade;
      self := this;
    }

    /** Sets the wait mode and the wait group together. Not waiting without a
        wait group is refused with an `AsyncConfigError` before any field is
        written; otherwise both fields take the new values, so a later call
        replaces (or, with no group, clears) an earlier handle. */
    method ShouldWait(wait: bool, group: Option<WaitGroup>) returns (err: Option<AsyncConfigError>)
      modifies this
      ensures err.Some? <==> WaitRejected(wait, group)
      ensures err.Some? ==> err.value.Error() == WaitGroupRequiredMessage && View() == old(View())
      ensures err.None? ==> View() == old(View()).(shouldWait := wait, waitGroup := group)
      ensures err.None? ==> Valid()
      ensures old(Valid()) ==> Valid()
    {
      if WaitRejected(wait, group) {
        return Some(NewAsyncConfigError(WaitGroupRequiredMessage));
      }
      shouldWait := wait;
      waitGroup := group;
      err := None;
    }

    /** Runs one configurer step on this configuration: a setter call, or
        the assignment of a whole struct value. */
    method Apply(c: Configurer)
      modifies this
      ensures View() == Configure(old(View()), c)
    {
      match c
      case ShouldAsyncCall(b) =>
        var _ := ShouldAsync(b);
      case AsFacadeCall(b) =>
        var _ := AsFacade(b);
      case ShouldWaitCall(w, g) =>
        var _ := ShouldWait(w, g);
      case AssignCall(v) =>
        isAsync, isFacade, shouldWait, waitGroup := v.isAsync, v.isFacade, v.shouldWait, v.waitGroup;
    }
  }
}
