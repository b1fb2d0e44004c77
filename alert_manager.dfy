/** The alert manager: a registry of providers keyed by name, the fan-out of
    a batch of alerts to the targeted providers, and the process-wide
    singleton that holds one manager.

    Each provider's `sendBatch` is an oracle: `outcome(i)` is what the i-th
    dispatched provider returned.  Dispatch is sequential (the source awaits
    all calls concurrently), so the result lists are specified up to order.
    Calls to a provider's `close` are recorded in a ghost log. */
module Manager {
  import opened Wrappers
  import opened Text
  import opened JsMap
  import opened AlertTypes
  import Discord
  import Email

  /** A registered provider.  Every provider has a fixed name; the two
      built-in ones are always called "discord" and "email". */
  datatype Provider =
    | DiscordChannel(discord: Discord.Provider)
    | EmailChannel(email: Email.Provider)
    | CustomChannel(customName: string)
  {
    function Name(): string {
      match this
      case DiscordChannel(_) => Discord.ProviderName
      case EmailChannel(_) => Email.ProviderName
      case CustomChannel(n) => n
    }
  }

  /** The optional `thresholds` block of the configuration. */
  datatype ThresholdOptions = ThresholdOptions(failuresInWindow: Option<int>, timeWindowMinutes: Option<int>)

  /** The resolved thresholds a manager runs with. */
  datatype Thresholds = Thresholds(failuresInWindow: int, timeWindowMinutes: int)

  datatype ManagerConfig = ManagerConfig(providers: seq<Provider>, thresholds: Option<ThresholdOptions>, debounceWindowMs: Option<int>)

  /** One failed delivery: the provider's name and the error it reported. */
  datatype ProviderFailure = ProviderFailure(provider: string, error: AlertError)

  /** The deliveries that succeeded and those that failed. */
  datatype MultiProviderResult = MultiProviderResult(successful: seq<AlertSendResult>, failed: seq<ProviderFailure>)

  const NoProviderMessage: string := "AlertManager requires at least one provider"
  const NotInitializedMessage: string := "AlertManager not initialized. Call AlertManager.initialize(config) first."

  /** Each threshold is the configured one when given (`??` keeps 0), else
      its default. */
  function ResolveThresholds(t: Option<ThresholdOptions>): (r: Thresholds)
    ensures t == None ==> r == Thresholds(DefaultFailuresInWindow, DefaultTimeWindowMinutes)
    ensures t.Some? ==> r.failuresInWindow == t.value.failuresInWindow.GetOr(DefaultFailuresInWindow)
    ensures t.Some? ==> r.timeWindowMinutes == t.value.timeWindowMinutes.GetOr(DefaultTimeWindowMinutes)
  {
    match t
    case None => Thresholds(DefaultFailuresInWindow, DefaultTimeWindowMinutes)
    case Some(o) => Thresholds(o.failuresInWindow.GetOr(DefaultFailuresInWindow), o.timeWindowMinutes.GetOr(DefaultTimeWindowMinutes))
  }

  /** Unset settings fall back to 5 failures in 10 minutes and a five-minute
      debounce; a configured 0 is kept, not replaced. */
  lemma DefaultSettings()
    ensures ResolveThresholds(None) == Thresholds(5, 10)
    ensures ResolveThresholds(Some(ThresholdOptions(Some(0), None))) == Thresholds(0, 10)
    ensures Some(0).GetOr(DefaultDebounceWindowMs) == 0 && None.GetOr(DefaultDebounceWindowMs) == 300000
  {
  }

  /** The `(name, provider)` pairs the constructor inserts, in order. */
  function NamedPairs(ps: seq<Provider>): (pairs: seq<(string, Provider)>)
    ensures |pairs| == |ps|
    ensures forall i :: 0 <= i < |ps| ==> pairs[i] == (ps[i].Name(), ps[i])
  {
    seq(|ps|, i requires 0 <= i < |ps| => (ps[i].Name(), ps[i]))
  }

  /** A registry well-formed for the manager: a valid ordered map in which
      every provider is stored under its own name. */
  ghost predicate Registry(reg: OrderedMap<Provider>) {
    reg.Valid() && forall k :: k in reg.entries ==> reg.entries[k].Name() == k
  }

  /** The registry built from a provider list holds exactly the names that
      occur in it, each mapped to the LAST provider of that name. */
  lemma RegistryFromProviders(ps: seq<Provider>, n: string)
    ensures n in FromPairs(NamedPairs(ps)).entries <==> exists i :: 0 <= i < |ps| && ps[i].Name() == n
    ensures forall i :: 0 <= i < |ps| && ps[i].Name() == n && (forall j :: i < j < |ps| ==> ps[j].Name() != n) ==>
              FromPairs(NamedPairs(ps)).entries[n] == ps[i]
  {
    var pairs := NamedPairs(ps);
    FromPairsLastWins(pairs, n);
    forall i | 0 <= i < |ps| && ps[i].Name() == n && (forall j :: i < j < |ps| ==> ps[j].Name() != n)
      ensures LastWithKey(pairs, n, i)
    {
    }
  }

  /** `providers.get(name)` for each requested name, in the order asked:
      unknown names are dropped and a repeated name is kept each time. */
  function Lookup(reg: OrderedMap<Provider>, names: seq<string>): (ps: seq<Provider>)
    ensures |ps| <= |names|
  {
    if names == [] then []
    else (if names[0] in reg.entries then [reg.entries[names[0]]] else []) + Lookup(reg, names[1..])
  }

  /** `getTargetProviders`: every registered provider, in registration order,
      when no names (or an empty list) are given; otherwise the lookup. */
  function Targets(reg: OrderedMap<Provider>, names: Option<seq<string>>): (ps: seq<Provider>)
    requires reg.Valid()
    ensures names == None || names.value == [] ==> |ps| == |reg.keys|
    ensures names == None || names.value == [] ==> forall i :: 0 <= i < |ps| ==> ps[i] == reg.entries[reg.keys[i]]
    ensures names.Some? && names.value != [] ==> ps == Lookup(reg, names.value)
  {
    if names.None? || names.value == [] then reg.Values() else Lookup(reg, names.value)
  }

  /** Looking up a concatenation of requests concatenates the lookups. */
  lemma {:induction false} LookupAppend(reg: OrderedMap<Provider>, a: seq<string>, b: seq<string>)
    ensures Lookup(reg, a + b) == Lookup(reg, a) + Lookup(reg, b)
  {
    if a != [] {
      assert (a + b)[0] == a[0] && (a + b)[1..] == a[1..] + b;
      LookupAppend(reg, a[1..], b);
      var head := if a[0] in reg.entries then [reg.entries[a[0]]] else [];
      assert Lookup(reg, a) == head + Lookup(reg, a[1..]);
      assert Lookup(reg, a + b) == head + Lookup(reg, a[1..] + b);
      assert head + (Lookup(reg, a[1..]) + Lookup(reg, b)) == (head + Lookup(reg, a[1..])) + Lookup(reg, b);
    } else {
      assert a + b == b;
    }
  }

  /** A provider is targeted exactly when one of the requested names is
      registered to it. */
  lemma {:induction false} LookupMembers(reg: OrderedMap<Provider>, names: seq<string>, p: Provider)
    ensures p in Lookup(reg, names) <==> exists n :: n in names && n in reg.entries && reg.entries[n] == p
  {
    if names != [] {
      LookupMembers(reg, names[1..], p);
      assert forall n :: n in names <==> n == names[0] || n in names[1..];
    }
  }

  /** A registered name requested twice dispatches to its provider twice. */
  lemma RepeatedNameDispatchedTwice(reg: OrderedMap<Provider>, n: string)
    requires n in reg.entries
    ensures Lookup(reg, [n, n]) == [reg.entries[n], reg.entries[n]]
  {
  }

  /** The outcomes of the first `n` dispatches. */
  function Outcomes(outcome: nat -> Result<AlertSendResult, AlertError>, n: nat): (outs: seq<Result<AlertSendResult, AlertError>>)
    ensures |outs| == n && forall i :: 0 <= i < n ==> outs[i] == outcome(i)
  {
    seq(n, i requires 0 <= i < n => outcome(i))
  }

  /** The receipts of the successful outcomes, in dispatch order. */
  function Successes(outs: seq<Result<AlertSendResult, AlertError>>): (s: seq<AlertSendResult>)
    ensures |s| <= |outs|
  {
    if outs == [] then []
    else
      var init := Successes(outs[..|outs| - 1]);
      match outs[|outs| - 1]
      case Success(v) => init + [v]
      case Failure(_) => init
  }

  /** The failed outcomes, each with the name of the provider that failed. */
  function Failures(targets: seq<Provider>, outs: seq<Result<AlertSendResult, AlertError>>): (f: seq<ProviderFailure>)
    requires |targets| == |outs|
    ensures |f| <= |outs|
  {
    if outs == [] then []
    else
      var init := Failures(targets[..|targets| - 1], outs[..|outs| - 1]);
      match outs[|outs| - 1]
      case Success(_) => init
      case Failure(e) => init + [ProviderFailure(targets[|targets| - 1].Name(), e)]
  }

  /** The aggregate error's context: provider name and error message. */
  function Summaries(fs: seq<ProviderFailure>): (ss: seq<FailureSummary>)
    ensures |ss| == |fs|
    ensures forall i :: 0 <= i < |fs| ==> ss[i] == FailureSummary(fs[i].provider, fs[i].error.message)
  {
    seq(|fs|, i requires 0 <= i < |fs| => FailureSummary(fs[i].provider, fs[i].error.message))
  }

  /** Every outcome lands in exactly one of the two lists. */
  lemma {:induction false} PartitionCount(targets: seq<Provider>, outs: seq<Result<AlertSendResult, AlertError>>)
    requires |targets| == |outs|
    ensures |Successes(outs)| + |Failures(targets, outs)| == |outs|
  {
    if outs != [] {
      PartitionCount(targets[..|targets| - 1], outs[..|outs| - 1]);
    }
  }

  /** No receipt at all exactly when every outcome is a failure. */
  lemma {:induction false} NoSuccessIffAllFailed(outs: seq<Result<AlertSendResult, AlertError>>)
    ensures Successes(outs) == [] <==> forall i :: 0 <= i < |outs| ==> outs[i].Failure?
  {
    if outs != [] {
      var init := outs[..|outs| - 1];
      NoSuccessIffAllFailed(init);
      assert forall i :: 0 <= i < |init| ==> init[i] == outs[i];
    }
  }

  /** Every failure entry names a dispatched provider and carries the error
      that provider returned. */
  lemma {:induction false} FailuresCarryNames(targets: seq<Provider>, outs: seq<Result<AlertSendResult, AlertError>>)
    requires |targets| == |outs|
    ensures forall j :: 0 <= j < |Failures(targets, outs)| ==>
              exists i :: 0 <= i < |outs| && outs[i] == Failure(Failures(targets, outs)[j].error)
                                          && targets[i].Name() == Failures(targets, outs)[j].provider
  {
    if outs != [] {
      var ti, oi := targets[..|targets| - 1], outs[..|outs| - 1];
      FailuresCarryNames(ti, oi);
      var f := Failures(targets, outs);
      var finit := Failures(ti, oi);
      assert |f| == |finit| ==> f == finit;
      assert |f| != |finit| ==> f == finit + [f[|f| - 1]];
      forall j | 0 <= j < |f|
        ensures exists i :: 0 <= i < |outs| && outs[i] == Failure(f[j].error) && targets[i].Name() == f[j].provider
      {
        if j < |finit| {
          assert f[j] == finit[j];
          var i :| 0 <= i < |oi| && oi[i] == Failure(finit[j].error) && ti[i].Name() == finit[j].provider;
          assert outs[i] == oi[i] && targets[i] == ti[i];
        } else {
          assert outs[|outs| - 1] == Failure(f[j].error);
        }
      }
    } else {
      assert Failures(targets, outs) == [];
    }
  }

  /** Calls every target once, in order, sorting the outcomes into receipts
      and named failures. */
  method Dispatch(targets: seq<Provider>, outcome: nat -> Result<AlertSendResult, AlertError>)
    returns (successful: seq<AlertSendResult>, failed: seq<ProviderFailure>, dispatched: seq<Provider>)
    ensures dispatched == targets
    ensures successful == Successes(Outcomes(outcome, |targets|))
    ensures failed == Failures(targets, Outcomes(outcome, |targets|))
  {
    successful, failed, dispatched := [], [], [];
    for i := 0 to |targets|
      invariant dispatched == targets[..i]
      invariant successful == Successes(Outcomes(outcome, i))
      invariant failed == Failures(targets[..i], Outcomes(outcome, i))
    {
      var provider := targets[i];
      OutcomesSnoc(outcome, i);
      SuccessesSnoc(Outcomes(outcome, i), outcome(i));
      assert targets[..i + 1] == targets[..i] + [provider];
      FailuresSnoc(targets[..i], Outcomes(outcome, i), provider, outcome(i));
      dispatched := dispatched + [provider];
      match outcome(i) {
        case Success(v) => successful := successful + [v];
        case Failure(e) => failed := failed + [ProviderFailure(provider.Name(), e)];
      }
    }
    assert targets[..|targets|] == targets;
  }

  lemma OutcomesSnoc(outcome: nat -> Result<AlertSendResult, AlertError>, n: nat)
    ensures Outcomes(outcome, n + 1) == Outcomes(outcome, n) + [outcome(n)]
  {
    assert forall i :: 0 <= i < n + 1 ==> Outcomes(outcome, n + 1)[i] == (Outcomes(outcome, n) + [outcome(n)])[i];
  }

  lemma SuccessesSnoc(outs: seq<Result<AlertSendResult, AlertError>>, o: Result<AlertSendResult, AlertError>)
    ensures Successes(outs + [o]) == Successes(outs) + (if o.Success? then [o.value] else [])
  {
    assert (outs + [o])[..|outs|] == outs;
  }

  lemma FailuresSnoc(targets: seq<Provider>, outs: seq<Result<AlertSendResult, AlertError>>,
                     t: Provider, o: Result<AlertSendResult, AlertError>)
    requires |targets| == |outs|
    ensures Failures(targets + [t], outs + [o])
            == Failures(targets, outs) + (if o.Failure? then [ProviderFailure(t.Name(), o.error)] else [])
  {
    assert (outs + [o])[..|outs|] == outs;
    assert (targets + [t])[..|targets|] == targets;
  }

  /** The "Requested: …" text: the requested names joined by ", ", or "all"
      when no list was given. */
  function RequestedText(names: Option<seq<string>>): (t: string)
    ensures names == None ==> t == "all"
    ensures names.Some? ==> t == Join(names.value, ", ")
  {
    match names
    case None => "all"
    case Some(ns) => Join(ns, ", ")
  }

  /** The whole observable behaviour of `sendAlerts` on a registry: an empty
      batch and an empty target list are refused before any provider is
      called; otherwise each target is called once, in order, every outcome
      is kept in one of the two lists, and the call fails exactly when no
      target succeeded, with an error listing every failure. */
  ghost predicate DispatchContract(reg: OrderedMap<Provider>, alerts: seq<Alert>, names: Option<seq<string>>,
                                   outcome: nat -> Result<AlertSendResult, AlertError>,
                                   r: Result<MultiProviderResult, AlertError>, dispatched: seq<Provider>)
    requires reg.Valid()
  {
    if alerts == [] then
      dispatched == [] && r == Failure(AlertError("No alerts to send", "UNKNOWN", "all", NoContext))
    else
      var targets := Targets(reg, names);
      if targets == [] then
        && dispatched == []
        && r == Failure(AlertError("No valid providers found", alerts[0].alertType.Name(), "none",
                                   TextContext("Requested: " + RequestedText(names))))
      else
        var outs := Outcomes(outcome, |targets|);
        && dispatched == targets
        && (r.Failure? <==> forall i :: 0 <= i < |targets| ==> outcome(i).Failure?)
        && (r.Failure? ==>
              && r.error.message == "Failed to send alert to any provider"
              && r.error.alertType == alerts[0].alertType.Name()
              && r.error.recipient == "all"
              && r.error.context.ProviderFailures?
              && multiset(r.error.context.failures) == multiset(Summaries(Failures(targets, outs))))
        && (r.Success? ==>
              && multiset(r.value.successful) == multiset(Successes(outs))
              && multiset(r.value.failed) == multiset(Failures(targets, outs)))
  }

  /** When some target succeeded, the two lists together account for every
      dispatched provider. */
  lemma DispatchAccountsForEveryTarget(reg: OrderedMap<Provider>, alerts: seq<Alert>, names: Option<seq<string>>,
                                       outcome: nat -> Result<AlertSendResult, AlertError>,
                                       r: Result<MultiProviderResult, AlertError>, dispatched: seq<Provider>)
    requires reg.Valid()
    requires DispatchContract(reg, alerts, names, outcome, r, dispatched)
    requires r.Success?
    ensures |r.value.successful| + |r.value.failed| == |dispatched|
    ensures r.value.successful != []
  {
    var targets := Targets(reg, names);
    var outs := Outcomes(outcome, |targets|);
    PartitionCount(targets, outs);
    NoSuccessIffAllFailed(outs);
    assert |multiset(r.value.successful)| == |multiset(Successes(outs))|;
    assert |multiset(r.value.failed)| == |multiset(Failures(targets, outs))|;
  }

  class AlertManager {
    /** The name-to-provider map, in registration order. */
    var registry: OrderedMap<Provider>
    const thresholds: Thresholds
    const debounceWindowMs: int
    /** The providers whose `close` has been called, in call order. */
    ghost var closeLog: seq<Provider>

    ghost predicate Valid()
      reads this
    {
      Registry(registry)
    }

    /** Registers the providers in order (a later provider replaces an
        earlier one of the same name) and resolves the settings. */
    constructor(config: ManagerConfig)
      ensures Valid()
      ensures registry == FromPairs(NamedPairs(config.providers))
      ensures thresholds == ResolveThresholds(config.thresholds)
      ensures debounceWindowMs == config.debounceWindowMs.GetOr(DefaultDebounceWindowMs)
      ensures closeLog == []
    {
      var pairs := NamedPairs(config.providers);
      var reg := Empty();
      for i := 0 to |pairs|
        invariant reg == FromPairs(pairs[..i])
        invariant Registry(reg)
      {
        assert pairs[..i + 1][..i] == pairs[..i];
        reg := reg.Set(pairs[i].0, pairs[i].1);
      }
      assert pairs[..|pairs|] == pairs;
      registry := reg;
      thresholds := ResolveThresholds(config.thresholds);
      debounceWindowMs := config.debounceWindowMs.GetOr(DefaultDebounceWindowMs);
      closeLog := [];
    }

    /** `providerNames`: every registered name once, in the registry's key
        order (the order in which names were first added). */
    function ProviderNames(): (ns: seq<string>)
      requires Valid()
      reads this
      ensures ns == registry.keys
      ensures Distinct(ns)
      ensures forall n :: n in ns <==> GetProvider(n).Some?
    {
      registry.keys
    }

    /** `getProvider(name)`. */
    function GetProvider(name: string): (p: Option<Provider>)
      reads this
      ensures p.Some? <==> name in registry.entries
      ensures p.Some? ==> p.value == registry.entries[name]
    {
      registry.Get(name)
    }

    /** Registers `provider` under its name, replacing a provider already
        registered under it (without closing that one). */
    method AddProvider(provider: Provider)
      requires Valid()
      modifies this
      ensures Valid()
      ensures registry == old(registry).Set(provider.Name(), provider)
      ensures closeLog == old(closeLog)
    {
      registry := registry.Set(provider.Name(), provider);
    }

    /** Closes and unregisters the provider called `name`, if there is one. */
    method RemoveProvider(name: string) returns (removed: bool)
      requires Valid()
      modifies this
      ensures Valid()
      ensures removed <==> name in old(registry.entries)
      ensures removed ==> registry == old(registry).Delete(name) && closeLog == old(closeLog) + [old(registry.entries[name])]
      ensures !removed ==> registry == old(registry) && closeLog == old(closeLog)
    {
      var provider := registry.Get(name);
      match provider {
        case Some(p) =>
          closeLog := closeLog + [p];
          registry := registry.Delete(name);
          removed := true;
        case None =>
          removed := false;
      }
    }

    /** `sendAlerts`. */
    method SendAlerts(alerts: seq<Alert>, names: Option<seq<string>>, outcome: nat -> Result<AlertSendResult, AlertError>)
      returns (r: Result<MultiProviderResult, AlertError>, dispatched: seq<Provider>)
      requires Valid()
      ensures DispatchContract(registry, alerts, names, outcome, r, dispatched)
    {
      if |alerts| == 0 {
        r := Failure(AlertError("No alerts to send", "UNKNOWN", "all", NoContext));
        dispatched := [];
        return;
      }
      var first := alerts[0];
      var targets := Targets(registry, names);
      if |targets| == 0 {
        r := Failure(AlertError("No valid providers found", first.alertType.Name(), "none",
                                TextContext("Requested: " + RequestedText(names))));
        dispatched := [];
        return;
      }
      var successful, failed;
      successful, failed, dispatched := Dispatch(targets, outcome);
      ghost var outs := Outcomes(outcome, |targets|);
      NoSuccessIffAllFailed(outs);
      if |successful| == 0 {
        r := Failure(AlertError("Failed to send alert to any provider", first.alertType.Name(), "all",
                                ProviderFailures(Summaries(failed))));
      } else {
        r := Success(MultiProviderResult(successful, failed));
      }
    }

    /** `sendAlert`: the batch of that one alert. */
    method SendAlert(alert: Alert, names: Option<seq<string>>, outcome: nat -> Result<AlertSendResult, AlertError>)
      returns (r: Result<MultiProviderResult, AlertError>, dispatched: seq<Provider>)
      requires Valid()
      ensures DispatchContract(registry, [alert], names, outcome, r, dispatched)
    {
      r, dispatched := SendAlerts([alert], names, outcome);
    }

    /** `verifyProviders`: one entry per registered provider, in registration
        order, holding what that provider's `verify` answered. */
    method VerifyProviders(verify: Provider -> bool) returns (results: OrderedMap<bool>)
      requires Valid()
      ensures results.Valid()
      ensures results.keys == registry.keys
      ensures forall k :: k in registry.entries ==> k in results.entries && results.entries[k] == verify(registry.entries[k])
    {
      results := Empty();
      var names := registry.keys;
      for i := 0 to |names|
        invariant results.Valid()
        invariant results.keys == names[..i]
        invariant forall k :: k in results.entries ==> k in registry.entries && results.entries[k] == verify(registry.entries[k])
      {
        assert names[i] !in names[..i];
        assert names[..i + 1] == names[..i] + [names[i]];
        results := results.Set(names[i], verify(registry.entries[names[i]]));
      }
      assert names[..|names|] == names;
    }

    /** Closes every registered provider, in registration order, then empties
        the registry. */
    method Close()
      requires Valid()
      modifies this
      ensures Valid()
      ensures closeLog == old(closeLog) + old(registry.Values())
      ensures registry == Empty()
    {
      var providers := registry.Values();
      for i := 0 to |providers|
        invariant closeLog == old(closeLog) + providers[..i]
        invariant registry == old(registry)
      {
        assert providers[..i + 1] == providers[..i] + [providers[i]];
        closeLog := closeLog + [providers[i]];
      }
      assert providers[..|providers|] == providers;
      registry := Empty();
    }
  }

  /** Closing twice closes each provider once: the second call finds an
      empty registry. */
  method CloseTwice(m: AlertManager)
    requires m.Valid()
    modifies m
    ensures m.closeLog == old(m.closeLog) + old(m.registry.Values())
    ensures m.registry == Empty()
  {
    m.Close();
    m.Close();
  }

  /** The process-wide instance of `AlertManager`. */
  class AlertManagerSingleton {
    var instance: AlertManager?

    ghost predicate Valid()
      reads this, instance
    {
      instance != null ==> instance.Valid()
    }

    constructor()
      ensures Valid() && instance == null
    {
      instance := null;
    }

    /** `initialize`: an existing instance is returned unchanged whatever the
        configuration; otherwise an empty provider list is refused, and any
        other configuration becomes the new instance. */
    method Initialize(config: ManagerConfig) returns (r: Result<AlertManager, string>)
      requires Valid()
      modifies this
      ensures Valid()
      ensures old(instance) != null ==> instance == old(instance) && r == Success(old(instance))
      ensures old(instance) == null && config.providers == [] ==> instance == null && r == Failure(NoProviderMessage)
      ensures old(instance) == null && config.providers != [] ==>
                && r.Success? && instance == r.value && fresh(instance)
                && instance.registry == FromPairs(NamedPairs(config.providers))
                && instance.thresholds == ResolveThresholds(config.thresholds)
                && instance.debounceWindowMs == config.debounceWindowMs.GetOr(DefaultDebounceWindowMs)
                && instance.closeLog == []
    {
      if instance != null {
        r := Success(instance);
        return;
      }
      if |config.providers| == 0 {
        r := Failure(NoProviderMessage);
        return;
      }
      var m := new AlertManager(config);
      instance := m;
      r := Success(m);
    }

    /** `getInstance`: the instance, or the "not initialized" error. */
    function GetInstance(): (r: Result<AlertManager, string>)
      reads this
      ensures r.Success? <==> instance != null
      ensures r.Success? ==> r.value == instance
      ensures r.Failure? ==> r.error == NotInitializedMessage
    {
      if instance == null then Failure(NotInitializedMessage) else Success(instance)
    }

    /** `isInitialized`. */
    predicate IsInitialized()
      reads this
      ensures IsInitialized() <==> GetInstance().Success?
    {
      instance != null
    }

    /** `reset`: closes the current instance, if any, and forgets it. */
    method Reset()
      requires Valid()
      modifies this, instance
      ensures Valid() && instance == null
      ensures old(instance) != null ==>
                && old(instance).registry == Empty()
                && old(instance).closeLog == old(instance.closeLog) + old(instance.registry.Values())
    {
      if instance != null {
        instance.Close();
        instance := null;
      }
    }
  }
}
