/** `openshift-install gather bootstrap` (runGatherBootstrapCmd and
    unSupportedPlatformGather, cmd/openshift-install/gather.go): find the
    bootstrap and control-plane addresses, from the Terraform state when there
    is one and from the command line otherwise, then run the gather. */
module GatherBootstrap {
  import opened GatherTypes
  import opened Strings
  import opened Timestamp
  import opened HostAddresses
  import opened GatherSession

  /** The command-line options `--bootstrap`, `--master` (repeatable) and
      `--key` (repeatable). */
  datatype Options = Options(bootstrap: string, masters: seq<string>, sshKeys: seq<string>)

  /** What `os.Stat` says about the state file. */
  datatype StatResult = Exists | NotExist | StatFailed(error: Error)

  /** Everything outside the command that it consults: the file system and
      asset store of the install directory, the extractors, the SSH side and
      the clock. `installConfig` is the platform name of the fetched install
      config. */
  datatype Host = Host(
    stat: StatResult,
    store: Option<Error>,
    installConfig: Result<string>,
    state: Result<TfState>,
    strategies: Strategies,
    remote: Remote,
    now: Time)

  /** `terraform.StateFileName`. */
  const StateFileName := "terraform.tfstate"
  /** `config.Name()` of the install config asset. */
  const InstallConfigName := "Install Config"

  const StoreContext := "failed to create asset store"

  function StatePath(directory: string): string {
    PathJoin(directory, StateFileName)
  }

  function FetchContext(): string {
    "failed to fetch " + InstallConfigName
  }

  function ReadStateContext(directory: string): string {
    "failed to read state from " + Quote(StatePath(directory))
  }

  function ExtractContext(directory: string): string {
    "failed to get bootstrap and control plane host addresses from " + Quote(StatePath(directory))
  }

  /** What unSupportedPlatformGather does. */
  function ManualGather(directory: string, opts: Options, remote: Remote, now: Time): Outcome {
    match ManualTarget(opts.bootstrap, opts.masters)
    case Err(e) => Outcome(Some(e), None, [])
    case Ok(t) => Gather(t, directory, opts.sshKeys, remote, now)
  }

  /** What runGatherBootstrapCmd does once the addresses are extracted (`r`):
      gather, fall back to the manual path, or fail. */
  function AfterExtraction(directory: string, opts: Options, remote: Remote, now: Time, r: Addresses): Outcome {
    if r.err.None? then
      Gather(Target(r.bootstrap, r.port, r.masters), directory, opts.sshKeys, remote, now)
    else if r.err.value.Unsupported? then
      Then([LogError(r.err.value)], ManualGather(directory, opts, remote, now))
    else
      Outcome(Some(Wrapped(ExtractContext(directory), r.err.value)), None, [])
  }

  /** What runGatherBootstrapCmd does. */
  function BootstrapGather(directory: string, opts: Options, host: Host): Outcome {
    var path := StatePath(directory);
    var pre := [StatState(path)];
    match host.stat
    case NotExist => Then(pre, ManualGather(directory, opts, host.remote, host.now))
    case StatFailed(e) => Outcome(Some(e), None, pre)
    case Exists =>
      var pre := pre + [OpenAssetStore(directory)];
      if host.store.Some? then Outcome(Some(Wrapped(StoreContext, host.store.value)), None, pre)
      else
        var pre := pre + [FetchInstallConfig];
        match host.installConfig
        case Err(e) => Outcome(Some(Wrapped(FetchContext(), e)), None, pre)
        case Ok(platform) =>
          var pre := pre + [ReadState(path)];
          match host.state
          case Err(e) => Outcome(Some(Wrapped(ReadStateContext(directory), e)), None, pre)
          case Ok(tfstate) =>
            var r := ExtractHostAddresses(platform, tfstate, host.strategies);
            Then(pre + r.events, AfterExtraction(directory, opts, host.remote, host.now, r))
  }

  /** unSupportedPlatformGather. */
  method UnsupportedPlatformGather(directory: string, opts: Options, remote: Remote, now: Time)
    returns (o: Outcome)
    ensures o == ManualGather(directory, opts, remote, now)
  {
    if opts.bootstrap == "" || |opts.masters| == 0 {
      return Outcome(Some(Failure(MissingAddressesMessage)), None, []);
    }
    o := LogGatherBootstrap(opts.bootstrap, DefaultPort, opts.masters, directory, opts.sshKeys, remote, now);
  }

  /** runGatherBootstrapCmd. */
  method RunGatherBootstrapCmd(directory: string, opts: Options, host: Host)
    returns (o: Outcome)
    ensures o == BootstrapGather(directory, opts, host)
  {
    var path := PathJoin(directory, StateFileName);
    var events := [StatState(path)];
    match host.stat {
      case NotExist =>
        o := UnsupportedPlatformGather(directory, opts, host.remote, host.now);
        return Then(events, o);
      case StatFailed(e) =>
        return Outcome(Some(e), None, events);
      case Exists =>
    }
    events := events + [OpenAssetStore(directory)];
    if host.store.Some? {
      return Outcome(Some(Wrapped(StoreContext, host.store.value)), None, events);
    }
    events := events + [FetchInstallConfig];
    if host.installConfig.Err? {
      return Outcome(Some(Wrapped("failed to fetch " + InstallConfigName, host.installConfig.error)), None, events);
    }
    var platform := host.installConfig.value;
    events := events + [ReadState(path)];
    if host.state.Err? {
      return Outcome(Some(Wrapped("failed to read state from " + Quote(path), host.state.error)), None, events);
    }
    var r := ExtractHostAddresses(platform, host.state.value, host.strategies);
    Loaded(directory, opts, host);
    assert events == LoadEvents(directory);
    events := events + r.events;
    o := RouteAddresses(directory, opts, host.remote, host.now, r);
    return Then(events, o);
  }

  /** The rest of runGatherBootstrapCmd once the addresses are extracted:
      gather from them, fall back to the manual path on an unsupported
      platform, or return any other error wrapped with the state path. */
  method RouteAddresses(directory: string, opts: Options, remote: Remote, now: Time, r: Addresses)
    returns (o: Outcome)
    ensures o == AfterExtraction(directory, opts, remote, now, r)
  {
    if r.err.Some? {
      if r.err.value.Unsupported? {
        o := UnsupportedPlatformGather(directory, opts, remote, now);
        return Then([LogError(r.err.value)], o);
      }
      var path := PathJoin(directory, StateFileName);
      return Outcome(Some(Wrapped("failed to get bootstrap and control plane host addresses from " + Quote(path), r.err.value)), None, []);
    }
    o := LogGatherBootstrap(r.bootstrap, r.port, r.masters, directory, opts.sshKeys, remote, now);
  }

  // ---------------------------------------------------------------------
  // Properties of the manual path

  /** Manual fallback: it fails, without touching the network, exactly when
      the bootstrap or the master list is empty; otherwise it gathers from the
      given bootstrap on port 22 with the given masters and keys. */
  lemma ManualFallback(directory: string, opts: Options, remote: Remote, now: Time)
    ensures var o := ManualGather(directory, opts, remote, now);
      (opts.bootstrap == "" || opts.masters == []) <==> o.err == Some(Failure(MissingAddressesMessage)) && o.events == []
    ensures opts.bootstrap != "" && opts.masters != [] ==>
      ManualGather(directory, opts, remote, now)
        == Gather(Target(opts.bootstrap, DefaultPort, opts.masters), directory, opts.sshKeys, remote, now)
  {
    var o := ManualGather(directory, opts, remote, now);
    if opts.bootstrap != "" && opts.masters != [] {
      GatherSteps(Target(opts.bootstrap, DefaultPort, opts.masters), directory, opts.sshKeys, remote, now);
      assert |o.events| >= 1;
    }
  }

  // ---------------------------------------------------------------------
  // Routing

  /** A missing state file goes straight to the manual path: nothing but the
      stat happens before it and no extractor runs. */
  lemma RouteMissingState(directory: string, opts: Options, host: Host)
    requires host.stat == NotExist
    ensures var o := BootstrapGather(directory, opts, host);
      o == Then([StatState(StatePath(directory))], ManualGather(directory, opts, host.remote, host.now))
      && forall e :: e in o.events ==> !IsExtractorCall(e)
  {
    var m := ManualGather(directory, opts, host.remote, host.now);
    if opts.bootstrap != "" && opts.masters != [] {
      var t := Target(opts.bootstrap, DefaultPort, opts.masters);
      GatherSteps(t, directory, opts.sshKeys, host.remote, host.now);
    }
    assert forall e :: e in m.events ==> IsRemoteCall(e);
  }

  /** Any other stat error is returned as it is, before anything else happens. */
  lemma RouteStatError(directory: string, opts: Options, host: Host)
    requires host.stat.StatFailed?
    ensures BootstrapGather(directory, opts, host)
      == Outcome(Some(host.stat.error), None, [StatState(StatePath(directory))])
  {
  }

  /** The state as far as extraction: what happens before it when the state
      file, asset store, install config and state all load. */
  predicate StateLoads(host: Host) {
    host.stat == Exists && host.store.None? && host.installConfig.Ok? && host.state.Ok?
  }

  function Extraction(host: Host): Addresses
    requires StateLoads(host)
  {
    ExtractHostAddresses(host.installConfig.value, host.state.value, host.strategies)
  }

  function LoadEvents(directory: string): seq<Event> {
    [StatState(StatePath(directory)), OpenAssetStore(directory), FetchInstallConfig, ReadState(StatePath(directory))]
  }

  /** Once everything loads, the command is the extraction followed by its
      routing. */
  lemma Loaded(directory: string, opts: Options, host: Host)
    requires StateLoads(host)
    ensures BootstrapGather(directory, opts, host)
      == Then(LoadEvents(directory) + Extraction(host).events,
              AfterExtraction(directory, opts, host.remote, host.now, Extraction(host)))
  {
    var path := StatePath(directory);
    assert [StatState(path)] + [OpenAssetStore(directory)] + [FetchInstallConfig] + [ReadState(path)]
      == LoadEvents(directory);
  }

  /** An unsupported-platform error from extraction is logged and routes to
      the manual path. */
  lemma RouteUnsupported(directory: string, opts: Options, host: Host)
    requires StateLoads(host)
    requires Extraction(host).err.Some? && Extraction(host).err.value.Unsupported?
    ensures BootstrapGather(directory, opts, host)
      == Then(LoadEvents(directory) + Extraction(host).events + [LogError(Extraction(host).err.value)],
              ManualGather(directory, opts, host.remote, host.now))
  {
    Loaded(directory, opts, host);
  }

  /** An unknown platform name always takes the manual path, with no
      extractor called. */
  lemma RouteUnknownPlatform(directory: string, opts: Options, host: Host)
    requires StateLoads(host) && !IsSupported(host.installConfig.value)
    ensures var platform := host.installConfig.value;
      BootstrapGather(directory, opts, host)
        == Then(LoadEvents(directory) + [LogError(Unsupported(UnsupportedMessage(platform)))],
                ManualGather(directory, opts, host.remote, host.now))
  {
    UnknownPlatform(host.installConfig.value, host.state.value, host.strategies);
    RouteUnsupported(directory, opts, host);
    assert LoadEvents(directory) + Extraction(host).events == LoadEvents(directory);
  }

  /** Any other extraction error (a failed bootstrap extraction) is wrapped and
      returned: the manual path is not taken and no connection is attempted. */
  lemma RouteExtractionFailure(directory: string, opts: Options, host: Host)
    requires StateLoads(host)
    requires Extraction(host).err.Some? && !Extraction(host).err.value.Unsupported?
    ensures var o := BootstrapGather(directory, opts, host);
      o.err == Some(Wrapped(ExtractContext(directory), Extraction(host).err.value))
      && o.artifact.None?
      && o.events == LoadEvents(directory) + Extraction(host).events
      && forall e :: e in o.events ==> !IsRemoteCall(e)
  {
    var r := Extraction(host);
    Loaded(directory, opts, host);
    assert forall e :: e in r.events ==> IsExtractorCall(e) || e.LogError?;
  }

  /** When extraction succeeds, the gather runs against exactly what it found. */
  lemma RouteExtracted(directory: string, opts: Options, host: Host)
    requires StateLoads(host) && Extraction(host).err.None?
    ensures var r := Extraction(host);
      BootstrapGather(directory, opts, host)
        == Then(LoadEvents(directory) + r.events,
                Gather(Target(r.bootstrap, r.port, r.masters), directory, opts.sshKeys, host.remote, host.now))
  {
    Loaded(directory, opts, host);
  }

  /** Success always means the whole remote protocol ran last, against a
      target on port 22 or 2200, and the archive reported is the timestamped
      file in the install directory. */
  lemma SuccessShape(directory: string, opts: Options, host: Host)
    requires BootstrapGather(directory, opts, host).err.None?
    ensures var o := BootstrapGather(directory, opts, host);
      o.artifact == Some(ArchivePath(directory, host.now))
      && |o.events| >= 3
      && exists t: Target :: t.port in {DefaultPort, AzurePort}
           && o.events[|o.events| - 3..]
              == [Dial(User, Address(t.bootstrap, t.port), opts.sshKeys),
                  RunRemote(GatherCommand(t.masters)),
                  Pull(RemoteBundle, ArchivePath(directory, host.now))]
  {
    var o := BootstrapGather(directory, opts, host);
    var t: Target;
    var pre: seq<Event>;
    if host.stat == NotExist {
      RouteMissingState(directory, opts, host);
      t, pre := Target(opts.bootstrap, DefaultPort, opts.masters), [StatState(StatePath(directory))];
      ManualFallback(directory, opts, host.remote, host.now);
    } else {
      assert StateLoads(host);
      var r := Extraction(host);
      Loaded(directory, opts, host);
      if r.err.Some? {
        assert r.err.value.Unsupported?;
        t, pre := Target(opts.bootstrap, DefaultPort, opts.masters), LoadEvents(directory) + r.events + [LogError(r.err.value)];
        ManualFallback(directory, opts, host.remote, host.now);
      } else {
        t, pre := Target(r.bootstrap, r.port, r.masters), LoadEvents(directory) + r.events;
      }
    }
    assert o == Then(pre, Gather(t, directory, opts.sshKeys, host.remote, host.now));
    GatherTail(pre, t, directory, opts.sshKeys, host.remote, host.now);
  }

  /** A successful gather after any earlier events ends the trace with its
      three steps and reports the archive. */
  lemma GatherTail(pre: seq<Event>, t: Target, directory: string, keys: seq<string>, remote: Remote, now: Time)
    requires Gather(t, directory, keys, remote, now).err.None?
    ensures var o := Then(pre, Gather(t, directory, keys, remote, now));
      o.artifact == Some(ArchivePath(directory, now))
      && |o.events| >= 3
      && o.events[|o.events| - 3..]
         == [Dial(User, Address(t.bootstrap, t.port), keys), RunRemote(GatherCommand(t.masters)),
             Pull(RemoteBundle, ArchivePath(directory, now))]
  {
    var g := Gather(t, directory, keys, remote, now);
    GatherSteps(t, directory, keys, remote, now);
    assert Then(pre, g).events[|pre + g.events| - 3..] == g.events;
  }

  /** No connection is attempted on the manual path without both addresses,
      whether the state file is missing or the platform is unsupported. */
  lemma NoConnectionWithoutManualAddresses(directory: string, opts: Options, host: Host)
    requires opts.bootstrap == "" || opts.masters == []
    requires host.stat == NotExist
      || (StateLoads(host) && Extraction(host).err.Some? && Extraction(host).err.value.Unsupported?)
    ensures var o := BootstrapGather(directory, opts, host);
      o.err == Some(Failure(MissingAddressesMessage)) && forall e :: e in o.events ==> !IsRemoteCall(e)
  {
    var o := BootstrapGather(directory, opts, host);
    var m := ManualGather(directory, opts, host.remote, host.now);
    ManualFallback(directory, opts, host.remote, host.now);
    if host.stat == NotExist {
      RouteMissingState(directory, opts, host);
      assert o.events == [StatState(StatePath(directory))];
    } else {
      var r := Extraction(host);
      RouteUnsupported(directory, opts, host);
      assert forall e :: e in r.events ==> IsExtractorCall(e) || e.LogError?;
      assert o.events == LoadEvents(directory) + r.events + [LogError(r.err.value)];
    }
  }

  // ---------------------------------------------------------------------
  // Scenarios

  /** A remote side on which every step succeeds. */
  function Reachable(): Remote {
    Remote((user, address, keys) => None, command => None, (from, to) => None)
  }

  /** Against a reachable remote side the gather succeeds after all three steps. */
  lemma ReachableGather(t: Target, directory: string, keys: seq<string>, now: Time)
    ensures var g := Gather(t, directory, keys, Reachable(), now);
      g.err.None? && g.artifact == Some(ArchivePath(directory, now))
      && g.events == [Dial(User, Address(t.bootstrap, t.port), keys), RunRemote(GatherCommand(t.masters)),
                      Pull(RemoteBundle, ArchivePath(directory, now))]
  {
    GatherSteps(t, directory, keys, Reachable(), now);
  }

  /** State present on a supported platform whose extractors find the
      bootstrap 10.0.0.5 and the masters 10.0.0.6 and 10.0.0.7: the gather
      connects to 10.0.0.5:22 and passes both masters to the script. */
  lemma ScenarioExtracted(directory: string, opts: Options, now: Time, others: Strategy)
    ensures var found := Strategy(s => Extracted("10.0.0.5", None), s => Extracted(["10.0.0.6", "10.0.0.7"], None));
      var host := Host(Exists, None, Ok(AWS), Ok("{}"), Strategies(found, others, others, others), Reachable(), now);
      var o := BootstrapGather(directory, opts, host);
      o.err.None? && o.artifact == Some(ArchivePath(directory, now))
      && Dial(User, "10.0.0.5:22", opts.sshKeys) in o.events
      && RunRemote("/usr/local/bin/installer-gather.sh 10.0.0.6 10.0.0.7") in o.events
  {
    var found := Strategy(s => Extracted("10.0.0.5", None), s => Extracted(["10.0.0.6", "10.0.0.7"], None));
    var host := Host(Exists, None, Ok(AWS), Ok("{}"), Strategies(found, others, others, others), Reachable(), now);
    var masters := ["10.0.0.6", "10.0.0.7"];
    var t := Target("10.0.0.5", DefaultPort, masters);
    var r := Extraction(host);
    assert r == Addresses("10.0.0.5", DefaultPort, masters, None, [BootstrapIP(AWS), ControlPlaneIPs(AWS)]);
    RouteExtracted(directory, opts, host);
    var g := Gather(t, directory, opts.sshKeys, Reachable(), now);
    ReachableGather(t, directory, opts.sshKeys, now);
    ScenarioAddress();
    ScenarioCommand();
    var o := BootstrapGather(directory, opts, host);
    assert o.events == (LoadEvents(directory) + r.events) + g.events;
    assert Dial(User, "10.0.0.5:22", opts.sshKeys) in g.events;
  }

  /** The connection target of the scenario above, spelled out. */
  lemma ScenarioAddress()
    ensures Address("10.0.0.5", 22) == "10.0.0.5:22"
  {
    assert Decimal(22) == "22";
  }

  /** The remote command of the scenario above, spelled out. */
  lemma ScenarioCommand()
    ensures GatherCommand(["10.0.0.6", "10.0.0.7"]) == "/usr/local/bin/installer-gather.sh 10.0.0.6 10.0.0.7"
  {
    assert ["10.0.0.6", "10.0.0.7"][1..] == ["10.0.0.7"];
  }

  /** Unknown platform and no bootstrap given: the command fails for missing
      addresses and never connects. */
  lemma ScenarioUnknownWithoutBootstrap(directory: string, masters: seq<string>, keys: seq<string>, host: Host)
    requires StateLoads(host) && host.installConfig.value == "none"
    ensures var o := BootstrapGather(directory, Options("", masters, keys), host);
      o.err == Some(Failure(MissingAddressesMessage)) && forall e :: e in o.events ==> !IsRemoteCall(e)
  {
    UnknownPlatform("none", host.state.value, host.strategies);
    NoConnectionWithoutManualAddresses(directory, Options("", masters, keys), host);
  }

  /** No state file, bootstrap 1.2.3.4 and master 1.2.3.5 given: the gather
      runs on port 22 against those addresses. */
  lemma ScenarioManual(directory: string, keys: seq<string>, host: Host)
    requires host.stat == NotExist
    ensures var o := BootstrapGather(directory, Options("1.2.3.4", ["1.2.3.5"], keys), host);
      o == Then([StatState(StatePath(directory))],
                Gather(Target("1.2.3.4", 22, ["1.2.3.5"]), directory, keys, host.remote, host.now))
      && o.events[1] == Dial(User, "1.2.3.4:22", keys)
  {
    var opts := Options("1.2.3.4", ["1.2.3.5"], keys);
    ManualFallback(directory, opts, host.remote, host.now);
    GatherSteps(Target("1.2.3.4", 22, ["1.2.3.5"]), directory, keys, host.remote, host.now);
    assert Decimal(22) == "22";
  }

  /** There is no guard against an empty bootstrap address: an extractor that
      returns "" without an error still leads to a connection attempt to ":22". */
  lemma EmptyBootstrapIsDialed(directory: string, opts: Options, now: Time, others: Strategy)
    ensures var empty := Strategy(s => Extracted("", None), s => Extracted([], None));
      var host := Host(Exists, None, Ok(AWS), Ok("{}"), Strategies(empty, others, others, others), Reachable(), now);
      Dial(User, ":22", opts.sshKeys) in BootstrapGather(directory, opts, host).events
  {
    var empty := Strategy(s => Extracted("", None), s => Extracted([], None));
    var host := Host(Exists, None, Ok(AWS), Ok("{}"), Strategies(empty, others, others, others), Reachable(), now);
    var t := Target("", DefaultPort, []);
    assert Extraction(host) == Addresses("", DefaultPort, [], None, [BootstrapIP(AWS), ControlPlaneIPs(AWS)]);
    RouteExtracted(directory, opts, host);
    ReachableGather(t, directory, opts.sshKeys, now);
    assert Address("", 22) == ":22" by {
      assert Decimal(22) == "22";
    }
    assert BootstrapGather(directory, opts, host).events[6] == Dial(User, ":22", opts.sshKeys);
  }
}
