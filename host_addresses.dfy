/** Where the gather connects to: the platform dispatch over the Terraform
    state (extractHostAddresses, cmd/openshift-install/gather.go) and the
    validation of addresses given by hand (unSupportedPlatformGather). */
module HostAddresses {
  import opened GatherTypes
  import opened Strings

  /** Platform names as `config.Platform.Name()` returns them. */
  const AWS := "aws"
  const Azure := "azure"
  const Libvirt := "libvirt"
  const OpenStack := "openstack"

  /** SSH port of the bootstrap host: 22, except on Azure. */
  const DefaultPort: nat := 22
  const AzurePort: nat := 2200

  /** The contents of the Terraform state file; only the per-platform
      extractors look inside it. */
  type TfState = string

  /** A Go result pair `(value, err)`: unlike `Result`, the value is returned
      even when `err` is set, and callers pass it on. */
  datatype Extracted<+T> = Extracted(value: T, err: Option<Error>)

  /** One platform's `BootstrapIP` and `ControlPlaneIPs` functions. */
  datatype Strategy = Strategy(
    bootstrapIP: TfState -> Extracted<string>,
    controlPlaneIPs: TfState -> Extracted<seq<string>>)

  /** The extractors of the four supported platforms. */
  datatype Strategies = Strategies(aws: Strategy, azure: Strategy, libvirt: Strategy, openstack: Strategy)

  /** The named results of extractHostAddresses, with the effects performed. */
  datatype Addresses = Addresses(
    bootstrap: string, port: nat, masters: seq<string>, err: Option<Error>, events: seq<Event>)

  /** Where the gather connects to and which control-plane hosts it names. */
  datatype Target = Target(bootstrap: string, port: nat, masters: seq<string>)

  function UnsupportedMessage(platform: string): string {
    "Cannot fetch the bootstrap and control plane host addresses from state file for " + platform + " platform"
  }

  const MissingAddressesMessage := "boostrap host address and at least one control plane host address must be provided"

  predicate IsSupported(platform: string) {
    platform == AWS || platform == Azure || platform == Libvirt || platform == OpenStack
  }

  /** One `case` of the switch: bootstrap first, and only on success the
      control plane, whose error is logged and then dropped. */
  function ExtractWith(platform: string, port: nat, s: Strategy, tfstate: TfState): (r: Addresses)
    ensures r.port == port
  {
    var b := s.bootstrapIP(tfstate);
    if b.err.Some? then
      Addresses(b.value, port, [], b.err, [BootstrapIP(platform)])
    else
      var m := s.controlPlaneIPs(tfstate);
      Addresses(b.value, port, m.value, None,
                [BootstrapIP(platform), ControlPlaneIPs(platform)]
                + (if m.err.Some? then [LogError(m.err.value)] else []))
  }

  /** extractHostAddresses: dispatch on the platform name. */
  function ExtractHostAddresses(platform: string, tfstate: TfState, strategies: Strategies): (r: Addresses)
    ensures r.port == if platform == Azure then AzurePort else DefaultPort
    ensures forall e :: e in r.events && IsExtractorCall(e) ==> e.platform == platform
  {
    if platform == AWS then ExtractWith(platform, DefaultPort, strategies.aws, tfstate)
    else if platform == Azure then ExtractWith(platform, AzurePort, strategies.azure, tfstate)
    else if platform == Libvirt then ExtractWith(platform, DefaultPort, strategies.libvirt, tfstate)
    else if platform == OpenStack then ExtractWith(platform, DefaultPort, strategies.openstack, tfstate)
    else Addresses("", DefaultPort, [], Some(Unsupported(UnsupportedMessage(platform))), [])
  }

  /** The same dispatch as a registry from platform name to strategy. */
  function Registry(strategies: Strategies): map<string, Strategy> {
    map[AWS := strategies.aws, Azure := strategies.azure,
        Libvirt := strategies.libvirt, OpenStack := strategies.openstack]
  }

  function PortFor(platform: string): nat {
    if platform == Azure then AzurePort else DefaultPort
  }

  /** The switch agrees with looking the platform up in the registry: exactly
      the registered platforms have a strategy, exactly that strategy runs,
      and the port depends on the platform name alone. */
  lemma DispatchIsRegistryLookup(platform: string, tfstate: TfState, strategies: Strategies)
    ensures platform in Registry(strategies) <==> IsSupported(platform)
    ensures platform in Registry(strategies) ==>
      ExtractHostAddresses(platform, tfstate, strategies)
        == ExtractWith(platform, PortFor(platform), Registry(strategies)[platform], tfstate)
  {
  }

  /** Port choice: 2200 on Azure and 22 everywhere else, whatever the
      extractors return (so also when Azure's bootstrap extraction fails). */
  lemma PortChoice(platform: string, tfstate: TfState, strategies: Strategies)
    ensures var r := ExtractHostAddresses(platform, tfstate, strategies);
      (r.port == AzurePort <==> platform == Azure) && (r.port == DefaultPort <==> platform != Azure)
  {
  }

  /** An unrecognised platform gets the distinguished error, whose message
      names the platform, an empty bootstrap, no masters, and no extractor runs. */
  lemma UnknownPlatform(platform: string, tfstate: TfState, strategies: Strategies)
    requires !IsSupported(platform)
    ensures var r := ExtractHostAddresses(platform, tfstate, strategies);
      r.bootstrap == "" && r.masters == [] && r.events == []
      && r.err == Some(Unsupported(UnsupportedMessage(platform)))
      && Contains(r.err.value.message, platform)
  {
    var prefix := "Cannot fetch the bootstrap and control plane host addresses from state file for ";
    assert OccursAt(UnsupportedMessage(platform), platform, |prefix|);
  }

  /** A supported platform never reports the unsupported-platform error on its
      own: an error there is the one its bootstrap extractor returned. */
  lemma SupportedPlatformError(platform: string, tfstate: TfState, strategies: Strategies)
    requires IsSupported(platform)
    ensures var r := ExtractHostAddresses(platform, tfstate, strategies);
      r.err == Registry(strategies)[platform].bootstrapIP(tfstate).err
  {
  }

  /** Bootstrap short-circuit: a bootstrap extraction error is returned at once,
      with the value the extractor gave and no masters, and the control-plane
      extractor is never called. */
  lemma BootstrapShortCircuit(platform: string, tfstate: TfState, strategies: Strategies)
    requires IsSupported(platform)
    requires Registry(strategies)[platform].bootstrapIP(tfstate).err.Some?
    ensures var r := ExtractHostAddresses(platform, tfstate, strategies);
      var b := Registry(strategies)[platform].bootstrapIP(tfstate);
      r.err == b.err && r.bootstrap == b.value && r.masters == []
      && r.events == [BootstrapIP(platform)] && ControlPlaneIPs(platform) !in r.events
  {
  }

  /** Control-plane downgrade: once the bootstrap is known the result carries
      no error; the control-plane extractor's list is returned as it came, and
      its error, if any, is only logged. */
  lemma ControlPlaneDowngrade(platform: string, tfstate: TfState, strategies: Strategies)
    requires IsSupported(platform)
    requires Registry(strategies)[platform].bootstrapIP(tfstate).err.None?
    ensures var r := ExtractHostAddresses(platform, tfstate, strategies);
      var s := Registry(strategies)[platform];
      var m := s.controlPlaneIPs(tfstate);
      r.err.None? && r.bootstrap == s.bootstrapIP(tfstate).value && r.masters == m.value
      && (m.err.Some? ==> r.events == [BootstrapIP(platform), ControlPlaneIPs(platform), LogError(m.err.value)])
      && (m.err.None? ==> r.events == [BootstrapIP(platform), ControlPlaneIPs(platform)])
  {
  }

  /** unSupportedPlatformGather's check of the addresses given by hand: it
      fails exactly when the bootstrap or the list of masters is empty, and
      otherwise targets those addresses on port 22. */
  function ManualTarget(bootstrap: string, masters: seq<string>): (r: Result<Target>)
    ensures r.Err? <==> bootstrap == "" || |masters| == 0
    ensures r.Err? ==> r.error == Failure(MissingAddressesMessage)
    ensures r.Ok? ==> r.value == Target(bootstrap, DefaultPort, masters)
  {
    if bootstrap == "" || |masters| == 0 then Err(Failure(MissingAddressesMessage))
    else Ok(Target(bootstrap, DefaultPort, masters))
  }
}
