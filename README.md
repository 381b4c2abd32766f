# Bootstrap gather, modelled in Dafny

`openshift-install gather bootstrap` collects debugging data after a cluster
installation failed to bootstrap. It works out the address of the bootstrap
host and of the control-plane hosts ("masters"). It takes them from the
Terraform state left by the installer when that state exists and the
platform is supported. Otherwise it takes them from the command line
(`--bootstrap`, `--master`). It then connects to the bootstrap host over SSH
as `core`. There it runs `/usr/local/bin/installer-gather.sh` with the masters
as arguments and pulls `/home/core/log-bundle.tar.gz` into
`<dir>/log-bundle-<YYYYMMDDHHMMSS>.tar.gz`.

The model covers `cmd/openshift-install/gather.go`, in six modules:

- `GatherTypes` (gather_types.dfy): Go errors (`errUnSupportedGatherPlatform`,
  `errors.Wrap`, any other error), `Option`/`Result`, and the trace of
  effects (`Event`) that an invocation performs, in order.
- `Strings` (strings.dfy): the string building the command relies on
  (`%d`, zero-padded numerals, `strings.Join`, `filepath.Join`, `%q`). The
  numerals and `strings.Join` come with the inverse that shows what the built
  string means: digits read back, and how a command line splits at spaces
  into words.
- `Timestamp` (timestamp.dfy): the layout `20060102150405`, its parser, and
  its ordering.
- `HostAddresses` (host_addresses.dfy): `extractHostAddresses` as a function
  over the platform name. The per-platform `BootstrapIP`/`ControlPlaneIPs`
  functions are inputs, as function-valued fields of a `Strategy`. Each
  returns a Go `(value, err)` pair, modelled as `Extracted`. The validation
  in `unSupportedPlatformGather` is the function `ManualTarget`.
- `GatherSession` (gather_session.dfy): `logGatherBootstrap` as a method. It
  is specified by `Gather`, which runs a list of steps and stops at the first
  failure (`RunSteps`). The SSH side is the `Remote` input: what
  `ssh.NewClient`, `ssh.Run` and `ssh.PullFileTo` return for given arguments.
- `GatherBootstrap` (gather_bootstrap.dfy): `runGatherBootstrapCmd` and
  `unSupportedPlatformGather` as methods, specified by the functions
  `BootstrapGather` and `ManualGather`. The routing after extraction is the
  method `RouteAddresses`, specified by `AfterExtraction`. The global `gatherBootstrapOpts`
  becomes an explicit `Options` parameter. `os.Stat`, the asset store, the
  state reader, the extractors, SSH and the clock are bundled as a `Host`
  input.

Behaviour of the code worth knowing:

- When the control-plane extractor fails, the code returns whatever list that
  extractor returned, not necessarily an empty one (`ControlPlaneDowngrade`).
- There is no guard against an empty bootstrap address. An extractor that
  returns `""` without error leads to a connection attempt to `":22"`
  (`EmptyBootstrapIsDialed`).
- With no masters, the remote command keeps its trailing space
  (`CommandShape`). Split at spaces, it still names just the script
  (`CommandArguments`).
- The SSH client is never closed, so no release of the connection is claimed.
- A failed bootstrap extraction is not redirected to the manual path. Only
  the `errUnSupportedGatherPlatform` type is redirected
  (`RouteExtractionFailure`, `RouteUnsupported`). The provider packages
  cannot construct that unexported type, so only the unknown-platform branch
  produces it.
- The connection target is written as `host:port` with `"%s:%d"`, not with
  `net.JoinHostPort`. A host that holds a colon, such as the unbracketed IPv6
  address `::1`, gives `::1:22`, which Go's `net.SplitHostPort` rejects
  ("too many colons"), so such a bootstrap cannot be dialed
  (`ColonHostRejected`, `LoopbackRejected`). Host names and IPv4 addresses
  read back intact (`AddressRoundTrip`).
- The error text for missing manual addresses keeps the code's spelling
  "boostrap".

## Model

| member | source | states |
|---|---|---|
| HostAddresses.ExtractHostAddresses | cmd/openshift-install/gather.go:127-171 | the port is 2200 exactly for azure and 22 otherwise; every extractor call in the trace is for the requested platform |
| HostAddresses.DispatchIsRegistryLookup | cmd/openshift-install/gather.go:129-169 | the switch equals a lookup in a registry of the four platforms: exactly aws, azure, libvirt and openstack have a strategy, and only that one runs |
| HostAddresses.PortChoice | cmd/openshift-install/gather.go:128-143 | port 2200 iff the platform is azure, 22 iff it is not, whatever the extractors return (also when azure bootstrap extraction fails) |
| HostAddresses.UnknownPlatform | cmd/openshift-install/gather.go:167-168 | an unrecognised platform yields the unsupported-platform error whose message contains the platform name, bootstrap "", no masters, and no extractor call |
| HostAddresses.SupportedPlatformError | cmd/openshift-install/gather.go:130-166 | for a supported platform the returned error is exactly the bootstrap extractor's error (nil when it succeeded) |
| HostAddresses.BootstrapShortCircuit | cmd/openshift-install/gather.go:131-162 | a bootstrap extraction error is returned with the extractor's value and no masters; the control-plane extractor is never called |
| HostAddresses.ControlPlaneDowngrade | cmd/openshift-install/gather.go:135-170 | after a bootstrap success the result has no error, the bootstrap found and the control-plane extractor's list; a control-plane error appears only as a log entry |
| HostAddresses.ManualTarget | cmd/openshift-install/gather.go:181-186 | fails iff the manual bootstrap is empty or the master list is empty; otherwise targets exactly those addresses on port 22 |
| GatherSession.RunStepsSpec | cmd/openshift-install/gather.go:110-125 | the steps attempted are a prefix of the protocol; failure iff some step fails; the last attempted step is the first failing one and its cause is returned with that step's context; success attempted every step |
| GatherSession.LogGatherBootstrap | cmd/openshift-install/gather.go:110-125 | the method's outcome and trace equal the connect/run/pull protocol run against the remote side |
| GatherSession.GatherSteps | cmd/openshift-install/gather.go:112-122 | the trace is a non-empty prefix of connect to bootstrap:port as core, run the gather command, pull the bundle into the timestamped file; a failed connect stops after one event, a failed run after two, and a failed pull after all three; success iff all three succeed; each failure carries its own context and reports no archive |
| GatherSession.AddressRoundTrip | cmd/openshift-install/gather.go:112 | for a host without colons or brackets, Go's host/port split of the connection target gives back the bootstrap host and the port |
| GatherSession.ColonHostRejected | cmd/openshift-install/gather.go:112 | a bootstrap host holding a colon (not bracketed) gives a target that Go's host/port split rejects |
| GatherSession.LoopbackRejected | cmd/openshift-install/gather.go:112 | the IPv6 bootstrap ::1 gives the target ::1:22, which cannot be split into host and port |
| GatherSession.CommandShape | cmd/openshift-install/gather.go:116 | the command starts with the script path and a space; with no masters it is exactly that, trailing space included |
| GatherSession.CommandArguments | cmd/openshift-install/gather.go:116 | split at spaces, the command is the script followed by exactly the masters iff every master is non-empty and free of spaces |
| GatherSession.ArchiveNameTimestamp | cmd/openshift-install/gather.go:119-120 | the local file is the directory, a '/' unless it already ends in one, then log-bundle-, 14 digits, .tar.gz (just the name for an empty directory), and the digits parse back to the capture second |
| GatherSession.ArchiveCollision | cmd/openshift-install/gather.go:119 | two gathers into one directory use the same file iff they capture in the same second |
| GatherSession.ArchiveNamesSortable | cmd/openshift-install/gather.go:119 | archive names of earlier captures sort before those of later ones |
| Timestamp.FormatRoundTrip | cmd/openshift-install/gather.go:119 | the layout 20060102150405 writes 14 digits that parse back to the reading truncated to the second |
| Timestamp.FormatCollision | cmd/openshift-install/gather.go:119 | two readings format alike iff they are in the same second |
| Timestamp.FormatSortable | cmd/openshift-install/gather.go:119 | an earlier second formats to a lexicographically smaller string |
| GatherBootstrap.UnsupportedPlatformGather | cmd/openshift-install/gather.go:181-187 | the method's outcome equals the manual path: the missing-addresses error, or the gather against the given addresses on port 22 |
| GatherBootstrap.RunGatherBootstrapCmd | cmd/openshift-install/gather.go:74-108 | the method's outcome and trace equal the command's specification: stat, asset store, install config, state, extraction, then gather or manual path |
| GatherBootstrap.RouteAddresses | cmd/openshift-install/gather.go:98-107 | the method's outcome equals the routing after extraction: the gather against the addresses found, the logged unsupported-platform error followed by the manual path, or any other error wrapped with the quoted state path |
| GatherBootstrap.ManualFallback | cmd/openshift-install/gather.go:181-187 | the manual path fails with the missing-addresses error and no effect iff an address is missing; otherwise it is the gather to bootstrap:22 with the given masters and keys |
| GatherBootstrap.RouteMissingState | cmd/openshift-install/gather.go:75-79 | a state file that does not exist leads, right after the stat, to the manual path, with no extractor call |
| GatherBootstrap.RouteStatError | cmd/openshift-install/gather.go:80-82 | any other stat error is returned unwrapped and nothing else happens |
| GatherBootstrap.RouteUnsupported | cmd/openshift-install/gather.go:98-103 | an unsupported-platform error from extraction is logged and the manual path follows |
| GatherBootstrap.RouteUnknownPlatform | cmd/openshift-install/gather.go:98-103 | an unknown platform name always reaches the manual path after logging its error, with no extractor call |
| GatherBootstrap.RouteExtractionFailure | cmd/openshift-install/gather.go:99-105 | any other extraction error is returned wrapped with the state path; no archive, no SSH step, no manual path |
| GatherBootstrap.RouteExtracted | cmd/openshift-install/gather.go:98-107 | a successful extraction leads to the gather against exactly the bootstrap, port and masters it found |
| GatherBootstrap.SuccessShape | cmd/openshift-install/gather.go:98-124 | a successful command ends with connect, run and pull against a target on port 22 or 2200, and reports the timestamped archive |
| GatherBootstrap.NoConnectionWithoutManualAddresses | cmd/openshift-install/gather.go:182-184 | when the manual path is reached without both addresses the command fails with the missing-addresses error and never touches SSH |
| GatherBootstrap.ScenarioExtracted | cmd/openshift-install/gather.go:107-116 | with the state present on aws, bootstrap 10.0.0.5 and masters 10.0.0.6 and 10.0.0.7, it connects to 10.0.0.5:22 and runs the script with "10.0.0.6 10.0.0.7" |
| GatherBootstrap.ScenarioUnknownWithoutBootstrap | cmd/openshift-install/gather.go:99-103 | an unknown platform and no manual bootstrap fail with the missing-addresses error and no connection |
| GatherBootstrap.ScenarioManual | cmd/openshift-install/gather.go:76-78 | no state file, manual bootstrap 1.2.3.4 and master 1.2.3.5: the gather connects to 1.2.3.4:22 |
| GatherBootstrap.EmptyBootstrapIsDialed | cmd/openshift-install/gather.go:107-112 | an extractor that returns an empty bootstrap without error still leads to a connection attempt to ":22" |

## Left out

- Cobra command construction, flag registration and `gather` help output (gather.go:29-72): command-line plumbing. The flags' values are the `Options` input.
- `setupFileHook`, `logrus.Info` lines and `logrus.Fatal`'s process exit: side effects only. `logrus.Error` calls appear as `LogError` events. The closing `logrus.Infof` that reports where the logs were captured (gather.go:123) is not an event; the path it prints is the `artifact` of the outcome.
- `os.Stat`, `assetstore.NewStore`/`Fetch` and `terraform.ReadState`: file-system and foreign calls. Only their outcomes are modelled, as fields of `Host`.
- The per-platform `BootstrapIP`/`ControlPlaneIPs` packages, which parse the state: they are not part of this model and are taken as arbitrary functions of the state.
- `ssh.NewClient`, `ssh.Run` and `ssh.PullFileTo`: network I/O. Each is an arbitrary success-or-error answer. Key selection, authentication and what the remote script does are not modelled.
- `time.Now()`: the clock reading is an input. Time zones are not modelled.
- The values `terraform.tfstate`, `Install Config` and the platform names `aws`, `azure`, `libvirt`, `openstack` come from packages that are not part of this model. They are written here as constants.
- Strings.PathJoin: does not apply `filepath.Clean` to the directory (dot and dot-dot segments, repeated separators; a single trailing separator is handled). For a directory that `Clean` changes beyond that, such as `.`, `a/../b` or `a//`, the state path and archive path in the events, in the wrapped extraction error and in the reported artifact differ from Go's text. For a directory already in clean form they agree.
- Strings.Quote: does not model `%q`'s escaping of quotes, backslashes and non-printable characters.
- Strings.Fields: splits on spaces only; a shell also splits on tabs and newlines.
- GatherSession.CommandArguments: states how the command splits at spaces, not what the remote shell does with it. Quoting, variable and command substitution (`$(...)`), globbing and command separators such as `;` are not modelled, so a master like `a;reboot` is one word here but two commands to a shell.
- Timestamp.Parse: accepts any 14 digits and does not check calendar ranges as `time.Parse` would. It is used only as the inverse of `Format`.
- Releasing the SSH connection: the code never closes the client, so the model does not claim it.
