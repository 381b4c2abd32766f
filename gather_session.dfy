/** The remote half of the bootstrap gather (logGatherBootstrap,
    cmd/openshift-install/gather.go): connect to the bootstrap host as `core`,
    run the gather script with the control-plane hosts as arguments, and pull
    the resulting archive into a timestamped local file. */
module GatherSession {
  import opened GatherTypes
  import opened Strings
  import opened Timestamp
  import opened HostAddresses

  const User := "core"
  const GatherScript := "/usr/local/bin/installer-gather.sh"
  const RemoteBundle := "/home/core/log-bundle.tar.gz"

  const ConnectContext := "failed to create SSH client"
  const RunContext := "failed to run remote command"
  const PullContext := "failed to pull log file from remote"

  /** The SSH side: what `ssh.NewClient`, `ssh.Run` and `ssh.PullFileTo`
      return for given arguments (nil or an error). */
  datatype Remote = Remote(
    dial: (string, string, seq<string>) -> Option<Error>,
    run: string -> Option<Error>,
    pull: (string, string) -> Option<Error>)

  /** `fmt.Sprintf("%s:%d", host, port)`. */
  function Address(host: string, port: nat): string {
    host + ":" + Decimal(port)
  }

  /** `fmt.Sprintf("/usr/local/bin/installer-gather.sh %s", strings.Join(masters, " "))`. */
  function GatherCommand(masters: seq<string>): string {
    GatherScript + " " + Join(masters, " ")
  }

  /** `fmt.Sprintf("log-bundle-%s.tar.gz", now.Format("20060102150405"))`. */
  function ArchiveName(now: Time): string {
    "log-bundle-" + Format(now) + ".tar.gz"
  }

  /** `filepath.Join(directory, ArchiveName(now))`. */
  function ArchivePath(directory: string, now: Time): string {
    PathJoin(directory, ArchiveName(now))
  }

  // ---------------------------------------------------------------------
  // A protocol of steps that stops at the first failure

  /** One effectful step: the event it performs, what it returned, and the
      context its error is wrapped with. */
  datatype Step = Step(event: Event, result: Option<Error>, context: string)

  function EventsOf(steps: seq<Step>): (evs: seq<Event>)
    ensures |evs| == |steps| && forall i :: 0 <= i < |steps| ==> evs[i] == steps[i].event
  {
    if steps == [] then [] else [steps[0].event] + EventsOf(steps[1..])
  }

  /** Runs the steps in order; the first failure is wrapped with its step's
      context and stops the rest. */
  function RunSteps(steps: seq<Step>): (Option<Error>, seq<Event>)
  {
    if steps == [] then (None, [])
    else if steps[0].result.Some? then
      (Some(Wrapped(steps[0].context, steps[0].result.value)), [steps[0].event])
    else
      var (err, evs) := RunSteps(steps[1..]);
      (err, [steps[0].event] + evs)
  }

  /** The steps attempted are a prefix of the steps, and at least one is
      attempted when there is one. */
  lemma {:induction false} RunStepsPrefix(steps: seq<Step>)
    ensures var evs := RunSteps(steps).1;
      |evs| <= |steps| && (steps != [] ==> |evs| >= 1) && evs == EventsOf(steps)[..|evs|]
    decreases |steps|
  {
    if steps != [] && steps[0].result.None? {
      RunStepsPrefix(steps[1..]);
      var evs := RunSteps(steps[1..]).1;
      assert EventsOf(steps) == [steps[0].event] + EventsOf(steps[1..]);
      assert ([steps[0].event] + evs)[1..] == evs;
    }
  }

  /** The steps succeed exactly when every step does, and then all of them
      were attempted. */
  lemma {:induction false} RunStepsSuccess(steps: seq<Step>)
    ensures var (err, evs) := RunSteps(steps);
      (err.None? <==> forall i :: 0 <= i < |steps| ==> steps[i].result.None?)
      && (err.None? ==> evs == EventsOf(steps))
    decreases |steps|
  {
    if steps != [] && steps[0].result.None? {
      RunStepsSuccess(steps[1..]);
      assert EventsOf(steps) == [steps[0].event] + EventsOf(steps[1..]);
      assert forall i :: 1 <= i < |steps| ==> steps[1..][i - 1] == steps[i];
    }
  }

  /** On failure the last step attempted is the first failing one, and its
      cause is returned wrapped with that step's context. */
  lemma {:induction false} RunStepsFailure(steps: seq<Step>)
    ensures var (err, evs) := RunSteps(steps);
      err.Some? ==>
        var k := |evs| - 1;
        0 <= k < |steps| && steps[k].result.Some?
        && (forall i :: 0 <= i < k ==> steps[i].result.None?)
        && err.value == Wrapped(steps[k].context, steps[k].result.value)
    decreases |steps|
  {
    if steps != [] && steps[0].result.None? {
      RunStepsFailure(steps[1..]);
      RunStepsPrefix(steps[1..]);
      assert forall i :: 1 <= i < |steps| ==> steps[1..][i - 1] == steps[i];
    }
  }

  /** The steps attempted are a prefix of the protocol; it fails exactly when
      some step fails, the last step attempted is the first one that fails,
      and its cause is returned wrapped with that step's context. On success
      every step was attempted. */
  lemma RunStepsSpec(steps: seq<Step>)
    ensures var (err, evs) := RunSteps(steps);
      |evs| <= |steps| && evs == EventsOf(steps)[..|evs|]
      && (err.None? <==> forall i :: 0 <= i < |steps| ==> steps[i].result.None?)
      && (err.None? ==> evs == EventsOf(steps))
      && (err.Some? ==>
            var k := |evs| - 1;
            0 <= k && steps[k].result.Some?
            && (forall i :: 0 <= i < k ==> steps[i].result.None?)
            && err.value == Wrapped(steps[k].context, steps[k].result.value))
  {
    RunStepsPrefix(steps);
    RunStepsSuccess(steps);
    RunStepsFailure(steps);
  }

  // ---------------------------------------------------------------------
  // logGatherBootstrap

  /** The three steps of the gather protocol, with what the remote side
      answers to each. */
  function Protocol(t: Target, directory: string, keys: seq<string>, remote: Remote, now: Time): seq<Step> {
    var address := Address(t.bootstrap, t.port);
    var command := GatherCommand(t.masters);
    var file := ArchivePath(directory, now);
    [ Step(Dial(User, address, keys), remote.dial(User, address, keys), ConnectContext),
      Step(RunRemote(command), remote.run(command), RunContext),
      Step(Pull(RemoteBundle, file), remote.pull(RemoteBundle, file), PullContext) ]
  }

  /** What logGatherBootstrap does against `remote` at clock reading `now`:
      the protocol's outcome, reporting the local archive on success. */
  function Gather(t: Target, directory: string, keys: seq<string>, remote: Remote, now: Time): Outcome {
    var (err, evs) := RunSteps(Protocol(t, directory, keys, remote, now));
    Outcome(err, if err.None? then Some(ArchivePath(directory, now)) else None, evs)
  }

  /** logGatherBootstrap. */
  method LogGatherBootstrap(
    bootstrap: string, port: nat, masters: seq<string>, directory: string,
    keys: seq<string>, remote: Remote, now: Time)
    returns (o: Outcome)
    ensures o == Gather(Target(bootstrap, port, masters), directory, keys, remote, now)
  {
    ghost var steps := Protocol(Target(bootstrap, port, masters), directory, keys, remote, now);
    var address := Address(bootstrap, port);
    var events := [Dial(User, address, keys)];
    var err := remote.dial(User, address, keys);
    if err.Some? {
      return Outcome(Some(Wrapped(ConnectContext, err.value)), None, events);
    }
    var command := GatherCommand(masters);
    events := events + [RunRemote(command)];
    err := remote.run(command);
    if err.Some? {
      assert RunSteps(steps[1..]) == (Some(Wrapped(RunContext, err.value)), [RunRemote(command)]);
      return Outcome(Some(Wrapped(RunContext, err.value)), None, events);
    }
    var file := PathJoin(directory, "log-bundle-" + Format(now) + ".tar.gz");
    events := events + [Pull(RemoteBundle, file)];
    err := remote.pull(RemoteBundle, file);
    assert steps[1..][1..] == steps[2..] && steps[2..][1..] == [];
    assert events[1..] == [RunRemote(command)] + [Pull(RemoteBundle, file)];
    if err.Some? {
      assert RunSteps(steps[2..]) == (Some(Wrapped(PullContext, err.value)), [Pull(RemoteBundle, file)]);
      assert RunSteps(steps[1..]) == (Some(Wrapped(PullContext, err.value)), events[1..]);
      return Outcome(Some(Wrapped(PullContext, err.value)), None, events);
    }
    assert RunSteps(steps[2..][1..]) == (None, []);
    assert [Pull(RemoteBundle, file)] + [] == [Pull(RemoteBundle, file)];
    assert RunSteps(steps[2..]) == (None, [Pull(RemoteBundle, file)]);
    assert RunSteps(steps[1..]) == (None, events[1..]);
    return Outcome(None, Some(file), events);
  }

  /** Step order: connect, run, pull, each attempted only after the previous
      one succeeded; the first failure is returned with its own context and
      no archive is reported; success reports the archive after all three. */
  lemma GatherSteps(t: Target, directory: string, keys: seq<string>, remote: Remote, now: Time)
    ensures var o := Gather(t, directory, keys, remote, now);
      var address := Address(t.bootstrap, t.port);
      var command := GatherCommand(t.masters);
      var file := ArchivePath(directory, now);
      var all := [Dial(User, address, keys), RunRemote(command), Pull(RemoteBundle, file)];
      1 <= |o.events| <= 3 && o.events == all[..|o.events|]
      && (o.err.None? <==> remote.dial(User, address, keys).None?
                           && remote.run(command).None? && remote.pull(RemoteBundle, file).None?)
      && (o.err.None? ==> o.events == all && o.artifact == Some(file))
      && (o.err.Some? ==> o.artifact.None?)
      && (remote.dial(User, address, keys).Some? ==> |o.events| == 1)
      && (remote.dial(User, address, keys).None? && remote.run(command).Some? ==> |o.events| == 2)
      && ((remote.dial(User, address, keys).None? && remote.run(command).None?
           && remote.pull(RemoteBundle, file).Some?) ==> |o.events| == 3)
      && (remote.dial(User, address, keys).Some? ==>
            o.err == Some(Wrapped(ConnectContext, remote.dial(User, address, keys).value)))
      && (remote.dial(User, address, keys).None? && remote.run(command).Some? ==>
            o.err == Some(Wrapped(RunContext, remote.run(command).value)))
      && (remote.dial(User, address, keys).None? && remote.run(command).None?
          && remote.pull(RemoteBundle, file).Some? ==>
            o.err == Some(Wrapped(PullContext, remote.pull(RemoteBundle, file).value)))
  {
    var steps := Protocol(t, directory, keys, remote, now);
    RunStepsSpec(steps);
    var (err, evs) := RunSteps(steps);
    assert EventsOf(steps) == [steps[0].event, steps[1].event, steps[2].event];
    if err.Some? {
      assert 1 <= |evs|;
    } else {
      assert |evs| == 3;
    }
  }

  // ---------------------------------------------------------------------
  // What the built strings mean to their readers

  /** The part after the last ':', if there is one. */
  function LastColon(s: string): (r: Option<nat>)
    ensures r.Some? ==> r.value < |s| && s[r.value] == ':' && ':' !in s[r.value + 1..]
    ensures r.None? ==> ':' !in s
  {
    if s == [] then None
    else if s[|s| - 1] == ':' then Some(|s| - 1)
    else
      var r := LastColon(s[..|s| - 1]);
      assert s == s[..|s| - 1] + [s[|s| - 1]];
      r
  }

  /** The position of the first `c` in `s`, if any. */
  function IndexOf(s: string, c: char): (r: Option<nat>)
    ensures r.Some? ==> r.value < |s| && s[r.value] == c && c !in s[..r.value]
    ensures r.None? ==> c !in s
  {
    if s == [] then None
    else if s[0] == c then Some(0)
    else
      match IndexOf(s[1..], c)
      case None => None
      case Some(i) =>
        assert s[..i + 1] == [s[0]] + s[1..][..i];
        Some(i + 1)
  }

  /** Go's `net.SplitHostPort` followed by reading a numeric port, which is
      how the SSH dial takes the target apart. The host ends at the last
      colon. A host in brackets must close just before that colon and loses
      its brackets. An unbracketed host must hold no colon ("too many
      colons"). No bracket may remain outside the brackets of the host. */
  function SplitHostPort(address: string): Option<(string, nat)> {
    match LastColon(address)
    case None => None
    case Some(i) =>
      var digits := address[i + 1..];
      var split: Option<(string, nat, nat)> :=
        if address[0] == '[' then
          match IndexOf(address, ']')
          case None => None
          case Some(end) => if end + 1 == i then Some((address[1..end], 1, end + 1)) else None
        else if ':' in address[..i] then None
        else Some((address[..i], 0, 0));
      match split
      case None => None
      case Some((host, j, k)) =>
        if '[' in address[j..] || ']' in address[k..] then None
        else if digits != [] && AllDigits(digits) then Some((host, DigitsValue(digits)))
        else None
  }

  lemma {:induction false} LastColonOfSuffix(prefix: string, tail: string)
    requires ':' !in tail
    ensures LastColon(prefix + ":" + tail) == Some(|prefix|)
    decreases |tail|
  {
    var s := prefix + ":" + tail;
    if tail != [] {
      assert s[..|s| - 1] == prefix + ":" + tail[..|tail| - 1];
      assert s[|s| - 1] == tail[|tail| - 1];
      LastColonOfSuffix(prefix, tail[..|tail| - 1]);
    }
  }

  /** The unbracketed case of the split, once its checks are known to pass. */
  lemma SplitUnbracketed(address: string, i: nat)
    requires LastColon(address) == Some(i) && address[0] != '['
    requires ':' !in address[..i] && '[' !in address && ']' !in address
    requires address[i + 1..] != [] && AllDigits(address[i + 1..])
    ensures SplitHostPort(address) == Some((address[..i], DigitsValue(address[i + 1..])))
  {
  }

  /** Where the colon of a connection target is, and what lies around it. */
  lemma AddressParts(host: string, port: nat)
    requires ':' !in host && '[' !in host && ']' !in host
    ensures var a := Address(host, port);
      LastColon(a) == Some(|host|) && a[0] != '['
      && a[..|host|] == host && a[|host| + 1..] == Decimal(port)
      && '[' !in a && ']' !in a
  {
    var d := Decimal(port);
    var tail := ":" + d;
    var a := Address(host, port);
    assert a == host + tail;
    assert ':' !in d && '[' !in d && ']' !in d by {
      forall k | 0 <= k < |d| ensures d[k] != ':' && d[k] != '[' && d[k] != ']' {
        assert IsDigit(d[k]);
      }
    }
    assert '[' !in tail && ']' !in tail by {
      assert tail == [':'] + d;
    }
    LastColonOfSuffix(host, d);
    assert a[..|host|] == host;
    assert a[|host|..] == tail;
    assert a[|host| + 1..] == d by {
      assert a[|host| + 1..] == tail[1..];
    }
    assert a[0] != '[' by {
      if host != [] { assert a[0] == host[0]; } else { assert a[0] == tail[0]; }
    }
  }

  /** The connection target reads back as the bootstrap host and the port
      whenever the host holds no colon and no bracket (a host name or an IPv4
      address). */
  lemma AddressRoundTrip(host: string, port: nat)
    requires ':' !in host && '[' !in host && ']' !in host
    ensures SplitHostPort(Address(host, port)) == Some((host, port))
  {
    AddressParts(host, port);
    SplitUnbracketed(Address(host, port), |host|);
    PadValue(port, 1);
  }

  /** The target is written with "%s:%d" and not `net.JoinHostPort`, so a
      host that holds a colon, such as an unbracketed IPv6 address, gives a
      target the dial cannot take apart. */
  lemma ColonHostRejected(host: string, port: nat)
    requires ':' in host && host[0] != '['
    ensures SplitHostPort(Address(host, port)) == None
  {
    var d := Decimal(port);
    assert ':' !in d;
    LastColonOfSuffix(host, d);
    var a := Address(host, port);
    assert a[..|host|] == host;
    assert a[0] == host[0];
  }

  /** For instance the IPv6 loopback address. */
  lemma LoopbackRejected()
    ensures Address("::1", 22) == "::1:22"
    ensures SplitHostPort(Address("::1", 22)) == None
  {
    assert Decimal(22) == "22";
    ColonHostRejected("::1", 22);
  }

  /** The remote command always starts with the script and one space; with no
      masters nothing follows that space. */
  lemma CommandShape(masters: seq<string>)
    ensures GatherCommand(masters)[..|GatherScript| + 1] == GatherScript + " "
    ensures masters == [] ==> GatherCommand(masters) == GatherScript + " "
    ensures |masters| == 1 ==> GatherCommand(masters) == GatherScript + " " + masters[0]
  {
  }

  /** Split at spaces, the command is the script followed by exactly the
      master addresses if and only if every master is a non-empty string
      without spaces; an empty list gives a call without arguments. */
  lemma CommandArguments(masters: seq<string>)
    ensures Fields(GatherCommand(masters)) == [GatherScript] + masters
        <==> forall m :: m in masters ==> IsWord(m)
  {
    var rest := Join(masters, " ");
    assert GatherCommand(masters) == GatherScript + (" " + rest);
    FieldsOfWord(GatherScript, " " + rest);
    FieldsOfSpace(rest);
    if forall m :: m in masters ==> IsWord(m) {
      FieldsOfJoin(masters);
    }
    if Fields(GatherCommand(masters)) == [GatherScript] + masters {
      FieldsAreWords(GatherCommand(masters));
      forall m | m in masters ensures IsWord(m) {
        assert m in Fields(GatherCommand(masters));
      }
    }
  }

  /** The local archive is `log-bundle-<timestamp>.tar.gz` inside the
      directory, and its name gives back the capture time to the second. */
  lemma ArchiveNameTimestamp(directory: string, now: Time)
    requires Valid(now)
    ensures var name := ArchiveName(now);
      var path := ArchivePath(directory, now);
      |name| == 32 && name[..11] == "log-bundle-" && name[25..] == ".tar.gz"
      && Parse(name[11..25]) == Some(Truncate(now))
      && path[|path| - |name|..] == name
      && (directory == "" ==> path == name)
      && (directory != "" ==> path[..|directory|] == directory && path[|path| - |name| - 1] == '/')
      && (directory != "" ==>
            path[..|path| - |name|] == (if directory[|directory| - 1] == '/' then directory else directory + "/"))
  {
    FormatRoundTrip(now);
    var name := ArchiveName(now);
    assert name[11..25] == Format(now);
    PathJoinParts(directory, name);
  }

  /** Two gathers into the same directory name the same archive exactly when
      they capture in the same second. */
  lemma ArchiveCollision(directory: string, t1: Time, t2: Time)
    requires Valid(t1) && Valid(t2)
    ensures ArchivePath(directory, t1) == ArchivePath(directory, t2) <==> Truncate(t1) == Truncate(t2)
  {
    FormatCollision(t1, t2);
    FormatRoundTrip(t1);
    FormatRoundTrip(t2);
    var n1, n2 := ArchiveName(t1), ArchiveName(t2);
    if ArchivePath(directory, t1) == ArchivePath(directory, t2) {
      assert n1 == n2;
      assert n1[11..25] == Format(t1) && n2[11..25] == Format(t2);
    }
  }

  /** Archive names of successive captures sort in capture order. */
  lemma ArchiveNamesSortable(t1: Time, t2: Time)
    requires Valid(t1) && Valid(t2) && Earlier(t1, t2)
    ensures LexLess(ArchiveName(t1), ArchiveName(t2))
  {
    FormatSortable(t1, t2);
    FormatRoundTrip(t1);
    FormatRoundTrip(t2);
    LexLessPrefix(Format(t1), Format(t2), ".tar.gz", ".tar.gz");
    LexLessCommonPrefix("log-bundle-", Format(t1) + ".tar.gz", Format(t2) + ".tar.gz");
    assert ArchiveName(t1) == "log-bundle-" + (Format(t1) + ".tar.gz");
    assert ArchiveName(t2) == "log-bundle-" + (Format(t2) + ".tar.gz");
  }
}
