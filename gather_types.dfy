/** Values shared by every part of the bootstrap gather: Go's (value, error)
    results, the error values the command produces, and the trace of effects
    (calls into collaborators and log lines) that one invocation performs. */
module GatherTypes {

  datatype Option<+T> = None | Some(value: T)

  /** A Go result `(T, error)` where the error is either nil or the value is meaningless. */
  datatype Result<+T> = Ok(value: T) | Err(error: Error)

  /** Go error values as this command produces and inspects them. */
  datatype Error =
    /** errUnSupportedGatherPlatform: the only error kind the caller tests for by type. */
    | Unsupported(message: string)
    /** errors.Wrap / errors.Wrapf: a context message around a cause. */
    | Wrapped(context: string, cause: Error)
    /** Any other error: errors.New, or an error produced by a collaborator. */
    | Failure(message: string)

  /** One effect of an invocation, in the order performed. */
  datatype Event =
    | StatState(path: string)                           // os.Stat of the state file
    | OpenAssetStore(directory: string)                 // assetstore.NewStore
    | FetchInstallConfig                                // assetStore.Fetch(config)
    | ReadState(path: string)                           // terraform.ReadState
    | BootstrapIP(platform: string)                     // <provider>.BootstrapIP
    | ControlPlaneIPs(platform: string)                 // <provider>.ControlPlaneIPs
    | LogError(error: Error)                            // logrus.Error
    | Dial(user: string, address: string, keys: seq<string>)  // ssh.NewClient
    | RunRemote(command: string)                        // ssh.Run
    | Pull(remote: string, local: string)               // ssh.PullFileTo

  predicate IsExtractorCall(e: Event) {
    e.BootstrapIP? || e.ControlPlaneIPs?
  }

  predicate IsRemoteCall(e: Event) {
    e.Dial? || e.RunRemote? || e.Pull?
  }

  /** What an invocation ends with: the returned error, the archive it reports
      as captured (only on success), and the effects it performed. */
  datatype Outcome = Outcome(err: Option<Error>, artifact: Option<string>, events: seq<Event>)

  /** The outcome `o` preceded by the effects `pre`. */
  function Then(pre: seq<Event>, o: Outcome): (r: Outcome)
    ensures r.err == o.err && r.artifact == o.artifact && |r.events| == |pre| + |o.events|
  {
    o.(events := pre + o.events)
  }
}
