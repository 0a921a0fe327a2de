/** The transport decision made by the facade's constructor: a plaintext
    channel for a local endpoint or when no credentials are configured, a
    secure transport from the channel provider otherwise. Channel building,
    credential resolution and the transport provider are foreign calls; the
    model keeps the branch decision and the resulting client context. */
module Transport {

  type ResourceId = nat
  type ExecutorId = nat

  /** The credentials in the options: the `NoCredentials` marker, or real
      credentials (opaque here). */
  datatype Credentials = NoCredentials | ServiceCredentials(id: nat)

  /** The parts of `LoggingOptions` the constructor branches on. */
  datatype Options = Options(host: string, credentials: Credentials)

  /** What the configured transport provider reports about itself: whether
      it needs an executor, and the background resources of the transport
      it builds. */
  datatype TransportProvider = TransportProvider(needsExecutor: bool, backgroundResources: seq<ResourceId>)

  /** The transport a client context is built on: a plaintext channel to the
      host running on the shared executor, or the provider's transport, built
      with the executor or without it. */
  datatype Channel =
    | PlaintextChannel(target: string, channelExecutor: ExecutorId)
    | ProvidedTransport(givenExecutor: Option<ExecutorId>, resources: seq<ResourceId>)

  datatype Option<T> = None | Some(value: T)

  /** The shared execution context handed to the three sub-clients. */
  datatype ClientContext = ClientContext(
    credentials: Option<Credentials>,
    executor: ExecutorId,
    transport: Channel,
    backgroundResources: seq<ResourceId>)

  /** `pat` occurs in `s` starting at index `i`. */
  predicate OccursAt(s: string, pat: string, i: nat)
  {
    i + |pat| <= |s| && s[i..i + |pat|] == pat
  }

  /** `s.contains(pat)`: some occurrence of `pat` in `s`. */
  function Contains(s: string, pat: string): (b: bool)
    ensures b <==> exists i: nat :: OccursAt(s, pat, i)
    decreases |s|
  {
    if |s| < |pat| then false
    else if s[..|pat|] == pat then
      assert OccursAt(s, pat, 0);
      true
    else
      var rest := Contains(s[1..], pat);
      ShiftOccurrence(s, pat);
      rest
  }

  /** An occurrence one position into `s` is an occurrence in `s[1..]`. */
  lemma OccursAtShift(s: string, pat: string, i: nat)
    requires |s| > 0
    ensures OccursAt(s, pat, i + 1) <==> OccursAt(s[1..], pat, i)
  {
  }

  /** When `pat` is not a prefix of `s`, it occurs in `s` exactly when it
      occurs in `s[1..]`. */
  lemma ShiftOccurrence(s: string, pat: string)
    requires |s| >= |pat| && s[..|pat|] != pat
    ensures (exists i: nat :: OccursAt(s, pat, i)) <==> (exists i: nat :: OccursAt(s[1..], pat, i))
  {
    if exists i: nat :: OccursAt(s, pat, i) {
      var i: nat :| OccursAt(s, pat, i);
      assert i != 0;
      OccursAtShift(s, pat, i - 1);
    }
    if exists i: nat :: OccursAt(s[1..], pat, i) {
      var i: nat :| OccursAt(s[1..], pat, i);
      OccursAtShift(s, pat, i);
    }
  }

  /** The constructor takes the plaintext branch exactly when the host
      contains "localhost" or the credentials are the NoCredentials marker. */
  predicate UsesPlaintext(options: Options)
    ensures UsesPlaintext(options) <==>
              (exists i: nat :: OccursAt(options.host, "localhost", i)) || options.credentials == NoCredentials
  {
    Contains(options.host, "localhost") || options.credentials == NoCredentials
  }

  /** Whether the executor was handed to the transport. */
  predicate ExecutorPassed(t: Channel)
  {
    match t
    case PlaintextChannel(_, _) => true
    case ProvidedTransport(e, _) => e.Some?
  }

  /** The transport the provider builds: `getTransport(executor)` when it
      needs an executor, `getTransport()` otherwise. */
  function ProviderTransport(provider: TransportProvider, executor: ExecutorId): (t: Channel)
    ensures t.ProvidedTransport? && t.resources == provider.backgroundResources
    ensures ExecutorPassed(t) <==> provider.needsExecutor
    ensures ExecutorPassed(t) ==> t.givenExecutor == Some(executor)
  {
    if provider.needsExecutor then ProvidedTransport(Some(executor), provider.backgroundResources)
    else ProvidedTransport(None, provider.backgroundResources)
  }

  /** The client context the constructor builds. `resolved` is what the
      credentials provider returns; it is only consulted on the secure
      branch. */
  function BuildContext(options: Options, executor: ExecutorId, resolved: Credentials, provider: TransportProvider): (ctx: ClientContext)
    ensures ctx.executor == executor
    // plaintext: no credentials, a plaintext channel to the host on the executor, nothing to clean up
    ensures UsesPlaintext(options) ==>
              && ctx.credentials == None
              && ctx.transport == PlaintextChannel(options.host, executor)
              && ctx.backgroundResources == []
    // secure: the resolved credentials, the provider's transport, and every background resource it reports
    ensures !UsesPlaintext(options) ==>
              && ctx.credentials == Some(resolved)
              && ctx.transport == ProviderTransport(provider, executor)
              && (ExecutorPassed(ctx.transport) <==> provider.needsExecutor)
              && ctx.backgroundResources == ctx.transport.resources == provider.backgroundResources
  {
    if UsesPlaintext(options) then
      ClientContext(None, executor, PlaintextChannel(options.host, executor), [])
    else
      var transport := ProviderTransport(provider, executor);
      ClientContext(Some(resolved), executor, transport, transport.resources)
  }

  /** On the plaintext branch neither the credentials provider nor the
      transport provider is consulted. */
  lemma PlaintextIgnoresProviders(options: Options, executor: ExecutorId,
                                  resolved1: Credentials, provider1: TransportProvider,
                                  resolved2: Credentials, provider2: TransportProvider)
    requires UsesPlaintext(options)
    ensures BuildContext(options, executor, resolved1, provider1) == BuildContext(options, executor, resolved2, provider2)
  {
  }

  /** A host naming a local endpoint always gets a plaintext channel,
      whatever the credentials. */
  lemma LocalhostIsPlaintext(prefix: string, suffix: string, credentials: Credentials)
    ensures UsesPlaintext(Options(prefix + "localhost" + suffix, credentials))
  {
    var host := prefix + "localhost" + suffix;
    assert host[|prefix|..|prefix| + 9] == "localhost";
    assert OccursAt(host, "localhost", |prefix|);
  }
}
