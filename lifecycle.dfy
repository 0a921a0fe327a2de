/** The facade object itself: its constructor builds the client context and
    the three sub-clients, and `Close` tears everything down once, in a fixed
    order. Each foreign release (a sub-client's `close()`, a background
    resource's `close()`, the executor factory's `release`) is recorded in a
    ghost log, so that order and exactly-once behaviour can be stated. */
module Lifecycle {
  import opened Transport
  import opened Facade

  /** One release performed during teardown. */
  datatype Event =
    | CloseClient(service: Service)
    | CloseResource(resource: ResourceId)
    | ReleaseExecutor(executor: ExecutorId)

  /** A generated sub-client bound to the shared client context. */
  datatype SubClientHandle = SubClientHandle(service: Service, context: ClientContext)

  /** Closing the background resources one by one, in list order. */
  function ResourceCloses(resources: seq<ResourceId>): (es: seq<Event>)
    ensures |es| == |resources|
    ensures forall i :: 0 <= i < |resources| ==> es[i] == CloseResource(resources[i])
  {
    if resources == [] then [] else [CloseResource(resources[0])] + ResourceCloses(resources[1..])
  }

  /** Closing two lists of resources one after the other is closing their
      concatenation. */
  lemma ResourceClosesAppend(a: seq<ResourceId>, b: seq<ResourceId>)
    ensures ResourceCloses(a + b) == ResourceCloses(a) + ResourceCloses(b)
  {
  }

  /** The full release sequence of the first `close()`. */
  function TeardownEvents(context: ClientContext, executor: ExecutorId): (es: seq<Event>)
    ensures |es| == |context.backgroundResources| + 4
    ensures es[0] == CloseClient(ConfigService) && es[1] == CloseClient(LoggingService)
    ensures es[2] == CloseClient(MetricsService)
    ensures forall k :: 0 <= k < |context.backgroundResources| ==>
              es[3 + k] == CloseResource(context.backgroundResources[k])
    ensures es[|es| - 1] == ReleaseExecutor(executor)
  {
    [CloseClient(ConfigService), CloseClient(LoggingService), CloseClient(MetricsService)]
    + ResourceCloses(context.backgroundResources)
    + [ReleaseExecutor(executor)]
  }

  /** The stage at which an event happens: sub-clients first (config,
      logging, metrics), then background resources, then the executor. */
  function Stage(e: Event): nat
  {
    match e
    case CloseClient(ConfigService) => 0
    case CloseClient(LoggingService) => 1
    case CloseClient(MetricsService) => 2
    case CloseResource(_) => 3
    case ReleaseExecutor(_) => 4
  }

  /** Teardown goes stage by stage, every sub-client is closed before any
      background resource, the resources are closed in list order, and the
      executor is released last. */
  lemma TeardownOrdered(context: ClientContext, executor: ExecutorId)
    ensures var es := TeardownEvents(context, executor);
      && (forall i, j :: 0 <= i < j < |es| ==> Stage(es[i]) <= Stage(es[j]))
      && es[..3] == [CloseClient(ConfigService), CloseClient(LoggingService), CloseClient(MetricsService)]
      && es[3..|es| - 1] == ResourceCloses(context.backgroundResources)
      && es[|es| - 1] == ReleaseExecutor(executor)
  {
  }

  /** No release happens twice, provided the transport reports every
      background resource once; in particular the executor is released
      exactly once. */
  lemma TeardownExactlyOnce(context: ClientContext, executor: ExecutorId)
    requires forall i, j :: 0 <= i < j < |context.backgroundResources| ==>
               context.backgroundResources[i] != context.backgroundResources[j]
    ensures var es := TeardownEvents(context, executor);
      forall i, j :: 0 <= i < j < |es| ==> es[i] != es[j]
  {
  }

  /** A facade built on the plaintext branch has no background resources,
      so its teardown closes the three sub-clients and releases the executor
      and nothing else: the plaintext channel itself is not among the
      releases. */
  lemma PlaintextTeardown(options: Options, executor: ExecutorId, resolved: Credentials, provider: TransportProvider)
    requires UsesPlaintext(options)
    ensures TeardownEvents(BuildContext(options, executor, resolved, provider), executor) ==
              [CloseClient(ConfigService), CloseClient(LoggingService), CloseClient(MetricsService),
               ReleaseExecutor(executor)]
  {
  }

  class GrpcLoggingRpc {
    const configClient: SubClientHandle
    const loggingClient: SubClientHandle
    const metricsClient: SubClientHandle
    const executor: ExecutorId
    const clientContext: ClientContext

    var closed: bool
    /** Every release performed so far, in order. */
    ghost var released: seq<Event>

    /** The three sub-clients share the client context, which runs on the
        facade's executor. Nothing is released before `close()`; once closed,
        the full teardown sequence has been performed, and nothing more. */
    ghost predicate Valid()
      reads this
    {
      && configClient == SubClientHandle(ConfigService, clientContext)
      && loggingClient == SubClientHandle(LoggingService, clientContext)
      && metricsClient == SubClientHandle(MetricsService, clientContext)
      && clientContext.executor == executor
      && released == if closed then TeardownEvents(clientContext, executor) else []
    }

    /** `new GrpcLoggingRpc(options)`, where `executor` is what the executor
        factory hands out, `resolved` what the credentials provider returns
        and `provider` the configured transport provider. */
    constructor (options: Options, executor: ExecutorId, resolved: Credentials, provider: TransportProvider)
      ensures Valid() && !closed
      ensures this.executor == executor
      ensures clientContext == BuildContext(options, executor, resolved, provider)
      ensures configClient == SubClientHandle(ConfigService, clientContext)
      ensures loggingClient == SubClientHandle(LoggingService, clientContext)
      ensures metricsClient == SubClientHandle(MetricsService, clientContext)
    {
      this.executor := executor;
      if UsesPlaintext(options) {
        clientContext := ClientContext(None, executor, PlaintextChannel(options.host, executor), []);
      } else {
        var transport;
        if provider.needsExecutor {
          transport := ProvidedTransport(Some(executor), provider.backgroundResources);
        } else {
          transport := ProvidedTransport(None, provider.backgroundResources);
        }
        clientContext := ClientContext(Some(resolved), executor, transport, transport.resources);
      }
      configClient := SubClientHandle(ConfigService, clientContext);
      loggingClient := SubClientHandle(LoggingService, clientContext);
      metricsClient := SubClientHandle(MetricsService, clientContext);
      closed := false;
      released := [];
    }

    /** One foreign release call. It can only happen once the object is
        marked closed. */
    method Release(e: Event)
      requires closed
      modifies this`released
      ensures released == old(released) + [e]
    {
      released := released + [e];
    }

    /** The loop of `close()` over the context's background resources: each
        one is closed, in list order. */
    method CloseBackgroundResources()
      requires closed
      modifies this`released
      ensures released == old(released) + ResourceCloses(clientContext.backgroundResources)
    {
      var resources := clientContext.backgroundResources;
      for i := 0 to |resources|
        invariant released == old(released) + ResourceCloses(resources[..i])
      {
        Release(CloseResource(resources[i]));
        assert resources[..i + 1] == resources[..i] + [resources[i]];
        ResourceClosesAppend(resources[..i], [resources[i]]);
      }
      assert resources[..|resources|] == resources;
    }

    /** `close()`: the first call marks the object closed, then closes the
        config, logging and metrics clients, every background resource in
        list order, and releases the executor; later calls change nothing. */
    method Close()
      requires Valid()
      modifies this`closed, this`released
      ensures Valid() && closed
      ensures old(closed) ==> released == old(released)
      ensures !old(closed) ==> released == TeardownEvents(clientContext, executor)
    {
      if closed {
        return;
      }
      closed := true;
      Release(CloseClient(configClient.service));
      Release(CloseClient(loggingClient.service));
      Release(CloseClient(metricsClient.service));
      CloseBackgroundResources();
      Release(ReleaseExecutor(executor));
    }
  }

  /** From either state, closing twice releases everything exactly as often
      as closing once. */
  method CloseTwice(rpc: GrpcLoggingRpc)
    requires rpc.Valid()
    modifies rpc
    ensures rpc.Valid() && rpc.closed && rpc.released == TeardownEvents(rpc.clientContext, rpc.executor)
  {
    rpc.Close();
    rpc.Close();
  }
}
