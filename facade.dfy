/** The public operation surface of the logging RPC facade. Each operation
    calls one callable of one of the three generated sub-clients and pipes
    the result through `Translation.Translate` with a fixed policy. */
module Facade {
  import opened Translation

  /** The three sub-clients the facade owns. */
  datatype Service = ConfigService | LoggingService | MetricsService

  /** The facade's operations, one per overload of `create`, `update`,
      `get`, `list`, `delete` and `write`. */
  datatype Op =
    | CreateSink | UpdateSink | GetSink | ListSinks | DeleteSink
    | DeleteLog | WriteLogEntries | ListLogEntries | ListMonitoredResourceDescriptors
    | CreateLogMetric | UpdateLogMetric | GetLogMetric | ListLogMetrics | DeleteLogMetric

  /** What an operation does, independently of how the facade routes it. */
  datatype Verb = Create | Update | Get | List | Delete | Write

  /** What an operation acts on. */
  datatype Subject = Sink | Log | LogEntries | ResourceDescriptors | LogMetric

  function VerbOf(op: Op): Verb
  {
    match op
    case CreateSink | CreateLogMetric => Create
    case UpdateSink | UpdateLogMetric => Update
    case GetSink | GetLogMetric => Get
    case ListSinks | ListLogEntries | ListMonitoredResourceDescriptors | ListLogMetrics => List
    case DeleteSink | DeleteLog | DeleteLogMetric => Delete
    case WriteLogEntries => Write
  }

  function SubjectOf(op: Op): Subject
  {
    match op
    case CreateSink | UpdateSink | GetSink | ListSinks | DeleteSink => Sink
    case DeleteLog => Log
    case WriteLogEntries | ListLogEntries => LogEntries
    case ListMonitoredResourceDescriptors => ResourceDescriptors
    case CreateLogMetric | UpdateLogMetric | GetLogMetric | ListLogMetrics | DeleteLogMetric => LogMetric
  }

  /** The `(idempotent, returnNullOn...)` arguments an operation passes to
      `translate`. */
  datatype Policy = Policy(idempotent: bool, returnNullOn: seq<Code>)

  /** The sub-client whose callable an operation invokes: sink operations go
      to the config client, metric operations to the metrics client, and
      everything about logs, entries and descriptors to the logging client. */
  function SubClient(op: Op): (s: Service)
    ensures s == ConfigService <==> SubjectOf(op) == Sink
    ensures s == MetricsService <==> SubjectOf(op) == LogMetric
    ensures s == LoggingService <==> SubjectOf(op) in {Log, LogEntries, ResourceDescriptors}
  {
    match op
    case CreateSink | UpdateSink | GetSink | ListSinks | DeleteSink => ConfigService
    case DeleteLog | WriteLogEntries | ListLogEntries | ListMonitoredResourceDescriptors => LoggingService
    case CreateLogMetric | UpdateLogMetric | GetLogMetric | ListLogMetrics | DeleteLogMetric => MetricsService
  }

  /** The fixed translation policy of each operation: get and delete
      operations suppress exactly NOT_FOUND, all others suppress nothing,
      and only `write` is declared non-idempotent. */
  function PolicyOf(op: Op): (p: Policy)
    ensures p.idempotent <==> VerbOf(op) != Write
    ensures VerbOf(op) in {Get, Delete} ==> ReturnNullOnSet(p.returnNullOn) == {NotFound}
    ensures VerbOf(op) !in {Get, Delete} ==> ReturnNullOnSet(p.returnNullOn) == {}
  {
    match op
    case CreateSink => Policy(true, [])
    case UpdateSink => Policy(true, [])
    case GetSink => Policy(true, [NotFound])
    case ListSinks => Policy(true, [])
    case DeleteSink => Policy(true, [NotFound])
    case DeleteLog => Policy(true, [NotFound])
    case WriteLogEntries => Policy(false, [])
    case ListLogEntries => Policy(true, [])
    case ListMonitoredResourceDescriptors => Policy(true, [])
    case CreateLogMetric => Policy(true, [])
    case UpdateLogMetric => Policy(true, [])
    case GetLogMetric => Policy(true, [NotFound])
    case ListLogMetrics => Policy(true, [])
    case DeleteLogMetric => Policy(true, [NotFound])
  }

  /** One facade call: `remote(service, op)` is what the named sub-client's
      callable resolves to for this operation's request. The call consults
      only the sub-client the operation is routed to, and its result is the
      translated outcome: absent exactly for NOT_FOUND on a get or delete,
      a LoggingException around any other status failure, and any non-gRPC
      failure unchanged. */
  function Call<V>(op: Op, remote: (Service, Op) -> Outcome<V>): (r: Translated<V>)
    ensures var o := remote(SubClient(op), op);
      && (o.Success? ==> r == Value(o.value))
      && (o.Failure? && o.error.GrpcApiException? ==>
            if o.error.code == NotFound && VerbOf(op) in {Get, Delete} then r == Absent
            else r == Raised(LoggingException(o.error)))
      && (o.Failure? && !o.error.GrpcApiException? ==> r == Raised(o.error))
  {
    var p := PolicyOf(op);
    Translate(remote(SubClient(op), op), p.idempotent, p.returnNullOn)
  }

  /** Two back ends that agree on the routed sub-client's answer give the
      same facade result: no other sub-client is consulted. */
  lemma CallUsesRoutedClientOnly<V>(op: Op, remote1: (Service, Op) -> Outcome<V>, remote2: (Service, Op) -> Outcome<V>)
    requires remote1(SubClient(op), op) == remote2(SubClient(op), op)
    ensures Call(op, remote1) == Call(op, remote2)
  {
  }

  /** Create, update, list and write operations never resolve to absent. */
  lemma NoSuppressionNeverAbsent<V>(op: Op, remote: (Service, Op) -> Outcome<V>)
    requires VerbOf(op) !in {Get, Delete}
    ensures !Call(op, remote).Absent?
  {
  }

  /** Get-sink of a nonexistent sink: the remote call fails with NOT_FOUND and
      the facade resolves to absent. */
  lemma GetMissingSinkIsAbsent<V>(remote: (Service, Op) -> Outcome<V>, message: string)
    requires remote(ConfigService, GetSink) == Failure(GrpcApiException(NotFound, message))
    ensures Call(GetSink, remote) == Absent
  {
  }

  /** Delete-metric of an existing metric: the remote call succeeds and the
      facade resolves to the same (empty) payload. */
  lemma DeleteExistingMetricSucceeds<V>(remote: (Service, Op) -> Outcome<V>, empty: V)
    requires remote(MetricsService, DeleteLogMetric) == Success(empty)
    ensures Call(DeleteLogMetric, remote) == Value(empty)
  {
  }

  /** A write refused with PERMISSION_DENIED surfaces as a LoggingException
      wrapping the status failure. */
  lemma WriteDeniedIsRaised<V>(remote: (Service, Op) -> Outcome<V>, message: string)
    requires remote(LoggingService, WriteLogEntries) == Failure(GrpcApiException(PermissionDenied, message))
    ensures Call(WriteLogEntries, remote) == Raised(LoggingException(GrpcApiException(PermissionDenied, message)))
  {
  }

  /** A list-sinks call failing with INTERNAL is surfaced, not suppressed. */
  lemma ListSinksInternalIsRaised<V>(remote: (Service, Op) -> Outcome<V>, message: string)
    requires remote(ConfigService, ListSinks) == Failure(GrpcApiException(Internal, message))
    ensures Call(ListSinks, remote) == Raised(LoggingException(GrpcApiException(Internal, message)))
  {
  }
}
