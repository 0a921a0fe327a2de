# GrpcLoggingRpc, modelled in Dafny

This project models the gRPC facade of the Cloud Logging client library,
`GrpcLoggingRpc`. The facade owns three generated sub-clients (config,
logging, metrics) that share one client context. It exposes each remote
operation as a future that has gone through one error-translation step. It
also tears everything down once when it is closed.

Four pieces of behaviour are modelled:

- `translation.dfy` (module `Translation`) covers `translate`. A future is
  modelled by the outcome it resolves to (`Outcome<V>`). The result is a
  `Translated<V>`: a value, absent (null) or a raised exception.
  `ApiFutures.catching` and the anonymous handler are kept as two functions,
  `Catching` and `ReturnNullOrWrap`, so the structure matches the source.
- `facade.dfy` (module `Facade`) covers the operation table. Each operation
  is an `Op` constructor. `SubClient` gives the sub-client the operation is
  routed to. `PolicyOf` gives its `(idempotent, returnNullOn)` arguments.
  `Call` composes routing, the remote call and `Translate`. The remote side
  is a function parameter `remote(service, op)`, which stands for what the
  routed sub-client's callable resolves to. Each operation's contract is
  stated against an independent description of it: its verb (`VerbOf`) and
  what it acts on (`SubjectOf`).
- `transport.dfy` (module `Transport`) covers the constructor's choice
  between a plaintext channel and a secure one. `Contains` models
  `String.contains` and is proved equal to "some occurrence exists".
  `BuildContext` gives the client context each branch builds.
- `lifecycle.dfy` (module `Lifecycle`) covers the facade object. The class
  `GrpcLoggingRpc` has the source's final fields as `const`s and the
  `closed` flag as a `var`. The exception is `executorFactory`: it is not a
  field of the model. Its one use, `release(executor)`, is recorded as the
  `ReleaseExecutor` event. A ghost log `released` records each foreign
  release call. `Release` can only be called once `closed` is set, so the
  model shows that the flag is raised before anything is released.
  `Valid()` ties the log to the flag: it is empty while open, and it is
  exactly `TeardownEvents` once closed.

`GrpcLoggingRpc.java:166-238` defines 14 facade operations: five on sinks,
delete-log, write, list-entries, list-descriptors and five on metrics. All 14
are modelled.

On the plaintext branch the client context registers no background
resources (`GrpcLoggingRpc.java:97-101`). So the `ManagedChannel` built at
lines 93-96 is not among the releases that `close()` performs.
`Lifecycle.PlaintextTeardown` states this.

## Model

| member | source | states |
|---|---|---|
| Translation.ReturnNullOnSet | google-cloud-logging/src/main/java/com/google/cloud/logging/spi/v2/GrpcLoggingRpc.java:146-151 | the suppression set contains exactly the codes passed as varargs, and it is empty when none are passed |
| Translation.Catching | google-cloud-logging/src/main/java/com/google/cloud/logging/spi/v2/GrpcLoggingRpc.java:152-155 | a success passes through unchanged, a GrpcApiException failure goes to the handler, and any other failure propagates unchanged |
| Translation.CatchingIgnoresHandler | google-cloud-logging/src/main/java/com/google/cloud/logging/spi/v2/GrpcLoggingRpc.java:152-155 | outside a GrpcApiException failure, the handler does not affect the result |
| Translation.ReturnNullOrWrap | google-cloud-logging/src/main/java/com/google/cloud/logging/spi/v2/GrpcLoggingRpc.java:157-161 | a caught GrpcApiException gives null exactly when its code is in the suppression set, and otherwise becomes a LoggingException wrapping it |
| Translation.Translate | google-cloud-logging/src/main/java/com/google/cloud/logging/spi/v2/GrpcLoggingRpc.java:144-163 | a success passes through unchanged; a gRPC status failure becomes absent iff its code is listed, and is otherwise wrapped in a LoggingException; any other failure propagates unchanged; with no codes listed the result is never absent; a raw GrpcApiException never reaches the caller |
| Translation.AbsentIff | google-cloud-logging/src/main/java/com/google/cloud/logging/spi/v2/GrpcLoggingRpc.java:152-163 | the translated result is absent exactly when the outcome is a gRPC status failure whose code is listed |
| Translation.IdempotentIgnored | google-cloud-logging/src/main/java/com/google/cloud/logging/spi/v2/GrpcLoggingRpc.java:144-163 | the `idempotent` argument never changes the translation |
| Translation.OnlyCodeSetMatters | google-cloud-logging/src/main/java/com/google/cloud/logging/spi/v2/GrpcLoggingRpc.java:146-151 | two code lists with the same members give the same translation, whatever their order or repetition |
| Facade.SubClient | google-cloud-logging/src/main/java/com/google/cloud/logging/spi/v2/GrpcLoggingRpc.java:166-238 | sink operations use the config client, metric operations use the metrics client, and delete-log, write, list-entries and list-descriptors use the logging client |
| Facade.PolicyOf | google-cloud-logging/src/main/java/com/google/cloud/logging/spi/v2/GrpcLoggingRpc.java:166-238 | only write is non-idempotent; get and delete operations suppress exactly NOT_FOUND; create, update, list and write suppress nothing |
| Facade.Call | google-cloud-logging/src/main/java/com/google/cloud/logging/spi/v2/GrpcLoggingRpc.java:166-238 | a facade call returns the routed sub-client's success; it is absent exactly on NOT_FOUND for a get or delete; any other status failure becomes a LoggingException; a non-gRPC failure propagates unchanged |
| Facade.CallUsesRoutedClientOnly | google-cloud-logging/src/main/java/com/google/cloud/logging/spi/v2/GrpcLoggingRpc.java:166-238 | a facade call depends only on the answer of the sub-client it is routed to |
| Facade.NoSuppressionNeverAbsent | google-cloud-logging/src/main/java/com/google/cloud/logging/spi/v2/GrpcLoggingRpc.java:166-238 | create, update, list and write operations never resolve to absent |
| Facade.GetMissingSinkIsAbsent | google-cloud-logging/src/main/java/com/google/cloud/logging/spi/v2/GrpcLoggingRpc.java:176-179 | get-sink failing with NOT_FOUND resolves to absent |
| Facade.DeleteExistingMetricSucceeds | google-cloud-logging/src/main/java/com/google/cloud/logging/spi/v2/GrpcLoggingRpc.java:234-238 | a successful delete-metric resolves to the same payload |
| Facade.WriteDeniedIsRaised | google-cloud-logging/src/main/java/com/google/cloud/logging/spi/v2/GrpcLoggingRpc.java:196-199 | write failing with PERMISSION_DENIED resolves to a LoggingException wrapping that failure |
| Facade.ListSinksInternalIsRaised | google-cloud-logging/src/main/java/com/google/cloud/logging/spi/v2/GrpcLoggingRpc.java:181-184 | list-sinks failing with INTERNAL is surfaced as a LoggingException, not suppressed |
| Transport.Contains | google-cloud-logging/src/main/java/com/google/cloud/logging/spi/v2/GrpcLoggingRpc.java:91 | `host.contains(pattern)` holds exactly when the pattern occurs at some index of the host |
| Transport.UsesPlaintext | google-cloud-logging/src/main/java/com/google/cloud/logging/spi/v2/GrpcLoggingRpc.java:91-92 | the plaintext branch is taken exactly when "localhost" occurs somewhere in the host or the credentials are NoCredentials |
| Transport.ProviderTransport | google-cloud-logging/src/main/java/com/google/cloud/logging/spi/v2/GrpcLoggingRpc.java:107-114 | the provider's transport receives the executor iff the provider needs one, and carries the provider's background resources |
| Transport.BuildContext | google-cloud-logging/src/main/java/com/google/cloud/logging/spi/v2/GrpcLoggingRpc.java:91-121 | the plaintext branch (host contains "localhost" or NoCredentials) has no credentials, a plaintext channel to the host on the executor, and no background resources; otherwise the context has the resolved credentials and exactly the transport `ProviderTransport` builds, which gets this executor iff the provider needs one, and that transport's own background-resource list |
| Transport.PlaintextIgnoresProviders | google-cloud-logging/src/main/java/com/google/cloud/logging/spi/v2/GrpcLoggingRpc.java:91-101 | on the plaintext branch neither the credentials provider nor the transport provider affects the context |
| Transport.LocalhostIsPlaintext | google-cloud-logging/src/main/java/com/google/cloud/logging/spi/v2/GrpcLoggingRpc.java:91-92 | any host containing "localhost" takes the plaintext branch, whatever the credentials |
| Lifecycle.ResourceCloses | google-cloud-logging/src/main/java/com/google/cloud/logging/spi/v2/GrpcLoggingRpc.java:249-251 | the i-th resource release closes the i-th background resource, one release per resource |
| Lifecycle.ResourceClosesAppend | google-cloud-logging/src/main/java/com/google/cloud/logging/spi/v2/GrpcLoggingRpc.java:249-251 | closing two resource lists one after the other gives the same releases as closing their concatenation |
| Lifecycle.TeardownEvents | google-cloud-logging/src/main/java/com/google/cloud/logging/spi/v2/GrpcLoggingRpc.java:246-252 | the first close performs 4 + n releases: config, logging, metrics, then the k-th background resource at position 3 + k, then the executor release |
| Lifecycle.PlaintextTeardown | google-cloud-logging/src/main/java/com/google/cloud/logging/spi/v2/GrpcLoggingRpc.java:93-101 | on the plaintext branch, teardown consists of the three sub-client closes and the executor release and nothing else; the ManagedChannel is not among the releases that `close()` performs |
| Lifecycle.TeardownOrdered | google-cloud-logging/src/main/java/com/google/cloud/logging/spi/v2/GrpcLoggingRpc.java:246-252 | teardown closes config, logging and metrics first, then the background resources in list order, and releases the executor last |
| Lifecycle.TeardownExactlyOnce | google-cloud-logging/src/main/java/com/google/cloud/logging/spi/v2/GrpcLoggingRpc.java:241-253 | when the transport reports each background resource once, no release happens twice; the executor is released once |
| Lifecycle.GrpcLoggingRpc.constructor | google-cloud-logging/src/main/java/com/google/cloud/logging/spi/v2/GrpcLoggingRpc.java:85-138 | a new facade is open, has released nothing, holds the context of the chosen branch, and binds all three sub-clients to that context |
| Lifecycle.GrpcLoggingRpc.Release | google-cloud-logging/src/main/java/com/google/cloud/logging/spi/v2/GrpcLoggingRpc.java:245-252 | a release can only happen after `closed` is set, and it appends exactly one event to the log |
| Lifecycle.GrpcLoggingRpc.CloseBackgroundResources | google-cloud-logging/src/main/java/com/google/cloud/logging/spi/v2/GrpcLoggingRpc.java:249-251 | the loop closes every background resource of the context in list order and appends nothing else to the log |
| Lifecycle.GrpcLoggingRpc.Close | google-cloud-logging/src/main/java/com/google/cloud/logging/spi/v2/GrpcLoggingRpc.java:241-253 | the first call sets `closed` and performs exactly the teardown sequence; a later call releases nothing; nothing but `closed` and the log changes |
| Lifecycle.CloseTwice | google-cloud-logging/src/main/java/com/google/cloud/logging/spi/v2/GrpcLoggingRpc.java:241-245 | from any valid state, closing twice leaves the facade valid and closed, with the teardown sequence performed exactly once |

## Left out

- The retry settings that the constructor applies to every unary method
  (`GrpcLoggingRpc.java:122-135`) are left out. They are opaque library
  builder configuration.
- Building the gRPC channel, the credentials provider, the channel provider
  and the transport provider are foreign library calls. They appear only
  as parameters of the constructor: `resolved` credentials and a
  `TransportProvider` that says whether it needs an executor and which
  background resources its transport has.
- The exceptions the constructor wraps into an `IOException`
  (`GrpcLoggingRpc.java:139-140`) are left out, so the model's constructor
  always succeeds. On that path the executor taken from the factory at
  line 88 is never released.
- Exceptions thrown by a sub-client's or a resource's `close()` are left
  out. In the source such an exception ends `close()` with the remaining
  resources unreleased and `closed` already true (lines 245-246). The
  model's releases never fail.
- Concurrent `close()` calls are left out. The flag is a plain boolean with
  no synchronisation (line 83), so teardown is modelled sequentially.
- Futures, asynchrony and cancellation are left out. A future is its
  resolved outcome. A cancellation or any other local failure is an
  `OtherException`, which `Translate` passes through unchanged.
- The generated sub-client stubs and the protobuf request and response
  messages are opaque. Responses are a type parameter `V`. Requests are
  implied by the operation, through the `remote` function.
- The source does not check the `closed` flag in its facade methods, so a
  call after `close()` is issued as usual. `Facade.Call` likewise does not
  depend on the flag.
- Lifecycle.TeardownExactlyOnce: assumes the transport reports each
  background resource once. The source closes whatever list it is given,
  so a repeated resource would be closed twice there too.
