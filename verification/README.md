# PBFT replica execution step, modelled in Dafny

This project models the execution step of the b7s PBFT replica
(`consensus/pbft/execute.go`). The agreement layer calls that step once a
(view, sequence, digest) binding has a quorum. The step is the replica's
commit gate:

1. An unknown digest is an error.
2. A digest that is no longer pending is a silent no-op.
3. A sequence number other than `lastExecuted + 1` is a silent no-op.
4. Otherwise the step runs, in this order:
   - removes the digest from the pending set;
   - calls the workload executor once;
   - stops the request timer, and restarts it if work remains;
   - advances `lastExecuted`;
   - builds and caches the execution response;
   - runs the post-processors;
   - signs the response and routes it. The primary publishes it on the
     `cluster-primary` channel. Any other replica sends it to the primary.

The intake step (`Replica.Execute`) hands a client request to
`processRequest` and maps the outcome to a status code.

The replica state is an immutable datatype (`Replica.ReplicaState`). The
journal is a map from digest to request, the pending set is a set of
digests, and the timer is a boolean. Both entry points are pure functions.
The commit step returns a `Replica.Step`: the new state, the error, and the
effects in the order they happen (`Effects.Effect`). Intake returns a
`Replica.Reply`: the new state, the status code, the empty result and the
error; it records no effects. The replica's collaborators are
function-valued fields of `Replica.Env`:

- the executor;
- signing;
- JSON encoding;
- point-to-point send;
- the primary of a view;
- `processRequest`;
- the list of post-processors.

`Traces.Run` applies the step to a sequence of commit notifications. The
lemmas in `Traces` prove the safety properties over such runs:

- exactly-once execution per digest;
- gap-free sequence order;
- the timer tracks the backlog;
- every executed request has a cached response.

Go's `uint` is modelled as a 64-bit unsigned integer (`Uint64.Uint`), and
`lastExecuted + 1` wraps around (`Uint64.Inc`). This makes the "executed out
of order" check on lines 67-69 dead code except in one case:
`lastExecuted = 2^64 - 1` with sequence `0`. There the gate's own check lets
the wrapped sequence through, and the check logs its warning. `Replica.Apply`
states this as an if-and-only-if.

The model keeps the code's behaviour as written at these five points:

- An executor error is only logged. Its result is used as it came back, and
  `lastExecuted` advances anyway (lines 77-81, 95). The error is not turned
  into an error-coded result.
- A sequence ahead of the next one and a sequence behind it take the same
  silent no-op branch (lines 60-64). Neither returns an error or is buffered.
- The response is cached (line 113) before it is signed (line 122). Go copies
  the struct into the map, so the cached entry carries no signature. The
  message that is sent or published is the cached entry with the signature
  attached.
- The primary returns success even when JSON encoding fails. In that case
  nothing is published (lines 126-135).
- Intake keeps whatever state `processRequest` leaves, even when
  `processRequest` reports an error. The Go code mutates the replica in place,
  and `processRequest` is not part of this model.

## Model

| member | source | states |
|---|---|---|
| Replica.ExecuteCommitted | consensus/pbft/execute.go:40-64 | The commit gate. An unknown digest returns `UnknownRequest` with no state change and no effects. A known digest that is not pending, or a sequence other than `lastExecuted + 1` (ahead or behind), returns success with no state change and no executor call. Only when all three guards pass does the step execute. The journal, replica id and view never change. |
| Replica.Apply | consensus/pbft/execute.go:66-122 | The executing branch. Exactly this digest leaves pending and every other pending digest stays. `lastExecuted` becomes the sequence, which is the old value plus one. The executor is called exactly once, with the request's ID and payload. The timer was stopped and runs afterwards exactly when pending is non-empty. The cache gains the unsigned response for the request ID, built by `Messages.ResponseFor` from the executor's result, and no other cache entry changes. The post-processor invocations are exactly one per configured processor, in configuration order, each with (id, origin, payload, result), whether or not signing then fails. The error is that of signing and routing the cached entry. The log ends with that routing's deliveries, and nothing before them publishes or sends. The out-of-order warning appears exactly when the counter wraps. The effects run through the phases in the code's order. |
| Replica.ExecutionLog | consensus/pbft/execute.go:66-143 | The effects of the executing branch. They run through the phases in the code's order (`Effects.Phase`): the warning, the executor call, the timer stop, the timer restart, the post-processors, then delivery. It holds exactly one executor call, for this digest at this sequence. The timer is stopped, and restarted exactly when another digest is still pending. The post-processor invocations are exactly those of the configuration, in order. The log ends with the deliveries of the cached response's routing, and nothing before them delivers. The out-of-order warning appears exactly when `lastExecuted` is 2^64 - 1. |
| Replica.EveryPostProcessorRuns | consensus/pbft/execute.go:116-119 | In the executing branch every configured post-processor is invoked with the request ID, the origin, the payload and the executor's result. This holds before signing, so it holds whether or not signing then fails. |
| Replica.Warning | consensus/pbft/execute.go:66-69 | The sanity check logs at most one "executed out of order" warning, carrying the last executed sequence and the new one. It logs one exactly when the new sequence is below the last executed one. |
| Replica.TimerEffects | consensus/pbft/execute.go:84-91 | The timer is always stopped first. It is then started at most once, and started exactly when requests remain pending. No other kind of effect is produced. |
| Replica.PostProcess | consensus/pbft/execute.go:116-119 | There is one invocation per configured post-processor, in configuration order. The i-th one passes processor i the request ID, the origin, the payload and the executor's result. |
| Messages.ResponseFor | consensus/pbft/execute.go:97-110 | The response is an `ExecuteResponseToPrimary` message. It carries the result's code, the request ID, the function ID and a result map whose only key is the replica, mapped to the result. Its PBFT info is the replica's own view, the request timestamp and the replica id. It is built unsigned. |
| Replica.Disseminate | consensus/pbft/execute.go:122-143 | Routing of the signed response. A signing failure returns `SignFailed` and nothing is delivered. On the primary the step returns success and never sends point-to-point. It publishes the signed message on `cluster-primary` exactly when encoding succeeds. A non-primary sends the signed message to the primary once. It returns an error exactly when that send fails, and the error names this host, the primary and the request ID. |
| Replica.Execute | consensus/pbft/execute.go:17-37 | Intake builds the request with the client as origin and passes it to `processRequest`. The status code is `NoContent` exactly when `processRequest` succeeds and `Error` exactly when it fails. The error is present exactly on failure and wraps `processRequest`'s cause. The result is always empty. |
| Traces.Run | consensus/pbft/execute.go:43-95 | Over any sequence of commits, the journal, id and view are unchanged. The pending set only shrinks and the cache's keys only grow. Pending digests stay journaled. |
| Traces.ExactlyOnce | consensus/pbft/execute.go:52-77 | Over any run, no digest is executed twice. The executed digests are exactly those that left the pending set during the run. |
| Traces.GapFree | consensus/pbft/execute.go:60-95 | Over any run, the n-th execution takes sequence `lastExecuted + n`, modulo 2^64. The counter ends as many steps ahead as there were executions, whatever the executor returned. |
| Traces.TimerCorrelation | consensus/pbft/execute.go:84-91 | If the timer tracked the backlog at the start of a run, or any execution happened during it, then at the end the timer runs exactly when pending is non-empty. |
| Traces.ExecutedAreCached | consensus/pbft/execute.go:97-113 | Every request executed during a run has a cached response at the end of the run. |
| Traces.SecondCommitIsNoOp | consensus/pbft/execute.go:52-56 | After a digest has executed, another commit for it, whatever its view and sequence, returns success and changes nothing. |
| Traces.GapIsNotBuffered | consensus/pbft/execute.go:60-64 | A commit at `lastExecuted + 2` followed by one at `lastExecuted + 1` executes only the second request. The first request stays pending and needs a new commit. |

## Left out

- Logging is left out, except for the "executed out of order" warning, which is kept as an effect so that its reachability can be stated.
- The state lock `r.sl` is left out. Each entry point is one atomic transition.
- Real timers are left out. The timer is a boolean, and starting or stopping it is an effect. The timer duration is not modelled.
- Signing and private keys are left out: `Env.sign` is an uninterpreted function that may fail. Signature bytes are opaque.
- JSON encoding and the Redis `Publish` are left out: encoding is `Env.marshal`, which may fail, and publishing is the `Published` effect. A failure inside `Publish` itself is ignored by the code and not modelled.
- libp2p `send` and peer IDs are left out: peers are opaque strings and sending is `Env.send`, which may fail. The protocol tag is not modelled.
- The bodies of `processRequest` and `primaryReplicaID` are not part of this model. They are the uninterpreted `Env.processRequest` and `Env.primaryOf`. `Env.primaryOf` is a function of the replica's view over the fixed replica set.
- Because `processRequest` is uninterpreted, nothing is proved across intake steps. The trace lemmas cover runs of commit notifications only. Idempotent intake is `processRequest`'s business and is not modelled.
- The executor is the uninterpreted `Env.executor`, mapping (request ID, payload) to (result, error). Its error is ignored, as in the code.
- Post-processors are opaque callbacks. Calling one is a recorded effect with the arguments it receives.
- The `view` argument of the execution step is only used for logging in the code. It has no effect in the model.
- Go's `uint` is assumed to be 64 bits wide.
- The process limiter interface (`executor/limits.go`) has no logic and is not modelled.
- The plain data structs (`models/request/execute.go`, `models/response/install_function.go`) are not modelled. Only the fields the execution step reads or writes appear in `Messages`.
- Process bootstrap (`src/daemon/daemon.go`) is left out, as are the network integration test and the test fixtures.
