/** A PBFT replica's execution step: the commit gate the agreement layer calls once a
    (view, sequence, digest) binding has a quorum, the execution of the request, the
    liveness timer, the result cache and the routing of the signed result; and the
    intake step that hands a client request to the pipeline. Every entry point runs
    under the replica's state lock, so each is one atomic transition here. */
module Replica {
  import opened Wrappers
  import opened Uint64
  import opened Messages
  import opened Effects

  /** Opaque description of a collaborator's failure (Go's `error`). */
  type Cause = string

  /** The state the execution step reads and writes. */
  datatype ReplicaState = ReplicaState(
    id: PeerId,
    view: Uint,
    requests: map<Digest, Request>,               // the journal, keyed by digest
    pending: set<Digest>,                         // journaled but not yet executed
    lastExecuted: Uint,
    executions: map<RequestID, ExecuteResponse>,  // cached responses, by request ID
    timerRunning: bool)                           // the single request timer

  /** The replica's collaborators, whose code is not part of this model. */
  datatype Env = Env(
    hostID: PeerId,
    primaryOf: Uint -> PeerId,                    // the primary of a view, over the fixed replica set
    executor: (RequestID, ExecRequest) -> (ExecResult, Option<Cause>),
    postProcessors: seq<ProcessorID>,
    sign: ExecuteResponse -> Result<Signature, Cause>,
    marshal: ExecuteResponse -> Option<Bytes>,    // JSON encoding, None when it fails
    send: (PeerId, ExecuteResponse) -> Option<Cause>,
    processRequest: (ReplicaState, PeerId, Request) -> (ReplicaState, Option<Cause>))

  datatype Error =
    | UnknownRequest(digest: Digest)
    | SignFailed(cause: Cause)
    | SendFailed(current: PeerId, target: PeerId, requestID: RequestID, cause: Cause)
    | ProcessFailed(cause: Cause)

  /** The outcome of one execution step: new state, returned error, effects in order. */
  datatype Step = Step(state: ReplicaState, result: Outcome<Error>, effects: seq<Effect>)

  /** The outcome of signing and routing one response. */
  datatype Delivery = Delivery(result: Outcome<Error>, effects: seq<Effect>)

  /** The reply of the intake step: state, status code, result, error. */
  datatype Reply = Reply(state: ReplicaState, code: Code, result: ExecResult, err: Option<Error>)

  /** The commit gate lets `digest` through at `sequence`: it is journaled, still
      pending, and `sequence` is the next one after the last executed. */
  predicate Ready(s: ReplicaState, sequence: Uint, digest: Digest)
  {
    digest in s.requests && digest in s.pending && sequence == Inc(s.lastExecuted)
  }

  /** The request timer runs exactly when some journaled request awaits execution. */
  predicate TimerTracksPending(s: ReplicaState)
  {
    s.timerRunning <==> s.pending != {}
  }

  /** Every pending digest is journaled. */
  predicate PendingJournaled(s: ReplicaState)
  {
    s.pending <= s.requests.Keys
  }

  /** `msg` with signature `sig` attached. */
  function Signed(msg: ExecuteResponse, sig: Signature): (m: ExecuteResponse)
  {
    msg.(signature := Some(sig))
  }

  /** Sign `msg`, then publish it on the cluster channel when this host is `primary`,
      or send it to `primary` otherwise. */
  function Disseminate(env: Env, primary: PeerId, msg: ExecuteResponse): (d: Delivery)
    ensures forall i :: 0 <= i < |d.effects| ==> IsDelivery(d.effects[i])
    ensures env.sign(msg).Failure? ==> d == Delivery(Fail(SignFailed(env.sign(msg).error)), [])
    ensures env.sign(msg).Success? && env.hostID == primary ==>
      && d.result == Pass
      && (forall i :: 0 <= i < |d.effects| ==> !d.effects[i].Sent?)
      && (|d.effects| == 1 <==> env.marshal(Signed(msg, env.sign(msg).value)).Some?)
      && |d.effects| <= 1
      && (|d.effects| == 1 ==>
            d.effects[0] == Published(ClusterChannel, env.marshal(Signed(msg, env.sign(msg).value)).value))
    ensures env.sign(msg).Success? && env.hostID != primary ==>
      && d.effects == [Sent(primary, Signed(msg, env.sign(msg).value))]
      && (d.result.Pass? <==> env.send(primary, Signed(msg, env.sign(msg).value)).None?)
      && (d.result.Fail? ==>
            d.result.error == SendFailed(env.hostID, primary, msg.requestID,
                                         env.send(primary, Signed(msg, env.sign(msg).value)).value))
  {
    match env.sign(msg)
    case Failure(e) => Delivery(Fail(SignFailed(e)), [])
    case Success(sig) =>
      var signed := Signed(msg, sig);
      if env.hostID == primary then
        match env.marshal(signed)
        case Some(payload) => Delivery(Pass, [Published(ClusterChannel, payload)])
        case None => Delivery(Pass, [])
      else
        match env.send(primary, signed)
        case Some(e) => Delivery(Fail(SendFailed(env.hostID, primary, msg.requestID, e)), [Sent(primary, signed)])
        case None => Delivery(Pass, [Sent(primary, signed)])
  }

  /** One post-processing effect per configured processor, in configuration order. */
  function PostProcess(procs: seq<ProcessorID>, req: Request, res: ExecResult): (r: seq<Effect>)
    ensures |r| == |procs|
    ensures forall i :: 0 <= i < |r| ==> r[i] == PostProcessed(procs[i], req.id, req.origin, req.execute, res)
  {
    seq(|procs|, i requires 0 <= i < |procs| => PostProcessed(procs[i], req.id, req.origin, req.execute, res))
  }

  /** The effects of stopping the request timer and restarting it when work remains:
      the timer is stopped first, and started at most once afterwards. */
  function TimerEffects(restart: bool): (r: seq<Effect>)
    ensures forall i :: 0 <= i < |r| ==> IsTimer(r[i])
    ensures 1 <= |r| <= 2 && r[0] == TimerStopped
    ensures forall i :: 0 < i < |r| ==> r[i] == TimerStarted
    ensures TimerStopped in r
    ensures TimerStarted in r <==> restart
    ensures Ordered(r)
  {
    [TimerStopped] + (if restart then [TimerStarted] else [])
  }

  /** The execution step for a request the agreement layer committed at (`view`,
      `sequence`) under `digest`. `view` only labels the step: the response carries
      the replica's own view. */
  function ExecuteCommitted(s: ReplicaState, env: Env, view: Uint, sequence: Uint, digest: Digest): (st: Step)
    ensures st.state.requests == s.requests && st.state.id == s.id && st.state.view == s.view
    // An unknown digest is an error and changes nothing.
    ensures digest !in s.requests ==> st == Step(s, Fail(UnknownRequest(digest)), [])
    // An executed digest, or a sequence ahead of or behind the next one, is a silent no-op.
    ensures digest in s.requests && !Ready(s, sequence, digest) ==> st == Step(s, Pass, [])
    ensures !Ready(s, sequence, digest) ==> st.state == s && Calls(st.effects) == []
    ensures Ready(s, sequence, digest) ==> st == Apply(s, env, sequence, digest)
  {
    if digest !in s.requests then
      Step(s, Fail(UnknownRequest(digest)), [])
    else if digest !in s.pending then
      Step(s, Pass, [])
    else if sequence != Inc(s.lastExecuted) then
      Step(s, Pass, [])
    else
      Apply(s, env, sequence, digest)
  }

  /** The out-of-order warning the step logs, if any: only when `sequence` is below
      the last executed one. */
  function Warning(last: Uint, sequence: Uint): (w: seq<Effect>)
    ensures |w| <= 1
    ensures forall i :: 0 <= i < |w| ==> w[i] == OutOfOrderLogged(last, sequence)
    ensures |w| == 1 <==> sequence < last
  {
    if sequence < last then [OutOfOrderLogged(last, sequence)] else []
  }

  /** The effects of the executing branch, in the order they happen: the warning if
      the sequence is below the last executed one, the executor call, the timer, the
      post-processors and the routing of the cached response. */
  function ExecutionLog(s: ReplicaState, env: Env, sequence: Uint, digest: Digest): (e: seq<Effect>)
    requires Ready(s, sequence, digest)
    ensures var req := s.requests[digest];
      Calls(e) == [ExecutorCalled(digest, sequence, req.id, req.execute)]
    ensures TimerStopped in e
    ensures TimerStarted in e <==> s.pending - {digest} != {}
    ensures var req := s.requests[digest];
      PostCalls(e) == PostProcess(env.postProcessors, req, env.executor(req.id, req.execute).0)
    ensures DeliveredLast(e, Disseminate(env, env.primaryOf(s.view), Response(s, env, digest)).effects)
    ensures (exists i :: 0 <= i < |e| && e[i].OutOfOrderLogged?) <==> s.lastExecuted == MAX
    // Warning, executor call, timer stop and restart, post-processors, delivery.
    ensures Ordered(e)
  {
    var req := s.requests[digest];
    var res := env.executor(req.id, req.execute).0;
    var warn := Warning(s.lastExecuted, sequence);
    var call := ExecutorCalled(digest, sequence, req.id, req.execute);
    var timer := TimerEffects(s.pending - {digest} != {});
    var post := PostProcess(env.postProcessors, req, res);
    var d := Disseminate(env, env.primaryOf(s.view), Response(s, env, digest));
    LayoutFacts(warn, call, timer, post, d.effects);
    LayoutPosts(warn, call, timer, post, d.effects);
    LayoutDeliveryLast(warn, call, timer, post, d.effects);
    LayoutOrdered(warn, call, timer, post, d.effects);
    Layout(warn, call, timer, post, d.effects)
  }

  /** The unsigned response the executing branch caches for `digest`'s request: the
      executor's result, whatever error came with it, is used as it came back. */
  function Response(s: ReplicaState, env: Env, digest: Digest): (m: ExecuteResponse)
    requires digest in s.requests
  {
    var req := s.requests[digest];
    ResponseFor(s.id, s.view, req, env.executor(req.id, req.execute).0)
  }

  /** The executing branch of the step, once the gate has let `digest` through:
      exactly this digest leaves pending, the counter moves on by one, the executor
      runs once, the timer tracks the backlog and the response is cached before it is
      signed and routed. */
  function Apply(s: ReplicaState, env: Env, sequence: Uint, digest: Digest): (st: Step)
    requires Ready(s, sequence, digest)
    ensures st.state.requests == s.requests && st.state.id == s.id && st.state.view == s.view
    ensures st.state.pending == s.pending - {digest}
    ensures st.state.lastExecuted == sequence == Inc(s.lastExecuted)
    ensures var req := s.requests[digest];
      Calls(st.effects) == [ExecutorCalled(digest, sequence, req.id, req.execute)]
    ensures TimerTracksPending(st.state)
    ensures TimerStopped in st.effects
    ensures TimerStarted in st.effects <==> st.state.pending != {}
    ensures var req := s.requests[digest];
      && st.state.executions.Keys == s.executions.Keys + {req.id}
      && (forall id :: id in s.executions && id != req.id ==> st.state.executions[id] == s.executions[id])
      && st.state.executions[req.id] == ResponseFor(s.id, s.view, req, env.executor(req.id, req.execute).0)
    ensures var req := s.requests[digest];
      PostCalls(st.effects) == PostProcess(env.postProcessors, req, env.executor(req.id, req.execute).0)
    ensures var d := Disseminate(env, env.primaryOf(s.view), st.state.executions[s.requests[digest].id]);
      st.result == d.result && DeliveredLast(st.effects, d.effects)
    // The out-of-order sanity check fires only when the counter wraps around.
    ensures (exists i :: 0 <= i < |st.effects| && st.effects[i].OutOfOrderLogged?) <==> s.lastExecuted == MAX
    ensures Ordered(st.effects)
  {
    var req := s.requests[digest];
    var pending := s.pending - {digest};
    var msg := Response(s, env, digest);
    var s' := s.(pending := pending,
                 timerRunning := pending != {},
                 lastExecuted := sequence,
                 executions := s.executions[req.id := msg]);
    Step(s', Disseminate(env, env.primaryOf(s.view), msg).result, ExecutionLog(s, env, sequence, digest))
  }

  /** Every configured post-processor sees the request and the executor's result, in
      the executing branch's log. */
  lemma EveryPostProcessorRuns(s: ReplicaState, env: Env, sequence: Uint, digest: Digest)
    requires Ready(s, sequence, digest)
    ensures var st := Apply(s, env, sequence, digest);
      var req := s.requests[digest];
      forall i :: 0 <= i < |env.postProcessors| ==>
        PostProcessed(env.postProcessors[i], req.id, req.origin, req.execute, env.executor(req.id, req.execute).0) in st.effects
  {
    var st := Apply(s, env, sequence, digest);
    PostCallsWithin(st.effects);
  }

  /** Intake: build the request and hand it to `processRequest`, mapping its outcome to
      a status code. Whatever state `processRequest` leaves is kept. */
  function Execute(s: ReplicaState, env: Env, client: PeerId, requestID: RequestID, timestamp: int, req: ExecRequest): (r: Reply)
    ensures var (s', failure) := env.processRequest(s, client, Request(requestID, timestamp, client, req));
      && r.state == s'
      && r.result == EmptyResult
      && (r.code == NoContent <==> failure.None?)
      && (r.code == Error <==> failure.Some?)
      && (r.err.None? <==> failure.None?)
      && (failure.Some? ==> r.err == Some(ProcessFailed(failure.value)))
  {
    var request := Request(requestID, timestamp, client, req);
    var (s', failure) := env.processRequest(s, client, request);
    match failure
    case Some(e) => Reply(s', Error, EmptyResult, Some(ProcessFailed(e)))
    case None => Reply(s', NoContent, EmptyResult, None)
  }
}
