/** The data the execution step reads and writes: requests as submitted by clients,
    results returned by the workload executor, and the execution response a replica
    reports to the primary. Peer identifiers, digests and request identifiers are
    opaque strings; wall-clock timestamps are opaque integers. */
module Messages {
  import opened Wrappers
  import opened Uint64

  type PeerId = string
  type Digest = string
  type RequestID = string
  type Bytes = seq<bv8>
  type Signature = Bytes

  /** Response status codes. Only the two the intake step produces are named; the
      executor may report any other code, and `Unset` is Go's zero value. */
  datatype Code = NoContent | Error | Unset | Other(name: string)

  datatype Parameter = Parameter(name: string, value: string)

  /** The execution specification carried by a request. */
  datatype ExecRequest = ExecRequest(functionID: string, runtimeMethod: string, parameters: seq<Parameter>)

  datatype RuntimeOutput = RuntimeOutput(stdout: string, stderr: string, exitCode: int)

  /** What the workload executor returns for one request. */
  datatype ExecResult = ExecResult(code: Code, output: RuntimeOutput, requestID: RequestID)

  /** Go's zero `execute.Result{}`. */
  const EmptyResult: ExecResult := ExecResult(Unset, RuntimeOutput("", "", 0), "")

  /** A request as journaled by the replica, keyed elsewhere by its digest. */
  datatype Request = Request(id: RequestID, timestamp: int, origin: PeerId, execute: ExecRequest)

  datatype MessageType = ExecuteResponseToPrimary

  /** Provenance of a result: the replica's view, the request's timestamp, the replica. */
  datatype PBFTResultInfo = PBFTResultInfo(view: Uint, requestTimestamp: int, replica: PeerId)

  /** The execution response a replica reports; `signature` is filled in by signing. */
  datatype ExecuteResponse = ExecuteResponse(
    msgType: MessageType,
    code: Code,
    requestID: RequestID,
    functionID: string,
    results: map<PeerId, ExecResult>,
    pbft: PBFTResultInfo,
    signature: Option<Signature>)

  /** The unsigned response replica `replica`, in view `view`, reports for `req` after the
      executor returned `res`. */
  function ResponseFor(replica: PeerId, view: Uint, req: Request, res: ExecResult): (m: ExecuteResponse)
    ensures m.msgType == ExecuteResponseToPrimary
    ensures m.code == res.code && m.requestID == req.id && m.functionID == req.execute.functionID
    ensures m.results.Keys == {replica} && m.results[replica] == res
    ensures m.pbft.view == view && m.pbft.requestTimestamp == req.timestamp && m.pbft.replica == replica
    ensures m.signature.None?
  {
    ExecuteResponse(
      ExecuteResponseToPrimary,
      res.code,
      req.id,
      req.execute.functionID,
      map[replica := res],
      PBFTResultInfo(view, req.timestamp, replica),
      None)
  }
}
