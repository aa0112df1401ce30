/** ServiceHealthStatus (pkg/cli/cc/health.go): dial the health endpoint, then poll the
    gRPC health check until it answers SERVING or the retry budget is spent.
    The network is a parameter: `dialOk` is whether the dial succeeds, `replies(k)` is what
    the k-th check returns, and `budget` is the number of attempts the retry helper makes
    within the RPC timeout at the fixed poll interval. */
module Health {

  /** The fixed timing of the probe, in milliseconds. */
  const ConnTimeoutMs: nat := 30_000
  const RpcTimeoutMs: nat := 30_000
  const PollIntervalMs: nat := 100

  /** healthpb.HealthCheckResponse_ServingStatus. */
  datatype ServingStatus = Unknown | Serving | NotServing | ServiceUnknown

  /** The result of one Check RPC. */
  datatype CheckReply = RpcFailed | Replied(status: ServingStatus)

  /** The dial as issued: the endpoint, and the connect timeout (insecure transport). */
  datatype DialRequest = DialRequest(addr: string, timeoutMs: nat)

  /** One Check RPC as sent: the service asked about, and the deadline of its context. */
  datatype CheckRequest = CheckRequest(service: string, deadlineMs: nat)

  /** The retried closure succeeds only on an explicit SERVING answer; an RPC error and
      every other status count as a failed attempt. */
  predicate AttemptSucceeds(reply: CheckReply) {
    reply.Replied? && reply.status == Serving
  }

  /** The probe's verdict: the dial succeeded and some attempt within the budget saw SERVING. */
  ghost predicate Verdict(dialOk: bool, replies: nat -> CheckReply, budget: nat) {
    dialOk && exists k :: 0 <= k < budget && AttemptSucceeds(replies(k))
  }

  /** Returns the verdict, the dial issued and the check requests issued, in order.
      `budget` stands for the attempts the retry helper makes when it polls every
      PollIntervalMs for at most RpcTimeoutMs. */
  method ServiceHealthStatus(addr: string, service: string, dialOk: bool,
                             replies: nat -> CheckReply, budget: nat)
    returns (serving: bool, dial: DialRequest, sent: seq<CheckRequest>)
    ensures dial == DialRequest(addr, ConnTimeoutMs)
    ensures serving <==> Verdict(dialOk, replies, budget)
    ensures !dialOk ==> sent == []
    ensures |sent| <= budget
    ensures forall k :: 0 <= k < |sent| ==> sent[k] == CheckRequest(service, RpcTimeoutMs)
    ensures forall k :: 0 <= k < |sent| - 1 ==> !AttemptSucceeds(replies(k))
    ensures serving ==> |sent| > 0 && AttemptSucceeds(replies(|sent| - 1))
    ensures dialOk && !serving ==> |sent| == budget
  {
    dial := DialRequest(addr, ConnTimeoutMs);
    sent := [];
    if !dialOk {
      return false, dial, sent;
    }
    // one RPC context for every attempt
    var request := CheckRequest(service, RpcTimeoutMs);
    var attempt := 0;
    while attempt < budget
      invariant 0 <= attempt <= budget
      invariant |sent| == attempt
      invariant forall k :: 0 <= k < attempt ==> sent[k] == request
      invariant forall k :: 0 <= k < attempt ==> !AttemptSucceeds(replies(k))
    {
      sent := sent + [request];
      if AttemptSucceeds(replies(attempt)) {
        return true, dial, sent;
      }
      attempt := attempt + 1;
    }
    return false, dial, sent;
  }

  /** An endpoint that keeps answering NOT_SERVING is never reported as serving,
      whatever the budget. */
  lemma NeverServingMeansFalse(dialOk: bool, replies: nat -> CheckReply, budget: nat)
    requires forall k :: replies(k) == Replied(NotServing)
    ensures !Verdict(dialOk, replies, budget)
  {
  }
}
