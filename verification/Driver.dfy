/**
 The driver's side of CreateSnapshot: after which errors the driver may still be at work.
 */
module Driver {
  import opened Sidecar

  /**
   The caller gave up, the call or the connection broke, the server had no resources, or another call for
   the name is pending: in these cases an earlier call may still be in progress.
   */
  const UNSETTLED := {Canceled, DeadlineExceeded, Unavailable, ResourceExhausted, Aborted}

  /** The call reached the driver, and what it asked for may still come. */
  predicate MayGoOn(e: RpcError) {
    e.Grpc? && e.code in UNSETTLED
  }

  /** The call reached the driver, and nothing will come of it or of any call before. */
  predicate HasFailed(e: RpcError) {
    e.Grpc? && e.code !in UNSETTLED
  }

  /** The sidecar takes an error for final exactly if the driver has given up. */
  lemma FinalIffFailed(e: RpcError)
    ensures IsFinalError(e) <==> HasFailed(e)
  {}
}
