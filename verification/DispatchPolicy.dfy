/** Retry limits and delays of the dispatch engine. */
module DispatchPolicy {
  import opened Common

  const AUTO_DISPATCH_MAX: nat := 5
  const MANUAL_DISPATCH_MAX: nat := 3
  const BATCH_SIZE: nat := 5
  const RETRY_DELAYS_SECONDS: seq<nat> := [120, 300, 600, 1200, 1800]

  predicate CanAutoRetry(autoCount: nat) {
    autoCount < AUTO_DISPATCH_MAX
  }

  predicate CanManualRedispatch(manualCount: nat) {
    manualCount < MANUAL_DISPATCH_MAX
  }

  function NextRetryDelay(autoCount: int): (delay: nat)
    ensures delay in RETRY_DELAYS_SECONDS
  {
    RETRY_DELAYS_SECONDS[Min(Max(0, autoCount), |RETRY_DELAYS_SECONDS| - 1)]
  }
}
