/** src/product/scan/scan.ts: one execution attempt and its allowed transitions. */
module ScanLifecycle {
  import opened Results

  datatype ScanStatus = RESERVED | EXECUTING | COMPLETED | FAILED | REFUNDED

  datatype ScanExecution = ScanExecution(
    id: string, requestId: string, status: ScanStatus, startedAt: int,
    finishedAt: Option<int>, reportRef: Option<string>, failureReason: Option<string>)

  predicate CanTransition(from: ScanStatus, to: ScanStatus) {
    match from
    case RESERVED => to == EXECUTING || to == FAILED
    case EXECUTING => to == COMPLETED || to == FAILED
    case COMPLETED => false
    case FAILED => to == REFUNDED
    case REFUNDED => false
  }

  function NewExecution(id: string, requestId: string, atMs: int): ScanExecution {
    ScanExecution(id, requestId, RESERVED, atMs, None, None, None)
  }

  function BeginExecuting(e: ScanExecution): Option<ScanExecution> {
    if CanTransition(e.status, EXECUTING) then Some(e.(status := EXECUTING)) else None
  }

  function Complete(e: ScanExecution, reportRef: string, atMs: int): Option<ScanExecution> {
    if CanTransition(e.status, COMPLETED)
    then Some(e.(status := COMPLETED, finishedAt := Some(atMs), reportRef := Some(reportRef))) else None
  }

  function Fail(e: ScanExecution, reason: string, atMs: int): Option<ScanExecution> {
    if CanTransition(e.status, FAILED)
    then Some(e.(status := FAILED, finishedAt := Some(atMs), failureReason := Some(reason))) else None
  }
}
