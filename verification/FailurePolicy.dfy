/** The Policy Engine's part in the loop: what to do with a failed attempt. */
module FailurePolicy {
  datatype Retry = Retry(maxAttempts: int, disableFlaky: bool)
  datatype Escalation = Escalation(maxAttempts: int, abandonedDays: int)

  datatype Policy = Policy(retry: Retry, esc: Escalation)

  datatype Action = DoRetry | DoDefer | DoEscalate | DoFail

  // Zero means "not configured": the retry cap is 3, the escalation cap is the retry cap.
  function WithDefaults(p: Policy): Policy {
    var cap := if p.retry.maxAttempts == 0 then 3 else p.retry.maxAttempts;
    Policy(p.retry.(maxAttempts := cap),
           p.esc.(maxAttempts := if p.esc.maxAttempts == 0 then cap else p.esc.maxAttempts))
  }

  predicate RetryDecide(p: Retry, attempts: int, transient: bool) {
    transient && !p.disableFlaky && attempts < p.maxAttempts
  }

  predicate ShouldRetry(p: Retry, attempts: int) {
    RetryDecide(p, attempts, true)
  }

  predicate EscalationDecide(p: Escalation, attempts: int, blocked: bool, failed: bool, ageDays: int) {
    blocked || (failed && attempts >= p.maxAttempts) || (p.abandonedDays > 0 && ageDays >= p.abandonedDays)
  }

  function Classify(p: Policy, attempts: int, transient: bool, blocked: bool): Action {
    if blocked then DoDefer
    else if RetryDecide(p.retry, attempts, transient) then DoRetry
    else if EscalationDecide(p.esc, attempts, false, true, 0) then DoEscalate
    else DoFail
  }
}
