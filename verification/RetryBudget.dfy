/** The retry budget of an operation, shared by the lookup loops and by creating a producer. */
module RetryBudget {
  import opened Common

  /** Without a maximum every number of retries is within the budget. */
  predicate WithinBudget(maxRetries: Option<nat>, retries: nat)
  {
    maxRetries.Some? ==> retries <= maxRetries.value
  }

  /** `OperationRetryOptions::allow_retry`: one more retry stays within the budget. */
  predicate AllowRetry(maxRetries: Option<nat>, current: nat)
  {
    WithinBudget(maxRetries, current + 1)
  }
}
