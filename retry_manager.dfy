/** DefaultRetryManager: a bounded attempt counter. Each `Run` either uses up
    one attempt (and would sleep) or, once the budget is spent, raises
    RetryError. */
module RetryManagement {
  import opened Outcomes

  const DefaultMaxAttempts: int := 10

  /** How many more calls to `Run` succeed from `attempts` under `maxAttempts`. */
  function Budget(attempts: int, maxAttempts: int): (b: nat)
    ensures attempts < maxAttempts ==> attempts + b == maxAttempts
    ensures attempts >= maxAttempts ==> b == 0
  {
    if attempts < maxAttempts then maxAttempts - attempts else 0
  }

  class RetryManager {
    const maxAttempts: int
    var attemptCount: nat

    /** The counter never passes the budget (for a negative maximum it stays 0). */
    ghost predicate Valid()
      reads this
    {
      attemptCount <= Budget(0, maxAttempts)
    }

    /** A missing maximum defaults to 10; the sleep time is not modelled. */
    constructor (maxAttempts: Option<int>)
      ensures this.maxAttempts == (if maxAttempts.Some? then maxAttempts.value else DefaultMaxAttempts)
      ensures attemptCount == 0
      ensures Valid()
    {
      this.maxAttempts := if maxAttempts.Some? then maxAttempts.value else DefaultMaxAttempts;
      attemptCount := 0;
    }

    /** Raises RetryError exactly when the budget is spent; reads only. */
    method CheckMaxAttemptsReached() returns (r: Outcome<()>)
      ensures r.Raised? <==> Budget(attemptCount, maxAttempts) == 0
      ensures r.Raised? ==> r.error == RetryError
    {
      if attemptCount >= maxAttempts {
        return Raised(RetryError);
      }
      return Ok(());
    }

    method IncrementAttempts()
      modifies this`attemptCount
      ensures attemptCount == old(attemptCount) + 1
    {
      attemptCount := attemptCount + 1;
    }

    /** One wait step: raises RetryError without counting when the budget is
        spent, otherwise counts one attempt (the sleep is a no-op here). */
    method Run() returns (r: Outcome<()>)
      requires Valid()
      modifies this`attemptCount
      ensures Valid()
      ensures r.Raised? <==> old(attemptCount) >= maxAttempts
      ensures r.Raised? ==> r.error == RetryError && attemptCount == old(attemptCount)
      ensures r.Ok? ==> attemptCount == old(attemptCount) + 1
      ensures Budget(attemptCount, maxAttempts) == if r.Ok? then Budget(old(attemptCount), maxAttempts) - 1 else 0
    {
      r := CheckMaxAttemptsReached();
      if r.Ok? {
        IncrementAttempts();
      }
    }

    method Reset()
      requires Valid()
      modifies this`attemptCount
      ensures Valid()
      ensures attemptCount == 0
    {
      attemptCount := 0;
    }
  }

  /** A fresh manager asked to `Run` `calls` times, stopping at the first
      RetryError: exactly the first max(0, maxAttempts) calls succeed, and
      the call after them raises. */
  method RunFresh(maxAttempts: Option<int>, calls: nat) returns (succeeded: nat, raised: bool)
    ensures var limit := Budget(0, if maxAttempts.Some? then maxAttempts.value else DefaultMaxAttempts);
            && succeeded == (if calls <= limit then calls else limit)
            && raised == (calls > limit)
  {
    var manager := new RetryManager(maxAttempts);
    succeeded, raised := 0, false;
    while succeeded < calls && !raised
      invariant manager.Valid()
      invariant succeeded <= calls
      invariant manager.attemptCount == succeeded
      invariant raised ==> succeeded < calls && succeeded == Budget(0, manager.maxAttempts)
      invariant !raised ==> succeeded <= Budget(0, manager.maxAttempts)
      decreases calls - succeeded, !raised
    {
      var r := manager.Run();
      if r.Ok? {
        succeeded := succeeded + 1;
      } else {
        raised := true;
      }
    }
  }
}
