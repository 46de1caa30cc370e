/** The authorization-code waiter: poll the shared slot; return the first
    non-empty code; otherwise give up once more than `timeout` ticks have passed
    since the start; otherwise sleep one interval and poll again.

    Time is integer ticks. `slot(k)` is what the k-th poll (from 0) reads;
    `clock(0)` is the start reading and `clock(k + 1)` the reading taken by the
    k-th poll after it found no code. */
module AuthWait {
  import opened Wrappers

  const DefaultTimeout: int := 120
  const PollInterval: int := 2

  datatype WaitOutcome = Received(code: string) | TimedOut

  /** Clock readings never go back, and each sleep between two polls lasts at
      least one poll interval. */
  ghost predicate ClockAdvances(clock: nat -> int)
  {
    && clock(0) <= clock(1)
    && forall k: nat :: 1 <= k ==> clock(k) + PollInterval <= clock(k + 1)
  }

  /** `wait_for_auth_code`: `polls` is the number of slot reads made. */
  method WaitForAuthCode(slot: nat -> Option<string>, clock: nat -> int, timeout: int := DefaultTimeout)
    returns (outcome: WaitOutcome, polls: nat)
    requires ClockAdvances(clock)
    ensures 1 <= polls
    ensures forall j :: 0 <= j < polls - 1 ==> !Truthy(slot(j))
    ensures forall j :: 1 <= j < polls ==> clock(j) - clock(0) <= timeout
    ensures outcome.Received? ==> Truthy(slot(polls - 1)) && outcome.code == slot(polls - 1).value
    ensures outcome.TimedOut? ==> !Truthy(slot(polls - 1)) && clock(polls) - clock(0) > timeout
    ensures timeout >= 0 ==> polls <= timeout / PollInterval + 2
    ensures timeout < 0 ==> polls == 1
  {
    var start := clock(0);
    var k: nat := 0;
    while true
      invariant forall j :: 0 <= j < k ==> !Truthy(slot(j))
      invariant forall j :: 1 <= j <= k ==> clock(j) - start <= timeout
      invariant 1 <= k ==> start + PollInterval * (k - 1) <= clock(k)
      invariant 1 <= k ==> PollInterval * (k - 1) <= timeout
      decreases (if timeout < 0 then 0 else timeout) + PollInterval - PollInterval * k
    {
      var code := slot(k);
      if Truthy(code) {
        return Received(code.value), k + 1;
      }
      var now := clock(k + 1);
      if now - start > timeout {
        return TimedOut, k + 1;
      }
      k := k + 1;
    }
  }
}
