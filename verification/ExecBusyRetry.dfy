/**
 `spawn_retrying_exec_busy_within` (src-tauri/src/process.rs): retrying a spawn the kernel refuses
 because the file is busy, with backoff, inside a budget. Times are microseconds.
 */
module ExecBusyRetry {
  const MS: nat := 1000
  const EXEC_BUSY_RETRY_BUDGET: nat := 1000 * MS
  const EXEC_BUSY_MAX_BACKOFF: nat := 25 * MS

  /** What one attempt returns; `id` stands for the process, or for the error it carries. */
  datatype Outcome = Started(id: nat) | Busy(id: nat) | FailedOtherwise(id: nat)

  /** The wait after the `k`-th busy attempt, before the deadline shortens it. */
  function Backoff(k: nat): (d: nat)
    ensures 1000 <= d <= 25_000
  {
    if k == 0 then MS
    else if 2 * Backoff(k - 1) < EXEC_BUSY_MAX_BACKOFF then 2 * Backoff(k - 1) else EXEC_BUSY_MAX_BACKOFF
  }

  /** The first `k` waits together. */
  function Waits(k: nat): nat {
    if k == 0 then 0 else Waits(k - 1) + Backoff(k - 1)
  }

  function Min(a: nat, b: nat): nat {
    if a < b then a else b
  }

  /**
   The loop, given what the k-th attempt returns and how much longer than asked the k-th attempt and
   the sleep before it take. It always ends. The answer is the first outcome that is not busy, or the
   last attempt's own busy error once the budget is spent; the sleeps asked for fit the budget, and
   attempts are at least the backoff apart.
   */
  method SpawnRetryingExecBusyWithin(budget: nat, outcomes: nat -> Outcome, extra: nat -> nat)
    returns (result: Outcome, attempts: nat, slept: nat, elapsed: nat)
    ensures attempts > 0 && result == outcomes(attempts - 1)
    ensures AllBusy(outcomes, attempts - 1)
    ensures result.Busy? ==> elapsed >= budget
    ensures elapsed == slept + Passed(extra, attempts)
    ensures slept <= Min(Waits(attempts - 1), budget)
    ensures elapsed >= Min(Waits(attempts - 1), budget)
    ensures attempts > 1 ==> Waits(attempts - 2) < budget
  {
    var now := 0;
    var deadline := budget;
    var backoff := MS;
    attempts, slept := 0, 0;
    while true
      invariant Paced(attempts, now, slept, backoff, deadline)
      invariant AllBusy(outcomes, attempts)
      invariant now == slept + Passed(extra, attempts)
      decreases if now < deadline then deadline - now + 1 else 0
    {
      ghost var k, before := attempts, now;
      result := outcomes(attempts);
      now := now + extra(attempts);
      attempts := attempts + 1;
      elapsed := now;
      assert attempts - 1 == k;
      if !result.Busy? || now >= deadline { return; }
      var wait := Min(backoff, deadline - now);
      BusyOnce(outcomes, k);
      PacedOnce(k, before, now, slept, backoff, deadline, wait);
      now, slept, backoff := now + wait, slept + wait, Min(backoff * 2, EXEC_BUSY_MAX_BACKOFF);
    }
  }

  predicate AllBusy(outcomes: nat -> Outcome, n: nat) {
    forall k | 0 <= k < n :: outcomes(k).Busy?
  }

  lemma BusyOnce(outcomes: nat -> Outcome, n: nat)
    requires AllBusy(outcomes, n) && outcomes(n).Busy?
    ensures AllBusy(outcomes, n + 1)
  {
  }

  /** Before attempt `k` the clock and the sleep asked for stand on either side of the backoff so far. */
  predicate Paced(k: nat, now: nat, slept: nat, backoff: nat, deadline: nat) {
    && backoff == Backoff(k) && slept <= now
    && slept <= Min(Waits(k), deadline) <= now
    && (k > 0 ==> Waits(k - 1) < deadline)
  }

  /** What one busy attempt and the sleep after it do to the clock and to the sleep asked for. */
  lemma PacedOnce(k: nat, before: nat, now: nat, slept: nat, backoff: nat, deadline: nat, wait: nat)
    requires Paced(k, before, slept, backoff, deadline) && before <= now < deadline
    requires wait == Min(backoff, deadline - now)
    ensures Paced(k + 1, now + wait, slept + wait, Min(backoff * 2, EXEC_BUSY_MAX_BACKOFF), deadline)
    ensures wait > 0
  {
  }

  /** Time spent in the first `k` attempts and oversleeps. */
  function Passed(extra: nat -> nat, k: nat): nat
    decreases k
  {
    if k == 0 then 0 else Passed(extra, k - 1) + extra(k - 1)
  }

  lemma {:induction false} LongWaits(k: nat)
    requires k >= 5
    ensures Backoff(k) == EXEC_BUSY_MAX_BACKOFF && Waits(k) == 31 * MS + 25 * MS * (k - 5)
  {
    if k == 5 {
      assert Backoff(1) == 2 * MS && Backoff(2) == 4 * MS && Backoff(3) == 8 * MS && Backoff(4) == 16 * MS;
      assert Waits(1) == MS && Waits(2) == 3 * MS && Waits(3) == 7 * MS && Waits(4) == 15 * MS;
    } else {
      LongWaits(k - 1);
    }
  }

  /** With the production budget, a second, at most 45 attempts are made, and no busy error ends it sooner. */
  method SpawnRetryingExecBusy(outcomes: nat -> Outcome, extra: nat -> nat)
    returns (result: Outcome, attempts: nat, elapsed: nat)
    ensures 0 < attempts <= 45 && result == outcomes(attempts - 1)
    ensures AllBusy(outcomes, attempts - 1)
    ensures result.Busy? ==> elapsed >= 1_000_000
  {
    var slept;
    result, attempts, slept, elapsed := SpawnRetryingExecBusyWithin(EXEC_BUSY_RETRY_BUDGET, outcomes, extra);
    if attempts > 45 { LongWaits(attempts - 2); }
  }
}
