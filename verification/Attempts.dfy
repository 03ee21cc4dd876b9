/** One undisturbed ProcessDelivery, from the row it finds to the row it leaves. */
module Attempts {
  import opened Types
  import opened Webhooks
  import opened Backoff

  /** The row left behind, the POSTs made and the milliseconds slept between them. */
  datatype Outcome = Outcome(row: Delivery, posts: nat, slept: nat)

  /** The merchant's answers, POST by POST: success means a 2xx status, the text is what last_error stores otherwise. */
  datatype Network = Network(success: nat -> bool, error: nat -> string)

  function AfterFailures(d: Delivery, net: Network, from: nat, failures: nat): Delivery
  {
    if failures == 0 then d
    else d.(attempts := d.attempts + failures, lastError := net.error(from + failures - 1))
  }

  /** from numbers the first POST of this delivery among all the POSTs the network answers. */
  function Attempt(d: Delivery, secret: string, net: Network, from: nat): Outcome
    requires AttemptsOk(d)
  {
    if !d.status.Waiting? then Outcome(d, 0, 0)
    else if secret == "" then Outcome(ParkMissingSecret(d), 0, 0)
    else if !d.target.parses then Outcome(d, 0, 0)
    else
      var budget := d.maxAttempts - d.attempts;
      var failures := Failures(net.success, from, budget);
      var row := AfterFailures(d, net, from, failures);
      if failures < budget
      then Outcome(row.(status := Delivered), failures + 1, Pauses(d.attempts, failures))
      else Outcome(row.(status := DeadLetter), failures, Pauses(d.attempts, failures - 1))
  }

  predicate SuccessAt(net: Network, from: nat, k: nat) { net.success(from + k) }

  /**
   What an attempt with a secret and a URL that parses promises: it ends the delivery; it makes
   max - c POSTs, or stops at the first 2xx if that comes earlier; it ends succeeded exactly when
   one of the first max - c answers is a 2xx; and the counter grows by the failures alone.
   */
  lemma AttemptEnds(d: Delivery, secret: string, net: Network, from: nat)
    requires AttemptsOk(d) && d.status.Waiting? && secret != "" && d.target.parses
    ensures var r := Attempt(d, secret, net, from);
            var budget := d.maxAttempts - d.attempts;
            && 1 <= r.posts <= budget && !r.row.status.Waiting? && AttemptsOk(r.row)
            && (r.row.status.Delivered? <==> exists k: nat :: k < budget && SuccessAt(net, from, k))
            && (r.row.status.Delivered? <==> SuccessAt(net, from, r.posts - 1))
            && (forall k: nat :: k < r.posts - 1 ==> !SuccessAt(net, from, k))
            && (!r.row.status.Delivered? ==> r.posts == budget && r.row.attempts == d.maxAttempts)
            && r.row.attempts == d.attempts + r.posts - (if r.row.status.Delivered? then 1 else 0)
  {
    var budget := d.maxAttempts - d.attempts;
    FailuresIsFirst(net.success, from, budget);
    var n := Failures(net.success, from, budget);
    forall k: nat | k < n ensures !SuccessAt(net, from, k) {
      assert !net.success(from + k);
    }
    if n < budget {
      assert SuccessAt(net, from, n);
    }
  }

  /**
   What one run of ProcessDelivery leaves of a row, case by case and without the loop: a row that is
   not pending is left alone; without a secret it is dead-lettered, its attempts unspent; with a URL no
   request can be built for it stays pending; otherwise POSTs are made until one succeeds or the
   attempts are used up, each failure is counted, the last one's text is kept, and the pauses double.
   */
  predicate Processed(d: Delivery, secret: string, net: Network, from: nat, r: Outcome)
    requires 0 <= d.attempts
  {
    if d.status != Waiting then r == Outcome(d, 0, 0)
    else if secret == "" then
      r == Outcome(d.(status := DeadLetter, lastError := "missing_webhook_signing_secret"), 0, 0)
    else if !d.target.parses then r == Outcome(d, 0, 0)
    else
      var delivered := r.row.status == Delivered;
      var failures := if delivered then r.posts - 1 else r.posts;
      && r.row.status != Waiting && 1 <= r.posts && 0 <= failures
      && (delivered <==> net.success(from + r.posts - 1))
      && (forall k: nat :: from <= k < from + failures ==> !net.success(k))
      && (!delivered ==> d.attempts + failures == 5)
      && r.row.attempts == d.attempts + failures && r.row.attempts <= 5
      && (failures > 0 ==> r.row.lastError == net.error(from + failures - 1))
      && (failures == 0 ==> r.row.lastError == d.lastError)
      && r.row == d.(status := r.row.status, attempts := r.row.attempts, lastError := r.row.lastError)
      && r.slept == 50 * (Pow2(d.attempts + r.posts) - Pow2(d.attempts + 1))
  }

  /** n pauses from count c on, as long as the doubling is not capped. */
  lemma {:induction false} PausesDouble(c: nat, n: nat)
    requires c + n <= 6
    ensures Pauses(c, n) == 50 * (Pow2(c + n + 1) - Pow2(c + 1))
  {
    if n > 0 {
      PausesDouble(c, n - 1);
    }
  }

  lemma AttemptProcesses(d: Delivery, secret: string, net: Network, from: nat)
    requires AttemptsOk(d)
    ensures Processed(d, secret, net, from, Attempt(d, secret, net, from))
  {
    hide Pow2, Pauses, Failures;
    if d.status.Waiting? && secret != "" && d.target.parses {
      var budget := d.maxAttempts - d.attempts;
      FailuresIsFirst(net.success, from, budget);
      var failures := Failures(net.success, from, budget);
      PausesDouble(d.attempts, if failures < budget then failures else failures - 1);
      assert failures < budget ==> net.success(from + failures);
      assert failures == budget ==> !net.success(from + failures - 1);
    }
  }

  /** A fresh delivery whose five attempts all fail sleeps 1500 ms and is dead-lettered. */
  lemma FreshAllFail(d: Delivery, secret: string, net: Network, from: nat)
    requires AttemptsOk(d) && d.status.Waiting? && d.attempts == 0 && secret != "" && d.target.parses
    requires forall k: nat :: k < MAX_ATTEMPTS ==> !SuccessAt(net, from, k)
    ensures var r := Attempt(d, secret, net, from);
            r.posts == MAX_ATTEMPTS && r.slept == 1500 && r.row.status.DeadLetter? && r.row.attempts == MAX_ATTEMPTS
  {
    AttemptEnds(d, secret, net, from);
    TotalPause(MAX_ATTEMPTS);
    assert Pow2(5) == 32 by {
      assert Pow2(3) == 8;
    }
  }

  /**
   A retry starts over: whatever the dead letter went through before, its next delivery run succeeds
   exactly when one of the next five answers is a 2xx, and makes all five POSTs otherwise.
   */
  lemma RetryStartsOver(out: Outgoing, id: Uuid, secret: string, net: Network, from: nat)
    requires id in out.rows && AttemptsOk(out.rows[id]) && out.rows[id].status.DeadLetter?
    requires secret != "" && out.rows[id].target.parses
    ensures var (out', reply) := Retry(out, out.rows[id].tenant, id);
            && reply.RetryQueued? && id in out'.rows && AttemptsOk(out'.rows[id])
            && var r := Attempt(out'.rows[id], secret, net, from);
            && (r.row.status.Delivered? <==> exists k: nat :: k < MAX_ATTEMPTS && SuccessAt(net, from, k))
            && (!r.row.status.Delivered? ==> r.posts == MAX_ATTEMPTS && r.row.status.DeadLetter?)
            && (r.row.status.Delivered? && r.posts == 1 ==> r.row.attempts == 0 && r.row.lastError == "")
  {
    hide Attempt;
    var d := ResetForRetry(out.rows[id]);
    AttemptEnds(d, secret, net, from);
    if SuccessAt(net, from, 0) {
      FirstAnswer(d, secret, net, from);
    }
  }

  lemma FirstAnswer(d: Delivery, secret: string, net: Network, from: nat)
    requires AttemptsOk(d) && d.status.Waiting? && secret != "" && d.target.parses && SuccessAt(net, from, 0)
    ensures Attempt(d, secret, net, from).row == d.(status := Delivered)
  {
  }

  /** Whatever the case, only the status, the counter and the error text of the row can change, and it stays well kept. */
  lemma AttemptKeeps(d: Delivery, secret: string, net: Network, from: nat)
    requires AttemptsOk(d)
    ensures var row := Attempt(d, secret, net, from).row;
            && AttemptsOk(row)
            && row == d.(status := row.status, attempts := row.attempts, lastError := row.lastError)
            && (row.status.Waiting? ==> d.status.Waiting? && !d.target.parses)
            && (!d.status.Waiting? ==> row == d)
  {
    if d.status.Waiting? && secret != "" && d.target.parses {
      AttemptEnds(d, secret, net, from);
    }
  }
}
