/** The exact attempt and backoff arithmetic of one undisturbed ProcessDelivery. */
module Backoff {

  function Pow2(n: nat): nat
  {
    if n == 0 then 1 else 2 * Pow2(n - 1)
  }

  /** 50 * (1 << min(newAttempts, 6)) milliseconds */
  function Pause(newAttempts: nat): nat
  {
    50 * Pow2(if newAttempts < 6 then newAttempts else 6)
  }

  /** The pauses after failures c + 1 to c + n. */
  function Pauses(c: nat, n: nat): nat
  {
    if n == 0 then 0 else Pauses(c, n - 1) + Pause(c + n)
  }

  /** How many of the next n POSTs, from the from-th on, fail before the first that succeeds. */
  function Failures(net: nat -> bool, from: nat, n: nat): nat
    decreases n
  {
    if n == 0 || net(from) then 0 else 1 + Failures(net, from + 1, n - 1)
  }

  /** Failures is the position of the first success, or n when there is none. */
  lemma {:induction false} FailuresIsFirst(net: nat -> bool, from: nat, n: nat)
    ensures Failures(net, from, n) <= n
    ensures forall i: nat :: from <= i < from + Failures(net, from, n) ==> !net(i)
    ensures Failures(net, from, n) < n ==> net(from + Failures(net, from, n))
    decreases n
  {
    if n != 0 && !net(from) {
      FailuresIsFirst(net, from + 1, n - 1);
    }
  }

  /** Splitting off a run of failures. */
  lemma {:induction false} FailuresAfter(net: nat -> bool, from: nat, n: nat, done: nat)
    requires done <= n && forall i: nat :: from <= i < from + done ==> !net(i)
    ensures Failures(net, from, n) == done + Failures(net, from + done, n - done)
    decreases done
  {
    if done != 0 {
      FailuresAfter(net, from + 1, n - 1, done - 1);
    }
  }

  /** A delivery whose m attempts all fail sleeps 50 * (2^m - 2) ms in all, up to seven attempts. */
  lemma {:induction false} TotalPause(m: nat)
    requires 1 <= m <= 7
    ensures Pauses(0, m - 1) == 50 * (Pow2(m) - 2)
  {
    if m > 1 {
      TotalPause(m - 1);
    }
  }

  /** From the seventh attempt on, each further attempt adds 3200 ms. */
  lemma LongPause(m: nat)
    requires m >= 6
    ensures Pauses(0, m) == Pauses(0, m - 1) + 3200
  {
    assert Pow2(6) == 64 by {
      assert Pow2(3) == 8;
    }
  }
}
