/** The int64 arithmetic of the refund headroom test. */
module Headroom {
  import opened Types

  /** The largest payment amount for which the test cannot wrap: 2^62 - 1 cents. */
  const MAX_SAFE_AMOUNT: int := 0x3FFF_FFFF_FFFF_FFFF

  /** Go's addition: the int64 that differs from the exact sum by a multiple of 2^64. */
  lemma AddIsModular(a: Int64, b: Int64, x: Int64)
    ensures x == AddInt64(a, b) <==> (x - (a + b)) % TWO_TO_THE_64 == 0
  {
  }

  /** The code's test: `reserved+amt > payAmount` in int64. */
  predicate Exceeds(reserved: Int64, amount: Int64, total: Int64)
  {
    AddInt64(reserved, amount) > total
  }

  /** What the test is meant to decide. */
  predicate ReallyExceeds(reserved: int, amount: int, total: int)
  {
    reserved + amount > total
  }

  /** One call: the wrapped test agrees with exact arithmetic iff the sum is representable. */
  lemma ExactIffNoWrap(reserved: Int64, amount: Int64, total: Int64)
    requires 0 <= reserved && 0 < amount <= total
    ensures (Exceeds(reserved, amount, total) <==> ReallyExceeds(reserved, amount, total))
            <==> reserved + amount <= MAX_INT64
  {
    if reserved + amount > MAX_INT64 {
      assert AddInt64(reserved, amount) < 0;
    }
  }

  /** The test is exact on every reserved balance and every admissible amount of a payment. */
  ghost predicate ExactForPayment(total: Int64)
  {
    forall reserved: Int64, amount: Int64 | 0 <= reserved <= total && 0 < amount <= total ::
      Exceeds(reserved, amount, total) <==> ReallyExceeds(reserved, amount, total)
  }

  /** 2^62 - 1 is exactly the bound: up to it the test is always exact, above it not always. */
  lemma ExactIffSafeAmount(total: Int64)
    requires 0 < total
    ensures ExactForPayment(total) <==> total <= MAX_SAFE_AMOUNT
  {
    if total > MAX_SAFE_AMOUNT {
      ExactIffNoWrap(total, total, total);
      assert !(Exceeds(total, total, total) <==> ReallyExceeds(total, total, total));
    }
  }

  /**
   What the code maintains for any amount at all: either the reserved balance is within the
   payment, or the test has wrapped once, which needs a payment of at least 2^62 cents and leaves
   a balance that no longer fits in int64.
   */
  predicate Bounded(total: int, reserved: int)
  {
    0 <= reserved &&
    (reserved <= total || (total > MAX_SAFE_AMOUNT && MAX_INT64 < reserved <= 2 * total))
  }

  lemma AcceptedStaysBounded(total: Int64, reserved: Int64, amount: Int64)
    requires 0 < amount <= total && Bounded(total, reserved)
    requires !Exceeds(reserved, amount, total)
    ensures Bounded(total, reserved + amount)
  {
    ExactIffNoWrap(reserved, amount, total);
  }
}
