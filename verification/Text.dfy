/** String normalisation, request validation and the textual keys of the unique indexes. Characters are ASCII. */
module Text {
  import opened Types

  predicate IsSpace(c: char)
  {
    c == ' ' || c == '\t' || c == '\n' || c == '\r' || c == '\U{000B}' || c == '\U{000C}'
  }

  function TrimLeft(s: string): string
  {
    if s != "" && IsSpace(s[0]) then TrimLeft(s[1..]) else s
  }

  function TrimRight(s: string): string
  {
    if s != "" && IsSpace(s[|s| - 1]) then TrimRight(s[..|s| - 1]) else s
  }

  function TrimSpace(s: string): string { TrimRight(TrimLeft(s)) }

  function UpperChar(c: char): char
  {
    if 'a' <= c <= 'z' then c - 'a' + 'A' else c
  }

  function ToUpper(s: string): string
  {
    if s == "" then "" else [UpperChar(s[0])] + ToUpper(s[1..])
  }

  lemma {:induction false} ToUpperAt(s: string)
    ensures |ToUpper(s)| == |s| && forall i :: 0 <= i < |s| ==> ToUpper(s)[i] == UpperChar(s[i])
  {
    if s != "" {
      ToUpperAt(s[1..]);
    }
  }

  /** strings.ToUpper(strings.TrimSpace(currency)) */
  function Normal(currency: string): string { ToUpper(TrimSpace(currency)) }

  predicate ValidKey(key: string) { TrimSpace(key) != "" && |key| <= 200 }

  predicate ValidPayment(amount: Int64, currency: string, key: string)
  {
    ValidKey(key) && 0 < amount && |TrimSpace(currency)| == 3
  }

  /** RequestFingerprint normalises again before hashing. */
  function PaymentFingerprint(amount: Int64, currency: string): PaymentBody
  {
    PaymentBody(amount, Normal(currency))
  }

  predicate Trimmed(s: string)
  {
    s == "" || (!IsSpace(s[0]) && !IsSpace(s[|s| - 1]))
  }

  lemma {:induction false} TrimLeftStart(s: string)
    ensures var t := TrimLeft(s); t == "" || !IsSpace(t[0])
    ensures var t := TrimLeft(s); t == "" || t[|t| - 1] == s[|s| - 1]
  {
    if s != "" && IsSpace(s[0]) {
      TrimLeftStart(s[1..]);
    }
  }

  lemma {:induction false} TrimRightEnd(s: string)
    ensures var t := TrimRight(s); t == "" || (!IsSpace(t[|t| - 1]) && t[0] == s[0])
  {
    if s != "" && IsSpace(s[|s| - 1]) {
      TrimRightEnd(s[..|s| - 1]);
    }
  }

  lemma TrimmedIsTrimmed(s: string)
    ensures Trimmed(TrimSpace(s))
  {
    TrimLeftStart(s);
    TrimRightEnd(TrimLeft(s));
  }

  lemma {:induction false} UpperIsFixed(s: string)
    requires Trimmed(s)
    ensures ToUpper(ToUpper(s)) == ToUpper(s) && Trimmed(ToUpper(s))
  {
    var u := ToUpper(s);
    ToUpperAt(s);
    ToUpperAt(u);
    forall i | 0 <= i < |u| ensures ToUpper(u)[i] == u[i] {
      assert u[i] == UpperChar(s[i]);
    }
  }

  /** Normalising twice changes nothing, so hashing a normalised currency hashes the same body. */
  lemma NormalIdempotent(currency: string, amount: Int64)
    ensures Normal(Normal(currency)) == Normal(currency)
    ensures PaymentFingerprint(amount, Normal(currency)) == PaymentFingerprint(amount, currency)
    ensures |Normal(currency)| == |TrimSpace(currency)|
  {
    TrimmedIsTrimmed(currency);
    ToUpperAt(TrimSpace(currency));
    UpperIsFixed(TrimSpace(currency));
  }

  function DedupeText(k: DedupeKey): string
  {
    match k
    case AcceptedKey => "payment.accepted"
    case SettledKey => "settlement.completed"
    case RequestedKey(r) => "refund:" + r.text + ":requested"
    case RefundedKey(r) => "refund:" + r.text + ":succeeded"
  }

  /** The strings stored in ledger_events.dedupe_key collide only for the same logical key. */
  lemma DedupeTextInjective(a: DedupeKey, b: DedupeKey)
    requires DedupeText(a) == DedupeText(b)
    ensures a == b
  {
    var s, t := DedupeText(a), DedupeText(b);
    assert s[0] == t[0] && s[|s| - 3] == t[|t| - 3];
    match a
    case RequestedKey(r) => assert s[7..|s| - 10] == r.text; assert b.RequestedKey?; assert t[7..|t| - 10] == b.refund.text;
    case RefundedKey(r) => assert s[7..|s| - 10] == r.text; assert b.RefundedKey?; assert t[7..|t| - 10] == b.refund.text;
    case _ =>
  }

  /** webhook_deliveries.merchant_idempotency_key, one family per event type. */
  function MerchantText(s: Subject): string
  {
    match s
    case ThePayment(p) => "payflow/evt/payment.settled/" + p.text
    case TheRefund(r) => "payflow/evt/refund.succeeded/" + r.text
  }

  /** The two merchant-key families never meet, whatever the ids. */
  lemma MerchantTextInjective(a: Subject, b: Subject)
    requires MerchantText(a) == MerchantText(b)
    ensures a == b
  {
    var s, t := MerchantText(a), MerchantText(b);
    assert s[12] == t[12];
    match a
    case ThePayment(p) => assert s[28..] == p.text; assert t[28..] == b.payment.text;
    case TheRefund(r) => assert s[29..] == r.text; assert t[29..] == b.refund.text;
  }
}
