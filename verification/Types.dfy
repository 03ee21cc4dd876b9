/** Values shared by every module: identifiers, 64-bit integers and the rows of the tables. */
module Types {

  datatype Option<+T> = None | Some(value: T)

  /** A UUID in its canonical text form. */
  datatype Uuid = Uuid(text: string)

  const MAX_INT64: int := 0x7FFF_FFFF_FFFF_FFFF
  const TWO_TO_THE_64: int := 0x1_0000_0000_0000_0000

  type Int64 = x: int | -MAX_INT64 - 1 <= x <= MAX_INT64

  /** Go's `+` on int64: two's complement, wrapping silently. */
  function AddInt64(a: Int64, b: Int64): (sum: Int64)
  {
    if a + b > MAX_INT64 then a + b - TWO_TO_THE_64
    else if a + b < -MAX_INT64 - 1 then a + b + TWO_TO_THE_64
    else a + b
  }

  /** The only two values the code ever stores in payments.status and refunds.status. */
  datatype Status = Pending | Succeeded

  /** The request bodies that SHA-256 fingerprints; the digest is taken to be injective. */
  datatype PaymentBody = PaymentBody(amount: Int64, currency: string)
  datatype RefundBody = RefundBody(payment: Uuid, amount: Int64)

  /** One entry of a unique index (tenant_id, idempotency_scope, idempotency_key); the scope is fixed per table. */
  datatype Slot = Slot(tenant: Uuid, key: string)

  datatype Payment = Payment(
    tenant: Uuid, amount: Int64, currency: string, status: Status, key: string, hash: PaymentBody)

  datatype Refund = Refund(
    tenant: Uuid, payment: Uuid, amount: Int64, currency: string, status: Status, key: string, hash: RefundBody)

  /** Event type and payload of one ledger row. */
  datatype Event =
    | PaymentAccepted(amount: Int64, currency: string)
    | SettlementCompleted
    | RefundRequested(refund: Uuid, amount: Int64, currency: string)
    | RefundSucceeded(refund: Uuid)

  /** The dedupe_key of a ledger row; its text is DedupeText in module Text. */
  datatype DedupeKey =
    | AcceptedKey
    | SettledKey
    | RequestedKey(refund: Uuid)
    | RefundedKey(refund: Uuid)

  datatype LedgerRow = LedgerRow(id: nat, tenant: Uuid, payment: Uuid, dedupe: DedupeKey, event: Event)

  /** What an outbox row or a broker job asks to settle. */
  datatype Subject = ThePayment(payment: Uuid) | TheRefund(refund: Uuid)

  datatype Kind = PaymentSettlement | RefundSettlement | OtherKind(name: string)

  /** The JSON payload of an outbox row: one of the two objects the code writes, or anything else. */
  datatype Payload = PaymentIdPayload(payment: Uuid) | RefundIdPayload(refund: Uuid) | OtherPayload(text: string)

  datatype OutboxRow = OutboxRow(kind: Kind, payload: Payload, createdAt: nat, processed: bool)

  function PaymentSlot(p: Payment): Slot { Slot(p.tenant, p.key) }

  function RefundSlot(r: Refund): Slot { Slot(r.tenant, r.key) }
}
