/**
 The service calls and worker transactions, each as one atomic function of the tables.
 Generated ids, timestamps and the row a claim happens to return come from the Fresh argument.
 */
module Operations {
  import opened Types
  import opened Headroom
  import opened Text
  import opened Tables

  datatype Fresh = Fresh(id: Uuid, ledgerId: nat, outboxId: Uuid, createdAt: nat, claim: Option<Uuid>)

  datatype Error =
    | InvalidInput | IdempotencyMismatch | NotFound | NotRefundable | AmountExceeded
    | SumOverflow  // the numeric SUM does not fit the int64 it is scanned into
    | PoisonRow    // tryProcessOutbox cannot decode or settle the row it claimed

  datatype Response =
    | Failed(error: Error)
    | PaymentReply(id: Uuid, amount: Int64, currency: string, status: Status, created: bool)
    | RefundReply(id: Uuid, payment: Uuid, amount: Int64, currency: string, status: Status, created: bool)
    | Settled
    | Idle
    | Followup(subject: Subject)

  datatype Op =
    | CreatePayment(tenant: Uuid, key: string, amount: Int64, currency: string)
    | CreateRefund(tenant: Uuid, payment: Uuid, key: string, amount: Int64)
    | Settle(subject: Subject)
    | ProcessOutbox

  // ---------- rows written ----------

  function NewPayment(tenant: Uuid, key: string, amount: Int64, currency: string): Payment
  {
    Payment(tenant, amount, currency, Pending, key, PaymentFingerprint(amount, currency))
  }

  function AcceptedRow(id: nat, p: Uuid, row: Payment): LedgerRow
  {
    LedgerRow(id, row.tenant, p, AcceptedKey, PaymentAccepted(row.amount, row.currency))
  }

  function SettledRow(id: nat, tenant: Uuid, p: Uuid): LedgerRow
  {
    LedgerRow(id, tenant, p, SettledKey, SettlementCompleted)
  }

  function RequestedRow(id: nat, r: Uuid, row: Refund): LedgerRow
  {
    LedgerRow(id, row.tenant, row.payment, RequestedKey(r), RefundRequested(r, row.amount, row.currency))
  }

  function RefundedRow(id: nat, r: Uuid, row: Refund): LedgerRow
  {
    LedgerRow(id, row.tenant, row.payment, RefundedKey(r), RefundSucceeded(r))
  }

  function PaymentJob(p: Uuid, at: nat): OutboxRow { OutboxRow(PaymentSettlement, PaymentIdPayload(p), at, false) }

  function RefundJob(r: Uuid, at: nat): OutboxRow { OutboxRow(RefundSettlement, RefundIdPayload(r), at, false) }

  // ---------- whole transactions ----------

  function AddPayment(db: Db, row: Payment, f: Fresh): Db
  {
    InsertOutbox(AppendLedger(InsertPayment(db, f.id, row), AcceptedRow(f.ledgerId, f.id, row)),
                 f.outboxId, PaymentJob(f.id, f.createdAt))
  }

  function AddRefund(db: Db, row: Refund, f: Fresh): Db
  {
    InsertOutbox(AppendLedger(InsertRefund(db, f.id, row), RequestedRow(f.ledgerId, f.id, row)),
                 f.outboxId, RefundJob(f.id, f.createdAt))
  }

  function DoCreatePayment(db: Db, tenant: Uuid, key: string, amount: Int64, currency: string, f: Fresh): (Db, Response)
  {
    if !ValidPayment(amount, currency, key) then (db, Failed(InvalidInput))
    else
      var row := NewPayment(tenant, key, amount, Normal(currency));
      match FindPayment(db, PaymentSlot(row))
      case Some(p) => (db, ReplayPayment(db, p, row))
      case None => (AddPayment(db, row, f), PaymentReply(f.id, row.amount, row.currency, Pending, true))
  }

  /** The answer when the insert hits the unique index: the stored row must carry the same fingerprint. */
  function ReplayPayment(db: Db, p: Uuid, row: Payment): Response
    requires p in db.payments
  {
    if db.payments[p].hash != row.hash then Failed(IdempotencyMismatch)
    else PaymentReply(p, row.amount, row.currency, db.payments[p].status, false)
  }

  /** amount_cents 0 stands for the whole payment. */
  function EffectiveAmount(requested: Int64, total: Int64): Int64
  {
    if requested == 0 then total else requested
  }

  datatype Check = Refuse(error: Error) | Admit(amount: Int64, currency: string)

  /** The checks on the locked payment row. */
  function CheckPayment(db: Db, tenant: Uuid, p: Uuid, requested: Int64): (c: Check)
    ensures c.Admit? ==> p in db.payments
  {
    if p !in db.payments || db.payments[p].tenant != tenant then Refuse(NotFound)
    else if !db.payments[p].status.Succeeded? then Refuse(NotRefundable)
    else
      var amount := EffectiveAmount(requested, db.payments[p].amount);
      if amount <= 0 || amount > db.payments[p].amount then Refuse(InvalidInput)
      else Admit(amount, Normal(db.payments[p].currency))
  }

  /** The checks on the sum of the payment's refunds. */
  function CheckHeadroom(reserved: int, amount: Int64, total: Int64): Option<Error>
  {
    if !(-MAX_INT64 - 1 <= reserved <= MAX_INT64) then Some(SumOverflow)
    else if Exceeds(reserved, amount, total) then Some(AmountExceeded)
    else None
  }

  function NewRefund(tenant: Uuid, p: Uuid, key: string, amount: Int64, currency: string): Refund
  {
    Refund(tenant, p, amount, currency, Pending, key, RefundBody(p, amount))
  }

  function ReplayRefund(db: Db, r: Uuid, row: Refund): Response
    requires r in db.refunds
  {
    if db.refunds[r].hash != row.hash then Failed(IdempotencyMismatch)
    else RefundReply(r, row.payment, row.amount, row.currency, db.refunds[r].status, false)
  }

  ghost function DoCreateRefund(db: Db, tenant: Uuid, p: Uuid, key: string, requested: Int64, f: Fresh): (Db, Response)
  {
    if !ValidKey(key) then (db, Failed(InvalidInput))
    else
      match CheckPayment(db, tenant, p, requested)
      case Refuse(error) => (db, Failed(error))
      case Admit(amount, currency) =>
        match CheckHeadroom(Reserved(db, p), amount, db.payments[p].amount)
        case Some(error) => (db, Failed(error))
        case None =>
          var row := NewRefund(tenant, p, key, amount, currency);
          match FindRefund(db, RefundSlot(row))
          case Some(r) => (db, ReplayRefund(db, r, row))
          case None => (AddRefund(db, row, f), RefundReply(f.id, p, amount, currency, Pending, true))
  }

  /** SettleMockTx for a payment. */
  function SettlePayment(db: Db, p: Uuid, ledgerId: nat): Db
  {
    if p !in db.payments || db.payments[p].status.Succeeded? then db
    else MarkPayment(AppendLedger(db, SettledRow(ledgerId, db.payments[p].tenant, p)), p)
  }

  /** SettleMockTx for a refund finds the refund joined with a payment that has not succeeded. */
  predicate RefundStuck(db: Db, r: Uuid)
  {
    r in db.refunds && db.refunds[r].payment in db.payments && db.refunds[r].status.Pending?
    && !db.payments[db.refunds[r].payment].status.Succeeded?
  }

  /** SettleMockTx for a refund, when it does not fail. */
  function SettleRefund(db: Db, r: Uuid, ledgerId: nat): Db
  {
    if r !in db.refunds || db.refunds[r].payment !in db.payments || !db.refunds[r].status.Pending? || RefundStuck(db, r)
    then db
    else MarkRefund(AppendLedger(db, RefundedRow(ledgerId, r, db.refunds[r])), r)
  }

  /** A settlement leaves the payment succeeded and touches nothing else but the ledger. */
  lemma SettlePaymentWrites(db: Db, p: Uuid, ledgerId: nat)
    ensures var after := SettlePayment(db, p, ledgerId);
            && after == db.(payments := after.payments, ledger := after.ledger)
            && after.payments == if p in db.payments then db.payments[p := db.payments[p].(status := Succeeded)] else db.payments
  {
    hide AppendLedger;
    if p in db.payments && db.payments[p].status.Pending? {
      AppendTouchesLedger(db, SettledRow(ledgerId, db.payments[p].tenant, p));
    } else if p in db.payments {
      assert db.payments[p] == db.payments[p].(status := Succeeded);
      assert db.payments == db.payments[p := db.payments[p]];
    }
  }

  lemma SettleRefundWrites(db: Db, r: Uuid, ledgerId: nat)
    ensures var after := SettleRefund(db, r, ledgerId);
            && after == db.(refunds := after.refunds, ledger := after.ledger)
            && (after.refunds == db.refunds
                || (r in db.refunds && after.refunds == db.refunds[r := db.refunds[r].(status := Succeeded)]))
            && (r in db.refunds && db.refunds[r].payment in db.payments && !RefundStuck(db, r) ==>
                  after.refunds == db.refunds[r := db.refunds[r].(status := Succeeded)])
  {
    hide AppendLedger;
    if r in db.refunds {
      AppendTouchesLedger(db, RefundedRow(ledgerId, r, db.refunds[r]));
      if db.refunds[r].status.Succeeded? {
        assert db.refunds[r] == db.refunds[r].(status := Succeeded);
        assert db.refunds == db.refunds[r := db.refunds[r]];
      }
    }
  }

  function SettleSubject(db: Db, s: Subject, ledgerId: nat): Db
  {
    match s
    case ThePayment(p) => SettlePayment(db, p, ledgerId)
    case TheRefund(r) => SettleRefund(db, r, ledgerId)
  }

  lemma SettleKeepsOutbox(db: Db, s: Subject, ledgerId: nat)
    ensures SettleSubject(db, s, ledgerId).outbox == db.outbox
  {
    hide SettlePayment, SettleRefund;
    match s
    case ThePayment(p) => SettlePaymentWrites(db, p, ledgerId);
    case TheRefund(r) => SettleRefundWrites(db, r, ledgerId);
  }

  predicate Stuck(db: Db, s: Subject) { s.TheRefund? && RefundStuck(db, s.refund) }

  /** Decoding an outbox row by its kind. */
  function Decode(row: OutboxRow): Option<Subject>
  {
    match (row.kind, row.payload)
    case (PaymentSettlement, PaymentIdPayload(p)) => Some(ThePayment(p))
    case (RefundSettlement, RefundIdPayload(r)) => Some(TheRefund(r))
    case _ => None
  }

  predicate Claimable(db: Db, o: Uuid) { o in db.outbox && !db.outbox[o].processed }

  function DoProcessOutbox(db: Db, f: Fresh): (Db, Response)
  {
    match f.claim
    case None => (db, Idle)
    case Some(o) =>
      if !Claimable(db, o) then (db, Idle)
      else
        match Decode(db.outbox[o])
        case None => (db, Failed(PoisonRow))
        case Some(s) =>
          if Stuck(db, s) then (db, Failed(PoisonRow))
          else (MarkProcessed(SettleSubject(db, s, f.ledgerId), o), Followup(s))
  }

  ghost function Exec(db: Db, op: Op, f: Fresh): (Db, Response)
  {
    match op
    case CreatePayment(tenant, key, amount, currency) => DoCreatePayment(db, tenant, key, amount, currency, f)
    case CreateRefund(tenant, p, key, amount) => DoCreateRefund(db, tenant, p, key, amount, f)
    case Settle(s) =>
      if Stuck(db, s) then (db, Failed(PoisonRow)) else (SettleSubject(db, s, f.ledgerId), Settled)
    case ProcessOutbox => DoProcessOutbox(db, f)
  }

  /** The row a create would insert. */
  function PaymentRowOf(op: Op): Payment
    requires op.CreatePayment?
  {
    NewPayment(op.tenant, op.key, op.amount, Normal(op.currency))
  }

  function RefundRowOf(op: Op, amount: Int64, currency: string): Refund
    requires op.CreateRefund?
  {
    NewRefund(op.tenant, op.payment, op.key, amount, currency)
  }

  // ---------- what the generators promise ----------

  /** nextval is above every id the payment's ledger already holds. */
  predicate LedgerIdFresh(db: Db, p: Uuid, ledgerId: nat)
  {
    forall i :: 0 <= i < |db.ledger| && db.ledger[i].payment == p ==> db.ledger[i].id < ledgerId
  }

  /** Only a settlement that writes needs a ledger id. */
  predicate SubjectIdFresh(db: Db, s: Subject, ledgerId: nat)
  {
    match s
    case ThePayment(p) => p in db.payments && db.payments[p].status.Pending? ==> LedgerIdFresh(db, p, ledgerId)
    case TheRefund(r) =>
      r in db.refunds && db.refunds[r].status.Pending? ==> LedgerIdFresh(db, db.refunds[r].payment, ledgerId)
  }

  predicate FreshFor(db: Db, op: Op, f: Fresh)
  {
    match op
    case CreatePayment(_, _, _, _) => f.id !in db.payments && f.outboxId !in db.outbox
    case CreateRefund(_, p, _, _) => f.id !in db.refunds && f.outboxId !in db.outbox && LedgerIdFresh(db, p, f.ledgerId)
    case Settle(s) => SubjectIdFresh(db, s, f.ledgerId)
    case ProcessOutbox =>
      f.claim.Some? && Claimable(db, f.claim.value) ==>
        Decode(db.outbox[f.claim.value]).Some? ==>
          SubjectIdFresh(db, Decode(db.outbox[f.claim.value]).value, f.ledgerId)
  }

  /** A call that writes must have been given fresh ids; one that writes nothing uses none. */
  ghost predicate Admissible(db: Db, op: Op, f: Fresh)
  {
    Exec(db, op, f).0 == db || FreshFor(db, op, f)
  }

  datatype Call = Call(op: Op, gen: Fresh, response: Response)

  /** Running calls one at a time. */
  ghost function Run(db: Db, calls: seq<Call>): Db
  {
    if calls == [] then db
    else
      var n := |calls| - 1;
      Exec(Run(db, calls[..n]), calls[n].op, calls[n].gen).0
  }

  /** Every recorded response is the one the serial execution gives, with properly generated ids. */
  ghost predicate Serial(db: Db, calls: seq<Call>)
  {
    calls == [] ||
    var n := |calls| - 1;
    var before := Run(db, calls[..n]);
    && Serial(db, calls[..n])
    && Admissible(before, calls[n].op, calls[n].gen)
    && calls[n].response == Exec(before, calls[n].op, calls[n].gen).1
  }
}
