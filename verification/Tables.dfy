/** The money tables with their unique indexes, the statements that write them and the queries that read them. */
module Tables {
  import opened Types

  /**
   payments, refunds, ledger_events and async_outbox. paymentKeys and refundKeys are the unique
   indexes on (tenant_id, idempotency_scope, idempotency_key); the ledger is kept in commit order.
   */
  datatype Db = Db(
    payments: map<Uuid, Payment>,
    paymentKeys: map<Slot, Uuid>,
    refunds: map<Uuid, Refund>,
    refundKeys: map<Slot, Uuid>,
    ledger: seq<LedgerRow>,
    outbox: map<Uuid, OutboxRow>)

  const EMPTY_DB := Db(map[], map[], map[], map[], [], map[])

  // ---------- statements ----------

  function InsertPayment(db: Db, id: Uuid, row: Payment): Db
  {
    db.(payments := db.payments[id := row], paymentKeys := db.paymentKeys[PaymentSlot(row) := id])
  }

  function InsertRefund(db: Db, id: Uuid, row: Refund): Db
  {
    db.(refunds := db.refunds[id := row], refundKeys := db.refundKeys[RefundSlot(row) := id])
  }

  function InsertOutbox(db: Db, id: Uuid, row: OutboxRow): Db
  {
    db.(outbox := db.outbox[id := row])
  }

  /** The unique index on ledger_events (payment_id, dedupe_key). */
  predicate HasKey(ledger: seq<LedgerRow>, payment: Uuid, dedupe: DedupeKey)
  {
    exists i :: 0 <= i < |ledger| && ledger[i].payment == payment && ledger[i].dedupe == dedupe
  }

  /** ON CONFLICT (payment_id, dedupe_key) DO NOTHING */
  function AppendLedger(db: Db, row: LedgerRow): Db
  {
    if HasKey(db.ledger, row.payment, row.dedupe) then db else db.(ledger := db.ledger + [row])
  }

  lemma AppendTouchesLedger(db: Db, row: LedgerRow)
    ensures AppendLedger(db, row) == db.(ledger := AppendLedger(db, row).ledger)
  {
  }

  /** UPDATE payments SET status = 'succeeded' WHERE id = p AND status = 'pending' */
  function MarkPayment(db: Db, p: Uuid): Db
  {
    if p in db.payments && db.payments[p].status.Pending?
    then db.(payments := db.payments[p := db.payments[p].(status := Succeeded)])
    else db
  }

  function MarkRefund(db: Db, r: Uuid): Db
  {
    if r in db.refunds && db.refunds[r].status.Pending?
    then db.(refunds := db.refunds[r := db.refunds[r].(status := Succeeded)])
    else db
  }

  function MarkProcessed(db: Db, o: Uuid): Db
  {
    if o in db.outbox then db.(outbox := db.outbox[o := db.outbox[o].(processed := true)]) else db
  }

  // ---------- queries ----------

  function FindPayment(db: Db, slot: Slot): Option<Uuid>
  {
    if slot in db.paymentKeys && db.paymentKeys[slot] in db.payments then Some(db.paymentKeys[slot]) else None
  }

  function FindRefund(db: Db, slot: Slot): Option<Uuid>
  {
    if slot in db.refundKeys && db.refundKeys[slot] in db.refunds then Some(db.refundKeys[slot]) else None
  }

  function RefundsOf(db: Db, p: Uuid): map<Uuid, Refund>
  {
    map r | r in db.refunds && db.refunds[r].payment == p :: db.refunds[r]
  }

  ghost function SumAmounts(rows: map<Uuid, Refund>): int
  {
    if rows == map[] then 0
    else
      var r :| r in rows;
      rows[r].amount + SumAmounts(rows - {r})
  }

  /** SELECT COALESCE(SUM(amount_cents), 0); both stored statuses count. */
  ghost function Reserved(db: Db, p: Uuid): int
  {
    SumAmounts(RefundsOf(db, p))
  }

  lemma {:induction false} SumRemove(rows: map<Uuid, Refund>, r: Uuid)
    requires r in rows
    ensures SumAmounts(rows) == rows[r].amount + SumAmounts(rows - {r})
    decreases |rows|
  {
    var k :| k in rows && SumAmounts(rows) == rows[k].amount + SumAmounts(rows - {k});
    if k != r {
      SumRemove(rows - {k}, r);
      SumRemove(rows - {r}, k);
      assert rows - {k} - {r} == rows - {r} - {k};
    }
  }

  lemma SumInsert(rows: map<Uuid, Refund>, r: Uuid, row: Refund)
    requires r !in rows
    ensures SumAmounts(rows[r := row]) == SumAmounts(rows) + row.amount
  {
    SumRemove(rows[r := row], r);
    assert rows[r := row] - {r} == rows;
  }

  lemma SumUpdate(rows: map<Uuid, Refund>, r: Uuid, row: Refund)
    requires r in rows && rows[r].amount == row.amount
    ensures SumAmounts(rows[r := row]) == SumAmounts(rows)
  {
    SumRemove(rows, r);
    SumRemove(rows[r := row], r);
    assert rows[r := row] - {r} == rows - {r};
  }

  lemma {:induction false} SumNonNegative(rows: map<Uuid, Refund>)
    requires forall r | r in rows :: rows[r].amount >= 0
    ensures SumAmounts(rows) >= 0
    decreases |rows|
  {
    if rows != map[] {
      var k :| k in rows && SumAmounts(rows) == rows[k].amount + SumAmounts(rows - {k});
      SumNonNegative(rows - {k});
    }
  }
}
