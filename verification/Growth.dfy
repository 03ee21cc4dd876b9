/** Tables only grow: rows are never deleted, only statuses and processed flags move, and only forward. */
module Growth {
  import opened Types
  import opened Text
  import opened Tables
  import opened Operations
  import opened Invariant
  import opened Runs

  predicate StatusForward(a: Status, b: Status) { a.Succeeded? ==> b.Succeeded? }

  ghost predicate PaymentsGrow(rows: map<Uuid, Payment>, rows': map<Uuid, Payment>)
  {
    forall p | p in rows ::
      p in rows' && rows'[p] == rows[p].(status := rows'[p].status) && StatusForward(rows[p].status, rows'[p].status)
  }

  ghost predicate RefundsGrow(rows: map<Uuid, Refund>, rows': map<Uuid, Refund>)
  {
    forall r | r in rows ::
      r in rows' && rows'[r] == rows[r].(status := rows'[r].status) && StatusForward(rows[r].status, rows'[r].status)
  }

  ghost predicate KeysGrow(keys: map<Slot, Uuid>, keys': map<Slot, Uuid>)
  {
    forall s | s in keys :: s in keys' && keys'[s] == keys[s]
  }

  ghost predicate OutboxGrows(rows: map<Uuid, OutboxRow>, rows': map<Uuid, OutboxRow>)
  {
    forall o | o in rows ::
      o in rows' && rows'[o] == rows[o].(processed := rows'[o].processed) && (rows[o].processed ==> rows'[o].processed)
  }

  ghost predicate Grows(db: Db, db': Db)
  {
    && PaymentsGrow(db.payments, db'.payments) && KeysGrow(db.paymentKeys, db'.paymentKeys)
    && RefundsGrow(db.refunds, db'.refunds) && KeysGrow(db.refundKeys, db'.refundKeys)
    && OutboxGrows(db.outbox, db'.outbox) && db.ledger <= db'.ledger
  }

  lemma GrowsTransitive(a: Db, b: Db, c: Db)
    requires Grows(a, b) && Grows(b, c)
    ensures Grows(a, c)
  {
  }

  lemma Reflexive(db: Db)
    ensures Grows(db, db)
  {
  }

  lemma AppendGrows(db: Db, row: LedgerRow)
    ensures Grows(db, AppendLedger(db, row))
  {
    Reflexive(db);
    hide HasKey, PaymentsGrow, RefundsGrow, KeysGrow, OutboxGrows;
  }

  lemma MarkPaymentGrows(db: Db, p: Uuid)
    ensures Grows(db, MarkPayment(db, p))
  {
    Reflexive(db);
    hide RefundsGrow, KeysGrow, OutboxGrows;
  }

  lemma MarkRefundGrows(db: Db, r: Uuid)
    ensures Grows(db, MarkRefund(db, r))
  {
    Reflexive(db);
    hide PaymentsGrow, KeysGrow, OutboxGrows;
  }

  lemma MarkProcessedGrows(db: Db, o: Uuid)
    ensures Grows(db, MarkProcessed(db, o))
  {
    Reflexive(db);
    hide PaymentsGrow, RefundsGrow, KeysGrow;
  }

  lemma AddPaymentGrows(db: Db, row: Payment, f: Fresh)
    requires f.id !in db.payments && f.outboxId !in db.outbox && PaymentSlot(row) !in db.paymentKeys
    ensures Grows(db, AddPayment(db, row, f))
  {
  }

  lemma AddRefundGrows(db: Db, row: Refund, f: Fresh)
    requires f.id !in db.refunds && f.outboxId !in db.outbox && RefundSlot(row) !in db.refundKeys
    ensures Grows(db, AddRefund(db, row, f))
  {
  }

  lemma SettleGrows(db: Db, s: Subject, ledgerId: nat)
    ensures Grows(db, SettleSubject(db, s, ledgerId))
  {
    hide Grows, AppendLedger, MarkPayment, MarkRefund;
    Reflexive(db);
    match s
    case ThePayment(p) =>
      if p in db.payments && !db.payments[p].status.Succeeded? {
        var row := SettledRow(ledgerId, db.payments[p].tenant, p);
        AppendGrows(db, row);
        MarkPaymentGrows(AppendLedger(db, row), p);
        GrowsTransitive(db, AppendLedger(db, row), SettlePayment(db, p, ledgerId));
      }
    case TheRefund(r) =>
      if r in db.refunds {
        var row := RefundedRow(ledgerId, r, db.refunds[r]);
        AppendGrows(db, row);
        MarkRefundGrows(AppendLedger(db, row), r);
        GrowsTransitive(db, AppendLedger(db, row), MarkRefund(AppendLedger(db, row), r));
      }
  }

  lemma ExecGrows(db: Db, op: Op, f: Fresh)
    requires Inv(db) && Admissible(db, op, f)
    ensures Grows(db, Exec(db, op, f).0)
  {
    hide Grows, Inv, AddPayment, AddRefund, SettleSubject;
    hide MarkProcessed, Reserved, LedgerIdFresh, SubjectIdFresh, Normal;
    Reflexive(db);
    if Exec(db, op, f).0 != db {
      match op
      case CreatePayment(tenant, key, amount, currency) =>
        var row := NewPayment(tenant, key, amount, Normal(currency));
        FreeSlot(db, PaymentSlot(row));
        AddPaymentGrows(db, row, f);
      case CreateRefund(tenant, p, key, amount) =>
        var c := CheckPayment(db, tenant, p, amount);
        var row := NewRefund(tenant, p, key, c.amount, c.currency);
        FreeSlot(db, RefundSlot(row));
        AddRefundGrows(db, row, f);
      case Settle(s) => SettleGrows(db, s, f.ledgerId);
      case ProcessOutbox =>
        var o := f.claim.value;
        var s := Decode(db.outbox[o]).value;
        var settled := SettleSubject(db, s, f.ledgerId);
        SettleGrows(db, s, f.ledgerId);
        MarkProcessedGrows(settled, o);
        GrowsTransitive(db, settled, MarkProcessed(settled, o));
    }
  }

  /** Along a serial run every later state extends every earlier one. */
  lemma {:induction false} RunGrows(db: Db, calls: seq<Call>, i: nat)
    requires Inv(db) && Serial(db, calls) && i <= |calls|
    ensures Serial(db, calls[..i]) && Inv(Run(db, calls[..i]))
    ensures Grows(Run(db, calls[..i]), Run(db, calls))
  {
    hide Inv, Grows, Exec, Admissible;
    if i == |calls| {
      assert calls[..i] == calls;
      RunInv(db, calls);
      Reflexive(Run(db, calls));
    } else {
      var n := |calls| - 1;
      RunGrows(db, calls[..n], i);
      assert calls[..n][..i] == calls[..i];
      RunInv(db, calls[..n]);
      ExecGrows(Run(db, calls[..n]), calls[n].op, calls[n].gen);
      GrowsTransitive(Run(db, calls[..i]), Run(db, calls[..n]), Run(db, calls));
    }
  }

  lemma {:induction false} SumSubset(rows: map<Uuid, Refund>, more: map<Uuid, Refund>)
    requires forall r | r in rows :: r in more && more[r].amount == rows[r].amount
    requires forall r | r in more :: more[r].amount >= 0
    ensures SumAmounts(rows) <= SumAmounts(more)
    decreases |rows|
  {
    if rows == map[] {
      SumNonNegative(more);
    } else {
      var k :| k in rows;
      SumRemove(rows, k);
      SumRemove(more, k);
      SumSubset(rows - {k}, more - {k});
    }
  }

  lemma RefundsPositive(db: Db, p: Uuid)
    requires Inv(db)
    ensures forall r | r in RefundsOf(db, p) :: RefundsOf(db, p)[r].amount > 0
  {
    hide Explained, LedgerRowsOk, OutboxOk, PaymentsOk;
  }

  /** The reserved balance of a payment never goes down. */
  lemma ReservedGrows(db: Db, db': Db, p: Uuid)
    requires Inv(db') && Grows(db, db')
    ensures Reserved(db, p) <= Reserved(db', p)
  {
    RefundsPositive(db', p);
    hide Inv, PaymentsGrow, OutboxGrows, SumAmounts;
    SumSubset(RefundsOf(db, p), RefundsOf(db', p));
  }
}
