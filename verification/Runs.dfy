/** What holds after every serial run of calls, and how one run's states relate to later ones. */
module Runs {
  import opened Types
  import opened Headroom
  import opened Text
  import opened Tables
  import opened Operations
  import opened Invariant

  // ---------- every call keeps the invariant ----------

  lemma CreatePaymentInv(db: Db, tenant: Uuid, key: string, amount: Int64, currency: string, f: Fresh)
    requires Inv(db) && Admissible(db, CreatePayment(tenant, key, amount, currency), f)
    ensures Inv(DoCreatePayment(db, tenant, key, amount, currency, f).0)
  {
    hide Inv, AddPayment, Normal, ValidPayment;
    var row := NewPayment(tenant, key, amount, Normal(currency));
    if ValidPayment(amount, currency, key) && FindPayment(db, PaymentSlot(row)).None? && AddPayment(db, row, f) != db {
      NewPaymentGood(tenant, key, amount, currency);
      FreeSlot(db, PaymentSlot(row));
      AddPaymentInv(db, row, f);
    }
  }

  /** Under the invariant an insert conflicts exactly when its slot is in the unique index. */
  lemma FreeSlot(db: Db, s: Slot)
    requires Inv(db)
    ensures FindPayment(db, s).None? <==> s !in db.paymentKeys
    ensures FindRefund(db, s).None? <==> s !in db.refundKeys
  {
  }

  /** An insert under a free key changes the tables. */
  lemma PaymentInsertsChange(db: Db, row: Payment, f: Fresh)
    requires PaymentSlot(row) !in db.paymentKeys
    ensures AddPayment(db, row, f) != db
  {
    assert PaymentSlot(row) in AddPayment(db, row, f).paymentKeys;
  }

  lemma RefundInsertsChange(db: Db, row: Refund, f: Fresh)
    requires RefundSlot(row) !in db.refundKeys
    ensures AddRefund(db, row, f) != db
  {
    assert RefundSlot(row) in AddRefund(db, row, f).refundKeys;
  }

  lemma NewPaymentGood(tenant: Uuid, key: string, amount: Int64, currency: string)
    requires ValidPayment(amount, currency, key)
    ensures GoodPayment(NewPayment(tenant, key, amount, Normal(currency)))
  {
    hide Normal;
    NormalIdempotent(currency, amount);
  }

  /** The row a create inserts agrees with its payment and keeps the balance bounded. */
  lemma NewRefundGood(db: Db, tenant: Uuid, p: Uuid, key: string, requested: Int64)
    requires Inv(db) && CheckPayment(db, tenant, p, requested).Admit?
    requires CheckHeadroom(Reserved(db, p), CheckPayment(db, tenant, p, requested).amount, db.payments[p].amount).None?
    ensures var c := CheckPayment(db, tenant, p, requested);
            var row := NewRefund(tenant, p, key, c.amount, c.currency);
            GoodRefund(row, db.payments[p]) && Bounded(db.payments[p].amount, Reserved(db, p) + row.amount)
  {
    hide Inv, Reserved, Normal;
    var c := CheckPayment(db, tenant, p, requested);
    RefundsBounded(db, p);
    StoredNormal(db, p);
    AcceptedStaysBounded(db.payments[p].amount, Reserved(db, p), c.amount);
  }

  lemma StoredNormal(db: Db, p: Uuid)
    requires Inv(db) && p in db.payments
    ensures Normal(db.payments[p].currency) == db.payments[p].currency
  {
    hide Normal, RefundsOk, Explained, LedgerRowsOk, OutboxOk;
  }

  lemma CreateRefundInv(db: Db, tenant: Uuid, p: Uuid, key: string, requested: Int64, f: Fresh)
    requires Inv(db) && Admissible(db, CreateRefund(tenant, p, key, requested), f)
    ensures Inv(DoCreateRefund(db, tenant, p, key, requested, f).0)
  {
    hide Inv, AddRefund, ValidKey, Reserved, GoodRefund, Bounded, LedgerIdFresh, Normal;
    var c := CheckPayment(db, tenant, p, requested);
    if DoCreateRefund(db, tenant, p, key, requested, f).0 != db {
      var row := NewRefund(tenant, p, key, c.amount, c.currency);
      NewRefundGood(db, tenant, p, key, requested);
      FreeSlot(db, RefundSlot(row));
      AddRefundInv(db, row, f);
    }
  }

  /** A row in the outbox decodes, its subject exists and settling that subject cannot fail. */
  lemma RowNotPoison(db: Db, o: Uuid)
    requires Inv(db) && o in db.outbox
    ensures Decode(db.outbox[o]).Some?
    ensures Exists(db, Decode(db.outbox[o]).value) && !Stuck(db, Decode(db.outbox[o]).value)
  {
    NeverStuck(db, Decode(db.outbox[o]).value);
  }

  lemma ProcessOutboxInv(db: Db, f: Fresh)
    requires Inv(db) && FreshFor(db, ProcessOutbox, f)
    ensures Inv(DoProcessOutbox(db, f).0)
    ensures DoProcessOutbox(db, f).1 != Failed(PoisonRow)
  {
    hide PaymentsOk, RefundsOk, LedgerRowsOk, Explained, OutboxOk;
    hide SettleSubject, SubjectIdFresh, Stuck, Exists, HasSucceeded;
    if f.claim.Some? && Claimable(db, f.claim.value) {
      var o := f.claim.value;
      RowNotPoison(db, o);
      var s := Decode(db.outbox[o]).value;
      SettleSucceeds(db, s, f.ledgerId);
      SettleSubjectInv(db, s, f.ledgerId);
      MarkProcessedInv(SettleSubject(db, s, f.ledgerId), o);
    }
  }

  lemma ExecInv(db: Db, op: Op, f: Fresh)
    requires Inv(db) && Admissible(db, op, f)
    ensures Inv(Exec(db, op, f).0)
  {
    if Exec(db, op, f).0 != db {
      hide Inv, DoCreatePayment, DoCreateRefund, DoProcessOutbox, SettleSubject, Stuck, SubjectIdFresh, LedgerIdFresh;
      match op
      case CreatePayment(tenant, key, amount, currency) => CreatePaymentInv(db, tenant, key, amount, currency, f);
      case CreateRefund(tenant, p, key, amount) => CreateRefundInv(db, tenant, p, key, amount, f);
      case Settle(s) => SettleSubjectInv(db, s, f.ledgerId);
      case ProcessOutbox => ProcessOutboxInv(db, f);
    }
  }

  /** Every serial run keeps the invariant. */
  lemma {:induction false} RunInv(db: Db, calls: seq<Call>)
    requires Inv(db) && Serial(db, calls)
    ensures Inv(Run(db, calls))
  {
    hide Inv, Exec, Admissible;
    if calls != [] {
      var n := |calls| - 1;
      RunInv(db, calls[..n]);
      ExecInv(Run(db, calls[..n]), calls[n].op, calls[n].gen);
    }
  }

  /** Adding the next call, with the response it gets, to a serial run. */
  lemma SerialAppend(db: Db, calls: seq<Call>, op: Op, f: Fresh, response: Response)
    requires Serial(db, calls) && Admissible(Run(db, calls), op, f)
    requires response == Exec(Run(db, calls), op, f).1
    ensures Serial(db, calls + [Call(op, f, response)])
    ensures Run(db, calls + [Call(op, f, response)]) == Exec(Run(db, calls), op, f).0
  {
    hide Exec, Admissible;
    assert (calls + [Call(op, f, response)])[..|calls|] == calls;
  }
}
