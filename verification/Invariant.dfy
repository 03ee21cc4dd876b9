/** The invariant of the money tables, kept by every transaction. */
module Invariant {
  import opened Types
  import opened Headroom
  import opened Text
  import opened Tables
  import opened History
  import opened Operations

  // ---------- the invariant ----------

  predicate GoodPayment(row: Payment)
  {
    0 < row.amount && Normal(row.currency) == row.currency && row.hash == PaymentBody(row.amount, row.currency)
  }

  /** paymentKeys is exactly the unique index of payments. */
  ghost predicate PaymentsOk(db: Db)
  {
    && (forall s | s in db.paymentKeys ::
          db.paymentKeys[s] in db.payments && PaymentSlot(db.payments[db.paymentKeys[s]]) == s)
    && (forall p | p in db.payments ::
          GoodPayment(db.payments[p]) && PaymentSlot(db.payments[p]) in db.paymentKeys
          && db.paymentKeys[PaymentSlot(db.payments[p])] == p)
  }

  /** A refund agrees with its payment, which has succeeded. */
  predicate GoodRefund(row: Refund, pay: Payment)
  {
    && row.tenant == pay.tenant && row.currency == pay.currency && 0 < row.amount <= pay.amount
    && row.hash == RefundBody(row.payment, row.amount) && pay.status.Succeeded?
  }

  ghost predicate RefundsOk(db: Db)
  {
    && (forall s | s in db.refundKeys ::
          db.refundKeys[s] in db.refunds && RefundSlot(db.refunds[db.refundKeys[s]]) == s)
    && (forall r | r in db.refunds ::
          db.refunds[r].payment in db.payments && GoodRefund(db.refunds[r], db.payments[db.refunds[r].payment])
          && RefundSlot(db.refunds[r]) in db.refundKeys && db.refundKeys[RefundSlot(db.refunds[r])] == r)
  }

  ghost function EntriesOf(rows: map<Uuid, Refund>): map<Uuid, RefundEntry>
  {
    map r | r in rows :: RefundEntry(rows[r].amount, rows[r].currency, rows[r].status)
  }

  /** A payment row and the refunds of that payment, as one account. */
  ghost function AccountOf(db: Db, p: Uuid): Account
    requires p in db.payments
  {
    var row := db.payments[p];
    Account(row.amount, row.currency, row.status, EntriesOf(RefundsOf(db, p)), Reserved(db, p))
  }

  /** The ledger explains the tables: replaying a payment's rows gives its account. */
  ghost predicate Explained(db: Db)
  {
    forall p | p in db.payments :: Replay(EventsOf(db.ledger, p)) == Open(AccountOf(db, p))
  }

  /** Ids of one payment's rows increase in commit order. */
  ghost predicate IdsIncrease(ledger: seq<LedgerRow>)
  {
    forall i, j :: 0 <= i < j < |ledger| && ledger[i].payment == ledger[j].payment ==> ledger[i].id < ledger[j].id
  }

  ghost predicate LedgerRowsOk(db: Db)
  {
    && KeysMatchEvents(db.ledger)
    && IdsIncrease(db.ledger)
    && (forall i :: 0 <= i < |db.ledger| ==>
          db.ledger[i].payment in db.payments && db.ledger[i].tenant == db.payments[db.ledger[i].payment].tenant)
  }

  predicate Exists(db: Db, s: Subject)
  {
    match s
    case ThePayment(p) => p in db.payments
    case TheRefund(r) => r in db.refunds
  }

  predicate HasSucceeded(db: Db, s: Subject)
  {
    match s
    case ThePayment(p) => p in db.payments && db.payments[p].status.Succeeded?
    case TheRefund(r) => r in db.refunds && db.refunds[r].status.Succeeded?
  }

  predicate JobFor(db: Db, s: Subject, o: Uuid)
  {
    o in db.outbox && Decode(db.outbox[o]) == Some(s)
  }

  /** No settlement is lost and no row is poison. */
  ghost predicate OutboxOk(db: Db)
  {
    && (forall o | o in db.outbox ::
          Decode(db.outbox[o]).Some? && Exists(db, Decode(db.outbox[o]).value)
          && (db.outbox[o].processed ==> HasSucceeded(db, Decode(db.outbox[o]).value)))
    && (forall s | Exists(db, s) :: exists o :: JobFor(db, s, o))
    && (forall s, o, o' | JobFor(db, s, o) && JobFor(db, s, o') :: o == o')
  }

  ghost predicate Inv(db: Db)
  {
    PaymentsOk(db) && RefundsOk(db) && LedgerRowsOk(db) && Explained(db) && OutboxOk(db)
  }

  lemma EmptyInv()
    ensures Inv(EMPTY_DB)
  {
  }

  // ---------- consequences ----------

  lemma {:induction false} ReplayBounded(events: seq<Event>)
    requires Replay(events).Open?
    ensures 0 < Replay(events).account.amount
    ensures Bounded(Replay(events).account.amount, Replay(events).account.reserved)
  {
    var n := |events| - 1;
    if n > 0 {
      OnlyEmptyIsUnopened(events[..n]);
      ReplayBounded(events[..n]);
    }
  }

  /**
   Conservation. The refunds of a payment never sum to more than the payment, unless the payment
   is of 2^62 cents or more and the balance has already left int64.
   */
  lemma RefundsBounded(db: Db, p: Uuid)
    requires Inv(db) && p in db.payments
    ensures Bounded(db.payments[p].amount, Reserved(db, p))
    ensures db.payments[p].amount <= MAX_SAFE_AMOUNT ==> Reserved(db, p) <= db.payments[p].amount
  {
    ReplayBounded(EventsOf(db.ledger, p));
  }

  lemma {:induction false} NoRowsNoEvents(ledger: seq<LedgerRow>, p: Uuid)
    requires forall i :: 0 <= i < |ledger| ==> ledger[i].payment != p
    ensures EventsOf(ledger, p) == []
  {
    if ledger != [] {
      NoRowsNoEvents(ledger[..|ledger| - 1], p);
    }
  }

  /** The ON CONFLICT branch of the ledger is taken exactly when the tables say the event happened. */
  lemma HasKeyFromTables(db: Db, p: Uuid, k: DedupeKey)
    requires LedgerRowsOk(db) && Explained(db) && p in db.payments
    ensures HasKey(db.ledger, p, k) <==> Happened(AccountOf(db, p), k)
  {
    HasKeyIffHappened(db.ledger, p, k);
  }

  // ---------- one more row in each table ----------

  lemma ReplayOf(db: Db, p: Uuid)
    requires Explained(db) && p in db.payments
    ensures Replay(EventsOf(db.ledger, p)) == Open(AccountOf(db, p))
  {
  }

  lemma OtherRefunds(db: Db, db': Db, r: Uuid)
    requires r in db'.refunds && (r in db.refunds ==> db.refunds[r].payment == db'.refunds[r].payment)
    requires db'.refunds == db.refunds[r := db'.refunds[r]]
    ensures forall p | p != db'.refunds[r].payment :: RefundsOf(db', p) == RefundsOf(db, p)
  {
    forall p | p != db'.refunds[r].payment ensures RefundsOf(db', p) == RefundsOf(db, p) {
    }
  }

  lemma PaymentsAfterInsert(db: Db, db': Db, id: Uuid, row: Payment)
    requires PaymentsOk(db) && GoodPayment(row) && id !in db.payments && PaymentSlot(row) !in db.paymentKeys
    requires db'.payments == db.payments[id := row] && db'.paymentKeys == db.paymentKeys[PaymentSlot(row) := id]
    ensures PaymentsOk(db')
  {
    hide GoodPayment;
  }

  lemma RefundsAfterInsert(db: Db, db': Db, id: Uuid, row: Refund)
    requires RefundsOk(db) && id !in db.refunds && RefundSlot(row) !in db.refundKeys
    requires row.payment in db.payments && GoodRefund(row, db.payments[row.payment])
    requires db'.payments == db.payments
    requires db'.refunds == db.refunds[id := row] && db'.refundKeys == db.refundKeys[RefundSlot(row) := id]
    ensures RefundsOk(db')
  {
    hide GoodRefund;
  }

  /** Refund rows stay good when payments only appear or succeed. */
  lemma RefundsAfterPayments(db: Db, db': Db)
    requires RefundsOk(db) && db'.refunds == db.refunds && db'.refundKeys == db.refundKeys
    requires forall p | p in db.payments ::
               p in db'.payments && (db'.payments[p] == db.payments[p] || db'.payments[p] == db.payments[p].(status := Succeeded))
    ensures RefundsOk(db')
  {
  }

  /** The ledger gains the legal next event of one payment; every other account is unchanged. */
  lemma ExplainedAfterAppend(db: Db, db': Db, entry: LedgerRow)
    requires Explained(db) && db'.ledger == db.ledger + [entry]
    requires db'.payments.Keys == db.payments.Keys + {entry.payment}
    requires forall p | p in db.payments && p != entry.payment ::
               db'.payments[p] == db.payments[p] && RefundsOf(db', p) == RefundsOf(db, p)
    requires Next(Replay(EventsOf(db.ledger, entry.payment)), entry.event) == Open(AccountOf(db', entry.payment))
    ensures Explained(db')
  {
    forall p | p in db'.payments ensures Replay(EventsOf(db'.ledger, p)) == Open(AccountOf(db', p)) {
      EventsOfAppend(db.ledger, entry, p);
      if p == entry.payment {
        ReplayAppend(EventsOf(db.ledger, p), entry.event);
      }
    }
  }

  lemma LedgerRowsAfterAppend(db: Db, db': Db, entry: LedgerRow)
    requires LedgerRowsOk(db) && db'.ledger == db.ledger + [entry]
    requires entry.dedupe == KeyOf(entry.event) && LedgerIdFresh(db, entry.payment, entry.id)
    requires entry.payment in db'.payments && entry.tenant == db'.payments[entry.payment].tenant
    requires forall p | p in db.payments :: p in db'.payments && db'.payments[p].tenant == db.payments[p].tenant
    ensures LedgerRowsOk(db')
  {
  }

  /** The outbox gains the one row of a new subject. */
  lemma OutboxAfterInsert(db: Db, db': Db, s: Subject, o: Uuid, row: OutboxRow)
    requires OutboxOk(db) && o !in db.outbox && db'.outbox == db.outbox[o := row]
    requires Decode(row) == Some(s) && !row.processed && !Exists(db, s)
    requires forall t :: Exists(db', t) <==> Exists(db, t) || t == s
    requires forall t | HasSucceeded(db, t) :: HasSucceeded(db', t)
    ensures OutboxOk(db')
  {
    assert JobFor(db', s, o);
    forall t | Exists(db', t) ensures exists o :: JobFor(db', t, o) {
      if t != s {
        assert Exists(db, t);
        var o' :| JobFor(db, t, o');
        assert JobFor(db', t, o');
      }
    }
    forall t, x, y | JobFor(db', t, x) && JobFor(db', t, y) ensures x == y {
      assert x != o ==> JobFor(db, t, x);
      assert y != o ==> JobFor(db, t, y);
    }
  }

  // ---------- a new payment ----------

  lemma AddPaymentShape(db: Db, row: Payment, f: Fresh)
    requires LedgerRowsOk(db) && f.id !in db.payments
    ensures AddPayment(db, row, f) == db.(
              payments := db.payments[f.id := row],
              paymentKeys := db.paymentKeys[PaymentSlot(row) := f.id],
              ledger := db.ledger + [AcceptedRow(f.ledgerId, f.id, row)],
              outbox := db.outbox[f.outboxId := PaymentJob(f.id, f.createdAt)])
  {
  }

  predicate MayAddPayment(db: Db, row: Payment, f: Fresh)
  {
    && GoodPayment(row) && row.status.Pending? && PaymentSlot(row) !in db.paymentKeys
    && f.id !in db.payments && f.outboxId !in db.outbox
  }

  lemma NewAccount(db: Db, db': Db, row: Payment, f: Fresh)
    requires RefundsOk(db) && LedgerRowsOk(db) && MayAddPayment(db, row, f)
    requires db'.payments == db.payments[f.id := row] && db'.refunds == db.refunds
    ensures Next(Replay(EventsOf(db.ledger, f.id)), PaymentAccepted(row.amount, row.currency)) == Open(AccountOf(db', f.id))
    ensures LedgerIdFresh(db, f.id, f.ledgerId)
  {
    NoRowsNoEvents(db.ledger, f.id);
    assert RefundsOf(db', f.id) == map[];
  }

  lemma AddPaymentLedger(db: Db, db': Db, row: Payment, f: Fresh)
    requires RefundsOk(db) && LedgerRowsOk(db) && Explained(db) && MayAddPayment(db, row, f)
    requires db' == AddPayment(db, row, f)
    ensures Explained(db') && LedgerRowsOk(db')
  {
    AddPaymentShape(db, row, f);
    NewAccount(db, db', row, f);
    hide AddPayment, RefundsOk, LedgerRowsOk, Explained, MayAddPayment;
    hide LedgerIdFresh, EventsOf, Replay, AccountOf, Next;
    forall p | p in db.payments && p != f.id ensures RefundsOf(db', p) == RefundsOf(db, p) {
    }
    LedgerRowsAfterAppend(db, db', AcceptedRow(f.ledgerId, f.id, row));
    ExplainedAfterAppend(db, db', AcceptedRow(f.ledgerId, f.id, row));
  }

  lemma AddPaymentInv(db: Db, row: Payment, f: Fresh)
    requires Inv(db) && MayAddPayment(db, row, f)
    ensures Inv(AddPayment(db, row, f))
  {
    hide PaymentsOk, RefundsOk, LedgerRowsOk, Explained, OutboxOk, AddPayment;
    var db' := AddPayment(db, row, f);
    AddPaymentLedger(db, db', row, f);
    AddPaymentShape(db, row, f);
    PaymentsAfterInsert(db, db', f.id, row);
    RefundsAfterPayments(db, db');
    OutboxAfterInsert(db, db', ThePayment(f.id), f.outboxId, PaymentJob(f.id, f.createdAt));
  }

  // ---------- a new refund ----------

  lemma AddRefundShape(db: Db, row: Refund, f: Fresh)
    requires LedgerRowsOk(db) && Explained(db) && row.payment in db.payments && f.id !in db.refunds
    ensures AddRefund(db, row, f) == db.(
              refunds := db.refunds[f.id := row],
              refundKeys := db.refundKeys[RefundSlot(row) := f.id],
              ledger := db.ledger + [RequestedRow(f.ledgerId, f.id, row)],
              outbox := db.outbox[f.outboxId := RefundJob(f.id, f.createdAt)])
  {
    HasKeyFromTables(db, row.payment, RequestedKey(f.id));
  }

  ghost predicate MayAddRefund(db: Db, row: Refund, f: Fresh)
  {
    && row.payment in db.payments && GoodRefund(row, db.payments[row.payment]) && row.status.Pending?
    && Bounded(db.payments[row.payment].amount, Reserved(db, row.payment) + row.amount)
    && RefundSlot(row) !in db.refundKeys && f.id !in db.refunds && f.outboxId !in db.outbox
    && LedgerIdFresh(db, row.payment, f.ledgerId)
  }

  /** One more refund moves its payment's account by exactly the requested event. */
  lemma EntriesPut(rows: map<Uuid, Refund>, r: Uuid, row: Refund)
    ensures EntriesOf(rows[r := row]) == EntriesOf(rows)[r := RefundEntry(row.amount, row.currency, row.status)]
    ensures r in EntriesOf(rows) <==> r in rows
    ensures r in rows ==> EntriesOf(rows)[r] == RefundEntry(rows[r].amount, rows[r].currency, rows[r].status)
  {
  }

  lemma AccountAfterInsert(db: Db, db': Db, r: Uuid, row: Refund)
    requires row.payment in db.payments && r !in db.refunds
    requires GoodRefund(row, db.payments[row.payment]) && row.status.Pending?
    requires Bounded(db.payments[row.payment].amount, Reserved(db, row.payment) + row.amount)
    requires db'.payments == db.payments && db'.refunds == db.refunds[r := row]
    ensures Next(Open(AccountOf(db, row.payment)), RefundRequested(r, row.amount, row.currency))
            == Open(AccountOf(db', row.payment))
  {
    var p := row.payment;
    assert RefundsOf(db', p) == RefundsOf(db, p)[r := row];
    assert r !in RefundsOf(db, p);
    hide RefundsOf, EntriesOf, SumAmounts;
    SumInsert(RefundsOf(db, p), r, row);
    EntriesPut(RefundsOf(db, p), r, row);
  }

  lemma AddRefundLedger(db: Db, db': Db, row: Refund, f: Fresh)
    requires LedgerRowsOk(db) && Explained(db) && MayAddRefund(db, row, f)
    requires db' == AddRefund(db, row, f)
    ensures Explained(db') && LedgerRowsOk(db')
  {
    hide AddRefund, LedgerRowsOk, Explained, LedgerIdFresh, EventsOf, Replay;
    hide AccountOf, Next, Bounded, Reserved, RefundsOf;
    AddRefundShape(db, row, f);
    AccountAfterInsert(db, db', f.id, row);
    ReplayOf(db, row.payment);
    OtherRefunds(db, db', f.id);
    LedgerRowsAfterAppend(db, db', RequestedRow(f.ledgerId, f.id, row));
    ExplainedAfterAppend(db, db', RequestedRow(f.ledgerId, f.id, row));
  }

  lemma AddRefundInv(db: Db, row: Refund, f: Fresh)
    requires Inv(db) && MayAddRefund(db, row, f)
    ensures Inv(AddRefund(db, row, f))
  {
    hide PaymentsOk, RefundsOk, LedgerRowsOk, Explained, OutboxOk, AddRefund, LedgerIdFresh, Bounded, Reserved;
    var db' := AddRefund(db, row, f);
    AddRefundLedger(db, db', row, f);
    AddRefundShape(db, row, f);
    RefundsAfterInsert(db, db', f.id, row);
    assert PaymentsOk(db') by { PaymentsFrame(db, db'); }
    OutboxAfterInsert(db, db', TheRefund(f.id), f.outboxId, RefundJob(f.id, f.createdAt));
  }

  lemma PaymentsFrame(db: Db, db': Db)
    requires PaymentsOk(db) && db'.payments == db.payments && db'.paymentKeys == db.paymentKeys
    ensures PaymentsOk(db')
  {
  }

  // ---------- settling ----------

  lemma SettlePaymentShape(db: Db, p: Uuid, ledgerId: nat)
    requires LedgerRowsOk(db) && Explained(db) && p in db.payments && db.payments[p].status.Pending?
    ensures SettlePayment(db, p, ledgerId) == db.(
              payments := db.payments[p := db.payments[p].(status := Succeeded)],
              ledger := db.ledger + [SettledRow(ledgerId, db.payments[p].tenant, p)])
  {
    HasKeyFromTables(db, p, SettledKey);
  }

  lemma SettlePaymentLedger(db: Db, db': Db, p: Uuid, ledgerId: nat)
    requires LedgerRowsOk(db) && Explained(db) && p in db.payments && db.payments[p].status.Pending?
    requires LedgerIdFresh(db, p, ledgerId) && db' == SettlePayment(db, p, ledgerId)
    ensures Explained(db') && LedgerRowsOk(db')
  {
    SettlePaymentShape(db, p, ledgerId);
    assert RefundsOf(db', p) == RefundsOf(db, p);
    assert Next(Open(AccountOf(db, p)), SettlementCompleted) == Open(AccountOf(db', p));
    assert Replay(EventsOf(db.ledger, p)) == Open(AccountOf(db, p));
    hide SettlePayment, LedgerRowsOk, Explained, LedgerIdFresh, EventsOf, Replay, AccountOf, Next;
    forall q | q in db.payments && q != p ensures RefundsOf(db', q) == RefundsOf(db, q) {
    }
    LedgerRowsAfterAppend(db, db', SettledRow(ledgerId, db.payments[p].tenant, p));
    ExplainedAfterAppend(db, db', SettledRow(ledgerId, db.payments[p].tenant, p));
  }

  lemma OutboxAfterStatus(db: Db, db': Db)
    requires OutboxOk(db) && db'.outbox == db.outbox
    requires forall t :: Exists(db', t) <==> Exists(db, t)
    requires forall t | HasSucceeded(db, t) :: HasSucceeded(db', t)
    ensures OutboxOk(db')
  {
    forall t | Exists(db', t) ensures exists o :: JobFor(db', t, o) {
      assert Exists(db, t);
      var o :| JobFor(db, t, o);
      assert JobFor(db', t, o);
    }
    forall t, x, y | JobFor(db', t, x) && JobFor(db', t, y) ensures x == y {
      assert JobFor(db, t, x) && JobFor(db, t, y);
    }
  }

  lemma SettlePaymentInv(db: Db, p: Uuid, ledgerId: nat)
    requires Inv(db) && (p in db.payments && db.payments[p].status.Pending? ==> LedgerIdFresh(db, p, ledgerId))
    ensures Inv(SettlePayment(db, p, ledgerId))
  {
    hide RefundsOk, LedgerRowsOk, Explained, OutboxOk, LedgerIdFresh, AppendLedger, Normal;
    if p in db.payments && db.payments[p].status.Pending? {
      var db' := SettlePayment(db, p, ledgerId);
      SettlePaymentLedger(db, db', p, ledgerId);
      SettlePaymentShape(db, p, ledgerId);
      RefundsAfterPayments(db, db');
      OutboxAfterStatus(db, db');
    }
  }

  lemma RefundParent(db: Db, r: Uuid)
    requires RefundsOk(db) && r in db.refunds
    ensures db.refunds[r].payment in db.payments && GoodRefund(db.refunds[r], db.payments[db.refunds[r].payment])
  {
  }

  lemma SettleRefundShape(db: Db, r: Uuid, ledgerId: nat)
    requires RefundsOk(db) && LedgerRowsOk(db) && Explained(db) && r in db.refunds && db.refunds[r].status.Pending?
    ensures SettleRefund(db, r, ledgerId) == db.(
              refunds := db.refunds[r := db.refunds[r].(status := Succeeded)],
              ledger := db.ledger + [RefundedRow(ledgerId, r, db.refunds[r])])
  {
    hide RefundsOk, LedgerRowsOk, Explained, SumAmounts;
    RefundParent(db, r);
    HasKeyFromTables(db, db.refunds[r].payment, RefundedKey(r));
    assert RefundsOf(db, db.refunds[r].payment)[r] == db.refunds[r];
  }

  /** A refund that succeeds moves its payment's account by exactly the succeeded event. */
  lemma AccountAfterSuccess(db: Db, db': Db, r: Uuid)
    requires r in db.refunds && db.refunds[r].status.Pending? && db.refunds[r].payment in db.payments
    requires db'.payments == db.payments && db'.refunds == db.refunds[r := db.refunds[r].(status := Succeeded)]
    ensures Next(Open(AccountOf(db, db.refunds[r].payment)), RefundSucceeded(r))
            == Open(AccountOf(db', db.refunds[r].payment))
  {
    var row := db.refunds[r].(status := Succeeded);
    var p := row.payment;
    assert RefundsOf(db', p) == RefundsOf(db, p)[r := row];
    assert r in RefundsOf(db, p) && RefundsOf(db, p)[r] == db.refunds[r];
    hide RefundsOf, EntriesOf, SumAmounts;
    SumUpdate(RefundsOf(db, p), r, row);
    EntriesPut(RefundsOf(db, p), r, row);
  }

  lemma SettleRefundLedger(db: Db, db': Db, r: Uuid, ledgerId: nat)
    requires RefundsOk(db) && LedgerRowsOk(db) && Explained(db) && r in db.refunds && db.refunds[r].status.Pending?
    requires LedgerIdFresh(db, db.refunds[r].payment, ledgerId) && db' == SettleRefund(db, r, ledgerId)
    ensures Explained(db') && LedgerRowsOk(db')
  {
    hide SettleRefund, RefundsOk, LedgerRowsOk, Explained, LedgerIdFresh, EventsOf, Replay, AccountOf, Next, RefundsOf;
    SettleRefundShape(db, r, ledgerId);
    RefundParent(db, r);
    AccountAfterSuccess(db, db', r);
    ReplayOf(db, db.refunds[r].payment);
    OtherRefunds(db, db', r);
    LedgerRowsAfterAppend(db, db', RefundedRow(ledgerId, r, db.refunds[r]));
    ExplainedAfterAppend(db, db', RefundedRow(ledgerId, r, db.refunds[r]));
  }

  lemma RefundsAfterSuccess(db: Db, db': Db, r: Uuid)
    requires RefundsOk(db) && r in db.refunds && db'.payments == db.payments && db'.refundKeys == db.refundKeys
    requires db'.refunds == db.refunds[r := db.refunds[r].(status := Succeeded)]
    ensures RefundsOk(db')
  {
  }

  lemma SettleRefundInv(db: Db, r: Uuid, ledgerId: nat)
    requires Inv(db)
    requires r in db.refunds && db.refunds[r].status.Pending? ==> LedgerIdFresh(db, db.refunds[r].payment, ledgerId)
    ensures Inv(SettleRefund(db, r, ledgerId))
  {
    hide PaymentsOk, RefundsOk, LedgerRowsOk, Explained, OutboxOk, LedgerIdFresh, AppendLedger;
    if r in db.refunds && db.refunds[r].status.Pending? {
      var db' := SettleRefund(db, r, ledgerId);
      SettleRefundLedger(db, db', r, ledgerId);
      SettleRefundShape(db, r, ledgerId);
      PaymentsFrame(db, db');
      RefundsAfterSuccess(db, db', r);
      OutboxAfterStatus(db, db');
    }
  }

  /** Under the invariant a refund always has a succeeded payment, so settling never fails. */
  lemma NeverStuck(db: Db, s: Subject)
    requires Inv(db)
    ensures !Stuck(db, s)
  {
  }

  lemma SettleSubjectInv(db: Db, s: Subject, ledgerId: nat)
    requires Inv(db) && SubjectIdFresh(db, s, ledgerId)
    ensures Inv(SettleSubject(db, s, ledgerId))
  {
    hide Inv, LedgerIdFresh, SettlePayment, SettleRefund;
    match s
    case ThePayment(p) => SettlePaymentInv(db, p, ledgerId);
    case TheRefund(r) => SettleRefundInv(db, r, ledgerId);
  }

  // ---------- the outbox worker ----------

  lemma SettleSucceeds(db: Db, s: Subject, ledgerId: nat)
    requires RefundsOk(db) && Exists(db, s)
    ensures HasSucceeded(SettleSubject(db, s, ledgerId), s)
    ensures SettleSubject(db, s, ledgerId).outbox == db.outbox
  {
    hide SettlePayment, SettleRefund;
    match s
    case ThePayment(p) => SettlePaymentWrites(db, p, ledgerId);
    case TheRefund(r) => SettleRefundWrites(db, r, ledgerId);
  }

  lemma MarkProcessedInv(db: Db, o: Uuid)
    requires Inv(db) && o in db.outbox && HasSucceeded(db, Decode(db.outbox[o]).value)
    ensures Inv(MarkProcessed(db, o))
  {
    hide PaymentsOk, RefundsOk, LedgerRowsOk, Explained, OutboxOk;
    var db' := MarkProcessed(db, o);
    PaymentsFrame(db, db');
    RefundsAfterPayments(db, db');
    LedgerFrame(db, db');
    OutboxAfterMark(db, o);
  }

  lemma LedgerFrame(db: Db, db': Db)
    requires LedgerRowsOk(db) && Explained(db) && db' == db.(outbox := db'.outbox)
    ensures LedgerRowsOk(db') && Explained(db')
  {
    forall p | p in db'.payments ensures Replay(EventsOf(db'.ledger, p)) == Open(AccountOf(db', p)) {
      assert RefundsOf(db', p) == RefundsOf(db, p);
    }
  }

  lemma OutboxAfterMark(db: Db, o: Uuid)
    requires OutboxOk(db) && o in db.outbox && HasSucceeded(db, Decode(db.outbox[o]).value)
    ensures OutboxOk(MarkProcessed(db, o))
  {
    var db' := MarkProcessed(db, o);
    forall t | Exists(db', t) ensures exists x :: JobFor(db', t, x) {
      assert Exists(db, t);
      var x :| JobFor(db, t, x);
      assert JobFor(db', t, x);
    }
    forall t, x, y | JobFor(db', t, x) && JobFor(db', t, y) ensures x == y {
      assert JobFor(db, t, x) && JobFor(db, t, y);
    }
  }
}
