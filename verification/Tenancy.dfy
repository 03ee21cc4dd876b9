/** Tenant separation, as properties of two states at once. */
module Tenancy {
  import opened Types
  import opened Text
  import opened Tables
  import opened History
  import opened Operations
  import opened Invariant
  import opened Runs

  function PaymentsFor(rows: map<Uuid, Payment>, a: Uuid): map<Uuid, Payment>
  {
    map p | p in rows && rows[p].tenant == a :: rows[p]
  }

  function RefundsFor(rows: map<Uuid, Refund>, a: Uuid): map<Uuid, Refund>
  {
    map r | r in rows && rows[r].tenant == a :: rows[r]
  }

  function SlotsFor(keys: map<Slot, Uuid>, a: Uuid): map<Slot, Uuid>
  {
    map s | s in keys && s.tenant == a :: keys[s]
  }

  function LedgerFor(ledger: seq<LedgerRow>, a: Uuid): seq<LedgerRow>
  {
    if ledger == [] then []
    else
      var n := |ledger| - 1;
      if ledger[n].tenant == a then LedgerFor(ledger[..n], a) + [ledger[n]] else LedgerFor(ledger[..n], a)
  }

  /** The two states agree on everything that belongs to tenant a. */
  ghost predicate Agree(a: Uuid, db: Db, db': Db)
  {
    && PaymentsFor(db.payments, a) == PaymentsFor(db'.payments, a) && SlotsFor(db.paymentKeys, a) == SlotsFor(db'.paymentKeys, a)
    && RefundsFor(db.refunds, a) == RefundsFor(db'.refunds, a) && SlotsFor(db.refundKeys, a) == SlotsFor(db'.refundKeys, a)
    && LedgerFor(db.ledger, a) == LedgerFor(db'.ledger, a)
  }

  lemma AgreeTransitive(a: Uuid, x: Db, y: Db, z: Db)
    requires Agree(a, x, y) && Agree(a, y, z)
    ensures Agree(a, x, z)
  {
  }

  // ---------- queries see only the tenant's own rows ----------

  /** payment.Service.Get and refund.Service.Get: None stands for ErrNotFound. */
  function GetPayment(db: Db, a: Uuid, p: Uuid): Option<Payment>
  {
    if p in db.payments && db.payments[p].tenant == a then Some(db.payments[p]) else None
  }

  function GetRefund(db: Db, a: Uuid, r: Uuid): Option<Refund>
  {
    if r in db.refunds && db.refunds[r].tenant == a then Some(db.refunds[r]) else None
  }

  /** ledger.ListByPayment: rows of this tenant and payment in id order, which is commit order (IdsIncrease). */
  function ListByPayment(ledger: seq<LedgerRow>, a: Uuid, p: Uuid): seq<LedgerRow>
  {
    if ledger == [] then []
    else
      var n := |ledger| - 1;
      if ledger[n].tenant == a && ledger[n].payment == p
      then ListByPayment(ledger[..n], a, p) + [ledger[n]] else ListByPayment(ledger[..n], a, p)
  }

  lemma {:induction false} ListThroughTenant(ledger: seq<LedgerRow>, a: Uuid, p: Uuid)
    ensures ListByPayment(LedgerFor(ledger, a), a, p) == ListByPayment(ledger, a, p)
  {
    if ledger != [] {
      var n := |ledger| - 1;
      ListThroughTenant(ledger[..n], a, p);
      if ledger[n].tenant == a {
        var front := LedgerFor(ledger[..n], a);
        assert (front + [ledger[n]])[..|front|] == front;
      }
    }
  }

  /** The listing holds exactly this tenant's rows for the payment, each once, by increasing id. */
  lemma {:induction false} ListInIdOrder(ledger: seq<LedgerRow>, a: Uuid, p: Uuid)
    requires IdsIncrease(ledger)
    ensures var rows := ListByPayment(ledger, a, p);
            && (forall i, j :: 0 <= i < j < |rows| ==> rows[i].id < rows[j].id)
            && (forall row :: row in rows <==> row in ledger && row.tenant == a && row.payment == p)
  {
    if ledger != [] {
      var n := |ledger| - 1;
      var front, last := ledger[..n], ledger[n];
      assert ledger == front + [last];
      ListInIdOrder(front, a, p);
      if last.tenant == a && last.payment == p {
        forall row | row in ListByPayment(front, a, p) ensures row.id < last.id {
          var i :| 0 <= i < n && ledger[i] == row;
        }
      }
    }
  }

  function EventsIn(rows: seq<LedgerRow>): seq<Event> { seq(|rows|, i requires 0 <= i < |rows| => rows[i].event) }

  /** The owner's listing is the payment's whole history, so replaying it rebuilds the account; anyone else's is empty. */
  lemma ListRebuildsAccount(db: Db, a: Uuid, p: Uuid)
    requires Inv(db) && p in db.payments
    ensures a == db.payments[p].tenant ==> Replay(EventsIn(ListByPayment(db.ledger, a, p))) == Open(AccountOf(db, p))
    ensures a != db.payments[p].tenant ==> ListByPayment(db.ledger, a, p) == []
  {
    hide PaymentsOk, RefundsOk, OutboxOk, AccountOf;
    OneTenantListing(db.ledger, db.payments[p].tenant, a, p);
  }

  lemma {:induction false} OneTenantListing(ledger: seq<LedgerRow>, owner: Uuid, a: Uuid, p: Uuid)
    requires forall i :: 0 <= i < |ledger| && ledger[i].payment == p ==> ledger[i].tenant == owner
    ensures a == owner ==> EventsIn(ListByPayment(ledger, a, p)) == EventsOf(ledger, p)
    ensures a != owner ==> ListByPayment(ledger, a, p) == []
  {
    if ledger != [] {
      OneTenantListing(ledger[..|ledger| - 1], owner, a, p);
    }
  }

  lemma PaymentsAgree(a: Uuid, db: Db, db': Db, p: Uuid)
    requires PaymentsFor(db.payments, a) == PaymentsFor(db'.payments, a)
    ensures GetPayment(db, a, p) == GetPayment(db', a, p)
  {
    assert p in PaymentsFor(db.payments, a) <==> p in PaymentsFor(db'.payments, a);
    assert p in PaymentsFor(db.payments, a) ==> PaymentsFor(db.payments, a)[p] == PaymentsFor(db'.payments, a)[p];
  }

  lemma RefundsAgree(a: Uuid, db: Db, db': Db, r: Uuid)
    requires RefundsFor(db.refunds, a) == RefundsFor(db'.refunds, a)
    ensures GetRefund(db, a, r) == GetRefund(db', a, r)
  {
    assert r in RefundsFor(db.refunds, a) <==> r in RefundsFor(db'.refunds, a);
    assert r in RefundsFor(db.refunds, a) ==> RefundsFor(db.refunds, a)[r] == RefundsFor(db'.refunds, a)[r];
  }

  lemma SlotsAgree(a: Uuid, keys: map<Slot, Uuid>, keys': map<Slot, Uuid>, s: Slot)
    requires SlotsFor(keys, a) == SlotsFor(keys', a) && s.tenant == a
    ensures s in keys <==> s in keys'
    ensures s in keys ==> keys[s] == keys'[s]
  {
    assert s in SlotsFor(keys, a) <==> s in SlotsFor(keys', a);
    assert s in SlotsFor(keys, a) ==> SlotsFor(keys, a)[s] == SlotsFor(keys', a)[s];
  }

  /** Reads by tenant a give the same answer in both states. */
  lemma ReadsSeparated(a: Uuid, db: Db, db': Db, id: Uuid)
    requires Agree(a, db, db')
    ensures GetPayment(db, a, id) == GetPayment(db', a, id)
    ensures GetRefund(db, a, id) == GetRefund(db', a, id)
    ensures ListByPayment(db.ledger, a, id) == ListByPayment(db'.ledger, a, id)
  {
    hide ListByPayment, LedgerFor, GetPayment, GetRefund, PaymentsFor, RefundsFor, SlotsFor;
    PaymentsAgree(a, db, db', id);
    RefundsAgree(a, db, db', id);
    ListThroughTenant(db.ledger, a, id);
    ListThroughTenant(db'.ledger, a, id);
  }

  // ---------- writes ----------

  /** A refund always belongs to the tenant of its payment, so a tenant sees every refund of its own payments. */
  lemma RefundsOfOwn(a: Uuid, db: Db, db': Db, p: Uuid)
    requires RefundsOk(db) && RefundsOk(db') && RefundsFor(db.refunds, a) == RefundsFor(db'.refunds, a)
    requires GetPayment(db, a, p).Some? && GetPayment(db', a, p).Some?
    ensures RefundsOf(db, p) == RefundsOf(db', p)
  {
    OwnRefunds(a, db, p);
    OwnRefunds(a, db', p);
  }

  lemma OwnRefunds(a: Uuid, db: Db, p: Uuid)
    requires RefundsOk(db) && GetPayment(db, a, p).Some?
    ensures RefundsOf(db, p)
            == map r | r in RefundsFor(db.refunds, a) && RefundsFor(db.refunds, a)[r].payment == p :: RefundsFor(db.refunds, a)[r]
  {
  }

  lemma PaymentsForPut(rows: map<Uuid, Payment>, p: Uuid, row: Payment, a: Uuid)
    requires p in rows ==> rows[p].tenant == row.tenant
    ensures PaymentsFor(rows[p := row], a) == if row.tenant == a then PaymentsFor(rows, a)[p := row] else PaymentsFor(rows, a)
  {
  }

  lemma RefundsForPut(rows: map<Uuid, Refund>, r: Uuid, row: Refund, a: Uuid)
    requires r in rows ==> rows[r].tenant == row.tenant
    ensures RefundsFor(rows[r := row], a) == if row.tenant == a then RefundsFor(rows, a)[r := row] else RefundsFor(rows, a)
  {
  }

  lemma SlotsForPut(keys: map<Slot, Uuid>, s: Slot, id: Uuid, a: Uuid)
    ensures SlotsFor(keys[s := id], a) == if s.tenant == a then SlotsFor(keys, a)[s := id] else SlotsFor(keys, a)
  {
  }

  lemma LedgerForAppend(ledger: seq<LedgerRow>, row: LedgerRow, a: Uuid)
    ensures LedgerFor(ledger + [row], a) == if row.tenant == a then LedgerFor(ledger, a) + [row] else LedgerFor(ledger, a)
  {
    assert (ledger + [row])[..|ledger|] == ledger;
  }

  lemma AddPaymentView(a: Uuid, db: Db, row: Payment, f: Fresh)
    requires LedgerRowsOk(db) && f.id !in db.payments
    ensures var db' := AddPayment(db, row, f);
            && PaymentsFor(db'.payments, a)
               == (if row.tenant == a then PaymentsFor(db.payments, a)[f.id := row] else PaymentsFor(db.payments, a))
            && SlotsFor(db'.paymentKeys, a)
               == (if row.tenant == a then SlotsFor(db.paymentKeys, a)[PaymentSlot(row) := f.id] else SlotsFor(db.paymentKeys, a))
            && RefundsFor(db'.refunds, a) == RefundsFor(db.refunds, a) && db'.refundKeys == db.refundKeys
            && LedgerFor(db'.ledger, a)
               == (if row.tenant == a then LedgerFor(db.ledger, a) + [AcceptedRow(f.ledgerId, f.id, row)]
                    else LedgerFor(db.ledger, a))
  {
    hide LedgerRowsOk, AddPayment, PaymentsFor, RefundsFor, SlotsFor, LedgerFor;
    AddPaymentShape(db, row, f);
    PaymentsForPut(db.payments, f.id, row, a);
    SlotsForPut(db.paymentKeys, PaymentSlot(row), f.id, a);
    LedgerForAppend(db.ledger, AcceptedRow(f.ledgerId, f.id, row), a);
  }

  lemma AddRefundView(a: Uuid, db: Db, row: Refund, f: Fresh)
    requires LedgerRowsOk(db) && Explained(db) && row.payment in db.payments && f.id !in db.refunds
    ensures var db' := AddRefund(db, row, f);
            && PaymentsFor(db'.payments, a) == PaymentsFor(db.payments, a) && db'.paymentKeys == db.paymentKeys
            && RefundsFor(db'.refunds, a)
               == (if row.tenant == a then RefundsFor(db.refunds, a)[f.id := row] else RefundsFor(db.refunds, a))
            && SlotsFor(db'.refundKeys, a)
               == (if row.tenant == a then SlotsFor(db.refundKeys, a)[RefundSlot(row) := f.id] else SlotsFor(db.refundKeys, a))
            && LedgerFor(db'.ledger, a)
               == (if row.tenant == a then LedgerFor(db.ledger, a) + [RequestedRow(f.ledgerId, f.id, row)]
                    else LedgerFor(db.ledger, a))
  {
    hide LedgerRowsOk, Explained, AddRefund, PaymentsFor, RefundsFor, SlotsFor, LedgerFor;
    AddRefundShape(db, row, f);
    RefundsForPut(db.refunds, f.id, row, a);
    SlotsForPut(db.refundKeys, RefundSlot(row), f.id, a);
    LedgerForAppend(db.ledger, RequestedRow(f.ledgerId, f.id, row), a);
  }

  // ---------- calls by the tenant itself ----------

  lemma InvParts(db: Db)
    requires Inv(db)
    ensures PaymentsOk(db) && RefundsOk(db) && LedgerRowsOk(db) && Explained(db) && OutboxOk(db)
  {
  }

  /** A used slot leads to a row of the slot's own tenant. */
  lemma OwnSlots(db: Db, s: Slot)
    requires Inv(db)
    ensures s in db.paymentKeys ==> GetPayment(db, s.tenant, db.paymentKeys[s]) == Some(db.payments[db.paymentKeys[s]])
    ensures s in db.paymentKeys ==> FindPayment(db, s) == Some(db.paymentKeys[s])
    ensures s in db.refundKeys ==> GetRefund(db, s.tenant, db.refundKeys[s]) == Some(db.refunds[db.refundKeys[s]])
    ensures s in db.refundKeys ==> FindRefund(db, s) == Some(db.refundKeys[s])
  {
    hide Explained, LedgerRowsOk, OutboxOk, GoodPayment, GoodRefund;
  }

  lemma CreatePaymentSeparated(a: Uuid, db: Db, db': Db, op: Op, f: Fresh)
    requires Inv(db) && Inv(db') && Agree(a, db, db') && op.CreatePayment? && op.tenant == a
    requires Exec(db, op, f).0 != db ==> f.id !in db.payments && f.id !in db'.payments
    ensures Exec(db, op, f).1 == Exec(db', op, f).1
    ensures Agree(a, Exec(db, op, f).0, Exec(db', op, f).0)
    ensures Exec(db, op, f).0 == db <==> Exec(db', op, f).0 == db'
  {
    hide Inv, PaymentsFor, RefundsFor, SlotsFor, LedgerFor, GetPayment, GetRefund, AddPayment, ValidPayment, Normal,
      PaymentsOk, RefundsOk, LedgerRowsOk, Explained, OutboxOk;
    InvParts(db);
    InvParts(db');
    var row := NewPayment(op.tenant, op.key, op.amount, Normal(op.currency));
    var s := PaymentSlot(row);
    SlotsAgree(a, db.paymentKeys, db'.paymentKeys, s);
    OwnSlots(db, s);
    OwnSlots(db', s);
    FreeSlot(db, s);
    FreeSlot(db', s);
    if s in db.paymentKeys {
      PaymentsAgree(a, db, db', db.paymentKeys[s]);
    } else if ValidPayment(op.amount, op.currency, op.key) {
      PaymentInsertsChange(db, row, f);
      PaymentInsertsChange(db', row, f);
      AddPaymentView(a, db, row, f);
      AddPaymentView(a, db', row, f);
    }
  }

  lemma CheckThroughTenant(a: Uuid, db: Db, db': Db, p: Uuid, requested: Int64)
    requires GetPayment(db, a, p) == GetPayment(db', a, p)
    ensures CheckPayment(db, a, p, requested) == CheckPayment(db', a, p, requested)
    ensures CheckPayment(db, a, p, requested).Admit? ==>
              GetPayment(db, a, p).Some? && db.payments[p] == db'.payments[p]
  {
    hide Normal;
  }

  lemma CreateRefundSeparated(a: Uuid, db: Db, db': Db, op: Op, f: Fresh)
    requires Inv(db) && Inv(db') && Agree(a, db, db') && op.CreateRefund? && op.tenant == a
    requires Exec(db, op, f).0 != db ==> f.id !in db.refunds && f.id !in db'.refunds
    ensures Exec(db, op, f).1 == Exec(db', op, f).1
    ensures Agree(a, Exec(db, op, f).0, Exec(db', op, f).0)
    ensures Exec(db, op, f).0 == db <==> Exec(db', op, f).0 == db'
  {
    hide Inv, PaymentsFor, RefundsFor, SlotsFor, LedgerFor, GetPayment, GetRefund, AddRefund, ValidKey, Normal, CheckHeadroom,
      CheckPayment, RefundsOf, SumAmounts, PaymentsOk, RefundsOk, LedgerRowsOk, Explained, OutboxOk;
    InvParts(db);
    InvParts(db');
    var c := CheckPayment(db, a, op.payment, op.amount);
    PaymentsAgree(a, db, db', op.payment);
    CheckThroughTenant(a, db, db', op.payment, op.amount);
    if c.Admit? {
      RefundsOfOwn(a, db, db', op.payment);
      var row := NewRefund(a, op.payment, op.key, c.amount, c.currency);
      var s := RefundSlot(row);
      SlotsAgree(a, db.refundKeys, db'.refundKeys, s);
      OwnSlots(db, s);
      OwnSlots(db', s);
      FreeSlot(db, s);
      FreeSlot(db', s);
      if s in db.refundKeys {
        RefundsAgree(a, db, db', db.refundKeys[s]);
      } else if CheckHeadroom(Reserved(db, op.payment), c.amount, db.payments[op.payment].amount).None? && ValidKey(op.key) {
        RefundInsertsChange(db, row, f);
        RefundInsertsChange(db', row, f);
        AddRefundView(a, db, row, f);
        AddRefundView(a, db', row, f);
      }
    }
  }

  /**
   Tenant separation, both halves. A call by tenant a in two states that agree on a's rows gets the
   same response and leaves them agreeing; a call by another tenant leaves a's rows untouched.
   */
  lemma OwnCallsSeparated(a: Uuid, db: Db, db': Db, op: Op, f: Fresh)
    requires Inv(db) && Inv(db') && Agree(a, db, db') && (op.CreatePayment? || op.CreateRefund?) && op.tenant == a
    requires Exec(db, op, f).0 != db ==>
               if op.CreatePayment? then f.id !in db.payments && f.id !in db'.payments
               else f.id !in db.refunds && f.id !in db'.refunds
    ensures Exec(db, op, f).1 == Exec(db', op, f).1
    ensures Agree(a, Exec(db, op, f).0, Exec(db', op, f).0)
    ensures Exec(db, op, f).0 == db <==> Exec(db', op, f).0 == db'
  {
    hide Inv, Agree, Exec;
    if op.CreatePayment? {
      CreatePaymentSeparated(a, db, db', op, f);
    } else {
      CreateRefundSeparated(a, db, db', op, f);
    }
  }

  lemma ForeignCallsInvisible(a: Uuid, db: Db, op: Op, f: Fresh)
    requires Inv(db) && (op.CreatePayment? || op.CreateRefund?) && op.tenant != a
    requires Exec(db, op, f).0 != db ==> if op.CreatePayment? then f.id !in db.payments else f.id !in db.refunds
    ensures Agree(a, db, Exec(db, op, f).0)
  {
    hide PaymentsFor, RefundsFor, SlotsFor, LedgerFor, AddRefund, AddPayment, ValidKey, ValidPayment, Normal, CheckHeadroom,
      Reserved, PaymentsOk, RefundsOk, Explained, OutboxOk, LedgerRowsOk;
    if Exec(db, op, f).0 == db {
      return;
    }
    if op.CreatePayment? {
      AddPaymentView(a, db, NewPayment(op.tenant, op.key, op.amount, Normal(op.currency)), f);
    } else {
      var c := CheckPayment(db, op.tenant, op.payment, op.amount);
      if c.Admit? {
        AddRefundView(a, db, NewRefund(op.tenant, op.payment, op.key, c.amount, c.currency), f);
      }
    }
  }

  /** To tenant a, a payment of another tenant is answered exactly like one that does not exist. */
  lemma ForeignLooksMissing(a: Uuid, db: Db, p: Uuid, key: string, amount: Int64, f: Fresh)
    requires p !in PaymentsFor(db.payments, a)
    ensures GetPayment(db, a, p).None?
    ensures Exec(db, CreateRefund(a, p, key, amount), f)
            == (db, Failed(if ValidKey(key) then NotFound else InvalidInput))
  {
    hide ValidKey, Reserved;
  }

  // ---------- settlements ----------

  lemma SettleOwnPayment(a: Uuid, db: Db, p: Uuid, n: nat)
    requires Inv(db)
    ensures var db' := SettlePayment(db, p, n);
            var own := GetPayment(db, a, p).Some? && db.payments[p].status.Pending?;
            && PaymentsFor(db'.payments, a)
               == (if own then PaymentsFor(db.payments, a)[p := db.payments[p].(status := Succeeded)] else PaymentsFor(db.payments, a))
            && RefundsFor(db'.refunds, a) == RefundsFor(db.refunds, a)
            && db'.paymentKeys == db.paymentKeys && db'.refundKeys == db.refundKeys
            && LedgerFor(db'.ledger, a)
               == (if own then LedgerFor(db.ledger, a) + [SettledRow(n, a, p)] else LedgerFor(db.ledger, a))
  {
    hide Inv, SettlePayment, PaymentsFor, RefundsFor, SlotsFor, LedgerFor;
    if p in db.payments && db.payments[p].status.Pending? {
      InvParts(db);
      hide LedgerRowsOk, Explained, RefundsOk, PaymentsOk, OutboxOk;
      SettlePaymentShape(db, p, n);
      PaymentsForPut(db.payments, p, db.payments[p].(status := Succeeded), a);
      LedgerForAppend(db.ledger, SettledRow(n, db.payments[p].tenant, p), a);
    } else {
      SettledUnchanged(db, p, n);
    }
  }

  lemma SettledUnchanged(db: Db, x: Uuid, n: nat)
    ensures !(x in db.payments && db.payments[x].status.Pending?) ==> SettlePayment(db, x, n) == db
    ensures !(x in db.refunds && db.refunds[x].status.Pending?) ==> SettleRefund(db, x, n) == db
  {
  }

  lemma SettleOwnRefund(a: Uuid, db: Db, r: Uuid, n: nat)
    requires Inv(db)
    ensures var db' := SettleRefund(db, r, n);
            var own := GetRefund(db, a, r).Some? && db.refunds[r].status.Pending?;
            && PaymentsFor(db'.payments, a) == PaymentsFor(db.payments, a)
            && RefundsFor(db'.refunds, a)
               == (if own then RefundsFor(db.refunds, a)[r := db.refunds[r].(status := Succeeded)] else RefundsFor(db.refunds, a))
            && db'.paymentKeys == db.paymentKeys && db'.refundKeys == db.refundKeys
            && LedgerFor(db'.ledger, a)
               == (if own then LedgerFor(db.ledger, a) + [RefundedRow(n, r, db.refunds[r])] else LedgerFor(db.ledger, a))
  {
    hide Inv, SettleRefund, PaymentsFor, RefundsFor, SlotsFor, LedgerFor;
    if r in db.refunds && db.refunds[r].status.Pending? {
      InvParts(db);
      hide LedgerRowsOk, Explained, RefundsOk, PaymentsOk, OutboxOk;
      SettleRefundShape(db, r, n);
      RefundsForPut(db.refunds, r, db.refunds[r].(status := Succeeded), a);
      LedgerForAppend(db.ledger, RefundedRow(n, r, db.refunds[r]), a);
    } else {
      SettledUnchanged(db, r, n);
    }
  }

  /** Settling any subject, whoever owns it, keeps two states agreeing for tenant a. */
  lemma SettlementSeparated(a: Uuid, db: Db, db': Db, s: Subject, n: nat)
    requires Inv(db) && Inv(db') && Agree(a, db, db')
    ensures Agree(a, SettleSubject(db, s, n), SettleSubject(db', s, n))
  {
    hide Inv, PaymentsFor, RefundsFor, SlotsFor, LedgerFor, SettlePayment, SettleRefund;
    match s
    case ThePayment(p) =>
      PaymentsAgree(a, db, db', p);
      SettleOwnPayment(a, db, p, n);
      SettleOwnPayment(a, db', p, n);
    case TheRefund(r) =>
      RefundsAgree(a, db, db', r);
      SettleOwnRefund(a, db, r, n);
      SettleOwnRefund(a, db', r, n);
  }
}
