/**
 The sequence behind ledger_events.id is shared by everybody: the ids it hands out depend on who else
 calls, and nothing but the ledger's own id column depends on them.
 */
module Sequence {
  import opened Types
  import opened Text
  import opened Tables
  import opened Operations

  predicate SameRow(a: LedgerRow, b: LedgerRow) { b == a.(id := b.id) }

  predicate SameLedger(a: seq<LedgerRow>, b: seq<LedgerRow>)
  {
    |a| == |b| && forall i :: 0 <= i < |a| ==> SameRow(a[i], b[i])
  }

  predicate SameTables(db: Db, db': Db)
  {
    db' == db.(ledger := db'.ledger) && SameLedger(db.ledger, db'.ledger)
  }

  /** What was generated or claimed for the same call is the same, but for ids drawn from the ledger's sequence. */
  predicate Alike(op: Op, f: Fresh, g: Fresh)
  {
    match op
    case CreatePayment(_, _, _, _) => g.id == f.id && g.outboxId == f.outboxId && g.createdAt == f.createdAt
    case CreateRefund(_, _, _, _) => g.id == f.id && g.outboxId == f.outboxId && g.createdAt == f.createdAt
    case Settle(_) => true
    case ProcessOutbox => g.claim == f.claim
  }

  lemma SameTablesReflexive(db: Db)
    ensures SameTables(db, db)
  {
  }

  lemma SameKeys(a: seq<LedgerRow>, b: seq<LedgerRow>, p: Uuid, k: DedupeKey)
    requires SameLedger(a, b)
    ensures HasKey(a, p, k) <==> HasKey(b, p, k)
  {
    if i :| 0 <= i < |a| && a[i].payment == p && a[i].dedupe == k {
      assert SameRow(a[i], b[i]);
    }
    if i :| 0 <= i < |b| && b[i].payment == p && b[i].dedupe == k {
      assert SameRow(a[i], b[i]);
    }
  }

  lemma AppendSame(db: Db, db': Db, row: LedgerRow, row': LedgerRow)
    requires SameTables(db, db') && SameRow(row, row')
    ensures SameTables(AppendLedger(db, row), AppendLedger(db', row'))
  {
    SameKeys(db.ledger, db'.ledger, row.payment, row.dedupe);
  }

  lemma AddPaymentSame(db: Db, db': Db, row: Payment, f: Fresh, g: Fresh)
    requires SameTables(db, db') && g.id == f.id && g.outboxId == f.outboxId && g.createdAt == f.createdAt
    ensures SameTables(AddPayment(db, row, f), AddPayment(db', row, g))
  {
    hide AppendLedger, SameLedger;
    AppendSame(InsertPayment(db, f.id, row), InsertPayment(db', g.id, row),
               AcceptedRow(f.ledgerId, f.id, row), AcceptedRow(g.ledgerId, g.id, row));
  }

  lemma AddRefundSame(db: Db, db': Db, row: Refund, f: Fresh, g: Fresh)
    requires SameTables(db, db') && g.id == f.id && g.outboxId == f.outboxId && g.createdAt == f.createdAt
    ensures SameTables(AddRefund(db, row, f), AddRefund(db', row, g))
  {
    hide AppendLedger, SameLedger;
    AppendSame(InsertRefund(db, f.id, row), InsertRefund(db', g.id, row),
               RequestedRow(f.ledgerId, f.id, row), RequestedRow(g.ledgerId, g.id, row));
  }

  lemma SettleSame(db: Db, db': Db, s: Subject, n: nat, m: nat)
    requires SameTables(db, db')
    ensures SameTables(SettleSubject(db, s, n), SettleSubject(db', s, m))
    ensures Stuck(db, s) <==> Stuck(db', s)
  {
    hide AppendLedger, SameLedger;
    match s
    case ThePayment(p) =>
      if p in db.payments {
        AppendSame(db, db', SettledRow(n, db.payments[p].tenant, p), SettledRow(m, db.payments[p].tenant, p));
      }
    case TheRefund(r) =>
      if r in db.refunds {
        AppendSame(db, db', RefundedRow(n, r, db.refunds[r]), RefundedRow(m, r, db.refunds[r]));
      }
  }

  /** Ledger ids influence neither an answer nor any other table. */
  lemma ExecSame(db: Db, db': Db, op: Op, f: Fresh, g: Fresh)
    requires SameTables(db, db') && Alike(op, f, g)
    ensures Exec(db', op, g).1 == Exec(db, op, f).1
    ensures SameTables(Exec(db, op, f).0, Exec(db', op, g).0)
  {
    hide SameLedger, AddPayment, AddRefund, ValidKey, ValidPayment, Normal;
    hide CheckHeadroom, SumAmounts, SettleSubject, Stuck, Decode;
    match op
    case CreatePayment(tenant, key, amount, currency) =>
      AddPaymentSame(db, db', NewPayment(tenant, key, amount, Normal(currency)), f, g);
    case CreateRefund(tenant, p, key, amount) =>
      assert RefundsOf(db, p) == RefundsOf(db', p);
      hide RefundsOf;
      assert CheckPayment(db', tenant, p, amount) == CheckPayment(db, tenant, p, amount);
      var c := CheckPayment(db, tenant, p, amount);
      if c.Admit? {
        AddRefundSame(db, db', NewRefund(tenant, p, key, c.amount, c.currency), f, g);
      }
    case Settle(s) => SettleSame(db, db', s, f.ledgerId, g.ledgerId);
    case ProcessOutbox =>
      if f.claim.Some? && f.claim.value in db.outbox && Decode(db.outbox[f.claim.value]).Some? {
        SettleSame(db, db', Decode(db.outbox[f.claim.value]).value, f.ledgerId, g.ledgerId);
      }
  }
}
