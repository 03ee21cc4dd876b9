/** What a lock protects, and why committing one transaction cannot disturb another. */
module Isolation {
  import opened Types
  import opened Text
  import opened Tables
  import opened Operations
  import opened Invariant
  import opened Growth
  import opened Statements

  // ---------- what a lock protects ----------

  /** No row for p was appended. */
  ghost predicate LedgerKept(ledger: seq<LedgerRow>, ledger': seq<LedgerRow>, p: Uuid)
  {
    ledger <= ledger' && forall i :: |ledger| <= i < |ledger'| ==> ledger'[i].payment != p
  }

  /** The part of the tables under this lock is the same. */
  ghost predicate Same(l: Lock, db: Db, db': Db)
  {
    match l
    case PaymentLock(p) =>
      && (p in db.payments <==> p in db'.payments) && (p in db.payments ==> db'.payments[p] == db.payments[p])
      && RefundsOf(db', p) == RefundsOf(db, p) && LedgerKept(db.ledger, db'.ledger, p)
    case RefundLock(r) =>
      (r in db.refunds <==> r in db'.refunds) && (r in db.refunds ==> db'.refunds[r] == db.refunds[r])
    case OutboxLock(o) =>
      (o in db.outbox <==> o in db'.outbox) && (o in db.outbox ==> db'.outbox[o] == db.outbox[o])
    case PaymentSlotLock(s) => s in db.paymentKeys <==> s in db'.paymentKeys
    case RefundSlotLock(s) => s in db.refundKeys <==> s in db'.refundKeys
  }

  /** The locks a write needs. */
  function Guards(w: Write): set<Lock>
  {
    match w
    case PutPayment(id, row) => {PaymentLock(id), PaymentSlotLock(PaymentSlot(row))}
    case PutRefund(id, row) => {RefundLock(id), PaymentLock(row.payment), RefundSlotLock(RefundSlot(row))}
    case PutLedger(entry) => {PaymentLock(entry.payment)}
    case PutOutbox(id, _) => {OutboxLock(id)}
    case PaymentDone(p) => {PaymentLock(p)}
    case RefundDone(r, p) => {RefundLock(r), PaymentLock(p)}
    case JobDone(o) => {OutboxLock(o)}
  }

  function AllGuards(buffer: Buffer): set<Lock>
  {
    match buffer
    case Nothing => {}
    case Then(rest, w) => AllGuards(rest) + Guards(w)
  }

  lemma WriteRespectsRefunds(db: Db, w: Write, p: Uuid)
    requires PaymentLock(p) !in Guards(w)
    ensures RefundsOf(ApplyWrite(db, w), p) == RefundsOf(db, p)
  {
  }

  lemma WriteRespectsPayment(db: Db, w: Write, p: Uuid)
    requires PaymentLock(p) !in Guards(w)
    ensures Same(PaymentLock(p), db, ApplyWrite(db, w))
  {
    hide RefundsOf, PaymentSlot, RefundSlot;
    WriteRespectsRefunds(db, w, p);
  }

  lemma WriteRespectsRow(db: Db, w: Write, l: Lock)
    requires l !in Guards(w) && !l.PaymentLock?
    ensures Same(l, db, ApplyWrite(db, w))
  {
    hide RefundsOf, LedgerKept, PaymentSlot, RefundSlot;
  }

  lemma WriteRespectsLocks(db: Db, w: Write, l: Lock)
    requires l !in Guards(w)
    ensures Same(l, db, ApplyWrite(db, w))
  {
    if l.PaymentLock? {
      hide Same, ApplyWrite, Guards;
      WriteRespectsPayment(db, w, l.payment);
    } else {
      hide Same, ApplyWrite, Guards;
      WriteRespectsRow(db, w, l);
    }
  }

  lemma SameTransitive(l: Lock, a: Db, b: Db, c: Db)
    requires Same(l, a, b) && Same(l, b, c)
    ensures Same(l, a, c)
  {
    hide RefundsOf;
  }

  /** A commit changes nothing outside what the locks of its writes protect. */
  lemma {:induction false} CommitRespectsLocks(db: Db, buffer: Buffer, l: Lock)
    requires l !in AllGuards(buffer)
    ensures Same(l, db, Apply(db, buffer))
  {
    hide RefundsOf, Guards, ApplyWrite;
    match buffer
    case Nothing => assert Same(l, db, db);
    case Then(rest, w) =>
      CommitRespectsLocks(db, rest, l);
      WriteRespectsLocks(Apply(db, rest), w, l);
      SameTransitive(l, db, Apply(db, rest), Apply(db, buffer));
  }

  // ---------- what a transaction knows between two statements ----------

  predicate Holds(locks: map<Lock, Tid>, l: Lock, t: Tid) { l in locks && locks[l] == t }

  predicate PaymentHeld(db: Db, locks: map<Lock, Tid>, t: Tid, op: Op, g: Fresh)
    requires op.CreatePayment?
  {
    && ValidPayment(op.amount, op.currency, op.key)
    && Holds(locks, PaymentLock(g.id), t) && Holds(locks, PaymentSlotLock(Slot(op.tenant, op.key)), t)
    && g.id !in db.payments && Slot(op.tenant, op.key) !in db.paymentKeys
  }

  function PaymentWrites(op: Op, g: Fresh, n: nat): Buffer
    requires op.CreatePayment?
  {
    var row := PaymentRowOf(op);
    var inserted := Then(Nothing, PutPayment(g.id, row));
    var logged := Then(inserted, PutLedger(AcceptedRow(g.ledgerId, g.id, row)));
    if n == 1 then inserted else if n == 2 then logged
    else Then(logged, PutOutbox(g.outboxId, PaymentJob(g.id, g.createdAt)))
  }

  predicate JobHeld(db: Db, locks: map<Lock, Tid>, t: Tid, g: Fresh)
  {
    Holds(locks, OutboxLock(g.outboxId), t) && g.outboxId !in db.outbox
  }

  /** Facts that hold while a CreatePayment is in flight. */
  predicate PaymentTxOk(db: Db, locks: map<Lock, Tid>, next: nat, t: Tid, tx: Tx)
    requires tx.op.CreatePayment?
  {
    match tx.pc
    case Begin => tx.buffer == Nothing
    case PaymentClash =>
      && ValidPayment(tx.op.amount, tx.op.currency, tx.op.key) && Slot(tx.op.tenant, tx.op.key) in db.paymentKeys
      && tx.buffer == Nothing
    case PaymentInserted(g) => PaymentHeld(db, locks, t, tx.op, g) && tx.buffer == PaymentWrites(tx.op, g, 1)
    case PaymentLogged(g) =>
      PaymentHeld(db, locks, t, tx.op, g) && g.ledgerId < next && tx.buffer == PaymentWrites(tx.op, g, 2)
    case PaymentReady(g) =>
      && PaymentHeld(db, locks, t, tx.op, g) && g.ledgerId < next && JobHeld(db, locks, t, g)
      && tx.buffer == PaymentWrites(tx.op, g, 3)
    case _ => Ended(tx.pc)
  }

  predicate Ended(pc: Pc) { pc.Answered? || pc.Done? || pc.Aborted? }

  /** The locked payment still passes the checks it passed when it was read. */
  predicate RefundAdmitted(db: Db, locks: map<Lock, Tid>, t: Tid, op: Op, amount: Int64, currency: string)
    requires op.CreateRefund?
  {
    && ValidKey(op.key) && Holds(locks, PaymentLock(op.payment), t)
    && CheckPayment(db, op.tenant, op.payment, op.amount) == Admit(amount, currency)
  }

  /** The balance it summed (its local variable reserved) is still the committed balance, and passed the headroom test. */
  ghost predicate RefundFits(db: Db, locks: map<Lock, Tid>, t: Tid, op: Op, amount: Int64, currency: string, reserved: int)
    requires op.CreateRefund?
  {
    && RefundAdmitted(db, locks, t, op, amount, currency) && reserved == Reserved(db, op.payment)
    && CheckHeadroom(reserved, amount, db.payments[op.payment].amount).None?
  }

  predicate RefundHeld(db: Db, locks: map<Lock, Tid>, t: Tid, op: Op, g: Fresh)
    requires op.CreateRefund?
  {
    && Holds(locks, RefundLock(g.id), t) && Holds(locks, RefundSlotLock(Slot(op.tenant, op.key)), t)
    && g.id !in db.refunds && Slot(op.tenant, op.key) !in db.refundKeys
  }

  function RefundWrites(op: Op, amount: Int64, currency: string, g: Fresh, n: nat): Buffer
    requires op.CreateRefund?
  {
    var row := RefundRowOf(op, amount, currency);
    var inserted := Then(Nothing, PutRefund(g.id, row));
    var logged := Then(inserted, PutLedger(RequestedRow(g.ledgerId, g.id, row)));
    if n == 1 then inserted else if n == 2 then logged
    else Then(logged, PutOutbox(g.outboxId, RefundJob(g.id, g.createdAt)))
  }

  ghost predicate RefundTxOk(db: Db, locks: map<Lock, Tid>, next: nat, t: Tid, tx: Tx)
    requires tx.op.CreateRefund?
  {
    match tx.pc
    case Begin => tx.buffer == Nothing
    case RefundLocked(a, c) => RefundAdmitted(db, locks, t, tx.op, a, c) && tx.buffer == Nothing
    case RefundSummed(a, c, reserved) => RefundFits(db, locks, t, tx.op, a, c, reserved) && tx.buffer == Nothing
    case RefundClash(a, c, reserved) =>
      && RefundFits(db, locks, t, tx.op, a, c, reserved) && Slot(tx.op.tenant, tx.op.key) in db.refundKeys
      && tx.buffer == Nothing
    case RefundInserted(a, c, reserved, g) =>
      && RefundFits(db, locks, t, tx.op, a, c, reserved) && RefundHeld(db, locks, t, tx.op, g)
      && tx.buffer == RefundWrites(tx.op, a, c, g, 1)
    case RefundLogged(a, c, reserved, g) =>
      && RefundFits(db, locks, t, tx.op, a, c, reserved) && RefundHeld(db, locks, t, tx.op, g)
      && g.ledgerId < next && LedgerIdFresh(db, tx.op.payment, g.ledgerId)
      && tx.buffer == RefundWrites(tx.op, a, c, g, 2)
    case RefundReady(a, c, reserved, g) =>
      && RefundFits(db, locks, t, tx.op, a, c, reserved) && RefundHeld(db, locks, t, tx.op, g)
      && g.ledgerId < next && LedgerIdFresh(db, tx.op.payment, g.ledgerId) && JobHeld(db, locks, t, g)
      && tx.buffer == RefundWrites(tx.op, a, c, g, 3)
    case _ => Ended(tx.pc)
  }

  /** Who asked for the settlement: a broker job, or the outbox row this transaction has claimed. */
  predicate Asked(db: Db, locks: map<Lock, Tid>, t: Tid, op: Op, sub: Subject, g: Fresh)
  {
    match g.claim
    case None => op == Settle(sub)
    case Some(o) =>
      op == ProcessOutbox && Holds(locks, OutboxLock(o), t) && Claimable(db, o) && Decode(db.outbox[o]) == Some(sub)
  }

  ghost predicate HoldsAll(locks: map<Lock, Tid>, ls: set<Lock>, t: Tid)
  {
    forall l | l in ls :: Holds(locks, l, t)
  }

  function SettleWrites(db: Db, sub: Subject, stage: Stage, g: Fresh): Buffer
    requires NeedsSettling(db, sub)
  {
    var logged := Then(Nothing, PutLedger(SettlementEntry(db, sub, g.ledgerId)));
    var updated := Then(logged, StatusWrite(db, sub));
    match stage
    case Locked => Nothing
    case Logged => logged
    case Updated => updated
    case Marked => if g.claim.Some? then Then(updated, JobDone(g.claim.value)) else updated
  }

  ghost predicate SettleTxOk(db: Db, locks: map<Lock, Tid>, next: nat, t: Tid, tx: Tx)
    requires tx.op.Settle? || tx.op.ProcessOutbox?
  {
    match tx.pc
    case Begin => tx.buffer == Nothing
    case Claimed(g) =>
      && tx.op.ProcessOutbox? && g.claim.Some? && Holds(locks, OutboxLock(g.claim.value), t)
      && Claimable(db, g.claim.value) && tx.buffer == Nothing
    case Settling(sub, stage, g) =>
      && Asked(db, locks, t, tx.op, sub, g) && NeedsSettling(db, sub) && HoldsAll(locks, RowLocks(db, sub), t)
      && (stage != Locked ==> g.ledgerId < next && SubjectIdFresh(db, sub, g.ledgerId))
      && (stage == Marked ==> g.claim.Some?)
      && tx.buffer == SettleWrites(db, sub, stage, g)
    case Skipping(sub, marked, g) =>
      && g.claim.Some? && Asked(db, locks, t, tx.op, sub, g) && HasSucceeded(db, sub)
      && tx.buffer == if marked then Then(Nothing, JobDone(g.claim.value)) else Nothing
    case _ => Ended(tx.pc)
  }

  ghost predicate TxOk(db: Db, locks: map<Lock, Tid>, next: nat, t: Tid, tx: Tx)
  {
    match tx.op
    case CreatePayment(_, _, _, _) => PaymentTxOk(db, locks, next, t, tx)
    case CreateRefund(_, _, _, _) => RefundTxOk(db, locks, next, t, tx)
    case _ => SettleTxOk(db, locks, next, t, tx)
  }

  // ---------- stability ----------

  /** What other transactions may do to this one: grow the tables, but not under its locks. */
  ghost predicate Undisturbed(db: Db, locks: map<Lock, Tid>, db': Db, locks': map<Lock, Tid>, t: Tid)
  {
    && Grows(db, db')
    && (forall l | Holds(locks, l, t) :: Holds(locks', l, t) && Same(l, db, db'))
  }

  lemma PaymentTxStable(db: Db, locks: map<Lock, Tid>, next: nat, db': Db, locks': map<Lock, Tid>, next': nat, t: Tid, tx: Tx)
    requires tx.op.CreatePayment? && PaymentTxOk(db, locks, next, t, tx)
    requires Undisturbed(db, locks, db', locks', t) && next <= next'
    ensures PaymentTxOk(db', locks', next', t, tx)
  {
    hide ValidPayment, RefundsOf, PaymentWrites, RefundsGrow, PaymentsGrow, OutboxGrows;
  }

  lemma AdmittedStable(db: Db, locks: map<Lock, Tid>, db': Db, locks': map<Lock, Tid>, t: Tid, op: Op, a: Int64, c: string)
    requires op.CreateRefund? && RefundAdmitted(db, locks, t, op, a, c) && Undisturbed(db, locks, db', locks', t)
    ensures RefundAdmitted(db', locks', t, op, a, c)
    ensures Reserved(db', op.payment) == Reserved(db, op.payment)
    ensures db'.payments[op.payment] == db.payments[op.payment] && Same(PaymentLock(op.payment), db, db')
  {
    hide ValidKey, Normal, SumAmounts, RefundsOf, Grows;
    assert Same(PaymentLock(op.payment), db, db');
  }

  lemma IdFreshStable(db: Db, db': Db, p: Uuid, ledgerId: nat)
    requires LedgerIdFresh(db, p, ledgerId) && Same(PaymentLock(p), db, db')
    ensures LedgerIdFresh(db', p, ledgerId)
  {
    hide RefundsOf;
  }

  lemma RefundTxStable(db: Db, locks: map<Lock, Tid>, next: nat, db': Db, locks': map<Lock, Tid>, next': nat, t: Tid, tx: Tx)
    requires tx.op.CreateRefund? && RefundTxOk(db, locks, next, t, tx)
    requires Undisturbed(db, locks, db', locks', t) && next <= next'
    ensures RefundTxOk(db', locks', next', t, tx)
  {
    hide ValidKey, RefundWrites, RefundsGrow, PaymentsGrow, OutboxGrows;
    hide CheckHeadroom, Reserved, RefundAdmitted, LedgerIdFresh;
    if tx.pc.RefundLocked? || tx.pc.RefundSummed? || tx.pc.RefundClash?
       || tx.pc.RefundInserted? || tx.pc.RefundLogged? || tx.pc.RefundReady? {
      AdmittedStable(db, locks, db', locks', t, tx.op, tx.pc.amount, tx.pc.currency);
    }
    if tx.pc.RefundLogged? || tx.pc.RefundReady? {
      IdFreshStable(db, db', tx.op.payment, tx.pc.gen.ledgerId);
    }
  }

  lemma SubjectStable(db: Db, locks: map<Lock, Tid>, db': Db, locks': map<Lock, Tid>, t: Tid, sub: Subject)
    requires NeedsSettling(db, sub) && HoldsAll(locks, RowLocks(db, sub), t) && Undisturbed(db, locks, db', locks', t)
    ensures NeedsSettling(db', sub) && HoldsAll(locks', RowLocks(db', sub), t)
    ensures forall n: nat :: SettlementEntry(db', sub, n) == SettlementEntry(db, sub, n)
    ensures StatusWrite(db', sub) == StatusWrite(db, sub)
    ensures forall n: nat | SubjectIdFresh(db, sub, n) :: SubjectIdFresh(db', sub, n)
  {
    hide RefundsOf, Grows;
    forall l | l in RowLocks(db, sub) ensures Same(l, db, db') {
    }
    match sub
    case ThePayment(p) => assert PaymentLock(p) in RowLocks(db, sub);
    case TheRefund(r) => assert RefundLock(r) in RowLocks(db, sub) && PaymentLock(db.refunds[r].payment) in RowLocks(db, sub);
  }

  lemma SettleTxStable(db: Db, locks: map<Lock, Tid>, next: nat, db': Db, locks': map<Lock, Tid>, next': nat, t: Tid, tx: Tx)
    requires tx.op.Settle? || tx.op.ProcessOutbox?
    requires SettleTxOk(db, locks, next, t, tx)
    requires Undisturbed(db, locks, db', locks', t) && next <= next'
    ensures SettleTxOk(db', locks', next', t, tx)
  {
    hide RefundsOf, HoldsAll, RowLocks, NeedsSettling, SettlementEntry;
    hide StatusWrite, SubjectIdFresh, KeysGrow, OutboxGrows;
    if tx.pc.Settling? {
      SubjectStable(db, locks, db', locks', t, tx.pc.subject);
    }
  }

  /** Whatever the others commit, what this transaction knows stays true. */
  lemma TxStable(db: Db, locks: map<Lock, Tid>, next: nat, db': Db, locks': map<Lock, Tid>, next': nat, t: Tid, tx: Tx)
    requires TxOk(db, locks, next, t, tx)
    requires Undisturbed(db, locks, db', locks', t) && next <= next'
    ensures TxOk(db', locks', next', t, tx)
  {
    hide PaymentTxOk, RefundTxOk, SettleTxOk, Undisturbed;
    match tx.op
    case CreatePayment(_, _, _, _) => PaymentTxStable(db, locks, next, db', locks', next', t, tx);
    case CreateRefund(_, _, _, _) => RefundTxStable(db, locks, next, db', locks', next', t, tx);
    case _ => SettleTxStable(db, locks, next, db', locks', next', t, tx);
  }
}
