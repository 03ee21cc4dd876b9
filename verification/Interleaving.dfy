/** Each statement of each kind of transaction keeps the invariant of the interleaved system. */
module Interleaving {
  import opened Types
  import opened Headroom
  import opened Text
  import opened Tables
  import opened Operations
  import opened Invariant
  import opened Runs
  import opened Cases
  import opened Statements
  import opened Isolation
  import opened Serializability
  import opened Guarantees

  lemma TakeFree(s: Sys, t: Tid, ls: set<Lock>)
    requires forall l | l in ls :: Free(s, l, t)
    ensures LocksKept(s.locks, Take(s, t, ls).locks, t)
    ensures HoldsAll(Take(s, t, ls).locks, ls, t)
    ensures forall l | Holds(s.locks, l, t) :: Holds(Take(s, t, ls).locks, l, t)
  {
  }

  lemma OneWrite(db: Db, w: Write)
    ensures Apply(db, Then(Nothing, w)) == ApplyWrite(db, w)
    ensures AllGuards(Then(Nothing, w)) == Guards(w)
  {
    assert Apply(db, Nothing) == db;
  }

  lemma ThreeWrites(db: Db, u: Write, v: Write, w: Write)
    ensures Apply(db, Then(Then(Then(Nothing, u), v), w)) == ApplyWrite(ApplyWrite(ApplyWrite(db, u), v), w)
    ensures AllGuards(Then(Then(Then(Nothing, u), v), w)) == Guards(u) + Guards(v) + Guards(w)
  {
    hide ApplyWrite, Guards;
    OneWrite(db, u);
    assert Apply(db, Then(Then(Nothing, u), v)) == ApplyWrite(ApplyWrite(db, u), v);
    assert AllGuards(Then(Then(Nothing, u), v)) == Guards(u) + Guards(v);
  }

  // ---------- CreatePayment ----------

  /** What a transaction knows, read off the invariant. */
  lemma Knows(s: Sys, t: Tid)
    requires SysInv(s) && t in s.txs
    ensures TxOk(s.db, s.locks, s.next, t, s.txs[t]) && Inv(s.db) && IdsBelow(s.db, s.next)
  {
    hide TxOk, Inv, HistoryOwned, Serial, Run;
  }

  /** A statement that takes free locks and moves on. */
  lemma MoveOn(s: Sys, t: Tid, ls: set<Lock>, next: nat, pc: Pc, buffer: Buffer)
    requires SysInv(s) && t in s.txs && Decided(s.txs[t].pc).None? && Decided(pc).None? && s.next <= next
    requires forall l | l in ls :: Free(s, l, t)
    requires TxOk(s.db, Take(s, t, ls).locks, next, t, Tx(s.txs[t].op, pc, buffer))
    ensures SysInv(Goto(Take(s, t, ls).(next := next), t, pc, buffer))
  {
    hide SysInv, TxOk, Take, Free, LocksKept;
    TakeFree(s, t, ls);
    assert Take(s, t, ls) == s.(locks := Take(s, t, ls).locks) by { TakeShape(s, t, ls); }
    QuietStep(s, Goto(Take(s, t, ls).(next := next), t, pc, buffer), t);
  }

  lemma TakeShape(s: Sys, t: Tid, ls: set<Lock>)
    ensures Take(s, t, ls) == s.(locks := Take(s, t, ls).locks)
    ensures ls == {} ==> Take(s, t, ls) == s
  {
    if ls == {} {
      assert Take(s, t, ls).locks == s.locks;
    }
  }

  lemma PaymentBegins(s: Sys, t: Tid, f: Fresh)
    requires SysInv(s) && t in s.txs && s.txs[t].op.CreatePayment? && s.txs[t].pc.Begin?
    ensures SysInv(PaymentStep(s, t, f))
  {
    hide SysInv, Take, Exec, ValidPayment, Normal, Answer;
    var op := s.txs[t].op;
    var slot := Slot(op.tenant, op.key);
    if !ValidPayment(op.amount, op.currency, op.key) {
      InvalidPayment(s.db, op, f);
      AnswerStep(s, t, f, Failed(InvalidInput));
    } else if slot in s.db.paymentKeys {
      TakeShape(s, t, {});
      MoveOn(s, t, {}, s.next, PaymentClash, Nothing);
    } else if PaymentStep(s, t, f) != s {
      var ls := {PaymentSlotLock(slot), PaymentLock(f.id)};
      TakeFree(s, t, ls);
      assert PaymentLock(f.id) in ls && PaymentSlotLock(slot) in ls;
      hide HoldsAll, LocksKept, PaymentRowOf;
      TakeShape(s, t, ls);
      MoveOn(s, t, ls, s.next, PaymentInserted(f), PaymentWrites(op, f, 1));
    }
  }

  lemma PaymentAnswersClash(s: Sys, t: Tid, f: Fresh)
    requires SysInv(s) && t in s.txs && s.txs[t].op.CreatePayment? && s.txs[t].pc.PaymentClash?
    ensures SysInv(PaymentStep(s, t, f))
  {
    hide SysInv, Inv, IdsBelow, ValidPayment, Normal, Answer, AddPayment;
    Knows(s, t);
    var row := PaymentRowOf(s.txs[t].op);
    FreeSlot(s.db, PaymentSlot(row));
    AnswerStep(s, t, f, ReplayPayment(s.db, FindPayment(s.db, PaymentSlot(row)).value, row));
  }

  lemma NoAcceptedYet(db: Db, id: Uuid)
    requires Inv(db) && id !in db.payments
    ensures !HasKey(db.ledger, id, AcceptedKey)
  {
    hide Explained, OutboxOk, PaymentsOk, RefundsOk;
  }

  lemma PaymentLogs(s: Sys, t: Tid, f: Fresh)
    requires SysInv(s) && t in s.txs && s.txs[t].op.CreatePayment? && s.txs[t].pc.PaymentInserted?
    ensures SysInv(PaymentStep(s, t, f))
  {
    hide SysInv, Inv, IdsBelow, ValidPayment, Normal, HasKey, PaymentRowOf, Take;
    Knows(s, t);
    var h := s.txs[t].pc.gen.(ledgerId := s.next);
    NoAcceptedYet(s.db, h.id);
    OneWrite(s.db, PutPayment(h.id, PaymentRowOf(s.txs[t].op)));
    hide Apply;
    TakeShape(s, t, {});
    MoveOn(s, t, {}, s.next + 1, PaymentLogged(h), PaymentWrites(s.txs[t].op, h, 2));
  }

  lemma PaymentQueues(s: Sys, t: Tid, f: Fresh)
    requires SysInv(s) && t in s.txs && s.txs[t].op.CreatePayment? && s.txs[t].pc.PaymentLogged?
    ensures SysInv(PaymentStep(s, t, f))
  {
    hide SysInv, Inv, IdsBelow, ValidPayment, Normal, PaymentRowOf, Take;
    Knows(s, t);
    if PaymentStep(s, t, f) != s {
      var h := s.txs[t].pc.gen.(outboxId := f.outboxId, createdAt := f.createdAt);
      var ls := {OutboxLock(h.outboxId)};
      TakeFree(s, t, ls);
      assert OutboxLock(h.outboxId) in ls;
      hide HoldsAll, LocksKept;
      TakeShape(s, t, ls);
      MoveOn(s, t, ls, s.next, PaymentReady(h), PaymentWrites(s.txs[t].op, h, 3));
    }
  }

  lemma PaymentCommitEffect(db: Db, op: Op, g: Fresh)
    requires Inv(db) && op.CreatePayment? && ValidPayment(op.amount, op.currency, op.key)
    requires g.id !in db.payments && Slot(op.tenant, op.key) !in db.paymentKeys && g.outboxId !in db.outbox
    ensures Exec(db, op, g) == (Apply(db, PaymentWrites(op, g, 3)),
              PaymentReply(g.id, op.amount, Normal(op.currency), Pending, true))
    ensures Admissible(db, op, g)
    ensures Apply(db, PaymentWrites(op, g, 3)).ledger == db.ledger + [AcceptedRow(g.ledgerId, g.id, PaymentRowOf(op))]
  {
    hide Inv, ValidPayment, Normal, Exec, AddPayment, HasKey;
    var row := PaymentRowOf(op);
    FreeSlot(db, PaymentSlot(row));
    AddPaymentUnfolds(db, row, g);
    PaymentAdded(db, op, g);
  }

  lemma AddPaymentUnfolds(db: Db, row: Payment, g: Fresh)
    requires Inv(db) && g.id !in db.payments
    ensures AddPayment(db, row, g) == Apply(db, Then(Then(Then(Nothing, PutPayment(g.id, row)),
              PutLedger(AcceptedRow(g.ledgerId, g.id, row))), PutOutbox(g.outboxId, PaymentJob(g.id, g.createdAt))))
    ensures AddPayment(db, row, g).ledger == db.ledger + [AcceptedRow(g.ledgerId, g.id, row)]
  {
    hide Inv, HasKey, Apply;
    NoAcceptedYet(db, g.id);
    ThreeWrites(db, PutPayment(g.id, row), PutLedger(AcceptedRow(g.ledgerId, g.id, row)),
                PutOutbox(g.outboxId, PaymentJob(g.id, g.createdAt)));
  }

  lemma PaymentCommits(s: Sys, t: Tid, f: Fresh)
    requires SysInv(s) && t in s.txs && s.txs[t].op.CreatePayment? && s.txs[t].pc.PaymentReady?
    ensures SysInv(PaymentStep(s, t, f))
  {
    hide SysInv, Inv, ValidPayment, Normal, Exec, Apply, Admissible, AllGuards;
    Knows(s, t);
    var op, g := s.txs[t].op, s.txs[t].pc.gen;
    PaymentCommitEffect(s.db, op, g);
    var row := PaymentRowOf(op);
    ThreeWrites(s.db, PutPayment(g.id, row), PutLedger(AcceptedRow(g.ledgerId, g.id, row)),
                PutOutbox(g.outboxId, PaymentJob(g.id, g.createdAt)));
    CommitStep(s, t, g, PaymentReply(g.id, op.amount, Normal(op.currency), Pending, true));
  }

  lemma PaymentStepOk(s: Sys, t: Tid, f: Fresh)
    requires SysInv(s) && t in s.txs && s.txs[t].op.CreatePayment?
    ensures SysInv(PaymentStep(s, t, f))
  {
    match s.txs[t].pc
    case Begin => PaymentBegins(s, t, f);
    case PaymentClash => PaymentAnswersClash(s, t, f);
    case PaymentInserted(_) => PaymentLogs(s, t, f);
    case PaymentLogged(_) => PaymentQueues(s, t, f);
    case PaymentReady(_) => PaymentCommits(s, t, f);
    case _ =>
  }

  // ---------- CreateRefund ----------

  lemma RefundBegins(s: Sys, t: Tid, f: Fresh)
    requires SysInv(s) && t in s.txs && s.txs[t].op.CreateRefund? && s.txs[t].pc.Begin?
    ensures SysInv(RefundStep(s, t, f))
  {
    hide SysInv, Take, Exec, ValidKey, Normal, Answer, CheckPayment;
    var op := s.txs[t].op;
    var p := op.payment;
    if !ValidKey(op.key) {
      RefundRefused(s.db, op, f, InvalidInput);
      AnswerStep(s, t, f, Failed(InvalidInput));
    } else if !(p in s.db.payments && !Free(s, PaymentLock(p), t)) {
      match CheckPayment(s.db, op.tenant, p, op.amount)
      case Refuse(error) =>
        RefundRefused(s.db, op, f, error);
        AnswerStep(s, t, f, Failed(error));
      case Admit(a, c) =>
        TakeFree(s, t, {PaymentLock(p)});
        assert PaymentLock(p) in {PaymentLock(p)};
        hide HoldsAll, LocksKept;
        TakeShape(s, t, {PaymentLock(p)});
        MoveOn(s, t, {PaymentLock(p)}, s.next, RefundLocked(a, c), Nothing);
    }
  }

  lemma RefundSums(s: Sys, t: Tid, f: Fresh)
    requires SysInv(s) && t in s.txs && s.txs[t].op.CreateRefund? && s.txs[t].pc.RefundLocked?
    ensures SysInv(RefundStep(s, t, f))
  {
    hide SysInv, Inv, IdsBelow, Take, Exec, ValidKey, Normal, Answer, CheckHeadroom, Reserved, EffectiveAmount;
    Knows(s, t);
    var op, a, c := s.txs[t].op, s.txs[t].pc.amount, s.txs[t].pc.currency;
    match CheckHeadroom(Reserved(s.db, op.payment), a, s.db.payments[op.payment].amount)
    case Some(error) =>
      RefundOverBalance(s.db, op, f, a, c, error);
      AnswerStep(s, t, f, Failed(error));
    case None =>
      TakeShape(s, t, {});
      MoveOn(s, t, {}, s.next, RefundSummed(a, c, Reserved(s.db, op.payment)), Nothing);
  }

  lemma RefundInserts(s: Sys, t: Tid, f: Fresh)
    requires SysInv(s) && t in s.txs && s.txs[t].op.CreateRefund? && s.txs[t].pc.RefundSummed?
    ensures SysInv(RefundStep(s, t, f))
  {
    hide SysInv, Inv, IdsBelow, Take, ValidKey, Normal, CheckHeadroom, CheckPayment, Reserved;
    Knows(s, t);
    var op, a, c := s.txs[t].op, s.txs[t].pc.amount, s.txs[t].pc.currency;
    var slot := Slot(op.tenant, op.key);
    if slot in s.db.refundKeys {
      TakeShape(s, t, {});
      MoveOn(s, t, {}, s.next, RefundClash(a, c, s.txs[t].pc.reserved), Nothing);
    } else if RefundStep(s, t, f) != s {
      var ls := {RefundSlotLock(slot), RefundLock(f.id)};
      TakeFree(s, t, ls);
      assert RefundLock(f.id) in ls && RefundSlotLock(slot) in ls;
      hide HoldsAll, LocksKept;
      TakeShape(s, t, ls);
      MoveOn(s, t, ls, s.next, RefundInserted(a, c, s.txs[t].pc.reserved, f), RefundWrites(op, a, c, f, 1));
    }
  }

  lemma RefundAnswersClash(s: Sys, t: Tid, f: Fresh)
    requires SysInv(s) && t in s.txs && s.txs[t].op.CreateRefund? && s.txs[t].pc.RefundClash?
    ensures SysInv(RefundStep(s, t, f))
  {
    hide SysInv, Inv, IdsBelow, Exec, ValidKey, Normal, Answer, CheckHeadroom, CheckPayment, Reserved;
    Knows(s, t);
    var op, a, c := s.txs[t].op, s.txs[t].pc.amount, s.txs[t].pc.currency;
    FreeSlot(s.db, Slot(op.tenant, op.key));
    var r := FindRefund(s.db, Slot(op.tenant, op.key)).value;
    RefundReplays(s.db, op, f, a, c, r);
    AnswerStep(s, t, f, ReplayRefund(s.db, r, RefundRowOf(op, a, c)));
  }

  lemma NoRequestYet(db: Db, p: Uuid, id: Uuid)
    requires Inv(db) && p in db.payments && id !in db.refunds
    ensures !HasKey(db.ledger, p, RequestedKey(id))
  {
    HasKeyFromTables(db, p, RequestedKey(id));
  }

  lemma IdsBelowFresh(db: Db, p: Uuid, next: nat)
    requires IdsBelow(db, next)
    ensures LedgerIdFresh(db, p, next)
  {
  }

  lemma RefundLogs(s: Sys, t: Tid, f: Fresh)
    requires SysInv(s) && t in s.txs && s.txs[t].op.CreateRefund? && s.txs[t].pc.RefundInserted?
    ensures SysInv(RefundStep(s, t, f))
  {
    hide SysInv, Inv, IdsBelow, ValidKey, Normal, HasKey, CheckHeadroom, Reserved, LedgerIdFresh, Take, EffectiveAmount;
    Knows(s, t);
    var op, a, c := s.txs[t].op, s.txs[t].pc.amount, s.txs[t].pc.currency;
    var h := s.txs[t].pc.gen.(ledgerId := s.next);
    NoRequestYet(s.db, op.payment, h.id);
    IdsBelowFresh(s.db, op.payment, s.next);
    OneWrite(s.db, PutRefund(h.id, RefundRowOf(op, a, c)));
    hide Apply;
    TakeShape(s, t, {});
    MoveOn(s, t, {}, s.next + 1, RefundLogged(a, c, s.txs[t].pc.reserved, h), RefundWrites(op, a, c, h, 2));
  }

  lemma RefundQueues(s: Sys, t: Tid, f: Fresh)
    requires SysInv(s) && t in s.txs && s.txs[t].op.CreateRefund? && s.txs[t].pc.RefundLogged?
    ensures SysInv(RefundStep(s, t, f))
  {
    hide SysInv, Inv, IdsBelow, ValidKey, Normal, CheckHeadroom, CheckPayment, Reserved, LedgerIdFresh, Take;
    Knows(s, t);
    if RefundStep(s, t, f) != s {
      var op, a, c := s.txs[t].op, s.txs[t].pc.amount, s.txs[t].pc.currency;
      var h := s.txs[t].pc.gen.(outboxId := f.outboxId, createdAt := f.createdAt);
      var ls := {OutboxLock(h.outboxId)};
      TakeFree(s, t, ls);
      assert OutboxLock(h.outboxId) in ls;
      hide HoldsAll, LocksKept;
      TakeShape(s, t, ls);
      MoveOn(s, t, ls, s.next, RefundReady(a, c, s.txs[t].pc.reserved, h), RefundWrites(op, a, c, h, 3));
    }
  }

  lemma AddRefundUnfolds(db: Db, row: Refund, g: Fresh)
    requires Inv(db) && row.payment in db.payments && g.id !in db.refunds
    ensures AddRefund(db, row, g) == Apply(db, Then(Then(Then(Nothing, PutRefund(g.id, row)),
              PutLedger(RequestedRow(g.ledgerId, g.id, row))), PutOutbox(g.outboxId, RefundJob(g.id, g.createdAt))))
    ensures AddRefund(db, row, g).ledger == db.ledger + [RequestedRow(g.ledgerId, g.id, row)]
  {
    hide Inv, HasKey, Apply;
    NoRequestYet(db, row.payment, g.id);
    ThreeWrites(db, PutRefund(g.id, row), PutLedger(RequestedRow(g.ledgerId, g.id, row)),
                PutOutbox(g.outboxId, RefundJob(g.id, g.createdAt)));
  }

  lemma RefundCommits(s: Sys, t: Tid, f: Fresh)
    requires SysInv(s) && t in s.txs && s.txs[t].op.CreateRefund? && s.txs[t].pc.RefundReady?
    ensures SysInv(RefundStep(s, t, f))
  {
    hide SysInv, Inv, ValidKey, Normal, Exec, Apply;
    hide AddRefund, CheckHeadroom, Reserved, LedgerIdFresh, EffectiveAmount, AllGuards;
    Knows(s, t);
    var op, a, c, g := s.txs[t].op, s.txs[t].pc.amount, s.txs[t].pc.currency, s.txs[t].pc.gen;
    FreeSlot(s.db, Slot(op.tenant, op.key));
    RefundAdded(s.db, op, g, a, c);
    AddRefundUnfolds(s.db, RefundRowOf(op, a, c), g);
    hide CheckPayment;
    var row := RefundRowOf(op, a, c);
    ThreeWrites(s.db, PutRefund(g.id, row), PutLedger(RequestedRow(g.ledgerId, g.id, row)),
                PutOutbox(g.outboxId, RefundJob(g.id, g.createdAt)));
    CommitStep(s, t, g, RefundReply(g.id, op.payment, a, c, Pending, true));
  }

  lemma RefundStepOk(s: Sys, t: Tid, f: Fresh)
    requires SysInv(s) && t in s.txs && s.txs[t].op.CreateRefund?
    ensures SysInv(RefundStep(s, t, f))
  {
    match s.txs[t].pc
    case Begin => RefundBegins(s, t, f);
    case RefundLocked(_, _) => RefundSums(s, t, f);
    case RefundSummed(_, _, _) => RefundInserts(s, t, f);
    case RefundClash(_, _, _) => RefundAnswersClash(s, t, f);
    case RefundInserted(_, _, _, _) => RefundLogs(s, t, f);
    case RefundLogged(_, _, _, _) => RefundQueues(s, t, f);
    case RefundReady(_, _, _, _) => RefundCommits(s, t, f);
    case _ =>
  }

  // ---------- settlement ----------

  lemma SettledAlready(db: Db, sub: Subject, ledgerId: nat)
    requires Inv(db) && !NeedsSettling(db, sub)
    ensures SettleSubject(db, sub, ledgerId) == db
    ensures Exists(db, sub) ==> HasSucceeded(db, sub)
  {
    hide Explained, LedgerRowsOk, OutboxOk, PaymentsOk, AppendLedger;
  }

  /** Taking more locks keeps a claim. */
  lemma SettlingOk(s: Sys, t: Tid, sub: Subject, g: Fresh, ls: set<Lock>)
    requires t in s.txs && (s.txs[t].op.Settle? || s.txs[t].op.ProcessOutbox?)
    requires Asked(s.db, s.locks, t, s.txs[t].op, sub, g) && NeedsSettling(s.db, sub) && ls == RowLocks(s.db, sub)
    requires HoldsAll(Take(s, t, ls).locks, ls, t)
    requires forall l | Holds(s.locks, l, t) :: Holds(Take(s, t, ls).locks, l, t)
    ensures TxOk(s.db, Take(s, t, ls).locks, s.next, t, Tx(s.txs[t].op, Settling(sub, Locked, g), Nothing))
  {
    hide Take, HoldsAll, RowLocks, NeedsSettling, SettlementEntry, StatusWrite, Holds;
  }

  lemma SkippingOk(s: Sys, t: Tid, sub: Subject, g: Fresh, ls: set<Lock>)
    requires t in s.txs && (s.txs[t].op.Settle? || s.txs[t].op.ProcessOutbox?)
    requires Asked(s.db, s.locks, t, s.txs[t].op, sub, g) && HasSucceeded(s.db, sub) && g.claim.Some?
    requires forall l | Holds(s.locks, l, t) :: Holds(Take(s, t, ls).locks, l, t)
    ensures TxOk(s.db, Take(s, t, ls).locks, s.next, t, Tx(s.txs[t].op, Skipping(sub, false, g), Nothing))
  {
    hide Take, HasSucceeded, Holds;
  }

  lemma LockSubjectOk(s: Sys, t: Tid, sub: Subject, g: Fresh)
    requires SysInv(s) && t in s.txs && Decided(s.txs[t].pc).None?
    requires (s.txs[t].op.Settle? || s.txs[t].op.ProcessOutbox?) && Asked(s.db, s.locks, t, s.txs[t].op, sub, g)
    ensures SysInv(LockSubject(s, t, sub, g))
  {
    hide SysInv, Inv, IdsBelow, Take, TxOk, Answer, Stuck, NeedsSettling, SettleSubject, RowLocks, LocksKept;
    Knows(s, t);
    NeverStuck(s.db, sub);
    var ls := RowLocks(s.db, sub);
    if forall l | l in ls :: Free(s, l, t) {
      TakeFree(s, t, ls);
      TakeShape(s, t, ls);
      if NeedsSettling(s.db, sub) {
        SettlingOk(s, t, sub, g, ls);
        MoveOn(s, t, ls, s.next, Settling(sub, Locked, g), Nothing);
      } else {
        SettledAlready(s.db, sub, g.ledgerId);
        if g.claim.Some? {
          RowNotPoison(s.db, g.claim.value);
          SkippingOk(s, t, sub, g, ls);
          MoveOn(s, t, ls, s.next, Skipping(sub, false, g), Nothing);
        } else {
          AnswerStep(s, t, g, Settled);
        }
      }
    }
  }

  lemma SettleBegins(s: Sys, t: Tid, f: Fresh)
    requires SysInv(s) && t in s.txs && (s.txs[t].op.Settle? || s.txs[t].op.ProcessOutbox?) && s.txs[t].pc.Begin?
    ensures SysInv(SettleStep(s, t, f))
  {
    hide SysInv, Take, LockSubject, Answer;
    if s.txs[t].op.Settle? {
      LockSubjectOk(s, t, s.txs[t].op.subject, f.(claim := None));
    } else if f.claim.None? {
      AnswerStep(s, t, f, Idle);
    } else if SettleStep(s, t, f) != s {
      var ls := {OutboxLock(f.claim.value)};
      TakeFree(s, t, ls);
      assert OutboxLock(f.claim.value) in ls;
      hide HoldsAll, LocksKept;
      TakeShape(s, t, ls);
      MoveOn(s, t, ls, s.next, Claimed(f), Nothing);
    }
  }

  lemma ClaimedReads(s: Sys, t: Tid, f: Fresh)
    requires SysInv(s) && t in s.txs && (s.txs[t].op.Settle? || s.txs[t].op.ProcessOutbox?) && s.txs[t].pc.Claimed?
    ensures SysInv(SettleStep(s, t, f))
  {
    hide SysInv, Inv, IdsBelow, LockSubject, Decode;
    Knows(s, t);
    var g := s.txs[t].pc.gen;
    RowNotPoison(s.db, g.claim.value);
    LockSubjectOk(s, t, Decode(s.db.outbox[g.claim.value]).value, g);
  }

  lemma NotLoggedYet(db: Db, sub: Subject, n: nat)
    requires Inv(db) && NeedsSettling(db, sub)
    ensures var e := SettlementEntry(db, sub, n); !HasKey(db.ledger, e.payment, e.dedupe)
  {
    hide OutboxOk, PaymentsOk, LedgerRowsOk, Explained, SumAmounts;
    match sub
    case ThePayment(p) => HasKeyFromTables(db, p, SettledKey);
    case TheRefund(r) =>
      RefundParent(db, r);
      HasKeyFromTables(db, db.refunds[r].payment, RefundedKey(r));
      assert RefundsOf(db, db.refunds[r].payment)[r] == db.refunds[r];
  }

  lemma IdsBelowSubject(db: Db, sub: Subject, next: nat)
    requires IdsBelow(db, next)
    ensures SubjectIdFresh(db, sub, next)
  {
  }

  lemma SettleLogs(s: Sys, t: Tid, f: Fresh)
    requires SysInv(s) && t in s.txs && (s.txs[t].op.Settle? || s.txs[t].op.ProcessOutbox?)
    requires s.txs[t].pc.Settling? && s.txs[t].pc.stage == Locked
    ensures SysInv(SettleStep(s, t, f))
  {
    hide SysInv, Inv, IdsBelow, NeedsSettling, HasKey, SettlementEntry;
    hide StatusWrite, SubjectIdFresh, HoldsAll, RowLocks, Take;
    Knows(s, t);
    var sub := s.txs[t].pc.subject;
    var h := s.txs[t].pc.gen.(ledgerId := s.next);
    NotLoggedYet(s.db, sub, h.ledgerId);
    IdsBelowSubject(s.db, sub, s.next);
    assert Apply(s.db, Nothing) == s.db;
    TakeShape(s, t, {});
    MoveOn(s, t, {}, s.next + 1, Settling(sub, Logged, h), SettleWrites(s.db, sub, Logged, h));
  }

  lemma SettleUpdates(s: Sys, t: Tid, f: Fresh)
    requires SysInv(s) && t in s.txs && (s.txs[t].op.Settle? || s.txs[t].op.ProcessOutbox?)
    requires s.txs[t].pc.Settling?
    requires s.txs[t].pc.stage == Logged || (s.txs[t].pc.stage == Updated && s.txs[t].pc.gen.claim.Some?)
    ensures SysInv(SettleStep(s, t, f))
  {
    hide SysInv, Inv, IdsBelow, NeedsSettling, SettlementEntry, StatusWrite, SubjectIdFresh, HoldsAll, RowLocks, Take;
    Knows(s, t);
    var sub, g := s.txs[t].pc.subject, s.txs[t].pc.gen;
    var stage := if s.txs[t].pc.stage == Logged then Updated else Marked;
    TakeShape(s, t, {});
    MoveOn(s, t, {}, s.next, Settling(sub, stage, g), SettleWrites(s.db, sub, stage, g));
  }

  lemma TwoWrites(db: Db, u: Write, v: Write)
    ensures Apply(db, Then(Then(Nothing, u), v)) == ApplyWrite(ApplyWrite(db, u), v)
    ensures AllGuards(Then(Then(Nothing, u), v)) == Guards(u) + Guards(v)
  {
    hide ApplyWrite, Guards;
    OneWrite(db, u);
  }

  lemma SettleGuards(db: Db, sub: Subject, n: nat)
    requires NeedsSettling(db, sub)
    ensures Guards(PutLedger(SettlementEntry(db, sub, n))) + Guards(StatusWrite(db, sub)) == RowLocks(db, sub)
    ensures SettlementEntry(db, sub, n).id == n
  {
  }

  lemma SettleUnfolds(db: Db, sub: Subject, n: nat)
    requires Inv(db) && NeedsSettling(db, sub)
    ensures SettleSubject(db, sub, n) == ApplyWrite(ApplyWrite(db, PutLedger(SettlementEntry(db, sub, n))), StatusWrite(db, sub))
    ensures SettleSubject(db, sub, n).ledger == db.ledger + [SettlementEntry(db, sub, n)]
  {
    hide Inv, HasKey, Stuck, RefundStuck;
    NotStuckUnfolded(db, sub);
    NotLoggedYet(db, sub, n);
  }

  lemma NotStuckUnfolded(db: Db, sub: Subject)
    requires Inv(db)
    ensures sub.TheRefund? ==> !RefundStuck(db, sub.refund)
  {
    NeverStuck(db, sub);
  }

  lemma SettleCommits(s: Sys, t: Tid, f: Fresh)
    requires SysInv(s) && t in s.txs && (s.txs[t].op.Settle? || s.txs[t].op.ProcessOutbox?)
    requires s.txs[t].pc.Settling? && s.txs[t].pc.stage == Updated && s.txs[t].pc.gen.claim.None?
    ensures SysInv(SettleStep(s, t, f))
  {
    hide SysInv, Inv, NeedsSettling, SettlementEntry, StatusWrite, SettleSubject;
    hide Apply, ApplyWrite, AllGuards, Guards, RowLocks, Stuck;
    Knows(s, t);
    var sub, g := s.txs[t].pc.subject, s.txs[t].pc.gen;
    NeverStuck(s.db, sub);
    SettleUnfolds(s.db, sub, g.ledgerId);
    SettleGuards(s.db, sub, g.ledgerId);
    TwoWrites(s.db, PutLedger(SettlementEntry(s.db, sub, g.ledgerId)), StatusWrite(s.db, sub));
    CommitStep(s, t, g, Settled);
  }

  lemma OutboxCommitEffect(db: Db, g: Fresh, sub: Subject)
    requires Inv(db) && g.claim.Some? && Claimable(db, g.claim.value) && Decode(db.outbox[g.claim.value]) == Some(sub)
    ensures Exec(db, ProcessOutbox, g) == (MarkProcessed(SettleSubject(db, sub, g.ledgerId), g.claim.value), Followup(sub))
    ensures SubjectIdFresh(db, sub, g.ledgerId) ==> Admissible(db, ProcessOutbox, g)
  {
    hide Inv, SettleSubject, MarkProcessed, SubjectIdFresh, Stuck;
    NeverStuck(db, sub);
  }

  lemma ClaimCommits(s: Sys, t: Tid, f: Fresh)
    requires SysInv(s) && t in s.txs && (s.txs[t].op.Settle? || s.txs[t].op.ProcessOutbox?)
    requires s.txs[t].pc.Settling? && s.txs[t].pc.stage == Marked
    ensures SysInv(SettleStep(s, t, f))
  {
    hide SysInv, Inv, NeedsSettling, SettlementEntry, StatusWrite, SettleSubject, Apply, AllGuards;
    hide RowLocks, Stuck, Exec, Admissible, SubjectIdFresh, MarkPayment, MarkRefund;
    Knows(s, t);
    var sub, g := s.txs[t].pc.subject, s.txs[t].pc.gen;
    SettleUnfolds(s.db, sub, g.ledgerId);
    SettleGuards(s.db, sub, g.ledgerId);
    ThreeWrites(s.db, PutLedger(SettlementEntry(s.db, sub, g.ledgerId)), StatusWrite(s.db, sub), JobDone(g.claim.value));
    OutboxCommitEffect(s.db, g, sub);
    CommitStep(s, t, g, Followup(sub));
  }

  lemma SkipMarks(s: Sys, t: Tid, f: Fresh)
    requires SysInv(s) && t in s.txs && (s.txs[t].op.Settle? || s.txs[t].op.ProcessOutbox?) && s.txs[t].pc.Skipping?
    ensures SysInv(SettleStep(s, t, f))
  {
    hide SysInv, Inv, IdsBelow, SettleSubject, Apply, AllGuards, Exec, Take, Admissible, SubjectIdFresh;
    Knows(s, t);
    var sub, g := s.txs[t].pc.subject, s.txs[t].pc.gen;
    if s.txs[t].pc.marked {
      OneWrite(s.db, JobDone(g.claim.value));
      SkipCommit(s, t);
    } else {
      TakeShape(s, t, {});
      MoveOn(s, t, {}, s.next, Skipping(sub, true, g), Then(Nothing, JobDone(g.claim.value)));
    }
  }

  lemma SkipCommit(s: Sys, t: Tid)
    requires SysInv(s) && t in s.txs && (s.txs[t].op.Settle? || s.txs[t].op.ProcessOutbox?)
    requires s.txs[t].pc.Skipping? && s.txs[t].pc.marked && s.txs[t].pc.gen.claim.Some?
    ensures SysInv(Commit(s, t, s.txs[t].pc.gen, Followup(s.txs[t].pc.subject)))
  {
    hide SysInv, Inv, SettleSubject, Apply, AllGuards, Exec;
    Knows(s, t);
    var sub, g := s.txs[t].pc.subject, s.txs[t].pc.gen;
    OneWrite(s.db, JobDone(g.claim.value));
    SettledAlready(s.db, sub, g.ledgerId);
    OutboxCommitEffect(s.db, g, sub);
    assert SubjectIdFresh(s.db, sub, g.ledgerId);
    CommitStep(s, t, g, Followup(sub));
  }

  lemma SettleStepOk(s: Sys, t: Tid, f: Fresh)
    requires SysInv(s) && t in s.txs && (s.txs[t].op.Settle? || s.txs[t].op.ProcessOutbox?)
    ensures SysInv(SettleStep(s, t, f))
  {
    match s.txs[t].pc
    case Begin => SettleBegins(s, t, f);
    case Claimed(_) => ClaimedReads(s, t, f);
    case Settling(_, stage, g) =>
      if stage == Locked {
        SettleLogs(s, t, f);
      } else if stage == Marked {
        ClaimCommits(s, t, f);
      } else if stage == Updated && g.claim.None? {
        SettleCommits(s, t, f);
      } else {
        SettleUpdates(s, t, f);
      }
    case Skipping(_, _, _) => SkipMarks(s, t, f);
    case _ =>
  }

  // ---------- the whole system ----------

  lemma StepOk(s: Sys, a: Action)
    requires SysInv(s)
    ensures SysInv(Step(s, a))
  {
    hide SysInv, PaymentStep, RefundStep, SettleStep, Release;
    match a
    case Start(t, op) => if t !in s.txs { StartStep(s, t, op); }
    case Advance(t, f) =>
      if t in s.txs {
        if s.txs[t].pc.Answered? {
          EndStep(s, Step(s, a), t);
        } else {
          match s.txs[t].op
          case CreatePayment(_, _, _, _) => PaymentStepOk(s, t, f);
          case CreateRefund(_, _, _, _) => RefundStepOk(s, t, f);
          case _ => SettleStepOk(s, t, f);
        }
      }
    case Abort(t) =>
      if t in s.txs && !s.txs[t].pc.Done? {
        EndStep(s, Step(s, a), t);
      }
  }

  /** The invariant holds after every interleaving, with aborts anywhere. */
  lemma {:induction false} ExecuteOk(actions: seq<Action>)
    ensures SysInv(Execute(actions))
  {
    hide SysInv, Step;
    if actions == [] {
      InitialOk();
    } else {
      ExecuteOk(actions[..|actions| - 1]);
      StepOk(Execute(actions[..|actions| - 1]), actions[|actions| - 1]);
    }
  }

  /**
   Serial equivalence. However statements interleave and whichever transactions abort, the committed
   tables are those of running the recorded calls one at a time, and every transaction that got an
   answer got the one its own call gets at its own place in that order; no call appears twice.
   */
  lemma SerialEquivalence(actions: seq<Action>)
    ensures var s := Execute(actions);
            && Serial(EMPTY_DB, s.hist) && s.db == Run(EMPTY_DB, s.hist) && |s.owners| == |s.hist|
            && (forall t | t in s.txs && Decided(s.txs[t].pc).Some? ::
                  var at := Decided(s.txs[t].pc).value;
                  at < |s.hist| && s.hist[at].op == s.txs[t].op && s.hist[at].response == s.txs[t].pc.response)
            && (forall i, j :: 0 <= i < j < |s.owners| ==> s.owners[i] != s.owners[j])
            && (forall i :: 0 <= i < |s.owners| ==>
                  s.owners[i] in s.txs && Decided(s.txs[s.owners[i]].pc) == Some(i))
  {
    ExecuteOk(actions);
    hide Execute, Serial, Run, AllTxOk, IdsBelow;
  }

  /** Recorded calls stay where they are. */
  predicate Appends(s: Sys, s': Sys) { s.hist <= s'.hist && s.owners <= s'.owners }

  lemma PaymentAppends(s: Sys, t: Tid, f: Fresh)
    requires t in s.txs && s.txs[t].op.CreatePayment?
    ensures Appends(s, PaymentStep(s, t, f))
  {
    hide ValidPayment, Normal, LedgerInsert, Apply, ReplayPayment, FindPayment, Release, PaymentRowOf, AcceptedRow;
  }

  lemma RefundAppends(s: Sys, t: Tid, f: Fresh)
    requires t in s.txs && s.txs[t].op.CreateRefund?
    ensures Appends(s, RefundStep(s, t, f))
  {
    hide ValidKey, Normal, LedgerInsert, Apply, ReplayRefund, FindRefund, Release, RefundRowOf, RequestedRow;
    hide CheckHeadroom, Reserved, CheckPayment;
  }

  lemma SettleAppends(s: Sys, t: Tid, f: Fresh)
    requires t in s.txs && (s.txs[t].op.Settle? || s.txs[t].op.ProcessOutbox?)
    ensures Appends(s, SettleStep(s, t, f))
  {
    hide LedgerInsert, Apply, Release, Decode, NeedsSettling, SettlementEntry, StatusWrite, Stuck, RowLocks;
  }

  lemma StepAppends(s: Sys, a: Action)
    ensures Appends(s, Step(s, a))
  {
    hide PaymentStep, RefundStep, SettleStep, Release;
    if a.Advance? && a.t in s.txs && !s.txs[a.t].pc.Answered? {
      match s.txs[a.t].op
      case CreatePayment(_, _, _, _) => PaymentAppends(s, a.t, a.gen);
      case CreateRefund(_, _, _, _) => RefundAppends(s, a.t, a.gen);
      case _ => SettleAppends(s, a.t, a.gen);
    }
  }

  lemma {:induction false} HistoryAppends(actions: seq<Action>, k: nat)
    requires k <= |actions|
    ensures Execute(actions[..k]).hist <= Execute(actions).hist
    ensures Execute(actions[..k]).owners <= Execute(actions).owners
  {
    hide Step;
    if k == |actions| {
      assert actions[..k] == actions;
    } else {
      var front := actions[..|actions| - 1];
      assert front[..k] == actions[..k];
      HistoryAppends(front, k);
      StepAppends(Execute(front), actions[|actions| - 1]);
    }
  }

  predicate DecidedIn(s: Sys, t: Tid) { t in s.txs && Decided(s.txs[t].pc).Some? }

  lemma DecidedIffPlaced(s: Sys, t: Tid)
    requires HistoryOwned(s)
    ensures DecidedIn(s, t) ==> var at := Decided(s.txs[t].pc).value; at < |s.owners| && s.owners[at] == t
    ensures DecidedIn(s, t) <==> t in s.owners
    ensures forall at :: 0 <= at < |s.owners| && s.owners[at] == t ==> DecidedIn(s, t) && Decided(s.txs[t].pc).value == at
  {
  }

  /**
   The serial order respects real time. A transaction whose deciding statement (its commit, or the
   read that answers it) was executed in the first k actions keeps its place for ever, and comes
   before every transaction not yet decided then; in particular a call answered before another one
   starts comes before it.
   */
  lemma RealTimeOrder(actions: seq<Action>, k: nat, t: Tid, u: Tid)
    requires k <= |actions| && DecidedIn(Execute(actions[..k]), t)
    requires !DecidedIn(Execute(actions[..k]), u) && DecidedIn(Execute(actions), u)
    ensures DecidedIn(Execute(actions), t)
    ensures Decided(Execute(actions).txs[t].pc) == Decided(Execute(actions[..k]).txs[t].pc)
    ensures Decided(Execute(actions).txs[t].pc).value < Decided(Execute(actions).txs[u].pc).value
  {
    ExecuteOk(actions);
    ExecuteOk(actions[..k]);
    HistoryAppends(actions, k);
    hide Execute, HistoryExplains, AllTxOk, HistoryOwned, DecidedIn;
    var early, late := Execute(actions[..k]), Execute(actions);
    DecidedIffPlaced(early, t);
    DecidedIffPlaced(early, u);
    DecidedIffPlaced(late, t);
    DecidedIffPlaced(late, u);
    assert late.owners[Decided(early.txs[t].pc).value] == t;
  }

  /**
   The refund lock at work: from the statement that sums the refunds until it commits, the balance a
   create has read stays the committed balance, and the amount still passes the headroom test on it.
   */
  lemma ReservedHeldUntilCommit(actions: seq<Action>, t: Tid)
    requires var s := Execute(actions);
             t in s.txs && s.txs[t].op.CreateRefund?
             && (s.txs[t].pc.RefundSummed? || s.txs[t].pc.RefundInserted?
                 || s.txs[t].pc.RefundLogged? || s.txs[t].pc.RefundReady?)
    ensures var s := Execute(actions);
            var p := s.txs[t].op.payment;
            && p in s.db.payments && s.txs[t].pc.reserved == Reserved(s.db, p)
            && CheckHeadroom(Reserved(s.db, p), s.txs[t].pc.amount, s.db.payments[p].amount).None?
  {
    ExecuteOk(actions);
    hide SysInv, Execute, Reserved, Inv;
    Knows(Execute(actions), t);
  }

  /**
   Safety of every interleaving: conservation, a ledger that explains the tables and whose ids rise in
   commit order for each payment, no lost settlement, no two payments under one key, no poison row.
   */
  lemma EveryInterleavingSafe(actions: seq<Action>)
    ensures var s := Execute(actions);
            && Inv(s.db)
            && (forall p | p in s.db.payments :: Bounded(s.db.payments[p].amount, Reserved(s.db, p)))
            && (forall t | t in s.txs && Decided(s.txs[t].pc).Some? :: s.txs[t].pc.response != Failed(PoisonRow))
  {
    ExecuteOk(actions);
    hide Execute, Serial, Run, AllTxOk, IdsBelow, Inv, Reserved, Bounded;
    var s := Execute(actions);
    forall p | p in s.db.payments ensures Bounded(s.db.payments[p].amount, Reserved(s.db, p)) {
      RefundsBounded(s.db, p);
    }
    forall t | t in s.txs && Decided(s.txs[t].pc).Some? ensures s.txs[t].pc.response != Failed(PoisonRow) {
      NoPoisonRows(s.hist, Decided(s.txs[t].pc).value);
    }
  }
}
