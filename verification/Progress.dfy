/** The statement-level system can always go on: no set of transactions ever waits for itself. */
module Progress {
  import opened Types
  import opened Text
  import opened Tables
  import opened Operations
  import opened Invariant
  import opened Runs
  import opened Statements
  import opened Isolation
  import opened Serializability
  import opened Interleaving

  // ---------- who holds what ----------

  /** The kinds of lock a transaction can hold at each of its statements. */
  predicate MayHold(l: Lock, pc: Pc)
  {
    match pc
    case PaymentInserted(_) => l.PaymentSlotLock? || l.PaymentLock?
    case PaymentLogged(_) => l.PaymentSlotLock? || l.PaymentLock?
    case PaymentReady(_) => l.PaymentSlotLock? || l.PaymentLock? || l.OutboxLock?
    case RefundLocked(_, _) => l.PaymentLock?
    case RefundSummed(_, _, _) => l.PaymentLock?
    case RefundClash(_, _, _) => l.PaymentLock?
    case RefundInserted(_, _, _, _) => l.PaymentLock? || l.RefundLock? || l.RefundSlotLock?
    case RefundLogged(_, _, _, _) => l.PaymentLock? || l.RefundLock? || l.RefundSlotLock?
    case RefundReady(_, _, _, _) => l.PaymentLock? || l.RefundLock? || l.RefundSlotLock? || l.OutboxLock?
    case Claimed(_) => l.OutboxLock?
    case Settling(_, _, _) => l.PaymentLock? || l.RefundLock? || l.OutboxLock?
    case Skipping(_, _, _) => l.PaymentLock? || l.RefundLock? || l.OutboxLock?
    case Answered(_, _) => l.PaymentLock? || l.RefundLock? || l.OutboxLock?
    case _ => false
  }

  /** Every lock is held by a transaction that is still on its way to release it. */
  ghost predicate HoldersOk(s: Sys)
  {
    forall l | l in s.locks :: s.locks[l] in s.txs && MayHold(l, s.txs[s.locks[l]].pc)
  }

  /** Moving on: t gains these locks, and may hold all it has. */
  lemma HoldersMove(s: Sys, s': Sys, t: Tid, ls: set<Lock>)
    requires HoldersOk(s) && t in s.txs && t in s'.txs && s'.txs == s.txs[t := s'.txs[t]]
    requires s'.locks == s.locks + map l | l in ls :: t
    requires forall l :: MayHold(l, s.txs[t].pc) ==> MayHold(l, s'.txs[t].pc)
    requires forall l | l in ls :: MayHold(l, s'.txs[t].pc)
    ensures HoldersOk(s')
  {
    hide MayHold;
  }

  /** Ending: t's locks are gone. */
  lemma HoldersEnd(s: Sys, s': Sys, t: Tid)
    requires HoldersOk(s) && t in s.txs && t in s'.txs && s'.txs == s.txs[t := s'.txs[t]]
    requires s'.locks == Release(s.locks, t)
    ensures HoldersOk(s')
  {
    hide MayHold;
  }

  lemma HoldersStay(s: Sys, s': Sys, t: Tid)
    requires HoldersOk(s) && t in s.txs && t in s'.txs && s'.txs == s.txs[t := s'.txs[t]] && s'.locks == s.locks
    requires forall l :: MayHold(l, s.txs[t].pc) ==> MayHold(l, s'.txs[t].pc)
    ensures HoldersOk(s')
  {
    hide MayHold;
  }

  lemma HoldersStayOrEnd(s: Sys, s': Sys, t: Tid)
    requires HoldersOk(s) && t in s.txs && t in s'.txs && s'.txs == s.txs[t := s'.txs[t]]
    requires s'.locks == Release(s.locks, t)
          || (s'.locks == s.locks && forall l :: MayHold(l, s.txs[t].pc) ==> MayHold(l, s'.txs[t].pc))
    ensures HoldersOk(s')
  {
    hide MayHold, Release, HoldersOk;
    if s'.locks == Release(s.locks, t) {
      HoldersEnd(s, s', t);
    } else {
      HoldersStay(s, s', t);
    }
  }

  lemma PaymentHolders(s: Sys, t: Tid, f: Fresh)
    requires HoldersOk(s) && t in s.txs && s.txs[t].op.CreatePayment?
    ensures HoldersOk(PaymentStep(s, t, f))
  {
    hide HoldersOk, ValidPayment, Normal, LedgerInsert, ReplayPayment, FindPayment, Release, Apply;
    var s' := PaymentStep(s, t, f);
    if s' != s {
      match s.txs[t].pc
      case Begin =>
        if s'.txs[t].pc.PaymentInserted? {
          HoldersMove(s, s', t, {PaymentSlotLock(PaymentSlot(PaymentRowOf(s.txs[t].op))), PaymentLock(f.id)});
        } else {
          HoldersStay(s, s', t);
        }
      case PaymentLogged(_) => HoldersMove(s, s', t, {OutboxLock(f.outboxId)});
      case PaymentReady(_) => HoldersEnd(s, s', t);
      case PaymentClash => HoldersStay(s, s', t);
      case PaymentInserted(_) => HoldersStay(s, s', t);
      case _ =>
    }
  }

  lemma RefundHoldersChecking(s: Sys, t: Tid, f: Fresh)
    requires HoldersOk(s) && t in s.txs && s.txs[t].op.CreateRefund?
    requires s.txs[t].pc.Begin? || s.txs[t].pc.RefundLocked? || s.txs[t].pc.RefundClash?
    ensures HoldersOk(RefundStep(s, t, f))
  {
    hide HoldersOk, ValidKey, Normal, ReplayRefund, FindRefund, CheckPayment, CheckHeadroom, Reserved;
    var s' := RefundStep(s, t, f);
    if s' != s {
      if s.txs[t].pc.Begin? && s'.txs[t].pc.RefundLocked? {
        HoldersMove(s, s', t, {PaymentLock(s.txs[t].op.payment)});
      } else {
        HoldersStay(s, s', t);
      }
    }
  }

  lemma RefundHolders(s: Sys, t: Tid, f: Fresh)
    requires HoldersOk(s) && t in s.txs && s.txs[t].op.CreateRefund?
    requires !(s.txs[t].pc.Begin? || s.txs[t].pc.RefundLocked? || s.txs[t].pc.RefundClash?)
    ensures HoldersOk(RefundStep(s, t, f))
  {
    hide HoldersOk, ValidKey, Normal, LedgerInsert, Release, Apply, RefundSlot, NewRefund, RequestedRow, RefundJob;
    var s' := RefundStep(s, t, f);
    if s' != s {
      match s.txs[t].pc
      case RefundSummed(a, c, _) =>
        if s'.txs[t].pc.RefundInserted? {
          HoldersMove(s, s', t, {RefundSlotLock(RefundSlot(RefundRowOf(s.txs[t].op, a, c))), RefundLock(f.id)});
        } else {
          HoldersStay(s, s', t);
        }
      case RefundInserted(_, _, _, _) => HoldersStay(s, s', t);
      case RefundLogged(_, _, _, _) => HoldersMove(s, s', t, {OutboxLock(f.outboxId)});
      case RefundReady(_, _, _, _) => HoldersEnd(s, s', t);
      case _ =>
    }
  }

  lemma SubjectHolders(s: Sys, t: Tid, sub: Subject, g: Fresh)
    requires HoldersOk(s) && t in s.txs && (s.txs[t].pc.Begin? || s.txs[t].pc.Claimed?)
    ensures HoldersOk(LockSubject(s, t, sub, g))
  {
    hide HoldersOk, Stuck, NeedsSettling;
    var s' := LockSubject(s, t, sub, g);
    if s' != s {
      if s'.txs[t].pc.Answered? {
        HoldersStay(s, s', t);
      } else {
        HoldersMove(s, s', t, RowLocks(s.db, sub));
      }
    }
  }

  lemma SettleHolders(s: Sys, t: Tid, f: Fresh)
    requires HoldersOk(s) && t in s.txs && (s.txs[t].op.Settle? || s.txs[t].op.ProcessOutbox?)
    ensures HoldersOk(SettleStep(s, t, f))
  {
    hide HoldersOk, LockSubject, LedgerInsert, Release, Apply, Decode, NeedsSettling, SettlementEntry, StatusWrite;
    var s' := SettleStep(s, t, f);
    if s' != s {
      match s.txs[t].pc
      case Begin =>
        if s.txs[t].op.Settle? {
          SubjectHolders(s, t, s.txs[t].op.subject, f.(claim := None));
        } else if f.claim.None? {
          HoldersStay(s, s', t);
        } else {
          HoldersMove(s, s', t, {OutboxLock(f.claim.value)});
        }
      case Claimed(g) =>
        if Decode(s.db.outbox[g.claim.value]).None? {
          HoldersStay(s, s', t);
        } else {
          SubjectHolders(s, t, Decode(s.db.outbox[g.claim.value]).value, g);
        }
      case Settling(_, _, _) => HoldersStayOrEnd(s, s', t);
      case Skipping(_, _, _) => HoldersStayOrEnd(s, s', t);
      case _ =>
    }
  }

  lemma StepHolders(s: Sys, a: Action)
    requires HoldersOk(s)
    ensures HoldersOk(Step(s, a))
  {
    hide HoldersOk, PaymentStep, RefundStep, SettleStep, Release;
    match a
    case Start(t, op) =>
      if t !in s.txs {
        HoldersStart(s, t, op);
      }
    case Advance(t, f) =>
      if t in s.txs {
        if s.txs[t].pc.Answered? {
          HoldersEnd(s, Step(s, a), t);
        } else {
          match s.txs[t].op
          case CreatePayment(_, _, _, _) => PaymentHolders(s, t, f);
          case CreateRefund(_, _, _, _) =>
            if s.txs[t].pc.Begin? || s.txs[t].pc.RefundLocked? || s.txs[t].pc.RefundClash? {
              RefundHoldersChecking(s, t, f);
            } else {
              RefundHolders(s, t, f);
            }
          case _ => SettleHolders(s, t, f);
        }
      }
    case Abort(t) =>
      if t in s.txs && !s.txs[t].pc.Done? {
        HoldersEnd(s, Step(s, a), t);
      }
  }

  lemma HoldersStart(s: Sys, t: Tid, op: Op)
    requires HoldersOk(s) && t !in s.txs
    ensures HoldersOk(s.(txs := s.txs[t := Tx(op, Begin, Nothing)]))
  {
    hide MayHold;
  }

  lemma {:induction false} ExecuteHolders(actions: seq<Action>)
    ensures HoldersOk(Execute(actions))
  {
    hide HoldersOk, Step;
    if actions == [] {
      assert HoldersOk(INITIAL) by { NobodyHolds(); }
    } else {
      ExecuteHolders(actions[..|actions| - 1]);
      StepHolders(Execute(actions[..|actions| - 1]), actions[|actions| - 1]);
    }
  }

  lemma NobodyHolds()
    ensures HoldersOk(INITIAL)
  {
  }

  // ---------- a transaction moves, or waits for a named lock ----------

  predicate Finished(pc: Pc) { pc.Done? || pc.Aborted? }

  /** Ids and claims that the next statement of t accepts: generated ids are new, and SKIP LOCKED claims a free row. */
  predicate Fits(s: Sys, t: Tid, f: Fresh)
    requires t in s.txs
  {
    var tx := s.txs[t];
    match tx.op
    case CreatePayment(_, _, _, _) =>
      && (tx.pc.Begin? && ValidPayment(tx.op.amount, tx.op.currency, tx.op.key)
          && Slot(tx.op.tenant, tx.op.key) !in s.db.paymentKeys ==>
            f.id !in s.db.payments && Unlocked(s, PaymentLock(f.id)))
      && (tx.pc.PaymentLogged? ==> f.outboxId !in s.db.outbox && Unlocked(s, OutboxLock(f.outboxId)))
    case CreateRefund(_, _, _, _) =>
      && (tx.pc.RefundSummed? && Slot(tx.op.tenant, tx.op.key) !in s.db.refundKeys ==>
            f.id !in s.db.refunds && Unlocked(s, RefundLock(f.id)))
      && (tx.pc.RefundLogged? ==> f.outboxId !in s.db.outbox && Unlocked(s, OutboxLock(f.outboxId)))
    case Settle(_) => true
    case ProcessOutbox =>
      tx.pc.Begin? && f.claim.Some? ==> Claimable(s.db, f.claim.value) && Unlocked(s, OutboxLock(f.claim.value))
  }

  /** The locks the next statement of t needs from others. */
  function Needs(s: Sys, t: Tid): set<Lock>
    requires t in s.txs
  {
    var tx := s.txs[t];
    match tx.op
    case CreatePayment(tenant, key, _, _) => if tx.pc.Begin? then {PaymentSlotLock(Slot(tenant, key))} else {}
    case CreateRefund(tenant, p, key, _) =>
      if tx.pc.Begin? then {PaymentLock(p)}
      else if tx.pc.RefundSummed? then {RefundSlotLock(Slot(tenant, key))} else {}
    case Settle(sub) => if tx.pc.Begin? then RowLocks(s.db, sub) else {}
    case ProcessOutbox =>
      if tx.pc.Claimed? && tx.pc.gen.claim.Some? && tx.pc.gen.claim.value in s.db.outbox
         && Decode(s.db.outbox[tx.pc.gen.claim.value]).Some?
      then RowLocks(s.db, Decode(s.db.outbox[tx.pc.gen.claim.value]).value) else {}
  }

  /** t has to wait for the holder of l. */
  predicate Waits(s: Sys, t: Tid, l: Lock)
  {
    t in s.txs && l in Needs(s, t) && !Free(s, l, t)
  }

  ghost predicate Moves(s: Sys, t: Tid, f: Fresh) { Step(s, Advance(t, f)) != s }

  /** The statements of each kind of create. */
  predicate OwnStatement(tx: Tx)
  {
    match tx.op
    case CreatePayment(_, _, _, _) =>
      tx.pc.Begin? || tx.pc.PaymentClash? || tx.pc.PaymentInserted? || tx.pc.PaymentLogged? || tx.pc.PaymentReady?
    case CreateRefund(_, _, _, _) =>
      tx.pc.Begin? || tx.pc.RefundLocked? || tx.pc.RefundSummed? || tx.pc.RefundClash?
      || tx.pc.RefundInserted? || tx.pc.RefundLogged? || tx.pc.RefundReady?
    case _ => true
  }

  lemma CreateKnows(s: Sys, t: Tid)
    requires SysInv(s) && t in s.txs && !Ended(s.txs[t].pc) && (s.txs[t].op.CreatePayment? || s.txs[t].op.CreateRefund?)
    ensures OwnStatement(s.txs[t])
    ensures s.txs[t].pc.PaymentClash? ==> FindPayment(s.db, Slot(s.txs[t].op.tenant, s.txs[t].op.key)).Some?
    ensures s.txs[t].pc.RefundClash? ==> FindRefund(s.db, Slot(s.txs[t].op.tenant, s.txs[t].op.key)).Some?
    ensures s.txs[t].pc.RefundLocked? ==> s.txs[t].op.payment in s.db.payments
  {
    hide SysInv, Inv, IdsBelow, ValidPayment, ValidKey, Normal;
    hide RefundHeld, RefundWrites, PaymentHeld, PaymentWrites, FindPayment, FindRefund;
    hide CheckHeadroom, Reserved, LedgerIdFresh;
    Knows(s, t);
    FreeSlot(s.db, Slot(s.txs[t].op.tenant, s.txs[t].op.key));
  }

  lemma PaymentMoves(s: Sys, t: Tid, f: Fresh)
    requires SysInv(s) && t in s.txs && s.txs[t].op.CreatePayment? && !Ended(s.txs[t].pc) && Fits(s, t, f)
    ensures PaymentStep(s, t, f) != s || exists l :: Waits(s, t, l)
  {
    hide SysInv, ValidPayment, Normal, LedgerInsert, Apply, ReplayPayment, FindPayment, Release, AcceptedRow;
    CreateKnows(s, t);
    if s.txs[t].pc.Begin? && PaymentStep(s, t, f) == s {
      assert Waits(s, t, PaymentSlotLock(Slot(s.txs[t].op.tenant, s.txs[t].op.key)));
    }
  }

  lemma RefundMoves(s: Sys, t: Tid, f: Fresh)
    requires SysInv(s) && t in s.txs && s.txs[t].op.CreateRefund? && !Ended(s.txs[t].pc) && Fits(s, t, f)
    ensures RefundStep(s, t, f) != s || exists l :: Waits(s, t, l)
  {
    hide SysInv, ValidKey, Normal, LedgerInsert, Apply, ReplayRefund;
    hide FindRefund, Release, RequestedRow, CheckHeadroom, Reserved, CheckPayment;
    CreateKnows(s, t);
    if RefundStep(s, t, f) == s {
      if s.txs[t].pc.Begin? {
        assert Waits(s, t, PaymentLock(s.txs[t].op.payment));
      } else if s.txs[t].pc.RefundSummed? {
        assert Waits(s, t, RefundSlotLock(Slot(s.txs[t].op.tenant, s.txs[t].op.key)));
      }
    }
  }

  lemma SubjectMoves(s: Sys, t: Tid, sub: Subject, g: Fresh)
    requires t in s.txs && (s.txs[t].pc.Begin? || s.txs[t].pc.Claimed?)
    requires LockSubject(s, t, sub, g) == s && RowLocks(s.db, sub) <= Needs(s, t)
    ensures exists l :: Waits(s, t, l)
  {
    hide RowLocks, Stuck, NeedsSettling, Needs;
    if l :| l in RowLocks(s.db, sub) && !Free(s, l, t) {
      assert Waits(s, t, l);
    }
  }

  lemma SettleMoves(s: Sys, t: Tid, f: Fresh)
    requires SysInv(s) && t in s.txs && (s.txs[t].op.Settle? || s.txs[t].op.ProcessOutbox?)
    requires !Ended(s.txs[t].pc) && Fits(s, t, f)
    ensures SettleStep(s, t, f) != s || exists l :: Waits(s, t, l)
  {
    hide SysInv, LockSubject, Needs, RowLocks, Waits, Decode;
    if SettleStep(s, t, f) == s {
      if s.txs[t].pc.Claimed? {
        ClaimMoves(s, t, f);
      } else if s.txs[t].pc.Begin? {
        if s.txs[t].op.Settle? {
          SettleNeeds(s, t);
          SubjectMoves(s, t, s.txs[t].op.subject, f.(claim := None));
        }
      } else {
        WritingMoves(s, t, f);
      }
    }
  }

  /** Once the locks are taken, a settlement waits for nothing. */
  lemma WritingMoves(s: Sys, t: Tid, f: Fresh)
    requires SysInv(s) && t in s.txs && (s.txs[t].op.Settle? || s.txs[t].op.ProcessOutbox?)
    requires !Ended(s.txs[t].pc) && !s.txs[t].pc.Begin? && !s.txs[t].pc.Claimed?
    ensures SettleStep(s, t, f) != s
  {
    hide SysInv, Inv, IdsBelow, LedgerInsert, Apply, Release, SettleWrites, NeedsSettling, HoldsAll, Asked, RowLocks;
    hide SettlementEntry, StatusWrite, HasSucceeded, SubjectIdFresh;
    Knows(s, t);
  }

  lemma SettleNeeds(s: Sys, t: Tid)
    requires t in s.txs && s.txs[t].op.Settle? && s.txs[t].pc.Begin?
    ensures Needs(s, t) == RowLocks(s.db, s.txs[t].op.subject)
  {
  }

  lemma ClaimKnows(s: Sys, t: Tid)
    requires SysInv(s) && t in s.txs && (s.txs[t].op.Settle? || s.txs[t].op.ProcessOutbox?) && s.txs[t].pc.Claimed?
    ensures s.txs[t].op.ProcessOutbox? && s.txs[t].pc.gen.claim.Some? && s.txs[t].pc.gen.claim.value in s.db.outbox
    ensures Decode(s.db.outbox[s.txs[t].pc.gen.claim.value]).Some?
  {
    Knows(s, t);
    RowNotPoison(s.db, s.txs[t].pc.gen.claim.value);
    hide SysInv, Inv, IdsBelow, Decode;
  }

  lemma ClaimMoves(s: Sys, t: Tid, f: Fresh)
    requires SysInv(s) && t in s.txs && (s.txs[t].op.Settle? || s.txs[t].op.ProcessOutbox?) && s.txs[t].pc.Claimed?
    requires SettleStep(s, t, f) == s
    ensures exists l :: Waits(s, t, l)
  {
    hide SysInv, LockSubject, RowLocks, Decode;
    ClaimKnows(s, t);
    var g := s.txs[t].pc.gen;
    SubjectMoves(s, t, Decode(s.db.outbox[g.claim.value]).value, g);
  }

  /** A transaction that has not finished either moves, or waits for a lock that another one holds. */
  lemma MoveOrWait(s: Sys, t: Tid, f: Fresh)
    requires SysInv(s) && t in s.txs && !Finished(s.txs[t].pc) && Fits(s, t, f)
    ensures Moves(s, t, f) || exists l :: Waits(s, t, l)
  {
    hide SysInv, PaymentStep, RefundStep, SettleStep, Fits, Waits, Release;
    if s.txs[t].pc.Answered? {
      assert Step(s, Advance(t, f)).txs[t].pc.Done?;
    } else {
      match s.txs[t].op
      case CreatePayment(_, _, _, _) => PaymentMoves(s, t, f);
      case CreateRefund(_, _, _, _) => RefundMoves(s, t, f);
      case _ => SettleMoves(s, t, f);
    }
  }

  /** The holder of a lock somebody waits for waits itself at most for a refund key, whose holder waits for nothing. */
  lemma WaitingChain(s: Sys, t: Tid, l: Lock)
    requires HoldersOk(s) && Waits(s, t, l)
    ensures l in s.locks && s.locks[l] in s.txs && !Finished(s.txs[s.locks[l]].pc)
    ensures forall k | Waits(s, s.locks[l], k) :: k.RefundSlotLock? && !l.RefundSlotLock?
  {
    assert MayHold(l, s.txs[s.locks[l]].pc);
    hide HoldersOk;
  }

  // ---------- no deadlock ----------

  /** UUIDs never run out. */
  lemma {:induction false} LongerThanAll(used: set<Uuid>) returns (text: string)
    ensures forall u | u in used :: |u.text| < |text|
  {
    text := "x";
    var left := used;
    while left != {}
      invariant left <= used && forall u | u in used && u !in left :: |u.text| < |text|
      decreases |left|
    {
      var u :| u in left;
      left := left - {u};
      text := text + u.text + "x";
    }
  }

  function IdOf(l: Lock): Uuid
  {
    match l
    case PaymentLock(p) => p
    case RefundLock(r) => r
    case OutboxLock(o) => o
    case _ => Uuid("")
  }

  lemma SomethingFits(s: Sys) returns (f: Fresh)
    ensures forall t | t in s.txs :: Fits(s, t, f)
  {
    var used := s.db.payments.Keys + s.db.refunds.Keys + s.db.outbox.Keys + (set l | l in s.locks :: IdOf(l));
    var text := LongerThanAll(used);
    var id := Uuid(text);
    assert id !in used;
    f := Fresh(id, 0, id, 0, None);
    forall l | l in s.locks ensures l != PaymentLock(id) && l != RefundLock(id) && l != OutboxLock(id) {
      assert IdOf(l) in used;
    }
    hide ValidPayment;
  }

  /** No deadlock: as long as somebody has not finished, somebody can execute a statement. */
  lemma NoDeadlock(s: Sys, t: Tid) returns (u: Tid, f: Fresh)
    requires SysInv(s) && HoldersOk(s) && t in s.txs && !Finished(s.txs[t].pc)
    ensures u in s.txs && Moves(s, u, f)
  {
    hide SysInv, HoldersOk, Fits, Moves, Waits;
    f := SomethingFits(s);
    u := t;
    MoveOrWait(s, u, f);
    if l :| Waits(s, u, l) {
      if Moves(s, u, f) {
        return;
      }
      WaitingChain(s, u, l);
      u := s.locks[l];
      MoveOrWait(s, u, f);
      if k :| Waits(s, u, k) {
        if Moves(s, u, f) {
          return;
        }
        WaitingChain(s, u, k);
        u := s.locks[k];
        MoveOrWait(s, u, f);
      }
    }
  }

  // ---------- everybody can finish ----------

  /** An upper bound on the statements a transaction still has before it. */
  function Rank(pc: Pc): nat
  {
    match pc
    case Begin => 6
    case PaymentClash => 2
    case PaymentInserted(_) => 3
    case PaymentLogged(_) => 2
    case PaymentReady(_) => 1
    case RefundLocked(_, _) => 5
    case RefundSummed(_, _, _) => 4
    case RefundClash(_, _, _) => 2
    case RefundInserted(_, _, _, _) => 3
    case RefundLogged(_, _, _, _) => 2
    case RefundReady(_, _, _, _) => 1
    case Claimed(_) => 5
    case Settling(_, stage, _) =>
      (match stage case Locked => 4 case Logged => 3 case Updated => 2 case Marked => 1)
    case Skipping(_, marked, _) => if marked then 1 else 2
    case Answered(_, _) => 1
    case Done(_, _, _) => 0
    case Aborted => 0
  }

  /** A step that changes anything takes its own transaction forward and leaves the others where they are. */
  predicate Forward(s: Sys, s': Sys, t: Tid)
  {
    s' == s || (t in s.txs && t in s'.txs && s'.txs == s.txs[t := s'.txs[t]] && s'.txs[t].op == s.txs[t].op
                && Rank(s'.txs[t].pc) < Rank(s.txs[t].pc))
  }

  lemma PaymentForward(s: Sys, t: Tid, f: Fresh)
    requires t in s.txs && s.txs[t].op.CreatePayment?
    ensures Forward(s, PaymentStep(s, t, f), t)
  {
    hide ValidPayment, Normal, LedgerInsert, Apply, ReplayPayment, FindPayment, Release, PaymentRowOf, AcceptedRow;
  }

  lemma RefundForward(s: Sys, t: Tid, f: Fresh)
    requires t in s.txs && s.txs[t].op.CreateRefund?
    ensures Forward(s, RefundStep(s, t, f), t)
  {
    hide ValidKey, Normal, LedgerInsert, Apply, ReplayRefund, FindRefund, Release, RefundRowOf, RequestedRow;
    hide CheckHeadroom, Reserved, CheckPayment;
  }

  lemma SubjectForward(s: Sys, t: Tid, sub: Subject, g: Fresh)
    requires t in s.txs && (s.txs[t].pc.Begin? || s.txs[t].pc.Claimed?)
    ensures Forward(s, LockSubject(s, t, sub, g), t)
  {
    hide Stuck, NeedsSettling, RowLocks;
  }

  lemma SettleForward(s: Sys, t: Tid, f: Fresh)
    requires t in s.txs && (s.txs[t].op.Settle? || s.txs[t].op.ProcessOutbox?)
    ensures Forward(s, SettleStep(s, t, f), t)
  {
    hide LockSubject, LedgerInsert, Apply, Release, Decode, NeedsSettling, SettlementEntry, StatusWrite, Forward;
    if s.txs[t].pc.Begin? && s.txs[t].op.Settle? {
      SubjectForward(s, t, s.txs[t].op.subject, f.(claim := None));
    } else if s.txs[t].pc.Claimed? && s.txs[t].pc.gen.claim.Some? && s.txs[t].pc.gen.claim.value in s.db.outbox {
      var row := s.db.outbox[s.txs[t].pc.gen.claim.value];
      if Decode(row).Some? {
        SubjectForward(s, t, Decode(row).value, s.txs[t].pc.gen);
      } else {
        assert SettleStep(s, t, f).txs[t].pc.Answered?;
        assert Forward(s, SettleStep(s, t, f), t) by { ForwardTo(s, SettleStep(s, t, f), t); }
      }
    } else {
      if SettleStep(s, t, f) != s {
        ForwardTo(s, SettleStep(s, t, f), t);
      } else {
        ForwardNot(s, t);
      }
    }
  }

  lemma ForwardTo(s: Sys, s': Sys, t: Tid)
    requires t in s.txs && t in s'.txs && s'.txs == s.txs[t := s'.txs[t]] && s'.txs[t].op == s.txs[t].op
    requires Rank(s'.txs[t].pc) < Rank(s.txs[t].pc)
    ensures Forward(s, s', t)
  {
  }

  lemma ForwardNot(s: Sys, t: Tid)
    ensures Forward(s, s, t)
  {
  }

  lemma AdvanceForward(s: Sys, t: Tid, f: Fresh)
    ensures Forward(s, Step(s, Advance(t, f)), t)
  {
    hide PaymentStep, RefundStep, SettleStep, Release;
    if t in s.txs && !s.txs[t].pc.Answered? {
      hide Forward;
      match s.txs[t].op
      case CreatePayment(_, _, _, _) => PaymentForward(s, t, f);
      case CreateRefund(_, _, _, _) => RefundForward(s, t, f);
      case _ => SettleForward(s, t, f);
    }
  }

  /** The ranks of the transactions numbered below n. */
  function Remaining(txs: map<Tid, Tx>, n: nat): nat
  {
    if n == 0 then 0 else Remaining(txs, n - 1) + if n - 1 in txs then Rank(txs[n - 1].pc) else 0
  }

  lemma {:induction false} RemainingLowers(txs: map<Tid, Tx>, t: Tid, tx: Tx, n: nat)
    requires t in txs && Rank(tx.pc) < Rank(txs[t].pc)
    ensures Remaining(txs[t := tx], n) <= Remaining(txs, n)
    ensures t < n ==> Remaining(txs[t := tx], n) < Remaining(txs, n)
  {
    if n > 0 {
      RemainingLowers(txs, t, tx, n - 1);
    }
  }

  lemma AboveAll(txs: map<Tid, Tx>) returns (n: nat)
    ensures forall t | t in txs :: t < n
  {
    n := 0;
    var left := txs.Keys;
    while left != {}
      invariant left <= txs.Keys && forall t | t in txs && t !in left :: t < n
      decreases |left|
    {
      var t :| t in left;
      left := left - {t};
      n := if t < n then n else t + 1;
    }
  }

  predicate AllFinished(s: Sys)
  {
    forall t | t in s.txs :: Finished(s.txs[t].pc)
  }

  predicate OnlyAdvances(actions: seq<Action>)
  {
    forall i :: 0 <= i < |actions| ==> actions[i].Advance?
  }

  lemma ExecuteOne(actions: seq<Action>, a: Action)
    ensures Execute(actions + [a]) == Step(Execute(actions), a)
  {
    hide Step;
    assert (actions + [a])[..|actions|] == actions;
  }

  lemma {:induction false} FinishFrom(actions: seq<Action>, n: nat) returns (more: seq<Action>)
    requires forall t | t in Execute(actions).txs :: t < n
    ensures OnlyAdvances(more) && AllFinished(Execute(actions + more))
    decreases Remaining(Execute(actions).txs, n)
  {
    hide Step, SysInv, HoldersOk, Execute;
    var s := Execute(actions);
    if AllFinished(s) {
      more := [];
      assert actions + more == actions;
    } else {
      ExecuteOk(actions);
      ExecuteHolders(actions);
      var t :| t in s.txs && !Finished(s.txs[t].pc);
      var u, f := NoDeadlock(s, t);
      AdvanceForward(s, u, f);
      ExecuteOne(actions, Advance(u, f));
      RemainingLowers(s.txs, u, Step(s, Advance(u, f)).txs[u], n);
      var rest := FinishFrom(actions + [Advance(u, f)], n);
      more := [Advance(u, f)] + rest;
      assert actions + [Advance(u, f)] + rest == actions + more;
    }
  }

  /**
   Liveness. After any interleaving whatever, aborts included, the transactions in flight can all be
   brought to their end by executing their statements, without aborting one.
   */
  lemma EveryoneCanFinish(actions: seq<Action>) returns (more: seq<Action>)
    ensures OnlyAdvances(more) && AllFinished(Execute(actions + more))
  {
    var n := AboveAll(Execute(actions).txs);
    more := FinishFrom(actions, n);
  }
}
