/**
 Every serial run of calls is one of the interleavings: what the atomic calls can do, the
 statement-level system can do. Only the ledger ids may differ, since the sequence hands those out.
 */
module Realisation {
  import opened Types
  import opened Headroom
  import opened Text
  import opened Tables
  import opened Operations
  import opened Sequence
  import opened Invariant
  import opened Runs
  import opened Cases
  import opened Statements
  import opened Isolation
  import opened Serializability
  import opened Guarantees
  import opened Interleaving
  import opened Progress

  // ---------- one transaction alone ----------

  /** The ids and the claim of f suit a call executed by itself on these tables. */
  ghost predicate IdsFit(db: Db, op: Op, f: Fresh)
  {
    match op
    case CreatePayment(tenant, key, amount, currency) =>
      ValidPayment(amount, currency, key) && Slot(tenant, key) !in db.paymentKeys ==>
        f.id !in db.payments && f.outboxId !in db.outbox
    case CreateRefund(tenant, p, key, amount) =>
      ValidKey(key) && CheckPayment(db, tenant, p, amount).Admit?
      && CheckHeadroom(Reserved(db, p), CheckPayment(db, tenant, p, amount).amount, db.payments[p].amount).None?
      && Slot(tenant, key) !in db.refundKeys ==>
        f.id !in db.refunds && f.outboxId !in db.outbox
    case Settle(_) => true
    case ProcessOutbox => f.claim.Some? ==> Claimable(db, f.claim.value)
  }

  lemma AdmissibleFits(db: Db, op: Op, f: Fresh)
    requires Inv(db) && Admissible(db, op, f)
    requires op.ProcessOutbox? && f.claim.Some? ==> Claimable(db, f.claim.value)
    ensures IdsFit(db, op, f)
  {
    if !IdsFit(db, op, f) {
      FreeSlot(db, Slot(op.tenant, op.key));
      hide Inv, Exec, AddPayment, AddRefund, ValidPayment, ValidKey, Normal;
      hide CheckPayment, CheckHeadroom, Reserved, LedgerIdFresh, FindPayment, FindRefund;
      if op.CreatePayment? {
        PaymentAdded(db, op, f);
        PaymentInsertsChange(db, PaymentRowOf(op), f);
      } else {
        var c := CheckPayment(db, op.tenant, op.payment, op.amount);
        RefundAdded(db, op, f, c.amount, c.currency);
        RefundInsertsChange(db, RefundRowOf(op, c.amount, c.currency), f);
      }
    }
  }

  /** The ids collected so far are those of f. */
  predicate GenOk(op: Op, f: Fresh, pc: Pc)
  {
    match pc
    case PaymentInserted(g) => Alike(op, f, g)
    case PaymentLogged(g) => Alike(op, f, g)
    case PaymentReady(g) => Alike(op, f, g)
    case RefundInserted(_, _, _, g) => Alike(op, f, g)
    case RefundLogged(_, _, _, g) => Alike(op, f, g)
    case RefundReady(_, _, _, g) => Alike(op, f, g)
    case Claimed(g) => Alike(op, f, g)
    case Settling(_, _, g) => Alike(op, f, g)
    case Skipping(_, _, g) => Alike(op, f, g)
    case _ => true
  }

  /** t runs op alone, from the state s0, and f is all it ever gets. */
  ghost predicate Solo(s0: Sys, s: Sys, t: Tid, op: Op, f: Fresh)
  {
    && t in s.txs && s.txs[t].op == op && !s.txs[t].pc.Aborted?
    && (forall u | u in s.txs && u != t :: Finished(s.txs[u].pc))
    && if Decided(s.txs[t].pc).None?
       then s.db == s0.db && s.hist == s0.hist && GenOk(op, f, s.txs[t].pc)
       else |s.hist| == |s0.hist| + 1 && s.hist[..|s0.hist|] == s0.hist
            && s.hist[|s0.hist|].op == op && Alike(op, f, s.hist[|s0.hist|].gen)
  }

  /** All the locks there are belong to the one transaction that runs. */
  lemma SoloLocks(s0: Sys, s: Sys, t: Tid, op: Op, f: Fresh)
    requires HoldersOk(s) && Solo(s0, s, t, op, f)
    ensures forall l | l in s.locks :: s.locks[l] == t && MayHold(l, s.txs[t].pc)
    ensures forall l :: !Waits(s, t, l)
  {
    hide Needs;
    forall l | l in s.locks ensures s.locks[l] == t && MayHold(l, s.txs[t].pc) {
      assert MayHold(l, s.txs[s.locks[l]].pc);
    }
  }

  lemma PaymentSoloFits(s0: Sys, s: Sys, t: Tid, op: Op, f: Fresh)
    requires SysInv(s) && HoldersOk(s) && Solo(s0, s, t, op, f) && IdsFit(s0.db, op, f) && op.CreatePayment?
    ensures Fits(s, t, f)
  {
    hide SysInv, HoldersOk, Inv, ValidPayment, PaymentWrites;
    Knows(s, t);
    SoloLocks(s0, s, t, op, f);
  }

  lemma RefundSoloFits(s0: Sys, s: Sys, t: Tid, op: Op, f: Fresh)
    requires SysInv(s) && HoldersOk(s) && Solo(s0, s, t, op, f) && IdsFit(s0.db, op, f) && op.CreateRefund?
    ensures Fits(s, t, f)
  {
    hide SysInv, HoldersOk, Inv, ValidKey, RefundWrites, CheckPayment, CheckHeadroom, Reserved, LedgerIdFresh;
    Knows(s, t);
    SoloLocks(s0, s, t, op, f);
  }

  lemma SoloFits(s0: Sys, s: Sys, t: Tid, op: Op, f: Fresh)
    requires SysInv(s) && HoldersOk(s) && Solo(s0, s, t, op, f) && IdsFit(s0.db, op, f)
    ensures Fits(s, t, f)
  {
    match op
    case CreatePayment(_, _, _, _) => PaymentSoloFits(s0, s, t, op, f);
    case CreateRefund(_, _, _, _) => RefundSoloFits(s0, s, t, op, f);
    case Settle(_) =>
    case ProcessOutbox =>
      hide SysInv, HoldersOk;
      SoloLocks(s0, s, t, op, f);
  }

  lemma PaymentSolo(s0: Sys, s: Sys, t: Tid, op: Op, f: Fresh)
    requires Solo(s0, s, t, op, f) && Decided(s.txs[t].pc).None? && op.CreatePayment?
    ensures Solo(s0, PaymentStep(s, t, f), t, op, f)
  {
    hide ValidPayment, Normal, LedgerInsert, Apply, ReplayPayment, FindPayment, Release, PaymentRowOf, AcceptedRow;
  }

  lemma RefundSolo(s0: Sys, s: Sys, t: Tid, op: Op, f: Fresh)
    requires Solo(s0, s, t, op, f) && Decided(s.txs[t].pc).None? && op.CreateRefund?
    requires s.txs[t].pc.Begin? || s.txs[t].pc.RefundLocked? || s.txs[t].pc.RefundSummed? || s.txs[t].pc.RefundClash?
    ensures Solo(s0, RefundStep(s, t, f), t, op, f)
  {
    hide ValidKey, Normal, ReplayRefund, FindRefund, RefundRowOf, CheckHeadroom, Reserved, CheckPayment;
  }

  lemma RefundSoloWrites(s0: Sys, s: Sys, t: Tid, op: Op, f: Fresh)
    requires Solo(s0, s, t, op, f) && Decided(s.txs[t].pc).None? && op.CreateRefund?
    requires !(s.txs[t].pc.Begin? || s.txs[t].pc.RefundLocked? || s.txs[t].pc.RefundSummed? || s.txs[t].pc.RefundClash?)
    ensures Solo(s0, RefundStep(s, t, f), t, op, f)
  {
    hide LedgerInsert, Apply, Release, RefundRowOf, RequestedRow, RefundJob;
  }

  lemma SubjectSolo(s0: Sys, s: Sys, t: Tid, op: Op, f: Fresh, sub: Subject, g: Fresh)
    requires Solo(s0, s, t, op, f) && Decided(s.txs[t].pc).None? && Alike(op, f, g)
    ensures Solo(s0, LockSubject(s, t, sub, g), t, op, f)
  {
    hide Stuck, NeedsSettling, RowLocks;
  }

  lemma SettleSoloLocks(s0: Sys, s: Sys, t: Tid, op: Op, f: Fresh)
    requires Solo(s0, s, t, op, f) && (s.txs[t].pc.Begin? || s.txs[t].pc.Claimed?) && (op.Settle? || op.ProcessOutbox?)
    ensures Solo(s0, SettleStep(s, t, f), t, op, f)
  {
    hide LockSubject, Decode;
    if s.txs[t].pc.Begin? && op.Settle? {
      SubjectSolo(s0, s, t, op, f, op.subject, f.(claim := None));
    } else if s.txs[t].pc.Claimed? && s.txs[t].pc.gen.claim.Some? && s.txs[t].pc.gen.claim.value in s.db.outbox {
      var row := s.db.outbox[s.txs[t].pc.gen.claim.value];
      if Decode(row).Some? {
        SubjectSolo(s0, s, t, op, f, Decode(row).value, s.txs[t].pc.gen);
      }
    }
  }

  lemma SettleSolo(s0: Sys, s: Sys, t: Tid, op: Op, f: Fresh)
    requires Solo(s0, s, t, op, f) && Decided(s.txs[t].pc).None? && (op.Settle? || op.ProcessOutbox?)
    requires !s.txs[t].pc.Begin? && !s.txs[t].pc.Claimed?
    ensures Solo(s0, SettleStep(s, t, f), t, op, f)
  {
    hide LockSubject, LedgerInsert, Apply, Release, Decode, NeedsSettling, SettlementEntry, StatusWrite;
  }

  lemma SoloStep(s0: Sys, s: Sys, t: Tid, op: Op, f: Fresh)
    requires Solo(s0, s, t, op, f)
    ensures Solo(s0, Step(s, Advance(t, f)), t, op, f)
  {
    hide PaymentStep, RefundStep, SettleStep, Release;
    if Decided(s.txs[t].pc).None? {
      hide Solo;
      SoloOp(s0, s, t, op, f);
      match op
      case CreatePayment(_, _, _, _) => PaymentSolo(s0, s, t, op, f);
      case CreateRefund(_, _, _, _) =>
        if s.txs[t].pc.Begin? || s.txs[t].pc.RefundLocked? || s.txs[t].pc.RefundSummed? || s.txs[t].pc.RefundClash? {
          RefundSolo(s0, s, t, op, f);
        } else {
          RefundSoloWrites(s0, s, t, op, f);
        }
      case _ =>
        if s.txs[t].pc.Begin? || s.txs[t].pc.Claimed? {
          SettleSoloLocks(s0, s, t, op, f);
        } else {
          SettleSolo(s0, s, t, op, f);
        }
    } else if s.txs[t].pc.Done? {
      DoneStays(s, t, f);
    }
  }

  lemma SoloOp(s0: Sys, s: Sys, t: Tid, op: Op, f: Fresh)
    requires Solo(s0, s, t, op, f)
    ensures t in s.txs && s.txs[t].op == op
  {
  }

  lemma DoneStays(s: Sys, t: Tid, f: Fresh)
    requires t in s.txs && Finished(s.txs[t].pc)
    ensures Step(s, Advance(t, f)) == s
  {
    AdvanceForward(s, t, f);
  }

  lemma {:induction false} SoloFinish(s0: Sys, actions: seq<Action>, t: Tid, op: Op, f: Fresh) returns (more: seq<Action>)
    requires Solo(s0, Execute(actions), t, op, f) && IdsFit(s0.db, op, f)
    ensures Solo(s0, Execute(actions + more), t, op, f) && Finished(Execute(actions + more).txs[t].pc)
    decreases Rank(Execute(actions).txs[t].pc)
  {
    hide Step, SysInv, HoldersOk, IdsFit, Execute, Fits, Waits;
    var s := Execute(actions);
    if Finished(s.txs[t].pc) {
      more := [];
      assert actions + more == actions;
    } else {
      ExecuteOk(actions);
      ExecuteHolders(actions);
      SoloFits(s0, s, t, op, f);
      SoloLocks(s0, s, t, op, f);
      MoveOrWait(s, t, f);
      AdvanceForward(s, t, f);
      SoloStep(s0, s, t, op, f);
      ExecuteOne(actions, Advance(t, f));
      var rest := SoloFinish(s0, actions + [Advance(t, f)], t, op, f);
      more := [Advance(t, f)] + rest;
      assert actions + [Advance(t, f)] + rest == actions + more;
    }
  }

  /** With nobody else about, a call can be started and brought to its end. */
  lemma OneCallHappens(actions: seq<Action>, op: Op, f: Fresh) returns (more: seq<Action>)
    requires AllFinished(Execute(actions)) && IdsFit(Execute(actions).db, op, f)
    ensures var (s, s') := (Execute(actions), Execute(actions + more));
            && AllFinished(s') && |s'.hist| == |s.hist| + 1 && s'.hist[..|s.hist|] == s.hist
            && s'.hist[|s.hist|].op == op && Alike(op, f, s'.hist[|s.hist|].gen)
  {
    hide IdsFit, Execute, PaymentStep, RefundStep, SettleStep;
    var s := Execute(actions);
    var t := AboveAll(s.txs);
    ExecuteOne(actions, Start(t, op));
    var rest := SoloFinish(s, actions + [Start(t, op)], t, op, f);
    more := [Start(t, op)] + rest;
    assert actions + [Start(t, op)] + rest == actions + more;
  }

  // ---------- every serial run ----------

  /** A claim of a row that is not there to claim finds nothing, like no claim at all. */
  function Effective(db: Db, op: Op, f: Fresh): Fresh
  {
    if op.ProcessOutbox? && f.claim.Some? && !Claimable(db, f.claim.value) then f.(claim := None) else f
  }

  lemma EffectiveSame(db: Db, op: Op, f: Fresh)
    requires Inv(db) && Admissible(db, op, f)
    ensures Exec(db, op, Effective(db, op, f)) == Exec(db, op, f)
    ensures Admissible(db, op, Effective(db, op, f))
  {
    hide Inv, SettleSubject, Decode, SubjectIdFresh, LedgerIdFresh, Stuck;
  }

  lemma FitsElsewhere(db: Db, db': Db, op: Op, f: Fresh)
    requires SameTables(db, db') && IdsFit(db, op, f)
    ensures IdsFit(db', op, f)
  {
    hide SameLedger, ValidPayment, ValidKey, CheckHeadroom, SumAmounts, Normal;
    assert forall p :: RefundsOf(db, p) == RefundsOf(db', p) by {
      forall p ensures RefundsOf(db, p) == RefundsOf(db', p) {
      }
    }
    hide RefundsOf;
  }

  /** The history of s is this run: the same calls with the same answers, in the same order. */
  predicate Matches(hist: seq<Call>, calls: seq<Call>)
  {
    |hist| == |calls| && forall i :: 0 <= i < |calls| ==> hist[i].op == calls[i].op && hist[i].response == calls[i].response
  }

  /** The call at the end of a history was answered, and changed the tables, as executing it there does. */
  lemma LastCall(actions: seq<Action>, before: seq<Action>)
    requires var (s, s') := (Execute(before), Execute(actions));
             |s'.hist| == |s.hist| + 1 && s'.hist[..|s.hist|] == s.hist
    ensures var (s, s') := (Execute(before), Execute(actions));
            var c := s'.hist[|s.hist|];
            (s'.db, c.response) == Exec(s.db, c.op, c.gen)
  {
    ExecuteOk(actions);
    ExecuteOk(before);
    hide Execute, Exec, Admissible, Inv, AllTxOk, HistoryOwned, IdsBelow;
  }

  /**
   Every serial run happens. For any serial run of calls there is a schedule of statements that gives
   the same calls the same answers in the same order and leaves the same tables, up to ledger ids.
   */
  lemma {:induction false} EverySerialRunHappens(calls: seq<Call>) returns (actions: seq<Action>)
    requires Serial(EMPTY_DB, calls)
    ensures AllFinished(Execute(actions)) && Matches(Execute(actions).hist, calls)
    ensures SameTables(Run(EMPTY_DB, calls), Execute(actions).db)
  {
    if calls == [] {
      actions := [];
      assert Execute(actions) == INITIAL;
    } else {
      var n := |calls| - 1;
      var front := EverySerialRunHappens(calls[..n]);
      actions := OneMoreCall(front, calls);
    }
  }

  lemma OneMoreCall(front: seq<Action>, calls: seq<Call>) returns (actions: seq<Action>)
    requires Serial(EMPTY_DB, calls) && calls != []
    requires AllFinished(Execute(front)) && Matches(Execute(front).hist, calls[..|calls| - 1])
    requires SameTables(Run(EMPTY_DB, calls[..|calls| - 1]), Execute(front).db)
    ensures AllFinished(Execute(actions)) && Matches(Execute(actions).hist, calls)
    ensures SameTables(Run(EMPTY_DB, calls), Execute(actions).db)
  {
    hide Exec, Inv, Admissible, SameTables, IdsFit, Execute, AllFinished;
    var n := |calls| - 1;
    var db, op, f := Run(EMPTY_DB, calls[..n]), calls[n].op, Effective(Run(EMPTY_DB, calls[..n]), calls[n].op, calls[n].gen);
    EmptyInv();
    RunInv(EMPTY_DB, calls[..n]);
    EffectiveSame(db, op, calls[n].gen);
    AdmissibleFits(db, op, f);
    FitsElsewhere(db, Execute(front).db, op, f);
    var more := OneCallHappens(front, op, f);
    actions := front + more;
    LastCall(actions, front);
    var c := Execute(actions).hist[n];
    ExecSame(db, Execute(front).db, op, f, c.gen);
    assert Execute(actions).hist == Execute(front).hist + [c];
  }

  // ---------- so the counterexamples are interleavings too ----------

  lemma SameReserved(db: Db, db': Db, p: Uuid)
    requires SameTables(db, db')
    ensures Reserved(db, p) == Reserved(db', p)
  {
    hide SameLedger;
    assert RefundsOf(db, p) == RefundsOf(db', p);
  }

  /** No interleaving can refund more than the payment, for payments of this amount. */
  ghost predicate NeverOverRefundedInterleaved(amount: Int64)
  {
    forall actions, p | p in Execute(actions).db.payments ::
      Execute(actions).db.payments[p].amount == amount ==> Reserved(Execute(actions).db, p) <= amount
  }

  lemma SafeInterleavings(amount: Int64)
    requires 0 < amount <= MAX_SAFE_AMOUNT
    ensures NeverOverRefundedInterleaved(amount)
  {
    hide Execute, Inv, Reserved, Bounded;
    forall actions, p | p in Execute(actions).db.payments && Execute(actions).db.payments[p].amount == amount
      ensures Reserved(Execute(actions).db, p) <= amount
    {
      EveryInterleavingSafe(actions);
      RefundsBounded(Execute(actions).db, p);
    }
  }

  /** Conservation under every interleaving, aborts included, holds exactly for payments of at most 2^62 - 1 cents. */
  lemma InterleavingsConserveIffSafe(amount: Int64)
    requires 0 < amount
    ensures NeverOverRefundedInterleaved(amount) <==> amount <= MAX_SAFE_AMOUNT
  {
    hide Serial, Run, Execute, Reserved, Matches, AllFinished;
    if amount <= MAX_SAFE_AMOUNT {
      SafeInterleavings(amount);
    } else {
      var calls := OverRefundRun(amount);
      var actions := EverySerialRunHappens(calls);
      SameReserved(Run(EMPTY_DB, calls), Execute(actions).db, P);
    }
  }

  /** The retry of a full refund is refused in some interleaving, for every safe amount. */
  lemma FullRefundRetryRefusedInterleaved(amount: Int64) returns (actions: seq<Action>)
    requires 0 < amount <= MAX_SAFE_AMOUNT
    ensures var hist := Execute(actions).hist;
            && |hist| >= 2 && hist[|hist| - 1].op == hist[|hist| - 2].op
            && hist[|hist| - 2].response.RefundReply? && hist[|hist| - 2].response.created
            && hist[|hist| - 1].response == Failed(AmountExceeded)
  {
    hide Serial, Run, Execute, AllFinished, Exec, SameTables;
    var calls, op, f := FullRefundRetryRefused(amount);
    SerialAppend(EMPTY_DB, calls, op, f, Failed(AmountExceeded));
    actions := EverySerialRunHappens(calls + [Call(op, f, Failed(AmountExceeded))]);
  }
}
