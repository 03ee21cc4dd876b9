/**
 The same calls as transactions of single SQL statements that interleave freely.

 Isolation is READ COMMITTED: a statement sees the committed tables plus its own transaction's
 writes. Row locks (FOR UPDATE, SKIP LOCKED), and the wait on a unique-index entry that another
 transaction has inserted but not committed, are entries of one lock table. A step that would have
 to wait leaves the system unchanged. Any transaction may abort between any two statements.
 */
module Statements {
  import opened Types
  import opened Text
  import opened Tables
  import opened Operations

  type Tid = nat

  datatype Lock =
    | PaymentLock(payment: Uuid)
    | RefundLock(refund: Uuid)
    | OutboxLock(row: Uuid)
    | PaymentSlotLock(slot: Slot)
    | RefundSlotLock(slot: Slot)

  /** A row-level write that waits for commit. */
  datatype Write =
    | PutPayment(id: Uuid, payment: Payment)
    | PutRefund(id: Uuid, refund: Refund)
    | PutLedger(entry: LedgerRow)
    | PutOutbox(id: Uuid, row: OutboxRow)
    | PaymentDone(id: Uuid)
    | RefundDone(id: Uuid, parent: Uuid)
    | JobDone(id: Uuid)

  datatype Buffer = Nothing | Then(rest: Buffer, last: Write)

  function ApplyWrite(db: Db, w: Write): Db
  {
    match w
    case PutPayment(id, row) => if id in db.payments then db else InsertPayment(db, id, row)
    case PutRefund(id, row) => if id in db.refunds then db else InsertRefund(db, id, row)
    case PutLedger(entry) => db.(ledger := db.ledger + [entry])
    case PutOutbox(id, row) => InsertOutbox(db, id, row)
    case PaymentDone(p) => MarkPayment(db, p)
    case RefundDone(r, p) => if r in db.refunds && db.refunds[r].payment == p then MarkRefund(db, r) else db
    case JobDone(o) => MarkProcessed(db, o)
  }

  /** The committed tables as this transaction sees them. */
  function Apply(db: Db, buffer: Buffer): Db
  {
    match buffer
    case Nothing => db
    case Then(rest, w) => ApplyWrite(Apply(db, rest), w)
  }

  datatype Stage = Locked | Logged | Updated | Marked

  /** Where a transaction is, with its local variables; gen collects the ids generated so far. */
  datatype Pc =
    | Begin
    | PaymentClash
    | PaymentInserted(gen: Fresh)
    | PaymentLogged(gen: Fresh)
    | PaymentReady(gen: Fresh)
    | RefundLocked(amount: Int64, currency: string)
    | RefundSummed(amount: Int64, currency: string, reserved: int)
    | RefundClash(amount: Int64, currency: string, reserved: int)
    | RefundInserted(amount: Int64, currency: string, reserved: int, gen: Fresh)
    | RefundLogged(amount: Int64, currency: string, reserved: int, gen: Fresh)
    | RefundReady(amount: Int64, currency: string, reserved: int, gen: Fresh)
    | Claimed(gen: Fresh)
    | Settling(subject: Subject, stage: Stage, gen: Fresh)
    | Skipping(subject: Subject, marked: bool, gen: Fresh)
    | Answered(response: Response, at: nat)                  // decided by a read; nothing to write
    | Done(response: Response, at: nat, delivered: bool)     // delivered is false if the connection died first
    | Aborted

  datatype Tx = Tx(op: Op, pc: Pc, buffer: Buffer)

  /** hist and owners record each call, and its transaction, at the statement that decides it. */
  datatype Sys = Sys(
    db: Db, txs: map<Tid, Tx>, locks: map<Lock, Tid>, next: nat, hist: seq<Call>, owners: seq<Tid>)

  const INITIAL := Sys(EMPTY_DB, map[], map[], 1, [], [])

  // ---------- building blocks of a step ----------

  predicate Free(s: Sys, l: Lock, t: Tid) { l !in s.locks || s.locks[l] == t }

  predicate Unlocked(s: Sys, l: Lock) { l !in s.locks }

  function Goto(s: Sys, t: Tid, pc: Pc, buffer: Buffer): Sys
    requires t in s.txs
  {
    s.(txs := s.txs[t := Tx(s.txs[t].op, pc, buffer)])
  }

  function Take(s: Sys, t: Tid, ls: set<Lock>): Sys
  {
    s.(locks := s.locks + map l | l in ls :: t)
  }

  function Release(locks: map<Lock, Tid>, t: Tid): map<Lock, Tid>
  {
    map l | l in locks && locks[l] != t :: locks[l]
  }

  /** The answer is fixed here; locks stay until the transaction ends. */
  function Answer(s: Sys, t: Tid, f: Fresh, r: Response): Sys
    requires t in s.txs
  {
    s.(txs := s.txs[t := Tx(s.txs[t].op, Answered(r, |s.hist|), Nothing)],
       hist := s.hist + [Call(s.txs[t].op, f, r)], owners := s.owners + [t])
  }

  /** COMMIT: the writes become visible at once and the locks go. */
  function Commit(s: Sys, t: Tid, f: Fresh, r: Response): Sys
    requires t in s.txs
  {
    s.(db := Apply(s.db, s.txs[t].buffer),
       txs := s.txs[t := Tx(s.txs[t].op, Done(r, |s.hist|, true), Nothing)],
       locks := Release(s.locks, t),
       hist := s.hist + [Call(s.txs[t].op, f, r)], owners := s.owners + [t])
  }

  /** INSERT INTO ledger_events ... ON CONFLICT DO NOTHING; nextval is consumed either way. */
  function LedgerInsert(s: Sys, buffer: Buffer, entry: LedgerRow): Buffer
  {
    if HasKey(Apply(s.db, buffer).ledger, entry.payment, entry.dedupe) then buffer else Then(buffer, PutLedger(entry))
  }

  // ---------- CreatePayment ----------

  function PaymentStep(s: Sys, t: Tid, f: Fresh): Sys
    requires t in s.txs && s.txs[t].op.CreatePayment?
  {
    var tx := s.txs[t];
    var row := PaymentRowOf(tx.op);
    var slot := PaymentSlot(row);
    match tx.pc
    case Begin =>
      if !ValidPayment(tx.op.amount, tx.op.currency, tx.op.key) then Answer(s, t, f, Failed(InvalidInput))
      else if slot in s.db.paymentKeys then Goto(s, t, PaymentClash, Nothing)
      else if !Free(s, PaymentSlotLock(slot), t) then s
      else if f.id in s.db.payments || !Unlocked(s, PaymentLock(f.id)) then s
      else
        Goto(Take(s, t, {PaymentSlotLock(slot), PaymentLock(f.id)}), t,
             PaymentInserted(f), Then(Nothing, PutPayment(f.id, row)))
    case PaymentClash =>
      if FindPayment(s.db, slot).None? then s
      else Answer(s, t, f, ReplayPayment(s.db, FindPayment(s.db, slot).value, row))
    case PaymentInserted(g) =>
      var h := g.(ledgerId := s.next);
      Goto(s.(next := s.next + 1), t, PaymentLogged(h), LedgerInsert(s, tx.buffer, AcceptedRow(h.ledgerId, h.id, row)))
    case PaymentLogged(g) =>
      if f.outboxId in s.db.outbox || !Unlocked(s, OutboxLock(f.outboxId)) then s
      else
        var h := g.(outboxId := f.outboxId, createdAt := f.createdAt);
        Goto(Take(s, t, {OutboxLock(h.outboxId)}), t, PaymentReady(h),
             Then(tx.buffer, PutOutbox(h.outboxId, PaymentJob(h.id, h.createdAt))))
    case PaymentReady(g) => Commit(s, t, g, PaymentReply(g.id, row.amount, row.currency, Pending, true))
    case _ => s
  }

  // ---------- CreateRefund ----------

  ghost function RefundStep(s: Sys, t: Tid, f: Fresh): Sys
    requires t in s.txs && s.txs[t].op.CreateRefund?
  {
    var tx := s.txs[t];
    var p := tx.op.payment;
    match tx.pc
    case Begin =>
      if !ValidKey(tx.op.key) then Answer(s, t, f, Failed(InvalidInput))
      else if p in s.db.payments && !Free(s, PaymentLock(p), t) then s
      else
        (match CheckPayment(s.db, tx.op.tenant, p, tx.op.amount)
         case Refuse(error) => Answer(s, t, f, Failed(error))
         case Admit(amount, currency) => Goto(Take(s, t, {PaymentLock(p)}), t, RefundLocked(amount, currency), Nothing))
    case RefundLocked(amount, currency) =>
      if p !in s.db.payments then s
      else
        (match CheckHeadroom(Reserved(s.db, p), amount, s.db.payments[p].amount)
         case Some(error) => Answer(s, t, f, Failed(error))
         case None => Goto(s, t, RefundSummed(amount, currency, Reserved(s.db, p)), Nothing))
    case RefundSummed(amount, currency, reserved) =>
      var row := RefundRowOf(tx.op, amount, currency);
      if RefundSlot(row) in s.db.refundKeys then Goto(s, t, RefundClash(amount, currency, reserved), Nothing)
      else if !Free(s, RefundSlotLock(RefundSlot(row)), t) then s
      else if f.id in s.db.refunds || !Unlocked(s, RefundLock(f.id)) then s
      else
        Goto(Take(s, t, {RefundSlotLock(RefundSlot(row)), RefundLock(f.id)}), t,
             RefundInserted(amount, currency, reserved, f), Then(Nothing, PutRefund(f.id, row)))
    case RefundClash(amount, currency, reserved) =>
      var row := RefundRowOf(tx.op, amount, currency);
      if FindRefund(s.db, RefundSlot(row)).None? then s
      else Answer(s, t, f, ReplayRefund(s.db, FindRefund(s.db, RefundSlot(row)).value, row))
    case RefundInserted(amount, currency, reserved, g) =>
      var row := RefundRowOf(tx.op, amount, currency);
      var h := g.(ledgerId := s.next);
      Goto(s.(next := s.next + 1), t, RefundLogged(amount, currency, reserved, h),
           LedgerInsert(s, tx.buffer, RequestedRow(h.ledgerId, h.id, row)))
    case RefundLogged(amount, currency, reserved, g) =>
      if f.outboxId in s.db.outbox || !Unlocked(s, OutboxLock(f.outboxId)) then s
      else
        var h := g.(outboxId := f.outboxId, createdAt := f.createdAt);
        Goto(Take(s, t, {OutboxLock(h.outboxId)}), t, RefundReady(amount, currency, reserved, h),
             Then(tx.buffer, PutOutbox(h.outboxId, RefundJob(h.id, h.createdAt))))
    case RefundReady(amount, currency, reserved, g) =>
      Commit(s, t, g, RefundReply(g.id, p, amount, currency, Pending, true))
    case _ => s
  }

  // ---------- settlement, by a broker job or by a claimed outbox row ----------

  /** The rows SELECT ... FOR UPDATE returns for a subject. */
  function RowLocks(db: Db, sub: Subject): set<Lock>
  {
    match sub
    case ThePayment(p) => if p in db.payments then {PaymentLock(p)} else {}
    case TheRefund(r) =>
      if r in db.refunds && db.refunds[r].payment in db.payments
      then {RefundLock(r), PaymentLock(db.refunds[r].payment)} else {}
  }

  /** SettleMockTx goes on to write exactly when it finds the subject pending. */
  predicate NeedsSettling(db: Db, sub: Subject)
  {
    match sub
    case ThePayment(p) => p in db.payments && db.payments[p].status.Pending?
    case TheRefund(r) => r in db.refunds && db.refunds[r].payment in db.payments && db.refunds[r].status.Pending?
  }

  function SettlementEntry(db: Db, sub: Subject, ledgerId: nat): LedgerRow
    requires NeedsSettling(db, sub)
  {
    match sub
    case ThePayment(p) => SettledRow(ledgerId, db.payments[p].tenant, p)
    case TheRefund(r) => RefundedRow(ledgerId, r, db.refunds[r])
  }

  function StatusWrite(db: Db, sub: Subject): Write
    requires NeedsSettling(db, sub)
  {
    match sub
    case ThePayment(p) => PaymentDone(p)
    case TheRefund(r) => RefundDone(r, db.refunds[r].payment)
  }

  function LockSubject(s: Sys, t: Tid, sub: Subject, g: Fresh): Sys
    requires t in s.txs
  {
    if exists l :: l in RowLocks(s.db, sub) && !Free(s, l, t) then s
    else if Stuck(s.db, sub) then Answer(s, t, g, Failed(PoisonRow))
    else if NeedsSettling(s.db, sub) then Goto(Take(s, t, RowLocks(s.db, sub)), t, Settling(sub, Locked, g), Nothing)
    else if g.claim.Some? then Goto(Take(s, t, RowLocks(s.db, sub)), t, Skipping(sub, false, g), Nothing)
    else Answer(s, t, g, Settled)
  }

  function SettleStep(s: Sys, t: Tid, f: Fresh): Sys
    requires t in s.txs && (s.txs[t].op.Settle? || s.txs[t].op.ProcessOutbox?)
  {
    var tx := s.txs[t];
    match tx.pc
    case Begin =>
      if tx.op.Settle? then LockSubject(s, t, tx.op.subject, f.(claim := None))
      else if f.claim.None? then Answer(s, t, f, Idle)
      else if !Claimable(s.db, f.claim.value) || !Unlocked(s, OutboxLock(f.claim.value)) then s
      else Goto(Take(s, t, {OutboxLock(f.claim.value)}), t, Claimed(f), Nothing)
    case Claimed(g) =>
      if g.claim.None? || g.claim.value !in s.db.outbox then s
      else
        (match Decode(s.db.outbox[g.claim.value])
         case None => Answer(s, t, g, Failed(PoisonRow))
         case Some(sub) => LockSubject(s, t, sub, g))
    case Settling(sub, stage, g) =>
      if !NeedsSettling(s.db, sub) then s
      else
        (match stage
         case Locked =>
           var h := g.(ledgerId := s.next);
           Goto(s.(next := s.next + 1), t, Settling(sub, Logged, h),
                LedgerInsert(s, tx.buffer, SettlementEntry(s.db, sub, h.ledgerId)))
         case Logged => Goto(s, t, Settling(sub, Updated, g), Then(tx.buffer, StatusWrite(s.db, sub)))
         case Updated =>
           if g.claim.None? then Commit(s, t, g, Settled)
           else Goto(s, t, Settling(sub, Marked, g), Then(tx.buffer, JobDone(g.claim.value)))
         case Marked => Commit(s, t, g, Followup(sub)))
    case Skipping(sub, marked, g) =>
      if g.claim.None? then s
      else if !marked then Goto(s, t, Skipping(sub, true, g), Then(tx.buffer, JobDone(g.claim.value)))
      else Commit(s, t, g, Followup(sub))
    case _ => s
  }

  // ---------- the whole system ----------

  datatype Action = Start(t: Tid, op: Op) | Advance(t: Tid, gen: Fresh) | Abort(t: Tid)

  ghost function Step(s: Sys, a: Action): Sys
  {
    match a
    case Start(t, op) => if t in s.txs then s else s.(txs := s.txs[t := Tx(op, Begin, Nothing)])
    case Advance(t, f) =>
      if t !in s.txs then s
      else if s.txs[t].pc.Answered? then
        Goto(s, t, Done(s.txs[t].pc.response, s.txs[t].pc.at, true), Nothing).(locks := Release(s.locks, t))
      else
        (match s.txs[t].op
         case CreatePayment(_, _, _, _) => PaymentStep(s, t, f)
         case CreateRefund(_, _, _, _) => RefundStep(s, t, f)
         case _ => SettleStep(s, t, f))
    case Abort(t) =>
      if t !in s.txs || s.txs[t].pc.Done? then s
      else if s.txs[t].pc.Answered? then
        Goto(s, t, Done(s.txs[t].pc.response, s.txs[t].pc.at, false), Nothing).(locks := Release(s.locks, t))
      else Goto(s, t, Aborted, Nothing).(locks := Release(s.locks, t))
  }

  ghost function Execute(actions: seq<Action>): Sys
  {
    if actions == [] then INITIAL else Step(Execute(actions[..|actions| - 1]), actions[|actions| - 1])
  }
}
