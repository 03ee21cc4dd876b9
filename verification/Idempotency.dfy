/** Idempotency keys: payment creation refines a first-writer-wins map, and refund replays are characterised exactly. */
module Idempotency {
  import opened Types
  import opened Headroom
  import opened Text
  import opened Wording
  import opened Tables
  import opened Operations
  import opened Invariant
  import opened Runs
  import opened Growth

  // ---------- payments: the first writer wins ----------

  datatype Entry = Entry(id: Uuid, body: PaymentBody)
  type Book = map<Slot, Entry>

  datatype Verdict = Created(id: Uuid) | Replayed(id: Uuid) | Mismatched

  /** The abstract map: the first body written under a slot stays, and later bodies are compared with it. */
  function Submit(book: Book, slot: Slot, body: PaymentBody, id: Uuid): (Book, Verdict)
  {
    if slot !in book then (book[slot := Entry(id, body)], Created(id))
    else if book[slot].body == body then (book, Replayed(book[slot].id))
    else (book, Mismatched)
  }

  /** The book that the payments table stands for. */
  function BookOf(db: Db): Book
  {
    map s | s in db.paymentKeys && db.paymentKeys[s] in db.payments ::
      Entry(db.paymentKeys[s], db.payments[db.paymentKeys[s]].hash)
  }

  predicate Submission(op: Op) { op.CreatePayment? && ValidPayment(op.amount, op.currency, op.key) }

  function BodyOf(op: Op): PaymentBody
    requires op.CreatePayment?
  {
    PaymentBody(op.amount, Normal(op.currency))
  }

  /** Two creates ask for the same payment: the same amount, in currencies that differ in case and outer white space only. */
  ghost predicate SameSubmission(op: Op, other: Op)
    requires op.CreatePayment? && other.CreatePayment?
  {
    op.amount == other.amount && SameCurrency(op.currency, other.currency)
  }

  /** The fingerprints tell submissions apart exactly by what they ask for. */
  lemma SameBodies(op: Op, other: Op)
    requires op.CreatePayment? && other.CreatePayment?
    ensures BodyOf(op) == BodyOf(other) <==> SameSubmission(op, other)
  {
    NormalIdentifies(op.currency, other.currency);
  }

  /** What the caller sees for each verdict; the status is the stored one. */
  function Answer(db: Db, v: Verdict, body: PaymentBody): Response
    requires v.Replayed? ==> v.id in db.payments
  {
    match v
    case Created(id) => PaymentReply(id, body.amount, body.currency, Pending, true)
    case Replayed(id) => PaymentReply(id, body.amount, body.currency, db.payments[id].status, false)
    case Mismatched => Failed(IdempotencyMismatch)
  }

  lemma BookUnchanged(db: Db, db': Db)
    requires Inv(db) && Grows(db, db') && db'.paymentKeys == db.paymentKeys
    ensures BookOf(db') == BookOf(db)
  {
    hide RefundsOk, Explained, LedgerRowsOk, OutboxOk;
  }

  lemma BookAfterInsert(db: Db, row: Payment, f: Fresh)
    requires Inv(db) && PaymentSlot(row) !in db.paymentKeys && f.id !in db.payments
    ensures BookOf(AddPayment(db, row, f)) == BookOf(db)[PaymentSlot(row) := Entry(f.id, row.hash)]
  {
    hide RefundsOk, Explained, OutboxOk, GoodPayment, PaymentSlot, AddPayment, AcceptedRow, PaymentJob;
    AddPaymentShape(db, row, f);
    hide LedgerRowsOk;
    BookPut(db, AddPayment(db, row, f), PaymentSlot(row), row, f.id);
  }

  lemma BookPut(db: Db, db': Db, s: Slot, row: Payment, id: Uuid)
    requires forall k | k in db.paymentKeys :: db.paymentKeys[k] in db.payments
    requires id !in db.payments && db'.payments == db.payments[id := row] && db'.paymentKeys == db.paymentKeys[s := id]
    ensures BookOf(db') == BookOf(db)[s := Entry(id, row.hash)]
  {
  }

  /** One valid submission does to the tables, and answers, what the abstract map does. */
  lemma SubmissionRefines(db: Db, op: Op, f: Fresh)
    requires Inv(db) && Admissible(db, op, f) && Submission(op)
    ensures var (book, verdict) := Submit(BookOf(db), Slot(op.tenant, op.key), BodyOf(op), f.id);
            && BookOf(Exec(db, op, f).0) == book
            && (verdict.Replayed? ==> verdict.id in db.payments)
            && Exec(db, op, f).1 == Answer(db, verdict, BodyOf(op))
            && (!verdict.Created? ==> Exec(db, op, f).0 == db)
  {
    hide Inv, Normal, ValidPayment, AddPayment;
    NormalIdempotent(op.currency, op.amount);
    var row := NewPayment(op.tenant, op.key, op.amount, Normal(op.currency));
    FreeSlot(db, PaymentSlot(row));
    if FindPayment(db, PaymentSlot(row)).None? {
      if AddPayment(db, row, f) == db {
        PaymentInsertsChange(db, row, f);
      }
      BookAfterInsert(db, row, f);
    }
  }

  /** Every other call leaves the book alone. */
  lemma OtherCallsKeepBook(db: Db, op: Op, f: Fresh)
    requires Inv(db) && Admissible(db, op, f) && !Submission(op)
    ensures BookOf(Exec(db, op, f).0) == BookOf(db)
    ensures op.CreatePayment? ==> Exec(db, op, f) == (db, Failed(InvalidInput))
  {
    hide Inv, ValidPayment, Grows, Admissible, BookOf;
    ExecGrows(db, op, f);
    OtherCallsKeepKeys(db, op, f);
    hide Exec;
    BookUnchanged(db, Exec(db, op, f).0);
  }

  lemma OtherCallsKeepKeys(db: Db, op: Op, f: Fresh)
    requires !Submission(op)
    ensures Exec(db, op, f).0.paymentKeys == db.paymentKeys
    ensures op.CreatePayment? ==> Exec(db, op, f) == (db, Failed(InvalidInput))
  {
    hide ValidPayment, ValidKey, AppendLedger, Reserved, Normal;
    hide SettlePayment, SettleRefund, CheckPayment, CheckHeadroom, Stuck;
    match op
    case CreatePayment(_, _, _, _) =>
    case CreateRefund(tenant, p, key, amount) => RefundKeepsKeys(db, f);
    case Settle(s) => SettleKeepsKeys(db, s, f.ledgerId);
    case ProcessOutbox =>
      if f.claim.Some? && f.claim.value in db.outbox && Decode(db.outbox[f.claim.value]).Some? {
        SettleKeepsKeys(db, Decode(db.outbox[f.claim.value]).value, f.ledgerId);
      }
  }

  lemma RefundKeepsKeys(db: Db, f: Fresh)
    ensures forall other :: AddRefund(db, other, f).paymentKeys == db.paymentKeys
  {
    forall other ensures AddRefund(db, other, f).paymentKeys == db.paymentKeys {
      AppendTouchesLedger(InsertRefund(db, f.id, other), RequestedRow(f.ledgerId, f.id, other));
      hide AppendLedger;
    }
  }

  lemma SettleKeepsKeys(db: Db, s: Subject, ledgerId: nat)
    ensures SettleSubject(db, s, ledgerId).paymentKeys == db.paymentKeys
  {
    hide SettlePayment, SettleRefund;
    match s
    case ThePayment(p) => SettlePaymentWrites(db, p, ledgerId);
    case TheRefund(r) => SettleRefundWrites(db, r, ledgerId);
  }

  /** Feeding the submissions of a run, in order, to the abstract map. */
  function BookAfter(calls: seq<Call>): Book
  {
    if calls == [] then map[]
    else
      var n := |calls| - 1;
      var op := calls[n].op;
      if Submission(op)
      then Submit(BookAfter(calls[..n]), Slot(op.tenant, op.key), BodyOf(op), calls[n].gen.id).0
      else BookAfter(calls[..n])
  }

  /** Over every run, with refunds and settlements anywhere in between, the payments table is that map. */
  lemma {:induction false} RunRefinesBook(calls: seq<Call>)
    requires Serial(EMPTY_DB, calls)
    ensures BookOf(Run(EMPTY_DB, calls)) == BookAfter(calls)
  {
    if calls != [] {
      var n := |calls| - 1;
      RunRefinesBook(calls[..n]);
      EmptyInv();
      hide Inv, Exec, Admissible, Submission, BodyOf, BookOf, Submit;
      RunInv(EMPTY_DB, calls[..n]);
      var db := Run(EMPTY_DB, calls[..n]);
      if Submission(calls[n].op) {
        SubmissionRefines(db, calls[n].op, calls[n].gen);
      } else {
        OtherCallsKeepBook(db, calls[n].op, calls[n].gen);
      }
    }
  }

  lemma Prefixes(calls: seq<Call>, i: nat, j: nat)
    requires Serial(EMPTY_DB, calls) && i <= j < |calls|
    ensures Inv(Run(EMPTY_DB, calls[..i])) && Inv(Run(EMPTY_DB, calls[..j]))
    ensures Grows(Run(EMPTY_DB, calls[..i]), Run(EMPTY_DB, calls[..j]))
    ensures Admissible(Run(EMPTY_DB, calls[..j]), calls[j].op, calls[j].gen)
    ensures calls[j].response == Exec(Run(EMPTY_DB, calls[..j]), calls[j].op, calls[j].gen).1
    ensures Run(EMPTY_DB, calls[..j + 1]) == Exec(Run(EMPTY_DB, calls[..j]), calls[j].op, calls[j].gen).0
  {
    hide Inv, Grows, Exec, Admissible;
    EmptyInv();
    RunGrows(EMPTY_DB, calls, j + 1);
    assert calls[..j + 1][..j] == calls[..j];
    RunGrows(EMPTY_DB, calls, j);
    RunGrows(EMPTY_DB, calls[..j], i);
    assert calls[..j][..i] == calls[..i];
  }

  /**
   Two submissions under one slot, in any run. Whichever was answered with a payment first fixes the
   body: the later one gets the same id, and the stored amount and currency, when it asks for the same
   payment, and a mismatch otherwise; either way it creates nothing and changes nothing.
   */
  lemma FirstWriterWins(calls: seq<Call>, i: nat, j: nat)
    requires Serial(EMPTY_DB, calls) && i < j < |calls|
    requires Submission(calls[i].op) && Submission(calls[j].op) && calls[i].response.PaymentReply?
    requires Slot(calls[i].op.tenant, calls[i].op.key) == Slot(calls[j].op.tenant, calls[j].op.key)
    ensures SameSubmission(calls[i].op, calls[j].op) ==>
              && calls[j].response.PaymentReply? && !calls[j].response.created
              && calls[j].response.id == calls[i].response.id
              && calls[j].response.amount == calls[i].response.amount
              && calls[j].response.currency == calls[i].response.currency
              && StatusForward(calls[i].response.status, calls[j].response.status)
    ensures !SameSubmission(calls[i].op, calls[j].op) ==> calls[j].response == Failed(IdempotencyMismatch)
    ensures Run(EMPTY_DB, calls[..j + 1]) == Run(EMPTY_DB, calls[..j])
  {
    hide Inv, Serial, Run, Exec, Admissible, ValidPayment, BodyOf, SameSubmission;
    SameBodies(calls[i].op, calls[j].op);
    var db, db' := Run(EMPTY_DB, calls[..i]), Run(EMPTY_DB, calls[..j]);
    Prefixes(calls, i, i);
    Prefixes(calls, i + 1, j);
    Prefixes(calls, i + 1, i + 1);
    ReplyFixesEntry(db, calls[i].op, calls[i].gen);
    EntryStays(Run(EMPTY_DB, calls[..i + 1]), db', Slot(calls[i].op.tenant, calls[i].op.key));
    SubmissionRefines(db', calls[j].op, calls[j].gen);
  }

  /** A submission answered with a payment leaves that payment and its body in the book. */
  lemma ReplyFixesEntry(db: Db, op: Op, f: Fresh)
    requires Inv(db) && Admissible(db, op, f) && Submission(op) && Exec(db, op, f).1.PaymentReply?
    ensures var (db', r) := Exec(db, op, f);
            var s := Slot(op.tenant, op.key);
            && s in BookOf(db') && BookOf(db')[s] == Entry(r.id, BodyOf(op))
            && r.amount == BodyOf(op).amount && r.currency == BodyOf(op).currency
            && r.id in db'.payments && StatusForward(r.status, db'.payments[r.id].status)
  {
    hide Exec, Inv, Admissible, ValidPayment, BodyOf, BookOf;
    SubmissionRefines(db, op, f);
    BookEntry(Exec(db, op, f).0, Slot(op.tenant, op.key));
  }

  lemma BookEntry(db: Db, s: Slot)
    requires s in BookOf(db)
    ensures BookOf(db)[s].id in db.payments
  {
  }

  lemma EntryStays(db: Db, db': Db, s: Slot)
    requires Grows(db, db') && s in BookOf(db)
    ensures s in BookOf(db') && BookOf(db')[s] == BookOf(db)[s]
    ensures BookOf(db)[s].id in db.payments && BookOf(db)[s].id in db'.payments
    ensures StatusForward(db.payments[BookOf(db)[s].id].status, db'.payments[BookOf(db)[s].id].status)
  {
  }

  /** The unique index at work: however many calls race, one slot never holds two payments. */
  lemma OnePaymentPerSlot(db: Db, p: Uuid, q: Uuid)
    requires Inv(db) && p in db.payments && q in db.payments && PaymentSlot(db.payments[p]) == PaymentSlot(db.payments[q])
    ensures p == q
  {
  }

  // ---------- refunds: what a replay gets ----------

  /** Re-issuing the intent of a stored refund: same slot, same payment, same effective amount. */
  predicate SameIntent(db: Db, r: Uuid, op: Op)
  {
    && r in db.refunds && db.refunds[r].payment in db.payments && op.CreateRefund? && ValidKey(op.key)
    && Slot(op.tenant, op.key) == RefundSlot(db.refunds[r]) && op.payment == db.refunds[r].payment
    && (if op.amount == 0 then db.payments[op.payment].amount else op.amount) == db.refunds[r].amount
  }

  ghost function HeadroomFor(db: Db, r: Uuid): Option<Error>
    requires r in db.refunds && db.refunds[r].payment in db.payments
  {
    CheckHeadroom(Reserved(db, db.refunds[r].payment), db.refunds[r].amount, db.payments[db.refunds[r].payment].amount)
  }

  /** A replay never writes, and returns the original refund exactly while a second one would still fit. */
  lemma RefundReplay(db: Db, r: Uuid, op: Op, f: Fresh)
    requires Inv(db) && SameIntent(db, r, op)
    ensures Exec(db, op, f).0 == db
    ensures Exec(db, op, f).1 ==
              match HeadroomFor(db, r)
              case Some(error) => Failed(error)
              case None => RefundReply(r, op.payment, db.refunds[r].amount, db.refunds[r].currency, db.refunds[r].status, false)
  {
    RefundParent(db, r);
    StoredRefund(db, r);
    hide Inv, Reserved, ValidKey, Normal, Exec;
    StoredNormal(db, op.payment);
    ReplayUnfolds(db, r, op, f);
  }

  lemma ReplayUnfolds(db: Db, r: Uuid, op: Op, f: Fresh)
    requires SameIntent(db, r, op) && GoodRefund(db.refunds[r], db.payments[op.payment])
    requires FindRefund(db, RefundSlot(db.refunds[r])) == Some(r)
    requires Normal(db.payments[op.payment].currency) == db.refunds[r].currency
    ensures Exec(db, op, f) == (db,
              match HeadroomFor(db, r)
              case Some(error) => Failed(error)
              case None => RefundReply(r, op.payment, db.refunds[r].amount, db.refunds[r].currency, db.refunds[r].status, false))
  {
    hide Reserved, ValidKey, Normal, AddRefund;
  }

  lemma StoredRefund(db: Db, r: Uuid)
    requires Inv(db) && r in db.refunds
    ensures FindRefund(db, RefundSlot(db.refunds[r])) == Some(r)
    ensures Normal(db.refunds[r].currency) == db.refunds[r].currency
  {
    RefundParent(db, r);
    hide Normal, Explained, LedgerRowsOk, OutboxOk;
  }

  /** For a payment of at most 2^62 - 1 cents the replay succeeds iff the exact balance has room for the amount again. */
  lemma RefundReplaySafe(db: Db, r: Uuid, op: Op, f: Fresh)
    requires Inv(db) && SameIntent(db, r, op) && db.payments[op.payment].amount <= MAX_SAFE_AMOUNT
    ensures Exec(db, op, f).1.RefundReply?
            <==> Reserved(db, op.payment) + db.refunds[r].amount <= db.payments[op.payment].amount
    ensures !Exec(db, op, f).1.RefundReply? ==> Exec(db, op, f).1 == Failed(AmountExceeded)
  {
    hide Inv, RefundsOk, Reserved, Exec, Normal, ValidKey, CheckHeadroom;
    RefundReplay(db, r, op, f);
    Parent(db, r);
    RefundsBounded(db, op.payment);
    HeadroomWhenSafe(Reserved(db, op.payment), db.refunds[r].amount, db.payments[op.payment].amount);
  }

  lemma Parent(db: Db, r: Uuid)
    requires Inv(db) && r in db.refunds
    ensures db.refunds[r].payment in db.payments && GoodRefund(db.refunds[r], db.payments[db.refunds[r].payment])
    ensures 0 <= Reserved(db, db.refunds[r].payment)
  {
    RefundParent(db, r);
    hide Inv, Reserved;
    NonNegativeReserved(db, db.refunds[r].payment);
  }

  lemma HeadroomWhenSafe(reserved: int, amount: Int64, total: Int64)
    requires 0 <= reserved <= total <= MAX_SAFE_AMOUNT && 0 < amount <= total
    ensures CheckHeadroom(reserved, amount, total)
            == if ReallyExceeds(reserved, amount, total) then Some(AmountExceeded) else None
  {
    ExactIffSafeAmount(total);
  }

  lemma HeadroomLater(reserved: int, reserved': int, amount: Int64, total: Int64)
    requires 0 <= reserved <= reserved' && 0 < amount <= total
    requires CheckHeadroom(reserved, amount, total) == Some(AmountExceeded)
    ensures CheckHeadroom(reserved', amount, total) == Some(AmountExceeded) <==> reserved' + amount <= MAX_INT64
  {
    ExactIffNoWrap(reserved, amount, total);
  }

  /**
   After one "exceeded" answer the same intent is answered "exceeded" at a later point of the run
   exactly while the balance plus the amount still fits in int64.
   */
  lemma ExceededUntilWrap(db: Db, db': Db, r: Uuid)
    requires Inv(db) && Inv(db') && Grows(db, db') && r in db.refunds && db.refunds[r].payment in db.payments
    requires HeadroomFor(db, r) == Some(AmountExceeded)
    ensures r in db'.refunds && db'.refunds[r].payment in db'.payments
    ensures HeadroomFor(db', r) == Some(AmountExceeded)
            <==> Reserved(db', db.refunds[r].payment) + db.refunds[r].amount <= MAX_INT64
  {
    hide Inv, Reserved, KeysGrow, OutboxGrows, CheckHeadroom;
    var p := db.refunds[r].payment;
    ReservedGrows(db, db', p);
    Parent(db, r);
    HeadroomLater(Reserved(db, p), Reserved(db', p), db.refunds[r].amount, db.payments[p].amount);
  }

  lemma NonNegativeReserved(db: Db, p: Uuid)
    requires Inv(db)
    ensures 0 <= Reserved(db, p)
  {
    RefundsPositive(db, p);
    SumNonNegative(RefundsOf(db, p));
  }

  /** For safe amounts "exceeded" is for ever. */
  lemma ExceededForEver(db: Db, db': Db, r: Uuid)
    requires Inv(db) && Inv(db') && Grows(db, db') && r in db.refunds && db.refunds[r].payment in db.payments
    requires HeadroomFor(db, r) == Some(AmountExceeded) && db.payments[db.refunds[r].payment].amount <= MAX_SAFE_AMOUNT
    ensures r in db'.refunds && db'.refunds[r].payment in db'.payments && HeadroomFor(db', r) == Some(AmountExceeded)
  {
    hide Inv, Reserved, KeysGrow, OutboxGrows, CheckHeadroom;
    var p := db.refunds[r].payment;
    ExceededUntilWrap(db, db', r);
    RefundsBounded(db', p);
    Parent(db, r);
  }

  /** A key that is already used never creates a second refund, whatever payment or amount comes with it. */
  lemma UsedKeyCreatesNothing(db: Db, op: Op, f: Fresh)
    requires Inv(db) && op.CreateRefund? && Slot(op.tenant, op.key) in db.refundKeys
    ensures Exec(db, op, f).0 == db
    ensures Exec(db, op, f).1.RefundReply? ==>
              && !Exec(db, op, f).1.created && Exec(db, op, f).1.id == db.refundKeys[Slot(op.tenant, op.key)]
              && SameIntent(db, Exec(db, op, f).1.id, op)
  {
    hide Inv, Reserved, ValidKey, Normal;
    FreeSlot(db, Slot(op.tenant, op.key));
    var r := db.refundKeys[Slot(op.tenant, op.key)];
    UsedSlot(db, Slot(op.tenant, op.key));
  }

  /** The checks a create makes before it looks for its key all pass. */
  ghost predicate ChecksPass(db: Db, op: Op)
    requires op.CreateRefund?
  {
    var c := CheckPayment(db, op.tenant, op.payment, op.amount);
    c.Admit? && CheckHeadroom(Reserved(db, op.payment), c.amount, db.payments[op.payment].amount).None?
  }

  /**
   The idempotency contract promises a conflict when a used key comes with another payment or amount.
   It comes exactly when the payment and the balance would have admitted the request; otherwise the
   caller gets the refusal of the first check that fails, and the key is never looked at.
   */
  lemma MismatchIffChecksPass(db: Db, op: Op, f: Fresh)
    requires Inv(db) && op.CreateRefund? && ValidKey(op.key) && Slot(op.tenant, op.key) in db.refundKeys
    requires !SameIntent(db, db.refundKeys[Slot(op.tenant, op.key)], op)
    ensures Exec(db, op, f).1 == Failed(IdempotencyMismatch) <==> ChecksPass(db, op)
    ensures Exec(db, op, f).1.Failed? && Exec(db, op, f).0 == db
  {
    hide Inv, Reserved, ValidKey, Normal;
    FreeSlot(db, Slot(op.tenant, op.key));
    UsedSlot(db, Slot(op.tenant, op.key));
  }

  lemma UsedSlot(db: Db, s: Slot)
    requires Inv(db) && s in db.refundKeys
    ensures var r := db.refundKeys[s];
            && r in db.refunds && RefundSlot(db.refunds[r]) == s
            && db.refunds[r].payment in db.payments && GoodRefund(db.refunds[r], db.payments[db.refunds[r].payment])
  {
  }

  /** A refund created at one point of a run, and the same intent issued at any later point. */
  lemma RefundReplayInRun(calls: seq<Call>, i: nat, j: nat)
    requires Serial(EMPTY_DB, calls) && i < j < |calls|
    requires calls[i].op.CreateRefund? && calls[i].response.RefundReply? && calls[j].op.CreateRefund?
    requires calls[j].op.tenant == calls[i].op.tenant && calls[j].op.key == calls[i].op.key
    requires calls[j].op.payment == calls[i].op.payment
    ensures var db := Run(EMPTY_DB, calls[..j]);
            && Run(EMPTY_DB, calls[..j + 1]) == db
            && calls[i].response.id in db.refunds && calls[i].op.payment in db.payments
            && db.refunds[calls[i].response.id].payment == calls[i].op.payment
            && ((if calls[j].op.amount == 0 then db.payments[calls[i].op.payment].amount else calls[j].op.amount)
                == calls[i].response.amount ==>
                  if HeadroomFor(db, calls[i].response.id).None?
                  then calls[j].response == calls[i].response.(
                         status := db.refunds[calls[i].response.id].status, created := false)
                  else calls[j].response == Failed(HeadroomFor(db, calls[i].response.id).value))
  {
    hide Inv, Serial, Run, Exec, Admissible, ValidKey, HeadroomFor, OutboxGrows;
    var op, f := calls[i].op, calls[i].gen;
    Prefixes(calls, i, i);
    Prefixes(calls, i + 1, j);
    Prefixes(calls, i + 1, i + 1);
    RefundReplyStored(Run(EMPTY_DB, calls[..i]), op, f);
    var db := Run(EMPTY_DB, calls[..j]);
    var r := calls[i].response.id;
    UsedKeyCreatesNothing(db, calls[j].op, calls[j].gen);
    if (if calls[j].op.amount == 0 then db.payments[op.payment].amount else calls[j].op.amount) == calls[i].response.amount {
      RefundReplay(db, r, calls[j].op, calls[j].gen);
    }
  }

  /** A refund reply describes a stored refund of the named payment under the caller's key. */
  lemma RefundReplyStored(db: Db, op: Op, f: Fresh)
    requires Inv(db) && Admissible(db, op, f) && op.CreateRefund? && Exec(db, op, f).1.RefundReply?
    ensures var (db', r) := Exec(db, op, f);
            && ValidKey(op.key) && r.id in db'.refunds && op.payment in db'.payments && r.payment == op.payment
            && db'.refunds[r.id].payment == op.payment && RefundSlot(db'.refunds[r.id]) == Slot(op.tenant, op.key)
            && db'.refunds[r.id].amount == r.amount && db'.refunds[r.id].currency == r.currency
            && Slot(op.tenant, op.key) in db'.refundKeys
  {
    hide Inv, Reserved, ValidKey, Normal, HasKey;
    FreeSlot(db, Slot(op.tenant, op.key));
    if Slot(op.tenant, op.key) in db.refundKeys {
      UsedSlot(db, Slot(op.tenant, op.key));
      StoredRefund(db, db.refundKeys[Slot(op.tenant, op.key)]);
      StoredNormal(db, op.payment);
    }
  }
}
