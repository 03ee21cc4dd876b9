/** The promises about money, stated over every serial run from empty tables. */
module Guarantees {
  import opened Types
  import opened Headroom
  import opened Text
  import opened Tables
  import opened History
  import opened Operations
  import opened Invariant
  import opened Runs
  import opened Cases
  import opened Growth

  // ---------- conservation, and exactly when ----------

  /** No run can refund more than the payment, for payments of this amount. */
  ghost predicate NeverOverRefunded(amount: Int64)
  {
    forall calls, p | Serial(EMPTY_DB, calls) && p in Run(EMPTY_DB, calls).payments ::
      Run(EMPTY_DB, calls).payments[p].amount == amount ==> Reserved(Run(EMPTY_DB, calls), p) <= amount
  }

  lemma SafeAmountsConserved(amount: Int64)
    requires 0 < amount <= MAX_SAFE_AMOUNT
    ensures NeverOverRefunded(amount)
  {
    forall calls, p | Serial(EMPTY_DB, calls) && p in Run(EMPTY_DB, calls).payments
      ensures Run(EMPTY_DB, calls).payments[p].amount == amount ==> Reserved(Run(EMPTY_DB, calls), p) <= amount
    {
      EmptyInv();
      hide Inv, Exec, Serial, Reserved;
      RunInv(EMPTY_DB, calls);
      RefundsBounded(Run(EMPTY_DB, calls), p);
    }
  }

  lemma AddRefundReserved(db: Db, row: Refund, f: Fresh)
    requires LedgerRowsOk(db) && Explained(db) && row.payment in db.payments && f.id !in db.refunds
    ensures Reserved(AddRefund(db, row, f), row.payment) == Reserved(db, row.payment) + row.amount
  {
    hide LedgerRowsOk, Explained;
    AddRefundShape(db, row, f);
    assert RefundsOf(AddRefund(db, row, f), row.payment) == RefundsOf(db, row.payment)[f.id := row];
    SumInsert(RefundsOf(db, row.payment), f.id, row);
  }

  function FullRefund(db: Db, p: Uuid, key: string): Refund
    requires p in db.payments
  {
    NewRefund(db.payments[p].tenant, p, key, db.payments[p].amount, Normal(db.payments[p].currency))
  }

  /** The premises under which a request for a full refund (amount 0) inserts a row. */
  ghost predicate AcceptsFullRefund(db: Db, p: Uuid, key: string)
  {
    && p in db.payments && db.payments[p].status.Succeeded? && 0 < db.payments[p].amount && ValidKey(key)
    && CheckHeadroom(Reserved(db, p), db.payments[p].amount, db.payments[p].amount).None?
    && Slot(db.payments[p].tenant, key) !in db.refundKeys
  }

  lemma FullRefundAccepted(db: Db, p: Uuid, key: string, f: Fresh)
    requires AcceptsFullRefund(db, p, key)
    ensures Exec(db, CreateRefund(db.payments[p].tenant, p, key, 0), f).0 == AddRefund(db, FullRefund(db, p, key), f)
    ensures Exec(db, CreateRefund(db.payments[p].tenant, p, key, 0), f).1
            == RefundReply(f.id, p, db.payments[p].amount, Normal(db.payments[p].currency), Pending, true)
  {
    hide Reserved, AddRefund, ValidKey, Normal;
  }

  // ---------- the run that breaks a payment of 2^62 cents or more ----------

  const T := Uuid("t")
  const P := Uuid("p")

  function Ids(id: string, job: string, n: nat): Fresh { Fresh(Uuid(id), n, Uuid(job), n, None) }

  function Paid(amount: Int64): Payment { NewPayment(T, "k", amount, "EUR").(status := Succeeded) }

  lemma Texts()
    ensures ValidKey("k") && ValidKey("a") && ValidKey("b")
    ensures Normal("EUR") == "EUR" && |TrimSpace("EUR")| == 3
  {
    assert TrimRight("k") == "k" && TrimRight("a") == "a" && TrimRight("b") == "b";
    assert TrimLeft("EUR") == "EUR" && TrimRight("EUR") == "EUR";
    ToUpperAt("EUR");
    assert ToUpper("EUR") == "EUR";
  }

  /** The tables hold one settled payment of this amount and these refunds of it. */
  ghost predicate Stage(db: Db, amount: Int64, refunds: set<Uuid>, slots: set<Slot>, jobs: set<Uuid>, next: nat)
  {
    && Inv(db) && db.payments == map[P := Paid(amount)]
    && db.refunds.Keys == refunds && db.refundKeys.Keys == slots && db.outbox.Keys == jobs
    && (forall i :: 0 <= i < |db.ledger| ==> db.ledger[i].id < next)
  }

  lemma AcceptStage(amount: Int64)
    requires 0 < amount
    ensures Admissible(EMPTY_DB, CreatePayment(T, "k", amount, "EUR"), Ids("p", "op", 1))
    ensures var db := Exec(EMPTY_DB, CreatePayment(T, "k", amount, "EUR"), Ids("p", "op", 1)).0;
            && Inv(db) && db.payments == map[P := NewPayment(T, "k", amount, "EUR")]
            && db.refunds == map[] && db.refundKeys == map[] && db.outbox.Keys == {Uuid("op")}
            && forall i :: 0 <= i < |db.ledger| ==> db.ledger[i].id < 2
  {
    Texts();
    EmptyInv();
    hide ValidKey, Normal, Inv, PaymentFingerprint;
    var op, f := CreatePayment(T, "k", amount, "EUR"), Ids("p", "op", 1);
    assert DoCreatePayment(EMPTY_DB, T, "k", amount, "EUR", f).0
        == AddPayment(EMPTY_DB, NewPayment(T, "k", amount, "EUR"), f);
    ExecInv(EMPTY_DB, op, f);
  }

  lemma PaidStage(amount: Int64) returns (calls: seq<Call>)
    requires 0 < amount
    ensures Serial(EMPTY_DB, calls) && Stage(Run(EMPTY_DB, calls), amount, {}, {}, {Uuid("op")}, 3)
  {
    var create, settle := CreatePayment(T, "k", amount, "EUR"), Settle(ThePayment(P));
    AcceptStage(amount);
    hide Exec, Inv, Admissible;
    var r1 := Exec(EMPTY_DB, create, Ids("p", "op", 1)).1;
    SerialAppend(EMPTY_DB, [], create, Ids("p", "op", 1), r1);
    calls := [] + [Call(create, Ids("p", "op", 1), r1)];
    SettleStage(Run(EMPTY_DB, calls), amount);
    SerialAppend(EMPTY_DB, calls, settle, Ids("x", "ox", 2), Settled);
    calls := calls + [Call(settle, Ids("x", "ox", 2), Settled)];
  }

  lemma SettleStage(db: Db, amount: Int64)
    requires Inv(db) && db.payments == map[P := NewPayment(T, "k", amount, "EUR")]
    requires db.refunds == map[] && db.refundKeys == map[] && db.outbox.Keys == {Uuid("op")}
    requires forall i :: 0 <= i < |db.ledger| ==> db.ledger[i].id < 2
    ensures Admissible(db, Settle(ThePayment(P)), Ids("x", "ox", 2))
    ensures var (db', r) := Exec(db, Settle(ThePayment(P)), Ids("x", "ox", 2));
            r == Settled && Stage(db', amount, {}, {}, {Uuid("op")}, 3)
  {
    hide PaymentsOk, RefundsOk, OutboxOk, LedgerRowsOk, Explained, Normal;
    SettlePaymentShape(db, P, 2);
    SettlePaymentInv(db, P, 2);
  }

  /** One more full refund of the staged payment, when the wrapped headroom test lets it through. */
  lemma RefundStage(db: Db, amount: Int64, refunds: set<Uuid>, slots: set<Slot>, jobs: set<Uuid>, next: nat,
                    key: string, f: Fresh)
    requires 0 < amount && Stage(db, amount, refunds, slots, jobs, next) && ValidKey(key)
    requires Slot(T, key) !in slots && f.id !in refunds && f.outboxId !in jobs && f.ledgerId == next
    requires CheckHeadroom(Reserved(db, P), amount, amount).None?
    ensures Admissible(db, CreateRefund(T, P, key, 0), f)
    ensures var db' := Exec(db, CreateRefund(T, P, key, 0), f).0;
            && Stage(db', amount, refunds + {f.id}, slots + {Slot(T, key)}, jobs + {f.outboxId}, next + 1)
            && Reserved(db', P) == Reserved(db, P) + amount
    ensures Exec(db, CreateRefund(T, P, key, 0), f).1
            == RefundReply(f.id, P, amount, Normal(Paid(amount).currency), Pending, true)
  {
    hide PaymentsOk, RefundsOk, OutboxOk, LedgerRowsOk, Explained, Reserved, AddRefund, ValidKey, Normal, Exec;
    var row := FullRefund(db, P, key);
    FullRefundAccepted(db, P, key, f);
    ExecInv(db, CreateRefund(T, P, key, 0), f);
    AddRefundShape(db, row, f);
    AddRefundReserved(db, row, f);
  }

  lemma NothingReserved(db: Db, p: Uuid)
    requires db.refunds.Keys == {}
    ensures Reserved(db, p) == 0
  {
    assert RefundsOf(db, p) == map[];
  }

  lemma RefundAgain(calls: seq<Call>, amount: Int64, refunds: set<Uuid>, slots: set<Slot>, jobs: set<Uuid>, next: nat,
                    key: string, f: Fresh) returns (calls': seq<Call>)
    requires 0 < amount && Serial(EMPTY_DB, calls) && Stage(Run(EMPTY_DB, calls), amount, refunds, slots, jobs, next)
    requires ValidKey(key) && Slot(T, key) !in slots && f.id !in refunds && f.outboxId !in jobs && f.ledgerId == next
    requires CheckHeadroom(Reserved(Run(EMPTY_DB, calls), P), amount, amount).None?
    ensures Serial(EMPTY_DB, calls')
    ensures Stage(Run(EMPTY_DB, calls'), amount, refunds + {f.id}, slots + {Slot(T, key)}, jobs + {f.outboxId}, next + 1)
    ensures Reserved(Run(EMPTY_DB, calls'), P) == Reserved(Run(EMPTY_DB, calls), P) + amount
    ensures calls' == calls + [Call(CreateRefund(T, P, key, 0), f,
                                    RefundReply(f.id, P, amount, Normal(Paid(amount).currency), Pending, true))]
  {
    hide Normal, Stage, Serial, Run, Exec, Reserved, Admissible, ValidKey;
    var db, op := Run(EMPTY_DB, calls), CreateRefund(T, P, key, 0);
    RefundStage(db, amount, refunds, slots, jobs, next, key, f);
    SerialAppend(EMPTY_DB, calls, op, f, Exec(db, op, f).1);
    calls' := calls + [Call(op, f, Exec(db, op, f).1)];
  }

  lemma OverRefundRun(amount: Int64) returns (calls: seq<Call>)
    requires amount > MAX_SAFE_AMOUNT
    ensures Serial(EMPTY_DB, calls)
    ensures P in Run(EMPTY_DB, calls).payments && Run(EMPTY_DB, calls).payments[P].amount == amount
    ensures Reserved(Run(EMPTY_DB, calls), P) == 2 * amount
  {
    hide Serial, Run, Inv, Reserved, ValidKey, Exec;
    Texts();
    calls := PaidStage(amount);
    NothingReserved(Run(EMPTY_DB, calls), P);
    var f, g := Ids("r", "or", 3), Ids("s", "os", 4);
    assert f.id != g.id && f.outboxId != g.outboxId && f.outboxId != Uuid("op") && g.outboxId != Uuid("op");
    assert Slot(T, "a") != Slot(T, "b");
    calls := RefundAgain(calls, amount, {}, {}, {Uuid("op")}, 3, "a", f);
    assert AddInt64(amount, amount) < 0;
    calls := RefundAgain(calls, amount, {} + {f.id}, {} + {Slot(T, "a")}, {Uuid("op")} + {f.outboxId}, 4, "b", g);
  }

  /** A payment of a given amount can never be over-refunded, in any run, exactly when it is at most 2^62 - 1 cents. */
  lemma ConservedIffSafe(amount: Int64)
    requires 0 < amount
    ensures NeverOverRefunded(amount) <==> amount <= MAX_SAFE_AMOUNT
  {
    if amount <= MAX_SAFE_AMOUNT {
      SafeAmountsConserved(amount);
    } else {
      var calls := OverRefundRun(amount);
    }
  }

  // ---------- the run that breaks refund replay ----------

  /**
   The idempotency contract promises a retried refund its first outcome. The code checks the balance
   before it looks for the key, so the retry of a full refund is refused, for every safe amount.
   */
  lemma FullRefundRetryRefused(amount: Int64) returns (calls: seq<Call>, op: Op, f: Fresh)
    requires 0 < amount <= MAX_SAFE_AMOUNT
    ensures Serial(EMPTY_DB, calls) && |calls| > 0 && calls[|calls| - 1].op == op
    ensures calls[|calls| - 1].response.RefundReply? && calls[|calls| - 1].response.created
    ensures Exec(Run(EMPTY_DB, calls), op, f) == (Run(EMPTY_DB, calls), Failed(AmountExceeded))
  {
    hide Serial, Run, Inv, Reserved, ValidKey, Exec, Normal;
    Texts();
    calls := PaidStage(amount);
    NothingReserved(Run(EMPTY_DB, calls), P);
    f, op := Ids("r", "or", 3), CreateRefund(T, P, "a", 0);
    calls := RefundAgain(calls, amount, {}, {}, {Uuid("op")}, 3, "a", f);
    RefundOverBalance(Run(EMPTY_DB, calls), op, f, amount, Normal("EUR"), AmountExceeded);
  }

  /**
   The contract promises a conflict when a used key comes with another body. After a full refund, one
   cent under the same key is told that the balance is exceeded, for every safe amount above a cent.
   */
  lemma UsedKeyToldExceeded(amount: Int64) returns (calls: seq<Call>, op: Op, f: Fresh)
    requires 1 < amount <= MAX_SAFE_AMOUNT
    ensures Serial(EMPTY_DB, calls) && |calls| > 0 && calls[|calls| - 1].op.CreateRefund? && op.CreateRefund?
    ensures calls[|calls| - 1].response.RefundReply? && calls[|calls| - 1].response.created
    ensures op == calls[|calls| - 1].op.(amount := op.amount) && op.amount != 0 && op.amount != calls[|calls| - 1].response.amount
    ensures Exec(Run(EMPTY_DB, calls), op, f) == (Run(EMPTY_DB, calls), Failed(AmountExceeded))
  {
    hide Serial, Run, Inv, Reserved, ValidKey, Exec, Normal;
    Texts();
    calls := PaidStage(amount);
    NothingReserved(Run(EMPTY_DB, calls), P);
    f, op := Ids("r", "or", 3), CreateRefund(T, P, "a", 1);
    calls := RefundAgain(calls, amount, {}, {}, {Uuid("op")}, 3, "a", f);
    RefundOverBalance(Run(EMPTY_DB, calls), op, f, 1, Normal("EUR"), AmountExceeded);
  }

  // ---------- the ledger and the outbox, over every run ----------

  /** After any run the ledger rebuilds every payment's account, and every prefix of it was a legal history. */
  lemma LedgerExplainsRun(calls: seq<Call>, p: Uuid, n: nat)
    requires Serial(EMPTY_DB, calls) && p in Run(EMPTY_DB, calls).payments
    requires n <= |EventsOf(Run(EMPTY_DB, calls).ledger, p)|
    ensures Replay(EventsOf(Run(EMPTY_DB, calls).ledger, p)) == Open(AccountOf(Run(EMPTY_DB, calls), p))
    ensures !Replay(EventsOf(Run(EMPTY_DB, calls).ledger, p)[..n]).Illegal?
  {
    hide Serial, Run, Exec, EventsOf, Replay, AccountOf;
    EmptyInv();
    RunInv(EMPTY_DB, calls);
    PrefixLegal(EventsOf(Run(EMPTY_DB, calls).ledger, p), n);
  }

  /** After any run every payment and refund has exactly one outbox row, unprocessed until its subject has succeeded. */
  lemma NoSettlementLost(calls: seq<Call>, s: Subject)
    requires Serial(EMPTY_DB, calls) && Exists(Run(EMPTY_DB, calls), s)
    ensures exists o :: JobFor(Run(EMPTY_DB, calls), s, o)
              && (Run(EMPTY_DB, calls).outbox[o].processed ==> HasSucceeded(Run(EMPTY_DB, calls), s))
              && forall o' :: JobFor(Run(EMPTY_DB, calls), s, o') ==> o' == o
  {
    hide Serial, Run, Exec, PaymentsOk, RefundsOk, LedgerRowsOk, Explained;
    EmptyInv();
    RunInv(EMPTY_DB, calls);
    var db := Run(EMPTY_DB, calls);
    var o :| JobFor(db, s, o);
  }

  /** In no run does the worker meet a row it cannot decode or settle. */
  lemma NoPoisonRows(calls: seq<Call>, i: nat)
    requires Serial(EMPTY_DB, calls) && i < |calls|
    ensures calls[i].response != Failed(PoisonRow)
  {
    EmptyInv();
    hide Inv, Exec, Admissible;
    RunGrows(EMPTY_DB, calls, i + 1);
    RunGrows(EMPTY_DB, calls, i);
    assert calls[..i + 1][..i] == calls[..i];
    NotPoison(Run(EMPTY_DB, calls[..i]), calls[i].op, calls[i].gen);
  }

  lemma NotPoison(db: Db, op: Op, f: Fresh)
    requires Inv(db)
    ensures Exec(db, op, f).1 != Failed(PoisonRow)
  {
    hide Inv, SettleSubject, Reserved, ValidKey, ValidPayment;
    match op
    case Settle(s) => NeverStuck(db, s);
    case ProcessOutbox => if f.claim.Some? && f.claim.value in db.outbox { RowNotPoison(db, f.claim.value); }
    case _ =>
  }
}
