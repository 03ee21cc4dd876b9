/**
 What every call does, as a rule over the rows it finds: which requests are refused and with which
 error, and exactly which rows the others write. The rules are written without the operations and
 their helpers, and every call of every run follows them.
 */
module Rules {
  import opened Types
  import opened Text
  import opened Wording
  import opened Tables
  import opened Operations
  import opened Invariant
  import opened Runs
  import opened Cases
  import opened Idempotency
  import opened Statements
  import opened Serializability
  import opened Interleaving

  predicate BadKey(key: string) { Blank(key) || |key| > 200 }

  // ---------- creating a payment ----------

  predicate HoldsPaymentKey(db: Db, p: Uuid, tenant: Uuid, key: string)
  {
    p in db.payments && db.payments[p].tenant == tenant && db.payments[p].key == key
  }

  /** The rows of a new payment: the payment, its first ledger event and its settlement job. */
  predicate PaymentRows(db: Db, op: Op, f: Fresh, currency: string, db': Db)
    requires op.CreatePayment?
  {
    && f.id !in db.payments && f.outboxId !in db.outbox
    && db'.payments == db.payments[f.id :=
         Payment(op.tenant, op.amount, currency, Pending, op.key, PaymentBody(op.amount, currency))]
    && db'.paymentKeys == db.paymentKeys[Slot(op.tenant, op.key) := f.id]
    && db'.ledger == db.ledger + [LedgerRow(f.ledgerId, op.tenant, f.id, AcceptedKey, PaymentAccepted(op.amount, currency))]
    && db'.outbox == db.outbox[f.outboxId := OutboxRow(PaymentSettlement, PaymentIdPayload(f.id), f.createdAt, false)]
    && db'.refunds == db.refunds && db'.refundKeys == db.refundKeys
  }

  ghost predicate PaymentRule(db: Db, op: Op, f: Fresh, db': Db, r: Response)
    requires op.CreatePayment?
  {
    if BadKey(op.key) || op.amount <= 0 || !ThreeCharacters(op.currency) then
      r == Failed(InvalidInput) && db' == db
    else if exists p :: HoldsPaymentKey(db, p, op.tenant, op.key) then
      db' == db && forall p | HoldsPaymentKey(db, p, op.tenant, op.key) ::
        r == if db.payments[p].amount == op.amount && SameCurrency(db.payments[p].currency, op.currency)
             then PaymentReply(p, op.amount, db.payments[p].currency, db.payments[p].status, false)
             else Failed(IdempotencyMismatch)
    else
      && r.PaymentReply? && r == PaymentReply(f.id, op.amount, r.currency, Pending, true)
      && Capitals(r.currency) && |r.currency| == 3 && SameCurrency(r.currency, op.currency)
      && PaymentRows(db, op, f, r.currency, db')
  }

  lemma KeyHolders(db: Db, p: Uuid, tenant: Uuid, key: string)
    requires Inv(db)
    ensures HoldsPaymentKey(db, p, tenant, key) <==>
              Slot(tenant, key) in db.paymentKeys && db.paymentKeys[Slot(tenant, key)] == p
    ensures HoldsPaymentKey(db, p, tenant, key) ==>
              Normal(db.payments[p].currency) == db.payments[p].currency
              && db.payments[p].hash == PaymentBody(db.payments[p].amount, db.payments[p].currency)
  {
    hide Normal, RefundsOk, LedgerRowsOk, Explained, OutboxOk;
  }

  lemma ReplayFollows(db: Db, op: Op, f: Fresh, p: Uuid)
    requires Inv(db) && op.CreatePayment? && ValidPayment(op.amount, op.currency, op.key)
    requires HoldsPaymentKey(db, p, op.tenant, op.key)
    ensures Exec(db, op, f) == (db,
              if db.payments[p].amount == op.amount && SameCurrency(db.payments[p].currency, op.currency)
              then PaymentReply(p, op.amount, db.payments[p].currency, db.payments[p].status, false)
              else Failed(IdempotencyMismatch))
  {
    hide Inv, Exec, Normal, ValidPayment, SameCurrency;
    KeyHolders(db, p, op.tenant, op.key);
    FreeSlot(db, Slot(op.tenant, op.key));
    PaymentReplays(db, op, f, p);
    NormalIdempotent(op.currency, op.amount);
    NormalIdentifies(db.payments[p].currency, op.currency);
  }

  lemma CreationFollows(db: Db, op: Op, f: Fresh)
    requires Inv(db) && Admissible(db, op, f) && op.CreatePayment? && ValidPayment(op.amount, op.currency, op.key)
    requires Slot(op.tenant, op.key) !in db.paymentKeys
    ensures var (db', r) := Exec(db, op, f);
            && r == PaymentReply(f.id, op.amount, Normal(op.currency), Pending, true)
            && PaymentRows(db, op, f, Normal(op.currency), db')
  {
    hide Exec, Normal, ValidPayment, AddPayment, PaymentsOk, RefundsOk, Explained, OutboxOk, LedgerRowsOk;
    FreeSlot(db, Slot(op.tenant, op.key));
    PaymentAdded(db, op, f);
    NormalIdempotent(op.currency, op.amount);
    PaymentInsertsChange(db, PaymentRowOf(op), f);
    AddPaymentShape(db, PaymentRowOf(op), f);
  }

  lemma NewCurrency(currency: string)
    requires ThreeCharacters(currency)
    ensures Capitals(Normal(currency)) && |Normal(currency)| == 3 && SameCurrency(Normal(currency), currency)
  {
    var i: nat, j: nat :| TrimsTo(currency, i, j) && j - i == 3;
    NormalMeans(currency, i, j);
    NormalIdempotent(currency, 0);
    hide Normal;
    NormalIdentifies(Normal(currency), currency);
  }

  lemma PaymentFollows(db: Db, op: Op, f: Fresh)
    requires Inv(db) && Admissible(db, op, f) && op.CreatePayment?
    ensures PaymentRule(db, op, f, Exec(db, op, f).0, Exec(db, op, f).1)
  {
    hide Inv, Exec, Normal, ValidPayment, Admissible, Capitals, SameCurrency, ThreeCharacters, Blank, PaymentRows;
    PaymentRefused(op.amount, op.currency, op.key);
    if !ValidPayment(op.amount, op.currency, op.key) {
      InvalidPayment(db, op, f);
    } else if Slot(op.tenant, op.key) in db.paymentKeys {
      var q := db.paymentKeys[Slot(op.tenant, op.key)];
      KeyHolders(db, q, op.tenant, op.key);
      ReplayFollows(db, op, f, q);
      forall p | HoldsPaymentKey(db, p, op.tenant, op.key) ensures p == q {
        KeyHolders(db, p, op.tenant, op.key);
      }
    } else {
      forall p ensures !HoldsPaymentKey(db, p, op.tenant, op.key) {
        KeyHolders(db, p, op.tenant, op.key);
      }
      CreationFollows(db, op, f);
      NewCurrency(op.currency);
    }
  }

  // ---------- creating a refund ----------

  predicate HoldsRefundKey(db: Db, x: Uuid, tenant: Uuid, key: string)
  {
    x in db.refunds && db.refunds[x].tenant == tenant && db.refunds[x].key == key
  }

  /** The rows of a new refund of this amount: the refund, its ledger event and its settlement job. */
  predicate RefundRows(db: Db, op: Op, f: Fresh, amount: Int64, currency: string, db': Db)
    requires op.CreateRefund?
  {
    && f.id !in db.refunds && f.outboxId !in db.outbox
    && db'.refunds == db.refunds[f.id :=
         Refund(op.tenant, op.payment, amount, currency, Pending, op.key, RefundBody(op.payment, amount))]
    && db'.refundKeys == db.refundKeys[Slot(op.tenant, op.key) := f.id]
    && db'.ledger == db.ledger
         + [LedgerRow(f.ledgerId, op.tenant, op.payment, RequestedKey(f.id), RefundRequested(f.id, amount, currency))]
    && db'.outbox == db.outbox[f.outboxId := OutboxRow(RefundSettlement, RefundIdPayload(f.id), f.createdAt, false)]
    && db'.payments == db.payments && db'.paymentKeys == db.paymentKeys
  }

  /** The part of the rule that depends on the payment: pay is the caller's own, and has succeeded. */
  ghost predicate BalanceRule(db: Db, op: Op, f: Fresh, pay: Payment, amount: Int64, db': Db, r: Response)
    requires op.CreateRefund?
  {
    var reserved := Reserved(db, op.payment);
    if reserved > MAX_INT64 then r == Failed(SumOverflow) && db' == db
    else if pay.amount < reserved + amount <= MAX_INT64 then r == Failed(AmountExceeded) && db' == db
    else if exists x :: HoldsRefundKey(db, x, op.tenant, op.key) then
      db' == db && forall x | HoldsRefundKey(db, x, op.tenant, op.key) ::
        r == if db.refunds[x].payment == op.payment && db.refunds[x].amount == amount
             then RefundReply(x, op.payment, amount, pay.currency, db.refunds[x].status, false)
             else Failed(IdempotencyMismatch)
    else
      r == RefundReply(f.id, op.payment, amount, pay.currency, Pending, true)
      && RefundRows(db, op, f, amount, pay.currency, db')
  }

  /** An amount of 0 asks for the whole payment. */
  ghost predicate RefundRule(db: Db, op: Op, f: Fresh, db': Db, r: Response)
    requires op.CreateRefund?
  {
    if BadKey(op.key) then r == Failed(InvalidInput) && db' == db
    else if op.payment !in db.payments || db.payments[op.payment].tenant != op.tenant then
      r == Failed(NotFound) && db' == db
    else
      var pay := db.payments[op.payment];
      if pay.status == Pending then r == Failed(NotRefundable) && db' == db
      else if op.amount < 0 || op.amount > pay.amount then r == Failed(InvalidInput) && db' == db
      else BalanceRule(db, op, f, pay, if op.amount == 0 then pay.amount else op.amount, db', r)
  }

  lemma RefundKeyHolders(db: Db, x: Uuid, tenant: Uuid, key: string)
    requires Inv(db)
    ensures HoldsRefundKey(db, x, tenant, key) <==>
              Slot(tenant, key) in db.refundKeys && db.refundKeys[Slot(tenant, key)] == x
    ensures HoldsRefundKey(db, x, tenant, key) ==>
              db.refunds[x].hash == RefundBody(db.refunds[x].payment, db.refunds[x].amount)
  {
    hide Normal, PaymentsOk, LedgerRowsOk, Explained, OutboxOk;
  }

  /** The int64 test, in integers. */
  lemma HeadroomMeans(reserved: int, amount: Int64, total: Int64)
    requires 0 <= reserved && 0 < amount <= total
    ensures CheckHeadroom(reserved, amount, total) ==
              if reserved > MAX_INT64 then Some(SumOverflow)
              else if total < reserved + amount <= MAX_INT64 then Some(AmountExceeded) else None
  {
  }

  lemma ChecksMean(db: Db, op: Op)
    requires Inv(db) && op.CreateRefund?
    requires op.payment in db.payments && db.payments[op.payment].tenant == op.tenant
    requires db.payments[op.payment].status == Succeeded
    ensures var pay := db.payments[op.payment];
            CheckPayment(db, op.tenant, op.payment, op.amount) ==
              if op.amount < 0 || op.amount > pay.amount then Refuse(InvalidInput)
              else Admit(if op.amount == 0 then pay.amount else op.amount, pay.currency)
    ensures 0 < db.payments[op.payment].amount
  {
    hide Normal, RefundsOk, LedgerRowsOk, Explained, OutboxOk;
  }

  lemma BalanceFollows(db: Db, op: Op, f: Fresh, amount: Int64)
    requires Inv(db) && Admissible(db, op, f) && op.CreateRefund? && ValidKey(op.key)
    requires op.payment in db.payments
    requires CheckPayment(db, op.tenant, op.payment, op.amount) == Admit(amount, db.payments[op.payment].currency)
    requires 0 < amount <= db.payments[op.payment].amount
    ensures BalanceRule(db, op, f, db.payments[op.payment], amount, Exec(db, op, f).0, Exec(db, op, f).1)
  {
    hide Inv, Exec, Admissible, CheckPayment, CheckHeadroom, Reserved, ValidKey, RefundRows, AddRefund;
    var pay := db.payments[op.payment];
    NonNegativeReserved(db, op.payment);
    HeadroomMeans(Reserved(db, op.payment), amount, pay.amount);
    if CheckHeadroom(Reserved(db, op.payment), amount, pay.amount).Some? {
      RefundOverBalance(db, op, f, amount, pay.currency, CheckHeadroom(Reserved(db, op.payment), amount, pay.amount).value);
    } else if Slot(op.tenant, op.key) in db.refundKeys {
      var x := db.refundKeys[Slot(op.tenant, op.key)];
      RefundKeyHolders(db, x, op.tenant, op.key);
      FreeSlot(db, Slot(op.tenant, op.key));
      RefundReplays(db, op, f, amount, pay.currency, x);
      forall y | HoldsRefundKey(db, y, op.tenant, op.key) ensures y == x {
        RefundKeyHolders(db, y, op.tenant, op.key);
      }
    } else {
      forall y ensures !HoldsRefundKey(db, y, op.tenant, op.key) {
        RefundKeyHolders(db, y, op.tenant, op.key);
      }
      FreeSlot(db, Slot(op.tenant, op.key));
      RefundAdded(db, op, f, amount, pay.currency);
      NewRefundRows(db, op, f, amount, pay.currency);
    }
  }

  lemma NewRefundRows(db: Db, op: Op, f: Fresh, amount: Int64, currency: string)
    requires Inv(db) && Admissible(db, op, f) && op.CreateRefund? && op.payment in db.payments
    requires Slot(op.tenant, op.key) !in db.refundKeys
    requires Exec(db, op, f).0 == AddRefund(db, RefundRowOf(op, amount, currency), f)
    ensures RefundRows(db, op, f, amount, currency, Exec(db, op, f).0)
  {
    hide Exec, AddRefund, LedgerIdFresh, PaymentsOk, RefundsOk, Explained, OutboxOk, LedgerRowsOk;
    RefundInsertsChange(db, RefundRowOf(op, amount, currency), f);
    AddRefundShape(db, RefundRowOf(op, amount, currency), f);
  }

  lemma RefundFollows(db: Db, op: Op, f: Fresh)
    requires Inv(db) && Admissible(db, op, f) && op.CreateRefund?
    ensures RefundRule(db, op, f, Exec(db, op, f).0, Exec(db, op, f).1)
  {
    hide Inv, Exec, Admissible, ValidKey, Blank, BalanceRule, Normal;
    KeyRefused(op.key);
    if !ValidKey(op.key) {
      RefundRefused(db, op, f, InvalidInput);
    } else if op.payment !in db.payments || db.payments[op.payment].tenant != op.tenant {
      RefundRefused(db, op, f, NotFound);
    } else if db.payments[op.payment].status == Pending {
      RefundRefused(db, op, f, NotRefundable);
    } else {
      var pay := db.payments[op.payment];
      ChecksMean(db, op);
      hide CheckPayment;
      if op.amount < 0 || op.amount > pay.amount {
        RefundRefused(db, op, f, InvalidInput);
      } else {
        BalanceFollows(db, op, f, if op.amount == 0 then pay.amount else op.amount);
      }
    }
  }

  // ---------- settling ----------

  /** A pending subject succeeds and one ledger row says so; anything else is left alone. */
  predicate SettleRule(db: Db, s: Subject, ledgerId: nat, db': Db)
  {
    match s
    case ThePayment(p) =>
      if p in db.payments && db.payments[p].status == Pending then
        db' == db.(payments := db.payments[p := db.payments[p].(status := Succeeded)],
                   ledger := db.ledger + [LedgerRow(ledgerId, db.payments[p].tenant, p, SettledKey, SettlementCompleted)])
      else db' == db
    case TheRefund(x) =>
      if x in db.refunds && db.refunds[x].status == Pending then
        var row := db.refunds[x];
        db' == db.(refunds := db.refunds[x := row.(status := Succeeded)],
                   ledger := db.ledger + [LedgerRow(ledgerId, row.tenant, row.payment, RefundedKey(x), RefundSucceeded(x))])
      else db' == db
  }

  lemma SettleFollows(db: Db, s: Subject, ledgerId: nat)
    requires Inv(db)
    ensures SettleRule(db, s, ledgerId, SettleSubject(db, s, ledgerId))
  {
    hide PaymentsOk, RefundsOk, OutboxOk, LedgerRowsOk, Explained, AppendLedger;
    match s
    case ThePayment(p) =>
      if p in db.payments && db.payments[p].status == Pending {
        SettlePaymentShape(db, p, ledgerId);
      }
    case TheRefund(x) =>
      if x in db.refunds && db.refunds[x].status == Pending {
        SettleRefundShape(db, x, ledgerId);
      }
  }

  /** The subject an outbox row names, read off its kind and payload. */
  predicate Names(row: OutboxRow, s: Subject)
  {
    match s
    case ThePayment(p) => row.kind == PaymentSettlement && row.payload == PaymentIdPayload(p)
    case TheRefund(x) => row.kind == RefundSettlement && row.payload == RefundIdPayload(x)
  }

  /** A pass settles the subject of the row it claims and marks that row; a claim of no unprocessed row finds nothing. */
  ghost predicate PassRule(db: Db, f: Fresh, db': Db, r: Response)
  {
    if f.claim.Some? && f.claim.value in db.outbox && !db.outbox[f.claim.value].processed then
      var row := db.outbox[f.claim.value];
      r.Followup? && Names(row, r.subject)
      && SettleRule(db, r.subject, f.ledgerId, db'.(outbox := db.outbox))
      && db'.outbox == db.outbox[f.claim.value := row.(processed := true)]
    else r == Idle && db' == db
  }

  lemma PassFollows(db: Db, f: Fresh)
    requires Inv(db)
    ensures PassRule(db, f, Exec(db, ProcessOutbox, f).0, Exec(db, ProcessOutbox, f).1)
  {
    hide Inv, SettleSubject, Stuck, SettleRule;
    if f.claim.Some? && Claimable(db, f.claim.value) {
      RowNotPoison(db, f.claim.value);
      var s := Decode(db.outbox[f.claim.value]).value;
      SettleFollows(db, s, f.ledgerId);
      SettleKeepsOutbox(db, s, f.ledgerId);
    }
  }

  // ---------- every call of every run ----------

  ghost predicate Rule(db: Db, op: Op, f: Fresh, db': Db, r: Response)
  {
    match op
    case CreatePayment(_, _, _, _) => PaymentRule(db, op, f, db', r)
    case CreateRefund(_, _, _, _) => RefundRule(db, op, f, db', r)
    case Settle(s) => r == Settled && SettleRule(db, s, f.ledgerId, db')
    case ProcessOutbox => PassRule(db, f, db', r)
  }

  lemma ExecFollows(db: Db, op: Op, f: Fresh)
    requires Inv(db) && Admissible(db, op, f)
    ensures Rule(db, op, f, Exec(db, op, f).0, Exec(db, op, f).1)
  {
    match op
    case CreatePayment(_, _, _, _) => PaymentFollows(db, op, f);
    case CreateRefund(_, _, _, _) => RefundFollows(db, op, f);
    case Settle(s) =>
      NeverStuck(db, s);
      SettleFollows(db, s, f.ledgerId);
      hide Inv, SettleRule, SettleSubject, Stuck;
    case ProcessOutbox => PassFollows(db, f);
  }

  /** Every call of every run does what its rule says; by serial equivalence, so does every call of every interleaving. */
  lemma EveryCallFollows(calls: seq<Call>, n: nat)
    requires Serial(EMPTY_DB, calls) && n < |calls|
    ensures Rule(Run(EMPTY_DB, calls[..n]), calls[n].op, calls[n].gen, Run(EMPTY_DB, calls[..n + 1]), calls[n].response)
  {
    hide Inv, Serial, Run, Exec, Admissible, Rule;
    Prefixes(calls, n, n);
    ExecFollows(Run(EMPTY_DB, calls[..n]), calls[n].op, calls[n].gen);
  }

  /** The same for a transaction answered in any interleaving: some committed state of its run is the one it found. */
  lemma EveryAnswerFollows(actions: seq<Action>, t: Tid)
    requires DecidedIn(Execute(actions), t)
    ensures var s := Execute(actions);
            var n := Decided(s.txs[t].pc).value;
            && n < |s.hist| && s.hist[n].op == s.txs[t].op && s.hist[n].response == s.txs[t].pc.response
            && Rule(Run(EMPTY_DB, s.hist[..n]), s.hist[n].op, s.hist[n].gen, Run(EMPTY_DB, s.hist[..n + 1]), s.hist[n].response)
  {
    ExecuteOk(actions);
    hide Execute, Serial, Run, AllTxOk, Rule;
    EveryCallFollows(Execute(actions).hist, Decided(Execute(actions).txs[t].pc).value);
  }
}
