/**
 Tenant separation over whole runs: what a tenant gets from the shared system is what it would get
 from a system of its own.
 */
module Separation {
  import opened Types
  import opened Text
  import opened Tables
  import opened Operations
  import opened Sequence
  import opened Invariant
  import opened Runs
  import opened Growth
  import opened Tenancy

  predicate OwnedBy(db: Db, s: Subject, a: Uuid)
  {
    match s
    case ThePayment(p) => p in db.payments && db.payments[p].tenant == a
    case TheRefund(r) => r in db.refunds && db.refunds[r].tenant == a
  }

  /** The subject whose outbox row this pass claims and settles. */
  function ClaimedSubject(db: Db, f: Fresh): Option<Subject>
  {
    if f.claim.Some? && Claimable(db, f.claim.value) then Decode(db.outbox[f.claim.value]) else None
  }

  /** Tenant a's creates, and the settlements of a's payments and refunds by a broker job or an outbox pass. */
  predicate Concerns(db: Db, op: Op, f: Fresh, a: Uuid)
  {
    match op
    case CreatePayment(tenant, _, _, _) => tenant == a
    case CreateRefund(tenant, _, _, _) => tenant == a
    case Settle(s) => OwnedBy(db, s, a)
    case ProcessOutbox => ClaimedSubject(db, f).Some? && OwnedBy(db, ClaimedSubject(db, f).value, a)
  }

  /** The call as tenant a's own system makes it: which worker settles a subject, and why, does not matter to a. */
  function OwnCall(db: Db, c: Call): Call
  {
    if c.op.ProcessOutbox? && ClaimedSubject(db, c.gen).Some?
    then Call(Settle(ClaimedSubject(db, c.gen).value), c.gen, Settled) else c
  }

  /** The calls of a run that concern tenant a, with the responses they got. */
  ghost function OwnCalls(calls: seq<Call>, a: Uuid): seq<Call>
  {
    if calls == [] then []
    else
      var n := |calls| - 1;
      var before := Run(EMPTY_DB, calls[..n]);
      if Concerns(before, calls[n].op, calls[n].gen, a)
      then OwnCalls(calls[..n], a) + [OwnCall(before, calls[n])] else OwnCalls(calls[..n], a)
  }

  // ---------- calls that do not concern the tenant ----------

  lemma ForeignSettlementInvisible(a: Uuid, db: Db, s: Subject, n: nat)
    requires Inv(db) && !OwnedBy(db, s, a)
    ensures Agree(a, db, SettleSubject(db, s, n))
  {
    hide Inv, PaymentsFor, RefundsFor, SlotsFor, LedgerFor, SettlePayment, SettleRefund;
    match s
    case ThePayment(p) => SettleOwnPayment(a, db, p, n);
    case TheRefund(r) => SettleOwnRefund(a, db, r, n);
  }

  /** Marking a row processed is visible to no tenant. */
  lemma MarkingInvisible(a: Uuid, db: Db, o: Uuid)
    ensures Agree(a, db, MarkProcessed(db, o))
  {
  }

  /** What one outbox pass does, from its claim. */
  lemma PassUnfolds(db: Db, f: Fresh)
    requires Inv(db)
    ensures ClaimedSubject(db, f).None? ==> Exec(db, ProcessOutbox, f) == (db, Idle)
    ensures ClaimedSubject(db, f).Some? ==>
              var s := ClaimedSubject(db, f).value;
              && f.claim.Some? && Exists(db, s) && !Stuck(db, s)
              && Exec(db, ProcessOutbox, f) == (MarkProcessed(SettleSubject(db, s, f.ledgerId), f.claim.value), Followup(s))
  {
    hide Inv, SettleSubject, MarkProcessed, Stuck, Exists, Decode;
    if f.claim.Some? && Claimable(db, f.claim.value) {
      RowNotPoison(db, f.claim.value);
    }
  }

  lemma SettleUnfolds(db: Db, s: Subject, f: Fresh)
    requires Inv(db)
    ensures Exec(db, Settle(s), f) == (SettleSubject(db, s, f.ledgerId), Settled)
  {
    NeverStuck(db, s);
    hide Inv, SettleSubject, Stuck;
  }

  lemma ForeignInvisible(a: Uuid, db: Db, op: Op, f: Fresh)
    requires Inv(db) && Admissible(db, op, f) && !Concerns(db, op, f, a)
    ensures Agree(a, db, Exec(db, op, f).0)
  {
    hide Inv, Agree, Exec, LedgerIdFresh, SubjectIdFresh, SettleSubject, MarkProcessed, ClaimedSubject, OwnedBy;
    match op
    case CreatePayment(_, _, _, _) => ForeignCallsInvisible(a, db, op, f);
    case CreateRefund(_, _, _, _) => ForeignCallsInvisible(a, db, op, f);
    case Settle(s) =>
      SettleUnfolds(db, s, f);
      ForeignSettlementInvisible(a, db, s, f.ledgerId);
    case ProcessOutbox =>
      PassUnfolds(db, f);
      if ClaimedSubject(db, f).Some? {
        var s := ClaimedSubject(db, f).value;
        ForeignSettlementInvisible(a, db, s, f.ledgerId);
        PassKeepsView(a, db, s, f);
      } else {
        AgreeReflexive(a, db);
      }
  }

  lemma AgreeReflexive(a: Uuid, db: Db)
    ensures Agree(a, db, db)
  {
  }

  lemma PassKeepsView(a: Uuid, db: Db, s: Subject, f: Fresh)
    requires f.claim.Some? && Agree(a, db, SettleSubject(db, s, f.ledgerId))
    ensures Agree(a, db, MarkProcessed(SettleSubject(db, s, f.ledgerId), f.claim.value))
  {
    hide Agree, MarkProcessed, SettleSubject;
    MarkingInvisible(a, SettleSubject(db, s, f.ledgerId), f.claim.value);
    AgreeTransitive(a, db, SettleSubject(db, s, f.ledgerId), MarkProcessed(SettleSubject(db, s, f.ledgerId), f.claim.value));
  }

  // ---------- the tenant's own system ----------

  /** The shared tables db next to the tables db' of a system that serves tenant a alone. */
  ghost predicate Mirror(a: Uuid, db: Db, db': Db)
  {
    && Inv(db) && Inv(db') && Agree(a, db, db')
    && (forall p | p in db'.payments :: db'.payments[p].tenant == a)
    && db'.outbox.Keys <= db.outbox.Keys
  }

  /** A system that serves one tenant holds only rows that the shared system holds too. */
  lemma MirrorRows(a: Uuid, db: Db, db': Db)
    requires Mirror(a, db, db')
    ensures db'.payments.Keys <= db.payments.Keys && db'.refunds.Keys <= db.refunds.Keys
    ensures forall row | row in db'.ledger :: row in db.ledger
  {
    hide Explained, OutboxOk, GoodPayment;
    forall p | p in db'.payments ensures p in db.payments {
      PaymentsAgree(a, db, db', p);
    }
    forall r | r in db'.refunds ensures r in db.refunds {
      RefundsAgree(a, db, db', r);
    }
    forall row | row in db'.ledger ensures row in db.ledger {
      assert row.tenant == a;
      LedgerForMember(db.ledger, a, row);
      LedgerForMember(db'.ledger, a, row);
    }
  }

  lemma {:induction false} LedgerForMember(ledger: seq<LedgerRow>, a: Uuid, row: LedgerRow)
    ensures row in LedgerFor(ledger, a) <==> row in ledger && row.tenant == a
  {
    if ledger != [] {
      var n := |ledger| - 1;
      LedgerForMember(ledger[..n], a, row);
      assert ledger == ledger[..n] + [ledger[n]];
    }
  }

  lemma FreshInFewer(db: Db, db': Db, p: Uuid, ledgerId: nat)
    requires (forall row | row in db'.ledger :: row in db.ledger) && LedgerIdFresh(db, p, ledgerId)
    ensures LedgerIdFresh(db', p, ledgerId)
  {
    forall i | 0 <= i < |db'.ledger| && db'.ledger[i].payment == p ensures db'.ledger[i].id < ledgerId {
      assert db'.ledger[i] in db'.ledger;
      var j :| 0 <= j < |db.ledger| && db.ledger[j] == db'.ledger[i];
    }
  }

  /** What a create does to the tables that Agree does not compare, and whose payments it adds. */
  lemma CreateTables(db: Db, op: Op, f: Fresh)
    requires op.CreatePayment? || op.CreateRefund?
    ensures var after := Exec(db, op, f).0;
            after == db
            || (&& after.outbox.Keys == db.outbox.Keys + {f.outboxId}
                && forall p | p in after.payments ::
                     after.payments[p].tenant == op.tenant || (p in db.payments && after.payments[p] == db.payments[p]))
  {
    hide Reserved, ValidKey, ValidPayment, Normal, CheckPayment, CheckHeadroom, AddPayment, AddRefund;
    if op.CreatePayment? {
      PaymentTables(db, PaymentRowOf(op), f);
    } else {
      RefundTables(db, f);
    }
  }

  lemma PaymentTables(db: Db, row: Payment, f: Fresh)
    ensures AddPayment(db, row, f).payments == db.payments[f.id := row]
    ensures AddPayment(db, row, f).outbox.Keys == db.outbox.Keys + {f.outboxId}
  {
    AppendTouchesLedger(InsertPayment(db, f.id, row), AcceptedRow(f.ledgerId, f.id, row));
    hide AppendLedger;
  }

  lemma RefundTables(db: Db, f: Fresh)
    ensures forall row :: AddRefund(db, row, f).payments == db.payments
    ensures forall row :: AddRefund(db, row, f).outbox.Keys == db.outbox.Keys + {f.outboxId}
  {
    forall row ensures AddRefund(db, row, f).payments == db.payments
               ensures AddRefund(db, row, f).outbox.Keys == db.outbox.Keys + {f.outboxId}
    {
      AppendTouchesLedger(InsertRefund(db, f.id, row), RequestedRow(f.ledgerId, f.id, row));
      hide AppendLedger;
    }
  }

  lemma SettleTables(db: Db, s: Subject, n: nat)
    ensures SettleSubject(db, s, n).payments.Keys == db.payments.Keys
    ensures SettleSubject(db, s, n).outbox == db.outbox
  {
    hide SettlePayment, SettleRefund;
    match s
    case ThePayment(p) => SettlePaymentWrites(db, p, n);
    case TheRefund(r) => SettleRefundWrites(db, r, n);
  }

  /** Ids that are new to the shared tables are new to the mirror. */
  lemma FreshForMirror(a: Uuid, db: Db, db': Db, op: Op, f: Fresh)
    requires Mirror(a, db, db') && FreshFor(db, op, f) && (op.CreatePayment? || op.CreateRefund?)
    ensures FreshFor(db', op, f)
  {
    MirrorRows(a, db, db');
    hide LedgerIdFresh, Inv, Agree;
    if op.CreateRefund? {
      FreshInFewer(db, db', op.payment, f.ledgerId);
    }
  }

  lemma OwnCreate(a: Uuid, db: Db, db': Db, op: Op, f: Fresh)
    requires Mirror(a, db, db') && Admissible(db, op, f) && (op.CreatePayment? || op.CreateRefund?) && op.tenant == a
    ensures Admissible(db', op, f) && Exec(db', op, f).1 == Exec(db, op, f).1
    ensures Mirror(a, Exec(db, op, f).0, Exec(db', op, f).0)
  {
    hide Inv, Agree, Exec, LedgerIdFresh;
    if Exec(db, op, f).0 != db {
      FreshForMirror(a, db, db', op, f);
    }
    OwnCallsSeparated(a, db, db', op, f);
    assert Admissible(db', op, f);
    hide FreshFor, Admissible;
    CreateTables(db, op, f);
    CreateTables(db', op, f);
    ExecInv(db, op, f);
    ExecInv(db', op, f);
  }

  /** A settlement that still writes has been given a fresh ledger id. */
  lemma SettlementIdFresh(db: Db, s: Subject, op: Op, f: Fresh)
    requires Inv(db) && Admissible(db, op, f)
    requires op == Settle(s) || (op == ProcessOutbox && ClaimedSubject(db, f) == Some(s))
    ensures SubjectIdFresh(db, s, f.ledgerId)
  {
    hide Inv, Exec, SettleSubject, LedgerIdFresh, Decode, Stuck;
    if Exists(db, s) && !HasSucceeded(db, s) {
      InvParts(db);
      hide PaymentsOk, RefundsOk, LedgerRowsOk, Explained, OutboxOk, Exists, SubjectIdFresh;
      SettleSucceeds(db, s, f.ledgerId);
      SettleUnfolds(db, s, f);
      PassUnfolds(db, f);
      assert Exec(db, op, f).0 != db;
    }
  }

  lemma SubjectsAgree(a: Uuid, db: Db, db': Db, s: Subject, ledgerId: nat)
    requires Mirror(a, db, db') && OwnedBy(db, s, a) && SubjectIdFresh(db, s, ledgerId)
    ensures SubjectIdFresh(db', s, ledgerId)
  {
    hide LedgerIdFresh, Mirror;
    SubjectRowsAgree(a, db, db', s);
    var p := match s case ThePayment(p) => p case TheRefund(r) => db.refunds[r].payment;
    if LedgerIdFresh(db, p, ledgerId) {
      FreshInMirror(a, db, db', p, ledgerId);
    }
  }

  lemma FreshInMirror(a: Uuid, db: Db, db': Db, p: Uuid, ledgerId: nat)
    requires Mirror(a, db, db') && LedgerIdFresh(db, p, ledgerId)
    ensures LedgerIdFresh(db', p, ledgerId)
  {
    hide Mirror, LedgerIdFresh;
    MirrorRows(a, db, db');
    FreshInFewer(db, db', p, ledgerId);
  }

  lemma SubjectRowsAgree(a: Uuid, db: Db, db': Db, s: Subject)
    requires Mirror(a, db, db') && OwnedBy(db, s, a)
    ensures match s
            case ThePayment(p) => p in db'.payments && db'.payments[p] == db.payments[p]
            case TheRefund(r) => r in db'.refunds && db'.refunds[r] == db.refunds[r]
  {
    hide Inv;
    match s
    case ThePayment(p) => PaymentsAgree(a, db, db', p);
    case TheRefund(r) => RefundsAgree(a, db, db', r);
  }

  lemma MirrorSettled(a: Uuid, db: Db, db': Db, s: Subject, n: nat)
    requires Mirror(a, db, db') && SubjectIdFresh(db, s, n) && SubjectIdFresh(db', s, n)
    ensures Mirror(a, SettleSubject(db, s, n), SettleSubject(db', s, n))
  {
    hide Inv, Agree, SettleSubject, SubjectIdFresh;
    SettleSubjectInv(db, s, n);
    SettleSubjectInv(db', s, n);
    SettlementSeparated(a, db, db', s, n);
    SettleTables(db, s, n);
    SettleTables(db', s, n);
    SettledTenants(db', s, n);
  }

  lemma MirrorMarked(a: Uuid, db: Db, db': Db, o: Uuid)
    requires Mirror(a, db, db') && Inv(MarkProcessed(db, o))
    ensures Mirror(a, MarkProcessed(db, o), db')
  {
    hide Inv, Agree;
    MarkingInvisible(a, db, o);
    AgreeFlips(a, db, MarkProcessed(db, o), db');
  }

  /** A settlement of a's subject, by a job or by a pass, is a settlement in a's own system. */
  lemma OwnSettlement(a: Uuid, db: Db, db': Db, s: Subject, op: Op, f: Fresh)
    requires Mirror(a, db, db') && Admissible(db, op, f) && OwnedBy(db, s, a)
    requires op == Settle(s) || (op == ProcessOutbox && ClaimedSubject(db, f) == Some(s))
    ensures Admissible(db', Settle(s), f) && Exec(db', Settle(s), f).1 == Settled
    ensures Mirror(a, Exec(db, op, f).0, Exec(db', Settle(s), f).0)
  {
    hide Inv, Agree, Exec, SubjectIdFresh, SettleSubject, ClaimedSubject, Stuck, Exists, OwnedBy;
    SettlementIdFresh(db, s, op, f);
    SubjectsAgree(a, db, db', s, f.ledgerId);
    assert Admissible(db', Settle(s), f);
    ExecInv(db, op, f);
    hide Admissible, FreshFor;
    MirrorSettled(a, db, db', s, f.ledgerId);
    MirrorInv(a, db, db');
    hide Mirror;
    SettleUnfolds(db, s, f);
    SettleUnfolds(db', s, f);
    PassUnfolds(db, f);
    if op == ProcessOutbox {
      MirrorMarked(a, SettleSubject(db, s, f.ledgerId), SettleSubject(db', s, f.ledgerId), f.claim.value);
    }
  }

  lemma MirrorInv(a: Uuid, db: Db, db': Db)
    requires Mirror(a, db, db')
    ensures Inv(db) && Inv(db')
  {
  }

  lemma SettledTenants(db: Db, s: Subject, n: nat)
    ensures forall p | p in db.payments ::
              p in SettleSubject(db, s, n).payments && SettleSubject(db, s, n).payments[p].tenant == db.payments[p].tenant
  {
    SettleGrows(db, s, n);
    hide SettleSubject;
  }

  lemma AgreeFlips(a: Uuid, db: Db, marked: Db, db': Db)
    requires Agree(a, db, marked) && Agree(a, db, db')
    ensures Agree(a, marked, db')
  {
  }

  // ---------- whole runs ----------

  /**
   Separation of runs. Take the calls of any run that concern one tenant, with the responses they got
   and its settlements done by plain jobs: they are a run by themselves, in a system where no other
   tenant ever called, and leave that tenant with the same payments, refunds, keys and ledger.
   */
  lemma {:induction false} OwnRunSame(calls: seq<Call>, a: Uuid)
    requires Serial(EMPTY_DB, calls)
    ensures Serial(EMPTY_DB, OwnCalls(calls, a))
    ensures Mirror(a, Run(EMPTY_DB, calls), Run(EMPTY_DB, OwnCalls(calls, a)))
  {
    hide Inv, Agree, Exec, Admissible, Mirror, Concerns, OwnedBy;
    if calls == [] {
      EmptyMirror(a);
    } else {
      var n := |calls| - 1;
      OwnRunSame(calls[..n], a);
      OwnRunStep(calls, a);
    }
  }

  lemma EmptyMirror(a: Uuid)
    ensures Mirror(a, EMPTY_DB, EMPTY_DB)
  {
    EmptyInv();
    AgreeReflexive(a, EMPTY_DB);
  }

  lemma OwnRunStep(calls: seq<Call>, a: Uuid)
    requires Serial(EMPTY_DB, calls) && calls != []
    requires var front := calls[..|calls| - 1];
             Serial(EMPTY_DB, OwnCalls(front, a)) && Mirror(a, Run(EMPTY_DB, front), Run(EMPTY_DB, OwnCalls(front, a)))
    ensures Serial(EMPTY_DB, OwnCalls(calls, a))
    ensures Mirror(a, Run(EMPTY_DB, calls), Run(EMPTY_DB, OwnCalls(calls, a)))
  {
    hide Inv, Agree, Exec, Admissible, Mirror, ClaimedSubject, OwnedBy;
    var n := |calls| - 1;
    var op, f := calls[n].op, calls[n].gen;
    var own := OwnCalls(calls[..n], a);
    var db, db' := Run(EMPTY_DB, calls[..n]), Run(EMPTY_DB, own);
    if Concerns(db, op, f, a) {
      var mine := OwnCall(db, calls[n]);
      match op {
        case CreatePayment(_, _, _, _) => OwnCreate(a, db, db', op, f);
        case CreateRefund(_, _, _, _) => OwnCreate(a, db, db', op, f);
        case Settle(s) =>
          OwnSettlement(a, db, db', s, op, f);
          MirrorSettles(a, db, s, f, db');
        case ProcessOutbox => OwnSettlement(a, db, db', ClaimedSubject(db, f).value, op, f);
      }
      hide Concerns;
      SerialAppend(EMPTY_DB, own, mine.op, f, mine.response);
    } else {
      hide Concerns;
      MirrorForeign(a, db, db', op, f);
    }
  }

  lemma MirrorSettles(a: Uuid, db: Db, s: Subject, f: Fresh, db': Db)
    requires Mirror(a, db, db')
    ensures Exec(db, Settle(s), f).1 == Settled
  {
    SettleUnfolds(db, s, f);
  }

  /** A call that does not concern the tenant leaves the mirror a mirror. */
  lemma MirrorForeign(a: Uuid, db: Db, db': Db, op: Op, f: Fresh)
    requires Mirror(a, db, db') && Admissible(db, op, f) && !Concerns(db, op, f, a)
    ensures Mirror(a, Exec(db, op, f).0, db')
  {
    hide Inv, Agree, Exec, Admissible, Concerns, PaymentsGrow, RefundsGrow, KeysGrow;
    ForeignInvisible(a, db, op, f);
    ExecInv(db, op, f);
    ExecGrows(db, op, f);
    AgreeFlips(a, db, Exec(db, op, f).0, db');
  }

  /** The same requests, and the same generated ids but for the shared sequence; nothing is said about the answers. */
  predicate SameRequests(calls: seq<Call>, others: seq<Call>)
  {
    |calls| == |others|
    && forall i :: 0 <= i < |calls| ==> calls[i].op == others[i].op && Alike(calls[i].op, calls[i].gen, others[i].gen)
  }

  predicate SameAnswers(calls: seq<Call>, others: seq<Call>)
  {
    |calls| == |others| && forall i :: 0 <= i < |calls| ==> calls[i].response == others[i].response
  }

  /** The requests of a serial run determine its answers, and its tables up to ledger ids. */
  lemma {:induction false} RequestsDetermine(calls: seq<Call>, others: seq<Call>)
    requires Serial(EMPTY_DB, calls) && Serial(EMPTY_DB, others) && SameRequests(calls, others)
    ensures SameAnswers(calls, others)
    ensures SameTables(Run(EMPTY_DB, calls), Run(EMPTY_DB, others))
  {
    hide Exec, Admissible, SameTables, Alike;
    if calls == [] {
      assert SameTables(EMPTY_DB, EMPTY_DB) by { SameTablesReflexive(EMPTY_DB); }
    } else {
      var n := |calls| - 1;
      RequestsDetermine(calls[..n], others[..n]);
      ExecSame(Run(EMPTY_DB, calls[..n]), Run(EMPTY_DB, others[..n]), calls[n].op, calls[n].gen, others[n].gen);
      assert calls == calls[..n] + [calls[n]] && others == others[..n] + [others[n]];
    }
  }

  /** The two states agree on everything that belongs to tenant a, but for the ids of ledger rows. */
  ghost predicate AgreeButIds(a: Uuid, db: Db, db': Db)
  {
    && PaymentsFor(db.payments, a) == PaymentsFor(db'.payments, a) && SlotsFor(db.paymentKeys, a) == SlotsFor(db'.paymentKeys, a)
    && RefundsFor(db.refunds, a) == RefundsFor(db'.refunds, a) && SlotsFor(db.refundKeys, a) == SlotsFor(db'.refundKeys, a)
    && SameLedger(LedgerFor(db.ledger, a), LedgerFor(db'.ledger, a))
  }

  lemma {:induction false} LedgerForSame(ledger: seq<LedgerRow>, ledger': seq<LedgerRow>, a: Uuid)
    requires SameLedger(ledger, ledger')
    ensures SameLedger(LedgerFor(ledger, a), LedgerFor(ledger', a))
  {
    if ledger != [] {
      var n := |ledger| - 1;
      LedgerForSame(ledger[..n], ledger'[..n], a);
      assert SameRow(ledger[n], ledger'[n]);
    }
  }

  /** Two mirrors with the same tables show the same to the tenant. */
  lemma MirrorsShowSame(a: Uuid, db: Db, own: Db, own': Db, db': Db)
    requires Agree(a, db, own) && SameTables(own, own') && Agree(a, db', own')
    ensures AgreeButIds(a, db, db')
  {
    LedgerForSame(own.ledger, own'.ledger, a);
    hide SameLedger, LedgerFor, PaymentsFor, RefundsFor, SlotsFor;
  }

  /**
   Non-interference. In two runs that put the same requests of one tenant, whatever the other tenants
   and the workers do around them, the tenant gets the same answers and ends with the same payments,
   refunds, keys and ledger. Only the ids of its ledger rows show that there are others.
   */
  lemma NonInterference(calls: seq<Call>, others: seq<Call>, a: Uuid)
    requires Serial(EMPTY_DB, calls) && Serial(EMPTY_DB, others)
    requires SameRequests(OwnCalls(calls, a), OwnCalls(others, a))
    ensures SameAnswers(OwnCalls(calls, a), OwnCalls(others, a))
    ensures AgreeButIds(a, Run(EMPTY_DB, calls), Run(EMPTY_DB, others))
  {
    hide Serial, Run, Inv, OwnCalls, Agree, SameRequests, SameAnswers, SameTables, AgreeButIds;
    OwnRunSame(calls, a);
    OwnRunSame(others, a);
    var own, own' := OwnCalls(calls, a), OwnCalls(others, a);
    RequestsDetermine(own, own');
    MirrorsShowSame(a, Run(EMPTY_DB, calls), Run(EMPTY_DB, own), Run(EMPTY_DB, own'), Run(EMPTY_DB, others));
  }
}
