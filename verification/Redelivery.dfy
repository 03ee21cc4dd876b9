/** Broker jobs may be duplicated and reordered: the outcome depends only on which subjects were delivered. */
module Redelivery {
  import opened Types
  import opened Tables
  import opened History
  import opened Operations
  import opened Invariant

  datatype Job = Job(subject: Subject, ledgerId: nat)

  /** Settling jobs in the order they are popped. */
  function SettleAll(db: Db, jobs: seq<Job>): Db
  {
    if jobs == [] then db
    else
      var n := |jobs| - 1;
      SettleSubject(SettleAll(db, jobs[..n]), jobs[n].subject, jobs[n].ledgerId)
  }

  ghost predicate IdsFresh(db: Db, jobs: seq<Job>)
  {
    jobs == [] ||
    var n := |jobs| - 1;
    IdsFresh(db, jobs[..n]) && SubjectIdFresh(SettleAll(db, jobs[..n]), jobs[n].subject, jobs[n].ledgerId)
  }

  function Subjects(jobs: seq<Job>): set<Subject> { set i | 0 <= i < |jobs| :: jobs[i].subject }

  // ---------- the tables ----------

  /** The tables after settling exactly these subjects, in no particular order. */
  function SettledPayments(rows: map<Uuid, Payment>, ss: set<Subject>): map<Uuid, Payment>
  {
    map p | p in rows :: if ThePayment(p) in ss then rows[p].(status := Succeeded) else rows[p]
  }

  function SettledRefunds(rows: map<Uuid, Refund>, ss: set<Subject>): map<Uuid, Refund>
  {
    map r | r in rows :: if TheRefund(r) in ss then rows[r].(status := Succeeded) else rows[r]
  }

  lemma SettleOnePayment(db: Db, p: Uuid, ledgerId: nat)
    ensures SettlePayment(db, p, ledgerId).payments == SettledPayments(db.payments, {ThePayment(p)})
    ensures SettlePayment(db, p, ledgerId).refunds == SettledRefunds(db.refunds, {ThePayment(p)})
  {
    SettlePaymentWrites(db, p, ledgerId);
    hide SettlePayment;
  }

  lemma SettleOneRefund(db: Db, r: Uuid, ledgerId: nat)
    requires RefundsOk(db)
    ensures SettleRefund(db, r, ledgerId).payments == SettledPayments(db.payments, {TheRefund(r)})
    ensures SettleRefund(db, r, ledgerId).refunds == SettledRefunds(db.refunds, {TheRefund(r)})
  {
    assert r in db.refunds ==> db.refunds[r].payment in db.payments && !RefundStuck(db, r);
    SettleRefundWrites(db, r, ledgerId);
    hide SettleRefund, RefundsOk, RefundStuck;
  }

  lemma SettledTwice(payments: map<Uuid, Payment>, refunds: map<Uuid, Refund>, ss: set<Subject>, s: Subject)
    ensures SettledPayments(SettledPayments(payments, ss), {s}) == SettledPayments(payments, ss + {s})
    ensures SettledRefunds(SettledRefunds(refunds, ss), {s}) == SettledRefunds(refunds, ss + {s})
  {
  }

  /** Whatever the order and the duplicates, the tables end as if each named subject were settled once. */
  lemma {:induction false} SettleAllTables(db: Db, jobs: seq<Job>)
    requires Inv(db) && IdsFresh(db, jobs)
    ensures Inv(SettleAll(db, jobs))
    ensures SettleAll(db, jobs).payments == SettledPayments(db.payments, Subjects(jobs))
    ensures SettleAll(db, jobs).refunds == SettledRefunds(db.refunds, Subjects(jobs))
  {
    hide PaymentsOk, RefundsOk, LedgerRowsOk, Explained, OutboxOk, SubjectIdFresh, SettlePayment, SettleRefund;
    if jobs == [] {
      assert SettledPayments(db.payments, Subjects(jobs)) == db.payments;
      assert SettledRefunds(db.refunds, Subjects(jobs)) == db.refunds;
    } else {
      var n := |jobs| - 1;
      var before, s := SettleAll(db, jobs[..n]), jobs[n].subject;
      SettleAllTables(db, jobs[..n]);
      SettleSubjectInv(before, s, jobs[n].ledgerId);
      match s {
        case ThePayment(p) => SettleOnePayment(before, p, jobs[n].ledgerId);
        case TheRefund(r) => SettleOneRefund(before, r, jobs[n].ledgerId);
      }
      SettledTwice(db.payments, db.refunds, Subjects(jobs[..n]), s);
      SubjectsOfLast(jobs);
    }
  }

  lemma SubjectsOfLast(jobs: seq<Job>)
    requires jobs != []
    ensures Subjects(jobs) == Subjects(jobs[..|jobs| - 1]) + {jobs[|jobs| - 1].subject}
  {
    var n := |jobs| - 1;
    forall s | s in Subjects(jobs) ensures s in Subjects(jobs[..n]) + {jobs[n].subject} {
      var i :| 0 <= i < |jobs| && jobs[i].subject == s;
      assert i < n ==> jobs[..n][i].subject == s;
    }
    forall s | s in Subjects(jobs[..n]) ensures s in Subjects(jobs) {
      var i :| 0 <= i < n && jobs[..n][i].subject == s;
      assert jobs[i].subject == s;
    }
  }

  // ---------- the ledger, up to the order of its rows ----------

  /** The event that a used dedupe key stands for, read off the account. */
  function EventFor(acc: Account, k: DedupeKey): Option<Event>
  {
    if !Happened(acc, k) then None
    else
      match k
      case AcceptedKey => if IsInt64(acc.amount) then Some(PaymentAccepted(acc.amount, acc.currency)) else None
      case SettledKey => Some(SettlementCompleted)
      case RequestedKey(r) =>
        if IsInt64(acc.refunds[r].amount)
        then Some(RefundRequested(r, acc.refunds[r].amount, acc.refunds[r].currency)) else None
      case RefundedKey(r) => Some(RefundSucceeded(r))
  }

  predicate IsInt64(x: int) { -MAX_INT64 - 1 <= x <= MAX_INT64 }

  lemma EventForNext(h: State, last: Event, e: Event)
    requires Next(h, last).Open?
    ensures EventFor(Next(h, last).account, KeyOf(e)) == Some(e)
            <==> (h.Open? && EventFor(h.account, KeyOf(e)) == Some(e)) || e == last
    ensures h.Open? ==> EventFor(h.account, KeyOf(last)) != Some(last)
  {
  }

  /** A legal history holds each of its events once, and which ones is decided by the account it leads to. */
  lemma {:induction false} EventsDetermined(events: seq<Event>, e: Event)
    requires Replay(events).Open?
    ensures multiset(events)[e] == if EventFor(Replay(events).account, KeyOf(e)) == Some(e) then 1 else 0
  {
    var n := |events| - 1;
    var front, last := events[..n], events[n];
    assert events == front + [last];
    EventForNext(Replay(front), last, e);
    EventForNext(Replay(front), last, last);
    if front != [] {
      OnlyEmptyIsUnopened(front);
      EventsDetermined(front, e);
    }
  }

  lemma SameAccountSameEvents(left: seq<Event>, right: seq<Event>)
    requires Replay(left).Open? && Replay(left) == Replay(right)
    ensures multiset(left) == multiset(right)
  {
    forall e ensures multiset(left)[e] == multiset(right)[e] {
      EventsDetermined(left, e);
      EventsDetermined(right, e);
    }
  }

  lemma SameTablesSameLedger(db: Db, db': Db, p: Uuid)
    requires Inv(db) && Inv(db') && db.payments == db'.payments && db.refunds == db'.refunds
    ensures multiset(EventsOf(db.ledger, p)) == multiset(EventsOf(db'.ledger, p))
  {
    hide PaymentsOk, RefundsOk, OutboxOk, Replay, EventsOf, SumAmounts;
    assert RefundsOf(db, p) == RefundsOf(db', p);
    if p in db.payments {
      SameAccountSameEvents(EventsOf(db.ledger, p), EventsOf(db'.ledger, p));
    } else {
      NoRowsNoEvents(db.ledger, p);
      NoRowsNoEvents(db'.ledger, p);
    }
  }

  /**
   Confluence. Two deliveries of the same set of settlement jobs, in any order and with any
   duplicates, end with the same tables and, payment by payment, the same ledger events.
   */
  lemma RedeliveryConfluent(db: Db, jobs: seq<Job>, jobs': seq<Job>, p: Uuid)
    requires Inv(db) && IdsFresh(db, jobs) && IdsFresh(db, jobs') && Subjects(jobs) == Subjects(jobs')
    ensures var (a, b) := (SettleAll(db, jobs), SettleAll(db, jobs'));
            && a.payments == b.payments && a.refunds == b.refunds
            && multiset(EventsOf(a.ledger, p)) == multiset(EventsOf(b.ledger, p))
  {
    hide Inv, IdsFresh, SettleAll, EventsOf, SettledPayments, SettledRefunds;
    SettleAllTables(db, jobs);
    SettleAllTables(db, jobs');
    SameTablesSameLedger(SettleAll(db, jobs), SettleAll(db, jobs'), p);
  }
}
