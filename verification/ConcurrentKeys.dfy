/** Idempotency keys under concurrency: what the callers of racing transactions are told. */
module ConcurrentKeys {
  import opened Types
  import opened Text
  import opened Tables
  import opened Operations
  import opened Invariant
  import opened Growth
  import opened Idempotency
  import opened Statements
  import opened Serializability
  import opened Interleaving

  /** The answer t was given, if it was decided. */
  function AnswerTo(s: Sys, t: Tid): Response
    requires DecidedIn(s, t)
  {
    s.txs[t].pc.response
  }

  /** What the history says about a decided transaction. */
  lemma InHistory(actions: seq<Action>, t: Tid) returns (at: nat)
    requires DecidedIn(Execute(actions), t)
    ensures var s := Execute(actions);
            && Decided(s.txs[t].pc) == Some(at) && at < |s.hist| && at < |s.owners| && s.owners[at] == t
            && s.hist[at].op == s.txs[t].op && s.hist[at].response == AnswerTo(s, t) && Serial(EMPTY_DB, s.hist)
  {
    ExecuteOk(actions);
    hide Execute, Serial, Run, AllTxOk;
    at := Decided(Execute(actions).txs[t].pc).value;
  }

  /** A valid submission is answered with a payment or a mismatch, and a mismatch is repeated for the same request. */
  lemma SubmissionAnswers(calls: seq<Call>, i: nat, j: nat)
    requires Serial(EMPTY_DB, calls) && i < j < |calls| && Submission(calls[i].op) && Submission(calls[j].op)
    requires Slot(calls[i].op.tenant, calls[i].op.key) == Slot(calls[j].op.tenant, calls[j].op.key)
    ensures calls[i].response.PaymentReply? || calls[i].response == Failed(IdempotencyMismatch)
    ensures calls[j].response.PaymentReply? || calls[j].response == Failed(IdempotencyMismatch)
    ensures SameSubmission(calls[i].op, calls[j].op) && calls[i].response == Failed(IdempotencyMismatch) ==>
              calls[j].response == Failed(IdempotencyMismatch)
  {
    hide Inv, Serial, Run, Exec, Admissible, ValidPayment, BodyOf, SameSubmission, BookOf, Grows;
    SameBodies(calls[i].op, calls[j].op);
    Prefixes(calls, i, i);
    Prefixes(calls, i, j);
    var db, db' := Run(EMPTY_DB, calls[..i]), Run(EMPTY_DB, calls[..j]);
    SubmissionRefines(db, calls[i].op, calls[i].gen);
    SubmissionRefines(db', calls[j].op, calls[j].gen);
    if Slot(calls[i].op.tenant, calls[i].op.key) in BookOf(db) {
      EntryStays(db, db', Slot(calls[i].op.tenant, calls[i].op.key));
    }
  }

  /** What two submissions under one key are told, in whichever order they were decided. */
  predicate KeyAnswers(r: Response, q: Response, same: bool)
  {
    && (r.PaymentReply? || r == Failed(IdempotencyMismatch))
    && (q.PaymentReply? || q == Failed(IdempotencyMismatch))
    && (same ==> (r.PaymentReply? <==> q.PaymentReply?))
    && (r.PaymentReply? && q.PaymentReply? ==>
          && same && r.id == q.id && r.amount == q.amount && r.currency == q.currency && !(r.created && q.created))
  }

  lemma AnswersInRun(calls: seq<Call>, i: nat, j: nat)
    requires Serial(EMPTY_DB, calls) && i < j < |calls| && Submission(calls[i].op) && Submission(calls[j].op)
    requires Slot(calls[i].op.tenant, calls[i].op.key) == Slot(calls[j].op.tenant, calls[j].op.key)
    ensures KeyAnswers(calls[i].response, calls[j].response, SameSubmission(calls[i].op, calls[j].op))
  {
    hide Serial, Run, SameSubmission, ValidPayment;
    SubmissionAnswers(calls, i, j);
    if calls[i].response.PaymentReply? {
      FirstWriterWins(calls, i, j);
    }
  }

  lemma SameEitherWay(op: Op, other: Op)
    requires op.CreatePayment? && other.CreatePayment?
    ensures SameSubmission(op, other) <==> SameSubmission(other, op)
  {
    SameBodies(op, other);
    SameBodies(other, op);
    hide SameSubmission;
  }

  /**
   Two submissions under one tenant and key, racing in any interleaving, aborts included. Each is
   answered with a payment or a mismatch. When they ask for the same payment both get the same one of
   the two, the same payment if it is one, and at most one is told that it was created; when they do
   not, at most one gets a payment.
   */
  lemma RacingSubmissions(actions: seq<Action>, t: Tid, u: Tid)
    requires var s := Execute(actions); DecidedIn(s, t) && DecidedIn(s, u) && t != u
    requires var s := Execute(actions);
             && Submission(s.txs[t].op) && Submission(s.txs[u].op)
             && Slot(s.txs[t].op.tenant, s.txs[t].op.key) == Slot(s.txs[u].op.tenant, s.txs[u].op.key)
    ensures var s := Execute(actions);
            KeyAnswers(AnswerTo(s, t), AnswerTo(s, u), SameSubmission(s.txs[t].op, s.txs[u].op))
  {
    var i := InHistory(actions, t);
    var j := InHistory(actions, u);
    hide Execute, Serial, Run, SameSubmission, ValidPayment, DecidedIn;
    SameEitherWay(Execute(actions).txs[t].op, Execute(actions).txs[u].op);
    if i < j {
      AnswersInRun(Execute(actions).hist, i, j);
    } else {
      AnswersInRun(Execute(actions).hist, j, i);
    }
  }

  /** In a run, of two refund replies under one key the later names the same refund and created nothing. */
  lemma OneRefundPerKey(calls: seq<Call>, i: nat, j: nat)
    requires Serial(EMPTY_DB, calls) && i < j < |calls|
    requires calls[i].op.CreateRefund? && calls[i].response.RefundReply?
    requires calls[j].op.CreateRefund? && calls[j].response.RefundReply?
    requires Slot(calls[i].op.tenant, calls[i].op.key) == Slot(calls[j].op.tenant, calls[j].op.key)
    ensures calls[j].response.id == calls[i].response.id && !calls[j].response.created
    ensures calls[j].response.payment == calls[i].response.payment
  {
    hide Inv, Serial, Run, Exec, Admissible, ValidKey, SameIntent;
    Prefixes(calls, i, i);
    Prefixes(calls, i + 1, j);
    Prefixes(calls, i + 1, i + 1);
    RefundReplyStored(Run(EMPTY_DB, calls[..i]), calls[i].op, calls[i].gen);
    var after, db := Run(EMPTY_DB, calls[..i + 1]), Run(EMPTY_DB, calls[..j]);
    KeyHolder(after, calls[i].response.id);
    UsedKeyCreatesNothing(db, calls[j].op, calls[j].gen);
    RefundReplyStored(db, calls[j].op, calls[j].gen);
    hide Grows;
    StillHeld(after, db, calls[i].response.id);
  }

  lemma KeyHolder(db: Db, r: Uuid)
    requires Inv(db) && r in db.refunds
    ensures RefundSlot(db.refunds[r]) in db.refundKeys && db.refundKeys[RefundSlot(db.refunds[r])] == r
  {
  }

  lemma StillHeld(db: Db, db': Db, r: Uuid)
    requires Grows(db, db') && r in db.refunds
    ensures r in db'.refunds && db'.refunds[r].payment == db.refunds[r].payment
    ensures forall s | s in db.refundKeys :: s in db'.refundKeys && db'.refundKeys[s] == db.refundKeys[s]
  {
  }

  /** Racing refund requests under one key: every caller that gets a refund gets the same one, and at most one created it. */
  lemma RacingRefunds(actions: seq<Action>, t: Tid, u: Tid)
    requires var s := Execute(actions); DecidedIn(s, t) && DecidedIn(s, u) && t != u
    requires var s := Execute(actions);
             && s.txs[t].op.CreateRefund? && s.txs[u].op.CreateRefund?
             && Slot(s.txs[t].op.tenant, s.txs[t].op.key) == Slot(s.txs[u].op.tenant, s.txs[u].op.key)
    ensures var s := Execute(actions);
            var (r, q) := (AnswerTo(s, t), AnswerTo(s, u));
            r.RefundReply? && q.RefundReply? ==> r.id == q.id && r.payment == q.payment && !(r.created && q.created)
  {
    var i := InHistory(actions, t);
    var j := InHistory(actions, u);
    hide Execute, Serial, Run, DecidedIn;
    var hist := Execute(actions).hist;
    if hist[i].response.RefundReply? && hist[j].response.RefundReply? {
      if i < j {
        OneRefundPerKey(hist, i, j);
      } else {
        OneRefundPerKey(hist, j, i);
      }
    }
  }
}
