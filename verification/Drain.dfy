/** What one pass of the worker's loop does to the whole system, and what many passes add up to. */
module Drain {
  import opened Types
  import opened Tables
  import opened Operations
  import opened Invariant
  import opened Growth
  import opened Webhooks

  /** The committed tables, the hook settings and the three broker lists, oldest job first. */
  datatype Snapshot = Snapshot(
    db: Db, out: Outgoing, hooks: map<Uuid, Hook>,
    settlementJobs: seq<Uuid>, webhookJobs: seq<Uuid>, refundJobs: seq<Uuid>)

  function Unprocessed(db: Db): set<Uuid>
  {
    set o | o in db.outbox && !db.outbox[o].processed
  }

  /** Twice the settlements still to do, plus the deliveries still queued. */
  function Measure(a: Snapshot): nat
  {
    2 * (|Unprocessed(a.db)| + |a.settlementJobs| + |a.refundJobs|) + |a.webhookJobs|
  }

  predicate AllProcessed(db: Db)
  {
    forall o | o in db.outbox :: db.outbox[o].processed
  }

  predicate AtRest(a: Snapshot)
  {
    AllProcessed(a.db) && a.settlementJobs == [] && a.webhookJobs == [] && a.refundJobs == []
  }

  /** A deliverable row that no queued job will ever pick up. */
  predicate Stranded(a: Snapshot, x: Uuid)
  {
    x in a.out.rows && a.out.rows[x].status.Waiting? && a.out.rows[x].target.parses && x !in a.webhookJobs
  }

  ghost predicate SameRows(db: Db, db': Db)
  {
    Grows(db, db') && db'.payments.Keys == db.payments.Keys && db'.refunds.Keys == db.refunds.Keys
    && db'.outbox.Keys == db.outbox.Keys
  }

  ghost predicate DeliveriesStay(out: Outgoing, out': Outgoing)
  {
    forall x | x in out.rows ::
      x in out'.rows && var d := out'.rows[x];
      d == out.rows[x].(status := d.status, attempts := d.attempts, lastError := d.lastError)
  }

  ghost predicate NewlySettledDelivered(a: Snapshot, b: Snapshot)
  {
    forall s :: HasSucceeded(b.db, s) && !HasSucceeded(a.db, s) && Wanted(b.db, b.hooks, s) ==> HasDelivery(b.out, s)
  }

  ghost predicate NoneStranded(a: Snapshot, b: Snapshot)
  {
    forall x :: Stranded(b, x) ==> Stranded(a, x)
  }

  /** Undisturbed work: no row appears or goes, what is settled is enqueued, and no delivery is forgotten. */
  ghost predicate Advances(a: Snapshot, b: Snapshot)
  {
    SameRows(a.db, b.db) && b.hooks == a.hooks && DeliveriesStay(a.out, b.out)
    && NewlySettledDelivered(a, b) && NoneStranded(a, b)
  }

  lemma AdvancesReflexive(a: Snapshot)
    ensures Advances(a, a)
  {
    Reflexive(a.db);
    hide Grows;
  }

  lemma WantedStays(db: Db, db': Db, hooks: map<Uuid, Hook>, s: Subject)
    requires Grows(db, db') && HasSucceeded(db, s)
    ensures Wanted(db, hooks, s) <==> Wanted(db', hooks, s)
  {
    hide HookReady;
  }

  lemma HasDeliveryStays(out: Outgoing, out': Outgoing, s: Subject)
    requires DeliveriesStay(out, out') && HasDelivery(out, s)
    ensures HasDelivery(out', s)
  {
    var x :| x in out.rows && out.rows[x].subject == s;
    assert x in out'.rows && out'.rows[x].subject == s;
  }

  lemma AdvancesTransitive(a: Snapshot, b: Snapshot, c: Snapshot)
    requires Advances(a, b) && Advances(b, c)
    ensures Advances(a, c)
  {
    GrowsTransitive(a.db, b.db, c.db);
    hide Grows, Wanted, HasDelivery, Stranded, HasSucceeded;
    forall s | HasSucceeded(c.db, s) && !HasSucceeded(a.db, s) && Wanted(c.db, c.hooks, s)
      ensures HasDelivery(c.out, s)
    {
      if HasSucceeded(b.db, s) {
        WantedStays(b.db, c.db, c.hooks, s);
        HasDeliveryStays(b.out, c.out, s);
      }
    }
  }

  /** Only this subject's status may differ. */
  ghost predicate OnlySettles(db: Db, db': Db, s: Subject)
  {
    SameRows(db, db') && forall t | t != s :: HasSucceeded(db', t) <==> HasSucceeded(db, t)
  }

  lemma SettleOnlySettles(db: Db, s: Subject, ledgerId: nat)
    ensures OnlySettles(db, SettleSubject(db, s, ledgerId), s)
    ensures SettleSubject(db, s, ledgerId).outbox == db.outbox
  {
    SettleGrows(db, s, ledgerId);
    hide Grows, SettlePayment, SettleRefund;
    match s
    case ThePayment(p) => SettlePaymentWrites(db, p, ledgerId);
    case TheRefund(r) => SettleRefundWrites(db, r, ledgerId);
  }

  lemma ProcessedOnlySettles(db: Db, db': Db, s: Subject, o: Uuid)
    requires OnlySettles(db, db', s) && db'.outbox == db.outbox && Claimable(db, o)
    ensures OnlySettles(db, MarkProcessed(db', o), s)
    ensures Unprocessed(MarkProcessed(db', o)) == Unprocessed(db) - {o}
    ensures |Unprocessed(MarkProcessed(db', o))| == |Unprocessed(db)| - 1
  {
    MarkProcessedGrows(db', o);
    GrowsTransitive(db, db', MarkProcessed(db', o));
    hide Grows;
    assert o in Unprocessed(db);
    assert Unprocessed(MarkProcessed(db', o)) == Unprocessed(db) - {o};
  }

  /** Enqueueing after a settlement, with the insert's id and what became of the queue. */
  ghost predicate Enqueued(a: Snapshot, b: Snapshot, s: Subject, id: Uuid)
  {
    match ReadSettled(b.db, b.hooks, s)
    case None => b.out == a.out && b.webhookJobs == a.webhookJobs
    case Some(d) =>
      var (out, published) := InsertDelivery(a.out, d, id);
      b.out == out && b.webhookJobs == if published then a.webhookJobs + [id] else a.webhookJobs
  }

  lemma DraftSubject(db: Db, hooks: map<Uuid, Hook>, s: Subject)
    requires Wanted(db, hooks, s)
    ensures ReadSettled(db, hooks, s).value.subject == s
  {
  }

  /** Settling one subject and enqueueing its delivery is progress, whichever queue asked for it. */
  lemma SettleAndEnqueueAdvances(a: Snapshot, b: Snapshot, s: Subject, id: Uuid)
    requires OnlySettles(a.db, b.db, s) && OutgoingOk(a.out, b.db) && id !in a.out.rows
    requires b.hooks == a.hooks && Enqueued(a, b, s, id)
    ensures Advances(a, b) && |b.webhookJobs| <= |a.webhookJobs| + 1
    ensures Wanted(b.db, b.hooks, s) ==> HasDelivery(b.out, s)
    ensures a.webhookJobs <= b.webhookJobs
  {
    hide Grows, OutgoingOk, HasSucceeded, ReadSettled, InsertDelivery, FromSource;
    if Wanted(b.db, b.hooks, s) {
      var d := ReadSettled(b.db, b.hooks, s).value;
      ReadIsFromSource(b.db, b.hooks, s);
      InsertOk(a.out, b.db, d, id);
      DraftSubject(b.db, b.hooks, s);
    }
    hide Wanted, HasDelivery;
    assert forall x :: x in a.webhookJobs ==> x in b.webhookJobs;
  }

  /** A popped delivery leaves the queue either finished or with a URL that no request can be built for. */
  lemma DeliveryAdvances(a: Snapshot, b: Snapshot, x: Uuid)
    requires a.webhookJobs != [] && a.webhookJobs[0] == x && b.webhookJobs == a.webhookJobs[1..]
    requires b.db == a.db && b.hooks == a.hooks
    requires x !in a.out.rows ==> b.out == a.out
    requires x in a.out.rows ==>
               x in b.out.rows && b.out.rows == a.out.rows[x := b.out.rows[x]]
               && var d := b.out.rows[x];
               && d == a.out.rows[x].(status := d.status, attempts := d.attempts, lastError := d.lastError)
               && (d.status.Waiting? ==> !d.target.parses)
    ensures Advances(a, b)
    ensures Measure(b) < Measure(a) + 2 * (|b.settlementJobs| + |b.refundJobs| - |a.settlementJobs| - |a.refundJobs|)
  {
    Reflexive(a.db);
    hide Grows, HasSucceeded;
    assert forall y | y != x :: y in a.webhookJobs ==> y in b.webhookJobs by {
      assert a.webhookJobs == [x] + b.webhookJobs;
    }
  }

  // ---------- what was asked for is done, in the order it was asked for ----------

  /** A job's subject, if there is one, has succeeded, and has its delivery if that is wanted. */
  ghost predicate Served(b: Snapshot, s: Subject)
  {
    (Exists(b.db, s) ==> HasSucceeded(b.db, s)) && (Wanted(b.db, b.hooks, s) ==> HasDelivery(b.out, s))
  }

  /** What is gone from the settlement and refund lists of a has been served by the time of b. */
  ghost predicate JobsServed(a: Snapshot, b: Snapshot)
  {
    && |b.settlementJobs| <= |a.settlementJobs| && |b.refundJobs| <= |a.refundJobs|
    && b.settlementJobs == a.settlementJobs[|a.settlementJobs| - |b.settlementJobs|..]
    && b.refundJobs == a.refundJobs[|a.refundJobs| - |b.refundJobs|..]
    && (forall i :: 0 <= i < |a.settlementJobs| - |b.settlementJobs| ==> Served(b, ThePayment(a.settlementJobs[i])))
    && (forall i :: 0 <= i < |a.refundJobs| - |b.refundJobs| ==> Served(b, TheRefund(a.refundJobs[i])))
  }

  lemma ServedStays(a: Snapshot, b: Snapshot, s: Subject)
    requires Advances(a, b) && Served(a, s)
    ensures Served(b, s)
  {
    if Exists(a.db, s) {
      WantedStays(a.db, b.db, a.hooks, s);
      hide Wanted, HasDelivery;
      if HasDelivery(a.out, s) {
        HasDeliveryStays(a.out, b.out, s);
      }
    } else {
      assert !Exists(b.db, s);
      hide HookReady;
    }
  }

  lemma JobsServedStays(a: Snapshot, b: Snapshot, c: Snapshot)
    requires JobsServed(a, b) && JobsServed(b, c) && Advances(b, c)
    ensures JobsServed(a, c)
  {
    hide Served, Advances;
    forall i | 0 <= i < |a.settlementJobs| - |c.settlementJobs| ensures Served(c, ThePayment(a.settlementJobs[i])) {
      var k := |a.settlementJobs| - |b.settlementJobs|;
      if i < k {
        ServedStays(b, c, ThePayment(a.settlementJobs[i]));
      } else {
        assert b.settlementJobs[i - k] == a.settlementJobs[i];
      }
    }
    forall i | 0 <= i < |a.refundJobs| - |c.refundJobs| ensures Served(c, TheRefund(a.refundJobs[i])) {
      var k := |a.refundJobs| - |b.refundJobs|;
      if i < k {
        ServedStays(b, c, TheRefund(a.refundJobs[i]));
      } else {
        assert b.refundJobs[i - k] == a.refundJobs[i];
      }
    }
  }

  /** o is an unprocessed row, and none is older. */
  predicate Oldest(db: Db, o: Uuid)
  {
    Claimable(db, o) && forall u | u in db.outbox && !db.outbox[u].processed :: db.outbox[o].createdAt <= db.outbox[u].createdAt
  }

  /** These rows were processed since start, each once and by creation time, and before every row still waiting. */
  ghost predicate ProcessedInOrder(start: Db, now: Db, order: seq<Uuid>)
  {
    && now.outbox.Keys == start.outbox.Keys
    && (forall o | o in start.outbox :: now.outbox[o].createdAt == start.outbox[o].createdAt)
    && (forall o :: o in order <==> o in Unprocessed(start) && o !in Unprocessed(now))
    && Unprocessed(now) <= Unprocessed(start)
    && (forall i, j :: 0 <= i < j < |order| ==>
          order[i] in start.outbox && order[j] in start.outbox && order[i] != order[j]
          && start.outbox[order[i]].createdAt <= start.outbox[order[j]].createdAt)
    && (forall o, u | o in order && u in Unprocessed(now) && o in start.outbox && u in start.outbox ::
          start.outbox[o].createdAt <= start.outbox[u].createdAt)
  }

  lemma OrderStarts(db: Db)
    ensures ProcessedInOrder(db, db, [])
  {
  }

  lemma OrderGoesOn(start: Db, now: Db, next: Db, order: seq<Uuid>, o: Uuid)
    requires ProcessedInOrder(start, now, order) && Oldest(now, o)
    requires next.outbox == now.outbox[o := now.outbox[o].(processed := true)]
    ensures ProcessedInOrder(start, next, order + [o])
  {
    assert o in Unprocessed(now) && Unprocessed(next) == Unprocessed(now) - {o};
    var order' := order + [o];
    forall u ensures u in order' <==> u in order || u == o {
    }
    forall i, j | 0 <= i < j < |order'|
      ensures order'[i] in start.outbox && order'[j] in start.outbox && order'[i] != order'[j]
              && start.outbox[order'[i]].createdAt <= start.outbox[order'[j]].createdAt
    {
      assert order'[i] in order;
      assert j < |order| ==> order'[j] == order[j];
    }
  }

  /** Nothing left to do means everything that was asked for is done. */
  lemma AllProcessedMeansSettled(db: Db)
    requires Inv(db) && AllProcessed(db)
    ensures forall p | p in db.payments :: db.payments[p].status.Succeeded?
    ensures forall r | r in db.refunds :: db.refunds[r].status.Succeeded?
  {
    hide PaymentsOk, RefundsOk, LedgerRowsOk, Explained;
    forall p | p in db.payments ensures db.payments[p].status.Succeeded? {
      assert Exists(db, ThePayment(p));
      var o :| JobFor(db, ThePayment(p), o);
    }
    forall r | r in db.refunds ensures db.refunds[r].status.Succeeded? {
      assert Exists(db, TheRefund(r));
      var o :| JobFor(db, TheRefund(r), o);
    }
  }
}
