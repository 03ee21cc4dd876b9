/** The worker's dispatch loop over the tables and the broker lists, run without faults until it is idle. */
module Worker {
  import opened Types
  import opened Tables
  import opened Operations
  import opened Invariant
  import opened Runs
  import opened Webhooks
  import opened Attempts
  import opened Database
  import opened Drain

  /** What the outside supplies: ids for new deliveries, never repeated, and the answers to every POST in order. */
  datatype Outside = Outside(ids: nat -> Uuid, net: Network)

  class Loop {
    const db: Store
    var settlementJobs: seq<Uuid>
    var webhookJobs: seq<Uuid>
    var refundJobs: seq<Uuid>
    /** Ids drawn and POSTs made so far. */
    var drawn: nat
    var posted: nat

    ghost function Snap(): Snapshot
      reads this, db
    {
      Snapshot(db.Money(), db.Out(), db.hooks, settlementJobs, webhookJobs, refundJobs)
    }

    /** The ids still to be drawn are distinct and unused. */
    ghost predicate IdsUnused(env: Outside)
      reads this, db
    {
      && (forall i: nat, j: nat :: env.ids(i) == env.ids(j) ==> i == j)
      && (forall i: nat :: i >= drawn ==> env.ids(i) !in db.deliveries)
    }

    constructor (store: Store)
      ensures db == store && settlementJobs == webhookJobs == refundJobs == [] && drawn == posted == 0
    {
      db := store;
      settlementJobs, webhookJobs, refundJobs := [], [], [];
      drawn, posted := 0, 0;
    }

    /** Enqueue...IfNeeded: insert the delivery if it is wanted and new, then publish it. */
    method Enqueue(s: Subject, env: Outside)
      requires db.Valid() && IdsUnused(env)
      modifies this`webhookJobs, this`drawn, db`deliveries, db`deliveryKeys
      ensures db.Valid() && IdsUnused(env)
      ensures Enqueued(old(Snap()), Snap(), s, old(env.ids(drawn)))
    {
      hide Inv, OutgoingOk, ReadSettled, NewDelivery;
      var id := env.ids(drawn);
      var published := db.Enqueue(s, id);
      drawn := drawn + 1;
      if published {
        webhookJobs := webhookJobs + [id];
      }
    }

    /** SettleMock for a popped job and the enqueue that follows it. */
    method SettleAndEnqueue(s: Subject, env: Outside)
      requires db.Valid() && IdsUnused(env)
      modifies this`webhookJobs, this`drawn, db
      ensures db.Valid() && IdsUnused(env)
      ensures Advances(old(Snap()), Snap()) && |webhookJobs| <= old(|webhookJobs|) + 1
      ensures db.outbox == old(db.outbox) && old(webhookJobs) <= webhookJobs && Served(Snap(), s)
    {
      hide Inv, OutgoingOk, Enqueued, OnlySettles, Advances, SettleSubject, HasSucceeded, Wanted, HasDelivery;
      ghost var a, id, ledgerId := Snap(), env.ids(drawn), db.nextLedgerId;
      SettlesIfThere(a.db, s, ledgerId);
      var _ := db.SettleJob(s);
      SettleOnlySettles(a.db, s, ledgerId);
      ghost var mid := Snap();
      Enqueue(s, env);
      SameEnqueue(a, mid, Snap(), s, id);
      SettleAndEnqueueAdvances(a, Snap(), s, id);
    }

    static lemma SettlesIfThere(was: Db, s: Subject, ledgerId: nat)
      requires Inv(was)
      ensures Exists(SettleSubject(was, s, ledgerId), s) ==> HasSucceeded(SettleSubject(was, s, ledgerId), s)
    {
      if Exists(was, s) {
        SettleSucceeds(was, s, ledgerId);
      } else {
        hide Inv, AppendLedger;
      }
    }

    static lemma SameEnqueue(a: Snapshot, mid: Snapshot, b: Snapshot, s: Subject, id: Uuid)
      requires mid.out == a.out && mid.webhookJobs == a.webhookJobs && Enqueued(mid, b, s, id)
      ensures Enqueued(a, b, s, id)
    {
      hide ReadSettled, InsertDelivery;
    }

    /** tryProcessOutbox and the enqueue that follows it; idle only when every row is processed. */
    method OutboxAndEnqueue(env: Outside) returns (found: bool, ghost claim: Option<Uuid>)
      requires db.Valid() && IdsUnused(env)
      modifies this`webhookJobs, this`drawn, db
      ensures db.Valid() && IdsUnused(env)
      ensures found <==> !AllProcessed(old(db.Money()))
      ensures !found ==> Snap() == old(Snap())
      ensures found ==> Advances(old(Snap()), Snap()) && |webhookJobs| <= old(|webhookJobs|) + 1
      ensures found ==> |Unprocessed(db.Money())| == old(|Unprocessed(db.Money())|) - 1
      ensures found <==> claim.Some?
      ensures found ==> Oldest(old(db.Money()), claim.value) && old(webhookJobs) <= webhookJobs
      ensures found ==> db.outbox == old(db.outbox)[claim.value := old(db.outbox)[claim.value].(processed := true)]
    {
      hide Inv, OutgoingOk, Enqueued, OnlySettles, Advances, SettleSubject, Exec;
      ghost var a, id, ledgerId := Snap(), env.ids(drawn), db.nextLedgerId;
      var r;
      r, claim := db.ProcessOutbox();
      found := r.Followup?;
      if found {
        var s := r.subject;
        OutboxSettles(a.db, claim, ledgerId);
        ghost var mid := Snap();
        Enqueue(s, env);
        SameEnqueue(a, mid, Snap(), s, id);
        SettleAndEnqueueAdvances(a, Snap(), s, id);
      }
    }

    static lemma OutboxSettles(was: Db, claim: Option<Uuid>, ledgerId: nat)
      requires Inv(was) && claim.Some? && Claimable(was, claim.value)
      ensures Decode(was.outbox[claim.value]).Some?
      ensures var (after, r) := Exec(was, Op.ProcessOutbox, Fresh(Uuid(""), ledgerId, Uuid(""), 0, claim));
              && OnlySettles(was, after, Decode(was.outbox[claim.value]).value)
              && |Unprocessed(after)| == |Unprocessed(was)| - 1
              && after.outbox == was.outbox[claim.value := was.outbox[claim.value].(processed := true)]
    {
      hide Inv, OnlySettles, SettleSubject, MarkProcessed, Stuck;
      var o := claim.value;
      RowNotPoison(was, o);
      var s := Decode(was.outbox[o]).value;
      SettleOnlySettles(was, s, ledgerId);
      ProcessedOnlySettles(was, SettleSubject(was, s, ledgerId), s, o);
      Marked(SettleSubject(was, s, ledgerId), o);
    }

    static lemma Marked(was: Db, o: Uuid)
      requires o in was.outbox
      ensures MarkProcessed(was, o).outbox == was.outbox[o := was.outbox[o].(processed := true)]
    {
    }

    /** ProcessDelivery for the popped id. */
    method Deliver(env: Outside) returns (ghost slept: nat)
      requires db.Valid() && IdsUnused(env) && webhookJobs != []
      modifies this`webhookJobs, this`posted, db`deliveries
      ensures db.Valid() && IdsUnused(env)
      ensures Advances(old(Snap()), Snap()) && webhookJobs == old(webhookJobs)[1..] && posted >= old(posted)
      ensures var id := old(webhookJobs)[0];
              if id in old(db.deliveries) then
                && db.deliveries == old(db.deliveries)[id := db.deliveries[id]]
                && Processed(old(db.deliveries)[id], db.hooks[old(db.deliveries)[id].tenant].secret.value, env.net,
                             old(posted), Outcome(db.deliveries[id], posted - old(posted), slept))
              else db.deliveries == old(db.deliveries)
    {
      hide Inv, OutgoingOk, AttemptsOk, Advances, Attempt, Processed;
      ghost var a := Snap();
      WellKept(a.out, a.db);
      var id := webhookJobs[0];
      webhookJobs := webhookJobs[1..];
      var posts, time := db.ProcessDelivery(id, env.net, posted);
      posted := posted + posts;
      slept := time;
      if id in a.out.rows {
        PopAdvances(a, Snap(), id, db.hooks[a.out.rows[id].tenant].secret.value, env.net, old(posted));
      } else {
        DeliveryAdvances(a, Snap(), id);
      }
    }

    static lemma WellKept(out: Outgoing, money: Db)
      requires OutgoingOk(out, money)
      ensures forall x | x in out.rows :: AttemptsOk(out.rows[x])
    {
    }

    static lemma PopAdvances(a: Snapshot, b: Snapshot, id: Uuid, secret: string, net: Network, from: nat)
      requires a.webhookJobs != [] && a.webhookJobs[0] == id && b.webhookJobs == a.webhookJobs[1..]
      requires b.db == a.db && b.hooks == a.hooks && id in a.out.rows && AttemptsOk(a.out.rows[id])
      requires b.out.rows == a.out.rows[id := Attempt(a.out.rows[id], secret, net, from).row]
      ensures Advances(a, b)
    {
      AttemptKeeps(a.out.rows[id], secret, net, from);
      hide Attempt, Advances, Measure, AttemptsOk;
      DeliveryAdvances(a, b, id);
    }

    /** Which list the pass popped, when no outbox row was waiting; the lists themselves lose that job and no other. */
    twostate predicate PoppedInTurn()
      reads this, db
    {
      if old(settlementJobs) != [] then
        && settlementJobs == old(settlementJobs)[1..] && refundJobs == old(refundJobs) && old(webhookJobs) <= webhookJobs
        && Served(Snap(), ThePayment(old(settlementJobs)[0]))
      else if old(webhookJobs) != [] then
        settlementJobs == [] && webhookJobs == old(webhookJobs)[1..] && refundJobs == old(refundJobs)
      else if old(refundJobs) != [] then
        && settlementJobs == [] && refundJobs == old(refundJobs)[1..]
        && Served(Snap(), TheRefund(old(refundJobs)[0]))
      else Snap() == old(Snap())
    }

    /**
     One pass of the loop: the oldest unprocessed outbox row if there is one; otherwise BRPOP, which
     looks at the settlement list first, then the webhook list, then the refund list.
     */
    method Pass(env: Outside) returns (idle: bool, ghost claim: Option<Uuid>)
      requires db.Valid() && IdsUnused(env)
      modifies this`settlementJobs, this`webhookJobs, this`refundJobs, this`drawn, this`posted, db
      ensures db.Valid() && IdsUnused(env)
      ensures idle <==> AtRest(old(Snap()))
      ensures idle ==> Snap() == old(Snap())
      ensures !idle ==> Advances(old(Snap()), Snap()) && Measure(Snap()) < old(Measure(Snap()))
      ensures claim.Some? <==> !AllProcessed(old(db.Money()))
      ensures claim.Some? ==>
                && Oldest(old(db.Money()), claim.value)
                && db.outbox == old(db.outbox)[claim.value := old(db.outbox)[claim.value].(processed := true)]
                && settlementJobs == old(settlementJobs) && refundJobs == old(refundJobs) && old(webhookJobs) <= webhookJobs
      ensures claim.None? ==> db.outbox == old(db.outbox) && PoppedInTurn()
      ensures JobsServed(old(Snap()), Snap())
    {
      hide Inv, OutgoingOk, Advances, Unprocessed, AllProcessed, Served, Oldest, JobsServed;
      idle := false;
      ghost var a := Snap();
      var found;
      found, claim := OutboxAndEnqueue(env);
      if found {
        PassServes(a, Snap(), false, false);
        return;
      }
      UnprocessedSame(a.db, db.Money());
      if settlementJobs != [] {
        var p := settlementJobs[0];
        settlementJobs := settlementJobs[1..];
        ghost var popped := Snap();
        SettleAndEnqueue(ThePayment(p), env);
        PassServes(a, Snap(), true, false);
        AdvancesAfterPop(a, popped, Snap());
        UnprocessedSame(a.db, db.Money());
      } else if webhookJobs != [] {
        ghost var slept := Deliver(env);
        PassServes(a, Snap(), false, false);
        UnprocessedSame(a.db, db.Money());
      } else if refundJobs != [] {
        var r := refundJobs[0];
        refundJobs := refundJobs[1..];
        ghost var popped := Snap();
        SettleAndEnqueue(TheRefund(r), env);
        PassServes(a, Snap(), false, true);
        AdvancesAfterPop(a, popped, Snap());
        UnprocessedSame(a.db, db.Money());
      } else {
        idle := true;
        PassServes(a, Snap(), false, false);
      }
    }

    static lemma UnprocessedSame(was: Db, now: Db)
      ensures was.outbox == now.outbox ==> Unprocessed(was) == Unprocessed(now)
    {
    }

    /** A pass serves the job it pops, and no other list changes its jobs. */
    static lemma PassServes(a: Snapshot, b: Snapshot, payment: bool, refund: bool)
      requires b.settlementJobs == (if payment && a.settlementJobs != [] then a.settlementJobs[1..] else a.settlementJobs)
      requires b.refundJobs == (if refund && a.refundJobs != [] then a.refundJobs[1..] else a.refundJobs)
      requires payment && a.settlementJobs != [] ==> Served(b, ThePayment(a.settlementJobs[0]))
      requires refund && a.refundJobs != [] ==> Served(b, TheRefund(a.refundJobs[0]))
      ensures JobsServed(a, b)
    {
      hide Served;
    }

    /** The settlement and refund lists are not part of what Advances compares. */
    static lemma AdvancesAfterPop(a: Snapshot, popped: Snapshot, b: Snapshot)
      requires popped == a.(settlementJobs := popped.settlementJobs, refundJobs := popped.refundJobs)
      requires Advances(popped, b)
      ensures Advances(a, b)
    {
      hide SameRows, DeliveriesStay, Wanted, HasSucceeded, HasDelivery;
      assert forall x :: Stranded(popped, x) <==> Stranded(a, x);
    }

    /**
     Fault-free draining. From any valid state, with no new requests and the hooks left alone, the
     loop comes to rest within Measure passes: nothing is left to process, every payment and refund
     has succeeded, the waiting outbox rows were processed in the order of their creation, the jobs in
     the lists have been served, each subject settled on the way that wants a webhook has exactly one
     delivery, and a delivery still waiting has a URL no request can be built for or was in no queue at the start.
     */
    method RunUntilIdle(env: Outside) returns (passes: nat, ghost order: seq<Uuid>)
      requires db.Valid() && IdsUnused(env)
      modifies this`settlementJobs, this`webhookJobs, this`refundJobs, this`drawn, this`posted, db
      ensures db.Valid() && AtRest(Snap()) && passes <= old(Measure(Snap()))
      ensures Advances(old(Snap()), Snap())
      ensures forall p | p in db.payments :: db.payments[p].status.Succeeded?
      ensures forall r | r in db.refunds :: db.refunds[r].status.Succeeded?
      ensures forall s | HasSucceeded(db.Money(), s) && !HasSucceeded(old(db.Money()), s) && Wanted(db.Money(), db.hooks, s) ::
                exists x :: x in db.deliveries && db.deliveries[x].subject == s
                            && forall y | y in db.deliveries && db.deliveries[y].subject == s :: y == x
      ensures forall x | x in db.deliveries && db.deliveries[x].status.Waiting? ::
                !db.deliveries[x].target.parses
                || (x in old(db.deliveries) && old(db.deliveries)[x].status.Waiting? && x !in old(webhookJobs))
      ensures forall p | p in old(settlementJobs) :: Served(Snap(), ThePayment(p))
      ensures forall r | r in old(refundJobs) :: Served(Snap(), TheRefund(r))
      ensures ProcessedInOrder(old(db.Money()), db.Money(), order)
    {
      passes, order := 0, [];
      ghost var start := Snap();
      AdvancesReflexive(start);
      OrderStarts(start.db);
      PassServes(start, start, false, false);
      hide SameRows, DeliveriesStay, NewlySettledDelivered, NoneStranded, Served, ProcessedInOrder, JobsServed, Inv, OutgoingOk;
      var idle := false;
      while !idle
        invariant db.Valid() && IdsUnused(env) && Advances(start, Snap())
        invariant idle ==> AtRest(Snap())
        invariant passes + Measure(Snap()) <= Measure(start)
        invariant JobsServed(start, Snap()) && ProcessedInOrder(start.db, db.Money(), order)
        decreases !idle, Measure(Snap())
      {
        hide *;
        ghost var before := Snap();
        ghost var claim;
        idle, claim := Pass(env);
        if !idle {
          AdvancesTransitive(start, before, Snap());
          JobsServedStays(start, before, Snap());
          passes := passes + 1;
        }
        PassKeepsOrder(start.db, before.db, db.Money(), order, claim);
        order := if claim.Some? then order + [claim.value] else order;
      }
      AllProcessedMeansSettled(db.Money());
      AtRestMeans(start, Snap());
      AllServed(start, Snap());
    }

    static lemma AllServed(a: Snapshot, b: Snapshot)
      requires JobsServed(a, b) && b.settlementJobs == [] && b.refundJobs == []
      ensures forall p | p in a.settlementJobs :: Served(b, ThePayment(p))
      ensures forall x | x in a.refundJobs :: Served(b, TheRefund(x))
    {
      hide Served;
    }

    static lemma PassKeepsOrder(start: Db, before: Db, after: Db, order: seq<Uuid>, claim: Option<Uuid>)
      requires ProcessedInOrder(start, before, order)
      requires match claim
               case None => after.outbox == before.outbox
               case Some(o) =>
                 Oldest(before, o) && after.outbox == before.outbox[o := before.outbox[o].(processed := true)]
      ensures ProcessedInOrder(start, after, if claim.Some? then order + [claim.value] else order)
    {
      if claim.Some? {
        OrderGoesOn(start, before, after, order, claim.value);
      } else {
        UnprocessedSame(before, after);
        hide Unprocessed;
      }
    }

    /** What Advances comes to once the lists are empty. */
    static lemma AtRestMeans(a: Snapshot, b: Snapshot)
      requires Advances(a, b) && AtRest(b) && OutgoingOk(b.out, b.db)
      ensures forall s | HasSucceeded(b.db, s) && !HasSucceeded(a.db, s) && Wanted(b.db, b.hooks, s) ::
                exists x :: x in b.out.rows && b.out.rows[x].subject == s
                            && forall y | y in b.out.rows && b.out.rows[y].subject == s :: y == x
      ensures forall x | x in b.out.rows && b.out.rows[x].status.Waiting? && b.out.rows[x].target.parses :: Stranded(a, x)
    {
      hide SameRows, DeliveriesStay, Wanted, HasSucceeded, OutgoingOk;
      forall s | HasSucceeded(b.db, s) && !HasSucceeded(a.db, s) && Wanted(b.db, b.hooks, s)
        ensures exists x :: x in b.out.rows && b.out.rows[x].subject == s
                            && forall y | y in b.out.rows && b.out.rows[y].subject == s :: y == x
      {
        assert HasDelivery(b.out, s);
        var x :| x in b.out.rows && b.out.rows[x].subject == s;
        forall y | y in b.out.rows && b.out.rows[y].subject == s ensures y == x {
          OneDeliveryPerSubject(b.out, b.db, x, y);
        }
      }
      forall x | x in b.out.rows && b.out.rows[x].status.Waiting? && b.out.rows[x].target.parses ensures Stranded(a, x) {
        assert Stranded(b, x);
      }
    }
  }
}
