/**
 Which deliveries can still reach their merchant. A row and its job are written apart: the row in the
 tables, the job in the broker, after the commit.
 */
module Publication {
  import opened Types
  import opened Text
  import opened Tables
  import opened Operations
  import opened Invariant
  import opened Guarantees
  import opened Webhooks
  import opened Notifications

  /** A pending delivery that no process will publish and no job names. */
  predicate Forgotten(w: World, x: Uuid)
  {
    x in w.out.rows && w.out.rows[x].status.Waiting? && x !in w.unpublished && x !in w.queued
  }

  lemma ForgottenStays(w: World, m: Move, x: Uuid)
    requires Forgotten(w, x) && Legal(w, m)
    ensures Forgotten(After(w, m), x) && After(w, m).out.rows[x] == w.out.rows[x]
  {
    hide Exec, Admissible, HookReady, ReadSettled;
  }

  lemma TraceExtends(moves: seq<Move>, m: Move)
    ensures Trace(moves + [m]) == After(Trace(moves), m)
    ensures LegalTrace(moves + [m]) <==> LegalTrace(moves) && Legal(Trace(moves), m)
  {
    hide After, Legal;
    assert (moves + [m])[..|moves|] == moves;
  }

  /**
   A forgotten delivery stays forgotten, whatever calls, enqueues, retries, write-backs, crashes and
   redeliveries follow, and its row never changes: enqueueing its subject again conflicts and does not
   publish, and a retry is told that it is no dead letter.
   */
  lemma {:induction false} ForgottenForEver(moves: seq<Move>, more: seq<Move>, x: Uuid)
    requires LegalTrace(moves + more) && Forgotten(Trace(moves), x)
    ensures Forgotten(Trace(moves + more), x) && Trace(moves + more).out.rows[x] == Trace(moves).out.rows[x]
  {
    hide Trace, LegalTrace, Legal, After, Forgotten;
    if more == [] {
      assert moves + more == moves;
    } else {
      var n := |more| - 1;
      assert moves + more == moves + more[..n] + [more[n]];
      TraceExtends(moves + more[..n], more[n]);
      ForgottenForEver(moves, more[..n], x);
      ForgottenStays(Trace(moves + more[..n]), more[n], x);
    }
  }

  /** Right after the insert that makes it, and after a retry's reset, a delivery is in the hands of a process that will publish it. */
  lemma HandedOver(w: World, m: Move, x: Uuid)
    requires Legal(w, m) && x in After(w, m).out.rows && After(w, m).out.rows[x].status.Waiting?
    requires x in w.out.rows ==> !w.out.rows[x].status.Waiting?
    ensures x in After(w, m).unpublished
  {
    hide Exec, Admissible, HookReady, ReadSettled;
  }

  /** Publishing makes it a job; only then can an execution write to it. */
  lemma PublishedIsQueued(w: World, x: Uuid)
    requires x in w.unpublished
    ensures x in After(w, Publish(x)).queued && After(w, Publish(x)).unpublished[x] == w.unpublished[x] - 1
  {
  }

  predicate DeliveredIn(w: World, x: Uuid) { x in w.out.rows && w.out.rows[x].status.Delivered? }

  lemma QueuedDelivers(moves: seq<Move>, x: Uuid) returns (more: seq<Move>)
    requires LegalTrace(moves) && x in Trace(moves).out.rows && Trace(moves).out.rows[x].status.Waiting?
    requires Trace(moves).out.rows[x].target.parses && x in Trace(moves).queued
    ensures LegalTrace(moves + more) && DeliveredIn(Trace(moves + more), x)
  {
    hide Trace, LegalTrace;
    more := [Update(x, Succeed)];
    TraceExtends(moves, Update(x, Succeed));
  }

  lemma HeldDelivers(moves: seq<Move>, x: Uuid) returns (more: seq<Move>)
    requires LegalTrace(moves) && x in Trace(moves).out.rows && Trace(moves).out.rows[x].status.Waiting?
    requires Trace(moves).out.rows[x].target.parses && x in Trace(moves).unpublished
    ensures LegalTrace(moves + more) && DeliveredIn(Trace(moves + more), x)
  {
    hide Trace, LegalTrace, DeliveredIn;
    TraceExtends(moves, Publish(x));
    var rest := QueuedDelivers(moves + [Publish(x)], x);
    more := [Publish(x)] + rest;
    assert moves + [Publish(x)] + rest == moves + more;
  }

  lemma DeadLetterDelivers(moves: seq<Move>, x: Uuid) returns (more: seq<Move>)
    requires LegalTrace(moves) && x in Trace(moves).out.rows && Trace(moves).out.rows[x].status.DeadLetter?
    requires Trace(moves).out.rows[x].target.parses
    ensures LegalTrace(moves + more) && DeliveredIn(Trace(moves + more), x)
  {
    hide Trace, LegalTrace, DeliveredIn;
    var check, reset := CheckRetry(Trace(moves).out.rows[x].tenant, x), Update(x, Reset);
    TraceExtends(moves, check);
    TraceExtends(moves + [check], reset);
    var rest := HeldDelivers(moves + [check] + [reset], x);
    more := [check] + [reset] + rest;
    assert moves + [check] + [reset] + rest == moves + more;
  }

  predicate Undeliverable(w: World, x: Uuid)
  {
    x in w.out.rows && !w.out.rows[x].status.Delivered? && !w.out.rows[x].target.parses
  }

  lemma UndeliverableStays(w: World, m: Move, x: Uuid)
    requires Undeliverable(w, x) && Legal(w, m)
    ensures Undeliverable(After(w, m), x)
  {
    hide Exec, Admissible, HookReady, ReadSettled;
  }

  lemma {:induction false} UndeliverableForEver(moves: seq<Move>, more: seq<Move>, x: Uuid)
    requires LegalTrace(moves + more) && Undeliverable(Trace(moves), x)
    ensures Undeliverable(Trace(moves + more), x)
  {
    hide Trace, LegalTrace, Legal, After, Undeliverable;
    if more == [] {
      assert moves + more == moves;
    } else {
      var n := |more| - 1;
      assert moves + more == moves + more[..n] + [more[n]];
      TraceExtends(moves + more[..n], more[n]);
      UndeliverableForEver(moves, more[..n], x);
      UndeliverableStays(Trace(moves + more[..n]), more[n], x);
    }
  }

  lemma DeliverableDelivers(moves: seq<Move>, x: Uuid) returns (more: seq<Move>)
    requires LegalTrace(moves) && x in Trace(moves).out.rows
    requires !Forgotten(Trace(moves), x) && !Undeliverable(Trace(moves), x)
    ensures LegalTrace(moves + more) && DeliveredIn(Trace(moves + more), x)
  {
    hide Trace, LegalTrace;
    var status := Trace(moves).out.rows[x].status;
    if status.DeadLetter? {
      more := DeadLetterDelivers(moves, x);
    } else if status.Waiting? && x in Trace(moves).queued {
      more := QueuedDelivers(moves, x);
    } else if status.Waiting? {
      more := HeldDelivers(moves, x);
    } else {
      more := [];
      assert moves + more == moves;
    }
  }

  /** A delivery can still succeed, or has, exactly when it is not forgotten and a request can be built for its URL. */
  lemma DeliverableIffNotForgotten(moves: seq<Move>, x: Uuid)
    requires LegalTrace(moves) && x in Trace(moves).out.rows
    ensures (exists more :: LegalTrace(moves + more) && DeliveredIn(Trace(moves + more), x))
            <==> !Forgotten(Trace(moves), x) && !Undeliverable(Trace(moves), x)
  {
    hide Trace, LegalTrace;
    if Forgotten(Trace(moves), x) {
      forall more | LegalTrace(moves + more) ensures !DeliveredIn(Trace(moves + more), x) {
        ForgottenForEver(moves, more, x);
      }
    } else if Undeliverable(Trace(moves), x) {
      forall more | LegalTrace(moves + more) ensures !DeliveredIn(Trace(moves + more), x) {
        UndeliverableForEver(moves, more, x);
      }
    } else {
      var more := DeliverableDelivers(moves, x);
    }
  }

  /**
   A process that crashes between the commit of the row and its publication forgets the delivery. For
   every amount there is a run in which a settled payment's delivery exists and can never be made.
   */
  lemma SettledButForgotten(amount: Int64, hook: Hook, x: Uuid) returns (moves: seq<Move>)
    requires 0 < amount && HookReady(hook)
    ensures LegalTrace(moves) && P in Trace(moves).db.payments && Trace(moves).db.payments[P].amount == amount
    ensures Wanted(Trace(moves).db, Trace(moves).hooks, ThePayment(P))
    ensures Forgotten(Trace(moves), x) && Trace(moves).out.rows[x].subject == ThePayment(P)
  {
    hide Serial, Run, Inv, Trace, LegalTrace, HookReady, Normal, Works;
    var calls := PaidStage(amount);
    var s := ThePayment(P);
    var first := CrashesLoseDeliveries(calls, s, hook);
    WorksTrace(calls, OwnerOf(Run(EMPTY_DB, calls), s), hook);
    TraceExtends(first, Read(s));
    TraceExtends(first + [Read(s)], Insert(0, x));
    TraceExtends(first + [Read(s)] + [Insert(0, x)], Crash(x));
    moves := first + [Read(s)] + [Insert(0, x)] + [Crash(x)];
  }
}
