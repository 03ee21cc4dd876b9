/**
 Which settlements get a delivery, over every run of the whole system: API calls, worker
 transactions, hook changes, the read, the insert and the publication of an enqueue, retries and the
 executions of jobs, interleaved in any way. A worker that crashes after its commit is one whose
 enqueue never comes.
 */
module Notifications {
  import opened Types
  import opened Text
  import opened Tables
  import opened Operations
  import opened Invariant
  import opened Runs
  import opened Growth
  import opened Guarantees
  import opened Webhooks
  import DeliveryLoop

  /**
   drafts are the reads made so far, each waiting in some worker's memory to be inserted; unpublished
   are the deliveries whose process, past its commit or its status check, has still to publish them;
   queued are the jobs in the broker or in the hands of a running ProcessDelivery.
   */
  datatype World = World(
    db: Db, out: Outgoing, hooks: map<Uuid, Hook>, drafts: seq<Draft>, unpublished: multiset<Uuid>, queued: multiset<Uuid>)

  datatype Change = Succeed | Fail(count: nat, error: string) | ParkNoSecret | Reset

  datatype Move =
    | Work(op: Op, gen: Fresh)
    | SetHook(tenant: Uuid, hook: Hook)
    | Read(subject: Subject)
    | Insert(draft: nat, id: Uuid)
    | Update(id: Uuid, change: Change)
    | CheckRetry(tenant: Uuid, id: Uuid)
    | Publish(id: Uuid)
    | Crash(id: Uuid)       // a process dies, or the broker refuses, before publishing
    | Redeliver(id: Uuid)
    | Drop(id: Uuid)        // an execution ends or dies, or the broker loses the job

  const START := World(EMPTY_DB, Outgoing(map[], map[]), map[], [], multiset{}, multiset{})

  function Changed(d: Delivery, c: Change): Delivery
  {
    match c
    case Succeed => RecordSuccess(d)
    case Fail(count, error) => RecordFailure(d, count + 1, error, count + 1 >= d.maxAttempts)
    case ParkNoSecret => ParkMissingSecret(d)
    case Reset => ResetForRetry(d)
  }

  ghost function After(w: World, m: Move): World
  {
    match m
    case Work(op, f) => w.(db := Exec(w.db, op, f).0)
    case SetHook(tenant, hook) => w.(hooks := w.hooks[tenant := hook])
    case Read(s) =>
      if Wanted(w.db, w.hooks, s) then w.(drafts := w.drafts + [ReadSettled(w.db, w.hooks, s).value]) else w
    case Insert(i, id) =>
      if i < |w.drafts| then
        var (out, published) := InsertDelivery(w.out, w.drafts[i], id);
        w.(out := out, unpublished := if published then w.unpublished + multiset{id} else w.unpublished)
      else w
    case Update(id, c) =>
      if id in w.out.rows then w.(out := w.out.(rows := w.out.rows[id := Changed(w.out.rows[id], c)])) else w
    case CheckRetry(tenant, id) =>
      if RetryCheck(w.out, tenant, id).RetryQueued? then w.(unpublished := w.unpublished + multiset{id}) else w
    case Publish(id) =>
      if id in w.unpublished then w.(unpublished := w.unpublished - multiset{id}, queued := w.queued + multiset{id}) else w
    case Crash(id) => w.(unpublished := w.unpublished - multiset{id})
    case Redeliver(id) => if id in w.queued then w.(queued := w.queued + multiset{id}) else w
    case Drop(id) => w.(queued := w.queued - multiset{id})
  }

  /**
   Generated ids are new; only an endpoint past its check resets a delivery, and only an execution that
   has its job makes the other changes: an outcome follows a POST, for which the URL must parse, and a
   failure is recorded with a count the loop can hold.
   */
  ghost predicate Legal(w: World, m: Move)
  {
    match m
    case Work(op, f) => Admissible(w.db, op, f)
    case Insert(_, id) => id !in w.out.rows
    case Update(id, Reset) => id in w.unpublished
    case Update(id, c) =>
      && id in w.queued && (c.Fail? ==> c.count < MAX_ATTEMPTS)
      && (id in w.out.rows && !c.ParkNoSecret? ==> w.out.rows[id].target.parses)
    case _ => true
  }

  ghost function Trace(moves: seq<Move>): World
  {
    if moves == [] then START else After(Trace(moves[..|moves| - 1]), moves[|moves| - 1])
  }

  ghost predicate LegalTrace(moves: seq<Move>)
  {
    moves == [] ||
    (LegalTrace(moves[..|moves| - 1]) && Legal(Trace(moves[..|moves| - 1]), moves[|moves| - 1]))
  }

  ghost predicate WorldOk(w: World)
  {
    Inv(w.db) && OutgoingOk(w.out, w.db) && forall i :: 0 <= i < |w.drafts| ==> DraftOk(w.db, w.drafts[i])
  }

  lemma WorkOk(w: World, op: Op, f: Fresh)
    requires WorldOk(w) && Admissible(w.db, op, f)
    ensures WorldOk(After(w, Work(op, f)))
  {
    hide Inv, Exec, Admissible, Grows, OutgoingOk, FromSource;
    ExecInv(w.db, op, f);
    ExecGrows(w.db, op, f);
    var db' := Exec(w.db, op, f).0;
    OutgoingStays(w.out, w.db, db');
    forall i | 0 <= i < |w.drafts| ensures DraftOk(db', w.drafts[i]) {
      var d := w.drafts[i];
      SourceStays(w.db, db', d.tenant, d.subject, d.payment, d.amount, d.currency);
    }
  }

  lemma UpdateStaysOk(w: World, id: Uuid, c: Change)
    requires WorldOk(w) && Legal(w, Update(id, c))
    ensures WorldOk(After(w, Update(id, c)))
    ensures forall s :: HasDelivery(After(w, Update(id, c)).out, s) <==> HasDelivery(w.out, s)
  {
    hide Inv, DeliveryOk, FromSource;
    if id in w.out.rows {
      var d := w.out.rows[id];
      StatementsKeepAttempts(d, if c.Fail? then c.count else 0, if c.Fail? then c.error else "");
      UpdateOk(w.out, w.db, id, Changed(d, c));
      SameSubjects(w.out, id, Changed(d, c));
    }
  }

  lemma SameSubjects(out: Outgoing, id: Uuid, d: Delivery)
    requires id in out.rows && d.subject == out.rows[id].subject
    ensures forall s :: HasDelivery(out.(rows := out.rows[id := d]), s) <==> HasDelivery(out, s)
  {
    var out' := out.(rows := out.rows[id := d]);
    forall s ensures HasDelivery(out', s) <==> HasDelivery(out, s) {
      if x :| x in out.rows && out.rows[x].subject == s {
        assert x in out'.rows && out'.rows[x].subject == s;
      }
      if x :| x in out'.rows && out'.rows[x].subject == s {
        assert x in out.rows && out.rows[x].subject == s;
      }
    }
  }

  lemma InsertStaysOk(w: World, i: nat, id: Uuid)
    requires WorldOk(w) && Legal(w, Insert(i, id)) && i < |w.drafts|
    ensures WorldOk(After(w, Insert(i, id)))
    ensures forall s :: HasDelivery(After(w, Insert(i, id)).out, s) <==> HasDelivery(w.out, s) || s == w.drafts[i].subject
  {
    hide Inv, OutgoingOk, FromSource, InsertDelivery;
    var d := w.drafts[i];
    InsertOk(w.out, w.db, d, id);
    var (out', published) := InsertDelivery(w.out, d, id);
    forall s ensures HasDelivery(out', s) <==> HasDelivery(w.out, s) || s == d.subject {
      if x :| x in w.out.rows && w.out.rows[x].subject == s {
        assert x in out'.rows && out'.rows[x].subject == s;
      }
    }
  }

  /** This move is the insert of a draft about this subject. */
  predicate Inserts(w: World, m: Move, s: Subject)
  {
    m.Insert? && m.draft < |w.drafts| && w.drafts[m.draft].subject == s
  }

  predicate ReadsWanted(w: World, m: Move, s: Subject)
  {
    m == Read(s) && Wanted(w.db, w.hooks, s)
  }

  /** Every move keeps the world in order, and only an insert gives a subject its delivery. */
  lemma MoveOk(w: World, m: Move)
    requires WorldOk(w) && Legal(w, m)
    ensures WorldOk(After(w, m))
    ensures forall s :: HasDelivery(After(w, m).out, s) <==> HasDelivery(w.out, s) || Inserts(w, m, s)
  {
    hide Inv, OutgoingOk, FromSource, Exec, Admissible, HasDelivery, ReadSettled;
    match m
    case Work(op, f) => WorkOk(w, op, f);
    case SetHook(_, _) =>
    case Read(s) => ReadIsFromSource(w.db, w.hooks, s);
    case Insert(i, id) => if i < |w.drafts| { InsertStaysOk(w, i, id); }
    case Update(id, c) => UpdateStaysOk(w, id, c);
    case _ =>
  }

  lemma {:induction false} TraceOk(moves: seq<Move>)
    requires LegalTrace(moves)
    ensures WorldOk(Trace(moves))
  {
    hide Inv, Legal, After;
    if moves == [] {
      EmptyInv();
    } else {
      TraceOk(moves[..|moves| - 1]);
      MoveOk(Trace(moves[..|moves| - 1]), moves[|moves| - 1]);
    }
  }

  /** After any run there is at most one delivery for a subject, the subject has succeeded, and the row agrees with it. */
  lemma DeliveriesAgree(moves: seq<Move>, x: Uuid, y: Uuid)
    requires LegalTrace(moves) && x in Trace(moves).out.rows && y in Trace(moves).out.rows
    ensures var w := Trace(moves);
            && (w.out.rows[x].subject == w.out.rows[y].subject <==> x == y)
            && DeliveryOk(w.db, w.out.rows[x]) && AttemptsOk(w.out.rows[x])
            && w.out.rows[x].payment in w.db.payments
            && w.out.rows[x].tenant == w.db.payments[w.out.rows[x].payment].tenant
  {
    TraceOk(moves);
    hide Trace, LegalTrace, PaymentsOk, LedgerRowsOk, Explained, OutboxOk;
    OneDeliveryPerSubject(Trace(moves).out, Trace(moves).db, x, y);
  }

  /** max_attempts is 5 in every row there can be, so the workers' configured default is never used, whatever it is. */
  lemma DefaultNeverApplies(moves: seq<Move>, x: Uuid, default: int)
    requires LegalTrace(moves) && x in Trace(moves).out.rows
    ensures DeliveryLoop.Limit(Trace(moves).out.rows[x], default) == MAX_ATTEMPTS
  {
    hide Trace, LegalTrace;
    DeliveriesAgree(moves, x, x);
  }

  /**
   Every statement of the racing executions in DeliveryLoop is one of the changes allowed here: what
   holds of all changes holds of every interleaving of executions.
   */
  lemma LoopMakesChanges(row: Delivery, secret: Option<string>, default: int, phase: DeliveryLoop.Phase, answered: bool)
    requires AttemptsOk(row) && DeliveryLoop.PhaseOk(phase)
    ensures var row' := DeliveryLoop.Next(row, secret, default, phase, answered).0;
            || row' == row
            || (phase.Posted? && phase.ok && row' == Changed(row, Succeed))
            || (phase.Posted? && !phase.ok && row' == Changed(row, Fail(phase.count, "error")))
            || (phase.Parking? && row' == Changed(row, ParkNoSecret))
  {
  }

  /** A subject has a delivery exactly when some worker got as far as inserting it. */
  lemma {:induction false} DeliveredIffInserted(moves: seq<Move>, s: Subject)
    requires LegalTrace(moves)
    ensures HasDelivery(Trace(moves).out, s)
            <==> exists k :: 0 <= k < |moves| && Inserts(Trace(moves[..k]), moves[k], s)
  {
    hide Legal, After, Inserts, WorldOk;
    if moves == [] {
      assert Trace(moves).out.rows == map[];
    } else {
      var n := |moves| - 1;
      var front := moves[..n];
      TraceOk(front);
      MoveOk(Trace(front), moves[n]);
      DeliveredIffInserted(front, s);
      hide HasDelivery, LegalTrace, Trace;
      if k :| 0 <= k < |front| && Inserts(Trace(front[..k]), front[k], s) {
        assert front[..k] == moves[..k] && Inserts(Trace(moves[..k]), moves[k], s);
      }
      if k :| 0 <= k < |moves| && Inserts(Trace(moves[..k]), moves[k], s) {
        if k < n {
          assert front[..k] == moves[..k] && Inserts(Trace(front[..k]), front[k], s);
        }
      }
    }
  }

  /** The read about s that move j makes, if it makes one: it becomes the next draft. */
  ghost predicate ReadAt(moves: seq<Move>, j: nat, s: Subject, draft: nat)
    requires j < |moves|
  {
    ReadsWanted(Trace(moves[..j]), moves[j], s) && |Trace(moves[..j]).drafts| == draft
  }

  /** Only a read of a wanted subject adds a draft. */
  lemma DraftsAfter(w: World, m: Move)
    ensures forall s | ReadsWanted(w, m, s) ::
              |After(w, m).drafts| == |w.drafts| + 1 && After(w, m).drafts[|w.drafts|].subject == s
    ensures w.drafts <= After(w, m).drafts
    ensures |After(w, m).drafts| > |w.drafts| ==>
              var d := After(w, m).drafts[|w.drafts|];
              && |After(w, m).drafts| == |w.drafts| + 1 && ReadsWanted(w, m, d.subject)
              && ReadSettled(w.db, w.hooks, d.subject) == Some(d)
  {
    hide Exec, InsertDelivery, HookReady, RetryCheck, Changed;
  }

  /** Every draft was made by a read of its subject. */
  lemma {:induction false} DraftOrigin(moves: seq<Move>, i: nat) returns (j: nat)
    requires i < |Trace(moves).drafts|
    ensures j < |moves| && ReadAt(moves, j, Trace(moves).drafts[i].subject, i)
    ensures var (w, d) := (Trace(moves[..j]), Trace(moves).drafts[i]); ReadSettled(w.db, w.hooks, d.subject) == Some(d)
  {
    hide After, ReadsWanted, ReadSettled;
    var n := |moves| - 1;
    var front := moves[..n];
    DraftsAfter(Trace(front), moves[n]);
    if i < |Trace(front).drafts| {
      j := DraftOrigin(front, i);
      assert front[..j] == moves[..j];
    } else {
      j := n;
    }
  }

  /** A read of a wanted subject makes a draft about it, and drafts are kept. */
  lemma {:induction false} DraftKept(moves: seq<Move>, j: nat, s: Subject, draft: nat)
    requires j < |moves| && ReadAt(moves, j, s, draft)
    ensures draft < |Trace(moves).drafts| && Trace(moves).drafts[draft].subject == s
  {
    hide After, ReadsWanted;
    var n := |moves| - 1;
    var front := moves[..n];
    DraftsAfter(Trace(front), moves[n]);
    if j < n {
      assert front[..j] == moves[..j];
      DraftKept(front, j, s, draft);
    }
  }

  /** A draft about a subject exists exactly when somebody read it after it succeeded, while its tenant's hook was ready. */
  lemma DraftedIffRead(moves: seq<Move>, s: Subject)
    ensures (exists i :: 0 <= i < |Trace(moves).drafts| && Trace(moves).drafts[i].subject == s)
            <==> exists j, draft :: 0 <= j < |moves| && ReadAt(moves, j, s, draft)
  {
    hide Trace, ReadsWanted;
    if i :| 0 <= i < |Trace(moves).drafts| && Trace(moves).drafts[i].subject == s {
      var j := DraftOrigin(moves, i);
    }
    if j, draft :| 0 <= j < |moves| && ReadAt(moves, j, s, draft) {
      DraftKept(moves, j, s, draft);
    }
  }

  /** Move j reads the settled subject with its tenant's hook ready, and move k is the insert of what it read. */
  ghost predicate Survives(moves: seq<Move>, s: Subject, j: nat, k: nat)
  {
    j < k < |moves| && ReadsWanted(Trace(moves[..j]), moves[j], s)
    && moves[k].Insert? && moves[k].draft == |Trace(moves[..j]).drafts|
  }

  lemma InsertMeansSurvivor(moves: seq<Move>, s: Subject, k: nat) returns (j: nat)
    requires k < |moves| && Inserts(Trace(moves[..k]), moves[k], s)
    ensures Survives(moves, s, j, k)
  {
    hide Trace, ReadsWanted;
    j := DraftOrigin(moves[..k], moves[k].draft);
    assert moves[..k][..j] == moves[..j];
  }

  lemma SurvivorInserts(moves: seq<Move>, s: Subject, j: nat, k: nat)
    requires Survives(moves, s, j, k)
    ensures k < |moves| && Inserts(Trace(moves[..k]), moves[k], s)
  {
    hide Trace, ReadsWanted;
    assert moves[..k][..j] == moves[..j];
    DraftKept(moves[..k], j, s, moves[k].draft);
  }

  /**
   When a settlement yields a delivery: exactly when some worker that read the subject, after it
   succeeded and while its tenant had a URL and a secret, lived on to its own insert.
   */
  lemma DeliveredIffWorkerSurvived(moves: seq<Move>, s: Subject)
    requires LegalTrace(moves)
    ensures HasDelivery(Trace(moves).out, s) <==> exists j, k :: Survives(moves, s, j, k)
  {
    DeliveredIffInserted(moves, s);
    hide Trace, LegalTrace, HasDelivery, Survives, Inserts;
    if k :| 0 <= k < |moves| && Inserts(Trace(moves[..k]), moves[k], s) {
      var j := InsertMeansSurvivor(moves, s, k);
    }
    if j, k :| Survives(moves, s, j, k) {
      SurvivorInserts(moves, s, j, k);
    }
  }

  // ---------- where a delivery comes from, and where it goes ----------

  /** A row that was there before keeps what it says; a new one is an inserted draft. */
  lemma RowsAfter(w: World, m: Move, x: Uuid)
    requires Legal(w, m) && x in After(w, m).out.rows
    ensures x in w.out.rows ==>
              var d := After(w, m).out.rows[x];
              d == w.out.rows[x].(status := d.status, attempts := d.attempts, lastError := d.lastError)
    ensures x !in w.out.rows ==>
              m.Insert? && m.id == x && m.draft < |w.drafts| && After(w, m).out.rows[x] == NewDelivery(w.drafts[m.draft])
  {
    hide Exec, Admissible, ReadSettled, NewDelivery;
  }

  lemma {:induction false} RowOrigin(moves: seq<Move>, x: Uuid) returns (k: nat)
    requires LegalTrace(moves) && x in Trace(moves).out.rows
    ensures k < |moves| && moves[k].Insert? && moves[k].id == x && moves[k].draft < |Trace(moves[..k]).drafts|
    ensures var d := Trace(moves).out.rows[x];
            d == NewDelivery(Trace(moves[..k]).drafts[moves[k].draft])
                   .(status := d.status, attempts := d.attempts, lastError := d.lastError)
  {
    hide After, Legal, NewDelivery;
    var n := |moves| - 1;
    var front := moves[..n];
    RowsAfter(Trace(front), moves[n], x);
    if x in Trace(front).out.rows {
      k := RowOrigin(front, x);
      assert front[..k] == moves[..k];
    } else {
      k := n;
    }
  }

  /**
   Every delivery goes to the URL its own tenant had when the subject, already succeeded, was read for
   it, and the tenant had a secret then; no later change of the hook, and no attempt or retry, moves it.
   */
  lemma TargetIsTenantsUrl(moves: seq<Move>, x: Uuid) returns (j: nat, k: nat)
    requires LegalTrace(moves) && x in Trace(moves).out.rows
    ensures var d := Trace(moves).out.rows[x];
            && j < k < |moves| && moves[j] == Read(d.subject) && moves[k].Insert? && moves[k].id == x
            && var w := Trace(moves[..j]);
            && HasSucceeded(w.db, d.subject) && d.tenant == OwnerOf(w.db, d.subject) && d.tenant in w.hooks
            && w.hooks[d.tenant].url == Some(d.target) && |d.target.text| > 0
            && w.hooks[d.tenant].secret.Some? && |w.hooks[d.tenant].secret.value| > 0
  {
    k := RowOrigin(moves, x);
    hide Trace, LegalTrace;
    var d := Trace(moves[..k]).drafts[moves[k].draft];
    j := DraftOrigin(moves[..k], moves[k].draft);
    assert moves[..k][..j] == moves[..j] && moves[..k][j] == moves[j];
    WantedMeans(Trace(moves[..j]).db, Trace(moves[..j]).hooks, d.subject);
  }

  function Works(calls: seq<Call>): seq<Move>
  {
    if calls == [] then []
    else
      var n := |calls| - 1;
      Works(calls[..n]) + [Work(calls[n].op, calls[n].gen)]
  }

  /** A worker that crashes between its commit and its enqueue leaves only the calls of the run. */
  lemma {:induction false} WorksTrace(calls: seq<Call>, tenant: Uuid, hook: Hook)
    requires Serial(EMPTY_DB, calls)
    ensures var moves := [SetHook(tenant, hook)] + Works(calls);
            && LegalTrace(moves) && Trace(moves).db == Run(EMPTY_DB, calls)
            && Trace(moves) == START.(db := Run(EMPTY_DB, calls), hooks := map[tenant := hook])
  {
    hide Exec, Admissible;
    var first := [SetHook(tenant, hook)];
    var moves := first + Works(calls);
    if calls == [] {
      assert moves == first && first[..0] == [];
      assert Trace(first) == START.(hooks := map[tenant := hook]);
    } else {
      var n := |calls| - 1;
      WorksTrace(calls[..n], tenant, hook);
      var front := first + Works(calls[..n]);
      assert moves == front + [Work(calls[n].op, calls[n].gen)];
      assert moves[..|moves| - 1] == front;
    }
  }

  /**
   "Every settlement yields a delivery" fails when workers crash between their commit and their
   enqueue. In any serial run of calls, any subject that succeeds can end wanted, its tenant's hook
   ready throughout, and without a delivery.
   */
  lemma CrashesLoseDeliveries(calls: seq<Call>, s: Subject, hook: Hook) returns (moves: seq<Move>)
    requires Serial(EMPTY_DB, calls) && HasSucceeded(Run(EMPTY_DB, calls), s) && HookReady(hook)
    ensures moves == [SetHook(OwnerOf(Run(EMPTY_DB, calls), s), hook)] + Works(calls)
    ensures LegalTrace(moves) && Trace(moves).db == Run(EMPTY_DB, calls)
    ensures Wanted(Trace(moves).db, Trace(moves).hooks, s) && !HasDelivery(Trace(moves).out, s)
  {
    hide Serial, Run, Trace, LegalTrace, HookReady;
    moves := [SetHook(OwnerOf(Run(EMPTY_DB, calls), s), hook)] + Works(calls);
    WorksTrace(calls, OwnerOf(Run(EMPTY_DB, calls), s), hook);
  }

  /** Such a run exists for every amount: one payment is accepted and settled, and nobody is told. */
  lemma SettledWithoutDelivery(amount: Int64, hook: Hook) returns (moves: seq<Move>)
    requires 0 < amount && HookReady(hook)
    ensures LegalTrace(moves) && P in Trace(moves).db.payments && Trace(moves).db.payments[P].amount == amount
    ensures Wanted(Trace(moves).db, Trace(moves).hooks, ThePayment(P)) && !HasDelivery(Trace(moves).out, ThePayment(P))
  {
    hide Serial, Run, Inv, Trace, LegalTrace, HookReady, Normal;
    var calls := PaidStage(amount);
    moves := CrashesLoseDeliveries(calls, ThePayment(P), hook);
  }
}
