/**
 ProcessDelivery executed by any number of workers on one delivery, interleaved between its read,
 its POST and its write-back. The count a worker writes back is the one it read plus one, so a slow
 worker can lower attempt_count; the loop still ends.
 */
module DeliveryLoop {
  import opened Types
  import opened Webhooks

  /** Where one execution of the loop is; Holding and Posted carry the attempt_count it read. */
  datatype Phase =
    | Reading
    | Holding(count: int)
    | Posted(count: int, ok: bool)
    | Parking(missing: bool)    // decided to park the delivery, UPDATE not yet executed
    | Stopped

  /** The delivery row, the tenant's current secret, the workers' configured default, the executions, and the POSTs made. */
  datatype Race = Race(row: Delivery, secret: Option<string>, default: int, workers: seq<Phase>, posts: nat)

  datatype RaceEvent =
    | Go(w: nat, answered: bool)         // worker w executes its next statement; answered is the POST's outcome
    | RetryRequest                       // the retry endpoint's guarded UPDATE
    | SetSecret(secret: Option<string>)
    | Join                               // another worker pops a duplicate job

  /** maxAttempts <= 0 falls back to the worker's configured default. */
  function Limit(row: Delivery, default: int): int
  {
    if row.maxAttempts <= 0 then default else row.maxAttempts
  }

  /** What one worker does next, and the row after it. */
  function Next(row: Delivery, secret: Option<string>, default: int, phase: Phase, answered: bool): (Delivery, Phase)
  {
    var limit := Limit(row, default);
    match phase
    case Reading =>
      if secret.None? then (row, Stopped)                   // scanning NULL into a string fails
      else if !row.status.Waiting? then (row, Stopped)
      else if row.attempts >= limit then (row, Parking(false))
      else if secret.value == "" then (row, Parking(true))
      else if !row.target.parses then (row, Stopped)        // http.NewRequest fails
      else (row, Holding(row.attempts))
    case Holding(c) => (row, Posted(c, answered))
    case Posted(c, ok) =>
      if ok then (RecordSuccess(row), Stopped)
      else (RecordFailure(row, c + 1, "error", c + 1 >= limit), if c + 1 >= limit then Stopped else Reading)
    case Parking(missing) => ((if missing then ParkMissingSecret(row) else ParkExhausted(row)), Stopped)
    case Stopped => (row, Stopped)
  }

  function Step(s: Race, e: RaceEvent): Race
  {
    match e
    case Go(w, answered) =>
      if w >= |s.workers| then s
      else
        var (row, phase) := Next(s.row, s.secret, s.default, s.workers[w], answered);
        s.(row := row, workers := s.workers[w := phase], posts := s.posts + if s.workers[w].Holding? then 1 else 0)
    case RetryRequest => s.(row := ResetForRetry(s.row))
    case SetSecret(secret) => s.(secret := secret)
    case Join => s.(workers := s.workers + [Reading])
  }

  function Execute(s: Race, events: seq<RaceEvent>): Race
  {
    if events == [] then s else Step(Execute(s, events[..|events| - 1]), events[|events| - 1])
  }

  // ---------- the delivery's state machine ----------

  predicate PhaseOk(p: Phase)
  {
    match p
    case Holding(c) => 0 <= c < MAX_ATTEMPTS
    case Posted(c, _) => 0 <= c < MAX_ATTEMPTS
    case Parking(missing) => missing
    case _ => true
  }

  ghost predicate RaceOk(s: Race)
  {
    AttemptsOk(s.row) && forall w :: 0 <= w < |s.workers| ==> PhaseOk(s.workers[w])
  }

  /** Succeeded is final; dlq is left only by a retry. */
  predicate LegalMove(before: Delivery, after: Delivery, retry: bool)
  {
    && (before.status.Delivered? ==> after == before)
    && (before.status.DeadLetter? && !retry ==> after == before)
    && after == before.(status := after.status, attempts := after.attempts, lastError := after.lastError)
  }

  lemma StepOk(s: Race, e: RaceEvent)
    requires RaceOk(s)
    ensures RaceOk(Step(s, e)) && LegalMove(s.row, Step(s, e).row, e.RetryRequest?)
  {
    match e
    case Go(w, answered) =>
      if w < |s.workers| {
        assert PhaseOk(s.workers[w]);
      }
    case Join =>
    case RetryRequest =>
    case SetSecret(_) =>
  }

  /** What happens besides the executions: a retry resets a dead letter and nothing else, a secret changes, an execution joins. */
  lemma OutsideEvents(s: Race, secret: Option<string>)
    ensures Step(s, RetryRequest) == s.(row := Step(s, RetryRequest).row)
    ensures Step(s, RetryRequest).row ==
              if s.row.status == DeadLetter then s.row.(status := Waiting, attempts := 0, lastError := "") else s.row
    ensures Step(s, SetSecret(secret)) == s.(secret := secret)
    ensures Step(s, Join) == s.(workers := s.workers + [Reading])
  {
  }

  /**
   The bookkeeping of attempts survives every interleaving, with lost updates, retries, changing
   secrets and joining workers: pending means attempts left, the count never passes the maximum, and
   a parked delivery has used its attempts or lacked a secret.
   */
  lemma {:induction false} RaceInvariant(s: Race, events: seq<RaceEvent>)
    requires RaceOk(s)
    ensures RaceOk(Execute(s, events))
  {
    if events != [] {
      RaceInvariant(s, events[..|events| - 1]);
      StepOk(Execute(s, events[..|events| - 1]), events[|events| - 1]);
    }
  }

  /** Once delivered, for ever delivered, with nothing about the row changing any more. */
  lemma {:induction false} DeliveredIsFinal(s: Race, events: seq<RaceEvent>)
    requires RaceOk(s) && s.row.status.Delivered?
    ensures Execute(s, events).row == s.row
  {
    if events != [] {
      var front := events[..|events| - 1];
      DeliveredIsFinal(s, front);
      RaceInvariant(s, front);
      StepOk(Execute(s, front), events[|events| - 1]);
    }
  }

  lemma {:induction false} DeadLetterNeedsRetry(s: Race, events: seq<RaceEvent>)
    requires RaceOk(s) && s.row.status.DeadLetter? && RetryRequest !in events
    ensures Execute(s, events).row == s.row
  {
    if events != [] {
      var front := events[..|events| - 1];
      DeadLetterNeedsRetry(s, front);
      RaceInvariant(s, front);
      StepOk(Execute(s, front), events[|events| - 1]);
    }
  }

  // ---------- termination, in spite of lost updates ----------

  /** What a read, a POST and a write each cost; all-ones counts steps, (0,1,0) counts POSTs. */
  datatype Cost = Cost(read: nat, post: nat, write: nat)

  function CostOf(p: Phase, k: Cost): nat
  {
    match p
    case Reading => k.read
    case Holding(_) => k.post
    case Posted(_, _) => k.write
    case Parking(_) => k.write
    case Stopped => 0
  }

  /** What n workers may still spend after a failed write-back of count c: each may be back at reading c + 1. */
  function AfterFailure(c: int, n: nat, k: Cost): nat
    decreases MAX_ATTEMPTS - c, 0
  {
    if c + 1 >= MAX_ATTEMPTS then 0 else n * Round(c + 1, n, k)
  }

  /** One worker about to read count c. */
  function Round(c: int, n: nat, k: Cost): nat
    decreases MAX_ATTEMPTS - c, 1
  {
    k.read + k.post + k.write + AfterFailure(c, n, k)
  }

  /** What this worker may still spend, and cause the others to spend. */
  function Potential(p: Phase, row: Delivery, n: nat, k: Cost): nat
  {
    match p
    case Reading => if row.status.Waiting? then Round(row.attempts, n, k) else k.read
    case Holding(c) => k.post + k.write + AfterFailure(c, n, k)
    case Posted(c, ok) => k.write + AfterFailure(c, n, k)
    case Parking(_) => k.write
    case Stopped => 0
  }

  function TotalPotential(ws: seq<Phase>, row: Delivery, n: nat, k: Cost): nat
  {
    if ws == [] then 0 else TotalPotential(ws[..|ws| - 1], row, n, k) + Potential(ws[|ws| - 1], row, n, k)
  }

  lemma {:induction false} PotentialUpdate(ws: seq<Phase>, w: nat, p: Phase, row: Delivery, n: nat, k: Cost)
    requires w < |ws|
    ensures TotalPotential(ws[w := p], row, n, k) + Potential(ws[w], row, n, k)
            == TotalPotential(ws, row, n, k) + Potential(p, row, n, k)
  {
    var m := |ws| - 1;
    if w < m {
      assert ws[w := p][..m] == ws[..m][w := p];
      PotentialUpdate(ws[..m], w, p, row, n, k);
    } else {
      assert ws[w := p][..m] == ws[..m];
    }
  }

  function Readers(ws: seq<Phase>): nat
  {
    if ws == [] then 0 else Readers(ws[..|ws| - 1]) + if ws[|ws| - 1].Reading? then 1 else 0
  }

  lemma {:induction false} ReadersBound(ws: seq<Phase>, w: nat)
    requires w < |ws| && !ws[w].Reading?
    ensures Readers(ws) + 1 <= |ws|
  {
    var m := |ws| - 1;
    if w < m {
      ReadersBound(ws[..m], w);
    } else {
      AllReaders(ws[..m]);
    }
  }

  lemma {:induction false} AllReaders(ws: seq<Phase>)
    ensures Readers(ws) <= |ws|
  {
    if ws != [] {
      AllReaders(ws[..|ws| - 1]);
    }
  }

  lemma OneRaises(p: Phase, row: Delivery, row': Delivery, n: nat, k: Cost)
    ensures Potential(p, row', n, k) <= Potential(p, row, n, k) + if p.Reading? then Potential(Reading, row', n, k) else 0
  {
    hide Round, AfterFailure;
  }

  lemma OneMore(a: nat, b: nat, r: nat)
    requires b <= 1
    ensures (a + b) * r == a * r + if b == 1 then r else 0
  {
  }

  /** A new row value changes only the readers' potential, each by at most the reader's new potential. */
  lemma {:induction false} RowRaises(ws: seq<Phase>, row: Delivery, row': Delivery, n: nat, k: Cost)
    ensures TotalPotential(ws, row', n, k) <= TotalPotential(ws, row, n, k) + Readers(ws) * Potential(Reading, row', n, k)
  {
    hide Round, AfterFailure, Potential;
    if ws != [] {
      var front, last := ws[..|ws| - 1], ws[|ws| - 1];
      RowRaises(front, row, row', n, k);
      OneRaises(last, row, row', n, k);
      OneMore(Readers(front), if last.Reading? then 1 else 0, Potential(Reading, row', n, k));
    }
  }

  lemma {:induction false} RowLowers(ws: seq<Phase>, row: Delivery, row': Delivery, n: nat, k: Cost)
    requires Potential(Reading, row', n, k) <= Potential(Reading, row, n, k)
    ensures TotalPotential(ws, row', n, k) <= TotalPotential(ws, row, n, k)
  {
    hide Round, AfterFailure;
    if ws != [] {
      RowLowers(ws[..|ws| - 1], row, row', n, k);
    }
  }

  /** No retry and no joining worker. */
  predicate Undisturbed(events: seq<RaceEvent>)
  {
    forall i :: 0 <= i < |events| ==> events[i].Go? || events[i].SetSecret?
  }

  /** The cost of one event: that of the statement its worker executes. */
  function EventCost(s: Race, e: RaceEvent, k: Cost): nat
  {
    if e.Go? && e.w < |s.workers| then CostOf(s.workers[e.w], k) else 0
  }

  function Spent(s: Race, events: seq<RaceEvent>, k: Cost): nat
  {
    if events == [] then 0
    else
      var front := events[..|events| - 1];
      Spent(s, front, k) + EventCost(Execute(s, front), events[|events| - 1], k)
  }

  function Budget(s: Race, k: Cost): nat { TotalPotential(s.workers, s.row, |s.workers|, k) }

  /** A failed write-back that leaves the delivery pending pays for every worker now able to read the new count. */
  lemma FailurePays(s: Race, w: nat, k: Cost)
    requires RaceOk(s) && w < |s.workers| && s.workers[w].Posted? && !s.workers[w].ok
    requires s.row.status.Waiting? && s.workers[w].count + 1 < MAX_ATTEMPTS
    ensures var s' := Step(s, Go(w, false));
            Budget(s', k) + k.write <= Budget(s, k)
  {
    hide Round, Readers, TotalPotential, Potential;
    var c, n := s.workers[w].count, |s.workers|;
    var row' := Step(s, Go(w, false)).row;
    var r := Round(c + 1, n, k);
    ReadersBound(s.workers, w);
    RowRaises(s.workers, s.row, row', n, k);
    PotentialUpdate(s.workers, w, Reading, row', n, k);
    FailurePotentials(s.workers[w], row', n, k);
    TimesMonotone(Readers(s.workers) + 1, n, r);
  }

  lemma FailurePotentials(phase: Phase, row': Delivery, n: nat, k: Cost)
    requires phase.Posted? && phase.count + 1 < MAX_ATTEMPTS
    requires row'.status.Waiting? && row'.attempts == phase.count + 1
    ensures Potential(Reading, row', n, k) == Round(phase.count + 1, n, k)
    ensures Potential(phase, row', n, k) == k.write + n * Round(phase.count + 1, n, k)
  {
    hide Round;
  }

  lemma TimesMonotone(a: nat, b: nat, r: nat)
    requires a <= b
    ensures a * r <= b * r && (a - 1) * r == a * r - r
  {
  }

  /** Every other worker step pays its own cost. */
  lemma StepPays(s: Race, e: RaceEvent, k: Cost)
    requires RaceOk(s) && (e.Go? || e.SetSecret?)
    ensures |Step(s, e).workers| == |s.workers|
    ensures Budget(Step(s, e), k) + EventCost(s, e, k) <= Budget(s, k)
  {
    if e.Go? && e.w < |s.workers| {
      var w, n, phase := e.w, |s.workers|, s.workers[e.w];
      assert PhaseOk(phase);
      var (row', phase') := Next(s.row, s.secret, s.default, phase, e.answered);
      if phase.Posted? && !phase.ok && s.row.status.Waiting? && phase.count + 1 < MAX_ATTEMPTS {
        FailurePays(s, w, k);
      } else {
        PhasePays(s.row, s.secret, s.default, phase, e.answered, n, k);
        RowLowers(s.workers, s.row, row', n, k);
        PotentialUpdate(s.workers, w, phase', row', n, k);
      }
    }
  }

  lemma PhasePays(row: Delivery, secret: Option<string>, default: int, phase: Phase, answered: bool, n: nat, k: Cost)
    requires AttemptsOk(row) && PhaseOk(phase) && 0 < n
    requires !(phase.Posted? && !phase.ok && row.status.Waiting? && phase.count + 1 < MAX_ATTEMPTS)
    ensures var (row', phase') := Next(row, secret, default, phase, answered);
            && Potential(Reading, row', n, k) <= Potential(Reading, row, n, k)
            && Potential(phase', row', n, k) + CostOf(phase, k) <= Potential(phase, row', n, k)
  {
    if phase.Posted? && phase.count + 1 < MAX_ATTEMPTS {
      TimesMonotone(1, n, Round(phase.count + 1, n, k));
    }
  }

  /** Along any schedule without retries, what was spent plus what may still be spent never exceeds the initial budget. */
  lemma {:induction false} BudgetBounds(s: Race, events: seq<RaceEvent>, k: Cost)
    requires RaceOk(s) && Undisturbed(events)
    ensures Spent(s, events, k) + Budget(Execute(s, events), k) <= Budget(s, k)
    ensures |Execute(s, events).workers| == |s.workers|
  {
    hide Budget, EventCost, Step, RaceOk;
    if events != [] {
      var front := events[..|events| - 1];
      BudgetBounds(s, front, k);
      RaceInvariant(s, front);
      StepPays(Execute(s, front), events[|events| - 1], k);
    }
  }

  /** n + n^2 + ... + n^m */
  function Powers(n: nat, m: nat): nat
  {
    if m == 0 then 0 else n * (1 + Powers(n, m - 1))
  }

  lemma {:induction false} RoundsArePowers(c: nat, n: nat, k: Cost)
    requires c < MAX_ATTEMPTS
    ensures n * Round(c, n, k) == (k.read + k.post + k.write) * Powers(n, MAX_ATTEMPTS - c)
    decreases MAX_ATTEMPTS - c
  {
    var unit, m := k.read + k.post + k.write, MAX_ATTEMPTS - c;
    if c + 1 < MAX_ATTEMPTS {
      RoundsArePowers(c + 1, n, k);
    }
    assert AfterFailure(c, n, k) == unit * Powers(n, m - 1);
    Factor(n, unit, Powers(n, m - 1));
  }

  lemma Factor(n: nat, unit: nat, x: nat)
    ensures n * (unit + unit * x) == unit * (n * (1 + x))
  {
  }

  lemma {:induction false} StartBudget(ws: seq<Phase>, row: Delivery, n: nat, k: Cost)
    requires forall w :: 0 <= w < |ws| ==> ws[w].Reading?
    requires row.status.Waiting?
    ensures TotalPotential(ws, row, n, k) == |ws| * Round(row.attempts, n, k)
  {
    hide Round;
    if ws != [] {
      StartBudget(ws[..|ws| - 1], row, n, k);
    }
  }

  /** n executions of ProcessDelivery, all about to read a fresh delivery. */
  predicate FreshRace(s: Race, n: nat)
  {
    && |s.workers| == n && (forall w :: 0 <= w < n ==> s.workers[w].Reading?)
    && s.row.status.Waiting? && s.row.attempts == 0 && s.row.maxAttempts == MAX_ATTEMPTS
  }

  /**
   Termination and at-most-so-many POSTs. n concurrent executions on a fresh delivery make at most
   n + n^2 + ... + n^5 POSTs and execute at most three times as many statements, however they
   interleave, whatever the receiver answers and however the secret changes, as long as nobody
   retries; after that many statements every execution has returned.
   */
  lemma RaceTerminates(s: Race, n: nat, events: seq<RaceEvent>)
    requires FreshRace(s, n) && Undisturbed(events)
    ensures Spent(s, events, Cost(0, 1, 0)) <= Powers(n, MAX_ATTEMPTS)
    ensures Spent(s, events, Cost(1, 1, 1)) <= 3 * Powers(n, MAX_ATTEMPTS)
    ensures Spent(s, events, Cost(1, 1, 1)) == 3 * Powers(n, MAX_ATTEMPTS) ==>
              forall w :: 0 <= w < |Execute(s, events).workers| ==> Execute(s, events).workers[w].Stopped?
  {
    hide Powers, Round, Execute;
    FreshBudget(s, n, Cost(0, 1, 0));
    FreshBudget(s, n, Cost(1, 1, 1));
    BudgetBounds(s, events, Cost(0, 1, 0));
    BudgetBounds(s, events, Cost(1, 1, 1));
    var end := Execute(s, events);
    if Budget(end, Cost(1, 1, 1)) == 0 {
      NoBudgetStopped(end.workers, end.row, n);
    }
  }

  lemma FreshBudget(s: Race, n: nat, k: Cost)
    requires FreshRace(s, n)
    ensures RaceOk(s) && Budget(s, k) == (k.read + k.post + k.write) * Powers(n, MAX_ATTEMPTS)
  {
    hide Powers, Round;
    StartBudget(s.workers, s.row, n, k);
    RoundsArePowers(0, n, k);
  }

  lemma {:induction false} NoBudgetStopped(ws: seq<Phase>, row: Delivery, n: nat)
    requires TotalPotential(ws, row, n, Cost(1, 1, 1)) == 0
    ensures forall w :: 0 <= w < |ws| ==> ws[w].Stopped?
  {
    if ws != [] {
      NoBudgetStopped(ws[..|ws| - 1], row, n);
    }
  }

  /** Every event lets some execution that has not returned take its next statement. */
  ghost predicate Busy(s: Race, events: seq<RaceEvent>)
  {
    forall i :: 0 <= i < |events| ==>
      events[i].Go? && events[i].w < |Execute(s, events[..i]).workers|
      && !Execute(s, events[..i]).workers[events[i].w].Stopped?
  }

  lemma {:induction false} BusySpends(s: Race, events: seq<RaceEvent>)
    requires Busy(s, events)
    ensures Spent(s, events, Cost(1, 1, 1)) == |events|
  {
    if events != [] {
      var n := |events| - 1;
      var front := events[..n];
      forall i | 0 <= i < n ensures front[..i] == events[..i] {
      }
      assert Busy(s, front);
      BusySpends(s, front);
      assert events[n].Go? && !Execute(s, events[..n]).workers[events[n].w].Stopped?;
    }
  }

  /**
   No schedule keeps the executions busy for more statements than the potential they start with, from
   any good state at all: a delivery just reset by a retry, with stale executions still holding old
   counts, included.
   */
  lemma BusyEnds(s: Race, events: seq<RaceEvent>)
    requires RaceOk(s) && Busy(s, events)
    ensures |events| <= Budget(s, Cost(1, 1, 1))
  {
    hide Execute, Budget, RaceOk;
    BusySpends(s, events);
    BudgetBounds(s, events, Cost(1, 1, 1));
  }

  /** For n executions on a fresh delivery that is 3 * (n + n^2 + ... + n^5) statements. */
  lemma FreshBusyEnds(s: Race, n: nat, events: seq<RaceEvent>)
    requires FreshRace(s, n) && Busy(s, events)
    ensures |events| <= 3 * Powers(n, MAX_ATTEMPTS)
  {
    hide Powers, Execute;
    FreshBudget(s, n, Cost(1, 1, 1));
    BusyEnds(s, events);
  }

  /** The POSTs a race has counted are the ones its events were charged for. */
  lemma {:induction false} PostsCounted(s: Race, events: seq<RaceEvent>)
    ensures Execute(s, events).posts == s.posts + Spent(s, events, Cost(0, 1, 0))
  {
    if events != [] {
      PostsCounted(s, events[..|events| - 1]);
    }
  }
}
