/** Reading the ledger back: a payment's events, replayed in order, rebuild its account. */
module History {
  import opened Types
  import opened Headroom
  import opened Tables

  datatype RefundEntry = RefundEntry(amount: int, currency: string, status: Status)

  /** What the tables say about one payment and its refunds. */
  datatype Account = Account(
    amount: int, currency: string, status: Status, refunds: map<Uuid, RefundEntry>, reserved: int)

  datatype State = Unopened | Open(account: Account) | Illegal

  /**
   The legal histories: accepted, then settled, then refund requests whose running total passes the
   headroom rule, each refund succeeding once and only after its own request.
   */
  function Next(h: State, e: Event): State
  {
    match (h, e)
    case (Unopened, PaymentAccepted(a, c)) =>
      if a > 0 then Open(Account(a, c, Pending, map[], 0)) else Illegal
    case (Open(acc), SettlementCompleted) =>
      if acc.status.Pending? then Open(acc.(status := Succeeded)) else Illegal
    case (Open(acc), RefundRequested(r, a, c)) =>
      if acc.status.Succeeded? && r !in acc.refunds && 0 < a <= acc.amount && c == acc.currency
         && Bounded(acc.amount, acc.reserved + a)
      then Open(acc.(refunds := acc.refunds[r := RefundEntry(a, c, Pending)], reserved := acc.reserved + a))
      else Illegal
    case (Open(acc), RefundSucceeded(r)) =>
      if r in acc.refunds && acc.refunds[r].status.Pending?
      then Open(acc.(refunds := acc.refunds[r := acc.refunds[r].(status := Succeeded)]))
      else Illegal
    case _ => Illegal
  }

  function Replay(events: seq<Event>): State
  {
    if events == [] then Unopened else Next(Replay(events[..|events| - 1]), events[|events| - 1])
  }

  /** The events of one payment in ledger order. */
  function EventsOf(ledger: seq<LedgerRow>, p: Uuid): seq<Event>
  {
    if ledger == [] then []
    else
      var n := |ledger| - 1;
      if ledger[n].payment == p then EventsOf(ledger[..n], p) + [ledger[n].event] else EventsOf(ledger[..n], p)
  }

  function KeyOf(e: Event): DedupeKey
  {
    match e
    case PaymentAccepted(_, _) => AcceptedKey
    case SettlementCompleted => SettledKey
    case RefundRequested(r, _, _) => RequestedKey(r)
    case RefundSucceeded(r) => RefundedKey(r)
  }

  lemma EventsOfAppend(ledger: seq<LedgerRow>, row: LedgerRow, p: Uuid)
    ensures EventsOf(ledger + [row], p)
            == if row.payment == p then EventsOf(ledger, p) + [row.event] else EventsOf(ledger, p)
  {
    assert (ledger + [row])[..|ledger|] == ledger;
  }

  lemma ReplayAppend(events: seq<Event>, e: Event)
    ensures Replay(events + [e]) == Next(Replay(events), e)
  {
    assert (events + [e])[..|events|] == events;
  }

  /** Illegal is absorbing, so a history that replays is legal at every prefix. */
  lemma {:induction false} PrefixLegal(events: seq<Event>, n: nat)
    requires !Replay(events).Illegal? && n <= |events|
    ensures !Replay(events[..n]).Illegal?
  {
    if n < |events| {
      var front := events[..|events| - 1];
      PrefixLegal(front, n);
      assert front[..n] == events[..n];
    } else {
      assert events[..n] == events;
    }
  }

  /** An event with this dedupe key has happened, judging by the account alone. */
  predicate Happened(acc: Account, k: DedupeKey)
  {
    match k
    case AcceptedKey => true
    case SettledKey => acc.status.Succeeded?
    case RequestedKey(r) => r in acc.refunds
    case RefundedKey(r) => r in acc.refunds && acc.refunds[r].status.Succeeded?
  }

  ghost predicate Recorded(events: seq<Event>, k: DedupeKey)
  {
    exists e :: e in events && KeyOf(e) == k
  }

  lemma HappenedNext(h: State, e: Event, k: DedupeKey)
    requires Next(h, e).Open?
    ensures Happened(Next(h, e).account, k) <==> (h.Open? && Happened(h.account, k)) || KeyOf(e) == k
  {
  }

  lemma RecordedAppend(events: seq<Event>, last: Event, k: DedupeKey)
    ensures Recorded(events + [last], k) <==> Recorded(events, k) || KeyOf(last) == k
  {
    var all := events + [last];
    assert last in all;
    if Recorded(events, k) {
      var e :| e in events && KeyOf(e) == k;
      assert e in all;
    }
  }

  /** The account and the ledger agree on which keys are used, in both directions. */
  lemma {:induction false} RecordedIffHappened(events: seq<Event>, k: DedupeKey)
    requires Replay(events).Open?
    ensures Recorded(events, k) <==> Happened(Replay(events).account, k)
  {
    var n := |events| - 1;
    var front, last := events[..n], events[n];
    assert events == front + [last];
    RecordedAppend(front, last, k);
    HappenedNext(Replay(front), last, k);
    if front != [] {
      assert Replay(front).Open? by { assert !Replay(front).Unopened? by { OnlyEmptyIsUnopened(front); } }
      RecordedIffHappened(front, k);
    }
  }

  lemma OnlyEmptyIsUnopened(events: seq<Event>)
    requires events != []
    ensures !Replay(events).Unopened?
  {
    assert Replay(events) == Next(Replay(events[..|events| - 1]), events[|events| - 1]);
  }

  lemma {:induction false} EventsOfMember(ledger: seq<LedgerRow>, p: Uuid, e: Event)
    ensures e in EventsOf(ledger, p) <==> exists i :: 0 <= i < |ledger| && ledger[i].payment == p && ledger[i].event == e
  {
    if ledger != [] {
      var n := |ledger| - 1;
      EventsOfMember(ledger[..n], p, e);
      if e in EventsOf(ledger[..n], p) {
        var i :| 0 <= i < n && ledger[..n][i].payment == p && ledger[..n][i].event == e;
        assert ledger[i].payment == p && ledger[i].event == e;
      }
      if i :| 0 <= i < |ledger| && ledger[i].payment == p && ledger[i].event == e {
        if i < n {
          assert ledger[..n][i].payment == p && ledger[..n][i].event == e;
        }
      }
    }
  }

  ghost predicate KeysMatchEvents(ledger: seq<LedgerRow>)
  {
    forall i :: 0 <= i < |ledger| ==> ledger[i].dedupe == KeyOf(ledger[i].event)
  }

  /** For a payment with a legal history, the unique index holds exactly the keys that have happened. */
  lemma HasKeyIffHappened(ledger: seq<LedgerRow>, p: Uuid, k: DedupeKey)
    requires KeysMatchEvents(ledger)
    requires Replay(EventsOf(ledger, p)).Open?
    ensures HasKey(ledger, p, k) <==> Happened(Replay(EventsOf(ledger, p)).account, k)
  {
    var events := EventsOf(ledger, p);
    RecordedIffHappened(events, k);
    if HasKey(ledger, p, k) {
      var i :| 0 <= i < |ledger| && ledger[i].payment == p && ledger[i].dedupe == k;
      EventsOfMember(ledger, p, ledger[i].event);
      assert Recorded(events, k);
    }
    if Recorded(events, k) {
      var e :| e in events && KeyOf(e) == k;
      EventsOfMember(ledger, p, e);
      var i :| 0 <= i < |ledger| && ledger[i].payment == p && ledger[i].event == e;
      assert ledger[i].dedupe == k;
    }
  }
}
