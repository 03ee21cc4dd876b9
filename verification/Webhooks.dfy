/** The webhook_deliveries table: enqueueing after a settlement, and the statements that update one row. */
module Webhooks {
  import opened Types
  import opened Text
  import opened Tables
  import opened Invariant
  import opened Growth

  /** parses says whether http.NewRequest accepts the URL. */
  datatype Url = Url(text: string, parses: bool)

  /** tenants.webhook_url and tenants.webhook_signing_secret; None is SQL NULL, and a tenant without an entry has NULL in both. */
  datatype Hook = Hook(url: Option<Url>, secret: Option<string>)

  /** The stored texts are 'pending', 'succeeded' and 'dlq'. */
  datatype DeliveryStatus = Waiting | Delivered | DeadLetter

  datatype Delivery = Delivery(
    tenant: Uuid, subject: Subject, payment: Uuid, amount: Int64, currency: string,
    merchantKey: string, target: Url,
    status: DeliveryStatus, attempts: int, maxAttempts: int, lastError: string)

  /** One entry of the unique index (tenant_id, merchant_idempotency_key). */
  datatype MerchantSlot = MerchantSlot(tenant: Uuid, key: string)

  datatype Outgoing = Outgoing(rows: map<Uuid, Delivery>, keys: map<MerchantSlot, Uuid>)

  const MAX_ATTEMPTS := 5
  const MISSING_SECRET := "missing_webhook_signing_secret"

  // ---------- enqueueing: read, then insert ----------

  predicate HookReady(h: Hook)
  {
    h.url.Some? && h.url.value.text != "" && h.secret.Some? && h.secret.value != ""
  }

  /** What the first query returns: the settled subject with its tenant's hook, if both are there. */
  datatype Draft = Draft(tenant: Uuid, subject: Subject, payment: Uuid, amount: Int64, currency: string, target: Url)

  function ReadSettled(db: Db, hooks: map<Uuid, Hook>, s: Subject): Option<Draft>
  {
    if !HasSucceeded(db, s) then None
    else
      var (tenant, payment, amount, currency) :=
        match s
        case ThePayment(p) => (db.payments[p].tenant, p, db.payments[p].amount, db.payments[p].currency)
        case TheRefund(r) => (db.refunds[r].tenant, db.refunds[r].payment, db.refunds[r].amount, db.refunds[r].currency);
      if tenant !in hooks || !HookReady(hooks[tenant]) then None
      else Some(Draft(tenant, s, payment, amount, currency, hooks[tenant].url.value))
  }

  /** The subject has succeeded, and its tenant wants webhooks and can sign them. */
  predicate Wanted(db: Db, hooks: map<Uuid, Hook>, s: Subject) { ReadSettled(db, hooks, s).Some? }

  ghost predicate HasDelivery(out: Outgoing, s: Subject)
  {
    exists x :: x in out.rows && out.rows[x].subject == s
  }

  function SlotOf(d: Delivery): MerchantSlot { MerchantSlot(d.tenant, d.merchantKey) }

  function NewDelivery(d: Draft): Delivery
  {
    Delivery(d.tenant, d.subject, d.payment, d.amount, d.currency, MerchantText(d.subject), d.target,
             Waiting, 0, MAX_ATTEMPTS, "")
  }

  /** INSERT ... ON CONFLICT (tenant_id, merchant_idempotency_key) DO NOTHING; a new row is also published. */
  function InsertDelivery(out: Outgoing, d: Draft, id: Uuid): (Outgoing, bool)
  {
    var row := NewDelivery(d);
    if SlotOf(row) in out.keys then (out, false)
    else (Outgoing(out.rows[id := row], out.keys[SlotOf(row) := id]), true)
  }

  // ---------- statements on one delivery, all guarded by the status ----------

  function RecordSuccess(row: Delivery): Delivery
  {
    if row.status.Waiting? then row.(status := Delivered) else row
  }

  function RecordFailure(row: Delivery, newAttempts: int, error: string, exhausted: bool): Delivery
  {
    if row.status.Waiting?
    then row.(attempts := newAttempts, lastError := error, status := if exhausted then DeadLetter else Waiting)
    else row
  }

  function ParkExhausted(row: Delivery): Delivery
  {
    if row.status.Waiting? then row.(status := DeadLetter) else row
  }

  function ParkMissingSecret(row: Delivery): Delivery
  {
    if row.status.Waiting? then row.(status := DeadLetter, lastError := MISSING_SECRET) else row
  }

  function ResetForRetry(row: Delivery): Delivery
  {
    if row.status.DeadLetter? then row.(status := Waiting, attempts := 0, lastError := "") else row
  }

  datatype RetryReply = RetryNotFound | RetryNotDlq | RetryQueued

  /** postWebhookDeliveryRetry reads the status first, and answers on that reading. */
  function RetryCheck(out: Outgoing, tenant: Uuid, id: Uuid): RetryReply
  {
    if id !in out.rows || out.rows[id].tenant != tenant then RetryNotFound
    else if !out.rows[id].status.DeadLetter? then RetryNotDlq
    else RetryQueued
  }

  /** Then it updates, guarded by the status at that moment. */
  function RetryReset(out: Outgoing, tenant: Uuid, id: Uuid): Outgoing
  {
    if id !in out.rows || out.rows[id].tenant != tenant then out
    else out.(rows := out.rows[id := ResetForRetry(out.rows[id])])
  }

  /** The whole call when nothing comes in between; a queued row is published again. */
  function Retry(out: Outgoing, tenant: Uuid, id: Uuid): (Outgoing, RetryReply)
  {
    var reply := RetryCheck(out, tenant, id);
    (if reply.RetryQueued? then RetryReset(out, tenant, id) else out, reply)
  }

  // ---------- the invariant ----------

  /** The attempt bookkeeping of one row. */
  predicate AttemptsOk(d: Delivery)
  {
    && d.maxAttempts == MAX_ATTEMPTS && 0 <= d.attempts <= d.maxAttempts
    && (d.status.Waiting? ==> d.attempts < d.maxAttempts)
    && (d.status.DeadLetter? ==> d.attempts == d.maxAttempts || d.lastError == MISSING_SECRET)
  }

  /** A draft agrees with the row it was read from, which has succeeded. */
  predicate FromSource(db: Db, tenant: Uuid, s: Subject, payment: Uuid, amount: Int64, currency: string)
  {
    HasSucceeded(db, s) &&
    match s
    case ThePayment(p) =>
      p == payment && db.payments[p].tenant == tenant && db.payments[p].amount == amount && db.payments[p].currency == currency
    case TheRefund(r) =>
      db.refunds[r].payment == payment && db.refunds[r].tenant == tenant && db.refunds[r].amount == amount
      && db.refunds[r].currency == currency
  }

  function OwnerOf(db: Db, s: Subject): Uuid
    requires HasSucceeded(db, s)
  {
    match s
    case ThePayment(p) => db.payments[p].tenant
    case TheRefund(r) => db.refunds[r].tenant
  }

  predicate DraftOk(db: Db, d: Draft) { FromSource(db, d.tenant, d.subject, d.payment, d.amount, d.currency) }

  predicate DeliveryOk(db: Db, d: Delivery)
  {
    FromSource(db, d.tenant, d.subject, d.payment, d.amount, d.currency) && d.merchantKey == MerchantText(d.subject)
  }

  ghost predicate OutgoingOk(out: Outgoing, db: Db)
  {
    && (forall k | k in out.keys :: out.keys[k] in out.rows && SlotOf(out.rows[out.keys[k]]) == k)
    && (forall id | id in out.rows ::
          DeliveryOk(db, out.rows[id]) && AttemptsOk(out.rows[id])
          && SlotOf(out.rows[id]) in out.keys && out.keys[SlotOf(out.rows[id])] == id)
  }

  lemma ReadIsFromSource(db: Db, hooks: map<Uuid, Hook>, s: Subject)
    ensures ReadSettled(db, hooks, s).Some? ==> DraftOk(db, ReadSettled(db, hooks, s).value)
  {
  }

  /** A delivery is wanted when the subject has succeeded and its tenant has a URL and a secret, neither of them empty. */
  lemma WantedMeans(db: Db, hooks: map<Uuid, Hook>, s: Subject)
    ensures Wanted(db, hooks, s) <==>
              && HasSucceeded(db, s) && OwnerOf(db, s) in hooks
              && hooks[OwnerOf(db, s)].url.Some? && |hooks[OwnerOf(db, s)].url.value.text| > 0
              && hooks[OwnerOf(db, s)].secret.Some? && |hooks[OwnerOf(db, s)].secret.value| > 0
    ensures Wanted(db, hooks, s) ==>
              var d := ReadSettled(db, hooks, s).value;
              d.subject == s && d.tenant == OwnerOf(db, s) && hooks[d.tenant].url == Some(d.target)
  {
  }

  lemma SourceStays(db: Db, db': Db, tenant: Uuid, s: Subject, payment: Uuid, amount: Int64, currency: string)
    requires Grows(db, db') && FromSource(db, tenant, s, payment, amount, currency)
    ensures FromSource(db', tenant, s, payment, amount, currency)
  {
  }

  lemma OutgoingStays(out: Outgoing, db: Db, db': Db)
    requires OutgoingOk(out, db) && Grows(db, db')
    ensures OutgoingOk(out, db')
  {
    hide Grows, FromSource, AttemptsOk;
    forall id | id in out.rows ensures DeliveryOk(db', out.rows[id]) {
      var d := out.rows[id];
      SourceStays(db, db', d.tenant, d.subject, d.payment, d.amount, d.currency);
    }
  }

  /**
   A subject has at most one delivery, because its tenant and its merchant key are determined by it;
   a merchant key belongs to one subject only, so no delivery is ever suppressed by another subject's.
   */
  lemma OneDeliveryPerSubject(out: Outgoing, db: Db, i: Uuid, j: Uuid)
    requires OutgoingOk(out, db) && i in out.rows && j in out.rows
    ensures out.rows[i].subject == out.rows[j].subject <==> i == j
  {
  }

  /** The insert may come long after the read: in between the tables grew and other workers inserted. */
  lemma InsertOk(out: Outgoing, db: Db, d: Draft, id: Uuid)
    requires OutgoingOk(out, db) && DraftOk(db, d) && id !in out.rows
    ensures var (out', published) := InsertDelivery(out, d, id);
            && OutgoingOk(out', db)
            && (published <==> !HasDelivery(out, d.subject))
            && HasDelivery(out', d.subject)
            && (published ==> out' == Outgoing(out.rows[id := NewDelivery(d)], out'.keys))
            && (!published ==> out' == out)
  {
    hide FromSource, AttemptsOk;
    SlotMeansSubject(out, db, d);
    FreshDeliveryOk(d);
    var (out', published) := InsertDelivery(out, d, id);
    if published {
      assert out'.rows[id].subject == d.subject;
    } else {
      var x := out.keys[SlotOf(NewDelivery(d))];
      assert x in out.rows && out.rows[x].subject == d.subject;
    }
  }

  /** Enqueueing reads and then inserts. */
  lemma EnqueueOk(out: Outgoing, db0: Db, hooks: map<Uuid, Hook>, s: Subject, db: Db, id: Uuid)
    requires OutgoingOk(out, db) && Grows(db0, db) && ReadSettled(db0, hooks, s).Some? && id !in out.rows
    ensures var d := ReadSettled(db0, hooks, s).value;
            var (out', published) := InsertDelivery(out, d, id);
            && OutgoingOk(out', db)
            && (published <==> !HasDelivery(out, s))
            && HasDelivery(out', s)
            && (published ==> out' == Outgoing(out.rows[id := NewDelivery(d)], out'.keys))
            && (!published ==> out' == out)
  {
    hide Grows, FromSource, OutgoingOk, InsertDelivery, HasDelivery;
    var d := ReadSettled(db0, hooks, s).value;
    ReadIsFromSource(db0, hooks, s);
    SourceStays(db0, db, d.tenant, d.subject, d.payment, d.amount, d.currency);
    InsertOk(out, db, d, id);
  }

  /**
   Enqueueing, in terms of the hook and the rows: a row is made and published exactly when the subject
   has succeeded, its tenant has a URL and a secret, and it has no delivery yet. The row is addressed
   to that URL, with all its attempts ahead of it.
   */
  ghost predicate EnqueueRule(db: Db, hooks: map<Uuid, Hook>, s: Subject, out: Outgoing, id: Uuid, out': Outgoing, published: bool)
  {
    && (published <==>
          && HasSucceeded(db, s) && OwnerOf(db, s) in hooks
          && hooks[OwnerOf(db, s)].url.Some? && |hooks[OwnerOf(db, s)].url.value.text| > 0
          && hooks[OwnerOf(db, s)].secret.Some? && |hooks[OwnerOf(db, s)].secret.value| > 0
          && forall x | x in out.rows :: out.rows[x].subject != s)
    && (!published ==> out' == out)
    && (published ==>
          && id in out'.rows && out'.rows == out.rows[id := out'.rows[id]]
          && var row := out'.rows[id];
          && FromSource(db, row.tenant, s, row.payment, row.amount, row.currency)
          && row.subject == s && hooks[OwnerOf(db, s)].url == Some(row.target)
          && row.merchantKey == (match s
                                 case ThePayment(p) => "payflow/evt/payment.settled/" + p.text
                                 case TheRefund(r) => "payflow/evt/refund.succeeded/" + r.text)
          && row.status == Waiting && row.attempts == 0 && row.maxAttempts == 5 && row.lastError == "")
  }

  lemma EnqueueFollows(db: Db, hooks: map<Uuid, Hook>, s: Subject, out: Outgoing, id: Uuid)
    requires OutgoingOk(out, db) && id !in out.rows
    ensures ReadSettled(db, hooks, s).None? ==> EnqueueRule(db, hooks, s, out, id, out, false)
    ensures ReadSettled(db, hooks, s).Some? ==>
              var (out', published) := InsertDelivery(out, ReadSettled(db, hooks, s).value, id);
              EnqueueRule(db, hooks, s, out, id, out', published)
  {
    WantedMeans(db, hooks, s);
    ReadIsFromSource(db, hooks, s);
    hide ReadSettled, OutgoingOk, FromSource, HasSucceeded;
    if Wanted(db, hooks, s) {
      InsertOk(out, db, ReadSettled(db, hooks, s).value, id);
    }
  }

  lemma FreshDeliveryOk(d: Draft)
    ensures AttemptsOk(NewDelivery(d))
  {
  }

  lemma SlotMeansSubject(out: Outgoing, db: Db, d: Draft)
    requires OutgoingOk(out, db) && DraftOk(db, d)
    ensures SlotOf(NewDelivery(d)) in out.keys <==> HasDelivery(out, d.subject)
    ensures SlotOf(NewDelivery(d)) in out.keys ==> out.rows[out.keys[SlotOf(NewDelivery(d))]].subject == d.subject
  {
    hide AttemptsOk;
    var k := SlotOf(NewDelivery(d));
    if k in out.keys {
      MerchantTextInjective(out.rows[out.keys[k]].subject, d.subject);
    }
    if x :| x in out.rows && out.rows[x].subject == d.subject {
      assert SlotOf(out.rows[x]) == k;
    }
  }

  lemma StatementsKeepAttempts(d: Delivery, c: int, error: string)
    requires AttemptsOk(d) && 0 <= c < d.maxAttempts
    ensures AttemptsOk(RecordSuccess(d)) && AttemptsOk(RecordFailure(d, c + 1, error, c + 1 >= d.maxAttempts))
    ensures AttemptsOk(ParkMissingSecret(d)) && AttemptsOk(ResetForRetry(d))
  {
  }

  /** An update of one row's delivery state keeps the table's invariant. */
  lemma UpdateOk(out: Outgoing, db: Db, id: Uuid, d: Delivery)
    requires OutgoingOk(out, db) && id in out.rows && AttemptsOk(d)
    requires d == out.rows[id].(status := d.status, attempts := d.attempts, lastError := d.lastError)
    ensures OutgoingOk(out.(rows := out.rows[id := d]), db)
  {
    hide FromSource, AttemptsOk;
  }

  lemma RetryResetOk(out: Outgoing, db: Db, tenant: Uuid, id: Uuid)
    requires OutgoingOk(out, db)
    ensures OutgoingOk(RetryReset(out, tenant, id), db)
  {
    hide DeliveryOk;
    if id in out.rows {
      StatementsKeepAttempts(out.rows[id], 0, "");
      UpdateOk(out, db, id, ResetForRetry(out.rows[id]));
    }
  }

  lemma RetryOk(out: Outgoing, db: Db, tenant: Uuid, id: Uuid)
    requires OutgoingOk(out, db)
    ensures OutgoingOk(Retry(out, tenant, id).0, db)
  {
    hide OutgoingOk;
    RetryResetOk(out, db, tenant, id);
  }

  /**
   Two retries that both read the dead letter before either updates both answer that they queued it.
   What the second update does is decided by the row it finds, whatever happened since the check: it
   resets the row again if a worker has dead-lettered the delivery once more in between, and changes
   nothing otherwise, as when it directly follows the first. A second retry that checks after the
   first update, before the delivery fails again, is told that it is no dead letter.
   */
  lemma RacingRetries(out: Outgoing, later: Outgoing, tenant: Uuid, id: Uuid)
    requires RetryCheck(out, tenant, id).RetryQueued?
    requires id in later.rows && later.rows[id].tenant == out.rows[id].tenant
    ensures RetryCheck(RetryReset(out, tenant, id), tenant, id) == RetryNotDlq
    ensures RetryReset(RetryReset(out, tenant, id), tenant, id) == RetryReset(out, tenant, id)
    ensures RetryReset(later, tenant, id) != later <==> later.rows[id].status.DeadLetter?
    ensures later.rows[id].status.DeadLetter? ==>
              RetryReset(later, tenant, id).rows[id] == later.rows[id].(status := Waiting, attempts := 0, lastError := "")
    ensures forall x | x in later.rows && x != id :: RetryReset(later, tenant, id).rows[x] == later.rows[x]
  {
    var once := RetryReset(out, tenant, id);
    assert once.rows[id := once.rows[id]] == once.rows;
    assert later.rows[id := later.rows[id]] == later.rows;
    assert RetryReset(later, tenant, id).rows[id] == ResetForRetry(later.rows[id]);
  }

  // ---------- tenant separation for deliveries ----------

  function DeliveriesFor(rows: map<Uuid, Delivery>, a: Uuid): map<Uuid, Delivery>
  {
    map id | id in rows && rows[id].tenant == a :: rows[id]
  }

  /** A retry by tenant a depends on, and changes, only a's deliveries. */
  lemma RetrySeparated(a: Uuid, b: Uuid, out: Outgoing, out': Outgoing, id: Uuid)
    requires DeliveriesFor(out.rows, a) == DeliveriesFor(out'.rows, a)
    ensures Retry(out, a, id).1 == Retry(out', a, id).1
    ensures DeliveriesFor(Retry(out, a, id).0.rows, a) == DeliveriesFor(Retry(out', a, id).0.rows, a)
    ensures b != a ==> DeliveriesFor(Retry(out, b, id).0.rows, a) == DeliveriesFor(out.rows, a)
    ensures id !in DeliveriesFor(out.rows, a) ==> Retry(out, a, id) == (out, RetryNotFound)
  {
    SameDelivery(a, out.rows, out'.rows, id);
    if id in DeliveriesFor(out.rows, a) {
      DeliveriesForPut(out.rows, id, ResetForRetry(out.rows[id]), a);
      DeliveriesForPut(out'.rows, id, ResetForRetry(out.rows[id]), a);
    }
    hide DeliveriesFor;
    if id in out.rows {
      DeliveriesForPut(out.rows, id, ResetForRetry(out.rows[id]), a);
    }
  }

  lemma SameDelivery(a: Uuid, rows: map<Uuid, Delivery>, rows': map<Uuid, Delivery>, id: Uuid)
    requires DeliveriesFor(rows, a) == DeliveriesFor(rows', a)
    ensures (id in rows && rows[id].tenant == a) <==> (id in rows' && rows'[id].tenant == a)
    ensures id in rows && rows[id].tenant == a ==> rows'[id] == rows[id]
  {
    assert id in DeliveriesFor(rows, a) <==> id in DeliveriesFor(rows', a);
    assert id in DeliveriesFor(rows, a) ==> DeliveriesFor(rows, a)[id] == DeliveriesFor(rows', a)[id];
  }

  lemma DeliveriesForPut(rows: map<Uuid, Delivery>, id: Uuid, d: Delivery, a: Uuid)
    requires id in rows ==> rows[id].tenant == d.tenant
    ensures DeliveriesFor(rows[id := d], a) == if d.tenant == a then DeliveriesFor(rows, a)[id := d] else DeliveriesFor(rows, a)
  {
  }
}
