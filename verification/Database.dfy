/** The services as code over mutable tables; every method is proved equal to its atomic operation. */
module Database {
  import opened Types
  import opened Text
  import opened Tables
  import opened Operations
  import opened Invariant
  import opened Runs
  import opened Cases
  import opened Growth
  import opened Webhooks
  import opened Backoff
  import opened Attempts
  import opened Tenancy

  class Store {
    var payments: map<Uuid, Payment>
    var paymentKeys: map<Slot, Uuid>
    var refunds: map<Uuid, Refund>
    var refundKeys: map<Slot, Uuid>
    var ledger: seq<LedgerRow>
    var outbox: map<Uuid, OutboxRow>
    var nextLedgerId: nat
    var deliveries: map<Uuid, Delivery>
    var deliveryKeys: map<MerchantSlot, Uuid>
    var hooks: map<Uuid, Hook>

    ghost function Money(): Db
      reads this
    {
      Db(payments, paymentKeys, refunds, refundKeys, ledger, outbox)
    }

    ghost function Out(): Outgoing
      reads this`deliveries, this`deliveryKeys
    {
      Outgoing(deliveries, deliveryKeys)
    }

    ghost predicate IdsUsed()
      reads this`ledger, this`nextLedgerId
    {
      forall i :: 0 <= i < |ledger| ==> ledger[i].id < nextLedgerId
    }

    /** A tenant that ever got a delivery has a secret; PATCH can empty it but not make it NULL. */
    ghost predicate SecretsSet()
      reads this`deliveries, this`hooks
    {
      forall id | id in deliveries :: deliveries[id].tenant in hooks && hooks[deliveries[id].tenant].secret.Some?
    }

    ghost predicate Valid()
      reads this
    {
      Inv(Money()) && IdsUsed() && OutgoingOk(Out(), Money()) && SecretsSet()
    }

    constructor ()
      ensures Valid() && Money() == EMPTY_DB && Out() == Outgoing(map[], map[])
    {
      payments, paymentKeys, refunds, refundKeys := map[], map[], map[], map[];
      ledger, outbox, nextLedgerId := [], map[], 1;
      deliveries, deliveryKeys, hooks := map[], map[], map[];
      new;
      EmptyInv();
    }

    /** ledger.Append: the sequence advances even when the row is a duplicate. */
    method Append(tenant: Uuid, payment: Uuid, dedupe: DedupeKey, event: Event) returns (inserted: bool)
      modifies this`ledger, this`nextLedgerId
      ensures Money() == AppendLedger(old(Money()), LedgerRow(old(nextLedgerId), tenant, payment, dedupe, event))
      ensures inserted <==> !HasKey(old(ledger), payment, dedupe)
      ensures nextLedgerId == old(nextLedgerId) + 1 && (old(IdsUsed()) ==> IdsUsed())
    {
      var row := LedgerRow(nextLedgerId, tenant, payment, dedupe, event);
      nextLedgerId := nextLedgerId + 1;
      inserted := !HasKey(ledger, payment, dedupe);
      if inserted {
        ledger := ledger + [row];
      }
    }

    /** After a call the tables are valid again, with ids below the sequence and deliveries agreeing with their sources. */
    lemma KeepValid(db: Db, op: Op, f: Fresh)
      requires Inv(db) && Admissible(db, op, f) && Money() == Exec(db, op, f).0
      requires OutgoingOk(Out(), db) && IdsUsed() && SecretsSet()
      ensures Valid()
    {
      hide Inv, Exec, Admissible, OutgoingOk, Grows;
      ExecInv(db, op, f);
      ExecGrows(db, op, f);
      OutgoingStays(Out(), db, Money());
    }

    /** The three inserts of a new payment: its row, its ledger event, its outbox row. */
    method WritePayment(id: Uuid, row: Payment, job: Uuid, now: nat)
      modifies this`payments, this`paymentKeys, this`ledger, this`outbox, this`nextLedgerId
      ensures Money() == AddPayment(old(Money()), row, Fresh(id, old(nextLedgerId), job, now, None))
      ensures old(IdsUsed()) ==> IdsUsed()
    {
      hide AppendLedger, HasKey;
      payments, paymentKeys := payments[id := row], paymentKeys[PaymentSlot(row) := id];
      ghost var inserted := Money();
      var _ := Append(row.tenant, id, AcceptedKey, PaymentAccepted(row.amount, row.currency));
      AppendTouchesLedger(inserted, AcceptedRow(old(nextLedgerId), id, row));
      outbox := outbox[job := OutboxRow(PaymentSettlement, PaymentIdPayload(id), now, false)];
    }

    /** The three inserts of a new refund. */
    method WriteRefund(id: Uuid, row: Refund, job: Uuid, now: nat)
      modifies this`refunds, this`refundKeys, this`ledger, this`outbox, this`nextLedgerId
      ensures Money() == AddRefund(old(Money()), row, Fresh(id, old(nextLedgerId), job, now, None))
      ensures old(IdsUsed()) ==> IdsUsed()
    {
      hide AppendLedger, HasKey;
      refunds, refundKeys := refunds[id := row], refundKeys[RefundSlot(row) := id];
      ghost var inserted := Money();
      var _ := Append(row.tenant, row.payment, RequestedKey(id), RefundRequested(id, row.amount, row.currency));
      AppendTouchesLedger(inserted, RequestedRow(old(nextLedgerId), id, row));
      outbox := outbox[job := OutboxRow(RefundSettlement, RefundIdPayload(id), now, false)];
    }

    /** payment.Service.Create */
    method CreatePayment(tenant: Uuid, key: string, amount: Int64, currency: string, id: Uuid, job: Uuid, now: nat)
      returns (r: Response)
      requires Valid() && id !in payments && job !in outbox
      modifies this
      ensures Valid() && Out() == old(Out()) && hooks == old(hooks)
      ensures (Money(), r) == Exec(old(Money()), Op.CreatePayment(tenant, key, amount, currency),
                                   Fresh(id, old(nextLedgerId), job, now, None))
    {
      hide Inv, Exec, ValidPayment, Normal, AddPayment, OutgoingOk, SecretsSet;
      ghost var db, op := Money(), Op.CreatePayment(tenant, key, amount, currency);
      ghost var f := Fresh(id, nextLedgerId, job, now, None);
      if !ValidPayment(amount, currency, key) {
        InvalidPayment(db, op, f);
        return Failed(InvalidInput);
      }
      var cur := Normal(currency);
      var hash := PaymentFingerprint(amount, cur);
      var slot := Slot(tenant, key);
      FreeSlot(db, slot);
      if slot in paymentKeys {
        var p := paymentKeys[slot];
        PaymentReplays(db, op, f, p);
        if payments[p].hash != hash {
          return Failed(IdempotencyMismatch);
        }
        return PaymentReply(p, amount, cur, payments[p].status, false);
      }
      WritePayment(id, Payment(tenant, amount, cur, Pending, key, hash), job, now);
      r := PaymentReply(id, amount, cur, Pending, true);
      PaymentAdded(db, op, f);
      KeepValid(db, op, f);
    }

    /** The total of the payment's refunds, pending or succeeded: the only two statuses a refund ever has. */
    method SumReserved(p: Uuid) returns (sum: int)
      ensures sum == Reserved(Money(), p)
    {
      var rows := map r | r in refunds && refunds[r].payment == p :: refunds[r];
      assert rows == RefundsOf(Money(), p);
      var left := rows;
      sum := 0;
      while left != map[]
        invariant forall r | r in left :: r in rows && left[r] == rows[r]
        invariant sum + SumAmounts(left) == SumAmounts(rows)
        decreases |left|
      {
        var r :| r in left;
        SumRemove(left, r);
        sum := sum + left[r].amount;
        left := left - {r};
      }
    }

    /** refund.Service.Create */
    method CreateRefund(tenant: Uuid, p: Uuid, key: string, amount: Int64, id: Uuid, job: Uuid, now: nat)
      returns (r: Response)
      requires Valid() && id !in refunds && job !in outbox
      modifies this
      ensures Valid() && Out() == old(Out()) && hooks == old(hooks)
      ensures (Money(), r) == Exec(old(Money()), Op.CreateRefund(tenant, p, key, amount),
                                   Fresh(id, old(nextLedgerId), job, now, None))
    {
      hide Inv, Exec, ValidKey, Normal, AppendLedger, OutgoingOk, Reserved, AddInt64, EffectiveAmount;
      ghost var db, op := Money(), Op.CreateRefund(tenant, p, key, amount);
      ghost var f := Fresh(id, nextLedgerId, job, now, None);
      if !ValidKey(key) {
        RefundRefused(db, op, f, InvalidInput);
        return Failed(InvalidInput);
      }
      if p !in payments || payments[p].tenant != tenant {
        RefundRefused(db, op, f, NotFound);
        return Failed(NotFound);
      }
      var pay := payments[p];
      if !pay.status.Succeeded? {
        RefundRefused(db, op, f, NotRefundable);
        return Failed(NotRefundable);
      }
      var amt := EffectiveAmount(amount, pay.amount);
      if amt <= 0 || amt > pay.amount {
        RefundRefused(db, op, f, InvalidInput);
        return Failed(InvalidInput);
      }
      var cur := Normal(pay.currency);
      var reserved := SumReserved(p);
      if !(-MAX_INT64 - 1 <= reserved <= MAX_INT64) {
        RefundOverBalance(db, op, f, amt, cur, SumOverflow);
        return Failed(SumOverflow);
      }
      if AddInt64(reserved, amt) > pay.amount {
        RefundOverBalance(db, op, f, amt, cur, AmountExceeded);
        return Failed(AmountExceeded);
      }
      r := InsertRefundRow(tenant, p, key, amount, amt, cur, id, job, now);
    }

    /** The second half of refund.Service.Create: insert or replay, then the ledger and the outbox. */
    method InsertRefundRow(tenant: Uuid, p: Uuid, key: string, ghost amount: Int64, amt: Int64, cur: string,
                           id: Uuid, job: Uuid, now: nat)
      returns (r: Response)
      requires Valid() && id !in refunds && job !in outbox && ValidKey(key)
      requires CheckPayment(Money(), tenant, p, amount) == Admit(amt, cur)
      requires CheckHeadroom(Reserved(Money(), p), amt, payments[p].amount).None?
      modifies this
      ensures Valid() && Out() == old(Out()) && hooks == old(hooks)
      ensures (Money(), r) == Exec(old(Money()), Op.CreateRefund(tenant, p, key, amount),
                                   Fresh(id, old(nextLedgerId), job, now, None))
    {
      hide Inv, Exec, ValidKey, Normal, AddRefund, OutgoingOk, SecretsSet, Reserved, CheckPayment, CheckHeadroom;
      ghost var db, op := Money(), Op.CreateRefund(tenant, p, key, amount);
      ghost var f := Fresh(id, nextLedgerId, job, now, None);
      var hash := RefundBody(p, amt);
      var slot := Slot(tenant, key);
      FreeSlot(db, slot);
      if slot in refundKeys {
        var stored := refundKeys[slot];
        RefundReplays(db, op, f, amt, cur, stored);
        if refunds[stored].hash != hash {
          return Failed(IdempotencyMismatch);
        }
        return RefundReply(stored, p, amt, cur, refunds[stored].status, false);
      }
      WriteRefund(id, Refund(tenant, p, amt, cur, Pending, key, hash), job, now);
      r := RefundReply(id, p, amt, cur, Pending, true);
      RefundAdded(db, op, f, amt, cur);
      assert LedgerIdFresh(db, p, f.ledgerId);
      KeepValid(db, op, f);
    }

    /** payment.SettleMockTx */
    method SettlePaymentTx(p: Uuid)
      modifies this`payments, this`ledger, this`nextLedgerId
      ensures Money() == SettlePayment(old(Money()), p, old(nextLedgerId)) && (old(IdsUsed()) ==> IdsUsed())
    {
      hide AppendLedger;
      if p !in payments || payments[p].status.Succeeded? {
        return;
      }
      ghost var db := Money();
      var _ := Append(payments[p].tenant, p, SettledKey, SettlementCompleted);
      AppendTouchesLedger(db, SettledRow(old(nextLedgerId), db.payments[p].tenant, p));
      if payments[p].status.Pending? {
        payments := payments[p := payments[p].(status := Succeeded)];
      }
    }

    /** refund.SettleMockTx; ok is false on the "payment status" error. */
    method SettleRefundTx(r: Uuid) returns (ok: bool)
      modifies this`refunds, this`ledger, this`nextLedgerId
      ensures ok <==> !RefundStuck(old(Money()), r)
      ensures Money() == SettleRefund(old(Money()), r, old(nextLedgerId)) && (old(IdsUsed()) ==> IdsUsed())
    {
      hide AppendLedger;
      if r !in refunds || refunds[r].payment !in payments {
        return true;
      }
      var row := refunds[r];
      if !row.status.Pending? {
        return true;
      }
      if !payments[row.payment].status.Succeeded? {
        return false;
      }
      ghost var db := Money();
      var _ := Append(row.tenant, row.payment, RefundedKey(r), RefundSucceeded(r));
      AppendTouchesLedger(db, RefundedRow(old(nextLedgerId), r, row));
      if refunds[r].status.Pending? {
        refunds := refunds[r := refunds[r].(status := Succeeded)];
      }
      ok := true;
    }

    /** SettleMock for a broker job. */
    method SettleJob(s: Subject) returns (ok: bool)
      requires Valid()
      modifies this
      ensures Valid() && ok && Out() == old(Out()) && hooks == old(hooks)
      ensures Money() == SettleSubject(old(Money()), s, old(nextLedgerId))
    {
      hide Inv, Exec, SettlePayment, SettleRefund, OutgoingOk;
      ghost var db, f := Money(), Fresh(Uuid(""), nextLedgerId, Uuid(""), 0, None);
      NeverStuck(db, s);
      ok := true;
      match s {
        case ThePayment(p) => SettlePaymentTx(p);
        case TheRefund(r) => ok := SettleRefundTx(r);
      }
      SettleIsExec(db, s, f);
      KeepValid(db, Op.Settle(s), f);
    }

    lemma SettleIsExec(db: Db, s: Subject, f: Fresh)
      requires !Stuck(db, s) && forall i :: 0 <= i < |db.ledger| ==> db.ledger[i].id < f.ledgerId
      ensures Exec(db, Op.Settle(s), f) == (SettleSubject(db, s, f.ledgerId), Settled)
      ensures Admissible(db, Op.Settle(s), f)
    {
      hide SettleSubject, Stuck;
    }

    // ---------- the outbox worker ----------

    /** ORDER BY created_at ASC LIMIT 1 over the unprocessed rows. */
    method OldestJob() returns (claim: Option<Uuid>)
      ensures claim.None? <==> forall o | o in outbox :: outbox[o].processed
      ensures claim.Some? ==> Claimable(Money(), claim.value)
      ensures claim.Some? ==> forall o | o in outbox && !outbox[o].processed ::
                outbox[claim.value].createdAt <= outbox[o].createdAt
    {
      var left := outbox.Keys;
      claim := None;
      while left != {}
        invariant left <= outbox.Keys
        invariant claim.None? <==> forall o | o in outbox && o !in left :: outbox[o].processed
        invariant claim.Some? ==> Claimable(Money(), claim.value)
        invariant claim.Some? ==> forall o | o in outbox && o !in left && !outbox[o].processed ::
                    outbox[claim.value].createdAt <= outbox[o].createdAt
        decreases |left|
      {
        var o :| o in left;
        left := left - {o};
        if !outbox[o].processed && (claim.None? || outbox[o].createdAt < outbox[claim.value].createdAt) {
          claim := Some(o);
        }
      }
    }

    /** tryProcessOutbox: Idle only when every row is processed, and never an error. */
    method ProcessOutbox() returns (r: Response, ghost claim: Option<Uuid>)
      requires Valid()
      modifies this
      ensures Valid() && Out() == old(Out()) && hooks == old(hooks)
      ensures (Money(), r) == Exec(old(Money()), Op.ProcessOutbox, Fresh(Uuid(""), old(nextLedgerId), Uuid(""), 0, claim))
      ensures claim.None? <==> forall o | o in old(outbox) :: old(outbox)[o].processed
      ensures claim.Some? ==> Claimable(old(Money()), claim.value) && r == Followup(Decode(old(outbox)[claim.value]).value)
      ensures claim.None? ==> r == Idle && Money() == old(Money())
      ensures claim.Some? ==> forall o | o in old(outbox) && !old(outbox)[o].processed ::
                old(outbox)[claim.value].createdAt <= old(outbox)[o].createdAt
    {
      hide Inv, Exec, SettlePayment, SettleRefund, OutgoingOk;
      ghost var db := Money();
      var c := OldestJob();
      claim := c;
      ghost var f := Fresh(Uuid(""), nextLedgerId, Uuid(""), 0, c);
      if c.None? {
        OutboxIdle(db, f);
        return Idle, c;
      }
      var o := c.value;
      RowNotPoison(db, o);
      var s := Decode(outbox[o]).value;
      match s {
        case ThePayment(p) => SettlePaymentTx(p);
        case TheRefund(x) => var ok := SettleRefundTx(x);
      }
      SettleKeepsOutbox(db, s, f.ledgerId);
      outbox := outbox[o := outbox[o].(processed := true)];
      r := Followup(s);
      OutboxIsExec(db, o, f);
      KeepValid(db, Op.ProcessOutbox, f);
    }

    static lemma OutboxIdle(db: Db, f: Fresh)
      requires f.claim.None?
      ensures Exec(db, Op.ProcessOutbox, f) == (db, Idle)
    {
    }

    static lemma OutboxIsExec(db: Db, o: Uuid, f: Fresh)
      requires f.claim == Some(o) && Claimable(db, o) && Decode(db.outbox[o]).Some? && !Stuck(db, Decode(db.outbox[o]).value)
      requires forall i :: 0 <= i < |db.ledger| ==> db.ledger[i].id < f.ledgerId
      ensures var s := Decode(db.outbox[o]).value;
              Exec(db, Op.ProcessOutbox, f) == (MarkProcessed(SettleSubject(db, s, f.ledgerId), o), Followup(s))
      ensures Admissible(db, Op.ProcessOutbox, f)
    {
      hide SettleSubject, Stuck, MarkProcessed;
    }

    // ---------- webhook deliveries ----------

    /** EnqueuePaymentSettledIfNeeded and EnqueueRefundSucceededIfNeeded; a published id is a new row. */
    method Enqueue(s: Subject, id: Uuid) returns (published: bool)
      requires Valid() && id !in deliveries
      modifies this`deliveries, this`deliveryKeys
      ensures Valid()
      ensures match ReadSettled(Money(), hooks, s)
              case None => !published && Out() == old(Out())
              case Some(d) => (Out(), published) == InsertDelivery(old(Out()), d, id)
      ensures EnqueueRule(Money(), hooks, s, old(Out()), id, Out(), published)
    {
      hide Inv, OutgoingOk, EnqueueRule;
      EnqueueFollows(Money(), hooks, s, Out(), id);
      var succeeded := match s
        case ThePayment(p) => p in payments && payments[p].status.Succeeded?
        case TheRefund(r) => r in refunds && refunds[r].status.Succeeded?;
      if !succeeded {
        return false;
      }
      var (tenant, payment, amount, currency) := match s
        case ThePayment(p) => (payments[p].tenant, p, payments[p].amount, payments[p].currency)
        case TheRefund(r) => (refunds[r].tenant, refunds[r].payment, refunds[r].amount, refunds[r].currency);
      if tenant !in hooks || !HookReady(hooks[tenant]) {
        return false;
      }
      var url := hooks[tenant].url.value;
      Reflexive(Money());
      EnqueueOk(Out(), Money(), hooks, s, Money(), id);
      var slot := MerchantSlot(tenant, MerchantText(s));
      if slot in deliveryKeys {
        return false;
      }
      deliveries := deliveries[id := Delivery(tenant, s, payment, amount, currency, MerchantText(s), url,
                                              Waiting, 0, MAX_ATTEMPTS, "")];
      deliveryKeys := deliveryKeys[slot := id];
      published := true;
    }

    /** What the loop has made of row d after so many failed POSTs. */
    static predicate Retrying(d: Delivery, now: Delivery, net: Network, from: nat, failures: nat)
    {
      && now == AfterFailures(d, net, from, failures)
      && forall k: nat :: from <= k < from + failures ==> !net.success(k)
    }

    /** Where the loop ends after a run of failures: at a success, or with the budget used up. */
    static lemma LoopEnds(d: Delivery, secret: string, net: Network, from: nat, failures: nat)
      requires AttemptsOk(d) && d.status.Waiting? && secret != "" && d.target.parses
      requires d.attempts + failures <= d.maxAttempts
      requires forall k: nat :: from <= k < from + failures ==> !net.success(k)
      ensures var row, r := AfterFailures(d, net, from, failures), Attempt(d, secret, net, from);
              && (d.attempts + failures < d.maxAttempts && net.success(from + failures) ==>
                    r == Outcome(row.(status := Delivered), failures + 1, Pauses(d.attempts, failures)))
              && (d.attempts + failures == d.maxAttempts ==>
                    r == Outcome(row.(status := DeadLetter), failures, Pauses(d.attempts, failures - 1)))
    {
      FailuresAfter(net.success, from, d.maxAttempts - d.attempts, failures);
      hide AfterFailures, Pauses;
    }

    static lemma OneMoreFailure(d: Delivery, net: Network, from: nat, failures: nat)
      ensures var now := AfterFailures(d, net, from, failures);
              && now == d.(attempts := d.attempts + failures, lastError := now.lastError)
              && AfterFailures(d, net, from, failures + 1)
                 == now.(attempts := now.attempts + 1, lastError := net.error(from + failures))
    {
    }

    /** The read / POST / write-back loop. */
    method DeliveryLoop(id: Uuid, net: Network, from: nat) returns (posts: nat, slept: nat)
      requires id in deliveries && AttemptsOk(deliveries[id])
      requires deliveries[id].tenant in hooks && hooks[deliveries[id].tenant].secret.Some?
      modifies this`deliveries
      ensures var d := old(deliveries)[id];
              var r := Attempt(d, hooks[d.tenant].secret.value, net, from);
              deliveries == old(deliveries)[id := r.row] && posts == r.posts && slept == r.slept
    {
      ghost var d, was := deliveries[id], deliveries;
      ghost var s := hooks[d.tenant].secret.value;
      assert was == was[id := d];
      posts, slept := 0, 0;
      while true
        invariant id in deliveries && deliveries == was[id := deliveries[id]]
        invariant Retrying(d, deliveries[id], net, from, posts) && slept == Pauses(d.attempts, posts)
        invariant posts > 0 ==>
                    d.status.Waiting? && s != "" && d.target.parses && d.attempts + posts < d.maxAttempts
        decreases d.maxAttempts - d.attempts - posts
      {
        var row := deliveries[id];
        OneMoreFailure(d, net, from, posts);
        if !row.status.Waiting? {
          return;
        }
        // neither the missing max_attempts nor the exhausted counter can be read from a pending row
        assert 0 <= row.attempts < row.maxAttempts;
        var secret := hooks[row.tenant].secret.value;
        if secret == "" {
          deliveries := deliveries[id := ParkMissingSecret(row)];
          return;
        }
        if !row.target.parses {
          return;
        }
        hide Attempt, Pauses, AfterFailures;
        LoopEnds(d, s, net, from, posts);
        if net.success(from + posts) {
          posts := posts + 1;
          deliveries := deliveries[id := RecordSuccess(row)];
          return;
        }
        LoopEnds(d, s, net, from, posts + 1);
        OneMoreFailure(d, net, from, posts);
        var newAttempts, exhausted := row.attempts + 1, row.attempts + 1 >= row.maxAttempts;
        deliveries := deliveries[id := RecordFailure(row, newAttempts, net.error(from + posts), exhausted)];
        posts := posts + 1;
        if exhausted {
          return;
        }
        slept := slept + Pause(newAttempts);
        PausesStep(d.attempts, posts);
      }
    }

    static lemma PausesStep(c: nat, n: nat)
      requires n > 0
      ensures Pauses(c, n) == Pauses(c, n - 1) + Pause(c + n)
    {
    }

    /** ProcessDelivery; the answers come from the network, time passes only in slept. */
    method ProcessDelivery(id: Uuid, net: Network, from: nat) returns (posts: nat, slept: nat)
      requires Valid()
      modifies this`deliveries
      ensures Valid()
      ensures id !in old(deliveries) ==> posts == 0 && slept == 0 && deliveries == old(deliveries)
      ensures id in old(deliveries) ==>
                var d := old(deliveries)[id];
                var r := Attempt(d, hooks[d.tenant].secret.value, net, from);
                deliveries == old(deliveries)[id := r.row] && posts == r.posts && slept == r.slept
      ensures id in old(deliveries) ==>
                var d := old(deliveries)[id];
                Processed(d, hooks[d.tenant].secret.value, net, from, Outcome(deliveries[id], posts, slept))
    {
      hide Inv, DeliveryOk, Attempt, AttemptsOk, Processed;
      posts, slept := 0, 0;
      if id in deliveries {
        ghost var d, out := deliveries[id], Out();
        AttemptProcesses(d, hooks[d.tenant].secret.value, net, from);
        AttemptKeeps(d, hooks[d.tenant].secret.value, net, from);
        posts, slept := DeliveryLoop(id, net, from);
        UpdateOk(out, Money(), id, deliveries[id]);
      }
    }

    /** The status check of postWebhookDeliveryRetry. */
    method CheckRetry(tenant: Uuid, id: Uuid) returns (r: RetryReply)
      ensures r == RetryCheck(Out(), tenant, id)
    {
      if id !in deliveries || deliveries[id].tenant != tenant {
        return RetryNotFound;
      }
      r := if deliveries[id].status.DeadLetter? then RetryQueued else RetryNotDlq;
    }

    /** Its guarded update, which may find the row changed since the check, or never there. */
    method ResetRetry(tenant: Uuid, id: Uuid)
      requires Valid()
      modifies this`deliveries
      ensures Valid() && Out() == RetryReset(old(Out()), tenant, id)
    {
      hide Inv, OutgoingOk;
      RetryResetOk(Out(), Money(), tenant, id);
      if id in deliveries && deliveries[id].tenant == tenant && deliveries[id].status.DeadLetter? {
        deliveries := deliveries[id := deliveries[id].(status := Waiting, attempts := 0, lastError := "")];
      }
    }

    /** postWebhookDeliveryRetry, undisturbed; the caller publishes the id when it is queued again. */
    method RetryDelivery(tenant: Uuid, id: Uuid) returns (r: RetryReply)
      requires Valid()
      modifies this`deliveries
      ensures Valid() && (Out(), r) == Retry(old(Out()), tenant, id)
    {
      hide Inv, OutgoingOk;
      r := CheckRetry(tenant, id);
      if r.RetryQueued? {
        ResetRetry(tenant, id);
      }
    }

    /** patchTenantWebhook: both columns are overwritten, the secret possibly with the empty string. */
    method SetWebhook(tenant: Uuid, url: string, parses: bool, secret: string) returns (ok: bool)
      requires Valid()
      modifies this`hooks
      ensures Valid() && ok == (TrimSpace(url) != "")
      ensures hooks == if ok then old(hooks)[tenant := Hook(Some(Url(TrimSpace(url), parses)), Some(secret))] else old(hooks)
    {
      hide Inv, OutgoingOk, TrimSpace;
      var target := TrimSpace(url);
      if target == "" {
        return false;
      }
      hooks := hooks[tenant := Hook(Some(Url(target, parses)), Some(secret))];
      ok := true;
    }

    /** ledger.ListByPayment */
    method ListLedger(tenant: Uuid, p: Uuid) returns (rows: seq<LedgerRow>)
      requires Valid()
      ensures rows == ListByPayment(ledger, tenant, p)
      ensures forall i, j :: 0 <= i < j < |rows| ==> rows[i].id < rows[j].id
      ensures forall row :: row in rows <==> row in ledger && row.tenant == tenant && row.payment == p
    {
      hide PaymentsOk, RefundsOk, Explained, OutboxOk, OutgoingOk;
      ListInIdOrder(ledger, tenant, p);
      rows := [];
      for i := 0 to |ledger|
        invariant rows == ListByPayment(ledger[..i], tenant, p)
      {
        assert ledger[..i + 1][..i] == ledger[..i];
        if ledger[i].tenant == tenant && ledger[i].payment == p {
          rows := rows + [ledger[i]];
        }
      }
      assert ledger[..|ledger|] == ledger;
    }
  }
}
