/** The branches of the two create operations, one lemma a branch. */
module Cases {
  import opened Types
  import opened Text
  import opened Tables
  import opened Operations

  lemma InvalidPayment(db: Db, op: Op, f: Fresh)
    requires op.CreatePayment? && !ValidPayment(op.amount, op.currency, op.key)
    ensures Exec(db, op, f) == (db, Failed(InvalidInput))
  {
    hide ValidPayment, Normal;
  }

  lemma PaymentReplays(db: Db, op: Op, f: Fresh, p: Uuid)
    requires op.CreatePayment? && ValidPayment(op.amount, op.currency, op.key)
    requires FindPayment(db, Slot(op.tenant, op.key)) == Some(p)
    ensures Exec(db, op, f) == (db, ReplayPayment(db, p, PaymentRowOf(op)))
  {
    hide ValidPayment, Normal;
  }

  lemma PaymentAdded(db: Db, op: Op, g: Fresh)
    requires op.CreatePayment? && ValidPayment(op.amount, op.currency, op.key)
    requires FindPayment(db, Slot(op.tenant, op.key)).None?
    ensures Exec(db, op, g) == (AddPayment(db, PaymentRowOf(op), g),
              PaymentReply(g.id, op.amount, Normal(op.currency), Pending, true))
  {
    hide ValidPayment, Normal, AddPayment;
  }

  lemma RefundRefused(db: Db, op: Op, f: Fresh, error: Error)
    requires op.CreateRefund?
    requires (!ValidKey(op.key) && error == InvalidInput)
          || (ValidKey(op.key) && CheckPayment(db, op.tenant, op.payment, op.amount) == Refuse(error))
    ensures Exec(db, op, f) == (db, Failed(error))
  {
    hide ValidKey, Normal, Reserved, CheckPayment;
  }

  lemma RefundOverBalance(db: Db, op: Op, f: Fresh, a: Int64, c: string, error: Error)
    requires op.CreateRefund? && ValidKey(op.key) && CheckPayment(db, op.tenant, op.payment, op.amount) == Admit(a, c)
    requires CheckHeadroom(Reserved(db, op.payment), a, db.payments[op.payment].amount) == Some(error)
    ensures Exec(db, op, f) == (db, Failed(error))
  {
    hide ValidKey, Normal, Reserved, CheckPayment, CheckHeadroom;
  }

  lemma RefundReplays(db: Db, op: Op, f: Fresh, a: Int64, c: string, r: Uuid)
    requires op.CreateRefund? && ValidKey(op.key) && CheckPayment(db, op.tenant, op.payment, op.amount) == Admit(a, c)
    requires CheckHeadroom(Reserved(db, op.payment), a, db.payments[op.payment].amount).None?
    requires FindRefund(db, Slot(op.tenant, op.key)) == Some(r)
    ensures Exec(db, op, f) == (db, ReplayRefund(db, r, RefundRowOf(op, a, c)))
  {
    hide ValidKey, Normal, Reserved, CheckPayment, CheckHeadroom;
  }

  lemma RefundAdded(db: Db, op: Op, g: Fresh, a: Int64, c: string)
    requires op.CreateRefund? && ValidKey(op.key) && CheckPayment(db, op.tenant, op.payment, op.amount) == Admit(a, c)
    requires CheckHeadroom(Reserved(db, op.payment), a, db.payments[op.payment].amount).None?
    requires FindRefund(db, Slot(op.tenant, op.key)).None?
    ensures Exec(db, op, g) == (AddRefund(db, RefundRowOf(op, a, c), g), RefundReply(g.id, op.payment, a, c, Pending, true))
  {
    hide ValidKey, Normal, Reserved, CheckPayment, CheckHeadroom, AddRefund;
  }
}
