/** Every interleaving of statements commits what some serial order of the same calls commits. */
module Serializability {
  import opened Types
  import opened Tables
  import opened Operations
  import opened Invariant
  import opened Runs
  import opened Growth
  import opened Statements
  import opened Isolation

  // ---------- the invariant of the interleaved system ----------

  function Decided(pc: Pc): Option<nat>
  {
    match pc
    case Answered(_, at) => Some(at)
    case Done(_, at, _) => Some(at)
    case _ => None
  }

  /** Each decided transaction owns exactly one entry of the history, with its own call and response. */
  ghost predicate HistoryOwned(s: Sys)
  {
    && |s.owners| == |s.hist|
    && (forall i :: 0 <= i < |s.hist| ==> s.owners[i] in s.txs && Decided(s.txs[s.owners[i]].pc) == Some(i))
    && (forall t | t in s.txs && Decided(s.txs[t].pc).Some? ::
          var at := Decided(s.txs[t].pc).value;
          at < |s.hist| && s.owners[at] == t && s.hist[at].op == s.txs[t].op && s.hist[at].response == s.txs[t].pc.response)
  }

  /** The committed tables are what the history, executed one call at a time, produces. */
  ghost predicate HistoryExplains(s: Sys)
  {
    Serial(EMPTY_DB, s.hist) && Run(EMPTY_DB, s.hist) == s.db && Inv(s.db)
  }

  ghost predicate IdsBelow(db: Db, next: nat)
  {
    forall i :: 0 <= i < |db.ledger| ==> db.ledger[i].id < next
  }

  ghost predicate AllTxOk(s: Sys)
  {
    forall t | t in s.txs :: TxOk(s.db, s.locks, s.next, t, s.txs[t])
  }

  ghost predicate SysInv(s: Sys)
  {
    HistoryExplains(s) && HistoryOwned(s) && IdsBelow(s.db, s.next) && AllTxOk(s)
  }

  lemma InitialOk()
    ensures SysInv(INITIAL)
  {
    EmptyInv();
  }

  // ---------- the five ways a step changes the system ----------

  /** Locks taken by t were free, so nobody else loses one. */
  ghost predicate LocksKept(locks: map<Lock, Tid>, locks': map<Lock, Tid>, t: Tid)
  {
    forall l, u: Tid | u != t && Holds(locks, l, u) :: Holds(locks', l, u)
  }

  lemma OthersUndisturbed(s: Sys, db': Db, locks': map<Lock, Tid>, next': nat, t: Tid, txs': map<Tid, Tx>)
    requires AllTxOk(s) && s.next <= next' && LocksKept(s.locks, locks', t) && Grows(s.db, db')
    requires forall l, u: Tid | u != t && Holds(s.locks, l, u) :: Same(l, s.db, db')
    requires forall u | u in txs' && u != t :: u in s.txs && txs'[u] == s.txs[u]
    ensures forall u | u in txs' && u != t :: TxOk(db', locks', next', u, txs'[u])
  {
    hide TxOk, Same, Grows, Holds;
    forall u | u in txs' && u != t ensures TxOk(db', locks', next', u, txs'[u]) {
      assert Undisturbed(s.db, s.locks, db', locks', u);
      TxStable(s.db, s.locks, s.next, db', locks', next', u, s.txs[u]);
    }
  }

  lemma SameReflexive(l: Lock, db: Db)
    ensures Same(l, db, db)
  {
  }

  /** A statement that commits nothing and decides nothing. */
  lemma QuietStep(s: Sys, s': Sys, t: Tid)
    requires SysInv(s) && t in s.txs && Decided(s.txs[t].pc).None?
    requires s'.db == s.db && s'.hist == s.hist && s'.owners == s.owners && s.next <= s'.next
    requires t in s'.txs && s'.txs == s.txs[t := s'.txs[t]] && Decided(s'.txs[t].pc).None?
    requires LocksKept(s.locks, s'.locks, t)
    requires TxOk(s'.db, s'.locks, s'.next, t, s'.txs[t])
    ensures SysInv(s')
  {
    hide TxOk, Same, Grows, Serial, Run, Inv, Holds, LocksKept;
    Reflexive(s.db);
    forall l, u: Tid | u != t && Holds(s.locks, l, u) ensures Same(l, s.db, s.db) {
      SameReflexive(l, s.db);
    }
    OthersUndisturbed(s, s'.db, s'.locks, s'.next, t, s'.txs);
  }

  /** A read that decides the call: the atomic call, executed now, gives this answer and writes nothing. */
  lemma AnswerStep(s: Sys, t: Tid, f: Fresh, r: Response)
    requires SysInv(s) && t in s.txs && Decided(s.txs[t].pc).None?
    requires Exec(s.db, s.txs[t].op, f) == (s.db, r)
    ensures SysInv(Answer(s, t, f, r))
  {
    hide Same, Grows, Serial, Run, Inv, Holds, LocksKept, Exec;
    var s' := Answer(s, t, f, r);
    SerialAppend(EMPTY_DB, s.hist, s.txs[t].op, f, r);
    hide TxOk;
    Reflexive(s.db);
    assert TxOk(s'.db, s'.locks, s'.next, t, s'.txs[t]) by { EndedOk(s'.db, s'.locks, s'.next, t, s'.txs[t]); }
    forall l, u: Tid | u != t && Holds(s.locks, l, u) ensures Same(l, s.db, s.db) {
      SameReflexive(l, s.db);
    }
    assert LocksKept(s.locks, s'.locks, t) by { LocksReflexive(s.locks, t); }
    OthersUndisturbed(s, s'.db, s'.locks, s'.next, t, s'.txs);
    OwnedAppend(s, s', t);
  }

  lemma LocksReflexive(locks: map<Lock, Tid>, t: Tid)
    ensures LocksKept(locks, locks, t) && LocksKept(locks, Release(locks, t), t)
  {
  }

  lemma EndedOk(db: Db, locks: map<Lock, Tid>, next: nat, t: Tid, tx: Tx)
    requires Ended(tx.pc)
    ensures TxOk(db, locks, next, t, tx)
  {
  }

  lemma OwnedAppend(s: Sys, s': Sys, t: Tid)
    requires HistoryOwned(s) && t in s.txs && Decided(s.txs[t].pc).None?
    requires |s'.hist| == |s.hist| + 1 && s'.hist[..|s.hist|] == s.hist && s'.owners == s.owners + [t]
    requires t in s'.txs && s'.txs == s.txs[t := s'.txs[t]] && Decided(s'.txs[t].pc) == Some(|s.hist|)
    requires s'.hist[|s.hist|].op == s'.txs[t].op && s'.hist[|s.hist|].response == s'.txs[t].pc.response
    ensures HistoryOwned(s')
  {
    forall i | 0 <= i < |s'.hist| ensures s'.owners[i] in s'.txs && Decided(s'.txs[s'.owners[i]].pc) == Some(i) {
      assert i < |s.hist| ==> s.owners[i] != t;
    }
    forall u | u in s'.txs && Decided(s'.txs[u].pc).Some?
      ensures var at := Decided(s'.txs[u].pc).value;
              && at < |s'.hist| && s'.owners[at] == u && s'.hist[at].op == s'.txs[u].op
              && s'.hist[at].response == s'.txs[u].pc.response
    {
      if u != t {
        assert s'.hist[..|s.hist|][Decided(s.txs[u].pc).value] == s.hist[Decided(s.txs[u].pc).value];
      }
    }
  }

  /** A commit: the atomic call, executed now, produces these tables and this response. */
  lemma CommitStep(s: Sys, t: Tid, f: Fresh, r: Response)
    requires SysInv(s) && t in s.txs && Decided(s.txs[t].pc).None?
    requires Exec(s.db, s.txs[t].op, f) == (Apply(s.db, s.txs[t].buffer), r) && Admissible(s.db, s.txs[t].op, f)
    requires HoldsAll(s.locks, AllGuards(s.txs[t].buffer), t)
    requires IdsBelow(Apply(s.db, s.txs[t].buffer), s.next)
    ensures SysInv(Commit(s, t, f, r))
  {
    hide Same, Grows, Serial, Run, Inv, Exec, Apply, AllGuards, Admissible, TxOk, IdsBelow;
    var s' := Commit(s, t, f, r);
    var op := s.txs[t].op;
    SerialAppend(EMPTY_DB, s.hist, op, f, r);
    ExecInv(s.db, op, f);
    ExecGrows(s.db, op, f);
    EndedOk(s'.db, s'.locks, s'.next, t, s'.txs[t]);
    forall l, u: Tid | u != t && Holds(s.locks, l, u) ensures Same(l, s.db, s'.db) {
      assert l !in AllGuards(s.txs[t].buffer);
      CommitRespectsLocks(s.db, s.txs[t].buffer, l);
    }
    LocksReflexive(s.locks, t);
    hide Holds, HoldsAll;
    OthersUndisturbed(s, s'.db, s'.locks, s'.next, t, s'.txs);
    OwnedAppend(s, s', t);
  }

  /** Ending a transaction: its locks go, nothing else changes. */
  lemma EndStep(s: Sys, s': Sys, t: Tid)
    requires SysInv(s) && t in s.txs && t in s'.txs
    requires s' == s.(txs := s.txs[t := s'.txs[t]], locks := Release(s.locks, t))
    requires Ended(s'.txs[t].pc) && s'.txs[t].op == s.txs[t].op && Decided(s'.txs[t].pc) == Decided(s.txs[t].pc)
    requires Decided(s.txs[t].pc).Some? ==> s'.txs[t].pc.response == s.txs[t].pc.response
    ensures SysInv(s')
  {
    hide TxOk, Same, Grows, Serial, Run, Inv, Holds, LocksKept, Release;
    Reflexive(s.db);
    EndedOk(s'.db, s'.locks, s'.next, t, s'.txs[t]);
    LocksReflexive(s.locks, t);
    forall l, u: Tid | u != t && Holds(s.locks, l, u) ensures Same(l, s.db, s.db) {
      SameReflexive(l, s.db);
    }
    OthersUndisturbed(s, s'.db, s'.locks, s'.next, t, s'.txs);
  }

  lemma StartStep(s: Sys, t: Tid, op: Op)
    requires SysInv(s) && t !in s.txs
    ensures SysInv(s.(txs := s.txs[t := Tx(op, Begin, Nothing)]))
  {
    hide PaymentHeld, RefundFits, Serial, Run, Inv;
    assert TxOk(s.db, s.locks, s.next, t, Tx(op, Begin, Nothing));
    hide TxOk;
  }
}
