/** The racing executions of DeliveryLoop, with one of them alone, are ProcessDelivery as Attempts describes it. */
module LoneWorker {
  import opened Webhooks
  import opened Backoff
  import opened Attempts
  import opened DeliveryLoop

  /** One execution takes so many statements; its k-th POST gets the network's k-th answer. */
  function Alone(s: Race, net: Network, statements: nat): Race
    decreases statements
  {
    if statements == 0 then s else Alone(Step(s, Go(0, net.success(s.posts))), net, statements - 1)
  }

  lemma {:induction false} AloneMore(s: Race, net: Network, m: nat, n: nat)
    ensures Alone(s, net, m + n) == Alone(Alone(s, net, m), net, n)
    decreases m
  {
    if m > 0 {
      AloneMore(Step(s, Go(0, net.success(s.posts))), net, m - 1, n);
    }
  }

  /** After a failure that leaves attempts, the rest of the run is a run from the row written back. */
  lemma AttemptAfterFailure(d: Delivery, secret: string, net: Network, from: nat)
    requires AttemptsOk(d) && d.status.Waiting? && secret != "" && d.target.parses
    requires !net.success(from) && d.attempts + 1 < d.maxAttempts
    ensures var d' := d.(attempts := d.attempts + 1, lastError := net.error(from));
            var (r, r') := (Attempt(d, secret, net, from), Attempt(d', secret, net, from + 1));
            AttemptsOk(d') && r.row == r'.row && r.posts == r'.posts + 1
  {
    hide Failures, Pauses;
    OneFailure(net.success, from, d.maxAttempts - d.attempts);
  }

  lemma OneFailure(net: nat -> bool, from: nat, n: nat)
    requires n > 0 && !net(from)
    ensures Failures(net, from, n) == 1 + Failures(net, from + 1, n - 1)
  {
  }

  lemma LastAttempt(d: Delivery, secret: string, net: Network, from: nat)
    requires AttemptsOk(d) && d.status.Waiting? && secret != "" && d.target.parses
    requires net.success(from) || d.attempts + 1 == d.maxAttempts
    ensures var r := Attempt(d, secret, net, from);
            && r.posts == 1
            && r.row == if net.success(from) then d.(status := Delivered)
                        else d.(attempts := d.attempts + 1, lastError := net.error(from), status := DeadLetter)
  {
    hide Failures, Pauses;
    LastAnswer(net.success, from, d.maxAttempts - d.attempts);
  }

  lemma LastAnswer(net: nat -> bool, from: nat, n: nat)
    requires n == 1 || (n > 1 && net(from))
    ensures Failures(net, from, n) == if net(from) then 0 else 1
  {
  }

  ghost predicate Ready(s: Race, net: Network)
  {
    && s.workers == [Reading] && s.secret.Some? && AttemptsOk(s.row)
    && forall k :: net.error(k) == "error"
  }

  /** Read, POST and write back once, with a secret and a usable URL. */
  lemma OneRound(s: Race, net: Network)
    requires Ready(s, net) && s.row.status.Waiting? && s.secret.value != "" && s.row.target.parses
    ensures var e := Alone(s, net, 3);
            var failed := s.row.(attempts := s.row.attempts + 1, lastError := "error");
            e.secret == s.secret && e.posts == s.posts + 1 &&
            if net.success(s.posts) then e.row == s.row.(status := Delivered) && e.workers == [Stopped]
            else if s.row.attempts + 1 < s.row.maxAttempts then e.row == failed && e.workers == [Reading]
            else e.row == failed.(status := DeadLetter) && e.workers == [Stopped]
  {
    var s1 := Step(s, Go(0, net.success(s.posts)));
    assert s1 == s.(workers := [Holding(s.row.attempts)]);
    var s2 := Step(s1, Go(0, net.success(s1.posts)));
    assert s2 == s.(workers := [Posted(s.row.attempts, net.success(s.posts))], posts := s.posts + 1);
    var s3 := Step(s2, Go(0, net.success(s2.posts)));
    assert Alone(s, net, 3) == s3 by {
      assert Alone(s2, net, 1) == Alone(s3, net, 0);
      assert Alone(s1, net, 2) == Alone(s2, net, 1);
    }
    assert s3.workers == [s3.workers[0]];
  }

  /** A lone execution ends with the row, and after the POSTs, that an undisturbed attempt gives. */
  lemma {:induction false} LoneRunIsAttempt(s: Race, net: Network) returns (statements: nat)
    requires Ready(s, net)
    ensures var e := Alone(s, net, statements);
            var r := Attempt(s.row, s.secret.value, net, s.posts);
            e.workers == [Stopped] && e.row == r.row && e.posts == s.posts + r.posts
    decreases s.row.maxAttempts - s.row.attempts
  {
    hide Alone, Step, Attempt;
    if s.row.status.Waiting? && s.secret.value != "" && s.row.target.parses {
      OneRound(s, net);
      var e := Alone(s, net, 3);
      if !net.success(s.posts) && s.row.attempts + 1 < s.row.maxAttempts {
        AttemptAfterFailure(s.row, s.secret.value, net, s.posts);
        var rest := LoneRunIsAttempt(e, net);
        AloneMore(s, net, 3, rest);
        statements := 3 + rest;
      } else {
        LastAttempt(s.row, s.secret.value, net, s.posts);
        statements := 3;
      }
    } else {
      EarlyEnd(s, net);
      statements := 2;
    }
  }

  lemma EarlyEnd(s: Race, net: Network)
    requires Ready(s, net) && !(s.row.status.Waiting? && s.secret.value != "" && s.row.target.parses)
    ensures var e := Alone(s, net, 2);
            var r := Attempt(s.row, s.secret.value, net, s.posts);
            e.workers == [Stopped] && e.row == r.row && e.posts == s.posts && r.posts == 0
  {
    var s1 := Step(s, Go(0, net.success(s.posts)));
    assert s1 == s.(workers := [s1.workers[0]]);
    var s2 := Step(s1, Go(0, net.success(s1.posts)));
    assert s2.workers == [Stopped];
    assert Alone(s, net, 2) == s2 by {
      assert Alone(s1, net, 1) == Alone(s2, net, 0);
    }
  }
}
