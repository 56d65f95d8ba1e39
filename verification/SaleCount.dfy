/** One product, one amount: how many of N requests end in a sale. */
module SaleCount {
  import opened Ints
  import opened Coordinator
  import opened Conservation

  /** Requests all come from one configured use case: same product, same amount. */
  ghost predicate Uniform(log: seq<Saga>, p: int64, a: int32) {
    forall i | 0 <= i < |log| :: log[i].product == p && log[i].amount == a
  }

  /** Every buyer is registered and can pay for all of their own requests. */
  ghost predicate Covered(s0: State, log: seq<Saga>) {
    forall i | 0 <= i < |log| ::
      log[i].user in s0.balance && s0.balance[log[i].user] >= Sum(log, Demand(log[i].user))
  }

  ghost predicate NeverGivesUp(acts: seq<Action>) {
    forall i | 0 <= i < |acts| && acts[i].Branch? :: acts[i].db != Unreachable(true)
  }

  predicate TooFew(s: State, p: int64, a: int32) {
    p !in s.stock || s.stock[p] < a
  }

  /** Only a lack of stock ever ends a saga without a sale, and it stays too low. */
  ghost predicate OnlySoldOut(s: State, p: int64, a: int32) {
    forall i | 0 <= i < |s.log| && (s.log[i].phase.Compensating? || s.log[i].phase.Aborted?) ::
      s.log[i].phase.reason == OutOfStock && TooFew(s, p, a)
  }

  lemma {:induction false} SumGap(log: seq<Saga>, w: Saga -> int, v: Saga -> int)
    requires forall i | 0 <= i < |log| :: w(log[i]) >= v(log[i])
    ensures Sum(log, w) >= Sum(log, v)
    ensures forall i | 0 <= i < |log| :: Sum(log, w) - Sum(log, v) >= w(log[i]) - v(log[i])
  {
    if log != [] {
      var init := log[..|log| - 1];
      SumGap(init, w, v);
      forall i | 0 <= i < |log| ensures Sum(log, w) - Sum(log, v) >= w(log[i]) - v(log[i]) {
        if i < |log| - 1 {
          assert init[i] == log[i];
        }
      }
    }
  }

  lemma {:induction false} SumScaled(log: seq<Saga>, p: int64, a: int32)
    requires Uniform(log, p, a)
    ensures Sum(log, StockOf(p)) == a * Sum(log, OneIfCommitted())
  {
    if log != [] {
      SumScaled(log[..|log| - 1], p, a);
    }
  }

  /** A later log: the same requests, perhaps in other phases, and perhaps more of them. */
  ghost predicate Extends(log: seq<Saga>, log': seq<Saga>) {
    && |log| <= |log'|
    && (forall i | 0 <= i < |log'| :: log'[i].amount >= 1)
    && (forall i | 0 <= i < |log| :: log'[i] == log[i].(phase := log'[i].phase))
  }

  lemma StepExtends(s: State, act: Action)
    requires LogSound(s.log) && HoldsReal(s) && PositiveAction(act)
    ensures Extends(s.log, Step(s, act).log)
  {
    if act.Branch? && act.i < |s.log| {
      BranchCases(s, act.i, act.db);
    }
  }

  lemma {:induction false} DemandGrows(log: seq<Saga>, log': seq<Saga>, u: int64)
    requires Extends(log, log')
    ensures Sum(log, Demand(u)) <= Sum(log', Demand(u))
  {
    if log' != [] {
      var init' := log'[..|log'| - 1];
      if |log| == |log'| {
        DemandGrows(log[..|log| - 1], init', u);
      } else {
        DemandGrows(log, init', u);
      }
    }
  }

  /** Uniform and Covered at the end of a run held all along. */
  lemma HypothesesShrink(s0: State, log: seq<Saga>, log': seq<Saga>, p: int64, a: int32)
    requires Extends(log, log') && Uniform(log', p, a) && Covered(s0, log')
    ensures Uniform(log, p, a) && Covered(s0, log)
  {
    forall i | 0 <= i < |log|
      ensures log[i].product == p && log[i].amount == a
      ensures log[i].user in s0.balance && s0.balance[log[i].user] >= Sum(log, Demand(log[i].user))
    {
      assert log'[i].user == log[i].user && log'[i].product == p && log'[i].amount == a;
      DemandGrows(log, log', log[i].user);
    }
  }

  /** A covered buyer's first branch cannot be refused. */
  lemma FirstBranchHolds(s0: State, s: State, i: nat)
    requires Inv(s0, s) && Covered(s0, s.log)
    requires i < |s.log| && s.log[i].phase.Started?
    ensures Advance(s, i).log[i].phase == BalanceHeld
  {
    var g := s.log[i];
    SumGap(s.log, Demand(g.user), BalanceOf(g.user));
    assert Demand(g.user)(g) == g.amount && BalanceOf(g.user)(g) == 0;
    assert s.balance[g.user] >= g.amount;
  }

  /** The second branch is refused for lack of stock only. */
  lemma SecondBranchRefusal(s: State, i: nat)
    requires i < |s.log| && s.log[i].phase.BalanceHeld? && Advance(s, i).log[i].phase.Compensating?
    ensures Advance(s, i).log[i].phase.reason == OutOfStock
    ensures TooFew(s, s.log[i].product, s.log[i].amount)
  {
  }

  lemma MoveOnlySoldOut(s: State, s': State, i: nat, p: int64, a: int32)
    requires Uniform(s.log, p, a) && OnlySoldOut(s, p, a) && a >= 1
    requires Hold(s, s', i) || Sell(s, s', i) || Return(s, s', i) || Refuse(s, s', i)
    requires Refuse(s, s', i) ==>
      s'.log[i].phase == Compensating(OutOfStock) && TooFew(s, p, a)
    requires Return(s, s', i) ==> s'.log[i].phase.reason == s.log[i].phase.reason
    ensures OnlySoldOut(s', p, a)
  {
    assert s.log[i].product == p;
    assert TooFew(s, p, a) ==> TooFew(s', p, a);
    assert forall j | 0 <= j < |s.log| && j != i :: s'.log[j] == s.log[j];
  }

  lemma StepOnlySoldOut(s0: State, s: State, act: Action, p: int64, a: int32)
    requires Inv(s0, s) && PositiveAction(act) && NeverGivesUp([act])
    requires Uniform(s.log, p, a) && Covered(s0, s.log) && OnlySoldOut(s, p, a)
    ensures OnlySoldOut(Step(s, act), p, a)
  {
    var s' := Step(s, act);
    assert [act][0] == act;
    if act.Branch? && act.i < |s.log| && s' != s {
      var i := act.i;
      assert act.db.Works? && s' == Advance(s, i);
      BranchCases(s, i, act.db);
      if s.log[i].phase.Started? {
        FirstBranchHolds(s0, s, i);
      } else if s'.log[i].phase.Compensating? {
        SecondBranchRefusal(s, i);
      }
      assert s.log[i].amount == a && s.log[i].product == p;
      MoveOnlySoldOut(s, s', i, p, a);
    }
  }

  lemma {:induction false} AlwaysOnlySoldOut(s0: State, acts: seq<Action>, p: int64, a: int32)
    requires Fresh(s0) && Positive(acts) && NeverGivesUp(acts)
    requires Uniform(Exec(s0, acts).log, p, a) && Covered(s0, Exec(s0, acts).log)
    ensures OnlySoldOut(Exec(s0, acts), p, a)
  {
    if acts != [] {
      var before, last := acts[..|acts| - 1], acts[|acts| - 1];
      assert Positive(before) && NeverGivesUp(before) && NeverGivesUp([last]);
      var s := Exec(s0, before);
      Always(s0, before);
      StepExtends(s, last);
      HypothesesShrink(s0, s.log, Step(s, last).log, p, a);
      AlwaysOnlySoldOut(s0, before, p, a);
      StepOnlySoldOut(s0, s, last, p, a);
    }
  }

  function Opening(s0: State, p: int64): nat {
    if p in s0.stock && s0.stock[p] > 0 then s0.stock[p] else 0
  }

  function Min(x: int, y: int): int {
    if x <= y then x else y
  }

  lemma Monotone(a: nat, x: int, y: int)
    ensures x <= y ==> a * x <= a * y
  {
  }

  lemma QuotientUnique(x: nat, a: nat, k: nat)
    requires a > 0 && a * k <= x < a * (k + 1)
    ensures x / a == k
  {
    Monotone(a, x / a + 1, k);
    Monotone(a, k + 1, x / a);
  }

  lemma QuotientAtLeast(x: nat, a: nat, k: nat)
    requires a > 0 && a * k <= x
    ensures x / a >= k
  {
    Monotone(a, x / a + 1, k);
  }

  /** Sales so far fit the opening stock, and leave less than one amount once a saga failed. */
  lemma SalesFit(s0: State, s: State, p: int64, a: int32)
    requires Inv(s0, s) && Uniform(s.log, p, a) && a >= 1
    ensures var k := |s.commits|;
            && k <= |s.log|
            && a * k <= Opening(s0, p)
            && (TooFew(s, p, a) ==> Opening(s0, p) < a * k + a)
  {
    SumScaled(s.log, p, a);
    EveryoneCommitted(s.log);
    StockLeft(s0, s, p, a);
    hide *;
    SoldSoFar(s0, s, p, a, |s.commits|);
  }

  lemma SoldSoFar(s0: State, s: State, p: int64, a: int32, k: nat)
    requires a >= 1 && s.stock.Keys == s0.stock.Keys
    requires p in s0.stock ==> s.stock[p] == s0.stock[p] - a * k
    requires k > 0 ==> p in s.stock && s.stock[p] >= 0
    ensures a * k <= Opening(s0, p)
    ensures TooFew(s, p, a) ==> Opening(s0, p) < a * k + a
  {
    if p in s0.stock {
      LeftOver(s0.stock[p], a * k, k, a, s.stock[p]);
      if k == 0 {
        assert a * k == 0;
      }
    }
  }

  /** Over plain integers: what was sold is what the opening stock lost. */
  lemma LeftOver(opening: int, sold: int, k: nat, a: int, left: int)
    requires left == opening - sold && sold == a * k && a >= 1
    requires k > 0 ==> left >= 0
    ensures sold >= 0
    ensures sold <= if opening > 0 then opening else 0
    ensures left < a ==> (if opening > 0 then opening else 0) < sold + a
  {
    if k == 0 {
      assert sold == 0;
    } else {
      Monotone(k, 0, a);
    }
  }

  lemma StockLeft(s0: State, s: State, p: int64, a: int32)
    requires Inv(s0, s) && Uniform(s.log, p, a)
    ensures s.stock.Keys == s0.stock.Keys
    ensures p in s0.stock ==> s.stock[p] == s0.stock[p] - Sum(s.log, StockOf(p))
    ensures |s.commits| == Sum(s.log, OneIfCommitted())
    ensures |s.commits| > 0 ==> p in s.stock && s.stock[p] >= 0
  {
    if |s.commits| > 0 {
      assert s.commits[0] in s.log && s.commits[0].phase.Committed?;
    }
  }

  lemma {:induction false} EveryoneCommitted(log: seq<Saga>)
    ensures Sum(log, OneIfCommitted()) <= |log|
    ensures Sum(log, OneIfCommitted()) == |log| <==> forall i | 0 <= i < |log| :: log[i].phase.Committed?
  {
    if log != [] {
      var init := log[..|log| - 1];
      EveryoneCommitted(init);
      assert forall i | 0 <= i < |init| :: init[i] == log[i];
    }
  }

  lemma SoldToAllOrSoldOut(s: State, p: int64, a: int32)
    requires CommitsExact(s) && Quiescent(s) && OnlySoldOut(s, p, a)
    ensures |s.commits| == |s.log| || TooFew(s, p, a)
  {
    EveryoneCommitted(s.log);
    if |s.commits| != |s.log| {
      var j :| 0 <= j < |s.log| && !s.log[j].phase.Committed?;
      assert s.log[j].phase.Aborted?;
    }
  }

  lemma MinQuotient(n: nat, k: nat, x: nat, a: nat)
    requires a > 0 && k <= n && a * k <= x && (k == n || x < a * k + a)
    ensures k == Min(n, x / a)
  {
    QuotientAtLeast(x, a, k);
    if k < n {
      QuotientUnique(x, a, k);
    }
  }

  lemma CountAtQuiescence(s0: State, s: State, p: int64, a: int32)
    requires Inv(s0, s) && Uniform(s.log, p, a) && a >= 1
    requires Quiescent(s) && OnlySoldOut(s, p, a)
    ensures |s.commits| == Min(|s.log|, Opening(s0, p) / a)
  {
    SalesFit(s0, s, p, a);
    SoldToAllOrSoldOut(s, p, a);
    MinQuotient(|s.log|, |s.commits|, Opening(s0, p), a);
  }

  /**
   * Neither overselling nor underselling: when every buyer can pay for all of
   * their requests and branches are retried until the database answers, N
   * settled requests end in exactly min(N, stock / amount) sales, in every
   * interleaving.
   */
  lemma ExactSaleCount(s0: State, acts: seq<Action>, p: int64, a: int32)
    requires Fresh(s0) && Positive(acts) && NeverGivesUp(acts) && a >= 1
    requires var s := Exec(s0, acts); Quiescent(s) && Uniform(s.log, p, a) && Covered(s0, s.log)
    ensures var s := Exec(s0, acts); |s.commits| == Min(|s.log|, Opening(s0, p) / a)
  {
    Always(s0, acts);
    AlwaysOnlySoldOut(s0, acts, p, a);
    CountAtQuiescence(s0, Exec(s0, acts), p, a);
  }
}
