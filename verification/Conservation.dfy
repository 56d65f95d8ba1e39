/** What every saga step keeps, over all interleavings of any number of sagas. */
module Conservation {
  import opened Ints
  import opened Rows
  import opened Coordinator

  /** Every saga asks for a positive amount and no GID starts two sagas. */
  ghost predicate LogSound(log: seq<Saga>) {
    && (forall i | 0 <= i < |log| :: log[i].amount >= 1)
    && (forall i, j | 0 <= i < j < |log| :: log[i].gid != log[j].gid)
  }

  /** A saga that holds something holds it on a row that exists and is not negative. */
  ghost predicate HoldsReal(s: State) {
    && (forall i | 0 <= i < |s.log| && HoldsBalance(s.log[i]) ::
          s.log[i].user in s.balance && s.balance[s.log[i].user] >= 0)
    && (forall i | 0 <= i < |s.log| && s.log[i].phase.Committed? ::
          s.log[i].product in s.stock && s.stock[s.log[i].product] >= 0)
  }

  /** Stock dropped by exactly what committed sagas took. */
  ghost predicate StockConserved(s0: State, s: State) {
    && s.stock.Keys == s0.stock.Keys
    && (forall p | p in s0.stock :: s.stock[p] == s0.stock[p] - Sum(s.log, StockOf(p)))
    && Total(s.stock) == Total(s0.stock) - Sum(s.log, AnyStock())
  }

  /** Each balance dropped by exactly what the sagas of that user hold. */
  ghost predicate BalanceConserved(s0: State, s: State) {
    && s.balance.Keys == s0.balance.Keys
    && (forall u | u in s0.balance :: s.balance[u] == s0.balance[u] - Sum(s.log, BalanceOf(u)))
    && Total(s.balance) == Total(s0.balance) - Sum(s.log, AnyBalance())
  }

  /** The commit list holds exactly the committed sagas, each once. */
  ghost predicate CommitsExact(s: State) {
    && (forall i | 0 <= i < |s.log| :: s.log[i].phase.Committed? <==> s.log[i] in s.commits)
    && (forall k | 0 <= k < |s.commits| :: s.commits[k] in s.log)
    && (forall j, k | 0 <= j < k < |s.commits| :: s.commits[j] != s.commits[k])
    && |s.commits| == Sum(s.log, OneIfCommitted())
  }

  ghost predicate Inv(s0: State, s: State) {
    && LogSound(s.log)
    && HoldsReal(s)
    && StockConserved(s0, s)
    && BalanceConserved(s0, s)
    && CommitsExact(s)
  }

  // -------------------------------------------------------------------- the moves

  /** Saga `i`, and no other, changes its phase and nothing else about itself. */
  ghost predicate Moves(s: State, s': State, i: nat) {
    && i < |s.log| == |s'.log|
    && s'.log == s.log[i := s'.log[i]]
    && s'.log[i] == s.log[i].(phase := s'.log[i].phase)
  }

  ghost predicate Row(t: Table, t': Table, id: int64, change: int) {
    id in t && FitsInt32(t[id] + change) && t' == t[id := t[id] + change]
  }

  ghost predicate Hold(s: State, s': State, i: nat) {
    && Moves(s, s', i) && s.log[i].phase.Started? && s'.log[i].phase.BalanceHeld?
    && Row(s.balance, s'.balance, s.log[i].user, 0 - s.log[i].amount)
    && s'.balance[s.log[i].user] >= 0
    && s'.stock == s.stock && s'.commits == s.commits
  }

  ghost predicate Sell(s: State, s': State, i: nat) {
    && Moves(s, s', i) && s.log[i].phase.BalanceHeld? && s'.log[i].phase.Committed?
    && Row(s.stock, s'.stock, s.log[i].product, 0 - s.log[i].amount)
    && s'.stock[s.log[i].product] >= 0
    && s'.balance == s.balance && s'.commits == s.commits + [s'.log[i]]
  }

  ghost predicate Return(s: State, s': State, i: nat) {
    && Moves(s, s', i) && s.log[i].phase.Compensating? && s'.log[i].phase.Aborted?
    && Row(s.balance, s'.balance, s.log[i].user, s.log[i].amount)
    && s'.stock == s.stock && s'.commits == s.commits
  }

  ghost predicate Refuse(s: State, s': State, i: nat) {
    && Moves(s, s', i)
    && (|| (s.log[i].phase.Started? && s'.log[i].phase.Aborted?)
        || (s.log[i].phase.BalanceHeld? && s'.log[i].phase.Compensating?))
    && s'.stock == s.stock && s'.balance == s.balance && s'.commits == s.commits
  }

  lemma BranchCases(s: State, i: nat, db: Db)
    requires i < |s.log|
    requires s.log[i].phase.Compensating? ==> s.log[i].user in s.balance
    ensures var s' := Step(s, Branch(i, db));
            s' == s || Hold(s, s', i) || Sell(s, s', i) || Return(s, s', i) || Refuse(s, s', i)
  {
  }

  // --------------------------------------------------------------- sums and moves

  /** What the phase change of saga `i` adds to, or removes from, what it holds. */
  function StockShift(g: Saga, g': Saga): int {
    (if g'.phase.Committed? then g.amount else 0) - (if g.phase.Committed? then g.amount else 0)
  }

  function BalanceShift(g: Saga, g': Saga): int {
    (if HoldsBalance(g') then g.amount else 0) - (if HoldsBalance(g) then g.amount else 0)
  }

  lemma StockSums(s: State, s': State, i: nat)
    requires Moves(s, s', i)
    ensures var d := StockShift(s.log[i], s'.log[i]);
            && (forall p :: Sum(s'.log, StockOf(p)) == Sum(s.log, StockOf(p)) + if s.log[i].product == p then d else 0)
            && Sum(s'.log, AnyStock()) == Sum(s.log, AnyStock()) + d
  {
    var d := StockShift(s.log[i], s'.log[i]);
    forall p
      ensures Sum(s'.log, StockOf(p)) == Sum(s.log, StockOf(p)) + if s.log[i].product == p then d else 0
    {
      SumUpdate(s.log, i, s'.log[i], StockOf(p));
    }
    SumUpdate(s.log, i, s'.log[i], AnyStock());
  }

  lemma BalanceSums(s: State, s': State, i: nat)
    requires Moves(s, s', i)
    ensures var d := BalanceShift(s.log[i], s'.log[i]);
            && (forall u :: Sum(s'.log, BalanceOf(u)) == Sum(s.log, BalanceOf(u)) + if s.log[i].user == u then d else 0)
            && Sum(s'.log, AnyBalance()) == Sum(s.log, AnyBalance()) + d
  {
    var d := BalanceShift(s.log[i], s'.log[i]);
    forall u
      ensures Sum(s'.log, BalanceOf(u)) == Sum(s.log, BalanceOf(u)) + if s.log[i].user == u then d else 0
    {
      SumUpdate(s.log, i, s'.log[i], BalanceOf(u));
    }
    SumUpdate(s.log, i, s'.log[i], AnyBalance());
  }

  lemma AppendSums(log: seq<Saga>, g: Saga)
    requires g.phase.Started?
    ensures forall p :: Sum(log + [g], StockOf(p)) == Sum(log, StockOf(p))
    ensures forall u :: Sum(log + [g], BalanceOf(u)) == Sum(log, BalanceOf(u))
    ensures Sum(log + [g], AnyStock()) == Sum(log, AnyStock())
    ensures Sum(log + [g], AnyBalance()) == Sum(log, AnyBalance())
    ensures Sum(log + [g], OneIfCommitted()) == Sum(log, OneIfCommitted())
  {
    forall p ensures Sum(log + [g], StockOf(p)) == Sum(log, StockOf(p)) { SumAppend(log, g, StockOf(p)); }
    forall u ensures Sum(log + [g], BalanceOf(u)) == Sum(log, BalanceOf(u)) { SumAppend(log, g, BalanceOf(u)); }
    SumAppend(log, g, AnyStock());
    SumAppend(log, g, AnyBalance());
    SumAppend(log, g, OneIfCommitted());
  }

  lemma RowTotal(t: Table, t': Table, id: int64, change: int)
    requires Row(t, t', id, change)
    ensures t'.Keys == t.Keys && Total(t') == Total(t) + change
    ensures forall k | k in t :: t'[k] == t[k] + if k == id then change else 0
  {
    TotalUpdate(t, id, t[id] + change);
  }

  // ------------------------------------------------------------------ preservation

  lemma SellKeepsStock(s0: State, s: State, s': State, i: nat)
    requires StockConserved(s0, s) && Sell(s, s', i)
    ensures StockConserved(s0, s')
  {
    StockSums(s, s', i);
    RowTotal(s.stock, s'.stock, s.log[i].product, 0 - s.log[i].amount);
  }

  lemma OthersKeepStock(s0: State, s: State, s': State, i: nat)
    requires StockConserved(s0, s) && Moves(s, s', i)
    requires StockShift(s.log[i], s'.log[i]) == 0 && s'.stock == s.stock
    ensures StockConserved(s0, s')
  {
    StockSums(s, s', i);
  }

  lemma RowKeepsBalance(s0: State, s: State, s': State, i: nat)
    requires BalanceConserved(s0, s) && Moves(s, s', i)
    requires Row(s.balance, s'.balance, s.log[i].user, -BalanceShift(s.log[i], s'.log[i]))
    ensures BalanceConserved(s0, s')
  {
    BalanceSums(s, s', i);
    RowTotal(s.balance, s'.balance, s.log[i].user, -BalanceShift(s.log[i], s'.log[i]));
  }

  lemma OthersKeepBalance(s0: State, s: State, s': State, i: nat)
    requires BalanceConserved(s0, s) && Moves(s, s', i)
    requires BalanceShift(s.log[i], s'.log[i]) == 0 && s'.balance == s.balance
    ensures BalanceConserved(s0, s')
  {
    BalanceSums(s, s', i);
  }

  lemma HoldsRealKept(s: State, s': State, i: nat)
    requires LogSound(s.log) && HoldsReal(s)
    requires Hold(s, s', i) || Sell(s, s', i) || Return(s, s', i) || Refuse(s, s', i)
    ensures LogSound(s'.log) && HoldsReal(s')
  {
    assert forall j | 0 <= j < |s.log| && j != i :: s'.log[j] == s.log[j];
  }

  lemma CommitsKept(s: State, s': State, i: nat)
    requires LogSound(s.log) && CommitsExact(s)
    requires Hold(s, s', i) || Sell(s, s', i) || Return(s, s', i) || Refuse(s, s', i)
    ensures CommitsExact(s')
  {
    SumUpdate(s.log, i, s'.log[i], OneIfCommitted());
    var g, g' := s.log[i], s'.log[i];
    assert g !in s.commits;
    forall j | 0 <= j < |s.log| && j != i ensures s'.log[j] == s.log[j] && s'.log[j] != g' {
      assert s.log[j].gid != g.gid;
    }
    forall k | 0 <= k < |s.commits| ensures s.commits[k] in s'.log && s.commits[k] != g' {
      var j :| 0 <= j < |s.log| && s.log[j] == s.commits[k];
      assert s'.log[j] == s.log[j];
    }
  }

  lemma AppendKept(s0: State, s: State, g: Saga)
    requires Inv(s0, s) && g.phase.Started? && g.amount >= 1 && !Known(s.log, g.gid)
    ensures Inv(s0, s.(log := s.log + [g]))
  {
    AppendSums(s.log, g);
    forall k | 0 <= k < |s.commits| ensures s.commits[k].phase.Committed? {
      var j :| 0 <= j < |s.log| && s.log[j] == s.commits[k];
    }
  }

  lemma MoveKept(s0: State, s: State, s': State, i: nat)
    requires Inv(s0, s)
    requires Hold(s, s', i) || Sell(s, s', i) || Return(s, s', i) || Refuse(s, s', i)
    ensures Inv(s0, s')
  {
    if Sell(s, s', i) {
      SellKeepsStock(s0, s, s', i);
      OthersKeepBalance(s0, s, s', i);
    } else {
      OthersKeepStock(s0, s, s', i);
      if Refuse(s, s', i) {
        OthersKeepBalance(s0, s, s', i);
      } else {
        RowKeepsBalance(s0, s, s', i);
      }
    }
    HoldsRealKept(s, s', i);
    CommitsKept(s, s', i);
  }

  lemma StepInv(s0: State, s: State, a: Action)
    requires Inv(s0, s) && PositiveAction(a)
    ensures Inv(s0, Step(s, a))
  {
    match a
    case Submit(gid, user, product, amount) =>
      if !Known(s.log, gid) {
        AppendKept(s0, s, Saga(gid, user, product, amount, Started));
      }
    case Branch(i, db) =>
      if i < |s.log| && Step(s, a) != s {
        BranchCases(s, i, db);
        MoveKept(s0, s, Step(s, a), i);
      }
  }

  lemma {:induction false} Always(s0: State, acts: seq<Action>)
    requires Fresh(s0) && Positive(acts)
    ensures Inv(s0, Exec(s0, acts))
  {
    if acts != [] {
      var before, last := acts[..|acts| - 1], acts[|acts| - 1];
      assert Positive(before);
      Always(s0, before);
      StepInv(s0, Exec(s0, before), last);
    }
  }

  // ---------------------------------------------------------------------- theorems

  /**
   * Conservation in every reachable state, and once no saga is left half-way
   * the balances spent equal the stock sold.
   */
  lemma Conservation(s0: State, acts: seq<Action>)
    requires Fresh(s0) && Positive(acts)
    ensures StockConserved(s0, Exec(s0, acts)) && BalanceConserved(s0, Exec(s0, acts))
    ensures var s := Exec(s0, acts);
            Quiescent(s) ==> Total(s0.balance) - Total(s.balance) == Total(s0.stock) - Total(s.stock)
  {
    Always(s0, acts);
    var s := Exec(s0, acts);
    if Quiescent(s) {
      SumSame(s.log, AnyBalance(), AnyStock());
    }
  }

  /** A restore issued by the coordinator always lands: it cannot overflow the column. */
  lemma CompensationAlwaysLands(s0: State, acts: seq<Action>, i: nat)
    requires Fresh(s0) && Positive(acts)
    requires i < |Exec(s0, acts).log| && Exec(s0, acts).log[i].phase.Compensating?
    ensures var s := Exec(s0, acts); RestoreRow(s.balance, s.log[i].user, s.log[i].amount).1 == Affected(1)
  {
    Always(s0, acts);
    var s := Exec(s0, acts);
    SumAtLeast(s.log, BalanceOf(s.log[i].user));
    assert BalanceOf(s.log[i].user)(s.log[i]) == s.log[i].amount;
  }
}
