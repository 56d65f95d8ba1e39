/**
 * What the coordinator's contract leaves out: a branch call that takes effect
 * and whose answer is lost. The row changes, the saga does not move, and the
 * coordinator calls again. The services keep no record of the calls they have
 * served, so every such call counts.
 */
module LostAnswers {
  import opened Ints
  import opened Rows
  import opened Coordinator
  import opened Conservation
  import opened SagaRecords
  import opened Effects

  datatype Event = Heard(action: Action) | Unheard(i: nat)

  /** The rows after the call that saga `g` is about to make, and nothing else. */
  function RowsOnly(s: State, g: Saga): State {
    match g.phase
    case Started => s.(balance := DeductRow(s.balance, g.user, g.amount).0)
    case BalanceHeld => s.(stock := DeductRow(s.stock, g.product, g.amount).0)
    case Compensating(_) => s.(balance := RestoreRow(s.balance, g.user, g.amount).0)
    case _ => s
  }

  /** It is the very call the coordinator makes: the rows end as they do when the answer is heard. */
  lemma UnheardIsTheCall(s: State, i: nat)
    requires i < |s.log|
    ensures var heard, unheard := Step(s, Branch(i, Works)), RowsOnly(s, s.log[i]);
            && unheard.balance == heard.balance && unheard.stock == heard.stock
            && unheard.log == s.log && unheard.commits == s.commits
  {
  }

  function Occur(s: State, e: Event): State {
    match e
    case Heard(a) => Step(s, a)
    case Unheard(i) => if i < |s.log| then RowsOnly(s, s.log[i]) else s
  }

  function Run(s: State, events: seq<Event>): State {
    if events == [] then s
    else Occur(Run(s, events[..|events| - 1]), events[|events| - 1])
  }

  ghost predicate PositiveEvents(events: seq<Event>) {
    forall i | 0 <= i < |events| && events[i].Heard? :: PositiveAction(events[i].action)
  }

  // --------------------------------------------------------------------- what is lost

  /** The effect of an unheard call of saga `g`, if it has any. */
  predicate Effective(s: State, g: Saga) {
    match g.phase
    case Started => DeductRow(s.balance, g.user, g.amount).1 == Affected(1)
    case BalanceHeld => DeductRow(s.stock, g.product, g.amount).1 == Affected(1)
    case Compensating(_) => RestoreRow(s.balance, g.user, g.amount).1 == Affected(1)
    case _ => false
  }

  function LostBalance(s: State, e: Event, u: int64): int {
    if e.Unheard? && e.i < |s.log| && s.log[e.i].user == u && Effective(s, s.log[e.i]) then
      (if s.log[e.i].phase.Started? then s.log[e.i].amount
       else if s.log[e.i].phase.Compensating? then 0 - s.log[e.i].amount else 0)
    else 0
  }

  function LostStock(s: State, e: Event, p: int64): int {
    if e.Unheard? && e.i < |s.log| && s.log[e.i].product == p && Effective(s, s.log[e.i])
       && s.log[e.i].phase.BalanceHeld? then s.log[e.i].amount
    else 0
  }

  /** Deducted and not heard of, less returned and not heard of. */
  function BalanceOff(s0: State, events: seq<Event>, u: int64): int {
    if events == [] then 0
    else
      var init, last := events[..|events| - 1], events[|events| - 1];
      BalanceOff(s0, init, u) + LostBalance(Run(s0, init), last, u)
  }

  function StockOff(s0: State, events: seq<Event>, p: int64): int {
    if events == [] then 0
    else
      var init, last := events[..|events| - 1], events[|events| - 1];
      StockOff(s0, init, p) + LostStock(Run(s0, init), last, p)
  }

  // ------------------------------------------------------------------------ invariant

  lemma UnheardKeeps(s: State, i: nat)
    requires LogSound(s.log) && HoldsReal(s) && i < |s.log|
    ensures var s' := RowsOnly(s, s.log[i]);
            s'.log == s.log && s'.commits == s.commits && HoldsReal(s')
            && s'.balance.Keys == s.balance.Keys && s'.stock.Keys == s.stock.Keys
  {
  }

  lemma OccurKeeps(s: State, e: Event)
    requires LogSound(s.log) && HoldsReal(s) && (e.Heard? ==> PositiveAction(e.action))
    ensures LogSound(Occur(s, e).log) && HoldsReal(Occur(s, e))
  {
    match e
    case Unheard(i) =>
      if i < |s.log| {
        UnheardKeeps(s, i);
      }
    case Heard(Submit(gid, user, product, amount)) =>
    case Heard(Branch(i, db)) =>
      if i < |s.log| && Occur(s, e) != s {
        BranchCases(s, i, db);
        HoldsRealKept(s, Step(s, Branch(i, db)), i);
      }
  }

  lemma {:induction false} AlwaysReal(s0: State, events: seq<Event>)
    requires Fresh(s0) && PositiveEvents(events)
    ensures LogSound(Run(s0, events).log) && HoldsReal(Run(s0, events))
  {
    hide Occur;
    if events != [] {
      var init, last := events[..|events| - 1], events[|events| - 1];
      assert PositiveEvents(init);
      AlwaysReal(s0, init);
      OccurKeeps(Run(s0, init), last);
    }
  }

  // --------------------------------------------------------------------------- ledger

  /** The row of user `u` is what the log accounts for, off by `off`; and so for product `p`. */
  ghost predicate BalanceOffBy(s0: State, s: State, u: int64, off: int) {
    && s.balance.Keys == s0.balance.Keys
    && (u in s0.balance ==> s.balance[u] == s0.balance[u] - Sum(s.log, BalanceOf(u)) - off)
  }

  ghost predicate StockOffBy(s0: State, s: State, p: int64, off: int) {
    && s.stock.Keys == s0.stock.Keys
    && (p in s0.stock ==> s.stock[p] == s0.stock[p] - Sum(s.log, StockOf(p)) - off)
  }

  lemma MoveKeepsOffs(s0: State, s: State, s': State, i: nat, u: int64, b: int, p: int64, k: int)
    requires BalanceOffBy(s0, s, u, b) && StockOffBy(s0, s, p, k)
    requires Hold(s, s', i) || Sell(s, s', i) || Return(s, s', i) || Refuse(s, s', i)
    ensures BalanceOffBy(s0, s', u, b) && StockOffBy(s0, s', p, k)
  {
    BalanceSums(s, s', i);
    StockSums(s, s', i);
    hide Sum;
  }

  lemma HeardKeepsOffs(s0: State, s: State, a: Action, u: int64, b: int, p: int64, k: int)
    requires BalanceOffBy(s0, s, u, b) && StockOffBy(s0, s, p, k) && HoldsReal(s)
    ensures BalanceOffBy(s0, Step(s, a), u, b) && StockOffBy(s0, Step(s, a), p, k)
  {
    match a
    case Submit(gid, user, product, amount) =>
      AppendSums(s.log, Saga(gid, user, product, amount, Started));
      hide Sum;
    case Branch(i, db) =>
      if i < |s.log| && Step(s, a) != s {
        BranchCases(s, i, db);
        hide BalanceOffBy, StockOffBy, Step, Hold, Sell, Return, Refuse;
        MoveKeepsOffs(s0, s, Step(s, a), i, u, b, p, k);
      }
  }

  lemma OccurOffs(s0: State, s: State, e: Event, u: int64, b: int, p: int64, k: int)
    requires BalanceOffBy(s0, s, u, b) && StockOffBy(s0, s, p, k) && HoldsReal(s)
    ensures BalanceOffBy(s0, Occur(s, e), u, b + LostBalance(s, e, u))
    ensures StockOffBy(s0, Occur(s, e), p, k + LostStock(s, e, p))
  {
    if e.Heard? {
      HeardKeepsOffs(s0, s, e.action, u, b, p, k);
      hide BalanceOffBy, StockOffBy;
    }
    hide Step, Sum;
  }

  /**
   * With lost answers the conservation law fails by exactly what the unheard
   * calls did: every balance and every stock row is the opening value less what
   * the sagas hold, less what was deducted unheard, plus what was returned unheard.
   */
  lemma {:induction false} OffByTheUnheard(s0: State, events: seq<Event>, u: int64, p: int64)
    requires Fresh(s0) && PositiveEvents(events)
    ensures BalanceOffBy(s0, Run(s0, events), u, BalanceOff(s0, events, u))
    ensures StockOffBy(s0, Run(s0, events), p, StockOff(s0, events, p))
  {
    if events != [] {
      var init, last := events[..|events| - 1], events[|events| - 1];
      assert PositiveEvents(init);
      OffByTheUnheard(s0, init, u, p);
      AlwaysReal(s0, init);
      OccurOffs(s0, Run(s0, init), last, u, BalanceOff(s0, init, u), p, StockOff(s0, init, p));
      hide BalanceOffBy, StockOffBy, Occur, LostBalance, LostStock, HoldsReal, LogSound;
    }
  }

  // -------------------------------------------------------------------------- charges

  /** This event takes something from a buyer on behalf of saga `gid`. */
  ghost predicate Takes(s: State, e: Event, gid: string) {
    match e
    case Heard(a) => Charges(s, a, gid)
    case Unheard(i) => i < |s.log| && s.log[i].gid == gid && Lowers(s.balance, Occur(s, e).balance)
  }

  ghost function ChargesMade(s0: State, events: seq<Event>, gid: string): nat {
    if events == [] then 0
    else
      var init, last := events[..|events| - 1], events[|events| - 1];
      ChargesMade(s0, init, gid) + if Takes(Run(s0, init), last, gid) then 1 else 0
  }

  /** Answers lost by saga `gid` to a call that took effect on its buyer's balance. */
  predicate LosesCharge(s: State, e: Event, gid: string) {
    e.Unheard? && e.i < |s.log| && s.log[e.i].gid == gid && s.log[e.i].phase.Started? && Effective(s, s.log[e.i])
  }

  function ChargesLost(s0: State, events: seq<Event>, gid: string): nat {
    if events == [] then 0
    else
      var init, last := events[..|events| - 1], events[|events| - 1];
      ChargesLost(s0, init, gid) + if LosesCharge(Run(s0, init), last, gid) then 1 else 0
  }

  ghost function Sold(s0: State, events: seq<Event>, gid: string): nat {
    if events == [] then 0
    else
      var init, last := events[..|events| - 1], events[|events| - 1];
      var s := Run(s0, init);
      Sold(s0, init, gid) + if last.Heard? && Sells(s, last.action, gid) then 1 else 0
  }

  lemma UnheardTakes(s: State, i: nat, gid: string)
    requires LogSound(s.log) && i < |s.log|
    ensures Takes(s, Unheard(i), gid) <==> LosesCharge(s, Unheard(i), gid)
  {
    var g := s.log[i];
    if LosesCharge(s, Unheard(i), gid) {
      assert Occur(s, Unheard(i)).balance[g.user] < s.balance[g.user];
    }
  }

  /** A lost charge is a charge; every other one is in step with the saga's phase. */
  lemma EventTally(s: State, e: Event, gid: string, charges: nat, sales: nat)
    requires LogSound(s.log) && HoldsReal(s) && Tally(PhaseOf(s.log, gid), charges, sales)
    ensures LosesCharge(s, e, gid) ==> Takes(s, e, gid)
    ensures Tally(PhaseOf(Occur(s, e).log, gid),
                  charges + if Takes(s, e, gid) && !LosesCharge(s, e, gid) then 1 else 0,
                  sales + if e.Heard? && Sells(s, e.action, gid) then 1 else 0)
  {
    hide Step, PhaseOf, Tally, Charges, Sells;
    if e.Heard? {
      StepTally(s, e.action, gid, charges, sales);
    } else if e.i < |s.log| {
      UnheardTakes(s, e.i, gid);
      UnheardKeeps(s, e.i);
      hide LosesCharge, Takes, RowsOnly;
    }
  }

  lemma TallyAtMostOne(ph: MaybePhase, charges: nat, sales: nat)
    requires Tally(ph, charges, sales)
    ensures charges <= 1 && sales <= charges
  {
  }

  /**
   * A GID charges its buyer as often as its saga's phase says, at most once, plus
   * once for every charge whose answer was lost.
   */
  lemma {:induction false} ChargedOncePlusLost(s0: State, events: seq<Event>, gid: string)
    requires Fresh(s0) && PositiveEvents(events)
    ensures ChargesLost(s0, events, gid) <= ChargesMade(s0, events, gid) <= 1 + ChargesLost(s0, events, gid)
    ensures Tally(PhaseOf(Run(s0, events).log, gid),
                  ChargesMade(s0, events, gid) - ChargesLost(s0, events, gid), Sold(s0, events, gid))
  {
    hide Occur, Tally, Takes, LosesCharge, Sells, LogSound, HoldsReal, PhaseOf;
    if events == [] {
      NothingYet(s0, gid);
    } else {
      var init, last := events[..|events| - 1], events[|events| - 1];
      assert PositiveEvents(init);
      ChargedOncePlusLost(s0, init, gid);
      AlwaysReal(s0, init);
      EventTally(Run(s0, init), last, gid, ChargesMade(s0, init, gid) - ChargesLost(s0, init, gid), Sold(s0, init, gid));
      TallyAtMostOne(PhaseOf(Run(s0, events).log, gid),
                     ChargesMade(s0, events, gid) - ChargesLost(s0, events, gid), Sold(s0, events, gid));
    }
  }

  lemma NothingYet(s0: State, gid: string)
    requires Fresh(s0)
    ensures Tally(PhaseOf(s0.log, gid), 0, 0)
  {
  }

  // -------------------------------------------------------------------- a double charge

  const TEN_AND_FIVE := State(map[1 := 5], map[7 := 10], [], [])

  const CHARGED_TWICE := [
    Heard(Submit("a", 7, 1, 1)), Unheard(0), Heard(Branch(0, Works)), Heard(Branch(0, Works))]

  lemma RunSnoc(s: State, events: seq<Event>, e: Event)
    ensures Run(s, events + [e]) == Occur(Run(s, events), e)
  {
    assert (events + [e])[..|events|] == events;
  }

  /** One lost answer, and a committed purchase has cost its buyer twice. */
  lemma DoubleCharge()
    ensures Fresh(TEN_AND_FIVE) && PositiveEvents(CHARGED_TWICE)
    ensures var g := Saga("a", 7, 1, 1, Committed);
            Run(TEN_AND_FIVE, CHARGED_TWICE) == State(map[1 := 4], map[7 := 8], [g], [g])
  {
    var g := Saga("a", 7, 1, 1, Started);
    var e1 := [Heard(Submit("a", 7, 1, 1))];
    var e2 := e1 + [Unheard(0)];
    var e3 := e2 + [Heard(Branch(0, Works))];
    RunSnoc(TEN_AND_FIVE, [], e1[0]);
    assert [] + e1 == e1;
    RunSnoc(TEN_AND_FIVE, e1, Unheard(0));
    RunSnoc(TEN_AND_FIVE, e2, Heard(Branch(0, Works)));
    RunSnoc(TEN_AND_FIVE, e3, Heard(Branch(0, Works)));
    assert e3 + [Heard(Branch(0, Works))] == CHARGED_TWICE;
    FirstCharges();
    SecondChargeAndSale();
    hide Occur, Run;
  }

  lemma FirstCharges()
    ensures Run(TEN_AND_FIVE, []) == TEN_AND_FIVE
    ensures var s1 := Occur(TEN_AND_FIVE, Heard(Submit("a", 7, 1, 1)));
            Occur(s1, Unheard(0)) == State(map[1 := 5], map[7 := 9], [Saga("a", 7, 1, 1, Started)], [])
  {
    assert map[7 := 10][7 := 9] == map[7 := 9];
  }

  lemma SecondChargeAndSale()
    ensures var s2 := State(map[1 := 5], map[7 := 9], [Saga("a", 7, 1, 1, Started)], []);
            var g := Saga("a", 7, 1, 1, Committed);
            Occur(Occur(s2, Heard(Branch(0, Works))), Heard(Branch(0, Works)))
            == State(map[1 := 4], map[7 := 8], [g], [g])
  {
    var s2 := State(map[1 := 5], map[7 := 9], [Saga("a", 7, 1, 1, Started)], []);
    assert Occur(s2, Heard(Branch(0, Works))) == State(map[1 := 5], map[7 := 8], [Saga("a", 7, 1, 1, BalanceHeld)], []);
  }
}
