/** How often the sagas of one GID take effect on the tables over a whole run. */
module Effects {
  import opened Rows
  import opened Coordinator
  import opened Conservation
  import opened SagaRecords

  ghost predicate Lowers(t: Table, t': Table) {
    exists id :: id in t && id in t' && t'[id] < t[id]
  }

  /** This step is a branch call of saga `gid` that takes something from a buyer. */
  ghost predicate Charges(s: State, a: Action, gid: string) {
    a.Branch? && a.i < |s.log| && s.log[a.i].gid == gid && Lowers(s.balance, Step(s, a).balance)
  }

  /** This step is a branch call of saga `gid` that takes something from the stock. */
  ghost predicate Sells(s: State, a: Action, gid: string) {
    a.Branch? && a.i < |s.log| && s.log[a.i].gid == gid && Lowers(s.stock, Step(s, a).stock)
  }

  ghost function ChargeCount(s0: State, acts: seq<Action>, gid: string): nat {
    if acts == [] then 0
    else
      var init, last := acts[..|acts| - 1], acts[|acts| - 1];
      ChargeCount(s0, init, gid) + if Charges(Exec(s0, init), last, gid) then 1 else 0
  }

  ghost function TakeCount(s0: State, acts: seq<Action>, gid: string): nat {
    if acts == [] then 0
    else
      var init, last := acts[..|acts| - 1], acts[|acts| - 1];
      TakeCount(s0, init, gid) + if Sells(Exec(s0, init), last, gid) then 1 else 0
  }

  /** What the two counts must be, given how far the saga has come. */
  ghost predicate Tally(ph: MaybePhase, charges: nat, sales: nat) {
    match ph
    case Absent => charges == 0 && sales == 0
    case Present(Started) => charges == 0 && sales == 0
    case Present(BalanceHeld) => charges == 1 && sales == 0
    case Present(Compensating(_)) => charges == 1 && sales == 0
    case Present(Committed) => charges == 1 && sales == 1
    case Present(Aborted(_)) => charges <= 1 && sales == 0
  }

  lemma MoveTally(s: State, s': State, i: nat)
    requires LogSound(s.log)
    requires Hold(s, s', i) || Sell(s, s', i) || Return(s, s', i) || Refuse(s, s', i)
    ensures Lowers(s.balance, s'.balance) <==> Hold(s, s', i)
    ensures Lowers(s.stock, s'.stock) <==> Sell(s, s', i)
  {
    var g := s.log[i];
    if Hold(s, s', i) {
      assert s'.balance[g.user] < s.balance[g.user];
    }
    if Sell(s, s', i) {
      assert s'.stock[g.product] < s.stock[g.product];
    }
  }

  lemma MovePhases(s: State, s': State, i: nat, gid: string, charges: nat, sales: nat)
    requires LogSound(s.log) && Tally(PhaseOf(s.log, gid), charges, sales)
    requires Hold(s, s', i) || Sell(s, s', i) || Return(s, s', i) || Refuse(s, s', i)
    ensures Tally(PhaseOf(s'.log, gid),
                  charges + if s.log[i].gid == gid && Hold(s, s', i) then 1 else 0,
                  sales + if s.log[i].gid == gid && Sell(s, s', i) then 1 else 0)
  {
    PhaseAt(s.log, i);
    PhaseUpdate(s.log, i, s'.log[i].phase, gid);
  }

  lemma StepTally(s: State, a: Action, gid: string, charges: nat, sales: nat)
    requires LogSound(s.log) && HoldsReal(s) && Tally(PhaseOf(s.log, gid), charges, sales)
    ensures Tally(PhaseOf(Step(s, a).log, gid),
                  charges + if Charges(s, a, gid) then 1 else 0,
                  sales + if Sells(s, a, gid) then 1 else 0)
  {
    match a
    case Submit(g, user, product, amount) =>
      SubmitPhase(s, g, user, product, amount, gid);
    case Branch(i, db) =>
      var s' := Step(s, a);
      if i < |s.log| && s' != s {
        BranchCases(s, i, db);
        hide HoldsReal, LogSound, Step, Lowers, Tally, Hold, Sell, Return, Refuse;
        MoveTally(s, s', i);
        MovePhases(s, s', i, gid, charges, sales);
      }
  }

  /** However often a GID is submitted, it charges its buyer once at most and sells once at most. */
  lemma {:induction false} AtMostOnce(s0: State, acts: seq<Action>, gid: string)
    requires Fresh(s0) && Positive(acts)
    ensures Tally(PhaseOf(Exec(s0, acts).log, gid), ChargeCount(s0, acts, gid), TakeCount(s0, acts, gid))
  {
    if acts != [] {
      var init, last := acts[..|acts| - 1], acts[|acts| - 1];
      assert Positive(init);
      Always(s0, init);
      AtMostOnce(s0, init, gid);
      StepTally(Exec(s0, init), last, gid, ChargeCount(s0, init, gid), TakeCount(s0, init, gid));
    }
  }
}
