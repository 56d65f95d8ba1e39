/** Why a branch call moves a saga as it does, and what the reason kept in the log proves. */
module Refusals {
  import opened Ints
  import opened Rows
  import opened Coordinator
  import opened Conservation
  import U = UserRepo

  /**
   * A first branch that the database answers does what the atomic deduction says:
   * it holds the balance on success, ends the saga for a user without a row or
   * with too little, and stays where it is on an error.
   */
  lemma FirstBranchOutcome(s: State, i: nat)
    requires i < |s.log| && s.log[i].phase.Started?
    ensures var g, phase := s.log[i], Step(s, Branch(i, Works)).log[i].phase;
            var known := g.user in s.balance;
            var err := U.Atomic(s.balance, g.user, g.amount).1;
            && (phase == Aborted(NoSuchUser) <==> !known)
            && (phase == Aborted(LowFunds) <==> known && s.balance[g.user] < g.amount)
            && (phase == BalanceHeld <==>
                  known && s.balance[g.user] >= g.amount && FitsInt32(s.balance[g.user] - g.amount))
            && (phase == Aborted(NoSuchUser) <==> err == U.UserNotFound)
            && (phase == Aborted(LowFunds) <==> err == U.LowBalance)
            && (phase == BalanceHeld <==> err == U.Nil)
            && (phase == Started <==> err == U.Internal)
  {
  }

  /** A second branch sells, finds the stock missing or too low, or stays where it is on an error. */
  lemma SecondBranchOutcome(s: State, i: nat)
    requires i < |s.log| && s.log[i].phase.BalanceHeld?
    ensures var g, phase := s.log[i], Step(s, Branch(i, Works)).log[i].phase;
            var known := g.product in s.stock;
            && (phase == Compensating(OutOfStock) <==> !known || s.stock[g.product] < g.amount)
            && (phase == Committed <==>
                  known && s.stock[g.product] >= g.amount && FitsInt32(s.stock[g.product] - g.amount))
            && (phase == BalanceHeld <==>
                  known && s.stock[g.product] >= g.amount && !FitsInt32(s.stock[g.product] - g.amount))
  {
  }

  /** A compensation keeps the reason; a branch given up on ends the saga for an error of its own. */
  lemma OtherOutcomes(s: State, i: nat, giveUp: bool)
    requires i < |s.log|
    ensures var phase := s.log[i].phase;
            var works := Step(s, Branch(i, Works)).log[i].phase;
            var fails := Step(s, Branch(i, Unreachable(giveUp))).log[i].phase;
            && (phase.Compensating? ==> works == phase || works == Aborted(phase.reason))
            && (phase.Committed? || phase.Aborted? ==> works == phase && fails == phase)
            && (!giveUp || phase.Compensating? ==> fails == phase)
            && (giveUp && phase.Started? ==> fails == Aborted(BranchError))
            && (giveUp && phase.BalanceHeld? ==> fails == Compensating(BranchError))
  {
  }

  // ------------------------------------------------------------------------- over runs

  /** What a phase proves about the opening balances. */
  ghost predicate Justified(balance: Table, g: Saga) {
    match g.phase
    case Started => true
    case BalanceHeld => g.user in balance
    case Committed => g.user in balance
    case Compensating(reason) => g.user in balance && (reason == OutOfStock || reason == BranchError)
    case Aborted(NoSuchUser) => g.user !in balance
    case Aborted(LowFunds) => g.user in balance
    case Aborted(OutOfStock) => g.user in balance
    case Aborted(BranchError) => true
  }

  ghost predicate AllJustified(balance: Table, log: seq<Saga>) {
    forall i | 0 <= i < |log| :: Justified(balance, log[i])
  }

  lemma BranchJustified(balance: Table, s: State, i: nat, db: Db)
    requires i < |s.log| && s.balance.Keys == balance.Keys && Justified(balance, s.log[i])
    ensures Justified(balance, Step(s, Branch(i, db)).log[i])
  {
  }

  lemma OthersUntouched(s: State, i: nat, db: Db)
    ensures var log' := Step(s, Branch(i, db)).log;
            |log'| == |s.log| && forall j | 0 <= j < |log'| && j != i :: log'[j] == s.log[j]
  {
  }

  lemma StepJustified(s0: State, s: State, a: Action)
    requires Inv(s0, s) && AllJustified(s0.balance, s.log)
    ensures AllJustified(s0.balance, Step(s, a).log)
  {
    assert s.balance.Keys == s0.balance.Keys;
    hide Inv;
    if a.Branch? {
      hide Step, Justified;
      OthersUntouched(s, a.i, a.db);
      if a.i < |s.log| {
        BranchJustified(s0.balance, s, a.i, a.db);
      }
    }
  }

  lemma {:induction false} AlwaysJustified(s0: State, acts: seq<Action>)
    requires Fresh(s0) && Positive(acts)
    ensures AllJustified(s0.balance, Exec(s0, acts).log)
  {
    if acts != [] {
      var init, last := acts[..|acts| - 1], acts[|acts| - 1];
      assert Positive(init);
      AlwaysJustified(s0, init);
      Always(s0, init);
      StepJustified(s0, Exec(s0, init), last);
    }
  }

  /** In every run a buyer without a row is never charged, and never told about stock or funds. */
  lemma ReasonsAreTrue(s0: State, acts: seq<Action>, i: nat)
    requires Fresh(s0) && Positive(acts) && i < |Exec(s0, acts).log|
    ensures var g := Exec(s0, acts).log[i];
            && (g.user !in s0.balance ==>
                  g.phase == Started || g.phase == Aborted(NoSuchUser) || g.phase == Aborted(BranchError))
            && (g.user in s0.balance ==> g.phase != Aborted(NoSuchUser))
  {
    hide Exec, Positive, Fresh;
    AlwaysJustified(s0, acts);
    var log := Exec(s0, acts).log;
    assert Justified(s0.balance, log[i]);
  }
}
