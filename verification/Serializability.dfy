/**
 * The interleaved sagas refine an atomic "buy": check the balance and the
 * stock and deduct both at one instant, one committed saga after another.
 */
module Serializability {
  import opened Ints
  import opened Rows
  import opened Coordinator
  import opened Conservation

  datatype Ledger = Ledger(stock: map<int64, int>, balance: map<int64, int>)

  predicate CanBuy(l: Ledger, g: Saga) {
    && g.user in l.balance && l.balance[g.user] >= g.amount
    && g.product in l.stock && l.stock[g.product] >= g.amount
  }

  function Buy(l: Ledger, g: Saga): Ledger
    requires CanBuy(l, g)
  {
    Ledger(l.stock[g.product := l.stock[g.product] - g.amount],
           l.balance[g.user := l.balance[g.user] - g.amount])
  }

  datatype Replayed = Refused | Accepted(ledger: Ledger)

  /** Runs the purchases one at a time; a single refusal spoils the whole replay. */
  function Replay(l: Ledger, purchases: seq<Saga>): Replayed {
    if purchases == [] then Accepted(l)
    else
      var last := |purchases| - 1;
      match Replay(l, purchases[..last])
      case Refused => Refused
      case Accepted(m) => if CanBuy(m, purchases[last]) then Accepted(Buy(m, purchases[last])) else Refused
  }

  function Plain(t: Table): map<int64, int> {
    map id | id in t :: t[id]
  }

  /** The database as if no saga were half-way: in-flight holds are handed back. */
  function View(s: State): Ledger {
    Ledger(Plain(s.stock), map u | u in s.balance :: s.balance[u] + Sum(s.log, InFlight(u)))
  }

  function InFlightShift(g: Saga, g': Saga): int {
    (if g'.phase.BalanceHeld? || g'.phase.Compensating? then g.amount else 0) -
    (if g.phase.BalanceHeld? || g.phase.Compensating? then g.amount else 0)
  }

  lemma InFlightSums(s: State, s': State, i: nat)
    requires Moves(s, s', i)
    ensures forall u :: Sum(s'.log, InFlight(u)) ==
              Sum(s.log, InFlight(u)) + if s.log[i].user == u then InFlightShift(s.log[i], s'.log[i]) else 0
  {
    forall u
      ensures Sum(s'.log, InFlight(u)) ==
                Sum(s.log, InFlight(u)) + if s.log[i].user == u then InFlightShift(s.log[i], s'.log[i]) else 0
    {
      SumUpdate(s.log, i, s'.log[i], InFlight(u));
    }
  }

  lemma InFlightAtLeast(s: State, i: nat)
    requires i < |s.log| && LogSound(s.log) && s.log[i].phase.BalanceHeld?
    ensures Sum(s.log, InFlight(s.log[i].user)) >= s.log[i].amount
  {
    var w := InFlight(s.log[i].user);
    SumAtLeast(s.log, w);
    assert w(s.log[i]) == s.log[i].amount;
  }

  /** A sale is an atomic buy on the view. */
  lemma SellIsBuy(s: State, s': State, i: nat)
    requires LogSound(s.log) && HoldsReal(s) && Sell(s, s', i)
    ensures CanBuy(View(s), s'.log[i]) && View(s') == Buy(View(s), s'.log[i])
  {
    InFlightAtLeast(s, i);
    InFlightSums(s, s', i);
  }

  lemma ViewSame(s: State, s': State)
    requires s'.stock == s.stock && s'.balance.Keys == s.balance.Keys
    requires forall u | u in s.balance ::
      s'.balance[u] + Sum(s'.log, InFlight(u)) == s.balance[u] + Sum(s.log, InFlight(u))
    ensures View(s') == View(s)
  {
    hide Sum;
    assert View(s').balance.Keys == View(s).balance.Keys;
    assert forall u | u in s.balance :: View(s').balance[u] == View(s).balance[u];
  }

  /** Every other move leaves the view alone. */
  lemma OthersStutter(s: State, s': State, i: nat)
    requires Hold(s, s', i) || Return(s, s', i) || Refuse(s, s', i)
    ensures View(s') == View(s)
  {
    hide Sum, View;
    InFlightSums(s, s', i);
    ViewSame(s, s');
  }

  lemma SubmitStutters(s: State, g: Saga)
    requires g.phase.Started?
    ensures View(s.(log := s.log + [g])) == View(s)
  {
    hide Sum, View;
    forall u | u in s.balance ensures Sum(s.log + [g], InFlight(u)) == Sum(s.log, InFlight(u)) {
      SumAppend(s.log, g, InFlight(u));
    }
    ViewSame(s, s.(log := s.log + [g]));
  }

  /** Forward simulation: each step is one successful buy or no step at all. */
  lemma Simulation(s0: State, s: State, a: Action)
    requires Inv(s0, s) && PositiveAction(a)
    ensures var s' := Step(s, a);
            || (s'.commits == s.commits && View(s') == View(s))
            || (&& |s'.commits| == |s.commits| + 1
                && s'.commits[..|s.commits|] == s.commits
                && var g := s'.commits[|s.commits|];
                   CanBuy(View(s), g) && View(s') == Buy(View(s), g))
  {
    var s' := Step(s, a);
    match a
    case Submit(gid, user, product, amount) =>
      SubmitStutters(s, Saga(gid, user, product, amount, Started));
    case Branch(i, db) =>
      if i < |s.log| && s' != s {
        BranchCases(s, i, db);
        if Sell(s, s', i) {
          SellIsBuy(s, s', i);
        } else {
          OthersStutter(s, s', i);
        }
      }
  }

  lemma {:induction false} ReplayReaches(s0: State, acts: seq<Action>)
    requires Fresh(s0) && Positive(acts)
    ensures Replay(View(s0), Exec(s0, acts).commits) == Accepted(View(Exec(s0, acts)))
  {
    if acts != [] {
      var before, last := acts[..|acts| - 1], acts[|acts| - 1];
      assert Positive(before);
      ReplayReaches(s0, before);
      Always(s0, before);
      Simulation(s0, Exec(s0, before), last);
    }
  }

  lemma QuiescentView(s: State)
    requires Quiescent(s)
    ensures View(s) == Ledger(Plain(s.stock), Plain(s.balance))
  {
    forall u ensures Sum(s.log, InFlight(u)) == 0 {
      SumSame(s.log, InFlight(u), (g: Saga) => 0);
      SumZero(s.log);
    }
  }

  lemma {:induction false} SumZero(log: seq<Saga>)
    ensures Sum(log, (g: Saga) => 0) == 0
  {
    if log != [] {
      SumZero(log[..|log| - 1]);
    }
  }

  /**
   * Serializability: whatever the interleaving, once no saga is left half-way
   * the tables are what the committed sagas leave behind when bought atomically
   * in commit order, and every one of those purchases is accepted.
   */
  lemma Serializable(s0: State, acts: seq<Action>)
    requires Fresh(s0) && Positive(acts) && Quiescent(Exec(s0, acts))
    ensures var s := Exec(s0, acts);
            && Replay(Ledger(Plain(s0.stock), Plain(s0.balance)), s.commits)
               == Accepted(Ledger(Plain(s.stock), Plain(s.balance)))
            && CommitsExact(s)
  {
    Always(s0, acts);
    ReplayReaches(s0, acts);
    QuiescentView(s0);
    QuiescentView(Exec(s0, acts));
  }

  // ------------------------------------------------------------------- refusals

  function Taken(p: int64): Saga -> int {
    (g: Saga) => if g.product == p then g.amount else 0
  }

  /** The opening tables hold enough for the earlier purchases and this one. */
  predicate Covers(s0: State, earlier: seq<Saga>, g: Saga) {
    && g.user in s0.balance && s0.balance[g.user] >= Sum(earlier, Demand(g.user)) + g.amount
    && g.product in s0.stock && s0.stock[g.product] >= Sum(earlier, Taken(g.product)) + g.amount
  }

  lemma {:induction false} ReplayAddsUp(l: Ledger, purchases: seq<Saga>)
    requires Replay(l, purchases).Accepted?
    ensures var m := Replay(l, purchases).ledger;
            && m.balance.Keys == l.balance.Keys && m.stock.Keys == l.stock.Keys
            && (forall u | u in l.balance :: m.balance[u] == l.balance[u] - Sum(purchases, Demand(u)))
            && (forall p | p in l.stock :: m.stock[p] == l.stock[p] - Sum(purchases, Taken(p)))
  {
    if purchases != [] {
      ReplayAddsUp(l, purchases[..|purchases| - 1]);
    }
  }

  lemma ReplaySnoc(l: Ledger, purchases: seq<Saga>, g: Saga)
    requires Replay(l, purchases).Accepted?
    ensures Replay(l, purchases + [g]).Accepted? <==> CanBuy(Replay(l, purchases).ledger, g)
  {
    assert (purchases + [g])[..|purchases|] == purchases;
    hide CanBuy;
  }

  lemma FreshView(s: State)
    requires Fresh(s)
    ensures View(s) == Ledger(Plain(s.stock), Plain(s.balance))
  {
    QuiescentView(s);
  }

  lemma CoversIff(s0: State, earlier: seq<Saga>, g: Saga)
    requires Replay(Ledger(Plain(s0.stock), Plain(s0.balance)), earlier).Accepted?
    ensures CanBuy(Replay(Ledger(Plain(s0.stock), Plain(s0.balance)), earlier).ledger, g) <==> Covers(s0, earlier, g)
  {
    var l := Ledger(Plain(s0.stock), Plain(s0.balance));
    ReplayAddsUp(l, earlier);
    assert g.user in l.balance <==> g.user in s0.balance;
    assert g.product in l.stock <==> g.product in s0.stock;
    hide Replay, Sum;
  }

  /**
   * In every reachable state, a purchase is possible at this point of the commit
   * order exactly when the opening tables cover it.
   */
  lemma CanBuyIff(s0: State, acts: seq<Action>, g: Saga)
    requires Fresh(s0) && Positive(acts)
    ensures CanBuy(View(Exec(s0, acts)), g) <==> Covers(s0, Exec(s0, acts).commits, g)
    ensures CanBuy(View(Exec(s0, acts)), g) <==> Replay(View(s0), Exec(s0, acts).commits + [g]).Accepted?
  {
    hide *;
    ReplayReaches(s0, acts);
    FreshView(s0);
    ReplaySnoc(View(s0), Exec(s0, acts).commits, g);
    CoversIff(s0, Exec(s0, acts).commits, g);
  }

  /** The coordinator answers this branch call with a refusal. */
  predicate RefusedNow(s: State, i: nat) {
    i < |s.log| &&
    var phase := Step(s, Branch(i, Works)).log[i].phase;
    (s.log[i].phase.Started? && phase.Aborted?) || (s.log[i].phase.BalanceHeld? && phase.Compensating?)
  }

  ghost predicate OtherInFlight(s: State, i: nat)
    requires i < |s.log|
  {
    exists j :: 0 <= j < |s.log| && j != i && s.log[j].user == s.log[i].user &&
                (s.log[j].phase.BalanceHeld? || s.log[j].phase.Compensating?)
  }

  /**
   * At the point of the commit order where a branch is refused, the atomic
   * purchase would be accepted exactly when it was the first branch and the
   * opening balance and stock cover the commits so far and this one. It takes
   * another saga of the same buyer in flight. So every SOLD_OUT refusal, and
   * every refusal of a buyer with no other saga in flight, is a refused purchase.
   */
  lemma RefusedBuyIff(s0: State, acts: seq<Action>, i: nat)
    requires Fresh(s0) && Positive(acts) && RefusedNow(Exec(s0, acts), i)
    ensures var s := Exec(s0, acts);
            var accepted := Replay(View(s0), s.commits + [s.log[i]]).Accepted?;
            && Replay(View(s0), s.commits) == Accepted(View(s))
            && (accepted <==> s.log[i].phase.Started? && Covers(s0, s.commits, s.log[i]))
            && (accepted ==> OtherInFlight(s, i))
  {
    var s := Exec(s0, acts);
    Always(s0, acts);
    ReplayReaches(s0, acts);
    CanBuyIff(s0, acts, s.log[i]);
    RefusedCannotBuy(s, i);
    hide Exec, Inv, Covers, Replay, CanBuy, View, RefusedNow, OtherInFlight;
  }

  lemma RefusedCannotBuy(s: State, i: nat)
    requires RefusedNow(s, i)
    ensures CanBuy(View(s), s.log[i]) ==> s.log[i].phase.Started? && OtherInFlight(s, i)
  {
    var g := s.log[i];
    if g.phase.Started? && !OtherInFlight(s, i) {
      forall j | 0 <= j < |s.log| ensures InFlight(g.user)(s.log[j]) == 0 {
      }
      SumSame(s.log, InFlight(g.user), (g: Saga) => 0);
      SumZero(s.log);
    }
  }

  /**
   * Once all sagas have settled, a purchase, say that of a buyer who was
   * refused, is possible exactly when the opening tables cover all the commits
   * and this purchase.
   */
  lemma RefundedBuyIff(s0: State, acts: seq<Action>, g: Saga)
    requires Fresh(s0) && Positive(acts) && Quiescent(Exec(s0, acts))
    ensures var s := Exec(s0, acts);
            CanBuy(Ledger(Plain(s.stock), Plain(s.balance)), g) <==> Covers(s0, s.commits, g)
  {
    CanBuyIff(s0, acts, g);
    QuiescentView(Exec(s0, acts));
  }

  const ONE_SOLD_OUT := State(map[1 := 0, 2 := 5], map[7 := 1], [], [])

  const TWO_PURCHASES := [Submit("a", 7, 1, 1), Branch(0, Works), Submit("b", 7, 2, 1)]

  const REFUSAL_AND_REFUND := [Branch(1, Works), Branch(0, Works), Branch(0, Works)]

  lemma BothPurchasesPending()
    ensures Exec(ONE_SOLD_OUT, TWO_PURCHASES) ==
      State(map[1 := 0, 2 := 5], map[7 := 0],
            [Saga("a", 7, 1, 1, BalanceHeld), Saga("b", 7, 2, 1, Started)], [])
  {
    var a1 := [Submit("a", 7, 1, 1)];
    ExecSnoc(ONE_SOLD_OUT, [], a1[0]);
    assert [] + a1 == a1;
    assert Exec(ONE_SOLD_OUT, a1).log == [Saga("a", 7, 1, 1, Started)];
    ExecSnoc(ONE_SOLD_OUT, a1, Branch(0, Works));
    var s2 := Exec(ONE_SOLD_OUT, a1 + [Branch(0, Works)]);
    assert s2.log == [Saga("a", 7, 1, 1, BalanceHeld)];
    ExecSnoc(ONE_SOLD_OUT, a1 + [Branch(0, Works)], Submit("b", 7, 2, 1));
    assert !Known(s2.log, "b");
    assert a1 + [Branch(0, Works)] + [Submit("b", 7, 2, 1)] == TWO_PURCHASES;
  }

  function TwoSagas(held: int32, first: Phase, second: Phase): State {
    State(map[1 := 0, 2 := 5], map[7 := held], [Saga("a", 7, 1, 1, first), Saga("b", 7, 2, 1, second)], [])
  }

  lemma RefusalAndRefund()
    ensures Exec(ONE_SOLD_OUT, TWO_PURCHASES + [Branch(1, Works)] + [Branch(0, Works)] + [Branch(0, Works)])
            == TwoSagas(1, Aborted(OutOfStock), Aborted(LowFunds))
  {
    BothPurchasesPending();
    var b1 := TWO_PURCHASES + [Branch(1, Works)];
    var b2 := b1 + [Branch(0, Works)];
    ExecSnoc(ONE_SOLD_OUT, TWO_PURCHASES, Branch(1, Works));
    ExecSnoc(ONE_SOLD_OUT, b1, Branch(0, Works));
    ExecSnoc(ONE_SOLD_OUT, b2, Branch(0, Works));
    hide Exec;
    FirstRefused();
    SecondSoldOut();
    SecondRefunded();
    hide Step;
  }

  lemma FirstRefused()
    ensures Step(TwoSagas(0, BalanceHeld, Started), Branch(1, Works)) == TwoSagas(0, BalanceHeld, Aborted(LowFunds))
  {
  }

  lemma SecondSoldOut()
    ensures Step(TwoSagas(0, BalanceHeld, Aborted(LowFunds)), Branch(0, Works))
            == TwoSagas(0, Compensating(OutOfStock), Aborted(LowFunds))
  {
  }

  lemma SecondRefunded()
    ensures Step(TwoSagas(0, Compensating(OutOfStock), Aborted(LowFunds)), Branch(0, Works))
            == TwoSagas(1, Aborted(OutOfStock), Aborted(LowFunds))
  {
  }

  /**
   * It does happen: a buyer with one unit tries a sold-out product and, before
   * the refund, one in stock. At the end the second purchase would succeed.
   */
  lemma SpuriousRefusal()
    ensures var s := Exec(ONE_SOLD_OUT, TWO_PURCHASES + REFUSAL_AND_REFUND);
            && Fresh(ONE_SOLD_OUT) && Positive(TWO_PURCHASES + REFUSAL_AND_REFUND) && Quiescent(s)
            && |s.log| == 2 && s.log[1].phase == Aborted(LowFunds) && CanBuy(View(s), s.log[1])
  {
    var b1 := TWO_PURCHASES + [Branch(1, Works)];
    var b2 := b1 + [Branch(0, Works)];
    RefusalAndRefund();
    assert b2 + [Branch(0, Works)] == TWO_PURCHASES + REFUSAL_AND_REFUND;
    var s := Exec(ONE_SOLD_OUT, TWO_PURCHASES + REFUSAL_AND_REFUND);
    QuiescentView(s);
  }
}
