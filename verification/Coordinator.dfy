/**
 * The two-branch purchase saga run by the coordinator over both services, one
 * atomic row operation per step, any number of sagas interleaved.
 *
 * Coordinator contract (the coordinator itself is not part of this model): the
 * branches of a saga run in the order they were added; a GID starts one saga
 * only; when a branch fails, exactly the branches that succeeded are
 * compensated, in reverse, each once; a compensation that errs is retried.
 */
module Coordinator {
  import opened Ints
  import opened Rows

  datatype Reason = OutOfStock | LowFunds | NoSuchUser | BranchError

  datatype Phase =
    | Started
    | BalanceHeld
    | Compensating(reason: Reason)
    | Committed
    | Aborted(reason: Reason)

  datatype Saga = Saga(gid: string, user: int64, product: int64, amount: int32, phase: Phase)

  /** `commits` lists the committed sagas in the order their last branch took effect. */
  datatype State = State(stock: Table, balance: Table, log: seq<Saga>, commits: seq<Saga>)

  /** The database as one branch call meets it; an unreachable one has no effect. */
  datatype Db = Works | Unreachable(giveUp: bool)

  datatype Action =
    | Submit(gid: string, user: int64, product: int64, amount: int32)
    | Branch(i: nat, db: Db)

  predicate Settled(g: Saga) {
    g.phase.Committed? || g.phase.Aborted?
  }

  predicate Quiescent(s: State) {
    forall i | 0 <= i < |s.log| :: Settled(s.log[i])
  }

  predicate Known(log: seq<Saga>, gid: string) {
    exists i | 0 <= i < |log| :: log[i].gid == gid
  }

  function Move(s: State, i: nat, phase: Phase): State
    requires i < |s.log|
  {
    s.(log := s.log[i := s.log[i].(phase := phase)])
  }

  /** First branch, /api.user.v1.User/DeductBalance. */
  function DeductBalanceBranch(s: State, i: nat): State
    requires i < |s.log|
  {
    var g := s.log[i];
    var (balance, out) := DeductRow(s.balance, g.user, g.amount);
    match out
    case DbError => s
    case Affected(n) =>
      if n > 0 then Move(s, i, BalanceHeld).(balance := balance)
      else Move(s, i, Aborted(if g.user in s.balance then LowFunds else NoSuchUser))
  }

  /** Second branch, /api.product.v1.Product/DeductStockSaga. */
  function DeductStockBranch(s: State, i: nat): State
    requires i < |s.log|
  {
    var g := s.log[i];
    var (stock, out) := DeductRow(s.stock, g.product, g.amount);
    match out
    case DbError => s
    case Affected(n) =>
      if n > 0 then
        Move(s, i, Committed).(stock := stock, commits := s.commits + [g.(phase := Committed)])
      else Move(s, i, Compensating(OutOfStock))
  }

  /** Compensation of the first branch, /api.user.v1.User/RestoreBalance. */
  function RestoreBalanceBranch(s: State, i: nat): State
    requires i < |s.log| && s.log[i].phase.Compensating?
  {
    var g := s.log[i];
    var (balance, out) := RestoreRow(s.balance, g.user, g.amount);
    match out
    case DbError => s
    case Affected(_) => Move(s, i, Aborted(g.phase.reason)).(balance := balance)
  }

  function Advance(s: State, i: nat): State
    requires i < |s.log|
  {
    match s.log[i].phase
    case Started => DeductBalanceBranch(s, i)
    case BalanceHeld => DeductStockBranch(s, i)
    case Compensating(_) => RestoreBalanceBranch(s, i)
    case _ => s
  }

  /** A branch the coordinator stops retrying counts as failed; a compensation never does. */
  function GiveUp(s: State, i: nat): State
    requires i < |s.log|
  {
    match s.log[i].phase
    case Started => Move(s, i, Aborted(BranchError))
    case BalanceHeld => Move(s, i, Compensating(BranchError))
    case _ => s
  }

  function Step(s: State, a: Action): State {
    match a
    case Submit(gid, user, product, amount) =>
      if Known(s.log, gid) then s
      else s.(log := s.log + [Saga(gid, user, product, amount, Started)])
    case Branch(i, db) =>
      if i >= |s.log| then s
      else match db
        case Works => Advance(s, i)
        case Unreachable(giveUp) => if giveUp then GiveUp(s, i) else s
  }

  /** Any finite sequence of actions is a run: an action out of place does nothing. */
  function Exec(s: State, acts: seq<Action>): State {
    if acts == [] then s
    else Step(Exec(s, acts[..|acts| - 1]), acts[|acts| - 1])
  }

  lemma ExecSnoc(s: State, acts: seq<Action>, a: Action)
    ensures Exec(s, acts + [a]) == Step(Exec(s, acts), a)
  {
    assert (acts + [a])[..|acts|] == acts;
  }

  ghost predicate Fresh(s: State) {
    s.log == [] && s.commits == []
  }

  /** The configured amount defaults to 1 when unset; a negative one is assumed away. */
  predicate PositiveAction(a: Action) {
    a.Submit? ==> a.amount >= 1
  }

  ghost predicate Positive(acts: seq<Action>) {
    forall i | 0 <= i < |acts| :: PositiveAction(acts[i])
  }

  // ------------------------------------------------------------ sums over the log

  function Sum(log: seq<Saga>, w: Saga -> int): int {
    if log == [] then 0 else Sum(log[..|log| - 1], w) + w(log[|log| - 1])
  }

  lemma {:induction false} SumUpdate(log: seq<Saga>, i: nat, g: Saga, w: Saga -> int)
    requires i < |log|
    ensures Sum(log[i := g], w) == Sum(log, w) - w(log[i]) + w(g)
  {
    var last := |log| - 1;
    if i == last {
      assert log[i := g][..last] == log[..last];
    } else {
      SumUpdate(log[..last], i, g, w);
      assert log[i := g][..last] == log[..last][i := g];
    }
  }

  lemma SumAppend(log: seq<Saga>, g: Saga, w: Saga -> int)
    ensures Sum(log + [g], w) == Sum(log, w) + w(g)
  {
    assert (log + [g])[..|log|] == log;
  }

  lemma {:induction false} SumSame(log: seq<Saga>, w: Saga -> int, v: Saga -> int)
    requires forall i | 0 <= i < |log| :: w(log[i]) == v(log[i])
    ensures Sum(log, w) == Sum(log, v)
  {
    if log != [] {
      SumSame(log[..|log| - 1], w, v);
    }
  }

  lemma {:induction false} SumAtLeast(log: seq<Saga>, w: Saga -> int)
    requires forall i | 0 <= i < |log| :: w(log[i]) >= 0
    ensures Sum(log, w) >= 0
    ensures forall i | 0 <= i < |log| :: Sum(log, w) >= w(log[i])
  {
    if log != [] {
      SumAtLeast(log[..|log| - 1], w);
      forall i | 0 <= i < |log| ensures Sum(log, w) >= w(log[i]) {
        if i < |log| - 1 {
          assert log[..|log| - 1][i] == log[i];
        }
      }
    }
  }

  predicate HoldsBalance(g: Saga) {
    g.phase.BalanceHeld? || g.phase.Compensating? || g.phase.Committed?
  }

  function StockOf(p: int64): Saga -> int {
    (g: Saga) => if g.phase.Committed? && g.product == p then g.amount else 0
  }

  function BalanceOf(u: int64): Saga -> int {
    (g: Saga) => if HoldsBalance(g) && g.user == u then g.amount else 0
  }

  function InFlight(u: int64): Saga -> int {
    (g: Saga) => if (g.phase.BalanceHeld? || g.phase.Compensating?) && g.user == u then g.amount else 0
  }

  /** What a buyer's requests would cost if all of them went through. */
  function Demand(u: int64): Saga -> int {
    (g: Saga) => if g.user == u then g.amount else 0
  }

  function AnyStock(): Saga -> int {
    (g: Saga) => if g.phase.Committed? then g.amount else 0
  }

  function AnyBalance(): Saga -> int {
    (g: Saga) => if HoldsBalance(g) then g.amount else 0
  }

  function OneIfCommitted(): Saga -> int {
    (g: Saga) => if g.phase.Committed? then 1 else 0
  }

  // ------------------------------------------------------------- sums over a table

  ghost function Total(t: Table): int {
    if t == map[] then 0
    else var id :| id in t; t[id] + Total(t - {id})
  }

  lemma {:induction false} TotalPick(t: Table, id: int64)
    requires id in t
    ensures Total(t) == t[id] + Total(t - {id})
    decreases |t|
  {
    var k :| k in t && Total(t) == t[k] + Total(t - {k});
    if k != id {
      TotalPick(t - {k}, id);
      TotalPick(t - {id}, k);
      assert t - {k} - {id} == t - {id} - {k};
    }
  }

  lemma TotalUpdate(t: Table, id: int64, v: int32)
    requires id in t
    ensures Total(t[id := v]) == Total(t) - t[id] + v
  {
    TotalPick(t, id);
    TotalPick(t[id := v], id);
    assert t[id := v] - {id} == t - {id};
  }
}
