/** What a request's status, history and entry say about its purchase, in every run. */
module Outcomes {
  import opened Identifiers
  import opened Protocol
  import opened Delivery
  import C = Coordinator
  import K = Conservation
  import S = Serializability
  import N = SaleCount
  import E = Effects

  // -------------------------------------------------------- the sagas of a protocol run

  function SagaActions(cfg: Config, s: State, a: Action): seq<C.Action> {
    match a
    case Submit(id) =>
      if id in s.reqs && s.reqs[id].stage.Submitting? then
        [C.Submit(Gid(id), s.reqs[id].user, cfg.product, cfg.amount)]
      else []
    case Branch(i, db) => [C.Branch(i, db)]
    case _ => []
  }

  /** The coordinator run inside a protocol run. */
  function Trace(cfg: Config, s0: State, acts: seq<Action>): seq<C.Action> {
    if acts == [] then []
    else
      var init, last := acts[..|acts| - 1], acts[|acts| - 1];
      Trace(cfg, s0, init) + SagaActions(cfg, Exec(cfg, s0, init), last)
  }

  lemma StepProjects(cfg: Config, s: State, a: Action)
    requires cfg.amount >= 1
    ensures var more := SagaActions(cfg, s, a);
            && C.Positive(more)
            && if more == [] then Step(cfg, s, a).sagas == s.sagas
               else more == [more[0]] && Step(cfg, s, a).sagas == C.Step(s.sagas, more[0])
  {
    hide C.Step;
  }

  lemma {:induction false} Projects(cfg: Config, s0: State, acts: seq<Action>)
    requires cfg.amount >= 1
    ensures Exec(cfg, s0, acts).sagas == C.Exec(s0.sagas, Trace(cfg, s0, acts))
    ensures C.Positive(Trace(cfg, s0, acts))
  {
    hide Step, C.Step, SagaActions;
    if acts != [] {
      var init, last := acts[..|acts| - 1], acts[|acts| - 1];
      Projects(cfg, s0, init);
      StepProjects(cfg, Exec(cfg, s0, init), last);
      var t := Trace(cfg, s0, init);
      var more := SagaActions(cfg, Exec(cfg, s0, init), last);
      if more == [] {
        assert t + more == t;
      } else {
        C.ExecSnoc(s0.sagas, t, more[0]);
        assert t + more == t + [more[0]];
      }
    }
  }

  /** Conservation, serializability and the exact sale count hold of the whole protocol. */
  lemma SalesAreSound(cfg: Config, s0: State, acts: seq<Action>)
    requires Init(s0) && cfg.amount >= 1
    ensures var s := Exec(cfg, s0, acts).sagas;
            && K.StockConserved(s0.sagas, s) && K.BalanceConserved(s0.sagas, s) && K.CommitsExact(s)
            && (C.Quiescent(s) ==>
                  && S.Replay(S.Ledger(S.Plain(s0.sagas.stock), S.Plain(s0.sagas.balance)), s.commits)
                     == S.Accepted(S.Ledger(S.Plain(s.stock), S.Plain(s.balance)))
                  && C.Total(s0.sagas.balance) - C.Total(s.balance) == C.Total(s0.sagas.stock) - C.Total(s.stock))
  {
    Projects(cfg, s0, acts);
    var t := Trace(cfg, s0, acts);
    K.Always(s0.sagas, t);
    K.Conservation(s0.sagas, t);
    if C.Quiescent(C.Exec(s0.sagas, t)) {
      S.Serializable(s0.sagas, t);
    }
  }

  ghost predicate KeepsRetrying(acts: seq<Action>) {
    forall i | 0 <= i < |acts| && acts[i].Branch? :: acts[i].db != C.Unreachable(true)
  }

  lemma {:induction false} TraceKeepsRetrying(cfg: Config, s0: State, acts: seq<Action>)
    requires KeepsRetrying(acts)
    ensures N.NeverGivesUp(Trace(cfg, s0, acts))
  {
    if acts != [] {
      var init := acts[..|acts| - 1];
      assert KeepsRetrying(init);
      TraceKeepsRetrying(cfg, s0, init);
    }
  }

  lemma OwnedIsUniform(cfg: Config, s: State)
    requires AllOwned(cfg, s)
    ensures N.Uniform(s.sagas.log, cfg.product, cfg.amount)
  {
    forall i | 0 <= i < |s.sagas.log|
      ensures s.sagas.log[i].product == cfg.product && s.sagas.log[i].amount == cfg.amount
    {
      assert Owned(cfg, s, s.sagas.log[i]);
    }
  }

  /**
   * The sale as a whole: when every buyer can pay for all of their submitted
   * requests and branches are retried until the database answers, the settled
   * run has sold to exactly min(submitted requests, stock / amount) of them.
   */
  lemma ExactSales(cfg: Config, s0: State, acts: seq<Action>)
    requires Init(s0) && cfg.amount >= 1 && KeepsRetrying(acts)
    requires var s := Exec(cfg, s0, acts).sagas; C.Quiescent(s) && N.Covered(s0.sagas, s.log)
    ensures var s := Exec(cfg, s0, acts).sagas;
            |s.commits| == N.Min(|s.log|, N.Opening(s0.sagas, cfg.product) / cfg.amount)
  {
    hide Inv, Exec, Trace, C.Exec, N.Covered, N.Uniform, N.NeverGivesUp, C.Quiescent;
    AlwaysInv(cfg, s0, acts);
    InvOwned(cfg, s0, Exec(cfg, s0, acts));
    OwnedIsUniform(cfg, Exec(cfg, s0, acts));
    Projects(cfg, s0, acts);
    TraceKeepsRetrying(cfg, s0, acts);
    N.ExactSaleCount(s0.sagas, Trace(cfg, s0, acts), cfg.product, cfg.amount);
  }

  lemma InvOwned(cfg: Config, s0: State, s: State)
    requires Inv(cfg, s0, s)
    ensures AllOwned(cfg, s)
  {
  }

  // ------------------------------------------------------------------ at most one effect

  ghost predicate OneOwner(cfg: Config, s: State, g: C.Saga) {
    exists owner :: Owns(cfg, s, owner, g) && forall other :: Owns(cfg, s, other, g) ==> other == owner
  }

  lemma EachOneOwner(cfg: Config, s0: State, s: State)
    requires Inv(cfg, s0, s)
    ensures forall i | 0 <= i < |s.sagas.log| :: OneOwner(cfg, s, s.sagas.log[i])
  {
    hide K.Inv, AllGood;
    forall i | 0 <= i < |s.sagas.log| ensures OneOwner(cfg, s, s.sagas.log[i]) {
      assert Owned(cfg, s, s.sagas.log[i]);
      var owner :| Owns(cfg, s, owner, s.sagas.log[i]);
      forall other | Owns(cfg, s, other, s.sagas.log[i]) ensures other == owner {
        GidInjective(other, owner);
      }
    }
  }

  /**
   * At-least-once delivery, at most one effect: in any run, with any number of
   * redeliveries and repeated submissions, request `id` charges its buyer once
   * at most and takes stock once at most; and no saga serves two requests.
   */
  lemma AtMostOneEffect(cfg: Config, s0: State, acts: seq<Action>, id: string)
    requires Init(s0) && cfg.amount >= 1
    ensures E.ChargeCount(s0.sagas, Trace(cfg, s0, acts), Gid(id)) <= 1
    ensures E.TakeCount(s0.sagas, Trace(cfg, s0, acts), Gid(id)) <= 1
    ensures var s := Exec(cfg, s0, acts);
            forall i | 0 <= i < |s.sagas.log| :: OneOwner(cfg, s, s.sagas.log[i])
  {
    hide Inv, Trace, C.Exec, Exec;
    Projects(cfg, s0, acts);
    E.AtMostOnce(s0.sagas, Trace(cfg, s0, acts), Gid(id));
    AlwaysInv(cfg, s0, acts);
    EachOneOwner(cfg, s0, Exec(cfg, s0, acts));
  }

  // --------------------------------------------------------------------------- creation

  function CreateCount(cfg: Config, s0: State, acts: seq<Action>, id: string): nat {
    if acts == [] then 0
    else
      var init, last := acts[..|acts| - 1], acts[|acts| - 1];
      var s := Exec(cfg, s0, init);
      CreateCount(cfg, s0, init, id) +
      if last.Create? && RequestId(last.user, last.nanos) == id && Step(cfg, s, last) != s then 1 else 0
  }

  function InsertCount(cfg: Config, s0: State, acts: seq<Action>, id: string): nat {
    if acts == [] then 0
    else
      var init, last := acts[..|acts| - 1], acts[|acts| - 1];
      var s := Exec(cfg, s0, init);
      InsertCount(cfg, s0, init, id) +
      if last.Insert? && last.ok && last.id == id && Step(cfg, s, last) != s then 1 else 0
  }

  lemma StageOrder(cfg: Config, s: State, a: Action, id: string)
    ensures var s' := Step(cfg, s, a);
            && (id in s.reqs ==> id in s'.reqs)
            && (id in s.reqs && !BeforeJob(s.reqs[id].stage) ==> !BeforeJob(s'.reqs[id].stage))
            && (a.Create? && RequestId(a.user, a.nanos) == id && s' != s ==> id !in s.reqs && id in s'.reqs)
            && (a.Insert? && a.ok && a.id == id && s' != s ==>
                  id in s.reqs && BeforeJob(s.reqs[id].stage) && !BeforeJob(s'.reqs[id].stage))
  {
  }

  /**
   * Whatever calls draw the same request ID, at most one of them creates the
   * entry, and at most one job is inserted for it.
   */
  lemma {:induction false} CreatedOnce(cfg: Config, s0: State, acts: seq<Action>, id: string)
    requires Init(s0)
    ensures var s := Exec(cfg, s0, acts);
            && CreateCount(cfg, s0, acts, id) == (if id in s.reqs then 1 else 0)
            && InsertCount(cfg, s0, acts, id)
               <= (if id in s.reqs && !BeforeJob(s.reqs[id].stage) then 1 else 0)
  {
    if acts != [] {
      var init, last := acts[..|acts| - 1], acts[|acts| - 1];
      CreatedOnce(cfg, s0, init, id);
      StageOrder(cfg, Exec(cfg, s0, init), last, id);
      if id !in Exec(cfg, s0, init).reqs && id in Exec(cfg, s0, acts).reqs {
        OnlyCreateAdds(cfg, Exec(cfg, s0, init), last, id);
      }
    }
  }

  lemma OnlyCreateAdds(cfg: Config, s: State, a: Action, id: string)
    requires id !in s.reqs && id in Step(cfg, s, a).reqs
    ensures a.Create? && RequestId(a.user, a.nanos) == id && Step(cfg, s, a) != s
    ensures BeforeJob(Step(cfg, s, a).reqs[id].stage)
  {
  }
}
