/**
 * Termination: without new requests, every run stops after boundedly many
 * effective steps, and only with every request answered and every saga either
 * fully committed or fully compensated.
 */
module Settling {
  import opened Ints
  import opened Rows
  import opened Identifiers
  import opened Lifecycle
  import opened SagaRecords
  import opened Protocol
  import opened Delivery
  import C = Coordinator
  import K = Conservation

  // ------------------------------------------------------------------- the measure

  function Position(stage: Stage): nat {
    match stage
    case Created => 3
    case Stamped => 2
    case InsertFailed => 1
    case Queued => 1
    case Degrading => 7
    case Marking => 7
    case Submitting => 6
    case Awaiting => 5
    case Finishing(_) => 4
    case _ => 0
  }

  /** Remaining attempts count more than the position within one attempt. */
  function Weight(cfg: Config, r: Req): nat {
    4 * (8 * (if r.tries < cfg.attempts then cfg.attempts - r.tries else 0) + Position(r.stage))
  }

  function SagaWork(): C.Saga -> int {
    (g: C.Saga) => if g.phase.Started? then 3 else if g.phase.BalanceHeld? then 2
                   else if g.phase.Compensating? then 1 else 0
  }

  ghost function Load(cfg: Config, reqs: map<string, Req>): nat {
    if reqs == map[] then 0
    else var id :| id in reqs; Weight(cfg, reqs[id]) + Load(cfg, reqs - {id})
  }

  lemma {:induction false} LoadPick(cfg: Config, reqs: map<string, Req>, id: string)
    requires id in reqs
    ensures Load(cfg, reqs) == Weight(cfg, reqs[id]) + Load(cfg, reqs - {id})
    decreases |reqs|
  {
    var k :| k in reqs && Load(cfg, reqs) == Weight(cfg, reqs[k]) + Load(cfg, reqs - {k});
    if k != id {
      LoadPick(cfg, reqs - {k}, id);
      LoadPick(cfg, reqs - {id}, k);
      assert reqs - {k} - {id} == reqs - {id} - {k};
    }
  }

  lemma LoadUpdate(cfg: Config, reqs: map<string, Req>, id: string, r: Req)
    requires id in reqs
    ensures Load(cfg, reqs[id := r]) == Load(cfg, reqs) - Weight(cfg, reqs[id]) + Weight(cfg, r)
  {
    LoadPick(cfg, reqs, id);
    LoadPick(cfg, reqs[id := r], id);
    assert reqs[id := r] - {id} == reqs - {id};
  }

  ghost function Measure(cfg: Config, s: State): int {
    Load(cfg, s.reqs) + C.Sum(s.sagas.log, SagaWork())
  }

  // ------------------------------------------------------------------- it decreases

  predicate Working(a: Action) {
    !a.Create? && !a.Tick?
  }

  lemma RequestStepDecreases(cfg: Config, s: State, a: Action, id: string)
    requires Working(a) && !a.Branch? && a.id == id && Step(cfg, s, a) != s
    ensures id in s.reqs && id in Step(cfg, s, a).reqs
    ensures Step(cfg, s, a).reqs == s.reqs[id := Step(cfg, s, a).reqs[id]]
    ensures Weight(cfg, Step(cfg, s, a).reqs[id]) + 4 <= Weight(cfg, s.reqs[id])
  {
  }

  lemma SubmitAddsWork(s: C.State, gid: string, user: int64, product: int64, amount: int32)
    ensures C.Sum(C.Step(s, C.Submit(gid, user, product, amount)).log, SagaWork()) <= C.Sum(s.log, SagaWork()) + 3
  {
    C.SumAppend(s.log, C.Saga(gid, user, product, amount, C.Started), SagaWork());
  }

  lemma BranchStepDecreases(s0: C.State, s: C.State, i: nat, db: C.Db)
    requires K.Inv(s0, s) && C.Step(s, C.Branch(i, db)) != s
    ensures C.Sum(C.Step(s, C.Branch(i, db)).log, SagaWork()) < C.Sum(s.log, SagaWork())
  {
    var s' := C.Step(s, C.Branch(i, db));
    K.BranchCases(s, i, db);
    C.SumUpdate(s.log, i, s'.log[i], SagaWork());
  }

  lemma StepDecreases(cfg: Config, s0: State, s: State, a: Action)
    requires Inv(cfg, s0, s) && Working(a) && Step(cfg, s, a) != s
    ensures Measure(cfg, Step(cfg, s, a)) < Measure(cfg, s)
  {
    hide Inv, AllGood, AllOwned, K.Inv;
    var s' := Step(cfg, s, a);
    if a.Branch? {
      InvSagas(cfg, s0, s);
      BranchStepDecreases(s0.sagas, s.sagas, a.i, a.db);
    } else {
      var id := a.id;
      RequestStepDecreases(cfg, s, a, id);
      LoadUpdate(cfg, s.reqs, id, s'.reqs[id]);
      if a.Submit? {
        SubmitAddsWork(s.sagas, Gid(id), s.reqs[id].user, cfg.product, cfg.amount);
      }
    }
  }

  lemma InvSagas(cfg: Config, s0: State, s: State)
    requires Inv(cfg, s0, s)
    ensures K.Inv(s0.sagas, s.sagas)
  {
  }

  lemma TickKeepsMeasure(cfg: Config, s: State, d: nat)
    ensures Measure(cfg, Step(cfg, s, Tick(d))) == Measure(cfg, s)
  {
  }

  /** Steps of a run that change more than the clock. */
  function EffectiveSteps(cfg: Config, s: State, acts: seq<Action>): nat {
    if acts == [] then 0
    else
      var init, last := acts[..|acts| - 1], acts[|acts| - 1];
      var t := Exec(cfg, s, init);
      EffectiveSteps(cfg, s, init) + if Working(last) && Step(cfg, t, last) != t then 1 else 0
  }

  ghost predicate NoCreate(acts: seq<Action>) {
    forall i | 0 <= i < |acts| :: !acts[i].Create?
  }

  lemma {:induction false} StepsBounded(cfg: Config, s0: State, s: State, acts: seq<Action>)
    requires Inv(cfg, s0, s) && cfg.amount >= 1 && NoCreate(acts)
    ensures Inv(cfg, s0, Exec(cfg, s, acts))
    ensures EffectiveSteps(cfg, s, acts) + Measure(cfg, Exec(cfg, s, acts)) <= Measure(cfg, s)
  {
    hide Inv, Measure, Step;
    if acts != [] {
      var init, last := acts[..|acts| - 1], acts[|acts| - 1];
      assert NoCreate(init);
      StepsBounded(cfg, s0, s, init);
      var t := Exec(cfg, s, init);
      StepKept(cfg, s0, t, last);
      if last.Tick? {
        TickKeepsMeasure(cfg, t, last.d);
      } else if Step(cfg, t, last) != t {
        StepDecreases(cfg, s0, t, last);
      }
    }
  }

  lemma MeasureNonNegative(cfg: Config, s: State)
    ensures Measure(cfg, s) >= 0
  {
    C.SumAtLeast(s.sagas.log, SagaWork());
  }

  /**
   * Once no request is added, at most `Measure` further steps have any effect:
   * redeliveries, retries and compensations run out.
   */
  lemma EveryRunStops(cfg: Config, s0: State, acts: seq<Action>, more: seq<Action>)
    requires Init(s0) && cfg.amount >= 1 && NoCreate(more)
    ensures EffectiveSteps(cfg, Exec(cfg, s0, acts), more) <= Measure(cfg, Exec(cfg, s0, acts))
  {
    AlwaysInv(cfg, s0, acts);
    StepsBounded(cfg, s0, Exec(cfg, s0, acts), more);
    MeasureNonNegative(cfg, Exec(cfg, Exec(cfg, s0, acts), more));
  }

  // --------------------------------------------------------------- where it stops

  /** Every request answered, every saga committed or compensated. */
  ghost predicate AllSettled(s: State) {
    (forall id | id in s.reqs :: Done(s.reqs[id].stage)) && C.Quiescent(s.sagas)
  }

  ghost predicate Stuck(cfg: Config, s: State) {
    forall a: Action | Working(a) :: Step(cfg, s, a) == s
  }

  lemma SettledIsStuck(cfg: Config, s: State, a: Action)
    requires AllSettled(s) && Working(a)
    ensures Step(cfg, s, a) == s
  {
    if a.Branch? && a.i < |s.sagas.log| {
      assert C.Settled(s.sagas.log[a.i]);
    }
  }

  /** An unsettled saga always has a branch call that moves it. */
  lemma SagaMoves(s0: C.State, s: C.State, i: nat)
    requires K.Inv(s0, s) && i < |s.log| && !C.Settled(s.log[i])
    ensures C.Step(s, C.Branch(i, C.Works)) != s
  {
    var g := s.log[i];
    if g.phase.Compensating? {
      C.SumAtLeast(s.log, C.BalanceOf(g.user));
      assert C.BalanceOf(g.user)(g) == g.amount;
      assert RestoreRow(s.balance, g.user, g.amount).1 == Affected(1);
    }
    assert C.Advance(s, i).log[i].phase != g.phase;
  }

  lemma {:induction false} PhaseHasIndex(log: seq<C.Saga>, gid: string) returns (i: nat)
    requires PhaseOf(log, gid).Present?
    ensures i < |log| && log[i].gid == gid && PhaseOf(log, gid) == Present(log[i].phase)
  {
    i := |log| - 1;
    if log[i].gid != gid {
      i := PhaseHasIndex(log[..i], gid);
    }
  }

  /** The call a request waits for, unless it waits for the coordinator. */
  function NextAction(stage: Stage, id: string): Action {
    match stage
    case Created => Stamp(id)
    case Stamped => Insert(id, true)
    case InsertFailed => Fail(id, "", false)
    case Queued => Start(id)
    case Submitting => Submit(id)
    case _ => Write(id, "", false)
  }

  lemma NextMoves(cfg: Config, s: State, id: string)
    requires id in s.reqs && !Done(s.reqs[id].stage) && !s.reqs[id].stage.Awaiting?
    requires s.reqs[id].stage.Queued? ==> s.reqs[id].tries < cfg.attempts
    ensures Step(cfg, s, NextAction(s.reqs[id].stage, id)) != s
  {
    var s' := Step(cfg, s, NextAction(s.reqs[id].stage, id));
    assert s'.reqs[id].stage != s.reqs[id].stage;
  }

  lemma GoodCounts(cfg: Config, s: State, id: string)
    requires id in s.reqs && GoodAt(cfg, s, id)
    ensures s.reqs[id].stage.Queued? && cfg.attempts >= 1 ==> s.reqs[id].tries < cfg.attempts
    ensures cfg.sync && s.reqs[id].stage.Awaiting? ==> PhaseOf(s.sagas.log, Gid(id)).Present?
  {
  }

  lemma RequestMoves(cfg: Config, s0: State, s: State, id: string) returns (a: Action)
    requires Inv(cfg, s0, s) && cfg.attempts >= 1 && id in s.reqs && !Done(s.reqs[id].stage)
    ensures Working(a) && Step(cfg, s, a) != s
  {
    InvSagas(cfg, s0, s);
    assert GoodAt(cfg, s, id);
    hide *;
    GoodCounts(cfg, s, id);
    if s.reqs[id].stage.Awaiting? {
      a := AnswerOrBranch(cfg, s0, s, id);
    } else {
      a := NextAction(s.reqs[id].stage, id);
      NextIsWorking(s.reqs[id].stage, id);
      NextMoves(cfg, s, id);
    }
  }

  lemma NextIsWorking(stage: Stage, id: string)
    ensures Working(NextAction(stage, id))
  {
  }

  lemma RespondMoves(cfg: Config, s: State, id: string, reply: Reply)
    requires id in s.reqs && s.reqs[id].stage.Awaiting? && MayAnswer(cfg, PhaseOf(s.sagas.log, Gid(id)), reply)
    ensures Step(cfg, s, Respond(id, reply)) != s
  {
    assert Step(cfg, s, Respond(id, reply)).reqs[id].stage.Finishing?;
  }

  lemma AnswerOrBranch(cfg: Config, s0: State, s: State, id: string) returns (a: Action)
    requires K.Inv(s0.sagas, s.sagas) && id in s.reqs && s.reqs[id].stage.Awaiting?
    requires cfg.sync ==> PhaseOf(s.sagas.log, Gid(id)).Present?
    ensures Working(a) && Step(cfg, s, a) != s
  {
    hide K.Inv, C.Step, Step;
    var ph := PhaseOf(s.sagas.log, Gid(id));
    if cfg.sync && !Decided(ph) {
      var i := PhaseHasIndex(s.sagas.log, Gid(id));
      SagaMoves(s0.sagas, s.sagas, i);
      a := Branch(i, C.Works);
      BranchMoves(cfg, s, i);
    } else {
      a := Respond(id, if cfg.sync then Report(ph.phase) else Accepted);
      RespondMoves(cfg, s, id, a.reply);
    }
  }

  lemma BranchMoves(cfg: Config, s: State, i: nat)
    requires C.Step(s.sagas, C.Branch(i, C.Works)) != s.sagas
    ensures Step(cfg, s, Branch(i, C.Works)) != s
  {
  }

  /**
   * A reachable state that only new requests and the clock can still change is
   * exactly one where all requests are answered and all sagas are settled.
   */
  lemma StuckIffSettled(cfg: Config, s0: State, acts: seq<Action>)
    requires Init(s0) && cfg.amount >= 1 && cfg.attempts >= 1
    ensures Stuck(cfg, Exec(cfg, s0, acts)) <==> AllSettled(Exec(cfg, s0, acts))
  {
    var s := Exec(cfg, s0, acts);
    AlwaysInv(cfg, s0, acts);
    hide Inv, Exec, Step;
    if AllSettled(s) {
      forall a: Action | Working(a) ensures Step(cfg, s, a) == s {
        SettledIsStuck(cfg, s, a);
      }
    } else {
      var a := SomethingMoves(cfg, s0, s);
    }
  }

  lemma SomethingMoves(cfg: Config, s0: State, s: State) returns (a: Action)
    requires Inv(cfg, s0, s) && cfg.attempts >= 1 && !AllSettled(s)
    ensures Working(a) && Step(cfg, s, a) != s
  {
    InvSagas(cfg, s0, s);
    hide Inv, K.Inv, C.Step, Step, Done, C.Settled;
    if id :| id in s.reqs && !Done(s.reqs[id].stage) {
      a := RequestMoves(cfg, s0, s, id);
    } else {
      var i :| 0 <= i < |s.sagas.log| && !C.Settled(s.sagas.log[i]);
      SagaMoves(s0.sagas, s.sagas, i);
      a := Branch(i, C.Works);
      BranchMoves(cfg, s, i);
    }
  }
}
