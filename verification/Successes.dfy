/** How many requests of a settled sale show SUCCESS. */
module Successes {
  import opened Identifiers
  import opened RequestStore
  import opened Lifecycle
  import opened SagaRecords
  import opened Protocol
  import opened Delivery
  import opened Statuses
  import O = Outcomes
  import T = Settling
  import C = Coordinator
  import K = Conservation
  import N = SaleCount

  // ---------------------------------------------------------------- nothing gets lost

  ghost predicate AllLive(s: State) {
    forall id | id in s.reqs :: Live(s.store, EntryKey(id), Millis(s.now))
  }

  /** No entry expires while the sale runs. */
  ghost predicate NeverExpires(cfg: Config, s0: State, acts: seq<Action>) {
    forall k | 0 <= k <= |acts| :: AllLive(Exec(cfg, s0, acts[..k]))
  }

  /** No status write was lost, and a rejected request shows FAILED. */
  ghost predicate Kept(r: Req) {
    && !r.lostSuccess && !r.lostFailure && !r.stage.Discarded?
    && (r.stage.Rejected? ==> r.history != [] && Last(r.history) == Failed)
  }

  ghost predicate AllKept(s: State) {
    forall id | id in s.reqs :: Kept(s.reqs[id])
  }

  lemma StepKeeps(cfg: Config, s: State, a: Action)
    requires AllLive(s) && AllKept(s) && Reliable(a)
    ensures AllKept(Step(cfg, s, a))
  {
    hide EntryKey, RequestId, C.Step;
  }

  lemma {:induction false} AlwaysKept(cfg: Config, s0: State, acts: seq<Action>)
    requires Init(s0) && NoRedisFault(acts) && NeverExpires(cfg, s0, acts)
    ensures AllKept(Exec(cfg, s0, acts))
  {
    if acts != [] {
      var init, last := acts[..|acts| - 1], acts[|acts| - 1];
      assert acts[..|init|] == init;
      assert NeverExpires(cfg, s0, init) by {
        forall k | 0 <= k <= |init| ensures AllLive(Exec(cfg, s0, init[..k])) {
          assert init[..k] == acts[..k];
        }
      }
      AlwaysKept(cfg, s0, init);
      StepKeeps(cfg, Exec(cfg, s0, init), last);
    }
  }

  // ----------------------------------------------------------------- one request's end

  ghost predicate SoldOutOnly(s: State) {
    forall i | 0 <= i < |s.sagas.log| && s.sagas.log[i].phase.Aborted? ::
      s.sagas.log[i].phase.reason == C.OutOfStock
  }

  function Shown(s: State, id: string): Status
    requires EntryKey(id) in s.store
  {
    s.store[EntryKey(id)].request.status
  }

  ghost predicate EndsWell(s: State, id: string)
    requires id in s.reqs && EntryKey(id) in s.store
  {
    var ph := PhaseOf(s.sagas.log, Gid(id));
    match Shown(s, id)
    case Success => Committed(ph)
    case SoldOut => ph == Present(C.Aborted(C.OutOfStock))
    case Degraded => ph.Absent?
    case Failed => ph.Absent? && s.reqs[id].stage.Rejected?
    case _ => false
  }

  lemma Ends(cfg: Config, s: State, id: string)
    requires cfg.sync && id in s.reqs && GoodAt(cfg, s, id) && Kept(s.reqs[id])
    requires Done(s.reqs[id].stage) && SoldOutOnly(s)
    ensures EndsWell(s, id)
  {
    var r, ph := s.reqs[id], PhaseOf(s.sagas.log, Gid(id));
    GoodParts(cfg, s, id);
    if Compensated(ph) {
      var i := T.PhaseHasIndex(s.sagas.log, Gid(id));
    }
    hide Untouched, Timed, PhaseOf, RequestId, EntryKey;
  }

  // --------------------------------------------------------------------------- counting

  /** The IDs whose saga is in the log and weighs 1. */
  ghost predicate Weighs(log: seq<C.Saga>, id: string, w: C.Saga -> int) {
    exists i | 0 <= i < |log| :: log[i].gid == Gid(id) && w(log[i]) == 1
  }

  ghost function Weighing(ids: set<string>, log: seq<C.Saga>, w: C.Saga -> int): set<string> {
    set id | id in ids && Weighs(log, id, w)
  }

  ghost predicate FromIds(ids: set<string>, log: seq<C.Saga>) {
    forall i | 0 <= i < |log| :: FromOne(ids, log[i].gid)
  }

  ghost predicate FromOne(ids: set<string>, gid: string) {
    exists id :: id in ids && gid == Gid(id)
  }

  lemma {:induction false} CountIds(ids: set<string>, log: seq<C.Saga>, w: C.Saga -> int)
    requires K.LogSound(log) && FromIds(ids, log) && forall g :: w(g) == 0 || w(g) == 1
    ensures |Weighing(ids, log, w)| == C.Sum(log, w)
  {
    if log == [] {
      assert Weighing(ids, log, w) == {};
    } else {
      var init, g := log[..|log| - 1], log[|log| - 1];
      assert FromIds(ids, init) by {
        forall i | 0 <= i < |init| ensures FromOne(ids, init[i].gid) {
          assert init[i] == log[i] && FromOne(ids, log[i].gid);
        }
      }
      CountIds(ids, init, w);
      LastId(ids, log, w);
    }
  }

  lemma LastId(ids: set<string>, log: seq<C.Saga>, w: C.Saga -> int)
    requires log != [] && K.LogSound(log) && FromIds(ids, log)
    ensures |Weighing(ids, log, w)|
            == |Weighing(ids, log[..|log| - 1], w)| + if w(log[|log| - 1]) == 1 then 1 else 0
  {
    hide Gid, Weighs;
    var init, g := log[..|log| - 1], log[|log| - 1];
    assert FromOne(ids, g.gid);
    var owner :| owner in ids && g.gid == Gid(owner);
    NotBefore(log, owner, w);
    hide K.LogSound, FromIds, FromOne;
    forall id | id in ids
      ensures Weighs(log, id, w) <==> Weighs(init, id, w) || (id == owner && w(g) == 1)
    {
      WeighsSnoc(log, id, owner, w);
    }
    assert Weighing(ids, log, w) == Weighing(ids, init, w) + if w(g) == 1 then {owner} else {};
  }

  lemma NotBefore(log: seq<C.Saga>, owner: string, w: C.Saga -> int)
    requires log != [] && K.LogSound(log) && log[|log| - 1].gid == Gid(owner)
    ensures !Weighs(log[..|log| - 1], owner, w)
  {
    hide Gid;
    var init := log[..|log| - 1];
    assert forall i | 0 <= i < |init| :: init[i] == log[i] && log[i].gid != log[|log| - 1].gid;
  }

  lemma WeighsSnoc(log: seq<C.Saga>, id: string, owner: string, w: C.Saga -> int)
    requires log != [] && log[|log| - 1].gid == Gid(owner)
    ensures Weighs(log, id, w) <==> Weighs(log[..|log| - 1], id, w) || (id == owner && w(log[|log| - 1]) == 1)
  {
    var init, g := log[..|log| - 1], log[|log| - 1];
    if Gid(id) == Gid(owner) {
      GidInjective(id, owner);
    }
    hide Gid;
    if Weighs(init, id, w) {
      var i :| 0 <= i < |init| && init[i].gid == Gid(id) && w(init[i]) == 1;
      assert log[i].gid == Gid(id) && w(log[i]) == 1;
    } else if Weighs(log, id, w) {
      var i :| 0 <= i < |log| && log[i].gid == Gid(id) && w(log[i]) == 1;
      assert forall j | 0 <= j < |init| :: log[j] == init[j];
      assert i == |init|;
    }
  }

  function Each(): C.Saga -> int {
    (g: C.Saga) => 1
  }

  lemma {:induction false} EachOnce(log: seq<C.Saga>)
    ensures C.Sum(log, Each()) == |log|
  {
    if log != [] {
      EachOnce(log[..|log| - 1]);
    }
  }

  // --------------------------------------------------------------------------- theorem

  ghost function Showing(s: State, status: Status): set<string> {
    set id | id in s.reqs && EntryKey(id) in s.store && Shown(s, id) == status
  }

  /** The requests that reached the sale: neither degraded nor rejected at the queue. */
  ghost function Admitted(s: State): set<string> {
    s.reqs.Keys - Showing(s, Degraded) - Showing(s, Failed)
  }

  lemma WeighsIff(s: C.State, id: string)
    requires K.LogSound(s.log)
    ensures Weighs(s.log, id, Each()) <==> PhaseOf(s.log, Gid(id)).Present?
    ensures Weighs(s.log, id, C.OneIfCommitted()) <==> Committed(PhaseOf(s.log, Gid(id)))
  {
    if PhaseOf(s.log, Gid(id)).Present? {
      var i := T.PhaseHasIndex(s.log, Gid(id));
      assert Each()(s.log[i]) == 1;
      assert Committed(PhaseOf(s.log, Gid(id))) ==> C.OneIfCommitted()(s.log[i]) == 1;
    }
    forall i | 0 <= i < |s.log| && s.log[i].gid == Gid(id) ensures PhaseOf(s.log, Gid(id)) == Present(s.log[i].phase) {
      PhaseAt(s.log, i);
    }
    hide PhaseOf, K.LogSound;
  }

  /** What the last statuses say about the log, request by request. */
  lemma StatusesAreWeights(s: State)
    requires K.LogSound(s.sagas.log)
    requires forall id | id in s.reqs :: EntryKey(id) in s.store && EndsWell(s, id)
    ensures Showing(s, Success) == Weighing(s.reqs.Keys, s.sagas.log, C.OneIfCommitted())
    ensures Admitted(s) == Weighing(s.reqs.Keys, s.sagas.log, Each())
    ensures Admitted(s) == Showing(s, Success) + Showing(s, SoldOut)
  {
    forall id | id in s.reqs
      ensures id in Showing(s, Success) <==> Weighs(s.sagas.log, id, C.OneIfCommitted())
      ensures id in Admitted(s) <==> Weighs(s.sagas.log, id, Each())
      ensures id in Admitted(s) <==> id in Showing(s, Success) || id in Showing(s, SoldOut)
    {
      WeighsIff(s.sagas, id);
      assert EndsWell(s, id);
      hide Weighs, PhaseOf, EntryKey;
    }
  }

  lemma AllEndWell(cfg: Config, s0: State, s: State)
    requires Inv(cfg, s0, s) && cfg.sync && AllKept(s) && SoldOutOnly(s)
    requires forall id | id in s.reqs :: Done(s.reqs[id].stage)
    ensures forall id | id in s.reqs :: EntryKey(id) in s.store && EndsWell(s, id)
  {
    hide Good, K.Inv, EndsWell, Kept;
    forall id | id in s.reqs ensures EntryKey(id) in s.store && EndsWell(s, id) {
      assert GoodAt(cfg, s, id);
      Ends(cfg, s, id);
    }
  }

  lemma OwnedIsFromIds(cfg: Config, s: State)
    requires AllOwned(cfg, s)
    ensures FromIds(s.reqs.Keys, s.sagas.log)
  {
    forall i | 0 <= i < |s.sagas.log|
      ensures FromOne(s.reqs.Keys, s.sagas.log[i].gid)
    {
      assert Owned(cfg, s, s.sagas.log[i]);
      var id :| Owns(cfg, s, id, s.sagas.log[i]);
      assert id in s.reqs.Keys;
    }
  }

  lemma ShowsAreCommits(cfg: Config, s0: State, s: State)
    requires Inv(cfg, s0, s) && cfg.sync && AllKept(s) && SoldOutOnly(s)
    requires forall id | id in s.reqs :: Done(s.reqs[id].stage)
    ensures |Showing(s, Success)| == |s.sagas.commits|
    ensures |Admitted(s)| == |s.sagas.log|
    ensures Admitted(s) == Showing(s, Success) + Showing(s, SoldOut)
  {
    AllEndWell(cfg, s0, s);
    SagasSound(cfg, s0, s);
    OwnedIsFromIds(cfg, s);
    hide *;
    StatusesAreWeights(s);
    OneOrZero();
    CountIds(s.reqs.Keys, s.sagas.log, C.OneIfCommitted());
    CountIds(s.reqs.Keys, s.sagas.log, Each());
    EachOnce(s.sagas.log);
  }

  lemma OneOrZero()
    ensures forall g :: C.OneIfCommitted()(g) == 0 || C.OneIfCommitted()(g) == 1
    ensures forall g :: Each()(g) == 0 || Each()(g) == 1
  {
  }

  lemma SagasSound(cfg: Config, s0: State, s: State)
    requires Inv(cfg, s0, s)
    ensures K.LogSound(s.sagas.log) && AllOwned(cfg, s)
    ensures |s.sagas.commits| == C.Sum(s.sagas.log, C.OneIfCommitted())
  {
  }

  lemma OnlyStockRefused(cfg: Config, s0: State, acts: seq<Action>)
    requires Init(s0) && cfg.amount >= 1 && O.KeepsRetrying(acts)
    requires N.Covered(s0.sagas, Exec(cfg, s0, acts).sagas.log)
    ensures SoldOutOnly(Exec(cfg, s0, acts))
  {
    hide Inv, Exec, O.Trace, C.Exec, N.Covered, N.Uniform, N.NeverGivesUp;
    AlwaysInv(cfg, s0, acts);
    O.InvOwned(cfg, s0, Exec(cfg, s0, acts));
    O.OwnedIsUniform(cfg, Exec(cfg, s0, acts));
    O.Projects(cfg, s0, acts);
    O.TraceKeepsRetrying(cfg, s0, acts);
    N.AlwaysOnlySoldOut(s0.sagas, O.Trace(cfg, s0, acts), cfg.product, cfg.amount);
  }

  /**
   * The sale as its buyers see it. Submit is synchronous, Redis answers every
   * call, no entry expires, branches are retried until the database answers, and
   * every buyer can pay for all of their requests. Once everything has settled,
   * of the N requests that were queued and not degraded exactly
   * min(N, stock / amount) show SUCCESS, and the others show SOLD_OUT.
   */
  lemma ExactSuccesses(cfg: Config, s0: State, acts: seq<Action>)
    requires Init(s0) && cfg.amount >= 1 && cfg.sync
    requires O.KeepsRetrying(acts) && NoRedisFault(acts) && NeverExpires(cfg, s0, acts)
    requires T.AllSettled(Exec(cfg, s0, acts)) && N.Covered(s0.sagas, Exec(cfg, s0, acts).sagas.log)
    ensures var s := Exec(cfg, s0, acts);
            && |Showing(s, Success)| == N.Min(|Admitted(s)|, N.Opening(s0.sagas, cfg.product) / cfg.amount)
            && Admitted(s) == Showing(s, Success) + Showing(s, SoldOut)
            && (forall id | id in Showing(s, Failed) :: id in s.reqs && s.reqs[id].stage.Rejected?)
  {
    var s := Exec(cfg, s0, acts);
    AlwaysInv(cfg, s0, acts);
    AlwaysKept(cfg, s0, acts);
    OnlyStockRefused(cfg, s0, acts);
    O.ExactSales(cfg, s0, acts);
    assert forall id | id in s.reqs :: Done(s.reqs[id].stage);
    hide Inv, AllKept, SoldOutOnly, Exec, Admitted, N.Covered, NeverExpires, Init;
    ShowsAreCommits(cfg, s0, s);
    AllEndWell(cfg, s0, s);
    forall id | id in Showing(s, Failed) ensures id in s.reqs && s.reqs[id].stage.Rejected? {
      assert EndsWell(s, id);
    }
  }

  // ------------------------------------------------------------------ at any time

  /** SUCCESS is shown for committed sagas only, so it is shown at most once per commit. */
  lemma ShownAtMostCommitted(cfg: Config, s0: State, s: State)
    requires Inv(cfg, s0, s) && cfg.sync
    ensures |Showing(s, Success)| <= |s.sagas.commits|
  {
    SagasSound(cfg, s0, s);
    OwnedIsFromIds(cfg, s);
    OneOrZero();
    CountIds(s.reqs.Keys, s.sagas.log, C.OneIfCommitted());
    var all := Weighing(s.reqs.Keys, s.sagas.log, C.OneIfCommitted());
    forall id | id in Showing(s, Success) ensures id in all {
      assert GoodAt(cfg, s, id);
      SuccessIsCommitted(cfg, s, id);
      WeighsIff(s.sagas, id);
    }
    hide *;
    SubsetIsSmaller(Showing(s, Success), all);
  }

  lemma SuccessIsCommitted(cfg: Config, s: State, id: string)
    requires cfg.sync && id in s.reqs && GoodAt(cfg, s, id) && Shown(s, id) == Success
    ensures Committed(PhaseOf(s.sagas.log, Gid(id)))
  {
  }

  lemma {:induction false} SubsetIsSmaller(a: set<string>, b: set<string>)
    requires a <= b
    ensures |a| <= |b|
  {
    if a != {} {
      var x :| x in a;
      SubsetIsSmaller(a - {x}, b - {x});
    }
  }

  /**
   * In every reachable state of a synchronous run, whatever Redis, the database
   * or the queue did, the requests that show SUCCESS fit the opening stock.
   */
  lemma SuccessesFitStock(cfg: Config, s0: State, acts: seq<Action>)
    requires Init(s0) && cfg.amount >= 1 && cfg.sync
    ensures cfg.amount * |Showing(Exec(cfg, s0, acts), Success)| <= N.Opening(s0.sagas, cfg.product)
  {
    var s := Exec(cfg, s0, acts);
    AlwaysInv(cfg, s0, acts);
    hide *;
    O.InvOwned(cfg, s0, s);
    O.OwnedIsUniform(cfg, s);
    T.InvSagas(cfg, s0, s);
    N.SalesFit(s0.sagas, s.sagas, cfg.product, cfg.amount);
    ShownAtMostCommitted(cfg, s0, s);
    N.Monotone(cfg.amount, |Showing(s, Success)|, |s.sagas.commits|);
  }
}
