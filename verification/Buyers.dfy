/** What a request can show, given whether its buyer has a row. */
module Buyers {
  import opened Identifiers
  import opened RequestStore
  import opened SagaRecords
  import opened Protocol
  import opened Delivery
  import C = Coordinator
  import O = Outcomes
  import R = Refusals
  import S = Statuses
  import T = Settling

  /** A request's saga is that of its own buyer. */
  lemma OwnSaga(cfg: Config, s: State, id: string) returns (i: nat)
    requires AllOwned(cfg, s) && id in s.reqs && PhaseOf(s.sagas.log, Gid(id)).Present?
    ensures i < |s.sagas.log| && s.sagas.log[i].user == s.reqs[id].user
    ensures PhaseOf(s.sagas.log, Gid(id)) == Present(s.sagas.log[i].phase)
  {
    i := T.PhaseHasIndex(s.sagas.log, Gid(id));
    assert Owned(cfg, s, s.sagas.log[i]);
    var owner :| Owns(cfg, s, owner, s.sagas.log[i]);
    GidInjective(owner, id);
  }

  lemma PhaseIsJustified(cfg: Config, s0: State, acts: seq<Action>, id: string)
    requires Init(s0) && cfg.amount >= 1 && id in Exec(cfg, s0, acts).reqs
    ensures var s := Exec(cfg, s0, acts);
            var ph := PhaseOf(s.sagas.log, Gid(id));
            && (ph.Present? && s.reqs[id].user !in s0.sagas.balance ==>
                  ph.phase == C.Started || ph.phase == C.Aborted(C.NoSuchUser) || ph.phase == C.Aborted(C.BranchError))
            && (s.reqs[id].user in s0.sagas.balance ==> ph != Present(C.Aborted(C.NoSuchUser)))
  {
    hide Exec, PhaseOf, Inv, O.Trace, C.Exec;
    AlwaysInv(cfg, s0, acts);
    O.InvOwned(cfg, s0, Exec(cfg, s0, acts));
    O.Projects(cfg, s0, acts);
    var s := Exec(cfg, s0, acts);
    if PhaseOf(s.sagas.log, Gid(id)).Present? {
      var i := OwnSaga(cfg, s, id);
      R.ReasonsAreTrue(s0.sagas, O.Trace(cfg, s0, acts), i);
    }
  }

  /**
   * With a synchronous Submit, a request whose buyer has no row never shows
   * SUCCESS, SOLD_OUT or BALANCE_INSUFFICIENT: it costs nobody anything and is
   * not blamed on the stock or on the balance.
   */
  lemma UnknownBuyer(cfg: Config, s0: State, acts: seq<Action>, id: string)
    requires Init(s0) && cfg.amount >= 1 && cfg.sync && id in Exec(cfg, s0, acts).reqs
    requires Exec(cfg, s0, acts).reqs[id].user !in s0.sagas.balance
    ensures EntryKey(id) in Exec(cfg, s0, acts).store
    ensures var s := Exec(cfg, s0, acts);
            var status := s.store[EntryKey(id)].request.status;
            !status.Success? && !status.SoldOut? && !status.BalanceInsufficient? && S.NoNetChange(s, id)
  {
    hide Exec, PhaseOf, EntryKey, S.NoNetChange;
    S.StatusTellsTruthIff(cfg, s0, acts, id);
    PhaseIsJustified(cfg, s0, acts, id);
    S.AllRequestsGood(cfg, s0, acts, id);
    S.HeldIff(Exec(cfg, s0, acts).sagas.log, Gid(id));
    HoldsNothing(Exec(cfg, s0, acts), id);
  }

  lemma HoldsNothing(s: State, id: string)
    ensures S.NoNetChange(s, id) <==> C.Sum(s.sagas.log, S.HeldBy(Gid(id))) == 0
  {
  }

  /**
   * A job is given up only when all its attempts are used; until then an attempt
   * that returned an error is followed by another.
   */
  lemma DiscardedUsedAllAttempts(cfg: Config, s0: State, acts: seq<Action>, id: string)
    requires Init(s0) && cfg.amount >= 1 && cfg.attempts >= 1 && id in Exec(cfg, s0, acts).reqs
    ensures var r := Exec(cfg, s0, acts).reqs[id];
            && r.tries <= cfg.attempts
            && (r.stage.Discarded? ==> r.tries == cfg.attempts)
            && (r.stage.Queued? ==> r.tries < cfg.attempts)
  {
    S.AllRequestsGood(cfg, s0, acts, id);
    hide Exec;
  }
}
