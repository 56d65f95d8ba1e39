/** Which statuses a request can show, and what each of them proves about the purchase. */
module Statuses {
  import opened Identifiers
  import opened RequestStore
  import opened Lifecycle
  import opened SagaRecords
  import opened Protocol
  import opened Delivery
  import C = Coordinator
  import K = Conservation

  // ----------------------------------------------------------------------- histories

  lemma HistoryStep(cfg: Config, s: State, a: Action, id: string)
    requires id in s.reqs
    ensures id in Step(cfg, s, a).reqs
    ensures a.Create? && Step(cfg, s, a) != s ==> RequestId(a.user, a.nanos) !in s.reqs
    ensures s.reqs[id].history <= Step(cfg, s, a).reqs[id].history
  {
  }

  lemma {:induction false} HistoryGrowsOnly(cfg: Config, s: State, more: seq<Action>, id: string)
    requires id in s.reqs
    ensures id in Exec(cfg, s, more).reqs && s.reqs[id].history <= Exec(cfg, s, more).reqs[id].history
  {
    if more != [] {
      HistoryGrowsOnly(cfg, s, more[..|more| - 1], id);
      HistoryStep(cfg, Exec(cfg, s, more[..|more| - 1]), more[|more| - 1], id);
    }
  }

  lemma AllRequestsGood(cfg: Config, s0: State, acts: seq<Action>, id: string)
    requires Init(s0) && cfg.amount >= 1 && id in Exec(cfg, s0, acts).reqs
    ensures GoodAt(cfg, Exec(cfg, s0, acts), id) && K.LogSound(Exec(cfg, s0, acts).sagas.log)
  {
    AlwaysInv(cfg, s0, acts);
  }

  /**
   * The statuses of a request are WAITING, then any number of PROCESSING, then
   * at most one terminal status; the entry shows the last one written; later
   * actions only append, and nothing follows a terminal status. A handler that
   * finished without a terminal status lost the write of a failure.
   */
  lemma StatusHistory(cfg: Config, s0: State, acts: seq<Action>, more: seq<Action>, id: string)
    requires Init(s0) && cfg.amount >= 1 && id in Exec(cfg, s0, acts).reqs
    ensures var s, later := Exec(cfg, s0, acts), Exec(cfg, s0, acts + more);
            var h := s.reqs[id].history;
            && Lawful(h)
            && EntryKey(id) in s.store && s.store[EntryKey(id)].request.status == Last(h)
            && id in later.reqs && h <= later.reqs[id].history
            && (Terminal(Last(h)) ==> later.reqs[id].history == h)
            && (s.reqs[id].stage.Finished? ==> Terminal(Last(h)) || s.reqs[id].lostFailure)
  {
    AllRequestsGood(cfg, s0, acts, id);
    ExecConcat(cfg, s0, acts, more);
    HistoryGrowsOnly(cfg, Exec(cfg, s0, acts), more, id);
    AllRequestsGood(cfg, s0, acts + more, id);
    GoodRecord(cfg, Exec(cfg, s0, acts), id);
    GoodRecord(cfg, Exec(cfg, s0, acts + more), id);
    hide Exec, GoodAt, Lawful, Init;
    var h, h' := Exec(cfg, s0, acts).reqs[id].history, Exec(cfg, s0, acts + more).reqs[id].history;
    if Terminal(Last(h)) {
      LawfulEnds(h, h');
    }
  }

  lemma GoodRecord(cfg: Config, s: State, id: string)
    requires id in s.reqs && GoodAt(cfg, s, id)
    ensures var r := s.reqs[id];
            && Lawful(r.history)
            && s.store[EntryKey(id)].request.status == Last(r.history)
            && (r.stage.Finished? ==> Terminal(Last(r.history)) || r.lostFailure)
  {
  }

  lemma LawfulEnds(h: seq<Status>, h': seq<Status>)
    requires Lawful(h) && Lawful(h') && h <= h' && Terminal(Last(h))
    ensures h' == h
  {
    assert h'[|h| - 1] == Last(h);
    assert forall k | 0 <= k < |h'| - 1 :: !Terminal(h'[k]);
  }

  // -------------------------------------------------------------------- what is held

  /** What saga `gid` holds of its buyer's balance; once it is settled, also of the stock. */
  function HeldBy(gid: string): C.Saga -> int {
    (g: C.Saga) => if g.gid == gid && C.HoldsBalance(g) then g.amount else 0
  }

  ghost predicate NoNetChange(s: State, id: string) {
    C.Sum(s.sagas.log, HeldBy(Gid(id))) == 0
  }

  lemma {:induction false} HeldIff(log: seq<C.Saga>, gid: string)
    requires K.LogSound(log)
    ensures C.Sum(log, HeldBy(gid)) >= 0
    ensures C.Sum(log, HeldBy(gid)) == 0 <==>
      PhaseOf(log, gid).Absent? || PhaseOf(log, gid).phase.Started? || PhaseOf(log, gid).phase.Aborted?
  {
    if log != [] {
      var init := log[..|log| - 1];
      HeldIff(init, gid);
      if log[|log| - 1].gid == gid {
        PhaseAbsentIff(init, gid);
        assert forall i | 0 <= i < |init| :: init[i].gid != gid;
      }
    }
  }

  // --------------------------------------------------------- statuses and the purchase

  /**
   * With a synchronous Submit, SUCCESS means the saga committed; under any other
   * terminal status the purchase still went through exactly when the status is
   * DEGRADED and an earlier attempt lost its SUCCESS write.
   */
  lemma StatusTellsTruthIff(cfg: Config, s0: State, acts: seq<Action>, id: string)
    requires Init(s0) && cfg.amount >= 1 && cfg.sync && id in Exec(cfg, s0, acts).reqs
    ensures EntryKey(id) in Exec(cfg, s0, acts).store
    ensures var s := Exec(cfg, s0, acts);
            var status := s.store[EntryKey(id)].request.status;
            var ph := PhaseOf(s.sagas.log, Gid(id));
            && (status.Success? ==> Committed(ph))
            && (status.SoldOut? ==> ph == Present(C.Aborted(C.OutOfStock)))
            && (status.BalanceInsufficient? ==> ph == Present(C.Aborted(C.LowFunds)))
            && (status.Failed? ==> ph.Absent? || AbortedOtherwise(ph))
            && (Terminal(status) && !status.Success? ==>
                  (!NoNetChange(s, id) <==> status.Degraded? && s.reqs[id].lostSuccess))
  {
    AllRequestsGood(cfg, s0, acts, id);
    HeldIff(Exec(cfg, s0, acts).sagas.log, Gid(id));
  }

  // --------------------------------------------------------------- runs without faults

  predicate Reliable(a: Action) {
    (a.Create? || a.Fail? || a.Write?) ==> !a.fault
  }

  ghost predicate NoRedisFault(acts: seq<Action>) {
    forall i | 0 <= i < |acts| :: Reliable(acts[i])
  }

  /** A request whose SUCCESS write failed has no live entry any more, and none that shows an outcome. */
  ghost predicate LostMeansGone(s: State) {
    forall id | id in s.reqs && s.reqs[id].lostSuccess :: LostAt(s, id)
  }

  ghost predicate LostAt(s: State, id: string)
    requires id in s.reqs
  {
    && !Live(s.store, EntryKey(id), Millis(s.now))
    && s.reqs[id].history != [] && !Terminal(Last(s.reqs[id].history))
  }

  lemma GoneStaysGone(st: Store, key: string, now: int, d: nat)
    requires !Live(st, key, Millis(now))
    ensures !Live(st, key, Millis(now + d))
  {
  }

  lemma LostMeansGoneStep(cfg: Config, s: State, a: Action)
    requires AllGood(cfg, s) && LostMeansGone(s) && Reliable(a)
    ensures LostMeansGone(Step(cfg, s, a))
  {
    hide AllGood, LostAt, Step;
    var s' := Step(cfg, s, a);
    forall id | id in s'.reqs && s'.reqs[id].lostSuccess ensures LostAt(s', id) {
      if a.Fail? || a.Write? {
        WriteLoses(cfg, s, a, id);
      } else {
        OthersLoseNothing(cfg, s, a, id);
      }
    }
  }

  lemma WriteLoses(cfg: Config, s: State, a: Action, id: string)
    requires AllGood(cfg, s) && (a.Fail? || a.Write?) && !a.fault
    requires id in Step(cfg, s, a).reqs && Step(cfg, s, a).reqs[id].lostSuccess
    requires id in s.reqs && s.reqs[id].lostSuccess ==> LostAt(s, id)
    ensures LostAt(Step(cfg, s, a), id)
  {
    hide AllGood;
    StillOpen(cfg, s, id);
    if id != a.id {
      KeysDiffer(id, a.id);
    }
    hide EntryKey;
  }

  lemma OthersLoseNothing(cfg: Config, s: State, a: Action, id: string)
    requires !a.Fail? && !a.Write?
    requires id in Step(cfg, s, a).reqs && Step(cfg, s, a).reqs[id].lostSuccess
    requires id in s.reqs && s.reqs[id].lostSuccess ==> LostAt(s, id)
    ensures LostAt(Step(cfg, s, a), id)
  {
    if a.Tick? {
      GoneStaysGone(s.store, EntryKey(id), s.now, a.d);
    } else if a.Create? && id != RequestId(a.user, a.nanos) {
      KeysDiffer(id, RequestId(a.user, a.nanos));
    }
    hide EntryKey, RequestId;
  }

  /** A handler about to write a status finds the history without an outcome. */
  lemma StillOpen(cfg: Config, s: State, id: string)
    requires AllGood(cfg, s) && id in s.reqs
    ensures Writes(s.reqs[id].stage) ==> s.reqs[id].history != [] && !Terminal(Last(s.reqs[id].history))
  {
    assert GoodAt(cfg, s, id);
  }

  lemma {:induction false} LostMeansGoneAlways(cfg: Config, s0: State, acts: seq<Action>)
    requires Init(s0) && cfg.amount >= 1 && NoRedisFault(acts)
    ensures LostMeansGone(Exec(cfg, s0, acts))
  {
    if acts != [] {
      assert NoRedisFault(acts[..|acts| - 1]);
      LostMeansGoneAlways(cfg, s0, acts[..|acts| - 1]);
      AlwaysInv(cfg, s0, acts[..|acts| - 1]);
      LostMeansGoneStep(cfg, Exec(cfg, s0, acts[..|acts| - 1]), acts[|acts| - 1]);
    }
  }

  /**
   * While Redis answers every call, a request recorded as SOLD_OUT,
   * BALANCE_INSUFFICIENT, DEGRADED or FAILED cost nothing.
   */
  lemma RefusedCostsNothing(cfg: Config, s0: State, acts: seq<Action>, id: string)
    requires Init(s0) && cfg.amount >= 1 && cfg.sync && NoRedisFault(acts)
    requires var s := Exec(cfg, s0, acts);
             && id in s.reqs && EntryKey(id) in s.store
             && Terminal(s.store[EntryKey(id)].request.status)
             && !s.store[EntryKey(id)].request.status.Success?
    ensures NoNetChange(Exec(cfg, s0, acts), id)
  {
    StatusTellsTruthIff(cfg, s0, acts, id);
    LostMeansGoneAlways(cfg, s0, acts);
    AllRequestsGood(cfg, s0, acts, id);
    GoodRecord(cfg, Exec(cfg, s0, acts), id);
    hide Exec, Good, NoNetChange, NoRedisFault, Init;
  }

  // --------------------------------------------------------------------- first attempt

  /**
   * An attempt that goes ahead really waited the budget at most, and one that is
   * degraded waited longer than the budget less a millisecond; an attempt never
   * starts before the enqueue stamp.
   */
  lemma BudgetJudged(cfg: Config, s0: State, acts: seq<Action>, id: string)
    requires Init(s0) && cfg.amount >= 1 && id in Exec(cfg, s0, acts).reqs
    ensures var r := Exec(cfg, s0, acts).reqs[id];
            && 0 <= r.startedAt - r.stampedAt
            && (WithinBudget(r.stage) ==> r.startedAt - r.stampedAt <= cfg.maxWait)
            && (r.stage.Degrading? ==> r.startedAt - r.stampedAt > cfg.maxWait - MILLI)
  {
    AllRequestsGood(cfg, s0, acts, id);
    GoodParts(cfg, Exec(cfg, s0, acts), id);
  }

  /**
   * On a first attempt that is not degraded, the entry outlives the attempt's
   * start by an hour less the time from creation to the enqueue stamp, up to two
   * milliseconds of truncation; and by all of that exactly when the job started
   * early enough to make up for the truncated parts.
   */
  lemma FirstAttemptHeadroom(cfg: Config, s0: State, acts: seq<Action>, id: string)
    requires Init(s0) && cfg.amount >= 1 && id in Exec(cfg, s0, acts).reqs
    requires var r := Exec(cfg, s0, acts).reqs[id]; r.stage.Marking? && r.tries == 1
    ensures EntryKey(id) in Exec(cfg, s0, acts).store
    ensures var s := Exec(cfg, s0, acts);
            var r, expiry := s.reqs[id], s.store[EntryKey(id)].expiry;
            && r.startedAt - r.stampedAt <= cfg.maxWait
            && expiry.At?
            && expiry.ms * MILLI > r.startedAt + HOUR - (r.stampedAt - r.createdAt) - 2 * MILLI
            && (expiry.ms * MILLI >= r.startedAt + HOUR - (r.stampedAt - r.createdAt) <==>
                  r.startedAt - r.stampedAt <= cfg.maxWait - r.createdAt % MILLI - cfg.maxWait % MILLI)
  {
    hide *;
    AllRequestsGood(cfg, s0, acts, id);
    var s := Exec(cfg, s0, acts);
    FirstAttempt(cfg, s, id);
    Headroom(cfg.maxWait, s.reqs[id].createdAt, s.reqs[id].stampedAt, s.reqs[id].startedAt);
  }

  lemma FirstAttempt(cfg: Config, s: State, id: string)
    requires id in s.reqs && s.reqs[id].stage.Marking? && s.reqs[id].tries == 1 && GoodAt(cfg, s, id)
    ensures var r := s.reqs[id];
            && r.createdAt <= r.stampedAt <= r.startedAt <= r.stampedAt + cfg.maxWait
            && EntryKey(id) in s.store
            && s.store[EntryKey(id)].expiry == ExpiryFor(cfg.maxWait + HOUR, Millis(r.createdAt))
  {
    GoodParts(cfg, s, id);
  }

  /** What an entry created with the budget and an hour to live has left when a punctual attempt starts. */
  lemma Headroom(maxWait: int, created: int, stamped: int, started: int)
    requires created <= stamped <= started <= stamped + maxWait
    ensures var expiry := ExpiryFor(maxWait + HOUR, Millis(created));
            && expiry.At?
            && expiry.ms * MILLI > started + HOUR - (stamped - created) - 2 * MILLI
            && (expiry.ms * MILLI >= started + HOUR - (stamped - created) <==>
                  started - stamped <= maxWait - created % MILLI - maxWait % MILLI)
  {
  }

  lemma GoodParts(cfg: Config, s: State, id: string)
    requires id in s.reqs && GoodAt(cfg, s, id)
    ensures Untouched(cfg, s.reqs[id], s.store[EntryKey(id)]) && Timed(cfg, s.reqs[id], s.now)
  {
  }
}
