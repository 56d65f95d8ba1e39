/** The coordinator's record for one GID, and how steps change it. */
module SagaRecords {
  import opened Ints
  import opened Coordinator
  import opened Conservation

  datatype MaybePhase = Absent | Present(phase: Phase)

  function PhaseOf(log: seq<Saga>, gid: string): MaybePhase {
    if log == [] then Absent
    else if log[|log| - 1].gid == gid then Present(log[|log| - 1].phase)
    else PhaseOf(log[..|log| - 1], gid)
  }

  predicate Decided(ph: MaybePhase) {
    ph.Present? && (ph.phase.Committed? || ph.phase.Aborted?)
  }

  predicate Committed(ph: MaybePhase) {
    ph.Present? && ph.phase.Committed?
  }

  predicate Compensated(ph: MaybePhase) {
    ph.Present? && ph.phase.Aborted?
  }

  /** How another party's action may change a saga's record. */
  ghost predicate Evolves(ph: MaybePhase, ph': MaybePhase) {
    ph' == ph || (ph.Present? && !Decided(ph) && ph'.Present?)
  }

  lemma PhaseAppend(log: seq<Saga>, g: Saga, gid: string)
    ensures PhaseOf(log + [g], gid) == if g.gid == gid then Present(g.phase) else PhaseOf(log, gid)
  {
    assert (log + [g])[..|log|] == log;
  }

  lemma {:induction false} PhaseAbsentIff(log: seq<Saga>, gid: string)
    ensures PhaseOf(log, gid).Absent? <==> !Known(log, gid)
  {
    if log != [] {
      var init := log[..|log| - 1];
      PhaseAbsentIff(init, gid);
      assert Known(init, gid) ==> Known(log, gid);
      assert log[|log| - 1].gid != gid && Known(log, gid) ==> Known(init, gid) by {
        if log[|log| - 1].gid != gid && Known(log, gid) {
          var i :| 0 <= i < |log| && log[i].gid == gid;
          assert init[i].gid == gid;
        }
      }
    }
  }

  lemma {:induction false} PhaseAt(log: seq<Saga>, i: nat)
    requires LogSound(log) && i < |log|
    ensures PhaseOf(log, log[i].gid) == Present(log[i].phase)
  {
    if i < |log| - 1 {
      PhaseAt(log[..|log| - 1], i);
    }
  }

  lemma {:induction false} PhaseUpdate(log: seq<Saga>, i: nat, phase: Phase, gid: string)
    requires LogSound(log) && i < |log|
    ensures PhaseOf(log[i := log[i].(phase := phase)], gid)
            == if gid == log[i].gid then Present(phase) else PhaseOf(log, gid)
  {
    var log' := log[i := log[i].(phase := phase)];
    var last := |log| - 1;
    if i == last {
      assert log'[..last] == log[..last];
    } else {
      assert log'[..last] == log[..last][i := log[i].(phase := phase)];
      PhaseUpdate(log[..last], i, phase, gid);
    }
  }

  lemma BranchKeepsBuyer(s: State, i: nat, db: Db)
    ensures var log' := Step(s, Branch(i, db)).log;
            && |log'| == |s.log|
            && forall j | 0 <= j < |log'| :: log'[j] == s.log[j].(phase := log'[j].phase)
  {
  }

  /** A branch call moves one saga, and never one that is settled. */
  lemma BranchEvolves(s: State, i: nat, db: Db, gid: string)
    requires LogSound(s.log)
    ensures Evolves(PhaseOf(s.log, gid), PhaseOf(Step(s, Branch(i, db)).log, gid))
  {
    var s' := Step(s, Branch(i, db));
    if i < |s.log| && s' != s {
      PhaseUpdate(s.log, i, s'.log[i].phase, gid);
      PhaseAt(s.log, i);
    }
  }

  lemma SubmitPhase(s: State, gid: string, user: int64, product: int64, amount: int32, other: string)
    ensures var ph := PhaseOf(s.log, other);
            PhaseOf(Step(s, Submit(gid, user, product, amount)).log, other)
            == if ph.Absent? && other == gid then Present(Started) else ph
  {
    PhaseAbsentIff(s.log, gid);
    PhaseAppend(s.log, Saga(gid, user, product, amount, Started), other);
  }
}
