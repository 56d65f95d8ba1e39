/**
 * Two concrete runs in which the status misleads. First, a run in which a
 * purchase goes through and its request ends up DEGRADED: the write of SUCCESS
 * fails, the job is delivered again, and by then the request has waited too
 * long. Second, a run in which Submit answers early.
 */
module Misleading {
  import opened Ints
  import opened Identifiers
  import opened RequestStore
  import opened Lifecycle
  import opened SagaRecords
  import opened Protocol
  import C = Coordinator

  const LATE: nat := 3_000_000_000
  const EXPIRY := At(3_602_000)

  function Cfg(sync: bool): Config {
    Config(1, 1, 2_000_000_000, 2, sync)
  }

  function Id(): string {
    RequestId(7, 0)
  }

  /** One buyer with 10, one product with 5 in stock. */
  const OPENING := State(0, map[], map[], C.State(map[1 := 5], map[7 := 10], [], []))

  function Snap(now: int, r: Req, sagas: C.State): State
    requires r.history != []
  {
    State(now, map[EntryKey(Id()) := Entry(Request(Id(), 7, 1, r.history[|r.history| - 1], ""), EXPIRY)],
          map[Id() := r], sagas)
  }

  function At0(stage: Stage, tries: nat, history: seq<Status>): Req {
    Req(7, 0, 0, 0, 0, stage, tries, false, false, history)
  }

  function Purchase(phase: C.Phase, stock: int32, balance: int32): C.State {
    var g := C.Saga(Gid(Id()), 7, 1, 1, phase);
    C.State(map[1 := stock], map[7 := balance], [g], if phase.Committed? then [g] else [])
  }

  lemma PutSnap(now: int, r: Req, r': Req, sagas: C.State)
    requires r.history != [] && r'.history == r.history
    ensures Put(Snap(now, r, sagas), Id(), r') == Snap(now, r', sagas)
  {
    assert map[Id() := r][Id() := r'] == map[Id() := r'];
  }

  lemma StoreOne(key: string, request: Request, status: Status, now: int)
    requires now == 0 || now == LATE
    ensures Update(map[key := Entry(request, EXPIRY)], key, status, "", Millis(now), false)
            == (map[key := Entry(request.(status := status, reason := ""), EXPIRY)], Ok)
  {
    assert Alive(EXPIRY, Millis(now)) && NewExpiry(EXPIRY, Millis(now)) == EXPIRY;
    hide Millis, NewExpiry, Alive;
    var e := Entry(request.(status := status, reason := ""), EXPIRY);
    assert map[key := Entry(request, EXPIRY)][key := e] == map[key := e];
  }

  lemma StoreSnap(now: int, r: Req, status: Status, sagas: C.State)
    requires r.history != [] && (now == 0 || now == LATE)
    ensures Update(Snap(now, r, sagas).store, EntryKey(Id()), status, "", Millis(now), false)
            == (map[EntryKey(Id()) := Entry(Request(Id(), 7, 1, status, ""), EXPIRY)], Ok)
  {
    hide Update, EntryKey, Id, Millis;
    StoreOne(EntryKey(Id()), Request(Id(), 7, 1, r.history[|r.history| - 1], ""), status, now);
  }

  lemma WriteSnap(sync: bool, now: int, r: Req, sagas: C.State, fault: bool)
    requires r.history != [] && (now == 0 || now == LATE)
    ensures var r' := AfterWrite(Cfg(sync), r, !fault);
            WriteStatus(Cfg(sync), Snap(now, r, sagas), Id(), "", fault)
            == Snap(now, if fault then r' else r'.(history := r.history + [Pending(r.stage)]), sagas)
  {
    hide Update, EntryKey, Id, Millis;
    StoreSnap(now, r, Pending(r.stage), sagas);
    FaultyUpdate(Snap(now, r, sagas).store, EntryKey(Id()), Pending(r.stage), Millis(now));
    assert forall r' :: map[Id() := r][Id() := r'] == map[Id() := r'];
  }

  lemma FaultyUpdate(st: Store, key: string, status: Status, now: int)
    ensures Update(st, key, status, "", now, true) == (st, CacheError)
  {
  }

  ghost predicate DegradedPurchase(s: State) {
    && Id() in s.reqs && EntryKey(Id()) in s.store
    && s.store[EntryKey(Id())].request.status == Degraded
    && PhaseOf(s.sagas.log, Gid(Id())) == Present(C.Committed)
    && s.sagas.stock == map[1 := 4] && s.sagas.balance == map[7 := 9]
  }

  lemma CreateStep(sync: bool)
    ensures Step(Cfg(sync), OPENING, Create(7, 0, false)) == Snap(0, At0(Created, 0, [Waiting]), OPENING.sagas)
  {
  }

  lemma StampStep(sync: bool, c: C.State)
    ensures Step(Cfg(sync), Snap(0, At0(Created, 0, [Waiting]), c), Stamp(Id())) == Snap(0, At0(Stamped, 0, [Waiting]), c)
  {
    PutSnap(0, At0(Created, 0, [Waiting]), At0(Stamped, 0, [Waiting]), c);
  }

  lemma InsertStep(sync: bool, c: C.State)
    ensures Step(Cfg(sync), Snap(0, At0(Stamped, 0, [Waiting]), c), Insert(Id(), true)) == Snap(0, At0(Queued, 0, [Waiting]), c)
  {
    PutSnap(0, At0(Stamped, 0, [Waiting]), At0(Queued, 0, [Waiting]), c);
  }

  lemma StartStep(sync: bool, now: int, r: Req, c: C.State)
    requires r.history != [] && r.stage.Queued? && r.tries < 2
    ensures Step(Cfg(sync), Snap(now, r, c), Start(Id())) == Snap(now, Begin(Cfg(sync), r, now), c)
  {
    PutSnap(now, r, Begin(Cfg(sync), r, now), c);
  }

  lemma WriteStep(sync: bool, now: int, r: Req, c: C.State, fault: bool)
    requires r.history != [] && (now == 0 || now == LATE) && Writes(r.stage)
    ensures var r' := AfterWrite(Cfg(sync), r, !fault);
            Step(Cfg(sync), Snap(now, r, c), Write(Id(), "", fault))
            == Snap(now, if fault then r' else r'.(history := r.history + [Pending(r.stage)]), c)
  {
    WriteSnap(sync, now, r, c, fault);
  }

  const MARKED: seq<Status> := [Waiting, Processing]

  lemma SubmitStep(sync: bool)
    ensures Step(Cfg(sync), Snap(0, At0(Submitting, 1, MARKED), OPENING.sagas), Submit(Id()))
            == Snap(0, At0(Awaiting, 1, MARKED), Purchase(C.Started, 5, 10))
  {
    PutSnap(0, At0(Submitting, 1, MARKED), At0(Awaiting, 1, MARKED), OPENING.sagas);
  }

  lemma ChargeStep(sync: bool)
    ensures Step(Cfg(sync), Snap(0, At0(Awaiting, 1, MARKED), Purchase(C.Started, 5, 10)), Branch(0, C.Works))
            == Snap(0, At0(Awaiting, 1, MARKED), Purchase(C.BalanceHeld, 5, 9))
  {
    assert map[7 := 10][7 := 9] == map[7 := 9];
    assert Purchase(C.Started, 5, 10).log[0 := Purchase(C.BalanceHeld, 5, 9).log[0]] == Purchase(C.BalanceHeld, 5, 9).log;
  }

  lemma SellStep(sync: bool)
    ensures Step(Cfg(sync), Snap(0, At0(Awaiting, 1, MARKED), Purchase(C.BalanceHeld, 5, 9)), Branch(0, C.Works))
            == Snap(0, At0(Awaiting, 1, MARKED), Purchase(C.Committed, 4, 9))
  {
    assert map[1 := 5][1 := 4] == map[1 := 4];
    assert Purchase(C.BalanceHeld, 5, 9).log[0 := Purchase(C.Committed, 4, 9).log[0]] == Purchase(C.Committed, 4, 9).log;
  }

  lemma RespondStep(sync: bool)
    ensures Step(Cfg(sync), Snap(0, At0(Awaiting, 1, MARKED), Purchase(C.Committed, 4, 9)), Respond(Id(), Accepted))
            == Snap(0, At0(Finishing(Success), 1, MARKED), Purchase(C.Committed, 4, 9))
  {
    assert PhaseOf(Purchase(C.Committed, 4, 9).log, Gid(Id())) == Present(C.Committed);
    PutSnap(0, At0(Awaiting, 1, MARKED), At0(Finishing(Success), 1, MARKED), Purchase(C.Committed, 4, 9));
  }

  function Purchasing(): seq<Action> {
    [Create(7, 0, false), Stamp(Id()), Insert(Id(), true), Start(Id()), Write(Id(), "", false), Submit(Id())]
  }

  function Losing(): seq<Action> {
    [Branch(0, C.Works), Branch(0, C.Works), Respond(Id(), Accepted), Write(Id(), "", true)]
  }

  function Redelivered(): seq<Action> {
    [Tick(LATE), Start(Id()), Write(Id(), "", false)]
  }

  /** Up to the submitted saga. */
  lemma Submitted(sync: bool)
    ensures Init(OPENING)
    ensures Exec(Cfg(sync), OPENING, Purchasing()) == Snap(0, At0(Awaiting, 1, MARKED), Purchase(C.Started, 5, 10))
  {
    hide Step, Snap, Id, Purchase, Exec;
    var id, c := Id(), OPENING.sagas;
    var a1 := [Create(7, 0, false)];
    var a2 := a1 + [Stamp(id)];
    var a3 := a2 + [Insert(id, true)];
    var a4 := a3 + [Start(id)];
    var a5 := a4 + [Write(id, "", false)];
    assert Exec(Cfg(sync), OPENING, a1) == Step(Cfg(sync), OPENING, a1[0]) by { ExecOne(Cfg(sync), OPENING, a1[0]); }
    CreateStep(sync);
    ExecSnoc(Cfg(sync), OPENING, a1, Stamp(id));
    StampStep(sync, c);
    ExecSnoc(Cfg(sync), OPENING, a2, Insert(id, true));
    InsertStep(sync, c);
    ExecSnoc(Cfg(sync), OPENING, a3, Start(id));
    StartStep(sync, 0, At0(Queued, 0, [Waiting]), c);
    assert Begin(Cfg(sync), At0(Queued, 0, [Waiting]), 0) == At0(Marking, 1, [Waiting]);
    ExecSnoc(Cfg(sync), OPENING, a4, Write(id, "", false));
    WriteStep(sync, 0, At0(Marking, 1, [Waiting]), c, false);
    assert [Waiting] + [Processing] == MARKED;
    ExecSnoc(Cfg(sync), OPENING, a5, Submit(id));
    SubmitStep(sync);
    assert a5 + [Submit(id)] == Purchasing();
  }

  /** The saga commits, Submit returns nil, and the write of SUCCESS fails. */
  lemma Lost(sync: bool, s: State)
    requires s == Snap(0, At0(Awaiting, 1, MARKED), Purchase(C.Started, 5, 10))
    ensures Exec(Cfg(sync), s, Losing()) == Snap(0, At0(Queued, 1, MARKED).(lostSuccess := true), Purchase(C.Committed, 4, 9))
  {
    hide Step, Snap, Id, Purchase, Exec;
    var id := Id();
    var b1 := [Branch(0, C.Works)];
    var b2 := b1 + [Branch(0, C.Works)];
    var b3 := b2 + [Respond(id, Accepted)];
    ExecOne(Cfg(sync), s, b1[0]);
    ChargeStep(sync);
    ExecSnoc(Cfg(sync), s, b1, Branch(0, C.Works));
    SellStep(sync);
    ExecSnoc(Cfg(sync), s, b2, Respond(id, Accepted));
    RespondStep(sync);
    ExecSnoc(Cfg(sync), s, b3, Write(id, "", true));
    WriteStep(sync, 0, At0(Finishing(Success), 1, MARKED), Purchase(C.Committed, 4, 9), true);
    assert b3 + [Write(id, "", true)] == Losing();
  }

  /** The second attempt starts three seconds later and degrades the request. */
  lemma Degrade(sync: bool, s: State, r: Req)
    requires r == At0(Queued, 1, MARKED).(lostSuccess := true) && s == Snap(0, r, Purchase(C.Committed, 4, 9))
    ensures DegradedPurchase(Exec(Cfg(sync), s, Redelivered()))
  {
    var id, c := Id(), Purchase(C.Committed, 4, 9);
    var d1 := [Tick(LATE)];
    ExecOne(Cfg(sync), s, d1[0]);
    assert Exec(Cfg(sync), s, d1) == Snap(LATE, r, c);
    hide Step, Snap, Id, Purchase, Exec, DegradedPurchase;
    var d2 := d1 + [Start(id)];
    ExecSnoc(Cfg(sync), s, d1, Start(id));
    StartStep(sync, LATE, r, c);
    ExecSnoc(Cfg(sync), s, d2, Write(id, "", false));
    var b := Begin(Cfg(sync), r, LATE);
    assert b.stage.Degrading? && b.history == MARKED;
    WriteStep(sync, LATE, b, c, false);
    assert d2 + [Write(id, "", false)] == Redelivered();
    SnapDegraded(AfterWrite(Cfg(sync), b, true).(history := MARKED + [Degraded]));
  }

  lemma SnapDegraded(r: Req)
    requires r.history == MARKED + [Degraded]
    ensures DegradedPurchase(Snap(LATE, r, Purchase(C.Committed, 4, 9)))
  {
    assert PhaseOf(Purchase(C.Committed, 4, 9).log, Gid(Id())) == Present(C.Committed);
  }

  /**
   * "DEGRADED means nothing was bought" is false: here Submit is synchronous,
   * one single Redis call fails, and the buyer has paid for a degraded request.
   */
  lemma DegradedThoughBought()
    ensures exists acts :: DegradedPurchase(Exec(Cfg(true), OPENING, acts))
  {
    hide *;
    Submitted(true);
    var s1 := Exec(Cfg(true), OPENING, Purchasing());
    Lost(true, s1);
    var s2 := Exec(Cfg(true), s1, Losing());
    Degrade(true, s2, At0(Queued, 1, MARKED).(lostSuccess := true));
    ExecConcat(Cfg(true), OPENING, Purchasing(), Losing());
    ExecConcat(Cfg(true), OPENING, Purchasing() + Losing(), Redelivered());
    assert DegradedPurchase(Exec(Cfg(true), OPENING, Purchasing() + Losing() + Redelivered()));
  }

  // ------------------------------------------------------------ without Sync

  /** Submit answers at once, SUCCESS is written, and the saga is given up afterwards. */
  function AnsweredEarly(): seq<Action> {
    [Respond(Id(), Accepted), Write(Id(), "", false), Branch(0, C.Unreachable(true))]
  }

  ghost predicate SuccessNotBought(s: State) {
    && Id() in s.reqs && EntryKey(Id()) in s.store
    && s.store[EntryKey(Id())].request.status == Success
    && PhaseOf(s.sagas.log, Gid(Id())) == Present(C.Aborted(C.BranchError))
    && s.sagas.stock == map[1 := 5] && s.sagas.balance == map[7 := 10]
  }

  lemma EarlyAnswer(s: State)
    requires s == Snap(0, At0(Awaiting, 1, MARKED), Purchase(C.Started, 5, 10))
    ensures SuccessNotBought(Exec(Cfg(false), s, AnsweredEarly()))
  {
    var id, c := Id(), Purchase(C.Started, 5, 10);
    var r := At0(Finishing(Success), 1, MARKED);
    assert Step(Cfg(false), s, Respond(id, Accepted)) == Snap(0, r, c) by {
      PutSnap(0, At0(Awaiting, 1, MARKED), r, c);
    }
    var done := AfterWrite(Cfg(false), r, true).(history := MARKED + [Success]);
    GivenUp(done);
    hide Step, Snap, Purchase, SuccessNotBought, Exec;
    var a1 := [Respond(id, Accepted)];
    ExecOne(Cfg(false), s, a1[0]);
    ExecSnoc(Cfg(false), s, a1, Write(id, "", false));
    WriteStep(false, 0, r, c, false);
    ExecSnoc(Cfg(false), s, a1 + [Write(id, "", false)], Branch(0, C.Unreachable(true)));
    assert a1 + [Write(id, "", false)] + [Branch(0, C.Unreachable(true))] == AnsweredEarly();
  }

  lemma GivenUp(r: Req)
    requires r.history == MARKED + [Success]
    ensures SuccessNotBought(Step(Cfg(false), Snap(0, r, Purchase(C.Started, 5, 10)), Branch(0, C.Unreachable(true))))
  {
    var s' := Step(Cfg(false), Snap(0, r, Purchase(C.Started, 5, 10)), Branch(0, C.Unreachable(true)));
    assert s'.sagas.log == [C.Saga(Gid(Id()), 7, 1, 1, C.Aborted(C.BranchError))];
    assert PhaseOf(s'.sagas.log, Gid(Id())) == Present(C.Aborted(C.BranchError));
  }

  /** "SUCCESS means bought" needs Sync: if Submit answers before the outcome is known, it is false. */
  lemma SuccessNeedsSync()
    ensures exists acts :: SuccessNotBought(Exec(Cfg(false), OPENING, acts))
  {
    hide *;
    Submitted(false);
    EarlyAnswer(Exec(Cfg(false), OPENING, Purchasing()));
    ExecConcat(Cfg(false), OPENING, Purchasing(), AnsweredEarly());
    assert SuccessNotBought(Exec(Cfg(false), OPENING, Purchasing() + AnsweredEarly()));
  }
}
