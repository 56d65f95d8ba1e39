/** What every run of the protocol keeps for every request. */
module Delivery {
  import opened Ints
  import opened Identifiers
  import opened RequestStore
  import opened Lifecycle
  import opened SagaRecords
  import opened Protocol
  import C = Coordinator
  import K = Conservation

  // --------------------------------------------------------------- status histories

  function Last(h: seq<Status>): Status
    requires h != []
  {
    h[|h| - 1]
  }

  /** WAITING, any number of PROCESSING, then at most one terminal status. */
  ghost predicate Lawful(h: seq<Status>) {
    && |h| >= 1
    && h[0] == Waiting
    && (forall k | 0 < k < |h| - 1 :: h[k] == Processing)
    && (|h| > 1 ==> Last(h) != Waiting)
  }

  ghost predicate Open(h: seq<Status>) {
    Lawful(h) && !Terminal(Last(h))
  }

  predicate Done(stage: Stage) {
    stage.Finished? || stage.Rejected? || stage.Discarded?
  }

  predicate BeforeJob(stage: Stage) {
    stage.Created? || stage.Stamped? || stage.InsertFailed? || stage.Rejected?
  }

  predicate WithinBudget(stage: Stage) {
    stage.Marking? || stage.Submitting? || stage.Awaiting? || stage.Finishing?
  }

  // -------------------------------------------------------------- one request's facts

  /** The entry mirrors the request, and the history is lawful and still open while work remains. */
  ghost predicate Recorded(cfg: Config, id: string, r: Req, e: Entry) {
    && id == RequestId(r.user, r.nanos)
    && e.request.id == id && e.request.user == r.user && e.request.product == cfg.product
    && Lawful(r.history)
    && e.request.status == Last(r.history)
    && (!Done(r.stage) ==> Open(r.history))
    && (r.stage.Finished? ==> Terminal(Last(r.history)) || r.lostFailure)
    && (r.stage.Finishing? ==> Terminal(r.stage.status))
  }

  /** Attempts are counted when they start, and a queued job has some left. */
  ghost predicate Counted(cfg: Config, r: Req) {
    && (Writes(r.stage) || r.stage.Submitting? || r.stage.Awaiting? ==> r.tries >= 1)
    && (BeforeJob(r.stage) ==> r.tries == 0)
    && (r.stage.Queued? && cfg.attempts >= 1 ==> r.tries < cfg.attempts)
    && (r.stage.Discarded? ==> r.tries >= cfg.attempts)
    && (cfg.attempts >= 1 ==> r.tries <= cfg.attempts)
  }

  /** Clock readings are in order and the wait budget was judged on them. */
  ghost predicate Timed(cfg: Config, r: Req, now: int) {
    && r.nanos <= r.createdAt <= r.stampedAt <= r.startedAt <= now
    && (WithinBudget(r.stage) ==> r.startedAt - r.stampedAt <= cfg.maxWait)
    && (r.stage.Degrading? ==> r.startedAt - r.stampedAt > cfg.maxWait - MILLI)
  }

  /** The entry is as created until the first attempt writes to it. */
  ghost predicate Untouched(cfg: Config, r: Req, e: Entry) {
    (r.tries == 0 && !Done(r.stage)) || (r.tries == 1 && r.stage.Marking?) ==>
      e.expiry == ExpiryFor(cfg.maxWait + HOUR, Millis(r.createdAt)) && cfg.maxWait + HOUR >= -1
  }

  /** The saga ended in an abort that is neither a lack of stock nor of funds. */
  predicate AbortedOtherwise(ph: MaybePhase) {
    Compensated(ph) && ph.phase.reason != C.OutOfStock && ph.phase.reason != C.LowFunds
  }

  /** Under Sync: how the request, its last status and its saga belong together. */
  ghost predicate Agreed(r: Req, ph: MaybePhase)
    requires r.history != []
  {
    && (BeforeJob(r.stage) ==> ph.Absent? && !r.lostSuccess && !Last(r.history).Degraded?)
    && (r.lostSuccess ==> Committed(ph))
    && (r.lostFailure ==> Compensated(ph))
    && (r.stage.Queued? || r.stage.Degrading? || r.stage.Marking? || r.stage.Submitting? || r.stage.Discarded? ==>
          ph.Absent? || r.lostSuccess)
    && (r.stage.Awaiting? ==> ph.Present?)
    && (r.stage.Finishing? ==>
          !r.stage.status.Degraded? && (if r.stage.status.Success? then Committed(ph) else Compensated(ph)))
    && match Last(r.history)
       case Success => Committed(ph)
       case SoldOut => ph == Present(C.Aborted(C.OutOfStock))
       case BalanceInsufficient => ph == Present(C.Aborted(C.LowFunds))
       case Failed => if BeforeJob(r.stage) then ph.Absent? else AbortedOtherwise(ph)
       case Degraded => ph.Absent? || r.lostSuccess
       case _ => true
  }

  /** What a pending terminal write says about the saga. */
  ghost predicate Announces(r: Req, ph: MaybePhase) {
    r.stage.Finishing? ==>
      match r.stage.status
      case SoldOut => ph == Present(C.Aborted(C.OutOfStock))
      case BalanceInsufficient => ph == Present(C.Aborted(C.LowFunds))
      case Failed => AbortedOtherwise(ph)
      case _ => true
  }

  ghost predicate Good(cfg: Config, id: string, r: Req, e: Entry, ph: MaybePhase, now: int) {
    && Recorded(cfg, id, r, e)
    && Counted(cfg, r)
    && Timed(cfg, r, now)
    && Untouched(cfg, r, e)
    && (cfg.sync ==> Agreed(r, ph) && Announces(r, ph))
  }

  // ------------------------------------------------------------------- local steps

  lemma GoodAnyway(cfg: Config, id: string, r: Req, e: Entry, ph: MaybePhase, ph': MaybePhase, now: int, now': int)
    requires Good(cfg, id, r, e, ph, now) && Evolves(ph, ph') && now <= now'
    ensures Good(cfg, id, r, e, ph', now')
  {
  }

  /** The request after its pending status write returned `err` and left expiry `x`. */
  function Written(cfg: Config, r: Req, err: Result): Req {
    var r' := AfterWrite(cfg, r, err == Ok);
    if err == Ok then r'.(history := r.history + [Pending(r.stage)]) else r'
  }

  function WrittenEntry(r: Req, e: Entry, err: Result, detail: string, x: Expiry): Entry {
    if err == Ok then
      Entry(e.request.(status := Pending(r.stage), reason := ReasonFor(Pending(r.stage), detail)), x)
    else e
  }

  lemma HistoryGrows(h: seq<Status>, status: Status)
    requires Open(h) && status != Waiting
    ensures Lawful(h + [status]) && Last(h + [status]) == status
  {
  }

  lemma RecordedWrite(cfg: Config, id: string, r: Req, e: Entry, err: Result, detail: string, x: Expiry)
    requires Recorded(cfg, id, r, e) && (Writes(r.stage) || r.stage.InsertFailed?)
    ensures Recorded(cfg, id, Written(cfg, r, err), WrittenEntry(r, e, err, detail, x))
  {
    HistoryGrows(r.history, Pending(r.stage));
    hide Lawful, RequestId, Last;
  }

  lemma AgreedWrite(cfg: Config, r: Req, ph: MaybePhase, err: Result)
    requires Open(r.history) && Agreed(r, ph) && Announces(r, ph)
    requires (Writes(r.stage) || r.stage.InsertFailed?) && Pending(r.stage) != Waiting
    ensures Agreed(Written(cfg, r, err), ph) && Announces(Written(cfg, r, err), ph)
  {
    HistoryGrows(r.history, Pending(r.stage));
  }

  lemma GoodWrite(cfg: Config, id: string, r: Req, e: Entry, ph: MaybePhase, now: int, err: Result, detail: string, x: Expiry)
    requires Good(cfg, id, r, e, ph, now) && (Writes(r.stage) || r.stage.InsertFailed?)
    ensures Good(cfg, id, Written(cfg, r, err), WrittenEntry(r, e, err, detail, x), ph, now)
  {
    RecordedWrite(cfg, id, r, e, err, detail, x);
    if cfg.sync {
      AgreedWrite(cfg, r, ph, err);
    }
    ClockedWrite(cfg, r, e, now, err, detail, x);
    hide Recorded, Agreed, Announces, Counted, Timed, Untouched, Written, WrittenEntry;
  }

  lemma ClockedWrite(cfg: Config, r: Req, e: Entry, now: int, err: Result, detail: string, x: Expiry)
    requires Counted(cfg, r) && Timed(cfg, r, now) && Untouched(cfg, r, e)
    requires Writes(r.stage) || r.stage.InsertFailed?
    ensures var r' := Written(cfg, r, err);
            Counted(cfg, r') && Timed(cfg, r', now) && Untouched(cfg, r', WrittenEntry(r, e, err, detail, x))
  {
  }

  lemma GoodStart(cfg: Config, id: string, r: Req, e: Entry, ph: MaybePhase, now: int)
    requires Good(cfg, id, r, e, ph, now) && r.stage.Queued?
    ensures Good(cfg, id, Begin(cfg, r, now), e, ph, now)
  {
    WaitBudget(r.stampedAt, now, cfg.maxWait);
  }

  lemma GoodNew(cfg: Config, user: int64, nanos: int, now: int, ph: MaybePhase)
    requires nanos <= now && ph.Absent? && cfg.maxWait + HOUR >= -1
    ensures var id := RequestId(user, nanos);
            Good(cfg, id, Req(user, nanos, now, now, now, Created, 0, false, false, [Waiting]),
                 Entry(Request(id, user, cfg.product, Waiting, ""), ExpiryFor(cfg.maxWait + HOUR, Millis(now))), ph, now)
  {
  }

  lemma GoodStamp(cfg: Config, id: string, r: Req, e: Entry, ph: MaybePhase, now: int)
    requires Good(cfg, id, r, e, ph, now) && r.stage.Created?
    ensures Good(cfg, id, r.(stage := Stamped, stampedAt := now, startedAt := now), e, ph, now)
  {
  }

  lemma GoodInsert(cfg: Config, id: string, r: Req, e: Entry, ph: MaybePhase, now: int, ok: bool)
    requires Good(cfg, id, r, e, ph, now) && r.stage.Stamped?
    ensures Good(cfg, id, r.(stage := if ok then Queued else InsertFailed), e, ph, now)
  {
  }

  lemma GoodSubmit(cfg: Config, id: string, r: Req, e: Entry, ph: MaybePhase, now: int)
    requires Good(cfg, id, r, e, ph, now) && r.stage.Submitting?
    ensures Good(cfg, id, r.(stage := Awaiting), e, if ph.Absent? then Present(C.Started) else ph, now)
  {
  }

  lemma GoodRespond(cfg: Config, id: string, r: Req, e: Entry, ph: MaybePhase, now: int, reply: Reply)
    requires Good(cfg, id, r, e, ph, now) && r.stage.Awaiting? && MayAnswer(cfg, ph, reply)
    ensures Good(cfg, id, r.(stage := Finishing(Classify(reply))), e, ph, now)
  {
  }

  // ---------------------------------------------------------------- all requests at once

  ghost predicate GoodAt(cfg: Config, s: State, id: string)
    requires id in s.reqs
  {
    && EntryKey(id) in s.store
    && Good(cfg, id, s.reqs[id], s.store[EntryKey(id)], PhaseOf(s.sagas.log, Gid(id)), s.now)
  }

  ghost predicate AllGood(cfg: Config, s: State) {
    forall id | id in s.reqs :: GoodAt(cfg, s, id)
  }

  ghost predicate Owns(cfg: Config, s: State, id: string, g: C.Saga) {
    && id in s.reqs
    && g.gid == Gid(id) && g.user == s.reqs[id].user
    && g.product == cfg.product && g.amount == cfg.amount
  }

  ghost predicate Owned(cfg: Config, s: State, g: C.Saga) {
    exists id :: Owns(cfg, s, id, g)
  }

  /** Every saga was submitted for one request, with that request's buyer and the configured purchase. */
  ghost predicate AllOwned(cfg: Config, s: State) {
    forall i | 0 <= i < |s.sagas.log| :: Owned(cfg, s, s.sagas.log[i])
  }

  ghost predicate Inv(cfg: Config, s0: State, s: State) {
    && K.Inv(s0.sagas, s.sagas)
    && AllGood(cfg, s)
    && AllOwned(cfg, s)
  }

  lemma KeysDiffer(a: string, b: string)
    requires a != b
    ensures EntryKey(a) != EntryKey(b) && Gid(a) != Gid(b)
  {
    if EntryKey(a) == EntryKey(b) {
      RenderInjective(RequestEntry(a), RequestEntry(b));
    }
    if Gid(a) == Gid(b) {
      GidInjective(a, b);
    }
  }

  /** Only request `id` and its entry changed. */
  ghost predicate OnlyRequest(s: State, s': State, id: string) {
    && s'.now == s.now && s'.sagas == s.sagas
    && id in s'.reqs && s.reqs.Keys <= s'.reqs.Keys <= s.reqs.Keys + {id}
    && (forall other | other in s.reqs && other != id :: s'.reqs[other] == s.reqs[other])
    && (forall key | key in s.store && key != EntryKey(id) :: key in s'.store && s'.store[key] == s.store[key])
    && (id in s.reqs ==> s'.reqs[id].user == s.reqs[id].user)
  }

  lemma OnlyRequestKept(cfg: Config, s0: State, s: State, s': State, id: string)
    requires Inv(cfg, s0, s) && OnlyRequest(s, s', id) && GoodAt(cfg, s', id)
    ensures Inv(cfg, s0, s')
  {
    hide Good, K.Inv;
    forall other | other in s'.reqs ensures GoodAt(cfg, s', other) {
      if other != id {
        KeysDiffer(other, id);
        assert GoodAt(cfg, s, other);
      }
    }
    forall i | 0 <= i < |s'.sagas.log| ensures Owned(cfg, s', s'.sagas.log[i]) {
      assert Owned(cfg, s, s.sagas.log[i]);
      var o :| Owns(cfg, s, o, s.sagas.log[i]);
      assert Owns(cfg, s', o, s'.sagas.log[i]);
    }
  }

  lemma EnqueueKept(cfg: Config, s0: State, s: State, user: int64, nanos: int, fault: bool)
    requires Inv(cfg, s0, s)
    ensures Inv(cfg, s0, Enqueue(cfg, s, user, nanos, fault))
  {
    hide Good, K.Inv;
    var id := RequestId(user, nanos);
    var s' := Enqueue(cfg, s, user, nanos, fault);
    if s' != s {
      assert id !in s.reqs;
      NobodysSaga(cfg, s, id);
      GoodNew(cfg, user, nanos, s.now, PhaseOf(s.sagas.log, Gid(id)));
      OnlyRequestKept(cfg, s0, s, s', id);
    }
  }

  lemma NobodysSaga(cfg: Config, s: State, id: string)
    requires AllOwned(cfg, s) && id !in s.reqs
    ensures PhaseOf(s.sagas.log, Gid(id)).Absent?
  {
    PhaseAbsentIff(s.sagas.log, Gid(id));
    if C.Known(s.sagas.log, Gid(id)) {
      var i :| 0 <= i < |s.sagas.log| && s.sagas.log[i].gid == Gid(id);
      var o :| Owns(cfg, s, o, s.sagas.log[i]);
      GidInjective(o, id);
    }
  }

  lemma WriteKept(cfg: Config, s0: State, s: State, id: string, detail: string, fault: bool)
    requires Inv(cfg, s0, s) && id in s.reqs && (Writes(s.reqs[id].stage) || s.reqs[id].stage.InsertFailed?)
    ensures Inv(cfg, s0, WriteStatus(cfg, s, id, detail, fault))
  {
    hide Good, K.Inv;
    var s' := WriteStatus(cfg, s, id, detail, fault);
    var r := s.reqs[id];
    assert GoodAt(cfg, s, id);
    var err := Update(s.store, EntryKey(id), Pending(r.stage), ReasonFor(Pending(r.stage), detail), Millis(s.now), fault).1;
    GoodWrite(cfg, id, r, s.store[EntryKey(id)], PhaseOf(s.sagas.log, Gid(id)), s.now, err, detail, s'.store[EntryKey(id)].expiry);
    OnlyRequestKept(cfg, s0, s, s', id);
  }

  lemma LocalKept(cfg: Config, s0: State, s: State, a: Action)
    requires Inv(cfg, s0, s) && (a.Stamp? || a.Insert? || a.Start? || a.Respond?)
    ensures Inv(cfg, s0, Step(cfg, s, a))
  {
    hide Good, K.Inv;
    var s' := Step(cfg, s, a);
    if s' != s {
      var id := a.id;
      var r, ph := s.reqs[id], PhaseOf(s.sagas.log, Gid(id));
      assert GoodAt(cfg, s, id);
      var e := s.store[EntryKey(id)];
      match a {
        case Stamp(_) => GoodStamp(cfg, id, r, e, ph, s.now);
        case Insert(_, ok) => GoodInsert(cfg, id, r, e, ph, s.now, ok);
        case Start(_) => GoodStart(cfg, id, r, e, ph, s.now);
        case Respond(_, reply) => GoodRespond(cfg, id, r, e, ph, s.now, reply);
      }
      assert GoodAt(cfg, s', id);
      OnlyRequestKept(cfg, s0, s, s', id);
    }
  }

  lemma SubmitKept(cfg: Config, s0: State, s: State, id: string)
    requires Inv(cfg, s0, s) && cfg.amount >= 1 && id in s.reqs && s.reqs[id].stage.Submitting?
    ensures Inv(cfg, s0, Step(cfg, s, Submit(id)))
  {
    hide Good, K.Inv;
    var s' := Step(cfg, s, Submit(id));
    var user := s.reqs[id].user;
    K.StepInv(s0.sagas, s.sagas, C.Submit(Gid(id), user, cfg.product, cfg.amount));
    forall other | other in s'.reqs ensures GoodAt(cfg, s', other) {
      assert GoodAt(cfg, s, other);
      SubmitPhase(s.sagas, Gid(id), user, cfg.product, cfg.amount, Gid(other));
      if other != id {
        KeysDiffer(other, id);
      } else {
        GoodSubmit(cfg, id, s.reqs[id], s.store[EntryKey(id)], PhaseOf(s.sagas.log, Gid(id)), s.now);
      }
    }
    forall i | 0 <= i < |s'.sagas.log| ensures Owned(cfg, s', s'.sagas.log[i]) {
      if i < |s.sagas.log| {
        assert Owned(cfg, s, s.sagas.log[i]);
        var o :| Owns(cfg, s, o, s.sagas.log[i]);
        assert Owns(cfg, s', o, s'.sagas.log[i]);
      } else {
        assert Owns(cfg, s', id, s'.sagas.log[i]);
      }
    }
  }

  lemma SagaEvolves(s0: State, s: State, i: nat, db: C.Db, id: string)
    requires K.Inv(s0.sagas, s.sagas)
    ensures Evolves(PhaseOf(s.sagas.log, Gid(id)), PhaseOf(C.Step(s.sagas, C.Branch(i, db)).log, Gid(id)))
  {
    BranchEvolves(s.sagas, i, db, Gid(id));
  }

  lemma BranchKept(cfg: Config, s0: State, s: State, i: nat, db: C.Db)
    requires Inv(cfg, s0, s)
    ensures Inv(cfg, s0, Step(cfg, s, Branch(i, db)))
  {
    hide Good, K.Inv, C.Step;
    var s' := Step(cfg, s, Branch(i, db));
    K.StepInv(s0.sagas, s.sagas, C.Branch(i, db));
    forall id | id in s'.reqs ensures GoodAt(cfg, s', id) {
      assert GoodAt(cfg, s, id);
      SagaEvolves(s0, s, i, db, id);
      GoodAnyway(cfg, id, s.reqs[id], s.store[EntryKey(id)], PhaseOf(s.sagas.log, Gid(id)),
                 PhaseOf(s'.sagas.log, Gid(id)), s.now, s.now);
    }
    BranchKeepsBuyer(s.sagas, i, db);
    forall j | 0 <= j < |s'.sagas.log| ensures Owned(cfg, s', s'.sagas.log[j]) {
      assert Owned(cfg, s, s.sagas.log[j]);
      var o :| Owns(cfg, s, o, s.sagas.log[j]);
      assert Owns(cfg, s', o, s'.sagas.log[j]);
    }
  }

  lemma TickKept(cfg: Config, s0: State, s: State, d: nat)
    requires Inv(cfg, s0, s)
    ensures Inv(cfg, s0, Step(cfg, s, Tick(d)))
  {
    hide Good, K.Inv;
    var s' := Step(cfg, s, Tick(d));
    forall id | id in s'.reqs ensures GoodAt(cfg, s', id) {
      assert GoodAt(cfg, s, id);
      var ph := PhaseOf(s.sagas.log, Gid(id));
      GoodAnyway(cfg, id, s.reqs[id], s.store[EntryKey(id)], ph, ph, s.now, s'.now);
    }
    forall i | 0 <= i < |s.sagas.log| ensures Owned(cfg, s', s.sagas.log[i]) {
      assert Owned(cfg, s, s.sagas.log[i]);
      var o :| Owns(cfg, s, o, s.sagas.log[i]);
      assert Owns(cfg, s', o, s.sagas.log[i]);
    }
  }

  lemma StepKept(cfg: Config, s0: State, s: State, a: Action)
    requires Inv(cfg, s0, s) && cfg.amount >= 1
    ensures Inv(cfg, s0, Step(cfg, s, a))
  {
    hide Inv, WriteStatus, Enqueue;
    match a
    case Tick(d) => TickKept(cfg, s0, s, d);
    case Create(user, nanos, fault) => EnqueueKept(cfg, s0, s, user, nanos, fault);
    case Branch(i, db) => BranchKept(cfg, s0, s, i, db);
    case Submit(id) =>
      if id in s.reqs && s.reqs[id].stage.Submitting? {
        SubmitKept(cfg, s0, s, id);
      }
    case Fail(id, detail, fault) =>
      if id in s.reqs && s.reqs[id].stage.InsertFailed? {
        WriteKept(cfg, s0, s, id, detail, fault);
      }
    case Write(id, detail, fault) =>
      if id in s.reqs && Writes(s.reqs[id].stage) {
        WriteKept(cfg, s0, s, id, detail, fault);
      }
    case _ => LocalKept(cfg, s0, s, a);
  }

  lemma {:induction false} AlwaysInv(cfg: Config, s0: State, acts: seq<Action>)
    requires Init(s0) && cfg.amount >= 1
    ensures Inv(cfg, s0, Exec(cfg, s0, acts))
  {
    if acts == [] {
      K.Always(s0.sagas, []);
    } else {
      AlwaysInv(cfg, s0, acts[..|acts| - 1]);
      StepKept(cfg, s0, Exec(cfg, s0, acts[..|acts| - 1]), acts[|acts| - 1]);
    }
  }
}
