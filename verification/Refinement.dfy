/**
 * The use case's methods are runs of the protocol machine. Between any two steps
 * of a method, others may do whatever they like: time passes, sagas move, other
 * requests are created and handled.
 */
module Refinement {
  import opened Ints
  import opened Identifiers
  import opened RequestStore
  import opened Lifecycle
  import opened SagaRecords
  import opened Protocol
  import D = Delivery
  import T = Settling
  import C = Coordinator
  import U = Usecase

  // ----------------------------------------------------------------- what others do

  /** No step of request `id`'s own caller or handler. */
  predicate Foreign(a: Action, id: string) {
    a.Tick? || a.Create? || a.Branch? || a.id != id
  }

  ghost predicate AllForeign(acts: seq<Action>, id: string) {
    forall i | 0 <= i < |acts| :: Foreign(acts[i], id)
  }

  predicate SameEntry(st: Store, st': Store, key: string) {
    (key in st <==> key in st') && (key in st ==> st'[key] == st[key])
  }

  lemma ForeignStep(cfg: Config, s: State, a: Action, id: string)
    requires id in s.reqs && Foreign(a, id)
    ensures var s' := Step(cfg, s, a);
            && id in s'.reqs && s'.reqs[id] == s.reqs[id]
            && SameEntry(s.store, s'.store, EntryKey(id)) && s.now <= s'.now
  {
    if a.Create? {
      if RequestId(a.user, a.nanos) != id {
        D.KeysDiffer(RequestId(a.user, a.nanos), id);
      }
    } else if a.Fail? || a.Write? {
      D.KeysDiffer(a.id, id);
    }
    hide EntryKey, RequestId, C.Step;
  }

  lemma {:induction false} ForeignRun(cfg: Config, s: State, acts: seq<Action>, id: string)
    requires id in s.reqs && AllForeign(acts, id)
    ensures var s' := Exec(cfg, s, acts);
            && id in s'.reqs && s'.reqs[id] == s.reqs[id]
            && SameEntry(s.store, s'.store, EntryKey(id)) && s.now <= s'.now
  {
    if acts != [] {
      var init, last := acts[..|acts| - 1], acts[|acts| - 1];
      assert AllForeign(init, id);
      ForeignRun(cfg, s, init, id);
      ForeignStep(cfg, Exec(cfg, s, init), last, id);
      hide Step, EntryKey;
    }
  }

  /** An update looks at, and changes, one entry only. */
  lemma UpdateIsLocal(st: Store, st': Store, key: string, status: Status, reason: string, now: int, fault: bool)
    requires SameEntry(st, st', key)
    ensures var (u, err) := Update(st, key, status, reason, now, fault);
            var (u', err') := Update(st', key, status, reason, now, fault);
            err' == err && SameEntry(u, u', key)
  {
  }

  // ------------------------------------------------------------------------ the handler

  /** What happens between the steps of one attempt, and how its calls fare. */
  datatype Interleaving = Interleaving(
    beforeWrite: seq<Action>, firstFault: bool, beforeSubmit: seq<Action>, whileAwaiting: seq<Action>,
    reply: Reply, beforeLast: seq<Action>, lastFault: bool, detail: string)

  ghost predicate Interleaved(h: Interleaving, id: string) {
    && AllForeign(h.beforeWrite, id) && AllForeign(h.beforeSubmit, id)
    && AllForeign(h.whileAwaiting, id) && AllForeign(h.beforeLast, id)
  }

  /** The attempt up to its first write, to its Submit, to the answer and to its end. */
  function ToWrite(cfg: Config, s: State, id: string, h: Interleaving): State {
    Exec(cfg, Step(cfg, s, Start(id)), h.beforeWrite)
  }

  function ToSubmit(cfg: Config, s: State, id: string, h: Interleaving): State {
    Exec(cfg, Step(cfg, ToWrite(cfg, s, id, h), Write(id, h.detail, h.firstFault)), h.beforeSubmit)
  }

  function ToAnswer(cfg: Config, s: State, id: string, h: Interleaving): State {
    Exec(cfg, Step(cfg, ToSubmit(cfg, s, id, h), Submit(id)), h.whileAwaiting)
  }

  function ToLast(cfg: Config, s: State, id: string, h: Interleaving): State {
    Exec(cfg, Step(cfg, ToAnswer(cfg, s, id, h), Respond(id, h.reply)), h.beforeLast)
  }

  /** The handler's steps in program order; those an early return skips are not enabled. */
  function Handle(cfg: Config, s: State, id: string, h: Interleaving): State {
    Step(cfg, ToLast(cfg, s, id, h), Write(id, h.detail, h.lastFault))
  }

  function HandlerRun(id: string, h: Interleaving): seq<Action> {
    [Start(id)] + h.beforeWrite + [Write(id, h.detail, h.firstFault)] + h.beforeSubmit
    + [Submit(id)] + h.whileAwaiting + [Respond(id, h.reply)] + h.beforeLast
    + [Write(id, h.detail, h.lastFault)]
  }

  lemma HandleIsRun(cfg: Config, s: State, id: string, h: Interleaving)
    ensures Handle(cfg, s, id, h) == Exec(cfg, s, HandlerRun(id, h))
  {
    hide Step, Exec;
    var a1 := [Start(id)];
    var a2 := a1 + h.beforeWrite;
    var a3 := a2 + [Write(id, h.detail, h.firstFault)];
    var a4 := a3 + h.beforeSubmit;
    var a5 := a4 + [Submit(id)];
    var a6 := a5 + h.whileAwaiting;
    var a7 := a6 + [Respond(id, h.reply)];
    var a8 := a7 + h.beforeLast;
    assert [] + a1 == a1;
    ExecSnoc(cfg, s, [], Start(id));
    EmptyRun(cfg, s);
    ExecConcat(cfg, s, a1, h.beforeWrite);
    ExecSnoc(cfg, s, a2, Write(id, h.detail, h.firstFault));
    ExecConcat(cfg, s, a3, h.beforeSubmit);
    ExecSnoc(cfg, s, a4, Submit(id));
    ExecConcat(cfg, s, a5, h.whileAwaiting);
    ExecSnoc(cfg, s, a6, Respond(id, h.reply));
    ExecConcat(cfg, s, a7, h.beforeLast);
    ExecSnoc(cfg, s, a8, Write(id, h.detail, h.lastFault));
  }

  lemma EmptyRun(cfg: Config, s: State)
    ensures Exec(cfg, s, []) == s
  {
  }

  function JobOf(cfg: Config, id: string, r: Req): U.SeckillArgs {
    U.SeckillArgs(id, r.user, cfg.product, cfg.amount, Millis(r.stampedAt))
  }

  /** What the method meets: each write at the instant the machine has reached. */
  function CallsOf(cfg: Config, s: State, id: string, h: Interleaving): U.Calls {
    U.Calls(s.now, Millis(ToWrite(cfg, s, id, h).now), h.firstFault, h.reply, false,
            Millis(ToLast(cfg, s, id, h).now), h.lastFault, h.detail)
  }

  function MethodResult(cfg: Config, s: State, id: string, h: Interleaving): U.Attempted
    requires id in s.reqs
  {
    U.Attempt(s.store, JobOf(cfg, id, s.reqs[id]), cfg.maxWait, CallsOf(cfg, s, id, h))
  }

  ghost predicate Ready(cfg: Config, s: State, id: string) {
    id in s.reqs && s.reqs[id].stage.Queued? && s.reqs[id].tries < cfg.attempts
  }

  predicate OverNow(stage: Stage) {
    stage.Finished? || stage.Queued? || stage.Discarded?
  }

  /** The first write, whichever it is. */
  lemma FirstWrite(cfg: Config, s: State, id: string, h: Interleaving)
    requires Ready(cfg, s, id) && Interleaved(h, id)
    ensures var t := ToSubmit(cfg, s, id, h);
            var late := Overdue(Millis(s.reqs[id].stampedAt), s.now, cfg.maxWait);
            var status := if late then Degraded else Processing;
            var (store, err) := Update(s.store, EntryKey(id), status, ReasonFor(status, h.detail),
                                       Millis(ToWrite(cfg, s, id, h).now), h.firstFault);
            && id in t.reqs && t.reqs[id].user == s.reqs[id].user
            && t.reqs[id].tries == s.reqs[id].tries + 1 && t.reqs[id].startedAt == s.now
            && SameEntry(store, t.store, EntryKey(id))
            && (err != Ok ==> t.reqs[id].stage == if t.reqs[id].tries < cfg.attempts then Queued else Discarded)
            && (err == Ok ==> if late then t.reqs[id].stage.Finished? else t.reqs[id].stage.Submitting?)
  {
    var s1 := Step(cfg, s, Start(id));
    assert s1.store == s.store && s1.reqs[id] == Begin(cfg, s.reqs[id], s.now);
    ForeignRun(cfg, s1, h.beforeWrite, id);
    var s2 := ToWrite(cfg, s, id, h);
    var s3 := Step(cfg, s2, Write(id, h.detail, h.firstFault));
    OneWrite(cfg, s2, id, h.detail, h.firstFault);
    var status := Pending(s1.reqs[id].stage);
    UpdateIsLocal(s.store, s2.store, EntryKey(id), status, ReasonFor(status, h.detail), Millis(s2.now), h.firstFault);
    ForeignRun(cfg, s3, h.beforeSubmit, id);
    hide Step, Exec, Update, ReasonFor, EntryKey, Overdue;
  }

  lemma OneWrite(cfg: Config, s: State, id: string, detail: string, fault: bool)
    requires id in s.reqs && Writes(s.reqs[id].stage)
    ensures var s' := Step(cfg, s, Write(id, detail, fault));
            var r := s.reqs[id];
            var (store, err) :=
              Update(s.store, EntryKey(id), Pending(r.stage), ReasonFor(Pending(r.stage), detail), Millis(s.now), fault);
            && s'.store == store && s'.sagas == s.sagas && s'.now == s.now
            && id in s'.reqs && s'.reqs[id].stage == AfterWrite(cfg, r, err == Ok).stage
            && s'.reqs[id].user == r.user && s'.reqs[id].tries == r.tries && s'.reqs[id].startedAt == r.startedAt
  {
    hide Update, ReasonFor;
  }

  lemma NotEnabled(cfg: Config, s: State, id: string, h: Interleaving)
    requires id in s.reqs && OverNow(s.reqs[id].stage)
    ensures Step(cfg, s, Submit(id)) == Step(cfg, s, Respond(id, h.reply))
            == Step(cfg, s, Write(id, h.detail, h.lastFault)) == s
  {
  }

  /** An attempt that is over at its first write leaves the rest to others. */
  lemma ShortAttempt(cfg: Config, s: State, id: string, h: Interleaving)
    requires Ready(cfg, s, id) && Interleaved(h, id)
    requires id in ToSubmit(cfg, s, id, h).reqs && OverNow(ToSubmit(cfg, s, id, h).reqs[id].stage)
    ensures var t, end := ToSubmit(cfg, s, id, h), Handle(cfg, s, id, h);
            && Step(cfg, t, Submit(id)) == t
            && id in end.reqs && end.reqs[id] == t.reqs[id] && SameEntry(t.store, end.store, EntryKey(id))
  {
    hide Step, EntryKey, Exec;
    var t := ToSubmit(cfg, s, id, h);
    NotEnabled(cfg, t, id, h);
    ForeignRun(cfg, t, h.whileAwaiting, id);
    NotEnabled(cfg, ToAnswer(cfg, s, id, h), id, h);
    ForeignRun(cfg, ToAnswer(cfg, s, id, h), h.beforeLast, id);
    NotEnabled(cfg, ToLast(cfg, s, id, h), id, h);
  }

  /** The longer way, through Submit. */
  lemma LongAttempt(cfg: Config, s: State, id: string, h: Interleaving)
    requires Ready(cfg, s, id) && Interleaved(h, id)
    requires id in ToSubmit(cfg, s, id, h).reqs && ToSubmit(cfg, s, id, h).reqs[id].stage.Submitting?
    requires MayAnswer(cfg, PhaseOf(ToAnswer(cfg, s, id, h).sagas.log, Gid(id)), h.reply)
    ensures var t, end := ToSubmit(cfg, s, id, h), Handle(cfg, s, id, h);
            var status := Classify(h.reply);
            var (store, err) := Update(t.store, EntryKey(id), status, ReasonFor(status, h.detail),
                                       Millis(ToLast(cfg, s, id, h).now), h.lastFault);
            && Step(cfg, t, Submit(id)).sagas
               == C.Step(t.sagas, C.Submit(Gid(id), t.reqs[id].user, cfg.product, cfg.amount))
            && id in end.reqs && SameEntry(store, end.store, EntryKey(id))
            && end.reqs[id].tries == t.reqs[id].tries && end.reqs[id].startedAt == t.reqs[id].startedAt
            && end.reqs[id].stage ==
               (if err == Ok || !status.Success? then Finished
                else if end.reqs[id].tries < cfg.attempts then Queued else Discarded)
  {
    var t := ToSubmit(cfg, s, id, h);
    SubmitStep(cfg, t, id);
    var s5 := Step(cfg, t, Submit(id));
    ForeignRun(cfg, s5, h.whileAwaiting, id);
    var s6 := ToAnswer(cfg, s, id, h);
    RespondStep(cfg, s6, id, h.reply);
    var s7 := Step(cfg, s6, Respond(id, h.reply));
    ForeignRun(cfg, s7, h.beforeLast, id);
    var s8 := ToLast(cfg, s, id, h);
    OneWrite(cfg, s8, id, h.detail, h.lastFault);
    var status := Classify(h.reply);
    UpdateIsLocal(t.store, s8.store, EntryKey(id), status, ReasonFor(status, h.detail), Millis(s8.now), h.lastFault);
    hide Step, Exec, Update, ReasonFor, EntryKey, C.Step, PhaseOf, MayAnswer;
  }

  lemma SubmitStep(cfg: Config, s: State, id: string)
    requires id in s.reqs && s.reqs[id].stage.Submitting?
    ensures var s' := Step(cfg, s, Submit(id));
            && id in s'.reqs && s'.reqs[id] == s.reqs[id].(stage := Awaiting) && s'.store == s.store
            && s'.sagas == C.Step(s.sagas, C.Submit(Gid(id), s.reqs[id].user, cfg.product, cfg.amount))
  {
    hide C.Step;
  }

  lemma RespondStep(cfg: Config, s: State, id: string, reply: Reply)
    requires id in s.reqs && s.reqs[id].stage.Awaiting? && MayAnswer(cfg, PhaseOf(s.sagas.log, Gid(id)), reply)
    ensures var s' := Step(cfg, s, Respond(id, reply));
            && id in s'.reqs && s'.reqs[id] == s.reqs[id].(stage := Finishing(Classify(reply))) && s'.store == s.store
  {
  }

  /**
   * HandleSeckill refines the machine: whatever others do between its steps, an
   * attempt leaves the request's entry, the reason included, as the method
   * leaves it; it submits the saga exactly when the method does; and the job is
   * done exactly when the method returns nil, otherwise back in the queue or out
   * of attempts. Only an attempt that submits needs an answer that Submit may give.
   */
  lemma HandlerRefines(cfg: Config, s: State, id: string, h: Interleaving)
    requires Ready(cfg, s, id) && Interleaved(h, id)
    requires MethodResult(cfg, s, id, h).submitted ==>
      MayAnswer(cfg, PhaseOf(ToAnswer(cfg, s, id, h).sagas.log, Gid(id)), h.reply)
    ensures var r := MethodResult(cfg, s, id, h);
            var t, end := ToSubmit(cfg, s, id, h), Exec(cfg, s, HandlerRun(id, h));
            && id in end.reqs && SameEntry(r.store, end.store, EntryKey(id))
            && end.reqs[id].stage ==
               (if r.finished then Finished else if end.reqs[id].tries < cfg.attempts then Queued else Discarded)
            && end.reqs[id].tries == s.reqs[id].tries + 1 && end.reqs[id].startedAt == s.now
            && Step(cfg, t, Submit(id)).sagas ==
               (if r.submitted then C.Step(t.sagas, C.Submit(Gid(id), s.reqs[id].user, cfg.product, cfg.amount))
                else t.sagas)
  {
    hide Step, Exec, Handle, HandlerRun, C.Step, Update, ReasonFor, EntryKey, ToWrite, ToSubmit, ToAnswer, ToLast, PhaseOf, MayAnswer;
    HandleIsRun(cfg, s, id, h);
    FirstWrite(cfg, s, id, h);
    var t := ToSubmit(cfg, s, id, h);
    ReasonsAgree(h.detail);
    if MethodResult(cfg, s, id, h).submitted {
      LongAttempt(cfg, s, id, h);
      var late := Overdue(Millis(s.reqs[id].stampedAt), s.now, cfg.maxWait);
      var st1 := Update(s.store, EntryKey(id), Processing, "", Millis(ToWrite(cfg, s, id, h).now), h.firstFault).0;
      var status := Classify(h.reply);
      UpdateIsLocal(st1, t.store, EntryKey(id), status, ReasonFor(status, h.detail),
                    Millis(ToLast(cfg, s, id, h).now), h.lastFault);
    } else {
      ShortAttempt(cfg, s, id, h);
    }
  }

  lemma ReasonsAgree(detail: string)
    ensures ReasonFor(Processing, detail) == "" && ReasonFor(Degraded, detail) == detail
  {
  }

  // ------------------------------------------------------------ the answer can be had

  /**
   * A submitted saga can always be brought to its end by branch calls alone, so
   * a synchronous Submit has an answer to give, a first attempt's included.
   */
  lemma SagaCanSettle(cfg: Config, s0: State, s: State, id: string) returns (branches: seq<Action>)
    requires D.Inv(cfg, s0, s) && PhaseOf(s.sagas.log, Gid(id)).Present?
    ensures AllForeign(branches, id) && (forall i | 0 <= i < |branches| :: branches[i].Branch?)
    ensures Decided(PhaseOf(Exec(cfg, s, branches).sagas.log, Gid(id)))
    decreases C.Sum(s.sagas.log, T.SagaWork())
  {
    if Decided(PhaseOf(s.sagas.log, Gid(id))) {
      branches := [];
      EmptyRun(cfg, s);
    } else {
      var a := OneBranch(cfg, s0, s, id);
      hide *;
      var rest := SagaCanSettle(cfg, s0, Step(cfg, s, a), id);
      branches := [a] + rest;
      ExecConcat(cfg, s, [a], rest);
      ExecOne(cfg, s, a);
      ConsForeign(a, rest, id);
    }
  }

  lemma OneBranch(cfg: Config, s0: State, s: State, id: string) returns (a: Action)
    requires D.Inv(cfg, s0, s) && PhaseOf(s.sagas.log, Gid(id)).Present? && !Decided(PhaseOf(s.sagas.log, Gid(id)))
    ensures a.Branch?
    ensures var s' := Step(cfg, s, a);
            && D.Inv(cfg, s0, s') && PhaseOf(s'.sagas.log, Gid(id)).Present?
            && 0 <= C.Sum(s'.sagas.log, T.SagaWork()) < C.Sum(s.sagas.log, T.SagaWork())
  {
    hide *;
    var i := T.PhaseHasIndex(s.sagas.log, Gid(id));
    a := Branch(i, C.Works);
    T.InvSagas(cfg, s0, s);
    BranchWorks(s0.sagas, s.sagas, i, Gid(id));
    D.BranchKept(cfg, s0, s, i, C.Works);
    BranchSagas(cfg, s, i);
    NoNegativeWork(C.Step(s.sagas, C.Branch(i, C.Works)).log);
  }

  lemma BranchSagas(cfg: Config, s: State, i: nat)
    ensures Step(cfg, s, Branch(i, C.Works)).sagas == C.Step(s.sagas, C.Branch(i, C.Works))
    ensures Branch(i, C.Works).Branch?
  {
    hide C.Step;
  }

  lemma BranchWorks(s0: C.State, s: C.State, i: nat, gid: string)
    requires D.K.Inv(s0, s) && i < |s.log| && PhaseOf(s.log, gid) == Present(s.log[i].phase)
    requires !Decided(PhaseOf(s.log, gid))
    ensures var s' := C.Step(s, C.Branch(i, C.Works));
            PhaseOf(s'.log, gid).Present? && C.Sum(s'.log, T.SagaWork()) < C.Sum(s.log, T.SagaWork())
  {
    T.SagaMoves(s0, s, i);
    T.BranchStepDecreases(s0, s, i, C.Works);
    BranchEvolves(s, i, C.Works, gid);
    hide C.Step, C.Sum, PhaseOf;
  }

  lemma NoNegativeWork(log: seq<C.Saga>)
    ensures C.Sum(log, T.SagaWork()) >= 0
  {
    C.SumAtLeast(log, T.SagaWork());
  }

  lemma ConsForeign(a: Action, rest: seq<Action>, id: string)
    requires a.Branch? && AllForeign(rest, id) && forall i | 0 <= i < |rest| :: rest[i].Branch?
    ensures AllForeign([a] + rest, id) && forall i | 0 <= i < |[a] + rest| :: ([a] + rest)[i].Branch?
  {
  }

  // ------------------------------------------------------------------------- enqueue

  datatype Enqueued = Enqueued(
    createFault: bool, beforeStamp: seq<Action>, beforeInsert: seq<Action>, inserted: bool,
    beforeFail: seq<Action>, detail: string, failFault: bool)

  ghost predicate Between(e: Enqueued, id: string) {
    AllForeign(e.beforeStamp, id) && AllForeign(e.beforeInsert, id) && AllForeign(e.beforeFail, id)
  }

  function Creation(cfg: Config, s: State, user: int64, nanos: int, fault: bool): (Store, Result) {
    var id := RequestId(user, nanos);
    RequestStore.Create(s.store, EntryKey(id), Request(id, user, cfg.product, Waiting, ""),
                        cfg.maxWait + HOUR, Millis(s.now), fault)
  }

  function ToStamp(cfg: Config, s: State, user: int64, nanos: int, e: Enqueued): State {
    Exec(cfg, Step(cfg, s, Create(user, nanos, e.createFault)), e.beforeStamp)
  }

  function ToInsert(cfg: Config, s: State, user: int64, nanos: int, e: Enqueued): State {
    Exec(cfg, Step(cfg, ToStamp(cfg, s, user, nanos, e), Stamp(RequestId(user, nanos))), e.beforeInsert)
  }

  function ToFail(cfg: Config, s: State, user: int64, nanos: int, e: Enqueued): State {
    Exec(cfg, Step(cfg, ToInsert(cfg, s, user, nanos, e), Insert(RequestId(user, nanos), e.inserted)), e.beforeFail)
  }

  /** A call whose creation fails ends there; a FAILED write comes only after a failed insert. */
  function EnqueueRun(cfg: Config, s: State, user: int64, nanos: int, e: Enqueued): State {
    if Creation(cfg, s, user, nanos, e.createFault).1 != Ok then Step(cfg, s, Create(user, nanos, e.createFault))
    else Step(cfg, ToFail(cfg, s, user, nanos, e), Fail(RequestId(user, nanos), e.detail, e.failFault))
  }

  function EnqueueActions(cfg: Config, s: State, user: int64, nanos: int, e: Enqueued): seq<Action> {
    var id := RequestId(user, nanos);
    if Creation(cfg, s, user, nanos, e.createFault).1 != Ok then [Create(user, nanos, e.createFault)]
    else
      [Create(user, nanos, e.createFault)] + e.beforeStamp + [Stamp(id)] + e.beforeInsert
      + [Insert(id, e.inserted)] + e.beforeFail + [Fail(id, e.detail, e.failFault)]
  }

  lemma EnqueueIsRun(cfg: Config, s: State, user: int64, nanos: int, e: Enqueued)
    ensures EnqueueRun(cfg, s, user, nanos, e) == Exec(cfg, s, EnqueueActions(cfg, s, user, nanos, e))
  {
    hide Step, Exec, Creation, RequestId;
    var id := RequestId(user, nanos);
    var a1 := [Create(user, nanos, e.createFault)];
    var a2 := a1 + e.beforeStamp;
    var a3 := a2 + [Stamp(id)];
    var a4 := a3 + e.beforeInsert;
    var a5 := a4 + [Insert(id, e.inserted)];
    var a6 := a5 + e.beforeFail;
    ExecOne(cfg, s, a1[0]);
    ExecConcat(cfg, s, a1, e.beforeStamp);
    ExecSnoc(cfg, s, a2, Stamp(id));
    ExecConcat(cfg, s, a3, e.beforeInsert);
    ExecSnoc(cfg, s, a4, Insert(id, e.inserted));
    ExecConcat(cfg, s, a5, e.beforeFail);
    ExecSnoc(cfg, s, a6, Fail(id, e.detail, e.failFault));
  }

  /**
   * EnqueueSeckill refines the machine, a duplicate ID included: if the creation
   * fails nothing changes; otherwise, whatever others do in between, the entry,
   * the stamp and the outcome are the method's, and the job is queued exactly
   * when the insert answered.
   */
  lemma EnqueueRefines(cfg: Config, s: State, user: int64, nanos: int, e: Enqueued)
    requires nanos <= s.now && Between(e, RequestId(user, nanos))
    requires RequestId(user, nanos) in s.reqs ==> Live(s.store, EntryKey(RequestId(user, nanos)), Millis(s.now))
    ensures var id := RequestId(user, nanos);
            var (st, err) := Creation(cfg, s, user, nanos, e.createFault);
            var end := Exec(cfg, s, EnqueueActions(cfg, s, user, nanos, e));
            && (err != Ok ==> end == s)
            && (err == Ok ==>
                  && id !in s.reqs && id in end.reqs
                  && end.reqs[id].createdAt == s.now
                  && end.reqs[id].stampedAt == ToStamp(cfg, s, user, nanos, e).now
                  && end.reqs[id].stage == (if e.inserted then Queued else Rejected)
                  && SameEntry(if e.inserted then st
                               else Update(st, EntryKey(id), Failed, e.detail,
                                           Millis(ToFail(cfg, s, user, nanos, e).now), e.failFault).0,
                               end.store, EntryKey(id)))
  {
    var id := RequestId(user, nanos);
    var (st, err) := Creation(cfg, s, user, nanos, e.createFault);
    CreationStep(cfg, s, user, nanos, e.createFault);
    EnqueueIsRun(cfg, s, user, nanos, e);
    hide EnqueueActions;
    if err == Ok {
      hide Exec, EntryKey, RequestId, Creation, Update;
      var s1 := Step(cfg, s, Create(user, nanos, e.createFault));
      ForeignRun(cfg, s1, e.beforeStamp, id);
      var s2 := ToStamp(cfg, s, user, nanos, e);
      StampInsert(cfg, s2, id, e);
      var s3 := Step(cfg, s2, Stamp(id));
      ForeignRun(cfg, s3, e.beforeInsert, id);
      var s4 := ToInsert(cfg, s, user, nanos, e);
      StampInsert(cfg, s4, id, e);
      var s5 := Step(cfg, s4, Insert(id, e.inserted));
      ForeignRun(cfg, s5, e.beforeFail, id);
      var s6 := ToFail(cfg, s, user, nanos, e);
      StampInsert(cfg, s6, id, e);
      UpdateIsLocal(st, s6.store, EntryKey(id), Failed, e.detail, Millis(s6.now), e.failFault);
      hide Step;
    }
  }

  lemma CreationStep(cfg: Config, s: State, user: int64, nanos: int, fault: bool)
    requires nanos <= s.now
    requires RequestId(user, nanos) in s.reqs ==> Live(s.store, EntryKey(RequestId(user, nanos)), Millis(s.now))
    ensures var id := RequestId(user, nanos);
            var (st, err) := Creation(cfg, s, user, nanos, fault);
            var s1 := Step(cfg, s, Create(user, nanos, fault));
            && (err != Ok ==> s1 == s)
            && (err == Ok ==> id !in s.reqs && id in s1.reqs && s1.store == st && s1.reqs[id].stage.Created?
                              && s1.reqs[id].createdAt == s.now)
  {
    hide EntryKey, RequestId;
  }

  /** The caller's own three steps. */
  lemma StampInsert(cfg: Config, s: State, id: string, e: Enqueued)
    requires id in s.reqs
    ensures s.reqs[id].stage.Created? ==>
      Step(cfg, s, Stamp(id)) == Put(s, id, s.reqs[id].(stage := Stamped, stampedAt := s.now, startedAt := s.now))
    ensures s.reqs[id].stage.Stamped? ==>
      Step(cfg, s, Insert(id, e.inserted)) == Put(s, id, s.reqs[id].(stage := if e.inserted then Queued else InsertFailed))
    ensures s.reqs[id].stage.Queued? ==> Step(cfg, s, Fail(id, e.detail, e.failFault)) == s
    ensures s.reqs[id].stage.InsertFailed? ==>
      var s' := Step(cfg, s, Fail(id, e.detail, e.failFault));
      && s'.store == Update(s.store, EntryKey(id), Failed, e.detail, Millis(s.now), e.failFault).0
      && id in s'.reqs && s'.reqs[id].stage.Rejected?
      && s'.reqs[id].stampedAt == s.reqs[id].stampedAt && s'.reqs[id].createdAt == s.reqs[id].createdAt
  {
    hide EntryKey, Update;
  }
}
