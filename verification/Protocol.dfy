/**
 * The purchase protocol as one step machine: callers of EnqueueSeckill, the job
 * queue, the handler attempts, the request entries in Redis and the sagas over
 * both databases. One action is one atomic effect, so any sequence of actions
 * is an interleaving; an action that is not enabled changes nothing.
 *
 * Named assumptions of the machine
 *   Queue:   attempts of one job do not overlap, a job runs again only when the
 *            handler returned an error, and a failed insert inserted nothing.
 *   Reuse:   two calls that draw the same request ID both create the entry
 *            within the entry's life (the guard of Create).
 *   Sync:    only where `cfg.sync` is set: Submit answers after its saga has
 *            settled, with nil exactly for a commit and the saga's error otherwise.
 */
module Protocol {
  import opened Ints
  import opened Identifiers
  import opened RequestStore
  import opened Lifecycle
  import opened SagaRecords
  import C = Coordinator

  datatype Config = Config(product: int64, amount: int32, maxWait: int, attempts: nat, sync: bool)

  datatype Stage =
    | Created                    // entry written, enqueue time not yet read
    | Stamped                    // enqueue time read, job not yet inserted
    | InsertFailed               // FAILED about to be written by the caller
    | Rejected                   // the caller got an error
    | Queued                     // the job is available to a worker
    | Degrading                  // over budget, DEGRADED about to be written
    | Marking                    // PROCESSING about to be written
    | Submitting                 // saga about to be submitted
    | Awaiting                   // Submit called, not yet returned
    | Finishing(status: Status)  // outcome known, about to be written
    | Finished                   // the handler returned nil
    | Discarded                  // the attempts are used up

  /** Times are in nanoseconds; `history` lists the statuses written so far. */
  datatype Req = Req(
    user: int64, nanos: int, createdAt: int, stampedAt: int, startedAt: int,
    stage: Stage, tries: nat, lostSuccess: bool, lostFailure: bool, history: seq<Status>)

  datatype State = State(now: int, store: Store, reqs: map<string, Req>, sagas: C.State)

  datatype Action =
    | Tick(d: nat)
    | Create(user: int64, nanos: int, fault: bool)
    | Stamp(id: string)
    | Insert(id: string, ok: bool)
    | Fail(id: string, detail: string, fault: bool)
    | Start(id: string)
    | Write(id: string, detail: string, fault: bool)
    | Submit(id: string)
    | Respond(id: string, reply: Reply)
    | Branch(i: nat, db: C.Db)

  function Put(s: State, id: string, r: Req): State {
    s.(reqs := s.reqs[id := r])
  }

  function Enqueue(cfg: Config, s: State, user: int64, nanos: int, fault: bool): State {
    var id := RequestId(user, nanos);
    if nanos > s.now || (id in s.reqs && !Live(s.store, EntryKey(id), Millis(s.now))) then s
    else
      var request := Request(id, user, cfg.product, Waiting, "");
      var (store, err) := RequestStore.Create(s.store, EntryKey(id), request, cfg.maxWait + HOUR, Millis(s.now), fault);
      if err != Ok then s
      else
        Put(s.(store := store), id,
            Req(user, nanos, s.now, s.now, s.now, Created, 0, false, false, [Waiting]))
  }

  /** An error from the handler: the job goes back to the queue while attempts remain. */
  function Again(cfg: Config, r: Req): Req {
    r.(stage := if r.tries < cfg.attempts then Queued else Discarded)
  }

  /** What the attempt does next once its status write returned. */
  function AfterWrite(cfg: Config, r: Req, ok: bool): Req {
    match r.stage
    case Degrading => if ok then r.(stage := Finished) else Again(cfg, r)
    case Marking => if ok then r.(stage := Submitting) else Again(cfg, r)
    case Finishing(status) =>
      if ok then r.(stage := Finished)
      else if status.Success? then Again(cfg, r.(lostSuccess := true))
      else r.(stage := Finished, lostFailure := true)
    case InsertFailed => r.(stage := Rejected)
    case _ => r
  }

  function Pending(stage: Stage): Status {
    match stage
    case Degrading => Degraded
    case Marking => Processing
    case Finishing(status) => status
    case _ => Failed
  }

  predicate Writes(stage: Stage) {
    stage.Degrading? || stage.Marking? || stage.Finishing?
  }

  function WriteStatus(cfg: Config, s: State, id: string, detail: string, fault: bool): State
    requires id in s.reqs
  {
    var r := s.reqs[id];
    var status := Pending(r.stage);
    var (store, err) := Update(s.store, EntryKey(id), status, ReasonFor(status, detail), Millis(s.now), fault);
    var r' := AfterWrite(cfg, r, err == Ok);
    Put(s.(store := store), id, if err == Ok then r'.(history := r.history + [status]) else r')
  }

  function Report(phase: C.Phase): Reply {
    match phase
    case Aborted(OutOfStock) => SoldOutError
    case Aborted(LowFunds) => LowBalanceError
    case Aborted(_) => OtherError
    case _ => Accepted
  }

  predicate MayAnswer(cfg: Config, ph: MaybePhase, reply: Reply) {
    cfg.sync ==> Decided(ph) && reply == Report(ph.phase)
  }

  function Begin(cfg: Config, r: Req, now: int): Req {
    r.(startedAt := now, tries := r.tries + 1,
       stage := if Overdue(Millis(r.stampedAt), now, cfg.maxWait) then Degrading else Marking)
  }

  function Step(cfg: Config, s: State, a: Action): State {
    match a
    case Tick(d) => s.(now := s.now + d)
    case Create(user, nanos, fault) => Enqueue(cfg, s, user, nanos, fault)
    case Stamp(id) =>
      if id in s.reqs && s.reqs[id].stage.Created? then
        Put(s, id, s.reqs[id].(stage := Stamped, stampedAt := s.now, startedAt := s.now))
      else s
    case Insert(id, ok) =>
      if id in s.reqs && s.reqs[id].stage.Stamped? then
        Put(s, id, s.reqs[id].(stage := if ok then Queued else InsertFailed))
      else s
    case Fail(id, detail, fault) =>
      if id in s.reqs && s.reqs[id].stage.InsertFailed? then WriteStatus(cfg, s, id, detail, fault) else s
    case Start(id) =>
      if id in s.reqs && s.reqs[id].stage.Queued? && s.reqs[id].tries < cfg.attempts then
        Put(s, id, Begin(cfg, s.reqs[id], s.now))
      else s
    case Write(id, detail, fault) =>
      if id in s.reqs && Writes(s.reqs[id].stage) then WriteStatus(cfg, s, id, detail, fault) else s
    case Submit(id) =>
      if id in s.reqs && s.reqs[id].stage.Submitting? then
        Put(s, id, s.reqs[id].(stage := Awaiting))
        .(sagas := C.Step(s.sagas, C.Submit(Gid(id), s.reqs[id].user, cfg.product, cfg.amount)))
      else s
    case Respond(id, reply) =>
      if id in s.reqs && s.reqs[id].stage.Awaiting? && MayAnswer(cfg, PhaseOf(s.sagas.log, Gid(id)), reply) then
        Put(s, id, s.reqs[id].(stage := Finishing(Classify(reply))))
      else s
    case Branch(i, db) => s.(sagas := C.Step(s.sagas, C.Branch(i, db)))
  }

  function Exec(cfg: Config, s: State, acts: seq<Action>): State {
    if acts == [] then s
    else Step(cfg, Exec(cfg, s, acts[..|acts| - 1]), acts[|acts| - 1])
  }

  /** No request yet, any clock, any stock and any balances. */
  ghost predicate Init(s: State) {
    s.store == map[] && s.reqs == map[] && C.Fresh(s.sagas)
  }

  lemma ExecSnoc(cfg: Config, s: State, acts: seq<Action>, a: Action)
    ensures Exec(cfg, s, acts + [a]) == Step(cfg, Exec(cfg, s, acts), a)
  {
    assert (acts + [a])[..|acts|] == acts;
  }

  lemma ExecOne(cfg: Config, s: State, a: Action)
    ensures Exec(cfg, s, [a]) == Step(cfg, s, a)
  {
    ExecSnoc(cfg, s, [], a);
    assert [] + [a] == [a];
  }

  lemma {:induction false} ExecConcat(cfg: Config, s: State, acts: seq<Action>, more: seq<Action>)
    ensures Exec(cfg, s, acts + more) == Exec(cfg, Exec(cfg, s, acts), more)
  {
    hide Step;
    if more == [] {
      assert acts + more == acts;
    } else {
      var init := more[..|more| - 1];
      ExecConcat(cfg, s, acts, init);
      assert (acts + more)[..|acts + more| - 1] == acts + init;
    }
  }
}
