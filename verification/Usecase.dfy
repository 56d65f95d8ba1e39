/** EnqueueSeckill and HandleSeckill as the product service runs them. */
module Usecase {
  import opened Ints
  import opened Identifiers
  import opened RequestStore
  import opened Lifecycle
  import opened SagaClient

  datatype SeckillArgs = SeckillArgs(requestId: string, user: int64, product: int64, amount: int32, enqueuedAt: int)

  /** The job queue: seckill jobs are unique by request ID, messaging jobs are not. */
  class SeckillJobRepo {
    var jobs: map<string, SeckillArgs>
    var messages: seq<(int64, int32)>

    constructor ()
      ensures jobs == map[] && messages == []
    {
      jobs, messages := map[], [];
    }

    method InsertSeckillJob(args: SeckillArgs, fault: bool) returns (ok: bool)
      modifies this`jobs
      ensures ok == !fault
      ensures jobs == if fault || args.requestId in old(jobs) then old(jobs) else old(jobs)[args.requestId := args]
    {
      if fault {
        return false;
      }
      if args.requestId !in jobs {
        jobs := jobs[args.requestId := args];
      }
      ok := true;
    }

    method InsertMessagingJob(product: int64, amount: int32, fault: bool) returns (ok: bool)
      modifies this`messages
      ensures ok == !fault
      ensures messages == if fault then old(messages) else old(messages) + [(product, amount)]
    {
      if !fault {
        messages := messages + [(product, amount)];
      }
      ok := !fault;
    }
  }

  /**
   * What one attempt meets: the clock at its start, the Redis clock and failure
   * of its first and last status write, the coordinator's answer, the failure of
   * the messaging insert, and the text of the reason it records.
   */
  datatype Calls = Calls(
    start: int, firstWrite: int, firstFault: bool, reply: Reply, messageFault: bool,
    lastWrite: int, lastFault: bool, detail: string)

  /** The request store after an attempt, whether it returned nil, and whether it called Submit. */
  datatype Attempted = Attempted(store: Store, finished: bool, submitted: bool)

  function Attempt(st: Store, args: SeckillArgs, maxWait: int, io: Calls): Attempted {
    var key := EntryKey(args.requestId);
    if Overdue(args.enqueuedAt, io.start, maxWait) then
      var (st', err) := Update(st, key, Degraded, io.detail, io.firstWrite, io.firstFault);
      Attempted(st', err == Ok, false)
    else
      var (st1, err1) := Update(st, key, Processing, "", io.firstWrite, io.firstFault);
      if err1 != Ok then Attempted(st1, false, false)
      else
        var status := Classify(io.reply);
        var (st2, err2) :=
          Update(st1, key, status, ReasonFor(status, io.detail), io.lastWrite, io.lastFault);
        Attempted(st2, err2 == Ok || !status.Success?, true)
  }

  function StatusIn(st: Store, id: string): Status
    requires EntryKey(id) in st
  {
    st[EntryKey(id)].request.status
  }

  /**
   * What one attempt shows. A first write that fails or finds no entry ends it
   * with that error and changes nothing. A late job becomes DEGRADED. Any other
   * submits its saga, and then, if the entry still lives and the last write
   * answers, shows what the coordinator said; only a lost SUCCESS is an error.
   */
  lemma AttemptShows(st: Store, args: SeckillArgs, maxWait: int, io: Calls)
    ensures var id := args.requestId;
            var r := Attempt(st, args, maxWait, io);
            var late := io.start - args.enqueuedAt * 1_000_000 > maxWait;
            var found := EntryKey(id) in st && (st[EntryKey(id)].expiry.At? ==> io.firstWrite <= st[EntryKey(id)].expiry.ms);
            && (r.submitted <==> !io.firstFault && found && !late)
            && (io.firstFault || !found ==> !r.finished && r.store == st)
            && (!io.firstFault && found ==>
                  && EntryKey(id) in r.store && r.store - {EntryKey(id)} == st - {EntryKey(id)}
                  && (late ==> r.finished && StatusIn(r.store, id) == Degraded
                               && r.store[EntryKey(id)].request.reason == io.detail)
                  && (!late && io.lastFault ==> StatusIn(r.store, id) == Processing)
                  && (!late ==> (r.finished <==> !io.reply.Accepted? || StatusIn(r.store, id) == Success))
                  && (!late && !io.lastFault && io.lastWrite <= io.firstWrite + 1000 ==>
                        && (io.reply.Accepted? ==> StatusIn(r.store, id) == Success)
                        && (io.reply.SoldOutError? ==> StatusIn(r.store, id) == SoldOut)
                        && (io.reply.LowBalanceError? ==> StatusIn(r.store, id) == BalanceInsufficient)
                        && (io.reply.OtherError? ==> StatusIn(r.store, id) == Failed)
                        && r.store[EntryKey(id)].request.reason == (if io.reply.Accepted? then "" else io.detail)))
  {
    var key := EntryKey(args.requestId);
    if Live(st, key, io.firstWrite) && st[key].expiry.At? {
      OneTouchIff(st[key].expiry.ms, io.firstWrite);
    }
    hide EntryKey;
  }

  class ProductUsecase {
    const requests: SeckillRequestRepo
    const jobs: SeckillJobRepo
    const sagas: SAGAData
    const productId: int64
    const amount: int32
    const maxWait: int

    /** A zero product or amount in the configuration means 1. */
    constructor (requests: SeckillRequestRepo, jobs: SeckillJobRepo, sagas: SAGAData,
                 productId: int64, amount: int32, maxWait: int)
      ensures this.requests == requests && this.jobs == jobs && this.sagas == sagas && this.maxWait == maxWait
      ensures this.productId == (if productId == 0 then 1 else productId) != 0
      ensures this.amount == (if amount == 0 then 1 else amount) != 0
    {
      this.requests := requests;
      this.jobs := jobs;
      this.sagas := sagas;
      this.productId := if productId == 0 then 1 else productId;
      this.amount := if amount == 0 then 1 else amount;
      this.maxWait := maxWait;
    }

    /**
     * Creates the WAITING entry, stamps the job and inserts it. If the insert
     * fails, the entry is marked FAILED, whatever comes of that, and no job exists.
     */
    method EnqueueSeckill(user: int64, nanos: int, createAt: int, createFault: bool,
                          stamp: int, insertFault: bool, detail: string, failAt: int, failFault: bool)
      returns (id: string, err: Result, queued: bool)
      modifies requests, jobs`jobs
      ensures id == RequestId(user, nanos)
      ensures var (st, r) := Create(old(requests.redis), EntryKey(id), Request(id, user, productId, Waiting, ""),
                                    maxWait + HOUR, createAt, createFault);
              && err == r
              && queued == (err == Ok && !insertFault)
              && requests.redis ==
                 (if err == Ok && insertFault then Update(st, EntryKey(id), Failed, detail, failAt, failFault).0 else st)
      ensures jobs.jobs ==
        if queued && id !in old(jobs.jobs) then
          old(jobs.jobs)[id := SeckillArgs(id, user, productId, amount, Millis(stamp))]
        else old(jobs.jobs)
    {
      id := RequestId(user, nanos);
      queued := false;
      err := requests.CreateSeckillRequest(Request(id, user, productId, Waiting, ""), maxWait + HOUR, createAt, createFault);
      if err != Ok {
        return;
      }
      queued := jobs.InsertSeckillJob(SeckillArgs(id, user, productId, amount, Millis(stamp)), insertFault);
      if !queued {
        var _ := requests.UpdateSeckillRequest(id, Failed, detail, failAt, failFault);
      }
    }

    /** One attempt of a job; nil is reported as Ok and sends no redelivery. */
    method HandleSeckill(args: SeckillArgs, io: Calls) returns (err: Result)
      modifies requests, sagas, jobs`messages
      ensures requests.redis == Attempt(old(requests.redis), args, maxWait, io).store
      ensures err == Ok <==> Attempt(old(requests.redis), args, maxWait, io).finished
      ensures var gid := Gid(args.requestId);
              sagas.submitted ==
                if Attempt(old(requests.redis), args, maxWait, io).submitted && gid !in old(sagas.submitted) then
                  old(sagas.submitted)[gid := SeckillBranches(sagas.userAddr, sagas.prodAddr,
                                              SagaArgs(gid, args.user, args.product, args.amount))]
                else old(sagas.submitted)
      ensures jobs.messages ==
        if Attempt(old(requests.redis), args, maxWait, io).submitted && io.reply.Accepted? && !io.messageFault then
          old(jobs.messages) + [(args.product, args.amount)]
        else old(jobs.messages)
    {
      if Overdue(args.enqueuedAt, io.start, maxWait) {
        err := requests.UpdateSeckillRequest(args.requestId, Degraded, io.detail, io.firstWrite, io.firstFault);
        return;
      }
      err := requests.UpdateSeckillRequest(args.requestId, Processing, "", io.firstWrite, io.firstFault);
      if err != Ok {
        return;
      }
      var reply := ExecuteSeckill(args, io);
      if !reply.Accepted? {
        var status := Failed;
        if reply.SoldOutError? {
          status := SoldOut;
        } else if reply.LowBalanceError? {
          status := BalanceInsufficient;
        }
        var _ := requests.UpdateSeckillRequest(args.requestId, status, io.detail, io.lastWrite, io.lastFault);
        return Ok;
      }
      err := requests.UpdateSeckillRequest(args.requestId, Success, "", io.lastWrite, io.lastFault);
    }

    /** Submits the saga and, once it is reported as committed, inserts the message; a failed insert is only logged. */
    method ExecuteSeckill(args: SeckillArgs, io: Calls) returns (reply: Reply)
      modifies sagas, jobs`messages
      ensures reply == io.reply
      ensures var gid := Gid(args.requestId);
              sagas.submitted ==
                if gid in old(sagas.submitted) then old(sagas.submitted)
                else old(sagas.submitted)[gid := SeckillBranches(sagas.userAddr, sagas.prodAddr,
                                                 SagaArgs(gid, args.user, args.product, args.amount))]
      ensures jobs.messages ==
        if reply.Accepted? && !io.messageFault then old(jobs.messages) + [(args.product, args.amount)]
        else old(jobs.messages)
    {
      sagas.ExecuteSeckillSaga(SagaArgs(Gid(args.requestId), args.user, args.product, args.amount));
      reply := io.reply;
      if !reply.Accepted? {
        return;
      }
      var _ := jobs.InsertMessagingJob(args.product, args.amount, io.messageFault);
    }
  }
}
