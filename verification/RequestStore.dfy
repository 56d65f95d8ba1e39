/**
 * Request entries in Redis: creation with SET NX, the Lua script that rewrites
 * status and reason in place, and what both do to an entry's expiry.
 *
 * Redis contract (Redis itself is not part of this model): a call that returns
 * an error had no effect; the script is atomic; an entry answers until its
 * expiry instant has passed; TTL reports the remaining time in seconds, rounded
 * to the nearest, and -1 for an entry without expiry. IDs are small enough for
 * the script's JSON library to print them exactly.
 */
module RequestStore {
  import opened Ints
  import opened Identifiers

  datatype Status = Waiting | Processing | Success | SoldOut | BalanceInsufficient | Degraded | Failed

  datatype Request = Request(id: string, user: int64, product: int64, status: Status, reason: string)

  /** Milliseconds on the Redis clock. */
  datatype Expiry = Never | At(ms: int)

  datatype Entry = Entry(request: Request, expiry: Expiry)

  type Store = map<string, Entry>

  datatype Result = Ok | NotFound | Duplicate | CacheError

  const MILLI: int := 1_000_000
  const HOUR: int := 3600 * 1000 * MILLI

  function EntryKey(id: string): string {
    Render(RequestEntry(id))
  }

  predicate Alive(expiry: Expiry, now: int) {
    expiry.At? ==> now <= expiry.ms
  }

  predicate Live(st: Store, key: string, now: int) {
    key in st && Alive(st[key].expiry, now)
  }

  /** The TTL command on a live entry. */
  function Ttl(expiry: Expiry, now: int): int {
    match expiry
    case Never => -1
    case At(ms) => (ms - now + 500) / 1000
  }

  /** The client sends no expiry for 0 and -1, rounds to whole milliseconds, and at least one. */
  function ExpiryFor(ttl: int, now: int): Expiry {
    if ttl == 0 || ttl == -1 then Never
    else At(now + if ttl < MILLI then 1 else ttl / MILLI)
  }

  function Create(st: Store, key: string, request: Request, ttl: int, now: int, fault: bool): (Store, Result) {
    if fault || ttl < -1 then (st, CacheError)
    else if Live(st, key, now) then (st, Duplicate)
    else (st[key := Entry(request, ExpiryFor(ttl, now))], Ok)
  }

  function NewExpiry(expiry: Expiry, now: int): Expiry {
    var ttl := Ttl(expiry, now);
    At(now + 1000 * if ttl <= 0 then 3600 else ttl)
  }

  function Update(st: Store, key: string, status: Status, reason: string, now: int, fault: bool): (Store, Result) {
    if fault then (st, CacheError)
    else if !Live(st, key, now) then (st, NotFound)
    else
      (st[key := Entry(st[key].request.(status := status, reason := reason), NewExpiry(st[key].expiry, now))], Ok)
  }

  // ------------------------------------------------------------------- TTL drift

  datatype Touch = Touch(status: Status, reason: string, now: int)

  /** A run of updates of one entry, each by the script. */
  function Touched(st: Store, key: string, touches: seq<Touch>): Store {
    if touches == [] then st
    else
      var last := touches[|touches| - 1];
      Update(Touched(st, key, touches[..|touches| - 1]), key, last.status, last.reason, last.now, false).0
  }

  /** Every update of the run found the entry with half a second or more to live. */
  ghost predicate InTime(st: Store, key: string, touches: seq<Touch>) {
    forall k | 0 <= k < |touches| ::
      var before := Touched(st, key, touches[..k]);
      key in before && before[key].expiry.At? && touches[k].now + 500 <= before[key].expiry.ms
  }

  function Abs(x: int): nat {
    if x < 0 then -x else x
  }

  /**
   * One update moves the expiry by half a second at most, unless less than half
   * a second was left: then the reported TTL is 0 and the entry gains an hour.
   */
  lemma OneTouchIff(ms: int, now: int)
    requires now <= ms
    ensures var later := NewExpiry(At(ms), now).ms;
            && (Abs(later - ms) <= 500 <==> now + 500 <= ms)
            && (now + 500 > ms ==> later == now + 3_600_000)
            && later >= now + 1000
  {
    var ttl := Ttl(At(ms), now);
    assert 1000 * ttl <= ms - now + 500 < 1000 * ttl + 1000;
  }

  /** An entry without expiry gets an hour, like one whose reported TTL is 0. */
  lemma NeverBecomesAnHour(now: int)
    ensures NewExpiry(Never, now) == At(now + 3_600_000)
  {
  }

  lemma OneTouch(st: Store, key: string, t: Touch)
    requires key in st && st[key].expiry.At? && t.now + 500 <= st[key].expiry.ms
    ensures var (after, r) := Update(st, key, t.status, t.reason, t.now, false);
            && r == Ok && after.Keys == st.Keys && after[key].expiry.At?
            && Abs(after[key].expiry.ms - st[key].expiry.ms) <= 500
            && after[key].request == st[key].request.(status := t.status, reason := t.reason)
  {
    OneTouchIff(st[key].expiry.ms, t.now);
  }

  /** k updates drift k half-seconds at most, and the entry keeps its IDs and its key. */
  lemma {:induction false} Drift(st: Store, key: string, touches: seq<Touch>)
    requires key in st && st[key].expiry.At? && InTime(st, key, touches)
    ensures var end := Touched(st, key, touches);
            && end.Keys == st.Keys
            && end[key].expiry.At?
            && Abs(end[key].expiry.ms - st[key].expiry.ms) <= 500 * |touches|
            && end[key].request == st[key].request.(status := end[key].request.status, reason := end[key].request.reason)
  {
    if touches != [] {
      var init, last := touches[..|touches| - 1], touches[|touches| - 1];
      assert InTime(st, key, init) by {
        forall k | 0 <= k < |init|
          ensures var before := Touched(st, key, init[..k]);
                  key in before && before[key].expiry.At? && init[k].now + 500 <= before[key].expiry.ms
        {
          assert init[..k] == touches[..k];
        }
      }
      Drift(st, key, init);
      var before := Touched(st, key, init);
      assert touches[..|init|] == init;
      OneTouch(before, key, last);
      hide Update, InTime;
    }
  }

  // ------------------------------------------------------- no persistence, no revival

  datatype Call =
    | Creating(key: string, request: Request, ttl: int)
    | Updating(key: string, status: Status, reason: string)

  datatype TimedCall = TimedCall(call: Call, now: int, fault: bool)

  function Serve(st: Store, c: TimedCall): (Store, Result) {
    match c.call
    case Creating(key, request, ttl) => Create(st, key, request, ttl, c.now, c.fault)
    case Updating(key, status, reason) => Update(st, key, status, reason, c.now, c.fault)
  }

  ghost predicate NonePersistent(st: Store) {
    forall key | key in st :: st[key].expiry.At?
  }

  /**
   * A call leaves an entry without expiry behind, where there was none, exactly
   * when it is a creation that the client sends without one.
   */
  lemma PersistsIff(st: Store, c: TimedCall)
    requires NonePersistent(st)
    ensures !NonePersistent(Serve(st, c).0) <==>
      c.call.Creating? && !c.fault && !Live(st, c.call.key, c.now) && (c.call.ttl == 0 || c.call.ttl == -1)
  {
    if c.call.Creating? && !c.fault && !Live(st, c.call.key, c.now) && (c.call.ttl == 0 || c.call.ttl == -1) {
      assert Serve(st, c).0[c.call.key].expiry == Never;
    }
  }

  /** An update succeeds exactly on a live entry; it never brings back a lost one. */
  lemma UpdateNeverRevives(st: Store, key: string, status: Status, reason: string, now: int, fault: bool)
    ensures var (st', r) := Update(st, key, status, reason, now, fault);
            && (r == Ok <==> !fault && Live(st, key, now))
            && (r != Ok ==> st' == st)
            && (r == Ok ==> Live(st', key, now) && st'[key].request.id == st[key].request.id
                            && st'[key].request.user == st[key].request.user
                            && st'[key].request.product == st[key].request.product)
            && (forall other | other != key :: (other in st' <==> other in st) && (other in st ==> st'[other] == st[other]))
  {
    if Live(st, key, now) && st[key].expiry.At? {
      OneTouchIff(st[key].expiry.ms, now);
    }
  }

  // -------------------------------------------------------------------- the repository

  /** The repository object over the shared Redis database. */
  class SeckillRequestRepo {
    var redis: Store

    constructor ()
      ensures redis == map[]
    {
      redis := map[];
    }

    method CreateSeckillRequest(request: Request, ttl: int, now: int, fault: bool) returns (err: Result)
      modifies this
      ensures (redis, err) == Create(old(redis), EntryKey(request.id), request, ttl, now, fault)
      ensures var key := EntryKey(request.id);
              var taken := key in old(redis) && (old(redis)[key].expiry.At? ==> now <= old(redis)[key].expiry.ms);
              && (err == CacheError <==> fault || ttl < -1)
              && (err == Duplicate <==> !fault && ttl >= -1 && taken)
              && (err == Ok <==> !fault && ttl >= -1 && !taken)
              && (err != Ok ==> redis == old(redis))
              && (err == Ok ==>
                    && key in redis && redis - {key} == old(redis) - {key} && redis[key].request == request
                    && (ttl <= 0 ==> redis[key].expiry == Never)
                    && (ttl > 0 ==> redis[key].expiry == At(now + if ttl < 1_000_000 then 1 else ttl / 1_000_000)))
    {
      var key := EntryKey(request.id);
      if fault || ttl < -1 {
        return CacheError;
      }
      if Live(redis, key, now) {
        return Duplicate;
      }
      redis := redis[key := Entry(request, ExpiryFor(ttl, now))];
      err := Ok;
    }

    method GetSeckillRequest(id: string, now: int, fault: bool) returns (request: Request, err: Result)
      ensures err == (if fault then CacheError else if Live(redis, EntryKey(id), now) then Ok else NotFound)
      ensures err == Ok ==> request == redis[EntryKey(id)].request
      ensures var key := EntryKey(id);
              err == Ok <==> !fault && key in redis && (redis[key].expiry.At? ==> now <= redis[key].expiry.ms)
    {
      request := Request(id, 0, 0, Waiting, "");
      if fault {
        return request, CacheError;
      }
      if !Live(redis, EntryKey(id), now) {
        return request, NotFound;
      }
      return redis[EntryKey(id)].request, Ok;
    }

    /** The Lua script, line by line. */
    method UpdateScript(key: string, status: Status, reason: string, now: int) returns (result: int)
      modifies this
      ensures redis == Update(old(redis), key, status, reason, now, false).0
      ensures result == if Live(old(redis), key, now) then 1 else 0
    {
      if !Live(redis, key, now) {
        return 0;
      }
      var req := redis[key].request;
      req := req.(status := status);
      req := req.(reason := reason);
      var ttl := Ttl(redis[key].expiry, now);
      if ttl <= 0 {
        ttl := 3600;
      }
      redis := redis[key := Entry(req, At(now + 1000 * ttl))];
      result := 1;
    }

    method UpdateSeckillRequest(id: string, status: Status, reason: string, now: int, fault: bool)
      returns (err: Result)
      modifies this
      ensures (redis, err) == Update(old(redis), EntryKey(id), status, reason, now, fault)
      ensures var key := EntryKey(id);
              var found := key in old(redis) && (old(redis)[key].expiry.At? ==> now <= old(redis)[key].expiry.ms);
              && (err == CacheError <==> fault)
              && (err == NotFound <==> !fault && !found)
              && (err == Ok <==> !fault && found)
              && (err != Ok ==> redis == old(redis))
              && (err == Ok ==>
                    && key in redis && redis - {key} == old(redis) - {key}
                    && redis[key].request == old(redis)[key].request.(status := status, reason := reason))
    {
      if fault {
        return CacheError;
      }
      var n := UpdateScript(EntryKey(id), status, reason, now);
      if n == 0 {
        return NotFound;
      }
      err := Ok;
    }
  }
}
