/** Concrete runs of the cache-aside machine, all with every lock holder in time. */
module CacheRuns {
  import opened CacheAside
  import opened Staleness
  import opened FillSection

  function OneRow(value: int): State<int> {
    State(0, 1, [Version(value, 0, 0)], [Done(0)], Empty, Free, map[], map[])
  }

  lemma ExecThree<V>(s: State<V>, a: Action<V>, b: Action<V>, c: Action<V>)
    ensures Exec(true, s, [a, b, c]) == Step(true, Step(true, Step(true, s, a), b), c)
  {
    ExecOne(true, s, a);
    ExecSnoc(true, s, [a], b);
    ExecSnoc(true, s, [a, b], c);
    assert [a] + [b] == [a, b] && [a, b] + [c] == [a, b, c];
    hide Step, Exec;
  }

  lemma ExecFour<V>(s: State<V>, a: Action<V>, b: Action<V>, c: Action<V>, d: Action<V>)
    ensures Exec(true, s, [a, b, c, d]) == Step(true, Step(true, Step(true, Step(true, s, a), b), c), d)
  {
    ExecThree(s, a, b, c);
    ExecSnoc(true, s, [a, b, c], d);
    assert [a, b, c] + [d] == [a, b, c, d];
    hide Step, Exec;
  }

  // ------------------------------------------------------------------ single steps

  /** All but the caller's position, the lock and the slot stays, and a step passes. */
  ghost predicate Same(s: State<int>, s': State<int>) {
    && s'.now == s.now && s'.step == s.step + 1
    && s'.rows == s.rows && s'.dels == s.dels && s'.starts == s.starts
  }

  function FillCopy(s: State<int>, c: nat): Copy<int>
    requires c in s.callers && s.callers[c].Filling?
  {
    Copy(s.callers[c].value, s.callers[c].version, s.callers[c].readAt, s.callers[c].readStep, s.now)
  }

  lemma Sets(s: State<int>, c: nat, jitter: nat)
    requires c in s.callers && s.callers[c].Filling?
    ensures var s' := Step(true, s, Set(c, true, jitter));
            var k := s.callers[c];
            && Same(s, s') && s'.lock == s.lock
            && s'.callers == s.callers[c := Releasing(Found(FillCopy(s, c), k.readAt, k.readStep, Row))]
            && s'.slot == Cached(FillCopy(s, c), s.step, s.now + (jitter % 10) * MINUTE + 10 * MINUTE)
  {
  }

  lemma Unlocks(s: State<int>, c: nat)
    requires c in s.callers && s.callers[c].Releasing? && s.lock.Held? && s.lock.owner == c
    ensures var s' := Step(true, s, Unlock(c, true));
            && Same(s, s') && s'.lock.Free? && s'.slot == s.slot
            && s'.callers == s.callers[c := Returned(s.callers[c].result, c, s.now, s.now)]
  {
  }

  lemma Misses(s: State<int>, c: nat)
    requires c !in s.callers
    ensures var s' := Step(true, s, Lookup(c, false));
            && s'.callers == s.callers[c := Missed] && s'.slot == s.slot && s'.lock == s.lock && s'.now == s.now
            && s'.rows == s.rows && s'.dels == s.dels && s'.step == s.step + 1
  {
  }

  lemma Acquires(s: State<int>, c: nat)
    requires c in s.callers && s.callers[c].Missed? && s.lock.Free?
    ensures var s' := Step(true, s, Acquire(c));
            && Same(s, s') && s'.slot == s.slot && s'.lock == Held(c, s.now + LOCK_EXPIRY)
            && s'.callers == s.callers[c := Locked]
  {
  }

  lemma LooksAgain(s: State<int>, c: nat, ok: bool)
    requires c in s.callers && s.callers[c].Locked? && Live(s)
    ensures var s' := Step(true, s, LookAgain(c, ok));
            && Same(s, s') && s'.slot == s.slot && s'.lock == s.lock
            && s'.callers == s.callers[c := if ok then Releasing(Served(s)) else Reading]
  {
  }

  /** A write and, right after it, its delete. */
  lemma WritesAndDeletes(s: State<int>, y: int)
    requires |s.dels| == |s.rows|
    ensures var s1 := Step(true, s, Write(y));
            var s2 := Step(true, s1, Delete(|s.dels|, true));
            && s2.rows == s.rows + [Version(y, s.now, s.step)] && s2.dels == s.dels + [Done(s.step + 1)]
            && s2.slot.Empty? && s2.now == s.now && s2.step == s.step + 2
            && s2.lock == s.lock && s2.callers == s.callers && s2.starts == s.starts
  {
  }

  lemma Enters(s: State<int>, c: nat)
    requires c !in s.callers && s.slot.Empty?
    ensures var s' := Step(true, s, Lookup(c, true));
            && s'.callers == s.callers[c := Missed] && s'.starts == s.starts[c := Start(s.now, s.step, |s.rows|)]
            && s'.slot.Empty? && s'.lock == s.lock && s'.now == s.now && s'.rows == s.rows && s'.step == s.step + 1
  {
  }

  lemma Joins(s: State<int>, c: nat, leader: nat)
    requires c in s.callers && s.callers[c].Missed? && !Joined(s, c)
    requires leader != c && leader in s.callers && s.callers[leader].Filling?
    ensures var s' := Step(true, s, Join(c, leader));
            Same(s, s') && s'.lock == s.lock && s'.callers == s.callers[c := Following(leader)]
  {
    hide Joined;
  }

  lemma Ticks(s: State<int>, d: nat)
    requires InTime(s, s.now + d) && AllShared(s)
    ensures Step(true, s, Tick(d)) == s.(now := s.now + d, step := s.step + 1)
  {
  }

  // -------------------------------------------------------------------- the first fill

  /** Caller 1 misses, locks, looks again and reads. */
  function Reads(): seq<Action<int>> {
    [Lookup(1, true), Acquire(1), LookAgain(1, true), Read(1, true)]
  }

  function AfterReads(x: int): State<int> {
    State(0, 5, [Version(x, 0, 0)], [Done(0)], Empty, Held(1, LOCK_EXPIRY), map[1 := Filling(x, 0, 0, 4)],
          map[1 := Start(0, 1, 1)])
  }

  lemma ReadsRun(x: int)
    ensures Exec(true, OneRow(x), Reads()) == AfterReads(x)
  {
    ExecFour(OneRow(x), Lookup(1, true), Acquire(1), LookAgain(1, true), Read(1, true));
    hide Exec;
    var s1 := Step(true, OneRow(x), Lookup(1, true));
    assert s1.callers == map[1 := Missed];
    var s2 := Step(true, s1, Acquire(1));
    assert s2.callers == map[1 := Locked];
    var s3 := Step(true, s2, LookAgain(1, true));
    assert s3.callers == map[1 := Reading];
  }

  // -------------------------------------------------------------------- a stale fill

  /** A writer writes and deletes before the reader fills. */
  function Overtaken(y: int): seq<Action<int>> {
    [Write(y), Delete(1, true), Set(1, true, 0)]
  }

  ghost predicate StaleThoughClean(s: State<int>) {
    && |s.rows| == |s.dels| == 2
    && (forall w | 0 <= w < |s.dels| :: s.dels[w].Done?)
    && Live(s) && s.slot.copy.value == s.rows[0].value != s.rows[1].value
  }

  /**
   * "After its delete, a write is never masked by the cache" is false even when
   * every call succeeds and every lock holder is in time: a fill that read before
   * the write and sets after its delete leaves the old value in place.
   */
  lemma StaleWithoutFailure(x: int, y: int)
    requires x != y
    ensures Init(OneRow(x)) && StaleThoughClean(Exec(true, OneRow(x), Reads() + Overtaken(y)))
  {
    ExecConcat(true, OneRow(x), Reads(), Overtaken(y));
    ReadsRun(x);
    ExecThree(AfterReads(x), Write(y), Delete(1, true), Set(1, true, 0));
    WritesAndDeletes(AfterReads(x), y);
    Sets(Step(true, Step(true, AfterReads(x), Write(y)), Delete(1, true)), 1, 0);
    hide Exec, Step;
  }

  // ---------------------------------------------------------------- an old answer

  /** A second call joins after the write and its delete, and shares the value read before. */
  function JoinsLate(y: int): seq<Action<int>> {
    [Write(y), Delete(1, true), Lookup(2, true), Join(2, 1)]
  }

  function Lands(): seq<Action<int>> {
    [Set(1, true, 0), Unlock(1, true), Share(2)]
  }

  ghost predicate OldForFollower(s: State<int>, y: int) {
    && |s.rows| == 2 && HasAnswer(s, 2) && 2 in s.starts && OlderThanStart(s, 2)
    && s.callers[2].answer.source.Row?
    && s.rows[1].value == y != s.callers[2].answer.copy.value
  }

  /** No cached copy is needed for that: a call may return a value overwritten before the call began. */
  lemma FollowerGetsOldRow(x: int, y: int)
    requires x != y
    ensures Init(OneRow(x)) && OldForFollower(Exec(true, OneRow(x), Reads() + JoinsLate(y) + Lands()), y)
  {
    ExecConcat(true, OneRow(x), Reads() + JoinsLate(y), Lands());
    ExecConcat(true, OneRow(x), Reads(), JoinsLate(y));
    ReadsRun(x);
    FollowerJoins(x, y);
    FollowerLands(x, y, Exec(true, AfterReads(x), JoinsLate(y)));
  }

  ghost predicate FollowerWaits(s: State<int>, x: int, y: int) {
    && s.rows == [Version(x, 0, 0), Version(y, 0, 5)]
    && s.lock == Held(1, LOCK_EXPIRY)
    && s.callers == map[1 := Filling(x, 0, 0, 4), 2 := Following(1)]
    && s.starts == map[1 := Start(0, 1, 1), 2 := Start(0, 7, 2)]
  }

  lemma FollowerLands(x: int, y: int, s: State<int>)
    requires x != y && FollowerWaits(s, x, y)
    ensures OldForFollower(Exec(true, s, Lands()), y)
  {
    ExecThree(s, Set(1, true, 0), Unlock(1, true), Share(2));
    hide Exec;
    Sets(s, 1, 0);
    var s9 := Step(true, s, Set(1, true, 0));
    Unlocks(s9, 1);
    var s10 := Step(true, s9, Unlock(1, true));
    Shares(s10, 2, 1);
    hide Step;
  }

  lemma Shares(s: State<int>, c: nat, leader: nat)
    requires c in s.callers && s.callers[c] == Following(leader) && leader in s.callers && s.callers[leader].Returned?
    ensures var s' := Step(true, s, Share(c));
            && Same(s, s')
            && s'.callers == s.callers[c := Returned(s.callers[leader].answer, leader, s.callers[leader].at, s.now)]
  {
  }

  lemma FollowerJoins(x: int, y: int)
    ensures FollowerWaits(Exec(true, AfterReads(x), JoinsLate(y)), x, y)
  {
    ExecFour(AfterReads(x), Write(y), Delete(1, true), Lookup(2, true), Join(2, 1));
    WritesAndDeletes(AfterReads(x), y);
    var s2 := Step(true, Step(true, AfterReads(x), Write(y)), Delete(1, true));
    Enters(s2, 2);
    var s3 := Step(true, s2, Lookup(2, true));
    NobodyFollows(s3, x);
    Joins(s3, 2, 1);
    hide Exec, Step;
  }

  lemma NobodyFollows(s: State<int>, x: int)
    requires s.callers == map[1 := Filling(x, 0, 0, 4), 2 := Missed]
    ensures !Joined(s, 2)
  {
  }

  // ------------------------------------------------------------- the bound is attained

  /** The reader takes its 5 s and the copy gets 19 minutes; a second caller finds it at the last instant. */
  function SlowFill(): seq<Action<int>> {
    [Tick(LOCK_EXPIRY), Set(1, true, 9), Unlock(1, true), Tick(LONGEST_LIFE)]
  }

  function SlowHit(): seq<Action<int>> {
    [Lookup(2, false), Acquire(2), LookAgain(2, true), Tick(LOCK_EXPIRY)]
  }

  lemma SlowFillRun(x: int)
    ensures var s := Exec(true, AfterReads(x), SlowFill());
            && s.slot.Cached? && s.now == LOCK_EXPIRY + LONGEST_LIFE == s.slot.expiry && s.lock.Free?
            && s.slot.copy == Copy(x, 0, 0, 4, LOCK_EXPIRY)
            && s.callers.Keys == {1} && s.callers[1].Returned?
  {
    ExecFour(AfterReads(x), Tick(LOCK_EXPIRY), Set(1, true, 9), Unlock(1, true), Tick(LONGEST_LIFE));
    hide Exec;
    assert InTime(AfterReads(x), LOCK_EXPIRY) && AllShared(AfterReads(x));
    Ticks(AfterReads(x), LOCK_EXPIRY);
    var s1 := Step(true, AfterReads(x), Tick(LOCK_EXPIRY));
    Sets(s1, 1, 9);
    var s2 := Step(true, s1, Set(1, true, 9));
    Unlocks(s2, 1);
    var s3 := Step(true, s2, Unlock(1, true));
    hide Step;
    assert s3.callers.Keys == {1} && s3.callers[1].Returned?;
    Ticks(s3, LONGEST_LIFE);
  }

  lemma SlowHitRun(s: State<int>)
    requires s.slot.Cached? && s.now == s.slot.expiry && s.lock.Free? && s.callers.Keys == {1} && s.callers[1].Returned?
    ensures var t := Step(true, Exec(true, s, SlowHit()), Unlock(2, true));
            && HasAnswer(t, 2) && t.callers[2].answer.copy == s.slot.copy && t.callers[2].at == s.now + LOCK_EXPIRY
  {
    ExecFour(s, Lookup(2, false), Acquire(2), LookAgain(2, true), Tick(LOCK_EXPIRY));
    hide Exec;
    Misses(s, 2);
    var s1 := Step(true, s, Lookup(2, false));
    Acquires(s1, 2);
    var s2 := Step(true, s1, Acquire(2));
    LooksAgain(s2, 2, true);
    var s3 := Step(true, s2, LookAgain(2, true));
    Ticks(s3, LOCK_EXPIRY);
    Unlocks(Step(true, s3, Tick(LOCK_EXPIRY)), 2);
    hide Step;
  }

  /** Nothing better than 19 minutes and 10 seconds can be promised: here an answer is that old. */
  lemma BoundAttained(x: int)
    ensures var s := Exec(true, OneRow(x), Reads() + SlowFill() + SlowHit() + [Unlock(2, true)]);
            && Init(OneRow(x)) && HasAnswer(s, 2)
            && s.callers[2].at - s.callers[2].answer.copy.readAt == 1_150_000
  {
    ReadsRun(x);
    SlowFillRun(x);
    var s8 := Exec(true, AfterReads(x), SlowFill());
    SlowHitRun(s8);
    ExecConcat(true, OneRow(x), Reads(), SlowFill());
    ExecConcat(true, OneRow(x), Reads() + SlowFill(), SlowHit());
    ExecSnoc(true, OneRow(x), Reads() + SlowFill() + SlowHit(), Unlock(2, true));
    hide Exec, Step, Reads, SlowFill, SlowHit;
  }

  // ---------------------------------------------------- two reads and one failed lookup

  /** The copy is set and stays; the second caller's lookups both fail. */
  function Blind(): seq<Action<int>> {
    [Set(1, true, 0), Unlock(1, true), Lookup(2, false)] + [Acquire(2), LookAgain(2, false), Read(2, true)]
  }

  /** Between the reads at 3 and 9, the failed lookup at 8 is all that disturbs the cache. */
  lemma FailedLookupAlone(x: int)
    ensures var acts := Reads() + Blind();
            && Init(OneRow(x)) && |acts| == 10
            && ReadsRow(Exec(true, OneRow(x), acts[..3]), acts[3])
            && ReadsRow(Exec(true, OneRow(x), acts[..9]), acts[9])
            && (forall k | 3 < k < 9 :: Disturbs(Exec(true, OneRow(x), acts[..k]), acts[k]) <==> k == 8)
            && Live(Exec(true, OneRow(x), acts[..9]))
  {
    ReadsRun(x);
    BlindRun(x);
    var acts := Reads() + Blind();
    assert acts[..4] == Reads();
    ReadsAt3(x);
    assert acts[..3] == Reads()[..3];
    forall k | 4 <= k <= 9
      ensures Exec(true, OneRow(x), acts[..k]) == Exec(true, AfterReads(x), Blind()[..k - 4])
    {
      assert acts[..k] == Reads() + Blind()[..k - 4];
      ExecConcat(true, OneRow(x), Reads(), Blind()[..k - 4]);
    }
    forall k | 4 <= k < 10 ensures acts[k] == Blind()[k - 4] {
    }
    hide Exec, Disturbs, ReadsRow, Live;
    forall k | 3 < k < 9 ensures Disturbs(Exec(true, OneRow(x), acts[..k]), acts[k]) <==> k == 8 {
      assert Disturbs(Exec(true, AfterReads(x), Blind()[..k - 4]), Blind()[k - 4]) <==> k - 4 == 4;
    }
  }

  lemma ReadsAt3(x: int)
    ensures ReadsRow(Exec(true, OneRow(x), Reads()[..3]), Reads()[3])
  {
    assert Reads()[..3] == [Lookup(1, true), Acquire(1), LookAgain(1, true)];
    ExecThree(OneRow(x), Lookup(1, true), Acquire(1), LookAgain(1, true));
    hide Exec;
    var s1 := Step(true, OneRow(x), Lookup(1, true));
    assert s1.callers == map[1 := Missed];
    var s2 := Step(true, s1, Acquire(1));
    assert s2.callers == map[1 := Locked];
  }

  lemma Prefix<V>(s: State<V>, acts: seq<Action<V>>, k: nat)
    requires k < |acts|
    ensures Exec(true, s, acts[..k + 1]) == Step(true, Exec(true, s, acts[..k]), acts[k])
  {
    assert acts[..k + 1] == acts[..k] + [acts[k]];
    ExecSnoc(true, s, acts[..k], acts[k]);
    hide Exec, Step;
  }

  function BlindAfter(x: int, k: nat): State<int>
    requires k <= 5
  {
    if k == 0 then AfterReads(x) else Step(true, BlindAfter(x, k - 1), Blind()[k - 1])
  }

  lemma BlindRun(x: int)
    ensures forall k | 0 <= k < 5 :: Disturbs(Exec(true, AfterReads(x), Blind()[..k]), Blind()[k]) <==> k == 4
    ensures var s := Exec(true, AfterReads(x), Blind()[..5]); Live(s) && ReadsRow(s, Blind()[5])
  {
    forall k | 0 <= k <= 5 ensures Exec(true, AfterReads(x), Blind()[..k]) == BlindAfter(x, k) {
      BlindIs(x, k);
    }
    BlindSteps(x);
    hide Exec, BlindAfter, Blind, Disturbs, ReadsRow, Live;
  }

  lemma {:induction false} BlindIs(x: int, k: nat)
    requires k <= 5
    ensures Exec(true, AfterReads(x), Blind()[..k]) == BlindAfter(x, k)
  {
    if k > 0 {
      BlindIs(x, k - 1);
      Prefix(AfterReads(x), Blind(), k - 1);
      hide Exec, Step;
    }
  }

  lemma BlindSteps(x: int)
    ensures forall k | 0 <= k < 5 :: Disturbs(BlindAfter(x, k), Blind()[k]) <==> k == 4
    ensures Live(BlindAfter(x, 5)) && ReadsRow(BlindAfter(x, 5), Blind()[5])
  {
    var s0 := AfterReads(x);
    Sets(s0, 1, 0);
    var s1 := Step(true, s0, Set(1, true, 0));
    Unlocks(s1, 1);
    var s2 := Step(true, s1, Unlock(1, true));
    Misses(s2, 2);
    var s3 := Step(true, s2, Lookup(2, false));
    Acquires(s3, 2);
    var s4 := Step(true, s3, Acquire(2));
    LooksAgain(s4, 2, false);
    var s5 := Step(true, s4, LookAgain(2, false));
    assert BlindAfter(x, 0) == s0 && BlindAfter(x, 1) == s1 && BlindAfter(x, 2) == s2;
    assert BlindAfter(x, 3) == s3 && BlindAfter(x, 4) == s4 && BlindAfter(x, 5) == s5;
    hide Step, BlindAfter;
  }
}
