/** One FindByID, of a product or of a user, from its first lookup to its answer. */
module ReadThrough {
  import opened CacheAside

  /** A cached value as Redis holds it. */
  datatype Stored<V> = Stored(value: V, expiry: int)

  datatype Kept<V> = Nothing | Kept(stored: Stored<V>)

  datatype DbRow<V> = Missing | Present(value: V)

  datatype Fetched<V> = Value(value: V) | NoRow | DbFailure | CacheFailure

  /** How the calls of one FindByID fare: each flag is one call answering. */
  datatype ReadCalls = ReadCalls(lookup: bool, lock: bool, again: bool, query: bool, fill: bool, jitter: nat)

  function KeptAt<V>(cache: map<string, Stored<V>>, key: string): Kept<V> {
    if key in cache then Kept(cache[key]) else Nothing
  }

  predicate Hit<V>(kept: Kept<V>, now: int, ok: bool) {
    ok && kept.Kept? && now <= kept.stored.expiry
  }

  /** A copy lives ten minutes and up to nine more, drawn at random. */
  function CopyExpiry(now: int, jitter: nat): int {
    now + (jitter % 10) * MINUTE + 10 * MINUTE
  }

  datatype Visit<V> = Visit(kept: Kept<V>, fetched: Fetched<V>)

  /** What each call of a FindByID finds: the two lookups, the row, and the clock at the Set. */
  datatype Views<V> = Views(
    first: Kept<V>, firstAt: int, second: Kept<V>, secondAt: int, row: DbRow<V>, setAt: int)

  /** The answer, and the copy that the call sets, if it gets that far. */
  function Across<V>(v: Views<V>, io: ReadCalls): (Fetched<V>, Kept<V>) {
    if Hit(v.first, v.firstAt, io.lookup) then (Value(v.first.stored.value), Nothing)
    else if Hit(v.second, v.secondAt, io.again) then (Value(v.second.stored.value), Nothing)
    else if !io.lock then (CacheFailure, Nothing)
    else if !io.query then (DbFailure, Nothing)
    else if v.row.Missing? then (NoRow, Nothing)
    else
      (Value(v.row.value),
       if io.fill then Kept(Stored(v.row.value, CopyExpiry(v.setAt, io.jitter))) else Nothing)
  }

  /** The copy left behind and the answer when nobody interferes. */
  function Find<V>(kept: Kept<V>, row: DbRow<V>, now: int, io: ReadCalls): Visit<V> {
    var (fetched, copy) := Across(Views(kept, now, kept, now, row, now), io);
    Visit(if copy.Kept? then copy else kept, fetched)
  }

  /**
   * What the answer means: a value is a copy that was live at a lookup that
   * answered, or the row; no row, a failed query and a lock that could not be had
   * are told apart; and only a value read from the row is set.
   */
  lemma AnswersMean<V>(v: Views<V>, io: ReadCalls)
    ensures var (fetched, copy) := Across(v, io);
            var first := io.lookup && v.first.Kept? && v.firstAt <= v.first.stored.expiry;
            var second := io.again && v.second.Kept? && v.secondAt <= v.second.stored.expiry;
            && (first ==> fetched == Value(v.first.stored.value))
            && (!first && second ==> fetched == Value(v.second.stored.value))
            && (fetched == CacheFailure <==> !first && !second && !io.lock)
            && (fetched == DbFailure <==> !first && !second && io.lock && !io.query)
            && (fetched == NoRow <==> !first && !second && io.lock && io.query && v.row.Missing?)
            && (fetched.Value? && !first && !second ==> v.row == Present(fetched.value))
            && (copy.Kept? <==> fetched.Value? && !first && !second && io.fill)
            && (copy.Kept? ==>
                  && copy.stored.value == fetched.value
                  && copy.stored.expiry == v.setAt + 600_000 + 60_000 * (io.jitter % 10))
  {
  }

  // ----------------------------------------------------------------- what others do

  /** No step of call `c` itself: time, writers and other callers. */
  predicate Foreign<V>(a: Action<V>, c: nat) {
    a.Tick? || a.Write? || a.Delete? || a.c != c
  }

  ghost predicate AllForeign<V>(acts: seq<Action<V>>, c: nat) {
    forall i | 0 <= i < |acts| :: Foreign(acts[i], c)
  }

  lemma ForeignStep<V>(timely: bool, s: State<V>, a: Action<V>, c: nat)
    requires c in s.callers && Foreign(a, c)
    ensures var s' := Step(timely, s, a);
            c in s'.callers && s'.callers[c] == s.callers[c] && |s.rows| <= |s'.rows|
  {
    hide InTime, AllShared, Joined, Live;
  }

  lemma {:induction false} ForeignRun<V>(timely: bool, s: State<V>, acts: seq<Action<V>>, c: nat)
    requires c in s.callers && AllForeign(acts, c)
    ensures var s' := Exec(timely, s, acts);
            c in s'.callers && s'.callers[c] == s.callers[c] && |s.rows| <= |s'.rows|
  {
    hide Step;
    if acts != [] {
      var init, last := acts[..|acts| - 1], acts[|acts| - 1];
      assert AllForeign(init, c);
      ForeignRun(timely, s, init, c);
      ForeignStep(timely, Exec(timely, s, init), last, c);
    }
  }

  // -------------------------------------------------------- as a run of the machine

  /** What others do between the steps of one call, and whether its unlock answers. */
  datatype Meanwhile<V> = Meanwhile(
    beforeLock: seq<Action<V>>, beforeAgain: seq<Action<V>>, beforeRead: seq<Action<V>>,
    beforeSet: seq<Action<V>>, beforeUnlock: seq<Action<V>>, unlocked: bool)

  ghost predicate ByOthers<V>(m: Meanwhile<V>, c: nat) {
    && AllForeign(m.beforeLock, c) && AllForeign(m.beforeAgain, c) && AllForeign(m.beforeRead, c)
    && AllForeign(m.beforeSet, c) && AllForeign(m.beforeUnlock, c)
  }

  function LockStep<V>(c: nat, io: ReadCalls): Action<V> {
    if io.lock then Acquire(c) else AcquireFails(c, io.again)
  }

  /** The call up to its lock, second lookup, read and Set; steps that a return skips are not enabled. */
  function ToLock<V>(timely: bool, s: State<V>, c: nat, io: ReadCalls, m: Meanwhile<V>): State<V> {
    Exec(timely, Step(timely, s, Lookup(c, io.lookup)), m.beforeLock)
  }

  function ToAgain<V>(timely: bool, s: State<V>, c: nat, io: ReadCalls, m: Meanwhile<V>): State<V> {
    Exec(timely, Step(timely, ToLock(timely, s, c, io, m), LockStep(c, io)), m.beforeAgain)
  }

  function ToRead<V>(timely: bool, s: State<V>, c: nat, io: ReadCalls, m: Meanwhile<V>): State<V> {
    Exec(timely, Step(timely, ToAgain(timely, s, c, io, m), LookAgain(c, io.again)), m.beforeRead)
  }

  function ToSet<V>(timely: bool, s: State<V>, c: nat, io: ReadCalls, m: Meanwhile<V>): State<V> {
    Exec(timely, Step(timely, ToRead(timely, s, c, io, m), Read(c, io.query)), m.beforeSet)
  }

  function AfterSet<V>(timely: bool, s: State<V>, c: nat, io: ReadCalls, m: Meanwhile<V>): State<V> {
    Step(timely, ToSet(timely, s, c, io, m), Set(c, io.fill, io.jitter))
  }

  function CallEnd<V>(timely: bool, s: State<V>, c: nat, io: ReadCalls, m: Meanwhile<V>): State<V> {
    Step(timely, Exec(timely, AfterSet(timely, s, c, io, m), m.beforeUnlock), Unlock(c, m.unlocked))
  }

  function CallRun<V>(c: nat, io: ReadCalls, m: Meanwhile<V>): seq<Action<V>> {
    [Lookup(c, io.lookup)] + m.beforeLock + [LockStep(c, io)] + m.beforeAgain + [LookAgain(c, io.again)]
    + m.beforeRead + [Read(c, io.query)] + m.beforeSet + [Set(c, io.fill, io.jitter)] + m.beforeUnlock
    + [Unlock(c, m.unlocked)]
  }

  lemma CallIsRun<V>(timely: bool, s: State<V>, c: nat, io: ReadCalls, m: Meanwhile<V>)
    ensures CallEnd(timely, s, c, io, m) == Exec(timely, s, CallRun(c, io, m))
  {
    hide Step, Exec, LockStep;
    var a1: seq<Action<V>> := [Lookup(c, io.lookup)];
    var a2 := a1 + m.beforeLock;
    var a3 := a2 + [LockStep(c, io)];
    var a4 := a3 + m.beforeAgain;
    var a5 := a4 + [LookAgain(c, io.again)];
    var a6 := a5 + m.beforeRead;
    var a7 := a6 + [Read(c, io.query)];
    var a8 := a7 + m.beforeSet;
    var a9 := a8 + [Set(c, io.fill, io.jitter)];
    var a10 := a9 + m.beforeUnlock;
    ExecOne(timely, s, Lookup(c, io.lookup));
    ExecConcat(timely, s, a1, m.beforeLock);
    ExecSnoc(timely, s, a2, LockStep(c, io));
    ExecConcat(timely, s, a3, m.beforeAgain);
    ExecSnoc(timely, s, a4, LookAgain(c, io.again));
    ExecConcat(timely, s, a5, m.beforeRead);
    ExecSnoc(timely, s, a6, Read(c, io.query));
    ExecConcat(timely, s, a7, m.beforeSet);
    ExecSnoc(timely, s, a8, Set(c, io.fill, io.jitter));
    ExecConcat(timely, s, a9, m.beforeUnlock);
    ExecSnoc(timely, s, a10, Unlock(c, m.unlocked));
  }

  function KeptIn<V>(slot: Slot<V>): Kept<V> {
    match slot
    case Empty => Nothing
    case Cached(copy, _, expiry) => Kept(Stored(copy.value, expiry))
  }

  function LastRow<V>(s: State<V>): DbRow<V> {
    if |s.rows| > 0 then Present(s.rows[|s.rows| - 1].value) else Missing
  }

  /** What the call's steps find in this run. */
  function ViewsOf<V>(timely: bool, s: State<V>, c: nat, io: ReadCalls, m: Meanwhile<V>): Views<V> {
    var second := if io.lock then ToAgain(timely, s, c, io, m) else ToLock(timely, s, c, io, m);
    Views(KeptIn(s.slot), s.now, KeptIn(second.slot), second.now,
          LastRow(ToRead(timely, s, c, io, m)), ToSet(timely, s, c, io, m).now)
  }

  predicate CanLock<V>(s: State<V>) {
    s.lock.Free? || s.now > s.lock.until
  }

  /** What the machine's caller got: a value, or an error of whatever kind. */
  ghost predicate Agrees<V>(got: Answer<V>, fetched: Fetched<V>) {
    match got
    case Found(copy, _, _, _) => fetched == Value(copy.value)
    case Error => !fetched.Value?
  }

  // -------------------------------------------------------------------- single steps

  /** Once a call has returned, or is about to unlock, its remaining steps are not enabled. */
  lemma Skips<V>(timely: bool, s: State<V>, c: nat, io: ReadCalls)
    requires c in s.callers
    ensures s.callers[c].Returned? || s.callers[c].Releasing? ==>
      forall a: Action<V> |
        a == LockStep(c, io) || a == LookAgain(c, io.again) || a == Read(c, io.query) || a == Set(c, io.fill, io.jitter) ::
        var s' := Step(timely, s, a); s'.callers == s.callers && s'.slot == s.slot && s'.rows == s.rows
    ensures s.callers[c].Returned? ==> forall ok :: Step(timely, s, Unlock(c, ok)).callers == s.callers
    ensures s.callers[c].Releasing? ==>
      forall ok :: Step(timely, s, Unlock(c, ok)).callers == s.callers[c := Returned(s.callers[c].result, c, s.now, s.now)]
  {
    hide InTime, AllShared, Joined, Live, CopyExpiry;
  }

  lemma FirstStep<V>(timely: bool, s: State<V>, c: nat, ok: bool)
    requires c !in s.callers
    ensures var s' := Step(timely, s, Lookup(c, ok));
            && c in s'.callers && s'.rows == s.rows
            && if Hit(KeptIn(s.slot), s.now, ok) then
                 s'.callers[c].Returned? && Agrees(s'.callers[c].answer, Value(KeptIn(s.slot).stored.value))
               else s'.callers[c].Missed?
  {
  }

  lemma LockedStep<V>(timely: bool, s: State<V>, c: nat, io: ReadCalls)
    requires c in s.callers && s.callers[c].Missed? && (io.lock ==> CanLock(s))
    ensures var s' := Step(timely, s, LockStep(c, io));
            && c in s'.callers && s'.rows == s.rows
            && if io.lock then s'.callers[c].Locked?
               else s'.callers[c].Returned? &&
                    Agrees(s'.callers[c].answer,
                           if Hit(KeptIn(s.slot), s.now, io.again) then Value(KeptIn(s.slot).stored.value) else CacheFailure)
  {
  }

  lemma SecondStep<V>(timely: bool, s: State<V>, c: nat, ok: bool)
    requires c in s.callers && s.callers[c].Locked?
    ensures var s' := Step(timely, s, LookAgain(c, ok));
            && c in s'.callers && s'.rows == s.rows
            && if Hit(KeptIn(s.slot), s.now, ok) then
                 s'.callers[c].Releasing? && Agrees(s'.callers[c].result, Value(KeptIn(s.slot).stored.value))
               else s'.callers[c].Reading?
  {
  }

  lemma ReadStep<V>(timely: bool, s: State<V>, c: nat, ok: bool)
    requires c in s.callers && s.callers[c].Reading? && |s.rows| > 0
    ensures var s' := Step(timely, s, Read(c, ok));
            && c in s'.callers && s'.rows == s.rows
            && if ok then s'.callers[c].Filling? && LastRow(s) == Present(s'.callers[c].value)
               else s'.callers[c] == Releasing(Error)
  {
  }

  lemma SetStep<V>(timely: bool, s: State<V>, c: nat, ok: bool, jitter: nat)
    requires c in s.callers && s.callers[c].Filling?
    ensures var s' := Step(timely, s, Set(c, ok, jitter));
            && c in s'.callers && s'.callers[c].Releasing?
            && Agrees(s'.callers[c].result, Value(s.callers[c].value))
            && if ok then KeptIn(s'.slot) == Kept(Stored(s.callers[c].value, CopyExpiry(s.now, jitter)))
               else s'.slot == s.slot
  {
  }

  // ------------------------------------------------------------------------ refinement

  /** From the state before the Set on, once the call has its answer or its row. */
  lemma Finishes<V>(timely: bool, s: State<V>, c: nat, io: ReadCalls, m: Meanwhile<V>)
    requires ByOthers(m, c) && c in ToSet(timely, s, c, io, m).callers
    ensures var t, u, end := ToSet(timely, s, c, io, m), AfterSet(timely, s, c, io, m), CallEnd(timely, s, c, io, m);
            var k := t.callers[c];
            (k.Returned? || k.Releasing? || k.Filling?) ==>
              && c in end.callers && end.callers[c].Returned?
              && (k.Returned? ==> end.callers[c].answer == k.answer && u.slot == t.slot)
              && (k.Releasing? ==> end.callers[c].answer == k.result && u.slot == t.slot)
              && (k.Filling? ==>
                    && Agrees(end.callers[c].answer, Value(k.value))
                    && if io.fill then KeptIn(u.slot) == Kept(Stored(k.value, CopyExpiry(t.now, io.jitter)))
                       else u.slot == t.slot)
  {
    hide Step, Exec, CopyExpiry, LockStep, ToSet;
    var t, u := ToSet(timely, s, c, io, m), AfterSet(timely, s, c, io, m);
    Skips(timely, t, c, io);
    if t.callers[c].Filling? {
      SetStep(timely, t, c, io.fill, io.jitter);
    }
    if c in u.callers {
      ForeignRun(timely, u, m.beforeUnlock, c);
      Skips(timely, Exec(timely, u, m.beforeUnlock), c, io);
    }
  }

  /** An answer got before the lock stays the answer. */
  lemma Early<V>(timely: bool, s: State<V>, c: nat, io: ReadCalls, m: Meanwhile<V>)
    requires ByOthers(m, c) && c in ToAgain(timely, s, c, io, m).callers
    requires ToAgain(timely, s, c, io, m).callers[c].Returned?
    ensures var t := ToSet(timely, s, c, io, m); c in t.callers && t.callers[c] == ToAgain(timely, s, c, io, m).callers[c]
  {
    hide Step, Exec, LockStep, ToAgain;
    var s1 := ToAgain(timely, s, c, io, m);
    Skips(timely, s1, c, io);
    ForeignRun(timely, Step(timely, s1, LookAgain(c, io.again)), m.beforeRead, c);
    var s2 := ToRead(timely, s, c, io, m);
    Skips(timely, s2, c, io);
    ForeignRun(timely, Step(timely, s2, Read(c, io.query)), m.beforeSet, c);
  }

  /** With the lock: the second lookup, and the row if that misses. */
  lemma InLock<V>(timely: bool, s: State<V>, c: nat, io: ReadCalls, m: Meanwhile<V>)
    requires ByOthers(m, c) && c in ToAgain(timely, s, c, io, m).callers
    requires ToAgain(timely, s, c, io, m).callers[c].Locked? && |ToAgain(timely, s, c, io, m).rows| > 0
    ensures var s1, t := ToAgain(timely, s, c, io, m), ToSet(timely, s, c, io, m);
            && c in t.callers && LastRow(ToRead(timely, s, c, io, m)).Present?
            && if Hit(KeptIn(s1.slot), s1.now, io.again) then
                 t.callers[c].Releasing? && Agrees(t.callers[c].result, Value(KeptIn(s1.slot).stored.value))
               else if io.query then
                 t.callers[c].Filling? && LastRow(ToRead(timely, s, c, io, m)) == Present(t.callers[c].value)
               else t.callers[c] == Releasing(Error)
  {
    hide Step, Exec, LockStep, ToAgain, Hit, KeptIn;
    var s1 := ToAgain(timely, s, c, io, m);
    SecondStep(timely, s1, c, io.again);
    ForeignRun(timely, Step(timely, s1, LookAgain(c, io.again)), m.beforeRead, c);
    var s2 := ToRead(timely, s, c, io, m);
    Skips(timely, s2, c, io);
    if s2.callers[c].Reading? {
      ReadStep(timely, s2, c, io.query);
    }
    ForeignRun(timely, Step(timely, s2, Read(c, io.query)), m.beforeSet, c);
  }

  /** Up to the second lookup. */
  lemma Begins<V>(timely: bool, s: State<V>, c: nat, io: ReadCalls, m: Meanwhile<V>)
    requires |s.rows| > 0 && c !in s.callers && ByOthers(m, c)
    requires io.lock && !Hit(KeptIn(s.slot), s.now, io.lookup) ==> CanLock(ToLock(timely, s, c, io, m))
    ensures var v, s1 := ViewsOf(timely, s, c, io, m), ToAgain(timely, s, c, io, m);
            && c in s1.callers && |s1.rows| > 0
            && if Hit(v.first, v.firstAt, io.lookup) then
                 s1.callers[c].Returned? && Agrees(s1.callers[c].answer, Value(v.first.stored.value))
               else if io.lock then s1.callers[c].Locked?
               else s1.callers[c].Returned? &&
                    Agrees(s1.callers[c].answer,
                           if Hit(v.second, v.secondAt, io.again) then Value(v.second.stored.value) else CacheFailure)
  {
    hide Step, Exec, LockStep, Hit, KeptIn, CanLock, LastRow, ToRead, ToSet;
    FirstStep(timely, s, c, io.lookup);
    ForeignRun(timely, Step(timely, s, Lookup(c, io.lookup)), m.beforeLock, c);
    var s0 := ToLock(timely, s, c, io, m);
    Skips(timely, s0, c, io);
    if s0.callers[c].Missed? {
      LockedStep(timely, s0, c, io);
    }
    ForeignRun(timely, Step(timely, s0, LockStep(c, io)), m.beforeAgain, c);
  }

  /**
   * FindByID refines the cache-aside machine: whatever others do between its
   * steps, a call that leads its own flight returns what the method answers from
   * the same lookups and the same row, and its Set leaves the same copy, or none.
   * The lock is had only when the machine can grant it.
   */
  lemma FindIsRun<V>(timely: bool, s: State<V>, c: nat, io: ReadCalls, m: Meanwhile<V>)
    requires |s.rows| > 0 && c !in s.callers && ByOthers(m, c)
    requires io.lock && !Hit(KeptIn(s.slot), s.now, io.lookup) ==> CanLock(ToLock(timely, s, c, io, m))
    ensures var end := Exec(timely, s, CallRun(c, io, m));
            var (fetched, copy) := Across(ViewsOf(timely, s, c, io, m), io);
            && c in end.callers && end.callers[c].Returned?
            && Agrees(end.callers[c].answer, fetched)
            && if copy.Kept? then KeptIn(AfterSet(timely, s, c, io, m).slot) == copy
               else AfterSet(timely, s, c, io, m).slot == ToSet(timely, s, c, io, m).slot
  {
    hide Step, Exec, CallRun, CallEnd, AfterSet, ToLock, ToAgain, ToRead, ToSet, KeptIn, LastRow, CanLock, CopyExpiry, Hit;
    CallIsRun(timely, s, c, io, m);
    Begins(timely, s, c, io, m);
    if ToAgain(timely, s, c, io, m).callers[c].Returned? {
      Early(timely, s, c, io, m);
    } else {
      InLock(timely, s, c, io, m);
    }
    Finishes(timely, s, c, io, m);
  }
}
