/**
 * Cache-aside reads of one row (FindByID of a product or of a user, which have
 * the same shape) racing with writers that update the row and then delete the
 * cached copy. One action is one call to Redis, to the lock or to the database;
 * every action is one step, and steps order what happens at the same instant.
 *
 * Named assumptions of the machine
 *   Lock:   the lock is granted to one caller at a time and may be granted again
 *           once its 5 s have passed; unlocking frees it only for its holder, and
 *           a failed unlock, which nobody notices, leaves it to its expiry.
 *   Redis:  an entry answers until its expiry instant has passed.
 *   Flight: a caller can join a flight until the call that leads it returns, and
 *           a call that others have joined joins nobody else.
 *   Timely: only where `timely` is set: nobody is still between lock and unlock
 *           when the 5 s have passed, and a joined call gets the result at the
 *           instant the leading call returns (the guard of Tick).
 */
module CacheAside {
  const MINUTE: int := 60_000
  const LOCK_EXPIRY: int := 5_000
  const LONGEST_LIFE: int := 19 * MINUTE

  /** A value of the row, the instant (in milliseconds) it was written, and the step. */
  datatype Version<V> = Version(value: V, since: int, step: nat)

  /** The delete that follows a write. */
  datatype Del = Pending | Failed | Done(at: nat)

  /** A copy of the row: which version, when and as which step it was read, and when it was set. */
  datatype Copy<V> = Copy(value: V, version: nat, readAt: int, readStep: nat, setAt: int)

  datatype Slot<V> = Empty | Cached(copy: Copy<V>, step: nat, expiry: int)

  /** Where an answer was taken from; a cached copy had been set as step `setStep`. */
  datatype Source = Row | Cache(setStep: nat)

  datatype Answer<V> = Error | Found(copy: Copy<V>, servedAt: int, servedStep: nat, source: Source)

  datatype Lock = Free | Held(owner: nat, until: int)

  datatype Caller<V> =
    | Missed                                                        // the first lookup missed
    | Following(leader: nat)                                        // waiting for another call's flight
    | Locked                                                        // in the lock, about to look again
    | Reading                                                       // about to read the row
    | Filling(value: V, version: nat, readAt: int, readStep: nat)   // about to fill the cache
    | Releasing(result: Answer<V>)                                  // about to unlock
    | Returned(answer: Answer<V>, leader: nat, landed: int, at: int)

  /** When a call began, and how many versions of the row there were. */
  datatype Start = Start(at: int, step: nat, rows: nat)

  /** A call that followed nobody is its own leader, and its flight landed when it returned. */
  datatype State<V> = State(
    now: int, step: nat, rows: seq<Version<V>>, dels: seq<Del>, slot: Slot<V>,
    lock: Lock, callers: map<nat, Caller<V>>, starts: map<nat, Start>)

  datatype Action<V> =
    | Tick(d: nat)
    | Write(value: V)
    | Delete(w: nat, ok: bool)
    | Lookup(c: nat, ok: bool)
    | Acquire(c: nat)
    | AcquireFails(c: nat, ok: bool)
    | LookAgain(c: nat, ok: bool)
    | Read(c: nat, ok: bool)
    | Set(c: nat, ok: bool, jitter: nat)
    | Unlock(c: nat, ok: bool)
    | Join(c: nat, leader: nat)
    | Share(c: nat)

  predicate Live<V>(s: State<V>) {
    s.slot.Cached? && s.now <= s.slot.expiry
  }

  predicate InSection<V>(k: Caller<V>) {
    k.Locked? || k.Reading? || k.Filling? || k.Releasing?
  }

  predicate Follows<V>(s: State<V>, f: nat, c: nat) {
    f in s.callers && s.callers[f].Following? && s.callers[f].leader == c
  }

  predicate Joined<V>(s: State<V>, c: nat) {
    exists f | f in s.callers :: Follows(s, f, c)
  }

  /** Nobody between lock and unlock is caught by the lock's expiry. */
  predicate InTime<V>(s: State<V>, later: int) {
    forall c | c in s.callers && InSection(s.callers[c]) :: s.lock.Held? && later <= s.lock.until
  }

  /** Nobody waits for a call that has returned. */
  predicate AllShared<V>(s: State<V>) {
    forall f | f in s.callers && s.callers[f].Following? ::
      s.callers[f].leader in s.callers ==> !s.callers[s.callers[f].leader].Returned?
  }

  function Served<V>(s: State<V>): Answer<V>
    requires s.slot.Cached?
  {
    Found(s.slot.copy, s.now, s.step, Cache(s.slot.step))
  }

  function Put<V>(s: State<V>, c: nat, k: Caller<V>): State<V> {
    s.(callers := s.callers[c := k])
  }

  /** Caller `c`, who followed nobody, returns. */
  function Return<V>(s: State<V>, c: nat, answer: Answer<V>): State<V> {
    Put(s, c, Returned(answer, c, s.now, s.now))
  }

  function Act<V>(timely: bool, s: State<V>, a: Action<V>): State<V> {
    match a
    case Tick(d) =>
      if timely && !(InTime(s, s.now + d) && AllShared(s)) then s else s.(now := s.now + d)
    case Write(value) =>
      s.(rows := s.rows + [Version(value, s.now, s.step)], dels := s.dels + [Pending])
    case Delete(w, ok) =>
      if w >= |s.dels| || !s.dels[w].Pending? then s
      else if ok then s.(dels := s.dels[w := Done(s.step)], slot := Empty)
      else s.(dels := s.dels[w := Failed])
    case Lookup(c, ok) =>
      if c in s.callers then s
      else
        var s' := s.(starts := s.starts[c := Start(s.now, s.step, |s.rows|)]);
        if ok && Live(s) then Return(s', c, Served(s)) else Put(s', c, Missed)
    case Acquire(c) =>
      if c in s.callers && s.callers[c].Missed? && (s.lock.Free? || s.now > s.lock.until) then
        Put(s, c, Locked).(lock := Held(c, s.now + LOCK_EXPIRY))
      else s
    case AcquireFails(c, ok) =>
      if c in s.callers && s.callers[c].Missed? then
        Return(s, c, if ok && Live(s) then Served(s) else Error)
      else s
    case LookAgain(c, ok) =>
      if c in s.callers && s.callers[c].Locked? then
        Put(s, c, if ok && Live(s) then Releasing(Served(s)) else Reading)
      else s
    case Read(c, ok) =>
      if c in s.callers && s.callers[c].Reading? && |s.rows| > 0 then
        var last := |s.rows| - 1;
        Put(s, c, if ok then Filling(s.rows[last].value, last, s.now, s.step) else Releasing(Error))
      else s
    case Set(c, ok, jitter) =>
      if c in s.callers && s.callers[c].Filling? then
        var k := s.callers[c];
        var copy := Copy(k.value, k.version, k.readAt, k.readStep, s.now);
        var s' := Put(s, c, Releasing(Found(copy, k.readAt, k.readStep, Row)));
        if ok then s'.(slot := Cached(copy, s.step, s.now + (jitter % 10) * MINUTE + 10 * MINUTE)) else s'
      else s
    case Unlock(c, ok) =>
      if c in s.callers && s.callers[c].Releasing? then
        Return(s, c, s.callers[c].result)
        .(lock := if ok && s.lock.Held? && s.lock.owner == c then Free else s.lock)
      else s
    case Join(c, leader) =>
      if c in s.callers && s.callers[c].Missed? && !Joined(s, c) && leader != c && leader in s.callers &&
         (s.callers[leader].Missed? || InSection(s.callers[leader])) then
        Put(s, c, Following(leader))
      else s
    case Share(c) =>
      if c in s.callers && s.callers[c].Following? && s.callers[c].leader in s.callers &&
         s.callers[s.callers[c].leader].Returned? then
        var leader := s.callers[c].leader;
        Put(s, c, Returned(s.callers[leader].answer, leader, s.callers[leader].at, s.now))
      else s
  }

  function Step<V>(timely: bool, s: State<V>, a: Action<V>): State<V> {
    Act(timely, s, a).(step := s.step + 1)
  }

  function Exec<V>(timely: bool, s: State<V>, acts: seq<Action<V>>): State<V> {
    if acts == [] then s
    else Step(timely, Exec(timely, s, acts[..|acts| - 1]), acts[|acts| - 1])
  }

  /** One row, nothing cached, no caller. */
  ghost predicate Init<V>(s: State<V>) {
    && |s.rows| == 1 && s.rows[0].since <= s.now && s.rows[0].step == 0
    && s.dels == [Done(0)] && s.step >= 1
    && s.slot.Empty? && s.lock.Free? && s.callers == map[] && s.starts == map[]
  }

  lemma ExecSnoc<V>(timely: bool, s: State<V>, acts: seq<Action<V>>, a: Action<V>)
    ensures Exec(timely, s, acts + [a]) == Step(timely, Exec(timely, s, acts), a)
  {
    assert (acts + [a])[..|acts|] == acts;
  }

  lemma ExecOne<V>(timely: bool, s: State<V>, a: Action<V>)
    ensures Exec(timely, s, [a]) == Step(timely, s, a)
  {
    hide Step;
    assert [a][..0] == [];
  }

  lemma {:induction false} ExecConcat<V>(timely: bool, s: State<V>, acts: seq<Action<V>>, more: seq<Action<V>>)
    ensures Exec(timely, s, acts + more) == Exec(timely, Exec(timely, s, acts), more)
  {
    hide Step;
    if more == [] {
      assert acts + more == acts;
    } else {
      var init := more[..|more| - 1];
      ExecConcat(timely, s, acts, init);
      assert (acts + more)[..|acts + more| - 1] == acts + init;
    }
  }

  // ------------------------------------------------------------ locks and deletes

  /** Only its holder's successful unlock frees a lock before it expires. */
  lemma LockFreedOnlyByHolder<V>(timely: bool, s: State<V>, a: Action<V>)
    requires s.lock.Held? && s.now <= s.lock.until
    ensures Step(timely, s, a).lock == s.lock ||
      (a == Unlock(s.lock.owner, true) && Step(timely, s, a).lock.Free?)
    ensures a == Unlock(s.lock.owner, true) && s.lock.owner in s.callers && s.callers[s.lock.owner].Releasing? ==>
      Step(timely, s, a).lock.Free?
  {
  }

  /** A write's delete is called once: whether it answers or fails, it is not called again. */
  lemma DeletedOnce<V>(timely: bool, s: State<V>, a: Action<V>, w: nat)
    requires w < |s.dels|
    ensures var s' := Step(timely, s, a);
            && w < |s'.dels|
            && (!s.dels[w].Pending? ==> s'.dels[w] == s.dels[w])
            && (a == Delete(w, true) && s.dels[w].Pending? ==> s'.dels[w] == Done(s.step) && s'.slot.Empty?)
            && (a == Delete(w, false) && s.dels[w].Pending? ==> s'.dels[w] == Failed && s'.slot == s.slot)
  {
    hide Joined, InTime, AllShared, Live;
  }

  /** A flight can be joined until its leader returns, the wait for the lock included. */
  lemma JoinsUntilReturn<V>(timely: bool, s: State<V>, c: nat, leader: nat)
    requires c in s.callers && s.callers[c].Missed? && !Joined(s, c)
    requires leader in s.callers && leader != c && !s.callers[leader].Following?
    ensures var s' := Step(timely, s, Join(c, leader));
            s'.callers == if s.callers[leader].Returned? then s.callers else s.callers[c := Following(leader)]
  {
    hide Joined;
  }
}
