/** What the lock gives while its holders finish in time: one fill at a time, and fresher answers. */
module FillSection {
  import opened CacheAside
  import opened Staleness

  // ------------------------------------------------------------------- one at a time

  /** In time, whoever is between lock and unlock is the lock's holder, hence alone. */
  ghost predicate Exclusive<V>(s: State<V>) {
    && (forall c | c in s.callers && InSection(s.callers[c]) ::
          s.lock.Held? && s.lock.owner == c && s.now <= s.lock.until)
    && (s.lock.Held? ==> s.lock.until <= s.now + LOCK_EXPIRY)
  }

  ghost predicate SomeoneFills<V>(s: State<V>) {
    exists c :: c in s.callers && s.callers[c].Filling?
  }

  /** This action reads the row, and gets an answer if `ok`. */
  ghost predicate ReadsRow<V>(s: State<V>, a: Action<V>) {
    a.Read? && a.c in s.callers && s.callers[a.c].Reading? && |s.rows| > 0
  }

  /** This action empties the cache or bypasses it: a delete, an expiry, a failed Set or a failed lookup. */
  ghost predicate Disturbs<V>(s: State<V>, a: Action<V>) {
    match a
    case Tick(_) => Live(s) && !Live(Step(true, s, a))
    case Delete(w, ok) => ok && w < |s.dels| && s.dels[w].Pending?
    case LookAgain(c, ok) => !ok && c in s.callers && s.callers[c].Locked?
    case Set(c, ok, _) => !ok && c in s.callers && s.callers[c].Filling?
    case _ => false
  }

  /** Nothing has disturbed the cache since the row was last read. */
  ghost predicate Calm<V>(s0: State<V>, acts: seq<Action<V>>) {
    acts != [] &&
    var init, last := acts[..|acts| - 1], acts[|acts| - 1];
    var s := Exec(true, s0, init);
    (ReadsRow(s, last) && last.ok) || (!Disturbs(s, last) && Calm(s0, init))
  }

  /** While calm, the copy last read is cached or about to be, so nobody reads the row. */
  ghost predicate Settled<V>(s: State<V>, calm: bool) {
    && (calm ==> Live(s) || SomeoneFills(s))
    && (forall c | c in s.callers && s.callers[c].Reading? :: !calm)
  }

  lemma StepExclusive<V>(s: State<V>, a: Action<V>)
    requires Exclusive(s)
    ensures Exclusive(Step(true, s, a))
  {
  }

  lemma AloneInSection<V>(s: State<V>, c: nat)
    requires Exclusive(s) && c in s.callers && InSection(s.callers[c])
    ensures SomeoneFills(s) ==> s.callers[c].Filling?
  {
    assert forall f | f in s.callers && InSection(s.callers[f]) :: f == c;
  }

  lemma StepCalm<V>(s: State<V>, a: Action<V>)
    requires Exclusive(s) && Settled(s, true) && !Disturbs(s, a)
    ensures Settled(Step(true, s, a), true)
  {
    var s' := Step(true, s, a);
    forall c | c in s'.callers ensures !s'.callers[c].Reading? {
      if c in s.callers && InSection(s.callers[c]) {
        AloneInSection(s, c);
      }
    }
    if !Live(s') {
      assert SomeoneFills(s);
      var c :| c in s.callers && s.callers[c].Filling?;
      assert c in s'.callers && s'.callers[c].Filling?;
    }
  }

  /** After the row is read, its reader fills and nobody else is in the section. */
  lemma ReadCalms<V>(s: State<V>, a: Action<V>)
    requires Exclusive(s) && ReadsRow(s, a) && a.ok
    ensures Settled(Step(true, s, a), true)
  {
    var s' := Step(true, s, a);
    assert s'.callers[a.c].Filling?;
    StepExclusive(s, a);
    assert forall c | c in s'.callers && InSection(s'.callers[c]) :: c == s'.lock.owner;
  }

  lemma {:induction false} AlwaysExclusive<V>(s0: State<V>, acts: seq<Action<V>>)
    requires Init(s0)
    ensures Exclusive(Exec(true, s0, acts)) && Settled(Exec(true, s0, acts), Calm(s0, acts))
  {
    if acts != [] {
      var init, last := acts[..|acts| - 1], acts[|acts| - 1];
      AlwaysExclusive(s0, init);
      var s := Exec(true, s0, init);
      StepExclusive(s, last);
      if ReadsRow(s, last) && last.ok {
        ReadCalms(s, last);
      } else if Calm(s0, acts) {
        StepCalm(s, last);
      }
      hide Step, Exclusive, Disturbs;
    }
  }

  /** From a read on, it stays calm until something disturbs the cache. */
  lemma {:induction false} CalmSince<V>(s0: State<V>, acts: seq<Action<V>>, i: nat, n: nat)
    requires i < n <= |acts|
    requires ReadsRow(Exec(true, s0, acts[..i]), acts[i]) && acts[i].ok
    requires forall k | i < k < n :: !Disturbs(Exec(true, s0, acts[..k]), acts[k])
    ensures Calm(s0, acts[..n])
  {
    hide Exec, Disturbs;
    assert acts[..n][..n - 1] == acts[..n - 1];
    if i < n - 1 {
      CalmSince(s0, acts, i, n - 1);
    }
  }

  /**
   * While lock holders finish in time, at most one caller of all processes is
   * between lock and unlock; and between a read that got the row and any later
   * read something empties the cache or bypasses it: a delete, an expiry, a
   * failed Set, or a second lookup that Redis fails to answer.
   */
  lemma SingleFill<V>(s0: State<V>, acts: seq<Action<V>>, c: nat, d: nat, i: nat, j: nat)
    requires Init(s0) && i < j < |acts|
    ensures var s := Exec(true, s0, acts);
            c in s.callers && d in s.callers && InSection(s.callers[c]) && InSection(s.callers[d]) ==> c == d
    ensures ReadsRow(Exec(true, s0, acts[..i]), acts[i]) && acts[i].ok &&
            ReadsRow(Exec(true, s0, acts[..j]), acts[j]) ==>
              exists k :: i < k < j && Disturbs(Exec(true, s0, acts[..k]), acts[k])
  {
    AlwaysExclusive(s0, acts);
    AlwaysExclusive(s0, acts[..j]);
    hide Exec, Disturbs, Calm;
    if ReadsRow(Exec(true, s0, acts[..i]), acts[i]) && acts[i].ok &&
       forall k | i < k < j :: !Disturbs(Exec(true, s0, acts[..k]), acts[k]) {
      CalmSince(s0, acts, i, j);
    }
  }

  // ------------------------------------------------------------------- prompt answers

  predicate PromptCopy<V>(copy: Copy<V>) {
    copy.setAt - copy.readAt <= LOCK_EXPIRY
  }

  ghost predicate PromptCaller<V>(s: State<V>, k: Caller<V>) {
    match k
    case Filling(_, _, readAt, _) => s.lock.Held? && s.lock.until <= readAt + LOCK_EXPIRY
    case Releasing(result) =>
      result.Found? ==>
        PromptCopy(result.copy) && s.lock.Held? && s.lock.until <= result.servedAt + LOCK_EXPIRY
    case Following(leader) => leader in s.callers && s.callers[leader].Returned? ==> s.callers[leader].at == s.now
    case Returned(answer, _, landed, at) =>
      landed == at && (answer.Found? ==> PromptCopy(answer.copy) && landed <= answer.servedAt + LOCK_EXPIRY)
    case _ => true
  }

  ghost predicate Prompt<V>(s: State<V>) {
    && (s.slot.Cached? ==> PromptCopy(s.slot.copy))
    && (forall c | c in s.callers :: PromptCaller(s, s.callers[c]))
  }

  lemma StepPromptFollower<V>(s: State<V>, a: Action<V>, c: nat)
    requires CallsGood(s) && Prompt(s) && c in Step(true, s, a).callers && Step(true, s, a).callers[c].Following?
    ensures PromptCaller(Step(true, s, a), Step(true, s, a).callers[c])
  {
    LeaderMoves(true, s, a, c);
    assert PromptCaller(s, s.callers[c]);
    if a.Tick? && s.callers[c].Following? {
      assert s.callers[s.callers[c].leader].Returned? ==> !AllShared(s);
    }
    hide CallsGood, Joined;
  }

  lemma StepPromptCaller<V>(s: State<V>, a: Action<V>, c: nat)
    requires Exclusive(s) && Prompt(s) && c in Step(true, s, a).callers && !Step(true, s, a).callers[c].Following?
    ensures PromptCaller(Step(true, s, a), Step(true, s, a).callers[c])
  {
    var s' := Step(true, s, a);
    if c in s.callers {
      assert PromptCaller(s, s.callers[c]);
      assert InSection(s.callers[c]) ==> s.lock.Held? && s.lock.owner == c;
      if s.callers[c].Following? && s.callers[c].leader in s.callers {
        assert PromptCaller(s, s.callers[s.callers[c].leader]);
      }
    }
    hide Joined, AllShared, Prompt, Exclusive, PromptCopy;
  }

  lemma StepPrompt<V>(s: State<V>, a: Action<V>)
    requires CallsGood(s) && Exclusive(s) && Prompt(s)
    ensures Prompt(Step(true, s, a))
  {
    var s' := Step(true, s, a);
    SlotPrompt(s, a);
    hide Step, CallsGood, Exclusive;
    forall c | c in s'.callers ensures PromptCaller(s', s'.callers[c]) {
      if s'.callers[c].Following? {
        StepPromptFollower(s, a, c);
      } else {
        StepPromptCaller(s, a, c);
      }
    }
  }

  lemma SlotPrompt<V>(s: State<V>, a: Action<V>)
    requires Exclusive(s) && Prompt(s)
    ensures Step(true, s, a).slot.Cached? ==> PromptCopy(Step(true, s, a).slot.copy)
  {
    if a.Set? && a.c in s.callers && s.callers[a.c].Filling? {
      assert PromptCaller(s, s.callers[a.c]) && InSection(s.callers[a.c]);
    }
  }

  lemma {:induction false} AlwaysPrompt<V>(s0: State<V>, acts: seq<Action<V>>)
    requires Init(s0)
    ensures Prompt(Exec(true, s0, acts))
  {
    if acts != [] {
      var init, last := acts[..|acts| - 1], acts[|acts| - 1];
      AlwaysPrompt(s0, init);
      AlwaysExclusive(s0, init);
      AlwaysInTime(true, s0, init);
      StepPrompt(Exec(true, s0, init), last);
    }
  }

  /**
   * With lock holders in time, an answer is at most 19 minutes and 10 seconds
   * old when its call returns: the entry's life, the fill's latency and the time
   * in the section. It was served at most 5 seconds before the return, hence at
   * most 5 seconds before the call began, and in no case before it if the call
   * joined no other.
   */
  lemma TimelyStaleness<V>(s0: State<V>, acts: seq<Action<V>>, c: nat)
    requires Init(s0) && HasAnswer(Exec(true, s0, acts), c)
    ensures var s := Exec(true, s0, acts);
            var Returned(answer, leader, landed, at) := s.callers[c];
            var copy := answer.copy;
            && RowAt(s.rows, copy.version, copy.readAt, copy.readStep)
            && copy.value == s.rows[copy.version].value
            && 0 <= at - copy.readAt <= 1_150_000
            && (answer.source.Row? ==> at - copy.readAt <= 5_000)
            && c in s.starts && s.starts[c].at <= landed == at
            && s.starts[c].at - 5_000 <= answer.servedAt <= at
            && (leader == c ==> s.starts[c].at <= answer.servedAt)
  {
    BoundedStaleness(true, s0, acts, c);
    AlwaysPrompt(s0, acts);
    AlwaysSound(true, s0, acts);
    assert PromptCaller(Exec(true, s0, acts), Exec(true, s0, acts).callers[c]);
    assert CopyGood(Exec(true, s0, acts), Exec(true, s0, acts).callers[c]);
    hide Exec, Init, Sound;
  }
}
