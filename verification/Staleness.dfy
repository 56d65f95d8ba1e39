/** How old the answers and the copy of a cache-aside row can be, in every run. */
module Staleness {
  import opened CacheAside

  // -------------------------------------------------------------- rows and copies

  /** Version `v` was the row at instant `t`, as of step `n`. */
  ghost predicate RowAt<V>(rows: seq<Version<V>>, v: nat, t: int, n: nat) {
    && v < |rows|
    && rows[v].since <= t && rows[v].step < n
    && (v + 1 < |rows| ==> t <= rows[v + 1].since && n < rows[v + 1].step)
  }

  ghost predicate RowsOrdered<V>(s: State<V>) {
    && |s.dels| == |s.rows| > 0
    && (forall v | 0 <= v < |s.rows| :: s.rows[v].since <= s.now && s.rows[v].step < s.step)
    && (forall v, w | 0 <= v < w < |s.rows| :: s.rows[v].step < s.rows[w].step)
    && (forall w | 0 <= w < |s.dels| && s.dels[w].Done? :: s.dels[w].at < s.step)
  }

  /** A copy was read from the row: its value is the version's and the version was current. */
  ghost predicate Genuine<V>(s: State<V>, copy: Copy<V>) {
    && RowAt(s.rows, copy.version, copy.readAt, copy.readStep)
    && copy.value == s.rows[copy.version].value
    && copy.readAt <= copy.setAt <= s.now
    && copy.readStep < s.step
  }

  /** Why the cached copy can miss write `w`. */
  ghost predicate Excused<V>(s: State<V>, w: nat)
    requires s.slot.Cached? && w < |s.dels|
  {
    match s.dels[w]
    case Pending => true                      // its delete is still to come
    case Failed => true                       // its delete failed
    case Done(at) => at < s.slot.step         // the fill read before the write, set after its delete
  }

  ghost predicate SlotGood<V>(s: State<V>) {
    s.slot.Cached? ==>
      && Genuine(s, s.slot.copy)
      && s.slot.step < s.step
      && s.slot.copy.setAt + 10 * MINUTE <= s.slot.expiry <= s.slot.copy.setAt + LONGEST_LIFE
      && (forall w | s.slot.copy.version < w < |s.dels| :: Excused(s, w))
  }

  /** Why an answer served as step `served` from a copy set as step `set` can miss write `w`. */
  ghost predicate NotDeletedBetween<V>(s: State<V>, w: nat, set_: nat, served: nat)
    requires w < |s.dels|
  {
    s.dels[w].Done? ==> s.dels[w].at < set_ || served < s.dels[w].at
  }

  ghost predicate AnswerGood<V>(s: State<V>, answer: Answer<V>) {
    answer.Found? ==>
      && |s.dels| == |s.rows|
      && Genuine(s, answer.copy)
      && answer.copy.readAt <= answer.servedAt <= s.now
      && answer.copy.readStep <= answer.servedStep < s.step
      && match answer.source
         case Row => answer.servedAt == answer.copy.readAt && answer.servedStep == answer.copy.readStep
         case Cache(set_) =>
           && answer.copy.setAt <= answer.servedAt <= answer.copy.setAt + LONGEST_LIFE
           && (forall w | answer.copy.version < w < |s.rows| && s.rows[w].step < answer.servedStep ::
                 NotDeletedBetween(s, w, set_, answer.servedStep))
  }

  ghost predicate CopyGood<V>(s: State<V>, k: Caller<V>) {
    match k
    case Filling(value, version, readAt, readStep) =>
      && RowAt(s.rows, version, readAt, readStep) && value == s.rows[version].value
      && readAt <= s.now && readStep < s.step
    case Releasing(result) => AnswerGood(s, result)
    case Returned(answer, _, _, _) => AnswerGood(s, answer)
    case _ => true
  }

  ghost predicate CopiesGood<V>(s: State<V>) {
    forall c | c in s.callers :: CopyGood(s, s.callers[c])
  }

  ghost predicate Sound<V>(s: State<V>) {
    RowsOrdered(s) && SlotGood(s) && CopiesGood(s)
  }

  // -------------------------------------------------------------- what later steps keep

  /** Deletes only complete after now, and rows are only added, now. */
  ghost predicate Later<V>(s: State<V>, s': State<V>) {
    && s.now <= s'.now && s.step < s'.step
    && s.rows <= s'.rows && |s.dels| <= |s'.dels| == |s'.rows|
    && (forall v | |s.rows| <= v < |s'.rows| :: s'.rows[v].since == s.now && s'.rows[v].step == s.step)
    && (forall w | 0 <= w < |s.dels| :: s'.dels[w] == s.dels[w] || !s'.dels[w].Done? || s'.dels[w].at == s.step)
  }

  lemma GenuineLater<V>(s: State<V>, s': State<V>, copy: Copy<V>)
    requires Genuine(s, copy) && Later(s, s')
    ensures Genuine(s', copy)
  {
  }

  lemma AnswerLater<V>(s: State<V>, s': State<V>, answer: Answer<V>)
    requires AnswerGood(s, answer) && Later(s, s')
    ensures AnswerGood(s', answer)
  {
    if answer.Found? {
      GenuineLater(s, s', answer.copy);
      hide Genuine;
    }
  }

  lemma CopyLater<V>(s: State<V>, s': State<V>, k: Caller<V>)
    requires CopyGood(s, k) && Later(s, s')
    ensures CopyGood(s', k)
  {
    if k.Releasing? {
      AnswerLater(s, s', k.result);
    } else if k.Returned? {
      AnswerLater(s, s', k.answer);
    }
    hide AnswerGood;
  }

  lemma StepLater<V>(timely: bool, s: State<V>, a: Action<V>)
    requires RowsOrdered(s)
    ensures Later(s, Step(timely, s, a))
  {
    hide InTime, AllShared, Joined, Live;
  }

  lemma StepRows<V>(timely: bool, s: State<V>, a: Action<V>)
    requires RowsOrdered(s)
    ensures RowsOrdered(Step(timely, s, a))
  {
    hide InTime, AllShared, Joined, Live;
  }

  // ---------------------------------------------------------------------- the slot

  /** A fill sets a copy that is excused for every write made since its read. */
  lemma FillsSlot<V>(timely: bool, s: State<V>, a: Action<V>)
    requires Sound(s) && a.Set? && a.ok && a.c in s.callers && s.callers[a.c].Filling?
    ensures SlotGood(Step(timely, s, a))
  {
    assert CopyGood(s, s.callers[a.c]);
    var s' := Step(timely, s, a);
    assert Genuine(s', s'.slot.copy);
    assert forall w | 0 <= w < |s'.dels| :: Excused(s', w);
  }

  lemma KeepsSlot<V>(s: State<V>, s': State<V>)
    requires SlotGood(s) && s'.slot == s.slot && Later(s, s')
    requires forall w | 0 <= w < |s'.dels| ::
      if w < |s.dels| then s'.dels[w] == s.dels[w] || s'.dels[w].Failed? else s'.dels[w].Pending?
    ensures SlotGood(s')
  {
    if s.slot.Cached? {
      GenuineLater(s, s', s.slot.copy);
      forall w | s.slot.copy.version < w < |s'.dels| ensures Excused(s', w) {
        assert w < |s.dels| ==> Excused(s, w);
      }
    }
  }

  lemma StepSlot<V>(timely: bool, s: State<V>, a: Action<V>)
    requires Sound(s)
    ensures SlotGood(Step(timely, s, a))
  {
    var s' := Step(timely, s, a);
    StepLater(timely, s, a);
    if a.Set? && a.ok && a.c in s.callers && s.callers[a.c].Filling? {
      FillsSlot(timely, s, a);
    } else if !(a.Delete? && a.ok && s'.slot.Empty?) {
      KeepsSlot(s, s');
    }
  }

  // -------------------------------------------------------------------- the answers

  lemma ServedGood<V>(s: State<V>, s': State<V>)
    requires RowsOrdered(s) && SlotGood(s) && Live(s) && Later(s, s') && s'.dels == s.dels
    ensures AnswerGood(s', Served(s))
  {
    GenuineLater(s, s', s.slot.copy);
    var answer := Served(s);
    forall w | answer.copy.version < w < |s'.rows| && s'.rows[w].step < answer.servedStep
      ensures NotDeletedBetween(s', w, s.slot.step, answer.servedStep)
    {
      assert w < |s.dels| && Excused(s, w);
    }
    hide Genuine;
  }

  /** What a caller between its read and its Set will answer. */
  function Read0<V>(s: State<V>, k: Caller<V>): Answer<V>
    requires k.Filling?
  {
    Found(Copy(k.value, k.version, k.readAt, k.readStep, s.now), k.readAt, k.readStep, Row)
  }

  lemma FilledGood<V>(s: State<V>, s': State<V>, k: Caller<V>)
    requires k.Filling? && CopyGood(s, k) && Later(s, s')
    ensures AnswerGood(s', Read0(s, k))
  {
    GenuineLater(s, s', Read0(s, k).copy);
  }

  function JustRead<V>(s: State<V>): Caller<V>
    requires |s.rows| > 0
  {
    Filling(s.rows[|s.rows| - 1].value, |s.rows| - 1, s.now, s.step)
  }

  /** A caller's new position is its old one or comes from the cache, the row or a leader. */
  lemma CallerMoves<V>(timely: bool, s: State<V>, a: Action<V>, c: nat)
    requires |s.rows| > 0 && c in Step(timely, s, a).callers
    ensures var k' := Step(timely, s, a).callers[c];
            || (c in s.callers && k' == s.callers[c])
            || k'.Missed? || k'.Following? || k'.Locked? || k'.Reading?
            || (Live(s) && Step(timely, s, a).dels == s.dels &&
                (k' == Returned(Served(s), c, s.now, s.now) || k' == Releasing(Served(s))))
            || k' == Returned(Error, c, s.now, s.now) || k' == Releasing(Error)
            || (k' == JustRead(s) && Step(timely, s, a).rows == s.rows)
            || (c in s.callers && s.callers[c].Filling? && k' == Releasing(Read0(s, s.callers[c])))
            || (c in s.callers && s.callers[c].Releasing? && k' == Returned(s.callers[c].result, c, s.now, s.now))
            || (c in s.callers && s.callers[c].Following? &&
                var leader := s.callers[c].leader;
                leader in s.callers && s.callers[leader].Returned? &&
                k' == Returned(s.callers[leader].answer, leader, s.callers[leader].at, s.now))
  {
  }

  lemma FreshReadGood<V>(s: State<V>, s': State<V>)
    requires RowsOrdered(s) && Later(s, s') && s'.rows == s.rows
    ensures CopyGood(s', JustRead(s))
  {
  }

  lemma StepCopies<V>(timely: bool, s: State<V>, a: Action<V>)
    requires Sound(s)
    ensures CopiesGood(Step(timely, s, a))
  {
    var s' := Step(timely, s, a);
    hide Step, Sound, CopyGood;
    forall c | c in s'.callers ensures CopyGood(s', s'.callers[c]) {
      StepCopy(timely, s, a, c);
    }
  }

  lemma StepCopy<V>(timely: bool, s: State<V>, a: Action<V>, c: nat)
    requires Sound(s) && c in Step(timely, s, a).callers
    ensures CopyGood(Step(timely, s, a), Step(timely, s, a).callers[c])
  {
    hide Step, Sound, Later, AnswerGood, SlotGood, CopiesGood, RowsOrdered, Live;
    var s' := Step(timely, s, a);
    SoundParts(s);
    StepLater(timely, s, a);
    CallerMoves(timely, s, a, c);
    if Live(s) && s'.dels == s.dels {
      ServedGood(s, s');
    }
    if s'.rows == s.rows {
      FreshReadGood(s, s');
    }
    if c in s.callers {
      OldCopyLater(s, s', c);
    }
    ErrorGood(s');
    hide Served, Read0, JustRead;
  }

  lemma SoundParts<V>(s: State<V>)
    requires Sound(s)
    ensures RowsOrdered(s) && |s.rows| > 0 && SlotGood(s) && CopiesGood(s)
  {
  }

  lemma ErrorGood<V>(s: State<V>)
    ensures AnswerGood(s, Error)
  {
  }

  /** A caller's own copy, the one it is about to fill, and its leader's. */
  lemma OldCopyLater<V>(s: State<V>, s': State<V>, c: nat)
    requires CopiesGood(s) && Later(s, s') && c in s.callers
    ensures CopyGood(s', s.callers[c])
    ensures s.callers[c].Filling? ==> AnswerGood(s', Read0(s, s.callers[c]))
    ensures s.callers[c].Following? && s.callers[c].leader in s.callers ==>
      CopyGood(s', s.callers[s.callers[c].leader])
  {
    hide Later, AnswerGood, Genuine, RowAt;
    CopyLater(s, s', s.callers[c]);
    if s.callers[c].Filling? {
      FilledGood(s, s', s.callers[c]);
    } else if s.callers[c].Following? && s.callers[c].leader in s.callers {
      CopyLater(s, s', s.callers[s.callers[c].leader]);
    }
  }

  lemma {:induction false} AlwaysSound<V>(timely: bool, s0: State<V>, acts: seq<Action<V>>)
    requires Init(s0)
    ensures Sound(Exec(timely, s0, acts))
  {
    if acts != [] {
      var init, last := acts[..|acts| - 1], acts[|acts| - 1];
      AlwaysSound(timely, s0, init);
      StepRows(timely, Exec(timely, s0, init), last);
      StepSlot(timely, Exec(timely, s0, init), last);
      StepCopies(timely, Exec(timely, s0, init), last);
    }
  }

  // ----------------------------------------------------------------- the cached copy

  /** Some write the cached copy misses has its delete pending, failed or overtaken by the fill. */
  ghost predicate HasExcuse<V>(s: State<V>) {
    exists w :: 0 <= w < |s.dels| && s.slot.Cached? && s.slot.copy.version < w && Excused(s, w)
  }

  ghost predicate Outdated<V>(s: State<V>) {
    s.slot.Cached? && s.slot.copy.version + 1 < |s.rows|
  }

  /**
   * In every reachable state the cached copy is outdated exactly when some later
   * write's delete failed, or is still pending, or came before a fill that had
   * read the row before that write; and then that holds of every missed write.
   * What carries the proof is that an outdated copy is excused; a copy that
   * misses some write is outdated by definition.
   */
  lemma OutdatedIff<V>(timely: bool, s0: State<V>, acts: seq<Action<V>>)
    requires Init(s0)
    ensures var s := Exec(timely, s0, acts);
            && |s.dels| == |s.rows| > 0
            && (Outdated(s) <==> HasExcuse(s))
            && (Outdated(s) ==> forall w | s.slot.copy.version < w < |s.rows| :: Excused(s, w))
            && (s.slot.Cached? && s.slot.copy.value != s.rows[|s.rows| - 1].value ==> HasExcuse(s))
  {
    AlwaysSound(timely, s0, acts);
    var s := Exec(timely, s0, acts);
    if Outdated(s) {
      assert Excused(s, |s.rows| - 1);
    }
  }

  // ------------------------------------------------------------------ calls in time

  /** A call has a start, and the row's versions at that start are the ones counted there. */
  ghost predicate Started<V>(s: State<V>, c: nat) {
    && c in s.starts
    && s.starts[c].at <= s.now && s.starts[c].step < s.step
    && 0 < s.starts[c].rows <= |s.rows|
    && (forall w | 0 <= w < |s.rows| :: s.rows[w].step < s.starts[c].step <==> w < s.starts[c].rows)
    && (forall w | 0 <= w < |s.rows| :: s.rows[w].step != s.starts[c].step)
  }

  /** An answer taken by call `c` was served no earlier than the call began. */
  ghost predicate ServedSince<V>(s: State<V>, c: nat, answer: Answer<V>)
    requires c in s.starts
  {
    answer.Found? ==> s.starts[c].at <= answer.servedAt && s.starts[c].step <= answer.servedStep
  }

  ghost predicate CallGood<V>(s: State<V>, c: nat, k: Caller<V>) {
    && Started(s, c)
    && match k
       case Filling(_, _, readAt, readStep) => s.starts[c].at <= readAt && s.starts[c].step < readStep
       case Releasing(result) => ServedSince(s, c, result)
       case Following(leader) =>
         && leader in s.callers && leader != c && !s.callers[leader].Following?
         && (s.callers[leader].Returned? ==>
               s.callers[leader].leader == leader && s.starts[c].at <= s.callers[leader].at)
       case Returned(answer, leader, landed, at) =>
         && leader in s.starts && ServedSince(s, leader, answer)
         && s.starts[c].at <= landed <= at <= s.now
         && (leader == c ==> landed == at)
         && (answer.Found? ==> answer.servedAt <= landed)
       case _ => true
  }

  ghost predicate CallsGood<V>(s: State<V>) {
    && s.starts.Keys == s.callers.Keys
    && (forall c | c in s.callers :: CallGood(s, c, s.callers[c]))
  }

  lemma StartedLater<V>(s: State<V>, s': State<V>, c: nat)
    requires Started(s, c) && Later(s, s') && c in s'.starts && s'.starts[c] == s.starts[c]
    ensures Started(s', c)
  {
  }

  lemma StartsStay<V>(timely: bool, s: State<V>, a: Action<V>)
    requires s.starts.Keys == s.callers.Keys
    ensures var s' := Step(timely, s, a);
            && s'.starts.Keys == s'.callers.Keys && s.starts.Keys <= s'.starts.Keys
            && (forall c | c in s.starts :: s'.starts[c] == s.starts[c])
            && (forall c | c in s'.starts && c !in s.starts :: s'.starts[c] == Start(s.now, s.step, |s.rows|))
  {
    hide InTime, AllShared, Joined, Live;
  }

  lemma AllStarted<V>(timely: bool, s: State<V>, a: Action<V>, c: nat)
    requires RowsOrdered(s) && CallsGood(s) && c in Step(timely, s, a).callers
    ensures Started(Step(timely, s, a), c)
  {
    hide CallsGood, Live, InTime, AllShared, Joined;
    var s' := Step(timely, s, a);
    SameStarts(timely, s, a);
    if c in s.callers {
      SectionStarted(s, c);
      StepLater(timely, s, a);
      hide Step, RowsOrdered;
      StartedLater(s, s', c);
    } else {
      assert a.Lookup? && s'.rows == s.rows;
    }
  }

  /** Followers: the leader stays a leader, and lands after its followers began. */
  lemma StepFollower<V>(timely: bool, s: State<V>, a: Action<V>, c: nat)
    requires CallsGood(s) && c in Step(timely, s, a).callers && Step(timely, s, a).callers[c].Following?
    requires Started(Step(timely, s, a), c)
    ensures CallGood(Step(timely, s, a), c, Step(timely, s, a).callers[c])
  {
    hide Step, Started, CallsGood;
    LeaderMoves(timely, s, a, c);
    TimeFlows(timely, s, a);
    SectionStarted(s, c);
    if s.callers[c].Following? {
      SharedGood(s, c);
    }
    hide ServedSince, CallsGood;
  }

  /** A follower and its leader from one step to the next. */
  lemma LeaderMoves<V>(timely: bool, s: State<V>, a: Action<V>, c: nat)
    requires CallsGood(s) && c in Step(timely, s, a).callers && Step(timely, s, a).callers[c].Following?
    ensures var s' := Step(timely, s, a);
            var leader := s'.callers[c].leader;
            && c in s.callers && leader in s.callers && leader in s'.callers && leader != c
            && s'.starts[c] == s.starts[c]
            && !s'.callers[leader].Following?
            && (s.callers[c] == s'.callers[c] ||
                (s.callers[c].Missed? && !s'.callers[leader].Returned?))
            && (s'.callers[leader] == s.callers[leader] || !s'.callers[leader].Returned? ||
                (s'.callers[leader].leader == leader && s'.callers[leader].at == s.now))
  {
    hide Step;
    SameStarts(timely, s, a);
    if c in s.callers && s.callers[c].Following? {
      SharedGood(s, c);
      hide CallsGood, CallGood;
      StaysWithLeader(timely, s, a, c);
    } else {
      hide CallsGood;
      JustJoined(timely, s, a, c);
      SectionStarted(s, c);
    }
  }

  lemma JustJoined<V>(timely: bool, s: State<V>, a: Action<V>, c: nat)
    requires !(c in s.callers && s.callers[c].Following?)
    requires c in Step(timely, s, a).callers && Step(timely, s, a).callers[c].Following?
    ensures var s' := Step(timely, s, a);
            var leader := s'.callers[c].leader;
            && c in s.callers && s.callers[c].Missed? && leader != c && leader in s.callers
            && s'.callers == s.callers[c := Following(leader)]
            && !s.callers[leader].Following? && !s.callers[leader].Returned?
  {
    hide InTime, AllShared, Live, Joined;
  }

  /** Whoever is followed joins nobody, and keeps its followers until they share. */
  lemma StaysWithLeader<V>(timely: bool, s: State<V>, a: Action<V>, c: nat)
    requires c in s.callers && s.callers[c].Following? && s.callers[c].leader in s.callers
    requires s.callers[c].leader != c && !s.callers[s.callers[c].leader].Following?
    ensures var s' := Step(timely, s, a);
            var leader := s.callers[c].leader;
            && c in s'.callers && leader in s'.callers && !s'.callers[leader].Following?
            && (s'.callers[c] == s.callers[c] || s'.callers[c].Returned?)
            && (s'.callers[leader] == s.callers[leader] || !s'.callers[leader].Returned? ||
                (s'.callers[leader].leader == leader && s'.callers[leader].at == s.now))
  {
    assert Follows(s, c, s.callers[c].leader);
    hide InTime, AllShared, Live, Follows;
  }

  lemma StepOwn<V>(timely: bool, s: State<V>, a: Action<V>, c: nat)
    requires Sound(s) && CallsGood(s) && c in Step(timely, s, a).callers && !Step(timely, s, a).callers[c].Following?
    requires Started(Step(timely, s, a), c)
    ensures CallGood(Step(timely, s, a), c, Step(timely, s, a).callers[c])
  {
    hide Step, Sound, Started, CallsGood, SlotGood, Genuine, AnswerGood, CopyGood, Live;
    SameStarts(timely, s, a);
    TimeFlows(timely, s, a);
    if c !in s.callers {
      NewCaller(timely, s, a, c);
    } else {
      SectionStarted(s, c);
      CallerMoves(timely, s, a, c) by { SoundRows(s); }
      if s.callers[c].Following? {
        SharedGood(s, c);
      } else {
        OwnGood(s, c);
      }
    }
  }

  lemma SameStarts<V>(timely: bool, s: State<V>, a: Action<V>)
    requires CallsGood(s)
    ensures var s' := Step(timely, s, a);
            && (forall c | c in s.starts :: c in s'.starts && s'.starts[c] == s.starts[c])
            && (forall c | c in s'.callers && c !in s.callers :: c in s'.starts && s'.starts[c] == Start(s.now, s.step, |s.rows|))
  {
    StartsStay(timely, s, a);
  }

  /** What a caller that follows nobody may do next, in its own time. */
  lemma OwnGood<V>(s: State<V>, c: nat)
    requires Sound(s) && CallsGood(s) && c in s.callers && !s.callers[c].Following?
    ensures CallGood(s, c, s.callers[c])
    ensures s.callers[c].Filling? ==> ServedSince(s, c, Read0(s, s.callers[c])) && s.callers[c].readAt <= s.now
    ensures s.callers[c].Releasing? && s.callers[c].result.Found? ==> s.callers[c].result.servedAt <= s.now
  {
    assert CallGood(s, c, s.callers[c]) && CopyGood(s, s.callers[c]);
    hide Genuine, NotDeletedBetween, Started;
  }

  lemma SharedGood<V>(s: State<V>, c: nat)
    requires CallsGood(s) && c in s.callers && s.callers[c].Following?
    ensures var leader := s.callers[c].leader;
            && leader in s.callers && leader in s.starts && leader != c && CallGood(s, leader, s.callers[leader])
            && c in s.starts && !s.callers[leader].Following?
            && (s.callers[leader].Returned? ==>
                  s.callers[leader].leader == leader && s.starts[c].at <= s.callers[leader].at)
  {
    assert CallGood(s, c, s.callers[c]);
    assert CallGood(s, s.callers[c].leader, s.callers[s.callers[c].leader]);
    hide Started, ServedSince;
  }

  lemma NewCaller<V>(timely: bool, s: State<V>, a: Action<V>, c: nat)
    requires c !in s.callers && c in Step(timely, s, a).callers
    ensures var k' := Step(timely, s, a).callers[c];
            k'.Missed? || (Live(s) && k' == Returned(Served(s), c, s.now, s.now))
  {
  }

  lemma SectionStarted<V>(s: State<V>, c: nat)
    requires CallsGood(s) && c in s.callers
    ensures Started(s, c) && s.starts[c].at <= s.now && s.starts[c].step < s.step
    ensures c in s.starts
  {
    assert CallGood(s, c, s.callers[c]);
  }

  lemma TimeFlows<V>(timely: bool, s: State<V>, a: Action<V>)
    ensures s.now <= Step(timely, s, a).now
  {
  }

  lemma StepCalls<V>(timely: bool, s: State<V>, a: Action<V>)
    requires Sound(s) && CallsGood(s)
    ensures CallsGood(Step(timely, s, a))
  {
    var s' := Step(timely, s, a);
    StartsStay(timely, s, a);
    hide Step, CallGood, Sound;
    forall c | c in s'.callers ensures CallGood(s', c, s'.callers[c]) {
      assert RowsOrdered(s) by { SoundRows(s); }
      AllStarted(timely, s, a, c);
      if s'.callers[c].Following? {
        StepFollower(timely, s, a, c);
      } else {
        StepOwn(timely, s, a, c);
      }
    }
  }

  lemma SoundRows<V>(s: State<V>)
    requires Sound(s)
    ensures RowsOrdered(s)
  {
  }

  lemma {:induction false} AlwaysInTime<V>(timely: bool, s0: State<V>, acts: seq<Action<V>>)
    requires Init(s0)
    ensures CallsGood(Exec(timely, s0, acts))
  {
    if acts != [] {
      var init, last := acts[..|acts| - 1], acts[|acts| - 1];
      AlwaysInTime(timely, s0, init);
      AlwaysSound(timely, s0, init);
      StepCalls(timely, Exec(timely, s0, init), last);
    }
  }

  // ----------------------------------------------------------------------- theorems

  ghost predicate HasAnswer<V>(s: State<V>, c: nat) {
    c in s.callers && s.callers[c].Returned? && s.callers[c].answer.Found?
  }

  /**
   * Bounded staleness, and no value out of thin air: what FindByID returns was
   * the row at the instant it was read; it was served inside the call, or inside
   * the flight the call joined while that was under way. At its return the
   * answer is no older than the time since it was served plus, if it came from
   * the cache, 19 minutes of entry life and the latency of the fill. Every copy
   * is given 10 to 19 minutes to live.
   */
  lemma BoundedStaleness<V>(timely: bool, s0: State<V>, acts: seq<Action<V>>, c: nat)
    requires Init(s0) && HasAnswer(Exec(timely, s0, acts), c)
    ensures var s := Exec(timely, s0, acts);
            var Returned(answer, leader, landed, at) := s.callers[c];
            var copy := answer.copy;
            && RowAt(s.rows, copy.version, copy.readAt, copy.readStep)
            && copy.value == s.rows[copy.version].value
            && c in s.starts && leader in s.starts
            && s.starts[leader].at <= answer.servedAt <= landed
            && s.starts[c].at <= landed <= at
            && (leader == c ==> landed == at)
            && 0 <= at - copy.readAt
            && at - copy.readAt <= (at - answer.servedAt) +
                 if answer.source.Cache? then 1_140_000 + (copy.setAt - copy.readAt) else 0
    ensures var s := Exec(timely, s0, acts);
            s.slot.Cached? ==> 600_000 <= s.slot.expiry - s.slot.copy.setAt <= 1_140_000
  {
    AlwaysSound(timely, s0, acts);
    AlwaysInTime(timely, s0, acts);
    var s := Exec(timely, s0, acts);
    assert CopyGood(s, s.callers[c]) && CallGood(s, c, s.callers[c]);
  }

  /** The answer misses a write made before the call began. */
  ghost predicate OlderThanStart<V>(s: State<V>, c: nat)
    requires HasAnswer(s, c) && c in s.starts
  {
    s.callers[c].answer.copy.version + 1 < s.starts[c].rows
  }

  /** Its copy was read before some write that was made before the call began. */
  ghost predicate ReadBeforeAWrite<V>(s: State<V>, c: nat)
    requires HasAnswer(s, c) && c in s.starts
  {
    exists w :: 0 <= w < |s.rows| && ReadBefore(s, c, w)
  }

  ghost predicate ReadBefore<V>(s: State<V>, c: nat, w: nat)
    requires HasAnswer(s, c) && c in s.starts && w < |s.rows|
  {
    s.callers[c].answer.copy.readStep < s.rows[w].step < s.starts[c].step
  }

  /** Write `w` was made before the answer was served, and its delete did not come between Set and lookup. */
  ghost predicate MaskedByCopy<V>(s: State<V>, answer: Answer<V>, w: nat)
    requires answer.Found? && w < |s.rows| == |s.dels|
  {
    && answer.source.Cache?
    && s.rows[w].step < answer.servedStep
    && NotDeletedBetween(s, w, answer.source.setStep, answer.servedStep)
  }

  /** Write `w` came after the flight was served, and call `c` joined that flight after the write. */
  ghost predicate JoinedTooLate<V>(s: State<V>, c: nat, w: nat)
    requires HasAnswer(s, c) && c in s.starts && s.callers[c].leader in s.starts && w < |s.rows|
  {
    var Returned(answer, leader, _, _) := s.callers[c];
    && leader != c
    && s.starts[leader].step <= answer.servedStep <= s.rows[w].step < s.starts[c].step
  }

  ghost predicate SomeJoinedTooLate<V>(s: State<V>, c: nat)
    requires HasAnswer(s, c) && c in s.starts && s.callers[c].leader in s.starts
  {
    exists w :: 0 <= w < |s.rows| && JoinedTooLate(s, c, w)
  }

  /**
   * An answer is older than the row was when the call began exactly when the row
   * was read before a write that the call began after. Both sides say that the
   * version read was overwritten by then; what carries proof are the causes.
   * Each write that is missed was either masked by the copy that the cache
   * answered with, or made after a flight was served that the call joined later.
   * So an answer read from the row is older exactly when the call joined too
   * late, and a call that reads the row itself never misses a write.
   */
  lemma OlderThanStartIff<V>(timely: bool, s0: State<V>, acts: seq<Action<V>>, c: nat)
    requires Init(s0) && HasAnswer(Exec(timely, s0, acts), c)
    ensures var s := Exec(timely, s0, acts);
            var answer := s.callers[c].answer;
            && |s.dels| == |s.rows| && c in s.starts && s.callers[c].leader in s.starts && s.starts[c].rows <= |s.rows|
            && (OlderThanStart(s, c) <==> ReadBeforeAWrite(s, c))
            && (forall w | answer.copy.version < w < s.starts[c].rows ::
                  MaskedByCopy(s, answer, w) || JoinedTooLate(s, c, w))
            && (answer.source.Row? ==> (OlderThanStart(s, c) <==> SomeJoinedTooLate(s, c)))
            && (answer.source.Row? && s.callers[c].leader == c ==> !OlderThanStart(s, c))
  {
    AlwaysSound(timely, s0, acts);
    AlwaysInTime(timely, s0, acts);
    OlderCauses(Exec(timely, s0, acts), c);
  }

  lemma OlderCauses<V>(s: State<V>, c: nat)
    requires Sound(s) && CallsGood(s) && HasAnswer(s, c)
    ensures var answer := s.callers[c].answer;
            && |s.dels| == |s.rows| && c in s.starts && s.callers[c].leader in s.starts && s.starts[c].rows <= |s.rows|
            && (OlderThanStart(s, c) <==> ReadBeforeAWrite(s, c))
            && (forall w | answer.copy.version < w < s.starts[c].rows ::
                  MaskedByCopy(s, answer, w) || JoinedTooLate(s, c, w))
            && (answer.source.Row? ==> (OlderThanStart(s, c) <==> SomeJoinedTooLate(s, c)))
            && (answer.source.Row? && s.callers[c].leader == c ==> !OlderThanStart(s, c))
  {
    assert CopyGood(s, s.callers[c]) && CallGood(s, c, s.callers[c]);
    var answer := s.callers[c].answer;
    forall w | answer.copy.version < w < s.starts[c].rows
      ensures MaskedByCopy(s, answer, w) || JoinedTooLate(s, c, w)
    {
      MissedWrite(s, c, w);
    }
    if OlderThanStart(s, c) {
      var w := answer.copy.version + 1;
      assert ReadBefore(s, c, w);
      assert MaskedByCopy(s, answer, w) || JoinedTooLate(s, c, w);
    }
    if answer.source.Row? && SomeJoinedTooLate(s, c) {
      var w :| 0 <= w < |s.rows| && JoinedTooLate(s, c, w);
      assert answer.copy.version < w < s.starts[c].rows;
    }
  }

  lemma MissedWrite<V>(s: State<V>, c: nat, w: nat)
    requires Sound(s) && CallsGood(s) && HasAnswer(s, c) && c in s.starts
    requires s.callers[c].answer.copy.version < w < s.starts[c].rows <= |s.rows|
    ensures |s.dels| == |s.rows| && s.callers[c].leader in s.starts
    ensures MaskedByCopy(s, s.callers[c].answer, w) || JoinedTooLate(s, c, w)
  {
    assert CopyGood(s, s.callers[c]) && CallGood(s, c, s.callers[c]);
    assert s.callers[c].leader in s.callers;
    assert CallGood(s, s.callers[c].leader, s.callers[s.callers[c].leader]);
    AnswersInOrder(s, c);
  }

  /** The version read was current at the read, so later versions were written after it. */
  lemma AnswersInOrder<V>(s: State<V>, c: nat)
    requires Sound(s) && HasAnswer(s, c)
    ensures var copy := s.callers[c].answer.copy;
            forall w | copy.version < w < |s.rows| :: copy.readStep < s.rows[w].step
  {
    assert CopyGood(s, s.callers[c]);
  }
}
