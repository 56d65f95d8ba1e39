/** A run whose first attempt starts in time and finds less than an hour left to its entry. */
module ShortHour {
  import opened Identifiers
  import opened RequestStore
  import opened Protocol
  import C = Coordinator

  /** The last nanosecond of a millisecond, and a budget that ends on one. */
  const CREATED: int := 999_999
  const BUDGET: int := 2_000_999_999

  const CONFIG := Config(1, 1, BUDGET, 1, true)

  const OPENING := State(CREATED, map[], map[], C.State(map[1 := 5], map[7 := 10], [], []))

  function Id(): string {
    RequestId(7, CREATED)
  }

  function Now(now: int, r: Req): State {
    State(now, map[EntryKey(Id()) := Entry(Request(Id(), 7, 1, Waiting, ""), At(3_602_000))],
          map[Id() := r], OPENING.sagas)
  }

  function Waits(stamped: int, started: int, stage: Stage, tries: nat): Req {
    Req(7, CREATED, CREATED, stamped, started, stage, tries, false, false, [Waiting])
  }

  lemma PutNow(now: int, r: Req, r': Req)
    ensures Put(Now(now, r), Id(), r') == Now(now, r')
  {
    hide Id;
    assert map[Id() := r][Id() := r'] == map[Id() := r'];
  }

  lemma CreateStep()
    ensures Step(CONFIG, OPENING, Create(7, CREATED, false)) == Now(CREATED, Waits(CREATED, CREATED, Created, 0))
  {
  }

  lemma OtherSteps(now: int, r: Req)
    ensures r.stage.Created? ==>
      Step(CONFIG, Now(now, r), Stamp(Id())) == Now(now, r.(stage := Stamped, stampedAt := now, startedAt := now))
    ensures r.stage.Stamped? ==> Step(CONFIG, Now(now, r), Insert(Id(), true)) == Now(now, r.(stage := Queued))
    ensures r.stage.Queued? && r.tries == 0 ==> Step(CONFIG, Now(now, r), Start(Id())) == Now(now, Begin(CONFIG, r, now))
    ensures forall d: nat :: Step(CONFIG, Now(now, r), Tick(d)) == Now(now + d, r)
  {
    PutNow(now, r, r.(stage := Stamped, stampedAt := now, startedAt := now));
    PutNow(now, r, r.(stage := Queued));
    PutNow(now, r, Begin(CONFIG, r, now));
    hide Id, EntryKey;
  }

  function Punctual(): seq<Action> {
    [Create(7, CREATED, false), Tick(1), Stamp(Id()), Insert(Id(), true), Tick(BUDGET), Start(Id())]
  }

  lemma PunctualRun()
    ensures Exec(CONFIG, OPENING, Punctual()) ==
      Now(CREATED + 1 + BUDGET, Waits(CREATED + 1, CREATED + 1 + BUDGET, Marking, 1))
  {
    CreateStep();
    var t, stamped := CREATED + 1, CREATED + 1;
    OtherSteps(CREATED, Waits(CREATED, CREATED, Created, 0));
    OtherSteps(t, Waits(CREATED, CREATED, Created, 0));
    OtherSteps(t, Waits(stamped, stamped, Stamped, 0));
    OtherSteps(t, Waits(stamped, stamped, Queued, 0));
    OtherSteps(t + BUDGET, Waits(stamped, stamped, Queued, 0));
    assert Begin(CONFIG, Waits(stamped, stamped, Queued, 0), t + BUDGET) == Waits(stamped, t + BUDGET, Marking, 1);
    hide *;
    var acts := Punctual();
    var id := Id();
    PunctualIs();
    var a1 := [Create(7, CREATED, false)];
    var a2 := a1 + [Tick(1)];
    var a3 := a2 + [Stamp(id)];
    var a4 := a3 + [Insert(id, true)];
    var a5 := a4 + [Tick(BUDGET)];
    assert [] + a1 == a1;
    ExecSnoc(CONFIG, OPENING, [], a1[0]);
    NoSteps();
    ExecSnoc(CONFIG, OPENING, a1, Tick(1));
    ExecSnoc(CONFIG, OPENING, a2, Stamp(id));
    ExecSnoc(CONFIG, OPENING, a3, Insert(id, true));
    ExecSnoc(CONFIG, OPENING, a4, Tick(BUDGET));
    ExecSnoc(CONFIG, OPENING, a5, Start(id));
    assert a5 + [Start(id)] == acts;
  }

  lemma PunctualIs()
    ensures Punctual() ==
      [Create(7, CREATED, false), Tick(1), Stamp(Id()), Insert(Id(), true), Tick(BUDGET), Start(Id())]
  {
  }

  lemma NoSteps()
    ensures Exec(CONFIG, OPENING, []) == OPENING
  {
  }

  /**
   * "A first attempt that is not degraded has an hour less the create-to-stamp
   * gap left" is false: this one is short of it by two nanoseconds less than
   * the two milliseconds that are promised at most.
   */
  lemma HourIsShort()
    ensures Init(OPENING)
    ensures var s := Exec(CONFIG, OPENING, Punctual());
            && Id() in s.reqs && EntryKey(Id()) in s.store && s.store[EntryKey(Id())].expiry.At?
            && var r := s.reqs[Id()];
               && r.stage.Marking? && r.tries == 1
               && s.store[EntryKey(Id())].expiry.ms * MILLI
                  == r.startedAt + HOUR - (r.stampedAt - r.createdAt) - (2 * MILLI - 2)
  {
    PunctualRun();
    hide Exec, Id, EntryKey, Punctual;
  }
}
