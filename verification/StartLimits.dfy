/** The daily cap and the minimum spacing, over whole runs with crashes, restarts and policy changes. */
module StartLimits {
  import opened Values
  import opened SchedulerState
  import opened SlotPlanner
  import opened Admission
  import opened AdmissionRuns

  // ---------------------------------------------------------------- What operations do to starts

  predicate SameStarts(a: ProviderState, b: ProviderState) {
    a.day == b.day && a.runs == b.runs && a.lastStart == b.lastStart
  }

  lemma AdvanceClockStarts(p: ProviderState, policy: Policy, now: Time)
    requires ValidPolicy(policy)
    ensures SameStarts(AdvanceClock(p, policy, now), if RolledBack(p, now) then p else ReconcileDay(p, policy, now))
  {
  }

  lemma StartsAfterHeed(q: ProviderState, policy: Policy, now: Time, interface: Option<string>, decision: HealthDecision)
    ensures SameStarts(Heed(q, policy, now, interface, decision).state, q)
  {
  }

  lemma StartsAfterPoll(q: ProviderState, policy: Policy, now: Time, latest: map<string, bool>, chosen: Option<string>)
    requires ChoiceFits(q, now, latest, chosen)
    ensures forall s <- PollStages(q, policy, now, latest, chosen) :: SameStarts(s, q)
  {
  }

  /** Only a reservation adds a start; everything else at most moves on to a new day. */
  lemma StartsAfterOp(p: ProviderState, policy: Policy, op: Op, now: Time)
    requires ValidPolicy(policy) && OpEnabled(p, policy, op, now) && !op.Reserving?
    ensures forall s <- Outcomes(EffectOf(p, policy, op, now)) ::
              SameStarts(s, p) || SameStarts(s, ReconcileDay(p, policy, now))
  {
    if op.Finishing? {
      StartsAfterFinish(p, policy, now, op.opportunity, op.report);
    } else {
      var q := AdvanceClock(p, policy, now);
      AdvanceClockStarts(p, policy, now);
      OpOutcomes(p, policy, op, now);
      if op.Observing? {
        StartsAfterHeed(q, policy, now, op.interface, op.decision);
      } else if op.Polling? {
        StartsAfterPoll(q, policy, now, op.latest, op.chosen);
      }
    }
  }

  lemma StartsAfterFinish(p: ProviderState, policy: Policy, now: Time, opportunity: Opportunity, report: Report)
    requires ValidPolicy(policy)
    ensures SameStarts(Finish(p, policy, now, opportunity, report).state, p)
  {
  }

  lemma StartsAfterStartup(m: ProviderState, recovered: bool, policy: Policy, now: Time, seed: bv64)
    requires ValidPolicy(policy)
    ensures SameStarts(Startup(Some(m), recovered, policy, now, seed), ReconcileDay(m, policy, now))
  {
  }

  // ---------------------------------------------------------------- Counting starts

  function AdmittedOn(log: seq<Fact>, day: int): nat {
    if log == [] then 0
    else
      var f := log[|log| - 1];
      AdmittedOn(log[..|log| - 1], day) + (if f.Admitted? && Day(f.at) == day then 1 else 0)
  }

  lemma {:induction false} AdmittedOnAppend(log: seq<Fact>, more: seq<Fact>, day: int)
    ensures AdmittedOn(log + more, day) == AdmittedOn(log, day) + AdmittedOn(more, day)
    decreases |more|
  {
    if more == [] {
      assert log + more == log;
    } else {
      assert (log + more)[..|log + more| - 1] == log + more[..|more| - 1];
      AdmittedOnAppend(log, more[..|more| - 1], day);
    }
  }

  lemma {:induction false} UnacknowledgedAdmitsNone(log: seq<Fact>, day: int)
    requires forall f <- log :: !f.Admitted?
    ensures AdmittedOn(log, day) == 0
  {
    if log != [] {
      UnacknowledgedAdmitsNone(log[..|log| - 1], day);
    }
  }

  /** How often a start at this instant was acknowledged. */
  function AdmittedAt(log: seq<Fact>, t: Time): nat {
    if log == [] then 0
    else AdmittedAt(log[..|log| - 1], t) + (if log[|log| - 1].Admitted? && log[|log| - 1].at == t then 1 else 0)
  }

  lemma {:induction false} AdmittedAtAppend(log: seq<Fact>, more: seq<Fact>, t: Time)
    ensures AdmittedAt(log + more, t) == AdmittedAt(log, t) + AdmittedAt(more, t)
    decreases |more|
  {
    if more == [] {
      assert log + more == log;
    } else {
      assert (log + more)[..|log + more| - 1] == log + more[..|more| - 1];
      AdmittedAtAppend(log, more[..|more| - 1], t);
    }
  }

  lemma {:induction false} UnacknowledgedAdmitsNothing(log: seq<Fact>, t: Time)
    requires forall f <- log :: !f.Admitted?
    ensures AdmittedAt(log, t) == 0
  {
    if log != [] {
      UnacknowledgedAdmitsNothing(log[..|log| - 1], t);
    }
  }

  lemma {:induction false} AcknowledgedOnce(log: seq<Fact>, i: nat)
    requires i < |log| && log[i].Admitted?
    ensures AdmittedAt(log, log[i].at) > 0
    decreases |log|
  {
    if i < |log| - 1 {
      AcknowledgedOnce(log[..|log| - 1], i);
    }
  }

  lemma {:induction false} KeptOften(runs: seq<Time>, from: int, t: Time)
    requires Day(t) >= from
    ensures multiset(Keep(runs, r => Day(r) >= from))[t] == multiset(runs)[t]
    decreases |runs|
  {
    if runs != [] {
      KeptOften(runs[..|runs| - 1], from, t);
      assert runs == runs[..|runs| - 1] + [runs[|runs| - 1]];
    }
  }

  lemma {:induction false} KeptRunsOnDay(runs: seq<Time>, from: int, day: int)
    requires day >= from
    ensures RunsOnDay(Keep(runs, r => Day(r) >= from), day) == RunsOnDay(runs, day)
    decreases |runs|
  {
    if runs != [] {
      KeptRunsOnDay(runs[..|runs| - 1], from, day);
      var kept := Keep(runs[..|runs| - 1], r => Day(r) >= from);
      var last := runs[|runs| - 1];
      assert (kept + [last])[..|kept|] == kept;
    }
  }

  lemma {:induction false} InsertedRunsOnDay(runs: seq<Time>, x: Time, day: int)
    ensures RunsOnDay(Insert(runs, x), day) == RunsOnDay(runs, day) + (if Day(x) == day then 1 else 0)
    decreases |runs|
  {
    if runs == [] || runs[|runs| - 1] <= x {
      assert (runs + [x])[..|runs|] == runs;
    } else {
      var shorter := Insert(runs[..|runs| - 1], x);
      InsertedRunsOnDay(runs[..|runs| - 1], x, day);
      assert (shorter + [runs[|runs| - 1]])[..|shorter|] == shorter;
    }
  }

  // ---------------------------------------------------------------- The daily cap

  /** The most starts a policy lets happen on one day; none for a forced test of an operator's own server. */
  function CapOf(policy: Policy): Option<nat> {
    if policy.kind == Mlab then Some(if policy.force then MLAB_CAP else policy.dailyMax)
    else if policy.force then None
    else Some(policy.dailyMax)
  }

  predicate CappedBy(e: Event, cap: nat) {
    e.Restart? ==> CapOf(e.policy).Some? && CapOf(e.policy).value <= cap
  }

  predicate ReservesOnCurrentDay(w: World, e: Event) {
    e.Do? && e.op.Reserving? && w.live.Some? ==> Day(e.now) >= w.live.value.day
  }

  /** No start is reserved for a day the state has already left, and every policy in force caps the day at `cap`. */
  function CurrentCapped(cap: nat): (World, Event) -> bool {
    (w: World, e: Event) => ReservesOnCurrentDay(w, e) && CappedBy(e, cap)
  }

  predicate Forward(w: World, e: Event) {
    match e
    case Crash => true
    case Do(_, now, _) => now >= w.clock
    case Restart(_, now, _, _, _, _, _) => now >= w.clock
  }

  /** The clock never runs back, and every policy in force caps the day at `cap` or less. */
  function ForwardCapped(cap: nat): (World, Event) -> bool {
    (w: World, e: Event) => Forward(w, e) && CappedBy(e, cap)
  }

  /** Every admitted start of the current or a later day is still counted, */
  ghost predicate Counted(p: ProviderState, log: seq<Fact>) {
    forall day :: day >= p.day ==> AdmittedOn(log, day) <= RunsOnDay(p.runs, day)
  }

  /** and it is itself among the starts, as often as it was admitted. */
  ghost predicate Listed(p: ProviderState, log: seq<Fact>) {
    forall t :: Day(t) >= p.day ==> AdmittedAt(log, t) <= multiset(p.runs)[t]
  }

  ghost predicate CountInv(w: World) {
    && (None in w.attempted ==> Unacknowledged(w.log))
    && (forall p :: Some(p) in Holders(w) ==> Counted(p, w.log))
  }

  ghost predicate CapInv(w: World, cap: nat) {
    && (w.live.Some? ==> CapOf(w.policy).Some? && CapOf(w.policy).value <= cap && ValidPolicy(w.policy))
    && CountInv(w)
    && (forall day :: AdmittedOn(w.log, day) <= cap)
  }

  lemma ReconcileDayKeepsCounted(p: ProviderState, policy: Policy, now: Time, log: seq<Fact>)
    requires ValidPolicy(policy) && Counted(p, log)
    ensures Counted(ReconcileDay(p, policy, now), log) && ReconcileDay(p, policy, now).day == Max(p.day, Day(now))
  {
    var q := ReconcileDay(p, policy, now);
    forall day | day >= q.day ensures AdmittedOn(log, day) <= RunsOnDay(q.runs, day) {
      if Day(now) > p.day {
        KeptRunsOnDay(p.runs, Day(now), day);
      }
    }
  }

  lemma SameStartsCounted(a: ProviderState, b: ProviderState, log: seq<Fact>)
    requires SameStarts(a, b) && Counted(b, log)
    ensures Counted(a, log)
  {
    forall day | day >= a.day ensures AdmittedOn(log, day) <= RunsOnDay(a.runs, day) {
      assert day >= b.day;
    }
  }

  lemma NoNewAdmissions(log: seq<Fact>, more: seq<Fact>)
    requires forall f <- more :: !f.Admitted?
    ensures forall day :: AdmittedOn(log + more, day) == AdmittedOn(log, day)
  {
    forall day ensures AdmittedOn(log + more, day) == AdmittedOn(log, day) {
      AdmittedOnAppend(log, more, day);
      UnacknowledgedAdmitsNone(more, day);
    }
  }

  lemma CountedAlike(p: ProviderState, log: seq<Fact>, log': seq<Fact>)
    requires Counted(p, log) && forall day :: AdmittedOn(log', day) == AdmittedOn(log, day)
    ensures Counted(p, log')
  {
    forall day | day >= p.day ensures AdmittedOn(log', day) <= RunsOnDay(p.runs, day) {
      assert AdmittedOn(log, day) <= RunsOnDay(p.runs, day);
    }
  }

  /** An operation that is not a reservation. */
  lemma OpKeepsCount(w: World, op: Op, now: Time, cut: nat)
    requires CountInv(w) && Enabled(w, Do(op, now, cut)) && !op.Reserving?
    ensures CountInv(Step(w, Do(op, now, cut)))
    ensures forall day :: AdmittedOn(Step(w, Do(op, now, cut)).log, day) == AdmittedOn(w.log, day)
  {
    var p := w.live.value;
    var w' := Step(w, Do(op, now, cut));
    StepKeepsHistoryBacked(w, Do(op, now, cut));
    OpHolders(w, p, op, now, cut);
    StartsAfterOp(p, w.policy, op, now);
    ReconcileDayKeepsCounted(p, w.policy, now, w.log);
    NoNewAdmissions(w.log, Logged(p, w.policy, op, now, cut));
    forall s | Some(s) in Holders(w') ensures Counted(s, w'.log) {
      if s in Outcomes(EffectOf(p, w.policy, op, now)) {
        if SameStarts(s, p) {
          SameStartsCounted(s, p, w.log);
        } else {
          SameStartsCounted(s, ReconcileDay(p, w.policy, now), w.log);
        }
      }
      CountedAlike(s, w.log, w'.log);
    }
  }

  lemma AdmitKeepsCounted(q: ProviderState, policy: Policy, now: Time, log: seq<Fact>)
    requires Counted(q, log)
    ensures Counted(Admit(q, now), log) && Counted(Admit(q, now), log + [Admitted(now, policy)])
  {
    var s := Admit(q, now);
    forall day | day >= s.day
      ensures AdmittedOn(log, day) <= RunsOnDay(s.runs, day)
      ensures AdmittedOn(log + [Admitted(now, policy)], day) <= RunsOnDay(s.runs, day)
    {
      InsertedRunsOnDay(q.runs, now, day);
      OneMoreAdmitted(log, policy, now, day);
    }
  }

  lemma OneMoreAdmitted(log: seq<Fact>, policy: Policy, now: Time, day: int)
    ensures AdmittedOn(log + [Admitted(now, policy)], day) == AdmittedOn(log, day) + (if Day(now) == day then 1 else 0)
  {
    assert (log + [Admitted(now, policy)])[..|log|] == log;
  }

  lemma OneMoreStart(log: seq<Fact>, policy: Policy, now: Time, cap: nat)
    requires forall day :: AdmittedOn(log, day) <= cap
    requires AdmittedOn(log, Day(now)) < cap
    ensures forall day :: AdmittedOn(log + [Admitted(now, policy)], day) <= cap
  {
    forall day ensures AdmittedOn(log + [Admitted(now, policy)], day) <= cap {
      assert AdmittedOn(log, day) <= cap;
      assert (log + [Admitted(now, policy)])[..|log|] == log;
    }
  }

  /** An admitted start found fewer than the cap among the starts of its day. */
  lemma AdmittedBelowCap(q: ProviderState, policy: Policy, now: Time, cap: nat)
    requires BlockReason(q, policy, now).None?
    requires CapOf(policy).Some? && CapOf(policy).value <= cap
    ensures RunsOnDay(q.runs, Day(now)) < cap
  {
  }

  lemma ReserveKeepsCount(w: World, now: Time, cut: nat)
    requires CountInv(w) && Enabled(w, Do(Reserving, now, cut))
    ensures CountInv(Step(w, Do(Reserving, now, cut)))
  {
    var q := ReconcileDay(w.live.value, w.policy, now);
    ReserveStep(w, now, cut);
    ReconcileDayKeepsCounted(w.live.value, w.policy, now, w.log);
    AdmitKeepsCounted(q, w.policy, now, w.log);
  }

  lemma ReserveKeepsCap(w: World, now: Time, cut: nat, cap: nat)
    requires CapInv(w, cap) && Enabled(w, Do(Reserving, now, cut)) && Day(now) >= w.live.value.day
    ensures CapInv(Step(w, Do(Reserving, now, cut)), cap)
  {
    var q := ReconcileDay(w.live.value, w.policy, now);
    ReserveStep(w, now, cut);
    ReserveKeepsCount(w, now, cut);
    ReconcileDayKeepsCounted(w.live.value, w.policy, now, w.log);
    if Admits(w.live.value, w.policy, now) {
      AdmittedBelowCap(q, w.policy, now, cap);
      OneMoreStart(w.log, w.policy, now, cap);
    }
  }

  lemma StartupKeepsCounted(attempted: set<Option<ProviderState>>, e: Event, log: seq<Fact>)
    requires e.Restart? && ValidPolicy(e.policy) && e.base in attempted && e.recent in attempted
    requires None in attempted ==> Unacknowledged(log)
    requires forall p :: Some(p) in attempted ==> Counted(p, log)
    ensures Counted(Startup(Merge(e.base, e.recent), e.recovered, e.policy, e.now, e.seed), log)
  {
    var opening := Merge(e.base, e.recent);
    if opening.None? {
      forall day ensures AdmittedOn(log, day) == 0 {
        UnacknowledgedAdmitsNone(log, day);
      }
    } else {
      var m := opening.value;
      var x := if e.recent.Some? then e.recent.value else e.base.value;
      assert SameStarts(m, x);
      SameStartsCounted(m, x, log);
      StartsAfterStartup(m, e.recovered, e.policy, e.now, e.seed);
      ReconcileDayKeepsCounted(m, e.policy, e.now, log);
      SameStartsCounted(Startup(Some(m), e.recovered, e.policy, e.now, e.seed), ReconcileDay(m, e.policy, e.now), log);
    }
  }

  lemma RestartKeepsCount(w: World, e: Event)
    requires CountInv(w) && e.Restart? && Enabled(w, e)
    ensures CountInv(Step(w, e)) && Step(w, e).log == w.log
  {
    StepKeepsHistoryBacked(w, e);
    StartupKeepsCounted(w.attempted, e, w.log);
    var s := Startup(Merge(e.base, e.recent), e.recovered, e.policy, e.now, e.seed);
    assert forall h <- Holders(Step(w, e)) :: h == None || h in w.attempted || h == Some(s);
    assert Step(w, e).log == w.log;
  }

  lemma {:induction false} RunKeepsCap(w: World, events: seq<Event>, w': World, cap: nat)
    requires CapInv(w, cap) && Reaches(w, events, w', CurrentCapped(cap))
    ensures CapInv(w', cap)
    decreases |events|
  {
    if events != [] {
      match events[0] {
        case Crash =>
        case Restart(_, _, _, _, _, _, _) => RestartKeepsCount(w, events[0]);
        case Do(op, now, cut) =>
          if op.Reserving? {
            ReserveKeepsCap(w, now, cut, cap);
          } else {
            OpKeepsCount(w, op, now, cut);
          }
      }
      RunKeepsCap(Step(w, events[0]), events[1..], w', cap);
    }
  }

  /** As long as no start is reserved for a day already left, no day admits more than the cap, whatever else happens. */
  lemma DailyCapHolds(policy: Policy, t0: Time, events: seq<Event>, w: World, cap: nat, day: int)
    requires Reaches(Initial(policy, t0), events, w, CurrentCapped(cap))
    ensures AdmittedOn(w.log, day) <= cap
  {
    RunKeepsCap(Initial(policy, t0), events, w, cap);
  }

  /** The state's day never runs ahead of a clock that never runs back. */
  ghost predicate DayInv(w: World) {
    forall p :: Some(p) in Holders(w) ==> p.day <= Day(w.clock)
  }

  lemma DayAfterOp(p: ProviderState, policy: Policy, op: Op, now: Time)
    requires ValidPolicy(policy) && OpEnabled(p, policy, op, now) && p.day <= Day(now)
    ensures forall s <- Outcomes(EffectOf(p, policy, op, now)) :: s.day <= Day(now)
  {
    if !op.Reserving? {
      StartsAfterOp(p, policy, op, now);
    }
  }

  lemma OpKeepsDay(w: World, op: Op, now: Time, cut: nat)
    requires DayInv(w) && Enabled(w, Do(op, now, cut)) && now >= w.clock
    ensures DayInv(Step(w, Do(op, now, cut)))
  {
    OpHolders(w, w.live.value, op, now, cut);
    DayAfterOp(w.live.value, w.policy, op, now);
  }

  lemma DayAfterStartup(opening: Option<ProviderState>, recovered: bool, policy: Policy, now: Time, seed: bv64)
    requires ValidPolicy(policy) && (opening.Some? ==> opening.value.day <= Day(now))
    ensures Startup(opening, recovered, policy, now, seed).day <= Day(now)
  {
    if opening.Some? {
      StartsAfterStartup(opening.value, recovered, policy, now, seed);
    }
  }

  lemma StepKeepsDay(w: World, e: Event)
    requires DayInv(w) && Enabled(w, e) && Forward(w, e)
    ensures DayInv(Step(w, e))
  {
    match e {
      case Crash =>
      case Do(op, now, cut) => OpKeepsDay(w, op, now, cut);
      case Restart(policy, now, seed, base, recent, recovered, cut) =>
        DayAfterStartup(Merge(base, recent), recovered, policy, now, seed);
    }
  }

  lemma {:induction false} ForwardRunsStayCurrent(w: World, events: seq<Event>, w': World, cap: nat)
    requires DayInv(w) && Reaches(w, events, w', ForwardCapped(cap))
    ensures Reaches(w, events, w', CurrentCapped(cap))
    decreases |events|
  {
    if events != [] {
      StepKeepsDay(w, events[0]);
      ForwardRunsStayCurrent(Step(w, events[0]), events[1..], w', cap);
    }
  }

  /** With a clock that never runs back the cap holds: four a day for M-Lab even when forced. */
  lemma DailyCapHoldsForward(policy: Policy, t0: Time, events: seq<Event>, w: World, cap: nat, day: int)
    requires Reaches(Initial(policy, t0), events, w, ForwardCapped(cap))
    ensures AdmittedOn(w.log, day) <= cap
  {
    ForwardRunsStayCurrent(Initial(policy, t0), events, w, cap);
    DailyCapHolds(policy, t0, events, w, cap, day);
  }

  lemma {:induction false} NoneKeptNoneCounted(runs: seq<Time>, from: int, day: int)
    requires day < from
    ensures RunsOnDay(Keep(runs, r => Day(r) >= from), day) == 0
    decreases |runs|
  {
    if runs != [] {
      NoneKeptNoneCounted(runs[..|runs| - 1], from, day);
      var kept := Keep(runs[..|runs| - 1], r => Day(r) >= from);
      assert (kept + [runs[|runs| - 1]])[..|kept|] == kept;
    }
  }

  /**
  Once the clock has visited a later day and gone back, a start is admitted on the earlier day however
  many that day already had: only spacing and cooldown still count.
  */
  lemma RollbackForgetsTheDay(p: ProviderState, policy: Policy, later: Time, earlier: Time)
    requires ValidPolicy(policy) && policy.dailyMax > 0
    requires p.day < Day(later) && !RolledBack(p, later) && Day(earlier) < Day(later)
    requires p.cooldown.None?
    requires p.lastStart.Some? ==> earlier >= AddDuration(p.lastStart.value, policy.minSpacing)
    ensures Admits(AdvanceClock(p, policy, later), policy, earlier)
  {
    NoneKeptNoneCounted(p.runs, Day(later), Day(earlier));
  }

  predicate Anyhow(w: World, e: Event) { true }

  lemma OneEventFirst(w: World, e: Event, events: seq<Event>, w': World)
    requires Enabled(w, e) && Reaches(Step(w, e), events, w', Anyhow)
    ensures Reaches(w, [e] + events, w', Anyhow)
  {
    assert ([e] + events)[1..] == events;
  }

  /** A first test on the first day. */
  lemma FirstTest(policy: Policy, seed: bv64) returns (start: Event, first: Event)
    requires ValidPolicy(policy) && !policy.force && policy.dailyMax == 1
    ensures Enabled(Initial(policy, 0), start) && Enabled(Step(Initial(policy, 0), start), first)
    ensures var w := Step(Step(Initial(policy, 0), start), first);
            && w.live.Some? && w.policy == policy && w.log == [Admitted(0, policy)]
            && var p := w.live.value; p.day == 0 && p.lastStart == Some(0) && p.cooldown.None? && p.lastObserved == 0
  {
    start, first := Restart(policy, 0, seed, None, None, false, Done), Do(Reserving, 0, 1);
    var w1 := Step(Initial(policy, 0), start);
    var p := w1.live.value;
    assert p.day == 0 && p.runs == [] && p.lastStart.None? && p.cooldown.None? && p.lastObserved == 0;
    ReserveStep(w1, 0, 1);
  }

  /** The clock is seen on the next day, and is then back on the first one. */
  lemma SecondTest(w: World, policy: Policy) returns (look: Event, again: Event)
    requires ValidPolicy(policy) && !policy.force && policy.dailyMax == 1 && policy.minSpacing < DAY_MS
    requires w.live.Some? && w.policy == policy
    requires var p := w.live.value; p.day == 0 && p.lastStart == Some(0) && p.cooldown.None? && p.lastObserved == 0
    ensures Enabled(w, look) && Enabled(Step(w, look), again)
    ensures Step(Step(w, look), again).log == w.log + [Admitted(policy.minSpacing, policy)]
  {
    look, again := Do(Preflighting, DAY_MS, 1), Do(Reserving, policy.minSpacing, 1);
    var q := AdvanceClock(w.live.value, policy, DAY_MS);
    var w1 := Step(w, look);
    assert w1.live == Some(q) && w1.policy == policy && w1.log == w.log + [] == w.log;
    RollbackForgetsTheDay(w.live.value, policy, DAY_MS, policy.minSpacing);
    ReserveStep(w1, policy.minSpacing, 1);
  }

  /**
  So under a policy of one test a day, a run admits two on one day: one test, then a look at the next day's clock,
  then the clock back and a second test, once the spacing has elapsed.
  */
  lemma RollbackExceedsTheCap(policy: Policy, seed: bv64) returns (events: seq<Event>, w: World)
    requires ValidPolicy(policy) && !policy.force && policy.dailyMax == 1 && policy.minSpacing < DAY_MS
    ensures Reaches(Initial(policy, 0), events, w, Anyhow)
    ensures CapOf(policy) == Some(1) && AdmittedOn(w.log, 0) == 2
  {
    var start, first := FirstTest(policy, seed);
    var w1 := Step(Initial(policy, 0), start);
    var w2 := Step(w1, first);
    var look, again := SecondTest(w2, policy);
    var w3 := Step(w2, look);
    w := Step(w3, again);
    OneEventFirst(w3, again, [], w);
    OneEventFirst(w2, look, [again] + [], w);
    OneEventFirst(w1, first, [look] + ([again] + []), w);
    OneEventFirst(Initial(policy, 0), start, [first] + ([look] + ([again] + [])), w);
    events := [start] + ([first] + ([look] + ([again] + [])));
    AdmittedOnAppend([Admitted(0, policy)], [Admitted(policy.minSpacing, policy)], 0);
    assert AdmittedOn([Admitted(0, policy)], 0) == 1 && AdmittedOn([Admitted(policy.minSpacing, policy)], 0) == 1;
  }

  // ---------------------------------------------------------------- Minimum spacing

  ghost predicate NoEarlierThan(p: ProviderState, log: seq<Fact>) {
    forall f <- log :: f.Admitted? ==> p.lastStart.Some? && f.at <= p.lastStart.value
  }

  /** Every unforced start keeps its policy's spacing from every earlier start. */
  predicate KeepsSpacing(log: seq<Fact>) {
    forall i, j :: 0 <= i < j < |log| && log[i].Admitted? && log[j].Admitted? && !log[j].policy.force ==>
                     log[j].at >= AddDuration(log[i].at, log[j].policy.minSpacing)
  }

  ghost predicate SpacingInv(w: World) {
    && (None in w.attempted ==> Unacknowledged(w.log))
    && (forall p :: Some(p) in Holders(w) ==> NoEarlierThan(p, w.log))
    && KeepsSpacing(w.log)
  }

  lemma LaterStartKeepsSpacing(log: seq<Fact>, q: ProviderState, policy: Policy, now: Time)
    requires KeepsSpacing(log) && NoEarlierThan(q, log) && BlockReason(q, policy, now).None?
    ensures KeepsSpacing(log + [Admitted(now, policy)]) && NoEarlierThan(Admit(q, now), log + [Admitted(now, policy)])
  {
  }

  lemma NoNewStarts(log: seq<Fact>, more: seq<Fact>)
    requires KeepsSpacing(log) && forall f <- more :: !f.Admitted?
    ensures KeepsSpacing(log + more)
  {
  }

  lemma NothingNewIsEarlier(s: ProviderState, p: ProviderState, log: seq<Fact>, more: seq<Fact>)
    requires NoEarlierThan(p, log) && s.lastStart == p.lastStart && forall f <- more :: !f.Admitted?
    ensures NoEarlierThan(s, log + more)
  {
  }

  lemma ReserveKeepsSpacing(w: World, now: Time, cut: nat)
    requires SpacingInv(w) && Enabled(w, Do(Reserving, now, cut))
    ensures SpacingInv(Step(w, Do(Reserving, now, cut)))
  {
    ReserveStep(w, now, cut);
    if Admits(w.live.value, w.policy, now) {
      LaterStartKeepsSpacing(w.log, ReconcileDay(w.live.value, w.policy, now), w.policy, now);
    }
  }

  lemma OpKeepsSpacing(w: World, op: Op, now: Time, cut: nat)
    requires SpacingInv(w) && Enabled(w, Do(op, now, cut)) && !op.Reserving?
    ensures SpacingInv(Step(w, Do(op, now, cut)))
  {
    var p := w.live.value;
    var w' := Step(w, Do(op, now, cut));
    StepKeepsHistoryBacked(w, Do(op, now, cut));
    OpHolders(w, p, op, now, cut);
    StartsAfterOp(p, w.policy, op, now);
    NoNewStarts(w.log, Logged(p, w.policy, op, now, cut));
    forall s | Some(s) in Holders(w') ensures NoEarlierThan(s, w'.log) {
      assert Some(s) in w.attempted || s.lastStart == p.lastStart;
      NothingNewIsEarlier(s, if Some(s) in w.attempted then s else p, w.log, Logged(p, w.policy, op, now, cut));
    }
  }

  lemma RestartKeepsSpacing(w: World, e: Event)
    requires SpacingInv(w) && e.Restart? && Enabled(w, e)
    ensures SpacingInv(Step(w, e))
  {
    StepKeepsHistoryBacked(w, e);
    var opening := Merge(e.base, e.recent);
    var s := Startup(opening, e.recovered, e.policy, e.now, e.seed);
    if opening.Some? {
      StartsAfterStartup(opening.value, e.recovered, e.policy, e.now, e.seed);
      assert SameStarts(opening.value, if e.recent.Some? then e.recent.value else e.base.value);
    }
    assert NoEarlierThan(s, w.log);
    assert forall h <- Holders(Step(w, e)) :: h == None || h in w.attempted || h == Some(s);
    assert Step(w, e).log == w.log;
  }

  lemma StepKeepsSpacing(w: World, e: Event)
    requires SpacingInv(w) && Enabled(w, e)
    ensures SpacingInv(Step(w, e))
  {
    match e {
      case Crash =>
      case Restart(_, _, _, _, _, _, _) => RestartKeepsSpacing(w, e);
      case Do(op, now, cut) =>
        if op.Reserving? {
          ReserveKeepsSpacing(w, now, cut);
        } else {
          OpKeepsSpacing(w, op, now, cut);
        }
    }
  }

  lemma {:induction false} RunKeepsSpacing(w: World, events: seq<Event>, w': World, allows: (World, Event) -> bool)
    requires SpacingInv(w) && Reaches(w, events, w', allows)
    ensures SpacingInv(w')
    decreases |events|
  {
    if events != [] {
      StepKeepsSpacing(w, events[0]);
      RunKeepsSpacing(Step(w, events[0]), events[1..], w', allows);
    }
  }

  // ---------------------------------------------------------------- Admissions survive

  ghost predicate ListInv(w: World) {
    && (None in w.attempted ==> Unacknowledged(w.log))
    && (forall p :: Some(p) in Holders(w) ==> Listed(p, w.log))
  }

  lemma ReconcileDayKeepsListed(p: ProviderState, policy: Policy, now: Time, log: seq<Fact>)
    requires ValidPolicy(policy) && Listed(p, log)
    ensures Listed(ReconcileDay(p, policy, now), log)
  {
    var q := ReconcileDay(p, policy, now);
    forall t | Day(t) >= q.day ensures AdmittedAt(log, t) <= multiset(q.runs)[t] {
      if Day(now) > p.day {
        KeptOften(p.runs, Day(now), t);
      }
    }
  }

  lemma NothingNewListed(p: ProviderState, log: seq<Fact>, more: seq<Fact>)
    requires Listed(p, log) && forall f <- more :: !f.Admitted?
    ensures Listed(p, log + more)
  {
    forall t | Day(t) >= p.day ensures AdmittedAt(log + more, t) <= multiset(p.runs)[t] {
      AdmittedAtAppend(log, more, t);
      UnacknowledgedAdmitsNothing(more, t);
    }
  }

  lemma AdmitKeepsListed(q: ProviderState, policy: Policy, now: Time, log: seq<Fact>)
    requires Listed(q, log)
    ensures Listed(Admit(q, now), log) && Listed(Admit(q, now), log + [Admitted(now, policy)])
  {
    var s := Admit(q, now);
    forall t | Day(t) >= s.day
      ensures AdmittedAt(log, t) <= multiset(s.runs)[t]
      ensures AdmittedAt(log + [Admitted(now, policy)], t) <= multiset(s.runs)[t]
    {
      assert (log + [Admitted(now, policy)])[..|log|] == log;
    }
  }

  lemma OpKeepsListed(w: World, op: Op, now: Time, cut: nat)
    requires ListInv(w) && Enabled(w, Do(op, now, cut)) && !op.Reserving?
    ensures ListInv(Step(w, Do(op, now, cut)))
  {
    var p := w.live.value;
    var w' := Step(w, Do(op, now, cut));
    StepKeepsHistoryBacked(w, Do(op, now, cut));
    OpHolders(w, p, op, now, cut);
    StartsAfterOp(p, w.policy, op, now);
    ReconcileDayKeepsListed(p, w.policy, now, w.log);
    forall s | Some(s) in Holders(w') ensures Listed(s, w'.log) {
      assert Listed(s, w.log) by {
        if s in Outcomes(EffectOf(p, w.policy, op, now)) {
          assert SameStarts(s, p) || SameStarts(s, ReconcileDay(p, w.policy, now));
        }
      }
      NothingNewListed(s, w.log, Logged(p, w.policy, op, now, cut));
    }
  }

  lemma ReserveKeepsListed(w: World, now: Time, cut: nat)
    requires ListInv(w) && Enabled(w, Do(Reserving, now, cut))
    ensures ListInv(Step(w, Do(Reserving, now, cut)))
  {
    ReserveStep(w, now, cut);
    ReconcileDayKeepsListed(w.live.value, w.policy, now, w.log);
    AdmitKeepsListed(ReconcileDay(w.live.value, w.policy, now), w.policy, now, w.log);
  }

  lemma SameStartsListed(a: ProviderState, b: ProviderState, log: seq<Fact>)
    requires SameStarts(a, b) && Listed(b, log)
    ensures Listed(a, log)
  {
  }

  lemma StartupKeepsListed(attempted: set<Option<ProviderState>>, e: Event, log: seq<Fact>)
    requires e.Restart? && ValidPolicy(e.policy) && e.base in attempted && e.recent in attempted
    requires None in attempted ==> Unacknowledged(log)
    requires forall p :: Some(p) in attempted ==> Listed(p, log)
    ensures Listed(Startup(Merge(e.base, e.recent), e.recovered, e.policy, e.now, e.seed), log)
  {
    var opening := Merge(e.base, e.recent);
    if opening.None? {
      forall t ensures AdmittedAt(log, t) == 0 {
        UnacknowledgedAdmitsNothing(log, t);
      }
    } else {
      var m := opening.value;
      var x := if e.recent.Some? then e.recent.value else e.base.value;
      SameStartsListed(m, x, log);
      StartsAfterStartup(m, e.recovered, e.policy, e.now, e.seed);
      ReconcileDayKeepsListed(m, e.policy, e.now, log);
      SameStartsListed(Startup(Some(m), e.recovered, e.policy, e.now, e.seed), ReconcileDay(m, e.policy, e.now), log);
    }
  }

  lemma RestartKeepsListed(w: World, e: Event)
    requires ListInv(w) && e.Restart? && Enabled(w, e)
    ensures ListInv(Step(w, e))
  {
    StepKeepsHistoryBacked(w, e);
    StartupKeepsListed(w.attempted, e, w.log);
    var s := Startup(Merge(e.base, e.recent), e.recovered, e.policy, e.now, e.seed);
    assert forall h <- Holders(Step(w, e)) :: h == None || h in w.attempted || h == Some(s);
    assert Step(w, e).log == w.log;
  }

  lemma StepKeepsListed(w: World, e: Event)
    requires ListInv(w) && Enabled(w, e)
    ensures ListInv(Step(w, e))
  {
    match e {
      case Crash =>
      case Restart(_, _, _, _, _, _, _) => RestartKeepsListed(w, e);
      case Do(op, now, cut) =>
        if op.Reserving? {
          ReserveKeepsListed(w, now, cut);
        } else {
          OpKeepsListed(w, op, now, cut);
        }
    }
  }

  /** Whatever a restart may find knows every acknowledged start. */
  ghost predicate Remembers(p: ProviderState, log: seq<Fact>) {
    && NoEarlierThan(p, log)
    && Counted(p, log)
    && Listed(p, log)
  }

  /** In particular each start of the current day or later is itself there. */
  lemma RememberedStart(p: ProviderState, log: seq<Fact>, i: nat)
    requires Remembers(p, log) && i < |log| && log[i].Admitted? && Day(log[i].at) >= p.day
    ensures log[i].at in p.runs
  {
    AcknowledgedOnce(log, i);
    assert multiset(p.runs)[log[i].at] > 0;
  }

  ghost predicate SurvivalInv(w: World) { CountInv(w) && SpacingInv(w) && ListInv(w) }

  lemma StepKeepsSurvival(w: World, e: Event)
    requires SurvivalInv(w) && Enabled(w, e)
    ensures SurvivalInv(Step(w, e))
  {
    StepKeepsSpacing(w, e);
    StepKeepsListed(w, e);
    match e {
      case Crash =>
      case Restart(_, _, _, _, _, _, _) => RestartKeepsCount(w, e);
      case Do(op, now, cut) =>
        if op.Reserving? {
          ReserveKeepsCount(w, now, cut);
        } else {
          OpKeepsCount(w, op, now, cut);
        }
    }
  }

  lemma {:induction false} RunKeepsSurvival(w: World, events: seq<Event>, w': World, allows: (World, Event) -> bool)
    requires SurvivalInv(w) && Reaches(w, events, w', allows)
    ensures SurvivalInv(w')
    decreases |events|
  {
    if events != [] {
      StepKeepsSurvival(w, events[0]);
      RunKeepsSurvival(Step(w, events[0]), events[1..], w', allows);
    }
  }

  /**
  After any run, whatever the clock does: every state a restart may find has a latest start no earlier than
  every acknowledged one, and holds each acknowledged start of its own day or later, as often as it was acknowledged.
  What recovery hands back has that too, since it takes both from the recorded state.
  */
  lemma AdmissionsSurvive(policy: Policy, t0: Time, events: seq<Event>, w: World, allows: (World, Event) -> bool,
                          base: Option<ProviderState>, recent: Option<ProviderState>)
    requires Reaches(Initial(policy, t0), events, w, allows)
    requires base in w.attempted && recent in w.attempted
    ensures match Merge(base, recent)
            case Some(p) => Remembers(p, w.log)
            case None => Unacknowledged(w.log)
  {
    RunKeepsSurvival(Initial(policy, t0), events, w, allows);
    var opening := Merge(base, recent);
    if opening.Some? {
      var x := if recent.Some? then recent.value else base.value;
      assert SameStarts(opening.value, x) && Remembers(x, w.log);
      SameStartsCounted(opening.value, x, w.log);
    }
  }

  /** In every run, whatever the clock does, every unforced start keeps the spacing from all earlier ones. */
  lemma SpacingHolds(policy: Policy, t0: Time, events: seq<Event>, w: World, allows: (World, Event) -> bool)
    requires Reaches(Initial(policy, t0), events, w, allows)
    ensures KeepsSpacing(w.log)
  {
    RunKeepsSpacing(Initial(policy, t0), events, w, allows);
  }
}
