/**
One trigger per degradation episode: on a UTC day an interface arms at most once more often than it is
seen to recover, through crashes, restarts, expiry, polls and reports, whatever the clock does.
*/
module TriggerRuns {
  import opened Values
  import opened SchedulerState
  import opened SlotPlanner
  import opened Admission
  import opened AdmissionRuns
  import opened StartLimits

  // ---------------------------------------------------------------- What operations do to latches

  function Latch(p: ProviderState, key: string): nat {
    if TriggerOf(p, key).latched then 1 else 0
  }

  ghost predicate SameLatches(a: ProviderState, b: ProviderState) {
    a.day == b.day && forall key :: Latch(a, key) == Latch(b, key)
  }

  lemma LatchAfterSet(p: ProviderState, key: string, t: TriggerState, other: string)
    ensures var s := SetTrigger(p, key, t);
            s.day == p.day && Latch(s, other) == if other == key then (if t.latched then 1 else 0) else Latch(p, other)
  {
  }

  lemma LatchesAfterDrop(p: ProviderState, key: string)
    ensures SameLatches(DropPending(p, key), p)
  {
    forall other ensures Latch(DropPending(p, key), other) == Latch(p, other) {
      LatchAfterSet(p, key, TriggerOf(p, key).(pending := None), other);
    }
  }

  lemma SameTriggers(a: ProviderState, b: ProviderState)
    requires a.day == b.day && a.triggers == b.triggers
    ensures SameLatches(a, b)
  {
  }

  lemma LatchesAfterExpiry(p: ProviderState, now: Time)
    ensures SameLatches(ExpireTriggers(p, now), p)
  {
    forall key ensures Latch(ExpireTriggers(p, now), key) == Latch(p, key) {
    }
  }

  lemma LatchesAfterOffer(r: ProviderState, policy: Policy, now: Time, chosen: Option<string>)
    requires chosen.Some? ==> chosen.value in r.triggers && r.triggers[chosen.value].pending.Some?
    ensures SameLatches(Offer(r, policy, now, chosen).state, r)
  {
    var s := Offer(r, policy, now, chosen).state;
    if s.triggers == r.triggers {
      SameTriggers(s, r);
    } else {
      assert s == DropPending(DropDue(r, now), chosen.value);
      LatchesAfterDrop(DropDue(r, now), chosen.value);
      SameTriggers(DropDue(r, now), r);
    }
  }

  lemma LatchesAfterPoll(q: ProviderState, policy: Policy, now: Time, latest: map<string, bool>, chosen: Option<string>)
    requires ChoiceFits(q, now, latest, chosen)
    ensures forall s <- PollStages(q, policy, now, latest, chosen) :: SameLatches(s, q)
  {
    var e := ExpireStage(q, now).state;
    LatchesAfterExpiry(q, now);
    assert SameLatches(e, q);
    SameTriggers(BeforeOffer(q, now), e);
    LatchesAfterOffer(BeforeOffer(q, now), policy, now, chosen);
  }

  lemma TriggersAfterLimit(p: ProviderState, policy: Policy, now: Time, opportunity: Opportunity, reserved: bool, limit: RateLimit)
    requires ValidPolicy(policy)
    ensures var s := FinishLimited(p, policy, now, opportunity, reserved, limit);
            s.day == p.day && s.triggers == DropPending(p, InterfaceKey(opportunity.interface)).triggers
  {
    assert Limit(p, policy, now, limit).1.triggers == p.triggers;
  }

  lemma TriggersAfterReport(p: ProviderState, policy: Policy, now: Time, opportunity: Opportunity, report: Report)
    requires ValidPolicy(policy)
    ensures var s := FinishUnlimited(p, policy, now, opportunity, report);
            s.day == p.day && s.triggers == DropPending(p, InterfaceKey(opportunity.interface)).triggers
  {
  }

  lemma LatchesAfterFinish(p: ProviderState, policy: Policy, now: Time, opportunity: Opportunity, report: Report)
    requires ValidPolicy(policy)
    ensures SameLatches(Finish(p, policy, now, opportunity, report).state, p)
  {
    var s := Finish(p, policy, now, opportunity, report).state;
    var key := InterfaceKey(opportunity.interface);
    if report.rateLimit.Some? {
      TriggersAfterLimit(p, policy, now, opportunity, report.reserved, report.rateLimit.value);
    } else {
      TriggersAfterReport(p, policy, now, opportunity, report);
    }
    LatchesAfterDrop(p, key);
    SameTriggers(s, DropPending(p, key));
  }

  /** Reconciling the day either changes no trigger or starts a later day with none. */
  predicate NewDay(s: ProviderState, p: ProviderState) { s.day > p.day && s.triggers == map[] }

  lemma LatchesAfterDay(p: ProviderState, policy: Policy, now: Time)
    requires ValidPolicy(policy)
    ensures var q := ReconcileDay(p, policy, now); NewDay(q, p) || (q.day == p.day && q.triggers == p.triggers)
  {
  }

  /** Only health decisions touch a latch; a new day starts with none. */
  lemma LatchesAfterOp(p: ProviderState, policy: Policy, op: Op, now: Time)
    requires ValidPolicy(policy) && OpEnabled(p, policy, op, now) && !op.Observing?
    ensures var q := ReconcileDay(p, policy, now);
            forall s <- Outcomes(EffectOf(p, policy, op, now)) :: SameLatches(s, p) || SameLatches(s, q)
  {
    if op.Finishing? {
      LatchesAfterFinish(p, policy, now, op.opportunity, op.report);
    } else if op.Reserving? {
      var q := ReconcileDay(p, policy, now);
      assert SameLatches(Admit(q, now), q);
    } else {
      var q := AdvanceClock(p, policy, now);
      OpOutcomes(p, policy, op, now);
      if op.Polling? {
        LatchesAfterPoll(q, policy, now, op.latest, op.chosen);
      }
      assert SameLatches(q, if RolledBack(p, now) then p else ReconcileDay(p, policy, now));
    }
  }

  // ---------------------------------------------------------------- Counting

  predicate Arming(f: Fact, key: string, day: int) { f.Armed? && f.interface == key && f.day == day }

  predicate Rearming(f: Fact, key: string, day: int) { f.Rearmed? && f.interface == key && f.day == day }

  function Armings(log: seq<Fact>, key: string, day: int): nat {
    if log == [] then 0
    else Armings(log[..|log| - 1], key, day) + (if Arming(log[|log| - 1], key, day) then 1 else 0)
  }

  function Recoveries(log: seq<Fact>, key: string, day: int): nat {
    if log == [] then 0
    else Recoveries(log[..|log| - 1], key, day) + (if Rearming(log[|log| - 1], key, day) then 1 else 0)
  }

  lemma CountOne(log: seq<Fact>, f: Fact, key: string, day: int)
    ensures Armings(log + [f], key, day) == Armings(log, key, day) + (if Arming(f, key, day) then 1 else 0)
    ensures Recoveries(log + [f], key, day) == Recoveries(log, key, day) + (if Rearming(f, key, day) then 1 else 0)
  {
    assert (log + [f])[..|log|] == log;
  }

  lemma {:induction false} UnacknowledgedArmsNone(log: seq<Fact>, key: string, day: int)
    requires Unacknowledged(log)
    ensures Armings(log, key, day) == 0
  {
    if log != [] {
      assert log[|log| - 1] in log;
      UnacknowledgedArmsNone(log[..|log| - 1], key, day);
    }
  }

  // ---------------------------------------------------------------- Over runs

  /** No arming of a later day; and an arming beyond the recoveries of this day is still latched. */
  ghost predicate Episodes(p: ProviderState, log: seq<Fact>) {
    forall key, day :: day >= p.day ==>
      Armings(log, key, day) <= if day == p.day then Recoveries(log, key, day) + Latch(p, key) else 0
  }

  ghost predicate AtMostOnePerEpisode(log: seq<Fact>) {
    forall key, day :: Armings(log, key, day) <= Recoveries(log, key, day) + 1
  }

  ghost predicate TriggerInv(w: World) {
    && (None in w.attempted ==> Unacknowledged(w.log))
    && (forall p :: Some(p) in Holders(w) ==> Episodes(p, w.log))
    && AtMostOnePerEpisode(w.log)
  }

  lemma EpisodesAlike(s: ProviderState, p: ProviderState, log: seq<Fact>)
    requires SameLatches(s, p) && Episodes(p, log)
    ensures Episodes(s, log)
  {
    forall key, day | day >= s.day
      ensures Armings(log, key, day) <= if day == s.day then Recoveries(log, key, day) + Latch(s, key) else 0
    {
      assert day >= p.day;
    }
  }

  lemma EpisodesOnNewDay(s: ProviderState, p: ProviderState, log: seq<Fact>)
    requires s.day > p.day && Episodes(p, log)
    ensures Episodes(s, log)
  {
    forall key, day | day >= s.day
      ensures Armings(log, key, day) <= if day == s.day then Recoveries(log, key, day) + Latch(s, key) else 0
    {
      assert day >= p.day;
    }
  }

  lemma EpisodesAfterDay(p: ProviderState, policy: Policy, now: Time, log: seq<Fact>)
    requires ValidPolicy(policy) && Episodes(p, log)
    ensures Episodes(ReconcileDay(p, policy, now), log)
  {
    var q := ReconcileDay(p, policy, now);
    LatchesAfterDay(p, policy, now);
    if NewDay(q, p) {
      EpisodesOnNewDay(q, p, log);
    } else {
      EpisodesAlike(q, p, log);
    }
  }

  /** More recoveries observed never hurt. */
  lemma OneMoreRecovery(p: ProviderState, log: seq<Fact>, key: string, day: int)
    requires Episodes(p, log)
    ensures Episodes(p, log + [Rearmed(key, day)])
    ensures AtMostOnePerEpisode(log) ==> AtMostOnePerEpisode(log + [Rearmed(key, day)])
  {
    forall k, d
      ensures Armings(log + [Rearmed(key, day)], k, d) == Armings(log, k, d)
      ensures Recoveries(log + [Rearmed(key, day)], k, d) >= Recoveries(log, k, d)
    {
      CountOne(log, Rearmed(key, day), k, d);
    }
  }

  lemma OtherFact(p: ProviderState, log: seq<Fact>, f: Fact)
    requires !f.Armed? && !f.Rearmed? && Episodes(p, log)
    ensures Episodes(p, log + [f])
    ensures AtMostOnePerEpisode(log) ==> AtMostOnePerEpisode(log + [f])
  {
    forall k, d
      ensures Armings(log + [f], k, d) == Armings(log, k, d)
      ensures Recoveries(log + [f], k, d) == Recoveries(log, k, d)
    {
      CountOne(log, f, k, d);
    }
  }

  lemma LatchAfterArm(q: ProviderState, policy: Policy, now: Time, interface: Option<string>, cause: DegradedBy, key: string)
    ensures var s := Arm(q, policy, now, interface, cause);
            s.day == q.day && Latch(s, key) == if key == InterfaceKey(interface) then 1 else Latch(q, key)
  {
    var t := TriggerState(Some(PendingTrigger(ReasonOf(cause), now, AddDuration(now, policy.pendingTtl))), true);
    if q.deferred.Some? {
      var joined := q.(deferred := Some(q.deferred.value.(reason := ReasonOf(cause), interface := interface)));
      LatchAfterSet(joined, InterfaceKey(interface), TriggerState(None, true), key);
      assert Latch(joined, key) == Latch(q, key);
    } else {
      LatchAfterSet(q, InterfaceKey(interface), t, key);
    }
  }

  /** Arming needs an unlatched interface, and latches it. */
  lemma ArmedEpisodes(q: ProviderState, s: ProviderState, key: string, log: seq<Fact>)
    requires Episodes(q, log) && AtMostOnePerEpisode(log) && Latch(q, key) == 0
    requires s.day == q.day && forall k :: Latch(s, k) == if k == key then 1 else Latch(q, k)
    ensures Episodes(s, log) && Episodes(s, log + [Armed(key, q.day)]) && AtMostOnePerEpisode(log + [Armed(key, q.day)])
  {
    var log' := log + [Armed(key, q.day)];
    forall k, d
      ensures Armings(log', k, d) == Armings(log, k, d) + (if k == key && d == q.day then 1 else 0)
      ensures Recoveries(log', k, d) == Recoveries(log, k, d)
    {
      CountOne(log, Armed(key, q.day), k, d);
    }
    assert Armings(log, key, q.day) <= Recoveries(log, key, q.day) + Latch(q, key);
  }

  /** Unlatching is paid for by the recovery observed. */
  lemma RearmedEpisodes(q: ProviderState, s: ProviderState, key: string, log: seq<Fact>)
    requires Episodes(q, log)
    requires s.day == q.day && forall k :: k != key ==> Latch(s, k) == Latch(q, k)
    ensures Episodes(s, log + [Rearmed(key, q.day)])
  {
    var log' := log + [Rearmed(key, q.day)];
    forall k, d | d >= s.day
      ensures Armings(log', k, d) <= if d == s.day then Recoveries(log', k, d) + Latch(s, k) else 0
    {
      CountOne(log, Rearmed(key, q.day), k, d);
      assert Armings(log, k, d) <= if d == q.day then Recoveries(log, k, d) + Latch(q, k) else 0;
    }
  }

  /** A health decision: what it leaves, and what it adds to the log, keep the count. */
  lemma HeedKeepsEpisodes(q: ProviderState, policy: Policy, now: Time, interface: Option<string>, decision: HealthDecision,
                          log: seq<Fact>)
    requires Episodes(q, log) && AtMostOnePerEpisode(log)
    ensures var key := InterfaceKey(interface);
            var seen := if decision.Recovered? then log + [Rearmed(key, q.day)] else log;
            var done := if Arms(q, interface, decision) then seen + [Armed(key, q.day)] else seen;
            var s := Heed(q, policy, now, interface, decision).state;
            && AtMostOnePerEpisode(seen) && AtMostOnePerEpisode(done)
            && Episodes(s, seen) && Episodes(s, done)
  {
    var key := InterfaceKey(interface);
    var s := Heed(q, policy, now, interface, decision).state;
    if Arms(q, interface, decision) {
      forall k ensures Latch(s, k) == if k == key then 1 else Latch(q, k) {
        LatchAfterArm(q, policy, now, interface, decision.cause, k);
      }
      ArmedEpisodes(q, s, key, log);
    } else if decision.Recovered? {
      OneMoreRecovery(q, log, key, q.day);
      RearmedEpisodes(q, s, key, log);
    }
  }

  lemma ObserveLogged(p: ProviderState, policy: Policy, now: Time, interface: Option<string>, decision: HealthDecision, cut: nat, log: seq<Fact>)
    requires ValidPolicy(policy)
    ensures var q := AdvanceClock(p, policy, now);
            var op := Observing(interface, decision);
            var key := InterfaceKey(interface);
            var seen := if decision.Recovered? then log + [Rearmed(key, q.day)] else log;
            log + Logged(p, policy, op, now, cut) ==
              if Arms(q, interface, decision) && cut >= |Observe(p, policy, now, interface, decision).saves|
              then seen + [Armed(key, q.day)] else seen
  {
    assert log + [] == log;
  }

  /** An acknowledged arming is the only state left to find. */
  lemma ArmedIsAlone(w: World, interface: Option<string>, decision: HealthDecision, now: Time, cut: nat)
    requires Enabled(w, Do(Observing(interface, decision), now, cut))
    requires Arms(AdvanceClock(w.live.value, w.policy, now), interface, decision)
    requires cut >= |Observe(w.live.value, w.policy, now, interface, decision).saves|
    ensures var s := Heed(AdvanceClock(w.live.value, w.policy, now), w.policy, now, interface, decision).state;
            Holders(Step(w, Do(Observing(interface, decision), now, cut))) == {Some(s)}
  {
  }

  /** What an observation leaves, where it is not an acknowledged arming. */
  lemma ObserveLeaves(w: World, interface: Option<string>, decision: HealthDecision, now: Time, cut: nat, seen: seq<Fact>)
    requires TriggerInv(w) && Enabled(w, Do(Observing(interface, decision), now, cut))
    requires var q := AdvanceClock(w.live.value, w.policy, now);
             && seen == (if decision.Recovered? then w.log + [Rearmed(InterfaceKey(interface), q.day)] else w.log)
             && Episodes(q, w.log)
             && Episodes(Heed(q, w.policy, now, interface, decision).state, seen)
    ensures forall x :: Some(x) in Holders(Step(w, Do(Observing(interface, decision), now, cut))) ==> Episodes(x, seen)
  {
    var p := w.live.value;
    var op := Observing(interface, decision);
    var q := AdvanceClock(p, w.policy, now);
    OpHolders(w, p, op, now, cut);
    OpOutcomes(p, w.policy, op, now);
    forall x | Some(x) in Holders(Step(w, Do(op, now, cut))) ensures Episodes(x, seen) {
      if Some(x) in w.attempted || x == q {
        if decision.Recovered? {
          OneMoreRecovery(x, w.log, InterfaceKey(interface), q.day);
        }
      } else {
        assert x in Outcomes(EffectOf(p, w.policy, op, now));
        assert Follows(x, p, w.policy, op, now);
      }
    }
  }

  lemma EpisodesAfterAdvance(p: ProviderState, policy: Policy, now: Time, log: seq<Fact>)
    requires ValidPolicy(policy) && Episodes(p, log)
    ensures Episodes(AdvanceClock(p, policy, now), log)
  {
    EpisodesAfterDay(p, policy, now, log);
    EpisodesAlike(AdvanceClock(p, policy, now), if RolledBack(p, now) then p else ReconcileDay(p, policy, now), log);
  }

  lemma ObserveKeepsTriggers(w: World, interface: Option<string>, decision: HealthDecision, now: Time, cut: nat)
    requires TriggerInv(w) && Enabled(w, Do(Observing(interface, decision), now, cut))
    ensures TriggerInv(Step(w, Do(Observing(interface, decision), now, cut)))
  {
    var p := w.live.value;
    var q := AdvanceClock(p, w.policy, now);
    var seen := if decision.Recovered? then w.log + [Rearmed(InterfaceKey(interface), q.day)] else w.log;
    StepKeepsHistoryBacked(w, Do(Observing(interface, decision), now, cut));
    EpisodesAfterAdvance(p, w.policy, now, w.log);
    ObserveLogged(p, w.policy, now, interface, decision, cut, w.log);
    HeedKeepsEpisodes(q, w.policy, now, interface, decision, w.log);
    if Arms(q, interface, decision) && cut >= |Observe(p, w.policy, now, interface, decision).saves| {
      ArmedIsAlone(w, interface, decision, now, cut);
    } else {
      ObserveLeaves(w, interface, decision, now, cut, seen);
    }
  }

  lemma OpKeepsTriggers(w: World, op: Op, now: Time, cut: nat)
    requires TriggerInv(w) && Enabled(w, Do(op, now, cut)) && !op.Observing?
    ensures TriggerInv(Step(w, Do(op, now, cut)))
  {
    var p := w.live.value;
    var w' := Step(w, Do(op, now, cut));
    StepKeepsHistoryBacked(w, Do(op, now, cut));
    OpHolders(w, p, op, now, cut);
    LatchesAfterOp(p, w.policy, op, now);
    EpisodesAfterDay(p, w.policy, now, w.log);
    var more := Logged(p, w.policy, op, now, cut);
    assert w'.log == w.log + more;
    assert more != [] ==> more == [more[0]];
    forall s | Some(s) in Holders(w') ensures Episodes(s, w'.log) {
      if s in Outcomes(EffectOf(p, w.policy, op, now)) {
        if SameLatches(s, p) {
          EpisodesAlike(s, p, w.log);
        } else {
          EpisodesAlike(s, ReconcileDay(p, w.policy, now), w.log);
        }
      }
      if more == [] {
        assert w'.log == w.log;
      } else {
        OtherFact(s, w.log, more[0]);
      }
    }
    if more == [] {
      assert w'.log == w.log;
    } else {
      OtherFact(p, w.log, more[0]);
    }
  }

  /** Starting under a policy that newly allows no tests forgets every latch. */
  predicate ForgetsLatches(e: Event) {
    && e.Restart? && Merge(e.base, e.recent).Some?
    && PolicyChanged(Merge(e.base, e.recent).value, e.policy) && e.policy.dailyMax == 0
  }

  predicate KeepsLatches(w: World, e: Event) { !ForgetsLatches(e) }

  lemma StartupLatches(m: ProviderState, recovered: bool, policy: Policy, now: Time, seed: bv64)
    requires ValidPolicy(policy) && !(PolicyChanged(m, policy) && policy.dailyMax == 0)
    ensures SameLatches(Startup(Some(m), recovered, policy, now, seed), ReconcileDay(m, policy, now))
  {
  }

  /** After such a start a degraded interface arms again without having recovered. */
  lemma ForgottenLatchArmsAgain(m: ProviderState, recovered: bool, policy: Policy, now: Time, seed: bv64,
                                interface: Option<string>, cause: DegradedBy)
    requires ValidPolicy(policy) && PolicyChanged(m, policy) && policy.dailyMax == 0 && Day(now) <= m.day
    ensures Arms(Startup(Some(m), recovered, policy, now, seed), interface, Degraded(cause))
    ensures Startup(Some(m), recovered, policy, now, seed).day == m.day
  {
  }

  /** A start lets a latched interface arm again exactly if a new day began or the policy newly allows no tests. */
  lemma StartForgetsLatchIff(m: ProviderState, recovered: bool, policy: Policy, now: Time, seed: bv64,
                             interface: Option<string>, cause: DegradedBy)
    requires ValidPolicy(policy) && TriggerOf(m, InterfaceKey(interface)).latched
    ensures Arms(Startup(Some(m), recovered, policy, now, seed), interface, Degraded(cause))
            <==> Day(now) > m.day || (PolicyChanged(m, policy) && policy.dailyMax == 0)
    ensures Startup(Some(m), recovered, policy, now, seed).day == Max(m.day, Day(now))
  {
  }

  lemma RestartKeepsTriggers(w: World, e: Event)
    requires TriggerInv(w) && e.Restart? && Enabled(w, e) && KeepsLatches(w, e)
    ensures TriggerInv(Step(w, e))
  {
    StepKeepsHistoryBacked(w, e);
    var opening := Merge(e.base, e.recent);
    var s := Startup(opening, e.recovered, e.policy, e.now, e.seed);
    if opening.Some? {
      EpisodesAlike(opening.value, if e.recent.Some? then e.recent.value else e.base.value, w.log);
      EpisodesAfterDay(opening.value, e.policy, e.now, w.log);
      StartupLatches(opening.value, e.recovered, e.policy, e.now, e.seed);
      EpisodesAlike(s, ReconcileDay(opening.value, e.policy, e.now), w.log);
    } else {
      forall key, day ensures Armings(w.log, key, day) == 0 {
        UnacknowledgedArmsNone(w.log, key, day);
      }
    }
    assert forall h <- Holders(Step(w, e)) :: h == None || h in w.attempted || h == Some(s);
    assert Step(w, e).log == w.log;
  }

  lemma {:induction false} RunKeepsTriggers(w: World, events: seq<Event>, w': World)
    requires TriggerInv(w) && Reaches(w, events, w', KeepsLatches)
    ensures TriggerInv(w')
    decreases |events|
  {
    if events != [] {
      match events[0] {
        case Crash =>
        case Restart(_, _, _, _, _, _, _) => RestartKeepsTriggers(w, events[0]);
        case Do(op, now, cut) =>
          match op {
            case Observing(interface, decision) => ObserveKeepsTriggers(w, interface, decision, now, cut);
            case _ => OpKeepsTriggers(w, op, now, cut);
          }
      }
      RunKeepsTriggers(Step(w, events[0]), events[1..], w');
    }
  }

  /** On each day an interface arms at most once more than it recovers. */
  lemma OneTriggerPerEpisode(policy: Policy, t0: Time, events: seq<Event>, w: World, key: string, day: int)
    requires Reaches(Initial(policy, t0), events, w, KeepsLatches)
    ensures Armings(w.log, key, day) <= Recoveries(w.log, key, day) + 1
  {
    RunKeepsTriggers(Initial(policy, t0), events, w);
  }
}
