/**
What planning leaves in a provider's state, told from its last start, its cooldown, its starts of the day and the
clock: which part of the day is planned, how many slots it gets and where they lie.
*/
module PlanLaws {
  import opened Values
  import opened SchedulerState
  import opened SlotPlanner
  import opened Admission
  import opened ValidRuns
  import opened OfferLaws

  // ---------------------------------------------------------------- Starts of a day

  function OnDay(runs: seq<Time>, day: int): set<nat> {
    set i: nat | i < |runs| && Day(runs[i]) == day
  }

  /** How many of these starts lie on a day. */
  function StartsOn(runs: seq<Time>, day: int): nat { |OnDay(runs, day)| }

  lemma {:induction false} CountsStarts(runs: seq<Time>, day: int)
    ensures RunsOnDay(runs, day) == StartsOn(runs, day)
    decreases |runs|
  {
    if runs == [] {
      assert OnDay(runs, day) == {};
    } else {
      var n: nat := |runs| - 1;
      CountsStarts(runs[..n], day);
      assert OnDay(runs, day) == OnDay(runs[..n], day) + (if Day(runs[n]) == day then {n} else {});
      assert n !in OnDay(runs[..n], day);
    }
  }

  // ---------------------------------------------------------------- What a plan is

  /** The spacing after the last start, and any cooldown, are over. */
  predicate MayStart(last: Option<Time>, cooldown: Option<Time>, policy: Policy, t: Time) {
    && (last.Some? ==> t >= AddDuration(last.value, policy.minSpacing))
    && (cooldown.Some? ==> t >= cooldown.value)
  }

  /** The first instant, from `start` on, at which they are. */
  ghost predicate FirstChance(last: Option<Time>, cooldown: Option<Time>, policy: Policy, start: Time, from: Time) {
    && from >= start && MayStart(last, cooldown, policy, from)
    && forall t :: start <= t < from ==> !MayStart(last, cooldown, policy, t)
  }

  /** Where the i-th of so many equal parts begins. */
  function Part(from: Time, end: Time, count: nat, i: nat): Time
    requires from <= end && count >= 1
  {
    var length: nat := end - from;
    from + length * i / count
  }

  /** The spacing fits in what jitter leaves of one part. */
  predicate SpacingFits(policy: Policy, from: Time, end: Time, count: nat)
    requires from <= end && count >= 1
  {
    var part: nat := (end - from) / count;
    policy.minSpacing <= part - part * policy.jitter / 100
  }

  predicate OnePerPart(slots: seq<Time>, from: Time, end: Time, count: nat)
    requires from <= end && count >= 1
  {
    |slots| == count && forall i :: 0 <= i < count ==> Part(from, end, count, i) <= slots[i] < Part(from, end, count, i + 1)
  }

  /** At most so many slots, spaced, from `from` to `end`; at least one; and one in each part if the spacing fits. */
  predicate IsPlan(slots: seq<Time>, policy: Policy, from: Time, end: Time, count: nat) {
    && AllSpaced(slots, policy.minSpacing)
    && (forall s <- slots :: from <= s < end)
    && |slots| <= count
    && (count >= 1 && from < end ==>
          slots != [] && (SpacingFits(policy, from, end, count) ==> OnePerPart(slots, from, end, count)))
  }

  /** What is left of a plan after `now`. */
  predicate IsLaterPart(rest: seq<Time>, whole: seq<Time>, now: Time) {
    exists k: nat | k <= |whole| ::
      && rest == whole[k..]
      && (forall i :: 0 <= i < k ==> whole[i] <= now)
      && (forall i :: k <= i < |whole| ==> whole[i] > now)
  }

  // ---------------------------------------------------------------- The planner meets it

  lemma EarliestIsFirstChance(p: ProviderState, policy: Policy, start: Time)
    ensures FirstChance(p.lastStart, p.cooldown, policy, start, EarliestSlot(p, policy, start))
  {
  }

  lemma CandidateInPart(iv: Interval, i: nat, drawn: nat)
    requires iv.Valid() && i < iv.count && iv.Total() >= iv.count
    ensures iv.earliest + StratumStart(iv.Total(), iv.count, i) <= Candidate(iv, i, drawn)
    ensures Candidate(iv, i, drawn) < iv.earliest + StratumStart(iv.Total(), iv.count, i + 1)
  {
    var total, count := iv.Total(), iv.count;
    StratumBounds(total, count, i);
    DivideMonotone(count, total, count);
    var w := Width(total, count, i);
    UnjitteredMonotone(0, w, iv.jitter);
    var j := JitterWidth(w, iv.jitter);
    assert j != 0 ==> drawn % j < j;
  }

  lemma {:induction false} FirstAlwaysFits(iv: Interval, rng: bv64, n: nat)
    requires iv.Valid() && 1 <= n <= iv.count
    ensures var slots := PlanStrata(iv, rng, n).0;
            slots != [] && slots[0] == Candidate(iv, 0, (if Draws(iv, 0) then NextRandom(rng) else rng) as nat)
  {
    if n == 1 {
      assert PlanStrata(iv, rng, 0) == ([], rng);
      CandidateWithin(iv, 0, (if Draws(iv, 0) then NextRandom(rng) else rng) as nat);
    } else {
      FirstAlwaysFits(iv, rng, n - 1);
    }
  }

  lemma {:induction false} SlotsInTheirParts(iv: Interval, rng: bv64, n: nat)
    requires iv.Valid() && n <= iv.count && iv.spacing <= GuaranteedGap(iv) && iv.Total() >= iv.count
    ensures var slots := PlanStrata(iv, rng, n).0;
            && |slots| == n
            && forall i :: 0 <= i < n ==>
                 iv.earliest + StratumStart(iv.Total(), iv.count, i) <= slots[i]
                 < iv.earliest + StratumStart(iv.Total(), iv.count, i + 1)
  {
    EveryStratumGetsASlot(iv, rng, n);
    if n > 0 {
      SlotsInTheirParts(iv, rng, n - 1);
      CandidateInPart(iv, n - 1, PlanStrata(iv, rng, n).1 as nat);
    }
  }

  lemma SpacingFitsOften(iv: Interval, policy: Policy)
    requires iv.Valid() && iv.jitter == policy.jitter && iv.spacing == policy.minSpacing && policy.minSpacing > 0
    requires SpacingFits(policy, iv.earliest, iv.end, iv.count)
    ensures iv.spacing <= GuaranteedGap(iv) && iv.Total() >= iv.count
  {
    var q := iv.Total() / iv.count;
    UnjitteredMonotone(0, q, iv.jitter);
    assert q >= 1;
    assert iv.Total() == q * iv.count + iv.Total() % iv.count;
    Product(1, q, iv.count);
  }

  lemma StrataOnePerPart(iv: Interval, rng: bv64, policy: Policy)
    requires iv.Valid() && iv.jitter == policy.jitter && iv.spacing == policy.minSpacing && policy.minSpacing > 0
    requires SpacingFits(policy, iv.earliest, iv.end, iv.count)
    ensures OnePerPart(PlanStrata(iv, rng, iv.count).0, iv.earliest, iv.end, iv.count)
  {
    SpacingFitsOften(iv, policy);
    SlotsInTheirParts(iv, rng, iv.count);
  }

  lemma StrataArePlan(iv: Interval, rng: bv64, policy: Policy)
    requires iv.Valid() && iv.jitter == policy.jitter && iv.spacing == policy.minSpacing && policy.minSpacing > 0
    requires iv.end <= MAX_UTC
    ensures IsPlan(PlanStrata(iv, rng, iv.count).0, policy, iv.earliest, iv.end, iv.count)
  {
    var slots := PlanStrata(iv, rng, iv.count).0;
    PlannedSlots(iv, rng, iv.count);
    SpacedNeighbours(slots, policy.minSpacing);
    FirstAlwaysFits(iv, rng, iv.count);
    if SpacingFits(policy, iv.earliest, iv.end, iv.count) {
      StrataOnePerPart(iv, rng, policy);
    }
  }

  lemma SlotsArePlan(p: ProviderState, policy: Policy, start: Time, end: Time, count: nat) returns (from: Time)
    requires ValidPolicy(policy) && end <= MAX_UTC
    ensures FirstChance(p.lastStart, p.cooldown, policy, start, from)
    ensures IsPlan(PlanSlots(p, policy, start, end, count).0, policy, from, end, count)
  {
    from := EarliestSlot(p, policy, start);
    EarliestIsFirstChance(p, policy, start);
    if count != 0 && from < end {
      StrataArePlan(Interval(from, end, count, policy.jitter, policy.minSpacing), p.rng, policy);
    }
  }

  // ---------------------------------------------------------------- Replanning the rest of a day

  /** What the day's allowance still has. */
  function Unused(p: ProviderState, policy: Policy, now: Time): nat {
    Max(policy.dailyMax - StartsOn(p.runs, Day(now)), 0)
  }

  /** The slots are a plan for the rest of the day: from now, within the allowance that is unused. */
  ghost predicate PlansTheRest(p: ProviderState, policy: Policy, now: Time, from: Time, slots: seq<Time>) {
    FirstChance(p.lastStart, p.cooldown, policy, now, from) && IsPlan(slots, policy, from, DayEnd(Day(now)), Unused(p, policy, now))
  }

  predicate OnlyReplanned(p: ProviderState, r: ProviderState) { r == p.(slots := r.slots, rng := r.rng) }

  lemma RestAfterReplan(p: ProviderState, r: ProviderState, policy: Policy, now: Time, from: Time)
    requires OnlyReplanned(p, r) && PlansTheRest(p, policy, now, from, r.slots)
    ensures PlansTheRest(r, policy, now, from, r.slots)
  {
    assert Unused(r, policy, now) == Unused(p, policy, now);
  }

  lemma ReplanPlansTheRest(p: ProviderState, policy: Policy, now: Time) returns (from: Time)
    requires ValidPolicy(policy) && InCalendar(now)
    ensures var r := ReplanRemaining(p, policy, now);
            OnlyReplanned(p, r) && PlansTheRest(r, policy, now, from, r.slots)
  {
    CountsStarts(p.runs, Day(now));
    from := SlotsArePlan(p, policy, now, DayEnd(Day(now)), Unused(p, policy, now));
    var r := ReplanRemaining(p, policy, now);
    assert r.slots == PlanSlots(p, policy, now, DayEnd(Day(now)), Unused(p, policy, now)).0;
    RestAfterReplan(p, r, policy, now, from);
  }

  /** So each of them is not before now, keeps the spacing from the last start, and is neither in a cooldown nor tomorrow. */
  lemma RestIsDue(p: ProviderState, policy: Policy, now: Time, from: Time, slots: seq<Time>)
    requires PlansTheRest(p, policy, now, from, slots)
    ensures forall s <- slots :: now <= s < DayEnd(Day(now)) && MayStart(p.lastStart, p.cooldown, policy, s)
  {
  }

  /** A replan may put a slot at this very instant: exactly if a start may be now and the first draw leaves no delay. */
  lemma ReplansNowIff(p: ProviderState, policy: Policy, now: Time)
    requires ValidPolicy(policy) && InCalendar(now) && Unused(p, policy, now) >= 1
    ensures var part := Max(Part(now, DayEnd(Day(now)), Unused(p, policy, now), 1) - now, 1);
            var drawn := part * policy.jitter / 100;
            now in ReplanRemaining(p, policy, now).slots
            <==> MayStart(p.lastStart, p.cooldown, policy, now) && part - drawn < 2 && (drawn == 0 || NextRandom(p.rng) as nat % drawn == 0)
  {
    var end, count := DayEnd(Day(now)), Unused(p, policy, now);
    CountsStarts(p.runs, Day(now));
    var from := SlotsArePlan(p, policy, now, end, count);
    var slots := ReplanRemaining(p, policy, now).slots;
    if MayStart(p.lastStart, p.cooldown, policy, now) {
      assert from == now == EarliestSlot(p, policy, now);
      var iv := Interval(now, end, count, policy.jitter, policy.minSpacing);
      FirstAlwaysFits(iv, p.rng, count);
      FirstCandidate(iv, p.rng);
      assert forall i :: 0 < i < |slots| ==> slots[i] >= slots[0] + policy.minSpacing;
    }
  }

  lemma FirstCandidate(iv: Interval, rng: bv64)
    requires iv.Valid()
    ensures var part := Max(Part(iv.earliest, iv.end, iv.count, 1) - iv.earliest, 1);
            var drawn := part * iv.jitter / 100;
            Candidate(iv, 0, (if Draws(iv, 0) then NextRandom(rng) else rng) as nat) == iv.earliest
            <==> part - drawn < 2 && (drawn == 0 || NextRandom(rng) as nat % drawn == 0)
  {
    var w := Width(iv.Total(), iv.count, 0);
    UnjitteredMonotone(0, w, iv.jitter);
    assert StratumStart(iv.Total(), iv.count, 0) == 0;
  }

  /** So a replan in a day's last millisecond always puts one there. */
  lemma LastMillisecondReplansNow(p: ProviderState, policy: Policy, now: Time)
    requires ValidPolicy(policy) && InCalendar(now) && Unused(p, policy, now) >= 1
    requires now == DayEnd(Day(now)) - 1 && MayStart(p.lastStart, p.cooldown, policy, now)
    ensures now in ReplanRemaining(p, policy, now).slots
  {
    ReplansNowIff(p, policy, now);
    var count := Unused(p, policy, now);
    StratumStartsBefore(1, count, 1);
    assert Part(now, now + 1, count, 1) - now <= 1;
    assert 1 * policy.jitter / 100 <= 1;
  }

  // ---------------------------------------------------------------- Planning a whole day

  /** The slots are what is left after now of a plan for the whole day, within the whole allowance. */
  ghost predicate PlansTheDay(p: ProviderState, policy: Policy, now: Time, from: Time, whole: seq<Time>, slots: seq<Time>) {
    && FirstChance(p.lastStart, p.cooldown, policy, DayStart(Day(now)), from)
    && IsPlan(whole, policy, from, DayEnd(Day(now)), policy.dailyMax)
    && IsLaterPart(slots, whole, now)
  }

  lemma DayAfterReplan(p: ProviderState, r: ProviderState, policy: Policy, now: Time, from: Time, whole: seq<Time>)
    requires OnlyReplanned(p, r) && PlansTheDay(p, policy, now, from, whole, r.slots)
    ensures PlansTheDay(r, policy, now, from, whole, r.slots)
  {
  }

  lemma FullDayPlansTheDay(p: ProviderState, policy: Policy, now: Time) returns (from: Time, whole: seq<Time>)
    requires ValidPolicy(policy) && InCalendar(now)
    ensures var r := PlanFullDay(p, policy, now);
            OnlyReplanned(p, r) && PlansTheDay(r, policy, now, from, whole, r.slots)
  {
    whole := PlanSlots(p, policy, DayStart(Day(now)), DayEnd(Day(now)), policy.dailyMax).0;
    from := SlotsArePlan(p, policy, DayStart(Day(now)), DayEnd(Day(now)), policy.dailyMax);
    var r := PlanFullDay(p, policy, now);
    LaterPartOf(whole, policy.minSpacing, now);
    assert r.slots == Keep(whole, s => s > now);
    DayAfterReplan(p, r, policy, now, from, whole);
  }

  lemma LaterPartOf(whole: seq<Time>, gap: nat, now: Time)
    requires gap > 0 && AllSpaced(whole, gap)
    ensures IsLaterPart(Keep(whole, s => s > now), whole, now)
  {
    var k := FutureIsASuffix(whole, gap, now);
  }

  lemma DayIsDue(p: ProviderState, policy: Policy, now: Time, from: Time, whole: seq<Time>, slots: seq<Time>)
    requires PlansTheDay(p, policy, now, from, whole, slots)
    ensures forall s <- slots :: now < s < DayEnd(Day(now)) && MayStart(p.lastStart, p.cooldown, policy, s)
  {
    var k: nat :| k <= |whole| && slots == whole[k..]
                  && (forall i :: 0 <= i < k ==> whole[i] <= now) && (forall i :: k <= i < |whole| ==> whole[i] > now);
    forall s <- slots ensures now < s < DayEnd(Day(now)) && MayStart(p.lastStart, p.cooldown, policy, s) {
      var i :| 0 <= i < |slots| && slots[i] == s;
      assert s == whole[k + i];
      assert s in whole;
    }
  }

  // ---------------------------------------------------------------- What the operations leave

  /** A new day keeps its own starts, a cooldown still in force and the latest start; it forgets the rest and is planned anew. */
  lemma NewDayIs(p: ProviderState, policy: Policy, now: Time) returns (from: Time, whole: seq<Time>)
    requires ValidPolicy(policy) && InCalendar(now) && Day(now) > p.day
    ensures var r := ReconcileDay(p, policy, now);
            && r == p.(day := Day(now), runs := r.runs, deferred := None, triggers := map[], cooldown := r.cooldown,
                       slots := r.slots, rng := r.rng)
            && (forall t :: multiset(r.runs)[t] == if Day(t) >= Day(now) then multiset(p.runs)[t] else 0)
            && r.cooldown == (if p.cooldown.Some? && p.cooldown.value > now then p.cooldown else None)
            && PlansTheDay(r, policy, now, from, whole, r.slots)
  {
    var day := Day(now);
    var runs := Keep(p.runs, r => Day(r) >= day);
    forall t ensures multiset(runs)[t] == if Day(t) >= day then multiset(p.runs)[t] else 0 {
      KeptOften(p.runs, day, t);
    }
    from, whole := FullDayPlansTheDay(
      p.(day := day, runs := runs, deferred := None, triggers := map[],
         cooldown := if p.cooldown.Some? && p.cooldown.value > now then p.cooldown else None),
      policy, now);
  }

  lemma {:induction false} KeptOften(runs: seq<Time>, day: int, t: Time)
    ensures multiset(Keep(runs, r => Day(r) >= day))[t] == if Day(t) >= day then multiset(runs)[t] else 0
    decreases |runs|
  {
    if runs != [] {
      KeptOften(runs[..|runs| - 1], day, t);
      assert runs == runs[..|runs| - 1] + [runs[|runs| - 1]];
    }
  }

  /** A provider not known before starts with nothing but a plan for the day. */
  lemma NewProviderIs(policy: Policy, now: Time, seed: bv64) returns (from: Time, whole: seq<Time>)
    requires ValidPolicy(policy) && InCalendar(now)
    ensures var r := Startup(None, false, policy, now, seed);
            && r == ProviderState(Day(now), r.slots, [], None, None, 0, None, map[], policy.dailyMax, policy.minSpacing,
                                  policy.jitter, r.rng, now)
            && PlansTheDay(r, policy, now, from, whole, r.slots)
  {
    from, whole := FullDayPlansTheDay(
      ProviderState(Day(now), [], [], None, None, 0, None, map[],
                    policy.dailyMax, policy.minSpacing, policy.jitter, if seed == 0 then 1 else seed, now),
      policy, now);
  }

  /** On the day and under the policy it knew, a provider found unrecovered keeps all but the slots that have passed. */
  lemma SameDayStartupIs(p: ProviderState, policy: Policy, now: Time, seed: bv64)
    requires ValidPolicy(policy) && Day(now) <= p.day && WellFormed(p) && !PolicyChanged(p, policy)
    ensures var r := Startup(Some(p), false, policy, now, seed);
            r == p.(slots := r.slots, lastObserved := Max(p.lastObserved, now)) && IsLaterPart(r.slots, p.slots, now)
  {
    LaterPartOf(p.slots, p.policyMinSpacing, now);
  }

  /** On a new day under the policy it knew, it is planned anew. */
  lemma NewDayStartupIs(p: ProviderState, policy: Policy, now: Time, seed: bv64) returns (from: Time, whole: seq<Time>)
    requires ValidPolicy(policy) && InCalendar(now) && Day(now) > p.day && !PolicyChanged(p, policy)
    ensures var r, q := Startup(Some(p), false, policy, now, seed), ReconcileDay(p, policy, now);
            r == q.(lastObserved := Max(p.lastObserved, now)) && PlansTheDay(r, policy, now, from, whole, r.slots)
  {
    from, whole := NewDayIs(p, policy, now);
    var q := ReconcileDay(p, policy, now);
    DayIsDue(q, policy, now, from, whole, q.slots);
    AllLater(q.slots, now);
    var r := Startup(Some(p), false, policy, now, seed);
    assert r == q.(lastObserved := Max(p.lastObserved, now));
    StillPlansTheDay(q, r, policy, now, from, whole);
  }

  lemma AllLater(slots: seq<Time>, now: Time)
    requires forall s <- slots :: s > now
    ensures Keep(slots, s => s > now) == slots
  {
    assert forall i :: 0 <= i < |slots| ==> slots[i] in slots;
    KeptFrom(slots, s => s > now, 0);
    assert slots[0..] == slots;
  }

  lemma StillPlansTheDay(q: ProviderState, r: ProviderState, policy: Policy, now: Time, from: Time, whole: seq<Time>)
    requires PlansTheDay(q, policy, now, from, whole, q.slots)
    requires r.lastStart == q.lastStart && r.cooldown == q.cooldown && r.slots == q.slots
    ensures PlansTheDay(r, policy, now, from, whole, r.slots)
  {
  }

  lemma StillPlansTheRest(q: ProviderState, r: ProviderState, policy: Policy, now: Time, from: Time, slots: seq<Time>)
    requires PlansTheRest(q, policy, now, from, slots)
    requires r.lastStart == q.lastStart && r.cooldown == q.cooldown && r.runs == q.runs
    ensures PlansTheRest(r, policy, now, from, slots)
  {
  }

  /** Under another policy that allows tests, the rest of the day is planned for that one. */
  lemma NewPolicyStartupIs(p: ProviderState, policy: Policy, now: Time, seed: bv64) returns (from: Time, whole: seq<Time>)
    requires ValidPolicy(policy) && InCalendar(now) && PolicyChanged(p, policy) && policy.dailyMax > 0
    ensures var r, q := Startup(Some(p), false, policy, now, seed), ReconcileDay(p, policy, now);
            && r == q.(slots := r.slots, rng := r.rng, lastObserved := Max(p.lastObserved, now),
                       policyDailyMax := policy.dailyMax, policyMinSpacing := policy.minSpacing, policyJitter := policy.jitter)
            && PlansTheRest(r, policy, now, from, whole) && IsLaterPart(r.slots, whole, now)
  {
    var q := ReconcileDay(p, policy, now);
    assert PolicyChanged(q, policy);
    var asked := q.(policyDailyMax := policy.dailyMax, policyMinSpacing := policy.minSpacing, policyJitter := policy.jitter);
    from := ReplanPlansTheRest(asked, policy, now);
    whole := ReplanRemaining(asked, policy, now).slots;
    LaterPartOf(whole, policy.minSpacing, now);
    StillPlansTheRest(ReplanRemaining(asked, policy, now), Startup(Some(p), false, policy, now, seed), policy, now, from, whole);
  }

  /** Under another policy that allows none, nothing is planned, deferred or armed any more. */
  lemma NoTestsStartupIs(p: ProviderState, policy: Policy, now: Time, seed: bv64)
    requires ValidPolicy(policy) && PolicyChanged(p, policy) && policy.dailyMax == 0
    ensures var r, q := Startup(Some(p), false, policy, now, seed), ReconcileDay(p, policy, now);
            r == q.(slots := [], triggers := map[], deferred := None, lastObserved := Max(p.lastObserved, now),
                    policyDailyMax := 0, policyMinSpacing := policy.minSpacing, policyJitter := policy.jitter)
  {
    assert PolicyChanged(ReconcileDay(p, policy, now), policy);
  }

  /** Recovered accounting: the rest of the day is planned again, whatever else starting did. */
  lemma RecoveredStartupIs(found: Option<ProviderState>, policy: Policy, now: Time, seed: bv64) returns (from: Time)
    requires ValidPolicy(policy) && InCalendar(now)
    ensures var r, q := Startup(found, true, policy, now, seed), Startup(found, false, policy, now, seed);
            r == q.(slots := r.slots, rng := r.rng) && PlansTheRest(r, policy, now, from, r.slots)
  {
    from := ReplanPlansTheRest(Reconcile(found, policy, now, seed), policy, now);
  }

  /** After a rate limit, and after any test that was not scheduled, the rest of the day is planned again. */
  lemma FinishReplans(p: ProviderState, policy: Policy, now: Time, opportunity: Opportunity, report: Report) returns (from: Time)
    requires ValidPolicy(policy) && InCalendar(now) && (report.rateLimit.Some? || opportunity.reason != Scheduled)
    ensures var r := Finish(p, policy, now, opportunity, report).state; PlansTheRest(r, policy, now, from, r.slots)
  {
    if report.rateLimit.Some? {
      var (deadline, q) := Limit(p, policy, now, report.rateLimit.value);
      var deferred := if report.reserved then None else Retry(p, now, deadline, opportunity);
      from := ReplanPlansTheRest(DropPending(q.(cooldown := Some(deadline), deferred := deferred), InterfaceKey(opportunity.interface)),
                                 policy, now);
    } else {
      var q := if report.successful then p.(deferred := None, cooldown := None, backoff := 0) else p.(deferred := None);
      from := ReplanPlansTheRest(DropPending(q, InterfaceKey(opportunity.interface)), policy, now);
    }
  }

  /** After a scheduled test only the slots too close to it go, and none if nothing was started. */
  lemma ScheduledFinishKeepsSlots(p: ProviderState, policy: Policy, now: Time, opportunity: Opportunity, report: Report) returns (k: nat)
    requires ValidPolicy(policy) && WellFormed(p) && report.rateLimit.None? && opportunity.reason == Scheduled
    ensures k <= |p.slots| && Finish(p, policy, now, opportunity, report).state.slots == p.slots[k..]
    ensures !report.reserved ==> k == 0
    ensures report.reserved ==>
              && (forall i :: 0 <= i < k ==> p.slots[i] < AddDuration(now, policy.minSpacing))
              && (forall i :: k <= i < |p.slots| ==> p.slots[i] >= AddDuration(now, policy.minSpacing))
  {
    k := 0;
    if report.reserved {
      k := FromIsASuffix(p.slots, p.policyMinSpacing, AddDuration(now, policy.minSpacing));
    }
  }

  lemma FromIsASuffix(slots: seq<Time>, gap: nat, eligible: Time) returns (k: nat)
    requires gap > 0 && AllSpaced(slots, gap)
    ensures k <= |slots| && Keep(slots, s => s >= eligible) == slots[k..]
    ensures (forall i :: 0 <= i < k ==> slots[i] < eligible) && (forall i :: k <= i < |slots| ==> slots[i] >= eligible)
  {
    k := 0;
    while k < |slots| && slots[k] < eligible
      invariant k <= |slots| && forall i :: 0 <= i < k ==> slots[i] < eligible
    {
      k := k + 1;
    }
    KeptFrom(slots, s => s >= eligible, k);
  }
}
