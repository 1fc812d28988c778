/** What polling may offer and what an offer uses up, told from the state that polling found. */
module OfferLaws {
  import opened Values
  import opened SchedulerState
  import opened SlotPlanner
  import opened Admission
  import opened ValidRuns

  predicate DueSlot(q: ProviderState, now: Time) { exists s <- q.slots :: s <= now }

  /** A trigger still within its time, of an interface that answers or with a slot due. */
  predicate Live(q: ProviderState, now: Time, latest: map<string, bool>, key: string) {
    && key in q.triggers && q.triggers[key].pending.Some? && now < q.triggers[key].pending.value.expiresAt
    && (DueSlot(q, now) || (key in latest && latest[key]))
  }

  predicate FromDeferral(q: ProviderState, now: Time, o: Opportunity) {
    && q.deferred.Some? && now < q.deferred.value.expiresAt && q.deferred.value.attempts < 5
    && (q.cooldown.Some? ==> now >= q.cooldown.value)
    && o.reason == q.deferred.value.reason && o.interface == q.deferred.value.interface
    && o.scheduledAt == q.deferred.value.scheduledAt && o.requestedAt == q.deferred.value.createdAt
  }

  /** The oldest live trigger. */
  predicate FromTrigger(q: ProviderState, now: Time, latest: map<string, bool>, o: Opportunity, key: string) {
    && Live(q, now, latest, key)
    && o.reason == q.triggers[key].pending.value.reason && o.requestedAt == q.triggers[key].pending.value.createdAt
    && o.scheduledAt.None? && o.interface == (if key == "" then None else Some(key))
    && forall other <- q.triggers :: Live(q, now, latest, other) ==>
         q.triggers[key].pending.value.createdAt <= q.triggers[other].pending.value.createdAt
  }

  /** The i-th is due and none before it is. */
  predicate FirstDueAt(slots: seq<Time>, now: Time, i: nat) {
    i < |slots| && slots[i] <= now && forall j :: 0 <= j < i ==> slots[j] > now
  }

  predicate FirstDueSlot(slots: seq<Time>, now: Time, slot: Time) {
    exists i | 0 <= i < |slots| :: FirstDueAt(slots, now, i) && slots[i] == slot
  }

  /** The first due slot, when no trigger is live. */
  predicate FromSlot(q: ProviderState, now: Time, latest: map<string, bool>, o: Opportunity) {
    && o.reason == Scheduled && o.requestedAt == now && o.interface.None?
    && o.scheduledAt.Some? && FirstDueSlot(q.slots, now, o.scheduledAt.value)
    && forall key <- q.triggers :: !Live(q, now, latest, key)
  }

  lemma {:induction false} FirstKept(slots: seq<Time>, now: Time) returns (i: nat)
    ensures var due := Keep(slots, s => s <= now); due != [] ==> FirstDueAt(slots, now, i) && slots[i] == due[0]
    decreases |slots|
  {
    i := 0;
    if slots != [] {
      var front := slots[..|slots| - 1];
      i := FirstKept(front, now);
      if Keep(front, s => s <= now) == [] {
        NoneKept(front, now);
        i := |front|;
      }
    }
  }

  lemma {:induction false} NoneKept(slots: seq<Time>, now: Time)
    requires Keep(slots, s => s <= now) == []
    ensures forall j :: 0 <= j < |slots| ==> slots[j] > now
    decreases |slots|
  {
    forall j | 0 <= j < |slots| ensures slots[j] > now {
      assert slots[j] in slots;
    }
  }

  lemma DueSlotFirst(q: ProviderState, now: Time)
    ensures FirstDue(q, now).Some? <==> DueSlot(q, now)
    ensures FirstDue(q, now).Some? ==> FirstDueSlot(q.slots, now, FirstDue(q, now).value)
  {
    var due := Keep(q.slots, s => s <= now);
    var i := FirstKept(q.slots, now);
    if due != [] {
      assert due[0] in due;
    }
  }

  /** What is left after stale triggers and deferrals are dropped. */
  lemma BeforeOfferIs(q: ProviderState, now: Time)
    ensures var r := BeforeOffer(q, now);
            && r == q.(triggers := r.triggers, deferred := r.deferred)
            && r.triggers.Keys == q.triggers.Keys
            && (forall key <- q.triggers ::
                  r.triggers[key].pending == if Expired(q.triggers[key], now) then None else q.triggers[key].pending)
            && r.deferred == (if q.deferred.Some? && DeferredOver(q.deferred.value, now) then None else q.deferred)
  {
  }

  lemma EligibleIsLive(q: ProviderState, now: Time, latest: map<string, bool>, key: string)
    ensures var r := BeforeOffer(q, now);
            EligibleTrigger(r, latest, FirstDue(r, now).Some?, key) <==> Live(q, now, latest, key)
  {
    BeforeOfferIs(q, now);
    DueSlotFirst(BeforeOffer(q, now), now);
  }

  /**
  Every offer is a deferred opportunity still in time, or else the oldest live trigger, or else a due slot; and
  but for the deferred one nothing blocks a start.
  */
  lemma OffersAreDue(q: ProviderState, policy: Policy, now: Time, latest: map<string, bool>, chosen: Option<string>)
    requires ChoiceFits(q, now, latest, chosen) && PollAdvanced(q, policy, now, latest, chosen).opportunity.Some?
    ensures var o := PollAdvanced(q, policy, now, latest, chosen).opportunity.value;
            || FromDeferral(q, now, o)
            || (BlockReason(q, policy, now).None?
                && ((chosen.Some? && FromTrigger(q, now, latest, o, chosen.value)) || FromSlot(q, now, latest, o)))
  {
    var r := BeforeOffer(q, now);
    BeforeOfferIs(q, now);
    if !DeferredReady(r, now) {
      assert BlockReason(r, policy, now) == BlockReason(q, policy, now);
      DueSlotFirst(r, now);
      forall key ensures EligibleTrigger(r, latest, FirstDue(r, now).Some?, key) <==> Live(q, now, latest, key) {
        EligibleIsLive(q, now, latest, key);
      }
    }
  }

  /** When something is due and nothing blocks it, something is offered. */
  lemma DueIsOffered(q: ProviderState, policy: Policy, now: Time, latest: map<string, bool>, chosen: Option<string>, key: string)
    requires ChoiceFits(q, now, latest, chosen) && BlockReason(q, policy, now).None?
    requires DueSlot(q, now) || Live(q, now, latest, key)
    ensures PollAdvanced(q, policy, now, latest, chosen).opportunity.Some?
  {
    var r := BeforeOffer(q, now);
    BeforeOfferIs(q, now);
    assert BlockReason(r, policy, now) == BlockReason(q, policy, now);
    DueSlotFirst(r, now);
    EligibleIsLive(q, now, latest, key);
  }

  lemma {:induction false} KeptFrom(s: seq<Time>, pass: Time -> bool, from: nat)
    requires from <= |s| && (forall i :: 0 <= i < from ==> !pass(s[i])) && (forall i :: from <= i < |s| ==> pass(s[i]))
    ensures Keep(s, pass) == s[from..]
    decreases |s|
  {
    if s != [] {
      var n := |s| - 1;
      if from <= n {
        KeptFrom(s[..n], pass, from);
        assert s[from..] == s[..n][from..] + [s[n]];
      } else {
        KeptFrom(s[..n], pass, n);
      }
    }
  }

  lemma FutureIsASuffix(slots: seq<Time>, gap: nat, now: Time) returns (from: nat)
    requires gap > 0 && AllSpaced(slots, gap)
    ensures from <= |slots| && Keep(slots, s => s > now) == slots[from..]
    ensures (forall i :: 0 <= i < from ==> slots[i] <= now) && (forall i :: from <= i < |slots| ==> slots[i] > now)
  {
    from := 0;
    while from < |slots| && slots[from] <= now
      invariant from <= |slots| && forall i :: 0 <= i < from ==> slots[i] <= now
    {
      from := from + 1;
    }
    KeptFrom(slots, s => s > now, from);
  }

  lemma DroppedFirst(q: ProviderState, gap: nat)
    requires gap > 0 && AllSpaced(q.slots, gap)
    ensures DropFirstSlot(q).slots == if q.slots == [] then [] else q.slots[1..]
  {
    if q.slots != [] {
      var first := q.slots[0];
      KeptFrom(q.slots, s => s != first, 1);
    }
  }

  /**
  An offer that is not a deferred one uses up every due slot; a triggered one also takes the place of the next slot
  to come, and of no other.
  */
  lemma OffersUseSlots(q: ProviderState, policy: Policy, now: Time, latest: map<string, bool>, chosen: Option<string>)
    returns (from: nat)
    requires WellFormed(q) && ChoiceFits(q, now, latest, chosen)
    requires PollAdvanced(q, policy, now, latest, chosen).opportunity.Some? && !DeferredReady(BeforeOffer(q, now), now)
    ensures from <= |q.slots| && (forall i :: 0 <= i < from ==> q.slots[i] <= now)
    ensures forall i :: from <= i < |q.slots| ==> q.slots[i] > now
    ensures PollAdvanced(q, policy, now, latest, chosen).state.slots ==
              if chosen.Some? && from < |q.slots| then q.slots[from + 1..] else q.slots[from..]
  {
    BeforeOfferIs(q, now);
    from := FutureIsASuffix(q.slots, q.policyMinSpacing, now);
    OfferedSlots(BeforeOffer(q, now), policy, now, chosen, from);
  }

  lemma OfferedSlots(r: ProviderState, policy: Policy, now: Time, chosen: Option<string>, from: nat)
    requires chosen.Some? ==> chosen.value in r.triggers && r.triggers[chosen.value].pending.Some?
    requires r.policyMinSpacing > 0 && AllSpaced(r.slots, r.policyMinSpacing)
    requires from <= |r.slots| && Keep(r.slots, s => s > now) == r.slots[from..]
    requires Offer(r, policy, now, chosen).opportunity.Some?
    ensures Offer(r, policy, now, chosen).state.slots ==
              if chosen.Some? && from < |r.slots| then r.slots[from + 1..] else r.slots[from..]
  {
    var undue := DropDue(r, now);
    assert undue.slots == r.slots[from..];
    DroppedFirst(undue, r.policyMinSpacing);
  }

  // ---------------------------------------------------------------- Waiting after a rate limit

  lemma {:induction false} PowersDouble(j: nat, k: nat)
    requires j <= k
    ensures 1 <= Power2(j) <= Power2(k)
    decreases k
  {
    if j < k {
      PowersDouble(j, k - 1);
    } else if k > 0 {
      PowersDouble(k - 1, k - 1);
    }
  }

  /** The wait before jitter: it starts at the initial cooldown, never shrinks as failures go on, and has a ceiling. */
  function Ramp(policy: Policy, step: nat): nat {
    Min(policy.cooldownInitial * Power2(Min(step, 4)), policy.cooldownMax)
  }

  lemma RampGrows(policy: Policy, j: nat, k: nat)
    requires ValidPolicy(policy) && j <= k
    ensures policy.cooldownInitial <= Ramp(policy, j) <= Ramp(policy, k) <= policy.cooldownMax
  {
    PowersDouble(Min(j, 4), Min(k, 4));
    Product(Power2(Min(j, 4)), Power2(Min(k, 4)), policy.cooldownInitial);
    Product(1, Power2(Min(j, 4)), policy.cooldownInitial);
  }

  /** Which wait it is the random number decides: what it leaves over when shared among them all. */
  lemma BackoffIsDrawn(p: ProviderState, policy: Policy) returns (share: nat, over: nat)
    ensures var (wait, q) := Backoff(p, policy);
            var fifth := Ramp(policy, p.backoff) / 5;
            && q.rng == (if fifth == 0 then p.rng else NextRandom(p.rng))
            && (fifth > 0 ==>
                  && q.rng as nat == share * (2 * fifth + 1) + over && over <= 2 * fifth
                  && wait == Ramp(policy, p.backoff) - fifth + over)
  {
    share, over := 0, 0;
    var fifth := Ramp(policy, p.backoff) / 5;
    if fifth > 0 {
      share, over := Shares(NextRandom(p.rng) as nat, 2 * fifth + 1);
    }
  }

  lemma Shares(n: nat, width: nat) returns (share: nat, over: nat)
    requires width > 0
    ensures n == share * width + over && over == n % width < width
  {
    share, over := n / width, n % width;
  }

  /** A backoff lies within a fifth of its ramp, whatever is drawn, and moves one step up to the fourth. */
  lemma BackoffWithinAFifth(p: ProviderState, policy: Policy)
    ensures var (wait, q) := Backoff(p, policy);
            var ramp := Ramp(policy, p.backoff);
            && ramp - ramp / 5 <= wait <= ramp + ramp / 5
            && q == p.(backoff := Min(p.backoff + 1, 4), rng := q.rng)
  {
  }
}
