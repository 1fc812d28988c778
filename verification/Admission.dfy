/**
What each scheduler operation does to its provider's state, as functions: the new state, and the states
it saves on the way, in order. An operation takes effect durably only as far as its saves succeed.
*/
module Admission {
  import opened Values
  import opened SchedulerState
  import opened SlotPlanner

  datatype ProviderKind = Mlab | Direct

  datatype Policy = Policy(
    kind: ProviderKind,
    force: bool,
    dailyMax: nat,
    minSpacing: Millis,
    jitter: nat,
    pendingTtl: Millis,
    cooldownInitial: Millis,
    cooldownMax: Millis)

  /** What configuration validation guarantees. */
  predicate ValidPolicy(policy: Policy) {
    && policy.jitter <= 100
    && policy.minSpacing > 0
    && policy.dailyMax <= U32_MAX
    && (policy.kind == Mlab ==> policy.dailyMax <= 4)
    && policy.cooldownInitial <= policy.cooldownMax
  }

  // ---------------------------------------------------------------- Lists of instants

  /** `retain`: the elements that pass, in order. */
  function Keep(s: seq<Time>, pass: Time -> bool): (r: seq<Time>)
    ensures |r| <= |s|
    ensures forall x :: x in r <==> x in s && pass(x)
  {
    if s == [] then []
    else
      var rest := Keep(s[..|s| - 1], pass);
      var last := s[|s| - 1];
      assert s == s[..|s| - 1] + [last];
      if pass(last) then rest + [last] else rest
  }

  /** Inserting into a sorted list, after its equals. */
  function Insert(s: seq<Time>, x: Time): (r: seq<Time>)
    ensures multiset(r) == multiset(s) + multiset{x}
    ensures |r| == |s| + 1
  {
    if s == [] || s[|s| - 1] <= x then s + [x]
    else
      assert s == s[..|s| - 1] + [s[|s| - 1]];
      Insert(s[..|s| - 1], x) + [s[|s| - 1]]
  }

  function RunsOnDay(runs: seq<Time>, day: int): (n: nat)
    ensures n <= |runs|
  {
    if runs == [] then 0
    else RunsOnDay(runs[..|runs| - 1], day) + (if Day(runs[|runs| - 1]) == day then 1 else 0)
  }

  // ---------------------------------------------------------------- Planning

  function MaxOpt(a: Option<Time>, t: Time): Option<Time> {
    Some(if a.Some? then Max(a.value, t) else t)
  }

  function OrElse(a: Option<Time>, t: Time): Time { if a.Some? then a.value else t }

  function EarliestSlot(p: ProviderState, policy: Policy, start: Time): Time {
    var spaced := if p.lastStart.Some? then AddDuration(p.lastStart.value, policy.minSpacing) else start;
    Max(Max(spaced, OrElse(p.cooldown, start)), start)
  }

  /** The state with its random number advanced, and the slots of an interval. */
  function PlanSlots(p: ProviderState, policy: Policy, start: Time, end: Time, count: nat): (r: (seq<Time>, bv64))
    requires ValidPolicy(policy)
    ensures p.rng != 0 ==> r.1 != 0
  {
    var earliest := EarliestSlot(p, policy, start);
    if count == 0 || start >= end || earliest >= end then ([], p.rng)
    else PlanStrata(Interval(earliest, end, count, policy.jitter, policy.minSpacing), p.rng, count)
  }

  function PlanFullDay(p: ProviderState, policy: Policy, now: Time): ProviderState
    requires ValidPolicy(policy)
  {
    var (slots, rng) := PlanSlots(p, policy, DayStart(Day(now)), DayEnd(Day(now)), policy.dailyMax);
    p.(slots := Keep(slots, s => s > now), rng := rng)
  }

  function ReplanRemaining(p: ProviderState, policy: Policy, now: Time): ProviderState
    requires ValidPolicy(policy)
  {
    var remaining := Max(policy.dailyMax - RunsOnDay(p.runs, Day(now)), 0);
    var (slots, rng) := PlanSlots(p, policy, now, DayEnd(Day(now)), remaining);
    p.(slots := slots, rng := rng)
  }

  // ---------------------------------------------------------------- Clock and policy

  function ReconcileDay(p: ProviderState, policy: Policy, now: Time): ProviderState
    requires ValidPolicy(policy)
  {
    var day := Day(now);
    if day <= p.day then p
    else
      PlanFullDay(
        p.(day := day,
           runs := Keep(p.runs, r => Day(r) >= day),
           deferred := None,
           triggers := map[],
           cooldown := if p.cooldown.Some? && p.cooldown.value > now then p.cooldown else None),
        policy, now)
  }

  function NewProvider(policy: Policy, now: Time, seed: bv64): ProviderState
    requires ValidPolicy(policy)
  {
    PlanFullDay(
      ProviderState(Day(now), [], [], None, None, 0, None, map[],
                    policy.dailyMax, policy.minSpacing, policy.jitter, if seed == 0 then 1 else seed, now),
      policy, now)
  }

  predicate PolicyChanged(p: ProviderState, policy: Policy) {
    p.policyDailyMax != policy.dailyMax || p.policyMinSpacing != policy.minSpacing || p.policyJitter != policy.jitter
  }

  function AdoptPolicy(p: ProviderState, policy: Policy, now: Time): ProviderState
    requires ValidPolicy(policy)
  {
    if !PolicyChanged(p, policy) then p
    else
      var q := p.(policyDailyMax := policy.dailyMax, policyMinSpacing := policy.minSpacing, policyJitter := policy.jitter);
      if policy.dailyMax == 0 then q.(slots := [], triggers := map[], deferred := None)
      else ReplanRemaining(q, policy, now)
  }

  /** What starting up makes of the state it opened, if any. */
  function Reconcile(opening: Option<ProviderState>, policy: Policy, now: Time, seed: bv64): ProviderState
    requires ValidPolicy(policy)
  {
    match opening
    case None => NewProvider(policy, now, seed)
    case Some(p) =>
      var q := AdoptPolicy(ReconcileDay(p, policy, now), policy, now);
      q.(slots := Keep(q.slots, s => s > now), lastObserved := Max(q.lastObserved, now))
  }

  /** Replayed accounting forces a new plan for the rest of the day. */
  function Startup(opening: Option<ProviderState>, recovered: bool, policy: Policy, now: Time, seed: bv64): ProviderState
    requires ValidPolicy(policy)
  {
    var p := Reconcile(opening, policy, now, seed);
    if recovered then ReplanRemaining(p, policy, now) else p
  }

  predicate RolledBack(p: ProviderState, now: Time) { now < p.lastObserved }

  function AdvanceClock(p: ProviderState, policy: Policy, now: Time): ProviderState
    requires ValidPolicy(policy)
  {
    if RolledBack(p, now) then p else ReconcileDay(p, policy, now).(lastObserved := now)
  }

  // ---------------------------------------------------------------- Blocking

  datatype Block = DailyCap | Cooldown(until: Time) | Spacing(until: Time)

  const MLAB_CAP: nat := 4

  function BlockReason(p: ProviderState, policy: Policy, now: Time): Option<Block> {
    var used := RunsOnDay(p.runs, Day(now));
    var mlabCap := policy.kind == Mlab && used >= MLAB_CAP;
    var configuredCap := policy.dailyMax == 0 || used >= policy.dailyMax;
    if mlabCap || (!policy.force && configuredCap) then Some(DailyCap)
    else if policy.force then None
    else if p.cooldown.Some? && now < p.cooldown.value then Some(Cooldown(p.cooldown.value))
    else if p.lastStart.Some? && now < AddDuration(p.lastStart.value, policy.minSpacing)
    then Some(Spacing(AddDuration(p.lastStart.value, policy.minSpacing)))
    else None
  }

  // ---------------------------------------------------------------- Operations

  datatype Opportunity = Opportunity(
    reason: TriggerReason,
    scheduledAt: Option<Time>,
    requestedAt: Time,
    interface: Option<string>)

  datatype DegradedBy = Loss | Rtt | LossAndRtt

  datatype HealthDecision = Healthy | Degraded(cause: DegradedBy) | Recovered

  /** A provider's rate limit, with its absolute deadline if one was given. */
  datatype RateLimit = RateLimit(deadline: Option<Time>)

  datatype Report = Report(reserved: bool, rateLimit: Option<RateLimit>, successful: bool)

  /** The state afterwards, and every state saved on the way; the last save is the state itself. */
  datatype Effect = Effect(state: ProviderState, saves: seq<ProviderState>)

  const DEFAULT_INTERFACE := ""

  function InterfaceKey(interface: Option<string>): string {
    if interface.Some? then interface.value else DEFAULT_INTERFACE
  }

  function InterfaceFromKey(key: string): Option<string> {
    if key == "" then None else Some(key)
  }

  function TriggerOf(p: ProviderState, key: string): TriggerState {
    if key in p.triggers then p.triggers[key] else TriggerState(None, false)
  }

  function SetTrigger(p: ProviderState, key: string, t: TriggerState): ProviderState {
    p.(triggers := p.triggers[key := t])
  }

  /** Forget the pending trigger of an interface; its latch stays. */
  function DropPending(p: ProviderState, key: string): ProviderState {
    SetTrigger(p, key, TriggerOf(p, key).(pending := None))
  }

  function AdvanceSaves(p: ProviderState, policy: Policy, now: Time): seq<ProviderState>
    requires ValidPolicy(policy)
  {
    if RolledBack(p, now) then [] else [AdvanceClock(p, policy, now)]
  }

  function ReasonOf(cause: DegradedBy): TriggerReason {
    if cause == Rtt then PingRtt else PingLoss
  }

  /** A first degradation latches the interface and either arms a trigger or joins the deferred opportunity. */
  function Arm(p: ProviderState, policy: Policy, now: Time, interface: Option<string>, cause: DegradedBy): ProviderState {
    var key := InterfaceKey(interface);
    if p.deferred.Some? then
      SetTrigger(p.(deferred := Some(p.deferred.value.(reason := ReasonOf(cause), interface := interface))),
                 key, TriggerState(None, true))
    else
      SetTrigger(p, key, TriggerState(Some(PendingTrigger(ReasonOf(cause), now, AddDuration(now, policy.pendingTtl))), true))
  }

  predicate Arms(q: ProviderState, interface: Option<string>, decision: HealthDecision) {
    decision.Degraded? && !TriggerOf(q, InterfaceKey(interface)).latched
  }

  /** A health decision applied once the clock has advanced; with a rolled-back clock it still applies. */
  function Heed(q: ProviderState, policy: Policy, now: Time, interface: Option<string>, decision: HealthDecision): Effect {
    var key := InterfaceKey(interface);
    var trigger := TriggerOf(q, key);
    if Arms(q, interface, decision) then
      var armed := Arm(q, policy, now, interface, decision.cause);
      Effect(armed, [armed])
    else if decision.Recovered? && (trigger.pending.Some? || trigger.latched) then
      var rearmed := SetTrigger(q, key, TriggerState(None, false));
      Effect(rearmed, [rearmed])
    else Effect(q, [])
  }

  function Observe(p: ProviderState, policy: Policy, now: Time, interface: Option<string>, decision: HealthDecision): Effect
    requires ValidPolicy(policy)
  {
    var heeded := Heed(AdvanceClock(p, policy, now), policy, now, interface, decision);
    heeded.(saves := AdvanceSaves(p, policy, now) + heeded.saves)
  }

  predicate Expired(t: TriggerState, now: Time) {
    t.pending.Some? && now >= t.pending.value.expiresAt
  }

  function ExpireTriggers(p: ProviderState, now: Time): ProviderState {
    p.(triggers := map key <- p.triggers ::
      if Expired(p.triggers[key], now) then p.triggers[key].(pending := None) else p.triggers[key])
  }

  predicate AnyExpired(p: ProviderState, now: Time) {
    exists key <- p.triggers :: Expired(p.triggers[key], now)
  }

  const MAX_RATE_LIMIT_ATTEMPTS: nat := 5

  predicate DeferredOver(d: Deferred, now: Time) {
    now >= d.expiresAt || d.attempts >= MAX_RATE_LIMIT_ATTEMPTS
  }

  predicate Cooled(p: ProviderState, now: Time) {
    p.cooldown.None? || now >= p.cooldown.value
  }

  predicate EligibleTrigger(p: ProviderState, latest: map<string, bool>, due: bool, key: string) {
    && key in p.triggers && p.triggers[key].pending.Some?
    && (due || (key in latest && latest[key]))
  }

  /** The order of interface names: a proper prefix first, else by the first differing character. */
  predicate NameBefore(a: string, b: string) {
    if a == [] || b == [] then |a| < |b|
    else if a[0] != b[0] then a[0] < b[0]
    else NameBefore(a[1..], b[1..])
  }

  /** Oldest first; among equals the first name. */
  predicate Preferred(p: ProviderState, key: string, other: string)
    requires key in p.triggers && p.triggers[key].pending.Some?
    requires other in p.triggers && p.triggers[other].pending.Some?
  {
    var a, b := p.triggers[key].pending.value.createdAt, p.triggers[other].pending.value.createdAt;
    a < b || (a == b && !NameBefore(other, key))
  }

  predicate IsOldestPending(p: ProviderState, latest: map<string, bool>, due: bool, key: Option<string>) {
    match key
    case None => forall k <- p.triggers :: !EligibleTrigger(p, latest, due, k)
    case Some(k) =>
      && EligibleTrigger(p, latest, due, k)
      && forall other <- p.triggers :: EligibleTrigger(p, latest, due, other) ==> Preferred(p, k, other)
  }

  datatype Polled = Polled(state: ProviderState, saves: seq<ProviderState>, opportunity: Option<Opportunity>)

  function FirstDue(p: ProviderState, now: Time): Option<Time> {
    var due := Keep(p.slots, s => s <= now);
    if due == [] then None else Some(due[0])
  }

  function DropDue(p: ProviderState, now: Time): ProviderState {
    p.(slots := Keep(p.slots, s => s > now))
  }

  function DropFirstSlot(p: ProviderState): ProviderState {
    if p.slots == [] then p
    else
      var first := p.slots[0];
      p.(slots := Keep(p.slots, s => s != first))
  }

  function ExpireStage(p: ProviderState, now: Time): Effect {
    if AnyExpired(p, now) then Effect(ExpireTriggers(p, now), [ExpireTriggers(p, now)]) else Effect(p, [])
  }

  function DeferredStage(p: ProviderState, now: Time): Effect {
    if p.deferred.Some? && DeferredOver(p.deferred.value, now)
    then Effect(p.(deferred := None), [p.(deferred := None)])
    else Effect(p, [])
  }

  /** A deferred opportunity that may be offered again, without asking why a start might be blocked. */
  predicate DeferredReady(p: ProviderState, now: Time) {
    p.deferred.Some? && !DeferredOver(p.deferred.value, now) && Cooled(p, now)
  }

  function DeferredOpportunity(d: Deferred): Opportunity {
    Opportunity(d.reason, d.scheduledAt, d.createdAt, d.interface)
  }

  /** What polling finds once the clock has advanced and stale triggers and deferrals are gone. */
  function Offer(p: ProviderState, policy: Policy, now: Time, chosen: Option<string>): Polled
    requires chosen.Some? ==> chosen.value in p.triggers && p.triggers[chosen.value].pending.Some?
  {
    var due := FirstDue(p, now);
    var blocked := BlockReason(p, policy, now);
    if chosen.None? && due.None? then Polled(p, [], None)
    else
      var undue := DropDue(p, now);
      if blocked.Some? then
        var terminal := blocked.value.DailyCap? || AddDuration(now, policy.minSpacing) >= DayEnd(Day(now));
        var q := if terminal && chosen.Some? then DropPending(undue, chosen.value) else undue;
        Polled(q, [q], None)
      else if chosen.Some? then
        var trigger := p.triggers[chosen.value].pending.value;
        var q := DropFirstSlot(undue);
        Polled(q, [q], Some(Opportunity(trigger.reason, None, trigger.createdAt, InterfaceFromKey(chosen.value))))
      else Polled(undue, [undue], Some(Opportunity(Scheduled, due, now, None)))
  }

  /** The state in which polling looks for a due slot or an eligible trigger, from the advanced state. */
  function BeforeOffer(q: ProviderState, now: Time): ProviderState {
    DeferredStage(ExpireStage(q, now).state, now).state
  }

  predicate ChoiceFits(q: ProviderState, now: Time, latest: map<string, bool>, chosen: Option<string>) {
    var r := BeforeOffer(q, now);
    IsOldestPending(r, latest, FirstDue(r, now).Some?, chosen)
  }

  function PollAdvanced(q: ProviderState, policy: Policy, now: Time, latest: map<string, bool>, chosen: Option<string>): Polled
    requires ChoiceFits(q, now, latest, chosen)
  {
    var expired := ExpireStage(q, now);
    var settled := DeferredStage(expired.state, now);
    var saves := expired.saves + settled.saves;
    if DeferredReady(settled.state, now)
    then Polled(settled.state, saves, Some(DeferredOpportunity(settled.state.deferred.value)))
    else
      var offer := Offer(settled.state, policy, now, chosen);
      offer.(saves := saves + offer.saves)
  }

  function Poll(p: ProviderState, policy: Policy, now: Time, latest: map<string, bool>, chosen: Option<string>): Polled
    requires ValidPolicy(policy) && ChoiceFits(AdvanceClock(p, policy, now), now, latest, chosen)
  {
    if RolledBack(p, now) then Polled(p, [], None)
    else
      var polled := PollAdvanced(AdvanceClock(p, policy, now), policy, now, latest, chosen);
      polled.(saves := AdvanceSaves(p, policy, now) + polled.saves)
  }

  function Preflight(p: ProviderState, policy: Policy, now: Time): (r: (Effect, bool))
    requires ValidPolicy(policy)
  {
    var q := AdvanceClock(p, policy, now);
    (Effect(q, AdvanceSaves(p, policy, now)), !RolledBack(p, now) && BlockReason(q, policy, now).None?)
  }

  /** A reservation: counted, and the latest start only moves forward. */
  function Admit(p: ProviderState, now: Time): ProviderState {
    p.(runs := Insert(p.runs, now),
       lastStart := MaxOpt(p.lastStart, now),
       lastObserved := Max(p.lastObserved, now))
  }

  predicate Admits(p: ProviderState, policy: Policy, now: Time)
    requires ValidPolicy(policy)
  {
    BlockReason(ReconcileDay(p, policy, now), policy, now).None?
  }

  /** A rejected reservation has still moved the in-memory state to its day, but saves nothing. */
  function Reserve(p: ProviderState, policy: Policy, now: Time): Effect
    requires ValidPolicy(policy)
  {
    var q := ReconcileDay(p, policy, now);
    if Admits(p, policy, now) then Effect(Admit(q, now), [Admit(q, now)]) else Effect(q, [])
  }

  /** Exponential backoff below the ceiling, jittered by up to a fifth either way. */
  function Backoff(p: ProviderState, policy: Policy): (r: (Millis, ProviderState)) {
    var base := Min(policy.cooldownInitial * Power2(Min(p.backoff, 4)), policy.cooldownMax);
    var q := p.(backoff := Min(p.backoff + 1, 4));
    var spread := base / 5;
    if spread == 0 then (base, q)
    else
      var next := NextRandom(q.rng);
      (base - spread + next as nat % (2 * spread + 1), q.(rng := next))
  }

  /** The deadline a rate limit sets: its own or a jittered backoff, and never earlier than the one in force. */
  function Limit(p: ProviderState, policy: Policy, now: Time, limit: RateLimit): (r: (Time, ProviderState))
    ensures r.1.cooldown == p.cooldown && r.1.runs == p.runs && r.1.day == p.day && r.1.lastStart == p.lastStart
  {
    match limit.deadline
    case Some(d) => (Max(OrElse(p.cooldown, d), d), p.(backoff := Min(p.backoff + 1, 4)))
    case None =>
      var (wait, q) := Backoff(p, policy);
      var d := AddDuration(now, wait);
      (Max(OrElse(p.cooldown, d), d), q)
  }

  function Retry(p: ProviderState, now: Time, deadline: Time, opportunity: Opportunity): Option<Deferred> {
    var attempts := if p.deferred.Some? then p.deferred.value.attempts + 1 else 1;
    if attempts < MAX_RATE_LIMIT_ATTEMPTS && deadline < DayEnd(Day(now))
    then Some(Deferred(opportunity.reason, opportunity.interface, opportunity.scheduledAt, opportunity.requestedAt,
                       DayEnd(Day(now)), attempts))
    else None
  }

  function FinishLimited(p: ProviderState, policy: Policy, now: Time, opportunity: Opportunity, reserved: bool, limit: RateLimit): ProviderState
    requires ValidPolicy(policy)
  {
    var (deadline, q) := Limit(p, policy, now, limit);
    var deferred := if reserved then None else Retry(p, now, deadline, opportunity);
    ReplanRemaining(DropPending(q.(cooldown := Some(deadline), deferred := deferred), InterfaceKey(opportunity.interface)),
                    policy, now)
  }

  function FinishUnlimited(p: ProviderState, policy: Policy, now: Time, opportunity: Opportunity, report: Report): ProviderState
    requires ValidPolicy(policy)
  {
    var q := if report.successful then p.(deferred := None, cooldown := None, backoff := 0) else p.(deferred := None);
    var r := DropPending(q, InterfaceKey(opportunity.interface));
    if opportunity.reason != Scheduled then ReplanRemaining(r, policy, now)
    else if report.reserved then
      var eligible := AddDuration(now, policy.minSpacing);
      r.(slots := Keep(r.slots, s => s >= eligible))
    else r
  }

  function Finish(p: ProviderState, policy: Policy, now: Time, opportunity: Opportunity, report: Report): Effect
    requires ValidPolicy(policy)
  {
    var q :=
      if report.rateLimit.Some?
      then FinishLimited(p, policy, now, opportunity, report.reserved, report.rateLimit.value)
      else FinishUnlimited(p, policy, now, opportunity, report);
    Effect(q, [q])
  }
}
