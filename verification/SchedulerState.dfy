/** The persisted state of one bandwidth provider, and the accounting part of it. */
module SchedulerState {
  import opened Values

  datatype TriggerReason = Scheduled | PingLoss | PingRtt | Manual

  datatype Deferred = Deferred(
    reason: TriggerReason,
    interface: Option<string>,
    scheduledAt: Option<Time>,
    createdAt: Time,
    expiresAt: Time,
    attempts: nat)

  datatype PendingTrigger = PendingTrigger(reason: TriggerReason, createdAt: Time, expiresAt: Time)

  datatype TriggerState = TriggerState(pending: Option<PendingTrigger>, latched: bool)

  datatype ProviderState = ProviderState(
    day: int,
    slots: seq<Time>,
    runs: seq<Time>,
    lastStart: Option<Time>,
    cooldown: Option<Time>,
    backoff: nat,
    deferred: Option<Deferred>,
    triggers: map<string, TriggerState>,
    policyDailyMax: nat,
    policyMinSpacing: Millis,
    policyJitter: nat,
    rng: bv64,
    lastObserved: Time)

  /** What a ledger record must agree on with the snapshot that cites it. */
  datatype Accounting = Accounting(
    day: int,
    runs: seq<Time>,
    lastStart: Option<Time>,
    cooldown: Option<Time>,
    backoff: nat,
    deferred: Option<Deferred>)

  function AccountingOf(p: ProviderState): Accounting {
    Accounting(p.day, p.runs, p.lastStart, p.cooldown, p.backoff, p.deferred)
  }

  /** A provider that never started a test and owes no waiting. */
  predicate ZeroAccounting(p: ProviderState) {
    p.runs == [] && p.lastStart.None? && p.cooldown.None? && p.backoff == 0
  }

  /** Newer recorded accounting laid over an older snapshot of the same provider. */
  function Replay(state: ProviderState, recorded: ProviderState): ProviderState {
    state.(day := recorded.day,
           runs := recorded.runs,
           lastStart := recorded.lastStart,
           cooldown := recorded.cooldown,
           backoff := recorded.backoff,
           lastObserved := Max(state.lastObserved, recorded.lastObserved),
           deferred := recorded.deferred,
           triggers := recorded.triggers)
  }

  predicate Sorted(s: seq<Time>) {
    forall i, j :: 0 <= i < j < |s| ==> s[i] <= s[j]
  }

  predicate ValidProvider(id: string, p: ProviderState) {
    && id != ""
    && p.rng != 0
    && p.policyJitter <= 100
    && p.policyMinSpacing != 0
    && p.backoff <= 4
    && Sorted(p.runs)
    && (p.runs != [] ==> p.lastStart.Some? && p.runs[|p.runs| - 1] <= p.lastStart.value)
  }
}
