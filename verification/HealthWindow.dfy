/**
The health window of one interface: a sliding window of ping rounds and a degraded/healthy state with
hysteresis, refined to what the whole history of rounds says.
*/
module HealthWindow {
  import opened Values

  datatype Sample = Sample(successful: bool, rtt: Option<real>)

  type Round = seq<Sample>

  datatype Snapshot = Snapshot(attempted: nat, successful: nat, lossPct: real, p95: Option<real>, sufficient: bool)

  datatype Reason = Loss | Rtt | LossAndRtt

  datatype Decision = Healthy(snapshot: Snapshot) | Degraded(snapshot: Snapshot, reason: Reason) | Recovered(snapshot: Snapshot)

  datatype Config = Config(
    windowRounds: nat,
    minSamples: nat,
    lossThreshold: real,
    rttThreshold: Option<real>,
    recoveryLoss: real,
    recoveryRounds: nat)

  // ---------------------------------------------------------------- Snapshots

  function Successes(samples: Round): (n: nat)
    ensures n <= |samples|
  {
    if samples == [] then 0
    else Successes(samples[..|samples| - 1]) + (if samples[|samples| - 1].successful then 1 else 0)
  }

  /** The round-trip times of the successful samples, in order of arrival. */
  function Rtts(samples: Round): seq<real> {
    if samples == [] then []
    else
      var last := samples[|samples| - 1];
      Rtts(samples[..|samples| - 1]) + (if last.successful && last.rtt.Some? then [last.rtt.value] else [])
  }

  function LossPct(attempted: nat, successful: nat): real
    requires successful <= attempted
  {
    if attempted == 0 then 0.0 else (attempted - successful) as real * 100.0 / attempted as real
  }

  /** How many of the values lie at or below `v`. */
  function AtMost(s: seq<real>, v: real): (n: nat)
    ensures n <= |s|
  {
    if s == [] then 0 else AtMost(s[..|s| - 1], v) + (if s[|s| - 1] <= v then 1 else 0)
  }

  /** The rank of the 95th percentile among n values: the least integer not below 0.95 n. */
  function Rank(n: nat): nat { (95 * n + 99) / 100 }

  /** The least of the values that at least 95 percent of them do not exceed. */
  predicate IsP95(s: seq<real>, v: real) {
    && v in s
    && AtMost(s, v) >= Rank(|s|)
    && forall u <- s :: u < v ==> AtMost(s, u) < Rank(|s|)
  }

  function InsertReal(s: seq<real>, x: real): (r: seq<real>)
    ensures multiset(r) == multiset(s) + multiset{x}
    ensures |r| == |s| + 1
  {
    if s == [] || s[|s| - 1] <= x then s + [x]
    else
      assert s == s[..|s| - 1] + [s[|s| - 1]];
      InsertReal(s[..|s| - 1], x) + [s[|s| - 1]]
  }

  predicate Ascending(s: seq<real>) { forall i, j :: 0 <= i < j < |s| ==> s[i] <= s[j] }

  lemma {:induction false} InsertedIsAscending(s: seq<real>, x: real)
    requires Ascending(s)
    ensures Ascending(InsertReal(s, x))
    decreases |s|
  {
    if s != [] && s[|s| - 1] > x {
      var front, last := s[..|s| - 1], s[|s| - 1];
      InsertedIsAscending(front, x);
      var r := InsertReal(front, x);
      forall i | 0 <= i < |r| ensures r[i] <= last {
        assert r[i] in multiset(r);
        assert r[i] == x || r[i] in front;
      }
    }
  }

  /** The local sort. */
  function SortReals(s: seq<real>): (t: seq<real>)
    ensures |t| == |s|
  {
    if s == [] then [] else InsertReal(SortReals(s[..|s| - 1]), s[|s| - 1])
  }

  /** Ascending, and a permutation. */
  lemma {:induction false} SortsReals(s: seq<real>)
    ensures Ascending(SortReals(s)) && multiset(SortReals(s)) == multiset(s)
    decreases |s|
  {
    if s != [] {
      var front := s[..|s| - 1];
      SortsReals(front);
      InsertedIsAscending(SortReals(front), s[|s| - 1]);
      assert s == front + [s[|s| - 1]];
    }
  }

  lemma {:induction false} InsertedAtMost(s: seq<real>, x: real, v: real)
    ensures AtMost(InsertReal(s, x), v) == AtMost(s, v) + (if x <= v then 1 else 0)
    decreases |s|
  {
    if s == [] || s[|s| - 1] <= x {
      assert (s + [x])[..|s|] == s;
    } else {
      var front, last := s[..|s| - 1], s[|s| - 1];
      InsertedAtMost(front, x, v);
      var r := InsertReal(front, x);
      assert (r + [last])[..|r|] == r;
    }
  }

  /** Sorting does not change how many values lie at or below another. */
  lemma {:induction false} SortedAtMost(s: seq<real>, v: real)
    ensures AtMost(SortReals(s), v) == AtMost(s, v)
    decreases |s|
  {
    if s != [] {
      SortedAtMost(s[..|s| - 1], v);
      InsertedAtMost(SortReals(s[..|s| - 1]), s[|s| - 1], v);
    }
  }

  lemma {:induction false} AllAtMost(s: seq<real>, v: real)
    requires forall i :: 0 <= i < |s| ==> s[i] <= v
    ensures AtMost(s, v) == |s|
    decreases |s|
  {
    if s != [] {
      AllAtMost(s[..|s| - 1], v);
    }
  }

  lemma {:induction false} AscendingAtMost(s: seq<real>, k: nat, v: real)
    requires Ascending(s) && k < |s|
    ensures v == s[k] ==> AtMost(s, v) >= k + 1
    ensures v < s[k] ==> AtMost(s, v) <= k
    decreases |s|
  {
    var front := s[..|s| - 1];
    if k < |s| - 1 {
      AscendingAtMost(front, k, v);
    } else if v == s[k] {
      AllAtMost(front, v);
    }
  }

  lemma RankWithin(n: nat)
    requires n > 0
    ensures 1 <= Rank(n) <= n
    ensures 100 * Rank(n) >= 95 * n && 100 * (Rank(n) - 1) < 95 * n
  {
  }

  lemma SortedMember(s: seq<real>, k: nat)
    requires k < |s|
    ensures SortReals(s)[k] in s
  {
    SortsReals(s);
    assert SortReals(s)[k] in multiset(SortReals(s));
  }

  lemma SortedCounts(s: seq<real>, k: nat, u: real)
    requires k < |s|
    ensures u == SortReals(s)[k] ==> AtMost(s, u) >= k + 1
    ensures u < SortReals(s)[k] ==> AtMost(s, u) <= k
  {
    SortsReals(s);
    AscendingAtMost(SortReals(s), k, u);
    SortedAtMost(s, u);
  }

  lemma P95Criterion(s: seq<real>, v: real, k: nat)
    requires v in s && AtMost(s, v) >= k + 1 == Rank(|s|)
    requires forall u :: u in s && u < v ==> AtMost(s, u) <= k
    ensures IsP95(s, v)
  {
  }

  /** Sorting and indexing finds the percentile. */
  lemma SortedP95(s: seq<real>, k: nat)
    requires k < |s| && k + 1 == Rank(|s|)
    ensures IsP95(s, SortReals(s)[k])
  {
    var v := SortReals(s)[k];
    SortedMember(s, k);
    SortedCounts(s, k, v);
    forall u | u in s && u < v ensures AtMost(s, u) <= k {
      SortedCounts(s, k, u);
    }
    P95Criterion(s, v, k);
  }

  /** There is only one such value. */
  lemma P95IsUnique(s: seq<real>, v: real, w: real)
    requires IsP95(s, v) && IsP95(s, w)
    ensures v == w
  {
  }

  function P95(rtts: seq<real>): Option<real> {
    if rtts == [] then None
    else
      RankWithin(|rtts|);
      Some(SortReals(rtts)[Rank(|rtts|) - 1])
  }

  predicate IsSnapshot(r: Snapshot, samples: Round, minSamples: nat) {
    && r.attempted == |samples|
    && r.successful == Successes(samples)
    && r.lossPct == LossPct(|samples|, Successes(samples))
    && r.sufficient == (|samples| >= minSamples)
    && (match r.p95
        case None => Rtts(samples) == []
        case Some(v) => IsP95(Rtts(samples), v))
  }

  function SnapshotOf(samples: Round, minSamples: nat): Snapshot {
    Snapshot(|samples|, Successes(samples), LossPct(|samples|, Successes(samples)), P95(Rtts(samples)), |samples| >= minSamples)
  }

  /** A snapshot counts every sample and reports the exact percentile. */
  lemma SnapshotIsRight(samples: Round, minSamples: nat)
    ensures IsSnapshot(SnapshotOf(samples, minSamples), samples, minSamples)
  {
    if Rtts(samples) != [] {
      RankWithin(|Rtts(samples)|);
      SortedP95(Rtts(samples), Rank(|Rtts(samples)|) - 1);
    }
  }

  lemma SnapshotIsUnique(r: Snapshot, q: Snapshot, samples: Round, minSamples: nat)
    requires IsSnapshot(r, samples, minSamples) && IsSnapshot(q, samples, minSamples)
    ensures r == q
  {
    if r.p95.Some? && q.p95.Some? {
      P95IsUnique(Rtts(samples), r.p95.value, q.p95.value);
    }
  }

  // ---------------------------------------------------------------- Verdicts

  function ReasonFor(s: Snapshot, config: Config): Option<Reason> {
    var loss := s.lossPct >= config.lossThreshold;
    var rtt := config.rttThreshold.Some? && s.p95.Some? && s.p95.value >= config.rttThreshold.value;
    if !s.sufficient then None
    else if loss && rtt then Some(LossAndRtt)
    else if loss then Some(Loss)
    else if rtt then Some(Rtt)
    else None
  }

  predicate Recovering(s: Snapshot, config: Config) {
    && s.attempted != 0 && s.lossPct < config.recoveryLoss
    && (config.rttThreshold.Some? ==> s.p95.Some? && s.p95.value < config.rttThreshold.value)
  }

  // ---------------------------------------------------------------- What counts, and what degrades

  function Answered(samples: Round): set<nat> { set i: nat | i < |samples| && samples[i].successful }

  function Timed(samples: Round): set<nat> {
    set i: nat | i < |samples| && samples[i].successful && samples[i].rtt.Some?
  }

  function NotAbove(s: seq<real>, v: real): set<nat> { set i: nat | i < |s| && s[i] <= v }

  lemma {:induction false} CountsSuccesses(samples: Round)
    ensures Successes(samples) == |Answered(samples)|
    decreases |samples|
  {
    if samples == [] {
      assert Answered(samples) == {};
    } else {
      var n: nat := |samples| - 1;
      CountsSuccesses(samples[..n]);
      assert Answered(samples) == Answered(samples[..n]) + (if samples[n].successful then {n} else {});
    }
  }

  lemma {:induction false} CountsTimed(samples: Round)
    ensures |Rtts(samples)| == |Timed(samples)|
    ensures forall v :: v in Rtts(samples) <==> exists i <- Timed(samples) :: samples[i].rtt.value == v
    decreases |samples|
  {
    if samples == [] {
      assert Timed(samples) == {};
    } else {
      var n: nat := |samples| - 1;
      var front := samples[..n];
      CountsTimed(front);
      var timed := samples[n].successful && samples[n].rtt.Some?;
      assert Timed(samples) == Timed(front) + (if timed then {n} else {});
      assert forall i <- Timed(front) :: front[i] == samples[i];
      forall v ensures v in Rtts(samples) <==> exists i <- Timed(samples) :: samples[i].rtt.value == v {
        if timed && samples[n].rtt.value == v {
          assert n in Timed(samples);
        }
      }
    }
  }

  lemma {:induction false} CountsNotAbove(s: seq<real>, v: real)
    ensures AtMost(s, v) == |NotAbove(s, v)|
    decreases |s|
  {
    if s == [] {
      assert NotAbove(s, v) == {};
    } else {
      var n: nat := |s| - 1;
      CountsNotAbove(s[..n], v);
      assert NotAbove(s, v) == NotAbove(s[..n], v) + (if s[n] <= v then {n} else {});
    }
  }

  /** The loss of these samples, in percent, is at least so much. */
  predicate LosesAtLeast(samples: Round, pct: real) {
    AnswersLackAtLeast(|samples|, |Answered(samples)|, pct)
  }

  predicate AnswersLackAtLeast(sent: nat, answered: nat, pct: real) {
    if sent == 0 then 0.0 >= pct else (sent - answered) as real * 100.0 >= pct * sent as real
  }

  /** Their 95th percentile round-trip time, if any was measured, is at least the threshold, if there is one. */
  predicate SlowAt(samples: Round, threshold: Option<real>) {
    threshold.Some? && exists v <- Rtts(samples) :: IsP95(Rtts(samples), v) && v >= threshold.value
  }

  lemma LossIs(samples: Round, pct: real)
    ensures LossPct(|samples|, Successes(samples)) >= pct <==> LosesAtLeast(samples, pct)
  {
    CountsSuccesses(samples);
    LossQuotient(|samples|, Successes(samples), pct);
  }

  lemma LossQuotient(n: nat, successful: nat, pct: real)
    requires successful <= n
    ensures LossPct(n, successful) >= pct
            <==> AnswersLackAtLeast(n, successful, pct)
  {
    if n != 0 {
      QuotientAtLeast((n - successful) as real * 100.0, n as real, pct);
    }
  }

  lemma QuotientAtLeast(x: real, n: real, y: real)
    requires n > 0.0
    ensures x / n >= y <==> x >= y * n
  {
    var q := x / n;
    assert q * n == x;
    if q >= y {
      assert (q - y) * n >= 0.0;
    } else {
      assert (y - q) * n > 0.0;
    }
  }

  lemma SlownessIs(samples: Round, threshold: real)
    ensures (P95(Rtts(samples)).Some? && P95(Rtts(samples)).value >= threshold) <==> SlowAt(samples, Some(threshold))
    ensures P95(Rtts(samples)).Some? <==> exists i :: 0 <= i < |samples| && samples[i].successful && samples[i].rtt.Some?
  {
    SnapshotIsRight(samples, 0);
    CountsTimed(samples);
    var rtts := Rtts(samples);
    if rtts != [] {
      var p := P95(rtts).value;
      assert rtts[0] in rtts;
      forall v <- rtts | IsP95(rtts, v) ensures v == p {
        P95IsUnique(rtts, v, p);
      }
    }
    TimedIffAny(samples);
  }

  lemma TimedIffAny(samples: Round)
    ensures Rtts(samples) != [] <==> exists i :: 0 <= i < |samples| && samples[i].successful && samples[i].rtt.Some?
  {
    CountsTimed(samples);
    if i :| 0 <= i < |samples| && samples[i].successful && samples[i].rtt.Some? {
      assert i in Timed(samples);
    }
    if Rtts(samples) != [] {
      assert Rtts(samples)[0] in Rtts(samples);
    }
  }

  /** A window degrades, for what reason, exactly by its loss and its round-trip times, once there are enough samples. */
  lemma ReasonIs(samples: Round, config: Config)
    ensures var reason := ReasonFor(SnapshotOf(samples, config.minSamples), config);
            var enough := |samples| >= config.minSamples;
            var lossy, slow := LosesAtLeast(samples, config.lossThreshold), SlowAt(samples, config.rttThreshold);
            && (reason.Some? <==> enough && (lossy || slow))
            && (reason.Some? ==> reason.value == if lossy && slow then LossAndRtt else if lossy then Loss else Rtt)
  {
    LossIs(samples, config.lossThreshold);
    if config.rttThreshold.Some? {
      SlownessIs(samples, config.rttThreshold.value);
    }
  }

  /** A round counts towards recovery exactly if it has samples, loses less, and was measured fast enough where that matters. */
  lemma RecoveringIs(samples: Round, config: Config)
    ensures Recovering(SnapshotOf(samples, 0), config) <==>
            && samples != [] && !LosesAtLeast(samples, config.recoveryLoss)
            && (config.rttThreshold.Some? ==>
                  && (exists i :: 0 <= i < |samples| && samples[i].successful && samples[i].rtt.Some?)
                  && !SlowAt(samples, config.rttThreshold))
  {
    LossIs(samples, config.recoveryLoss);
    if config.rttThreshold.Some? {
      SlownessIs(samples, config.rttThreshold.value);
    }
  }

  // ---------------------------------------------------------------- The window

  function Flatten(rounds: seq<Round>): Round {
    if rounds == [] then [] else Flatten(rounds[..|rounds| - 1]) + rounds[|rounds| - 1]
  }

  function Last(history: seq<Round>, n: nat): (r: seq<Round>)
    ensures |r| == Min(|history|, n)
  {
    history[|history| - Min(|history|, n)..]
  }

  /** The window as it was after the last of these rounds. */
  function WindowOf(config: Config, history: seq<Round>): Snapshot {
    SnapshotOf(Flatten(Last(history, config.windowRounds)), config.minSamples)
  }

  // ---------------------------------------------------------------- What a history of rounds says

  /** When a history ends in trouble, which rounds count towards recovery, and how many are needed. */
  datatype Rules = Rules(found: seq<Round> -> Option<Reason>, recovers: Round -> bool, needed: nat)

  function ReasonAt(config: Config, history: seq<Round>): Option<Reason> {
    ReasonFor(WindowOf(config, history), config)
  }

  function RulesOf(config: Config): Rules {
    Rules(history => ReasonAt(config, history), round => Recovering(SnapshotOf(round, 0), config), config.recoveryRounds)
  }

  /** The last rounds all came after the onset, were enough, and all were recovery rounds. */
  predicate RecoveredSince(rules: Rules, history: seq<Round>, onset: nat) {
    && |history| >= onset + 1 + rules.needed
    && forall k :: |history| - rules.needed <= k < |history| ==> rules.recovers(history[k])
  }

  /** The round in which the current degradation began, if there is one. */
  function Onset(rules: Rules, history: seq<Round>): (r: Option<nat>)
    ensures r.Some? ==> r.value < |history|
  {
    if history == [] then None
    else
      match Onset(rules, history[..|history| - 1])
      case None => if rules.found(history).Some? then Some(|history| - 1) else None
      case Some(onset) => if RecoveredSince(rules, history, onset) then None else Some(onset)
  }

  datatype Verdict = Well | Ill(reason: Option<Reason>) | Better

  /** What is decided on the last of these rounds; a degradation keeps the reason it began with. */
  function Decided(rules: Rules, history: seq<Round>): Verdict
    requires history != []
  {
    match Onset(rules, history)
    case Some(onset) => Ill(rules.found(history[..onset + 1]))
    case None => if Onset(rules, history[..|history| - 1]).Some? then Better else Well
  }

  /** The round a degradation began in was the first after health, and it had a reason. */
  lemma {:induction false} OnsetHasReason(rules: Rules, history: seq<Round>)
    requires Onset(rules, history).Some?
    ensures var onset := Onset(rules, history).value;
            Onset(rules, history[..onset]).None? && rules.found(history[..onset + 1]).Some?
    decreases |history|
  {
    var front := history[..|history| - 1];
    var onset := Onset(rules, history).value;
    if Onset(rules, front).Some? {
      OnsetHasReason(rules, front);
      assert front[..onset] == history[..onset] && front[..onset + 1] == history[..onset + 1];
    } else {
      assert history[..onset + 1] == history;
    }
  }

  /** Since its onset a degradation has been in force after every round. */
  lemma {:induction false} DegradedSinceOnset(rules: Rules, history: seq<Round>, n: nat)
    requires Onset(rules, history).Some? && Onset(rules, history).value < n <= |history|
    ensures Onset(rules, history[..n]) == Onset(rules, history)
    decreases |history|
  {
    var front := history[..|history| - 1];
    if n == |history| {
      assert history[..n] == history;
    } else {
      DegradedSinceOnset(rules, front, n);
      assert front[..n] == history[..n];
    }
  }

  /** Healthy before this round, degraded by it. */
  predicate BeginsDegradation(rules: Rules, history: seq<Round>, k: nat) {
    && k < |history|
    && Onset(rules, history[..k]).None?
    && Decided(rules, history[..k + 1]).Ill?
  }

  /** A recovery ends a degradation, after enough recovery rounds in a row since it began. */
  lemma RecoveryEndsADegradation(rules: Rules, history: seq<Round>) returns (onset: nat)
    requires history != [] && Decided(rules, history).Better?
    ensures onset < |history| - 1 && BeginsDegradation(rules, history, onset)
    ensures RecoveredSince(rules, history, onset)
    ensures forall n :: onset < n < |history| ==> Decided(rules, history[..n]).Ill?
  {
    var front := history[..|history| - 1];
    onset := Onset(rules, front).value;
    OnsetHasReason(rules, front);
    assert front[..onset] == history[..onset] && front[..onset + 1] == history[..onset + 1];
    forall n | onset < n < |history| ensures Decided(rules, history[..n]).Ill? {
      DegradedSinceOnset(rules, front, n);
      assert front[..n] == history[..n];
    }
  }

  /** And it is decided as soon as that is so: no earlier round already had them. */
  lemma RecoveryIsPrompt(rules: Rules, history: seq<Round>, n: nat)
    requires Onset(rules, history).Some? && Onset(rules, history).value < n <= |history|
    requires n > Onset(rules, history).value + 1
    ensures !RecoveredSince(rules, history[..n], Onset(rules, history).value)
  {
    var onset := Onset(rules, history).value;
    DegradedSinceOnset(rules, history, n);
    DegradedSinceOnset(rules, history, n - 1);
    assert history[..n][..n - 1] == history[..n - 1];
  }

  /** Between two recoveries there is a round that begins a degradation. */
  lemma RecoveriesAlternate(rules: Rules, history: seq<Round>, earlier: seq<Round>) returns (k: nat)
    requires [] < earlier < history
    requires Decided(rules, earlier).Better? && Decided(rules, history).Better?
    ensures |earlier| <= k < |history| - 1 && BeginsDegradation(rules, history, k)
  {
    k := RecoveryEndsADegradation(rules, history);
    assert earlier == history[..|earlier|];
  }

  // ---------------------------------------------------------------- The running counters

  /** How many rounds at the end, none before `from`, were recovery rounds. */
  function Streak(rules: Rules, history: seq<Round>, from: nat): (n: nat)
    requires from <= |history|
    ensures n <= |history| - from
    decreases |history|
  {
    if |history| == from || !rules.recovers(history[|history| - 1]) then 0
    else Streak(rules, history[..|history| - 1], from) + 1
  }

  lemma {:induction false} StreakMeans(rules: Rules, history: seq<Round>, from: nat, n: nat)
    requires from <= |history|
    ensures Streak(rules, history, from) >= n <==>
            |history| - from >= n && forall k :: |history| - n <= k < |history| ==> rules.recovers(history[k])
    decreases |history|
  {
    if n > 0 && |history| > from {
      var front := history[..|history| - 1];
      StreakMeans(rules, front, from, n - 1);
      assert forall k :: 0 <= k < |front| ==> front[k] == history[k];
    }
  }

  lemma LastAppended(history: seq<Round>, round: Round, n: nat)
    ensures var pushed := Last(history, n) + [round];
            Last(history + [round], n) == if |pushed| > n then pushed[1..] else pushed
  {
  }

  lemma RecoveredByStreak(rules: Rules, history: seq<Round>, onset: nat)
    requires onset < |history|
    ensures RecoveredSince(rules, history, onset) <==> Streak(rules, history, onset + 1) >= rules.needed
  {
    StreakMeans(rules, history, onset + 1, rules.needed);
  }

  /** One more round, told by the onset and the streak so far. */
  lemma OnsetAppended(rules: Rules, before: seq<Round>, round: Round)
    ensures var history := before + [round];
            Onset(rules, history) ==
               match Onset(rules, before)
               case None => (if rules.found(history).Some? then Some(|before|) else None)
               case Some(onset) => if RecoveredSince(rules, history, onset) then None else Some(onset)
  {
    assert (before + [round])[..|before|] == before;
  }

  lemma StreakAppended(rules: Rules, before: seq<Round>, round: Round, from: nat)
    requires from <= |before|
    ensures Streak(rules, before + [round], from) == if rules.recovers(round) then Streak(rules, before, from) + 1 else 0
  {
    assert (before + [round])[..|before|] == before;
  }

  /** The state the window keeps, as the history determines it. */
  datatype Condition = Condition(degraded: bool, reason: Option<Reason>, streak: nat)

  /** A degraded window retains its reason; a healthy one has none and counts nothing. */
  predicate Tracks(rules: Rules, history: seq<Round>, c: Condition) {
    match Onset(rules, history)
    case None => c == Condition(false, None, 0)
    case Some(onset) =>
      c == Condition(true, rules.found(history[..onset + 1]), Streak(rules, history, onset + 1)) && c.reason.Some?
  }

  lemma TracksNothing(rules: Rules)
    ensures Tracks(rules, [], Condition(false, None, 0))
  {
  }

  lemma TracksAppended(rules: Rules, before: seq<Round>, round: Round, c: Condition, c': Condition)
    requires Tracks(rules, before, c)
    requires var found := rules.found(before + [round]);
             var streak := if rules.recovers(round) then c.streak + 1 else 0;
             c' == if !c.degraded then (if found.Some? then Condition(true, found, 0) else c)
                   else if streak >= rules.needed then Condition(false, None, 0)
                   else c.(streak := streak)
    ensures Tracks(rules, before + [round], c')
    ensures Decided(rules, before + [round]) == if c'.degraded then Ill(c'.reason) else if c.degraded then Better else Well
  {
    var history := before + [round];
    OnsetAppended(rules, before, round);
    assert history[..|history| - 1] == before && history[..|before| + 1] == history;
    if Onset(rules, before).Some? {
      var onset := Onset(rules, before).value;
      StreakAppended(rules, before, round, onset + 1);
      RecoveredByStreak(rules, history, onset);
      assert before[..onset + 1] == history[..onset + 1];
    }
  }

  // ---------------------------------------------------------------- The window itself

  predicate Says(d: Decision, v: Verdict, window: Snapshot) {
    && d.snapshot == window
    && match v
       case Well => d.Healthy?
       case Ill(reason) => d.Degraded? && reason == Some(d.reason)
       case Better => d.Recovered?
  }

  class HealthWindow {
    const config: Config
    var rounds: seq<Round>
    var degraded: bool
    var reason: Option<Reason>
    var streak: nat
    ghost var history: seq<Round>

    ghost predicate Valid()
      reads this
    {
      && rounds == Last(history, config.windowRounds)
      && Tracks(RulesOf(config), history, Condition(degraded, reason, streak))
    }

    constructor (config: Config)
      ensures Valid() && this.config == config && history == []
    {
      this.config := config;
      rounds, degraded, reason, streak, history := [], false, None, 0, [];
      new;
      TracksNothing(RulesOf(config));
    }

    /** Decides what the whole history says, from the retained rounds alone; a degradation always has its reason. */
    method ObserveRound(samples: Round) returns (d: Decision)
      requires Valid()
      modifies this
      ensures Valid() && history == old(history) + [samples]
      ensures Says(d, Decided(RulesOf(config), history), WindowOf(config, history))
    {
      var round := SnapshotOf(samples, 0);
      Push(samples);
      var window := SnapshotOf(Flatten(rounds), config.minSamples);
      ghost var rules := RulesOf(config);
      ghost var before := Condition(degraded, reason, streak);
      assert rules.found(history) == ReasonFor(window, config);
      assert rules.recovers(samples) == Recovering(round, config);
      if !degraded {
        var found := ReasonFor(window, config);
        if found.Some? {
          degraded, reason, streak := true, found, 0;
          TracksAppended(rules, old(history), samples, before, Condition(degraded, reason, streak));
          return Degraded(window, found.value);
        }
        TracksAppended(rules, old(history), samples, before, before);
        return Healthy(window);
      }
      if Recovering(round, config) {
        streak := streak + 1;
      } else {
        streak := 0;
      }
      if streak >= config.recoveryRounds {
        degraded, reason, streak := false, None, 0;
        TracksAppended(rules, old(history), samples, before, Condition(degraded, reason, streak));
        return Recovered(window);
      }
      TracksAppended(rules, old(history), samples, before, Condition(degraded, reason, streak));
      d := Degraded(window, reason.value);
    }

    /** Retains the new round and, of the older ones, as many as the window holds. */
    method Push(samples: Round)
      requires rounds == Last(history, config.windowRounds)
      modifies this`rounds, this`history
      ensures history == old(history) + [samples] && rounds == Last(history, config.windowRounds)
    {
      LastAppended(history, samples, config.windowRounds);
      history := history + [samples];
      rounds := rounds + [samples];
      ghost var pushed := rounds;
      while |rounds| > config.windowRounds
        invariant history == old(history) + [samples]
        invariant rounds == pushed || (|pushed| > config.windowRounds && rounds == pushed[1..])
      {
        rounds := rounds[1..];
      }
    }
  }
}
