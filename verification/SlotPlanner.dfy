/**
The slot planner: an interval is cut into equal strata, and one jittered instant is drawn from the
middle of each. All arithmetic is on whole milliseconds, with the truncating division of the program.
*/
module SlotPlanner {
  import opened Values

  // ---------------------------------------------------------------- Random numbers

  /** One xorshift step; a zero state is read as one. */
  function NextRandom(state: bv64): (next: bv64)
    ensures next != 0
  {
    var v := if state == 0 then 1 else state;
    var x := v ^ (v << 13);
    var y := x ^ (x >> 7);
    ShiftLeftKeepsNonZero(v);
    ShiftRightKeepsNonZero(x);
    ShiftLeftAgainKeepsNonZero(y);
    y ^ (y << 17)
  }

  lemma ShiftLeftKeepsNonZero(v: bv64)
    ensures v != 0 ==> v ^ (v << 13) != 0
  {
  }

  lemma ShiftRightKeepsNonZero(v: bv64)
    ensures v != 0 ==> v ^ (v >> 7) != 0
  {
  }

  lemma ShiftLeftAgainKeepsNonZero(v: bv64)
    ensures v != 0 ==> v ^ (v << 17) != 0
  {
  }

  // ---------------------------------------------------------------- Strata

  /** `total` milliseconds from `earliest`, to be shared by `count` slots. */
  datatype Interval = Interval(earliest: Time, end: Time, count: nat, jitter: nat, spacing: Millis) {
    predicate Valid() {
      earliest < end && count >= 1 && jitter <= 100
    }

    function Total(): (t: nat)
      requires Valid()
      ensures t >= 1
    {
      end - earliest
    }
  }

  function StratumStart(total: nat, count: nat, i: nat): nat
    requires count >= 1
  {
    total * i / count
  }

  function Width(total: nat, count: nat, i: nat): nat
    requires count >= 1
  {
    Max(StratumStart(total, count, i + 1) - StratumStart(total, count, i), 1)
  }

  function JitterWidth(width: nat, jitter: nat): nat { width * jitter / 100 }

  function MiddleStart(iv: Interval, i: nat): nat
    requires iv.Valid()
  {
    var width := Width(iv.Total(), iv.count, i);
    StratumStart(iv.Total(), iv.count, i) + Max(width - JitterWidth(width, iv.jitter), 0) / 2
  }

  /** The instant stratum i proposes for a drawn number. */
  function Candidate(iv: Interval, i: nat, drawn: nat): Time
    requires iv.Valid()
  {
    var jitter := JitterWidth(Width(iv.Total(), iv.count, i), iv.jitter);
    iv.earliest + MiddleStart(iv, i) + (if jitter == 0 then 0 else drawn % jitter)
  }

  predicate Draws(iv: Interval, i: nat)
    requires iv.Valid()
  {
    JitterWidth(Width(iv.Total(), iv.count, i), iv.jitter) != 0
  }

  predicate Fits(slots: seq<Time>, candidate: Time, iv: Interval) {
    (slots != [] ==> candidate >= AddDuration(slots[|slots| - 1], iv.spacing)) && candidate < iv.end
  }

  /** Slots and random state after the first n strata. */
  function PlanStrata(iv: Interval, rng: bv64, n: nat): (r: (seq<Time>, bv64))
    requires iv.Valid()
    ensures rng != 0 ==> r.1 != 0
    ensures |r.0| <= n
  {
    if n == 0 then ([], rng)
    else
      var (slots, before) := PlanStrata(iv, rng, n - 1);
      var after := if Draws(iv, n - 1) then NextRandom(before) else before;
      var candidate := Candidate(iv, n - 1, after as nat);
      (if Fits(slots, candidate, iv) then slots + [candidate] else slots, after)
  }

  // ---------------------------------------------------------------- Arithmetic of strata

  lemma Product(a: nat, b: nat, c: nat)
    requires a <= b
    ensures a * c <= b * c
  {
  }

  lemma Distribute(a: int, b: int, c: int)
    ensures (a + b) * c == a * c + b * c
  {
  }

  lemma QuotientIs(x: nat, count: nat, q: nat)
    requires count >= 1 && q * count <= x < q * count + count
    ensures x / count == q
  {
    var d := x / count;
    assert x == d * count + x % count;
    if d < q {
      Product(d + 1, q, count);
      Distribute(d, 1, count);
    } else if d > q {
      Product(q + 1, d, count);
      Distribute(q, 1, count);
    }
  }

  lemma DivideMultiple(a: nat, b: nat, count: nat)
    requires count >= 1
    ensures (a * count + b) / count == a + b / count
  {
    var q := b / count;
    assert b == q * count + b % count;
    Distribute(a, q, count);
    QuotientIs(a * count + b, count, a + q);
  }

  lemma DivideMonotone(a: nat, b: nat, count: nat)
    requires count >= 1 && a <= b
    ensures a / count <= b / count
  {
    var q, d := a / count, b / count;
    assert a == q * count + a % count && b == d * count + b % count;
    if d < q {
      Product(d + 1, q, count);
      Distribute(d, 1, count);
    }
  }

  lemma ProductAssociates(a: int, b: int, c: int)
    ensures (a * b) * c == (a * c) * b
  {
  }

  /** A stratum's start, split into whole averages and the share of the remainder. */
  lemma StratumStartIs(total: nat, count: nat, i: nat)
    requires count >= 1
    ensures StratumStart(total, count, i) == (total / count) * i + (total % count) * i / count
  {
    var q, r := total / count, total % count;
    assert total == q * count + r;
    Distribute(q * count, r, i);
    ProductAssociates(q, count, i);
    DivideMultiple(q * i, r * i, count);
  }

  lemma StratumAtLeastAverage(total: nat, count: nat, i: nat)
    requires count >= 1
    ensures StratumStart(total, count, i + 1) >= StratumStart(total, count, i) + total / count
  {
    var q, r := total / count, total % count;
    StratumStartIs(total, count, i);
    StratumStartIs(total, count, i + 1);
    Product(i, i + 1, r);
    DivideMonotone(r * i, r * (i + 1), count);
    Distribute(i, 1, q);
  }

  lemma StratumStartsBefore(total: nat, count: nat, i: nat)
    requires count >= 1 && i <= count
    ensures StratumStart(total, count, i) <= total
    ensures i < count && total >= 1 ==> StratumStart(total, count, i) < total
  {
    var s: nat := total * i / count;
    assert total * i == s * count + total * i % count;
    Product(i, count, total);
    if s > total {
      Product(total + 1, s, count);
      Distribute(total, 1, count);
    }
    if i < count && total >= 1 {
      Product(i + 1, count, total);
      Distribute(i, 1, total);
      if s >= total {
        Product(total, s, count);
      }
    }
  }

  /** Every stratum is at least the average length, and lies in the interval. */
  lemma StratumBounds(total: nat, count: nat, i: nat)
    requires count >= 1
    ensures StratumStart(total, count, i + 1) >= StratumStart(total, count, i) + total / count
    ensures i < count && total >= 1 ==> StratumStart(total, count, i) < total
    ensures i < count ==> StratumStart(total, count, i + 1) <= total
  {
    StratumAtLeastAverage(total, count, i);
    if i < count {
      StratumStartsBefore(total, count, i);
      StratumStartsBefore(total, count, i + 1);
    }
  }

  /** What jitter leaves of a width grows with the width. */
  lemma UnjitteredMonotone(q: nat, w: nat, jitter: nat)
    requires q <= w && jitter <= 100
    ensures JitterWidth(w, jitter) <= w
    ensures q - JitterWidth(q, jitter) <= w - JitterWidth(w, jitter)
  {
    var k := w - q;
    assert w * jitter == q * jitter + k * jitter;
    assert k * jitter <= k * 100;
    DivideMonotone(w * jitter, k * 100 + q * jitter, 100);
    DivideMultiple(k, q * jitter, 100);
    assert w * jitter <= w * 100;
    DivideMonotone(w * jitter, w * 100 + 0, 100);
    DivideMultiple(w, 0, 100);
  }

  // ---------------------------------------------------------------- Results

  /** The guaranteed distance between candidates: the average stratum less its jittered part. */
  function GuaranteedGap(iv: Interval): nat
    requires iv.Valid()
    ensures GuaranteedGap(iv) <= iv.Total() / iv.count
  {
    var q := iv.Total() / iv.count;
    UnjitteredMonotone(0, q, iv.jitter);
    q - JitterWidth(q, iv.jitter)
  }

  lemma CandidateWithin(iv: Interval, i: nat, drawn: nat)
    requires iv.Valid() && i < iv.count
    ensures iv.earliest <= Candidate(iv, i, drawn) < iv.end
  {
    var total, count := iv.Total(), iv.count;
    StratumBounds(total, count, i);
    var w := Width(total, count, i);
    UnjitteredMonotone(0, w, iv.jitter);
    var j := JitterWidth(w, iv.jitter);
    assert j != 0 ==> drawn % j < j;
    assert StratumStart(total, count, i) + w <= total || w == 1;
  }

  lemma SmallRemainder(x: nat, width: nat)
    requires x < width
    ensures x % width == x
  {
  }

  /** A candidate lies in the middle of its stratum, where its jittered part lies, and may be any instant of that. */
  lemma CandidateReaches(iv: Interval, i: nat, offset: nat)
    requires iv.Valid() && i < iv.count
    requires offset < Max(JitterWidth(Width(iv.Total(), iv.count, i), iv.jitter), 1)
    ensures var width := Width(iv.Total(), iv.count, i);
            var unjittered := width - JitterWidth(width, iv.jitter);
            && unjittered >= 0
            && Candidate(iv, i, offset) == iv.earliest + StratumStart(iv.Total(), iv.count, i) + unjittered / 2 + offset
  {
    var width := Width(iv.Total(), iv.count, i);
    UnjitteredMonotone(0, width, iv.jitter);
    if JitterWidth(width, iv.jitter) > 0 {
      SmallRemainder(offset, JitterWidth(width, iv.jitter));
    }
  }

  /** Neighbouring candidates are at least the guaranteed gap apart, whatever was drawn. */
  lemma CandidateGap(iv: Interval, i: nat, drawn: nat, drawn': nat)
    requires iv.Valid() && i + 1 < iv.count
    ensures Candidate(iv, i + 1, drawn') >= Candidate(iv, i, drawn) + GuaranteedGap(iv)
  {
    var total, count := iv.Total(), iv.count;
    var q := total / count;
    StratumBounds(total, count, i);
    StratumBounds(total, count, i + 1);
    var w, w' := Width(total, count, i), Width(total, count, i + 1);
    var j, j' := JitterWidth(w, iv.jitter), JitterWidth(w', iv.jitter);
    UnjitteredMonotone(q, w, iv.jitter);
    UnjitteredMonotone(q, w', iv.jitter);
    assert j != 0 ==> drawn % j <= j - 1;
    assert j' != 0 ==> drawn' % j' >= 0;
    var g := GuaranteedGap(iv);
    HalvesAddUp(w - j, w' - j', g);
    if StratumStart(total, count, i + 1) == StratumStart(total, count, i) {
      assert q == 0 && w == 1;
    } else {
      assert StratumStart(total, count, i + 1) == StratumStart(total, count, i) + w;
    }
  }

  lemma HalvesAddUp(a: nat, b: nat, g: nat)
    requires g <= a && g <= b
    ensures a - a / 2 + b / 2 >= g
  {
  }

  predicate Spaced(slots: seq<Time>, gap: int) {
    forall k :: 0 <= k < |slots| - 1 ==> slots[k + 1] >= slots[k] + gap
  }

  lemma SpacedAppend(slots: seq<Time>, next: Time, iv: Interval)
    requires Spaced(slots, iv.spacing) && Fits(slots, next, iv) && iv.end <= MAX_UTC
    ensures Spaced(slots + [next], iv.spacing)
  {
  }

  /** Every planned slot lies in the interval, and neighbours respect the minimum spacing. */
  lemma {:induction false} PlannedSlots(iv: Interval, rng: bv64, n: nat)
    requires iv.Valid() && n <= iv.count && iv.end <= MAX_UTC
    ensures var slots := PlanStrata(iv, rng, n).0;
            && (forall s <- slots :: iv.earliest <= s < iv.end)
            && Spaced(slots, iv.spacing)
  {
    if n > 0 {
      PlannedSlots(iv, rng, n - 1);
      var (slots, before) := PlanStrata(iv, rng, n - 1);
      var after := if Draws(iv, n - 1) then NextRandom(before) else before;
      var candidate := Candidate(iv, n - 1, after as nat);
      CandidateWithin(iv, n - 1, after as nat);
      if Fits(slots, candidate, iv) {
        SpacedAppend(slots, candidate, iv);
      }
    }
  }

  /** The next candidate fits behind the last, whatever was drawn. */
  lemma CandidateFits(iv: Interval, slots: seq<Time>, i: nat, drawn: nat, drawn': nat)
    requires iv.Valid() && i < iv.count && iv.spacing <= GuaranteedGap(iv)
    requires slots != [] ==> i > 0 && slots[|slots| - 1] == Candidate(iv, i - 1, drawn)
    ensures Fits(slots, Candidate(iv, i, drawn'), iv)
  {
    CandidateWithin(iv, i, drawn');
    if slots != [] {
      CandidateGap(iv, i - 1, drawn, drawn');
    }
  }

  /** When the minimum spacing fits in the guaranteed gap no slot is ever dropped. */
  lemma {:induction false} EveryStratumGetsASlot(iv: Interval, rng: bv64, n: nat)
    requires iv.Valid() && n <= iv.count && iv.spacing <= GuaranteedGap(iv)
    ensures var (slots, after) := PlanStrata(iv, rng, n);
            |slots| == n && (n > 0 ==> slots[n - 1] == Candidate(iv, n - 1, after as nat))
  {
    if n > 0 {
      EveryStratumGetsASlot(iv, rng, n - 1);
      var (slots, before) := PlanStrata(iv, rng, n - 1);
      var after := if Draws(iv, n - 1) then NextRandom(before) else before;
      CandidateFits(iv, slots, n - 1, before as nat, after as nat);
    }
  }

  const I64_MAX: int := 0x7FFF_FFFF_FFFF_FFFF
  const U32_MAX: nat := 0xFFFF_FFFF

  /** Within one day and for any 32-bit count, no product leaves the 64-bit range. */
  lemma ProductsFit(iv: Interval, i: nat)
    requires iv.Valid() && iv.Total() <= DAY_MS && i < iv.count <= U32_MAX
    ensures iv.Total() * (i + 1) <= I64_MAX
    ensures Width(iv.Total(), iv.count, i) * iv.jitter <= I64_MAX
  {
    Product(i + 1, U32_MAX, iv.Total());
    Product(iv.Total(), DAY_MS, U32_MAX);
    StratumBounds(iv.Total(), iv.count, i);
    var w := Width(iv.Total(), iv.count, i);
    Product(w, DAY_MS, iv.jitter);
  }

  /** Where in its stratum a candidate starts, and over how much of it a number is drawn. */
  method Middle(iv: Interval, index: nat) returns (start: nat, jitterWidth: nat)
    requires iv.Valid() && index < iv.count
    ensures start == MiddleStart(iv, index)
    ensures jitterWidth == JitterWidth(Width(iv.Total(), iv.count, index), iv.jitter)
  {
    var total: nat := iv.end - iv.earliest;
    var stratumStart := total * index / iv.count;
    var stratumEnd := total * (index + 1) / iv.count;
    assert stratumStart == StratumStart(iv.Total(), iv.count, index);
    assert stratumEnd == StratumStart(iv.Total(), iv.count, index + 1);
    var width := Max(stratumEnd - stratumStart, 1);
    jitterWidth := width * iv.jitter / 100;
    assert jitterWidth == JitterWidth(width, iv.jitter);
    UnjitteredMonotone(0, width, iv.jitter);
    start := stratumStart + (width - jitterWidth) / 2;
  }

  method SampledAt(iv: Interval, index: nat, start: nat, jitterWidth: nat, drawn: nat) returns (candidate: Time)
    requires iv.Valid() && index < iv.count && start == MiddleStart(iv, index)
    requires jitterWidth == JitterWidth(Width(iv.Total(), iv.count, index), iv.jitter)
    ensures candidate == Candidate(iv, index, drawn)
  {
    candidate := iv.earliest + start + (if jitterWidth == 0 then 0 else drawn % jitterWidth);
  }

  /** One turn of the planner's loop: the candidate of stratum `index`, drawn from the middle of it. */
  method DrawCandidate(iv: Interval, index: nat, rng: bv64) returns (candidate: Time, rng': bv64)
    requires iv.Valid() && index < iv.count
    ensures rng' == if Draws(iv, index) then NextRandom(rng) else rng
    ensures candidate == Candidate(iv, index, rng' as nat)
  {
    rng' := rng;
    var sampled, jitterWidth := Middle(iv, index);
    if jitterWidth != 0 {
      rng' := NextRandom(rng');
    }
    candidate := SampledAt(iv, index, sampled, jitterWidth, rng' as nat);
  }

  /** The planner's own loop over the strata. */
  method PlanInterval(iv: Interval, rng: bv64) returns (slots: seq<Time>, rng': bv64)
    requires iv.Valid()
    ensures (slots, rng') == PlanStrata(iv, rng, iv.count)
  {
    slots, rng' := [], rng;
    for index := 0 to iv.count
      invariant (slots, rng') == PlanStrata(iv, rng, index)
    {
      var candidate: Time;
      candidate, rng' := DrawCandidate(iv, index, rng');
      if (slots == [] || candidate >= AddDuration(slots[|slots| - 1], iv.spacing)) && candidate < iv.end {
        slots := slots + [candidate];
      }
    }
  }
}
