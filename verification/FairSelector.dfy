/** Choosing the interface of the next bandwidth test: fewest attempts, then longest waiting, then first configured. */
module FairSelector {
  import opened Values

  /** A fairness record of one interface. */
  datatype Fairness = Fairness(attempts: nat, lastTurn: Option<nat>)

  const UNTRIED := Fairness(0, None)

  datatype Selector = Selector(order: seq<string>, state: map<string, Fairness>, turn: nat)

  predicate Distinct(names: seq<string>) {
    forall i, j :: 0 <= i < j < |names| ==> names[i] != names[j]
  }

  predicate Valid(s: Selector) {
    && Distinct(s.order)
    && (forall i :: 0 <= i < |s.order| ==> s.order[i] in s.state)
    && (forall name <- s.state :: s.state[name].attempts <= U64_MAX)
  }

  function Fresh(names: seq<string>): Selector {
    Selector(names, map name <- names :: UNTRIED, 0)
  }

  function Tried(s: Selector, i: nat): Fairness
    requires i < |s.order|
  {
    if s.order[i] in s.state then s.state[s.order[i]] else UNTRIED
  }

  function Attempts(s: Selector, i: nat): nat
    requires i < |s.order|
  {
    Tried(s, i).attempts
  }

  function LastTurn(s: Selector, i: nat): nat
    requires i < |s.order|
  {
    var last := Tried(s, i).lastTurn; if last.Some? then last.value else 0
  }

  predicate Before(s: Selector, i: nat, j: nat)
    requires i < |s.order| && j < |s.order|
  {
    || Attempts(s, i) < Attempts(s, j)
    || (Attempts(s, i) == Attempts(s, j)
        && (LastTurn(s, i) < LastTurn(s, j) || (LastTurn(s, i) == LastTurn(s, j) && i < j)))
  }

  /** The least eligible position among the first `n`. */
  function Best(s: Selector, eligible: set<string>, n: nat): (best: Option<nat>)
    requires n <= |s.order|
    ensures best.Some? ==> best.value < n && s.order[best.value] in eligible
  {
    if n == 0 then None
    else
      var best := Best(s, eligible, n - 1);
      if s.order[n - 1] in eligible && (best.None? || Before(s, n - 1, best.value)) then Some(n - 1) else best
  }

  function Select(s: Selector, eligible: set<string>): Option<nat> { Best(s, eligible, |s.order|) }

  /** Attempts saturate, turns wrap; an unknown name changes nothing. */
  function Record(s: Selector, name: string): Selector {
    if name !in s.state then s
    else
      var turn := (s.turn + 1) % (U64_MAX + 1);
      s.(turn := turn, state := s.state[name := Fairness(Min(s.state[name].attempts + 1, U64_MAX), Some(turn))])
  }

  /** One selection, recorded. */
  function Turn(s: Selector, eligible: set<string>): Selector {
    match Select(s, eligible)
    case None => s
    case Some(i) => Record(s, s.order[i])
  }

  function Turns(s: Selector, eligible: set<string>, k: nat): Selector {
    if k == 0 then s else Turn(Turns(s, eligible, k - 1), eligible)
  }

  // ---------------------------------------------------------------- The choice

  /** The choice is eligible, and no other eligible interface comes before it; there is none only if none is eligible. */
  lemma {:induction false} BestIsLeast(s: Selector, eligible: set<string>, n: nat)
    requires n <= |s.order|
    ensures match Best(s, eligible, n)
            case None => forall j :: 0 <= j < n ==> s.order[j] !in eligible
            case Some(i) => forall j :: 0 <= j < n && j != i && s.order[j] in eligible ==> Before(s, i, j)
  {
    if n > 0 {
      BestIsLeast(s, eligible, n - 1);
    }
  }

  lemma BestIsUnique(s: Selector, eligible: set<string>, i: nat)
    requires i < |s.order| && s.order[i] in eligible
    requires forall j :: 0 <= j < |s.order| && j != i && s.order[j] in eligible ==> Before(s, i, j)
    ensures Select(s, eligible) == Some(i)
  {
    BestIsLeast(s, eligible, |s.order|);
  }

  lemma RecordKeepsValid(s: Selector, name: string)
    requires Valid(s)
    ensures Valid(Record(s, name))
  {
  }

  /** Recording counts one attempt, of the chosen interface alone. */
  lemma RecordedAttempts(s: Selector, i: nat, j: nat)
    requires Valid(s) && i < |s.order| && j < |s.order|
    ensures Attempts(Record(s, s.order[i]), j) == if j == i then Min(Attempts(s, i) + 1, U64_MAX) else Attempts(s, j)
  {
  }

  // ---------------------------------------------------------------- Spread

  /** Eligible interfaces differ by at most `d` attempts. */
  predicate Within(s: Selector, eligible: set<string>, d: nat) {
    forall i, j :: 0 <= i < |s.order| && 0 <= j < |s.order| && s.order[i] in eligible && s.order[j] in eligible ==>
                     Attempts(s, i) <= Attempts(s, j) + d
  }

  lemma TurnKeepsSpread(s: Selector, eligible: set<string>, d: nat)
    requires Valid(s) && d >= 1 && Within(s, eligible, d)
    ensures Valid(Turn(s, eligible)) && Within(Turn(s, eligible), eligible, d)
  {
    BestIsLeast(s, eligible, |s.order|);
    var best := Select(s, eligible);
    if best.Some? {
      var t := Turn(s, eligible);
      RecordKeepsValid(s, s.order[best.value]);
      forall i, j | 0 <= i < |t.order| && 0 <= j < |t.order| && t.order[i] in eligible && t.order[j] in eligible
        ensures Attempts(t, i) <= Attempts(t, j) + d
      {
        RecordedAttempts(s, best.value, i);
        RecordedAttempts(s, best.value, j);
      }
    }
  }

  /** Repeated selection never widens the spread beyond its start, or one. */
  lemma {:induction false} SpreadNeverGrows(s: Selector, eligible: set<string>, d: nat, k: nat)
    requires Valid(s) && Within(s, eligible, d)
    ensures Valid(Turns(s, eligible, k)) && Within(Turns(s, eligible, k), eligible, Max(d, 1))
  {
    if k > 0 {
      SpreadNeverGrows(s, eligible, d, k - 1);
      TurnKeepsSpread(Turns(s, eligible, k - 1), eligible, Max(d, 1));
    }
  }

  /** The attempts missing before every eligible interface among the first `n` has come within one of `top`. */
  function Missing(s: Selector, eligible: set<string>, top: nat, n: nat): nat
    requires n <= |s.order|
  {
    if n == 0 then 0
    else Missing(s, eligible, top, n - 1) + (if s.order[n - 1] in eligible then Max(top - 1 - Attempts(s, n - 1), 0) else 0)
  }

  predicate Below(s: Selector, eligible: set<string>, top: nat) {
    forall i :: 0 <= i < |s.order| && s.order[i] in eligible ==> Attempts(s, i) <= top
  }

  lemma {:induction false} MissingAfter(s: Selector, eligible: set<string>, top: nat, i: nat, n: nat)
    requires Valid(s) && i < |s.order| && n <= |s.order| && top <= U64_MAX
    requires s.order[i] in eligible && Attempts(s, i) + 1 < top
    ensures Missing(Record(s, s.order[i]), eligible, top, n) == Missing(s, eligible, top, n) - (if i < n then 1 else 0)
  {
    if n > 0 {
      MissingAfter(s, eligible, top, i, n - 1);
      RecordedAttempts(s, i, n - 1);
    }
  }

  lemma {:induction false} NothingMissing(s: Selector, eligible: set<string>, top: nat, n: nat, i: nat)
    requires n <= |s.order| && i < n && s.order[i] in eligible && Missing(s, eligible, top, n) == 0
    ensures Attempts(s, i) + 1 >= top
  {
    if i < n - 1 {
      NothingMissing(s, eligible, top, n - 1, i);
    }
  }

  /** As long as an attempt is missing, a turn makes one up, and no count passes the top. */
  lemma TurnMakesUp(s: Selector, eligible: set<string>, top: nat)
    requires Valid(s) && Below(s, eligible, top) && 0 < Missing(s, eligible, top, |s.order|) && top <= U64_MAX
    ensures var t := Turn(s, eligible);
            Valid(t) && Below(t, eligible, top) && Missing(t, eligible, top, |t.order|) == Missing(s, eligible, top, |s.order|) - 1
  {
    var low := SomeMissing(s, eligible, top, |s.order|);
    BestIsLeast(s, eligible, |s.order|);
    var i := Select(s, eligible).value;
    RecordKeepsValid(s, s.order[i]);
    MissingAfter(s, eligible, top, i, |s.order|);
    forall j | 0 <= j < |s.order| && s.order[j] in eligible ensures Attempts(Turn(s, eligible), j) <= top {
      RecordedAttempts(s, i, j);
    }
  }

  lemma {:induction false} SomeMissing(s: Selector, eligible: set<string>, top: nat, n: nat) returns (i: nat)
    requires n <= |s.order| && 0 < Missing(s, eligible, top, n)
    ensures i < n && s.order[i] in eligible && Attempts(s, i) + 1 < top
  {
    if Missing(s, eligible, top, n - 1) > 0 {
      i := SomeMissing(s, eligible, top, n - 1);
    } else {
      i := n - 1;
    }
  }

  lemma {:induction false} TurnsMakeUp(s: Selector, eligible: set<string>, top: nat, k: nat)
    requires Valid(s) && Below(s, eligible, top) && k <= Missing(s, eligible, top, |s.order|) && top <= U64_MAX
    ensures var t := Turns(s, eligible, k);
            && t.order == s.order && Valid(t) && Below(t, eligible, top)
            && Missing(t, eligible, top, |t.order|) == Missing(s, eligible, top, |s.order|) - k
  {
    if k > 0 {
      TurnsMakeUp(s, eligible, top, k - 1);
      TurnMakesUp(Turns(s, eligible, k - 1), eligible, top);
    }
  }

  lemma {:induction false} TurnsValid(s: Selector, eligible: set<string>, k: nat)
    requires Valid(s)
    ensures Valid(Turns(s, eligible, k)) && Turns(s, eligible, k).order == s.order
  {
    if k > 0 {
      TurnsValid(s, eligible, k - 1);
      var before := Turns(s, eligible, k - 1);
      if Select(before, eligible).Some? {
        RecordKeepsValid(before, before.order[Select(before, eligible).value]);
      }
    }
  }

  lemma MadeUpIsEven(t: Selector, eligible: set<string>, top: nat)
    requires Below(t, eligible, top) && Missing(t, eligible, top, |t.order|) == 0
    ensures Within(t, eligible, 1)
  {
    forall i, j | 0 <= i < |t.order| && 0 <= j < |t.order| && t.order[i] in eligible && t.order[j] in eligible
      ensures Attempts(t, i) <= Attempts(t, j) + 1
    {
      NothingMissing(t, eligible, top, |t.order|, j);
    }
  }

  /** After as many selections as are missing, the spread is at most one, and stays so. */
  lemma {:induction false} SpreadReachesOne(s: Selector, eligible: set<string>, top: nat, k: nat)
    requires Valid(s) && Below(s, eligible, top) && top <= U64_MAX
    requires k >= Missing(s, eligible, top, |s.order|)
    ensures Within(Turns(s, eligible, k), eligible, 1)
    decreases k
  {
    if k == Missing(s, eligible, top, |s.order|) {
      TurnsMakeUp(s, eligible, top, k);
      MadeUpIsEven(Turns(s, eligible, k), eligible, top);
    } else {
      SpreadReachesOne(s, eligible, top, k - 1);
      TurnsValid(s, eligible, k - 1);
      TurnKeepsSpread(Turns(s, eligible, k - 1), eligible, 1);
    }
  }

  // ---------------------------------------------------------------- Round robin

  /** The state after q full rotations, `start` turns in all, and r turns more. */
  predicate Rotated(s: Selector, q: nat, start: nat, r: nat) {
    && r < |s.order| && s.turn == start + r
    && (start == 0 || start >= |s.order|)
    && forall i :: 0 <= i < |s.order| ==> RotatedAt(s, q, start, r, i)
  }

  predicate RotatedAt(s: Selector, q: nat, start: nat, r: nat, i: nat)
    requires i < |s.order|
  {
    && Attempts(s, i) == q + (if i < r then 1 else 0)
    && LastTurn(s, i) == (if i < r then start + i + 1 else if start == 0 then 0 else start - |s.order| + i + 1)
  }

  lemma RotatedSelects(s: Selector, eligible: set<string>, q: nat, start: nat, r: nat)
    requires Rotated(s, q, start, r) && forall i :: 0 <= i < |s.order| ==> s.order[i] in eligible
    ensures Select(s, eligible) == Some(r)
  {
    assert RotatedAt(s, q, start, r, r);
    forall j | 0 <= j < |s.order| && j != r ensures Before(s, r, j) {
      assert RotatedAt(s, q, start, r, j);
    }
    BestIsUnique(s, eligible, r);
  }

  lemma RecordedTurn(s: Selector, i: nat, j: nat)
    requires Valid(s) && i < |s.order| && j < |s.order| && s.turn < U64_MAX
    ensures Record(s, s.order[i]).turn == s.turn + 1
    ensures LastTurn(Record(s, s.order[i]), j) == if j == i then s.turn + 1 else LastTurn(s, j)
  {
  }

  /** The turn after it goes on with the rotation, or begins the next. */
  lemma RecordedRotation(s: Selector, q: nat, start: nat, r: nat, q': nat, start': nat, r': nat)
    requires Valid(s) && Rotated(s, q, start, r) && start + r < U64_MAX && q < U64_MAX
    requires if r + 1 < |s.order| then q' == q && start' == start && r' == r + 1
             else q' == q + 1 && start' == start + |s.order| && r' == 0
    ensures Rotated(Record(s, s.order[r]), q', start', r')
  {
    var t := Record(s, s.order[r]);
    RecordedTurn(s, r, r);
    forall i | 0 <= i < |t.order| ensures RotatedAt(t, q', start', r', i) {
      assert RotatedAt(s, q, start, r, i);
      RecordedAttempts(s, r, i);
      RecordedTurn(s, r, i);
    }
  }

  predicate AllEligible(s: Selector, eligible: set<string>) {
    forall i :: 0 <= i < |s.order| ==> s.order[i] in eligible
  }

  /** Turns done in strict rotation: `start` completes `q` rounds of all interfaces. */
  predicate InRotation(s: Selector, k: nat, q: nat, r: nat) {
    k == q * |s.order| + r && Rotated(s, q, q * |s.order|, r)
  }

  lemma FreshRotation(names: seq<string>)
    requires names != []
    ensures InRotation(Fresh(names), 0, 0, 0)
  {
    assert forall i :: 0 <= i < |names| ==> RotatedAt(Fresh(names), 0, 0, 0, i);
  }

  lemma RotationStep(s: Selector, eligible: set<string>, k: nat, q: nat, r: nat) returns (q': nat, r': nat)
    requires Valid(s) && AllEligible(s, eligible) && InRotation(s, k, q, r) && k < U64_MAX
    ensures InRotation(Turn(s, eligible), k + 1, q', r')
  {
    var n := |s.order|;
    RotatedSelects(s, eligible, q, q * n, r);
    assert (q + 1) * n == q * n + n && q <= q * n;
    q', r' := if r + 1 < n then q else q + 1, if r + 1 < n then r + 1 else 0;
    RecordedRotation(s, q, q * n, r, q', q' * n, r');
  }

  lemma {:induction false} RotationAfter(s: Selector, eligible: set<string>, k: nat) returns (q: nat, r: nat)
    requires Valid(s) && AllEligible(s, eligible) && InRotation(s, 0, 0, 0) && k <= U64_MAX
    ensures InRotation(Turns(s, eligible, k), k, q, r)
  {
    if k == 0 {
      q, r := 0, 0;
    } else {
      q, r := RotationAfter(s, eligible, k - 1);
      var t := Turns(s, eligible, k - 1);
      TurnsValid(s, eligible, k - 1);
      assert AllEligible(t, eligible);
      q, r := RotationStep(t, eligible, k - 1, q, r);
    }
  }

  /** From fresh, with every interface eligible, turn k goes to the interface at k modulo their number. */
  lemma RoundRobin(names: seq<string>, eligible: set<string>, k: nat) returns (q: nat, r: nat)
    requires names != [] && Distinct(names) && k <= U64_MAX && AllEligible(Fresh(names), eligible)
    ensures k == q * |names| + r && r < |names|
    ensures Select(Turns(Fresh(names), eligible, k), eligible) == Some(r)
  {
    FreshRotation(names);
    TurnsValid(Fresh(names), eligible, k);
    q, r := RotationAfter(Fresh(names), eligible, k);
    var t := Turns(Fresh(names), eligible, k);
    assert t.order == names && AllEligible(t, eligible);
    RotatedSelects(t, eligible, q, q * |names|, r);
  }

  // ---------------------------------------------------------------- The object

  class FairInterfaceSelector {
    const order: seq<string>
    var state: map<string, Fairness>
    var turn: nat

    function View(): Selector
      reads this
    {
      Selector(order, state, turn)
    }

    constructor (names: seq<string>)
      ensures View() == Fresh(names)
    {
      order, state, turn := names, map name <- names :: UNTRIED, 0;
    }

    method Choose(eligible: set<string>) returns (name: Option<string>)
      ensures match Select(View(), eligible)
              case None => name.None? && forall i :: 0 <= i < |order| ==> order[i] !in eligible
              case Some(i) =>
                && name == Some(order[i]) && order[i] in eligible
                && forall j :: 0 <= j < |order| && j != i && order[j] in eligible ==> Before(View(), i, j)
    {
      BestIsLeast(View(), eligible, |order|);
      var best := Select(View(), eligible);
      name := if best.Some? then Some(order[best.value]) else None;
    }

    method RecordAttempt(name: string)
      modifies this
      ensures View() == Record(old(View()), name)
    {
      if name in state {
        turn := (turn + 1) % (U64_MAX + 1);
        state := state[name := Fairness(Min(state[name].attempts + 1, U64_MAX), Some(turn))];
      }
    }
  }
}
