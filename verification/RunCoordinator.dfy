/**
The output coordinator: a tree of active runs under one session, gapless event numbers, and a journal
that is never written again once a write has failed.
*/
module RunCoordinator {
  import opened Values

  /** Run identifiers are ordered; the drain takes the least first. */
  type RunId = nat

  datatype RunKind = Session | PingRound | Bandwidth

  datatype Measurement = Probe | Throughput | RequestFailure | SchedulerNote

  datatype Body =
    | RunStarted
    | RunFinished(failed: bool)
    | Measured(what: Measurement)

  datatype Event = Event(
    body: Body,
    run: RunId,
    sequence: Option<nat>,
    parent: Option<RunId>,
    root: RunId,
    kind: RunKind)

  datatype Run = Run(root: RunId, parent: Option<RunId>, kind: RunKind)

  type Runs = map<RunId, Run>

  // ---------------------------------------------------------------- What a journal may contain

  predicate HasChild(runs: Runs, id: RunId) {
    exists r <- runs :: runs[r].parent == Some(id)
  }

  /** The session as its events tell it: how many there were, its root, the active runs, and when each started. */
  datatype Told = Told(count: nat, session: RunId, runs: Runs, numbers: map<RunId, nat>)

  const NOTHING_TOLD := Told(0, 0, map[], map[])

  predicate CarriesRun(e: Event, runs: Runs)
    requires e.run in runs
  {
    Run(e.root, e.parent, e.kind) == runs[e.run]
  }

  /** One more event, if the story allows it. */
  function Tell(s: Told, e: Event): Option<Told> {
    match e.body
    case RunStarted =>
      if e.run in s.runs then None
      else if e.parent.None? then
        if s.runs == map[] && e.root == e.run && e.sequence == Some(1)
        then Some(Told(1, e.run, map[e.run := Run(e.root, None, e.kind)], map[e.run := 1]))
        else None
      else if e.parent.value in s.runs && e.root == s.runs[e.parent.value].root && e.sequence == Some(s.count + 1)
      then Some(s.(count := s.count + 1, runs := s.runs[e.run := Run(e.root, e.parent, e.kind)],
                   numbers := s.numbers[e.run := s.count + 1]))
      else None
    case RunFinished(_) =>
      if e.run in s.runs && CarriesRun(e, s.runs) && !HasChild(s.runs, e.run) && e.sequence == Some(s.count + 1)
      then Some(s.(count := s.count + 1, runs := s.runs - {e.run}, numbers := s.numbers - {e.run}))
      else None
    case Measured(_) =>
      if (e.run in s.runs ==> CarriesRun(e, s.runs)) && e.sequence == Some(s.count + 1)
      then Some(s.(count := s.count + 1))
      else None
  }

  /** Well nested, gaplessly numbered, every parent active: a trace that can be told from its start. */
  function Story(trace: seq<Event>): Option<Told> {
    if trace == [] then Some(NOTHING_TOLD)
    else
      match Story(trace[..|trace| - 1])
      case None => None
      case Some(s) => Tell(s, trace[|trace| - 1])
  }

  lemma StoryExtends(trace: seq<Event>, e: Event)
    ensures Story(trace + [e]) == match Story(trace) case None => None case Some(s) => Tell(s, e)
  {
    assert (trace + [e])[..|trace|] == trace;
  }

  // ---------------------------------------------------------------- What a told story means

  /** One session at the root, every parent active and started earlier: an acyclic tree. */
  predicate IsTree(s: Told) {
    && s.numbers.Keys == s.runs.Keys
    && (forall r <- s.runs :: 1 <= s.numbers[r] <= s.count)
    && (s.runs != map[] ==> s.session in s.runs && s.runs[s.session].parent.None?)
    && (forall r <- s.runs :: s.runs[r].root == s.session)
    && (forall r <- s.runs :: s.runs[r].parent.None? ==> r == s.session)
    && (forall r <- s.runs :: s.runs[r].parent.Some? ==> ParentBefore(s, r))
  }

  predicate ParentBefore(s: Told, r: RunId)
    requires s.numbers.Keys == s.runs.Keys && r in s.runs && s.runs[r].parent.Some?
  {
    var p := s.runs[r].parent.value;
    p in s.runs && s.numbers[p] < s.numbers[r]
  }

  lemma SessionStartIsTree(s: Told, e: Event)
    requires e.body.RunStarted? && e.parent.None? && Tell(s, e).Some?
    ensures IsTree(Tell(s, e).value)
  {
    var t := Tell(s, e).value;
    assert t.runs.Keys == {e.run} == t.numbers.Keys;
  }

  lemma StartKeepsTree(s: Told, e: Event)
    requires IsTree(s) && e.body.RunStarted? && e.parent.Some? && Tell(s, e).Some?
    ensures IsTree(Tell(s, e).value)
  {
    var t := Tell(s, e).value;
    var p := e.parent.value;
    assert t.runs.Keys == s.runs.Keys + {e.run} == t.numbers.Keys;
    assert s.runs[p].root == e.root == s.session;
    forall r <- t.runs
      ensures t.runs[r].parent.Some? ==> ParentBefore(t, r)
    {
      if r != e.run {
        assert t.runs[r] == s.runs[r] && t.numbers[r] == s.numbers[r];
        assert s.runs[r].parent.Some? ==> ParentBefore(s, r);
      }
    }
  }

  lemma FinishKeepsTree(s: Told, e: Event)
    requires IsTree(s) && e.body.RunFinished? && Tell(s, e).Some?
    ensures IsTree(Tell(s, e).value)
  {
    var t := Tell(s, e).value;
    assert t.numbers.Keys == t.runs.Keys;
    if s.runs[e.run].parent.None? && t.runs.Keys != {} {
      EveryNonRootHasARoot(s, t.runs.Keys, e.run);
    }
    forall r <- t.runs ensures t.runs[r].parent.Some? ==> ParentBefore(t, r) {
      assert s.runs[r].parent.Some? ==> ParentBefore(s, r);
    }
  }

  lemma TellKeepsTree(s: Told, e: Event)
    requires IsTree(s) && Tell(s, e).Some?
    ensures IsTree(Tell(s, e).value)
  {
    match e.body {
      case RunStarted =>
        if e.parent.Some? {
          StartKeepsTree(s, e);
        } else {
          SessionStartIsTree(s, e);
        }
      case RunFinished(_) => FinishKeepsTree(s, e);
      case Measured(_) =>
        var t := Tell(s, e).value;
        assert forall r <- t.runs :: t.runs[r].parent.Some? ==> ParentBefore(s, r) && ParentBefore(t, r);
    }
  }

  /** The run among `ids` that started last. */
  lemma LatestRun(s: Told, ids: set<RunId>) returns (last: RunId)
    requires s.numbers.Keys == s.runs.Keys && ids <= s.runs.Keys && ids != {}
    ensures last in ids && forall r <- ids :: s.numbers[r] <= s.numbers[last]
    decreases |ids|
  {
    var some :| some in ids;
    if ids == {some} {
      last := some;
    } else {
      var other := LatestRun(s, ids - {some});
      last := if s.numbers[other] < s.numbers[some] then some else other;
      assert forall r <- ids :: r == some || r in ids - {some};
    }
  }

  /** A root with other runs below it has an active child. */
  lemma EveryNonRootHasARoot(s: Told, others: set<RunId>, root: RunId)
    requires IsTree(s) && root in s.runs && s.runs[root].parent.None?
    requires others == s.runs.Keys - {root} && others != {}
    ensures HasChild(s.runs, root)
  {
    var first := FirstRun(s, others);
    assert s.runs[first].parent.Some?;
    var p := s.runs[first].parent.value;
    assert p == root || p in others;
  }

  lemma FirstRun(s: Told, ids: set<RunId>) returns (first: RunId)
    requires s.numbers.Keys == s.runs.Keys && ids <= s.runs.Keys && ids != {}
    ensures first in ids && forall r <- ids :: s.numbers[first] <= s.numbers[r]
    decreases |ids|
  {
    var some :| some in ids;
    if ids == {some} {
      first := some;
    } else {
      var other := FirstRun(s, ids - {some});
      first := if s.numbers[some] < s.numbers[other] then some else other;
      assert forall r <- ids :: r == some || r in ids - {some};
    }
  }

  /** In every story that can be told the active runs are a tree. */
  lemma {:induction false} StoriesAreTrees(trace: seq<Event>)
    requires Story(trace).Some?
    ensures IsTree(Story(trace).value)
  {
    if trace != [] {
      StoriesAreTrees(trace[..|trace| - 1]);
      TellKeepsTree(Story(trace[..|trace| - 1]).value, trace[|trace| - 1]);
    }
  }

  lemma {:induction false} PrefixesAreStories(trace: seq<Event>, n: nat)
    requires Story(trace).Some? && n <= |trace|
    ensures Story(trace[..n]).Some?
    decreases |trace| - n
  {
    if n < |trace| {
      PrefixesAreStories(trace, n + 1);
      assert trace[..n + 1][..n] == trace[..n];
    } else {
      assert trace[..n] == trace;
    }
  }

  predicate StartsSession(e: Event) { e.body.RunStarted? && e.parent.None? }

  /** Events of a session are numbered 1, 2, 3, ... without gaps; a new session starts again at 1. */
  lemma {:induction false} NumbersHaveNoGaps(trace: seq<Event>, i: nat)
    requires Story(trace).Some? && i < |trace|
    ensures trace[i].sequence.Some?
    ensures i == 0 || StartsSession(trace[i]) ==> trace[i].sequence.value == 1
    ensures i > 0 && !StartsSession(trace[i]) ==>
              trace[i - 1].sequence.Some? && trace[i].sequence.value == trace[i - 1].sequence.value + 1
  {
    PrefixesAreStories(trace, i + 1);
    assert trace[..i + 1][..i] == trace[..i];
    CountIsLastNumber(trace[..i + 1]);
    if i > 0 {
      CountIsLastNumber(trace[..i]);
    }
  }

  lemma CountIsLastNumber(trace: seq<Event>)
    requires Story(trace).Some? && trace != []
    ensures trace[|trace| - 1].sequence == Some(Story(trace).value.count)
  {
  }

  /** A run stays active, with its parent, until its end is told. */
  lemma {:induction false} ActiveUntilFinished(trace: seq<Event>, j: nat, i: nat, child: RunId)
    requires Story(trace).Some? && j < i <= |trace|
    requires trace[j].body.RunStarted? && trace[j].run == child && trace[j].parent.Some?
    requires forall k :: j < k < i ==> !(trace[k].body.RunFinished? && trace[k].run == child)
    ensures Story(trace[..i]).Some? && child in Story(trace[..i]).value.runs
    ensures Story(trace[..i]).value.runs[child].parent == trace[j].parent
    decreases i
  {
    PrefixesAreStories(trace, i);
    PrefixesAreStories(trace, i - 1);
    assert trace[..i][..i - 1] == trace[..i - 1];
    if j + 1 < i {
      ActiveUntilFinished(trace, j, i - 1, child);
      var s := Story(trace[..i - 1]).value;
      assert child in s.runs;
      assert Tell(s, trace[i - 1]).Some?;
    }
  }

  lemma FinishedHasNoChild(trace: seq<Event>, i: nat)
    requires Story(trace).Some? && i < |trace| && trace[i].body.RunFinished?
    ensures Story(trace[..i]).Some? && !HasChild(Story(trace[..i]).value.runs, trace[i].run)
  {
    PrefixesAreStories(trace, i + 1);
    assert trace[..i + 1][..i] == trace[..i];
  }

  /** Well nested: a child started before its parent finished has itself finished before. */
  lemma ChildrenFinishFirst(trace: seq<Event>, j: nat, i: nat)
    requires Story(trace).Some? && j < i < |trace|
    requires trace[j].body.RunStarted? && trace[i].body.RunFinished? && trace[j].parent == Some(trace[i].run)
    ensures exists k :: j < k < i && trace[k].body.RunFinished? && trace[k].run == trace[j].run
  {
    FinishedHasNoChild(trace, i);
    if forall k :: j < k < i ==> !(trace[k].body.RunFinished? && trace[k].run == trace[j].run) {
      ActiveUntilFinished(trace, j, i, trace[j].run);
    }
  }

  // ---------------------------------------------------------------- Publishing

  function Annotated(e: Event, runs: Runs, number: nat): Event {
    var numbered := e.(sequence := Some(number));
    if e.run in runs
    then numbered.(parent := runs[e.run].parent, root := runs[e.run].root, kind := runs[e.run].kind)
    else numbered
  }

  /** A batch as it is written: numbered on from `from`, each event carrying its run if that is active. */
  function Numbered(events: seq<Event>, runs: Runs, from: nat): (r: seq<Event>)
    ensures |r| == |events|
  {
    if events == [] then []
    else
      var n := |events| - 1;
      Numbered(events[..n], runs, from) + [Annotated(events[n], runs, from + n + 1)]
  }

  lemma {:induction false} MeasurementsAreTold(trace: seq<Event>, events: seq<Event>)
    requires Story(trace).Some? && forall e <- events :: e.body.Measured?
    ensures var s := Story(trace).value;
            Story(trace + Numbered(events, s.runs, s.count)) == Some(s.(count := s.count + |events|))
    decreases |events|
  {
    var s := Story(trace).value;
    if events == [] {
      assert trace + [] == trace;
    } else {
      var n := |events| - 1;
      var front := Numbered(events[..n], s.runs, s.count);
      assert events[n] in events;
      MeasurementsAreTold(trace, events[..n]);
      var last := Annotated(events[n], s.runs, s.count + n + 1);
      assert trace + (front + [last]) == (trace + front) + [last];
      StoryExtends(trace + front, last);
    }
  }

  /** The durable side: acknowledged events only; after `budget` appends the next one fails. */
  class Journal {
    var trace: seq<Event>
    var budget: nat

    constructor (budget: nat)
      ensures trace == [] && this.budget == budget
    {
      trace, this.budget := [], budget;
    }

    method AppendBatch(events: seq<Event>) returns (ok: bool)
      modifies this
      ensures ok == (old(budget) > 0)
      ensures trace == if ok then old(trace) + events else old(trace)
    {
      ok := budget > 0;
      if ok {
        trace := trace + events;
        budget := budget - 1;
      }
    }
  }

  /** The least active run below `id` that has no active child. */
  predicate IsLeaf(runs: Runs, id: RunId, child: RunId) {
    child in runs && child != id && runs[child].root == id && !HasChild(runs, child)
  }

  predicate IsFirstLeaf(runs: Runs, id: RunId, child: Option<RunId>) {
    match child
    case None => forall r <- runs :: !IsLeaf(runs, id, r)
    case Some(c) => IsLeaf(runs, id, c) && forall r <- runs :: IsLeaf(runs, id, r) ==> c <= r
  }

  method FirstLeaf(runs: Runs, id: RunId) returns (child: Option<RunId>)
    ensures IsFirstLeaf(runs, id, child)
  {
    child := None;
    var rest := runs.Keys;
    while rest != {}
      invariant rest <= runs.Keys
      invariant match child
                case None => forall r <- runs.Keys - rest :: !IsLeaf(runs, id, r)
                case Some(c) => IsLeaf(runs, id, c) && forall r <- runs.Keys - rest :: IsLeaf(runs, id, r) ==> c <= r
      decreases |rest|
    {
      var r :| r in rest;
      if IsLeaf(runs, id, r) && (child.None? || r < child.value) {
        child := Some(r);
      }
      rest := rest - {r};
    }
  }

  /** While anything is active besides the session, the session has a leaf. */
  lemma SessionHasALeaf(s: Told, id: RunId) returns (leaf: RunId)
    requires IsTree(s) && id in s.runs && s.runs[id].parent.None? && s.runs.Keys != {id}
    ensures IsLeaf(s.runs, id, leaf)
  {
    var others := s.runs.Keys - {id};
    leaf := LatestRun(s, others);
    assert s.runs[leaf].root == s.session == id;
    forall r <- s.runs ensures s.runs[r].parent != Some(leaf) {
      if r != id {
        assert r in others;
        assert s.runs[r].parent.Some? ==> ParentBefore(s, r);
      }
    }
  }

  /** When the drain finds no leaf only the session is left. */
  lemma DrainedToTheSession(s: Told, id: RunId)
    requires IsTree(s) && id in s.runs && s.runs[id].parent.None? && IsFirstLeaf(s.runs, id, None)
    ensures s.runs.Keys == {id} && !HasChild(s.runs, id)
  {
    if s.runs.Keys != {id} {
      var leaf := SessionHasALeaf(s, id);
      assert false;
    }
    assert forall r <- s.runs :: r == id;
  }

  class OutputCoordinator {
    const journal: Journal
    var sequence: nat
    var failed: bool
    var runs: Runs

    /** The journal tells exactly the active runs; numbers go on where it stopped, or are used up. */
    ghost predicate Valid()
      reads this, journal
    {
      && sequence <= U64_MAX
      && Story(journal.trace).Some?
      && runs == Story(journal.trace).value.runs
      && (failed || sequence == U64_MAX || sequence == Story(journal.trace).value.count)
    }

    constructor (journal: Journal)
      requires journal.trace == []
      ensures Valid() && this.journal == journal && !failed && runs == map[]
    {
      this.journal := journal;
      sequence, failed, runs := 0, false, map[];
    }

    /** All of a batch or nothing; a failed append ends publication for good. */
    method PublishBatch(batch: seq<Event>) returns (ok: bool)
      requires sequence <= U64_MAX
      modifies this`sequence, this`failed, journal
      ensures ok ==> !failed && !old(failed) && old(sequence) + |batch| <= U64_MAX
                     && sequence == old(sequence) + |batch|
                     && journal.trace == old(journal.trace) + Numbered(batch, runs, old(sequence))
      ensures !ok ==> journal.trace == old(journal.trace) && (failed || sequence == U64_MAX)
      ensures old(failed) ==> !ok && failed && sequence == old(sequence)
      ensures sequence <= U64_MAX
    {
      if failed {
        return false;
      }
      var events := [];
      var i := 0;
      while i < |batch|
        invariant i <= |batch| && sequence == old(sequence) + i <= U64_MAX && !failed
        invariant events == Numbered(batch[..i], runs, old(sequence))
        invariant journal.trace == old(journal.trace)
      {
        if sequence == U64_MAX {
          return false;
        }
        sequence := sequence + 1;
        assert batch[..i + 1][..i] == batch[..i];
        events := events + [Annotated(batch[i], runs, sequence)];
        i := i + 1;
      }
      assert batch[..i] == batch;
      ok := journal.AppendBatch(events);
      if !ok {
        failed := true;
      }
    }

    /** Measurements leave the active runs as they are. */
    method Publish(batch: seq<Event>) returns (ok: bool)
      requires Valid() && forall e <- batch :: e.body.Measured?
      modifies this`sequence, this`failed, journal
      ensures Valid()
      ensures journal.trace == old(journal.trace) + if ok then Numbered(batch, runs, old(sequence)) else []
      ensures old(failed) ==> !ok && failed
    {
      ghost var s := Story(journal.trace).value;
      ok := PublishBatch(batch);
      if ok {
        if batch == [] {
          assert old(journal.trace) + [] == old(journal.trace);
        } else {
          MeasurementsAreTold(old(journal.trace), batch);
        }
      }
    }

    method StartSession(id: RunId) returns (ok: bool)
      requires Valid()
      modifies this, journal
      ensures Valid()
      ensures ok ==> old(runs) == map[] && runs == map[id := Run(id, None, Session)]
                     && journal.trace == old(journal.trace) + [Event(RunStarted, id, Some(1), None, id, Session)]
      ensures !ok ==> runs == old(runs) && journal.trace == old(journal.trace)
      ensures old(failed) ==> !ok && failed
    {
      if runs != map[] {
        return false;
      }
      sequence := 0;
      ok := BeginRun(id, None, Session);
    }

    method StartRun(id: RunId, parent: RunId, kind: RunKind) returns (ok: bool)
      requires Valid()
      modifies this, journal
      ensures Valid()
      ensures ok ==> parent in old(runs) && id !in old(runs)
                     && runs == old(runs)[id := Run(old(runs)[parent].root, Some(parent), kind)]
                     && journal.trace == old(journal.trace)
                        + [Event(RunStarted, id, Some(old(sequence) + 1), Some(parent), old(runs)[parent].root, kind)]
      ensures !ok ==> runs == old(runs) && journal.trace == old(journal.trace)
      ensures old(failed) ==> !ok && failed
    {
      if parent !in runs {
        return false;
      }
      ok := BeginRun(id, Some(parent), kind);
    }

    method BeginRun(id: RunId, parent: Option<RunId>, kind: RunKind) returns (ok: bool)
      requires Story(journal.trace).Some? && runs == Story(journal.trace).value.runs && sequence <= U64_MAX
      requires match parent
               case None => runs == map[] && sequence == 0
               case Some(p) => p in runs && Valid()
      modifies this, journal
      ensures Valid()
      ensures var root := match parent case None => id case Some(p) => old(runs)[p].root;
              && (ok ==> id !in old(runs)
                         && runs == old(runs)[id := Run(root, parent, kind)]
                         && journal.trace == old(journal.trace)
                            + [Event(RunStarted, id, Some(old(sequence) + 1), parent, root, kind)])
      ensures !ok ==> runs == old(runs) && journal.trace == old(journal.trace)
      ensures old(failed) ==> !ok && failed
    {
      if id in runs {
        return false;
      }
      var root := match parent case None => id case Some(p) => runs[p].root;
      var event := Event(RunStarted, id, None, parent, root, kind);
      var number := sequence + 1;
      assert Numbered([event], runs, sequence) == [event.(sequence := Some(number))];
      ok := PublishBatch([event]);
      if ok {
        StoryExtends(old(journal.trace), event.(sequence := Some(number)));
        runs := runs[id := Run(root, parent, kind)];
      }
    }

    method FinishRun(id: RunId, error: bool) returns (ok: bool)
      requires Valid()
      modifies this, journal
      ensures Valid()
      ensures ok ==> id in old(runs) && !HasChild(old(runs), id) && runs == old(runs) - {id}
                     && journal.trace == old(journal.trace) + [Finished(id, old(runs)[id], old(sequence) + 1, error)]
                     && sequence == old(sequence) + 1
      ensures !ok ==> runs == old(runs) && journal.trace == old(journal.trace)
      ensures !ok ==> failed || sequence == U64_MAX || id !in old(runs) || HasChild(old(runs), id)
      ensures old(failed) ==> !ok && failed
    {
      if HasChild(runs, id) {
        return false;
      }
      if id !in runs {
        return false;
      }
      var event := Event(RunFinished(error), id, None, None, id, Session);
      ghost var finished := Finished(id, runs[id], sequence + 1, error);
      assert Numbered([event], runs, sequence) == [finished];
      ok := PublishBatch([event]);
      if ok {
        StoryExtends(old(journal.trace), finished);
        runs := runs - {id};
      }
    }

    /** What draining keeps: fewer runs, and nothing but their ends added to the journal. */
    twostate predicate Drained(error: bool)
      reads this, journal
    {
      && runs.Keys <= old(runs).Keys && (forall r <- runs :: runs[r] == old(runs)[r])
      && OnlyFinishes(old(journal.trace), journal.trace, error, old(runs).Keys)
    }

    /** Finish the least leaf below `id` until there is none. */
    method Drain(id: RunId, error: bool) returns (ok: bool)
      requires Valid()
      modifies this, journal
      ensures Valid() && Drained(error)
      ensures ok ==> IsFirstLeaf(runs, id, None)
      ensures !ok ==> failed || sequence == U64_MAX
      ensures id in old(runs) ==> id in runs
      ensures old(failed) ==> failed
    {
      ok := true;
      var child := FirstLeaf(runs, id);
      while child.Some?
        invariant Valid() && Drained(error) && IsFirstLeaf(runs, id, child)
        invariant id in old(runs) ==> id in runs
        invariant old(failed) ==> failed
        decreases |runs|
      {
        ghost var before := runs;
        ok := FinishRun(child.value, error);
        if !ok {
          return;
        }
        SmallerWithout(before, child.value);
        child := FirstLeaf(runs, id);
      }
      ok := true;
    }

    /**
    With an error every run of the session is finished first, leaves before their parents. Ending the session so
    fails only if a write fails or the numbers are used up; when it succeeds no run is active.
    */
    method FinishSession(id: RunId, error: bool) returns (ok: bool)
      requires Valid()
      modifies this, journal
      ensures Valid() && Drained(error)
      ensures ok ==> id in old(runs) && id !in runs && EndsWith(journal.trace, id)
      ensures id in old(runs) && old(runs)[id].parent.None? ==>
                && (ok ==> runs == map[])
                && (error && !ok ==> failed || sequence == U64_MAX)
      ensures old(failed) ==> !ok && failed
    {
      if error {
        ok := Drain(id, error);
        if !ok {
          return;
        }
        StoriesAreTrees(journal.trace);
        if id in runs && runs[id].parent.None? {
          DrainedToTheSession(Story(journal.trace).value, id);
        }
      }
      ghost var before := Story(journal.trace).value;
      StoriesAreTrees(journal.trace);
      ok := FinishRun(id, error);
      if ok && before.runs[id].parent.None? {
        FinishedRootIsAlone(before, id);
      }
    }
  }

  predicate EndsWith(trace: seq<Event>, id: RunId) {
    trace != [] && trace[|trace| - 1].body.RunFinished? && trace[|trace| - 1].run == id
  }

  predicate OnlyFinishes(before: seq<Event>, after: seq<Event>, error: bool, ids: set<RunId>) {
    && before <= after
    && forall k :: |before| <= k < |after| ==> after[k].body == RunFinished(error) && after[k].run in ids
  }

  /** A root without an active child is the only run. */
  lemma FinishedRootIsAlone(s: Told, id: RunId)
    requires IsTree(s) && id in s.runs && s.runs[id].parent.None? && !HasChild(s.runs, id)
    ensures s.runs - {id} == map[]
  {
    if s.runs.Keys - {id} != {} {
      EveryNonRootHasARoot(s, s.runs.Keys - {id}, id);
      assert false;
    }
    assert (s.runs - {id}).Keys == {};
  }

  function Finished(id: RunId, run: Run, number: nat, error: bool): Event {
    Event(RunFinished(error), id, Some(number), run.parent, run.root, run.kind)
  }

  lemma SmallerWithout(runs: Runs, id: RunId)
    requires id in runs
    ensures |runs - {id}| < |runs|
  {
    assert (runs - {id}).Keys == runs.Keys - {id};
    assert |runs.Keys - {id}| < |runs.Keys|;
    assert |(runs - {id}).Keys| == |runs - {id}| && |runs.Keys| == |runs|;
  }
}
