/**
The object that writes the rotating journal. Every file action may fail; an operation stops at the first
failure, so what it leaves behind is its plan cut short, and the object refuses to write again.
*/
module Journal {
  import opened Values
  import opened CsvFraming
  import opened RotatingJournal

  /** A directory in which the next `budget` actions succeed; a failing write still writes `partial` characters. */
  class Directory {
    const c: Config
    var disk: Disk
    var budget: nat
    const partial: nat

    constructor (c: Config, disk: Disk, budget: nat, partial: nat)
      ensures this.c == c && this.disk == disk && this.budget == budget && this.partial == partial
    {
      this.c, this.disk, this.budget, this.partial := c, disk, budget, partial;
    }

    /** What a carried-out or interrupted plan leaves. */
    twostate predicate Carried(plan: seq<Action>, ok: bool)
      reads this
    {
      && ok == (old(budget) >= |plan|)
      && disk == Interrupted(c, old(disk), plan, old(budget), partial)
      && budget == (if ok then old(budget) - |plan| else 0)
    }

    method Act(a: Action) returns (ok: bool)
      modifies this
      ensures Carried([a], ok)
    {
      assert [a][1..] == [];
      ok := budget > 0;
      if ok {
        disk := Perform(c, disk, a);
        budget := budget - 1;
      } else if a.Write? && partial <= |a.text| {
        disk := Perform(c, disk, Write(a.name, a.text[..partial]));
      }
    }

    /** One action after another, up to the first that fails. */
    method ActAll(plan: seq<Action>) returns (ok: bool)
      modifies this
      ensures Carried(plan, ok)
      decreases |plan|
    {
      ok := true;
      if plan != [] {
        CarriedOn(c, disk, [plan[0]], plan[1..], budget, partial);
        assert [plan[0]] + plan[1..] == plan;
        ok := Act(plan[0]);
        if ok {
          ok := ActAll(plan[1..]);
        }
      }
    }
  }

  /** Doing one plan and then another, each cut short when the budget ends, is doing their concatenation. */
  lemma {:induction false} CarriedOn(c: Config, d: Disk, p: seq<Action>, q: seq<Action>, n: nat, k: nat)
    ensures Interrupted(c, d, p + q, n, k) ==
            if n >= |p| then Interrupted(c, Interrupted(c, d, p, n, k), q, n - |p|, k) else Interrupted(c, d, p, n, k)
    decreases |p|
  {
    if p == [] {
      assert p + q == q;
    } else if n > 0 {
      assert (p + q)[1..] == p[1..] + q;
      CarriedOn(c, Perform(c, d, p[0]), p[1..], q, n - 1, k);
    }
  }

  /** Enough budget carries a plan out. */
  lemma {:induction false} CarriedOut(c: Config, d: Disk, p: seq<Action>, n: nat, k: nat)
    requires n >= |p|
    ensures Interrupted(c, d, p, n, k) == PerformAll(c, d, p)
    decreases |p|
  {
    if p != [] {
      CarriedOut(c, Perform(c, d, p[0]), p[1..], n - 1, k);
    }
  }

  class RotatingWriter {
    const files: Directory
    var active: Name
    var bytes: nat
    var hasEvents: bool
    var date: int
    var poisoned: bool

    function View(): RotatingJournal.Journal
      reads this
    {
      RotatingJournal.Journal(active, bytes, hasEvents, date)
    }

    /** Not yet open, so not yet to be written. */
    constructor (files: Directory)
      ensures this.files == files && poisoned
    {
      this.files := files;
      active, bytes, hasEvents, date, poisoned := Name(0, 0), 0, false, 0, true;
    }

    /** The marked segment's torn tail is cut; a missing or foreign segment is refused, never created. */
    method Recover() returns (ok: bool)
      modifies files
      ensures match RecoverPlan(files.c, old(files.disk))
              case None => !ok && files.disk == old(files.disk)
              case Some(plan) => files.Carried(plan, ok)
    {
      var marker := files.disk.marker;
      if marker.None? {
        return true;
      }
      var name := marker.value;
      if name !in files.disk.segments || !HasHeader(files.disk.segments[name].text, files.c.header) {
        return false;
      }
      var text := files.disk.segments[name].text;
      var r := RecoverTrailingRecord(text, files.c.header, files.c.cells);
      match r {
        case Corrupt => ok := false;
        case Kept(kept) =>
          if kept == text {
            ok := files.Act(SyncFile(name));
          } else if |kept| < |text| {
            ok := files.ActAll([Cut(name, kept), SyncFile(name), SyncFile(name)]);
          } else {
            ok := files.ActAll([Write(name, kept[|text|..]), SyncFile(name), SyncFile(name)]);
          }
      }
    }

    /** The first name of this millisecond that is not taken. */
    method FreshName(now: Time) returns (name: Name)
      ensures IsFreshName(files.disk.segments, now, name)
    {
      name := Name(now, 0);
      var taken := files.disk.segments.Keys;
      ghost var rest := taken;
      while name in taken
        invariant name.stamp == now && forall k :: 0 <= k < name.suffix ==> Name(now, k) in taken
        invariant forall k :: k >= name.suffix && Name(now, k) in taken ==> Name(now, k) in rest
        decreases rest
      {
        rest := rest - {name};
        name := Name(now, name.suffix + 1);
      }
    }

    /** Staged, published, marked; each step durable before the next relies on it. */
    method CreateSegment(now: Time) returns (ok: bool, name: Name)
      modifies files
      ensures IsFreshName(old(files.disk).segments, now, name)
      ensures files.Carried(CreatePlan(name), ok)
    {
      name := FreshName(now);
      ok := files.ActAll(CreatePlan(name));
    }

    method OpenAt(now: Time) returns (ok: bool, ghost name: Name)
      modifies this, files
      ensures RecoverPlan(files.c, old(files.disk)).None? ==> !ok && files.disk == old(files.disk)
      ensures RecoverPlan(files.c, old(files.disk)).Some? ==>
                files.Carried(RecoverPlan(files.c, old(files.disk)).value + CreatePlan(name), ok)
      ensures poisoned == !ok
      ensures ok ==> View() == Opened(files.c, name, now) && IsFreshName(Recovering(files.c, old(files.disk)).segments, now, name)
    {
      ghost var d0, budget0 := files.disk, files.budget;
      poisoned := true;
      name := Name(now, 0);
      ok := Recover();
      ghost var recovery := RecoverPlan(files.c, d0);
      if recovery.Some? {
        CarriedOn(files.c, d0, recovery.value, CreatePlan(name), budget0, files.partial);
      }
      if !ok {
        return;
      }
      CarriedOut(files.c, d0, recovery.value, budget0, files.partial);
      var created, next := CreateSegment(now);
      CarriedOn(files.c, d0, recovery.value, CreatePlan(next), budget0, files.partial);
      name := next;
      ok := created;
      if ok {
        active, bytes, hasEvents, date, poisoned := next, |EncodeRow(files.c.header)|, false, Day(now), false;
      }
    }

    /** A batch is written whole into one segment, or the object is never written again. */
    method AppendBatchAt(batch: Batch, now: Time) returns (ok: bool, ghost name: Name)
      modifies this, files
      ensures old(poisoned) ==> !ok && poisoned && files.disk == old(files.disk)
      ensures !old(poisoned) ==> poisoned == !ok
      ensures !old(poisoned) && batch == [] ==> ok && files.disk == old(files.disk) && View() == old(View())
      ensures !old(poisoned) && batch != [] ==>
                var j := old(View());
                var turned := Rotated(files.c, j, batch, now, name);
                && files.Carried(RotatePlan(files.c, j, batch, now, name) + WritePlan(turned, batch), ok)
                && (Rotates(files.c, j, batch, now) && ok ==> IsFreshName(old(files.disk).segments, now, name))
                && (ok ==> View() == Appended(turned, batch))
    {
      name := Name(now, 0);
      if poisoned {
        return false, name;
      }
      if batch == [] {
        return true, name;
      }
      poisoned := true;
      var encoded := EncodeRows(batch);
      ghost var j, d0, budget0 := View(), files.disk, files.budget;
      if Day(now) > date || (hasEvents && files.c.limit.Some? && bytes + |encoded| > files.c.limit.value) {
        ok := files.Act(SyncFile(active));
        if !ok {
          RotationFails(files.c, d0, j, batch, now, name, budget0, files.partial);
          return;
        }
        CarriedOut(files.c, d0, [SyncFile(active)], budget0, files.partial);
        SyncKeepsNames(files.c, d0, active);
        var created, next := CreateSegment(now);
        name := next;
        CarriedOn(files.c, d0, [SyncFile(j.active)], CreatePlan(name), budget0, files.partial);
        CarriedOn(files.c, d0, RotatePlan(files.c, j, batch, now, name),
                  WritePlan(Rotated(files.c, j, batch, now, name), batch), budget0, files.partial);
        ok := created;
        if !ok {
          return;
        }
        active, date := next, Max(date, Day(now));
        bytes, hasEvents := |EncodeRow(files.c.header)|, false;
      }
      assert View() == Rotated(files.c, j, batch, now, name);
      ghost var rotation := RotatePlan(files.c, j, batch, now, name);
      CarriedOn(files.c, d0, rotation, WritePlan(View(), batch), budget0, files.partial);
      assert files.disk == Interrupted(files.c, d0, rotation, budget0, files.partial);
      ok := files.ActAll([Write(active, encoded), SyncFile(active)]);
      if ok {
        bytes, hasEvents, poisoned := bytes + |encoded|, true, false;
      }
    }
  }

  /** The directory as the marked segment's recovery leaves it. */
  function Recovering(c: Config, d: Disk): Disk {
    match RecoverPlan(c, d)
    case None => d
    case Some(plan) => PerformAll(c, d, plan)
  }

  lemma SyncKeepsNames(c: Config, d: Disk, name: Name)
    ensures PerformAll(c, d, [SyncFile(name)]).segments.Keys == d.segments.Keys
  {
    assert PerformAll(c, d, [SyncFile(name)]) == PerformAll(c, Perform(c, d, SyncFile(name)), []);
  }

  /** A rotation whose first step fails. */
  lemma RotationFails(c: Config, d: Disk, j: RotatingJournal.Journal, batch: Batch, now: Time, name: Name, n: nat, k: nat)
    requires Rotates(c, j, batch, now) && n == 0
    ensures var plan := RotatePlan(c, j, batch, now, name) + WritePlan(Rotated(c, j, batch, now, name), batch);
            Interrupted(c, d, plan, n, k) == Interrupted(c, d, [SyncFile(j.active)], n, k)
  {
    CarriedOn(c, d, [SyncFile(j.active)], CreatePlan(name) + WritePlan(Rotated(c, j, batch, now, name), batch), n, k);
    var plan := RotatePlan(c, j, batch, now, name) + WritePlan(Rotated(c, j, batch, now, name), batch);
    assert plan[0] == SyncFile(j.active);
  }
}
