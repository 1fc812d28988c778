/**
The object that owns the recovery set. Every file action may fail; an operation stops at the first
failure, so what it leaves behind is its plan cut short.
*/
module Persistence {
  import opened Values
  import opened SchedulerState
  import opened AccountingLog
  import opened Recovery

  /** A directory in which the next `budget` actions succeed; a failing append still writes `partial` bytes. */
  class FileSystem {
    var disk: Disk
    var budget: nat
    const partial: nat

    constructor (disk: Disk, budget: nat, partial: nat)
      ensures this.disk == disk && this.budget == budget && this.partial == partial
    {
      this.disk, this.budget, this.partial := disk, budget, partial;
    }

    method Act(a: Action) returns (ok: bool)
      modifies this
      ensures ok == (old(budget) > 0)
      ensures ok ==> disk == Perform(old(disk), a) && budget == old(budget) - 1
      ensures !ok ==> budget == 0 && disk == Interrupted(old(disk), [a], 0, partial)
    {
      ok := budget > 0;
      if ok {
        disk := Perform(disk, a);
        budget := budget - 1;
      } else if a.Append? && partial <= |a.line| {
        disk := Perform(disk, Append(a.line[..partial]));
      }
    }

    /** What a carried-out or interrupted plan leaves. */
    twostate predicate Carried(plan: seq<Action>, ok: bool)
      reads this
    {
      && ok == (old(budget) >= |plan|)
      && disk == Interrupted(old(disk), plan, old(budget), partial)
      && budget == (if ok then old(budget) - |plan| else 0)
    }

    /** The content is staged, written and synced under a temporary name before these two steps. */
    method AtomicWrite(file: File, bytes: Bytes) returns (ok: bool)
      modifies this
      ensures Carried([Rename(file, bytes), SyncDirectory], ok)
    {
      InterruptedRename(disk, file, bytes, budget, partial);
      ok := Act(Rename(file, bytes));
      if ok {
        ok := Act(SyncDirectory);
      }
    }

    method AppendSynced(line: Bytes) returns (ok: bool)
      modifies this
      ensures Carried([Append(line), SyncLedger], ok)
    {
      InterruptedAppend(disk, line, budget, partial);
      ok := Act(Append(line));
      if ok {
        ok := Act(SyncLedger);
      }
    }
  }

  /** Doing one plan and, if it succeeded, another is doing their concatenation. */
  lemma CarriedOn(d: Disk, p: seq<Action>, q: seq<Action>, budget: nat, k: nat)
    requires budget >= |p|
    ensures Interrupted(Interrupted(d, p, budget, k), q, budget - |p|, k) == Interrupted(d, p + q, budget, k)
  {
    InterruptedConcat(d, p, q, budget, k);
  }

  class Persistence {
    const c: Codec
    const files: FileSystem
    var checkpoint: Checkpoint
    var committed: Store
    var snapshotDigest: Option<Digest>
    var ledgerLen: nat
    var poisoned: bool

    function View(): Memory
      reads this
    {
      Memory(checkpoint, committed, snapshotDigest, ledgerLen, poisoned)
    }

    constructor (c: Codec, files: FileSystem, m: Memory)
      ensures this.c == c && this.files == files && View() == m
    {
      this.c, this.files := c, files;
      checkpoint, committed, snapshotDigest, ledgerLen, poisoned :=
        m.checkpoint, m.committed, m.snapshotDigest, m.ledgerLen, m.poisoned;
    }

    /** Record, backup, snapshot; any failure leaves the object poisoned. */
    method Persist(store: Store) returns (ok: bool, saved: Store)
      modifies this, files
      ensures match Recovery.Persist(c, old(View()), old(files.disk), store)
              case Rejected => !ok && files.disk == old(files.disk) && View() == Poison(old(View()))
              case Planned(plan, memory, saved') =>
                && files.Carried(plan, ok)
                && (if ok then View() == memory && saved == saved' else poisoned)
    {
      saved := store;
      if poisoned {
        return false, saved;
      }
      poisoned := true;
      if !ValidStore(store) {
        return false, saved;
      }
      if Digested(c, files.disk.snapshot.now) != snapshotDigest || MarkerOf(c, files.disk) != Some(checkpoint)
         || files.disk.ledger.now.None? || |files.disk.ledger.now.value| != ledgerLen {
        return false, saved;
      }
      if StoreAccounting(store) != StoreAccounting(committed) && checkpoint.sequence >= U64_MAX {
        return false, saved;
      }
      ok, saved := Write(store, old(View()));
    }

    /** The writes of a save that may go ahead; `m` is what was remembered before it began. */
    method Write(store: Store, ghost m: Memory) returns (ok: bool, saved: Store)
      requires View() == Poison(m) && MayPersist(c, m, files.disk, store)
      modifies this, files
      ensures var p := Recovery.Persist(c, m, old(files.disk), store);
              && files.Carried(p.plan, ok)
              && (if ok then View() == p.memory && saved == p.store else poisoned)
    {
      var previous := files.disk.snapshot.now;
      saved := store;
      ghost var d0, budget0 := files.disk, files.budget;
      ghost var record := RecordPlan(c, m, store);
      ghost var rest := BackupPlan(d0) + [Rename(Snapshot, c.store(Saved(c, m, store))), SyncDirectory];
      assert record + rest == Recovery.Persist(c, m, d0, store).plan;
      InterruptedConcat(d0, record, rest, budget0, files.partial);
      if StoreAccounting(store) != StoreAccounting(committed) {
        ok := WriteRecord(store);
        if !ok {
          return false, saved;
        }
      }
      assert files.disk == Interrupted(d0, record, budget0, files.partial);
      RecordPlanOutcome(c, m, d0, store);
      saved := store.(checkpoint := Some(checkpoint));
      ok := WriteSnapshot(previous, c.store(saved));
      CarriedOn(d0, record, rest, budget0, files.partial);
      if ok {
        snapshotDigest := Some(c.digest(c.store(saved)));
        poisoned := false;
      }
    }

    /** The ledger line, then the marker; the fields follow once both are durable. */
    method WriteRecord(store: Store) returns (ok: bool)
      requires poisoned
      requires var m := View(); NeedsRecord(m, store)
      modifies this, files
      ensures var m := old(View());
              && files.Carried(RecordPlan(c, m, store), ok)
              && poisoned && snapshotDigest == old(snapshotDigest)
              && (ok ==>
                    && checkpoint == NextCheckpoint(c, m, store)
                    && committed == store.(checkpoint := None)
                    && ledgerLen == old(ledgerLen) + |c.record(NextRecord(c, m, store))| + 1)
    {
      var record := NewRecord(c, checkpoint.sequence + 1, checkpoint.digest, store.(checkpoint := None));
      var line := c.record(record) + [NEWLINE];
      var next := checkpoint.(sequence := record.sequence, digest := record.digest);
      ghost var d0, budget0 := files.disk, files.budget;
      ghost var append, mark := [Append(line), SyncLedger], [Rename(Marker, c.checkpoint(next)), SyncDirectory];
      assert append + mark == RecordPlan(c, View(), store);
      InterruptedConcat(d0, append, mark, budget0, files.partial);
      ok := files.AppendSynced(line);
      if ok {
        ok := files.AtomicWrite(Marker, c.checkpoint(next));
        if ok {
          checkpoint := next;
          ledgerLen := ledgerLen + |line|;
          committed := record.state;
        }
      }
    }

    method WriteSnapshot(previous: Content, bytes: Bytes) returns (ok: bool)
      requires previous == files.disk.snapshot.now
      modifies files
      ensures files.Carried(BackupPlan(old(files.disk)) + [Rename(Snapshot, bytes), SyncDirectory], ok)
    {
      ghost var d0, budget0, snapshot := files.disk, files.budget, [Rename(Snapshot, bytes), SyncDirectory];
      InterruptedConcat(d0, BackupPlan(d0), snapshot, budget0, files.partial);
      ok := true;
      if previous.Some? {
        ok := files.AtomicWrite(Backup, previous.value);
      }
      if ok {
        ok := files.AtomicWrite(Snapshot, bytes);
      }
    }
  }
}
