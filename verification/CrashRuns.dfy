/**
Whole runs of the recovery set: starts, saves, interrupted starts and saves, process kills and power
losses, in any order. The result is a refinement: whatever happened, a later start either refuses or
hands back accounting and plan of states that were attempted since the last acknowledged save.
*/
module CrashRuns {
  import opened Values
  import opened SchedulerState
  import opened AccountingLog
  import opened Recovery

  // ---------------------------------------------------------------- Runs

  datatype Live = Live(memory: Memory, store: Store)

  /** `attempted` is history: the states saved, or tried to save, since the last acknowledged save. */
  datatype World = World(disk: Disk, live: Option<Live>, attempted: set<Store>)

  datatype Event =
    | Start(identity: string, next: Store, n: nat, k: nat)
    | Save(store: Store, n: nat, k: nat)
    | Kill
    | LosePower(outcome: Disk)

  const INITIAL := World(BLANK, None, {EMPTY_STORE})

  function Core(s: Store): Store { s.(checkpoint := None) }

  function SaveStep(c: Codec, w: World, live: Live, store: Store, n: nat, k: nat): World {
    match Persist(c, live.memory, w.disk, store)
    case Rejected => w.(live := Some(Live(Poison(live.memory), store)))
    case Planned(plan, memory, saved) =>
      if n < |plan| then
        World(Interrupted(w.disk, plan, n, k), Some(Live(Poison(live.memory), store)), w.attempted + {Core(store)})
      else
        World(PerformAll(w.disk, plan), Some(Live(memory, saved)), {Core(store)})
  }

  /** Starting writes a snapshot unless the reconciled state is exactly the snapshot on disk. */
  predicate StartSaves(c: Codec, opening: Opening, next: Store)
    requires opening.Accepted?
  {
    next != opening.store || opening.recovered || opening.memory.snapshotDigest != Some(c.digest(c.store(next)))
  }

  function StartFrom(c: Codec, w: World, opening: Opening, next: Store, n: nat, k: nat): World {
    match opening
    case Refused => w
    case Accepted(plan, memory, store, _) =>
      if n < |plan| then w.(disk := Interrupted(w.disk, plan, n, k))
      else
        var running := World(PerformAll(w.disk, plan), Some(Live(memory, store)), w.attempted);
        if !StartSaves(c, opening, next) then running
        else
          var saved := SaveStep(c, running, Live(memory, store), next, n - |plan|, k);
          if saved.live.value.memory.poisoned then saved.(live := None) else saved
  }

  function StartStep(c: Codec, w: World, identity: string, next: Store, n: nat, k: nat): World {
    StartFrom(c, w, Open(c, w.disk, identity), next, n, k)
  }

  function Step(c: Codec, w: World, e: Event): World {
    match e
    case Start(identity, next, n, k) => StartStep(c, w, identity, next, n, k)
    case Save(store, n, k) => if w.live.Some? then SaveStep(c, w, w.live.value, store, n, k) else w
    case Kill => w.(live := None)
    case LosePower(outcome) => w.(disk := outcome, live := None)
  }

  /** The scheduler has its own provider, never removes another, and leaves the checkpoint alone. */
  predicate Grows(before: Store, after: Store) {
    && after.providers.Keys != {}
    && before.providers.Keys <= after.providers.Keys
    && after.schema == SCHEMA
    && after.checkpoint == before.checkpoint
  }

  predicate Enabled(c: Codec, w: World, e: Event) {
    match e
    case Start(identity, next, _, _) =>
      && w.live.None?
      && ValidHeader(Header(SCHEMA, identity))
      && (var opening := Open(c, w.disk, identity); opening.Accepted? ==> Grows(opening.store, next))
    case Save(store, _, _) => w.live.Some? && Grows(w.live.value.store, store)
    case Kill => true
    case LosePower(outcome) => PowerLoss(w.disk, outcome)
  }

  ghost predicate Reaches(c: Codec, w: World, events: seq<Event>, w': World)
    decreases |events|
  {
    if events == [] then w' == w
    else Enabled(c, w, events[0]) && Reaches(c, Step(c, w, events[0]), events[1..], w')
  }

  // ---------------------------------------------------------------- The shape of the disk

  function MarkerAt(c: Codec, h: Header, states: seq<Store>, k: nat): Bytes
    requires k <= |states|
  {
    c.checkpoint(CheckpointFor(c, h, c.header(h), states[..k]))
  }

  predicate MarkerOk(c: Codec, h: Header, states: seq<Store>, content: Content) {
    content.Some? ==>
      var cp := c.readCheckpoint(content.value);
      cp.Some? && cp.value.sequence <= |states| && content.value == MarkerAt(c, h, states, cp.value.sequence)
  }

  /** Every record after the one a snapshot cites is still only an attempt. */
  predicate LaterAttempted(states: seq<Store>, j: nat, attempted: set<Store>) {
    forall i :: j <= i < |states| ==> states[i] in attempted
  }

  predicate SnapshotOk(c: Codec, h: Header, states: seq<Store>, attempted: set<Store>, content: Content) {
    match content
    case None => EMPTY_STORE in attempted && LaterAttempted(states, 0, attempted)
    case Some(bytes) =>
      && var s := c.readStore(bytes);
      && s.Some?
      && bytes == c.store(s.value)
      && s.value.schema == SCHEMA
      && ValidStore(s.value)
      && Core(s.value) in attempted
      && s.value.checkpoint.Some?
      && var j := s.value.checkpoint.value.sequence;
      && 1 <= j <= |states|
      && s.value.checkpoint.value == CheckpointFor(c, h, c.header(h), states[..j])
      && StoreAccounting(states[j - 1]) == StoreAccounting(s.value)
      && LaterAttempted(states, j, attempted)
  }

  predicate KeysGrow(states: seq<Store>) {
    forall i, j :: 0 <= i <= j < |states| ==> states[i].providers.Keys <= states[j].providers.Keys
  }

  predicate LedgerOk(c: Codec, d: Disk, h: Header, states: seq<Store>, tail: Bytes) {
    && ValidHeader(h)
    && (forall s <- states :: WritableState(s))
    && KeysGrow(states)
    && NEWLINE !in tail
    && d.ledger.now == Some(LedgerBytes(c, h, states) + tail)
    && |LedgerBytes(c, h, [])| <= d.synced <= |d.ledger.now.value|
    && d.ledger.older <= {None}
  }

  /** The visible ledger is a written history, perhaps cut in its last line; every other content refers to it. */
  predicate Shape(c: Codec, d: Disk, h: Header, states: seq<Store>, tail: Bytes, attempted: set<Store>) {
    && LedgerOk(c, d, h, states, tail)
    && MarkerOk(c, h, states, d.marker.now)
    && (forall content <- d.marker.older :: MarkerOk(c, h, states, content))
    && SnapshotOk(c, h, states, attempted, d.snapshot.now)
    && (forall content <- d.snapshot.older :: SnapshotOk(c, h, states, attempted, content))
  }

  predicate Blank(d: Disk) {
    d.ledger == d.marker == d.backup == d.snapshot == ABSENT && d.synced == 0
  }

  /** Nothing is pending and no start is ever accepted again. */
  ghost predicate Dead(c: Codec, d: Disk) {
    Settled(d) && forall identity :: Open(c, d, identity).Refused?
  }

  function Committed(states: seq<Store>): Store {
    if states == [] then EMPTY_STORE else states[|states| - 1]
  }

  /** A healthy memory agrees with the disk it was read from. */
  predicate LiveOk(c: Codec, d: Disk, h: Header, states: seq<Store>, tail: Bytes, live: Live) {
    var m := live.memory;
    !m.poisoned ==>
      && tail == []
      && m.checkpoint == CheckpointFor(c, h, c.header(h), states)
      && m.committed == Committed(states)
      && m.snapshotDigest == Digested(c, d.snapshot.now)
      && d.ledger.now.Some? && m.ledgerLen == |d.ledger.now.value|
      && d.marker.now == Some(MarkerAt(c, h, states, |states|))
      && m.committed.providers.Keys <= live.store.providers.Keys
  }

  ghost predicate Written(c: Codec, w: World, h: Header, states: seq<Store>, tail: Bytes) {
    && Shape(c, w.disk, h, states, tail, w.attempted)
    && (w.live.Some? ==> LiveOk(c, w.disk, h, states, tail, w.live.value))
  }

  ghost predicate Good(c: Codec, w: World) {
    || (Blank(w.disk) && EMPTY_STORE in w.attempted && w.live.None?)
    || (exists h, states, tail :: Written(c, w, h, states, tail))
    || (Dead(c, w.disk) && w.live.None?)
  }

  // ---------------------------------------------------------------- One action at a time

  lemma AttemptMore(c: Codec, d: Disk, h: Header, states: seq<Store>, tail: Bytes, few: set<Store>, many: set<Store>)
    requires Shape(c, d, h, states, tail, few) && few <= many
    ensures Shape(c, d, h, states, tail, many)
  {
  }

  lemma SyncingKeepsShape(c: Codec, d: Disk, h: Header, states: seq<Store>, tail: Bytes, attempted: set<Store>)
    requires Shape(c, d, h, states, tail, attempted)
    ensures Shape(c, Perform(d, SyncDirectory), h, states, tail, attempted)
    ensures Shape(c, Perform(d, SyncLedger), h, states, tail, attempted)
  {
  }

  lemma RenameKeepsShape(c: Codec, d: Disk, h: Header, states: seq<Store>, tail: Bytes, attempted: set<Store>, file: File, bytes: Bytes)
    requires Shape(c, d, h, states, tail, attempted)
    requires file != Ledger
    requires file == Marker ==> MarkerOk(c, h, states, Some(bytes))
    requires file == Snapshot ==> SnapshotOk(c, h, states, attempted, Some(bytes))
    ensures Shape(c, Perform(d, Rename(file, bytes)), h, states, tail, attempted)
  {
  }

  /** Replacing a file atomically keeps the shape wherever it stops. */
  lemma AtomicWriteKeepsShape(c: Codec, d: Disk, h: Header, states: seq<Store>, tail: Bytes, attempted: set<Store>,
                              file: File, bytes: Bytes, n: nat, k: nat)
    requires Shape(c, d, h, states, tail, attempted)
    requires file != Ledger
    requires file == Marker ==> MarkerOk(c, h, states, Some(bytes))
    requires file == Snapshot ==> SnapshotOk(c, h, states, attempted, Some(bytes))
    ensures var plan := [Rename(file, bytes), SyncDirectory];
            && Shape(c, Interrupted(d, plan, n, k), h, states, tail, attempted)
            && Shape(c, PerformAll(d, plan), h, states, tail, attempted)
  {
    InterruptedRename(d, file, bytes, n, k);
    RenameKeepsShape(c, d, h, states, tail, attempted, file, bytes);
    SyncingKeepsShape(c, Perform(d, Rename(file, bytes)), h, states, tail, attempted);
  }

  lemma MarkerAtIsOk(c: Codec, h: Header, states: seq<Store>, k: nat)
    requires c.Parses() && k <= |states|
    ensures MarkerOk(c, h, states, Some(MarkerAt(c, h, states, k)))
  {
  }

  lemma LongerHistoryMarker(c: Codec, h: Header, states: seq<Store>, next: Store, content: Content)
    requires MarkerOk(c, h, states, content)
    ensures MarkerOk(c, h, states + [next], content)
  {
    if content.Some? {
      var k := c.readCheckpoint(content.value).value.sequence;
      assert (states + [next])[..k] == states[..k];
    }
  }

  lemma LongerHistorySnapshot(c: Codec, h: Header, states: seq<Store>, next: Store, attempted: set<Store>, content: Content)
    requires SnapshotOk(c, h, states, attempted, content) && next in attempted
    ensures SnapshotOk(c, h, states + [next], attempted, content)
  {
    if content.Some? {
      var s := c.readStore(content.value).value;
      var j := s.checkpoint.value.sequence;
      assert (states + [next])[..j] == states[..j];
    }
  }

  lemma KeysGrowAppended(states: seq<Store>, next: Store)
    requires KeysGrow(states) && Committed(states).providers.Keys <= next.providers.Keys
    ensures KeysGrow(states + [next])
  {
    var longer := states + [next];
    forall i, j | 0 <= i <= j < |longer|
      ensures longer[i].providers.Keys <= longer[j].providers.Keys
    {
      if i < |states| {
        assert states[i].providers.Keys <= states[|states| - 1].providers.Keys;
      }
    }
  }

  lemma AppendTornKeepsShape(c: Codec, d: Disk, h: Header, states: seq<Store>, attempted: set<Store>, next: Store, k: nat)
    requires c.Parses() && Shape(c, d, h, states, [], attempted)
    requires k < |RecordLine(c, c.header(h), states, next)|
    ensures var line := RecordLine(c, c.header(h), states, next);
            Shape(c, Perform(d, Append(line[..k])), h, states, line[..k], attempted)
  {
    var b, line := LedgerBytes(c, h, states), RecordLine(c, c.header(h), states, next);
    assert b + [] == b;
    if k > 0 {
      TornLineRefused(c, h, states, next, k);
    }
  }

  lemma AppendedLedgerOk(c: Codec, d: Disk, h: Header, states: seq<Store>, next: Store)
    requires LedgerOk(c, d, h, states, [])
    requires WritableState(next) && Committed(states).providers.Keys <= next.providers.Keys
    ensures LedgerOk(c, Perform(d, Append(RecordLine(c, c.header(h), states, next))), h, states + [next], [])
  {
    var b, line := LedgerBytes(c, h, states), RecordLine(c, c.header(h), states, next);
    LedgerExtends(c, h, states, next);
    KeysGrowAppended(states, next);
    assert b + [] == b;
    assert LedgerBytes(c, h, states + [next]) + [] == b + line;
  }

  lemma AppendWholeKeepsShape(c: Codec, d: Disk, h: Header, states: seq<Store>, attempted: set<Store>, next: Store)
    requires Shape(c, d, h, states, [], attempted)
    requires next in attempted && WritableState(next) && Committed(states).providers.Keys <= next.providers.Keys
    ensures Shape(c, Perform(d, Append(RecordLine(c, c.header(h), states, next))), h, states + [next], [], attempted)
  {
    AppendedLedgerOk(c, d, h, states, next);
    LongerHistoryMarker(c, h, states, next, d.marker.now);
    forall content <- d.marker.older ensures MarkerOk(c, h, states + [next], content) {
      LongerHistoryMarker(c, h, states, next, content);
    }
    LongerHistorySnapshot(c, h, states, next, attempted, d.snapshot.now);
    forall content <- d.snapshot.older ensures SnapshotOk(c, h, states + [next], attempted, content) {
      LongerHistorySnapshot(c, h, states, next, attempted, content);
    }
  }
}
