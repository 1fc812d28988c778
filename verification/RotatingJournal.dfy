/**
A directory of CSV segments with one marked as active: how a segment is published, marked, written, rotated
and recovered, as plans of file actions that can be cut short anywhere and partly undone by a power loss.
*/
module RotatingJournal {
  import opened Values
  import opened CsvFraming

  // ---------------------------------------------------------------- The directory

  /** A time stamp, and a number that tells segments of the same millisecond apart. */
  datatype Name = Name(stamp: Time, suffix: nat)

  type Batch = seq<string>

  /** The text now; the longest text a power loss may bring back; and how much of it is safe from one. */
  datatype Segment = Segment(text: string, longest: string, synced: nat)

  /** The staging file: absent, a file of its own, or another name of a segment. */
  datatype Staging = Unstaged | Staged | Linked(name: Name)

  /** `linked` names are durable; until the directory is synced an older marker or staging file may come back. */
  datatype Disk = Disk(
    segments: map<Name, Segment>,
    linked: set<Name>,
    marker: Option<Name>,
    older: set<Option<Name>>,
    staging: Staging,
    olderStaging: set<Staging>)

  const EMPTY_DIRECTORY := Disk(map[], {}, None, {}, Unstaged, {})

  datatype Config = Config(header: string, cells: nat, limit: Option<nat>)

  ghost predicate ValidConfig(c: Config) { IsRow(c.header, c.cells) && HasNoBreak(c.header) }

  datatype Action =
    | Stage
    | Publish(name: Name)
    | Unstage
    | SyncDirectory
    | SetMarker(name: Name)
    | Write(name: Name, text: string)
    | Cut(name: Name, kept: string)
    | SyncFile(name: Name)

  function Durable(text: string): Segment { Segment(text, text, |text|) }

  function HeaderOnly(c: Config): Segment { Durable(EncodeRow(c.header)) }

  function Written(s: Segment, more: string): Segment {
    Segment(s.text + more, s.text + more, s.synced)
  }

  function Restage(d: Disk, staging: Staging): Disk {
    d.(staging := staging, olderStaging := d.olderStaging + {d.staging})
  }

  /**
  The header is staged and synced before its file gets the segment's name; until it is unstaged, both names are one
  file. A staging file left over is unlinked, not cut.
  */
  function Perform(c: Config, d: Disk, a: Action): Disk {
    match a
    case Stage => Restage(d, Staged)
    case Publish(name) =>
      if name in d.segments then d else Restage(d, Linked(name)).(segments := d.segments[name := HeaderOnly(c)])
    case Unstage => Restage(d, Unstaged)
    case SyncDirectory => d.(linked := d.segments.Keys, older := {}, olderStaging := {})
    case SetMarker(name) => d.(marker := Some(name), older := d.older + {d.marker})
    case Write(name, text) =>
      if name in d.segments then d.(segments := d.segments[name := Written(d.segments[name], text)]) else d
    case Cut(name, kept) =>
      if name in d.segments
      then d.(segments := d.segments[name := Segment(kept, d.segments[name].longest, Min(d.segments[name].synced, |kept|))])
      else d
    case SyncFile(name) =>
      if name in d.segments then d.(segments := d.segments[name := Durable(d.segments[name].text)]) else d
  }

  function PerformAll(c: Config, d: Disk, plan: seq<Action>): Disk
    decreases |plan|
  {
    if plan == [] then d else PerformAll(c, Perform(c, d, plan[0]), plan[1..])
  }

  /** After `n` actions; an interrupted write has written `k` characters. */
  function Interrupted(c: Config, d: Disk, plan: seq<Action>, n: nat, k: nat): Disk
    decreases |plan|
  {
    if plan == [] then d
    else if n > 0 then Interrupted(c, Perform(c, d, plan[0]), plan[1..], n - 1, k)
    else if plan[0].Write? && k <= |plan[0].text| then Perform(c, d, Write(plan[0].name, plan[0].text[..k]))
    else d
  }

  predicate Fell(before: Segment, after: Segment) {
    after.text <= before.longest && before.synced <= |after.text| && after == Durable(after.text)
  }

  ghost predicate PowerLoss(d: Disk, d': Disk) {
    && d.linked <= d'.segments.Keys <= d.segments.Keys
    && (forall n <- d'.segments :: Fell(d.segments[n], d'.segments[n]))
    && d'.linked == d'.segments.Keys
    && d'.marker in d.older + {d.marker} && d'.older == {}
    && d'.staging in d.olderStaging + {d.staging} && d'.olderStaging == {}
  }

  // ---------------------------------------------------------------- The operations, as plans

  /** Names already taken are retried with the next number. */
  predicate IsFreshName(segments: map<Name, Segment>, now: Time, name: Name) {
    && name.stamp == now && name !in segments
    && forall k :: 0 <= k < name.suffix ==> Name(now, k) in segments
  }

  function CreatePlan(name: Name): seq<Action> {
    [Stage, Publish(name), Unstage, SyncDirectory, SetMarker(name), SyncDirectory]
  }

  /** Recovery looks at the marked segment alone; nothing is created for a missing one. */
  function RecoverPlan(c: Config, d: Disk): Option<seq<Action>> {
    match d.marker
    case None => Some([])
    case Some(name) =>
      if name !in d.segments || !HasHeader(d.segments[name].text, c.header) then None
      else
        var text := d.segments[name].text;
        match Recovered(text, c.header, c.cells)
        case Corrupt => None
        case Kept(kept) =>
          if kept == text then Some([SyncFile(name)])
          else if |kept| < |text| then Some([Cut(name, kept), SyncFile(name), SyncFile(name)])
          else Some([Write(name, kept[|text|..]), SyncFile(name), SyncFile(name)])
  }

  /** What the open journal remembers. */
  datatype Journal = Journal(active: Name, bytes: nat, hasEvents: bool, date: int)

  function Opened(c: Config, name: Name, now: Time): Journal {
    Journal(name, |EncodeRow(c.header)|, false, Day(now))
  }

  predicate Rotates(c: Config, j: Journal, batch: Batch, now: Time) {
    || Day(now) > j.date
    || (j.hasEvents && c.limit.Some? && j.bytes + |EncodeRows(batch)| > c.limit.value)
  }

  function RotatePlan(c: Config, j: Journal, batch: Batch, now: Time, name: Name): seq<Action> {
    if Rotates(c, j, batch, now) then [SyncFile(j.active)] + CreatePlan(name) else []
  }

  /** The journal as the batch finds it. */
  function Rotated(c: Config, j: Journal, batch: Batch, now: Time, name: Name): Journal {
    if Rotates(c, j, batch, now) then Journal(name, |EncodeRow(c.header)|, false, Max(j.date, Day(now))) else j
  }

  function WritePlan(j: Journal, batch: Batch): seq<Action> {
    [Write(j.active, EncodeRows(batch)), SyncFile(j.active)]
  }

  function Appended(j: Journal, batch: Batch): Journal {
    j.(bytes := j.bytes + |EncodeRows(batch)|, hasEvents := true)
  }

  // ---------------------------------------------------------------- Runs

  /** One segment's part of the history: its batches with their days, and one that may have failed halfway. */
  datatype Chapter = Chapter(session: nat, name: Name, batches: seq<Batch>, days: seq<int>, torn: Option<Batch>)

  /** `chapters`, `acknowledged` and `session` are history. */
  datatype World = World(
    disk: Disk,
    live: Option<Journal>,
    chapters: seq<Chapter>,
    acknowledged: seq<Batch>,
    session: nat,
    clock: Time)

  datatype Event =
    | Open(now: Time, name: Name, n: nat, k: nat)
    | Append(batch: Batch, now: Time, name: Name, n: nat, k: nat)
    | Kill
    | LosePower(outcome: Disk)

  function Initial(t0: Time): World { World(EMPTY_DIRECTORY, None, [], [], 0, t0) }

  function OpenStep(c: Config, w: World, now: Time, name: Name, n: nat, k: nat): World {
    match RecoverPlan(c, w.disk)
    case None => w
    case Some(recovery) =>
      var plan := recovery + CreatePlan(name);
      if n < |plan| then w.(disk := Interrupted(c, w.disk, plan, n, k), clock := now)
      else
        World(PerformAll(c, w.disk, plan), Some(Opened(c, name, now)),
              w.chapters + [Chapter(w.session + 1, name, [], [], None)], w.acknowledged, w.session + 1, now)
  }

  function LastChapter(w: World): Chapter
    requires w.chapters != []
  {
    w.chapters[|w.chapters| - 1]
  }

  function WithLast(chapters: seq<Chapter>, last: Chapter): seq<Chapter>
    requires chapters != []
  {
    chapters[..|chapters| - 1] + [last]
  }

  /** The world once the batch's segment is active, rotated if need be. */
  function Turned(c: Config, w: World, j: Journal, batch: Batch, now: Time, name: Name): World {
    var chapters := if Rotates(c, j, batch, now) then w.chapters + [Chapter(w.session, name, [], [], None)] else w.chapters;
    w.(disk := PerformAll(c, w.disk, RotatePlan(c, j, batch, now, name)), live := Some(Rotated(c, j, batch, now, name)),
       chapters := chapters, clock := now)
  }

  /** The batch itself; what fails leaves a torn chapter and a journal that is never written again. */
  function WriteStep(c: Config, w: World, batch: Batch, now: Time, n: nat, k: nat): World
    requires w.live.Some? && w.chapters != []
  {
    var j := w.live.value;
    var last := LastChapter(w);
    if n < 2 then
      w.(disk := Interrupted(c, w.disk, WritePlan(j, batch), n, k), live := None,
         chapters := WithLast(w.chapters, last.(torn := Some(batch))))
    else
      w.(disk := PerformAll(c, w.disk, WritePlan(j, batch)), live := Some(Appended(j, batch)),
         chapters := WithLast(w.chapters, last.(batches := last.batches + [batch], days := last.days + [Day(now)])),
         acknowledged := w.acknowledged + [batch])
  }

  function AppendStep(c: Config, w: World, j: Journal, batch: Batch, now: Time, name: Name, n: nat, k: nat): World
    requires w.chapters != []
  {
    if batch == [] then w
    else
      var rotation := RotatePlan(c, j, batch, now, name);
      if n < |rotation| then w.(disk := Interrupted(c, w.disk, rotation, n, k), live := None, clock := now)
      else WriteStep(c, Turned(c, w, j, batch, now, name), batch, now, n - |rotation|, k)
  }

  function Step(c: Config, w: World, e: Event): World
    requires Enabled(c, w, e)
  {
    match e
    case Open(now, name, n, k) => OpenStep(c, w, now, name, n, k)
    case Append(batch, now, name, n, k) => AppendStep(c, w, w.live.value, batch, now, name, n, k)
    case Kill => w.(live := None)
    case LosePower(outcome) => w.(disk := outcome, live := None)
  }

  ghost predicate Enabled(c: Config, w: World, e: Event) {
    match e
    case Open(now, name, _, _) => w.live.None? && IsFreshName(w.disk.segments, now, name)
    case Append(batch, now, name, _, _) =>
      w.live.Some? && w.chapters != [] && AreRows(batch, c.cells) && IsFreshName(w.disk.segments, now, name)
    case Kill => true
    case LosePower(outcome) => PowerLoss(w.disk, outcome)
  }

  ghost predicate Reaches(c: Config, w: World, events: seq<Event>, w': World)
    decreases |events|
  {
    if events == [] then w' == w
    else Enabled(c, w, events[0]) && Reaches(c, Step(c, w, events[0]), events[1..], w')
  }
}
