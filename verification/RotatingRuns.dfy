/**
Whole runs of the rotating journal: only the marked segment can be torn, recovery keeps exactly the acknowledged
batches and whole rows of failed ones or, exactly if the segment ends in a line break within quotes, refuses it; and
the segments make up one append-only log.
*/
module RotatingRuns {
  import opened Values
  import opened CsvFraming
  import opened RotatingJournal

  // ---------------------------------------------------------------- What a chapter's segment may hold

  function Flatten(batches: seq<Batch>): seq<string> {
    if batches == [] then [] else Flatten(batches[..|batches| - 1]) + batches[|batches| - 1]
  }

  function Lines(c: Config, batches: seq<Batch>): seq<string> { [c.header] + Flatten(batches) }

  /** The header and every acknowledged batch. */
  function Base(c: Config, batches: seq<Batch>): string { EncodeRows(Lines(c, batches)) }

  /** A torn segment at rest: some whole rows of the failed batch, durably. */
  ghost predicate AtRest(c: Config, s: Segment, batches: seq<Batch>, torn: Batch) {
    && s == Durable(s.text)
    && exists n :: Settled(s.text, Lines(c, batches), torn, n)
  }

  /** Some of the failed batch, any of which a power loss may undo; nothing acknowledged is at stake. */
  predicate Loose(c: Config, s: Segment, batches: seq<Batch>, torn: Batch) {
    && Base(c, batches) <= s.text <= s.longest <= Base(c, batches) + EncodeRows(torn)
    && |Base(c, batches)| <= s.synced <= |s.text|
  }

  ghost predicate ChapterOk(c: Config, d: Disk, ch: Chapter) {
    && ch.name in d.segments && ch.name in d.linked
    && (match ch.torn
        case None => d.segments[ch.name] == Durable(Base(c, ch.batches))
        case Some(torn) =>
          || AtRest(c, d.segments[ch.name], ch.batches, torn)
          || (Loose(c, d.segments[ch.name], ch.batches, torn) && d.marker == Some(ch.name) && d.older == {}))
  }

  predicate RowsOk(c: Config, ch: Chapter) {
    && (forall i :: 0 <= i < |ch.batches| ==> AreRows(ch.batches[i], c.cells))
    && (ch.torn.Some? ==> AreRows(ch.torn.value, c.cells))
  }

  ghost predicate Settling(c: Config, d: Disk, ch: Chapter)
    requires ch.name in d.segments
  {
    ch.torn.Some? ==> AtRest(c, d.segments[ch.name], ch.batches, ch.torn.value)
  }

  predicate Named(chapters: seq<Chapter>, name: Name) {
    exists i :: 0 <= i < |chapters| && chapters[i].name == name
  }

  predicate DistinctNames(chapters: seq<Chapter>) {
    forall i, j :: 0 <= i < j < |chapters| ==> chapters[i].name != chapters[j].name
  }

  /** The staging file, or one a power loss may bring back, is never another name of a chapter's segment. */
  predicate StagedApart(d: Disk, chapters: seq<Chapter>) {
    forall s <- d.olderStaging + {d.staging} :: s.Linked? ==> !Named(chapters, s.name)
  }

  ghost predicate DiskOk(c: Config, d: Disk, chapters: seq<Chapter>) {
    && DistinctNames(chapters) && StagedApart(d, chapters)
    && (forall i :: 0 <= i < |chapters| ==> ChapterOk(c, d, chapters[i]) && RowsOk(c, chapters[i]))
    && (forall n <- d.segments :: !Named(chapters, n) ==> d.segments[n] == HeaderOnly(c))
    && d.linked <= d.segments.Keys
    && (d.marker.Some? ==> d.marker.value in d.linked)
    && (forall o <- d.older :: o.Some? ==> o.value in d.linked)
  }

  ghost predicate AllSettled(c: Config, d: Disk, chapters: seq<Chapter>) {
    forall i :: 0 <= i < |chapters| ==> chapters[i].name in d.segments && Settling(c, d, chapters[i])
  }

  // ---------------------------------------------------------------- One action at a time

  /** An action that may be taken while these chapters are all there is. */
  ghost predicate Safe(c: Config, d: Disk, a: Action, chapters: seq<Chapter>) {
    match a
    case Stage => true
    case Publish(name) => name !in d.segments
    case Unstage => true
    case SyncDirectory => true
    case SetMarker(name) => name in d.linked && AllSettled(c, d, chapters)
    case Write(_, _) => false
    case Cut(name, kept) => CutsSafely(c, d, name, kept, chapters)
    case SyncFile(name) => SyncsSafely(c, d, name, chapters)
  }

  /** What is cut belongs to a failed batch. */
  ghost predicate CutsSafely(c: Config, d: Disk, name: Name, kept: string, chapters: seq<Chapter>) {
    && name in d.segments && d.marker == Some(name) && d.older == {} && Named(chapters, name)
    && kept <= d.segments[name].text
    && forall i :: 0 <= i < |chapters| && chapters[i].name == name ==>
         && chapters[i].torn.Some?
         && Base(c, chapters[i].batches) <= kept
         && Loose(c, d.segments[name], chapters[i].batches, chapters[i].torn.value)
  }

  /** What is synced ends in a whole row. */
  ghost predicate SyncsSafely(c: Config, d: Disk, name: Name, chapters: seq<Chapter>) {
    && name in d.segments
    && forall i :: 0 <= i < |chapters| && chapters[i].name == name && chapters[i].torn.Some? ==>
         exists n :: Settled(d.segments[name].text, Lines(c, chapters[i].batches), chapters[i].torn.value, n)
  }

  lemma UntouchedChapters(c: Config, d: Disk, d': Disk, chapters: seq<Chapter>)
    requires DiskOk(c, d, chapters)
    requires d'.segments == d.segments && d'.linked == d.linked && d'.marker == d.marker && d'.older == d.older
    requires StagedApart(d', chapters)
    ensures DiskOk(c, d', chapters)
  {
    forall i | 0 <= i < |chapters| ensures ChapterOk(c, d', chapters[i]) && RowsOk(c, chapters[i]) {
      assert ChapterOk(c, d, chapters[i]);
    }
  }

  lemma PublishKeeps(c: Config, d: Disk, name: Name, chapters: seq<Chapter>)
    requires DiskOk(c, d, chapters) && name !in d.segments
    ensures DiskOk(c, Perform(c, d, Publish(name)), chapters)
  {
    var d' := Perform(c, d, Publish(name));
    forall i | 0 <= i < |chapters| ensures ChapterOk(c, d', chapters[i]) && RowsOk(c, chapters[i]) {
      assert ChapterOk(c, d, chapters[i]);
    }
  }

  lemma SyncDirectoryKeeps(c: Config, d: Disk, chapters: seq<Chapter>)
    requires DiskOk(c, d, chapters)
    ensures DiskOk(c, Perform(c, d, SyncDirectory), chapters)
  {
    var d' := Perform(c, d, SyncDirectory);
    forall i | 0 <= i < |chapters| ensures ChapterOk(c, d', chapters[i]) && RowsOk(c, chapters[i]) {
      assert ChapterOk(c, d, chapters[i]);
    }
  }

  lemma SetMarkerKeeps(c: Config, d: Disk, name: Name, chapters: seq<Chapter>)
    requires DiskOk(c, d, chapters) && name in d.linked && AllSettled(c, d, chapters)
    ensures DiskOk(c, Perform(c, d, SetMarker(name)), chapters)
  {
    var d' := Perform(c, d, SetMarker(name));
    forall i | 0 <= i < |chapters| ensures ChapterOk(c, d', chapters[i]) && RowsOk(c, chapters[i]) {
      assert ChapterOk(c, d, chapters[i]) && Settling(c, d, chapters[i]);
    }
  }

  lemma CutKeeps(c: Config, d: Disk, name: Name, kept: string, chapters: seq<Chapter>)
    requires DiskOk(c, d, chapters) && CutsSafely(c, d, name, kept, chapters)
    ensures DiskOk(c, Perform(c, d, Cut(name, kept)), chapters)
  {
    var d' := Perform(c, d, Cut(name, kept));
    forall i | 0 <= i < |chapters| ensures ChapterOk(c, d', chapters[i]) && RowsOk(c, chapters[i]) {
      assert ChapterOk(c, d, chapters[i]);
      if chapters[i].name == name {
        assert Loose(c, d'.segments[name], chapters[i].batches, chapters[i].torn.value);
      }
    }
  }

  lemma SyncedChapter(c: Config, d: Disk, name: Name, chapters: seq<Chapter>, i: nat)
    requires i < |chapters| && ChapterOk(c, d, chapters[i]) && SyncsSafely(c, d, name, chapters)
    ensures ChapterOk(c, Perform(c, d, SyncFile(name)), chapters[i])
  {
    var ch := chapters[i];
    if ch.name == name && ch.torn.Some? {
      assert exists n :: Settled(d.segments[name].text, Lines(c, ch.batches), ch.torn.value, n);
      assert AtRest(c, Perform(c, d, SyncFile(name)).segments[name], ch.batches, ch.torn.value);
    }
  }

  lemma SyncFileKeeps(c: Config, d: Disk, name: Name, chapters: seq<Chapter>)
    requires DiskOk(c, d, chapters) && SyncsSafely(c, d, name, chapters)
    ensures DiskOk(c, Perform(c, d, SyncFile(name)), chapters)
  {
    var d' := Perform(c, d, SyncFile(name));
    forall i | 0 <= i < |chapters| ensures ChapterOk(c, d', chapters[i]) && RowsOk(c, chapters[i]) {
      assert ChapterOk(c, d, chapters[i]);
      SyncedChapter(c, d, name, chapters, i);
    }
    forall n <- d'.segments | !Named(chapters, n) ensures d'.segments[n] == HeaderOnly(c) {
      assert d.segments[n] == HeaderOnly(c);
    }
  }

  lemma SafeKeeps(c: Config, d: Disk, a: Action, chapters: seq<Chapter>)
    requires DiskOk(c, d, chapters) && Safe(c, d, a, chapters)
    ensures DiskOk(c, Perform(c, d, a), chapters)
  {
    match a {
      case Stage => UntouchedChapters(c, d, Perform(c, d, a), chapters);
      case Publish(name) => PublishKeeps(c, d, name, chapters);
      case Unstage => UntouchedChapters(c, d, Perform(c, d, a), chapters);
      case SyncDirectory => SyncDirectoryKeeps(c, d, chapters);
      case SetMarker(name) => SetMarkerKeeps(c, d, name, chapters);
      case Cut(name, kept) => CutKeeps(c, d, name, kept, chapters);
      case SyncFile(name) => SyncFileKeeps(c, d, name, chapters);
    }
  }

  ghost predicate SafePlan(c: Config, d: Disk, plan: seq<Action>, chapters: seq<Chapter>)
    decreases |plan|
  {
    plan == [] || (Safe(c, d, plan[0], chapters) && SafePlan(c, Perform(c, d, plan[0]), plan[1..], chapters))
  }

  /** A safe plan may be cut short anywhere. */
  lemma {:induction false} SafePlanKeeps(c: Config, d: Disk, plan: seq<Action>, chapters: seq<Chapter>, n: nat, k: nat)
    requires DiskOk(c, d, chapters) && SafePlan(c, d, plan, chapters)
    ensures DiskOk(c, Interrupted(c, d, plan, n, k), chapters)
    ensures DiskOk(c, PerformAll(c, d, plan), chapters)
    decreases |plan|
  {
    if plan != [] {
      SafeKeeps(c, d, plan[0], chapters);
      SafePlanKeeps(c, Perform(c, d, plan[0]), plan[1..], chapters, if n > 0 then n - 1 else 0, k);
    }
  }

  lemma {:induction false} SafeConcat(c: Config, d: Disk, p: seq<Action>, q: seq<Action>, chapters: seq<Chapter>)
    requires SafePlan(c, d, p, chapters) && SafePlan(c, PerformAll(c, d, p), q, chapters)
    ensures SafePlan(c, d, p + q, chapters)
    ensures PerformAll(c, d, p + q) == PerformAll(c, PerformAll(c, d, p), q)
    decreases |p|
  {
    if p == [] {
      assert p + q == q;
    } else {
      SafeConcat(c, Perform(c, d, p[0]), p[1..], q, chapters);
      assert (p + q)[1..] == p[1..] + q;
    }
  }

  // ---------------------------------------------------------------- Creating a segment

  function Created(c: Config, d: Disk, name: Name): Disk {
    var segments := d.segments[name := HeaderOnly(c)];
    Disk(segments, segments.Keys, Some(name), {}, Unstaged, {})
  }

  lemma CreateOutcome(c: Config, d: Disk, name: Name)
    requires name !in d.segments
    ensures PerformAll(c, d, CreatePlan(name)) == Created(c, d, name)
  {
    var d1 := Perform(c, d, Stage);
    var d2 := Perform(c, d1, Publish(name));
    var d3 := Perform(c, d2, Unstage);
    var d4 := Perform(c, d3, SyncDirectory);
    var d5 := Perform(c, d4, SetMarker(name));
    var p := CreatePlan(name);
    assert p[1..] == [Publish(name), Unstage, SyncDirectory, SetMarker(name), SyncDirectory];
    assert p[1..][1..] == [Unstage, SyncDirectory, SetMarker(name), SyncDirectory];
    assert p[1..][1..][1..] == [SyncDirectory, SetMarker(name), SyncDirectory];
    assert p[1..][1..][1..][1..] == [SetMarker(name), SyncDirectory];
    assert p[1..][1..][1..][1..][1..] == [SyncDirectory];
    assert PerformAll(c, d, p) == PerformAll(c, d1, p[1..]) == PerformAll(c, d2, p[1..][1..]);
    assert PerformAll(c, d2, p[1..][1..]) == PerformAll(c, d3, p[1..][1..][1..]) == PerformAll(c, d4, p[1..][1..][1..][1..]);
    assert PerformAll(c, d4, [SetMarker(name), SyncDirectory]) == PerformAll(c, d5, [SyncDirectory]);
    assert PerformAll(c, d5, [SyncDirectory]) == Perform(c, d5, SyncDirectory);
  }

  lemma CreateIsSafe(c: Config, d: Disk, name: Name, chapters: seq<Chapter>)
    requires name !in d.segments && AllSettled(c, d, chapters)
    ensures SafePlan(c, d, CreatePlan(name), chapters)
  {
    var p := CreatePlan(name);
    var d1 := Perform(c, d, Stage);
    var d2 := Perform(c, d1, Publish(name));
    var d3 := Perform(c, d2, Unstage);
    var d4 := Perform(c, d3, SyncDirectory);
    var d5 := Perform(c, d4, SetMarker(name));
    assert SafePlan(c, Perform(c, d5, SyncDirectory), [], chapters);
    assert SafePlan(c, d5, [SyncDirectory], chapters);
    assert AllSettled(c, d4, chapters) by {
      forall i | 0 <= i < |chapters| ensures chapters[i].name in d4.segments && Settling(c, d4, chapters[i]) {
        assert Settling(c, d, chapters[i]);
      }
    }
    assert SafePlan(c, d4, [SetMarker(name), SyncDirectory], chapters) by {
      assert [SetMarker(name), SyncDirectory][1..] == [SyncDirectory];
    }
    assert SafePlan(c, d3, [SyncDirectory, SetMarker(name), SyncDirectory], chapters) by {
      assert [SyncDirectory, SetMarker(name), SyncDirectory][1..] == [SetMarker(name), SyncDirectory];
    }
    assert SafePlan(c, d2, p[2..], chapters) by {
      assert p[2..][1..] == [SyncDirectory, SetMarker(name), SyncDirectory];
    }
    assert SafePlan(c, d1, p[1..], chapters) by {
      assert p[1..][1..] == p[2..];
    }
  }

  lemma NamedMore(chapters: seq<Chapter>, ch: Chapter, n: Name)
    ensures Named(chapters + [ch], n) == (Named(chapters, n) || n == ch.name)
  {
    var more := chapters + [ch];
    assert more[|chapters|] == ch;
    assert forall i :: 0 <= i < |chapters| ==> more[i] == chapters[i];
  }

  lemma CreatedChapters(c: Config, d: Disk, name: Name, chapters: seq<Chapter>, session: nat)
    requires DiskOk(c, d, chapters) && AllSettled(c, d, chapters) && name !in d.segments
    ensures DiskOk(c, Created(c, d, name), chapters + [Chapter(session, name, [], [], None)])
    ensures AllSettled(c, Created(c, d, name), chapters + [Chapter(session, name, [], [], None)])
  {
    var d' := Created(c, d, name);
    var more := chapters + [Chapter(session, name, [], [], None)];
    assert EncodeRows([c.header]) == EncodeRows([]) + EncodeRow(c.header);
    assert Lines(c, []) == [c.header];
    forall i | 0 <= i < |more|
      ensures ChapterOk(c, d', more[i]) && RowsOk(c, more[i])
      ensures more[i].name in d'.segments && Settling(c, d', more[i])
    {
      if i < |chapters| {
        assert ChapterOk(c, d, chapters[i]) && Settling(c, d, chapters[i]);
      }
    }
    forall n <- d'.segments | !Named(more, n) ensures d'.segments[n] == HeaderOnly(c) {
      NamedMore(chapters, more[|chapters|], n);
      assert n in d.segments;
    }
  }

  // ---------------------------------------------------------------- Recovering

  lemma {:induction false} FlattenRows(batches: seq<Batch>, cells: nat)
    requires forall i :: 0 <= i < |batches| ==> AreRows(batches[i], cells)
    ensures AreRows(Flatten(batches), cells)
    decreases |batches|
  {
    if batches != [] {
      FlattenRows(batches[..|batches| - 1], cells);
    }
  }

  lemma LinesAreRows(c: Config, ch: Chapter)
    requires ValidConfig(c) && RowsOk(c, ch)
    ensures AreRows(Lines(c, ch.batches), c.cells) && Lines(c, ch.batches)[0] == c.header
    ensures EncodeRow(c.header) <= Base(c, ch.batches)
  {
    FlattenRows(ch.batches, c.cells);
    EncodeConcat([c.header], Flatten(ch.batches));
    assert EncodeRows([c.header]) == EncodeRows([]) + EncodeRow(c.header);
  }

  ghost predicate HoldsChapter(c: Config, s: Segment, ch: Chapter) {
    match ch.torn
    case None => s == Durable(Base(c, ch.batches))
    case Some(torn) => AtRest(c, s, ch.batches, torn) || Loose(c, s, ch.batches, torn)
  }

  /** Nothing but part of a failed batch can be refused, or cut. */
  ghost predicate RecoversAs(c: Config, text: string, ch: Chapter, kept: string) {
    && kept <= text && Base(c, ch.batches) <= kept
    && (ch.torn.None? ==> kept == text)
    && (ch.torn.Some? ==> exists n :: Settled(kept, Lines(c, ch.batches), ch.torn.value, n))
  }

  /** What recovery makes of a chapter's text: its own, or less of its torn batch, or nothing at all. */
  lemma ChapterRecovers(c: Config, s: Segment, ch: Chapter)
    requires ValidConfig(c) && RowsOk(c, ch) && HoldsChapter(c, s, ch)
    ensures HasHeader(s.text, c.header)
    ensures match Recovered(s.text, c.header, c.cells)
            case Corrupt => BrokenInQuotes(s.text) && ch.torn.Some? && !AtRest(c, s, ch.batches, ch.torn.value)
            case Kept(kept) =>
              && !BrokenInQuotes(s.text) && RecoversAs(c, s.text, ch, kept)
              && (ch.torn.Some? && AtRest(c, s, ch.batches, ch.torn.value) ==> kept == s.text)
  {
    LinesAreRows(c, ch);
    var lines := Lines(c, ch.batches);
    StartsWithHeader(s.text, c.header);
    if ch.torn.None? {
      WholeIsKept(lines, c.header, c.cells);
      CompleteIsNotBroken(s.text, lines, c.cells);
    } else if AtRest(c, s, ch.batches, ch.torn.value) {
      var n: nat :| Settled(s.text, lines, ch.torn.value, n);
      SettledIsKept(s.text, lines, ch.torn.value, n, c.header, c.cells);
    } else {
      LooseRecovers(c, s, ch);
    }
  }

  lemma LooseRecovers(c: Config, s: Segment, ch: Chapter)
    requires ValidConfig(c) && RowsOk(c, ch) && ch.torn.Some? && Loose(c, s, ch.batches, ch.torn.value)
    ensures match Recovered(s.text, c.header, c.cells)
            case Corrupt => BrokenInQuotes(s.text)
            case Kept(kept) => !BrokenInQuotes(s.text) && RecoversAs(c, s.text, ch, kept)
  {
    LinesAreRows(c, ch);
    var lines := Lines(c, ch.batches);
    var k := |s.text| - |EncodeRows(lines)|;
    assert s.text == EncodeRows(lines) + EncodeRows(ch.torn.value)[..k];
    var n := RecoveryKeepsWholeRows(lines, ch.torn.value, k, c.header, c.cells);
  }

  /** The marked segment ends in a line break within quotes. */
  predicate MarkedIsBroken(d: Disk) {
    d.marker.Some? && d.marker.value in d.segments && BrokenInQuotes(d.segments[d.marker.value].text)
  }

  lemma HeaderRecovers(c: Config)
    requires ValidConfig(c)
    ensures var text := EncodeRow(c.header); HasHeader(text, c.header) && Recovered(text, c.header, c.cells) == Kept(text) && !BrokenInQuotes(text)
  {
    assert EncodeRows([c.header]) == EncodeRows([]) + EncodeRow(c.header) == EncodeRow(c.header);
    WholeIsKept([c.header], c.header, c.cells);
    CompleteIsNotBroken(EncodeRow(c.header), [c.header], c.cells);
    StartsWithHeader(EncodeRow(c.header), c.header);
  }

  lemma OtherChaptersAtRest(c: Config, d: Disk, chapters: seq<Chapter>, i: nat)
    requires DiskOk(c, d, chapters) && i < |chapters| && d.marker != Some(chapters[i].name)
    ensures chapters[i].name in d.segments && Settling(c, d, chapters[i])
  {
    assert ChapterOk(c, d, chapters[i]);
  }

  /** Recovery of a marked segment that no chapter wrote to. */
  lemma OrphanRecovers(c: Config, d: Disk, chapters: seq<Chapter>)
    requires ValidConfig(c) && DiskOk(c, d, chapters) && d.marker.Some? && !Named(chapters, d.marker.value)
    ensures RecoverPlan(c, d) == Some([SyncFile(d.marker.value)]) && !MarkedIsBroken(d)
    ensures SafePlan(c, d, [SyncFile(d.marker.value)], chapters)
    ensures PerformAll(c, d, [SyncFile(d.marker.value)]) == d && AllSettled(c, d, chapters)
  {
    var name := d.marker.value;
    HeaderRecovers(c);
    assert d.segments[name] == HeaderOnly(c);
    assert Perform(c, d, SyncFile(name)) == d by {
      assert d.segments[name := HeaderOnly(c)] == d.segments;
    }
    assert SyncsSafely(c, d, name, chapters);
    assert SafePlan(c, Perform(c, d, SyncFile(name)), [SyncFile(name)][1..], chapters);
    assert PerformAll(c, d, [SyncFile(name)]) == PerformAll(c, d, [SyncFile(name)][1..]);
    forall i | 0 <= i < |chapters| ensures chapters[i].name in d.segments && Settling(c, d, chapters[i]) {
      OtherChaptersAtRest(c, d, chapters, i);
    }
  }

  /** The directory after recovery: the marked segment holds what recovery keeps, durably. */
  function RecoveredDisk(d: Disk, name: Name, kept: string): Disk {
    d.(segments := d.segments[name := Durable(kept)])
  }

  lemma RecoveredIsSettled(c: Config, d: Disk, chapters: seq<Chapter>, i: nat, kept: string)
    requires DiskOk(c, d, chapters) && i < |chapters| && d.marker == Some(chapters[i].name)
    requires chapters[i].torn.Some? ==> exists n :: Settled(kept, Lines(c, chapters[i].batches), chapters[i].torn.value, n)
    ensures AllSettled(c, RecoveredDisk(d, chapters[i].name, kept), chapters)
  {
    var d' := RecoveredDisk(d, chapters[i].name, kept);
    forall j | 0 <= j < |chapters| ensures chapters[j].name in d'.segments && Settling(c, d', chapters[j]) {
      if j != i {
        OtherChaptersAtRest(c, d, chapters, j);
      }
    }
  }

  lemma SyncOnly(c: Config, d: Disk, name: Name, chapters: seq<Chapter>)
    requires SyncsSafely(c, d, name, chapters)
    ensures SafePlan(c, d, [SyncFile(name)], chapters)
    ensures PerformAll(c, d, [SyncFile(name)]) == RecoveredDisk(d, name, d.segments[name].text)
  {
    var d1 := Perform(c, d, SyncFile(name));
    assert SafePlan(c, d1, [SyncFile(name)][1..], chapters);
    assert PerformAll(c, d1, [SyncFile(name)][1..]) == d1;
  }

  lemma CutAndSync(c: Config, d: Disk, name: Name, kept: string, chapters: seq<Chapter>)
    requires CutsSafely(c, d, name, kept, chapters)
    requires forall i :: 0 <= i < |chapters| && chapters[i].name == name && chapters[i].torn.Some? ==>
               exists n :: Settled(kept, Lines(c, chapters[i].batches), chapters[i].torn.value, n)
    ensures SafePlan(c, d, [Cut(name, kept), SyncFile(name), SyncFile(name)], chapters)
    ensures PerformAll(c, d, [Cut(name, kept), SyncFile(name), SyncFile(name)]) == RecoveredDisk(d, name, kept)
  {
    var p := [Cut(name, kept), SyncFile(name), SyncFile(name)];
    var d1 := Perform(c, d, Cut(name, kept));
    var d2 := Perform(c, d1, SyncFile(name));
    assert p[1..] == [SyncFile(name), SyncFile(name)] && p[1..][1..] == [SyncFile(name)];
    SyncOnly(c, d2, name, chapters);
    assert SyncsSafely(c, d1, name, chapters);
    assert SafePlan(c, d1, p[1..], chapters);
    assert PerformAll(c, d, p) == PerformAll(c, d1, p[1..]) == PerformAll(c, d2, p[1..][1..]);
    assert d2.segments[name].text == kept;
    assert RecoveredDisk(d2, name, kept).segments == d.segments[name := Durable(kept)];
  }

  /** A recovery that may be cut short anywhere, and leaves nothing torn. */
  ghost predicate SafeRecovery(c: Config, d: Disk, plan: seq<Action>, chapters: seq<Chapter>) {
    && SafePlan(c, d, plan, chapters)
    && AllSettled(c, PerformAll(c, d, plan), chapters)
    && PerformAll(c, d, plan).segments.Keys == d.segments.Keys
  }

  /** Recovery of the chapter the marker names. */
  lemma MarkedRecovers(c: Config, d: Disk, chapters: seq<Chapter>, i: nat)
    requires ValidConfig(c) && DiskOk(c, d, chapters) && i < |chapters| && d.marker == Some(chapters[i].name)
    ensures match RecoverPlan(c, d)
            case None => MarkedIsBroken(d)
            case Some(plan) => !MarkedIsBroken(d) && SafeRecovery(c, d, plan, chapters)
  {
    var ch := chapters[i];
    assert ChapterOk(c, d, ch) && RowsOk(c, ch);
    ChapterRecovers(c, d.segments[ch.name], ch);
    if Recovered(d.segments[ch.name].text, c.header, c.cells).Kept? {
      var kept := Recovered(d.segments[ch.name].text, c.header, c.cells).text;
      KeptIsSafe(c, d, chapters, i, kept);
    }
  }

  lemma KeptIsSafe(c: Config, d: Disk, chapters: seq<Chapter>, i: nat, kept: string)
    requires DiskOk(c, d, chapters) && i < |chapters| && d.marker == Some(chapters[i].name)
    requires chapters[i].name in d.segments && HasHeader(d.segments[chapters[i].name].text, c.header)
    requires Recovered(d.segments[chapters[i].name].text, c.header, c.cells) == Kept(kept)
    requires RecoversAs(c, d.segments[chapters[i].name].text, chapters[i], kept)
    requires var ch := chapters[i];
             ch.torn.Some? && AtRest(c, d.segments[ch.name], ch.batches, ch.torn.value) ==> kept == d.segments[ch.name].text
    ensures RecoverPlan(c, d).Some? && SafeRecovery(c, d, RecoverPlan(c, d).value, chapters)
  {
    var ch := chapters[i];
    assert ChapterOk(c, d, ch);
    var text := d.segments[ch.name].text;
    assert forall j :: 0 <= j < |chapters| && chapters[j].name == ch.name ==> j == i;
    RecoveredIsSettled(c, d, chapters, i, kept);
    if kept == text {
      SyncOnly(c, d, ch.name, chapters);
    } else {
      assert Named(chapters, ch.name);
      CutAndSync(c, d, ch.name, kept, chapters);
    }
  }

  /**
  Recovery refuses, and changes nothing, exactly if the marked segment ends in a line break within quotes; otherwise
  it may be cut short anywhere, and leaves nothing torn.
  */
  lemma RecoveryIsSafe(c: Config, d: Disk, chapters: seq<Chapter>)
    requires ValidConfig(c) && DiskOk(c, d, chapters)
    ensures match RecoverPlan(c, d)
            case None => MarkedIsBroken(d)
            case Some(plan) => !MarkedIsBroken(d) && SafeRecovery(c, d, plan, chapters)
  {
    if d.marker.None? {
      forall i | 0 <= i < |chapters| ensures chapters[i].name in d.segments && Settling(c, d, chapters[i]) {
        OtherChaptersAtRest(c, d, chapters, i);
      }
      assert PerformAll(c, d, []) == d;
    } else if Named(chapters, d.marker.value) {
      var i :| 0 <= i < |chapters| && chapters[i].name == d.marker.value;
      MarkedRecovers(c, d, chapters, i);
    } else {
      OrphanRecovers(c, d, chapters);
    }
  }

  // ---------------------------------------------------------------- The history

  /** Each batch is in one chapter, in order. */
  function AllBatches(chapters: seq<Chapter>): seq<Batch> {
    if chapters == [] then [] else AllBatches(chapters[..|chapters| - 1]) + chapters[|chapters| - 1].batches
  }

  function Attempts(ch: Chapter): nat { |ch.batches| + (if ch.torn.Some? then 1 else 0) }

  /** As long as a chapter's text can get. */
  function Extent(c: Config, ch: Chapter): nat {
    |Base(c, ch.batches)| + (if ch.torn.Some? then |EncodeRows(ch.torn.value)| else 0)
  }

  /** A segment grows beyond the limit only with its first batch. */
  predicate SizeOk(c: Config, ch: Chapter) {
    c.limit.Some? && Extent(c, ch) > c.limit.value ==> Attempts(ch) <= 1
  }

  /** A torn chapter is the last of its session. */
  predicate SessionsOk(chapters: seq<Chapter>, session: nat) {
    && (forall i :: 0 <= i < |chapters| ==> chapters[i].session <= session)
    && (forall i, j :: 0 <= i < j < |chapters| ==> chapters[i].session <= chapters[j].session)
    && (forall i, j :: 0 <= i < j < |chapters| && chapters[i].torn.Some? ==> chapters[i].session < chapters[j].session)
  }

  ghost predicate HistoryOk(c: Config, w: World) {
    && SessionsOk(w.chapters, w.session)
    && (forall i :: 0 <= i < |w.chapters| ==> SizeOk(c, w.chapters[i]))
    && AllBatches(w.chapters) == w.acknowledged
  }

  /** The open journal writes to the last chapter, which is whole, marked and alone unsettled from now on. */
  ghost predicate LiveOk(c: Config, w: World) {
    w.live.Some? ==>
      && w.chapters != []
      && var j, last := w.live.value, LastChapter(w);
      && last.torn.None? && last.session == w.session && last.name == j.active
      && w.disk.marker == Some(j.active) && w.disk.older == {}
      && j.bytes == |Base(c, last.batches)| && j.hasEvents == (last.batches != [])
      && AllSettled(c, w.disk, w.chapters)
  }

  ghost predicate JournalInv(c: Config, w: World) {
    DiskOk(c, w.disk, w.chapters) && LiveOk(c, w) && HistoryOk(c, w)
  }

  lemma NewChapterHistory(c: Config, w: World, session: nat, name: Name)
    requires HistoryOk(c, w) && w.session <= session
    requires w.chapters != [] && LastChapter(w).torn.Some? ==> LastChapter(w).session < session
    ensures var more := w.chapters + [Chapter(session, name, [], [], None)];
            && SessionsOk(more, session) && AllBatches(more) == w.acknowledged
            && forall i :: 0 <= i < |more| ==> SizeOk(c, more[i])
  {
    var begun := Chapter(session, name, [], [], None);
    var more := w.chapters + [begun];
    assert more[..|w.chapters|] == w.chapters;
    forall i | 0 <= i < |w.chapters| && w.chapters[i].torn.Some? ensures w.chapters[i].session < session {
      if i < |w.chapters| - 1 {
        assert w.chapters[i].session < w.chapters[|w.chapters| - 1].session;
      }
    }
  }

  lemma BaseAppended(c: Config, batches: seq<Batch>, batch: Batch)
    ensures Base(c, batches + [batch]) == Base(c, batches) + EncodeRows(batch)
    ensures Base(c, []) == EncodeRow(c.header)
  {
    assert (batches + [batch])[..|batches|] == batches;
    assert Lines(c, batches + [batch]) == Lines(c, batches) + batch;
    EncodeConcat(Lines(c, batches), batch);
    assert Lines(c, []) == [c.header];
    assert EncodeRows([c.header]) == EncodeRows([]) + EncodeRow(c.header) == EncodeRow(c.header);
  }

  lemma {:induction false} AllBatchesOfLast(chapters: seq<Chapter>, last: Chapter)
    requires chapters != []
    ensures AllBatches(WithLast(chapters, last)) == AllBatches(chapters[..|chapters| - 1]) + last.batches
  {
    assert WithLast(chapters, last)[..|chapters| - 1] == chapters[..|chapters| - 1];
  }

  // ---------------------------------------------------------------- Opening

  /** A complete opening: recovered, then a new chapter begun. */
  lemma OpenedKeeps(c: Config, w: World, d: Disk, now: Time, name: Name)
    requires DiskOk(c, d, w.chapters) && AllSettled(c, d, w.chapters) && name !in d.segments && HistoryOk(c, w)
    ensures JournalInv(c, World(Created(c, d, name), Some(Opened(c, name, now)),
                                w.chapters + [Chapter(w.session + 1, name, [], [], None)], w.acknowledged, w.session + 1, now))
  {
    CreatedChapters(c, d, name, w.chapters, w.session + 1);
    NewChapterHistory(c, w, w.session + 1, name);
    BaseAppended(c, [], []);
  }

  lemma OpenPlanIsSafe(c: Config, d: Disk, chapters: seq<Chapter>, name: Name, n: nat, k: nat)
    requires ValidConfig(c) && DiskOk(c, d, chapters) && name !in d.segments && RecoverPlan(c, d).Some?
    ensures var recovery := RecoverPlan(c, d).value;
            var recovered := PerformAll(c, d, recovery);
            && DiskOk(c, recovered, chapters) && AllSettled(c, recovered, chapters) && name !in recovered.segments
            && DiskOk(c, Interrupted(c, d, recovery + CreatePlan(name), n, k), chapters)
            && PerformAll(c, d, recovery + CreatePlan(name)) == Created(c, recovered, name)
  {
    RecoveryIsSafe(c, d, chapters);
    var recovery := RecoverPlan(c, d).value;
    var recovered := PerformAll(c, d, recovery);
    SafePlanKeeps(c, d, recovery, chapters, 0, 0);
    CreateIsSafe(c, recovered, name, chapters);
    SafeConcat(c, d, recovery, CreatePlan(name), chapters);
    SafePlanKeeps(c, d, recovery + CreatePlan(name), chapters, n, k);
    CreateOutcome(c, recovered, name);
  }

  lemma StoppedKeeps(c: Config, w: World, d: Disk, now: Time)
    requires HistoryOk(c, w) && DiskOk(c, d, w.chapters)
    ensures JournalInv(c, w.(disk := d, live := None, clock := now))
  {
  }

  lemma OpenOutcome(c: Config, w: World, now: Time, name: Name, n: nat, k: nat)
    requires RecoverPlan(c, w.disk).Some? && w.live.None?
    ensures var recovery := RecoverPlan(c, w.disk).value;
            var plan := recovery + CreatePlan(name);
            OpenStep(c, w, now, name, n, k) ==
            if n < |plan| then w.(disk := Interrupted(c, w.disk, plan, n, k), live := None, clock := now)
            else World(PerformAll(c, w.disk, plan), Some(Opened(c, name, now)),
                       w.chapters + [Chapter(w.session + 1, name, [], [], None)], w.acknowledged, w.session + 1, now)
  {
  }

  lemma OpenKeeps(c: Config, w: World, now: Time, name: Name, n: nat, k: nat)
    requires ValidConfig(c) && JournalInv(c, w) && w.live.None? && name !in w.disk.segments
    ensures JournalInv(c, OpenStep(c, w, now, name, n, k))
  {
    if RecoverPlan(c, w.disk).Some? {
      OpenPlanIsSafe(c, w.disk, w.chapters, name, n, k);
      OpenOutcome(c, w, now, name, n, k);
      var recovery := RecoverPlan(c, w.disk).value;
      OpenedKeeps(c, w, PerformAll(c, w.disk, recovery), now, name);
      StoppedKeeps(c, w, Interrupted(c, w.disk, recovery + CreatePlan(name), n, k), now);
    }
  }

  // ---------------------------------------------------------------- Appending

  /** Syncing the segment that is whole already changes nothing. */
  lemma OldSync(c: Config, w: World, j: Journal)
    requires JournalInv(c, w) && w.live == Some(j)
    ensures SafePlan(c, w.disk, [SyncFile(j.active)], w.chapters)
    ensures PerformAll(c, w.disk, [SyncFile(j.active)]) == w.disk
  {
    assert ChapterOk(c, w.disk, LastChapter(w));
    assert forall i :: 0 <= i < |w.chapters| && w.chapters[i].name == j.active ==> i == |w.chapters| - 1;
    SyncOnly(c, w.disk, j.active, w.chapters);
    assert RecoveredDisk(w.disk, j.active, w.disk.segments[j.active].text) == w.disk by {
      assert w.disk.segments[j.active := w.disk.segments[j.active]] == w.disk.segments;
    }
  }

  lemma RotationIsSafe(c: Config, w: World, j: Journal, name: Name, n: nat, k: nat)
    requires ValidConfig(c) && JournalInv(c, w) && w.live == Some(j) && name !in w.disk.segments
    ensures var plan := [SyncFile(j.active)] + CreatePlan(name);
            && DiskOk(c, Interrupted(c, w.disk, plan, n, k), w.chapters)
            && PerformAll(c, w.disk, plan) == Created(c, w.disk, name)
  {
    OldSync(c, w, j);
    CreateIsSafe(c, w.disk, name, w.chapters);
    SafeConcat(c, w.disk, [SyncFile(j.active)], CreatePlan(name), w.chapters);
    SafePlanKeeps(c, w.disk, [SyncFile(j.active)] + CreatePlan(name), w.chapters, n, k);
    CreateOutcome(c, w.disk, name);
  }

  lemma TurnKeeps(c: Config, w: World, j: Journal, batch: Batch, now: Time, name: Name, n: nat, k: nat)
    requires ValidConfig(c) && JournalInv(c, w) && w.live == Some(j) && name !in w.disk.segments
    ensures DiskOk(c, Interrupted(c, w.disk, RotatePlan(c, j, batch, now, name), n, k), w.chapters)
    ensures JournalInv(c, Turned(c, w, j, batch, now, name)) && Turned(c, w, j, batch, now, name).live.Some?
  {
    if Rotates(c, j, batch, now) {
      RotationIsSafe(c, w, j, name, n, k);
      CreatedChapters(c, w.disk, name, w.chapters, w.session);
      NewChapterHistory(c, w, w.session, name);
      BaseAppended(c, [], []);
    }
  }

  predicate OnlyChanges(d: Disk, d': Disk, name: Name) {
    name in d'.segments && d' == d.(segments := d.segments[name := d'.segments[name]])
  }

  lemma OtherChapterUnchanged(c: Config, d: Disk, d': Disk, name: Name, ch: Chapter)
    requires OnlyChanges(d, d', name) && ch.name != name && ChapterOk(c, d, ch)
    ensures ChapterOk(c, d', ch) && (Settling(c, d, ch) ==> Settling(c, d', ch))
  {
  }

  lemma SameNames(chapters: seq<Chapter>, last: Chapter, n: Name)
    requires chapters != [] && last.name == chapters[|chapters| - 1].name
    ensures Named(WithLast(chapters, last), n) == Named(chapters, n)
    ensures DistinctNames(chapters) ==> DistinctNames(WithLast(chapters, last))
  {
    var more := WithLast(chapters, last);
    assert forall i :: 0 <= i < |chapters| ==> more[i].name == chapters[i].name;
  }

  /** The disk when the active segment has changed and nothing else. */
  lemma LastChapterWritten(c: Config, d: Disk, d': Disk, chapters: seq<Chapter>, last: Chapter)
    requires DiskOk(c, d, chapters) && AllSettled(c, d, chapters) && chapters != []
    requires last.name == chapters[|chapters| - 1].name && RowsOk(c, last) && ChapterOk(c, d', last)
    requires last.name in d.segments && OnlyChanges(d, d', last.name)
    ensures DiskOk(c, d', WithLast(chapters, last))
    ensures last.torn.None? ==> AllSettled(c, d', WithLast(chapters, last))
  {
    var more := WithLast(chapters, last);
    SameNames(chapters, last, last.name);
    forall i | 0 <= i < |more|
      ensures ChapterOk(c, d', more[i]) && RowsOk(c, more[i])
      ensures last.torn.None? ==> more[i].name in d'.segments && Settling(c, d', more[i])
    {
      if i < |more| - 1 {
        assert more[i] == chapters[i] && ChapterOk(c, d, chapters[i]) && Settling(c, d, chapters[i]);
        OtherChapterUnchanged(c, d, d', last.name, chapters[i]);
      }
    }
    assert Named(chapters, last.name);
    forall n <- d'.segments | !Named(more, n) ensures d'.segments[n] == HeaderOnly(c) {
      SameNames(chapters, last, n);
      assert n != last.name;
    }
  }

  lemma WriteOutcomes(c: Config, d: Disk, j: Journal, batch: Batch, n: nat, k: nat)
    requires j.active in d.segments && d.segments[j.active] == Durable(d.segments[j.active].text)
    ensures var s := d.segments[j.active];
            && PerformAll(c, d, WritePlan(j, batch))
               == d.(segments := d.segments[j.active := Durable(s.text + EncodeRows(batch))])
            && (n < 2 ==>
                  exists m :: 0 <= m <= |EncodeRows(batch)| && Interrupted(c, d, WritePlan(j, batch), n, k)
                    == d.(segments := d.segments[j.active := Written(s, EncodeRows(batch)[..m])]))
  {
    var s := d.segments[j.active];
    var text := EncodeRows(batch);
    var p := WritePlan(j, batch);
    var d1 := Perform(c, d, p[0]);
    assert p[1..] == [SyncFile(j.active)] && p[1..][1..] == [];
    var d2 := Perform(c, d1, SyncFile(j.active));
    assert PerformAll(c, d, p) == PerformAll(c, d1, p[1..]) == PerformAll(c, d2, []);
    assert d2.segments == d.segments[j.active := Durable(s.text + text)];
    assert text[..|text|] == text && text[..0] == [];
    if n == 0 {
      if k <= |text| {
        assert Interrupted(c, d, p, 0, k) == d.(segments := d.segments[j.active := Written(s, text[..k])]);
      } else {
        assert Written(s, text[..0]) == s;
        assert d.segments[j.active := s] == d.segments;
        assert Interrupted(c, d, p, 0, k) == d.(segments := d.segments[j.active := Written(s, text[..0])]);
      }
    } else if n == 1 {
      assert Interrupted(c, d, p, 1, k) == Interrupted(c, d1, p[1..], 0, k) == d1;
      assert d1 == d.(segments := d.segments[j.active := Written(s, text[..|text|])]);
    }
  }

  lemma SameSessions(chapters: seq<Chapter>, last: Chapter, session: nat)
    requires chapters != [] && SessionsOk(chapters, session) && last.session == chapters[|chapters| - 1].session
    ensures SessionsOk(WithLast(chapters, last), session)
  {
    var more := WithLast(chapters, last);
    assert forall i :: 0 <= i < |more| ==> more[i].session == chapters[i].session;
    assert forall i :: 0 <= i < |more| - 1 ==> more[i] == chapters[i];
  }

  lemma MoreBatches(chapters: seq<Chapter>, last: Chapter)
    requires chapters != [] && chapters[|chapters| - 1].batches <= last.batches
    ensures AllBatches(WithLast(chapters, last))
            == AllBatches(chapters) + last.batches[|chapters[|chapters| - 1].batches|..]
  {
    var was := chapters[|chapters| - 1];
    AllBatchesOfLast(chapters, last);
    AllBatchesOfLast(chapters, was);
    assert WithLast(chapters, was) == chapters;
    assert last.batches == was.batches + last.batches[|was.batches|..];
  }

  /** The history with the last chapter replaced. */
  lemma LastChapterHistory(c: Config, w: World, last: Chapter)
    requires HistoryOk(c, w) && w.chapters != []
    requires last.session == LastChapter(w).session && LastChapter(w).batches <= last.batches && SizeOk(c, last)
    ensures HistoryOk(c, w.(chapters := WithLast(w.chapters, last),
                            acknowledged := w.acknowledged + last.batches[|LastChapter(w).batches|..]))
  {
    SameSessions(w.chapters, last, w.session);
    MoreBatches(w.chapters, last);
    var chapters := WithLast(w.chapters, last);
    forall i | 0 <= i < |chapters| ensures SizeOk(c, chapters[i]) {
      if i < |chapters| - 1 {
        assert chapters[i] == w.chapters[i];
      }
    }
  }

  lemma TornChapterOk(c: Config, d: Disk, last: Chapter, j: Journal, batch: Batch, n: nat, k: nat)
    requires ChapterOk(c, d, last) && last.torn.None? && last.name == j.active && n < 2
    requires d.marker == Some(j.active) && d.older == {}
    ensures var d' := Interrupted(c, d, WritePlan(j, batch), n, k);
            ChapterOk(c, d', last.(torn := Some(batch))) && OnlyChanges(d, d', j.active)
  {
    WriteOutcomes(c, d, j, batch, n, k);
    var s := d.segments[j.active];
    var d' := Interrupted(c, d, WritePlan(j, batch), n, k);
    var m :| 0 <= m <= |EncodeRows(batch)|
             && d' == d.(segments := d.segments[j.active := Written(s, EncodeRows(batch)[..m])]);
    assert Loose(c, d'.segments[j.active], last.batches, batch);
  }

  lemma WriteFailsKeeps(c: Config, w: World, batch: Batch, now: Time, n: nat, k: nat)
    requires JournalInv(c, w) && w.live.Some? && AreRows(batch, c.cells) && n < 2
    requires !Rotates(c, w.live.value, batch, now)
    ensures JournalInv(c, WriteStep(c, w, batch, now, n, k))
  {
    var j, last := w.live.value, LastChapter(w);
    var torn := last.(torn := Some(batch));
    var d := Interrupted(c, w.disk, WritePlan(j, batch), n, k);
    assert ChapterOk(c, w.disk, last) && RowsOk(c, last);
    TornChapterOk(c, w.disk, last, j, batch, n, k);
    LastChapterWritten(c, w.disk, d, w.chapters, torn);
    LastChapterHistory(c, w, torn);
    assert w.acknowledged + torn.batches[|last.batches|..] == w.acknowledged;
    StoppedKeeps(c, w.(chapters := WithLast(w.chapters, torn)), d, w.clock);
  }

  lemma GrownChapterOk(c: Config, d: Disk, last: Chapter, j: Journal, batch: Batch, grown: Chapter)
    requires ChapterOk(c, d, last) && last.torn.None? && last.name == j.active
    requires grown.name == last.name && grown.torn.None? && grown.batches == last.batches + [batch]
    ensures var d' := PerformAll(c, d, WritePlan(j, batch));
            ChapterOk(c, d', grown) && OnlyChanges(d, d', j.active)
  {
    WriteOutcomes(c, d, j, batch, 2, 0);
    BaseAppended(c, last.batches, batch);
  }

  lemma GrownSizeOk(c: Config, j: Journal, last: Chapter, batch: Batch, now: Time, grown: Chapter)
    requires !Rotates(c, j, batch, now) && last.torn.None?
    requires j.bytes == |Base(c, last.batches)| && j.hasEvents == (last.batches != [])
    requires grown.torn.None? && grown.batches == last.batches + [batch]
    ensures SizeOk(c, grown) && |Base(c, grown.batches)| == j.bytes + |EncodeRows(batch)|
  {
    BaseAppended(c, last.batches, batch);
  }

  lemma RunningKeeps(c: Config, w: World, j: Journal, last: Chapter)
    requires DiskOk(c, w.disk, w.chapters) && HistoryOk(c, w) && w.live == Some(j)
    requires w.chapters != [] && last == LastChapter(w) && AllSettled(c, w.disk, w.chapters)
    requires last.torn.None? && last.session == w.session && last.name == j.active
    requires w.disk.marker == Some(j.active) && w.disk.older == {}
    requires j.bytes == |Base(c, last.batches)| && j.hasEvents == (last.batches != [])
    ensures JournalInv(c, w)
  {
  }

  lemma WriteSucceedsKeeps(c: Config, w: World, batch: Batch, now: Time, n: nat, k: nat)
    requires JournalInv(c, w) && w.live.Some? && AreRows(batch, c.cells) && n >= 2
    requires !Rotates(c, w.live.value, batch, now)
    ensures JournalInv(c, WriteStep(c, w, batch, now, n, k))
  {
    var j, last := w.live.value, LastChapter(w);
    var grown := last.(batches := last.batches + [batch], days := last.days + [Day(now)]);
    var d := PerformAll(c, w.disk, WritePlan(j, batch));
    var w' := World(d, Some(Appended(j, batch)), WithLast(w.chapters, grown), w.acknowledged + [batch], w.session, w.clock);
    assert ChapterOk(c, w.disk, last) && RowsOk(c, last);
    assert grown.batches[|last.batches|..] == [batch];
    GrownChapterOk(c, w.disk, last, j, batch, grown);
    GrownSizeOk(c, j, last, batch, now, grown);
    GrownWorld(c, w, d, grown);
    RunningKeeps(c, w', Appended(j, batch), grown);
    assert WriteStep(c, w, batch, now, n, k) == w';
  }

  lemma GrownWorld(c: Config, w: World, d: Disk, grown: Chapter)
    requires JournalInv(c, w) && w.live.Some? && grown.torn.None? && RowsOk(c, grown) && ChapterOk(c, d, grown)
    requires grown.name == LastChapter(w).name && grown.session == LastChapter(w).session && SizeOk(c, grown)
    requires LastChapter(w).batches <= grown.batches && OnlyChanges(w.disk, d, grown.name)
    ensures DiskOk(c, d, WithLast(w.chapters, grown)) && AllSettled(c, d, WithLast(w.chapters, grown))
    ensures HistoryOk(c, w.(chapters := WithLast(w.chapters, grown),
                            acknowledged := w.acknowledged + grown.batches[|LastChapter(w).batches|..]))
  {
    assert ChapterOk(c, w.disk, LastChapter(w));
    LastChapterWritten(c, w.disk, d, w.chapters, grown);
    LastChapterHistory(c, w, grown);
  }

  lemma NoRotationTwice(c: Config, j: Journal, batch: Batch, now: Time, name: Name)
    ensures !Rotates(c, Rotated(c, j, batch, now, name), batch, now)
  {
  }

  lemma TurnedWrites(c: Config, w: World, j: Journal, batch: Batch, now: Time, name: Name, n: nat, k: nat)
    requires w.live == Some(j) && AreRows(batch, c.cells)
    requires JournalInv(c, Turned(c, w, j, batch, now, name)) && Turned(c, w, j, batch, now, name).live.Some?
    ensures JournalInv(c, WriteStep(c, Turned(c, w, j, batch, now, name), batch, now, n, k))
  {
    NoRotationTwice(c, j, batch, now, name);
    WriteKeeps(c, Turned(c, w, j, batch, now, name), batch, now, n, k);
  }

  lemma AppendKeeps(c: Config, w: World, batch: Batch, now: Time, name: Name, n: nat, k: nat)
    requires ValidConfig(c) && JournalInv(c, w) && Enabled(c, w, Append(batch, now, name, n, k))
    ensures JournalInv(c, AppendStep(c, w, w.live.value, batch, now, name, n, k))
  {
    var j := w.live.value;
    var rotation := RotatePlan(c, j, batch, now, name);
    if batch != [] {
      TurnKeeps(c, w, j, batch, now, name, n, k);
      if n < |rotation| {
        StoppedKeeps(c, w, Interrupted(c, w.disk, rotation, n, k), now);
      } else {
        TurnedWrites(c, w, j, batch, now, name, n - |rotation|, k);
      }
    }
  }

  lemma WriteKeeps(c: Config, w: World, batch: Batch, now: Time, n: nat, k: nat)
    requires JournalInv(c, w) && w.live.Some? && AreRows(batch, c.cells) && !Rotates(c, w.live.value, batch, now)
    ensures JournalInv(c, WriteStep(c, w, batch, now, n, k))
  {
    if n < 2 {
      WriteFailsKeeps(c, w, batch, now, n, k);
    } else {
      WriteSucceedsKeeps(c, w, batch, now, n, k);
    }
  }

  // ---------------------------------------------------------------- Losing power

  lemma FallenChapter(c: Config, d: Disk, d': Disk, ch: Chapter)
    requires ChapterOk(c, d, ch) && PowerLoss(d, d')
    ensures ChapterOk(c, d', ch)
  {
    var s, t := d.segments[ch.name], d'.segments[ch.name];
    assert Fell(s, t);
    if s == Durable(s.text) {
      assert t.text == s.text;
    }
  }

  lemma PowerLossKeeps(c: Config, w: World, d': Disk)
    requires JournalInv(c, w) && PowerLoss(w.disk, d')
    ensures JournalInv(c, w.(disk := d', live := None))
  {
    forall i | 0 <= i < |w.chapters| ensures ChapterOk(c, d', w.chapters[i]) && RowsOk(c, w.chapters[i]) {
      FallenChapter(c, w.disk, d', w.chapters[i]);
    }
    forall n <- d'.segments | !Named(w.chapters, n) ensures d'.segments[n] == HeaderOnly(c) {
      assert Fell(w.disk.segments[n], d'.segments[n]) && w.disk.segments[n] == HeaderOnly(c);
    }
    StoppedKeeps(c, w, d', w.clock);
  }

  // ---------------------------------------------------------------- Whole runs

  lemma StepKeeps(c: Config, w: World, e: Event)
    requires ValidConfig(c) && JournalInv(c, w) && Enabled(c, w, e)
    ensures JournalInv(c, Step(c, w, e))
  {
    match e {
      case Open(now, name, n, k) => OpenKeeps(c, w, now, name, n, k);
      case Append(batch, now, name, n, k) => AppendKeeps(c, w, batch, now, name, n, k);
      case Kill => StoppedKeeps(c, w, w.disk, w.clock);
      case LosePower(outcome) => PowerLossKeeps(c, w, outcome);
    }
  }

  lemma {:induction false} RunKeeps(c: Config, w: World, events: seq<Event>, w': World)
    requires ValidConfig(c) && JournalInv(c, w) && Reaches(c, w, events, w')
    ensures JournalInv(c, w')
    decreases |events|
  {
    if events != [] {
      StepKeeps(c, w, events[0]);
      RunKeeps(c, Step(c, w, events[0]), events[1..], w');
    }
  }

  lemma RunsKeep(c: Config, t0: Time, events: seq<Event>, w: World)
    requires ValidConfig(c) && Reaches(c, Initial(t0), events, w)
    ensures JournalInv(c, w)
  {
    RunKeeps(c, Initial(t0), events, w);
  }

  /** A segment that no power loss can change and that ends in a whole row. */
  ghost predicate WholeAndDurable(c: Config, s: Segment) {
    && s == Durable(s.text)
    && exists lines :: lines != [] && lines[0] == c.header && AreRows(lines, c.cells) && Complete(s.text, lines)
  }

  lemma ChapterIsWhole(c: Config, d: Disk, ch: Chapter)
    requires ValidConfig(c) && ChapterOk(c, d, ch) && RowsOk(c, ch) && Settling(c, d, ch)
    ensures WholeAndDurable(c, d.segments[ch.name])
  {
    LinesAreRows(c, ch);
    var lines := Lines(c, ch.batches);
    if ch.torn.Some? {
      var n: nat :| Settled(d.segments[ch.name].text, lines, ch.torn.value, n);
      var all := lines + ch.torn.value[..n];
      assert all[0] == c.header && AreRows(all, c.cells) && Complete(d.segments[ch.name].text, all);
    } else {
      assert Complete(d.segments[ch.name].text, lines);
    }
  }

  /**
  At every point of every run only the marked segment can be torn: all others are whole and durable, and the
  marker names a segment that exists and starts with the header.
  */
  lemma OnlyTheMarkedSegmentIsTorn(c: Config, t0: Time, events: seq<Event>, w: World)
    requires ValidConfig(c) && Reaches(c, Initial(t0), events, w)
    ensures forall n <- w.disk.segments :: w.disk.marker != Some(n) ==> WholeAndDurable(c, w.disk.segments[n])
    ensures w.disk.marker.Some? ==>
              w.disk.marker.value in w.disk.segments && HasHeader(w.disk.segments[w.disk.marker.value].text, c.header)
  {
    RunsKeep(c, t0, events, w);
    var d := w.disk;
    forall n <- d.segments | d.marker != Some(n) ensures WholeAndDurable(c, d.segments[n]) {
      if Named(w.chapters, n) {
        var i :| 0 <= i < |w.chapters| && w.chapters[i].name == n;
        OtherChaptersAtRest(c, d, w.chapters, i);
        ChapterIsWhole(c, d, w.chapters[i]);
      } else {
        assert EncodeRows([c.header]) == EncodeRows([]) + EncodeRow(c.header) == EncodeRow(c.header);
        assert Complete(d.segments[n].text, [c.header]);
      }
    }
    if d.marker.Some? {
      MarkedHasHeader(c, d, w.chapters);
    }
  }

  lemma MarkedHasHeader(c: Config, d: Disk, chapters: seq<Chapter>)
    requires ValidConfig(c) && DiskOk(c, d, chapters) && d.marker.Some?
    ensures HasHeader(d.segments[d.marker.value].text, c.header)
  {
    var name := d.marker.value;
    if Named(chapters, name) {
      var i :| 0 <= i < |chapters| && chapters[i].name == name;
      assert ChapterOk(c, d, chapters[i]) && RowsOk(c, chapters[i]);
      ChapterRecovers(c, d.segments[name], chapters[i]);
    } else {
      HeaderRecovers(c);
      assert d.segments[name] == HeaderOnly(c);
    }
  }

  /**
  Opening is refused exactly if the marked segment ends in a line break within quotes, and then changes nothing;
  otherwise it goes through.
  */
  lemma OpeningSucceedsUnlessBroken(c: Config, t0: Time, events: seq<Event>, w: World, now: Time, name: Name)
    requires ValidConfig(c) && Reaches(c, Initial(t0), events, w)
    requires w.live.None? && IsFreshName(w.disk.segments, now, name)
    ensures RecoverPlan(c, w.disk).None? <==> MarkedIsBroken(w.disk)
    ensures MarkedIsBroken(w.disk) ==> forall n, k :: OpenStep(c, w, now, name, n, k) == w
    ensures !MarkedIsBroken(w.disk) ==>
              var n := |RecoverPlan(c, w.disk).value| + |CreatePlan(name)|; OpenStep(c, w, now, name, n, 0).live.Some?
  {
    RunsKeep(c, t0, events, w);
    RecoveryIsSafe(c, w.disk, w.chapters);
  }

  /** What is refused holds every acknowledged batch of its chapter, and part of the failed one. */
  lemma BrokenSegmentIsTorn(c: Config, t0: Time, events: seq<Event>, w: World) returns (i: nat)
    requires ValidConfig(c) && Reaches(c, Initial(t0), events, w) && MarkedIsBroken(w.disk)
    ensures i < |w.chapters| && w.disk.marker == Some(w.chapters[i].name) && w.chapters[i].torn.Some?
    ensures Loose(c, w.disk.segments[w.chapters[i].name], w.chapters[i].batches, w.chapters[i].torn.value)
  {
    RunsKeep(c, t0, events, w);
    var name := w.disk.marker.value;
    if !Named(w.chapters, name) {
      OrphanRecovers(c, w.disk, w.chapters);
    }
    i :| 0 <= i < |w.chapters| && w.chapters[i].name == name;
    assert ChapterOk(c, w.disk, w.chapters[i]) && RowsOk(c, w.chapters[i]);
    ChapterRecovers(c, w.disk.segments[name], w.chapters[i]);
  }

  // ---------------------------------------------------------------- A directory that is never opened again

  /** Refused, with nothing pending that a power loss could change. */
  predicate Stuck(c: Config, d: Disk) {
    && d.marker.Some? && d.older == {} && RecoverPlan(c, d).None?
    && d.marker.value in d.segments && d.marker.value in d.linked
    && d.segments[d.marker.value] == Durable(d.segments[d.marker.value].text)
  }

  lemma {:induction false} StuckForever(c: Config, w: World, events: seq<Event>, w': World)
    requires Reaches(c, w, events, w') && w.live.None? && Stuck(c, w.disk)
    ensures w'.live.None? && Stuck(c, w'.disk) && w'.disk.marker == w.disk.marker
    ensures w'.disk.segments[w.disk.marker.value] == w.disk.segments[w.disk.marker.value]
    decreases |events|
  {
    if events != [] {
      var w1 := Step(c, w, events[0]);
      if events[0].LosePower? {
        var before, after := w.disk.segments[w.disk.marker.value], w1.disk.segments[w.disk.marker.value];
        assert Fell(before, after);
        assert after.text == before.text;
      }
      StuckForever(c, w1, events[1..], w');
    }
  }

  /** The first segment with part of the first batch, durably. */
  function BrokenDisk(c: Config, name: Name, part: string): Disk {
    Disk(map[name := Durable(EncodeRow(c.header) + part)], {name}, Some(name), {}, Unstaged, {})
  }

  lemma BrokenTextIsRefused(c: Config, batch: Batch, k: nat)
    requires ValidConfig(c) && AreRows(batch, c.cells) && k <= |EncodeRows(batch)| && BrokenInQuotes(EncodeRows(batch)[..k])
    ensures var text := EncodeRow(c.header) + EncodeRows(batch)[..k];
            HasHeader(text, c.header) && Recovered(text, c.header, c.cells) == Corrupt
  {
    var part := EncodeRows(batch)[..k];
    assert EncodeRows([c.header]) == EncodeRows([]) + EncodeRow(c.header) == EncodeRow(c.header);
    var n := RecoveryKeepsWholeRows([c.header], batch, k, c.header, c.cells);
    BrokenAfterRows([c.header], part, c.cells);
    StartsWithHeader(EncodeRow(c.header) + part, c.header);
  }

  lemma BrokenAfterRows(lines: seq<string>, part: string, cells: nat)
    requires AreRows(lines, cells) && BrokenInQuotes(part)
    ensures BrokenInQuotes(EncodeRows(lines) + part)
  {
    TextModeOfRows(lines, cells);
    TextModeConcat(EncodeRows(lines), part);
    var text := EncodeRows(lines) + part;
    assert text[|text| - 1] == part[|part| - 1];
  }

  lemma BrokenIsStuck(c: Config, name: Name, batch: Batch, k: nat)
    requires ValidConfig(c) && AreRows(batch, c.cells) && k <= |EncodeRows(batch)| && BrokenInQuotes(EncodeRows(batch)[..k])
    ensures Stuck(c, BrokenDisk(c, name, EncodeRows(batch)[..k]))
  {
    BrokenTextIsRefused(c, batch, k);
  }

  lemma FirstOpening(c: Config, t0: Time, now: Time)
    requires ValidConfig(c)
    ensures var name := Name(now, 0);
            var w := OpenStep(c, Initial(t0), now, name, 6, 0);
            && w.live == Some(Opened(c, name, now)) && w.chapters != []
            && w.disk == BrokenDisk(c, name, [])
  {
    var name := Name(now, 0);
    CreateOutcome(c, EMPTY_DIRECTORY, name);
    assert [] + CreatePlan(name) == CreatePlan(name);
    assert EncodeRow(c.header) + [] == EncodeRow(c.header);
    assert map[][name := HeaderOnly(c)] == map[name := HeaderOnly(c)];
    assert map[name := HeaderOnly(c)].Keys == {name};
  }

  /**
  A run whose directory no later opening accepts, whatever else happens: the first batch's write is cut right after a
  line break within quotes, and then power is lost.
  */
  lemma CutInQuotesIsNeverOpenedAgain(c: Config, t0: Time, now: Time, batch: Batch, k: nat)
    returns (events: seq<Event>, w: World)
    requires ValidConfig(c) && AreRows(batch, c.cells) && k <= |EncodeRows(batch)| && BrokenInQuotes(EncodeRows(batch)[..k])
    ensures Reaches(c, Initial(t0), events, w) && w.live.None? && Stuck(c, w.disk) && w.acknowledged == []
  {
    var name, next, part := Name(now, 0), Name(now, 1), EncodeRows(batch)[..k];
    FirstOpening(c, t0, now);
    var open, append := Open(now, name, 6, 0), Append(batch, now, next, 0, k);
    var lost := LosePower(BrokenDisk(c, name, part));
    var w1 := Step(c, Initial(t0), open);
    assert batch != [];
    assert IsFreshName(w1.disk.segments, now, next);
    FirstWriteCut(c, w1, batch, now, next, k);
    var w2 := Step(c, w1, append);
    w := Step(c, w2, lost);
    BrokenIsStuck(c, name, batch, k);
    OneEventFirst(c, w2, lost, [], w);
    OneEventFirst(c, w1, append, [lost] + [], w);
    OneEventFirst(c, Initial(t0), open, [append] + ([lost] + []), w);
    events := [open] + ([append] + ([lost] + []));
  }

  lemma OneEventFirst(c: Config, w: World, e: Event, events: seq<Event>, w': World)
    requires Enabled(c, w, e) && Reaches(c, Step(c, w, e), events, w')
    ensures Reaches(c, w, [e] + events, w')
  {
    assert ([e] + events)[1..] == events;
  }

  lemma FirstWriteCut(c: Config, w: World, batch: Batch, now: Time, next: Name, k: nat)
    requires w.live.Some? && w.chapters != [] && batch != [] && k <= |EncodeRows(batch)|
    requires w.live.value == Opened(c, w.live.value.active, now) && w.disk == BrokenDisk(c, w.live.value.active, [])
    ensures var w' := AppendStep(c, w, w.live.value, batch, now, next, 0, k);
            && w'.live.None? && w'.acknowledged == w.acknowledged
            && PowerLoss(w'.disk, BrokenDisk(c, w.live.value.active, EncodeRows(batch)[..k]))
  {
    var j := w.live.value;
    var part := EncodeRows(batch)[..k];
    var w' := AppendStep(c, w, j, batch, now, next, 0, k);
    assert EncodeRow(c.header) + [] == EncodeRow(c.header);
    assert WritePlan(j, batch)[0] == Write(j.active, EncodeRows(batch));
    assert w'.disk == Perform(c, w.disk, Write(j.active, part));
    assert w'.disk.segments[j.active].text == EncodeRow(c.header) + part;
    assert Fell(w'.disk.segments[j.active], Durable(EncodeRow(c.header) + part));
  }

  lemma BrokenMessageRow()
    ensures EncodeCells([['m'], ['n']]) == ['m', ',', 'n']
    ensures EncodeCells([['\n'], ['1']]) == [QUOTE, '\n', QUOTE, ',', '1']
  {
    assert [['m'], ['n']][..1] == [['m']] && [['\n'], ['1']][..1] == [['\n']];
    assert IsSpecial(['\n'][0]);
    assert ['\n'][..0] == [];
    assert Doubled(['\n']) == ['\n'];
    assert EncodeCell(['\n']) == [QUOTE, '\n', QUOTE];
    assert EncodeCell(['m']) == ['m'] && EncodeCell(['n']) == ['n'] && EncodeCell(['1']) == ['1'];
  }

  lemma OpenQuoteAndBreak()
    ensures BrokenInQuotes([QUOTE, '\n'])
  {
    var part := [QUOTE, '\n'];
    assert part[..1] == [QUOTE] && [QUOTE][..0] == [];
    assert TextMode([QUOTE]) == Quoted;
  }

  /** For instance, a message of one line break in its own cell, cut after two characters. */
  lemma OneLineBreakIsEnough() returns (c: Config, batch: Batch, k: nat)
    ensures ValidConfig(c) && AreRows(batch, c.cells) && k <= |EncodeRows(batch)| && BrokenInQuotes(EncodeRows(batch)[..k])
  {
    var row := EncodeCells([['\n'], ['1']]);
    c, batch, k := Config(EncodeCells([['m'], ['n']]), 2, None), [row], 2;
    EncodedIsRow([['\n'], ['1']]);
    EncodedIsRow([['m'], ['n']]);
    BrokenMessageRow();
    assert EncodeRows(batch) == EncodeRows([]) + EncodeRow(row);
    assert EncodeRows(batch)[..k] == [QUOTE, '\n'];
    OpenQuoteAndBreak();
  }

  // ---------------------------------------------------------------- The history, read from the directory

  /** A chapter's segment holds its acknowledged batches and whole rows of the failed one, and nothing else. */
  ghost predicate Tells(c: Config, text: string, ch: Chapter) {
    match ch.torn
    case None => text == EncodeRows(Lines(c, ch.batches))
    case Some(torn) => exists n :: Settled(text, Lines(c, ch.batches), torn, n)
  }

  /**
  While a journal is open, after any number of failures and recoveries, the segments in the order they were
  begun hold exactly the acknowledged batches, each in one segment and in order; besides, at most the first rows
  of one failed batch, at the end of the last segment of a session that failed.
  */
  lemma OneAppendOnlyLog(c: Config, t0: Time, events: seq<Event>, w: World)
    requires ValidConfig(c) && Reaches(c, Initial(t0), events, w) && w.live.Some?
    ensures AllBatches(w.chapters) == w.acknowledged
    ensures forall i :: 0 <= i < |w.chapters| ==>
              w.chapters[i].name in w.disk.segments && Tells(c, w.disk.segments[w.chapters[i].name].text, w.chapters[i])
    ensures forall n <- w.disk.segments :: !Named(w.chapters, n) ==> w.disk.segments[n].text == EncodeRow(c.header)
    ensures DistinctNames(w.chapters) && SessionsOk(w.chapters, w.session)
  {
    RunsKeep(c, t0, events, w);
    forall i | 0 <= i < |w.chapters|
      ensures w.chapters[i].name in w.disk.segments && Tells(c, w.disk.segments[w.chapters[i].name].text, w.chapters[i])
    {
      assert ChapterOk(c, w.disk, w.chapters[i]) && Settling(c, w.disk, w.chapters[i]);
    }
  }

  /** No segment longer than the limit was given more than one batch. */
  lemma LargeSegmentsHoldOneBatch(c: Config, t0: Time, events: seq<Event>, w: World, i: nat)
    requires ValidConfig(c) && Reaches(c, Initial(t0), events, w) && i < |w.chapters| && c.limit.Some?
    ensures w.chapters[i].name in w.disk.segments
    ensures |w.disk.segments[w.chapters[i].name].text| > c.limit.value ==> Attempts(w.chapters[i]) <= 1
  {
    RunsKeep(c, t0, events, w);
    var ch := w.chapters[i];
    assert ChapterOk(c, w.disk, ch) && SizeOk(c, ch);
    var text := w.disk.segments[ch.name].text;
    assert |text| <= Extent(c, ch);
  }

  /** A later date than the journal's, or a segment with batches that has no room for this one. */
  predicate Due(c: Config, w: World, batch: Batch, now: Time)
    requires w.live.Some? && w.chapters != [] && w.live.value.active in w.disk.segments
  {
    || Day(now) > w.live.value.date
    || (&& LastChapter(w).batches != [] && c.limit.Some?
        && |w.disk.segments[w.live.value.active].text| + |EncodeRows(batch)| > c.limit.value)
  }

  lemma RotatesIffDue(c: Config, w: World, batch: Batch, now: Time)
    requires JournalInv(c, w) && w.live.Some?
    ensures w.live.value.active in w.disk.segments
    ensures w.disk.segments[w.live.value.active] == Durable(w.disk.segments[w.live.value.active].text)
    ensures Rotates(c, w.live.value, batch, now) <==> Due(c, w, batch, now)
  {
    assert ChapterOk(c, w.disk, LastChapter(w));
  }

  /** A segment with room on its own date is kept: the batch is added to it and no other is touched. */
  lemma RoomIsUsed(c: Config, t0: Time, events: seq<Event>, w: World, batch: Batch, now: Time, name: Name)
    requires ValidConfig(c) && Reaches(c, Initial(t0), events, w) && w.live.Some? && batch != []
    requires Enabled(c, w, Append(batch, now, name, 2, 0))
    ensures w.live.value.active in w.disk.segments
    ensures !Due(c, w, batch, now) ==>
              var active, w' := w.live.value.active, Step(c, w, Append(batch, now, name, 2, 0));
              && w'.live.Some? && w'.live.value.active == active && w'.live.value.date == w.live.value.date
              && w'.disk == w.disk.(segments := w.disk.segments[active := Durable(w.disk.segments[active].text + EncodeRows(batch))])
  {
    RunsKeep(c, t0, events, w);
    RotatesIffDue(c, w, batch, now);
    WriteOutcomes(c, w.disk, w.live.value, batch, 2, 0);
  }

  /** Otherwise the batch begins a new segment, which is marked, and every other stays as it is. */
  lemma DueRotates(c: Config, t0: Time, events: seq<Event>, w: World, batch: Batch, now: Time, name: Name)
    requires ValidConfig(c) && Reaches(c, Initial(t0), events, w) && w.live.Some? && batch != []
    requires Enabled(c, w, Append(batch, now, name, 9, 0))
    ensures w.live.value.active in w.disk.segments
    ensures Due(c, w, batch, now) ==>
              var w' := Step(c, w, Append(batch, now, name, 9, 0));
              && w'.live.Some? && w'.live.value.active == name && w'.live.value.date == Max(w.live.value.date, Day(now))
              && w'.disk.segments == w.disk.segments[name := Durable(EncodeRow(c.header) + EncodeRows(batch))]
              && w'.disk.marker == Some(name)
  {
    RunsKeep(c, t0, events, w);
    RotatesIffDue(c, w, batch, now);
    if Due(c, w, batch, now) {
      RotationIsSafe(c, w, w.live.value, name, 7, 0);
      CreatedIsWritten(c, w, batch, now, name);
    }
  }

  lemma CreatedIsWritten(c: Config, w: World, batch: Batch, now: Time, name: Name)
    requires w.live.Some? && w.chapters != [] && batch != [] && Rotates(c, w.live.value, batch, now)
    requires PerformAll(c, w.disk, [SyncFile(w.live.value.active)] + CreatePlan(name)) == Created(c, w.disk, name)
    ensures var w' := AppendStep(c, w, w.live.value, batch, now, name, 9, 0);
            && w'.live.Some? && w'.live.value.active == name && w'.live.value.date == Max(w.live.value.date, Day(now))
            && w'.disk.segments == w.disk.segments[name := Durable(EncodeRow(c.header) + EncodeRows(batch))]
            && w'.disk.marker == Some(name)
  {
    var d, j := Created(c, w.disk, name), Rotated(c, w.live.value, batch, now, name);
    WriteOutcomes(c, d, j, batch, 2, 0);
    var text := EncodeRow(c.header) + EncodeRows(batch);
    assert w.disk.segments[name := HeaderOnly(c)][name := Durable(text)] == w.disk.segments[name := Durable(text)];
  }

  // ---------------------------------------------------------------- One date a segment

  predicate Onward(w: World, e: Event) {
    match e
    case Open(now, _, _, _) => now >= w.clock
    case Append(_, now, _, _, _) => now >= w.clock
    case _ => true
  }

  ghost predicate ReachesOnward(c: Config, w: World, events: seq<Event>, w': World)
    decreases |events|
  {
    if events == [] then w' == w
    else Enabled(c, w, events[0]) && Onward(w, events[0]) && ReachesOnward(c, Step(c, w, events[0]), events[1..], w')
  }

  predicate OneDate(ch: Chapter) {
    && |ch.days| == |ch.batches|
    && forall i, j :: 0 <= i < j < |ch.days| ==> ch.days[i] == ch.days[j]
  }

  predicate DatesOk(w: World) {
    && (forall i :: 0 <= i < |w.chapters| ==> OneDate(w.chapters[i]))
    && (w.live.Some? ==>
          && w.chapters != []
          && w.live.value.date <= Day(w.clock)
          && forall i :: 0 <= i < |LastChapter(w).days| ==> LastChapter(w).days[i] == w.live.value.date)
  }

  lemma StepKeepsDates(c: Config, w: World, e: Event)
    requires DatesOk(w) && Enabled(c, w, e) && Onward(w, e)
    ensures DatesOk(Step(c, w, e))
  {
    if e.Append? && e.batch != [] {
      AppendKeepsDates(c, w, w.live.value, e.batch, e.now, e.name, e.n, e.k);
    }
  }

  lemma AppendKeepsDates(c: Config, w: World, j: Journal, batch: Batch, now: Time, name: Name, n: nat, k: nat)
    requires DatesOk(w) && w.live == Some(j) && batch != [] && now >= w.clock
    ensures DatesOk(AppendStep(c, w, j, batch, now, name, n, k))
  {
    var t := Turned(c, w, j, batch, now, name);
    assert t.live.value.date == Day(now);
    assert LastChapter(t) == LastChapter(w) || LastChapter(t).days == [];
    assert forall i :: 0 <= i < |t.chapters| ==> OneDate(t.chapters[i]);
    if n >= |RotatePlan(c, j, batch, now, name)| {
      WriteKeepsDates(c, t, batch, now, n - |RotatePlan(c, j, batch, now, name)|, k);
    }
  }

  lemma WriteKeepsDates(c: Config, w: World, batch: Batch, now: Time, n: nat, k: nat)
    requires DatesOk(w) && w.live.Some? && w.live.value.date == Day(now) && now <= w.clock
    ensures DatesOk(WriteStep(c, w, batch, now, n, k))
  {
    var last := LastChapter(w);
    assert OneDate(last);
    var w' := WriteStep(c, w, batch, now, n, k);
    assert forall i :: 0 <= i < |w.chapters| - 1 ==> w'.chapters[i] == w.chapters[i];
    assert OneDate(LastChapter(w'));
  }

  lemma {:induction false} OnwardRunsKeepDates(c: Config, w: World, events: seq<Event>, w': World)
    requires DatesOk(w) && ReachesOnward(c, w, events, w')
    ensures DatesOk(w')
    decreases |events|
  {
    if events != [] {
      StepKeepsDates(c, w, events[0]);
      OnwardRunsKeepDates(c, Step(c, w, events[0]), events[1..], w');
    }
  }

  /** With a clock that never runs back all batches of a segment share one UTC date. */
  lemma SegmentsShareADate(c: Config, t0: Time, events: seq<Event>, w: World, i: nat)
    requires ReachesOnward(c, Initial(t0), events, w) && i < |w.chapters|
    ensures OneDate(w.chapters[i])
  {
    OnwardRunsKeepDates(c, Initial(t0), events, w);
  }

  // ---------------------------------------------------------------- The staging file

  /** What cutting a leftover staging file to nothing would leave. */
  function StagingCut(d: Disk): Disk {
    if d.staging.Linked? && d.staging.name in d.segments
    then d.(segments := d.segments[d.staging.name := Segment("", "", 0)])
    else d
  }

  /** At no point of any run would cutting the staging file touch a segment that was ever given a batch. */
  lemma StagingNeverHoldsEvents(c: Config, t0: Time, events: seq<Event>, w: World, i: nat)
    requires ValidConfig(c) && Reaches(c, Initial(t0), events, w) && i < |w.chapters|
    ensures w.chapters[i].name in w.disk.segments
    ensures StagingCut(w.disk).segments[w.chapters[i].name] == w.disk.segments[w.chapters[i].name]
  {
    RunsKeep(c, t0, events, w);
    assert ChapterOk(c, w.disk, w.chapters[i]);
    assert w.disk.staging in w.disk.olderStaging + {w.disk.staging};
  }
}
