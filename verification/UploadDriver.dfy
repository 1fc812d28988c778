/**
The NDT7 upload: one loop that receives measurements while it sends bulk frames, and closes with a
handshake. What the socket and the timer do next is given as a script of events.
*/
module UploadDriver {
  import opened Values

  const INITIAL_SIZE: nat := 8192
  const MAX_SIZE: nat := 1048576
  const SCALING_FRACTION: nat := 16
  const UPLOAD_MS: nat := 10_000
  const CLOSE_MS: nat := 2_000
  // ---------------------------------------------------------------- Measurements

  datatype Measurement = Measurement(bytes: nat, micros: nat)

  /** A parsed text message; each part may be missing. */
  datatype Wire = Wire(origin: Option<string>, test: Option<string>, bytes: Option<nat>, micros: Option<nat>)

  /** Only the server's own upload measurements of something count. */
  function Usable(w: Wire): (m: Option<Measurement>)
    ensures m.Some? ==> m.value.bytes > 0 && m.value.micros > 0
  {
    if (w.origin.Some? && w.origin.value != "server") || (w.test.Some? && w.test.value != "upload") then None
    else if w.bytes.None? || w.micros.None? || w.bytes.value == 0 || w.micros.value == 0 then None
    else Some(Measurement(w.bytes.value, w.micros.value))
  }

  predicate Advances(previous: Option<Measurement>, next: Measurement) {
    previous.None? || (next.micros > previous.value.micros && next.bytes >= previous.value.bytes)
  }

  function Retained(previous: Option<Measurement>, text: Option<Wire>): Option<Measurement> {
    var next := if text.Some? then Usable(text.value) else None;
    if next.Some? && Advances(previous, next.value) then next else previous
  }

  // ---------------------------------------------------------------- Frame sizes

  function NextSize(current: nat, total: nat): nat {
    if current >= MAX_SIZE || current >= total / SCALING_FRACTION then current else Min(current * 2, MAX_SIZE)
  }

  predicate IsFrameSize(size: nat) {
    INITIAL_SIZE <= size <= MAX_SIZE && exists k | 13 <= k <= 20 :: size == Power2(k)
  }

  /** At most an eighth of what was sent, once larger than the first. */
  predicate Proportionate(size: nat, sent: nat) {
    size == INITIAL_SIZE || 8 * size <= sent
  }

  lemma Powers()
    ensures Power2(13) == INITIAL_SIZE && Power2(20) == MAX_SIZE
  {
    assert Power2(4) == 16;
    assert Power2(8) == 256;
    assert Power2(12) == 4096;
    assert Power2(16) == 65536;
  }

  lemma {:induction false} PowersGrow(j: nat, k: nat)
    requires j <= k
    ensures Power2(j) <= Power2(k) && (j < k ==> Power2(j) < Power2(k))
    decreases k
  {
    if j < k {
      PowersGrow(j, k - 1);
    }
  }

  /** Doubling stays a power of two within bounds, and within proportion to what was sent. */
  lemma NextSizeFits(current: nat, total: nat)
    requires IsFrameSize(current) && Proportionate(current, total)
    ensures IsFrameSize(NextSize(current, total)) && Proportionate(NextSize(current, total), total)
  {
    var k :| 13 <= k <= 20 && current == Power2(k);
    Powers();
    if NextSize(current, total) != current {
      PowersGrow(k, 20);
      assert k < 20;
      PowersGrow(k + 1, 20);
      assert Power2(k + 1) == 2 * current;
    }
  }

  // ---------------------------------------------------------------- The loop, event by event

  datatype Kind =
    | DeadlineReached
    | Text(text: Option<Wire>)
    | PeerClose
    | OtherMessage
    | EndOfStream
    | Accepted
    | Flushed
    | TransportError

  datatype Event = Event(at: Time, kind: Kind)

  datatype Error = CloseTimeout | MissingClose | Transport

  datatype Stage = Upload | Cleanup

  /** What the caller is told along the way. */
  datatype Report = Report(measurement: Option<Measurement>, stage: Stage)

  datatype Outgoing = Bulk | Close | Nothing

  /** The loop's variables, and what it has done: frames the socket took, in order, and reports. */
  datatype State = State(
    now: Time,
    deadline: Time,
    closing: bool,
    sentBytes: nat,
    measurement: Option<Measurement>,
    size: nat,
    flushing: bool,
    closeQueued: bool,
    peerClosed: bool,
    bulk: seq<nat>,
    closes: nat,
    reports: seq<Report>,
    ended: bool,
    error: Option<Error>)

  function Begin(start: Time): State {
    State(start, start + UPLOAD_MS, false, 0, None, INITIAL_SIZE, false, false, false, [], 0, [], false, None)
  }

  function NextOutgoing(s: State): Outgoing {
    if !s.closing then Bulk else if !s.closeQueued then Close else Nothing
  }

  /**
  What can happen next: the timer goes off no later than `slack` after the deadline and takes precedence; the
  socket is flushed only while flushing, and takes a frame only when it is not and there is one.
  */
  predicate Possible(s: State, e: Event, slack: nat) {
    && !s.ended
    && s.now <= e.at <= s.deadline + slack
    && (e.kind.DeadlineReached? <==> e.at >= s.deadline)
    && (e.kind.Flushed? ==> s.flushing)
    && (e.kind.Accepted? ==> !s.flushing && NextOutgoing(s) != Nothing)
  }

  function End(s: State, error: Option<Error>): State { s.(ended := true, error := error) }

  function StartClosing(s: State): State {
    s.(closing := true, deadline := s.now + CLOSE_MS, reports := s.reports + [Report(s.measurement, Cleanup)])
  }

  function Step(before: State, e: Event): State {
    var s := before.(now := e.at);
    match e.kind
    case DeadlineReached => if s.closing then End(s, Some(CloseTimeout)) else StartClosing(s)
    case Text(text) =>
      var kept := Retained(s.measurement, text);
      s.(measurement := kept, reports := s.reports + [Report(kept, if s.closing then Cleanup else Upload)])
    case PeerClose =>
      (if s.closing then s else StartClosing(s)).(peerClosed := true, closeQueued := true, flushing := true)
    case OtherMessage => s
    case EndOfStream => End(s, if s.peerClosed then None else Some(MissingClose))
    case Accepted =>
      if s.closing then s.(flushing := true, closeQueued := true, closes := s.closes + 1)
      else s.(flushing := true, sentBytes := Min(s.sentBytes + s.size, U64_MAX), bulk := s.bulk + [s.size])
    case Flushed =>
      if s.closing then s.(flushing := false) else s.(flushing := false, size := NextSize(s.size, s.sentBytes))
    case TransportError => End(s, Some(Transport))
  }

  /** The state after a script; each event must be possible when it happens. */
  ghost predicate Plays(s: State, script: seq<Event>, s': State, slack: nat)
    decreases |script|
  {
    if script == [] then s' == s
    else Possible(s, script[0], slack) && Plays(Step(s, script[0]), script[1..], s', slack)
  }

  // ---------------------------------------------------------------- What every script keeps

  function Sum(frames: seq<nat>): nat {
    if frames == [] then 0 else Sum(frames[..|frames| - 1]) + frames[|frames| - 1]
  }

  lemma SumAppended(frames: seq<nat>, frame: nat)
    ensures Sum(frames + [frame]) == Sum(frames) + frame
  {
    assert (frames + [frame])[..|frames|] == frames;
  }

  /** The deadline is put off once, when closing begins. */
  predicate Timely(s: State, start: Time, slack: nat) {
    && start <= s.now <= s.deadline + slack
    && (if s.closing then s.deadline <= start + UPLOAD_MS + slack + CLOSE_MS else s.deadline == start + UPLOAD_MS)
  }

  /** One close frame at most, none but after closing began. */
  predicate ClosesOnce(s: State) {
    && s.closes <= 1
    && (s.closes == 1 ==> s.closing && s.closeQueued)
    && (s.peerClosed ==> s.closing && s.closeQueued)
    && (s.closeQueued ==> s.closing)
  }

  predicate Accounts(s: State) {
    && s.sentBytes == Min(Sum(s.bulk), U64_MAX)
    && IsFrameSize(s.size) && Proportionate(s.size, s.sentBytes)
    && forall i :: 0 <= i < |s.bulk| ==> IsFrameSize(s.bulk[i])
  }

  /** Reported measurements only move on; clean-up, once reported, is final. */
  predicate Reports(s: State) {
    && (forall i, j :: 0 <= i < j < |s.reports| ==> Follows(s.reports[i], s.reports[j]))
    && (forall i :: 0 <= i < |s.reports| ==> Follows(s.reports[i], Standing(s)))
  }

  /** What would be reported now. */
  function Standing(s: State): Report { Report(s.measurement, if s.closing then Cleanup else Upload) }

  predicate Follows(a: Report, b: Report) {
    && (a.stage == Cleanup ==> b.stage == Cleanup)
    && (a.measurement.Some? ==>
          && b.measurement.Some?
          && (a.measurement == b.measurement
              || (a.measurement.value.micros < b.measurement.value.micros
                  && a.measurement.value.bytes <= b.measurement.value.bytes)))
  }

  predicate Keeps(s: State, start: Time, slack: nat) {
    Timely(s, start, slack) && ClosesOnce(s) && Accounts(s) && Reports(s)
  }

  lemma StepKeepsTime(s: State, e: Event, start: Time, slack: nat)
    requires Timely(s, start, slack) && Possible(s, e, slack)
    ensures Timely(Step(s, e), start, slack)
  {
  }

  lemma StepKeepsCloses(s: State, e: Event, slack: nat)
    requires ClosesOnce(s) && Possible(s, e, slack)
    ensures ClosesOnce(Step(s, e))
  {
  }

  lemma OtherEventsCountNothing(s: State, e: Event)
    requires !e.kind.Flushed? && (e.kind.Accepted? ==> s.closing)
    ensures var t := Step(s, e); t.bulk == s.bulk && t.size == s.size && t.sentBytes == s.sentBytes
  {
  }

  lemma BulkCounts(s: State, e: Event)
    requires Accounts(s) && e.kind.Accepted? && !s.closing
    ensures Accounts(Step(s, e))
  {
    SumAppended(s.bulk, s.size);
    var t := Step(s, e);
    assert t.size == s.size && t.sentBytes >= s.sentBytes;
    assert t.bulk == s.bulk + [s.size];
  }

  lemma FlushSizes(s: State, e: Event)
    requires Accounts(s) && e.kind.Flushed?
    ensures Accounts(Step(s, e))
  {
    NextSizeFits(s.size, s.sentBytes);
  }

  lemma StepKeepsAccounts(s: State, e: Event)
    requires Accounts(s)
    ensures Accounts(Step(s, e))
  {
    if e.kind.Accepted? && !s.closing {
      BulkCounts(s, e);
    } else if e.kind.Flushed? {
      FlushSizes(s, e);
    } else {
      OtherEventsCountNothing(s, e);
    }
  }

  predicate ReportsOn(s: State, t: State) {
    && Follows(Standing(s), Standing(t))
    && (t.reports == s.reports || t.reports == s.reports + [Standing(t)])
  }

  lemma TextReports(s: State, e: Event)
    requires e.kind.Text?
    ensures ReportsOn(s, Step(s, e))
  {
  }

  lemma ClosingReports(s: State, e: Event)
    requires e.kind.PeerClose? || e.kind.DeadlineReached?
    ensures ReportsOn(s, Step(s, e))
  {
  }

  lemma QuietEvents(s: State, e: Event)
    requires !e.kind.Text? && !e.kind.PeerClose? && !e.kind.DeadlineReached?
    ensures var t := Step(s, e); t.reports == s.reports && Standing(t) == Standing(s)
  {
  }

  lemma StepReports(s: State, e: Event)
    ensures ReportsOn(s, Step(s, e))
  {
    if e.kind.Text? {
      TextReports(s, e);
    } else if e.kind.PeerClose? || e.kind.DeadlineReached? {
      ClosingReports(s, e);
    } else {
      QuietEvents(s, e);
    }
  }

  lemma FollowsOn(a: Report, b: Report, c: Report)
    requires Follows(a, b) && Follows(b, c)
    ensures Follows(a, c)
  {
  }

  lemma StepKeepsReports(s: State, e: Event)
    requires Reports(s)
    ensures Reports(Step(s, e))
  {
    var t := Step(s, e);
    var standing := Standing(t);
    StepReports(s, e);
    forall i | 0 <= i < |s.reports| ensures Follows(s.reports[i], standing) {
      FollowsOn(s.reports[i], Standing(s), standing);
    }
    assert Follows(standing, standing);
  }

  lemma {:induction false} ScriptsKeep(s: State, script: seq<Event>, s': State, start: Time, slack: nat)
    requires Keeps(s, start, slack) && Plays(s, script, s', slack)
    ensures Keeps(s', start, slack)
    decreases |script|
  {
    if script != [] {
      StepKeepsTime(s, script[0], start, slack);
      StepKeepsCloses(s, script[0], slack);
      StepKeepsAccounts(s, script[0]);
      StepKeepsReports(s, script[0]);
      ScriptsKeep(Step(s, script[0]), script[1..], s', start, slack);
    }
  }

  lemma BeginKeeps(start: Time, slack: nat)
    ensures Keeps(Begin(start), start, slack)
  {
    Powers();
  }

  // ---------------------------------------------------------------- Main results

  /** Whatever happens, nothing happens later than twelve seconds in, but for the timer's own delays. */
  lemma EndsInTwelveSeconds(start: Time, script: seq<Event>, s: State, slack: nat, next: Event)
    requires Plays(Begin(start), script, s, slack) && Possible(s, next, slack)
    ensures next.at <= start + 12_000 + 2 * slack
  {
    BeginKeeps(start, slack);
    ScriptsKeep(Begin(start), script, s, start, slack);
  }

  /**
  And a transfer left alone does end: from any point of any script the timer alone, going off at the deadlines, ends
  it within twelve seconds of its start, but for the delay of the deadlines already past.
  */
  lemma SilenceEndsIt(start: Time, script: seq<Event>, s: State, slack: nat) returns (rest: seq<Event>, s': State)
    requires Plays(Begin(start), script, s, slack)
    ensures Plays(s, rest, s', slack) && s'.ended && |rest| <= 2
    ensures forall e <- rest :: e.kind.DeadlineReached? && e.at <= start + 12_000 + 2 * slack
    ensures rest != [] ==> s'.error == Some(CloseTimeout)
  {
    BeginKeeps(start, slack);
    ScriptsKeep(Begin(start), script, s, start, slack);
    if s.ended {
      rest, s' := [], s;
    } else {
      var first := Event(Max(s.now, s.deadline), DeadlineReached);
      var s1 := Step(s, first);
      if s.closing {
        rest, s' := [first], s1;
        assert Plays(s1, [], s1, slack);
      } else {
        var second := Event(s1.deadline, DeadlineReached);
        var s2 := Step(s1, second);
        rest, s' := [first, second], s2;
        assert rest[1..] == [second] && [second][1..] == [];
        assert Plays(s2, [], s2, slack);
        assert Plays(s1, [second], s2, slack);
      }
    }
  }

  /** And not before its time: the timer begins the closing at ten seconds, */
  lemma UploadTakesTenSeconds(start: Time, script: seq<Event>, s: State, slack: nat, next: Event)
    requires Plays(Begin(start), script, s, slack) && Possible(s, next, slack)
    requires !s.closing && next.kind.DeadlineReached?
    ensures next.at >= start + 10_000 && Step(s, next).closing && !Step(s, next).ended
  {
    BeginKeeps(start, slack);
    ScriptsKeep(Begin(start), script, s, start, slack);
  }

  /** and ends it no sooner than two seconds after it began, however it began. */
  lemma {:induction false} ClosingTakesTwoSeconds(s: State, script: seq<Event>, s': State, slack: nat, next: Event, began: Time)
    requires s.closing && s.deadline == began + 2_000 && Plays(s, script, s', slack) && Possible(s', next, slack)
    ensures s'.closing && s'.deadline == began + 2_000
    ensures next.kind.DeadlineReached? ==> next.at >= began + 2_000 && Step(s', next).error == Some(CloseTimeout)
    decreases |script|
  {
    if script != [] {
      ClosingTakesTwoSeconds(Step(s, script[0]), script[1..], s', slack, next, began);
    }
  }

  lemma ClosingBegins(s: State, e: Event, slack: nat)
    requires Possible(s, e, slack) && !s.closing && Step(s, e).closing
    ensures (e.kind.DeadlineReached? || e.kind.PeerClose?) && Step(s, e).deadline == e.at + 2_000
    ensures Step(s, e).reports == s.reports + [Report(s.measurement, Cleanup)]
  {
  }

  /** A text of the server's own about the upload, with positive bytes and time. */
  predicate Measures(w: Wire, m: Measurement) {
    && w.bytes == Some(m.bytes) && w.micros == Some(m.micros) && m.bytes > 0 && m.micros > 0
    && (w.origin.Some? ==> w.origin.value == "server") && (w.test.Some? ==> w.test.value == "upload")
  }

  /** A text's measurement is retained exactly if it is one, is later than the last, and loses no bytes; each text is reported. */
  lemma TextIsRetained(s: State, e: Event)
    requires e.kind.Text?
    ensures var t := Step(s, e);
            && t.reports == s.reports + [Report(t.measurement, if s.closing then Cleanup else Upload)]
            && t == s.(now := e.at, measurement := t.measurement, reports := t.reports)
            && (forall m :: e.kind.text.Some? && Measures(e.kind.text.value, m)
                            && (s.measurement.Some? ==>
                                  m.micros > s.measurement.value.micros && m.bytes >= s.measurement.value.bytes)
                            ==> t.measurement == Some(m))
            && (t.measurement != s.measurement ==>
                  && t.measurement.Some? && e.kind.text.Some? && Measures(e.kind.text.value, t.measurement.value)
                  && (s.measurement.Some? ==>
                        t.measurement.value.micros > s.measurement.value.micros
                        && t.measurement.value.bytes >= s.measurement.value.bytes))
  {
  }

  /** A frame size doubles exactly if it is below the largest and sixteen frames more than one of its size were sent. */
  lemma SizeDoublesIff(current: nat, total: nat)
    requires IsFrameSize(current)
    ensures NextSize(current, total) ==
            if current < 1_048_576 && total >= 16 * (current + 1) then 2 * current else current
  {
    var k :| 13 <= k <= 20 && current == Power2(k);
    Powers();
    if current < MAX_SIZE {
      assert k < 20;
      PowersGrow(k + 1, 20);
      assert Power2(k + 1) == 2 * current;
    }
  }

  /** Bytes are counted exactly, up to saturation; every bulk frame is a power of two within bounds and in proportion. */
  lemma BytesAreCounted(start: Time, script: seq<Event>, s: State, slack: nat)
    requires Plays(Begin(start), script, s, slack)
    ensures s.sentBytes == Min(Sum(s.bulk), U64_MAX)
    ensures forall i :: 0 <= i < |s.bulk| ==> IsFrameSize(s.bulk[i])
    ensures s.size > INITIAL_SIZE ==> 8 * s.size <= s.sentBytes
    ensures s.closes <= 1
  {
    BeginKeeps(start, slack);
    ScriptsKeep(Begin(start), script, s, start, slack);
  }

  /** Retained measurements have strictly later times and at least as many bytes. */
  lemma MeasurementsAdvance(start: Time, script: seq<Event>, s: State, slack: nat, i: nat, j: nat)
    requires Plays(Begin(start), script, s, slack) && i < j < |s.reports| && s.reports[i].measurement.Some?
    ensures s.reports[j].measurement.Some?
    ensures var a, b := s.reports[i].measurement.value, s.reports[j].measurement.value;
            a == b || (a.micros < b.micros && a.bytes <= b.bytes)
    ensures s.reports[i].stage == Cleanup ==> s.reports[j].stage == Cleanup
  {
    BeginKeeps(start, slack);
    ScriptsKeep(Begin(start), script, s, start, slack);
    assert Follows(s.reports[i], s.reports[j]);
  }

  /** Once closing began no bulk frame is taken, and once the peer has closed nothing is. */
  lemma {:induction false} NoBulkAfterClosing(s: State, script: seq<Event>, s': State, slack: nat)
    requires s.closing && Plays(s, script, s', slack)
    ensures s'.closing && s'.bulk == s.bulk && s'.sentBytes == s.sentBytes && s'.size == s.size
    ensures s.closeQueued ==> s'.closeQueued && s'.closes == s.closes
    decreases |script|
  {
    if script != [] {
      NoBulkAfterClosing(Step(s, script[0]), script[1..], s', slack);
    }
  }

  /** Frames taken so far, of either sort. */
  function Frames(s: State): nat { |s.bulk| + s.closes }

  /** Between two frames that are taken there is a flush. */
  lemma {:induction false} OneFrameUnflushed(s: State, script: seq<Event>, s': State, slack: nat)
    requires s.flushing && Plays(s, script, s', slack)
    requires forall i :: 0 <= i < |script| ==> !script[i].kind.Flushed?
    ensures s'.flushing && Frames(s') == Frames(s)
    decreases |script|
  {
    if script != [] {
      assert !script[0].kind.Flushed?;
      assert forall i :: 0 <= i < |script[1..]| ==> script[1..][i] == script[i + 1];
      OneFrameUnflushed(Step(s, script[0]), script[1..], s', slack);
    }
  }

  lemma EndsHow(s: State, e: Event)
    requires !s.ended
    ensures var t := Step(s, e);
            && (t.ended ==> (t.error.None? <==> e.kind.EndOfStream? && s.peerClosed))
            && (!t.ended ==> t.peerClosed == (s.peerClosed || e.kind.PeerClose?))
  {
  }

  /** Success is exactly: the peer sent its close frame, then ended the stream. */
  lemma {:induction false} SuccessNeedsAClose(s: State, script: seq<Event>, s': State, slack: nat)
    requires !s.ended && Plays(s, script, s', slack) && s'.ended
    ensures script != []
    ensures s'.error.None? <==> script[|script| - 1].kind.EndOfStream? && (s.peerClosed || exists e <- script :: e.kind.PeerClose?)
    decreases |script|
  {
    var t := Step(s, script[0]);
    EndsHow(s, script[0]);
    assert script == [script[0]] + script[1..];
    if t.ended {
      assert script[1..] == [];
    } else {
      SuccessNeedsAClose(t, script[1..], s', slack);
    }
  }

  // ---------------------------------------------------------------- The loop itself

  datatype Transfer = Transfer(measurement: Option<Measurement>, error: Option<Error>)

  /** Runs until the script ends the transfer, or is used up. */
  method TransferUpload(start: Time, script: seq<Event>, slack: nat, ghost s': State)
    returns (ended: bool, transfer: Transfer, reports: seq<Report>)
    requires Plays(Begin(start), script, s', slack)
    ensures ended == s'.ended && transfer == Transfer(s'.measurement, s'.error) && reports == s'.reports
  {
    var deadline := start + UPLOAD_MS;
    var closing := false;
    var sentBytes: nat := 0;
    var measurement: Option<Measurement> := None;
    var size := INITIAL_SIZE;
    var flushing, closeQueued, peerClosed := false, false, false;
    var error: Option<Error> := None;
    ended, reports := false, [];
    var i := 0;
    ghost var s := Begin(start);
    while i < |script| && !ended
      invariant i <= |script| && Plays(s, script[i..], s', slack)
      invariant s == State(s.now, deadline, closing, sentBytes, measurement, size, flushing, closeQueued, peerClosed,
                           s.bulk, s.closes, reports, ended, error)
    {
      var e := script[i];
      s := Step(s, e);
      match e.kind {
        case DeadlineReached =>
          if closing {
            ended, error := true, Some(CloseTimeout);
          } else {
            closing := true;
            reports := reports + [Report(measurement, Cleanup)];
            deadline := e.at + CLOSE_MS;
          }
        case Text(text) =>
          var next := if text.Some? then Usable(text.value) else None;
          if next.Some? && Advances(measurement, next.value) {
            measurement := next;
          }
          reports := reports + [Report(measurement, if closing then Cleanup else Upload)];
        case PeerClose =>
          if !closing {
            closing := true;
            reports := reports + [Report(measurement, Cleanup)];
            deadline := e.at + CLOSE_MS;
          }
          peerClosed, closeQueued, flushing := true, true, true;
        case OtherMessage =>
        case EndOfStream =>
          ended, error := true, if peerClosed then None else Some(MissingClose);
        case Accepted =>
          flushing := true;
          if !closing {
            sentBytes := Min(sentBytes + size, U64_MAX);
          } else {
            closeQueued := true;
          }
        case Flushed =>
          flushing := false;
          if !closing {
            size := NextSize(size, sentBytes);
          }
        case TransportError =>
          ended, error := true, Some(Transport);
      }
      assert script[i..][1..] == script[i + 1..];
      i := i + 1;
    }
    transfer := Transfer(measurement, error);
  }
}
