/**
Redaction of credentials in free text: after each key not led by an alphanumeric character the value, up to
a delimiter, is replaced by a marker. Which characters are alphanumeric is a parameter.
*/
module Redaction {
  import opened Values

  const MARK := "[redacted]"

  const KEYS: seq<string> := ["access_token=", "api_key=", "authorization=", "token=", "key="]

  /** The characters with the Unicode property White_Space. */
  predicate IsWhitespace(c: char) {
    || '\U{0009}' <= c <= '\U{000D}' || c == ' ' || c == '\U{0085}' || c == '\U{00A0}' || c == '\U{1680}'
    || '\U{2000}' <= c <= '\U{200A}' || c == '\U{2028}' || c == '\U{2029}' || c == '\U{202F}' || c == '\U{205F}'
    || c == '\U{3000}'
  }

  predicate IsDelimiter(c: char) {
    IsWhitespace(c) || c == '&' || c == ',' || c == ';' || c == '"' || c == '\''
  }

  function Lower(c: char): char {
    if 'A' <= c <= 'Z' then (c as int + 32) as char else c
  }

  /** Lower-case letters and underscores, and one equals sign at the end. */
  predicate IsKey(key: string) {
    && |key| >= 2 && key[|key| - 1] == '='
    && forall i :: 0 <= i < |key| - 1 ==> 'a' <= key[i] <= 'z' || key[i] == '_'
  }

  // ---------------------------------------------------------------- Occurrences

  /** The key, in any case, at this position. */
  predicate At(s: string, key: string, p: nat) {
    p + |key| <= |s| && forall i :: 0 <= i < |key| ==> Lower(s[p + i]) == key[i]
  }

  predicate Led(s: string, p: nat, alnum: char -> bool)
    requires p <= |s|
  {
    p > 0 && alnum(s[p - 1])
  }

  /** The marker at this position, up to a delimiter or the end. */
  predicate Marked(s: string, q: nat) {
    && q + |MARK| <= |s| && s[q..q + |MARK|] == MARK
    && (q + |MARK| == |s| || IsDelimiter(s[q + |MARK|]))
  }

  predicate RedactedAt(s: string, key: string, p: nat, alnum: char -> bool)
    requires p <= |s|
  {
    At(s, key, p) && !Led(s, p, alnum) ==> Marked(s, p + |key|)
  }

  /** Every occurrence of the key that nothing alphanumeric leads is followed by exactly the marker. */
  predicate Redacted(s: string, key: string, alnum: char -> bool) {
    forall p :: 0 <= p <= |s| ==> RedactedAt(s, key, p, alnum)
  }

  /** The first occurrence from `from` on. */
  function Find(s: string, key: string, from: nat): (r: Option<nat>)
    requires from <= |s|
    ensures r.Some? ==> from <= r.value && r.value + |key| <= |s|
    decreases |s| - from
  {
    if At(s, key, from) then Some(from)
    else if from == |s| then None
    else Find(s, key, from + 1)
  }

  predicate NoneAt(s: string, key: string, from: nat, end: nat) {
    forall p :: from <= p < end ==> !At(s, key, p)
  }

  lemma {:induction false} FindFinds(s: string, key: string, from: nat)
    requires from <= |s|
    ensures match Find(s, key, from)
            case None => NoneAt(s, key, from, |s| + 1)
            case Some(start) => At(s, key, start) && NoneAt(s, key, from, start)
    decreases |s| - from
  {
    if !At(s, key, from) && from < |s| {
      FindFinds(s, key, from + 1);
    }
  }

  /** The first delimiter from `from` on, or the end. */
  function ValueEnd(s: string, from: nat): (end: nat)
    requires from <= |s|
    ensures from <= end <= |s|
    decreases |s| - from
  {
    if from == |s| || IsDelimiter(s[from]) then from else ValueEnd(s, from + 1)
  }

  lemma {:induction false} ValueEndIs(s: string, from: nat)
    requires from <= |s|
    ensures ValueEnd(s, from) < |s| ==> IsDelimiter(s[ValueEnd(s, from)])
    ensures forall i :: from <= i < ValueEnd(s, from) ==> !IsDelimiter(s[i])
    decreases |s| - from
  {
    if from < |s| && !IsDelimiter(s[from]) {
      ValueEndIs(s, from + 1);
    }
  }

  function Replaced(s: string, from: nat): string
    requires from <= |s|
  {
    s[..from] + MARK + s[ValueEnd(s, from)..]
  }

  // ---------------------------------------------------------------- The passes

  /** The text and the position to search on from. */
  datatype Cursor = Cursor(text: string, from: nat)

  /** Past the next occurrence, its value replaced unless something alphanumeric leads it. */
  function Next(s: string, key: string, from: nat, alnum: char -> bool): (r: Option<Cursor>)
    requires IsKey(key) && from <= |s|
    ensures r.Some? ==> r.value.from <= |r.value.text| && |r.value.text| - r.value.from < |s| - from
  {
    match Find(s, key, from)
    case None => None
    case Some(start) =>
      var valueStart := start + |key|;
      Some(if Led(s, start, alnum) then Cursor(s, valueStart) else Cursor(Replaced(s, valueStart), valueStart + |MARK|))
  }

  /** One key's pass over the text, from a position on. */
  function Pass(s: string, key: string, from: nat, alnum: char -> bool): string
    requires IsKey(key) && from <= |s|
    decreases |s| - from
  {
    var next := Next(s, key, from, alnum);
    if next.None? then s else Pass(next.value.text, key, next.value.from, alnum)
  }

  function PassAll(s: string, keys: seq<string>, alnum: char -> bool): string
    requires forall key <- keys :: IsKey(key)
  {
    if keys == [] then s
    else
      var last := keys[|keys| - 1];
      assert last in keys;
      Pass(PassAll(s, keys[..|keys| - 1], alnum), last, 0, alnum)
  }

  lemma KeysAreKeys()
    ensures forall key <- KEYS :: IsKey(key)
  {
  }

  function Sanitized(s: string, alnum: char -> bool): string {
    KeysAreKeys();
    PassAll(s, KEYS, alnum)
  }

  // ---------------------------------------------------------------- Why a pass is complete

  lemma KeysDoNotOverlap(s: string, key: string, p: nat, other: nat)
    requires IsKey(key) && At(s, key, p) && p < other < p + |key|
    ensures !At(s, key, other)
  {
    var j := p + |key| - 1 - other;
    assert Lower(s[p + (|key| - 1)]) == '=' && key[j] != '=';
    assert s[other + j] == s[p + (|key| - 1)];
  }

  lemma KeyCharacters(s: string, key: string, p: nat)
    requires IsKey(key) && At(s, key, p)
    ensures forall x :: p <= x < p + |key| ==> s[x] != '[' && s[x] != ']'
    ensures s[p + |key| - 1] == '='
  {
    forall x | p <= x < p + |key| ensures s[x] != '[' && s[x] != ']' {
      assert Lower(s[p + (x - p)]) == key[x - p];
    }
    assert Lower(s[p + (|key| - 1)]) == '=';
  }

  lemma MarkerCharacters(s: string, q: nat)
    requires q + |MARK| <= |s| && s[q..q + |MARK|] == MARK
    ensures s[q] == '[' && s[q + |MARK| - 1] == ']'
    ensures forall x :: q <= x < q + |MARK| ==> s[x] != '=' && !IsDelimiter(s[x])
  {
    assert forall i :: 0 <= i < |MARK| ==> MARK[i] != '=' && !IsDelimiter(MARK[i]);
    assert s[q + 0] == MARK[0] && s[q + (|MARK| - 1)] == MARK[|MARK| - 1];
    forall x | q <= x < q + |MARK| ensures s[x] != '=' && !IsDelimiter(s[x]) {
      assert s[x] == s[q..q + |MARK|][x - q] == MARK[x - q];
    }
  }

  /** No character of a key can be one of the marker's brackets, and the marker has no equals sign. */
  lemma KeysMissMarkers(s: string, key: string, p: nat, q: nat)
    requires IsKey(key) && At(s, key, p) && q + |MARK| <= |s| && s[q..q + |MARK|] == MARK
    ensures p + |key| <= q || q + |MARK| <= p
  {
    KeyCharacters(s, key, p);
    MarkerCharacters(s, q);
  }

  lemma KeysStartWithNoDelimiter(s: string, key: string, p: nat)
    requires IsKey(key) && At(s, key, p)
    ensures !IsDelimiter(s[p])
  {
    assert Lower(s[p + 0]) == key[0];
  }

  /** An occurrence in the text with a value replaced was there before, on one side of the value. */
  lemma ReplacedOccurrence(s: string, from: nat, key: string, p: nat)
    requires IsKey(key) && from <= |s| && At(Replaced(s, from), key, p)
    ensures || (p + |key| <= from && At(s, key, p))
            || (p > from + |MARK| && At(s, key, p - (from + |MARK|) + ValueEnd(s, from)))
  {
    var t := Replaced(s, from);
    var end := ValueEnd(s, from);
    ValueEndIs(s, from);
    assert t[from..from + |MARK|] == MARK;
    KeysMissMarkers(t, key, p, from);
    if p + |key| <= from {
      assert forall x :: p <= x < p + |key| ==> t[x] == s[x];
      forall i | 0 <= i < |key| ensures Lower(s[p + i]) == key[i] {
        assert Lower(t[p + i]) == key[i];
      }
    } else {
      KeysStartWithNoDelimiter(t, key, p);
      var before := p - (from + |MARK|) + end;
      forall i | 0 <= i < |key| ensures Lower(s[before + i]) == key[i] {
        assert t[p + i] == s[before + i];
        assert Lower(t[p + i]) == key[i];
      }
    }
  }

  /** A marker before another key's value stays; the value's own marker is replaced by itself. */
  lemma MarkedBefore(s: string, key: string, start: nat, q: nat)
    requires IsKey(key) && At(s, key, start) && Marked(s, q) && q <= start + |key|
    ensures Marked(Replaced(s, start + |key|), q)
  {
    var from := start + |key|;
    var t := Replaced(s, from);
    KeysMissMarkers(s, key, start, q);
    ValueEndIs(s, from);
    if q == from {
      assert t[q..q + |MARK|] == MARK;
    } else {
      assert forall i :: q <= i <= q + |MARK| ==> t[i] == s[i];
      assert t[q..q + |MARK|] == s[q..q + |MARK|];
    }
  }

  lemma Behind(head: string, tail: string, x: nat, n: nat)
    requires x + n <= |tail|
    ensures (head + tail)[|head| + x..|head| + x + n] == tail[x..x + n]
    ensures x + n < |tail| ==> (head + tail)[|head| + x + n] == tail[x + n]
  {
  }

  lemma MarkedBehind(head: string, tail: string, x: nat)
    requires Marked(tail, x)
    ensures Marked(head + tail, |head| + x)
  {
    Behind(head, tail, x, |MARK|);
  }

  lemma MarkedInTail(s: string, v: nat, q: nat)
    requires v <= q && Marked(s, q)
    ensures Marked(s[v..], q - v)
  {
    assert s[v..][q - v..q - v + |MARK|] == s[q..q + |MARK|];
  }

  lemma MarkedAfter(s: string, from: nat, q: nat)
    requires from <= |s| && ValueEnd(s, from) <= q && Marked(s, q)
    ensures Marked(Replaced(s, from), q - ValueEnd(s, from) + from + |MARK|)
  {
    MarkedInTail(s, ValueEnd(s, from), q);
    MarkedBehind(s[..from] + MARK, s[ValueEnd(s, from)..], q - ValueEnd(s, from));
  }

  lemma ReplacedStaysRedacted(s: string, other: string, start: nat, key: string, p: nat, alnum: char -> bool)
    requires IsKey(key) && IsKey(other) && At(s, other, start) && Redacted(s, key, alnum)
    requires var t := Replaced(s, start + |other|); At(t, key, p) && !Led(t, p, alnum)
    ensures Marked(Replaced(s, start + |other|), p + |key|)
  {
    var from := start + |other|;
    var t := Replaced(s, from);
    ReplacedOccurrence(s, from, key, p);
    if p + |key| <= from {
      assert p > 0 ==> t[p - 1] == s[p - 1];
      assert RedactedAt(s, key, p, alnum);
      MarkedBefore(s, other, start, p + |key|);
    } else {
      var before := p - (from + |MARK|) + ValueEnd(s, from);
      assert t[p - 1] == s[before - 1];
      assert RedactedAt(s, key, before, alnum);
      MarkedAfter(s, from, before + |key|);
    }
  }

  /** Redacting one value of any key keeps every other key redacted. */
  lemma ReplacingKeepsRedacted(s: string, other: string, start: nat, key: string, alnum: char -> bool)
    requires IsKey(key) && IsKey(other) && At(s, other, start) && Redacted(s, key, alnum)
    ensures Redacted(Replaced(s, start + |other|), key, alnum)
  {
    var t := Replaced(s, start + |other|);
    forall p | 0 <= p <= |t| ensures RedactedAt(t, key, p, alnum) {
      if At(t, key, p) && !Led(t, p, alnum) {
        ReplacedStaysRedacted(s, other, start, key, p, alnum);
      }
    }
  }

  lemma NextKeepsRedacted(s: string, other: string, from: nat, key: string, alnum: char -> bool)
    requires IsKey(key) && IsKey(other) && from <= |s| && Redacted(s, key, alnum)
    ensures var next := Next(s, other, from, alnum); next.Some? ==> Redacted(next.value.text, key, alnum)
  {
    FindFinds(s, other, from);
    var start := Find(s, other, from);
    if start.Some? && !Led(s, start.value, alnum) {
      ReplacingKeepsRedacted(s, other, start.value, key, alnum);
    }
  }

  lemma {:induction false} PassKeepsRedacted(s: string, other: string, from: nat, key: string, alnum: char -> bool)
    requires IsKey(key) && IsKey(other) && from <= |s| && Redacted(s, key, alnum)
    ensures Redacted(Pass(s, other, from, alnum), key, alnum)
    decreases |s| - from
  {
    var next := Next(s, other, from, alnum);
    NextKeepsRedacted(s, other, from, key, alnum);
    if next.Some? {
      PassKeepsRedacted(next.value.text, other, next.value.from, key, alnum);
    }
  }

  /** Everything before this position is redacted. */
  predicate RedactedBefore(s: string, key: string, from: nat, alnum: char -> bool) {
    forall p :: 0 <= p < from && p <= |s| ==> RedactedAt(s, key, p, alnum)
  }

  /** Past a led occurrence. */
  lemma SkippedBefore(s: string, key: string, from: nat, start: nat, alnum: char -> bool)
    requires IsKey(key) && from <= start <= |s| && RedactedBefore(s, key, from, alnum)
    requires At(s, key, start) && Led(s, start, alnum) && NoneAt(s, key, from, start)
    ensures RedactedBefore(s, key, start + |key|, alnum)
  {
    forall p | 0 <= p < start + |key| && p <= |s| ensures RedactedAt(s, key, p, alnum) {
      if p > start {
        KeysDoNotOverlap(s, key, start, p);
      }
    }
  }

  /** Past a redacted value. */
  lemma ReplacedBefore(s: string, key: string, from: nat, start: nat, alnum: char -> bool)
    requires IsKey(key) && from <= start <= |s| && RedactedBefore(s, key, from, alnum)
    requires At(s, key, start) && NoneAt(s, key, from, start)
    ensures RedactedBefore(Replaced(s, start + |key|), key, start + |key| + |MARK|, alnum)
  {
    var valueStart := start + |key|;
    var t := Replaced(s, valueStart);
    ValueEndIs(s, valueStart);
    forall p | 0 <= p < valueStart + |MARK| && p <= |t| ensures RedactedAt(t, key, p, alnum) {
      if At(t, key, p) && !Led(t, p, alnum) {
        ReplacedOccurrence(s, valueStart, key, p);
        assert p > 0 ==> t[p - 1] == s[p - 1];
        if p < start {
          assert RedactedAt(s, key, p, alnum);
          MarkedBefore(s, key, start, p + |key|);
        } else {
          assert t[valueStart..valueStart + |MARK|] == MARK;
        }
      }
    }
  }

  /** What is behind the cursor is redacted; when nothing is ahead, everything is. */
  lemma NextRedacts(s: string, key: string, from: nat, alnum: char -> bool)
    requires IsKey(key) && from <= |s| && RedactedBefore(s, key, from, alnum)
    ensures match Next(s, key, from, alnum)
            case None => Redacted(s, key, alnum)
            case Some(next) => RedactedBefore(next.text, key, next.from, alnum)
  {
    FindFinds(s, key, from);
    match Find(s, key, from) {
      case None =>
      case Some(start) =>
        if Led(s, start, alnum) {
          SkippedBefore(s, key, from, start, alnum);
        } else {
          ReplacedBefore(s, key, from, start, alnum);
        }
    }
  }

  lemma {:induction false} PassRedacts(s: string, key: string, from: nat, alnum: char -> bool)
    requires IsKey(key) && from <= |s| && RedactedBefore(s, key, from, alnum)
    ensures Redacted(Pass(s, key, from, alnum), key, alnum)
    decreases |s| - from
  {
    var next := Next(s, key, from, alnum);
    NextRedacts(s, key, from, alnum);
    if next.Some? {
      PassRedacts(next.value.text, key, next.value.from, alnum);
    }
  }

  lemma {:induction false} PassAllRedacts(s: string, keys: seq<string>, key: string, alnum: char -> bool)
    requires (forall k <- keys :: IsKey(k)) && key in keys
    ensures Redacted(PassAll(s, keys, alnum), key, alnum)
    decreases |keys|
  {
    var front, last := keys[..|keys| - 1], keys[|keys| - 1];
    assert keys == front + [last];
    var t := PassAll(s, front, alnum);
    if key == last {
      PassRedacts(t, key, 0, alnum);
    } else {
      PassAllRedacts(s, front, key, alnum);
      PassKeepsRedacted(t, last, 0, key, alnum);
    }
  }

  /** Complete: no later key undoes an earlier one. */
  lemma SanitizedIsRedacted(s: string, key: string, alnum: char -> bool)
    requires key in KEYS
    ensures Redacted(Sanitized(s, alnum), key, alnum)
  {
    KeysAreKeys();
    PassAllRedacts(s, KEYS, key, alnum);
  }

  // ---------------------------------------------------------------- Why a second application changes nothing

  lemma ReplacedByItself(s: string, from: nat)
    requires Marked(s, from)
    ensures Replaced(s, from) == s
  {
    MarkerCharacters(s, from);
    ValueEndIs(s, from);
    assert ValueEnd(s, from) == from + |MARK|;
    assert s == s[..from] + s[from..from + |MARK|] + s[from + |MARK|..];
  }

  lemma NextOverRedacted(s: string, key: string, from: nat, alnum: char -> bool)
    requires IsKey(key) && from <= |s| && Redacted(s, key, alnum)
    ensures var next := Next(s, key, from, alnum); next.Some? ==> next.value.text == s
  {
    FindFinds(s, key, from);
    var start := Find(s, key, from);
    if start.Some? && !Led(s, start.value, alnum) {
      assert RedactedAt(s, key, start.value, alnum);
      ReplacedByItself(s, start.value + |key|);
    }
  }

  lemma {:induction false} PassOverRedacted(s: string, key: string, from: nat, alnum: char -> bool)
    requires IsKey(key) && from <= |s| && Redacted(s, key, alnum)
    ensures Pass(s, key, from, alnum) == s
    decreases |s| - from
  {
    var next := Next(s, key, from, alnum);
    NextOverRedacted(s, key, from, alnum);
    if next.Some? {
      PassOverRedacted(s, key, next.value.from, alnum);
    }
  }

  lemma {:induction false} PassAllOverRedacted(s: string, keys: seq<string>, alnum: char -> bool)
    requires forall k <- keys :: IsKey(k) && Redacted(s, k, alnum)
    ensures PassAll(s, keys, alnum) == s
    decreases |keys|
  {
    if keys != [] {
      assert keys[|keys| - 1] in keys;
      PassAllOverRedacted(s, keys[..|keys| - 1], alnum);
      PassOverRedacted(s, keys[|keys| - 1], 0, alnum);
    }
  }

  /** A text is left alone exactly when every key in it is already redacted. */
  lemma UnchangedIffRedacted(s: string, alnum: char -> bool)
    ensures Sanitized(s, alnum) == s <==> forall key <- KEYS :: Redacted(s, key, alnum)
  {
    KeysAreKeys();
    forall key <- KEYS ensures Redacted(Sanitized(s, alnum), key, alnum) {
      SanitizedIsRedacted(s, key, alnum);
    }
    if forall key <- KEYS :: Redacted(s, key, alnum) {
      PassAllOverRedacted(s, KEYS, alnum);
    }
  }

  lemma Idempotent(s: string, alnum: char -> bool)
    ensures Sanitized(Sanitized(s, alnum), alnum) == Sanitized(s, alnum)
  {
    forall key <- KEYS ensures Redacted(Sanitized(s, alnum), key, alnum) {
      SanitizedIsRedacted(s, key, alnum);
    }
    UnchangedIffRedacted(Sanitized(s, alnum), alnum);
  }

  // ---------------------------------------------------------------- Why nothing else is touched

  predicate EndsInKey(keys: seq<string>, segment: string, p: nat) {
    exists key <- keys :: |key| <= p <= |segment| && At(segment, key, p - |key|)
  }

  /** A stretch between delimiters is kept, or all after one of its keys is replaced. */
  predicate KeptOrCut(keys: seq<string>, before: string, after: string) {
    before == after || exists p: nat | p <= |before| :: after == before[..p] + MARK && EndsInKey(keys, before, p)
  }

  /** Delimiters stay where they are between stretches; each stretch is kept or cut after a key. */
  predicate OnlyValuesReplaced(keys: seq<string>, before: string, after: string)
    decreases |before|
  {
    var i, j := ValueEnd(before, 0), ValueEnd(after, 0);
    && KeptOrCut(keys, before[..i], after[..j])
    && (i == |before| <==> j == |after|)
    && (i < |before| && j < |after| ==> before[i] == after[j] && OnlyValuesReplaced(keys, before[i + 1..], after[j + 1..]))
  }

  lemma {:induction false} UntouchedIsFine(keys: seq<string>, s: string)
    ensures OnlyValuesReplaced(keys, s, s)
    decreases |s|
  {
    if ValueEnd(s, 0) < |s| {
      UntouchedIsFine(keys, s[ValueEnd(s, 0) + 1..]);
    }
  }

  lemma {:induction false} StretchEnd(s: string, from: nat, end: nat)
    requires from <= end <= |s| && (forall i :: from <= i < end ==> !IsDelimiter(s[i])) && (end < |s| ==> IsDelimiter(s[end]))
    ensures ValueEnd(s, from) == end
    decreases end - from
  {
    if from < end {
      StretchEnd(s, from + 1, end);
    }
  }

  lemma KeyHasNoDelimiter(s: string, key: string, p: nat)
    requires IsKey(key) && At(s, key, p)
    ensures forall x :: p <= x < p + |key| ==> !IsDelimiter(s[x])
  {
    forall x | p <= x < p + |key| ensures !IsDelimiter(s[x]) {
      assert Lower(s[p + (x - p)]) == key[x - p];
    }
  }

  predicate NoDelimiter(s: string) { forall x :: 0 <= x < |s| ==> !IsDelimiter(s[x]) }

  /** A stretch, and what follows it. */
  lemma StretchOf(a: string, rest: string)
    requires NoDelimiter(a) && (rest != [] ==> IsDelimiter(rest[0]))
    ensures ValueEnd(a + rest, 0) == |a| && (a + rest)[..|a|] == a
    ensures rest != [] ==> (a + rest)[|a| + 1..] == rest[1..]
  {
    assert forall x :: 0 <= x < |a| ==> (a + rest)[x] == a[x];
    StretchEnd(a + rest, 0, |a|);
  }

  lemma JoinStretch(keys: seq<string>, a: string, b: string, rest: string)
    requires NoDelimiter(a) && NoDelimiter(b) && (rest != [] ==> IsDelimiter(rest[0])) && KeptOrCut(keys, a, b)
    ensures OnlyValuesReplaced(keys, a + rest, b + rest)
  {
    StretchOf(a, rest);
    StretchOf(b, rest);
    if rest != [] {
      UntouchedIsFine(keys, rest[1..]);
    }
  }

  lemma MarkedStretch(a: string, from: nat)
    requires NoDelimiter(a) && from <= |a|
    ensures NoDelimiter(a[..from] + MARK)
  {
    MarkHasNoDelimiter();
  }

  lemma ReplacedInStretch(a: string, rest: string, from: nat)
    requires NoDelimiter(a) && from <= |a| && (rest != [] ==> IsDelimiter(rest[0]))
    ensures Replaced(a + rest, from) == a[..from] + MARK + rest
  {
    var s := a + rest;
    assert forall x :: 0 <= x < |a| ==> s[x] == a[x];
    StretchEnd(s, from, |a|);
    assert s[..from] == a[..from] && s[|a|..] == rest;
  }

  lemma CutOfStretch(keys: seq<string>, a: string, from: nat)
    requires from <= |a| && EndsInKey(keys, a, from)
    ensures KeptOrCut(keys, a, a[..from] + MARK)
  {
  }

  lemma StretchAndRest(s: string) returns (a: string, rest: string)
    ensures s == a + rest && |a| == ValueEnd(s, 0) && NoDelimiter(a) && (rest != [] ==> IsDelimiter(rest[0]))
  {
    ValueEndIs(s, 0);
    a, rest := s[..ValueEnd(s, 0)], s[ValueEnd(s, 0)..];
  }

  lemma CutInFirstStretch(keys: seq<string>, s: string, key: string, start: nat)
    requires key in keys && At(s, key, start) && start + |key| <= ValueEnd(s, 0)
    ensures OnlyValuesReplaced(keys, s, Replaced(s, start + |key|))
  {
    var a, rest := StretchAndRest(s);
    CutStretch(keys, a, s, key, start);
    CutOfStretch(keys, a, start + |key|);
    MarkedStretch(a, start + |key|);
    JoinStretch(keys, a, a[..start + |key|] + MARK, rest);
    ReplacedInStretch(a, rest, start + |key|);
  }

  lemma CutStretch(keys: seq<string>, stretch: string, s: string, key: string, start: nat)
    requires key in keys && At(s, key, start) && start + |key| <= |stretch| && stretch <= s
    ensures EndsInKey(keys, stretch, start + |key|)
  {
    assert At(stretch, key, start);
  }

  lemma MarkHasNoDelimiter()
    ensures forall x :: 0 <= x < |MARK| ==> !IsDelimiter(MARK[x]) && MARK[x] != '='
  {
  }

  lemma AtLater(s: string, key: string, start: nat, i: nat)
    requires At(s, key, start) && i < start
    ensures At(s[i + 1..], key, start - i - 1)
  {
    var rest := s[i + 1..];
    forall x | 0 <= x < |key| ensures Lower(rest[start - i - 1 + x]) == key[x] {
      assert rest[start - i - 1 + x] == s[start + x];
    }
  }

  lemma Beyond(a: string, c: char, rest: string, x: nat)
    requires x <= |rest|
    ensures var s := a + [c] + rest; s[..|a| + 1 + x] == a + [c] + rest[..x] && s[|a| + 1 + x..] == rest[x..]
    ensures x < |rest| ==> (a + [c] + rest)[|a| + 1 + x] == rest[x]
  {
  }

  lemma {:induction false} ValueEndBeyond(a: string, c: char, rest: string, from: nat)
    requires from <= |rest|
    ensures ValueEnd(a + [c] + rest, |a| + 1 + from) == |a| + 1 + ValueEnd(rest, from)
    decreases |rest| - from
  {
    Beyond(a, c, rest, from);
    if from < |rest| {
      ValueEndBeyond(a, c, rest, from + 1);
    }
  }

  /** Replacing a value beyond the first stretch leaves that stretch and its delimiter alone. */
  lemma LaterStretchReplaced(a: string, c: char, rest: string, from: nat)
    requires from <= |rest|
    ensures Replaced(a + [c] + rest, |a| + 1 + from) == a + [c] + Replaced(rest, from)
  {
    ValueEndBeyond(a, c, rest, from);
    Beyond(a, c, rest, from);
    Beyond(a, c, rest, ValueEnd(rest, from));
    Regroup(a + [c], rest[..from], rest[ValueEnd(rest, from)..]);
  }

  lemma Regroup(head: string, kept: string, after: string)
    ensures head + kept + MARK + after == head + (kept + MARK + after)
  {
  }

  lemma OneStretch(keys: seq<string>, s: string, t: string, i: nat, j: nat)
    requires ValueEnd(s, 0) == i < |s| && ValueEnd(t, 0) == j < |t|
    requires KeptOrCut(keys, s[..i], t[..j]) && s[i] == t[j]
    ensures OnlyValuesReplaced(keys, s[i + 1..], t[j + 1..]) ==> OnlyValuesReplaced(keys, s, t)
  {
  }

  lemma FirstStretch(a: string, c: char, rest: string)
    requires NoDelimiter(a) && IsDelimiter(c)
    ensures var s := a + [c] + rest;
            ValueEnd(s, 0) == |a| && s[..|a|] == a && s[|a|] == c && s[|a| + 1..] == rest
  {
    StretchOf(a, [c] + rest);
    assert a + ([c] + rest) == a + [c] + rest;
    assert ([c] + rest)[1..] == rest;
  }

  lemma PrependStretch(keys: seq<string>, a: string, c: char, before: string, after: string, s: string, t: string)
    requires NoDelimiter(a) && IsDelimiter(c) && s == a + [c] + before && t == a + [c] + after
    ensures OnlyValuesReplaced(keys, before, after) ==> OnlyValuesReplaced(keys, s, t)
  {
    FirstStretch(a, c, before);
    FirstStretch(a, c, after);
    OneStretch(keys, s, t, |a|, |a|);
  }

  lemma FirstDelimiter(s: string) returns (a: string, c: char, rest: string)
    requires ValueEnd(s, 0) < |s|
    ensures s == a + [c] + rest && |a| == ValueEnd(s, 0) && NoDelimiter(a) && IsDelimiter(c) && rest == s[|a| + 1..]
  {
    ValueEndIs(s, 0);
    a, c, rest := s[..ValueEnd(s, 0)], s[ValueEnd(s, 0)], s[ValueEnd(s, 0) + 1..];
  }

  /** A key does not reach across a delimiter. */
  lemma KeyInOneStretch(s: string, key: string, start: nat)
    requires IsKey(key) && At(s, key, start) && start + |key| > ValueEnd(s, 0)
    ensures ValueEnd(s, 0) < start
  {
    ValueEndIs(s, 0);
    KeyHasNoDelimiter(s, key, start);
  }

  lemma KeyLater(s: string, key: string, start: nat) returns (rest: string, later: nat)
    requires IsKey(key) && At(s, key, start) && start + |key| > ValueEnd(s, 0)
    ensures ValueEnd(s, 0) < |s| && rest == s[ValueEnd(s, 0) + 1..] && start == ValueEnd(s, 0) + 1 + later
    ensures At(rest, key, later) && later + |key| <= |rest|
  {
    KeyInOneStretch(s, key, start);
    AtLater(s, key, start, ValueEnd(s, 0));
    rest, later := s[ValueEnd(s, 0) + 1..], start - ValueEnd(s, 0) - 1;
  }

  lemma LaterValueReplaced(keys: seq<string>, s: string, rest: string, from: nat, later: nat)
    requires ValueEnd(s, 0) < |s| && rest == s[ValueEnd(s, 0) + 1..] && later <= |rest| && from == ValueEnd(s, 0) + 1 + later
    ensures OnlyValuesReplaced(keys, rest, Replaced(rest, later)) ==> OnlyValuesReplaced(keys, s, Replaced(s, from))
  {
    var a, c, tail := FirstDelimiter(s);
    LaterStretchReplaced(a, c, rest, later);
    PrependStretch(keys, a, c, rest, Replaced(rest, later), s, Replaced(s, from));
  }

  /** One value replaced, in a text cut at its first delimiter or not. */
  lemma {:induction false} ReplacedTouchesOneValue(keys: seq<string>, s: string, key: string, start: nat)
    requires IsKey(key) && key in keys && At(s, key, start)
    ensures OnlyValuesReplaced(keys, s, Replaced(s, start + |key|))
    decreases |s|
  {
    if start + |key| <= ValueEnd(s, 0) {
      CutInFirstStretch(keys, s, key, start);
    } else {
      var rest, later := KeyLater(s, key, start);
      ReplacedTouchesOneValue(keys, rest, key, later);
      LaterValueReplaced(keys, s, rest, start + |key|, later + |key|);
    }
  }

  lemma KeyWithinKept(keys: seq<string>, a: string, p: nat, q: nat)
    requires (forall k <- keys :: IsKey(k)) && p <= |a| && EndsInKey(keys, a[..p] + MARK, q)
    ensures q <= p && EndsInKey(keys, a, q)
  {
    var b := a[..p] + MARK;
    var key :| key in keys && |key| <= q <= |b| && At(b, key, q - |key|);
    KeyCharacters(b, key, q - |key|);
    MarkHasNoDelimiter();
    assert forall x :: p <= x < |b| ==> b[x] == MARK[x - p];
    assert q <= p;
    KeyOfPrefix(a, b, key, q - |key|);
  }

  lemma KeyOfPrefix(a: string, b: string, key: string, start: nat)
    requires At(b, key, start) && start + |key| <= |a| && a[..start + |key|] == b[..start + |key|]
    ensures At(a, key, start)
  {
    forall x | 0 <= x < |key| ensures Lower(a[start + x]) == key[x] {
      assert a[start + x] == a[..start + |key|][start + x] == b[start + x];
    }
  }

  lemma PrefixOfKept(a: string, p: nat, q: nat)
    requires q <= p <= |a|
    ensures (a[..p] + MARK)[..q] == a[..q]
  {
  }

  lemma CutTwice(keys: seq<string>, a: string, b: string, c: string)
    requires (forall k <- keys :: IsKey(k)) && KeptOrCut(keys, a, b) && KeptOrCut(keys, b, c)
    ensures KeptOrCut(keys, a, c)
  {
    if a != b && b != c {
      var p: nat :| p <= |a| && b == a[..p] + MARK && EndsInKey(keys, a, p);
      var q: nat :| q <= |b| && c == b[..q] + MARK && EndsInKey(keys, b, q);
      KeyWithinKept(keys, a, p, q);
      PrefixOfKept(a, p, q);
      CutOfStretch(keys, a, q);
    }
  }

  lemma {:induction false} ReplacedTwice(keys: seq<string>, a: string, b: string, c: string)
    requires (forall k <- keys :: IsKey(k)) && OnlyValuesReplaced(keys, a, b) && OnlyValuesReplaced(keys, b, c)
    ensures OnlyValuesReplaced(keys, a, c)
    decreases |a|
  {
    var i, j, k := ValueEnd(a, 0), ValueEnd(b, 0), ValueEnd(c, 0);
    CutTwice(keys, a[..i], b[..j], c[..k]);
    if i < |a| {
      ReplacedTwice(keys, a[i + 1..], b[j + 1..], c[k + 1..]);
    }
  }

  lemma NextText(s: string, key: string, from: nat, alnum: char -> bool) returns (start: nat)
    requires IsKey(key) && from <= |s| && Next(s, key, from, alnum).Some?
    ensures At(s, key, start)
    ensures var text := Next(s, key, from, alnum).value.text; text == s || text == Replaced(s, start + |key|)
  {
    FindFinds(s, key, from);
    start := Find(s, key, from).value;
  }

  lemma NextOnlyReplacesValues(keys: seq<string>, s: string, key: string, from: nat, alnum: char -> bool)
    requires IsKey(key) && key in keys && from <= |s|
    ensures var next := Next(s, key, from, alnum); next.Some? ==> OnlyValuesReplaced(keys, s, next.value.text)
  {
    if Next(s, key, from, alnum).Some? {
      var start := NextText(s, key, from, alnum);
      var text := Next(s, key, from, alnum).value.text;
      if text == s {
        UntouchedIsFine(keys, s);
      } else {
        ReplacedTouchesOneValue(keys, s, key, start);
      }
    }
  }

  lemma {:induction false} PassOnlyReplacesValues(keys: seq<string>, s: string, key: string, from: nat, alnum: char -> bool)
    requires (forall k <- keys :: IsKey(k)) && key in keys && from <= |s|
    ensures OnlyValuesReplaced(keys, s, Pass(s, key, from, alnum))
    decreases |s| - from
  {
    var next := Next(s, key, from, alnum);
    NextOnlyReplacesValues(keys, s, key, from, alnum);
    if next.None? {
      UntouchedIsFine(keys, s);
    } else {
      PassOnlyReplacesValues(keys, next.value.text, key, next.value.from, alnum);
      ReplacedTwice(keys, s, next.value.text, Pass(s, key, from, alnum));
    }
  }

  lemma {:induction false} PassesOnlyReplaceValues(keys: seq<string>, s: string, some: seq<string>, alnum: char -> bool)
    requires (forall k <- keys :: IsKey(k)) && forall k <- some :: k in keys
    ensures OnlyValuesReplaced(keys, s, PassAll(s, some, alnum))
    decreases |some|
  {
    if some == [] {
      UntouchedIsFine(keys, s);
    } else {
      var front, last := some[..|some| - 1], some[|some| - 1];
      assert last in some;
      PassesOnlyReplaceValues(keys, s, front, alnum);
      PassOnlyReplacesValues(keys, PassAll(s, front, alnum), last, 0, alnum);
      ReplacedTwice(keys, s, PassAll(s, front, alnum), PassAll(s, some, alnum));
    }
  }

  /** Nothing but what follows a key, up to the next delimiter, is ever replaced; all else stays in place. */
  lemma SanitizedKeepsTheRest(s: string, alnum: char -> bool)
    ensures OnlyValuesReplaced(KEYS, s, Sanitized(s, alnum))
  {
    KeysAreKeys();
    PassesOnlyReplaceValues(KEYS, s, KEYS, alnum);
  }

  // ---------------------------------------------------------------- The loops

  /** One key's loop: the text is edited in place, and what is left to search gets strictly shorter. */
  method SanitizeKey(value: string, key: string, alnum: char -> bool) returns (sanitized: string)
    requires IsKey(key)
    ensures sanitized == Pass(value, key, 0, alnum)
  {
    sanitized := value;
    var searchFrom: nat := 0;
    while true
      invariant searchFrom <= |sanitized|
      invariant Pass(sanitized, key, searchFrom, alnum) == Pass(value, key, 0, alnum)
      decreases |sanitized| - searchFrom
    {
      var found := Find(sanitized, key, searchFrom);
      if found.None? {
        break;
      }
      var start := found.value;
      var valueStart := start + |key|;
      if Led(sanitized, start, alnum) {
        searchFrom := valueStart;
        continue;
      }
      sanitized := Replaced(sanitized, valueStart);
      searchFrom := valueStart + |MARK|;
    }
  }

  /** Key by key. */
  method Sanitize(value: string, alnum: char -> bool) returns (sanitized: string)
    ensures sanitized == Sanitized(value, alnum)
  {
    KeysAreKeys();
    sanitized := value;
    var k := 0;
    while k < |KEYS|
      invariant k <= |KEYS| && sanitized == PassAll(value, KEYS[..k], alnum)
    {
      sanitized := SanitizeKey(sanitized, KEYS[k], alnum);
      assert KEYS[..k + 1][..k] == KEYS[..k];
      k := k + 1;
    }
    assert KEYS[..k] == KEYS;
  }
}
