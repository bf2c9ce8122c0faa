/** The two-pass JSONL reader: every line is bounded before any record is built
    (scripts/review_gpu_evidence_publication.py:224-257).  The JSON reader is a parameter. */
module JsonLines {
  import opened Wrappers

  type Bytes = seq<bv8>

  const LF: bv8 := 10
  const CR: bv8 := 13
  const MAX_LINE: nat := 8_388_608
  const MAX_RECORDS: nat := 1_000_000

  /** A line's text is content[first..last]; the next line starts at `next`. */
  datatype Span = Span(first: nat, last: nat, next: nat)

  // ---- Specification: what the lines of a byte string are -------------------------------

  predicate Terminator(t: Bytes) { t == [] || t == [CR] || t == [LF] || t == [CR, LF] }

  /** A line in place: its text holds no line feed, what follows is a terminator, and only
      the last line may go without a line feed. */
  predicate IsLine(content: Bytes, s: Span) {
    && s.first <= s.last <= s.next <= |content| && s.first < s.next
    && LF !in content[s.first..s.last]
    && Terminator(content[s.last..s.next])
    && (s.next < |content| ==> content[s.next - 1] == LF)
    && (s.first < s.last && content[s.last - 1] == CR ==> s.last < s.next && content[s.last] == CR)
  }

  /** Spans that follow on each other from `start` to `end`. */
  predicate Chained(spans: seq<Span>, start: nat, end: nat) {
    if spans == [] then start == end
    else spans[0].first == start && Chained(spans[1..], spans[0].next, end)
  }

  /** The lines of content: adjacent from the first byte to the last. */
  predicate IsSplit(content: Bytes, spans: seq<Span>) {
    Chained(spans, 0, |content|) && forall i :: 0 <= i < |spans| ==> IsLine(content, spans[i])
  }

  predicate Bounded(spans: seq<Span>) {
    |spans| <= MAX_RECORDS && forall i :: 0 <= i < |spans| ==> 1 <= spans[i].last - spans[i].first <= MAX_LINE
  }

  /** The text and the terminators rejoin to the content. */
  function Rejoined(content: Bytes, spans: seq<Span>): Bytes
    requires forall i :: 0 <= i < |spans| ==> IsLine(content, spans[i])
  {
    if spans == [] then []
    else
      assert IsLine(content, spans[0]);
      content[spans[0].first..spans[0].last] + content[spans[0].last..spans[0].next] + Rejoined(content, spans[1..])
  }

  lemma {:induction false} RejoinedFrom(content: Bytes, spans: seq<Span>, start: nat)
    requires start <= |content| && Chained(spans, start, |content|)
    requires forall i :: 0 <= i < |spans| ==> IsLine(content, spans[i])
    ensures Rejoined(content, spans) == content[start..]
  {
    if spans != [] {
      hide IsLine;
      assert IsLine(content, spans[0]);
      LineBounds(content, spans[0]);
      RejoinedFrom(content, spans[1..], spans[0].next);
      Pieces(content, start, spans[0].last, spans[0].next);
      hide Rejoined;
    }
  }

  lemma Pieces(content: Bytes, a: nat, b: nat, c: nat)
    requires a <= b <= c <= |content|
    ensures content[a..b] + content[b..c] + content[c..] == content[a..]
  {
  }

  lemma LineBounds(content: Bytes, s: Span)
    requires IsLine(content, s)
    ensures s.first <= s.last <= s.next <= |content| && s.first < s.next
  {
  }

  lemma SplitRejoins(content: Bytes, spans: seq<Span>)
    requires IsSplit(content, spans)
    ensures Rejoined(content, spans) == content
  {
    RejoinedFrom(content, spans, 0);
  }

  // ---- The split is unique ------------------------------------------------------------------

  lemma LineEnd(content: Bytes, s: Span)
    requires IsLine(content, s)
    ensures forall i :: s.first <= i < s.next - 1 ==> content[i] != LF
    ensures content[s.next - 1] == LF || s.next == |content|
    ensures s.next - 2 <= s.last
  {
    forall i | s.first <= i < s.next - 1 ensures content[i] != LF {
      if i < s.last { assert content[i] == content[s.first..s.last][i - s.first]; }
      else { assert content[i] == content[s.last..s.next][i - s.last]; }
    }
  }

  /** How much of the line's end is terminator. */
  lemma LineText(content: Bytes, s: Span)
    requires IsLine(content, s)
    ensures var end := if content[s.next - 1] == LF then s.next - 1 else s.next;
      s.last == if end > s.first && content[end - 1] == CR then end - 1 else end
  {
    var t := content[s.last..s.next];
    TailBytes(content, s);
    if t == [] {
    } else if t == [LF] {
      assert t[0] == LF;
    } else if t == [CR] {
      assert t[0] == CR;
    } else {
      assert t[0] == CR && t[1] == LF;
    }
  }

  /** The bytes around a line's end, by position in the content. */
  lemma TailBytes(content: Bytes, s: Span)
    requires IsLine(content, s)
    ensures s.last < s.next ==> content[s.last] == content[s.last..s.next][0]
    ensures s.last + 1 < s.next ==> content[s.last + 1] == content[s.last..s.next][1]
    ensures s.first < s.last ==> content[s.last - 1] != LF
    ensures s.last == s.next ==> s.next == |content|
  {
    if s.first < s.last { assert content[s.last - 1] == content[s.first..s.last][s.last - 1 - s.first]; }
  }

  lemma LineIsDetermined(content: Bytes, s: Span, t: Span)
    requires IsLine(content, s) && IsLine(content, t) && s.first == t.first
    ensures s == t
  {
    LineBounds(content, s);
    LineBounds(content, t);
    LineEnd(content, s);
    LineEnd(content, t);
    LineText(content, s);
    LineText(content, t);
    hide IsLine;
    assert s.next == t.next;
  }

  /** Reading lines from the front finds the front of the split. */
  lemma {:induction false} PrefixOfSplit(content: Bytes, a: seq<Span>, b: seq<Span>, start: nat, mid: nat)
    requires mid <= |content| && Chained(a, start, mid) && Chained(b, start, |content|)
    requires forall i :: 0 <= i < |a| ==> IsLine(content, a[i])
    requires forall i :: 0 <= i < |b| ==> IsLine(content, b[i])
    ensures a <= b
  {
    hide IsLine;
    if a != [] {
      LineBounds(content, a[0]);
      ChainAscends(content, a[1..], a[0].next, mid);
      LineIsDetermined(content, a[0], b[0]);
      PrefixOfSplit(content, a[1..], b[1..], a[0].next, mid);
      assert a == [a[0]] + a[1..] && b == [b[0]] + b[1..];
    }
  }

  lemma {:induction false} ChainAscends(content: Bytes, a: seq<Span>, start: nat, end: nat)
    requires Chained(a, start, end) && forall i :: 0 <= i < |a| ==> IsLine(content, a[i])
    ensures start <= end
  {
    hide IsLine;
    if a != [] {
      LineBounds(content, a[0]);
      ChainAscends(content, a[1..], a[0].next, end);
    }
  }

  /** There is only one way to split content into lines. */
  lemma SplitIsUnique(content: Bytes, a: seq<Span>, b: seq<Span>)
    requires IsSplit(content, a) && IsSplit(content, b)
    ensures a == b
  {
    hide IsLine;
    PrefixOfSplit(content, a, b, 0, |content|);
    PrefixOfSplit(content, b, a, 0, |content|);
  }

  lemma {:induction false} ChainOneMore(a: seq<Span>, start: nat, line: Span)
    requires Chained(a, start, line.first)
    ensures Chained(a + [line], start, line.next)
  {
    if a != [] {
      ChainOneMore(a[1..], a[0].next, line);
      assert (a + [line])[1..] == a[1..] + [line];
    }
  }

  lemma {:induction false} ChainLink(a: seq<Span>, start: nat, end: nat, i: nat)
    requires Chained(a, start, end) && i < |a|
    ensures a[i].first == (if i == 0 then start else a[i - 1].next)
    ensures i + 1 == |a| ==> a[i].next == end
  {
    if i > 0 { ChainLink(a[1..], a[0].next, end, i - 1); }
    else if |a| > 1 {}
  }

  // ---- The reader ------------------------------------------------------------------------------

  /** `content.find(b"\n", start)`. */
  method FindLineFeed(content: Bytes, start: nat) returns (r: int)
    requires start <= |content|
    ensures r == -1 || start <= r < |content|
    ensures r >= 0 ==> content[r] == LF && LF !in content[start..r]
    ensures r == -1 ==> LF !in content[start..]
  {
    r := start;
    while r < |content|
      invariant start <= r <= |content| && LF !in content[start..r]
    {
      if content[r] == LF { return; }
      assert content[start..r + 1] == content[start..r] + [content[r]];
      r := r + 1;
    }
    assert content[start..] == content[start..r];
    r := -1;
  }

  /** The line that starts at `start`, as both passes compute it. */
  method NextLine(content: Bytes, start: nat) returns (line: Span, final: bool)
    requires start < |content|
    ensures line.first == start && IsLine(content, line)
    ensures final ==> line.next == |content|
  {
    var newline := FindLineFeed(content, start);
    final := newline < 0;
    var end: nat := if final then |content| else newline;
    var last := if end > start && content[end - 1] == CR then end - 1 else end;
    line := Span(start, last, if final then |content| else end + 1);
    Cut(content, line, end);
  }

  lemma Cut(content: Bytes, line: Span, end: nat)
    requires line.first < |content| && line.first <= end <= |content| && LF !in content[line.first..end]
    requires line.last == if end > line.first && content[end - 1] == CR then end - 1 else end
    requires end < |content| ==> content[end] == LF && line.next == end + 1
    requires end == |content| ==> line.next == end
    ensures IsLine(content, line)
  {
    var text := content[line.first..end];
    forall i | line.first <= i < line.last ensures content[i] != LF { assert content[i] == text[i - line.first]; }
    var t := content[line.last..line.next];
    if line.last < end { assert t[0] == CR; }
    if end < |content| { assert t[|t| - 1] == LF; }
  }

  type Reader<R> = Bytes -> Option<R>

  function Text(content: Bytes, s: Span): Bytes
    requires IsLine(content, s)
  {
    content[s.first..s.last]
  }

  /** What a strict reader returns for content: one record a line, all lines bounded. */
  ghost predicate IsReading<R>(content: Bytes, read: Reader<R>, lines: seq<Span>, records: seq<R>) {
    && content != [] && IsSplit(content, lines) && Bounded(lines) && |records| == |lines|
    && forall i :: 0 <= i < |lines| ==> read(Text(content, lines[i])) == Some(records[i])
  }

  /** `_strict_jsonl_objects`.  `parsed` are the lines handed to the JSON reader: none
      unless every line passed its bounds. */
  method StrictObjects<R>(content: Bytes, read: Reader<R>)
    returns (records: Option<seq<R>>, ghost lines: seq<Span>, ghost parsed: seq<Span>)
    ensures records.Some? ==> IsReading(content, read, lines, records.value) && parsed == lines
    ensures records.None? ==> forall ls, rs :: !IsReading(content, read, ls, rs)
    ensures parsed != [] ==> IsSplit(content, lines) && Bounded(lines) && parsed <= lines
  {
    hide IsLine, Chained;
    records, lines, parsed := None, [], [];
    if content == [] { return; }
    var count: nat;
    var bounded: bool;
    bounded, count, lines := CountLines(content);
    if !bounded {
      Overflow(content, read, lines);
      return;
    }
    var objects: seq<R> := [];
    var start := 0;
    for i := 0 to count
      invariant start == (if i == 0 then 0 else lines[i - 1].next) && |objects| == i && parsed == lines[..i]
      invariant forall k :: 0 <= k < i ==> read(Text(content, lines[k])) == Some(objects[k])
    {
      ChainLink(lines, 0, |content|, i);
      LineBounds(content, lines[i]);
      var line, _ := NextLine(content, start);
      LineIsDetermined(content, line, lines[i]);
      var value := read(Text(content, line));
      parsed := parsed + [line];
      if value.None? {
        Unreadable(content, read, lines, i);
        return;
      }
      objects := objects + [value.value];
      start := line.next;
    }
    records := Some(objects);
  }

  lemma Overflow<R>(content: Bytes, read: Reader<R>, front: seq<Span>)
    requires front != [] && Chained(front, 0, front[|front| - 1].next) && !Bounded(front)
    requires forall i :: 0 <= i < |front| ==> IsLine(content, front[i])
    ensures forall ls, rs :: !IsReading(content, read, ls, rs)
  {
    forall ls, rs ensures !IsReading(content, read, ls, rs) {
      if IsReading(content, read, ls, rs) {
        LineBounds(content, front[|front| - 1]);
        PrefixOfSplit(content, front, ls, 0, front[|front| - 1].next);
      }
    }
  }

  lemma Unreadable<R>(content: Bytes, read: Reader<R>, lines: seq<Span>, i: nat)
    requires IsSplit(content, lines) && i < |lines| && read(Text(content, lines[i])).None?
    ensures forall ls, rs :: !IsReading(content, read, ls, rs)
  {
    forall ls, rs ensures !IsReading(content, read, ls, rs) {
      if IsReading(content, read, ls, rs) { SplitIsUnique(content, lines, ls); }
    }
  }

  /** The counting pass. */
  method CountLines(content: Bytes) returns (ok: bool, count: nat, ghost lines: seq<Span>)
    requires content != []
    ensures count == |lines| && ok == Bounded(lines)
    ensures forall i :: 0 <= i < |lines| ==> IsLine(content, lines[i])
    ensures ok ==> IsSplit(content, lines)
    ensures !ok ==> lines != [] && Chained(lines, 0, lines[|lines| - 1].next)
  {
    hide IsLine;
    var start := 0;
    ok, count, lines := true, 0, [];
    while start < |content|
      invariant start <= |content| && count == |lines| && Bounded(lines) && ok
      invariant Chained(lines, 0, start)
      invariant forall i :: 0 <= i < |lines| ==> IsLine(content, lines[i])
      decreases |content| - start
    {
      var line, final := NextLine(content, start);
      LineBounds(content, line);
      ChainOneMore(lines, 0, line);
      lines, count := lines + [line], count + 1;
      if count > MAX_RECORDS || line.last == start || line.last - start > MAX_LINE {
        assert lines[|lines| - 1] == line;
        ok := false;
        return;
      }
      start := line.next;
    }
  }

  /** The bounds in figures: a reading has at most 1,000,000 records, of lines of 1 to 8,388,608 bytes. */
  lemma ReadingBounds<R>(content: Bytes, read: Reader<R>, lines: seq<Span>, records: seq<R>)
    requires IsReading(content, read, lines, records)
    ensures 1 <= |records| <= 1_000_000
    ensures forall i :: 0 <= i < |lines| ==> 1 <= |Text(content, lines[i])| <= 8_388_608
  {
    hide IsLine;
    forall i | 0 <= i < |lines| ensures 1 <= |Text(content, lines[i])| <= 8_388_608 { LineBounds(content, lines[i]); }
  }
}
