/**
 * The write path of logger/logger.go: `telegrafLog.Write` and
 * `prependTimeFormat`. The clock and Go's time formatting are inputs: `stamp`
 * is the text that `AppendFormat` renders for the RFC 3339 part of a layout
 * at the current UTC time.
 */
module LineFormat {
  import opened Bytes
  import opened Wrappers
  import opened Marker

  /** Go's `time.RFC3339` layout. */
  const RFC3339: string := "2006-01-02T15:04:05Z07:00"

  /**
   * A layout made of `time.RFC3339` followed by literal bytes, which Go's
   * formatter copies verbatim (they hold no layout element).
   */
  datatype Layout = Layout(tail: seq<byte>)

  /** `len(layout)`: the length of the layout string, not of its rendering. */
  function LayoutLength(layout: Layout): nat {
    |RFC3339| + |layout.tail|
  }

  /** `timeLayoutDefault`: RFC 3339 then " I! ". */
  const TimeLayoutDefault: Layout := Layout([Space, LetterI, Bang, Space])

  /** `timeLayoutSpace`: RFC 3339 then " ". */
  const TimeLayoutSpace: Layout := Layout([Space])

  /** A Go byte slice: its contents and the capacity of its backing array. */
  datatype Slice = Slice(data: seq<byte>, cap: nat) {
    predicate Valid() {
      |data| <= cap
    }
  }

  /** A new capacity large enough for `needed` bytes. */
  function Grow(cap: nat, needed: nat): (c: nat)
    ensures c >= needed && c >= cap
  {
    if 2 * cap >= needed then 2 * cap else needed
  }

  /**
   * Go's `append(s, xs...)`: the contents are those of `s` followed by `xs`;
   * when they fit, the backing array (and so the capacity) is kept.
   */
  function Append(s: Slice, xs: seq<byte>): (r: Slice)
    requires s.Valid()
    ensures r.Valid() && r.data == s.data + xs
    ensures r.cap >= s.cap
    ensures |s.data| + |xs| <= s.cap ==> r.cap == s.cap
  {
    var needed := |s.data| + |xs|;
    Slice(s.data + xs, if needed <= s.cap then s.cap else Grow(s.cap, needed))
  }

  /** `t.AppendFormat(b, layout)`, with the rendered time given as `stamp`. */
  function AppendFormat(b: Slice, stamp: seq<byte>, layout: Layout): (r: Slice)
    requires b.Valid()
    ensures r.Valid() && r.data == b.data + stamp + layout.tail
  {
    Append(Append(b, stamp), layout.tail)
  }

  /** `bufSize` in `prependTimeFormat`. */
  const BufSize: nat := 64

  /**
   * The empty buffer `prependTimeFormat` starts from: the 64-byte stack
   * buffer when `len(layout) + 10` is below 64, a heap buffer of that
   * capacity otherwise.
   */
  function StartBuffer(layout: Layout): (b: Slice)
    ensures b.Valid() && b.data == []
    ensures b.cap >= LayoutLength(layout) + 10 && b.cap >= BufSize
    ensures b.cap == BufSize || b.cap == LayoutLength(layout) + 10
  {
    var max := LayoutLength(layout) + 10;
    if max < BufSize then Slice([], BufSize) else Slice([], max)
  }

  /** The formatted time, then `bs`, written into buffer `b`. */
  function Prepend(b: Slice, stamp: seq<byte>, layout: Layout, bs: seq<byte>): (r: Slice)
    requires b.Valid()
    ensures r.Valid() && r.data == b.data + stamp + layout.tail + bs
  {
    Append(AppendFormat(b, stamp, layout), bs)
  }

  /**
   * `prependTimeFormat(t, layout, bs)`: the formatted layout followed by `bs`
   * unchanged, so `bs` is a suffix of the result.
   */
  function PrependTimeFormat(stamp: seq<byte>, layout: Layout, bs: seq<byte>): (r: seq<byte>)
    ensures r == stamp + layout.tail + bs
    ensures |r| == |stamp| + |layout.tail| + |bs|
    ensures r[|r| - |bs|..] == bs
  {
    Prepend(StartBuffer(layout), stamp, layout, bs).data
  }

  /** Which buffer the code starts from does not change the contents. */
  lemma BufferChoiceIrrelevant(cap1: nat, cap2: nat, stamp: seq<byte>, layout: Layout, bs: seq<byte>)
    ensures Prepend(Slice([], cap1), stamp, layout, bs).data == Prepend(Slice([], cap2), stamp, layout, bs).data
    ensures PrependTimeFormat(stamp, layout, bs) == Prepend(Slice([], cap1), stamp, layout, bs).data
  {
  }

  /** Both layouts of the logger take the 64-byte stack buffer. */
  lemma LayoutsUseStackBuffer()
    ensures StartBuffer(TimeLayoutDefault).cap == BufSize
    ensures StartBuffer(TimeLayoutSpace).cap == BufSize
  {
  }

  /**
   * The line `telegrafLog.Write` forwards: an unmarked line gets the stamp and
   * " I! ", a marked line the stamp and " ".
   */
  function FormatLine(stamp: seq<byte>, b: seq<byte>): (line: seq<byte>)
    ensures PrefixMatch(b) ==> line == stamp + [Space] + b
    ensures !PrefixMatch(b) ==> line == stamp + [Space, LetterI, Bang, Space] + b
  {
    if !PrefixMatch(b) then PrependTimeFormat(stamp, TimeLayoutDefault, b)
    else PrependTimeFormat(stamp, TimeLayoutSpace, b)
  }

  /** The result of an `io.Writer`'s `Write`: a byte count and an error. */
  datatype WriteResult = WriteResult(n: int, err: Option<string>)

  /** What one `telegrafLog.Write` does: the buffers it hands to its writer, and its result. */
  datatype Forwarding = Forwarding(calls: seq<seq<byte>>, result: WriteResult)

  /**
   * The form a raw line takes once it carries a marker: itself when it has
   * one, `I! ` in front of it otherwise.
   */
  function Marked(b: seq<byte>): seq<byte> {
    if PrefixMatch(b) then b else [LetterI, Bang, Space] + b
  }

  /**
   * `telegrafLog.Write(b)` over the downstream writer `sink` (the `wlog`
   * writer): exactly one buffer, the stamp, a space and the marked line, is
   * forwarded, and the writer's count and error come back unchanged.
   */
  function Write(sink: seq<byte> -> WriteResult, stamp: seq<byte>, b: seq<byte>): (r: Forwarding)
    ensures |r.calls| == 1
    ensures r.calls[0] == stamp + [Space] + Marked(b)
    ensures r.result == sink(r.calls[0])
  {
    var line := FormatLine(stamp, b);
    Forwarding([line], sink(line))
  }

  /** A marked line is recognised as marked, and marking is idempotent. */
  lemma MarkedHasMarker(b: seq<byte>)
    ensures PrefixMatch(Marked(b))
    ensures Marked(Marked(b)) == Marked(b)
    ensures PrefixMatch(b) <==> Marked(b) == b
  {
  }

  /** The forwarded line is the stamp, a space and the marked line. */
  lemma FormatLineShape(stamp: seq<byte>, b: seq<byte>)
    ensures FormatLine(stamp, b) == stamp + [Space] + Marked(b)
  {
    if !PrefixMatch(b) {
      assert [Space] + ([LetterI, Bang, Space] + b) == [Space, LetterI, Bang, Space] + b;
      assert stamp + [Space] + ([LetterI, Bang, Space] + b) == stamp + [Space, LetterI, Bang, Space] + b;
    }
  }

  /**
   * No second marker is ever inserted: writing a line and writing its marked
   * form produce the same output.
   */
  lemma NoSecondMarker(stamp: seq<byte>, b: seq<byte>)
    ensures FormatLine(stamp, Marked(b)) == FormatLine(stamp, b)
  {
    MarkedHasMarker(b);
    FormatLineShape(stamp, Marked(b));
    FormatLineShape(stamp, b);
  }

  /** The text after the stamp and the separating space. */
  function StripStamp(stampLength: nat, line: seq<byte>): seq<byte>
    requires stampLength < |line|
  {
    line[stampLength + 1..]
  }

  /**
   * Every forwarded line is the stamp, a space and a marked line, whose
   * severity letter is the line's own or `I` for an unmarked line.
   */
  lemma FormatLineInverse(stamp: seq<byte>, b: seq<byte>)
    ensures |stamp| < |FormatLine(stamp, b)|
    ensures FormatLine(stamp, b)[..|stamp|] == stamp
    ensures StripStamp(|stamp|, FormatLine(stamp, b)) == Marked(b)
    ensures PrefixMatch(StripStamp(|stamp|, FormatLine(stamp, b)))
    ensures FormatLine(stamp, b)[|stamp| + 1] == if PrefixMatch(b) then b[0] else LetterI
  {
    MarkedHasMarker(b);
    FormatLineShape(stamp, b);
    var line := stamp + [Space] + Marked(b);
    assert line[..|stamp|] == stamp;
    assert line[|stamp| + 1..] == Marked(b);
    assert line[|stamp| + 1] == Marked(b)[0];
  }
}
