/** The Segmenter of the feature pipeline: `segment_data` in
    notebooks/NUPH_unified_analysis/unified_processing.py.py.
    Instants are integer seconds; a trace is known by its time bounds and
    carries its samples as an uninterpreted value. */
module Segmenter {

  /** One trace of a waveform stream: first and last instant, and its samples. */
  datatype Trace<D> = Trace(start: int, end: int, samples: D)

  /** A stream is an ordered sequence of traces. */
  type Stream<D> = seq<Trace<D>>

  /** The slice of `source` over the window [start, end]. */
  datatype Segment<D> = Segment(source: Trace<D>, start: int, end: int)

  /** `segment_length=3600`, the default of `segment_data` (one hour). */
  const DEFAULT_SEGMENT_LENGTH: int := 3600

  // ---------------------------------------------------------------------------
  // Specification

  /** The segments the inner while-loop cuts from `tr` once its cursor is at `from`. */
  function SegmentsFrom<D>(tr: Trace<D>, from: int, len: int): seq<Segment<D>>
    requires len > 0
    decreases tr.end - from
  {
    if from + len <= tr.end then [Segment(tr, from, from + len)] + SegmentsFrom(tr, from + len, len)
    else []
  }

  /** The segments of one trace: the loop starts at the trace's own start. */
  function TraceSegments<D>(tr: Trace<D>, len: int): seq<Segment<D>>
    requires len > 0
  {
    SegmentsFrom(tr, tr.start, len)
  }

  /** The segments of a stream: the traces' segments concatenated in trace order. */
  function StreamSegments<D>(st: Stream<D>, len: int): seq<Segment<D>>
    requires len > 0
  {
    if st == [] then [] else StreamSegments(st[..|st| - 1], len) + TraceSegments(st[|st| - 1], len)
  }

  /** How many whole windows of length `len` fit into `tr`: floor((end - start) / len). */
  function WindowCount<D>(tr: Trace<D>, len: int): nat
    requires len > 0
  {
    if tr.end < tr.start then 0 else (tr.end - tr.start) / len
  }

  /** Reference definition: the k-th window starts at start + k*len, for k < WindowCount. */
  function Windows<D>(tr: Trace<D>, len: int): seq<Segment<D>>
    requires len > 0
  {
    seq(WindowCount(tr, len), k => Segment(tr, tr.start + k * len, tr.start + k * len + len))
  }

  // ---------------------------------------------------------------------------
  // Arithmetic helpers

  /** A positive multiple of a positive length is at least that length. */
  lemma MulAtLeast(a: int, len: int)
    requires a >= 1 && len > 0
    ensures a * len >= len
  {
    assert a * len == (a - 1) * len + len;
  }

  /** Floor division is determined by its bracketing: q*len <= x < (q+1)*len. */
  lemma FloorDivUnique(x: int, len: int, q: int)
    requires len > 0
    requires q * len <= x < q * len + len
    ensures x / len == q
  {
    var d := x / len;
    assert d * len <= x < d * len + len;
    assert (q - d) * len == q * len - d * len;
    if q - d >= 1 {
      MulAtLeast(q - d, len);
    }
    if d - q >= 1 {
      MulAtLeast(d - q, len);
    }
  }

  // ---------------------------------------------------------------------------
  // Properties of the segmenter

  /** The k-th segment cut from cursor `from` is [from + k*len, from + k*len + len],
      and it ends by the trace's end. */
  lemma {:induction false} SegmentAt<D>(tr: Trace<D>, from: int, len: int, k: int)
    requires len > 0
    requires 0 <= k < |SegmentsFrom(tr, from, len)|
    ensures SegmentsFrom(tr, from, len)[k] == Segment(tr, from + k * len, from + k * len + len)
    ensures from + k * len + len <= tr.end
    decreases k
  {
    if k > 0 {
      SegmentAt(tr, from + len, len, k - 1);
      assert (from + len) + (k - 1) * len == from + k * len;
    }
  }

  /** After the last segment cut from `from`, less than one length is left;
      if any segment was cut, the last one ends by the trace's end. */
  lemma {:induction false} SegmentsFromTail<D>(tr: Trace<D>, from: int, len: int)
    requires len > 0
    ensures var n := |SegmentsFrom(tr, from, len)|;
      tr.end < from + n * len + len && (n > 0 ==> from + n * len <= tr.end)
    decreases tr.end - from
  {
    var n := |SegmentsFrom(tr, from, len)|;
    if from + len <= tr.end {
      SegmentsFromTail(tr, from + len, len);
      assert (from + len) + (n - 1) * len == from + n * len;
    }
  }

  /** The loop agrees with the reference definition: the segments of a trace
      are exactly the windows s, s+L, s+2L, ... and there are floor((e-s)/L) of them. */
  lemma TraceSegmentsAreWindows<D>(tr: Trace<D>, len: int)
    requires len > 0
    ensures TraceSegments(tr, len) == Windows(tr, len)
    ensures |TraceSegments(tr, len)| == WindowCount(tr, len)
  {
    var r := TraceSegments(tr, len);
    SegmentsFromTail(tr, tr.start, len);
    if tr.start <= tr.end {
      FloorDivUnique(tr.end - tr.start, len, |r|);
    } else if |r| > 0 {
      SegmentAt(tr, tr.start, len, 0);
    }
    forall k | 0 <= k < |r|
      ensures r[k] == Windows(tr, len)[k]
    {
      SegmentAt(tr, tr.start, len, k);
    }
  }

  /** Every segment of a trace lies inside it and is exactly len long; each one
      after the first starts where the previous one ends (contiguous, no overlap). */
  lemma SegmentsContiguous<D>(tr: Trace<D>, len: int)
    requires len > 0
    ensures var r := TraceSegments(tr, len);
      (forall k :: 0 <= k < |r| ==>
         r[k].source == tr && r[k].end == r[k].start + len &&
         tr.start <= r[k].start && r[k].end <= tr.end)
      && (|r| > 0 ==> r[0].start == tr.start)
      && (forall k :: 0 < k < |r| ==> r[k].start == r[k - 1].end)
  {
    var r := TraceSegments(tr, len);
    forall k | 0 <= k < |r|
      ensures r[k].source == tr && r[k].end == r[k].start + len
      ensures tr.start <= r[k].start && r[k].end <= tr.end
    {
      SegmentAt(tr, tr.start, len, k);
      assert k * len >= 0;
    }
    forall k | 0 < k < |r|
      ensures r[k].start == r[k - 1].end
    {
      SegmentAt(tr, tr.start, len, k);
      SegmentAt(tr, tr.start, len, k - 1);
      assert (k - 1) * len + len == k * len;
    }
  }

  /** The dropped tail is shorter than one segment, and a trace shorter than
      one segment gives no segment at all. */
  lemma ShortTailDropped<D>(tr: Trace<D>, len: int)
    requires len > 0
    ensures var r := TraceSegments(tr, len);
      tr.end - (tr.start + |r| * len) < len
      && (tr.start <= tr.end ==> 0 <= tr.end - (tr.start + |r| * len))
      && (tr.end - tr.start < len <==> r == [])
  {
    SegmentsFromTail(tr, tr.start, len);
  }

  /** A stream's segments are its traces' segments in trace order, so their
      number is the sum of the per-trace window counts. */
  lemma {:induction false} StreamSegmentsAppend<D>(st: Stream<D>, tr: Trace<D>, len: int)
    requires len > 0
    ensures StreamSegments(st + [tr], len) == StreamSegments(st, len) + Windows(tr, len)
  {
    assert (st + [tr])[..|st|] == st;
    TraceSegmentsAreWindows(tr, len);
  }

  /** The total number of segments of a stream. */
  function TotalWindows<D>(st: Stream<D>, len: int): nat
    requires len > 0
  {
    if st == [] then 0 else TotalWindows(st[..|st| - 1], len) + WindowCount(st[|st| - 1], len)
  }

  lemma {:induction false} StreamSegmentCount<D>(st: Stream<D>, len: int)
    requires len > 0
    ensures |StreamSegments(st, len)| == TotalWindows(st, len)
  {
    if st != [] {
      StreamSegmentCount(st[..|st| - 1], len);
      TraceSegmentsAreWindows(st[|st| - 1], len);
    }
  }

  /** A trace covering exactly one day gives 24 one-hour segments; one a second
      short of a day gives 23, the last hour being dropped. */
  lemma DaySegmentation<D>(tr: Trace<D>)
    ensures tr.end == tr.start + 86400 ==> |TraceSegments(tr, DEFAULT_SEGMENT_LENGTH)| == 24
    ensures tr.end == tr.start + 86399 ==> |TraceSegments(tr, DEFAULT_SEGMENT_LENGTH)| == 23
  {
    TraceSegmentsAreWindows(tr, DEFAULT_SEGMENT_LENGTH);
  }

  // ---------------------------------------------------------------------------
  // The algorithm

  /** `segment_data`: for each trace, start at its start instant and cut
      [start, start + len] while start + len <= end, advancing start by len.
      A non-positive length would loop forever in the source, hence `len > 0`. */
  method SegmentData<D>(stream: Stream<D>, len: int) returns (segments: seq<Segment<D>>)
    requires len > 0
    ensures segments == StreamSegments(stream, len)
  {
    segments := [];
    var i := 0;
    while i < |stream|
      invariant 0 <= i <= |stream|
      invariant segments == StreamSegments(stream[..i], len)
    {
      var tr := stream[i];
      var start := tr.start;
      ghost var before := segments;
      while start + len <= tr.end
        invariant segments + SegmentsFrom(tr, start, len) == before + TraceSegments(tr, len)
        decreases tr.end - start
      {
        segments := segments + [Segment(tr, start, start + len)];
        start := start + len;
      }
      assert stream[..i + 1][..i] == stream[..i];
      i := i + 1;
    }
    assert stream[..i] == stream;
  }
}
