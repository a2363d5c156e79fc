/** The day-driven feature pipeline of
    notebooks/NUPH_unified_analysis/unified_processing.py.py: download one day,
    condition it, cut it into one-hour segments, turn every segment into a
    normalised spectrogram and collect them all, then save the collection once.
    The acquisition client, the ObsPy conditioning chain, scipy's spectrogram,
    log1p and the normalisation are uninterpreted functions; what is verified
    is which days are visited, what is requested, and how the collection grows. */
module UnifiedProcessing {
  import opened Segmenter
  import PosixPath

  /** One day in seconds, the stride of the day loop and the length of a request. */
  const DAY: int := 86400
  /** 2021-03-12T00:00:00 UTC and 2021-06-24T00:00:00 UTC, in seconds since the epoch. */
  const START_DATE: int := 1615507200
  const END_DATE: int := 1624492800
  const NETWORK: string := "9F"
  const STATION: string := "NUPH"
  const LOCATION: string := "*"
  const CHANNEL: string := "HHE"
  /** The defaults of `compute_spectrogram`. */
  const NFFT: int := 256
  const OVERLAP: real := 0.5
  /** The file name `save_all_spectrograms` writes under the output directory. */
  const OUTPUT_FILE: string := "Input.npy"

  datatype Option<T> = None | Some(value: T)

  /** The arguments of `client.get_waveforms`. */
  datatype Request = Request(network: string, station: string, location: string, channel: string,
                             start: int, end: int)

  /** What one call of the client does: return a stream, or raise an exception with a message. */
  datatype Fetch<D> = Fetched(stream: Stream<D>) | Raised(message: string)

  /** The code the pipeline calls but that is not part of this model. */
  datatype Collaborators<!D, !M> = Collaborators(
    getWaveforms: Request -> Fetch<D>,
    /** detrend("linear"), detrend("demean"), filter("bandpass"), resample, in that order */
    preprocess: Stream<D> -> Stream<D>,
    /** scipy.signal.spectrogram(data, nperseg, noverlap), keeping only Sxx */
    spectrogram: (Segment<D>, int, int) -> M,
    log1p: M -> M,
    /** (sxx - mean(sxx)) / std(sxx) */
    normalize: M -> M)

  /** What the run reports on its way (the source's `print` calls). */
  datatype Event =
    | Downloaded(date: int)
    | NoData(date: int, reason: string)
    | Segmented(date: int, count: nat)
    | Saved(path: string)

  // ---------------------------------------------------------------------------
  // One day

  /** The request `download_data_for_day` issues for `date`: one whole day from `date`. */
  function DayRequest(date: int): (r: Request)
    ensures r.start == date && r.end - r.start == DAY
    ensures r.network == NETWORK && r.station == STATION && r.location == LOCATION && r.channel == CHANNEL
  {
    Request(NETWORK, STATION, LOCATION, CHANNEL, date, date + DAY)
  }

  /** The value `download_data_for_day` returns: the stream, or None when the client raised. */
  function Download<D, M>(c: Collaborators<D, M>, date: int): (r: Option<Stream<D>>)
    ensures r.None? <==> c.getWaveforms(DayRequest(date)).Raised?
    ensures r.Some? ==> r.value == c.getWaveforms(DayRequest(date)).stream
  {
    match c.getWaveforms(DayRequest(date))
    case Fetched(st) => Some(st)
    case Raised(_) => None
  }

  /** The message `download_data_for_day` prints for `date`. */
  function DownloadEvent<D, M>(c: Collaborators<D, M>, date: int): Event
  {
    match c.getWaveforms(DayRequest(date))
    case Fetched(_) => Downloaded(date)
    case Raised(e) => NoData(date, e)
  }

  /** Python's int() on a float: truncation toward zero. */
  function Trunc(x: real): int
  {
    if x >= 0.0 then x.Floor else -((-x).Floor)
  }

  /** `n_overlap = int(nfft * overlap)`. */
  function NOverlap(nfft: int, overlap: real): (r: int)
    ensures 0.0 <= nfft as real * overlap ==> 0 <= r && r as real <= nfft as real * overlap < r as real + 1.0
    ensures nfft as real * overlap < 0.0 ==> r <= 0 && nfft as real * overlap <= r as real < nfft as real * overlap + 1.0
  {
    Trunc(nfft as real * overlap)
  }

  /** With overlap in [0, 1) the overlap is a proper part of the window, as scipy requires. */
  lemma OverlapBelowWindow(nfft: int, overlap: real)
    requires nfft > 0 && 0.0 <= overlap < 1.0
    ensures 0 <= NOverlap(nfft, overlap) < nfft
  {
    assert nfft as real * overlap < nfft as real * 1.0;
  }

  /** The defaults give `n_overlap = 128`. */
  lemma DefaultOverlap()
    ensures NOverlap(NFFT, OVERLAP) == 128
  {
    assert NFFT as real * OVERLAP == 128.0;
  }

  /** `compute_spectrogram` followed by `normalize_spectrogram`, with the defaults. */
  function Feature<D, M>(c: Collaborators<D, M>, seg: Segment<D>): M
  {
    c.normalize(c.log1p(c.spectrogram(seg, NFFT, NOverlap(NFFT, OVERLAP))))
  }

  /** One feature per segment, in segment order. */
  function Features<D, M>(c: Collaborators<D, M>, segs: seq<Segment<D>>): (r: seq<M>)
    ensures |r| == |segs|
    ensures forall i :: 0 <= i < |segs| ==> r[i] == Feature(c, segs[i])
  {
    seq(|segs|, i requires 0 <= i < |segs| => Feature(c, segs[i]))
  }

  /** The segments of a downloaded day: conditioned, then cut into hours. */
  function DaySegments<D, M>(c: Collaborators<D, M>, raw: Stream<D>): seq<Segment<D>>
  {
    StreamSegments(c.preprocess(raw), DEFAULT_SEGMENT_LENGTH)
  }

  /** What one iteration of the day loop appends to the collection. */
  function DayFeatures<D, M>(c: Collaborators<D, M>, date: int): seq<M>
  {
    match Download(c, date)
    case None => []
    case Some(raw) => Features(c, DaySegments(c, raw))
  }

  /** What one iteration of the day loop reports. */
  function DayEvents<D, M>(c: Collaborators<D, M>, date: int): seq<Event>
  {
    match Download(c, date)
    case None => [DownloadEvent(c, date)]
    case Some(raw) => [DownloadEvent(c, date), Segmented(date, |DaySegments(c, raw)|)]
  }

  // ---------------------------------------------------------------------------
  // The day loop

  /** The days `main` visits from `from`: `from`, `from + DAY`, ... while below `end`. */
  function Days(from: int, end: int): seq<int>
    decreases end - from
  {
    if from < end then [from] + Days(from + DAY, end) else []
  }

  /** ceil((end - from) / DAY), or 0 for an empty range. */
  function CeilDays(from: int, end: int): nat
  {
    if end <= from then 0 else (end - from + DAY - 1) / DAY
  }

  /** The collection the run builds over `days`. */
  function Corpus<D, M>(c: Collaborators<D, M>, days: seq<int>): seq<M>
  {
    if days == [] then [] else DayFeatures(c, days[0]) + Corpus(c, days[1..])
  }

  /** The report of the run over `days`, before the final save. */
  function RunEvents<D, M>(c: Collaborators<D, M>, days: seq<int>): seq<Event>
  {
    if days == [] then [] else DayEvents(c, days[0]) + RunEvents(c, days[1..])
  }

  /** Unfolding the collection and the report at the first day. */
  lemma DayStep<D, M>(c: Collaborators<D, M>, day: int, rest: seq<int>)
    ensures Corpus(c, [day] + rest) == DayFeatures(c, day) + Corpus(c, rest)
    ensures RunEvents(c, [day] + rest) == DayEvents(c, day) + RunEvents(c, rest)
  {
    assert ([day] + rest)[1..] == rest;
  }

  /** Regrouping a concatenation of three sequences. */
  lemma Reassociate<T>(whole: seq<T>, done: seq<T>, next: seq<T>, rest: seq<T>)
    requires whole == done + (next + rest)
    ensures whole == (done + next) + rest
  {
  }

  /** The k-th visited day is from + k*DAY, and it is below the end. */
  lemma {:induction false} DayAt(from: int, end: int, k: int)
    requires 0 <= k < |Days(from, end)|
    ensures Days(from, end)[k] == from + k * DAY && from + k * DAY < end
    decreases k
  {
    if k > 0 {
      DayAt(from + DAY, end, k - 1);
    }
  }

  /** The day after the last visited one is not below the end (the end is exclusive),
      and the last visited day is below it. */
  lemma {:induction false} DaysEnd(from: int, end: int)
    ensures var n := |Days(from, end)|;
      end <= from + n * DAY && (n > 0 ==> from + (n - 1) * DAY < end)
    decreases end - from
  {
    if from < end {
      DaysEnd(from + DAY, end);
    }
  }

  /** `main` visits exactly the days from + k*DAY below `end`, in increasing order,
      and there are ceil((end - from) / DAY) of them. */
  lemma DaysAreStrides(from: int, end: int)
    ensures var r := Days(from, end);
      |r| == CeilDays(from, end)
      && (forall k :: 0 <= k < |r| ==> r[k] == from + k * DAY && r[k] < end)
      && (forall k :: 0 < k < |r| ==> r[k] == r[k - 1] + DAY)
      && (forall t :: from <= t < end && (t - from) % DAY == 0 ==> t in r)
  {
    var r := Days(from, end);
    var n := |r|;
    DaysEnd(from, end);
    if from < end {
      Segmenter.FloorDivUnique(end - from + DAY - 1, DAY, n);
    }
    forall k | 0 <= k < n
      ensures r[k] == from + k * DAY && r[k] < end
    {
      DayAt(from, end, k);
    }
    forall k | 0 < k < n
      ensures r[k] == r[k - 1] + DAY
    {
      DayAt(from, end, k);
      DayAt(from, end, k - 1);
    }
    forall t | from <= t < end && (t - from) % DAY == 0
      ensures t in r
    {
      var k := (t - from) / DAY;
      assert t == from + k * DAY;
      assert 0 <= k;
      DayAt(from, end, k);
    }
  }

  /** The configured range 2021-03-12 .. 2021-06-24 is 104 days. */
  lemma ConfiguredDayCount()
    ensures |Days(START_DATE, END_DATE)| == 104
  {
    DaysAreStrides(START_DATE, END_DATE);
  }

  /** A day whose download returns None adds nothing to the collection and is reported
      with the reason of the exception. */
  lemma UnavailableDay<D, M>(c: Collaborators<D, M>, date: int)
    requires Download(c, date).None?
    ensures DayFeatures(c, date) == []
    ensures DayEvents(c, date) == [NoData(date, c.getWaveforms(DayRequest(date)).message)]
  {
  }

  /** The collection over two runs of days is the two collections one after the other:
      a later day never alters what earlier days contributed. */
  lemma {:induction false} CorpusAppend<D, M>(c: Collaborators<D, M>, a: seq<int>, b: seq<int>)
    ensures Corpus(c, a + b) == Corpus(c, a) + Corpus(c, b)
  {
    if a != [] {
      assert a + b == [a[0]] + (a[1..] + b);
      assert a == [a[0]] + a[1..];
      DayStep(c, a[0], a[1..] + b);
      DayStep(c, a[0], a[1..]);
      CorpusAppend(c, a[1..], b);
      Reassociate(Corpus(c, a + b), DayFeatures(c, a[0]), Corpus(c, a[1..]), Corpus(c, b));
    } else {
      assert a + b == b;
    }
  }

  /** The number of segments a day contributes (0 when its download failed). */
  function DaySegmentCount<D, M>(c: Collaborators<D, M>, date: int): nat
  {
    match Download(c, date)
    case None => 0
    case Some(raw) => |DaySegments(c, raw)|
  }

  function TotalSegments<D, M>(c: Collaborators<D, M>, days: seq<int>): nat
  {
    if days == [] then 0 else DaySegmentCount(c, days[0]) + TotalSegments(c, days[1..])
  }

  /** The saved array has one entry per segment of every visited day. */
  lemma {:induction false} CorpusSize<D, M>(c: Collaborators<D, M>, days: seq<int>)
    ensures |Corpus(c, days)| == TotalSegments(c, days)
  {
    if days != [] {
      CorpusSize(c, days[1..]);
    }
  }

  /** When every visited day downloads and conditions into a single trace covering
      exactly that day, each day gives 24 segments. */
  lemma {:induction false} FullDaysCorpusSize<D, M>(c: Collaborators<D, M>, days: seq<int>)
    requires forall i :: 0 <= i < |days| ==>
      Download(c, days[i]).Some? &&
      |c.preprocess(Download(c, days[i]).value)| == 1 &&
      c.preprocess(Download(c, days[i]).value)[0].end == c.preprocess(Download(c, days[i]).value)[0].start + DAY
    ensures |Corpus(c, days)| == 24 * |days|
  {
    if days != [] {
      var st := c.preprocess(Download(c, days[0]).value);
      assert st[..0] == [];
      assert StreamSegments(st, DEFAULT_SEGMENT_LENGTH) == TraceSegments(st[0], DEFAULT_SEGMENT_LENGTH);
      DaySegmentation(st[0]);
      assert |DayFeatures(c, days[0])| == 24;
      FullDaysCorpusSize(c, days[1..]);
    }
  }

  /** Two days where the first conditions into one full-day trace and the second
      cannot be downloaded: 24 entries, all from the first day, and the second
      day reported as skipped with the client's reason. */
  lemma SecondDayUnavailable<D, M>(c: Collaborators<D, M>, date: int)
    requires Download(c, date).Some?
    requires |c.preprocess(Download(c, date).value)| == 1
    requires c.preprocess(Download(c, date).value)[0].end == c.preprocess(Download(c, date).value)[0].start + DAY
    requires Download(c, date + DAY).None?
    ensures Corpus(c, [date, date + DAY]) == Corpus(c, [date]) && |Corpus(c, [date, date + DAY])| == 24
    ensures RunEvents(c, [date, date + DAY])
      == [Downloaded(date), Segmented(date, 24), NoData(date + DAY, c.getWaveforms(DayRequest(date + DAY)).message)]
  {
    FullDaysCorpusSize(c, [date]);
    UnavailableDay(c, date + DAY);
    DayStep(c, date, [date + DAY]);
    DayStep(c, date + DAY, []);
    DayStep(c, date, []);
    assert Corpus(c, [date + DAY]) == [];
  }

  // ---------------------------------------------------------------------------
  // The run

  /** The module-level state of the script: the growing list `all_spectrograms`,
      what it prints, and what it has written to the output file. */
  class Pipeline<D, M> {
    const collaborators: Collaborators<D, M>
    /** `OUTPUT_DIR`, the "data" directory beside the script. */
    const outputDir: string
    var allSpectrograms: seq<M>
    var events: seq<Event>
    /** Every array written to Input.npy under `outputDir`, in order. */
    var saved: seq<seq<M>>

    /** The state at import time: `all_spectrograms = []`, nothing reported or written. */
    constructor (c: Collaborators<D, M>, dir: string)
      ensures collaborators == c && outputDir == dir
      ensures allSpectrograms == [] && events == [] && saved == []
    {
      collaborators := c;
      outputDir := dir;
      allSpectrograms := [];
      events := [];
      saved := [];
    }

    /** `download_data_for_day`: request one day; an exception becomes None. */
    method DownloadDataForDay(date: int) returns (raw: Option<Stream<D>>)
      modifies this
      ensures raw == Download(collaborators, date)
      ensures events == old(events) + [DownloadEvent(collaborators, date)]
      ensures allSpectrograms == old(allSpectrograms) && saved == old(saved)
    {
      var fetched := collaborators.getWaveforms(Request(NETWORK, STATION, LOCATION, CHANNEL, date, date + DAY));
      match fetched {
        case Fetched(st) =>
          events := events + [Downloaded(date)];
          raw := Some(st);
        case Raised(e) =>
          events := events + [NoData(date, e)];
          raw := None;
      }
    }

    /** `process_and_collect_segments`: append one normalised spectrogram per segment,
        in segment order, leaving the earlier entries as they were. */
    method ProcessAndCollectSegments(segments: seq<Segment<D>>)
      modifies this
      ensures allSpectrograms == old(allSpectrograms) + Features(collaborators, segments)
      ensures events == old(events) && saved == old(saved)
    {
      var i := 0;
      while i < |segments|
        invariant 0 <= i <= |segments|
        invariant allSpectrograms == old(allSpectrograms) + Features(collaborators, segments[..i])
        invariant events == old(events) && saved == old(saved)
      {
        var sxx := collaborators.log1p(collaborators.spectrogram(segments[i], NFFT, NOverlap(NFFT, OVERLAP)));
        var normalized := collaborators.normalize(sxx);
        allSpectrograms := allSpectrograms + [normalized];
        i := i + 1;
      }
      assert segments[..i] == segments;
    }

    /** `save_all_spectrograms`: write the whole list as one array to Input.npy
        under the output directory, and report that path. */
    method SaveAllSpectrograms()
      modifies this
      ensures saved == old(saved) + [allSpectrograms]
      ensures events == old(events) + [Saved(PosixPath.Join(outputDir, OUTPUT_FILE))]
      ensures allSpectrograms == old(allSpectrograms)
    {
      saved := saved + [allSpectrograms];
      var outputPath := PosixPath.Join(outputDir, OUTPUT_FILE);
      events := events + [Saved(outputPath)];
    }

    /** `main`, over the range [startDate, endDate) (the script passes START_DATE and
        END_DATE): visit every day, skip one whose download failed, and save the
        collection exactly once, after the loop. */
    method RunDays(startDate: int, endDate: int)
      modifies this
      ensures allSpectrograms == old(allSpectrograms) + Corpus(collaborators, Days(startDate, endDate))
      ensures events == old(events) + RunEvents(collaborators, Days(startDate, endDate))
                        + [Saved(PosixPath.Join(outputDir, OUTPUT_FILE))]
      ensures saved == old(saved) + [allSpectrograms]
    {
      ghost var c := collaborators;
      ghost var corpus := old(allSpectrograms) + Corpus(c, Days(startDate, endDate));
      ghost var report := old(events) + RunEvents(c, Days(startDate, endDate));
      var current := startDate;
      while current < endDate
        invariant corpus == allSpectrograms + Corpus(c, Days(current, endDate))
        invariant report == events + RunEvents(c, Days(current, endDate))
        invariant saved == old(saved)
        decreases endDate - current
      {
        ghost var rest := Days(current + DAY, endDate);
        assert Days(current, endDate) == [current] + rest;
        DayStep(c, current, rest);
        ghost var before, reported := allSpectrograms, events;
        var raw := DownloadDataForDay(current);
        if raw.None? {
          assert allSpectrograms == before + DayFeatures(c, current);
          assert events == reported + DayEvents(c, current);
          Reassociate(corpus, before, DayFeatures(c, current), Corpus(c, rest));
          Reassociate(report, reported, DayEvents(c, current), RunEvents(c, rest));
          current := current + DAY;  // skip to the next day
          continue;
        }
        var processed := collaborators.preprocess(raw.value);
        var segments := SegmentData(processed, DEFAULT_SEGMENT_LENGTH);
        events := events + [Segmented(current, |segments|)];
        ProcessAndCollectSegments(segments);
        assert segments == DaySegments(c, raw.value);
        assert allSpectrograms == before + DayFeatures(c, current);
        assert events == reported + DayEvents(c, current);
        Reassociate(corpus, before, DayFeatures(c, current), Corpus(c, rest));
        Reassociate(report, reported, DayEvents(c, current), RunEvents(c, rest));
        current := current + DAY;
      }
      SaveAllSpectrograms();
    }
  }
}
