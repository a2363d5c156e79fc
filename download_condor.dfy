/** The day-by-day downloader `download_data` of
    notebooks/HOPS_analysis/download_condor.py. The client, the merge of a
    stream's traces and the files written are abstract: a run is described by
    the log of actions it performs, the list of dates it collects and whether
    it completed. Instants are integer seconds since the epoch. */
module DownloadCondor {
  import Decimal
  import PosixPath

  /** `tr_length = 24 * 60 * 60`. */
  const TR_LENGTH: int := 86400
  /** The configuration of `main`. */
  const NUM_DAYS: int := 100
  /** 2021-06-24T00:00:00 UTC. */
  const START_TIME: int := 1624492800
  const END_TIME: int := START_TIME + NUM_DAYS * (60 * 60 * 24)
  /** `60 * 60 * 24 * 0.05` seconds. */
  const BUFFER: int := 4320
  const NET: string := "9F*"
  const STA: string := "HOPS"
  const LOC: string := "*"
  const CHA: string := "HHE"
  /** The suffix of every file written, after the day number and an underscore. */
  const FILE_SUFFIX: string := "_9fhops.mseed"
  const DATES_FILE: string := "date_list.csv"

  /** The arguments of `client.get_waveforms`. */
  datatype Request = Request(network: string, station: string, location: string, channel: string,
                             start: int, end: int)

  /** What one call of the client does: return a stream, or raise. */
  datatype Fetch<W> = Fetched(stream: W) | Raised(message: string)

  /** An effect on the outside world. */
  datatype Action<W> =
    | GetWaveforms(request: Request)
    | WriteMseed(path: string, stream: W)
    | SaveDates(path: string, dates: seq<int>)

  datatype Outcome = Completed | Aborted(message: string)

  /** What a run did: its actions in order, the dates it collected, how it ended. */
  datatype Run<W> = Run(log: seq<Action<W>>, dates: seq<int>, outcome: Outcome)

  /** The parameters of `download_data` (the client is `fetch`, `st.merge` is `merge`). */
  datatype Params<!W> = Params(
    fetch: Request -> Fetch<W>,
    merge: W -> W,
    net: string, sta: string, loc: string, cha: string,
    starttime: int, endtime: int, buffer: int, filepath: string)

  // ---------------------------------------------------------------------------
  // One iteration

  /** `range((endtime - starttime) // tr_length)`: the number of iterations, the
      number of whole days that fit between the two instants (none if the range is empty). */
  function DayCount(starttime: int, endtime: int): (n: nat)
    ensures n == 0 || starttime + n * TR_LENGTH <= endtime
    ensures endtime < starttime + n * TR_LENGTH + TR_LENGTH
  {
    var q := (endtime - starttime) / TR_LENGTH;
    if q <= 0 then 0 else q
  }

  /** A number as Python holds it. */
  datatype PyNumber = PyInt(i: int) | PyFloat(x: real)

  /** What `range(x)` gives a for-loop: a number of iterations, or the
      TypeError a float argument raises. */
  datatype RangeResult = Iterations(count: nat) | TypeError

  /** Python's `x // d` for a positive int `d`: floor division, keeping the kind of `x`. */
  function FloorDivide(x: PyNumber, d: int): (r: PyNumber)
    requires d > 0
    ensures r.PyFloat? <==> x.PyFloat?
  {
    match x
    case PyInt(i) => PyInt(i / d)
    case PyFloat(v) => PyFloat((v / d as real).Floor as real)
  }

  /** `range(x)`: a float is refused, an int counts up from 0 (none when not positive). */
  function Range(x: PyNumber): (r: RangeResult)
    ensures r.TypeError? <==> x.PyFloat?
    ensures x.PyInt? ==> r.count == if x.i <= 0 then 0 else x.i
  {
    match x
    case PyInt(i) => Iterations(if i <= 0 then 0 else i)
    case PyFloat(_) => TypeError
  }

  /** The loop header as written: the difference of two UTCDateTime instants is a
      float number of seconds, so `range` is handed a float. */
  function LoopRangeAsWritten(starttime: int, endtime: int): RangeResult
  {
    Range(FloorDivide(PyFloat((endtime - starttime) as real), TR_LENGTH))
  }

  /** As written, the loop raises before its first iteration, whatever the two instants. */
  lemma LoopRangeAsWrittenRaises(starttime: int, endtime: int)
    ensures LoopRangeAsWritten(starttime, endtime) == TypeError
  {
  }

  /** With an integer difference of seconds the loop runs DayCount times. */
  lemma LoopRangeIntended(starttime: int, endtime: int)
    ensures Range(FloorDivide(PyInt(endtime - starttime), TR_LENGTH)) == Iterations(DayCount(starttime, endtime))
  {
  }

  /** The value of `starttime` during iteration `day`: it grows by tr_length per iteration. */
  function DayStart(starttime: int, day: int): int
  {
    starttime + day * TR_LENGTH
  }

  /** The request of iteration `day`: the day widened by the buffer on both sides. */
  function DayRequest<W>(p: Params<W>, day: int): (r: Request)
    ensures r.start == DayStart(p.starttime, day) - p.buffer
    ensures r.end == DayStart(p.starttime, day) + TR_LENGTH + p.buffer
    ensures r.network == p.net && r.station == p.sta && r.location == p.loc && r.channel == p.cha
  {
    var t := DayStart(p.starttime, day);
    Request(p.net, p.sta, p.loc, p.cha, t - p.buffer, t + p.buffer + TR_LENGTH)
  }

  /** `f'{day + 1}_9fhops.mseed'`. */
  function FileName(day: nat): string
  {
    Decimal.Format(day + 1) + FILE_SUFFIX
  }

  /** The write of iteration `day` once its fetch returned a stream: the merged
      stream, to the day's file under `filepath`. */
  function DayWrite<W>(p: Params<W>, day: nat): Action<W>
    requires p.fetch(DayRequest(p, day)).Fetched?
  {
    WriteMseed(PosixPath.Join(p.filepath, FileName(day)), p.merge(p.fetch(DayRequest(p, day)).stream))
  }

  /** `starttime.date`: the calendar day of an instant, as a day number since the epoch. */
  function DateOf(t: int): int
  {
    t / TR_LENGTH
  }

  // ---------------------------------------------------------------------------
  // The whole run

  /** What the loop does from iteration `day` up to `n`: on each day fetch, then
      write the merged stream and note the date; an exception from the client is
      not caught, so it ends the run at once. */
  function RunFrom<W>(p: Params<W>, day: nat, n: nat): Run<W>
    decreases n - day
  {
    if day >= n then Run([], [], Completed)
    else
      var req := DayRequest(p, day);
      match p.fetch(req)
      case Raised(e) => Run([GetWaveforms(req)], [], Aborted(e))
      case Fetched(st) =>
        var rest := RunFrom(p, day + 1, n);
        Run([GetWaveforms(req), DayWrite(p, day)] + rest.log,
            [DateOf(DayStart(p.starttime, day))] + rest.dates,
            rest.outcome)
  }

  /** `download_data`: the loop, then, if it completed, one save of the dates. */
  function DownloadRun<W>(p: Params<W>): Run<W>
  {
    var r := RunFrom(p, 0, DayCount(p.starttime, p.endtime));
    if r.outcome.Completed? then
      Run(r.log + [SaveDates(PosixPath.Join(p.filepath, DATES_FILE), r.dates)], r.dates, Completed)
    else r
  }

  /** Every day fetched successfully in [day, n). */
  ghost predicate AllFetched<W>(p: Params<W>, day: nat, n: nat)
  {
    forall i :: day <= i < n ==> p.fetch(DayRequest(p, i)).Fetched?
  }

  /** An iteration whose fetch succeeds: its two actions and its date, then the rest of the loop. */
  lemma RunFromStep<W>(p: Params<W>, day: nat, n: nat)
    requires day < n && p.fetch(DayRequest(p, day)).Fetched?
    ensures var rest := RunFrom(p, day + 1, n);
      RunFrom(p, day, n)
      == Run([GetWaveforms(DayRequest(p, day)), DayWrite(p, day)] + rest.log,
             [DateOf(DayStart(p.starttime, day))] + rest.dates,
             rest.outcome)
  {
  }

  /** When every fetch succeeds, the loop completes with two actions and one date per day. */
  lemma {:induction false} RunFromLength<W>(p: Params<W>, day: nat, n: nat)
    requires day <= n
    requires AllFetched(p, day, n)
    ensures var r := RunFrom(p, day, n);
      r.outcome == Completed && |r.dates| == n - day && |r.log| == 2 * (n - day)
    decreases n - day
  {
    if day < n {
      RunFromLength(p, day + 1, n);
    }
  }

  /** The fields of a successful iteration, one by one. */
  lemma StepFields<W>(p: Params<W>, day: nat, n: nat)
    requires day < n && p.fetch(DayRequest(p, day)).Fetched?
    ensures var r, rest := RunFrom(p, day, n), RunFrom(p, day + 1, n);
      r.log == [GetWaveforms(DayRequest(p, day)), DayWrite(p, day)] + rest.log
      && r.dates == [DateOf(DayStart(p.starttime, day))] + rest.dates
      && r.outcome == rest.outcome
  {
    RunFromStep(p, day, n);
  }

  /** In a stretch [day, k) whose fetches all succeed, iteration j's request is
      entry 2(j - day) of the log, counted from `day`. */
  lemma {:induction false} FetchedRequestAt<W>(p: Params<W>, day: nat, n: nat, k: nat, j: nat)
    requires day <= j < k <= n
    requires AllFetched(p, day, k)
    ensures var r := RunFrom(p, day, n);
      2 * (j - day) < |r.log| && r.log[2 * (j - day)] == GetWaveforms(DayRequest(p, j))
    decreases j - day
  {
    StepFields(p, day, n);
    if day < j {
      FetchedRequestAt(p, day + 1, n, k, j);
    }
  }

  /** ... and its write is the entry right after it. */
  lemma {:induction false} FetchedWriteAt<W>(p: Params<W>, day: nat, n: nat, k: nat, j: nat)
    requires day <= j < k <= n
    requires AllFetched(p, day, k)
    ensures var r := RunFrom(p, day, n);
      2 * (j - day) + 1 < |r.log| && r.log[2 * (j - day) + 1] == DayWrite(p, j)
    decreases j - day
  {
    StepFields(p, day, n);
    if day < j {
      FetchedWriteAt(p, day + 1, n, k, j);
    }
  }

  /** ... and its date is entry j - day of the dates. */
  lemma {:induction false} FetchedDateAt<W>(p: Params<W>, day: nat, n: nat, k: nat, j: nat)
    requires day <= j < k <= n
    requires AllFetched(p, day, k)
    ensures var r := RunFrom(p, day, n);
      j - day < |r.dates| && r.dates[j - day] == DateOf(DayStart(p.starttime, j))
    decreases j - day
  {
    StepFields(p, day, n);
    if day < j {
      FetchedDateAt(p, day + 1, n, k, j);
    }
  }

  /** Every iteration j of a stretch [day, k) whose fetches all succeed does what a
      successful iteration does: its request, then its write, and its date. */
  lemma FetchedDayAt<W>(p: Params<W>, day: nat, n: nat, k: nat, j: nat)
    requires day <= j < k <= n
    requires AllFetched(p, day, k)
    ensures var r, i := RunFrom(p, day, n), j - day;
      2 * i + 1 < |r.log| && i < |r.dates|
      && r.log[2 * i] == GetWaveforms(DayRequest(p, j))
      && r.log[2 * i + 1] == DayWrite(p, j)
      && r.dates[i] == DateOf(DayStart(p.starttime, j))
  {
    FetchedRequestAt(p, day, n, k, j);
    FetchedWriteAt(p, day, n, k, j);
    FetchedDateAt(p, day, n, k, j);
  }

  /** When the client raises on iteration k and not before, the run stops there with
      its message: two actions per earlier iteration and the failed request last, no save. */
  lemma {:induction false} RunFromAborts<W>(p: Params<W>, day: nat, n: nat, k: nat)
    requires day <= k < n
    requires AllFetched(p, day, k) && p.fetch(DayRequest(p, k)).Raised?
    ensures var r := RunFrom(p, day, n);
      r.outcome == Aborted(p.fetch(DayRequest(p, k)).message)
      && |r.dates| == k - day && |r.log| == 2 * (k - day) + 1
      && r.log[|r.log| - 1] == GetWaveforms(DayRequest(p, k))
      && (forall i :: 0 <= i < |r.log| ==> !r.log[i].SaveDates?)
    decreases k - day
  {
    if day < k {
      RunFromAborts(p, day + 1, n, k);
    }
  }

  /** The whole run when the client never raises: one request and one file per day,
      then the list of dates, one per day in order, saved once. */
  lemma DownloadCompletes<W>(p: Params<W>)
    requires AllFetched(p, 0, DayCount(p.starttime, p.endtime))
    ensures var n := DayCount(p.starttime, p.endtime);
      var r := DownloadRun(p);
      r.outcome == Completed && |r.dates| == n && |r.log| == 2 * n + 1
      && r.log[2 * n] == SaveDates(PosixPath.Join(p.filepath, DATES_FILE), r.dates)
      && (forall i :: 0 <= i < n ==>
            r.dates[i] == DateOf(p.starttime) + i
            && r.log[2 * i] == GetWaveforms(DayRequest(p, i))
            && r.log[2 * i + 1] == DayWrite(p, i))
  {
    var n := DayCount(p.starttime, p.endtime);
    RunFromLength(p, 0, n);
    var r := RunFrom(p, 0, n);
    forall i | 0 <= i < n
      ensures r.dates[i] == DateOf(p.starttime) + i
      ensures r.log[2 * i] == GetWaveforms(DayRequest(p, i))
      ensures r.log[2 * i + 1] == DayWrite(p, i)
    {
      FetchedDayAt(p, 0, n, n, i);
      DateAdvances(p.starttime, i);
    }
  }

  /** The whole run when the client raises on day k and not before: the first k days
      fetched and wrote their files in order, day k only fetched, and the dates are
      never saved (the exception leaves `download_data`). */
  lemma DownloadAborts<W>(p: Params<W>, k: nat)
    requires k < DayCount(p.starttime, p.endtime)
    requires AllFetched(p, 0, k) && p.fetch(DayRequest(p, k)).Raised?
    ensures var r := DownloadRun(p);
      r.outcome == Aborted(p.fetch(DayRequest(p, k)).message)
      && |r.dates| == k && |r.log| == 2 * k + 1
      && r.log[2 * k] == GetWaveforms(DayRequest(p, k))
      && (forall i :: 0 <= i < |r.log| ==> !r.log[i].SaveDates?)
      && (forall i :: 0 <= i < k ==>
            r.dates[i] == DateOf(p.starttime) + i
            && r.log[2 * i] == GetWaveforms(DayRequest(p, i))
            && r.log[2 * i + 1] == DayWrite(p, i))
  {
    var n := DayCount(p.starttime, p.endtime);
    RunFromAborts(p, 0, n, k);
    var r := RunFrom(p, 0, n);
    forall i | 0 <= i < k
      ensures r.dates[i] == DateOf(p.starttime) + i
      ensures r.log[2 * i] == GetWaveforms(DayRequest(p, i))
      ensures r.log[2 * i + 1] == DayWrite(p, i)
    {
      FetchedDayAt(p, 0, n, k, i);
      DateAdvances(p.starttime, i);
    }
  }

  /** `starttime.date` of iteration i is i days after the first date. */
  lemma DateAdvances(t: int, i: int)
    ensures DateOf(DayStart(t, i)) == DateOf(t) + i
  {
    var q := t / TR_LENGTH;
    assert t == q * TR_LENGTH + t % TR_LENGTH;
    assert DayStart(t, i) == (q + i) * TR_LENGTH + t % TR_LENGTH;
  }

  /** The configured run makes exactly NUM_DAYS iterations. */
  lemma ConfiguredDayCount()
    ensures DayCount(START_TIME, END_TIME) == NUM_DAYS
  {
  }

  /** The arguments `main` passes to `download_data`. */
  function ConfiguredParams<W>(fetch: Request -> Fetch<W>, merge: W -> W, filepath: string): Params<W>
  {
    Params(fetch, merge, NET, STA, LOC, CHA, START_TIME, END_TIME, BUFFER, filepath)
  }

  /** The configured run: 100 iterations; iteration i asks "9F*"/"HOPS"/"*"/"HHE"
      for day i widened by 4320 s on both sides, so the first request is
      [START_TIME - 4320, START_TIME + 90720] and the last one ends 4320 s after the end. */
  lemma ConfiguredRequests<W>(fetch: Request -> Fetch<W>, merge: W -> W, filepath: string, i: int)
    ensures var p := ConfiguredParams(fetch, merge, filepath);
      DayCount(p.starttime, p.endtime) == 100
      && DayRequest(p, i) == Request("9F*", "HOPS", "*", "HHE",
                                     START_TIME + i * 86400 - 4320, START_TIME + i * 86400 + 90720)
      && DayRequest(p, 0) == Request("9F*", "HOPS", "*", "HHE", START_TIME - 4320, START_TIME + 90720)
      && DayRequest(p, 99).end == END_TIME + 4320
  {
  }

  /** Each request is one day plus the buffer on both sides, it covers its whole
      day when the buffer is not negative, and consecutive requests overlap by twice the buffer. */
  lemma RequestWindows<W>(p: Params<W>, day: int)
    ensures DayRequest(p, day).end - DayRequest(p, day).start == TR_LENGTH + 2 * p.buffer
    ensures p.buffer >= 0 ==>
      DayRequest(p, day).start <= DayStart(p.starttime, day)
      && DayStart(p.starttime, day) + TR_LENGTH <= DayRequest(p, day).end
    ensures DayRequest(p, day + 1).start == DayRequest(p, day).start + TR_LENGTH
    ensures DayRequest(p, day).end - DayRequest(p, day + 1).start == 2 * p.buffer
  {
    assert DayStart(p.starttime, day + 1) == DayStart(p.starttime, day) + TR_LENGTH;
  }

  /** Iterations write to pairwise different files. */
  lemma FileNamesDistinct(i: nat, j: nat)
    ensures FileName(i) == FileName(j) <==> i == j
  {
    if FileName(i) == FileName(j) {
      var a, b := Decimal.Format(i + 1), Decimal.Format(j + 1);
      assert |a| == |b|;
      assert a == FileName(i)[..|a|] && b == FileName(j)[..|b|];
      Decimal.FormatInjective(i + 1, j + 1);
    }
  }

  /** And so do their paths under the same directory. */
  lemma FilePathsDistinct(dir: string, i: nat, j: nat)
    ensures PosixPath.Join(dir, FileName(i)) == PosixPath.Join(dir, FileName(j)) <==> i == j
  {
    Decimal.ParseFormat(i + 1);
    Decimal.ParseFormat(j + 1);
    PosixPath.JoinInjective(dir, FileName(i), FileName(j));
    FileNamesDistinct(i, j);
  }

  // ---------------------------------------------------------------------------
  // The loop

  /** A run that performed `log` and collected `dates` before going on as `rest`. */
  function After<W>(log: seq<Action<W>>, dates: seq<int>, rest: Run<W>): Run<W>
  {
    Run(log + rest.log, dates + rest.dates, rest.outcome)
  }

  /** A successful iteration moves its request, its write and its date from the
      rest of the loop to what was done. */
  lemma AfterFetched<W>(p: Params<W>, day: nat, n: nat, log: seq<Action<W>>, dates: seq<int>)
    requires day < n && p.fetch(DayRequest(p, day)).Fetched?
    ensures After(log, dates, RunFrom(p, day, n))
      == After(log + [GetWaveforms(DayRequest(p, day))] + [DayWrite(p, day)],
               dates + [DateOf(DayStart(p.starttime, day))], RunFrom(p, day + 1, n))
  {
    RunFromStep(p, day, n);
    var rest := RunFrom(p, day + 1, n);
    assert log + ([GetWaveforms(DayRequest(p, day)), DayWrite(p, day)] + rest.log)
      == log + [GetWaveforms(DayRequest(p, day))] + [DayWrite(p, day)] + rest.log;
    assert dates + ([DateOf(DayStart(p.starttime, day))] + rest.dates)
      == dates + [DateOf(DayStart(p.starttime, day))] + rest.dates;
  }

  /** A failing iteration ends the run after its request. */
  lemma AfterRaised<W>(p: Params<W>, day: nat, n: nat, log: seq<Action<W>>, dates: seq<int>)
    requires day < n && p.fetch(DayRequest(p, day)).Raised?
    ensures After(log, dates, RunFrom(p, day, n))
      == Run(log + [GetWaveforms(DayRequest(p, day))], dates, Aborted(p.fetch(DayRequest(p, day)).message))
  {
    assert dates + [] == dates;
  }

  /** `download_data`. */
  method DownloadData<W>(p: Params<W>) returns (log: seq<Action<W>>, dates: seq<int>, outcome: Outcome)
    ensures Run(log, dates, outcome) == DownloadRun(p)
  {
    dates := [];
    log := [];
    var starttime := p.starttime;
    var n := DayCount(p.starttime, p.endtime);
    ghost var whole := RunFrom(p, 0, n);
    assert whole == After(log, dates, RunFrom(p, 0, n));
    for day := 0 to n
      invariant starttime == DayStart(p.starttime, day)
      invariant whole == After(log, dates, RunFrom(p, day, n))
    {
      var req := Request(p.net, p.sta, p.loc, p.cha, starttime - p.buffer, starttime + p.buffer + TR_LENGTH);
      assert req == DayRequest(p, day);
      var fetched := p.fetch(req);
      match fetched {
        case Raised(e) =>
          AfterRaised(p, day, n, log, dates);
          log := log + [GetWaveforms(req)];
          outcome := Aborted(e);
          return;
        case Fetched(st) =>
          AfterFetched(p, day, n, log, dates);
          log := log + [GetWaveforms(req)];
          log := log + [WriteMseed(PosixPath.Join(p.filepath, FileName(day)), p.merge(st))];
          dates := dates + [DateOf(starttime)];
          starttime := starttime + TR_LENGTH;
      }
    }
    assert log + [] == log && dates + [] == dates;
    log := log + [SaveDates(PosixPath.Join(p.filepath, DATES_FILE), dates)];
    outcome := Completed;
  }
}
