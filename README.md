# Geldingadalir seismic pipeline — a verified model

This project models the integer time arithmetic and list building at the
core of the Geldingadalir seismic-analysis scripts. It has three parts.

- **The feature pipeline** (`notebooks/NUPH_unified_analysis/unified_processing.py.py`):
  - It walks the days from 2021-03-12 to 2021-06-24 in strides of 86400 s.
  - It downloads each day as a request for `[date, date + 86400]`. A day whose download raises is skipped.
  - It conditions each remaining day and cuts it into one-hour segments (`segment_data`).
  - Each segment becomes a normalised log spectrogram, appended to `all_spectrograms`.
  - The list is saved once, after the loop.
- **The downloader** (`notebooks/HOPS_analysis/download_condor.py`):
  - It makes one request per whole day, widened by a buffer on both sides.
  - It writes each day to a file named `{day+1}_9fhops.mseed` and collects the day's date.
  - After the loop it saves the list of dates.
- **The renamer** (`notebooks/NUPH_analysis/change_raw_filenames.py`): every regular file of a directory loses everything up to and including the first `_` of its name.

Instants are integer seconds since the Unix epoch. A trace is its time bounds
plus an uninterpreted sample payload, and a stream is a sequence of traces.
Code the scripts call but that is not part of this model is a function-typed
parameter:
- the FDSN client;
- ObsPy's conditioning and `merge`;
- scipy's `spectrogram`, `np.log1p` and the normalisation.

File and network effects are values:
- the downloader returns the log of actions it performs;
- the pipeline object records what it reports and what it saves;
- the renamer updates a map from names to directory entries.

Modules:
- `Segmenter` (`segmenter.dfy`) models `segment_data`. The method `SegmentData` is proved equal to the recursive definition `StreamSegments`. The lemmas `TraceSegmentsAreWindows` and `StreamSegmentsAppend` connect that to the closed-form windows `Windows`.
- `UnifiedProcessing` (`unified_processing.dfy`) models the day loop of `main`, the request of `download_data_for_day` and `n_overlap`. The class `Pipeline` holds the module-level list `all_spectrograms` and has methods for `download_data_for_day`, `process_and_collect_segments`, `save_all_spectrograms` and `main` (`RunDays`).
- `DownloadCondor` (`download_condor.dfy`) models `download_data`. The method `DownloadData` is proved equal to the function `DownloadRun`, and lemmas about `DownloadRun` state what a run does.
- `Decimal` (`decimal.dfy`) models the decimal text of `f'{n}'`, with a parse round trip.
- `PosixPath` (`posix_path.dfy`) models `os.path.join` with two arguments on POSIX.
- `RenameFiles` (`rename_files.dfy`) models the name rule `filename.split('_', 1)[-1]` and the `rename_files` loop, as the class `Folder`.

Three facts about the code shape the model:
- In `download_data_for_day`, the `try`/`except` covers only the client call and its "downloaded" print, together with the request bounds and the return (lines 32-36). Conditioning, segmenting and the spectrogram happen outside it, so an exception from any of them ends `main`, and nothing is saved.
- The pipeline's request covers exactly `[date, date + 86400]`, with no buffer. Only the downloader widens its requests.
- The docstring of `preprocess_data` lists resampling before the bandpass filter, but the code filters first and then resamples. The model keeps conditioning abstract either way.

## Model

Source paths are relative to the repository root.

| member | source | states |
|---|---|---|
| Segmenter.SegmentData | notebooks/NUPH_unified_analysis/unified_processing.py.py:51-62 | The segments are the stream's traces' segments, in trace order. Each trace's segments are cut from its start in strides of the segment length while a whole segment still fits. |
| Segmenter.TraceSegmentsAreWindows | notebooks/NUPH_unified_analysis/unified_processing.py.py:57-61 | A trace from s to e gives exactly the windows [s + kL, s + kL + L] for k = 0, 1, …. There are floor((e − s)/L) of them, and none when e < s. |
| Segmenter.SegmentAt | notebooks/NUPH_unified_analysis/unified_processing.py.py:57-61 | The k-th segment cut from cursor `from` is [from + kL, from + kL + L], and it ends no later than the trace. |
| Segmenter.SegmentsFromTail | notebooks/NUPH_unified_analysis/unified_processing.py.py:58-61 | After the last segment, less than one length of the trace is left. When a segment was cut, the cursor has not passed the end. |
| Segmenter.SegmentsContiguous | notebooks/NUPH_unified_analysis/unified_processing.py.py:58-61 | Every segment belongs to the trace, lies inside it and is exactly L long. The first starts at the trace start, and each later one starts where the previous one ends. |
| Segmenter.ShortTailDropped | notebooks/NUPH_unified_analysis/unified_processing.py.py:58 | The uncut tail is shorter than L, and not negative when the trace is not inverted. A trace gives no segment exactly when it is shorter than L. |
| Segmenter.StreamSegmentsAppend | notebooks/NUPH_unified_analysis/unified_processing.py.py:55-62 | Adding a trace at the end of a stream appends exactly that trace's windows to the stream's segments. |
| Segmenter.StreamSegmentCount | notebooks/NUPH_unified_analysis/unified_processing.py.py:55-62 | A stream's segment count is the sum of its traces' window counts. |
| Segmenter.DaySegmentation | notebooks/NUPH_unified_analysis/unified_processing.py.py:51-61 | With the default length of 3600 s, a trace of exactly one day gives 24 segments. One a second shorter gives 23. |
| UnifiedProcessing.NOverlap | notebooks/NUPH_unified_analysis/unified_processing.py.py:68 | `int(nfft * overlap)` truncates toward zero: for a non-negative product the result is its floor, and for a negative one its ceiling. |
| UnifiedProcessing.OverlapBelowWindow | notebooks/NUPH_unified_analysis/unified_processing.py.py:64-69 | For a positive window and an overlap in [0, 1), the overlap passed to the spectrogram is in [0, nfft). |
| UnifiedProcessing.DefaultOverlap | notebooks/NUPH_unified_analysis/unified_processing.py.py:64-68 | The defaults nfft = 256 and overlap = 0.5 give an overlap of 128 samples. |
| UnifiedProcessing.DayAt | notebooks/NUPH_unified_analysis/unified_processing.py.py:100-120 | The k-th visited day is from + k·86400, and it is below the end. |
| UnifiedProcessing.DaysEnd | notebooks/NUPH_unified_analysis/unified_processing.py.py:102 | The day after the last visited one is not below the end, and the last visited day is. |
| UnifiedProcessing.DaysAreStrides | notebooks/NUPH_unified_analysis/unified_processing.py.py:100-120 | The driver visits ceil((end − start)/86400) days. The k-th is start + k·86400 and below the end, consecutive days are 86400 s apart, and every stride point in [start, end) is visited. |
| UnifiedProcessing.ConfiguredDayCount | notebooks/NUPH_unified_analysis/unified_processing.py.py:15-16 | The configured range from 2021-03-12 to 2021-06-24 is 104 days. |
| UnifiedProcessing.UnavailableDay | notebooks/NUPH_unified_analysis/unified_processing.py.py:104-107 | A day whose download returns None adds nothing to the collection. Its only report is "no data", with the exception's message. |
| UnifiedProcessing.CorpusAppend | notebooks/NUPH_unified_analysis/unified_processing.py.py:83-87 | The collection over two runs of days is the first one's collection followed by the second's, so later days never alter earlier entries. |
| UnifiedProcessing.CorpusSize | notebooks/NUPH_unified_analysis/unified_processing.py.py:110-117 | The collection has one entry per segment of every day that was downloaded. |
| UnifiedProcessing.FullDaysCorpusSize | notebooks/NUPH_unified_analysis/unified_processing.py.py:100-120 | When every day conditions into one trace covering the whole day, the collection has 24 entries per day. |
| UnifiedProcessing.SecondDayUnavailable | notebooks/NUPH_unified_analysis/unified_processing.py.py:102-120 | If the first of two days yields one full-day trace and the second fails, the collection is the first day's 24 entries. The report is: downloaded, segmented into 24, then no data for day two with the client's reason. |
| UnifiedProcessing.Pipeline.constructor | notebooks/NUPH_unified_analysis/unified_processing.py.py:20-25 | The script starts with an empty `all_spectrograms`, with nothing reported and nothing saved, and with its output directory. |
| UnifiedProcessing.Pipeline.DownloadDataForDay | notebooks/NUPH_unified_analysis/unified_processing.py.py:27-39 | Requests exactly [date, date + 86400] for the configured network, station, location and channel. Returns None exactly when the client raised, and otherwise the stream it returned. Reports either "downloaded" or "no data" with the reason. The collection and the saved output are unchanged. |
| UnifiedProcessing.Pipeline.ProcessAndCollectSegments | notebooks/NUPH_unified_analysis/unified_processing.py.py:79-87 | The collection becomes the old collection followed by one feature per segment, in segment order: the normalised log1p of the segment's spectrogram. Nothing else changes. |
| UnifiedProcessing.Pipeline.SaveAllSpectrograms | notebooks/NUPH_unified_analysis/unified_processing.py.py:89-96 | The whole current collection is written once to Input.npy under the output directory, and that path is reported. The collection is unchanged. |
| UnifiedProcessing.Pipeline.RunDays | notebooks/NUPH_unified_analysis/unified_processing.py.py:98-123 | The collection grows by exactly the features of every visited day, in day order, and skipped days add nothing. The report is each day's messages in order, then the saved path. The collection is saved exactly once, after the loop. |
| DownloadCondor.DayCount | notebooks/HOPS_analysis/download_condor.py:9-11 | The loop count is the number of whole days between the two instants: floor((end − start)/86400), or 0 for an empty range. |
| DownloadCondor.FloorDivide | notebooks/HOPS_analysis/download_condor.py:11 | Python's `//` keeps a float a float and an int an int. |
| DownloadCondor.LoopRangeAsWrittenRaises | notebooks/HOPS_analysis/download_condor.py:11 | As written, the loop header raises TypeError for every pair of instants. |
| DownloadCondor.LoopRangeIntended | notebooks/HOPS_analysis/download_condor.py:11 | With an integer difference of seconds, the loop runs DayCount times. |
| DownloadCondor.RequestWindows | notebooks/HOPS_analysis/download_condor.py:18-19 | Every request is 86400 + 2·buffer long and covers its whole day when the buffer is not negative. Consecutive requests start 86400 s apart and overlap by 2·buffer. |
| DownloadCondor.DateAdvances | notebooks/HOPS_analysis/download_condor.py:25-26 | The date collected on iteration i is i days after the first date. |
| DownloadCondor.RunFromLength | notebooks/HOPS_analysis/download_condor.py:11-26 | When no fetch raises, the loop completes with two actions and one date per day. |
| DownloadCondor.FetchedRequestAt | notebooks/HOPS_analysis/download_condor.py:13-20 | In a stretch of days whose fetches all succeed, the log holds day j's request at position 2(j − first day). |
| DownloadCondor.FetchedWriteAt | notebooks/HOPS_analysis/download_condor.py:22-24 | In such a stretch, the log holds day j's write, of the merged stream to its numbered file, right after day j's request. |
| DownloadCondor.FetchedDateAt | notebooks/HOPS_analysis/download_condor.py:25-26 | In such a stretch, day j's date is entry j − first day of the dates. |
| DownloadCondor.FetchedDayAt | notebooks/HOPS_analysis/download_condor.py:13-26 | Every day of such a stretch has its request, then its write, then its date in place, whether the run later completes or aborts. |
| DownloadCondor.RunFromAborts | notebooks/HOPS_analysis/download_condor.py:11-20 | When the client first raises on day k, the loop stops there with that message. It has two actions per earlier day and one date per earlier day, ends with day k's request, and logs no save. |
| DownloadCondor.DownloadCompletes | notebooks/HOPS_analysis/download_condor.py:7-28 | When no fetch raises, the run completes with one request, then one write, per day in order. Day i's request is [start₀ + i·86400 − buffer, start₀ + i·86400 + 86400 + buffer] for the given network, station, location and channel. Its dates are the first date plus 0, 1, …, n − 1, and it ends with one save of exactly those dates to date_list.csv. |
| DownloadCondor.DownloadAborts | notebooks/HOPS_analysis/download_condor.py:11-28 | When the client first raises on day k, the run aborts with its message. Days 0 … k − 1 each have their request and then their write, in order, and their dates are the first date plus 0 … k − 1. The log ends with day k's request and never saves the dates. |
| DownloadCondor.ConfiguredDayCount | notebooks/HOPS_analysis/download_condor.py:33-35 | The configured run of 100 days makes exactly 100 iterations. |
| DownloadCondor.ConfiguredRequests | notebooks/HOPS_analysis/download_condor.py:33-40 | With `main`'s arguments, there are 100 iterations. Iteration i asks "9F*"/"HOPS"/"*"/"HHE" for [START_TIME + 86400·i − 4320, START_TIME + 86400·i + 90720]. The first request is [START_TIME − 4320, START_TIME + 90720], and the last ends 4320 s after the end time. |
| DownloadCondor.FileNamesDistinct | notebooks/HOPS_analysis/download_condor.py:23 | Two iterations write files of the same name exactly when they are the same iteration. |
| DownloadCondor.FilePathsDistinct | notebooks/HOPS_analysis/download_condor.py:23-24 | Under the same directory, the paths of two iterations' files are equal exactly when the iterations are. |
| DownloadCondor.DownloadData | notebooks/HOPS_analysis/download_condor.py:7-29 | The loop's log, dates and outcome are exactly those of DownloadRun: requests and writes per day, an abort at the first exception, and otherwise one save of the dates. |
| Decimal.ParseFormat | notebooks/HOPS_analysis/download_condor.py:23 | The f-string text of a number is a non-empty string of digits. It reads back as the number and has no leading zero unless the number is 0. |
| Decimal.FormatInjective | notebooks/HOPS_analysis/download_condor.py:23 | Different numbers have different texts. |
| PosixPath.JoinRelative | notebooks/NUPH_analysis/change_raw_filenames.py:5-8 | A relative name is appended to the directory part. The result starts with that part and ends with the name. |
| PosixPath.JoinInjective | notebooks/HOPS_analysis/download_condor.py:24 | Joining two relative names to one directory gives the same path exactly when the names are equal. |
| RenameFiles.IndexOf | notebooks/NUPH_analysis/change_raw_filenames.py:7 | The position of the first occurrence of the separator: it is there, and not before. |
| RenameFiles.SplitOnce | notebooks/NUPH_analysis/change_raw_filenames.py:7 | `split(sep, 1)` gives two parts when the separator occurs and one otherwise. |
| RenameFiles.NoUnderscoreUnchanged | notebooks/NUPH_analysis/change_raw_filenames.py:7 | A name containing no `_` is kept. |
| RenameFiles.SplitAtFirstUnderscore | notebooks/NUPH_analysis/change_raw_filenames.py:7 | A name with `_` is an underscore-free prefix, then `_`, then the new name. Conversely, any such decomposition gives the new name. |
| RenameFiles.NewNameIsSuffix | notebooks/NUPH_analysis/change_raw_filenames.py:7 | The new name is a suffix of the old one and never longer. It is strictly shorter exactly when the old one has `_`. |
| RenameFiles.NotInjective | notebooks/NUPH_analysis/change_raw_filenames.py:7 | "1_a" and "2_a" both become "a". |
| RenameFiles.NewNameHasNoSlash | notebooks/NUPH_analysis/change_raw_filenames.py:4-8 | A listed name has no `/`, and then neither has its new name. |
| RenameFiles.SameDirectory | notebooks/NUPH_analysis/change_raw_filenames.py:5-8 | The old and the new path are the directory part followed by the old and the new name, so only the last component changes. |
| RenameFiles.ConfiguredPaths | notebooks/NUPH_analysis/change_raw_filenames.py:5-12 | In the script's directory, both paths are "notebooks/NUPH_analysis/data/raw/" followed by the old or the new name. |
| RenameFiles.RenameOneKeepsDirectories | notebooks/NUPH_analysis/change_raw_filenames.py:6-9 | One step keeps every directory entry and creates none. |
| RenameFiles.DirectoriesUntouched | notebooks/NUPH_analysis/change_raw_filenames.py:4-9 | The whole loop keeps every directory entry and creates none. |
| RenameFiles.NonFileSkipped | notebooks/NUPH_analysis/change_raw_filenames.py:6 | A listed name that is not a regular file changes nothing and is not reported. |
| RenameFiles.FileMoves | notebooks/NUPH_analysis/change_raw_filenames.py:6-9 | A regular file moves to its new name with its contents, replacing any regular file there. When the names differ the old name is gone. The names afterwards are the old names without the file's name and with its new name, every other entry is unchanged, and the move is reported once as the joined old and new paths. |
| RenameFiles.Folder.RenameFilesIn | notebooks/NUPH_analysis/change_raw_filenames.py:3-10 | After the loop over the listing, the directory, the report lines and the failing name, if any, are exactly those of RenameAll. |

The definitions the rows above speak about, and the source each one models:

- `Segmenter.SegmentsFrom` — notebooks/NUPH_unified_analysis/unified_processing.py.py:58-61 — the segments the inner `while` cuts once its cursor is at `from`: [from, from + L], then the rest from from + L, while from + L <= end.
- `Segmenter.TraceSegments` — notebooks/NUPH_unified_analysis/unified_processing.py.py:57 — `SegmentsFrom` with the cursor at the trace's start.
- `Segmenter.StreamSegments` — notebooks/NUPH_unified_analysis/unified_processing.py.py:55-62 — every trace's segments, concatenated in trace order.
- `Segmenter.WindowCount`, `Segmenter.Windows` — reference definitions, not code: floor((e − s)/L) windows, the k-th being [s + kL, s + kL + L].
- `UnifiedProcessing.DayRequest` — notebooks/NUPH_unified_analysis/unified_processing.py.py:32-34 — the request for `[date, date + 86400]` with the configured network, station, location and channel.
- `UnifiedProcessing.Download` — notebooks/NUPH_unified_analysis/unified_processing.py.py:31-39 — the value `download_data_for_day` returns: the stream, or None when the client raised.
- `UnifiedProcessing.DownloadEvent` — notebooks/NUPH_unified_analysis/unified_processing.py.py:35, 38 — the line `download_data_for_day` prints: "downloaded", or "no data" with the exception's message.
- `UnifiedProcessing.Trunc` — notebooks/NUPH_unified_analysis/unified_processing.py.py:68 — Python's `int()` on a number: truncation toward zero.
- `UnifiedProcessing.Feature` — notebooks/NUPH_unified_analysis/unified_processing.py.py:85-86 — `normalize_spectrogram(compute_spectrogram(segment))` with the defaults nfft = 256, n_overlap = 128.
- `UnifiedProcessing.Features` — notebooks/NUPH_unified_analysis/unified_processing.py.py:84-87 — `Feature` of every segment, in segment order.
- `UnifiedProcessing.DaySegments` — notebooks/NUPH_unified_analysis/unified_processing.py.py:110-113 — the day's stream conditioned, then cut into 3600 s segments.
- `UnifiedProcessing.DayFeatures` — notebooks/NUPH_unified_analysis/unified_processing.py.py:104-117 — what one iteration of the day loop appends: nothing when the download returned None, otherwise one feature per segment.
- `UnifiedProcessing.DayEvents` — notebooks/NUPH_unified_analysis/unified_processing.py.py:104-117 — what one iteration reports: the download line, then, for a downloaded day, "segmented into n windows".
- `UnifiedProcessing.Days` — notebooks/NUPH_unified_analysis/unified_processing.py.py:100-120 — the dates the loop visits: from, from + 86400, … while below the end.
- `UnifiedProcessing.CeilDays` — reference definition: ceil((end − from)/86400), or 0 for an empty range.
- `UnifiedProcessing.Corpus`, `UnifiedProcessing.RunEvents` — notebooks/NUPH_unified_analysis/unified_processing.py.py:100-120 — the list and the report the loop builds over a run of days: each day's contribution in day order.
- `UnifiedProcessing.DaySegmentCount`, `UnifiedProcessing.TotalSegments` — notebooks/NUPH_unified_analysis/unified_processing.py.py:113-114 — the segment count of a day (0 when skipped) and its sum over a run of days.
- `DownloadCondor.DayStart` — notebooks/HOPS_analysis/download_condor.py:26 — the value of `starttime` on iteration `day`: the first instant plus day · 86400.
- `DownloadCondor.DayRequest` — notebooks/HOPS_analysis/download_condor.py:13-20 — iteration `day`'s request: [DayStart − buffer, DayStart + 86400 + buffer] with the given network, station, location and channel.
- `DownloadCondor.FileName` — notebooks/HOPS_analysis/download_condor.py:23 — `f'{day + 1}_9fhops.mseed'`.
- `DownloadCondor.DayWrite` — notebooks/HOPS_analysis/download_condor.py:22-24 — iteration `day`'s `st.write`: the merged stream, to `join(filepath, FileName(day))`.
- `DownloadCondor.DateOf` — notebooks/HOPS_analysis/download_condor.py:25 — `starttime.date`, as a day number since the epoch.
- `DownloadCondor.RunFrom` — notebooks/HOPS_analysis/download_condor.py:11-26 — the loop from iteration `day` up to `n`. Each iteration requests; if the client raises, the run aborts after that request; otherwise it writes, collects its date and goes on.
- `DownloadCondor.DownloadRun` — notebooks/HOPS_analysis/download_condor.py:7-28 — `download_data`: the loop, then, if it completed, one save of the dates to `join(filepath, "date_list.csv")`.
- `DownloadCondor.ConfiguredParams` — notebooks/HOPS_analysis/download_condor.py:32-43 — the arguments `main` passes.
- `DownloadCondor.Range` — notebooks/HOPS_analysis/download_condor.py:11 — Python's `range` on a number: TypeError for a float, max(i, 0) iterations for an int i.
- `DownloadCondor.LoopRangeAsWritten` — notebooks/HOPS_analysis/download_condor.py:11 — the loop header as written: `range` of a float floor division, the as-written half of the finding below.
- `Decimal.Format` — notebooks/HOPS_analysis/download_condor.py:23 — the decimal text `f'{n}'` of a non-negative integer: digits only, most significant first.
- `Decimal.Parse` — reference definition: the value of a string of digits.
- `PosixPath.DirPrefix` — notebooks/HOPS_analysis/download_condor.py:24, notebooks/NUPH_analysis/change_raw_filenames.py:5 — what `os.path.join` puts before a relative name: the directory, plus '/' unless it is empty or already ends in '/'.
- `PosixPath.Join` — notebooks/HOPS_analysis/download_condor.py:24, notebooks/NUPH_analysis/change_raw_filenames.py:5, 8 — `os.path.join(dir, name)`: an absolute name replaces the directory, a relative one follows `DirPrefix(dir)`.
- `RenameFiles.NewName` — notebooks/NUPH_analysis/change_raw_filenames.py:7 — `filename.split('_', 1)[-1]`.
- `RenameFiles.IsDirectoryPath` — notebooks/NUPH_analysis/change_raw_filenames.py:8-9 — the names whose path is a directory: "", "." and "..", and the listed directories.
- `RenameFiles.RenameOne` — notebooks/NUPH_analysis/change_raw_filenames.py:5-10 — one iteration. A name that is not a regular file is skipped. Otherwise the POSIX `rename` rules apply: onto its own name changes nothing but is reported; onto a directory raises; otherwise the file moves, replacing a regular file of that name, and is reported.
- `RenameFiles.RenameAll` — notebooks/NUPH_analysis/change_raw_filenames.py:4-10 — the loop over the listing in its order, stopping at the first exception.

Helper lemmas with no row are one-step unfoldings and regroupings used by the loop invariants: `DownloadCondor.RunFromStep`, `StepFields`, `AfterFetched` and `AfterRaised`, `RenameFiles.UnfoldRenameAll` and `ContinueTwice`, `UnifiedProcessing.DayStep` and `Reassociate`, and `Segmenter.MulAtLeast` and `FloorDivUnique`.

## Findings

| source | as written | input that shows it | evidently intended | confidence | as-written member | corrected member |
|---|---|---|---|---|---|---|
| notebooks/HOPS_analysis/download_condor.py:11 | `range((endtime - starttime) // tr_length)` is applied to a UTCDateTime difference, which is a float number of seconds. `//` keeps it a float, and `range` raises TypeError on a float. | The configured run: starttime 2021-06-24, endtime 100 days later. The argument is 100.0 and the loop never starts. | An integer count of whole days | medium: depends on ObsPy's UTCDateTime subtraction returning a float; not executed | DownloadCondor.LoopRangeAsWrittenRaises | DownloadCondor.DayCount (with DownloadCondor.LoopRangeIntended); DownloadData uses it |

## Left out

- ObsPy conditioning (detrend, demean, bandpass, resample) is one uninterpreted stream-to-stream function. Its floating-point signal processing is not modelled.
- `scipy.signal.spectrogram`, `np.log1p` and `normalize_spectrogram` are uninterpreted. Their float results are not modelled, and neither is the unguarded division by a zero standard deviation in `normalize_spectrogram`.
- Exceptions from conditioning, segmenting or the spectrogram in the pipeline are not modelled. In the code they end the run, and nothing is saved.
- Exceptions from `st.merge` (download_condor.py:22), `st.write` and `np.save` are not modelled. Any of them would end `download_data`, and a failed `np.save` would end the pipeline's `main`.
- `tr.slice` is modelled by the segment's time bounds only. Which samples fall into a slice is library behaviour.
- Instants are whole seconds. A real trace ends at its last sample, which can lie 1/fs before the requested end; such a day gives 23 one-hour segments rather than 24. `DaySegmentation` states both cases.
- `np.save` appends ".npy" to "date_list.csv". The model records the path as passed.
- `starttime.date` is modelled as the day number since the epoch, not as a calendar date object.
- `st.merge(fill_value='interpolate')` is an uninterpreted function of the stream.
- The pipeline's and the renamer's printed lines are modelled as report values (`Event`, `Renamed`). The formatting of instants in those lines is not modelled.
- The downloader's prints are not modelled: "Downloading data for day …" at line 12 and "Data download complete …" at line 29, and `main`'s line 45. Its log records only the client calls and the files written.
- `os.makedirs` is not modelled. Building `OUTPUT_DIR` from the script's location and `filepath` from the working directory is not modelled either. Both are parameters: the pipeline's `outputDir` and the downloader's `filepath`.
- `os.listdir` is the `listing` parameter of `RenameFilesIn`. Its order is whatever the operating system gives.
- Symbolic links and kinds of entries other than regular files and directories are not modelled.
- Renaming onto an existing directory raises, as on POSIX. Other operating systems' rename rules are not modelled.
- UnifiedProcessing.NOverlap: computes `nfft * overlap` as an exact real, not as a rounded double. For some arguments Python's `int()` is one lower: `int(100 * 0.29)` is 28 in Python and 29 here. The script only uses the defaults 256 and 0.5, which give 128 both ways (`DefaultOverlap`).
- Segmenter.SegmentData: requires a positive segment length. With a length of 0 or less the source loop never ends on a trace it enters.
- notebooks/NUPH_analysis/delete_mseed.py and notebooks/NUPH_analysis/compare.py are not part of this model. They only delete files, and load and plot them.
