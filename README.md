# TranscribeMyAudio — a Dafny model of its decision logic

TranscribeMyAudio records speech from a microphone or from the system's
audio output, transcribes it with a speech model, and keeps a session of
accepted transcripts. Most of the program is glue around subprocesses, a
capture thread and the model. This project covers the deterministic rules
inside that glue:

- **Device selection** (`audio_devices.py`), in `audio_devices.dfy`:
  - the language and recording-mode menus;
  - the parser for the ALSA list printed by `arecord -l`, with the device-line regular expression modelled exactly (leftmost search, greedy digit and word runs, lazy card name, `.` stopping at a line break);
  - the record builder for `pactl list sources`: a state machine over lines, made of `Step`, `Run` and the loop in `ParsePulseSources`;
  - the filter that keeps monitor sources;
  - the tab-field scan of `pactl list short sources`;
  - the fallback chains of `select_microphone` and `select_audio_output`.
- **Main-loop bookkeeping** (`app.py`), in `app.dfy`:
  - the drain of the records the capture thread queued;
  - the decision whether a round's transcript is accepted;
  - the session list, which lives in the `Session` class and grows one round at a time;
  - the numbered history;
  - the exact text of the session summary.
- **Transcription rules** (`transcription.py`), in `transcription.dfy`:
  - the default language;
  - the integer length used for resampling;
  - the language hint;
  - the stripped result;
  - the name and content of the saved transcript file.
- **Python string semantics**, in `text.dfy`: `str.isspace`, `strip`, `in`, `startswith`, `split`, `find`, ASCII `lower`, `str(n)`, and base-10 `int()` with the narrower set of whitespace it skips.
- **`Option`**, in `wrappers.dfy`.

Tool output, typed input and timestamps are parameters. A tool output of `None` means that running the tool raised an exception.

The source's loops are rendered as follows:

- Seven loops are methods with a `for` or `while` loop, each proved equal to a specification function:
  - `ParseAlsaDevices` (the `arecord -l` parsing loop);
  - `SelectMicrophone` (the search for a preferred device);
  - `ParsePulseSources` (the `pactl list sources` parsing loop);
  - `FilterMonitors` (the monitor filter);
  - `ScanShortSources` (the short scan);
  - `DrainQueue` (the queue drain);
  - `WriteSessionSummary` (the summary write loop).
- The main `while True` loop is one call of `Session.Round` per iteration. The session list is a field of the `Session` class.
- The loop that prints the history is the recursive function `NumberedFrom`, which yields the lines it prints.
- The loops that print menus are not modelled, since they only write to the console.

Some behaviours of the code are worth stating plainly:

- The resampled length truncates `len * 16000 / rate` toward zero (transcription.py:30). The model divides exactly and then truncates (`TruncDiv`).
- A drained sample rate of 0 makes that division raise `ZeroDivisionError` once the audio passes the level check (`ZeroRate` in `RoundOutcomeOf`).
- A rate that is negative, or above 16000 times the sample count, truncates the length to 0 or less. `transcribe` is then left with no samples and raises (`EmptyResample`, `ResampleEmptyIff`).
- The recorder can queue chunks that hold no samples, since a WAV file's data is queued without a length check. When every chunk is empty, `np.min` in the statistics line (app.py:107) raises before the level check (`EmptyAudio`).
- In the short scan, `line.split('\t')[1]` raises `IndexError` at any line that mentions `monitor` but has no tab (audio_devices.py:180). The whole scan is abandoned, even after an earlier monitor was found, and the fixed fallback is used (`ShortScanFailsIff`, `OutputFallback`).
- `int()` does not skip the ASCII separators U+001C to U+001F, though `strip()` removes them. A typed `"\x1d0"` is therefore not a number (`ParseIntRejectsSeparator`).
- The recorder queues `audio_chunk`, then `sample_rate`, then `file_path` (audio_recorder.py:66-68). The drain's result does not depend on that order (`AnyArrivalOrder`, `DrainSwap`).

## Model

| member | source | states |
|---|---|---|
| Text.IsSpace | audio_devices.py:20 | `str.isspace` on one character: `\t` to `\r`, U+001C to U+001F, space, U+0085, U+00A0 and the Unicode space separators (defined; stated through `Strip`, `StripEmptyIff`) |
| Text.Strip | audio_devices.py:20 | `strip()` returns the slice between the removed leading and trailing whitespace; everything removed is whitespace, and the result neither starts nor ends with whitespace |
| Text.StripEmptyIff | app.py:113 | a string strips to nothing exactly when every character is whitespace |
| Text.StripIdempotent | transcription.py:58 | stripping a stripped string changes nothing |
| Text.StripPadded | audio_devices.py:20 | whitespace added around an unpadded entry is exactly what `strip()` removes |
| Text.IndexOf | audio_devices.py:118 | the first index at which the separator occurs; none earlier; `None` exactly when it does not occur |
| Text.Contains | audio_devices.py:68 | Python's `sub in s`: some occurrence of `sub` exists (defined; its witness and absence are stated by `IndexOf`) |
| Text.StartsWith | audio_devices.py:115 | `s.startswith(p)`: `s` begins with all of `p` (defined; used by `IsHeader`) |
| Text.Split | audio_devices.py:53 | `split(sep)` yields at least one piece, and no piece contains the separator |
| Text.JoinSplit | audio_devices.py:53 | rejoining the pieces with the separator gives back the original string |
| Text.SplitAtSeparator | audio_devices.py:180 | a string containing the separator splits into at least two pieces |
| Text.Field | audio_devices.py:180 | `s.split(sep)[k]`, or `None` where Python raises `IndexError` (defined; stated by `SecondFieldIff`, `SecondField`) |
| Text.SecondFieldIff | audio_devices.py:180 | `split(sep)[1]` exists exactly when the separator occurs, and it is then the second field |
| Text.SecondField | audio_devices.py:118-122 | the text after the first separator, up to the next separator or the end, containing no separator |
| Text.LowerChar | audio_devices.py:132-133 | `str.lower` on one character: `A` to `Z` become `a` to `z`, everything else is kept (defined; ASCII only, see "## Left out") |
| Text.Lower | audio_devices.py:132-133 | `s.lower()`, character by character (defined; used by `IsMonitor`) |
| Text.IsIntSpace | audio_devices.py:79 | the whitespace `int()` skips: every `isspace` character except U+001C to U+001F (defined; stated by `IntStrip`, `ParseIntRejectsSeparator`) |
| Text.IntStrip | audio_devices.py:79 | the text `int()` reads: the slice left after removing, at both ends, the whitespace `int()` skips (every `isspace` character except U+001C to U+001F) |
| Text.IntStripPadded | audio_devices.py:79 | skipped whitespace around a text with no skipped whitespace at its ends is exactly what is removed |
| Text.ParseStripped | audio_devices.py:79 | `int()` after the skipped whitespace is removed: an optional sign, then a numeral of ASCII digits with single underscores between digits; `None` for `ValueError` (defined; stated by `ParseStrippedRejects`, `ParseIntToString`) |
| Text.ParseInt | audio_devices.py:79 | `int(s)`: the skipped whitespace removed, then an optional sign and a numeral with single underscores between digits; `None` for `ValueError` (defined, no contract of its own; the lemmas below state its properties) |
| Text.NatToString | app.py:141-142 | `str(n)` for a natural number, as in the `{i+1}` numbering: its decimal digits, a leading `0` only for zero (the value is stated by `ParseIntToString`, `HistoryLine`) |
| Text.IntToString | audio_devices.py:79 | `str(n)` for any integer: `-` before the decimal form of a negative number (defined; stated by `ParseIntToString`, `ParseIntRoundTrip`) |
| Text.ParseIntToString | audio_devices.py:79 | `int(str(n)) == n` for every integer (the digit limit of newer Pythons is left out) |
| Text.ParseIntRoundTrip | audio_devices.py:79 | `int()` reads back `str(n)` with any whitespace it skips around it |
| Text.ParseIntPadded | audio_devices.py:79 | `int()` sees its input only after the whitespace it skips is removed from both ends |
| Text.ParseIntRejectsBlank | audio_devices.py:79 | input made only of `isspace` characters raises `ValueError` (`None`) |
| Text.ParseIntRejectsSeparator | audio_devices.py:143 | a leading U+001C to U+001F, which `strip()` would remove, makes `int()` raise `ValueError` |
| Text.ParseStrippedRejects | audio_devices.py:79 | text that opens with neither a sign nor a digit is not a number |
| AudioDevices.SelectLanguage | audio_devices.py:19-31 | the config is one of the four tiers; German exactly for stripped input 3 or 4; the medium model exactly for 2 or 4; English fast for anything else |
| AudioDevices.SelectLanguagePadded | audio_devices.py:19-20 | whitespace typed around an entry does not change the language chosen |
| AudioDevices.SelectRecordingMode | audio_devices.py:206-212 | the mode is `output` exactly when the stripped input is 2, and `microphone` for every other input |
| AudioDevices.SelectRecordingModePadded | audio_devices.py:206-207 | whitespace typed around an entry does not change the mode |
| AudioDevices.MatchAt | audio_devices.py:51 | the whole pattern matched at a given index: head, lazy card name, tail (defined; its soundness is `MatchAtSound`) |
| AudioDevices.SearchFrom | audio_devices.py:54 | `pattern.search`: the match at the leftmost index where there is one (defined; stated by `SearchFromSound`) |
| AudioDevices.DeviceOf | audio_devices.py:56-63 | the device record of a match: id `hw:N,M` and name `NAME: DNAME` (defined; stated by `ParseArecordLineSound`, `ArecordLineShape`) |
| AudioDevices.ParseArecordLine | audio_devices.py:54-57 | the device of the leftmost match, `None` without a match (defined; stated by `ParseArecordLineSound` and `ArecordLineShape`) |
| AudioDevices.CloseName | audio_devices.py:51 | the lazy card-name group ends at the first position, on the same line, from which the rest of the pattern matches |
| AudioDevices.MatchAtSound | audio_devices.py:51-54 | a match found at an index is well formed and its text occurs literally at that index |
| AudioDevices.MatchAtFrom | audio_devices.py:51-54 | a well-formed match text occurring at an index, with no `]` in its card name and ending at the line's end or a line break, is exactly what the matcher finds there |
| AudioDevices.SearchFromSound | audio_devices.py:51-54 | a found match has well-formed groups, and its text occurs literally in the line |
| AudioDevices.ParseArecordLineSound | audio_devices.py:51-63 | a parsed device comes from a match in the line; its id is `hw:N,M` from the card and device digits |
| AudioDevices.ArecordLineShape | audio_devices.py:51-63 | the line `card N: ID [NAME], device M: DNAME`, where NAME contains no `]`, yields id `hw:N,M` and name `NAME: DNAME` |
| AudioDevices.AlsaDevicesOf | audio_devices.py:53-63 | at most one device per line, and every device has digit card and device numbers and id `hw:N,M` |
| AudioDevices.NonMatchingLineAddsNothing | audio_devices.py:53-55 | a line where the pattern is not found adds no device, wherever it stands |
| AudioDevices.DeviceLineAddsDevice | audio_devices.py:53-63 | a device line adds its device at its own place in the list, so devices keep line order |
| AudioDevices.ParseAlsaDevices | audio_devices.py:50-63 | the parsing loop's list equals the devices of the lines of the output |
| AudioDevices.Preferred | audio_devices.py:68 | a device marked for automatic selection: its name contains `Trust`, `GXT` or `Microphone`, case-sensitive (defined; stated by `FirstPreferredFrom`, `PreferredIgnoresSelection`) |
| AudioDevices.FirstPreferredFrom | audio_devices.py:67-71 | the first device whose name contains `Trust`, `GXT` or `Microphone`, or none if no device does |
| AudioDevices.MicPathOf | audio_devices.py:65-95 | the branch `select_microphone` takes: tool error, no devices, the first preferred device, a non-integer, an out-of-range number, or the typed index (defined; stated by `PreferredIgnoresSelection` and `UserSelectionIff`) |
| AudioDevices.SelectMicrophone | audio_devices.py:44-95 | every path returns `default` at 44100 Hz; the path taken is the one `MicPathOf` decides |
| AudioDevices.PreferredIgnoresSelection | audio_devices.py:67-71 | when a preferred device is listed, the first one is auto-selected whatever the user types |
| AudioDevices.UserSelectionIff | audio_devices.py:78-83 | the typed number is used exactly when no device is preferred and the number parses and is in range |
| AudioDevices.InitialState | audio_devices.py:110-111 | no sources and no open record before the first line (defined; stated by `PreambleIgnored`, `SourcesFromBlocks`) |
| AudioDevices.IsHeader | audio_devices.py:115 | `line.startswith('Source #')` (defined; used by `Step`, `BlockRun`, `PreambleIgnored`) |
| AudioDevices.IsNameLine | audio_devices.py:119 | `'Name:' in line` (defined; used by `Step`, `LastName`) |
| AudioDevices.IsDescriptionLine | audio_devices.py:121 | `'Description:' in line` (defined; used by `Step`, `LastDescription`) |
| AudioDevices.Completed | audio_devices.py:116-126 | a closed record yields at most one source, and yields one exactly when it has a name |
| AudioDevices.HeaderIndex | audio_devices.py:118 | `line.split('#')[1].strip()` on a `Source #` line (defined; stated by `BlockRun`) |
| AudioDevices.NameValue | audio_devices.py:119-120 | `line.split('Name:')[1].strip()` on a line containing `Name:` (defined; used by `LastName`) |
| AudioDevices.DescriptionValue | audio_devices.py:121-122 | `line.split('Description:')[1].strip()` on a line containing `Description:` (defined; used by `LastDescription`) |
| AudioDevices.LastName | audio_devices.py:119-120 | the name a record body sets: the value of its last `Name:` line (defined; stated by `BodyRun`) |
| AudioDevices.LastDescription | audio_devices.py:119-122 | the description a record body sets: the value of its last `Description:` line that is not also a `Name:` line, since the `Name:` test comes first (defined; stated by `BodyRun`) |
| AudioDevices.Step | audio_devices.py:114-122 | one line: a header closes the open record and opens one with its index; a `Name:`, else `Description:`, line fills an open record; other lines change nothing (defined; stated by `BodyRun`, `BlockRun`, `PreambleIgnored`) |
| AudioDevices.Run | audio_devices.py:114-122 | the lines read in order (defined; stated by `RunAppend`) |
| AudioDevices.Finish | audio_devices.py:124-126 | after the last line the open record is closed as well (defined; stated by `BlocksRun`) |
| AudioDevices.ParsePulseSources | audio_devices.py:110-126 | the parsing loop's sources equal the state machine's result over the lines |
| AudioDevices.PulseSourcesOf | audio_devices.py:110-126 | the whole parse of `pactl list sources`: the state machine run over the lines and closed (defined; stated by `ParsePulseSources`, `SourcesFromBlocks`) |
| AudioDevices.RunAppend | audio_devices.py:114-122 | parsing two runs of lines is parsing the second from the state the first leaves |
| AudioDevices.PreambleIgnored | audio_devices.py:119-122 | lines before the first `Source #` header, `Name:` and `Description:` lines included, change nothing |
| AudioDevices.BodyRun | audio_devices.py:119-122 | in a record body, the last `Name:` line and the last `Description:` line override earlier ones |
| AudioDevices.BlockRun | audio_devices.py:115-122 | a header closes the open record and starts a new one with its index; the body fills that one |
| AudioDevices.BlocksRun | audio_devices.py:114-126 | a listing of blocks yields the closed record plus one source per block that has a name, in order |
| AudioDevices.SourcesFromBlocks | audio_devices.py:114-126 | sources come out in header order, one per block with a `Name:` line; a block without one is dropped; any preamble is ignored |
| AudioDevices.MonitorOfPattern | audio_devices.py:112-132 | `re.compile(r'monitor.*of.*').search` succeeds: `monitor`, then `of` later with no newline between (defined; stated by `MonitorOfWitness`, `MonitorOfNeedsWord`) |
| AudioDevices.IsMonitor | audio_devices.py:131-134 | a source is offered as a monitor when it has a description and the lowercased description matches the pattern or the lowercased name contains `monitor` (defined; stated by `MonitorsOfMembership`) |
| AudioDevices.MonitorOfWitness | audio_devices.py:132 | `monitor`, then later `of` on the same line, matches `monitor.*of.*` |
| AudioDevices.MonitorOfNeedsWord | audio_devices.py:132 | a match of `monitor.*of.*` contains `monitor` |
| AudioDevices.MonitorsOf | audio_devices.py:129-135 | the kept sources are monitors drawn from the listing, no more of them than sources |
| AudioDevices.MonitorsOfMembership | audio_devices.py:129-135 | a source is kept exactly when it has a description and either the lowercased description matches `monitor.*of.*` or the lowercased name contains `monitor` |
| AudioDevices.MonitorsOfAppend | audio_devices.py:129-135 | the filter distributes over concatenation, so it keeps listing order |
| AudioDevices.FilterMonitors | audio_devices.py:129-135 | the filtering loop's list equals the filter of the sources |
| AudioDevices.IsMonitorLine | audio_devices.py:179 | `'monitor' in line.lower()` (defined; used by `ShortScan`, `ShortScanFailsIff`) |
| AudioDevices.ShortScan | audio_devices.py:178-181 | the second tab field of each line mentioning `monitor`, in order, or `None` where one such line has no tab (defined; stated by `ShortScanFailsIff`, `ShortScanFirst`) |
| AudioDevices.ShortScanAppend | audio_devices.py:178-181 | scanning two runs of lines is scanning each, and fails if either fails |
| AudioDevices.ShortScanSnoc | audio_devices.py:178-181 | one more line adds its second tab field when it mentions `monitor`, fails without a tab, and otherwise adds nothing |
| AudioDevices.ShortScanFailsIff | audio_devices.py:178-188 | the scan is abandoned exactly when some line mentions `monitor` (any case) but has no tab |
| AudioDevices.ShortScanNone | audio_devices.py:178-184 | without a line mentioning `monitor`, the scan finds nothing |
| AudioDevices.ShortScanFirst | audio_devices.py:178-186 | a successful scan's first monitor is the second tab field of the first line that mentions `monitor` |
| AudioDevices.ShortScanSplit | audio_devices.py:178-181 | a successful scan of two runs is the two scans' results joined |
| AudioDevices.ScanShortSources | audio_devices.py:177-181 | the loop reports abandonment exactly when the scan fails, and otherwise returns the scan's monitors |
| AudioDevices.OutputMenu | audio_devices.py:137-156 | the menu offered: the monitors when there are any, else every source (defined; stated by `OutputSelectionIff`) |
| AudioDevices.Honoured | audio_devices.py:144 | the typed number is used only when it parses and `0 <= n < len`; otherwise it is ignored |
| AudioDevices.MenuChoice | audio_devices.py:137-163 | the menu entry the typed number names, from the monitors or else from every source (defined; stated by `OutputSelectionIff`) |
| AudioDevices.AudioOutputOf | audio_devices.py:97-192 | the menu choice, else the short scan's first monitor, else the fixed name (defined; stated by `OutputSelectionIff`, `OutputFallback`) |
| AudioDevices.ListedChoice | audio_devices.py:105-165 | the choice made in the full listing's branch, or none when `pactl` fails (defined; stated by `ChooseFromListing`) |
| AudioDevices.ChooseFromListing | audio_devices.py:105-165 | the full listing's branch chooses the menu entry the number names, or nothing when the tool fails |
| AudioDevices.ChooseFromMenu | audio_devices.py:129-163 | it offers the monitors, or every source when there are none, and returns the named entry's name |
| AudioDevices.ShortListChoice | audio_devices.py:177-186 | the first monitor of a successful short scan, or none when the tool fails, the scan fails or it finds none (defined; stated by `ChooseFromShortList`, `OutputFallback`) |
| AudioDevices.ChooseFromShortList | audio_devices.py:171-186 | the first monitor of a successful short scan, if any |
| AudioDevices.SelectAudioOutput | audio_devices.py:97-192 | the menu choice, else the short scan's first monitor, else the fixed default monitor name |
| AudioDevices.FallbackMonitor | audio_devices.py:192 | the fixed monitor name returned when nothing else is chosen (stated by `OutputFallback`) |
| AudioDevices.OutputSelectionIff | audio_devices.py:137-163 | the number decides exactly when the listing runs and the number names a menu entry; the device is that entry's name, a monitor whenever any source is one |
| AudioDevices.OutputFallback | audio_devices.py:170-192 | otherwise the device is the short scan's first monitor, or `alsa_output.pci-0000_00_1f.3.analog-stereo.monitor` |
| Transcription.EffectiveConfig | transcription.py:20-21 | a missing config is English with `base.en`; a given config is used as is |
| Transcription.DefaultIsMenuDefault | transcription.py:20-21 | the default equals the language menu's own default tier, and asks for no hint |
| Transcription.TargetSampleRate | transcription.py:24-27 | the recogniser's rate, 16000 Hz, at which resampling is skipped (stated by `ResampleLength`) |
| Transcription.TruncDiv | transcription.py:30 | `int(a / b)`: the quotient's magnitude is the floor of `abs(a) / abs(b)`, with the sign of the exact quotient |
| Transcription.ResampleLength | transcription.py:27-31 | resampling is skipped exactly at 16000 Hz; a rate of zero is the division error |
| Transcription.ResampleLengthFloor | transcription.py:30 | for a positive rate the new length is the floor of `n * 16000 / rate` |
| Transcription.ResampleDirection | transcription.py:27-31 | upsampling never shortens and downsampling never lengthens |
| Transcription.ResampleSkipConsistent | transcription.py:27-30 | the formula at 16000 Hz would keep the length, so skipping the step agrees with it |
| Transcription.ResampleEmptyIff | transcription.py:27-31 | resampling leaves no samples exactly when the rate is negative, or differs from 16000 and exceeds `16000 * n` |
| Transcription.LanguageHint | transcription.py:53-56 | a hint is given exactly when the code is `de`, and it is `de` |
| Transcription.HintFollowsMenu | transcription.py:53-56 | the hint is given exactly for the menu's German options 3 and 4 |
| Transcription.TranscribedText | transcription.py:58 | the returned text has no whitespace at either end, and stripping it again changes nothing |
| Transcription.TranscribedTextEmptyIff | transcription.py:58 | the text is empty exactly when the recogniser's text is all whitespace |
| Transcription.SourceLine | transcription.py:77-78 | the source line is written exactly for a truthy (present, non-empty) path |
| Transcription.Truthy | transcription.py:77 | Python's truth value of the optional source path: present and non-empty (defined; stated by `SourceLine`) |
| Transcription.TranscriptPrefix | transcription.py:74 | the `./cache/transcription_` start of a transcript's file name (stated by `TranscriptNameStamp`) |
| Transcription.SaveTranscription | transcription.py:73-82 | the text is written verbatim as the content's tail, and there is more content exactly for a truthy source (name and source line stated by `TranscriptNameStamp`, `SavedSourceRecovered`) |
| Transcription.SavedSourceRecovered | transcription.py:77-78 | with a truthy source, the content opens with `Source audio: `, the path and a blank line |
| Transcription.TranscriptNameStamp | transcription.py:73-82 | the returned path is `./cache/transcription_`, the timestamp and `.txt`, and the timestamp can be read back from it |
| Transcription.TranscriptNamesDiffer | transcription.py:73-74 | different timestamps give different file names |
| App.Absorb | app.py:94-100 | one record: a chunk is appended, a rate or a path replaces the one held, anything else is ignored (defined; stated by `DrainOne`, `DrainIgnores`) |
| App.DrainOf | app.py:89-100 | the records absorbed in queue order from 16000 Hz, no chunks and no path (defined; stated by the lemmas below) |
| App.DrainQueue | app.py:89-100 | the drain loop's chunks, rate and path equal the drain of the queued records |
| App.DrainAppend | app.py:93-100 | draining two runs of records is draining the second from where the first left off |
| App.DrainOne | app.py:94-100 | a single record extends the chunks, or replaces the rate or the path |
| App.DrainIgnores | app.py:94-100 | non-tuples and unknown tags are ignored wherever they stand |
| App.DrainSwap | app.py:93-100 | neighbouring records with different tags can be drained in either order |
| App.RecorderOrder | app.py:93-100 | the recorder's order (chunk, rate, path) drains to that chunk, rate and path |
| App.SixOrders | app.py:93-100 | all six orders of the three records drain to the same result |
| App.OrdersOfThree | app.py:93 | a sequence holding three distinct values once each is one of their six orders |
| App.AnyArrivalOrder | app.py:93-100 | any permutation of the recorder's three records drains to that chunk, rate and path |
| App.DrainChunks | app.py:97-98 | every audio chunk is kept, in queue order |
| App.RateUntouched | app.py:95-96 | records without a rate leave the rate alone |
| App.PathUntouched | app.py:99-100 | records without a path leave the path alone |
| App.DrainRate | app.py:95-96 | the last `sample_rate` record wins |
| App.DrainDefaultRate | app.py:90 | without a `sample_rate` record the rate stays 16000 |
| App.DrainPath | app.py:99-100 | the last `file_path` record wins |
| App.DrainDefaultPath | app.py:91 | without a `file_path` record there is no path |
| App.Samples | app.py:103 | `np.concatenate(audio_chunks)`: every sample, chunk after chunk (defined; used by `RoundOutcomeOf`) |
| App.RoundOutcomeOf | app.py:102-131 | no chunks, chunks without samples (`np.min` raises), too quiet, a zero rate (the division error in `transcribe`), an empty resample, blank text, or the accepted stripped text (defined; stated by `AcceptedIff`) |
| App.AcceptedIff | app.py:102-131 | a transcript is accepted exactly when chunks exist, there are over 100 samples, the audio is loud enough, `0 < rate <= 16000 * samples` and the text is not blank; chunks without samples, loud audio at rate 0, and loud audio at a negative rate or one above `16000 * samples` each fail, exactly in those cases; no chunks means no transcription |
| App.RoundOf | app.py:109-123 | the round's new list, saved file and history lines (defined; stated by `RoundEffect`) |
| App.RoundEffect | app.py:109-123 | the list grows by exactly the accepted text or is unchanged; only an accepted round saves a file; history is shown from the second transcript on |
| App.Session.constructor | app.py:57 | a session starts with no transcripts |
| App.Session.Round | app.py:102-123 | the round updates the session list, saves and shows history exactly as `RoundOf` says |
| App.NumberedFrom | app.py:119-120 | one numbered line per transcript |
| App.HistoryLines | app.py:117-120 | the history lines printed after an accepted round (defined; stated by `HistoryShownIff`, `HistoryLine`) |
| App.HistoryShownIff | app.py:117 | history is shown exactly when the list has more than one entry |
| App.NumberedLine | app.py:119-120 | line `i` is the number `start + i`, `. ` and the `i`-th text |
| App.HistoryLine | app.py:119-120 | history entry `i` is numbered `i + 1`, in insertion order, and its number reads back as `i + 1` |
| App.SummaryHeader | app.py:140 | the header line `# Transcription Session: ` with the time and a blank line (defined; stated by `SummaryEntry`) |
| App.Entry | app.py:141-142 | one entry, `k. text` and a blank line (defined; stated by `EntriesSnoc`, `SummaryEntry`) |
| App.SessionPrefix | app.py:137 | the `./cache/session_transcription_` start of the summary's file name (used by `SummaryOf`) |
| App.SummaryOf | app.py:135-142 | a summary is written exactly when the list is non-empty |
| App.EntriesFrom | app.py:141-142 | the entries `k. text` and a blank line, numbered from a start (defined; stated by `EntriesAppend`, `SummaryEntry`) |
| App.EntriesAppend | app.py:141-142 | the entries of two runs are the first run's entries followed by the second's, numbered on |
| App.EntriesSnoc | app.py:141-142 | one more text adds one entry `k. text` and a blank line |
| App.WriteSessionSummary | app.py:135-142 | the write loop produces exactly the summary file |
| App.SummaryEntry | app.py:140-142 | the content is the header line, then entry `k. text\n\n` for each transcript in list order, with the `i`-th numbered `i + 1` |

## Left out

- Subprocess calls, console output, `input()` and file writes are not modelled. Tool output and typed lines are parameters, and files are values (`SavedFile`).
- `input()` reaching end of file is not modelled. Each typed line is a plain string.
- The capture thread, its stop event and the recorder process (`audio_recorder.py`) are not modelled. Only the order in which the recorder queues its records is used.
- Text.LowerChar: `str.lower` is modelled for ASCII letters only. The same holds for the regular expression classes `\w` and `\d`, which Python matches on Unicode.
- Text.ParseInt: Python 3.11 and later raise `ValueError` for a numeral of more than 4300 digits (`sys.int_max_str_digits`), and `str(n)` raises for such an `n`. That limit depends on the interpreter version and is not modelled, so `ParseIntToString` and `ParseIntRoundTrip` hold for every integer.
- Text.ParseStripped: Unicode decimal digits other than `0`-`9`, which Python's `int()` also accepts, are not modelled.
- Floating point is not modelled: float32 conversion, `scipy.signal.resample`, peak normalisation and the mean-amplitude check.
- The mean-amplitude check is the `loud` parameter of `App.RoundOutcomeOf`.
- Transcription.TruncDiv: Python divides in floating point before truncating. The model divides exactly, so for very large lengths a float rounding error could make the two differ.
- App.Session.Round: after an `EmptyAudio`, `ZeroRate` or `EmptyResample` round, the source's program ends with an uncaught exception and writes no session summary. The exceptions are `ValueError` from `np.min`, `ZeroDivisionError`, and the error from resampling to no samples. The model reports the outcome and leaves the list unchanged; the end of the program is not modelled.
- App.RoundOutcomeOf: for a resampled length of 0 or less, either `scipy.signal.resample` or the peak computation at transcription.py:38 raises. `scipy` is not part of this model, so the model does not say which; both cases are `EmptyResample`.
- Speech-model loading and inference are not modelled. The recogniser's raw text is a parameter.
- `datetime.now()` is not modelled. The timestamps in file names and in the summary header are parameters.
- App.Samples: audio chunks are flat sequences of samples. numpy's `size` counts both channels of stereo audio, which this does not capture.
- Queue records: a known tag carrying a payload of the wrong type is not modelled.
- Rich console markup in the printed history and menus is not modelled. The history is modelled as its plain lines.
