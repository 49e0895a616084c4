/**
 * The bookkeeping of the main loop: draining the records the capture thread
 * queued, deciding whether a round is transcribed and accepted, the session
 * list and its numbered history, and the session summary written on exit.
 */
module App {
  import opened Wrappers
  import opened Text
  import opened Transcription

  // ---------------------------------------------------------------------
  // Draining the queue
  // ---------------------------------------------------------------------

  /** A record taken from the queue, classified by its tag. */
  datatype QueueItem =
    | SampleRateRecord(rate: int)           // ('sample_rate', rate)
    | AudioChunkRecord(samples: seq<int>)   // ('audio_chunk', samples)
    | FilePathRecord(path: string)          // ('file_path', path)
    | OtherTuple(tag: string)               // a tuple with any other tag
    | NotTuple                              // anything that is not a tuple

  predicate Ignored(item: QueueItem)
  {
    item.OtherTuple? || item.NotTuple?
  }

  /** What the drain collects: the chunks in order, the sample rate and the file path. */
  datatype Drained = Drained(chunks: seq<seq<int>>, sampleRate: int, filePath: Option<string>)

  /** Before any record: no chunks, the recogniser's rate, no file. */
  const EmptyDrain := Drained([], 16000, None)

  /** One record of the drain: a chunk is appended, a rate or path replaces the one held. */
  function Absorb(d: Drained, item: QueueItem): Drained
  {
    match item
    case SampleRateRecord(r) => d.(sampleRate := r)
    case AudioChunkRecord(s) => d.(chunks := d.chunks + [s])
    case FilePathRecord(p) => d.(filePath := Some(p))
    case OtherTuple(_) => d
    case NotTuple => d
  }

  function DrainFrom(d: Drained, items: seq<QueueItem>): Drained
  {
    if items == [] then d else Absorb(DrainFrom(d, items[..|items| - 1]), items[|items| - 1])
  }

  /** The result of draining the queue's records in queue order. */
  function DrainOf(items: seq<QueueItem>): Drained
  {
    DrainFrom(EmptyDrain, items)
  }

  /** The drain loop. */
  method DrainQueue(items: seq<QueueItem>) returns (chunks: seq<seq<int>>, sampleRate: int, filePath: Option<string>)
    ensures Drained(chunks, sampleRate, filePath) == DrainOf(items)
  {
    chunks := [];
    sampleRate := 16000;
    filePath := None;
    for k := 0 to |items|
      invariant Drained(chunks, sampleRate, filePath) == DrainOf(items[..k])
    {
      assert items[..k + 1][..k] == items[..k];
      match items[k]
      case SampleRateRecord(r) =>
        sampleRate := r;
      case AudioChunkRecord(s) =>
        chunks := chunks + [s];
      case FilePathRecord(p) =>
        filePath := Some(p);
      case OtherTuple(_) =>
      case NotTuple =>
    }
    assert items[..|items|] == items;
  }

  /** Draining two runs of records is draining the second from where the first left off. */
  lemma {:induction false} DrainAppend(d: Drained, a: seq<QueueItem>, b: seq<QueueItem>)
    ensures DrainFrom(d, a + b) == DrainFrom(DrainFrom(d, a), b)
    decreases |b|
  {
    if b == [] {
      assert a + b == a;
    } else {
      assert (a + b)[..|a + b| - 1] == a + b[..|b| - 1];
      assert (a + b)[|a + b| - 1] == b[|b| - 1];
      DrainAppend(d, a, b[..|b| - 1]);
    }
  }

  lemma DrainOne(d: Drained, item: QueueItem)
    ensures DrainFrom(d, [item]) == Absorb(d, item)
  {
    assert [item][..0] == [];
  }

  /** Records that are not tuples, or carry an unknown tag, are ignored wherever they stand. */
  lemma DrainIgnores(a: seq<QueueItem>, item: QueueItem, b: seq<QueueItem>)
    requires Ignored(item)
    ensures DrainOf(a + [item] + b) == DrainOf(a + b)
  {
    DrainAppend(EmptyDrain, a + [item], b);
    DrainAppend(EmptyDrain, a, [item]);
    DrainOne(DrainOf(a), item);
    DrainAppend(EmptyDrain, a, b);
  }

  /** The tag that classifies a record: 0, 1 and 2 for the known ones, 3 for the ignored. */
  function Kind(item: QueueItem): nat
  {
    match item
    case SampleRateRecord(_) => 0
    case AudioChunkRecord(_) => 1
    case FilePathRecord(_) => 2
    case OtherTuple(_) => 3
    case NotTuple => 3
  }

  /** Two neighbouring records with different tags can be drained in either order. */
  lemma DrainSwap(a: seq<QueueItem>, x: QueueItem, y: QueueItem, b: seq<QueueItem>)
    requires Kind(x) != Kind(y)
    ensures DrainOf(a + [x, y] + b) == DrainOf(a + [y, x] + b)
  {
    var d := DrainOf(a);
    DrainAppend(EmptyDrain, a + [x, y], b);
    DrainAppend(EmptyDrain, a + [y, x], b);
    DrainAppend(EmptyDrain, a, [x, y]);
    DrainAppend(EmptyDrain, a, [y, x]);
    DrainAppend(d, [x], [y]);
    DrainAppend(d, [y], [x]);
    assert [x] + [y] == [x, y] && [y] + [x] == [y, x];
    DrainOne(d, x);
    DrainOne(d, y);
    DrainOne(Absorb(d, x), y);
    DrainOne(Absorb(d, y), x);
  }

  /** The recorder's order (chunk, rate, path) and any reordering of it give the same drain. */
  lemma RecorderOrder(s: seq<int>, r: int, p: string)
    ensures DrainOf([AudioChunkRecord(s), SampleRateRecord(r), FilePathRecord(p)]) == Drained([s], r, Some(p))
    ensures DrainOf([SampleRateRecord(r), FilePathRecord(p), AudioChunkRecord(s)]) == Drained([s], r, Some(p))
  {
    var c, sr, fp := AudioChunkRecord(s), SampleRateRecord(r), FilePathRecord(p);
    DrainAppend(EmptyDrain, [c, sr], [fp]);
    DrainAppend(EmptyDrain, [c], [sr]);
    DrainOne(EmptyDrain, c);
    DrainOne(Absorb(EmptyDrain, c), sr);
    DrainOne(Absorb(Absorb(EmptyDrain, c), sr), fp);
    assert [c, sr, fp] == [c, sr] + [fp] && [c, sr] == [c] + [sr];
    DrainSwap([], c, sr, [fp]);
    DrainSwap([sr], c, fp, []);
    assert [] + [c, sr] + [fp] == [c, sr, fp] && [] + [sr, c] + [fp] == [sr] + [c, fp] + [];
    assert [sr] + [fp, c] + [] == [sr, fp, c];
  }

  /** The recorder's three records drain to the same result in whatever order they arrive. */
  lemma AnyArrivalOrder(items: seq<QueueItem>, s: seq<int>, r: int, p: string)
    requires multiset(items) == multiset([AudioChunkRecord(s), SampleRateRecord(r), FilePathRecord(p)])
    ensures DrainOf(items) == Drained([s], r, Some(p))
  {
    OrdersOfThree(items, AudioChunkRecord(s), SampleRateRecord(r), FilePathRecord(p));
    SixOrders(s, r, p);
  }

  lemma SixOrders(s: seq<int>, r: int, p: string)
    ensures var c, a, f, d := AudioChunkRecord(s), SampleRateRecord(r), FilePathRecord(p), Drained([s], r, Some(p));
      && DrainOf([c, a, f]) == d && DrainOf([c, f, a]) == d && DrainOf([a, c, f]) == d
      && DrainOf([a, f, c]) == d && DrainOf([f, c, a]) == d && DrainOf([f, a, c]) == d
  {
    var c, a, f := AudioChunkRecord(s), SampleRateRecord(r), FilePathRecord(p);
    RecorderOrder(s, r, p);
    assert [c] + [f, a] + [] == [c, f, a] && [c] + [a, f] + [] == [c, a, f];
    DrainSwap([c], f, a, []);
    assert [] + [a, c] + [f] == [a, c, f] && [] + [c, a] + [f] == [c, a, f];
    DrainSwap([], a, c, [f]);
    assert [f] + [c, a] + [] == [f, c, a] && [f] + [a, c] + [] == [f, a, c];
    DrainSwap([f], c, a, []);
    assert [] + [f, a] + [c] == [f, a, c] && [] + [a, f] + [c] == [a, f, c];
    DrainSwap([], f, a, [c]);
  }

  /** A sequence with the elements of three distinct values, once each, is one of their six orders. */
  lemma OrdersOfThree<T>(items: seq<T>, x: T, y: T, z: T)
    requires x != y && y != z && x != z
    requires multiset(items) == multiset([x, y, z])
    ensures items in {[x, y, z], [x, z, y], [y, x, z], [y, z, x], [z, x, y], [z, y, x]}
  {
    assert |items| == |multiset(items)| == 3;
    assert items == [items[0], items[1], items[2]];
    assert multiset(items) == multiset{items[0], items[1], items[2]};
  }

  /** The chunk payloads of the records, in queue order. */
  function ChunksOf(items: seq<QueueItem>): seq<seq<int>>
  {
    if items == [] then []
    else (if items[0].AudioChunkRecord? then [items[0].samples] else []) + ChunksOf(items[1..])
  }

  /** The drain keeps every audio chunk, in queue order. */
  lemma {:induction false} DrainChunks(d: Drained, items: seq<QueueItem>)
    ensures DrainFrom(d, items).chunks == d.chunks + ChunksOf(items)
    decreases |items|
  {
    if items == [] {
      assert d.chunks + [] == d.chunks;
    } else {
      assert items == [items[0]] + items[1..];
      DrainAppend(d, [items[0]], items[1..]);
      DrainOne(d, items[0]);
      DrainChunks(Absorb(d, items[0]), items[1..]);
    }
  }

  /** Records that do not carry a rate leave the rate alone. */
  lemma {:induction false} RateUntouched(d: Drained, items: seq<QueueItem>)
    requires forall k :: 0 <= k < |items| ==> !items[k].SampleRateRecord?
    ensures DrainFrom(d, items).sampleRate == d.sampleRate
    decreases |items|
  {
    if items != [] {
      RateUntouched(d, items[..|items| - 1]);
    }
  }

  /** Records that do not carry a path leave the path alone. */
  lemma {:induction false} PathUntouched(d: Drained, items: seq<QueueItem>)
    requires forall k :: 0 <= k < |items| ==> !items[k].FilePathRecord?
    ensures DrainFrom(d, items).filePath == d.filePath
    decreases |items|
  {
    if items != [] {
      PathUntouched(d, items[..|items| - 1]);
    }
  }

  /** The last `sample_rate` record wins; without one the rate stays 16000. */
  lemma DrainRate(items: seq<QueueItem>, k: nat)
    requires k < |items| && items[k].SampleRateRecord?
    requires forall j :: k < j < |items| ==> !items[j].SampleRateRecord?
    ensures DrainOf(items).sampleRate == items[k].rate
  {
    var rest := items[k + 1..];
    assert items == items[..k + 1] + rest;
    assert items[..k + 1] == items[..k] + [items[k]];
    DrainAppend(EmptyDrain, items[..k + 1], rest);
    DrainAppend(EmptyDrain, items[..k], [items[k]]);
    DrainOne(DrainOf(items[..k]), items[k]);
    assert forall j :: 0 <= j < |rest| ==> rest[j] == items[k + 1 + j];
    RateUntouched(DrainOf(items[..k + 1]), rest);
  }

  lemma DrainDefaultRate(items: seq<QueueItem>)
    requires forall j :: 0 <= j < |items| ==> !items[j].SampleRateRecord?
    ensures DrainOf(items).sampleRate == 16000
  {
    RateUntouched(EmptyDrain, items);
  }

  /** The last `file_path` record wins; without one there is no path. */
  lemma DrainPath(items: seq<QueueItem>, k: nat)
    requires k < |items| && items[k].FilePathRecord?
    requires forall j :: k < j < |items| ==> !items[j].FilePathRecord?
    ensures DrainOf(items).filePath == Some(items[k].path)
  {
    var rest := items[k + 1..];
    assert items == items[..k + 1] + rest;
    assert items[..k + 1] == items[..k] + [items[k]];
    DrainAppend(EmptyDrain, items[..k + 1], rest);
    DrainAppend(EmptyDrain, items[..k], [items[k]]);
    DrainOne(DrainOf(items[..k]), items[k]);
    assert forall j :: 0 <= j < |rest| ==> rest[j] == items[k + 1 + j];
    PathUntouched(DrainOf(items[..k + 1]), rest);
  }

  lemma DrainDefaultPath(items: seq<QueueItem>)
    requires forall j :: 0 <= j < |items| ==> !items[j].FilePathRecord?
    ensures DrainOf(items).filePath.None?
  {
    PathUntouched(EmptyDrain, items);
  }

  // ---------------------------------------------------------------------
  // One recording round
  // ---------------------------------------------------------------------

  /** `np.concatenate(audio_chunks)`: all samples, chunk after chunk. */
  function Samples(chunks: seq<seq<int>>): seq<int>
  {
    if chunks == [] then [] else chunks[0] + Samples(chunks[1..])
  }

  /** How a round ends. */
  datatype RoundOutcome =
    | NoChunks                 // nothing was recorded
    | EmptyAudio               // chunks hold no samples: `np.min` of the empty array raises
    | TooQuiet                 // 100 samples or fewer, or not loud enough
    | ZeroRate                 // `transcribe` divides by a drained rate of 0 and raises
    | EmptyResample            // resampling leaves no samples and `transcribe` raises
    | NoSpeech                 // the transcript is blank
    | Accepted(text: string)   // the transcript joins the session

  /**
   * The decision of a round, given the drain, whether the audio's mean level
   * exceeds the threshold (`loud`) and the recogniser's raw text. Three
   * cases raise, and the main loop catches only `KeyboardInterrupt`, so each
   * ends the program: chunks without samples, on which the statistics line
   * calls `np.min`; a rate of 0, which makes `transcribe` raise
   * `ZeroDivisionError`; and a resampled length of 0 or less, which leaves
   * `transcribe` no samples to take the peak of.
   */
  function RoundOutcomeOf(d: Drained, loud: bool, raw: string): RoundOutcome
  {
    if d.chunks == [] then NoChunks
    else if Samples(d.chunks) == [] then EmptyAudio
    else if !(|Samples(d.chunks)| > 100 && loud) then TooQuiet
    else
      var resampled := ResampleLength(|Samples(d.chunks)|, d.sampleRate);
      if resampled.RateIsZero? then ZeroRate
      else if resampled.ResampledTo? && resampled.length <= 0 then EmptyResample
      else
      var text := TranscribedText(raw);
      if Strip(text) == [] then NoSpeech else Accepted(text)
  }

  /**
   * A transcript is accepted exactly when chunks were recorded, there are
   * more than 100 samples, the audio is loud enough, the rate is positive
   * and at most 16000 times the sample count (so that resampling keeps at
   * least one sample) and the recogniser's text is not all whitespace; the
   * accepted text is that text stripped. Each of the three failing cases is
   * stated exactly.
   */
  lemma AcceptedIff(d: Drained, loud: bool, raw: string)
    ensures var n := |Samples(d.chunks)|;
      RoundOutcomeOf(d, loud, raw).Accepted?
      <==> d.chunks != [] && n > 100 && loud && 0 < d.sampleRate <= n * TargetSampleRate && !AllSpace(raw)
    ensures RoundOutcomeOf(d, loud, raw) == EmptyAudio <==> d.chunks != [] && Samples(d.chunks) == []
    ensures RoundOutcomeOf(d, loud, raw) == ZeroRate
      <==> d.chunks != [] && |Samples(d.chunks)| > 100 && loud && d.sampleRate == 0
    ensures var n := |Samples(d.chunks)|;
      RoundOutcomeOf(d, loud, raw) == EmptyResample
      <==> d.chunks != [] && n > 100 && loud && (d.sampleRate < 0 || d.sampleRate > n * TargetSampleRate)
    ensures RoundOutcomeOf(d, loud, raw).Accepted? ==> RoundOutcomeOf(d, loud, raw).text == Strip(raw)
    ensures d.chunks == [] ==> RoundOutcomeOf(d, loud, raw) == NoChunks
  {
    TranscribedTextEmptyIff(raw);
    var n := |Samples(d.chunks)|;
    ResampleEmptyIff(n, d.sampleRate);
    if n > 100 {
      MulLe(1, n, TargetSampleRate);
    }
  }

  /** What a round leaves behind: the session list, the saved transcript and the history shown. */
  datatype RoundResult = RoundResult(
    transcriptions: seq<string>,
    outcome: RoundOutcome,
    saved: Option<SavedFile>,
    history: seq<string>)

  function RoundOf(ts: seq<string>, d: Drained, loud: bool, raw: string, stamp: string): RoundResult
  {
    match RoundOutcomeOf(d, loud, raw)
    case Accepted(text) =>
      var ts' := ts + [text];
      RoundResult(ts', Accepted(text), Some(SaveTranscription(text, d.filePath, stamp)), HistoryLines(ts'))
    case other => RoundResult(ts, other, None, [])
  }

  /**
   * The session list only grows, by exactly the accepted text; only an
   * accepted round saves a file, named after the drained source path; the
   * history is shown from the second accepted transcript on.
   */
  lemma RoundEffect(ts: seq<string>, d: Drained, loud: bool, raw: string, stamp: string)
    ensures var r := RoundOf(ts, d, loud, raw, stamp);
      && r.outcome == RoundOutcomeOf(d, loud, raw)
      && (r.outcome.Accepted? ==> r.transcriptions == ts + [r.outcome.text])
      && (!r.outcome.Accepted? ==> r.transcriptions == ts)
      && (r.saved.Some? <==> r.outcome.Accepted?)
      && (r.saved.Some? ==> r.saved.value.content == SourceLine(d.filePath) + r.outcome.text)
      && (r.history != [] <==> r.outcome.Accepted? && |ts| >= 1)
  {
    if RoundOutcomeOf(d, loud, raw).Accepted? {
      HistoryShownIff(ts + [RoundOutcomeOf(d, loud, raw).text]);
    }
  }

  /** The session over the rounds of the main loop. */
  class Session {
    var transcriptions: seq<string>

    constructor()
      ensures transcriptions == []
    {
      transcriptions := [];
    }

    /** One round after recording stops: decide, append, save and show the history. */
    method Round(d: Drained, loud: bool, raw: string, stamp: string)
      returns (outcome: RoundOutcome, saved: Option<SavedFile>, history: seq<string>)
      modifies this
      ensures RoundResult(transcriptions, outcome, saved, history) == RoundOf(old(transcriptions), d, loud, raw, stamp)
    {
      outcome := RoundOutcomeOf(d, loud, raw);
      saved, history := None, [];
      if outcome.Accepted? {
        transcriptions := transcriptions + [outcome.text];
        saved := Some(SaveTranscription(outcome.text, d.filePath, stamp));
        history := HistoryLines(transcriptions);
      }
    }
  }

  // ---------------------------------------------------------------------
  // History display
  // ---------------------------------------------------------------------

  /** `k. text` with `k` counting from `start`. */
  function NumberedFrom(start: nat, ts: seq<string>): (lines: seq<string>)
    ensures |lines| == |ts|
    decreases |ts|
  {
    if ts == [] then [] else [NatToString(start) + ". " + ts[0]] + NumberedFrom(start + 1, ts[1..])
  }

  /** The history shown after an accepted round: numbered lines, only when there is more than one entry. */
  function HistoryLines(ts: seq<string>): seq<string>
  {
    if |ts| > 1 then NumberedFrom(1, ts) else []
  }

  lemma HistoryShownIff(ts: seq<string>)
    ensures HistoryLines(ts) != [] <==> |ts| > 1
  {
  }

  lemma {:induction false} NumberedLine(start: nat, ts: seq<string>, i: nat)
    requires i < |ts|
    ensures NumberedFrom(start, ts)[i] == NatToString(start + i) + ". " + ts[i]
    decreases i
  {
    if i > 0 {
      var rest := ts[1..];
      NumberedLine(start + 1, rest, i - 1);
      assert NumberedFrom(start, ts)[i] == NumberedFrom(start + 1, rest)[i - 1];
      assert rest[i - 1] == ts[i];
    }
  }

  /**
   * Entry `i` of the history is numbered `i + 1` in decimal, then `. `, then
   * the `i`-th transcript, and its number reads back as `i + 1`.
   */
  lemma HistoryLine(ts: seq<string>, i: nat)
    requires |ts| > 1 && i < |ts|
    ensures |HistoryLines(ts)| == |ts|
    ensures var line, num := HistoryLines(ts)[i], NatToString(i + 1);
      && line == num + ". " + ts[i]
      && ParseInt(line[..|num|]) == Some(i + 1)
  {
    NumberedLine(1, ts, i);
    ParseNatPrefix(i + 1, ". ", ts[i]);
  }

  // ---------------------------------------------------------------------
  // Session summary
  // ---------------------------------------------------------------------

  const SessionPrefix := "./cache/session_transcription_"

  /** One entry of the summary: `k. text` and a blank line. */
  function Entry(k: nat, text: string): string
  {
    NatToString(k) + ". " + text + "\n\n"
  }

  /** The entries numbered from `start`, in list order. */
  function EntriesFrom(start: nat, ts: seq<string>): string
    decreases |ts|
  {
    if ts == [] then "" else Entry(start, ts[0]) + EntriesFrom(start + 1, ts[1..])
  }

  function SummaryHeader(header: string): string
  {
    "# Transcription Session: " + header + "\n\n"
  }

  /**
   * The summary written on exit, given the two timestamps (the one in the
   * file name and the one in the header): nothing for an empty session,
   * else the header line and one entry per transcript.
   */
  function SummaryOf(ts: seq<string>, stamp: string, header: string): (r: Option<SavedFile>)
    ensures r.Some? <==> ts != []
  {
    if ts == [] then None
    else Some(SavedFile(SessionPrefix + stamp + ".txt", SummaryHeader(header) + EntriesFrom(1, ts)))
  }

  lemma {:induction false} EntriesAppend(start: nat, a: seq<string>, b: seq<string>)
    ensures EntriesFrom(start, a + b) == EntriesFrom(start, a) + EntriesFrom(start + |a|, b)
    decreases |a|
  {
    if a == [] {
      assert a + b == b;
    } else {
      assert (a + b)[0] == a[0] && (a + b)[1..] == a[1..] + b;
      EntriesAppend(start + 1, a[1..], b);
    }
  }

  lemma EntriesSnoc(start: nat, ts: seq<string>, t: string)
    ensures EntriesFrom(start, ts + [t]) == EntriesFrom(start, ts) + Entry(start + |ts|, t)
  {
    EntriesAppend(start, ts, [t]);
    assert [t][1..] == [];
  }

  /** The summary writing loop. */
  method WriteSessionSummary(ts: seq<string>, stamp: string, header: string) returns (file: Option<SavedFile>)
    ensures file == SummaryOf(ts, stamp, header)
  {
    if ts == [] {
      return None;
    }
    var content := SummaryHeader(header);
    for i := 0 to |ts|
      invariant content == SummaryHeader(header) + EntriesFrom(1, ts[..i])
    {
      EntriesSnoc(1, ts[..i], ts[i]);
      assert ts[..i + 1] == ts[..i] + [ts[i]];
      content := content + Entry(i + 1, ts[i]);
    }
    assert ts[..|ts|] == ts;
    file := Some(SavedFile(SessionPrefix + stamp + ".txt", content));
  }

  /**
   * In the summary the `i`-th transcript appears as entry `i + 1`, after
   * the header and the entries before it and before the entries after it.
   */
  lemma SummaryEntry(ts: seq<string>, stamp: string, header: string, i: nat)
    requires i < |ts|
    ensures SummaryOf(ts, stamp, header).value.content
      == SummaryHeader(header) + EntriesFrom(1, ts[..i]) + Entry(i + 1, ts[i]) + EntriesFrom(i + 2, ts[i + 1..])
  {
    var front, tail := ts[..i], [ts[i]] + ts[i + 1..];
    assert ts == front + tail;
    EntriesAppend(1, front, tail);
    assert tail[0] == ts[i] && tail[1..] == ts[i + 1..];
    var before, entry, after := EntriesFrom(1, front), Entry(i + 1, ts[i]), EntriesFrom(i + 2, ts[i + 1..]);
    assert EntriesFrom(1 + |front|, tail) == entry + after;
    Regroup(SummaryHeader(header), before, entry, after);
  }

  lemma Regroup<T>(h: seq<T>, a: seq<T>, e: seq<T>, b: seq<T>)
    ensures h + (a + (e + b)) == h + a + e + b
  {
    assert a + (e + b) == a + e + b;
  }
}
