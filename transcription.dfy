/**
 * The parts of `transcribe` and `save_transcription` that are decisions
 * rather than numerics: the default language, the resampled length, the
 * language hint given to the recogniser, the stripped result, and the name
 * and content of the saved transcript.
 */
module Transcription {
  import opened Wrappers
  import opened Text
  import opened AudioDevices

  /** The recogniser's sample rate. */
  const TargetSampleRate := 16000

  /** The language configuration used: the one given, or English with the fast model. */
  function EffectiveConfig(cfg: Option<LanguageConfig>): (r: LanguageConfig)
    ensures cfg.Some? ==> r == cfg.value
    ensures cfg.None? ==> r.code == "en" && r.model == "base.en"
  {
    cfg.GetOr(EnglishFast)
  }

  /**
   * The default is the menu's own default tier (what option 1 or any entry
   * other than 2, 3 and 4 selects), and it asks for no language hint.
   */
  lemma DefaultIsMenuDefault(selection: string)
    requires Strip(selection) !in {"2", "3", "4"}
    ensures EffectiveConfig(None) == SelectLanguage(selection)
    ensures LanguageHint(EffectiveConfig(None)).None?
  {
  }

  /** Python's `int(x)` on a float quotient: the quotient truncated toward zero. */
  function TruncDiv(a: int, b: int): (q: int)
    requires b != 0
    ensures Abs(q) * Abs(b) <= Abs(a) < (Abs(q) + 1) * Abs(b)
    ensures q == 0 || ((q < 0) <==> ((a < 0) != (b < 0)))
  {
    var m := Abs(a) / Abs(b);
    DivBounds(Abs(a), Abs(b));
    if (a < 0) != (b < 0) then -m else m
  }

  function Abs(x: int): nat
  {
    if x < 0 then -x else x
  }

  lemma DivBounds(a: nat, b: nat)
    requires b > 0
    ensures (a / b) * b <= a < (a / b + 1) * b
  {
    var m, r := a / b, a % b;
    assert a == m * b + r;
    assert (m + 1) * b == m * b + b;
  }

  lemma MulLe(a: int, b: int, c: nat)
    ensures a <= b ==> a * c <= b * c
  {
    assert b * c - a * c == (b - a) * c;
  }

  /** Cancelling a positive factor from a strict inequality. */
  lemma MulCancelLt(a: int, b: int, c: nat)
    ensures a * c < b * c ==> a < b
  {
    MulLe(b, a, c);
  }

  /** Cancelling a positive factor from a weak inequality. */
  lemma MulCancelLe(a: int, b: int, c: nat)
    ensures c > 0 && a * c <= b * c ==> a <= b
  {
    MulLe(b + 1, a, c);
    assert (b + 1) * c == b * c + c;
  }

  /** What `transcribe` does about the sample rate. */
  datatype Resampling =
    | NotResampled            // the audio is already at 16000 Hz
    | ResampledTo(length: int) // resampled to this many samples
    | RateIsZero              // the length computation divides by zero

  /**
   * The resampling step for `n` samples at `rate` Hz: none at the target
   * rate, otherwise the length `n * 16000 / rate` truncated toward zero.
   */
  function ResampleLength(n: nat, rate: int): (r: Resampling)
    ensures r.NotResampled? <==> rate == TargetSampleRate
    ensures r.RateIsZero? <==> rate == 0
  {
    if rate == TargetSampleRate then NotResampled
    else if rate == 0 then RateIsZero
    else ResampledTo(TruncDiv(n * TargetSampleRate, rate))
  }

  /**
   * For a positive rate other than 16000 the new length is the floor of
   * `n * 16000 / rate`: no larger than the exact value and less than one
   * sample below it.
   */
  lemma ResampleLengthFloor(n: nat, rate: int)
    requires rate > 0 && rate != TargetSampleRate
    ensures ResampleLength(n, rate).ResampledTo?
    ensures var len := ResampleLength(n, rate).length;
      && 0 <= len
      && len * rate <= n * TargetSampleRate < (len + 1) * rate
  {
  }

  /** Upsampling never shortens the audio and downsampling never lengthens it. */
  lemma ResampleDirection(n: nat, rate: int)
    requires rate > 0 && rate != TargetSampleRate
    ensures var len := ResampleLength(n, rate).length;
      && (rate < TargetSampleRate ==> len >= n)
      && (rate > TargetSampleRate ==> len <= n)
  {
    ResampleLengthFloor(n, rate);
    var len := ResampleLength(n, rate).length;
    if rate < TargetSampleRate {
      MulLe(rate, TargetSampleRate, n);
      assert n * rate < (len + 1) * rate;
      MulCancelLt(n, len + 1, rate);
    } else {
      MulLe(TargetSampleRate, rate, n);
      assert len * rate <= n * rate;
      MulCancelLe(len, n, rate);
    }
  }

  /** Skipping the step at 16000 Hz is consistent with the formula, which would keep the length. */
  lemma ResampleSkipConsistent(n: nat)
    ensures TruncDiv(n * TargetSampleRate, TargetSampleRate) == n
  {
    var q := TruncDiv(n * TargetSampleRate, TargetSampleRate);
    MulCancelLe(q, n, TargetSampleRate);
    MulCancelLt(n, q + 1, TargetSampleRate);
  }

  /**
   * Resampling leaves no samples exactly when the rate is negative, or when
   * it differs from 16000 and exceeds `n * 16000`, so that the truncated
   * quotient is 0.
   */
  lemma ResampleEmptyIff(n: nat, rate: int)
    ensures (ResampleLength(n, rate).ResampledTo? && ResampleLength(n, rate).length <= 0)
      <==> rate < 0 || (rate != TargetSampleRate && rate > n * TargetSampleRate)
  {
    if rate > 0 && rate != TargetSampleRate {
      ResampleLengthFloor(n, rate);
      var len := ResampleLength(n, rate).length;
      MulLe(1, len, rate);
    }
  }

  /** The language hint passed to the recogniser: German is named, every other code lets it detect. */
  function LanguageHint(cfg: LanguageConfig): (r: Option<string>)
    ensures r.Some? <==> cfg.code == "de"
    ensures r.Some? ==> r.value == "de"
  {
    if cfg.code == "de" then Some("de") else None
  }

  /** The menu's German tiers, options 3 and 4, are exactly the ones that get a hint. */
  lemma HintFollowsMenu(selection: string)
    ensures LanguageHint(SelectLanguage(selection)).Some? <==> Strip(selection) in {"3", "4"}
    ensures LanguageHint(EffectiveConfig(Some(SelectLanguage(selection)))) == LanguageHint(SelectLanguage(selection))
  {
  }

  /** The text `transcribe` returns: the recogniser's text stripped of surrounding whitespace. */
  function TranscribedText(raw: string): (r: string)
    ensures r == [] || (!IsSpace(r[0]) && !IsSpace(r[|r| - 1]))
    ensures Strip(r) == r
  {
    StripIdempotent(raw);
    Strip(raw)
  }

  /** The returned text is empty exactly when the recogniser produced only whitespace. */
  lemma TranscribedTextEmptyIff(raw: string)
    ensures TranscribedText(raw) == [] <==> AllSpace(raw)
  {
    StripEmptyIff(raw);
  }

  /** A file the program writes: its path and its whole content. */
  datatype SavedFile = SavedFile(name: string, content: string)

  const TranscriptPrefix := "./cache/transcription_"

  /** Python's truth value of an optional path: present and non-empty. */
  predicate Truthy(source: Option<string>)
  {
    source.Some? && source.value != []
  }

  /** The line naming the source audio, written only for a truthy path. */
  function SourceLine(source: Option<string>): (r: string)
    ensures r != [] <==> Truthy(source)
  {
    if Truthy(source) then "Source audio: " + source.value + "\n\n" else ""
  }

  /**
   * `save_transcription` with the timestamp as input: the file
   * `./cache/transcription_<stamp>.txt`, whose content is the source line
   * (if any) followed by the text verbatim. The path is also the value
   * returned. The text ends the content, and is all of it exactly when
   * there is no source line.
   */
  function SaveTranscription(text: string, source: Option<string>, stamp: string): (f: SavedFile)
    ensures |f.content| >= |text| && f.content[|f.content| - |text|..] == text
    ensures |f.content| == |text| <==> !Truthy(source)
  {
    var c := SourceLine(source) + text;
    assert c[|c| - |text|..] == text;
    SavedFile(TranscriptPrefix + stamp + ".txt", c)
  }

  /** With a truthy source the content opens with `Source audio: `, the path and a blank line. */
  lemma SavedSourceRecovered(text: string, source: Option<string>, stamp: string)
    requires Truthy(source)
    ensures var c := SaveTranscription(text, source, stamp).content;
      var n := |source.value|;
      && |c| == 14 + n + 2 + |text|
      && c[..14] == "Source audio: "
      && c[14..14 + n] == source.value
      && c[14 + n..16 + n] == "\n\n"
  {
  }

  /** The timestamp can be read back from the path, so different timestamps give different files. */
  lemma TranscriptNameStamp(text: string, source: Option<string>, stamp: string)
    ensures var name := SaveTranscription(text, source, stamp).name;
      && |name| == |TranscriptPrefix| + |stamp| + 4
      && name[..|TranscriptPrefix|] == TranscriptPrefix
      && name[|TranscriptPrefix|..|name| - 4] == stamp
      && name[|name| - 4..] == ".txt"
  {
  }

  lemma TranscriptNamesDiffer(t1: string, s1: Option<string>, stamp1: string, t2: string, s2: Option<string>, stamp2: string)
    requires stamp1 != stamp2
    ensures SaveTranscription(t1, s1, stamp1).name != SaveTranscription(t2, s2, stamp2).name
  {
    TranscriptNameStamp(t1, s1, stamp1);
    TranscriptNameStamp(t2, s2, stamp2);
  }
}
