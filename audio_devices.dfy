/**
 * Device selection (audio_devices.py): the language and recording-mode
 * menus, the parser for the ALSA device list printed by `arecord -l`, the
 * parser for the sound server's source list printed by `pactl list sources`,
 * the monitor filter, the scan of `pactl list short sources`, and the
 * fallback chains that decide which device string is returned.
 *
 * Tool output and user input are parameters: `None` for a tool output means
 * that running the tool raised an exception.
 */
module AudioDevices {
  import opened Wrappers
  import opened Text

  // ---------------------------------------------------------------------
  // Language menu
  // ---------------------------------------------------------------------

  /** A language code and the speech-model size used for it. */
  datatype LanguageConfig = LanguageConfig(code: string, model: string)

  /** The language used when nothing else is chosen: English, fast model. */
  const EnglishFast := LanguageConfig("en", "base.en")

  /** The four tiers the menu offers. */
  const LanguageTiers := {EnglishFast, LanguageConfig("en", "medium"),
                          LanguageConfig("de", "small"), LanguageConfig("de", "medium")}

  /**
   * The language menu: option 2 is accurate English, 3 fast German, 4
   * accurate German, and anything else (option 1 included) fast English.
   * German is chosen exactly for options 3 and 4, the accurate model exactly
   * for options 2 and 4.
   */
  function SelectLanguage(selection: string): (cfg: LanguageConfig)
    ensures cfg in LanguageTiers
    ensures cfg.code == "de" <==> Strip(selection) in {"3", "4"}
    ensures cfg.model == "medium" <==> Strip(selection) in {"2", "4"}
    ensures cfg == EnglishFast <==> Strip(selection) !in {"2", "3", "4"}
  {
    var choice := Strip(selection);
    if choice == "2" then LanguageConfig("en", "medium")
    else if choice == "3" then LanguageConfig("de", "small")
    else if choice == "4" then LanguageConfig("de", "medium")
    else EnglishFast
  }

  /** Whitespace typed around a menu entry does not change the choice. */
  lemma SelectLanguagePadded(pre: string, entry: string, post: string)
    requires AllSpace(pre) && AllSpace(post)
    requires entry == [] || (!IsSpace(entry[0]) && !IsSpace(entry[|entry| - 1]))
    ensures SelectLanguage(pre + entry + post) == SelectLanguage(entry)
  {
    StripPadded(pre, entry, post);
    StripUnpadded(entry);
  }

  // ---------------------------------------------------------------------
  // Recording-mode menu
  // ---------------------------------------------------------------------

  datatype RecordingMode = Microphone | Output {
    /** The string the program passes around for the mode. */
    function Name(): string
    {
      match this
      case Microphone => "microphone"
      case Output => "output"
    }
  }

  /** Option 2 records the system's audio output; every other input the microphone. */
  function SelectRecordingMode(selection: string): (mode: RecordingMode)
    ensures mode == Output <==> Strip(selection) == "2"
    ensures mode.Name() == "output" <==> Strip(selection) == "2"
    ensures mode.Name() == "microphone" <==> Strip(selection) != "2"
  {
    if Strip(selection) == "2" then Output else Microphone
  }

  /** Whitespace typed around the entry does not change the mode. */
  lemma SelectRecordingModePadded(pre: string, entry: string, post: string)
    requires AllSpace(pre) && AllSpace(post)
    requires entry == [] || (!IsSpace(entry[0]) && !IsSpace(entry[|entry| - 1]))
    ensures SelectRecordingMode(pre + entry + post) == SelectRecordingMode(entry)
  {
    StripPadded(pre, entry, post);
    StripUnpadded(entry);
  }

  // ---------------------------------------------------------------------
  // `arecord -l` lines: `card (\d+): (\w+) \[(.*?)\], device (\d+): (.*)`
  // ---------------------------------------------------------------------

  /** An ALSA capture device as listed by `arecord -l`. */
  datatype AlsaDevice = AlsaDevice(cardNum: string, deviceNum: string, name: string, id: string)

  /** The five groups of one match of the device-line pattern. */
  datatype CardMatch = CardMatch(card: string, cardId: string, cardName: string, device: string, deviceName: string)

  /** The text one match covers. */
  function MatchText(m: CardMatch): string
  {
    "card " + m.card + ": " + m.cardId + " [" + m.cardName + "], device " + m.device + ": " + m.deviceName
  }

  predicate NoNewline(s: string)
  {
    forall k :: 0 <= k < |s| ==> s[k] != '\n'
  }

  predicate AllWordChars(s: string)
  {
    forall k :: 0 <= k < |s| ==> IsWordChar(s[k])
  }

  /** What the groups can hold: digits, word characters, and no line break under `.`. */
  predicate WellFormedMatch(m: CardMatch)
  {
    && m.card != [] && AllDigits(m.card)
    && m.cardId != [] && AllWordChars(m.cardId)
    && NoNewline(m.cardName)
    && m.device != [] && AllDigits(m.device)
    && NoNewline(m.deviceName)
  }

  /** Length of the run of digits starting at `i` (the greedy `\d+`). */
  function DigitRun(s: string, i: nat): (n: nat)
    requires i <= |s|
    ensures i + n <= |s|
    ensures forall k :: i <= k < i + n ==> IsDigit(s[k])
    ensures i + n == |s| || !IsDigit(s[i + n])
    decreases |s| - i
  {
    if i < |s| && IsDigit(s[i]) then 1 + DigitRun(s, i + 1) else 0
  }

  /** Length of the run of word characters starting at `i` (the greedy `\w+`). */
  function WordRun(s: string, i: nat): (n: nat)
    requires i <= |s|
    ensures i + n <= |s|
    ensures forall k :: i <= k < i + n ==> IsWordChar(s[k])
    ensures i + n == |s| || !IsWordChar(s[i + n])
    decreases |s| - i
  {
    if i < |s| && IsWordChar(s[i]) then 1 + WordRun(s, i + 1) else 0
  }

  /** Length of the text up to the next line break (the greedy `.*`). */
  function LineRun(s: string, i: nat): (n: nat)
    requires i <= |s|
    ensures i + n <= |s|
    ensures forall k :: i <= k < i + n ==> s[k] != '\n'
    ensures i + n == |s| || s[i + n] == '\n'
    decreases |s| - i
  {
    if i < |s| && s[i] != '\n' then 1 + LineRun(s, i + 1) else 0
  }

  /** The device number and device name matched after the card name. */
  datatype TailMatch = TailMatch(device: string, deviceName: string)

  function TailText(t: TailMatch): string
  {
    "], device " + t.device + ": " + t.deviceName
  }

  /** `\], device (\d+): (.*)` matched at index `j`. */
  function TailAt(line: string, j: nat): Option<TailMatch>
    requires j <= |line|
  {
    if !OccursAt(line, "], device ", j) then None else DeviceAt(line, j + 10)
  }

  /** `(\d+): (.*)` matched at index `q`. */
  function DeviceAt(line: string, q: nat): Option<TailMatch>
    requires q <= |line|
  {
    var n := DigitRun(line, q);
    if n == 0 || !OccursAt(line, ": ", q + n) then None
    else
      var e := q + n + 2;
      Some(TailMatch(line[q..q + n], line[e..e + LineRun(line, e)]))
  }

  /**
   * The lazy `(.*?)` of the card name, started at `j`: the first end position
   * from which the tail matches, never crossing a line break.
   */
  function CloseName(line: string, j: nat): (r: Option<(nat, TailMatch)>)
    requires j <= |line|
    ensures r.Some? ==> j <= r.value.0 <= |line| && TailAt(line, r.value.0) == Some(r.value.1)
    ensures r.Some? ==> forall k :: j <= k < r.value.0 ==> line[k] != '\n' && TailAt(line, k).None?
    decreases |line| - j
  {
    match TailAt(line, j)
    case Some(t) => Some((j, t))
    case None => if j < |line| && line[j] != '\n' then CloseName(line, j + 1) else None
  }

  /** The card number and card id matched before the card name, and where the name opens. */
  datatype HeadMatch = HeadMatch(card: string, cardId: string, nameStart: nat)

  function HeadText(card: string, cardId: string): string
  {
    "card " + card + ": " + cardId + " ["
  }

  /** `card (\d+): (\w+) \[` matched at index `i`. */
  function HeadAt(line: string, i: nat): Option<HeadMatch>
    requires i <= |line|
  {
    if !OccursAt(line, "card ", i) then None else CardAt(line, i + 5)
  }

  /** `(\d+): (\w+) \[` matched at index `p1`. */
  function CardAt(line: string, p1: nat): Option<HeadMatch>
    requires p1 <= |line|
  {
    var p2 := p1 + DigitRun(line, p1);
    if p2 == p1 || !OccursAt(line, ": ", p2) then None else IdAt(line, line[p1..p2], p2 + 2)
  }

  /** `(\w+) \[` matched at index `p3`, after the card number `card`. */
  function IdAt(line: string, card: string, p3: nat): Option<HeadMatch>
    requires p3 <= |line|
  {
    var p4 := p3 + WordRun(line, p3);
    if p4 == p3 || !OccursAt(line, " [", p4) then None
    else Some(HeadMatch(card, line[p3..p4], p4 + 2))
  }

  /** The whole pattern matched starting exactly at index `i`. */
  function MatchAt(line: string, i: nat): Option<CardMatch>
    requires i <= |line|
  {
    match HeadAt(line, i)
    case None => None
    case Some(h) =>
      if h.nameStart > |line| then None
      else match CloseName(line, h.nameStart)
        case None => None
        case Some((end, t)) => Some(CardMatch(h.card, h.cardId, line[h.nameStart..end], t.device, t.deviceName))
  }

  /** `pattern.search(line)` from index `i` on: the leftmost match. */
  function SearchFrom(line: string, i: nat): Option<CardMatch>
    requires i <= |line|
    decreases |line| - i
  {
    match MatchAt(line, i)
    case Some(m) => Some(m)
    case None => if i < |line| then SearchFrom(line, i + 1) else None
  }

  /** The device record built from a match: id `hw:N,M`, name `NAME: DNAME`. */
  function DeviceOf(m: CardMatch): AlsaDevice
  {
    AlsaDevice(m.card, m.device, m.cardName + ": " + m.deviceName, "hw:" + m.card + "," + m.device)
  }

  /** One line of `arecord -l`: a device when the pattern is found in it. */
  function ParseArecordLine(line: string): Option<AlsaDevice>
  {
    match SearchFrom(line, 0)
    case None => None
    case Some(m) => Some(DeviceOf(m))
  }

  /** A matched tail is a literal occurrence of the tail text, with well-formed groups. */
  lemma TailAtSound(line: string, j: nat)
    requires j <= |line| && TailAt(line, j).Some?
    ensures var t := TailAt(line, j).value;
      && t.device != [] && AllDigits(t.device) && NoNewline(t.deviceName)
      && OccursAt(line, TailText(t), j)
  {
    var t := TailAt(line, j).value;
    var q := j + 10;
    var e := q + |t.device| + 2;
    assert OccursAt(line, t.device, q);
    assert OccursAt(line, t.deviceName, e);
    OccursJoin(line, "], device ", t.device, j);
    OccursJoin(line, "], device " + t.device, ": ", j);
    OccursJoin(line, "], device " + t.device + ": ", t.deviceName, j);
  }

  lemma MatchTextParts(m: CardMatch)
    ensures MatchText(m) == HeadText(m.card, m.cardId) + m.cardName + TailText(TailMatch(m.device, m.deviceName))
  {
  }

  /** A matched head is a literal occurrence of the head text, with well-formed groups. */
  lemma HeadSound(line: string, i: nat)
    requires i <= |line| && HeadAt(line, i).Some?
    ensures var h := HeadAt(line, i).value;
      && h.card != [] && AllDigits(h.card) && h.cardId != [] && AllWordChars(h.cardId)
      && h.nameStart == i + |HeadText(h.card, h.cardId)|
      && OccursAt(line, HeadText(h.card, h.cardId), i)
  {
    var p1 := i + 5;
    assert OccursAt(line, "card ", i) && HeadAt(line, i) == CardAt(line, p1);
    CardAtSound(line, p1);
    var card := CardAt(line, p1).value.card;
    var p3 := p1 + |card| + 2;
    IdAtSound(line, card, p3);
    var cardId := IdAt(line, card, p3).value.cardId;
    HeadJoin(line, i, card, cardId, p1, p3);
  }

  lemma CardAtSound(line: string, p1: nat)
    requires p1 <= |line| && CardAt(line, p1).Some?
    ensures var card := CardAt(line, p1).value.card;
      && card != [] && AllDigits(card) && OccursAt(line, card, p1) && OccursAt(line, ": ", p1 + |card|)
      && p1 + |card| + 2 <= |line| && CardAt(line, p1) == IdAt(line, card, p1 + |card| + 2)
  {
  }

  lemma IdAtSound(line: string, card: string, p3: nat)
    requires p3 <= |line| && IdAt(line, card, p3).Some?
    ensures var h := IdAt(line, card, p3).value;
      && h.card == card && h.cardId != [] && AllWordChars(h.cardId)
      && OccursAt(line, h.cardId, p3) && OccursAt(line, " [", p3 + |h.cardId|)
      && h.nameStart == p3 + |h.cardId| + 2
  {
  }

  /** The pieces of the head text, each at its offset, make one occurrence of it. */
  lemma HeadJoin(line: string, i: nat, card: string, cardId: string, p1: nat, p3: nat)
    requires p1 == i + 5 && p3 == p1 + |card| + 2
    requires OccursAt(line, "card ", i) && OccursAt(line, card, p1)
    requires OccursAt(line, ": ", p1 + |card|) && OccursAt(line, cardId, p3)
    requires OccursAt(line, " [", p3 + |cardId|)
    ensures OccursAt(line, HeadText(card, cardId), i)
    ensures p3 + |cardId| + 2 == i + |HeadText(card, cardId)|
  {
    OccursJoin(line, "card ", card, i);
    OccursJoin(line, "card " + card, ": ", i);
    OccursJoin(line, "card " + card + ": ", cardId, i);
    OccursJoin(line, "card " + card + ": " + cardId, " [", i);
  }

  /** A match is a literal occurrence of the device-line shape, with well-formed groups. */
  lemma MatchAtSound(line: string, i: nat)
    requires i <= |line| && MatchAt(line, i).Some?
    ensures WellFormedMatch(MatchAt(line, i).value)
    ensures OccursAt(line, MatchText(MatchAt(line, i).value), i)
  {
    var m := MatchAt(line, i).value;
    var h := HeadAt(line, i).value;
    var p5 := h.nameStart;
    var (end, t) := CloseName(line, p5).value;
    assert m == CardMatch(h.card, h.cardId, line[p5..end], t.device, t.deviceName);
    assert t == TailMatch(m.device, m.deviceName);
    assert OccursAt(line, m.cardName, p5);
    assert p5 == i + |HeadText(m.card, m.cardId)| && OccursAt(line, HeadText(m.card, m.cardId), i) by {
      HeadSound(line, i);
    }
    TailAtSound(line, end);
    MatchJoin(line, i, m, p5, end);
  }

  /** A head, a card name and a tail, each where the previous one ends, make one occurrence of a match. */
  lemma MatchJoin(line: string, i: nat, m: CardMatch, p5: nat, end: nat)
    requires OccursAt(line, HeadText(m.card, m.cardId), i) && p5 == i + |HeadText(m.card, m.cardId)|
    requires OccursAt(line, m.cardName, p5) && end == p5 + |m.cardName|
    requires OccursAt(line, TailText(TailMatch(m.device, m.deviceName)), end)
    ensures OccursAt(line, MatchText(m), i)
  {
    var head := HeadText(m.card, m.cardId);
    OccursJoin(line, head, m.cardName, i);
    OccursJoin(line, head + m.cardName, TailText(TailMatch(m.device, m.deviceName)), i);
    MatchTextParts(m);
  }

  /** The leftmost match found by the search is an occurrence in the line. */
  lemma {:induction false} SearchFromSound(line: string, i: nat)
    requires i <= |line| && SearchFrom(line, i).Some?
    ensures WellFormedMatch(SearchFrom(line, i).value)
    ensures Contains(line, MatchText(SearchFrom(line, i).value))
    decreases |line| - i
  {
    match MatchAt(line, i)
    case Some(m) =>
      MatchAtSound(line, i);
      ContainsAt(line, MatchText(m), i);
    case None =>
      SearchFromSound(line, i + 1);
  }

  lemma {:induction false} DigitRunExact(s: string, i: nat, n: nat)
    requires i + n <= |s|
    requires forall k :: i <= k < i + n ==> IsDigit(s[k])
    requires i + n == |s| || !IsDigit(s[i + n])
    ensures DigitRun(s, i) == n
    decreases n
  {
    if n > 0 { DigitRunExact(s, i + 1, n - 1); }
  }

  lemma {:induction false} WordRunExact(s: string, i: nat, n: nat)
    requires i + n <= |s|
    requires forall k :: i <= k < i + n ==> IsWordChar(s[k])
    requires i + n == |s| || !IsWordChar(s[i + n])
    ensures WordRun(s, i) == n
    decreases n
  {
    if n > 0 { WordRunExact(s, i + 1, n - 1); }
  }

  lemma {:induction false} LineRunExact(s: string, i: nat, n: nat)
    requires i + n <= |s|
    requires forall k :: i <= k < i + n ==> s[k] != '\n'
    requires i + n == |s| || s[i + n] == '\n'
    ensures LineRun(s, i) == n
    decreases n
  {
    if n > 0 { LineRunExact(s, i + 1, n - 1); }
  }

  /** A run of digits that occurs at `i` and is followed by a non-digit is what `\d+` takes there. */
  lemma DigitsAt(s: string, digits: string, i: nat, next: string)
    requires AllDigits(digits) && OccursAt(s, digits, i)
    requires next != [] && !IsDigit(next[0]) && OccursAt(s, next, i + |digits|)
    ensures DigitRun(s, i) == |digits|
  {
    OccursChars(s, digits, i);
    OccursChars(s, next, i + |digits|);
    assert forall k :: i <= k < i + |digits| ==> s[k] == digits[k - i];
    DigitRunExact(s, i, |digits|);
  }

  /** A text of word characters that occurs at `i` and is followed by a non-word character is what `\w+` takes there. */
  lemma WordsAt(s: string, word: string, i: nat, next: string)
    requires AllWordChars(word) && OccursAt(s, word, i)
    requires next != [] && !IsWordChar(next[0]) && OccursAt(s, next, i + |word|)
    ensures WordRun(s, i) == |word|
  {
    OccursChars(s, word, i);
    OccursChars(s, next, i + |word|);
    assert forall k :: i <= k < i + |word| ==> s[k] == word[k - i];
    WordRunExact(s, i, |word|);
  }

  /** The pieces of an occurrence of the head text, each at its offset. */
  lemma HeadPieces(line: string, i: nat, card: string, cardId: string)
    requires OccursAt(line, HeadText(card, cardId), i)
    ensures OccursAt(line, "card ", i) && OccursAt(line, card, i + 5)
    ensures OccursAt(line, ": ", i + 5 + |card|) && OccursAt(line, cardId, i + 7 + |card|)
    ensures OccursAt(line, " [", i + 7 + |card| + |cardId|)
  {
    OccursParts(line, "card " + card + ": " + cardId, " [", i);
    OccursParts(line, "card " + card + ": ", cardId, i);
    OccursParts(line, "card " + card, ": ", i);
    OccursParts(line, "card ", card, i);
  }

  lemma IdAtFromParts(line: string, card: string, cardId: string, p3: nat, p4: nat, p5: nat)
    requires p3 <= |line| && p4 == p3 + |cardId| && p5 == p4 + 2 && cardId != []
    requires OccursAt(line, cardId, p3) && WordRun(line, p3) == |cardId| && OccursAt(line, " [", p4)
    ensures IdAt(line, card, p3) == Some(HeadMatch(card, cardId, p5))
  {
    assert line[p3..p4] == cardId;
  }

  lemma CardAtFromParts(line: string, card: string, p1: nat, p2: nat)
    requires p1 <= |line| && p2 == p1 + |card| && card != []
    requires OccursAt(line, card, p1) && DigitRun(line, p1) == |card| && OccursAt(line, ": ", p2)
    ensures CardAt(line, p1) == IdAt(line, card, p2 + 2)
  {
    assert line[p1..p2] == card;
  }

  /**
   * Where the head text of a well-formed card number and id occurs, the head
   * matches with exactly those groups, and the name opens right after it.
   */
  lemma HeadAtFrom(line: string, i: nat, card: string, cardId: string, p5: nat)
    requires card != [] && AllDigits(card) && cardId != [] && AllWordChars(cardId)
    requires OccursAt(line, "card ", i) && OccursAt(line, card, i + 5)
    requires OccursAt(line, ": ", i + 5 + |card|) && OccursAt(line, cardId, i + 7 + |card|)
    requires OccursAt(line, " [", i + 7 + |card| + |cardId|)
    requires p5 == i + 9 + |card| + |cardId|
    ensures HeadAt(line, i) == Some(HeadMatch(card, cardId, p5))
  {
    var p1: nat := i + 5;
    var p3: nat := p1 + |card| + 2;
    IdPartFrom(line, card, cardId, p3, p5);
    CardPartFrom(line, card, p1);
    HeadAtFromCard(line, i, Some(HeadMatch(card, cardId, p5)));
  }

  lemma IdPartFrom(line: string, card: string, cardId: string, p3: nat, p5: nat)
    requires cardId != [] && AllWordChars(cardId)
    requires OccursAt(line, cardId, p3) && OccursAt(line, " [", p3 + |cardId|)
    requires p5 == p3 + |cardId| + 2
    ensures IdAt(line, card, p3) == Some(HeadMatch(card, cardId, p5))
  {
    WordsAt(line, cardId, p3, " [");
    IdAtFromParts(line, card, cardId, p3, p3 + |cardId|, p5);
  }

  lemma CardPartFrom(line: string, card: string, p1: nat)
    requires card != [] && AllDigits(card)
    requires OccursAt(line, card, p1) && OccursAt(line, ": ", p1 + |card|)
    ensures CardAt(line, p1) == IdAt(line, card, p1 + |card| + 2)
  {
    DigitsAt(line, card, p1, ": ");
    CardAtFromParts(line, card, p1, p1 + |card|);
  }

  lemma HeadAtFromCard(line: string, i: nat, r: Option<HeadMatch>)
    requires i <= |line| && OccursAt(line, "card ", i) && CardAt(line, i + 5) == r
    ensures HeadAt(line, i) == r
  {
  }

  /** The pieces of an occurrence of the tail text, each at its offset. */
  lemma TailPieces(line: string, j: nat, t: TailMatch)
    requires OccursAt(line, TailText(t), j)
    ensures OccursAt(line, "], device ", j) && OccursAt(line, t.device, j + 10)
    ensures OccursAt(line, ": ", j + 10 + |t.device|) && OccursAt(line, t.deviceName, j + 12 + |t.device|)
  {
    OccursParts(line, "], device " + t.device + ": ", t.deviceName, j);
    OccursParts(line, "], device " + t.device, ": ", j);
    OccursParts(line, "], device ", t.device, j);
  }

  lemma DeviceAtFromParts(line: string, t: TailMatch, q: nat, e: nat)
    requires q <= |line| && e == q + |t.device| + 2 && t.device != []
    requires OccursAt(line, t.device, q) && DigitRun(line, q) == |t.device|
    requires OccursAt(line, ": ", q + |t.device|) && OccursAt(line, t.deviceName, e)
    requires LineRun(line, e) == |t.deviceName|
    ensures DeviceAt(line, q) == Some(t)
  {
    assert line[q..q + |t.device|] == t.device;
    assert line[e..e + |t.deviceName|] == t.deviceName;
  }

  lemma TailAtFromDevice(line: string, j: nat, r: Option<TailMatch>)
    requires j <= |line| && OccursAt(line, "], device ", j) && DeviceAt(line, j + 10) == r
    ensures TailAt(line, j) == r
  {
  }

  /**
   * Where the tail text of a well-formed device number and name occurs and
   * is followed by the end of the line or a line break, the tail matches
   * with exactly those groups.
   */
  lemma TailAtFrom(line: string, j: nat, t: TailMatch, f: nat)
    requires t.device != [] && AllDigits(t.device) && NoNewline(t.deviceName)
    requires OccursAt(line, "], device ", j) && OccursAt(line, t.device, j + 10)
    requires OccursAt(line, ": ", j + 10 + |t.device|) && OccursAt(line, t.deviceName, j + 12 + |t.device|)
    requires f == j + 12 + |t.device| + |t.deviceName| && (f == |line| || line[f] == '\n')
    ensures TailAt(line, j) == Some(t)
  {
    var q: nat := j + 10;
    DevicePartFrom(line, t, q, f);
    TailAtFromDevice(line, j, Some(t));
  }

  lemma DevicePartFrom(line: string, t: TailMatch, q: nat, f: nat)
    requires t.device != [] && AllDigits(t.device) && NoNewline(t.deviceName)
    requires OccursAt(line, t.device, q) && OccursAt(line, ": ", q + |t.device|)
    requires OccursAt(line, t.deviceName, q + |t.device| + 2)
    requires f == q + |t.device| + 2 + |t.deviceName| && (f == |line| || line[f] == '\n')
    ensures DeviceAt(line, q) == Some(t)
  {
    var e: nat := q + |t.device| + 2;
    DigitsAt(line, t.device, q, ": ");
    LineAt(line, t.deviceName, e, f);
    DeviceAtFromParts(line, t, q, e);
  }

  /** A text without line breaks that occurs at `i` and reaches the end of the line is what `.*` takes there. */
  lemma LineAt(s: string, text: string, i: nat, f: nat)
    requires NoNewline(text) && OccursAt(s, text, i)
    requires f == i + |text| && (f == |s| || s[f] == '\n')
    ensures LineRun(s, i) == |text|
  {
    OccursChars(s, text, i);
    assert forall k :: i <= k < f ==> s[k] == text[k - i];
    LineRunExact(s, i, |text|);
  }

  /**
   * The lazy card name stops at the first `]` that starts a complete tail:
   * when the name holds no `]` and no line break, it ends where the tail starts.
   */
  lemma {:induction false} CloseNameShape(line: string, j: nat, end: nat, t: TailMatch)
    requires j <= end <= |line|
    requires forall k :: j <= k < end ==> line[k] != ']' && line[k] != '\n'
    requires TailAt(line, end) == Some(t)
    ensures CloseName(line, j) == Some((end, t))
    decreases end - j
  {
    if j < end {
      assert !OccursAt(line, "], device ", j) by { assert line[j..j + 10][0] == line[j]; }
      CloseNameShape(line, j + 1, end, t);
    }
  }

  /** A card name without `]` or line break, followed by a tail, closes where the tail starts. */
  lemma NameCloses(line: string, j: nat, name: string, t: TailMatch, end: nat)
    requires NoNewline(name) && forall k :: 0 <= k < |name| ==> name[k] != ']'
    requires OccursAt(line, name, j) && end == j + |name|
    requires TailAt(line, end) == Some(t)
    ensures end <= |line| && line[j..end] == name
    ensures CloseName(line, j) == Some((end, t))
  {
    OccursChars(line, name, j);
    assert forall k :: j <= k < end ==> line[k] == name[k - j];
    CloseNameShape(line, j, end, t);
  }

  /** A head at `i` and a closing card name make the match at `i`. */
  lemma MatchAtFromParts(line: string, i: nat, h: HeadMatch, end: nat, name: string, t: TailMatch)
    requires i <= |line| && HeadAt(line, i) == Some(h) && h.nameStart <= end <= |line|
    requires CloseName(line, h.nameStart) == Some((end, t)) && line[h.nameStart..end] == name
    ensures MatchAt(line, i) == Some(CardMatch(h.card, h.cardId, name, t.device, t.deviceName))
  {
  }

  /**
   * Completeness of the matcher: where the text of a well-formed match
   * occurs, its card name holds no `]`, and the match runs to the end of the
   * line or to a line break, the matcher finds exactly that match there.
   */
  lemma MatchAtFrom(line: string, i: nat, m: CardMatch)
    requires WellFormedMatch(m) && forall k :: 0 <= k < |m.cardName| ==> m.cardName[k] != ']'
    requires OccursAt(line, MatchText(m), i)
    requires var f := i + |MatchText(m)|; f == |line| || line[f] == '\n'
    ensures MatchAt(line, i) == Some(m)
  {
    var t := TailMatch(m.device, m.deviceName);
    var p5: nat := i + 9 + |m.card| + |m.cardId|;
    var end: nat := p5 + |m.cardName|;
    var f: nat := end + 12 + |m.device| + |m.deviceName|;
    MatchPieces(line, i, m, p5, end, f);
    MatchHeadFrom(line, i, m, p5);
    MatchTailFrom(line, end, t, f);
    NameCloses(line, p5, m.cardName, t, end);
    MatchAtFromParts(line, i, HeadMatch(m.card, m.cardId, p5), end, m.cardName, t);
  }

  lemma MatchHeadFrom(line: string, i: nat, m: CardMatch, p5: nat)
    requires m.card != [] && AllDigits(m.card) && m.cardId != [] && AllWordChars(m.cardId)
    requires OccursAt(line, HeadText(m.card, m.cardId), i) && p5 == i + 9 + |m.card| + |m.cardId|
    ensures HeadAt(line, i) == Some(HeadMatch(m.card, m.cardId, p5))
  {
    HeadPieces(line, i, m.card, m.cardId);
    HeadAtFrom(line, i, m.card, m.cardId, p5);
  }

  lemma MatchTailFrom(line: string, end: nat, t: TailMatch, f: nat)
    requires t.device != [] && AllDigits(t.device) && NoNewline(t.deviceName)
    requires OccursAt(line, TailText(t), end) && f == end + 12 + |t.device| + |t.deviceName|
    requires f == |line| || line[f] == '\n'
    ensures TailAt(line, end) == Some(t)
  {
    TailPieces(line, end, t);
    TailAtFrom(line, end, t, f);
  }

  /** The three pieces of an occurrence of a match's text, and where they end. */
  lemma MatchPieces(line: string, i: nat, m: CardMatch, p5: nat, end: nat, f: nat)
    requires OccursAt(line, MatchText(m), i)
    requires p5 == i + 9 + |m.card| + |m.cardId| && end == p5 + |m.cardName|
    requires f == end + 12 + |m.device| + |m.deviceName|
    requires var g := i + |MatchText(m)|; g == |line| || line[g] == '\n'
    ensures OccursAt(line, HeadText(m.card, m.cardId), i) && OccursAt(line, m.cardName, p5)
    ensures OccursAt(line, TailText(TailMatch(m.device, m.deviceName)), end)
    ensures f == |line| || line[f] == '\n'
  {
    var head := HeadText(m.card, m.cardId);
    MatchTextParts(m);
    OccursParts(line, head + m.cardName, TailText(TailMatch(m.device, m.deviceName)), i);
    OccursParts(line, head, m.cardName, i);
  }

  /**
   * An `arecord -l` line of the shape `card N: ID [NAME], device M: DNAME`
   * (NAME holding no `]`) yields the device with id `hw:N,M` and name
   * `NAME: DNAME`.
   */
  lemma ArecordLineShape(m: CardMatch)
    requires WellFormedMatch(m)
    requires forall k :: 0 <= k < |m.cardName| ==> m.cardName[k] != ']'
    ensures ParseArecordLine(MatchText(m)) == Some(DeviceOf(m))
  {
    var line := MatchText(m);
    var start: nat := 0;
    assert line[start..start + |line|] == line;
    MatchAtFrom(line, start, m);
  }

  // ---------------------------------------------------------------------
  // The device list of `arecord -l`, and the microphone choice
  // ---------------------------------------------------------------------

  /** What every listed device satisfies: numeric card and device, id `hw:N,M`. */
  predicate ValidDevice(d: AlsaDevice)
  {
    && d.cardNum != [] && AllDigits(d.cardNum)
    && d.deviceNum != [] && AllDigits(d.deviceNum)
    && d.id == "hw:" + d.cardNum + "," + d.deviceNum
  }

  /** A device parsed from a line is the device of a match the line contains. */
  lemma ParseArecordLineSound(line: string)
    requires ParseArecordLine(line).Some?
    ensures var m := SearchFrom(line, 0).value;
      && WellFormedMatch(m) && Contains(line, MatchText(m))
      && ParseArecordLine(line) == Some(DeviceOf(m)) && ValidDevice(DeviceOf(m))
  {
    var start: nat := 0;
    SearchFromSound(line, start);
  }

  /** The devices listed, in line order: one per line in which the pattern is found. */
  function AlsaDevicesOf(lines: seq<string>): (ds: seq<AlsaDevice>)
    ensures |ds| <= |lines|
    ensures forall k :: 0 <= k < |ds| ==> ValidDevice(ds[k])
  {
    if lines == [] then []
    else
      var rest := AlsaDevicesOf(lines[..|lines| - 1]);
      var last := lines[|lines| - 1];
      match ParseArecordLine(last)
      case None => rest
      case Some(d) => ParseArecordLineSound(last); rest + [d]
  }

  /** The device list of a listing is the device lists of its parts, one after the other. */
  lemma {:induction false} AlsaDevicesAppend(a: seq<string>, b: seq<string>)
    ensures AlsaDevicesOf(a + b) == AlsaDevicesOf(a) + AlsaDevicesOf(b)
    decreases |b|
  {
    if b == [] {
      assert a + b == a;
    } else {
      var b0 := b[..|b| - 1];
      assert (a + b)[..|a + b| - 1] == a + b0;
      assert (a + b)[|a + b| - 1] == b[|b| - 1];
      AlsaDevicesAppend(a, b0);
    }
  }

  /** A line in which the pattern is not found adds nothing, wherever it stands. */
  lemma NonMatchingLineAddsNothing(a: seq<string>, line: string, b: seq<string>)
    requires ParseArecordLine(line).None?
    ensures AlsaDevicesOf(a + [line] + b) == AlsaDevicesOf(a + b)
  {
    AlsaDevicesAppend(a + [line], b);
    AlsaDevicesAppend(a, [line]);
    AlsaDevicesAppend(a, b);
    assert [line][..0] == [];
  }

  /** A device line contributes its device at its place in the list. */
  lemma DeviceLineAddsDevice(a: seq<string>, m: CardMatch, b: seq<string>)
    requires WellFormedMatch(m) && forall k :: 0 <= k < |m.cardName| ==> m.cardName[k] != ']'
    ensures AlsaDevicesOf(a + [MatchText(m)] + b) == AlsaDevicesOf(a) + [DeviceOf(m)] + AlsaDevicesOf(b)
  {
    ArecordLineShape(m);
    AlsaDevicesAppend(a + [MatchText(m)], b);
    AlsaDevicesAppend(a, [MatchText(m)]);
    assert [MatchText(m)][..0] == [];
  }

  /** The parsing loop over the lines of `arecord -l`. */
  method ParseAlsaDevices(stdout: string) returns (devices: seq<AlsaDevice>)
    ensures devices == AlsaDevicesOf(Lines(stdout))
  {
    var lines := Lines(stdout);
    devices := [];
    for k := 0 to |lines|
      invariant devices == AlsaDevicesOf(lines[..k])
    {
      assert lines[..k + 1][..k] == lines[..k];
      match ParseArecordLine(lines[k])
      case Some(d) => devices := devices + [d];
      case None =>
    }
    assert lines[..|lines|] == lines;
  }

  /** The names that mark a device for automatic selection (case-sensitive). */
  predicate Preferred(d: AlsaDevice)
  {
    Contains(d.name, "Trust") || Contains(d.name, "GXT") || Contains(d.name, "Microphone")
  }

  /** The first preferred device at index `i` or later. */
  function FirstPreferredFrom(ds: seq<AlsaDevice>, i: nat): (r: Option<nat>)
    requires i <= |ds|
    ensures r.Some? ==> i <= r.value < |ds| && Preferred(ds[r.value])
    ensures r.Some? ==> forall j :: i <= j < r.value ==> !Preferred(ds[j])
    ensures r.None? ==> forall j :: i <= j < |ds| ==> !Preferred(ds[j])
    decreases |ds| - i
  {
    if i == |ds| then None
    else if Preferred(ds[i]) then Some(i)
    else FirstPreferredFrom(ds, i + 1)
  }

  /** How the microphone choice was reached. */
  datatype MicPath =
    | AutoSelected(index: nat)   // a preferred device was found; no input is read
    | UserSelected(index: nat)   // the typed number names a listed device
    | InvalidInput               // the input is not an integer
    | OutOfRange(number: int)    // the number names no listed device
    | NoDevices                  // the listing yields no device
    | ToolError                  // running `arecord -l` failed

  /** The microphone choice: the device string, its sample rate, and how it was reached. */
  datatype MicChoice = MicChoice(device: string, sampleRate: int, path: MicPath)

  /**
   * The decision `select_microphone` takes, given the output of `arecord -l`
   * (`None` when running it failed) and the line the user would type.
   */
  function MicPathOf(arecordOut: Option<string>, selection: string): MicPath
  {
    match arecordOut
    case None => ToolError
    case Some(out) =>
      var ds := AlsaDevicesOf(Lines(out));
      if ds == [] then NoDevices
      else
        var start: nat := 0;
        match FirstPreferredFrom(ds, start)
        case Some(i) => AutoSelected(i)
        case None =>
          match ParseInt(selection)
          case None => InvalidInput
          case Some(n) => if 0 <= n < |ds| then UserSelected(n) else OutOfRange(n)
  }

  /**
   * `select_microphone`: every path returns the device `default` at 44100 Hz;
   * the path records which branch was taken.
   */
  method SelectMicrophone(arecordOut: Option<string>, selection: string) returns (choice: MicChoice)
    ensures choice.device == "default" && choice.sampleRate == 44100
    ensures choice.path == MicPathOf(arecordOut, selection)
  {
    if arecordOut.None? {
      return MicChoice("default", 44100, ToolError);
    }
    var devices := ParseAlsaDevices(arecordOut.value);
    if devices == [] {
      return MicChoice("default", 44100, NoDevices);
    }
    var idx := 0;
    while idx < |devices|
      invariant 0 <= idx <= |devices|
      invariant FirstPreferredFrom(devices, 0) == FirstPreferredFrom(devices, idx)
    {
      if Preferred(devices[idx]) {
        return MicChoice("default", 44100, AutoSelected(idx));
      }
      idx := idx + 1;
    }
    match ParseInt(selection)
    case None =>
      choice := MicChoice("default", 44100, InvalidInput);
    case Some(n) =>
      if 0 <= n < |devices| {
        choice := MicChoice("default", 44100, UserSelected(n));
      } else {
        choice := MicChoice("default", 44100, OutOfRange(n));
      }
  }

  /** With a preferred device listed, the first one is selected whatever the user would type. */
  lemma PreferredIgnoresSelection(out: string, selection: string, i: nat)
    requires var ds := AlsaDevicesOf(Lines(out));
      i < |ds| && Preferred(ds[i]) && forall j :: 0 <= j < i ==> !Preferred(ds[j])
    ensures MicPathOf(Some(out), selection) == AutoSelected(i)
  {
    var ds := AlsaDevicesOf(Lines(out));
    var start: nat := 0;
    var r := FirstPreferredFrom(ds, start);
    assert r.Some? && r.value == i;
  }

  /** The typed number is used exactly when no device is preferred and it names a listed device. */
  lemma UserSelectionIff(out: string, selection: string)
    ensures var ds := AlsaDevicesOf(Lines(out));
      MicPathOf(Some(out), selection).UserSelected? <==>
        && (forall j :: 0 <= j < |ds| ==> !Preferred(ds[j]))
        && ParseInt(selection).Some? && 0 <= ParseInt(selection).value < |ds|
  {
    var ds := AlsaDevicesOf(Lines(out));
    var start: nat := 0;
    var r := FirstPreferredFrom(ds, start);
    if r.Some? {
      assert Preferred(ds[r.value]);
    }
  }

  // ---------------------------------------------------------------------
  // `pactl list sources`: a record per `Source #` header
  // ---------------------------------------------------------------------

  /** A source of the sound server, as `pactl list sources` describes it. */
  datatype PulseSource = PulseSource(index: string, name: string, description: Option<string>)

  /** The record being filled: the index from its header, and name and description once seen. */
  datatype PartialSource = PartialSource(index: string, name: Option<string>, description: Option<string>)

  /** The sources emitted so far, and the record being filled once a header has been seen. */
  datatype ParserState = ParserState(sources: seq<PulseSource>, current: Option<PartialSource>)

  const InitialState := ParserState([], None)

  predicate IsHeader(line: string)
  {
    StartsWith(line, "Source #")
  }

  predicate IsNameLine(line: string)
  {
    Contains(line, "Name:")
  }

  predicate IsDescriptionLine(line: string)
  {
    Contains(line, "Description:")
  }

  lemma HeaderHasHash(line: string)
    requires IsHeader(line)
    ensures Contains(line, "#")
  {
    assert line[7..8] == line[..8][7..];
    ContainsAt(line, "#", 7);
  }

  /** The index on a header line: the stripped text after the first `#`. */
  function HeaderIndex(line: string): string
    requires IsHeader(line)
  {
    HeaderHasHash(line);
    Strip(SecondField(line, "#"))
  }

  /** The stripped text after the first `Name:` of a line. */
  function NameValue(line: string): string
    requires IsNameLine(line)
  {
    Strip(SecondField(line, "Name:"))
  }

  /** The stripped text after the first `Description:` of a line. */
  function DescriptionValue(line: string): string
    requires IsDescriptionLine(line)
  {
    Strip(SecondField(line, "Description:"))
  }

  /** What a record contributes when it is closed: a source if it has a name, else nothing. */
  function Completed(current: Option<PartialSource>): (r: seq<PulseSource>)
    ensures |r| <= 1
    ensures r != [] <==> current.Some? && current.value.name.Some?
  {
    match current
    case None => []
    case Some(p) =>
      match p.name
      case None => []
      case Some(n) => [PulseSource(p.index, n, p.description)]
  }

  /**
   * One line of the listing: a header closes the record being filled and
   * opens a new one; a `Name:` line, else a `Description:` line, fills that
   * field of an open record; any other line, and any line before the first
   * header, changes nothing.
   */
  function Step(st: ParserState, line: string): ParserState
  {
    if IsHeader(line) then
      ParserState(st.sources + Completed(st.current), Some(PartialSource(HeaderIndex(line), None, None)))
    else if IsNameLine(line) && st.current.Some? then
      ParserState(st.sources, Some(st.current.value.(name := Some(NameValue(line)))))
    else if IsDescriptionLine(line) && st.current.Some? then
      ParserState(st.sources, Some(st.current.value.(description := Some(DescriptionValue(line)))))
    else st
  }

  function Run(st: ParserState, lines: seq<string>): ParserState
    decreases |lines|
  {
    if lines == [] then st else Run(Step(st, lines[0]), lines[1..])
  }

  /** After the last line the open record is closed too. */
  function Finish(st: ParserState): seq<PulseSource>
  {
    st.sources + Completed(st.current)
  }

  function PulseSourcesOfLines(lines: seq<string>): seq<PulseSource>
  {
    Finish(Run(InitialState, lines))
  }

  /** The sources listed by `pactl list sources`. */
  function PulseSourcesOf(stdout: string): seq<PulseSource>
  {
    PulseSourcesOfLines(Lines(stdout))
  }

  /** The parsing loop over the lines of `pactl list sources`. */
  method ParsePulseSources(stdout: string) returns (sources: seq<PulseSource>)
    ensures sources == PulseSourcesOf(stdout)
  {
    var lines := Lines(stdout);
    sources := [];
    var current: Option<PartialSource> := None;
    for k := 0 to |lines|
      invariant Run(InitialState, lines[..k]) == ParserState(sources, current)
    {
      var line := lines[k];
      assert lines[..k + 1] == lines[..k] + [line];
      RunSnoc(InitialState, lines[..k], line);
      if IsHeader(line) {
        if current.Some? && current.value.name.Some? {
          sources := sources + [PulseSource(current.value.index, current.value.name.value, current.value.description)];
        }
        current := Some(PartialSource(HeaderIndex(line), None, None));
      } else if IsNameLine(line) && current.Some? {
        current := Some(current.value.(name := Some(NameValue(line))));
      } else if IsDescriptionLine(line) && current.Some? {
        current := Some(current.value.(description := Some(DescriptionValue(line))));
      }
    }
    assert lines[..|lines|] == lines;
    if current.Some? && current.value.name.Some? {
      sources := sources + [PulseSource(current.value.index, current.value.name.value, current.value.description)];
    }
  }

  lemma {:induction false} RunAppend(st: ParserState, a: seq<string>, b: seq<string>)
    ensures Run(st, a + b) == Run(Run(st, a), b)
    decreases |a|
  {
    if a != [] {
      assert (a + b)[1..] == a[1..] + b;
      RunAppend(Step(st, a[0]), a[1..], b);
    } else {
      assert a + b == b;
    }
  }

  lemma RunSnoc(st: ParserState, a: seq<string>, line: string)
    ensures Run(st, a + [line]) == Step(Run(st, a), line)
  {
    RunAppend(st, a, [line]);
    assert [line][1..] == [];
  }

  /** Lines before the first header change nothing. */
  lemma {:induction false} PreambleQuiet(pre: seq<string>)
    requires forall k :: 0 <= k < |pre| ==> !IsHeader(pre[k])
    ensures Run(InitialState, pre) == InitialState
    decreases |pre|
  {
    if pre != [] {
      PreambleQuiet(pre[1..]);
    }
  }

  /** `Name:` and `Description:` lines before the first header are ignored. */
  lemma PreambleIgnored(pre: seq<string>, rest: seq<string>)
    requires forall k :: 0 <= k < |pre| ==> !IsHeader(pre[k])
    ensures PulseSourcesOfLines(pre + rest) == PulseSourcesOfLines(rest)
  {
    RunAppend(InitialState, pre, rest);
    PreambleQuiet(pre);
  }

  /** The name a record body sets: from its last `Name:` line, if any. */
  function LastName(body: seq<string>): Option<string>
  {
    if body == [] then None
    else
      var last := body[|body| - 1];
      if IsNameLine(last) then Some(NameValue(last)) else LastName(body[..|body| - 1])
  }

  /** The description a record body sets: from its last `Description:` line that is not a `Name:` line, if any. */
  function LastDescription(body: seq<string>): Option<string>
  {
    if body == [] then None
    else
      var last := body[|body| - 1];
      if !IsNameLine(last) && IsDescriptionLine(last) then Some(DescriptionValue(last))
      else LastDescription(body[..|body| - 1])
  }

  /** A field value set later overrides the one set earlier. */
  function Later(earlier: Option<string>, later: Option<string>): Option<string>
  {
    if later.Some? then later else earlier
  }

  /** The lines of a record body fill the open record: the last `Name:` and `Description:` lines win. */
  lemma {:induction false} BodyRun(sources: seq<PulseSource>, p: PartialSource, body: seq<string>)
    requires forall k :: 0 <= k < |body| ==> !IsHeader(body[k])
    ensures Run(ParserState(sources, Some(p)), body)
      == ParserState(sources, Some(PartialSource(p.index, Later(p.name, LastName(body)), Later(p.description, LastDescription(body)))))
    decreases |body|
  {
    if body != [] {
      var front, last := body[..|body| - 1], body[|body| - 1];
      assert body == front + [last];
      RunSnoc(ParserState(sources, Some(p)), front, last);
      BodyRun(sources, p, front);
    }
  }

  /** A `Source #` header with the lines up to the next header. */
  datatype SourceBlock = SourceBlock(header: string, body: seq<string>)

  predicate WellFormedBlock(b: SourceBlock)
  {
    IsHeader(b.header) && forall k :: 0 <= k < |b.body| ==> !IsHeader(b.body[k])
  }

  predicate WellFormedBlocks(bs: seq<SourceBlock>)
  {
    forall k :: 0 <= k < |bs| ==> WellFormedBlock(bs[k])
  }

  function BlockLines(bs: seq<SourceBlock>): seq<string>
  {
    if bs == [] then [] else [bs[0].header] + bs[0].body + BlockLines(bs[1..])
  }

  /** What one block yields independently of the parser: a source iff it has a `Name:` line. */
  function BlockSource(b: SourceBlock): seq<PulseSource>
    requires WellFormedBlock(b)
  {
    match LastName(b.body)
    case None => []
    case Some(n) => [PulseSource(HeaderIndex(b.header), n, LastDescription(b.body))]
  }

  function BlockSources(bs: seq<SourceBlock>): seq<PulseSource>
    requires WellFormedBlocks(bs)
  {
    if bs == [] then [] else BlockSource(bs[0]) + BlockSources(bs[1..])
  }

  /** A block closes the record being filled and leaves its own record open. */
  lemma BlockRun(st: ParserState, b: SourceBlock)
    requires WellFormedBlock(b)
    ensures Run(st, [b.header] + b.body)
      == ParserState(st.sources + Completed(st.current),
                     Some(PartialSource(HeaderIndex(b.header), LastName(b.body), LastDescription(b.body))))
  {
    RunAppend(st, [b.header], b.body);
    assert [b.header][1..] == [];
    var started := PartialSource(HeaderIndex(b.header), None, None);
    assert Run(st, [b.header]) == ParserState(st.sources + Completed(st.current), Some(started));
    BodyRun(st.sources + Completed(st.current), started, b.body);
  }

  /** The lines after a block are read from the state the block leaves. */
  lemma BlockThenRest(st: ParserState, b: SourceBlock, rest: seq<string>)
    requires WellFormedBlock(b)
    ensures Finish(Run(st, [b.header] + b.body + rest))
      == Finish(Run(ParserState(st.sources + Completed(st.current),
                                Some(PartialSource(HeaderIndex(b.header), LastName(b.body), LastDescription(b.body)))), rest))
  {
    RunAppend(st, [b.header] + b.body, rest);
    BlockRun(st, b);
  }

  lemma SeqAssoc<T>(a: seq<T>, b: seq<T>, c: seq<T>)
    ensures a + b + c == a + (b + c)
  {
  }

  lemma {:induction false} BlocksRun(sources: seq<PulseSource>, current: Option<PartialSource>, bs: seq<SourceBlock>)
    requires WellFormedBlocks(bs)
    ensures Finish(Run(ParserState(sources, current), BlockLines(bs))) == sources + Completed(current) + BlockSources(bs)
    decreases |bs|
  {
    if bs != [] {
      var b := bs[0];
      assert WellFormedBlock(b);
      assert BlockLines(bs) == [b.header] + b.body + BlockLines(bs[1..]);
      BlockThenRest(ParserState(sources, current), b, BlockLines(bs[1..]));
      var filled := Some(PartialSource(HeaderIndex(b.header), LastName(b.body), LastDescription(b.body)));
      BlocksRun(sources + Completed(current), filled, bs[1..]);
      assert Completed(filled) == BlockSource(b);
      assert BlockSources(bs) == BlockSource(b) + BlockSources(bs[1..]);
      SeqAssoc(sources + Completed(current), Completed(filled), BlockSources(bs[1..]));
    }
  }

  /**
   * The sources of a listing made of a preamble without headers and then
   * well-formed blocks: one per block that has a `Name:` line, in block
   * order, with the index of its header, the value of its last `Name:` line
   * and that of its last `Description:` line. A block without a `Name:` line
   * is dropped.
   */
  lemma SourcesFromBlocks(pre: seq<string>, bs: seq<SourceBlock>)
    requires forall k :: 0 <= k < |pre| ==> !IsHeader(pre[k])
    requires WellFormedBlocks(bs)
    ensures PulseSourcesOfLines(pre + BlockLines(bs)) == BlockSources(bs)
  {
    PreambleIgnored(pre, BlockLines(bs));
    BlocksRun([], None, bs);
  }

  // ---------------------------------------------------------------------
  // Monitor sources
  // ---------------------------------------------------------------------

  /**
   * A search for the regular expression `monitor.*of.*` succeeds: `monitor`,
   * then `of` later on the same line (`.` does not match a newline).
   */
  predicate MonitorOfPattern(s: string)
  {
    exists i: nat, j: nat | i + 7 <= j && j + 2 <= |s| ::
      OccursAt(s, "monitor", i) && OccursAt(s, "of", j) && NoNewline(s[i + 7..j])
  }

  /** The text `monitor`, a gap without newline, then `of`, anywhere, matches. */
  lemma MonitorOfWitness(pre: string, gap: string, post: string)
    requires NoNewline(gap)
    ensures MonitorOfPattern(pre + "monitor" + gap + "of" + post)
  {
    var s := pre + "monitor" + gap + "of" + post;
    var i: nat, j: nat := |pre|, |pre| + 7 + |gap|;
    assert s[i..i + 7] == "monitor";
    assert s[j..j + 2] == "of";
    assert s[i + 7..j] == gap;
    assert OccursAt(s, "monitor", i) && OccursAt(s, "of", j) && NoNewline(s[i + 7..j]);
  }

  /** A match needs the word `monitor`. */
  lemma MonitorOfNeedsWord(s: string)
    requires MonitorOfPattern(s)
    ensures Contains(s, "monitor")
  {
    var i: nat, j: nat :| i + 7 <= j && j + 2 <= |s| && OccursAt(s, "monitor", i) && OccursAt(s, "of", j) && NoNewline(s[i + 7..j]);
    ContainsAt(s, "monitor", i);
  }

  /** A source offered as a monitor: it has a description, and the description matches `monitor.*of.*` or the name mentions `monitor`. */
  predicate IsMonitor(src: PulseSource)
  {
    src.description.Some?
    && (MonitorOfPattern(Lower(src.description.value)) || Contains(Lower(src.name), "monitor"))
  }

  /** The monitor sources, in listing order. */
  function MonitorsOf(sources: seq<PulseSource>): (r: seq<PulseSource>)
    ensures |r| <= |sources|
    ensures forall k :: 0 <= k < |r| ==> IsMonitor(r[k]) && r[k] in sources
  {
    if sources == [] then []
    else
      var front, last := sources[..|sources| - 1], sources[|sources| - 1];
      assert forall x :: x in front ==> x in sources;
      if IsMonitor(last) then MonitorsOf(front) + [last] else MonitorsOf(front)
  }

  /** A source is kept exactly when it is a monitor. */
  lemma {:induction false} MonitorsOfMembership(sources: seq<PulseSource>, x: PulseSource)
    ensures x in MonitorsOf(sources) <==> x in sources && IsMonitor(x)
    decreases |sources|
  {
    if sources != [] {
      var front := sources[..|sources| - 1];
      assert sources == front + [sources[|sources| - 1]];
      MonitorsOfMembership(front, x);
    }
  }

  /** The filter works line by line: it distributes over concatenation, keeping order. */
  lemma {:induction false} MonitorsOfAppend(a: seq<PulseSource>, b: seq<PulseSource>)
    ensures MonitorsOf(a + b) == MonitorsOf(a) + MonitorsOf(b)
    decreases |b|
  {
    if b == [] {
      assert a + b == a;
    } else {
      var front, last := b[..|b| - 1], b[|b| - 1];
      assert a + b == (a + front) + [last];
      assert (a + b)[..|a + b| - 1] == a + front;
      MonitorsOfAppend(a, front);
    }
  }

  /** The filtering loop over the parsed sources. */
  method FilterMonitors(sources: seq<PulseSource>) returns (monitors: seq<PulseSource>)
    ensures monitors == MonitorsOf(sources)
  {
    monitors := [];
    for k := 0 to |sources|
      invariant monitors == MonitorsOf(sources[..k])
    {
      assert sources[..k + 1][..k] == sources[..k];
      if IsMonitor(sources[k]) {
        monitors := monitors + [sources[k]];
      }
    }
    assert sources[..|sources|] == sources;
  }

  // ---------------------------------------------------------------------
  // `pactl list short sources`: the fallback scan
  // ---------------------------------------------------------------------

  predicate IsMonitorLine(line: string)
  {
    Contains(Lower(line), "monitor")
  }

  /**
   * The short scan: the second tab-separated field of every line mentioning
   * `monitor`, in order; `None` where a monitor line has no tab, since
   * `IndexError` abandons the whole scan.
   */
  function ShortScan(lines: seq<string>): Option<seq<string>>
  {
    if lines == [] then Some([])
    else
      var last := lines[|lines| - 1];
      match ShortScan(lines[..|lines| - 1])
      case None => None
      case Some(ms) =>
        if !IsMonitorLine(last) then Some(ms)
        else
          match Field(last, "\t", 1)
          case None => None
          case Some(d) => Some(ms + [d])
  }

  /** Scanning two runs of lines is scanning each, failing if either fails. */
  lemma {:induction false} ShortScanAppend(a: seq<string>, b: seq<string>)
    ensures ShortScan(a + b)
      == match ShortScan(a)
         case None => None
         case Some(ms) =>
           match ShortScan(b)
           case None => None
           case Some(ns) => Some(ms + ns)
    decreases |b|
  {
    if b == [] {
      assert a + b == a;
      if ShortScan(a).Some? {
        assert ShortScan(a).value + [] == ShortScan(a).value;
      }
    } else {
      var front, last := b[..|b| - 1], b[|b| - 1];
      assert (a + b)[..|a + b| - 1] == a + front;
      assert (a + b)[|a + b| - 1] == last;
      ShortScanAppend(a, front);
      ShortScanSnoc(a + front, last);
      ShortScanSnoc(front, last);
      if ShortScan(a).Some? && ShortScan(front).Some? && IsMonitorLine(last) && Field(last, "\t", 1).Some? {
        SeqAssoc(ShortScan(a).value, ShortScan(front).value, [Field(last, "\t", 1).value]);
      }
    }
  }

  lemma ShortScanSnoc(front: seq<string>, last: string)
    ensures ShortScan(front + [last])
      == match ShortScan(front)
         case None => None
         case Some(ms) =>
           if !IsMonitorLine(last) then Some(ms)
           else
             match Field(last, "\t", 1)
             case None => None
             case Some(d) => Some(ms + [d])
  {
    assert (front + [last])[..|front|] == front;
  }

  /** The scan fails exactly when some line mentions `monitor` but has no tab. */
  lemma {:induction false} ShortScanFailsIff(lines: seq<string>)
    ensures ShortScan(lines).None?
      <==> exists k :: 0 <= k < |lines| && IsMonitorLine(lines[k]) && !Contains(lines[k], "\t")
    decreases |lines|
  {
    if lines != [] {
      var front, last := lines[..|lines| - 1], lines[|lines| - 1];
      ShortScanFailsIff(front);
      SecondFieldIff(last, "\t");
      assert forall k :: 0 <= k < |front| ==> front[k] == lines[k];
      if ShortScan(lines).None? && ShortScan(front).Some? {
        assert IsMonitorLine(lines[|lines| - 1]) && !Contains(lines[|lines| - 1], "\t");
      }
    }
  }

  /** Without a line mentioning `monitor`, the scan finds nothing. */
  lemma {:induction false} ShortScanNone(lines: seq<string>)
    requires forall k :: 0 <= k < |lines| ==> !IsMonitorLine(lines[k])
    ensures ShortScan(lines) == Some([])
    decreases |lines|
  {
    if lines != [] {
      ShortScanNone(lines[..|lines| - 1]);
    }
  }

  /**
   * When the scan succeeds, the first monitor found is the second field of
   * the first line mentioning `monitor`, and that line has a tab.
   */
  lemma ShortScanFirst(before: seq<string>, line: string, after: seq<string>)
    requires IsMonitorLine(line)
    requires forall j :: 0 <= j < |before| ==> !IsMonitorLine(before[j])
    requires ShortScan(before + [line] + after).Some?
    ensures Contains(line, "\t")
    ensures var ms := ShortScan(before + [line] + after).value;
      ms != [] && ms[0] == SecondField(line, "\t")
  {
    ShortScanSplit(before + [line], after);
    ShortScanNone(before);
    SecondFieldIff(line, "\t");
    ShortScanSnoc(before, line);
  }

  /** A successful scan of two runs of lines is the two scans' results, one after the other. */
  lemma ShortScanSplit(a: seq<string>, b: seq<string>)
    requires ShortScan(a + b).Some?
    ensures ShortScan(a).Some? && ShortScan(b).Some?
    ensures ShortScan(a + b).value == ShortScan(a).value + ShortScan(b).value
  {
    ShortScanAppend(a, b);
  }

  /** The scanning loop over `pactl list short sources`; `aborted` where the source raises `IndexError`. */
  method ScanShortSources(stdout: string) returns (monitors: seq<string>, aborted: bool)
    ensures aborted <==> ShortScan(Lines(stdout)).None?
    ensures !aborted ==> ShortScan(Lines(stdout)) == Some(monitors)
  {
    var lines := Lines(stdout);
    monitors := [];
    for k := 0 to |lines|
      invariant ShortScan(lines[..k]) == Some(monitors)
    {
      var line := lines[k];
      assert lines[..k + 1][..k] == lines[..k];
      if IsMonitorLine(line) {
        var parts := Split(line, "\t");
        if |parts| < 2 {
          assert ShortScan(lines[..k + 1]).None?;
          assert lines == lines[..k + 1] + lines[k + 1..];
          ShortScanAppend(lines[..k + 1], lines[k + 1..]);
          return [], true;
        }
        monitors := monitors + [parts[1]];
      }
    }
    assert lines[..|lines|] == lines;
    aborted := false;
  }

  /** The monitor the short scan settles on: the first one found, if the scan succeeds and finds any. */
  function ShortListChoice(shortOut: Option<string>): Option<string>
  {
    match shortOut
    case None => None
    case Some(out) =>
      match ShortScan(Lines(out))
      case None => None
      case Some(ms) => if ms == [] then None else Some(ms[0])
  }

  // ---------------------------------------------------------------------
  // `select_audio_output`
  // ---------------------------------------------------------------------

  /** The device used when no other choice is reached. */
  const FallbackMonitor := "alsa_output.pci-0000_00_1f.3.analog-stereo.monitor"

  /** How the output device was reached. */
  datatype OutputPath =
    | ChoseMonitor(index: nat)   // the typed number names a listed monitor
    | ChoseSource(index: nat)    // no monitors: the typed number names a listed source
    | ShortListMonitor           // the first monitor of the short listing
    | FixedFallback              // the built-in default monitor

  datatype OutputChoice = OutputChoice(device: string, path: OutputPath)

  /** The menu offered: the monitors if there are any, else every source. */
  function OutputMenu(sources: seq<PulseSource>): seq<PulseSource>
  {
    var ms := MonitorsOf(sources);
    if ms != [] then ms else sources
  }

  /** The typed number, when it parses as an integer and names an entry of the menu. */
  function Honoured(menu: seq<PulseSource>, selection: string): (r: Option<nat>)
    ensures r.Some? ==> r.value < |menu| && ParseInt(selection) == Some(r.value as int)
    ensures r.None? ==> ParseInt(selection).None? || ParseInt(selection).value < 0 || ParseInt(selection).value >= |menu|
  {
    match ParseInt(selection)
    case None => None
    case Some(n) => if 0 <= n < |menu| then Some(n as nat) else None
  }

  /** The choice made from the parsed sources: the menu entry the typed number names, if any. */
  function MenuChoice(sources: seq<PulseSource>, selection: string): Option<OutputChoice>
  {
    var menu := OutputMenu(sources);
    match Honoured(menu, selection)
    case None => None
    case Some(n) =>
      Some(OutputChoice(menu[n].name, if MonitorsOf(sources) != [] then ChoseMonitor(n) else ChoseSource(n)))
  }

  /** The choice made from the full listing, if one is made there. */
  function ListedChoice(listOut: Option<string>, selection: string): Option<OutputChoice>
  {
    match listOut
    case None => None
    case Some(out) => MenuChoice(PulseSourcesOf(out), selection)
  }

  /**
   * `select_audio_output` with its two listings and the typed number as
   * inputs (`None` where running `pactl` fails): the menu choice if one is
   * honoured, else the short scan's first monitor, else the fixed fallback.
   */
  function AudioOutputOf(listOut: Option<string>, selection: string, shortOut: Option<string>): OutputChoice
  {
    match ListedChoice(listOut, selection)
    case Some(c) => c
    case None =>
      match ShortListChoice(shortOut)
      case Some(d) => OutputChoice(d, ShortListMonitor)
      case None => OutputChoice(FallbackMonitor, FixedFallback)
  }

  /** The first part of `select_audio_output`: the full listing, the filter and the menu. */
  method ChooseFromListing(listOut: Option<string>, selection: string) returns (choice: Option<OutputChoice>)
    ensures choice == ListedChoice(listOut, selection)
  {
    if listOut.None? {
      return None;
    }
    var sources := ParsePulseSources(listOut.value);
    choice := ChooseFromMenu(sources, selection);
  }

  /** The menu offered from the parsed sources and the typed number. */
  method ChooseFromMenu(sources: seq<PulseSource>, selection: string) returns (choice: Option<OutputChoice>)
    ensures choice == MenuChoice(sources, selection)
  {
    var monitors := FilterMonitors(sources);
    var menu := if monitors != [] then monitors else sources;
    choice := None;
    if menu != [] {
      var n := ParseInt(selection);
      if n.Some? && 0 <= n.value < |menu| {
        var path := if monitors != [] then ChoseMonitor(n.value) else ChoseSource(n.value);
        choice := Some(OutputChoice(menu[n.value].name, path));
      }
    }
  }

  /** The second part of `select_audio_output`: the short listing's first monitor, if any. */
  method ChooseFromShortList(shortOut: Option<string>) returns (device: Option<string>)
    ensures device == ShortListChoice(shortOut)
  {
    device := None;
    if shortOut.Some? {
      var found, aborted := ScanShortSources(shortOut.value);
      if !aborted && found != [] {
        device := Some(found[0]);
      }
    }
  }

  /** `select_audio_output`: the menu choice, else the short list, else the fixed fallback. */
  method SelectAudioOutput(listOut: Option<string>, selection: string, shortOut: Option<string>) returns (choice: OutputChoice)
    ensures choice == AudioOutputOf(listOut, selection, shortOut)
  {
    var listed := ChooseFromListing(listOut, selection);
    if listed.Some? {
      return listed.value;
    }
    var short := ChooseFromShortList(shortOut);
    if short.Some? {
      return OutputChoice(short.value, ShortListMonitor);
    }
    choice := OutputChoice(FallbackMonitor, FixedFallback);
  }

  /**
   * The typed number decides exactly when the full listing is available and
   * the number names an entry of its menu; the device is then that entry's
   * name, and it is a monitor whenever any source is one.
   */
  lemma OutputSelectionIff(listOut: Option<string>, selection: string, shortOut: Option<string>)
    ensures var c := AudioOutputOf(listOut, selection, shortOut);
      (c.path.ChoseMonitor? || c.path.ChoseSource?)
      <==> listOut.Some? && Honoured(OutputMenu(PulseSourcesOf(listOut.value)), selection).Some?
    ensures var c := AudioOutputOf(listOut, selection, shortOut);
      (c.path.ChoseMonitor? || c.path.ChoseSource?) ==>
        var sources := PulseSourcesOf(listOut.value);
        var n := Honoured(OutputMenu(sources), selection).value;
        && c.device == OutputMenu(sources)[n].name
        && (c.path.ChoseMonitor? <==> MonitorsOf(sources) != [])
        && (c.path.ChoseMonitor? ==> IsMonitor(OutputMenu(sources)[n]) && OutputMenu(sources)[n] in sources)
  {
  }

  /** Otherwise the short scan's first monitor is used, and the fixed default after that. */
  lemma OutputFallback(listOut: Option<string>, selection: string, shortOut: Option<string>)
    requires listOut.None? || Honoured(OutputMenu(PulseSourcesOf(listOut.value)), selection).None?
    ensures AudioOutputOf(listOut, selection, shortOut).device == ShortListChoice(shortOut).GetOr(FallbackMonitor)
    ensures AudioOutputOf(listOut, selection, shortOut).path == if ShortListChoice(shortOut).Some? then ShortListMonitor else FixedFallback
  {
  }
}
