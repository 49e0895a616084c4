/**
 * The Python `str` operations the tool relies on, over `seq<char>`:
 * `isspace`/`strip`, `sub in s`, `startswith`, `split(sep)`, ASCII `lower`,
 * and the decimal `int(...)` conversion used for menu selections.
 */
module Text {
  import opened Wrappers

  /** Python's `str.isspace` on one character (the Unicode whitespace set). */
  predicate IsSpace(c: char)
  {
    || c == ' ' || '\t' <= c <= '\r' || '\U{1c}' <= c <= '\U{1f}'
    || c == '\U{85}' || c == '\U{a0}' || c == '\U{1680}'
    || '\U{2000}' <= c <= '\U{200a}' || c == '\U{2028}' || c == '\U{2029}'
    || c == '\U{202f}' || c == '\U{205f}' || c == '\U{3000}'
  }

  predicate AllSpace(s: string)
  {
    forall i :: 0 <= i < |s| ==> IsSpace(s[i])
  }

  /** `s.lstrip()` */
  function TrimStart(s: string): (r: string)
    ensures |r| <= |s| && r == s[|s| - |r|..]
    ensures r == [] || !IsSpace(r[0])
    ensures forall i :: 0 <= i < |s| - |r| ==> IsSpace(s[i])
  {
    if s != [] && IsSpace(s[0]) then TrimStart(s[1..]) else s
  }

  /** `s.rstrip()` */
  function TrimEnd(s: string): (r: string)
    ensures |r| <= |s| && r == s[..|r|]
    ensures r == [] || !IsSpace(r[|r| - 1])
    ensures forall i :: |r| <= i < |s| ==> IsSpace(s[i])
  {
    if s != [] && IsSpace(s[|s| - 1]) then TrimEnd(s[..|s| - 1]) else s
  }

  /**
   * `s.strip()`: the slice of `s` left after removing leading and trailing
   * whitespace. Everything removed is whitespace and the result neither
   * starts nor ends with whitespace.
   */
  function Strip(s: string): (r: string)
    ensures r == [] || (!IsSpace(r[0]) && !IsSpace(r[|r| - 1]))
    ensures var lead := |s| - |TrimStart(s)|;
      && lead + |r| <= |s| && r == s[lead..lead + |r|]
      && (forall k :: 0 <= k < lead ==> IsSpace(s[k]))
      && (forall k :: lead + |r| <= k < |s| ==> IsSpace(s[k]))
  {
    TrimEnd(TrimStart(s))
  }

  /** A string strips to nothing exactly when it is all whitespace. */
  lemma StripEmptyIff(s: string)
    ensures Strip(s) == [] <==> AllSpace(s)
  {
    if Strip(s) != [] {
      var lead := |s| - |TrimStart(s)|;
      assert Strip(s)[0] == s[lead];
    }
  }

  /** A string with no whitespace at either end is its own strip. */
  lemma StripUnpadded(s: string)
    requires s == [] || (!IsSpace(s[0]) && !IsSpace(s[|s| - 1]))
    ensures Strip(s) == s
  {
  }

  /** Stripping twice is stripping once. */
  lemma StripIdempotent(s: string)
    ensures Strip(Strip(s)) == Strip(s)
  {
    StripUnpadded(Strip(s));
  }

  /** Surrounding whitespace is exactly what strip removes. */
  lemma StripPadded(pre: string, s: string, post: string)
    requires AllSpace(pre) && AllSpace(post)
    requires s == [] || (!IsSpace(s[0]) && !IsSpace(s[|s| - 1]))
    ensures Strip(pre + s + post) == s
  {
    if s == [] {
      assert pre + s + post == pre + post;
      assert AllSpace(pre + post);
      StripEmptyIff(pre + post);
    } else {
      var u := s + post;
      assert pre + s + post == pre + u;
      assert u[0] == s[0];
      TrimStartPadded(pre, u);
      TrimEndPadded(s, post);
      assert Strip(pre + u) == TrimEnd(u);
    }
  }

  /** Leading whitespace before a non-space character is what `lstrip` removes. */
  lemma TrimStartPadded(pre: string, rest: string)
    requires AllSpace(pre) && rest != [] && !IsSpace(rest[0])
    ensures TrimStart(pre + rest) == rest
  {
    var s := pre + rest;
    var r := TrimStart(s);
    var cut := |s| - |r|;
    assert s[|pre|] == rest[0];
    assert forall k :: 0 <= k < |pre| ==> s[k] == pre[k];
    assert |r| > 0 ==> r[0] == s[cut];
    assert cut == |pre|;
    assert s[|pre|..] == rest;
  }

  /** Trailing whitespace after a non-space character is what `rstrip` removes. */
  lemma TrimEndPadded(rest: string, post: string)
    requires AllSpace(post) && rest != [] && !IsSpace(rest[|rest| - 1])
    ensures TrimEnd(rest + post) == rest
  {
    var s := rest + post;
    var r := TrimEnd(s);
    assert s[|rest| - 1] == rest[|rest| - 1];
    assert forall k :: |rest| <= k < |s| ==> s[k] == post[k - |rest|];
    assert |r| > 0 ==> r[|r| - 1] == s[|r| - 1];
    assert |r| == |rest|;
    assert s[..|rest|] == rest;
  }

  /** A slice splits at any point inside it. */
  lemma SliceSplit(s: string, a: nat, b: nat, c: nat)
    requires a <= b <= c <= |s|
    ensures s[a..c] == s[a..b] + s[b..c]
  {
  }

  /** The middle piece of a concatenation sits at the length of the first. */
  lemma InfixAt(a: string, b: string, c: string)
    ensures (a + b + c)[|a|..|a| + |b|] == b
    ensures forall k :: |a| <= k < |a| + |b| ==> (a + b + c)[k] == b[k - |a|]
  {
  }

  /** `sub` occurs in `s` starting at index `i`. */
  predicate OccursAt(s: string, sub: string, i: int)
  {
    0 <= i && i + |sub| <= |s| && s[i..i + |sub|] == sub
  }

  /** Two adjacent occurrences make one occurrence of the concatenation. */
  lemma OccursJoin(s: string, a: string, b: string, i: nat)
    requires OccursAt(s, a, i) && OccursAt(s, b, i + |a|)
    ensures OccursAt(s, a + b, i)
  {
    SliceSplit(s, i, i + |a|, i + |a| + |b|);
  }

  /** An occurrence of a concatenation is an occurrence of each part, one after the other. */
  lemma OccursParts(s: string, a: string, b: string, i: nat)
    requires OccursAt(s, a + b, i)
    ensures OccursAt(s, a, i) && OccursAt(s, b, i + |a|)
  {
    SliceSplit(s, i, i + |a|, i + |a| + |b|);
    assert s[i..i + |a|] == (a + b)[..|a|];
    assert s[i + |a|..i + |a| + |b|] == (a + b)[|a|..];
  }

  /** The characters of an occurrence, one by one. */
  lemma OccursChars(s: string, sub: string, i: nat)
    requires OccursAt(s, sub, i)
    ensures forall k :: 0 <= k < |sub| ==> s[i + k] == sub[k]
  {
    forall k | 0 <= k < |sub|
      ensures s[i + k] == sub[k]
    {
      assert s[i..i + |sub|][k] == s[i + k];
    }
  }

  lemma OccursShift(s: string, sub: string, j: int)
    requires s != [] && 0 <= j
    ensures OccursAt(s, sub, j + 1) <==> OccursAt(s[1..], sub, j)
  {
    if j + 1 + |sub| <= |s| {
      assert s[j + 1..j + 1 + |sub|] == s[1..][j..j + |sub|];
    }
  }

  /** `s.find(sub)`: the first index at which `sub` occurs, if any. */
  function IndexOf(s: string, sub: string): (r: Option<nat>)
    ensures r.Some? ==> OccursAt(s, sub, r.value)
    ensures r.Some? ==> forall j :: 0 <= j < r.value ==> !OccursAt(s, sub, j)
    ensures r.None? ==> forall j :: !OccursAt(s, sub, j)
    decreases |s|
  {
    if |sub| > |s| then None
    else if s[..|sub|] == sub then Some(0)
    else
      assert !OccursAt(s, sub, 0);
      match IndexOf(s[1..], sub)
      case None =>
        assert forall j :: 1 <= j ==> !OccursAt(s, sub, j) by {
          forall j | 1 <= j ensures !OccursAt(s, sub, j) {
            OccursShift(s, sub, j - 1);
          }
        }
        None
      case Some(k) =>
        assert OccursAt(s, sub, k + 1) by { OccursShift(s, sub, k); }
        assert forall j :: 1 <= j <= k ==> !OccursAt(s, sub, j) by {
          forall j | 1 <= j <= k ensures !OccursAt(s, sub, j) {
            OccursShift(s, sub, j - 1);
          }
        }
        Some(k + 1)
  }

  /** Python's `sub in s`. */
  predicate Contains(s: string, sub: string)
  {
    IndexOf(s, sub).Some?
  }

  /** Python's `s.startswith(p)`. */
  predicate StartsWith(s: string, p: string)
  {
    |p| <= |s| && s[..|p|] == p
  }

  /** A string that contains `sub` at a known place contains it. */
  lemma ContainsAt(s: string, sub: string, i: nat)
    requires OccursAt(s, sub, i)
    ensures Contains(s, sub)
  {
  }

  lemma OccursInPrefix(s: string, sub: string, i: nat, j: int)
    requires i <= |s| && OccursAt(s[..i], sub, j)
    ensures OccursAt(s, sub, j)
  {
    assert s[..i][j..j + |sub|] == s[j..j + |sub|];
  }

  /**
   * Python's `s.split(sep)` for a non-empty separator: the pieces between
   * the leftmost non-overlapping occurrences of `sep`. There is always at
   * least one piece and no piece contains the separator.
   */
  function Split(s: string, sep: string): (parts: seq<string>)
    requires sep != []
    ensures |parts| >= 1
    ensures forall k :: 0 <= k < |parts| ==> !Contains(parts[k], sep)
    decreases |s|
  {
    match IndexOf(s, sep)
    case None => [s]
    case Some(i) =>
      assert !Contains(s[..i], sep) by {
        forall j | OccursAt(s[..i], sep, j) ensures false {
          OccursInPrefix(s, sep, i, j);
        }
      }
      [s[..i]] + Split(s[i + |sep|..], sep)
  }

  /** A string that contains the separator splits into at least two pieces. */
  lemma SplitAtSeparator(s: string, sep: string)
    requires sep != [] && Contains(s, sep)
    ensures |Split(s, sep)| >= 2
  {
  }

  /** Python's `s.split('\n')`. */
  function Lines(s: string): seq<string>
  {
    Split(s, "\n")
  }

  /** Python's `sep.join(parts)`. */
  function Join(parts: seq<string>, sep: string): string
  {
    if parts == [] then ""
    else if |parts| == 1 then parts[0]
    else parts[0] + sep + Join(parts[1..], sep)
  }

  /** Splitting loses nothing: joining the pieces rebuilds the string. */
  lemma {:induction false} JoinSplit(s: string, sep: string)
    requires sep != []
    ensures Join(Split(s, sep), sep) == s
    decreases |s|
  {
    match IndexOf(s, sep)
    case None =>
    case Some(i) =>
      var head, tail := s[..i], s[i + |sep|..];
      SplitStep(s, sep, i);
      JoinSplit(tail, sep);
      JoinCons(head, Split(tail, sep), sep);
  }

  /** Where the first separator is at `i`, the split is the text before it, then the split of the rest. */
  lemma SplitStep(s: string, sep: string, i: nat)
    requires sep != [] && IndexOf(s, sep) == Some(i)
    ensures Split(s, sep) == [s[..i]] + Split(s[i + |sep|..], sep)
    ensures s == s[..i] + sep + s[i + |sep|..]
  {
    OccursAround(s, sep, i);
  }

  /** A string is the text before an occurrence, the occurrence, and the text after it. */
  lemma OccursAround(s: string, sub: string, i: nat)
    requires OccursAt(s, sub, i)
    ensures s == s[..i] + sub + s[i + |sub|..]
  {
    var j := i + |sub|;
    assert s[..j] == s[..i] + s[i..j];
    assert s == s[..j] + s[j..];
  }

  lemma JoinCons(head: string, rest: seq<string>, sep: string)
    requires rest != []
    ensures Join([head] + rest, sep) == head + sep + Join(rest, sep)
  {
    assert ([head] + rest)[1..] == rest;
  }

  /** Python's `s.split(sep)[k]`, or `None` where Python raises `IndexError`. */
  function Field(s: string, sep: string, k: nat): Option<string>
    requires sep != []
  {
    var parts := Split(s, sep);
    if k < |parts| then Some(parts[k]) else None
  }

  /** `s.split(sep)[1]` exists exactly when `sep` occurs in `s`, and is then the second piece. */
  lemma SecondFieldIff(s: string, sep: string)
    requires sep != []
    ensures Field(s, sep, 1).Some? <==> Contains(s, sep)
    ensures Contains(s, sep) ==> Field(s, sep, 1) == Some(SecondField(s, sep))
  {
    if Contains(s, sep) {
      SecondIsFirstOfTail(s, sep);
    } else {
      assert Split(s, sep) == [s];
    }
  }

  /**
   * Python's `s.split(sep)[1]` where `sep` occurs in `s`: the text after the
   * first occurrence, up to the next occurrence or the end.
   */
  function SecondField(s: string, sep: string): (r: string)
    requires sep != [] && Contains(s, sep)
    ensures var start := IndexOf(s, sep).value + |sep|;
      && start + |r| <= |s| && r == s[start..start + |r|] && !Contains(r, sep)
      && (start + |r| == |s| || OccursAt(s, sep, start + |r|))
  {
    var i := IndexOf(s, sep).value;
    var start := i + |sep|;
    assert start <= |s|;
    FirstPieceFrom(s, sep, start);
    Split(s[start..], sep)[0]
  }

  /** The first piece of the split of a suffix, located in the whole string. */
  lemma FirstPieceFrom(s: string, sep: string, start: nat)
    requires sep != [] && start <= |s|
    ensures var r := Split(s[start..], sep)[0];
      && start + |r| <= |s| && r == s[start..start + |r|] && !Contains(r, sep)
      && (start + |r| == |s| || OccursAt(s, sep, start + |r|))
  {
    var tail := s[start..];
    SplitFirst(tail, sep);
    PieceOfSuffix(s, sep, start, Split(tail, sep)[0]);
  }

  /** A piece that opens a suffix, followed by the separator or the end, sits at the suffix's start. */
  lemma PieceOfSuffix(s: string, sep: string, start: nat, r: string)
    requires start <= |s| && |r| <= |s| - start && r == s[start..][..|r|]
    requires |r| == |s| - start || OccursAt(s[start..], sep, |r|)
    ensures r == s[start..start + |r|]
    ensures start + |r| == |s| || OccursAt(s, sep, start + |r|)
  {
    assert s[start..][..|r|] == s[start..start + |r|];
    if |r| < |s| - start {
      assert s[start..][|r|..|r| + |sep|] == s[start + |r|..start + |r| + |sep|];
    }
  }

  lemma SecondIsFirstOfTail(s: string, sep: string)
    requires sep != [] && Contains(s, sep)
    ensures |Split(s, sep)| >= 2
    ensures Split(s, sep)[1] == Split(s[IndexOf(s, sep).value + |sep|..], sep)[0]
  {
    var i := IndexOf(s, sep).value;
    SplitStep(s, sep, i);
    var rest := Split(s[i + |sep|..], sep);
    assert Split(s, sep)[1] == rest[0];
  }

  /** The first piece of a split runs up to the first separator, or is the whole string. */
  lemma SplitFirst(t: string, sep: string)
    requires sep != []
    ensures var r := Split(t, sep)[0];
      && |r| <= |t| && r == t[..|r|]
      && (|r| == |t| || OccursAt(t, sep, |r|))
  {
  }

  function LowerChar(c: char): char
  {
    if 'A' <= c <= 'Z' then (c as int - 'A' as int + 'a' as int) as char else c
  }

  /** Python's `s.lower()` on ASCII letters. */
  function Lower(s: string): string
  {
    seq(|s|, i requires 0 <= i < |s| => LowerChar(s[i]))
  }

  predicate IsDigit(c: char)
  {
    '0' <= c <= '9'
  }

  /** Python's `\w` on ASCII: letters, digits and underscore. */
  predicate IsWordChar(c: char)
  {
    IsDigit(c) || 'a' <= c <= 'z' || 'A' <= c <= 'Z' || c == '_'
  }

  predicate AllDigits(s: string)
  {
    forall i :: 0 <= i < |s| ==> IsDigit(s[i])
  }

  function DigitValue(c: char): nat
    requires IsDigit(c)
  {
    c as int - '0' as int
  }

  function DigitChar(d: nat): (c: char)
    requires d < 10
    ensures IsDigit(c) && DigitValue(c) == d
  {
    ('0' as int + d) as char
  }

  /**
   * Python's `str(n)` for a natural number: decimal digits, with a leading
   * zero only for zero itself.
   */
  function NatToString(n: nat): (s: string)
    ensures |s| > 0 && AllDigits(s)
    ensures s[0] == '0' <==> n == 0
  {
    if n < 10 then [DigitChar(n)] else NatToString(n / 10) + [DigitChar(n % 10)]
  }

  /** Python's `str(n)` for any integer. */
  function IntToString(n: int): string
  {
    if n < 0 then "-" + NatToString(-n) else NatToString(n)
  }

  predicate NumeralChars(s: string)
  {
    forall i :: 0 <= i < |s| ==> IsDigit(s[i]) || s[i] == '_'
  }

  /**
   * The unsigned decimal literals Python's `int()` accepts: digits, with
   * single underscores allowed between two digits.
   */
  predicate IsNumeral(s: string)
  {
    && |s| > 0 && IsDigit(s[0]) && IsDigit(s[|s| - 1])
    && NumeralChars(s)
    && (forall i :: 0 <= i < |s| - 1 ==> !(s[i] == '_' && s[i + 1] == '_'))
  }

  /** The value of a numeral; underscores are ignored. */
  function NumeralValue(s: string): nat
    requires NumeralChars(s)
  {
    if s == [] then 0
    else if s[|s| - 1] == '_' then NumeralValue(s[..|s| - 1])
    else NumeralValue(s[..|s| - 1]) * 10 + DigitValue(s[|s| - 1])
  }

  /** The sign and numeral part of `int()`, on text already stripped. `None` stands for `ValueError`. */
  function ParseStripped(t: string): Option<int>
  {
    if t != [] && (t[0] == '+' || t[0] == '-') then
      if IsNumeral(t[1..]) then
        var v: int := NumeralValue(t[1..]);
        Some(if t[0] == '-' then -v else v)
      else None
    else if IsNumeral(t) then Some(NumeralValue(t))
    else None
  }

  /**
   * The whitespace `int()` skips around its digits: every `isspace`
   * character except the four ASCII separators U+001C to U+001F, which
   * `strip()` removes but `int()` rejects.
   */
  predicate IsIntSpace(c: char)
  {
    IsSpace(c) && !('\U{1c}' <= c <= '\U{1f}')
  }

  predicate AllIntSpace(s: string)
  {
    forall i :: 0 <= i < |s| ==> IsIntSpace(s[i])
  }

  /** The leading characters `int()` skips, removed. */
  function IntTrimStart(s: string): (r: string)
    ensures |r| <= |s| && r == s[|s| - |r|..]
    ensures r == [] || !IsIntSpace(r[0])
    ensures forall i :: 0 <= i < |s| - |r| ==> IsIntSpace(s[i])
  {
    if s != [] && IsIntSpace(s[0]) then IntTrimStart(s[1..]) else s
  }

  /** The trailing characters `int()` skips, removed. */
  function IntTrimEnd(s: string): (r: string)
    ensures |r| <= |s| && r == s[..|r|]
    ensures r == [] || !IsIntSpace(r[|r| - 1])
    ensures forall i :: |r| <= i < |s| ==> IsIntSpace(s[i])
  {
    if s != [] && IsIntSpace(s[|s| - 1]) then IntTrimEnd(s[..|s| - 1]) else s
  }

  /** The text `int()` reads: `s` without the whitespace it skips at either end. */
  function IntStrip(s: string): (r: string)
    ensures r == [] || (!IsIntSpace(r[0]) && !IsIntSpace(r[|r| - 1]))
    ensures var lead := |s| - |IntTrimStart(s)|;
      && lead + |r| <= |s| && r == s[lead..lead + |r|]
      && (forall k :: 0 <= k < lead ==> IsIntSpace(s[k]))
      && (forall k :: lead + |r| <= k < |s| ==> IsIntSpace(s[k]))
  {
    IntTrimEnd(IntTrimStart(s))
  }

  /** A string with nothing to skip at either end is read whole. */
  lemma IntStripUnpadded(s: string)
    requires s == [] || (!IsIntSpace(s[0]) && !IsIntSpace(s[|s| - 1]))
    ensures IntStrip(s) == s
  {
  }

  /** Skipped whitespace around an unpadded text is exactly what `int()` skips. */
  lemma IntStripPadded(pre: string, s: string, post: string)
    requires AllIntSpace(pre) && AllIntSpace(post)
    requires s == [] || (!IsIntSpace(s[0]) && !IsIntSpace(s[|s| - 1]))
    ensures IntStrip(pre + s + post) == s
  {
    if s == [] {
      assert pre + s + post == pre + post;
      AllIntSpaceJoin(pre, post);
      IntStripEmptyIff(pre + post);
    } else {
      var u := s + post;
      assert pre + s + post == pre + u;
      assert u[0] == s[0];
      IntTrimStartPadded(pre, u);
      IntTrimEndPadded(s, post);
      assert IntStrip(pre + u) == IntTrimEnd(u);
    }
  }

  /** Only skipped whitespace makes nothing for `int()` to read. */
  lemma IntStripEmptyIff(s: string)
    ensures IntStrip(s) == [] <==> AllIntSpace(s)
  {
    if IntStrip(s) != [] {
      var lead := |s| - |IntTrimStart(s)|;
      assert IntStrip(s)[0] == s[lead];
    }
  }

  lemma AllIntSpaceJoin(a: string, b: string)
    requires AllIntSpace(a) && AllIntSpace(b)
    ensures AllIntSpace(a + b)
  {
    assert forall k :: 0 <= k < |a + b| ==> (a + b)[k] == if k < |a| then a[k] else b[k - |a|];
  }

  lemma IntTrimStartPadded(pre: string, rest: string)
    requires AllIntSpace(pre) && rest != [] && !IsIntSpace(rest[0])
    ensures IntTrimStart(pre + rest) == rest
  {
    var s := pre + rest;
    var r := IntTrimStart(s);
    var cut := |s| - |r|;
    assert s[|pre|] == rest[0];
    assert forall k :: 0 <= k < |pre| ==> s[k] == pre[k];
    assert |r| > 0 ==> r[0] == s[cut];
    assert cut == |pre|;
    assert s[|pre|..] == rest;
  }

  lemma IntTrimEndPadded(rest: string, post: string)
    requires AllIntSpace(post) && rest != [] && !IsIntSpace(rest[|rest| - 1])
    ensures IntTrimEnd(rest + post) == rest
  {
    var s := rest + post;
    var r := IntTrimEnd(s);
    assert s[|rest| - 1] == rest[|rest| - 1];
    assert forall k :: |rest| <= k < |s| ==> s[k] == post[k - |rest|];
    assert |r| > 0 ==> r[|r| - 1] == s[|r| - 1];
    assert |r| == |rest|;
    assert s[..|rest|] == rest;
  }

  /**
   * Python's `int(s)` for base 10: the whitespace it skips is removed from
   * both ends, an optional sign is read, then a numeral.
   */
  function ParseInt(s: string): Option<int>
  {
    ParseStripped(IntStrip(s))
  }

  /** The decimal form of a natural number reads back as that number. */
  lemma {:induction false} NatToStringValue(n: nat)
    ensures NumeralChars(NatToString(n)) && NumeralValue(NatToString(n)) == n
  {
    var s := NatToString(n);
    if n >= 10 {
      NatToStringValue(n / 10);
      var prefix := NatToString(n / 10);
      assert s[..|s| - 1] == prefix;
    }
  }

  /** The decimal form of an integer has no whitespace at either end. */
  lemma IntToStringUnpadded(n: int)
    ensures var s := IntToString(n); s != [] && !IsSpace(s[0]) && !IsSpace(s[|s| - 1])
  {
    var s := IntToString(n);
    if n < 0 {
      var digits := NatToString(-n);
      assert s[|s| - 1] == digits[|digits| - 1];
    }
  }

  /** `int(str(n)) == n` */
  lemma ParseIntToString(n: int)
    ensures ParseInt(IntToString(n)) == Some(n)
  {
    var s := IntToString(n);
    IntToStringUnpadded(n);
    IntStripUnpadded(s);
    if n < 0 {
      ParseStrippedNegative(-n);
    } else {
      ParseStrippedNat(n);
    }
  }

  /** The decimal form of a natural number reads back as that number. */
  lemma ParseNatToString(n: nat)
    ensures ParseInt(NatToString(n)) == Some(n)
  {
    ParseIntToString(n);
    assert IntToString(n) == NatToString(n);
  }

  /** A line that opens with the decimal form of `n` gives back `n` from that prefix. */
  lemma ParseNatPrefix(n: nat, sep: string, rest: string)
    ensures var num := NatToString(n);
      ParseInt((num + sep + rest)[..|num|]) == Some(n)
  {
    var num := NatToString(n);
    assert (num + sep + rest)[..|num|] == num;
    ParseNatToString(n);
  }

  /** The decimal form of a natural number is a numeral with that value. */
  lemma NatToStringNumeral(m: nat)
    ensures IsNumeral(NatToString(m)) && NumeralValue(NatToString(m)) == m
  {
    NatToStringValue(m);
  }

  lemma ParseStrippedNat(m: nat)
    ensures ParseStripped(NatToString(m)) == Some(m)
  {
    NatToStringNumeral(m);
  }

  lemma ParseStrippedNegative(m: nat)
    ensures ParseStripped("-" + NatToString(m)) == Some(-(m as int))
  {
    var digits := NatToString(m);
    NatToStringNumeral(m);
    assert ("-" + digits)[1..] == digits;
  }

  /** `int(x)` only sees `x` after the whitespace it skips is removed. */
  lemma ParseIntPadded(pre: string, s: string, post: string)
    requires AllIntSpace(pre) && AllIntSpace(post)
    requires s == [] || (!IsIntSpace(s[0]) && !IsIntSpace(s[|s| - 1]))
    ensures ParseInt(pre + s + post) == ParseInt(s)
  {
    IntStripPadded(pre, s, post);
    IntStripUnpadded(s);
  }

  /** `int(str(n)) == n`, also with skipped whitespace around the digits. */
  lemma ParseIntRoundTrip(n: int, pre: string, post: string)
    requires AllIntSpace(pre) && AllIntSpace(post)
    ensures ParseInt(pre + IntToString(n) + post) == Some(n)
  {
    IntToStringUnpadded(n);
    ParseIntPadded(pre, IntToString(n), post);
    ParseIntToString(n);
  }

  /** Input made only of `isspace` characters is not a number. */
  lemma ParseIntRejectsBlank(s: string)
    requires AllSpace(s)
    ensures ParseInt(s).None?
  {
    var t := IntStrip(s);
    if t != [] {
      var lead := |s| - |IntTrimStart(s)|;
      assert t[0] == s[lead];
      assert IsSpace(t[0]);
    }
  }

  /** A leading ASCII separator (U+001C to U+001F) makes `int()` fail, though `strip()` would remove it. */
  lemma ParseIntRejectsSeparator(c: char, s: string)
    requires '\U{1c}' <= c <= '\U{1f}'
    ensures IsSpace(c) && ParseInt([c] + s).None?
  {
    var x := [c] + s;
    assert x[0] == c && !IsIntSpace(x[0]);
    assert IntTrimStart(x) == x;
    var t := IntTrimEnd(x);
    assert |t| > 0;
    assert t[0] == c;
    ParseStrippedRejects(t);
  }

  /** Text that opens with neither a sign nor a digit is not a number. */
  lemma ParseStrippedRejects(t: string)
    requires t != [] && t[0] != '+' && t[0] != '-' && !IsDigit(t[0])
    ensures ParseStripped(t).None?
  {
  }
}
