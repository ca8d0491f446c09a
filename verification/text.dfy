/**
 * Models of the Rust standard-library string operations that the /proc and
 * /sys parsers are built from: splitting on a separator, line splitting,
 * whitespace tokenising, trimming, prefix stripping, substring replacement
 * and decimal integer parsing. Strings are sequences of Unicode scalar values.
 */
module Text {

  datatype Option<T> = None | Some(value: T)

  /** `char::is_whitespace`: the Unicode White_Space property. */
  predicate IsWhitespace(c: char) {
    || ('\t' <= c <= '\r')
    || c == ' ' || c == '\U{85}' || c == '\U{A0}' || c == '\U{1680}'
    || ('\U{2000}' <= c <= '\U{200A}')
    || c == '\U{2028}' || c == '\U{2029}' || c == '\U{202F}' || c == '\U{205F}' || c == '\U{3000}'
  }

  /** `u8::is_ascii_whitespace`: space, tab, line feed, form feed, carriage return. */
  predicate IsAsciiWhitespace(c: char) {
    c == ' ' || c == '\t' || c == '\n' || c == '\U{C}' || c == '\r'
  }

  predicate IsDigit(c: char) {
    '0' <= c <= '9'
  }

  predicate IsP(c: char) {
    c == 'p'
  }

  /** `str::trim_start`. */
  function TrimStart(s: string): (r: string)
    decreases |s|
  {
    if s != [] && IsWhitespace(s[0]) then TrimStart(s[1..]) else s
  }

  /** What `TrimStart` removes is whitespace, and what it keeps does not start with whitespace. */
  lemma {:induction false} TrimStartRemovesWhitespace(s: string)
    ensures var r := TrimStart(s);
      && |r| <= |s| && r == s[|s| - |r|..]
      && (r == [] || !IsWhitespace(r[0]))
      && forall i :: 0 <= i < |s| - |r| ==> IsWhitespace(s[i])
    decreases |s|
  {
    if s != [] && IsWhitespace(s[0]) {
      TrimStartRemovesWhitespace(s[1..]);
    }
  }

  /** `str::trim_end_matches` with a character predicate: drops the longest suffix of `drop` characters. */
  function TrimEndWhere(s: string, drop: char -> bool): (r: string)
    ensures r <= s
    decreases |s|
  {
    if s != [] && drop(s[|s| - 1]) then TrimEndWhere(s[..|s| - 1], drop) else s
  }

  /** What `TrimEndWhere` removes satisfies `drop`, and what it keeps does not end with such a character. */
  lemma {:induction false} TrimEndWhereRemoves(s: string, drop: char -> bool)
    ensures var r := TrimEndWhere(s, drop);
      && r <= s
      && (r == [] || !drop(r[|r| - 1]))
      && forall i :: |r| <= i < |s| ==> drop(s[i])
    decreases |s|
  {
    if s != [] && drop(s[|s| - 1]) {
      TrimEndWhereRemoves(s[..|s| - 1], drop);
    }
  }

  /** A tail made only of `drop` characters is removed, and nothing before it when `s` does not end in one. */
  lemma {:induction false} TrimEndWhereSuffix(s: string, t: string, drop: char -> bool)
    requires s == [] || !drop(s[|s| - 1])
    requires forall i :: 0 <= i < |t| ==> drop(t[i])
    ensures TrimEndWhere(s + t, drop) == s
    decreases |t|
  {
    if t == [] {
      assert s + t == s;
    } else {
      var u := s + t;
      assert u[..|u| - 1] == s + t[..|t| - 1];
      assert u[|u| - 1] == t[|t| - 1];
      TrimEndWhereSuffix(s, t[..|t| - 1], drop);
    }
  }

  /** `str::trim`: whitespace removed at both ends. */
  function Trim(s: string): string {
    TrimEndWhere(TrimStart(s), IsWhitespace)
  }

  /** `str::trim_start_matches` with a non-empty string pattern: removes every leading repetition. */
  function TrimStartMatches(s: string, pat: string): (r: string)
    requires pat != []
    ensures |r| <= |s| && r == s[|s| - |r|..]
    ensures !(pat <= r)
    decreases |s|
  {
    if pat <= s then TrimStartMatches(s[|pat|..], pat) else s
  }

  /** One leading occurrence of the pattern is removed, and only one when none follows it. */
  lemma TrimStartMatchesOnce(pat: string, s: string)
    requires pat != [] && !(pat <= s)
    ensures TrimStartMatches(pat + s, pat) == s
  {
    assert pat <= pat + s;
    assert (pat + s)[|pat|..] == s;
  }

  /** `str::contains` with a string pattern. */
  predicate Contains(s: string, sub: string)
    decreases |s|
  {
    sub <= s || (s != [] && Contains(s[1..], sub))
  }

  /**
   * `str::split` with a non-empty pattern: the pieces between the
   * non-overlapping occurrences of `sep`, found left to right. There is
   * always at least one piece.
   */
  function Split(s: string, sep: string): (r: seq<string>)
    requires sep != []
    ensures |r| >= 1
    decreases |s|
  {
    if s == [] then [""]
    else if sep <= s then [""] + Split(s[|sep|..], sep)
    else
      var rest := Split(s[1..], sep);
      [[s[0]] + rest[0]] + rest[1..]
  }

  /** The pieces put back together with `sep` between them. */
  function Join(parts: seq<string>, sep: string): string
    decreases |parts|
  {
    if parts == [] then ""
    else if |parts| == 1 then parts[0]
    else parts[0] + sep + Join(parts[1..], sep)
  }

  /** Splitting loses nothing: joining the pieces gives back the input. */
  lemma {:induction false} JoinSplit(s: string, sep: string)
    requires sep != []
    ensures Join(Split(s, sep), sep) == s
    decreases |s|
  {
    if s == [] {
    } else if sep <= s {
      var tail := s[|sep|..];
      JoinSplit(tail, sep);
      assert s[..|sep|] == sep;
      assert s == sep + tail;
      JoinAfterSeparator(s, sep, tail, Split(tail, sep), Split(s, sep));
    } else {
      JoinSplit(s[1..], sep);
      JoinAfterChar(s, sep, Split(s[1..], sep), Split(s, sep));
    }
  }

  /** Pieces that start with an empty one join to the separator followed by the rest. */
  lemma JoinAfterSeparator(s: string, sep: string, tail: string, parts: seq<string>, whole: seq<string>)
    requires parts != [] && whole == [""] + parts
    requires Join(parts, sep) == tail && s == sep + tail
    ensures Join(whole, sep) == s
  {
    JoinCons("", parts, sep);
    assert "" + sep == sep;
  }

  /** Pieces whose first one gains a leading character join to that character followed by the rest. */
  lemma JoinAfterChar(s: string, sep: string, parts: seq<string>, whole: seq<string>)
    requires s != [] && parts != [] && whole == [[s[0]] + parts[0]] + parts[1..]
    requires Join(parts, sep) == s[1..]
    ensures Join(whole, sep) == s
  {
    JoinExtendHead(s[0], parts, sep);
    assert [s[0]] + s[1..] == s;
  }

  lemma JoinCons(a: string, rest: seq<string>, sep: string)
    requires rest != []
    ensures Join([a] + rest, sep) == a + sep + Join(rest, sep)
  {
    assert ([a] + rest)[1..] == rest;
  }

  /** Prepending a character to the first piece prepends it to the joined string. */
  lemma JoinExtendHead(c: char, parts: seq<string>, sep: string)
    requires parts != []
    ensures Join([[c] + parts[0]] + parts[1..], sep) == [c] + Join(parts, sep)
  {
    var r := [[c] + parts[0]] + parts[1..];
    if |parts| > 1 {
      assert r[1..] == parts[1..];
    }
  }

  /** A separator that does not occur leaves the input in one piece. */
  lemma {:induction false} SplitWithoutSeparator(s: string, sep: string)
    requires sep != [] && !Contains(s, sep)
    ensures Split(s, sep) == [s]
    decreases |s|
  {
    if s != [] {
      SplitWithoutSeparator(s[1..], sep);
      assert [s[0]] + s[1..] == s;
    }
  }

  /** Drops one trailing carriage return, as `str::lines` does before a line feed. */
  function StripCr(line: string): string {
    if line != [] && line[|line| - 1] == '\r' then line[..|line| - 1] else line
  }

  /**
   * `str::lines`: the input split at line feeds, a carriage return before a
   * line feed dropped, and no empty final line for a trailing line feed.
   */
  function Lines(s: string): (r: seq<string>)
  {
    var pieces := Split(s, "\n");
    var n := |pieces| - 1;
    seq(n, i requires 0 <= i < n => StripCr(pieces[i]))
    + (if pieces[n] == "" then [] else [pieces[n]])
  }

  predicate IsSpace(c: char, ascii: bool) {
    if ascii then IsAsciiWhitespace(c) else IsWhitespace(c)
  }

  /** The longest prefix of `s` that holds no space character. */
  function WordAt(s: string, ascii: bool): (w: string)
    ensures w <= s
    ensures s != [] && !IsSpace(s[0], ascii) ==> w != []
    decreases |s|
  {
    if s == [] || IsSpace(s[0], ascii) then [] else [s[0]] + WordAt(s[1..], ascii)
  }

  /**
   * `str::split_ascii_whitespace` (`ascii`) and `str::split_whitespace`
   * (otherwise): the maximal runs of non-space characters, in order.
   */
  function Words(s: string, ascii: bool): (r: seq<string>)
    decreases |s|
  {
    if s == [] then []
    else if IsSpace(s[0], ascii) then Words(s[1..], ascii)
    else
      var w := WordAt(s, ascii);
      [w] + Words(s[|w|..], ascii)
  }

  /** A word holds no space character. */
  lemma {:induction false} WordAtHasNoSpace(s: string, ascii: bool)
    ensures var w := WordAt(s, ascii);
      && (|w| < |s| ==> IsSpace(s[|w|], ascii))
      && forall i :: 0 <= i < |w| ==> !IsSpace(w[i], ascii)
    decreases |s|
  {
    if s != [] && !IsSpace(s[0], ascii) {
      WordAtHasNoSpace(s[1..], ascii);
    }
  }

  /** Each string is non-empty and holds no space character. */
  predicate AreWords(ws: seq<string>, ascii: bool) {
    forall k :: 0 <= k < |ws| ==> ws[k] != [] && forall i :: 0 <= i < |ws[k]| ==> !IsSpace(ws[k][i], ascii)
  }

  /** Every word is non-empty and holds no space character. */
  lemma {:induction false} WordsAreWords(s: string, ascii: bool)
    ensures AreWords(Words(s, ascii), ascii)
    decreases |s|
  {
    if s != [] {
      if IsSpace(s[0], ascii) {
        assert Words(s, ascii) == Words(s[1..], ascii);
        WordsAreWords(s[1..], ascii);
      } else {
        var w := WordAt(s, ascii);
        WordAtHasNoSpace(s, ascii);
        WordsAreWords(s[|w|..], ascii);
      }
    }
  }

  /** A string with no space character is one word, or none when it is empty. */
  lemma {:induction false} WordsOfWord(w: string, ascii: bool)
    requires forall i :: 0 <= i < |w| ==> !IsSpace(w[i], ascii)
    ensures Words(w, ascii) == if w == [] then [] else [w]
  {
    if w != [] {
      WordAtWhole(w, ascii);
      assert w[|w|..] == [];
    }
  }

  lemma {:induction false} WordAtWhole(w: string, ascii: bool)
    requires forall i :: 0 <= i < |w| ==> !IsSpace(w[i], ascii)
    ensures WordAt(w, ascii) == w
    decreases |w|
  {
    if w != [] {
      WordAtWhole(w[1..], ascii);
      assert [w[0]] + w[1..] == w;
    }
  }

  /** A word followed by a space, or by nothing, is read whole. */
  lemma {:induction false} WordAtBeforeSpace(w: string, rest: string, ascii: bool)
    requires forall i :: 0 <= i < |w| ==> !IsSpace(w[i], ascii)
    requires rest == [] || IsSpace(rest[0], ascii)
    ensures WordAt(w + rest, ascii) == w
    decreases |w|
  {
    if w == [] {
      assert w + rest == rest;
    } else {
      assert (w + rest)[1..] == w[1..] + rest;
      WordAtBeforeSpace(w[1..], rest, ascii);
      assert [w[0]] + w[1..] == w;
    }
  }

  /** A word at the front of the text, ended by a space or by the end, is its first word. */
  lemma WordsCons(w: string, rest: string, ascii: bool)
    requires w != [] && forall i :: 0 <= i < |w| ==> !IsSpace(w[i], ascii)
    requires rest == [] || IsSpace(rest[0], ascii)
    ensures Words(w + rest, ascii) == [w] + Words(rest, ascii)
  {
    WordAtBeforeSpace(w, rest, ascii);
    assert (w + rest)[0] == w[0];
    assert (w + rest)[|w|..] == rest;
  }

  /** Text made only of spaces has no words. */
  lemma {:induction false} WordsOfSpaces(t: string, ascii: bool)
    requires forall i :: 0 <= i < |t| ==> IsSpace(t[i], ascii)
    ensures Words(t, ascii) == []
    decreases |t|
  {
    if t != [] {
      WordsOfSpaces(t[1..], ascii);
    }
  }

  /** Spaces at the end add no word. */
  lemma {:induction false} WordsSpaceTail(s: string, t: string, ascii: bool)
    requires forall i :: 0 <= i < |t| ==> IsSpace(t[i], ascii)
    ensures Words(s + t, ascii) == Words(s, ascii)
    decreases |s|
  {
    if s == [] {
      assert s + t == t;
      WordsOfSpaces(t, ascii);
    } else if IsSpace(s[0], ascii) {
      assert (s + t)[1..] == s[1..] + t;
      WordsSpaceTail(s[1..], t, ascii);
    } else {
      var w := WordAt(s, ascii);
      WordAtHasNoSpace(s, ascii);
      assert s == w + s[|w|..];
      WordAtBeforeSpace(w, s[|w|..] + t, ascii);
      assert s + t == w + (s[|w|..] + t);
      assert (s + t)[|w|..] == s[|w|..] + t;
      WordsSpaceTail(s[|w|..], t, ascii);
    }
  }

  /** Whitespace before the first word adds no word. */
  lemma {:induction false} WordsTrimStart(s: string)
    ensures Words(TrimStart(s), false) == Words(s, false)
    decreases |s|
  {
    if s != [] && IsWhitespace(s[0]) {
      WordsTrimStart(s[1..]);
    }
  }

  /** Cutting whitespace off the end adds no word and removes none. */
  lemma WordsOfPrefix(u: string, r: string)
    requires r <= u
    requires forall i :: |r| <= i < |u| ==> IsWhitespace(u[i])
    ensures Words(r, false) == Words(u, false)
  {
    var t := u[|r|..];
    assert u == r + t;
    forall i | 0 <= i < |t|
      ensures IsSpace(t[i], false)
    {
      assert t[i] == u[|r| + i];
    }
    WordsSpaceTail(r, t, false);
  }

  /** `str::trim` does not change the words of a text. */
  lemma WordsOfTrim(s: string)
    ensures Words(Trim(s), false) == Words(s, false)
  {
    var u := TrimStart(s);
    WordsTrimStart(s);
    TrimEndWhereRemoves(u, IsWhitespace);
    WordsOfPrefix(u, Trim(s));
  }

  /**
   * `str::replace`: every non-overlapping occurrence of `pat`, found left to
   * right, replaced by `rep`.
   */
  function Replace(s: string, pat: string, rep: string): string
    requires pat != []
    decreases |s|
  {
    if s == [] then []
    else if pat <= s then rep + Replace(s[|pat|..], pat, rep)
    else [s[0]] + Replace(s[1..], pat, rep)
  }

  /** Replacing a pattern that does not occur changes nothing. */
  lemma {:induction false} ReplaceAbsent(s: string, pat: string, rep: string)
    requires pat != [] && !Contains(s, pat)
    ensures Replace(s, pat, rep) == s
    decreases |s|
  {
    if s != [] {
      ReplaceAbsent(s[1..], pat, rep);
      assert [s[0]] + s[1..] == s;
    }
  }

  function DigitValue(c: char): nat
    requires IsDigit(c)
  {
    (c as int) - ('0' as int)
  }

  /** The value of a string of decimal digits, most significant first; None if another character occurs. */
  function DigitsValue(s: string): Option<nat>
    decreases |s|
  {
    if s == [] then Some(0)
    else if !IsDigit(s[|s| - 1]) then None
    else
      var high := DigitsValue(s[..|s| - 1]);
      if high.None? then None else Some(10 * high.value + DigitValue(s[|s| - 1]))
  }

  const I32Min: int := -0x8000_0000
  const I32Max: int := 0x7FFF_FFFF
  const I64Min: int := -0x8000_0000_0000_0000
  const I64Max: int := 0x7FFF_FFFF_FFFF_FFFF
  const U64Max: int := 0xFFFF_FFFF_FFFF_FFFF

  /**
   * `FromStr` for the integer types (`str::parse::<i32|i64|u64>`): an
   * optional sign ('+' always, '-' only for a signed type), then one or more
   * ASCII digits and nothing else, and the value must lie in [lo, hi].
   */
  function ParseInteger(s: string, signed: bool, lo: int, hi: int): (r: Option<int>)
    ensures r.Some? ==> lo <= r.value <= hi
  {
    if s == [] || s == "+" || s == "-" then None
    else
      var negative := signed && s[0] == '-';
      var digits := if s[0] == '+' || negative then s[1..] else s;
      var magnitude := DigitsValue(digits);
      if magnitude.None? then None
      else
        var v := if negative then -(magnitude.value as int) else magnitude.value;
        if lo <= v <= hi then Some(v) else None
  }

  function ParseI32(s: string): Option<int> { ParseInteger(s, true, I32Min, I32Max) }
  function ParseI64(s: string): Option<int> { ParseInteger(s, true, I64Min, I64Max) }
  function ParseU64(s: string): Option<int> { ParseInteger(s, false, 0, U64Max) }

  /** Every character is a decimal digit. */
  predicate AllDigits(s: string) {
    forall i :: 0 <= i < |s| ==> IsDigit(s[i])
  }

  /** The position of the first character `at` accepts, or |s| when there is none. */
  function FirstWhere(s: string, at: char -> bool): (k: nat)
    ensures k <= |s| && forall i :: 0 <= i < k ==> !at(s[i])
    ensures k < |s| ==> at(s[k])
    decreases |s|
  {
    if s == [] then 0 else if at(s[0]) then 0 else 1 + FirstWhere(s[1..], at)
  }

  /** `s` with one leading '+' or '-' removed. */
  function DropSign(s: string): string {
    if s != [] && (s[0] == '+' || s[0] == '-') then s[1..] else s
  }

  /** ASCII case folding of one character. */
  function AsciiLower(c: char): char {
    if 'A' <= c <= 'Z' then (c as int + 32) as char else c
  }

  /** `s` equals the lower-case word `w` up to ASCII case. */
  predicate EqualsIgnoringCase(s: string, w: string) {
    |s| == |w| && forall i :: 0 <= i < |s| ==> AsciiLower(s[i]) == w[i]
  }

  /** Digits with at most one '.', and at least one digit. */
  predicate IsMantissa(s: string) {
    var dot := FirstWhere(s, c => c == '.');
    if dot == |s| then s != [] && AllDigits(s)
    else |s| >= 2 && AllDigits(s[..dot]) && AllDigits(s[dot + 1..])
  }

  /** The text accepted by `str::parse::<f32>`: an optional sign, then inf, infinity or nan in any case, or a decimal number with an optional exponent. */
  predicate IsFloat(s: string) {
    var u := DropSign(s);
    var e := FirstWhere(u, c => c == 'e' || c == 'E');
    || EqualsIgnoringCase(u, "inf") || EqualsIgnoringCase(u, "infinity") || EqualsIgnoringCase(u, "nan")
    || (IsMantissa(u[..e]) && (e == |u| || (DropSign(u[e + 1..]) != [] && AllDigits(DropSign(u[e + 1..])))))
  }

  function DigitChar(d: nat): (c: char)
    requires d < 10
    ensures IsDigit(c) && DigitValue(c) == d
  {
    (('0' as int) + d) as char
  }

  /** The decimal text of a natural number, as `u64::to_string` writes it. */
  function Decimal(n: nat): string
    decreases n
  {
    if n < 10 then [DigitChar(n)] else Decimal(n / 10) + [DigitChar(n % 10)]
  }

  lemma {:induction false} DecimalDigits(n: nat)
    ensures Decimal(n) != [] && IsDigit(Decimal(n)[0]) && DigitsValue(Decimal(n)) == Some(n)
    decreases n
  {
    if n >= 10 {
      DecimalDigits(n / 10);
      var d := Decimal(n);
      assert d[..|d| - 1] == Decimal(n / 10);
    }
  }

  /** Parsing what `Decimal` writes gives the number back, for every type whose range holds it. */
  lemma ParseDecimal(n: nat, signed: bool, lo: int, hi: int)
    requires lo <= n <= hi
    ensures ParseInteger(Decimal(n), signed, lo, hi) == Some(n)
  {
    DecimalDigits(n);
  }

  // ---------------------------------------------------------------------
  // Splitting and trimming text whose shape is known

  /** Text before the first occurrence of a one-character separator is the first piece. */
  lemma {:induction false} SplitAtChar(a: string, c: char, b: string)
    requires c !in a
    ensures Split(a + [c] + b, [c]) == [a] + Split(b, [c])
    decreases |a|
  {
    var s := a + [c] + b;
    if a == [] {
      assert s == [c] + b;
      assert [c] <= s;
      assert s[1..] == b;
    } else {
      assert s[0] == a[0];
      assert !([c] <= s);
      assert s[1..] == a[1..] + [c] + b;
      SplitAtChar(a[1..], c, b);
      assert [a[0]] + a[1..] == a;
    }
  }

  /** Text without a character does not contain it as a pattern. */
  lemma {:induction false} NoCharNoContains(s: string, c: char)
    requires c !in s
    ensures !Contains(s, [c])
    decreases |s|
  {
    if s != [] {
      assert s[0] != c;
      NoCharNoContains(s[1..], c);
    }
  }

  /** Leading whitespace before text that does not start with whitespace is all that `TrimStart` removes. */
  lemma {:induction false} TrimStartBlank(w: string, t: string)
    requires forall i :: 0 <= i < |w| ==> IsWhitespace(w[i])
    requires t == [] || !IsWhitespace(t[0])
    ensures TrimStart(w + t) == t
    decreases |w|
  {
    if w == [] {
      assert w + t == t;
    } else {
      assert (w + t)[1..] == w[1..] + t;
      TrimStartBlank(w[1..], t);
    }
  }

  /** Padding removed by `Trim` leaves text that neither starts nor ends with whitespace. */
  lemma TrimPadded(w: string, t: string)
    requires forall i :: 0 <= i < |w| ==> IsWhitespace(w[i])
    requires t != [] && !IsWhitespace(t[0]) && !IsWhitespace(t[|t| - 1])
    ensures Trim(w + t) == t
  {
    TrimStartBlank(w, t);
  }

  /** Replacing a trailing pattern by nothing removes it, when its first character does not occur before it. */
  lemma {:induction false} ReplaceAtEnd(a: string, pat: string)
    requires pat != [] && pat[0] !in a
    ensures Replace(a + pat, pat, "") == a
    decreases |a|
  {
    if a == [] {
      assert a + pat == pat;
      assert pat[|pat|..] == [];
    } else {
      var s := a + pat;
      assert s[0] == a[0];
      assert !(pat <= s);
      assert s[1..] == a[1..] + pat;
      ReplaceAtEnd(a[1..], pat);
      assert [a[0]] + a[1..] == a;
    }
  }
}
