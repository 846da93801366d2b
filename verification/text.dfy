/** The two pieces of Python string handling the Start button relies on:
    `str.split()` with no separator (to take the last word of "Motor k") and
    `int(text)` on base-10 text (for the motor number and the volume). */
module Text {
  import opened Outcomes

  /** Python's `str.isspace`: the characters `str.split()` separates on. */
  predicate IsSpace(c: char) {
    || c == ' '
    || '\t' <= c <= '\r'
    || '\U{1c}' <= c <= '\U{1f}'
    || c == '\U{85}' || c == '\U{a0}' || c == '\U{1680}'
    || '\U{2000}' <= c <= '\U{200a}'
    || c == '\U{2028}' || c == '\U{2029}' || c == '\U{202f}'
    || c == '\U{205f}' || c == '\U{3000}'
  }

  /** The whitespace `int()` skips around the number. CPython keeps every
      ASCII character as it is and then skips only the C locale's blanks
      (space and `\t` through `\r`); a non-ASCII character counts when
      `str.isspace` holds for it. So the four separators U+001C to U+001F,
      which `str.split()` does split on, make `int()` fail. */
  predicate IsIntSpace(c: char) {
    IsSpace(c) && !('\U{1c}' <= c <= '\U{1f}')
  }

  predicate IsDigit(c: char) {
    '0' <= c <= '9'
  }

  predicate AllSpace(s: string) {
    forall i :: 0 <= i < |s| ==> IsSpace(s[i])
  }

  predicate AllIntSpace(s: string) {
    forall i :: 0 <= i < |s| ==> IsIntSpace(s[i])
  }

  /** A word as `str.split()` yields it: non-empty and free of whitespace. */
  predicate IsWord(w: string) {
    |w| > 0 && forall i :: 0 <= i < |w| ==> !IsSpace(w[i])
  }

  /** Length of the run of `int()` whitespace that starts `s`. */
  function LeadingSpaces(s: string): (n: nat)
    ensures n <= |s|
    ensures forall i :: 0 <= i < n ==> IsIntSpace(s[i])
    ensures n < |s| ==> !IsIntSpace(s[n])
  {
    if s == [] || !IsIntSpace(s[0]) then 0 else 1 + LeadingSpaces(s[1..])
  }

  /** Length of the run of `int()` whitespace that ends `s`. */
  function TrailingSpaces(s: string): (n: nat)
    ensures n <= |s|
    ensures forall i :: |s| - n <= i < |s| ==> IsIntSpace(s[i])
    ensures n < |s| ==> !IsIntSpace(s[|s| - n - 1])
  {
    if s == [] || !IsIntSpace(s[|s| - 1]) then 0 else 1 + TrailingSpaces(s[..|s| - 1])
  }

  /** Length of the run of non-whitespace characters that starts `s`. */
  function WordLength(s: string): (n: nat)
    ensures n <= |s|
    ensures forall i :: 0 <= i < n ==> !IsSpace(s[i])
    ensures n < |s| ==> IsSpace(s[n])
  {
    if s == [] || IsSpace(s[0]) then 0 else 1 + WordLength(s[1..])
  }

  /** `t` is a slice of `s` with only `int()` whitespace outside it. */
  ghost predicate TrimmedFrom(s: string, t: string) {
    exists i, j :: 0 <= i <= j <= |s| && t == s[i..j] && AllIntSpace(s[..i]) && AllIntSpace(s[j..])
  }

  /** The part of `s` that `int()` reads as a number: `s` without the
      whitespace `int()` skips at either end. It is a slice of `s` with only
      such whitespace outside it and none at its own ends. */
  function Trim(s: string): (t: string)
    ensures t == [] || (!IsIntSpace(t[0]) && !IsIntSpace(t[|t| - 1]))
    ensures TrimmedFrom(s, t)
  {
    var l := LeadingSpaces(s);
    var a := s[l..];
    var n := |a| - TrailingSpaces(a);
    assert a[..n] == s[l..l + n];
    assert AllIntSpace(s[..l]);
    assert AllIntSpace(s[l + n..]) by {
      assert s[l + n..] == a[n..];
    }
    assert TrimmedFrom(s, a[..n]);
    a[..n]
  }

  /** Python's `str.split()`: the maximal runs of non-whitespace characters,
      left to right. */
  function Split(s: string): (words: seq<string>)
    ensures forall k :: 0 <= k < |words| ==> IsWord(words[k])
    decreases |s|
  {
    if s == [] then []
    else if IsSpace(s[0]) then Split(s[1..])
    else
      var n := WordLength(s);
      assert IsWord(s[..n]) by {
        assert forall k :: 0 <= k < n ==> s[..n][k] == s[k];
      }
      var rest := Split(s[n..]);
      assert forall k :: 1 <= k < |rest| + 1 ==> ([s[..n]] + rest)[k] == rest[k - 1];
      [s[..n]] + rest
  }

  /** `str.split()` yields words only, and yields none exactly when the text
      is all whitespace. */
  lemma {:induction false} SplitYieldsWords(s: string)
    ensures forall k :: 0 <= k < |Split(s)| ==> IsWord(Split(s)[k])
    ensures Split(s) == [] <==> AllSpace(s)
    decreases |s|
  {
    if s == [] {
    } else if IsSpace(s[0]) {
      SplitYieldsWords(s[1..]);
      assert AllSpace(s) <==> AllSpace(s[1..]) by {
        assert forall k :: 1 <= k < |s| ==> s[k] == s[1..][k - 1];
      }
    } else {
      var n := WordLength(s);
      SplitYieldsWords(s[n..]);
    }
  }

  /** The word `w` stands at position `i` of `s` as the last word: whitespace
      (or the start) before it, only whitespace after it. */
  ghost predicate LastWordAt(s: string, w: string, i: nat) {
    && i + |w| <= |s| && s[i..i + |w|] == w
    && (i == 0 || IsSpace(s[i - 1]))
    && AllSpace(s[i + |w|..])
  }

  /** `w` is the last word of `s`. */
  ghost predicate EndsWithWord(s: string, w: string) {
    exists i: nat :: LastWordAt(s, w, i)
  }

  /** A last word of a suffix `s[k..]` is the last word of `s` when it does
      not start the suffix or the suffix follows whitespace. */
  lemma LastWordOfSuffix(s: string, k: nat, w: string, i: nat)
    requires k <= |s| && LastWordAt(s[k..], w, i)
    requires i > 0 || k == 0 || IsSpace(s[k - 1])
    ensures LastWordAt(s, w, k + i)
  {
    var t := s[k..];
    assert t[i..i + |w|] == s[k + i..k + i + |w|];
    assert t[i + |w|..] == s[k + i + |w|..];
    assert i > 0 ==> t[i - 1] == s[k + i - 1];
  }

  /** The last word `str.split()` yields is the last word of the text. */
  lemma {:induction false} SplitLast(s: string)
    requires Split(s) != []
    ensures EndsWithWord(s, Split(s)[|Split(s)| - 1])
    decreases |s|
  {
    if IsSpace(s[0]) {
      SplitLast(s[1..]);
      SplitLastAfterSpace(s);
    } else if Split(s[WordLength(s)..]) == [] {
      SplitLastFirstWord(s);
    } else {
      SplitLast(s[WordLength(s)..]);
      SplitLastAfterWord(s);
    }
  }

  /** Text that starts with whitespace ends with the last word of the rest. */
  lemma SplitLastAfterSpace(s: string)
    requires s != [] && IsSpace(s[0]) && Split(s[1..]) != []
    requires EndsWithWord(s[1..], Split(s[1..])[|Split(s[1..])| - 1])
    ensures Split(s) != [] && EndsWithWord(s, Split(s)[|Split(s)| - 1])
  {
    var w := Split(s[1..])[|Split(s[1..])| - 1];
    var i: nat :| LastWordAt(s[1..], w, i);
    LastWordOfSuffix(s, 1, w, i);
  }

  /** Text whose first word is its only word ends with that word. */
  lemma SplitLastFirstWord(s: string)
    requires s != [] && !IsSpace(s[0]) && Split(s[WordLength(s)..]) == []
    ensures Split(s) != [] && EndsWithWord(s, Split(s)[|Split(s)| - 1])
  {
    var n := WordLength(s);
    SplitYieldsWords(s[n..]);
    assert Split(s)[|Split(s)| - 1] == s[..n] == s[0..n];
    assert LastWordAt(s, s[..n], 0);
  }

  /** Text that starts with a word and has more words ends with the last
      word of the text after the first word. */
  lemma SplitLastAfterWord(s: string)
    requires s != [] && !IsSpace(s[0])
    requires var rest := Split(s[WordLength(s)..]);
             rest != [] && EndsWithWord(s[WordLength(s)..], rest[|rest| - 1])
    ensures Split(s) != [] && EndsWithWord(s, Split(s)[|Split(s)| - 1])
  {
    var n := WordLength(s);
    var rest := Split(s[n..]);
    var w := rest[|rest| - 1];
    assert Split(s) == [s[..n]] + rest;
    var i: nat :| LastWordAt(s[n..], w, i);
    assert i > 0 by {
      assert IsWord(w) && n < |s| && IsSpace(s[n]);
    }
    LastWordOfSuffix(s, n, w, i);
  }

  /** The words joined with one blank between neighbours, as an f-string
      such as `f"Motor {k}"` builds them. */
  function Join(words: seq<string>): string {
    if |words| == 0 then ""
    else if |words| == 1 then words[0]
    else words[0] + " " + Join(words[1..])
  }

  /** `split()[-1]`: the last word, or None where Python raises IndexError. */
  function LastWord(s: string): (w: Option<string>)
    ensures w.Some? <==> !AllSpace(s)
    ensures w.Some? ==> IsWord(w.value)
    ensures w.Some? ==> EndsWithWord(s, w.value)
  {
    SplitYieldsWords(s);
    var words := Split(s);
    if words == [] then None
    else
      SplitLast(s);
      Some(words[|words| - 1])
  }
  lemma WordLengthOfWord(w: string, rest: string)
    requires IsWord(w)
    requires rest == [] || IsSpace(rest[0])
    ensures WordLength(w + rest) == |w|
  {
    var s := w + rest;
    assert forall i :: 0 <= i < |w| ==> s[i] == w[i];
    assert |w| < |s| ==> s[|w|] == rest[0];
  }

  /** Splitting a word followed by a blank (or nothing) yields that word
      first. */
  lemma SplitWordThen(w: string, rest: string)
    requires IsWord(w)
    requires rest == [] || IsSpace(rest[0])
    ensures Split(w + rest) == [w] + Split(rest)
  {
    var s := w + rest;
    assert s[0] == w[0];
    WordLengthOfWord(w, rest);
    assert s[..|w|] == w;
    assert s[|w|..] == rest;
  }

  /** Splitting text joined from words gives the words back. */
  lemma {:induction false} SplitJoin(words: seq<string>)
    requires forall k :: 0 <= k < |words| ==> IsWord(words[k])
    ensures Split(Join(words)) == words
  {
    if |words| == 1 {
      SplitWordThen(words[0], "");
      assert words[0] + "" == words[0];
    } else if |words| > 1 {
      var w, tail := words[0], words[1..];
      calc {
        Split(Join(words));
        { assert Join(words) == w + (" " + Join(tail)); }
        Split(w + (" " + Join(tail)));
        { SplitWordThen(w, " " + Join(tail)); }
        [w] + Split(" " + Join(tail));
        { assert (" " + Join(tail))[1..] == Join(tail); }
        [w] + Split(Join(tail));
        { SplitJoin(tail); }
        [w] + tail;
      }
      assert words == [w] + tail;
    }
  }

  /** Text with no `int()` whitespace at either end is read whole. */
  lemma TrimUntrimmed(s: string)
    requires s == [] || (!IsIntSpace(s[0]) && !IsIntSpace(s[|s| - 1]))
    ensures Trim(s) == s
  {
    assert s[0..] == s;
    assert s[..|s| - 0] == s;
  }

  lemma {:induction false} LeadingPadded(a: string, u: string)
    requires AllIntSpace(a)
    ensures LeadingSpaces(a + u) == |a| + LeadingSpaces(u)
    decreases |a|
  {
    if a == [] {
      assert a + u == u;
    } else {
      assert (a + u)[1..] == a[1..] + u;
      LeadingPadded(a[1..], u);
    }
  }

  lemma {:induction false} TrailingPadded(u: string, b: string)
    requires AllIntSpace(b)
    ensures TrailingSpaces(u + b) == TrailingSpaces(u) + |b|
    decreases |b|
  {
    if b == [] {
      assert u + b == u;
    } else {
      assert (u + b)[..|u + b| - 1] == u + b[..|b| - 1];
      TrailingPadded(u, b[..|b| - 1]);
    }
  }

  /** Padding text with whitespace `int()` skips does not change what it
      reads. */
  lemma TrimPadded(a: string, t: string, b: string)
    requires AllIntSpace(a) && AllIntSpace(b)
    requires t == [] || (!IsIntSpace(t[0]) && !IsIntSpace(t[|t| - 1]))
    ensures Trim(a + t + b) == t
  {
    var s := a + t + b;
    assert s == a + (t + b);
    LeadingPadded(a, t + b);
    if t == [] {
      assert t + b == b + [];
      LeadingPadded(b, []);
      assert LeadingSpaces(s) == |s|;
    } else {
      assert LeadingSpaces(t + b) == 0;
      assert s[|a|..] == t + b;
      TrailingPadded(t, b);
      assert TrailingSpaces(t) == 0;
      assert (t + b)[..|t|] == t;
    }
  }

  /** Every character of `s` that is not `int()` whitespace is among those
      `int()` reads. */
  lemma TrimKeeps(s: string, i: nat)
    requires i < |s| && !IsIntSpace(s[i])
    ensures s[i] in Trim(s)
  {
    var l := LeadingSpaces(s);
    var a := s[l..];
    var t := TrailingSpaces(a);
    assert i >= l;
    assert a[i - l] == s[i];
    assert i - l < |a| - t;
    assert Trim(s)[i - l] == s[i];
  }

  // ---------------------------------------------------------------------
  // Decimal digits

  /** CPython's default limit on the digits of a decimal conversion
      (`sys.get_int_max_str_digits()`, in CPython 3.11 and later and in the
      2022 security releases 3.7.14, 3.8.14, 3.9.14 and 3.10.7): `int()` on a
      numeral with more digits, and `str()` of an integer that needs more,
      raise ValueError. */
  const MaxStrDigits: nat := 4300

  function DigitChar(d: nat): (c: char)
    requires d < 10
    ensures IsDigit(c)
  {
    ('0' as int + d) as char
  }

  function DigitValue(c: char): (d: nat)
    requires IsDigit(c)
    ensures d < 10 && DigitChar(d) == c
  {
    c as int - '0' as int
  }

  /** The decimal numeral of a non-negative integer: digits, and no leading
      zero unless the number is zero. */
  function NatToString(n: nat): (s: string)
    ensures |s| > 0 && forall i :: 0 <= i < |s| ==> IsDigit(s[i])
    ensures s[0] == '0' ==> n == 0

  {
    if n < 10 then [DigitChar(n)] else NatToString(n / 10) + [DigitChar(n % 10)]
  }

  /** A number below one hundred has at most two digits. */
  lemma ShortNumeral(n: nat)
    requires n < 100
    ensures |NatToString(n)| <= 2
  {
    if n >= 10 {
      assert |NatToString(n / 10)| == 1;
    }
  }

  function Abs(i: int): nat {
    if i < 0 then -i else i
  }

  /** The numeral Python's `str(i)` prints for any integer; `str(i)` itself
      raises when it would need more than `MaxStrDigits` digits. */
  function IntToString(i: int): string {
    if i < 0 then "-" + NatToString(-i) else NatToString(i)
  }

  /** The number an all-digit string denotes in base 10. */
  function DigitsValue(s: string): nat
    requires forall i :: 0 <= i < |s| ==> IsDigit(s[i])
  {
    if s == [] then 0 else DigitsValue(s[..|s| - 1]) * 10 + DigitValue(s[|s| - 1])
  }

  /** The body `int()` accepts after the sign: digits, where a single
      underscore may stand between two digits. */
  predicate IsDigitBody(s: string) {
    && |s| > 0 && IsDigit(s[0]) && IsDigit(s[|s| - 1])
    && (forall i :: 0 <= i < |s| ==> IsDigit(s[i]) || s[i] == '_')
    && (forall i :: 0 <= i < |s| - 1 && s[i] == '_' ==> s[i + 1] != '_')
  }

  function DropUnderscores(s: string): (t: string)
    ensures (forall i :: 0 <= i < |s| ==> IsDigit(s[i]) || s[i] == '_') ==>
              forall i :: 0 <= i < |t| ==> IsDigit(t[i])
    ensures (forall i :: 0 <= i < |s| ==> IsDigit(s[i])) ==> t == s
  {
    if s == [] then []
    else (if s[0] == '_' then [] else [s[0]]) + DropUnderscores(s[1..])
  }

  /** A digit body's value; None when the text is not one or has more than
      `MaxStrDigits` digits (underscores do not count). */
  function ParseUnsigned(s: string): Option<nat> {
    if IsDigitBody(s) && |DropUnderscores(s)| <= MaxStrDigits then Some(DigitsValue(DropUnderscores(s)))
    else None
  }

  /** Python's `int(text)` in base 10: surrounding whitespace is ignored, an
      optional sign, then a digit body; None where Python raises ValueError.
      A number is read only from text that ends in a digit once trimmed, and
      its sign is the sign written. */
  function ParseInt(text: string): (r: Option<int>)
    ensures r.Some? ==> |Trim(text)| > 0 && IsDigit(Trim(text)[|Trim(text)| - 1])
    ensures r.Some? ==> (Trim(text)[0] == '-' ==> r.value <= 0) && (Trim(text)[0] != '-' ==> r.value >= 0)
  {
    ReadSigned(Trim(text))
  }

  /** The number `int()` reads from trimmed text `t`: an optional sign, then
      a digit body. */
  function ReadSigned(t: string): (r: Option<int>)
    ensures r.Some? ==> |t| > 0 && IsDigit(t[|t| - 1])
    ensures r.Some? ==> (t[0] == '-' ==> r.value <= 0) && (t[0] != '-' ==> r.value >= 0)
  {
    if |t| > 0 && (t[0] == '+' || t[0] == '-') then
      match ParseUnsigned(t[1..])
      case None => None
      case Some(m) =>
        assert t[1..][|t[1..]| - 1] == t[|t| - 1];
        var v: int := if t[0] == '-' then 0 - m as int else m;
        Some(v)
    else
      match ParseUnsigned(t)
      case None => None
      case Some(m) => Some(m)
  }

  lemma {:induction false} DigitsValueOfNatToString(n: nat)
    ensures DigitsValue(NatToString(n)) == n
  {
    var s := NatToString(n);
    if n < 10 {
      assert s[..0] == [];
    } else {
      assert s[..|s| - 1] == NatToString(n / 10);
      DigitsValueOfNatToString(n / 10);
    }
  }

  /** `int(str(n))` gives back `n` for every natural number whose numeral
      CPython converts; a longer numeral is refused. */
  lemma ParseNatToString(n: nat)
    ensures ParseInt(NatToString(n)) == if |NatToString(n)| <= MaxStrDigits then Some(n) else None
  {
    var s := NatToString(n);
    TrimUntrimmed(s);
    ParseNumeral(n);
    assert !(s[0] == '+' || s[0] == '-');
  }

  /** The digit body of a numeral is read as its number, within the digit
      limit. */
  lemma ParseNumeral(n: nat)
    ensures ParseUnsigned(NatToString(n)) == if |NatToString(n)| <= MaxStrDigits then Some(n) else None
  {
    var s := NatToString(n);
    assert IsDigitBody(s) && DropUnderscores(s) == s;
    DigitsValueOfNatToString(n);
  }

  /** `int(str(i))` gives back `i` for every integer `str()` can print,
      negative ones included; a numeral of more than `MaxStrDigits` digits is
      refused. */
  lemma ParseIntToString(i: int)
    ensures ParseInt(IntToString(i)) == if |NatToString(Abs(i))| <= MaxStrDigits then Some(i) else None
  {
    if i < 0 {
      ParseNegated(-i);
    } else {
      ParseNatToString(i);
    }
  }

  /** `int("-" + str(m))` is `-m`, within the digit limit. */
  lemma ParseNegated(m: nat)
    ensures ParseInt("-" + NatToString(m)) == if |NatToString(m)| <= MaxStrDigits then Some(0 - m) else None
  {
    var d := NatToString(m);
    var s := "-" + d;
    assert s[|s| - 1] == d[|d| - 1];
    TrimUntrimmed(s);
    assert s[1..] == d;
    ParseMinus(s);
    ParseNumeral(m);
  }

  /** Trimmed text that starts with a minus sign reads as the negated value
      of the rest. */
  lemma ParseMinus(s: string)
    requires Trim(s) == s && |s| > 0 && s[0] == '-'
    ensures ParseInt(s) == match ParseUnsigned(s[1..]) case None => None case Some(m) => Some(0 - m)
  {
  }

  lemma ParsePlus(s: string)
    requires Trim(s) == s && |s| > 0 && s[0] == '+'
    ensures ParseInt(s) == match ParseUnsigned(s[1..]) case None => None case Some(m) => Some(m)
  {
  }

  lemma ParseBare(s: string)
    requires Trim(s) == s && |s| > 0 && s[0] != '+' && s[0] != '-'
    ensures ParseInt(s) == match ParseUnsigned(s) case None => None case Some(m) => Some(m)
  {
  }

  /** `int()` refuses text holding any character other than the whitespace
      it skips, digits, underscores and signs. */
  lemma ParseRejectsStray(text: string, i: nat)
    requires i < |text|
    requires !IsIntSpace(text[i]) && !IsDigit(text[i])
    requires text[i] != '_' && text[i] != '+' && text[i] != '-'
    ensures ParseInt(text) == None
  {
    TrimKeeps(text, i);
    var t := Trim(text);
    var k :| 0 <= k < |t| && t[k] == text[i];
    if |t| > 0 && (t[0] == '+' || t[0] == '-') {
      assert k > 0;
      assert t[1..][k - 1] == text[i];
    }
  }

  /** `int()` reads text padded with the whitespace it skips as it reads the
      text alone, whatever that text is. */
  lemma ParsePadded(a: string, t: string, b: string)
    requires AllIntSpace(a) && AllIntSpace(b)
    requires t == [] || (!IsIntSpace(t[0]) && !IsIntSpace(t[|t| - 1]))
    ensures ParseInt(a + t + b) == ParseInt(t)
  {
    TrimPadded(a, t, b);
    TrimUntrimmed(t);
  }

  /** An explicit `+` in front of a digit body changes nothing. */
  lemma ParsePlusSign(t: string)
    requires IsDigitBody(t)
    ensures ParseInt("+" + t) == ParseInt(t)
  {
    TrimUntrimmed(t);
    ParseBare(t);
    TrimUntrimmed("+" + t);
    assert ("+" + t)[1..] == t;
    ParsePlus("+" + t);
  }

  lemma {:induction false} DropUnderscoresLast(s: string)
    requires |s| > 0 && IsDigit(s[|s| - 1])
    ensures |DropUnderscores(s)| > 0
    ensures DropUnderscores(s)[|DropUnderscores(s)| - 1] == s[|s| - 1]
    decreases |s|
  {
    if |s| > 1 {
      DropUnderscoresLast(s[1..]);
    }
  }

  /** Underscores between digits are only for the eye: `int()` reads the
      body as it reads its digits alone. */
  lemma ParseUnderscores(t: string)
    requires IsDigitBody(t)
    ensures ParseInt(t) == ParseInt(DropUnderscores(t))
  {
    var d := DropUnderscores(t);
    DropUnderscoresLast(t);
    assert d[0] == t[0];
    assert DropUnderscores(d) == d;
    assert IsDigitBody(d);
    TrimUntrimmed(t);
    ParseBare(t);
    TrimUntrimmed(d);
    ParseBare(d);
  }
}
