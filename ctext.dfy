/** The C and C++ library text primitives the demo application relies on, in
    the "C" locale: `isdigit`, `isspace`, `atoi`, writing an `int` with
    `operator<<` and reading a whitespace-delimited word into a
    `std::string` with `operator>>`. Integers are unbounded here: `atoi` on
    a value that does not fit in an `int` is not modelled. */
module CText {

  /** `isdigit(c)`. */
  predicate IsDigit(c: char) {
    '0' <= c <= '9'
  }

  /** `isspace(c)`: space, tab, newline, vertical tab, form feed, carriage return. */
  predicate IsSpace(c: char) {
    c == ' ' || '\t' <= c <= '\r'
  }

  predicate AllDigits(s: string) {
    forall i :: 0 <= i < |s| ==> IsDigit(s[i])
  }

  predicate NoSpaces(s: string) {
    forall i :: 0 <= i < |s| ==> !IsSpace(s[i])
  }

  function DigitValue(c: char): (d: nat)
    requires IsDigit(c)
    ensures d < 10
  {
    c as int - '0' as int
  }

  function DigitChar(d: nat): (c: char)
    requires d < 10
    ensures IsDigit(c) && DigitValue(c) == d
  {
    ('0' as int + d) as char
  }

  /** The value of a string of decimal digits, most significant digit first. */
  function DecimalValue(s: string): nat
    requires AllDigits(s)
  {
    if s == [] then 0 else DecimalValue(s[..|s| - 1]) * 10 + DigitValue(s[|s| - 1])
  }

  /** The longest prefix of `s` that is made of digits. */
  function DigitPrefix(s: string): (p: string)
    ensures AllDigits(p) && p <= s
    ensures |p| < |s| ==> !IsDigit(s[|p|])
  {
    if s != [] && IsDigit(s[0]) then [s[0]] + DigitPrefix(s[1..]) else []
  }

  /** What is left of `s` once its leading white space is skipped. */
  function SkipSpaces(s: string): (t: string)
    ensures |t| <= |s|
    ensures t != [] ==> !IsSpace(t[0])
  {
    if s != [] && IsSpace(s[0]) then SkipSpaces(s[1..]) else s
  }

  /** What `SkipSpaces` drops is white space, and what it keeps is the rest
      of `s`. */
  lemma {:induction false} SkipSpacesDropsSpaces(s: string)
    ensures SkipSpaces(s) == s[|s| - |SkipSpaces(s)|..]
    ensures forall i :: 0 <= i < |s| - |SkipSpaces(s)| ==> IsSpace(s[i])
  {
    if s != [] && IsSpace(s[0]) {
      SkipSpacesDropsSpaces(s[1..]);
    }
  }

  /** `atoi(s)`: leading white space, an optional sign, then the longest run
      of digits; 0 when there is no digit. */
  function Atoi(s: string): int {
    var t := SkipSpaces(s);
    if t != [] && t[0] == '-' then -(DecimalValue(DigitPrefix(t[1..])) as int)
    else if t != [] && t[0] == '+' then DecimalValue(DigitPrefix(t[1..]))
    else DecimalValue(DigitPrefix(t))
  }

  /** `atoi` of a string with no digit in it is 0, whatever its spaces and
      signs. */
  lemma AtoiWithoutDigits(s: string)
    requires forall i :: 0 <= i < |s| ==> !IsDigit(s[i])
    ensures Atoi(s) == 0
  {
    var t := SkipSpaces(s);
    SkipSpacesDropsSpaces(s);
    assert forall i :: 0 <= i < |t| ==> t[i] == s[|s| - |t| + i];
    if t != [] && (t[0] == '-' || t[0] == '+') {
      assert t[1..] == [] || t[1..][0] == t[1];
    }
  }

  lemma {:induction false} DigitPrefixOfDigits(s: string)
    requires AllDigits(s)
    ensures DigitPrefix(s) == s
  {
    if s != [] {
      DigitPrefixOfDigits(s[1..]);
    }
  }

  /** On a string of digits only, `atoi` is the decimal value; in particular
      it is never negative, and `atoi("")` is 0. */
  lemma AtoiOfDigits(s: string)
    requires AllDigits(s)
    ensures Atoi(s) == DecimalValue(s)
    ensures s == [] ==> Atoi(s) == 0
  {
    assert SkipSpaces(s) == s;
    DigitPrefixOfDigits(s);
  }

  /** `std::cout << n` for a natural number: its decimal digits, no leading zero. */
  function FormatNat(n: nat): (s: string)
    ensures s != [] && AllDigits(s)
  {
    if n < 10 then [DigitChar(n)] else FormatNat(n / 10) + [DigitChar(n % 10)]
  }

  /** `std::cout << n`: a minus sign for a negative value, then the digits of |n|. */
  function FormatInt(n: int): (s: string)
    ensures s != [] && (s[0] == '-' <==> n < 0)
    ensures AllDigits(if n < 0 then s[1..] else s)
  {
    if n < 0 then "-" + FormatNat(-n) else FormatNat(n)
  }

  /** Reading back the digits `operator<<` wrote gives the number. */
  lemma {:induction false} DecimalValueOfFormat(n: nat)
    ensures DecimalValue(FormatNat(n)) == n
  {
    if n >= 10 {
      var s := FormatNat(n);
      assert s[..|s| - 1] == FormatNat(n / 10);
      DecimalValueOfFormat(n / 10);
    }
  }

  /** The digit prefix stops at the first character that is not a digit. */
  lemma {:induction false} DigitPrefixStops(d: string, rest: string)
    requires AllDigits(d)
    requires rest == [] || !IsDigit(rest[0])
    ensures DigitPrefix(d + rest) == d
  {
    if d != [] {
      assert (d + rest)[1..] == d[1..] + rest;
      DigitPrefixStops(d[1..], rest);
    }
  }

  /** `atoi` inverts `operator<<` on `int`s, also when the number is followed
      by something that is not a digit, such as the end of the line. */
  lemma AtoiOfFormat(n: int, rest: string)
    requires rest == [] || !IsDigit(rest[0])
    ensures Atoi(FormatInt(n) + rest) == n
  {
    if n < 0 {
      var d := FormatNat(-n);
      assert FormatInt(n) == "-" + d;
      AtoiOfNegative(d, rest);
      DecimalValueOfFormat(-n);
    } else {
      AtoiOfUnsigned(FormatNat(n), rest);
      DecimalValueOfFormat(n);
    }
  }

  lemma AtoiOfNegative(d: string, rest: string)
    requires d != [] && AllDigits(d)
    requires rest == [] || !IsDigit(rest[0])
    ensures Atoi("-" + d + rest) == -(DecimalValue(d) as int)
  {
    var s := "-" + d + rest;
    assert SkipSpaces(s) == s;
    assert s[0] == '-' && s[1..] == d + rest;
    DigitPrefixStops(d, rest);
  }

  lemma AtoiOfUnsigned(d: string, rest: string)
    requires d != [] && AllDigits(d)
    requires rest == [] || !IsDigit(rest[0])
    ensures Atoi(d + rest) == DecimalValue(d)
  {
    assert (d + rest)[0] == d[0];
    assert SkipSpaces(d + rest) == d + rest;
    DigitPrefixStops(d, rest);
  }

  /** The longest prefix of `s` without white space. */
  function TakeWord(s: string): (w: string)
    ensures |w| <= |s|
    ensures s != [] && !IsSpace(s[0]) ==> w != []
  {
    if s != [] && !IsSpace(s[0]) then [s[0]] + TakeWord(s[1..]) else []
  }

  /** `TakeWord` stops at the first white space, and only there. */
  lemma {:induction false} TakeWordIsLongestWord(s: string)
    ensures TakeWord(s) == s[..|TakeWord(s)|] && NoSpaces(TakeWord(s))
    ensures |TakeWord(s)| < |s| ==> IsSpace(s[|TakeWord(s)|])
  {
    if s != [] && !IsSpace(s[0]) {
      TakeWordIsLongestWord(s[1..]);
      var w := TakeWord(s[1..]);
      assert TakeWord(s) == [s[0]] + w;
      assert forall k :: 1 <= k < |TakeWord(s)| ==> TakeWord(s)[k] == w[k - 1];
    }
  }

  /** One `std::cin >> word`: the word read, the input after it, and whether
      the read reached the end of the input (eofbit). */
  datatype Extraction = Extraction(word: string, rest: string, eof: bool)

  /** `operator>>(std::istream&, std::string&)`: skip white space, then take
      characters up to the next white space (left unread) or the end of the
      input, which sets eofbit. An input of white space only gives an empty
      word (the read fails) and sets eofbit. */
  function ExtractWord(input: string): (x: Extraction)
    ensures |x.rest| <= |input|
    ensures x.eof <==> x.rest == []
    ensures x.word == [] ==> x.eof
    ensures x.word != [] ==> |x.rest| < |input|
  {
    var t := SkipSpaces(input);
    var w := TakeWord(t);
    Extraction(w, t[|w|..], |w| == |t|)
  }

  /** The word one read takes has no white space in it. */
  lemma ExtractedWordHasNoSpaces(input: string)
    ensures NoSpaces(ExtractWord(input).word)
  {
    TakeWordIsLongestWord(SkipSpaces(input));
  }

  /** What one read leaves unread is the end of the input. */
  lemma ExtractLeavesSuffix(input: string)
    ensures ExtractWord(input).rest == input[|input| - |ExtractWord(input).rest|..]
  {
    var t := SkipSpaces(input);
    SkipSpacesDropsSpaces(input);
    assert t[|TakeWord(t)|..] == input[|input| - |t| + |TakeWord(t)|..];
  }

  /** A read that does not reach the end of the input stops at white space. */
  lemma ExtractStopsAtSpace(input: string)
    ensures !ExtractWord(input).eof ==> IsSpace(ExtractWord(input).rest[0])
  {
    TakeWordIsLongestWord(SkipSpaces(input));
  }

  /** A read that sets eofbit after a word took the input's last character
      into the word. */
  lemma ExtractAtEnd(input: string)
    ensures ExtractWord(input).eof && ExtractWord(input).word != [] ==>
      input != [] && ExtractWord(input).word[|ExtractWord(input).word| - 1] == input[|input| - 1]
  {
    var t := SkipSpaces(input);
    var w := TakeWord(t);
    if |w| == |t| && w != [] {
      SkipSpacesDropsSpaces(input);
      TakeWordIsLongestWord(t);
      assert w[|w| - 1] == t[|t| - 1] == input[|input| - 1];
    }
  }

  lemma {:induction false} TakeWordStops(w: string, rest: string)
    requires NoSpaces(w)
    requires rest == [] || IsSpace(rest[0])
    ensures TakeWord(w + rest) == w
  {
    if w != [] {
      assert (w + rest)[1..] == w[1..] + rest;
      TakeWordStops(w[1..], rest);
    }
  }

  /** Reading from an input that starts with a word: the word comes back and
      the input after it is left unread; eofbit is set when nothing follows. */
  lemma ExtractLeadingWord(w: string, rest: string)
    requires w != [] && NoSpaces(w)
    requires rest == [] || IsSpace(rest[0])
    ensures ExtractWord(w + rest) == Extraction(w, rest, rest == [])
  {
    assert SkipSpaces(w + rest) == w + rest;
    TakeWordStops(w, rest);
  }

  /** Leading white space does not change what is read. */
  lemma ExtractAfterSpace(c: char, rest: string)
    requires IsSpace(c)
    ensures ExtractWord([c] + rest) == ExtractWord(rest)
  {
    assert ([c] + rest)[1..] == rest;
  }
}
