/**
 * The C library text primitives the status-file readers rely on:
 * `strncmp(line, prefix, n) == 0`, `sscanf(s, "%d", ...)`, `sscanf(s, "%s", ...)`
 * and `strstr` with a one-letter needle, stated over `string` (a line as `fgets`
 * returns it), together with `printf("%d")` as the partner of the integer scan.
 */
module Text {
  import opened Wrappers

  /** `isspace` in the "C" locale: space, \t, \n, \v, \f, \r. */
  predicate IsSpace(c: char) {
    c == ' ' || c == '\t' || c == '\n' || c == '\U{B}' || c == '\U{C}' || c == '\r'
  }

  predicate IsDigit(c: char) {
    '0' <= c <= '9'
  }

  /**
   * A character `%s` copies into its buffer: not white space, and not the
   * NUL that ends a C string (nothing after it is seen).
   */
  predicate WordChar(c: char) {
    !IsSpace(c) && c != '\0'
  }

  /** `strncmp(line, prefix, |prefix|) == 0`. */
  predicate StartsWith(line: string, prefix: string) {
    |prefix| <= |line| && line[..|prefix|] == prefix
  }

  /**
   * StartsWith is the `strncmp` test: the line is at least as long as the
   * prefix and its first |prefix| characters equal those of the prefix, one
   * by one. (A C line that ends earlier fails `strncmp` too: its terminating
   * NUL differs from the prefix's next character, as the tags hold no NUL.)
   */
  lemma StartsWithIsStrncmp(line: string, prefix: string)
    ensures StartsWith(line, prefix) <==>
              |prefix| <= |line| && forall i :: 0 <= i < |prefix| ==> line[i] == prefix[i]
  {
    if |prefix| <= |line| {
      if StartsWith(line, prefix) {
        forall i | 0 <= i < |prefix|
          ensures line[i] == prefix[i]
        {
          assert line[..|prefix|][i] == line[i];
        }
      } else {
        var i :| 0 <= i < |prefix| && line[..|prefix|][i] != prefix[i];
        assert line[i] != prefix[i];
      }
    }
  }

  /** The longest prefix of `s` whose characters all satisfy `p`. */
  function TakeWhile(s: string, p: char -> bool): (r: string)
    ensures |r| <= |s| && r == s[..|r|]
    ensures forall i :: 0 <= i < |r| ==> p(r[i])
    ensures |r| < |s| ==> !p(s[|r|])
  {
    if s != [] && p(s[0]) then [s[0]] + TakeWhile(s[1..], p) else []
  }

  /** What is left of `s` once its longest `p`-prefix is dropped. */
  function DropWhile(s: string, p: char -> bool): (r: string)
    ensures |r| <= |s| && r == s[|s| - |r|..]
    ensures forall i :: 0 <= i < |s| - |r| ==> p(s[i])
    ensures r != [] ==> !p(r[0])
  {
    if s != [] && p(s[0]) then DropWhile(s[1..], p) else s
  }

  function DigitValue(c: char): nat
    requires IsDigit(c)
  {
    (c as int) - ('0' as int)
  }

  /** The value of a string of decimal digits, most significant first. */
  function DigitsValue(ds: string): nat
    requires forall i :: 0 <= i < |ds| ==> IsDigit(ds[i])
  {
    if ds == [] then 0
    else DigitsValue(ds[..|ds| - 1]) * 10 + DigitValue(ds[|ds| - 1])
  }

  /** A run of one or more digits at the front of `u`, read as a number. */
  function ScanDigits(u: string): Option<nat> {
    var ds := TakeWhile(u, IsDigit);
    if ds == [] then None else Some(DigitsValue(ds))
  }

  /** An optional sign, then digits. */
  function ScanSigned(t: string): Option<int> {
    if t != [] && t[0] == '-' then
      match ScanDigits(t[1..])
      case None => None
      case Some(v) => Some(-(v as int))
    else if t != [] && t[0] == '+' then
      match ScanDigits(t[1..])
      case None => None
      case Some(v) => Some(v as int)
    else
      match ScanDigits(t)
      case None => None
      case Some(v) => Some(v as int)
  }

  /** `t` starts with a digit, or with a sign and then a digit: the start of a `%d` conversion. */
  predicate StartsNumber(t: string) {
    (t != [] && IsDigit(t[0])) || (|t| >= 2 && (t[0] == '-' || t[0] == '+') && IsDigit(t[1]))
  }

  /**
   * `sscanf(s, "%d", &v)`: skip white space, accept an optional sign, then
   * one or more digits (as many as there are). `None` when no digit follows,
   * i.e. when sscanf would not return 1.
   */
  function ScanDecimal(s: string): Option<int> {
    ScanSigned(DropWhile(s, IsSpace))
  }

  /** A run of digits is found exactly when the text starts with a digit. */
  lemma ScanDigitsFinds(u: string)
    ensures ScanDigits(u).Some? <==> u != [] && IsDigit(u[0])
  {
    var ds := TakeWhile(u, IsDigit);
    if u != [] && IsDigit(u[0]) {
      assert |ds| > 0;
    }
  }

  /**
   * `%d` converts exactly when white space is followed by an optional sign
   * and a digit, i.e. exactly when sscanf returns 1; a negative value needs
   * a minus sign.
   */
  lemma ScanDecimalMeaning(s: string)
    ensures ScanDecimal(s).Some? <==> StartsNumber(DropWhile(s, IsSpace))
    ensures ScanDecimal(s).Some? && ScanDecimal(s).value < 0 ==> DropWhile(s, IsSpace)[0] == '-'
  {
    var t := DropWhile(s, IsSpace);
    if t != [] && (t[0] == '-' || t[0] == '+') {
      ScanDigitsFinds(t[1..]);
    } else {
      ScanDigitsFinds(t);
    }
  }

  /**
   * `sscanf(s, "%s", buf)`: skip white space and take the following run of
   * characters up to the next white space or the end of the C string (a
   * NUL). `None` when only white space is left before that end, in which
   * case sscanf returns EOF and leaves `buf` unwritten.
   */
  function ScanToken(s: string): (r: Option<string>)
    ensures r.Some? ==> r.value != [] && forall i :: 0 <= i < |r.value| ==> WordChar(r.value[i])
  {
    var w := TakeWhile(DropWhile(s, IsSpace), WordChar);
    if w == [] then None else Some(w)
  }

  /**
   * `%s` after its white space: nothing when the string ends there (or a
   * NUL follows), and otherwise the longest run of characters that are
   * neither white space nor NUL.
   */
  lemma ScanTokenMeaning(s: string)
    ensures var t := DropWhile(s, IsSpace);
            ScanToken(s).None? <==> t == [] || t[0] == '\0'
    ensures var t := DropWhile(s, IsSpace);
            ScanToken(s).Some? ==>
              var w := ScanToken(s).value;
              w <= t && (|w| < |t| ==> !WordChar(t[|w|]))
  {
    var t := DropWhile(s, IsSpace);
    var w := TakeWhile(t, WordChar);
    if t != [] && t[0] != '\0' {
      assert WordChar(t[0]);
      assert |w| > 0;
    }
  }

  /** The decimal digits of `n` without leading zeros, as `printf("%u")` writes them. */
  function NatDigits(n: nat): (r: string)
    ensures |r| >= 1
    ensures forall i :: 0 <= i < |r| ==> IsDigit(r[i])
  {
    var last := ['0' + (n % 10) as char];
    if n < 10 then last else NatDigits(n / 10) + last
  }

  /** `printf("%d", n)`. */
  function DecimalString(n: int): string {
    if n < 0 then ['-'] + NatDigits(-n) else NatDigits(n)
  }

  lemma {:induction false} DigitsValueOfNatDigits(n: nat)
    ensures DigitsValue(NatDigits(n)) == n
  {
    var ds := NatDigits(n);
    if n >= 10 {
      DigitsValueOfNatDigits(n / 10);
      assert ds[..|ds| - 1] == NatDigits(n / 10);
    }
  }

  /** A run of `p`-characters followed by a character that is not `p` is exactly what TakeWhile takes. */
  lemma {:induction false} TakeWhileStopsAtBoundary(a: string, tail: string, p: char -> bool)
    requires forall i :: 0 <= i < |a| ==> p(a[i])
    requires tail == [] || !p(tail[0])
    ensures TakeWhile(a + tail, p) == a
  {
    if a != [] {
      assert (a + tail)[1..] == a[1..] + tail;
      TakeWhileStopsAtBoundary(a[1..], tail, p);
    }
  }

  /** White space in front of a character that is not white space is exactly what DropWhile drops. */
  lemma {:induction false} DropWhileStopsAtBoundary(ws: string, rest: string, p: char -> bool)
    requires forall i :: 0 <= i < |ws| ==> p(ws[i])
    requires rest == [] || !p(rest[0])
    ensures DropWhile(ws + rest, p) == rest
  {
    if ws != [] {
      assert (ws + rest)[1..] == ws[1..] + rest;
      DropWhileStopsAtBoundary(ws[1..], rest, p);
    }
  }

  /** Leading white space does not change what `%d` scans. */
  lemma ScanDecimalSkipsSpaces(ws: string, rest: string)
    requires forall i :: 0 <= i < |ws| ==> IsSpace(ws[i])
    requires rest == [] || !IsSpace(rest[0])
    ensures ScanDecimal(ws + rest) == ScanDecimal(rest)
  {
    DropWhileStopsAtBoundary(ws, rest, IsSpace);
    DropWhileStopsAtBoundary([], rest, IsSpace);
  }

  /** Text that starts with a digit or a sign is scanned from its first character. */
  lemma ScanDecimalNoSpaces(t: string)
    requires t != [] && !IsSpace(t[0])
    ensures ScanDecimal(t) == ScanSigned(t)
  {
    DropWhileStopsAtBoundary([], t, IsSpace);
    assert [] + t == t;
  }

  /** An unsigned run of digits ended by a non-digit scans to its value. */
  lemma ScanDigitsOfDigits(ds: string, tail: string)
    requires ds != [] && forall i :: 0 <= i < |ds| ==> IsDigit(ds[i])
    requires tail == [] || !IsDigit(tail[0])
    ensures ScanDigits(ds + tail) == Some(DigitsValue(ds))
  {
    TakeWhileStopsAtBoundary(ds, tail, IsDigit);
  }

  /**
   * The whole `%d` conversion on unsigned digits: no white space to skip, no
   * sign, so a run of digits ended by a non-digit scans to its value.
   */
  lemma ScanDecimalOfDigits(ds: string, tail: string, v: nat)
    requires ds != [] && forall i :: 0 <= i < |ds| ==> IsDigit(ds[i])
    requires tail == [] || !IsDigit(tail[0])
    requires v == DigitsValue(ds)
    ensures ScanDecimal(ds + tail) == Some(v as int)
  {
    var t := ds + tail;
    assert t[0] == ds[0];
    ScanDecimalNoSpaces(t);
    assert t[0] != '-' && t[0] != '+';
    assert ScanSigned(t) == match ScanDigits(t) case None => None case Some(v) => Some(v as int);
    ScanDigitsOfDigits(ds, tail);
  }

  /** A minus sign followed by digits scans to their negated value. */
  lemma ScanSignedOfMinus(t: string, v: nat)
    requires t != [] && t[0] == '-' && ScanDigits(t[1..]) == Some(v)
    ensures ScanSigned(t) == Some(-(v as int))
  {
  }

  /** A minus sign, then a run of digits ended by a non-digit, scans to the negated value. */
  lemma ScanDecimalOfNegativeDigits(ds: string, tail: string, t: string, v: nat)
    requires ds != [] && forall i :: 0 <= i < |ds| ==> IsDigit(ds[i])
    requires tail == [] || !IsDigit(tail[0])
    requires t == ['-'] + (ds + tail)
    requires v == DigitsValue(ds)
    ensures ScanDecimal(t) == Some(-(v as int))
  {
    var u := ds + tail;
    assert t[0] == '-' && t[1..] == u;
    ScanDigitsOfDigits(ds, tail);
    ScanSignedOfMinus(t, v);
    ScanDecimalNoSpaces(t);
  }

  /** The decimal text of a negative number is a minus sign and the digits of its magnitude. */
  lemma NegativeText(n: int, tail: string)
    requires n < 0
    ensures DecimalString(n)[0] == '-'
    ensures DecimalString(n) + tail == ['-'] + (NatDigits(-n) + tail)
  {
  }

  /** The decimal text of a negative `n`, followed by anything that does not continue the number, scans to `n`. */
  lemma ScanDecimalOfPrintedNegative(n: int, tail: string)
    requires n < 0
    requires tail == [] || !IsDigit(tail[0])
    ensures DecimalString(n) != [] && !IsSpace(DecimalString(n)[0])
    ensures ScanDecimal(DecimalString(n) + tail) == Some(n)
  {
    var ds := NatDigits(-n);
    DigitsValueOfNatDigits(-n);
    NegativeText(n, tail);
    ScanDecimalOfNegativeDigits(ds, tail, DecimalString(n) + tail, -n);
  }

  /** The decimal text of `n`, followed by anything that does not continue the number, scans to `n`. */
  lemma ScanDecimalOfPrinted(n: int, tail: string)
    requires tail == [] || !IsDigit(tail[0])
    ensures DecimalString(n) != [] && !IsSpace(DecimalString(n)[0])
    ensures ScanDecimal(DecimalString(n) + tail) == Some(n)
  {
    if n < 0 {
      ScanDecimalOfPrintedNegative(n, tail);
    } else {
      var ds := NatDigits(n);
      assert DecimalString(n) == ds && IsDigit(ds[0]);
      DigitsValueOfNatDigits(n);
      ScanDecimalOfDigits(ds, tail, n);
    }
  }

  /**
   * Round trip of `printf("%d")` and `sscanf("%d")`: white space, then the
   * decimal text of `n`, then anything that does not continue the number,
   * scans back to `n`.
   */
  lemma ScanDecimalOfDecimalString(ws: string, n: int, tail: string)
    requires forall i :: 0 <= i < |ws| ==> IsSpace(ws[i])
    requires tail == [] || !IsDigit(tail[0])
    ensures ScanDecimal(ws + DecimalString(n) + tail) == Some(n)
  {
    var text := DecimalString(n) + tail;
    assert ws + DecimalString(n) + tail == ws + text;
    ScanDecimalOfPrinted(n, tail);
    assert text[0] == DecimalString(n)[0];
    ScanDecimalSkipsSpaces(ws, text);
  }

  /**
   * Round trip of `printf("%s")` and `sscanf("%s")` for a word without white
   * space or NUL: the scan ends at the white space or NUL that follows it.
   */
  lemma ScanTokenOfWord(ws: string, word: string, tail: string)
    requires forall i :: 0 <= i < |ws| ==> IsSpace(ws[i])
    requires word != [] && forall i :: 0 <= i < |word| ==> WordChar(word[i])
    requires tail == [] || !WordChar(tail[0])
    ensures ScanToken(ws + word + tail) == Some(word)
  {
    assert ws + word + tail == ws + (word + tail);
    DropWhileStopsAtBoundary(ws, word + tail, IsSpace);
    TakeWhileStopsAtBoundary(word, tail, WordChar);
  }

  /**
   * The index of the first line that starts with `prefix`: the line the
   * status readers stop at (`strncmp` test, then `break`).
   */
  function FindLine(lines: seq<string>, prefix: string): (r: Option<nat>)
    ensures r.Some? ==> r.value < |lines| && StartsWith(lines[r.value], prefix)
    ensures r.Some? ==> forall j :: 0 <= j < r.value ==> !StartsWith(lines[j], prefix)
    ensures r.None? ==> forall j :: 0 <= j < |lines| ==> !StartsWith(lines[j], prefix)
  {
    if lines == [] then None
    else if StartsWith(lines[0], prefix) then Some(0)
    else match FindLine(lines[1..], prefix)
      case None => None
      case Some(k) => Some(k + 1)
  }

  /** The scanning loops stop at the line FindLine finds. */
  lemma FindLineAt(lines: seq<string>, prefix: string, i: nat)
    requires i < |lines| && StartsWith(lines[i], prefix)
    requires forall j :: 0 <= j < i ==> !StartsWith(lines[j], prefix)
    ensures FindLine(lines, prefix) == Some(i)
  {
  }

  /**
   * FindLineAt for a file assembled around the line: the form the lemmas
   * that build a status file line by line use.
   */
  lemma FindLineAfter(before: seq<string>, line: string, after: seq<string>, prefix: string)
    requires forall j :: 0 <= j < |before| ==> !StartsWith(before[j], prefix)
    requires StartsWith(line, prefix)
    ensures FindLine(before + [line] + after, prefix) == Some(|before|)
  {
    var lines := before + [line] + after;
    assert lines[|before|] == line;
    assert forall j :: 0 <= j < |before| ==> lines[j] == before[j];
    FindLineAt(lines, prefix, |before|);
  }

  /** Lines after the first match never change what FindLine finds. */
  lemma {:induction false} FindLineIgnoresLaterLines(lines: seq<string>, later: seq<string>, prefix: string)
    requires FindLine(lines, prefix).Some?
    ensures FindLine(lines + later, prefix) == FindLine(lines, prefix)
  {
    assert (lines + later)[0] == lines[0];
    if !StartsWith(lines[0], prefix) {
      assert (lines + later)[1..] == lines[1..] + later;
      FindLineIgnoresLaterLines(lines[1..], later, prefix);
    }
  }
}
