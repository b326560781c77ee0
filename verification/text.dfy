/** String helpers with JavaScript meaning: `String.prototype.split` on one
    character, decimal rendering of integers (template literals), decimal
    reading, `padStart(2, '0')` and the `substring` + `"..."` truncation. */
module Text {

  /** Number of occurrences of `c` in `s`. */
  function Count(s: string, c: char): nat {
    if |s| == 0 then 0 else (if s[0] == c then 1 else 0) + Count(s[1..], c)
  }

  /** Glues `parts` back together with `sep` between neighbours; the inverse
      of `Split`. */
  function Join(parts: seq<string>, sep: char): string {
    if |parts| == 0 then ""
    else if |parts| == 1 then parts[0]
    else parts[0] + [sep] + Join(parts[1..], sep)
  }

  /** `s.split(sep)` for a one-character separator: the pieces between
      separators, empty pieces included, and `[""]` for the empty string. */
  function Split(s: string, sep: char): (parts: seq<string>)
    ensures |parts| == Count(s, sep) + 1
    ensures forall i :: 0 <= i < |parts| ==> sep !in parts[i]
    ensures Join(parts, sep) == s
  {
    if |s| == 0 then [""]
    else
      var rest := Split(s[1..], sep);
      if s[0] == sep then
        assert s == [sep] + s[1..];
        [""] + rest
      else
        var parts := [[s[0]] + rest[0]] + rest[1..];
        assert parts[1..] == rest[1..];
        assert s == [s[0]] + s[1..];
        parts
  }

  /** `Split` undoes `Join` whenever no piece holds the separator. */
  lemma {:induction false} SplitJoin(parts: seq<string>, sep: char)
    requires |parts| >= 1
    requires forall i :: 0 <= i < |parts| ==> sep !in parts[i]
    ensures Split(Join(parts, sep), sep) == parts
  {
    if |parts| == 1 {
      NoSeparatorSplit(parts[0], sep);
    } else {
      var tail := parts[1..];
      assert forall i :: 0 <= i < |tail| ==> sep !in tail[i] by {
        forall i | 0 <= i < |tail| ensures sep !in tail[i] {
          assert tail[i] == parts[i + 1];
        }
      }
      SplitJoin(tail, sep);
      SplitAfterPiece(parts[0], Join(tail, sep), sep);
      assert parts == [parts[0]] + tail;
    }
  }

  /** A string without the separator splits into itself. */
  lemma {:induction false} NoSeparatorSplit(s: string, sep: char)
    requires sep !in s
    ensures Split(s, sep) == [s]
  {
    if |s| > 0 {
      assert s == [s[0]] + s[1..];
      NoSeparatorSplit(s[1..], sep);
    }
  }

  /** Splitting `p + [sep] + t` with `p` separator-free yields `p` in front of
      the pieces of `t`. */
  lemma {:induction false} SplitAfterPiece(p: string, t: string, sep: char)
    requires sep !in p
    ensures Split(p + [sep] + t, sep) == [p] + Split(t, sep)
  {
    if |p| == 0 {
      assert p + [sep] + t == [sep] + t;
      assert ([sep] + t)[1..] == t;
    } else {
      assert p == [p[0]] + p[1..];
      SplitAfterPiece(p[1..], t, sep);
      var s := p + [sep] + t;
      assert s[0] == p[0];
      assert s[1..] == p[1..] + [sep] + t;
      var rest := Split(s[1..], sep);
      assert rest == [p[1..]] + Split(t, sep);
      assert Split(s, sep) == [[p[0]] + rest[0]] + rest[1..];
    }
  }

  predicate IsDigit(c: char) {
    '0' <= c <= '9'
  }

  function DigitChar(d: nat): (c: char)
    requires d < 10
    ensures IsDigit(c)
  {
    ['0', '1', '2', '3', '4', '5', '6', '7', '8', '9'][d]
  }

  function DigitValue(c: char): (d: nat)
    requires IsDigit(c)
    ensures d < 10
  {
    (c as int - '0' as int) as nat
  }

  lemma DigitRoundTrip(d: nat)
    requires d < 10
    ensures DigitValue(DigitChar(d)) == d
  {
  }

  predicate AllDigits(s: string) {
    forall i :: 0 <= i < |s| ==> IsDigit(s[i])
  }

  /** The decimal numeral of `n`, without leading zeros: `${n}` for a
      non-negative integer. */
  function Decimal(n: nat): (s: string)
    ensures |s| >= 1
    ensures AllDigits(s)
    ensures n < 10 <==> |s| == 1
    ensures |s| > 1 ==> s[0] != '0'
  {
    if n < 10 then [DigitChar(n)]
    else
      var prefix := Decimal(n / 10);
      var s := prefix + [DigitChar(n % 10)];
      assert s[0] == prefix[0];
      s
  }

  /** `${i}` for any integer: a minus sign in front of the magnitude when
      negative. */
  function IntString(i: int): (s: string)
    ensures i >= 0 ==> |s| >= 1 && AllDigits(s) && ParseDigits(s) == i
    ensures i < 0 ==> |s| >= 2 && s[0] == '-' && AllDigits(s[1..]) && ParseDigits(s[1..]) == -i
  {
    if i >= 0 then
      DecimalRoundTrip(i);
      Decimal(i)
    else
      DecimalRoundTrip(-i);
      var s := "-" + Decimal(-i);
      assert s[1..] == Decimal(-i);
      s
  }

  /** The value of a numeral (the reading side of `Decimal`). */
  function ParseDigits(s: string): nat
    requires AllDigits(s)
  {
    if |s| == 0 then 0
    else ParseDigits(s[..|s| - 1]) * 10 + DigitValue(s[|s| - 1])
  }

  /** Reading back a rendered numeral gives the number. */
  lemma {:induction false} DecimalRoundTrip(n: nat)
    ensures ParseDigits(Decimal(n)) == n
  {
    var s := Decimal(n);
    if n < 10 {
      DigitRoundTrip(n);
    } else {
      var prefix := Decimal(n / 10);
      assert s == prefix + [DigitChar(n % 10)];
      assert s[..|s| - 1] == prefix;
      DecimalRoundTrip(n / 10);
      DigitRoundTrip(n % 10);
    }
  }

  /** A leading zero does not change the value of a numeral. */
  lemma {:induction false} LeadingZero(s: string)
    requires AllDigits(s)
    ensures AllDigits("0" + s)
    ensures ParseDigits("0" + s) == ParseDigits(s)
  {
    var z := "0" + s;
    assert AllDigits(z) by {
      forall i | 0 <= i < |z| ensures IsDigit(z[i]) {
        if i > 0 { assert z[i] == s[i - 1]; }
      }
    }
    if |s| > 0 {
      assert z[..|z| - 1] == "0" + s[..|s| - 1];
      assert z[|z| - 1] == s[|s| - 1];
      LeadingZero(s[..|s| - 1]);
    } else {
      assert DigitValue('0') == 0;
      assert z[..|z| - 1] == "";
    }
  }

  /** The longest prefix of `s` made of digits. */
  function DigitPrefix(s: string): (p: string)
    ensures AllDigits(p)
    ensures |p| <= |s| && p == s[..|p|]
    ensures |p| < |s| ==> !IsDigit(s[|p|])
  {
    if |s| == 0 || !IsDigit(s[0]) then ""
    else
      var rest := DigitPrefix(s[1..]);
      var p := [s[0]] + rest;
      assert AllDigits(p) by {
        forall i | 0 <= i < |p| ensures IsDigit(p[i]) {
          if i > 0 { assert p[i] == rest[i - 1]; }
        }
      }
      p
  }

  /** The value of the number at the start of `s` (0 when there is none). */
  function LeadingNumber(s: string): nat {
    ParseDigits(DigitPrefix(s))
  }

  /** A numeral followed by a non-digit is read back whole. */
  lemma {:induction false} DigitPrefixOfNumeral(d: string, t: string)
    requires AllDigits(d)
    requires |t| > 0 ==> !IsDigit(t[0])
    ensures DigitPrefix(d + t) == d
  {
    if |d| > 0 {
      assert (d + t)[0] == d[0];
      assert (d + t)[1..] == d[1..] + t;
      DigitPrefixOfNumeral(d[1..], t);
      assert [d[0]] + d[1..] == d;
    } else {
      assert d + t == t;
    }
  }

  /** `LeadingNumber` inverts `Decimal` when what follows is not a digit. */
  lemma LeadingNumberOfDecimal(n: nat, t: string)
    requires |t| > 0 ==> !IsDigit(t[0])
    ensures LeadingNumber(Decimal(n) + t) == n
  {
    DigitPrefixOfNumeral(Decimal(n), t);
    DecimalRoundTrip(n);
  }

  /** `s.padStart(2, '0')`: a one-character (or empty) string gets zeros in
      front until it is two characters long. */
  function PadStart2(s: string): (r: string)
    ensures |s| >= 2 ==> r == s
    ensures |r| >= 2
    ensures r[|r| - |s|..] == s
    ensures forall i :: 0 <= i < |r| - |s| ==> r[i] == '0'
  {
    if |s| >= 2 then s
    else if |s| == 1 then "0" + s
    else "00"
  }

  /** `s.length > max ? s.substring(0, max) + "..." : s`. */
  function Truncate(s: string, max: nat): (r: string)
    ensures |s| <= max ==> r == s
    ensures |s| > max ==> |r| == max + 3 && r[..max] == s[..max] && r[max..] == "..."
    ensures |r| <= max + 3
  {
    if |s| > max then s[..max] + "..." else s
  }

  /** Truncating twice is the same as truncating once. */
  lemma TruncateIdempotent(s: string, max: nat)
    ensures Truncate(Truncate(s, max), max) == Truncate(s, max)
  {
    var r := Truncate(s, max);
    if |s| > max {
      assert r[..max] + "..." == r;
    }
  }
}
