/** How the admin pages turn numbers into text: Python's `str(int)`, the
    two-place rendering of a Decimal column, the `,.2f` format with thousands
    separators, and `" | ".join(parts)`. */
module Text {

  predicate IsDigit(c: char)
  {
    '0' <= c <= '9'
  }

  predicate AllDigits(s: string)
  {
    forall i :: 0 <= i < |s| ==> IsDigit(s[i])
  }

  function DigitChar(d: nat): (c: char)
    requires d < 10
    ensures IsDigit(c) && c as int - '0' as int == d
  {
    ('0' as int + d) as char
  }

  /** `str(n)` for a non-negative int: decimal digits, no leading zero. */
  function NatText(n: nat): (s: string)
    ensures 1 <= |s| && AllDigits(s)
    ensures s[0] == '0' ==> n == 0
    ensures n < 10 <==> |s| == 1
  {
    if n < 10 then [DigitChar(n)] else NatText(n / 10) + [DigitChar(n % 10)]
  }

  /** The value a string of decimal digits denotes. */
  function ParseDigits(s: string): nat
    requires AllDigits(s)
  {
    if s == [] then 0 else ParseDigits(s[..|s| - 1]) * 10 + (s[|s| - 1] as int - '0' as int)
  }

  /** Reading the rendered digits back gives the number: `int(str(n)) == n`. */
  lemma {:induction false} ParseNatText(n: nat)
    ensures ParseDigits(NatText(n)) == n
  {
    if n >= 10 {
      var s := NatText(n);
      assert s[..|s| - 1] == NatText(n / 10);
      ParseNatText(n / 10);
    }
  }

  /** Two digits, zero padded: the fractional part of a two-place decimal. */
  function Pad2(n: nat): (s: string)
    requires n < 100
    ensures |s| == 2 && AllDigits(s) && ParseDigits(s) == n
  {
    ParseNatText(n);
    if n < 10 then (assert ParseDigits("0" + NatText(n)[..0]) == 0; ['0'] + NatText(n)) else NatText(n)
  }

  /** Three digits, zero padded: one thousands group. */
  function Pad3(n: nat): (s: string)
    requires n < 1000
    ensures |s| == 3 && AllDigits(s)
  {
    if n < 10 then "00" + NatText(n)
    else if n < 100 then (assert |NatText(n / 10)| == 1; "0" + NatText(n))
    else (assert |NatText(n / 10 / 10)| == 1; NatText(n))
  }

  /** `str(n)` for any int. */
  function IntText(n: int): (s: string)
    ensures 1 <= |s|
    ensures n >= 0 ==> s == NatText(n)
    ensures n < 0 ==> s == "-" + NatText(-n)
  {
    if n < 0 then "-" + NatText(-n) else NatText(n)
  }

  /** The integer with digits grouped in threes by commas (the `,` format flag). */
  function GroupedText(n: nat): (s: string)
    ensures 1 <= |s|
  {
    if n < 1000 then NatText(n) else GroupedText(n / 1000) + "," + Pad3(n % 1000)
  }

  function RemoveCommas(s: string): (r: string)
    ensures |r| <= |s|
  {
    if s == [] then [] else (if s[0] == ',' then [] else [s[0]]) + RemoveCommas(s[1..])
  }

  lemma {:induction false} RemoveCommasAppend(a: string, b: string)
    ensures RemoveCommas(a + b) == RemoveCommas(a) + RemoveCommas(b)
  {
    if a == [] {
      assert a + b == b;
    } else {
      assert (a + b)[1..] == a[1..] + b;
      RemoveCommasAppend(a[1..], b);
    }
  }

  lemma {:induction false} RemoveCommasDigits(s: string)
    requires AllDigits(s)
    ensures RemoveCommas(s) == s
  {
    if s != [] {
      RemoveCommasDigits(s[1..]);
    }
  }

  /** The last digit of a number with two or more digits comes last in its text. */
  lemma NatTextSnoc(m: nat)
    requires m >= 10
    ensures NatText(m) == NatText(m / 10) + [DigitChar(m % 10)]
  {
  }

  /** The three digits `Pad3` writes, most significant first. */
  lemma Pad3Digits(r: nat)
    requires r < 1000
    ensures Pad3(r) == [DigitChar(r / 100), DigitChar(r / 10 % 10), DigitChar(r % 10)]
  {
    if r >= 100 {
      NatTextSnoc(r);
      NatTextSnoc(r / 10);
      assert r / 10 / 10 == r / 100;
    } else if r >= 10 {
      NatTextSnoc(r);
    }
  }

  /** Dividing q * 1000 + r by ten three times peels off the digits of r. */
  lemma ThousandsDivision(q: nat, r: nat, n: nat, a: nat, b: nat)
    requires r < 1000 && n == q * 1000 + r && a == q * 100 + r / 10 && b == q * 10 + r / 100
    ensures n / 10 == a && n % 10 == r % 10
    ensures a / 10 == b && a % 10 == r / 10 % 10
    ensures b / 10 == q && b % 10 == r / 100
  {
  }

  /** Rendering a number with at least four digits splits off its last three. */
  lemma NatTextSplit(q: nat, r: nat)
    requires 1 <= q && r < 1000
    ensures NatText(q * 1000 + r) == NatText(q) + Pad3(r)
  {
    var n := q * 1000 + r;
    var a := q * 100 + r / 10;
    var b := q * 10 + r / 100;
    ThousandsDivision(q, r, n, a, b);
    NatTextSnoc(b);
    NatTextSnoc(a);
    NatTextSnoc(n);
    Pad3Digits(r);
  }

  /** Removing the thousands separators gives the plain rendering back. */
  lemma {:induction false} UngroupGroupedText(n: nat)
    ensures RemoveCommas(GroupedText(n)) == NatText(n)
  {
    if n < 1000 {
      RemoveCommasDigits(NatText(n));
    } else {
      var q, r := n / 1000, n % 1000;
      UngroupGroupedText(q);
      RemoveCommasAppend(GroupedText(q) + ",", Pad3(r));
      RemoveCommasAppend(GroupedText(q), ",");
      RemoveCommasDigits(Pad3(r));
      NatTextSplit(q, r);
      assert n == q * 1000 + r;
    }
  }

  /** Round half to even at two places, as Decimal does by default: the
      result counts hundredths. */
  function HundredthsHalfEven(x: real): (h: int)
    ensures (h - 1) as real / 100.0 < x < (h + 1) as real / 100.0 || x == h as real / 100.0
  {
    var scaled := x * 100.0;
    var f := scaled.Floor;
    var frac := scaled - f as real;
    if frac < 0.5 then f
    else if frac > 0.5 then f + 1
    else if f % 2 == 0 then f else f + 1
  }

  /** A value already at two places is rendered as it is. */
  lemma TwoPlaceValueUnrounded(h: int)
    ensures HundredthsHalfEven(h as real / 100.0) == h
  {
    assert (h as real / 100.0) * 100.0 == h as real;
  }

  /** `str(d)` of a Decimal with exactly two places holding h hundredths. */
  function CentsText(h: int): (s: string)
  {
    var m := if h < 0 then -h else h;
    (if h < 0 then "-" else "") + NatText(m / 100) + "." + Pad2(m % 100)
  }

  /** `f"{d:,.2f}"` of a Decimal: round to hundredths, then group. */
  function GroupedTwoPlaces(x: real): string
  {
    GroupedCents(HundredthsHalfEven(x))
  }

  /** h hundredths with the integer part grouped in threes. */
  function GroupedCents(h: int): string
  {
    var m := if h < 0 then -h else h;
    (if h < 0 then "-" else "") + GroupedText(m / 100) + "." + Pad2(m % 100)
  }

  /** The digits of a rendered two-place value read back as its hundredths. */
  lemma CentsTextDigits(h: nat)
    ensures var s := CentsText(h);
      s == NatText(h / 100) + "." + Pad2(h % 100)
      && ParseDigits(NatText(h / 100)) * 100 + ParseDigits(Pad2(h % 100)) == h
  {
    ParseNatText(h / 100);
  }

  /** Without its commas, `,.2f` is the plain two-place rendering. */
  lemma GroupedCentsUngrouped(h: int)
    ensures RemoveCommas(GroupedCents(h)) == CentsText(h)
  {
    var m := if h < 0 then -h else h;
    var sign: string := if h < 0 then "-" else "";
    UngroupGroupedText(m / 100);
    RemoveCommasAppend(sign + GroupedText(m / 100) + ".", Pad2(m % 100));
    RemoveCommasAppend(sign + GroupedText(m / 100), ".");
    RemoveCommasAppend(sign, GroupedText(m / 100));
    RemoveCommasDigits(Pad2(m % 100));
    assert RemoveCommas(sign) == sign;
    assert RemoveCommas(".") == ".";
  }

  /** `sep.join(parts)`. */
  function Join(parts: seq<string>, sep: string): (s: string)
  {
    if |parts| == 0 then "" else if |parts| == 1 then parts[0] else parts[0] + sep + Join(parts[1..], sep)
  }

  function CountChar(s: string, c: char): nat
  {
    if s == [] then 0 else (if s[0] == c then 1 else 0) + CountChar(s[1..], c)
  }

  lemma {:induction false} CountCharAppend(a: string, b: string, c: char)
    ensures CountChar(a + b, c) == CountChar(a, c) + CountChar(b, c)
  {
    if a == [] {
      assert a + b == b;
    } else {
      assert (a + b)[1..] == a[1..] + b;
      CountCharAppend(a[1..], b, c);
    }
  }

  /** Joining n parts that hold no `|` with `" | "` yields exactly n - 1 bars:
      one separator between neighbours and none at either end. */
  lemma {:induction false} JoinBarCount(parts: seq<string>)
    requires |parts| >= 1
    requires forall i :: 0 <= i < |parts| ==> CountChar(parts[i], '|') == 0
    ensures CountChar(Join(parts, " | "), '|') == |parts| - 1
  {
    if |parts| > 1 {
      JoinBarCount(parts[1..]);
      CountCharAppend(parts[0] + " | ", Join(parts[1..], " | "), '|');
      CountCharAppend(parts[0], " | ", '|');
      assert CountChar(" | ", '|') == 1;
    }
  }

  /** The joined text starts with the first part and ends with the last. */
  lemma {:induction false} JoinEnds(parts: seq<string>, sep: string)
    requires |parts| >= 1
    ensures |Join(parts, sep)| >= |parts[0]| && Join(parts, sep)[..|parts[0]|] == parts[0]
    ensures |Join(parts, sep)| >= |parts[|parts| - 1]|
    ensures Join(parts, sep)[|Join(parts, sep)| - |parts[|parts| - 1]|..] == parts[|parts| - 1]
  {
    if |parts| > 1 {
      JoinEnds(parts[1..], sep);
      var rest := Join(parts[1..], sep);
      assert Join(parts, sep) == parts[0] + sep + rest;
      assert parts[1..][|parts[1..]| - 1] == parts[|parts| - 1];
    }
  }

  predicate OccursAt(s: string, t: string, i: int)
  {
    0 <= i <= |s| - |t| && s[i..i + |t|] == t
  }

  ghost predicate Contains(s: string, t: string)
  {
    exists i :: OccursAt(s, t, i)
  }
}
