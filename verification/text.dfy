/** The text operations the AI state serialisation is built from, with the
    behaviour of .NET's `Int32.ToString()`, `Int32.Parse(string)`,
    `String.Split(char)` and `String.Join(string, ...)` on the inputs that
    matter here. */
module Text {
  import opened Common

  predicate IsDigit(c: char)
  {
    '0' <= c <= '9'
  }

  predicate AllDigits(s: string)
  {
    forall i :: 0 <= i < |s| ==> IsDigit(s[i])
  }

  function DigitChar(d: nat): (c: char)
    requires d < 10
    ensures IsDigit(c) && (c as int) - ('0' as int) == d
  {
    (d + '0' as int) as char
  }

  function DigitValue(c: char): nat
    requires IsDigit(c)
  {
    (c as int) - ('0' as int)
  }

  /** Decimal digits of `n`, most significant first, without leading zeros. */
  function NatToString(n: nat): (s: string)
    ensures |s| >= 1 && AllDigits(s)
    decreases n
  {
    if n < 10 then [DigitChar(n)] else NatToString(n / 10) + [DigitChar(n % 10)]
  }

  /** The number a string of decimal digits denotes. */
  function DigitsValue(s: string): nat
    requires AllDigits(s)
  {
    if s == [] then 0 else DigitsValue(s[..|s| - 1]) * 10 + DigitValue(s[|s| - 1])
  }

  lemma {:induction false} DigitsValueOfNatToString(n: nat)
    ensures DigitsValue(NatToString(n)) == n
    decreases n
  {
    if n >= 10 {
      var s := NatToString(n);
      assert s[..|s| - 1] == NatToString(n / 10);
      DigitsValueOfNatToString(n / 10);
    }
  }

  /** `Int32.ToString()` in the invariant culture: a minus sign for negative
      values, then the decimal digits. */
  function IntToString(n: int): string
  {
    if n < 0 then "-" + NatToString(-n) else NatToString(n)
  }

  lemma IntToStringNonEmpty(n: int)
    ensures IntToString(n) != ""
  {
    var m: nat := if n < 0 then -n else n;
    assert |NatToString(m)| >= 1;
  }

  /** A printed integer holds only digits and a minus sign. */
  lemma IntToStringAvoids(n: int, c: char)
    requires !IsDigit(c) && c != '-'
    ensures c !in IntToString(n)
  {
    var m: nat := if n < 0 then -n else n;
    var digits := NatToString(m);
    assert forall i :: 0 <= i < |digits| ==> digits[i] != c;
  }

  /** The white-space characters `Int32.Parse` skips at either end. */
  predicate IsWhite(c: char)
  {
    c == '\t' || c == '\n' || c == '\U{B}' || c == '\U{C}' || c == '\r' || c == ' '
  }

  function TrimStart(s: string): (t: string)
    ensures |t| <= |s|
  {
    if s != [] && IsWhite(s[0]) then TrimStart(s[1..]) else s
  }

  function TrimEnd(s: string): (t: string)
    ensures |t| <= |s|
  {
    if s != [] && IsWhite(s[|s| - 1]) then TrimEnd(s[..|s| - 1]) else s
  }

  /** `Int32.Parse(s)`: optional white space, an optional sign, one or more
      decimal digits, optional white space, and a value in the 32-bit range;
      anything else is a format or overflow error, modelled as `None`. */
  function ParseInt(s: string): (r: Option<Int32>)
  {
    ParseSigned(TrimEnd(TrimStart(s)))
  }

  /** An optional sign, then one or more digits, in the 32-bit range. */
  function ParseSigned(t: string): (r: Option<Int32>)
  {
    if t == [] then None
    else
      var digits := if t[0] == '-' || t[0] == '+' then t[1..] else t;
      if digits == [] || !AllDigits(digits) then None
      else
        var value: int := DigitsValue(digits);
        var v := if t[0] == '-' then -value else value;
        if MinInt32 <= v <= MaxInt32 then Some(v) else None
  }

  lemma NoWhiteAtEnds(s: string)
    requires s != [] && !IsWhite(s[0]) && !IsWhite(s[|s| - 1])
    ensures TrimEnd(TrimStart(s)) == s
  {
  }

  lemma {:induction false} ParseSignedOfToString(n: Int32)
    ensures ParseSigned(IntToString(n)) == Some(n)
  {
    var m: nat := if n < 0 then -(n as int) else n;
    var digits := NatToString(m);
    DigitsValueOfNatToString(m);
    if n < 0 {
      var s := "-" + digits;
      assert s[0] == '-' && s[1..] == digits;
    } else {
      assert IsDigit(digits[0]);
    }
  }

  /** Printing a 32-bit integer and parsing it back gives the same value. */
  lemma {:induction false} ParseIntToString(n: Int32)
    ensures ParseInt(IntToString(n)) == Some(n)
  {
    var s := IntToString(n);
    var m: nat := if n < 0 then -(n as int) else n;
    var digits := NatToString(m);
    assert IsDigit(digits[0]) && IsDigit(digits[|digits| - 1]);
    assert s[|s| - 1] == digits[|digits| - 1];
    NoWhiteAtEnds(s);
    ParseSignedOfToString(n);
  }

  /** `s.Split(sep)`: the pieces between separators, always at least one,
      empty pieces kept. */
  function Split(s: string, sep: char): (r: seq<string>)
    ensures |r| >= 1
  {
    if s == [] then [""]
    else if s[0] == sep then [""] + Split(s[1..], sep)
    else
      var rest := Split(s[1..], sep);
      [[s[0]] + rest[0]] + rest[1..]
  }

  /** `String.Join(sep, parts)`: an empty list joins to the empty string. */
  function Join(parts: seq<string>, sep: char): string
  {
    if parts == [] then ""
    else if |parts| == 1 then parts[0]
    else parts[0] + [sep] + Join(parts[1..], sep)
  }

  lemma {:induction false} SplitWithoutSeparator(s: string, sep: char)
    requires sep !in s
    ensures Split(s, sep) == [s]
  {
    if s != [] {
      SplitWithoutSeparator(s[1..], sep);
      assert [s[0]] + s[1..] == s;
    }
  }

  lemma {:induction false} SplitAtFirstSeparator(a: string, sep: char, b: string)
    requires sep !in a
    ensures Split(a + [sep] + b, sep) == [a] + Split(b, sep)
  {
    if a == [] {
      assert a + [sep] + b == [sep] + b;
      assert ([sep] + b)[1..] == b;
    } else {
      var s := a + [sep] + b;
      assert s[1..] == a[1..] + [sep] + b;
      SplitAtFirstSeparator(a[1..], sep, b);
      assert [a[0]] + a[1..] == a;
    }
  }

  /** Splitting what `Join` produced gives back the parts, provided there is
      at least one part and no part holds the separator. */
  lemma {:induction false} SplitJoin(parts: seq<string>, sep: char)
    requires |parts| >= 1
    requires forall i :: 0 <= i < |parts| ==> sep !in parts[i]
    ensures Split(Join(parts, sep), sep) == parts
  {
    if |parts| == 1 {
      SplitWithoutSeparator(parts[0], sep);
    } else {
      SplitAtFirstSeparator(parts[0], sep, Join(parts[1..], sep));
      SplitJoin(parts[1..], sep);
      assert [parts[0]] + parts[1..] == parts;
    }
  }
}
