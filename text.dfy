/** Text conversions the application uses: integer to decimal string
    (`Number.prototype.toString`), `String.prototype.padStart`, `parseInt(s, 10)`,
    and splitting a formatted string back into its fields. The parsing side is
    the partner against which every formatter of the application is proved. */
module Text {
  import opened Wrappers

  predicate IsDigit(c: char) {
    '0' <= c <= '9'
  }

  predicate IsDigits(s: string) {
    forall i :: 0 <= i < |s| ==> IsDigit(s[i])
  }

  /** Decimal digits with no leading zero (a lone "0" for zero). */
  predicate IsCanonical(s: string) {
    IsDigits(s) && |s| >= 1 && (s[0] == '0' ==> |s| == 1)
  }

  function DigitChar(d: nat): (c: char)
    requires d < 10
    ensures IsDigit(c)
  {
    ('0' as int + d) as char
  }

  function DigitValue(c: char): (d: nat)
    requires IsDigit(c)
    ensures d < 10
  {
    c as int - '0' as int
  }

  /** The decimal representation of `n`. */
  function Digits(n: nat): (r: string)
    ensures IsCanonical(r)
    decreases n
  {
    if n < 10 then [DigitChar(n)] else Digits(n / 10) + [DigitChar(n % 10)]
  }

  /** The number a string of decimal digits denotes (leading zeros allowed). */
  function Value(s: string): nat
    requires IsDigits(s)
    decreases |s|
  {
    if s == [] then 0 else Value(s[..|s| - 1]) * 10 + DigitValue(s[|s| - 1])
  }

  lemma {:induction false} ValueOfDigits(n: nat)
    ensures Value(Digits(n)) == n
    decreases n
  {
    if n >= 10 {
      var d := Digits(n);
      assert d[..|d| - 1] == Digits(n / 10);
      ValueOfDigits(n / 10);
    }
  }

  /** Leading zeros do not change the value of a digit string. */
  lemma {:induction false} ValueZeroPrefix(z: string, s: string)
    requires IsDigits(z) && IsDigits(s)
    requires forall i :: 0 <= i < |z| ==> z[i] == '0'
    ensures IsDigits(z + s) && Value(z + s) == Value(s)
    decreases |s|
  {
    if s == [] {
      assert z + s == z;
      ValueOfZeros(z);
    } else {
      assert (z + s)[..|z + s| - 1] == z + s[..|s| - 1];
      ValueZeroPrefix(z, s[..|s| - 1]);
    }
  }

  lemma {:induction false} ValueOfZeros(z: string)
    requires IsDigits(z)
    requires forall i :: 0 <= i < |z| ==> z[i] == '0'
    ensures Value(z) == 0
    decreases |z|
  {
    if z != [] {
      ValueOfZeros(z[..|z| - 1]);
    }
  }

  /** `n.toString()` for an integer `n`. */
  function IntToString(n: int): (r: string)
    ensures n >= 0 ==> IsCanonical(r) && Value(r) == n
    ensures n < 0 ==> |r| >= 2 && r[0] == '-' && IsCanonical(r[1..]) && Value(r[1..]) == -n
  {
    if n < 0 then
      var d := Digits(-n);
      ValueOfDigits(-n);
      assert ("-" + d)[1..] == d;
      "-" + d
    else
      ValueOfDigits(n);
      Digits(n)
  }

  /** A number below 100 is written with at most two digits. */
  lemma ShortNumber(n: int)
    requires 0 <= n < 100
    ensures |IntToString(n)| <= 2
  {
    assert IntToString(n) == Digits(n);
    if n >= 10 {
      assert Digits(n) == Digits(n / 10) + [DigitChar(n % 10)];
      assert Digits(n / 10) == [DigitChar(n / 10)];
    }
  }

  /** `s.padStart(width, fill)`: `fill` repeated in front of `s` up to `width`
      characters; `s` itself when it is already that long. */
  function PadStart(s: string, width: nat, fill: char): (r: string)
    ensures |r| == if |s| >= width then |s| else width
    ensures r[|r| - |s|..] == s
    ensures forall i :: 0 <= i < |r| - |s| ==> r[i] == fill
    decreases width - |s|
  {
    if |s| >= width then s
    else
      var r := PadStart([fill] + s, width, fill);
      assert r[|r| - |s| - 1..] == [fill] + s;
      assert r[|r| - |s|..] == r[|r| - |s| - 1..][1..];
      assert r[|r| - |s| - 1] == r[|r| - |s| - 1..][0];
      r
  }

  /** A digit string padded with zeros keeps its value. */
  lemma ValueOfPadded(s: string, width: nat)
    requires IsDigits(s)
    ensures IsDigits(PadStart(s, width, '0'))
    ensures Value(PadStart(s, width, '0')) == Value(s)
  {
    var r := PadStart(s, width, '0');
    var z := r[..|r| - |s|];
    assert r == z + s;
    ValueZeroPrefix(z, s);
  }

  /** The white space `parseInt` skips before the number. */
  predicate IsSpace(c: char) {
    c == ' ' || c == '\t' || c == '\n' || c == '\r' || c == '\U{000B}' || c == '\U{000C}'
    || c == '\U{00A0}' || c == '\U{FEFF}' || c == '\U{2028}' || c == '\U{2029}'
    || c == '\U{1680}' || ('\U{2000}' <= c <= '\U{200A}') || c == '\U{202F}' || c == '\U{205F}'
    || c == '\U{3000}'
  }

  function TrimStart(s: string): (r: string)
    ensures |r| <= |s| && r == s[|s| - |r|..]
    ensures r == [] || !IsSpace(r[0])
    decreases |s|
  {
    if s != [] && IsSpace(s[0]) then TrimStart(s[1..]) else s
  }

  /** The longest prefix of `s` made of decimal digits. */
  function DigitPrefix(s: string): (r: string)
    ensures IsDigits(r) && |r| <= |s| && r == s[..|r|]
    ensures |r| < |s| ==> !IsDigit(s[|r|])
    decreases |s|
  {
    if s != [] && IsDigit(s[0]) then [s[0]] + DigitPrefix(s[1..]) else []
  }

  lemma {:induction false} DigitPrefixOfDigits(d: string, rest: string)
    requires IsDigits(d)
    requires rest == [] || !IsDigit(rest[0])
    ensures DigitPrefix(d + rest) == d
    decreases |d|
  {
    if d != [] {
      assert (d + rest)[1..] == d[1..] + rest;
      DigitPrefixOfDigits(d[1..], rest);
    } else {
      assert d + rest == rest;
    }
  }

  /** `parseInt(s, 10)`: skips leading white space, reads an optional sign and
      the longest run of digits after it and ignores whatever follows; None is
      NaN (no digit at all). */
  function ParseInt(s: string): (r: Option<int>)
    ensures r.None? <==> DigitPrefix(Unsigned(TrimStart(s))) == []
  {
    var t := TrimStart(s);
    var d := DigitPrefix(Unsigned(t));
    var v: int := Value(d);
    if d == [] then None
    else if t[0] == '-' then Some(-v)
    else Some(v)
  }

  /** What follows an optional leading sign. */
  function Unsigned(t: string): (u: string)
    ensures |u| <= |t|
  {
    if t != [] && (t[0] == '-' || t[0] == '+') then t[1..] else t
  }

  /** `parseInt` reads back what `toString` writes. */
  lemma ParseIntOfToString(n: int)
    ensures ParseInt(IntToString(n)) == Some(n)
  {
    var s := IntToString(n);
    assert TrimStart(s) == s;
    if n < 0 {
      assert Unsigned(s) == s[1..];
      DigitPrefixOfDigits(s[1..], []);
      assert s[1..] + [] == s[1..];
    } else {
      assert Unsigned(s) == s;
      DigitPrefixOfDigits(s, []);
      assert s + [] == s;
    }
  }

  /** The pieces of `s` between occurrences of `sep` (`s.split(sep)`). */
  function Split(s: string, sep: char): (r: seq<string>)
    ensures |r| >= 1
    decreases |s|
  {
    if s == [] then [""]
    else if s[0] == sep then [""] + Split(s[1..], sep)
    else
      var rest := Split(s[1..], sep);
      [[s[0]] + rest[0]] + rest[1..]
  }

  lemma {:induction false} SplitNoSeparator(a: string, sep: char)
    requires sep !in a
    ensures Split(a, sep) == [a]
    decreases |a|
  {
    if a != [] {
      assert a[0] != sep;
      SplitNoSeparator(a[1..], sep);
      assert [a[0]] + a[1..] == a;
    }
  }

  lemma {:induction false} SplitJoin(a: string, sep: char, b: string)
    requires sep !in a
    ensures Split(a + [sep] + b, sep) == [a] + Split(b, sep)
    decreases |a|
  {
    if a == [] {
      assert a + [sep] + b == [sep] + b;
      assert ([sep] + b)[1..] == b;
    } else {
      var s := a + [sep] + b;
      assert s[0] == a[0] && a[0] != sep;
      assert s[1..] == a[1..] + [sep] + b;
      SplitJoin(a[1..], sep, b);
      assert [a[0]] + a[1..] == a;
    }
  }

  lemma DigitsHaveNoSeparator(d: string, sep: char)
    requires IsDigits(d) && !IsDigit(sep)
    ensures sep !in d
  {
    assert forall i :: 0 <= i < |d| ==> d[i] != sep;
  }

  /** The numbers of a colon-separated clock reading such as "05:07" or
      "01:02:03": None unless every field is a non-empty run of digits. */
  function ParseClock(s: string): (r: Option<seq<nat>>)
    ensures r.Some? ==> |r.value| == |Split(s, ':')|
  {
    ParseDigitFields(Split(s, ':'))
  }

  function ParseDigitFields(fields: seq<string>): (r: Option<seq<nat>>)
    ensures r.Some? ==> |r.value| == |fields|
  {
    if fields == [] then Some([])
    else if |fields[0]| > 0 && IsDigits(fields[0]) then
      match ParseDigitFields(fields[1..])
      case Some(rest) => Some([Value(fields[0])] + rest)
      case None => None
    else None
  }

  lemma ParseDigitFieldsCons(f: string, rest: seq<string>)
    requires |f| > 0 && IsDigits(f) && ParseDigitFields(rest).Some?
    ensures ParseDigitFields([f] + rest) == Some([Value(f)] + ParseDigitFields(rest).value)
  {
    assert ([f] + rest)[1..] == rest;
  }

  /** Two digit fields joined by ':' read back as their two values. */
  lemma ParseClock2(a: string, b: string)
    requires |a| > 0 && IsDigits(a) && |b| > 0 && IsDigits(b)
    ensures Split(a + ":" + b, ':') == [a, b]
    ensures ParseClock(a + ":" + b) == Some([Value(a), Value(b)])
  {
    DigitsHaveNoSeparator(a, ':');
    DigitsHaveNoSeparator(b, ':');
    assert a + ":" + b == a + [':'] + b;
    SplitTwo(a, ':', b);
    DigitFields2(a, b);
  }

  /** Three digit fields joined by ':' read back as their three values. */
  lemma ParseClock3(a: string, b: string, c: string)
    requires |a| > 0 && IsDigits(a) && |b| > 0 && IsDigits(b) && |c| > 0 && IsDigits(c)
    ensures Split(a + ":" + b + ":" + c, ':') == [a, b, c]
    ensures ParseClock(a + ":" + b + ":" + c) == Some([Value(a), Value(b), Value(c)])
  {
    DigitsHaveNoSeparator(a, ':');
    DigitsHaveNoSeparator(b, ':');
    DigitsHaveNoSeparator(c, ':');
    assert a + ":" + b + ":" + c == a + [':'] + (b + [':'] + c);
    SplitJoin(a, ':', b + [':'] + c);
    SplitTwo(b, ':', c);
    assert [a] + [b, c] == [a, b, c];
    DigitFields2(b, c);
    ParseDigitFieldsCons(a, [b, c]);
    assert [Value(a)] + [Value(b), Value(c)] == [Value(a), Value(b), Value(c)];
  }

  lemma DigitFields2(a: string, b: string)
    requires |a| > 0 && IsDigits(a) && |b| > 0 && IsDigits(b)
    ensures ParseDigitFields([a, b]) == Some([Value(a), Value(b)])
  {
    assert ParseDigitFields([b]) == Some([Value(b)]) by {
      ParseDigitFieldsCons(b, []);
      assert [b] + [] == [b];
      assert [Value(b)] + [] == [Value(b)];
    }
    ParseDigitFieldsCons(a, [b]);
    assert [a] + [b] == [a, b];
    assert [Value(a)] + [Value(b)] == [Value(a), Value(b)];
  }

  /** The numbers of a reading such as "3m 7s": space-separated fields, each a
      canonical (unpadded) number followed by its unit letter from `units`. */
  function ParseUnits(s: string, units: seq<char>): (r: Option<seq<nat>>)
    ensures r.Some? ==> |r.value| == |units|
  {
    ParseUnitFields(Split(s, ' '), units)
  }

  function ParseUnitFields(fields: seq<string>, units: seq<char>): (r: Option<seq<nat>>)
    ensures r.Some? ==> |r.value| == |units| == |fields|
  {
    if fields == [] || units == [] then
      if fields == [] && units == [] then Some([]) else None
    else
      var f := fields[0];
      if |f| >= 2 && f[|f| - 1] == units[0] && IsCanonical(f[..|f| - 1]) then
        match ParseUnitFields(fields[1..], units[1..])
        case Some(rest) => Some([Value(f[..|f| - 1])] + rest)
        case None => None
      else None
  }

  /** "<m>m <s>s" reads back as [m, s]. */
  lemma ParseMinutesSeconds(m: nat, s: nat)
    ensures ParseUnits(Digits(m) + "m " + Digits(s) + "s", ['m', 's']) == Some([m, s])
  {
    var a, b := Digits(m) + "m", Digits(s) + "s";
    assert Digits(m) + "m " + Digits(s) + "s" == a + [' '] + b;
    UnitField(Digits(m), 'm', ' ');
    UnitField(Digits(s), 's', ' ');
    SplitTwo(a, ' ', b);
    ParseUnitPair(a, b, 'm', 's');
    ValueOfDigits(m);
    ValueOfDigits(s);
  }

  /** A canonical number followed by a unit letter: the letter is last, the
      number is what precedes it, and no other separator occurs. */
  lemma UnitField(d: string, unit: char, sep: char)
    requires IsCanonical(d) && unit != sep && !IsDigit(sep)
    ensures |d + [unit]| >= 2 && (d + [unit])[|d|] == unit && (d + [unit])[..|d|] == d
    ensures sep !in d + [unit]
  {
    DigitsHaveNoSeparator(d, sep);
  }

  /** Two separator-free pieces joined by the separator split back into them. */
  lemma SplitTwo(a: string, sep: char, b: string)
    requires sep !in a && sep !in b
    ensures Split(a + [sep] + b, sep) == [a, b]
  {
    SplitJoin(a, sep, b);
    SplitNoSeparator(b, sep);
    assert [a] + [b] == [a, b];
  }

  /** Two unit fields read back as the numbers before their unit letters. */
  lemma ParseUnitPair(a: string, b: string, u: char, v: char)
    requires |a| >= 2 && a[|a| - 1] == u && IsCanonical(a[..|a| - 1])
    requires |b| >= 2 && b[|b| - 1] == v && IsCanonical(b[..|b| - 1])
    ensures ParseUnitFields([a, b], [u, v]) == Some([Value(a[..|a| - 1]), Value(b[..|b| - 1])])
  {
    assert ParseUnitFields([b], [v]) == Some([Value(b[..|b| - 1])]) by {
      assert [b][1..] == [] && [v][1..] == [];
      assert ParseUnitFields([], []) == Some([]);
      assert [Value(b[..|b| - 1])] + [] == [Value(b[..|b| - 1])];
    }
    assert [a, b][1..] == [b] && [u, v][1..] == [v];
    assert [Value(a[..|a| - 1])] + [Value(b[..|b| - 1])] == [Value(a[..|a| - 1]), Value(b[..|b| - 1])];
  }
}
