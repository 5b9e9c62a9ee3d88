/** String helpers shared by the three handlers: `split(c)[0]`, code-point order,
    decimal printing of integers and JavaScript's `parseInt` on decimal input. */
module Text {
  import opened Outcomes

  // ---------------------------------------------------------------------------
  // s.split(c)[0]
  // ---------------------------------------------------------------------------

  /** The part of `s` before the first `c`, which is all of `s` when `c` does not occur:
      JavaScript's `s.split(c)[0]`. */
  function BeforeFirst(s: string, c: char): (r: string)
    ensures r <= s
    ensures c !in r
    ensures r == s || s[|r|] == c
  {
    if s == [] then []
    else if s[0] == c then []
    else [s[0]] + BeforeFirst(s[1..], c)
  }

  /** What comes before a `c` that ends a `c`-free prefix is that prefix. */
  lemma {:induction false} BeforeFirstOf(prefix: string, c: char, rest: string)
    requires c !in prefix && (rest == "" || rest[0] == c)
    ensures BeforeFirst(prefix + rest, c) == prefix
  {
    if prefix == [] {
      assert prefix + rest == rest;
    } else {
      assert (prefix + rest)[1..] == prefix[1..] + rest;
      BeforeFirstOf(prefix[1..], c, rest);
      assert prefix == [prefix[0]] + prefix[1..];
    }
  }

  // ---------------------------------------------------------------------------
  // s.split(c) and parts.join(sep)
  // ---------------------------------------------------------------------------

  /** JavaScript's `s.split(c)`: the pieces between the occurrences of `c`, empty pieces
      included; there is always at least one. */
  function Split(s: string, c: char): (r: seq<string>)
    ensures |r| >= 1 && r[0] == BeforeFirst(s, c)
    decreases |s|
  {
    var head := BeforeFirst(s, c);
    if head == s then [s] else [head] + Split(s[|head| + 1..], c)
  }

  /** The elements of `parts` separated by `sep`: `Array.prototype.join`. */
  function Join(parts: seq<string>, sep: string): string {
    if parts == [] then ""
    else if |parts| == 1 then parts[0]
    else parts[0] + sep + Join(parts[1..], sep)
  }

  /** Pieces free of `c`, joined with `c`, split back into the same pieces. */
  lemma {:induction false} SplitJoin(pieces: seq<string>, c: char)
    requires |pieces| >= 1 && forall i :: 0 <= i < |pieces| ==> c !in pieces[i]
    ensures Split(Join(pieces, [c]), c) == pieces
  {
    var s := Join(pieces, [c]);
    if |pieces| == 1 {
      BeforeFirstOf(s, c, "");
      assert s + "" == s;
    } else {
      var rest := [c] + Join(pieces[1..], [c]);
      assert s == pieces[0] + rest;
      BeforeFirstOf(pieces[0], c, rest);
      assert |s| > |pieces[0]|;
      assert s[|pieces[0]| + 1..] == Join(pieces[1..], [c]);
      SplitJoin(pieces[1..], c);
      assert pieces == [pieces[0]] + pieces[1..];
    }
  }

  // ---------------------------------------------------------------------------
  // Lexicographic order on code points
  // ---------------------------------------------------------------------------

  /** `a` sorts strictly before `b`: a proper prefix, or smaller at the first difference. */
  predicate StrLt(a: string, b: string)
    decreases |a|
  {
    if |a| == 0 then |b| > 0
    else if |b| == 0 then false
    else if a[0] != b[0] then a[0] < b[0]
    else StrLt(a[1..], b[1..])
  }

  predicate StrLe(a: string, b: string) {
    a == b || StrLt(a, b)
  }

  lemma {:induction false} StrLtIrreflexive(a: string)
    ensures !StrLt(a, a)
    decreases |a|
  {
    if |a| > 0 {
      StrLtIrreflexive(a[1..]);
    }
  }

  lemma {:induction false} StrLtTransitive(a: string, b: string, c: string)
    requires StrLt(a, b) && StrLt(b, c)
    ensures StrLt(a, c)
    decreases |a|
  {
    if |a| > 0 && a[0] == b[0] && b[0] == c[0] {
      StrLtTransitive(a[1..], b[1..], c[1..]);
    }
  }

  lemma {:induction false} StrLtTotal(a: string, b: string)
    requires a != b
    ensures StrLt(a, b) || StrLt(b, a)
    decreases |a|
  {
    if |a| > 0 && |b| > 0 && a[0] == b[0] {
      assert a == [a[0]] + a[1..] && b == [b[0]] + b[1..];
      StrLtTotal(a[1..], b[1..]);
    }
  }

  lemma StrLtAsymmetric(a: string, b: string)
    requires StrLt(a, b)
    ensures !StrLt(b, a)
  {
    if StrLt(b, a) {
      StrLtTransitive(a, b, a);
      StrLtIrreflexive(a);
    }
  }

  /** `StrLe` is a total order. */
  lemma StrLeTotal(a: string, b: string)
    ensures StrLe(a, b) || StrLe(b, a)
  {
    if a != b { StrLtTotal(a, b); }
  }

  lemma StrLeTransitive(a: string, b: string, c: string)
    requires StrLe(a, b) && StrLe(b, c)
    ensures StrLe(a, c)
  {
    if a != b && b != c { StrLtTransitive(a, b, c); }
  }

  lemma StrLeAntisymmetric(a: string, b: string)
    requires StrLe(a, b) && StrLe(b, a)
    ensures a == b
  {
    if a != b { StrLtAsymmetric(a, b); }
  }

  // ---------------------------------------------------------------------------
  // Decimal integers
  // ---------------------------------------------------------------------------

  predicate IsDigit(c: char) {
    '0' as int <= c as int <= '9' as int
  }

  function DigitChar(d: nat): (c: char)
    requires d < 10
    ensures IsDigit(c) && c as int - '0' as int == d
  {
    ('0' as int + d) as char
  }

  /** The value of a string of decimal digits, read left to right. */
  function DigitsValue(ds: string): nat
    requires forall i :: 0 <= i < |ds| ==> IsDigit(ds[i])
  {
    if ds == [] then 0
    else
      assert IsDigit(ds[|ds| - 1]);
      DigitsValue(ds[..|ds| - 1]) * 10 + (ds[|ds| - 1] as int - '0' as int)
  }

  /** The decimal notation of `n`, as JavaScript's `String(n)` writes an integer. */
  function NatToDecimal(n: nat): (s: string)
    ensures |s| > 0
    ensures forall i :: 0 <= i < |s| ==> IsDigit(s[i])
  {
    if n < 10 then [DigitChar(n)] else NatToDecimal(n / 10) + [DigitChar(n % 10)]
  }

  function IntToDecimal(n: int): string {
    if n < 0 then "-" + NatToDecimal(-n) else NatToDecimal(n)
  }

  lemma {:induction false} DigitsValueOfDecimal(n: nat)
    ensures DigitsValue(NatToDecimal(n)) == n
  {
    if n >= 10 {
      var s := NatToDecimal(n);
      assert s[..|s| - 1] == NatToDecimal(n / 10);
      DigitsValueOfDecimal(n / 10);
    }
  }

  /** The longest prefix of `s` made of decimal digits. */
  function LeadingDigits(s: string): (ds: string)
    ensures ds <= s
    ensures forall i :: 0 <= i < |ds| ==> IsDigit(s[i])
    ensures |ds| == |s| || !IsDigit(s[|ds|])
  {
    if s == [] || !IsDigit(s[0]) then [] else [s[0]] + LeadingDigits(s[1..])
  }

  /** Whitespace that `parseInt` skips (the ASCII part of JavaScript's white space and line terminators). */
  predicate IsSpace(c: char) {
    c == ' ' || c == '\t' || c == '\n' || c == '\r' || c == '\U{B}' || c == '\U{C}'
  }

  function SkipSpaces(s: string): (r: string)
    ensures |r| <= |s| && r == s[|s| - |r|..]
    ensures r == [] || !IsSpace(r[0])
    ensures forall i :: 0 <= i < |s| - |r| ==> IsSpace(s[i])
  {
    if s != [] && IsSpace(s[0]) then
      var r := SkipSpaces(s[1..]);
      assert forall i :: 1 <= i < |s| - |r| ==> s[i] == s[1..][i - 1];
      assert s[1..][|s| - 1 - |r|..] == s[|s| - |r|..];
      r
    else s
  }

  /** JavaScript's `parseInt(s)` on decimal input: leading white space, an optional sign,
      then the longest run of digits; `None` is `NaN` (no digit at all). */
  function ParseIntPrefix(s: string): (r: Option<int>)
  {
    var t := SkipSpaces(s);
    var negative := t != [] && t[0] == '-';
    var body := if t != [] && (t[0] == '-' || t[0] == '+') then t[1..] else t;
    var ds := LeadingDigits(body);
    if ds == [] then None
    else
      var v: int := DigitsValue(ds);
      Some(if negative then -v else v)
  }

  /** Printing an integer in decimal and reading it back with `parseInt` gives the integer. */
  lemma ParseIntOfDecimal(n: int)
    ensures ParseIntPrefix(IntToDecimal(n)) == Some(n)
  {
    var m: nat := if n < 0 then -n else n;
    DigitsValueOfDecimal(m);
    ParseSignedDigits(NatToDecimal(m));
  }

  lemma ParseSignedDigits(digits: string)
    requires digits != [] && forall i :: 0 <= i < |digits| ==> IsDigit(digits[i])
    ensures ParseIntPrefix(digits) == Some(DigitsValue(digits) as int)
    ensures ParseIntPrefix("-" + digits) == Some(-(DigitsValue(digits) as int))
  {
    LeadingDigitsOfDigits(digits);
    ParsePositive(digits);
    ParseNegative(digits);
  }

  lemma ParsePositive(digits: string)
    requires digits != [] && IsDigit(digits[0]) && LeadingDigits(digits) == digits
    ensures ParseIntPrefix(digits) == Some(DigitsValue(digits) as int)
  {
    var c := digits[0];
    assert c != '-' && c != '+' && !IsSpace(c);
    assert SkipSpaces(digits) == digits;
  }

  lemma SkipNoSpaces(s: string)
    requires s == [] || !IsSpace(s[0])
    ensures SkipSpaces(s) == s
  {
  }

  lemma ParseNegative(digits: string)
    requires digits != [] && LeadingDigits(digits) == digits
    ensures ParseIntPrefix("-" + digits) == Some(-(DigitsValue(digits) as int))
  {
    var s := "-" + digits;
    assert s[0] == '-';
    ParseMinus(s);
    assert s[1..] == digits;
    assert LeadingDigits(s[1..]) == digits;
  }

  lemma ParseMinus(s: string)
    requires s != [] && s[0] == '-'
    ensures ParseIntPrefix(s) ==
      if LeadingDigits(s[1..]) == [] then None else Some(-(DigitsValue(LeadingDigits(s[1..])) as int))
  {
    SkipNoSpaces(s);
  }

  lemma {:induction false} LeadingDigitsOfDigits(s: string)
    requires forall i :: 0 <= i < |s| ==> IsDigit(s[i])
    ensures LeadingDigits(s) == s
  {
    if s != [] {
      LeadingDigitsOfDigits(s[1..]);
    }
  }
}
