/** The number printers of the terminal: one loop finds where the digits end, another writes them backwards from there. */
module Terminal {
  import opened Division

  const DECIMAL := "0123456789"
  const BINARY := "01"
  const INT_MIN := -0x8000_0000
  const EOS := '\0'

  // ---- Numerals ----------------------------------------------------------------------------------------------------

  /** The digits of `i`, most significant first; "0" for zero. */
  function Numeral(i: nat, base: nat): (ds: seq<nat>)
    requires base >= 2
    ensures |ds| >= 1
  {
    if i < base then [i]
    else
      DivFacts(i, base);
      Numeral(i / base, base) + [i % base]
  }

  /** What a string of digits stands for, read from the left. */
  function Value(ds: seq<nat>, base: nat): nat {
    if ds == [] then 0 else Value(ds[..|ds| - 1], base) * base + ds[|ds| - 1]
  }

  ghost predicate Canonical(ds: seq<nat>, base: nat) {
    && ds != [] && (forall j :: 0 <= j < |ds| ==> ds[j] < base)
    && (|ds| > 1 ==> ds[0] != 0)
  }

  function Power(base: nat, n: nat): nat {
    if n == 0 then 1 else base * Power(base, n - 1)
  }

  /** Appending a digit. */
  lemma ValueSnoc(ds: seq<nat>, d: nat, base: nat, q: nat, i: nat)
    requires Value(ds, base) == q && q * base + d == i
    ensures Value(ds + [d], base) == i
  {
    assert (ds + [d])[..|ds|] == ds;
  }

  lemma OneDigit(d: nat, base: nat)
    ensures Value([d], base) == d
  {
    assert [d][..0] == [];
    assert Value([], base) * base == 0;
  }

  /** Reading a numeral gives the number back. */
  lemma {:induction false} ReadBack(i: nat, base: nat)
    requires base >= 2
    ensures Value(Numeral(i, base), base) == i
  {
    if i < base {
      OneDigit(i, base);
    } else {
      var q, d := i / base, i % base;
      DivFacts(i, base);
      ReadBack(q, base);
      ValueSnoc(Numeral(q, base), d, base, q, i);
    }
  }

  lemma {:induction false} NumeralCanonical(i: nat, base: nat)
    requires base >= 2
    ensures Canonical(Numeral(i, base), base) && (i > 0 ==> Numeral(i, base)[0] != 0)
  {
    if i >= base {
      DivFacts(i, base);
      NumeralCanonical(i / base, base);
      var high := Numeral(i / base, base);
      assert Numeral(i, base) == high + [i % base] && (high + [i % base])[0] == high[0];
    }
  }

  lemma {:induction false} ValuePositive(ds: seq<nat>, base: nat)
    requires base >= 2 && ds != [] && ds[0] != 0
    ensures Value(ds, base) > 0
  {
    if |ds| > 1 {
      ValuePositive(ds[..|ds| - 1], base);
    }
  }

  /** It is the only canonical string of digits that does. */
  lemma {:induction false} NumeralUnique(ds: seq<nat>, base: nat)
    requires base >= 2 && Canonical(ds, base)
    ensures Numeral(Value(ds, base), base) == ds
  {
    var n := |ds| - 1;
    var v, d := Value(ds[..n], base), ds[n];
    if n == 0 {
      assert ds == [d];
    } else {
      ValuePositive(ds[..n], base);
      NumeralUnique(ds[..n], base);
      Monotone(base, 1, v);
      DivUnique(v * base + d, v, d, base);
      assert ds == ds[..n] + [d];
    }
  }

  lemma Between(i: nat, base: nat, lo: nat, hi: nat)
    requires base >= 2 && lo <= i / base < hi
    ensures base * lo <= i < base * hi
  {
    DivFacts(i, base);
    Monotone(base, lo, i / base);
    Monotone(base, i / base + 1, hi);
    assert (i / base + 1) * base == (i / base) * base + base;
  }

  /** A numeral has as many digits as the size of the number asks for. */
  lemma {:induction false} NumeralLength(i: nat, base: nat)
    requires base >= 2 && i > 0
    ensures Power(base, |Numeral(i, base)| - 1) <= i < Power(base, |Numeral(i, base)|)
  {
    var n := |Numeral(i, base)|;
    LastDigit(i, base);
    if i / base == 0 {
      DivFacts(i, base);
      assert Power(base, 1) == base * Power(base, 0) == base;
    } else {
      NumeralLength(i / base, base);
      Between(i, base, Power(base, n - 2), Power(base, n - 1));
    }
  }

  // ---- Strings -----------------------------------------------------------------------------------------------------

  function Text(ds: seq<nat>, digit: string): string
    requires forall j :: 0 <= j < |ds| ==> ds[j] < |digit|
  {
    seq(|ds|, j requires 0 <= j < |ds| => digit[ds[j]])
  }

  lemma NumeralDigits(i: nat, base: nat)
    requires base >= 2
    ensures forall j :: 0 <= j < |Numeral(i, base)| ==> Numeral(i, base)[j] < base
  {
    NumeralCanonical(i, base);
  }

  /** The printed form of `i`. */
  function Shown(i: nat, digit: string, base: nat): string
    requires 2 <= base <= |digit|
  {
    NumeralDigits(i, base);
    Text(Numeral(i, base), digit)
  }

  function Signed(i: int, digit: string, base: nat): string
    requires 2 <= base <= |digit|
  {
    if i < 0 then "-" + Shown(-i, digit, base) else Shown(i, digit, base)
  }

  /** The position of a character in the digit string. */
  function Find(digit: string, c: char): nat {
    if digit == [] || digit[0] == c then 0 else 1 + Find(digit[1..], c)
  }

  /** Reads an optional minus sign and digits; an independent inverse of the printers. */
  function Parse(s: string, digit: string, base: nat): int {
    if s != [] && s[0] == '-' then -(Value(Decoded(s[1..], digit), base) as int) else Value(Decoded(s, digit), base)
  }

  function Decoded(s: string, digit: string): seq<nat> {
    seq(|s|, j requires 0 <= j < |s| => Find(digit, s[j]))
  }

  predicate Distinct(digit: string) {
    forall a, b :: 0 <= a < b < |digit| ==> digit[a] != digit[b]
  }

  lemma {:induction false} FindIndex(digit: string, a: nat)
    requires Distinct(digit) && a < |digit|
    ensures Find(digit, digit[a]) == a
  {
    if a > 0 {
      assert digit[0] != digit[a];
      FindIndex(digit[1..], a - 1);
    }
  }

  /** Printing an integer and parsing the result gives the integer, in any base and with any digits but the sign. */
  lemma PrintParse(i: int, digit: string, base: nat)
    requires 2 <= base <= |digit| && Distinct(digit) && '-' !in digit
    ensures Parse(Signed(i, digit, base), digit, base) == i
  {
    var n: nat := if i < 0 then -i else i;
    var ds, s := Numeral(n, base), Shown(n, digit, base);
    NumeralDigits(n, base);
    ReadBack(n, base);
    forall j | 0 <= j < |ds|
      ensures Decoded(s, digit)[j] == ds[j] && s[j] != '-'
    {
      FindIndex(digit, ds[j]);
      assert s[j] in digit;
    }
    assert Decoded(s, digit) == ds;
    if i < 0 { assert Signed(i, digit, base)[1..] == s; }
  }

  /** The two digit strings in use are such. */
  lemma BothRoundTrip(i: int)
    ensures Parse(Signed(i, DECIMAL, 10), DECIMAL, 10) == i && Parse(Signed(i, BINARY, 2), BINARY, 2) == i
  {
    assert Distinct(DECIMAL) && '-' !in DECIMAL;
    PrintParse(i, DECIMAL, 10);
    PrintParse(i, BINARY, 2);
  }

  /** Positional notation with the digit characters of ASCII, which begin at 48. */
  function AsRead(s: string, base: nat): int {
    if s == [] then 0 else AsRead(s[..|s| - 1], base) * base + (s[|s| - 1] as int - 48)
  }

  lemma {:induction false} TextAsRead(ds: seq<nat>, digit: string, base: nat)
    requires forall j :: 0 <= j < |ds| ==> ds[j] < |digit|
    requires forall d :: 0 <= d < |digit| ==> digit[d] as int == 48 + d
    ensures AsRead(Text(ds, digit), base) == Value(ds, base)
  {
    if ds != [] {
      var n := |ds| - 1;
      TextAsRead(ds[..n], digit, base);
      assert Text(ds, digit)[..n] == Text(ds[..n], digit);
    }
  }

  lemma SignedAsRead(i: int, digit: string, base: nat)
    requires 2 <= base <= |digit| && forall d :: 0 <= d < |digit| ==> digit[d] as int == 48 + d
    ensures var s := Signed(i, digit, base);
      if i >= 0 then AsRead(s, base) == i else s[0] == '-' && AsRead(s[1..], base) == -i
  {
    var n: nat := if i < 0 then -i else i;
    NumeralDigits(n, base);
    TextAsRead(Numeral(n, base), digit, base);
    ReadBack(n, base);
    if i < 0 { assert Signed(i, digit, base)[1..] == Shown(n, digit, base); }
  }

  /** What the two printers write is the number in the usual decimal and binary notation, after a minus sign if negative. */
  lemma UsualNotation(i: int)
    ensures var s := Signed(i, DECIMAL, 10);
      if i >= 0 then AsRead(s, 10) == i else s[0] == '-' && AsRead(s[1..], 10) == -i
    ensures var s := Signed(i, BINARY, 2);
      if i >= 0 then AsRead(s, 2) == i else s[0] == '-' && AsRead(s[1..], 2) == -i
  {
    SignedAsRead(i, DECIMAL, 10);
    SignedAsRead(i, BINARY, 2);
  }

  // ---- The printers ------------------------------------------------------------------------------------------------

  /** How many digits a loop that divides until zero still meets. */
  function Left(shifter: nat, base: nat): nat
    requires base >= 2
  {
    if shifter == 0 then 0 else |Numeral(shifter, base)|
  }

  /** What one round of either loop sees. */
  lemma LastDigit(i: nat, base: nat)
    requires base >= 2
    ensures var ds := Numeral(i, base);
      && ds[|ds| - 1] == i % base && |ds| == Left(i / base, base) + 1
      && (i / base != 0 ==> Numeral(i / base, base) == ds[..|ds| - 1])
    ensures 0 <= i / base <= i && (i > 0 ==> i / base < i) && i % base < base
  {
    DivFacts(i, base);
  }

  /** The first loop, a do-while: to where the representation ends. */
  method EndOf(i: nat, base: nat, b: nat) returns (p: nat)
    requires base >= 2
    ensures p == b + |Numeral(i, base)|
  {
    var shifter: nat, entered := i, false;
    p := b;
    while !entered || shifter != 0
      invariant entered ==> p + Left(shifter, base) == b + |Numeral(i, base)|
      invariant !entered ==> p == b && shifter == i
      decreases !entered, shifter
    {
      LastDigit(shifter, base);
      p := p + 1;
      shifter := shifter / base;
      entered := true;
    }
  }

  /** num_to_str_buf and unum_to_str_buf: the digits go to buffer[b..end], and nothing else is written. */
  method NumToStrBuf(i: nat, digit: string, base: nat, buffer: array<char>, b: nat) returns (end: nat)
    requires 2 <= base <= |digit| && b + |Shown(i, digit, base)| <= buffer.Length
    modifies buffer
    ensures end == b + |Shown(i, digit, base)|
    ensures buffer[..] == old(buffer[..b]) + Shown(i, digit, base) + old(buffer[end..])
  {
    ghost var was, ds := buffer[..], Numeral(i, base);
    NumeralDigits(i, base);
    end := EndOf(i, base, b);
    var p, rest: nat, entered := end, i, false;
    while !entered || rest != 0
      invariant !entered ==> p == end && rest == i
      invariant entered ==> p - b == Left(rest, base)
      invariant b <= p <= end && (!entered || rest != 0 ==> Numeral(rest, base) == ds[..p - b])
      invariant forall j :: p <= j < end ==> buffer[j] == digit[ds[j - b]]
      invariant forall j :: 0 <= j < buffer.Length && !(p <= j < end) ==> buffer[j] == was[j]
      decreases !entered, rest
    {
      LastDigit(rest, base);
      p := p - 1;
      buffer[p] := digit[rest % base];
      rest := rest / base;
      entered := true;
    }
  }

  function SignText(i: int): string { if i < 0 then "-" else "" }

  method PutSign(i: int, buffer: array<char>) returns (n: nat, p: nat)
    requires buffer.Length > 0
    modifies buffer
    ensures n == (if i < 0 then -i else i) && p == |SignText(i)|
    ensures buffer[..p] == SignText(i) && buffer[p..] == old(buffer[p..])
  {
    if i < 0 {
      buffer[0] := '-';
      return -i, 1;
    }
    return i, 0;
  }

  method PutEnd(buffer: array<char>, p: nat)
    requires p < buffer.Length
    modifies buffer
    ensures buffer[..p] == old(buffer[..p]) && buffer[p] == EOS && buffer[p + 1..] == old(buffer[p + 1..])
  {
    buffer[p] := EOS;
  }

  lemma Later(a: string, b: string, p: nat, q: nat)
    requires p <= q <= |a| == |b| && a[p..] == b[p..]
    ensures a[q..] == b[q..]
  {
    assert a[q..] == a[p..][q - p..] && b[q..] == b[p..][q - p..];
  }

  lemma Parts(t: string, a: string, b: string, c: string)
    requires t == a + b + c
    ensures t[..|a| + |b|] == a + b && t[|a| + |b|..] == c
  {
  }

  /** int_to_str and int_to_str_binary: sign, digits and terminator. */
  method IntToStr(i: int, digit: string, base: nat, buffer: array<char>)
    requires INT_MIN < i < -INT_MIN && 2 <= base <= |digit| && |Signed(i, digit, base)| < buffer.Length
    modifies buffer
    ensures var s := Signed(i, digit, base);
      buffer[..|s|] == s && buffer[|s|] == '\0' && buffer[|s| + 1..] == old(buffer[|s| + 1..])
  {
    ghost var was := buffer[..];
    var n, b := PutSign(i, buffer);
    ghost var signed := buffer[..];
    var p := NumToStrBuf(n, digit, base, buffer, b);
    Parts(buffer[..], signed[..b], Shown(n, digit, base), signed[p..]);
    Later(was, signed, b, p);
    Later(was, buffer[..], p, p + 1);
    PutEnd(buffer, p);
  }

  /** uint_to_str: digits and terminator. */
  method UintToStr(i: nat, digit: string, base: nat, buffer: array<char>)
    requires 2 <= base <= |digit| && |Shown(i, digit, base)| < buffer.Length
    modifies buffer
    ensures var s := Shown(i, digit, base);
      buffer[..|s|] == s && buffer[|s|] == '\0' && buffer[|s| + 1..] == old(buffer[|s| + 1..])
  {
    ghost var was := buffer[..];
    var p := NumToStrBuf(i, digit, base, buffer, 0);
    Parts(buffer[..], was[..0], Shown(i, digit, base), was[p..]);
    Later(was, buffer[..], p, p + 1);
    PutEnd(buffer, p);
  }
}
