/** Decimal text: the update-offset file, list cursors and callback indices all travel as digits. */
module Decimal {
  import opened Records

  function Digit(d: nat): char
    requires d < 10
  {
    ('0' as int + d) as char
  }

  predicate IsDigit(c: char) {
    '0' <= c <= '9'
  }

  function DigitValue(c: char): (d: nat)
    requires IsDigit(c)
    ensures d < 10
  {
    c as int - '0' as int
  }

  function Digits(n: nat): string {
    if n < 10 then [Digit(n)] else Digits(n / 10) + [Digit(n % 10)]
  }

  predicate AllDigits(s: string) {
    forall i | 0 <= i < |s| :: IsDigit(s[i])
  }

  function Value(s: string): nat
    requires AllDigits(s)
  {
    if s == [] then 0 else 10 * Value(s[..|s| - 1]) + DigitValue(s[|s| - 1])
  }

  /** The library's integer printer. */
  function Itoa(n: int): string {
    if n < 0 then "-" + Digits(-n) else Digits(n)
  }

  function Magnitude(s: string): Option<nat> {
    if s != [] && AllDigits(s) then Some(Value(s)) else None
  }

  const MAX64 := 0x7fff_ffff_ffff_ffff

  predicate Fits64(n: int) {
    -MAX64 - 1 <= n <= MAX64
  }

  function Bounded(n: int): Option<int> {
    if Fits64(n) then Some(n) else None
  }

  /** The library's integer parser: an optional sign, at least one digit, and a value of 64 bits. */
  function Atoi(s: string): Option<int> {
    var signed := s != [] && (s[0] == '-' || s[0] == '+');
    var m := Magnitude(if signed then s[1..] else s);
    if m.None? then None
    else
      var n: int := m.value;
      Bounded(if signed && s[0] == '-' then -n else n)
  }

  lemma {:induction false} DigitsParse(n: nat)
    ensures Digits(n) != [] && AllDigits(Digits(n)) && Value(Digits(n)) == n
  {
    var s := Digits(n);
    if n < 10 {
      assert s[..0] == [];
    } else {
      DigitsParse(n / 10);
      assert s[..|s| - 1] == Digits(n / 10);
    }
  }

  lemma ItoaParses(n: int)
    ensures Atoi(Itoa(n)) == Bounded(n)
    ensures n >= 0 ==> AllDigits(Itoa(n)) && Itoa(n) != []
  {
    var m := if n < 0 then -n else n;
    DigitsParse(m);
    var digits := Digits(m);
    hide Digits, Value, Bounded;
    assert Magnitude(digits) == Some(m);
    if n < 0 {
      assert Itoa(n) == "-" + digits && ("-" + digits)[1..] == digits;
    } else {
      assert IsDigit(digits[0]);
    }
  }

  // ----- The offset file -----------------------------------------------------------------------------

  /** Signed 64-bit arithmetic. */
  function Wrap64(x: int): int {
    var m := x % 0x1_0000_0000_0000_0000;
    if m > MAX64 then m - 0x1_0000_0000_0000_0000 else m
  }

  function Power(k: nat): nat {
    if k == 0 then 1 else 10 * Power(k - 1)
  }

  lemma {:induction false} DigitsLength(n: nat, k: nat)
    requires n < Power(k)
    ensures n > 0 ==> |Digits(n)| <= k
  {
    if n >= 10 {
      assert k > 0 && n / 10 < Power(k - 1);
      DigitsLength(n / 10, k - 1);
    }
  }

  lemma MaxFits()
    ensures MAX64 < Power(19)
  {
    assert Power(7) == 10_000_000;
    assert Power(13) == 1_000_000 * Power(7);
    assert Power(19) == 1_000_000 * Power(13);
  }

  /** The text the daemon's own printer leaves: nothing at all for a negative number. */
  function OffsetText(n: int): string {
    if n < 0 then "" else Digits(n)
  }

  /** Prints backwards into a buffer of twenty bytes, as the store does. */
  method PrintOffset(n: int) returns (s: string)
    requires n <= MAX64
    ensures s == OffsetText(n)
  {
    if n == 0 {
      return "0";
    }
    var b := new char[20](_ => '0');
    var i, m := 20, n;
    if n > 0 {
      MaxFits();
      DigitsLength(n, 19);
    }
    while m > 0
      invariant 0 <= i <= 20
      invariant n < 0 ==> i == 20 && m == n
      invariant n > 0 ==> m >= 0 && Digits(n) == (if m > 0 then Digits(m) else "") + b[i..]
    {
      ghost var printed := b[i..];
      ghost var last := [Digit(m % 10)];
      assert |Digits(m)| + |printed| <= 19;
      assert m >= 10 ==> Digits(m) == Digits(m / 10) + last;
      hide Digits, Digit;
      i := i - 1;
      b[i] := Digit(m % 10);
      assert b[i..] == last + printed;
      assert m >= 10 ==> Digits(m / 10) + last + printed == Digits(m / 10) + (last + printed);
      m := m / 10;
    }
    s := b[i..];
  }

  /** What the reader makes of a file: zero on any byte that is not a digit, 64-bit wrap-around
      otherwise. */
  function OffsetFrom(s: string, acc: int): int
    decreases |s|
  {
    if s == [] then acc
    else if !IsDigit(s[0]) then 0
    else OffsetFrom(s[1..], Wrap64(Wrap64(acc * 10) + DigitValue(s[0])))
  }

  method ReadOffset(data: string) returns (n: int)
    ensures n == OffsetFrom(data, 0)
  {
    n := 0;
    var i := 0;
    while i < |data|
      invariant 0 <= i <= |data|
      invariant OffsetFrom(data, 0) == OffsetFrom(data[i..], n)
    {
      assert data[i..][0] == data[i] && data[i..][1..] == data[i + 1..];
      if !IsDigit(data[i]) {
        return 0;
      }
      n := Wrap64(Wrap64(n * 10) + DigitValue(data[i]));
      i := i + 1;
    }
  }

  lemma ValueFits(s: string, t: string)
    requires AllDigits(s + t)
    ensures AllDigits(s) && AllDigits(t) && Value(s) <= Value(s + t)
    decreases |t|
  {
    assert forall i | 0 <= i < |s| :: (s + t)[i] == s[i];
    assert forall i | 0 <= i < |t| :: (s + t)[|s| + i] == t[i];
    if t == [] {
      assert s + t == s;
    } else {
      var t' := t[..|t| - 1];
      assert (s + t)[..|s + t| - 1] == s + t';
      ValueFits(s, t');
    }
  }

  lemma NoWrap(x: int)
    requires 0 <= x <= MAX64
    ensures Wrap64(x) == x
  {
  }

  lemma {:induction false} OffsetOfDigits(s: string, t: string)
    requires AllDigits(s + t) && Value(s + t) <= MAX64
    ensures AllDigits(s) && OffsetFrom(t, Value(s)) == Value(s + t)
    decreases |t|
  {
    ValueFits(s, t);
    if t == [] {
      assert s + t == s;
    } else {
      var s' := s + [t[0]];
      assert s' + t[1..] == s + t;
      assert s'[..|s|] == s;
      ValueFits(s', t[1..]);
      assert Value(s') == 10 * Value(s) + DigitValue(t[0]);
      NoWrap(Value(s) * 10);
      NoWrap(Value(s'));
      assert s'[|s|] == t[0] && IsDigit(t[0]);
      hide Wrap64;
      OffsetOfDigits(s', t[1..]);
    }
  }

  /** A saved offset is read back unchanged exactly when it is not negative. */
  lemma OffsetRoundTrip(n: int)
    requires n <= MAX64
    ensures OffsetFrom(OffsetText(n), 0) == n <==> n >= 0
  {
    if n >= 0 {
      DigitsParse(n);
      assert [] + Digits(n) == Digits(n);
      OffsetOfDigits([], Digits(n));
    }
  }

  /** Any byte that is not a digit makes the whole offset zero. */
  lemma {:induction false} GarbageIsZero(s: string, acc: int)
    requires !AllDigits(s)
    ensures OffsetFrom(s, acc) == 0
    decreases |s|
  {
    if IsDigit(s[0]) {
      GarbageIsZero(s[1..], Wrap64(Wrap64(acc * 10) + DigitValue(s[0])));
    }
  }

  /** Only a sign and digits are a number, and only within 64 bits. */
  lemma OnlyNumbersParse(s: string)
    ensures Atoi(s).Some? ==>
              && Fits64(Atoi(s).value) && s != "" && IsDigit(s[|s| - 1])
              && (forall i | 1 <= i < |s| :: IsDigit(s[i])) && (IsDigit(s[0]) || s[0] == '-' || s[0] == '+')
              && (Atoi(s).value < 0 ==> s[0] == '-')
  {
    hide Value;
  }
}
