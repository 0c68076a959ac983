/** The debugger's number formatters of Apple1.cpp (and the identical hex of the prototype's
    Apple1.cpp): a string of d characters, filled with '0' and then written from the last
    character back, one digit per step while the number is shifted right by a digit. */
module Formatting {
  import opened Bytes

  const Alphabet: string := "0123456789ABCDEF"

  /** `"0123456789ABCDEF"[v]`; for v < 2 this is also `"01"[v]`. */
  function DigitChar(v: nat): char
    requires v < 16
  {
    Alphabet[v]
  }

  function Pow(b: nat, e: nat): (p: nat)
    ensures b > 0 ==> p > 0
  {
    if e == 0 then 1 else b * Pow(b, e - 1)
  }

  /** The d lowest digits of n in the given base, most significant first. */
  function Digits(n: nat, d: nat, base: nat): (s: string)
    requires 2 <= base <= 16
    ensures |s| == d
  {
    if d == 0 then "" else Digits(n / base, d - 1, base) + [DigitChar(n % base)]
  }

  /** The value a digit character stands for, as a reader of the string takes it. */
  function DigitValue(c: char): nat
  {
    if '0' <= c <= '9' then c as nat - '0' as nat
    else if 'A' <= c <= 'F' then c as nat - 'A' as nat + 10
    else 0
  }

  /** A digit string read back in the given base, most significant digit first. */
  function Value(s: string, base: nat): nat
  {
    if s == [] then 0 else Value(s[..|s| - 1], base) * base + DigitValue(s[|s| - 1])
  }

  lemma DigitRoundTrip(v: nat)
    requires v < 16
    ensures DigitValue(DigitChar(v)) == v
  {
  }

  /** Quotient and remainder are the only pair that rebuilds n. */
  lemma DivModUnique(n: int, m: int, k: int, r: int)
    requires m > 0 && 0 <= r < m && n == m * k + r
    ensures n / m == k && n % m == r
  {
    var x := k - n / m;
    assert m * x == n % m - r by {
      assert n == m * (n / m) + n % m;
      assert m * k - m * (n / m) == m * x;
    }
  }

  /** n taken apart at b and then at p: n = (b * p) * k + (b * t + r), with b * t + r < b * p. */
  lemma Regroup(n: nat, b: nat, p: nat)
    requires b > 0 && p > 0
    ensures n == (b * p) * (n / b / p) + (b * (n / b % p) + n % b)
    ensures 0 <= b * (n / b % p) + n % b < b * p
  {
    var q, r := n / b, n % b;
    var k, t := q / p, q % p;
    assert n == b * q + r;
    assert q == p * k + t;
    assert b * q == (b * p) * k + b * t by {
      assert b * q == b * (p * k + t);
      assert b * (p * k + t) == b * (p * k) + b * t;
      assert b * (p * k) == (b * p) * k;
    }
    assert b * t <= b * (p - 1) by {
      assert t <= p - 1;
    }
    assert b * (p - 1) == b * p - b;
  }

  /** Splitting off the lowest digit: the value below b * p is the lowest digit plus b times the
      value of the higher digits below p. */
  lemma ModSplit(n: nat, b: nat, p: nat)
    requires b > 0 && p > 0
    ensures n % (b * p) == (n / b) % p * b + n % b
  {
    Regroup(n, b, p);
    DivModUnique(n, b * p, n / b / p, b * (n / b % p) + n % b);
  }

  /** Shifting right by one digit and then by e more is shifting by e + 1 digits. */
  lemma DivDiv(n: nat, b: nat, p: nat)
    requires b > 0 && p > 0
    ensures n / b / p == n / (b * p)
  {
    Regroup(n, b, p);
    DivModUnique(n, b * p, n / b / p, b * (n / b % p) + n % b);
  }

  /** Read back, the digits give n modulo base^d: the number's low d digits, nothing lost and
      nothing added. */
  lemma {:induction false} DigitsValue(n: nat, d: nat, base: nat)
    requires 2 <= base <= 16
    ensures Value(Digits(n, d, base), base) == n % Pow(base, d)
    decreases d
  {
    if d > 0 {
      var s := Digits(n, d, base);
      assert s[..d - 1] == Digits(n / base, d - 1, base);
      DigitsValue(n / base, d - 1, base);
      DigitRoundTrip(n % base);
      ModSplit(n, base, Pow(base, d - 1));
    }
  }

  /** Character i is the digit of n at position d - 1 - i: `(n >> 4 * (d - 1 - i)) & 0xF` for
      hex, `(n >> (d - 1 - i)) & 1` for binary. */
  lemma {:induction false} DigitsAt(n: nat, d: nat, base: nat, i: nat)
    requires 2 <= base <= 16 && i < d
    ensures Digits(n, d, base)[i] == DigitChar(n / Pow(base, d - 1 - i) % base)
    decreases d
  {
    if i < d - 1 {
      var q, p := n / base, Pow(base, d - 2 - i);
      assert Pow(base, d - 1 - i) == base * p;
      assert Digits(n, d, base)[i] == Digits(q, d - 1, base)[i];
      DigitsAt(q, d - 1, base, i);
      DivDiv(n, base, p);
      assert q / p == n / Pow(base, d - 1 - i);
    } else {
      assert Pow(base, d - 1 - i) == 1;
    }
  }

  /** Every character is one of the base's digits: 0-9 and A-F for hex, 0 and 1 for binary. */
  lemma DigitsAlphabet(n: nat, d: nat, base: nat)
    requires 2 <= base <= 16
    ensures forall i :: 0 <= i < d ==> Digits(n, d, base)[i] in Alphabet[..base]
  {
    forall i | 0 <= i < d
      ensures Digits(n, d, base)[i] in Alphabet[..base]
    {
      DigitsAt(n, d, base, i);
      var v := n / Pow(base, d - 1 - i) % base;
      assert Alphabet[..base][v] == DigitChar(v);
    }
  }

  /** hex(n, d) */
  method Hex(n: u32, d: u8) returns (s: string)
    ensures s == Digits(n, d, 16)
  {
    var buf := new char[d](_ => '0');
    var m: int := n;
    var i: int := d as int - 1;
    while i >= 0
      invariant -1 <= i < d as int && 0 <= m
      invariant Digits(n, d, 16) == Digits(m, i + 1, 16) + buf[i + 1..]
      invariant forall j :: 0 <= j <= i ==> buf[j] == '0'
    {
      buf[i] := DigitChar(m % 16);
      assert buf[i..] == [DigitChar(m % 16)] + buf[i + 1..];
      i, m := i - 1, m / 16;
    }
    s := buf[..];
  }

  /** bin(n, d) */
  method Bin(n: u8, d: u8) returns (s: string)
    ensures s == Digits(n, d, 2)
  {
    var buf := new char[d](_ => '0');
    var m: int := n;
    var i: int := d as int - 1;
    while i >= 0
      invariant -1 <= i < d as int && 0 <= m
      invariant Digits(n, d, 2) == Digits(m, i + 1, 2) + buf[i + 1..]
      invariant forall j :: 0 <= j <= i ==> buf[j] == '0'
    {
      buf[i] := DigitChar(m % 2);
      assert buf[i..] == [DigitChar(m % 2)] + buf[i + 1..];
      i, m := i - 1, m / 2;
    }
    s := buf[..];
  }
}
