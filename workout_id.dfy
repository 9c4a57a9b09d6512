/** The identifier every workout receives when it is created: the decimal
    form of the creation timestamp in milliseconds, cut to its last ten
    characters. */
module WorkoutIds {

  /** Number of characters the id keeps from the end of the timestamp. */
  const IdLength: nat := 10

  predicate IsDigit(c: char) {
    '0' <= c <= '9'
  }

  predicate AllDigits(s: string) {
    forall i :: 0 <= i < |s| ==> IsDigit(s[i])
  }

  function DigitChar(d: nat): (c: char)
    requires d < 10
  {
    ('0' as int + d) as char
  }

  function DigitValue(c: char): (d: nat)
    requires IsDigit(c)
  {
    c as int - '0' as int
  }

  function Pow10(k: nat): (p: nat)
    ensures p >= 1
  {
    if k == 0 then 1 else 10 * Pow10(k - 1)
  }

  /** The numeric value of a string of decimal digits (the inverse of
      DecimalString). */
  function DigitsValue(s: string): nat
    requires AllDigits(s)
  {
    if s == [] then 0 else DigitsValue(s[..|s| - 1]) * 10 + DigitValue(s[|s| - 1])
  }

  /** `timestamp + ''`: JavaScript's decimal form of a non-negative integer.
      It is made of digits and carries no leading zero. */
  function DecimalString(n: nat): (s: string)
    ensures 1 <= |s| && AllDigits(s)
    ensures s[0] == '0' <==> n == 0
  {
    if n < 10 then [DigitChar(n)] else DecimalString(n / 10) + [DigitChar(n % 10)]
  }

  /** `s.slice(-k)` for k >= 1: the last k characters of s, or all of s
      when it is shorter. (`s.slice(-0)` is the whole string, so k = 0 is
      excluded.) */
  function TakeLast(s: string, k: nat): string
    requires 1 <= k
  {
    if |s| <= k then s else s[|s| - k..]
  }

  /** `s.slice(-k)`, for k >= 1, keeps a suffix of s of length min(k, |s|). */
  lemma TakeLastIsSuffix(s: string, k: nat)
    requires 1 <= k
    ensures var t := TakeLast(s, k);
      && |t| == (if |s| < k then |s| else k)
      && t == s[|s| - |t|..]
  {
  }

  /** `(Date.now() + '').slice(-10)` for the timestamp `now`. */
  function WorkoutId(now: nat): string {
    TakeLast(DecimalString(now), IdLength)
  }

  /** The id is a suffix of the timestamp's decimal form, made of digits,
      ten characters long unless the timestamp itself has fewer digits. */
  lemma IdIsSuffix(now: nat)
    ensures var dec, id := DecimalString(now), WorkoutId(now);
      && |id| == (if |dec| < IdLength then |dec| else IdLength)
      && id == dec[|dec| - |id|..]
      && AllDigits(id)
  {
  }

  /** A non-zero multiple of m is at least m away from zero. */
  lemma MultipleBound(d: int, m: int)
    requires 0 < m
    ensures d >= 1 ==> d * m >= m
    ensures d <= -1 ==> d * m <= -m
  {
    assert d * m - m == (d - 1) * m;
    assert d * m + m == (d + 1) * m;
  }

  /** x == q * m + r with 0 <= r < m fixes both the quotient and the
      remainder of x by m. */
  lemma DivModUnique(x: int, q: int, m: int, r: int)
    requires 0 < m && 0 <= r < m && x == q * m + r
    ensures x / m == q && x % m == r
  {
    var d := q - x / m;
    assert d * m == x % m - r;
    MultipleBound(d, m);
  }

  /** Appending the digit d to a number a shifts its remainder modulo p one
      decimal place. */
  lemma AppendDigitMod(a: nat, p: nat, d: nat)
    requires 1 <= p && d < 10
    ensures (a * 10 + d) % (10 * p) == (a % p) * 10 + d
  {
    var q, r := a / p, a % p;
    assert a == q * p + r;
    assert a * 10 + d == q * (10 * p) + (r * 10 + d);
    DivModUnique(a * 10 + d, q, 10 * p, r * 10 + d);
  }

  lemma Pow10Monotone(i: nat, j: nat)
    requires i <= j
    ensures Pow10(i) <= Pow10(j)
    decreases j
  {
    if i < j {
      Pow10Monotone(i, j - 1);
    }
  }

  /** Reading back the decimal form of n gives n. */
  lemma {:induction false} DecimalStringValue(n: nat)
    ensures DigitsValue(DecimalString(n)) == n
    decreases n
  {
    var s := DecimalString(n);
    if n < 10 {
      assert s[..|s| - 1] == [];
    } else {
      assert s[..|s| - 1] == DecimalString(n / 10);
      DecimalStringValue(n / 10);
    }
  }

  /** n is smaller than ten to the number of its digits. */
  lemma {:induction false} DecimalStringBound(n: nat)
    ensures n < Pow10(|DecimalString(n)|)
    decreases n
  {
    if n >= 10 {
      DecimalStringBound(n / 10);
    }
  }

  /** A number of at least 10^k has more than k digits. */
  lemma {:induction false} DecimalStringLength(n: nat, k: nat)
    requires n >= Pow10(k)
    ensures |DecimalString(n)| > k
    decreases k
  {
    if k > 0 {
      DecimalStringLength(n / 10, k - 1);
    }
  }

  /** The last k digits of a digit string, read as a number, are its value
      modulo 10^k. */
  lemma {:induction false} SuffixValue(s: string, k: nat)
    requires AllDigits(s) && k <= |s|
    ensures DigitsValue(s[|s| - k..]) == DigitsValue(s) % Pow10(k)
    decreases k
  {
    if k == 0 {
      assert s[|s|..] == [];
      DivModUnique(DigitsValue(s), DigitsValue(s), 1, 0);
    } else {
      var t := s[..|s| - 1];
      var u := s[|s| - k..];
      assert u[..|u| - 1] == t[|t| - (k - 1)..];
      assert u[|u| - 1] == s[|s| - 1];
      SuffixValue(t, k - 1);
      assert DigitsValue(u) == DigitsValue(t[|t| - (k - 1)..]) * 10 + DigitValue(s[|s| - 1]);
      AppendDigitMod(DigitsValue(t), Pow10(k - 1), DigitValue(s[|s| - 1]));
    }
  }

  /** The last digit of a digit string is its value modulo 10, and the
      digits before it make up the rest of the value. */
  lemma LastDigit(s: string)
    requires AllDigits(s) && s != []
    ensures DigitsValue(s) % 10 == DigitValue(s[|s| - 1])
    ensures DigitsValue(s) / 10 == DigitsValue(s[..|s| - 1])
  {
    DivModUnique(DigitsValue(s), DigitsValue(s[..|s| - 1]), 10, DigitValue(s[|s| - 1]));
  }

  /** Two digit strings of the same length and the same value are equal. */
  lemma {:induction false} DigitsValueInjective(s: string, t: string)
    requires AllDigits(s) && AllDigits(t) && |s| == |t|
    requires DigitsValue(s) == DigitsValue(t)
    ensures s == t
    decreases |s|
  {
    if s != [] {
      var s', t' := s[..|s| - 1], t[..|t| - 1];
      LastDigit(s);
      LastDigit(t);
      DigitsValueInjective(s', t');
      assert s[|s| - 1] == t[|t| - 1];
      assert s == s' + [s[|s| - 1]] && t == t' + [t[|t| - 1]];
    }
  }

  /** The id, read as a number, is the timestamp modulo 10^10. */
  lemma IdValue(now: nat)
    ensures DigitsValue(WorkoutId(now)) == now % Pow10(IdLength)
  {
    var dec, id := DecimalString(now), WorkoutId(now);
    IdIsSuffix(now);
    DecimalStringValue(now);
    SuffixValue(dec, |id|);
    if |dec| < IdLength {
      DecimalStringBound(now);
      Pow10Monotone(|dec|, IdLength);
      DivModUnique(now, 0, Pow10(IdLength), now);
    }
  }

  /** From 10^9 milliseconds on (12 January 1970) every id has ten digits,
      and two timestamps get the same id exactly when they agree modulo
      10^10 milliseconds (about 115.7 days): ids are unique only within
      such a window. */
  lemma IdCollision(a: nat, b: nat)
    requires a >= Pow10(IdLength - 1) && b >= Pow10(IdLength - 1)
    ensures |WorkoutId(a)| == IdLength && |WorkoutId(b)| == IdLength
    ensures WorkoutId(a) == WorkoutId(b) <==> a % Pow10(IdLength) == b % Pow10(IdLength)
  {
    DecimalStringLength(a, IdLength - 1);
    DecimalStringLength(b, IdLength - 1);
    IdIsSuffix(a);
    IdIsSuffix(b);
    IdValue(a);
    IdValue(b);
    if a % Pow10(IdLength) == b % Pow10(IdLength) {
      DigitsValueInjective(WorkoutId(a), WorkoutId(b));
    }
  }
}
