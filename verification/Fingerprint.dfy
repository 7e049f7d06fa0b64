/** The canonical request string that is hashed into a settlement's fingerprint (app/schemas.py).
    The hash is taken to be injective, so the string stands for it. */
module Fingerprint {
  import opened Options
  import opened Routing

  /** A decimal as it was written: 100 and 100.00 are different representations of one value. */
  datatype Money = Money(coefficient: nat, exponent: int)

  /** What the command schema admits: more than zero, at most eight decimals. */
  type Amount = m: Money | m.coefficient > 0 && m.exponent >= -8 witness Money(1, 0)

  function Pow10(n: nat): (p: nat)
    ensures p > 0
  {
    if n == 0 then 1 else 10 * Pow10(n - 1)
  }

  /** The value in units of the eighth decimal. */
  function Units(m: Amount): (u: int)
    ensures u > 0
  {
    PositiveProduct(m.coefficient, Pow10(m.exponent + 8));
    m.coefficient * Pow10(m.exponent + 8)
  }

  lemma PositiveProduct(a: int, b: int)
    requires a > 0 && b > 0
    ensures a * b > 0
  {
  }

  /** `Decimal.normalize`: no trailing zeros in the coefficient. */
  function Normalize(m: Amount): Amount
    decreases m.coefficient
  {
    if m.coefficient % 10 == 0 then Normalize(Money(m.coefficient / 10, m.exponent + 1)) else m
  }

  predicate AllDigits(s: string) { forall i | 0 <= i < |s| :: '0' <= s[i] <= '9' }

  function DigitChar(d: int): char
    requires 0 <= d < 10
  {
    '0' + d as char
  }

  function Digits(n: nat): (s: string)
    ensures |s| > 0
    ensures AllDigits(s)
  {
    if n < 10 then [DigitChar(n)] else Digits(n / 10) + [DigitChar(n % 10)]
  }

  function Zeros(n: nat): (s: string)
    ensures |s| == n && forall i | 0 <= i < n :: s[i] == '0'
  {
    seq(n, _ => '0')
  }

  /** The to-scientific-string conversion of the General Decimal Arithmetic Specification. */
  function ScientificString(m: Money): string {
    var digits := Digits(m.coefficient);
    var n := |digits|;
    var adjusted := m.exponent + n - 1;
    if m.exponent <= 0 && adjusted >= -6 then
      if m.exponent == 0 then digits
      else if n + m.exponent > 0 then digits[..n + m.exponent] + "." + digits[n + m.exponent..]
      else "0." + (Zeros(-(n + m.exponent)) + digits)
    else
      digits[..1] + (if n > 1 then "." + digits[1..] else "") + "E" + Exponent(adjusted)
  }

  function Exponent(adjusted: int): string {
    if adjusted < 0 then "-" + Digits(-adjusted) else "+" + Digits(adjusted)
  }

  function RequestFingerprint(owner: string, amount: Amount, target: Currency): string {
    owner + "|" + (ScientificString(Normalize(amount)) + "|" + Value(target))
  }

  // ---------------------------------------------------------------- digits

  function NumberOf(s: string): int {
    if s == [] then 0 else NumberOf(s[..|s| - 1]) * 10 + (s[|s| - 1] as int - '0' as int)
  }

  lemma {:induction false} NumberOfDigits(n: nat)
    ensures NumberOf(Digits(n)) == n
  {
    var s := Digits(n);
    if n >= 10 {
      NumberOfDigits(n / 10);
      assert s[..|s| - 1] == Digits(n / 10);
    } else {
      assert s[..|s| - 1] == [];
    }
  }

  lemma {:induction false} LeadingZeros(n: nat, s: string)
    ensures NumberOf(Zeros(n) + s) == NumberOf(s)
  {
    var t := Zeros(n) + s;
    if s != [] {
      assert t[..|t| - 1] == Zeros(n) + s[..|s| - 1];
      LeadingZeros(n, s[..|s| - 1]);
    } else if n > 0 {
      assert t[..|t| - 1] == Zeros(n - 1) + [];
      LeadingZeros(n - 1, []);
    } else {
      assert t == [];
    }
  }

  // ---------------------------------------------------------------- splitting strings

  lemma FirstAt(a: string, b: string, c: char)
    requires c !in a
    ensures var s := a + [c] + b; s[|a|] == c && forall i | 0 <= i < |a| :: s[i] != c
  {
    assert forall i | 0 <= i < |a| :: (a + [c] + b)[i] == a[i];
  }

  /** A string splits in one way at the first occurrence of a character. */
  lemma SplitFirst(a: string, b: string, a': string, b': string, c: char)
    requires c !in a && c !in a' && a + [c] + b == a' + [c] + b'
    ensures a == a' && b == b'
  {
    var s := a + [c] + b;
    FirstAt(a, b, c);
    FirstAt(a', b', c);
    assert |a| == |a'|;
    assert a == s[..|a|] && a' == s[..|a|];
    assert b == s[|a| + 1..] && b' == s[|a| + 1..];
  }

  lemma LastAt(a: string, b: string, c: char)
    requires c !in b
    ensures var s := a + [c] + b; s[|a|] == c && forall i | |a| < i < |s| :: s[i] != c
  {
    var s := a + [c] + b;
    forall i | |a| < i < |s| ensures s[i] != c {
      assert s[i] == b[i - |a| - 1];
    }
  }

  /** And at the last. */
  lemma SplitLastChar(a: string, b: string, a': string, b': string, c: char)
    requires c !in b && c !in b' && a + [c] + b == a' + [c] + b'
    ensures a == a' && b == b'
  {
    var s := a + [c] + b;
    LastAt(a, b, c);
    LastAt(a', b', c);
    assert |a| == |a'|;
    assert a == s[..|a|] && a' == s[..|a|];
    assert b == s[|a| + 1..] && b' == s[|a| + 1..];
  }

  // ---------------------------------------------------------------- reading a printed number back

  /** The whole and fractional digits, and the exponent part, of a printed number. */
  datatype Parts = Parts(whole: string, fraction: Option<string>, exponent: Option<string>)

  function PartsOf(m: Money): Parts {
    var digits := Digits(m.coefficient);
    var n := |digits|;
    var adjusted := m.exponent + n - 1;
    if m.exponent <= 0 && adjusted >= -6 then
      if m.exponent == 0 then Parts(digits, None, None)
      else if n + m.exponent > 0 then Parts(digits[..n + m.exponent], Some(digits[n + m.exponent..]), None)
      else Parts("0", Some(Zeros(-(n + m.exponent)) + digits), None)
    else
      Parts(digits[..1], if n > 1 then Some(digits[1..]) else None, Some(Exponent(adjusted)))
  }

  ghost predicate Clean(p: Parts) {
    && AllDigits(p.whole)
    && (p.fraction.Some? ==> AllDigits(p.fraction.value))
  }

  function Mantissa(p: Parts): string {
    p.whole + (if p.fraction.Some? then "." + p.fraction.value else "")
  }

  function Assemble(p: Parts): string {
    Mantissa(p) + (if p.exponent.Some? then "E" + p.exponent.value else "")
  }

  lemma PartsClean(m: Money)
    ensures Clean(PartsOf(m))
  {
    var digits := Digits(m.coefficient);
    var n := |digits|;
    assert AllDigits(digits);
    assert AllDigits(digits[..1]) && AllDigits(digits[1..]);
    if -n < m.exponent < 0 {
      assert AllDigits(digits[..n + m.exponent]) && AllDigits(digits[n + m.exponent..]);
    }
  }

  lemma JoinPlain(p: Parts)
    ensures p.exponent.None? && p.fraction.None? ==> Assemble(p) == p.whole
    ensures p.exponent.None? && p.fraction.Some? ==> Assemble(p) == p.whole + "." + p.fraction.value
  {
    assert p.exponent.None? ==> Assemble(p) == Mantissa(p);
  }

  lemma PartsAssemble(m: Money)
    ensures Clean(PartsOf(m)) && Assemble(PartsOf(m)) == ScientificString(m)
  {
    PartsClean(m);
    var p := PartsOf(m);
    JoinPlain(p);
    hide Clean, Digits, Exponent, AllDigits;
    if p.exponent.None? {
      hide Assemble, Mantissa;
      if p.whole == "0" && m.exponent != 0 {
        assert "0" + "." == "0.";
      }
    }
  }

  /** The parts of a printed number can be read off the string. */
  lemma AssembleInjective(p: Parts, q: Parts)
    requires Clean(p) && Clean(q) && Assemble(p) == Assemble(q)
    ensures p == q
  {
    CleanMantissa(p);
    CleanMantissa(q);
    assert p.exponent.Some? <==> 'E' in Assemble(p) by {
      if p.exponent.Some? { assert Assemble(p)[|Mantissa(p)|] == 'E'; }
    }
    assert q.exponent.Some? <==> 'E' in Assemble(q) by {
      if q.exponent.Some? { assert Assemble(q)[|Mantissa(q)|] == 'E'; }
    }
    if p.exponent.Some? {
      assert Assemble(p) == Mantissa(p) + ['E'] + p.exponent.value;
      assert Assemble(q) == Mantissa(q) + ['E'] + q.exponent.value;
      SplitFirst(Mantissa(p), p.exponent.value, Mantissa(q), q.exponent.value, 'E');
    } else {
      assert Assemble(p) == Mantissa(p) && Assemble(q) == Mantissa(q);
    }
    MantissaInjective(p, q);
  }

  lemma NoneOfDigits(s: string, c: char)
    requires AllDigits(s) && !('0' <= c <= '9')
    ensures c !in s
  {
  }

  lemma CleanMantissa(p: Parts)
    requires Clean(p)
    ensures 'E' !in Mantissa(p) && '|' !in Mantissa(p)
    ensures p.fraction.Some? <==> '.' in Mantissa(p)
    ensures '.' !in p.whole
  {
    NoneOfDigits(p.whole, 'E');
    NoneOfDigits(p.whole, '|');
    NoneOfDigits(p.whole, '.');
    if p.fraction.Some? {
      NoneOfDigits(p.fraction.value, 'E');
      NoneOfDigits(p.fraction.value, '|');
      assert Mantissa(p)[|p.whole|] == '.';
    }
  }

  lemma MantissaInjective(p: Parts, q: Parts)
    requires Clean(p) && Clean(q) && Mantissa(p) == Mantissa(q)
    ensures p.whole == q.whole && p.fraction == q.fraction
  {
    CleanMantissa(p);
    CleanMantissa(q);
    if p.fraction.Some? {
      assert Mantissa(p) == p.whole + ['.'] + p.fraction.value;
      assert Mantissa(q) == q.whole + ['.'] + q.fraction.value;
      SplitFirst(p.whole, p.fraction.value, q.whole, q.fraction.value, '.');
    } else {
      assert Mantissa(p) == p.whole && Mantissa(q) == q.whole;
    }
  }

  function AllOf(p: Parts): string { p.whole + p.fraction.GetOr("") }

  function FractionLength(p: Parts): nat { |p.fraction.GetOr("")| }

  lemma PaddedNumber(k: nat, digits: string)
    ensures NumberOf("0" + (Zeros(k) + digits)) == NumberOf(digits)
  {
    assert Zeros(1) == "0";
    LeadingZeros(1, Zeros(k) + digits);
    LeadingZeros(k, digits);
  }

  /** The coefficient is the number the digits write. */
  lemma PartsCoefficient(m: Money)
    ensures NumberOf(AllOf(PartsOf(m))) == m.coefficient
  {
    var digits := Digits(m.coefficient);
    var n, p := |digits|, PartsOf(m);
    NumberOfDigits(m.coefficient);
    if m.exponent < 0 && n + m.exponent <= 0 && p.exponent.None? {
      PaddedNumber(-(n + m.exponent), digits);
    } else {
      assert AllOf(p) == digits;
    }
  }

  /** The exponent follows from the printed exponent and the places after the point. */
  lemma PartsExponent(m: Money)
    ensures PartsOf(m).exponent.None? ==> m.exponent + FractionLength(PartsOf(m)) == 0
    ensures PartsOf(m).exponent.Some? ==>
      PartsOf(m).exponent.value == Exponent(m.exponent + FractionLength(PartsOf(m)))
  {
  }

  lemma ExponentInjective(x: int, y: int)
    requires Exponent(x) == Exponent(y)
    ensures x == y
  {
    var a, b := Exponent(x), Exponent(y);
    assert a[0] == '-' || a[0] == '+';
    assert a[1..] == Digits(if x < 0 then -x else x) && b[1..] == Digits(if y < 0 then -y else y);
    NumberOfDigits(if x < 0 then -x else x);
    NumberOfDigits(if y < 0 then -y else y);
  }

  lemma ScientificStringInjective(a: Money, b: Money)
    requires ScientificString(a) == ScientificString(b)
    ensures a == b
  {
    hide ScientificString, PartsOf, Assemble, Digits, Exponent, AllOf, FractionLength, NumberOf, Clean;
    PartsAssemble(a);
    PartsAssemble(b);
    AssembleInjective(PartsOf(a), PartsOf(b));
    PartsCoefficient(a);
    PartsCoefficient(b);
    PartsExponent(a);
    PartsExponent(b);
    if PartsOf(a).exponent.Some? {
      ExponentInjective(a.exponent + FractionLength(PartsOf(a)), b.exponent + FractionLength(PartsOf(b)));
    }
  }

  // ---------------------------------------------------------------- normalization

  lemma {:induction false} NormalizeKeepsValue(m: Amount)
    ensures Units(Normalize(m)) == Units(m) && Normalize(m).coefficient % 10 != 0
    decreases m.coefficient
  {
    if m.coefficient % 10 == 0 {
      var shifted: Amount := Money(m.coefficient / 10, m.exponent + 1);
      assert Pow10(m.exponent + 9) == 10 * Pow10(m.exponent + 8);
      assert (m.coefficient / 10 * 10) * Pow10(m.exponent + 8) == m.coefficient / 10 * (10 * Pow10(m.exponent + 8));
      NormalizeKeepsValue(shifted);
    }
  }

  lemma Pow10Step(n: nat)
    ensures Pow10(n + 1) == 10 * Pow10(n)
  {
  }

  lemma TenfoldProduct(x: int, y: int)
    ensures (10 * x) * y == 10 * (x * y) && y * (10 * x) == 10 * (y * x)
  {
  }

  lemma {:induction false} Pow10Sum(a: nat, b: nat)
    ensures Pow10(a + b) == Pow10(a) * Pow10(b)
  {
    if a > 0 {
      Pow10Sum(a - 1, b);
      Pow10Step(a - 1);
      Pow10Step(a + b - 1);
      hide Pow10;
      TenfoldProduct(Pow10(a - 1), Pow10(b));
    }
  }

  lemma CancelFactor(x: int, y: int, p: int)
    requires p > 0 && x * p == y * p
    ensures x == y
  {
    assert (x - y) * p == 0;
  }

  lemma EndsInZero(x: int)
    ensures (10 * x) % 10 == 0
  {
  }

  lemma ShiftedEndsInZero(c: int, d: nat)
    requires d > 0
    ensures (c * Pow10(d)) % 10 == 0
  {
    Pow10Step(d - 1);
    hide Pow10;
    TenfoldProduct(Pow10(d - 1), c);
    EndsInZero(c * Pow10(d - 1));
  }

  /** A value has one representation without trailing zeros. */
  lemma NormalFormUnique(a: Amount, b: Amount)
    requires a.coefficient % 10 != 0 && b.coefficient % 10 != 0
    requires Units(a) == Units(b) && a.exponent <= b.exponent
    ensures a == b
  {
    var d, p := b.exponent - a.exponent, Pow10(a.exponent + 8);
    Pow10Sum(d, a.exponent + 8);
    assert b.coefficient * (Pow10(d) * p) == (b.coefficient * Pow10(d)) * p;
    CancelFactor(a.coefficient, b.coefficient * Pow10(d), p);
    if d > 0 {
      ShiftedEndsInZero(b.coefficient, d);
      assert false;
    }
  }

  lemma NormalizeIffEqual(a: Amount, b: Amount)
    ensures Normalize(a) == Normalize(b) <==> Units(a) == Units(b)
  {
    NormalizeKeepsValue(a);
    NormalizeKeepsValue(b);
    if Units(a) == Units(b) {
      if Normalize(a).exponent <= Normalize(b).exponent {
        NormalFormUnique(Normalize(a), Normalize(b));
      } else {
        NormalFormUnique(Normalize(b), Normalize(a));
      }
    }
  }

  // ---------------------------------------------------------------- the fingerprint

  lemma NoBar(m: Money, target: Currency)
    ensures '|' !in ScientificString(m) && '|' !in Value(target)
  {
    PartsAssemble(m);
    var p := PartsOf(m);
    CleanMantissa(p);
    if p.exponent.Some? {
      var adjusted := m.exponent + |Digits(m.coefficient)| - 1;
      assert p.exponent.value == Exponent(adjusted);
      NoneOfDigits(Digits(if adjusted < 0 then -adjusted else adjusted), '|');
    }
  }

  lemma TailsSplit(o: string, x: string, v: string, o': string, x': string, v': string)
    requires '|' !in x && '|' !in v && '|' !in x' && '|' !in v'
    requires o + "|" + (x + "|" + v) == o' + "|" + (x' + "|" + v')
    ensures o == o' && x == x' && v == v'
  {
    assert o + "|" + (x + "|" + v) == (o + "|" + x) + ['|'] + v;
    assert o' + "|" + (x' + "|" + v') == (o' + "|" + x') + ['|'] + v';
    SplitLastChar(o + "|" + x, v, o' + "|" + x', v', '|');
    SplitLastChar(o, x, o', x', '|');
  }

  /** Two requests have the same canonical string exactly when owner, value and target agree, however the
      amounts were written and whatever characters the owner contains. */
  lemma FingerprintIdentifies(o: string, a: Amount, t: Currency, o': string, a': Amount, t': Currency)
    ensures RequestFingerprint(o, a, t) == RequestFingerprint(o', a', t') <==>
      o == o' && Units(a) == Units(a') && t == t'
  {
    NormalizeIffEqual(a, a');
    if RequestFingerprint(o, a, t) == RequestFingerprint(o', a', t') {
      NoBar(Normalize(a), t);
      NoBar(Normalize(a'), t');
      TailsSplit(o, ScientificString(Normalize(a)), Value(t), o', ScientificString(Normalize(a')), Value(t'));
      ScientificStringInjective(Normalize(a), Normalize(a'));
      ValueInjective(t, t');
    }
  }

  // ---------------------------------------------------------------- examples in print

  /** A hundred dollars, however written, prints in scientific notation; the parts stand in this order. */
  lemma PrintedRequest()
    ensures RequestFingerprint("demo", Money(10000, -2), PHP) == "demo|1E+2|PHP"
    ensures RequestFingerprint("demo", Money(100, 0), PHP) == "demo|1E+2|PHP"
    ensures Units(Money(100, 0)) == 10_000_000_000 && Units(Money(10000, -2)) == 10_000_000_000
  {
    var hundred: Amount := Money(1, 2);
    assert Normalize(Money(10, 1)) == hundred;
    assert Normalize(Money(100, 0)) == hundred;
    assert Normalize(Money(1000, -1)) == hundred;
    assert Normalize(Money(10000, -2)) == hundred;
    assert ScientificString(hundred) == "1E+2" by { OneDigit(1); OneDigit(2); }
    assert Pow10(0) == 1 && Pow10(1) == 10 && Pow10(2) == 100 && Pow10(3) == 1000 && Pow10(4) == 10000;
    assert Pow10(5) == 100000 && Pow10(6) == 1000000 && Pow10(7) == 10000000 && Pow10(8) == 100000000;
    hide Normalize, ScientificString;
    assert "demo" + "|" + ("1E+2" + "|" + "PHP") == "demo|1E+2|PHP";
  }

  lemma OneDigit(d: nat)
    requires d < 10
    ensures Digits(d) == [DigitChar(d)]
  {
  }

  /** A fraction, and a number so small that it prints with an exponent. */
  lemma PrintedFractions()
    ensures ScientificString(Money(105, -2)) == "1.05" && ScientificString(Money(5, -8)) == "5E-8"
    ensures ScientificString(Money(5, -3)) == "0.005" && ScientificString(Money(12, 3)) == "1.2E+4"
  {
    hide ScientificString;
    PrintedOneOhFive();
    PrintedSmall();
    PrintedLarge();
  }

  lemma PrintedOneOhFive()
    ensures ScientificString(Money(105, -2)) == "1.05"
  {
    OneDigit(1); OneDigit(5);
    assert Digits(10) == Digits(1) + [DigitChar(0)] && Digits(105) == Digits(10) + [DigitChar(5)];
    assert Digits(105) == "105";
    hide Digits;
    assert "105"[..1] + "." + "105"[1..] == "1.05";
  }

  lemma PrintedSmall()
    ensures ScientificString(Money(5, -8)) == "5E-8" && ScientificString(Money(5, -3)) == "0.005"
  {
    OneDigit(5); OneDigit(8);
    assert Digits(5) == "5" && Digits(8) == "8" && Zeros(2) == "00";
    hide Digits;
    assert "0." + ("00" + "5") == "0.005";
    assert "5"[..1] + "" + "E" + ("-" + "8") == "5E-8";
  }

  lemma PrintedLarge()
    ensures ScientificString(Money(12, 3)) == "1.2E+4"
  {
    OneDigit(1); OneDigit(2); OneDigit(4);
    assert Digits(12) == Digits(1) + [DigitChar(2)];
    assert Digits(12) == "12" && Digits(4) == "4";
    hide Digits;
    assert "12"[..1] + ("." + "12"[1..]) + "E" + ("+" + "4") == "1.2E+4";
  }
}
