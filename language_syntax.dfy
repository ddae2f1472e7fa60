/**
 * The pure pieces of start/language_syntax/main.go: `div`, the temperature
 * if-else chain and the pet `switch` of `main`.
 */
module LanguageSyntax {

  function Abs(x: int): (r: nat)
  {
    if x < 0 then -x else x
  }

  /**
   * Go's `a / b` on integers: the quotient truncated toward zero (section
   * "Integer operators" of The Go Programming Language Specification). Dafny's
   * own `/` is Euclidean, so truncation is spelled out through magnitudes.
   */
  function Quo(a: int, b: int): int
    requires b != 0
  {
    if (a < 0) == (b < 0) then Abs(a) / Abs(b) else -(Abs(a) / Abs(b))
  }

  /** Go's `a % b`: the remainder that goes with the truncated quotient, it has the sign of `a`. */
  function Rem(a: int, b: int): int
    requires b != 0
  {
    if a < 0 then -(Abs(a) % Abs(b)) else Abs(a) % Abs(b)
  }

  /**
   * `div(a, b)` returns `a / b, a % b`. A zero divisor is a run-time panic in
   * Go, so callers must not pass one. The pair satisfies Go's division law,
   * the remainder is smaller than the divisor in magnitude and is zero or has
   * the sign of `a`, and the quotient is truncated toward zero.
   */
  function Div(a: int, b: int): (qr: (int, int))
    requires b != 0
    ensures qr.0 * b + qr.1 == a
    ensures Abs(qr.1) < Abs(b)
    ensures qr.1 == 0 || (qr.1 < 0) == (a < 0)
    ensures Abs(qr.0) == Abs(a) / Abs(b)
    ensures qr.0 == 0 || (qr.0 < 0) == ((a < 0) != (b < 0))
  {
    DivLaw(a, b);
    DivSigns(a, b);
    (Quo(a, b), Rem(a, b))
  }

  /** Magnitudes and signs of the truncated quotient and remainder. */
  lemma DivSigns(a: int, b: int)
    requires b != 0
    ensures Abs(Rem(a, b)) < Abs(b)
    ensures Rem(a, b) == 0 || (Rem(a, b) < 0) == (a < 0)
    ensures Abs(Quo(a, b)) == Abs(a) / Abs(b)
    ensures Quo(a, b) == 0 || (Quo(a, b) < 0) == ((a < 0) != (b < 0))
  {
    var n: int, d: int := Abs(a), Abs(b);
    var q: int, r: int := n / d, n % d;
    NatDivMod(n, d);
    if a < 0 {
      assert Rem(a, b) == -r;
    } else {
      assert Rem(a, b) == r;
    }
    if (a < 0) == (b < 0) {
      assert Quo(a, b) == q;
    } else {
      assert Quo(a, b) == -q;
    }
  }

  /** Go's division law `(a / b) * b + a % b == a`, case by case on the signs. */
  lemma DivLaw(a: int, b: int)
    requires b != 0
    ensures Quo(a, b) * b + Rem(a, b) == a
  {
    var n: int, d: int := Abs(a), Abs(b);
    var q: int, r: int := n / d, n % d;
    assert n == q * d + r;
    if a >= 0 && b > 0 {
      assert Quo(a, b) * b == q * d;
    } else if a >= 0 {
      NegMul(q, d);
      assert Quo(a, b) * b == (-q) * (-d) == q * d;
    } else if b > 0 {
      NegMul(q, d);
      assert Quo(a, b) * b == (-q) * d == -(q * d);
    } else {
      NegMul(q, d);
      assert Quo(a, b) * b == q * (-d) == -(q * d);
    }
  }

  lemma NatDivMod(n: int, d: int)
    requires n >= 0 && d > 0
    ensures 0 <= n / d && 0 <= n % d < d
  {
  }

  lemma NegMul(x: int, y: int)
    ensures (-x) * y == -(x * y) && x * (-y) == -(x * y) && (-x) * (-y) == x * y
  {
  }

  /** The truncated quotient and remainder are the only pair with the properties `Div` ensures. */
  lemma DivUnique(a: int, b: int, q: int, r: int)
    requires b != 0
    requires q * b + r == a
    requires Abs(r) < Abs(b)
    requires r == 0 || (r < 0) == (a < 0)
    ensures (q, r) == Div(a, b)
  {
    var (q0, r0) := Div(a, b);
    assert (q - q0) * b == r0 - r;
    if q != q0 {
      assert Abs(r0 - r) < Abs(b);
      MulMagnitude(q - q0, b);
      assert false;
    }
  }

  /** A non-zero multiple of `b` is at least `b` in magnitude. */
  lemma MulMagnitude(k: int, b: int)
    requires k != 0 && b != 0
    ensures Abs(k * b) >= Abs(b)
  {
    var x, y := Abs(k), Abs(b);
    NatMulAtLeast(x, y);
    NegMul(x, y);
    assert Abs(k * b) == x * y;
  }

  lemma NatMulAtLeast(x: nat, y: nat)
    requires x >= 1
    ensures x * y >= y
  {
    assert x * y == (x - 1) * y + y;
  }

  /** `main`'s `div(100, 3)` gives 33 and 1. */
  lemma DivExample()
    ensures Div(100, 3) == (33, 1)
    ensures Div(-7, 2) == (-3, -1)
  {
  }

  const MinInt64: int := -0x8000_0000_0000_0000
  const MaxInt64: int := 0x7fff_ffff_ffff_ffff

  predicate IsInt64(x: int)
  {
    MinInt64 <= x <= MaxInt64
  }

  /**
   * `div` on Go's `int` on 64-bit targets (`int` is 32 bits wide on 32-bit targets, which is
   * not modelled). The quotient of the most negative value by -1
   * overflows; Go's specification fixes it as the dividend itself with a
   * remainder of zero. Every other case is the exact `Div`.
   */
  function Div64(a: int, b: int): (qr: (int, int))
    requires IsInt64(a) && IsInt64(b) && b != 0
    ensures IsInt64(qr.0) && IsInt64(qr.1)
    ensures a == MinInt64 && b == -1 ==> qr == (MinInt64, 0)
    ensures !(a == MinInt64 && b == -1) ==> qr == Div(a, b)
  {
    if a == MinInt64 && b == -1 then (a, 0) else
    var qr := Div(a, b);
    QuoBound(Abs(a), Abs(b));
    qr
  }

  /** A truncated quotient is no larger than the dividend, and at most half of it for a divisor of 2 or more. */
  lemma QuoBound(n: int, d: int)
    requires n >= 0 && d > 0
    ensures n / d <= n
    ensures d >= 2 ==> 2 * (n / d) <= n
  {
    NatDivMod(n, d);
    var q := n / d;
    assert q * d <= n;
    NatMulAtLeast(d, q);
    if d >= 2 {
      assert q * d == q * (d - 2) + 2 * q;
      assert q * (d - 2) >= 0;
    }
  }

  /** In that one overflowing case the law q * b + r == a fails by 2^64 exactly. */
  lemma Div64Overflow()
    ensures Div64(MinInt64, -1).0 * -1 + Div64(MinInt64, -1).1 == MinInt64 + 0x1_0000_0000_0000_0000
  {
  }

  /** The message printed by the temperature if-else chain of `main`. */
  function Weather(temperature: int): string
  {
    if temperature > 20 then "Тепло"
    else if temperature > 10 then "Прохладно"
    else if temperature > 0 then "Холодно"
    else "Мороз"
  }

  /** Each message belongs to exactly one temperature band; `main`'s 15 is "Прохладно". */
  lemma WeatherBands(t: int)
    ensures Weather(t) == "Тепло" <==> t > 20
    ensures Weather(t) == "Прохладно" <==> 10 < t <= 20
    ensures Weather(t) == "Холодно" <==> 0 < t <= 10
    ensures Weather(t) == "Мороз" <==> t <= 0
    ensures Weather(15) == "Прохладно"
  {
  }

  /**
   * The pet `switch` of `main`: the name chosen for `pet`, or `""` (the zero
   * value of `petName`) together with `refused` when the default branch prints
   * its refusal. The second case is spelled "соабка" in the source.
   */
  function PetName(pet: string): (r: (string, bool))
  {
    if pet == "кот" then ("Мурзик", false)
    else if pet == "соабка" then ("Тузик", false)
    else if pet == "попугай" then ("Кеша", false)
    else ("", true)
  }

  /** The refusal branch runs exactly when no name is chosen, and only for the other pets. */
  lemma PetNameCases(pet: string)
    ensures PetName(pet).1 <==> PetName(pet).0 == ""
    ensures PetName(pet).1 <==> pet != "кот" && pet != "соабка" && pet != "попугай"
    ensures PetName("кот").0 == "Мурзик"
    ensures PetName("соабка").0 == "Тузик"
    ensures PetName("попугай").0 == "Кеша"
    ensures PetName("собака") == ("", true)
    ensures PetName("змея") == ("", true)
  {
  }

  /**
   * The `switch` with its second case spelled as evidently intended, "собака".
   * It agrees with `PetName` on every pet except the two spellings.
   */
  function PetNameIntended(pet: string): (r: (string, bool))
  {
    if pet == "кот" then ("Мурзик", false)
    else if pet == "собака" then ("Тузик", false)
    else if pet == "попугай" then ("Кеша", false)
    else ("", true)
  }

  /** The intended switch names the dog and differs from the written one only on "собака" and "соабка". */
  lemma PetNameIntendedCases(pet: string)
    ensures PetNameIntended("собака") == ("Тузик", false)
    ensures PetNameIntended("соабка") == ("", true)
    ensures pet != "собака" && pet != "соабка" ==> PetNameIntended(pet) == PetName(pet)
    ensures PetNameIntended(pet).1 <==> PetNameIntended(pet).0 == ""
  {
  }
}
