/** The Option type used for values that JavaScript may leave as NaN or undefined. */
module Wrappers {
  datatype Option<+T> = None | Some(value: T)
}

/**
 * The small part of JavaScript's value semantics the handlers rely on:
 * JSON values, the `x || fallback` idiom on numbers, property lookup on an
 * object literal (which also finds the members every object inherits), and
 * the decimal rendering of a non-negative integer.
 */
module Js {
  import opened Wrappers

  datatype Json =
    | Null
    | Bool(b: bool)
    | Num(n: real)
    | Str(s: string)
    | Arr(items: seq<Json>)
    | Obj(fields: map<string, Json>)

  /** A plain JavaScript object: its own enumerable properties. */
  type Object = map<string, Json>

  /** Names every object literal inherits from Object.prototype. */
  const ObjectPrototypeKeys: set<string> :=
    {"constructor", "__proto__", "toString", "toLocaleString", "valueOf",
     "hasOwnProperty", "isPrototypeOf", "propertyIsEnumerable",
     "__defineGetter__", "__defineSetter__", "__lookupGetter__", "__lookupSetter__"}

  /** What `o[key]` finds: an own property, an inherited member, or nothing. */
  datatype Property<V> = Own(value: V) | Inherited | Missing

  function GetProperty<V>(o: map<string, V>, key: string): Property<V>
  {
    if key in o then Own(o[key])
    else if key in ObjectPrototypeKeys then Inherited
    else Missing
  }

  /** `parseInt(x) || fallback`: NaN and 0 are falsy. */
  function IntOr(parsed: Option<int>, fallback: int): int
  {
    if parsed.Some? && parsed.value != 0 then parsed.value else fallback
  }

  /** `parseFloat(x) || fallback`: NaN and 0 are falsy. */
  function RealOr(parsed: Option<real>, fallback: real): real
  {
    if parsed.Some? && parsed.value != 0.0 then parsed.value else fallback
  }

  /** `a[i] || fallback` on an array of numbers: an index outside the array reads undefined. */
  function ElementOr(a: seq<int>, i: int, fallback: int): int
  {
    if 0 <= i < |a| && a[i] != 0 then a[i] else fallback
  }

  /** `s.slice(-n)` for n > 0: the last n elements, or all of s when it is shorter. */
  function SliceLast<T>(s: seq<T>, n: nat): seq<T>
  {
    if |s| <= n then s else s[|s| - n..]
  }

  // Decimal digits

  predicate IsDigit(c: char) { '0' <= c <= '9' }

  predicate AllDigits(s: string) { forall i :: 0 <= i < |s| ==> IsDigit(s[i]) }

  function DigitChar(d: nat): char
    requires d < 10
  {
    ('0' as int + d) as char
  }

  function DigitValue(c: char): nat
    requires IsDigit(c)
  {
    c as int - '0' as int
  }

  function Pow10(k: nat): (p: nat)
    ensures p >= 1
  {
    if k == 0 then 1 else 10 * Pow10(k - 1)
  }

  /** `String(n)` for a non-negative integer: its digits, most significant first, without leading zeros. */
  function Decimal(n: nat): (s: string)
    ensures 1 <= |s| && AllDigits(s)
    ensures s[0] == '0' ==> n == 0
    decreases n
  {
    if n < 10 then [DigitChar(n)] else Decimal(n / 10) + [DigitChar(n % 10)]
  }

  /** The value of a string of decimal digits. */
  function ParseDecimal(s: string): nat
    requires AllDigits(s)
  {
    if s == [] then 0 else 10 * ParseDecimal(s[..|s| - 1]) + DigitValue(s[|s| - 1])
  }

  /** Reading back the digits of n gives n. */
  lemma {:induction false} ParseDecimalOfDecimal(n: nat)
    ensures ParseDecimal(Decimal(n)) == n
    decreases n
  {
    var s := Decimal(n);
    if n >= 10 {
      assert s[..|s| - 1] == Decimal(n / 10);
      ParseDecimalOfDecimal(n / 10);
    }
  }

  /** A number between 10^k and 10^(k+1) - 1 has exactly k + 1 digits. */
  lemma {:induction false} DecimalLength(n: nat, k: nat)
    requires Pow10(k) <= n < Pow10(k + 1)
    ensures |Decimal(n)| == k + 1
    decreases k
  {
    if k > 0 {
      assert Pow10(k) == 10 * Pow10(k - 1);
      DecimalLength(n / 10, k - 1);
    }
  }

  lemma MulAtLeast(k: int, d: int)
    requires k >= 1 && d > 0
    ensures k * d >= d
  {
    assert k * d == (k - 1) * d + d;
  }

  lemma ModUnique(n: int, d: int, q: int, r: int)
    requires d > 0 && 0 <= r < d && n == q * d + r
    ensures n % d == r
  {
    var q', r' := n / d, n % d;
    assert q' * d + r' == q * d + r;
    if q' > q {
      MulAtLeast(q' - q, d);
    } else if q' < q {
      MulAtLeast(q - q', d);
    }
  }

  /** Appending a digit v to a: (10a + v) mod 10m is 10 (a mod m) + v. */
  lemma ShiftMod(a: nat, v: nat, m: nat)
    requires v < 10 && m > 0
    ensures (10 * a + v) % (10 * m) == 10 * (a % m) + v
  {
    var q, r := a / m, a % m;
    assert a == q * m + r;
    assert 10 * a + v == q * (10 * m) + (10 * r + v);
    ModUnique(10 * a + v, 10 * m, q, 10 * r + v);
  }

  /** The digits of s from position i on are the value of s modulo 10^(|s| - i). */
  lemma {:induction false} SuffixValue(s: string, i: nat)
    requires AllDigits(s) && i <= |s|
    ensures ParseDecimal(s[i..]) == ParseDecimal(s) % Pow10(|s| - i)
    decreases |s|
  {
    if i == |s| {
      assert s[i..] == [];
    } else {
      var t := s[..|s| - 1];
      var u := s[i..];
      assert u[..|u| - 1] == t[i..];
      assert u[|u| - 1] == s[|s| - 1];
      SuffixValue(t, i);
      ShiftMod(ParseDecimal(t), DigitValue(s[|s| - 1]), Pow10(|t| - i));
    }
  }

  lemma {:induction false} Pow10Monotone(j: nat, k: nat)
    requires j <= k
    ensures Pow10(j) <= Pow10(k)
    decreases k
  {
    if j < k {
      Pow10Monotone(j, k - 1);
    }
  }

  /** `String(n).slice(-6)` holds the value n mod 10^6, and has six digits once n has that many. */
  lemma LastSixDigits(n: nat)
    ensures var tail := SliceLast(Decimal(n), 6);
      && AllDigits(tail) && 1 <= |tail| <= 6
      && ParseDecimal(tail) == n % 1000000
      && (n >= 100000 ==> |tail| == 6)
  {
    var s := Decimal(n);
    ParseDecimalOfDecimal(n);
    assert Pow10(6) == 1000000;
    if |s| > 6 {
      SuffixValue(s, |s| - 6);
    } else {
      SuffixValue(s, 0);
      assert s[0..] == s;
      Pow10Monotone(|s|, 6);
      if n >= 100000 {
        assert Pow10(5) == 100000;
        if |s| < 6 {
          Pow10Monotone(|s|, 5);
          assert false;
        }
      }
    }
  }
}
