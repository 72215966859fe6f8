/**
 * Arithmetic and collection helpers shared by every part of the model:
 * the JavaScript rounding idioms the simulator applies to amounts,
 * integer powers, year-indexed amount tables, decimal ids and string joins.
 * Amounts are exact reals; IEEE-754 effects are not modelled.
 */
module Money {

  datatype Option<T> = None | Some(value: T)

  /**
   * JavaScript `x || d` on an optional number. An absent optional number is
   * modelled as 0, which JavaScript treats the same way: both fall back to `d`.
   */
  function OrDefault(x: int, d: int): (r: int)
    ensures x != 0 ==> r == x
    ensures x == 0 ==> r == d
  {
    if x != 0 then x else d
  }

  function OrDefaultReal(x: real, d: real): (r: real)
    ensures x != 0.0 ==> r == x
    ensures x == 0.0 ==> r == d
  {
    if x != 0.0 then x else d
  }

  /** `Math.floor(x)` as a real. */
  function Floor(x: real): (r: real)
    ensures r <= x < r + 1.0
    ensures IsWhole(r)
  {
    x.Floor as real
  }

  predicate IsWhole(x: real) { x.Floor as real == x }

  /** Whole numbers add up to a whole number. */
  lemma WholeSum(x: real, y: real)
    requires IsWhole(x) && IsWhole(y)
    ensures IsWhole(x + y)
  {
    assert x + y == (x.Floor + y.Floor) as real;
  }

  lemma FloorMonotone(x: real, y: real)
    requires x <= y
    ensures Floor(x) <= Floor(y)
  {
    assert x.Floor <= y.Floor;
  }

  lemma FloorNonNegative(x: real)
    requires x >= 0.0
    ensures Floor(x) >= 0.0
  {
    assert x.Floor >= 0;
  }

  /** `Math.round(x)`: the nearest integer, halves rounded up. */
  function Round(x: real): (r: int)
    ensures r as real - 0.5 <= x < r as real + 0.5
  {
    (x + 0.5).Floor
  }

  /**
   * `Math.round(x * 10) / 10` and `Number(x.toFixed(1))`: the nearest tenth.
   */
  function Round1(x: real): (r: real)
    ensures r - 0.05 <= x < r + 0.05
    ensures IsTenth(r)
  {
    Round(10.0 * x) as real / 10.0
  }

  /** A multiple of one tenth. */
  predicate IsTenth(x: real) { IsWhole(10.0 * x) }

  lemma Round1OfTenth(x: real)
    requires IsTenth(x)
    ensures Round1(x) == x
  {
    var k := (10.0 * x).Floor;
    assert 10.0 * x == k as real;
    assert Round(10.0 * x) == k;
  }

  lemma Round1Idempotent(x: real)
    ensures Round1(Round1(x)) == Round1(x)
  {
    Round1OfTenth(Round1(x));
  }

  lemma {:induction false} Round1Monotone(x: real, y: real)
    requires x <= y
    ensures Round1(x) <= Round1(y)
  {
    assert (10.0 * x + 0.5).Floor <= (10.0 * y + 0.5).Floor;
  }

  lemma Round1NonNegative(x: real)
    requires x >= 0.0
    ensures Round1(x) >= 0.0
  {
    assert (10.0 * x + 0.5).Floor >= 0;
  }

  function Abs(x: real): (r: real)
    ensures r >= 0.0 && (r == x || r == -x)
  {
    if x < 0.0 then -x else x
  }

  function Max(x: real, y: real): (r: real)
    ensures r >= x && r >= y && (r == x || r == y)
  {
    if x >= y then x else y
  }

  function Min(x: real, y: real): (r: real)
    ensures r <= x && r <= y && (r == x || r == y)
  {
    if x <= y then x else y
  }

  function MinInt(x: int, y: int): (r: int)
    ensures r <= x && r <= y && (r == x || r == y)
  {
    if x <= y then x else y
  }

  function MaxInt(x: int, y: int): (r: int)
    ensures r >= x && r >= y && (r == x || r == y)
  {
    if x >= y then x else y
  }

  lemma MulNonNegative(x: real, y: real)
    ensures x >= 0.0 && y >= 0.0 ==> x * y >= 0.0
  {
  }

  /** Multiplying by a non-negative factor keeps order. */
  lemma MulMonotone(a: real, x: real, y: real)
    requires a >= 0.0 && x <= y
    ensures a * x <= a * y
  {
    assert a * y - a * x == a * (y - x);
    MulNonNegative(a, y - x);
  }

  /** Dividing by a positive number keeps order. */
  lemma DivMonotone(x: real, y: real, d: real)
    requires d > 0.0 && x <= y
    ensures x / d <= y / d
  {
    var inv := 1.0 / d;
    assert inv > 0.0;
    assert x / d == x * inv;
    assert y / d == y * inv;
    MulMonotone(inv, x, y);
  }

  /** `b ** n` for a natural exponent. */
  function Pow(b: real, n: nat): real
  {
    if n == 0 then 1.0 else b * Pow(b, n - 1)
  }

  /**
   * `Math.pow(b, e)` for an integer exponent; a negative exponent takes the reciprocal.
   * `Math.pow(0, e)` with e < 0 is Infinity in JavaScript; this model gives 0 there.
   */
  function Factor(b: real, e: int): real
  {
    if e >= 0 then Pow(b, e)
    else if Pow(b, -e) == 0.0 then 0.0
    else 1.0 / Pow(b, -e)
  }

  lemma {:induction false} PowAtLeastOne(b: real, n: nat)
    requires b >= 1.0
    ensures Pow(b, n) >= 1.0
  {
    if n > 0 {
      PowAtLeastOne(b, n - 1);
      assert b * Pow(b, n - 1) >= 1.0 * Pow(b, n - 1);
    }
  }

  lemma {:induction false} PowPositive(b: real, n: nat)
    requires b > 0.0
    ensures Pow(b, n) > 0.0
  {
    if n > 0 {
      PowPositive(b, n - 1);
    }
  }

  /** With a base above one, a positive power is above one. */
  lemma {:induction false} PowAboveOne(b: real, n: nat)
    requires b > 1.0 && n >= 1
    ensures Pow(b, n) > 1.0
  {
    PowAtLeastOne(b, n - 1);
    assert b * Pow(b, n - 1) >= b * 1.0;
  }

  /** With a base of at least one, powers grow with the exponent. */
  lemma {:induction false} PowMonotone(b: real, m: nat, n: nat)
    requires b >= 1.0 && m <= n
    ensures Pow(b, m) <= Pow(b, n)
  {
    if m < n {
      PowMonotone(b, m, n - 1);
      PowAtLeastOne(b, n - 1);
      assert b * Pow(b, n - 1) >= 1.0 * Pow(b, n - 1);
    }
  }

  /** A year-indexed table of amounts (`Record<number, number>`). */
  type YearMap = map<int, real>

  /** `amounts[year] || 0`. */
  function Get(m: YearMap, y: int): (r: real)
    ensures y in m ==> r == m[y]
    ensures y !in m ==> r == 0.0
  {
    if y in m then m[y] else 0.0
  }

  /** `{...base, ...over}`: entries of `over` win. */
  function Merge(base: YearMap, over: YearMap): (r: YearMap)
    ensures r.Keys == base.Keys + over.Keys
    ensures forall y :: y in over ==> r[y] == over[y]
    ensures forall y :: y in base && y !in over ==> r[y] == base[y]
  {
    map y | y in base.Keys + over.Keys :: if y in over then over[y] else base[y]
  }

  /** A map that has the keys and values of `over` on top of `base` is their merge. */
  lemma MergeWritten(r: YearMap, base: YearMap, over: YearMap)
    requires forall y :: y in r <==> y in base || y in over
    requires forall y :: y in over ==> r[y] == over[y]
    requires forall y :: y in base && y !in over ==> r[y] == base[y]
    ensures r == Merge(base, over)
  {
    var merged := Merge(base, over);
    assert forall y :: y in r.Keys <==> y in base.Keys + over.Keys;
    assert r.Keys == merged.Keys;
    forall y | y in r
      ensures r[y] == merged[y]
    {
    }
  }

  /** The sum of `f` over a sequence, built from the front (the order of `forEach`). */
  function SumOf<T>(xs: seq<T>, f: T -> real): real
  {
    if xs == [] then 0.0 else SumOf(xs[..|xs| - 1], f) + f(xs[|xs| - 1])
  }

  lemma {:induction false} SumOfAppend<T>(xs: seq<T>, ys: seq<T>, f: T -> real)
    ensures SumOf(xs + ys, f) == SumOf(xs, f) + SumOf(ys, f)
  {
    if ys == [] {
      assert xs + ys == xs;
    } else {
      var n := |ys| - 1;
      assert (xs + ys)[..|xs + ys| - 1] == xs + ys[..n];
      SumOfAppend(xs, ys[..n], f);
    }
  }

  /** A `forEach` that accumulates `total += f(x)`. */
  method SumBy<T>(xs: seq<T>, f: T -> real) returns (total: real)
    ensures total == SumOf(xs, f)
  {
    total := 0.0;
    var i := 0;
    while i < |xs|
      invariant 0 <= i <= |xs|
      invariant total == SumOf(xs[..i], f)
    {
      assert xs[..i + 1][..i] == xs[..i];
      total := total + f(xs[i]);
      i := i + 1;
    }
    assert xs[..i] == xs;
  }

  lemma {:induction false} SumOfNonNegative<T>(xs: seq<T>, f: T -> real)
    requires forall i :: 0 <= i < |xs| ==> f(xs[i]) >= 0.0
    ensures SumOf(xs, f) >= 0.0
  {
    if xs != [] {
      SumOfNonNegative(xs[..|xs| - 1], f);
    }
  }

  /** `xs.filter((_, i) => i !== index)`. */
  function RemoveAt<T>(xs: seq<T>, index: int): (r: seq<T>)
    ensures 0 <= index < |xs| ==> |r| == |xs| - 1
    ensures !(0 <= index < |xs|) ==> r == xs
    ensures forall j :: 0 <= j < index && j < |xs| ==> r[j] == xs[j]
    ensures forall j :: 0 <= index <= j < |xs| - 1 ==> r[j] == xs[j + 1]
  {
    if 0 <= index < |xs| then xs[..index] + xs[index + 1..] else xs
  }

  /** `xs.map(x => p(x) ? f(x) : x)`. */
  function MapWhere<T>(xs: seq<T>, p: T -> bool, f: T -> T): (r: seq<T>)
    ensures |r| == |xs|
    ensures forall i :: 0 <= i < |xs| ==> r[i] == (if p(xs[i]) then f(xs[i]) else xs[i])
  {
    if xs == [] then [] else MapWhere(xs[..|xs| - 1], p, f) + [if p(xs[|xs| - 1]) then f(xs[|xs| - 1]) else xs[|xs| - 1]]
  }

  /** The index of the first element satisfying `p` (`findIndex`, or `find` read through the index). */
  function FirstWhere<T>(xs: seq<T>, p: T -> bool): (r: Option<nat>)
    ensures r.Some? ==> r.value < |xs| && p(xs[r.value]) && forall j :: 0 <= j < r.value ==> !p(xs[j])
    ensures r.None? ==> forall j :: 0 <= j < |xs| ==> !p(xs[j])
  {
    if xs == [] then None
    else if p(xs[0]) then Some(0)
    else match FirstWhere(xs[1..], p)
      case None => None
      case Some(k) => Some(k + 1)
  }

  /** `m` with each of the `k` years from `start` on set to its value under `f`, written year by year. */
  function Override(m: YearMap, start: int, k: nat, f: int -> real): (r: YearMap)
    ensures forall y :: y in r <==> y in m || start <= y < start + k
    ensures forall y {:trigger f(y)} :: start <= y < start + k ==> r[y] == f(y)
    ensures forall y :: y in m && !(start <= y < start + k) ==> r[y] == m[y]
  {
    if k == 0 then m else Override(m, start, k - 1, f)[start + (k - 1) := f(start + (k - 1))]
  }

  /** One more year written. */
  lemma OverrideStep(m: YearMap, start: int, k: nat, f: int -> real)
    ensures Override(m, start, k + 1, f) == Override(m, start, k, f)[start + k := f(start + k)]
  {
  }

  /** Writing the next year's value extends the override by one year. */
  lemma OverrideWrite(m: YearMap, start: int, k: nat, f: int -> real, acc: YearMap, v: real)
    requires acc == Override(m, start, k, f) && v == f(start + k)
    ensures acc[start + k := v] == Override(m, start, k + 1, f)
  {
  }

  /** `years.forEach(year => m[year] = f(year))` over `k` years from `start`. */
  method FillYears(m: YearMap, start: int, k: nat, f: int -> real) returns (r: YearMap)
    ensures r == Override(m, start, k, f)
  {
    r := m;
    var i := 0;
    while i < k
      invariant 0 <= i <= k
      invariant r == Override(m, start, i, f)
    {
      OverrideStep(m, start, i, f);
      r := r[start + i := f(start + i)];
      i := i + 1;
    }
  }

  /** `m || {}` for an optional year map. */
  function OrEmpty(m: Option<YearMap>): YearMap
  {
    if m.Some? then m.value else map[]
  }

  /** A function of every year with the same value. */
  function Constant(v: real): int -> real
  {
    (y: int) => v
  }

  /** The values of `f` at the `k` years from `start` on, in order. */
  function Sample<T>(f: int -> T, start: int, k: nat): (r: seq<T>)
    ensures |r| == k
  {
    if k == 0 then [] else Sample(f, start, k - 1) + [f(start + (k - 1))]
  }

  lemma {:induction false} SampleAt<T>(f: int -> T, start: int, k: nat, i: nat)
    requires i < k
    ensures Sample(f, start, k)[i] == f(start + i)
  {
    if i < k - 1 {
      SampleAt(f, start, k - 1, i);
    }
  }

  /** Sampling fewer years gives a prefix of sampling more. */
  lemma {:induction false} SamplePrefix<T>(f: int -> T, start: int, n: nat, k: nat)
    requires k <= n
    ensures Sample(f, start, n)[..k] == Sample(f, start, k)
    decreases n
  {
    if k < n {
      SamplePrefix(f, start, n - 1, k);
      assert Sample(f, start, n)[..n - 1] == Sample(f, start, n - 1);
      assert Sample(f, start, n)[..k] == Sample(f, start, n)[..n - 1][..k];
    } else {
      assert Sample(f, start, n)[..k] == Sample(f, start, n);
    }
  }

  /** A set is empty or has a member. */
  lemma NonEmptyHasMember(s: set<int>)
    ensures s == {} || exists y :: y in s
  {
    assert (forall y :: y !in s) ==> s == {};
  }

  /**
   * The sum of `f` over the entries of `m` whose keys are in `keys`, in no
   * particular order (the order of `Object.entries` does not matter to a sum).
   */
  ghost function SumOverKeys(m: YearMap, keys: set<int>, f: real -> real): real
    requires keys <= m.Keys
    decreases keys
  {
    if keys == {} then 0.0
    else
      NonEmptyHasMember(keys);
      var k :| k in keys;
      f(m[k]) + SumOverKeys(m, keys - {k}, f)
  }

  /** Any key can be taken out first. */
  lemma {:induction false} SumOverKeysRemove(m: YearMap, keys: set<int>, f: real -> real, y: int)
    requires keys <= m.Keys && y in keys
    ensures SumOverKeys(m, keys, f) == f(m[y]) + SumOverKeys(m, keys - {y}, f)
    decreases keys
  {
    NonEmptyHasMember(keys);
    var k :| k in keys && SumOverKeys(m, keys, f) == f(m[k]) + SumOverKeys(m, keys - {k}, f);
    if k != y {
      SumOverKeysRemove(m, keys - {k}, f, y);
      SumOverKeysRemove(m, keys - {y}, f, k);
      assert keys - {k} - {y} == keys - {y} - {k};
    }
  }

  // ---- decimal text ----

  function DigitChar(d: int): char
    requires 0 <= d < 10
  {
    "0123456789"[d]
  }

  predicate IsDigit(c: char) { '0' <= c <= '9' }

  function DigitValue(c: char): int
    requires IsDigit(c)
  {
    c as int - '0' as int
  }

  /** Decimal digits of a natural number, without leading zeros. */
  function DigitsText(n: nat): (s: string)
    ensures |s| >= 1
    ensures forall i :: 0 <= i < |s| ==> IsDigit(s[i])
    decreases n
  {
    if n < 10 then [DigitChar(n)] else DigitsText(n / 10) + [DigitChar(n % 10)]
  }

  /** `String(n)` for an integer. */
  function IntText(n: int): string
  {
    if n < 0 then "-" + DigitsText(-n) else DigitsText(n)
  }

  function ParseDigits(s: string): nat
    requires forall i :: 0 <= i < |s| ==> IsDigit(s[i])
  {
    if s == [] then 0 else 10 * ParseDigits(s[..|s| - 1]) + DigitValue(s[|s| - 1])
  }

  /**
   * `Number(s)` on an id: a string of decimal digits (the empty string gives 0);
   * anything else is NaN, modelled as None.
   */
  function NumberOf(s: string): (r: Option<int>)
    ensures r.Some? <==> (forall i :: 0 <= i < |s| ==> IsDigit(s[i]))
    ensures r.Some? ==> r.value >= 0
  {
    if forall i :: 0 <= i < |s| ==> IsDigit(s[i]) then Some(ParseDigits(s)) else None
  }

  lemma {:induction false} ParseDigitsText(n: nat)
    ensures ParseDigits(DigitsText(n)) == n
    decreases n
  {
    if n >= 10 {
      ParseDigitsText(n / 10);
      var s := DigitsText(n);
      assert s[..|s| - 1] == DigitsText(n / 10);
    }
  }

  /** Writing a natural number and reading it back gives the number. */
  lemma NumberOfIntText(n: nat)
    ensures NumberOf(IntText(n)) == Some(n)
  {
    ParseDigitsText(n);
  }

  // ---- strings ----

  /** `xs.join(sep)`. */
  function Join(xs: seq<string>, sep: string): string
  {
    if xs == [] then "" else if |xs| == 1 then xs[0] else xs[0] + sep + Join(xs[1..], sep)
  }

  /** `s.includes(sub)`. */
  predicate Contains(s: string, sub: string)
  {
    |sub| <= |s| && (s[..|sub|] == sub || Contains(s[1..], sub))
  }

  function Count(s: string, c: char): nat
  {
    if s == [] then 0 else (if s[0] == c then 1 else 0) + Count(s[1..], c)
  }

  lemma {:induction false} CountAppend(s: string, t: string, c: char)
    ensures Count(s + t, c) == Count(s, c) + Count(t, c)
  {
    if s != [] {
      assert (s + t)[1..] == s[1..] + t;
      CountAppend(s[1..], t, c);
    } else {
      assert s + t == t;
    }
  }
}
