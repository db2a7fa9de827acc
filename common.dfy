/**
 * Shared vocabulary: optional values, the array idioms the components use
 * (`filter(y => y !== x)`, "remove if present else append"), ASCII case
 * folding, `String.prototype.includes`, and JavaScript's `parseInt` and
 * number-to-string conversion restricted to integers.
 */
module Common {

  datatype Option<+T> = None | Some(value: T)

  datatype Result<+T, +E> = Ok(value: T) | Err(error: E)

  // ---------------------------------------------------------------------
  // Lists

  /** No element occurs twice. */
  predicate NoDup<T(==)>(s: seq<T>) {
    forall i, j :: 0 <= i < j < |s| ==> s[i] != s[j]
  }

  /** The callback `y => y !== x`. */
  function Unequal<T(==)>(x: T): T -> bool {
    y => y != x
  }

  /** `xs.filter(y => y !== x)`: every occurrence of `x` dropped, the rest kept in order. */
  function RemoveAll<T(==,!new)>(xs: seq<T>, x: T): (r: seq<T>)
    ensures x !in r
    ensures forall y :: y != x ==> (y in r <==> y in xs)
    ensures x !in xs ==> r == xs
    ensures |r| <= |xs|
    ensures r == Filter(xs, Unequal(x))
  {
    if xs == [] then []
    else if xs[0] == x then RemoveAll(xs[1..], x)
    else [xs[0]] + RemoveAll(xs[1..], x)
  }

  /** `a` is `b` with some elements left out, the rest in their order. */
  ghost predicate Subsequence<T>(a: seq<T>, b: seq<T>)
    decreases |b|
  {
    if a == [] then true
    else if b == [] then false
    else (a[0] == b[0] && Subsequence(a[1..], b[1..])) || Subsequence(a, b[1..])
  }

  /** `xs.filter(f)`: the elements satisfying `f`, each as often as in `xs`, in order. */
  function Filter<T(==,!new)>(xs: seq<T>, f: T -> bool): (r: seq<T>)
    ensures forall x :: multiset(r)[x] == if f(x) then multiset(xs)[x] else 0
    ensures |r| <= |xs|
    ensures Subsequence(r, xs)
    ensures forall i :: 0 <= i < |r| ==> f(r[i])
  {
    if xs == [] then []
    else
      assert xs == [xs[0]] + xs[1..];
      var rest := Filter(xs[1..], f);
      if f(xs[0]) then
        assert ([xs[0]] + rest)[1..] == rest;
        [xs[0]] + rest
      else
        assert [] + rest == rest;
        rest
  }

  /** Filtering a list with a head: the head is kept or dropped, the tail filtered. */
  lemma FilterCons<T(!new)>(x: T, xs: seq<T>, f: T -> bool)
    ensures Filter([x] + xs, f) == (if f(x) then [x] else []) + Filter(xs, f)
  {
    assert ([x] + xs)[0] == x && ([x] + xs)[1..] == xs;
  }

  /** Filtering a non-empty list: the head is kept or dropped, the tail filtered. */
  lemma FilterHead<T(!new)>(xs: seq<T>, f: T -> bool)
    requires xs != []
    ensures Filter(xs, f) == (if f(xs[0]) then [xs[0]] else []) + Filter(xs[1..], f)
  {
  }

  /** Filtering twice is filtering once by both tests. */
  lemma {:induction false} FilterFilter<T(!new)>(xs: seq<T>, f: T -> bool, g: T -> bool, h: T -> bool)
    requires forall x :: h(x) == (f(x) && g(x))
    ensures Filter(Filter(xs, f), g) == Filter(xs, h)
    decreases |xs|
  {
    if xs != [] {
      var rest := Filter(xs[1..], f);
      FilterFilter(xs[1..], f, g, h);
      FilterHead(xs, f);
      FilterHead(xs, h);
      if f(xs[0]) {
        FilterCons(xs[0], rest, g);
      } else {
        assert Filter(xs, f) == rest;
      }
    }
  }

  /** Filtering a filtered list again is filtering the original by both tests. */
  lemma FilterThen<T(!new)>(xs: seq<T>, ys: seq<T>, f: T -> bool, g: T -> bool, h: T -> bool)
    requires ys == Filter(xs, f)
    requires forall x :: h(x) == (f(x) && g(x))
    ensures Filter(ys, g) == Filter(xs, h)
  {
    FilterFilter(xs, f, g, h);
  }

  /** `xs` filtered by `tests(0)`, then by `tests(1)`, and so on up to `tests(n - 1)`. */
  ghost function FilterEach<T(!new)>(xs: seq<T>, tests: nat -> T -> bool, n: nat): seq<T>
    decreases n
  {
    if n == 0 then xs else Filter(FilterEach(xs, tests, n - 1), tests(n - 1))
  }

  /** `x` passes each of the first `n` tests. */
  ghost predicate AllTests<T>(tests: nat -> T -> bool, n: nat, x: T) {
    forall k :: 0 <= k < n ==> tests(k)(x)
  }

  /** The test "passes each of the first `n` tests". */
  ghost function AllTestsOf<T>(tests: nat -> T -> bool, n: nat): T -> bool {
    x => AllTests(tests, n, x)
  }

  /** Passing `n` tests is passing the first `n - 1` and then test `n - 1`. */
  lemma AllTestsStep<T>(tests: nat -> T -> bool, n: nat)
    requires n > 0
    ensures forall x :: AllTestsOf(tests, n)(x) == (AllTestsOf(tests, n - 1)(x) && tests(n - 1)(x))
  {
    forall x ensures AllTests(tests, n, x) == (AllTests(tests, n - 1, x) && tests(n - 1)(x)) {
      if AllTests(tests, n - 1, x) && tests(n - 1)(x) {
        forall k | 0 <= k < n ensures tests(k)(x) {
          if k < n - 1 {
            assert tests(k)(x);
          }
        }
      }
    }
  }

  /** The filters one after another are one filter by all the tests together: order and multiplicity are kept. */
  lemma {:induction false} FilterEachAll<T(!new)>(xs: seq<T>, tests: nat -> T -> bool, n: nat)
    ensures FilterEach(xs, tests, n) == Filter(xs, AllTestsOf(tests, n))
    decreases n
  {
    if n == 0 {
      FilterAll(xs, AllTestsOf(tests, 0));
    } else {
      var m: nat := n - 1;
      FilterEachAll(xs, tests, m);
      AllTestsStep(tests, n);
      FilterThen(xs, FilterEach(xs, tests, m), AllTestsOf(tests, m), tests(m), AllTestsOf(tests, n));
    }
  }

  /** Tests that agree on every element filter alike. */
  lemma {:induction false} FilterSame<T(!new)>(xs: seq<T>, f: T -> bool, g: T -> bool)
    requires forall x :: f(x) == g(x)
    ensures Filter(xs, f) == Filter(xs, g)
    decreases |xs|
  {
    if xs != [] {
      FilterSame(xs[1..], f, g);
    }
  }

  /** A test every element passes keeps the whole list. */
  lemma {:induction false} FilterAll<T(!new)>(xs: seq<T>, f: T -> bool)
    requires forall x :: x in xs ==> f(x)
    ensures Filter(xs, f) == xs
  {
    if xs != [] {
      FilterAll(xs[1..], f);
      assert [xs[0]] + xs[1..] == xs;
    }
  }

  /** Filtering by two tests that agree everywhere gives the same list. */
  lemma {:induction false} FilterCongruent<T(!new)>(xs: seq<T>, f: T -> bool, g: T -> bool)
    requires forall x :: f(x) == g(x)
    ensures Filter(xs, f) == Filter(xs, g)
  {
    if xs != [] {
      FilterCongruent(xs[1..], f, g);
    }
  }

  /** Removing a value that occurs makes the list shorter. */
  lemma {:induction false} RemoveAllShrinks<T(!new)>(xs: seq<T>, x: T)
    requires x in xs
    ensures |RemoveAll(xs, x)| < |xs|
  {
    if xs[0] != x {
      RemoveAllShrinks(xs[1..], x);
    }
  }

  lemma NoDupCons<T>(a: T, s: seq<T>)
    ensures NoDup([a] + s) <==> a !in s && NoDup(s)
  {
    var t := [a] + s;
    if NoDup(t) {
      forall i, j | 0 <= i < j < |s| ensures s[i] != s[j] {
        assert t[i + 1] == s[i] && t[j + 1] == s[j];
      }
      forall k | 0 <= k < |s| ensures s[k] != a {
        assert t[k + 1] == s[k] && t[0] == a;
      }
    }
    if a !in s && NoDup(s) {
      forall i, j | 0 <= i < j < |t| ensures t[i] != t[j] {
        if i == 0 {
          assert t[j] == s[j - 1];
        } else {
          assert t[i] == s[i - 1] && t[j] == s[j - 1];
        }
      }
    }
  }

  lemma {:induction false} RemoveAllNoDup<T(!new)>(xs: seq<T>, x: T)
    requires NoDup(xs)
    ensures NoDup(RemoveAll(xs, x))
  {
    if xs != [] {
      assert xs == [xs[0]] + xs[1..];
      NoDupCons(xs[0], xs[1..]);
      RemoveAllNoDup(xs[1..], x);
      if xs[0] != x {
        NoDupCons(xs[0], RemoveAll(xs[1..], x));
      }
    }
  }

  lemma {:induction false} RemoveAllAppend<T(!new)>(xs: seq<T>, x: T)
    requires x !in xs
    ensures RemoveAll(xs + [x], x) == xs
  {
    if xs == [] {
      assert [] + [x] == [x];
    } else {
      assert (xs + [x])[1..] == xs[1..] + [x];
      RemoveAllAppend(xs[1..], x);
      assert [xs[0]] + xs[1..] == xs;
    }
  }

  /** `prev.includes(x) ? prev.filter(y => y !== x) : [...prev, x]` */
  function Toggle<T(==,!new)>(xs: seq<T>, x: T): (r: seq<T>)
    ensures x in r <==> x !in xs
    ensures forall y :: y != x ==> (y in r <==> y in xs)
    ensures x !in xs ==> r == xs + [x]
  {
    if x in xs then RemoveAll(xs, x) else xs + [x]
  }

  /** Toggling the same value twice restores every membership. */
  lemma ToggleTwiceMembership<T(!new)>(xs: seq<T>, x: T, y: T)
    ensures y in Toggle(Toggle(xs, x), x) <==> y in xs
  {
  }

  /** A duplicate-free list stays duplicate-free. */
  lemma ToggleNoDup<T(!new)>(xs: seq<T>, x: T)
    requires NoDup(xs)
    ensures NoDup(Toggle(xs, x))
  {
    if x in xs {
      RemoveAllNoDup(xs, x);
    } else {
      forall i, j | 0 <= i < j < |xs| + 1 ensures (xs + [x])[i] != (xs + [x])[j] {
        if j == |xs| {
          assert (xs + [x])[i] == xs[i];
        } else {
          assert (xs + [x])[i] == xs[i] && (xs + [x])[j] == xs[j];
        }
      }
    }
  }

  /** Adding a value that was absent and toggling it again gives back the list itself. */
  lemma ToggleAddThenRemove<T(!new)>(xs: seq<T>, x: T)
    requires x !in xs
    ensures Toggle(Toggle(xs, x), x) == xs
  {
    RemoveAllAppend(xs, x);
  }

  // ---------------------------------------------------------------------
  // Repeated transitions

  /** `f` applied `n` times to `s`: a timer callback firing `n` times. */
  function Iterate<S>(f: S -> S, s: S, n: nat): S
    decreases n
  {
    if n == 0 then s else Iterate(f, f(s), n - 1)
  }

  /** The last of `n + 1` applications comes after the first `n`. */
  lemma {:induction false} IterateLast<S>(f: S -> S, s: S, n: nat)
    decreases n
    ensures Iterate(f, s, n + 1) == f(Iterate(f, s, n))
  {
    if n > 0 {
      IterateLast(f, f(s), n - 1);
    }
  }

  /** `a + b` applications are `a` applications followed by `b`. */
  lemma {:induction false} IterateAdd<S>(f: S -> S, s: S, a: nat, b: nat)
    decreases a
    ensures Iterate(f, s, a + b) == Iterate(f, Iterate(f, s, a), b)
  {
    if a > 0 {
      IterateAdd(f, f(s), a - 1, b);
    }
  }

  // ---------------------------------------------------------------------
  // ASCII case folding (the model of toLowerCase / toUpperCase)

  function LowerChar(c: char): char {
    if 'A' <= c <= 'Z' then (c as int + 32) as char else c
  }

  function UpperChar(c: char): char {
    if 'a' <= c <= 'z' then (c as int - 32) as char else c
  }

  function Lower(s: string): (r: string)
    ensures |r| == |s|
    ensures forall i :: 0 <= i < |s| ==> r[i] == LowerChar(s[i])
  {
    seq(|s|, i requires 0 <= i < |s| => LowerChar(s[i]))
  }

  function Upper(s: string): (r: string)
    ensures |r| == |s|
    ensures forall i :: 0 <= i < |s| ==> r[i] == UpperChar(s[i])
  {
    seq(|s|, i requires 0 <= i < |s| => UpperChar(s[i]))
  }

  // ---------------------------------------------------------------------
  // String.prototype.includes

  /** `sub` occurs in `s` at position `i`. */
  ghost predicate OccursAt(s: string, sub: string, i: int) {
    0 <= i && i + |sub| <= |s| && s[i..i + |sub|] == sub
  }

  /** `s.includes(sub)`: some window of `s` equals `sub` (the empty string is in every string). */
  function Includes(s: string, sub: string): (r: bool)
    ensures r <==> exists i :: OccursAt(s, sub, i)
    decreases |s|
  {
    if |sub| <= |s| && s[..|sub|] == sub then
      assert OccursAt(s, sub, 0);
      true
    else if s == [] then
      assert forall i :: !OccursAt(s, sub, i);
      false
    else
      var rest := Includes(s[1..], sub);
      IncludesShift(s, sub);
      rest
  }

  lemma IncludesShift(s: string, sub: string)
    requires s != []
    requires !(|sub| <= |s| && s[..|sub|] == sub)
    ensures (exists i :: OccursAt(s, sub, i)) <==> (exists i :: OccursAt(s[1..], sub, i))
  {
    if exists i :: OccursAt(s, sub, i) {
      var i :| OccursAt(s, sub, i);
      assert i != 0;
      assert s[1..][i - 1..i - 1 + |sub|] == s[i..i + |sub|];
      assert OccursAt(s[1..], sub, i - 1);
    }
    if exists i :: OccursAt(s[1..], sub, i) {
      var i :| OccursAt(s[1..], sub, i);
      assert s[i + 1..i + 1 + |sub|] == s[1..][i..i + |sub|];
      assert OccursAt(s, sub, i + 1);
    }
  }

  // ---------------------------------------------------------------------
  // Arithmetic

  /** Cancelling a positive factor keeps an inequality. */
  lemma MulCancel(a: int, b: int, d: int)
    requires d > 0 && a * d <= b * d
    ensures a <= b
  {
    assert (b - a) * d == b * d - a * d;
  }

  /** Cancelling a positive factor keeps a strict inequality. */
  lemma MulCancelStrict(a: int, b: int, d: int)
    requires d > 0 && a * d < b * d
    ensures a < b
  {
    assert (b - a) * d == b * d - a * d;
  }

  /** The quotient is the only `q` with `q * d <= a < (q + 1) * d`. */
  lemma DivUnique(a: nat, d: nat, q: nat, r: nat)
    requires d > 0 && a == d * q + r && r < d
    ensures a / d == q
  {
    var q' := a / d;
    assert q' * d <= a < (q' + 1) * d;
    assert q * d <= a < (q + 1) * d;
    MulCancelStrict(q, q' + 1, d);
    MulCancelStrict(q', q + 1, d);
  }

  /** Multiplying by a natural number keeps an inequality. */
  lemma MulMono(b: nat, x: nat, y: nat)
    requires x <= y
    ensures b * x <= b * y
  {
    assert b * y - b * x == b * (y - x);
  }

  /** Dividing twice is dividing by the product. */
  lemma DivDiv(a: nat, b: nat, c: nat)
    requires b > 0 && c > 0
    ensures a / b / c == a / (b * c)
  {
    var q, r := a / b, a % b;
    var q2, r2 := q / c, q % c;
    MulRegroup(a, b, c, q, r, q2, r2);
    RemainderBound(b, c, r2, r);
    DivUnique(a, b * c, q2, b * r2 + r);
  }

  lemma MulRegroup(a: nat, b: nat, c: nat, q: nat, r: nat, q2: nat, r2: nat)
    requires a == b * q + r && q == c * q2 + r2
    ensures a == (b * c) * q2 + (b * r2 + r)
  {
    assert b * (c * q2 + r2) == b * (c * q2) + b * r2;
    assert b * (c * q2) == (b * c) * q2;
  }

  lemma RemainderBound(b: nat, c: nat, r2: nat, r: nat)
    requires r2 < c && r < b
    ensures b * r2 + r < b * c
  {
    MulMono(b, r2 + 1, c);
    assert b * (r2 + 1) == b * r2 + b;
  }

  // ---------------------------------------------------------------------
  // Decimal digits, parseInt and integer-to-string

  predicate IsDigit(c: char) {
    '0' <= c <= '9'
  }

  predicate AllDigits(s: string) {
    forall i :: 0 <= i < |s| ==> IsDigit(s[i])
  }

  function DigitValue(c: char): nat
    requires IsDigit(c)
  {
    c as int - '0' as int
  }

  function DigitChar(d: nat): (c: char)
    requires d < 10
    ensures IsDigit(c) && DigitValue(c) == d
  {
    ('0' as int + d) as char
  }

  /** The number an all-digit string denotes (most significant digit first). */
  function DigitsValue(s: string): nat
    requires AllDigits(s)
  {
    if s == [] then 0 else DigitsValue(s[..|s| - 1]) * 10 + DigitValue(s[|s| - 1])
  }

  /** The longest prefix of `s` made of digits. */
  function DigitPrefix(s: string): (r: string)
    ensures AllDigits(r) && r <= s
    ensures |r| < |s| ==> !IsDigit(s[|r|])
  {
    if s != [] && IsDigit(s[0]) then [s[0]] + DigitPrefix(s[1..]) else []
  }

  /** The characters `parseInt` skips before the number (ASCII white space). */
  predicate IsSpace(c: char) {
    c == ' ' || c == '\t' || c == '\n' || c == '\r' || c == '\U{B}' || c == '\U{C}'
  }

  function TrimStart(s: string): (r: string)
    ensures r == [] || !IsSpace(r[0])
    ensures |r| <= |s|
  {
    if s != [] && IsSpace(s[0]) then TrimStart(s[1..]) else s
  }

  /**
   * `parseInt(s)` with no radix, for decimal input: skip leading white space,
   * read an optional sign and the longest run of digits; `None` stands for NaN.
   */
  function ParseInt(s: string): (r: Option<int>)
    ensures r.None? <==>
      var t := TrimStart(s);
      var u := if t != [] && (t[0] == '+' || t[0] == '-') then t[1..] else t;
      u == [] || !IsDigit(u[0])
  {
    var t := TrimStart(s);
    var negative := t != [] && t[0] == '-';
    var u := if t != [] && (t[0] == '+' || t[0] == '-') then t[1..] else t;
    var d := DigitPrefix(u);
    if d == [] then None else Some(SignedValue(negative, d))
  }

  /** The value of a run of digits, negated after a minus sign. */
  function SignedValue(negative: bool, d: string): int
    requires AllDigits(d)
  {
    var v: int := DigitsValue(d);
    if negative then -v else v
  }

  predicate AllSpace(s: string) {
    forall i :: 0 <= i < |s| ==> IsSpace(s[i])
  }

  /** White space before the first other character is what `parseInt` skips. */
  lemma {:induction false} TrimStartSpaces(ws: string, t: string)
    requires AllSpace(ws) && (t == [] || !IsSpace(t[0]))
    ensures TrimStart(ws + t) == t
  {
    if ws != [] {
      assert (ws + t)[0] == ws[0];
      assert (ws + t)[1..] == ws[1..] + t;
      TrimStartSpaces(ws[1..], t);
    } else {
      assert ws + t == t;
    }
  }

  /** What TrimStart drops is white space, and what it keeps is the rest of the text. */
  lemma {:induction false} TrimStartSplits(s: string)
    ensures var k := |s| - |TrimStart(s)|; AllSpace(s[..k]) && TrimStart(s) == s[k..]
  {
    if s != [] && IsSpace(s[0]) {
      TrimStartSplits(s[1..]);
      var k := |s| - |TrimStart(s)|;
      assert s[1..][..k - 1] == s[1..k] && s[1..][k - 1..] == s[k..];
      assert forall i :: 0 < i < k ==> s[..k][i] == s[1..k][i - 1];
    }
  }

  lemma {:induction false} DigitPrefixStops(d: string, rest: string)
    requires AllDigits(d)
    requires rest == [] || !IsDigit(rest[0])
    ensures DigitPrefix(d + rest) == d
  {
    if d != [] {
      assert (d + rest)[1..] == d[1..] + rest;
      DigitPrefixStops(d[1..], rest);
      assert [d[0]] + d[1..] == d;
    }
  }

  /**
   * What `parseInt` reads when the text after the leading white space is an
   * optional sign, a run of digits and anything that does not continue the
   * run: the digits' value, negated after a minus sign. TrimStartSpaces says
   * which prefixes are that white space.
   */
  lemma ParseIntReads(s: string, sign: string, d: string, rest: string)
    requires TrimStart(s) == sign + d + rest && sign in {"", "+", "-"}
    requires d != [] && AllDigits(d) && (rest == [] || !IsDigit(rest[0]))
    ensures var v: int := DigitsValue(d); ParseInt(s) == Some(if sign == "-" then -v else v)
  {
    if sign == "" {
      assert sign + d == d;
      UnsignedParse(s, d, rest);
    } else {
      assert sign == [sign[0]];
      SignedParse(s, sign[0], d, rest);
    }
  }

  /** The same with the white space written out: `parseInt("  -12abc")` is -12. */
  lemma ParseIntAfterSpaces(ws: string, sign: string, d: string, rest: string)
    requires AllSpace(ws) && sign in {"", "+", "-"}
    requires d != [] && AllDigits(d) && (rest == [] || !IsDigit(rest[0]))
    ensures var v: int := DigitsValue(d); ParseInt(ws + sign + d + rest) == Some(if sign == "-" then -v else v)
  {
    var t := sign + d + rest;
    assert ws + sign + d + rest == ws + t;
    if sign == "" {
      assert |sign| == 0 && t[0] == d[0];
    } else {
      assert t[0] == sign[0];
    }
    TrimStartSpaces(ws, t);
    ParseIntReads(ws + t, sign, d, rest);
  }

  /** No sign: the text after the white space starts with the digits. */
  lemma UnsignedParse(s: string, d: string, rest: string)
    requires TrimStart(s) == d + rest
    requires d != [] && AllDigits(d) && (rest == [] || !IsDigit(rest[0]))
    ensures ParseInt(s) == Some(SignedValue(false, d))
  {
    assert (d + rest)[0] == d[0];
    DigitPrefixStops(d, rest);
  }

  /** A sign, then the digits. */
  lemma SignedParse(s: string, c: char, d: string, rest: string)
    requires TrimStart(s) == [c] + d + rest && (c == '+' || c == '-')
    requires d != [] && AllDigits(d) && (rest == [] || !IsDigit(rest[0]))
    ensures ParseInt(s) == Some(SignedValue(c == '-', d))
  {
    var t := [c] + d + rest;
    assert t[0] == c && t[1..] == d + rest;
    DigitPrefixStops(d, rest);
  }

  /** `String(n)` for a natural number: decimal, no leading zeros. */
  function NatToString(n: nat): (r: string)
    ensures r != [] && AllDigits(r)
    ensures |r| > 1 ==> r[0] != '0'
  {
    if n < 10 then [DigitChar(n)] else NatToString(n / 10) + [DigitChar(n % 10)]
  }

  lemma {:induction false} NatToStringValue(n: nat)
    ensures DigitsValue(NatToString(n)) == n
  {
    var r := NatToString(n);
    if n >= 10 {
      NatToStringValue(n / 10);
      assert r[..|r| - 1] == NatToString(n / 10);
    }
  }

  lemma {:induction false} DigitPrefixAllDigits(s: string)
    requires AllDigits(s)
    ensures DigitPrefix(s) == s
  {
    if s != [] {
      DigitPrefixAllDigits(s[1..]);
    }
  }

  /** `parseInt(String(n)) === n` for every natural number. */
  lemma ParseIntNatToString(n: nat)
    ensures ParseInt(NatToString(n)) == Some(n)
  {
    var s := NatToString(n);
    assert IsDigit(s[0]) && !IsSpace(s[0]);
    assert TrimStart(s) == s;
    assert s[0] != '+' && s[0] != '-';
    DigitPrefixAllDigits(s);
    NatToStringValue(n);
    assert DigitPrefix(s) == s && s != [];
  }
}
