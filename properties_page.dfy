/**
 * The listing page's filter chain and sort (src/app/properties/page.tsx):
 * a local list narrowed by one `.filter` per active criterion, then ordered
 * by the key the sort selector names.
 */
module PropertiesPage {
  import opened Common
  import opened PropertyTypes

  /** A select box that is either "all" or one value. */
  datatype Choice<T> = All | Only(value: T)

  /** The page's filter form; the number fields hold the text typed into them. */
  datatype PageFilters = PageFilters(
    searchQuery: string,
    propertyType: Choice<PropertyType>,
    listingType: Choice<ListingType>,
    priceMin: string,
    priceMax: string,
    bedrooms: string,
    bathrooms: string)

  const DefaultFilters: PageFilters := PageFilters("", All, All, "", "", "", "")

  // ---------------------------------------------------------------------
  // The criteria, one per `.filter` call

  /** The lower-cased query occurs in the lower-cased title, neighbourhood, city or address. */
  predicate SearchHit(query: string, p: Property) {
    var q := Lower(query);
    Includes(Lower(p.title), q) || Includes(Lower(p.neighborhood), q)
    || Includes(Lower(p.city), q) || Includes(Lower(p.address), q)
  }

  /** `v >= parseInt(s)`: false when `s` does not parse (a comparison with NaN). */
  predicate AtLeast(v: int, s: string) {
    var b := ParseInt(s);
    b.Some? && v >= b.value
  }

  /** `v <= parseInt(s)`, false on NaN. */
  predicate AtMost(v: int, s: string) {
    var b := ParseInt(s);
    b.Some? && v <= b.value
  }

  predicate ChoiceHolds<T(==)>(c: Choice<T>, v: T) {
    c.All? || c.value == v
  }

  /** A listing survives the filter chain: every criterion whose field is set holds of it. */
  predicate Passes(f: PageFilters, p: Property) {
    && (f.searchQuery == "" || SearchHit(f.searchQuery, p))
    && ChoiceHolds(f.propertyType, p.propertyType)
    && ChoiceHolds(f.listingType, p.listingType)
    && (f.priceMin == "" || AtLeast(p.price, f.priceMin))
    && (f.priceMax == "" || AtMost(p.price, f.priceMax))
    && (f.bedrooms == "" || AtLeast(p.bedrooms, f.bedrooms))
    && (f.bathrooms == "" || AtLeast(p.bathrooms, f.bathrooms))
  }

  /** Whether step `n` of the chain (0 to 6) runs: the `if` guarding its `.filter`. */
  predicate Active(f: PageFilters, n: nat) {
    if n == 0 then f.searchQuery != ""
    else if n == 1 then f.propertyType.Only?
    else if n == 2 then f.listingType.Only?
    else if n == 3 then f.priceMin != ""
    else if n == 4 then f.priceMax != ""
    else if n == 5 then f.bedrooms != ""
    else f.bathrooms != ""
  }

  /** The callback step `n` hands to `.filter` when it runs. */
  predicate Keep(f: PageFilters, n: nat, p: Property) {
    if n == 0 then SearchHit(f.searchQuery, p)
    else if n == 1 then f.propertyType.Only? && p.propertyType == f.propertyType.value
    else if n == 2 then f.listingType.Only? && p.listingType == f.listingType.value
    else if n == 3 then AtLeast(p.price, f.priceMin)
    else if n == 4 then AtMost(p.price, f.priceMax)
    else if n == 5 then AtLeast(p.bedrooms, f.bedrooms)
    else AtLeast(p.bathrooms, f.bathrooms)
  }

  /** The criterion at position `n` of the chain: a listing survives step `n`. */
  ghost predicate Criterion(f: PageFilters, n: nat, p: Property) {
    !Active(f, n) || Keep(f, n, p)
  }

  /** The criteria of the chain, by position. */
  ghost function Criteria(f: PageFilters): nat -> Property -> bool {
    n => p => Criterion(f, n, p)
  }

  /** `filtered` is `all` after the first `n` steps of the chain. */
  ghost predicate Staged(all: seq<Property>, filtered: seq<Property>, f: PageFilters, n: nat) {
    filtered == FilterEach(all, Criteria(f), n)
  }

  /** The seven criteria in page order are the combined predicate. */
  lemma CriteriaPass(f: PageFilters, p: Property)
    ensures AllTests(Criteria(f), 7, p) <==> Passes(f, p)
  {
    if Passes(f, p) {
      forall k | 0 <= k < 7 ensures Criteria(f)(k)(p) {
        assert Criterion(f, k, p);
      }
    }
    if AllTests(Criteria(f), 7, p) {
      assert Criteria(f)(0)(p) && Criteria(f)(1)(p) && Criteria(f)(2)(p) && Criteria(f)(3)(p);
      assert Criteria(f)(4)(p) && Criteria(f)(5)(p) && Criteria(f)(6)(p);
    }
  }

  /** After all seven steps, the chain holds the listings that pass, in their original order. */
  lemma StagedEnd(all: seq<Property>, filtered: seq<Property>, f: PageFilters)
    requires Staged(all, filtered, f, 7)
    ensures filtered == Filter(all, (p: Property) => Passes(f, p))
  {
    forall p ensures AllTestsOf(Criteria(f), 7)(p) == Passes(f, p) {
      CriteriaPass(f, p);
    }
    FilterEachAll(all, Criteria(f), 7);
    FilterSame(all, AllTestsOf(Criteria(f), 7), (p: Property) => Passes(f, p));
  }

  /** Step `n` of the chain, `if (active) filtered = filtered.filter(keep)`: the stage advances by one. */
  method Narrow(ghost all: seq<Property>, filtered: seq<Property>, f: PageFilters, n: nat) returns (r: seq<Property>)
    requires Staged(all, filtered, f, n)
    ensures Staged(all, r, f, n + 1)
  {
    if Active(f, n) {
      var keep := (p: Property) => Keep(f, n, p);
      r := Filter(filtered, keep);
      FilterSame(filtered, keep, Criteria(f)(n));
    } else {
      r := filtered;
      FilterAll(filtered, Criteria(f)(n));
    }
  }

  /** The default form removes nothing. */
  lemma DefaultFiltersKeepAll(p: Property)
    ensures Passes(DefaultFilters, p)
  {
  }

  /** A bound that does not parse removes every listing. */
  lemma UnparsableBoundRemovesAll(f: PageFilters, p: Property)
    requires f.priceMin != "" && ParseInt(f.priceMin).None?
    ensures !Passes(f, p)
  {
  }

  /** The search ignores case on the query side too. */
  lemma SearchIgnoresQueryCase(query: string, p: Property)
    ensures SearchHit(Upper(query), p) <==> SearchHit(query, p)
  {
    assert Lower(Upper(query)) == Lower(query);
  }

  // ---------------------------------------------------------------------
  // The sort

  /**
   * The number the comparator of `sortBy` orders by, ascending: the price
   * for "price-low"; the negated price, bedroom count, view count or
   * creation time for "price-high", "bedrooms", "popular" and anything else.
   */
  function Rank(sortBy: string, p: Property): int {
    if sortBy == "price-low" then p.price
    else if sortBy == "price-high" then -p.price
    else if sortBy == "bedrooms" then -p.bedrooms
    else if sortBy == "popular" then -p.viewCount
    else -p.createdAt
  }

  ghost predicate SortedBy(sortBy: string, s: seq<Property>) {
    forall i, j :: 0 <= i < j < |s| ==> Rank(sortBy, s[i]) <= Rank(sortBy, s[j])
  }

  /** Places `x` before the first element that does not rank below it. */
  function Insert(sortBy: string, x: Property, s: seq<Property>): (r: seq<Property>)
    requires SortedBy(sortBy, s)
    ensures SortedBy(sortBy, r)
    ensures multiset(r) == multiset(s) + multiset{x}
    ensures |r| == |s| + 1 && (r[0] == x || (s != [] && r[0] == s[0]))
  {
    if s == [] || Rank(sortBy, x) <= Rank(sortBy, s[0]) then
      SortedCons(sortBy, x, s);
      [x] + s
    else
      SortedTail(sortBy, s);
      var t := Insert(sortBy, x, s[1..]);
      InsertBehindHead(sortBy, x, s, t);
      [s[0]] + t
  }

  /** Putting the head back in front of `x` inserted into the tail. */
  lemma InsertBehindHead(sortBy: string, x: Property, s: seq<Property>, t: seq<Property>)
    requires SortedBy(sortBy, s) && s != [] && Rank(sortBy, x) > Rank(sortBy, s[0])
    requires SortedBy(sortBy, t) && multiset(t) == multiset(s[1..]) + multiset{x}
    requires |t| == |s| && (t[0] == x || (|s| > 1 && t[0] == s[1]))
    ensures SortedBy(sortBy, [s[0]] + t)
    ensures multiset([s[0]] + t) == multiset(s) + multiset{x}
  {
    assert s == [s[0]] + s[1..];
    assert Rank(sortBy, s[0]) <= Rank(sortBy, t[0]);
    SortedCons(sortBy, s[0], t);
  }

  lemma SortedTail(sortBy: string, s: seq<Property>)
    requires SortedBy(sortBy, s) && s != []
    ensures SortedBy(sortBy, s[1..])
  {
    var t := s[1..];
    forall i, j | 0 <= i < j < |t| ensures Rank(sortBy, t[i]) <= Rank(sortBy, t[j]) {
      assert t[i] == s[i + 1] && t[j] == s[j + 1];
    }
  }

  /** A head that does not rank above the first element keeps a sorted list sorted. */
  lemma SortedCons(sortBy: string, x: Property, s: seq<Property>)
    requires SortedBy(sortBy, s) && (s == [] || Rank(sortBy, x) <= Rank(sortBy, s[0]))
    ensures SortedBy(sortBy, [x] + s)
  {
    var r := [x] + s;
    forall i, j | 0 <= i < j < |r| ensures Rank(sortBy, r[i]) <= Rank(sortBy, r[j]) {
      if i == 0 {
        assert r[j] == s[j - 1];
        if j > 1 {
          assert Rank(sortBy, s[0]) <= Rank(sortBy, s[j - 1]);
        }
      } else {
        assert r[i] == s[i - 1] && r[j] == s[j - 1];
      }
    }
  }

  /** `filtered.sort(comparator)`: the same listings, ordered by rank; SortStable shows equal ranks keep their order. */
  function Sort(sortBy: string, s: seq<Property>): (r: seq<Property>)
    ensures SortedBy(sortBy, r)
    ensures multiset(r) == multiset(s)
  {
    if s == [] then []
    else
      assert s == [s[0]] + s[1..];
      Insert(sortBy, s[0], Sort(sortBy, s[1..]))
  }

  /** The test "ranks `v`" that picks out one group of equal listings. */
  function RankIs(sortBy: string, v: int): Property -> bool {
    p => Rank(sortBy, p) == v
  }

  /** Inserting `x` puts it in front of the listings of its own rank. */
  lemma {:induction false} InsertStable(sortBy: string, x: Property, t: seq<Property>, v: int)
    requires SortedBy(sortBy, t)
    ensures Filter(Insert(sortBy, x, t), RankIs(sortBy, v))
         == (if Rank(sortBy, x) == v then [x] else []) + Filter(t, RankIs(sortBy, v))
    decreases |t|
  {
    if t == [] || Rank(sortBy, x) <= Rank(sortBy, t[0]) {
      assert Insert(sortBy, x, t) == [x] + t;
      FilterCons(x, t, RankIs(sortBy, v));
    } else {
      SortedTail(sortBy, t);
      InsertStable(sortBy, x, t[1..], v);
      InsertBehind(sortBy, x, t, v);
    }
  }

  /** The step of InsertStable where `x` ranks above the head and goes past it. */
  lemma InsertBehind(sortBy: string, x: Property, t: seq<Property>, v: int)
    requires SortedBy(sortBy, t) && t != [] && Rank(sortBy, x) > Rank(sortBy, t[0])
    requires SortedBy(sortBy, t[1..])
    requires Filter(Insert(sortBy, x, t[1..]), RankIs(sortBy, v))
          == (if Rank(sortBy, x) == v then [x] else []) + Filter(t[1..], RankIs(sortBy, v))
    ensures Filter(Insert(sortBy, x, t), RankIs(sortBy, v))
         == (if Rank(sortBy, x) == v then [x] else []) + Filter(t, RankIs(sortBy, v))
  {
    InsertPast(sortBy, x, t);
    PassHead(x, t, Insert(sortBy, x, t[1..]), RankIs(sortBy, v));
  }

  /** A listing that ranks above the head is inserted behind it. */
  lemma InsertPast(sortBy: string, x: Property, t: seq<Property>)
    requires SortedBy(sortBy, t) && t != [] && Rank(sortBy, x) > Rank(sortBy, t[0])
    requires SortedBy(sortBy, t[1..])
    ensures Insert(sortBy, x, t) == [t[0]] + Insert(sortBy, x, t[1..])
  {
  }

  /** `x` moving past the head of `t`, which the filter cannot also keep, leaves the filtered order as it was. */
  lemma PassHead<T(!new)>(x: T, t: seq<T>, i: seq<T>, f: T -> bool)
    requires t != [] && (f(x) ==> !f(t[0]))
    requires Filter(i, f) == (if f(x) then [x] else []) + Filter(t[1..], f)
    ensures Filter([t[0]] + i, f) == (if f(x) then [x] else []) + Filter(t, f)
  {
    FilterCons(t[0], i, f);
    assert t == [t[0]] + t[1..];
    FilterCons(t[0], t[1..], f);
    SwapEmpty(if f(t[0]) then [t[0]] else [], if f(x) then [x] else [], Filter(t[1..], f));
  }

  /** Two parts of which one is empty can trade places. */
  lemma SwapEmpty<T>(a: seq<T>, b: seq<T>, c: seq<T>)
    requires a == [] || b == []
    ensures a + (b + c) == b + (a + c)
  {
    if a == [] {
      assert a + (b + c) == b + c == b + (a + c);
    } else {
      assert a + (b + c) == a + c == b + (a + c);
    }
  }

  /** The sort is stable: listings of equal rank keep their input order. */
  lemma {:induction false} SortStable(sortBy: string, s: seq<Property>, v: int)
    ensures Filter(Sort(sortBy, s), RankIs(sortBy, v)) == Filter(s, RankIs(sortBy, v))
  {
    if s != [] {
      SortStable(sortBy, s[1..], v);
      InsertStable(sortBy, s[0], Sort(sortBy, s[1..]), v);
    }
  }

  /** What the ordering means for each value of the selector. */
  lemma SortedMeaning(sortBy: string, s: seq<Property>, i: int, j: int)
    requires SortedBy(sortBy, s) && 0 <= i < j < |s|
    ensures sortBy == "price-low" ==> s[i].price <= s[j].price
    ensures sortBy == "price-high" ==> s[i].price >= s[j].price
    ensures sortBy == "bedrooms" ==> s[i].bedrooms >= s[j].bedrooms
    ensures sortBy == "popular" ==> s[i].viewCount >= s[j].viewCount
    ensures sortBy !in {"price-low", "price-high", "bedrooms", "popular"} ==> s[i].createdAt >= s[j].createdAt
  {
    assert Rank(sortBy, s[i]) <= Rank(sortBy, s[j]);
  }

  // ---------------------------------------------------------------------
  // The memoised computation

  /**
   * `filteredProperties`: the listings of `all` that pass every active
   * criterion, each as often as in `all`, sorted by the selector.
   */
  method FilteredProperties(all: seq<Property>, f: PageFilters, sortBy: string) returns (r: seq<Property>)
    ensures forall p :: multiset(r)[p] == if Passes(f, p) then multiset(all)[p] else 0
    ensures SortedBy(sortBy, r)
    ensures forall v :: Filter(r, RankIs(sortBy, v)) == Filter(Filter(all, (p: Property) => Passes(f, p)), RankIs(sortBy, v))
  {
    var filtered := FilterChain(all, f);
    r := Sort(sortBy, filtered);
    forall v ensures Filter(r, RankIs(sortBy, v)) == Filter(filtered, RankIs(sortBy, v)) {
      SortStable(sortBy, filtered, v);
    }
  }

  /** The seven `if (…) filtered = filtered.filter(…)` steps of `filteredProperties`, in page order. */
  method FilterChain(all: seq<Property>, f: PageFilters) returns (filtered: seq<Property>)
    ensures filtered == Filter(all, (p: Property) => Passes(f, p))
  {
    filtered := all;
    filtered := Narrow(all, filtered, f, 0);
    filtered := Narrow(all, filtered, f, 1);
    filtered := Narrow(all, filtered, f, 2);
    filtered := Narrow(all, filtered, f, 3);
    filtered := Narrow(all, filtered, f, 4);
    filtered := Narrow(all, filtered, f, 5);
    filtered := Narrow(all, filtered, f, 6);
    StagedEnd(all, filtered, f);
  }
}
