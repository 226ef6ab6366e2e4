/**
 * The filter and sort engine of the product listing: a catalog is filtered by
 * the conjunction of four criteria and then put in one of five orders; the
 * criteria and the order are state that the listing's controls replace.
 */
module Filters {

  import opened Util

  datatype Product = Product(
    id: int,
    name: string,
    category: string,
    brand: string,
    price: real,
    originalPrice: real,
    discount: real,
    rating: real,
    reviews: int,
    images: seq<string>,
    description: string,
    specs: map<string, string>,
    stock: int,
    features: seq<string>)

  /** The five orders the listing offers; `Newest` keeps catalog order. */
  datatype SortOption = PriceAsc | PriceDesc | Popular | ByRating | Newest

  /** The filter criteria: an inclusive price range, accepted categories and
      brands (an empty list accepts everything) and a minimum rating. */
  datatype Criteria = Criteria(priceRange: (real, real), categories: seq<string>, brands: seq<string>, minRating: real)

  /** The criteria the listing starts with and `clearFilters` restores. */
  const DefaultCriteria := Criteria((0.0, 10000.0), [], [], 0.0)

  // ---------------------------------------------------------------------------
  // Filtering
  // ---------------------------------------------------------------------------

  /** The price test: both ends of the range are inclusive, and an inverted
      range lets nothing through. */
  predicate PriceMatch(c: Criteria, p: Product): (r: bool)
    ensures r ==> c.priceRange.0 <= c.priceRange.1
    ensures c.priceRange.0 <= c.priceRange.1 && (p.price == c.priceRange.0 || p.price == c.priceRange.1) ==> r
  {
    c.priceRange.0 <= p.price <= c.priceRange.1
  }

  /** The category test: no selected category lets every product through, and
      otherwise a product passes iff its category is selected. */
  predicate CategoryMatch(c: Criteria, p: Product): (r: bool)
    ensures c.categories == [] ==> r
    ensures c.categories != [] ==> (r <==> p.category in c.categories)
  {
    |c.categories| == 0 || p.category in c.categories
  }

  /** The brand test, alike. */
  predicate BrandMatch(c: Criteria, p: Product): (r: bool)
    ensures c.brands == [] ==> r
    ensures c.brands != [] ==> (r <==> p.brand in c.brands)
  {
    |c.brands| == 0 || p.brand in c.brands
  }

  /** The rating test: the minimum is inclusive, and the minimum 0 the listing
      starts with lets every product with a rating of at least 0 through. */
  predicate RatingMatch(c: Criteria, p: Product): (r: bool)
    ensures p.rating == c.minRating ==> r
    ensures c.minRating <= 0.0 <= p.rating ==> r
    ensures p.rating < c.minRating ==> !r
  {
    p.rating >= c.minRating
  }

  /** A product passes the filter when it passes all four tests: its price is in
      the range, its category and brand are selected or no selection is made,
      and its rating reaches the minimum. */
  predicate Matches(c: Criteria, p: Product): (r: bool)
    ensures r <==> && c.priceRange.0 <= p.price <= c.priceRange.1
                   && (c.categories == [] || p.category in c.categories)
                   && (c.brands == [] || p.brand in c.brands)
                   && p.rating >= c.minRating
  {
    PriceMatch(c, p) && CategoryMatch(c, p) && BrandMatch(c, p) && RatingMatch(c, p)
  }

  /** The products of the catalog that pass the filter, in catalog order. */
  function Filter(products: seq<Product>, c: Criteria): (r: seq<Product>)
    ensures forall p :: p in r <==> p in products && Matches(c, p)
    ensures |r| <= |products|
  {
    if products == [] then []
    else
      var rest := Filter(products[1..], c);
      assert forall p :: p in products <==> p == products[0] || p in products[1..];
      if Matches(c, products[0]) then [products[0]] + rest else rest
  }

  /** Filtering neither duplicates nor loses a passing product: each one keeps
      its number of occurrences, and a failing one has none. */
  lemma {:induction false} FilterCounts(products: seq<Product>, c: Criteria, p: Product)
    ensures multiset(Filter(products, c))[p] == if Matches(c, p) then multiset(products)[p] else 0
  {
    if products != [] {
      FilterCounts(products[1..], c, p);
      assert products == [products[0]] + products[1..];
    }
  }

  /** Filtering keeps catalog order: it distributes over concatenation. */
  lemma {:induction false} FilterKeepsOrder(a: seq<Product>, b: seq<Product>, c: Criteria)
    ensures Filter(a + b, c) == Filter(a, c) + Filter(b, c)
  {
    if a == [] {
      assert a + b == b;
    } else {
      assert (a + b)[1..] == a[1..] + b;
      FilterKeepsOrder(a[1..], b, c);
    }
  }

  /** With the default criteria, a catalog whose prices lie in [0, 10000] and
      whose ratings are not negative comes back whole and in order. */
  lemma {:induction false} DefaultCriteriaKeepAll(products: seq<Product>)
    requires forall i :: 0 <= i < |products| ==> 0.0 <= products[i].price <= 10000.0 && products[i].rating >= 0.0
    ensures Filter(products, DefaultCriteria) == products
  {
    if products != [] {
      DefaultCriteriaKeepAll(products[1..]);
    }
  }

  /** A price range that excludes every product leaves nothing, whatever the
      other criteria say. */
  lemma {:induction false} EmptyPriceRangeKeepsNothing(products: seq<Product>, c: Criteria)
    requires forall i :: 0 <= i < |products| ==> !PriceMatch(c, products[i])
    ensures Filter(products, c) == []
  {
    if products != [] {
      EmptyPriceRangeKeepsNothing(products[1..], c);
    }
  }

  // ---------------------------------------------------------------------------
  // Sorting
  // ---------------------------------------------------------------------------

  /** The key each comparator sorts on, oriented so that every order is
      ascending in the key: for any two products `a` and `b`, `k(a) - k(b)` is
      the value the listing's comparator returns for `(a, b)`, so a comparator
      that subtracts the first product's field from the second's sorts by
      descending field.  `Newest` passes no comparator: every key ties. */
  function SortKey(opt: SortOption): (k: Product -> real)
    ensures opt == PriceAsc ==> forall a, b :: k(a) - k(b) == a.price - b.price
    ensures opt == PriceDesc ==> forall a, b :: k(a) - k(b) == b.price - a.price
    ensures opt == Popular ==> forall a, b :: k(a) - k(b) == (b.reviews - a.reviews) as real
    ensures opt == ByRating ==> forall a, b :: k(a) - k(b) == b.rating - a.rating
    ensures opt == Newest ==> forall a, b :: k(a) == k(b)
  {
    match opt
    case PriceAsc => (p: Product) => p.price
    case PriceDesc => (p: Product) => -p.price
    case Popular => (p: Product) => -(p.reviews as real)
    case ByRating => (p: Product) => -p.rating
    case Newest => (p: Product) => 0.0
  }

  ghost predicate SortedBy<T>(key: T -> real, s: seq<T>)
  {
    forall i, j :: 0 <= i < j < |s| ==> key(s[i]) <= key(s[j])
  }

  /** Insert `x` after the leading elements whose key is not greater than
      its own: the step by which the sort places one more element. */
  function Insert<T>(key: T -> real, x: T, s: seq<T>): (r: seq<T>)
    ensures multiset(r) == multiset(s) + multiset{x}
    ensures |r| == |s| + 1
  {
    if s == [] then [x]
    else if key(x) < key(s[0]) then [x] + s
    else
      assert s == [s[0]] + s[1..];
      [s[0]] + Insert(key, x, s[1..])
  }

  /** A sorted list stays sorted behind an element whose key is not greater
      than its first element's. */
  lemma SortedCons<T>(key: T -> real, y: T, s: seq<T>)
    requires SortedBy(key, s) && (s == [] || key(y) <= key(s[0]))
    ensures SortedBy(key, [y] + s)
  {
    var r := [y] + s;
    forall i, j | 0 <= i < j < |r| ensures key(r[i]) <= key(r[j]) {
      assert r[j] == s[j - 1];
      if i == 0 {
        assert key(s[0]) <= key(s[j - 1]);
      } else {
        assert r[i] == s[i - 1];
      }
    }
  }

  lemma SortedTail<T>(key: T -> real, s: seq<T>)
    requires SortedBy(key, s) && s != []
    ensures SortedBy(key, s[1..])
  {
    assert forall i :: 0 <= i < |s[1..]| ==> s[1..][i] == s[i + 1];
  }

  /** Insertion into a sorted list keeps it sorted. */
  lemma {:induction false} InsertKeepsSorted<T>(key: T -> real, x: T, s: seq<T>)
    requires SortedBy(key, s)
    ensures SortedBy(key, Insert(key, x, s))
  {
    if s == [] {
      assert Insert(key, x, s) == [x];
    } else if key(x) < key(s[0]) {
      SortedCons(key, x, s);
    } else {
      var rest := Insert(key, x, s[1..]);
      SortedTail(key, s);
      InsertKeepsSorted(key, x, s[1..]);
      assert key(s[0]) <= key(rest[0]) by {
        assert rest[0] in multiset(s[1..]) + multiset{x};
        if rest[0] != x {
          var j :| 1 <= j < |s| && s[j] == rest[0];
        }
      }
      SortedCons(key, s[0], rest);
    }
  }

  /** The library's stable sort, ascending in the key: each element is inserted
      after the equal-keyed elements that preceded it. */
  function StableSort<T>(key: T -> real, s: seq<T>): (r: seq<T>)
    ensures multiset(r) == multiset(s)
    ensures |r| == |s|
  {
    if s == [] then []
    else
      assert s == s[..|s| - 1] + [s[|s| - 1]];
      Insert(key, s[|s| - 1], StableSort(key, s[..|s| - 1]))
  }

  /** The sort's result is sorted by the key. */
  lemma {:induction false} StableSortIsSorted<T>(key: T -> real, s: seq<T>)
    ensures SortedBy(key, StableSort(key, s))
  {
    if s != [] {
      StableSortIsSorted(key, s[..|s| - 1]);
      InsertKeepsSorted(key, s[|s| - 1], StableSort(key, s[..|s| - 1]));
    }
  }

  /** The elements of `s` whose key is `v`, in order. */
  function WithKey<T>(key: T -> real, s: seq<T>, v: real): seq<T>
  {
    if s == [] then []
    else (if key(s[0]) == v then [s[0]] else []) + WithKey(key, s[1..], v)
  }

  lemma {:induction false} WithKeyOfConcat<T>(key: T -> real, a: seq<T>, b: seq<T>, v: real)
    ensures WithKey(key, a + b, v) == WithKey(key, a, v) + WithKey(key, b, v)
  {
    if a == [] {
      assert a + b == b;
    } else {
      var head := if key(a[0]) == v then [a[0]] else [];
      var ab := a + b;
      assert ab != [] && ab[0] == a[0] && ab[1..] == a[1..] + b;
      assert WithKey(key, ab, v) == head + WithKey(key, a[1..] + b, v);
      assert WithKey(key, a, v) == head + WithKey(key, a[1..], v);
      WithKeyOfConcat(key, a[1..], b, v);
      assert head + (WithKey(key, a[1..], v) + WithKey(key, b, v))
          == (head + WithKey(key, a[1..], v)) + WithKey(key, b, v);
    }
  }

  lemma {:induction false} WithKeyOfLarger<T>(key: T -> real, s: seq<T>, v: real)
    requires forall i :: 0 <= i < |s| ==> key(s[i]) > v
    ensures WithKey(key, s, v) == []
  {
    if s != [] {
      WithKeyOfLarger(key, s[1..], v);
    }
  }

  /** Inserting `x` puts it after every element that has its key. */
  lemma {:induction false} InsertIsStable<T>(key: T -> real, x: T, s: seq<T>, v: real)
    requires SortedBy(key, s)
    ensures WithKey(key, Insert(key, x, s), v) ==
              WithKey(key, s, v) + (if key(x) == v then [x] else [])
  {
    if s == [] {
      assert Insert(key, x, s) == [x];
      WithKeyOfSingle(key, x, v);
    } else if key(x) < key(s[0]) {
      InsertFrontIsStable(key, x, s, v);
    } else {
      SortedTail(key, s);
      InsertIsStable(key, x, s[1..], v);
      InsertBehindIsStable(key, x, s, v);
    }
  }

  /** An element placed in front of larger keys comes after every element of
      its own key, as there are none. */
  lemma InsertFrontIsStable<T>(key: T -> real, x: T, s: seq<T>, v: real)
    requires SortedBy(key, s) && s != [] && key(x) < key(s[0])
    ensures WithKey(key, Insert(key, x, s), v) == WithKey(key, s, v) + (if key(x) == v then [x] else [])
  {
    assert Insert(key, x, s) == [x] + s;
    if key(x) == v {
      assert forall i :: 0 <= i < |s| ==> key(x) < key(s[i]) by {
        assert forall i :: 0 <= i < |s| ==> key(s[0]) <= key(s[i]);
      }
      WithKeyOfLarger(key, s, v);
    }
    WithKeyOfCons(key, x, s, v);
  }

  /** An element placed behind the head keeps the relation the insertion
      into the tail established. */
  lemma InsertBehindIsStable<T>(key: T -> real, x: T, s: seq<T>, v: real)
    requires s != [] && key(s[0]) <= key(x)
    requires WithKey(key, Insert(key, x, s[1..]), v) == WithKey(key, s[1..], v) + (if key(x) == v then [x] else [])
    ensures WithKey(key, Insert(key, x, s), v) == WithKey(key, s, v) + (if key(x) == v then [x] else [])
  {
    var rest := Insert(key, x, s[1..]);
    assert Insert(key, x, s) == [s[0]] + rest;
    ConsKeepsStable(key, s[0], rest, s[1..], if key(x) == v then [x] else [], v);
    assert [s[0]] + s[1..] == s;
  }

  lemma WithKeyOfCons<T>(key: T -> real, y: T, s: seq<T>, v: real)
    ensures WithKey(key, [y] + s, v) == (if key(y) == v then [y] else []) + WithKey(key, s, v)
  {
    var ys := [y] + s;
    assert ys != [] && ys[0] == y && ys[1..] == s;
  }

  /** Putting the same element in front of two lists keeps a relation between
      their elements of key `v`. */
  lemma ConsKeepsStable<T>(key: T -> real, y: T, r: seq<T>, s: seq<T>, tail: seq<T>, v: real)
    requires WithKey(key, r, v) == WithKey(key, s, v) + tail
    ensures WithKey(key, [y] + r, v) == WithKey(key, [y] + s, v) + tail
  {
    WithKeyOfCons(key, y, r, v);
    WithKeyOfCons(key, y, s, v);
    var head, mid := (if key(y) == v then [y] else []), WithKey(key, s, v);
    assert head + (mid + tail) == (head + mid) + tail;
  }

  /** The sort is stable: for every key, the elements with that key keep their
      relative order. */
  lemma {:induction false} SortIsStable<T>(key: T -> real, s: seq<T>, v: real)
    ensures WithKey(key, StableSort(key, s), v) == WithKey(key, s, v)
  {
    if s != [] {
      var init, last := s[..|s| - 1], s[|s| - 1];
      assert init + [last] == s;
      var sortedInit := StableSort(key, init);
      assert StableSort(key, s) == Insert(key, last, sortedInit);
      StableSortIsSorted(key, init);
      InsertIsStable(key, last, sortedInit, v);
      SortIsStable(key, init, v);
      WithKeyOfConcat(key, init, [last], v);
      WithKeyOfSingle(key, last, v);
    }
  }

  lemma WithKeyOfSingle<T>(key: T -> real, x: T, v: real)
    ensures WithKey(key, [x], v) == if key(x) == v then [x] else []
  {
    assert [x][1..] == [];
  }

  // ---------------------------------------------------------------------------
  // The memoised result
  // ---------------------------------------------------------------------------

  /** What sortedness in each option's key means for the product fields. */
  lemma SortedOrders(opt: SortOption, r: seq<Product>)
    requires SortedBy(SortKey(opt), r)
    ensures opt == PriceAsc ==> forall i, j :: 0 <= i < j < |r| ==> r[i].price <= r[j].price
    ensures opt == PriceDesc ==> forall i, j :: 0 <= i < j < |r| ==> r[i].price >= r[j].price
    ensures opt == Popular ==> forall i, j :: 0 <= i < j < |r| ==> r[i].reviews >= r[j].reviews
    ensures opt == ByRating ==> forall i, j :: 0 <= i < j < |r| ==> r[i].rating >= r[j].rating
  {
  }

  lemma SameMembers(a: seq<Product>, b: seq<Product>)
    requires multiset(a) == multiset(b)
    ensures forall p :: p in a <==> p in b
  {
    assert forall p :: p in a <==> p in multiset(a);
    assert forall p :: p in b <==> p in multiset(b);
  }

  /** `filteredAndSortedProducts`: filter, then sort unless the order is
      `Newest`. */
  function FilteredAndSorted(products: seq<Product>, c: Criteria, opt: SortOption): (r: seq<Product>)
    ensures forall p :: p in r <==> p in products && Matches(c, p)
    ensures multiset(r) == multiset(Filter(products, c))
    ensures opt == Newest ==> r == Filter(products, c)
    ensures opt == PriceAsc ==> forall i, j :: 0 <= i < j < |r| ==> r[i].price <= r[j].price
    ensures opt == PriceDesc ==> forall i, j :: 0 <= i < j < |r| ==> r[i].price >= r[j].price
    ensures opt == Popular ==> forall i, j :: 0 <= i < j < |r| ==> r[i].reviews >= r[j].reviews
    ensures opt == ByRating ==> forall i, j :: 0 <= i < j < |r| ==> r[i].rating >= r[j].rating
  {
    var f := Filter(products, c);
    if opt == Newest then f
    else
      var r := StableSort(SortKey(opt), f);
      StableSortIsSorted(SortKey(opt), f);
      SameMembers(r, f);
      SortedOrders(opt, r);
      r
  }

  /** Products that compare equal under the chosen order appear in the result
      in catalog order. */
  lemma SortedResultIsStable(products: seq<Product>, c: Criteria, opt: SortOption, v: real)
    requires opt != Newest
    ensures WithKey(SortKey(opt), FilteredAndSorted(products, c, opt), v) == WithKey(SortKey(opt), Filter(products, c), v)
  {
    SortIsStable(SortKey(opt), Filter(products, c), v);
  }

  /** Products that share a price are the same product. */
  ghost predicate PriceIdentifies(products: seq<Product>)
  {
    forall i, j :: 0 <= i < |products| && 0 <= j < |products| && products[i].price == products[j].price ==>
      products[i] == products[j]
  }

  /** Within `s`, elements with the same key are equal. */
  ghost predicate KeyIdentifies<T>(key: T -> real, s: seq<T>)
  {
    forall i, j :: 0 <= i < |s| && 0 <= j < |s| && key(s[i]) == key(s[j]) ==> s[i] == s[j]
  }

  function Reverse<T>(s: seq<T>): (r: seq<T>)
    ensures |r| == |s| && multiset(r) == multiset(s)
    ensures forall k :: 0 <= k < |s| ==> r[k] == s[|s| - 1 - k]
  {
    if s == [] then []
    else
      assert s == [s[0]] + s[1..];
      Reverse(s[1..]) + [s[0]]
  }

  /** With no two different products at the same price, the ascending and
      descending price orders are each other's reverse. */
  lemma PriceOrdersAreReverses(products: seq<Product>, c: Criteria)
    requires PriceIdentifies(products)
    ensures FilteredAndSorted(products, c, PriceDesc) == Reverse(FilteredAndSorted(products, c, PriceAsc))
  {
    var f := Filter(products, c);
    var up, down := StableSort(SortKey(PriceAsc), f), StableSort(SortKey(PriceDesc), f);
    var rev := Reverse(up);
    StableSortIsSorted(SortKey(PriceAsc), f);
    StableSortIsSorted(SortKey(PriceDesc), f);
    ReversedAscendingIsDescending(up);
    PriceIdentifiesMembers(products, c, rev);
    SortedIsUnique(SortKey(PriceDesc), rev, down);
  }

  /** A list drawn from the filtered catalog inherits the catalog's property
      that a price identifies a product. */
  lemma PriceIdentifiesMembers(products: seq<Product>, c: Criteria, s: seq<Product>)
    requires PriceIdentifies(products)
    requires multiset(s) == multiset(Filter(products, c))
    ensures KeyIdentifies(SortKey(PriceDesc), s)
  {
    var f := Filter(products, c);
    forall i, j | 0 <= i < |s| && 0 <= j < |s| && s[i].price == s[j].price ensures s[i] == s[j] {
      assert s[i] in multiset(f) && s[j] in multiset(f);
      assert s[i] in products && s[j] in products;
      var a :| 0 <= a < |products| && products[a] == s[i];
      var b :| 0 <= b < |products| && products[b] == s[j];
    }
  }

  lemma ReversedAscendingIsDescending(up: seq<Product>)
    requires SortedBy(SortKey(PriceAsc), up)
    ensures SortedBy(SortKey(PriceDesc), Reverse(up))
  {
    var rev := Reverse(up);
    forall i, j | 0 <= i < j < |rev| ensures rev[i].price >= rev[j].price {
      var i', j' := |up| - 1 - i, |up| - 1 - j;
      assert rev[i] == up[i'] && rev[j] == up[j'];
      assert SortKey(PriceAsc)(up[j']) <= SortKey(PriceAsc)(up[i']);
    }
  }

  lemma SameHeadSameTail<T>(a: seq<T>, b: seq<T>)
    requires a != [] && b != [] && a[0] == b[0] && multiset(a) == multiset(b)
    ensures multiset(a[1..]) == multiset(b[1..])
  {
    assert a == [a[0]] + a[1..];
    assert b == [b[0]] + b[1..];
    assert multiset(a) == multiset{a[0]} + multiset(a[1..]);
    assert multiset(b) == multiset{b[0]} + multiset(b[1..]);
    forall z ensures multiset(a[1..])[z] == multiset(b[1..])[z] {
      assert multiset(a)[z] == multiset{a[0]}[z] + multiset(a[1..])[z];
      assert multiset(b)[z] == multiset{b[0]}[z] + multiset(b[1..])[z];
    }
  }

  /** Two sorted permutations of each other start with elements of the same
      key, hence with the same element when the key identifies elements. */
  lemma SortedHeadsAgree<T>(key: T -> real, a: seq<T>, b: seq<T>)
    requires SortedBy(key, a) && SortedBy(key, b)
    requires multiset(a) == multiset(b) && a != []
    requires KeyIdentifies(key, a)
    ensures b != [] && a[0] == b[0]
  {
    assert a[0] in multiset(b);
    assert b[0] in multiset(a);
    var k :| 0 <= k < |b| && b[k] == a[0];
    var m :| 0 <= m < |a| && a[m] == b[0];
    assert key(a[0]) <= key(a[m]);
    assert key(b[0]) <= key(b[k]);
  }

  /** When equal keys mean equal elements, a collection has exactly one order
      sorted by the key. */
  lemma {:induction false} SortedIsUnique<T>(key: T -> real, a: seq<T>, b: seq<T>)
    requires SortedBy(key, a) && SortedBy(key, b)
    requires multiset(a) == multiset(b)
    requires KeyIdentifies(key, a)
    ensures a == b
  {
    if a == [] {
      assert |multiset(b)| == 0;
    } else {
      SortedHeadsAgree(key, a, b);
      SameHeadSameTail(a, b);
      var a', b' := a[1..], b[1..];
      assert SortedBy(key, a') && SortedBy(key, b') && KeyIdentifies(key, a') by {
        assert forall i :: 0 <= i < |a'| ==> a'[i] == a[i + 1];
        assert forall i :: 0 <= i < |b'| ==> b'[i] == b[i + 1];
      }
      SortedIsUnique(key, a', b');
      assert a == [a[0]] + a' && b == [b[0]] + b';
    }
  }

  // ---------------------------------------------------------------------------
  // Criteria updates and distinct values
  // ---------------------------------------------------------------------------

  /** The list without any occurrence of `v`, in order. */
  function Without(list: seq<string>, v: string): (r: seq<string>)
    ensures forall w :: w in r <==> w in list && w != v
    ensures NoDuplicates(list) ==> NoDuplicates(r)
  {
    if list == [] then []
    else
      var rest := Without(list[1..], v);
      assert forall w :: w in list <==> w == list[0] || w in list[1..];
      if list[0] == v then rest
      else
        assert NoDuplicates(list) ==> list[0] !in list[1..];
        [list[0]] + rest
  }

  /** `toggleCategory` / `toggleBrand`: drop `v` if the list has it, otherwise
      append it. */
  function Toggle(list: seq<string>, v: string): (r: seq<string>)
    ensures v in r <==> v !in list
    ensures forall w :: w != v ==> (w in r <==> w in list)
    ensures NoDuplicates(list) ==> NoDuplicates(r)
  {
    if v in list then Without(list, v) else list + [v]
  }

  /** Toggling twice restores the list's membership, and an absent value
      comes back exactly as it was. */
  lemma ToggleTwice(list: seq<string>, v: string)
    ensures forall w :: w in Toggle(Toggle(list, v), v) <==> w in list
    ensures v !in list ==> Toggle(Toggle(list, v), v) == list
  {
    if v !in list {
      WithoutAbsent(list, v);
      WithoutOfConcat(list, [v], v);
    }
  }

  lemma {:induction false} WithoutAbsent(list: seq<string>, v: string)
    requires v !in list
    ensures Without(list, v) == list
  {
    if list != [] {
      WithoutAbsent(list[1..], v);
    }
  }

  lemma {:induction false} WithoutOfConcat(a: seq<string>, b: seq<string>, v: string)
    ensures Without(a + b, v) == Without(a, v) + Without(b, v)
  {
    if a == [] {
      assert a + b == b;
    } else {
      assert (a + b)[1..] == a[1..] + b;
      WithoutOfConcat(a[1..], b, v);
    }
  }

  /** Position of the first occurrence of `v` in `xs`, or `|xs|` when `v`
      does not occur. */
  function FirstIndex(xs: seq<string>, v: string): nat
  {
    if xs == [] then 0
    else if xs[0] == v then 0
    else FirstIndex(xs[1..], v) + 1
  }

  /** `FirstIndex` finds `v` exactly when it occurs, at a position that no
      earlier occurrence precedes. */
  lemma {:induction false} FirstIndexFinds(xs: seq<string>, v: string)
    ensures FirstIndex(xs, v) <= |xs|
    ensures FirstIndex(xs, v) < |xs| ==> xs[FirstIndex(xs, v)] == v
    ensures forall i :: 0 <= i < FirstIndex(xs, v) ==> xs[i] != v
    ensures FirstIndex(xs, v) < |xs| <==> v in xs
  {
    if xs != [] && xs[0] != v {
      FirstIndexFinds(xs[1..], v);
      assert forall i :: 1 <= i < |xs| ==> xs[i] == xs[1..][i - 1];
      assert v in xs <==> v in xs[1..] by {
        assert xs == [xs[0]] + xs[1..];
      }
    }
  }

  /** Within the first `n` elements, the first occurrence is the one of the
      whole list, or none when that one lies beyond. */
  lemma FirstIndexInPrefix(xs: seq<string>, n: nat, v: string)
    requires n <= |xs|
    ensures FirstIndex(xs, v) < n ==> FirstIndex(xs[..n], v) == FirstIndex(xs, v)
    ensures FirstIndex(xs, v) >= n ==> FirstIndex(xs[..n], v) == n
  {
    FirstIndexFinds(xs, v);
    FirstIndexFinds(xs[..n], v);
    var k, p := FirstIndex(xs, v), FirstIndex(xs[..n], v);
    if p < n {
      assert xs[p] == v;
    }
    if k < n {
      assert xs[..n][k] == v;
    }
  }

  /** The distinct values of `xs`, each once, in order of first occurrence: what
      building a set and reading it back yields. */
  function Distinct(xs: seq<string>): (r: seq<string>)
    ensures DistinctOf(xs, r)
  {
    if xs == [] then []
    else
      var d := Distinct(xs[..|xs| - 1]);
      var last := xs[|xs| - 1];
      DistinctStep(xs, d);
      if last in d then d else d + [last]
  }

  /** `r` holds each value of `xs` once, in order of first occurrence. */
  ghost predicate DistinctOf(xs: seq<string>, r: seq<string>)
  {
    && NoDuplicates(r)
    && (forall v :: v in r <==> v in xs)
    && (forall i, j :: 0 <= i < j < |r| ==> FirstIndex(xs, r[i]) < FirstIndex(xs, r[j]))
  }

  /** The distinct values of all but the last element, extended by the last
      one when it is new, are the distinct values of the whole list. */
  lemma DistinctStep(xs: seq<string>, d: seq<string>)
    requires xs != [] && DistinctOf(xs[..|xs| - 1], d)
    ensures DistinctOf(xs, if xs[|xs| - 1] in d then d else d + [xs[|xs| - 1]])
  {
    PrefixIndices(xs, d);
    if xs[|xs| - 1] in d {
      DistinctKeep(xs, d);
    } else {
      DistinctAppend(xs, d);
    }
  }

  /** The values of `d`, drawn from all but the last element, first occur
      where they first occur in that prefix. */
  lemma PrefixIndices(xs: seq<string>, d: seq<string>)
    requires xs != [] && forall v :: v in d ==> v in xs[..|xs| - 1]
    ensures forall i :: 0 <= i < |d| ==> FirstIndex(xs, d[i]) == FirstIndex(xs[..|xs| - 1], d[i]) < |xs| - 1
  {
    var n := |xs| - 1;
    forall i | 0 <= i < |d| ensures FirstIndex(xs, d[i]) == FirstIndex(xs[..n], d[i]) < n {
      assert d[i] in d;
      FirstIndexFinds(xs[..n], d[i]);
      FirstIndexInPrefix(xs, n, d[i]);
    }
  }

  lemma DistinctKeep(xs: seq<string>, d: seq<string>)
    requires xs != [] && DistinctOf(xs[..|xs| - 1], d) && xs[|xs| - 1] in d
    requires forall i :: 0 <= i < |d| ==> FirstIndex(xs, d[i]) == FirstIndex(xs[..|xs| - 1], d[i])
    ensures DistinctOf(xs, d)
  {
    AppendMembers(xs, d);
    forall v ensures v in d <==> v in xs {
      assert v in d + [xs[|xs| - 1]] <==> v in d || v == xs[|xs| - 1];
    }
    forall i, j | 0 <= i < j < |d| ensures FirstIndex(xs, d[i]) < FirstIndex(xs, d[j]) {
      assert FirstIndex(xs[..|xs| - 1], d[i]) < FirstIndex(xs[..|xs| - 1], d[j]);
    }
  }

  lemma DistinctAppend(xs: seq<string>, d: seq<string>)
    requires xs != [] && DistinctOf(xs[..|xs| - 1], d) && xs[|xs| - 1] !in d
    requires forall i :: 0 <= i < |d| ==> FirstIndex(xs, d[i]) == FirstIndex(xs[..|xs| - 1], d[i]) < |xs| - 1
    ensures DistinctOf(xs, d + [xs[|xs| - 1]])
  {
    FirstIndexOfNewLast(xs);
    AppendMembers(xs, d);
    AppendKeepsOrder(xs, d, xs[|xs| - 1]);
  }

  lemma AppendMembers(xs: seq<string>, d: seq<string>)
    requires xs != [] && forall v :: v in d <==> v in xs[..|xs| - 1]
    ensures forall v :: v in d + [xs[|xs| - 1]] <==> v in xs
  {
    assert xs == xs[..|xs| - 1] + [xs[|xs| - 1]];
  }

  /** A last element that does not occur before first occurs at the end. */
  lemma FirstIndexOfNewLast(xs: seq<string>)
    requires xs != [] && xs[|xs| - 1] !in xs[..|xs| - 1]
    ensures FirstIndex(xs, xs[|xs| - 1]) == |xs| - 1
  {
    var n, last := |xs| - 1, xs[|xs| - 1];
    FirstIndexFinds(xs[..n], last);
    FirstIndexFinds(xs, last);
    FirstIndexInPrefix(xs, n, last);
  }

  /** Appending a value that first occurs later than every value of `d` keeps
      the list in order of first occurrence, hence free of duplicates. */
  lemma AppendKeepsOrder(xs: seq<string>, d: seq<string>, last: string)
    requires forall i :: 0 <= i < |d| ==> FirstIndex(xs, d[i]) < FirstIndex(xs, last)
    requires forall i, j :: 0 <= i < j < |d| ==> FirstIndex(xs, d[i]) < FirstIndex(xs, d[j])
    ensures NoDuplicates(d + [last])
    ensures forall i, j :: 0 <= i < j < |d + [last]| ==>
              FirstIndex(xs, (d + [last])[i]) < FirstIndex(xs, (d + [last])[j])
  {
    var r := d + [last];
    forall i, j | 0 <= i < j < |r| ensures FirstIndex(xs, r[i]) < FirstIndex(xs, r[j]) {
      assert r[i] == d[i];
      if j < |d| {
        assert r[j] == d[j];
      }
    }
  }

  function Categories(products: seq<Product>): (r: seq<string>)
    ensures |r| == |products| && forall i :: 0 <= i < |products| ==> r[i] == products[i].category
  {
    seq(|products|, i requires 0 <= i < |products| => products[i].category)
  }

  function Brands(products: seq<Product>): (r: seq<string>)
    ensures |r| == |products| && forall i :: 0 <= i < |products| ==> r[i] == products[i].brand
  {
    seq(|products|, i requires 0 <= i < |products| => products[i].brand)
  }

  /** `getUniqueCategories`: every category of the catalog exactly once, in
      order of first occurrence. */
  function UniqueCategories(products: seq<Product>): (r: seq<string>)
    ensures NoDuplicates(r)
    ensures forall v :: v in r <==> v in Categories(products)
    ensures forall v :: v in r <==> exists p :: p in products && p.category == v
    ensures forall i, j :: 0 <= i < j < |r| ==> FirstIndex(Categories(products), r[i]) < FirstIndex(Categories(products), r[j])
  {
    var cs := Categories(products);
    assert forall p :: p in products ==> p.category in cs;
    Distinct(cs)
  }

  /** `getUniqueBrands`: every brand of the catalog exactly once, in order of
      first occurrence. */
  function UniqueBrands(products: seq<Product>): (r: seq<string>)
    ensures NoDuplicates(r)
    ensures forall v :: v in r <==> v in Brands(products)
    ensures forall v :: v in r <==> exists p :: p in products && p.brand == v
    ensures forall i, j :: 0 <= i < j < |r| ==> FirstIndex(Brands(products), r[i]) < FirstIndex(Brands(products), r[j])
  {
    var bs := Brands(products);
    assert forall p :: p in products ==> p.brand in bs;
    Distinct(bs)
  }

  // ---------------------------------------------------------------------------
  // The hook's state
  // ---------------------------------------------------------------------------

  class FilterPanel {
    var criteria: Criteria
    var sortBy: SortOption

    /** The toggles never let a category or brand appear twice. */
    ghost predicate Valid()
      reads this
    {
      NoDuplicates(criteria.categories) && NoDuplicates(criteria.brands)
    }

    constructor ()
      ensures Valid()
      ensures criteria == DefaultCriteria && sortBy == Newest
    {
      criteria := DefaultCriteria;
      sortBy := Newest;
    }

    /** The products the listing shows for the current state. */
    function Results(products: seq<Product>): (r: seq<Product>)
      reads this
      ensures forall p :: p in r <==> p in products && Matches(criteria, p)
      ensures sortBy == Newest ==> r == Filter(products, criteria)
      ensures r == FilteredAndSorted(products, criteria, sortBy)
    {
      FilteredAndSorted(products, criteria, sortBy)
    }

    method SetSortBy(opt: SortOption)
      modifies this
      ensures sortBy == opt && criteria == old(criteria)
    {
      sortBy := opt;
    }

    method UpdatePriceRange(lo: real, hi: real)
      requires Valid()
      modifies this
      ensures Valid() && sortBy == old(sortBy)
      ensures criteria == old(criteria).(priceRange := (lo, hi))
    {
      criteria := criteria.(priceRange := (lo, hi));
    }

    method ToggleCategory(category: string)
      requires Valid()
      modifies this
      ensures Valid() && sortBy == old(sortBy)
      ensures category in criteria.categories <==> category !in old(criteria.categories)
      ensures forall w :: w != category ==> (w in criteria.categories <==> w in old(criteria.categories))
      ensures criteria == old(criteria).(categories := Toggle(old(criteria.categories), category))
    {
      criteria := criteria.(categories := Toggle(criteria.categories, category));
    }

    method ToggleBrand(brand: string)
      requires Valid()
      modifies this
      ensures Valid() && sortBy == old(sortBy)
      ensures brand in criteria.brands <==> brand !in old(criteria.brands)
      ensures forall w :: w != brand ==> (w in criteria.brands <==> w in old(criteria.brands))
      ensures criteria == old(criteria).(brands := Toggle(old(criteria.brands), brand))
    {
      criteria := criteria.(brands := Toggle(criteria.brands, brand));
    }

    method SetMinRating(rating: real)
      requires Valid()
      modifies this
      ensures Valid() && sortBy == old(sortBy)
      ensures criteria == old(criteria).(minRating := rating)
    {
      criteria := criteria.(minRating := rating);
    }

    /** Restores the default criteria; the chosen order is kept. */
    method ClearFilters()
      modifies this
      ensures Valid() && sortBy == old(sortBy)
      ensures criteria == DefaultCriteria
    {
      criteria := DefaultCriteria;
    }
  }
}
