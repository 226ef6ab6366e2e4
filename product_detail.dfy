/**
 * The product page: the product is looked up by the numeric id of the route,
 * an image carousel steps through its pictures, a quantity selector is
 * clamped by the stock, related products of the same category are listed,
 * and the selected quantity is added to the cart.
 */
module ProductDetail {

  import opened Util
  import Cart
  import Filters

  type Product = Filters.Product

  // ---------------------------------------------------------------------------
  // The image carousel
  // ---------------------------------------------------------------------------

  /** `nextImage`: the following picture, wrapping to the first. */
  function NextImage(i: int, n: int): (j: int)
    requires i >= 0 && n >= 1
    ensures 0 <= j < n
    ensures i < n - 1 ==> j == i + 1
    ensures i == n - 1 ==> j == 0
  {
    (i + 1) % n
  }

  /** `prevImage`: the preceding picture, wrapping to the last. The left
      operand of the remainder is never negative here, so the remainder of the
      source and Dafny's agree. */
  function PrevImage(i: int, n: int): (j: int)
    requires i >= 0 && n >= 1
    ensures 0 <= j < n
    ensures 0 < i < n ==> j == i - 1
    ensures i == 0 ==> j == n - 1
  {
    (i - 1 + n) % n
  }

  /** The two arrows undo each other on every index of the carousel. */
  lemma ArrowsAreInverse(i: int, n: int)
    requires 0 <= i < n
    ensures PrevImage(NextImage(i, n), n) == i
    ensures NextImage(PrevImage(i, n), n) == i
  {
  }

  // ---------------------------------------------------------------------------
  // The quantity selector
  // ---------------------------------------------------------------------------

  /** The "+" button: one more, never above the stock. When the quantity has
      already reached the stock this does not raise it, and with a stock of 0
      it lowers it to 0. */
  function QtyUp(q: int, stock: int): (r: int)
    ensures r <= stock
    ensures q < stock ==> r == q + 1
    ensures q >= stock ==> r == stock
  {
    Min(stock, q + 1)
  }

  /** What the selector can hold for a product with a stock that is not
      negative: at least one unit when there is stock, at most the stock (or
      one, the starting value, when there is none). */
  predicate QuantityInRange(q: int, stock: int)
  {
    0 <= q <= Max(1, stock) && (stock >= 1 ==> q >= 1)
  }

  lemma ButtonsKeepQuantityInRange(q: int, stock: int)
    requires stock >= 0 && QuantityInRange(q, stock)
    ensures QuantityInRange(StepDown(q), stock)
    ensures QuantityInRange(QtyUp(q, stock), stock)
  {
  }

  // ---------------------------------------------------------------------------
  // Looking the product up by the route's id
  // ---------------------------------------------------------------------------

  predicate IsDigit(c: char)
  {
    '0' as int <= c as int <= '9' as int
  }

  function DigitOf(c: char): (d: nat)
    requires IsDigit(c)
    ensures d <= 9
  {
    c as int - '0' as int
  }

  /** The value of a string of decimal digits. */
  function DigitsValue(ds: string): nat
    requires forall k :: 0 <= k < |ds| ==> IsDigit(ds[k])
  {
    if ds == [] then 0
    else DigitsValue(ds[..|ds| - 1]) * 10 + DigitOf(ds[|ds| - 1])
  }

  /** The length of the longest prefix of decimal digits. */
  function DigitRun(s: string): (k: nat)
    ensures k <= |s|
    ensures forall j :: 0 <= j < k ==> IsDigit(s[j])
    ensures k < |s| ==> !IsDigit(s[k])
  {
    if s == [] || !IsDigit(s[0]) then 0
    else
      var k := DigitRun(s[1..]) + 1;
      assert forall j :: 1 <= j < k ==> s[j] == s[1..][j - 1];
      k
  }

  /** `s` without its leading spaces. */
  function TrimStart(s: string): (t: string)
    ensures |t| <= |s|
    ensures t == [] || t[0] != ' '
  {
    if s != [] && s[0] == ' ' then TrimStart(s[1..]) else s
  }

  /** `t` without one leading sign. */
  function Unsigned(t: string): string
  {
    if t != [] && (t[0] == '-' || t[0] == '+') then t[1..] else t
  }

  /** `parseInt` on a decimal string: leading spaces are skipped, an optional
      sign is read, then the longest run of digits; anything after that run is
      ignored, and a string with no digits there is not a number (`None`, the
      source's `NaN`).  Otherwise the value is that run, negated after a minus. */
  function ParseInt(s: string): (r: Option<int>)
    ensures r.None? <==> DigitRun(Unsigned(TrimStart(s))) == 0
    ensures var t := TrimStart(s); var u := Unsigned(t);
            r.Some? ==> var v: int := DigitsValue(u[..DigitRun(u)]);
                        r.value == (if t != [] && t[0] == '-' then -v else v)
    decreases |s|
  {
    if s != [] && s[0] == ' ' then ParseInt(s[1..])
    else if s != [] && (s[0] == '-' || s[0] == '+') then
      var t := s[1..];
      var k := DigitRun(t);
      var v: int := DigitsValue(t[..k]);
      if k == 0 then None
      else Some(if s[0] == '-' then -v else v)
    else
      var k := DigitRun(s);
      if k == 0 then None else Some(DigitsValue(s[..k]))
  }

  /** The decimal notation of a natural number. */
  function Decimal(n: nat): (s: string)
    ensures |s| >= 1
    ensures forall k :: 0 <= k < |s| ==> IsDigit(s[k])
  {
    var d := [('0' as int + n % 10) as char];
    if n < 10 then d else Decimal(n / 10) + d
  }

  lemma {:induction false} DecimalValue(n: nat)
    ensures DigitsValue(Decimal(n)) == n
  {
    var s := Decimal(n);
    if n >= 10 {
      DecimalValue(n / 10);
      assert s[..|s| - 1] == Decimal(n / 10);
    }
  }

  /** `parseInt` reads back the decimal notation of any id that is not
      negative, whatever non-digit text follows it in the route. */
  lemma ParseDecimal(n: nat, rest: string)
    requires rest == [] || !IsDigit(rest[0])
    ensures ParseInt(Decimal(n) + rest) == Some(n)
  {
    var s := Decimal(n) + rest;
    var d := Decimal(n);
    assert s[0] == d[0];
    assert forall j :: 0 <= j < |d| ==> s[j] == d[j];
    assert forall j :: 0 <= j < |d| ==> IsDigit(s[j]);
    assert |s| > |d| ==> !IsDigit(s[|d|]) by {
      if |s| > |d| {
        assert s[|d|] == rest[0];
      }
    }
    assert DigitRun(s) == |d|;
    assert s[..|d|] == d;
    DecimalValue(n);
    LeadingDigitParses(s);
  }

  /** A string that starts with a digit is read from its first character. */
  lemma LeadingDigitParses(s: string)
    requires s != [] && IsDigit(s[0])
    ensures ParseInt(s) == Some(DigitsValue(s[..DigitRun(s)]))
  {
  }

  lemma ZeroParses()
    ensures ParseInt("0") == Some(0)
  {
    assert TrimStart("0") == "0" && Unsigned("0") == "0";
    assert DigitRun("0") == 1 && "0"[..1] == "0";
    assert DigitsValue("0") == 0;
  }

  /** The route's id parameter: absent (or empty) stands for "0". */
  function RouteId(param: Option<string>): (id: Option<int>)
    ensures param.None? || param == Some("") ==> id == Some(0)
  {
    var text := if param.None? || param == Some("") then "0" else param.value;
    ZeroParses();
    ParseInt(text)
  }

  /** `find`: the first product carrying `id`. */
  function FindProduct(products: seq<Product>, id: int): (r: Option<Product>)
    ensures r.None? <==> forall i :: 0 <= i < |products| ==> products[i].id != id
    ensures r.Some? ==> exists k :: 0 <= k < |products| && products[k] == r.value
                                    && r.value.id == id
                                    && forall j :: 0 <= j < k ==> products[j].id != id
  {
    if products == [] then None
    else if products[0].id == id then Some(products[0])
    else
      var r := FindProduct(products[1..], id);
      assert forall i :: 1 <= i < |products| ==> products[i] == products[1..][i - 1];
      if r.Some? then
        var k :| 0 <= k < |products[1..]| && products[1..][k] == r.value && r.value.id == id
                 && forall j :: 0 <= j < k ==> products[1..][j].id != id;
        assert products[k + 1] == r.value;
        r
      else r
  }

  /** The product the page shows: none (the page keeps its loading message)
      when the id is not a number or no product carries it. */
  function LookupProduct(products: seq<Product>, param: Option<string>): (r: Option<Product>)
    ensures RouteId(param).None? ==> r.None?
    ensures RouteId(param).Some? ==> r == FindProduct(products, RouteId(param).value)
  {
    match RouteId(param)
    case None => None
    case Some(id) => FindProduct(products, id)
  }

  /** A product reached through the link `/produto/<id>` of a catalog with
      unique ids is the product with that id. */
  lemma LinkFindsProduct(products: seq<Product>, k: int)
    requires 0 <= k < |products| && products[k].id >= 0
    requires forall i, j :: 0 <= i < j < |products| ==> products[i].id != products[j].id
    ensures LookupProduct(products, Some(Decimal(products[k].id))) == Some(products[k])
  {
    var id := products[k].id;
    ParseDecimal(id, []);
    assert Decimal(id) + [] == Decimal(id);
    assert Decimal(id) != "";
    var r := FindProduct(products, id);
    var m :| 0 <= m < |products| && products[m] == r.value && r.value.id == id
             && forall j :: 0 <= j < m ==> products[j].id != id;
    assert m == k;
  }

  // ---------------------------------------------------------------------------
  // Related products
  // ---------------------------------------------------------------------------

  /** Catalog products of the same category other than the product itself,
      in catalog order. */
  function SameCategoryOthers(products: seq<Product>, product: Product): (r: seq<Product>)
    ensures forall p :: p in r <==> p in products && p.category == product.category && p.id != product.id
  {
    if products == [] then []
    else
      var rest := SameCategoryOthers(products[1..], product);
      assert forall p :: p in products <==> p == products[0] || p in products[1..];
      var p := products[0];
      if p.category == product.category && p.id != product.id then [p] + rest else rest
  }

  lemma {:induction false} SameCategoryOthersOfConcat(a: seq<Product>, b: seq<Product>, product: Product)
    ensures SameCategoryOthers(a + b, product) == SameCategoryOthers(a, product) + SameCategoryOthers(b, product)
  {
    if a == [] {
      assert a + b == b;
    } else {
      assert (a + b)[1..] == a[1..] + b;
      SameCategoryOthersOfConcat(a[1..], b, product);
    }
  }

  /** `relatedProducts`: the first four of them. */
  function Related(products: seq<Product>, product: Product): (r: seq<Product>)
    ensures |r| == Min(4, |SameCategoryOthers(products, product)|)
    ensures forall p :: p in r ==> p in products && p.category == product.category && p.id != product.id
    ensures r == SameCategoryOthers(products, product)[..|r|]
  {
    var others := SameCategoryOthers(products, product);
    var r := others[..Min(4, |others|)];
    assert forall p :: p in r ==> p in others;
    r
  }

  /** A catalog with at most four candidates shows all of them. */
  lemma FewCandidatesAllShown(products: seq<Product>, product: Product)
    requires |SameCategoryOthers(products, product)| <= 4
    ensures Related(products, product) == SameCategoryOthers(products, product)
  {
    var others := SameCategoryOthers(products, product);
    assert others[..|others|] == others;
  }

  // ---------------------------------------------------------------------------
  // Adding to the cart
  // ---------------------------------------------------------------------------

  /** The first picture, or the empty string for a product without one. */
  function FirstImage(images: seq<string>): (r: string)
    ensures images != [] ==> r in images && r == images[0]
    ensures images == [] ==> r == ""
  {
    if |images| > 0 then images[0] else ""
  }

  /** What `handleAddToCart` hands to the cart. */
  function CartPayload(product: Product): (item: Cart.Item)
    ensures item.id == product.id && item.name == product.name && item.price == product.price
    ensures |product.images| > 0 ==> item.image == product.images[0]
  {
    Cart.Item(product.id, product.name, product.price, FirstImage(product.images))
  }

  class ProductDetailView {
    const product: Product
    var quantity: int
    var currentImageIndex: int

    ghost predicate Valid()
      reads this
    {
      && currentImageIndex >= 0
      && (|product.images| >= 1 ==> currentImageIndex < |product.images|)
      && (product.stock >= 0 ==> QuantityInRange(quantity, product.stock))
    }

    constructor (p: Product)
      ensures Valid() && product == p && quantity == 1 && currentImageIndex == 0
    {
      product := p;
      quantity := 1;
      currentImageIndex := 0;
    }

    /** The right arrow, rendered only for a product with several pictures. */
    method NextPicture()
      requires Valid() && |product.images| > 1
      modifies this
      ensures Valid() && quantity == old(quantity)
      ensures currentImageIndex == NextImage(old(currentImageIndex), |product.images|)
    {
      currentImageIndex := (currentImageIndex + 1) % |product.images|;
    }

    /** The left arrow, rendered only for a product with several pictures. */
    method PrevPicture()
      requires Valid() && |product.images| > 1
      modifies this
      ensures Valid() && quantity == old(quantity)
      ensures currentImageIndex == PrevImage(old(currentImageIndex), |product.images|)
    {
      currentImageIndex := (currentImageIndex - 1 + |product.images|) % |product.images|;
    }

    /** A thumbnail, one per picture and rendered only for a product with
        several pictures: it shows the picture at its own index. */
    method SelectPicture(index: nat)
      requires Valid() && |product.images| > 1 && index < |product.images|
      modifies this
      ensures Valid() && quantity == old(quantity)
      ensures currentImageIndex == index
    {
      currentImageIndex := index;
    }

    method DecreaseQuantity()
      requires Valid()
      modifies this
      ensures Valid() && currentImageIndex == old(currentImageIndex)
      ensures quantity == StepDown(old(quantity))
    {
      if product.stock >= 0 {
        ButtonsKeepQuantityInRange(quantity, product.stock);
      }
      quantity := StepDown(quantity);
    }

    method IncreaseQuantity()
      requires Valid()
      modifies this
      ensures Valid() && currentImageIndex == old(currentImageIndex)
      ensures quantity == QtyUp(old(quantity), product.stock)
    {
      if product.stock >= 0 {
        ButtonsKeepQuantityInRange(quantity, product.stock);
      }
      quantity := Min(product.stock, quantity + 1);
    }

    /** `handleAddToCart`, enabled unless the stock is 0: the selected
        quantity of the product goes into the cart. With stock on hand that is
        between one unit and the stock. */
    method AddToCart(store: Cart.CartStore)
      requires Valid() && store.Valid() && product.stock != 0
      modifies store
      ensures store.Valid() && store.isLoaded == old(store.isLoaded)
      ensures store.cart == Cart.AddLine(old(store.cart), CartPayload(product), quantity)
      ensures !Cart.HasId(old(store.cart), product.id) ==>
                store.cart[|store.cart| - 1] ==
                  Cart.CartLine(product.id, product.name, product.price, quantity, FirstImage(product.images))
      ensures product.stock > 0 ==> 1 <= quantity <= product.stock
    {
      store.AddToCart(CartPayload(product), quantity);
    }
  }
}
