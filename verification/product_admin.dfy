/** The owner's catalog edits on the catalog page (components/Products.tsx):
    the add-product form, the inline stock editor and customer ratings, and
    how they keep `inStock` in step with `quantity`. The clock reading that
    becomes a new product's id is a parameter. */
module ProductAdmin {
  import opened Seqs
  import opened Strings
  import opened Records
  import opened AppState

  /** The add-product form. A price or quantity that is missing or not a
      number is `None`. */
  datatype ProductForm = ProductForm(
    name: string,
    category: string,
    price: Option<int>,
    description: string,
    image: string,
    company: string,
    quantity: Option<int>,
    images: seq<string>)

  const DefaultQuantity := 10
  const DefaultCategory := "Seeds"
  const DefaultDescription := "No description provided."

  /** The placeholder picture for a product added without one. */
  function PlaceholderImage(now: int): string {
    "https://picsum.photos/400/300?random=" + IntToString(now)
  }

  /** `inStock` agrees with a recorded quantity. */
  predicate StockConsistent(p: Product) {
    p.quantity.Some? && p.inStock == (p.quantity.value > 0)
  }

  /** A price the form accepts: present and not zero. */
  predicate PriceGiven(price: Option<int>) {
    price.Some? && price.value != 0
  }

  /** `handleAddProductSubmit`: refused without a name or a non-zero price;
      otherwise a product whose id is the clock reading `now`. The handler
      reads the clock a second time for the placeholder picture; that
      reading is `imageNow`, which may differ from `now`. */
  function SubmitNewProduct(form: ProductForm, now: int, imageNow: int): (r: Option<Product>)
    ensures r.None? <==> form.name == "" || !PriceGiven(form.price)
    ensures r.Some? ==> && r.value.id == now
                        && r.value.name == form.name
                        && r.value.price == form.price.value
                        && r.value.ratings == []
                        && r.value.images == form.images
                        && r.value.company == Some(form.company)
    ensures r.Some? ==> r.value.quantity == Some(form.quantity.GetOr(DefaultQuantity))
    ensures r.Some? ==> StockConsistent(r.value)
    ensures r.Some? ==> r.value.category != "" && (form.category != "" ==> r.value.category == form.category)
    ensures r.Some? ==> r.value.description != "" && (form.description != "" ==> r.value.description == form.description)
    ensures r.Some? ==> r.value.image != "" && (form.image != "" ==> r.value.image == form.image)
    ensures r.Some? && form.category == "" ==> r.value.category == DefaultCategory
    ensures r.Some? && form.description == "" ==> r.value.description == DefaultDescription
    ensures r.Some? && form.image == "" ==> r.value.image == PlaceholderImage(imageNow)
  {
    if form.name == "" || !PriceGiven(form.price) then None
    else
      var quantity := form.quantity.GetOr(DefaultQuantity);
      Some(Product(
        id := now,
        name := form.name,
        category := OrDefault(form.category, DefaultCategory),
        price := form.price.value,
        image := OrDefault(form.image, PlaceholderImage(imageNow)),
        description := OrDefault(form.description, DefaultDescription),
        images := form.images,
        inStock := quantity > 0,
        company := Some(form.company),
        quantity := Some(quantity),
        suitableSoil := None,
        ratings := []))
  }

  /** A form left at its defaults yields ten units in stock. */
  lemma DefaultQuantityInStock(form: ProductForm, now: int, imageNow: int)
    requires form.name != "" && PriceGiven(form.price) && form.quantity.None?
    ensures var r := SubmitNewProduct(form, now, imageNow);
      r.Some? && r.value.quantity == Some(10) && r.value.inStock
  {
  }

  /** `saveStock`: a negative entry is stored as zero, and `inStock` follows
      the stored count; nothing else about the product changes. */
  function SaveStock(p: Product, entered: int): (r: Product)
    ensures r.quantity.Some? && r.quantity.value >= 0
    ensures entered >= 0 ==> r.quantity == Some(entered)
    ensures entered < 0 ==> r.quantity == Some(0)
    ensures r.inStock <==> entered > 0
    ensures StockConsistent(r)
    ensures r.(quantity := p.quantity, inStock := p.inStock) == p
  {
    var stored := if entered < 0 then 0 else entered;
    p.(quantity := Some(stored), inStock := stored > 0)
  }

  /** Saving the same entry twice stores what saving it once stores. */
  lemma SaveStockIdempotent(p: Product, entered: int)
    ensures SaveStock(SaveStock(p, entered), entered) == SaveStock(p, entered)
  {
  }

  predicate CatalogConsistent(ps: seq<Product>) {
    forall i :: 0 <= i < |ps| ==> StockConsistent(ps[i])
  }

  /** The two operations that set stock keep every product's `inStock` in
      step with its quantity: adding a submitted product, and saving an
      edited stock value through the update handler. */
  lemma StockEditsKeepConsistency(ps: seq<Product>, form: ProductForm, now: int, imageNow: int, p: Product, entered: int)
    requires CatalogConsistent(ps)
    ensures var added := SubmitNewProduct(form, now, imageNow);
      added.Some? ==> CatalogConsistent(Prepend(added.value, ps))
    ensures CatalogConsistent(UpdateProduct(ps, SaveStock(p, entered)))
  {
    var added := SubmitNewProduct(form, now, imageNow);
    if added.Some? {
      var r := Prepend(added.value, ps);
      assert forall i :: 1 <= i < |r| ==> r[i] == ps[i - 1];
    }
  }

  /** The generic update handler stores whatever it is given, so a record
      whose `inStock` disagrees with its quantity gets into the catalog. */
  lemma UpdateMayBreakConsistency(ps: seq<Product>, p: Product)
    requires |ps| > 0 && ps[0].id == p.id && !StockConsistent(p)
    ensures !CatalogConsistent(UpdateProduct(ps, p))
  {
    assert UpdateProduct(ps, p)[0] == p;
  }

  // ---------------------------------------------------------------------
  // Ratings
  // ---------------------------------------------------------------------

  /** `handleRating`: the rating is appended, unchecked; nothing else
      about the product changes. */
  function RateProduct(p: Product, rating: int): (r: Product)
    ensures |r.ratings| == |p.ratings| + 1
    ensures r.ratings[..|p.ratings|] == p.ratings && r.ratings[|p.ratings|] == rating
    ensures r.(ratings := p.ratings) == p
  {
    p.(ratings := p.ratings + [rating])
  }

  function Sum(xs: seq<int>): int
    decreases |xs|
  {
    if |xs| == 0 then 0 else Sum(xs[..|xs| - 1]) + xs[|xs| - 1]
  }

  /** The mean rating before rounding to one decimal; an unrated product
      shows 0. */
  function AverageRating(ratings: seq<int>): (r: real)
    ensures |ratings| == 0 ==> r == 0.0
  {
    if |ratings| == 0 then 0.0 else Sum(ratings) as real / |ratings| as real
  }

  lemma {:induction false} SumBounds(xs: seq<int>, lo: int, hi: int)
    requires forall i :: 0 <= i < |xs| ==> lo <= xs[i] <= hi
    ensures lo * |xs| <= Sum(xs) <= hi * |xs|
    decreases |xs|
  {
    if |xs| > 0 {
      var init := xs[..|xs| - 1];
      assert forall i :: 0 <= i < |init| ==> lo <= init[i] <= hi by {
        forall i | 0 <= i < |init|
          ensures lo <= init[i] <= hi
        {
          assert init[i] == xs[i];
        }
      }
      SumBounds(init, lo, hi);
      assert lo * |xs| == lo * |init| + lo;
      assert hi * |xs| == hi * |init| + hi;
    }
  }

  /** The mean lies between any lower and upper bound of the ratings; in
      particular star ratings 1..5 average to a value in [1, 5]. */
  lemma AverageWithinBounds(ratings: seq<int>, lo: int, hi: int)
    requires |ratings| > 0
    requires forall i :: 0 <= i < |ratings| ==> lo <= ratings[i] <= hi
    ensures lo as real <= AverageRating(ratings) <= hi as real
  {
    SumBounds(ratings, lo, hi);
    var n := |ratings|;
    ProductAsReal(lo, n);
    ProductAsReal(hi, n);
    DivideBetween(Sum(ratings) as real, n as real, lo as real, hi as real);
  }

  lemma ProductAsReal(a: int, b: int)
    ensures (a * b) as real == a as real * b as real
  {
  }

  /** Dividing by a positive count keeps a value between the bounds it had
      as multiples of that count. */
  lemma DivideBetween(s: real, n: real, lo: real, hi: real)
    requires n > 0.0 && lo * n <= s <= hi * n
    ensures lo <= s / n <= hi
  {
    var q := s / n;
    assert (q - lo) * n == s - lo * n;
    assert (hi - q) * n == hi * n - s;
    NonNegativeFactor(q - lo, n);
    NonNegativeFactor(hi - q, n);
  }

  /** A product that is not negative, with a positive factor, has a
      non-negative other factor. */
  lemma NonNegativeFactor(x: real, n: real)
    requires n > 0.0 && x * n >= 0.0
    ensures x >= 0.0
  {
  }

  /** Rating a product with a value in the same range as its earlier
      ratings keeps the shown mean in that range. */
  lemma RatingKeepsBounds(p: Product, rating: int, lo: int, hi: int)
    requires forall i :: 0 <= i < |p.ratings| ==> lo <= p.ratings[i] <= hi
    requires lo <= rating <= hi
    ensures var r := RateProduct(p, rating);
      lo as real <= AverageRating(r.ratings) <= hi as real
  {
    var r := RateProduct(p, rating);
    assert forall i :: 0 <= i < |r.ratings| ==> lo <= r.ratings[i] <= hi by {
      forall i | 0 <= i < |r.ratings|
        ensures lo <= r.ratings[i] <= hi
      {
        if i < |p.ratings| {
          assert r.ratings[i] == r.ratings[..|p.ratings|][i] == p.ratings[i];
        }
      }
    }
    AverageWithinBounds(r.ratings, lo, hi);
  }
}
