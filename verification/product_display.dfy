/** What a product card and the page around it show
    (components/Products.tsx): the stock indicator, price visibility, the
    image lightbox, the recently-viewed strip and the product of the day.
    The day of the year is a parameter. */
module ProductDisplay {
  import opened Seqs
  import opened Records
  import AppState
  import ProductView

  // ---------------------------------------------------------------------
  // Stock indicator
  // ---------------------------------------------------------------------

  /** Units assumed for an in-stock product without a recorded quantity. */
  const AssumedInStockQuantity := 50
  /** Below this many units the card warns of low stock. */
  const LowStockThreshold := 10
  /** The unit count that fills the stock bar. */
  const FullBarQuantity := 20

  datatype StockLabel = Available | LowStock | SoldOut

  /** The indicator: label, the "N left" note (only for low stock) and the
      bar width in percent. */
  datatype StockView = StockView(status: StockLabel, leftNote: Option<int>, barWidth: int)

  /** The quantity the indicator works from. */
  function ShownQuantity(p: Product): int {
    if p.quantity.Some? then p.quantity.value
    else if p.inStock then AssumedInStockQuantity else 0
  }

  function StockIndicator(p: Product): (v: StockView)
    ensures var q := ShownQuantity(p);
      && (v.status == SoldOut <==> !p.inStock || q == 0)
      && (v.status == LowStock <==> p.inStock && q != 0 && q < LowStockThreshold)
      && (v.status == Available <==> p.inStock && q != 0 && q >= LowStockThreshold)
    ensures v.leftNote.Some? <==> v.status == LowStock
    ensures v.leftNote.Some? ==> v.leftNote.value == ShownQuantity(p)
    ensures v.barWidth <= 100
    ensures v.status == SoldOut ==> v.barWidth == 0
    ensures v.status != SoldOut ==>
      v.barWidth * FullBarQuantity == ShownQuantity(p) * 100 || (v.barWidth == 100 && ShownQuantity(p) >= FullBarQuantity)
  {
    var q := ShownQuantity(p);
    var isOut := !p.inStock || q == 0;
    var isLow := !isOut && q < LowStockThreshold;
    var status := if isOut then SoldOut else if isLow then LowStock else Available;
    StockView(status, if isLow then Some(q) else None, if isOut then 0 else Min(q * 5, 100))
  }

  /** For a product whose `inStock` follows a non-negative recorded count,
      the indicator reads that count directly: sold out at 0, low below 10,
      available from 10 on, and a full bar from 20 on. */
  lemma IndicatorForRecordedStock(p: Product)
    requires p.quantity.Some? && p.quantity.value >= 0 && p.inStock == (p.quantity.value > 0)
    ensures var q := p.quantity.value; var v := StockIndicator(p);
      && (v.status == SoldOut <==> q == 0)
      && (v.status == LowStock <==> 0 < q < 10)
      && (v.status == Available <==> q >= 10)
      && (q >= 20 <==> v.barWidth == 100)
      && 0 <= v.barWidth
  {
  }

  /** A product without a recorded quantity shows as available with a full
      bar when in stock and as sold out otherwise. */
  lemma IndicatorWithoutQuantity(p: Product)
    requires p.quantity.None?
    ensures var v := StockIndicator(p);
      if p.inStock then v.status == Available && v.barWidth == 100 else v.status == SoldOut && v.barWidth == 0
  {
  }

  // ---------------------------------------------------------------------
  // Price visibility
  // ---------------------------------------------------------------------

  const PesticideCategory := "Pesticides"

  /** `isPriceVisible`: the owner always sees prices; visitors do not see
      pesticide prices while those are hidden. */
  function IsPriceVisible(user: Option<User>, showPesticidePrices: bool, p: Product): (r: bool)
    ensures !r <==> user.None? && !showPesticidePrices && p.category == PesticideCategory
  {
    if user.Some? then true
    else if !showPesticidePrices && p.category == PesticideCategory then false
    else true
  }

  /** The owner's pesticide switch: for a signed-out visitor each press of it
      flips whether a pesticide's price shows, while prices of other
      categories and everything the owner sees stay put. */
  lemma PesticideToggleReveals(s: AppState.Flags, p: Product, owner: User)
    ensures var t := AppState.TogglePesticidePrices(s);
      && (p.category == PesticideCategory ==>
            IsPriceVisible(None, t.showPesticidePrices, p) != IsPriceVisible(None, s.showPesticidePrices, p))
      && (p.category != PesticideCategory ==> IsPriceVisible(None, t.showPesticidePrices, p))
      && IsPriceVisible(Some(owner), t.showPesticidePrices, p)
  {
  }

  // ---------------------------------------------------------------------
  // Lightbox
  // ---------------------------------------------------------------------

  /** The lightbox's pictures: the main image, then the gallery. */
  function AllImages(p: Product): (r: seq<string>)
    ensures |r| >= 1 && r[0] == p.image && r[1..] == p.images
  {
    [p.image] + p.images
  }

  /** The remainder of a non-negative dividend, by repeated subtraction. */
  function NatMod(a: nat, n: nat): (r: nat)
    requires n > 0
    ensures r < n
    ensures a < 2 * n ==> r == if a < n then a else a - n
    decreases a
  {
    if a < n then a else NatMod(a - n, n)
  }

  /** One more on the dividend is one more on the remainder, wrapping to 0. */
  lemma {:induction false} NatModSucc(a: nat, n: nat)
    requires n > 0
    ensures NatMod(a + 1, n) == if NatMod(a, n) == n - 1 then 0 else NatMod(a, n) + 1
    decreases a
  {
    if a + 1 >= n && a >= n {
      NatModSucc(a - n, n);
    }
  }

  /** The remainder is what is left after taking whole multiples of `n`. */
  lemma {:induction false} NatModQuotient(a: nat, n: nat) returns (q: nat)
    requires n > 0
    ensures a == q * n + NatMod(a, n)
    decreases a
  {
    if a < n {
      q := 0;
    } else {
      var q' := NatModQuotient(a - n, n);
      q := q' + 1;
      assert q * n == q' * n + n;
    }
  }

  /** JavaScript's `%` on integers: the remainder takes the sign of the
      dividend. */
  function JsRem(a: int, n: int): (r: int)
    requires n > 0
    ensures a >= 0 ==> 0 <= r < n
    ensures a < 0 ==> -n < r <= 0
  {
    if a >= 0 then NatMod(a, n) else 0 - NatMod(-a, n) as int
  }

  /** `JsRem` is the remainder of division truncated toward zero: the
      dividend is a whole multiple of `n` plus the remainder, and together
      with the sign and range above this pins the remainder down. */
  lemma JsRemQuotient(a: int, n: int) returns (q: int)
    requires n > 0
    ensures a == q * n + JsRem(a, n)
    ensures a >= 0 ==> q >= 0
    ensures a < 0 ==> q <= 0
  {
    if a >= 0 {
      var k := NatModQuotient(a, n);
      q := k;
    } else {
      var k := NatModQuotient(-a, n);
      q := -k;
      assert q * n == -(k * n);
    }
  }

  datatype Lightbox = Lightbox(productId: Option<int>, imageIndex: int)

  /** `openLightbox(productId, index = 0)`: the lightbox shows that
      product's picture at `index`; the cards pass no index, so it opens on
      the main image. */
  function OpenLightbox(productId: int, index: int): (l: Lightbox)
    ensures l.productId == Some(productId) && l.imageIndex == index
  {
    Lightbox(Some(productId), index)
  }

  function CloseLightbox(): (l: Lightbox)
    ensures l.productId.None? && l.imageIndex == 0
  {
    Lightbox(None, 0)
  }

  /** Next picture, wrapping from the last to the first. */
  function NextImage(l: Lightbox, count: int): (r: Lightbox)
    requires count > 0
    ensures r.productId == l.productId
    ensures 0 <= l.imageIndex < count ==> 0 <= r.imageIndex < count
    ensures 0 <= l.imageIndex < count - 1 ==> r.imageIndex == l.imageIndex + 1
    ensures l.imageIndex == count - 1 ==> r.imageIndex == 0
  {
    l.(imageIndex := JsRem(l.imageIndex + 1, count))
  }

  /** Previous picture, wrapping from the first to the last. */
  function PrevImage(l: Lightbox, count: int): (r: Lightbox)
    requires count > 0
    ensures r.productId == l.productId
    ensures 0 <= l.imageIndex < count ==> 0 <= r.imageIndex < count
    ensures 0 < l.imageIndex < count ==> r.imageIndex == l.imageIndex - 1
    ensures l.imageIndex == 0 ==> r.imageIndex == count - 1
  {
    l.(imageIndex := JsRem(l.imageIndex - 1 + count, count))
  }

  /** A thumbnail click moves straight to that picture. */
  function SelectImage(l: Lightbox, index: int): (r: Lightbox)
    ensures r.productId == l.productId && r.imageIndex == index
  {
    l.(imageIndex := index)
  }

  /** The picture the lightbox renders: nothing while it is closed or its
      product is gone from the catalog; otherwise the entry of the product's
      pictures at the index, absent when the index is outside them. */
  function ShownImage(ps: seq<Product>, l: Lightbox): (r: Option<string>)
    ensures r.Some? <==>
      && l.productId.Some?
      && FindById(ps, l.productId.value).Some?
      && 0 <= l.imageIndex < |AllImages(FindById(ps, l.productId.value).value)|
    ensures r.Some? ==> r.value in AllImages(FindById(ps, l.productId.value).value)
  {
    if l.productId.None? then None
    else match FindById(ps, l.productId.value)
      case None => None
      case Some(p) =>
        var images := AllImages(p);
        if 0 <= l.imageIndex < |images| then Some(images[l.imageIndex]) else None
  }

  /** A run of arrow presses: `true` for next, `false` for previous. */
  function Navigate(l: Lightbox, moves: seq<bool>, count: int): (r: Lightbox)
    requires count > 0
    ensures r.productId == l.productId
    ensures 0 <= l.imageIndex < count ==> 0 <= r.imageIndex < count
    decreases |moves|
  {
    if |moves| == 0 then l
    else Navigate(if moves[0] then NextImage(l, count) else PrevImage(l, count), moves[1..], count)
  }

  /** Opened from a card, the lightbox starts on the main image, and no run
      of arrow presses or thumbnail click ever leaves it without a picture. */
  lemma LightboxAlwaysShowsPicture(ps: seq<Product>, p: Product, moves: seq<bool>, thumb: nat)
    requires FindById(ps, p.id) == Some(p)
    ensures ShownImage(ps, OpenLightbox(p.id, 0)) == Some(p.image)
    ensures ShownImage(ps, Navigate(OpenLightbox(p.id, 0), moves, |AllImages(p)|)).Some?
    ensures thumb < |AllImages(p)| ==>
      ShownImage(ps, SelectImage(Navigate(OpenLightbox(p.id, 0), moves, |AllImages(p)|), thumb)) == Some(AllImages(p)[thumb])
  {
  }

  /** Closing shows nothing, and reopening returns to the main image
      whatever picture was showing before. */
  lemma LightboxCloseAndReopen(ps: seq<Product>, p: Product)
    requires FindById(ps, p.id) == Some(p)
    ensures ShownImage(ps, CloseLightbox()) == None
    ensures CloseLightbox().imageIndex == 0
    ensures ShownImage(ps, OpenLightbox(p.id, 0)) == Some(p.image)
  {
  }

  /** Back and forward undo each other on any index in range. */
  lemma NextPrevInverse(l: Lightbox, count: int)
    requires count > 0 && 0 <= l.imageIndex < count
    ensures PrevImage(NextImage(l, count), count) == l
    ensures NextImage(PrevImage(l, count), count) == l
  {
  }

  // ---------------------------------------------------------------------
  // Recently viewed
  // ---------------------------------------------------------------------

  const MaxRecentlyViewed := 4

  function Take<T>(xs: seq<T>, n: nat): (r: seq<T>)
    ensures |r| <= n && |r| <= |xs|
    ensures r == xs[..|r|]
    ensures |xs| <= n ==> r == xs
  {
    if |xs| <= n then xs else xs[..n]
  }

  predicate NoDuplicates<T(==)>(xs: seq<T>) {
    forall i, j :: 0 <= i < j < |xs| ==> xs[i] != xs[j]
  }

  /** `addToRecentlyViewed`: the product moves to the front, any earlier
      entry for it is dropped, and the list keeps at most four ids. */
  function ViewProduct(prev: seq<int>, id: int): (r: seq<int>)
    ensures 1 <= |r| <= MaxRecentlyViewed && r[0] == id
    ensures forall i :: 1 <= i < |r| ==> r[i] != id
    ensures r[1..] == Take(Filter(prev, x => x != id), MaxRecentlyViewed - 1)
    ensures forall x :: x in r ==> x == id || x in prev
    ensures NoDuplicates(prev) ==> NoDuplicates(r)
  {
    var others := Filter(prev, x => x != id);
    var r := Take([id] + others, MaxRecentlyViewed);
    assert r[1..] == Take(others, MaxRecentlyViewed - 1);
    assert forall i :: 1 <= i < |r| ==> r[i] == others[i - 1] && others[i - 1] in others;
    if NoDuplicates(prev) then
      SubsequenceNoDuplicates(others, prev);
      r
    else r
  }

  lemma {:induction false} SubsequenceNoDuplicates(a: seq<int>, b: seq<int>)
    requires IsSubsequence(a, b) && NoDuplicates(b)
    ensures NoDuplicates(a)
    decreases |b|
  {
    if |a| > 0 {
      if a[0] == b[0] {
        SubsequenceNoDuplicates(a[1..], b[1..]);
        SubsequenceMembers(a[1..], b[1..]);
        assert a[0] !in b[1..];
        forall i, j | 0 <= i < j < |a|
          ensures a[i] != a[j]
        {
          assert a[j] == a[1..][j - 1] && a[1..][j - 1] in a[1..];
          if i > 0 {
            assert a[i] == a[1..][i - 1];
          }
        }
      } else {
        SubsequenceNoDuplicates(a, b[1..]);
      }
    }
  }

  /** Viewing the same product again right away changes nothing. */
  lemma ViewTwiceIdempotent(prev: seq<int>, id: int)
    ensures ViewProduct(ViewProduct(prev, id), id) == ViewProduct(prev, id)
  {
    var r := ViewProduct(prev, id);
    var others := Filter(r, x => x != id);
    assert r == [id] + r[1..];
    FilterAll(r[1..], x => x != id);
    assert others == r[1..];
  }

  /** The first product with the id, if any (`products.find`). */
  function FindById(ps: seq<Product>, id: int): (r: Option<Product>)
    ensures r.None? <==> forall p :: p in ps ==> p.id != id
    ensures r.Some? ==> r.value in ps && r.value.id == id
    ensures forall k :: 0 <= k < |ps| && ps[k].id == id && (forall j :: 0 <= j < k ==> ps[j].id != id) ==>
      r == Some(ps[k])
    decreases |ps|
  {
    if |ps| == 0 then None
    else if ps[0].id == id then Some(ps[0])
    else
      var r := FindById(ps[1..], id);
      assert forall k :: 1 <= k < |ps| ==> ps[k] == ps[1..][k - 1];
      r
  }

  /** The found product of each remembered id, in order; `undefined` for an
      id no product has. */
  function LookUpAll(ids: seq<int>, ps: seq<Product>): (r: seq<Option<Product>>)
    ensures |r| == |ids|
    ensures forall i :: 0 <= i < |ids| ==> r[i] == FindById(ps, ids[i])
  {
    seq(|ids|, i requires 0 <= i < |ids| => FindById(ps, ids[i]))
  }

  /** The strip's products: each remembered id resolved in the catalog, ids
      of deleted products skipped. */
  function RecentlyViewedProducts(ids: seq<int>, ps: seq<Product>): (r: seq<Product>)
    ensures |r| <= |ids|
    ensures forall p :: p in r ==> p in ps && p.id in ids
    ensures (forall id :: id in ids ==> FindById(ps, id).Some?) ==> |r| == |ids|
    ensures (forall id :: id in ids ==> FindById(ps, id).Some?) ==>
      forall i :: 0 <= i < |ids| ==> r[i] == FindById(ps, ids[i]).value
    ensures r == Present(LookUpAll(ids, ps))
    decreases |ids|
  {
    if |ids| == 0 then []
    else
      var rest := RecentlyViewedProducts(ids[1..], ps);
      PresentLookUpCons(ids, ps);
      match FindById(ps, ids[0])
      case Some(p) => [p] + rest
      case None => rest
  }

  /** Looking up a list of ids is looking up the first, then the rest. */
  lemma PresentLookUpCons(ids: seq<int>, ps: seq<Product>)
    requires |ids| > 0
    ensures var first := FindById(ps, ids[0]);
      Present(LookUpAll(ids, ps)) == (if first.Some? then [first.value] else []) + Present(LookUpAll(ids[1..], ps))
  {
    var all := LookUpAll(ids, ps);
    assert all == [all[0]] + LookUpAll(ids[1..], ps);
    PresentCons(all[0], LookUpAll(ids[1..], ps));
  }

  /** Right after a product is opened, the strip leads with it. */
  lemma ViewedProductLeadsStrip(prev: seq<int>, ps: seq<Product>, p: Product)
    requires FindById(ps, p.id) == Some(p)
    ensures var strip := RecentlyViewedProducts(ViewProduct(prev, p.id), ps);
      |strip| >= 1 && strip[0] == p
  {
  }

  // ---------------------------------------------------------------------
  // Product of the day
  // ---------------------------------------------------------------------

  /** The featured product for day `dayOfYear`; none for an empty catalog. */
  function ProductOfTheDay(ps: seq<Product>, dayOfYear: nat): (r: Option<Product>)
    ensures r.None? <==> |ps| == 0
    ensures r.Some? ==> r.value in ps
  {
    if |ps| == 0 then None else Some(ps[NatMod(dayOfYear, |ps|)])
  }

  /** The choice cycles through the catalog in order, one product a day. */
  lemma ProductOfTheDayCycles(ps: seq<Product>, dayOfYear: nat)
    requires |ps| > 0
    ensures ProductOfTheDay(ps, dayOfYear + |ps|) == ProductOfTheDay(ps, dayOfYear)
    ensures dayOfYear < |ps| ==> ProductOfTheDay(ps, dayOfYear) == Some(ps[dayOfYear])
    ensures var i := NatMod(dayOfYear, |ps|);
      ProductOfTheDay(ps, dayOfYear + 1) == Some(if i == |ps| - 1 then ps[0] else ps[i + 1])
  {
    NatModSucc(dayOfYear, |ps|);
  }

  /** The banner shows only on an unfiltered page; any search text, even
      spaces, hides it. */
  function ShowBanner(ps: seq<Product>, dayOfYear: nat, search: string, category: string, company: string): (b: bool)
    ensures b <==> |ps| > 0 && search == "" && category == ProductView.AllOption && company == ProductView.AllOption
  {
    ProductOfTheDay(ps, dayOfYear).Some? && search == "" && category == "All" && company == "All"
  }

  /** Whenever the banner shows, the grid under it is the whole catalog and
      the featured product is among the cards listed. */
  lemma BannerOverFullCatalog(ps: seq<Product>, dayOfYear: nat, c: ProductView.Criteria)
    requires ShowBanner(ps, dayOfYear, c.search, c.category, c.company)
    ensures ProductView.FilterProducts(ps, c) == ps
    ensures ProductOfTheDay(ps, dayOfYear).value in ProductView.FilterProducts(ps, c)
  {
    ProductView.BlankSearchKeepsAll(ps, c);
  }
}
