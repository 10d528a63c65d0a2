/** The catalog's display list (components/Products.tsx, `filteredProducts`):
    search, category and company filters, then a stable sort by the chosen
    key. `localeCompare` is not modelled; the name and company orders use a
    caller-supplied collation `collate(a, b)`, read as "a sorts no later
    than b". */
module ProductView {
  import opened Seqs
  import opened Strings
  import opened Records

  /** The selector value that switches a filter off. */
  const AllOption := "All"

  /** The user's filter and sort choices. */
  datatype Criteria = Criteria(search: string, category: string, company: string, sortOption: string)

  /** The sort keys the sort selector offers; any other value sorts by name. */
  datatype SortKey = ByName | PriceLow | PriceHigh | Availability | ByCompany

  function ParseSortKey(option: string): (k: SortKey)
    ensures k == PriceLow <==> option == "price-low"
    ensures k == PriceHigh <==> option == "price-high"
    ensures k == Availability <==> option == "availability"
    ensures k == ByCompany <==> option == "company"
  {
    if option == "price-low" then PriceLow
    else if option == "price-high" then PriceHigh
    else if option == "availability" then Availability
    else if option == "company" then ByCompany
    else ByName
  }

  /** The search test for an already lower-cased query. */
  predicate MatchesQuery(p: Product, query: string) {
    || Contains(ToLower(p.name), query)
    || Contains(ToLower(p.description), query)
    || (p.company.Some? && p.company.value != "" && Contains(ToLower(p.company.value), query))
    || IntToString(p.id) == query
  }

  /** Whether the search box filters at all: only when its trimmed text is
      non-empty. The untrimmed text is what is then matched. */
  predicate SearchActive(c: Criteria) {
    Trim(c.search) != ""
  }

  /** All active criteria hold of `p`. */
  predicate Matches(c: Criteria, p: Product) {
    && (SearchActive(c) ==> MatchesQuery(p, ToLower(c.search)))
    && (c.category != AllOption ==> p.category == c.category)
    && (c.company != AllOption ==> p.company == Some(c.company))
  }

  function MatchFn(c: Criteria): Product -> bool {
    p => Matches(c, p)
  }

  function SearchStep(ps: seq<Product>, c: Criteria): seq<Product> {
    if SearchActive(c) then Filter(ps, (p: Product) => MatchesQuery(p, ToLower(c.search))) else ps
  }

  function CategoryStep(ps: seq<Product>, c: Criteria): seq<Product> {
    if c.category != AllOption then Filter(ps, (p: Product) => p.category == c.category) else ps
  }

  function CompanyStep(ps: seq<Product>, c: Criteria): seq<Product> {
    if c.company != AllOption then Filter(ps, (p: Product) => p.company == Some(c.company)) else ps
  }

  /** Search, then category, then company, each a filter that keeps order. */
  function FilterProducts(ps: seq<Product>, c: Criteria): (r: seq<Product>)
    ensures r == Filter(ps, MatchFn(c))
    ensures forall p :: p in r <==> p in ps && Matches(c, p)
  {
    var s := SearchStep(ps, c);
    var t := CategoryStep(s, c);
    var r := CompanyStep(t, c);
    FilterStepsCompose(ps, c);
    r
  }

  /** The three sequential filters keep exactly what one filter by the
      conjunction of the active criteria keeps. */
  lemma FilterStepsCompose(ps: seq<Product>, c: Criteria)
    ensures CompanyStep(CategoryStep(SearchStep(ps, c), c), c) == Filter(ps, MatchFn(c))
  {
    var q := ToLower(c.search);
    var fs := (p: Product) => !SearchActive(c) || MatchesQuery(p, q);
    var fc := (p: Product) => c.category == AllOption || p.category == c.category;
    var fm := (p: Product) => c.company == AllOption || p.company == Some(c.company);
    var fsc := (p: Product) => fs(p) && fc(p);
    // Each step, switched on or off, is a filter by its own predicate.
    assert SearchStep(ps, c) == Filter(ps, fs) by {
      if SearchActive(c) {
        FilterExt(ps, (p: Product) => MatchesQuery(p, ToLower(c.search)), fs);
      } else {
        FilterAll(ps, fs);
      }
    }
    var s := Filter(ps, fs);
    assert CategoryStep(s, c) == Filter(s, fc) by {
      if c.category != AllOption {
        FilterExt(s, (p: Product) => p.category == c.category, fc);
      } else {
        FilterAll(s, fc);
      }
    }
    var t := Filter(s, fc);
    assert CompanyStep(t, c) == Filter(t, fm) by {
      if c.company != AllOption {
        FilterExt(t, (p: Product) => p.company == Some(c.company), fm);
      } else {
        FilterAll(t, fm);
      }
    }
    FilterFilter(ps, fs, fc, fsc);
    FilterFilter(ps, fsc, fm, MatchFn(c));
  }

  /** A search made only of spaces, with both selectors on 'All', shows the
      whole catalog (before sorting). */
  lemma BlankSearchKeepsAll(ps: seq<Product>, c: Criteria)
    requires IsBlank(c.search) && c.category == AllOption && c.company == AllOption
    ensures FilterProducts(ps, c) == ps
  {
    TrimEmptyIffBlank(c.search);
    FilterAll(ps, MatchFn(c));
  }

  /** Typing a product's id (as the QR scan does) finds it when the other
      criteria allow it. */
  lemma SearchById(ps: seq<Product>, c: Criteria, p: Product)
    requires p in ps && c.search == IntToString(p.id)
    requires c.category == AllOption && c.company == AllOption
    ensures p in FilterProducts(ps, c)
  {
    var s := c.search;
    assert forall i :: 0 <= i < |s| ==> '0' <= s[i] <= '9' || s[i] == '-';
    assert ToLower(s) == s;
  }

  // ---------------------------------------------------------------------
  // Sorting
  // ---------------------------------------------------------------------

  predicate PriceAtMost(a: Product, b: Product) { a.price <= b.price }
  predicate PriceAtLeast(a: Product, b: Product) { a.price >= b.price }
  /** The availability comparator returns a non-positive value exactly
      when `a` is in stock or `b` is not. */
  predicate InStockFirst(a: Product, b: Product) { a.inStock || !b.inStock }
  predicate IsInStock(p: Product) { p.inStock }
  predicate IsOutOfStock(p: Product) { !p.inStock }

  /** `p.company || ''` */
  function CompanyOrEmpty(p: Product): string {
    if p.company.Some? then p.company.value else ""
  }

  /** "`cmp(a, b) <= 0`" for the comparator of each sort key. */
  function Precedes(key: SortKey, collate: (string, string) -> bool): (Product, Product) -> bool {
    match key
    case PriceLow => PriceAtMost
    case PriceHigh => PriceAtLeast
    case Availability => InStockFirst
    case ByCompany => (a: Product, b: Product) => collate(CompanyOrEmpty(a), CompanyOrEmpty(b))
    case ByName => (a: Product, b: Product) => collate(a.name, b.name)
  }

  /** The list the catalog grid renders. */
  function DisplayList(ps: seq<Product>, c: Criteria, collate: (string, string) -> bool): (r: seq<Product>)
    ensures multiset(r) == multiset(FilterProducts(ps, c))
    ensures forall p :: p in r <==> p in ps && Matches(c, p)
  {
    var r := Sort(FilterProducts(ps, c), Precedes(ParseSortKey(c.sortOption), collate));
    assert forall p :: p in r <==> p in multiset(r);
    r
  }

  /** 'price-low' lists prices in non-decreasing order. */
  lemma PriceLowSorted(ps: seq<Product>, c: Criteria, collate: (string, string) -> bool)
    requires c.sortOption == "price-low"
    ensures var r := DisplayList(ps, c, collate);
      forall i, j :: 0 <= i < j < |r| ==> r[i].price <= r[j].price
  {
    var r := DisplayList(ps, c, collate);
    SortAdjacentSorted(FilterProducts(ps, c), PriceAtMost);
    AdjacentSortedIsSorted(r, PriceAtMost);
  }

  /** 'price-high' lists prices in non-increasing order. */
  lemma PriceHighSorted(ps: seq<Product>, c: Criteria, collate: (string, string) -> bool)
    requires c.sortOption == "price-high"
    ensures var r := DisplayList(ps, c, collate);
      forall i, j :: 0 <= i < j < |r| ==> r[i].price >= r[j].price
  {
    var r := DisplayList(ps, c, collate);
    SortAdjacentSorted(FilterProducts(ps, c), PriceAtLeast);
    AdjacentSortedIsSorted(r, PriceAtLeast);
  }

  /** 'availability' lists the in-stock matches and then the out-of-stock
      ones, each group in catalog order (the sort is stable). */
  lemma AvailabilityPartition(ps: seq<Product>, c: Criteria, collate: (string, string) -> bool)
    requires c.sortOption == "availability"
    ensures var f := FilterProducts(ps, c);
      DisplayList(ps, c, collate) == Filter(f, IsInStock) + Filter(f, IsOutOfStock)
    ensures var r := DisplayList(ps, c, collate);
      forall i, j :: 0 <= i < j < |r| && r[j].inStock ==> r[i].inStock
  {
    var f := FilterProducts(ps, c);
    SortPartition(f, InStockFirst, IsInStock, IsOutOfStock);
    InStockBlockFirst(Filter(f, IsInStock), Filter(f, IsOutOfStock));
  }

  lemma InStockBlockFirst(a: seq<Product>, b: seq<Product>)
    requires forall p :: p in a ==> p.inStock
    requires forall p :: p in b ==> !p.inStock
    ensures var r := a + b;
      forall i, j :: 0 <= i < j < |r| && r[j].inStock ==> r[i].inStock
  {
    var r := a + b;
    assert forall i :: 0 <= i < |a| ==> r[i] == a[i] && a[i] in a;
    assert forall j :: |a| <= j < |r| ==> r[j] == b[j - |a|] && b[j - |a|] in b;
  }

  /** With a collation that orders every pair, the name sort (also the
      fallback for an unknown key) leaves neighbouring names in order, and
      all pairs when the collation is transitive too. */
  lemma NameSorted(ps: seq<Product>, c: Criteria, collate: (string, string) -> bool)
    requires ParseSortKey(c.sortOption) == ByName
    requires forall a, b :: collate(a, b) || collate(b, a)
    ensures var r := DisplayList(ps, c, collate);
      forall i :: 0 < i < |r| ==> collate(r[i - 1].name, r[i].name)
    ensures (forall a, b, d :: collate(a, b) && collate(b, d) ==> collate(a, d)) ==>
      var r := DisplayList(ps, c, collate);
      forall i, j :: 0 <= i < j < |r| ==> collate(r[i].name, r[j].name)
  {
    var le := Precedes(ByName, collate);
    assert forall a, b :: le(a, b) == collate(a.name, b.name);
    var r := DisplayList(ps, c, collate);
    SortAdjacentSorted(FilterProducts(ps, c), le);
    if forall a, b, d :: collate(a, b) && collate(b, d) ==> collate(a, d) {
      AdjacentSortedIsSorted(r, le);
    }
  }

  /** The company sort orders by company, a missing company counting as ''. */
  lemma CompanySorted(ps: seq<Product>, c: Criteria, collate: (string, string) -> bool)
    requires c.sortOption == "company"
    requires forall a, b :: collate(a, b) || collate(b, a)
    ensures var r := DisplayList(ps, c, collate);
      forall i :: 0 < i < |r| ==> collate(CompanyOrEmpty(r[i - 1]), CompanyOrEmpty(r[i]))
  {
    var le := Precedes(ByCompany, collate);
    assert forall a, b :: le(a, b) == collate(CompanyOrEmpty(a), CompanyOrEmpty(b));
    SortAdjacentSorted(FilterProducts(ps, c), le);
  }
}
