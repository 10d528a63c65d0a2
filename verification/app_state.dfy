/** The list reducers and flags of the top-level application component
    (App.tsx): prepend-on-add, remove-by-id, replace-by-id, the merge of
    AI-verified market rates, the visitor hand-off and the two toggles.
    Persistence to local storage and the AI request itself are outside the
    model; the merge starts from an already parsed list. */
module AppState {
  import opened Seqs
  import opened Strings
  import opened Records

  // ---------------------------------------------------------------------
  // Generic reducers, each used for several record kinds
  // ---------------------------------------------------------------------

  /** `prev => [x, ...prev]`: how products, market rates, farmers and
      visitors are added. */
  function Prepend<T>(x: T, xs: seq<T>): (r: seq<T>)
    ensures |r| == |xs| + 1
    ensures r[0] == x && r[1..] == xs
  {
    [x] + xs
  }

  /** `prev => prev.filter(t => key(t) !== id)` */
  function RemoveById<T(==,!new), K(==)>(xs: seq<T>, key: T -> K, id: K): (r: seq<T>)
    ensures forall t :: t in r <==> t in xs && key(t) != id
    ensures IsSubsequence(r, xs)
    ensures (forall t :: t in xs ==> key(t) != id) ==> r == xs
    ensures forall t :: multiset(r)[t] == if key(t) != id then multiset(xs)[t] else 0
  {
    var keep := (t: T) => key(t) != id;
    FilterMultiplicity(xs, keep);
    if forall t :: t in xs ==> key(t) != id then
      FilterAll(xs, keep);
      Filter(xs, keep)
    else
      Filter(xs, keep)
  }

  /** `prev => prev.map(t => key(t) === key(y) ? y : t)` */
  function ReplaceById<T, K(==)>(xs: seq<T>, key: T -> K, y: T): (r: seq<T>)
    ensures |r| == |xs|
    ensures forall i :: 0 <= i < |xs| && key(xs[i]) != key(y) ==> r[i] == xs[i]
    ensures forall i :: 0 <= i < |xs| && key(xs[i]) == key(y) ==> r[i] == y
  {
    seq(|xs|, i requires 0 <= i < |xs| => if key(xs[i]) == key(y) then y else xs[i])
  }

  predicate HasKey<T, K(==)>(xs: seq<T>, key: T -> K, id: K) {
    exists i :: 0 <= i < |xs| && key(xs[i]) == id
  }

  /** Adding a record whose id is new and then deleting that id restores the list. */
  lemma RemoveAfterPrepend<T(!new), K>(x: T, xs: seq<T>, key: T -> K)
    requires !HasKey(xs, key, key(x))
    ensures RemoveById(Prepend(x, xs), key, key(x)) == xs
  {
    var keep := (t: T) => key(t) != key(x);
    assert forall t :: t in xs ==> keep(t);
    FilterAll(xs, keep);
    assert Prepend(x, xs)[1..] == xs;
  }

  /** Replacing keeps every record's id where it was, so the list of ids,
      and with it any uniqueness of ids, is unchanged. */
  lemma ReplaceKeepsIds<T, K>(xs: seq<T>, key: T -> K, y: T)
    ensures var r := ReplaceById(xs, key, y);
      forall i :: 0 <= i < |xs| ==> key(r[i]) == key(xs[i])
  {
  }

  /** Replacing with a record whose id is absent changes nothing; replacing
      twice with the same record is the same as replacing once. */
  lemma {:induction false} ReplaceNoOpAndIdempotent<T, K>(xs: seq<T>, key: T -> K, y: T)
    ensures !HasKey(xs, key, key(y)) ==> ReplaceById(xs, key, y) == xs
    ensures ReplaceById(ReplaceById(xs, key, y), key, y) == ReplaceById(xs, key, y)
  {
    var r := ReplaceById(xs, key, y);
    if !HasKey(xs, key, key(y)) {
      assert forall i :: 0 <= i < |xs| ==> r[i] == xs[i];
    }
    var r2 := ReplaceById(r, key, y);
    forall i | 0 <= i < |xs|
      ensures r2[i] == r[i]
    {
      if key(xs[i]) == key(y) {
        assert r[i] == y;
      }
    }
  }

  // ---------------------------------------------------------------------
  // Catalog, farmer and market-rate handlers
  // ---------------------------------------------------------------------

  function ProductId(p: Product): int { p.id }
  function FarmerId(f: FarmerProfile): string { f.id }
  function RateId(m: MarketRate): string { m.id }

  /** handleDeleteProduct: drops every product with that id, keeps the rest
      in order. Carts are held elsewhere and are not touched. */
  function DeleteProduct(ps: seq<Product>, id: int): (r: seq<Product>)
    ensures forall p :: p in r <==> p in ps && p.id != id
    ensures IsSubsequence(r, ps)
    ensures (forall p :: p in ps ==> p.id != id) ==> r == ps
    ensures forall p :: multiset(r)[p] == if p.id != id then multiset(ps)[p] else 0
  {
    RemoveById(ps, ProductId, id)
  }

  /** handleUpdateProduct: the handed record replaces each product with its
      id, whatever its `inStock` and `quantity` say. */
  function UpdateProduct(ps: seq<Product>, p: Product): (r: seq<Product>)
    ensures |r| == |ps|
    ensures forall i :: 0 <= i < |ps| ==> r[i] == (if ps[i].id == p.id then p else ps[i])
    ensures (forall q :: q in ps ==> q.id != p.id) ==> r == ps
  {
    ReplaceNoOpAndIdempotent(ps, ProductId, p);
    ReplaceById(ps, ProductId, p)
  }

  function DeleteMarketRate(rates: seq<MarketRate>, id: string): (r: seq<MarketRate>)
    ensures forall m :: m in r <==> m in rates && m.id != id
    ensures IsSubsequence(r, rates)
    ensures (forall m :: m in rates ==> m.id != id) ==> r == rates
    ensures forall m :: multiset(r)[m] == if m.id != id then multiset(rates)[m] else 0
  {
    RemoveById(rates, RateId, id)
  }

  function UpdateFarmer(fs: seq<FarmerProfile>, f: FarmerProfile): (r: seq<FarmerProfile>)
    ensures |r| == |fs|
    ensures forall i :: 0 <= i < |fs| ==> r[i] == (if fs[i].id == f.id then f else fs[i])
    ensures (forall g :: g in fs ==> g.id != f.id) ==> r == fs
  {
    ReplaceNoOpAndIdempotent(fs, FarmerId, f);
    ReplaceById(fs, FarmerId, f)
  }

  function DeleteFarmer(fs: seq<FarmerProfile>, id: string): (r: seq<FarmerProfile>)
    ensures forall f :: f in r <==> f in fs && f.id != id
    ensures IsSubsequence(r, fs)
    ensures (forall f :: f in fs ==> f.id != id) ==> r == fs
    ensures forall f :: multiset(r)[f] == if f.id != id then multiset(fs)[f] else 0
  {
    RemoveById(fs, FarmerId, id)
  }

  // ---------------------------------------------------------------------
  // AI-verified market rates
  // ---------------------------------------------------------------------

  /** The longest market-rate list the merge keeps. */
  const MaxMarketRates := 15

  const AiPrefix := "ai-"

  predicate IsAiTagged(m: MarketRate) {
    StartsWith(m.id, AiPrefix)
  }

  predicate IsManual(m: MarketRate) {
    !IsAiTagged(m)
  }

  /** One entry of the parsed `marketRates` array of the AI answer. */
  datatype ParsedRate = ParsedRate(crop: string, market: string, price: string, trend: string)

  /** Tags the parsed entries `ai-0`, `ai-1`, ... with today's date. */
  function AiRates(parsed: seq<ParsedRate>, today: string): (r: seq<MarketRate>)
    ensures |r| == |parsed|
    ensures forall i :: 0 <= i < |r| ==> IsAiTagged(r[i]) && r[i].isAiVerified && r[i].date == today
    ensures forall i :: 0 <= i < |r| ==>
      r[i].crop == parsed[i].crop && r[i].market == parsed[i].market
      && r[i].price == parsed[i].price && r[i].trend == parsed[i].trend
  {
    seq(|parsed|, i requires 0 <= i < |parsed| =>
      MarketRate(AiPrefix + IntToString(i), today, parsed[i].crop, parsed[i].market,
                 parsed[i].price, parsed[i].trend, true))
  }

  /** The tags given to the AI rates are pairwise different. */
  lemma AiRateIdsDistinct(parsed: seq<ParsedRate>, today: string)
    ensures var r := AiRates(parsed, today);
      forall i, j :: 0 <= i < j < |r| ==> r[i].id != r[j].id
  {
    var r := AiRates(parsed, today);
    forall i, j | 0 <= i < j < |r|
      ensures r[i].id != r[j].id
    {
      if r[i].id == r[j].id {
        assert IntToString(i) == r[i].id[|AiPrefix|..] == r[j].id[|AiPrefix|..] == IntToString(j);
        IntToStringInjective(i, j);
      }
    }
  }

  /** The state update after the AI answer: the new rates, then the earlier
      rates whose id is not AI-tagged, cut to the first fifteen. */
  function MergeAiRates(prev: seq<MarketRate>, incoming: seq<MarketRate>): (r: seq<MarketRate>)
    ensures |r| == Min(MaxMarketRates, |incoming| + |Filter(prev, IsManual)|)
    ensures r[..Min(MaxMarketRates, |incoming|)] == incoming[..Min(MaxMarketRates, |incoming|)]
    ensures forall m :: m in r ==> m in incoming || (m in prev && IsManual(m))
  {
    var all := incoming + Filter(prev, IsManual);
    if |all| <= MaxMarketRates then all else all[..MaxMarketRates]
  }

  /** No AI-tagged rate from before the refresh survives it unless the
      refresh itself brought the same record again. */
  lemma MergeDropsOldAiRates(prev: seq<MarketRate>, incoming: seq<MarketRate>, m: MarketRate)
    requires m in prev && IsAiTagged(m) && m !in incoming
    ensures m !in MergeAiRates(prev, incoming)
  {
  }

  /** The merged list is a prefix of the new rates followed by a prefix of
      the kept manual rates. */
  lemma MergeShape(prev: seq<MarketRate>, incoming: seq<MarketRate>)
    ensures var r := MergeAiRates(prev, incoming);
      var k := Min(MaxMarketRates, |incoming|);
      r == incoming[..k] + Filter(prev, IsManual)[..|r| - k]
  {
    var manual := Filter(prev, IsManual);
    var all := incoming + manual;
    var r := MergeAiRates(prev, incoming);
    var k := Min(MaxMarketRates, |incoming|);
    assert r == all[..|r|];
    assert all[..|r|] == incoming[..k] + manual[..|r| - k];
  }

  /** Only manual rates are manual: the merge's manual part is exactly the
      manual rates it kept. */
  lemma MergeManualPart(prev: seq<MarketRate>, incoming: seq<MarketRate>)
    requires forall m :: m in incoming ==> IsAiTagged(m)
    ensures var r := MergeAiRates(prev, incoming);
      var k := Min(MaxMarketRates, |incoming|);
      Filter(r, IsManual) == Filter(prev, IsManual)[..|r| - k]
  {
    var manual := Filter(prev, IsManual);
    var r := MergeAiRates(prev, incoming);
    var k := Min(MaxMarketRates, |incoming|);
    var kept := manual[..|r| - k];
    var head := incoming[..k];
    MergeShape(prev, incoming);
    assert r == head + kept;
    FilterAppend(head, kept, IsManual);
    assert Filter(head, IsManual) == [] by {
      forall m | m in head
        ensures !IsManual(m)
      {
        assert m in incoming;
      }
      FilterNone(head, IsManual);
    }
    assert Filter(kept, IsManual) == kept by {
      forall m | m in kept
        ensures IsManual(m)
      {
        assert m in manual;
      }
      FilterAll(kept, IsManual);
    }
  }

  /** Running the same refresh twice gives the same list as running it once. */
  lemma MergeIdempotent(prev: seq<MarketRate>, incoming: seq<MarketRate>)
    requires forall m :: m in incoming ==> IsAiTagged(m)
    ensures MergeAiRates(MergeAiRates(prev, incoming), incoming) == MergeAiRates(prev, incoming)
  {
    var r := MergeAiRates(prev, incoming);
    var k := Min(MaxMarketRates, |incoming|);
    MergeShape(prev, incoming);
    MergeManualPart(prev, incoming);
    MergeShape(r, incoming);
  }

  // ---------------------------------------------------------------------
  // Visitors and flags
  // ---------------------------------------------------------------------

  /** The parts of the application state the handlers below touch. */
  datatype Flags = Flags(
    visitors: seq<Visitor>,
    hasVisited: bool,
    showVisitorPopup: bool,
    aiEnabled: bool,
    showPesticidePrices: bool)

  /** handleVisitorSubmit: record the visitor first, remember the visit,
      close the pop-up. */
  function VisitorSubmit(s: Flags, v: Visitor): (t: Flags)
    ensures t.visitors == [v] + s.visitors
    ensures t.hasVisited && !t.showVisitorPopup
    ensures t.aiEnabled == s.aiEnabled && t.showPesticidePrices == s.showPesticidePrices
  {
    s.(visitors := Prepend(v, s.visitors), hasVisited := true, showVisitorPopup := false)
  }

  /** handleToggleAI: flips the AI flag and nothing else. */
  function ToggleAI(s: Flags): (t: Flags)
    ensures t.aiEnabled != s.aiEnabled
    ensures t.(aiEnabled := s.aiEnabled) == s
  {
    s.(aiEnabled := !s.aiEnabled)
  }

  /** handleTogglePesticidePrices: flips the price-visibility flag and nothing else. */
  function TogglePesticidePrices(s: Flags): (t: Flags)
    ensures t.showPesticidePrices != s.showPesticidePrices
    ensures t.(showPesticidePrices := s.showPesticidePrices) == s
  {
    s.(showPesticidePrices := !s.showPesticidePrices)
  }

  /** Each toggle undoes itself, and the two toggles do not interfere. */
  lemma TogglesInvolutive(s: Flags)
    ensures ToggleAI(ToggleAI(s)) == s
    ensures TogglePesticidePrices(TogglePesticidePrices(s)) == s
    ensures ToggleAI(TogglePesticidePrices(s)) == TogglePesticidePrices(ToggleAI(s))
  {
  }
}
