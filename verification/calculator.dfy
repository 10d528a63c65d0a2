/** The farm input calculator (components/Calculator.tsx): seed and
    fertiliser amounts for a field of a given size and crop, pack and bag
    counts rounded up. Sizes are exact reals; the results keep their numbers
    and only the whole-number parts are rendered as text. */
module Calculator {
  import opened Seqs
  import opened Strings

  /** `Math.ceil(x)` */
  function Ceil(x: real): (r: int)
    ensures LeastCover(r, x)
  {
    -((-x).Floor)
  }

  /** `n` is the smallest whole number of packs that covers `need`. */
  predicate LeastCover(n: int, need: real) {
    need <= n as real < need + 1.0
  }

  /** There is only one smallest cover. */
  lemma LeastCoverUnique(m: int, n: int, need: real)
    requires LeastCover(m, need) && LeastCover(n, need)
    ensures m == n
  {
  }

  /** Rounding up never decreases: a larger need takes at least as many packs. */
  lemma CeilMonotone(x: real, y: real)
    requires x <= y
    ensures Ceil(x) <= Ceil(y)
  {
  }

  /** What the calculator shows for one crop. Seed amounts in kilograms keep
      the product of size and rate. */
  datatype Estimate =
    | CottonEstimate(seedPackets: int, dapBags: int, potashBags: int)
    | SoybeanEstimate(seedLowKg: real, seedHighKg: real, dapBags: int, sulphurKg: int)
    | WheatEstimate(seedKg: real, npkBags: int, ureaBags: int)
    | GramEstimate(seedKg: real, dapBags: int)
    | Unlisted

  /** The bag count every listed crop starts with: DAP for cotton, soybean
      and gram, NPK 12:32:16 for wheat. */
  function BasalBags(e: Estimate): Option<int> {
    match e
    case CottonEstimate(_, dap, _) => Some(dap)
    case SoybeanEstimate(_, _, dap, _) => Some(dap)
    case WheatEstimate(_, npk, _) => Some(npk)
    case GramEstimate(_, dap) => Some(dap)
    case Unlisted => None
  }

  /** `calculateRequirements` for one crop and a field of `acres`. */
  function EstimateFor(crop: string, acres: real): (e: Estimate)
    ensures crop == "Cotton" ==> (
      e.CottonEstimate?
      && LeastCover(e.seedPackets, 2.0 * acres) && LeastCover(e.dapBags, acres) && LeastCover(e.potashBags, acres / 2.0))
    ensures crop == "Soybean" ==> (
      e.SoybeanEstimate?
      && e.seedLowKg == 25.0 * acres && e.seedHighKg == 30.0 * acres
      && LeastCover(e.dapBags, acres) && LeastCover(e.sulphurKg, 10.0 * acres))
    ensures crop == "Wheat" ==> (
      e.WheatEstimate?
      && e.seedKg == 40.0 * acres && LeastCover(e.npkBags, acres) && LeastCover(e.ureaBags, acres / 2.0))
    ensures crop == "Gram (Chana)" ==> (
      e.GramEstimate?
      && e.seedKg == 25.0 * acres && LeastCover(e.dapBags, acres))
    ensures e.Unlisted? <==> crop !in {"Cotton", "Soybean", "Wheat", "Gram (Chana)"}
    ensures BasalBags(e).Some? ==> LeastCover(BasalBags(e).value, acres)
  {
    if crop == "Cotton" then CottonEstimate(Ceil(acres * 2.0), Ceil(acres * 1.0), Ceil(acres * 0.5))
    else if crop == "Soybean" then SoybeanEstimate(acres * 25.0, acres * 30.0, Ceil(acres * 1.0), Ceil(acres * 10.0))
    else if crop == "Wheat" then WheatEstimate(acres * 40.0, Ceil(acres * 1.0), Ceil(acres * 0.5))
    else if crop == "Gram (Chana)" then GramEstimate(acres * 25.0, Ceil(acres * 1.0))
    else Unlisted
  }

  /** Any positive field needs at least one basal bag. */
  lemma AtLeastOneBag(crop: string, acres: real)
    requires acres > 0.0
    ensures var e := EstimateFor(crop, acres);
      BasalBags(e).Some? ==> BasalBags(e).value >= 1
  {
  }

  /** A larger field of the same crop never needs fewer packs or bags, nor
      less seed. */
  lemma EstimateMonotone(crop: string, a: real, b: real)
    requires 0.0 < a <= b
    ensures var (x, y) := (EstimateFor(crop, a), EstimateFor(crop, b));
      match (x, y)
      case (CottonEstimate(s1, d1, p1), CottonEstimate(s2, d2, p2)) => s1 <= s2 && d1 <= d2 && p1 <= p2
      case (SoybeanEstimate(l1, h1, d1, u1), SoybeanEstimate(l2, h2, d2, u2)) => l1 <= l2 && h1 <= h2 && d1 <= d2 && u1 <= u2
      case (WheatEstimate(s1, n1, u1), WheatEstimate(s2, n2, u2)) => s1 <= s2 && n1 <= n2 && u1 <= u2
      case (GramEstimate(s1, d1), GramEstimate(s2, d2)) => s1 <= s2 && d1 <= d2
      case (Unlisted, Unlisted) => true
      case _ => false
  {
    CeilMonotone(a * 2.0, b * 2.0);
    CeilMonotone(a * 1.0, b * 1.0);
    CeilMonotone(a * 0.5, b * 0.5);
    CeilMonotone(a * 10.0, b * 10.0);
  }

  /** On a whole number of acres nothing is rounded except the half-rate
      bags, which round an odd count up. */
  lemma WholeAcres(n: nat)
    requires n > 0
    ensures var a := n as real;
      && EstimateFor("Cotton", a) == CottonEstimate(2 * n, n, (n + 1) / 2)
      && EstimateFor("Soybean", a) == SoybeanEstimate(25.0 * a, 30.0 * a, n, 10 * n)
      && EstimateFor("Wheat", a).npkBags == n && EstimateFor("Wheat", a).ureaBags == (n + 1) / 2
  {
    var a := n as real;
    var half := (n + 1) / 2;
    assert n == 2 * half || n == 2 * half - 1;
    assert LeastCover(half, a / 2.0);
    LeastCoverUnique(EstimateFor("Cotton", a).potashBags, half, a / 2.0);
    LeastCoverUnique(EstimateFor("Wheat", a).ureaBags, half, a / 2.0);
    LeastCoverUnique(EstimateFor("Cotton", a).seedPackets, 2 * n, 2.0 * a);
    LeastCoverUnique(EstimateFor("Soybean", a).sulphurKg, 10 * n, 10.0 * a);
  }

  /** The fertiliser line after the basal count: the basal product, then
      the crop's second input, if any. */
  function FertilizerTail(e: Estimate): string {
    match e
    case CottonEstimate(_, _, potash) => "DAP + " + IntToString(potash) + " Bag Potash"
    case SoybeanEstimate(_, _, _, sulphur) => "DAP + " + IntToString(sulphur) + " kg Sulphur"
    case WheatEstimate(_, _, urea) => "NPK 12:32:16 + " + IntToString(urea) + " Bag Urea"
    case GramEstimate(_, _) => "DAP"
    case Unlisted => ""
  }

  /** The fertiliser line, whose counts are whole numbers; an unlisted crop
      shows an empty line. */
  function FertilizerText(e: Estimate): (t: string)
    ensures t == "" <==> e.Unlisted?
    ensures BasalBags(e).Some? ==> StartsWith(t, IntToString(BasalBags(e).value) + " Bag ")
  {
    if e.Unlisted? then ""
    else
      var head := IntToString(BasalBags(e).value) + " Bag ";
      assert (head + FertilizerTail(e))[..|head|] == head;
      head + FertilizerTail(e)
  }

  // ---------------------------------------------------------------------
  // The calculator's state
  // ---------------------------------------------------------------------

  /** `acres` is `None` while the input is empty (or not a number). */
  datatype CalcState = CalcState(acres: Option<real>, crop: string, result: Option<Estimate>)

  const InitialState := CalcState(None, "Cotton", None)

  /** The calculate button: nothing happens, not even clearing an earlier
      result, unless the size is present and positive. */
  function Calculate(st: CalcState): (r: CalcState)
    ensures st.acres.None? || st.acres.value <= 0.0 ==> r == st
    ensures st.acres.Some? && st.acres.value > 0.0 ==>
      r.acres == st.acres && r.crop == st.crop && r.result == Some(EstimateFor(st.crop, st.acres.value))
  {
    if st.acres.None? || st.acres.value <= 0.0 then st
    else st.(result := Some(EstimateFor(st.crop, st.acres.value)))
  }

  /** `reset`: clears the size and the result; the chosen crop stays. */
  function Reset(st: CalcState): (r: CalcState)
    ensures r.acres.None? && r.result.None? && r.crop == st.crop
  {
    CalcState(None, st.crop, None)
  }

  /** After a reset, calculating does nothing until a size is entered, and
      resetting again changes nothing. */
  lemma ResetThenCalculate(st: CalcState)
    ensures Calculate(Reset(st)) == Reset(st)
    ensures Reset(Reset(st)) == Reset(st)
  {
  }

  /** Calculating twice shows what calculating once shows. */
  lemma CalculateIdempotent(st: CalcState)
    ensures Calculate(Calculate(st)) == Calculate(st)
  {
  }
}
