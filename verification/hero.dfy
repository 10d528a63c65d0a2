/** The home page's owner panels (components/Hero.tsx): the mandi-rate
    search, the market-rate, bullion-rate and farmer forms, and how a rate's
    trend text is coloured. The clock reading that becomes an id and the
    formatted date of today are parameters. */
module Hero {
  import opened Seqs
  import opened Strings
  import opened Records
  import opened AppState

  // ---------------------------------------------------------------------
  // Mandi search
  // ---------------------------------------------------------------------

  /** A rate is shown when its market or its crop contains the query,
      ignoring case. */
  predicate RateMatches(m: MarketRate, query: string) {
    ContainsIgnoringCase(m.market, query) || ContainsIgnoringCase(m.crop, query)
  }

  /** `filteredRates` */
  function FilteredRates(rates: seq<MarketRate>, query: string): (r: seq<MarketRate>)
    ensures forall m :: m in r <==> m in rates && RateMatches(m, query)
    ensures IsSubsequence(r, rates)
    ensures forall m :: multiset(r)[m] == if RateMatches(m, query) then multiset(rates)[m] else 0
  {
    FilterMultiplicity(rates, (m: MarketRate) => RateMatches(m, query));
    Filter(rates, (m: MarketRate) => RateMatches(m, query))
  }

  /** An empty query shows every rate, in order. */
  lemma EmptyQueryKeepsAllRates(rates: seq<MarketRate>)
    ensures FilteredRates(rates, "") == rates
  {
    forall m | m in rates
      ensures RateMatches(m, "")
    {
      ContainsIgnoringCaseNarrows(m.market, "", "");
    }
    FilterAll(rates, (m: MarketRate) => RateMatches(m, ""));
  }

  /** Typing more never brings a rate back: the longer query's result is a
      subsequence of the shorter one's. */
  lemma LongerQueryNarrowsRates(rates: seq<MarketRate>, q: string, e: string)
    ensures IsSubsequence(FilteredRates(rates, q + e), FilteredRates(rates, q))
  {
    forall m: MarketRate | RateMatches(m, q + e)
      ensures RateMatches(m, q)
    {
      ContainsIgnoringCaseNarrows(m.market, q, e);
      ContainsIgnoringCaseNarrows(m.crop, q, e);
    }
    FilterMonotone(rates, (m: MarketRate) => RateMatches(m, q + e), (m: MarketRate) => RateMatches(m, q));
  }

  // ---------------------------------------------------------------------
  // Rate forms
  // ---------------------------------------------------------------------

  const DefaultTrend := "0.0%"

  /** `Date.now().toString()`: the clock reading in decimal. */
  function Timestamp(now: nat): (r: string)
    ensures |r| >= 1 && IsDigits(r)
  {
    NatToString(now)
  }

  /** A clock-stamped id never carries the AI tag. */
  lemma TimestampNotAiTagged(now: nat)
    ensures !StartsWith(Timestamp(now), AiPrefix)
  {
    var t := Timestamp(now);
    assert '0' <= t[0] <= '9';
  }

  datatype MarketForm = MarketForm(crop: string, market: string, price: string, trend: string, date: string)

  const EmptyMarketForm := MarketForm("", "", "", "", "")

  /** `handleMarketSubmit`'s record: only with crop, market and price filled
      in; trend and date fall back to "0.0%" and today. Hand-entered rates
      are never AI-verified. */
  function SubmitMarketRate(form: MarketForm, now: nat, today: string): (r: Option<MarketRate>)
    ensures r.Some? <==> form.crop != "" && form.market != "" && form.price != ""
    ensures r.Some? ==> && r.value.id == Timestamp(now)
                        && r.value.crop == form.crop && r.value.market == form.market && r.value.price == form.price
                        && r.value.trend == OrDefault(form.trend, DefaultTrend)
                        && r.value.date == OrDefault(form.date, today)
                        && !r.value.isAiVerified
    ensures r.Some? ==> IsManual(r.value)
  {
    if form.crop != "" && form.market != "" && form.price != "" then
      TimestampNotAiTagged(now);
      Some(MarketRate(Timestamp(now), OrDefault(form.date, today), form.crop, form.market, form.price,
                      OrDefault(form.trend, DefaultTrend), false))
    else None
  }

  /** The market panel: the application's rate list and the add-rate modal. */
  datatype MarketPanel = MarketPanel(rates: seq<MarketRate>, form: MarketForm, modalOpen: bool)

  /** Submitting the modal: a complete form adds the rate in front, closes
      the modal and clears the form; an incomplete one changes nothing. */
  function HandleMarketSubmit(p: MarketPanel, now: nat, today: string): (r: MarketPanel)
    ensures SubmitMarketRate(p.form, now, today).None? ==> r == p
    ensures SubmitMarketRate(p.form, now, today).Some? ==>
      && r.rates == [SubmitMarketRate(p.form, now, today).value] + p.rates
      && r.form == EmptyMarketForm && !r.modalOpen
  {
    match SubmitMarketRate(p.form, now, today)
    case None => p
    case Some(m) => MarketPanel(Prepend(m, p.rates), EmptyMarketForm, false)
  }

  /** A rate just entered is found again by searching for its crop. */
  lemma SubmittedRateIsFound(p: MarketPanel, now: nat, today: string)
    requires SubmitMarketRate(p.form, now, today).Some?
    ensures SubmitMarketRate(p.form, now, today).value in FilteredRates(HandleMarketSubmit(p, now, today).rates, p.form.crop)
  {
    var m := SubmitMarketRate(p.form, now, today).value;
    ContainsIgnoringCaseSelf(m.crop);
    assert m in HandleMarketSubmit(p, now, today).rates;
  }

  /** A rate entered by hand survives the next AI refresh as long as the
      refresh brings fewer than fifteen rates. */
  lemma SubmittedRateSurvivesRefresh(p: MarketPanel, now: nat, today: string, incoming: seq<MarketRate>)
    requires SubmitMarketRate(p.form, now, today).Some?
    requires |incoming| < MaxMarketRates
    ensures SubmitMarketRate(p.form, now, today).value in MergeAiRates(HandleMarketSubmit(p, now, today).rates, incoming)
  {
    var m := SubmitMarketRate(p.form, now, today).value;
    var prev := HandleMarketSubmit(p, now, today).rates;
    assert prev == [m] + p.rates;
    assert prev[1..] == p.rates;
    var manual := Filter(prev, IsManual);
    assert manual == [m] + Filter(p.rates, IsManual);
    var r := MergeAiRates(prev, incoming);
    MergeShape(prev, incoming);
    assert r == incoming + manual[..|r| - |incoming|];
    assert r[|incoming|] == manual[0] == m;
  }

  datatype BullionForm = BullionForm(metal: string, price: string, trend: string, date: string)

  const EmptyBullionForm := BullionForm("", "", "", "")

  /** `handleBullionSubmit`'s record: only with metal and price filled in,
      with the same fallbacks as a market rate. */
  function SubmitBullionRate(form: BullionForm, now: nat, today: string): (r: Option<BullionRate>)
    ensures r.Some? <==> form.metal != "" && form.price != ""
    ensures r.Some? ==> && r.value.id == Timestamp(now)
                        && r.value.metal == form.metal && r.value.price == form.price
                        && r.value.trend == OrDefault(form.trend, DefaultTrend)
                        && r.value.date == OrDefault(form.date, today)
  {
    if form.metal != "" && form.price != "" then
      Some(BullionRate(Timestamp(now), OrDefault(form.date, today), form.metal, form.price, OrDefault(form.trend, DefaultTrend)))
    else None
  }

  /** The bullion modal: a complete form hands its rate on, closes the modal
      and clears the form; an incomplete one hands nothing on and changes
      nothing. */
  function HandleBullionSubmit(form: BullionForm, modalOpen: bool, now: nat, today: string): (r: (BullionForm, bool, Option<BullionRate>))
    ensures r.2 == SubmitBullionRate(form, now, today)
    ensures r.2.Some? ==> r.0 == EmptyBullionForm && !r.1
    ensures r.2.None? ==> r.0 == form && r.1 == modalOpen
  {
    match SubmitBullionRate(form, now, today)
    case None => (form, modalOpen, None)
    case Some(b) => (EmptyBullionForm, false, Some(b))
  }

  /** The bullion inputs the panel receives from the page that renders it:
      the rate list and the add handler, either of which a caller may leave
      out. */
  datatype BullionWiring = BullionWiring(rates: Option<seq<BullionRate>>, canAdd: bool)

  /** The home page renders the panel with neither the bullion list nor its
      handlers (App.tsx, both `<Hero>` call sites). */
  const AppBullionWiring := BullionWiring(None, false)

  /** The bullion card maps over the list: one entry per rate, showing its
      metal; with no list the map throws and nothing renders (`None`). */
  function RenderBullionCard(w: BullionWiring): (r: Option<seq<string>>)
    ensures r.None? <==> w.rates.None?
    ensures r.Some? ==> |r.value| == |w.rates.value|
    ensures r.Some? ==> forall i :: 0 <= i < |r.value| ==> r.value[i] == w.rates.value[i].metal
  {
    match w.rates
    case None => None
    case Some(rates) => Some(seq(|rates|, i requires 0 <= i < |rates| => rates[i].metal))
  }

  /** The submit handler as it runs with the given inputs. The last
      component says whether it threw: calling a missing add handler throws
      before the modal is closed or the form cleared, so a complete form then
      leaves both as they were and delivers nothing. */
  function HandleBullionSubmitWired(w: BullionWiring, form: BullionForm, modalOpen: bool, now: nat, today: string)
    : (r: (BullionForm, bool, Option<BullionRate>, bool))
    ensures SubmitBullionRate(form, now, today).None? ==> r == (form, modalOpen, None, false)
    ensures SubmitBullionRate(form, now, today).Some? && !w.canAdd ==> r == (form, modalOpen, None, true)
    ensures w.canAdd ==> !r.3 && (r.0, r.1, r.2) == HandleBullionSubmit(form, modalOpen, now, today)
  {
    match SubmitBullionRate(form, now, today)
    case None => (form, modalOpen, None, false)
    case Some(b) => if w.canAdd then (EmptyBullionForm, false, Some(b), false) else (form, modalOpen, None, true)
  }

  /** What the panel shows once it has rendered: the mandi rows for the
      current query, the bullion card's metals, whether the bullion "+"
      button is there (only for a signed-in owner), whether the bullion
      modal is up, and the farmer cards. */
  datatype HeroView = HeroView(rateRows: seq<MarketRate>, bullionMetals: seq<string>,
                               addBullionButton: bool, bullionModal: bool, farmers: seq<FarmerProfile>)

  /** Rendering the whole panel. The bullion card sits outside any
      condition, so when its list is missing the `map` throws during the
      render and no part of the panel appears (`None`): not the mandi rows,
      not the "+" button, not the modal, not the farmers. */
  function RenderHero(w: BullionWiring, rates: seq<MarketRate>, query: string, signedIn: bool,
                      bullionModalOpen: bool, farmers: seq<FarmerProfile>): (r: Option<HeroView>)
    ensures r.None? <==> w.rates.None?
    ensures r.Some? ==> && r.value.rateRows == FilteredRates(rates, query)
                        && |r.value.bullionMetals| == |w.rates.value|
                        && (forall i :: 0 <= i < |w.rates.value| ==> r.value.bullionMetals[i] == w.rates.value[i].metal)
                        && (r.value.addBullionButton <==> signedIn)
                        && (r.value.bullionModal <==> bullionModalOpen)
                        && r.value.farmers == farmers
  {
    match RenderBullionCard(w)
    case None => None
    case Some(metals) => Some(HeroView(FilteredRates(rates, query), metals, signedIn, bullionModalOpen, farmers))
  }

  /** As the home page wires the panel (and the app opens on the home page),
      rendering it fails whatever the rates, query, owner, modal state or
      farmers are. Since nothing above the panel catches the error, the page
      shows none of it: no mandi rows, no bullion "+" button, so the bullion
      modal can never be opened, and no farmer cards. */
  lemma BullionLostAsWired(rates: seq<MarketRate>, query: string, signedIn: bool,
                           bullionModalOpen: bool, farmers: seq<FarmerProfile>)
    ensures RenderBullionCard(AppBullionWiring).None?
    ensures RenderHero(AppBullionWiring, rates, query, signedIn, bullionModalOpen, farmers).None?
  {
  }

  /** Handed the list and the add handler, the panel renders: every rate on
      the bullion card, the mandi rows for the query, the "+" button for a
      signed-in owner, and a submit that is exactly `HandleBullionSubmit`:
      the rate goes on, the modal closes and the form clears. */
  lemma BullionWiredCorrectly(rates: seq<BullionRate>, mandi: seq<MarketRate>, query: string, signedIn: bool,
                              farmers: seq<FarmerProfile>, form: BullionForm, modalOpen: bool, now: nat, today: string)
    ensures var w := BullionWiring(Some(rates), true);
      && RenderBullionCard(w).Some? && |RenderBullionCard(w).value| == |rates|
      && HandleBullionSubmitWired(w, form, modalOpen, now, today)
         == (HandleBullionSubmit(form, modalOpen, now, today).0, HandleBullionSubmit(form, modalOpen, now, today).1,
             HandleBullionSubmit(form, modalOpen, now, today).2, false)
    ensures var v := RenderHero(BullionWiring(Some(rates), true), mandi, query, signedIn, modalOpen, farmers);
      && v.Some? && |v.value.bullionMetals| == |rates|
      && v.value.rateRows == FilteredRates(mandi, query)
      && (v.value.addBullionButton <==> signedIn)
  {
  }

  // ---------------------------------------------------------------------
  // Farmers of the year
  // ---------------------------------------------------------------------

  /** The farmer modal: the record being edited and whether it edits an
      existing farmer. The form has no id field. */
  datatype FarmerModal = FarmerModal(current: FarmerProfile, editing: bool, open: bool)

  /** The blank record the add button opens, stamped with this year. */
  function BlankFarmer(year: string): FarmerProfile {
    FarmerProfile("", "", "", "", "", year)
  }

  function OpenAddFarmer(year: string): (m: FarmerModal)
    ensures !m.editing && m.open && m.current == BlankFarmer(year)
  {
    FarmerModal(BlankFarmer(year), false, true)
  }

  function OpenEditFarmer(f: FarmerProfile): (m: FarmerModal)
    ensures m.editing && m.open && m.current == f
  {
    FarmerModal(f, true, true)
  }

  /** Typing into the modal: every field but the id can change. */
  function EditFarmerFields(m: FarmerModal, name: string, location: string, achievement: string, image: string, year: string): (r: FarmerModal)
    ensures r.current.id == m.current.id && r.editing == m.editing && r.open == m.open
    ensures r.current.name == name && r.current.location == location && r.current.achievement == achievement
    ensures r.current.image == image && r.current.year == year
  {
    m.(current := FarmerProfile(m.current.id, name, location, achievement, image, year))
  }

  function PlaceholderPortrait(now: nat): string {
    "https://picsum.photos/400/400?random=" + Timestamp(now)
  }

  /** `handleFarmerSubmit`: in edit mode the record replaces the farmer with
      its id; in add mode it goes in front with a clock-stamped id and a
      placeholder portrait when no image was given. The id and the portrait
      are stamped by two separate clock readings, `now` and `imageNow`. The
      modal closes either way. */
  function HandleFarmerSubmit(fs: seq<FarmerProfile>, m: FarmerModal, now: nat, imageNow: nat): (r: (seq<FarmerProfile>, FarmerModal))
    ensures !r.1.open && r.1.current == m.current && r.1.editing == m.editing
    ensures m.editing ==> (
      && |r.0| == |fs|
      && (forall i :: 0 <= i < |fs| ==> r.0[i].id == fs[i].id)
      && (forall i :: 0 <= i < |fs| && fs[i].id == m.current.id ==> r.0[i] == m.current)
      && (forall i :: 0 <= i < |fs| && fs[i].id != m.current.id ==> r.0[i] == fs[i]))
    ensures !m.editing ==> (
      && |r.0| == |fs| + 1 && r.0[1..] == fs
      && r.0[0].id == Timestamp(now)
      && r.0[0] == m.current.(id := r.0[0].id, image := r.0[0].image)
      && r.0[0].image != ""
      && (m.current.image != "" ==> r.0[0].image == m.current.image)
      && (m.current.image == "" ==> r.0[0].image == PlaceholderPortrait(imageNow)))
  {
    var closed := m.(open := false);
    if m.editing then
      ReplaceKeepsIds(fs, FarmerId, m.current);
      (UpdateFarmer(fs, m.current), closed)
    else
      (Prepend(m.current.(id := Timestamp(now), image := OrDefault(m.current.image, PlaceholderPortrait(imageNow))), fs), closed)
  }

  /** The add flow end to end: open the blank modal, type the fields, save.
      The new farmer leads the list with the clock id, the typed fields and
      this year's stamp replaced by the typed year; the rest of the list
      follows unchanged and the modal is closed. */
  lemma AddFlowAddsFarmer(fs: seq<FarmerProfile>, thisYear: string, name: string, location: string,
                          achievement: string, image: string, year: string, now: nat, imageNow: nat)
    ensures var m := EditFarmerFields(OpenAddFarmer(thisYear), name, location, achievement, image, year);
      var r := HandleFarmerSubmit(fs, m, now, imageNow);
      && |r.0| == |fs| + 1 && r.0[1..] == fs && !r.1.open
      && r.0[0] == FarmerProfile(Timestamp(now), name, location, achievement,
                                 if image == "" then PlaceholderPortrait(imageNow) else image, year)
  {
  }

  /** A farmer just added can be deleted again by its new id, leaving the
      list as it was, provided no earlier farmer had that id. */
  lemma AddedFarmerDeletable(fs: seq<FarmerProfile>, m: FarmerModal, now: nat, imageNow: nat)
    requires !m.editing
    requires forall i :: 0 <= i < |fs| ==> fs[i].id != Timestamp(now)
    ensures DeleteFarmer(HandleFarmerSubmit(fs, m, now, imageNow).0, Timestamp(now)) == fs
  {
    var added := m.current.(id := Timestamp(now), image := OrDefault(m.current.image, PlaceholderPortrait(imageNow)));
    RemoveAfterPrepend(added, fs, FarmerId);
  }

  /** Opening a farmer for editing, changing any fields and saving changes
      that farmer only: every id stays where it was, and the list is as long
      as before. */
  lemma EditKeepsRoster(fs: seq<FarmerProfile>, f: FarmerProfile, name: string, location: string, achievement: string, image: string, year: string, now: nat, imageNow: nat)
    ensures var m := EditFarmerFields(OpenEditFarmer(f), name, location, achievement, image, year);
      var r := HandleFarmerSubmit(fs, m, now, imageNow).0;
      && |r| == |fs|
      && (forall i :: 0 <= i < |fs| ==> r[i].id == fs[i].id)
      && (forall i :: 0 <= i < |fs| && fs[i].id != f.id ==> r[i] == fs[i])
  {
  }

  // ---------------------------------------------------------------------
  // Trend styling
  // ---------------------------------------------------------------------

  datatype Tone = Rising | Neutral | Falling

  /** The colour of a trend: green after a leading '+', blue for exactly
      "Forecast", red for anything else. */
  function TrendTone(trend: string): (t: Tone)
    ensures t == Rising <==> StartsWith(trend, "+")
    ensures t == Neutral <==> !StartsWith(trend, "+") && trend == "Forecast"
    ensures t == Falling <==> !StartsWith(trend, "+") && trend != "Forecast"
  {
    if StartsWith(trend, "+") then Rising
    else if trend == "Forecast" then Neutral
    else Falling
  }

  /** The arrow is drawn for every trend but "Forecast". */
  predicate ShowsArrow(trend: string) {
    trend != "Forecast"
  }

  /** The arrow points down after a leading '-'. */
  predicate ArrowDown(trend: string) {
    StartsWith(trend, "-")
  }

  /** Colour and arrow agree on signed trends: a '-' trend is red with the
      arrow down, a '+' trend green with the arrow up, and "Forecast" has no
      arrow. */
  lemma SignedTrendsAgree(trend: string)
    ensures ArrowDown(trend) ==> TrendTone(trend) == Falling && ShowsArrow(trend)
    ensures TrendTone(trend) == Rising ==> !ArrowDown(trend) && ShowsArrow(trend)
    ensures TrendTone(trend) == Neutral ==> !ShowsArrow(trend)
  {
    if ArrowDown(trend) {
      assert trend[0] == '-';
    }
  }

  /** An unsigned trend, such as the "0.0%" a form fills in when left
      empty, is coloured as falling while its arrow points up. */
  lemma UnsignedTrendLooksFalling()
    ensures TrendTone(DefaultTrend) == Falling && ShowsArrow(DefaultTrend) && !ArrowDown(DefaultTrend)
  {
    assert DefaultTrend[0] == '0';
  }
}
