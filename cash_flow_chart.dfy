/**
 * The cash-flow chart's view model: the rows handed to the chart for one
 * company or for the comparison of all six, the headline figures and the
 * tooltip's reading of a comparison series key.
 */
module CashFlowChart {
  import opened Wrappers
  import opened Text
  import opened Slots

  /** The five figures a slot has per year (and, in the YoY record, their changes). */
  datatype CashFlows = CashFlows(
    operating: real,
    investment: real,
    financing: real,
    freeCashFlowMargin: real,
    cashFlowToDebtRatio: real)

  /** One year of input: every slot's figures and every slot's `<slot>YoY` record. */
  datatype CashFlowYear = CashFlowYear(year: string, flows: map<Slot, CashFlows>, yoy: map<Slot, CashFlows>)

  /** The record shape the chart relies on: all six slots and all six YoY records present. */
  predicate WellFormed(row: CashFlowYear) {
    forall s: Slot :: s in row.flows && s in row.yoy
  }

  predicate AllWellFormed(data: seq<CashFlowYear>) {
    forall i :: 0 <= i < |data| ==> WellFormed(data[i])
  }

  datatype FlowType = Operating | Investment | Financing

  /** The cash-flow type toggle of the comparison view. */
  datatype TypeChoice = Only(flow: FlowType) | AllTypes

  function Amount(cf: CashFlows, t: FlowType): real {
    match t
    case Operating => cf.operating
    case Investment => cf.investment
    case Financing => cf.financing
  }

  /** One row of the single-company chart: the slot's figures and their YoY changes. */
  datatype DetailRow = DetailRow(
    year: string,
    operating: real,
    investment: real,
    financing: real,
    freeCashFlowMargin: real,
    cashFlowToDebtRatio: real,
    operatingYoY: real,
    investmentYoY: real,
    financingYoY: real,
    freeCashFlowMarginYoY: real,
    cashFlowToDebtRatioYoY: real)

  /** One row of the comparison chart: the year and one named value per series. */
  datatype ComparisonRow = ComparisonRow(year: string, series: map<string, real>)

  datatype ChartData = Detail(detail: seq<DetailRow>) | Comparison(comparison: seq<ComparisonRow>)

  function DetailRowOf(row: CashFlowYear, slot: Slot): DetailRow
    requires WellFormed(row)
  {
    var cf := row.flows[slot];
    var yoy := row.yoy[slot];
    DetailRow(row.year, cf.operating, cf.investment, cf.financing, cf.freeCashFlowMargin, cf.cashFlowToDebtRatio,
      yoy.operating, yoy.investment, yoy.financing, yoy.freeCashFlowMargin, yoy.cashFlowToDebtRatio)
  }

  /** Single-company mode: one row per year, in order, every field taken from that year's slot records. */
  function DetailRows(data: seq<CashFlowYear>, slot: Slot): (rows: seq<DetailRow>)
    requires AllWellFormed(data)
    ensures |rows| == |data|
    ensures forall i :: 0 <= i < |data| ==>
      && rows[i].year == data[i].year
      && rows[i].operating == data[i].flows[slot].operating
      && rows[i].investment == data[i].flows[slot].investment
      && rows[i].financing == data[i].flows[slot].financing
      && rows[i].freeCashFlowMargin == data[i].flows[slot].freeCashFlowMargin
      && rows[i].cashFlowToDebtRatio == data[i].flows[slot].cashFlowToDebtRatio
      && rows[i].operatingYoY == data[i].yoy[slot].operating
      && rows[i].investmentYoY == data[i].yoy[slot].investment
      && rows[i].financingYoY == data[i].yoy[slot].financing
      && rows[i].freeCashFlowMarginYoY == data[i].yoy[slot].freeCashFlowMargin
      && rows[i].cashFlowToDebtRatioYoY == data[i].yoy[slot].cashFlowToDebtRatio
    decreases |data|
  {
    if data == [] then [] else [DetailRowOf(data[0], slot)] + DetailRows(data[1..], slot)
  }

  /** The key a slot's series gets: the slot itself, or `<slot>_operating` when every type is asked for. */
  function SeriesKey(s: Slot, choice: TypeChoice): string {
    match choice
    case AllTypes => Key(s) + "_operating"
    case Only(_) => Key(s)
  }

  /** The value a slot's series gets; with every type asked for it falls back to operating. */
  function SeriesValue(row: CashFlowYear, s: Slot, choice: TypeChoice): real
    requires WellFormed(row)
  {
    match choice
    case AllTypes => row.flows[s].operating
    case Only(t) => Amount(row.flows[s], t)
  }

  lemma SeriesKeyInjective(s: Slot, t: Slot, choice: TypeChoice)
    ensures SeriesKey(s, choice) == SeriesKey(t, choice) ==> s == t
  {
    if SeriesKey(s, choice) == SeriesKey(t, choice) {
      if choice.AllTypes? {
        var a, b := Key(s) + "_operating", Key(t) + "_operating";
        assert |Key(s)| == |Key(t)|;
        assert Key(s) == a[..|Key(s)|] && Key(t) == b[..|Key(t)|];
      }
      KeyInjective(s, t);
    }
  }

  /**
   * The `reduce` over the company list: each visited slot writes its
   * series value under its series key into the accumulator.
   */
  function Accumulate(row: CashFlowYear, choice: TypeChoice, slots: seq<Slot>): (acc: map<string, real>)
    requires WellFormed(row)
    ensures acc.Keys == set s | s in slots :: SeriesKey(s, choice)
    ensures forall s :: s in slots ==> acc[SeriesKey(s, choice)] == SeriesValue(row, s, choice)
    decreases |slots|
  {
    if slots == [] then map[]
    else
      var last := slots[|slots| - 1];
      var prefix := Accumulate(row, choice, slots[..|slots| - 1]);
      AccumulateStep(row, choice, slots, prefix);
      prefix[SeriesKey(last, choice) := SeriesValue(row, last, choice)]
  }

  /** Adding the last slot's entry to the prefix's map gives the keys and values of the whole list. */
  lemma AccumulateStep(row: CashFlowYear, choice: TypeChoice, slots: seq<Slot>, prefix: map<string, real>)
    requires WellFormed(row) && slots != []
    requires prefix.Keys == set s | s in slots[..|slots| - 1] :: SeriesKey(s, choice)
    requires forall s :: s in slots[..|slots| - 1] ==> prefix[SeriesKey(s, choice)] == SeriesValue(row, s, choice)
    ensures var last := slots[|slots| - 1];
      var acc := prefix[SeriesKey(last, choice) := SeriesValue(row, last, choice)];
      && acc.Keys == (set s | s in slots :: SeriesKey(s, choice))
      && forall s :: s in slots ==> acc[SeriesKey(s, choice)] == SeriesValue(row, s, choice)
  {
    var last := slots[|slots| - 1];
    assert forall s :: s in slots ==> s in slots[..|slots| - 1] || s == last;
    assert forall s :: s in slots[..|slots| - 1] ==> s in slots;
    forall s | SeriesKey(s, choice) == SeriesKey(last, choice) ensures s == last {
      SeriesKeyInjective(s, last, choice);
    }
  }

  /** The keys a comparison row carries: one per slot and nothing else. */
  function SeriesKeys(choice: TypeChoice): set<string> {
    set s | s in AllSlots :: SeriesKey(s, choice)
  }

  /** One year of the comparison view: its year and one series value per slot, keyed by the series key. */
  function ComparisonRowOf(row: CashFlowYear, choice: TypeChoice): (r: ComparisonRow)
    requires WellFormed(row)
    ensures r.year == row.year
    ensures r.series.Keys == SeriesKeys(choice)
    ensures forall s: Slot :: SeriesKey(s, choice) in r.series
    ensures forall s: Slot :: r.series[SeriesKey(s, choice)] == SeriesValue(row, s, choice)
  {
    AllSlotsComplete();
    ComparisonRow(row.year, Accumulate(row, choice, AllSlots))
  }

  /** Comparison mode: one row per year, in order, with one series value per slot. */
  function ComparisonRows(data: seq<CashFlowYear>, choice: TypeChoice): (rows: seq<ComparisonRow>)
    requires AllWellFormed(data)
    ensures |rows| == |data|
    ensures forall i :: 0 <= i < |data| ==> rows[i] == ComparisonRowOf(data[i], choice)
  {
    seq(|data|, i requires 0 <= i < |data| => ComparisonRowOf(data[i], choice))
  }

  /**
   * `selectedData`: the rows the chart is given for the company and type
   * toggles. One company gets its own figures per year; the comparison gets,
   * per year, exactly the six series keys, each holding its slot's value.
   */
  function SelectedData(data: seq<CashFlowYear>, company: Selection, choice: TypeChoice): (r: ChartData)
    requires AllWellFormed(data)
    ensures r.Detail? <==> company.One?
    ensures company.One? ==> r == Detail(DetailRows(data, company.slot))
    ensures r.Detail? ==> |r.detail| == |data| && forall i :: 0 <= i < |data| ==>
      && r.detail[i].year == data[i].year
      && r.detail[i].operating == data[i].flows[company.slot].operating
      && r.detail[i].investment == data[i].flows[company.slot].investment
      && r.detail[i].financing == data[i].flows[company.slot].financing
    ensures r.Comparison? ==> |r.comparison| == |data| && forall i :: 0 <= i < |data| ==>
      && r.comparison[i].year == data[i].year
      && r.comparison[i].series.Keys == SeriesKeys(choice)
      && forall s: Slot :: r.comparison[i].series[SeriesKey(s, choice)] == SeriesValue(data[i], s, choice)
  {
    match company
    case One(slot) => Detail(DetailRows(data, slot))
    case All => Comparison(ComparisonRows(data, choice))
  }

  function Years(view: ChartData): seq<string> {
    match view
    case Detail(rows) => seq(|rows|, i requires 0 <= i < |rows| => rows[i].year)
    case Comparison(rows) => seq(|rows|, i requires 0 <= i < |rows| => rows[i].year)
  }

  function InputYears(data: seq<CashFlowYear>): seq<string> {
    seq(|data|, i requires 0 <= i < |data| => data[i].year)
  }

  /** Whatever the toggles, the chart gets one row per input year, in the input's order. */
  lemma SelectedDataKeepsYears(data: seq<CashFlowYear>, company: Selection, choice: TypeChoice)
    requires AllWellFormed(data)
    ensures Years(SelectedData(data, company, choice)) == InputYears(data)
  {
  }

  /**
   * With every type asked for, the comparison shows only operating cash
   * flow: each slot's value is the one the operating comparison shows,
   * under the key `<slot>_operating` instead of `<slot>`.
   */
  lemma AllTypesShowsOperating(data: seq<CashFlowYear>, i: nat, s: Slot)
    requires AllWellFormed(data) && i < |data|
    ensures SeriesKey(s, AllTypes) == Key(s) + "_operating" && SeriesKey(s, Only(Operating)) == Key(s)
    ensures ComparisonRows(data, AllTypes)[i].series[SeriesKey(s, AllTypes)]
         == ComparisonRows(data, Only(Operating))[i].series[SeriesKey(s, Only(Operating))]
         == data[i].flows[s].operating
  {
    var all := ComparisonRows(data, AllTypes);
    var op := ComparisonRows(data, Only(Operating));
    assert all[i].series[SeriesKey(s, AllTypes)] == SeriesValue(data[i], s, AllTypes);
    assert op[i].series[SeriesKey(s, Only(Operating))] == SeriesValue(data[i], s, Only(Operating));
  }

  /** The figures above the chart. */
  datatype Headline = Headline(
    operating: real,
    operatingGrowth: real,
    investmentShown: real,
    financingShown: real,
    freeCashFlowMargin: real,
    cashFlowToDebtRatio: real,
    netCashFlow: real)

  /** `Math.abs` */
  function Abs(x: real): real {
    if x < 0.0 then -x else x
  }

  /**
   * Net cash flow: the sum of the three activity flows. It exceeds operating
   * cash flow exactly when investment and financing together bring cash in,
   * and with both as outflows it is operating less their magnitudes.
   */
  function NetCashFlow(cf: CashFlows): (n: real)
    ensures n > cf.operating <==> cf.investment + cf.financing > 0.0
    ensures cf.investment <= 0.0 && cf.financing <= 0.0 ==> n == cf.operating - Abs(cf.investment) - Abs(cf.financing)
  {
    cf.operating + cf.investment + cf.financing
  }

  /** The headline figures: the last year's records of the selected slot, or of `client` in the comparison view. */
  function HeadlineOf(data: seq<CashFlowYear>, company: Selection): (h: Headline)
    requires |data| > 0 && AllWellFormed(data)
    ensures var cf := data[|data| - 1].flows[Focus(company)];
      && h.operating == cf.operating
      && h.operatingGrowth == data[|data| - 1].yoy[Focus(company)].operating
      && h.investmentShown >= 0.0 && (h.investmentShown == cf.investment || h.investmentShown == -cf.investment)
      && h.financingShown >= 0.0 && (h.financingShown == cf.financing || h.financingShown == -cf.financing)
      && h.freeCashFlowMargin == cf.freeCashFlowMargin
      && h.cashFlowToDebtRatio == cf.cashFlowToDebtRatio
      && h.netCashFlow == cf.operating + cf.investment + cf.financing
  {
    var latest := data[|data| - 1];
    var s := Focus(company);
    var cf := latest.flows[s];
    Headline(cf.operating, latest.yoy[s].operating, Abs(cf.investment), Abs(cf.financing),
      cf.freeCashFlowMargin, cf.cashFlowToDebtRatio, NetCashFlow(cf))
  }

  /**
   * For a selected company the headline is the chart's last row: its
   * operating figure and growth, its margins, and the sum of its three bars.
   */
  lemma HeadlineIsLastDetailRow(data: seq<CashFlowYear>, slot: Slot)
    requires |data| > 0 && AllWellFormed(data)
    ensures var rows := DetailRows(data, slot);
      var last := rows[|rows| - 1];
      var h := HeadlineOf(data, One(slot));
      && h.operating == last.operating
      && h.operatingGrowth == last.operatingYoY
      && h.investmentShown >= 0.0 && (h.investmentShown == last.investment || h.investmentShown == -last.investment)
      && h.financingShown >= 0.0 && (h.financingShown == last.financing || h.financingShown == -last.financing)
      && h.freeCashFlowMargin == last.freeCashFlowMargin
      && h.cashFlowToDebtRatio == last.cashFlowToDebtRatio
      && h.netCashFlow == last.operating + last.investment + last.financing
  {
  }

  /**
   * The single-company cards show the investment and financing flows as
   * magnitudes; when both are outflows, net cash flow is the operating
   * figure less the two figures shown.
   */
  lemma NetCashFlowFromShownFigures(data: seq<CashFlowYear>, company: Selection)
    requires |data| > 0 && AllWellFormed(data)
    requires var cf := data[|data| - 1].flows[Focus(company)]; cf.investment <= 0.0 && cf.financing <= 0.0
    ensures var h := HeadlineOf(data, company);
      h.netCashFlow == h.operating - h.investmentShown - h.financingShown
  {
  }

  /** The comparison view's headline is the client's. */
  lemma HeadlineAllIsClient(data: seq<CashFlowYear>)
    requires |data| > 0 && AllWellFormed(data)
    ensures HeadlineOf(data, All) == HeadlineOf(data, One(Client))
    ensures HeadlineOf(data, All).operating == data[|data| - 1].flows[Client].operating
  {
  }

  /**
   * A company card of the comparison view: the slot's last operating cash
   * flow and its growth; the client's card repeats the headline's figures.
   */
  function CompanyCard(data: seq<CashFlowYear>, s: Slot): (c: (real, real))
    requires |data| > 0 && AllWellFormed(data)
    ensures c.0 == OperatingOf(data[|data| - 1], s)
    ensures c.1 == data[|data| - 1].yoy[s].operating
    ensures s == Client ==> c.0 == HeadlineOf(data, All).operating && c.1 == HeadlineOf(data, All).operatingGrowth
  {
    var latest := data[|data| - 1];
    (latest.flows[s].operating, latest.yoy[s].operating)
  }

  /** Each card shows the value the operating comparison plots for that company in the last year. */
  lemma CompanyCardIsLastBar(data: seq<CashFlowYear>, s: Slot)
    requires |data| > 0 && AllWellFormed(data)
    ensures var rows := ComparisonRows(data, Only(Operating));
      CompanyCard(data, s).0 == rows[|rows| - 1].series[SeriesKey(s, Only(Operating))]
    ensures CompanyCard(data, s).1 == DetailRows(data, s)[|data| - 1].operatingYoY
  {
  }

  function OperatingOf(row: CashFlowYear, s: Slot): real
    requires WellFormed(row)
  {
    row.flows[s].operating
  }

  /** No company had a larger operating cash flow than the client in `row`. */
  predicate ClientLeads(row: CashFlowYear)
    requires WellFormed(row)
  {
    forall s: Slot :: OperatingOf(row, s) <= OperatingOf(row, Client)
  }

  /** How many of `slots` had a larger operating cash flow than `x` in `row`. */
  function CountAbove(row: CashFlowYear, slots: seq<Slot>, x: real): (n: nat)
    requires WellFormed(row)
    ensures n <= |slots|
    ensures n == 0 <==> forall i :: 0 <= i < |slots| ==> row.flows[slots[i]].operating <= x
    decreases |slots|
  {
    if slots == [] then 0
    else (if row.flows[slots[0]].operating > x then 1 else 0) + CountAbove(row, slots[1..], x)
  }

  /**
   * The client's place by operating cash flow in the latest year, which the
   * comparison summary's "CF Generation Rank" evidently means to show.
   */
  function OperatingRank(data: seq<CashFlowYear>): nat
    requires |data| > 0 && AllWellFormed(data)
  {
    var latest := data[|data| - 1];
    1 + CountAbove(latest, AllSlots, latest.flows[Client].operating)
  }

  /** The client ranks first exactly when no company had a larger operating cash flow in the latest year. */
  lemma OperatingRankFirstIffLeader(data: seq<CashFlowYear>)
    requires |data| > 0 && AllWellFormed(data)
    ensures OperatingRank(data) >= 1
    ensures OperatingRank(data) == 1 <==> ClientLeads(data[|data| - 1])
  {
    var latest := data[|data| - 1];
    AllSlotsComplete();
    if OperatingRank(data) == 1 {
      forall s: Slot ensures OperatingOf(latest, s) <= OperatingOf(latest, Client) {
        var k :| 0 <= k < |AllSlots| && AllSlots[k] == s;
      }
    }
    if ClientLeads(latest) {
      forall i | 0 <= i < |AllSlots| ensures latest.flows[AllSlots[i]].operating <= latest.flows[Client].operating {
        assert OperatingOf(latest, AllSlots[i]) <= OperatingOf(latest, Client);
      }
    }
  }

  /** The rank and leader labels of the comparison view, which do not look at the data. */
  function ShownRank(data: seq<CashFlowYear>): string {
    "1st"
  }

  /** A latest year in which competitor1 out-earns every other company. */
  function RivalLeads(): seq<CashFlowYear> {
    var flows := map s | s in AllSlots :: CashFlows(if s == Competitor1 then 9.0 else 1.0, 0.0, 0.0, 0.0, 0.0);
    [CashFlowYear("2024", flows, flows)]
  }

  lemma RivalLeadsWellFormed()
    ensures AllWellFormed(RivalLeads())
  {
    AllSlotsComplete();
  }

  /** On that data the comparison view still calls the client first, though its operating rank is second. */
  lemma ShownRankIgnoresLeader()
    ensures AllWellFormed(RivalLeads())
    ensures ShownRank(RivalLeads()) == "1st" && OperatingRank(RivalLeads()) == 2
  {
    RivalLeadsWellFormed();
    var row := RivalLeads()[0];
    assert row.flows[Client].operating == 1.0 && row.flows[Competitor1].operating == 9.0;
    assert forall i :: 2 <= i < |AllSlots| ==> row.flows[AllSlots[i]].operating == 1.0;
    assert CountAbove(row, AllSlots[2..], 1.0) == 0;
    assert AllSlots[1..][1..] == AllSlots[2..];
  }

  /** The default `competitorNames`. */
  function DefaultNames(s: Slot): string {
    match s
    case Client => "Our Company"
    case Competitor1 => "TechCorp Inc"
    case Competitor2 => "InnovateCo"
    case Competitor3 => "Global Solutions"
    case Competitor4 => "DataSystems Ltd"
    case Competitor5 => "NextGen Tech"
  }

  /**
   * `competitorNames[key] || key`: the slot's name, or the key itself when it
   * is no slot or the name is empty. Only the six slot keys are properties of
   * the names object here; inherited object members are not.
   */
  function CompanyName(names: Slot -> string, key: string): (n: string)
    ensures forall s: Slot :: key == Key(s) ==> n == (if names(s) != "" then names(s) else key)
    ensures (forall s: Slot :: key != Key(s)) ==> n == key
  {
    assert forall s: Slot :: SlotOfKey(Key(s)) == Some(s) by {
      forall s: Slot ensures SlotOfKey(Key(s)) == Some(s) {
        KeyRoundTrip(s);
      }
    }
    match SlotOfKey(key)
    case Some(s) => if names(s) != "" then names(s) else key
    case None => key
  }

  /** The label for a cash-flow type word; anything but operating and investment reads as financing. */
  function TypeName(t: Option<string>): (n: string)
    ensures n == "Operating" <==> t == Some("operating")
    ensures n == "Investment" <==> t == Some("investment")
    ensures n == "Financing" <==> t != Some("operating") && t != Some("investment")
  {
    if t == Some("operating") then "Operating"
    else if t == Some("investment") then "Investment"
    else "Financing"
  }

  /**
   * The comparison tooltip's series label. With every type asked for, the
   * series name is split on `_` into a company key and a type word.
   */
  function TooltipLabel(names: Slot -> string, choice: TypeChoice, name: string): (shown: string)
    ensures choice.Only? ==> shown == CompanyName(names, name)
    ensures choice.AllTypes? && '_' !in name ==> shown == CompanyName(names, name) + " - Financing"
  {
    SplitWithoutSeparator(name, '_');
    if choice.AllTypes? then
      var parts := Split(name, '_');
      var t := if |parts| > 1 then Some(parts[1]) else None;
      CompanyName(names, parts[0]) + " - " + TypeName(t)
    else CompanyName(names, name)
  }

  /** Splitting `<slot>_operating` on `_` gives back the slot's key and `operating`. */
  lemma SeriesKeySplits(s: Slot)
    ensures Split(SeriesKey(s, AllTypes), '_') == [Key(s), "operating"]
    ensures SlotOfKey(Split(SeriesKey(s, AllTypes), '_')[0]) == Some(s)
  {
    var parts := [Key(s), "operating"];
    KeyHasNoUnderscore(s);
    assert Join(parts, '_') == Key(s) + "_operating" by {
      assert Join(parts[1..], '_') == "operating";
      assert Key(s) + ['_'] + "operating" == Key(s) + "_operating";
    }
    SplitJoin(parts, '_');
    KeyRoundTrip(s);
  }

  /** Read back from its series key, every slot is labelled with its name and the operating type. */
  lemma TooltipReadsSeriesKey(names: Slot -> string, s: Slot)
    requires names(s) != ""
    ensures TooltipLabel(names, AllTypes, SeriesKey(s, AllTypes)) == names(s) + " - Operating"
  {
    SeriesKeySplits(s);
  }

  /** A name that is not a property of the names object is shown as it is. */
  lemma TooltipUnknownKey(names: Slot -> string, t: FlowType, name: string)
    requires SlotOfKey(name).None?
    ensures TooltipLabel(names, Only(t), name) == name
  {
  }

  /**
   * The bars of the comparison view carry `name={competitorNames[key]}`;
   * given that display name instead of the series key, the label names the
   * company but calls the operating figures financing.
   */
  lemma TooltipDisplayNameSaysFinancing(s: Slot)
    ensures TooltipLabel(DefaultNames, AllTypes, DefaultNames(s)) == DefaultNames(s) + " - Financing"
  {
    DefaultNameSplits(s);
    DefaultNameIsNoKey(s);
  }

  /** A display name never resolves to a slot: every key starts with a lower-case `c`, no default name does. */
  lemma DefaultNameIsNoKey(s: Slot)
    ensures SlotOfKey(DefaultNames(s)) == None
  {
    forall t: Slot ensures Key(t) != DefaultNames(s) {
      assert Key(t)[0] == 'c' && DefaultNames(s)[0] != 'c';
    }
  }

  lemma DefaultNameSplits(s: Slot)
    ensures Split(DefaultNames(s), '_') == [DefaultNames(s)]
  {
    var n := DefaultNames(s);
    assert '_' !in n by {
      match s
      case Client =>
      case Competitor1 =>
      case Competitor2 =>
      case Competitor3 =>
      case Competitor4 =>
      case Competitor5 =>
    }
    SplitWithoutSeparator(n, '_');
  }

  /**
   * The label the comparison tooltip evidently means: the company, and
   * `Operating`, the only type the all-types view plots.
   */
  function OperatingTooltipLabel(names: Slot -> string, name: string): string {
    var key := Split(name, '_')[0];
    var company := if SlotOfKey(key).Some? then CompanyName(names, key) else name;
    company + " - Operating"
  }

  /** Whether Recharts passes the series key or the bar's display name, the label is right. */
  lemma OperatingTooltipLabelCorrect(s: Slot)
    ensures OperatingTooltipLabel(DefaultNames, SeriesKey(s, AllTypes)) == DefaultNames(s) + " - Operating"
    ensures OperatingTooltipLabel(DefaultNames, DefaultNames(s)) == DefaultNames(s) + " - Operating"
  {
    SeriesKeySplits(s);
    DefaultNameSplits(s);
  }
}
