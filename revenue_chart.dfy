/**
 * The revenue chart's view model: the rows it is given for one company or
 * for all, the summary statistics and the increase/decrease label.
 */
module RevenueChart {
  import opened Wrappers
  import opened Slots

  /** One year of input: every slot's revenue and its `<slot>YoY` change. */
  datatype RevenueYear = RevenueYear(year: string, revenue: map<Slot, real>, yoy: map<Slot, real>)

  /** The record shape the chart relies on: all six slots and their YoY values present. */
  predicate WellFormed(row: RevenueYear) {
    forall s: Slot :: s in row.revenue && s in row.yoy
  }

  predicate AllWellFormed(data: seq<RevenueYear>) {
    forall i :: 0 <= i < |data| ==> WellFormed(data[i])
  }

  /** One row of the single-company chart. */
  datatype RevenuePoint = RevenuePoint(year: string, revenue: real, yoyChange: real)

  datatype ChartData = AllCompanies(rows: seq<RevenueYear>) | OneCompany(points: seq<RevenuePoint>)

  /** `data.map(yearData => ({ year, revenue: yearData[slot], yoyChange: yearData[slot + 'YoY'] }))` */
  function CompanySeries(data: seq<RevenueYear>, slot: Slot): (points: seq<RevenuePoint>)
    requires AllWellFormed(data)
    ensures |points| == |data|
    ensures forall i :: 0 <= i < |data| ==>
      && points[i].year == data[i].year
      && points[i].revenue == data[i].revenue[slot]
      && points[i].yoyChange == data[i].yoy[slot]
    decreases |data|
  {
    if data == [] then []
    else [RevenuePoint(data[0].year, data[0].revenue[slot], data[0].yoy[slot])] + CompanySeries(data[1..], slot)
  }

  /** The comparison branch's own mapping over `yearData.client` and `yearData.clientYoY`. */
  function ClientSeries(data: seq<RevenueYear>): (points: seq<RevenuePoint>)
    requires AllWellFormed(data)
    ensures |points| == |data|
    ensures forall i :: 0 <= i < |data| ==> points[i].year == data[i].year && points[i].revenue == data[i].revenue[Client]
    decreases |data|
  {
    if data == [] then []
    else [RevenuePoint(data[0].year, data[0].revenue[Client], data[0].yoy[Client])] + ClientSeries(data[1..])
  }

  /** The comparison branch builds exactly the series selecting `client` builds. */
  lemma {:induction false} ClientSeriesIsClientSelection(data: seq<RevenueYear>)
    requires AllWellFormed(data)
    ensures ClientSeries(data) == CompanySeries(data, Client)
    decreases |data|
  {
    if data != [] {
      ClientSeriesIsClientSelection(data[1..]);
    }
  }

  /** `selectedData`: the input itself for the comparison, one company's series otherwise. */
  function SelectedData(data: seq<RevenueYear>, sel: Selection): (r: ChartData)
    requires AllWellFormed(data)
    ensures sel.All? ==> r == AllCompanies(data)
    ensures sel.One? ==> r.OneCompany? && |r.points| == |data|
    ensures sel.One? ==> forall i :: 0 <= i < |data| ==>
      r.points[i] == RevenuePoint(data[i].year, data[i].revenue[sel.slot], data[i].yoy[sel.slot])
  {
    match sel
    case All => AllCompanies(data)
    case One(slot) => OneCompany(CompanySeries(data, slot))
  }

  /** The summary figures. */
  datatype Stats = Stats(
    currentRevenue: real,
    currentGrowth: real,
    totalIncrease: real,
    totalGrowthPercent: Option<real>,
    cagrFinite: bool)

  /**
   * Whether `(Math.pow(last / first, 1 / (years - 1)) - 1) * 100` is a
   * finite number: it needs two years (one year divides by zero in the
   * exponent), a non-zero first revenue, and a non-negative ratio unless the
   * exponent is the integer 1.
   */
  predicate CagrFinite(first: real, last: real, years: nat): (b: bool)
    ensures b ==> years >= 2 && first != 0.0
    ensures years == 2 ==> (b <==> first != 0.0)
    ensures years > 2 ==> (b <==> (first > 0.0 && last >= 0.0) || (first < 0.0 && last <= 0.0))
  {
    assert first != 0.0 ==> last / first * first == last;
    years >= 2 && first != 0.0 && (years == 2 || last / first >= 0.0)
  }

  /** The statistics of a series, read off its first and last rows. */
  function Summarize(points: seq<RevenuePoint>): (st: Stats)
    requires |points| > 0
    ensures st.currentRevenue == points[|points| - 1].revenue
    ensures st.currentGrowth == points[|points| - 1].yoyChange
    ensures st.totalIncrease + points[0].revenue == points[|points| - 1].revenue
    ensures st.totalGrowthPercent.Some? <==> points[0].revenue != 0.0
    ensures st.totalGrowthPercent.Some? ==> st.totalGrowthPercent.value * points[0].revenue == st.totalIncrease * 100.0
    ensures st.cagrFinite ==> |points| >= 2 && points[0].revenue != 0.0
  {
    var first := points[0];
    var last := points[|points| - 1];
    var increase := last.revenue - first.revenue;
    var percent := if first.revenue != 0.0 then Some(increase / first.revenue * 100.0) else None;
    Stats(last.revenue, last.yoyChange, increase, percent, CagrFinite(first.revenue, last.revenue, |points|))
  }

  /**
   * The statistics for the selection; the comparison view summarises the
   * client. The current figures are the focused slot's last year and the
   * increase is its last revenue less its first.
   */
  function StatsFor(data: seq<RevenueYear>, sel: Selection): (st: Stats)
    requires |data| > 0 && AllWellFormed(data)
    ensures st.currentRevenue == data[|data| - 1].revenue[Focus(sel)]
    ensures st.currentGrowth == data[|data| - 1].yoy[Focus(sel)]
    ensures st.totalIncrease == data[|data| - 1].revenue[Focus(sel)] - data[0].revenue[Focus(sel)]
  {
    ClientSeriesIsClientSelection(data);
    match sel
    case One(slot) => Summarize(CompanySeries(data, slot))
    case All => Summarize(ClientSeries(data))
  }

  /** The comparison view's statistics are those of selecting `client`. */
  lemma StatsAllIsClient(data: seq<RevenueYear>)
    requires |data| > 0 && AllWellFormed(data)
    ensures StatsFor(data, All) == StatsFor(data, One(Client))
  {
    ClientSeriesIsClientSelection(data);
  }

  /** Every statistic comes from the first and last year of the focused slot. */
  lemma StatsFromFirstAndLastYear(data: seq<RevenueYear>, sel: Selection)
    requires |data| > 0 && AllWellFormed(data)
    ensures var s := Focus(sel);
      var first := data[0].revenue[s];
      var last := data[|data| - 1].revenue[s];
      var st := StatsFor(data, sel);
      && st.currentRevenue == last
      && st.currentGrowth == data[|data| - 1].yoy[s]
      && st.totalIncrease == last - first
      && (st.totalGrowthPercent.Some? <==> first != 0.0)
      && (st.cagrFinite <==> CagrFinite(first, last, |data|))
  {
    if sel.All? {
      ClientSeriesIsClientSelection(data);
    }
  }

  /** A single year never has a finite CAGR, whatever its revenue. */
  lemma OneYearHasNoCagr(data: seq<RevenueYear>, sel: Selection)
    requires |data| == 1 && AllWellFormed(data)
    ensures !StatsFor(data, sel).cagrFinite
    ensures StatsFor(data, sel).totalIncrease == 0.0
  {
    StatsFromFirstAndLastYear(data, sel);
  }

  /** The "5-Year Increase/Decrease" card: the word follows the sign and the figure is the magnitude. */
  function IncreaseLabel(totalIncrease: real): (r: (string, real))
    ensures r.1 >= 0.0
    ensures r.0 == "Increase" <==> totalIncrease >= 0.0
    ensures r.0 == "Increase" || r.0 == "Decrease"
    ensures totalIncrease == if r.0 == "Increase" then r.1 else -r.1
  {
    (if totalIncrease >= 0.0 then "Increase" else "Decrease",
     if totalIncrease >= 0.0 then totalIncrease else -totalIncrease)
  }

  /** A company card of the comparison view: the last revenue and YoY of that slot's series. */
  function CompanyCard(data: seq<RevenueYear>, s: Slot): (c: (real, real))
    requires |data| > 0 && AllWellFormed(data)
    ensures c == (data[|data| - 1].revenue[s], data[|data| - 1].yoy[s])
  {
    var series := CompanySeries(data, s);
    (series[|series| - 1].revenue, series[|series| - 1].yoyChange)
  }

  /** The client's card agrees with the headline of the comparison view. */
  lemma CompanyCardIsLastYear(data: seq<RevenueYear>)
    requires |data| > 0 && AllWellFormed(data)
    ensures CompanyCard(data, Client) == (StatsFor(data, All).currentRevenue, StatsFor(data, All).currentGrowth)
  {
    StatsAllIsClient(data);
  }
}
