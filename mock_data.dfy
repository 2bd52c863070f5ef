/**
 * The dashboard's sample data set and its lookup helpers: the company list,
 * the financial records built from it, and the five-year cash-flow table.
 */
module MockData {
  import opened Wrappers
  import opened Seqs
  import opened Slots
  import CF = CashFlowChart

  /** A company of the sample list; the optional address, logo and descriptions are not modelled. */
  datatype Company = Company(ticker: string, name: string, industry: string, marketCap: int, isClient: bool)

  /** The twelve sample companies, in their listed order: two clients, each followed by its competitors. */
  const Companies: seq<Company> := [
    Company("AAPL", "Apple Inc.", "Technology", 3000000000000, true),
    Company("GOOGL", "Alphabet Inc.", "Technology", 2300000000000, false),
    Company("MSFT", "Microsoft Corporation", "Technology", 3900000000000, false),
    Company("DELL", "Dell Technologies Inc.", "Technology", 86000000000, false),
    Company("HPQ", "HP Inc.", "Technology", 23000000000, false),
    Company("META", "Meta Platforms Inc.", "Technology", 800000000000, false),
    Company("TSLA", "Tesla Inc.", "Automotive", 800000000000, false),
    Company("JPM", "JPMorgan Chase & Co.", "Financial Services", 450000000000, true),
    Company("BAC", "Bank of America Corp.", "Financial Services", 300000000000, false),
    Company("WFC", "Wells Fargo & Company", "Financial Services", 200000000000, false),
    Company("GS", "Goldman Sachs Group Inc.", "Financial Services", 120000000000, false),
    Company("MS", "Morgan Stanley", "Financial Services", 150000000000, false)
  ]

  predicate IsClient(c: Company) { c.isClient }
  predicate IsCompetitor(c: Company) { !c.isClient }

  /** `getClientCompanies`: the clients of the list, and all of them. */
  function ClientCompanies(cs: seq<Company>): (r: seq<Company>)
    ensures forall i :: 0 <= i < |r| ==> r[i] in cs && r[i].isClient
    ensures forall i :: 0 <= i < |cs| && cs[i].isClient ==> cs[i] in r
  {
    Filter(cs, IsClient)
  }

  /** `getCompetitorCompanies`: the non-clients of the list, and all of them. */
  function CompetitorCompanies(cs: seq<Company>): (r: seq<Company>)
    ensures forall i :: 0 <= i < |r| ==> r[i] in cs && !r[i].isClient
    ensures forall i :: 0 <= i < |cs| && !cs[i].isClient ==> cs[i] in r
  {
    Filter(cs, IsCompetitor)
  }

  /**
   * Clients and competitors split the list: no company is in both, the
   * lengths add up, every entry lands in exactly one of them as often as it
   * occurs, and each keeps the list's order across any cut.
   */
  lemma ClientsAndCompetitorsPartition(cs: seq<Company>)
    ensures forall i, j :: 0 <= i < |ClientCompanies(cs)| && 0 <= j < |CompetitorCompanies(cs)| ==>
      ClientCompanies(cs)[i] != CompetitorCompanies(cs)[j]
    ensures |ClientCompanies(cs)| + |CompetitorCompanies(cs)| == |cs|
    ensures multiset(ClientCompanies(cs)) + multiset(CompetitorCompanies(cs)) == multiset(cs)
    ensures forall k :: 0 <= k <= |cs| ==>
      ClientCompanies(cs) == ClientCompanies(cs[..k]) + ClientCompanies(cs[k..])
      && CompetitorCompanies(cs) == CompetitorCompanies(cs[..k]) + CompetitorCompanies(cs[k..])
  {
    FilterPartition(cs, IsClient, IsCompetitor);
    forall k | 0 <= k <= |cs|
      ensures ClientCompanies(cs) == ClientCompanies(cs[..k]) + ClientCompanies(cs[k..])
      ensures CompetitorCompanies(cs) == CompetitorCompanies(cs[..k]) + CompetitorCompanies(cs[k..])
    {
      assert cs == cs[..k] + cs[k..];
      FilterAppend(cs[..k], cs[k..], IsClient);
      FilterAppend(cs[..k], cs[k..], IsCompetitor);
    }
  }

  /** Of the sample list, only AAPL (first) and JPM (eighth) are clients. */
  lemma SampleClientPositions()
    ensures forall k :: 0 <= k < |Companies| ==> (Companies[k].isClient <==> k == 0 || k == 7)
  {
  }

  /** A client of the sample list is AAPL or JPM. */
  lemma SampleClientTicker(x: Company)
    requires x in Companies && x.isClient
    ensures x.ticker == "AAPL" || x.ticker == "JPM"
  {
    SampleClientPositions();
    var k :| 0 <= k < |Companies| && Companies[k] == x;
  }

  /** `getCompanyByTicker`: the first company whose ticker equals `ticker` exactly, or none. */
  function CompanyByTicker(cs: seq<Company>, ticker: string): (r: Option<Company>)
    ensures r.None? <==> forall i :: 0 <= i < |cs| ==> cs[i].ticker != ticker
    ensures r.Some? ==> r.value.ticker == ticker
    ensures r.Some? ==> exists i :: 0 <= i < |cs| && cs[i] == r.value && (forall j :: 0 <= j < i ==> cs[j].ticker != ticker)
  {
    Find(cs, (c: Company) => c.ticker == ticker)
  }

  /** No two sample companies share a ticker: they differ in length or in one of the first two letters. */
  lemma SampleTickersDistinct()
    ensures forall i, j :: 0 <= i < j < |Companies| ==> Companies[i].ticker != Companies[j].ticker
  {
    forall i, j | 0 <= i < j < |Companies| ensures Companies[i].ticker != Companies[j].ticker {
      var a, b := Companies[i].ticker, Companies[j].ticker;
      assert |a| != |b| || a[0] != b[0] || a[1] != b[1];
    }
  }

  /** Each sample company is what its own ticker finds. */
  lemma SampleTickersFindTheirCompany(i: nat)
    requires i < |Companies|
    ensures CompanyByTicker(Companies, Companies[i].ticker) == Some(Companies[i])
  {
    SampleTickersDistinct();
    var r := CompanyByTicker(Companies, Companies[i].ticker);
    var k :| 0 <= k < |Companies| && Companies[k] == r.value;
    assert k == i;
  }

  /** A company's financial record; the per-year metrics are not modelled. */
  datatype FinancialRecord = FinancialRecord(company: Company, lastUpdated: string)

  /** The tickers `financialData` is built from, in its order. */
  const FinancialTickers: seq<string> := ["AAPL", "GOOGL", "MSFT", "DELL", "HPQ"]

  /** Every ticker `financialData` looks up is in the list, so none of its `find(...)!` yields undefined. */
  lemma FinancialTickersListed()
    ensures forall i :: 0 <= i < |FinancialTickers| ==> CompanyByTicker(Companies, FinancialTickers[i]) == Some(Companies[i])
  {
    forall i | 0 <= i < |FinancialTickers|
      ensures CompanyByTicker(Companies, FinancialTickers[i]) == Some(Companies[i])
    {
      assert FinancialTickers[i] == Companies[i].ticker;
      SampleTickersFindTheirCompany(i);
    }
  }

  /** One record of `financialData`: the company `find` returns for `ticker`, dated 2024-07-31. */
  function RecordFor(ticker: string): (r: FinancialRecord)
    requires CompanyByTicker(Companies, ticker).Some?
    ensures r.company in Companies && r.company.ticker == ticker
  {
    FinancialRecord(CompanyByTicker(Companies, ticker).value, "2024-07-31")
  }

  /** `financialData`: the record of each ticker of FinancialTickers, in that order. */
  function FinancialData(): (r: seq<FinancialRecord>)
    ensures |r| == |FinancialTickers|
    ensures forall i :: 0 <= i < |r| ==> r[i].company == Companies[i] && r[i].company.ticker == FinancialTickers[i]
  {
    FinancialTickersListed();
    seq(|FinancialTickers|, i requires 0 <= i < |FinancialTickers| => RecordFor(FinancialTickers[i]))
  }

  /** `getFinancialDataByTicker`: the first record whose company has exactly that ticker, or none. */
  function FinancialDataByTicker(data: seq<FinancialRecord>, ticker: string): (r: Option<FinancialRecord>)
    ensures r.None? <==> forall i :: 0 <= i < |data| ==> data[i].company.ticker != ticker
    ensures r.Some? ==> r.value.company.ticker == ticker
    ensures r.Some? ==> exists i :: 0 <= i < |data| && data[i] == r.value && (forall j :: 0 <= j < i ==> data[j].company.ticker != ticker)
  {
    Find(data, (d: FinancialRecord) => d.company.ticker == ticker)
  }

  /** The five tickers are distinct. */
  lemma FinancialTickersDistinct()
    ensures forall i, j :: 0 <= i < j < |FinancialTickers| ==> FinancialTickers[i] != FinancialTickers[j]
  {
    forall i, j | 0 <= i < j < |FinancialTickers| ensures FinancialTickers[i] != FinancialTickers[j] {
      var a, b := FinancialTickers[i], FinancialTickers[j];
      assert |a| != |b| || a[0] != b[0];
    }
  }

  /** Records keyed by the five tickers in order: each ticker finds its own record. */
  lemma FinancialDataFindsListedTicker(data: seq<FinancialRecord>, i: nat)
    requires |data| == |FinancialTickers| && forall j :: 0 <= j < |data| ==> data[j].company.ticker == FinancialTickers[j]
    requires i < |FinancialTickers|
    ensures FinancialDataByTicker(data, FinancialTickers[i]) == Some(data[i])
  {
    var ticker := FinancialTickers[i];
    var r := FinancialDataByTicker(data, ticker);
    assert data[i].company.ticker == ticker;
    var k :| 0 <= k < |data| && data[k] == r.value;
    FinancialTickersDistinct();
    assert FinancialTickers[k] == FinancialTickers[i];
  }

  /**
   * `getFinancialDataByTicker` over `financialData`: each of the five tickers
   * finds the record holding the company `getCompanyByTicker` gives for it.
   */
  lemma FinancialDataLookup(i: nat)
    requires i < |FinancialTickers|
    ensures FinancialDataByTicker(FinancialData(), FinancialTickers[i]).Some?
    ensures FinancialDataByTicker(FinancialData(), FinancialTickers[i]).value.company
      == CompanyByTicker(Companies, FinancialTickers[i]).value
  {
    FinancialDataFindsListedTicker(FinancialData(), i);
    assert FinancialTickers[i] == Companies[i].ticker;
    SampleTickersFindTheirCompany(i);
  }

  /** A ticker outside the five has no financial data. */
  lemma FinancialDataMissesOtherTickers(data: seq<FinancialRecord>, ticker: string)
    requires data == FinancialData() && ticker !in FinancialTickers
    ensures FinancialDataByTicker(data, ticker).None?
  {
    forall i | 0 <= i < |data| ensures data[i].company.ticker != ticker {
      assert data[i].company.ticker == FinancialTickers[i];
    }
  }

  /** `cashFlowData`: five years, 2020 to 2024, of every slot's cash flows and YoY changes (in billions and percent). */
  const CashFlowData: seq<CF.CashFlowYear> := [
    CF.CashFlowYear("2020",
      map[
        Client := CF.CashFlows(8.2, -1.8, -2.1, 18.5, 28.3),
        Competitor1 := CF.CashFlows(6.8, -1.2, -1.8, 16.2, 24.1),
        Competitor2 := CF.CashFlows(7.1, -2.3, -1.5, 15.8, 22.7),
        Competitor3 := CF.CashFlows(5.9, -1.6, -2.2, 14.1, 19.8),
        Competitor4 := CF.CashFlows(4.2, -0.9, -1.1, 12.3, 18.5),
        Competitor5 := CF.CashFlows(5.5, -1.4, -1.8, 13.7, 20.2)],
      map[
        Client := CF.CashFlows(12.5, -15.2, 8.3, 2.1, 5.7),
        Competitor1 := CF.CashFlows(9.2, -22.1, 12.7, 1.8, 3.2),
        Competitor2 := CF.CashFlows(14.8, -18.7, -5.2, 2.3, 4.1),
        Competitor3 := CF.CashFlows(8.7, -12.4, 15.3, 1.6, 2.9),
        Competitor4 := CF.CashFlows(11.3, -8.9, -2.1, 1.2, 2.7),
        Competitor5 := CF.CashFlows(16.2, -25.3, 9.8, 1.9, 3.8)]),
    CF.CashFlowYear("2021",
      map[
        Client := CF.CashFlows(9.6, -2.1, -2.8, 19.1, 30.2),
        Competitor1 := CF.CashFlows(7.8, -1.5, -2.1, 16.8, 25.3),
        Competitor2 := CF.CashFlows(8.3, -2.7, -1.8, 16.4, 24.1),
        Competitor3 := CF.CashFlows(6.8, -1.9, -2.6, 14.8, 21.5),
        Competitor4 := CF.CashFlows(4.9, -1.1, -1.3, 12.9, 19.8),
        Competitor5 := CF.CashFlows(6.4, -1.7, -2.2, 14.2, 22.1)],
      map[
        Client := CF.CashFlows(17.1, 16.7, 33.3, 3.2, 6.7),
        Competitor1 := CF.CashFlows(14.7, 25.0, 16.7, 3.7, 5.0),
        Competitor2 := CF.CashFlows(16.9, 17.4, 20.0, 3.8, 6.2),
        Competitor3 := CF.CashFlows(15.3, 18.8, 18.2, 5.0, 8.6),
        Competitor4 := CF.CashFlows(16.7, 22.2, 18.2, 4.9, 7.0),
        Competitor5 := CF.CashFlows(16.4, 21.4, 22.2, 3.6, 9.4)]),
    CF.CashFlowYear("2022",
      map[
        Client := CF.CashFlows(11.2, -2.8, -3.1, 20.3, 33.1),
        Competitor1 := CF.CashFlows(9.1, -1.8, -2.4, 17.9, 27.8),
        Competitor2 := CF.CashFlows(9.7, -3.2, -2.1, 17.2, 26.3),
        Competitor3 := CF.CashFlows(7.9, -2.2, -2.9, 15.6, 23.8),
        Competitor4 := CF.CashFlows(5.7, -1.3, -1.5, 13.7, 21.2),
        Competitor5 := CF.CashFlows(7.5, -2.1, -2.6, 15.1, 24.7)],
      map[
        Client := CF.CashFlows(16.7, 33.3, 10.7, 6.3, 9.6),
        Competitor1 := CF.CashFlows(16.7, 20.0, 14.3, 6.5, 9.9),
        Competitor2 := CF.CashFlows(16.9, 18.5, 16.7, 4.9, 9.1),
        Competitor3 := CF.CashFlows(16.2, 15.8, 11.5, 5.4, 10.7),
        Competitor4 := CF.CashFlows(16.3, 18.2, 15.4, 6.2, 7.1),
        Competitor5 := CF.CashFlows(17.2, 23.5, 18.2, 6.3, 11.8)]),
    CF.CashFlowYear("2023",
      map[
        Client := CF.CashFlows(13.1, -3.2, -3.8, 21.8, 36.2),
        Competitor1 := CF.CashFlows(10.6, -2.1, -2.8, 18.7, 30.1),
        Competitor2 := CF.CashFlows(11.3, -3.7, -2.5, 18.1, 28.7),
        Competitor3 := CF.CashFlows(9.2, -2.6, -3.4, 16.4, 25.9),
        Competitor4 := CF.CashFlows(6.6, -1.5, -1.8, 14.5, 23.1),
        Competitor5 := CF.CashFlows(8.7, -2.5, -3.1, 15.9, 26.8)],
      map[
        Client := CF.CashFlows(17.0, 14.3, 22.6, 7.4, 9.4),
        Competitor1 := CF.CashFlows(16.5, 16.7, 16.7, 4.5, 8.3),
        Competitor2 := CF.CashFlows(16.5, 15.6, 19.0, 5.2, 9.1),
        Competitor3 := CF.CashFlows(16.5, 18.2, 17.2, 5.1, 8.8),
        Competitor4 := CF.CashFlows(15.8, 15.4, 20.0, 5.8, 9.0),
        Competitor5 := CF.CashFlows(16.0, 19.0, 19.2, 5.3, 8.5)]),
    CF.CashFlowYear("2024",
      map[
        Client := CF.CashFlows(15.3, -3.8, -4.2, 23.1, 39.7),
        Competitor1 := CF.CashFlows(12.4, -2.5, -3.2, 19.8, 32.9),
        Competitor2 := CF.CashFlows(13.2, -4.1, -2.9, 19.1, 31.2),
        Competitor3 := CF.CashFlows(10.7, -3.1, -3.9, 17.2, 28.3),
        Competitor4 := CF.CashFlows(7.7, -1.8, -2.1, 15.3, 25.1),
        Competitor5 := CF.CashFlows(10.1, -2.9, -3.6, 16.7, 29.1)],
      map[
        Client := CF.CashFlows(16.8, 18.8, 10.5, 6.0, 9.7),
        Competitor1 := CF.CashFlows(17.0, 19.0, 14.3, 5.9, 9.3),
        Competitor2 := CF.CashFlows(16.8, 10.8, 16.0, 5.5, 8.7),
        Competitor3 := CF.CashFlows(16.3, 19.2, 14.7, 4.9, 9.3),
        Competitor4 := CF.CashFlows(16.7, 20.0, 16.7, 5.5, 8.7),
        Competitor5 := CF.CashFlows(16.1, 16.0, 16.1, 5.0, 8.6)])
  ]

  /** Every row of the table has all six slots and their six YoY records. */
  lemma CashFlowDataWellFormed()
    ensures |CashFlowData| == 5
    ensures CF.AllWellFormed(CashFlowData)
    ensures CF.InputYears(CashFlowData) == ["2020", "2021", "2022", "2023", "2024"]
  {
    forall i | 0 <= i < |CashFlowData| ensures CF.WellFormed(CashFlowData[i]) {
      forall s: Slot ensures s in CashFlowData[i].flows && s in CashFlowData[i].yoy {
        match s
        case Client =>
        case Competitor1 =>
        case Competitor2 =>
        case Competitor3 =>
        case Competitor4 =>
        case Competitor5 =>
      }
    }
  }
}
