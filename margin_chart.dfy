/** The margin chart's figures: the latest year and the spread of gross and net margins. */
module MarginChart {
  import opened Text

  /** One year of margins and their YoY changes. */
  datatype MarginYear = MarginYear(
    year: string,
    grossMargin: real,
    operatingMargin: real,
    netMargin: real,
    ebitdaMargin: real,
    grossYoY: real,
    operatingYoY: real,
    netYoY: real,
    ebitdaYoY: real)

  /** `Math.max(...s)` over a non-empty list: an upper bound that is one of the values. */
  function Max(s: seq<real>): (m: real)
    requires |s| > 0
    ensures forall i :: 0 <= i < |s| ==> s[i] <= m
    ensures exists i :: 0 <= i < |s| && s[i] == m
    decreases |s|
  {
    if |s| == 1 then s[0]
    else
      var rest := Max(s[1..]);
      assert forall i :: 1 <= i < |s| ==> s[i] == s[1..][i - 1];
      if s[0] >= rest then s[0] else rest
  }

  /** `Math.min(...s)` over a non-empty list: a lower bound that is one of the values. */
  function Min(s: seq<real>): (m: real)
    requires |s| > 0
    ensures forall i :: 0 <= i < |s| ==> m <= s[i]
    ensures exists i :: 0 <= i < |s| && s[i] == m
    decreases |s|
  {
    if |s| == 1 then s[0]
    else
      var rest := Min(s[1..]);
      assert forall i :: 1 <= i < |s| ==> s[i] == s[1..][i - 1];
      if s[0] <= rest then s[0] else rest
  }

  /** The spread of a list of values. */
  function Range(s: seq<real>): (r: real)
    requires |s| > 0
    ensures r >= 0.0
    ensures forall i, j :: 0 <= i < |s| && 0 <= j < |s| ==> s[i] - s[j] <= r
  {
    Max(s) - Min(s)
  }

  /** The spread is zero exactly when every value is the same. */
  lemma RangeZeroIffConstant(s: seq<real>)
    requires |s| > 0
    ensures Range(s) == 0.0 <==> forall i, j :: 0 <= i < |s| && 0 <= j < |s| ==> s[i] == s[j]
  {
    if forall i, j :: 0 <= i < |s| && 0 <= j < |s| ==> s[i] == s[j] {
      var k :| 0 <= k < |s| && s[k] == Max(s);
      var l :| 0 <= l < |s| && s[l] == Min(s);
      assert s[k] == s[l];
    }
  }

  /** `data.map(d => d.grossMargin)` */
  function GrossMargins(data: seq<MarginYear>): (s: seq<real>)
    ensures |s| == |data|
    ensures forall i :: 0 <= i < |data| ==> s[i] == data[i].grossMargin
    decreases |data|
  {
    if data == [] then [] else [data[0].grossMargin] + GrossMargins(data[1..])
  }

  /** `data.map(d => d.netMargin)` */
  function NetMargins(data: seq<MarginYear>): (s: seq<real>)
    ensures |s| == |data|
    ensures forall i :: 0 <= i < |data| ==> s[i] == data[i].netMargin
    decreases |data|
  {
    if data == [] then [] else [data[0].netMargin] + NetMargins(data[1..])
  }

  datatype MarginSummary = MarginSummary(currentYear: MarginYear, grossRange: real, netRange: real)

  /** `currentYear`, `grossRange` and `netRange`; the chart dereferences the last year, so it needs one. */
  function Summary(data: seq<MarginYear>): (m: MarginSummary)
    requires |data| > 0
    ensures m.currentYear == data[|data| - 1]
    ensures m.grossRange >= 0.0 && m.netRange >= 0.0
    ensures forall i, j :: 0 <= i < |data| && 0 <= j < |data| ==>
      data[i].grossMargin - data[j].grossMargin <= m.grossRange
      && data[i].netMargin - data[j].netMargin <= m.netRange
  {
    MarginSummary(data[|data| - 1], Range(GrossMargins(data)), Range(NetMargins(data)))
  }

  /** Each range is the difference of two of the rows: the largest and the smallest margin. */
  lemma SummaryRangesAttained(data: seq<MarginYear>)
    requires |data| > 0
    ensures exists i, j :: 0 <= i < |data| && 0 <= j < |data| && data[i].grossMargin - data[j].grossMargin == Summary(data).grossRange
    ensures exists i, j :: 0 <= i < |data| && 0 <= j < |data| && data[i].netMargin - data[j].netMargin == Summary(data).netRange
  {
    var gross := GrossMargins(data);
    var net := NetMargins(data);
    var gi :| 0 <= gi < |gross| && gross[gi] == Max(gross);
    var gj :| 0 <= gj < |gross| && gross[gj] == Min(gross);
    var ni :| 0 <= ni < |net| && net[ni] == Max(net);
    var nj :| 0 <= nj < |net| && net[nj] == Min(net);
    assert data[gi].grossMargin - data[gj].grossMargin == Summary(data).grossRange;
    assert data[ni].netMargin - data[nj].netMargin == Summary(data).netRange;
  }

  /** One year of data, or margins that never move, give a spread of zero. */
  lemma FlatMarginsHaveNoRange(data: seq<MarginYear>)
    requires |data| > 0
    requires forall i :: 0 <= i < |data| ==> data[i].grossMargin == data[0].grossMargin && data[i].netMargin == data[0].netMargin
    ensures Summary(data).grossRange == 0.0 && Summary(data).netRange == 0.0
  {
    RangeZeroIffConstant(GrossMargins(data));
    RangeZeroIffConstant(NetMargins(data));
  }

  /** The signs in front of the four latest-year YoY cards as written: a literal `+`, then the number's own sign. */
  function CardSignsAsWritten(m: MarginYear): (signs: seq<string>)
    ensures |signs| == 4
    ensures forall k :: 0 <= k < 4 ==> |signs[k]| >= 1 && signs[k][0] == '+'
    ensures signs[0] == "+-" <==> m.grossYoY < 0.0
    ensures signs[1] == "+-" <==> m.operatingYoY < 0.0
    ensures signs[2] == "+-" <==> m.netYoY < 0.0
    ensures signs[3] == "+-" <==> m.ebitdaYoY < 0.0
  {
    ["+" + NumberSign(m.grossYoY), "+" + NumberSign(m.operatingYoY),
     "+" + NumberSign(m.netYoY), "+" + NumberSign(m.ebitdaYoY)]
  }

  /** A gross margin that fell 1.5 points is shown as `+-1.5% YoY`. */
  lemma FallingMarginShowsDoubleSign()
    ensures CardSignsAsWritten(MarginYear("2024", 40.0, 10.0, 8.0, 15.0, -1.5, 0.5, 0.2, 0.1))[0] == "+-"
  {
  }

  /** The signs with the guard the other charts use: `x >= 0 ? '+' : ''`. */
  function CardSigns(m: MarginYear): (signs: seq<string>)
    ensures |signs| == 4
    ensures signs[0] == (if m.grossYoY < 0.0 then "-" else "+")
    ensures signs[1] == (if m.operatingYoY < 0.0 then "-" else "+")
    ensures signs[2] == (if m.netYoY < 0.0 then "-" else "+")
    ensures signs[3] == (if m.ebitdaYoY < 0.0 then "-" else "+")
  {
    SignPrefixShowsOneSign(m.grossYoY);
    SignPrefixShowsOneSign(m.operatingYoY);
    SignPrefixShowsOneSign(m.netYoY);
    SignPrefixShowsOneSign(m.ebitdaYoY);
    [SignPrefix(m.grossYoY) + NumberSign(m.grossYoY), SignPrefix(m.operatingYoY) + NumberSign(m.operatingYoY),
     SignPrefix(m.netYoY) + NumberSign(m.netYoY), SignPrefix(m.ebitdaYoY) + NumberSign(m.ebitdaYoY)]
  }

  /** The corrected cards agree with the written ones whenever no margin fell. */
  lemma CardSignsAgreeWhenNoneFell(m: MarginYear)
    requires m.grossYoY >= 0.0 && m.operatingYoY >= 0.0 && m.netYoY >= 0.0 && m.ebitdaYoY >= 0.0
    ensures CardSigns(m) == CardSignsAsWritten(m)
  {
  }
}
