/**
 * The Ichimoku Cloud pipeline over a mutable OHLC table: the table is a
 * date axis plus named columns, and each step of the indicator writes
 * columns into it in place.
 *
 * Dates are whole hours (an hour stamp), so one hour later is `+ 1`.
 */
module Ichimoku {

  import opened Series
  import opened Crossover

  /** The four periods of the indicator. */
  datatype Config = Config(tenkanPeriod: nat, kijunPeriod: nat, senkouBPeriod: nat, displacement: nat)

  /** Tenkan 20, kijun 60, senkou B 120 and a displacement of 30 rows. */
  const Default: Config := Config(20, 60, 120, 30)

  /** Every window of the configuration is at least one row wide. */
  predicate ValidConfig(cfg: Config)
  {
    cfg.tenkanPeriod >= 1 && cfg.kijunPeriod >= 1 && cfg.senkouBPeriod >= 1
  }

  /** Every column has `n` rows. */
  ghost predicate Aligned(cols: map<string, Column>, n: nat)
  {
    forall c :: c in cols ==> |cols[c]| == n
  }

  /** The price columns the indicator reads exist and have the same length. */
  ghost predicate HasPrices(cols: map<string, Column>)
  {
    "high" in cols && "low" in cols && "close" in cols &&
    |cols["high"]| == |cols["low"]| == |cols["close"]|
  }

  /** The table: one date per row and named columns of the same length. */
  class Table {
    var date: seq<int>
    var cols: map<string, Column>

    /** A table over the given dates and columns, which must all have one cell per date. */
    constructor (date: seq<int>, cols: map<string, Column>)
      requires Aligned(cols, |date|)
      ensures Valid() && this.date == date && this.cols == cols
    {
      this.date := date;
      this.cols := cols;
    }

    ghost predicate Valid()
      reads this
    {
      Aligned(cols, |date|)
    }
  }

  // ---------------------------------------------------------------------
  // Dates

  /** Consecutive dates are exactly one hour apart. */
  ghost predicate Hourly(dates: seq<int>)
  {
    forall i :: 1 <= i < |dates| ==> dates[i] == dates[i - 1] + 1
  }

  /** The `displacement` hour stamps that follow `last`, one hour apart. */
  function ExtensionDates(last: int, displacement: nat): (dates: seq<int>)
    ensures |dates| == displacement
    ensures Hourly([last] + dates)
  {
    seq(displacement, i => last + i + 1)
  }

  /**
   * The dates appended after an hourly axis continue it: the extended axis
   * is hourly again, so (by `HourlyDistance`) the new dates follow the old
   * last one at one hour, two hours, and so on.
   */
  lemma ExtensionContinuesHourly(axis: seq<int>, displacement: nat)
    requires |axis| >= 1 && Hourly(axis)
    ensures Hourly(axis + ExtensionDates(axis[|axis| - 1], displacement))
  {
  }

  /** On an hourly axis the dates strictly increase, by the number of rows between them. */
  lemma {:induction false} HourlyDistance(dates: seq<int>, i: nat, j: nat)
    requires Hourly(dates) && i <= j < |dates|
    ensures dates[j] == dates[i] + (j - i)
    decreases j - i
  {
    if i < j {
      HourlyDistance(dates, i, j - 1);
    }
  }

  /**
   * `extend_dates`: computes the hour stamps that would follow the last
   * row. `extend_dates` binds the extended table to a local name only, so the
   * caller's table keeps its rows; the computed dates are returned here so
   * that their value can be stated, and the pipeline drops them.
   */
  method ExtendDates(df: Table, displacement: nat) returns (dates: seq<int>)
    requires |df.date| >= 1
    ensures dates == ExtensionDates(df.date[|df.date| - 1], displacement)
  {
    var last := df.date[|df.date| - 1];
    dates := ExtensionDates(last, displacement);
  }

  // ---------------------------------------------------------------------
  // Midpoint lines

  /** Every window in the keyword list is at least one row wide. */
  predicate PositiveWindows(kwargs: seq<(string, nat)>)
  {
    forall j :: 0 <= j < |kwargs| ==> kwargs[j].1 >= 1
  }

  /** The column names of the keyword list. */
  function Names(kwargs: seq<(string, nat)>): (names: set<string>)
    ensures forall j :: 0 <= j < |kwargs| ==> kwargs[j].0 in names
    ensures forall c :: c in names ==> exists j :: 0 <= j < |kwargs| && kwargs[j].0 == c
  {
    set j | 0 <= j < |kwargs| :: kwargs[j].0
  }

  /**
   * The columns after `make_lines`: each keyword in turn writes the
   * midpoint line of its window under its own name, reading `high` and
   * `low` as they stand at that point.
   */
  function WithLines(cols: map<string, Column>, kwargs: seq<(string, nat)>): (r: map<string, Column>)
    requires "high" in cols && "low" in cols && |cols["high"]| == |cols["low"]|
    requires PositiveWindows(kwargs)
    ensures "high" in r && "low" in r && |r["high"]| == |r["low"]| == |cols["high"]|
    ensures r.Keys == cols.Keys + Names(kwargs)
    ensures Aligned(cols, |cols["high"]|) ==> Aligned(r, |cols["high"]|)
    decreases |kwargs|
  {
    if kwargs == [] then cols
    else
      var name := kwargs[0].0;
      var next := cols[name := MidLine(cols["high"], cols["low"], kwargs[0].1)];
      assert Names(kwargs) == {name} + Names(kwargs[1..]);
      WithLines(next, kwargs[1..])
  }

  /**
   * With distinct keyword names, none of them `high` or `low`, every
   * keyword's column holds the midpoint line of its window over the
   * original prices and every other column is left as it was.
   */
  lemma {:induction false} WithLinesColumns(cols: map<string, Column>, kwargs: seq<(string, nat)>)
    requires "high" in cols && "low" in cols && |cols["high"]| == |cols["low"]|
    requires PositiveWindows(kwargs)
    requires forall j :: 0 <= j < |kwargs| ==> kwargs[j].0 != "high" && kwargs[j].0 != "low"
    requires forall j, k :: 0 <= j < k < |kwargs| ==> kwargs[j].0 != kwargs[k].0
    ensures forall j :: 0 <= j < |kwargs| ==>
              WithLines(cols, kwargs)[kwargs[j].0] == MidLine(cols["high"], cols["low"], kwargs[j].1)
    ensures forall c :: c in cols && c !in Names(kwargs) ==> WithLines(cols, kwargs)[c] == cols[c]
    decreases |kwargs|
  {
    if kwargs != [] {
      var name := kwargs[0].0;
      var next := cols[name := MidLine(cols["high"], cols["low"], kwargs[0].1)];
      var rest := kwargs[1..];
      WithLinesColumns(next, rest);
      assert Names(kwargs) == {name} + Names(rest);
      assert name !in Names(rest) by {
        forall j | 0 <= j < |rest| ensures rest[j].0 != name {
          assert rest[j] == kwargs[j + 1];
        }
      }
      forall j | 0 <= j < |kwargs|
        ensures WithLines(cols, kwargs)[kwargs[j].0] == MidLine(cols["high"], cols["low"], kwargs[j].1)
      {
        if j > 0 {
          assert kwargs[j] == rest[j - 1];
        }
      }
    }
  }

  /**
   * `make_lines`: for each keyword, in order, writes the midpoint line of
   * that window into the column named by the keyword.
   */
  method MakeLines(df: Table, kwargs: seq<(string, nat)>)
    requires df.Valid() && "high" in df.cols && "low" in df.cols
    requires PositiveWindows(kwargs)
    modifies df
    ensures df.Valid() && df.date == old(df.date)
    ensures df.cols == WithLines(old(df.cols), kwargs)
  {
    for j := 0 to |kwargs|
      invariant df.Valid() && df.date == old(df.date)
      invariant "high" in df.cols && "low" in df.cols
      invariant WithLines(df.cols, kwargs[j..]) == WithLines(old(df.cols), kwargs)
    {
      var name, window := kwargs[j].0, kwargs[j].1;
      var high := RollingMax(df.cols["high"], window);
      var low := RollingMin(df.cols["low"], window);
      assert kwargs[j..][1..] == kwargs[j + 1..];
      df.cols := df.cols[name := HalfSum(high, low)];
    }
  }

  // ---------------------------------------------------------------------
  // Spans

  /**
   * `make_spans`: chikou is the close moved `displacement` rows earlier;
   * senkou A is the mean of tenkan and kijun and senkou B the midpoint line
   * of `senkouBPeriod`, both then moved `displacement` rows later within
   * the same rows.
   */
  method MakeSpans(df: Table, displacement: nat, senkouBPeriod: nat)
    requires df.Valid()
    requires "close" in df.cols && "tenkan" in df.cols && "kijun" in df.cols
    requires "high" in df.cols && "low" in df.cols
    requires senkouBPeriod >= 1
    modifies df
    ensures df.Valid() && df.date == old(df.date)
    ensures df.cols ==
      old(df.cols)
        ["chikou" := Shift(old(df.cols)["close"], -(displacement as int))]
        ["senkou_a" := Shift(HalfSum(old(df.cols)["tenkan"], old(df.cols)["kijun"]), displacement)]
        ["senkou_b" := Shift(MidLine(old(df.cols)["high"], old(df.cols)["low"], senkouBPeriod), displacement)]
  {
    df.cols := df.cols["chikou" := Shift(df.cols["close"], -(displacement as int))];
    df.cols := df.cols["senkou_a" := HalfSum(df.cols["tenkan"], df.cols["kijun"])];
    MakeLines(df, [("senkou_b", senkouBPeriod)]);
    df.cols := df.cols["senkou_a" := Shift(df.cols["senkou_a"], displacement)]
                      ["senkou_b" := Shift(df.cols["senkou_b"], displacement)];
  }

  // ---------------------------------------------------------------------
  // The pipeline

  /** `make_lines` with two keywords other than `high` and `low` writes two columns. */
  lemma {:induction false} TwoLines(cols: map<string, Column>, a: string, wa: nat, b: string, wb: nat)
    requires "high" in cols && "low" in cols && |cols["high"]| == |cols["low"]|
    requires wa >= 1 && wb >= 1 && a != "high" && a != "low"
    ensures WithLines(cols, [(a, wa), (b, wb)]) ==
              cols[a := MidLine(cols["high"], cols["low"], wa)][b := MidLine(cols["high"], cols["low"], wb)]
  {
    var kwargs: seq<(string, nat)> := [(a, wa), (b, wb)];
    var first := cols[a := MidLine(cols["high"], cols["low"], wa)];
    assert kwargs[1..] == [(b, wb)] && |kwargs[1..][1..]| == 0;
    assert first["high"] == cols["high"] && first["low"] == cols["low"];
    var second := first[b := MidLine(cols["high"], cols["low"], wb)];
    assert WithLines(cols, kwargs) == WithLines(first, kwargs[1..]);
    assert WithLines(first, kwargs[1..]) == WithLines(second, kwargs[1..][1..]) == second;
  }

  /** The steps of the pipeline compose to `IchimokuColumns`. */
  lemma {:induction false} PipelineColumns(cols: map<string, Column>, cfg: Config)
    requires HasPrices(cols) && ValidConfig(cfg)
    ensures var high, low, close := cols["high"], cols["low"], cols["close"];
            var lined := cols["price" := Shift(close, 1)]
                             ["tenkan" := MidLine(high, low, cfg.tenkanPeriod)]
                             ["kijun" := MidLine(high, low, cfg.kijunPeriod)];
            lined["chikou" := Shift(lined["close"], -(cfg.displacement as int))]
                 ["senkou_a" := Shift(HalfSum(lined["tenkan"], lined["kijun"]), cfg.displacement)]
                 ["senkou_b" := Shift(MidLine(lined["high"], lined["low"], cfg.senkouBPeriod), cfg.displacement)]
            == IchimokuColumns(cols, cfg)
  {
  }

  /** The columns after one run of the indicator, in terms of the columns before it. */
  function IchimokuColumns(cols: map<string, Column>, cfg: Config): (r: map<string, Column>)
    requires HasPrices(cols) && ValidConfig(cfg)
    ensures r.Keys == cols.Keys + {"price", "tenkan", "kijun", "chikou", "senkou_a", "senkou_b"}
    ensures |r["price"]| == |r["tenkan"]| == |r["kijun"]| == |cols["high"]|
    ensures |r["chikou"]| == |r["senkou_a"]| == |r["senkou_b"]| == |cols["high"]|
  {
    var high, low, close := cols["high"], cols["low"], cols["close"];
    var tenkan := MidLine(high, low, cfg.tenkanPeriod);
    var kijun := MidLine(high, low, cfg.kijunPeriod);
    cols["price" := Shift(close, 1)]
        ["tenkan" := tenkan]
        ["kijun" := kijun]
        ["chikou" := Shift(close, -(cfg.displacement as int))]
        ["senkou_a" := Shift(HalfSum(tenkan, kijun), cfg.displacement)]
        ["senkou_b" := Shift(MidLine(high, low, cfg.senkouBPeriod), cfg.displacement)]
  }

  /**
   * `ichimoku`: computes every line of the indicator into the table and
   * returns the crossings of senkou A and senkou B (which `ichimoku` hands
   * to `chart`). The table keeps its rows: the extension of the dates
   * does not reach it.
   */
  method Ichimoku(df: Table, cfg: Config) returns (cloudIntersections: seq<bool>)
    requires df.Valid() && HasPrices(df.cols) && |df.date| >= 1
    requires ValidConfig(cfg)
    modifies df
    ensures df.Valid() && df.date == old(df.date)
    ensures df.cols == IchimokuColumns(old(df.cols), cfg)
    ensures cloudIntersections == Flips(Comparison(df.cols["senkou_a"], df.cols["senkou_b"]))
  {
    var dates := ExtendDates(df, cfg.displacement);
    df.cols := df.cols["price" := Shift(df.cols["close"], 1)];
    ghost var high, low := df.cols["high"], df.cols["low"];
    ghost var lined := df.cols["tenkan" := MidLine(high, low, cfg.tenkanPeriod)]
                              ["kijun" := MidLine(high, low, cfg.kijunPeriod)];
    var kwargs: seq<(string, nat)> := [("tenkan", cfg.tenkanPeriod), ("kijun", cfg.kijunPeriod)];
    TwoLines(df.cols, "tenkan", cfg.tenkanPeriod, "kijun", cfg.kijunPeriod);
    MakeLines(df, kwargs);
    assert df.cols == lined;
    MakeSpans(df, cfg.displacement, cfg.senkouBPeriod);
    PipelineColumns(old(df.cols), cfg);
    assert df.cols == IchimokuColumns(old(df.cols), cfg);
    cloudIntersections := FindIntersections(df.cols["senkou_a"], df.cols["senkou_b"]);
  }

  /** The lines one run writes, column by column. */
  lemma {:induction false} IchimokuLines(cols: map<string, Column>, cfg: Config)
    requires HasPrices(cols) && ValidConfig(cfg)
    ensures var r := IchimokuColumns(cols, cfg);
            var high, low, close := cols["high"], cols["low"], cols["close"];
            var tenkan := MidLine(high, low, cfg.tenkanPeriod);
            var kijun := MidLine(high, low, cfg.kijunPeriod);
            && r["price"] == Shift(close, 1)
            && r["tenkan"] == tenkan
            && r["kijun"] == kijun
            && r["chikou"] == Shift(close, -(cfg.displacement as int))
            && r["senkou_a"] == Shift(HalfSum(tenkan, kijun), cfg.displacement)
            && r["senkou_b"] == Shift(MidLine(high, low, cfg.senkouBPeriod), cfg.displacement)
  {
  }

  /** Every line of the indicator has as many rows as the input. */
  lemma {:induction false} IchimokuAligned(cols: map<string, Column>, cfg: Config, n: nat)
    requires HasPrices(cols) && ValidConfig(cfg) && Aligned(cols, n)
    ensures Aligned(IchimokuColumns(cols, cfg), n)
  {
  }

  /** The input columns, and every column the indicator does not write, are left as they were. */
  lemma {:induction false} IchimokuKeepsOtherColumns(cols: map<string, Column>, cfg: Config, c: string)
    requires HasPrices(cols) && ValidConfig(cfg) && c in cols
    requires c !in {"price", "tenkan", "kijun", "chikou", "senkou_a", "senkou_b"}
    ensures IchimokuColumns(cols, cfg)[c] == cols[c]
  {
  }

  /** The price line is the previous row's close, missing on the first row. */
  lemma {:induction false} PriceIsPreviousClose(cols: map<string, Column>, cfg: Config, i: nat)
    requires HasPrices(cols) && ValidConfig(cfg) && i < |cols["close"]|
    ensures IchimokuColumns(cols, cfg)["price"][i] == if i == 0 then None else cols["close"][i - 1]
  {
  }

  /** Chikou is the close `displacement` rows later, missing on the last `displacement` rows. */
  lemma {:induction false} ChikouIsFutureClose(cols: map<string, Column>, cfg: Config, i: nat)
    requires HasPrices(cols) && ValidConfig(cfg) && i < |cols["close"]|
    ensures IchimokuColumns(cols, cfg)["chikou"][i] ==
              if i + cfg.displacement < |cols["close"]| then cols["close"][i + cfg.displacement] else None
  {
  }

  /**
   * Senkou A is missing on the first `displacement` rows; after that it is
   * the half-sum of tenkan and kijun `displacement` rows earlier (present
   * only where both are, by the contract of `HalfSum`).
   */
  lemma {:induction false} SenkouAIsShiftedMean(cols: map<string, Column>, cfg: Config, i: nat)
    requires HasPrices(cols) && ValidConfig(cfg) && i < |cols["high"]|
    ensures var r := IchimokuColumns(cols, cfg);
            r["senkou_a"][i] ==
              if i < cfg.displacement then None
              else HalfSum(r["tenkan"], r["kijun"])[i - cfg.displacement]
  {
    var r := IchimokuColumns(cols, cfg);
    SenkouAColumn(cols, cfg);
    ShiftedColumnAt(r, "senkou_a", HalfSum(r["tenkan"], r["kijun"]), cfg.displacement, i);
  }

  /** Senkou A as a whole column: the half-sum of tenkan and kijun, shifted forward. */
  lemma {:induction false} SenkouAColumn(cols: map<string, Column>, cfg: Config)
    requires HasPrices(cols) && ValidConfig(cfg)
    ensures var r := IchimokuColumns(cols, cfg);
            r["senkou_a"] == Shift(HalfSum(r["tenkan"], r["kijun"]), cfg.displacement)
  {
  }

  /**
   * Senkou B is the midpoint line of the senkou B period moved
   * `displacement` rows later, so by `ShiftForward` it is missing on the
   * first `displacement` rows and the line `displacement` rows earlier after.
   */
  lemma {:induction false} SenkouBColumn(cols: map<string, Column>, cfg: Config)
    requires HasPrices(cols) && ValidConfig(cfg)
    ensures IchimokuColumns(cols, cfg)["senkou_b"] ==
              Shift(MidLine(cols["high"], cols["low"], cfg.senkouBPeriod), cfg.displacement)
  {
  }

  /** A column that holds a forward shift of `s`, read at row `i`. */
  lemma {:induction false} ShiftedColumnAt(r: map<string, Column>, name: string, s: Column, d: nat, i: nat)
    requires name in r && r[name] == Shift(s, d) && i < |s|
    ensures r[name][i] == if i < d then None else s[i - d]
  {
    ShiftForward(s, d, i);
  }

  /**
   * Senkou B has no value before row `displacement + senkouBPeriod - 1`:
   * the shift and the warm-up of its window add up.
   */
  lemma {:induction false} SenkouBLeadingMissing(cols: map<string, Column>, cfg: Config, i: nat)
    requires HasPrices(cols) && ValidConfig(cfg) && i < |cols["high"]|
    requires i < cfg.displacement + cfg.senkouBPeriod - 1
    ensures IchimokuColumns(cols, cfg)["senkou_b"][i] == None
  {
  }

  /** With the default periods, senkou B is missing on the first 149 rows. */
  lemma {:induction false} DefaultSenkouBWarmUp(cols: map<string, Column>, i: nat)
    requires HasPrices(cols) && i < |cols["high"]| && i < 149
    ensures IchimokuColumns(cols, Default)["senkou_b"][i] == None
  {
  }
}
