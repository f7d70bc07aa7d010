/**
 The tactical forecast table: the forecast is cut to the window around
 `now`, then every remaining row gets its strategy, in order.
 */
module Table {
  import opened Forecast
  import opened Strategy
  import opened Highlight

  /** One pass over the forecast that filters and classifies together. */
  method StrategyTable(forecast: seq<Row>, now: int) returns (table: seq<Advice>)
    ensures |table| == |Window(forecast, now)|
    ensures forall k :: 0 <= k < |table| ==> table[k] == GetStrategy(Window(forecast, now)[k])
    ensures forall r :: r in forecast && InWindow(now, r.time) ==> GetStrategy(r) in table
  {
    table := [];
    var i := 0;
    while i < |forecast|
      invariant 0 <= i <= |forecast|
      invariant |table| == |Window(forecast[..i], now)|
      invariant forall k :: 0 <= k < |table| ==> table[k] == GetStrategy(Window(forecast[..i], now)[k])
    {
      var row := forecast[i];
      assert forecast[..i + 1] == forecast[..i] + [row];
      WindowAppend(forecast[..i], [row], now);
      assert Window([row], now) == (if InWindow(now, row.time) then [row] else []);
      if InWindow(now, row.time) {
        table := table + [GetStrategy(row)];
      }
      i := i + 1;
    }
    assert forecast[..i] == forecast;
    forall r | r in forecast && InWindow(now, r.time)
      ensures GetStrategy(r) in table
    {
      var w := Window(forecast, now);
      var k :| 0 <= k < |w| && w[k] == r;
      assert table[k] == GetStrategy(r);
    }
  }

  /** Row by row, the displayed table is shaded exactly where the windowed
      forecast has non-zero precipitation: the strategy label of row k is a
      wet label iff that forecast row is not dry. */
  lemma ShadedTableRows(forecast: seq<Row>, now: int)
    ensures forall k :: 0 <= k < |Window(forecast, now)| ==>
      (IsWetLabel(TyreLabel(GetStrategy(Window(forecast, now)[k]).tyre)) <==> Window(forecast, now)[k].precip != 0.0)
  {
    var w := Window(forecast, now);
    forall k | 0 <= k < |w|
      ensures IsWetLabel(TyreLabel(GetStrategy(w[k]).tyre)) <==> w[k].precip != 0.0
    {
      WetLabelsAreNonDry(GetStrategy(w[k]).tyre);
      TyreDeterminesConditionAndColour(w[k]);
    }
  }
}
