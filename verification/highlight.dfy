/**
 Row shading in the forecast table: a row is shaded dark red when its
 strategy label mentions a wet-weather tyre.
 */
module Highlight {
  import opened Forecast
  import opened Strategy

  /** `p` occurs in `s` starting at position `i`. */
  predicate OccursAt(s: string, p: string, i: nat) {
    i + |p| <= |s| && s[i..i + |p|] == p
  }

  /** Substring test, as the `in` operator on strings: the empty pattern
      occurs everywhere, a pattern longer than the text nowhere. */
  function Contains(s: string, p: string): (b: bool)
    ensures b <==> exists i: nat :: OccursAt(s, p, i)
    decreases |s|
  {
    if |p| > |s| then false
    else if s[..|p|] == p then (assert OccursAt(s, p, 0); true)
    else
      var b := Contains(s[1..], p);
      if b then
        var i: nat :| OccursAt(s[1..], p, i);
        assert s[i + 1..i + 1 + |p|] == s[1..][i..i + |p|];
        assert OccursAt(s, p, i + 1);
        b
      else
        forall i: nat
          ensures !OccursAt(s, p, i)
        {
          if 0 < i && i + |p| <= |s| {
            assert !OccursAt(s[1..], p, i - 1);
            assert s[1..][i - 1..i - 1 + |p|] == s[i..i + |p|];
          }
        }
        b
  }

  /** A non-empty pattern whose first character never appears in `s` does not occur in it. */
  lemma AbsentFirstChar(s: string, p: string)
    requires |p| > 0
    requires forall k :: 0 <= k < |s| ==> s[k] != p[0]
    ensures !Contains(s, p)
  {
    forall i: nat
      ensures !OccursAt(s, p, i)
    {
      if i + |p| <= |s| {
        assert s[i..i + |p|][0] == s[i];
      }
    }
  }

  /** The style given to every cell of a shaded row. */
  const Shade: string := "background-color: #550000"

  /** The column headers of the table; the strategy label sits in the last one. */
  const Columns: seq<string> := ["Time", "Cond", "Rain (mm)", "Air/Feel", "Track Est.", "Wind", "STRATEGY"]
  const StrategyColumn: nat := 6

  /** The strategy label is treated as wet when it mentions WET or INTER. */
  predicate IsWetLabel(name: string) {
    Contains(name, "WET") || Contains(name, "INTER")
  }

  /** One style per cell of a displayed row, all alike: shaded when the
      strategy cell is a wet label, unstyled otherwise. */
  function HighlightStrategy(cells: seq<string>): (styles: seq<string>)
    requires |cells| == |Columns|
    ensures |styles| == |cells|
    ensures forall i, j :: 0 <= i < |styles| && 0 <= j < |styles| ==> styles[i] == styles[j]
    ensures IsWetLabel(cells[StrategyColumn]) <==> Shade in styles
    ensures !IsWetLabel(cells[StrategyColumn]) <==> forall i :: 0 <= i < |styles| ==> styles[i] == ""
  {
    var isWet := IsWetLabel(cells[StrategyColumn]);
    var styles := seq(|cells|, _ => if isWet then Shade else "");
    assert styles[0] == if isWet then Shade else "";
    styles
  }

  /** Of the four labels, exactly the two non-dry ones are wet labels. */
  lemma WetLabelsAreNonDry(t: Tyre)
    ensures IsWetLabel(TyreLabel(t)) <==> TyreCondition(t) != Dry
  {
    match t
    case Soft =>
      AbsentFirstChar("SOFT", "WET");
      AbsentFirstChar("SOFT", "INTER");
    case MedHard =>
      AbsentFirstChar("MED/HARD", "WET");
      AbsentFirstChar("MED/HARD", "INTER");
    case SlicksInter =>
      assert OccursAt("SLICKS/INTER", "INTER", 7);
    case InterWet =>
      assert OccursAt("INTER/WET", "INTER", 0);
  }

  /** A displayed row is shaded, in every cell, exactly when its forecast row
      is not dry. */
  lemma ShadedIffNotDry(r: Row, cells: seq<string>)
    requires |cells| == |Columns|
    requires cells[StrategyColumn] == TyreLabel(GetStrategy(r).tyre)
    ensures GetStrategy(r).cond != Dry ==> forall i :: 0 <= i < |cells| ==> HighlightStrategy(cells)[i] == Shade
    ensures GetStrategy(r).cond == Dry ==> forall i :: 0 <= i < |cells| ==> HighlightStrategy(cells)[i] == ""
  {
    WetLabelsAreNonDry(GetStrategy(r).tyre);
    TyreDeterminesConditionAndColour(r);
  }
}
