/** The walk both label plugins make over one dataset's rendered bars: for bar `i`
    they read `data[i]` and draw a label only when it is a positive number. */
module BarLabels {
  import opened Values
  import opened Canvas

  /** The bars among the first `n` whose value passes the `value > 0` guard, in bar order. */
  function PositiveIndices(data: seq<Value>, n: nat): (r: seq<nat>)
    ensures forall j :: 0 <= j < |r| ==> r[j] < n && IsPositive(Lookup(data, r[j]))
    ensures forall i :: 0 <= i < n && IsPositive(Lookup(data, i)) ==> i in r
    ensures forall j, k :: 0 <= j < k < |r| ==> r[j] < r[k]
  {
    if n == 0 then []
    else PositiveIndices(data, n - 1) + (if IsPositive(Lookup(data, n - 1)) then [n - 1] else [])
  }

  /** The labels drawn for the first `n` bars, one `forEach` step at a time;
      `labelOf` positions and formats the label of one bar from its geometry and value. */
  function DrawnUpTo(data: seq<Value>, bars: seq<Bar>, labelOf: (Bar, real) -> Draw, n: nat): (r: seq<Draw>)
    requires n <= |bars|
    ensures |r| == |PositiveIndices(data, n)|
    ensures forall j :: 0 <= j < |r| ==>
      var i := PositiveIndices(data, n)[j]; r[j] == labelOf(bars[i], Lookup(data, i).n)
  {
    if n == 0 then []
    else
      var v := Lookup(data, n - 1);
      DrawnUpTo(data, bars, labelOf, n - 1) + (if IsPositive(v) then [labelOf(bars[n - 1], v.n)] else [])
  }

  /** The labels drawn for all rendered bars of one dataset. */
  method DrawBarLabels(data: seq<Value>, bars: seq<Bar>, labelOf: (Bar, real) -> Draw) returns (drawn: seq<Draw>)
    ensures drawn == DrawnUpTo(data, bars, labelOf, |bars|)
    ensures |drawn| == |PositiveIndices(data, |bars|)|
    ensures forall j :: 0 <= j < |drawn| ==>
      var i := PositiveIndices(data, |bars|)[j]; drawn[j] == labelOf(bars[i], Lookup(data, i).n)
  {
    drawn := [];
    var i := 0;
    while i < |bars|
      invariant 0 <= i <= |bars|
      invariant drawn == DrawnUpTo(data, bars, labelOf, i)
    {
      var v := Lookup(data, i);
      if IsPositive(v) {
        drawn := drawn + [labelOf(bars[i], v.n)];
      }
      i := i + 1;
    }
  }

  /** A label is drawn exactly for the bars holding a positive value: every drawn label
      belongs to such a bar, and every such bar gets its label. */
  lemma {:induction false} DrawnExactlyForPositiveBars(data: seq<Value>, bars: seq<Bar>, labelOf: (Bar, real) -> Draw, n: nat)
    requires n <= |bars|
    ensures forall d :: d in DrawnUpTo(data, bars, labelOf, n) <==>
      exists i :: 0 <= i < n && IsPositive(Lookup(data, i)) && d == labelOf(bars[i], Lookup(data, i).n)
  {
    var r := DrawnUpTo(data, bars, labelOf, n);
    var idx := PositiveIndices(data, n);
    forall d | d in r
      ensures exists i :: 0 <= i < n && IsPositive(Lookup(data, i)) && d == labelOf(bars[i], Lookup(data, i).n)
    {
      var j :| 0 <= j < |r| && r[j] == d;
      var i := idx[j];
      assert 0 <= i < n && IsPositive(Lookup(data, i)) && d == labelOf(bars[i], Lookup(data, i).n);
    }
    forall i | 0 <= i < n && IsPositive(Lookup(data, i))
      ensures labelOf(bars[i], Lookup(data, i).n) in r
    {
      var j :| 0 <= j < |idx| && idx[j] == i;
      assert r[j] == labelOf(bars[i], Lookup(data, i).n);
    }
  }
}
