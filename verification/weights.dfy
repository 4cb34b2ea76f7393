/** The weight inspection of the linear housing-price model: the kernel of
    the first layer is paired with the feature labels, ranked by magnitude,
    and the five largest weights are listed with their sign. */
module WeightReport {
  import opened Wrappers
  import opened Sorting

  /** The number of input features the linear model is expected to have. */
  const NumFeatures: nat := 12

  /** `NUM_TOP_WEIGHTS_TO_DISPLAY`. */
  const NumTopWeightsToDisplay: nat := 5

  /** A kernel element with the label of its feature. */
  datatype WeightEntry = WeightEntry(description: string, value: real)

  /** The assertion failure of `describeKernelElements`, carrying the
      length it found. */
  datatype KernelError = KernelLengthMismatch(actual: nat)

  /** The CSS class of a weight cell. */
  datatype WeightClass = PositiveWeight | NegativeWeight

  /** One row of the weight table. */
  datatype Row = Row(description: string, value: real, weightClass: WeightClass)

  function Min(a: nat, b: nat): nat {
    if a <= b then a else b
  }

  /** The kernel values carried by a list of entries. */
  function Values(ws: seq<WeightEntry>): (vs: seq<real>)
    ensures |vs| == |ws|
  {
    seq(|ws|, i requires 0 <= i < |ws| => ws[i].value)
  }

  /** The labels carried by a list of entries. */
  function Descriptions(ws: seq<WeightEntry>): (ds: seq<string>)
    ensures |ds| == |ws|
  {
    seq(|ws|, i requires 0 <= i < |ws| => ws[i].description)
  }

  /** `describeKernelElements`: fails unless the kernel has exactly 12
      elements, and otherwise pairs element `i` with label `i`, in order.
      The labels are the dataset module's fixed list of 12 feature
      descriptions. */
  method DescribeKernelElements(featureDescriptions: seq<string>, kernel: seq<real>)
    returns (r: Result<seq<WeightEntry>, KernelError>)
    requires |featureDescriptions| == NumFeatures
    ensures r.Failure? <==> |kernel| != NumFeatures
    ensures r.Failure? ==> r.error == KernelLengthMismatch(|kernel|)
    ensures r.Success? ==> |r.value| == |kernel|
    ensures r.Success? ==> forall i :: 0 <= i < |kernel| ==>
      r.value[i] == WeightEntry(featureDescriptions[i], kernel[i])
    ensures r.Success? ==> Values(r.value) == kernel && Descriptions(r.value) == featureDescriptions
  {
    if |kernel| != NumFeatures {
      return Failure(KernelLengthMismatch(|kernel|));
    }
    var outList: seq<WeightEntry> := [];
    var idx := 0;
    while idx < |kernel|
      invariant 0 <= idx <= |kernel|
      invariant |outList| == idx
      invariant forall i :: 0 <= i < idx ==> outList[i] == WeightEntry(featureDescriptions[i], kernel[i])
    {
      outList := outList + [WeightEntry(featureDescriptions[idx], kernel[idx])];
      idx := idx + 1;
    }
    return Success(outList);
  }

  /** The magnitude a weight is ranked by, `Math.abs(value)`. */
  function Magnitude(w: WeightEntry): real {
    Abs(w.value)
  }

  function Abs(v: real): real {
    if v < 0.0 then -v else v
  }

  /** The weights ordered by magnitude, largest first, ties kept in input
      order (the comparator `Math.abs(b.value) - Math.abs(a.value)`). */
  function RankByMagnitude(ws: seq<WeightEntry>): (r: seq<WeightEntry>)
    ensures |r| == |ws|
    ensures multiset(r) == multiset(ws)
    ensures SortedDesc(r, Magnitude)
  {
    SortDesc(ws, Magnitude)
  }

  /** The weights that make it into the table: at most five, the front of
      the ranking, and none of the weights left out is larger in magnitude
      than any weight kept. */
  function TopWeights(ws: seq<WeightEntry>): (r: seq<WeightEntry>)
    ensures |r| == Min(NumTopWeightsToDisplay, |ws|)
    ensures SortedDesc(r, Magnitude)
    ensures multiset(r) <= multiset(ws)
    ensures forall x, y :: x in r && y in multiset(ws) - multiset(r) ==> Magnitude(x) >= Magnitude(y)
  {
    var ranked := RankByMagnitude(ws);
    var k := Min(NumTopWeightsToDisplay, |ws|);
    var r := ranked[..k];
    assert ranked == r + ranked[k..];
    SortedFrontDominates(ranked, Magnitude, k);
    r
  }

  /** Among weights of equal magnitude, the ones kept are the first in
      kernel order, and they are kept in kernel order. */
  lemma {:induction false} TopWeightsKeepTiesInKernelOrder(ws: seq<WeightEntry>, m: real)
    ensures var kept := WithKey(TopWeights(ws), Magnitude, m);
      |kept| <= |WithKey(ws, Magnitude, m)| && kept == WithKey(ws, Magnitude, m)[..|kept|]
  {
    WithKeyPrefix(RankByMagnitude(ws), Magnitude, m, Min(NumTopWeightsToDisplay, |ws|));
    SortDescStable(ws, Magnitude, m);
  }

  /** The class of a weight cell: negative values only are marked negative;
      zero counts as positive. */
  function ClassOf(v: real): (c: WeightClass)
    ensures c == NegativeWeight <==> v < 0.0
  {
    if v < 0.0 then NegativeWeight else PositiveWeight
  }

  /** The table row shown for a weight. */
  function RowOf(w: WeightEntry): Row {
    Row(w.description, w.value, ClassOf(w.value))
  }

  /** The `forEach` over the ranking: a row for each of the first five
      positions, added in ranking order to an emptied table. */
  method AddTopRows(ranked: seq<WeightEntry>) returns (table: seq<Row>)
    ensures |table| == Min(NumTopWeightsToDisplay, |ranked|)
    ensures forall k :: 0 <= k < |table| ==> table[k] == RowOf(ranked[k])
  {
    table := [];
    var i := 0;
    while i < |ranked|
      invariant 0 <= i <= |ranked|
      invariant |table| == Min(NumTopWeightsToDisplay, i)
      invariant forall k :: 0 <= k < |table| ==> table[k] == RowOf(ranked[k])
    {
      if i < NumTopWeightsToDisplay {
        var weight := ranked[i];
        table := table + [Row(weight.description, weight.value, ClassOf(weight.value))];
      }
      i := i + 1;
    }
  }

  /** `updateWeightDescription`: the weights are ranked, the table is
      emptied and refilled with the first five, so the table depends on the
      current weights alone. */
  method UpdateWeightDescription(weightsList: seq<WeightEntry>) returns (table: seq<Row>)
    ensures |table| == Min(NumTopWeightsToDisplay, |weightsList|)
    ensures forall i :: 0 <= i < |table| ==> table[i] == RowOf(RankByMagnitude(weightsList)[i])
    ensures forall i :: 0 <= i < |table| ==> (table[i].weightClass == NegativeWeight <==> table[i].value < 0.0)
    ensures forall i, j :: 0 <= i < j < |table| ==> Abs(table[i].value) >= Abs(table[j].value)
  {
    var ranked := RankByMagnitude(weightsList);
    table := AddTopRows(ranked);
    assert forall k :: 0 <= k < |table| ==> table[k].value == ranked[k].value;
    assert forall i, j :: 0 <= i < j < |table| ==> Magnitude(ranked[i]) >= Magnitude(ranked[j]);
  }

  /** A weight strictly larger in magnitude than every other weight heads
      the ranking, whatever its sign. */
  lemma LargestMagnitudeRanksFirst(ws: seq<WeightEntry>, k: nat)
    requires k < |ws|
    requires forall j :: 0 <= j < |ws| && j != k ==> Magnitude(ws[j]) < Magnitude(ws[k])
    ensures RankByMagnitude(ws)[0] == ws[k]
  {
    var ranked := RankByMagnitude(ws);
    assert ws[k] in multiset(ranked);
    var p :| 0 <= p < |ranked| && ranked[p] == ws[k];
    assert Magnitude(ranked[0]) >= Magnitude(ws[k]);
    assert ranked[0] in multiset(ws);
    var j :| 0 <= j < |ws| && ws[j] == ranked[0];
  }

  /** Weights of equal magnitude are listed in kernel order. */
  lemma {:induction false} TiesKeepKernelOrder(ws: seq<WeightEntry>, m: real)
    ensures WithKey(RankByMagnitude(ws), Magnitude, m) == WithKey(ws, Magnitude, m)
  {
    SortDescStable(ws, Magnitude, m);
  }
}
