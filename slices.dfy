/** The partition of the circle into one slice per dataset item: the
    single forward pass of `TokenomicsChart` that keeps a running angle. */
module Slices {
  import opened Allocation
  import opened Geometry

  /** The distance the active slice is pulled out along its bisector. */
  const Lift: real := 8.0

  /** A dataset item with its angles. `offset` is the pop-out vector
      `(dx, dy)`, which is `polarToCartesian(0, 0, Lift, mid)` for the
      slice's middle angle `mid`. */
  datatype Slice = Slice(name: string, value: real, color: string, start: real, end: real, offset: Point)

  /** The result of the pass; `ZeroTotal` is a non-empty dataset whose
      weights add up to zero, for which the division by the total has no
      real value. The empty dataset has no item to divide and yields no
      slices. */
  datatype Partition = Computed(slices: seq<Slice>) | ZeroTotal

  /** The angle at which item `i` starts: the weight of all the items
      before it, as a fraction of the whole circle. */
  function StartAngle(items: seq<Item>, i: nat): real
    requires i <= |items|
    requires Total(items) != 0.0
  {
    Total(items[..i]) / Total(items) * 360.0
  }

  /** Item `i` of the dataset is slice `s`: label, weight and colour copied,
      starting at its prefix angle, spanning `value / total * 360` degrees,
      and popping out towards its middle angle. */
  predicate SliceOf(items: seq<Item>, i: nat, s: Slice)
    requires i < |items|
    requires Total(items) != 0.0
  {
    && s.name == items[i].name
    && s.value == items[i].value
    && s.color == items[i].color
    && s.start == StartAngle(items, i)
    && s.end - s.start == items[i].value / Total(items) * 360.0
    && s.offset == OnCircle(0.0, 0.0, Lift, (s.start + s.end) / 2.0)
  }

  /** `slices` has one slice per item, in the dataset's order. */
  predicate SlicesOf(items: seq<Item>, slices: seq<Slice>)
    requires Total(items) != 0.0
  {
    |slices| == |items| && forall i :: 0 <= i < |slices| ==> SliceOf(items, i, slices[i])
  }

  /** Each slice starts where the previous one ends, the first at 0. */
  predicate Contiguous(slices: seq<Slice>)
  {
    && (|slices| > 0 ==> slices[0].start == 0.0)
    && forall i :: 0 < i < |slices| ==> slices[i].start == slices[i - 1].end
  }

  /** The running angle after item `i` is the one item `i + 1` starts at. */
  lemma StartAngleStep(items: seq<Item>, i: nat)
    requires i < |items|
    requires Total(items) != 0.0
    ensures StartAngle(items, i + 1) == StartAngle(items, i) + items[i].value / Total(items) * 360.0
  {
    var a, b, t := Total(items[..i]), Total(items[..i + 1]), Total(items);
    TotalOfPrefixStep(items, i);
    assert b == a + items[i].value;
    ShareOfSum(a, items[i].value, t);
  }

  lemma ShareOfSum(a: real, b: real, t: real)
    requires t != 0.0
    ensures (a + b) / t * 360.0 == a / t * 360.0 + b / t * 360.0
  {
    assert (a + b) / t == a / t + b / t;
  }

  /** The single forward pass: the total is computed once, and each item's
      slice starts at the running angle, which then advances by the item's
      share of 360 degrees. */
  method ComputeSlices(items: seq<Item>) returns (result: Partition)
    ensures result.ZeroTotal? <==> items != [] && Total(items) == 0.0
    ensures items == [] ==> result == Computed([])
    ensures result.Computed? && items != [] ==>
      && SlicesOf(items, result.slices) && Contiguous(result.slices)
      && result.slices[|result.slices| - 1].end == 360.0
  {
    if items == [] {
      return Computed([]);
    }
    var total := Total(items);
    if total == 0.0 {
      return ZeroTotal;
    }
    var angle := 0.0;
    var slices: seq<Slice> := [];
    for i := 0 to |items|
      invariant |slices| == i
      invariant angle == StartAngle(items, i)
      invariant forall k :: 0 <= k < i ==> SliceOf(items, k, slices[k])
    {
      var item := items[i];
      var start := angle;
      var end := angle + item.value / total * 360.0;
      angle := end;
      StartAngleStep(items, i);
      slices := slices + [Slice(item.name, item.value, item.color, start, end,
                                OnCircle(0.0, 0.0, Lift, (start + end) / 2.0))];
    }
    PartitionIsContiguous(items, slices);
    result := Computed(slices);
  }

  /** Any partition of a dataset with a non-zero total starts at 0, has no
      gaps, and closes the circle exactly at 360 degrees. */
  lemma PartitionIsContiguous(items: seq<Item>, slices: seq<Slice>)
    requires Total(items) != 0.0
    requires SlicesOf(items, slices)
    ensures Contiguous(slices)
    ensures |slices| > 0 && slices[|slices| - 1].end == 360.0
  {
    assert items[..0] == [];
    forall i | 0 < i < |slices|
      ensures slices[i].start == slices[i - 1].end
    {
      StartAngleStep(items, i - 1);
    }
    if items == [] {
      assert false;
    }
    var n := |items|;
    StartAngleStep(items, n - 1);
    assert items[..n] == items;
    assert StartAngle(items, n) == Total(items) / Total(items) * 360.0;
    assert Total(items) / Total(items) == 1.0;
    assert slices[n - 1].end == StartAngle(items, n - 1) + items[n - 1].value / Total(items) * 360.0;
  }

  /** With non-negative weights and a positive total every slice lies
      between its start and end inside [0, 360], and the start angles never
      decrease along the dataset. */
  lemma PartitionIsOrdered(items: seq<Item>, slices: seq<Slice>)
    requires NonNegative(items) && Total(items) > 0.0
    requires SlicesOf(items, slices)
    ensures forall i :: 0 <= i < |slices| ==> 0.0 <= slices[i].start <= slices[i].end <= 360.0
    ensures forall i, j :: 0 <= i <= j < |slices| ==> slices[i].start <= slices[j].start
  {
    var t := Total(items);
    forall i | 0 <= i < |slices|
      ensures 0.0 <= slices[i].start <= slices[i].end <= 360.0
    {
      TotalOfPrefixBounds(items, i, i + 1);
      StartAngleStep(items, i);
      DivisionIsBounded(Total(items[..i]), t);
      DivisionIsBounded(Total(items[..i + 1]), t);
    }
    forall i, j | 0 <= i <= j < |slices|
      ensures slices[i].start <= slices[j].start
    {
      TotalOfPrefixBounds(items, i, j);
      DivisionIsMonotone(Total(items[..i]), Total(items[..j]), t);
    }
  }

  lemma DivisionIsBounded(a: real, t: real)
    requires 0.0 <= a <= t && t > 0.0
    ensures 0.0 <= a / t * 360.0 <= 360.0
  {
    assert a / t <= 1.0;
  }

  lemma DivisionIsMonotone(a: real, b: real, t: real)
    requires a <= b && t > 0.0
    ensures a / t * 360.0 <= b / t * 360.0
  {
  }

  /** A slice is drawn along its major arc exactly when its item holds more
      than half of the total weight; an item of exactly half ties to the
      small arc. */
  lemma LargeArcIffMoreThanHalf(items: seq<Item>, slices: seq<Slice>, i: nat)
    requires Total(items) > 0.0
    requires SlicesOf(items, slices)
    requires i < |slices|
    ensures LargeArcFlag(slices[i].start, slices[i].end) == 1 <==> 2.0 * items[i].value > Total(items)
  {
    ShareExceedsHalf(items[i].value, Total(items));
  }

  lemma ShareExceedsHalf(v: real, t: real)
    requires t > 0.0
    ensures v / t * 360.0 > 180.0 <==> 2.0 * v > t
  {
    assert v / t * 360.0 > 180.0 <==> v / t > 0.5;
    assert v / t > 0.5 <==> v > 0.5 * t;
  }

  /** Every item's slice pops out along its own bisector, which lies inside
      the slice. */
  lemma OffsetPointsAlongSlice(items: seq<Item>, slices: seq<Slice>, i: nat)
    requires NonNegative(items) && Total(items) > 0.0
    requires SlicesOf(items, slices)
    requires i < |slices|
    ensures slices[i].offset.OnCircle? && slices[i].offset.r == Lift
    ensures slices[i].start <= slices[i].offset.angle <= slices[i].end
  {
    PartitionIsOrdered(items, slices);
  }

  /** On the page's own dataset no item holds more than a quarter of the
      supply, so every slice is drawn along its minor arc. */
  lemma TokenomicsSlicesTakeSmallArcs()
    ensures Total(TokenomicsData) == 100.0
    ensures forall slices: seq<Slice> :: SlicesOf(TokenomicsData, slices) ==>
      forall i :: 0 <= i < |slices| ==> LargeArcFlag(slices[i].start, slices[i].end) == 0
  {
    TokenomicsTotalIsHundred();
    forall slices: seq<Slice>, i | SlicesOf(TokenomicsData, slices) && 0 <= i < |slices|
      ensures LargeArcFlag(slices[i].start, slices[i].end) == 0
    {
      LargeArcIffMoreThanHalf(TokenomicsData, slices, i);
    }
  }
}
