/** The tokenomics chart widget: what it draws for a given active slice,
    and the `active` selection state its pointer handlers update. */
module Chart {
  import opened Allocation
  import opened Geometry
  import opened Slices

  /** The centre of the 240 by 240 drawing. */
  const Center: real := 120.0
  const ActiveRadius: real := 106.0
  const InactiveRadius: real := 100.0
  const ActiveOpacity: real := 0.95
  const InactiveOpacity: real := 0.75

  /** One drawn wedge. `shift` is the translation applied to it: the
      slice's pop-out vector when it is the active one, none otherwise. */
  datatype Wedge = Wedge(radius: real, path: seq<PathCommand>, fill: string, opacity: real, shift: Point)

  /** One row of the legend. */
  datatype LegendRow = LegendRow(dot: string, name: string, value: real, isActive: bool)

  /** Everything the widget shows: the wedges, the selected item (its value
      and label in the centre of the donut and in the focus panel, its
      colour on the focus badge) and the legend. */
  datatype ChartView = ChartView(wedges: seq<Wedge>, selected: Item, legend: seq<LegendRow>)

  function WedgeFor(s: Slice, isActive: bool): Wedge
  {
    var r := if isActive then ActiveRadius else InactiveRadius;
    Wedge(r, ArcPath(Center, Center, r, s.start, s.end), s.color,
          if isActive then ActiveOpacity else InactiveOpacity,
          if isActive then s.offset else At(0.0, 0.0))
  }

  /** The markup of `TokenomicsChart` for the slices of `items` and the
      active index `active`. */
  function Render(items: seq<Item>, slices: seq<Slice>, active: nat): ChartView
    requires |slices| == |items| && active < |items|
  {
    ChartView(
      seq(|slices|, i requires 0 <= i < |slices| => WedgeFor(slices[i], i == active)),
      items[active],
      seq(|items|, i requires 0 <= i < |items| =>
        LegendRow(items[i].color, items[i].name, items[i].value, i == active)))
  }

  /** There is one wedge per slice, in order, each drawn over its own
      slice's angles in its colour; the active wedge alone has the larger
      radius, the higher opacity and the pop-out shift, and the others have
      the plain radius and opacity and stay in place; there is one legend
      row per item with the active one alone marked; and the centre and
      focus panel show the active item. */
  lemma RenderHighlightsActive(items: seq<Item>, slices: seq<Slice>, active: nat)
    requires |slices| == |items| && active < |items|
    ensures var v := Render(items, slices, active);
      && |v.wedges| == |slices| && |v.legend| == |items|
      && v.selected == items[active]
      && (forall i :: 0 <= i < |v.wedges| ==>
            && v.wedges[i].fill == slices[i].color
            && v.wedges[i].path == ArcPath(Center, Center, v.wedges[i].radius, slices[i].start, slices[i].end)
            && (v.wedges[i].radius == ActiveRadius <==> i == active)
            && (v.wedges[i].opacity == ActiveOpacity <==> i == active)
            && (i != active ==> v.wedges[i].radius == InactiveRadius && v.wedges[i].opacity == InactiveOpacity
                                && v.wedges[i].shift == At(0.0, 0.0)))
      && v.wedges[active].shift == slices[active].offset
      && (forall i :: 0 <= i < |v.legend| ==>
            && v.legend[i] == LegendRow(items[i].color, items[i].name, items[i].value, v.legend[i].isActive)
            && (v.legend[i].isActive <==> i == active))
  {
  }

  /** Exactly one wedge is drawn enlarged and exactly one legend row is
      marked active. */
  lemma ExactlyOneHighlighted(items: seq<Item>, slices: seq<Slice>, active: nat)
    requires |slices| == |items| && active < |items|
    ensures var v := Render(items, slices, active);
      && |set i | 0 <= i < |v.wedges| && v.wedges[i].radius == ActiveRadius| == 1
      && |set i | 0 <= i < |v.legend| && v.legend[i].isActive| == 1
  {
    var v := Render(items, slices, active);
    RenderHighlightsActive(items, slices, active);
    assert (set i | 0 <= i < |v.wedges| && v.wedges[i].radius == ActiveRadius) == {active};
    assert (set i | 0 <= i < |v.legend| && v.legend[i].isActive) == {active};
  }

  /** The two pointer gestures the wedges and legend rows listen to. */
  datatype Gesture = Hover | Click

  /** What was pointed at: a wedge of the donut or a row of the legend. */
  datatype Target = WedgeTarget | LegendTarget

  /** A pointer event on the wedge or legend row at position `index`. */
  datatype PointerEvent = PointerEvent(gesture: Gesture, target: Target, index: nat)

  /** The selection state of one mounted chart over the page's dataset. */
  class TokenomicsChart {
    var active: nat

    ghost predicate Valid()
      reads this
    {
      active < |TokenomicsData|
    }

    /** The first item is selected when the chart appears. */
    constructor ()
      ensures Valid() && active == 0
    {
      active := 0;
    }

    /** Every handler, hover or click, on a wedge or a legend row, selects
      the item it belongs to; selecting the active item again keeps it. */
    method Dispatch(e: PointerEvent)
      requires Valid()
      requires e.index < |TokenomicsData|
      modifies this
      ensures Valid() && active == e.index
    {
      active := e.index;
    }

    /** What the chart shows now for the given slices. */
    function View(slices: seq<Slice>): ChartView
      reads this
      requires Valid() && |slices| == |TokenomicsData|
    {
      Render(TokenomicsData, slices, active)
    }
  }

  /** The wedge outlines meet at the slice angles, so they leave no angular
      gap: wedge `i`'s arc ends on the rim at the angle where the outline of
      wedge `i - 1` starts, the first wedge's arc ends at 0 degrees and the
      last wedge's outline starts at 360 degrees. The points themselves need
      not coincide: the active wedge has the larger radius and is moved by
      its pop-out shift, and neither is covered here. */
  lemma WedgesMeet(items: seq<Item>, slices: seq<Slice>, active: nat)
    requires Total(items) != 0.0
    requires SlicesOf(items, slices) && active < |items|
    ensures var w := Render(items, slices, active).wedges;
      && (forall i :: 0 <= i < |w| ==>
            w[i].path[1].ArcTo? && w[i].path[1].to == OnCircle(Center, Center, w[i].radius, slices[i].start)
            && w[i].path[0] == MoveTo(OnCircle(Center, Center, w[i].radius, slices[i].end)))
      && (forall i :: 0 < i < |w| ==> w[i].path[1].to.angle == w[i - 1].path[0].to.angle)
      && w[0].path[1].to.angle == 0.0
      && w[|w| - 1].path[0].to.angle == 360.0
  {
    PartitionIsContiguous(items, slices);
  }

  /** The two-item dataset of 25 and 75. */
  const Scenario: seq<Item> := [Item("A", 25.0, "#ff0000"), Item("B", 75.0, "#00ff00")]

  /** For the 25/75 dataset the wedges cover [0, 90] and [90, 360]; the
      chart first shows "25%, A", and selecting the second item moves the
      label to "75%, B" and the enlarged wedge with it. */
  lemma TwoSliceScenario()
    ensures Total(Scenario) == 100.0
    ensures forall slices: seq<Slice> :: SlicesOf(Scenario, slices) ==>
      && slices[0].start == 0.0 && slices[0].end == 90.0
      && slices[1].start == 90.0 && slices[1].end == 360.0
      && Render(Scenario, slices, 0).selected.name == "A"
      && Render(Scenario, slices, 0).selected.value == 25.0
      && Render(Scenario, slices, 1).selected.name == "B"
      && Render(Scenario, slices, 1).selected.value == 75.0
      && Render(Scenario, slices, 1).wedges[1].radius == ActiveRadius
      && Render(Scenario, slices, 1).wedges[0].radius == InactiveRadius
  {
    var d := Scenario;
    assert Total(d[..0]) == 0.0;
    TotalOfPrefixStep(d, 0);
    TotalOfPrefixStep(d, 1);
    assert d[..2] == d;
    forall slices: seq<Slice> | SlicesOf(d, slices)
      ensures slices[0].start == 0.0 && slices[0].end == 90.0
      ensures slices[1].start == 90.0 && slices[1].end == 360.0
    {
      PartitionIsContiguous(d, slices);
      assert d[..0] == [];
    }
  }
}
