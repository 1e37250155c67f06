/**
 * Tick generation of an Axes (`add_ticks` in scene/axes.py and in the older diagram.py): for every multiple
 * of the spacing up to the axis length, a short segment across the axis, placed inside, outside or
 * straddling it.
 */
module Ticks {
  import opened Base
  import opened Geometry
  import opened Render

  const PlacementMessage := "placement must be 'inside', 'outside', or 'middle'"
  const ZeroStepMessage := "range() arg 3 must not be zero"

  /** The two tick loops: along the x axis (vertical ticks) and along the y axis (horizontal ticks). */
  datatype Axis = XAxis | YAxis

  predicate ValidPlacement(placement: string)
  {
    placement == "inside" || placement == "outside" || placement == "middle"
  }

  /** Whether the loop for `axis` runs for this orientation; any other orientation runs neither. */
  predicate Covers(orientation: string, axis: Axis)
  {
    orientation == "both" || (axis.XAxis? && orientation == "x") || (axis.YAxis? && orientation == "y")
  }

  /** Python's `range(start, stop, step)` for a non-zero step. */
  function PyRange(start: int, stop: int, step: int): seq<int>
    requires step != 0
    decreases if step > 0 then stop - start else start - stop
  {
    if (step > 0 && start < stop) || (step < 0 && start > stop) then [start] + PyRange(start + step, stop, step)
    else []
  }

  /** Element k of a range is start + k * step, and a range of positive step holds the values below `stop`, no further. */
  lemma {:induction false} PyRangeElements(start: int, stop: int, step: int)
    requires step > 0
    ensures var r := PyRange(start, stop, step);
      && (forall k | 0 <= k < |r| :: r[k] == start + k * step)
      && (start >= stop ==> r == [])
      && (start < stop ==> start + (|r| - 1) * step < stop <= start + |r| * step)
    decreases stop - start
  {
    var r := PyRange(start, stop, step);
    if start < stop {
      PyRangeElements(start + step, stop, step);
      var rest := PyRange(start + step, stop, step);
      assert r == [start] + rest;
      forall k | 0 <= k < |r|
        ensures r[k] == start + k * step
      {
        if k > 0 {
          assert r[k] == rest[k - 1];
          assert rest[k - 1] == start + step + (k - 1) * step;
        }
      }
      if start + step >= stop {
        assert |r| == 1;
      } else {
        assert start + step + (|rest| - 1) * step < stop <= start + step + |rest| * step;
      }
    }
  }

  /** Multiplication by a positive number keeps order. */
  lemma MulMonotone(a: int, b: int, d: int)
    requires a <= b && d > 0
    ensures a * d <= b * d
  {
    var k := b - a;
    assert b * d == a * d + k * d;
  }

  /** One more multiple. */
  lemma MulSucc(a: int, d: int)
    ensures (a + 1) * d == a * d + d
  {
  }

  /** Integer division characterised by its bounds. */
  lemma DivisionByBounds(q: int, n: int, d: int)
    requires d > 0 && 0 <= q && q * d <= n < (q + 1) * d
    ensures q == n / d
  {
    var q', r := n / d, n % d;
    assert n == q' * d + r && 0 <= r < d;
    if q < q' {
      MulMonotone(q + 1, q', d);
    } else if q' < q {
      MulMonotone(q' + 1, q, d);
    }
  }

  /**
   * The tick offsets along an axis of length `size` with a positive spacing: `size / spacing` of them
   * (none for a negative length), the k-th at (k + 1) * spacing.
   */
  lemma TickOffsets(spacing: int, size: int)
    requires spacing > 0
    ensures var r := PyRange(spacing, size + 1, spacing);
      && |r| == TickCount(size, spacing)
      && (forall k | 0 <= k < |r| :: r[k] == (k + 1) * spacing && r[k] <= size)
  {
    var r := PyRange(spacing, size + 1, spacing);
    PyRangeElements(spacing, size + 1, spacing);
    if spacing < size + 1 {
      var n := |r|;
      MulSucc(n - 1, spacing);
      MulSucc(n, spacing);
      DivisionByBounds(n, size, spacing);
      forall k | 0 <= k < n
        ensures r[k] == (k + 1) * spacing && r[k] <= size
      {
        MulSucc(k, spacing);
        MulMonotone(k, n - 1, spacing);
      }
    } else if size >= 0 {
      DivisionByBounds(0, size, spacing);
    }
  }

  /** The tick at offset `i` along `axis` from the origin `o`, or None for an unknown placement. */
  function TickAt(axis: Axis, o: Pt, i: int, length: real, placement: string, color: string): Option<AxesObject>
  {
    var at := i as real;
    match axis
    case XAxis =>
      if placement == "inside" then Some(TickObj(Pt(o.x + at, o.y), Pt(o.x + at, o.y + length), color))
      else if placement == "outside" then Some(TickObj(Pt(o.x + at, o.y), Pt(o.x + at, o.y - length), color))
      else if placement == "middle" then Some(TickObj(Pt(o.x + at, o.y - length / 2.0), Pt(o.x + at, o.y + length / 2.0), color))
      else None
    case YAxis =>
      if placement == "inside" then Some(TickObj(Pt(o.x, o.y + at), Pt(o.x + length, o.y + at), color))
      else if placement == "outside" then Some(TickObj(Pt(o.x, o.y + at), Pt(o.x - length, o.y + at), color))
      else if placement == "middle" then Some(TickObj(Pt(o.x - length / 2.0, o.y + at), Pt(o.x + length / 2.0, o.y + at), color))
      else None
  }

  /**
   * A tick exists exactly for the three placements. An x tick is vertical at x = o.x + i, a y tick
   * horizontal at y = o.y + i; across the axis it spans `length`, starting on the axis and pointing
   * inwards ("inside") or outwards ("outside"), or centred on the axis ("middle").
   */
  lemma TickShape(axis: Axis, o: Pt, i: int, length: real, placement: string, color: string)
    ensures var r := TickAt(axis, o, i, length, placement, color);
      && (r.Some? <==> ValidPlacement(placement))
      && (r.Some? ==> r.value.TickObj? && r.value.color == color)
      && (r.Some? && axis.XAxis? ==> r.value.start.x == r.value.end.x == o.x + i as real)
      && (r.Some? && axis.YAxis? ==> r.value.start.y == r.value.end.y == o.y + i as real)
      && (r.Some? ==>
            var across := if axis.XAxis? then r.value.end.y - r.value.start.y else r.value.end.x - r.value.start.x;
            var base := if axis.XAxis? then r.value.start.y else r.value.start.x;
            var axisLine := if axis.XAxis? then o.y else o.x;
            && across == (if placement == "outside" then -length else length)
            && (placement == "middle" ==> 2.0 * base + across == 2.0 * axisLine)
            && (placement != "middle" ==> base == axisLine))
  {
  }

  /** One tick per offset, in order. */
  function TickRun(axis: Axis, o: Pt, offsets: seq<int>, length: real, placement: string, color: string): (r: seq<AxesObject>)
    requires ValidPlacement(placement)
    ensures |r| == |offsets|
    ensures forall k | 0 <= k < |offsets| :: Some(r[k]) == TickAt(axis, o, offsets[k], length, placement, color)
    ensures forall k | 0 <= k < |r| :: r[k].TickObj?
  {
    if offsets == [] then []
    else TickRun(axis, o, offsets[..|offsets| - 1], length, placement, color)
         + [TickAt(axis, o, offsets[|offsets| - 1], length, placement, color).value]
  }

  /**
   * What one loop appends, or the error it raises: `range` rejects a zero spacing, and an unknown
   * placement raises at the first tick, so only a loop with at least one offset can reject it.
   */
  function AxisTicks(axis: Axis, o: Pt, size: int, spacing: int, length: real, placement: string, color: string): Result<seq<AxesObject>>
  {
    if spacing == 0 then Failure(ValueError(ZeroStepMessage))
    else
      var offsets := PyRange(spacing, size + 1, spacing);
      if offsets == [] then Success([])
      else if !ValidPlacement(placement) then Failure(ValueError(PlacementMessage))
      else Success(TickRun(axis, o, offsets, length, placement, color))
  }

  /** What `add_ticks` appends to the objects of an axes at `o` of the given width and height, or its error. */
  function TicksFor(o: Pt, width: int, height: int, spacing: int, length: real, color: string,
                    orientation: string, placement: string): Result<seq<AxesObject>>
  {
    var xs := if Covers(orientation, XAxis) then AxisTicks(XAxis, o, width, spacing, length, placement, color) else Success([]);
    if xs.Failure? then xs
    else
      var ys := if Covers(orientation, YAxis) then AxisTicks(YAxis, o, height, spacing, length, placement, color) else Success([]);
      if ys.Failure? then ys else Success(xs.value + ys.value)
  }

  /** The number of multiples of a positive spacing in 1 .. size. */
  function TickCount(size: int, spacing: int): nat
    requires spacing > 0
  {
    if size < 0 then 0 else size / spacing
  }

  /** With a positive spacing and a known placement, one loop appends size / spacing ticks (none for a negative size), the k-th at offset (k + 1) * spacing. */
  lemma AxisTicksLayout(axis: Axis, o: Pt, size: int, spacing: int, length: real, placement: string, color: string)
    requires spacing > 0 && ValidPlacement(placement)
    ensures var r := AxisTicks(axis, o, size, spacing, length, placement, color);
      && r.Success?
      && |r.value| == TickCount(size, spacing)
      && (forall k | 0 <= k < |r.value| :: Some(r.value[k]) == TickAt(axis, o, (k + 1) * spacing, length, placement, color))
  {
    TickOffsets(spacing, size);
  }

  /**
   * With a positive spacing and a known placement, `add_ticks` succeeds: first width / spacing x ticks at
   * x = o.x + spacing, o.x + 2 * spacing, ..., then height / spacing y ticks likewise, each loop only when
   * the orientation asks for it.
   */
  lemma TicksLayout(o: Pt, width: int, height: int, spacing: int, length: real, color: string,
                    orientation: string, placement: string)
    requires spacing > 0 && ValidPlacement(placement)
    ensures var r := TicksFor(o, width, height, spacing, length, color, orientation, placement);
      var nx := if Covers(orientation, XAxis) then TickCount(width, spacing) else 0;
      var ny := if Covers(orientation, YAxis) then TickCount(height, spacing) else 0;
      && r.Success?
      && |r.value| == nx + ny
      && (forall k | 0 <= k < nx :: Some(r.value[k]) == TickAt(XAxis, o, (k + 1) * spacing, length, placement, color))
      && (forall k | nx <= k < nx + ny :: Some(r.value[k]) == TickAt(YAxis, o, (k - nx + 1) * spacing, length, placement, color))
  {
    var xr := AxisTicks(XAxis, o, width, spacing, length, placement, color);
    var yr := AxisTicks(YAxis, o, height, spacing, length, placement, color);
    AxisTicksLayout(XAxis, o, width, spacing, length, placement, color);
    AxisTicksLayout(YAxis, o, height, spacing, length, placement, color);
    var xs := if Covers(orientation, XAxis) then xr.value else [];
    var ys := if Covers(orientation, YAxis) then yr.value else [];
    assert TicksFor(o, width, height, spacing, length, color, orientation, placement) == Success(xs + ys);
    var nx := |xs|;
    forall k | 0 <= k < nx
      ensures Some((xs + ys)[k]) == TickAt(XAxis, o, (k + 1) * spacing, length, placement, color)
    {
      calc {
        Some((xs + ys)[k]);
        Some(xr.value[k]);
        TickAt(XAxis, o, (k + 1) * spacing, length, placement, color);
      }
    }
    forall k | nx <= k < nx + |ys|
      ensures Some((xs + ys)[k]) == TickAt(YAxis, o, (k - nx + 1) * spacing, length, placement, color)
    {
      calc {
        Some((xs + ys)[k]);
        Some(yr.value[k - nx]);
        TickAt(YAxis, o, (k - nx + 1) * spacing, length, placement, color);
      }
    }
  }

  /** The loop for one axis rejects an unknown placement exactly when it has a tick to draw. */
  lemma AxisTicksErrors(axis: Axis, o: Pt, size: int, spacing: int, length: real, placement: string, color: string)
    requires spacing > 0 && !ValidPlacement(placement)
    ensures var r := AxisTicks(axis, o, size, spacing, length, placement, color);
      (r.Failure? <==> size >= spacing) && (r.Failure? ==> r.error == ValueError(PlacementMessage))
      && (r.Success? ==> r.value == [])
  {
    PyRangeElements(spacing, size + 1, spacing);
  }

  /**
   * The error cases: a zero spacing fails for any orientation that runs a loop, an unknown placement fails
   * exactly when some loop that runs has a tick, and an orientation other than x, y and both adds nothing.
   */
  lemma TicksErrors(o: Pt, width: int, height: int, spacing: int, length: real, color: string,
                    orientation: string, placement: string)
    ensures var r := TicksFor(o, width, height, spacing, length, color, orientation, placement);
      && (spacing == 0 && (Covers(orientation, XAxis) || Covers(orientation, YAxis)) ==> r == Failure(ValueError(ZeroStepMessage)))
      && (spacing > 0 && !ValidPlacement(placement) ==>
            (r.Failure? <==> (Covers(orientation, XAxis) && width >= spacing) || (Covers(orientation, YAxis) && height >= spacing))
            && (r.Failure? ==> r.error == ValueError(PlacementMessage)))
      && (!Covers(orientation, XAxis) && !Covers(orientation, YAxis) ==> r.Success? && r.value == [])
  {
    if spacing > 0 && !ValidPlacement(placement) {
      AxisTicksErrors(XAxis, o, width, spacing, length, placement, color);
      AxisTicksErrors(YAxis, o, height, spacing, length, placement, color);
    }
  }

  /** One turn of a tick loop: the segment for offset `i` on the given axis with a known placement. */
  method TickSegment(axis: Axis, o: Pt, offset: int, length: real, placement: string, color: string) returns (tick: AxesObject)
    requires ValidPlacement(placement)
    ensures Some(tick) == TickAt(axis, o, offset, length, placement, color)
  {
    var i := offset as real;
    var start, end;
    if axis.XAxis? {
      // x-axis ticks: vertical segments at x = ox + i
      if placement == "inside" {
        start, end := Pt(o.x + i, o.y), Pt(o.x + i, o.y + length);
      } else if placement == "outside" {
        start, end := Pt(o.x + i, o.y), Pt(o.x + i, o.y - length);
      } else {
        start, end := Pt(o.x + i, o.y - length / 2.0), Pt(o.x + i, o.y + length / 2.0);
      }
    } else {
      // y-axis ticks: horizontal segments at y = oy + i
      if placement == "inside" {
        start, end := Pt(o.x, o.y + i), Pt(o.x + length, o.y + i);
      } else if placement == "outside" {
        start, end := Pt(o.x, o.y + i), Pt(o.x - length, o.y + i);
      } else {
        start, end := Pt(o.x - length / 2.0, o.y + i), Pt(o.x + length / 2.0, o.y + i);
      }
    }
    tick := TickObj(start, end, color);
  }

  /** One turn of a tick loop: the tick for offset k is appended after the ticks for the earlier offsets. */
  method AppendTick(objects: seq<AxesObject>, axis: Axis, o: Pt, offsets: seq<int>, k: nat, length: real,
                    placement: string, color: string, done: seq<AxesObject>) returns (result: seq<AxesObject>)
    requires ValidPlacement(placement) && k < |offsets|
    requires done == objects + TickRun(axis, o, offsets[..k], length, placement, color)
    ensures result == objects + TickRun(axis, o, offsets[..k + 1], length, placement, color)
  {
    var tick := TickSegment(axis, o, offsets[k], length, placement, color);
    assert offsets[..k + 1][..k] == offsets[..k];
    result := done + [tick];
  }

  /**
   * One `add_ticks` loop, appending to `objects` one tick at a time. An error leaves the objects as they
   * were: a zero spacing is rejected before any tick, an unknown placement at the first tick.
   */
  method AppendAxisTicks(objects: seq<AxesObject>, axis: Axis, o: Pt, size: int, spacing: int, length: real,
                         placement: string, color: string)
    returns (result: seq<AxesObject>, outcome: Outcome)
    ensures var r := AxisTicks(axis, o, size, spacing, length, placement, color);
      && (r.Success? ==> outcome == Pass && result == objects + r.value)
      && (r.Failure? ==> outcome == Fail(r.error) && result == objects)
  {
    result := objects;
    outcome := Pass;
    if spacing == 0 {
      outcome := Fail(ValueError(ZeroStepMessage));
      return;
    }
    var offsets := PyRange(spacing, size + 1, spacing);
    var k := 0;
    while k < |offsets|
      invariant 0 <= k <= |offsets|
      invariant ValidPlacement(placement) ==> result == objects + TickRun(axis, o, offsets[..k], length, placement, color)
      invariant !ValidPlacement(placement) ==> k == 0 && result == objects
    {
      if !ValidPlacement(placement) {
        outcome := Fail(ValueError(PlacementMessage));
        return;
      }
      result := AppendTick(objects, axis, o, offsets, k, length, placement, color, result);
      k := k + 1;
    }
    assert offsets[..k] == offsets;
  }

  /** `add_ticks`: the x loop, then the y loop, each when the orientation asks for it. */
  method AppendTicks(objects: seq<AxesObject>, o: Pt, width: int, height: int, spacing: int, length: real,
                     color: string, orientation: string, placement: string)
    returns (result: seq<AxesObject>, outcome: Outcome)
    ensures var r := TicksFor(o, width, height, spacing, length, color, orientation, placement);
      && (r.Success? ==> outcome == Pass && result == objects + r.value)
      && (r.Failure? ==> outcome == Fail(r.error) && result == objects)
  {
    result, outcome := objects, Pass;
    if Covers(orientation, XAxis) {
      result, outcome := AppendAxisTicks(result, XAxis, o, width, spacing, length, placement, color);
      if outcome.Fail? {
        return;
      }
    }
    if Covers(orientation, YAxis) {
      var withX := result;
      result, outcome := AppendAxisTicks(result, YAxis, o, height, spacing, length, placement, color);
      if outcome.Fail? {
        // a y loop that fails after a successful x loop: the x loop had no tick to draw
        if Covers(orientation, XAxis) && spacing > 0 {
          AxisTicksErrors(XAxis, o, width, spacing, length, placement, color);
        }
        assert withX == objects;
        return;
      }
      assert result == withX + (if Covers(orientation, YAxis) then AxisTicks(YAxis, o, height, spacing, length, placement, color).value else []);
    }
  }

  /** Whatever `add_ticks` appends is a tick. */
  lemma OnlyTicks(o: Pt, width: int, height: int, spacing: int, length: real, color: string,
                  orientation: string, placement: string)
    ensures var r := TicksFor(o, width, height, spacing, length, color, orientation, placement);
      r.Success? ==> forall k | 0 <= k < |r.value| :: r.value[k].TickObj?
  {
  }
}
