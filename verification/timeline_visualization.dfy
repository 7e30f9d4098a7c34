/**
 * The timeline of tasks (`TimelineVisualization`): its zoom buttons, the
 * drag-to-pan gesture over the viewport, and the aging class of a task.
 * Coordinates, zoom and viewport are reals; times are milliseconds.
 */
module TimelineVisualization {
  import opened Wrappers

  const MinZoom: real := 0.5
  const MaxZoom: real := 4.0

  function Min(a: real, b: real): real { if a < b then a else b }

  function Max(a: real, b: real): real { if a < b then b else a }

  /** `Math.min(zoomLevel * 1.5, 4)`: never above the maximum, and never below where it was for a positive zoom. */
  function ZoomIn(z: real): (r: real)
    ensures r <= MaxZoom
    ensures 0.0 < z <= MaxZoom ==> z <= r
    ensures MinZoom <= z ==> MinZoom <= r
  {
    Min(z * 1.5, MaxZoom)
  }

  /** `Math.max(zoomLevel / 1.5, 0.5)`: never below the minimum, and never above where it was for a zoom within range. */
  function ZoomOut(z: real): (r: real)
    ensures MinZoom <= r
    ensures MinZoom <= z ==> r <= z
    ensures z <= MaxZoom ==> r <= MaxZoom
  {
    Max(z / 1.5, MinZoom)
  }

  /** Zooming in and back out restores the zoom, unless the zoom in was cut at the maximum. */
  lemma ZoomInOutRestores(z: real)
    requires MinZoom <= z && z * 1.5 <= MaxZoom
    ensures ZoomOut(ZoomIn(z)) == z
  {
  }

  /** Zooming out and back in restores the zoom, unless the zoom out was cut at the minimum. */
  lemma ZoomOutInRestores(z: real)
    requires z / 1.5 >= MinZoom && z <= MaxZoom
    ensures ZoomIn(ZoomOut(z)) == z
  {
  }

  /** Where a drag began: the pointer's x and the viewport at that moment. */
  datatype DragStart = DragStart(x: real, viewport: real)

  /** The viewport a drag moves to: back by the pointer's travel scaled by the zoom, never before 0. */
  function PannedViewport(d: DragStart, clientX: real, zoom: real): (v: real)
    requires zoom > 0.0
    ensures v >= 0.0
    ensures clientX == d.x && d.viewport >= 0.0 ==> v == d.viewport
    ensures clientX >= d.x ==> v <= Max(d.viewport, 0.0)
  {
    Max(0.0, d.viewport - (clientX - d.x) / zoom)
  }

  datatype Aging = Normal | Warning | Critical | Overdue

  function AgingRank(a: Aging): nat {
    match a
    case Normal => 0
    case Warning => 1
    case Critical => 2
    case Overdue => 3
  }

  /**
   * `getTaskAging` at clock reading `now`: the share of the planned
   * duration already elapsed, in percent, against 100, 80 and 60. A task of
   * zero duration divides by zero: past its start it is overdue
   * (`Infinity`), otherwise normal (`-Infinity` or `NaN`).
   */
  function TaskAging(startDate: int, endDate: int, now: int): (a: Aging)
    ensures endDate > startDate ==> (a == Overdue <==> now > endDate)
    ensures endDate > startDate ==> (a == Critical <==> 5 * (now - startDate) > 4 * (endDate - startDate) && now <= endDate)
    ensures endDate > startDate ==> (a == Warning <==> 3 * (endDate - startDate) < 5 * (now - startDate) <= 4 * (endDate - startDate))
    ensures endDate > startDate ==> (a == Normal <==> 5 * (now - startDate) <= 3 * (endDate - startDate))
    ensures endDate == startDate ==> (a == Overdue <==> now > startDate) && (a != Overdue ==> a == Normal)
  {
    var totalDuration := endDate - startDate;
    var elapsed := now - startDate;
    if totalDuration == 0 then
      if elapsed > 0 then Overdue else Normal
    else
      var agingPercentage := (elapsed as real / totalDuration as real) * 100.0;
      PercentAbove(elapsed as real, totalDuration as real, 100.0);
      PercentAbove(elapsed as real, totalDuration as real, 80.0);
      PercentAbove(elapsed as real, totalDuration as real, 60.0);
      if agingPercentage > 100.0 then Overdue
      else if agingPercentage > 80.0 then Critical
      else if agingPercentage > 60.0 then Warning
      else Normal
  }

  /** For a positive duration, the elapsed share in percent exceeds `k` exactly when `100 * elapsed > k * duration`. */
  lemma PercentAbove(e: real, t: real, k: real)
    ensures t > 0.0 ==> ((e / t) * 100.0 > k <==> 100.0 * e > k * t)
  {
    if t > 0.0 {
      var x := (e / t) * 100.0;
      assert x * t == 100.0 * e;
      if x > k {
        assert x * t > k * t;
      } else {
        assert x * t <= k * t;
      }
    }
  }

  /** For a task that ends after it starts, aging only gets worse as time passes. */
  lemma AgingMonotone(startDate: int, endDate: int, now1: int, now2: int)
    requires endDate > startDate && now1 <= now2
    ensures AgingRank(TaskAging(startDate, endDate, now1)) <= AgingRank(TaskAging(startDate, endDate, now2))
  {
    var t := (endDate - startDate) as real;
    var p1 := ((now1 - startDate) as real / t) * 100.0;
    var p2 := ((now2 - startDate) as real / t) * 100.0;
    assert (now1 - startDate) as real <= (now2 - startDate) as real;
    assert p1 <= p2 by {
      DivMonotone((now1 - startDate) as real, (now2 - startDate) as real, t);
    }
  }

  lemma DivMonotone(a: real, b: real, t: real)
    requires a <= b && t > 0.0
    ensures a / t <= b / t
  {
    assert b / t - a / t == (b - a) / t;
  }

  /** The timeline's view state. */
  class Timeline {
    var zoomLevel: real
    var viewportStart: real
    var isDragging: bool
    var dragStart: Option<DragStart>

    /** Zoom within its bounds, viewport never before 0, and a drag start recorded exactly while dragging. */
    predicate Valid()
      reads this
    {
      && MinZoom <= zoomLevel <= MaxZoom
      && viewportStart >= 0.0
      && (isDragging <==> dragStart.Some?)
      && (dragStart.Some? ==> dragStart.value.viewport >= 0.0)
    }

    constructor ()
      ensures zoomLevel == 1.0 && viewportStart == 0.0 && !isDragging && dragStart.None?
      ensures Valid()
    {
      zoomLevel := 1.0;
      viewportStart := 0.0;
      isDragging := false;
      dragStart := None;
    }

    /** `handleZoomIn`: the new zoom is stored and is what `onZoomChange` receives. */
    method HandleZoomIn() returns (reported: real)
      requires Valid()
      modifies this
      ensures Valid()
      ensures zoomLevel == ZoomIn(old(zoomLevel)) && reported == zoomLevel
      ensures viewportStart == old(viewportStart) && isDragging == old(isDragging) && dragStart == old(dragStart)
    {
      var newZoom := Min(zoomLevel * 1.5, MaxZoom);
      zoomLevel := newZoom;
      reported := newZoom;
    }

    /** `handleZoomOut`: the new zoom is stored and is what `onZoomChange` receives. */
    method HandleZoomOut() returns (reported: real)
      requires Valid()
      modifies this
      ensures Valid()
      ensures zoomLevel == ZoomOut(old(zoomLevel)) && reported == zoomLevel
      ensures viewportStart == old(viewportStart) && isDragging == old(isDragging) && dragStart == old(dragStart)
    {
      var newZoom := Max(zoomLevel / 1.5, MinZoom);
      zoomLevel := newZoom;
      reported := newZoom;
    }

    /** `handleMouseDown`: dragging starts from the pointer's x and the current viewport. */
    method HandleMouseDown(clientX: real)
      requires Valid()
      modifies this
      ensures Valid()
      ensures isDragging && dragStart == Some(DragStart(clientX, old(viewportStart)))
      ensures zoomLevel == old(zoomLevel) && viewportStart == old(viewportStart)
    {
      isDragging := true;
      dragStart := Some(DragStart(clientX, viewportStart));
    }

    /** `handleMouseMove`: outside a drag nothing changes; during one the viewport follows the pointer. */
    method HandleMouseMove(clientX: real)
      requires Valid()
      modifies this
      ensures Valid()
      ensures !old(isDragging) ==> viewportStart == old(viewportStart)
      ensures old(isDragging) ==> viewportStart == PannedViewport(old(dragStart).value, clientX, zoomLevel)
      ensures zoomLevel == old(zoomLevel) && isDragging == old(isDragging) && dragStart == old(dragStart)
    {
      if !isDragging || dragStart.None? {
        return;
      }
      var deltaX := clientX - dragStart.value.x;
      var newViewport := dragStart.value.viewport - deltaX / zoomLevel;
      viewportStart := Max(0.0, newViewport);
    }

    /** `handleMouseUp`: the drag ends and its start is forgotten. */
    method HandleMouseUp()
      requires Valid()
      modifies this
      ensures Valid()
      ensures !isDragging && dragStart.None?
      ensures zoomLevel == old(zoomLevel) && viewportStart == old(viewportStart)
    {
      isDragging := false;
      dragStart := None;
    }
  }
}
