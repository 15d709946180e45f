/**
 * The `MouseTracker` widget: the target registry, the click reporter that
 * sends the click's X and then, on a timer, its Y over the serial port, and
 * the serial port chosen at start-up. Qt's callbacks become event methods:
 * `Click` (a mouse press), `SpawnTick` (the image timer), `ExpiryTick` (the
 * removal timer) and `YTimerFire` (the Y-send timer).
 *
 * The registry is kept as written: a spawn appends the counter's old value
 * to `imageIds` but files the rectangle under the incremented value, and a
 * hit removes a rectangle without touching `imageIds`, so the id list and
 * the rectangle map do not describe the same targets.
 */
module Tracker {
  import opened NumberText
  import opened Geometry
  import opened Registry
  import opened PortSelection

  /** `QMouseEvent::button()`: only a left or right press reports its coordinates. */
  datatype Button = LeftButton | RightButton | MiddleButton | OtherButton

  predicate Reports(b: Button) {
    b == LeftButton || b == RightButton
  }

  /** The id list holds increasing values in 0 .. c-1, oldest first. */
  predicate IdsBelow(ids: seq<int>, c: int) {
    && (forall i :: 0 <= i < |ids| ==> 0 <= ids[i] < c)
    && (forall i, j :: 0 <= i < j < |ids| ==> ids[i] < ids[j])
  }

  class MouseTracker {
    /** The serial port chosen at start-up ("" when none) and whether it is open. */
    var portName: string
    var portOpen: bool
    /** Everything written to the serial port, one entry per `write`. */
    var output: seq<string>
    /** The coordinates of the last reporting click. */
    var xData: int
    var yData: int
    /** Whether the Y-send timer is running. */
    var yTimerArmed: bool
    /** The target registry. */
    var imageRects: map<int, Rect>
    var imageIds: seq<int>
    var imageIdCounter: int

    /**
     * What every event keeps: the counter is never negative, every map key
     * lies in 0 .. counter and the id list holds distinct values below the
     * counter, oldest first.
     */
    ghost predicate Valid()
      reads this
    {
      && 0 <= imageIdCounter
      && KeysWithin(imageRects, imageIdCounter)
      && IdsBelow(imageIds, imageIdCounter)
    }

    /**
     * Start-up with the enumerated port names `ports`; `openOk` stands for the
     * outcome of opening the chosen port. The C++ members `x_data` and `y_data`
     * start uninitialised; here they start at 0, and no event reads them
     * before a left or right press has set them.
     */
    constructor (ports: seq<string>, openOk: bool)
      ensures Valid()
      ensures portName == "" <==> forall i :: 0 <= i < |ports| ==> !IsComName(ports[i])
      ensures portName != "" ==> IsHighestPort(ports, portName)
      ensures portOpen == (portName != "" && openOk)
      ensures output == [] && !yTimerArmed
      ensures imageRects == map[] && imageIds == [] && imageIdCounter == 0
    {
      var highest := SelectPort(ports);
      portName := highest;
      portOpen := highest != "" && openOk;
      output := [];
      xData, yData := 0, 0;
      yTimerArmed := false;
      imageRects := map[];
      imageIds := [];
      imageIdCounter := 0;
    }

    /** `sendXData`: with the port open, write the X payload and (re)start the Y timer. */
    method SendXData()
      modifies this`output, this`yTimerArmed
      ensures portOpen ==> output == old(output) + [Payload(xData)] && yTimerArmed
      ensures !portOpen ==> output == old(output) && yTimerArmed == old(yTimerArmed)
    {
      var data := Payload(xData);
      if portOpen {
        output := output + [data];
        yTimerArmed := true;
      }
    }

    /** `sendYData`: with the port open, write the Y payload and stop the Y timer. */
    method SendYData()
      modifies this`output, this`yTimerArmed
      ensures portOpen ==> output == old(output) + [Payload(yData)] && !yTimerArmed
      ensures !portOpen ==> output == old(output) && yTimerArmed == old(yTimerArmed)
    {
      var data := Payload(yData);
      if portOpen {
        output := output + [data];
        yTimerArmed := false;
      }
    }

    /** The Y-send timer's timeout; a stopped timer does not fire. */
    method YTimerFire()
      modifies this`output, this`yTimerArmed
      ensures old(yTimerArmed) && portOpen ==> output == old(output) + [Payload(yData)] && !yTimerArmed
      ensures !old(yTimerArmed) || !portOpen ==> output == old(output) && yTimerArmed == old(yTimerArmed)
    {
      if yTimerArmed {
        SendYData();
      }
    }

    /**
     * The non-const `QMap::operator[]` on `imageRects`: reads the rectangle
     * under `key`, first inserting an empty one when the key is missing.
     * It is only the step of the hit-test loop, which calls it with keys
     * below `KeyBound` and restores `Valid()` itself; it is not an event.
     */
    method RectAt(key: int) returns (r: Rect)
      modifies this`imageRects
      ensures imageRects == if key in old(imageRects) then old(imageRects) else old(imageRects)[key := EmptyRect]
      ensures key in imageRects && r == imageRects[key]
    {
      if key !in imageRects {
        imageRects := imageRects[key := EmptyRect];
      }
      r := imageRects[key];
    }

    /**
     * The hit-test loop of `mousePressEvent`: scans keys 0, 1, 2, ... through
     * `operator[]` and removes the first rectangle that contains the point.
     * Returns the removed key, if any.
     */
    method HitTest(px: int, py: int) returns (removed: Option<int>)
      requires Valid()
      modifies this`imageRects
      ensures Valid()
      ensures removed.Some? ==> IsFirstHit(old(imageRects), px, py, removed.value)
      ensures removed.None? ==> NoHit(old(imageRects), px, py)
      ensures imageRects == HitTestResult(old(imageRects), removed)
    {
      ghost var m0 := imageRects;
      ScanStart(m0, px, py, imageIdCounter);
      var i := 0;
      while i < |imageRects|
        invariant Scanned(m0, imageRects, i, px, py)
        decreases KeyBound(m0) - i
      {
        ScanStep(m0, imageRects, i, px, py, imageIdCounter);
        ghost var before := imageRects;
        var r := RectAt(i);
        if Contains(r, px, py) {
          ScanHit(m0, before, i, px, py, imageIdCounter);
          imageRects := imageRects - {i};
          removed := Some(i);
          return;
        }
        ScanNext(m0, before, i, px, py);
        i := i + 1;
      }
      ScanMiss(m0, imageRects, i, px, py, imageIdCounter);
      removed := None;
    }

    /**
     * `mousePressEvent`: a left or right press records the position and sends
     * X; a press of any button then runs the hit test.
     */
    method Click(button: Button, px: int, py: int) returns (removed: Option<int>)
      requires Valid()
      modifies this`xData, this`yData, this`output, this`yTimerArmed, this`imageRects
      ensures Valid()
      ensures Reports(button) ==> xData == px && yData == py
      ensures !Reports(button) ==> xData == old(xData) && yData == old(yData)
      ensures output == if Reports(button) && portOpen then old(output) + [Payload(px)] else old(output)
      ensures yTimerArmed == if Reports(button) && portOpen then true else old(yTimerArmed)
      ensures removed.Some? ==> IsFirstHit(old(imageRects), px, py, removed.value)
      ensures removed.None? ==> NoHit(old(imageRects), px, py)
      ensures imageRects == HitTestResult(old(imageRects), removed)
      ensures imageIds == old(imageIds) && imageIdCounter == old(imageIdCounter)
    {
      if Reports(button) {
        xData := px;
        yData := py;
        SendXData();
      }
      removed := HitTest(px, py);
    }

    /**
     * `displayRandomImage`, with the random draws as parameters in their
     * ranges and `imageOk` for whether the target image loaded. A loaded
     * image appends the old counter to the id list and files the new
     * rectangle under the incremented counter, a key not yet in the map.
     */
    method SpawnTick(rx: int, ry: int, rx2: int, ry2: int, imageOk: bool)
      requires Valid()
      requires 0 <= rx < DrawWidth && 0 <= ry < DrawHeight
      requires 0 <= rx2 < RetryWidth && 0 <= ry2 < RetryHeight
      modifies this`imageRects, this`imageIds, this`imageIdCounter
      ensures Valid()
      ensures !imageOk ==>
        imageRects == old(imageRects) && imageIds == old(imageIds) && imageIdCounter == old(imageIdCounter)
      ensures imageOk ==> imageIds == old(imageIds) + [old(imageIdCounter)]
      ensures imageOk ==> imageIdCounter == old(imageIdCounter) + 1
      ensures imageOk ==> old(imageIdCounter) + 1 !in old(imageRects)
      ensures imageOk ==> var p := SpawnPosition(rx, ry, rx2, ry2);
        imageRects == old(imageRects)[imageIdCounter := TargetAt(p.0, p.1)]
      ensures imageOk ==> InsideWindow(imageRects[imageIdCounter])
    {
      var p := SpawnPosition(rx, ry, rx2, ry2);
      if !imageOk {
        return;
      }
      imageIds := imageIds + [imageIdCounter];
      imageIdCounter := imageIdCounter + 1;
      imageRects := imageRects[imageIdCounter := TargetAt(p.0, p.1)];
    }

    /**
     * `removeOldestImage`: takes the head of the id list, the oldest id it
     * holds, and removes that key from the map if it is there.
     */
    method ExpiryTick()
      requires Valid()
      modifies this`imageRects, this`imageIds
      ensures Valid()
      ensures old(imageIds) == [] ==> imageIds == [] && imageRects == old(imageRects)
      ensures old(imageIds) != [] ==> imageIds == old(imageIds)[1..]
      ensures old(imageIds) != [] ==> imageRects == old(imageRects) - {old(imageIds)[0]}
      ensures old(imageIds) != [] ==> forall i :: 0 < i < |old(imageIds)| ==> old(imageIds)[0] < old(imageIds)[i]
    {
      if imageIds != [] {
        var oldest := imageIds[0];
        imageIds := imageIds[1..];
        imageRects := imageRects - {oldest};
      }
    }
  }
}
