/**
 * Concrete event sequences for the tracker, with the state each one leaves behind.
 */
module Scenarios {
  import opened NumberText
  import opened Geometry
  import opened Registry
  import opened PortSelection
  import opened Tracker

  /**
   * Two presses before the Y timer fires: both X values go out, then one Y,
   * that of the second press, because the second press overwrote `y_data`
   * and restarted the timer.
   */
  method TwoClicksBeforeTimer(x1: int, y1: int, x2: int, y2: int) returns (log: seq<string>)
    ensures log == [Payload(x1), Payload(x2), Payload(y2)]
  {
    var t := new MouseTracker(["COM3"], true);
    assert IsComName(["COM3"][0]);
    var _ := t.Click(LeftButton, x1, y1);
    var _ := t.Click(RightButton, x2, y2);
    t.YTimerFire();
    log := t.output;
  }

  /** Without a COM port nothing is written and the Y timer never starts. */
  method NoComPort(px: int, py: int) returns (log: seq<string>, armed: bool)
    ensures log == [] && !armed
  {
    var ports := ["LPT1"];
    assert !IsComName(ports[0]) by {
      assert ports[0][..3][0] == 'L';
    }
    var t := new MouseTracker(ports, true);
    var _ := t.Click(LeftButton, px, py);
    t.YTimerFire();
    log, armed := t.output, t.yTimerArmed;
  }

  /** A middle press after a left press runs the hit test but leaves the reported position and the log alone. */
  method MiddlePressReportsNothing(x1: int, y1: int, x2: int, y2: int) returns (log: seq<string>, x: int, y: int)
    ensures log == [Payload(x1)] && x == x1 && y == y1
  {
    var t := new MouseTracker(["COM1"], true);
    assert IsComName(["COM1"][0]);
    var _ := t.Click(LeftButton, x1, y1);
    var _ := t.Click(MiddleButton, x2, y2);
    log, x, y := t.output, t.xData, t.yData;
  }

  /**
   * "COM5" and "COM05" both carry the number 5, more than "COM2"; the
   * earlier of the two is chosen.
   */
  method PortChoice() returns (name: string)
    ensures name == "COM5"
  {
    var ports := ["COM5", "COM05", "COM2"];
    assert IsHighestAt(ports, 0) by {
      assert ports[0][3..] == "5" && ports[1][3..] == "05" && ports[2][3..] == "2";
      assert PortNumber(ports[0]) == 5 && PortNumber(ports[1]) == 5 && PortNumber(ports[2]) == 2;
    }
    var t := new MouseTracker(ports, true);
    HighestPortUnique(ports, t.portName, "COM5");
    name := t.portName;
  }

  /**
   * Five spawns and two expiries: ids 0 .. 4 went to the list and keys
   * 1 .. 5 to the map. The first expiry takes id 0, which has no rectangle,
   * the second removes key 1, so four rectangles remain and the newest, key
   * 5, has no list entry.
   */
  method FiveSpawnsTwoExpiries() returns (counter: int, ids: seq<int>, keys: set<int>)
    ensures counter == 5 && ids == [2, 3, 4] && keys == {2, 3, 4, 5}
  {
    var t := new MouseTracker([], true);
    t.SpawnTick(10, 10, 0, 0, true);
    t.SpawnTick(20, 20, 0, 0, true);
    t.SpawnTick(30, 30, 0, 0, true);
    t.SpawnTick(40, 40, 0, 0, true);
    t.SpawnTick(50, 50, 0, 0, true);
    t.ExpiryTick();
    t.ExpiryTick();
    counter, ids, keys := t.imageIdCounter, t.imageIds, t.imageRects.Keys;
  }

  /** A spawn whose image fails to load changes nothing. */
  method FailedLoad() returns (counter: int, ids: seq<int>, rects: map<int, Rect>)
    ensures counter == 0 && ids == [] && rects == map[]
  {
    var t := new MouseTracker([], true);
    t.SpawnTick(452, 10, 299, 199, false);
    counter, ids, rects := t.imageIdCounter, t.imageIds, t.imageRects;
  }

  /** A tracker started with the single port "COM4", which opens: the port is open and nothing is registered or written. */
  method OpenTracker() returns (t: MouseTracker)
    ensures fresh(t) && t.Valid() && t.portOpen
    ensures t.output == [] && !t.yTimerArmed
    ensures t.imageRects == map[] && t.imageIds == [] && t.imageIdCounter == 0
  {
    t := new MouseTracker(["COM4"], true);
    assert IsComName(["COM4"][0]);
  }

  /** Targets at (10, 10) and (200, 200) on a fresh registry: keys 1 and 2, ids 0 and 1. */
  method SpawnTwo(t: MouseTracker)
    requires t.Valid() && t.imageRects == map[] && t.imageIds == [] && t.imageIdCounter == 0
    modifies t`imageRects, t`imageIds, t`imageIdCounter
    ensures t.Valid()
    ensures t.imageRects == map[1 := TargetAt(10, 10), 2 := TargetAt(200, 200)]
    ensures t.imageIds == [0, 1] && t.imageIdCounter == 2
  {
    t.SpawnTick(10, 10, 0, 0, true);
    t.SpawnTick(200, 200, 0, 0, true);
  }

  /**
   * Targets at (10, 10) and (200, 200), then a left press at (15, 15): the
   * first target (key 1) is removed and key 0 gains an empty rectangle; the
   * id list still holds both ids; X goes out at once and Y when the timer fires.
   */
  method ClickOnFirstTarget() returns (removed: Option<int>, rects: map<int, Rect>, ids: seq<int>, log: seq<string>)
    ensures removed == Some(1)
    ensures rects == map[0 := EmptyRect, 2 := TargetAt(200, 200)]
    ensures ids == [0, 1]
    ensures log == [Payload(15), Payload(15)]
  {
    var t := OpenTracker();
    SpawnTwo(t);
    ghost var before := t.imageRects;
    removed := t.Click(LeftButton, 15, 15);
    assert Contains(before[1], 15, 15) && !Contains(before[2], 15, 15);
    assert removed == Some(1);
    assert t.imageRects == map[0 := EmptyRect, 2 := TargetAt(200, 200)] by {
      assert Filled(before, 1) == before[0 := EmptyRect];
    }
    t.YTimerFire();
    rects, ids, log := t.imageRects, t.imageIds, t.output;
  }

  /** A press on the second target fills key 0 and removes key 2, leaving key 1. */
  method ClickOnSecondTarget() returns (rects: map<int, Rect>)
    ensures rects == map[0 := EmptyRect, 1 := TargetAt(10, 10)]
  {
    var t := new MouseTracker([], false);
    SpawnTwo(t);
    ghost var before := t.imageRects;
    var removed := t.Click(OtherButton, 279, 279);
    assert !Contains(before[1], 279, 279) && Contains(before[2], 279, 279);
    assert removed == Some(2);
    rects := t.imageRects;
    assert rects.Keys == {0, 1};
  }

  /** A press beside every target removes nothing but fills every key below the largest. */
  method ClickMisses() returns (rects: map<int, Rect>)
    ensures rects == map[0 := EmptyRect, 1 := TargetAt(10, 10), 2 := TargetAt(200, 200)]
  {
    var t := new MouseTracker([], false);
    SpawnTwo(t);
    ghost var before := t.imageRects;
    var removed := t.Click(LeftButton, 90, 90);
    assert !Contains(before[1], 90, 90) && !Contains(before[2], 90, 90);
    assert removed == None;
    assert KeyBound(before) == 3;
    rects := t.imageRects;
    assert rects.Keys == {0, 1, 2};
  }
}
