# Hornet blaster click tracker: a Dafny model

This project models `MouseTracker`, the one Qt widget of the hornet blaster
desktop demo. Hornet targets appear at random spots in a fixed 553×463
window and expire oldest first. When the player clicks, the click removes
the target under the pointer. It also sends the click's X and then, 200 ms
later, its Y to a microcontroller over the COM port with the highest
number.

The widget's callbacks are explicit event methods of the class
`Tracker.MouseTracker`:

- `Click(button, x, y)` is `mousePressEvent`.
- `SpawnTick(rx, ry, rx2, ry2, imageOk)` is `displayRandomImage`. Its
  parameters are the random draws and the outcome of loading the image.
- `ExpiryTick()` is `removeOldestImage`.
- `YTimerFire()` is the Y timer's timeout, which calls `sendYData`.

The constructor runs the port-selection loop. Its `openOk` parameter
stands for the outcome of opening the chosen port.

Files:

- `NumberText.dfy`: the decimal text of `QString::number` and the
  restricted `QString::toInt`. It proves that one reads the other back and
  that each payload is one newline-terminated line.
- `Geometry.dfy`: `QRect`, the inclusive-edge `contains`, the window size
  and where a new target is placed.
- `PortSelection.dfy`: the COM-port loop as a method, proved against a
  description of the earliest largest-numbered COM name. A lemma shows that
  only one name fits that description.
- `Registry.dfy`: what the hit test does to the rectangle map, and the
  lemmas that let the scan over keys terminate and end in that state.
- `Tracker.dfy`: the class, its fields and the event methods.
- `Scenarios.dfy`: concrete event sequences and their exact outcomes.

The model follows the code in two places where the code does not do what
its own comments or its loop header suggest.

- **The id list and the rectangle map disagree by one.** The source's
  comments (main.cpp:161, 176) pair each id with one rectangle; the code
  does not. A spawn appends the counter's old value `c` to
  `imageIds` but files the rectangle under `c + 1`. A hit removes the
  rectangle and leaves its id in the list. So after five spawns and two
  expiries, four rectangles remain, not the three most recent: the first
  expiry takes id 0,
  which has no rectangle (`Scenarios.FiveSpawnsTwoExpiries`). The model
  keeps this behaviour and states no pairing invariant. What `Valid()` does
  state:
  - every map key lies in 0 .. counter;
  - the id list is increasing and below the counter.
- **The hit test walks keys, not positions.** Its comment (main.cpp:71)
  speaks of removing the rectangle from a list, but `imageRects` is a map
  keyed by id. The loop runs `i` from 0 to
  `imageRects.size() - 1` and reads through the non-const `operator[]`,
  which inserts an empty `QRect()` under every missing key. The map grows
  as the scan goes, so the scan visits every key up to the largest one. It
  removes the first rectangle that contains the point, which is the one
  with the smallest key. The gaps it passes stay filled with empty
  rectangles (`Registry.HitTestResult`). The scan terminates because no
  key is negative.

## Model

| member | source | states |
|---|---|---|
| `NumberText.NatDigits` | 0_Firmware/QT_interface_frelons/H_S/main.cpp:103 | the digits of a magnitude are never empty, all decimal digits, and start with '0' only for zero |
| `NumberText.Decimal` | 0_Firmware/QT_interface_frelons/H_S/main.cpp:103 | `QString::number(v)` is non-empty, starts with '-' exactly when v is negative, and the rest is decimal digits |
| `NumberText.ToInt` | 0_Firmware/QT_interface_frelons/H_S/main.cpp:34 | `toInt` always yields a 32-bit value, and 0 for the empty suffix |
| `NumberText.DigitsRoundTrip` | 0_Firmware/QT_interface_frelons/H_S/main.cpp:103 | reading a magnitude's digits gives the magnitude back |
| `NumberText.DecimalRoundTrip` | 0_Firmware/QT_interface_frelons/H_S/main.cpp:103 | `toInt` of `QString::number(v)` is v for every 32-bit v |
| `NumberText.Payload` | 0_Firmware/QT_interface_frelons/H_S/main.cpp:103 | `QString::number(v) + "\n"` is at least two characters, ends in its only newline, and the text before the newline is decimal(v); the same payload is used for Y at main.cpp:116 |
| `NumberText.PayloadRoundTrip` | 0_Firmware/QT_interface_frelons/H_S/main.cpp:103-105 | a coordinate payload ends in its only newline, and the text before the newline reads back as the coordinate |
| `Geometry.SpawnPosition` | 0_Firmware/QT_interface_frelons/H_S/main.cpp:129-139 | a new target's position lies in [0,450)×[0,350) and its 80×80 square is inside the 553×463 window; the first draw is kept exactly when it is below (450, 350), otherwise the fallback draw is used |
| `PortSelection.IsComName` | 0_Firmware/QT_interface_frelons/H_S/main.cpp:33 | `startsWith("COM")` holds exactly when the name is "COM" followed by its suffix, case-sensitively |
| `PortSelection.PortNumber` | 0_Firmware/QT_interface_frelons/H_S/main.cpp:34 | `mid(3).toInt()` is a 32-bit value, and 0 for the bare name "COM" |
| `PortSelection.SelectPort` | 0_Firmware/QT_interface_frelons/H_S/main.cpp:29-37 | the result is empty iff no name starts with "COM"; otherwise it is a listed COM name whose number no COM name exceeds, and every earlier COM name has a smaller number |
| `PortSelection.HighestPortUnique` | 0_Firmware/QT_interface_frelons/H_S/main.cpp:29-37 | at most one name fits that description, so the description fixes the chosen port |
| `Geometry.Contains` | 0_Firmware/QT_interface_frelons/H_S/main.cpp:70 | `QRect::contains` holds only for a rectangle of positive size and a point within w columns and h rows of its corner, edges included; the default `QRect()` contains no point |
| `Registry.Filled` | 0_Firmware/QT_interface_frelons/H_S/main.cpp:69-70 | after `operator[]` on keys 0..n-1 the keys are the old keys plus 0..n-1, old entries are unchanged, and every new entry is an empty rectangle below n |
| `Registry.KeyBound` | 0_Firmware/QT_interface_frelons/H_S/main.cpp:69 | the point where a scan that finds nothing stops: above every key, 0 for an empty map, and otherwise one past a key that is present |
| `Registry.HitTestResult` | 0_Firmware/QT_interface_frelons/H_S/main.cpp:69-77 | the hit test keeps every entry except the hit key, removes the hit key, adds only empty rectangles under missing non-negative keys below the hit key (or below the largest key plus one on a miss), and on a miss fills every key up to the largest |
| `Registry.KeyAtOrAbove` | 0_Firmware/QT_interface_frelons/H_S/main.cpp:69 | while `i < imageRects.size()` holds over non-negative keys, some key at least i remains, so the scan terminates |
| `Registry.ScanStep` | 0_Firmware/QT_interface_frelons/H_S/main.cpp:69-70 | during the scan the guard implies a key at or above i in the original map, and reading key i fills the map one key further |
| `Registry.ScanHit` | 0_Firmware/QT_interface_frelons/H_S/main.cpp:70-75 | a scan that stops at i has found the smallest key whose rectangle contains the point; removing it gives the hit test's result and keeps the keys in range |
| `Registry.ScanMiss` | 0_Firmware/QT_interface_frelons/H_S/main.cpp:69-77 | a scan whose guard fails has found no rectangle containing the point, and it leaves every key up to the largest filled in |
| `Tracker.MouseTracker.constructor` | 0_Firmware/QT_interface_frelons/H_S/main.cpp:17-47 | the chosen port is the selection loop's result; the port is open iff a COM name was found and opening succeeded; the registry is empty, the counter is 0, the log is empty and the Y timer is stopped |
| `Tracker.MouseTracker.SendXData` | 0_Firmware/QT_interface_frelons/H_S/main.cpp:101-112 | with the port open, the log gains exactly `decimal(x_data) + "\n"` and the Y timer is running; with the port closed, nothing is written and the timer is unchanged |
| `Tracker.MouseTracker.SendYData` | 0_Firmware/QT_interface_frelons/H_S/main.cpp:114-125 | with the port open, the log gains `decimal(y_data) + "\n"` and the timer stops; with the port closed, nothing is written and the timer keeps running |
| `Tracker.MouseTracker.YTimerFire` | 0_Firmware/QT_interface_frelons/H_S/main.cpp:49-50 | a running timer sends the Y that is current when it fires; a stopped timer changes nothing |
| `Tracker.MouseTracker.RectAt` | 0_Firmware/QT_interface_frelons/H_S/main.cpp:70 | `operator[]` returns the entry under the key, inserting an empty rectangle first when the key is missing |
| `Tracker.MouseTracker.HitTest` | 0_Firmware/QT_interface_frelons/H_S/main.cpp:69-77 | removes exactly the smallest key whose rectangle contains the point, if one exists, and fills only the missing keys below it; on a miss, keeps every rectangle and fills the missing keys up to the largest; keeps `Valid()` |
| `Tracker.MouseTracker.Click` | 0_Firmware/QT_interface_frelons/H_S/main.cpp:60-78 | a left or right press overwrites x_data/y_data and sends X; any other button leaves them and the log alone; the hit test runs for every button; the id list and the counter never change |
| `Tracker.MouseTracker.SpawnTick` | 0_Firmware/QT_interface_frelons/H_S/main.cpp:126-154 | with the image loaded, the old counter c is appended to the id list, the counter becomes c+1 and the placed 80×80 square is inserted under the fresh key c+1, inside the window; a failed load changes nothing |
| `Tracker.MouseTracker.ExpiryTick` | 0_Firmware/QT_interface_frelons/H_S/main.cpp:155-167 | an empty id list changes nothing; otherwise exactly the head, the smallest id, is taken off the list and that key is removed from the map, which is a no-op if it is absent |
| `Scenarios.TwoClicksBeforeTimer` | 0_Firmware/QT_interface_frelons/H_S/main.cpp:62-68 | two presses before the timer fires log x1, x2, y2 |
| `Scenarios.NoComPort` | 0_Firmware/QT_interface_frelons/H_S/main.cpp:38-47 | with no COM port, a press writes nothing and the Y timer never starts |
| `Scenarios.MiddlePressReportsNothing` | 0_Firmware/QT_interface_frelons/H_S/main.cpp:62-68 | a middle press leaves the reported position and the log as the last left press left them |
| `Scenarios.PortChoice` | 0_Firmware/QT_interface_frelons/H_S/main.cpp:31-36 | of "COM5", "COM05" and "COM2", the earlier of the two ports numbered 5 is chosen |
| `Scenarios.FiveSpawnsTwoExpiries` | 0_Firmware/QT_interface_frelons/H_S/main.cpp:147-162 | after five spawns and two expiries the counter is 5, the id list is [2, 3, 4] and the map keys are {2, 3, 4, 5} |
| `Scenarios.FailedLoad` | 0_Firmware/QT_interface_frelons/H_S/main.cpp:141-144 | a spawn whose image fails to load leaves the registry and the counter untouched |
| `Scenarios.ClickOnFirstTarget` | 0_Firmware/QT_interface_frelons/H_S/main.cpp:69-77 | with targets at (10,10) and (200,200), a left press at (15,15) removes key 1, fills key 0, keeps both ids and logs X and then Y |
| `Scenarios.ClickOnSecondTarget` | 0_Firmware/QT_interface_frelons/H_S/main.cpp:69-77 | a press on the second target removes key 2 and leaves key 1 and an empty key 0 |
| `Scenarios.ClickMisses` | 0_Firmware/QT_interface_frelons/H_S/main.cpp:69-77 | a press beside every target removes nothing and fills key 0 |

## Left out

- Widget set-up, mouse tracking, the cursor, `show` and `main`: Qt start-up calls that hold no state of the model.
- `paintEvent` and loading images from their absolute paths: rendering and file I/O. Each image load becomes the `imageOk` parameter. `update()` calls are not modelled, since they only schedule a repaint.
- The serial port's open, write and `waitForBytesWritten` calls, its bit rate and `handleError`: device I/O. The port becomes an open flag and a log of written strings. The error handler only logs; the model never closes the port.
- `QRandomGenerator`: each draw is a parameter restricted to the range `bounded(n)` gives.
- Wall-clock timing: the 3000 ms spawn and expiry periods and the 200 ms Y delay become explicit events. The removal timer is started twice in the constructor, which changes nothing for the model.
- `qDebug` logging.
- NumberText.ToInt: accepts only an optional sign followed by decimal digits. The leading and trailing whitespace that `QString::toInt` also tolerates is not modelled.
- Geometry.Contains: models `QRect::contains` for rectangles of non-negative size only, the only ones the program builds. Qt's normalisation of negative sizes is not modelled.
- Tracker.MouseTracker.SpawnTick: the id counter is an unbounded integer. The C++ `int` would overflow only after 2^31 spawns.
- Tracker.MouseTracker.constructor: `x_data` and `y_data` are uninitialised in C++. The model starts them at 0. No event reads them before a left or right press has set them.
