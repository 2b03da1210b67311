/**
 * The two pieces of state on the home page (app/page.tsx): the performance
 * metrics carousel, which shows three of five highlights, and the sensor
 * status flags that timers switch on.
 */
module HomePage {

  /** One card of the carousel. */
  datatype Metric = Metric(name: string, value: string, unit: string)

  /** `lastSessionHighlights` */
  const Highlights: seq<Metric> := [
    Metric("Speed", "187", "km/h"),
    Metric("Precision", "94.7", "%"),
    Metric("Power", "2.4", "kW"),
    Metric("Spin", "3200", "rpm"),
    Metric("Consistency", "91.2", "%")
  ]

  /** Cards shown at once. */
  const Visible := 3

  /** The left button: `Math.max(0, i - 1)`. */
  function Prev(i: int): (r: int)
    ensures r >= 0
    ensures i > 0 ==> r == i - 1
    ensures i <= 0 ==> r == 0
  {
    if i - 1 > 0 then i - 1 else 0
  }

  /** The right button: `Math.min(highlights.length - 3, i + 1)`. */
  function Next(i: int): (r: int)
    ensures r <= |Highlights| - Visible
    ensures i < |Highlights| - Visible ==> r == i + 1
    ensures i >= |Highlights| - Visible ==> r == |Highlights| - Visible
  {
    if |Highlights| - Visible < i + 1 then |Highlights| - Visible else i + 1
  }

  datatype Button = Left | Right

  function Press(i: int, b: Button): int {
    match b
    case Left => Prev(i)
    case Right => Next(i)
  }

  /** The index after pressing the buttons in order, starting from `i`. */
  function PressAll(i: int, bs: seq<Button>): int {
    if bs == [] then i else Press(PressAll(i, bs[..|bs| - 1]), bs[|bs| - 1])
  }

  /** From the initial index 0, any sequence of presses keeps the index in [0, 2]. */
  lemma {:induction false} IndexStaysInWindow(bs: seq<Button>)
    ensures 0 <= PressAll(0, bs) <= |Highlights| - Visible
  {
    if bs != [] {
      IndexStaysInWindow(bs[..|bs| - 1]);
    }
  }

  /** At the ends the buttons do nothing: left at 0, right at 2. */
  lemma ButtonsStopAtEnds()
    ensures Prev(0) == 0
    ensures Next(|Highlights| - Visible) == |Highlights| - Visible
  {
  }

  /** Inside the window, right then left returns to where it started when not at the right end. */
  lemma NextThenPrev(i: int)
    requires 0 <= i < |Highlights| - Visible
    ensures Prev(Next(i)) == i
  {
  }

  /** `Array.prototype.slice(start, end)`: negative bounds count from the end, all bounds clamp. */
  function Slice<T>(s: seq<T>, start: int, end: int): (r: seq<T>)
    ensures 0 <= start <= end <= |s| ==> r == s[start..end]
    ensures |r| <= |s|
  {
    var from := if start < 0 then (if |s| + start < 0 then 0 else |s| + start) else (if start > |s| then |s| else start);
    var to := if end < 0 then (if |s| + end < 0 then 0 else |s| + end) else (if end > |s| then |s| else end);
    if from < to then s[from..to] else []
  }

  /** The cards on screen: `highlights.slice(i, i + 3)`. */
  function Window(i: int): seq<Metric> {
    Slice(Highlights, i, i + Visible)
  }

  /** Any reachable index shows exactly three consecutive metrics, starting at the index. */
  lemma WindowHasThreeMetrics(i: int)
    requires 0 <= i <= |Highlights| - Visible
    ensures |Window(i)| == Visible
    ensures forall k :: 0 <= k < Visible ==> Window(i)[k] == Highlights[i + k]
  {
  }

  /** Past the right end the slice would come up short: the clamp in `Next` is what prevents it. */
  lemma WindowShortPastEnd()
    ensures |Window(|Highlights| - Visible + 1)| == Visible - 1
  {
  }

  /** Which sensors report connected. */
  datatype SensorStatus = SensorStatus(camera: bool, racket: bool, smartwatch: bool)

  datatype Sensor = Camera | Racket | Smartwatch

  const Disconnected: SensorStatus := SensorStatus(false, false, false)

  function Connected(s: SensorStatus, k: Sensor): bool {
    match k
    case Camera => s.camera
    case Racket => s.racket
    case Smartwatch => s.smartwatch
  }

  /** A sensor timer firing: `{ ...prev, [k]: true }`. */
  function Connect(s: SensorStatus, k: Sensor): (r: SensorStatus)
    ensures Connected(r, k)
    ensures forall j :: j != k ==> Connected(r, j) == Connected(s, j)
  {
    match k
    case Camera => s.(camera := true)
    case Racket => s.(racket := true)
    case Smartwatch => s.(smartwatch := true)
  }

  /** The flags after the timers fired in the given order. */
  function ConnectAll(s: SensorStatus, ks: seq<Sensor>): SensorStatus {
    if ks == [] then s else Connect(ConnectAll(s, ks[..|ks| - 1]), ks[|ks| - 1])
  }

  /**
   * Flags only ever go from false to true, and a sensor is connected after
   * the timers exactly when it was already, or its timer has fired.
   */
  lemma {:induction false} ConnectAllMonotone(s: SensorStatus, ks: seq<Sensor>)
    ensures forall j :: Connected(ConnectAll(s, ks), j) <==> Connected(s, j) || j in ks
  {
    if ks != [] {
      var init := ks[..|ks| - 1];
      ConnectAllMonotone(s, init);
      assert ks == init + [ks[|ks| - 1]];
    }
  }

  /** Once all three timers have fired, in any order, every sensor shows connected. */
  lemma AllTimersConnectEverything(ks: seq<Sensor>)
    requires Camera in ks && Racket in ks && Smartwatch in ks
    ensures ConnectAll(Disconnected, ks) == SensorStatus(true, true, true)
  {
    ConnectAllMonotone(Disconnected, ks);
    assert Connected(ConnectAll(Disconnected, ks), Camera);
    assert Connected(ConnectAll(Disconnected, ks), Racket);
    assert Connected(ConnectAll(Disconnected, ks), Smartwatch);
  }
}
