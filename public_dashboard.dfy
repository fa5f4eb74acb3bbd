/** public/dashboard.js: the dashboard copy served statically, with a fourth
    weather (snow), a route status panel, building highlights near the active
    route, and an agent that fades out instead of jumping when it overruns
    its path. */
module PublicDashboard {
  import opened Common
  import opened Telemetry
  import opened Motion

  /** The `routes` table, now with snow penalties (tenths). */
  function Routes(m: Mode): Route
  {
    match m
    case Fastest => Route("path-fastest", 65, 80, map[Rain := 25, Fog := 40, Snow := 32])
    case Scenic => Route("path-scenic", 12, 45, map[Rain := 10, Fog := 15, Snow := 18])
    case Comfort => Route("path-comfort", 25, 55, map[Rain := 15, Fog := 20, Snow := 22])
  }

  /** The per-frame factor: progress grows by speed * 0.025. */
  const AgentFactor: real := 0.025
  /** This copy adds no rotation to the heading. */
  const GlyphTurn: real := 0.0

  /** The snow readouts: fastest shows 9.7 and 56, the others stay below 7. */
  lemma SnowReadouts()
    ensures RiskText(Compute(Routes(Fastest), Snow).risk) == "9.7" && Compute(Routes(Fastest), Snow).speed == 56
    ensures RiskText(Compute(Routes(Scenic), Snow).risk) == "3.0" && Compute(Routes(Scenic), Snow).speed == 31
    ensures RiskText(Compute(Routes(Comfort), Snow).risk) == "4.7" && Compute(Routes(Comfort), Snow).speed == 38
    ensures RiskText(Compute(Routes(Fastest), Fog).risk) == "10.0"
  {
  }

  /** With the snow entries every route and weather has a number: no
      readout of this page is NaN. Only the fastest route outside sun is
      above 7. */
  lemma AlertTable(m: Mode, w: Weather)
    ensures Compute(Routes(m), w).risk.Some?
    ensures RiskAlert(RiskText(Compute(Routes(m), w).risk)) <==> m == Fastest && w != Sun
  {
    AlertIffAboveSeven(Compute(Routes(m), w).risk);
  }

  /** The per-frame increments: speed * 0.025, times 0.6 outside sun. */
  lemma IncrementTable()
    ensures TickIncrement(Routes(Fastest).speed, Sun, AgentFactor) == 2.0
    ensures TickIncrement(Routes(Fastest).speed, Snow, AgentFactor) == 1.2
    ensures TickIncrement(Routes(Scenic).speed, Rain, AgentFactor) == 0.675
  {
  }

  // ---- route status -------------------------------------------------------

  /** One entry of `routeConditions`. */
  datatype Conditions = Conditions(base: string, env: string, features: Option<seq<string>>, detail: map<Weather, string>)

  function ConditionsTable(): map<Mode, Conditions>
  {
    map[
      Fastest := Conditions(
        "High-speed diagonal trunk route", "Priority transit corridor",
        Some(["Wide lanes", "Direct vector"]),
        map[Sun := "Dry surface / optimal traction",
            Rain := "Wet asphalt / longer braking distance",
            Fog := "Low visibility / adaptive slowdown",
            Snow := "Reduced lane contrast / moderate slip risk"]),
      Scenic := Conditions(
        "Lateral then vertical scenic sweep", "Green belt + park corridors",
        Some(["Tree canopy", "View nodes"]),
        map[Sun := "Clear view of landscape corridors",
            Rain := "Puddling risk near mid spans",
            Fog := "Obscured distant markers / moderate caution",
            Snow := "Soft snowfall ambience / watch shaded patches"]),
      Comfort := Conditions(
        "Stable L-shaped climb then traverse", "Low-stress buffered zone",
        Some(["Soft lighting", "Gentle turns"]),
        map[Sun := "Even lighting / smooth turns",
            Rain := "Reduced corner speed / gentle acceleration",
            Fog := "Maintain lane discipline / extended headway",
            Snow := "Calm surface / slightly reduced acceleration"])
    ]
  }

  /** `rc[currentWeather] || rc.sun`: the weather's text when it is there and
      not empty, otherwise whatever the sun entry is ("undefined" if none). */
  function DetailText(rc: Conditions, w: Weather): (r: string)
    ensures w in rc.detail && rc.detail[w] != "" ==> r == rc.detail[w]
    ensures !(w in rc.detail && rc.detail[w] != "") && Sun in rc.detail ==> r == rc.detail[Sun]
  {
    if w in rc.detail && rc.detail[w] != "" then rc.detail[w]
    else if Sun in rc.detail then rc.detail[Sun]
    else "undefined"
  }

  /** `rc.features ? rc.features.join(', ') : ''` */
  function FeatureText(rc: Conditions): string
  {
    match rc.features
    case Some(fs) => Join(fs, ", ")
    case None => ""
  }

  /** The four lines of the status panel. */
  function StatusLines(mode: Mode, rc: Conditions, w: Weather): seq<string>
  {
    [ToUpper(ModeName(mode)) + " // " + rc.env, rc.base, "WX: " + DetailText(rc, w), "FEAT: " + FeatureText(rc)]
  }

  /** The textContent updateRouteStatus writes: "No data" for a route the
      table lacks, otherwise its four lines separated by newlines. */
  function StatusText(table: map<Mode, Conditions>, mode: Mode, w: Weather): string
  {
    if mode !in table then "No data" else Join(StatusLines(mode, table[mode], w), "\n")
  }

  predicate NoNewline(s: string)
  {
    '\n' !in s
  }

  /** Split at newlines, the status text gives back its four lines: the
      upper-cased mode and the environment, the base text, the weather
      detail and the features; a route the table lacks gives "No data". */
  lemma {:induction false} StatusHasFourLines(table: map<Mode, Conditions>, mode: Mode, w: Weather)
    requires forall m :: m in table ==> NoNewline(table[m].env) && NoNewline(table[m].base)
    requires forall m :: m in table ==> NoNewline(DetailText(table[m], w)) && NoNewline(FeatureText(table[m]))
    ensures mode !in table ==> StatusText(table, mode, w) == "No data"
    ensures mode in table ==>
      && Split(StatusText(table, mode, w), '\n') == StatusLines(mode, table[mode], w)
      && |StatusLines(mode, table[mode], w)| == 4
  {
    if mode in table {
      var rc := table[mode];
      var lines := StatusLines(mode, rc, w);
      UpperHasNoNewline(ModeName(mode));
      ConcatNoNewline(ToUpper(ModeName(mode)), " // ");
      ConcatNoNewline(ToUpper(ModeName(mode)) + " // ", rc.env);
      ConcatNoNewline("WX: ", DetailText(rc, w));
      ConcatNoNewline("FEAT: ", FeatureText(rc));
      SplitJoin(lines, '\n');
    }
  }

  lemma ConcatNoNewline(a: string, b: string)
    requires NoNewline(a) && NoNewline(b)
    ensures NoNewline(a + b)
  {
    assert forall i :: 0 <= i < |a + b| ==> (a + b)[i] == if i < |a| then a[i] else b[i - |a|];
  }

  lemma UpperHasNoNewline(s: string)
    requires NoNewline(s)
    ensures NoNewline(ToUpper(s))
  {
    var u := ToUpper(s);
    forall i | 0 <= i < |u| ensures u[i] != '\n' {
      assert u[i] == UpperChar(s[i]);
    }
  }

  /** The table is complete: every route has a text for every weather, so
      the sun fallback is never taken. */
  lemma TableIsComplete(m: Mode, w: Weather)
    ensures m in ConditionsTable()
    ensures w in ConditionsTable()[m].detail && ConditionsTable()[m].detail[w] != ""
    ensures DetailText(ConditionsTable()[m], w) == ConditionsTable()[m].detail[w]
  {
  }

  /** The status of the fastest route in snow, line by line. */
  lemma FastestSnowStatus()
    ensures StatusText(ConditionsTable(), Fastest, Snow) == Join([
      "FASTEST" + " // " + "Priority transit corridor",
      "High-speed diagonal trunk route",
      "WX: " + "Reduced lane contrast / moderate slip risk",
      "FEAT: " + ("Wide lanes" + ", " + "Direct vector")], "\n")
  {
    var rc := ConditionsTable()[Fastest];
    assert rc.env == "Priority transit corridor" && rc.base == "High-speed diagonal trunk route";
    assert rc.detail[Snow] == "Reduced lane contrast / moderate slip risk";
    assert rc.features == Some(["Wide lanes", "Direct vector"]);
    UpperFastest();
    assert FeatureText(rc) == "Wide lanes" + ", " + "Direct vector";
    assert DetailText(rc, Snow) == "Reduced lane contrast / moderate slip risk";
    var lines := StatusLines(Fastest, rc, Snow);
    assert lines == [
      "FASTEST" + " // " + "Priority transit corridor",
      "High-speed diagonal trunk route",
      "WX: " + "Reduced lane contrast / moderate slip risk",
      "FEAT: " + ("Wide lanes" + ", " + "Direct vector")];
  }

  lemma UpperFastest()
    ensures ToUpper(ModeName(Fastest)) == "FASTEST"
  {
    var u := ToUpper(ModeName(Fastest));
    assert ModeName(Fastest) == "fastest";
    forall i | 0 <= i < 7 ensures u[i] == "FASTEST"[i] {
      assert u[i] == UpperChar("fastest"[i]);
    }
  }

  // ---- building highlights ------------------------------------------------

  /** A building is near the route when a sample lies within 95 units. */
  const Threshold: real := 95.0
  const NearLimit: real := Threshold * Threshold

  /** 90 samples on a mobile screen, 180 otherwise. */
  function SampleCount(mobile: bool): (n: nat)
    ensures mobile ==> n == 90
    ensures !mobile ==> n == 180
  {
    if mobile then 90 else 180
  }

  /** The arc-length offset of sample `i` of `samples`. */
  function SampleOffset(len: real, samples: nat, i: nat): real
    requires samples > 0
  {
    len * i as real / samples as real
  }

  /** The offsets run from 0 to the full length in increasing order. */
  lemma SampleOffsetBounds(len: real, samples: nat, i: nat)
    requires samples > 0 && len >= 0.0 && i <= samples
    ensures SampleOffset(len, samples, 0) == 0.0
    ensures SampleOffset(len, samples, samples) == len
    ensures 0.0 <= SampleOffset(len, samples, i) <= len
    ensures i < samples ==> SampleOffset(len, samples, i) <= SampleOffset(len, samples, i + 1)
  {
    var n := samples as real;
    var k := i as real;
    DivSelf(len, n);
    MulMonotone(len, 0.0, k);
    MulMonotone(len, k, n);
    MulMonotone(len, k, k + 1.0);
    DivMonotone(len * 0.0, len * k, n);
    DivMonotone(len * k, len * n, n);
    DivMonotone(len * k, len * (k + 1.0), n);
  }

  lemma DivSelf(a: real, n: real)
    requires n > 0.0
    ensures a * n / n == a
  {
    assert (a * n) / n == a * (n / n);
  }

  lemma MulMonotone(c: real, a: real, b: real)
    requires c >= 0.0 && a <= b
    ensures c * a <= c * b
  {
    assert c * b - c * a == c * (b - a);
  }

  lemma DivMonotone(a: real, b: real, n: real)
    requires a <= b && n > 0.0
    ensures a / n <= b / n
  {
    assert b / n - a / n == (b - a) / n;
  }

  /** The sample points: getPointAtLength at samples + 1 offsets. */
  function Samples(shape: PathShape, samples: nat): (pts: seq<Point>)
    requires samples > 0
    ensures |pts| == samples + 1
  {
    seq(samples + 1, i requires 0 <= i <= samples => shape.pointAt(SampleOffset(shape.len, samples, i)))
  }

  /** The `for (let i = 0; i <= samples; i++)` loop pushing sample points. */
  method SamplePath(shape: PathShape, samples: nat) returns (pts: seq<Point>)
    requires samples > 0
    ensures |pts| == samples + 1
    ensures forall i :: 0 <= i <= samples ==> pts[i] == shape.pointAt(SampleOffset(shape.len, samples, i))
    ensures pts == Samples(shape, samples)
  {
    pts := [];
    var i := 0;
    while i <= samples
      invariant 0 <= i <= samples + 1
      invariant |pts| == i
      invariant forall j :: 0 <= j < i ==> pts[j] == shape.pointAt(SampleOffset(shape.len, samples, j))
    {
      pts := pts + [shape.pointAt(SampleOffset(shape.len, samples, i))];
      i := i + 1;
    }
  }

  /** dx * dx + dy * dy */
  function Dist2(p: Point, b: Building): real
  {
    (p.x - b.x) * (p.x - b.x) + (p.y - b.y) * (p.y - b.y)
  }

  /** The verdict the scan is meant to give: some sample lies strictly
      within the threshold. */
  predicate NearRoute(pts: seq<Point>, b: Building)
  {
    exists i :: 0 <= i < |pts| && Dist2(pts[i], b) < NearLimit
  }

  /** The inner loop: the smallest squared distance seen (None for
      Infinity), stopping at the first sample within the threshold. Its
      verdict is exactly NearRoute; when it is "not near" the distance it
      found is the minimum over all samples. */
  method ScanBuilding(pts: seq<Point>, b: Building) returns (minD: Option<real>, near: bool)
    ensures near <==> NearRoute(pts, b)
    ensures near <==> minD.Some? && minD.value < NearLimit
    ensures minD.None? <==> |pts| == 0
    ensures minD.Some? ==> exists i :: 0 <= i < |pts| && Dist2(pts[i], b) == minD.value
    ensures !near && minD.Some? ==> forall i :: 0 <= i < |pts| ==> minD.value <= Dist2(pts[i], b)
  {
    minD := None;
    var i := 0;
    while i < |pts|
      invariant 0 <= i <= |pts|
      invariant minD.None? <==> i == 0
      invariant forall j :: 0 <= j < i ==> Dist2(pts[j], b) >= NearLimit
      invariant minD.Some? ==> forall j :: 0 <= j < i ==> minD.value <= Dist2(pts[j], b)
      invariant minD.Some? ==> exists j :: 0 <= j < i && Dist2(pts[j], b) == minD.value
    {
      var d := Dist2(pts[i], b);
      if minD.None? || d < minD.value {
        minD := Some(d);
      }
      if d < NearLimit {
        break;
      }
      i := i + 1;
    }
    near := minD.Some? && minD.value < NearLimit;
  }

  /** The `building-near-route` class of every building, in document order. */
  function NearFlags(buildings: seq<Building>, pts: seq<Point>): (r: seq<bool>)
    ensures |r| == |buildings|
  {
    seq(|buildings|, i requires 0 <= i < |buildings| => NearRoute(pts, buildings[i]))
  }

  // ---- body weather classes -----------------------------------------------

  /** The four weather classes a body can carry. */
  const WeatherClasses: set<string> := {"weather-sun", "weather-rain", "weather-fog", "weather-snow"}

  /** The three classes setWeather removes. */
  const RemovedAsWritten: set<string> := {"weather-sun", "weather-rain", "weather-fog"}

  /** setWeather's class swap as written: it still removes only the three
      classes of the three-weather dashboard, so a weather-snow class the
      body carries survives every later swap. */
  function BodyClassesAsWritten(classes: set<string>, w: Weather): (r: set<string>)
    ensures WeatherClass(w) in r
    ensures forall c :: c in r ==> c in classes || c == WeatherClass(w)
    ensures forall c :: c in RemovedAsWritten && c != WeatherClass(w) ==> c !in r
    ensures forall c :: c in classes && c !in RemovedAsWritten ==> c in r
    ensures "weather-snow" in classes ==> "weather-snow" in r
  {
    SwapWeatherClass(classes, RemovedAsWritten, w)
  }

  /** As written, snow then rain leaves the body with two weather classes. */
  lemma SnowClassLingers()
    ensures BodyClassesAsWritten(BodyClassesAsWritten({}, Snow), Rain) == {"weather-snow", "weather-rain"}
  {
    WeatherClassNames();
  }

  lemma WeatherClassNames()
    ensures WeatherClass(Sun) == "weather-sun" && WeatherClass(Rain) == "weather-rain"
    ensures WeatherClass(Fog) == "weather-fog" && WeatherClass(Snow) == "weather-snow"
  {
  }

  /** The class swap as intended: all four weather classes are removed. */
  function BodyClasses(classes: set<string>, w: Weather): (r: set<string>)
    ensures WeatherClass(w) in r
  {
    SwapWeatherClass(classes, WeatherClasses, w)
  }

  /** The corrected swap differs from the one as written only when the body
      carries weather-snow and another weather is chosen. */
  lemma SwapsAgree(classes: set<string>, w: Weather)
    ensures BodyClasses(classes, w) == BodyClassesAsWritten(classes, w) <==> "weather-snow" !in classes || w == Snow
  {
    WeatherClassNames();
    if "weather-snow" !in classes || w == Snow {
      assert BodyClasses(classes, w) == BodyClassesAsWritten(classes, w);
    } else {
      assert "weather-snow" !in BodyClasses(classes, w);
    }
  }

  /** After the intended swap the body carries exactly one weather class,
      the new one, and keeps every other class. */
  lemma OneWeatherClass(classes: set<string>, w: Weather)
    ensures BodyClasses(classes, w) * WeatherClasses == {WeatherClass(w)}
    ensures BodyClasses(classes, w) - WeatherClasses == classes - WeatherClasses
  {
    WeatherClassNames();
    assert WeatherClass(w) in WeatherClasses;
  }

  // ---- page state ---------------------------------------------------------

  /** What updateTelemetry, updateRouteStatus and updateBuildingHighlights
      write: the risk readout and its alert colour, the speed readout, the
      status panel and the building highlights. */
  datatype Panel = Panel(risk: Option<string>, alert: bool, speed: Option<string>, status: Option<string>, near: seq<bool>)

  class Dashboard {
    const page: Page
    /** The `routeConditions` table. */
    const conditions: map<Mode, Conditions>
    var activeMode: Mode
    var currentWeather: Weather
    var activeCards: set<Mode>
    var activePaths: set<string>
    var activeWx: set<Weather>
    var bodyClasses: set<string>
    var riskText: Option<string>
    var riskAlert: bool
    var speedText: Option<string>
    /** textContent of #route-status, None until the script writes it. */
    var statusText: Option<string>
    /** Whether each building carries `building-near-route`. */
    var nearRoute: seq<bool>

    /** The readouts `risk`, `alert` and `speed` show what updateTelemetry
        computes for route `m` in weather `w` (where their elements exist). */
    ghost predicate ReadoutsMatch(m: Mode, w: Weather, risk: Option<string>, alert: bool, speed: Option<string>)
    {
      var t := Compute(Routes(m), w);
      && (page.riskEl ==> risk == Some(RiskText(t.risk)) && alert == RiskAlert(RiskText(t.risk)))
      && (page.speedEl ==> speed == Some(SpeedText(t)))
    }

    /** The status panel shows the conditions of route `m` in weather `w`. */
    ghost predicate StatusMatches(m: Mode, w: Weather, status: Option<string>)
    {
      page.statusEl ==> status == Some(StatusText(conditions, m, w))
    }

    /** Where the path of route `m` exists, `near` holds the highlights of its
        samples. */
    ghost predicate HighlightsMatch(m: Mode, near: seq<bool>)
    {
      var id := Routes(m).pathId;
      id in page.paths ==> near == NearFlags(page.buildings, Samples(page.paths[id], SampleCount(page.mobile)))
    }

    /** The panel the three updates leave over `before` for route `m` in
        weather `w`: each element that exists is rewritten, each one that is
        missing keeps its content. */
    ghost function Repainted(m: Mode, w: Weather, before: Panel): Panel
    {
      var t := Compute(Routes(m), w);
      var id := Routes(m).pathId;
      Panel(
        if page.riskEl then Some(RiskText(t.risk)) else before.risk,
        if page.riskEl then t.risk.Some? && t.risk.value > AlertAbove else before.alert,
        if page.speedEl then Some(SpeedText(t)) else before.speed,
        if page.statusEl then Some(StatusText(conditions, m, w)) else before.status,
        if id in page.paths then NearFlags(page.buildings, Samples(page.paths[id], SampleCount(page.mobile))) else before.near)
    }

    /** A repainted panel shows route `m` in weather `w` wherever the elements
        exist, with the colour of the text test `risk > 7`, and keeps the rest
        of `before`. */
    lemma RepaintedShows(m: Mode, w: Weather, before: Panel)
      ensures var p := Repainted(m, w, before);
        && ReadoutsMatch(m, w, p.risk, p.alert, p.speed)
        && StatusMatches(m, w, p.status)
        && HighlightsMatch(m, p.near)
        && (!page.riskEl ==> p.risk == before.risk && p.alert == before.alert)
        && (!page.speedEl ==> p.speed == before.speed)
        && (!page.statusEl ==> p.status == before.status)
        && (Routes(m).pathId !in page.paths ==> p.near == before.near)
    {
      AlertIffAboveSeven(Compute(Routes(m), w).risk);
    }

    /** A second repaint for the same route overwrites all the first one
        wrote: what is left is one repaint in the second weather. */
    lemma RepaintedTwice(m: Mode, w0: Weather, w: Weather, before: Panel)
      ensures Repainted(m, w, Repainted(m, w0, before)) == Repainted(m, w, before)
    {
    }

    /** The readouts, the status panel and the highlights as they stand. */
    ghost function Shown(): Panel
      reads this`riskText, this`riskAlert, this`speedText, this`statusText, this`nearRoute
    {
      Panel(riskText, riskAlert, speedText, statusText, nearRoute)
    }

    /** Only the card and the path of route `m` carry `active`. */
    ghost predicate RouteMarked(m: Mode, cards: set<Mode>, paths: set<string>)
    {
      && cards == (if m in page.cards then {m} else {})
      && paths == (if Routes(m).pathId in page.paths then {Routes(m).pathId} else {})
    }

    /** Only the button of weather `w` carries `active`, and the body classes
        are `before` with the weather class swapped for that of `w`. */
    ghost predicate WeatherMarked(w: Weather, wx: set<Weather>, before: set<string>, body: set<string>)
    {
      && wx == (if w in page.wxButtons then {w} else {})
      && body == BodyClasses(before, w)
    }

    /** The page as loaded: the globals hold "fastest" and "sun". The script
        says nothing of the markup's own classes and texts; the model takes
        no card, path or button to be active, the readouts and the status
        panel to be unwritten and no building to be highlighted. */
    constructor (page: Page, body: set<string>)
      ensures this.page == page && conditions == ConditionsTable()
      ensures activeMode == Fastest && currentWeather == Sun
      ensures activeCards == {} && activePaths == {} && activeWx == {} && bodyClasses == body
      ensures riskText == None && speedText == None && statusText == None
      ensures |nearRoute| == |page.buildings| && forall i :: 0 <= i < |nearRoute| ==> !nearRoute[i]
    {
      this.page := page;
      conditions := ConditionsTable();
      activeMode, currentWeather := Fastest, Sun;
      activeCards, activePaths, activeWx := {}, {}, {};
      bodyClasses := body;
      riskText, riskAlert, speedText, statusText := None, false, None, None;
      nearRoute := seq(|page.buildings|, _ => false);
    }

    /** initDashboard: setRoute("fastest") and setWeather("sun"). With a
        weather element missing, setWeather returns before any update, so
        the readouts and the status keep the weather that was current when
        initDashboard began: "sun" on the page's first run, but another
        weather if one was clicked before a second run. */
    method InitDashboard()
      modifies this`activeMode, this`currentWeather, this`activeCards, this`activePaths, this`activeWx, this`bodyClasses
      modifies this`riskText, this`riskAlert, this`speedText, this`statusText, this`nearRoute
      ensures activeMode == Fastest && currentWeather == Sun
      ensures RouteMarked(Fastest, activeCards, activePaths)
      ensures page.weatherEls ==> WeatherMarked(Sun, activeWx, old(bodyClasses), bodyClasses)
      ensures !page.weatherEls ==> activeWx == old(activeWx) && bodyClasses == old(bodyClasses)
      ensures Shown() == Repainted(Fastest, if page.weatherEls then Sun else old(currentWeather), old(Shown()))
    {
      ghost var w0 := currentWeather;
      SetRoute(Fastest);
      SetWeather(Sun);
      if page.weatherEls {
        RepaintedTwice(Fastest, w0, Sun, old(Shown()));
      }
    }

    /** updateTelemetry, as in the three-weather dashboard. */
    method UpdateTelemetry()
      modifies this`riskText, this`riskAlert, this`speedText
      ensures ReadoutsMatch(activeMode, currentWeather, riskText, riskAlert, speedText)
      ensures !page.riskEl ==> riskText == old(riskText) && riskAlert == old(riskAlert)
      ensures !page.speedEl ==> speedText == old(speedText)
    {
      var t := Compute(Routes(activeMode), currentWeather);
      var risk := RiskText(t.risk);
      if page.riskEl {
        riskText := Some(risk);
        riskAlert := RiskAlert(risk);
      }
      if page.speedEl {
        speedText := Some(SpeedText(t));
      }
    }

    /** updateRouteStatus: rewrite the panel if it exists. */
    method UpdateRouteStatus()
      modifies this`statusText
      ensures StatusMatches(activeMode, currentWeather, statusText)
      ensures !page.statusEl ==> statusText == old(statusText)
    {
      if !page.statusEl {
        return;
      }
      var rc := conditions;
      if activeMode !in rc {
        statusText := Some("No data");
        return;
      }
      statusText := Some(Join(StatusLines(activeMode, rc[activeMode], currentWeather), "\n"));
    }

    /** updateBuildingHighlights: nothing when the active path is missing;
        otherwise every building is marked exactly when the scan finds a
        sample within the threshold. */
    method UpdateBuildingHighlights()
      modifies this`nearRoute
      ensures HighlightsMatch(activeMode, nearRoute)
      ensures Routes(activeMode).pathId !in page.paths ==> nearRoute == old(nearRoute)
    {
      var id := Routes(activeMode).pathId;
      if id !in page.paths {
        return;
      }
      var pts := SamplePath(page.paths[id], SampleCount(page.mobile));
      var flags: seq<bool> := [];
      var i := 0;
      while i < |page.buildings|
        invariant 0 <= i <= |page.buildings|
        invariant |flags| == i
        invariant forall j :: 0 <= j < i ==> flags[j] == NearRoute(pts, page.buildings[j])
      {
        var _, isNear := ScanBuilding(pts, page.buildings[i]);
        flags := flags + [isNear];
        i := i + 1;
      }
      nearRoute := flags;
    }

    /** The three updates setRoute and setWeather end with: readouts, route
        status and building highlights, each where its elements exist. */
    method Refresh()
      modifies this`riskText, this`riskAlert, this`speedText, this`statusText, this`nearRoute
      ensures Shown() == Repainted(activeMode, currentWeather, old(Shown()))
    {
      UpdateTelemetry();
      UpdateRouteStatus();
      UpdateBuildingHighlights();
      AlertIffAboveSeven(Compute(Routes(activeMode), currentWeather).risk);
    }

    /** setRoute(mode): as in the three-weather dashboard, and the status
        panel and building highlights follow the new route. */
    method SetRoute(mode: Mode)
      modifies this`activeMode, this`activeCards, this`activePaths
      modifies this`riskText, this`riskAlert, this`speedText, this`statusText, this`nearRoute
      ensures activeMode == mode && RouteMarked(mode, activeCards, activePaths)
      ensures Shown() == Repainted(mode, currentWeather, old(Shown()))
    {
      activeMode := mode;
      // every card and path loses `active`; the ones for `mode` regain it
      activeCards := if mode in page.cards then {mode} else {};
      var id := Routes(mode).pathId;
      activePaths := if id in page.paths then {id} else {};
      Refresh();
    }

    /** setWeather(type): the weather is stored first; when a weather element
        is missing nothing else happens. Otherwise the button, the body class
        (with all four weather classes removed), the readouts, the status and
        the highlights follow. */
    method SetWeather(w: Weather)
      modifies this`currentWeather, this`activeWx, this`bodyClasses
      modifies this`riskText, this`riskAlert, this`speedText, this`statusText, this`nearRoute
      ensures currentWeather == w
      ensures !page.weatherEls ==>
        && activeWx == old(activeWx) && bodyClasses == old(bodyClasses)
        && Shown() == old(Shown())
      ensures page.weatherEls ==>
        && WeatherMarked(w, activeWx, old(bodyClasses), bodyClasses)
        && Shown() == Repainted(activeMode, w, old(Shown()))
    {
      currentWeather := w;
      if !page.weatherEls {
        return;
      }
      activeWx := if w in page.wxButtons then {w} else {};
      bodyClasses := BodyClasses(bodyClasses, w);
      Refresh();
    }
  }

  // ---- agent with fade reset ----------------------------------------------

  /** The agent of animateAgentLoop. An overrun frame hides the agent and
      starts a 300 ms timer that resets the progress and then starts a 200 ms
      timer that shows the agent again; the timers still to fire are counted. */
  class Agent {
    var progress: real
    /** agent.style.opacity is '1'. */
    var visible: bool
    /** 300 ms timers not yet fired; each will set progress to 0. */
    var pendingResets: nat
    /** 200 ms timers not yet fired; each will set the opacity to '1'. */
    var pendingShows: nat

    constructor ()
      ensures progress == 0.0 && visible && pendingResets == 0 && pendingShows == 0
    {
      progress, visible, pendingResets, pendingShows := 0.0, true, 0, 0;
    }

    /** One animation frame. When the active route's path is missing the
        frame stops the animation. Otherwise the progress advances; a frame
        that overruns the path hides the agent, schedules a reset and draws
        nothing; any other frame draws the agent at its progress. */
    method Step(d: Dashboard) returns (pose: Option<Pose>, again: bool)
      requires progress >= 0.0 && ValidPage(d.page)
      modifies this`progress, this`visible, this`pendingResets
      ensures progress >= 0.0
      ensures again <==> Routes(d.activeMode).pathId in d.page.paths
      ensures !again ==>
        progress == old(progress) && visible == old(visible) && pendingResets == old(pendingResets) && pose == None
      ensures again ==>
        var shape := d.page.paths[Routes(d.activeMode).pathId];
        && progress == old(progress) + TickIncrement(Routes(d.activeMode).speed, d.currentWeather, AgentFactor)
        && (progress > shape.len ==> !visible && pendingResets == old(pendingResets) + 1 && pose == None)
        && (progress <= shape.len ==>
              visible == old(visible) && pendingResets == old(pendingResets)
              && pose == Some(PoseAt(shape, progress, GlyphTurn)))
    {
      var id := Routes(d.activeMode).pathId;
      if id !in d.page.paths {
        return None, false;
      }
      var shape := d.page.paths[id];
      var len := shape.len;
      var currentSpeed := Routes(d.activeMode).speed as real;
      if d.currentWeather != Sun {
        currentSpeed := currentSpeed * 0.6;
      }
      progress := progress + currentSpeed * AgentFactor;
      pose := None;
      if progress > len {
        visible := false;
        pendingResets := pendingResets + 1;
      }
      if progress <= len {
        pose := Some(PoseAt(shape, progress, GlyphTurn));
      }
      again := true;
    }

    /** A 300 ms timer fires: progress goes back to 0 and the 200 ms timer
        that shows the agent starts. */
    method FireReset()
      requires pendingResets > 0
      modifies this`progress, this`pendingResets, this`pendingShows
      ensures progress == 0.0
      ensures pendingResets == old(pendingResets) - 1 && pendingShows == old(pendingShows) + 1
    {
      progress := 0.0;
      pendingResets := pendingResets - 1;
      pendingShows := pendingShows + 1;
    }

    /** A 200 ms timer fires: the agent is shown again. */
    method FireShow()
      requires pendingShows > 0
      modifies this`visible, this`pendingShows
      ensures visible && pendingShows == old(pendingShows) - 1
    {
      visible := true;
      pendingShows := pendingShows - 1;
    }
  }
}
