/** dashboard.js: the dashboard with three weathers (sun, rain, fog). The
    globals `activeMode` and `currentWeather`, the classes and readouts the
    script writes into the page, and the agent whose closure variable
    `progress` the animation frame advances with a hard reset. */
module RootDashboard {
  import opened Common
  import opened Telemetry
  import opened Motion

  /** The `routes` table: risk and penalties in tenths. It has no snow
      penalty. */
  function Routes(m: Mode): Route
  {
    match m
    case Fastest => Route("path-fastest", 65, 80, map[Rain := 25, Fog := 40])
    case Scenic => Route("path-scenic", 12, 45, map[Rain := 10, Fog := 15])
    case Comfort => Route("path-comfort", 25, 55, map[Rain := 15, Fog := 20])
  }

  /** The per-frame factor: progress grows by speed * 0.05. */
  const AgentFactor: real := 0.05
  /** The agent glyph points up, so 90 degrees are added to the heading. */
  const GlyphTurn: real := 90.0
  /** The body classes setWeather removes before adding the new one. */
  const RemovedWeatherClasses: set<string> := {"weather-sun", "weather-rain", "weather-fog"}

  /** The readouts for every route and weather of the page: in sun the base
      risk and the nominal speed; otherwise the penalty is added, 10.5 is
      clamped to 10.0 and the speed is floor(speed * 0.7). Snow has no entry
      in the table, so its risk reads NaN. */
  lemma ReadoutTable()
    ensures RiskText(Compute(Routes(Fastest), Sun).risk) == "6.5" && Compute(Routes(Fastest), Sun).speed == 80
    ensures RiskText(Compute(Routes(Fastest), Rain).risk) == "9.0" && Compute(Routes(Fastest), Rain).speed == 56
    ensures RiskText(Compute(Routes(Fastest), Fog).risk) == "10.0" && Compute(Routes(Fastest), Fog).speed == 56
    ensures RiskText(Compute(Routes(Scenic), Sun).risk) == "1.2" && Compute(Routes(Scenic), Sun).speed == 45
    ensures RiskText(Compute(Routes(Scenic), Rain).risk) == "2.2" && Compute(Routes(Scenic), Rain).speed == 31
    ensures RiskText(Compute(Routes(Scenic), Fog).risk) == "2.7" && Compute(Routes(Scenic), Fog).speed == 31
    ensures RiskText(Compute(Routes(Comfort), Sun).risk) == "2.5" && Compute(Routes(Comfort), Sun).speed == 55
    ensures RiskText(Compute(Routes(Comfort), Rain).risk) == "4.0" && Compute(Routes(Comfort), Rain).speed == 38
    ensures RiskText(Compute(Routes(Comfort), Fog).risk) == "4.5" && Compute(Routes(Comfort), Fog).speed == 38
    ensures forall m :: RiskText(Compute(Routes(m), Snow).risk) == "NaN"
  {
    assert Compute(Routes(Fastest), Sun) == Reading(Some(65), 80);
    assert Compute(Routes(Fastest), Rain) == Reading(Some(90), 56);
    assert Compute(Routes(Fastest), Fog) == Reading(Some(100), 56);
    assert Compute(Routes(Scenic), Sun) == Reading(Some(12), 45);
    assert Compute(Routes(Scenic), Rain) == Reading(Some(22), 31);
    assert Compute(Routes(Scenic), Fog) == Reading(Some(27), 31);
    assert Compute(Routes(Comfort), Sun) == Reading(Some(25), 55);
    assert Compute(Routes(Comfort), Rain) == Reading(Some(40), 38);
    assert Compute(Routes(Comfort), Fog) == Reading(Some(45), 38);
    FixedTexts();
  }

  /** toFixed(1) of the tenths the table produces. */
  lemma FixedTexts()
    ensures FixedText(65) == "6.5" && FixedText(90) == "9.0" && FixedText(100) == "10.0"
    ensures FixedText(12) == "1.2" && FixedText(22) == "2.2" && FixedText(27) == "2.7"
    ensures FixedText(25) == "2.5" && FixedText(40) == "4.0" && FixedText(45) == "4.5"
  {
  }

  /** Only the fastest route in rain or fog turns the risk readout to the
      accent colour. */
  lemma AlertTable(m: Mode, w: Weather)
    ensures RiskAlert(RiskText(Compute(Routes(m), w).risk)) <==> m == Fastest && (w == Rain || w == Fog)
  {
    AlertIffAboveSeven(Compute(Routes(m), w).risk);
  }

  /** In sun no penalty applies: the readouts show the base risk and the
      route speed. */
  lemma SunReadout(m: Mode)
    ensures Compute(Routes(m), Sun).risk == Some(Routes(m).baseRisk)
    ensures Compute(Routes(m), Sun).speed == Routes(m).speed
  {
  }

  /** The agent moves speed * 0.05 per frame in sun and 0.6 of that
      otherwise: 4 and 2.4 on the fastest route. */
  lemma IncrementTable()
    ensures TickIncrement(Routes(Fastest).speed, Sun, AgentFactor) == 4.0
    ensures TickIncrement(Routes(Fastest).speed, Rain, AgentFactor) == 2.4
    ensures TickIncrement(Routes(Scenic).speed, Sun, AgentFactor) == 2.25
    ensures TickIncrement(Routes(Comfort).speed, Fog, AgentFactor) == 1.65
  {
  }

  class Dashboard {
    const page: Page
    var activeMode: Mode
    var currentWeather: Weather
    /** Route cards with the `active` class. */
    var activeCards: set<Mode>
    /** Path elements with the `active` class. */
    var activePaths: set<string>
    /** Weather buttons with the `active` class. */
    var activeWx: set<Weather>
    var bodyClasses: set<string>
    /** innerText of #tele-risk, None until the script writes it. */
    var riskText: Option<string>
    /** Whether #tele-risk has the accent colour. */
    var riskAlert: bool
    /** innerText of #tele-speed, None until the script writes it. */
    var speedText: Option<string>

    /** The readouts show what updateTelemetry computes for the current
        route and weather (where the readout elements exist). */
    ghost predicate ReadoutsCurrent()
      reads this`activeMode, this`currentWeather, this`riskText, this`riskAlert, this`speedText
    {
      var t := Compute(Routes(activeMode), currentWeather);
      && (page.riskEl ==> riskText == Some(RiskText(t.risk)) && riskAlert == RiskAlert(RiskText(t.risk)))
      && (page.speedEl ==> speedText == Some(SpeedText(t)))
    }

    /** The page as loaded, then initDashboard: setRoute("fastest") and
        setWeather("sun"). */
    constructor (page: Page, body: set<string>)
      ensures this.page == page
      ensures activeMode == Fastest && currentWeather == Sun
      ensures activeCards == (if Fastest in page.cards then {Fastest} else {})
      ensures activePaths == (if "path-fastest" in page.paths then {"path-fastest"} else {})
      ensures activeWx == (if page.weatherEls && Sun in page.wxButtons then {Sun} else {})
      ensures bodyClasses == if page.weatherEls then SwapWeatherClass(body, RemovedWeatherClasses, Sun) else body
      ensures ReadoutsCurrent()
    {
      this.page := page;
      activeMode, currentWeather := Fastest, Sun;
      activeCards, activePaths, activeWx := {}, {}, {};
      bodyClasses := body;
      riskText, riskAlert, speedText := None, false, None;
      new;
      SetRoute(Fastest);
      SetWeather(Sun);
    }

    /** updateTelemetry: compute the readouts for the current selection and
        write them into the elements that exist. */
    method UpdateTelemetry()
      modifies this`riskText, this`riskAlert, this`speedText
      ensures ReadoutsCurrent()
      ensures !page.riskEl ==> riskText == old(riskText) && riskAlert == old(riskAlert)
      ensures !page.speedEl ==> speedText == old(speedText)
    {
      var t := Compute(Routes(activeMode), currentWeather);
      var risk := RiskText(t.risk);
      if page.riskEl {
        riskText := Some(risk);
        riskAlert := RiskAlert(risk);
      }
      if page.speedEl {
        speedText := Some(SpeedText(t));
      }
    }

    /** setRoute(mode): the mode becomes active, only its card and its path
        carry the `active` class, and the readouts are recomputed. */
    method SetRoute(mode: Mode)
      modifies this`activeMode, this`activeCards, this`activePaths
      modifies this`riskText, this`riskAlert, this`speedText
      ensures activeMode == mode
      ensures activeCards == (if mode in page.cards then {mode} else {})
      ensures activePaths == (if Routes(mode).pathId in page.paths then {Routes(mode).pathId} else {})
      ensures ReadoutsCurrent()
      ensures !page.riskEl ==> riskText == old(riskText) && riskAlert == old(riskAlert)
      ensures !page.speedEl ==> speedText == old(speedText)
    {
      activeMode := mode;
      // every card and path loses `active`; the ones for `mode` regain it
      activeCards := if mode in page.cards then {mode} else {};
      var id := Routes(mode).pathId;
      activePaths := if id in page.paths then {id} else {};
      UpdateTelemetry();
    }

    /** setWeather(type): the weather is stored first; when one of the
        weather elements is missing nothing else happens (not even the
        readout update). Otherwise the button for `type` is active, the body
        carries its weather class, and the readouts are recomputed. */
    method SetWeather(w: Weather)
      modifies this`currentWeather, this`activeWx, this`bodyClasses
      modifies this`riskText, this`riskAlert, this`speedText
      ensures currentWeather == w
      ensures !page.weatherEls ==>
        && activeWx == old(activeWx) && bodyClasses == old(bodyClasses)
        && riskText == old(riskText) && riskAlert == old(riskAlert) && speedText == old(speedText)
      ensures page.weatherEls ==>
        && activeWx == (if w in page.wxButtons then {w} else {})
        && bodyClasses == SwapWeatherClass(old(bodyClasses), RemovedWeatherClasses, w)
        && ReadoutsCurrent()
      ensures page.weatherEls && !page.riskEl ==> riskText == old(riskText) && riskAlert == old(riskAlert)
      ensures page.weatherEls && !page.speedEl ==> speedText == old(speedText)
    {
      currentWeather := w;
      if !page.weatherEls {
        return;
      }
      activeWx := if w in page.wxButtons then {w} else {};
      bodyClasses := SwapWeatherClass(bodyClasses, RemovedWeatherClasses, w);
      UpdateTelemetry();
    }
  }

  /** The agent of animateAgentLoop; `progress` is its closure variable. */
  class Agent {
    var progress: real

    constructor ()
      ensures progress == 0.0
    {
      progress := 0.0;
    }

    /** One animation frame. It re-reads the active route and weather. When
        the route's path element is missing the frame returns without asking
        for another one (`again` is false) and the animation stops. Otherwise
        the progress advances, an overshoot past the path's end is reset to 0
        in the same frame, and the agent is drawn there, turned 90 degrees. */
    method Step(d: Dashboard) returns (pose: Option<Pose>, again: bool)
      requires progress >= 0.0 && ValidPage(d.page)
      modifies this
      ensures again <==> Routes(d.activeMode).pathId in d.page.paths
      ensures !again ==> progress == old(progress) && pose == None
      ensures again ==>
        var shape := d.page.paths[Routes(d.activeMode).pathId];
        var inc := TickIncrement(Routes(d.activeMode).speed, d.currentWeather, AgentFactor);
        && progress == HardWrap(old(progress) + inc, shape.len)
        && 0.0 <= progress <= shape.len
        && pose == Some(PoseAt(shape, progress, GlyphTurn))
    {
      var id := Routes(d.activeMode).pathId;
      if id !in d.page.paths {
        return None, false;
      }
      var shape := d.page.paths[id];
      var len := shape.len;
      var currentSpeed := Routes(d.activeMode).speed as real;
      if d.currentWeather != Sun {
        currentSpeed := currentSpeed * 0.6;
      }
      progress := progress + currentSpeed * AgentFactor;
      if progress > len {
        progress := 0.0;
      }
      pose := Some(PoseAt(shape, progress, GlyphTurn));
      again := true;
    }

    /** `n` frames of the requestAnimationFrame chain while the route and
        the weather stay as they are and the route's path exists: the
        progress is that of `n` ticks of the route's increment. */
    method RunFrames(d: Dashboard, n: nat)
      requires progress >= 0.0 && ValidPage(d.page)
      requires Routes(d.activeMode).pathId in d.page.paths
      modifies this
      ensures progress == Ticks(old(progress), TickIncrement(Routes(d.activeMode).speed, d.currentWeather, AgentFactor),
                                d.page.paths[Routes(d.activeMode).pathId].len, n)
    {
      ghost var inc := TickIncrement(Routes(d.activeMode).speed, d.currentWeather, AgentFactor);
      ghost var len := d.page.paths[Routes(d.activeMode).pathId].len;
      var i := 0;
      while i < n
        invariant 0 <= i <= n
        invariant progress == Ticks(old(progress), inc, len, i)
        invariant progress >= 0.0
      {
        TicksStep(old(progress), inc, len, i);
        var _, _ := Step(d);
        i := i + 1;
      }
    }
  }
}
