# NavX dashboard logic in Dafny

NavX is a demo website for a route-planning product. Most of its scripts wire
up the page. Four pieces of deterministic logic sit inside them, and this
project models those four and proves their properties:

- **Telemetry.** `updateTelemetry` in both dashboard scripts. For the active
  route and weather it computes the risk readout: the base risk plus the
  weather penalty, clamped at 10 and shown with one decimal. It computes the
  speed readout: 0.7 of the route speed outside sun, floored. When the risk is
  above 7 the risk readout uses the accent colour.
- **Progress state machines.** All three advance an offset along an SVG path
  once per animation frame.
  - `dashboard.js` resets an overrun to 0 in the same frame.
  - `public/dashboard.js` hides the agent on an overrun frame and resets it
    through two timers.
  - `src/scripts/main.js` moves three robots, each with its own rate, at a
    fraction of their paths in [0, 1).
- **Building proximity.** This is `updateBuildingHighlights` in
  `public/dashboard.js`. It samples the active path at `samples + 1` offsets.
  It scans the samples with an early `break` and marks every building with a
  sample closer than 95 units.
- **Typewriter preloader.** `initPreloader` in `script.js` and
  `src/scripts/main.js`. It types "NavX Team" one character every 150 ms,
  starting after 500 ms. The typeWriter call that finds the text complete
  schedules the reveal 800 ms later, and the page is revealed once.

Modules:

| module | file | models |
|---|---|---|
| `Common` | common.dfy | modes, weathers, the page elements the scripts look up, an abstract SVG path, and digit/upper-case/join/split helpers |
| `Telemetry` | telemetry.dfy | the readout arithmetic and texts shared by both dashboards |
| `Motion` | motion.dfy | the per-frame increment, the look-ahead, the hard reset and the agent's pose |
| `RootDashboard` | root_dashboard.dfy | `dashboard.js`: routes table, dashboard state, and the agent with the hard reset |
| `PublicDashboard` | public_dashboard.dfy | `public/dashboard.js`: routes table with snow, route status, building highlights, the body weather class, and the agent with the fade reset |
| `Simulation` | simulation.dfy | `initSimulation` of `src/scripts/main.js` |
| `Preloader` | preloader.dfy | `initPreloader` of `script.js` and `src/scripts/main.js` |

Modelling choices:

- **Risk values are integers in tenths.** 6.5 is 65 and the ceiling 10 is 100.
  Every value in the tables has one decimal, so sums, clamping and
  `toFixed(1)` are exact.
- **The speed readout** is `floor(speed * 7 / 10)` on naturals.
- **A missing penalty.** `dashboard.js` has no snow entry, so a snow risk is
  NaN. The model gives `None`, shown as "NaN", and NaN never triggers the
  alert.
- **Offsets and lengths are exact reals.**
- **SVG paths.** An SVG path is its length plus an uninterpreted
  `pointAt: real -> Point`, which stands for `getPointAtLength`.
- **The dashboards' globals and page state** are fields of a `Dashboard`
  class. The closure variable `progress` is a field of an `Agent` class.
- **Timers are events.**
  - The fade-reset agent counts its unfired 300 ms and 200 ms timers.
  - The typewriter holds its one scheduled timer, with the millisecond time it
    is due. `Fire` moves the clock to that time and runs the callback.

A natural statement of the wrap's liveness is "after ceil(len / rate) frames
the progress has wrapped". The code tests `progress > len`, so when len
is an exact multiple of the increment, the frame that lands on the end does
not wrap, and the wrap comes one frame later. The model follows the code.
`Motion.NoWrapWithinLength` states this, and `Motion.WrapsWithin` gives the
bound the code does meet: the wrap happens within the first n frames once
`p + n * inc > len`. `Simulation.ResetsWithin` is the same bound for the `>= 1`
test of `src/scripts/main.js`.

## Model

| member | source | states |
|---|---|---|
| Common.SwapWeatherClass | dashboard.js:208-210 | the new weather class is on the body, every removed class other than it is gone, every class that was not removed stays, and no other class appears |
| Common.NatText | dashboard.js:337-339 | the decimal text of a number is non-empty, all digits, and has no leading zero |
| Common.NatTextValue | dashboard.js:337-339 | reading the decimal text back gives the number |
| Common.ToUpper | public/dashboard.js:210 | upper-casing keeps the length and maps every character through the letter mapping |
| Common.SplitJoin | public/dashboard.js:210 | splitting at a separator that appears in no piece gives back the pieces that were joined with it |
| Telemetry.Compute | dashboard.js:313-325 | the risk is NaN exactly when the weather is not sun and has no penalty; otherwise it is the raw sum or 10, whichever is smaller; the speed is unchanged in sun and floor(0.7 * speed) otherwise |
| Telemetry.FixedTextRoundTrip | dashboard.js:325 | converting the one-decimal text to a number gives back the value in tenths |
| Telemetry.AlertIffAboveSeven | dashboard.js:331-335 | the accent colour is chosen exactly when the clamped risk is above 7, and never for NaN |
| Telemetry.SpeedText | dashboard.js:337-339 | the speed text is all digits and its value is the floored speed |
| Motion.TickIncrement | dashboard.js:357-360 | the increment is non-negative; it is speed * factor in sun and 0.6 of that otherwise |
| Motion.LookAhead | dashboard.js:370 | min(progress + 10, len) lies between progress and len, and is progress + 10 whenever that fits |
| Motion.PoseAt | dashboard.js:366-381 | the agent is drawn at its progress and looks towards the point at min(progress + 10, len), which is no further than the end of the path |
| Motion.HardWrap | dashboard.js:362-364 | after the reset the progress lies in [0, len]; it keeps its value exactly when it does not overrun, and an overrun gives 0 |
| Motion.NoWrapWithinLength | dashboard.js:360-364 | while the progress does not pass the end it grows by the increment each frame, including the frame that lands exactly on the end |
| Motion.TicksStep | dashboard.js:360-364 | one more frame applies the increment and the reset to the progress reached so far |
| Motion.WrapsWithin | dashboard.js:360-364 | once n increments overrun the path, the progress is reset to 0 on one of the first n frames |
| RootDashboard.ReadoutTable | dashboard.js:115-134 | the risk and speed texts for all nine route/weather pairs (fastest + fog clamps 10.5 to 10.0, fastest + rain gives 9.0 and 56), and NaN for snow |
| RootDashboard.FixedTexts | dashboard.js:325 | the one-decimal texts of the nine clamped risks of the table |
| RootDashboard.AlertTable | dashboard.js:331-335 | the accent colour appears exactly for the fastest route in rain or fog |
| RootDashboard.SunReadout | dashboard.js:318-325 | in sun the readouts show the base risk and the route speed |
| RootDashboard.IncrementTable | dashboard.js:357-360 | the per-frame increments speed * 0.05, times 0.6 outside sun |
| RootDashboard.Dashboard.constructor | dashboard.js:155-162 | after initDashboard the fastest route and sun are selected, their card, path and button are active, and the readouts match |
| RootDashboard.Dashboard.UpdateTelemetry | dashboard.js:313-340 | the readouts that exist show the computed risk text, its colour and the speed text; missing readouts keep their state |
| RootDashboard.Dashboard.SetRoute | dashboard.js:165-191 | activeMode is the new mode, only its card and its path are active (when they exist), and the readouts follow |
| RootDashboard.Dashboard.SetWeather | dashboard.js:194-311 | the weather is stored; with a weather element missing nothing else changes; otherwise only its button is active, the body class is swapped and the readouts follow |
| RootDashboard.Agent.constructor | dashboard.js:347 | progress starts at 0 |
| RootDashboard.Agent.RunFrames | dashboard.js:343-383 | n frames with the route and weather unchanged and the path present leave the progress at n ticks of the route's increment with the hard reset, the sequence NoWrapWithinLength and WrapsWithin are about |
| RootDashboard.Agent.Step | dashboard.js:350-383 | a missing path stops the loop; otherwise the progress advances by the increment with the hard reset, stays in [0, len], and the agent is drawn there, turned 90 degrees |
| PublicDashboard.SnowReadouts | public/dashboard.js:92-96 | the snow readouts are 9.7/56, 3.0/31 and 4.7/38; fastest + fog still reads 10.0 |
| PublicDashboard.AlertTable | public/dashboard.js:171-175 | every risk of this table is a number, and the accent colour appears exactly for the fastest route outside sun |
| PublicDashboard.IncrementTable | public/dashboard.js:187-189 | the per-frame increments speed * 0.025, times 0.6 outside sun |
| PublicDashboard.DetailText | public/dashboard.js:208 | the weather's own text is used when it is present and not empty; otherwise the sun text is used |
| PublicDashboard.StatusHasFourLines | public/dashboard.js:203-211 | a route the table lacks shows "No data"; otherwise the status text splits at newlines into exactly its four lines: mode and environment, base, weather detail, and features |
| PublicDashboard.TableIsComplete | public/dashboard.js:98-102 | every route has a non-empty text for every weather, so the sun fallback never applies to this table |
| PublicDashboard.FastestSnowStatus | public/dashboard.js:209-210 | the status panel for the fastest route in snow, line by line, with the features joined by ", " |
| PublicDashboard.UpperFastest | public/dashboard.js:210 | the mode "fastest" is shown as "FASTEST" |
| PublicDashboard.SampleCount | public/dashboard.js:217-218 | 90 samples on a mobile screen, 180 on any other |
| PublicDashboard.SampleOffsetBounds | public/dashboard.js:220-221 | the sample offsets len * i / samples start at 0, end at len, stay within [0, len] and increase |
| PublicDashboard.Samples | public/dashboard.js:219-223 | there are samples + 1 sample points |
| PublicDashboard.SamplePath | public/dashboard.js:219-223 | the loop pushes samples + 1 points, the i-th taken at offset len * i / samples |
| PublicDashboard.ScanBuilding | public/dashboard.js:228-236 | the early-exit scan marks the building near exactly when some sample is strictly within 95 units; with no break its distance is the minimum over all samples, and it is always attained by a sample |
| PublicDashboard.NearFlags | public/dashboard.js:225-237 | there is one highlight flag per building |
| PublicDashboard.BodyClassesAsWritten | public/dashboard.js:150-151 | the class swap as written adds the new weather class, removes weather-sun, weather-rain and weather-fog other than it, keeps every other class (weather-snow included), and adds nothing else |
| PublicDashboard.SwapsAgree | public/dashboard.js:150-151 | the corrected swap gives the same classes as the one as written exactly when the body lacks weather-snow or snow is chosen |
| PublicDashboard.SnowClassLingers | public/dashboard.js:150 | as written, snow followed by rain leaves both weather-snow and weather-rain on the body |
| PublicDashboard.WeatherClassNames | public/dashboard.js:151 | the four weather class names |
| PublicDashboard.BodyClasses | public/dashboard.js:150-151 | the corrected class swap adds the new weather class |
| PublicDashboard.OneWeatherClass | public/dashboard.js:150-151 | after the corrected swap, the new class is the only weather class; every class that is not a weather class is kept |
| PublicDashboard.Dashboard.constructor | public/dashboard.js:104-105 | the globals hold "fastest" and "sun"; the markup is taken to start with no active card, path or button, unwritten readouts and status, and no highlighted building |
| PublicDashboard.Dashboard.InitDashboard | public/dashboard.js:119-126 | after setRoute("fastest") and setWeather("sun") the fastest card and path are active; with the weather elements present the sun button is active and the body classes are swapped by the corrected swap; with one missing the button and the body classes are untouched; the readouts, status and highlights are one repaint (`Repainted`) of the panel as it was before the call, for fastest in sun, or in the weather current before the call when a weather element is missing |
| PublicDashboard.Dashboard.RepaintedShows | public/dashboard.js:167-238 | after a repaint each readout, the status panel and the highlights that exist show route m in weather w, the colour being the text test `risk > 7`; each missing element keeps its content |
| PublicDashboard.Dashboard.RepaintedTwice | public/dashboard.js:119-123 | a second repaint for the same route overwrites everything the first wrote, so setRoute followed by setWeather leaves one repaint in the new weather |
| PublicDashboard.Dashboard.Refresh | public/dashboard.js:136-138 | the readouts, status panel and highlights are the repaint (`Repainted`) of what they were, for the current route and weather |
| PublicDashboard.Dashboard.UpdateTelemetry | public/dashboard.js:167-177 | the readouts that exist show the computed risk text, its colour and the speed text |
| PublicDashboard.Dashboard.UpdateRouteStatus | public/dashboard.js:203-211 | where the panel exists, it shows the status text of the current route and weather |
| PublicDashboard.Dashboard.UpdateBuildingHighlights | public/dashboard.js:213-238 | a missing path changes nothing; otherwise each building is highlighted exactly when some sample of the active path is within 95 units |
| PublicDashboard.Dashboard.SetRoute | public/dashboard.js:128-140 | activeMode is the new mode, only its card and path are active, and the readouts, status and highlights are repainted for the new route |
| PublicDashboard.Dashboard.SetWeather | public/dashboard.js:142-165 | the weather is stored; with a weather element missing nothing else changes; otherwise only its button is active, the body classes are swapped by the corrected swap (one weather class), and the readouts, status and highlights are repainted for the new weather |
| PublicDashboard.Agent.constructor | public/dashboard.js:182 | progress starts at 0, visible, with no timers pending |
| PublicDashboard.Agent.Step | public/dashboard.js:183-198 | a missing path stops the loop; otherwise the progress advances; an overrun frame hides the agent, schedules a reset and draws nothing; any other frame draws the agent at its progress |
| PublicDashboard.Agent.FireReset | public/dashboard.js:190 | the 300 ms timer resets the progress to 0 and schedules the 200 ms show timer |
| PublicDashboard.Agent.FireShow | public/dashboard.js:190 | the 200 ms timer shows the agent again |
| Simulation.Index | src/scripts/main.js:113-119 | every robot has its place in the key order of animState |
| Simulation.Advance | src/scripts/main.js:124-125 | the progress stays in [0, 1): it grows by the rate, and reaching 1 resets it to 0 |
| Simulation.ArcOffsetBounds | src/scripts/main.js:126-127 | a fraction in [0, 1) of a positive path length is an offset in [0, length) |
| Simulation.Frames | src/scripts/main.js:118-131 | after any number of frames the progress is still in [0, 1) |
| Simulation.FramesStep | src/scripts/main.js:124-125 | one more frame advances the progress reached so far |
| Simulation.ResetsWithin | src/scripts/main.js:124-125 | once n steps of the rate reach 1, progress is reset to 0 on one of the first n frames |
| Simulation.Simulation.constructor | src/scripts/main.js:98-117 | `d` is set on exactly the path elements that exist, and every robot starts at 0 |
| Simulation.DrawnAtFraction | src/scripts/main.js:126-127 | a robot at a fraction in [0, 1) is drawn at a point of its path no further than its length |
| Simulation.MoveStep | src/scripts/main.js:119-128 | after the callback for the i-th key, the first i + 1 robots have moved and been drawn as the frame requires, and the others are untouched |
| Simulation.Simulation.MoveRobot | src/scripts/main.js:119-128 | a robot whose path or element is missing is skipped; otherwise only its progress advances by its own rate, and it is drawn at progress * length |
| Simulation.Simulation.Animate | src/scripts/main.js:118-129 | given the shapes of the path elements the constructor looked up, robots whose path or robot element is missing stay as they were; every other robot advances by its own rate only and is drawn at progress * length, which lies on its path |
| Simulation.Simulation.RunFrames | src/scripts/main.js:118-131 | after n frames each drawn robot's progress depends only on its own start and rate, while skipped robots never move |
| Preloader.NavXRevealTime | script.js:2-4 | "NavX Team" has 9 characters and is revealed 500 + 9 * 150 + 800 = 2650 ms after initPreloader |
| Preloader.Typewriter.Start | script.js:12-35 | nothing is typed yet and the first typeWriter call is due at 500 ms |
| Preloader.Typewriter.StartGuarded | src/scripts/main.js:32-52 | with an element missing nothing is scheduled; otherwise the first typeWriter call is due at 500 ms |
| Preloader.Typewriter.Fire | script.js:18-32 | the element always holds the first charIndex characters, and charIndex never passes the length; typeWriter appends one character and reschedules itself 150 ms later until the text is complete, then schedules finishLoading 800 ms later; finishLoading runs once and leaves nothing scheduled |
| Preloader.Typewriter.RunToFinish | script.js:18-35 | once typing has started, the whole text is typed and finishLoading runs exactly once, at 500 + length * 150 + 800 ms |

## Left out

- Mobile menu, sidebar, `setRouteFromMobile`, the custom cursor and the scroll reveal: these only wire events to the page.
- The weather overlays (random rain drops, fog layers), icons, temperatures and descriptions, and `log`: they build random or clock-dependent page content.
- `getTotalLength` and `getPointAtLength` are abstract: a length and an uninterpreted function. The `atan2` heading is left out: a pose records the two points it is computed from, and the fixed turn added to it.
- `requestAnimationFrame` and `setTimeout` are not concurrency here. Each frame or timer is one method call. The `window.onload` and `DOMContentLoaded` start-up delays (1500 ms, 100 ms, 1200 ms) are not modelled.
- JavaScript floating point: `* 0.7`, `* 0.6`, the per-frame factors and `toFixed(1)` are exact (tenths for risk, reals for progress). Rounding errors of the browser's doubles do not appear in the model.
- Telemetry.Compute: does not model the floating-point error of `* 0.7` before `Math.floor`, because the model's arithmetic is exact.
- A mode outside the routes table makes `routes[mode]` undefined, and the scripts then throw a TypeError. Modes are an enumeration here, so that case does not arise in the model.
- `parseFloat` of a building's `data-x`/`data-y` is left out, because buildings arrive with their coordinates already parsed. A NaN coordinate, which would never be near, is not modelled.
- The mobile `viewBox` rewrite in `public/dashboard.js`, and `vite.config.js`, which is build configuration.
- `innerHTML +=` is taken as appending plain text. HTML parsing of the typed characters is not modelled.
- PublicDashboard.Dashboard.SetWeather: swaps the body classes with the corrected `BodyClasses`, which removes all four weather classes. The line as written keeps a weather-snow class (see Findings). `BodyClassesAsWritten` models that line, and `SwapsAgree` states exactly when the two differ: the body carries weather-snow and another weather is chosen.
- PublicDashboard.Dashboard.InitDashboard: uses SetWeather, so its body classes come from the corrected swap too. By `SwapsAgree` they are the classes of the line as written unless the body already carries weather-snow.
- PublicDashboard.Dashboard.WeatherMarked: states the body classes of the corrected swap, for the same reason.
- Preloader.Typewriter.Start: script.js checks for none of its elements, and the model always schedules, types and reaches `finished`, which `Fire` and `RunToFinish` promise. In the browser, a missing text element makes the first typeWriter call throw (script.js:20), so nothing is typed. A missing cursor lets all the characters be typed, but finishLoading throws at its first line (script.js:29). A missing preloader lets the cursor be hidden before finishLoading throws (script.js:30). In all three cases the page is never revealed.
- PublicDashboard.Dashboard.constructor: the initial classes and texts of the markup are assumptions. The script does not set them.
- `NearFlags` is the specification the highlight loop is proved against. It does not model the class list of each building element.

## Findings

| source | as written | input that shows it | evidently intended | confidence | as-written member | corrected member |
|---|---|---|---|---|---|---|
| public/dashboard.js:150 | setWeather removes only weather-sun, weather-rain and weather-fog before adding `weather-${type}`, although this dashboard also offers snow | setWeather("snow") then setWeather("rain"): the body carries weather-snow and weather-rain | all four weather classes are removed, so the body carries exactly the current weather's class | not executed | PublicDashboard.SnowClassLingers | PublicDashboard.OneWeatherClass |
