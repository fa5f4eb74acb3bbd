/** Vocabulary shared by the NavX page scripts: the route modes and weather
    kinds the dashboard switches between, the parts of the page the scripts
    look up, an abstract SVG path, and the string helpers (digits, upper case,
    `Array.prototype.join`, splitting into lines) the scripts rely on. */
module Common {

  datatype Option<T> = None | Some(value: T)

  /** The keys of the dashboards' `routes` tables. */
  datatype Mode = Fastest | Scenic | Comfort

  function ModeName(m: Mode): string
  {
    match m
    case Fastest => "fastest"
    case Scenic => "scenic"
    case Comfort => "comfort"
  }

  /** The weather kinds the dashboards' weather buttons pass to setWeather. */
  datatype Weather = Sun | Rain | Fog | Snow

  function WeatherName(w: Weather): string
  {
    match w
    case Sun => "sun"
    case Rain => "rain"
    case Fog => "fog"
    case Snow => "snow"
  }

  /** The body class `weather-${type}` that setWeather adds. */
  function WeatherClass(w: Weather): string
  {
    "weather-" + WeatherName(w)
  }

  /** classList.remove(...removed) followed by classList.add(weather-${type}). */
  function SwapWeatherClass(classes: set<string>, removed: set<string>, w: Weather): (r: set<string>)
    ensures WeatherClass(w) in r
    ensures forall c :: c in removed && c != WeatherClass(w) ==> c !in r
    ensures forall c :: c in classes && c !in removed ==> c in r
    ensures forall c :: c in r ==> c in classes || c == WeatherClass(w)
  {
    classes - removed + {WeatherClass(w)}
  }

  datatype Point = Point(x: real, y: real)

  /** An SVG path element as the scripts use it: getTotalLength() is `len`
      and getPointAtLength() is `pointAt`, which stays uninterpreted. */
  datatype PathShape = PathShape(len: real, pointAt: real -> Point)

  /** A `g[data-building]` element with its parsed `data-x` / `data-y`. */
  datatype Building = Building(x: real, y: real)

  /** The elements of a dashboard page the scripts look up by id or selector. */
  datatype Page = Page(
    cards: set<Mode>,               // .route-card[data-type=...] present
    paths: map<string, PathShape>,  // SVG path elements, by id
    riskEl: bool,                   // #tele-risk present
    speedEl: bool,                  // #tele-speed present
    weatherEls: bool,               // #weather-fx, #w-icon, #w-temp and #w-desc all present
    wxButtons: set<Weather>,        // .wx-btn[data-wx=...] present
    statusEl: bool,                 // #route-status present
    buildings: seq<Building>,       // g[data-building], in document order
    mobile: bool)                   // window.innerWidth <= 768

  /** A browser never reports a negative path length. */
  ghost predicate ValidPage(p: Page)
  {
    forall id :: id in p.paths ==> p.paths[id].len >= 0.0
  }

  // ---- digits -------------------------------------------------------------

  predicate IsDigit(c: char)
  {
    '0' <= c <= '9'
  }

  predicate AllDigits(s: string)
  {
    forall i :: 0 <= i < |s| ==> IsDigit(s[i])
  }

  function DigitChar(d: nat): (c: char)
    requires d < 10
    ensures IsDigit(c) && c as int - '0' as int == d
  {
    ('0' as int + d) as char
  }

  function DigitValue(c: char): nat
    requires IsDigit(c)
  {
    c as int - '0' as int
  }

  /** The decimal value of a string of digits, read left to right. */
  function DigitsValue(s: string): nat
    requires AllDigits(s)
  {
    if s == [] then 0 else 10 * DigitsValue(s[..|s| - 1]) + DigitValue(s[|s| - 1])
  }

  /** JavaScript's conversion of a non-negative integer to its decimal text. */
  function NatText(n: nat): (s: string)
    ensures |s| >= 1 && AllDigits(s)
    ensures n >= 10 ==> s[0] != '0'
  {
    if n < 10 then [DigitChar(n)] else NatText(n / 10) + [DigitChar(n % 10)]
  }

  /** Reading the decimal text of `n` back gives `n`. */
  lemma {:induction false} NatTextValue(n: nat)
    ensures DigitsValue(NatText(n)) == n
  {
    if n >= 10 {
      var s := NatText(n);
      assert s[..|s| - 1] == NatText(n / 10);
      NatTextValue(n / 10);
    }
  }

  // ---- upper case ---------------------------------------------------------

  function UpperChar(c: char): char
  {
    if 'a' <= c <= 'z' then (c as int - 32) as char else c
  }

  /** String.prototype.toUpperCase, on the ASCII letters. */
  function ToUpper(s: string): (r: string)
    ensures |r| == |s|
    ensures forall i :: 0 <= i < |s| ==> r[i] == UpperChar(s[i])
  {
    if s == [] then [] else [UpperChar(s[0])] + ToUpper(s[1..])
  }

  // ---- join and split -----------------------------------------------------

  /** Array.prototype.join(sep). */
  function Join(parts: seq<string>, sep: string): string
  {
    if |parts| == 0 then ""
    else if |parts| == 1 then parts[0]
    else parts[0] + sep + Join(parts[1..], sep)
  }

  /** The pieces of `s` between occurrences of `c` (String.prototype.split). */
  function Split(s: string, c: char): (r: seq<string>)
    ensures |r| >= 1
  {
    if s == [] then [""]
    else
      var rest := Split(s[1..], c);
      if s[0] == c then [""] + rest else [[s[0]] + rest[0]] + rest[1..]
  }

  lemma {:induction false} SplitWithout(a: string, c: char)
    requires c !in a
    ensures Split(a, c) == [a]
  {
    if a != [] {
      SplitWithout(a[1..], c);
      assert [a[0]] + a[1..] == a;
    }
  }

  lemma {:induction false} SplitAt(a: string, c: char, b: string)
    requires c !in a
    ensures Split(a + [c] + b, c) == [a] + Split(b, c)
  {
    if a == [] {
      assert a + [c] + b == [c] + b;
      assert ([c] + b)[1..] == b;
    } else {
      var s := a + [c] + b;
      assert s[0] == a[0];
      assert s[1..] == a[1..] + [c] + b;
      SplitAt(a[1..], c, b);
      assert [a[0]] + a[1..] == a;
    }
  }

  /** Joining pieces with a separator they do not contain and splitting at
      that separator gives the pieces back. */
  lemma {:induction false} SplitJoin(parts: seq<string>, c: char)
    requires |parts| >= 1
    requires forall i :: 0 <= i < |parts| ==> c !in parts[i]
    ensures Split(Join(parts, [c]), c) == parts
  {
    if |parts| == 1 {
      SplitWithout(parts[0], c);
    } else {
      SplitJoin(parts[1..], c);
      SplitAt(parts[0], c, Join(parts[1..], [c]));
      assert [parts[0]] + parts[1..] == parts;
    }
  }
}
