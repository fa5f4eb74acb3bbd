/** The risk and speed readouts that updateTelemetry computes from a route
    profile and the current weather, and the text it writes for them.

    Risk values (base risk and weather penalties) are counted in tenths of a
    point, so 6.5 is 65 and the ceiling 10 is 100: every value in the tables
    has one decimal, so the sums and the one-decimal text are exact. */
module Telemetry {
  import opened Common

  /** Math.min(risk, 10), in tenths. */
  const MaxRisk: nat := 100
  /** The readout turns to the accent colour when its value is above 7. */
  const AlertAbove: nat := 70

  /** One entry of a `routes` table: the SVG path id, the base risk and the
      per-weather penalties (tenths), and the nominal speed. */
  datatype Route = Route(pathId: string, baseRisk: nat, speed: nat, penalty: map<Weather, nat>)

  /** What updateTelemetry computes: the clamped risk in tenths, or None when
      the sum is NaN because the table has no penalty for the weather, and the
      floored speed. */
  datatype Reading = Reading(risk: Option<nat>, speed: nat)

  /** The risk before clamping; meaningful when `w` is sun or has a penalty. */
  ghost function RawRisk(r: Route, w: Weather): nat
  {
    if w == Sun || w !in r.penalty then r.baseRisk else r.baseRisk + r.penalty[w]
  }

  /** updateTelemetry's arithmetic. Outside sun the penalty is added and the
      speed is scaled by 0.7; the risk is clamped at 10 and the speed floored. */
  function Compute(r: Route, w: Weather): (t: Reading)
    ensures t.risk.None? <==> w != Sun && w !in r.penalty
    ensures t.risk.Some? ==> t.risk.value <= MaxRisk && t.risk.value <= RawRisk(r, w)
    ensures t.risk.Some? ==> t.risk.value == RawRisk(r, w) || t.risk.value == MaxRisk
    ensures w == Sun ==> t.speed == r.speed
    ensures w != Sun ==> 10 * t.speed <= 7 * r.speed < 10 * t.speed + 10
  {
    var raw := if w == Sun then Some(r.baseRisk)
               else if w in r.penalty then Some(r.baseRisk + r.penalty[w])
               else None;
    var risk := match raw
                case Some(v) => Some(if v < MaxRisk then v else MaxRisk)
                case None => None;
    var speed := if w == Sun then r.speed else (r.speed * 7) / 10;
    Reading(risk, speed)
  }

  /** Number.prototype.toFixed(1) of a value given in tenths. */
  function FixedText(t: nat): string
  {
    NatText(t / 10) + "." + [DigitChar(t % 10)]
  }

  /** The text written to the risk readout: toFixed(1), or "NaN". */
  function RiskText(risk: Option<nat>): string
  {
    match risk
    case Some(v) => FixedText(v)
    case None => "NaN"
  }

  /** JavaScript's conversion of a readout text to a number, in tenths, for
      the texts toFixed(1) produces (digits, a point, one digit); None is NaN. */
  function NumberOfText(s: string): Option<nat>
  {
    if |s| >= 3 && s[|s| - 2] == '.' && IsDigit(s[|s| - 1]) && AllDigits(s[..|s| - 2])
    then Some(10 * DigitsValue(s[..|s| - 2]) + DigitValue(s[|s| - 1]))
    else None
  }

  /** Reading the one-decimal text back gives the value it was made from. */
  lemma FixedTextRoundTrip(t: nat)
    ensures NumberOfText(FixedText(t)) == Some(t)
  {
    var s := FixedText(t);
    assert s[..|s| - 2] == NatText(t / 10);
    NatTextValue(t / 10);
  }

  /** The colour test `risk > 7` on the readout text. */
  function RiskAlert(text: string): bool
  {
    match NumberOfText(text)
    case Some(v) => v > AlertAbove
    case None => false
  }

  /** The accent colour is used exactly when the clamped risk is above 7; a
      NaN risk never uses it. */
  lemma AlertIffAboveSeven(risk: Option<nat>)
    ensures RiskAlert(RiskText(risk)) <==> risk.Some? && risk.value > AlertAbove
  {
    if risk.Some? {
      FixedTextRoundTrip(risk.value);
    }
  }

  /** The text written to the speed readout: Math.floor(speed). */
  function SpeedText(t: Reading): (s: string)
    ensures AllDigits(s) && DigitsValue(s) == t.speed
  {
    NatTextValue(t.speed);
    NatText(t.speed)
  }
}
