/** The arithmetic of the dashboards' agent animation (animateAgentLoop's
    `step`): how far the agent moves per frame, the hard reset at the end of
    the path, and the look-ahead offset used for its heading. Offsets are arc
    lengths along the SVG path, as exact reals. */
module Motion {
  import opened Common

  /** The heading is taken towards the point this far ahead on the path. */
  const LookAheadDistance: real := 10.0

  /** What one frame writes to the agent's transform: the offset of its
      position and of the look-ahead point, the two points getPointAtLength
      returns there, and the fixed rotation added to the atan2 heading. */
  datatype Pose = Pose(offset: real, lookAhead: real, point: Point, next: Point, turn: real)

  /** The distance covered in one frame: the route speed, times 0.6 in any
      weather but sun, times the script's per-frame factor. */
  function TickIncrement(speed: nat, w: Weather, factor: real): (inc: real)
    requires factor >= 0.0
    ensures inc >= 0.0
    ensures w == Sun ==> inc == speed as real * factor
    ensures w != Sun ==> 10.0 * inc == 6.0 * speed as real * factor
  {
    var current := if w == Sun then speed as real else speed as real * 0.6;
    current * factor
  }

  /** Math.min(progress + 10, len). */
  function LookAhead(progress: real, len: real): (q: real)
    requires progress <= len
    ensures progress <= q <= len
    ensures q == progress + LookAheadDistance || q == len
    ensures progress + LookAheadDistance <= len ==> q == progress + LookAheadDistance
  {
    if progress + LookAheadDistance < len then progress + LookAheadDistance else len
  }

  /** The pose of the agent at `progress` on `shape`. */
  function PoseAt(shape: PathShape, progress: real, turn: real): (r: Pose)
    requires 0.0 <= progress <= shape.len
    ensures r.offset == progress && r.lookAhead == LookAhead(progress, shape.len)
    ensures progress <= r.lookAhead <= shape.len
    ensures r.point == shape.pointAt(r.offset) && r.next == shape.pointAt(r.lookAhead)
    ensures r.turn == turn
  {
    var ahead := LookAhead(progress, shape.len);
    Pose(progress, ahead, shape.pointAt(progress), shape.pointAt(ahead), turn)
  }

  /** `if (progress > len) progress = 0;` */
  function HardWrap(p: real, len: real): (q: real)
    requires p >= 0.0 && len >= 0.0
    ensures 0.0 <= q <= len
    ensures q == p <==> p <= len
    ensures p > len ==> q == 0.0
  {
    if p > len then 0.0 else p
  }

  /** The progress after `n` frames of the hard-reset animation on one path
      with a fixed increment. */
  function Ticks(p: real, inc: real, len: real, n: nat): real
    requires p >= 0.0 && inc >= 0.0 && len >= 0.0
    decreases n
  {
    if n == 0 then p else Ticks(HardWrap(p + inc, len), inc, len, n - 1)
  }

  /** One more frame applies the increment and the reset to the progress
      reached so far. */
  lemma {:induction false} TicksStep(p: real, inc: real, len: real, n: nat)
    requires p >= 0.0 && inc >= 0.0 && len >= 0.0
    ensures Ticks(p, inc, len, n) >= 0.0
    ensures Ticks(p, inc, len, n + 1) == HardWrap(Ticks(p, inc, len, n) + inc, len)
    decreases n
  {
    if n > 0 {
      TicksStep(HardWrap(p + inc, len), inc, len, n - 1);
    }
  }

  /** As long as the path is not overrun, the progress grows by the increment
      every frame; in particular it does not wrap on a frame that lands
      exactly on the end of the path. */
  lemma {:induction false} NoWrapWithinLength(p: real, inc: real, len: real, n: nat)
    requires p >= 0.0 && inc >= 0.0 && len >= 0.0
    requires p + n as real * inc <= len
    ensures Ticks(p, inc, len, n) == p + n as real * inc
    decreases n
  {
    if n > 0 {
      assert p + inc <= p + n as real * inc;
      NoWrapWithinLength(p + inc, inc, len, n - 1);
    }
  }

  /** Liveness of the wrap: once `n` increments overrun the path, the
      progress has been reset to 0 on some frame among the first `n`. */
  lemma {:induction false} WrapsWithin(p: real, inc: real, len: real, n: nat)
    requires 0.0 <= p <= len && inc > 0.0
    requires p + n as real * inc > len
    ensures exists k :: 1 <= k <= n && Ticks(p, inc, len, k) == 0.0
    decreases n
  {
    if p + inc > len {
      assert Ticks(p, inc, len, 1) == Ticks(0.0, inc, len, 0) == 0.0;
    } else {
      assert n != 1;
      var q := p + inc;
      assert q + (n - 1) as real * inc == p + n as real * inc;
      WrapsWithin(q, inc, len, n - 1);
      var k :| 1 <= k <= n - 1 && Ticks(q, inc, len, k) == 0.0;
      assert Ticks(p, inc, len, k + 1) == Ticks(q, inc, len, k);
    }
  }
}
