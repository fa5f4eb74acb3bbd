/** src/scripts/main.js, initSimulation: three robots, each moving along its
    own route path with its own rate. Progress is kept per robot as a
    fraction of the path in [0, 1); the robot is drawn at that fraction of
    the path's length. */
module Simulation {
  import opened Common

  /** The keys of `animState`: speed, safety and comfort. */
  datatype Robot = SpeedBot | SafetyBot | ComfortBot

  /** Object.keys(animState), in insertion order. */
  const Order: seq<Robot> := [SpeedBot, SafetyBot, ComfortBot]

  function Index(k: Robot): (i: nat)
    ensures i < |Order| && Order[i] == k
  {
    match k
    case SpeedBot => 0
    case SafetyBot => 1
    case ComfortBot => 2
  }

  /** The `speed` field of each robot's state: its progress per frame. */
  function Rate(k: Robot): real
  {
    match k
    case SpeedBot => 0.006
    case SafetyBot => 0.004
    case ComfortBot => 0.005
  }

  /** The `paths` constants written to the `d` attribute of the path
      elements. */
  function PathData(k: Robot): string
  {
    match k
    case SpeedBot => "M 50 350 L 200 200 L 300 100 L 450 50 L 550 50"
    case SafetyBot => "M 50 350 L 100 370 L 200 370 L 350 360 L 450 320 L 500 250 L 520 150 L 540 100 L 550 50"
    case ComfortBot => "M 50 350 Q 150 330, 220 280 Q 280 240, 340 210 Q 420 170, 480 120 Q 520 90, 550 50"
  }

  /** `state.progress += state.speed; if (state.progress >= 1) state.progress = 0;` */
  function Advance(p: real, rate: real): (q: real)
    requires 0.0 <= p < 1.0 && rate >= 0.0
    ensures 0.0 <= q < 1.0
    ensures p + rate < 1.0 ==> q == p + rate
    ensures p + rate >= 1.0 ==> q == 0.0
  {
    if p + rate >= 1.0 then 0.0 else p + rate
  }

  /** A fraction in [0, 1) of a path of positive length is an offset in
      [0, length). */
  lemma ArcOffsetBounds(p: real, len: real)
    requires 0.0 <= p < 1.0 && len > 0.0
    ensures 0.0 <= p * len < len
  {
    assert p * len < 1.0 * len;
  }

  /** The progress after `n` frames of a robot that is drawn on every one of
      them: it depends on nothing but its own start and rate. */
  function Frames(p: real, rate: real, n: nat): (q: real)
    requires 0.0 <= p < 1.0 && rate >= 0.0
    ensures 0.0 <= q < 1.0
    decreases n
  {
    if n == 0 then p else Frames(Advance(p, rate), rate, n - 1)
  }

  /** One more frame advances the progress reached after `n` frames. */
  lemma {:induction false} FramesStep(p: real, rate: real, n: nat)
    requires 0.0 <= p < 1.0 && rate >= 0.0
    ensures Frames(p, rate, n + 1) == Advance(Frames(p, rate, n), rate)
    decreases n
  {
    if n > 0 {
      FramesStep(Advance(p, rate), rate, n - 1);
    }
  }

  /** Liveness of the reset: once `n` steps of the rate reach 1 from `p`,
      the progress has been reset to 0 on one of the first `n` frames. */
  lemma {:induction false} ResetsWithin(p: real, rate: real, n: nat)
    requires 0.0 <= p < 1.0 && rate > 0.0
    requires p + n as real * rate >= 1.0
    ensures exists k :: 1 <= k <= n && Frames(p, rate, k) == 0.0
    decreases n
  {
    if p + rate >= 1.0 {
      assert Frames(p, rate, 1) == Frames(0.0, rate, 0) == 0.0;
    } else {
      assert n != 1;
      var q := p + rate;
      assert q + (n - 1) as real * rate == p + n as real * rate;
      ResetsWithin(q, rate, n - 1);
      var k :| 1 <= k <= n - 1 && Frames(q, rate, k) == 0.0;
      assert Frames(p, rate, k + 1) == Frames(q, rate, k);
    }
  }

  /** getPointAtLength(progress * len). */
  function PointAtFraction(shape: PathShape, p: real): Point
  {
    shape.pointAt(p * shape.len)
  }

  /** The robot drawn at fraction `p` of its path: at offset p * len, which
      lies on the path and, on a path of positive length, before its end. */
  predicate DrawnAt(shape: PathShape, p: real, pt: Point)
  {
    && pt == PointAtFraction(shape, p)
    && 0.0 <= p * shape.len <= shape.len
    && (shape.len > 0.0 ==> p * shape.len < shape.len)
  }

  /** The point drawn for a fraction in [0, 1) lies on the path. */
  lemma DrawnAtFraction(shape: PathShape, p: real)
    requires 0.0 <= p < 1.0 && shape.len >= 0.0
    ensures DrawnAt(shape, p, PointAtFraction(shape, p))
  {
    assert p * shape.len <= 1.0 * shape.len;
    if shape.len > 0.0 {
      ArcOffsetBounds(p, shape.len);
    }
  }

  /** The progress of every robot once the callbacks for the first `i` keys
      have run, starting from `start`. */
  ghost predicate MovedFirst(start: map<Robot, real>, now: map<Robot, real>, paths: map<Robot, PathShape>, robots: set<Robot>, i: nat)
  {
    forall k: Robot :: k in start && 0.0 <= start[k] < 1.0 && k in now &&
      now[k] == (if Index(k) < i && k in paths && k in robots then Advance(start[k], Rate(k)) else start[k])
  }

  /** The robots drawn by the callbacks for the first `i` keys. */
  ghost predicate DrawnFirst(poses: map<Robot, Point>, now: map<Robot, real>, paths: map<Robot, PathShape>, robots: set<Robot>, i: nat)
  {
    forall k: Robot ::
      && (k in poses <==> Index(k) < i && k in paths && k in robots)
      && (k in poses ==> k in paths && k in now && DrawnAt(paths[k], now[k], poses[k]))
  }

  /** The callback for key number `i` extends both to the first `i + 1`
      keys. */
  lemma MoveStep(start: map<Robot, real>, now: map<Robot, real>, next: map<Robot, real>, poses: map<Robot, Point>,
                 pt: Option<Point>, paths: map<Robot, PathShape>, robots: set<Robot>, i: nat)
    requires i < |Order|
    requires MovedFirst(start, now, paths, robots, i) && DrawnFirst(poses, now, paths, robots, i)
    requires !(Order[i] in paths && Order[i] in robots) ==> next == now && pt == None
    requires Order[i] in paths && Order[i] in robots ==>
      && next == now[Order[i] := Advance(now[Order[i]], Rate(Order[i]))]
      && pt.Some? && DrawnAt(paths[Order[i]], next[Order[i]], pt.value)
    ensures MovedFirst(start, next, paths, robots, i + 1)
    ensures DrawnFirst(if pt.Some? then poses[Order[i] := pt.value] else poses, next, paths, robots, i + 1)
  {
    var key := Order[i];
    assert Index(key) == i;
    var poses' := if pt.Some? then poses[key := pt.value] else poses;
    forall k: Robot
      ensures k in start && 0.0 <= start[k] < 1.0 && k in next
      ensures next[k] == (if Index(k) < i + 1 && k in paths && k in robots then Advance(start[k], Rate(k)) else start[k])
      ensures k in poses' <==> Index(k) < i + 1 && k in paths && k in robots
      ensures k in poses' ==> k in paths && k in next && DrawnAt(paths[k], next[k], poses'[k])
    {
      if k == key {
      } else {
        assert Order[Index(k)] == k;
      }
    }
  }

  class Simulation {
    /** `animState[key].progress` of every robot. */
    var progress: map<Robot, real>
    /** The `d` attribute set on each path element that exists. */
    var pathD: map<Robot, string>

    ghost predicate Valid()
      reads this`progress
    {
      forall k: Robot :: k in progress && 0.0 <= progress[k] < 1.0
    }

    /** initSimulation before the first frame: `d` is set on the path
        elements that exist, and every robot starts at progress 0. */
    constructor (pathElements: set<Robot>)
      ensures Valid()
      ensures forall k: Robot :: progress[k] == 0.0
      ensures pathD.Keys == pathElements
      ensures forall k :: k in pathD ==> pathD[k] == PathData(k)
    {
      var start := map[SpeedBot := 0.0, SafetyBot := 0.0, ComfortBot := 0.0];
      forall k: Robot
        ensures k in start && start[k] == 0.0
      {
        assert k.SpeedBot? || k.SafetyBot? || k.ComfortBot?;
      }
      progress := start;
      var d: map<Robot, string> := map[];
      var i := 0;
      while i < |Order|
        invariant 0 <= i <= |Order|
        invariant forall k :: k in d <==> k in pathElements && Index(k) < i
        invariant forall k :: k in d ==> d[k] == PathData(k)
      {
        var key := Order[i];
        assert Index(key) == i;
        if key in pathElements {
          d := d[key := PathData(key)];
        }
        i := i + 1;
      }
      pathD := d;
    }

    /** The forEach callback of `animate` for one robot: skipped when its
        path or robot element is missing; otherwise its progress advances by
        its own rate and it is drawn at that fraction of its path. Every other
        robot's progress is left as it was. */
    method MoveRobot(key: Robot, paths: map<Robot, PathShape>, robots: set<Robot>) returns (pt: Option<Point>)
      requires Valid()
      requires key in paths ==> paths[key].len >= 0.0
      modifies this`progress
      ensures Valid()
      ensures !(key in paths && key in robots) ==> progress == old(progress) && pt == None
      ensures key in paths && key in robots ==>
        && progress == old(progress)[key := Advance(old(progress)[key], Rate(key))]
        && pt.Some? && DrawnAt(paths[key], progress[key], pt.value)
    {
      if key !in paths || key !in robots {
        return None;
      }
      var p := progress[key] + Rate(key);
      if p >= 1.0 {
        p := 0.0;
      }
      progress := progress[key := p];
      DrawnAtFraction(paths[key], p);
      pt := Some(PointAtFraction(paths[key], p));
    }

    /** One frame of `animate`: the callback for every key of animState, in
        order. `paths` are the shapes of the path elements the constructor
        looked up. No robot's progress depends on another's. */
    method Animate(paths: map<Robot, PathShape>, robots: set<Robot>) returns (poses: map<Robot, Point>)
      requires Valid() && paths.Keys == pathD.Keys
      requires forall k :: k in paths ==> paths[k].len >= 0.0
      modifies this`progress
      ensures Valid()
      ensures forall k: Robot ::
                progress[k] == (if k in paths && k in robots then Advance(old(progress)[k], Rate(k)) else old(progress)[k])
      ensures forall k: Robot :: k in poses <==> k in paths && k in robots
      ensures forall k :: k in poses ==> DrawnAt(paths[k], progress[k], poses[k])
    {
      poses := map[];
      var i := 0;
      while i < |Order|
        invariant 0 <= i <= |Order|
        invariant Valid()
        invariant MovedFirst(old(progress), progress, paths, robots, i)
        invariant DrawnFirst(poses, progress, paths, robots, i)
      {
        ghost var before := progress;
        var key := Order[i];
        var pt := MoveRobot(key, paths, robots);
        MoveStep(old(progress), before, progress, poses, pt, paths, robots, i);
        if pt.Some? {
          poses := poses[key := pt.value];
        }
        i := i + 1;
      }
    }

    /** `n` frames of the requestAnimationFrame chain with the same elements
        present: the progress of every drawn robot is that of its own rate
        alone after `n` frames, and a skipped robot's progress never moves. */
    method RunFrames(n: nat, paths: map<Robot, PathShape>, robots: set<Robot>)
      requires Valid() && paths.Keys == pathD.Keys
      requires forall k :: k in paths ==> paths[k].len >= 0.0
      modifies this`progress
      ensures Valid()
      ensures forall k: Robot ::
                progress[k] == (if k in paths && k in robots then Frames(old(progress)[k], Rate(k), n) else old(progress)[k])
    {
      var i := 0;
      while i < n
        invariant 0 <= i <= n
        invariant Valid()
        invariant forall k: Robot ::
                    progress[k] == (if k in paths && k in robots then Frames(old(progress)[k], Rate(k), i) else old(progress)[k])
      {
        var _ := Animate(paths, robots);
        forall k: Robot | k in paths && k in robots
          ensures progress[k] == Frames(old(progress)[k], Rate(k), i + 1)
        {
          FramesStep(old(progress)[k], Rate(k), i);
        }
        i := i + 1;
      }
    }
  }
}
