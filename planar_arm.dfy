/**
 * The planar arm: a serial chain of links anchored at a root point, one joint
 * angle per link.  Forward kinematics, the collision checks against the
 * obstacle list, the recovery of joint angles from dragged joint positions,
 * and the arm's part of the system file.
 */
module PlanarArm {
  import opened Geometry
  import opened TextStream
  import opened Obstacles

  /** M_PI_4 and M_PI_2. */
  const QuarterPi: real := Pi / 4.0
  const HalfPi: real := Pi / 2.0

  /** The anchor `root`, which is initialised in the class declaration (not part of this model). */
  const DefaultRoot: Point

  /** The numeric state of `system_planar_arm`: per-link lengths, start and finish angles and joint limits. */
  datatype ArmData = ArmData(
    numLinks: nat,
    root: Point,
    linkLen: seq<real>,
    start: seq<real>,
    finish: seq<real>,
    limitsLow: seq<real>,
    limitsHigh: seq<real>)
  {
    predicate WellFormed()
    {
      && |linkLen| == numLinks && |start| == numLinks && |finish| == numLinks
      && |limitsLow| == numLinks && |limitsHigh| == numLinks
    }

    /** What `init` leaves in the joints: start 0, finish pi/4, limits [-pi/2, pi/2]. */
    predicate DefaultJoints()
      requires WellFormed()
    {
      forall i :: 0 <= i < numLinks ==>
        start[i] == 0.0 && finish[i] == QuarterPi && limitsLow[i] == -HalfPi && limitsHigh[i] == HalfPi
    }
  }

  // ---------------------------------------------------------------- kinematics

  /** `calc_next_pos`: add `angle` to the accumulated angle and move `len` along the new direction. */
  function CalcNextPos(angleSoFar: real, angle: real, prev: Point, len: real): (Point, real)
  {
    var heading := angleSoFar + angle;
    (Point(prev.x + len * Cos(heading), prev.y + len * Sin(heading)), heading)
  }

  /** The accumulator `angle` of `get_all_links` after i links. */
  function Accumulated(angles: seq<real>, i: nat): real
    requires i <= |angles|
  {
    if i == 0 then 0.0 else Accumulated(angles, i - 1) + angles[i - 1]
  }

  /** The position of joint i (joint 0 is the root, joint i the end of link i - 1). */
  function Joint(root: Point, angles: seq<real>, lens: seq<real>, i: nat): Point
    requires i <= |angles| && i <= |lens|
  {
    if i == 0 then root
    else CalcNextPos(Accumulated(angles, i - 1), angles[i - 1], Joint(root, angles, lens, i - 1), lens[i - 1]).0
  }

  /** The links `get_all_links` produces: link i runs from joint i to joint i + 1. */
  function Links(root: Point, angles: seq<real>, lens: seq<real>, n: nat): (links: seq<Line>)
    requires n <= |angles| && n <= |lens|
    ensures |links| == n
  {
    seq(n, i requires 0 <= i < n => Line(Joint(root, angles, lens, i), Joint(root, angles, lens, i + 1)))
  }

  /** The sum of a sequence, from the front. */
  function Sum(s: seq<real>): real
  {
    if s == [] then 0.0 else s[0] + Sum(s[1..])
  }

  lemma {:induction false} SumAppend(s: seq<real>, x: real)
    ensures Sum(s + [x]) == Sum(s) + x
  {
    if s != [] {
      assert (s + [x])[1..] == s[1..] + [x];
      SumAppend(s[1..], x);
    }
  }

  /** The accumulated angle after i links is the sum of the first i joint angles. */
  lemma {:induction false} AccumulatedIsPrefixSum(angles: seq<real>, i: nat)
    requires i <= |angles|
    ensures Accumulated(angles, i) == Sum(angles[..i])
  {
    if i > 0 {
      AccumulatedIsPrefixSum(angles, i - 1);
      assert angles[..i] == angles[..i - 1] + [angles[i - 1]];
      SumAppend(angles[..i - 1], angles[i - 1]);
    }
  }

  /** Consecutive links share a joint, and the first one starts at the root. */
  lemma LinksChain(root: Point, angles: seq<real>, lens: seq<real>, n: nat)
    requires n <= |angles| && n <= |lens|
    ensures n > 0 ==> Links(root, angles, lens, n)[0].start == root
    ensures forall i :: 0 < i < n ==> Links(root, angles, lens, n)[i].start == Links(root, angles, lens, n)[i - 1].end
  {
  }

  /** Link i has length lens[i] along the direction given by the sum of joint angles 0..i. */
  lemma LinkDirection(root: Point, angles: seq<real>, lens: seq<real>, i: nat)
    requires i < |angles| && i < |lens|
    ensures var p := Joint(root, angles, lens, i);
      Joint(root, angles, lens, i + 1)
        == Point(p.x + lens[i] * Cos(Sum(angles[..i + 1])), p.y + lens[i] * Sin(Sum(angles[..i + 1])))
  {
    AccumulatedIsPrefixSum(angles, i + 1);
    var p := Joint(root, angles, lens, i);
    var heading := Accumulated(angles, i) + angles[i];
    assert heading == Sum(angles[..i + 1]);
    assert Joint(root, angles, lens, i + 1) == CalcNextPos(Accumulated(angles, i), angles[i], p, lens[i]).0;
    assert CalcNextPos(Accumulated(angles, i), angles[i], p, lens[i]).0
      == Point(p.x + lens[i] * Cos(heading), p.y + lens[i] * Sin(heading));
  }

  /** The last link ends at joint n. */
  lemma LastLinkEnd(root: Point, angles: seq<real>, lens: seq<real>, n: nat)
    requires 0 < n <= |angles| && n <= |lens|
    ensures Links(root, angles, lens, n)[n - 1].end == Joint(root, angles, lens, n)
  {
  }

  /** `get_all_links(start, angles, link_lens, num_links)`. */
  method GetAllLinks(start: Point, angles: seq<real>, linkLens: seq<real>, numLinks: nat) returns (links: array<Line>)
    requires numLinks <= |angles| && numLinks <= |linkLens|
    ensures fresh(links)
    ensures links[..] == Links(start, angles, linkLens, numLinks)
  {
    links := new Line[numLinks](_ => Line(start, start));
    var prev := start;
    var angle := 0.0;
    for i := 0 to numLinks
      invariant prev == Joint(start, angles, linkLens, i)
      invariant angle == Accumulated(angles, i)
      invariant forall k :: 0 <= k < i ==> links[k] == Line(Joint(start, angles, linkLens, k), Joint(start, angles, linkLens, k + 1))
    {
      links[i] := Line(prev, prev);
      var next := CalcNextPos(angle, angles[i], prev, linkLens[i]);
      links[i] := links[i].(end := next.0);
      angle := next.1;
      prev := links[i].end;
    }
  }

  /** The end of the last link. */
  function EndEffector(arm: ArmData, cfg: seq<real>): Point
    requires arm.WellFormed() && arm.numLinks <= |cfg|
  {
    Joint(arm.root, cfg, arm.linkLen, arm.numLinks)
  }

  // ---------------------------------------------------------------- collision checks

  /** No obstacle circle intersects the segment. */
  predicate LineClear(circles: seq<Circle>, l: Line)
  {
    forall j :: 0 <= j < |circles| ==> !Intersect(circles[j], l)
  }

  /** No obstacle circle intersects any link of the arm in configuration cfg. */
  predicate ConfigurationClear(arm: ArmData, circles: seq<Circle>, cfg: seq<real>)
    requires arm.WellFormed() && arm.numLinks <= |cfg|
  {
    var links := Links(arm.root, cfg, arm.linkLen, arm.numLinks);
    forall j, i :: 0 <= j < |circles| && 0 <= i < arm.numLinks ==> !Intersect(circles[j], links[i])
  }

  /** `is_line_allowed(l)`: false as soon as one obstacle intersects the segment. */
  method IsLineAllowed(obstacles: ObstacleList, l: Line) returns (ok: bool)
    ensures ok == LineClear(obstacles.circles, l)
  {
    var obstsNum := obstacles.GetNumCircles();
    for j := 0 to obstsNum
      invariant forall k :: 0 <= k < j ==> !Intersect(obstacles.circles[k], l)
    {
      var obstacle := obstacles.GetCircle(j);
      if Intersect(obstacle, l) {
        return false;
      }
    }
    return true;
  }

  /** `valid_cfg_internal(cfg)`: true iff no obstacle intersects any of the arm's links. */
  method ValidCfgInternal(arm: ArmData, obstacles: ObstacleList, cfg: seq<real>) returns (ok: bool)
    requires arm.WellFormed() && arm.numLinks <= |cfg|
    ensures ok == ConfigurationClear(arm, obstacles.circles, cfg)
  {
    var links := GetAllLinks(arm.root, cfg, arm.linkLen, arm.numLinks);
    ghost var spec := Links(arm.root, cfg, arm.linkLen, arm.numLinks);
    var obstsNum := obstacles.GetNumCircles();
    for j := 0 to obstsNum
      invariant links[..] == spec
      invariant forall k, i :: 0 <= k < j && 0 <= i < arm.numLinks ==> !Intersect(obstacles.circles[k], spec[i])
    {
      var obstacle := obstacles.GetCircle(j);
      for i := 0 to arm.numLinks
        invariant links[..] == spec
        invariant forall m :: 0 <= m < i ==> !Intersect(obstacle, spec[m])
      {
        assert links[i] == links[..][i];
        if Intersect(obstacle, links[i]) {
          return false;
        }
      }
    }
    return true;
  }

  // ---------------------------------------------------------------- motion checks

  /** Elementwise a + b over the length of b. */
  function Plus(a: seq<real>, b: seq<real>): (r: seq<real>)
    requires |b| <= |a|
    ensures |r| == |b|
  {
    seq(|b|, j requires 0 <= j < |b| => a[j] + b[j])
  }

  /** The per-joint step of `valid_cfg_seq_internal`: (cfg2 - cfg1) / (n + 1). */
  function Increment(cfg1: seq<real>, cfg2: seq<real>, n: nat): (r: seq<real>)
    requires n <= |cfg1| && n <= |cfg2|
    ensures |r| == n
  {
    seq(n, j requires 0 <= j < n => (cfg2[j] - cfg1[j]) / (n as real + 1.0))
  }

  /** The configuration after k steps of size incr from cfg1 (step 0 is cfg1 itself). */
  function Stepped(cfg1: seq<real>, incr: seq<real>, k: nat): (r: seq<real>)
    requires |incr| <= |cfg1|
    ensures |r| == |incr|
  {
    if k == 0 then cfg1[..|incr|] else Plus(Stepped(cfg1, incr, k - 1), incr)
  }

  /** Over the reals, k accumulated steps are k times the step. */
  lemma {:induction false} SteppedClosedForm(cfg1: seq<real>, incr: seq<real>, k: nat, j: nat)
    requires |incr| <= |cfg1| && j < |incr|
    ensures Stepped(cfg1, incr, k)[j] == cfg1[j] + k as real * incr[j]
  {
    if k > 0 {
      SteppedClosedForm(cfg1, incr, k - 1, j);
      assert (k - 1) as real * incr[j] + incr[j] == k as real * incr[j];
    }
  }

  /** The last of the n + 1 steps lands exactly on cfg2. */
  lemma LastStepReachesGoal(cfg1: seq<real>, cfg2: seq<real>, n: nat)
    requires n <= |cfg1| && n <= |cfg2|
    ensures Stepped(cfg1, Increment(cfg1, cfg2, n), n + 1) == cfg2[..n]
  {
    var incr := Increment(cfg1, cfg2, n);
    var last := Stepped(cfg1, incr, n + 1);
    var d := n as real + 1.0;
    forall j | 0 <= j < n
      ensures last[j] == cfg2[j]
    {
      SteppedClosedForm(cfg1, incr, n + 1, j);
      var a, b, step := cfg1[j], cfg2[j], incr[j];
      assert last[j] == a + (n + 1) as real * step;
      assert step == (b - a) / d;
      DivideAndMultiply(a, b, d);
    }
    assert last == cfg2[..n];
  }

  lemma DivideAndMultiply(a: real, b: real, d: real)
    requires d > 0.0
    ensures a + d * ((b - a) / d) == b
  {
  }

  /** Segment k of the end effector's path: from its position after k steps to its position after k + 1. */
  function EndEffectorSegment(arm: ArmData, cfg1: seq<real>, cfg2: seq<real>, k: nat): Line
    requires arm.WellFormed() && arm.numLinks <= |cfg1| && arm.numLinks <= |cfg2|
  {
    var incr := Increment(cfg1, cfg2, arm.numLinks);
    Line(EndEffector(arm, Stepped(cfg1, incr, k)), EndEffector(arm, Stepped(cfg1, incr, k + 1)))
  }

  /** All num_links + 1 end-effector segments between cfg1 and cfg2 are clear of obstacles. */
  predicate MotionClear(arm: ArmData, circles: seq<Circle>, cfg1: seq<real>, cfg2: seq<real>)
    requires arm.WellFormed() && arm.numLinks <= |cfg1| && arm.numLinks <= |cfg2|
  {
    forall k :: 0 <= k <= arm.numLinks ==> LineClear(circles, EndEffectorSegment(arm, cfg1, cfg2, k))
  }

  /** Joint positions depend only on the first angles. */
  lemma {:induction false} JointPrefix(root: Point, a: seq<real>, b: seq<real>, lens: seq<real>, i: nat)
    requires i <= |a| && i <= |b| && i <= |lens| && a[..i] == b[..i]
    ensures Joint(root, a, lens, i) == Joint(root, b, lens, i)
    ensures Accumulated(a, i) == Accumulated(b, i)
  {
    if i > 0 {
      assert a[..i - 1] == a[..i][..i - 1] && b[..i - 1] == b[..i][..i - 1];
      assert a[i - 1] == a[..i][i - 1] && b[i - 1] == b[..i][i - 1];
      JointPrefix(root, a, b, lens, i - 1);
    }
  }

  /**
   * `valid_cfg_seq_internal(cfg_1, cfg_2)`: step the joint angles num_links + 1
   * times by (cfg_2 - cfg_1) / (num_links + 1), and check the segment the end
   * effector moves along at each step; false at the first segment that hits an obstacle.
   */
  method ValidCfgSeqInternal(arm: ArmData, obstacles: ObstacleList, cfg1: seq<real>, cfg2: seq<real>) returns (ok: bool)
    requires arm.WellFormed() && 0 < arm.numLinks <= |cfg1| && arm.numLinks <= |cfg2|
    ensures ok == MotionClear(arm, obstacles.circles, cfg1, cfg2)
  {
    var n := arm.numLinks;
    var numInterPoints := n;
    var pPrev := LastJoint(arm, cfg1);
    ghost var incr := Increment(cfg1, cfg2, n);
    JointPrefix(arm.root, cfg1, Stepped(cfg1, incr, 0), arm.linkLen, n);

    var incrs := Increments(cfg1, cfg2, numInterPoints);
    var cfgPrev := CopyPrefix(cfg1, n);

    for i := 0 to numInterPoints + 1
      invariant cfgPrev.Length == n && incrs[..] == incr
      invariant cfgPrev[..] == Stepped(cfg1, incr, i)
      invariant pPrev == EndEffector(arm, Stepped(cfg1, incr, i))
      invariant forall k :: 0 <= k < i ==> LineClear(obstacles.circles, EndEffectorSegment(arm, cfg1, cfg2, k))
    {
      var cfgCur := StepConfiguration(cfgPrev, incrs);
      ghost var next := Stepped(cfg1, incr, i + 1);
      assert cfgCur[..] == next;
      var pCur := LastJoint(arm, cfgCur[..]);
      var allowed := IsLineAllowed(obstacles, Line(pPrev, pCur));
      if !allowed {
        assert !LineClear(obstacles.circles, EndEffectorSegment(arm, cfg1, cfg2, i));
        return false;
      }
      cfgPrev := cfgCur;
      pPrev := pCur;
    }
    return true;
  }

  /** `get_all_links(...)[num_links - 1].end`: where the end effector is in configuration cfg. */
  method LastJoint(arm: ArmData, cfg: seq<real>) returns (p: Point)
    requires arm.WellFormed() && 0 < arm.numLinks <= |cfg|
    ensures p == EndEffector(arm, cfg)
  {
    var links := GetAllLinks(arm.root, cfg, arm.linkLen, arm.numLinks);
    p := links[arm.numLinks - 1].end;
    assert p == links[..][arm.numLinks - 1].end;
    LastLinkEnd(arm.root, cfg, arm.linkLen, arm.numLinks);
  }

  /** The `incrs` array of `valid_cfg_seq_internal`. */
  method Increments(cfg1: seq<real>, cfg2: seq<real>, n: nat) returns (incrs: array<real>)
    requires n <= |cfg1| && n <= |cfg2|
    ensures fresh(incrs)
    ensures incrs[..] == Increment(cfg1, cfg2, n)
  {
    incrs := new real[n];
    for i := 0 to n
      invariant forall k :: 0 <= k < i ==> incrs[k] == (cfg2[k] - cfg1[k]) / (n as real + 1.0)
    {
      incrs[i] := (cfg2[i] - cfg1[i]) / (n as real + 1.0);
    }
  }

  /** The `memcpy` of the first n entries of cfg_1 into `cfg_prev`. */
  method CopyPrefix(cfg: seq<real>, n: nat) returns (copy: array<real>)
    requires n <= |cfg|
    ensures fresh(copy)
    ensures copy[..] == cfg[..n]
  {
    copy := new real[n];
    for i := 0 to n
      invariant forall k :: 0 <= k < i ==> copy[k] == cfg[k]
    {
      copy[i] := cfg[i];
    }
  }

  /** One step of the interpolation: `cfg_cur[j] = cfg_prev[j] + incrs[j]`. */
  method StepConfiguration(cfgPrev: array<real>, incrs: array<real>) returns (cfgCur: array<real>)
    requires incrs.Length <= cfgPrev.Length
    ensures fresh(cfgCur)
    ensures cfgCur[..] == Plus(cfgPrev[..], incrs[..])
  {
    cfgCur := new real[incrs.Length];
    for j := 0 to incrs.Length
      invariant forall k :: 0 <= k < j ==> cfgCur[k] == cfgPrev[k] + incrs[k]
    {
      cfgCur[j] := cfgPrev[j] + incrs[j];
    }
  }

  // ---------------------------------------------------------------- dragged joints

  /** `angle_from_vector(p1, p2)`: the direction of p2 seen from p1. */
  function AngleFromVector(p1: Point, p2: Point): real
  {
    Atan2(p2.y - p1.y, p2.x - p1.x)
  }

  /** The absolute direction of link i when its end is dragged to nodes[i]. */
  function Direction(start: Point, nodes: seq<Point>, i: nat): real
    requires i < |nodes|
  {
    AngleFromVector(if i == 0 then start else nodes[i - 1], nodes[i])
  }

  /** The joint angle `recalculate_angles` stores: the change of direction at joint i. */
  function RelativeAngle(start: Point, nodes: seq<Point>, i: nat): real
    requires i < |nodes|
  {
    Direction(start, nodes, i) - (if i == 0 then 0.0 else Direction(start, nodes, i - 1))
  }

  /** `recalculate_angles(angles, nodes, num_links, start)`. */
  method RecalculateAngles(angles: array<real>, nodes: seq<Point>, numLinks: nat, start: Point)
    requires numLinks <= angles.Length && numLinks <= |nodes|
    modifies angles
    ensures forall i :: 0 <= i < numLinks ==> angles[i] == RelativeAngle(start, nodes, i)
    ensures forall i :: numLinks <= i < angles.Length ==> angles[i] == old(angles[i])
  {
    var prevPoint := start;
    var prevAngle := 0.0;
    for i := 0 to numLinks
      invariant prevPoint == (if i == 0 then start else nodes[i - 1])
      invariant prevAngle == (if i == 0 then 0.0 else Direction(start, nodes, i - 1))
      invariant forall k :: 0 <= k < i ==> angles[k] == RelativeAngle(start, nodes, k)
      invariant forall k :: numLinks <= k < angles.Length ==> angles[k] == old(angles[k])
    {
      var angle := AngleFromVector(prevPoint, nodes[i]);
      angles[i] := angle - prevAngle;
      prevAngle := angle;
      prevPoint := nodes[i];
    }
  }

  /** The recalculated joint angles add up again to the absolute link directions. */
  lemma {:induction false} RelativeAnglesSumToDirection(start: Point, nodes: seq<Point>, angles: seq<real>, i: nat)
    requires i < |nodes| && i < |angles|
    requires forall k :: 0 <= k <= i ==> angles[k] == RelativeAngle(start, nodes, k)
    ensures Sum(angles[..i + 1]) == Direction(start, nodes, i)
  {
    assert angles[..i + 1] == angles[..i] + [angles[i]];
    SumAppend(angles[..i], angles[i]);
    if i > 0 {
      RelativeAnglesSumToDirection(start, nodes, angles, i - 1);
    }
  }

  // ---------------------------------------------------------------- construction

  /** The data part of `init`: start angles 0, finish angles pi/4, limits [-pi/2, pi/2]. */
  method Init(numLinks: nat) returns (start: seq<real>, finish: seq<real>, low: seq<real>, high: seq<real>)
    ensures |start| == numLinks && |finish| == numLinks && |low| == numLinks && |high| == numLinks
    ensures forall i :: 0 <= i < numLinks ==>
      start[i] == 0.0 && finish[i] == QuarterPi && low[i] == -HalfPi && high[i] == HalfPi
  {
    var s := new real[numLinks];
    var f := new real[numLinks];
    var lo := new real[numLinks];
    var hi := new real[numLinks];
    for i := 0 to numLinks
      invariant forall k :: 0 <= k < i ==>
        s[k] == 0.0 && f[k] == QuarterPi && lo[k] == -HalfPi && hi[k] == HalfPi
    {
      s[i] := 0.0;
      f[i] := QuarterPi;
      lo[i] := -HalfPi;
      hi[i] := HalfPi;
    }
    start, finish, low, high := s[..], f[..], lo[..], hi[..];
  }

  /** `system_planar_arm(num_links, universal_link_len)`: every link gets the same length. */
  method NewArm(numLinks: nat, universalLinkLen: real) returns (arm: ArmData)
    ensures arm.WellFormed() && arm.DefaultJoints()
    ensures arm.numLinks == numLinks && arm.root == DefaultRoot
    ensures forall i :: 0 <= i < numLinks ==> arm.linkLen[i] == universalLinkLen
  {
    var start, finish, low, high := Init(numLinks);
    var lens := new real[numLinks];
    for i := 0 to numLinks
      invariant forall k :: 0 <= k < i ==> lens[k] == universalLinkLen
    {
      lens[i] := universalLinkLen;
    }
    arm := ArmData(numLinks, DefaultRoot, lens[..], start, finish, low, high);
  }

  /** `system_planar_arm(num_links, links_length)`: link lengths copied from the array. */
  method NewArmWithLengths(numLinks: nat, linksLength: array<real>) returns (arm: ArmData)
    requires numLinks <= linksLength.Length
    ensures arm.WellFormed() && arm.DefaultJoints()
    ensures arm.numLinks == numLinks && arm.root == DefaultRoot
    ensures arm.linkLen == linksLength[..numLinks]
  {
    var start, finish, low, high := Init(numLinks);
    var lens := new real[numLinks];
    for i := 0 to numLinks
      invariant forall k :: 0 <= k < i ==> lens[k] == linksLength[k]
    {
      lens[i] := linksLength[i];
    }
    arm := ArmData(numLinks, DefaultRoot, lens[..], start, finish, low, high);
  }

  // ---------------------------------------------------------------- text form

  /** Entry i of a row: the number, then a space, or a newline after the last entry. */
  function Cell(xs: seq<real>, i: nat): seq<Item>
    requires i < |xs|
  {
    [Float(xs[i]), if i == |xs| - 1 then Newline else Space]
  }

  /** The first k entries of the row. */
  function Cells(xs: seq<real>, k: nat): seq<Item>
    requires k <= |xs|
  {
    if k == 0 then [] else Cells(xs, k - 1) + Cell(xs, k - 1)
  }

  /** `write_row`: the numbers separated by spaces, the last one followed by a newline. */
  function RowText(xs: seq<real>): seq<Item>
  {
    Cells(xs, |xs|)
  }

  /** `save_tool`: the link count on its own line, then the rows of lengths, start angles and finish angles. */
  function ArmText(arm: ArmData): seq<Item>
  {
    [UInt(arm.numLinks), Newline] + RowText(arm.linkLen) + RowText(arm.start) + RowText(arm.finish)
  }

  /** The stream constructor: read num_links, run init, then read the three rows. */
  function ParseArm(inp: Input): (ArmData, Input)
  {
    var count := ParseUInt(inp);
    var n := count.0;
    var lens := ParseFloats(count.1, n);
    var start := ParseFloats(lens.1, n);
    var finish := ParseFloats(start.1, n);
    (ArmData(n, DefaultRoot, lens.0, start.0, finish.0, seq(n, _ => -HalfPi), seq(n, _ => HalfPi)), finish.1)
  }

  /** Reading the first k entries of a row back gives them, leaving the separator after the last one. */
  lemma {:induction false} ParseCells(b: seq<Item>, xs: seq<real>, k: nat, rest: seq<Item>)
    requires Blank(b) && k <= |xs|
    ensures ParseFloats(Input(b + Cells(xs, k) + rest, false), k)
         == (xs[..k], Input((if k == 0 then b else [Cell(xs, k - 1)[1]]) + rest, false))
  {
    if k == 0 {
      assert b + Cells(xs, k) + rest == b + rest;
    } else {
      var tail := Cell(xs, k - 1) + rest;
      assert b + Cells(xs, k) + rest == b + Cells(xs, k - 1) + tail;
      ParseCells(b, xs, k - 1, tail);
      var t := if k - 1 == 0 then b else [Cell(xs, k - 2)[1]];
      assert Blank(t);
      assert t + tail == t + [Float(xs[k - 1])] + ([Cell(xs, k - 1)[1]] + rest);
      ParseFloatAfterBlanks(t, xs[k - 1], [Cell(xs, k - 1)[1]] + rest);
      assert xs[..k - 1] + [xs[k - 1]] == xs[..k];
    }
  }

  lemma ParseRowText(b: seq<Item>, xs: seq<real>, rest: seq<Item>)
    requires Blank(b)
    ensures ParseFloats(Input(b + RowText(xs) + rest, false), |xs|)
         == (xs, Input((if xs == [] then b else [Newline]) + rest, false))
  {
    ParseCells(b, xs, |xs|, rest);
    assert xs[..|xs|] == xs;
  }

  /**
   * Reading back what `save_tool` wrote gives the same link count, lengths and
   * start and finish angles, the default root and default limits, and leaves the
   * final newline unread.
   */
  lemma ParseArmText(b: seq<Item>, arm: ArmData, rest: seq<Item>)
    requires Blank(b) && arm.WellFormed()
    ensures var (read, after) := ParseArm(Input(b + ArmText(arm) + rest, false));
      && after == Input([Newline] + rest, false)
      && read.WellFormed()
      && read.numLinks == arm.numLinks && read.root == DefaultRoot
      && read.linkLen == arm.linkLen && read.start == arm.start && read.finish == arm.finish
      && forall i :: 0 <= i < read.numLinks ==> read.limitsLow[i] == -HalfPi && read.limitsHigh[i] == HalfPi
  {
    var n := arm.numLinks;
    var r3 := RowText(arm.finish) + rest;
    var r2 := RowText(arm.start) + r3;
    var r1 := RowText(arm.linkLen) + r2;
    assert b + ArmText(arm) + rest == b + [UInt(n)] + ([Newline] + r1);
    ParseUIntAfterBlanks(b, n, [Newline] + r1);
    assert [Newline] + r1 == [Newline] + RowText(arm.linkLen) + r2;
    ParseRowText([Newline], arm.linkLen, r2);
    assert [Newline] + r2 == [Newline] + RowText(arm.start) + r3;
    ParseRowText([Newline], arm.start, r3);
    assert [Newline] + r3 == [Newline] + RowText(arm.finish) + rest;
    ParseRowText([Newline], arm.finish, rest);
  }

  /** `write_row(file, data, n)`. */
  method WriteRow(file: OutStream, data: seq<real>, n: nat)
    requires n <= |data|
    modifies file
    ensures file.items == old(file.items) + RowText(data[..n])
  {
    ghost var row := data[..n];
    for i := 0 to n
      invariant file.items == old(file.items) + Cells(row, i)
    {
      file.WriteFloat(data[i]);
      if i == n - 1 {
        file.WriteNewline();
      } else {
        file.WriteSpace();
      }
    }
  }

  /** `save_tool(file)` of the arm. */
  method SaveArm(arm: ArmData, file: OutStream)
    requires arm.WellFormed()
    modifies file
    ensures file.items == old(file.items) + ArmText(arm)
  {
    file.WriteUInt(arm.numLinks);
    file.WriteNewline();
    assert arm.linkLen[..arm.numLinks] == arm.linkLen;
    assert arm.start[..arm.numLinks] == arm.start;
    assert arm.finish[..arm.numLinks] == arm.finish;
    WriteRow(file, arm.linkLen, arm.numLinks);
    WriteRow(file, arm.start, arm.numLinks);
    WriteRow(file, arm.finish, arm.numLinks);
  }

  /** One of the three read loops of the stream constructor: n successive `file >> x`. */
  method ReadRow(file: InStream, n: nat) returns (row: seq<real>)
    modifies file
    ensures (row, file.state) == ParseFloats(old(file.state), n)
  {
    var data := new real[n];
    ghost var start := file.state;
    for i := 0 to n
      invariant data[..i] == ParseFloats(start, i).0
      invariant file.state == ParseFloats(start, i).1
    {
      data[i] := file.ReadFloat();
      assert data[..i + 1] == data[..i] + [data[i]];
    }
    assert data[..] == data[..n];
    row := data[..];
  }

  /** `system_planar_arm(file)`, the data part: read num_links, run `init`, then read the three rows. */
  method ReadArm(file: InStream) returns (arm: ArmData)
    modifies file
    ensures (arm, file.state) == ParseArm(old(file.state))
  {
    var numLinks := file.ReadUInt();
    var start, finish, low, high := Init(numLinks);
    var lens := ReadRow(file, numLinks);
    start := ReadRow(file, numLinks);
    finish := ReadRow(file, numLinks);
    assert low == seq(numLinks, _ => -HalfPi) && high == seq(numLinks, _ => HalfPi);
    arm := ArmData(numLinks, DefaultRoot, lens, start, finish, low, high);
  }
}
