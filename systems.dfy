/**
 * Robot systems: the shared base (`system_nd`: the call counter, the obstacle
 * list and the system file) with its two tools, the point robot
 * (`system_2d`) and the planar arm (`system_planar_arm`).
 */
module Systems {
  import opened Wrappers
  import opened Geometry
  import opened TextStream
  import opened Obstacles
  import opened PlanarArm

  /** DEFAULT_RADIUS. */
  const DefaultRadius: real := 2.0

  /** What a system carries besides the obstacles. */
  datatype Tool =
    | Point2D(start: Circle, finish: Circle)
    | Arm(arm: ArmData)

  /** `system_planar_arm::get_q_size`, whose body is not part of this model. */
  const ArmQSize: ArmData -> nat

  /** `get_q_size`: 2 for the point robot. */
  function QSize(tool: Tool): nat
  {
    match tool
    case Point2D(_, _) => 2
    case Arm(arm) => ArmQSize(arm)
  }

  /** `save_tool`: the point robot writes its start and finish circles. */
  function ToolText(tool: Tool): seq<Item>
  {
    match tool
    case Point2D(start, finish) => CircleText(start) + CircleText(finish)
    case Arm(arm) => ArmText(arm)
  }

  /** `save`: the q-size on its own line, the tool, then the obstacles. */
  function SystemText(tool: Tool, circles: seq<Circle>): seq<Item>
  {
    [UInt(QSize(tool)), Newline] + ToolText(tool) + ObstaclesText(circles)
  }

  /** `valid_cfg_internal`: the point robot's check is a stub that rejects everything. */
  predicate CfgAllowed(tool: Tool, circles: seq<Circle>, cfg: seq<real>)
    requires tool.Arm? ==> tool.arm.WellFormed() && tool.arm.numLinks <= |cfg|
  {
    match tool
    case Point2D(_, _) => false
    case Arm(arm) => ConfigurationClear(arm, circles, cfg)
  }

  /**
   * `get_from_file`: read the dimension; only 2 is accepted, and then two
   * circles and the obstacle list follow.  None stands for NULL.
   */
  function LoadSystem(inp: Input): (Option<(Tool, seq<Circle>)>, Input)
  {
    var dims := ParseUInt(inp);
    if dims.0 != 2 then (None, dims.1)
    else
      var c1 := ParseCircle(dims.1);
      var c2 := ParseCircle(c1.1);
      var obstacles := ParseObstacles(c2.1);
      (Some((Point2D(c1.0, c2.0), obstacles.0)), obstacles.1)
  }

  /** A saved point-robot system reads back with the same circles and obstacles, in order. */
  lemma LoadSavedPoint2D(start: Circle, finish: Circle, circles: seq<Circle>, rest: seq<Item>)
    ensures LoadSystem(Input(SystemText(Point2D(start, finish), circles) + rest, false))
         == (Some((Point2D(start, finish), circles)), Input([Newline] + rest, false))
  {
    var r2 := CircleText(finish) + ObstaclesText(circles) + rest;
    var r1 := CircleText(start) + r2;
    assert SystemText(Point2D(start, finish), circles) + rest == [] + [UInt(2)] + ([Newline] + r1);
    ParseUIntAfterBlanks([], 2, [Newline] + r1);
    assert [Newline] + r1 == [Newline] + CircleText(start) + r2;
    ParseCircleText([Newline], start, r2);
    assert [Newline] + r2 == [Newline] + CircleText(finish) + (ObstaclesText(circles) + rest);
    ParseCircleText([Newline], finish, ObstaclesText(circles) + rest);
    assert [Newline] + (ObstaclesText(circles) + rest) == [Newline] + ObstaclesText(circles) + rest;
    ParseObstaclesText([Newline], circles, rest);
  }

  /**
   * A saved arm does not read back as an arm: the loader gives NULL unless the
   * arm's q-size is 2, and then it builds a point robot from the arm's numbers.
   */
  lemma LoadSavedArm(arm: ArmData, circles: seq<Circle>, rest: seq<Item>)
    ensures var loaded := LoadSystem(Input(SystemText(Arm(arm), circles) + rest, false)).0;
      && (ArmQSize(arm) != 2 ==> loaded == None)
      && (ArmQSize(arm) == 2 ==> loaded.Some? && loaded.value.0.Point2D?)
  {
    var r := ToolText(Arm(arm)) + ObstaclesText(circles) + rest;
    assert SystemText(Arm(arm), circles) + rest == [] + [UInt(ArmQSize(arm))] + ([Newline] + r);
    ParseUIntAfterBlanks([], ArmQSize(arm), [Newline] + r);
  }

  lemma SystemTextParts(before: seq<Item>, withTool: seq<Item>, after: seq<Item>, tool: Tool, circles: seq<Circle>)
    requires withTool == before + [UInt(QSize(tool))] + [Newline] + ToolText(tool)
    requires after == withTool + ObstaclesText(circles)
    ensures after == before + SystemText(tool, circles)
  {
  }

  /** `system_nd` with its tool: the counter of validity checks, the obstacles and the tool's state. */
  class SystemNd {
    var numCalled: nat
    var tool: Tool
    const obstacles: ObstacleList

    ghost predicate Valid()
      reads this
    {
      tool.Arm? ==> tool.arm.WellFormed()
    }

    /** `system_2d(start_pos, end_pos)`: the finish circle takes the start circle's radius. */
    constructor Point2D(startPos: Circle, endPos: Circle)
      ensures Valid() && numCalled == 0
      ensures tool == Tool.Point2D(startPos, Circle(endPos.center, startPos.radius))
      ensures fresh(obstacles) && obstacles.circles == []
    {
      numCalled := 0;
      tool := Tool.Point2D(startPos, Circle(endPos.center, startPos.radius));
      obstacles := new ObstacleList();
    }

    /** `system_2d()`: both circles at the origin with the default radius. */
    constructor Point2DDefault()
      ensures Valid() && numCalled == 0
      ensures tool == Tool.Point2D(Circle(Point(0.0, 0.0), DefaultRadius), Circle(Point(0.0, 0.0), DefaultRadius))
      ensures fresh(obstacles) && obstacles.circles == []
    {
      numCalled := 0;
      tool := Tool.Point2D(Circle(Point(0.0, 0.0), DefaultRadius), Circle(Point(0.0, 0.0), DefaultRadius));
      obstacles := new ObstacleList();
    }

    /** `system_2d(file)`: the start circle, then the finish circle. */
    constructor Point2DFromFile(file: InStream)
      modifies file
      ensures Valid() && numCalled == 0
      ensures var c1 := ParseCircle(old(file.state)); var c2 := ParseCircle(c1.1);
        tool == Tool.Point2D(c1.0, c2.0) && file.state == c2.1
      ensures fresh(obstacles) && obstacles.circles == []
    {
      numCalled := 0;
      var c1 := ReadCircle(file);
      var c2 := ReadCircle(file);
      tool := Tool.Point2D(c1, c2);
      obstacles := new ObstacleList();
    }

    /** `system_planar_arm(num_links, universal_link_len)`. */
    constructor ArmUniform(numLinks: nat, universalLinkLen: real)
      ensures Valid() && numCalled == 0 && tool.Arm?
      ensures tool.arm.DefaultJoints() && tool.arm.numLinks == numLinks && tool.arm.root == DefaultRoot
      ensures forall i :: 0 <= i < numLinks ==> tool.arm.linkLen[i] == universalLinkLen
      ensures fresh(obstacles) && obstacles.circles == []
    {
      numCalled := 0;
      var arm := NewArm(numLinks, universalLinkLen);
      tool := Arm(arm);
      obstacles := new ObstacleList();
    }

    /** `system_planar_arm(num_links, links_length)`. */
    constructor ArmWithLengths(numLinks: nat, linksLength: array<real>)
      requires numLinks <= linksLength.Length
      ensures Valid() && numCalled == 0 && tool.Arm?
      ensures tool.arm.DefaultJoints() && tool.arm.numLinks == numLinks && tool.arm.root == DefaultRoot
      ensures tool.arm.linkLen == linksLength[..numLinks]
      ensures fresh(obstacles) && obstacles.circles == []
    {
      numCalled := 0;
      var arm := NewArmWithLengths(numLinks, linksLength);
      tool := Arm(arm);
      obstacles := new ObstacleList();
    }

    /** `system_planar_arm(file)`: the link count, then the three rows. */
    constructor ArmFromFile(file: InStream)
      modifies file
      ensures Valid() && numCalled == 0
      ensures (tool, file.state) == (Arm(ParseArm(old(file.state)).0), ParseArm(old(file.state)).1)
      ensures fresh(obstacles) && obstacles.circles == []
    {
      numCalled := 0;
      var arm := ReadArm(file);
      tool := Arm(arm);
      obstacles := new ObstacleList();
    }

    /** `valid_cfg_internal(cfg)` of the tool. */
    method ValidCfgInternal(cfg: seq<real>) returns (ok: bool)
      requires Valid()
      requires tool.Arm? ==> tool.arm.numLinks <= |cfg|
      ensures ok == CfgAllowed(tool, obstacles.circles, cfg)
    {
      match tool
      case Point2D(_, _) =>
        ok := false;
      case Arm(arm) =>
        ok := PlanarArm.ValidCfgInternal(arm, obstacles, cfg);
    }

    /** `valid_cfg(cfg)`: count the call and pass the tool's answer on unchanged. */
    method ValidCfg(cfg: seq<real>) returns (ok: bool)
      requires Valid()
      requires tool.Arm? ==> tool.arm.numLinks <= |cfg|
      modifies this`numCalled
      ensures numCalled == old(numCalled) + 1
      ensures ok == CfgAllowed(tool, obstacles.circles, cfg)
    {
      numCalled := numCalled + 1;
      ok := ValidCfgInternal(cfg);
    }

    /** `reset_counter()`. */
    method ResetCounter()
      modifies this`numCalled
      ensures numCalled == 0
    {
      numCalled := 0;
    }

    /** `save_tool(file)`. */
    method SaveTool(file: OutStream)
      requires Valid()
      modifies file
      ensures file.items == old(file.items) + ToolText(tool)
    {
      match tool
      case Point2D(start, finish) =>
        WriteCircle(start, file);
        WriteCircle(finish, file);
      case Arm(arm) =>
        SaveArm(arm, file);
    }

    /** `save(file)`: q-size, the tool, then the obstacles. */
    method Save(file: OutStream)
      requires Valid()
      modifies file
      ensures file.items == old(file.items) + SystemText(tool, obstacles.circles)
    {
      ghost var before := file.items;
      file.WriteUInt(QSize(tool));
      file.WriteNewline();
      SaveTool(file);
      ghost var withTool := file.items;
      obstacles.SaveAs(file);
      SystemTextParts(before, withTool, file.items, tool, obstacles.circles);
    }
  }

  /** `get_from_file(path)`; a null file stands for one that could not be opened. */
  method GetFromFile(file: InStream?) returns (sys: SystemNd?)
    modifies file
    ensures file == null ==> sys == null
    ensures file != null ==>
      var (loaded, after) := LoadSystem(old(file.state));
      && file.state == after
      && (loaded == None <==> sys == null)
      && (sys != null ==> fresh(sys) && sys.Valid() && sys.numCalled == 0)
    ensures file != null && sys != null ==>
      LoadSystem(old(file.state)).0 == Some((sys.tool, sys.obstacles.circles))
  {
    if file == null {
      return null;
    }
    var numDims := file.ReadUInt();
    if numDims != 2 {
      return null;
    }
    ghost var afterDims := file.state;
    sys := new SystemNd.Point2DFromFile(file);
    ghost var c1 := ParseCircle(afterDims);
    ghost var c2 := ParseCircle(c1.1);
    assert sys.tool == Tool.Point2D(c1.0, c2.0) && file.state == c2.1;
    sys.obstacles.FillFromFile(file);
    assert sys.obstacles.circles == [] + ParseObstacles(c2.1).0;
    assert ParseUInt(old(file.state)) == (2, afterDims);
    assert sys.obstacles.circles == ParseObstacles(c2.1).0;
  }
}
