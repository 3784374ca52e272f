/** The obstacle list of a system and its text form. */
module Obstacles {
  import opened Geometry
  import opened TextStream

  /** `write_circle_to_file`: "x y r" and a newline. */
  function CircleText(c: Circle): seq<Item>
  {
    [Float(c.center.x), Space, Float(c.center.y), Space, Float(c.radius), Newline]
  }

  function CirclesText(cs: seq<Circle>): seq<Item>
  {
    if cs == [] then [] else CirclesText(cs[..|cs| - 1]) + CircleText(cs[|cs| - 1])
  }

  /** `obstacle_list::save_as`: the count on its own line, then one line per circle in list order. */
  function ObstaclesText(cs: seq<Circle>): seq<Item>
  {
    [UInt(|cs|), Newline] + CirclesText(cs)
  }

  /** `circle_from_file`: three float reads, x, y, then the radius. */
  function ParseCircle(inp: Input): (Circle, Input)
  {
    var x := ParseFloat(inp);
    var y := ParseFloat(x.1);
    var r := ParseFloat(y.1);
    (Circle(Point(x.0, y.0), r.0), r.1)
  }

  /** k successive circle reads. */
  function ParseCircles(inp: Input, k: nat): (r: (seq<Circle>, Input))
    ensures |r.0| == k
  {
    if k == 0 then ([], inp)
    else
      var prefix := ParseCircles(inp, k - 1);
      var last := ParseCircle(prefix.1);
      (prefix.0 + [last.0], last.1)
  }

  /** `obstacle_list::fill_from_file`: a count k, then k circles. */
  function ParseObstacles(inp: Input): (seq<Circle>, Input)
  {
    var count := ParseUInt(inp);
    ParseCircles(count.1, count.0)
  }

  lemma ParseCircleText(b: seq<Item>, c: Circle, rest: seq<Item>)
    requires Blank(b)
    ensures ParseCircle(Input(b + CircleText(c) + rest, false)) == (c, Input([Newline] + rest, false))
  {
    var t2 := [Newline] + rest;
    var t1 := [Space] + [Float(c.radius)] + t2;
    var t0 := [Space] + [Float(c.center.y)] + t1;
    assert b + CircleText(c) + rest == b + [Float(c.center.x)] + t0;
    ParseFloatAfterBlanks(b, c.center.x, t0);
    ParseFloatAfterBlanks([Space], c.center.y, t1);
    ParseFloatAfterBlanks([Space], c.radius, t2);
    var i0 := Input(b + CircleText(c) + rest, false);
    assert ParseFloat(i0) == (c.center.x, Input(t0, false));
    assert ParseFloat(Input(t0, false)) == (c.center.y, Input(t1, false));
    assert ParseFloat(Input(t1, false)) == (c.radius, Input(t2, false));
  }

  /** Reading |cs| circles back from their text gives cs. */
  lemma {:induction false} ParseCirclesText(b: seq<Item>, cs: seq<Circle>, rest: seq<Item>)
    requires Blank(b)
    ensures ParseCircles(Input(b + CirclesText(cs) + rest, false), |cs|)
         == (cs, Input((if cs == [] then b else [Newline]) + rest, false))
  {
    if cs != [] {
      var init, c := cs[..|cs| - 1], cs[|cs| - 1];
      assert init + [c] == cs;
      var tail := CircleText(c) + rest;
      assert b + CirclesText(cs) + rest == b + CirclesText(init) + tail;
      var i0 := Input(b + CirclesText(cs) + rest, false);
      assert i0 == Input(b + CirclesText(init) + tail, false);
      ParseCirclesText(b, init, tail);
      var t := if init == [] then b else [Newline];
      assert ParseCircles(i0, |cs| - 1) == (init, Input(t + tail, false));
      ParseCircleText(t, c, rest);
      assert t + tail == t + CircleText(c) + rest;
      assert ParseCircle(Input(t + tail, false)) == (c, Input([Newline] + rest, false));
    } else {
      assert b + CirclesText(cs) + rest == b + rest;
    }
  }

  /** save_as followed by fill_from_file reproduces the obstacles in order. */
  lemma ParseObstaclesText(b: seq<Item>, cs: seq<Circle>, rest: seq<Item>)
    requires Blank(b)
    ensures ParseObstacles(Input(b + ObstaclesText(cs) + rest, false)) == (cs, Input([Newline] + rest, false))
  {
    var tail := [Newline] + CirclesText(cs) + rest;
    assert b + ObstaclesText(cs) + rest == b + [UInt(|cs|)] + tail;
    ParseUIntAfterBlanks(b, |cs|, tail);
    ParseCirclesText([Newline], cs, rest);
    assert tail == [Newline] + CirclesText(cs) + rest;
  }

  /** `write_circle_to_file`. */
  method WriteCircle(c: Circle, file: OutStream)
    modifies file
    ensures file.items == old(file.items) + CircleText(c)
  {
    file.WriteFloat(c.center.x);
    file.WriteSpace();
    file.WriteFloat(c.center.y);
    file.WriteSpace();
    file.WriteFloat(c.radius);
    file.WriteNewline();
  }

  /** `circle_from_file`. */
  method ReadCircle(file: InStream) returns (c: Circle)
    modifies file
    ensures (c, file.state) == ParseCircle(old(file.state))
  {
    var x := file.ReadFloat();
    var y := file.ReadFloat();
    var r := file.ReadFloat();
    c := Circle(Point(x, y), r);
  }

  /** `obstacle_list`: circles in the order they were added. */
  class ObstacleList {
    var circles: seq<Circle>

    constructor ()
      ensures circles == []
    {
      circles := [];
    }

    /** `add_one`: append at the end; earlier circles keep their place. */
    method AddOne(c: Circle)
      modifies this
      ensures circles == old(circles) + [c]
    {
      circles := circles + [c];
    }

    /** `get_circle(idx)`: the circle at position idx. */
    method GetCircle(idx: nat) returns (c: Circle)
      requires idx < |circles|
      ensures c == circles[idx]
    {
      c := circles[idx];
    }

    /** `get_num_circles`. */
    method GetNumCircles() returns (k: nat)
      ensures k == |circles|
    {
      k := |circles|;
    }

    /** `intersects_with(shape)`: whether some obstacle touches the shape. */
    method IntersectsWith(s: Shape) returns (hit: bool)
      ensures hit <==> exists i :: 0 <= i < |circles| && CircleHitsShape(circles[i], s)
    {
      for i := 0 to |circles|
        invariant forall k :: 0 <= k < i ==> !CircleHitsShape(circles[k], s)
      {
        if CircleHitsShape(circles[i], s) {
          return true;
        }
      }
      return false;
    }

    /** `save_as(file)`: the count, then one "x y r" line per circle. */
    method SaveAs(file: OutStream)
      modifies file
      ensures file.items == old(file.items) + ObstaclesText(circles)
    {
      file.WriteUInt(|circles|);
      file.WriteNewline();
      for i := 0 to |circles|
        invariant file.items == old(file.items) + [UInt(|circles|), Newline] + CirclesText(circles[..i])
      {
        assert circles[..i + 1][..i] == circles[..i];
        WriteCircle(circles[i], file);
      }
      assert circles[..|circles|] == circles;
    }

    /** `fill_from_file(file)`: read a count, then that many circles, appending each in file order. */
    method FillFromFile(file: InStream)
      modifies this, file
      ensures circles == old(circles) + ParseObstacles(old(file.state)).0
      ensures file.state == ParseObstacles(old(file.state)).1
    {
      var numCircles := file.ReadUInt();
      ghost var start := file.state;
      for i := 0 to numCircles
        invariant circles == old(circles) + ParseCircles(start, i).0
        invariant file.state == ParseCircles(start, i).1
      {
        ghost var before := file.state;
        var c := ReadCircle(file);
        AddOne(c);
        assert ParseCircles(start, i + 1) == (ParseCircles(start, i).0 + [c], file.state);
      }
    }
  }
}
