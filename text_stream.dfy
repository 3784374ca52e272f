/**
 * Text files as sequences of items: unsigned integers and decimal numbers
 * as written by `<<`, and the blanks between them.  Formatted reads skip
 * blanks first, as `>>` does.
 */
module TextStream {

  datatype Item = UInt(n: nat) | Float(f: real) | Space | Newline

  predicate IsBlank(it: Item)
  {
    it.Space? || it.Newline?
  }

  predicate Blank(s: seq<Item>)
  {
    forall k :: 0 <= k < |s| ==> IsBlank(s[k])
  }

  /** What is left of an input file, and whether a read has already failed. */
  datatype Input = Input(rest: seq<Item>, failed: bool)

  function SkipBlanks(s: seq<Item>): (r: seq<Item>)
    ensures |r| <= |s|
    ensures r == [] || !IsBlank(r[0])
  {
    if s != [] && IsBlank(s[0]) then SkipBlanks(s[1..]) else s
  }

  lemma {:induction false} SkipBlankPrefix(b: seq<Item>, s: seq<Item>)
    requires Blank(b) && (s == [] || !IsBlank(s[0]))
    ensures SkipBlanks(b + s) == s
  {
    if b != [] {
      assert (b + s)[1..] == b[1..] + s;
      SkipBlankPrefix(b[1..], s);
    }
  }

  /**
   * `file >> u` for an unsigned integer.  A failed read yields 0 and leaves the
   * stream failed; a decimal number where a count is expected counts as a failure.
   */
  function ParseUInt(inp: Input): (nat, Input)
  {
    var s := SkipBlanks(inp.rest);
    if inp.failed || s == [] || !s[0].UInt? then (0, Input(s, true))
    else (s[0].n, Input(s[1..], false))
  }

  /** `file >> x` for a float; an integer item is read as that number. */
  function ParseFloat(inp: Input): (real, Input)
  {
    var s := SkipBlanks(inp.rest);
    if inp.failed || s == [] || IsBlank(s[0]) then (0.0, Input(s, true))
    else if s[0].UInt? then (s[0].n as real, Input(s[1..], false))
    else (s[0].f, Input(s[1..], false))
  }

  /** k successive float reads. */
  function ParseFloats(inp: Input, k: nat): (r: (seq<real>, Input))
    ensures |r.0| == k
  {
    if k == 0 then ([], inp)
    else
      var prefix := ParseFloats(inp, k - 1);
      var last := ParseFloat(prefix.1);
      (prefix.0 + [last.0], last.1)
  }

  lemma ParseUIntAfterBlanks(b: seq<Item>, n: nat, rest: seq<Item>)
    requires Blank(b)
    ensures ParseUInt(Input(b + [UInt(n)] + rest, false)) == (n, Input(rest, false))
  {
    SkipBlankPrefix(b, [UInt(n)] + rest);
    assert b + [UInt(n)] + rest == b + ([UInt(n)] + rest);
  }

  lemma ParseFloatAfterBlanks(b: seq<Item>, x: real, rest: seq<Item>)
    requires Blank(b)
    ensures ParseFloat(Input(b + [Float(x)] + rest, false)) == (x, Input(rest, false))
  {
    SkipBlankPrefix(b, [Float(x)] + rest);
    assert b + [Float(x)] + rest == b + ([Float(x)] + rest);
  }

  /** An output file (`ofstream`) being written. */
  class OutStream {
    var items: seq<Item>

    constructor ()
      ensures items == []
    {
      items := [];
    }

    method WriteUInt(n: nat)
      modifies this
      ensures items == old(items) + [UInt(n)]
    {
      items := items + [UInt(n)];
    }

    method WriteFloat(x: real)
      modifies this
      ensures items == old(items) + [Float(x)]
    {
      items := items + [Float(x)];
    }

    method WriteSpace()
      modifies this
      ensures items == old(items) + [Space]
    {
      items := items + [Space];
    }

    method WriteNewline()
      modifies this
      ensures items == old(items) + [Newline]
    {
      items := items + [Newline];
    }
  }

  /** An input file (`ifstream`) being read. */
  class InStream {
    var state: Input

    constructor (items: seq<Item>)
      ensures state == Input(items, false)
    {
      state := Input(items, false);
    }

    /** `file >> n`. */
    method ReadUInt() returns (n: nat)
      modifies this
      ensures (n, state) == ParseUInt(old(state))
    {
      var r := ParseUInt(state);
      n, state := r.0, r.1;
    }

    /** `file >> x`. */
    method ReadFloat() returns (x: real)
      modifies this
      ensures (x, state) == ParseFloat(old(state))
    {
      var r := ParseFloat(state);
      x, state := r.0, r.1;
    }
  }
}
