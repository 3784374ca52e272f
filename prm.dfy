/**
 * The resumable roadmap builder: `algorithm` (binding a system, sampling
 * ranges, the generator) and `prm` / `s_prm` (the sampling phase and the
 * one-vertex-per-call connection phase).
 */
module Prm {
  import opened Wrappers
  import opened RoadmapGraph
  import opened Sampling

  /** Which class the planner is: `prm` or its subclass `s_prm`. */
  datatype Variant = Prm | SPrm

  /**
   * What the planner asks of the bound system: its q-size, the lower and upper
   * coordinate bounds (`get_dims_low` / `get_dims_high`) and the two validity
   * checks (`valid_cfg` / `valid_cfg_seq`).
   */
  datatype Space = Space(
    qSize: nat,
    dimsLow: seq<real>,
    dimsHigh: seq<real>,
    validCfg: seq<real> -> bool,
    validCfgSeq: (seq<real>, seq<real>) -> bool)
  {
    predicate WellFormed()
    {
      qSize <= |dimsLow| && qSize <= |dimsHigh|
    }
  }

  /**
   * `get_next_in_radius(graph, r2, start, q)` over the graph's q-size and
   * coordinate buffer, whose body is not part of this model: all that is
   * known is that it never answers below `start`.
   */
  type RadiusSearch = f: (nat, seq<real>, real, nat, seq<real>) -> nat
    | forall q, data, r2, start, v :: f(q, data, r2, start, v) >= start
    witness (q: nat, data: seq<real>, r2: real, start: nat, v: seq<real>) => start

  /** One call of the radius search: the first candidate at or after `start`. */
  function NextCandidate(search: RadiusSearch, q: nat, data: seq<real>, r2: real, start: nat, v: seq<real>): (neigh: nat)
    ensures neigh >= start
  {
    search(q, data, r2, start, v)
  }

  /** One call of the sequence check: may the system move from v to w? */
  predicate Passes(validCfgSeq: (seq<real>, seq<real>) -> bool, v: seq<real>, w: seq<real>)
  {
    validCfgSeq(v, w)
  }

  /**
   * The neighbours the connection phase links to vertex v, looking from
   * `start` up to `n`: each candidate the search returns below n, kept when
   * the sequence check accepts the move from v to it.  `verts` lists the
   * coordinates of the roadmap's vertices (the slices of `data`).
   */
  function Accepted(search: RadiusSearch, q: nat, data: seq<real>, r2: real, verts: seq<seq<real>>, v: seq<real>,
                    validCfgSeq: (seq<real>, seq<real>) -> bool, start: nat, n: nat): (acc: seq<nat>)
    requires n <= |verts|
    ensures forall k :: 0 <= k < |acc| ==> start <= acc[k] < n
    decreases n - start
  {
    if start >= n then []
    else
      var neigh := NextCandidate(search, q, data, r2, start, v);
      if neigh >= n then []
      else
        (if Passes(validCfgSeq, v, verts[neigh]) then [neigh] else [])
          + Accepted(search, q, data, r2, verts, v, validCfgSeq, neigh + 1, n)
  }

  /** One round of the connection loop: the candidate found at `start` and what is accepted after it. */
  lemma AcceptedStep(search: RadiusSearch, q: nat, data: seq<real>, r2: real, verts: seq<seq<real>>, v: seq<real>,
                     validCfgSeq: (seq<real>, seq<real>) -> bool, start: nat, n: nat, neigh: nat)
    requires n <= |verts| && start < n && neigh == NextCandidate(search, q, data, r2, start, v)
    ensures neigh >= n ==> Accepted(search, q, data, r2, verts, v, validCfgSeq, start, n) == []
    ensures neigh < n ==> (Accepted(search, q, data, r2, verts, v, validCfgSeq, start, n) ==
      (if Passes(validCfgSeq, v, verts[neigh]) then [neigh] else [])
        + Accepted(search, q, data, r2, verts, v, validCfgSeq, neigh + 1, n))
  {
  }

  /**
   * One round of the connection loop keeps "links recorded so far, then the
   * candidates still to examine" equal to the whole accepted list.
   */
  lemma ConnectStep(search: RadiusSearch, q: nat, data: seq<real>, r2: real, verts: seq<seq<real>>, v: seq<real>,
                    validCfgSeq: (seq<real>, seq<real>) -> bool, start: nat, n: nat, neigh: nat,
                    added: seq<nat>, all: seq<nat>)
    requires n <= |verts| && start < n && neigh == NextCandidate(search, q, data, r2, start, v)
    requires added + Accepted(search, q, data, r2, verts, v, validCfgSeq, start, n) == all
    ensures neigh < n && Passes(validCfgSeq, v, verts[neigh]) ==>
      (added + [neigh]) + Accepted(search, q, data, r2, verts, v, validCfgSeq, neigh + 1, n) == all
    ensures !(neigh < n && Passes(validCfgSeq, v, verts[neigh])) ==>
      added + Accepted(search, q, data, r2, verts, v, validCfgSeq, neigh + 1, n) == all
  {
    var later := Accepted(search, q, data, r2, verts, v, validCfgSeq, neigh + 1, n);
    AcceptedStep(search, q, data, r2, verts, v, validCfgSeq, start, n, neigh);
    if neigh < n && Passes(validCfgSeq, v, verts[neigh]) {
      assert (added + [neigh]) + later == added + ([neigh] + later);
    } else if neigh >= n {
      assert later == [];
    }
  }

  /** Recording one more link extends the neighbour lists by one `add_edge`. */
  lemma ConnectedSnoc(groups: seq<seq<nat>>, c: nat, added: seq<nat>, a: nat)
    requires c < |groups| && a < |groups|
    ensures Connected(groups, c, added + [a]) == WithEdge(Connected(groups, c, added), c, a)
  {
    assert (added + [a])[..|added|] == added;
  }

  /**
   * One round of the connection loop as a whole: the candidate `neigh` found
   * at `start` is linked exactly when it is below n and passes the check, and
   * afterwards the recorded links, then the accepted candidates after `neigh`,
   * still make up `all`.
   */
  lemma RoundKeepsProgress(search: RadiusSearch, q: nat, data: seq<real>, r2: real, verts: seq<seq<real>>, v: seq<real>,
                           validCfgSeq: (seq<real>, seq<real>) -> bool, start: nat, n: nat, neigh: nat,
                           g0: seq<seq<nat>>, c: nat, added: seq<nat>, all: seq<nat>)
    requires n <= |verts| && n <= |g0| && c < |g0| && start < n
    requires neigh == NextCandidate(search, q, data, r2, start, v)
    requires added + Accepted(search, q, data, r2, verts, v, validCfgSeq, start, n) == all
    ensures var linked := neigh < n && Passes(validCfgSeq, v, verts[neigh]);
      var added' := if linked then added + [neigh] else added;
      && added' + Accepted(search, q, data, r2, verts, v, validCfgSeq, neigh + 1, n) == all
      && (linked ==> Connected(g0, c, added') == WithEdge(Connected(g0, c, added), c, neigh))
  {
    ConnectStep(search, q, data, r2, verts, v, validCfgSeq, start, n, neigh, added, all);
    if neigh < n && Passes(validCfgSeq, v, verts[neigh]) {
      ConnectedSnoc(g0, c, added, neigh);
    }
  }

  /** The neighbours come out in strictly increasing order. */
  lemma {:induction false} AcceptedIncreasing(search: RadiusSearch, q: nat, data: seq<real>, r2: real, verts: seq<seq<real>>,
                                              v: seq<real>, validCfgSeq: (seq<real>, seq<real>) -> bool, start: nat, n: nat)
    requires n <= |verts|
    ensures Increasing(Accepted(search, q, data, r2, verts, v, validCfgSeq, start, n))
    decreases n - start
  {
    if start < n {
      var neigh := NextCandidate(search, q, data, r2, start, v);
      if neigh < n {
        AcceptedIncreasing(search, q, data, r2, verts, v, validCfgSeq, neigh + 1, n);
        var rest := Accepted(search, q, data, r2, verts, v, validCfgSeq, neigh + 1, n);
        assert forall k :: 0 <= k < |rest| ==> neigh < rest[k];
        assert Increasing([neigh] + rest);
      }
    }
  }

  /** Strictly increasing, so in particular free of repeats. */
  predicate Increasing(s: seq<nat>)
  {
    forall i, j :: 0 <= i < j < |s| ==> s[i] < s[j]
  }

  /** Each of `acc` passes the sequence check from v. */
  predicate AllPass(validCfgSeq: (seq<real>, seq<real>) -> bool, v: seq<real>, verts: seq<seq<real>>, acc: seq<nat>)
    requires forall k :: 0 <= k < |acc| ==> acc[k] < |verts|
  {
    forall k :: 0 <= k < |acc| ==> Passes(validCfgSeq, v, verts[acc[k]])
  }

  /** Every neighbour the connection phase links to passed the sequence check from v. */
  lemma {:induction false} AcceptedChecked(search: RadiusSearch, q: nat, data: seq<real>, r2: real, verts: seq<seq<real>>,
                                           v: seq<real>, validCfgSeq: (seq<real>, seq<real>) -> bool, start: nat, n: nat)
    requires n <= |verts|
    ensures AllPass(validCfgSeq, v, verts, Accepted(search, q, data, r2, verts, v, validCfgSeq, start, n))
    decreases n - start
  {
    if start < n {
      var neigh := NextCandidate(search, q, data, r2, start, v);
      if neigh < n {
        var rest := Accepted(search, q, data, r2, verts, v, validCfgSeq, neigh + 1, n);
        AcceptedChecked(search, q, data, r2, verts, v, validCfgSeq, neigh + 1, n);
        if Passes(validCfgSeq, v, verts[neigh]) {
          var acc := [neigh] + rest;
          forall k | 0 <= k < |acc|
            ensures Passes(validCfgSeq, v, verts[acc[k]])
          {
            if k > 0 {
              assert acc[k] == rest[k - 1];
            }
          }
        }
      }
    }
  }

  /**
   * The neighbour lists after `add_edge(c, a)` for each a of `added`, in
   * order (an index outside the lists adds nothing).
   */
  function Connected(groups: seq<seq<nat>>, c: nat, added: seq<nat>): (r: seq<seq<nat>>)
    ensures |r| == |groups|
  {
    if added == [] then groups
    else
      var prev := Connected(groups, c, added[..|added| - 1]);
      var a := added[|added| - 1];
      if c < |prev| && a < |prev| then WithEdge(prev, c, a) else prev
  }

  /**
   * Linking c to increasing neighbours above c appends them, in order, to the
   * list of c, appends c once to each of their lists and leaves every other list alone.
   */
  lemma {:induction false} ConnectedLists(groups: seq<seq<nat>>, c: nat, added: seq<nat>)
    requires c < |groups| && Increasing(added)
    requires forall k :: 0 <= k < |added| ==> c < added[k] < |groups|
    ensures Connected(groups, c, added)[c] == groups[c] + added
    ensures forall i :: 0 <= i < |groups| && i != c ==>
      Connected(groups, c, added)[i] == groups[i] + (if i in added then [c] else [])
  {
    if added != [] {
      var init := added[..|added| - 1];
      var last := added[|added| - 1];
      ConnectedLists(groups, c, init);
      var prev := Connected(groups, c, init);
      WithEdgeLists(prev, c, last);
      assert last !in init;
      forall i | 0 <= i < |groups| && i != c
        ensures Connected(groups, c, added)[i] == groups[i] + (if i in added then [c] else [])
      {
        assert i in added <==> i in init || i == last;
      }
    }
  }

  /**
   * What one connection round does to the neighbour lists: vertex c gains the
   * accepted candidates, each a later vertex below n that passed the sequence
   * check, in increasing order; each of them gains c once; no other list changes.
   */
  lemma ConnectionRoundEdges(search: RadiusSearch, q: nat, data: seq<real>, r2: real, verts: seq<seq<real>>,
                             v: seq<real>, validCfgSeq: (seq<real>, seq<real>) -> bool, groups: seq<seq<nat>>, c: nat, n: nat)
    requires c < n <= |verts| && n <= |groups|
    ensures var acc := Accepted(search, q, data, r2, verts, v, validCfgSeq, c + 1, n);
      && Increasing(acc)
      && (forall k :: 0 <= k < |acc| ==> c < acc[k] < n && Passes(validCfgSeq, v, verts[acc[k]]))
      && Connected(groups, c, acc)[c] == groups[c] + acc
      && (forall i :: 0 <= i < |groups| && i != c ==>
            Connected(groups, c, acc)[i] == groups[i] + (if i in acc then [c] else []))
  {
    var acc := Accepted(search, q, data, r2, verts, v, validCfgSeq, c + 1, n);
    AcceptedIncreasing(search, q, data, r2, verts, v, validCfgSeq, c + 1, n);
    AcceptedChecked(search, q, data, r2, verts, v, validCfgSeq, c + 1, n);
    ConnectedLists(groups, c, acc);
  }

  /** `prm` / `s_prm` with the `algorithm` state they inherit. */
  class Planner {
    const variant: Variant
    var n: nat
    var internalCnt: nat
    var rMulti: real
    var baseR: real
    /** The connection radius; how it is set (`get_connection_radius`) is not part of this model. */
    var r: real
    var sys: Option<Space>
    var ranges: seq<Range>
    const generator: Sampler
    var seed: nat

    /** `prm(num_points, r_multi, generator)` / `s_prm(num_points, r_multi, generator)`. */
    constructor WithSampler(variant: Variant, numPoints: nat, rMulti: real, generator: Sampler)
      ensures this.variant == variant && n == numPoints && internalCnt == 0 && this.rMulti == rMulti
      ensures sys == None && ranges == [] && this.generator == generator
    {
      this.variant := variant;
      n := numPoints;
      internalCnt := 0;
      this.rMulti := rMulti;
      sys := None;
      ranges := [];
      this.generator := generator;
    }

    /** `prm(num_points, r_multi)` / `s_prm(num_points, r_multi)`: a fresh default sampler. */
    constructor (variant: Variant, numPoints: nat, rMulti: real)
      ensures this.variant == variant && n == numPoints && internalCnt == 0 && this.rMulti == rMulti
      ensures sys == None && ranges == []
      ensures fresh(generator) && generator.engine == Mt19937 && generator.drawn == 0
    {
      this.variant := variant;
      n := numPoints;
      internalCnt := 0;
      this.rMulti := rMulti;
      sys := None;
      ranges := [];
      generator := new Sampler(Mt19937);
    }

    /** `check_connection()`: `prm` answers true, `s_prm` false. */
    function CheckConnection(): (connect: bool)
      ensures connect <==> variant == Prm
    {
      variant.Prm?
    }

    /** `set_num_points(num_points)`. */
    method SetNumPoints(numPoints: nat)
      modifies this`n
      ensures n == numPoints
    {
      n := numPoints;
    }

    /** `get_num_points()`. */
    method GetNumPoints() returns (numPoints: nat)
      ensures numPoints == n
    {
      numPoints := n;
    }

    /** `s_prm::init_algo_internal`: rewind the cursor; no graph of its own. */
    method InitAlgoInternal(newSys: Space) returns (g: Graph?)
      modifies this`internalCnt
      ensures internalCnt == 0 && g == null
    {
      internalCnt := 0;
      g := null;
    }

    /**
     * `init_algo(new_sys)`: bind the system, install one range per coordinate,
     * reseed, and return a new empty graph of the system's q-size.
     */
    method InitAlgo(newSys: Space) returns (g: Graph)
      requires newSys.WellFormed()
      modifies this`sys, this`ranges, this`internalCnt, generator
      ensures sys == Some(newSys)
      ensures |ranges| == newSys.qSize
      ensures forall i :: 0 <= i < newSys.qSize ==> ranges[i] == Range(newSys.dimsLow[i], newSys.dimsHigh[i])
      ensures generator.drawn == 0 && internalCnt == 0
      ensures fresh(g) && g.Valid() && g.qSize == newSys.qSize && g.groups == [] && g.verticeData == []
    {
      sys := Some(newSys);
      var qSize := newSys.qSize;
      ranges := [];
      for i := 0 to qSize
        invariant sys == Some(newSys) && |ranges| == i
        invariant forall k :: 0 <= k < i ==> ranges[k] == Range(newSys.dimsLow[k], newSys.dimsHigh[k])
      {
        ranges := ranges + [Range(newSys.dimsLow[i], newSys.dimsHigh[i])];
      }
      generator.Seed(seed);
      var res := InitAlgoInternal(newSys);
      if res == null {
        res := new Graph(newSys.qSize);
      }
      g := res;
    }

    /** The squared connection radius handed to the radius search. */
    function SquaredRadius(): (r2: real)
      reads this
      ensures r2 >= 0.0
    {
      r * r
    }

    /** The neighbours the connection phase gives vertex c of g: the accepted candidates from c + 1 up to n. */
    ghost function Neighbours(search: RadiusSearch, g: Graph, check: (seq<real>, seq<real>) -> bool, c: nat): seq<nat>
      reads this, g
      requires g.Valid() && c < n <= |g.groups|
    {
      Accepted(search, g.qSize, g.verticeData, SquaredRadius(), Vertices(g.verticeData, g.qSize, |g.groups|),
               g.GetVertice(c), check, c + 1, n)
    }

    /** A configuration the sampling phase may produce: accepted by `valid_cfg`, each coordinate drawn from its range. */
    ghost predicate SampledConfig(v: seq<real>)
      reads this
      requires sys.Some? && |v| <= |ranges|
    {
      && sys.value.validCfg(v)
      && forall j :: 0 <= j < |v| ==> (ranges[j].low <= ranges[j].high ==> Within(ranges[j], v[j]))
    }

    /** The `for j` loop of the sampling phase: every coordinate of `data` drawn from its range. */
    method DrawConfiguration(data: array<real>)
      requires data.Length <= |ranges|
      modifies data, generator
      ensures generator.drawn == old(generator.drawn) + data.Length
      ensures forall k :: 0 <= k < data.Length ==> data[k] == Draw(ranges[k], generator.engine(old(generator.drawn) + k))
      ensures forall k :: 0 <= k < data.Length ==> (ranges[k].low <= ranges[k].high ==> Within(ranges[k], data[k]))
    {
      for j := 0 to data.Length
        invariant generator.drawn == old(generator.drawn) + j
        invariant forall k :: 0 <= k < j ==> data[k] == Draw(ranges[k], generator.engine(old(generator.drawn) + k))
        invariant forall k :: 0 <= k < j ==> (ranges[k].low <= ranges[k].high ==> Within(ranges[k], data[k]))
      {
        data[j] := generator.Generate(ranges[j]);
      }
    }

    /**
     * The `try_again` loop: draw configurations until `valid_cfg` accepts one.
     * Each redraw spends one unit of `budget`; `found` is false when none was left.
     */
    method DrawValid(data: array<real>, budget: nat) returns (found: bool, left: nat)
      requires sys.Some? && data.Length <= |ranges|
      modifies data, generator
      ensures left <= budget
      ensures generator.drawn >= old(generator.drawn) + data.Length
      ensures found ==> forall k :: 0 <= k < data.Length ==>
        data[k] == Draw(ranges[k], generator.engine(generator.drawn - data.Length + k))
      ensures found ==> sys.value.validCfg(data[..])
      ensures found ==> forall k :: 0 <= k < data.Length ==> (ranges[k].low <= ranges[k].high ==> Within(ranges[k], data[k]))
    {
      left := budget;
      while true
        invariant left <= budget
        invariant generator.drawn >= old(generator.drawn)
        decreases left
      {
        DrawConfiguration(data);
        if sys.value.validCfg(data[..]) {
          return true, left;
        }
        if left == 0 {
          return false, left;
        }
        left := left - 1;
      }
    }

    /**
     * The sampling phase on an empty graph: n times, draw a configuration
     * until `valid_cfg` accepts it and add it as a vertex.  `fuel` bounds the
     * number of redraws; None means the redrawing had not finished when it ran out.
     */
    method SampleVertices(g: Graph, fuel: nat) returns (res: Option<bool>)
      requires g.Valid() && g.groups == [] && sys.Some? && g.qSize <= |ranges|
      modifies g, generator
      ensures g.Valid()
      ensures res != Some(false)
      ensures res == Some(true) ==>
        && |g.groups| == n
        && (forall i :: 0 <= i < n ==> g.groups[i] == [])
        && (forall i :: 0 <= i < n ==> SampledConfig(g.GetVertice(i)))
    {
      var data := new real[g.qSize];
      var budget := fuel;
      for i := 0 to n
        invariant g.Valid() && data.Length == g.qSize && |g.groups| == i
        invariant forall k :: 0 <= k < i ==> g.groups[k] == []
        invariant forall k :: 0 <= k < i ==> SampledConfig(g.GetVertice(k))
      {
        var found;
        found, budget := DrawValid(data, budget);
        if !found {
          return None;
        }
        assert data[..g.qSize] == data[..];
        assert SampledConfig(data[..]);
        g.AddVertice(data);
      }
      return Some(true);
    }

    /** The inner `if` of the connection loop: add the edge (c, neigh) when `valid_cfg_seq` accepts the move. */
    method LinkIfAccepted(g: Graph, c: nat, neigh: nat, v: seq<real>, ghost verts: seq<seq<real>>) returns (linked: bool)
      requires g.Valid() && sys.Some? && c < |g.groups| && neigh < |g.groups|
      requires verts == Vertices(g.verticeData, g.qSize, |g.groups|)
      modifies g`groups
      ensures g.Valid() && g.verticeData == old(g.verticeData) && |g.groups| == old(|g.groups|)
      ensures linked == Passes(sys.value.validCfgSeq, v, verts[neigh])
      ensures g.groups == if linked then WithEdge(old(g.groups), c, neigh) else old(g.groups)
    {
      VerticesLookup(g.verticeData, g.qSize, |g.groups|, neigh);
      linked := Passes(sys.value.validCfgSeq, v, g.GetVertice(neigh));
      if linked {
        WithEdgeLists(g.groups, c, neigh);
        g.AddEdge(c, neigh);
      }
    }

    /**
     * One round of the connection loop: ask the radius search for the first
     * candidate at or after `start`; when it is below n, link c to it if
     * `valid_cfg_seq` accepts the move.  Answers the candidate and whether
     * the edge was added.
     */
    method ExamineCandidate(g: Graph, search: RadiusSearch, c: nat, v: seq<real>, r2: real, start: nat,
                            ghost verts: seq<seq<real>>)
      returns (neigh: nat, linked: bool)
      requires g.Valid() && sys.Some? && c < n <= |g.groups|
      requires verts == Vertices(g.verticeData, g.qSize, |g.groups|)
      modifies g`groups
      ensures g.Valid() && g.verticeData == old(g.verticeData) && |g.groups| == old(|g.groups|)
      ensures neigh == NextCandidate(search, g.qSize, g.verticeData, r2, start, v)
      ensures linked == (neigh < n && Passes(sys.value.validCfgSeq, v, verts[neigh]))
      ensures g.groups == if linked then WithEdge(old(g.groups), c, neigh) else old(g.groups)
    {
      neigh := NextCandidate(search, g.qSize, g.verticeData, r2, start, v);
      linked := false;
      if neigh < n {
        linked := LinkIfAccepted(g, c, neigh, v, verts);
      }
    }

    /**
     * The `while` loop of the connection phase: ask the radius search for the
     * next candidate after the last one, and link c to it when `valid_cfg_seq`
     * accepts the move, until the search answers n or more.
     */
    method LinkCandidates(g: Graph, search: RadiusSearch, c: nat, v: seq<real>, r2: real, ghost verts: seq<seq<real>>)
      requires g.Valid() && sys.Some? && c < n <= |g.groups| && verts == Vertices(g.verticeData, g.qSize, |g.groups|)
      modifies g`groups
      ensures g.Valid() && g.verticeData == old(g.verticeData) && |g.groups| == old(|g.groups|)
      ensures g.groups == Connected(old(g.groups), c,
        old(Accepted(search, g.qSize, g.verticeData, r2, verts, v, sys.value.validCfgSeq, c + 1, n)))
    {
      ghost var g0, q, data, check := g.groups, g.qSize, g.verticeData, sys.value.validCfgSeq;
      ghost var all := Accepted(search, q, data, r2, verts, v, check, c + 1, n);
      ghost var added: seq<nat> := [];
      var nextNeigh := c + 1;
      while nextNeigh < n
        invariant g.Valid() && g.verticeData == data && |g.groups| == |g0|
        invariant added + Accepted(search, q, data, r2, verts, v, check, nextNeigh, n) == all
        invariant g.groups == Connected(g0, c, added)
        decreases n - nextNeigh
      {
        var neigh, linked := ExamineCandidate(g, search, c, v, r2, nextNeigh, verts);
        RoundKeepsProgress(search, q, data, r2, verts, v, check, nextNeigh, n, neigh, g0, c, added, all);
        nextNeigh := neigh + 1;
        if linked {
          added := added + [neigh];
        }
      }
      assert Accepted(search, q, data, r2, verts, v, check, nextNeigh, n) == [];
      assert added == all;
    }

    /** The body of the connection phase for vertex c: fetch its coordinates and run the candidate loop. */
    method ConnectVertex(g: Graph, search: RadiusSearch, c: nat)
      requires g.Valid() && sys.Some? && c < n <= |g.groups|
      modifies g`groups
      ensures g.Valid() && g.verticeData == old(g.verticeData) && |g.groups| == old(|g.groups|)
      ensures g.groups == Connected(old(g.groups), c, old(Neighbours(search, g, sys.value.validCfgSeq, c)))
    {
      var v := g.GetVertice(c);
      var r2 := SquaredRadius();
      ghost var verts := Vertices(g.verticeData, g.qSize, |g.groups|);
      LinkCandidates(g, search, c, v, r2, verts);
    }

    /**
     * The connection phase: link vertex `internal_cnt` to every later vertex
     * below n that the radius search finds and `valid_cfg_seq` accepts, then
     * advance the cursor; answers whether vertices are left to connect.
     */
    method ConnectNext(g: Graph, search: RadiusSearch) returns (more: bool)
      requires g.Valid() && sys.Some? && (internalCnt < n ==> n <= |g.groups|)
      modifies g`groups, this`internalCnt
      ensures g.Valid() && g.verticeData == old(g.verticeData) && |g.groups| == old(|g.groups|)
      ensures old(internalCnt) >= n ==> !more && internalCnt == old(internalCnt) && g.groups == old(g.groups)
      ensures old(internalCnt) < n ==>
        && internalCnt == old(internalCnt) + 1
        && more == (internalCnt < n)
        && g.groups == Connected(old(g.groups), old(internalCnt),
             old(Neighbours(search, g, sys.value.validCfgSeq, internalCnt)))
    {
      if internalCnt >= n {
        return false;
      }
      ConnectVertex(g, search, internalCnt);
      internalCnt := internalCnt + 1;
      more := internalCnt < n;
    }

    /** `continue_map_internal(cur_set)`: sample when the graph is empty, else connect the next vertex. */
    method ContinueMapInternal(g: Graph, search: RadiusSearch, fuel: nat) returns (res: Option<bool>)
      requires g.Valid() && sys.Some? && g.qSize <= |ranges|
      requires |g.groups| > 0 && internalCnt < n ==> n <= |g.groups|
      modifies g, generator, this`internalCnt
      ensures g.Valid()
      ensures old(|g.groups|) == 0 ==> res != Some(false) && internalCnt == old(internalCnt)
      ensures old(|g.groups|) == 0 && res == Some(true) ==>
        |g.groups| == n && (forall i :: 0 <= i < n ==> g.groups[i] == [] && SampledConfig(g.GetVertice(i)))
      ensures old(|g.groups|) > 0 ==> res.Some? && g.verticeData == old(g.verticeData) && |g.groups| == old(|g.groups|)
      ensures old(|g.groups|) > 0 ==> generator.drawn == old(generator.drawn)
      ensures old(|g.groups|) > 0 && old(internalCnt) >= n ==>
        res == Some(false) && internalCnt == old(internalCnt) && g.groups == old(g.groups)
      ensures old(|g.groups|) > 0 && old(internalCnt) < n ==>
        && internalCnt == old(internalCnt) + 1 && res == Some(internalCnt < n)
        && g.groups == Connected(old(g.groups), old(internalCnt),
             old(Neighbours(search, g, sys.value.validCfgSeq, internalCnt)))
    {
      if g.NumVerts() == 0 {
        res := SampleVertices(g, fuel);
      } else {
        var more := ConnectNext(g, search);
        res := Some(more);
      }
    }

    /** `continue_map(cur_set)`: false while no system is bound, else one step of the planner. */
    method ContinueMap(g: Graph, search: RadiusSearch, fuel: nat) returns (res: Option<bool>)
      requires g.Valid()
      requires sys.Some? ==> g.qSize <= |ranges| && (|g.groups| > 0 && internalCnt < n ==> n <= |g.groups|)
      modifies g, generator, this`internalCnt
      ensures g.Valid()
      ensures sys.None? ==> res == Some(false) && unchanged(g) && internalCnt == old(internalCnt)
      ensures sys.None? || old(|g.groups|) > 0 ==> generator.drawn == old(generator.drawn)
      ensures sys.Some? && old(|g.groups|) == 0 ==> res != Some(false) && internalCnt == old(internalCnt)
      ensures sys.Some? && old(|g.groups|) == 0 && res == Some(true) ==>
        |g.groups| == n && (forall i :: 0 <= i < n ==> g.groups[i] == [] && SampledConfig(g.GetVertice(i)))
      ensures sys.Some? && old(|g.groups|) > 0 ==>
        res.Some? && g.verticeData == old(g.verticeData) && |g.groups| == old(|g.groups|)
      ensures sys.Some? && old(|g.groups|) > 0 && old(internalCnt) >= n ==>
        res == Some(false) && internalCnt == old(internalCnt) && g.groups == old(g.groups)
      ensures sys.Some? && old(|g.groups|) > 0 && old(internalCnt) < n ==>
        && internalCnt == old(internalCnt) + 1 && res == Some(internalCnt < n)
        && g.groups == Connected(old(g.groups), old(internalCnt),
             old(Neighbours(search, g, sys.value.validCfgSeq, internalCnt)))
    {
      if sys.None? {
        return Some(false);
      }
      res := ContinueMapInternal(g, search, fuel);
    }
  }
}
