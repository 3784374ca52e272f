/**
 * The roadmap graph: a flat buffer of vertex coordinates, `qSize` numbers
 * per vertex, and one neighbour list per vertex.
 */
module RoadmapGraph {

  /** Every neighbour index names an existing vertex. */
  predicate NeighboursInBounds(groups: seq<seq<nat>>)
  {
    forall i, k :: 0 <= i < |groups| && 0 <= k < |groups[i]| ==> groups[i][k] < |groups|
  }

  /** Vertex j occurs in the list of i exactly as often as i occurs in the list of j. */
  predicate Symmetric(groups: seq<seq<nat>>)
  {
    forall i, j :: 0 <= i < |groups| && 0 <= j < |groups| ==> multiset(groups[i])[j] == multiset(groups[j])[i]
  }

  /** The neighbour lists after `add_edge(id1, id2)`: two pushes, id2 onto id1's list, then id1 onto id2's. */
  function WithEdge(groups: seq<seq<nat>>, id1: nat, id2: nat): seq<seq<nat>>
    requires id1 < |groups| && id2 < |groups|
  {
    var first := groups[id1 := groups[id1] + [id2]];
    first[id2 := first[id2] + [id1]]
  }

  /** An edge joins the two vertices in both directions and touches no other list. */
  lemma WithEdgeLists(groups: seq<seq<nat>>, id1: nat, id2: nat)
    requires id1 < |groups| && id2 < |groups|
    ensures |WithEdge(groups, id1, id2)| == |groups|
    ensures id1 != id2 ==> WithEdge(groups, id1, id2)[id1] == groups[id1] + [id2]
    ensures id1 != id2 ==> WithEdge(groups, id1, id2)[id2] == groups[id2] + [id1]
    ensures id1 == id2 ==> WithEdge(groups, id1, id2)[id1] == groups[id1] + [id1, id1]
    ensures forall k :: 0 <= k < |groups| && k != id1 && k != id2 ==> WithEdge(groups, id1, id2)[k] == groups[k]
  {
  }

  /** Adding an edge keeps every index in bounds and the adjacency symmetric. */
  lemma WithEdgeKeepsShape(groups: seq<seq<nat>>, id1: nat, id2: nat)
    requires id1 < |groups| && id2 < |groups|
    requires NeighboursInBounds(groups) && Symmetric(groups)
    ensures NeighboursInBounds(WithEdge(groups, id1, id2))
    ensures Symmetric(WithEdge(groups, id1, id2))
  {
    var r := WithEdge(groups, id1, id2);
    WithEdgeLists(groups, id1, id2);
    forall i, k | 0 <= i < |r| && 0 <= k < |r[i]|
      ensures r[i][k] < |r|
    {
      if i != id1 && i != id2 {
        assert r[i][k] == groups[i][k];
      } else if k >= |groups[i]| {
        assert r[i][k] in {id1, id2};
      } else {
        assert r[i][k] == groups[i][k];
      }
    }
    forall i, j | 0 <= i < |r| && 0 <= j < |r|
      ensures multiset(r[i])[j] == multiset(r[j])[i]
    {
      WithEdgeCount(groups, id1, id2, i, j);
      WithEdgeCount(groups, id1, id2, j, i);
    }
  }

  lemma WithEdgeCount(groups: seq<seq<nat>>, id1: nat, id2: nat, i: nat, j: nat)
    requires id1 < |groups| && id2 < |groups| && i < |groups|
    ensures multiset(WithEdge(groups, id1, id2)[i])[j] == multiset(groups[i])[j] + Added(id1, id2, i, j)
  {
    WithEdgeLists(groups, id1, id2);
    var r := WithEdge(groups, id1, id2);
    if i == id1 && i == id2 {
      assert multiset(r[i]) == multiset(groups[i]) + multiset{id1, id1};
    } else if i == id1 {
      assert multiset(r[i]) == multiset(groups[i]) + multiset{id2};
    } else if i == id2 {
      assert multiset(r[i]) == multiset(groups[i]) + multiset{id1};
    }
  }

  /** How many copies of j the edge (id1, id2) adds to the list of i. */
  function Added(id1: nat, id2: nat, i: nat, j: nat): nat
  {
    (if i == id1 && j == id2 then 1 else 0) + (if i == id2 && j == id1 then 1 else 0)
  }

  /** The symmetric count relation means plain membership is symmetric. */
  lemma SymmetricMembership(groups: seq<seq<nat>>, i: nat, j: nat)
    requires Symmetric(groups) && i < |groups| && j < |groups|
    ensures j in groups[i] <==> i in groups[j]
  {
    assert j in groups[i] <==> multiset(groups[i])[j] > 0;
    assert i in groups[j] <==> multiset(groups[j])[i] > 0;
  }

  /**
   * q * count, written as repeated addition: the slot arithmetic below then
   * unfolds one addition at a time.
   */
  function Mul(q: nat, count: nat): nat
  {
    if count == 0 then 0 else Mul(q, count - 1) + q
  }

  /** Mul is the product. */
  lemma {:induction false} MulIsProduct(q: nat, count: nat)
    ensures Mul(q, count) == q * count
  {
    if count > 0 {
      MulIsProduct(q, count - 1);
    }
  }

  /** The first k slots of width q fit in a buffer of `count` slots. */
  lemma {:induction false} PrefixSlots(k: nat, count: nat, q: nat)
    requires k <= count
    ensures Mul(q, k) <= Mul(q, count)
    decreases count - k
  {
    if k < count {
      PrefixSlots(k + 1, count, q);
    }
  }

  /** The coordinates of vertex idx: the slice [idx * q, (idx + 1) * q) of the buffer. */
  function Vertex(data: seq<real>, q: nat, idx: nat): (v: seq<real>)
    requires Mul(q, idx + 1) <= |data|
    ensures |v| == q
  {
    data[Mul(q, idx) .. Mul(q, idx + 1)]
  }

  /** The coordinates of each of the first `count` vertices of the buffer, in order. */
  function Vertices(data: seq<real>, q: nat, count: nat): (vs: seq<seq<real>>)
    requires Mul(q, count) <= |data|
    ensures |vs| == count
  {
    if count == 0 then [] else Vertices(data, q, count - 1) + [Vertex(data, q, count - 1)]
  }

  /** Entry i of `Vertices` is vertex i. */
  lemma {:induction false} VerticesLookup(data: seq<real>, q: nat, count: nat, i: nat)
    requires Mul(q, count) <= |data| && i < count
    ensures Mul(q, i + 1) <= |data| && Vertices(data, q, count)[i] == Vertex(data, q, i)
  {
    PrefixSlots(i + 1, count, q);
    if i < count - 1 {
      VerticesLookup(data, q, count - 1, i);
    }
  }

  /** Appending q numbers to a buffer of `count` vertices adds one vertex holding them and moves no other. */
  lemma VertexOfAppend(data: seq<real>, q: nat, count: nat, extra: seq<real>)
    requires |data| == Mul(q, count) && |extra| == q
    ensures Mul(q, count + 1) == |data + extra|
    ensures Vertex(data + extra, q, count) == extra
    ensures forall i :: 0 <= i < count ==> KeepsVertex(data, extra, q, i)
  {
    assert Mul(q, count + 1) == Mul(q, count) + q;
    assert (data + extra)[|data|..] == extra;
    forall i | 0 <= i < count
      ensures KeepsVertex(data, extra, q, i)
    {
      PrefixSlots(i + 1, count, q);
      assert Mul(q, i + 1) == Mul(q, i) + q;
    }
  }

  /** Vertex i of `data` lies inside it and is still vertex i once `extra` is appended. */
  predicate KeepsVertex(data: seq<real>, extra: seq<real>, q: nat, i: nat)
  {
    Mul(q, i + 1) <= |data| && Vertex(data + extra, q, i) == Vertex(data, q, i)
  }

  class Graph {
    const qSize: nat
    var groups: seq<seq<nat>>   // neighbour lists
    var verticeData: seq<real>

    ghost predicate Valid()
      reads this
    {
      && |verticeData| == Mul(qSize, |groups|)
      && NeighboursInBounds(groups)
      && Symmetric(groups)
    }

    /** `graph(q_size)`: an empty roadmap whose vertices have q_size coordinates. */
    constructor (qSize: nat)
      ensures Valid()
      ensures this.qSize == qSize && groups == [] && verticeData == []
    {
      this.qSize := qSize;
      groups := [];
      verticeData := [];
    }

    /** The number of vertices (`get_num_verts`). */
    function NumVerts(): nat
      reads this
    {
      |groups|
    }

    /** `get_vertice(idx)`: the q_size coordinates of vertex idx. */
    function GetVertice(idx: nat): (v: seq<real>)
      reads this
      requires Valid() && idx < |groups|
      ensures |v| == qSize
    {
      PrefixSlots(idx + 1, |groups|, qSize);
      Vertex(verticeData, qSize, idx)
    }

    /** `add_vertice(data)`: copy q_size coordinates to the end of the buffer and add an empty neighbour list. */
    method AddVertice(data: array<real>)
      requires Valid() && qSize <= data.Length
      modifies this
      ensures Valid()
      ensures verticeData == old(verticeData) + data[..qSize]
      ensures groups == old(groups) + [[]]
      ensures GetVertice(old(|groups|)) == data[..qSize]
      ensures forall i :: 0 <= i < old(|groups|) ==> GetVertice(i) == old(GetVertice(i))
    {
      ghost var count := |groups|;
      for i := 0 to qSize
        invariant verticeData == old(verticeData) + data[..i]
        invariant groups == old(groups)
      {
        verticeData := verticeData + [data[i]];
      }
      groups := groups + [[]];
      VertexOfAppend(old(verticeData), qSize, count, data[..qSize]);
      forall i | 0 <= i < count
        ensures GetVertice(i) == old(GetVertice(i))
      {
        assert KeepsVertex(old(verticeData), data[..qSize], qSize, i);
      }
    }

    /** `add_edge(id1, id2)`: push id2 onto the list of id1 and id1 onto the list of id2. */
    method AddEdge(id1: nat, id2: nat)
      requires Valid() && id1 < |groups| && id2 < |groups|
      modifies this`groups
      ensures Valid()
      ensures groups == WithEdge(old(groups), id1, id2)
      ensures verticeData == old(verticeData)
    {
      WithEdgeKeepsShape(groups, id1, id2);
      groups := groups[id1 := groups[id1] + [id2]];
      groups := groups[id2 := groups[id2] + [id1]];
    }
  }
}
