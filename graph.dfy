/**
 * The flow graph of `src/graph.py`: a node set, an adjacency map from a page
 * name to the list of its route targets (duplicates kept, in insertion order)
 * and the set of "used" names, i.e. names that some route points to.
 */
module Graphs {

  /** The successor list of `n`; a missing entry reads as the empty list, as a `defaultdict(list)` does. */
  function Successors(edges: map<string, seq<string>>, n: string): (r: seq<string>)
    ensures n in edges ==> r == edges[n]
    ensures n !in edges ==> r == []
  {
    if n in edges then edges[n] else []
  }

  /** Index of the first occurrence of `x` in `s`. */
  function FirstIndex(s: seq<string>, x: string): (i: nat)
    requires x in s
    ensures i < |s| && s[i] == x
    ensures forall j :: 0 <= j < i ==> s[j] != x
  {
    if s[0] == x then 0 else 1 + FirstIndex(s[1..], x)
  }

  /** Python `list.remove(x)`: drop the first occurrence of `x`. */
  function RemoveFirst(s: seq<string>, x: string): (r: seq<string>)
    requires x in s
  {
    if s[0] == x then s[1..] else [s[0]] + RemoveFirst(s[1..], x)
  }

  /** `RemoveFirst` cuts the list at the first occurrence and keeps both sides in order. */
  lemma {:induction false} RemoveFirstSplits(s: seq<string>, x: string)
    requires x in s
    ensures RemoveFirst(s, x) == s[..FirstIndex(s, x)] + s[FirstIndex(s, x) + 1..]
  {
    if s[0] != x {
      RemoveFirstSplits(s[1..], x);
      assert s[..FirstIndex(s, x)] == [s[0]] + s[1..][..FirstIndex(s[1..], x)];
      assert s[FirstIndex(s, x) + 1..] == s[1..][FirstIndex(s[1..], x) + 1..];
    }
  }

  /** `RemoveFirst` drops exactly one copy of `x` and nothing else. */
  lemma RemoveFirstCount(s: seq<string>, x: string)
    requires x in s
    ensures |RemoveFirst(s, x)| == |s| - 1
    ensures multiset(RemoveFirst(s, x)) == multiset(s) - multiset{x}
  {
    var i := FirstIndex(s, x);
    RemoveFirstSplits(s, x);
    assert s == s[..i] + [x] + s[i + 1..];
    assert multiset(s) == multiset(s[..i]) + multiset{x} + multiset(s[i + 1..]);
  }

  /** Appending and then removing the same name gives back the list when the name was absent. */
  lemma {:induction false} RemoveFirstAfterAppend(s: seq<string>, x: string)
    requires x !in s
    ensures x in s + [x] && RemoveFirst(s + [x], x) == s
  {
    if s != [] {
      assert (s + [x])[1..] == s[1..] + [x];
      RemoveFirstAfterAppend(s[1..], x);
      assert [s[0]] + s[1..] == s;
    }
  }

  class Graph {
    var nodes: set<string>
    var edges: map<string, seq<string>>
    var usedNodes: set<string>

    /** A new graph is empty. */
    constructor ()
      ensures nodes == {} && edges == map[] && usedNodes == {}
    {
      nodes := {};
      edges := map[];
      usedNodes := {};
    }

    /** Adds `node` to the node set only; adding a present node changes nothing. */
    method AddNode(node: string)
      modifies this`nodes
      ensures nodes == old(nodes) + {node}
    {
      nodes := nodes + {node};
    }

    /** Appends `node2` to the successor list of `node1`, creating it when absent. */
    method AddEdge(node1: string, node2: string)
      modifies this`edges
      ensures edges == old(edges)[node1 := Successors(old(edges), node1) + [node2]]
    {
      edges := edges[node1 := Successors(edges, node1) + [node2]];
    }

    /** Adds `node` to the used set only. */
    method AddUsedNode(node: string)
      modifies this`usedNodes
      ensures usedNodes == old(usedNodes) + {node}
    {
      usedNodes := usedNodes + {node};
    }

    /** `set.remove`: the node must be present (a missing one raises `KeyError`). */
    method RemoveNode(node: string)
      requires node in nodes
      modifies this`nodes
      ensures nodes == old(nodes) - {node}
    {
      nodes := nodes - {node};
    }

    /** `list.remove`: `node2` must be a successor of `node1` (otherwise `ValueError`). */
    method RemoveEdge(node1: string, node2: string)
      requires node1 in edges && node2 in edges[node1]
      modifies this`edges
      ensures edges == old(edges)[node1 := RemoveFirst(old(edges)[node1], node2)]
    {
      edges := edges[node1 := RemoveFirst(edges[node1], node2)];
    }
  }
}
