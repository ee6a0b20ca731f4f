/** The network diagram of the playground (components/NeuralNetworkViz.tsx):
    the topology effect that lays out the layers, numbers the nodes and
    links adjacent layers densely, dropping some links at random.

    Screen coordinates, activation values and link weights are left out;
    whether the random draw keeps a link is the oracle `keep`, asked with
    the ids of the link's two ends. */
module Topology {

  /** `2 + Math.min(layerCount, 6)`: input, hidden layers, output. */
  function LayerTotal(layerCount: nat): (n: nat)
    ensures 2 <= n <= 8
    ensures n - 2 == if layerCount < 6 then layerCount else 6
  {
    2 + (if layerCount < 6 then layerCount else 6)
  }

  /** `Math.min(layerCount * 2 + 2, 8)`: the width of every hidden layer. */
  function HiddenSize(layerCount: nat): (n: nat)
    ensures 2 <= n <= 8 && n <= 2 * layerCount + 2
    ensures n == 2 * layerCount + 2 || n == 8
  {
    if 2 * layerCount + 2 < 8 then 2 * layerCount + 2 else 8
  }

  /** `nodesPerLayer`: four inputs, the hidden layers, four outputs. */
  function LayerSizes(layerCount: nat): (sizes: seq<nat>)
    ensures |sizes| == LayerTotal(layerCount)
    ensures sizes[0] == 4 && sizes[|sizes| - 1] == 4
    ensures forall l :: 0 < l < |sizes| - 1 ==> sizes[l] == HiddenSize(layerCount)
  {
    [4] + seq(LayerTotal(layerCount) - 2, _ => HiddenSize(layerCount)) + [4]
  }

  function Sum(s: seq<nat>): nat
  {
    if s == [] then 0 else Sum(s[..|s| - 1]) + s[|s| - 1]
  }

  lemma SumStep(s: seq<nat>, l: nat)
    requires l < |s|
    ensures Sum(s[..l + 1]) == Sum(s[..l]) + s[l]
  {
    assert s[..l + 1][..l] == s[..l];
  }

  /** The id of the first node of layer `l`. */
  function Offset(sizes: seq<nat>, l: nat): nat
    requires l <= |sizes|
  {
    Sum(sizes[..l])
  }

  /** The radius a node of layer `l` is drawn with. */
  function Radius(l: nat, layers: nat): (r: nat)
    ensures r == 10 <==> l == 0 || l == layers - 1
    ensures r == 6 || r == 10
  {
    6 + (if l == 0 || l == layers - 1 then 4 else 0)
  }

  datatype Node = Node(id: nat, layer: nat, r: nat)

  /** A link holds its two end nodes, as the source's link objects do. */
  datatype Link = Link(source: Node, target: Node)

  /** Whether position `k` falls in layer `m`'s block of ids. */
  predicate InBlock(sizes: seq<nat>, m: nat, k: nat)
    requires m < |sizes|
  {
    Offset(sizes, m) <= k < Offset(sizes, m) + sizes[m]
  }

  /** The nodes of the layers before `l`, and the first `i` nodes of layer
      `l`, are in place: the node at position `k` of layer `m`'s block has
      id `k`, layer `m` and that layer's radius. */
  ghost predicate PlacedUpTo(sizes: seq<nat>, nodes: seq<Node>, l: nat, i: nat)
  {
    forall m: nat, k: nat :: m < |sizes| && InBlock(sizes, m, k) && (m < l || (m == l && k < Offset(sizes, m) + i)) ==>
      k < |nodes| && nodes[k] == Node(k, m, Radius(m, |sizes|))
  }

  /** The node layout of the whole network. */
  ghost predicate LaidOut(sizes: seq<nat>, nodes: seq<Node>)
  {
    |nodes| == Sum(sizes) && PlacedUpTo(sizes, nodes, |sizes|, 0)
  }

  /** Earlier layers end before later ones begin. */
  lemma {:induction false} OffsetsGrow(sizes: seq<nat>, m: nat, l: nat)
    requires m < l <= |sizes|
    ensures Offset(sizes, m) + sizes[m] <= Offset(sizes, l)
    decreases l
  {
    SumStep(sizes, l - 1);
    if m < l - 1 {
      OffsetsGrow(sizes, m, l - 1);
    }
  }

  /** Pushing the next node of layer `l` keeps the layout in place. */
  lemma PlaceNext(sizes: seq<nat>, nodes: seq<Node>, l: nat, i: nat)
    requires l < |sizes| && i < sizes[l]
    requires |nodes| == Offset(sizes, l) + i
    requires PlacedUpTo(sizes, nodes, l, i)
    ensures PlacedUpTo(sizes, nodes + [Node(|nodes|, l, Radius(l, |sizes|))], l, i + 1)
  {
    var x := Node(|nodes|, l, Radius(l, |sizes|));
    var nodes' := nodes + [x];
    forall m: nat, k: nat | m < |sizes| && InBlock(sizes, m, k) && (m < l || (m == l && k < Offset(sizes, m) + i + 1))
      ensures k < |nodes'| && nodes'[k] == Node(k, m, Radius(m, |sizes|))
    {
      if m < l {
        OffsetsGrow(sizes, m, l);
        assert nodes'[k] == nodes[k];
      } else if k < Offset(sizes, m) + i {
        assert nodes'[k] == nodes[k];
      }
    }
  }

  /** A finished layer hands over to the next one. */
  lemma NextLayer(sizes: seq<nat>, nodes: seq<Node>, l: nat)
    requires l < |sizes|
    requires PlacedUpTo(sizes, nodes, l, sizes[l])
    ensures PlacedUpTo(sizes, nodes, l + 1, 0)
  {
  }

  /** The `forEach` over the layers with its inner `for` over the nodes. */
  method BuildNodes(sizes: seq<nat>) returns (nodes: seq<Node>)
    ensures LaidOut(sizes, nodes)
    ensures forall k :: 0 <= k < |nodes| ==> nodes[k].id == k
  {
    nodes := [];
    var nodeId := 0;
    var l := 0;
    while l < |sizes|
      invariant 0 <= l <= |sizes|
      invariant nodeId == |nodes| == Offset(sizes, l)
      invariant forall k :: 0 <= k < |nodes| ==> nodes[k].id == k
      invariant PlacedUpTo(sizes, nodes, l, 0)
    {
      SumStep(sizes, l);
      var count := sizes[l];
      var i := 0;
      while i < count
        invariant 0 <= i <= count
        invariant nodeId == |nodes| == Offset(sizes, l) + i
        invariant forall k :: 0 <= k < |nodes| ==> nodes[k].id == k
        invariant PlacedUpTo(sizes, nodes, l, i)
      {
        var id := nodeId;
        nodeId := nodeId + 1;
        PlaceNext(sizes, nodes, l, i);
        nodes := nodes + [Node(id, l, Radius(l, |sizes|))];
        i := i + 1;
      }
      NextLayer(sizes, nodes, l);
      l := l + 1;
    }
    assert sizes[..|sizes|] == sizes;
  }

  /** The total number of nodes is 8 plus the hidden layers' nodes. */
  lemma {:induction false} NodeTotal(layerCount: nat)
    ensures Sum(LayerSizes(layerCount)) ==
              8 + (LayerTotal(layerCount) - 2) * HiddenSize(layerCount)
  {
    var sizes := LayerSizes(layerCount);
    var h := HiddenSize(layerCount);
    var n := |sizes|;
    forall l | 1 <= l <= n - 1
      ensures Sum(sizes[..l]) == 4 + (l - 1) * h
    {
      PrefixOfSizes(sizes, h, l);
    }
    SumStep(sizes, n - 1);
    assert sizes[..n] == sizes;
  }

  lemma {:induction false} PrefixOfSizes(sizes: seq<nat>, h: nat, l: nat)
    requires 1 <= l < |sizes| && sizes[0] == 4
    requires forall m :: 0 < m < |sizes| - 1 ==> sizes[m] == h
    ensures Sum(sizes[..l]) == 4 + (l - 1) * h
  {
    if l == 1 {
      assert sizes[..1] == [4];
      assert Sum([4]) == Sum([]) + 4;
    } else {
      PrefixOfSizes(sizes, h, l - 1);
      SumStep(sizes, l - 1);
    }
  }

  /** `newNodes.filter(n => n.layer === layer)`. */
  function InLayer(nodes: seq<Node>, layer: nat): (r: seq<Node>)
    ensures forall t :: t in r <==> t in nodes && t.layer == layer
  {
    if nodes == [] then []
    else InLayer(nodes[..|nodes| - 1], layer)
         + (if nodes[|nodes| - 1].layer == layer then [nodes[|nodes| - 1]] else [])
  }

  /** No element occurs twice. */
  predicate Distinct<T(==)>(xs: seq<T>)
  {
    forall a, b :: 0 <= a < b < |xs| ==> xs[a] != xs[b]
  }

  lemma DistinctSnoc<T>(xs: seq<T>, x: T)
    requires Distinct(xs) && x !in xs
    ensures Distinct(xs + [x])
  {
  }

  /** Filtering a list without repeats gives one without repeats. */
  lemma {:induction false} InLayerDistinct(nodes: seq<Node>, layer: nat)
    requires Distinct(nodes)
    ensures Distinct(InLayer(nodes, layer))
    decreases |nodes|
  {
    if nodes != [] {
      var p := nodes[..|nodes| - 1];
      var last := nodes[|nodes| - 1];
      assert Distinct(p) by {
        forall a, b | 0 <= a < b < |p|
          ensures p[a] != p[b]
        {
          assert p[a] == nodes[a] && p[b] == nodes[b];
        }
      }
      InLayerDistinct(p, layer);
      assert last !in p by {
        forall a | 0 <= a < |p|
          ensures p[a] != last
        {
          assert p[a] == nodes[a];
        }
      }
      if last.layer == layer {
        DistinctSnoc(InLayer(p, layer), last);
      }
    }
  }

  /** Whether the link from `s` to `t` is drawn. */
  predicate Kept(s: Node, t: Node, layerCount: nat, keep: (nat, nat) -> bool)
  {
    keep(s.id, t.id) || layerCount < 2
  }

  /** The link loop: for each node, every node of the next layer whose link
      the draw keeps (all of them for the smallest models). */
  method BuildLinks(nodes: seq<Node>, layerCount: nat, keep: (nat, nat) -> bool) returns (links: seq<Link>)
    ensures forall s, t :: Link(s, t) in links <==>
              s in nodes && t in nodes && t.layer == s.layer + 1 && Kept(s, t, layerCount, keep)
    ensures Distinct(nodes) ==> Distinct(links)
  {
    links := [];
    var i := 0;
    while i < |nodes|
      invariant 0 <= i <= |nodes|
      invariant forall s, t :: Link(s, t) in links <==>
                  s in nodes[..i] && t in nodes && t.layer == s.layer + 1 && Kept(s, t, layerCount, keep)
      invariant Distinct(nodes) ==> Distinct(links)
    {
      var source := nodes[i];
      var next := InLayer(nodes, source.layer + 1);
      if Distinct(nodes) {
        InLayerDistinct(nodes, source.layer + 1);
      }
      var j := 0;
      ghost var before := links;
      while j < |next|
        invariant 0 <= j <= |next|
        invariant forall s, t :: Link(s, t) in links <==>
                    Link(s, t) in before || (s == source && t in next[..j] && Kept(s, t, layerCount, keep))
        invariant Distinct(nodes) ==> Distinct(links)
      {
        var target := next[j];
        if keep(source.id, target.id) || layerCount < 2 {
          if Distinct(nodes) {
            NotEarlier(nodes, i);
            NotEarlier(next, j);
            DistinctSnoc(links, Link(source, target));
          }
          links := links + [Link(source, target)];
        }
        assert next[..j + 1] == next[..j] + [target];
        j := j + 1;
      }
      assert next[..j] == next;
      assert nodes[..i + 1] == nodes[..i] + [source];
      i := i + 1;
    }
    assert nodes[..i] == nodes;
  }

  /** In a list without repeats, an element is not among those before it. */
  lemma NotEarlier<T>(xs: seq<T>, i: nat)
    requires Distinct(xs) && i < |xs|
    ensures xs[i] !in xs[..i]
  {
    forall a | 0 <= a < i
      ensures xs[..i][a] != xs[i]
    {
      assert xs[..i][a] == xs[a];
    }
  }

  /** The topology effect: layer sizes, nodes, links. */
  method BuildTopology(layerCount: nat, keep: (nat, nat) -> bool) returns (nodes: seq<Node>, links: seq<Link>)
    ensures LaidOut(LayerSizes(layerCount), nodes)
    ensures |nodes| == 8 + (LayerTotal(layerCount) - 2) * HiddenSize(layerCount)
    ensures forall k :: 0 <= k < |nodes| ==> nodes[k].id == k
    ensures forall s, t :: Link(s, t) in links <==>
              s in nodes && t in nodes && t.layer == s.layer + 1 && Kept(s, t, layerCount, keep)
    ensures Distinct(links)
  {
    var sizes := LayerSizes(layerCount);
    nodes := BuildNodes(sizes);
    NodeTotal(layerCount);
    links := BuildLinks(nodes, layerCount, keep);
  }

  /** Every link joins a layer to the next one. */
  lemma LinksAdjacent(nodes: seq<Node>, links: seq<Link>, layerCount: nat, keep: (nat, nat) -> bool)
    requires forall s, t :: Link(s, t) in links <==>
               s in nodes && t in nodes && t.layer == s.layer + 1 && Kept(s, t, layerCount, keep)
    ensures forall k :: 0 <= k < |links| ==>
              links[k].target.layer == links[k].source.layer + 1
              && links[k].source in nodes && links[k].target in nodes
  {
    forall k | 0 <= k < |links|
      ensures links[k].target.layer == links[k].source.layer + 1 && links[k].source in nodes && links[k].target in nodes
    {
      assert Link(links[k].source, links[k].target) in links;
    }
  }

  /** Below two hidden layers the network is fully connected between
      adjacent layers, whatever the draws. */
  lemma SmallModelsDense(nodes: seq<Node>, links: seq<Link>, layerCount: nat, keep: (nat, nat) -> bool)
    requires layerCount < 2
    requires forall s, t :: Link(s, t) in links <==>
               s in nodes && t in nodes && t.layer == s.layer + 1 && Kept(s, t, layerCount, keep)
    ensures forall i, j :: 0 <= i < |nodes| && 0 <= j < |nodes| && nodes[j].layer == nodes[i].layer + 1 ==>
              Link(nodes[i], nodes[j]) in links
  {
  }
}
