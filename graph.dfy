/**
 * The network graph of the pruning page: a fully connected layered network
 * laid out on a 400 x 300 canvas, and the node and edge masks of structured
 * and unstructured pruning. The host's sine and cosine, which only serve as
 * deterministic pseudo-random sources, are parameters.
 */
module NetworkGraph {
  import opened Rounding

  /** The topology shown: three inputs, two hidden layers of four, two outputs. */
  const Layers: seq<nat> := [3, 4, 4, 2]

  const Width: real := 400.0
  const Height: real := 300.0
  /** Horizontal padding added to every node's x. */
  const Padding: real := 40.0

  /** A node is identified by its (layer, index) pair, written l{layer}-n{index} by the host. */
  datatype Node = Node(layer: nat, index: nat, x: real, y: real)

  datatype Edge = Edge(source: Node, target: Node, weightVal: real)

  /** sin and cos stay within [-1, 1]. */
  ghost predicate UnitBounded(f: real -> real)
  {
    forall x :: -1.0 <= f(x) <= 1.0
  }

  // ---------------------------------------------------------------------------
  // Nodes
  // ---------------------------------------------------------------------------

  /** Horizontal distance between consecutive layers. */
  function Spacing(layers: seq<nat>): real
    requires |layers| >= 2
  {
    Width / (|layers| - 1) as real
  }

  /** Layer L sits at x = L * spacing + padding. */
  function NodeX(layers: seq<nat>, L: nat): real
    requires |layers| >= 2
  {
    L as real * Spacing(layers) + Padding
  }

  /** Node i of a layer of count nodes sits at y = (i + 1) * height / (count + 1). */
  function NodeY(count: nat, i: nat): real
  {
    (i + 1) as real * (Height / (count + 1) as real)
  }

  /** The i-th node of layer L. */
  function MakeNode(layers: seq<nat>, L: nat, i: nat): Node
    requires |layers| >= 2 && L < |layers|
  {
    Node(L, i, NodeX(layers, L), NodeY(layers[L], i))
  }

  /** All nodes of layer L, by increasing index. */
  function Column(layers: seq<nat>, L: nat): (c: seq<Node>)
    requires |layers| >= 2 && L < |layers|
    ensures |c| == layers[L]
    ensures forall i :: 0 <= i < |c| ==> c[i].layer == L && c[i].index == i
  {
    seq(layers[L], i requires 0 <= i < layers[L] => MakeNode(layers, L, i))
  }

  /** The nodes of the first m layers, layer after layer. */
  function NodesUpTo(layers: seq<nat>, m: nat): seq<Node>
    requires |layers| >= 2 && m <= |layers|
  {
    if m == 0 then [] else NodesUpTo(layers, m - 1) + Column(layers, m - 1)
  }

  function AllNodes(layers: seq<nat>): seq<Node>
    requires |layers| >= 2
  {
    NodesUpTo(layers, |layers|)
  }

  /** Number of nodes in the first m layers. */
  function LayerSum(layers: seq<nat>, m: nat): nat
    requires m <= |layers|
  {
    if m == 0 then 0 else LayerSum(layers, m - 1) + layers[m - 1]
  }

  /** (layer, index) strictly increases lexicographically: layer by layer, then by index. */
  predicate Before(a: Node, b: Node)
  {
    a.layer < b.layer || (a.layer == b.layer && a.index < b.index)
  }

  predicate LayerOrdered(s: seq<Node>)
  {
    forall i, j :: 0 <= i < j < |s| ==> Before(s[i], s[j])
  }

  /** A node is where the layout puts its (layer, index). */
  predicate WellPlaced(layers: seq<nat>, m: nat, n: Node)
    requires |layers| >= 2 && m <= |layers|
  {
    n.layer < m && n.index < layers[n.layer] && n == MakeNode(layers, n.layer, n.index)
  }

  /**
   * The node list of the first m layers: LayerSum(m) nodes, each placed as
   * its (layer, index) says, in layer-then-index order (so no identifier repeats).
   */
  lemma {:induction false} NodesShape(layers: seq<nat>, m: nat)
    requires |layers| >= 2 && m <= |layers|
    ensures |NodesUpTo(layers, m)| == LayerSum(layers, m)
    ensures forall n :: n in NodesUpTo(layers, m) ==> WellPlaced(layers, m, n)
    ensures LayerOrdered(NodesUpTo(layers, m))
  {
    if m > 0 {
      NodesShape(layers, m - 1);
      var p, c := NodesUpTo(layers, m - 1), Column(layers, m - 1);
      var s := p + c;
      forall n | n in s
        ensures WellPlaced(layers, m, n)
      {
        if n in p {
          assert WellPlaced(layers, m - 1, n);
        } else {
          var i :| 0 <= i < |c| && c[i] == n;
        }
      }
      forall i, j | 0 <= i < j < |s|
        ensures Before(s[i], s[j])
      {
        if j < |p| {
          assert s[i] == p[i] && s[j] == p[j];
        } else if i < |p| {
          assert p[i] in p;
          assert WellPlaced(layers, m - 1, p[i]);
          assert s[j] == c[j - |p|];
        } else {
          assert s[i] == c[i - |p|] && s[j] == c[j - |p|];
        }
      }
    }
  }

  /** Nodes of an earlier prefix remain in every longer prefix. */
  lemma {:induction false} NodesPrefixIn(layers: seq<nat>, m1: nat, m2: nat, n: Node)
    requires |layers| >= 2 && m1 <= m2 <= |layers|
    requires n in NodesUpTo(layers, m1)
    ensures n in NodesUpTo(layers, m2)
    decreases m2
  {
    if m1 < m2 {
      NodesPrefixIn(layers, m1, m2 - 1, n);
    }
  }

  /** Every (layer, index) of the topology gets its node. */
  lemma NodePresent(layers: seq<nat>, L: nat, i: nat)
    requires |layers| >= 2 && L < |layers| && i < layers[L]
    ensures MakeNode(layers, L, i) in AllNodes(layers)
  {
    assert Column(layers, L)[i] == MakeNode(layers, L, i);
    assert MakeNode(layers, L, i) in NodesUpTo(layers, L + 1);
    NodesPrefixIn(layers, L + 1, |layers|, MakeNode(layers, L, i));
  }

  /** Every node lies on the canvas: x in [padding, padding + width], y strictly inside (0, height). */
  lemma NodeInCanvas(layers: seq<nat>, L: nat, i: nat)
    requires |layers| >= 2 && L < |layers| && i < layers[L]
    ensures var n := MakeNode(layers, L, i);
            Padding <= n.x <= Padding + Width && 0.0 < n.y < Height
  {
    var d := (|layers| - 1) as real;
    Share(Width, d);
    ScaleOrder(0.0, L as real, Spacing(layers));
    ScaleOrder(L as real, d, Spacing(layers));
    var c := (layers[L] + 1) as real;
    Share(Height, c);
    ScaleOrder(0.0, (i + 1) as real, Height / c);
    ScaleOrder((i + 1) as real, c, Height / c);
  }

  /**
   * The node-building loop: for each layer in turn, push its nodes by
   * increasing index.
   */
  method BuildNodes(layers: seq<nat>) returns (nodes: seq<Node>)
    requires |layers| >= 2
    ensures nodes == AllNodes(layers)
    ensures |nodes| == LayerSum(layers, |layers|)
    ensures LayerOrdered(nodes)
  {
    nodes := [];
    var layerIdx := 0;
    while layerIdx < |layers|
      invariant 0 <= layerIdx <= |layers|
      invariant nodes == NodesUpTo(layers, layerIdx)
    {
      var count := layers[layerIdx];
      var x := layerIdx as real * Spacing(layers);
      var nodeSpacing := Height / (count + 1) as real;
      var i := 0;
      while i < count
        invariant 0 <= i <= count
        invariant nodes == NodesUpTo(layers, layerIdx) + Column(layers, layerIdx)[..i]
      {
        var node := Node(layerIdx, i, x + Padding, (i + 1) as real * nodeSpacing);
        assert node == Column(layers, layerIdx)[i];
        assert Column(layers, layerIdx)[..i + 1] == Column(layers, layerIdx)[..i] + [node];
        nodes := nodes + [node];
        i := i + 1;
      }
      assert Column(layers, layerIdx)[..count] == Column(layers, layerIdx);
      layerIdx := layerIdx + 1;
    }
    NodesShape(layers, |layers|);
  }

  // ---------------------------------------------------------------------------
  // Edges
  // ---------------------------------------------------------------------------

  /** n alone if it belongs to the given layer, nothing otherwise. */
  function Keep(n: Node, layer: nat): seq<Node>
  {
    if n.layer == layer then [n] else []
  }

  /** The nodes of s that belong to the given layer, in order. */
  function TargetsOf(s: seq<Node>, layer: nat): (r: seq<Node>)
    ensures |r| <= |s|
  {
    if s == [] then [] else Keep(s[0], layer) + TargetsOf(s[1..], layer)
  }

  /** The filter keeps exactly the nodes of s in the given layer. */
  lemma {:induction false} TargetsOfMembers(s: seq<Node>, layer: nat)
    ensures forall n :: n in TargetsOf(s, layer) <==> n in s && n.layer == layer
  {
    if s != [] {
      TargetsOfMembers(s[1..], layer);
      assert s == [s[0]] + s[1..];
    }
  }

  lemma {:induction false} TargetsOfAppend(a: seq<Node>, b: seq<Node>, layer: nat)
    ensures TargetsOf(a + b, layer) == TargetsOf(a, layer) + TargetsOf(b, layer)
  {
    if a == [] {
      assert a + b == b;
    } else {
      var h := Keep(a[0], layer);
      assert (a + b)[0] == a[0];
      assert (a + b)[1..] == a[1..] + b;
      TargetsOfAppend(a[1..], b, layer);
      assert h + (TargetsOf(a[1..], layer) + TargetsOf(b, layer)) == (h + TargetsOf(a[1..], layer)) + TargetsOf(b, layer);
    }
  }

  lemma {:induction false} TargetsOfUniform(s: seq<Node>, L: nat, layer: nat)
    requires forall k :: 0 <= k < |s| ==> s[k].layer == L
    ensures TargetsOf(s, layer) == if L == layer then s else []
  {
    if s != [] {
      TargetsOfUniform(s[1..], L, layer);
    }
  }

  /** Filtering a column keeps all of it for its own layer and nothing for any other. */
  lemma TargetsOfOwnColumn(layers: seq<nat>, L: nat, layer: nat)
    requires |layers| >= 2 && L < |layers|
    ensures TargetsOf(Column(layers, L), layer) == if L == layer then Column(layers, L) else []
  {
    TargetsOfUniform(Column(layers, L), L, layer);
  }

  /** Filtering the node list by layer gives back exactly that layer's column. */
  lemma {:induction false} TargetsOfColumn(layers: seq<nat>, m: nat, layer: nat)
    requires |layers| >= 2 && m <= |layers|
    ensures TargetsOf(NodesUpTo(layers, m), layer) == if layer < m then Column(layers, layer) else []
  {
    if m > 0 {
      var p, c := NodesUpTo(layers, m - 1), Column(layers, m - 1);
      TargetsOfColumn(layers, m - 1, layer);
      TargetsOfAppend(p, c, layer);
      TargetsOfOwnColumn(layers, m - 1, layer);
      var tp, tc := TargetsOf(p, layer), TargetsOf(c, layer);
      if layer < m - 1 {
        assert tp + tc == Column(layers, layer) + [];
      } else if layer == m - 1 {
        assert tp + tc == [] + c;
      } else {
        assert tp + tc == [] + [];
      }
    }
  }

  /** Filtering the whole node list by layer L gives column L. */
  lemma FilterGivesColumn(layers: seq<nat>, L: nat)
    requires |layers| >= 2 && L < |layers|
    ensures TargetsOf(AllNodes(layers), L) == Columns(layers)[L]
  {
    TargetsOfColumn(layers, |layers|, L);
  }

  /** The pseudo-random edge weight (sin(7 s + 13 t) + 1) / 2. */
  function WeightVal(sourceIndex: nat, targetIndex: nat, sin: real -> real): (w: real)
    ensures UnitBounded(sin) ==> 0.0 <= w <= 1.0
  {
    (sin((sourceIndex * 7 + targetIndex * 13) as real) + 1.0) / 2.0
  }

  function MakeEdge(source: Node, target: Node, sin: real -> real): Edge
  {
    Edge(source, target, WeightVal(source.index, target.index, sin))
  }

  /** The edges from source to each of targets, in order. */
  function EdgesFrom(source: Node, targets: seq<Node>, sin: real -> real): (r: seq<Edge>)
    ensures |r| == |targets|
  {
    if targets == [] then []
    else [MakeEdge(source, targets[0], sin)] + EdgesFrom(source, targets[1..], sin)
  }

  /** The j-th edge from source goes to the j-th target. */
  lemma {:induction false} EdgesFromIndex(source: Node, targets: seq<Node>, sin: real -> real, j: nat)
    requires j < |targets|
    ensures EdgesFrom(source, targets, sin)[j] == MakeEdge(source, targets[j], sin)
  {
    if j > 0 {
      EdgesFromIndex(source, targets[1..], sin, j - 1);
    }
  }

  /** The layout's nodes grouped by layer: column L holds layer L by increasing index. */
  function Columns(layers: seq<nat>): (cs: seq<seq<Node>>)
    requires |layers| >= 2
    ensures |cs| == |layers|
  {
    seq(|layers|, L requires 0 <= L < |layers| => Column(layers, L))
  }

  /** Every column entry belongs to the column's layer and is one of the listed nodes. */
  predicate Covers(columns: seq<seq<Node>>, nodes: seq<Node>)
  {
    forall L, j :: 0 <= L < |columns| && 0 <= j < |columns[L]| ==>
      columns[L][j].layer == L && columns[L][j] in nodes
  }

  lemma ColumnsCover(layers: seq<nat>)
    requires |layers| >= 2
    ensures Covers(Columns(layers), AllNodes(layers))
  {
    var cs: seq<seq<Node>> := Columns(layers);
    forall L: int, j: int | 0 <= L < |cs| && 0 <= j < |cs[L]|
      ensures cs[L][j].layer == L && cs[L][j] in AllNodes(layers)
    {
      assert cs[L] == Column(layers, L);
      NodePresent(layers, L, j);
    }
  }

  /**
   * A node of the output layer has no outgoing edges; a node of any other
   * layer L links to every node of column L + 1.
   */
  function OutEdges(columns: seq<seq<Node>>, source: Node, sin: real -> real): seq<Edge>
  {
    if source.layer + 1 >= |columns| then []
    else EdgesFrom(source, columns[source.layer + 1], sin)
  }

  /** The rows of a list of rows, concatenated in order. */
  function Flatten<T>(rows: seq<seq<T>>): seq<T>
  {
    if rows == [] then [] else Flatten(rows[..|rows| - 1]) + rows[|rows| - 1]
  }

  /** Whatever is in a row is in the concatenation. */
  lemma {:induction false} FlattenMember<T>(rows: seq<seq<T>>, k: nat, x: T)
    requires k < |rows| && x in rows[k]
    ensures x in Flatten(rows)
  {
    if k < |rows| - 1 {
      FlattenMember(rows[..|rows| - 1], k, x);
    }
  }

  /** Whatever is in the concatenation comes from some row. */
  lemma {:induction false} FlattenMembers<T>(rows: seq<seq<T>>, x: T)
    requires x in Flatten(rows)
    ensures exists k :: 0 <= k < |rows| && x in rows[k]
  {
    if x !in rows[|rows| - 1] {
      var init := rows[..|rows| - 1];
      FlattenMembers(init, x);
      var k :| 0 <= k < |init| && x in init[k];
      assert rows[k] == init[k];
    }
  }

  /** Row k holds the outgoing edges of the k-th listed node. */
  function EdgeRows(columns: seq<seq<Node>>, nodes: seq<Node>, sin: real -> real): (rows: seq<seq<Edge>>)
    ensures |rows| == |nodes|
  {
    seq(|nodes|, k requires 0 <= k < |nodes| => OutEdges(columns, nodes[k], sin))
  }

  /** The edge list: the outgoing edges of each listed node in turn. */
  function Edges(columns: seq<seq<Node>>, nodes: seq<Node>, sin: real -> real): seq<Edge>
  {
    Flatten(EdgeRows(columns, nodes, sin))
  }

  /** The inner loop: one edge from source to each target, in order. */
  method ConnectTo(source: Node, targets: seq<Node>, sin: real -> real) returns (row: seq<Edge>)
    ensures row == EdgesFrom(source, targets, sin)
    ensures forall j :: 0 <= j < |row| ==> row[j].source == source && row[j].target == targets[j]
  {
    row := [];
    var j := 0;
    while j < |targets|
      invariant 0 <= j <= |targets|
      invariant row == EdgesFrom(source, targets, sin)[..j]
      invariant forall i :: 0 <= i < j ==> row[i].source == source && row[i].target == targets[i]
    {
      var target := targets[j];
      var weightVal := (sin((source.index * 7 + target.index * 13) as real) + 1.0) / 2.0;
      EdgesFromIndex(source, targets, sin, j);
      assert EdgesFrom(source, targets, sin)[..j + 1] == row + [Edge(source, target, weightVal)];
      row := row + [Edge(source, target, weightVal)];
      j := j + 1;
    }
    assert EdgesFrom(source, targets, sin)[..|targets|] == EdgesFrom(source, targets, sin);
  }

  /**
   * One step of the edge-building loop: nothing from the output layer;
   * otherwise filter the next layer out of the node list and connect the
   * source to each of its nodes.
   */
  method ConnectSource(layers: seq<nat>, nodes: seq<Node>, source: Node, sin: real -> real) returns (row: seq<Edge>)
    requires |layers| >= 2 && nodes == AllNodes(layers)
    ensures row == OutEdges(Columns(layers), source, sin)
  {
    row := [];
    if source.layer < |layers| - 1 {
      var targets := TargetsOf(nodes, source.layer + 1);
      FilterGivesColumn(layers, source.layer + 1);
      row := ConnectTo(source, targets, sin);
    }
  }

  /**
   * The edge-building loop over the node list: the edges of each node in
   * turn, every one of them between listed nodes of adjacent layers, and
   * sum of layers[L] * layers[L + 1] of them in all.
   */
  method BuildEdges(layers: seq<nat>, nodes: seq<Node>, sin: real -> real) returns (edges: seq<Edge>)
    requires |layers| >= 2 && nodes == AllNodes(layers)
    ensures edges == Edges(Columns(layers), nodes, sin)
    ensures |edges| == EdgeTotal(layers, |layers|)
    ensures forall e :: e in edges ==>
              e.source in nodes && e.target in nodes && e.target.layer == e.source.layer + 1 < |layers|
  {
    ghost var rows := EdgeRows(Columns(layers), nodes, sin);
    edges := [];
    var k := 0;
    while k < |nodes|
      invariant 0 <= k <= |nodes|
      invariant edges == Flatten(rows[..k])
    {
      var row := ConnectSource(layers, nodes, nodes[k], sin);
      assert rows[..k + 1][..k] == rows[..k];
      edges := edges + row;
      k := k + 1;
    }
    assert rows[..|nodes|] == rows;
    ColumnsCover(layers);
    EdgesAdjacent(Columns(layers), nodes, sin);
    EdgeCount(layers, sin);
  }

  /** Every edge runs from a listed node to a listed node one layer further on, never out of the last layer. */
  lemma EdgesAdjacent(columns: seq<seq<Node>>, nodes: seq<Node>, sin: real -> real)
    requires Covers(columns, nodes)
    ensures forall e :: e in Edges(columns, nodes, sin) ==>
              e.source in nodes && e.target in nodes && e.target.layer == e.source.layer + 1 < |columns|
  {
    var rows := EdgeRows(columns, nodes, sin);
    forall e: Edge | e in Flatten(rows)
      ensures e.source in nodes && e.target in nodes && e.target.layer == e.source.layer + 1 < |columns|
    {
      FlattenMembers(rows, e);
      var k :| 0 <= k < |rows| && e in rows[k];
      var source := nodes[k];
      var j :| 0 <= j < |rows[k]| && rows[k][j] == e;
      EdgesFromIndex(source, columns[source.layer + 1], sin, j);
    }
  }

  /** Every listed node outside the last column is joined to every node of the next column. */
  lemma EdgesComplete(columns: seq<seq<Node>>, nodes: seq<Node>, sin: real -> real, k: nat, j: nat)
    requires k < |nodes| && nodes[k].layer + 1 < |columns| && j < |columns[nodes[k].layer + 1]|
    ensures MakeEdge(nodes[k], columns[nodes[k].layer + 1][j], sin) in Edges(columns, nodes, sin)
  {
    var rows := EdgeRows(columns, nodes, sin);
    EdgesFromIndex(nodes[k], columns[nodes[k].layer + 1], sin, j);
    FlattenMember(rows, k, rows[k][j]);
  }

  /** In the laid-out network, node i of layer L is joined to node j of layer L + 1, for every i and j. */
  lemma FullyConnected(layers: seq<nat>, sin: real -> real, L: nat, i: nat, j: nat)
    requires |layers| >= 2 && L + 1 < |layers| && i < layers[L] && j < layers[L + 1]
    ensures MakeEdge(MakeNode(layers, L, i), MakeNode(layers, L + 1, j), sin)
              in Edges(Columns(layers), AllNodes(layers), sin)
  {
    var nodes := AllNodes(layers);
    NodePresent(layers, L, i);
    var k :| 0 <= k < |nodes| && nodes[k] == MakeNode(layers, L, i);
    assert Columns(layers)[L + 1][j] == MakeNode(layers, L + 1, j);
    EdgesComplete(Columns(layers), nodes, sin, k, j);
  }

  /** Outgoing edges of a node of layer L: the size of column L + 1, or none from the last column. */
  function Fanout(columns: seq<seq<Node>>, L: nat): nat
  {
    if L + 1 < |columns| then |columns[L + 1]| else 0
  }

  /** Sum of the fan-outs of the nodes of s. */
  function FanoutSum(columns: seq<seq<Node>>, s: seq<Node>): nat
  {
    if s == [] then 0 else FanoutSum(columns, s[..|s| - 1]) + Fanout(columns, s[|s| - 1].layer)
  }

  lemma {:induction false} FanoutSumAppend(columns: seq<seq<Node>>, a: seq<Node>, b: seq<Node>)
    ensures FanoutSum(columns, a + b) == FanoutSum(columns, a) + FanoutSum(columns, b)
    decreases |b|
  {
    if b == [] {
      assert a + b == a;
    } else {
      assert (a + b)[..|a + b| - 1] == a + b[..|b| - 1];
      FanoutSumAppend(columns, a, b[..|b| - 1]);
    }
  }

  lemma {:induction false} FanoutSumUniform(columns: seq<seq<Node>>, s: seq<Node>, L: nat)
    requires forall k :: 0 <= k < |s| ==> s[k].layer == L
    ensures FanoutSum(columns, s) == |s| * Fanout(columns, L)
  {
    if s != [] {
      FanoutSumUniform(columns, s[..|s| - 1], L);
    }
  }

  /** Size of the layer after L, or 0 after the output layer. */
  function NextWidth(layers: seq<nat>, L: nat): nat
  {
    if L + 1 < |layers| then layers[L + 1] else 0
  }

  /** Number of edges leaving the first m layers: sum of layers[L] * layers[L + 1]. */
  function EdgeTotal(layers: seq<nat>, m: nat): nat
    requires m <= |layers|
  {
    if m == 0 then 0 else EdgeTotal(layers, m - 1) + layers[m - 1] * NextWidth(layers, m - 1)
  }

  /** The nodes of column L account for layers[L] * layers[L + 1] edges. */
  lemma ColumnFanout(layers: seq<nat>, L: nat)
    requires |layers| >= 2 && L < |layers|
    ensures FanoutSum(Columns(layers), Column(layers, L)) == layers[L] * NextWidth(layers, L)
  {
    var cs := Columns(layers);
    FanoutSumUniform(cs, Column(layers, L), L);
    if L + 1 < |layers| {
      assert cs[L + 1] == Column(layers, L + 1);
    }
    assert Fanout(cs, L) == NextWidth(layers, L);
  }

  lemma {:induction false} FanoutSumNodes(layers: seq<nat>, m: nat)
    requires |layers| >= 2 && m <= |layers|
    ensures FanoutSum(Columns(layers), NodesUpTo(layers, m)) == EdgeTotal(layers, m)
  {
    if m > 0 {
      FanoutSumNodes(layers, m - 1);
      FanoutSumAppend(Columns(layers), NodesUpTo(layers, m - 1), Column(layers, m - 1));
      ColumnFanout(layers, m - 1);
    }
  }

  lemma {:induction false} EdgesCountPrefix(columns: seq<seq<Node>>, nodes: seq<Node>, m: nat, sin: real -> real)
    requires m <= |nodes|
    ensures |Flatten(EdgeRows(columns, nodes, sin)[..m])| == FanoutSum(columns, nodes[..m])
  {
    if m > 0 {
      var rows := EdgeRows(columns, nodes, sin);
      EdgesCountPrefix(columns, nodes, m - 1, sin);
      assert rows[..m][..m - 1] == rows[..m - 1];
      assert nodes[..m][..m - 1] == nodes[..m - 1];
    }
  }

  /** A fully connected layered network has sum of layers[L] * layers[L + 1] edges. */
  lemma EdgeCount(layers: seq<nat>, sin: real -> real)
    requires |layers| >= 2
    ensures |Edges(Columns(layers), AllNodes(layers), sin)| == EdgeTotal(layers, |layers|)
  {
    var nodes := AllNodes(layers);
    var rows := EdgeRows(Columns(layers), nodes, sin);
    EdgesCountPrefix(Columns(layers), nodes, |nodes|, sin);
    assert nodes[..|nodes|] == nodes;
    assert rows[..|nodes|] == rows;
    FanoutSumNodes(layers, |layers|);
  }

  /** The [3, 4, 4, 2] network has 13 nodes and 36 edges. */
  lemma FixedNetworkCounts(sin: real -> real)
    ensures |AllNodes(Layers)| == 13
    ensures |Edges(Columns(Layers), AllNodes(Layers), sin)| == 36
  {
    NodesShape(Layers, |Layers|);
    EdgeCount(Layers, sin);
  }

  /** Edge weights lie in [0, 1]. */
  // ---------------------------------------------------------------------------
  // Masks
  // ---------------------------------------------------------------------------

  /** The pseudo-random importance (cos(11 index + 7 layer) + 1) / 2 of a node. */
  function Importance(node: Node, cos: real -> real): (r: real)
    ensures UnitBounded(cos) ==> 0.0 <= r <= 1.0
  {
    (cos((node.index * 11 + node.layer * 7) as real) + 1.0) / 2.0
  }

  /**
   * Unstructured pruning keeps every node; structured pruning keeps the
   * input and output layers and a hidden node iff its importance exceeds
   * sparsity / 100.
   */
  predicate IsNodeActive(layers: seq<nat>, node: Node, structured: bool, sparsity: int, cos: real -> real)
    ensures !structured || node.layer == 0 || node.layer == |layers| - 1 ==>
              IsNodeActive(layers, node, structured, sparsity, cos)
  {
    if !structured then true
    else if node.layer == 0 || node.layer == |layers| - 1 then true
    else Importance(node, cos) > sparsity as real / 100.0
  }

  /**
   * An edge with an inactive endpoint is inactive; otherwise an
   * unstructured edge is active iff its weight exceeds sparsity / 100 and a
   * structured edge is active.
   */
  predicate IsEdgeActive(layers: seq<nat>, edge: Edge, structured: bool, sparsity: int, cos: real -> real)
    ensures IsEdgeActive(layers, edge, structured, sparsity, cos) ==>
              IsNodeActive(layers, edge.source, structured, sparsity, cos) &&
              IsNodeActive(layers, edge.target, structured, sparsity, cos)
  {
    if !IsNodeActive(layers, edge.source, structured, sparsity, cos)
       || !IsNodeActive(layers, edge.target, structured, sparsity, cos) then false
    else if !structured then edge.weightVal > sparsity as real / 100.0
    else true
  }

  /** In structured mode two active endpoints make an active edge; in unstructured mode only the weight decides. */
  lemma EdgeEndpoints(layers: seq<nat>, edge: Edge, structured: bool, sparsity: int, cos: real -> real)
    ensures structured ==>
              (IsEdgeActive(layers, edge, structured, sparsity, cos) <==>
                 IsNodeActive(layers, edge.source, structured, sparsity, cos) &&
                 IsNodeActive(layers, edge.target, structured, sparsity, cos))
    ensures !structured ==>
              (IsEdgeActive(layers, edge, structured, sparsity, cos) <==> edge.weightVal > sparsity as real / 100.0)
  {
  }

  /** Raising the sparsity never reactivates a node or an edge. */
  lemma MasksShrink(layers: seq<nat>, node: Node, edge: Edge, structured: bool, s1: int, s2: int, cos: real -> real)
    requires s1 <= s2
    ensures IsNodeActive(layers, node, structured, s2, cos) ==> IsNodeActive(layers, node, structured, s1, cos)
    ensures IsEdgeActive(layers, edge, structured, s2, cos) ==> IsEdgeActive(layers, edge, structured, s1, cos)
  {
    assert s1 as real / 100.0 <= s2 as real / 100.0;
  }

  /** At 100% sparsity or more, structured pruning removes every hidden node. */
  lemma HiddenNodesGoneAtFull(layers: seq<nat>, node: Node, sparsity: int, cos: real -> real)
    requires UnitBounded(cos) && sparsity >= 100
    requires node.layer != 0 && node.layer != |layers| - 1
    ensures !IsNodeActive(layers, node, true, sparsity, cos)
  {
  }
}
