/**
 * The directly-follows graph panel: every activity that occurs as the source or
 * target of a transition row gets an index, index `i` is drawn at column
 * `i mod 5` and row `i div 5` of a grid with spacing 100, and every row becomes
 * a straight line between the grid points of its two activities.
 */
module DfgLayout {
  import opened Options

  /** One row of the DFG result: a transition and how often it was observed. */
  datatype Edge = Edge(from: string, to: string, frequency: int)

  datatype Point = Point(x: int, y: int)

  /** The straight line drawn for one row; the frequency feeds its width and hover text. */
  datatype Line = Line(from: Point, to: Point, frequency: int)

  /** The labelled marker drawn for one activity. */
  datatype Marker = Marker(name: string, at: Point)

  /** What the panel draws: the activities in index order, one line per row, one marker per activity. */
  datatype Diagram = Diagram(nodes: seq<string>, lines: seq<Line>, markers: seq<Marker>)

  const GridColumns: nat := 5
  const GridSpacing: int := 100

  predicate Distinct<T(==)>(s: seq<T>) {
    forall i, j :: 0 <= i < j < |s| ==> s[i] != s[j]
  }

  /** The activities that occur as either end of some row. */
  function Endpoints(edges: seq<Edge>): (nodes: set<string>)
    ensures forall k :: 0 <= k < |edges| ==> edges[k].from in nodes && edges[k].to in nodes
    ensures forall a :: a in nodes ==>
      exists k :: 0 <= k < |edges| && (edges[k].from == a || edges[k].to == a)
  {
    if edges == [] then {}
    else
      var last := edges[|edges| - 1];
      var before := Endpoints(edges[..|edges| - 1]);
      assert forall k :: 0 <= k < |edges| - 1 ==> edges[..|edges| - 1][k] == edges[k];
      before + {last.from, last.to}
  }

  /** The grid point of index `i`: five per row, 100 apart. */
  function GridPosition(i: nat): (p: Point)
    ensures p.x in {0, 100, 200, 300, 400}
    ensures p.y >= 0 && p.y % GridSpacing == 0
  {
    Point((i % GridColumns) * GridSpacing, (i / GridColumns) * GridSpacing)
  }

  /** Different indices are drawn at different grid points. */
  lemma GridPositionInjective(i: nat, j: nat)
    requires i != j
    ensures GridPosition(i) != GridPosition(j)
  {
  }

  /** Collects the set of activities, row by row. */
  method CollectNodes(edges: seq<Edge>) returns (nodes: set<string>)
    ensures nodes == Endpoints(edges)
  {
    nodes := {};
    var k := 0;
    while k < |edges|
      invariant 0 <= k <= |edges|
      invariant nodes == Endpoints(edges[..k])
    {
      assert edges[..k + 1][..k] == edges[..k];
      nodes := nodes + {edges[k].from};
      nodes := nodes + {edges[k].to};
      k := k + 1;
    }
    assert edges[..k] == edges;
  }

  /** `list(nodes)`: every activity once, in an order the model leaves open. */
  method ListNodes(nodes: set<string>) returns (list: seq<string>)
    ensures Distinct(list)
    ensures |list| == |nodes|
    ensures forall i :: 0 <= i < |list| ==> list[i] in nodes
    ensures forall a :: a in nodes ==> a in list
  {
    list := [];
    var remaining := nodes;
    while remaining != {}
      invariant remaining <= nodes
      invariant Distinct(list)
      invariant |list| + |remaining| == |nodes|
      invariant forall i :: 0 <= i < |list| ==> list[i] in nodes && list[i] !in remaining
      invariant forall a :: a in nodes ==> a in remaining || a in list
      decreases |remaining|
    {
      var a :| a in remaining;
      list := list + [a];
      remaining := remaining - {a};
    }
  }

  /** `{node: i for i, node in enumerate(nodes_list)}` */
  method IndexNodes(list: seq<string>) returns (indices: map<string, nat>)
    requires Distinct(list)
    ensures forall a :: a in indices <==> a in list
    ensures forall i :: 0 <= i < |list| ==> list[i] in indices && indices[list[i]] == i
    ensures forall a :: a in indices ==> indices[a] < |list| && list[indices[a]] == a
  {
    indices := map[];
    var i := 0;
    while i < |list|
      invariant 0 <= i <= |list|
      invariant forall a :: a in indices <==> a in list[..i]
      invariant forall k :: 0 <= k < i ==> list[k] in indices && indices[list[k]] == k
      invariant forall a :: a in indices ==> indices[a] < i && list[indices[a]] == a
    {
      indices := indices[list[i] := i];
      i := i + 1;
    }
    assert list[..i] == list;
  }

  /** One line per row, in row order, between the grid points of the row's two activities. */
  predicate LinesPlaced(edges: seq<Edge>, nodes: seq<string>, lines: seq<Line>) {
    && |lines| == |edges|
    && (forall k :: 0 <= k < |edges| ==> lines[k].frequency == edges[k].frequency)
    && (forall k, i :: 0 <= k < |edges| && 0 <= i < |nodes| && nodes[i] == edges[k].from ==>
          lines[k].from == GridPosition(i))
    && (forall k, i :: 0 <= k < |edges| && 0 <= i < |nodes| && nodes[i] == edges[k].to ==>
          lines[k].to == GridPosition(i))
  }

  /** One marker per activity, at the grid point of its index and labelled with its name. */
  predicate MarkersPlaced(nodes: seq<string>, markers: seq<Marker>) {
    && |markers| == |nodes|
    && (forall i :: 0 <= i < |markers| ==> markers[i] == Marker(nodes[i], GridPosition(i)))
  }

  /** Draws the line of every row, looking up both activities' indices. */
  method DrawLines(edges: seq<Edge>, nodes: seq<string>, indices: map<string, nat>)
    returns (lines: seq<Line>)
    requires forall k :: 0 <= k < |edges| ==> edges[k].from in indices && edges[k].to in indices
    requires forall a :: a in indices ==> indices[a] < |nodes| && nodes[indices[a]] == a
    requires Distinct(nodes)
    ensures LinesPlaced(edges, nodes, lines)
  {
    lines := [];
    var k := 0;
    while k < |edges|
      invariant 0 <= k <= |edges|
      invariant LinesPlaced(edges[..k], nodes, lines)
    {
      var fromIdx := indices[edges[k].from];
      var toIdx := indices[edges[k].to];
      lines := lines + [Line(GridPosition(fromIdx), GridPosition(toIdx), edges[k].frequency)];
      k := k + 1;
    }
    assert edges[..k] == edges;
  }

  /** Draws the marker of every activity; no two share a grid point. */
  method DrawMarkers(nodes: seq<string>) returns (markers: seq<Marker>)
    ensures MarkersPlaced(nodes, markers)
    ensures forall i, j :: 0 <= i < j < |markers| ==> markers[i].at != markers[j].at
  {
    markers := [];
    var i := 0;
    while i < |nodes|
      invariant 0 <= i <= |nodes|
      invariant MarkersPlaced(nodes[..i], markers)
    {
      markers := markers + [Marker(nodes[i], GridPosition(i))];
      i := i + 1;
    }
    assert nodes[..i] == nodes;
    forall m, n | 0 <= m < n < |markers|
      ensures markers[m].at != markers[n].at
    {
      GridPositionInjective(m, n);
    }
  }

  /**
   * The DFG panel: nothing to draw for an empty result; otherwise every activity
   * once, each at the grid point of its index, and one line per row from the
   * grid point of its source to that of its target. No two markers share a point.
   */
  method BuildDiagram(edges: seq<Edge>) returns (r: Option<Diagram>)
    ensures r.None? <==> edges == []
    ensures r.Some? ==>
      && Distinct(r.value.nodes)
      && (forall i :: 0 <= i < |r.value.nodes| ==> r.value.nodes[i] in Endpoints(edges))
      && (forall a :: a in Endpoints(edges) ==> a in r.value.nodes)
      && MarkersPlaced(r.value.nodes, r.value.markers)
      && (forall i, j :: 0 <= i < j < |r.value.markers| ==> r.value.markers[i].at != r.value.markers[j].at)
      && LinesPlaced(edges, r.value.nodes, r.value.lines)
  {
    if edges == [] {
      return None;
    }
    var nodes := CollectNodes(edges);
    var nodesList := ListNodes(nodes);
    var nodeIndices := IndexNodes(nodesList);
    var lines := DrawLines(edges, nodesList, nodeIndices);
    var markers := DrawMarkers(nodesList);
    r := Some(Diagram(nodesList, lines, markers));
  }
}
