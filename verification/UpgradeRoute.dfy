/**
 The upgrade-route search as pkg/helper/upgrade.go runs it: a heap graph with shared nodes and
 childless placeholders, a work list, a visited set of objects, and a path rebuilt through
 mutable precursor pointers. Everything here is proved against module UpgradeGraph.
 */
module UpgradeRoute {
  import opened Common
  import opened UpgradeGraph

  class VersionDep {
    const version: string
    const canBeUpgradedTo: seq<string>
    const requireFromBinary: bool
    var next: seq<VersionDep>
    var precursor: VersionDep?

    constructor (e: VersionEntry)
      ensures Copy() == e && next == [] && precursor == null
    {
      version, canBeUpgradedTo, requireFromBinary := e.version, e.canBeUpgradedTo, e.requireFromBinary;
      next, precursor := [], null;
    }

    function Copy(): VersionEntry {
      VersionEntry(version, canBeUpgradedTo, requireFromBinary)
    }
  }

  type NodeMap = map<string, VersionDep>

  function NodeVersions(nodes: seq<VersionDep>): (r: seq<string>)
    ensures |r| == |nodes| && forall i :: 0 <= i < |nodes| ==> r[i] == nodes[i].version
  {
    seq(|nodes|, i requires 0 <= i < |nodes| => nodes[i].version)
  }

  /** The node the map holds for its version; any other node of the graph is a placeholder. */
  predicate Real(nodeMap: NodeMap, n: VersionDep) {
    n.version in nodeMap && nodeMap[n.version] == n
  }

  /** The neighbours of a finished node: its listed versions in order, then only repetitions of them. */
  ghost predicate Complete(n: VersionDep)
    reads n`next
  {
    && n.canBeUpgradedTo <= NodeVersions(n.next)
    && forall i :: 0 <= i < |n.next| ==> n.next[i].version in n.canBeUpgradedTo
  }

  /** Nodes that share a version are one object, or childless placeholders of a version without entry. */
  ghost predicate NodeKept(nodeMap: NodeMap, nodes: set<VersionDep>, n: VersionDep)
    reads n`next
  {
    && (forall i :: 0 <= i < |n.next| ==> n.next[i] in nodes)
    && (Real(nodeMap, n) || (n.version !in nodeMap && n.next == []))
  }

  ghost predicate MapMatches(g: Graph, nodeMap: NodeMap, nodes: set<VersionDep>) {
    && nodeMap.Keys == g.Keys
    && forall v :: v in nodeMap ==> nodeMap[v] in nodes && nodeMap[v].Copy() == g[v] && g[v].version == v
  }

  ghost predicate Built(g: Graph, nodeMap: NodeMap, nodes: set<VersionDep>)
    reads nodes`next
  {
    && MapMatches(g, nodeMap, nodes)
    && (forall n :: n in nodes ==> NodeKept(nodeMap, nodes, n))
    && (forall v :: v in nodeMap ==> Complete(nodeMap[v]))
  }

  // ---------------------------------------------------------------- building the graph

  method BuildNeighbours(nodeMap: NodeMap, current: VersionDep, neighbours: seq<string>, ghost nodes: set<VersionDep>)
    returns (ghost nodes': set<VersionDep>)
    requires current in nodes && Real(nodeMap, current)
    requires forall v :: v in nodeMap ==> nodeMap[v] in nodes && nodeMap[v].version == v
    requires forall n :: n in nodes ==> NodeKept(nodeMap, nodes, n)
    modifies current`next
    ensures nodes <= nodes' && fresh(nodes' - nodes)
    ensures NodeVersions(current.next) == old(NodeVersions(current.next)) + neighbours
    ensures forall n :: n in nodes' ==> NodeKept(nodeMap, nodes', n)
  {
    nodes' := nodes;
    for i := 0 to |neighbours|
      invariant nodes <= nodes' && fresh(nodes' - nodes)
      invariant NodeVersions(current.next) == old(NodeVersions(current.next)) + neighbours[..i]
      invariant forall n :: n in nodes' ==> NodeKept(nodeMap, nodes', n)
    {
      var k := neighbours[i];
      var node: VersionDep;
      if k !in nodeMap {
        node := new VersionDep(VersionEntry(k, [], false));
        nodes' := nodes' + {node};
      } else {
        node := nodeMap[k];
      }
      current.next := current.next + [node];
      assert neighbours[..i + 1] == neighbours[..i] + [k];
    }
    assert neighbours[..|neighbours|] == neighbours;
  }

  method BuildNodes(list: seq<VersionEntry>) returns (nodeMap: NodeMap)
    ensures MapMatches(GraphOf(list), nodeMap, nodeMap.Values)
    ensures forall v :: v in nodeMap ==> fresh(nodeMap[v]) && nodeMap[v].next == []
  {
    nodeMap := map[];
    for i := 0 to |list|
      invariant MapMatches(GraphOf(list[..i]), nodeMap, nodeMap.Values)
      invariant forall v :: v in nodeMap ==> fresh(nodeMap[v]) && nodeMap[v].next == []
    {
      var node := new VersionDep(list[i]);
      assert list[..i + 1] == list[..i] + [list[i]];
      EntryMatches(list[..i], nodeMap, node);
      nodeMap := nodeMap[node.version := node];
    }
    assert list[..|list|] == list;
  }

  lemma {:induction false} EntryMatches(list: seq<VersionEntry>, nodeMap: NodeMap, node: VersionDep)
    requires MapMatches(GraphOf(list), nodeMap, nodeMap.Values)
    ensures var nodeMap' := nodeMap[node.version := node];
      MapMatches(GraphOf(list + [node.Copy()]), nodeMap', nodeMap'.Values)
  {
    GraphAppend(list, node.Copy());
    var nodeMap' := nodeMap[node.version := node];
    forall v | v in nodeMap' ensures nodeMap'[v] in nodeMap'.Values {
    }
  }

  /** Appending the listed versions once more keeps a node complete. */
  lemma {:induction false} AppendCompletes(before: seq<string>, listed: seq<string>)
    requires before == [] || (listed <= before && forall x :: x in before ==> x in listed)
    ensures listed <= before + listed && forall x :: x in before + listed ==> x in listed
  {
  }

  /** Both rounds over the neighbours of one node. */
  method BuildNode(
    nodeMap: NodeMap, node: VersionDep, ghost nodes: set<VersionDep>) returns (ghost nodes': set<VersionDep>)
    requires node in nodes && Real(nodeMap, node) && (node.next == [] || Complete(node))
    requires forall v :: v in nodeMap ==> nodeMap[v] in nodes && nodeMap[v].version == v
    requires forall n :: n in nodes ==> NodeKept(nodeMap, nodes, n)
    modifies node`next
    ensures nodes <= nodes' && fresh(nodes' - nodes) && Complete(node)
    ensures forall n :: n in nodes' ==> NodeKept(nodeMap, nodes', n)
  {
    ghost var before := NodeVersions(node.next);
    AppendCompletes(before, node.canBeUpgradedTo);
    AppendCompletes(before + node.canBeUpgradedTo, node.canBeUpgradedTo);
    nodes' := BuildNeighbours(nodeMap, node, node.canBeUpgradedTo, nodes);
    nodes' := BuildNeighbours(nodeMap, node, node.canBeUpgradedTo, nodes');
    CompleteByVersions(node);
  }

  ghost predicate Progress(nodeMap: NodeMap, nodes: set<VersionDep>, done: set<string>)
    reads nodes`next
  {
    && (forall v :: v in nodeMap ==> nodeMap[v] in nodes && nodeMap[v].version == v)
    && (forall n :: n in nodes ==> NodeKept(nodeMap, nodes, n))
    && (forall v :: v in nodeMap ==> if v in done then Complete(nodeMap[v]) else nodeMap[v].next == [])
  }

  method BuildEntry(nodeMap: NodeMap, node: VersionDep, ghost nodes: set<VersionDep>, ghost done: set<string>)
    returns (ghost nodes': set<VersionDep>)
    requires Progress(nodeMap, nodes, done) && Real(nodeMap, node)
    modifies node`next
    ensures nodes <= nodes' && fresh(nodes' - nodes) && Progress(nodeMap, nodes', done + {node.version})
  {
    nodes' := BuildNode(nodeMap, node, nodes);
  }

  method Build(list: seq<VersionEntry>) returns (nodeMap: NodeMap, ghost nodes: set<VersionDep>)
    ensures Built(GraphOf(list), nodeMap, nodes) && fresh(nodes)
  {
    nodeMap := BuildNodes(list);
    NothingDone(GraphOf(list), nodeMap, nodeMap.Values);
    ghost var done: set<string>;
    nodes, done := LinkNodes(list, nodeMap, nodeMap.Values);
    AllDone(list, nodeMap, nodes, done);
  }

  /** The second loop of `Build`, over the entries in order. */
  method LinkNodes(list: seq<VersionEntry>, nodeMap: NodeMap, ghost nodes: set<VersionDep>)
    returns (ghost nodes': set<VersionDep>, ghost done: set<string>)
    requires Progress(nodeMap, nodes, {}) && forall j :: 0 <= j < |list| ==> list[j].version in nodeMap
    modifies nodes`next
    ensures nodes <= nodes' && fresh(nodes' - nodes) && Progress(nodeMap, nodes', done)
    ensures forall j :: 0 <= j < |list| ==> list[j].version in done
  {
    nodes', done := nodes, {};
    for i := 0 to |list|
      invariant nodes <= nodes' && fresh(nodes' - nodes) && Progress(nodeMap, nodes', done)
      invariant forall j :: 0 <= j < i ==> list[j].version in done
    {
      nodes' := BuildEntry(nodeMap, nodeMap[list[i].version], nodes', done);
      done := done + {list[i].version};
    }
  }

  lemma {:induction false} NothingDone(g: Graph, nodeMap: NodeMap, nodes: set<VersionDep>)
    requires MapMatches(g, nodeMap, nodes) && nodes == nodeMap.Values
    requires forall v :: v in nodeMap ==> nodeMap[v].next == []
    ensures Progress(nodeMap, nodes, {})
  {
    forall n | n in nodes ensures NodeKept(nodeMap, nodes, n) {
      var v :| v in nodeMap && nodeMap[v] == n;
    }
  }

  lemma {:induction false} AllDone(list: seq<VersionEntry>, nodeMap: NodeMap, nodes: set<VersionDep>, done: set<string>)
    requires MapMatches(GraphOf(list), nodeMap, nodeMap.Values) && nodeMap.Values <= nodes
      && Progress(nodeMap, nodes, done)
    requires forall j :: 0 <= j < |list| ==> list[j].version in done
    ensures Built(GraphOf(list), nodeMap, nodes)
  {
    forall v | v in nodeMap ensures Complete(nodeMap[v]) {
      assert GraphOf(list)[v] in list;
    }
  }

  lemma {:induction false} CompleteByVersions(n: VersionDep)
    requires n.canBeUpgradedTo <= NodeVersions(n.next)
    requires forall x :: x in NodeVersions(n.next) ==> x in n.canBeUpgradedTo
    ensures Complete(n)
  {
    forall i | 0 <= i < |n.next| ensures n.next[i].version in n.canBeUpgradedTo {
      assert NodeVersions(n.next)[i] in NodeVersions(n.next);
    }
  }

  // ---------------------------------------------------------------- searching

  /** The work list without its placeholders. */
  function Reals(nodeMap: NodeMap, queue: seq<VersionDep>): seq<string> {
    if queue == [] then []
    else
      var last := queue[|queue| - 1];
      Reals(nodeMap, queue[..|queue| - 1]) + (if Real(nodeMap, last) then [last.version] else [])
  }

  /** The work list and the visited set stand for the frontier `s`. */
  ghost predicate Agrees(
    nodeMap: NodeMap, nodes: set<VersionDep>, queue: seq<VersionDep>, visited: set<VersionDep>, s: Frontier) {
    && Reals(nodeMap, queue) == s.stack
    && visited <= nodes
    && (forall i :: 0 <= i < |queue| ==> queue[i] in visited)
    && (forall n :: n in nodes && Real(nodeMap, n) ==> (n in visited <==> n.version in s.paths))
  }

  /** The precursor pointer of a version stands for the rest of its path. */
  ghost predicate PrecursorAt(nodeMap: NodeMap, s: Frontier, v: string)
    requires v in s.paths && v in nodeMap
    reads nodeMap[v]
  {
    var p := s.paths[v];
    && p != [] && p[|p| - 1] == v
    && if |p| == 1 then nodeMap[v].precursor == null
       else
         var u := p[|p| - 2];
         u in s.paths && u in nodeMap && u != v && s.paths[u] == p[..|p| - 1] && nodeMap[v].precursor == nodeMap[u]
  }

  ghost predicate PrecursorsMatch(nodeMap: NodeMap, nodes: set<VersionDep>, s: Frontier)
    reads nodes
  {
    forall v :: v in s.paths ==> v in nodeMap && nodeMap[v] in nodes && PrecursorAt(nodeMap, s, v)
  }

  /** Visiting a new neighbour: a real one is pushed on both sides, a placeholder on the heap side only. */
  lemma {:induction false} VisitAgrees(g: Graph, nodeMap: NodeMap, nodes: set<VersionDep>, from: string, v: VersionDep,
                                       queue: seq<VersionDep>, visited: set<VersionDep>, s: Frontier)
    requires nodeMap.Keys == g.Keys && v in nodes && (Real(nodeMap, v) || v.version !in nodeMap) && from in s.paths
    requires Agrees(nodeMap, nodes, queue, visited, s)
    ensures var s' := Push(g, from, [v.version], s);
      if v in visited then s' == s
      else
        && Agrees(nodeMap, nodes, queue + [v], visited + {v}, s')
        && s' == if Real(nodeMap, v)
          then Frontier(s.stack + [v.version], s.paths[v.version := s.paths[from] + [v.version]]) else s
  {
    assert [v.version][1..] == [];
    assert (queue + [v])[..|queue|] == queue;
  }

  lemma {:induction false} PointedPrecursorsMatch(
    nodeMap: NodeMap, nodes: set<VersionDep>, s: Frontier, from: string, u: string)
    requires PrecursorsMatch(nodeMap, nodes, s) && from in s.paths && u !in s.paths
    requires u in nodeMap && nodeMap[u] in nodes && nodeMap[u].precursor == nodeMap[from]
    ensures PrecursorsMatch(nodeMap, nodes, Frontier(s.stack + [u], s.paths[u := s.paths[from] + [u]]))
  {
    var s' := Frontier(s.stack + [u], s.paths[u := s.paths[from] + [u]]);
    assert PrecursorAt(nodeMap, s, from);
    assert s'.paths[u][..|s'.paths[u]| - 1] == s.paths[from];
    assert PrecursorAt(nodeMap, s', u);
    forall w | w in s'.paths ensures w in nodeMap && nodeMap[w] in nodes && PrecursorAt(nodeMap, s', w) {
      if w != u {
        PrecursorStays(nodeMap, s, s', w);
      }
    }
  }

  lemma {:induction false} PrecursorStays(nodeMap: NodeMap, s: Frontier, s': Frontier, v: string)
    requires v in s.paths && v in nodeMap && PrecursorAt(nodeMap, s, v)
    requires forall w :: w in s.paths ==> w in s'.paths && s'.paths[w] == s.paths[w]
    ensures PrecursorAt(nodeMap, s', v)
  {
  }

  /** Redirecting an unvisited node disturbs no recorded path. */
  method Point(nodeMap: NodeMap, v: VersionDep, node: VersionDep, ghost nodes: set<VersionDep>, ghost s: Frontier)
    requires PrecursorsMatch(nodeMap, nodes, s) && forall w :: w in s.paths ==> nodeMap[w] != v
    modifies v`precursor
    ensures v.precursor == node && PrecursorsMatch(nodeMap, nodes, s)
  {
    v.precursor := node;
    forall w | w in s.paths ensures w in nodeMap && nodeMap[w] in nodes && PrecursorAt(nodeMap, s, w) {
      assert old(PrecursorAt(nodeMap, s, w));
    }
  }

  /** One neighbour of an expanded node. */
  method Visit(
    ghost g: Graph, nodeMap: NodeMap, node: VersionDep, v: VersionDep, queue: seq<VersionDep>, visited: set<VersionDep>,
    ghost nodes: set<VersionDep>, ghost s: Frontier)
    returns (queue': seq<VersionDep>, visited': set<VersionDep>)
    requires nodeMap.Keys == g.Keys && v in nodes && (Real(nodeMap, v) || v.version !in nodeMap)
    requires Real(nodeMap, node) && node.version in s.paths && forall w :: w in nodeMap ==> nodeMap[w].version == w
    requires Agrees(nodeMap, nodes, queue, visited, s) && PrecursorsMatch(nodeMap, nodes, s)
    modifies v`precursor
    ensures var s' := Push(g, node.version, [v.version], s);
      Agrees(nodeMap, nodes, queue', visited', s') && PrecursorsMatch(nodeMap, nodes, s')
    ensures |nodes - visited'| + |queue'| == |nodes - visited| + |queue|
  {
    VisitAgrees(g, nodeMap, nodes, node.version, v, queue, visited, s);
    if v in visited {
      return queue, visited;
    }
    Unvisited(nodeMap, nodes, v, queue, visited, s);
    Point(nodeMap, v, node, nodes, s);
    queue' := queue + [v];
    visited' := visited + {v};
    OneFewerUnvisited(nodes, visited, v);
    if Real(nodeMap, v) {
      PointedPrecursorsMatch(nodeMap, nodes, s, node.version, v.version);
    }
  }

  lemma {:induction false} OneFewerUnvisited(nodes: set<VersionDep>, visited: set<VersionDep>, v: VersionDep)
    requires v in nodes && v !in visited
    ensures |nodes - (visited + {v})| + 1 == |nodes - visited|
  {
    assert nodes - visited == (nodes - (visited + {v})) + {v};
  }

  lemma {:induction false} Unvisited(nodeMap: NodeMap, nodes: set<VersionDep>, v: VersionDep,
                                     queue: seq<VersionDep>, visited: set<VersionDep>, s: Frontier)
    requires Agrees(nodeMap, nodes, queue, visited, s) && v in nodes && v !in visited
    requires Real(nodeMap, v) || v.version !in nodeMap
    requires PrecursorsMatch(nodeMap, nodes, s) && forall w :: w in nodeMap ==> nodeMap[w].version == w
    ensures forall w :: w in s.paths ==> nodeMap[w] != v
  {
  }

  method VisitAll(ghost g: Graph, nodeMap: NodeMap, node: VersionDep, next: seq<VersionDep>, queue: seq<VersionDep>,
                  visited: set<VersionDep>, ghost nodes: set<VersionDep>, ghost s: Frontier)
    returns (queue': seq<VersionDep>, visited': set<VersionDep>)
    requires nodeMap.Keys == g.Keys && forall w :: w in nodeMap ==> nodeMap[w].version == w
    requires forall i :: 0 <= i < |next| ==> next[i] in nodes && (Real(nodeMap, next[i]) || next[i].version !in nodeMap)
    requires Real(nodeMap, node) && node.version in s.paths
    requires Agrees(nodeMap, nodes, queue, visited, s) && PrecursorsMatch(nodeMap, nodes, s)
    modifies nodes`precursor
    ensures var s' := Push(g, node.version, NodeVersions(next), s);
      Agrees(nodeMap, nodes, queue', visited', s') && PrecursorsMatch(nodeMap, nodes, s')
    ensures |nodes - visited'| + |queue'| == |nodes - visited| + |queue|
  {
    queue', visited' := queue, visited;
    ghost var all, t := NodeVersions(next), s;
    for k := 0 to |next|
      invariant node.version in t.paths && t == Push(g, node.version, all[..k], s)
      invariant Agrees(nodeMap, nodes, queue', visited', t) && PrecursorsMatch(nodeMap, nodes, t)
      invariant |nodes - visited'| + |queue'| == |nodes - visited| + |queue|
    {
      queue', visited' := Visit(g, nodeMap, node, next[k], queue', visited', nodes, t);
      PushStep(g, node.version, all, k, s);
      t := Push(g, node.version, [next[k].version], t);
    }
    assert all[..|next|] == all;
  }

  /** Pushes the unvisited neighbours of a real node. */
  method Expand(ghost g: Graph, nodeMap: NodeMap, node: VersionDep, queue: seq<VersionDep>, visited: set<VersionDep>,
                ghost nodes: set<VersionDep>, ghost s: Frontier)
    returns (queue': seq<VersionDep>, visited': set<VersionDep>)
    requires Built(g, nodeMap, nodes) && Real(nodeMap, node) && node.version in s.paths
    requires Agrees(nodeMap, nodes, queue, visited, s) && PrecursorsMatch(nodeMap, nodes, s)
    modifies nodes`precursor
    ensures var s' := Push(g, node.version, node.canBeUpgradedTo, s);
      Agrees(nodeMap, nodes, queue', visited', s') && PrecursorsMatch(nodeMap, nodes, s')
    ensures |nodes - visited'| + |queue'| == |nodes - visited| + |queue|
  {
    NeighboursKept(g, nodeMap, nodes, node);
    PushIgnoresRepetition(g, node.version, node.canBeUpgradedTo, NodeVersions(node.next), s);
    queue', visited' := VisitAll(g, nodeMap, node, node.next, queue, visited, nodes, s);
  }

  lemma {:induction false} NeighboursKept(g: Graph, nodeMap: NodeMap, nodes: set<VersionDep>, node: VersionDep)
    requires Built(g, nodeMap, nodes) && Real(nodeMap, node)
    ensures forall w :: w in nodeMap ==> nodeMap[w].version == w
    ensures forall i :: 0 <= i < |node.next| ==>
      node.next[i] in nodes && (Real(nodeMap, node.next[i]) || node.next[i].version !in nodeMap)
    ensures node.canBeUpgradedTo <= NodeVersions(node.next) && forall u :: u in NodeVersions(node.next) ==>
      u in node.canBeUpgradedTo
  {
    assert NodeKept(nodeMap, nodes, node) && Complete(nodeMap[node.version]);
    forall i | 0 <= i < |node.next| ensures node.next[i] in nodes && (Real(nodeMap, node.next[i])
      || node.next[i].version !in nodeMap) {
      assert NodeKept(nodeMap, nodes, node.next[i]);
    }
  }

  /** Taking the last node off the work list. */
  lemma {:induction false} PopAgrees(
    nodeMap: NodeMap, nodes: set<VersionDep>, queue: seq<VersionDep>, visited: set<VersionDep>, s: Frontier)
    requires Agrees(nodeMap, nodes, queue, visited, s) && queue != []
    ensures var node, rest := queue[|queue| - 1], queue[..|queue| - 1];
      if Real(nodeMap, node) then
        && node.version in s.paths && s.stack != [] && Pop(s).0 == node.version
        && Agrees(nodeMap, nodes, rest, visited, Pop(s).1)
      else Agrees(nodeMap, nodes, rest, visited, s)
  {
    var node, rest := queue[|queue| - 1], queue[..|queue| - 1];
    if Real(nodeMap, node) {
      assert s.stack == Reals(nodeMap, rest) + [node.version];
      assert s.stack[..|s.stack| - 1] == Reals(nodeMap, rest);
    }
  }

  lemma {:induction false} SearchGoesOn(g: Graph, target: string, s: Frontier)
    requires Proper(g, s) && s.stack != [] && Pop(s).0 != target
    ensures var (v, rest) := Pop(s);
      var s' := Push(g, v, g[v].canBeUpgradedTo, rest);
      Proper(g, s') && Search(g, target, s') == Search(g, target, s)
  {
    PushKeepsWork(g, Pop(s).0, g[Pop(s).0].canBeUpgradedTo, Pop(s).1);
  }

  lemma {:induction false} SamePaths(nodeMap: NodeMap, nodes: set<VersionDep>, s: Frontier, s': Frontier)
    requires PrecursorsMatch(nodeMap, nodes, s) && s'.paths == s.paths
    ensures PrecursorsMatch(nodeMap, nodes, s')
  {
    forall w | w in s'.paths ensures w in nodeMap && nodeMap[w] in nodes && PrecursorAt(nodeMap, s', w) {
      assert PrecursorAt(nodeMap, s, w);
    }
  }

  /** One turn of the search loop on a node that is not the target. */
  method Turn(ghost g: Graph, nodeMap: NodeMap, target: string, queue: seq<VersionDep>, visited: set<VersionDep>,
              ghost nodes: set<VersionDep>, ghost s: Frontier)
    returns (queue': seq<VersionDep>, visited': set<VersionDep>, ghost s': Frontier)
    requires Built(g, nodeMap, nodes) && Proper(g, s)
    requires queue != [] && queue[|queue| - 1].version != target
    requires Agrees(nodeMap, nodes, queue, visited, s) && PrecursorsMatch(nodeMap, nodes, s)
    modifies nodes`precursor
    ensures Agrees(nodeMap, nodes, queue', visited', s') && PrecursorsMatch(nodeMap, nodes, s')
    ensures Proper(g, s') && Search(g, target, s') == Search(g, target, s)
    ensures |nodes - visited'| + |queue'| < |nodes - visited| + |queue|
  {
    var node, rest := queue[|queue| - 1], queue[..|queue| - 1];
    PopAgrees(nodeMap, nodes, queue, visited, s);
    assert NodeKept(nodeMap, nodes, node);
    if node.version in nodeMap {
      SearchGoesOn(g, target, s);
      SamePaths(nodeMap, nodes, s, Pop(s).1);
      s' := Push(g, node.version, g[node.version].canBeUpgradedTo, Pop(s).1);
      assert nodeMap[node.version].Copy() == g[node.version];
      queue', visited' := Expand(g, nodeMap, node, rest, visited, nodes, Pop(s).1);
    } else {
      queue', visited', s' := rest, visited, s;
    }
  }

  /** At the target the source looks for unvisited neighbours of the same version: there are none. */
  method HasOtherTarget(
    node: VersionDep, target: string, visited: set<VersionDep>, ghost nodeMap: NodeMap, ghost nodes: set<VersionDep>)
    returns (flag: bool)
    requires node in visited && Real(nodeMap, node) && node.version == target && NodeKept(nodeMap, nodes, node)
    requires forall n :: n in nodes ==> Real(nodeMap, n) || n.version !in nodeMap
    ensures !flag
  {
    flag := false;
    for k := 0 to |node.next|
      invariant !flag
    {
      var v := node.next[k];
      if v !in visited && v.version == target {
        assert false;
      }
    }
  }

  /** The search loop: the final node, with the frontier at which the search met it. */
  method SearchGraph(ghost g: Graph, nodeMap: NodeMap, start: VersionDep, target: string, ghost nodes: set<VersionDep>)
    returns (finalNode: VersionDep?, ghost s: Frontier)
    requires Built(g, nodeMap, nodes) && start in nodes && Real(nodeMap, start) && target in nodeMap
      && start.precursor == null
    modifies nodes`precursor
    ensures Proper(g, First(start.version)) && PrecursorsMatch(nodeMap, nodes, s)
    ensures finalNode == null <==> Search(g, target, First(start.version)).None?
    ensures finalNode != null ==>
      && finalNode in nodes && Real(nodeMap, finalNode) && finalNode.version in s.paths
      && Search(g, target, First(start.version)) == Some(s.paths[finalNode.version])
  {
    var queue, visited := [start], {start};
    s := First(start.version);
    finalNode := null;
    FirstIsGood(g, start.version, target);
    FirstAgrees(g, nodeMap, nodes, start);
    while queue != [] && finalNode == null
      invariant Agrees(nodeMap, nodes, queue, visited, s) && PrecursorsMatch(nodeMap, nodes, s) && Proper(g, s)
      invariant finalNode == null ==> Search(g, target, s) == Search(g, target, First(start.version))
      invariant finalNode != null ==>
        && finalNode in nodes && Real(nodeMap, finalNode) && finalNode.version in s.paths
        && Search(g, target, First(start.version)) == Some(s.paths[finalNode.version])
      decreases finalNode == null, |nodes - visited| + |queue|
    {
      var node := queue[|queue| - 1];
      if node.version == target {
        TargetPopped(g, nodeMap, nodes, queue, visited, s, target);
        var flag := HasOtherTarget(node, target, visited, nodeMap, nodes);
        if !flag {
          finalNode := node;
        }
      } else {
        queue, visited, s := Turn(g, nodeMap, target, queue, visited, nodes, s);
      }
    }
  }

  lemma {:induction false} FirstAgrees(g: Graph, nodeMap: NodeMap, nodes: set<VersionDep>, start: VersionDep)
    requires Built(g, nodeMap, nodes) && start in nodes && Real(nodeMap, start) && start.precursor == null
    ensures Agrees(nodeMap, nodes, [start], {start}, First(start.version))
    ensures PrecursorsMatch(nodeMap, nodes, First(start.version))
  {
    assert [start][..0] == [];
    assert PrecursorAt(nodeMap, First(start.version), start.version);
  }

  lemma {:induction false} TargetPopped(g: Graph, nodeMap: NodeMap, nodes: set<VersionDep>, queue: seq<VersionDep>,
                                        visited: set<VersionDep>, s: Frontier, target: string)
    requires Built(g, nodeMap, nodes) && Proper(g, s) && Agrees(nodeMap, nodes, queue, visited, s)
    requires queue != [] && queue[|queue| - 1].version == target && target in nodeMap
    ensures var node := queue[|queue| - 1];
      && node in nodes && node in visited && Real(nodeMap, node) && NodeKept(nodeMap, nodes, node) && target in s.paths
      && Search(g, target, s) == Some(s.paths[target])
    ensures forall n :: n in nodes ==> Real(nodeMap, n) || n.version !in nodeMap
  {
    var node := queue[|queue| - 1];
    assert NodeKept(nodeMap, nodes, node);
    PopAgrees(nodeMap, nodes, queue, visited, s);
    forall n | n in nodes ensures Real(nodeMap, n) || n.version !in nodeMap {
      assert NodeKept(nodeMap, nodes, n);
    }
  }

  // ---------------------------------------------------------------- rebuilding the path

  /** Follows the precursors from the final node; terminates because each step shortens the path. */
  method Rebuild(
    ghost g: Graph, nodeMap: NodeMap, finalNode: VersionDep, ghost nodes: set<VersionDep>, ghost s: Frontier)
    returns (res: seq<VersionEntry>)
    requires MapMatches(g, nodeMap, nodes) && PrecursorsMatch(nodeMap, nodes, s)
    requires Real(nodeMap, finalNode) && finalNode.version in s.paths
    requires forall i :: 0 <= i < |s.paths[finalNode.version]| ==> s.paths[finalNode.version][i] in g
    ensures res == EntriesOf(g, s.paths[finalNode.version])
  {
    res := [];
    var p: VersionDep? := finalNode;
    ghost var path := s.paths[finalNode.version];
    ghost var k := |path|;
    assert PrecursorAt(nodeMap, s, finalNode.version);
    assert path[..k] == path;
    while p != null
      invariant 0 <= k <= |path| && Rebuilt(g, path, k, res)
      invariant OnPath(nodeMap, s, path, k, p)
      decreases k
    {
      PrecursorStep(nodeMap, nodes, s, path, k, p);
      assert nodeMap[path[k - 1]].Copy() == g[path[k - 1]];
      RebuiltStep(g, path, k, res);
      res := [p.Copy()] + res;
      var pre := p.precursor;
      if pre != null && pre.version != "" && p.version == pre.version {
        assert false; // here the source would loop for ever
      }
      p := pre;
      k := k - 1;
    }
  }

  /** The entries from the `k`-th version of the path on. */
  ghost predicate Rebuilt(g: Graph, path: seq<string>, k: nat, res: seq<VersionEntry>) {
    |path| == |res| + k && forall j :: k <= j < |path| ==> path[j] in g && res[j - k] == g[path[j]]
  }

  lemma {:induction false} RebuiltStep(g: Graph, path: seq<string>, k: nat, res: seq<VersionEntry>)
    requires Rebuilt(g, path, k, res) && 0 < k <= |path| && path[k - 1] in g
    ensures Rebuilt(g, path, k - 1, [g[path[k - 1]]] + res)
  {
  }

  /** The rebuilding stands at the `k`-th version of the path. */
  ghost predicate OnPath(nodeMap: NodeMap, s: Frontier, path: seq<string>, k: nat, p: VersionDep?)
    requires k <= |path|
  {
    if k == 0 then p == null
    else
      && path[k - 1] in s.paths && path[k - 1] in nodeMap
      && s.paths[path[k - 1]] == path[..k] && p == nodeMap[path[k - 1]]
  }

  lemma {:induction false} PrecursorStep(
    nodeMap: NodeMap, nodes: set<VersionDep>, s: Frontier, path: seq<string>, k: nat, p: VersionDep)
    requires PrecursorsMatch(nodeMap, nodes, s) && forall v :: v in nodeMap ==> nodeMap[v].version == v
    requires k <= |path| && OnPath(nodeMap, s, path, k, p)
    ensures 0 < k && OnPath(nodeMap, s, path, k - 1, p.precursor)
    ensures p.precursor != null ==> p.precursor.version != p.version
  {
    assert PrecursorAt(nodeMap, s, path[k - 1]);
    var rest := path[..k];
    assert |rest| == k && rest[..k - 1] == path[..k - 1];
    if k > 1 {
      assert rest[|rest| - 2] == path[k - 2];
    }
  }

  // ---------------------------------------------------------------- the whole operation

  method FindBetween(
    ghost g: Graph, nodeMap: NodeMap, startNode: VersionDep, targetVersion: string, ghost nodes: set<VersionDep>)
    returns (r: RouteResult)
    requires Built(g, nodeMap, nodes) && startNode in nodes && Real(nodeMap, startNode) && targetVersion in nodeMap
    requires startNode.precursor == null
    modifies nodes`precursor
    ensures r == RouteBetween(g, startNode.version, targetVersion)
  {
    ghost var s;
    var finalNode;
    finalNode, s := SearchGraph(g, nodeMap, startNode, targetVersion, nodes);
    if finalNode == null {
      return NoRoute;
    }
    FirstIsGood(g, startNode.version, targetVersion);
    SearchIsSound(g, startNode.version, targetVersion, First(startNode.version));
    var res := Rebuild(g, nodeMap, finalNode, nodes, s);
    if |res| == 1 {
      assert startNode.Copy() == g[startNode.version];
      res := [startNode.Copy()] + res;
    }
    return Found(res);
  }

  /** The route, from the graph that `Build` made of `list`. */
  method FindShortestUpgradePath(nodeMap: NodeMap, startVersionFull: string, targetVersionFull: string,
                                 ghost list: seq<VersionEntry>, ghost nodes: set<VersionDep>)
    returns (r: RouteResult)
    requires Built(GraphOf(list), nodeMap, nodes)
    modifies nodes`precursor
    ensures r == Route(list, startVersionFull, targetVersionFull)
  {
    var startVersion := ResolveIn(nodeMap, startVersionFull);
    if startVersion.None? {
      return StartNotFound;
    }
    var targetVersion := ResolveIn(nodeMap, targetVersionFull);
    if targetVersion.None? {
      return TargetNotFound;
    }
    forall k | k in nodeMap {
      nodeMap[k].precursor := null;
    }
    r := FindBetween(GraphOf(list), nodeMap, nodeMap[startVersion.value], targetVersion.value, nodes);
  }

  function ResolveIn(nodeMap: NodeMap, version: string): Option<string> {
    if version in nodeMap then Some(version)
    else if ShortVersion(version) in nodeMap then Some(ShortVersion(version))
    else None
  }

  /** From the parsed dependency list to the route. */
  method GetOBUpgradeRoute(
    list: seq<VersionEntry>, startVersion: string, targetVersion: string) returns (r: RouteResult)
    ensures r == Route(list, startVersion, targetVersion)
  {
    var nodeMap;
    ghost var nodes;
    nodeMap, nodes := Build(list);
    r := FindShortestUpgradePath(nodeMap, startVersion, targetVersion, list, nodes);
  }

  datatype Verdict = Accepted | RouteFailed(reason: RouteResult) | RequiresBinary(version: string)

  /** `validateUpgrade`: accepts exactly the upgrades whose route passes no version that requires its binary. */
  method ValidateUpgrade(list: seq<VersionEntry>, fromVersion: string, targetVersion: string) returns (v: Verdict)
    ensures var r := Route(list, fromVersion, targetVersion);
      && (v.RouteFailed? <==> !r.Found?)
      && (v.Accepted? <==> r.Found? && NeedsNoBinary(r.route))
      && (v.RequiresBinary? ==> StopsAt(r.route, v.version))
  {
    var r := GetOBUpgradeRoute(list, fromVersion, targetVersion);
    if !r.Found? {
      return RouteFailed(r);
    }
    v := ScanRoute(r.route);
  }

  /** The scan over the versions between both ends of the route. */
  method ScanRoute(route: seq<VersionEntry>) returns (v: Verdict)
    ensures !v.RouteFailed? && (v.Accepted? <==> NeedsNoBinary(route))
    ensures v.RequiresBinary? ==> StopsAt(route, v.version)
  {
    for idx := 0 to |route|
      invariant forall i :: 0 < i < idx && i < |route| - 1 ==> !route[i].requireFromBinary
    {
      if route[idx].requireFromBinary && idx != 0 && idx != |route| - 1 {
        return RequiresBinary(route[idx].version);
      }
    }
    return Accepted;
  }

  /** `version` is the first one between both ends that requires its binary. */
  predicate StopsAt(route: seq<VersionEntry>, version: string) {
    exists i :: 0 < i < |route| - 1 && route[i].requireFromBinary && route[i].version == version
                && forall j :: 0 < j < i ==> !route[j].requireFromBinary
  }
}
