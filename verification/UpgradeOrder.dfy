/**
 Which routes the depth-first search of pkg/helper/upgrade.go can answer: exactly those without a
 shortcut, one for some order of the `can_be_upgraded_to` lists. From this follow the exact conditions
 under which every order gives a shortest route, and under which every order gives an accepted upgrade.
 */
module UpgradeOrder {
  import opened Common
  import opened UpgradeGraph

  /** No version of the path can be upgraded to one that comes two or more places later. */
  predicate NoShortcut(g: Graph, p: seq<string>) {
    forall i, j :: 0 <= i && i + 1 < j < |p| ==> !Edge(g, p[i], p[j])
  }

  predicate NoRepetition(p: seq<string>) {
    forall i, j :: 0 <= i < j < |p| ==> p[i] != p[j]
  }

  /** A path from `a` to `b` over edges, without repetition and without shortcut. */
  predicate Tight(g: Graph, p: seq<string>, a: string, b: string) {
    Connects(g, p, a, b) && NoRepetition(p) && NoShortcut(g, p)
  }

  // ---------------------------------------------------------------- the search answers tight paths

  /** All successors with an entry have been seen. */
  ghost predicate Spent(g: Graph, s: Frontier, v: string) {
    forall u :: Edge(g, v, u) && u in g ==> u in s.paths
  }

  /** The recorded path of `v` has no shortcut, and all its versions but the last are spent. */
  ghost predicate PathTight(g: Graph, s: Frontier, v: string)
    requires v in s.paths
  {
    && s.paths[v] != [] && s.paths[v][|s.paths[v]| - 1] == v
    && NoShortcut(g, s.paths[v])
    && forall i :: 0 <= i < |s.paths[v]| - 1 ==> Spent(g, s, s.paths[v][i])
  }

  ghost predicate AllTight(g: Graph, s: Frontier) {
    forall v :: v in s.paths ==> PathTight(g, s, v)
  }

  /** What pushing adds: only successors with an entry, each found through `v`. */
  lemma {:induction false} PushAdds(g: Graph, v: string, successors: seq<string>, s: Frontier)
    requires v in s.paths
    ensures var r := Push(g, v, successors, s);
      forall u :: u in r.paths && u !in s.paths ==> u in successors && u in g && r.paths[u] == s.paths[v] + [u]
    decreases |successors|
  {
    if successors != [] {
      var u := successors[0];
      var s' := if u in g && u !in s.paths then Frontier(s.stack + [u], s.paths[u := s.paths[v] + [u]]) else s;
      PushAdds(g, v, successors[1..], s');
      assert successors == [u] + successors[1..];
    }
  }

  lemma {:induction false} ExtendKeepsNoShortcut(g: Graph, p: seq<string>, u: string)
    requires NoShortcut(g, p) && forall i :: 0 <= i < |p| - 1 ==> !Edge(g, p[i], u)
    ensures NoShortcut(g, p + [u])
  {
  }

  lemma {:induction false} PushedIsTight(g: Graph, v: string, s: Frontier, u: string)
    requires v in g && v in s.paths && PathTight(g, s, v)
    requires var r := Push(g, v, g[v].canBeUpgradedTo, s); u in r.paths && u !in s.paths
    ensures PathTight(g, Push(g, v, g[v].canBeUpgradedTo, s), u)
  {
    var r := Push(g, v, g[v].canBeUpgradedTo, s);
    PushAdds(g, v, g[v].canBeUpgradedTo, s);
    PushSees(g, v, g[v].canBeUpgradedTo, s);
    var p := s.paths[v];
    forall i | 0 <= i < |p| - 1 ensures !Edge(g, p[i], u) {
      assert Spent(g, s, p[i]);
    }
    ExtendKeepsNoShortcut(g, p, u);
    forall i | 0 <= i < |p| ensures Spent(g, r, p[i]) {
      if i < |p| - 1 {
        assert Spent(g, s, p[i]);
      }
    }
  }

  lemma {:induction false} PushKeepsTight(g: Graph, v: string, s: Frontier)
    requires v in g && v in s.paths && AllTight(g, s)
    ensures AllTight(g, Push(g, v, g[v].canBeUpgradedTo, s))
  {
    var r := Push(g, v, g[v].canBeUpgradedTo, s);
    forall u | u in r.paths ensures PathTight(g, r, u) {
      if u in s.paths {
        TightStays(g, s, r, u);
      } else {
        PushedIsTight(g, v, s, u);
      }
    }
  }

  lemma {:induction false} TightStays(g: Graph, s: Frontier, r: Frontier, v: string)
    requires v in s.paths && PathTight(g, s, v)
    requires forall u :: u in s.paths ==> u in r.paths && r.paths[u] == s.paths[u]
    ensures PathTight(g, r, v)
  {
    forall i | 0 <= i < |r.paths[v]| - 1 ensures Spent(g, r, r.paths[v][i]) {
      assert Spent(g, s, s.paths[v][i]);
    }
  }

  /** Successors are marked when they are pushed, so what `Search` finds has no shortcut. */
  lemma {:induction false} SearchIsTight(g: Graph, target: string, s: Frontier)
    requires Proper(g, s) && AllTight(g, s) && Search(g, target, s).Some?
    ensures NoShortcut(g, Search(g, target, s).value)
    decreases Work(g, s)
  {
    var (v, rest) := Pop(s);
    if v == target {
      assert PathTight(g, s, v);
    } else {
      PushKeepsWork(g, v, g[v].canBeUpgradedTo, rest);
      forall u | u in rest.paths ensures PathTight(g, rest, u) {
        TightStays(g, s, rest, u);
      }
      PushKeepsTight(g, v, rest);
      SearchIsTight(g, target, Push(g, v, g[v].canBeUpgradedTo, rest));
    }
  }

  /** The path of a found route, before one version is doubled. */
  ghost function PathOf(route: seq<VersionEntry>): (p: seq<string>) {
    var p := VersionsOf(route);
    if |p| == 2 && p[0] == p[1] then p[..1] else p
  }

  lemma {:induction false} RouteFromSearch(
    list: seq<VersionEntry>, startFull: string, targetFull: string, p: seq<string>)
    requires var g := GraphOf(list);
      var start, target := Resolve(g, startFull), Resolve(g, targetFull);
      && start.Some? && target.Some? && Proper(g, First(start.value))
      && Search(g, target.value, First(start.value)) == Some(p)
    ensures Route(list, startFull, targetFull).Found? && PathOf(Route(list, startFull, targetFull).route) == p
    ensures Connects(GraphOf(list), p, Resolve(GraphOf(list), startFull).value,
      Resolve(GraphOf(list), targetFull).value)
    ensures NoRepetition(p)
    ensures NeedsNoBinary(Route(list, startFull, targetFull).route) <==> CleanPath(GraphOf(list), p)
    ensures |Route(list, startFull, targetFull).route| == |Doubled(p)|
  {
    var g := GraphOf(list);
    var start, target := Resolve(g, startFull).value, Resolve(g, targetFull).value;
    FirstIsGood(g, start, target);
    SearchIsSound(g, start, target, First(start));
    var route := Route(list, startFull, targetFull).route;
    assert route == Doubled(EntriesOf(g, p));
    if |p| == 1 {
      assert VersionsOf(route) == [p[0], p[0]];
      assert [p[0], p[0]][..1] == p;
    } else {
      assert VersionsOf(route) == p;
      assert |p| == 2 ==> p[0] != p[1];
      forall i | 0 < i < |p| - 1 ensures p[i] in g && route[i] == g[p[i]] {
      }
    }
  }

  /** Every route that is found, over every list, is tight between the resolved versions. */
  lemma {:induction false} RouteIsTight(list: seq<VersionEntry>, startFull: string, targetFull: string)
    requires Route(list, startFull, targetFull).Found?
    ensures var g := GraphOf(list);
      && Resolve(g, startFull).Some? && Resolve(g, targetFull).Some?
      && var p := PathOf(Route(list, startFull, targetFull).route);
         && Tight(g, p, Resolve(g, startFull).value, Resolve(g, targetFull).value)
         && (NeedsNoBinary(Route(list, startFull, targetFull).route) <==> CleanPath(g, p))
         && |Route(list, startFull, targetFull).route| == |Doubled(p)|
  {
    var g := GraphOf(list);
    var start, target := Resolve(g, startFull).value, Resolve(g, targetFull).value;
    FirstIsGood(g, start, target);
    var p := Search(g, target, First(start)).value;
    RouteFromSearch(list, startFull, targetFull, p);
    assert PathTight(g, First(start), start);
    SearchIsTight(g, target, First(start));
  }

  // ---------------------------------------------------------------- what follows for single routes

  ghost predicate Shortest(g: Graph, p: seq<string>, a: string, b: string) {
    Connects(g, p, a, b) && forall q :: Connects(g, q, a, b) ==> |p| <= |q|
  }

  /** An upgrade that the list allows directly is always answered directly. */
  lemma {:induction false} DirectUpgradeIsTaken(list: seq<VersionEntry>, startFull: string, targetFull: string)
    requires var g := GraphOf(list);
      var start, target := Resolve(g, startFull), Resolve(g, targetFull);
      start.Some? && target.Some? && start != target && Edge(g, start.value, target.value)
    ensures Route(list, startFull, targetFull).Found?
    ensures VersionsOf(Route(list, startFull, targetFull).route) ==
      [Resolve(GraphOf(list), startFull).value, Resolve(GraphOf(list), targetFull).value]
  {
    var g := GraphOf(list);
    var start, target := Resolve(g, startFull).value, Resolve(g, targetFull).value;
    assert Connects(g, [start, target], start, target);
    RouteIsComplete(list, startFull, targetFull);
    RouteIsTight(list, startFull, targetFull);
    var p := PathOf(Route(list, startFull, targetFull).route);
    assert p[0] == start && p[|p| - 1] == target;
    assert |p| == 2;
  }

  /** Routes of at most three versions are shortest. */
  lemma {:induction false} ShortRoutesAreShortest(list: seq<VersionEntry>, startFull: string, targetFull: string)
    requires Route(list, startFull, targetFull).Found? && |Route(list, startFull, targetFull).route| <= 3
    ensures var g := GraphOf(list);
      && Resolve(g, startFull).Some? && Resolve(g, targetFull).Some?
      && Shortest(g, PathOf(Route(list, startFull, targetFull).route),
                  Resolve(g, startFull).value, Resolve(g, targetFull).value)
  {
    RouteIsTight(list, startFull, targetFull);
    var g := GraphOf(list);
    var start, target := Resolve(g, startFull).value, Resolve(g, targetFull).value;
    var p := PathOf(Route(list, startFull, targetFull).route);
    forall q | Connects(g, q, start, target) ensures |p| <= |q| {
      if |q| == 2 {
        assert Edge(g, q[0], q[0 + 1]);
      }
    }
  }

  // ---------------------------------------------------------------- reordering the lists

  /** The same entries with their upgrade targets in another order. */
  ghost predicate Reorders(list: seq<VersionEntry>, list': seq<VersionEntry>) {
    |list| == |list'| && forall i :: 0 <= i < |list| ==> ReordersEntry(list[i], list'[i])
  }

  predicate ReordersEntry(e: VersionEntry, e': VersionEntry) {
    && e'.version == e.version && e'.requireFromBinary == e.requireFromBinary
    && multiset(e'.canBeUpgradedTo) == multiset(e.canBeUpgradedTo)
  }

  ghost predicate GraphReorders(g: Graph, g': Graph) {
    g'.Keys == g.Keys && forall v :: v in g ==> ReordersEntry(g[v], g'[v])
  }

  lemma {:induction false} ReorderedGraph(list: seq<VersionEntry>, list': seq<VersionEntry>)
    requires Reorders(list, list')
    ensures GraphReorders(GraphOf(list), GraphOf(list'))
    decreases |list|
  {
    if list == [] {
      assert list' == [];
    } else {
      var init, init' := list[..|list| - 1], list'[..|list| - 1];
      var e, e' := list[|list| - 1], list'[|list| - 1];
      assert list == init + [e] && list' == init' + [e'];
      ReorderedGraph(init, init');
      ReorderedAppend(init, init', e, e');
    }
  }

  lemma {:induction false} ReorderedAppend(
    list: seq<VersionEntry>, list': seq<VersionEntry>, e: VersionEntry, e': VersionEntry)
    requires GraphReorders(GraphOf(list), GraphOf(list')) && ReordersEntry(e, e')
    ensures GraphReorders(GraphOf(list + [e]), GraphOf(list' + [e']))
  {
    GraphAppend(list, e);
    GraphAppend(list', e');
    ReorderedUpdate(GraphOf(list), GraphOf(list'), e, e');
  }

  lemma {:induction false} ReorderedUpdate(g: Graph, g': Graph, e: VersionEntry, e': VersionEntry)
    requires GraphReorders(g, g') && ReordersEntry(e, e')
    ensures GraphReorders(g[e.version := e], g'[e'.version := e'])
  {
  }

  lemma {:induction false} ReorderedEdges(list: seq<VersionEntry>, list': seq<VersionEntry>)
    requires Reorders(list, list')
    ensures GraphOf(list').Keys == GraphOf(list).Keys
    ensures forall a, b :: Edge(GraphOf(list), a, b) <==> Edge(GraphOf(list'), a, b)
    ensures forall v :: v in GraphOf(list) ==> GraphOf(list')[v].requireFromBinary == GraphOf(list)[v].requireFromBinary
  {
    ReorderedGraph(list, list');
    var g, g' := GraphOf(list), GraphOf(list');
    forall a, b ensures Edge(g, a, b) <==> Edge(g', a, b) {
      if a in g {
        assert ReordersEntry(g[a], g'[a]);
        assert b in g[a].canBeUpgradedTo <==> b in multiset(g[a].canBeUpgradedTo);
        assert b in g'[a].canBeUpgradedTo <==> b in multiset(g'[a].canBeUpgradedTo);
      }
    }
  }

  /** Resolution, paths and cleanness do not depend on the order. */
  lemma {:induction false} SameRelation(list: seq<VersionEntry>, list': seq<VersionEntry>)
    requires Reorders(list, list')
    ensures var g, g' := GraphOf(list), GraphOf(list');
      && (forall version :: Resolve(g', version) == Resolve(g, version))
      && (forall p, a, b :: Connects(g', p, a, b) <==> Connects(g, p, a, b))
      && (forall p, a, b :: Tight(g', p, a, b) <==> Tight(g, p, a, b))
      && (forall p :: CleanPath(g', p) <==> CleanPath(g, p))
  {
    ReorderedEdges(list, list');
    var g, g' := GraphOf(list), GraphOf(list');
    forall p, a, b ensures Connects(g', p, a, b) <==> Connects(g, p, a, b) {
      SameConnects(g, g', p, a, b);
    }
    forall p ensures NoShortcut(g', p) <==> NoShortcut(g, p) {
    }
  }

  lemma {:induction false} SameConnects(g: Graph, g': Graph, p: seq<string>, a: string, b: string)
    requires forall x, y :: Edge(g, x, y) <==> Edge(g', x, y)
    ensures Connects(g', p, a, b) <==> Connects(g, p, a, b)
  {
  }

  // ---------------------------------------------------------------- listing the path last

  function Others(successors: seq<string>, u: string): (r: seq<string>)
    ensures u !in r
  {
    if successors == [] then []
    else (if successors[0] == u then [] else [successors[0]]) + Others(successors[1..], u)
  }

  function Copies(successors: seq<string>, u: string): (r: seq<string>)
    ensures forall x :: x in r ==> x == u
  {
    if successors == [] then []
    else (if successors[0] == u then [u] else []) + Copies(successors[1..], u)
  }

  lemma {:induction false} OthersAndCopies(successors: seq<string>, u: string)
    ensures multiset(Others(successors, u) + Copies(successors, u)) == multiset(successors)
    ensures u in successors ==> Copies(successors, u) != []
    decreases |successors|
  {
    if successors != [] {
      OthersAndCopies(successors[1..], u);
      assert successors == [successors[0]] + successors[1..];
      assert multiset(Others(successors, u) + Copies(successors, u)) ==
             multiset([successors[0]]) + multiset(Others(successors[1..], u) + Copies(successors[1..], u));
    }
  }

  /** The version after `v` on the path. */
  function NextOn(p: seq<string>, v: string): Option<string> {
    if |p| < 2 then None else if p[0] == v then Some(p[1]) else NextOn(p[1..], v)
  }

  lemma {:induction false} NextOnPath(p: seq<string>, i: nat)
    requires NoRepetition(p) && i + 1 < |p|
    ensures NextOn(p, p[i]) == Some(p[i + 1])
    decreases |p|
  {
    if i > 0 {
      NextOnPath(p[1..], i - 1);
    }
  }

  /** The entry with its successor on the path moved to the end of its list. */
  function PathLast(p: seq<string>, e: VersionEntry): VersionEntry {
    var next := NextOn(p, e.version);
    if next.None? then e
    else e.(canBeUpgradedTo := Others(e.canBeUpgradedTo, next.value) + Copies(e.canBeUpgradedTo, next.value))
  }

  function PathLastAll(p: seq<string>, list: seq<VersionEntry>): (r: seq<VersionEntry>)
    ensures |r| == |list| && forall i :: 0 <= i < |list| ==> r[i] == PathLast(p, list[i])
  {
    seq(|list|, i requires 0 <= i < |list| => PathLast(p, list[i]))
  }

  lemma {:induction false} PathLastReorders(p: seq<string>, list: seq<VersionEntry>)
    ensures Reorders(list, PathLastAll(p, list))
  {
    forall i | 0 <= i < |list| ensures ReordersEntry(list[i], PathLastAll(p, list)[i]) {
      var next := NextOn(p, list[i].version);
      if next.Some? {
        OthersAndCopies(list[i].canBeUpgradedTo, next.value);
      }
    }
  }

  ghost predicate GraphPathLast(p: seq<string>, g: Graph, g': Graph) {
    g'.Keys == g.Keys && forall v :: v in g ==> g'[v] == PathLast(p, g[v])
  }

  lemma {:induction false} PathLastGraph(p: seq<string>, list: seq<VersionEntry>)
    ensures GraphPathLast(p, GraphOf(list), GraphOf(PathLastAll(p, list)))
    decreases |list|
  {
    if list != [] {
      var init, last := list[..|list| - 1], list[|list| - 1];
      assert list == init + [last];
      PathLastGraph(p, init);
      PathLastAppend(p, init, last);
    }
  }

  lemma {:induction false} PathLastAppend(p: seq<string>, list: seq<VersionEntry>, e: VersionEntry)
    requires GraphPathLast(p, GraphOf(list), GraphOf(PathLastAll(p, list)))
    ensures GraphPathLast(p, GraphOf(list + [e]), GraphOf(PathLastAll(p, list + [e])))
  {
    PathLastAllAppend(p, list, e);
    GraphAppend(list, e);
    GraphAppend(PathLastAll(p, list), PathLast(p, e));
    PathLastUpdate(p, GraphOf(list), GraphOf(PathLastAll(p, list)), e);
  }

  lemma {:induction false} PathLastAllAppend(p: seq<string>, list: seq<VersionEntry>, e: VersionEntry)
    ensures PathLastAll(p, list + [e]) == PathLastAll(p, list) + [PathLast(p, e)]
  {
  }

  lemma {:induction false} PathLastUpdate(p: seq<string>, g: Graph, g': Graph, e: VersionEntry)
    requires GraphPathLast(p, g, g')
    ensures GraphPathLast(p, g[e.version := e], g'[e.version := PathLast(p, e)])
  {
  }

  /** Pushing a list that ends in the copies of an unseen version leaves this version on top. */
  lemma {:induction false} PushedOnTop(
    g: Graph, v: string, others: seq<string>, copies: seq<string>, u: string, s: Frontier)
    requires v in s.paths && u in g && u !in s.paths && u !in others && copies != []
    requires forall x :: x in copies ==> x == u
    ensures var r := Push(g, v, others + copies, s);
      r.stack != [] && r.stack[|r.stack| - 1] == u && u in r.paths && r.paths[u] == s.paths[v] + [u]
  {
    var r1 := Push(g, v, others, s);
    PushAppend(g, v, others, copies, s);
    PushAdds(g, v, others, s);
    assert u !in r1.paths;
    assert copies[0] in copies && copies == [u] + copies[1..];
    var r2 := Frontier(r1.stack + [u], r1.paths[u := r1.paths[v] + [u]]);
    forall x | x in copies[1..] ensures x == u {
      assert x in copies;
    }
    PushRepeated(g, v, copies[1..], r2);
  }

  /** Seen while the search followed the path up to its `i`-th version. */
  predicate SeenBefore(g: Graph, p: seq<string>, i: nat, u: string)
    requires i <= |p| && p != []
  {
    u == p[0] || exists k :: 0 <= k < i && Edge(g, p[k], u)
  }

  /** Each version of the path lists the next one last, in one or more copies. */
  ghost predicate LastIsNext(g: Graph, p: seq<string>, i: nat)
    requires i + 1 < |p|
  {
    p[i] in g && exists others, copies ::
      && g[p[i]].canBeUpgradedTo == others + copies && p[i + 1] !in others
      && copies != [] && forall x :: x in copies ==> x == p[i + 1]
  }

  ghost predicate Followable(g: Graph, p: seq<string>) {
    && p != [] && NoRepetition(p) && NoShortcut(g, p)
    && (forall i :: 0 <= i < |p| ==> p[i] in g)
    && (forall i :: 0 <= i < |p| - 1 ==> LastIsNext(g, p, i))
  }

  /** The search stands at the `i`-th version of the path. */
  ghost predicate Follows(g: Graph, p: seq<string>, i: nat, s: Frontier)
    requires i < |p|
  {
    && Proper(g, s) && s.stack != [] && s.stack[|s.stack| - 1] == p[i] && p[i] in s.paths
    && s.paths[p[i]] == p[..i + 1]
    && forall u :: u in s.paths ==> SeenBefore(g, p, i, u)
  }

  lemma {:induction false} FollowStep(g: Graph, p: seq<string>, i: nat, s: Frontier)
    requires Followable(g, p) && i + 1 < |p| && Follows(g, p, i, s)
    ensures var (v, rest) := Pop(s);
      v == p[i] && Follows(g, p, i + 1, Push(g, v, g[v].canBeUpgradedTo, rest))
  {
    var (v, rest) := Pop(s);
    assert rest.paths == s.paths && Proper(g, rest);
    NextIsUnseen(g, p, i, s);
    NextOnTop(g, p, i, rest);
    PushKeepsWork(g, v, g[v].canBeUpgradedTo, rest);
    SeenNext(g, p, i, rest);
  }

  lemma {:induction false} NextOnTop(g: Graph, p: seq<string>, i: nat, s: Frontier)
    requires i + 1 < |p| && LastIsNext(g, p, i) && p[i + 1] in g && p[i + 1] !in s.paths
    requires p[i] in s.paths && s.paths[p[i]] == p[..i + 1]
    ensures var r := Push(g, p[i], g[p[i]].canBeUpgradedTo, s);
      r.stack != [] && r.stack[|r.stack| - 1] == p[i + 1] && p[i + 1] in r.paths && r.paths[p[i + 1]] == p[..i + 2]
  {
    var others, copies :| g[p[i]].canBeUpgradedTo == others + copies && p[i + 1] !in others
      && copies != [] && forall x :: x in copies ==> x == p[i + 1];
    PushedOnTop(g, p[i], others, copies, p[i + 1], s);
    assert p[..i + 1] + [p[i + 1]] == p[..i + 2];
  }

  lemma {:induction false} SeenNext(g: Graph, p: seq<string>, i: nat, s: Frontier)
    requires i < |p| && p[i] in g && p[i] in s.paths && forall u :: u in s.paths ==> SeenBefore(g, p, i, u)
    ensures var r := Push(g, p[i], g[p[i]].canBeUpgradedTo, s);
      forall u :: u in r.paths ==> SeenBefore(g, p, i + 1, u)
  {
    var r := Push(g, p[i], g[p[i]].canBeUpgradedTo, s);
    PushAdds(g, p[i], g[p[i]].canBeUpgradedTo, s);
    forall u | u in r.paths ensures SeenBefore(g, p, i + 1, u) {
      if u in s.paths {
        assert SeenBefore(g, p, i, u);
      } else {
        assert Edge(g, p[i], u);
      }
    }
  }

  lemma {:induction false} NextIsUnseen(g: Graph, p: seq<string>, i: nat, s: Frontier)
    requires Followable(g, p) && i + 1 < |p| && Follows(g, p, i, s)
    ensures p[i + 1] !in s.paths
  {
    forall u | u in s.paths ensures u != p[i + 1] {
      assert SeenBefore(g, p, i, u);
    }
  }

  lemma {:induction false} SearchFollows(g: Graph, p: seq<string>, i: nat, s: Frontier)
    requires Followable(g, p) && i < |p| && Follows(g, p, i, s)
    ensures Search(g, p[|p| - 1], s) == Some(p)
    decreases |p| - i
  {
    var (v, rest) := Pop(s);
    if i + 1 == |p| {
      assert p[..|p|] == p;
    } else {
      FollowStep(g, p, i, s);
      PushKeepsWork(g, v, g[v].canBeUpgradedTo, rest);
      SearchFollows(g, p, i + 1, Push(g, v, g[v].canBeUpgradedTo, rest));
    }
  }

  lemma {:induction false} PathLastFollowable(list: seq<VersionEntry>, p: seq<string>, a: string, b: string)
    requires Tight(GraphOf(list), p, a, b) && b in GraphOf(list)
    ensures Followable(GraphOf(PathLastAll(p, list)), p)
  {
    var g, g' := GraphOf(list), GraphOf(PathLastAll(p, list));
    PathLastGraph(p, list);
    PathLastReorders(p, list);
    SameRelation(list, PathLastAll(p, list));
    assert Tight(g', p, a, b);
    forall i | 0 <= i < |p| ensures p[i] in g' {
      if i + 1 < |p| {
        assert Edge(g, p[i], p[i + 1]);
      }
    }
    forall i | 0 <= i < |p| - 1 ensures LastIsNext(g', p, i) {
      assert Edge(g, p[i], p[i + 1]);
      NextOnPath(p, i);
      OthersAndCopies(g[p[i]].canBeUpgradedTo, p[i + 1]);
      var others, copies := Others(g[p[i]].canBeUpgradedTo, p[i + 1]), Copies(g[p[i]].canBeUpgradedTo, p[i + 1]);
      assert g'[p[i]].canBeUpgradedTo == others + copies;
    }
  }

  // ---------------------------------------------------------------- main results

  /** Every tight path is answered for some order of the lists. */
  lemma {:induction false} TightPathIsAnswered(
    list: seq<VersionEntry>, startFull: string, targetFull: string, p: seq<string>)
    requires var g := GraphOf(list);
      && Resolve(g, startFull).Some? && Resolve(g, targetFull).Some?
      && Tight(g, p, Resolve(g, startFull).value, Resolve(g, targetFull).value)
    ensures Reorders(list, PathLastAll(p, list))
    ensures Answers(PathLastAll(p, list), startFull, targetFull, p)
  {
    var list' := PathLastAll(p, list);
    var g, g' := GraphOf(list), GraphOf(list');
    var start, target := Resolve(g, startFull).value, Resolve(g, targetFull).value;
    PathLastReorders(p, list);
    SameRelation(list, list');
    PathLastFollowable(list, p, start, target);
    FirstIsGood(g', start, target);
    StartsFollowing(g', p, start);
    SearchFollows(g', p, 0, First(start));
    RouteFromSearch(list', startFull, targetFull, p);
  }

  lemma {:induction false} StartsFollowing(g: Graph, p: seq<string>, start: string)
    requires p != [] && p[0] == start && Proper(g, First(start))
    ensures Follows(g, p, 0, First(start))
  {
    assert p[..1] == [start];
  }

  ghost predicate Answers(list: seq<VersionEntry>, startFull: string, targetFull: string, p: seq<string>) {
    Route(list, startFull, targetFull).Found? && PathOf(Route(list, startFull, targetFull).route) == p
  }

  /** The paths that the search answers, over all orders of the lists, are exactly the tight ones. */
  lemma {:induction false} AnswersAreTheTightPaths(
    list: seq<VersionEntry>, startFull: string, targetFull: string, p: seq<string>)
    requires Resolve(GraphOf(list), startFull).Some? && Resolve(GraphOf(list), targetFull).Some?
    ensures (exists list' :: Reorders(list, list') && Answers(list', startFull, targetFull, p)) <==>
      Tight(GraphOf(list), p, Resolve(GraphOf(list), startFull).value, Resolve(GraphOf(list), targetFull).value)
  {
    var g := GraphOf(list);
    if Tight(g, p, Resolve(g, startFull).value, Resolve(g, targetFull).value) {
      TightPathIsAnswered(list, startFull, targetFull, p);
    }
    forall list' | Reorders(list, list') && Answers(list', startFull, targetFull, p)
      ensures Tight(g, p, Resolve(g, startFull).value, Resolve(g, targetFull).value)
    {
      SameRelation(list, list');
      RouteIsTight(list', startFull, targetFull);
    }
  }

  /** `validateUpgrade` lets the upgrade pass. */
  ghost predicate Passes(list: seq<VersionEntry>, startFull: string, targetFull: string) {
    Route(list, startFull, targetFull).Found? && NeedsNoBinary(Route(list, startFull, targetFull).route)
  }

  ghost predicate AllTightClean(g: Graph, a: string, b: string) {
    forall p :: Tight(g, p, a, b) ==> CleanPath(g, p)
  }

  /**
   The upgrade is accepted for every order of the lists exactly when the target is reachable and no tight
   path passes a version that requires its binary. If one does, the order that lists it last is refused.
   */
  lemma {:induction false} AcceptedInEveryOrderIff(list: seq<VersionEntry>, startFull: string, targetFull: string)
    requires Resolve(GraphOf(list), startFull).Some? && Resolve(GraphOf(list), targetFull).Some?
    ensures var g := GraphOf(list);
      var start, target := Resolve(g, startFull).value, Resolve(g, targetFull).value;
      (forall list' :: Reorders(list, list') ==> Passes(list', startFull, targetFull)) <==>
        Reachable(g, start, target) && AllTightClean(g, start, target)
  {
    var g := GraphOf(list);
    var start, target := Resolve(g, startFull).value, Resolve(g, targetFull).value;
    if forall list' :: Reorders(list, list') ==> Passes(list', startFull, targetFull) {
      assert Reorders(list, list);
      RouteIsComplete(list, startFull, targetFull);
      forall p | Tight(g, p, start, target) ensures CleanPath(g, p) {
        OrderedLastIsClean(list, startFull, targetFull, p);
      }
    }
    if Reachable(g, start, target) && AllTightClean(g, start, target) {
      forall list' | Reorders(list, list') ensures Passes(list', startFull, targetFull) {
        ReorderedPasses(list, list', startFull, targetFull);
      }
    }
  }

  lemma {:induction false} OrderedLastIsClean(
    list: seq<VersionEntry>, startFull: string, targetFull: string, p: seq<string>)
    requires var g := GraphOf(list);
      && Resolve(g, startFull).Some? && Resolve(g, targetFull).Some?
      && Tight(g, p, Resolve(g, startFull).value, Resolve(g, targetFull).value)
    ensures Reorders(list, PathLastAll(p, list))
    ensures Passes(PathLastAll(p, list), startFull, targetFull) <==> CleanPath(GraphOf(list), p)
  {
    TightPathIsAnswered(list, startFull, targetFull, p);
    SameRelation(list, PathLastAll(p, list));
    RouteIsTight(PathLastAll(p, list), startFull, targetFull);
  }

  lemma {:induction false} ReorderedPasses(
    list: seq<VersionEntry>, list': seq<VersionEntry>, startFull: string, targetFull: string)
    requires Reorders(list, list') && Resolve(GraphOf(list), startFull).Some?
      && Resolve(GraphOf(list), targetFull).Some?
    requires var g := GraphOf(list);
      var start, target := Resolve(g, startFull).value, Resolve(g, targetFull).value;
      Reachable(g, start, target) && AllTightClean(g, start, target)
    ensures Passes(list', startFull, targetFull)
  {
    ReorderedRoute(list, list', startFull, targetFull);
  }

  /** Reordering keeps whether there is a route, and the route stays a tight path of the original list. */
  lemma {:induction false} ReorderedRoute(
    list: seq<VersionEntry>, list': seq<VersionEntry>, startFull: string, targetFull: string)
    requires Reorders(list, list') && Resolve(GraphOf(list), startFull).Some?
      && Resolve(GraphOf(list), targetFull).Some?
    requires Reachable(GraphOf(list), Resolve(GraphOf(list), startFull).value, Resolve(GraphOf(list), targetFull).value)
    ensures Route(list', startFull, targetFull).Found?
    ensures var g, r := GraphOf(list), Route(list', startFull, targetFull).route;
      && Tight(g, PathOf(r), Resolve(g, startFull).value, Resolve(g, targetFull).value)
      && (NeedsNoBinary(r) <==> CleanPath(g, PathOf(r)))
  {
    var g, g' := GraphOf(list), GraphOf(list');
    SameRelation(list, list');
    var start, target := Resolve(g, startFull).value, Resolve(g, targetFull).value;
    var q :| Connects(g, q, start, target);
    assert Connects(g', q, start, target);
    RouteIsComplete(list', startFull, targetFull);
    RouteIsTight(list', startFull, targetFull);
  }

  // ---------------------------------------------------------------- shortest routes

  /** A repetition can be cut out of a route, and a shortcut taken. */
  lemma {:induction false} CutIsShorter(
    g: Graph, p: seq<string>, a: string, b: string, i: nat, j: nat) returns (q: seq<string>)
    requires Connects(g, p, a, b) && i < j < |p| && (p[i] == p[j] || (i + 1 < j && Edge(g, p[i], p[j])))
    ensures Connects(g, q, a, b) && |q| < |p|
  {
    var keep := if p[i] == p[j] then i else i + 1;
    q := p[..keep] + p[j..];
    forall k | 0 <= k < |q| - 1 ensures Edge(g, q[k], q[k + 1]) {
      if k + 1 < keep {
        assert Edge(g, p[k], p[k + 1]);
      } else if k + 1 == keep {
        assert k + 1 == i ==> Edge(g, p[k], p[k + 1]);
      } else {
        var m := k - keep + j;
        assert Edge(g, p[m], p[m + 1]);
      }
    }
  }

  /** A shortest path is tight. */
  lemma {:induction false} ShortestIsTight(g: Graph, p: seq<string>, a: string, b: string)
    requires Shortest(g, p, a, b)
    ensures Tight(g, p, a, b)
  {
    forall i, j | 0 <= i < j < |p| ensures p[i] != p[j] && (i + 1 < j ==> !Edge(g, p[i], p[j])) {
      if p[i] == p[j] || (i + 1 < j && Edge(g, p[i], p[j])) {
        var q := CutIsShorter(g, p, a, b, i, j);
        assert false;
      }
    }
  }

  lemma {:induction false} ShortestExists(g: Graph, p: seq<string>, a: string, b: string) returns (q: seq<string>)
    requires Connects(g, p, a, b)
    ensures Shortest(g, q, a, b)
    decreases |p|
  {
    if exists r :: Connects(g, r, a, b) && |r| < |p| {
      var r :| Connects(g, r, a, b) && |r| < |p|;
      q := ShortestExists(g, r, a, b);
    } else {
      q := p;
    }
  }

  ghost predicate OneLength(g: Graph, a: string, b: string) {
    forall p, q :: Tight(g, p, a, b) && Tight(g, q, a, b) ==> |p| == |q|
  }

  /** The answer is a route of least length. */
  ghost predicate AnswersShortest(list: seq<VersionEntry>, startFull: string, targetFull: string) {
    var g := GraphOf(list);
    && Route(list, startFull, targetFull).Found? && Resolve(g, startFull).Some? && Resolve(g, targetFull).Some?
    && Shortest(g, PathOf(Route(list, startFull, targetFull).route), Resolve(g, startFull).value,
      Resolve(g, targetFull).value)
  }

  /** Every order of the lists gives a shortest route exactly when there is a route and tight paths have one length. */
  lemma {:induction false} ShortestInEveryOrderIff(list: seq<VersionEntry>, startFull: string, targetFull: string)
    requires Resolve(GraphOf(list), startFull).Some? && Resolve(GraphOf(list), targetFull).Some?
    ensures var g := GraphOf(list);
      var start, target := Resolve(g, startFull).value, Resolve(g, targetFull).value;
      (forall list' :: Reorders(list, list') ==> AnswersShortest(list', startFull, targetFull)) <==>
        Reachable(g, start, target) && OneLength(g, start, target)
  {
    var g := GraphOf(list);
    var start, target := Resolve(g, startFull).value, Resolve(g, targetFull).value;
    if forall list' :: Reorders(list, list') ==> AnswersShortest(list', startFull, targetFull) {
      assert Reorders(list, list);
      RouteIsComplete(list, startFull, targetFull);
      forall p, q | Tight(g, p, start, target) && Tight(g, q, start, target) ensures |p| == |q| {
        TightPathIsShortest(list, startFull, targetFull, p);
        TightPathIsShortest(list, startFull, targetFull, q);
      }
    }
    if Reachable(g, start, target) && OneLength(g, start, target) {
      forall list' | Reorders(list, list') ensures AnswersShortest(list', startFull, targetFull) {
        ReorderedIsShortest(list, list', startFull, targetFull);
      }
    }
  }

  lemma {:induction false} TightPathIsShortest(
    list: seq<VersionEntry>, startFull: string, targetFull: string, p: seq<string>)
    requires var g := GraphOf(list);
      && Resolve(g, startFull).Some? && Resolve(g, targetFull).Some?
      && Tight(g, p, Resolve(g, startFull).value, Resolve(g, targetFull).value)
    requires forall list' :: Reorders(list, list') ==> AnswersShortest(list', startFull, targetFull)
    ensures Shortest(GraphOf(list), p, Resolve(GraphOf(list), startFull).value,
      Resolve(GraphOf(list), targetFull).value)
  {
    TightPathIsAnswered(list, startFull, targetFull, p);
    SameRelation(list, PathLastAll(p, list));
    assert AnswersShortest(PathLastAll(p, list), startFull, targetFull);
  }

  lemma {:induction false} ReorderedIsShortest(
    list: seq<VersionEntry>, list': seq<VersionEntry>, startFull: string, targetFull: string)
    requires Reorders(list, list') && Resolve(GraphOf(list), startFull).Some?
      && Resolve(GraphOf(list), targetFull).Some?
    requires var g := GraphOf(list);
      var start, target := Resolve(g, startFull).value, Resolve(g, targetFull).value;
      Reachable(g, start, target) && OneLength(g, start, target)
    ensures AnswersShortest(list', startFull, targetFull)
  {
    var g, g' := GraphOf(list), GraphOf(list');
    var start, target := Resolve(g, startFull).value, Resolve(g, targetFull).value;
    ReorderedRoute(list, list', startFull, targetFull);
    SameRelation(list, list');
    var r :| Connects(g, r, start, target);
    var q := ShortestExists(g, r, start, target);
    ShortestIsTight(g, q, start, target);
    var p := PathOf(Route(list', startFull, targetFull).route);
    assert |p| == |q|;
    assert Shortest(g', p, start, target);
  }
}
