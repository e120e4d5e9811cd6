/**
 The upgrade-route search of pkg/helper/upgrade.go on values: the relation that the dependency
 list denotes, the search as a function of that relation, and what the search guarantees.
 */
module UpgradeGraph {
  import opened Common

  /** One entry of the dependency list. */
  datatype VersionEntry = VersionEntry(version: string, canBeUpgradedTo: seq<string>, requireFromBinary: bool)

  /** The entries by version; of two entries for one version the later one counts. */
  type Graph = map<string, VersionEntry>

  function GraphOf(list: seq<VersionEntry>): (g: Graph)
    ensures forall v :: v in g ==> g[v].version == v && g[v] in list
    ensures forall e :: e in list ==> e.version in g
  {
    if list == [] then map[]
    else
      var last := list[|list| - 1];
      assert list == list[..|list| - 1] + [last];
      GraphOf(list[..|list| - 1])[last.version := last]
  }

  predicate Edge(g: Graph, a: string, b: string) {
    a in g && b in g[a].canBeUpgradedTo
  }

  predicate IsRoute(g: Graph, p: seq<string>) {
    p != [] && forall i :: 0 <= i < |p| - 1 ==> Edge(g, p[i], p[i + 1])
  }

  predicate Connects(g: Graph, p: seq<string>, a: string, b: string) {
    IsRoute(g, p) && p[0] == a && p[|p| - 1] == b
  }

  ghost predicate Reachable(g: Graph, a: string, b: string) {
    exists p :: Connects(g, p, a, b)
  }

  // ---------------------------------------------------------------- the search

  /** The work list, popped at its end, and for every version seen the path by which it was found. */
  datatype Frontier = Frontier(stack: seq<string>, paths: map<string, seq<string>>)

  /** Pushes those successors of `v` that have an entry and were not seen before. */
  function Push(g: Graph, v: string, successors: seq<string>, s: Frontier): (r: Frontier)
    requires v in s.paths
    ensures s.paths.Keys <= r.paths.Keys && (forall u :: u in s.paths ==> r.paths[u] == s.paths[u])
    decreases |successors|
  {
    if successors == [] then s
    else
      var u := successors[0];
      var s' := if u in g && u !in s.paths
                then Frontier(s.stack + [u], s.paths[u := s.paths[v] + [u]]) else s;
      Push(g, v, successors[1..], s')
  }

  ghost predicate Proper(g: Graph, s: Frontier) {
    && s.paths.Keys <= g.Keys
    && (forall i :: 0 <= i < |s.stack| ==> s.stack[i] in s.paths)
  }

  ghost function Work(g: Graph, s: Frontier): nat {
    |g.Keys - s.paths.Keys| + |s.stack|
  }

  lemma {:induction false} PushKeepsWork(g: Graph, v: string, successors: seq<string>, s: Frontier)
    requires v in s.paths && Proper(g, s)
    ensures var r := Push(g, v, successors, s); Proper(g, r) && Work(g, r) == Work(g, s)
    decreases |successors|
  {
    if successors != [] {
      var u := successors[0];
      if u in g && u !in s.paths {
        var s' := Frontier(s.stack + [u], s.paths[u := s.paths[v] + [u]]);
        assert g.Keys - s.paths.Keys == (g.Keys - s'.paths.Keys) + {u};
        PushKeepsWork(g, v, successors[1..], s');
      } else {
        PushKeepsWork(g, v, successors[1..], s);
      }
    }
  }

  lemma {:induction false} PushAppend(g: Graph, v: string, first: seq<string>, second: seq<string>, s: Frontier)
    requires v in s.paths
    ensures Push(g, v, first + second, s) == Push(g, v, second, Push(g, v, first, s))
    decreases |first|
  {
    if first == [] {
      assert first + second == second;
    } else {
      var u := first[0];
      var s' := if u in g && u !in s.paths then Frontier(s.stack + [u], s.paths[u := s.paths[v] + [u]]) else s;
      assert (first + second)[1..] == first[1..] + second;
      PushAppend(g, v, first[1..], second, s');
    }
  }

  lemma {:induction false} PushStep(g: Graph, v: string, all: seq<string>, k: nat, s: Frontier)
    requires v in s.paths && k < |all|
    ensures Push(g, v, all[..k + 1], s) == Push(g, v, [all[k]], Push(g, v, all[..k], s))
  {
    assert all[..k + 1] == all[..k] + [all[k]];
    PushAppend(g, v, all[..k], [all[k]], s);
  }

  /** Repeated successors change nothing. */
  lemma {:induction false} PushRepeated(g: Graph, v: string, successors: seq<string>, s: Frontier)
    requires v in s.paths && forall u :: u in successors && u in g ==> u in s.paths
    ensures Push(g, v, successors, s) == s
    decreases |successors|
  {
    if successors != [] {
      assert successors[0] in successors;
      PushRepeated(g, v, successors[1..], s);
    }
  }

  /** Listing the successors again after themselves, in any number and order, does not change the search. */
  lemma {:induction false} PushIgnoresRepetition(
    g: Graph, v: string, listed: seq<string>, repeated: seq<string>, s: Frontier)
    requires v in s.paths && listed <= repeated && forall u :: u in repeated ==> u in listed
    ensures Push(g, v, repeated, s) == Push(g, v, listed, s)
  {
    var rest := repeated[|listed|..];
    assert repeated == listed + rest;
    PushAppend(g, v, listed, rest, s);
    PushSees(g, v, listed, s);
    PushRepeated(g, v, rest, Push(g, v, listed, s));
  }

  function Pop(s: Frontier): (string, Frontier)
    requires s.stack != []
  {
    (s.stack[|s.stack| - 1], s.(stack := s.stack[..|s.stack| - 1]))
  }

  /** Depth-first search; the path of the target once it is popped. */
  ghost function Search(g: Graph, target: string, s: Frontier): Option<seq<string>>
    requires Proper(g, s)
    decreases Work(g, s)
  {
    if s.stack == [] then None
    else
      var (v, rest) := Pop(s);
      if v == target then Some(s.paths[v])
      else
        PushKeepsWork(g, v, g[v].canBeUpgradedTo, rest);
        Search(g, target, Push(g, v, g[v].canBeUpgradedTo, rest))
  }

  function First(start: string): Frontier {
    Frontier([start], map[start := [start]])
  }

  // ---------------------------------------------------------------- the route

  /** The part of a version before the first dash. */
  function ShortVersion(version: string): string {
    if version == "" || version[0] == '-' then "" else [version[0]] + ShortVersion(version[1..])
  }

  function Resolve(g: Graph, version: string): Option<string> {
    if version in g then Some(version)
    else if ShortVersion(version) in g then Some(ShortVersion(version))
    else None
  }

  datatype RouteResult = StartNotFound | TargetNotFound | NoRoute | Found(route: seq<VersionEntry>)

  function EntriesOf(g: Graph, p: seq<string>): (r: seq<VersionEntry>)
    requires forall i :: 0 <= i < |p| ==> p[i] in g
    ensures |r| == |p| && forall i :: 0 <= i < |p| ==> r[i] == g[p[i]]
  {
    if p == [] then [] else [g[p[0]]] + EntriesOf(g, p[1..])
  }

  function VersionsOf(route: seq<VersionEntry>): (p: seq<string>)
    ensures |p| == |route| && forall i :: 0 <= i < |route| ==> p[i] == route[i].version
  {
    if route == [] then [] else [route[0].version] + VersionsOf(route[1..])
  }

  /** A one-element path, found when start and target are one version, is doubled. */
  function Doubled<T>(p: seq<T>): seq<T> {
    if |p| == 1 then p + p else p
  }

  // ---------------------------------------------------------------- soundness

  /** Every recorded path leads from the start along edges of the list and visits no version twice. */
  ghost predicate PathGood(g: Graph, start: string, s: Frontier, v: string)
    requires v in s.paths
  {
    && Connects(g, s.paths[v], start, v)
    && (forall i :: 0 <= i < |s.paths[v]| ==> s.paths[v][i] in s.paths)
    && (forall i, j :: 0 <= i < j < |s.paths[v]| ==> s.paths[v][i] != s.paths[v][j])
  }

  ghost predicate PathsGood(g: Graph, start: string, s: Frontier) {
    forall v :: v in s.paths ==> PathGood(g, start, s, v)
  }

  lemma {:induction false} PushOneKeepsPaths(g: Graph, start: string, v: string, u: string, s: Frontier)
    requires v in s.paths && PathsGood(g, start, s) && Edge(g, v, u) && u !in s.paths
    ensures PathsGood(g, start, Frontier(s.stack + [u], s.paths[u := s.paths[v] + [u]]))
  {
    var s' := Frontier(s.stack + [u], s.paths[u := s.paths[v] + [u]]);
    assert PathGood(g, start, s, v);
    forall w | w in s'.paths ensures PathGood(g, start, s', w) {
      if w != u {
        assert PathGood(g, start, s, w);
      }
    }
  }

  lemma {:induction false} PushKeepsPaths(g: Graph, start: string, v: string, successors: seq<string>, s: Frontier)
    requires v in s.paths && PathsGood(g, start, s)
    requires forall i :: 0 <= i < |successors| ==> Edge(g, v, successors[i])
    ensures PathsGood(g, start, Push(g, v, successors, s))
    decreases |successors|
  {
    if successors != [] {
      var u := successors[0];
      if u in g && u !in s.paths {
        assert Edge(g, v, successors[0]);
        PushOneKeepsPaths(g, start, v, u, s);
        PushKeepsPaths(g, start, v, successors[1..], Frontier(s.stack + [u], s.paths[u := s.paths[v] + [u]]));
      } else {
        PushKeepsPaths(g, start, v, successors[1..], s);
      }
    }
  }

  /** What `Search` finds is a route without repetition, over versions of the list. */
  lemma {:induction false} SearchIsSound(g: Graph, start: string, target: string, s: Frontier)
    requires Proper(g, s) && PathsGood(g, start, s) && Search(g, target, s).Some?
    ensures var p := Search(g, target, s).value;
      && Connects(g, p, start, target)
      && (forall i :: 0 <= i < |p| ==> p[i] in g)
      && (forall i, j :: 0 <= i < j < |p| ==> p[i] != p[j])
    decreases Work(g, s)
  {
    var (v, rest) := Pop(s);
    if v == target {
      assert PathGood(g, start, s, v);
    } else {
      var next := Push(g, v, g[v].canBeUpgradedTo, rest);
      PushKeepsWork(g, v, g[v].canBeUpgradedTo, rest);
      assert PathsGood(g, start, rest) by {
        forall u | u in rest.paths ensures PathGood(g, start, rest, u) {
          assert PathGood(g, start, s, u);
        }
      }
      PushKeepsPaths(g, start, v, g[v].canBeUpgradedTo, rest);
      SearchIsSound(g, start, target, next);
    }
  }

  // ---------------------------------------------------------------- completeness

  /** A version that was popped is not the target and all its successors with an entry are seen. */
  ghost predicate Expanded(g: Graph, target: string, s: Frontier, v: string) {
    v != target && forall u :: Edge(g, v, u) && u in g ==> u in s.paths
  }

  ghost predicate AllExpanded(g: Graph, target: string, s: Frontier) {
    forall v :: v in s.paths && v !in s.stack ==> Expanded(g, target, s, v)
  }

  lemma {:induction false} PushSees(g: Graph, v: string, successors: seq<string>, s: Frontier)
    requires v in s.paths
    ensures var r := Push(g, v, successors, s);
      && (forall u :: u in successors && u in g ==> u in r.paths)
      && (forall u :: u in r.paths ==> u in s.paths || u in r.stack)
      && (forall u :: u in s.stack ==> u in r.stack)
    decreases |successors|
  {
    if successors != [] {
      var u := successors[0];
      var s' := if u in g && u !in s.paths then Frontier(s.stack + [u], s.paths[u := s.paths[v] + [u]]) else s;
      assert forall w :: w in s.stack ==> w in s'.stack;
      assert u in s'.paths && u !in s.paths ==> s'.stack[|s.stack|] == u;
      PushSees(g, v, successors[1..], s');
      assert successors == [u] + successors[1..];
    }
  }

  lemma {:induction false} ExpandKeepsAll(g: Graph, target: string, s: Frontier)
    requires Proper(g, s) && s.stack != [] && AllExpanded(g, target, s) && Pop(s).0 != target
    ensures var (v, rest) := Pop(s);
      AllExpanded(g, target, Push(g, v, g[v].canBeUpgradedTo, rest))
  {
    var (v, rest) := Pop(s);
    var r := Push(g, v, g[v].canBeUpgradedTo, rest);
    PushSees(g, v, g[v].canBeUpgradedTo, rest);
    assert s.stack == rest.stack + [v];
    forall u | u in r.paths && u !in r.stack ensures Expanded(g, target, r, u) {
      if u != v {
        assert u in s.paths && u !in s.stack;
        assert Expanded(g, target, s, u);
      }
    }
  }

  /** A set of seen versions that is closed under edges holds every reachable version. */
  lemma {:induction false} ClosedHoldsReachable(g: Graph, target: string, s: Frontier, p: seq<string>, k: nat)
    requires s.stack == [] && AllExpanded(g, target, s) && IsRoute(g, p) && p[0] in s.paths && k < |p|
    requires p[|p| - 1] in g
    ensures p[k] in s.paths
  {
    if k > 0 {
      ClosedHoldsReachable(g, target, s, p, k - 1);
      assert Expanded(g, target, s, p[k - 1]);
      assert Edge(g, p[k - 1], p[k]);
      if k < |p| - 1 {
        assert Edge(g, p[k], p[k + 1]);
      }
    }
  }

  /** When `Search` gives up, the target cannot be reached. */
  lemma {:induction false} SearchIsComplete(g: Graph, start: string, target: string, s: Frontier)
    requires Proper(g, s) && start in s.paths && AllExpanded(g, target, s)
    requires Search(g, target, s).None? && target in g
    ensures !Reachable(g, start, target)
    decreases Work(g, s)
  {
    if s.stack == [] {
      forall p | Connects(g, p, start, target) ensures false {
        ClosedHoldsReachable(g, target, s, p, |p| - 1);
      }
    } else {
      var (v, rest) := Pop(s);
      PushKeepsWork(g, v, g[v].canBeUpgradedTo, rest);
      ExpandKeepsAll(g, target, s);
      SearchIsComplete(g, start, target, Push(g, v, g[v].canBeUpgradedTo, rest));
    }
  }

  // ---------------------------------------------------------------- the whole operation

  lemma {:induction false} FirstIsGood(g: Graph, start: string, target: string)
    requires start in g
    ensures Proper(g, First(start)) && PathsGood(g, start, First(start)) && AllExpanded(g, target, First(start))
  {
    assert PathGood(g, start, First(start), start);
  }

  /** The route between two versions that have entries. */
  ghost function RouteBetween(g: Graph, start: string, target: string): RouteResult
    requires start in g && target in g
  {
    FirstIsGood(g, start, target);
    var p := Search(g, target, First(start));
    if p.None? then NoRoute
    else
      SearchIsSound(g, start, target, First(start));
      Found(Doubled(EntriesOf(g, p.value)))
  }

  /** The route from one full version to another over the given list. */
  ghost function Route(list: seq<VersionEntry>, startFull: string, targetFull: string): RouteResult {
    var g := GraphOf(list);
    var start, target := Resolve(g, startFull), Resolve(g, targetFull);
    if start.None? then StartNotFound
    else if target.None? then TargetNotFound
    else RouteBetween(g, start.value, target.value)
  }

  /**
   A route that is found starts at the resolved start, ends at the resolved target, follows edges of
   the list and repeats no version, except that one version is doubled when start and target agree.
   */
  lemma {:induction false} RouteIsSound(list: seq<VersionEntry>, startFull: string, targetFull: string)
    requires Route(list, startFull, targetFull).Found?
    ensures var g := GraphOf(list);
      var route := Route(list, startFull, targetFull).route;
      var start, target := Resolve(g, startFull), Resolve(g, targetFull);
      && start.Some? && target.Some? && |route| >= 2
      && (forall i :: 0 <= i < |route| ==> route[i] in list && g[route[i].version] == route[i])
      && (if start == target then VersionsOf(route) == [start.value, start.value]
          else Connects(g, VersionsOf(route), start.value, target.value) &&
               forall i, j :: 0 <= i < j < |route| ==> route[i].version != route[j].version)
  {
    var g := GraphOf(list);
    var start, target := Resolve(g, startFull).value, Resolve(g, targetFull).value;
    FirstIsGood(g, start, target);
    SearchIsSound(g, start, target, First(start));
    var p := Search(g, target, First(start)).value;
    var route := Route(list, startFull, targetFull).route;
    if start == target {
      assert p[0] == p[|p| - 1];
      assert |p| == 1;
    } else {
      assert |p| >= 2;
      assert VersionsOf(route) == p;
    }
  }

  /** "There is no route" is answered exactly when the target is unreachable, once both versions resolve. */
  lemma {:induction false} RouteIsComplete(list: seq<VersionEntry>, startFull: string, targetFull: string)
    requires Resolve(GraphOf(list), startFull).Some? && Resolve(GraphOf(list), targetFull).Some?
    ensures Route(list, startFull, targetFull).NoRoute? <==>
      !Reachable(GraphOf(list), Resolve(GraphOf(list), startFull).value, Resolve(GraphOf(list), targetFull).value)
  {
    var g := GraphOf(list);
    var start, target := Resolve(g, startFull).value, Resolve(g, targetFull).value;
    FirstIsGood(g, start, target);
    if Search(g, target, First(start)).None? {
      SearchIsComplete(g, start, target, First(start));
    } else {
      SearchIsSound(g, start, target, First(start));
    }
  }

  // ---------------------------------------------------------------- versions with a build

  predicate HasEntry(list: seq<VersionEntry>, version: string) {
    exists i :: 0 <= i < |list| && list[i].version == version
  }

  lemma {:induction false} EntriesAreKeys(list: seq<VersionEntry>, version: string)
    ensures HasEntry(list, version) <==> version in GraphOf(list)
  {
    if HasEntry(list, version) {
      var i :| 0 <= i < |list| && list[i].version == version;
      assert list[i] in list;
    }
    if version in GraphOf(list) {
      assert GraphOf(list)[version] in list;
    }
  }

  /** `s` is what comes before the first dash of `version`, which is all of it when there is none. */
  predicate BeforeDash(s: string, version: string) {
    s <= version && '-' !in s && (|s| == |version| || version[|s|] == '-')
  }

  lemma {:induction false} ShortIsBeforeDash(version: string, s: string)
    ensures BeforeDash(s, version) <==> s == ShortVersion(version)
    decreases |version|
  {
    if version != "" && version[0] != '-' {
      if s != "" {
        ShortIsBeforeDash(version[1..], s[1..]);
        assert s == [s[0]] + s[1..] && version == [version[0]] + version[1..];
      }
    } else if s != "" {
      assert s[0] in s;
    }
  }

  /** The list knows the version, in full or by what comes before its first dash. */
  predicate Knows(list: seq<VersionEntry>, version: string) {
    HasEntry(list, version) || exists n :: 0 <= n <= |version| && BeforeDash(version[..n], version)
                                           && HasEntry(list, version[..n])
  }

  lemma {:induction false} KnowsResolves(list: seq<VersionEntry>, version: string)
    ensures Knows(list, version) <==> Resolve(GraphOf(list), version).Some?
  {
    var s := ShortVersion(version);
    EntriesAreKeys(list, version);
    EntriesAreKeys(list, s);
    ShortIsBeforeDash(version, s);
    assert version[..|s|] == s;
    forall n | 0 <= n <= |version| && BeforeDash(version[..n], version) ensures version[..n] == s {
      ShortIsBeforeDash(version, version[..n]);
    }
  }

  /** The errors: the start is unknown; it is known and the target is not. */
  lemma {:induction false} NotFoundIff(list: seq<VersionEntry>, startFull: string, targetFull: string)
    ensures Route(list, startFull, targetFull).StartNotFound? <==> !Knows(list, startFull)
    ensures Route(list, startFull, targetFull).TargetNotFound? <==> Knows(list, startFull) && !Knows(list, targetFull)
  {
    KnowsResolves(list, startFull);
    KnowsResolves(list, targetFull);
  }

  /** A version that the list has only without its build is routed as the version without it, from and to it. */
  lemma {:induction false} BuildIsIgnored(list: seq<VersionEntry>, short: string, build: string, other: string)
    requires '-' !in short && HasEntry(list, short) && !HasEntry(list, short + "-" + build)
    ensures Route(list, short + "-" + build, other) == Route(list, short, other)
    ensures Route(list, other, short + "-" + build) == Route(list, other, short)
  {
    var full := short + "-" + build;
    EntriesAreKeys(list, short);
    EntriesAreKeys(list, full);
    assert BeforeDash(short, full);
    ShortIsBeforeDash(full, short);
  }

  /** A version that the list has is taken as it is, build and all. */
  lemma {:induction false} FullVersionIsPreferred(list: seq<VersionEntry>, start: string, target: string)
    requires HasEntry(list, start) && HasEntry(list, target) && Route(list, start, target).Found?
    ensures var route := Route(list, start, target).route;
      |route| >= 2 && route[0].version == start && route[|route| - 1].version == target
  {
    EntriesAreKeys(list, start);
    EntriesAreKeys(list, target);
    RouteIsSound(list, start, target);
  }

  // ---------------------------------------------------------------- what the search does not promise

  lemma {:induction false} GraphAppend(list: seq<VersionEntry>, e: VersionEntry)
    ensures GraphOf(list + [e]) == GraphOf(list)[e.version := e]
  {
    assert (list + [e])[..|list|] == list;
  }

  /** A list in which `a` reaches `t` both over `x` and over the detour `b`, `c`. */
  function Detour(a: string, x: string, b: string, c: string, t: string): seq<VersionEntry> {
    [VersionEntry(a, [x, b], false)] + [VersionEntry(x, [t], false)] + [VersionEntry(b, [c], true)]
    + [VersionEntry(c, [t], false)] + [VersionEntry(t, [], false)]
  }

  predicate Distinct(a: string, x: string, b: string, c: string, t: string) {
    a != x && a != b && a != c && a != t && x != b && x != c && x != t && b != c && b != t && c != t
  }

  lemma {:induction false} DetourGraph(a: string, x: string, b: string, c: string, t: string)
    requires Distinct(a, x, b, c, t)
    ensures GraphOf(Detour(a, x, b, c, t)) ==
      map[a := VersionEntry(a, [x, b], false), x := VersionEntry(x, [t], false), b := VersionEntry(b, [c], true),
          c := VersionEntry(c, [t], false), t := VersionEntry(t, [], false)]
  {
    var l1 := [] + [VersionEntry(a, [x, b], false)];
    var l2 := l1 + [VersionEntry(x, [t], false)];
    var l3 := l2 + [VersionEntry(b, [c], true)];
    var l4 := l3 + [VersionEntry(c, [t], false)];
    GraphAppend([], VersionEntry(a, [x, b], false));
    GraphAppend(l1, VersionEntry(x, [t], false));
    GraphAppend(l2, VersionEntry(b, [c], true));
    GraphAppend(l3, VersionEntry(c, [t], false));
    GraphAppend(l4, VersionEntry(t, [], false));
    assert l1 == [VersionEntry(a, [x, b], false)];
    assert Detour(a, x, b, c, t) == l4 + [VersionEntry(t, [], false)];
  }

  /** Popping a version with one unseen successor. */
  lemma {:induction false} SearchSingle(
    g: Graph, target: string, below: seq<string>, v: string, u: string, paths: map<string, seq<string>>)
    requires Proper(g, Frontier(below + [v], paths)) && v in g && g[v].canBeUpgradedTo == [u]
    requires v in paths && v != target && u in g && u !in paths
    ensures Proper(g, Frontier(below + [u], paths[u := paths[v] + [u]]))
    ensures Search(g, target, Frontier(below + [v], paths)) == Search(g, target,
      Frontier(below + [u], paths[u := paths[v] + [u]]))
  {
    assert [u][1..] == [];
    assert (below + [v])[..|below|] == below;
    assert Push(g, v, [u], Frontier(below, paths)) == Frontier(below + [u], paths[u := paths[v] + [u]]);
    PushKeepsWork(g, v, [u], Frontier(below, paths));
  }

  lemma {:induction false} SearchFork(g: Graph, target: string, a: string, x: string, b: string)
    requires a in g && g[a].canBeUpgradedTo == [x, b] && a != target && x in g && b in g && a != x && a != b && x != b
    ensures var paths := map[a := [a]][x := [a] + [x]][b := [a] + [b]];
      && Proper(g, First(a)) && Proper(g, Frontier([x] + [b], paths))
      && Search(g, target, First(a)) == Search(g, target, Frontier([x] + [b], paths))
  {
    var paths1 := map[a := [a]][x := [a] + [x]];
    assert [x, b][1..] == [b] && [b][1..] == [] && [a][..0] == [] && [] + [x] == [x];
    assert Push(g, a, [b], Frontier([x], paths1)) == Frontier([x] + [b], paths1[b := [a] + [b]]);
    assert Push(g, a, [x, b], Frontier([], map[a := [a]])) == Frontier([x] + [b], paths1[b := [a] + [b]]);
    PushKeepsWork(g, a, [x, b], Frontier([], map[a := [a]]));
  }

  /**
   Despite its name the search need not find a shortest route: it answers a-b-c-t although a-x-t exists,
   and the route it picks passes `b`, which requires its binary, although the other one passes no such version.
   */
  lemma {:induction false} RouteNeedNotBeShortest(a: string, x: string, b: string, c: string, t: string)
    requires Distinct(a, x, b, c, t)
    ensures var list := Detour(a, x, b, c, t);
      && Route(list, a, t).Found? && VersionsOf(Route(list, a, t).route) == [a, b, c, t]
      && Route(list, a, t).route[1].requireFromBinary
      && Connects(GraphOf(list), [a, x, t], a, t) && !GraphOf(list)[x].requireFromBinary
  {
    DetourEntries(a, x, b, c, t);
    var list := Detour(a, x, b, c, t);
    DetourSearch(GraphOf(list), a, x, b, c, t);
    RouteOfPath(list, a, t, [a, b, c, t]);
    assert [a, b, c, t][1] == b;
    ShortCut(GraphOf(list), a, x, t);
  }

  lemma {:induction false} DetourEntries(a: string, x: string, b: string, c: string, t: string)
    requires Distinct(a, x, b, c, t)
    ensures var g := GraphOf(Detour(a, x, b, c, t));
      && {a, x, b, c, t} <= g.Keys
      && g[a].canBeUpgradedTo == [x, b] && g[x].canBeUpgradedTo == [t]
      && g[b].canBeUpgradedTo == [c] && g[c].canBeUpgradedTo == [t]
      && g[b].requireFromBinary && !g[x].requireFromBinary
  {
    DetourGraph(a, x, b, c, t);
  }

  lemma {:induction false} ShortCut(g: Graph, a: string, x: string, t: string)
    requires {a, x, t} <= g.Keys && x in g[a].canBeUpgradedTo && t in g[x].canBeUpgradedTo
    ensures Connects(g, [a, x, t], a, t)
  {
  }

  lemma {:induction false} RouteOfPath(list: seq<VersionEntry>, start: string, target: string, p: seq<string>)
    requires start in GraphOf(list) && target in GraphOf(list) && |p| > 1
    requires Proper(GraphOf(list), First(start)) && Search(GraphOf(list), target, First(start)) == Some(p)
    ensures Route(list, start, target).Found? && VersionsOf(Route(list, start, target).route) == p
    ensures forall i :: 0 <= i < |p| ==>
      p[i] in GraphOf(list) && Route(list, start, target).route[i] == GraphOf(list)[p[i]]
  {
    FirstIsGood(GraphOf(list), start, target);
    SearchIsSound(GraphOf(list), start, target, First(start));
    assert VersionsOf(EntriesOf(GraphOf(list), p)) == p;
  }

  lemma {:induction false} DetourSearch(g: Graph, a: string, x: string, b: string, c: string, t: string)
    requires Distinct(a, x, b, c, t) && {a, x, b, c, t} <= g.Keys
    requires g[a].canBeUpgradedTo == [x, b] && g[b].canBeUpgradedTo == [c] && g[c].canBeUpgradedTo == [t]
    ensures Proper(g, First(a)) && Search(g, t, First(a)) == Some([a, b, c, t])
  {
    var paths1 := map[a := [a]][x := [a] + [x]][b := [a] + [b]];
    SearchFork(g, t, a, x, b);
    SearchSingle(g, t, [x], b, c, paths1);
    var paths2 := paths1[c := paths1[b] + [c]];
    SearchSingle(g, t, [x], c, t, paths2);
    var paths3 := paths2[t := paths2[c] + [t]];
    assert paths3[t] == [a, b, c, t];
    assert Pop(Frontier([x] + [t], paths3)).0 == t;
  }

  // ---------------------------------------------------------------- validating an upgrade

  /** No version strictly inside the route requires its own binary. */
  predicate NeedsNoBinary(route: seq<VersionEntry>) {
    forall i :: 0 < i < |route| - 1 ==> !route[i].requireFromBinary
  }

  predicate CleanPath(g: Graph, p: seq<string>) {
    forall i :: 0 < i < |p| - 1 ==> p[i] in g && !g[p[i]].requireFromBinary
  }

  /** An upgrade is accepted only if the list has a route between the two versions that needs no binary. */
  lemma {:induction false} AcceptedUpgradeHasCleanRoute(list: seq<VersionEntry>, startFull: string, targetFull: string)
    requires Route(list, startFull, targetFull).Found? && NeedsNoBinary(Route(list, startFull, targetFull).route)
    ensures var g := GraphOf(list);
      && Resolve(g, startFull).Some? && Resolve(g, targetFull).Some?
      && exists p :: Connects(g, p, Resolve(g, startFull).value, Resolve(g, targetFull).value) && CleanPath(g, p)
  {
    RouteIsSound(list, startFull, targetFull);
    var g := GraphOf(list);
    var start, target := Resolve(g, startFull).value, Resolve(g, targetFull).value;
    if start == target {
      assert Connects(g, [start], start, target) && CleanPath(g, [start]);
    } else {
      var p := VersionsOf(Route(list, startFull, targetFull).route);
      assert Connects(g, p, start, target) && CleanPath(g, p);
    }
  }

  /** The converse fails: the search may pick a route that needs a binary where another one would not. */
  lemma {:induction false} CleanRouteMayBeMissed(a: string, x: string, b: string, c: string, t: string)
    requires Distinct(a, x, b, c, t)
    ensures var list := Detour(a, x, b, c, t);
      && Route(list, a, t).Found? && !NeedsNoBinary(Route(list, a, t).route)
      && exists p :: Connects(GraphOf(list), p, a, t) && CleanPath(GraphOf(list), p)
  {
    RouteNeedNotBeShortest(a, x, b, c, t);
    var list := Detour(a, x, b, c, t);
    assert Connects(GraphOf(list), [a, x, t], a, t) && CleanPath(GraphOf(list), [a, x, t]);
    assert |VersionsOf(Route(list, a, t).route)| == 4;
  }
}
