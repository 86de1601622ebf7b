/** Email chains: a graph of letters and links, its normal form, and the check that a chain
    must pass before it is published. */
module EmailChain {
  import Common

  datatype NodeKind = Email | Link
  datatype LinkKind = Custom | Unsubscribe | Subscribe
  datatype Url = NoUrl | Malformed | HttpUrl

  /** A stored name can be missing or empty, or only white space. */
  datatype Name = NoName | Blank | Named

  /** `hasTemplate` says whether the stored template id is not blank. */
  datatype Node = Node(id: string, name: Name, kind: NodeKind, hasTemplate: bool, linkKind: LinkKind, url: Url)

  datatype Edge = Edge(source: string, target: string)

  datatype Chain = Chain(root: string, nodes: seq<Node>, edges: seq<Edge>)

  datatype Result<+T> = Success(value: T) | DuplicateIds

  function Ids(nodes: seq<Node>): set<string> {
    set node | node in nodes :: node.id
  }

  ghost predicate DistinctIds(nodes: seq<Node>) {
    forall i, j :: 0 <= i < j < |nodes| ==> nodes[i].id != nodes[j].id
  }

  // ---- Normal form ----

  /** A missing or empty name becomes the default one, a standard link has no address. */
  function NormalNode(node: Node): (n: Node)
    ensures n.id == node.id && n.kind == node.kind && n.hasTemplate == node.hasTemplate && n.linkKind == node.linkKind
    ensures n.name != NoName && (node.name != NoName ==> n.name == node.name)
    ensures if n.kind == Email || n.linkKind == Custom then n.url == node.url else n.url == NoUrl
  {
    node.(
      name := if node.name.NoName? then Named else node.name,
      url := if node.kind.Link? && !node.linkKind.Custom? then NoUrl else node.url)
  }

  /** Distinct non-empty ids, a root among them, every edge between two of them. */
  ghost predicate Normal(c: Chain) {
    && DistinctIds(c.nodes)
    && "" !in Ids(c.nodes)
    && c.root in Ids(c.nodes)
    && (forall i :: 0 <= i < |c.nodes| ==> c.nodes[i] == NormalNode(c.nodes[i]))
    && (forall i :: 0 <= i < |c.edges| ==> c.edges[i].source in Ids(c.nodes) && c.edges[i].target in Ids(c.nodes))
  }

  function Linked(edges: seq<Edge>, ids: set<string>): seq<Edge> {
    if edges == [] then []
    else
      var last := edges[|edges| - 1];
      Linked(edges[..|edges| - 1], ids) + if last.source in ids && last.target in ids then [last] else []
  }

  predicate IsLinked(e: Edge, ids: set<string>) {
    e.source in ids && e.target in ids
  }

  lemma {:induction false} LinkedEnds(edges: seq<Edge>, ids: set<string>)
    ensures forall i ::
      0 <= i < |Linked(edges, ids)| ==> Linked(edges, ids)[i].source in ids && Linked(edges, ids)[i].target in ids
  {
    if edges != [] {
      LinkedEnds(edges[..|edges| - 1], ids);
    }
  }

  lemma {:induction false} LinkedKeepsAll(edges: seq<Edge>, ids: set<string>)
    requires forall i :: 0 <= i < |edges| ==> IsLinked(edges[i], ids)
    ensures Linked(edges, ids) == edges
  {
    if edges != [] {
      var rest, last := edges[..|edges| - 1], edges[|edges| - 1];
      LinkedKeepsAll(rest, ids);
      assert IsLinked(last, ids) && edges == rest + [last];
    }
  }

  ghost predicate LinksAt(edges: seq<Edge>, ids: set<string>, kept: seq<Edge>, places: seq<nat>) {
    Common.KeptAt(edges, (e: Edge) => e.source in ids && e.target in ids, kept, places)
  }

  lemma {:induction false} LinkedPlaces(edges: seq<Edge>, ids: set<string>) returns (places: seq<nat>)
    ensures LinksAt(edges, ids, Linked(edges, ids), places)
  {
    places := [];
    if edges != [] {
      var rest, last := edges[..|edges| - 1], edges[|edges| - 1];
      var wanted := (e: Edge) => e.source in ids && e.target in ids;
      assert edges == rest + [last];
      var before := LinkedPlaces(rest, ids);
      if wanted(last) {
        Common.PlaceKept(rest, last, wanted, Linked(rest, ids), before);
        places := before + [|rest|];
      } else {
        Common.PlaceDropped(rest, last, wanted, Linked(rest, ids), before);
        assert Linked(edges, ids) == Linked(rest, ids);
        places := before;
      }
    }
  }

  /** Every edge between two of the ids is kept as often as it was there, no other one at all. */
  lemma {:induction false} LinkedCounts(edges: seq<Edge>, ids: set<string>, e: Edge)
    ensures multiset(Linked(edges, ids))[e] == if e.source in ids && e.target in ids then multiset(edges)[e] else 0
  {
    if edges != [] {
      var rest, last := edges[..|edges| - 1], edges[|edges| - 1];
      assert edges == rest + [last];
      LinkedCounts(rest, ids, e);
    }
  }

  /** Exactly the edges between two ids are kept, each as often as it was there, in their order. */
  ghost predicate KeepsLinks(edges: seq<Edge>, ids: set<string>, kept: seq<Edge>) {
    && (exists places :: LinksAt(edges, ids, kept, places))
    && (forall e :: multiset(kept)[e] == if e.source in ids && e.target in ids then multiset(edges)[e] else 0)
  }

  lemma LinkedKeepsLinks(edges: seq<Edge>, ids: set<string>)
    ensures KeepsLinks(edges, ids, Linked(edges, ids))
  {
    var places := LinkedPlaces(edges, ids);
    forall e: Edge
      ensures multiset(Linked(edges, ids))[e] == if e.source in ids && e.target in ids then multiset(edges)[e] else 0
    {
      LinkedCounts(edges, ids, e);
    }
  }

  lemma {:induction false} IdCount(nodes: seq<Node>)
    ensures |Ids(nodes)| <= |nodes|
    ensures |Ids(nodes)| == |nodes| <==> DistinctIds(nodes)
  {
    if nodes != [] {
      var rest, last := nodes[..|nodes| - 1], nodes[|nodes| - 1];
      IdCount(rest);
      assert nodes == rest + [last];
      IdsAppend(rest, last);
      if last.id in Ids(rest) {
        assert Ids(nodes) == Ids(rest);
        var k :| 0 <= k < |rest| && rest[k].id == last.id;
        assert nodes[k].id == nodes[|rest|].id;
      } else {
        DistinctAppend(rest, last);
      }
    }
  }

  lemma IdsAppend(rest: seq<Node>, last: Node)
    ensures Ids(rest + [last]) == Ids(rest) + {last.id}
  {
    forall id | id in Ids(rest) + {last.id}
      ensures id in Ids(rest + [last])
    {
      if id == last.id {
        assert last in rest + [last];
      } else {
        var node :| node in rest && node.id == id;
        assert node in rest + [last];
      }
    }
  }

  lemma DistinctAppend(rest: seq<Node>, last: Node)
    requires last.id !in Ids(rest)
    ensures DistinctIds(rest + [last]) <==> DistinctIds(rest)
  {
    if DistinctIds(rest + [last]) {
      forall i, j | 0 <= i < j < |rest|
        ensures rest[i].id != rest[j].id
      {
        assert (rest + [last])[i] == rest[i] && (rest + [last])[j] == rest[j];
      }
    }
  }

  method NormalizeNodes(nodes: seq<Node>) returns (normal: seq<Node>)
    ensures |normal| == |nodes| && forall i :: 0 <= i < |nodes| ==> normal[i] == NormalNode(nodes[i])
  {
    normal := [];
    for i := 0 to |nodes|
      invariant |normal| == i && forall k :: 0 <= k < i ==> normal[k] == NormalNode(nodes[k])
    {
      normal := normal + [NormalNode(nodes[i])];
    }
  }

  function EmptyChain(freshId: string): Chain {
    Chain(freshId, [Node(freshId, Named, Email, false, Custom, NoUrl)], [])
  }

  /** Normalizing keeps the nodes, drops exactly the dangling edges, and moves a foreign root
      to the first node; it fails exactly on repeated ids; on a normal chain it changes nothing.
      A chain without nodes becomes a single letter with a fresh id. */
  method Normalize(c: Chain, freshId: string) returns (r: Result<Chain>)
    requires "" !in Ids(c.nodes) && freshId != ""
    ensures r.DuplicateIds? <==> !DistinctIds(c.nodes)
    ensures r.Success? ==> Normal(r.value)
    ensures c.nodes == [] ==> r == Success(EmptyChain(freshId))
    ensures c.nodes == []
      ==> && r.value.root == freshId && |r.value.nodes| == 1 && r.value.edges == []
          && r.value.nodes[0].id == freshId && r.value.nodes[0].kind == Email && r.value.nodes[0].name == Named
          && !r.value.nodes[0].hasTemplate
    ensures r.Success? && c.nodes != [] ==> r.value.edges == Linked(c.edges, Ids(c.nodes))
    ensures r.Success? && c.nodes != [] ==> KeepsLinks(c.edges, Ids(c.nodes), r.value.edges)
    ensures r.Success? && c.nodes != []
      ==> |r.value.nodes| == |c.nodes|
          && forall i :: 0 <= i < |c.nodes| ==> r.value.nodes[i] == NormalNode(c.nodes[i])
    ensures r.Success? && c.nodes != [] ==> r.value.root == if c.root in Ids(c.nodes) then c.root else c.nodes[0].id
    ensures Normal(c) ==> r == Success(c)
  {
    var nodes := NormalizeNodes(c.nodes);
    SameIds(nodes, c.nodes);
    var ids := Ids(nodes);
    IdCount(c.nodes);
    if |ids| != |nodes| {
      return DuplicateIds;
    }
    var edges := KeepLinked(c.edges, ids);
    if nodes == [] {
      r := Success(EmptyChain(freshId));
      assert r.value.nodes[0] in r.value.nodes;
      return;
    }
    r := Success(Chain(if c.root in ids then c.root else nodes[0].id, nodes, edges));
    LinkedIsNormal(c, nodes);
    LinkedKeepsLinks(c.edges, ids);
  }

  lemma LinkedIsNormal(c: Chain, nodes: seq<Node>)
    requires c.nodes != [] && DistinctIds(c.nodes) && "" !in Ids(c.nodes)
    requires |nodes| == |c.nodes| && forall i :: 0 <= i < |nodes| ==> nodes[i] == NormalNode(c.nodes[i])
    ensures var ids := Ids(c.nodes);
      var normal := Chain(if c.root in ids then c.root else nodes[0].id, nodes, Linked(c.edges, ids));
      Normal(normal) && (Normal(c) ==> normal == c)
  {
    SameIds(nodes, c.nodes);
    LinkedEnds(c.edges, Ids(c.nodes));
    assert nodes[0] in nodes;
    if Normal(c) {
      assert nodes == c.nodes;
      LinkedKeepsAll(c.edges, Ids(c.nodes));
    }
  }

  method KeepLinked(edges: seq<Edge>, ids: set<string>) returns (kept: seq<Edge>)
    ensures kept == Linked(edges, ids)
  {
    kept := [];
    for i := 0 to |edges|
      invariant kept == Linked(edges[..i], ids)
    {
      assert edges[..i + 1][..i] == edges[..i];
      if edges[i].source !in ids || edges[i].target !in ids {
        continue;
      }
      kept := kept + [edges[i]];
    }
    assert edges[..|edges|] == edges;
  }

  lemma SameIds(a: seq<Node>, b: seq<Node>)
    requires |a| == |b| && forall i :: 0 <= i < |a| ==> a[i].id == b[i].id
    ensures Ids(a) == Ids(b)
    ensures DistinctIds(b) ==> DistinctIds(a)
  {
    forall id | id in Ids(a)
      ensures id in Ids(b)
    {
      var i :| 0 <= i < |a| && a[i].id == id;
      assert b[i] in b;
    }
    forall id | id in Ids(b)
      ensures id in Ids(a)
    {
      var i :| 0 <= i < |b| && b[i].id == id;
      assert a[i] in a;
    }
  }

  // ---- Reachability ----

  /** The blocks one click away from a set of blocks. */
  function After(edges: seq<Edge>, s: set<string>): set<string> {
    if edges == [] then {}
    else
      var last := edges[|edges| - 1];
      After(edges[..|edges| - 1], s) + if last.source in s && last.target != "" then {last.target} else {}
  }

  lemma {:induction false} AfterEdge(edges: seq<Edge>, s: set<string>, e: Edge)
    requires e in edges && e.source in s && e.target != ""
    ensures e.target in After(edges, s)
  {
    var rest, last := edges[..|edges| - 1], edges[|edges| - 1];
    assert edges == rest + [last];
    if e != last {
      AfterEdge(rest, s, e);
    }
  }

  lemma {:induction false} EdgeBefore(edges: seq<Edge>, s: set<string>, v: string) returns (e: Edge)
    requires v in After(edges, s)
    ensures e in edges && e.source in s && e.target == v && v != ""
  {
    var rest, last := edges[..|edges| - 1], edges[|edges| - 1];
    if v in After(rest, s) {
      e := EdgeBefore(rest, s, v);
    } else {
      e := last;
    }
  }

  /** The blocks at most n clicks away from the root. */
  function Within(c: Chain, n: nat): set<string> {
    if n == 0 then (if c.root == "" then {} else {c.root})
    else Within(c, n - 1) + After(c.edges, Within(c, n - 1) * Ids(c.nodes))
  }

  ghost predicate Reached(c: Chain, v: string) {
    exists n: nat :: v in Within(c, n)
  }

  lemma ReachedStep(c: Chain, e: Edge)
    requires e in c.edges && Reached(c, e.source) && e.source in Ids(c.nodes) && e.target != ""
    ensures Reached(c, e.target)
  {
    var n: nat :| e.source in Within(c, n);
    AfterEdge(c.edges, Within(c, n) * Ids(c.nodes), e);
    assert e.target in Within(c, n + 1);
  }

  lemma {:induction false} ClosedCovers(c: Chain, s: set<string>, n: nat)
    requires c.root == "" || c.root in s
    requires forall e :: e in c.edges && e.source in s && e.source in Ids(c.nodes) && e.target != "" ==> e.target in s
    ensures Within(c, n) <= s
  {
    if n > 0 {
      ClosedCovers(c, s, n - 1);
      forall v | v in After(c.edges, Within(c, n - 1) * Ids(c.nodes))
        ensures v in s
      {
        var e := EdgeBefore(c.edges, Within(c, n - 1) * Ids(c.nodes), v);
      }
    }
  }

  // ---- Trees ----

  /** The number of edges into v whose source lies in s. */
  function Arrivals(edges: seq<Edge>, s: set<string>, v: string): nat {
    if edges == [] then 0
    else
      var last := edges[|edges| - 1];
      Arrivals(edges[..|edges| - 1], s, v) + if last.source in s && last.target == v then 1 else 0
  }

  function One(b: bool): nat {
    if b then 1 else 0
  }

  /** How often a walk that follows every edge once out of each block of s comes to v. */
  function Entries(c: Chain, s: set<string>, v: string): nat {
    One(v == c.root) + Arrivals(c.edges, s, v)
  }

  /** Nothing leads into the root, exactly one edge into every other block, and every block
      can be reached. */
  ghost predicate RootedTree(c: Chain) {
    && (forall v :: v in Ids(c.nodes) ==> Arrivals(c.edges, Ids(c.nodes), v) == if v == c.root then 0 else 1)
    && (forall v :: v in Ids(c.nodes) ==> Reached(c, v))
  }

  lemma {:induction false} ArrivalsGrow(edges: seq<Edge>, s: set<string>, t: set<string>, v: string)
    requires s <= t
    ensures Arrivals(edges, s, v) <= Arrivals(edges, t, v)
  {
    if edges != [] {
      ArrivalsGrow(edges[..|edges| - 1], s, t, v);
    }
  }

  function Occurs(stack: seq<string>, v: string): nat {
    if stack == [] then 0
    else Occurs(stack[..|stack| - 1], v) + One(stack[|stack| - 1] == v)
  }

  lemma {:induction false} OccursAppend(a: seq<string>, b: seq<string>, v: string)
    ensures Occurs(a + b, v) == Occurs(a, v) + Occurs(b, v)
  {
    if b == [] {
      assert a + b == a;
    } else {
      assert (a + b)[..|a + b| - 1] == a + b[..|b| - 1];
      OccursAppend(a, b[..|b| - 1], v);
    }
  }

  /** The targets that expanding a block pushes. */
  function Targets(edges: seq<Edge>, source: string): seq<string> {
    if edges == [] then []
    else
      var last := edges[|edges| - 1];
      Targets(edges[..|edges| - 1], source) + if last.source == source then [last.target] else []
  }

  lemma {:induction false} TargetsMember(edges: seq<Edge>, source: string, t: string)
    ensures t in Targets(edges, source) <==> exists e :: e in edges && e.source == source && e.target == t
  {
    if edges != [] {
      var rest, last := edges[..|edges| - 1], edges[|edges| - 1];
      TargetsMember(rest, source, t);
      assert edges == rest + [last];
    }
  }

  /** Expanding a new block adds to the arrivals exactly what it pushes. */
  lemma {:induction false} ExpandArrivals(edges: seq<Edge>, s: set<string>, u: string, v: string)
    requires u !in s
    ensures Arrivals(edges, s + {u}, v) == Arrivals(edges, s, v) + Occurs(Targets(edges, u), v)
  {
    if edges != [] {
      var rest, last := edges[..|edges| - 1], edges[|edges| - 1];
      ExpandArrivals(rest, s, u, v);
      if last.source == u {
        OccursAppend(Targets(rest, u), [last.target], v);
        assert [last.target][..0] == [];
      } else {
        assert Targets(rest, u) + [] == Targets(rest, u);
      }
    }
  }

  lemma {:induction false} EdgeArrives(edges: seq<Edge>, s: set<string>, e: Edge)
    requires e in edges && e.source in s
    ensures Arrivals(edges, s, e.target) > 0
  {
    var rest, last := edges[..|edges| - 1], edges[|edges| - 1];
    assert edges == rest + [last];
    if e != last {
      EdgeArrives(rest, s, e);
    }
  }

  // ---- The walk from the root ----

  ghost function ReachedIds(c: Chain): set<string> {
    set v | v in Ids(c.nodes) && Reached(c, v)
  }

  /** The walk comes to some block a second time. */
  ghost predicate MeetsTwice(c: Chain) {
    exists v :: v in ReachedIds(c) && Entries(c, ReachedIds(c), v) >= 2
  }

  /** Every visit and every pending visit is accounted for by the root or by one followed edge. */
  ghost predicate WalkInv(c: Chain, visited: set<string>, stack: seq<string>) {
    && visited <= ReachedIds(c)
    && (forall v :: v in stack ==> v in ReachedIds(c))
    && (forall v :: Occurs(stack, v) + One(v in visited) == Entries(c, visited, v))
  }

  lemma {:induction false} NoArrivals(edges: seq<Edge>, v: string)
    ensures Arrivals(edges, {}, v) == 0
  {
    if edges != [] {
      NoArrivals(edges[..|edges| - 1], v);
    }
  }

  lemma WalkStart(c: Chain)
    requires Normal(c)
    ensures WalkInv(c, {}, [c.root])
  {
    assert c.root in Within(c, 0);
    assert [c.root][..0] == [];
    forall v
      ensures Occurs([c.root], v) == Entries(c, {}, v)
    {
      NoArrivals(c.edges, v);
    }
  }

  lemma WalkStep(c: Chain, visited: set<string>, rest: seq<string>, u: string)
    requires Normal(c) && WalkInv(c, visited, rest + [u]) && u !in visited
    ensures WalkInv(c, visited + {u}, rest + Targets(c.edges, u))
  {
    var next := Targets(c.edges, u);
    assert u in rest + [u];
    forall v | v in next
      ensures v in ReachedIds(c)
    {
      TargetsMember(c.edges, u, v);
      var e :| e in c.edges && e.source == u && e.target == v;
      ReachedStep(c, e);
    }
    forall v | v in rest
      ensures v in ReachedIds(c)
    {
      assert v in rest + [u];
    }
    forall v
      ensures Occurs(rest + next, v) + One(v in visited + {u}) == Entries(c, visited + {u}, v)
    {
      ExpandArrivals(c.edges, visited, u, v);
      OccursAppend(rest, next, v);
      assert (rest + [u])[..|rest|] == rest;
    }
  }

  /** When nothing is pending the walk has visited exactly the reachable blocks, each once. */
  lemma WalkEnd(c: Chain, visited: set<string>)
    requires Normal(c) && WalkInv(c, visited, [])
    ensures visited == ReachedIds(c) && !MeetsTwice(c)
  {
    forall e | e in c.edges && e.source in visited
      ensures e.target in visited
    {
      EdgeArrives(c.edges, visited, e);
      assert Occurs([], e.target) + One(e.target in visited) == Entries(c, visited, e.target);
    }
    assert Occurs([], c.root) + One(c.root in visited) == Entries(c, visited, c.root);
    forall v | v in ReachedIds(c)
      ensures v in visited
    {
      var n: nat :| v in Within(c, n);
      ClosedCovers(c, visited, n);
    }
    forall v
      ensures Entries(c, visited, v) <= 1
    {
      assert Occurs([], v) + One(v in visited) == Entries(c, visited, v);
    }
  }

  lemma {:induction false} OccursPositive(stack: seq<string>, v: string)
    requires v in stack
    ensures Occurs(stack, v) > 0
  {
    var rest, last := stack[..|stack| - 1], stack[|stack| - 1];
    assert stack == rest + [last];
    if v != last {
      OccursPositive(rest, v);
    }
  }

  lemma WalkRevisit(c: Chain, visited: set<string>, stack: seq<string>, u: string)
    requires WalkInv(c, visited, stack) && u in stack && u in visited
    ensures MeetsTwice(c)
  {
    OccursPositive(stack, u);
    ArrivalsGrow(c.edges, visited, ReachedIds(c), u);
    assert Occurs(stack, u) + One(u in visited) == Entries(c, visited, u);
  }

  method PushTargets(edges: seq<Edge>, current: string, stack: seq<string>) returns (pushed: seq<string>)
    ensures pushed == stack + Targets(edges, current)
  {
    pushed := stack;
    for i := 0 to |edges|
      invariant pushed == stack + Targets(edges[..i], current)
    {
      assert edges[..i + 1][..i] == edges[..i];
      if edges[i].source == current {
        pushed := pushed + [edges[i].target];
      }
    }
    assert edges[..|edges|] == edges;
  }

  /** The depth-first walk.  It reports a revisit exactly when some reachable block has two
      entries, otherwise it visits exactly the reachable blocks; either way it takes at most one
      block more from the stack than there are blocks. */
  method Walk(c: Chain) returns (revisit: bool, visited: set<string>, pops: nat)
    requires Normal(c)
    ensures revisit <==> MeetsTwice(c)
    ensures visited <= ReachedIds(c) && (!revisit ==> visited == ReachedIds(c))
    ensures pops <= |c.nodes| + 1
  {
    var stack := [c.root];
    visited, revisit, pops := {}, false, 0;
    WalkStart(c);
    IdCount(c.nodes);
    while stack != []
      invariant WalkInv(c, visited, stack)
      invariant pops == |visited|
      decreases Ids(c.nodes) - visited
    {
      Common.SubsetSize(visited, Ids(c.nodes));
      var current := stack[|stack| - 1];
      pops := pops + 1;
      if current in visited {
        WalkRevisit(c, visited, stack, current);
        revisit := true;
        return;
      }
      ghost var rest := stack[..|stack| - 1];
      assert stack == rest + [current];
      WalkStep(c, visited, rest, current);
      stack := PushTargets(c.edges, current, stack[..|stack| - 1]);
      assert current in Ids(c.nodes) - visited;
      visited := visited + {current};
    }
    WalkEnd(c, visited);
    Common.SubsetSize(visited, Ids(c.nodes));
  }

  /** A chain is a rooted tree exactly when every block is reachable and the walk never comes
      to a block twice. */
  lemma TreeIffWalkedOnce(c: Chain)
    requires Normal(c)
    ensures RootedTree(c) <==> ReachedIds(c) == Ids(c.nodes) && !MeetsTwice(c)
  {
    var ids := Ids(c.nodes);
    if ReachedIds(c) == ids && !MeetsTwice(c) {
      forall v | v in ids
        ensures Arrivals(c.edges, ids, v) == if v == c.root then 0 else 1
      {
        assert v in ReachedIds(c);
        assert Entries(c, ids, v) <= 1;
        if v != c.root {
          HasPredecessor(c, v);
        }
      }
    }
  }

  lemma HasPredecessor(c: Chain, v: string)
    requires Normal(c) && Reached(c, v) && v != c.root
    ensures Arrivals(c.edges, Ids(c.nodes), v) > 0
  {
    var n: nat :| v in Within(c, n);
    FirstEntry(c, v, n);
  }

  lemma {:induction false} FirstEntry(c: Chain, v: string, n: nat)
    requires Normal(c) && v in Within(c, n) && v != c.root
    ensures Arrivals(c.edges, Ids(c.nodes), v) > 0
  {
    if n > 0 {
      if v in Within(c, n - 1) {
        FirstEntry(c, v, n - 1);
      } else {
        var e := EdgeBefore(c.edges, Within(c, n - 1) * Ids(c.nodes), v);
        EdgeArrives(c.edges, Ids(c.nodes), e);
      }
    }
  }

  // ---- Validation ----

  datatype Problem =
    | UnnamedTarget(id: string)
    | StartBlockCount
    | RootMismatch
    | RootNotLetter
    | NoTemplate(id: string)
    | NoAddress(id: string)
    | BadAddress(id: string)
    | LinkHasChildren(id: string)
    | CycleFound
    | Unreachable(ids: seq<string>)
    | Unlinked(id: string)

  datatype Report = Report(errors: seq<Problem>, warnings: seq<Problem>, chain: Chain)

  predicate Structural(p: Problem) {
    p.StartBlockCount? || p.RootMismatch? || p.CycleFound? || p.Unreachable? || p.Unlinked?
  }

  ghost predicate NoneStructural(errors: seq<Problem>) {
    forall p :: p in errors ==> !Structural(p)
  }

  ghost predicate AllStructural(errors: seq<Problem>) {
    forall p :: p in errors ==> Structural(p)
  }

  /** What a block needs by itself: a letter its template (when strict), a custom link a web
      address, and a link no children. */
  predicate BlockOk(c: Chain, node: Node, strict: bool) {
    match node.kind
    case Email => strict ==> node.hasTemplate
    case Link => (node.linkKind.Custom? ==> node.url.HttpUrl?) && Targets(c.edges, node.id) == []
  }

  ghost predicate NamedTargets(c: Chain) {
    forall e, node :: e in c.edges && node in c.nodes && node.id == e.target ==> node.name.Named?
  }

  ghost predicate RootIsLetter(c: Chain) {
    forall node :: node in c.nodes && node.id == c.root ==> node.kind.Email?
  }

  /** What a chain needs to be published. */
  ghost predicate Publishable(c: Chain, strict: bool) {
    && RootedTree(c)
    && RootIsLetter(c)
    && (forall node :: node in c.nodes ==> BlockOk(c, node, strict))
    && (strict ==> NamedTargets(c))
  }

  /** The strict check refuses names of white space only: missing ones have got their default. */
  lemma OnlyBlankNamesAreRefused(c: Chain, normal: Chain)
    requires |normal.nodes| == |c.nodes| && forall i :: 0 <= i < |c.nodes| ==> normal.nodes[i] == NormalNode(c.nodes[i])
    ensures NamedTargets(normal)
      <==> forall e, node :: e in normal.edges && node in c.nodes && node.id == e.target ==> !node.name.Blank?
  {
    if NamedTargets(normal) {
      forall e, node | e in normal.edges && node in c.nodes && node.id == e.target
        ensures !node.name.Blank?
      {
        assert NormalNode(node) in normal.nodes;
      }
    } else {
      var e, node :| e in normal.edges && node in normal.nodes && node.id == e.target && !node.name.Named?;
      var i :| 0 <= i < |normal.nodes| && normal.nodes[i] == node;
      assert c.nodes[i] in c.nodes && c.nodes[i].name.Blank?;
    }
  }

  // ---- What is reported ----

  /** What is wrong with a block by itself; a missing template is an error only when strict. */
  ghost predicate BlockFault(c: Chain, node: Node, p: Problem) {
    && node in c.nodes
    && match p
       case NoTemplate(id) => node.id == id && node.kind == Email && !node.hasTemplate
       case NoAddress(id) => node.id == id && node.kind == Link && node.linkKind == Custom && node.url == NoUrl
       case BadAddress(id) => node.id == id && node.kind == Link && node.linkKind == Custom && node.url == Malformed
       case LinkHasChildren(id) => node.id == id && node.kind == Link && exists e :: e in c.edges && e.source == id
       case _ => false
  }

  ghost predicate SomeBlockFault(c: Chain, p: Problem) {
    exists node :: BlockFault(c, node, p)
  }

  /** Each problem that is reported about a normal chain; how unreachable blocks are listed is said
      apart. */
  ghost predicate Faulty(c: Chain, strict: bool, p: Problem) {
    match p
    case UnnamedTarget(id) =>
      strict && exists e, node :: e in c.edges && node in c.nodes && e.target == id == node.id && node.name != Named
    case StartBlockCount => |Starts(c)| != 1
    case RootMismatch => |Starts(c)| == 1 && c.root !in Starts(c)
    case RootNotLetter => exists node :: node in c.nodes && node.id == c.root && node.kind == Link
    case NoTemplate(_) => strict && SomeBlockFault(c, p)
    case CycleFound => MeetsTwice(c)
    case Unreachable(_) => false
    case Unlinked(id) => id in Starts(c) && id != c.root
    case _ => SomeBlockFault(c, p)
  }

  /** The blocks that no edge leads into. */
  ghost function Starts(c: Chain): set<string> {
    set node | node in c.nodes && (forall e :: e in c.edges ==> e.target != node.id) :: node.id
  }

  lemma {:induction false} TargetsOfNone(edges: seq<Edge>, source: string)
    ensures Targets(edges, source) == [] <==> forall e :: e in edges ==> e.source != source
  {
    if edges != [] {
      var rest, last := edges[..|edges| - 1], edges[|edges| - 1];
      assert edges == rest + [last];
      TargetsOfNone(rest, source);
    }
  }

  lemma {:induction false} ArrivalsOfNone(edges: seq<Edge>, s: set<string>, v: string)
    requires forall e :: e in edges ==> e.source in s
    ensures Arrivals(edges, s, v) == 0 <==> forall e :: e in edges ==> e.target != v
  {
    if edges != [] {
      var rest, last := edges[..|edges| - 1], edges[|edges| - 1];
      assert edges == rest + [last];
      ArrivalsOfNone(rest, s, v);
    }
  }

  lemma StartsHaveNoArrivals(c: Chain, v: string)
    requires Normal(c)
    ensures v in Starts(c) <==> v in Ids(c.nodes) && Arrivals(c.edges, Ids(c.nodes), v) == 0
  {
    forall e | e in c.edges
      ensures e.source in Ids(c.nodes)
    {
      var i :| 0 <= i < |c.edges| && c.edges[i] == e;
    }
    ArrivalsOfNone(c.edges, Ids(c.nodes), v);
  }

  function FindNode(nodes: seq<Node>, id: string): (node: Node)
    requires id in Ids(nodes)
    ensures node in nodes && node.id == id
  {
    if nodes[0].id == id then nodes[0] else FindNode(nodes[1..], id)
  }

  lemma SameNode(nodes: seq<Node>, a: Node, b: Node)
    requires DistinctIds(nodes) && a in nodes && b in nodes && a.id == b.id
    ensures a == b
  {
  }

  predicate UnnamedAt(c: Chain, k: nat, p: Problem)
    requires Normal(c) && k < |c.edges|
  {
    p == UnnamedTarget(c.edges[k].target) && FindNode(c.nodes, c.edges[k].target).name != Named
  }

  ghost predicate NamesReported(c: Chain, strict: bool, n: nat, errors: seq<Problem>)
    requires Normal(c) && n <= |c.edges|
  {
    forall p :: p in errors <==> strict && exists k :: 0 <= k < n && UnnamedAt(c, k, p)
  }

  lemma NextName(c: Chain, strict: bool, n: nat, errors: seq<Problem>)
    requires Normal(c) && n < |c.edges| && NamesReported(c, strict, n, errors)
    ensures var p := UnnamedTarget(c.edges[n].target);
      NamesReported(c, strict, n + 1, if strict && UnnamedAt(c, n, p) then errors + [p] else errors)
  {
    var next := UnnamedTarget(c.edges[n].target);
    var more := if strict && UnnamedAt(c, n, next) then errors + [next] else errors;
    forall p
      ensures p in more <==> strict && exists k :: 0 <= k < n + 1 && UnnamedAt(c, k, p)
    {
      if strict && exists k :: 0 <= k < n && UnnamedAt(c, k, p) {
        var k :| 0 <= k < n && UnnamedAt(c, k, p);
      }
      assert UnnamedAt(c, n, p) ==> p == next;
    }
  }

  lemma UnnamedIsFaulty(c: Chain, strict: bool, p: Problem)
    requires Normal(c)
    ensures p.UnnamedTarget? && Faulty(c, strict, p)
      <==> strict && exists k :: 0 <= k < |c.edges| && UnnamedAt(c, k, p)
  {
    if p.UnnamedTarget? && Faulty(c, strict, p) {
      var e, node :| e in c.edges && node in c.nodes && e.target == p.id == node.id && node.name != Named;
      var k :| 0 <= k < |c.edges| && c.edges[k] == e;
      SameNode(c.nodes, node, FindNode(c.nodes, e.target));
      assert UnnamedAt(c, k, p);
    }
    if strict && exists k :: 0 <= k < |c.edges| && UnnamedAt(c, k, p) {
      var k :| 0 <= k < |c.edges| && UnnamedAt(c, k, p);
      var node := FindNode(c.nodes, c.edges[k].target);
      assert c.edges[k] in c.edges && node in c.nodes;
    }
  }

  method CheckNames(c: Chain, strict: bool) returns (errors: seq<Problem>)
    requires Normal(c)
    ensures errors == [] <==> (strict ==> NamedTargets(c))
    ensures NoneStructural(errors)
    ensures forall p :: p in errors <==> p.UnnamedTarget? && Faulty(c, strict, p)
  {
    errors := [];
    for i := 0 to |c.edges|
      invariant NoneStructural(errors)
      invariant NamesReported(c, strict, i, errors)
      invariant errors == []
        <==> (strict ==> forall k :: 0 <= k < i ==> FindNode(c.nodes, c.edges[k].target).name.Named?)
    {
      NextName(c, strict, i, errors);
      if strict && !FindNode(c.nodes, c.edges[i].target).name.Named? {
        errors := errors + [UnnamedTarget(c.edges[i].target)];
      }
    }
    forall p
      ensures p in errors <==> p.UnnamedTarget? && Faulty(c, strict, p)
    {
      UnnamedIsFaulty(c, strict, p);
    }
    if errors == [] && strict {
      forall e, node | e in c.edges && node in c.nodes && node.id == e.target
        ensures node.name.Named?
      {
        SameNode(c.nodes, node, FindNode(c.nodes, e.target));
      }
    }
  }

  method CountIncoming(c: Chain) returns (incoming: map<string, nat>)
    requires Normal(c)
    ensures incoming.Keys == Ids(c.nodes)
    ensures forall v :: v in incoming ==> incoming[v] == Arrivals(c.edges, Ids(c.nodes), v)
  {
    incoming := map v | v in Ids(c.nodes) :: 0;
    for i := 0 to |c.edges|
      invariant incoming.Keys == Ids(c.nodes)
      invariant forall v :: v in incoming ==> incoming[v] == Arrivals(c.edges[..i], Ids(c.nodes), v)
    {
      assert c.edges[..i + 1][..i] == c.edges[..i];
      var target := c.edges[i].target;
      incoming := incoming[target := incoming[target] + 1];
    }
    assert c.edges[..|c.edges|] == c.edges;
  }

  function StartBlocks(nodes: seq<Node>, incoming: map<string, nat>): seq<string> {
    if nodes == [] then []
    else
      var last := nodes[|nodes| - 1];
      StartBlocks(nodes[..|nodes| - 1], incoming)
      + if last.id in incoming && incoming[last.id] == 0 then [last.id] else []
  }

  lemma {:induction false} OnlyRootStarts(nodes: seq<Node>, incoming: map<string, nat>, root: string)
    requires DistinctIds(nodes)
    requires forall node :: node in nodes ==> (node.id in incoming && incoming[node.id] == 0 <==> node.id == root)
    ensures StartBlocks(nodes, incoming) == if root in Ids(nodes) then [root] else []
  {
    if nodes != [] {
      var rest, last := nodes[..|nodes| - 1], nodes[|nodes| - 1];
      assert nodes == rest + [last];
      IdsAppend(rest, last);
      OnlyRootStarts(rest, incoming, root);
    }
  }

  lemma TreeStartsAtRoot(c: Chain, incoming: map<string, nat>)
    requires Normal(c) && RootedTree(c) && incoming.Keys == Ids(c.nodes)
    requires forall v :: v in incoming ==> incoming[v] == Arrivals(c.edges, Ids(c.nodes), v)
    ensures StartBlocks(c.nodes, incoming) == [c.root]
  {
    OnlyRootStarts(c.nodes, incoming, c.root);
  }

  method ListStartBlocks(nodes: seq<Node>, incoming: map<string, nat>) returns (roots: seq<string>)
    ensures roots == StartBlocks(nodes, incoming)
  {
    roots := [];
    for i := 0 to |nodes|
      invariant roots == StartBlocks(nodes[..i], incoming)
    {
      assert nodes[..i + 1][..i] == nodes[..i];
      var id := nodes[i].id;
      if id in incoming && incoming[id] == 0 {
        roots := roots + [id];
      }
    }
    assert nodes[..|nodes|] == nodes;
  }

  lemma {:induction false} StartBlockMember(nodes: seq<Node>, incoming: map<string, nat>, v: string)
    ensures v in StartBlocks(nodes, incoming) <==> v in Ids(nodes) && v in incoming && incoming[v] == 0
  {
    if nodes != [] {
      var rest, last := nodes[..|nodes| - 1], nodes[|nodes| - 1];
      assert nodes == rest + [last];
      IdsAppend(rest, last);
      StartBlockMember(rest, incoming, v);
    }
  }

  lemma {:induction false} StartBlocksCounted(nodes: seq<Node>, incoming: map<string, nat>)
    requires DistinctIds(nodes)
    ensures |StartBlocks(nodes, incoming)| == |set v | v in StartBlocks(nodes, incoming)|
  {
    if nodes != [] {
      var rest, last := nodes[..|nodes| - 1], nodes[|nodes| - 1];
      assert nodes == rest + [last];
      StartBlocksCounted(rest, incoming);
      StartBlockMember(rest, incoming, last.id);
      var a := StartBlocks(rest, incoming);
      if last.id in incoming && incoming[last.id] == 0 {
        assert last.id !in a;
        assert StartBlocks(nodes, incoming) == a + [last.id];
        assert (set v | v in a + [last.id]) == (set v | v in a) + {last.id};
      } else {
        assert StartBlocks(nodes, incoming) == a;
      }
    }
  }

  lemma StartBlocksAreStarts(c: Chain, incoming: map<string, nat>)
    requires Normal(c) && incoming.Keys == Ids(c.nodes)
    requires forall v :: v in incoming ==> incoming[v] == Arrivals(c.edges, Ids(c.nodes), v)
    ensures (set v | v in StartBlocks(c.nodes, incoming)) == Starts(c)
    ensures |StartBlocks(c.nodes, incoming)| == |Starts(c)|
  {
    StartBlocksCounted(c.nodes, incoming);
    forall v
      ensures v in StartBlocks(c.nodes, incoming) <==> v in Starts(c)
    {
      StartBlockMember(c.nodes, incoming, v);
      StartsHaveNoArrivals(c, v);
    }
  }

  /** The two checks on start blocks; neither complains about a tree. */
  method CheckStart(c: Chain, incoming: map<string, nat>) returns (errors: seq<Problem>)
    requires Normal(c) && incoming.Keys == Ids(c.nodes)
    requires forall v :: v in incoming ==> incoming[v] == Arrivals(c.edges, Ids(c.nodes), v)
    ensures RootedTree(c) ==> errors == []
    ensures errors == [] <==> StartBlocks(c.nodes, incoming) == [c.root]
    ensures AllStructural(errors) && CycleFound !in errors
    ensures forall p :: p in errors <==> (p.StartBlockCount? || p.RootMismatch?) && Faulty(c, true, p)
  {
    var roots := ListStartBlocks(c.nodes, incoming);
    StartBlocksAreStarts(c, incoming);
    assert |roots| == 1 ==> (c.root in Starts(c) <==> c.root in roots);
    if RootedTree(c) {
      TreeStartsAtRoot(c, incoming);
    }
    if |roots| != 1 {
      errors := [StartBlockCount];
    } else if roots[0] != c.root {
      errors := [RootMismatch];
    } else {
      errors := [];
    }
  }

  method CheckRoot(c: Chain) returns (errors: seq<Problem>)
    requires Normal(c)
    ensures errors == [] <==> RootIsLetter(c)
    ensures NoneStructural(errors)
    ensures forall p :: p in errors <==> p.RootNotLetter? && Faulty(c, true, p)
  {
    var root := FindNode(c.nodes, c.root);
    forall node | node in c.nodes && node.id == c.root
      ensures node == root
    {
      SameNode(c.nodes, node, root);
    }
    errors := if root.kind.Email? then [] else [RootNotLetter];
  }

  /** The problems of the first blocks, warnings apart. */
  ghost predicate BlocksReported(c: Chain, strict: bool, n: nat, errors: seq<Problem>, warnings: seq<Problem>)
    requires n <= |c.nodes|
  {
    && (forall p ::
      p in errors <==> (p.NoTemplate? ==> strict) && exists k :: 0 <= k < n && BlockFault(c, c.nodes[k], p))
    && (forall p ::
      p in warnings <==> p.NoTemplate? && !strict && exists k :: 0 <= k < n && BlockFault(c, c.nodes[k], p))
  }

  lemma NextBlock(
      c: Chain, strict: bool, n: nat, errors: seq<Problem>, warnings: seq<Problem>, more: seq<Problem>,
      warned: seq<Problem>)
    requires n < |c.nodes| && BlocksReported(c, strict, n, errors, warnings)
    requires forall p :: p in more <==> p in errors || ((p.NoTemplate? ==> strict) && BlockFault(c, c.nodes[n], p))
    requires forall p :: p in warned <==> p in warnings || (p.NoTemplate? && !strict && BlockFault(c, c.nodes[n], p))
    ensures BlocksReported(c, strict, n + 1, more, warned)
  {
  }

  lemma AllBlocks(c: Chain, strict: bool, errors: seq<Problem>, warnings: seq<Problem>)
    requires BlocksReported(c, strict, |c.nodes|, errors, warnings)
    ensures forall p :: p in errors <==> (p.NoTemplate? ==> strict) && SomeBlockFault(c, p)
    ensures forall p :: p in warnings <==> p.NoTemplate? && !strict && SomeBlockFault(c, p)
  {
    forall p
      ensures SomeBlockFault(c, p) <==> exists k :: 0 <= k < |c.nodes| && BlockFault(c, c.nodes[k], p)
    {
      if SomeBlockFault(c, p) {
        var node :| BlockFault(c, node, p);
        var k :| 0 <= k < |c.nodes| && c.nodes[k] == node;
        assert BlockFault(c, c.nodes[k], p);
      }
    }
  }

  method CheckBlock(c: Chain, node: Node, strict: bool) returns (errors: seq<Problem>, warnings: seq<Problem>)
    requires node in c.nodes
    ensures errors == [] <==> BlockOk(c, node, strict)
    ensures NoneStructural(errors)
    ensures forall p :: p in errors <==> (p.NoTemplate? ==> strict) && BlockFault(c, node, p)
    ensures forall p :: p in warnings <==> p.NoTemplate? && !strict && BlockFault(c, node, p)
  {
    errors, warnings := [], [];
    TargetsOfNone(c.edges, node.id);
    if node.kind.Email? {
      if !node.hasTemplate {
        if strict {
          errors := errors + [NoTemplate(node.id)];
        } else {
          warnings := warnings + [NoTemplate(node.id)];
        }
      }
    } else {
      if node.linkKind.Custom? {
        if node.url.NoUrl? {
          errors := errors + [NoAddress(node.id)];
        } else if node.url.Malformed? {
          errors := errors + [BadAddress(node.id)];
        }
      }
      if Targets(c.edges, node.id) != [] {
        errors := errors + [LinkHasChildren(node.id)];
      }
    }
  }

  method CheckBlocks(c: Chain, strict: bool) returns (errors: seq<Problem>, warnings: seq<Problem>)
    requires Normal(c)
    ensures errors == [] <==> forall node :: node in c.nodes ==> BlockOk(c, node, strict)
    ensures NoneStructural(errors)
    ensures forall p :: p in errors <==> (p.NoTemplate? ==> strict) && SomeBlockFault(c, p)
    ensures forall p :: p in warnings <==> p.NoTemplate? && !strict && SomeBlockFault(c, p)
  {
    errors, warnings := [], [];
    for i := 0 to |c.nodes|
      invariant NoneStructural(errors)
      invariant BlocksReported(c, strict, i, errors, warnings)
      invariant errors == [] <==> forall k :: 0 <= k < i ==> BlockOk(c, c.nodes[k], strict)
    {
      var more, warned := CheckBlock(c, c.nodes[i], strict);
      NoneOfBoth(errors, more);
      NextBlock(c, strict, i, errors, warnings, errors + more, warnings + warned);
      errors, warnings := errors + more, warnings + warned;
    }
    AllBlocks(c, strict, errors, warnings);
  }

  /** The ids outside a set, in the order of their blocks. */
  function Outside(nodes: seq<Node>, inside: set<string>): seq<string> {
    if nodes == [] then []
    else
      var last := nodes[|nodes| - 1];
      Outside(nodes[..|nodes| - 1], inside) + if last.id in inside then [] else [last.id]
  }

  lemma {:induction false} OutsideMember(nodes: seq<Node>, inside: set<string>, v: string)
    ensures v in Outside(nodes, inside) <==> v in Ids(nodes) && v !in inside
  {
    if nodes != [] {
      var rest, last := nodes[..|nodes| - 1], nodes[|nodes| - 1];
      assert nodes == rest + [last];
      IdsAppend(rest, last);
      OutsideMember(rest, inside, v);
    }
  }

  method ListOutside(nodes: seq<Node>, inside: set<string>) returns (missing: seq<string>)
    ensures missing == Outside(nodes, inside)
  {
    missing := [];
    for i := 0 to |nodes|
      invariant missing == Outside(nodes[..i], inside)
    {
      assert nodes[..i + 1][..i] == nodes[..i];
      if nodes[i].id !in inside {
        missing := missing + [nodes[i].id];
      }
    }
    assert nodes[..|nodes|] == nodes;
  }

  /** A walk that comes to a block twice stops there, so what it calls unreachable then contains the
      unreachable blocks but can contain reachable ones. */
  method CheckReach(c: Chain) returns (errors: seq<Problem>)
    requires Normal(c)
    ensures errors == [] <==> RootedTree(c)
    ensures CycleFound in errors <==> MeetsTwice(c)
    ensures AllStructural(errors)
    ensures forall p :: p in errors ==> p.CycleFound? || p.Unreachable?
    ensures ReachReported(c, errors)
  {
    var revisit, visited, _ := Walk(c);
    var missing := ListOutside(c.nodes, visited);
    errors := (if revisit then [CycleFound] else []) + (if missing == [] then [] else [Unreachable(missing)]);
    ReachErrors(c, revisit, visited);
  }

  lemma ReachErrors(c: Chain, revisit: bool, visited: set<string>)
    requires Normal(c) && (revisit <==> MeetsTwice(c))
    requires visited <= ReachedIds(c) && (!revisit ==> visited == ReachedIds(c))
    ensures var missing := Outside(c.nodes, visited);
      var errors := (if revisit then [CycleFound] else []) + (if missing == [] then [] else [Unreachable(missing)]);
      (errors == [] <==> RootedTree(c)) && ReachReported(c, errors)
  {
    var missing := Outside(c.nodes, visited);
    var errors := (if revisit then [CycleFound] else []) + (if missing == [] then [] else [Unreachable(missing)]);
    forall v
      ensures v in missing <==> v in Ids(c.nodes) && v !in visited
    {
      OutsideMember(c.nodes, visited, v);
    }
    forall v | v in Ids(c.nodes) && v !in ReachedIds(c)
      ensures ListedUnreachable(v, errors)
    {
      assert Unreachable(missing) in errors && v in missing;
    }
    assert missing != [] ==> missing[0] in missing;
    TreeIffWalkedOnce(c);
  }

  /** Unless a cycle is reported, exactly the unreachable blocks are listed, in one report; with
      one, at least those are. */
  ghost predicate ReachReported(c: Chain, errors: seq<Problem>) {
    && (!MeetsTwice(c) ==> forall ids ::
          Unreachable(ids) in errors <==> ids == Outside(c.nodes, ReachedIds(c)) && ids != [])
    && (forall v :: v in Ids(c.nodes) && v !in ReachedIds(c) ==> ListedUnreachable(v, errors))
  }

  ghost predicate ListedUnreachable(v: string, errors: seq<Problem>) {
    exists ids :: Unreachable(ids) in errors && v in ids
  }

  predicate UnlinkedAt(c: Chain, incoming: map<string, nat>, k: nat, p: Problem)
    requires k < |c.nodes|
  {
    var id := c.nodes[k].id;
    p == Unlinked(id) && id != c.root && id in incoming && incoming[id] == 0
  }

  ghost predicate UnlinkedReported(c: Chain, incoming: map<string, nat>, n: nat, errors: seq<Problem>)
    requires n <= |c.nodes|
  {
    forall p :: p in errors <==> exists k :: 0 <= k < n && UnlinkedAt(c, incoming, k, p)
  }

  lemma NextUnlinked(c: Chain, incoming: map<string, nat>, n: nat, errors: seq<Problem>)
    requires n < |c.nodes| && UnlinkedReported(c, incoming, n, errors)
    ensures var p := Unlinked(c.nodes[n].id);
      UnlinkedReported(c, incoming, n + 1, if UnlinkedAt(c, incoming, n, p) then errors + [p] else errors)
  {
    assert forall p :: UnlinkedAt(c, incoming, n, p) ==> p == Unlinked(c.nodes[n].id);
  }

  method CheckUnlinked(c: Chain, incoming: map<string, nat>) returns (errors: seq<Problem>)
    requires Normal(c) && incoming.Keys == Ids(c.nodes)
    requires forall v :: v in incoming ==> incoming[v] == Arrivals(c.edges, Ids(c.nodes), v)
    ensures errors == []
      <==> forall node :: node in c.nodes && node.id != c.root ==> Arrivals(c.edges, Ids(c.nodes), node.id) > 0
    ensures AllStructural(errors) && CycleFound !in errors
    ensures forall p :: p in errors <==> p.Unlinked? && Faulty(c, true, p)
  {
    errors := [];
    for i := 0 to |c.nodes|
      invariant errors == [] <==> forall k :: 0 <= k < i && c.nodes[k].id != c.root ==> incoming[c.nodes[k].id] > 0
      invariant AllStructural(errors) && CycleFound !in errors
      invariant UnlinkedReported(c, incoming, i, errors)
    {
      var id := c.nodes[i].id;
      NextUnlinked(c, incoming, i, errors);
      if id != c.root && incoming[id] == 0 {
        errors := errors + [Unlinked(id)];
      }
    }
    forall p
      ensures p in errors <==> p.Unlinked? && Faulty(c, true, p)
    {
      UnlinkedIsFaulty(c, incoming, p);
    }
  }

  lemma UnlinkedIsFaulty(c: Chain, incoming: map<string, nat>, p: Problem)
    requires Normal(c) && incoming.Keys == Ids(c.nodes)
    requires forall v :: v in incoming ==> incoming[v] == Arrivals(c.edges, Ids(c.nodes), v)
    ensures p.Unlinked? && Faulty(c, true, p)
      <==> exists k :: 0 <= k < |c.nodes| && UnlinkedAt(c, incoming, k, p)
  {
    if p.Unlinked? {
      StartsHaveNoArrivals(c, p.id);
      if p.id in Ids(c.nodes) {
        var k :| 0 <= k < |c.nodes| && c.nodes[k].id == p.id;
        assert p.id in Starts(c) && p.id != c.root ==> UnlinkedAt(c, incoming, k, p);
      }
    }
  }

  lemma NoneOfBoth(a: seq<Problem>, b: seq<Problem>)
    ensures NoneStructural(a + b) <==> NoneStructural(a) && NoneStructural(b)
  {
    if NoneStructural(a + b) {
      forall p | p in a
        ensures !Structural(p)
      {
        assert p in a + b;
      }
      forall p | p in b
        ensures !Structural(p)
      {
        assert p in a + b;
      }
    }
  }

  method ValidateNormal(c: Chain, strict: bool) returns (report: Report)
    requires Normal(c)
    ensures report.chain == c
    ensures NoneStructural(report.errors) <==> RootedTree(c)
    ensures report.errors == [] <==> Publishable(c, strict)
    ensures CycleFound in report.errors <==> MeetsTwice(c)
    ensures Reports(c, strict, report)
  {
    var names := CheckNames(c, strict);
    var incoming := CountIncoming(c);
    var start := CheckStart(c, incoming);
    var root := CheckRoot(c);
    var blocks, warnings := CheckBlocks(c, strict);
    var reach := CheckReach(c);
    var unlinked := CheckUnlinked(c, incoming);
    Verdict(names, start, root, blocks, reach, unlinked);
    report := Report(names + start + root + blocks + reach + unlinked, warnings, c);
    ReportsAll(c, strict, names, start, root, blocks, reach, unlinked, warnings);
  }

  /** Exactly the problems that are there are reported, each under its own name; a missing template
      is a warning unless the check is strict. */
  ghost predicate Reports(c: Chain, strict: bool, report: Report) {
    && (forall p: Problem :: !p.Unreachable? ==> (p in report.errors <==> Faulty(c, strict, p)))
    && ReachReported(c, report.errors)
    && (forall p :: p in report.warnings <==> p.NoTemplate? && !strict && SomeBlockFault(c, p))
  }

  lemma ReportsAll(
      c: Chain, strict: bool, names: seq<Problem>, start: seq<Problem>, root: seq<Problem>, blocks: seq<Problem>,
      reach: seq<Problem>, unlinked: seq<Problem>, warnings: seq<Problem>)
    requires forall p :: p in names <==> p.UnnamedTarget? && Faulty(c, strict, p)
    requires forall p :: p in start <==> (p.StartBlockCount? || p.RootMismatch?) && Faulty(c, true, p)
    requires forall p :: p in root <==> p.RootNotLetter? && Faulty(c, true, p)
    requires forall p :: p in blocks <==> (p.NoTemplate? ==> strict) && SomeBlockFault(c, p)
    requires forall p :: p in reach ==> p.CycleFound? || p.Unreachable?
    requires (CycleFound in reach <==> MeetsTwice(c)) && ReachReported(c, reach)
    requires forall p :: p in unlinked <==> p.Unlinked? && Faulty(c, true, p)
    requires forall p :: p in warnings <==> p.NoTemplate? && !strict && SomeBlockFault(c, p)
    ensures Reports(c, strict, Report(names + start + root + blocks + reach + unlinked, warnings, c))
  {
    var errors := names + start + root + blocks + reach + unlinked;
    forall p
      ensures p in errors <==>
        p in names || p in start || p in root || p in blocks || p in reach || p in unlinked
    {
    }
    forall ids
      ensures Unreachable(ids) in errors <==> Unreachable(ids) in reach
    {
    }
    forall v | v in Ids(c.nodes) && v !in ReachedIds(c)
      ensures ListedUnreachable(v, errors)
    {
      assert ListedUnreachable(v, reach);
    }
  }

  /** No structural problem is reported if and only if the normal form is a tree rooted at its
      root, and nothing at all is reported if and only if it can be published. */
  method Validate(chain: Chain, strict: bool, freshId: string) returns (r: Result<Report>)
    requires "" !in Ids(chain.nodes) && freshId != ""
    ensures r.DuplicateIds? <==> !DistinctIds(chain.nodes)
    ensures r.Success? ==> Normal(r.value.chain)
    ensures r.Success? && Normal(chain) ==> r.value.chain == chain
    ensures r.Success? ==> (NoneStructural(r.value.errors) <==> RootedTree(r.value.chain))
    ensures r.Success? ==> (r.value.errors == [] <==> Publishable(r.value.chain, strict))
    ensures r.Success? ==> (CycleFound in r.value.errors <==> MeetsTwice(r.value.chain))
    ensures r.Success? ==> Reports(r.value.chain, strict, r.value)
  {
    var normalized := Normalize(chain, freshId);
    if normalized.DuplicateIds? {
      return DuplicateIds;
    }
    var report := ValidateNormal(normalized.value, strict);
    r := Success(report);
  }

  /** The reports of the checks combined: only the structural ones decide about structure. */
  lemma Verdict(
      names: seq<Problem>, start: seq<Problem>, root: seq<Problem>, blocks: seq<Problem>, reach: seq<Problem>,
      unlinked: seq<Problem>)
    requires NoneStructural(names) && NoneStructural(root) && NoneStructural(blocks)
    requires AllStructural(start) && AllStructural(reach) && AllStructural(unlinked)
    requires CycleFound !in start && CycleFound !in unlinked
    ensures NoneStructural(names + start + root + blocks + reach + unlinked)
      <==> start == [] && reach == [] && unlinked == []
    ensures names + start + root + blocks + reach + unlinked == []
      <==> names == [] && start == [] && root == [] && blocks == [] && reach == [] && unlinked == []
    ensures CycleFound in names + start + root + blocks + reach + unlinked <==> CycleFound in reach
  {
    NoneOfBoth(names, start);
    NoneOfBoth(names + start, root);
    NoneOfBoth(names + start + root, blocks);
    NoneOfBoth(names + start + root + blocks, reach);
    NoneOfBoth(names + start + root + blocks + reach, unlinked);
    assert start != [] ==> start[0] in start;
    assert reach != [] ==> reach[0] in reach;
    assert unlinked != [] ==> unlinked[0] in unlinked;
  }

  // ---- Consequences ----

  function TotalArrivals(nodes: seq<Node>, edges: seq<Edge>, s: set<string>): nat {
    if nodes == [] then 0
    else TotalArrivals(nodes[..|nodes| - 1], edges, s) + Arrivals(edges, s, nodes[|nodes| - 1].id)
  }

  lemma {:induction false} OneMoreArrival(nodes: seq<Node>, edges: seq<Edge>, last: Edge, s: set<string>)
    requires DistinctIds(nodes) && last.source in s
    ensures TotalArrivals(nodes, edges + [last], s) == TotalArrivals(nodes, edges, s) + One(last.target in Ids(nodes))
  {
    if nodes != [] {
      var rest, node := nodes[..|nodes| - 1], nodes[|nodes| - 1];
      assert nodes == rest + [node];
      OneMoreArrival(rest, edges, last, s);
      IdsAppend(rest, node);
      assert (edges + [last])[..|edges|] == edges;
    }
  }

  lemma {:induction false} NoEdgesNoArrivals(nodes: seq<Node>, s: set<string>)
    ensures TotalArrivals(nodes, [], s) == 0
  {
    if nodes != [] {
      NoEdgesNoArrivals(nodes[..|nodes| - 1], s);
    }
  }

  lemma {:induction false} EveryEdgeArrives(nodes: seq<Node>, edges: seq<Edge>)
    requires DistinctIds(nodes)
    requires forall e :: e in edges ==> e.source in Ids(nodes) && e.target in Ids(nodes)
    ensures TotalArrivals(nodes, edges, Ids(nodes)) == |edges|
  {
    if edges == [] {
      NoEdgesNoArrivals(nodes, Ids(nodes));
    } else {
      var rest, last := edges[..|edges| - 1], edges[|edges| - 1];
      assert edges == rest + [last];
      EveryEdgeArrives(nodes, rest);
      OneMoreArrival(nodes, rest, last, Ids(nodes));
    }
  }

  lemma {:induction false} TreeArrivals(c: Chain, nodes: seq<Node>)
    requires RootedTree(c) && DistinctIds(nodes) && forall node :: node in nodes ==> node in c.nodes
    ensures TotalArrivals(nodes, c.edges, Ids(c.nodes)) + One(c.root in Ids(nodes)) == |nodes|
  {
    if nodes != [] {
      var rest, node := nodes[..|nodes| - 1], nodes[|nodes| - 1];
      assert nodes == rest + [node];
      TreeArrivals(c, rest);
      IdsAppend(rest, node);
      assert node in nodes;
    }
  }

  /** A chain without structural problems has one edge less than it has blocks. */
  lemma TreeEdgeCount(c: Chain)
    requires Normal(c) && RootedTree(c)
    ensures |c.edges| == |c.nodes| - 1
  {
    EveryEdgeArrives(c.nodes, c.edges);
    TreeArrivals(c, c.nodes);
  }

  /** What is reported as a cycle need not be one: two branches that join again are enough. */
  lemma JoiningBranchesAreReportedAsCycle(c: Chain, a: Edge, b: Edge)
    requires Normal(c) && a in c.edges && b in c.edges && a != b && a.target == b.target
    requires Reached(c, a.source) && Reached(c, b.source)
    ensures MeetsTwice(c)
  {
    ReachedStep(c, a);
    TwoArrivals(c.edges, ReachedIds(c), a, b);
    assert a.target in ReachedIds(c);
  }

  lemma {:induction false} TwoArrivals(edges: seq<Edge>, s: set<string>, a: Edge, b: Edge)
    requires a in edges && b in edges && a != b && a.target == b.target && a.source in s && b.source in s
    ensures Arrivals(edges, s, a.target) >= 2
  {
    var rest, last := edges[..|edges| - 1], edges[|edges| - 1];
    assert edges == rest + [last];
    if last == a {
      EdgeArrives(rest, s, b);
    } else if last == b {
      EdgeArrives(rest, s, a);
    } else {
      TwoArrivals(rest, s, a, b);
    }
  }
}
