/** The order in which the letters of a chain are previewed: breadth first from the root,
    then the letters the walk did not come to. */
module ChainPreview {
  import Common
  import opened EmailChain

  // ---- Distance from the root ----

  lemma {:induction false} WithinGrows(c: Chain, m: nat, n: nat)
    requires m <= n
    ensures Within(c, m) <= Within(c, n)
    decreases n
  {
    if m < n {
      WithinGrows(c, m, n - 1);
    }
  }

  ghost function Least(c: Chain, v: string, n: nat): (m: nat)
    requires v in Within(c, n)
    ensures m <= n && v in Within(c, m) && (m > 0 ==> v !in Within(c, m - 1))
  {
    if n > 0 && v in Within(c, n - 1) then Least(c, v, n - 1) else n
  }

  /** The number of clicks from the root. */
  ghost function Level(c: Chain, v: string): nat
    requires Reached(c, v)
  {
    var n: nat :| v in Within(c, n);
    Least(c, v, n)
  }

  /** The level is the least distance within which the block lies. */
  lemma LevelIsLeast(c: Chain, v: string, n: nat)
    requires Reached(c, v)
    ensures v in Within(c, n) <==> Level(c, v) <= n
  {
    var k: nat :| v in Within(c, k) && Level(c, v) == Least(c, v, k);
    var m := Least(c, v, k);
    if m <= n {
      WithinGrows(c, m, n);
    } else {
      WithinGrows(c, n, m - 1);
    }
  }

  lemma RootLevel(c: Chain)
    requires c.root != ""
    ensures Reached(c, c.root) && Level(c, c.root) == 0
  {
    assert c.root in Within(c, 0);
    LevelIsLeast(c, c.root, 0);
  }

  lemma LevelStep(c: Chain, e: Edge)
    requires e in c.edges && Reached(c, e.source) && e.source in Ids(c.nodes) && e.target != ""
    ensures Reached(c, e.target) && Level(c, e.target) <= Level(c, e.source) + 1
  {
    var n := Level(c, e.source);
    LevelIsLeast(c, e.source, n);
    AfterEdge(c.edges, Within(c, n) * Ids(c.nodes), e);
    assert e.target in Within(c, n + 1);
    LevelIsLeast(c, e.target, n + 1);
  }

  lemma LevelZero(c: Chain, v: string)
    requires Reached(c, v) && Level(c, v) == 0
    ensures v == c.root != ""
  {
    LevelIsLeast(c, v, 0);
  }

  /** A block below the root has a predecessor one level up. */
  lemma Predecessor(c: Chain, v: string) returns (e: Edge)
    requires Reached(c, v) && Level(c, v) > 0
    ensures e in c.edges && e.source in Ids(c.nodes) && e.target == v && v != ""
    ensures Reached(c, e.source) && Level(c, e.source) == Level(c, v) - 1
  {
    var n := Level(c, v);
    LevelIsLeast(c, v, n);
    LevelIsLeast(c, v, n - 1);
    e := EdgeBefore(c.edges, Within(c, n - 1) * Ids(c.nodes), v);
    LevelIsLeast(c, e.source, n - 1);
    LevelStep(c, e);
  }

  lemma OnlyEdgeInto(c: Chain, a: Edge, b: Edge)
    requires !MeetsTwice(c) && a in c.edges && b in c.edges && a.target == b.target
    requires a.source in ReachedIds(c) && b.source in ReachedIds(c) && a.target in ReachedIds(c)
    ensures a == b && a.target != c.root
  {
    assert Entries(c, ReachedIds(c), a.target) <= 1;
    EdgeArrives(c.edges, ReachedIds(c), a);
    if a != b {
      TwoArrivals(c.edges, ReachedIds(c), a, b);
    }
  }

  /** When no block is met twice, every edge leads exactly one level down: there is no cycle. */
  lemma EdgesLeadDown(c: Chain, e: Edge)
    requires Normal(c) && !MeetsTwice(c) && e in c.edges && Reached(c, e.source)
    ensures Reached(c, e.target) && Level(c, e.target) == Level(c, e.source) + 1
  {
    LevelStep(c, e);
    OnlyEdgeInto(c, e, e);
    if Level(c, e.target) == 0 {
      LevelZero(c, e.target);
    } else {
      var p := Predecessor(c, e.target);
      OnlyEdgeInto(c, p, e);
    }
  }

  // ---- The preview order ----

  /** The letters of a list of blocks that are not in a set, in the same order. */
  function Letters(nodes: seq<Node>, except: set<string>): seq<Node> {
    if nodes == [] then []
    else
      var last := nodes[|nodes| - 1];
      Letters(nodes[..|nodes| - 1], except) + if last.kind.Email? && last.id !in except then [last] else []
  }

  lemma {:induction false} LettersMember(nodes: seq<Node>, except: set<string>, node: Node)
    ensures node in Letters(nodes, except) <==> node in nodes && node.kind.Email? && node.id !in except
  {
    if nodes != [] {
      var rest, last := nodes[..|nodes| - 1], nodes[|nodes| - 1];
      assert nodes == rest + [last];
      LettersMember(rest, except, node);
    }
  }

  lemma {:induction false} LettersDistinct(nodes: seq<Node>, except: set<string>)
    requires DistinctIds(nodes)
    ensures DistinctIds(Letters(nodes, except))
  {
    if nodes != [] {
      var rest, last := nodes[..|nodes| - 1], nodes[|nodes| - 1];
      assert nodes == rest + [last];
      LettersDistinct(rest, except);
      forall node | node in Letters(rest, except)
        ensures node.id != last.id
      {
        LettersMember(rest, except, node);
      }
    }
  }

  lemma {:induction false} SameLetters(nodes: seq<Node>, a: set<string>, b: set<string>)
    requires forall node :: node in nodes ==> (node.id in a <==> node.id in b)
    ensures Letters(nodes, a) == Letters(nodes, b)
  {
    if nodes != [] {
      var rest, last := nodes[..|nodes| - 1], nodes[|nodes| - 1];
      assert nodes == rest + [last];
      SameLetters(rest, a, b);
    }
  }

  /** The block an id stands for: the last one stored under it. */
  function Block(nodes: seq<Node>, id: string): (node: Node)
    requires id in Ids(nodes)
    ensures node in nodes && node.id == id
  {
    var rest, last := nodes[..|nodes| - 1], nodes[|nodes| - 1];
    if last.id == id then last
    else
      assert nodes == rest + [last];
      Block(rest, id)
  }

  ghost predicate IsBlock(c: Chain, node: Node) {
    node.id in Ids(c.nodes) && node == Block(c.nodes, node.id)
  }

  /** No later block is stored under the id. */
  lemma {:induction false} BlockIsLast(nodes: seq<Node>, id: string) returns (k: nat)
    requires id in Ids(nodes)
    ensures k < |nodes| && nodes[k] == Block(nodes, id) && forall i :: k < i < |nodes| ==> nodes[i].id != id
  {
    var rest, last := nodes[..|nodes| - 1], nodes[|nodes| - 1];
    if last.id == id {
      k := |nodes| - 1;
    } else {
      assert nodes == rest + [last];
      k := BlockIsLast(rest, id);
    }
  }

  ghost predicate LettersAt(nodes: seq<Node>, except: set<string>, letters: seq<Node>, places: seq<nat>) {
    Common.KeptAt(nodes, (node: Node) => node.kind == Email && node.id !in except, letters, places)
  }

  /** The other letters keep the order in which they are stored. */
  lemma {:induction false} LettersKeepOrder(nodes: seq<Node>, except: set<string>) returns (places: seq<nat>)
    ensures LettersAt(nodes, except, Letters(nodes, except), places)
  {
    places := [];
    if nodes != [] {
      var rest, last := nodes[..|nodes| - 1], nodes[|nodes| - 1];
      var wanted := (node: Node) => node.kind == Email && node.id !in except;
      assert nodes == rest + [last];
      var before := LettersKeepOrder(rest, except);
      if wanted(last) {
        Common.PlaceKept(rest, last, wanted, Letters(rest, except), before);
        places := before + [|rest|];
      } else {
        Common.PlaceDropped(rest, last, wanted, Letters(rest, except), before);
        assert Letters(nodes, except) == Letters(rest, except);
        places := before;
      }
    }
  }

  /** First, by distance, the letters that reachable ids stand for, each once; then the letters
      under all other ids, in stored order. */
  ghost predicate PreviewOrder(c: Chain, ordered: seq<Node>, k: nat) {
    && k <= |ordered|
    && (forall node :: node in ordered[..k] <==> node.kind.Email? && node.id in ReachedIds(c) && IsBlock(c, node))
    && DistinctIds(ordered[..k])
    && (forall i, j :: 0 <= i < j < k ==> Level(c, ordered[..k][i].id) <= Level(c, ordered[..k][j].id))
    && ordered[k..] == Letters(c.nodes, ReachedIds(c))
  }

  /** Nothing but an earlier block stored under a reachable id is left out. */
  lemma LettersListedIff(c: Chain, ordered: seq<Node>, k: nat, node: Node)
    requires PreviewOrder(c, ordered, k)
    ensures node in ordered
      <==> node in c.nodes && node.kind.Email? && (node.id in ReachedIds(c) ==> node == Block(c.nodes, node.id))
  {
    assert ordered == ordered[..k] + ordered[k..];
    LettersMember(c.nodes, ReachedIds(c), node);
  }

  /** When ids are distinct every letter is listed, and exactly once. */
  lemma LettersListedOnce(c: Chain, ordered: seq<Node>, k: nat)
    requires PreviewOrder(c, ordered, k) && DistinctIds(c.nodes)
    ensures forall node :: node in ordered <==> node in c.nodes && node.kind.Email?
    ensures DistinctIds(ordered)
    ensures forall i :: 0 <= i < |ordered| ==> (ordered[i].id in ReachedIds(c) <==> i < k)
  {
    assert ordered == ordered[..k] + ordered[k..];
    LettersDistinct(c.nodes, ReachedIds(c));
    forall node
      ensures node in ordered <==> node in c.nodes && node.kind.Email?
      ensures node in ordered[k..] ==> node.id !in ReachedIds(c)
    {
      LettersListedIff(c, ordered, k, node);
      LettersMember(c.nodes, ReachedIds(c), node);
      if node in c.nodes {
        SameNode(c.nodes, node, Block(c.nodes, node.id));
      }
    }
    forall i | 0 <= i < |ordered|
      ensures ordered[i].id in ReachedIds(c) <==> i < k
    {
      if i < k {
        assert ordered[..k][i] in ordered[..k];
      } else {
        assert ordered[k..][i - k] in ordered[k..];
      }
    }
    forall i, j | 0 <= i < j < |ordered|
      ensures ordered[i].id != ordered[j].id
    {
      if j < k {
        assert ordered[..k][i].id != ordered[..k][j].id;
      } else if k <= i {
        assert ordered[k..][i - k].id != ordered[k..][j - k].id;
      }
    }
  }

  /** In a chain that passed validation every letter comes before the letters it leads to. */
  lemma ParentsComeFirst(c: Chain, ordered: seq<Node>, k: nat, e: Edge, i: nat, j: nat)
    requires Normal(c) && RootedTree(c) && PreviewOrder(c, ordered, k)
    requires e in c.edges && i < |ordered| && j < |ordered|
    requires ordered[i].id == e.source && ordered[j].id == e.target
    ensures i < j
  {
    TreeIffWalkedOnce(c);
    assert e.source in Ids(c.nodes);
    EdgesLeadDown(c, e);
    LettersListedOnce(c, ordered, k);
    assert i < k && j < k && ordered[..k][i] == ordered[i] && ordered[..k][j] == ordered[j];
  }

  // ---- The order of the walk ----

  /** Where the edges of a block lead, in their order. */
  function Leads(edges: seq<Edge>, source: string): seq<string> {
    if edges == [] then []
    else
      var last := edges[|edges| - 1];
      Leads(edges[..|edges| - 1], source) + if last.source == source && last.target != "" then [last.target] else []
  }

  /** The root, and then what the blocks of the walk lead to, block by block. */
  function Mentions(c: Chain, walk: seq<string>): seq<string> {
    if walk == [] then (if c.root == "" then [] else [c.root])
    else
      var last := walk[|walk| - 1];
      Mentions(c, walk[..|walk| - 1]) + if last in Ids(c.nodes) then Leads(c.edges, last) else []
  }

  /** Each id once, where it is first mentioned. */
  function FirstMentions(ids: seq<string>): seq<string> {
    if ids == [] then []
    else
      var rest, last := ids[..|ids| - 1], ids[|ids| - 1];
      FirstMentions(rest) + if last in rest then [] else [last]
  }

  function LettersAlong(c: Chain, walk: seq<string>): seq<Node> {
    if walk == [] then []
    else LettersAlong(c, walk[..|walk| - 1]) + LetterAt(c, walk[|walk| - 1])
  }

  /** The walk goes through the ids in the order in which they are first mentioned. */
  predicate BreadthFirst(c: Chain, walk: seq<string>) {
    walk == FirstMentions(Mentions(c, walk))
  }

  ghost predicate SameMentions(a: seq<string>, b: seq<string>) {
    FirstMentions(a) == FirstMentions(b) && forall v :: v in a <==> v in b
  }

  lemma MentionOnce(ids: seq<string>, v: string)
    ensures FirstMentions(ids + [v]) == FirstMentions(ids) + if v in ids then [] else [v]
  {
    assert (ids + [v])[..|ids|] == ids;
  }

  lemma MentionBoth(a: seq<string>, b: seq<string>, v: string)
    requires SameMentions(a, b)
    ensures SameMentions(a + [v], b + [v])
  {
    MentionOnce(a, v);
    MentionOnce(b, v);
  }

  lemma MentionAgain(a: seq<string>, v: string)
    requires v in a
    ensures SameMentions(a + [v], a)
  {
    MentionOnce(a, v);
  }

  lemma {:induction false} MentionMore(a: seq<string>, b: seq<string>, more: seq<string>)
    requires SameMentions(a, b)
    ensures SameMentions(a + more, b + more)
  {
    if more == [] {
      assert a + more == a && b + more == b;
    } else {
      var rest, last := more[..|more| - 1], more[|more| - 1];
      MentionMore(a, b, rest);
      MentionBoth(a + rest, b + rest, last);
      assert a + more == (a + rest) + [last] && b + more == (b + rest) + [last];
    }
  }

  lemma MentionNext(seen: seq<string>, a: seq<string>, b: seq<string>, t: string)
    requires SameMentions(seen + a, seen + b)
    ensures SameMentions(seen + (a + [t]), seen + (b + [t]))
    ensures t in seen ==> SameMentions(seen + (a + [t]), seen + b)
  {
    assert seen + (a + [t]) == (seen + a) + [t] && seen + (b + [t]) == (seen + b) + [t];
    MentionBoth(seen + a, seen + b, t);
    if t in seen {
      MentionAgain(seen + b, t);
    }
  }

  /** What was mentioned before does not count again. */
  lemma {:induction false} FreshMentions(seen: seq<string>, edges: seq<Edge>, source: string, visited: set<string>)
    requires forall v :: v in visited ==> v in seen
    ensures SameMentions(seen + Leads(edges, source), seen + Fresh(edges, source, visited))
  {
    if edges != [] {
      var rest, last := edges[..|edges| - 1], edges[|edges| - 1];
      var a, b := Leads(rest, source), Fresh(rest, source, visited);
      FreshMentions(seen, rest, source, visited);
      MentionNext(seen, a, b, last.target);
      assert a + [] == a && b + [] == b;
    }
  }

  lemma VisitMentions(c: Chain, walk: seq<string>, v: string)
    ensures Mentions(c, walk + [v]) == Mentions(c, walk) + if v in Ids(c.nodes) then Leads(c.edges, v) else []
    ensures LettersAlong(c, walk + [v]) == LettersAlong(c, walk) + LetterAt(c, v)
  {
    assert (walk + [v])[..|walk|] == walk;
  }

  /** What the walk has mentioned so far is what it visited and what waits. */
  ghost predicate InOrder(c: Chain, walk: seq<string>, queue: seq<string>, visited: set<string>, ordered: seq<Node>) {
    && FirstMentions(walk) == walk
    && SameMentions(Mentions(c, walk), walk + queue)
    && (forall v :: v in visited <==> v in walk)
    && ordered == LettersAlong(c, walk)
  }

  lemma OrderSkips(c: Chain, walk: seq<string>, queue: seq<string>, visited: set<string>, ordered: seq<Node>)
    requires InOrder(c, walk, queue, visited, ordered) && queue != [] && queue[0] in visited
    ensures InOrder(c, walk, queue[1..], visited, ordered)
  {
    MentionAgain(walk, queue[0]);
    MentionMore(walk + [queue[0]], walk, queue[1..]);
    assert walk + queue == (walk + [queue[0]]) + queue[1..];
  }

  lemma ExpandMentions(c: Chain, m: seq<string>, longer: seq<string>, rest: seq<string>, v: string, seen: set<string>)
    requires SameMentions(m, longer + rest) && v in Ids(c.nodes) && forall u :: u in seen ==> u in longer
    ensures SameMentions(m + Leads(c.edges, v), longer + (rest + Fresh(c.edges, v, seen)))
  {
    MentionMore(m, longer + rest, Leads(c.edges, v));
    FreshMentions(longer + rest, c.edges, v, seen);
    assert longer + (rest + Fresh(c.edges, v, seen)) == (longer + rest) + Fresh(c.edges, v, seen);
  }

  lemma VisitKeepsMentions(c: Chain, walk: seq<string>, queue: seq<string>, visited: set<string>)
    requires SameMentions(Mentions(c, walk), walk + queue) && queue != []
    requires forall v :: v in visited ==> v in walk
    ensures var v, rest := queue[0], queue[1..];
      SameMentions(Mentions(c, walk + [v]), (walk + [v]) + (rest + Expansion(c, v, visited)))
  {
    var v, rest := queue[0], queue[1..];
    var longer, m := walk + [v], Mentions(c, walk);
    VisitMentions(c, walk, v);
    assert walk + queue == longer + rest;
    if v in Ids(c.nodes) {
      assert forall u :: u in visited + {v} ==> u in longer;
      ExpandMentions(c, m, longer, rest, v, visited + {v});
    } else {
      assert Mentions(c, longer) == m && longer + (rest + Expansion(c, v, visited)) == longer + rest;
    }
  }

  lemma OrderVisits(c: Chain, walk: seq<string>, queue: seq<string>, visited: set<string>, ordered: seq<Node>)
    requires InOrder(c, walk, queue, visited, ordered) && queue != [] && queue[0] !in visited
    ensures var v := queue[0];
      InOrder(c, walk + [v], queue[1..] + Expansion(c, v, visited), visited + {v}, ordered + LetterAt(c, v))
  {
    VisitKeepsMentions(c, walk, queue, visited);
    VisitMentions(c, walk, queue[0]);
    MentionOnce(walk, queue[0]);
  }

  /** The walk is breadth first by levels and by first mentions. */
  ghost predicate LoopOk(
      c: Chain, walk: seq<string>, visited: set<string>, queue: seq<string>, levels: seq<nat>, front: nat,
      ordered: seq<Node>)
  {
    WalkOk(c, visited, queue, levels, front, ordered) && InOrder(c, walk, queue, visited, ordered)
  }

  // ---- The walk ----

  /** Each waiting block was pushed for some level, at least its own; the levels rise along
      the queue by at most one. */
  ghost predicate QueueOk(c: Chain, queue: seq<string>, levels: seq<nat>, front: nat) {
    && |levels| == |queue|
    && (forall i :: 0 <= i < |queue| ==> queue[i] != "" && Reached(c, queue[i]) && Level(c, queue[i]) <= levels[i])
    && (forall i :: 0 <= i < |levels| ==> front <= levels[i] <= front + 1)
    && (forall i, j :: 0 <= i < j < |levels| ==> levels[i] <= levels[j])
  }

  ghost predicate Waiting(queue: seq<string>, levels: seq<nat>, v: string, n: nat) {
    exists i :: 0 <= i < |queue| && i < |levels| && queue[i] == v && levels[i] <= n
  }

  ghost predicate Done(visited: set<string>, queue: seq<string>, levels: seq<nat>, v: string, n: nat) {
    v in visited || Waiting(queue, levels, v, n)
  }

  /** The root and every successor of a visited block is visited or waits at its level. */
  ghost predicate Pushed(c: Chain, visited: set<string>, queue: seq<string>, levels: seq<nat>) {
    && (c.root != "" ==> Done(visited, queue, levels, c.root, 0))
    && (forall e ::
          (e in c.edges && e.source in visited && e.source in Ids(c.nodes) && e.target != "" && Reached(c, e.source))
          ==> Done(visited, queue, levels, e.target, Level(c, e.source) + 1))
  }

  /** A block closer to the root than every waiting entry has been visited. */
  lemma {:induction false} CloserIsVisited(
      c: Chain, visited: set<string>, queue: seq<string>, levels: seq<nat>, v: string)
    requires Pushed(c, visited, queue, levels) && |levels| == |queue| && Reached(c, v)
    requires forall i :: 0 <= i < |levels| ==> Level(c, v) < levels[i]
    ensures v in visited
    decreases Level(c, v)
  {
    if Level(c, v) == 0 {
      LevelZero(c, v);
    } else {
      var e := Predecessor(c, v);
      CloserIsVisited(c, visited, queue, levels, e.source);
      assert Done(visited, queue, levels, e.target, Level(c, e.source) + 1);
    }
  }

  lemma PoppedLevel(c: Chain, visited: set<string>, queue: seq<string>, levels: seq<nat>, front: nat)
    requires QueueOk(c, queue, levels, front) && Pushed(c, visited, queue, levels)
    requires queue != [] && queue[0] !in visited
    ensures Level(c, queue[0]) == levels[0]
  {
    if Level(c, queue[0]) < levels[0] {
      CloserIsVisited(c, visited, queue, levels, queue[0]);
    }
  }

  /** The targets that visiting a block pushes. */
  function Fresh(edges: seq<Edge>, source: string, visited: set<string>): seq<string> {
    if edges == [] then []
    else
      var last := edges[|edges| - 1];
      Fresh(edges[..|edges| - 1], source, visited)
      + if last.source == source && last.target != "" && last.target !in visited then [last.target] else []
  }

  lemma {:induction false} FreshMember(edges: seq<Edge>, source: string, visited: set<string>, t: string)
    ensures t in Fresh(edges, source, visited)
      <==> t != "" && t !in visited && Edge(source, t) in edges
  {
    if edges != [] {
      var rest, last := edges[..|edges| - 1], edges[|edges| - 1];
      assert edges == rest + [last];
      FreshMember(rest, source, visited, t);
    }
  }

  method PushFresh(
      edges: seq<Edge>, source: string, visited: set<string>, queue: seq<string>)
    returns (pushed: seq<string>)
    ensures pushed == queue + Fresh(edges, source, visited)
  {
    pushed := queue;
    for i := 0 to |edges|
      invariant pushed == queue + Fresh(edges[..i], source, visited)
    {
      assert edges[..i + 1][..i] == edges[..i];
      if edges[i].source == source && edges[i].target != "" && edges[i].target !in visited {
        pushed := pushed + [edges[i].target];
      }
    }
    assert edges[..|edges|] == edges;
  }

  lemma StillDone(
      visited: set<string>, queue: seq<string>, levels: seq<nat>, seen: set<string>, more: seq<string>,
      deeper: seq<nat>, v: string, n: nat)
    requires Done(visited, queue, levels, v, n) && |levels| == |queue| > 0 && |more| == |deeper|
    requires visited <= seen && queue[0] in seen
    ensures Done(seen, queue[1..] + more, levels[1..] + deeper, v, n)
  {
    if v !in seen {
      var i :| 0 <= i < |queue| && queue[i] == v && levels[i] <= n;
      var q, l := queue[1..] + more, levels[1..] + deeper;
      assert q[i - 1] == v && l[i - 1] <= n;
    }
  }

  /** Dropping a block that was visited before keeps the bookkeeping. */
  lemma SkipStep(c: Chain, visited: set<string>, queue: seq<string>, levels: seq<nat>, front: nat)
    requires QueueOk(c, queue, levels, front) && Pushed(c, visited, queue, levels)
    requires queue != [] && queue[0] in visited
    ensures QueueOk(c, queue[1..], levels[1..], levels[0]) && Pushed(c, visited, queue[1..], levels[1..])
  {
    assert queue[1..] + [] == queue[1..] && levels[1..] + [] == levels[1..];
    if c.root != "" {
      StillDone(visited, queue, levels, visited, [], [], c.root, 0);
    }
    forall e | e in c.edges && e.source in visited && e.source in Ids(c.nodes) && e.target != "" && Reached(c, e.source)
      ensures Done(visited, queue[1..], levels[1..], e.target, Level(c, e.source) + 1)
    {
      StillDone(visited, queue, levels, visited, [], [], e.target, Level(c, e.source) + 1);
    }
  }

  /** What visiting the first waiting block pushes. */
  function Expansion(c: Chain, v: string, visited: set<string>): seq<string> {
    if v in Ids(c.nodes) then Fresh(c.edges, v, visited + {v}) else []
  }

  lemma VisitKeepsQueue(c: Chain, visited: set<string>, queue: seq<string>, levels: seq<nat>, front: nat)
    requires QueueOk(c, queue, levels, front) && Pushed(c, visited, queue, levels)
    requires queue != [] && queue[0] !in visited
    ensures var more := Expansion(c, queue[0], visited);
      QueueOk(c, queue[1..] + more, levels[1..] + seq(|more|, _ => levels[0] + 1), levels[0])
  {
    PoppedLevel(c, visited, queue, levels, front);
    var more := Expansion(c, queue[0], visited);
    forall i | 0 <= i < |more|
      ensures more[i] != "" && Reached(c, more[i]) && Level(c, more[i]) <= levels[0] + 1
    {
      FreshMember(c.edges, queue[0], visited + {queue[0]}, more[i]);
      LevelStep(c, Edge(queue[0], more[i]));
    }
  }

  lemma VisitKeepsPushed(c: Chain, visited: set<string>, queue: seq<string>, levels: seq<nat>, front: nat)
    requires QueueOk(c, queue, levels, front) && Pushed(c, visited, queue, levels)
    requires queue != [] && queue[0] !in visited
    ensures var more := Expansion(c, queue[0], visited);
      Pushed(c, visited + {queue[0]}, queue[1..] + more, levels[1..] + seq(|more|, _ => levels[0] + 1))
  {
    PoppedLevel(c, visited, queue, levels, front);
    var v := queue[0];
    var more := Expansion(c, v, visited);
    var deeper := seq(|more|, _ => levels[0] + 1);
    var seen := visited + {v};
    if c.root != "" {
      StillDone(visited, queue, levels, seen, more, deeper, c.root, 0);
    }
    forall e | e in c.edges && e.source in seen && e.source in Ids(c.nodes) && e.target != "" && Reached(c, e.source)
      ensures Done(seen, queue[1..] + more, levels[1..] + deeper, e.target, Level(c, e.source) + 1)
    {
      if e.source == v {
        if e.target !in seen {
          FreshMember(c.edges, v, seen, e.target);
          assert e == Edge(v, e.target);
          var i :| 0 <= i < |more| && more[i] == e.target;
          PushedWaits(queue[1..], levels[1..], more, deeper, i, levels[0] + 1);
        }
      } else {
        StillDone(visited, queue, levels, seen, more, deeper, e.target, Level(c, e.source) + 1);
      }
    }
  }

  lemma PushedWaits(queue: seq<string>, levels: seq<nat>, more: seq<string>, deeper: seq<nat>, i: nat, n: nat)
    requires |queue| == |levels| && |more| == |deeper| && i < |more| && deeper[i] <= n
    ensures Waiting(queue + more, levels + deeper, more[i], n)
  {
    var q, l := queue + more, levels + deeper;
    assert q[|queue| + i] == more[i] && l[|queue| + i] == deeper[i];
  }

  /** The letters listed so far: exactly the visited ones, by distance. */
  ghost predicate ListedOk(c: Chain, visited: set<string>, ordered: seq<Node>, front: nat) {
    && (forall node :: node in ordered <==> node.kind.Email? && node.id in visited && IsBlock(c, node))
    && DistinctIds(ordered)
    && (forall v :: v in visited ==> Reached(c, v))
    && (forall i :: 0 <= i < |ordered| ==> Level(c, ordered[i].id) <= front)
    && (forall i, j :: 0 <= i < j < |ordered| ==> Level(c, ordered[i].id) <= Level(c, ordered[j].id))
  }

  lemma ListVisit(c: Chain, visited: set<string>, ordered: seq<Node>, front: nat, v: string, level: nat)
    requires ListedOk(c, visited, ordered, front) && v !in visited
    requires Reached(c, v) && Level(c, v) == level && front <= level
    ensures ListedOk(c, visited + {v}, ordered + LetterAt(c, v), level)
  {
  }

  /** Everything that can ever wait. */
  ghost function Places(c: Chain): set<string> {
    {c.root} + set e | e in c.edges :: e.target
  }

  ghost predicate WalkOk(
      c: Chain, visited: set<string>, queue: seq<string>, levels: seq<nat>, front: nat, ordered: seq<Node>)
  {
    && QueueOk(c, queue, levels, front)
    && Pushed(c, visited, queue, levels)
    && ListedOk(c, visited, ordered, front)
    && visited <= Places(c)
    && (forall v :: v in queue ==> v in Places(c))
  }

  function LetterAt(c: Chain, v: string): seq<Node> {
    if v in Ids(c.nodes) && Block(c.nodes, v).kind.Email? then [Block(c.nodes, v)] else []
  }

  lemma WalkBegins(c: Chain)
    ensures if c.root == "" then WalkOk(c, {}, [], [], 0, []) else WalkOk(c, {}, [c.root], [0], 0, [])
  {
    if c.root != "" {
      RootLevel(c);
      assert Waiting([c.root], [0], c.root, 0) by { assert [c.root][0] == c.root; }
    }
  }

  lemma WalkSkips(c: Chain, visited: set<string>, queue: seq<string>, levels: seq<nat>, front: nat, ordered: seq<Node>)
    requires WalkOk(c, visited, queue, levels, front, ordered) && queue != [] && queue[0] in visited
    ensures WalkOk(c, visited, queue[1..], levels[1..], levels[0], ordered)
  {
    SkipStep(c, visited, queue, levels, front);
  }

  lemma WalkVisits(c: Chain, visited: set<string>, queue: seq<string>, levels: seq<nat>, front: nat, ordered: seq<Node>)
    requires WalkOk(c, visited, queue, levels, front, ordered) && queue != [] && queue[0] !in visited
    ensures queue[0] in Places(c)
    ensures var v, more := queue[0], Expansion(c, queue[0], visited);
      WalkOk(c, visited + {v}, queue[1..] + more,
        levels[1..] + seq(|more|, _ => levels[0] + 1), levels[0], ordered + LetterAt(c, v))
  {
    var v := queue[0];
    assert v in queue;
    PoppedLevel(c, visited, queue, levels, front);
    VisitKeepsQueue(c, visited, queue, levels, front);
    VisitKeepsPushed(c, visited, queue, levels, front);
    ListVisit(c, visited, ordered, front, v, levels[0]);
    ExpansionStays(c, v, visited);
  }

  lemma ExpansionStays(c: Chain, v: string, visited: set<string>)
    ensures forall t :: t in Expansion(c, v, visited) ==> t in Places(c)
  {
    forall t | t in Expansion(c, v, visited)
      ensures t in Places(c)
    {
      FreshMember(c.edges, v, visited + {v}, t);
      assert Edge(v, t).target == t;
    }
  }

  lemma LoopSkips(
      c: Chain, walk: seq<string>, visited: set<string>, queue: seq<string>, levels: seq<nat>, front: nat,
      ordered: seq<Node>)
    requires LoopOk(c, walk, visited, queue, levels, front, ordered) && queue != [] && queue[0] in visited
    ensures levels != [] && LoopOk(c, walk, visited, queue[1..], levels[1..], levels[0], ordered)
  {
    WalkSkips(c, visited, queue, levels, front, ordered);
    OrderSkips(c, walk, queue, visited, ordered);
  }

  lemma LoopVisits(
      c: Chain, walk: seq<string>, visited: set<string>, queue: seq<string>, levels: seq<nat>, front: nat,
      ordered: seq<Node>)
    requires LoopOk(c, walk, visited, queue, levels, front, ordered) && queue != [] && queue[0] !in visited
    ensures levels != [] && queue[0] in Places(c)
    ensures var v, more := queue[0], Expansion(c, queue[0], visited);
      LoopOk(c, walk + [v], visited + {v}, queue[1..] + more, levels[1..] + seq(|more|, _ => levels[0] + 1), levels[0],
             ordered + LetterAt(c, v))
  {
    WalkVisits(c, visited, queue, levels, front, ordered);
    OrderVisits(c, walk, queue, visited, ordered);
  }

  lemma LoopEnds(
      c: Chain, walk: seq<string>, visited: set<string>, levels: seq<nat>, front: nat, ordered: seq<Node>)
    requires LoopOk(c, walk, visited, [], levels, front, ordered)
    ensures BreadthFirst(c, walk) && ordered == LettersAlong(c, walk)
    ensures ListedOk(c, visited, ordered, front) && forall v :: Reached(c, v) ==> v in visited
  {
    assert walk + [] == walk;
    forall v | Reached(c, v)
      ensures v in visited
    {
      WalkEnds(c, visited, levels, front, ordered, v);
    }
  }

  lemma WalkEnds(c: Chain, visited: set<string>, levels: seq<nat>, front: nat, ordered: seq<Node>, v: string)
    requires WalkOk(c, visited, [], levels, front, ordered) && Reached(c, v)
    ensures v in visited
  {
    CloserIsVisited(c, visited, [], levels, v);
  }

  /** The breadth-first walk from the root. */
  method WalkLetters(c: Chain)
    returns (ordered: seq<Node>, visited: set<string>, ghost walk: seq<string>, ghost front: nat)
    ensures BreadthFirst(c, walk) && ordered == LettersAlong(c, walk)
    ensures ListedOk(c, visited, ordered, front) && forall v :: Reached(c, v) ==> v in visited
  {
    visited := {};
    var queue := if c.root == "" then [] else [c.root];
    ghost var levels: seq<nat> := if c.root == "" then [] else [0];
    ordered, walk, front := [], [], 0;
    WalkBegins(c);
    while queue != []
      invariant LoopOk(c, walk, visited, queue, levels, front, ordered)
      decreases Places(c) - visited, |queue|
    {
      var v := queue[0];
      if v in visited {
        LoopSkips(c, walk, visited, queue, levels, front, ordered);
        queue, levels, front := queue[1..], levels[1..], levels[0];
      } else {
        LoopVisits(c, walk, visited, queue, levels, front, ordered);
        ghost var more := Expansion(c, v, visited);
        assert v in Places(c) - visited;
        queue, ordered := ExpandBlock(c, v, visited, queue[1..], ordered);
        walk, visited := walk + [v], visited + {v};
        levels, front := levels[1..] + seq(|more|, _ => levels[0] + 1), levels[0];
        assert LoopOk(c, walk, visited, queue, levels, front, ordered);
      }
    }
    LoopEnds(c, walk, visited, levels, front, ordered);
  }

  /** The letters along the walk, then those it did not come to. */
  method PreviewLetters(c: Chain) returns (ordered: seq<Node>, ghost k: nat, ghost walk: seq<string>)
    ensures PreviewOrder(c, ordered, k)
    ensures exists n: nat :: PreviewOrder(c, ordered, n)
    ensures BreadthFirst(c, walk) && ordered[..k] == LettersAlong(c, walk)
  {
    var visited;
    ghost var front;
    ordered, visited, walk, front := WalkLetters(c);
    k := |ordered|;
    var rest := RemainingLetters(c.nodes, visited);
    Completed(c, visited, ordered, rest, front);
    assert (ordered + rest)[..k] == ordered;
    ordered := ordered + rest;
  }

  /** List the block if it is a letter, and push where it leads; an unknown id does neither. */
  method ExpandBlock(c: Chain, v: string, visited: set<string>, queue: seq<string>, ordered: seq<Node>)
    returns (pushed: seq<string>, listed: seq<Node>)
    ensures pushed == queue + Expansion(c, v, visited) && listed == ordered + LetterAt(c, v)
  {
    pushed, listed := queue, ordered;
    if v in Ids(c.nodes) {
      var node := Block(c.nodes, v);
      if node.kind.Email? {
        listed := listed + [node];
      }
      pushed := PushFresh(c.edges, v, visited + {v}, queue);
    }
  }

  method RemainingLetters(nodes: seq<Node>, visited: set<string>) returns (rest: seq<Node>)
    ensures rest == Letters(nodes, visited)
  {
    rest := [];
    for i := 0 to |nodes|
      invariant rest == Letters(nodes[..i], visited)
    {
      assert nodes[..i + 1][..i] == nodes[..i];
      if nodes[i].kind.Email? && nodes[i].id !in visited {
        rest := rest + [nodes[i]];
      }
    }
    assert nodes[..|nodes|] == nodes;
  }

  lemma Completed(c: Chain, visited: set<string>, ordered: seq<Node>, rest: seq<Node>, front: nat)
    requires ListedOk(c, visited, ordered, front)
    requires forall v :: Reached(c, v) ==> v in visited
    requires rest == Letters(c.nodes, visited)
    ensures PreviewOrder(c, ordered + rest, |ordered|)
  {
    var all, k := ordered + rest, |ordered|;
    assert all[..k] == ordered && all[k..] == rest;
    SameLetters(c.nodes, visited, ReachedIds(c));
    forall i | 0 <= i < k
      ensures Reached(c, ordered[i].id)
    {
      assert ordered[i] in ordered;
    }
  }
}
