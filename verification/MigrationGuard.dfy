/** The deployment guard: a database may be upgraded by a checkout when its revision is an
    ancestor of the single head of the checkout's revision graph. */
module MigrationGuard {
  /** Every revision with its parents; a parent need not be a revision of the checkout. */
  type Graph = map<string, seq<string>>

  datatype Verdict =
    | Upgradeable(head: string)
    | EmptyRevision
    | NoRevisions
    | HeadCount(heads: set<string>)
    | NotPresent
    | NotAncestor

  function Parents(g: Graph, v: string): seq<string> {
    if v in g then g[v] else []
  }

  function Heads(g: Graph): set<string> {
    set v | v in g && forall child :: child in g ==> v !in g[child]
  }

  /** No revision of the checkout names it as one of its parents. */
  ghost predicate Unreferenced(g: Graph, v: string) {
    v in g && forall child, i :: child in g && 0 <= i < |g[child]| ==> g[child][i] != v
  }

  lemma HeadsAreUnreferenced(g: Graph)
    ensures forall v :: v in Heads(g) <==> Unreferenced(g, v)
  {
    forall v | Unreferenced(g, v)
      ensures v in Heads(g)
    {
      forall child | child in g
        ensures v !in g[child]
      {
      }
    }
  }

  // ---- Descent ----

  /** Each step of the path goes from a revision to one of its parents. */
  ghost predicate Path(g: Graph, p: seq<string>) {
    |p| > 0 && forall i :: 0 <= i < |p| - 1 ==> p[i + 1] in Parents(g, p[i])
  }

  ghost predicate Descends(g: Graph, a: string, b: string) {
    exists p :: Path(g, p) && p[0] == a && p[|p| - 1] == b
  }

  ghost predicate Acyclic(g: Graph) {
    forall p :: Path(g, p) && |p| > 1 ==> p[0] != p[|p| - 1]
  }

  lemma DescendsSelf(g: Graph, a: string)
    ensures Descends(g, a, a)
  {
    assert Path(g, [a]) && [a][0] == a;
  }

  lemma DescendsOn(g: Graph, a: string, b: string, c: string)
    requires Descends(g, a, b) && c in Parents(g, b)
    ensures Descends(g, a, c)
  {
    var p :| Path(g, p) && p[0] == a && p[|p| - 1] == b;
    var q := p + [c];
    assert Path(g, q) && q[0] == a && q[|q| - 1] == c;
  }

  lemma DescendsFrom(g: Graph, a: string, b: string, c: string)
    requires b in Parents(g, a) && Descends(g, b, c)
    ensures Descends(g, a, c)
  {
    var p :| Path(g, p) && p[0] == b && p[|p| - 1] == c;
    var q := [a] + p;
    assert Path(g, q) && q[0] == a && q[|q| - 1] == c;
  }

  /** A set that holds a and the parents of its members holds everything a descends to. */
  lemma {:induction false} ClosedHolds(g: Graph, s: set<string>, p: seq<string>)
    requires Path(g, p) && p[0] in s
    requires forall v, parent :: v in s && parent in Parents(g, v) ==> parent in s
    ensures p[|p| - 1] in s
  {
    if |p| > 1 {
      var q := p[1..];
      forall i | 0 <= i < |q| - 1
        ensures q[i + 1] in Parents(g, q[i])
      {
        assert p[(i + 1) + 1] in Parents(g, p[i + 1]);
      }
      assert p[0 + 1] in Parents(g, p[0]);
      ClosedHolds(g, s, q);
    }
  }

  /** The revision is among its own ancestors. */
  ghost predicate OnCycle(g: Graph, v: string) {
    exists p :: Path(g, p) && |p| > 1 && p[0] == v && p[|p| - 1] == v
  }

  /** Every cycle starts at a revision that the head descends to. */
  ghost predicate CyclesBelow(g: Graph, head: string) {
    forall v :: OnCycle(g, v) ==> Descends(g, head, v)
  }

  lemma WayBackIsCycle(g: Graph, a: string, b: string)
    requires b in Parents(g, a) && Descends(g, b, a)
    ensures OnCycle(g, a)
  {
    var p :| Path(g, p) && p[0] == b && p[|p| - 1] == a;
    var q := [a] + p;
    assert Path(g, q) && q[0] == a && q[|q| - 1] == a && |q| > 1;
  }

  lemma CycleIsPresent(g: Graph, v: string)
    requires OnCycle(g, v)
    ensures v in g
  {
    var p :| Path(g, p) && |p| > 1 && p[0] == v && p[|p| - 1] == v;
    assert p[0 + 1] in Parents(g, p[0]);
  }

  /** Climbing from any revision through children ends at a head or comes to a cycle. */
  lemma {:induction false} Climb(g: Graph, v: string, below: set<string>) returns (top: string)
    requires v in g && v !in below && below <= g.Keys
    requires forall u :: u in below ==> Descends(g, v, u)
    ensures top in Heads(g) || OnCycle(g, top)
    ensures Descends(g, top, v)
    decreases g.Keys - below
  {
    DescendsSelf(g, v);
    if v in Heads(g) {
      top := v;
    } else {
      var child :| child in g && v in g[child];
      DescendsOn(g, child, child, v) by {
        DescendsSelf(g, child);
      }
      if Descends(g, v, child) {
        WayBackIsCycle(g, child, v);
        top := child;
      } else {
        forall u | u in below + {v}
          ensures Descends(g, child, u)
        {
          DescendsFrom(g, child, v, u);
        }
        top := Climb(g, child, below + {v});
        DescendsOn(g, top, child, v);
      }
    }
  }

  lemma {:induction false} DescendsAlong(g: Graph, a: string, p: seq<string>)
    requires Path(g, p) && Descends(g, a, p[0])
    ensures Descends(g, a, p[|p| - 1])
  {
    if |p| > 1 {
      var q := p[..|p| - 1];
      assert Path(g, q) by {
        forall i | 0 <= i < |q| - 1
          ensures q[i + 1] in Parents(g, q[i])
        {
          assert p[i + 1] in Parents(g, p[i]);
        }
      }
      DescendsAlong(g, a, q);
      assert p[|p| - 2 + 1] in Parents(g, p[|p| - 2]);
      DescendsOn(g, a, p[|p| - 2], p[|p| - 1]);
    }
  }

  lemma DescendsThrough(g: Graph, a: string, b: string, c: string)
    requires Descends(g, a, b) && Descends(g, b, c)
    ensures Descends(g, a, c)
  {
    var p :| Path(g, p) && p[0] == b && p[|p| - 1] == c;
    DescendsAlong(g, a, p);
  }

  /** With a single head every revision is an ancestor of it if and only if every cycle starts
      at one. */
  lemma SingleHeadReachesAllIff(g: Graph, head: string)
    requires Heads(g) == {head}
    ensures (forall v :: v in g ==> Descends(g, head, v)) <==> CyclesBelow(g, head)
  {
    if CyclesBelow(g, head) {
      forall v | v in g
        ensures Descends(g, head, v)
      {
        var top := Climb(g, v, {});
        DescendsSelf(g, head);
        DescendsThrough(g, head, top, v);
      }
    } else {
      var v :| OnCycle(g, v) && !Descends(g, head, v);
      CycleIsPresent(g, v);
    }
  }

  lemma AcyclicHasNoCycle(g: Graph, head: string)
    requires Acyclic(g)
    ensures CyclesBelow(g, head)
  {
  }

  /** In particular in an acyclic graph. */
  lemma SingleHeadReachesAll(g: Graph, head: string, v: string)
    requires Acyclic(g) && Heads(g) == {head} && v in g
    ensures Descends(g, head, v)
  {
    AcyclicHasNoCycle(g, head);
    SingleHeadReachesAllIff(g, head);
  }

  // ---- The worklist ----

  ghost predicate Worklist(g: Graph, head: string, reachable: set<string>, queue: seq<string>) {
    && (forall v :: v in reachable || v in queue ==> Descends(g, head, v))
    && (head in reachable || head in queue)
    && (forall v, parent :: v in reachable && parent in Parents(g, v) ==> parent in reachable || parent in queue)
  }

  function Mentioned(g: Graph, head: string): set<string> {
    {head} + set v, i | v in g && 0 <= i < |g[v]| :: g[v][i]
  }

  lemma Taken(g: Graph, head: string, reachable: set<string>, queue: seq<string>)
    requires Worklist(g, head, reachable, queue) && queue != []
    ensures var v := queue[0];
      if v in reachable then Worklist(g, head, reachable, queue[1..])
      else Worklist(g, head, reachable + {v}, queue[1..] + Parents(g, v))
  {
    var v := queue[0];
    assert forall x :: x in queue ==> x == v || x in queue[1..];
    if v !in reachable {
      forall parent | parent in Parents(g, v)
        ensures Descends(g, head, parent)
      {
        DescendsOn(g, head, v, parent);
      }
    }
  }

  /** The worklist ends on every graph, cyclic ones and ones with unknown parents included, and
      computes exactly what the head descends to. */
  method Reachable(g: Graph, head: string) returns (reachable: set<string>)
    ensures forall v :: v in reachable <==> Descends(g, head, v)
  {
    reachable := {};
    var queue := [head];
    DescendsSelf(g, head);
    while queue != []
      invariant Worklist(g, head, reachable, queue)
      invariant reachable <= Mentioned(g, head) && forall v :: v in queue ==> v in Mentioned(g, head)
      decreases Mentioned(g, head) - reachable, |queue|
    {
      Taken(g, head, reachable, queue);
      var current := queue[0];
      queue := queue[1..];
      if current in reachable {
        continue;
      }
      assert current in Mentioned(g, head) - reachable;
      reachable := reachable + {current};
      queue := queue + Parents(g, current);
    }
    forall v | Descends(g, head, v)
      ensures v in reachable
    {
      var p :| Path(g, p) && p[0] == head && p[|p| - 1] == v;
      ClosedHolds(g, reachable, p);
    }
  }

  /** The guard on a loaded graph and a trimmed revision. */
  method AssertUpgradeable(revision: string, g: Graph) returns (r: Verdict)
    ensures r.Upgradeable?
      <==> revision != "" && revision in g && exists head :: Heads(g) == {head} && Descends(g, head, revision)
    ensures r.Upgradeable? ==> forall v :: v == r.head <==> Unreferenced(g, v)
    ensures r.EmptyRevision? <==> revision == ""
    ensures r.NoRevisions? <==> revision != "" && g == map[]
    ensures r.HeadCount? <==> revision != "" && g != map[] && |Heads(g)| != 1
    ensures r.HeadCount? ==> forall v :: v in r.heads <==> Unreferenced(g, v)
    ensures r.NotPresent? <==> revision != "" && |Heads(g)| == 1 && revision !in g
    ensures r.NotAncestor?
      <==> revision != "" && revision in g && exists head :: Heads(g) == {head} && !Descends(g, head, revision)
    ensures revision in g && revision != "" && (exists head :: Heads(g) == {head} && CyclesBelow(g, head))
      ==> r.Upgradeable?
    ensures Acyclic(g) && |Heads(g)| == 1 && revision != "" ==> (r.Upgradeable? <==> revision in g)
  {
    HeadsAreUnreferenced(g);
    if revision == "" {
      return EmptyRevision;
    }
    if g == map[] {
      return NoRevisions;
    }
    var heads := Heads(g);
    if |heads| != 1 {
      return HeadCount(heads);
    }
    var head :| head in heads;
    OneMember(heads, head);
    if revision !in g {
      return NotPresent;
    }
    var reachable := Reachable(g, head);
    SingleHeadReachesAllIff(g, head);
    if Acyclic(g) {
      AcyclicHasNoCycle(g, head);
    }
    if revision !in reachable {
      return NotAncestor;
    }
    return Upgradeable(head);
  }

  lemma OneMember(s: set<string>, x: string)
    requires |s| == 1 && x in s
    ensures s == {x}
  {
    assert |s - {x}| == |s| - 1;
    assert s == (s - {x}) + {x};
  }

  /** A present revision that is no ancestor: it lies on a cycle beside the head. */
  lemma LoopBesideTheHead(g: Graph)
    requires g == map["head" := [], "loop" := ["loop"]]
    ensures Heads(g) == {"head"} && "loop" in g && !Descends(g, "head", "loop")
    ensures OnCycle(g, "loop") && !CyclesBelow(g, "head")
  {
    assert "loop" in g["loop"];
    if Descends(g, "head", "loop") {
      var p :| Path(g, p) && p[0] == "head" && p[|p| - 1] == "loop";
      ClosedHolds(g, {"head"}, p);
    }
    DescendsSelf(g, "loop");
    WayBackIsCycle(g, "loop", "loop");
  }

  /** A cycle alone does no harm. */
  lemma LoopBelowTheHead(g: Graph)
    requires g == map["head" := ["a"], "a" := ["b"], "b" := ["a"]]
    ensures !Acyclic(g) && Heads(g) == {"head"} && CyclesBelow(g, "head")
  {
    assert "a" in g["b"] && "b" in g["a"] && "a" in g["head"];
    DescendsSelf(g, "head");
    DescendsOn(g, "head", "head", "a");
    DescendsOn(g, "head", "a", "b");
    assert Path(g, ["a", "b", "a"]);
    forall v | OnCycle(g, v)
      ensures Descends(g, "head", v)
    {
      CycleIsPresent(g, v);
    }
  }
}
