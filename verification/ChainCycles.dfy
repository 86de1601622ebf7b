/** What the reported cycle of a chain really is: a cycle, or two branches that join. */
module ChainCycles {
  import opened EmailChain
  import opened ChainPreview

  /** Block after block, each one click further. */
  ghost predicate Trail(c: Chain, p: seq<string>) {
    |p| > 0 && forall i :: 0 <= i < |p| - 1 ==> Edge(p[i], p[i + 1]) in c.edges
  }

  ghost predicate Leads(c: Chain, a: string, b: string) {
    exists p :: Trail(c, p) && p[0] == a && p[|p| - 1] == b
  }

  /** A reachable block that one comes back to. */
  ghost predicate ReachedCycle(c: Chain) {
    exists p :: Trail(c, p) && |p| > 1 && p[0] == p[|p| - 1] && Reached(c, p[0])
  }

  predicate JoinAt(edges: seq<Edge>, s: set<string>, i: nat, j: nat) {
    i < j < |edges| && edges[i].source in s && edges[j].source in s && edges[i].target == edges[j].target
  }

  /** Two edges out of reachable blocks come together. */
  ghost predicate BranchesJoin(c: Chain) {
    exists i: nat, j: nat :: JoinAt(c.edges, ReachedIds(c), i, j)
  }

  // ---- A cycle is reported ----

  lemma {:induction false} TrailLeadsDown(c: Chain, p: seq<string>)
    requires Normal(c) && !MeetsTwice(c) && Trail(c, p) && Reached(c, p[0])
    ensures Reached(c, p[|p| - 1]) && Level(c, p[|p| - 1]) == Level(c, p[0]) + |p| - 1
  {
    if |p| > 1 {
      var n := |p| - 1;
      var q := p[..n];
      assert Trail(c, q) by {
        forall i | 0 <= i < |q| - 1
          ensures Edge(q[i], q[i + 1]) in c.edges
        {
          assert Edge(p[i], p[i + 1]) in c.edges;
        }
      }
      TrailLeadsDown(c, q);
      assert Edge(p[n - 1], p[n - 1 + 1]) in c.edges;
      EdgesLeadDown(c, Edge(p[n - 1], p[n]));
    }
  }

  lemma CycleIsMetTwice(c: Chain)
    requires Normal(c) && ReachedCycle(c)
    ensures MeetsTwice(c)
  {
    var p :| Trail(c, p) && |p| > 1 && p[0] == p[|p| - 1] && Reached(c, p[0]);
    if !MeetsTwice(c) {
      TrailLeadsDown(c, p);
    }
  }

  // ---- So are branches that join ----

  lemma {:induction false} JoinArrives(edges: seq<Edge>, s: set<string>, i: nat, j: nat)
    requires JoinAt(edges, s, i, j)
    ensures Arrivals(edges, s, edges[j].target) >= 2
  {
    var rest, last := edges[..|edges| - 1], edges[|edges| - 1];
    if j == |edges| - 1 {
      assert rest[i] == edges[i];
      EdgeArrives(rest, s, edges[i]);
    } else {
      assert rest[i] == edges[i] && rest[j] == edges[j];
      JoinArrives(rest, s, i, j);
    }
  }

  lemma JoinIsMetTwice(c: Chain)
    requires Normal(c) && BranchesJoin(c)
    ensures MeetsTwice(c)
  {
    var i: nat, j: nat :| JoinAt(c.edges, ReachedIds(c), i, j);
    JoinArrives(c.edges, ReachedIds(c), i, j);
    assert c.edges[j] in c.edges;
    assert c.edges[j].target in Ids(c.nodes) && c.edges[j].target != "";
    ReachedStep(c, c.edges[j]);
    assert c.edges[j].target in ReachedIds(c);
  }

  // ---- Nothing else is ----

  lemma {:induction false} ArrivingEdge(edges: seq<Edge>, s: set<string>, v: string) returns (i: nat)
    requires Arrivals(edges, s, v) >= 1
    ensures i < |edges| && edges[i].source in s && edges[i].target == v
  {
    var n := |edges| - 1;
    if edges[n].source in s && edges[n].target == v {
      i := n;
    } else {
      i := ArrivingEdge(edges[..n], s, v);
    }
  }

  lemma {:induction false} ArrivingPair(edges: seq<Edge>, s: set<string>, v: string) returns (i: nat, j: nat)
    requires Arrivals(edges, s, v) >= 2
    ensures JoinAt(edges, s, i, j) && edges[j].target == v
  {
    var n := |edges| - 1;
    if edges[n].source in s && edges[n].target == v {
      i := ArrivingEdge(edges[..n], s, v);
      j := n;
    } else {
      i, j := ArrivingPair(edges[..n], s, v);
    }
  }

  lemma {:induction false} RootLeads(c: Chain, v: string, n: nat)
    requires v in Within(c, n)
    ensures Leads(c, c.root, v)
    decreases n
  {
    if n == 0 {
      assert Trail(c, [v]) && [v][0] == c.root;
    } else if v in Within(c, n - 1) {
      RootLeads(c, v, n - 1);
    } else {
      var e := EdgeBefore(c.edges, Within(c, n - 1) * Ids(c.nodes), v);
      RootLeads(c, e.source, n - 1);
      LeadsOn(c, c.root, e);
    }
  }

  lemma LeadsOn(c: Chain, a: string, e: Edge)
    requires Leads(c, a, e.source) && e in c.edges
    ensures exists p :: Trail(c, p) && |p| > 1 && p[0] == a && p[|p| - 1] == e.target
    ensures Leads(c, a, e.target)
  {
    var p :| Trail(c, p) && p[0] == a && p[|p| - 1] == e.source;
    var q := p + [e.target];
    assert Trail(c, q) by {
      forall i | 0 <= i < |q| - 1
        ensures Edge(q[i], q[i + 1]) in c.edges
      {
        if i < |p| - 1 {
          assert Edge(p[i], p[i + 1]) in c.edges;
        } else {
          assert Edge(q[i], q[i + 1]) == e;
        }
      }
    }
    assert |q| > 1 && q[0] == a && q[|q| - 1] == e.target;
  }

  lemma EdgeIntoRootIsCycle(c: Chain, e: Edge)
    requires Normal(c) && e in c.edges && Reached(c, e.source) && e.target == c.root
    ensures ReachedCycle(c)
  {
    var n: nat :| e.source in Within(c, n);
    RootLeads(c, e.source, n);
    LeadsOn(c, c.root, e);
    var p :| Trail(c, p) && |p| > 1 && p[0] == c.root && p[|p| - 1] == e.target;
    assert c.root in Within(c, 0);
    assert Reached(c, p[0]);
  }

  lemma MetTwiceIsCycleOrJoin(c: Chain)
    requires Normal(c) && MeetsTwice(c)
    ensures ReachedCycle(c) || BranchesJoin(c)
  {
    var v :| v in ReachedIds(c) && Entries(c, ReachedIds(c), v) >= 2;
    if Arrivals(c.edges, ReachedIds(c), v) >= 2 {
      var i, j := ArrivingPair(c.edges, ReachedIds(c), v);
    } else {
      var i := ArrivingEdge(c.edges, ReachedIds(c), v);
      EdgeIntoRootIsCycle(c, c.edges[i]);
    }
  }

  /** A block is met twice, and so a cycle is reported, if and only if there is a cycle among
      the reachable blocks or two edges between them come together. */
  lemma CycleIsReportedIff(c: Chain)
    requires Normal(c)
    ensures MeetsTwice(c) <==> ReachedCycle(c) || BranchesJoin(c)
  {
    if MeetsTwice(c) {
      MetTwiceIsCycleOrJoin(c);
    }
    if ReachedCycle(c) {
      CycleIsMetTwice(c);
    }
    if BranchesJoin(c) {
      JoinIsMetTwice(c);
    }
  }

  /** The report of a cycle is wrong exactly when the reachable blocks have none and two edges
      between them come together; a cycle is never missed. */
  lemma WrongReportIff(c: Chain, report: Report)
    requires Normal(c) && (CycleFound in report.errors <==> MeetsTwice(c))
    ensures ReachedCycle(c) ==> CycleFound in report.errors
    ensures CycleFound in report.errors && !ReachedCycle(c) <==> BranchesJoin(c) && !ReachedCycle(c)
  {
    CycleIsReportedIff(c);
  }

  // ---- A chain that is refused for a cycle it does not have ----

  predicate Upward(e: Edge) {
    |e.source| == |e.target| == 1 && e.source[0] < e.target[0]
  }

  lemma {:induction false} TrailGrows(c: Chain, p: seq<string>)
    requires Trail(c, p) && |p| > 1 && forall e :: e in c.edges ==> Upward(e)
    ensures |p[0]| == |p[|p| - 1]| == 1 && p[0][0] < p[|p| - 1][0]
  {
    var n := |p| - 1;
    assert Edge(p[n - 1], p[n - 1 + 1]) in c.edges && Upward(Edge(p[n - 1], p[n]));
    if n > 1 {
      var q := p[..n];
      assert Trail(c, q) by {
        forall i | 0 <= i < |q| - 1
          ensures Edge(q[i], q[i + 1]) in c.edges
        {
          assert Edge(p[i], p[i + 1]) in c.edges;
        }
      }
      TrailGrows(c, q);
    }
  }

  lemma AcyclicChainIsReported(c: Chain)
    requires c.root == "1" && c.edges == [Edge("1", "2"), Edge("1", "3"), Edge("2", "4"), Edge("3", "4")]
    requires Normal(c)
    ensures MeetsTwice(c) && !ReachedCycle(c)
  {
    assert "1" in Within(c, 0);
    ReachedStep(c, c.edges[0]);
    ReachedStep(c, c.edges[1]);
    JoiningBranchesAreReportedAsCycle(c, c.edges[2], c.edges[3]);
    forall p | Trail(c, p) && |p| > 1
      ensures p[0] != p[|p| - 1]
    {
      TrailGrows(c, p);
    }
  }
}
