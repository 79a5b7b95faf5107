/** A successful walk lists each reachable session exactly once, so its usage is counted once. */
module DelegationCounts {
  import opened Wrappers
  import opened Delegation
  import opened DelegationLaws

  // ---- Members ---------------------------------------------------------------------------------------

  lemma {:induction false} CollectedIsBelow(m: Sessions, id: string, visiting: set<string>, x: string)
    requires Collect(m, id, visiting).Success? && x in Collect(m, id, visiting).value
    ensures Below(m, id, x)
    decreases m.Keys - visiting, 0
  {
    if x == id {
      assert PathFrom(m, [id], id) && [id][0] == x;
    } else {
      var s := CollectedFromChild(m, id, Spawns(m[id].log), visiting + {id}, x);
      var p :| PathFrom(m, p, s.child) && p[|p| - 1] == x;
      assert Edge(m, id, p[0]);
      PathCons(m, id, p);
      assert ([id] + p)[|p|] == x;
    }
  }

  lemma {:induction false} CollectedFromChild(
    m: Sessions, id: string, spawns: seq<Spawn>, visiting: set<string>, x: string) returns (s: Spawn)
    requires id in m && CollectAll(m, id, spawns, visiting).Success?
    requires x in CollectAll(m, id, spawns, visiting).value
    ensures s in spawns && Below(m, s.child, x)
    decreases m.Keys - visiting, 1 + |spawns|
  {
    s := spawns[0];
    if x in Collect(m, s.child, visiting).value {
      CollectedIsBelow(m, s.child, visiting, x);
    } else {
      s := CollectedFromChild(m, id, spawns[1..], visiting, x);
    }
  }

  lemma {:induction false} BelowIsCollected(m: Sessions, id: string, visiting: set<string>, p: seq<string>)
    requires Collect(m, id, visiting).Success? && PathFrom(m, p, id)
    ensures p[|p| - 1] in Collect(m, id, visiting).value
    decreases |p|, 0
  {
    if |p| > 1 {
      PathTail(m, p);
      var s :| s in Spawns(m[id].log) && s.child == p[1];
      ChildIsCollected(m, id, Spawns(m[id].log), visiting + {id}, s, p[1..]);
    }
  }

  lemma {:induction false} ChildIsCollected(
    m: Sessions, id: string, spawns: seq<Spawn>, visiting: set<string>, s: Spawn, p: seq<string>)
    requires id in m && CollectAll(m, id, spawns, visiting).Success?
    requires s in spawns && PathFrom(m, p, s.child)
    ensures p[|p| - 1] in CollectAll(m, id, spawns, visiting).value
    decreases |p|, 1 + |spawns|
  {
    if s == spawns[0] {
      BelowIsCollected(m, s.child, visiting, p);
    } else {
      ChildIsCollected(m, id, spawns[1..], visiting, s, p);
    }
  }

  lemma CollectedIffBelow(m: Sessions, root: string, x: string)
    requires Collect(m, root, {}).Success?
    ensures x in Collect(m, root, {}).value <==> Below(m, root, x)
  {
    if x in Collect(m, root, {}).value { CollectedIsBelow(m, root, {}, x); }
    if Below(m, root, x) {
      var p :| PathFrom(m, p, root) && p[|p| - 1] == x;
      BelowIsCollected(m, root, {}, p);
    }
  }

  // ---- No session twice --------------------------------------------------------------------------------

  ghost predicate DistinctSpawns(m: Sessions) {
    forall k :: k in m ==>
      var spawns := Spawns(m[k].log);
      forall i, j :: 0 <= i < j < |spawns| ==> spawns[i].spawnId != spawns[j].spawnId
  }

  /** Two linked paths to the same session share their ends: the shorter is a suffix of the longer. */
  lemma {:induction false} LinkedPathsShareEnds(m: Sessions, p: seq<string>, q: seq<string>)
    requires WellKeyed(m) && Path(m, p) && Path(m, q) && p[|p| - 1] == q[|q| - 1] && |p| <= |q|
    requires forall i :: 0 <= i < |p| ==> Linked(m, p[i])
    requires forall i :: 0 <= i < |q| ==> Linked(m, q[i])
    ensures p[0] == q[|q| - |p|]
    decreases |p|
  {
    if |p| > 1 {
      var x := p[|p| - 1];
      assert Edge(m, p[|p| - 2], p[|p| - 2 + 1]) && Edge(m, q[|q| - 2], q[|q| - 2 + 1]);
      ParentIsUnique(m, p[|p| - 2], x);
      ParentIsUnique(m, q[|q| - 2], x);
      PathPrefix(m, p, |p| - 1);
      PathPrefix(m, q, |q| - 1);
      LinkedPathsShareEnds(m, p[..|p| - 1], q[..|q| - 1]);
    }
  }

  /** Two children of one session that have a session below both are the same child. */
  lemma SiblingsDoNotMeet(
    m: Sessions, id: string, a: string, b: string, p: seq<string>, q: seq<string>, visiting: set<string>)
    requires WellKeyed(m) && id in visiting && |p| <= |q|
    requires PathFrom(m, p, a) && PathGood(m, p, visiting) && PathFrom(m, q, b) && PathGood(m, q, visiting)
    requires p[|p| - 1] == q[|q| - 1]
    requires a in m && m[a].header.parent == Some(id)
    ensures a == b
  {
    LinkedPathsShareEnds(m, p, q);
    var k := |q| - |p|;
    if k > 0 {
      assert q[k - 1] !in visiting && Edge(m, q[k - 1], q[k - 1 + 1]);
      ParentIsUnique(m, q[k - 1], a);
    }
  }

  lemma {:induction false} CollectedOnce(m: Sessions, id: string, visiting: set<string>)
    requires WellKeyed(m) && DistinctSpawns(m) && Collect(m, id, visiting).Success?
    ensures Distinct(Collect(m, id, visiting).value)
    decreases m.Keys - visiting, 0
  {
    var spawns := Spawns(m[id].log);
    var stack := visiting + {id};
    AllSucceed(m, id, spawns, stack);
    ChildrenCollectedOnce(m, id, spawns, stack);
    var below := CollectAll(m, id, spawns, stack).value;
    forall x | x in below ensures x != id {
      NotOnStack(m, id, spawns, stack, x);
    }
    var all := [id] + below;
    forall i, j | 0 <= i < j < |all| ensures all[i] != all[j] {
      assert all[j] == below[j - 1] && below[j - 1] in below;
      if i > 0 { assert all[i] == below[i - 1]; }
    }
  }

  lemma NotOnStack(m: Sessions, id: string, spawns: seq<Spawn>, visiting: set<string>, x: string)
    requires id in m && CollectAll(m, id, spawns, visiting).Success?
    requires x in CollectAll(m, id, spawns, visiting).value
    ensures x !in visiting
  {
    var s := CollectedFromChild(m, id, spawns, visiting, x);
    AllSucceed(m, id, spawns, visiting);
    var p :| PathFrom(m, p, s.child) && p[|p| - 1] == x;
    SuccessMeansGoodPaths(m, s.child, visiting, p);
  }

  lemma {:induction false} ChildrenCollectedOnce(m: Sessions, id: string, spawns: seq<Spawn>, visiting: set<string>)
    requires WellKeyed(m) && DistinctSpawns(m) && id in m && id in visiting
    requires CollectAll(m, id, spawns, visiting).Success?
    requires forall i, j :: 0 <= i < j < |spawns| ==> spawns[i].spawnId != spawns[j].spawnId
    ensures Distinct(CollectAll(m, id, spawns, visiting).value)
    decreases m.Keys - visiting, 1 + |spawns|
  {
    if spawns != [] {
      var s := spawns[0];
      CollectedOnce(m, s.child, visiting);
      ChildrenCollectedOnce(m, id, spawns[1..], visiting);
      var first := Collect(m, s.child, visiting).value;
      var rest := CollectAll(m, id, spawns[1..], visiting).value;
      forall x | x in first ensures x !in rest {
        FirstAndRestDisjoint(m, id, spawns, visiting, x);
      }
      DistinctConcat(first, rest);
    }
  }

  lemma DistinctConcat(a: seq<string>, b: seq<string>)
    requires Distinct(a) && Distinct(b) && forall x :: x in a ==> x !in b
    ensures Distinct(a + b)
  {
    var c := a + b;
    forall i, j | 0 <= i < j < |c| ensures c[i] != c[j] {
      if i < |a| <= j { assert c[i] in a && c[j] == b[j - |a|] && c[j] in b; }
    }
  }

  lemma FirstAndRestDisjoint(m: Sessions, id: string, spawns: seq<Spawn>, visiting: set<string>, x: string)
    requires WellKeyed(m) && id in m && id in visiting && spawns != []
    requires CollectAll(m, id, spawns, visiting).Success?
    requires forall i, j :: 0 <= i < j < |spawns| ==> spawns[i].spawnId != spawns[j].spawnId
    requires x in Collect(m, spawns[0].child, visiting).value
    ensures x !in CollectAll(m, id, spawns[1..], visiting).value
  {
    if x in CollectAll(m, id, spawns[1..], visiting).value {
      var s := spawns[0];
      var t := CollectedFromChild(m, id, spawns[1..], visiting, x);
      AllSucceed(m, id, spawns, visiting);
      assert t in spawns;
      CollectedIsBelow(m, s.child, visiting, x);
      var p :| PathFrom(m, p, s.child) && p[|p| - 1] == x;
      var q :| PathFrom(m, q, t.child) && q[|q| - 1] == x;
      SuccessMeansGoodPaths(m, s.child, visiting, p);
      SuccessMeansGoodPaths(m, t.child, visiting, q);
      var j :| 1 <= j < |spawns| && spawns[j] == t;
      assert spawns[0].spawnId != spawns[j].spawnId;
      assert s.child != t.child;
      if |p| <= |q| {
        SiblingsDoNotMeet(m, id, s.child, t.child, p, q, visiting);
      } else {
        SiblingsDoNotMeet(m, id, t.child, s.child, q, p, visiting);
      }
    }
  }

  /** With distinct spawn ids a successful walk lists exactly the reachable sessions, each once. */
  lemma WalkListsReachableOnce(m: Sessions, root: string)
    requires WellKeyed(m) && DistinctSpawns(m) && Collect(m, root, {}).Success?
    ensures var list := Collect(m, root, {}).value;
            Distinct(list) && forall x :: x in list <==> Below(m, root, x)
  {
    CollectedOnce(m, root, {});
    forall x ensures x in Collect(m, root, {}).value <==> Below(m, root, x) { CollectedIffBelow(m, root, x); }
  }
}
