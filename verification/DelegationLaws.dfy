/** When the walk succeeds, what it lists, and where the cycles can be. */
module DelegationLaws {
  import opened Wrappers
  import opened Events
  import opened Delegation

  // ---- The graph ---------------------------------------------------------------------------------------

  ghost predicate Edge(m: Sessions, a: string, b: string) {
    a in m && exists s :: s in Spawns(m[a].log) && s.child == b
  }

  /** A nonempty sequence of sessions, each spawned by the one before. */
  ghost predicate Path(m: Sessions, p: seq<string>) {
    p != [] && forall i :: 0 <= i < |p| - 1 ==> Edge(m, p[i], p[i + 1])
  }

  ghost predicate PathFrom(m: Sessions, p: seq<string>, a: string) {
    Path(m, p) && p[0] == a
  }

  ghost predicate Below(m: Sessions, a: string, b: string) {
    exists p :: PathFrom(m, p, a) && p[|p| - 1] == b
  }

  /** The session exists and every child it names exists and points back. */
  ghost predicate Linked(m: Sessions, id: string) {
    id in m && forall s :: s in Spawns(m[id].log) ==> CheckLink(m, id, s).None?
  }

  ghost predicate Distinct(p: seq<string>) {
    forall i, j :: 0 <= i < j < |p| ==> p[i] != p[j]
  }

  ghost predicate PathGood(m: Sessions, p: seq<string>, visiting: set<string>) {
    Distinct(p) && forall i :: 0 <= i < |p| ==> p[i] !in visiting && Linked(m, p[i])
  }

  lemma PathTail(m: Sessions, p: seq<string>)
    requires Path(m, p) && |p| > 1
    ensures PathFrom(m, p[1..], p[1]) && Edge(m, p[0], p[1])
  {
    var q := p[1..];
    forall i | 0 <= i < |q| - 1 ensures Edge(m, q[i], q[i + 1]) {
      assert Edge(m, p[i + 1], p[i + 2]);
    }
  }

  lemma PathCons(m: Sessions, a: string, p: seq<string>)
    requires Path(m, p) && Edge(m, a, p[0])
    ensures PathFrom(m, [a] + p, a) && ([a] + p)[1..] == p
  {
    var q := [a] + p;
    forall i | 0 <= i < |q| - 1 ensures Edge(m, q[i], q[i + 1]) {
      if i > 0 { assert Edge(m, p[i - 1], p[i]); }
    }
  }

  // ---- The walk succeeds exactly on good paths ---------------------------------------------------------

  lemma {:induction false} AllSucceed(m: Sessions, id: string, spawns: seq<Spawn>, visiting: set<string>)
    requires id in m && CollectAll(m, id, spawns, visiting).Success?
    ensures forall s :: s in spawns ==> CheckLink(m, id, s).None? && Collect(m, s.child, visiting).Success?
    decreases |spawns|
  {
    if spawns != [] {
      AllSucceed(m, id, spawns[1..], visiting);
    }
  }

  lemma {:induction false} SuccessMeansGoodPaths(m: Sessions, id: string, visiting: set<string>, p: seq<string>)
    requires Collect(m, id, visiting).Success? && PathFrom(m, p, id)
    ensures PathGood(m, p, visiting)
    decreases |p|
  {
    AllSucceed(m, id, Spawns(m[id].log), visiting + {id});
    if |p| > 1 {
      PathTail(m, p);
      SuccessMeansGoodPaths(m, p[1], visiting + {id}, p[1..]);
      forall i | 1 <= i < |p| ensures p[i] !in visiting && p[i] != id && Linked(m, p[i]) {
        assert p[1..][i - 1] == p[i];
      }
      forall i, j | 1 <= i < j < |p| ensures p[i] != p[j] {
        assert p[1..][i - 1] != p[1..][j - 1];
      }
    }
  }

  ghost predicate AllPathsGood(m: Sessions, id: string, visiting: set<string>) {
    forall p :: PathFrom(m, p, id) ==> PathGood(m, p, visiting)
  }

  lemma {:induction false} GoodPathsSucceed(m: Sessions, id: string, visiting: set<string>)
    requires AllPathsGood(m, id, visiting)
    ensures Collect(m, id, visiting).Success?
    decreases m.Keys - visiting, 0
  {
    assert PathFrom(m, [id], id);
    assert PathGood(m, [id], visiting);
    assert [id][0] !in visiting && Linked(m, [id][0]);
    forall s | s in Spawns(m[id].log)
      ensures CheckLink(m, id, s).None? && AllPathsGood(m, s.child, visiting + {id})
    {
      ChildPathsGood(m, id, s, visiting);
    }
    AllChildrenSucceed(m, id, Spawns(m[id].log), visiting + {id});
  }

  lemma ChildPathsGood(m: Sessions, id: string, s: Spawn, visiting: set<string>)
    requires AllPathsGood(m, id, visiting) && id in m && s in Spawns(m[id].log)
    ensures AllPathsGood(m, s.child, visiting + {id})
  {
    forall p | PathFrom(m, p, s.child) ensures PathGood(m, p, visiting + {id}) {
      assert Edge(m, id, p[0]);
      PathCons(m, id, p);
      var q := [id] + p;
      assert PathGood(m, q, visiting);
      forall i | 0 <= i < |p| ensures p[i] !in visiting + {id} && Linked(m, p[i]) {
        assert q[i + 1] == p[i] && q[0] != q[i + 1];
      }
      forall i, j | 0 <= i < j < |p| ensures p[i] != p[j] {
        assert q[i + 1] != q[j + 1];
      }
    }
  }

  lemma {:induction false} AllChildrenSucceed(m: Sessions, id: string, spawns: seq<Spawn>, visiting: set<string>)
    requires id in m
    requires forall s :: s in spawns ==> CheckLink(m, id, s).None? && AllPathsGood(m, s.child, visiting)
    ensures CollectAll(m, id, spawns, visiting).Success?
    decreases m.Keys - visiting, 1 + |spawns|
  {
    if spawns != [] {
      assert spawns[0] in spawns;
      GoodPathsSucceed(m, spawns[0].child, visiting);
      AllChildrenSucceed(m, id, spawns[1..], visiting);
    }
  }

  // ---- In graph terms ------------------------------------------------------------------------------------

  ghost predicate AllLinked(m: Sessions, root: string) {
    forall x :: Below(m, root, x) ==> Linked(m, x)
  }

  /** A closed path of at least one step. */
  ghost predicate CycleAt(m: Sessions, c: seq<string>) {
    Path(m, c) && |c| > 1 && c[0] == c[|c| - 1]
  }

  ghost predicate NoCycleBelow(m: Sessions, root: string) {
    forall c :: CycleAt(m, c) ==> !Below(m, root, c[0])
  }

  lemma PathPrefix(m: Sessions, p: seq<string>, k: nat)
    requires Path(m, p) && 0 < k <= |p|
    ensures PathFrom(m, p[..k], p[0])
  {
    var q := p[..k];
    forall i | 0 <= i < |q| - 1 ensures Edge(m, q[i], q[i + 1]) {
      assert Edge(m, p[i], p[i + 1]);
    }
  }

  lemma PathSlice(m: Sessions, p: seq<string>, i: nat, j: nat)
    requires Path(m, p) && i < j <= |p|
    ensures PathFrom(m, p[i..j], p[i])
  {
    var q := p[i..j];
    forall k | 0 <= k < |q| - 1 ensures Edge(m, q[k], q[k + 1]) {
      assert Edge(m, p[i + k], p[i + k + 1]);
    }
  }

  lemma PathJoin(m: Sessions, p: seq<string>, q: seq<string>)
    requires Path(m, p) && Path(m, q) && p[|p| - 1] == q[0]
    ensures PathFrom(m, p + q[1..], p[0])
    ensures (p + q[1..])[|p| + |q| - 2] == q[|q| - 1]
  {
    var r := p + q[1..];
    forall i | 0 <= i < |r| - 1 ensures Edge(m, r[i], r[i + 1]) {
      if i < |p| - 1 {
        assert Edge(m, p[i], p[i + 1]);
      } else {
        assert Edge(m, q[i - |p| + 1], q[i - |p| + 2]);
      }
    }
  }

  lemma GoodIffGraph(m: Sessions, root: string)
    ensures AllPathsGood(m, root, {}) <==> AllLinked(m, root) && NoCycleBelow(m, root)
  {
    if AllPathsGood(m, root, {}) {
      forall x | Below(m, root, x) ensures Linked(m, x) {
        var p :| PathFrom(m, p, root) && p[|p| - 1] == x;
      }
      forall c | CycleAt(m, c) && Below(m, root, c[0]) ensures false {
        CycleMakesBadPath(m, root, c);
      }
    }
    if AllLinked(m, root) && NoCycleBelow(m, root) {
      forall p | PathFrom(m, p, root) ensures PathGood(m, p, {}) {
        PathGoodFromGraph(m, root, p);
      }
    }
  }

  lemma CycleMakesBadPath(m: Sessions, root: string, c: seq<string>)
    requires CycleAt(m, c) && Below(m, root, c[0])
    ensures !AllPathsGood(m, root, {})
  {
    var p :| PathFrom(m, p, root) && p[|p| - 1] == c[0];
    PathJoin(m, p, c);
    var r := p + c[1..];
    assert r[|p| - 1] == r[|p| + |c| - 2];
    assert !Distinct(r);
  }

  lemma PathGoodFromGraph(m: Sessions, root: string, p: seq<string>)
    requires AllLinked(m, root) && NoCycleBelow(m, root) && PathFrom(m, p, root)
    ensures PathGood(m, p, {})
  {
    hide Edge, Linked;
    forall i | 0 <= i < |p| ensures Below(m, root, p[i]) {
      PathPrefix(m, p, i + 1);
      assert p[..i + 1][i] == p[i];
    }
    forall i, j | 0 <= i < j < |p| ensures p[i] != p[j] {
      NoReturn(m, root, p, i, j);
    }
  }

  lemma NoReturn(m: Sessions, root: string, p: seq<string>, i: nat, j: nat)
    requires NoCycleBelow(m, root) && Path(m, p) && i < j < |p| && Below(m, root, p[i])
    ensures p[i] != p[j]
  {
    hide Edge, Below;
    PathSlice(m, p, i, j + 1);
    var c := p[i..j + 1];
    assert c[0] == p[i] && c[j - i] == p[j];
    assert CycleAt(m, c) || p[i] != p[j];
  }

  /**
    The walk returns normally exactly when every reachable session exists, every reachable link is
    reciprocal, and no cycle is reachable.
    */
  lemma CollectSucceedsIff(m: Sessions, root: string)
    ensures Collect(m, root, {}).Success? <==> AllLinked(m, root) && NoCycleBelow(m, root)
  {
    if Collect(m, root, {}).Success? {
      forall p | PathFrom(m, p, root) ensures PathGood(m, p, {}) {
        SuccessMeansGoodPaths(m, root, {}, p);
      }
    }
    GoodIffGraph(m, root);
    if AllPathsGood(m, root, {}) { GoodPathsSucceed(m, root, {}); }
  }

  // ---- Reciprocal links make a forest ------------------------------------------------------------------

  /** The store keeps each session under its own id. */
  ghost predicate WellKeyed(m: Sessions) {
    forall k :: k in m ==> m[k].header.id == k
  }

  /** A linked session is the parent its children name. */
  lemma ParentIsUnique(m: Sessions, a: string, x: string)
    requires WellKeyed(m) && Linked(m, a) && Edge(m, a, x)
    ensures x in m && m[x].header.parent == Some(a)
  {
  }

  /** Where links are reciprocal, a path can only enter a cycle by starting on it. */
  lemma {:induction false} PathIntoCycleStartsOnIt(m: Sessions, p: seq<string>, c: seq<string>)
    requires WellKeyed(m) && Path(m, p) && CycleAt(m, c) && p[|p| - 1] in c
    requires forall i :: 0 <= i < |p| ==> Linked(m, p[i])
    requires forall i :: 0 <= i < |c| ==> Linked(m, c[i])
    ensures p[0] in c
    decreases |p|
  {
    if |p| > 1 {
      var x := p[|p| - 1];
      var j :| 0 <= j < |c| && c[j] == x;
      var before := if j == 0 then |c| - 2 else j - 1;
      assert Edge(m, c[before], c[before + 1]);
      assert c[before + 1] == x;
      ParentIsUnique(m, c[before], x);
      assert Edge(m, p[|p| - 2], p[|p| - 2 + 1]);
      ParentIsUnique(m, p[|p| - 2], x);
      PathPrefix(m, p, |p| - 1);
      PathIntoCycleStartsOnIt(m, p[..|p| - 1], c);
    }
  }

  lemma BelowNodesLinked(m: Sessions, root: string, p: seq<string>)
    requires AllLinked(m, root) && Path(m, p) && Below(m, root, p[0])
    ensures forall i :: 0 <= i < |p| ==> Linked(m, p[i])
  {
    var q :| PathFrom(m, q, root) && q[|q| - 1] == p[0];
    forall i | 0 <= i < |p| ensures Linked(m, p[i]) {
      PathPrefix(m, p, i + 1);
      PathJoin(m, q, p[..i + 1]);
      assert Below(m, root, p[i]);
    }
  }

  /** Every reachable cycle of reciprocal links passes through the root. */
  lemma ReachableCyclesPassTheRoot(m: Sessions, root: string, c: seq<string>)
    requires WellKeyed(m) && AllLinked(m, root) && CycleAt(m, c) && Below(m, root, c[0])
    ensures root in c
  {
    var p :| PathFrom(m, p, root) && p[|p| - 1] == c[0];
    assert PathFrom(m, [root], root) && [root][0] == root;
    BelowNodesLinked(m, root, p);
    BelowNodesLinked(m, root, c);
    PathIntoCycleStartsOnIt(m, p, c);
  }

  /** So from a session without a parent only a missing session or a broken link can stop the walk. */
  lemma RootWithoutParent(m: Sessions, root: string)
    requires WellKeyed(m) && root in m && m[root].header.parent == None
    ensures Collect(m, root, {}).Success? <==> AllLinked(m, root)
  {
    if AllLinked(m, root) {
      forall c | CycleAt(m, c) && Below(m, root, c[0]) ensures false {
        ReachableCyclesPassTheRoot(m, root, c);
        BelowNodesLinked(m, root, c);
        CycleMembersHaveParents(m, c, root);
      }
    }
    CollectSucceedsIff(m, root);
  }

  lemma CycleMembersHaveParents(m: Sessions, c: seq<string>, x: string)
    requires WellKeyed(m) && CycleAt(m, c) && x in c
    requires forall i :: 0 <= i < |c| ==> Linked(m, c[i])
    ensures x in m && m[x].header.parent.Some?
  {
    var j :| 0 <= j < |c| && c[j] == x;
    var before := if j == 0 then |c| - 2 else j - 1;
    assert Edge(m, c[before], c[before + 1]);
    ParentIsUnique(m, c[before], x);
  }

  // ---- Links in terms of logs and headers -------------------------------------------------------------------

  lemma {:induction false} SpawnsAre(log: seq<Event>)
    ensures forall s :: s in Spawns(log) <==> exists e :: e in log && e.payload == AgentSpawn(s.spawnId, s.child)
  {
    if log != [] {
      var init, last := log[..|log| - 1], log[|log| - 1];
      assert log == init + [last];
      SpawnsAre(init);
    }
  }

  ghost predicate Names(m: Sessions, id: string, child: string) {
    id in m && exists e :: e in m[id].log && e.payload.AgentSpawn? && e.payload.childSessionId == child
  }

  /** A session is linked when every child its log names exists, and names it and the spawn in its own header. */
  lemma LinkedMeans(m: Sessions, id: string)
    ensures Linked(m, id)
       <==> id in m && forall e :: e in m[id].log && e.payload.AgentSpawn? ==>
              && e.payload.childSessionId in m
              && m[e.payload.childSessionId].header.parent == Some(m[id].header.id)
              && m[e.payload.childSessionId].header.spawnId == Some(e.payload.spawnId)
    ensures forall child :: Edge(m, id, child) <==> Names(m, id, child)
  {
    if id in m {
      SpawnsAre(m[id].log);
      forall e | e in m[id].log && e.payload.AgentSpawn?
        ensures Spawn(e.payload.spawnId, e.payload.childSessionId) in Spawns(m[id].log)
      {
        assert e.payload == AgentSpawn(e.payload.spawnId, e.payload.childSessionId);
      }
    }
  }

  /** What is wrong with a link: a missing child, or one whose header names another parent or spawn. */
  lemma LinkErrors(m: Sessions, id: string, spawnId: string, child: string)
    requires id in m
    ensures child !in m ==> CheckLink(m, id, Spawn(spawnId, child)) == Some(Missing(child))
    ensures child in m
            && (m[child].header.parent != Some(m[id].header.id) || m[child].header.spawnId != Some(spawnId)) ==>
              CheckLink(m, id, Spawn(spawnId, child)) == Some(BrokenLink(spawnId))
  {
  }
}
