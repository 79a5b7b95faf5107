/**
  Forests grown by spawning: every sequence of spawns with fresh ids keeps links reciprocal, gives each
  child its ancestor path, and stays free of cycles, so the delegation tree can always be built.
  */
module DelegationGrowth {
  import opened Wrappers
  import opened Events
  import opened JsonValues
  import opened Delegation
  import opened DelegationLaws
  import opened DelegationCounts
  import opened DelegationTree

  // ---- What spawning does to the sessions ---------------------------------------------------------------

  /** The header of a session spawned by `parent`. */
  function ChildHeader(parent: Header, spawnId: string, childId: string): Header {
    Header(
      childId,
      Some(parent.id),
      if parent.root.Some? then parent.root else Some(parent.id),
      Some(spawnId),
      parent.chain + [Link(parent.id, parent.spawnId)])
  }

  function RootHeader(id: string): Header {
    Header(id, None, None, None, [])
  }

  function Append(r: Record, p: Payload): Record {
    r.(log := r.log + [Event(|r.log|, p)])
  }

  datatype Growth =
    | Open(id: string)
    | SpawnAgent(parent: string, spawnId: string, childId: string, task: Json, result: Payload)
    | Write(id: string, payload: Payload)

  ghost predicate Admissible(m: Sessions, g: Growth) {
    match g
    case Open(id) => id !in m
    case SpawnAgent(parent, spawnId, childId, _, result) =>
      && parent in m && childId !in m && result.ToolResult?
      && forall k :: k in m ==> FreshIn(m[k], spawnId)
    case Write(id, p) =>
      && id in m && !p.AgentSpawn?
      && (p.AgentResult? ==> ResultsFor(m[id].log, p.spawnId) == [])
  }

  /** No spawn and no result of this log carries the id. */
  ghost predicate FreshIn(r: Record, spawnId: string) {
    && (forall s :: s in Spawns(r.log) ==> s.spawnId != spawnId)
    && ResultsFor(r.log, spawnId) == []
  }

  /** The receipt tool records the spawn in the parent's log, answers its call, and stores the child. */
  function Grow(m: Sessions, g: Growth): Sessions
    requires g.SpawnAgent? ==> g.parent in m
    requires g.Write? ==> g.id in m
  {
    match g
    case Open(id) => m[id := Record(RootHeader(id), [])]
    case SpawnAgent(parent, spawnId, childId, task, result) =>
      m[parent := Append(Append(m[parent], Payload.AgentSpawn(spawnId, childId)), result)]
       [childId := Record(ChildHeader(m[parent].header, spawnId, childId), [Event(0, UserMessage(task))])]
    case Write(id, p) => m[id := Append(m[id], p)]
  }

  ghost predicate Grows(from: Sessions, steps: seq<Growth>, to: Sessions)
    decreases |steps|
  {
    if steps == [] then from == to
    else Admissible(from, steps[0]) && Grows(Grow(from, steps[0]), steps[1..], to)
  }

  ghost predicate Grown(m: Sessions) {
    exists steps :: Grows(map[], steps, m)
  }

  lemma {:induction false} GrowsNext(from: Sessions, steps: seq<Growth>, to: Sessions, g: Growth)
    requires Grows(from, steps, to) && Admissible(to, g)
    ensures Grows(from, steps + [g], Grow(to, g))
    decreases |steps|
  {
    hide Grow, FreshIn;
    if steps == [] {
      assert steps + [g] == [g] && [g][1..] == [];
    } else {
      assert (steps + [g])[1..] == steps[1..] + [g];
      GrowsNext(Grow(from, steps[0]), steps[1..], to, g);
    }
  }

  lemma GrownNext(m: Sessions, g: Growth)
    requires Grown(m) && Admissible(m, g)
    ensures Grown(Grow(m, g))
  {
    var steps :| Grows(map[], steps, m);
    GrowsNext(map[], steps, m, g);
  }

  // ---- What every grown forest keeps -----------------------------------------------------------------------

  /** A session without a parent has an empty chain; any other extends its parent's by one link. */
  ghost predicate HeaderOk(m: Sessions, k: string) {
    k in m &&
    var h := m[k].header;
    && h.id == k
    && match h.parent
       case None => h == RootHeader(k)
       case Some(p) =>
         p in m && h.spawnId.Some? && h == ChildHeader(m[p].header, h.spawnId.value, k)
  }

  ghost predicate LogOk(m: Sessions, k: string) {
    && Linked(m, k)
    && OneResult(m, k)
    && (var spawns := Spawns(m[k].log);
        forall i, j :: 0 <= i < j < |spawns| ==> spawns[i].spawnId != spawns[j].spawnId)
  }

  ghost predicate ForestOk(m: Sessions) {
    forall k :: k in m ==> HeaderOk(m, k) && LogOk(m, k)
  }

  lemma SpawnsAppend(log: seq<Event>, p: Payload)
    ensures Spawns(log + [Event(|log|, p)])
         == Spawns(log) + (if p.AgentSpawn? then [Spawn(p.spawnId, p.childSessionId)] else [])
  {
    assert (log + [Event(|log|, p)])[..|log|] == log;
  }

  lemma ResultsAppend(log: seq<Event>, p: Payload, spawnId: string)
    ensures ResultsFor(log + [Event(|log|, p)], spawnId)
         == ResultsFor(log, spawnId) + (if p.AgentResult? && p.spawnId == spawnId then [p] else [])
  {
    assert (log + [Event(|log|, p)])[..|log|] == log;
  }

  /** Headers stay valid when existing headers do not change. */
  lemma HeadersKept(m: Sessions, to: Sessions)
    requires forall k :: k in m ==> k in to && to[k].header == m[k].header
    requires forall k :: k in m ==> HeaderOk(m, k)
    ensures forall k :: k in m ==> HeaderOk(to, k)
  {
    forall k | k in m ensures HeaderOk(to, k) {
      assert HeaderOk(m, k);
    }
  }

  /** A log that does not change stays valid when existing headers do not change. */
  lemma LogKept(m: Sessions, to: Sessions, k: string)
    requires k in m && k in to && to[k].log == m[k].log && LogOk(m, k)
    requires forall x :: x in m ==> x in to && to[x].header == m[x].header
    ensures LogOk(to, k)
  {
    forall s | s in Spawns(to[k].log) ensures CheckLink(to, k, s).None? {
      assert CheckLink(m, k, s).None?;
    }
  }

  lemma OpenKeeps(m: Sessions, id: string)
    requires ForestOk(m) && id !in m
    ensures ForestOk(Grow(m, Open(id)))
  {
    var to := Grow(m, Open(id));
    HeadersKept(m, to);
    forall k | k in m ensures LogOk(to, k) { LogKept(m, to, k); }
    assert Spawns([]) == [];
  }

  lemma WriteKeeps(m: Sessions, id: string, p: Payload)
    requires ForestOk(m) && Admissible(m, Write(id, p))
    ensures ForestOk(Grow(m, Write(id, p)))
  {
    hide Spawns, ResultsFor, HeaderOk;
    var to := Grow(m, Write(id, p));
    HeadersKept(m, to);
    forall k | k in m ensures LogOk(to, k) {
      if k != id {
        LogKept(m, to, k);
      } else {
        assert LogOk(m, id);
        SpawnsAppend(m[id].log, p);
        assert Spawns(to[id].log) == Spawns(m[id].log);
        forall s | s in Spawns(to[id].log)
          ensures CheckLink(to, id, s).None? && |ResultsFor(to[id].log, s.spawnId)| <= 1
        {
          assert CheckLink(m, id, s).None?;
          ResultsAppend(m[id].log, p, s.spawnId);
        }
      }
    }
  }

  lemma SpawnKeeps(m: Sessions, g: Growth)
    requires ForestOk(m) && g.SpawnAgent? && Admissible(m, g)
    ensures ForestOk(Grow(m, g))
  {
    hide LogOk, Spawns, ResultsFor;
    var to := Grow(m, g);
    HeadersKept(m, to);
    assert HeaderOk(to, g.childId);
    forall k | k in m && k != g.parent ensures LogOk(to, k) { LogKept(m, to, k); }
    ParentLogOk(m, g);
    NewLogOk(to, g.childId, UserMessage(g.task));
  }

  /** A log of one message spawns nothing. */
  lemma NewLogOk(m: Sessions, id: string, p: Payload)
    requires id in m && m[id].log == [Event(0, p)] && p.UserMessage?
    ensures LogOk(m, id)
  {
    assert [Event(0, p)][..0] == [];
    assert Spawns(m[id].log) == [];
  }

  lemma ParentLogOk(m: Sessions, g: Growth)
    requires ForestOk(m) && g.SpawnAgent? && Admissible(m, g)
    ensures LogOk(Grow(m, g), g.parent)
  {
    hide Spawns, ResultsFor;
    var to, k := Grow(m, g), g.parent;
    var log := m[k].log;
    var p := Payload.AgentSpawn(g.spawnId, g.childId);
    var log1 := log + [Event(|log|, p)];
    assert HeaderOk(m, k) && LogOk(m, k);
    SpawnsAppend(log, p);
    SpawnsAppend(log1, g.result);
    var spawns := Spawns(log) + [Spawn(g.spawnId, g.childId)];
    assert Spawns(to[k].log) == spawns;
    forall s | s in spawns
      ensures CheckLink(to, k, s).None? && |ResultsFor(to[k].log, s.spawnId)| <= 1
    {
      ResultsAppend(log, p, s.spawnId);
      ResultsAppend(log1, g.result, s.spawnId);
      if s in Spawns(log) { assert CheckLink(m, k, s).None?; }
    }
    forall i, j | 0 <= i < j < |spawns| ensures spawns[i].spawnId != spawns[j].spawnId {
      assert spawns[i] in Spawns(log);
    }
  }

  lemma {:induction false} GrowthKeepsForest(from: Sessions, steps: seq<Growth>, to: Sessions)
    requires ForestOk(from) && Grows(from, steps, to)
    ensures ForestOk(to)
    decreases |steps|
  {
    if steps != [] {
      match steps[0] {
        case Open(id) => OpenKeeps(from, id);
        case SpawnAgent(_, _, _, _, _) => SpawnKeeps(from, steps[0]);
        case Write(id, p) => WriteKeeps(from, id, p);
      }
      GrowthKeepsForest(Grow(from, steps[0]), steps[1..], to);
    }
  }

  lemma GrownForestOk(m: Sessions)
    requires Grown(m)
    ensures ForestOk(m) && WellKeyed(m) && DistinctSpawns(m)
    ensures forall k :: k in m ==> Linked(m, k) && OneResult(m, k)
  {
    var steps :| Grows(map[], steps, m);
    GrowthKeepsForest(map[], steps, m);
    forall k | k in m ensures m[k].header.id == k && Linked(m, k) && OneResult(m, k) {
      assert HeaderOk(m, k) && LogOk(m, k);
    }
    forall k | k in m
      ensures var spawns := Spawns(m[k].log);
              forall i, j :: 0 <= i < j < |spawns| ==> spawns[i].spawnId != spawns[j].spawnId
    {
      assert LogOk(m, k);
    }
  }

  // ---- The chain is the ancestor path --------------------------------------------------------------------

  /** The ids of a chain, and the session itself. */
  function Ancestry(h: Header): (p: seq<string>)
    ensures |p| == |h.chain| + 1
  {
    seq(|h.chain|, i requires 0 <= i < |h.chain| => h.chain[i].sessionId) + [h.id]
  }

  /** Each step of a path adds one link to the chain. */
  lemma EdgeExtendsChain(m: Sessions, a: string, b: string)
    requires ForestOk(m) && Edge(m, a, b)
    ensures b in m && m[b].header.parent == Some(a)
    ensures m[b].header.chain == m[a].header.chain + [Link(a, m[a].header.spawnId)]
  {
    assert HeaderOk(m, a) && LogOk(m, a);
    var s :| s in Spawns(m[a].log) && s.child == b;
    assert CheckLink(m, a, s).None?;
    assert HeaderOk(m, b);
  }

  lemma {:induction false} PathLengthensChain(m: Sessions, p: seq<string>)
    requires ForestOk(m) && Path(m, p) && p[0] in m
    ensures p[|p| - 1] in m && |m[p[|p| - 1]].header.chain| == |m[p[0]].header.chain| + |p| - 1
    decreases |p|
  {
    if |p| > 1 {
      var n := |p| - 1;
      PathPrefix(m, p, n);
      PathLengthensChain(m, p[..n]);
      assert Edge(m, p[n - 1], p[n - 1 + 1]);
      EdgeExtendsChain(m, p[n - 1], p[n]);
    }
  }

  /**
    In a grown forest a session's chain names its ancestors from the root down: its ids and the session
    form a path of spawns that starts at a session without a parent, whose id is the root id it carries.
    */
  lemma {:induction false} ChainIsAncestorPath(m: Sessions, k: string)
    requires ForestOk(m) && (forall x :: x in m ==> SpawnedByParent(m, x)) && k in m
    ensures var h := m[k].header;
            var p := Ancestry(h);
            && Path(m, p) && p[0] in m && m[p[0]].header.parent == None
            && (h.root == if h.chain == [] then None else Some(p[0]))
            && forall i :: 0 <= i < |h.chain| ==> p[i] in m && h.chain[i] == Link(p[i], m[p[i]].header.spawnId)
    decreases |m[k].header.chain|
  {
    assert HeaderOk(m, k) && SpawnedByParent(m, k);
    var h := m[k].header;
    match h.parent {
      case None =>
      case Some(parent) =>
        assert HeaderOk(m, parent);
        ChainIsAncestorPath(m, parent);
        ExtendAncestry(m, parent, k);
    }
  }

  lemma ExtendAncestry(m: Sessions, parent: string, k: string)
    requires parent in m && k in m && Edge(m, parent, k)
    requires m[parent].header.id == parent
    requires m[k].header.spawnId.Some?
    requires m[k].header == ChildHeader(m[parent].header, m[k].header.spawnId.value, k)
    requires Path(m, Ancestry(m[parent].header))
    ensures Ancestry(m[k].header) == Ancestry(m[parent].header) + [k]
    ensures Path(m, Ancestry(m[k].header))
  {
    var p, q := Ancestry(m[parent].header), Ancestry(m[k].header);
    assert q == p + [k];
    forall i | 0 <= i < |q| - 1 ensures Edge(m, q[i], q[i + 1]) {
      if i < |p| - 1 { assert Edge(m, p[i], p[i + 1]); }
    }
  }

  /** Every session that has a parent was spawned by it. */
  ghost predicate SpawnedByParent(m: Sessions, k: string) {
    k in m && (m[k].header.parent.Some? ==> Edge(m, m[k].header.parent.value, k))
  }

  ghost predicate AllSpawned(m: Sessions) {
    forall k :: k in m ==> SpawnedByParent(m, k)
  }

  /** Growing never removes a spawn, and a new child is spawned by its parent. */
  lemma SpawnedKept(m: Sessions, g: Growth)
    requires Admissible(m, g) && AllSpawned(m) && ForestOk(m)
    ensures AllSpawned(Grow(m, g))
  {
    var to := Grow(m, g);
    forall a | a in m ensures forall s :: s in Spawns(m[a].log) ==> s in Spawns(to[a].log) {
      SpawnsGrow(m, g, a);
    }
    forall k | k in to ensures SpawnedByParent(to, k) {
      if k in m {
        assert SpawnedByParent(m, k);
        if m[k].header.parent.Some? {
          var s :| s in Spawns(m[m[k].header.parent.value].log) && s.child == k;
          assert s in Spawns(to[m[k].header.parent.value].log);
        }
      } else if g.SpawnAgent? {
        NewChildSpawned(m, g);
      }
    }
  }

  lemma SpawnsGrow(m: Sessions, g: Growth, a: string)
    requires Admissible(m, g) && a in m
    ensures forall s :: s in Spawns(m[a].log) ==> s in Spawns(Grow(m, g)[a].log)
  {
    var log := m[a].log;
    match g {
      case Open(_) =>
      case Write(_, p) => SpawnsAppend(log, p);
      case SpawnAgent(_, spawnId, childId, _, result) =>
        var p := Payload.AgentSpawn(spawnId, childId);
        SpawnsAppend(log, p);
        SpawnsAppend(log + [Event(|log|, p)], result);
    }
  }

  lemma NewChildSpawned(m: Sessions, g: Growth)
    requires Admissible(m, g) && g.SpawnAgent? && ForestOk(m)
    ensures SpawnedByParent(Grow(m, g), g.childId)
  {
    var log := m[g.parent].log;
    var p := Payload.AgentSpawn(g.spawnId, g.childId);
    assert HeaderOk(m, g.parent);
    SpawnsAppend(log, p);
    SpawnsAppend(log + [Event(|log|, p)], g.result);
    assert Spawn(g.spawnId, g.childId) in Spawns(Grow(m, g)[g.parent].log);
  }

  lemma {:induction false} GrowthKeepsSpawned(from: Sessions, steps: seq<Growth>, to: Sessions)
    requires ForestOk(from) && AllSpawned(from) && Grows(from, steps, to)
    ensures AllSpawned(to)
    decreases |steps|
  {
    if steps != [] {
      SpawnedKept(from, steps[0]);
      GrowthKeepsForest(from, [steps[0]], Grow(from, steps[0]));
      GrowthKeepsSpawned(Grow(from, steps[0]), steps[1..], to);
    }
  }

  /** The chain of every session of a grown forest is its ancestor path, and its root id starts that path. */
  lemma GrownChainsAreAncestorPaths(m: Sessions, k: string)
    requires Grown(m) && k in m
    ensures var h := m[k].header;
            var p := Ancestry(h);
            && Path(m, p) && p[0] in m && m[p[0]].header.parent == None
            && (h.root == if h.chain == [] then None else Some(p[0]))
            && forall i :: 0 <= i < |h.chain| ==> p[i] in m && h.chain[i] == Link(p[i], m[p[i]].header.spawnId)
  {
    GrownForestOk(m);
    var steps :| Grows(map[], steps, m);
    GrowthKeepsSpawned(map[], steps, m);
    ChainIsAncestorPath(m, k);
  }

  // ---- The tree of a grown forest --------------------------------------------------------------------------

  lemma {:induction false} BelowStaysInForest(m: Sessions, p: seq<string>)
    requires ForestOk(m) && Path(m, p) && p[0] in m
    ensures forall i :: 0 <= i < |p| ==> p[i] in m
  {
    forall i | 0 <= i < |p| ensures p[i] in m {
      PathPrefix(m, p, i + 1);
      PathLengthensChain(m, p[..i + 1]);
    }
  }

  /** A grown forest has no cycles, and from any of its sessions the tree is built without an error. */
  lemma GrownForestBuilds(m: Sessions, root: string)
    requires Grown(m) && root in m
    ensures Collect(m, root, {}).Success? && Build(m, root, {}).Success?
    ensures Distinct(Collect(m, root, {}).value)
    ensures Preorder(Build(m, root, {}).value) == Collect(m, root, {}).value
  {
    GrownForestOk(m);
    forall x | Below(m, root, x) ensures Linked(m, x) && OneResult(m, x) {
      var p :| PathFrom(m, p, root) && p[|p| - 1] == x;
      BelowStaysInForest(m, p);
    }
    forall c | CycleAt(m, c) && Below(m, root, c[0]) ensures false {
      var p :| PathFrom(m, p, root) && p[|p| - 1] == c[0];
      BelowStaysInForest(m, p);
      PathLengthensChain(m, c);
    }
    CollectSucceedsIff(m, root);
    BuildMatchesWalk(m, root);
    WalkListsReachableOnce(m, root);
  }
}
