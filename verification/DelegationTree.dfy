/** The usage total below a session, and the nested tree the same walk builds. */
module DelegationTree {
  import opened Wrappers
  import opened Events
  import opened Delegation
  import opened DelegationLaws
  import opened DelegationCounts

  // ---- Usage ---------------------------------------------------------------------------------------------

  datatype Totals = Totals(prompt: int, completion: int, total: int) {
    function Plus(other: Totals): Totals {
      Totals(prompt + other.prompt, completion + other.completion, total + other.total)
    }
  }

  const ZERO := Totals(0, 0, 0)

  /** An absent total is the sum of the two counts. */
  function Counted(u: Usage): Totals {
    Totals(u.prompt, u.completion, if u.total != 0 then u.total else u.prompt + u.completion)
  }

  /** Only assistant messages and agent results report usage. */
  function EventUsage(p: Payload): Totals {
    match p
    case AssistantMessage(_, _, u) => Counted(u)
    case AgentResult(_, _, u) => Counted(u)
    case _ => ZERO
  }

  function LogUsage(log: seq<Event>): Totals {
    if log == [] then ZERO else LogUsage(log[..|log| - 1]).Plus(EventUsage(log[|log| - 1].payload))
  }

  function UsageAt(m: Sessions, id: string): Totals {
    if id in m then LogUsage(m[id].log) else ZERO
  }

  function ListUsage(m: Sessions, ids: seq<string>): Totals {
    if ids == [] then ZERO else ListUsage(m, ids[..|ids| - 1]).Plus(UsageAt(m, ids[|ids| - 1]))
  }

  lemma CollectedExist(m: Sessions, root: string)
    requires Collect(m, root, {}).Success?
    ensures forall id :: id in Collect(m, root, {}).value ==> id in m
  {
    CollectSucceedsIff(m, root);
    forall id | id in Collect(m, root, {}).value ensures id in m {
      CollectedIsBelow(m, root, {}, id);
    }
  }

  lemma LogUsageStep(log: seq<Event>, j: nat)
    requires j < |log|
    ensures LogUsage(log[..j + 1]) == LogUsage(log[..j]).Plus(EventUsage(log[j].payload))
  {
    assert log[..j + 1][..j] == log[..j];
  }

  lemma PlusAssociative(a: Totals, b: Totals, c: Totals)
    ensures a.Plus(b).Plus(c) == a.Plus(b.Plus(c))
  {
  }

  method AddLogUsage(log: seq<Event>, before: Totals) returns (totals: Totals)
    ensures totals == before.Plus(LogUsage(log))
  {
    totals := before;
    var j := 0;
    while j < |log|
      invariant 0 <= j <= |log| && totals == before.Plus(LogUsage(log[..j]))
    {
      LogUsageStep(log, j);
      PlusAssociative(before, LogUsage(log[..j]), EventUsage(log[j].payload));
      totals := totals.Plus(EventUsage(log[j].payload));
      j := j + 1;
    }
    assert log[..j] == log;
  }

  method DescendantUsage(m: Sessions, root: string) returns (r: Result<Totals, DelegationError>)
    ensures r.Failure? <==> Collect(m, root, {}).Failure?
    ensures r.Success? ==> r.value == ListUsage(m, Collect(m, root, {}).value)
  {
    var visiting := new Visiting();
    var list := CollectDescendants(m, root, visiting);
    if list.Failure? { return Failure(list.error); }
    CollectedExist(m, root);
    var ids := list.value;
    var totals := ZERO;
    var i := 0;
    while i < |ids|
      invariant 0 <= i <= |ids| && totals == ListUsage(m, ids[..i])
    {
      assert ids[..i + 1][..i] == ids[..i];
      assert ids[i] in ids;
      totals := AddLogUsage(m[ids[i]].log, totals);
      i := i + 1;
    }
    assert ids[..i] == ids;
    return Success(totals);
  }

  lemma {:induction false} ListUsageConcat(m: Sessions, a: seq<string>, b: seq<string>)
    ensures ListUsage(m, a + b) == ListUsage(m, a).Plus(ListUsage(m, b))
  {
    if b == [] {
      assert a + b == a;
    } else {
      assert (a + b)[..|a + b| - 1] == a + b[..|b| - 1];
      ListUsageConcat(m, a, b[..|b| - 1]);
    }
  }

  lemma UsageWithout(m: Sessions, b: seq<string>, k: nat)
    requires k < |b|
    ensures ListUsage(m, b) == ListUsage(m, b[..k] + b[k + 1..]).Plus(UsageAt(m, b[k]))
  {
    assert b == b[..k + 1] + b[k + 1..];
    ListUsageConcat(m, b[..k + 1], b[k + 1..]);
    assert b[..k + 1][..k] == b[..k];
    ListUsageConcat(m, b[..k], b[k + 1..]);
  }

  function Members(a: seq<string>): set<string> {
    set x | x in a
  }

  lemma DistinctWithout(b: seq<string>, k: nat)
    requires k < |b| && Distinct(b)
    ensures var without := b[..k] + b[k + 1..];
            Distinct(without) && Members(without) == Members(b) - {b[k]}
  {
    var without := b[..k] + b[k + 1..];
    assert forall i :: 0 <= i < |without| ==> without[i] == b[if i < k then i else i + 1];
    forall x | x in b && x != b[k] ensures x in without {
      var i :| 0 <= i < |b| && b[i] == x;
      assert without[if i < k then i else i - 1] == x;
    }
  }

  lemma {:induction false} DistinctCount(a: seq<string>)
    requires Distinct(a)
    ensures |Members(a)| == |a|
  {
    if a != [] {
      var n := |a| - 1;
      DistinctCount(a[..n]);
      assert Members(a) == Members(a[..n]) + {a[n]};
    }
  }

  /** The total depends only on which sessions are listed, when none is listed twice. */
  lemma {:induction false} UsageDependsOnTheSet(m: Sessions, a: seq<string>, b: seq<string>)
    requires Distinct(a) && Distinct(b) && Members(a) == Members(b)
    ensures ListUsage(m, a) == ListUsage(m, b)
    decreases |a|
  {
    DistinctCount(a);
    DistinctCount(b);
    if a != [] {
      var n := |a| - 1;
      assert a[n] in Members(a);
      var k :| 0 <= k < |b| && b[k] == a[n];
      DistinctWithout(a, n);
      DistinctWithout(b, k);
      assert a[..n] + a[n + 1..] == a[..n];
      UsageDependsOnTheSet(m, a[..n], b[..k] + b[k + 1..]);
      UsageWithout(m, b, k);
    }
  }

  /** The usage below a root is that of any enumeration of its reachable sessions without repetition. */
  lemma UsageCountsEachSessionOnce(m: Sessions, root: string, ids: seq<string>)
    requires WellKeyed(m) && DistinctSpawns(m) && Collect(m, root, {}).Success?
    requires Distinct(ids) && forall x :: x in ids <==> Below(m, root, x)
    ensures ListUsage(m, Collect(m, root, {}).value) == ListUsage(m, ids)
  {
    WalkListsReachableOnce(m, root);
    var list := Collect(m, root, {}).value;
    forall x ensures x in Members(list) <==> x in Members(ids) {
      assert x in list <==> Below(m, root, x);
    }
    UsageDependsOnTheSet(m, list, ids);
  }

  // ---- The tree ------------------------------------------------------------------------------------------

  datatype Tree = Tree(id: string, children: seq<Branch>)

  datatype Branch = Branch(spawnId: string, status: string, subtree: Tree)

  function ResultsFor(log: seq<Event>, spawnId: string): seq<Payload> {
    if log == [] then []
    else
      var p := log[|log| - 1].payload;
      ResultsFor(log[..|log| - 1], spawnId) + (if p.AgentResult? && p.spawnId == spawnId then [p] else [])
  }

  function LastStatus(log: seq<Event>, spawnId: string): string {
    if log == [] then ""
    else
      var p := log[|log| - 1].payload;
      if p.AgentStatus? && p.spawnId == spawnId then p.status else LastStatus(log[..|log| - 1], spawnId)
  }

  /** The result's status, or else the last reported one, or else "open". */
  function Status(log: seq<Event>, spawnId: string): string {
    var results := ResultsFor(log, spawnId);
    if results != [] && results[0].AgentResult? && results[0].status != "" then results[0].status
    else if LastStatus(log, spawnId) != "" then LastStatus(log, spawnId)
    else "open"
  }

  function Build(m: Sessions, id: string, visiting: set<string>): Result<Tree, DelegationError>
    decreases m.Keys - visiting, 0
  {
    if id in visiting then Failure(Cycle(id))
    else if id !in m then Failure(Missing(id))
    else
      match BuildAll(m, id, Spawns(m[id].log), visiting + {id})
      case Failure(e) => Failure(e)
      case Success(children) => Success(Tree(id, children))
  }

  function BuildAll(m: Sessions, id: string, spawns: seq<Spawn>, visiting: set<string>)
    : Result<seq<Branch>, DelegationError>
    requires id in m
    decreases m.Keys - visiting, 1 + |spawns|
  {
    if spawns == [] then Success([])
    else
      var s := spawns[0];
      match CheckLink(m, id, s)
      case Some(e) => Failure(e)
      case None =>
        match Build(m, s.child, visiting)
        case Failure(e) => Failure(e)
        case Success(child) =>
          if |ResultsFor(m[id].log, s.spawnId)| > 1 then Failure(ManyResults(s.spawnId))
          else
            match BuildAll(m, id, spawns[1..], visiting)
            case Failure(e) => Failure(e)
            case Success(rest) => Success([Branch(s.spawnId, Status(m[id].log, s.spawnId), child)] + rest)
  }

  /** The sessions of a tree, parents first. */
  function Preorder(t: Tree): seq<string> {
    [t.id] + PreorderAll(t.children)
  }

  function PreorderAll(branches: seq<Branch>): seq<string> {
    if branches == [] then [] else Preorder(branches[0].subtree) + PreorderAll(branches[1..])
  }

  ghost predicate OneResult(m: Sessions, id: string) {
    id in m && forall s :: s in Spawns(m[id].log) ==> |ResultsFor(m[id].log, s.spawnId)| <= 1
  }

  ghost predicate OneResultEach(log: seq<Event>, spawns: seq<Spawn>) {
    forall s :: s in spawns ==> |ResultsFor(log, s.spawnId)| <= 1
  }

  /** With any stack, the tree is built exactly when the walk succeeds over sessions without doubled results. */
  lemma {:induction false} BuildFollowsWalk(m: Sessions, id: string, visiting: set<string>)
    ensures var walk := Collect(m, id, visiting);
            Build(m, id, visiting).Success? <==> walk.Success? && forall x :: x in walk.value ==> OneResult(m, x)
    ensures Build(m, id, visiting).Success? ==>
              Preorder(Build(m, id, visiting).value) == Collect(m, id, visiting).value
    decreases m.Keys - visiting, 0
  {
    if id !in visiting && id in m {
      BuildAllFollowsWalk(m, id, Spawns(m[id].log), visiting + {id});
      var below := CollectAll(m, id, Spawns(m[id].log), visiting + {id});
      if below.Success? {
        assert forall x :: x in [id] + below.value <==> x == id || x in below.value;
        assert OneResult(m, id) <==> OneResultEach(m[id].log, Spawns(m[id].log));
      }
    }
  }

  lemma {:induction false} BuildAllFollowsWalk(m: Sessions, id: string, spawns: seq<Spawn>, visiting: set<string>)
    requires id in m
    ensures var walk := CollectAll(m, id, spawns, visiting);
            BuildAll(m, id, spawns, visiting).Success?
            <==> walk.Success? && OneResultEach(m[id].log, spawns) && forall x :: x in walk.value ==> OneResult(m, x)
    ensures BuildAll(m, id, spawns, visiting).Success? ==>
              PreorderAll(BuildAll(m, id, spawns, visiting).value) == CollectAll(m, id, spawns, visiting).value
    decreases m.Keys - visiting, 1 + |spawns|
  {
    if spawns != [] {
      hide OneResult, ResultsFor;
      BuildFollowsWalk(m, spawns[0].child, visiting);
      BuildAllFollowsWalk(m, id, spawns[1..], visiting);
      assert spawns == [spawns[0]] + spawns[1..];
      assert OneResultEach(m[id].log, spawns)
        <==> |ResultsFor(m[id].log, spawns[0].spawnId)| <= 1 && OneResultEach(m[id].log, spawns[1..]);
      if BuildAll(m, id, spawns, visiting).Success? {
        assert BuildAll(m, id, spawns, visiting).value[1..] == BuildAll(m, id, spawns[1..], visiting).value;
      }
    }
  }

  /**
    The tree is built exactly when the walk succeeds and no reachable session has a spawn with two results, and
    then in the order of the walk.
    */
  lemma BuildMatchesWalk(m: Sessions, root: string)
    ensures Build(m, root, {}).Success?
       <==> Collect(m, root, {}).Success? && forall x :: Below(m, root, x) ==> OneResult(m, x)
    ensures Build(m, root, {}).Success? ==> Preorder(Build(m, root, {}).value) == Collect(m, root, {}).value
  {
    BuildFollowsWalk(m, root, {});
    if Collect(m, root, {}).Success? {
      forall x ensures x in Collect(m, root, {}).value <==> Below(m, root, x) { CollectedIffBelow(m, root, x); }
    }
  }
}
