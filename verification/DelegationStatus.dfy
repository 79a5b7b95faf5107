/** What one event adds to the usage of a tree, and what a branch of the tree reports. */
module DelegationStatus {
  import opened Wrappers
  import opened Events
  import opened Delegation
  import opened DelegationTree

  /** Messages and agent results add their counts, an absent total being their sum; other events add nothing. */
  lemma UsageOfLog(log: seq<Event>, p: Payload)
    ensures var before, after := LogUsage(log), LogUsage(log + [Event(|log|, p)]);
            match p
            case AssistantMessage(_, _, u) =>
              && after.prompt == before.prompt + u.prompt && after.completion == before.completion + u.completion
              && after.total == before.total + (if u.total == 0 then u.prompt + u.completion else u.total)
            case AgentResult(_, _, u) =>
              && after.prompt == before.prompt + u.prompt && after.completion == before.completion + u.completion
              && after.total == before.total + (if u.total == 0 then u.prompt + u.completion else u.total)
            case _ => after == before
    ensures LogUsage([]) == Totals(0, 0, 0)
  {
    assert (log + [Event(|log|, p)])[..|log|] == log;
  }

  lemma {:induction false} OneResultFound(log: seq<Event>, spawnId: string, i: nat)
    requires i < |log| && log[i].payload.AgentResult? && log[i].payload.spawnId == spawnId
    requires |ResultsFor(log, spawnId)| <= 1
    ensures ResultsFor(log, spawnId) == [log[i].payload]
  {
    var n := |log| - 1;
    if i < n {
      OneResultFound(log[..n], spawnId, i);
    } else {
      assert [] + [log[i].payload] == [log[i].payload];
    }
  }

  lemma {:induction false} NoResultFound(log: seq<Event>, spawnId: string)
    requires forall e :: e in log && e.payload.AgentResult? ==> e.payload.spawnId != spawnId
    ensures ResultsFor(log, spawnId) == []
  {
    if log != [] {
      assert log[|log| - 1] in log;
      NoResultFound(log[..|log| - 1], spawnId);
    }
  }

  lemma {:induction false} LastStatusFound(log: seq<Event>, spawnId: string, k: nat)
    requires k < |log| && log[k].payload.AgentStatus? && log[k].payload.spawnId == spawnId
    requires forall q :: k < q < |log| && log[q].payload.AgentStatus? ==> log[q].payload.spawnId != spawnId
    ensures LastStatus(log, spawnId) == log[k].payload.status
  {
    if k < |log| - 1 { LastStatusFound(log[..|log| - 1], spawnId, k); }
  }

  lemma {:induction false} NoStatusFound(log: seq<Event>, spawnId: string)
    requires forall e :: e in log && e.payload.AgentStatus? ==> e.payload.spawnId != spawnId
    ensures LastStatus(log, spawnId) == ""
  {
    if log != [] {
      assert log[|log| - 1] in log;
      NoStatusFound(log[..|log| - 1], spawnId);
    }
  }

  /** The status of the one result, if it has any. */
  lemma ResultStatus(log: seq<Event>, spawnId: string, i: nat)
    requires i < |log| && log[i].payload.AgentResult? && log[i].payload.spawnId == spawnId
    requires |ResultsFor(log, spawnId)| <= 1 && log[i].payload.status != ""
    ensures Status(log, spawnId) == log[i].payload.status
  {
    OneResultFound(log, spawnId, i);
  }

  /** Without a result, the last reported status if it has any, or else open. */
  lemma ReportedStatus(log: seq<Event>, spawnId: string, k: nat)
    requires forall e :: e in log && e.payload.AgentResult? ==> e.payload.spawnId != spawnId
    requires k < |log| && log[k].payload.AgentStatus? && log[k].payload.spawnId == spawnId
    requires forall q :: k < q < |log| && log[q].payload.AgentStatus? ==> log[q].payload.spawnId != spawnId
    ensures Status(log, spawnId) == (if log[k].payload.status != "" then log[k].payload.status else "open")
  {
    NoResultFound(log, spawnId);
    LastStatusFound(log, spawnId, k);
  }

  lemma UnreportedStatus(log: seq<Event>, spawnId: string)
    requires forall e :: e in log && e.payload.AgentResult? ==> e.payload.spawnId != spawnId
    requires forall e :: e in log && e.payload.AgentStatus? ==> e.payload.spawnId != spawnId
    ensures Status(log, spawnId) == "open"
  {
    NoResultFound(log, spawnId);
    NoStatusFound(log, spawnId);
  }

  /** A built tree has one branch for each spawn of its session, in order, with the spawn's id, status and subtree. */
  lemma {:induction false} BranchesAre(m: Sessions, id: string, spawns: seq<Spawn>, visiting: set<string>)
    requires id in m && BuildAll(m, id, spawns, visiting).Success?
    ensures var branches := BuildAll(m, id, spawns, visiting).value;
            && |branches| == |spawns|
            && forall i :: 0 <= i < |spawns| ==>
                 && branches[i].spawnId == spawns[i].spawnId
                 && branches[i].status == Status(m[id].log, spawns[i].spawnId)
                 && Build(m, spawns[i].child, visiting) == Success(branches[i].subtree)
    decreases |spawns|
  {
    hide Status, ResultsFor;
    if spawns != [] {
      BranchesAre(m, id, spawns[1..], visiting);
      var branches := BuildAll(m, id, spawns, visiting).value;
      forall i | 1 <= i < |spawns| ensures branches[i] == BuildAll(m, id, spawns[1..], visiting).value[i - 1] {
      }
    }
  }
}
