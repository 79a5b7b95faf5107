/** Resolving a held call from outside the loop: approve runs it once, deny answers it with a rejection. */
module Approvals {
  import opened Wrappers
  import opened Events
  import opened JsonValues
  import opened LogHistory
  import opened AgentHistory
  import opened SessionState
  import opened ToolRunner

  datatype ApprovalError = NoRunner | AlreadyAnswered | NoSuchCall

  /** The call to resolve, unless it already has a result or does not exist. */
  method UnresolvedToolUse(session: Session, id: ToolId) returns (r: Result<Payload, ApprovalError>)
    requires session.Valid()
    ensures r.Success? <==> Called(session.log.events, id) && !Answered(session.log.events, id)
    ensures r == Failure(AlreadyAnswered) <==> Answered(session.log.events, id)
    ensures r == Failure(NoSuchCall) <==> !Called(session.log.events, id)
    ensures r != Failure(NoRunner)
    ensures r.Success? ==>
              && r.value.ToolUse? && r.value.id == id
              && exists i :: IsUse(session.log.events, i, id) && session.log.events[i].payload == r.value
  {
    var log := session.log.events;
    var found: Option<Payload> := None;
    var i := 0;
    while i < |log|
      invariant 0 <= i <= |log|
      invariant forall j :: 0 <= j < i ==> !IsResult(log, j, id)
      invariant found.None? ==> forall j :: 0 <= j < i ==> !IsUse(log, j, id)
      invariant found.Some? ==> found.value.ToolUse? && found.value.id == id
                                && exists j :: IsUse(log, j, id) && log[j].payload == found.value
    {
      var p := log[i].payload;
      if p.ToolUse? && p.id == id {
        found := Some(p);
        assert IsUse(log, i, id);
      }
      if p.ToolResult? && p.toolUseId == id {
        assert IsResult(log, i, id);
        assert exists k :: k < i && IsUse(log, k, id);
        return Failure(AlreadyAnswered);
      }
      i := i + 1;
    }
    if found.None? { return Failure(NoSuchCall); }
    return Success(found.value);
  }

  /** Approve runs the call exactly once, past the hooks, with its own arguments. */
  method Approve(session: Session, runner: Runner?, id: ToolId, o: ToolOutcome) returns (r: Result<(), ApprovalError>)
    requires session.Valid()
    modifies session, session.log, runner
    ensures session.Valid() && Reached(old(session.World()), session.World())
    ensures r.Success?
       <==> runner != null && Called(old(session.log.events), id) && !Answered(old(session.log.events), id)
    ensures r.Failure? ==> session.World() == old(session.World())
    ensures r.Success? ==> OneAnswer(old(session.log.events), session.log.events, id)
    ensures r.Success? ==> exists call: Payload, i ::
              && call.ToolUse? && IsUse(old(session.log.events), i, id) && old(session.log.events)[i].payload == call
              && session.log.events
                 == AddAll(Add(old(session.log.events), ApprovalResolved(id, true)), Appends(runner.registry, call, o))
              && session.runs == old(session.runs)
                 + (if call.name in runner.registry then [RunOf(call)] else [])
  {
    hide Reached, Inv, SameTools, OneAnswer, AddAll, Appends;
    ghost var w0 := session.World();
    ReachedRefl(w0);
    if runner == null { return Failure(NoRunner); }
    var found := UnresolvedToolUse(session, id);
    if found.Failure? { return Failure(found.error); }
    var call := found.value;
    ghost var i :| IsUse(w0.log, i, id) && w0.log[i].payload == call;
    var _ := session.log.Append(ApprovalResolved(id, true));
    ghost var w1 := session.World();
    NoteReached(w0, w0, ApprovalResolved(id, true));
    ReachedKeepsOnce(w0, w1);
    OpenAfterQuiet(w0.log, w1.log, id);
    RunReached(w0, w1, runner.registry, call, o);
    runner.Run(call, session, o);
    ReachedKeepsOnce(w0, session.World());
    QuietThenOneAnswer(w0.log, w1.log, session.log.events, id);
    return Success(());
  }

  method Deny(session: Session, id: ToolId, reason: string) returns (r: Result<(), ApprovalError>)
    requires session.Valid()
    modifies session.log
    ensures session.Valid() && Reached(old(session.World()), session.World())
    ensures r.Success? <==> Called(old(session.log.events), id) && !Answered(old(session.log.events), id)
    ensures session.runs == old(session.runs)
    ensures session.log.events
         == AddAll(old(session.log.events),
                   if r.Success? then Denial(id, reason) else [])
    ensures r.Success? ==> OneAnswer(old(session.log.events), session.log.events, id)
  {
    ghost var w0 := session.World();
    ReachedRefl(w0);
    var found := UnresolvedToolUse(session, id);
    if found.Failure? { return Failure(found.error); }
    DenialReached(w0, id, reason);
    var _ := session.log.Append(ApprovalResolved(id, false));
    var _ := session.log.Append(ToolResult(id, Some(Null), Some("denied by approval: " + reason)));
    return Success(());
  }

  function Denial(id: ToolId, reason: string): seq<Payload> {
    [ApprovalResolved(id, false), ToolResult(id, Some(Null), Some("denied by approval: " + reason))]
  }

  lemma DenialReached(w: World, id: ToolId, reason: string)
    requires Once(w) && Called(w.log, id) && !Answered(w.log, id)
    ensures var note, result := Denial(id, reason)[0], Denial(id, reason)[1];
            var to := w.(log := Add(Add(w.log, note), result));
            && AddAll(w.log, Denial(id, reason)) == to.log
            && Reached(w, to) && Once(to) && OneAnswer(w.log, to.log, id)
  {
    hide Reached, Inv, SameTools;
    var note, result := Denial(id, reason)[0], Denial(id, reason)[1];
    ReachedRefl(w);
    NoteReached(w, w, note);
    var mid := w.(log := Add(w.log, note));
    OpenAfterQuiet(w.log, mid.log, id);
    ReachedNext(w, mid, LogAct(Answer(id, result.output, result.error)));
    ReachedKeepsOnce(w, w.(log := Add(mid.log, result)));
    OneAnswerAfter(w.log, mid.log, result);
    assert Denial(id, reason)[..1] == [note] && [note][..0] == [];
  }

  lemma QuietThenOneAnswer(a: seq<Event>, b: seq<Event>, c: seq<Event>, id: ToolId)
    requires SameTools(a, b) && OneAnswer(b, c, id)
    ensures OneAnswer(a, c, id)
  {
  }

  lemma OpenAfterQuiet(a: seq<Event>, b: seq<Event>, id: ToolId)
    requires SameTools(a, b)
    ensures Called(b, id) <==> Called(a, id)
    ensures Answered(b, id) <==> Answered(a, id)
  {
    if Called(a, id) {
      var i :| IsUse(a, i, id);
      assert IsUse(b, i, id);
    }
    if Answered(a, id) {
      var j :| IsResult(a, j, id);
      assert IsResult(b, j, id);
    }
  }
}
