/** A session: its header, its log, and the record of the tool runs it caused. */
module SessionState {
  import opened Events
  import opened LogHistory
  import opened AgentHistory
  import Delegation

  class Session {
    const header: Delegation.Header
    const log: Log
    var runs: seq<ToolRun>

    ghost function World(): World
      reads this, log
    {
      AgentHistory.World(log.events, runs)
    }

    ghost predicate Valid()
      reads this, log
    {
      log.Valid() && Once(World())
    }

    constructor (header: Delegation.Header)
      ensures fresh(log) && Valid() && World() == NEW_WORLD
      ensures this.header == header
    {
      this.header := header;
      log := new Log();
      runs := [];
    }
  }

  /** Two logs with the same calls and the same answers, the second longer. */
  ghost predicate SameTools(a: seq<Event>, b: seq<Event>) {
    && a <= b
    && (forall i, id :: IsUse(b, i, id) <==> IsUse(a, i, id))
    && (forall j, id :: IsResult(b, j, id) <==> IsResult(a, j, id))
  }

  function AddAll(log: seq<Event>, payloads: seq<Payload>): (r: seq<Event>)
    ensures log <= r && |r| == |log| + |payloads|
  {
    if payloads == [] then log else Add(AddAll(log, payloads[..|payloads| - 1]), payloads[|payloads| - 1])
  }

  lemma {:induction false} AddAllAt(log: seq<Event>, payloads: seq<Payload>, k: nat)
    requires k < |payloads|
    ensures AddAll(log, payloads)[|log| + k].payload == payloads[k]
  {
    if k < |payloads| - 1 { AddAllAt(log, payloads[..|payloads| - 1], k); }
  }

  lemma {:induction false} AddAllConcat(log: seq<Event>, a: seq<Payload>, b: seq<Payload>)
    ensures AddAll(log, a + b) == AddAll(AddAll(log, a), b)
  {
    if b == [] {
      assert a + b == a;
    } else {
      assert (a + b)[..|a + b| - 1] == a + b[..|b| - 1];
      AddAllConcat(log, a, b[..|b| - 1]);
    }
  }

  /** Plain notes are possible acts and touch no call. */
  lemma NoteReached(w0: World, w: World, p: Payload)
    requires Reached(w0, w) && Plain(p)
    ensures Reached(w0, w.(log := Add(w.log, p))) && SameTools(w.log, Add(w.log, p))
  {
    ReachedNext(w0, w, LogAct(Note(p)));
  }

  lemma {:induction false} NotesReached(w0: World, w: World, payloads: seq<Payload>)
    requires Reached(w0, w) && forall p :: p in payloads ==> Plain(p)
    ensures Reached(w0, w.(log := AddAll(w.log, payloads))) && SameTools(w.log, AddAll(w.log, payloads))
  {
    if payloads != [] {
      var init := payloads[..|payloads| - 1];
      NotesReached(w0, w, init);
      NoteReached(w0, w.(log := AddAll(w.log, init)), payloads[|payloads| - 1]);
    }
  }
}
