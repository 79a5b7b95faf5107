/**
  Delegation trees: each session's log names the sessions it spawned, each spawned session's header
  names its parent and its spawn. A depth-first walk collects them, refusing cycles and broken links.
  */
module Delegation {
  import opened Wrappers
  import opened Events

  /** One ancestor of a session: its id and the spawn that made it. */
  datatype Link = Link(sessionId: string, spawnId: Option<string>)

  datatype Header = Header(
    id: string,
    parent: Option<string>,
    root: Option<string>,
    spawnId: Option<string>,
    chain: seq<Link>)

  datatype Record = Record(header: Header, log: seq<Event>)

  type Sessions = map<string, Record>

  datatype DelegationError =
    | Cycle(id: string)
    | Missing(id: string)
    | BrokenLink(spawn: string)
    | ManyResults(spawnId: string)

  datatype Spawn = Spawn(spawnId: string, child: string)

  function Spawns(log: seq<Event>): seq<Spawn> {
    if log == [] then []
    else
      var p := log[|log| - 1].payload;
      Spawns(log[..|log| - 1]) + (if p.AgentSpawn? then [Spawn(p.spawnId, p.childSessionId)] else [])
  }

  /** The child points back at its parent and its spawn. */
  predicate Reciprocal(parent: Record, spawn: Spawn, child: Record) {
    child.header.parent == Some(parent.header.id) && child.header.spawnId == Some(spawn.spawnId)
  }

  function CheckLink(m: Sessions, id: string, spawn: Spawn): Option<DelegationError>
    requires id in m
  {
    if spawn.child !in m then Some(Missing(spawn.child))
    else if Reciprocal(m[id], spawn, m[spawn.child]) then None
    else Some(BrokenLink(spawn.spawnId))
  }

  /** The sessions below `id` in depth-first order, with `visiting` on the stack above it. */
  function Collect(m: Sessions, id: string, visiting: set<string>): Result<seq<string>, DelegationError>
    decreases m.Keys - visiting, 0
  {
    if id in visiting then Failure(Cycle(id))
    else if id !in m then Failure(Missing(id))
    else
      Onto([id], CollectAll(m, id, Spawns(m[id].log), visiting + {id}))
  }

  function CollectAll(m: Sessions, id: string, spawns: seq<Spawn>, visiting: set<string>)
    : Result<seq<string>, DelegationError>
    requires id in m
    decreases m.Keys - visiting, 1 + |spawns|
  {
    if spawns == [] then Success([])
    else
      match CheckLink(m, id, spawns[0])
      case Some(e) => Failure(e)
      case None =>
        match Collect(m, spawns[0].child, visiting)
        case Failure(e) => Failure(e)
        case Success(first) => Onto(first, CollectAll(m, id, spawns[1..], visiting))
  }

  /** The set of sessions on the stack, shared by the recursive calls. */
  class Visiting {
    var ids: set<string>

    constructor ()
      ensures ids == {}
    {
      ids := {};
    }
  }

  method CollectDescendants(m: Sessions, id: string, visiting: Visiting)
    returns (r: Result<seq<string>, DelegationError>)
    modifies visiting
    ensures r == Collect(m, id, old(visiting.ids))
    ensures r.Success? ==> visiting.ids == old(visiting.ids)
    decreases m.Keys - visiting.ids
  {
    if id in visiting.ids { return Failure(Cycle(id)); }
    visiting.ids := visiting.ids + {id};
    if id !in m { return Failure(Missing(id)); }
    ghost var stack := visiting.ids;
    var spawns := Spawns(m[id].log);
    var below: seq<string> := [];
    var i := 0;
    OntoTwice([], [], CollectAll(m, id, spawns, stack));
    assert spawns[0..] == spawns;
    while i < |spawns|
      invariant 0 <= i <= |spawns| && visiting.ids == stack
      invariant CollectAll(m, id, spawns, stack) == Onto(below, CollectAll(m, id, spawns[i..], stack))
    {
      assert spawns[i..][1..] == spawns[i + 1..];
      var broken := CheckLink(m, id, spawns[i]);
      if broken.Some? { return Failure(broken.value); }
      var child := CollectDescendants(m, spawns[i].child, visiting);
      if child.Failure? { return Failure(child.error); }
      OntoTwice(below, child.value, CollectAll(m, id, spawns[i + 1..], stack));
      below := below + child.value;
      i := i + 1;
    }
    assert below + [] == below;
    visiting.ids := visiting.ids - {id};
    return Success([id] + below);
  }

  function Onto(first: seq<string>, r: Result<seq<string>, DelegationError>): Result<seq<string>, DelegationError> {
    match r
    case Failure(e) => Failure(e)
    case Success(rest) => Success(first + rest)
  }

  lemma OntoTwice(a: seq<string>, b: seq<string>, r: Result<seq<string>, DelegationError>)
    ensures Onto(a, Onto(b, r)) == Onto(a + b, r)
    ensures Onto([], r) == r
  {
    match r {
      case Failure(_) =>
      case Success(rest) => assert a + (b + rest) == a + b + rest && [] + rest == rest;
    }
  }
}
