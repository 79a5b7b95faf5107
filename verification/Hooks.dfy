/**
  The hook bus: handlers run in registration order; a handler that raises is skipped, unless it was
  registered to fail the turn, and then a terminal runtime error is logged and the turn is abandoned.
  */
module Hooks {
  import opened Wrappers
  import opened JsonValues
  import opened Events
  import opened Mutations
  import opened Compaction
  import opened Strategies
  import opened LogHistory
  import opened AgentHistory
  import opened SessionState

  /** A returned dictionary: `refuses` is allow=False, `holds` is pending_approval=True. */
  datatype Decision = Decision(refuses: bool, holds: bool, arguments: Option<Json>, reason: Option<string>)

  /** What one handler does this time: what it logs, and whether it raises or returns something. */
  datatype Handler = Handler(effects: seq<Step>, raises: bool, failTurn: bool, decision: Option<Decision>)

  /** Strategies refuse bad parameters before they are registered. */
  predicate Configured(handlers: seq<Handler>) {
    forall h, s :: h in handlers && s in h.effects ==> WellConfigured(s)
  }

  /** A handler that logs notes, compacts and reverts, and leaves calls and answers to the loop. */
  predicate QuietStep(step: Step) {
    match step
    case Note(p) => Plain(p)
    case Call(_, _, _) => false
    case Answer(_, _, _) => false
    case _ => WellConfigured(step)
  }

  predicate Quiet(handlers: seq<Handler>) {
    forall h, s :: h in handlers && s in h.effects ==> QuietStep(s)
  }

  lemma QuietIsConfigured(handlers: seq<Handler>)
    requires Quiet(handlers)
    ensures Configured(handlers)
  {
    forall h, s | h in handlers && s in h.effects ensures WellConfigured(s) {
      assert QuietStep(s);
    }
  }

  predicate IsFatal(h: Handler) {
    h.raises && h.failTurn
  }

  predicate Fatal(handlers: seq<Handler>) {
    exists h :: h in handlers && IsFatal(h)
  }

  function Decisions(handlers: seq<Handler>): seq<Decision> {
    if handlers == [] then []
    else
      var h := handlers[|handlers| - 1];
      Decisions(handlers[..|handlers| - 1]) + (if !h.raises && h.decision.Some? then [h.decision.value] else [])
  }

  function DoAll(log: seq<Event>, steps: seq<Step>): (r: seq<Event>)
    requires forall s :: s in steps ==> WellConfigured(s)
  {
    if steps == [] then log else Do(DoAll(log, steps[..|steps| - 1]), steps[|steps| - 1])
  }

  /** What a hook point leaves: the effects of its handlers up to one that fails the turn, and then that error. */
  function AfterHandlers(log: seq<Event>, handlers: seq<Handler>): seq<Event>
    requires Configured(handlers)
  {
    if handlers == [] then log
    else
      var init, h := handlers[..|handlers| - 1], handlers[|handlers| - 1];
      var before := AfterHandlers(log, init);
      if Fatal(init) then before
      else
        var after := DoAll(before, h.effects);
        if IsFatal(h) then Add(after, RuntimeError(true)) else after
  }

  /** Once a handler fails the turn, those after it do not run. */
  lemma {:induction false} NothingAfterFatal(log: seq<Event>, handlers: seq<Handler>, i: nat)
    requires i <= |handlers| && Configured(handlers) && Fatal(handlers[..i])
    ensures AfterHandlers(log, handlers) == AfterHandlers(log, handlers[..i])
  {
    if i < |handlers| {
      var init := handlers[..|handlers| - 1];
      assert init[..i] == handlers[..i];
      assert Fatal(init);
      NothingAfterFatal(log, init, i);
    } else {
      assert handlers[..i] == handlers;
    }
  }

  lemma {:induction false} WalkKeepsDense(
    cap: ToolOutputCap, log: seq<Event>, uses: map<ToolId, int>, stream: seq<Event>)
    requires cap.Valid() && Dense(log)
    ensures Dense(cap.Walk(log, uses, stream))
  {
    if stream != [] { WalkKeepsDense(cap, log, uses, stream[..|stream| - 1]); }
  }

  lemma DoKeepsDense(log: seq<Event>, step: Step)
    requires Dense(log) && WellConfigured(step)
    ensures Dense(Do(log, step))
  {
    hide Apply, UseNums;
    if step.RunToolOutputCap? && Apply(log).Success? {
      WalkKeepsDense(step.cap, log, UseNums(log), Apply(log).value);
    }
  }

  method ApplyEffects(steps: seq<Step>, session: Session)
    requires session.log.Valid() && forall s :: s in steps ==> WellConfigured(s)
    modifies session.log
    ensures session.log.Valid() && session.log.events == DoAll(old(session.log.events), steps)
    ensures old(session.Valid()) && (forall s :: s in steps ==> QuietStep(s)) ==>
              && session.Valid() && Reached(old(session.World()), session.World())
              && SameTools(old(session.log.events), session.log.events)
  {
    hide Do, Once, Reached, SameTools, QuietStep;
    ghost var w0 := session.World();
    ghost var quiet := session.Valid() && forall s :: s in steps ==> QuietStep(s);
    ReachedRefl(w0);
    SameToolsRefl(w0.log);
    var i := 0;
    while i < |steps|
      invariant 0 <= i <= |steps| && session.log.Valid()
      invariant session.log.events == DoAll(w0.log, steps[..i]) && session.runs == w0.runs
      invariant quiet ==> session.Valid() && Reached(w0, session.World()) && SameTools(w0.log, session.log.events)
    {
      assert steps[i] in steps && steps[..i + 1][..i] == steps[..i];
      ghost var w := session.World();
      DoKeepsDense(w.log, steps[i]);
      if quiet {
        QuietStepKeeps(w, steps[i]);
        ReachedNext(w0, w, LogAct(steps[i]));
        SameToolsThen(w0.log, w.log, Do(w.log, steps[i]));
      }
      session.log.events := Do(session.log.events, steps[i]);
      i := i + 1;
    }
    assert steps[..i] == steps;
  }

  lemma SameToolsRefl(a: seq<Event>)
    ensures SameTools(a, a)
  {
  }

  lemma SameToolsThen(a: seq<Event>, b: seq<Event>, c: seq<Event>)
    requires SameTools(a, b) && SameTools(b, c)
    ensures SameTools(a, c)
  {
  }

  lemma QuietStepKeeps(w: World, step: Step)
    requires Once(w) && QuietStep(step)
    ensures Possible(w, LogAct(step)) && Once(w.(log := Do(w.log, step)))
    ensures SameTools(w.log, Do(w.log, step))
  {
    ActKeepsOnce(w, LogAct(step));
    StepGrows(w.log, step);
  }

  /** One hook point: the decisions returned, and whether the turn failed. */
  method Invoke(handlers: seq<Handler>, session: Session) returns (decisions: seq<Decision>, failed: bool)
    requires session.log.Valid() && Configured(handlers)
    modifies session.log
    ensures session.log.Valid() && session.log.events == AfterHandlers(old(session.log.events), handlers)
    ensures failed <==> Fatal(handlers)
    ensures !failed ==> decisions == Decisions(handlers)
    ensures failed ==>
              session.log.events != [] && session.log.events[|session.log.events| - 1].payload == RuntimeError(true)
    ensures old(session.Valid()) && Quiet(handlers) ==>
              && session.Valid() && Reached(old(session.World()), session.World())
              && SameTools(old(session.log.events), session.log.events)
  {
    hide DoAll, Once, Reached, SameTools, QuietStep;
    ghost var w0 := session.World();
    ghost var quiet := session.Valid() && Quiet(handlers);
    ReachedRefl(w0);
    SameToolsRefl(w0.log);
    decisions := [];
    var i := 0;
    while i < |handlers|
      invariant 0 <= i <= |handlers| && session.log.Valid()
      invariant session.log.events == AfterHandlers(w0.log, handlers[..i]) && session.runs == w0.runs
      invariant !Fatal(handlers[..i]) && decisions == Decisions(handlers[..i])
      invariant quiet ==> session.Valid() && Reached(w0, session.World()) && SameTools(w0.log, session.log.events)
    {
      var h := handlers[i];
      assert h in handlers && handlers[..i + 1] == handlers[..i] + [h] && handlers[..i + 1][..i] == handlers[..i];
      ghost var w := session.World();
      ApplyEffects(h.effects, session);
      ghost var w1 := session.World();
      if quiet {
        ReachedTransitive(w0, w, w1);
        SameToolsThen(w0.log, w.log, w1.log);
      }
      if h.raises {
        if h.failTurn {
          var _ := session.log.Append(RuntimeError(true));
          if quiet {
            NoteReached(w0, w1, RuntimeError(true));
            ReachedKeepsOnce(w0, session.World());
            SameToolsThen(w0.log, w1.log, session.log.events);
          }
          assert IsFatal(h) && Fatal(handlers[..i + 1]);
          NothingAfterFatal(w0.log, handlers, i + 1);
          return decisions, true;
        }
      } else if h.decision.Some? {
        decisions := decisions + [h.decision.value];
      }
      i := i + 1;
    }
    assert handlers[..i] == handlers;
    failed := false;
  }
}
