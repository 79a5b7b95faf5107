/**
  The history of a session as acts on its log and on the outside world: log steps, and tool runs that are
  answered at once. Whatever the acts and their order, no call is answered twice and none is run twice.
  */
module AgentHistory {
  import opened Wrappers
  import opened JsonValues
  import opened Events
  import opened LogHistory

  /** One execution of a tool handler, with the arguments it was given. */
  datatype ToolRun = ToolRun(id: ToolId, name: string, arguments: Json)

  /** The log, and the tool runs that happened. */
  datatype World = World(log: seq<Event>, runs: seq<ToolRun>)

  datatype Act =
    | LogAct(step: Step)
    | Perform(run: ToolRun, output: Option<Json>, error: Option<string>)

  ghost predicate Possible(w: World, act: Act) {
    match act
    case LogAct(step) => Enabled(w.log, step) && (step.Call? ==> Proper(step.id))
    case Perform(run, _, _) => Called(w.log, run.id) && !Answered(w.log, run.id)
  }

  ghost function After(w: World, act: Act): World
    requires Possible(w, act)
  {
    match act
    case LogAct(step) => w.(log := Do(w.log, step))
    case Perform(run, output, error) =>
      World(Add(w.log, ToolResult(run.id, output, error)), w.runs + [run])
  }

  ghost predicate Acts(from: World, acts: seq<Act>, to: World)
    decreases |acts|
  {
    if acts == [] then from == to
    else Possible(from, acts[0]) && Acts(After(from, acts[0]), acts[1..], to)
  }

  ghost predicate Reached(from: World, to: World) {
    exists acts :: Acts(from, acts, to)
  }

  /** What the history keeps: the log invariant, no empty id, no run twice, and every run answered. */
  ghost predicate Once(w: World) {
    && Inv(w.log)
    && (forall i, id :: IsUse(w.log, i, id) ==> Proper(id))
    && (forall a, b :: 0 <= a < b < |w.runs| ==> w.runs[a].id != w.runs[b].id)
    && (forall a :: 0 <= a < |w.runs| ==> Answered(w.log, w.runs[a].id))
  }

  const NEW_WORLD := World([], [])

  // ---- Composition -----------------------------------------------------------------------------------------

  lemma ReachedRefl(w: World)
    ensures Reached(w, w)
  {
    assert Acts(w, [], w);
  }

  lemma {:induction false} ActsConcat(a: World, s: seq<Act>, b: World, t: seq<Act>, c: World)
    requires Acts(a, s, b) && Acts(b, t, c)
    ensures Acts(a, s + t, c)
    decreases |s|
  {
    if s == [] {
      assert s + t == t;
    } else {
      assert (s + t)[1..] == s[1..] + t;
      ActsConcat(After(a, s[0]), s[1..], b, t, c);
    }
  }

  lemma ReachedTransitive(a: World, b: World, c: World)
    requires Reached(a, b) && Reached(b, c)
    ensures Reached(a, c)
  {
    var s :| Acts(a, s, b);
    var t :| Acts(b, t, c);
    ActsConcat(a, s, b, t, c);
  }

  lemma ReachedNext(a: World, b: World, act: Act)
    requires Reached(a, b) && Possible(b, act)
    ensures Reached(a, After(b, act))
  {
    var c := After(b, act);
    assert [act][1..] == [];
    assert Acts(b, [act], c);
    ReachedTransitive(a, b, c);
  }

  // ---- The invariant ---------------------------------------------------------------------------------------

  /** A step adds at most its own call, and never removes one or an answer. */
  lemma StepGrows(log: seq<Event>, step: Step)
    requires Inv(log) && Enabled(log, step)
    ensures var to := Do(log, step);
            && log <= to
            && (forall i, id :: IsUse(to, i, id) && !IsUse(log, i, id) ==> step.Call? && id == step.id)
            && (forall j, id :: IsResult(to, j, id) && !IsResult(log, j, id) ==> step.Answer? && id == step.id)
  {
    hide Inv;
    ApplySucceeds(log);
    if step.RunToolOutputCap? {
      var stream := Effective(log);
      assert stream[..|stream|] == stream;
      CapKeepsInv(step.cap, log, |stream|);
    }
  }

  lemma AnsweredGrows(log: seq<Event>, to: seq<Event>, id: ToolId)
    requires log <= to && Answered(log, id)
    ensures Answered(to, id)
  {
    var j :| IsResult(log, j, id);
    assert IsResult(to, j, id);
  }

  lemma ActKeepsOnce(w: World, act: Act)
    requires Once(w) && Possible(w, act)
    ensures Once(After(w, act)) && w.log <= After(w, act).log
  {
    var to := After(w, act);
    match act {
      case LogAct(step) =>
        StepKeepsInv(w.log, step);
        StepGrows(w.log, step);
        forall a | 0 <= a < |to.runs| ensures Answered(to.log, to.runs[a].id) {
          AnsweredGrows(w.log, to.log, w.runs[a].id);
        }
      case Perform(run, output, error) =>
        var step := Answer(run.id, output, error);
        StepKeepsInv(w.log, step);
        StepGrows(w.log, step);
        assert IsResult(to.log, |w.log|, run.id);
        forall a | 0 <= a < |to.runs| ensures Answered(to.log, to.runs[a].id) {
          if a < |w.runs| { AnsweredGrows(w.log, to.log, w.runs[a].id); }
        }
    }
  }

  lemma {:induction false} ActsKeepOnce(from: World, acts: seq<Act>, to: World)
    requires Once(from) && Acts(from, acts, to)
    ensures Once(to) && from.log <= to.log
    decreases |acts|
  {
    if acts != [] {
      ActKeepsOnce(from, acts[0]);
      ActsKeepOnce(After(from, acts[0]), acts[1..], to);
    }
  }

  lemma ReachedKeepsOnce(from: World, to: World)
    requires Once(from) && Reached(from, to)
    ensures Once(to) && from.log <= to.log
  {
    var acts :| Acts(from, acts, to);
    ActsKeepOnce(from, acts, to);
  }

  /** In every history no call gets two answers and no call is run twice. */
  lemma NothingTwice(w: World)
    requires Reached(NEW_WORLD, w)
    ensures forall i, j, id :: IsResult(w.log, i, id) && IsResult(w.log, j, id) ==> i == j
    ensures forall a, b :: 0 <= a < b < |w.runs| ==> w.runs[a].id != w.runs[b].id
    ensures forall a :: 0 <= a < |w.runs| ==> Called(w.log, w.runs[a].id) && Answered(w.log, w.runs[a].id)
  {
    assert Once(NEW_WORLD);
    ReachedKeepsOnce(NEW_WORLD, w);
    forall a | 0 <= a < |w.runs| ensures Called(w.log, w.runs[a].id) {
      var j :| IsResult(w.log, j, w.runs[a].id);
      var i :| i < j && IsUse(w.log, i, w.runs[a].id);
    }
  }

  /** The log of every history is a reachable log, so the laws of the effective stream hold on it. */
  lemma HistoryLogIsReachable(w: World)
    requires Reached(NEW_WORLD, w)
    ensures Reachable(w.log)
  {
    var acts :| Acts(NEW_WORLD, acts, w);
    ActsLogReaches(NEW_WORLD, acts, w);
  }

  lemma {:induction false} ActsLogReaches(from: World, acts: seq<Act>, to: World)
    requires Acts(from, acts, to)
    ensures Reaches(from.log, to.log)
    decreases |acts|
  {
    if acts == [] {
      assert Takes(from.log, [], to.log);
    } else {
      var next := After(from, acts[0]);
      match acts[0] {
        case LogAct(step) => ReachesOne(from.log, step);
        case Perform(run, output, error) => ReachesOne(from.log, Answer(run.id, output, error));
      }
      ActsLogReaches(next, acts[1..], to);
      ReachesTransitive(from.log, next.log, to.log);
    }
  }
}
