/**
  The guard against writing over files that changed behind the session's back. Every guarded operation records
  the content it left on disk in the session log; a digest is taken to be the content itself.
  */
module StaleReads {
  import opened Wrappers
  import opened Events

  class Disk {
    var files: map<string, string>

    constructor (files: map<string, string>)
      ensures this.files == files
    {
      this.files := files;
    }
  }

  /** What a tool handler does: the files it leaves behind, and whether it raises. */
  datatype HandlerRun = HandlerRun(files: map<string, string>, raises: bool)

  datatype Outcome = Completed | HandlerRaised | Refused

  function ContentOf(files: map<string, string>, path: string): Option<string> {
    if path in files then Some(files[path]) else None
  }

  /** The last recorded digest of a path. */
  function LastHash(log: seq<Event>, path: string): Option<string> {
    if log == [] then None
    else
      var p := log[|log| - 1].payload;
      if p.HashRecord? && p.path == path then Some(p.digest) else LastHash(log[..|log| - 1], path)
  }

  /** When a mutation is refused. */
  predicate Stale(strict: bool, requireRead: bool, recorded: Option<string>, current: Option<string>) {
    strict && if recorded.None? then current.Some? && requireRead else current != recorded
  }

  /** After a completed operation on a path, the content it left is on record. */
  function Recorded(log: seq<Event>, path: string, files: map<string, string>): seq<Event> {
    if path != "" && path in files then log + [Event(|log|, HashRecord(path, files[path]))] else log
  }

  class StaleReadGuard {
    const log: Log
    const disk: Disk
    const strict: bool
    const requireRead: bool

    constructor (log: Log, disk: Disk, strict: bool, requireRead: bool)
      ensures this.log == log && this.disk == disk && this.strict == strict && this.requireRead == requireRead
    {
      this.log, this.disk, this.strict, this.requireRead := log, disk, strict, requireRead;
    }

    method LastHashFor(path: string) returns (digest: Option<string>)
      ensures digest == LastHash(log.events, path)
    {
      var events := log.events;
      var i := |events|;
      assert events[..i] == events;
      while i > 0
        invariant 0 <= i <= |events| && LastHash(events, path) == LastHash(events[..i], path)
      {
        assert events[..i][..i - 1] == events[..i - 1];
        var p := events[i - 1].payload;
        if p.HashRecord? && p.path == path { return Some(p.digest); }
        i := i - 1;
      }
      return None;
    }

    method CheckFresh(path: string) returns (refused: bool)
      ensures refused <==> Stale(strict, requireRead, LastHash(log.events, path), ContentOf(disk.files, path))
    {
      var previous := LastHashFor(path);
      if previous.None? {
        if path !in disk.files { return false; }
        return requireRead && strict;
      }
      var current := if path in disk.files then Some(disk.files[path]) else None;
      return current != previous && strict;
    }

    method Record(path: string)
      requires log.Valid()
      modifies log
      ensures log.Valid() && log.events == Recorded(old(log.events), path, disk.files)
    {
      if path != "" && path in disk.files {
        var _ := log.Append(HashRecord(path, disk.files[path]));
      }
    }

    /** A guarded read; an empty path stands for an absent one. */
    method Read(path: string, run: HandlerRun) returns (outcome: Outcome)
      requires log.Valid()
      modifies log, disk
      ensures log.Valid() && disk.files == run.files
      ensures outcome == if run.raises then HandlerRaised else Completed
      ensures log.events == if run.raises then old(log.events) else Recorded(old(log.events), path, run.files)
    {
      disk.files := run.files;
      if run.raises { return HandlerRaised; }
      Record(path);
      return Completed;
    }

    /** A guarded edit or write: a refused one leaves disk and log alone. */
    method Mutate(path: string, run: HandlerRun) returns (outcome: Outcome)
      requires log.Valid()
      modifies log, disk
      ensures log.Valid()
      ensures outcome == Refused <==>
              path != ""
              && Stale(strict, requireRead, LastHash(old(log.events), path), ContentOf(old(disk.files), path))
      ensures outcome != Refused ==> outcome == (if run.raises then HandlerRaised else Completed)
      ensures disk.files == if outcome == Refused then old(disk.files) else run.files
      ensures log.events == if outcome == Completed then Recorded(old(log.events), path, run.files) else old(log.events)
    {
      if path != "" {
        var refused := CheckFresh(path);
        if refused { return Refused; }
      }
      disk.files := run.files;
      if run.raises { return HandlerRaised; }
      Record(path);
      return Completed;
    }
  }

  // ---- Whole histories ---------------------------------------------------------------------------------------

  datatype Operation =
    | GuardedRead(path: string, run: HandlerRun)
    | GuardedMutation(path: string, run: HandlerRun)
    | OutsideChange(files: map<string, string>)

  /** One step of a history, with the disk before and after it. */
  datatype Happening =
    Happening(op: Operation, before: map<string, string>, after: map<string, string>, outcome: Outcome)

  /** The content of a path when the session last looked at it: at its last completed guarded operation. */
  function LastSeen(trace: seq<Happening>, path: string): Option<string> {
    if trace == [] then None
    else
      var h := trace[|trace| - 1];
      if !h.op.OutsideChange? && h.outcome.Completed? && h.op.path == path && path in h.after then Some(h.after[path])
      else LastSeen(trace[..|trace| - 1], path)
  }

  /** A strict guard that asks for reads runs a mutation exactly when the file is as the session last saw it. */
  ghost predicate OnlyAsSeen(trace: seq<Happening>) {
    forall j :: 0 <= j < |trace| ==> AsSeen(trace[..j], trace[j])
  }

  predicate AsSeen(trace: seq<Happening>, h: Happening) {
    h.op.GuardedMutation? && h.op.path != "" ==>
      (h.outcome != Refused <==> ContentOf(h.before, h.op.path) == LastSeen(trace, h.op.path))
  }

  /** The disk changes only by what happens to it, and a refused mutation changes nothing. */
  ghost predicate Connected(trace: seq<Happening>, start: map<string, string>) {
    forall j :: 0 <= j < |trace| ==> ConnectedAt(trace, start, j)
  }

  predicate ConnectedAt(trace: seq<Happening>, start: map<string, string>, j: nat)
    requires j < |trace|
  {
    && trace[j].before == (if j == 0 then start else trace[j - 1].after)
    && (trace[j].outcome == Refused ==> trace[j].after == trace[j].before)
  }

  /** One operation, as it happens. */
  method Perform(guard: StaleReadGuard, op: Operation) returns (h: Happening)
    requires guard.log.Valid()
    modifies guard.log, guard.disk
    ensures guard.log.Valid()
    ensures h.op == op && h.before == old(guard.disk.files) && h.after == guard.disk.files
    ensures h.outcome == Refused ==> h.after == h.before
    ensures guard.log.events
         == if !op.OutsideChange? && h.outcome == Completed then Recorded(old(guard.log.events), op.path, h.after)
            else old(guard.log.events)
    ensures op.GuardedMutation? && op.path != "" ==>
              var read := LastHash(old(guard.log.events), op.path);
              (h.outcome == Refused <==> Stale(guard.strict, guard.requireRead, read, ContentOf(h.before, op.path)))
  {
    hide LastHash, Stale, Recorded;
    var before := guard.disk.files;
    var outcome := Completed;
    match op {
      case GuardedRead(path, run) => outcome := guard.Read(path, run);
      case GuardedMutation(path, run) => outcome := guard.Mutate(path, run);
      case OutsideChange(files) => guard.disk.files := files;
    }
    h := Happening(op, before, guard.disk.files, outcome);
  }

  /**
    Guarded operations and outside changes in any order: a mutation runs exactly when the file is as the session
    last saw it, or absent and never seen.
    */
  method Interleave(start: map<string, string>, ops: seq<Operation>) returns (trace: seq<Happening>)
    ensures |trace| == |ops| && forall j :: 0 <= j < |ops| ==> trace[j].op == ops[j]
    ensures Connected(trace, start) && OnlyAsSeen(trace)
  {
    hide LastHash, LastSeen, Stale, Recorded, OnlyAsSeen, Connected;
    NothingSeen();
    var log := new Log();
    var disk := new Disk(start);
    var guard := new StaleReadGuard(log, disk, true, true);
    trace := [];
    var i := 0;
    while i < |ops|
      invariant 0 <= i <= |ops| && |trace| == i && forall j :: 0 <= j < i ==> trace[j].op == ops[j]
      invariant guard.strict && guard.requireRead && fresh(guard.log) && fresh(guard.disk) && guard.log.Valid()
      invariant guard.disk.files == (if i == 0 then start else trace[i - 1].after)
      invariant Connected(trace, start) && OnlyAsSeen(trace)
      invariant forall path :: path != "" ==> LastHash(guard.log.events, path) == LastSeen(trace, path)
    {
      ghost var logged := guard.log.events;
      var h := Perform(guard, ops[i]);
      if !h.op.OutsideChange? {
        StaleExactly(LastHash(logged, h.op.path), ContentOf(h.before, h.op.path));
      }
      assert AsSeen(trace, h);
      TraceGrows(trace, h, logged, guard.log.events);
      ConnectedGrows(trace, start, h);
      trace := trace + [h];
      i := i + 1;
    }
  }

  lemma ConnectedGrows(trace: seq<Happening>, start: map<string, string>, h: Happening)
    requires Connected(trace, start) && h.before == if trace == [] then start else trace[|trace| - 1].after
    requires h.outcome == Refused ==> h.after == h.before
    ensures Connected(trace + [h], start)
  {
    forall j | 0 <= j < |trace| + 1 ensures ConnectedAt(trace + [h], start, j) {
      if j < |trace| { assert ConnectedAt(trace, start, j); }
    }
  }

  lemma NothingSeen()
    ensures OnlyAsSeen([]) && forall start :: Connected([], start)
    ensures forall path :: LastHash([], path) == LastSeen([], path)
  {
  }

  /** What the log records and what the session last saw stay the same thing. */
  lemma TraceGrows(trace: seq<Happening>, h: Happening, before: seq<Event>, after: seq<Event>)
    requires forall path :: path != "" ==> LastHash(before, path) == LastSeen(trace, path)
    requires after == if !h.op.OutsideChange? && h.outcome == Completed then Recorded(before, h.op.path, h.after)
                      else before
    ensures forall path :: path != "" ==> LastHash(after, path) == LastSeen(trace + [h], path)
    ensures OnlyAsSeen(trace) && AsSeen(trace, h) ==> OnlyAsSeen(trace + [h])
  {
    var more := trace + [h];
    assert more[..|trace|] == trace;
    if after != before { assert after[..|before|] == before; }
    forall j | 0 <= j < |trace| ensures more[..j] == trace[..j] {
    }
  }

  lemma StaleExactly(recorded: Option<string>, current: Option<string>)
    ensures Stale(true, true, recorded, current) <==> current != recorded
  {
  }
}
