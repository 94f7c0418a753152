/** Run traces and their spans (server/src/rivulets/tracing.py): opened and closed step by step, force-closed
    on a cancel, reaped when the process that ran them is gone, and pruned by age. Each call is one atomic step
    with one reading of the clock. */
module Tracing {
  import opened Prelude

  type Id = string

  datatype Trace = Trace(status: string, spanCount: int, startedAt: int, completedAt: Option<int>)

  datatype Span = Span(traceId: Id, spanType: string, entityId: Option<Id>, status: string,
                       startedAt: int, completedAt: Option<int>, durationMs: Option<int>, errorMessage: Option<string>)

  datatype Db = Db(traces: map<Id, Trace>, spans: map<Id, Span>)

  const TERMINAL := {"completed", "error", "cancelled"}
  const ERRORS := {"error", "failed"}
  const STALE_ZERO_SPAN_SECONDS := 5 * 60

  function SpansOf(db: Db, t: Id): set<Id> {
    set s | s in db.spans && db.spans[s].traceId == t
  }

  predicate Open(db: Db, s: Id) {
    s in db.spans && db.spans[s].completedAt.None?
  }

  // ----- the steps, as functions of the state -----

  function StartTraceStep(db: Db, t: Id, now: int): Db {
    if t in db.traces then db else db.(traces := db.traces[t := Trace("running", 0, now, None)])
  }

  /** A span under a trace that is not there violates its foreign key, and is not written. */
  function StartSpanStep(db: Db, ctx: Option<Id>, s: Id, spanType: string, entityId: Option<Id>, now: int): Db {
    if ctx.None? || s in db.spans || ctx.value !in db.traces then db
    else
      var t := ctx.value;
      var row := Span(t, spanType, entityId, "running", now, None, None, None);
      Db(db.traces[t := db.traces[t].(spanCount := db.traces[t].spanCount + 1)], db.spans[s := row])
  }

  function DurationMs(startedAt: int, completedAt: int): int {
    if completedAt < startedAt then 0 else (completedAt - startedAt) * 1000
  }

  function Finished(span: Span, status: string, entityId: Option<Id>, errorMessage: Option<string>, now: int): Span {
    span.(status := status, completedAt := Some(now), durationMs := Some(DurationMs(span.startedAt, now)),
          entityId := if entityId.Some? then entityId else span.entityId,
          errorMessage := if errorMessage.Some? then errorMessage else span.errorMessage)
  }

  function FinishSpanStep(db: Db, s: Option<Id>, status: string, entityId: Option<Id>, errorMessage: Option<string>,
                          now: int): Db
  {
    if s.None? || s.value !in db.spans then db
    else db.(spans := db.spans[s.value := Finished(db.spans[s.value], status, entityId, errorMessage, now)])
  }

  predicate HasError(db: Db, t: Id) {
    exists s :: s in db.spans && db.spans[s].traceId == t && db.spans[s].status in ERRORS
  }

  function Closed(db: Db, t: Id, status: string, now: int): Trace
    requires t in db.traces
  {
    db.traces[t].(status := status, spanCount := |SpansOf(db, t)|, completedAt := Some(now))
  }

  function FinishTraceStep(db: Db, t: Option<Id>, now: int): Db {
    if t.None? || t.value !in db.traces || db.traces[t.value].status in TERMINAL then db
    else
      var status := if HasError(db, t.value) then "error" else "completed";
      db.(traces := db.traces[t.value := Closed(db, t.value, status, now)])
  }

  /** Every open span of the traces ts gets the status and the time of its trace's close. */
  function SpansClosed(db: Db, ts: set<Id>, status: string, now: int): map<Id, Span> {
    map s | s in db.spans ::
      if db.spans[s].traceId in ts && db.spans[s].completedAt.None?
      then Finished(db.spans[s], status, None, None, now) else db.spans[s]
  }

  function CloseAll(db: Db, ts: set<Id>, status: string, now: int): Db {
    Db(map t | t in db.traces :: if t in ts then Closed(db, t, status, now) else db.traces[t],
       SpansClosed(db, ts, status, now))
  }

  function CloseTraceStep(db: Db, t: Id, status: string, now: int): Db {
    if t !in db.traces || db.traces[t].status in TERMINAL then db else CloseAll(db, {t}, status, now)
  }

  /** The traces whose workflow run waits for a person. */
  function Paused(db: Db, awaiting: set<Id>): set<Id> {
    set s | s in db.spans && db.spans[s].spanType == "workflow_run" && db.spans[s].entityId.Some?
            && db.spans[s].entityId.value in awaiting :: db.spans[s].traceId
  }

  function ZeroSpan(db: Db, cutoff: int): set<Id> {
    set t | t in db.traces && db.traces[t].status == "running" && db.traces[t].startedAt < cutoff
            && forall s :: s in db.spans ==> db.spans[s].traceId != t
  }

  function RunningTraces(db: Db): set<Id> {
    set t | t in db.traces && db.traces[t].status == "running"
  }

  function ToReap(db: Db, awaiting: set<Id>, includeOrphaned: bool, now: int): set<Id> {
    (ZeroSpan(db, now - STALE_ZERO_SPAN_SECONDS) - Paused(db, awaiting)) +
    (if includeOrphaned then RunningTraces(db) - Paused(db, awaiting) else {})
  }

  function ReapStep(db: Db, awaiting: set<Id>, includeOrphaned: bool, now: int): Db {
    CloseAll(db, ToReap(db, awaiting, includeOrphaned, now), "error", now)
  }

  function Stale(db: Db, cutoff: int): set<Id> {
    set t | t in db.traces && db.traces[t].startedAt < cutoff
  }

  /** A trace goes with its spans. */
  function PruneStep(db: Db, cutoff: int): Db {
    Db(db.traces - Stale(db, cutoff),
       map s | s in db.spans && db.spans[s].traceId !in Stale(db, cutoff) :: db.spans[s])
  }

  // ----- closing and reaping, without the machinery -----

  /** The span as it was, ended now with this status. */
  ghost predicate EndedAs(was: Span, is_: Span, status: string, now: int) {
    && is_.traceId == was.traceId && is_.spanType == was.spanType && is_.entityId == was.entityId
    && is_.startedAt == was.startedAt && is_.errorMessage == was.errorMessage
    && is_.status == status && is_.completedAt == Some(now)
    && is_.durationMs == Some(if now < was.startedAt then 0 else (now - was.startedAt) * 1000)
  }

  /** The traces ts have ended now with this status and their number of spans, and so have all their open spans; nothing
      else has changed. */
  ghost predicate ClosedWith(before: Db, after: Db, ts: set<Id>, status: string, now: int) {
    && after.traces.Keys == before.traces.Keys && after.spans.Keys == before.spans.Keys
    && (forall t :: t in before.traces ==>
          if t in ts then after.traces[t] == Trace(status, |SpansOf(before, t)|, before.traces[t].startedAt, Some(now))
          else after.traces[t] == before.traces[t])
    && (forall s :: s in before.spans ==>
          if before.spans[s].traceId in ts && before.spans[s].completedAt.None?
          then EndedAs(before.spans[s], after.spans[s], status, now) else after.spans[s] == before.spans[s])
  }

  lemma CloseAllMeans(db: Db, ts: set<Id>, status: string, now: int)
    ensures ClosedWith(db, CloseAll(db, ts, status, now), ts, status, now)
  {
  }

  /** A terminal or missing trace is left alone. */
  ghost predicate ClosesTrace(before: Db, after: Db, t: Id, status: string, now: int) {
    if t in before.traces && before.traces[t].status !in {"completed", "error", "cancelled"}
    then ClosedWith(before, after, {t}, status, now) else after == before
  }

  lemma CloseTraceMeans(db: Db, t: Id, status: string, now: int)
    ensures ClosesTrace(db, CloseTraceStep(db, t, status, now), t, status, now)
  {
    CloseAllMeans(db, {t}, status, now);
  }

  ghost predicate WaitsForPerson(db: Db, awaiting: set<Id>, t: Id) {
    exists s :: s in db.spans && db.spans[s].traceId == t && db.spans[s].spanType == "workflow_run"
                && db.spans[s].entityId.Some? && db.spans[s].entityId.value in awaiting
  }

  /** What a reap takes: running traces that do not wait for a person; all of them, or those that are more than five
      minutes old and have no span. */
  ghost predicate Reapable(db: Db, awaiting: set<Id>, includeOrphaned: bool, now: int, t: Id) {
    && t in db.traces && db.traces[t].status == "running" && !WaitsForPerson(db, awaiting, t)
    && (includeOrphaned || (db.traces[t].startedAt < now - 300 && forall s :: s in db.spans ==> db.spans[s].traceId != t))
  }

  lemma ToReapMeans(db: Db, awaiting: set<Id>, includeOrphaned: bool, now: int)
    ensures forall t :: t in ToReap(db, awaiting, includeOrphaned, now) <==> Reapable(db, awaiting, includeOrphaned, now, t)
  {
    forall t ensures t in Paused(db, awaiting) <==> WaitsForPerson(db, awaiting, t) {
    }
  }

  // ----- the steps, as they run -----

  class TraceStore {
    var traces: map<Id, Trace>
    var spans: map<Id, Span>

    constructor ()
      ensures State() == Db(map[], map[])
    {
      traces, spans := map[], map[];
    }

    function State(): Db
      reads this
    {
      Db(traces, spans)
    }

    method StartTrace(newId: Id, now: int)
      modifies this`traces
      ensures State() == StartTraceStep(old(State()), newId, now)
      ensures traces == if newId in old(traces) then old(traces) else old(traces)[newId := Trace("running", 0, now, None)]
    {
      if newId !in traces {
        traces := traces[newId := Trace("running", 0, now, None)];
      }
    }

    method StartSpan(ctx: Option<Id>, newId: Id, spanType: string, entityId: Option<Id>, now: int)
      modifies this
      ensures State() == StartSpanStep(old(State()), ctx, newId, spanType, entityId, now)
      ensures ctx.None? || ctx.value !in old(traces) || newId in old(spans) ==> State() == old(State())
      ensures ctx.Some? && ctx.value in old(traces) && newId !in old(spans) ==>
                && spans == old(spans)[newId := Span(ctx.value, spanType, entityId, "running", now, None, None, None)]
                && traces == old(traces)[ctx.value := old(traces)[ctx.value].(spanCount := old(traces)[ctx.value].spanCount + 1)]
    {
      if ctx.None? {
        return;
      }
      var t := ctx.value;
      if newId in spans || t !in traces {
        return;
      }
      spans := spans[newId := Span(t, spanType, entityId, "running", now, None, None, None)];
      traces := traces[t := traces[t].(spanCount := traces[t].spanCount + 1)];
    }

    method FinishSpan(s: Option<Id>, status: string, entityId: Option<Id>, errorMessage: Option<string>, now: int)
      modifies this`spans
      ensures State() == FinishSpanStep(old(State()), s, status, entityId, errorMessage, now)
      ensures s.None? || s.value !in old(spans) ==> spans == old(spans)
      ensures s.Some? && s.value in old(spans) ==>
                && spans.Keys == old(spans.Keys) && (forall x :: x in old(spans) && x != s.value ==> spans[x] == old(spans)[x])
                && spans[s.value].status == status && spans[s.value].completedAt == Some(now)
                && spans[s.value].durationMs == Some(if now < old(spans)[s.value].startedAt then 0 else (now - old(spans)[s.value].startedAt) * 1000)
                && spans[s.value].entityId == (if entityId.Some? then entityId else old(spans)[s.value].entityId)
                && spans[s.value].errorMessage == (if errorMessage.Some? then errorMessage else old(spans)[s.value].errorMessage)
                && spans[s.value].traceId == old(spans)[s.value].traceId && spans[s.value].spanType == old(spans)[s.value].spanType
                && spans[s.value].startedAt == old(spans)[s.value].startedAt
    {
      if s.None? || s.value !in spans {
        return;
      }
      var span := spans[s.value];
      span := span.(status := status);
      if entityId.Some? {
        span := span.(entityId := entityId);
      }
      if errorMessage.Some? {
        span := span.(errorMessage := errorMessage);
      }
      span := span.(completedAt := Some(now), durationMs := Some(DurationMs(span.startedAt, now)));
      spans := spans[s.value := span];
    }

    /** Writes the recount of the trace's spans; says whether any of them errored. */
    method AggregateTrace(t: Id) returns (hasError: bool)
      requires t in traces
      modifies this`traces
      ensures traces == old(traces)[t := old(traces)[t].(spanCount := |SpansOf(old(State()), t)|)]
      ensures hasError <==> exists s :: s in old(spans) && old(spans)[s].traceId == t && old(spans)[s].status in ERRORS
    {
      var failed := set s | s in spans && spans[s].traceId == t && spans[s].status in ERRORS;
      hasError := |failed| != 0;
      if hasError {
        ghost var s :| s in failed;
      } else {
        assert failed == {};
        assert forall s :: s in spans && spans[s].traceId == t && spans[s].status in ERRORS ==> s in failed;
      }
      traces := traces[t := traces[t].(spanCount := |SpansOf(State(), t)|)];
    }

    method FinishTrace(t: Option<Id>, now: int)
      modifies this`traces
      ensures State() == FinishTraceStep(old(State()), t, now)
      ensures t.None? || t.value !in old(traces) || old(traces)[t.value].status in {"completed", "error", "cancelled"} ==> traces == old(traces)
      ensures t.Some? && t.value in old(traces) && old(traces)[t.value].status !in {"completed", "error", "cancelled"} ==>
                && traces.Keys == old(traces.Keys) && (forall u :: u in old(traces) && u != t.value ==> traces[u] == old(traces)[u])
                && traces[t.value].completedAt == Some(now) && traces[t.value].startedAt == old(traces)[t.value].startedAt
                && traces[t.value].spanCount == |SpansOf(old(State()), t.value)|
                && (traces[t.value].status == "error" <==>
                      exists s :: s in spans && spans[s].traceId == t.value && (spans[s].status == "error" || spans[s].status == "failed"))
                && (traces[t.value].status == "completed" <==>
                      forall s :: s in spans && spans[s].traceId == t.value ==> spans[s].status != "error" && spans[s].status != "failed")
    {
      if t.None? || t.value !in traces || traces[t.value].status in TERMINAL {
        return;
      }
      var hasError := AggregateTrace(t.value);
      traces := traces[t.value := traces[t.value].(status := if hasError then "error" else "completed", completedAt := Some(now))];
    }

    method FinishOpenSpans(t: Id, status: string, now: int)
      modifies this`spans
      ensures spans == SpansClosed(old(State()), {t}, status, now)
    {
      var open := set s | s in spans && spans[s].traceId == t && spans[s].completedAt.None?;
      ghost var all := open;
      while open != {}
        modifies this`spans
        invariant open <= all && spans.Keys == old(spans.Keys)
        invariant forall s :: s in spans ==>
                    spans[s] == if s in all - open then Finished(old(spans)[s], status, None, None, now) else old(spans)[s]
        decreases |open|
      {
        var s :| s in open;
        FinishSpan(Some(s), status, None, None, now);
        open := open - {s};
      }
      AllSpansClosed(old(State()), spans, t, status, now);
    }

    method CloseTrace(t: Id, status: string, now: int)
      modifies this
      ensures State() == CloseTraceStep(old(State()), t, status, now)
    {
      if t !in traces || traces[t].status in TERMINAL {
        return;
      }
      FinishOpenSpans(t, status, now);
      SameSpanSets(old(State()), State());
      var _ := AggregateTrace(t);
      traces := traces[t := traces[t].(status := status, completedAt := Some(now))];
      OneTraceClosed(old(State()), t, status, now);
    }

    method CloseEach(toClose: set<Id>, status: string, now: int)
      requires toClose <= RunningTraces(State())
      modifies this
      ensures State() == CloseAll(old(State()), toClose, status, now)
    {
      var left := toClose;
      CloseNone(State(), status, now);
      while left != {}
        invariant left <= toClose
        invariant State() == CloseAll(old(State()), toClose - left, status, now)
        decreases |left|
      {
        var t :| t in left;
        CloseOneMore(old(State()), toClose - left, t, status, now);
        CloseTrace(t, status, now);
        TakeOne(toClose, left, t);
        left := left - {t};
      }
    }

    /** Returns the number of traces it closed. */
    method ReapStaleTraces(awaiting: set<Id>, includeOrphaned: bool, now: int) returns (closed: nat)
      modifies this
      ensures State() == ReapStep(old(State()), awaiting, includeOrphaned, now)
      ensures closed == |ToReap(old(State()), awaiting, includeOrphaned, now)|
      ensures forall t :: t in ToReap(old(State()), awaiting, includeOrphaned, now) <==> Reapable(old(State()), awaiting, includeOrphaned, now, t)
      ensures ClosedWith(old(State()), State(), ToReap(old(State()), awaiting, includeOrphaned, now), "error", now)
    {
      ToReapMeans(State(), awaiting, includeOrphaned, now);
      CloseAllMeans(State(), ToReap(State(), awaiting, includeOrphaned, now), "error", now);
      ReapsOnlyRunning(State(), awaiting, includeOrphaned, now);
      var paused := Paused(State(), awaiting);
      var toClose := ZeroSpan(State(), now - STALE_ZERO_SPAN_SECONDS) - paused;
      closed := |toClose|;
      if includeOrphaned {
        var orphans := RunningTraces(State()) - paused - toClose;
        closed := closed + |orphans|;
        ReapInTwoParts(State(), awaiting, now);
        toClose := toClose + orphans;
      }
      CloseEach(toClose, "error", now);
    }

    /** What is left are the traces that started at the cutoff or later, as they were, and the spans of no pruned
        trace; returns how many traces are gone. */
    method PruneOldTraces(cutoff: int) returns (deleted: nat)
      modifies this
      ensures forall t :: t in traces <==> t in old(traces) && old(traces)[t].startedAt >= cutoff
      ensures forall t :: t in traces ==> traces[t] == old(traces)[t]
      ensures forall s :: s in spans <==> s in old(spans) && (old(spans)[s].traceId in old(traces) ==> old(spans)[s].traceId in traces)
      ensures forall s :: s in spans ==> spans[s] == old(spans)[s]
      ensures deleted == |old(traces)| - |traces|
      ensures State() == PruneStep(old(State()), cutoff)
    {
      var stale := set t | t in traces && traces[t].startedAt < cutoff;
      if stale == {} {
        NothingStale(State(), cutoff);
        return 0;
      }
      RemovedCount(traces, stale);
      traces := traces - stale;
      spans := map s | s in spans && spans[s].traceId !in stale :: spans[s];
      return |stale|;
    }
  }

  lemma AllSpansClosed(db: Db, spans: map<Id, Span>, t: Id, status: string, now: int)
    requires spans.Keys == db.spans.Keys
    requires forall s :: s in spans ==>
               spans[s] == if db.spans[s].traceId == t && db.spans[s].completedAt.None?
                           then Finished(db.spans[s], status, None, None, now) else db.spans[s]
    ensures spans == SpansClosed(db, {t}, status, now)
  {
    var target := SpansClosed(db, {t}, status, now);
    assert target.Keys == spans.Keys;
    assert forall s :: s in spans ==> spans[s] == target[s];
  }

  lemma NothingStale(db: Db, cutoff: int)
    requires Stale(db, cutoff) == {}
    ensures PruneStep(db, cutoff) == db
    ensures forall t :: t in db.traces ==> db.traces[t].startedAt >= cutoff
  {
    forall t | t in db.traces ensures db.traces[t].startedAt >= cutoff {
      assert t !in Stale(db, cutoff);
    }
    assert db.traces - {} == db.traces;
  }

  lemma RemovedCount(traces: map<Id, Trace>, stale: set<Id>)
    requires stale <= traces.Keys
    ensures |traces - stale| == |traces| - |stale|
  {
    assert (traces - stale).Keys == traces.Keys - stale;
  }

  lemma SameSpanSets(db: Db, next: Db)
    requires next.spans.Keys == db.spans.Keys
    requires forall s :: s in db.spans ==> next.spans[s].traceId == db.spans[s].traceId
    ensures forall t :: SpansOf(next, t) == SpansOf(db, t)
  {
  }

  lemma OneTraceClosed(db: Db, t: Id, status: string, now: int)
    requires t in db.traces
    ensures CloseAll(db, {t}, status, now).traces == db.traces[t := Closed(db, t, status, now)]
  {
  }

  lemma CloseNone(db: Db, status: string, now: int)
    ensures CloseAll(db, {}, status, now) == db
  {
  }

  lemma ReapsOnlyRunning(db: Db, awaiting: set<Id>, includeOrphaned: bool, now: int)
    ensures ToReap(db, awaiting, includeOrphaned, now) <= RunningTraces(db)
    ensures ToReap(db, awaiting, false, now) == ZeroSpan(db, now - STALE_ZERO_SPAN_SECONDS) - Paused(db, awaiting)
  {
  }

  /** The orphans that are no zero-span leftovers complete the set to reap, without repeats. */
  lemma ReapInTwoParts(db: Db, awaiting: set<Id>, now: int)
    ensures var paused, zero := Paused(db, awaiting), ZeroSpan(db, now - STALE_ZERO_SPAN_SECONDS) - Paused(db, awaiting);
            var orphans := RunningTraces(db) - paused - zero;
            zero + orphans == ToReap(db, awaiting, true, now) && |zero + orphans| == |zero| + |orphans|
  {
  }

  lemma TakeOne(all: set<Id>, left: set<Id>, t: Id)
    requires t in left && left <= all
    ensures all - (left - {t}) == (all - left) + {t}
  {
  }

  /** Closing one trace after others is closing them together. */
  lemma CloseOneMore(db: Db, ts: set<Id>, t: Id, status: string, now: int)
    requires t in db.traces && t !in ts && db.traces[t].status !in TERMINAL
    ensures CloseTraceStep(CloseAll(db, ts, status, now), t, status, now) == CloseAll(db, ts + {t}, status, now)
  {
    var mid := CloseAll(db, ts, status, now);
    SameSpanSets(db, mid);
    var a, b := CloseAll(mid, {t}, status, now), CloseAll(db, ts + {t}, status, now);
    assert a.spans == b.spans;
    assert a.traces == b.traces;
  }

  // ----- what every run keeps -----

  datatype Step =
    | StartTrace(traceId: Id, now: int)
    | StartSpan(ctx: Option<Id>, spanId: Id, spanType: string, entity: Option<Id>, now: int)
    | FinishSpan(finished: Option<Id>, status: string, entityId: Option<Id>, error: Option<string>, now: int)
    | FinishTrace(done: Option<Id>, now: int)
    | CloseTrace(closed: Id, closeStatus: string, now: int)
    | Reap(awaiting: set<Id>, includeOrphaned: bool, now: int)
    | Prune(cutoff: int)

  function Next(db: Db, step: Step): Db {
    match step
    case StartTrace(t, now) => StartTraceStep(db, t, now)
    case StartSpan(ctx, s, spanType, entity, now) => StartSpanStep(db, ctx, s, spanType, entity, now)
    case FinishSpan(s, status, entity, error, now) => FinishSpanStep(db, s, status, entity, error, now)
    case FinishTrace(t, now) => FinishTraceStep(db, t, now)
    case CloseTrace(t, status, now) => CloseTraceStep(db, t, status, now)
    case Reap(awaiting, orphaned, now) => ReapStep(db, awaiting, orphaned, now)
    case Prune(cutoff) => PruneStep(db, cutoff)
  }

  /** A step as it is made: a call of one of the functions above. */
  method Perform(store: TraceStore, step: Step)
    modifies store
    ensures store.State() == Next(old(store.State()), step)
  {
    match step
    case StartTrace(t, now) => store.StartTrace(t, now);
    case StartSpan(ctx, s, spanType, entity, now) => store.StartSpan(ctx, s, spanType, entity, now);
    case FinishSpan(s, status, entity, error, now) => store.FinishSpan(s, status, entity, error, now);
    case FinishTrace(t, now) => store.FinishTrace(t, now);
    case CloseTrace(t, status, now) => store.CloseTrace(t, status, now);
    case Reap(awaiting, orphaned, now) => var _ := store.ReapStaleTraces(awaiting, orphaned, now);
    case Prune(cutoff) => var _ := store.PruneOldTraces(cutoff);
  }

  function Run(db: Db, steps: seq<Step>): Db {
    if steps == [] then db else Next(Run(db, steps[..|steps| - 1]), steps[|steps| - 1])
  }

  /** The incremental count equals the recount, and every span has its trace. */
  ghost predicate Counted(db: Db) {
    && (forall t :: t in db.traces ==> db.traces[t].spanCount == |SpansOf(db, t)|)
    && (forall s :: s in db.spans ==> db.spans[s].traceId in db.traces)
  }

  lemma StartSpanCounts(db: Db, ctx: Option<Id>, s: Id, spanType: string, entity: Option<Id>, now: int)
    requires Counted(db)
    ensures Counted(StartSpanStep(db, ctx, s, spanType, entity, now))
  {
    var next := StartSpanStep(db, ctx, s, spanType, entity, now);
    if next != db {
      var t := ctx.value;
      assert SpansOf(next, t) == SpansOf(db, t) + {s};
      forall u | u != t ensures SpansOf(next, u) == SpansOf(db, u) {
      }
    }
  }

  lemma CloseAllCounts(db: Db, ts: set<Id>, status: string, now: int)
    requires Counted(db)
    ensures Counted(CloseAll(db, ts, status, now))
  {
    SameSpanSets(db, CloseAll(db, ts, status, now));
  }

  lemma PruneCounts(db: Db, cutoff: int)
    requires Counted(db)
    ensures Counted(PruneStep(db, cutoff))
  {
    var next := PruneStep(db, cutoff);
    forall t | t in next.traces ensures SpansOf(next, t) == SpansOf(db, t) {
    }
  }

  lemma NextCounts(db: Db, step: Step)
    requires Counted(db)
    ensures Counted(Next(db, step))
  {
    match step
    case StartTrace(t, now) =>
      SameSpanSets(db, Next(db, step));
      assert t !in db.traces ==> SpansOf(db, t) == {};
    case StartSpan(ctx, s, spanType, entity, now) => StartSpanCounts(db, ctx, s, spanType, entity, now);
    case FinishSpan(s, status, entity, error, now) => SameSpanSets(db, Next(db, step));
    case FinishTrace(t, now) => SameSpanSets(db, Next(db, step));
    case CloseTrace(t, status, now) => CloseAllCounts(db, {t}, status, now);
    case Reap(awaiting, orphaned, now) => CloseAllCounts(db, ToReap(db, awaiting, orphaned, now), "error", now);
    case Prune(cutoff) => PruneCounts(db, cutoff);
  }

  /** Over every run, a trace's span count equals the number of its spans. */
  lemma {:induction false} SpanCountIsExact(steps: seq<Step>)
    ensures Counted(Run(Db(map[], map[]), steps))
  {
    if steps != [] {
      SpanCountIsExact(steps[..|steps| - 1]);
      NextCounts(Run(Db(map[], map[]), steps[..|steps| - 1]), steps[|steps| - 1]);
    }
  }

  ghost predicate Terminal(db: Db, t: Id) {
    t in db.traces && db.traces[t].status in TERMINAL
  }

  lemma NextKeepsTerminal(db: Db, step: Step, t: Id)
    requires Terminal(db, t)
    ensures t in Next(db, step).traces ==>
              Next(db, step).traces[t].status == db.traces[t].status
              && Next(db, step).traces[t].completedAt == db.traces[t].completedAt
    ensures t !in Next(db, step).traces ==> step.Prune?
  {
  }

  /** A closed trace stays as it was closed: neither its status nor its completion time changes until
      it is pruned (and no later trace takes its id). */
  lemma {:induction false} ClosedIsFinal(db: Db, steps: seq<Step>, t: Id)
    requires Terminal(db, t)
    requires forall i :: 0 <= i < |steps| ==> !(steps[i].StartTrace? && steps[i].traceId == t)
    ensures t in Run(db, steps).traces ==>
              Run(db, steps).traces[t].status == db.traces[t].status
              && Run(db, steps).traces[t].completedAt == db.traces[t].completedAt
  {
    if steps != [] {
      var init, last := steps[..|steps| - 1], steps[|steps| - 1];
      ClosedIsFinal(db, init, t);
      var mid := Run(db, init);
      if t in mid.traces {
        NextKeepsTerminal(mid, last, t);
      } else {
        assert steps[|steps| - 1] == last;
        StaysAway(mid, last, t);
      }
    }
  }

  lemma StaysAway(db: Db, step: Step, t: Id)
    requires t !in db.traces && !(step.StartTrace? && step.traceId == t)
    ensures t !in Next(db, step).traces
  {
  }

  /** A close leaves no span of its trace open, unless the trace was closed before: then it leaves the
      spans alone, and one that was started late stays open. */
  lemma CloseLeavesNoOpenSpan(db: Db, t: Id, status: string, now: int)
    requires t in db.traces
    ensures var next := CloseTraceStep(db, t, status, now);
            (forall s :: Open(next, s) ==> next.spans[s].traceId != t) <==>
            (!Terminal(db, t) || forall s :: Open(db, s) ==> db.spans[s].traceId != t)
  {
    var next := CloseTraceStep(db, t, status, now);
    if Terminal(db, t) {
      assert next == db;
    } else {
      forall s | Open(next, s) ensures next.spans[s].traceId != t {
      }
    }
  }

  /** A span started late under a closed trace is the case that equivalence excludes. */
  lemma LateSpanStaysOpen()
    ensures var ctx := Some("t");
            var steps := [StartTrace("t", 1), CloseTrace("t", "cancelled", 2), StartSpan(ctx, "s", "agent_run", None, 3)];
            var db := Run(Db(map[], map[]), steps);
            Terminal(db, "t") && Open(CloseTraceStep(db, "t", "error", 4), "s")
  {
    var ctx := Some("t");
    var d0 := Db(map[], map[]);
    var steps := [StartTrace("t", 1), CloseTrace("t", "cancelled", 2), StartSpan(ctx, "s", "agent_run", None, 3)];
    assert steps[..2] == [steps[0], steps[1]] && steps[..2][..1] == [steps[0]] && [steps[0]][..0] == [];
    var d1 := Next(d0, steps[0]);
    assert Run(d0, [steps[0]]) == d1;
    var d2 := Next(d1, steps[1]);
    assert Run(d0, [steps[0], steps[1]]) == d2;
    assert Run(d0, steps) == Next(d2, steps[2]);
  }

  /** The orphan reap, on process start: what it leaves running is exactly what waits for a person; it
      closes the rest as errors, with all their spans, and counts them. */
  lemma OrphanReapIsExact(db: Db, awaiting: set<Id>, now: int)
    ensures var next := ReapStep(db, awaiting, true, now);
            var closed := ToReap(db, awaiting, true, now);
            && RunningTraces(next) == RunningTraces(db) * Paused(db, awaiting)
            && closed == RunningTraces(db) - RunningTraces(next)
            && (forall t :: t in closed ==> next.traces[t].status == "error" && next.traces[t].completedAt == Some(now))
            && (forall t :: t in db.traces && t !in closed ==> next.traces[t] == db.traces[t])
            && (forall s :: Open(next, s) ==> next.spans[s].traceId !in closed)
            && Paused(next, awaiting) == Paused(db, awaiting)
  {
    var next := ReapStep(db, awaiting, true, now);
    var closed := ToReap(db, awaiting, true, now);
    assert closed == RunningTraces(db) - Paused(db, awaiting);
    forall t ensures t in RunningTraces(next) <==> t in RunningTraces(db) && t in Paused(db, awaiting) {
    }
    PausedStays(db, closed, awaiting, now);
  }

  lemma PausedStays(db: Db, ts: set<Id>, awaiting: set<Id>, now: int)
    ensures Paused(CloseAll(db, ts, "error", now), awaiting) == Paused(db, awaiting)
  {
    var next := CloseAll(db, ts, "error", now);
    forall s | s in db.spans
      ensures next.spans[s].spanType == db.spans[s].spanType && next.spans[s].entityId == db.spans[s].entityId
              && next.spans[s].traceId == db.spans[s].traceId
    {
    }
    forall t ensures t in Paused(next, awaiting) <==> t in Paused(db, awaiting) {
      if t in Paused(db, awaiting) {
        var s :| s in db.spans && db.spans[s].spanType == "workflow_run" && db.spans[s].entityId.Some?
                 && db.spans[s].entityId.value in awaiting && db.spans[s].traceId == t;
        assert s in next.spans;
      }
    }
  }

  /** The periodic reap closes exactly the running traces that are old and have no span. */
  lemma PeriodicReapIsExact(db: Db, awaiting: set<Id>, now: int)
    ensures forall t :: t in db.traces ==>
              (ReapStep(db, awaiting, false, now).traces[t] != db.traces[t] <==>
                 db.traces[t].status == "running" && db.traces[t].startedAt < now - STALE_ZERO_SPAN_SECONDS && SpansOf(db, t) == {})
  {
    forall t | t in db.traces
      ensures t in ToReap(db, awaiting, false, now) <==>
              db.traces[t].status == "running" && db.traces[t].startedAt < now - STALE_ZERO_SPAN_SECONDS && SpansOf(db, t) == {}
    {
      if SpansOf(db, t) == {} {
        forall s | s in db.spans ensures db.spans[s].traceId != t {
          assert db.spans[s].traceId == t ==> s in SpansOf(db, t);
        }
      }
      if t in Paused(db, awaiting) {
        var s :| s in db.spans && db.spans[s].traceId == t;
        assert s in SpansOf(db, t);
      }
    }
  }
}
