/** The event loop of run_agent (server/src/rivulets/agentos/service.py): it folds a stream of events into one
    run output, collecting the tool calls that the terminal event does not carry. */
module AgentRun {
  import opened Prelude

  datatype ToolExecution = ToolExecution(callId: Option<string>, toolName: Option<string>, failed: bool, result: string)

  datatype Event =
    | Content(delta: Option<string>)                            // None: content that is no string
    | ToolCallStarted(started: Option<ToolExecution>)
    | ToolCallEnded(ended: Option<ToolExecution>)               // completed, or failed with an error
    | RunError(message: string)
    | RunCompleted(content: string, tools: Option<seq<ToolExecution>>)
    | OtherEvent

  /** What a caller sees of the run. */
  datatype Outcome =
    | Output(content: string, failed: bool, tools: seq<ToolExecution>)
    | NoTerminalEvent

  // ----- the tool calls of a stream -----

  /** The calls that ended, one entry for each event that says so. */
  function EndedCalls(events: seq<Event>): seq<ToolExecution> {
    if events == [] then []
    else
      var e := events[|events| - 1];
      EndedCalls(events[..|events| - 1]) + if e.ToolCallEnded? && e.ended.Some? then [e.ended.value] else []
  }

  predicate SameCall(a: ToolExecution, b: ToolExecution) {
    a.callId.Some? && a.callId == b.callId
  }

  /** The index of the first entry of the list for t's call, or the length of the list. */
  function IndexOf(xs: seq<ToolExecution>, t: ToolExecution): nat {
    if xs == [] then 0 else if SameCall(xs[0], t) then 0 else 1 + IndexOf(xs[1..], t)
  }

  lemma {:induction false} IndexOfIsFirst(xs: seq<ToolExecution>, t: ToolExecution)
    ensures IndexOf(xs, t) <= |xs|
    ensures IndexOf(xs, t) < |xs| ==> SameCall(xs[IndexOf(xs, t)], t)
    ensures forall i :: 0 <= i < IndexOf(xs, t) ==> !SameCall(xs[i], t)
  {
    if xs != [] && !SameCall(xs[0], t) {
      IndexOfIsFirst(xs[1..], t);
    }
  }

  /** A later event for a call replaces its entry; the first one adds an entry at the end. */
  function Reconcile(xs: seq<ToolExecution>, t: ToolExecution): seq<ToolExecution> {
    var i := IndexOf(xs, t);
    if i < |xs| then xs[i := t] else xs + [t]
  }

  function Collect(events: seq<Event>): seq<ToolExecution> {
    if events == [] then []
    else
      var rest := Collect(events[..|events| - 1]);
      var e := events[|events| - 1];
      if e.ToolCallEnded? && e.ended.Some? then Reconcile(rest, e.ended.value) else rest
  }

  /** No earlier event reported the i-th call. */
  ghost predicate IsFirst(ts: seq<ToolExecution>, i: nat)
    requires i < |ts|
  {
    forall j :: 0 <= j < i ==> !SameCall(ts[j], ts[i])
  }

  /** The last report of t's call in ts, t itself if there is none. */
  ghost function LastReport(ts: seq<ToolExecution>, t: ToolExecution): ToolExecution {
    if ts == [] then t
    else if SameCall(ts[|ts| - 1], t) then ts[|ts| - 1]
    else LastReport(ts[..|ts| - 1], t)
  }

  /** One entry per call, in the order of the first reports, with what the last report says; calls
      without an id are all kept. */
  ghost function OnePerCall(ts: seq<ToolExecution>, k: nat): seq<ToolExecution>
    requires k <= |ts|
  {
    if k == 0 then []
    else OnePerCall(ts, k - 1) + if IsFirst(ts, k - 1) then [LastReport(ts, ts[k - 1])] else []
  }

  ghost function Update(xs: seq<ToolExecution>, t: ToolExecution): seq<ToolExecution> {
    if xs == [] then []
    else Update(xs[..|xs| - 1], t) + [if SameCall(xs[|xs| - 1], t) then t else xs[|xs| - 1]]
  }

  lemma {:induction false} UpdateAt(xs: seq<ToolExecution>, t: ToolExecution)
    ensures |Update(xs, t)| == |xs|
    ensures forall i :: 0 <= i < |xs| ==> Update(xs, t)[i] == if SameCall(xs[i], t) then t else xs[i]
  {
    if xs != [] {
      UpdateAt(xs[..|xs| - 1], t);
    }
  }

  lemma UpdateAppend(xs: seq<ToolExecution>, x: ToolExecution, t: ToolExecution)
    ensures Update(xs + [x], t) == Update(xs, t) + [if SameCall(x, t) then t else x]
  {
    assert (xs + [x])[..|xs|] == xs;
  }

  lemma {:induction false} LastReportIsSameCall(ts: seq<ToolExecution>, t: ToolExecution)
    ensures LastReport(ts, t).callId == t.callId
  {
    if ts != [] {
      LastReportIsSameCall(ts[..|ts| - 1], t);
    }
  }

  /** One more report updates the entry of its call and leaves the others. */
  lemma {:induction false} OnePerCallGrows(ts: seq<ToolExecution>, t: ToolExecution, k: nat)
    requires k <= |ts|
    ensures OnePerCall(ts + [t], k) == Update(OnePerCall(ts, k), t)
  {
    if k > 0 {
      OnePerCallGrows(ts, t, k - 1);
      var more, x := ts + [t], ts[k - 1];
      assert more[..|ts|] == ts && more[k - 1] == x;
      assert IsFirst(more, k - 1) <==> IsFirst(ts, k - 1) by {
        assert forall j :: 0 <= j < k ==> more[j] == ts[j];
      }
      LastReportIsSameCall(ts, x);
      if IsFirst(ts, k - 1) {
        UpdateAppend(OnePerCall(ts, k - 1), LastReport(ts, x), t);
      } else {
        assert Update(OnePerCall(ts, k - 1), t) + [] == Update(OnePerCall(ts, k - 1), t);
        assert OnePerCall(ts, k - 1) + [] == OnePerCall(ts, k - 1);
      }
    }
  }

  ghost predicate DistinctCalls(xs: seq<ToolExecution>) {
    forall i, j :: 0 <= i < j < |xs| ==> !SameCall(xs[i], xs[j])
  }

  /** Whether a call is among the entries is whether it was reported. */
  lemma {:induction false} ReportedCalls(ts: seq<ToolExecution>, k: nat, t: ToolExecution)
    requires k <= |ts|
    ensures (exists i :: 0 <= i < |OnePerCall(ts, k)| && SameCall(OnePerCall(ts, k)[i], t)) <==>
            (exists j :: 0 <= j < k && SameCall(ts[j], t))
    decreases k
  {
    if k > 0 {
      ReportedCalls(ts, k - 1, t);
      var rest, x := OnePerCall(ts, k - 1), ts[k - 1];
      LastReportIsSameCall(ts, x);
      if IsFirst(ts, k - 1) {
        assert OnePerCall(ts, k) == rest + [LastReport(ts, x)];
        assert OnePerCall(ts, k)[|rest|] == LastReport(ts, x);
        assert forall i :: 0 <= i < |rest| ==> OnePerCall(ts, k)[i] == rest[i];
      } else {
        assert OnePerCall(ts, k) == rest;
      }
    }
  }

  lemma {:induction false} EntriesAreDistinct(ts: seq<ToolExecution>, k: nat)
    requires k <= |ts|
    ensures DistinctCalls(OnePerCall(ts, k))
  {
    if k > 0 {
      EntriesAreDistinct(ts, k - 1);
      ReportedCalls(ts, k - 1, ts[k - 1]);
      LastReportIsSameCall(ts, ts[k - 1]);
    }
  }

  lemma ReconcileIsUpdate(xs: seq<ToolExecution>, t: ToolExecution)
    requires DistinctCalls(xs)
    ensures Reconcile(xs, t) == if exists i :: 0 <= i < |xs| && SameCall(xs[i], t) then Update(xs, t) else Update(xs, t) + [t]
  {
    IndexOfIsFirst(xs, t);
    UpdateAt(xs, t);
    var i := IndexOf(xs, t);
    if i < |xs| {
      assert forall j :: 0 <= j < |xs| && j != i ==> !SameCall(xs[j], t);
      assert Reconcile(xs, t) == Update(xs, t);
    } else {
      assert Update(xs, t) == xs;
    }
  }

  lemma ReconcileReport(ts: seq<ToolExecution>, t: ToolExecution)
    ensures Reconcile(OnePerCall(ts, |ts|), t) == OnePerCall(ts + [t], |ts| + 1)
  {
    EntriesAreDistinct(ts, |ts|);
    ReconcileIsUpdate(OnePerCall(ts, |ts|), t);
    OnePerCallGrows(ts, t, |ts|);
    ReportedCalls(ts, |ts|, t);
    FirstReport(ts, t);
    assert Update(OnePerCall(ts, |ts|), t) + [] == Update(OnePerCall(ts, |ts|), t);
  }

  lemma FirstReport(ts: seq<ToolExecution>, t: ToolExecution)
    ensures (ts + [t])[|ts|] == t && LastReport(ts + [t], t) == t
    ensures IsFirst(ts + [t], |ts|) <==> !exists j :: 0 <= j < |ts| && SameCall(ts[j], t)
  {
    var more := ts + [t];
    assert more[|ts|] == t && forall j :: 0 <= j < |ts| ==> more[j] == ts[j];
    if t.callId.None? {
      NoReport(more, t);
    }
  }

  lemma {:induction false} NoReport(ts: seq<ToolExecution>, t: ToolExecution)
    requires t.callId.None?
    ensures LastReport(ts, t) == t
  {
    if ts != [] {
      NoReport(ts[..|ts| - 1], t);
    }
  }

  /** The incremental reconciliation yields, for every event sequence, one entry per call: in the order of
      first completion, each with its last completion or error report, calls without an id all kept. */
  lemma {:induction false} CollectIsOnePerCall(events: seq<Event>)
    ensures Collect(events) == OnePerCall(EndedCalls(events), |EndedCalls(events)|)
    ensures DistinctCalls(Collect(events))
  {
    if events != [] {
      var init, e := events[..|events| - 1], events[|events| - 1];
      CollectIsOnePerCall(init);
      if e.ToolCallEnded? && e.ended.Some? {
        ReconcileReport(EndedCalls(init), e.ended.value);
      } else {
        assert EndedCalls(init) + [] == EndedCalls(init);
      }
    }
    EntriesAreDistinct(EndedCalls(events), |EndedCalls(events)|);
  }

  // ----- what is collected, without the machinery -----

  /** d is the last report of the call that ts[i] reports; without an id it is that report itself. */
  ghost predicate IsLastReport(ts: seq<ToolExecution>, i: nat, d: ToolExecution) {
    i < |ts| &&
    exists j :: i <= j < |ts| && ts[j] == d && (j == i || SameCall(ts[j], ts[i])) && forall k :: j < k < |ts| ==> !SameCall(ts[k], ts[i])
  }

  /** xs has one entry for each call of ts, in the order of the first reports, and each is the last report of its call. */
  ghost predicate ListsCalls(ts: seq<ToolExecution>, xs: seq<ToolExecution>, firsts: seq<nat>) {
    && |firsts| == |xs|
    && (forall k, l :: 0 <= k < l < |firsts| ==> firsts[k] < firsts[l])
    && (forall i: nat :: i in firsts <==> i < |ts| && forall j :: 0 <= j < i ==> !SameCall(ts[j], ts[i]))
    && (forall k :: 0 <= k < |xs| ==> IsLastReport(ts, firsts[k], xs[k]))
  }

  lemma {:induction false} LastReportIsLast(ts: seq<ToolExecution>, i: nat, n: nat)
    requires i < n <= |ts|
    ensures IsLastReport(ts[..n], i, LastReport(ts[..n], ts[i]))
    decreases n
  {
    var us := ts[..n];
    assert us[i] == ts[i];
    if SameCall(us[n - 1], us[i]) {
      assert us[n - 1] == LastReport(us, us[i]);
    } else if i == n - 1 {
      NoReport(us, us[i]);
    } else {
      assert us[..n - 1] == ts[..n - 1];
      LastReportIsLast(ts, i, n - 1);
      ReportStaysLast(us, i, LastReport(us, us[i]));
    }
  }

  lemma LastReportOfAll(ts: seq<ToolExecution>, i: nat)
    requires i < |ts|
    ensures IsLastReport(ts, i, LastReport(ts, ts[i]))
  {
    assert ts[..|ts|] == ts;
    LastReportIsLast(ts, i, |ts|);
  }

  lemma ReportStaysLast(ts: seq<ToolExecution>, i: nat, d: ToolExecution)
    requires i + 1 < |ts| && !SameCall(ts[|ts| - 1], ts[i]) && IsLastReport(ts[..|ts| - 1], i, d)
    ensures IsLastReport(ts, i, d)
  {
    var us := ts[..|ts| - 1];
    var j :| i <= j < |us| && us[j] == d && (j == i || SameCall(us[j], us[i])) && forall k :: j < k < |us| ==> !SameCall(us[k], us[i]);
    assert ts[j] == d;
    forall k | j < k < |ts| ensures !SameCall(ts[k], ts[i]) {
      assert k < |us| ==> us[k] == ts[k];
    }
  }

  /** firsts are the reports among the first k that start a call, and xs the last reports of those calls. */
  ghost predicate ListsUpTo(ts: seq<ToolExecution>, k: nat, xs: seq<ToolExecution>, firsts: seq<nat>) {
    && |firsts| == |xs| && k <= |ts|
    && (forall m, l :: 0 <= m < l < |firsts| ==> firsts[m] < firsts[l])
    && (forall i: nat :: i in firsts <==> i < k && IsFirst(ts, i))
    && (forall m :: 0 <= m < |xs| ==> IsLastReport(ts, firsts[m], xs[m]))
  }

  lemma OneMoreListed(ts: seq<ToolExecution>, k: nat, xs: seq<ToolExecution>, firsts: seq<nat>, d: ToolExecution)
    requires ListsUpTo(ts, k, xs, firsts) && k < |ts| && IsFirst(ts, k) && IsLastReport(ts, k, d)
    ensures ListsUpTo(ts, k + 1, xs + [d], firsts + [k])
  {
    var more := firsts + [k];
    forall m | 0 <= m < |firsts| ensures firsts[m] < k {
      assert firsts[m] in firsts;
    }
    assert forall i: nat :: i in more <==> i in firsts || i == k;
  }

  lemma NoneMoreListed(ts: seq<ToolExecution>, k: nat, xs: seq<ToolExecution>, firsts: seq<nat>)
    requires ListsUpTo(ts, k, xs, firsts) && k < |ts| && !IsFirst(ts, k)
    ensures ListsUpTo(ts, k + 1, xs, firsts)
  {
  }

  lemma OneMoreCall(ts: seq<ToolExecution>, k: nat)
    requires k < |ts|
    ensures OnePerCall(ts, k + 1) == if IsFirst(ts, k) then OnePerCall(ts, k) + [LastReport(ts, ts[k])] else OnePerCall(ts, k)
  {
    assert OnePerCall(ts, k) + [] == OnePerCall(ts, k);
  }

  lemma NoneListed(ts: seq<ToolExecution>)
    ensures ListsUpTo(ts, 0, [], [])
  {
  }

  lemma ListedStep(ts: seq<ToolExecution>, k: nat, xs: seq<ToolExecution>, before: seq<nat>, ys: seq<ToolExecution>) returns (firsts: seq<nat>)
    requires k < |ts| && ListsUpTo(ts, k, xs, before)
    requires ys == if IsFirst(ts, k) then xs + [LastReport(ts, ts[k])] else xs
    ensures ListsUpTo(ts, k + 1, ys, firsts)
  {
    if IsFirst(ts, k) {
      LastReportOfAll(ts, k);
      OneMoreListed(ts, k, xs, before, LastReport(ts, ts[k]));
      firsts := before + [k];
    } else {
      NoneMoreListed(ts, k, xs, before);
      firsts := before;
    }
  }

  lemma {:induction false} ListedUpTo(ts: seq<ToolExecution>, k: nat) returns (firsts: seq<nat>)
    requires k <= |ts|
    ensures ListsUpTo(ts, k, OnePerCall(ts, k), firsts)
    decreases k
  {
    if k == 0 {
      NoneListed(ts);
      firsts := [];
    } else {
      var before := ListedUpTo(ts, k - 1);
      OneMoreCall(ts, k - 1);
      firsts := ListedStep(ts, k - 1, OnePerCall(ts, k - 1), before, OnePerCall(ts, k));
    }
  }

  /** What is collected from a stream lists the calls that ended. */
  lemma CollectedInOrder(events: seq<Event>) returns (firsts: seq<nat>)
    ensures ListsCalls(EndedCalls(events), Collect(events), firsts)
  {
    var ts := EndedCalls(events);
    CollectIsOnePerCall(events);
    firsts := ListedUpTo(ts, |ts|);
  }

  /** The reports are those of the events in turn. */
  lemma {:induction false} ReportsInTurn(a: seq<Event>, b: seq<Event>)
    ensures EndedCalls(a + b) == EndedCalls(a) + EndedCalls(b)
  {
    if b == [] {
      assert a + b == a && EndedCalls(a) + [] == EndedCalls(a);
    } else {
      var n := |b| - 1;
      ReportsInTurn(a, b[..n]);
      assert (a + b)[..|a + b| - 1] == a + b[..n] && (a + b)[|a + b| - 1] == b[n];
      var last := if b[n].ToolCallEnded? && b[n].ended.Some? then [b[n].ended.value] else [];
      assert EndedCalls(b) == EndedCalls(b[..n]) + last && EndedCalls(a + b) == EndedCalls(a + b[..n]) + last;
      assert (EndedCalls(a) + EndedCalls(b[..n])) + last == EndedCalls(a) + (EndedCalls(b[..n]) + last);
    }
  }

  lemma ReportOfOne(e: Event)
    ensures EndedCalls([e]) == match e case ToolCallEnded(Some(t)) => [t] case _ => []
  {
    assert [e][..0] == [] && EndedCalls([]) == [];
  }

  // ----- the outcome of a stream -----

  function Text(events: seq<Event>): string {
    if events == [] then ""
    else
      var e := events[|events| - 1];
      Text(events[..|events| - 1]) + if e.Content? && e.delta.Some? then e.delta.value else ""
  }

  /** The text is the deltas of the content events in turn. */
  lemma {:induction false} TextInTurn(a: seq<Event>, b: seq<Event>)
    ensures Text(a + b) == Text(a) + Text(b)
  {
    if b == [] {
      assert a + b == a && Text(a) + "" == Text(a);
    } else {
      var n := |b| - 1;
      TextInTurn(a, b[..n]);
      assert (a + b)[..|a + b| - 1] == a + b[..n] && (a + b)[|a + b| - 1] == b[n];
      var last := if b[n].Content? && b[n].delta.Some? then b[n].delta.value else "";
      assert Text(b) == Text(b[..n]) + last && Text(a + b) == Text(a + b[..n]) + last;
      assert (Text(a) + Text(b[..n])) + last == Text(a) + (Text(b[..n]) + last);
    }
  }

  lemma TextOfOne(e: Event)
    ensures Text([e]) == match e case Content(Some(delta)) => delta case _ => ""
  {
    assert [e][..0] == [] && Text([]) == "";
  }

  predicate IsTerminal(e: Event) {
    e.RunError? || e.RunCompleted?
  }

  /** The number of events up to and with the last terminal one, 0 if there is none. */
  function LastTerminal(events: seq<Event>): nat
    ensures LastTerminal(events) <= |events|
  {
    if events == [] then 0
    else if IsTerminal(events[|events| - 1]) then |events|
    else LastTerminal(events[..|events| - 1])
  }

  /** The tools of a completed run: those of its event, else every call collected in the whole stream if
      one had been collected by then (the output refers to the list that is still being filled), else none. */
  function CompletedTools(events: seq<Event>, n: nat): seq<ToolExecution>
    requires 0 < n <= |events| && events[n - 1].RunCompleted?
  {
    var own := events[n - 1].tools;
    if own.Some? && own.value != [] then own.value
    else if Collect(events[..n - 1]) != [] then Collect(events)
    else []
  }

  function Expected(events: seq<Event>): Outcome {
    var n := LastTerminal(events);
    if n == 0 then
      if Text(events) != "" then Output(Text(events), false, Collect(events)) else NoTerminalEvent
    else if n <= |events| && events[n - 1].RunError? then Output(events[n - 1].message, true, [])
    else if n <= |events| && events[n - 1].RunCompleted? then
      Output(events[n - 1].content, false, CompletedTools(events, n))
    else NoTerminalEvent
  }

  /** A list that several places refer to. */
  class ToolList {
    var items: seq<ToolExecution>

    constructor ()
      ensures items == []
    {
      items := [];
    }

    method Add(t: ToolExecution)
      modifies this
      ensures items == Reconcile(old(items), t)
    {
      var i := 0;
      IndexOfIsFirst(items, t);
      while i < |items| && !SameCall(items[i], t)
        invariant i <= |items| && forall j :: 0 <= j < i ==> !SameCall(items[j], t)
      {
        i := i + 1;
      }
      if i < |items| {
        items := items[i := t];
      } else {
        items := items + [t];
      }
    }
  }

  /** The tools field of an output under construction: a value, or the shared list itself. */
  datatype Tools = Given(value: seq<ToolExecution>) | Shared(list: ToolList)

  datatype Final = Final(content: string, failed: bool, tools: Tools)

  lemma OneMoreEvent(events: seq<Event>, i: nat)
    requires i < |events|
    ensures var e, now, was := events[i], events[..i + 1], events[..i];
            && now[..i] == was && now[i] == e
            && LastTerminal(now) == (if IsTerminal(e) then i + 1 else LastTerminal(was))
            && Text(now) == Text(was) + (if e.Content? && e.delta.Some? then e.delta.value else "")
            && Collect(now) == (if e.ToolCallEnded? && e.ended.Some? then Reconcile(Collect(was), e.ended.value) else Collect(was))
  {
    assert events[..i + 1][..i] == events[..i];
  }

  /** What a terminal event makes of the run; a completion without tools refers to the list if it holds any by then. */
  ghost predicate MadeBy(e: Event, before: seq<ToolExecution>, f: Final, list: ToolList) {
    match e
    case RunError(message) => f == Final(message, true, Given([]))
    case RunCompleted(content, tools) =>
      f == Final(content, false, if tools.Some? && tools.value != [] then Given(tools.value) else if before != [] then Shared(list) else Given([]))
    case _ => false
  }

  /** The state of the loop after some of the events, as the specification sees it. */
  ghost predicate LoopState(events: seq<Event>, final: Option<Final>, text: string, items: seq<ToolExecution>, list: ToolList) {
    var n := LastTerminal(events);
    && text == Text(events) && items == Collect(events) && (final.None? <==> n == 0)
    && (final.Some? ==> MadeBy(events[n - 1], Collect(events[..n - 1]), final.value, list))
  }

  lemma QuietStep(events: seq<Event>, i: nat, final: Option<Final>, text: string, items: seq<ToolExecution>, list: ToolList,
                  text': string, items': seq<ToolExecution>)
    requires i < |events| && !IsTerminal(events[i]) && LoopState(events[..i], final, text, items, list)
    requires text' == Text(events[..i + 1]) && items' == Collect(events[..i + 1])
    ensures LoopState(events[..i + 1], final, text', items', list)
  {
    OneMoreEvent(events, i);
    var n := LastTerminal(events[..i]);
    if n > 0 {
      assert events[..i + 1][..n - 1] == events[..i][..n - 1] && events[..i + 1][n - 1] == events[..i][n - 1];
    }
  }

  lemma TerminalStep(events: seq<Event>, i: nat, final: Option<Final>, text: string, items: seq<ToolExecution>, list: ToolList, f: Final)
    requires i < |events| && LoopState(events[..i], final, text, items, list) && MadeBy(events[i], items, f, list)
    ensures LoopState(events[..i + 1], Some(f), text, items, list)
  {
    OneMoreEvent(events, i);
    assert Text(events[..i]) + "" == Text(events[..i]);
  }

  lemma LoopDone(events: seq<Event>, final: Option<Final>, text: string, items: seq<ToolExecution>, list: ToolList)
    requires LoopState(events, final, text, items, list)
    ensures final.None? ==> Expected(events) == if text != "" then Output(text, false, items) else NoTerminalEvent
    ensures final.Some? ==>
              Expected(events) == Output(final.value.content, final.value.failed,
                                         if final.value.tools.Given? then final.value.tools.value else items)
    ensures final.Some? && final.value.tools.Shared? ==> final.value.tools.list == list
  {
    LastTerminalIsTerminal(events);
  }

  lemma {:induction false} LastTerminalIsTerminal(events: seq<Event>)
    ensures LastTerminal(events) > 0 ==> IsTerminal(events[LastTerminal(events) - 1])
  {
    if events != [] {
      LastTerminalIsTerminal(events[..|events| - 1]);
    }
  }

  /** The i-th event ends the run, and no later one does. */
  ghost predicate EndsRun(events: seq<Event>, i: nat) {
    && i < |events| && (events[i].RunError? || events[i].RunCompleted?)
    && forall j :: i < j < |events| ==> !events[j].RunError? && !events[j].RunCompleted?
  }

  lemma {:induction false} LastTerminalEnds(events: seq<Event>, i: nat)
    requires EndsRun(events, i)
    ensures LastTerminal(events) == i + 1
  {
    var n := |events| - 1;
    if i < n {
      assert forall j :: i < j < n ==> events[..n][j] == events[j];
      LastTerminalEnds(events[..n], i);
    }
  }

  lemma {:induction false} NoneEnds(events: seq<Event>)
    ensures LastTerminal(events) == 0 <==> forall i: nat :: !EndsRun(events, i)
  {
    if LastTerminal(events) > 0 {
      LastTerminalIsTerminal(events);
      NothingAfterTerminal(events);
      assert EndsRun(events, LastTerminal(events) - 1);
    } else {
      forall i: nat ensures !EndsRun(events, i) {
        if EndsRun(events, i) {
          LastTerminalEnds(events, i);
        }
      }
    }
  }

  lemma {:induction false} NothingAfterTerminal(events: seq<Event>)
    ensures forall j :: LastTerminal(events) <= j < |events| ==> !IsTerminal(events[j])
  {
    if events != [] && !IsTerminal(events[|events| - 1]) {
      NothingAfterTerminal(events[..|events| - 1]);
    }
  }

  ghost predicate AllCollected(events: seq<Event>, tools: seq<ToolExecution>) {
    exists firsts :: ListsCalls(EndedCalls(events), tools, firsts)
  }

  ghost predicate IsOutput(outcome: Outcome, content: string, failed: bool) {
    outcome.Output? && outcome.content == content && outcome.failed == failed
  }

  /** A completion makes a run of its content, with its own tools, or else with every call collected if any had ended
      by then. */
  ghost predicate Completes(events: seq<Event>, i: nat, outcome: Outcome)
    requires i < |events| && events[i].RunCompleted?
  {
    var own := events[i].tools;
    && IsOutput(outcome, events[i].content, false)
    && if own.Some? && |own.value| > 0 then outcome.tools == own.value
       else if |EndedCalls(events[..i])| == 0 then outcome.tools == []
       else AllCollected(events, outcome.tools)
  }

  /** An error makes a failed run of its message, without tools. */
  ghost predicate Fails(events: seq<Event>, i: nat, outcome: Outcome)
    requires i < |events| && events[i].RunError?
  {
    IsOutput(outcome, events[i].message, true) && outcome.tools == []
  }

  /** Without an event that ends it, the run has the text that came and every call; without text it raises. */
  ghost predicate RunsOut(events: seq<Event>, outcome: Outcome) {
    if |Text(events)| == 0 then outcome == NoTerminalEvent
    else IsOutput(outcome, Text(events), false) && AllCollected(events, outcome.tools)
  }

  /** The outcome, by the event that ends the run, if there is one. */
  ghost predicate ComesOut(events: seq<Event>, outcome: Outcome) {
    && (forall i: nat :: EndsRun(events, i) ==> if events[i].RunError? then Fails(events, i, outcome) else Completes(events, i, outcome))
    && ((forall i: nat :: !EndsRun(events, i)) ==> RunsOut(events, outcome))
  }

  lemma CollectIsAll(events: seq<Event>)
    ensures AllCollected(events, Collect(events))
  {
    var firsts := CollectedInOrder(events);
  }

  lemma EndedComesOut(events: seq<Event>, i: nat)
    requires EndsRun(events, i)
    ensures if events[i].RunError? then Fails(events, i, Expected(events)) else Completes(events, i, Expected(events))
  {
    LastTerminalEnds(events, i);
    CollectedIfEnded(events[..i]);
    CollectIsAll(events);
  }

  lemma ExpectedComesOut(events: seq<Event>)
    ensures ComesOut(events, Expected(events))
  {
    forall i: nat | EndsRun(events, i)
      ensures if events[i].RunError? then Fails(events, i, Expected(events)) else Completes(events, i, Expected(events))
    {
      EndedComesOut(events, i);
    }
    if forall i: nat :: !EndsRun(events, i) {
      NoneEnds(events);
      CollectIsAll(events);
    }
  }

  /** A run fails exactly when it is an error that ends it. */
  lemma FailsExactlyWhen(events: seq<Event>, outcome: Outcome)
    requires ComesOut(events, outcome)
    ensures outcome.Output? && outcome.failed <==> exists i: nat :: EndsRun(events, i) && events[i].RunError?
  {
  }

  lemma ComesOutIfExpected(events: seq<Event>, outcome: Outcome)
    requires outcome == Expected(events)
    ensures ComesOut(events, outcome)
    ensures outcome.Output? && outcome.failed <==> exists i: nat :: EndsRun(events, i) && events[i].RunError?
  {
    ExpectedComesOut(events);
    FailsExactlyWhen(events, outcome);
  }

  method RunEvents(events: seq<Event>) returns (outcome: Outcome)
    ensures outcome == Expected(events)
    ensures ComesOut(events, outcome)
    ensures outcome.Output? && outcome.failed <==> exists i: nat :: EndsRun(events, i) && events[i].RunError?
  {
    var final: Option<Final> := None;
    var text := "";
    var collected := new ToolList();
    for i := 0 to |events|
      invariant fresh(collected)
      invariant LoopState(events[..i], final, text, collected.items, collected)
    {
      var e := events[i];
      OneMoreEvent(events, i);
      ghost var before, soFar := collected.items, text;
      match e
      case Content(delta) =>
        if delta.Some? {
          text := text + delta.value;
        }
        QuietStep(events, i, final, soFar, before, collected, text, before);
      case ToolCallEnded(ended) =>
        if ended.Some? {
          collected.Add(ended.value);
        }
        QuietStep(events, i, final, text, before, collected, text, collected.items);
      case RunError(message) =>
        ghost var was := final;
        final := Some(Final(message, true, Given([])));
        TerminalStep(events, i, was, text, before, collected, final.value);
      case RunCompleted(content, tools) =>
        ghost var was := final;
        var own := if tools.Some? && tools.value != [] then Given(tools.value)
        else if collected.items != [] then Shared(collected) else Given([]);
        final := Some(Final(content, false, own));
        TerminalStep(events, i, was, text, before, collected, final.value);
      case _ =>
        QuietStep(events, i, final, text, before, collected, text, before);
    }
    assert events[..|events|] == events;
    LoopDone(events, final, text, collected.items, collected);
    if final.None? {
      outcome := if text != "" then Output(text, false, collected.items) else NoTerminalEvent;
    } else {
      var tools := match final.value.tools
        case Given(value) => value
        case Shared(list) => list.items;
      outcome := Output(final.value.content, final.value.failed, tools);
    }
    ComesOutIfExpected(events, outcome);
  }

  /** The fallback raises exactly when no terminal event came and no text did; a stream with text and
      without a terminal event is a completed run with that text and all its calls. */
  lemma FallbackRaisesExactlyWhen(events: seq<Event>)
    ensures Expected(events) == NoTerminalEvent <==>
            (forall e :: e in events ==> !IsTerminal(e)) && Text(events) == ""
  {
    LastTerminalIsTerminal(events);
    NoTerminalAtAll(events);
  }

  lemma {:induction false} NoTerminalAtAll(events: seq<Event>)
    ensures LastTerminal(events) == 0 <==> forall e :: e in events ==> !IsTerminal(e)
  {
    if events != [] {
      NoTerminalAtAll(events[..|events| - 1]);
      var e := events[|events| - 1];
      assert forall d :: d in events <==> d in events[..|events| - 1] || d == e;
    }
  }

  /** A stream whose last terminal event is a completion without tools of its own reports every call it
      collected, provided the list was not empty when that event came. */
  lemma CompletionReportsCollected(events: seq<Event>)
    requires LastTerminal(events) > 0
    requires var e := events[LastTerminal(events) - 1]; e.RunCompleted? && (e.tools.None? || e.tools.value == [])
    ensures Expected(events).Output? && !Expected(events).failed
    ensures Expected(events).tools ==
            if EndedCalls(events[..LastTerminal(events) - 1]) == [] then []
            else OnePerCall(EndedCalls(events), |EndedCalls(events)|)
  {
    CollectIsOnePerCall(events);
    var before := events[..LastTerminal(events) - 1];
    CollectedIfEnded(before);
  }

  lemma {:induction false} CollectedIfEnded(events: seq<Event>)
    ensures Collect(events) == [] <==> EndedCalls(events) == []
  {
    if events != [] {
      CollectedIfEnded(events[..|events| - 1]);
    }
  }
}
