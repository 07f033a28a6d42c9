/**
 A run served over server-sent events: the trace of `RunTheorems` is the source of
 `SseDelivery`. How an event's data is rendered does not matter here, only that its type
 and number are its own.
 */
module RunOverSse {
  import opened RunEvents
  import Log = RunLog
  import Spec = RunSpec
  import Runs = RunTheorems
  import CB = CircuitBreaker
  import Sse
  import Delivery = SseDelivery
  import Outcomes = SseOutcomes

  function KindOf(b: Log.Body): Kind {
    match b
    case RunStarted(_, _, _, _, _) => RunStarted
    case MessageStarted => MessageStarted
    case MessageDelta(_) => MessageDelta
    case MessageReasoning => MessageReasoning
    case SummaryDelta(_) => SummaryDelta
    case SummaryCompleted(_, _) => SummaryCompleted
    case MessageCompleted(_) => MessageCompleted
    case ToolRequested(_) => ToolRequested
    case WaitingToolDispatch(_, _, _) => WaitingToolDispatch
    case WaitingToolApproval(_, _) => WaitingToolApproval
    case RunFailed(_, _) => RunFailed
    case RunCancelled(_) => RunCancelled
    case RunCompleted(_, _, _) => RunCompleted
  }

  /** `events` are the trace's, rendered. */
  ghost predicate Renders(trace: seq<Log.Event>, events: seq<RunEvent>) {
    && |events| == |trace|
    && forall i :: 0 <= i < |trace| ==>
         events[i].kind == KindOf(trace[i].body) && events[i].sequence == trace[i].sequence
  }

  /** The executor and the delivery loop agree on which events end a run. */
  lemma TerminalKinds(trace: seq<Log.Event>, events: seq<RunEvent>, i: nat)
    requires Renders(trace, events) && i < |trace|
    ensures Delivery.IsTerminalRunEvent(events[i]) <==> Log.IsTerminal(trace[i].body)
  {
  }

  /** The consumer was conveyed a whole run: events 1 to n, the last of which, and no other, is terminal. */
  ghost predicate WholeRun(messages: seq<Sse.Message>, events: seq<RunEvent>) {
    && Sse.ConveyAll(messages, events) && events != []
    && forall i :: 0 <= i < |events| ==>
         && events[i].sequence == i + 1
         && (Delivery.IsTerminalRunEvent(events[i]) <==> i == |events| - 1)
  }

  /** The trace of a run that did not escape, rendered, is numbered and ends in its only terminal event. */
  lemma RenderedRun(cfg: Spec.Config, script: Spec.Script, breaker: seq<CB.Call>, events: seq<RunEvent>)
    requires !Runs.Run(cfg, script, breaker).escaped && Renders(Runs.Trace(cfg, script, breaker), events)
    ensures events != [] && Delivery.AnyTerminal(events)
    ensures forall i :: 0 <= i < |events| ==>
              && events[i].sequence == i + 1
              && (Delivery.IsTerminalRunEvent(events[i]) <==> i == |events| - 1)
  {
    hide Runs.Run, Runs.Trace, Log.Opens, Log.StartsOnce, Log.CompletesTogether, Log.SummaryTextIsSettled,
      Log.OneReasoningPerMessage, Log.CompletesWithDeltas, Log.KeptCountsItsBlock, Delivery.IsTerminalRunEvent,
      Log.IsTerminal;
    var trace := Runs.Trace(cfg, script, breaker);
    Runs.EveryTraceIsFinished(cfg, script, breaker);
    forall i: nat | i < |trace| ensures Delivery.IsTerminalRunEvent(events[i]) <==> i == |trace| - 1 {
      TerminalKinds(trace, events, i);
    }
    assert Delivery.IsTerminalRunEvent(events[|events| - 1]);
  }

  /**
   A run that did not escape, delivered by a stream that closed of itself and was read to its end:
   the consumer was conveyed the whole run, and its close latency was reported once.
   */
  lemma ServedRunIsComplete(
    cfg: Spec.Config, script: Spec.Script, breaker: seq<CB.Call>,
    o: Delivery.Options, events: seq<RunEvent>, steps: seq<Delivery.Step>)
    requires !Runs.Run(cfg, script, breaker).escaped && Renders(Runs.Trace(cfg, script, breaker), events)
    requires var s := Delivery.Run(o, Delivery.Source(events, false), steps);
      !s.cancelled && s.phase.Settled? && s.stream.error.None? && s.stream.status.Closed?
    ensures var s := Delivery.Run(o, Delivery.Source(events, false), steps);
      WholeRun(Sse.Read(Sse.Print(s.stream.delivered)).dispatched, events) && |s.seen.latencies| == 1
  {
    hide Runs.Run, Runs.Trace, Delivery.Run, Sse.Read, Sse.Print, Sse.EventsOf, Sse.ConveyAll, Renders,
      Delivery.AnyTerminal, Delivery.IsTerminalRunEvent;
    var source := Delivery.Source(events, false);
    RenderedRun(cfg, script, breaker, events);
    Delivery.ClosedStreamsAreComplete(o, source, steps);
    Delivery.TerminalLatencyIsReported(o, source, steps);
    Sse.ReaderUndoesPrinter(Delivery.Run(o, source, steps).stream.delivered);
  }

  /**
   And it can be: whatever has happened short of a cancel and of a wait's timeout, some further
   steps deliver the whole run to its consumer, if its frames are within the limit.
   */
  lemma EveryRunCanBeServed(
    cfg: Spec.Config, script: Spec.Script, breaker: seq<CB.Call>,
    o: Delivery.Options, events: seq<RunEvent>, steps: seq<Delivery.Step>) returns (more: seq<Delivery.Step>)
    requires !Runs.Run(cfg, script, breaker).escaped && Renders(Runs.Trace(cfg, script, breaker), events)
    requires Outcomes.AllFit(o, Delivery.Source(events, false)) && Outcomes.NoTimeout(steps)
    requires !Delivery.Run(o, Delivery.Source(events, false), steps).cancelled
    ensures var s := Delivery.Run(o, Delivery.Source(events, false), steps + more);
      s.stream.status.Closed? && WholeRun(Sse.Read(Sse.Print(s.stream.delivered)).dispatched, events)
  {
    hide Runs.Run, Runs.Trace, Delivery.Run, Sse.Read, Sse.Print, Sse.EventsOf, Sse.ConveyAll, Renders,
      Delivery.AnyTerminal, Delivery.IsTerminalRunEvent, Outcomes.AllFit, Outcomes.NoTimeout;
    var source := Delivery.Source(events, false);
    RenderedRun(cfg, script, breaker, events);
    more := Outcomes.EveryStreamCanFinish(o, source, steps);
    Sse.ReaderUndoesPrinter(Delivery.Run(o, source, steps + more).stream.delivered);
  }
}
