/**
 The delivery loop of packages/ai-runtime/src/sse.ts (`createSseStream`) over a readable
 stream of the WHATWG Streams Standard, cut at its awaits: every step below is what happens
 from one await to the next, and any sequence of steps is a possible interleaving (a step
 that is not possible in a state leaves the state as it is).
 */
module SseDelivery {
  import opened Wrappers
  import opened Text
  import opened Json
  import opened RunEvents
  import opened Sse

  // ---------- Sizes ----------

  /** The bytes `TextEncoder` needs for one character. */
  function CharBytes(c: char): nat {
    if c as int < 0x80 then 1 else if c as int < 0x800 then 2 else if c as int < 0x10000 then 3 else 4
  }

  function Bytes(s: string): nat {
    if s == "" then 0 else Bytes(s[..|s| - 1]) + CharBytes(s[|s| - 1])
  }

  function FrameBytes(b: Block): nat {
    Bytes(PrintBlock(b))
  }

  function QueueBytes(queue: seq<Block>): nat {
    if queue == [] then 0 else QueueBytes(queue[..|queue| - 1]) + FrameBytes(queue[|queue| - 1])
  }

  // ---------- Inputs ----------

  datatype Options = Options(heartbeats: bool, maxBufferedBytes: Option<int>, maxEventBytes: Option<int>,
      retryMs: Option<int>) {
    function BufferLimit(): (n: nat)
      ensures n >= 1
    {
      Max(1, maxBufferedBytes.GetOr(256_000))
    }

    function EventLimit(): (n: nat)
      ensures n >= 1
    {
      Max(1, maxEventBytes.GetOr(1_000_000))
    }
  }

  /** What the iterator answers, call after call: these events, and then its end or an exception. */
  datatype Source = Source(events: seq<RunEvent>, throws: bool)

  predicate IsTerminalRunEvent(e: RunEvent) {
    e.kind.RunCancelled? || e.kind.RunCompleted? || e.kind.RunFailed? || e.kind.WaitingToolApproval?
    || e.kind.WaitingToolDispatch?
  }

  datatype Step =
    | SourceReady(at: int)       // the outstanding next() settles
    | HeartbeatFires
    | CapacityTimeout            // the timer of waitForCapacity
    | Continue(now: int)         // the loop goes on after an await that has settled
    | ConsumerReads
    | Pull                       // the stream asks for more
    | Cancel                     // the consumer cancels
    | ReturnSettles(ok: bool)    // iterator.return() settles after a cancel

  // ---------- State ----------

  datatype Fate = Undecided | Resumed | TimedOut

  datatype Phase =
    | Awaiting                             // for the source, or a heartbeat
    | Waiting(frame: Block, fate: Fate)    // in waitForCapacity
    | Offered(offered: Block)              // enqueueBounded is done with the frame
    | Settled                              // start has settled

  datatype Status = Readable | Closing | Closed | Errored

  datatype DeliveryError = EventTooLarge | SlowConsumer | SourceFailed

  /** The stream's controller, and (for the proof) everything ever enqueued and ever delivered. */
  datatype Stream = Stream(status: Status, queue: seq<Block>, waitingReads: nat, error: Option<DeliveryError>,
                           enqueued: seq<Block>, delivered: seq<Block>)

  /** How often each observer callback was called, and with what. */
  datatype Observed = Observed(opens: nat, closes: nat, drops: nat, heartbeatFailures: nat,
                               buffered: seq<nat>, latencies: seq<nat>)

  datatype State = State(phase: Phase, cancelled: bool, closeObserved: bool, terminalEnqueuedAt: Option<int>,
                         asked: nat, answered: nat, returning: bool, stream: Stream, seen: Observed)

  function DesiredSize(o: Options, st: Stream): int
    requires !st.status.Errored?
  {
    if st.status.Closed? then 0 else o.BufferLimit() - QueueBytes(st.queue)
  }

  // ---------- The pieces of the loop ----------

  function ObserveClose(s: State): State {
    if s.closeObserved then s else s.(closeObserved := true, seen := s.seen.(closes := s.seen.closes + 1))
  }

  function Settle(s: State): State {
    ObserveClose(s.(phase := Settled))
  }

  /** A waiting read takes the frame; otherwise it is queued. */
  function Enqueued(st: Stream, b: Block): Stream {
    if st.waitingReads > 0
    then st.(waitingReads := st.waitingReads - 1, enqueued := st.enqueued + [b], delivered := st.delivered + [b])
    else st.(queue := st.queue + [b], enqueued := st.enqueued + [b])
  }

  /** `controller.error`: what is queued is lost. */
  function Erred(st: Stream, error: DeliveryError): Stream {
    st.(status := Errored, queue := [], waitingReads := 0, error := Some(error))
  }

  /** `controller.close`: what is queued may still be read. */
  function ClosedAfterUse(st: Stream): Stream {
    if st.queue == [] then st.(status := Closed, waitingReads := 0) else st.(status := Closing)
  }

  function CancelledStream(st: Stream): Stream {
    st.(status := Closed, queue := [], waitingReads := 0)
  }

  function ReadFrom(st: Stream): Stream {
    if st.queue != [] then
      st.(queue := st.queue[1..], delivered := st.delivered + [st.queue[0]],
          status := if st.status.Closing? && |st.queue| == 1 then Closed else st.status)
    else if st.status.Readable? then st.(waitingReads := st.waitingReads + 1)
    else st
  }

  /** The second half of enqueueBounded. */
  function Enqueue(o: Options, s: State, b: Block): State {
    var st := if s.cancelled then s.stream else Enqueued(s.stream, b);
    var seen := if st.status.Errored? then s.seen
      else s.seen.(buffered := s.seen.buffered + [Max(0, o.BufferLimit() - DesiredSize(o, st))]);
    s.(phase := Offered(b), stream := st, seen := seen)
  }

  /** enqueueBounded: wait for capacity first if there is none. */
  function Offer(o: Options, s: State, b: Block): State {
    if s.stream.status.Errored? || DesiredSize(o, s.stream) <= 0 then s.(phase := Waiting(b, Undecided))
    else Enqueue(o, s, b)
  }

  function Fail(s: State, error: DeliveryError): State {
    var seen := if error.SlowConsumer? then s.seen.(drops := s.seen.drops + 1) else s.seen;
    Settle(s.(seen := seen, stream := if s.cancelled then s.stream else Erred(s.stream, error)))
  }

  /** The loop ends because the source did, or because the stream was cancelled. */
  function LeaveLoop(s: State, now: int): State {
    if s.cancelled then Settle(s)
    else
      var seen := if s.terminalEnqueuedAt.Some?
        then s.seen.(latencies := s.seen.latencies + [Max(0, now - s.terminalEnqueuedAt.value)]) else s.seen;
      Settle(s.(stream := ClosedAfterUse(s.stream), seen := seen))
  }

  function OnSource(o: Options, source: Source, s: State, now: int): State {
    var s1 := s.(answered := s.answered + 1);
    if s.answered < |source.events| then
      var b := Event(source.events[s.answered]);
      if FrameBytes(b) > o.EventLimit() then Fail(s1, EventTooLarge) else Offer(o, s1, b)
    else if source.throws then Fail(s1, SourceFailed)
    else LeaveLoop(s1, now)
  }

  /** The loop after enqueueBounded: the next event is asked for, unless this was a heartbeat. */
  function AfterOffer(s: State, b: Block, now: int): State {
    var s1 := if b.Heartbeat? then s else s.(asked := s.asked + 1);
    var s2 := if b.Event? && IsTerminalRunEvent(b.event) then s1.(terminalEnqueuedAt := Some(now)) else s1;
    if s.cancelled then LeaveLoop(s2, now) else s2.(phase := Awaiting)
  }

  function OnContinue(o: Options, s: State, now: int): State {
    match s.phase
    case Offered(b) => AfterOffer(s, b, now)
    case Waiting(b, Resumed) => Enqueue(o, s, b)
    case Waiting(b, TimedOut) =>
      Fail(if b.Heartbeat? then s.(seen := s.seen.(heartbeatFailures := s.seen.heartbeatFailures + 1)) else s,
          SlowConsumer)
    case _ => s
  }

  function Resume(s: State): State {
    if s.phase.Waiting? && s.phase.fate.Undecided? then s.(phase := Waiting(s.phase.frame, Resumed)) else s
  }

  /** Whether the stream may call `pull`, its start aside. */
  predicate ShouldCallPull(o: Options, st: Stream) {
    st.status.Readable? && (st.waitingReads > 0 || DesiredSize(o, st) > 0)
  }

  function OnCancel(s: State): State {
    if !s.stream.status.Readable? && !s.stream.status.Closing? then s
    else Resume(s).(cancelled := true, returning := true, stream := CancelledStream(s.stream))
  }

  function Next(o: Options, source: Source, s: State, step: Step): State {
    match step
    case SourceReady(at) => if s.phase.Awaiting? then OnSource(o, source, s, at) else s
    case HeartbeatFires => if o.heartbeats && s.phase.Awaiting? then Offer(o, s, Heartbeat) else s
    case CapacityTimeout =>
      if s.phase.Waiting? && s.phase.fate.Undecided? then s.(phase := Waiting(s.phase.frame, TimedOut)) else s
    case Continue(now) => OnContinue(o, s, now)
    case ConsumerReads => s.(stream := ReadFrom(s.stream))
    case Pull => if ShouldCallPull(o, s.stream) then Resume(s) else s
    case Cancel => OnCancel(s)
    case ReturnSettles(ok) =>
      if !s.returning then s else if ok then ObserveClose(s.(returning := false)) else s.(returning := false)
  }

  const UNREAD := Stream(Readable, [], 0, None, [], [])

  /** The constructor runs start up to its first await. */
  function Begin(o: Options): State {
    var s := State(Awaiting, false, false, None, 1, 0, false, UNREAD, Observed(1, 0, 0, 0, [], []));
    if o.retryMs.None? then s else Offer(o, s.(asked := 0), Retry(Max(0, o.retryMs.value)))
  }

  function RunFrom(o: Options, source: Source, s: State, steps: seq<Step>): State {
    if steps == [] then s
    else Next(o, source, RunFrom(o, source, s, steps[..|steps| - 1]), steps[|steps| - 1])
  }

  function Run(o: Options, source: Source, steps: seq<Step>): State {
    RunFrom(o, source, Begin(o), steps)
  }

  // ---------- The invariant ----------

  lemma {:induction false} EventsOfConcat(a: seq<Block>, b: seq<Block>)
    ensures EventsOf(a + b) == EventsOf(a) + EventsOf(b)
  {
    if a == [] {
      assert a + b == b;
    } else {
      hide PublicRunEvent;
      var head := if a[0].Event? then [a[0].event] else [];
      assert (a + b)[1..] == a[1..] + b && (a + b)[0] == a[0];
      EventsOfConcat(a[1..], b);
      assert EventsOf(a + b) == head + (EventsOf(a[1..]) + EventsOf(b));
      assert head + (EventsOf(a[1..]) + EventsOf(b)) == (head + EventsOf(a[1..])) + EventsOf(b);
    }
  }

  lemma EventsOfOne(a: seq<Block>, b: Block)
    ensures EventsOf(a + [b]) == EventsOf(a) + (if b.Event? then [b.event] else [])
  {
    EventsOfConcat(a, [b]);
    assert [b][1..] == [];
  }

  /** What was enqueued is the source's events, in order, none lost and none repeated. */
  ghost predicate InOrder(source: Source, s: State) {
    var sent := EventsOf(s.stream.enqueued);
    && |sent| <= |source.events| && sent == source.events[..|sent|]
    && |sent| <= s.answered <= |source.events| + (if s.phase.Settled? then 1 else 0)
    && (!s.cancelled && !s.phase.Settled? ==>
          |sent| + (if s.phase.Waiting? && s.phase.frame.Event? then 1 else 0) == s.answered)
    && (s.phase.Waiting? && s.phase.frame.Event? && !s.cancelled ==>
          |sent| < |source.events| && s.phase.frame.event == source.events[|sent|])
  }

  /** Never two calls of next() at once. */
  ghost predicate OneOutstanding(s: State) {
    && s.answered <= s.asked <= s.answered + 1
    && (s.phase.Awaiting? ==> s.asked == s.answered + 1)
    && (s.phase.Waiting? ==> s.asked == s.answered + if s.phase.frame.Heartbeat? then 1 else 0)
    && (s.phase.Offered? ==> s.asked == s.answered + if s.phase.offered.Heartbeat? then 1 else 0)
  }

  /** The consumer gets what was enqueued, from the front; the queue is what it has yet to get. */
  ghost predicate Conserved(s: State) {
    var st := s.stream;
    && st.delivered <= st.enqueued
    && (st.status.Readable? || st.status.Closing? ==> st.delivered + st.queue == st.enqueued)
    && (!st.status.Readable? && !st.status.Closing? ==> st.queue == [])
    && (st.waitingReads > 0 ==> st.queue == [] && st.status.Readable?)
    && (st.status.Closing? ==> st.queue != [])
    && (st.status.Closed? && !s.cancelled ==> st.delivered == st.enqueued)
  }

  /** All but the last queued frame are within the limit. */
  ghost predicate QueueBounded(o: Options, s: State) {
    && (s.stream.queue != [] ==> QueueBytes(s.stream.queue[..|s.stream.queue| - 1]) < o.BufferLimit())
    && (s.phase.Waiting? && s.phase.fate.Resumed? && !s.cancelled ==> QueueBytes(s.stream.queue) < o.BufferLimit())
  }

  ghost predicate Lifecycle(s: State) {
    var st := s.stream;
    && (!s.cancelled && !s.phase.Settled? ==> st.status.Readable?)
    && (s.cancelled ==> st.status.Closed?)
    && (st.status.Readable? ==> !s.phase.Settled?)
    && (st.status.Errored? <==> st.error.Some?)
  }

  ghost predicate CallbacksFit(s: State) {
    && s.seen.opens == 1
    && s.seen.closes == (if s.closeObserved then 1 else 0)
    && (s.phase.Settled? ==> s.closeObserved)
    && s.seen.drops <= 1 && (s.seen.drops == 1 ==> s.phase.Settled?)
    && s.seen.heartbeatFailures <= s.seen.drops
    && (!s.cancelled ==> (s.seen.drops == 1 <==> s.stream.error == Some(SlowConsumer)))
  }

  /** A stream that was closed rather than cancelled or errored has enqueued its whole source. */
  ghost predicate ClosedAtEnd(source: Source, s: State) {
    !s.cancelled && (s.stream.status.Closing? || s.stream.status.Closed?) ==>
      !source.throws && EventsOf(s.stream.enqueued) == source.events
  }

  ghost predicate FramesFit(o: Options, s: State) {
    && (forall i :: 0 <= i < |s.stream.enqueued| && s.stream.enqueued[i].Event? ==>
          FrameBytes(s.stream.enqueued[i]) <= o.EventLimit())
    && (s.phase.Waiting? && s.phase.frame.Event? ==> FrameBytes(s.phase.frame) <= o.EventLimit())
  }

  /** The retry hint comes first and only once. */
  ghost predicate RetryFirst(o: Options, s: State) {
    && (forall i :: 0 <= i < |s.stream.enqueued| && s.stream.enqueued[i].Retry? ==> i == 0)
    && (o.retryMs.Some? ==> s.stream.enqueued != [] && s.stream.enqueued[0] == Retry(Max(0, o.retryMs.value)))
    && (s.phase.Waiting? ==> !s.phase.frame.Retry?)
    && (o.retryMs.None? ==> forall i :: 0 <= i < |s.stream.enqueued| ==> !s.stream.enqueued[i].Retry?)
  }

  ghost predicate Valid(o: Options, source: Source, s: State) {
    && InOrder(source, s) && OneOutstanding(s) && Conserved(s) && QueueBounded(o, s) && Lifecycle(s)
    && CallbacksFit(s) && ClosedAtEnd(source, s) && FramesFit(o, s) && RetryFirst(o, s)
  }

  // ---------- Every step keeps it ----------

  lemma {:induction false} QueueBytesSplit(a: seq<Block>, b: seq<Block>)
    ensures QueueBytes(a + b) == QueueBytes(a) + QueueBytes(b)
  {
    if b == [] {
      assert a + b == a;
    } else {
      assert (a + b)[..|a + b| - 1] == a + b[..|b| - 1];
      QueueBytesSplit(a, b[..|b| - 1]);
    }
  }

  /** Taking the first frame away frees what it took. */
  lemma DequeueFrees(queue: seq<Block>)
    requires queue != []
    ensures QueueBytes(queue) == FrameBytes(queue[0]) + QueueBytes(queue[1..])
    ensures |queue| > 1 ==>
              QueueBytes(queue[..|queue| - 1]) == FrameBytes(queue[0]) + QueueBytes(queue[1..][..|queue| - 2])
  {
    hide FrameBytes;
    assert [queue[0]] + queue[1..] == queue;
    assert [queue[0]][..0] == [];
    QueueBytesSplit([queue[0]], queue[1..]);
    if |queue| > 1 {
      assert [queue[0]] + queue[1..][..|queue| - 2] == queue[..|queue| - 1];
      QueueBytesSplit([queue[0]], queue[1..][..|queue| - 2]);
    }
  }

  /** The frame in hand, offered: the state in which enqueueBounded looks at the stream. */
  function Holding(s: State, b: Block): State {
    s.(phase := Waiting(b, Undecided))
  }

  lemma EnqueuedStream(o: Options, s: State, b: Block)
    requires Conserved(Holding(s, b)) && Lifecycle(Holding(s, b)) && QueueBounded(o, Holding(s, b))
    requires !s.cancelled ==> DesiredSize(o, s.stream) > 0
    ensures var s' := Enqueue(o, s, b); Conserved(s') && Lifecycle(s') && QueueBounded(o, s')
  {
    hide QueueBytes;
    assert (s.stream.queue + [b])[..|s.stream.queue|] == s.stream.queue;
    assert s.stream.delivered + (s.stream.queue + [b]) == (s.stream.delivered + s.stream.queue) + [b];
  }

  lemma EnqueuedEvents(o: Options, source: Source, s: State, b: Block)
    requires InOrder(source, Holding(s, b)) && OneOutstanding(Holding(s, b)) && Lifecycle(Holding(s, b))
    ensures var s' := Enqueue(o, s, b); InOrder(source, s') && OneOutstanding(s') && ClosedAtEnd(source, s')
  {
    hide QueueBytes, EventsOf;
    EventsOfOne(s.stream.enqueued, b);
  }

  lemma EnqueuedFrames(o: Options, s: State, b: Block)
    requires FramesFit(o, Holding(s, b)) && RetryFirst(o, Holding(s, b)) && CallbacksFit(Holding(s, b))
    requires !s.cancelled ==> s.stream.error.None?
    ensures var s' := Enqueue(o, s, b); FramesFit(o, s') && RetryFirst(o, s') && CallbacksFit(s')
  {
    hide QueueBytes, FrameBytes;
  }

  lemma EnqueueKeeps(o: Options, source: Source, s: State, b: Block)
    requires Valid(o, source, Holding(s, b)) && (!s.cancelled ==> DesiredSize(o, s.stream) > 0)
    ensures Valid(o, source, Enqueue(o, s, b))
  {
    hide InOrder, OneOutstanding, Conserved, QueueBounded, CallbacksFit, ClosedAtEnd, FramesFit, RetryFirst,
      Enqueue, QueueBytes;
    EnqueuedStream(o, s, b);
    EnqueuedEvents(o, source, s, b);
    EnqueuedFrames(o, s, b);
  }

  lemma OfferKeeps(o: Options, source: Source, s: State, b: Block)
    requires Valid(o, source, Holding(s, b))
    ensures Valid(o, source, Offer(o, s, b))
  {
    hide InOrder, OneOutstanding, Conserved, QueueBounded, Lifecycle, CallbacksFit, ClosedAtEnd, FramesFit, RetryFirst,
      Enqueue, DesiredSize;
    if !(s.stream.status.Errored? || DesiredSize(o, s.stream) <= 0) {
      EnqueueKeeps(o, source, s, b);
    }
  }

  /** What still holds when the loop is about to be left, whatever it was doing. */
  ghost predicate Leaving(o: Options, source: Source, s: State) {
    && (var sent := EventsOf(s.stream.enqueued);
        |sent| <= |source.events| && sent == source.events[..|sent|] && |sent| <= s.answered <= |source.events| + 1)
    && s.answered <= s.asked <= s.answered + 1
    && Conserved(s) && (s.stream.queue != [] ==> QueueBytes(s.stream.queue[..|s.stream.queue| - 1]) < o.BufferLimit())
    && s.stream.error.None? && (if s.cancelled then s.stream.status.Closed? else s.stream.status.Readable?)
    && s.seen.opens == 1 && s.seen.closes == (if s.closeObserved then 1 else 0) && s.seen.drops == 0
    && (forall i :: 0 <= i < |s.stream.enqueued| && s.stream.enqueued[i].Event? ==>
          FrameBytes(s.stream.enqueued[i]) <= o.EventLimit())
    && (forall i :: 0 <= i < |s.stream.enqueued| && s.stream.enqueued[i].Retry? ==> i == 0)
    && (if o.retryMs.Some? then s.stream.enqueued != [] && s.stream.enqueued[0] == Retry(Max(0, o.retryMs.value))
        else forall i :: 0 <= i < |s.stream.enqueued| ==> !s.stream.enqueued[i].Retry?)
  }

  lemma FailKeeps(o: Options, source: Source, s: State, error: DeliveryError)
    requires Leaving(o, source, s) && s.seen.heartbeatFailures <= (if error.SlowConsumer? then 1 else 0)
    ensures Valid(o, source, Fail(s, error))
  {
    hide EventsOf, QueueBytes, FrameBytes;
  }

  lemma LeaveLoopKeeps(o: Options, source: Source, s: State, now: int)
    requires Leaving(o, source, s) && s.seen.heartbeatFailures == 0
    requires !s.cancelled ==> !source.throws && EventsOf(s.stream.enqueued) == source.events
    ensures Valid(o, source, LeaveLoop(s, now))
  {
    hide EventsOf, QueueBytes, FrameBytes;
  }

  /** A state of the running loop, with at most the answer in hand counted, may be left. */
  lemma MayLeave(o: Options, source: Source, s: State, answered: nat, asked: nat)
    requires Valid(o, source, s) && !s.phase.Settled?
    requires s.answered <= answered <= |source.events| + 1 && answered <= asked <= answered + 1
    ensures Leaving(o, source, s.(answered := answered, asked := asked)) && s.seen.heartbeatFailures == 0
  {
    hide EventsOf, QueueBytes, FrameBytes;
  }

  lemma LeavingIgnores(o: Options, source: Source, s: State, h: nat, at: Option<int>)
    requires Leaving(o, source, s)
    ensures Leaving(o, source, s.(seen := s.seen.(heartbeatFailures := h), terminalEnqueuedAt := at))
  {
    hide EventsOf, QueueBytes, FrameBytes;
  }

  lemma HoldingEvent(o: Options, source: Source, s: State)
    requires Valid(o, source, s) && s.phase.Awaiting? && s.answered < |source.events|
    requires FrameBytes(Event(source.events[s.answered])) <= o.EventLimit()
    ensures Valid(o, source, Holding(s.(answered := s.answered + 1), Event(source.events[s.answered])))
  {
    hide EventsOf, QueueBytes, FrameBytes;
  }

  lemma HoldingHeartbeat(o: Options, source: Source, s: State)
    requires Valid(o, source, s) && s.phase.Awaiting?
    ensures Valid(o, source, Holding(s, Heartbeat))
  {
    hide EventsOf, QueueBytes, FrameBytes;
  }

  lemma OnSourceKeeps(o: Options, source: Source, s: State, now: int)
    requires Valid(o, source, s) && s.phase.Awaiting?
    ensures Valid(o, source, OnSource(o, source, s, now))
  {
    hide Valid, Leaving, Holding, Offer, Fail, LeaveLoop, FrameBytes, EventsOf;
    AwaitingCounts(o, source, s);
    MayLeave(o, source, s, s.answered + 1, s.asked);
    var s1 := s.(answered := s.answered + 1);
    if s.answered < |source.events| {
      var b := Event(source.events[s.answered]);
      if FrameBytes(b) > o.EventLimit() {
        FailKeeps(o, source, s1, EventTooLarge);
      } else {
        HoldingEvent(o, source, s);
        OfferKeeps(o, source, s1, b);
      }
    } else if source.throws {
      FailKeeps(o, source, s1, SourceFailed);
    } else {
      LeaveLoopKeeps(o, source, s1, now);
    }
  }

  lemma AwaitingCounts(o: Options, source: Source, s: State)
    requires Valid(o, source, s) && s.phase.Awaiting?
    ensures s.asked == s.answered + 1 && s.answered <= |source.events|
    ensures !s.cancelled && s.answered == |source.events| ==> EventsOf(s.stream.enqueued) == source.events
  {
    hide QueueBytes, FrameBytes;
  }

  lemma AfterOfferKeeps(o: Options, source: Source, s: State, b: Block, now: int)
    requires Valid(o, source, s) && s.phase == Offered(b)
    ensures Valid(o, source, AfterOffer(s, b, now))
  {
    hide EventsOf, QueueBytes, FrameBytes;
    if s.cancelled {
      hide LeaveLoop, Leaving;
      var asked := if b.Heartbeat? then s.asked else s.asked + 1;
      var at := if b.Event? && IsTerminalRunEvent(b.event) then Some(now) else s.terminalEnqueuedAt;
      MayLeave(o, source, s, s.answered, asked);
      LeavingIgnores(o, source, s.(asked := asked), s.seen.heartbeatFailures, at);
      LeaveLoopKeeps(o, source, s.(asked := asked, terminalEnqueuedAt := at), now);
    }
  }

  lemma OnContinueKeeps(o: Options, source: Source, s: State, now: int)
    requires Valid(o, source, s)
    ensures Valid(o, source, OnContinue(o, s, now))
  {
    hide EventsOf, QueueBytes, FrameBytes, AfterOffer, Enqueue, Fail, Leaving;
    match s.phase
    case Offered(b) => AfterOfferKeeps(o, source, s, b, now);
    case Waiting(b, Resumed) =>
      HoldsOn(o, source, s);
      EnqueueKeeps(o, source, s, b);
    case Waiting(b, TimedOut) =>
      MayLeave(o, source, s, s.answered, s.asked);
      var failures := if b.Heartbeat? then 1 else 0;
      LeavingIgnores(o, source, s, failures, s.terminalEnqueuedAt);
      FailKeeps(o, source, s.(seen := s.seen.(heartbeatFailures := failures)), SlowConsumer);
    case _ =>
  }

  lemma HoldsOn(o: Options, source: Source, s: State)
    requires Valid(o, source, s) && s.phase.Waiting?
    ensures Valid(o, source, Holding(s, s.phase.frame)) && !s.stream.status.Errored?
    ensures s.phase.fate.Resumed? && !s.cancelled ==> DesiredSize(o, s.stream) > 0
  {
    hide EventsOf, QueueBytes, FrameBytes;
  }

  lemma FateKeeps(o: Options, source: Source, s: State, fate: Fate)
    requires Valid(o, source, s) && s.phase.Waiting?
    requires fate.Resumed? && !s.cancelled ==> QueueBytes(s.stream.queue) < o.BufferLimit()
    ensures Valid(o, source, s.(phase := Waiting(s.phase.frame, fate)))
  {
    hide EventsOf, QueueBytes, FrameBytes;
  }

  lemma OnReadKeeps(o: Options, source: Source, s: State)
    requires Valid(o, source, s)
    ensures Valid(o, source, s.(stream := ReadFrom(s.stream)))
  {
    hide EventsOf, QueueBytes, FrameBytes;
    if s.stream.queue != [] {
      DequeueFrees(s.stream.queue);
      assert s.stream.delivered + s.stream.queue == s.stream.delivered + [s.stream.queue[0]] + s.stream.queue[1..];
    }
  }

  lemma OnCancelKeeps(o: Options, source: Source, s: State)
    requires Valid(o, source, s)
    ensures Valid(o, source, OnCancel(s))
  {
    hide EventsOf, QueueBytes, FrameBytes;
  }

  lemma NextKeeps(o: Options, source: Source, s: State, step: Step)
    requires Valid(o, source, s)
    ensures Valid(o, source, Next(o, source, s, step))
  {
    hide EventsOf, QueueBytes, FrameBytes, OnSource, OnContinue, ReadFrom, OnCancel, Offer;
    match step
    case SourceReady(at) => if s.phase.Awaiting? { OnSourceKeeps(o, source, s, at); }
    case HeartbeatFires =>
      if s.phase.Awaiting? {
        HoldingHeartbeat(o, source, s);
        OfferKeeps(o, source, s, Heartbeat);
      }
    case CapacityTimeout => if s.phase.Waiting? { FateKeeps(o, source, s, TimedOut); }
    case Continue(now) => OnContinueKeeps(o, source, s, now);
    case ConsumerReads => OnReadKeeps(o, source, s);
    case Pull => if s.phase.Waiting?
        && ShouldCallPull(o, s.stream) { PullHasRoom(o, source, s); FateKeeps(o, source, s, Resumed); }
    case Cancel => OnCancelKeeps(o, source, s);
    case ReturnSettles(_) =>
  }

  lemma PullHasRoom(o: Options, source: Source, s: State)
    requires Valid(o, source, s) && ShouldCallPull(o, s.stream)
    ensures QueueBytes(s.stream.queue) < o.BufferLimit()
  {
    assert s.stream.waitingReads > 0 ==> s.stream.queue == [];
  }

  lemma BeginsWithRetry(o: Options)
    requires o.retryMs.Some?
    ensures var retry := Retry(Max(0, o.retryMs.value)); var s := Begin(o);
      && s.phase == Offered(retry) && s.asked == s.answered == 0 && !s.cancelled && !s.closeObserved
      && s.stream == UNREAD.(queue := [retry], enqueued := [retry])
      && s.seen.opens == 1 && s.seen.closes == s.seen.drops == s.seen.heartbeatFailures == 0 && s.seen.latencies == []
      && s.terminalEnqueuedAt.None?
    ensures var retry: Block := Retry(Max(0, o.retryMs.value)); EventsOf([retry]) == []
  {
    hide FrameBytes;
    var retry: Block := Retry(Max(0, o.retryMs.value));
    assert QueueBytes([]) == 0;
    assert [] + [retry] == [retry] && [retry][1..] == [];
  }

  lemma BeginKeeps(o: Options, source: Source)
    ensures Valid(o, source, Begin(o))
  {
    hide FrameBytes;
    assert EventsOf([]) == [] && QueueBytes([]) == 0;
    if o.retryMs.Some? {
      BeginsWithRetry(o);
      hide Begin, EventsOf, QueueBytes;
      assert Begin(o).stream.queue[..0] == [];
    }
  }

  lemma {:induction false} RunFromKeeps(o: Options, source: Source, s: State, steps: seq<Step>)
    requires Valid(o, source, s)
    ensures Valid(o, source, RunFrom(o, source, s, steps))
  {
    hide Valid, Next;
    if steps != [] {
      RunFromKeeps(o, source, s, steps[..|steps| - 1]);
      NextKeeps(o, source, RunFrom(o, source, s, steps[..|steps| - 1]), steps[|steps| - 1]);
    }
  }

  lemma RunKeeps(o: Options, source: Source, steps: seq<Step>)
    ensures Valid(o, source, Run(o, source, steps))
  {
    hide Valid, Begin;
    BeginKeeps(o, source);
    RunFromKeeps(o, source, Begin(o), steps);
  }

  // ---------- What every interleaving delivers ----------

  /**
   The events enqueued are the first so many of the source, in its order; while the stream
   is neither cancelled nor over, that is every event received but for one still in hand.
   */
  lemma EventsArriveInOrder(o: Options, source: Source, steps: seq<Step>)
    ensures var s := Run(o, source, steps); var sent := EventsOf(s.stream.enqueued);
      && |sent| <= |source.events| && sent == source.events[..|sent|]
      && s.stream.delivered <= s.stream.enqueued
      && EventsOf(s.stream.delivered) <= source.events
      && (!s.cancelled && !s.phase.Settled? ==>
            && s.stream.delivered + s.stream.queue == s.stream.enqueued
            && |sent| <= s.answered <= |sent| + 1
            && (s.answered == |sent| + 1 <==>
                  |sent| < |source.events| && s.phase.Waiting? && s.phase.frame == Event(source.events[|sent|])))
  {
    hide Run, QueueBytes, FrameBytes;
    RunKeeps(o, source, steps);
    var s := Run(o, source, steps);
    var n := |s.stream.delivered|;
    assert s.stream.enqueued == s.stream.delivered + s.stream.enqueued[n..];
    EventsOfConcat(s.stream.delivered, s.stream.enqueued[n..]);
    hide EventsOf;
  }

  /** Closing without a cancel means the whole source got through, and a drained stream delivered it. */
  lemma ClosedStreamsAreComplete(o: Options, source: Source, steps: seq<Step>)
    requires var s := Run(o, source, steps); !s.cancelled && s.phase.Settled? && s.stream.error.None?
    ensures var s := Run(o, source, steps);
      && !source.throws && EventsOf(s.stream.delivered + s.stream.queue) == source.events
      && (s.stream.status.Closed? ==> EventsOf(s.stream.delivered) == source.events)
  {
    hide Run, QueueBytes, FrameBytes, EventsOf;
    RunKeeps(o, source, steps);
    var s := Run(o, source, steps);
    if s.stream.status.Closed? {
      assert s.stream.delivered + s.stream.queue == s.stream.delivered;
    }
  }

  lemma NextIsCalledOneAtATime(o: Options, source: Source, steps: seq<Step>)
    ensures var s := Run(o, source, steps); s.answered <= s.asked <= s.answered + 1
  {
    hide Run, QueueBytes, FrameBytes, EventsOf;
    RunKeeps(o, source, steps);
  }

  /** The queue never holds more than the limit less one byte, plus its last frame. */
  lemma QueueStaysBounded(o: Options, source: Source, steps: seq<Step>)
    ensures var s := Run(o, source, steps); var queue := s.stream.queue;
      && (queue != [] ==> QueueBytes(queue) <= o.BufferLimit() - 1 + FrameBytes(queue[|queue| - 1]))
      && (forall i :: 0 <= i < |s.stream.enqueued| && s.stream.enqueued[i].Event? ==>
            FrameBytes(s.stream.enqueued[i]) <= o.EventLimit())
  {
    hide Run, FrameBytes, EventsOf;
    RunKeeps(o, source, steps);
  }

  lemma CloseIsObservedOnce(o: Options, source: Source, steps: seq<Step>)
    ensures var s := Run(o, source, steps);
      s.seen.opens == 1 && s.seen.closes <= 1 && (s.phase.Settled? ==> s.seen.closes == 1)
  {
    hide Run, QueueBytes, FrameBytes, EventsOf;
    RunKeeps(o, source, steps);
  }

  /** A drop is reported at most once, and (short of a cancel) exactly when the stream fails for it. */
  lemma DropIsReportedOnce(o: Options, source: Source, steps: seq<Step>)
    ensures var s := Run(o, source, steps);
      && s.seen.drops <= 1 && s.seen.heartbeatFailures <= s.seen.drops
      && (!s.cancelled ==> (s.seen.drops == 1 <==> s.stream.error == Some(SlowConsumer)))
  {
    hide Run, QueueBytes, FrameBytes, EventsOf;
    RunKeeps(o, source, steps);
  }

  /** A cancelled stream enqueues nothing more, whatever happens. */
  lemma {:induction false} CancelIsFinal(o: Options, source: Source, s: State, steps: seq<Step>)
    requires s.cancelled && s.stream.status.Closed? && s.stream.queue == []
    ensures var s' := RunFrom(o, source, s, steps);
      s'.cancelled && s'.stream == s.stream
  {
    hide Next;
    if steps != [] {
      CancelIsFinal(o, source, s, steps[..|steps| - 1]);
      CancelledStep(o, source, RunFrom(o, source, s, steps[..|steps| - 1]), steps[|steps| - 1]);
    }
  }

  lemma CancelledStep(o: Options, source: Source, s: State, step: Step)
    requires s.cancelled && s.stream.status.Closed? && s.stream.queue == []
    ensures var s' := Next(o, source, s, step); s'.cancelled && s'.stream == s.stream
  {
    hide FrameBytes, QueueBytes;
  }

  /** The retry hint stands first, only once, and only when asked for. */
  lemma RetryComesFirst(o: Options, source: Source, steps: seq<Step>)
    ensures var sent := Run(o, source, steps).stream.enqueued;
      && (o.retryMs.Some? ==> sent != [] && sent[0] == Retry(Max(0, o.retryMs.value)))
      && forall i :: 0 <= i < |sent| && sent[i].Retry? ==> i == 0 && o.retryMs.Some?
  {
    hide Run, QueueBytes, FrameBytes, EventsOf;
    RunKeeps(o, source, steps);
  }

  /**
   What a consumer makes of the bytes it has read: it is conveyed the first so many events of the
   source, each once and in order.
   */
  lemma ConsumerReadsTheSource(o: Options, source: Source, steps: seq<Step>)
    ensures var s := Run(o, source, steps); var messages := Read(Print(s.stream.delivered)).dispatched;
      |messages| <= |source.events| && ConveyAll(messages, source.events[..|messages|])
  {
    hide Run, EventsOf, Sse.Read, Print, Conveys;
    EventsArriveInOrder(o, source, steps);
    ReaderUndoesPrinter(Run(o, source, steps).stream.delivered);
  }

  // ---------- Waiting for capacity ----------

  /** What is left of a wait that nothing resumes: it goes on, or the stream is dropped for it. */
  ghost predicate StillWaits(s: State, b: Block, s': State) {
    && s'.stream.enqueued == s.stream.enqueued && s'.cancelled == s.cancelled
    && (if s'.phase.Settled? then
          && s'.seen.drops == s.seen.drops + 1
          && s'.seen.heartbeatFailures == s.seen.heartbeatFailures + (if b.Heartbeat? then 1 else 0)
        else s'.phase.Waiting? && s'.phase.frame == b && !s'.phase.fate.Resumed? && s'.seen.drops == s.seen.drops
             && s'.seen.heartbeatFailures == s.seen.heartbeatFailures)
  }

  /**
   `pull` is what resumes a wait. As long as it is not called, a waiting stream that nobody
   cancels enqueues nothing more, however much the consumer reads: it can only time out and
   be dropped. (Section 4.9.4 of the Streams Standard does not call pull before the promise
   of start has settled, and the loop is all of start.)
   */
  lemma {:induction false} WithoutPullAWaitIsFinal(o: Options, source: Source, s: State, steps: seq<Step>)
    requires s.phase.Waiting? && s.phase.fate.Undecided?
    requires forall i :: 0 <= i < |steps| ==> !steps[i].Pull? && !steps[i].Cancel?
    ensures StillWaits(s, s.phase.frame, RunFrom(o, source, s, steps))
  {
    hide StillWaits, Next;
    if steps != [] {
      WithoutPullAWaitIsFinal(o, source, s, steps[..|steps| - 1]);
      StillWaitsStep(o, source, s, s.phase.frame, RunFrom(o, source, s, steps[..|steps| - 1]), steps[|steps| - 1]);
    } else {
      WaitBegins(s);
    }
  }

  lemma WaitBegins(s: State)
    requires s.phase.Waiting? && s.phase.fate.Undecided?
    ensures StillWaits(s, s.phase.frame, s)
  {
  }

  lemma StillWaitsStep(o: Options, source: Source, s: State, b: Block, s': State, step: Step)
    requires StillWaits(s, b, s')
    requires (!step.Pull? && !step.Cancel?) || (s'.cancelled && s'.stream.status.Closed? && s'.stream.queue == [])
    ensures StillWaits(s, b, Next(o, source, s', step))
  {
    hide FrameBytes, QueueBytes, OnSource, Offer, AfterOffer, Enqueue;
    match step
    case ConsumerReads =>
    case Continue(now) =>
    case _ =>
  }

  /** After a cancel not even `pull` and another cancel can end a wait: only the timer does, with a drop. */
  lemma {:induction false} CancelledWaitOnlyTimesOut(o: Options, source: Source, s: State, steps: seq<Step>)
    requires s.phase.Waiting? && s.phase.fate.Undecided?
    requires s.cancelled && s.stream.status.Closed? && s.stream.queue == []
    ensures StillWaits(s, s.phase.frame, RunFrom(o, source, s, steps))
  {
    hide StillWaits, Next;
    if steps != [] {
      CancelledWaitOnlyTimesOut(o, source, s, steps[..|steps| - 1]);
      CancelIsFinal(o, source, s, steps[..|steps| - 1]);
      StillWaitsStep(o, source, s, s.phase.frame, RunFrom(o, source, s, steps[..|steps| - 1]), steps[|steps| - 1]);
    } else {
      WaitBegins(s);
    }
  }

  /** The answer of the source, or a heartbeat, that makes a cancelled stream wait once more. */
  predicate OffersAnotherFrame(o: Options, source: Source, s: State, step: Step) {
    match step
    case HeartbeatFires => o.heartbeats
    case SourceReady(_) => s.answered < |source.events|
        && FrameBytes(Event(source.events[s.answered])) <= o.EventLimit()
    case _ => false
  }

  /**
   A cancelled stream that was awaiting its source reports a slow consumer exactly when it
   is offered one more frame: by `CancelledWaitOnlyTimesOut` that wait ends in a drop, and
   any other end of the await settles start without one.
   */
  lemma DropAfterCancel(o: Options, source: Source, s: State, step: Step)
    requires Valid(o, source, s) && s.cancelled && s.phase.Awaiting?
    requires step.SourceReady? || (step.HeartbeatFires? && o.heartbeats)
    ensures var s' := Next(o, source, s, step);
      if OffersAnotherFrame(o, source, s, step) then s'.phase.Waiting? && s'.phase.fate.Undecided?
      else s'.phase.Settled? && s'.seen.drops == s.seen.drops == 0
  {
    hide FrameBytes, QueueBytes, EventsOf;
  }

  // ---------- What a cancelled stream still reports ----------

  /** A state after a cancel. */
  predicate IsCancelled(s: State) {
    s.cancelled && s.stream.status.Closed? && s.stream.queue == []
  }

  /** A step that ends an await of the source. */
  predicate EndsAwait(o: Options, step: Step) {
    step.SourceReady? || (step.HeartbeatFires? && o.heartbeats)
  }

  predicate FirstEndsAwait(o: Options, steps: seq<Step>, i: int) {
    0 <= i < |steps| && EndsAwait(o, steps[i]) && forall k :: 0 <= k < i ==> !EndsAwait(o, steps[k])
  }

  predicate GoesOn(steps: seq<Step>) {
    exists k :: 0 <= k < |steps| && steps[k].Continue?
  }

  /** The capacity timer fires, and later the loop goes on. */
  predicate TimesOut(steps: seq<Step>) {
    exists j :: 0 <= j < |steps| && steps[j].CapacityTimeout? && GoesOn(steps[j + 1..])
  }

  /** The first answer or heartbeat offers one more frame, whose wait then times out. */
  ghost predicate OffersAndTimesOut(o: Options, source: Source, s: State, steps: seq<Step>) {
    exists i :: FirstEndsAwait(o, steps, i) && OffersAnotherFrame(o, source, s, steps[i]) && TimesOut(steps[i + 1..])
  }

  /** Whether the steps after a cancel lead to a reported drop, by what the loop was doing at the cancel. */
  ghost predicate DropsAfter(o: Options, source: Source, s: State, later: seq<Step>) {
    match s.phase
    case Awaiting => OffersAndTimesOut(o, source, s, later)
    case Waiting(_, fate) => fate.TimedOut? && GoesOn(later)
    case Offered(_) => false
    case Settled => false
  }

  lemma {:induction false} RunFromSplit(o: Options, source: Source, s: State, a: seq<Step>, b: seq<Step>)
    ensures RunFrom(o, source, s, a + b) == RunFrom(o, source, RunFrom(o, source, s, a), b)
  {
    hide Next;
    if b == [] {
      assert a + b == a;
    } else {
      assert (a + b)[..|a + b| - 1] == a + b[..|b| - 1];
      RunFromSplit(o, source, s, a, b[..|b| - 1]);
    }
  }

  lemma {:induction false} SettledStays(o: Options, source: Source, s: State, steps: seq<Step>)
    requires s.phase.Settled?
    ensures var s' := RunFrom(o, source, s, steps); s'.phase.Settled? && s'.seen.drops == s.seen.drops
  {
    if steps != [] {
      SettledStays(o, source, s, steps[..|steps| - 1]);
    }
  }

  lemma OneMoreGoesOn(steps: seq<Step>)
    requires steps != []
    ensures GoesOn(steps) <==> GoesOn(steps[..|steps| - 1]) || steps[|steps| - 1].Continue?
  {
    if GoesOn(steps[..|steps| - 1]) {
      var k :| 0 <= k < |steps| - 1 && steps[..|steps| - 1][k].Continue?;
      assert steps[k].Continue?;
    }
  }

  /** The steps after position j, one by one. */
  lemma LaterGoesOn(steps: seq<Step>, j: nat)
    requires j < |steps| - 1
    ensures GoesOn(steps[j + 1..]) <==> GoesOn(steps[..|steps| - 1][j + 1..]) || steps[|steps| - 1].Continue?
  {
    hide GoesOn;
    var tail := steps[j + 1..];
    OneMoreGoesOn(tail);
    assert tail[..|tail| - 1] == steps[..|steps| - 1][j + 1..];
  }

  predicate TimerFires(steps: seq<Step>) {
    exists j :: 0 <= j < |steps| && steps[j].CapacityTimeout?
  }

  lemma StillTimesOut(steps: seq<Step>)
    requires steps != [] && TimesOut(steps[..|steps| - 1])
    ensures TimesOut(steps)
  {
    hide GoesOn;
    var init := steps[..|steps| - 1];
    var j :| 0 <= j < |init| && init[j].CapacityTimeout? && GoesOn(init[j + 1..]);
    LaterGoesOn(steps, j);
    assert steps[j].CapacityTimeout?;
  }

  lemma NowTimesOut(steps: seq<Step>)
    requires steps != [] && TimerFires(steps[..|steps| - 1]) && steps[|steps| - 1].Continue?
    ensures TimesOut(steps)
  {
    hide GoesOn;
    var init := steps[..|steps| - 1];
    var j :| 0 <= j < |init| && init[j].CapacityTimeout?;
    LaterGoesOn(steps, j);
    assert steps[j].CapacityTimeout?;
  }

  lemma OneMoreTimesOut(steps: seq<Step>)
    requires steps != []
    ensures var init := steps[..|steps| - 1];
      TimesOut(steps) <==> TimesOut(init) || (steps[|steps| - 1].Continue? && TimerFires(init))
  {
    var init := steps[..|steps| - 1];
    NothingGoesOn();
    assert steps[|steps|..] == [];
    if TimesOut(steps) {
      var j :| 0 <= j < |steps| && steps[j].CapacityTimeout? && GoesOn(steps[j + 1..]);
      hide GoesOn;
      if j < |steps| - 1 {
        LaterGoesOn(steps, j);
        assert init[j].CapacityTimeout?;
      }
    }
    hide TimesOut, TimerFires;
    if TimesOut(init) {
      StillTimesOut(steps);
    } else if steps[|steps| - 1].Continue? && TimerFires(init) {
      NowTimesOut(steps);
    }
  }

  lemma NothingGoesOn()
    ensures !GoesOn([])
  {
  }

  lemma OneMoreFires(steps: seq<Step>)
    requires steps != []
    ensures TimerFires(steps) <==> TimerFires(steps[..|steps| - 1]) || steps[|steps| - 1].CapacityTimeout?
  {
    var init := steps[..|steps| - 1];
    if TimerFires(init) {
      var j :| 0 <= j < |init| && init[j].CapacityTimeout?;
      assert steps[j].CapacityTimeout?;
    }
  }

  /** A wait that has timed out is reported as soon as the loop goes on, cancelled or not. */
  lemma {:induction false} TimedOutRuns(o: Options, source: Source, s: State, steps: seq<Step>)
    requires s.phase.Waiting? && s.phase.fate.TimedOut?
    ensures var s' := RunFrom(o, source, s, steps);
      if GoesOn(steps) then s'.phase.Settled? && s'.seen.drops == s.seen.drops + 1
      else s'.phase == s.phase && s'.seen.drops == s.seen.drops
  {
    if steps != [] {
      TimedOutRuns(o, source, s, steps[..|steps| - 1]);
      OneMoreGoesOn(steps);
      hide RunFrom, GoesOn, FrameBytes, QueueBytes;
      TimedOutStep(o, source, RunFrom(o, source, s, steps[..|steps| - 1]), steps[|steps| - 1]);
      LastOfRun(o, source, s, steps);
    }
  }

  lemma LastOfRun(o: Options, source: Source, s: State, steps: seq<Step>)
    requires steps != []
    ensures RunFrom(o, source, s, steps) ==
            Next(o, source, RunFrom(o, source, s, steps[..|steps| - 1]), steps[|steps| - 1])
  {
  }

  lemma TimedOutStep(o: Options, source: Source, s: State, step: Step)
    requires s.phase.Settled? || (s.phase.Waiting? && s.phase.fate.TimedOut?)
    ensures var s' := Next(o, source, s, step);
      if s.phase.Settled? then s'.phase.Settled? && s'.seen.drops == s.seen.drops
      else if step.Continue? then s'.phase.Settled? && s'.seen.drops == s.seen.drops + 1
      else s'.phase == s.phase && s'.seen.drops == s.seen.drops
  {
    hide FrameBytes, QueueBytes;
  }

  /** A wait begun after a cancel is reported once it has timed out and the loop goes on. */
  lemma {:induction false} UndecidedRuns(o: Options, source: Source, s: State, steps: seq<Step>)
    requires IsCancelled(s) && s.phase.Waiting? && s.phase.fate.Undecided?
    ensures var s' := RunFrom(o, source, s, steps);
      && (TimesOut(steps) ==> s'.phase.Settled? && s'.seen.drops == s.seen.drops + 1)
      && (!TimesOut(steps) ==>
            && s'.phase.Waiting? && !s'.phase.fate.Resumed? && s'.seen.drops == s.seen.drops
            && (s'.phase.fate.TimedOut? <==> TimerFires(steps)))
  {
    if steps != [] {
      var init, last := steps[..|steps| - 1], steps[|steps| - 1];
      UndecidedRuns(o, source, s, init);
      CancelIsFinal(o, source, s, init);
      OneMoreTimesOut(steps);
      OneMoreFires(steps);
      LastOfRun(o, source, s, steps);
      hide RunFrom, TimesOut, TimerFires, Next;
      UndecidedStep(o, source, RunFrom(o, source, s, init), last);
    } else {
      hide Next;
    }
  }

  lemma UndecidedStep(o: Options, source: Source, s: State, step: Step)
    requires IsCancelled(s) && (s.phase.Settled? || (s.phase.Waiting? && !s.phase.fate.Resumed?))
    ensures var s' := Next(o, source, s, step);
      && (s.phase.Settled? ==> s'.phase.Settled? && s'.seen.drops == s.seen.drops)
      && (s.phase.Waiting? && s.phase.fate.TimedOut? && step.Continue? ==>
            s'.phase.Settled? && s'.seen.drops == s.seen.drops + 1)
      && (s.phase.Waiting? && !(s.phase.fate.TimedOut? && step.Continue?) ==>
            && s'.phase.Waiting? && !s'.phase.fate.Resumed? && s'.seen.drops == s.seen.drops
            && (s'.phase.fate.TimedOut? <==> s.phase.fate.TimedOut? || step.CapacityTimeout?))
  {
    hide FrameBytes, QueueBytes;
  }

  /** A wait that was resumed, and a frame already dealt with, settle without a drop. */
  lemma {:induction false} ResumedRuns(o: Options, source: Source, s: State, steps: seq<Step>)
    requires IsCancelled(s) && (s.phase.Offered? || s.phase.Settled? || (s.phase.Waiting? && s.phase.fate.Resumed?))
    ensures var s' := RunFrom(o, source, s, steps);
      && s'.seen.drops == s.seen.drops
      && (s'.phase.Offered? || s'.phase.Settled? || (s'.phase.Waiting? && s'.phase.fate.Resumed?))
  {
    if steps != [] {
      var init, last := steps[..|steps| - 1], steps[|steps| - 1];
      ResumedRuns(o, source, s, init);
      CancelIsFinal(o, source, s, init);
      LastOfRun(o, source, s, steps);
      hide RunFrom, FrameBytes, QueueBytes;
    }
  }

  lemma {:induction false} AwaitingRuns(o: Options, source: Source, s: State, steps: seq<Step>)
    requires IsCancelled(s) && s.phase.Awaiting? && forall k :: 0 <= k < |steps| ==> !EndsAwait(o, steps[k])
    ensures var s' := RunFrom(o, source, s, steps);
      s'.phase.Awaiting? && s'.answered == s.answered && s'.seen.drops == s.seen.drops
  {
    if steps != [] {
      var init, last := steps[..|steps| - 1], steps[|steps| - 1];
      AwaitingRuns(o, source, s, init);
      CancelIsFinal(o, source, s, init);
      LastOfRun(o, source, s, steps);
      hide RunFrom, FrameBytes, QueueBytes;
    }
  }

  lemma FindFirst(o: Options, steps: seq<Step>) returns (i: nat)
    ensures i <= |steps| && forall k :: 0 <= k < i ==> !EndsAwait(o, steps[k])
    ensures i < |steps| ==> FirstEndsAwait(o, steps, i)
  {
    i := 0;
    while i < |steps| && !EndsAwait(o, steps[i])
      invariant i <= |steps| && forall k :: 0 <= k < i ==> !EndsAwait(o, steps[k])
    {
      i := i + 1;
    }
  }

  /** An await of the source ends in a drop exactly when it is offered one more frame that then times out. */
  lemma AwaitDrops(o: Options, source: Source, s: State, steps: seq<Step>)
    requires Valid(o, source, s) && IsCancelled(s) && s.phase.Awaiting?
    ensures RunFrom(o, source, s, steps).seen.drops == 1 <==> OffersAndTimesOut(o, source, s, steps)
  {
    hide EventsOf, QueueBytes, FrameBytes, Next, RunFrom, TimesOut, OffersAnotherFrame;
    var i := FindFirst(o, steps);
    AwaitingRuns(o, source, s, steps[..i]);
    CancelIsFinal(o, source, s, steps[..i]);
    assert s.seen.drops == 0;
    if i == |steps| {
      assert steps[..i] == steps;
    } else {
      var s1 := RunFrom(o, source, s, steps[..i]);
      RunFromKeeps(o, source, s, steps[..i]);
      assert steps == steps[..i] + ([steps[i]] + steps[i + 1..]);
      RunFromSplit(o, source, s, steps[..i], [steps[i]] + steps[i + 1..]);
      RunFromSplit(o, source, s1, [steps[i]], steps[i + 1..]);
      OneStep(o, source, s1, steps[i]);
      var s2 := Next(o, source, s1, steps[i]);
      CancelledStep(o, source, s1, steps[i]);
      DropAfterCancel(o, source, s1, steps[i]);
      SameOffer(o, source, s, s1, steps[i]);
      if OffersAnotherFrame(o, source, s, steps[i]) {
        UndecidedRuns(o, source, s2, steps[i + 1..]);
        OfferedDrops(o, source, s1, steps[i]);
      } else {
        SettledStays(o, source, s2, steps[i + 1..]);
      }
    }
  }

  lemma OneStep(o: Options, source: Source, s: State, step: Step)
    ensures RunFrom(o, source, s, [step]) == Next(o, source, s, step)
  {
    assert [step][..0] == [];
  }

  lemma SameOffer(o: Options, source: Source, s: State, s1: State, step: Step)
    requires s1.answered == s.answered
    ensures OffersAnotherFrame(o, source, s1, step) == OffersAnotherFrame(o, source, s, step)
  {
  }

  lemma OfferedDrops(o: Options, source: Source, s: State, step: Step)
    requires IsCancelled(s) && s.phase.Awaiting? && EndsAwait(o, step) && OffersAnotherFrame(o, source, s, step)
    ensures Next(o, source, s, step).seen.drops == s.seen.drops
  {
    hide FrameBytes, QueueBytes;
  }

  /**
   Whatever the loop is doing when the stream is cancelled, what it reports afterwards is
   decided by the steps that follow: a slow consumer only if a wait had already timed out and
   the loop goes on, or if the source was awaited, one more frame is offered, and that times out.
   */
  lemma DropsAfterCancelExactly(o: Options, source: Source, s: State, later: seq<Step>)
    requires Valid(o, source, s) && (s.stream.status.Readable? || s.stream.status.Closing?)
    ensures var s' := RunFrom(o, source, Next(o, source, s, Cancel), later);
      s'.cancelled && (s'.seen.drops == 1 <==> DropsAfter(o, source, s, later))
  {
    hide EventsOf, QueueBytes, FrameBytes, RunFrom, GoesOn, OffersAndTimesOut;
    var c := Next(o, source, s, Cancel);
    assert s.seen.drops == 0 && IsCancelled(c) && c.seen == s.seen && c.answered == s.answered;
    CancelIsFinal(o, source, c, later);
    match s.phase
    case Awaiting =>
      NextKeeps(o, source, s, Cancel);
      AwaitDrops(o, source, c, later);
      SameOffers(o, source, s, c, later);
    case Waiting(_, fate) =>
      if fate.TimedOut? {
        TimedOutRuns(o, source, c, later);
      } else {
        ResumedRuns(o, source, c, later);
      }
    case _ => ResumedRuns(o, source, c, later);
  }

  lemma SameOffers(o: Options, source: Source, s: State, c: State, steps: seq<Step>)
    requires c.answered == s.answered
    ensures OffersAndTimesOut(o, source, c, steps) == OffersAndTimesOut(o, source, s, steps)
  {
    forall step ensures OffersAnotherFrame(o, source, c, step) == OffersAnotherFrame(o, source, s, step) {
      SameOffer(o, source, s, c, step);
    }
  }

  /** The cancel that takes effect. */
  ghost predicate CancelsAt(o: Options, source: Source, steps: seq<Step>, m: int) {
    0 <= m < |steps| && steps[m].Cancel?
    && var status := Run(o, source, steps[..m]).stream.status; status.Readable? || status.Closing?
  }

  lemma {:induction false} CancelHappened(o: Options, source: Source, steps: seq<Step>) returns (m: nat)
    requires Run(o, source, steps).cancelled
    ensures CancelsAt(o, source, steps, m)
  {
    if steps == [] {
      NoSteps(o, source);
      BeginUncancelled(o);
      assert false;
    } else {
      var init, last := steps[..|steps| - 1], steps[|steps| - 1];
      OneMoreStep(o, source, init, last);
      assert steps == init + [last];
      if Run(o, source, init).cancelled {
        m := CancelHappened(o, source, init);
        assert steps[..m] == init[..m];
      } else {
        m := |steps| - 1;
        hide Run;
        OnlyCancelCancels(o, source, Run(o, source, init), last);
      }
    }
  }

  lemma BeginUncancelled(o: Options)
    ensures !Begin(o).cancelled
  {
    hide FrameBytes, QueueBytes;
  }

  lemma OnlyCancelCancels(o: Options, source: Source, s: State, step: Step)
    requires !s.cancelled && Next(o, source, s, step).cancelled
    ensures step.Cancel? && (s.stream.status.Readable? || s.stream.status.Closing?)
  {
    hide FrameBytes, QueueBytes;
  }

  /** A cancelled run has reported a slow consumer exactly when the steps after its cancel make it. */
  lemma CancelledRunDropsExactly(o: Options, source: Source, steps: seq<Step>)
    ensures var s := Run(o, source, steps);
      s.cancelled && s.seen.drops == 1
      <==> exists m :: CancelsAt(o, source, steps, m)
                       && DropsAfter(o, source, Run(o, source, steps[..m]), steps[m + 1..])
  {
    hide DropsAfter;
    forall m | CancelsAt(o, source, steps, m)
      ensures var s := Run(o, source, steps);
        s.cancelled && (s.seen.drops == 1 <==> DropsAfter(o, source, Run(o, source, steps[..m]), steps[m + 1..]))
    {
      AfterThatCancel(o, source, steps, m);
    }
    if Run(o, source, steps).cancelled {
      var m := CancelHappened(o, source, steps);
    }
  }

  lemma AfterThatCancel(o: Options, source: Source, steps: seq<Step>, m: int)
    requires CancelsAt(o, source, steps, m)
    ensures var s := Run(o, source, steps);
      s.cancelled && (s.seen.drops == 1 <==> DropsAfter(o, source, Run(o, source, steps[..m]), steps[m + 1..]))
  {
    hide DropsAfter, Valid, RunFrom, Begin, Next;
    RunKeeps(o, source, steps[..m]);
    assert steps == steps[..m] + ([Cancel] + steps[m + 1..]);
    RunFromSplit(o, source, Begin(o), steps[..m], [Cancel] + steps[m + 1..]);
    RunFromSplit(o, source, Run(o, source, steps[..m]), [Cancel], steps[m + 1..]);
    OneStep(o, source, Run(o, source, steps[..m]), Cancel);
    DropsAfterCancelExactly(o, source, Run(o, source, steps[..m]), steps[m + 1..]);
  }

  /** A stream cancelled at once, then one heartbeat: reported as a slow consumer and a failed heartbeat. */
  lemma CancelledStreamReportsDrop(source: Source)
    ensures var s := Run(Options(true, None, None, None), source,
        [Cancel, HeartbeatFires, CapacityTimeout, Continue(0)]);
      && s.cancelled && s.phase.Settled? && s.stream.error.None? && s.stream.enqueued == []
      && s.seen.drops == 1 && s.seen.heartbeatFailures == 1
  {
    hide Run, FrameBytes, QueueBytes;
    var o := Options(true, None, None, None);
    FourSteps(o, source, Cancel, HeartbeatFires, CapacityTimeout, Continue(0));
    var s1 := Next(o, source, Begin(o), Cancel);
    assert s1.phase == Awaiting && s1.cancelled && s1.stream == UNREAD.(status := Closed);
    assert Next(o, source, s1, HeartbeatFires) == s1.(phase := Waiting(Heartbeat, Undecided));
  }

  lemma FourSteps(o: Options, source: Source, a: Step, b: Step, c: Step, d: Step)
    ensures Run(o, source, [a, b, c, d]) ==
            Next(o, source, Next(o, source, Next(o, source, Next(o, source, Begin(o), a), b), c), d)
  {
    NoSteps(o, source);
    OneMoreStep(o, source, [], a);
    OneMoreStep(o, source, [a], b);
    OneMoreStep(o, source, [a, b], c);
    OneMoreStep(o, source, [a, b, c], d);
    hide Run, Next, Begin;
    assert [] + [a] == [a] && [a] + [b] == [a, b] && [a, b] + [c] == [a, b, c] && [a, b, c] + [d] == [a, b, c, d];
  }

  lemma NoSteps(o: Options, source: Source)
    ensures Run(o, source, []) == Begin(o)
  {
  }

  lemma OneMoreStep(o: Options, source: Source, steps: seq<Step>, step: Step)
    ensures Run(o, source, steps + [step]) == Next(o, source, Run(o, source, steps), step)
  {
    assert (steps + [step])[..|steps|] == steps;
  }

  /** onBufferedBytes reports the queue; after a cancel, when nothing is buffered, it reports the whole limit. */
  lemma BufferedBytesReport(o: Options, source: Source, s: State, b: Block)
    requires Valid(o, source, Holding(s, b))
    ensures var s' := Enqueue(o, s, b); var reports := s'.seen.buffered;
      && |reports| == |s.seen.buffered| + 1
      && reports[|reports| - 1] == (if s.cancelled then o.BufferLimit() else QueueBytes(s'.stream.queue))
  {
    hide FrameBytes, QueueBytes, EventsOf;
  }

  // ---------- The latency of a terminal event ----------

  predicate AnyTerminal(events: seq<RunEvent>) {
    exists i :: 0 <= i < |events| && IsTerminalRunEvent(events[i])
  }

  /** The events the loop has finished enqueueing. */
  function Finished(s: State): seq<RunEvent> {
    var sent := EventsOf(s.stream.enqueued);
    if s.phase.Offered? && s.phase.offered.Event? && sent != [] then sent[..|sent| - 1] else sent
  }

  /** The close latency is reported exactly when a stream that had a terminal event is closed. */
  ghost predicate LatencyFits(source: Source, s: State) {
    && (!s.cancelled && !s.phase.Settled? ==>
          (s.terminalEnqueuedAt.Some? <==> AnyTerminal(Finished(s))) && s.seen.latencies == [])
    && (!s.cancelled && s.phase.Settled? ==>
          |s.seen.latencies| == (if s.stream.error.None? && AnyTerminal(source.events) then 1 else 0))
    && (s.phase.Offered? && s.phase.offered.Event? && !s.cancelled ==>
          var sent := EventsOf(s.stream.enqueued); sent != [] && sent[|sent| - 1] == s.phase.offered.event)
  }

  lemma AnyTerminalOneMore(events: seq<RunEvent>, e: RunEvent)
    ensures AnyTerminal(events + [e]) <==> AnyTerminal(events) || IsTerminalRunEvent(e)
  {
    if AnyTerminal(events) {
      var i :| 0 <= i < |events| && IsTerminalRunEvent(events[i]);
      assert (events + [e])[i] == events[i];
    }
    assert (events + [e])[|events|] == e;
  }

  lemma LatencyOfEnqueue(o: Options, source: Source, s: State, b: Block)
    requires LatencyFits(source, Holding(s, b))
    ensures LatencyFits(source, Enqueue(o, s, b))
  {
    hide QueueBytes, EventsOf, AnyTerminal;
    EventsOfOne(s.stream.enqueued, b);
    var sent := EventsOf(s.stream.enqueued);
    if b.Event? {
      assert (sent + [b.event])[..|sent|] == sent;
    } else {
      assert sent + [] == sent;
    }
  }

  lemma LatencyOfOffer(o: Options, source: Source, s: State, b: Block)
    requires LatencyFits(source, Holding(s, b))
    ensures LatencyFits(source, Offer(o, s, b))
  {
    hide QueueBytes, EventsOf, AnyTerminal, Enqueue;
    LatencyOfEnqueue(o, source, s, b);
  }

  lemma LatencyOfSource(o: Options, source: Source, s: State, now: int)
    requires Valid(o, source, s) && LatencyFits(source, s) && s.phase.Awaiting?
    ensures LatencyFits(source, OnSource(o, source, s, now))
  {
    hide QueueBytes, EventsOf, AnyTerminal, FrameBytes, Offer;
    AwaitingCounts(o, source, s);
    if s.answered < |source.events| {
      LatencyOfOffer(o, source, s.(answered := s.answered + 1), Event(source.events[s.answered]));
    }
  }

  lemma LatencyAfterOffer(o: Options, source: Source, s: State, b: Block, now: int)
    requires Valid(o, source, s) && LatencyFits(source, s) && s.phase == Offered(b)
    ensures LatencyFits(source, AfterOffer(s, b, now))
  {
    hide QueueBytes, EventsOf, AnyTerminal, FrameBytes, IsTerminalRunEvent, InOrder, OneOutstanding, Conserved,
      QueueBounded,
      ClosedAtEnd, FramesFit, RetryFirst;
    var sent := EventsOf(s.stream.enqueued);
    if b.Event? && !s.cancelled {
      AnyTerminalOneMore(sent[..|sent| - 1], b.event);
      assert sent[..|sent| - 1] + [b.event] == sent;
    }
  }

  lemma LatencyOfContinue(o: Options, source: Source, s: State, now: int)
    requires Valid(o, source, s) && LatencyFits(source, s)
    ensures LatencyFits(source, OnContinue(o, s, now))
  {
    hide QueueBytes, EventsOf, AnyTerminal, FrameBytes, Enqueue, AfterOffer, InOrder, OneOutstanding, Conserved,
      QueueBounded,
      ClosedAtEnd, FramesFit, RetryFirst;
    match s.phase
    case Offered(b) => LatencyAfterOffer(o, source, s, b, now);
    case Waiting(b, Resumed) => LatencyOfEnqueue(o, source, s, b);
    case _ =>
  }

  lemma LatencyOfNext(o: Options, source: Source, s: State, step: Step)
    requires Valid(o, source, s) && LatencyFits(source, s)
    ensures LatencyFits(source, Next(o, source, s, step))
  {
    hide QueueBytes, EventsOf, AnyTerminal, FrameBytes, OnSource, OnContinue, Offer;
    match step
    case SourceReady(at) => if s.phase.Awaiting? { LatencyOfSource(o, source, s, at); }
    case HeartbeatFires => if s.phase.Awaiting? { LatencyOfOffer(o, source, s, Heartbeat); }
    case Continue(now) => LatencyOfContinue(o, source, s, now);
    case _ =>
  }

  lemma {:induction false} LatencyOfRun(o: Options, source: Source, steps: seq<Step>)
    ensures LatencyFits(source, Run(o, source, steps))
  {
    hide Valid, Next, LatencyFits;
    LatencyOfBegin(o, source);
    if steps != [] {
      var earlier, last := steps[..|steps| - 1], steps[|steps| - 1];
      LatencyOfRun(o, source, earlier);
      RunKeeps(o, source, earlier);
      LatencyOfNext(o, source, Run(o, source, earlier), last);
      OneMoreStep(o, source, earlier, last);
      assert steps == earlier + [last];
    } else {
      NoSteps(o, source);
    }
  }

  lemma LatencyOfBegin(o: Options, source: Source)
    ensures LatencyFits(source, Begin(o))
  {
    hide FrameBytes;
    assert EventsOf([]) == [];
    if o.retryMs.Some? {
      BeginsWithRetry(o);
      hide Begin, EventsOf;
    }
  }

  /** A close latency is reported once, exactly when a stream that carried a terminal event is closed. */
  lemma TerminalLatencyIsReported(o: Options, source: Source, steps: seq<Step>)
    requires !Run(o, source, steps).cancelled
    ensures var s := Run(o, source, steps);
      |s.seen.latencies| ==
      if s.phase.Settled? && s.stream.error.None? && AnyTerminal(source.events) then 1 else 0
  {
    hide Run, AnyTerminal, EventsOf;
    LatencyOfRun(o, source, steps);
  }
}
