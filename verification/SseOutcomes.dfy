/**
 How the delivery loop of packages/ai-runtime/src/sse.ts ends, and that it can: what each error of
 a stream was caused by, which streams close, how reads are served, and when the loop waits.
 */
module SseOutcomes {
  import opened Wrappers
  import opened Text
  import opened RunEvents
  import opened Sse
  import opened SseDelivery

  // ---------- Why a stream ended ----------

  /** The source's last answer so far was an event whose frame is too large. */
  predicate LastIsTooLarge(o: Options, source: Source, answered: nat) {
    0 < answered <= |source.events| && FrameBytes(Event(source.events[answered - 1])) > o.EventLimit()
  }

  /** Every ending of a stream nobody cancelled has its own cause. */
  ghost predicate Caused(o: Options, source: Source, s: State) {
    s.phase.Settled? && !s.cancelled ==>
      var n := |source.events|;
      match s.stream.error
      case None => s.answered == n + 1 && !source.throws
      case Some(SourceFailed) => s.answered == n + 1 && source.throws
      case Some(EventTooLarge) => s.seen.drops == 0 && LastIsTooLarge(o, source, s.answered)
      case Some(SlowConsumer) => s.seen.drops == 1 && s.answered <= n
  }

  lemma FailIsCaused(o: Options, source: Source, s: State, error: DeliveryError)
    requires s.seen.drops == 0
    requires error.SlowConsumer? ==> s.answered <= |source.events|
    requires error.SourceFailed? ==> s.answered == |source.events| + 1 && source.throws
    requires error.EventTooLarge? ==> LastIsTooLarge(o, source, s.answered)
    ensures Caused(o, source, Fail(s, error))
  {
    hide LastIsTooLarge;
  }

  lemma OfferIsCaused(o: Options, source: Source, s: State, b: Block)
    ensures Caused(o, source, Offer(o, s, b)) && Caused(o, source, Enqueue(o, s, b))
  {
    hide QueueBytes;
  }

  lemma SourceIsCaused(o: Options, source: Source, s: State, now: int)
    requires Valid(o, source, s) && s.phase.Awaiting?
    ensures Caused(o, source, OnSource(o, source, s, now))
  {
    hide EventsOf, QueueBytes, FrameBytes, Fail, Offer;
    var s1, n := s.(answered := s.answered + 1), |source.events|;
    if s.answered < n {
      var b := Event(source.events[s.answered]);
      OfferIsCaused(o, source, s1, b);
      if FrameBytes(b) > o.EventLimit() {
        FailIsCaused(o, source, s1, EventTooLarge);
      }
    } else if source.throws {
      FailIsCaused(o, source, s1, SourceFailed);
    }
  }

  lemma ContinueIsCaused(o: Options, source: Source, s: State, now: int)
    requires Valid(o, source, s) && Caused(o, source, s)
    ensures Caused(o, source, OnContinue(o, s, now))
  {
    hide EventsOf, QueueBytes, FrameBytes, Fail, Enqueue;
    match s.phase
    case Offered(b) =>
    case Waiting(b, Resumed) => OfferIsCaused(o, source, s, b);
    case Waiting(b, TimedOut) =>
      var failures := if b.Heartbeat? then s.seen.heartbeatFailures + 1 else s.seen.heartbeatFailures;
      FailIsCaused(o, source, s.(seen := s.seen.(heartbeatFailures := failures)), SlowConsumer);
    case _ =>
  }

  lemma NextIsCaused(o: Options, source: Source, s: State, step: Step)
    requires Valid(o, source, s) && Caused(o, source, s)
    ensures Caused(o, source, Next(o, source, s, step))
  {
    hide EventsOf, QueueBytes, FrameBytes, OnSource, OnContinue, Offer;
    match step
    case SourceReady(at) => if s.phase.Awaiting? { SourceIsCaused(o, source, s, at); }
    case HeartbeatFires => OfferIsCaused(o, source, s, Heartbeat);
    case Continue(now) => ContinueIsCaused(o, source, s, now);
    case _ =>
  }

  lemma {:induction false} RunIsCaused(o: Options, source: Source, steps: seq<Step>)
    ensures Caused(o, source, Run(o, source, steps))
  {
    hide Valid, Caused, Next;
    if steps == [] {
      BeginIsCaused(o, source);
    } else {
      RunKeeps(o, source, steps[..|steps| - 1]);
      RunIsCaused(o, source, steps[..|steps| - 1]);
      NextIsCaused(o, source, Run(o, source, steps[..|steps| - 1]), steps[|steps| - 1]);
    }
  }

  lemma BeginIsCaused(o: Options, source: Source)
    ensures Caused(o, source, Begin(o))
  {
    hide QueueBytes;
  }

  /** A stream errors with `SourceFailed` only over a source that throws; every other error has its reason, too. */
  lemma ErrorsHaveCauses(o: Options, source: Source, steps: seq<Step>)
    ensures var s := Run(o, source, steps); var n := |source.events|;
      && (s.stream.error == Some(SourceFailed) ==> source.throws && s.answered == n + 1)
      && (s.stream.error == Some(EventTooLarge) ==> LastIsTooLarge(o, source, s.answered))
      && (s.stream.error == Some(SlowConsumer) ==> s.seen.drops == 1)
      && (s.stream.error.Some? ==> s.phase.Settled? && !s.cancelled)
  {
    hide Run, EventsOf, QueueBytes, LastIsTooLarge;
    RunKeeps(o, source, steps);
    RunIsCaused(o, source, steps);
  }

  ghost predicate AllFit(o: Options, source: Source) {
    forall i :: 0 <= i < |source.events| ==> FrameBytes(Event(source.events[i])) <= o.EventLimit()
  }

  /**
   A loop that has ended, without a cancel and without a drop, over a source that does not throw and
   whose frames all fit, has closed its stream; the stream has enqueued the whole source.
   */
  lemma FaultlessStreamsClose(o: Options, source: Source, steps: seq<Step>)
    requires var s := Run(o, source, steps); s.phase.Settled? && !s.cancelled && s.seen.drops == 0
    requires !source.throws && AllFit(o, source)
    ensures var s := Run(o, source, steps);
      && s.stream.error.None? && (s.stream.status.Closing? || s.stream.status.Closed?)
      && EventsOf(s.stream.enqueued) == source.events
  {
    hide Run, EventsOf, QueueBytes, FrameBytes;
    RunKeeps(o, source, steps);
    RunIsCaused(o, source, steps);
  }

  // ---------- Drops come from timers ----------

  predicate NoTimeout(steps: seq<Step>) {
    forall i :: 0 <= i < |steps| ==> !steps[i].CapacityTimeout?
  }

  ghost predicate NeverTimedOut(s: State) {
    s.seen.drops == 0 && !(s.phase.Waiting? && s.phase.fate.TimedOut?)
  }

  lemma UntimedStep(o: Options, source: Source, s: State, step: Step)
    requires NeverTimedOut(s) && !step.CapacityTimeout?
    ensures NeverTimedOut(Next(o, source, s, step))
  {
    hide EventsOf, QueueBytes, FrameBytes;
  }

  /** Nothing is dropped unless the timer of a wait fires. */
  lemma {:induction false} DropsComeFromTimers(o: Options, source: Source, steps: seq<Step>)
    requires NoTimeout(steps)
    ensures NeverTimedOut(Run(o, source, steps))
  {
    hide Next, NeverTimedOut;
    if steps == [] {
      BeginNeverTimedOut(o);
    } else {
      DropsComeFromTimers(o, source, steps[..|steps| - 1]);
      UntimedStep(o, source, Run(o, source, steps[..|steps| - 1]), steps[|steps| - 1]);
    }
  }

  lemma BeginNeverTimedOut(o: Options)
    ensures NeverTimedOut(Begin(o))
  {
    hide QueueBytes;
  }

  // ---------- Reads are served ----------

  function Reads(steps: seq<Step>): nat {
    if steps == [] then 0 else Reads(steps[..|steps| - 1]) + if steps[|steps| - 1].ConsumerReads? then 1 else 0
  }

  /** While a stream is open, every read so far has been served with a frame or still waits for one. */
  ghost predicate Served(s: State, count: nat) {
    && |s.stream.delivered| <= count
    && (s.stream.status.Readable? || s.stream.status.Closing? ==> |s.stream.delivered| + s.stream.waitingReads == count)
  }

  lemma ReadIsServed(o: Options, source: Source, s: State, step: Step, count: nat)
    requires Valid(o, source, s) && Served(s, count)
    ensures Served(Next(o, source, s, step), if step.ConsumerReads? then count + 1 else count)
  {
    hide EventsOf, QueueBytes, FrameBytes, InOrder, OneOutstanding, QueueBounded, CallbacksFit, ClosedAtEnd, FramesFit,
      RetryFirst;
  }

  lemma {:induction false} ReadsAreServed(o: Options, source: Source, steps: seq<Step>)
    ensures Served(Run(o, source, steps), Reads(steps))
  {
    hide Valid, Next, Served;
    if steps == [] {
      BeginServes(o);
    } else {
      var init := steps[..|steps| - 1];
      RunKeeps(o, source, init);
      ReadsAreServed(o, source, init);
      ReadIsServed(o, source, Run(o, source, init), steps[|steps| - 1], Reads(init));
    }
  }

  lemma BeginServes(o: Options)
    ensures Served(Begin(o), 0)
  {
    hide QueueBytes, FrameBytes;
  }

  /** An open stream has handed out, from the front, as many frames as were asked for and there are. */
  lemma ConsumerGetsWhatItAsksFor(o: Options, source: Source, steps: seq<Step>)
    ensures var st := Run(o, source, steps).stream;
      st.status.Readable? || st.status.Closing? ==>
        st.delivered == st.enqueued[..if Reads(steps) <= |st.enqueued| then Reads(steps) else |st.enqueued|]
  {
    hide Run, EventsOf, QueueBytes, FrameBytes;
    RunKeeps(o, source, steps);
    ReadsAreServed(o, source, steps);
  }

  // ---------- When the loop waits ----------

  /** Room for more: fewer bytes are queued than the limit. */
  ghost predicate HasRoom(o: Options, s: State) {
    QueueBytes(s.stream.queue) < o.BufferLimit()
  }

  /** The frame the loop has in hand next: the source's event, if it fits, or a heartbeat. */
  function InHand(o: Options, source: Source, s: State, step: Step): Option<Block> {
    if !s.phase.Awaiting? then None
    else if step.SourceReady? && s.answered < |source.events|
            && FrameBytes(Event(source.events[s.answered])) <= o.EventLimit()
    then Some(Event(source.events[s.answered]))
    else if step.HeartbeatFires? && o.heartbeats then Some(Heartbeat)
    else None
  }

  /** With room the frame in hand is enqueued at once; without, the loop waits with it and nothing else changes. */
  lemma FramesAreEnqueuedWithRoom(o: Options, source: Source, s: State, step: Step)
    requires Valid(o, source, s) && !s.cancelled && InHand(o, source, s, step).Some?
    ensures var s', b := Next(o, source, s, step), InHand(o, source, s, step).value;
      if HasRoom(o, s) then s'.phase == Offered(b) && s'.stream.enqueued == s.stream.enqueued + [b]
      else s'.phase == Waiting(b, Undecided) && s'.stream == s.stream
  {
    hide EventsOf, QueueBytes, FrameBytes, InOrder, OneOutstanding, QueueBounded, CallbacksFit, ClosedAtEnd, FramesFit,
      RetryFirst;
  }

  /** A waiting loop is resumed by the first pull that finds room, and then enqueues its frame. */
  lemma PullResumes(o: Options, source: Source, s: State, now: int)
    requires Valid(o, source, s) && !s.cancelled && HasRoom(o, s)
    requires s.phase.Waiting? && s.phase.fate.Undecided?
    ensures var s1 := Next(o, source, s, Pull); var s2 := Next(o, source, s1, Continue(now)); var b := s.phase.frame;
      s1.stream == s.stream && s2.phase == Offered(b) && s2.stream.enqueued == s.stream.enqueued + [b]
  {
    hide EventsOf, QueueBytes, FrameBytes, InOrder, OneOutstanding, QueueBounded, CallbacksFit, ClosedAtEnd, FramesFit,
      RetryFirst;
  }

  /** A wait whose timer fires first drops the stream: its error, its report, and the heartbeat's when it was one. */
  lemma TimeoutDrops(o: Options, source: Source, s: State, now: int)
    requires Valid(o, source, s) && !s.cancelled && s.phase.Waiting? && s.phase.fate.Undecided?
    ensures var s' := Next(o, source, Next(o, source, s, CapacityTimeout), Continue(now));
      && s'.phase.Settled? && s'.stream.error == Some(SlowConsumer) && s'.stream.queue == []
      && s'.seen.drops == s.seen.drops + 1 && s'.seen.closes == 1
      && s'.seen.heartbeatFailures == s.seen.heartbeatFailures + (if s.phase.frame.Heartbeat? then 1 else 0)
  {
    hide EventsOf, QueueBytes, FrameBytes, InOrder, OneOutstanding, QueueBounded, ClosedAtEnd, FramesFit, RetryFirst;
  }

  /** The close latency runs from the terminal event's enqueueing to the source's end. */
  lemma LatencyIsMeasured(o: Options, source: Source, s: State, now: int, at: int)
    requires Valid(o, source, s) && !s.cancelled && s.phase.Offered? && s.phase.offered.Event?
    requires IsTerminalRunEvent(s.phase.offered.event) && s.answered == |source.events| && !source.throws
    ensures var s' := Next(o, source, Next(o, source, s, Continue(now)), SourceReady(at));
      s'.seen.latencies == s.seen.latencies + [if at >= now then at - now else 0]
  {
    hide EventsOf, QueueBytes, FrameBytes, InOrder, OneOutstanding, QueueBounded, CallbacksFit, ClosedAtEnd, FramesFit,
      RetryFirst, ClosedAfterUse;
  }

  /** A cancel is passed on, and the close is observed when the iterator has returned. */
  lemma CancelClosesOnce(o: Options, source: Source, s: State)
    requires Valid(o, source, s) && !s.phase.Settled? && !s.cancelled
    ensures var s1 := Next(o, source, s, Cancel);
      && s1.cancelled && s1.returning && s1.stream.status.Closed? && s1.stream.queue == []
      && s1.stream.delivered == s.stream.delivered
      && Next(o, source, s1, ReturnSettles(true)).seen.closes == 1
      && Next(o, source, s1, ReturnSettles(false)).seen.closes == s.seen.closes
  {
    hide EventsOf, QueueBytes, FrameBytes, InOrder, OneOutstanding, QueueBounded, ClosedAtEnd, FramesFit, RetryFirst;
  }

  // ---------- A stream can always be finished ----------

  /** Nothing is wrong with the source, and no wait has been given up. */
  ghost predicate MayFinish(o: Options, source: Source, s: State) {
    && Valid(o, source, s) && !source.throws && AllFit(o, source)
    && !s.cancelled && !(s.phase.Waiting? && s.phase.fate.TimedOut?) && s.seen.drops == 0
  }

  /** Closed, with every event of the source delivered. */
  ghost predicate FinishedWell(source: Source, s: State) {
    && s.phase.Settled? && s.stream.status.Closed? && s.stream.error.None? && s.seen.drops == 0
    && EventsOf(s.stream.delivered) == source.events
  }

  predicate NoPull(steps: seq<Step>) {
    forall i :: 0 <= i < |steps| ==> !steps[i].Pull?
  }

  lemma Then(o: Options, source: Source, s: State, step: Step, steps: seq<Step>)
    ensures RunFrom(o, source, s, [step] + steps) == RunFrom(o, source, Next(o, source, s, step), steps)
  {
    hide Next;
    RunFromSplit(o, source, s, [step], steps);
    assert [step][..0] == [];
    assert RunFrom(o, source, s, []) == s;
  }

  /** What reading does: nothing but empty the queue. */
  lemma Reading(o: Options, source: Source, s: State)
    requires Valid(o, source, s) && s.stream.queue != []
    ensures var s' := Next(o, source, s, ConsumerReads);
      && s' == s.(stream := s'.stream) && s'.stream.queue == s.stream.queue[1..]
      && s'.stream.enqueued == s.stream.enqueued && s'.stream.error == s.stream.error
      && (s.stream.status.Readable? ==> s'.stream.status.Readable?)
      && (s.stream.status.Closing? ==>
            if s'.stream.queue == [] then s'.stream.status.Closed? else s'.stream.status.Closing?)
  {
    hide EventsOf, QueueBytes, FrameBytes;
  }

  /** A stream that is closing is read to its end. */
  lemma {:induction false} Drain(o: Options, source: Source, s: State) returns (steps: seq<Step>)
    requires Valid(o, source, s) && !s.cancelled && s.phase.Settled? && s.seen.drops == 0
    requires s.stream.status.Closing? || s.stream.status.Closed?
    ensures FinishedWell(source, RunFrom(o, source, s, steps)) && NoPull(steps)
    decreases |s.stream.queue|
  {
    if s.stream.status.Closed? {
      steps := [];
      ClosedIsFinished(o, source, s);
    } else {
      var s' := Next(o, source, s, ConsumerReads);
      Reading(o, source, s);
      NextKeeps(o, source, s, ConsumerReads);
      hide Valid, Next, FinishedWell;
      var rest := Drain(o, source, s');
      steps := [ConsumerReads] + rest;
      Then(o, source, s, ConsumerReads, rest);
    }
  }

  lemma ClosedIsFinished(o: Options, source: Source, s: State)
    requires Valid(o, source, s) && !s.cancelled && s.phase.Settled? && s.stream.status.Closed? && s.seen.drops == 0
    ensures FinishedWell(source, s)
  {
    hide EventsOf, QueueBytes, FrameBytes;
  }

  /** How far the loop's phase is from asking the source again. */
  function Rank(p: Phase): nat {
    match p
    case Settled => 0
    case Awaiting => 1
    case Offered(_) => 2
    case Waiting(_, fate) => if fate.Resumed? then 3 else 4
  }

  /** The step that brings an unfinished loop on: read before the source is heard, and let it go on. */
  function NextStep(o: Options, s: State): Step {
    match s.phase
    case Awaiting => if s.stream.queue != [] then ConsumerReads else SourceReady(0)
    case Waiting(_, Undecided) => if QueueBytes(s.stream.queue) < o.BufferLimit() then Pull else ConsumerReads
    case _ => Continue(0)
  }

  ghost predicate GoesOnTo(source: Source, s: State, s': State) {
    || s'.answered == s.answered + 1
    || (s'.answered == s.answered && Rank(s'.phase) < Rank(s.phase))
    || (s'.answered == s.answered && Rank(s'.phase) == Rank(s.phase) && |s'.stream.queue| < |s.stream.queue|)
  }

  lemma WaitingGoesOn(o: Options, source: Source, s: State)
    requires MayFinish(o, source, s) && s.phase.Waiting?
    ensures var s' := Next(o, source, s, NextStep(o, s));
      GoesOnTo(source, s, s') && !s'.cancelled && !(s'.phase.Waiting? && s'.phase.fate.TimedOut?)
      && s'.seen.drops == 0 && !s'.phase.Settled?
  {
    hide EventsOf, FrameBytes, InOrder, OneOutstanding, QueueBounded, ClosedAtEnd, FramesFit, RetryFirst, AllFit;
    if s.stream.queue == [] {
      assert QueueBytes(s.stream.queue) == 0;
    }
  }

  lemma OfferedGoesOn(o: Options, source: Source, s: State)
    requires MayFinish(o, source, s) && s.phase.Offered?
    ensures var s' := Next(o, source, s, NextStep(o, s));
      GoesOnTo(source, s, s') && !s'.cancelled && s'.phase.Awaiting? && s'.seen.drops == 0
  {
    hide EventsOf, FrameBytes, QueueBytes, InOrder, OneOutstanding, QueueBounded, ClosedAtEnd, FramesFit, RetryFirst,
      AllFit;
  }

  lemma AwaitingGoesOn(o: Options, source: Source, s: State)
    requires MayFinish(o, source, s) && s.phase.Awaiting?
    ensures var s' := Next(o, source, s, NextStep(o, s));
      && GoesOnTo(source, s, s') && !s'.cancelled && s'.seen.drops == 0 && !s'.phase.Waiting?
      && s.answered <= |source.events|
      && (s'.phase.Settled? ==> s'.stream.status.Closing? || s'.stream.status.Closed?)
  {
    if s.stream.queue != [] {
      Reading(o, source, s);
      hide Next, Valid, AllFit;
      UnfinishedCounts(o, source, s);
    } else {
      assert QueueBytes(s.stream.queue) == 0;
      hide EventsOf, FrameBytes, QueueBytes, QueueBounded, ClosedAtEnd, FramesFit, RetryFirst, Conserved;
    }
  }

  lemma UnfinishedCounts(o: Options, source: Source, s: State)
    requires Valid(o, source, s) && !s.phase.Settled?
    ensures s.answered <= |source.events|
  {
    hide EventsOf, FrameBytes, QueueBytes, QueueBounded, ClosedAtEnd, FramesFit, RetryFirst, Conserved;
  }

  lemma GoesOn(o: Options, source: Source, s: State)
    requires MayFinish(o, source, s) && !s.phase.Settled?
    ensures var s' := Next(o, source, s, NextStep(o, s));
      && MayFinish(o, source, s') && GoesOnTo(source, s, s') && s.answered <= |source.events|
      && (!s.phase.Waiting? ==> !s'.phase.Waiting? && !NextStep(o, s).Pull?)
      && (s'.phase.Settled? ==> s'.stream.status.Closing? || s'.stream.status.Closed?)
  {
    UnfinishedCounts(o, source, s);
    NextKeeps(o, source, s, NextStep(o, s));
    match s.phase
    case Awaiting => AwaitingGoesOn(o, source, s);
    case Offered(_) => OfferedGoesOn(o, source, s);
    case Waiting(_, _) => WaitingGoesOn(o, source, s);
    case Settled =>
    hide Valid, Next, NextStep, AllFit, GoesOnTo;
  }

  /** From any state that may finish, these further steps finish it. */
  lemma {:induction false} FinishFrom(o: Options, source: Source, s: State) returns (steps: seq<Step>)
    requires MayFinish(o, source, s) && (s.phase.Settled? ==> s.stream.status.Closing? || s.stream.status.Closed?)
    ensures FinishedWell(source, RunFrom(o, source, s, steps))
    ensures !s.phase.Waiting? ==> NoPull(steps)
    decreases |source.events| + 1 - s.answered, Rank(s.phase), |s.stream.queue|
  {
    if s.phase.Settled? {
      steps := Drain(o, source, s);
    } else {
      var step := NextStep(o, s);
      var s' := Next(o, source, s, step);
      GoesOn(o, source, s);
      hide Valid, Next, NextStep, FinishedWell, AllFit;
      var rest := FinishFrom(o, source, s');
      steps := [step] + rest;
      Then(o, source, s, step, rest);
    }
  }

  /**
   Whatever has happened so far, short of a cancel or a timed-out wait, the consumer can read a
   well-behaved source to its end: some further steps close the stream with every event delivered.
   Unless the loop already waits for capacity, that takes no pull.
   */
  lemma EveryStreamCanFinish(o: Options, source: Source, steps: seq<Step>) returns (more: seq<Step>)
    requires !source.throws && AllFit(o, source) && NoTimeout(steps) && !Run(o, source, steps).cancelled
    ensures FinishedWell(source, Run(o, source, steps + more))
    ensures !Run(o, source, steps).phase.Waiting? ==> NoPull(more)
  {
    hide Valid, Next, AllFit, FinishedWell, Begin;
    var s := Run(o, source, steps);
    RunKeeps(o, source, steps);
    DropsComeFromTimers(o, source, steps);
    if s.phase.Settled? {
      FaultlessStreamsClose(o, source, steps);
    }
    more := FinishFrom(o, source, s);
    RunFromSplit(o, source, Begin(o), steps, more);
  }

  /** One event, read: the stream closes with it delivered. */
  lemma OneEventIsDelivered(o: Options, e: RunEvent)
    requires o.retryMs.None? && FrameBytes(Event(e)) <= o.EventLimit()
    ensures var s := Run(o, Source([e], false), [SourceReady(1), Continue(2), ConsumerReads, SourceReady(3)]);
      s.phase.Settled? && s.stream.status.Closed? && s.stream.error.None? && s.stream.delivered == [Event(e)]
  {
    var source := Source([e], false);
    FourSteps(o, source, SourceReady(1), Continue(2), ConsumerReads, SourceReady(3));
    hide FrameBytes, Next, Run;
    var s1 := Next(o, source, Begin(o), SourceReady(1));
    OneEventEnqueued(o, e);
    var s2 := Next(o, source, s1, Continue(2));
    OneEventRead(o, e, s1);
    OneEventClosed(o, e, Next(o, source, s2, ConsumerReads));
  }

  lemma OneEventEnqueued(o: Options, e: RunEvent)
    requires o.retryMs.None? && FrameBytes(Event(e)) <= o.EventLimit()
    ensures var s := Next(o, Source([e], false), Begin(o), SourceReady(1));
      s.phase == Offered(Event(e)) && s.answered == 1 && !s.cancelled
      && s.stream == UNREAD.(queue := [Event(e)], enqueued := [Event(e)])
  {
    hide FrameBytes;
    assert QueueBytes([]) == 0;
    assert [] + [Event(e)] == [Event(e)];
  }

  lemma OneEventRead(o: Options, e: RunEvent, s: State)
    requires s.phase == Offered(Event(e)) && s.answered == 1 && !s.cancelled
    requires s.stream == UNREAD.(queue := [Event(e)], enqueued := [Event(e)])
    ensures var source := Source([e], false);
      var s' := Next(o, source, Next(o, source, s, Continue(2)), ConsumerReads);
      s'.phase == Awaiting && s'.answered == 1 && !s'.cancelled
      && s'.stream == UNREAD.(enqueued := [Event(e)], delivered := [Event(e)])
  {
    hide FrameBytes, QueueBytes;
    assert [] + [Event(e)] == [Event(e)];
  }

  lemma OneEventClosed(o: Options, e: RunEvent, s: State)
    requires s.phase == Awaiting && s.answered == 1 && !s.cancelled
    requires s.stream == UNREAD.(enqueued := [Event(e)], delivered := [Event(e)])
    ensures var s' := Next(o, Source([e], false), s, SourceReady(3));
      s'.phase.Settled? && s'.stream.status.Closed? && s'.stream.error.None? && s'.stream.delivered == [Event(e)]
  {
    hide FrameBytes, QueueBytes;
  }

  /** Without configured limits 255,999 bytes are queued before the last frame, and no event is over a million. */
  lemma DefaultLimits(o: Options, source: Source, steps: seq<Step>)
    requires o.maxBufferedBytes.None? && o.maxEventBytes.None?
    ensures var s := Run(o, source, steps); var queue := s.stream.queue;
      && (queue != [] ==> QueueBytes(queue) <= 255_999 + FrameBytes(queue[|queue| - 1]))
      && forall i :: 0 <= i < |s.stream.enqueued| && s.stream.enqueued[i].Event? ==>
           FrameBytes(s.stream.enqueued[i]) <= 1_000_000
  {
    hide Run, FrameBytes, QueueBytes;
    QueueStaysBounded(o, source, steps);
  }
}
