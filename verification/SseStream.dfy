/**
 `createSseStream` of packages/ai-runtime/src/sse.ts in its own form. The controller holds
 encoded chunks and a running total of their sizes, like a queue with sizes of the WHATWG
 Streams Standard, and the loop holds an encoded chunk and what it is for. Both are proved to
 follow the steps of `SseDelivery`, which speaks of events and of sums over the queue.
 */
module SseStream {
  import opened Wrappers
  import opened Text
  import opened Json
  import opened RunEvents
  import opened Sse
  import opened SseDelivery

  // ---------- The controller ----------

  /** An entry of a queue with sizes. */
  datatype Chunk = Chunk(text: string, size: nat)

  function Encoded(frames: seq<Block>): (chunks: seq<Chunk>)
    ensures |chunks| == |frames|
  {
    seq(|frames|, i requires 0 <= i < |frames| => Chunk(PrintBlock(frames[i]), FrameBytes(frames[i])))
  }

  lemma {:induction false} PrintAppends(frames: seq<Block>, b: Block)
    ensures Print(frames + [b]) == Print(frames) + PrintBlock(b)
  {
    hide PrintBlock;
    if frames == [] {
      assert [] + [b] == [b] && [b][1..] == [];
      assert Print([]) == "";
    } else {
      assert (frames + [b])[1..] == frames[1..] + [b];
      PrintAppends(frames[1..], b);
      var first := PrintBlock(frames[0]);
      assert first + (Print(frames[1..]) + PrintBlock(b)) == first + Print(frames[1..]) + PrintBlock(b);
    }
  }

  class Controller {
    const highWaterMark: nat
    var queue: seq<Chunk>
    var queueTotalSize: nat
    var pendingReads: nat
    var status: Status
    var storedError: Option<DeliveryError>
    var received: string        // the text of every chunk a read has been given
    ghost var model: Stream

    /** The encoded queue, its total and the received text are those of the model's frames. */
    ghost predicate Valid()
      reads this
    {
      && status == model.status && storedError == model.error && pendingReads == model.waitingReads
      && queue == Encoded(model.queue)
      && queueTotalSize == QueueBytes(model.queue)
      && received == Print(model.delivered)
    }

    constructor (highWaterMark: nat)
      ensures Valid() && model == UNREAD && this.highWaterMark == highWaterMark
    {
      this.highWaterMark := highWaterMark;
      queue, queueTotalSize, pendingReads, status, storedError := [], 0, 0, Readable, None;
      received := "";
      model := UNREAD;
    }

    /** `desiredSize`, from the running total alone. */
    method DesiredSizeNow(ghost o: Options) returns (desired: Option<int>)
      ensures Valid() && highWaterMark == o.BufferLimit() ==>
                desired == if model.status.Errored? then None else Some(DesiredSize(o, model))
    {
      hide PrintBlock, FrameBytes, QueueBytes, Print;
      desired := if status.Errored? then None
        else if status.Closed? then Some(0) else Some(highWaterMark - queueTotalSize);
    }

    method Enqueue(text: string, ghost b: Block)
      requires Valid() && text == PrintBlock(b)
      modifies this
      ensures Valid() && model == Enqueued(old(model), b)
    {
      hide PrintBlock, Bytes;
      PrintAppends(model.delivered, b);
      assert (model.queue + [b])[..|model.queue|] == model.queue;
      var size := Bytes(text);
      if pendingReads > 0 {
        pendingReads := pendingReads - 1;
        received := received + text;
      } else {
        queue := queue + [Chunk(text, size)];
        queueTotalSize := queueTotalSize + size;
      }
      model := Enqueued(model, b);
      assert queue == Encoded(model.queue);
    }

    method Read()
      requires Valid()
      modifies this
      ensures Valid() && model == ReadFrom(old(model))
    {
      hide PrintBlock, Bytes, FrameBytes, Print;
      if |queue| > 0 {
        DequeueFrees(model.queue);
        PrintAppends(model.delivered, model.queue[0]);
        received := received + queue[0].text;
        queueTotalSize := queueTotalSize - queue[0].size;
        queue := queue[1..];
        if status.Closing? && |queue| == 0 {
          status := Closed;
        }
      } else if status.Readable? {
        pendingReads := pendingReads + 1;
      }
      model := ReadFrom(model);
      assert queue == Encoded(model.queue);
    }

    method Close()
      requires Valid()
      modifies this
      ensures Valid() && model == ClosedAfterUse(old(model))
    {
      hide PrintBlock, FrameBytes, Print, QueueBytes;
      if |queue| == 0 {
        status, pendingReads := Closed, 0;
      } else {
        status := Closing;
      }
      model := ClosedAfterUse(model);
    }

    method Error(error: DeliveryError)
      requires Valid()
      modifies this
      ensures Valid() && model == Erred(old(model), error)
    {
      hide PrintBlock, FrameBytes, Print;
      status, queue, queueTotalSize, pendingReads, storedError := Errored, [], 0, 0, Some(error);
      model := Erred(model, error);
    }

    method Cancel()
      requires Valid()
      modifies this
      ensures Valid() && model == CancelledStream(old(model))
    {
      hide PrintBlock, FrameBytes, Print;
      status, queue, queueTotalSize, pendingReads := Closed, [], 0, 0;
      model := CancelledStream(model);
    }
  }

  // ---------- The loop ----------

  /** What a chunk is for; of an event the loop remembers only whether it is terminal. */
  datatype Purpose = ForRetry | ForHeartbeat | ForEvent(terminal: bool)

  function PurposeOf(b: Block): Purpose {
    match b
    case Event(e) => ForEvent(IsTerminalRunEvent(e))
    case Heartbeat => ForHeartbeat
    case Retry(_) => ForRetry
  }

  /** The await the loop is in. */
  datatype Await =
    | AtSource
    | AtCapacity(text: string, purpose: Purpose, fate: Fate)
    | AtEnqueued(enqueuedFor: Purpose)
    | AtEnd

  predicate Matches(at: Await, phase: Phase) {
    match phase
    case Awaiting => at.AtSource?
    case Waiting(b, fate) => at == AtCapacity(PrintBlock(b), PurposeOf(b), fate)
    case Offered(b) => at == AtEnqueued(PurposeOf(b))
    case Settled => at.AtEnd?
  }

  class EventStream {
    const options: Options
    const source: Source
    const controller: Controller

    var cancelled: bool
    var closeObserved: bool
    var terminalEnqueuedAt: Option<int>
    var at: Await
    var pending: bool            // a call of next() has not settled yet
    var taken: nat               // how many calls have
    var returning: bool
    var seen: Observed
    ghost var model: State

    /** The object and its controller are in the model's state. */
    ghost predicate Ties()
      reads this, controller
    {
      && controller.Valid() && controller.highWaterMark == options.BufferLimit() && model.stream == controller.model
      && cancelled == model.cancelled && closeObserved == model.closeObserved
      && terminalEnqueuedAt == model.terminalEnqueuedAt && Matches(at, model.phase)
      && taken == model.answered && model.asked == taken + (if pending then 1 else 0)
      && returning == model.returning && seen == model.seen
    }

    ghost predicate Valid()
      reads this, controller
    {
      Ties() && SseDelivery.Valid(options, source, model)
    }

    constructor (options: Options, source: Source)
      ensures Valid() && fresh(controller) && this.options == options && this.source == source
      ensures model == Begin(options)
    {
      this.options, this.source := options, source;
      controller := new Controller(options.BufferLimit());
      cancelled, closeObserved, terminalEnqueuedAt := false, false, None;
      at, pending, taken, returning := AtSource, options.retryMs.None?, 0, false;
      seen := Observed(1, 0, 0, 0, [], []);
      model := State(Awaiting, false, false, None, if options.retryMs.None? then 1 else 0, 0, false, UNREAD,
                     Observed(1, 0, 0, 0, [], []));
      new;
      hide PrintBlock, FrameBytes, QueueBytes, Offer;
      if options.retryMs.Some? {
        ghost var retry := Retry(Max(0, options.retryMs.value));
        EnqueueBounded("retry: " + Decimal(Max(0, options.retryMs.value)) + "\n\n", ForRetry, retry);
      }
      BeginKeeps(options, source);
    }

    method ObserveCloseOnce()
      requires Ties()
      modifies this`closeObserved, this`seen, this`model
      ensures Ties() && model == ObserveClose(old(model))
    {
      if !closeObserved {
        closeObserved := true;
        seen := seen.(closes := seen.closes + 1);
      }
      model := ObserveClose(model);
    }

    /** The end of start. */
    method SettleStart()
      requires Ties()
      modifies this`at, this`closeObserved, this`seen, this`model
      ensures Ties() && model == Settle(old(model))
    {
      at := AtEnd;
      model := model.(phase := Settled);
      ObserveCloseOnce();
    }

    /** controller.enqueue unless the stream was cancelled, and the report of what is buffered. */
    method EnqueueNow(text: string, purpose: Purpose, ghost b: Block)
      requires Ties() && text == PrintBlock(b) && purpose == PurposeOf(b)
      modifies this`at, this`seen, this`model, controller
      ensures Ties() && model == SseDelivery.Enqueue(options, old(model), b)
    {
      hide PrintBlock, QueueBytes, PurposeOf;
      if !cancelled {
        controller.Enqueue(text, b);
      }
      var desired := controller.DesiredSizeNow(options);
      if desired.Some? {
        seen := seen.(buffered := seen.buffered + [Max(0, options.BufferLimit() - desired.value)]);
      }
      at := AtEnqueued(purpose);
      model := SseDelivery.Enqueue(options, model, b);
    }

    /** enqueueBounded: without capacity (none at all once errored) the chunk waits. */
    method EnqueueBounded(text: string, purpose: Purpose, ghost b: Block)
      requires Ties() && text == PrintBlock(b) && purpose == PurposeOf(b)
      modifies this`at, this`seen, this`model, controller
      ensures Ties() && model == Offer(options, old(model), b)
    {
      hide PrintBlock, QueueBytes, PurposeOf;
      var desired := controller.DesiredSizeNow(options);
      if desired.GetOr(0) <= 0 {
        at := AtCapacity(text, purpose, Undecided);
        model := Offer(options, model, b);
      } else {
        EnqueueNow(text, purpose, b);
      }
    }

    method FailWith(failure: DeliveryError)
      requires Ties()
      modifies this`at, this`seen, this`closeObserved, this`model, controller
      ensures Ties() && model == Fail(old(model), failure)
    {
      hide PrintBlock, QueueBytes;
      if failure.SlowConsumer? {
        seen := seen.(drops := seen.drops + 1);
        model := model.(seen := seen);
      }
      if !cancelled {
        controller.Error(failure);
        model := model.(stream := controller.model);
      }
      SettleStart();
    }

    /** After the loop: controller.close() unless the stream was cancelled. */
    method Finish(now: int)
      requires Ties()
      modifies this`at, this`seen, this`closeObserved, this`model, controller
      ensures Ties() && model == LeaveLoop(old(model), now)
    {
      hide PrintBlock, QueueBytes;
      if !cancelled {
        controller.Close();
        if terminalEnqueuedAt.Some? {
          seen := seen.(latencies := seen.latencies + [Max(0, now - terminalEnqueuedAt.value)]);
        }
        model := model.(stream := controller.model, seen := seen);
      }
      SettleStart();
    }

    /** The outstanding next() has settled: its event is encoded and measured. */
    method ReceiveResult(now: int)
      requires Ties() && at.AtSource? && pending
      modifies this, controller
      ensures Ties() && model == OnSource(options, source, old(model), now)
    {
      hide PrintBlock, QueueBytes, Offer, Fail, LeaveLoop, Bytes;
      var i := taken;
      taken, pending := taken + 1, false;
      model := model.(answered := model.answered + 1);
      if i < |source.events| {
        var e := source.events[i];
        var text := EncodeSseEvent(e);
        EncodedEvent(e);
        if Bytes(text) > options.EventLimit() {
          FailWith(EventTooLarge);
        } else {
          EnqueueBounded(text, ForEvent(IsTerminalRunEvent(e)), Event(e));
        }
      } else if source.throws {
        FailWith(SourceFailed);
      } else {
        Finish(now);
      }
    }

    /** The loop after enqueueBounded: ask for the next event, unless this was a heartbeat. */
    method AfterEnqueue(purpose: Purpose, now: int)
      requires Ties() && at == AtEnqueued(purpose) && (purpose.ForHeartbeat? || !pending)
      modifies this, controller
      ensures Ties() && model == AfterOffer(old(model), old(model).phase.offered, now)
    {
      hide PrintBlock, QueueBytes, LeaveLoop, IsTerminalRunEvent;
      ghost var b := model.phase.offered;
      match purpose {
        case ForHeartbeat =>
        case ForRetry => pending := true;
        case ForEvent(terminal) =>
          if terminal {
            terminalEnqueuedAt := Some(now);
          }
          pending := true;
      }
      model := model.(asked := if b.Heartbeat? then model.asked else model.asked + 1,
                      terminalEnqueuedAt := terminalEnqueuedAt);
      if cancelled {
        Finish(now);
      } else {
        at := AtSource;
        model := model.(phase := Awaiting);
      }
    }

    /** The loop after an await that has settled. */
    method GoOn(now: int)
      requires Valid()
      modifies this, controller
      ensures Ties() && model == OnContinue(options, old(model), now)
    {
      hide PrintBlock, QueueBytes, SseDelivery.Enqueue, Fail, AfterOffer, InOrder, Conserved, QueueBounded, Lifecycle,
        CallbacksFit, ClosedAtEnd, FramesFit, RetryFirst;
      match at
      case AtEnqueued(purpose) => AfterEnqueue(purpose, now);
      case AtCapacity(text, purpose, Resumed) => EnqueueNow(text, purpose, model.phase.frame);
      case AtCapacity(_, purpose, TimedOut) =>
        if purpose.ForHeartbeat? {
          seen := seen.(heartbeatFailures := seen.heartbeatFailures + 1);
          model := model.(seen := seen);
        }
        FailWith(SlowConsumer);
      case _ =>
    }

    /** resolve() of the wait for capacity, or its timer. */
    method Decide(fate: Fate)
      requires Ties()
      modifies this`at, this`model
      ensures Ties()
      ensures model == if old(model).phase.Waiting? && old(model).phase.fate.Undecided?
                       then old(model).(phase := Waiting(old(model).phase.frame, fate)) else old(model)
    {
      hide PrintBlock;
      match at
      case AtCapacity(text, purpose, Undecided) =>
        at := AtCapacity(text, purpose, fate);
        model := model.(phase := Waiting(model.phase.frame, fate));
      case _ =>
    }

    /** `pull`, which the stream calls only while it wants more. */
    method PullMore()
      requires Ties()
      modifies this`at, this`model
      ensures Ties() && model == Next(options, source, old(model), Pull)
    {
      hide PrintBlock, QueueBytes;
      var desired := controller.DesiredSizeNow(options);
      if controller.status.Readable? && (controller.pendingReads > 0 || desired.value > 0) {
        Decide(Resumed);
      }
    }

    method CancelStream()
      requires Ties()
      modifies this`cancelled, this`returning, this`at, this`model, controller
      ensures Ties() && model == OnCancel(old(model))
    {
      hide PrintBlock, QueueBytes;
      if !controller.status.Readable? && !controller.status.Closing? {
        return;
      }
      cancelled, returning := true, true;
      controller.Cancel();
      model := model.(cancelled := true, returning := true, stream := controller.model);
      Decide(Resumed);
    }

    /** One step, whichever comes. */
    method Take(step: Step)
      requires Valid()
      modifies this, controller
      ensures Valid() && model == Next(options, source, old(model), step)
    {
      hide PrintBlock, FrameBytes, QueueBytes, OnSource, OnContinue, ReadFrom, OnCancel, Offer, SseDelivery.Valid;
      NextKeeps(options, source, model, step);
      if model.phase.Awaiting? {
        AwaitingCounts(options, source, model);
      }
      match step
      case SourceReady(now) => if at.AtSource? { ReceiveResult(now); }
      case HeartbeatFires =>
        if options.heartbeats && at.AtSource? {
          HeartbeatText();
          EnqueueBounded(": heartbeat\n\n", ForHeartbeat, Heartbeat);
        }
      case CapacityTimeout => Decide(TimedOut);
      case Continue(now) => GoOn(now);
      case ConsumerReads =>
        controller.Read();
        model := model.(stream := controller.model);
      case Pull => PullMore();
      case Cancel => CancelStream();
      case ReturnSettles(ok) =>
        if returning {
          returning := false;
          model := model.(returning := false);
          if ok { ObserveCloseOnce(); }
        }
    }
  }

  lemma EncodedEvent(e: RunEvent)
    ensures PrintBlock(Event(e)) == EncodeSseEvent(e) && FrameBytes(Event(e)) == Bytes(EncodeSseEvent(e))
  {
  }

  lemma HeartbeatText()
    ensures PrintBlock(Heartbeat) == ": heartbeat\n\n"
  {
  }

  /**
   One interleaving, from the stream's construction on. The text the consumer has received,
   read by the standard's reader, conveys the first events of the source.
   */
  method Deliver(options: Options, source: Source, steps: seq<Step>) returns (stream: EventStream, received: string)
    ensures fresh(stream) && stream.Valid() && stream.model == Run(options, source, steps)
    ensures received == Print(Run(options, source, steps).stream.delivered)
    ensures var messages := Sse.Read(received).dispatched;
      |messages| <= |source.events| && ConveyAll(messages, source.events[..|messages|])
  {
    hide Next, Begin, SseDelivery.Valid, Sse.Read, Print, PrintBlock, ConveyAll;
    stream := new EventStream(options, source);
    assert steps[..0] == [];
    for i := 0 to |steps|
      invariant fresh(stream) && fresh(stream.controller) && stream.Valid()
      invariant stream.options == options && stream.source == source
      invariant stream.model == Run(options, source, steps[..i])
    {
      stream.Take(steps[i]);
      OneMoreStep(options, source, steps[..i], steps[i]);
      assert steps[..i + 1] == steps[..i] + [steps[i]];
    }
    assert steps[..|steps|] == steps;
    received := stream.controller.received;
    ConsumerReadsTheSource(options, source, steps);
  }
}
