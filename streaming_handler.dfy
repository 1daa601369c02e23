/** The editor's streaming state machine. Chunks coming from the Python
    bridge are put in a FIFO queue and drained one at a time; the
    subscribers' callbacks are recorded, in the order they fire, in an
    event log. */
module StreamingHandler {
  import opened Language
  import Text

  /** The four chunk types the handler queues: "chunk", "complete", "error"
      and "interrupted". */
  datatype ChunkType = Text | Complete | Failure | Interrupted

  /** One queued item: its type, its text and its error message. */
  datatype StreamChunk = StreamChunk(chunkType: ChunkType, content: string, error: string)

  /** A callback the handler fires. */
  datatype Event =
    | ChunkReceived(text: string)
    | StreamStarted
    | StreamCompleted
    | StreamError(message: string)
    | StreamCancelled

  /** How the awaited bridge call ended: normally, by cancellation, or by an
      exception with its message. */
  datatype BridgeOutcome = Returned | Cancelled | Failed(message: string)

  /** The callback `e` as subscribers see it: nothing once they are gone. */
  function Emit(listening: bool, e: Event): seq<Event>
  {
    if listening then [e] else []
  }

  // ----- The specification of one chunk and of a drain -----

  /** The completion flag and the callbacks after one chunk is handled. */
  datatype Handled = Handled(completed: bool, events: seq<Event>)

  /** HandleChunk: text is forwarded; completion and errors are reported only
      while the stream is not yet completed, and mark it completed. */
  function Handle(listening: bool, completed: bool, chunk: StreamChunk): Handled
  {
    if chunk.chunkType == Text then
      Handled(completed, Emit(listening, ChunkReceived(chunk.content)))
    else if chunk.chunkType == Complete then
      if completed then Handled(completed, []) else Handled(true, Emit(listening, StreamCompleted))
    else if chunk.chunkType == Failure then
      if completed then Handled(completed, []) else Handled(true, Emit(listening, StreamError(chunk.error)))
    else
      Handled(completed, if chunk.content != "" then Emit(listening, ChunkReceived(chunk.content)) else [])
  }

  /** The chunks handled one after another, first in first out. */
  function HandleAll(listening: bool, completed: bool, chunks: seq<StreamChunk>): Handled
  {
    if chunks == [] then Handled(completed, [])
    else
      var h := HandleAll(listening, completed, chunks[..|chunks| - 1]);
      var k := Handle(listening, h.completed, chunks[|chunks| - 1]);
      Handled(k.completed, h.events + k.events)
  }

  /** ProcessAllQueuedChunks: only the non-empty texts of "chunk" items are
      forwarded, in queue order. */
  function Forwarded(listening: bool, chunks: seq<StreamChunk>): seq<Event>
  {
    if chunks == [] then []
    else
      var last := chunks[|chunks| - 1];
      Forwarded(listening, chunks[..|chunks| - 1])
        + (if last.chunkType == Text && last.content != "" then Emit(listening, ChunkReceived(last.content)) else [])
  }

  /** The texts of a sequence of chunks, as ChunkReceived callbacks. */
  function Received(chunks: seq<StreamChunk>): seq<Event>
  {
    if chunks == [] then [] else Received(chunks[..|chunks| - 1]) + [ChunkReceived(chunks[|chunks| - 1].content)]
  }

  // ----- Counting what a stream reported -----

  /** The callbacks fired since the last StreamStarted. */
  function SinceStart(events: seq<Event>): seq<Event>
  {
    if events == [] then []
    else if events[|events| - 1] == StreamStarted then []
    else SinceStart(events[..|events| - 1]) + [events[|events| - 1]]
  }

  predicate IsTerminal(e: Event)
  {
    e == StreamCompleted || e.StreamError?
  }

  /** How many completion and error callbacks the log holds. */
  function Terminals(events: seq<Event>): nat
  {
    if events == [] then 0
    else Terminals(events[..|events| - 1]) + (if IsTerminal(events[|events| - 1]) then 1 else 0)
  }

  lemma {:induction false} TerminalsAppend(a: seq<Event>, b: seq<Event>)
    ensures Terminals(a + b) == Terminals(a) + Terminals(b)
    decreases |b|
  {
    if b == [] {
      assert a + b == a;
    } else {
      assert (a + b)[..|a + b| - 1] == a + b[..|b| - 1];
      TerminalsAppend(a, b[..|b| - 1]);
    }
  }

  lemma {:induction false} SinceStartAppend(a: seq<Event>, b: seq<Event>)
    requires StreamStarted !in b
    ensures SinceStart(a + b) == SinceStart(a) + b
    decreases |b|
  {
    if b == [] {
      assert a + b == a;
    } else {
      assert (a + b)[..|a + b| - 1] == a + b[..|b| - 1];
      assert b[|b| - 1] in b;
      SinceStartAppend(a, b[..|b| - 1]);
      assert b[..|b| - 1] + [b[|b| - 1]] == b;
    }
  }

  /** A drain never reports a new start. */
  lemma {:induction false} HandleAllNoStart(listening: bool, completed: bool, chunks: seq<StreamChunk>)
    ensures StreamStarted !in HandleAll(listening, completed, chunks).events
    decreases |chunks|
  {
    if chunks != [] {
      HandleAllNoStart(listening, completed, chunks[..|chunks| - 1]);
    }
  }

  /** Completion and errors are reported at most once: a drain that starts
      completed reports neither and stays completed; one that starts
      uncompleted reports at most one, and only by becoming completed. */
  lemma {:induction false} HandleAllAtMostOnce(listening: bool, completed: bool, chunks: seq<StreamChunk>)
    ensures var h := HandleAll(listening, completed, chunks);
      (completed ==> h.completed) &&
      Terminals(h.events) + (if completed then 1 else 0) <= (if h.completed then 1 else 0)
    decreases |chunks|
  {
    if chunks != [] {
      var init := chunks[..|chunks| - 1];
      var h := HandleAll(listening, completed, init);
      HandleAllAtMostOnce(listening, completed, init);
      var k := Handle(listening, h.completed, chunks[|chunks| - 1]);
      TerminalsAppend(h.events, k.events);
    }
  }

  /** With subscribers present, a drain that completes the stream reports
      that completion exactly once. */
  lemma {:induction false} HandleAllExactlyOnce(completed: bool, chunks: seq<StreamChunk>)
    ensures var h := HandleAll(true, completed, chunks);
      Terminals(h.events) + (if completed then 1 else 0) == (if h.completed then 1 else 0)
    decreases |chunks|
  {
    if chunks != [] {
      var init := chunks[..|chunks| - 1];
      var h := HandleAll(true, completed, init);
      HandleAllExactlyOnce(completed, init);
      var k := Handle(true, h.completed, chunks[|chunks| - 1]);
      TerminalsAppend(h.events, k.events);
    }
  }

  /** Text chunks come out in the order they went in. */
  lemma {:induction false} HandleAllInOrder(completed: bool, chunks: seq<StreamChunk>)
    requires forall i :: 0 <= i < |chunks| ==> chunks[i].chunkType == Text
    ensures HandleAll(true, completed, chunks) == Handled(completed, Received(chunks))
    decreases |chunks|
  {
    if chunks != [] {
      HandleAllInOrder(completed, chunks[..|chunks| - 1]);
    }
  }

  lemma HandleAllStep(listening: bool, completed: bool, chunks: seq<StreamChunk>, n: nat, now: bool, done: seq<Event>)
    requires n < |chunks| && HandleAll(listening, completed, chunks[..n]) == Handled(now, done)
    ensures var k := Handle(listening, now, chunks[n]);
      HandleAll(listening, completed, chunks[..n + 1]) == Handled(k.completed, done + k.events)
  {
    assert chunks[..n + 1][..n] == chunks[..n];
  }

  lemma ForwardedStep(listening: bool, chunks: seq<StreamChunk>, n: nat)
    requires n < |chunks|
    ensures Forwarded(listening, chunks[..n + 1]) == Forwarded(listening, chunks[..n])
      + (if chunks[n].chunkType == Text && chunks[n].content != "" then Emit(listening, ChunkReceived(chunks[n].content)) else [])
  {
    assert chunks[..n + 1][..n] == chunks[..n];
  }

  /** The flush forwards exactly the non-empty text chunks: no completion,
      no error, no start. */
  lemma {:induction false} ForwardedOnlyText(listening: bool, chunks: seq<StreamChunk>)
    ensures forall e :: e in Forwarded(listening, chunks) ==> e.ChunkReceived? && e.text != ""
    ensures |Forwarded(listening, chunks)| <= |chunks|
    decreases |chunks|
  {
    if chunks != [] {
      ForwardedOnlyText(listening, chunks[..|chunks| - 1]);
    }
  }

  /** The warning appended when the editor switches mode mid-stream. */
  function InterruptedText(lang: Lang): string
  {
    "\n\n⚠️ " + GetText(lang, "Unity模式切换，流式处理被中断", "Unity mode switch, streaming interrupted")
  }

  class StreamingHandler {
    var isStreaming: bool
    var isCompleted: bool
    /** Whether the cancellation token source is set. */
    var hasTokenSource: bool
    /** Whether cancellation was requested on the current token source. */
    var cancelRequested: bool
    var chunkQueue: seq<StreamChunk>
    var isProcessingQueue: bool
    /** Whether the callbacks still have subscribers (Dispose removes them). */
    var listening: bool
    /** The callbacks fired so far, in order. */
    var events: seq<Event>

    /** Between calls: no drain is running, a running stream has its token
        source, and completion or an error has been reported at most once
        since the stream started, and only if the stream is completed;
        while the stream runs, exactly once if it is completed. */
    predicate Valid()
      reads this
    {
      !isProcessingQueue &&
      (isStreaming ==> hasTokenSource) &&
      (listening ==> Terminals(SinceStart(events)) <= (if isCompleted then 1 else 0)) &&
      (listening && isStreaming ==> Terminals(SinceStart(events)) == (if isCompleted then 1 else 0))
    }

    constructor ()
      ensures Valid()
      ensures !isStreaming && !isCompleted && !hasTokenSource && !cancelRequested
      ensures chunkQueue == [] && !isProcessingQueue && listening && events == []
    {
      isStreaming := false;
      isCompleted := false;
      hasTokenSource := false;
      cancelRequested := false;
      chunkQueue := [];
      isProcessingQueue := false;
      listening := true;
      events := [];
    }

    /** The synchronous start of StartStreaming: refused while a stream is
        running; otherwise the stream is marked running and not completed,
        a fresh token source is created and the start is reported. */
    method BeginStreaming() returns (started: bool)
      requires Valid()
      modifies this
      ensures Valid()
      ensures started == !old(isStreaming)
      ensures !started ==> unchanged(this)
      ensures started ==> (isStreaming && !isCompleted && hasTokenSource && !cancelRequested
        && events == old(events) + Emit(listening, StreamStarted)
        && chunkQueue == old(chunkQueue) && listening == old(listening) && !isProcessingQueue)
    {
      if isStreaming {
        return false;
      }
      isStreaming := true;
      isCompleted := false;
      hasTokenSource := true;
      cancelRequested := false;
      events := events + Emit(listening, StreamStarted);
      if listening {
        assert SinceStart(events) == [];
      }
      return true;
    }

    /** The end of StartStreaming once the bridge call is over: a failure is
        queued as an error chunk, a cancellation is reported, and in every
        case the stream stops running and the token source is dropped. */
    method FinishStreaming(outcome: BridgeOutcome)
      requires Valid()
      modifies this
      ensures Valid()
      ensures !isStreaming && !hasTokenSource
      ensures outcome.Failed? ==>
        var h := HandleAll(listening, old(isCompleted), old(chunkQueue) + [StreamChunk(Failure, "", outcome.message)]);
        chunkQueue == [] && isCompleted == h.completed && events == old(events) + h.events
      ensures outcome.Cancelled? ==>
        chunkQueue == old(chunkQueue) && isCompleted == old(isCompleted)
        && events == old(events) + Emit(listening, StreamCancelled)
      ensures outcome.Returned? ==>
        chunkQueue == old(chunkQueue) && isCompleted == old(isCompleted) && events == old(events)
      ensures listening == old(listening) && cancelRequested == old(cancelRequested)
    {
      match outcome {
        case Failed(message) =>
          EnqueueChunk(StreamChunk(Failure, "", message));
        case Cancelled =>
          events := events + Emit(listening, StreamCancelled);
          if listening {
            SinceStartAppend(old(events), [StreamCancelled]);
            TerminalsAppend(SinceStart(old(events)), [StreamCancelled]);
          }
        case Returned =>
      }
      isStreaming := false;
      hasTokenSource := false;
    }

    /** StopStreaming: a running stream is cancelled, marked stopped and
        completed, and the cancellation is reported; otherwise nothing
        changes. */
    method StopStreaming()
      requires Valid()
      modifies this
      ensures Valid()
      ensures !old(isStreaming) ==> unchanged(this)
      ensures old(isStreaming) ==> (!isStreaming && isCompleted && cancelRequested && hasTokenSource
        && events == old(events) + Emit(listening, StreamCancelled)
        && chunkQueue == old(chunkQueue) && listening == old(listening) && !isProcessingQueue)
      ensures listening ==> Terminals(SinceStart(events)) == Terminals(SinceStart(old(events)))
    {
      if isStreaming && hasTokenSource {
        cancelRequested := true;
        isStreaming := false;
        isCompleted := true;
        events := events + Emit(listening, StreamCancelled);
        if listening {
          SinceStartAppend(old(events), [StreamCancelled]);
          TerminalsAppend(SinceStart(old(events)), [StreamCancelled]);
        }
      }
    }

    /** The bridge's onChunk callback: text is queued only while the stream
        runs and is not completed. */
    method OnBridgeChunk(text: string)
      requires Valid()
      modifies this
      ensures Valid()
      ensures !(old(!isCompleted) && old(isStreaming)) ==> unchanged(this)
      ensures old(!isCompleted) && old(isStreaming) ==>
        var h := HandleAll(listening, false, old(chunkQueue) + [StreamChunk(Text, text, "")]);
        chunkQueue == [] && isCompleted == h.completed && events == old(events) + h.events
        && isStreaming && listening == old(listening)
        && hasTokenSource == old(hasTokenSource) && cancelRequested == old(cancelRequested)
    {
      if !isCompleted && isStreaming {
        EnqueueChunk(StreamChunk(Text, text, ""));
      }
    }

    /** The bridge's onComplete callback: completion is queued only while the
        stream runs and is not completed. */
    method OnBridgeComplete()
      requires Valid()
      modifies this
      ensures Valid()
      ensures !(old(!isCompleted) && old(isStreaming)) ==> unchanged(this)
      ensures old(!isCompleted) && old(isStreaming) ==>
        var h := HandleAll(listening, false, old(chunkQueue) + [StreamChunk(Complete, "", "")]);
        chunkQueue == [] && isCompleted == h.completed && events == old(events) + h.events
        && isStreaming && listening == old(listening)
        && hasTokenSource == old(hasTokenSource) && cancelRequested == old(cancelRequested)
    {
      if !isCompleted && isStreaming {
        EnqueueChunk(StreamChunk(Complete, "", ""));
      }
    }

    /** The bridge's onError callback: the error is always queued. */
    method OnBridgeError(error: string)
      requires Valid()
      modifies this
      ensures Valid()
      ensures var h := HandleAll(listening, old(isCompleted), old(chunkQueue) + [StreamChunk(Failure, "", error)]);
        chunkQueue == [] && isCompleted == h.completed && events == old(events) + h.events
      ensures isStreaming == old(isStreaming) && listening == old(listening)
      ensures hasTokenSource == old(hasTokenSource) && cancelRequested == old(cancelRequested)
    {
      EnqueueChunk(StreamChunk(Failure, "", error));
    }

    /** EnqueueChunk: the chunk joins the back of the queue, which is then
        drained. */
    method EnqueueChunk(chunk: StreamChunk)
      requires Valid()
      modifies this
      ensures Valid()
      ensures var h := HandleAll(listening, old(isCompleted), old(chunkQueue) + [chunk]);
        chunkQueue == [] && isCompleted == h.completed && events == old(events) + h.events
        && (listening ==> Terminals(SinceStart(events)) == Terminals(SinceStart(old(events))) + Terminals(h.events))
      ensures isStreaming == old(isStreaming) && hasTokenSource == old(hasTokenSource)
        && cancelRequested == old(cancelRequested) && listening == old(listening)
    {
      chunkQueue := chunkQueue + [chunk];
      ProcessSingleChunk();
      HandleAllNoStart(listening, old(isCompleted), old(chunkQueue) + [chunk]);
      HandleAllAtMostOnce(listening, old(isCompleted), old(chunkQueue) + [chunk]);
      if listening {
        HandleAllExactlyOnce(old(isCompleted), old(chunkQueue) + [chunk]);
        var h := HandleAll(listening, old(isCompleted), old(chunkQueue) + [chunk]);
        SinceStartAppend(old(events), h.events);
        TerminalsAppend(SinceStart(old(events)), h.events);
      }
    }

    /** ProcessSingleChunk: a call made while a drain is running (from one of
        the callbacks) returns at once; otherwise the queue is handled front
        to back until it is empty. */
    method ProcessSingleChunk()
      modifies this
      ensures old(isProcessingQueue) ==> unchanged(this)
      ensures !old(isProcessingQueue) ==>
        var h := HandleAll(listening, old(isCompleted), old(chunkQueue));
        chunkQueue == [] && !isProcessingQueue && isCompleted == h.completed && events == old(events) + h.events
      ensures isStreaming == old(isStreaming) && hasTokenSource == old(hasTokenSource)
        && cancelRequested == old(cancelRequested) && listening == old(listening)
    {
      if isProcessingQueue {
        return;
      }
      isProcessingQueue := true;
      ghost var queue, log := chunkQueue, events;
      ghost var n, done := 0, [];
      assert queue[..0] == [];
      while |chunkQueue| > 0
        invariant 0 <= n <= |queue| && chunkQueue == queue[n..]
        invariant isProcessingQueue && listening == old(listening)
        invariant isStreaming == old(isStreaming) && hasTokenSource == old(hasTokenSource)
        invariant cancelRequested == old(cancelRequested)
        invariant HandleAll(listening, old(isCompleted), queue[..n]) == Handled(isCompleted, done)
        invariant events == log + done
        decreases |chunkQueue|
      {
        ghost var k := Handle(listening, isCompleted, queue[n]);
        HandleAllStep(listening, old(isCompleted), queue, n, isCompleted, done);
        var chunk := chunkQueue[0];
        chunkQueue := chunkQueue[1..];
        HandleChunk(chunk);
        Text.AppendAssoc(log, done, k.events);
        n, done := n + 1, done + k.events;
      }
      assert queue[..n] == queue;
      isProcessingQueue := false;
    }

    /** ProcessAllQueuedChunks: empties the queue, forwarding only the
        non-empty text chunks; nothing else is handled. */
    method ProcessAllQueuedChunks()
      requires Valid()
      modifies this
      ensures Valid()
      ensures chunkQueue == [] && events == old(events) + Forwarded(listening, old(chunkQueue))
      ensures isCompleted == old(isCompleted) && isStreaming == old(isStreaming)
        && hasTokenSource == old(hasTokenSource) && cancelRequested == old(cancelRequested)
        && listening == old(listening)
      ensures listening ==> Terminals(SinceStart(events)) == Terminals(SinceStart(old(events)))
    {
      ghost var queue := chunkQueue;
      ghost var n := 0;
      while |chunkQueue| > 0
        invariant 0 <= n <= |queue| && chunkQueue == queue[n..]
        invariant isCompleted == old(isCompleted) && isStreaming == old(isStreaming)
        invariant hasTokenSource == old(hasTokenSource) && cancelRequested == old(cancelRequested)
        invariant listening == old(listening) && !isProcessingQueue
        invariant events == old(events) + Forwarded(listening, queue[..n])
        decreases |chunkQueue|
      {
        var chunk := chunkQueue[0];
        chunkQueue := chunkQueue[1..];
        ForwardedStep(listening, queue, n);
        assert chunk == queue[n];
        if chunk.chunkType == Text && chunk.content != "" {
          Text.AppendAssoc(old(events), Forwarded(listening, queue[..n]), Emit(listening, ChunkReceived(chunk.content)));
          events := events + Emit(listening, ChunkReceived(chunk.content));
        } else {
          Text.AppendEmpty(Forwarded(listening, queue[..n]));
        }
        n := n + 1;
      }
      assert queue[..n] == queue;
      if listening {
        ForwardedOnlyText(listening, queue);
        assert StreamStarted !in Forwarded(listening, queue);
        SinceStartAppend(old(events), Forwarded(listening, queue));
        TerminalsAppend(SinceStart(old(events)), Forwarded(listening, queue));
        ForwardedNoTerminal(listening, queue);
      }
    }

    /** HandleChunk: one chunk handled as Handle says. */
    method HandleChunk(chunk: StreamChunk)
      modifies this
      ensures var k := Handle(listening, old(isCompleted), chunk);
        isCompleted == k.completed && events == old(events) + k.events
      ensures chunkQueue == old(chunkQueue) && isProcessingQueue == old(isProcessingQueue)
        && isStreaming == old(isStreaming) && hasTokenSource == old(hasTokenSource)
        && cancelRequested == old(cancelRequested) && listening == old(listening)
    {
      if chunk.chunkType == Text {
        events := events + Emit(listening, ChunkReceived(chunk.content));
      } else if chunk.chunkType == Complete {
        if !isCompleted {
          isCompleted := true;
          events := events + Emit(listening, StreamCompleted);
        }
      } else if chunk.chunkType == Failure {
        if !isCompleted {
          isCompleted := true;
          events := events + Emit(listening, StreamError(chunk.error));
        }
      } else {
        if chunk.content != "" {
          events := events + Emit(listening, ChunkReceived(chunk.content));
        }
      }
    }

    /** Dispose: the stream is stopped, the queue cleared and the
        subscribers removed. */
    method Dispose()
      requires Valid()
      modifies this
      ensures Valid()
      ensures chunkQueue == [] && !listening && !isStreaming && !isProcessingQueue
      ensures events == old(events) + (if old(isStreaming) then Emit(old(listening), StreamCancelled) else [])
      ensures isCompleted == (old(isStreaming) || old(isCompleted))
      ensures cancelRequested == (old(isStreaming) || old(cancelRequested))
      ensures hasTokenSource == old(hasTokenSource)
    {
      StopStreaming();
      chunkQueue := [];
      listening := false;
    }

    /** The part of a mode switch both versions share: the queued text is
        flushed, the interruption warning is queued and handled, and the
        stream is stopped; no completion or error is reported on the way. */
    method InterruptStream(warning: string)
      requires Valid() && isStreaming
      modifies this
      ensures Valid()
      ensures !isStreaming && isCompleted && chunkQueue == [] && listening == old(listening)
      ensures cancelRequested && hasTokenSource
      ensures events == old(events) + Forwarded(listening, old(chunkQueue))
        + Handle(listening, old(isCompleted), StreamChunk(Interrupted, warning, "")).events
        + Emit(listening, StreamCancelled)
      ensures listening ==> Terminals(SinceStart(events)) == Terminals(SinceStart(old(events)))
    {
      ProcessAllQueuedChunks();
      HandleAllOne(listening, isCompleted, StreamChunk(Interrupted, warning, ""));
      InterruptedNoTerminal(listening, isCompleted, warning);
      EnqueueChunk(StreamChunk(Interrupted, warning, ""));
      StopStreaming();
    }

    /** OnPlayModeStateChanged as written: on leaving edit or play mode
        during a stream, the stream is interrupted and completion is
        reported once more whether or not it already was. */
    method OnPlayModeStateChanged(exiting: bool, lang: Lang)
      requires Valid()
      modifies this
      ensures !(exiting && old(isStreaming)) ==> unchanged(this)
      ensures exiting && old(isStreaming) ==> (!isStreaming && isCompleted && chunkQueue == []
        && !isProcessingQueue && cancelRequested && hasTokenSource && listening == old(listening)
        && events == old(events) + Forwarded(listening, old(chunkQueue))
             + Handle(listening, old(isCompleted), StreamChunk(Interrupted, InterruptedText(lang), "")).events
             + Emit(listening, StreamCancelled) + Emit(listening, StreamCompleted)
        && (listening ==> Terminals(SinceStart(events)) == Terminals(SinceStart(old(events))) + 1))
    {
      if exiting && isStreaming {
        InterruptStream(InterruptedText(lang));
        isCompleted := true;
        ghost var e := events;
        events := events + Emit(listening, StreamCompleted);
        if listening {
          SinceStartAppend(e, [StreamCompleted]);
          TerminalsAppend(SinceStart(e), [StreamCompleted]);
        }
      }
    }

    /** OnPlayModeStateChanged with completion reported only when the stream
        had not completed before the switch, which keeps the at-most-once
        guarantee. */
    method OnPlayModeStateChangedGuarded(exiting: bool, lang: Lang)
      requires Valid()
      modifies this
      ensures Valid()
      ensures !(exiting && old(isStreaming)) ==> unchanged(this)
      ensures exiting && old(isStreaming) ==> (!isStreaming && isCompleted && chunkQueue == []
        && !isProcessingQueue && cancelRequested && hasTokenSource && listening == old(listening)
        && events == old(events) + Forwarded(listening, old(chunkQueue))
             + Handle(listening, old(isCompleted), StreamChunk(Interrupted, InterruptedText(lang), "")).events
             + Emit(listening, StreamCancelled) + (if old(isCompleted) then [] else Emit(listening, StreamCompleted))
        && (listening ==> Terminals(SinceStart(events)) == 1))
    {
      if exiting && isStreaming {
        var wasCompleted := isCompleted;
        InterruptStream(InterruptedText(lang));
        if !wasCompleted {
          ghost var e := events;
          events := events + Emit(listening, StreamCompleted);
          if listening {
            SinceStartAppend(e, [StreamCompleted]);
            TerminalsAppend(SinceStart(e), [StreamCompleted]);
          }
        }
      }
    }
  }

  lemma HandleAllOne(listening: bool, completed: bool, chunk: StreamChunk)
    ensures HandleAll(listening, completed, [] + [chunk]) == Handle(listening, completed, chunk)
  {
    assert [] + [chunk] == [chunk];
    assert [chunk][..0] == [];
  }

  lemma InterruptedNoTerminal(listening: bool, completed: bool, warning: string)
    ensures var k := Handle(listening, completed, StreamChunk(Interrupted, warning, ""));
      k.completed == completed && Terminals(k.events) == 0
  {
  }

  lemma {:induction false} ForwardedNoTerminal(listening: bool, chunks: seq<StreamChunk>)
    ensures Terminals(Forwarded(listening, chunks)) == 0
    decreases |chunks|
  {
    if chunks != [] {
      var init := chunks[..|chunks| - 1];
      ForwardedNoTerminal(listening, init);
      var last := chunks[|chunks| - 1];
      TerminalsAppend(Forwarded(listening, init),
        if last.chunkType == Text && last.content != "" then Emit(listening, ChunkReceived(last.content)) else []);
    }
  }

  /** A stream whose completion arrived before the editor switched mode is
      reported completed twice by the handler as written. */
  method CompletedTwiceOnModeSwitch(lang: Lang) returns (h: StreamingHandler)
    ensures Terminals(SinceStart(h.events)) == 2
  {
    h := new StreamingHandler();
    var started := h.BeginStreaming();
    h.OnBridgeComplete();
    h.OnPlayModeStateChanged(true, lang);
  }
}
