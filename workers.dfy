/** Forwarding entries to a worker thread and the worker's message handler
    (core.ts, region "Workers"). The transport is the ordered sequence of
    posted messages. */
module Workers {
  import opened Common
  import opened Writers

  /** A message between threads: the `"APP_EXIT"` sentinel, or an array of
      entries. */
  datatype Message = AppExit | Entries(entries: seq<LogEntry>)

  /** What the sending side posts for a call it receives. */
  function Encode(c: Call): Message {
    Entries(c.Entries())
  }

  /** `WorkerLogWriter`: posts every call to the worker as an array. */
  class WorkerLogWriter {
    var posted: seq<Message>

    constructor ()
      ensures posted == []
    {
      posted := [];
    }

    method AddBatch(es: seq<LogEntry>)
      modifies this
      ensures posted == old(posted) + [Encode(Batch(es))]
    {
      posted := posted + [Entries(es)];
    }

    /** A single entry travels as a one-element array. */
    method AddEntry(e: LogEntry)
      modifies this
      ensures posted == old(posted) + [Encode(Single(e))]
    {
      posted := posted + [Entries([e])];
    }
  }

  /** What the receiving side does with a message: shut down, or hand the
      entries to the default writer's current target. An empty array ends up
      as `addEntry(entries[0])`, that is `addEntry(undefined)`. */
  datatype Dispatch = Shutdown | ToBatch(batch: seq<LogEntry>) | ToEntry(entry: LogEntry) | ToUndefinedEntry

  /** The receiver's choice: the sentinel shuts down; an array of more than
      one entry goes to `addBatch`, any other array to `addEntry`. */
  function Route(m: Message): (d: Dispatch)
    ensures d.Shutdown? <==> m.AppExit?
    ensures d.ToBatch? <==> m.Entries? && |m.entries| > 1
  {
    match m
    case AppExit => Shutdown
    case Entries(es) =>
      if |es| > 1 then ToBatch(es)
      else if |es| == 1 then ToEntry(es[0])
      else ToUndefinedEntry
  }

  /** The calls a dispatch makes on the target writer. */
  function DispatchCalls(d: Dispatch): seq<Call> {
    match d
    case ToBatch(es) => [Batch(es)]
    case ToEntry(e) => [Single(e)]
    case _ => []
  }

  /** Whatever a sender call posts, the receiver hands on exactly its entries;
      the sentinel is never produced by a sender. */
  lemma ReceiverDeliversSent(c: Call)
    requires c.Entries() != []
    ensures !Route(Encode(c)).Shutdown?
    ensures Delivered(DispatchCalls(Route(Encode(c)))) == c.Entries()
  {
    var es := c.Entries();
    if |es| > 1 {
      assert DispatchCalls(Route(Encode(c))) == [Batch(es)];
    } else {
      assert DispatchCalls(Route(Encode(c))) == [Single(es[0])];
      assert es == [es[0]];
    }
  }

  /** A single entry and a batch of exactly that one entry are handled alike. */
  lemma SingleAndBatchOfOneAlike(e: LogEntry)
    ensures Route(Encode(Single(e))) == Route(Encode(Batch([e]))) == ToEntry(e)
  {
  }

  /** The entries a sequence of received messages hands on, in order. */
  function ReceivedAll(ms: seq<Message>): seq<LogEntry> {
    if ms == [] then []
    else ReceivedAll(ms[..|ms| - 1]) + Delivered(DispatchCalls(Route(ms[|ms| - 1])))
  }

  /** The messages posted for a sequence of calls. */
  function EncodeAll(calls: seq<Call>): (ms: seq<Message>)
    ensures |ms| == |calls|
    ensures forall i :: 0 <= i < |calls| ==> ms[i] == Encode(calls[i])
  {
    seq(|calls|, i requires 0 <= i < |calls| => Encode(calls[i]))
  }

  /** Across the thread boundary nothing is lost, duplicated or reordered:
      the receiver hands on exactly what the sender was given. */
  lemma {:induction false} ForwardingPreservesEntries(calls: seq<Call>)
    requires forall i :: 0 <= i < |calls| ==> calls[i].Entries() != []
    ensures ReceivedAll(EncodeAll(calls)) == Delivered(calls)
  {
    if calls != [] {
      var n := |calls| - 1;
      assert EncodeAll(calls)[..n] == EncodeAll(calls[..n]);
      ForwardingPreservesEntries(calls[..n]);
      ReceiverDeliversSent(calls[n]);
      DeliveredAppend(calls[..n], [calls[n]]);
      assert calls[..n] + [calls[n]] == calls;
    }
  }

  /** The worker thread's side: the message callback feeding the worker's
      default writer. */
  class WorkerThread {
    const defaults: DefaultLogWriter
    /** The exit sentinel was received: the thread declared the application
        exiting and closed itself. */
    var exited: bool

    constructor (defaults: DefaultLogWriter)
      ensures this.defaults == defaults && !exited
    {
      this.defaults := defaults;
      exited := false;
    }

    /** The message callback. A closed thread receives nothing more. */
    method OnMessage(m: Message)
      modifies this, defaults.Footprint()
      ensures defaults.internal == old(defaults.internal)
      ensures exited == (old(exited) || m.AppExit?)
      ensures var calls := if old(exited) then [] else DispatchCalls(Route(m));
        && (defaults.internal.Buffer? ==>
              defaults.buffer.buffer == old(defaults.buffer.buffer) + Delivered(calls))
        && (defaults.internal.Writer? ==>
              defaults.internal.w.calls == old(defaults.internal.w.calls) + calls
              && defaults.buffer.buffer == old(defaults.buffer.buffer))
    {
      if exited {
        return;
      }
      match Route(m)
      case Shutdown =>
        exited := true;
      case ToBatch(es) =>
        defaults.AddBatch(es);
      case ToEntry(e) =>
        defaults.AddEntry(e);
      case ToUndefinedEntry =>
    }
  }
}
