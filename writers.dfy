/** The buffer writer and the process-wide default writer that points at it
    until a real writer is installed (core.ts, region "Writers"). */
module Writers {
  import opened Common

  /** Keeps entries until they can be handed to a real writer. */
  class BufferLogWriter {
    var buffer: seq<LogEntry>

    constructor ()
      ensures buffer == []
    {
      buffer := [];
    }

    method AddEntry(e: LogEntry)
      modifies this
      ensures buffer == old(buffer) + [e]
    {
      buffer := buffer + [e];
    }

    /** `addEntry` on each element, in order. */
    method AddBatch(es: seq<LogEntry>)
      modifies this
      ensures buffer == old(buffer) + es
    {
      for i := 0 to |es|
        invariant buffer == old(buffer) + es[..i]
      {
        AddEntry(es[i]);
        assert es[..i + 1] == es[..i] + [es[i]];
      }
    }

    /** Hands the whole buffer to `w` in one batch and empties it. */
    method FlushTo(w: LogWriter)
      modifies this, w
      ensures buffer == []
      ensures w.calls == old(w.calls) + [Batch(old(buffer))]
      ensures w.Received() == old(w.Received()) + old(buffer)
    {
      var b := buffer;
      buffer := [];
      w.AddBatch(b);
    }
  }

  /** What the default writer currently forwards to: the shared buffer, or
      another writer. */
  datatype Target = Buffer | Writer(w: LogWriter)

  function TargetObjects(t: Target): set<object> {
    if t.Writer? then {t.w} else {}
  }

  /** The default writer (`gDefaultWriter`) together with the shared buffer
      (`gBufferLogWriter`) it starts out pointing at. */
  class DefaultLogWriter {
    const buffer: BufferLogWriter
    var internal: Target

    constructor ()
      ensures fresh(buffer) && buffer.buffer == []
      ensures internal == Buffer
    {
      buffer := new BufferLogWriter();
      internal := Buffer;
    }

    /** The objects a call on this writer may change. */
    function Footprint(): set<object>
      reads this
    {
      {buffer} + TargetObjects(internal)
    }

    method AddEntry(e: LogEntry)
      modifies Footprint()
      ensures internal == old(internal)
      ensures internal.Buffer? ==> buffer.buffer == old(buffer.buffer) + [e]
      ensures internal.Writer? ==> internal.w.calls == old(internal.w.calls) + [Single(e)]
      ensures internal.Writer? ==> buffer.buffer == old(buffer.buffer)
    {
      match internal
      case Buffer => buffer.AddEntry(e);
      case Writer(w) => w.AddEntry(e);
    }

    method AddBatch(es: seq<LogEntry>)
      modifies Footprint()
      ensures internal == old(internal)
      ensures internal.Buffer? ==> buffer.buffer == old(buffer.buffer) + es
      ensures internal.Writer? ==> internal.w.calls == old(internal.w.calls) + [Batch(es)]
      ensures internal.Writer? ==> buffer.buffer == old(buffer.buffer)
    {
      match internal
      case Buffer => buffer.AddBatch(es);
      case Writer(w) => w.AddBatch(es);
    }

    /** `setDefaultWriter`: the first real writer installed while the default
        still points at the buffer receives the buffered entries, in one batch;
        any other installation just swaps the target. */
    method SetDefaultWriter(t: Target)
      modifies this, buffer, TargetObjects(t)
      ensures internal == t
      ensures old(internal).Buffer? && t.Writer? ==>
        buffer.buffer == [] && t.w.calls == old(t.w.calls) + [Batch(old(buffer.buffer))]
      ensures !(old(internal).Buffer? && t.Writer?) ==>
        buffer.buffer == old(buffer.buffer) && (t.Writer? ==> t.w.calls == old(t.w.calls))
    {
      if t != Buffer {
        if internal == Buffer {
          buffer.FlushTo(t.w);
        }
      }
      internal := t;
    }

    /** `getDefaultWriter`. */
    method GetDefaultWriter() returns (t: Target)
      ensures t == internal
    {
      t := internal;
    }
  }

  /** Entries logged before any writer is installed, then a first and a second
      installation: the first writer receives exactly those entries, in order,
      in a single batch; the second receives nothing. */
  method RedirectOnce(es: seq<LogEntry>) returns (first: LogWriter, second: LogWriter)
    ensures first.calls == [Batch(es)] && first.Received() == es
    ensures second.calls == []
  {
    var d := new DefaultLogWriter();
    for i := 0 to |es|
      invariant d.internal == Buffer
      invariant d.buffer.buffer == es[..i]
    {
      d.AddEntry(es[i]);
      assert es[..i + 1] == es[..i] + [es[i]];
    }
    first := new LogWriter();
    second := new LogWriter();
    assert es[..|es|] == es;
    d.SetDefaultWriter(Writer(first));
    d.SetDefaultWriter(Writer(second));
    assert Delivered(first.calls) == Delivered([]) + [Batch(es)][0].Entries();
  }
}
