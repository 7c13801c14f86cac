/** Types shared by every part of the logging core: levels, entries, and the
    LogWriter interface seen through the calls it receives. */
module Common {

  datatype Option<T> = None | Some(value: T) {
    function GetOr(default: T): T {
      if Some? then value else default
    }
  }

  /** The four severities. `Value` is the number the enum carries: the smaller,
      the more severe. */
  datatype LogLevel = Spam | Info | Warn | Error {
    function Value(): nat {
      match this
      case Spam => 8
      case Info => 4
      case Warn => 2
      case Error => 0
    }
  }

  /** The arbitrary payload an entry may carry. Only its truthiness and its
      serialisation (a parameter wherever it is needed) matter to the core. */
  datatype Data =
    | Null
    | Bool(b: bool)
    | Number(n: int)
    | Text(s: string)
    | Array(items: seq<Data>)
    | Object(fields: seq<(string, Data)>)

  /** JavaScript truthiness of an optional payload: a missing value, null,
      false, 0 and the empty string are falsy; arrays and objects never are. */
  predicate Truthy(d: Option<Data>) {
    match d
    case None => false
    case Some(Null) => false
    case Some(Bool(b)) => b
    case Some(Number(n)) => n != 0
    case Some(Text(s)) => s != ""
    case Some(Array(_)) => true
    case Some(Object(_)) => true
  }

  /** One log entry; `date` is in epoch milliseconds. */
  datatype LogEntry = LogEntry(
    level: LogLevel,
    logger: string,
    date: int,
    title: Option<string>,
    data: Option<Data>)

  /** A call a writer receives: `addEntry(e)` or `addBatch(es)`. */
  datatype Call = Single(entry: LogEntry) | Batch(entries: seq<LogEntry>) {
    function Entries(): seq<LogEntry> {
      if Single? then [entry] else entries
    }
  }

  /** The entries a sequence of calls hands over, in call order. */
  function Delivered(calls: seq<Call>): seq<LogEntry> {
    if calls == [] then [] else Delivered(calls[..|calls| - 1]) + calls[|calls| - 1].Entries()
  }

  /** One `addEntry` call per entry, in order. */
  function Singles(es: seq<LogEntry>): (r: seq<Call>)
    ensures |r| == |es|
    ensures forall i :: 0 <= i < |es| ==> r[i] == Single(es[i])
  {
    seq(|es|, i requires 0 <= i < |es| => Single(es[i]))
  }

  /** Delivery is compositional: two runs of calls deliver the concatenation. */
  lemma {:induction false} DeliveredAppend(a: seq<Call>, b: seq<Call>)
    ensures Delivered(a + b) == Delivered(a) + Delivered(b)
  {
    if b == [] {
      assert a + b == a;
    } else {
      var b', last := b[..|b| - 1], b[|b| - 1];
      assert (a + b)[..|a + b| - 1] == a + b';
      assert (a + b)[|a + b| - 1] == last;
      assert Delivered(a + b) == Delivered(a + b') + last.Entries();
      DeliveredAppend(a, b');
      assert Delivered(b) == Delivered(b') + last.Entries();
      assert Delivered(a) + Delivered(b') + last.Entries() == Delivered(a) + (Delivered(b') + last.Entries());
    }
  }

  /** `addEntry` on each element, in order, hands over exactly those elements. */
  lemma {:induction false} DeliveredSingles(es: seq<LogEntry>)
    ensures Delivered(Singles(es)) == es
  {
    if es != [] {
      var es' := es[..|es| - 1];
      assert Singles(es)[..|es| - 1] == Singles(es');
      DeliveredSingles(es');
    }
  }

  /** The LogWriter interface (common.ts), for a writer whose own handling is
      not part of this model: it is observed through the calls it receives. */
  class LogWriter {
    var calls: seq<Call>

    constructor ()
      ensures calls == []
    {
      calls := [];
    }

    /** Everything this writer was handed, in order. */
    function Received(): seq<LogEntry>
      reads this
    {
      Delivered(calls)
    }

    method AddEntry(e: LogEntry)
      modifies this
      ensures calls == old(calls) + [Single(e)]
      ensures Received() == old(Received()) + [e]
    {
      DeliveredAppend(calls, [Single(e)]);
      calls := calls + [Single(e)];
    }

    method AddBatch(es: seq<LogEntry>)
      modifies this
      ensures calls == old(calls) + [Batch(es)]
      ensures Received() == old(Received()) + es
    {
      DeliveredAppend(calls, [Batch(es)]);
      calls := calls + [Batch(es)];
    }
  }
}
