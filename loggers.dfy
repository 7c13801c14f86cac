/** Hierarchical loggers, their dotted names and their level gating (core.ts,
    regions "Loggers" and "Log levels"). */
module Loggers {
  import opened Common
  import opened Writers

  /** `getLogLevelName`: the level's upper-case name, four or five letters. */
  function LevelName(l: LogLevel): (r: string)
    ensures 4 <= |r| <= 5
    ensures forall i :: 0 <= i < |r| ==> 'A' <= r[i] <= 'Z'
  {
    match l
    case Spam => "SPAM"
    case Error => "ERROR"
    case Info => "INFO"
    case Warn => "WARN"
  }

  /** The four levels have four different names. */
  lemma LevelNamesDistinct(a: LogLevel, b: LogLevel)
    ensures LevelName(a) == LevelName(b) <==> a == b
  {
    if a != b {
      assert LevelName(a)[0] != LevelName(b)[0];
    }
  }

  /** Which level methods each subclass overrides to fire: LogSpamLevel all
      four, LogInfoLevel all but spam, LogWarnLevel warn and error,
      LogErrorLevel only error. The table is the numeric order of the levels. */
  function Passes(logger: LogLevel, m: LogLevel): (r: bool)
    ensures r <==> m.Value() <= logger.Value()
  {
    match logger
    case Spam => true
    case Info => m != Spam
    case Warn => m == Warn || m == Error
    case Error => m == Error
  }

  /** The names of a chain of loggers, root first, joined with dots. */
  function JoinDotted(names: seq<string>): string
    requires |names| > 0
  {
    if |names| == 1 then names[0]
    else JoinDotted(names[..|names| - 1]) + "." + names[|names| - 1]
  }

  /** The full name a logger gets at construction from its parent's. */
  function FullName(parent: Option<string>, name: string): string {
    if parent.Some? then parent.value + "." + name else name
  }

  /** Naming a child after its parent's full name names it after the whole
      chain of loggers above it. */
  lemma FullNameOfChain(path: seq<string>, name: string)
    requires |path| > 0
    ensures FullName(Some(JoinDotted(path)), name) == JoinDotted(path + [name])
  {
    assert (path + [name])[..|path|] == path;
  }

  /** Every ancestor's full name, followed by a dot, begins a descendant's. */
  lemma {:induction false} AncestorNameIsPrefix(path: seq<string>, below: seq<string>)
    requires |path| > 0 && |below| > 0
    ensures JoinDotted(path) + "." <= JoinDotted(path + below)
  {
    var all := path + below;
    assert all[..|all| - 1] == path + below[..|below| - 1];
    if |below| > 1 {
      AncestorNameIsPrefix(path, below[..|below| - 1]);
    }
  }

  /** Where a logger sends its entries: the default writer, or a writer of
      its own. */
  datatype WriterRef = ViaDefault | Direct(w: LogWriter)

  /** One call the user's callback makes to the handler it is given, with the
      clock reading at that moment. */
  datatype HandlerCall = HandlerCall(title: Option<string>, data: Option<Data>, now: int)

  /** The entries the handlers of method `m` build for a logger named
      `fullName`. */
  function Emitted(m: LogLevel, fullName: string, cs: seq<HandlerCall>): (r: seq<LogEntry>)
    ensures |r| == |cs|
    ensures forall i :: 0 <= i < |cs| ==>
      r[i].level == m && r[i].logger == fullName &&
      r[i].date == cs[i].now && r[i].title == cs[i].title && r[i].data == cs[i].data
  {
    seq(|cs|, i requires 0 <= i < |cs| => LogEntry(m, fullName, cs[i].now, cs[i].title, cs[i].data))
  }

  /** `JopiLogger` and its four subclasses; `level` says which subclass. */
  class JopiLogger {
    const name: string
    const fullName: string
    const level: LogLevel
    const defaults: DefaultLogWriter
    /** The names of the chain of loggers from the root down to this one. */
    ghost const path: seq<string>
    var onLog: WriterRef

    ghost predicate Valid() {
      |path| > 0 && path[|path| - 1] == name && fullName == JoinDotted(path)
    }

    constructor (parent: JopiLogger?, name: string, level: LogLevel, defaults: DefaultLogWriter)
      requires parent != null ==> parent.Valid() && parent.defaults == defaults
      ensures Valid()
      ensures this.name == name && this.level == level && this.defaults == defaults
      ensures fullName == FullName(if parent == null then None else Some(parent.fullName), name)
      ensures path == if parent == null then [name] else parent.path + [name]
      ensures onLog == if parent == null then ViaDefault else parent.onLog
    {
      this.name := name;
      this.level := level;
      this.defaults := defaults;
      if parent == null {
        fullName := name;
        path := [name];
        onLog := ViaDefault;
      } else {
        fullName := parent.fullName + "." + name;
        path := parent.path + [name];
        onLog := parent.onLog;
        FullNameOfChain(parent.path, name);
      }
    }

    /** `setLogWriter`: a missing writer falls back to the default writer. */
    method SetLogWriter(w: Option<LogWriter>)
      modifies this
      ensures onLog == if w.None? then ViaDefault else Direct(w.value)
    {
      if w.None? {
        onLog := ViaDefault;
      } else {
        onLog := Direct(w.value);
      }
    }

    /** The objects logging may change. */
    function Sinks(): set<object>
      reads this, defaults
    {
      if onLog.Direct? then {onLog.w} else defaults.Footprint()
    }

    /** One handler invocation: hand `e` to the current writer. */
    method Emit(e: LogEntry)
      modifies Sinks()
      ensures onLog == old(onLog) && defaults.internal == old(defaults.internal)
      ensures onLog.Direct? ==> onLog.w.calls == old(onLog.w.calls) + [Single(e)]
      ensures onLog.ViaDefault? && defaults.internal.Buffer? ==>
        defaults.buffer.buffer == old(defaults.buffer.buffer) + [e]
      ensures onLog.ViaDefault? && defaults.internal.Writer? ==>
        defaults.internal.w.calls == old(defaults.internal.w.calls) + [Single(e)]
      ensures !(onLog.ViaDefault? && defaults.internal.Buffer?) ==>
        defaults.buffer.buffer == old(defaults.buffer.buffer)
    {
      match onLog
      case Direct(w) => w.AddEntry(e);
      case ViaDefault => defaults.AddEntry(e);
    }

    /** `spam`, `info`, `warn` and `error`: the method for level `m` fires
        when this logger's level lets it through; it then gives the callback
        (if any) the handler, and each handler call emits one entry of level
        `m` named after this logger. Otherwise nothing is emitted. */
    method Log(m: LogLevel, callback: Option<seq<HandlerCall>>) returns (fired: bool)
      modifies Sinks()
      ensures fired == Passes(level, m)
      ensures onLog == old(onLog) && defaults.internal == old(defaults.internal)
      ensures var es := if fired && callback.Some? then Emitted(m, fullName, callback.value) else [];
        && (onLog.Direct? ==> onLog.w.calls == old(onLog.w.calls) + Singles(es))
        && (onLog.ViaDefault? && defaults.internal.Buffer? ==>
              defaults.buffer.buffer == old(defaults.buffer.buffer) + es)
        && (onLog.ViaDefault? && defaults.internal.Writer? ==>
              defaults.internal.w.calls == old(defaults.internal.w.calls) + Singles(es))
      ensures !(onLog.ViaDefault? && defaults.internal.Buffer?) ==>
        defaults.buffer.buffer == old(defaults.buffer.buffer)
    {
      fired := Passes(level, m);
      if fired && callback.Some? {
        var cs := callback.value;
        var es := Emitted(m, fullName, cs);
        for i := 0 to |cs|
          invariant onLog == old(onLog) && defaults.internal == old(defaults.internal)
          invariant onLog.Direct? ==> onLog.w.calls == old(onLog.w.calls) + Singles(es[..i])
          invariant onLog.ViaDefault? && defaults.internal.Buffer? ==>
            defaults.buffer.buffer == old(defaults.buffer.buffer) + es[..i]
          invariant onLog.ViaDefault? && defaults.internal.Writer? ==>
            defaults.internal.w.calls == old(defaults.internal.w.calls) + Singles(es[..i])
          invariant !(onLog.ViaDefault? && defaults.internal.Buffer?) ==>
            defaults.buffer.buffer == old(defaults.buffer.buffer)
        {
          Emit(es[i]);
          assert es[..i + 1] == es[..i] + [es[i]];
          assert Singles(es[..i + 1]) == Singles(es[..i]) + [Single(es[i])];
        }
        assert es[..|cs|] == es;
      }
    }
  }
}
