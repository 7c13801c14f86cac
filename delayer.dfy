/** The delaying writer that batches entries before handing them to a base
    writer (core.ts, region "Log Delayer"). `timerMarked` is `timerId != 0`,
    and the ghost `liveTimers` counts the timeouts still scheduled; a timeout
    running is `TimerFires`, and the application-exit hook is a call to
    `Flush`. */
module Delayer {
  import opened Common

  /** `LogDelayerParams`; a missing field is `None`. */
  datatype DelayerParams = DelayerParams(
    delayTimeSec: Option<int>,
    flushIfError: Option<bool>,
    flushIfWarn: Option<bool>)

  /** `params.delayTime_sec || 2`: a missing or zero delay means two seconds. */
  function DelayTime(p: Option<int>): (r: int)
    ensures r != 0
    ensures p.Some? && p.value != 0 ==> r == p.value
    ensures p.None? || p.value == 0 ==> r == 2
  {
    if p.Some? && p.value != 0 then p.value else 2
  }

  /** `flag !== false`: only an explicit `false` switches a flush flag off. */
  function FlagOn(p: Option<bool>): (r: bool)
    ensures r <==> p != Some(false)
  {
    !(p.Some? && !p.value)
  }

  /** The immediate-flush test as the source writes it: the second test
      compares with ERROR where WARN is meant. */
  function ImmediateFlushAsWritten(level: LogLevel, flushIfError: bool, flushIfWarn: bool): (r: bool)
    ensures r <==> level == Error && (flushIfError || flushIfWarn)
  {
    level.Value() <= Warn.Value() &&
    ((flushIfError && level == Error) || (flushIfWarn && level == Error))
  }

  /** As written, `flushIfWarn` is a second switch for errors: a warning
      never flushes immediately, whatever the flags say. */
  lemma WarnNeverFlushesAsWritten(flushIfError: bool, flushIfWarn: bool)
    ensures !ImmediateFlushAsWritten(Warn, flushIfError, flushIfWarn)
    ensures ImmediateFlushAsWritten(Error, false, true)
    ensures ImmediateFlush(Warn, flushIfError, true) != ImmediateFlushAsWritten(Warn, flushIfError, true)
  {
  }

  /** The immediate-flush test as intended: each severity answers to its
      own flag. */
  function ImmediateFlush(level: LogLevel, flushIfError: bool, flushIfWarn: bool): (r: bool)
    ensures r <==> (level == Error && flushIfError) || (level == Warn && flushIfWarn)
  {
    level.Value() <= Warn.Value() &&
    ((flushIfError && level == Error) || (flushIfWarn && level == Warn))
  }

  /** What `addEntry` reads and changes: the queue, the timer marker, the
      number of timeouts scheduled, and the calls the base writer received. */
  datatype DelayerState = DelayerState(queue: seq<LogEntry>, marked: bool, live: nat, calls: seq<Call>)

  /** One `addEntry` as written: flush the queue with the entry when the
      as-written test holds, otherwise queue it and schedule a timeout unless
      one is marked. */
  function StepAsWritten(s: DelayerState, e: LogEntry, flushIfError: bool, flushIfWarn: bool): DelayerState {
    if ImmediateFlushAsWritten(e.level, flushIfError, flushIfWarn) then
      DelayerState([], false, s.live, s.calls + [Batch(s.queue + [e])])
    else
      DelayerState(s.queue + [e], true, s.live + (if s.marked then 0 else 1), s.calls)
  }

  /** `addEntry` as written on each element of `es`, in order. */
  function StepsAsWritten(s: DelayerState, es: seq<LogEntry>, flushIfError: bool, flushIfWarn: bool)
    : DelayerState
  {
    if es == [] then s
    else StepAsWritten(StepsAsWritten(s, es[..|es| - 1], flushIfError, flushIfWarn), es[|es| - 1],
                       flushIfError, flushIfWarn)
  }

  /** One `addEntry` as written loses and duplicates nothing: what was
      handed over plus what waits grows by exactly the entry; earlier calls
      are kept, and a new call hands over a non-empty batch. */
  lemma StepAccepts(m: DelayerState, e: LogEntry, flushIfError: bool, flushIfWarn: bool)
    ensures var r := StepAsWritten(m, e, flushIfError, flushIfWarn);
      && Delivered(r.calls) + r.queue == Delivered(m.calls) + m.queue + [e]
      && |m.calls| <= |r.calls| && r.calls[..|m.calls|] == m.calls
      && NonEmptyBatchesFrom(r.calls, |m.calls|)
  {
    var r := StepAsWritten(m, e, flushIfError, flushIfWarn);
    if ImmediateFlushAsWritten(e.level, flushIfError, flushIfWarn) {
      var b := [Batch(m.queue + [e])];
      assert r.calls == m.calls + b && r.queue == [];
      DeliveredAppend(m.calls, b);
      assert b[..0] == [];
      assert Delivered(b) == m.queue + [e];
      assert r.calls[..|m.calls|] == m.calls;
    } else {
      assert r.calls == m.calls && r.queue == m.queue + [e];
    }
  }

  /** A run of `addEntry` calls loses and duplicates nothing: what was handed
      over plus what waits grows by exactly the entries, in order; earlier
      calls are kept, and every new call hands over a non-empty batch. */
  lemma {:induction false} StepsAccept(s: DelayerState, es: seq<LogEntry>, flushIfError: bool, flushIfWarn: bool)
    ensures var r := StepsAsWritten(s, es, flushIfError, flushIfWarn);
      && Delivered(r.calls) + r.queue == Delivered(s.calls) + s.queue + es
      && |s.calls| <= |r.calls| && r.calls[..|s.calls|] == s.calls
      && NonEmptyBatchesFrom(r.calls, |s.calls|)
  {
    if es != [] {
      var es', e := es[..|es| - 1], es[|es| - 1];
      var m := StepsAsWritten(s, es', flushIfError, flushIfWarn);
      var r := StepAsWritten(m, e, flushIfError, flushIfWarn);
      assert r == StepsAsWritten(s, es, flushIfError, flushIfWarn);
      assert Delivered(r.calls) + r.queue == Delivered(s.calls) + s.queue + es by {
        StepsAccept(s, es', flushIfError, flushIfWarn);
        StepAccepts(m, e, flushIfError, flushIfWarn);
        assert es == es' + [e];
      }
      assert |s.calls| <= |r.calls| && r.calls[..|s.calls|] == s.calls
        && NonEmptyBatchesFrom(r.calls, |s.calls|) by {
        StepsAccept(s, es', flushIfError, flushIfWarn);
        StepAccepts(m, e, flushIfError, flushIfWarn);
        CallsExtend(s.calls, m.calls, r.calls);
      }
    }
  }

  /** Extending calls twice, each time keeping what was there and adding
      only non-empty batches, is one such extension. */
  lemma CallsExtend(a: seq<Call>, b: seq<Call>, c: seq<Call>)
    requires |a| <= |b| && b[..|a|] == a && NonEmptyBatchesFrom(b, |a|)
    requires |b| <= |c| && c[..|b|] == b && NonEmptyBatchesFrom(c, |b|)
    ensures |a| <= |c| && c[..|a|] == a && NonEmptyBatchesFrom(c, |a|)
  {
    assert c[..|a|] == c[..|b|][..|a|];
    forall i | |a| <= i < |b|
      ensures c[i].Batch? && c[i].entries != []
    {
      assert c[i] == c[..|b|][i];
    }
  }

  /** With the default flags, INFO then ERROR on an empty delayer: the error
      hands both over in one batch and clears the marker, but the timeout
      scheduled for the first entry stays. */
  lemma InfoThenErrorExample(a: LogEntry, b: LogEntry)
    requires a.level == Info && b.level == Error
    ensures StepsAsWritten(DelayerState([], false, 0, []), [a, b], true, true)
      == DelayerState([], false, 1, [Batch([a, b])])
  {
    var s1 := StepAsWritten(DelayerState([], false, 0, []), a, true, true);
    assert s1 == DelayerState([a], true, 1, []);
    assert StepAsWritten(s1, b, true, true) == DelayerState([], false, 1, [Batch([a, b])]) by {
      assert s1.queue + [b] == [a, b];
    }
    StepsTwo(DelayerState([], false, 0, []), a, b, true, true);
  }

  /** Two `addEntry` calls as written are one step after the other. */
  lemma StepsTwo(s: DelayerState, x: LogEntry, y: LogEntry, flushIfError: bool, flushIfWarn: bool)
    ensures StepsAsWritten(s, [x, y], flushIfError, flushIfWarn)
      == StepAsWritten(StepAsWritten(s, x, flushIfError, flushIfWarn), y, flushIfError, flushIfWarn)
  {
    assert StepsAsWritten(s, [x], flushIfError, flushIfWarn) == StepAsWritten(s, x, flushIfError, flushIfWarn) by {
      assert [x][..0] == [];
    }
    assert [x, y][..1] == [x];
  }

  /** Every call in `calls` from index `from` on hands over a non-empty batch. */
  ghost predicate NonEmptyBatchesFrom(calls: seq<Call>, from: nat) {
    forall i :: from <= i < |calls| ==> calls[i].Batch? && calls[i].entries != []
  }

  /** `LogDelayer`. */
  class LogDelayer {
    const delayTimeSec: int
    const flushIfError: bool
    const flushIfWarn: bool
    const base: LogWriter
    var entries: seq<LogEntry>
    /** `timerId` is non-zero: the delayer believes a flush timer is pending. */
    var timerMarked: bool
    /** The timeouts scheduled and not yet run. `flush` resets `timerId`
        without cancelling its timeout, so this can exceed one. */
    ghost var liveTimers: nat

    /** Every entry accepted so far, handed over or still waiting. */
    ghost function Accepted(): seq<LogEntry>
      reads this, base
    {
      base.Received() + entries
    }

    constructor (base: LogWriter, params: DelayerParams)
      ensures this.base == base
      ensures delayTimeSec == DelayTime(params.delayTimeSec)
      ensures flushIfError == FlagOn(params.flushIfError)
      ensures flushIfWarn == FlagOn(params.flushIfWarn)
      ensures entries == [] && !timerMarked && liveTimers == 0
    {
      this.base := base;
      delayTimeSec := DelayTime(params.delayTimeSec);
      flushIfError := FlagOn(params.flushIfError);
      flushIfWarn := FlagOn(params.flushIfWarn);
      entries := [];
      timerMarked := false;
      liveTimers := 0;
    }

    /** `flush`: forgets the pending timer (the timeout itself stays
        scheduled), then hands the waiting entries to the base writer in one
        batch, unless there are none. */
    method Flush()
      modifies this, base
      ensures entries == [] && !timerMarked && liveTimers == old(liveTimers)
      ensures base.calls == old(base.calls) + (if old(entries) == [] then [] else [Batch(old(entries))])
      ensures Accepted() == old(Accepted())
      ensures NonEmptyBatchesFrom(base.calls, |old(base.calls)|)
    {
      timerMarked := false;
      if entries != [] {
        var tmp := entries;
        entries := [];
        base.AddBatch(tmp);
      }
    }

    /** One scheduled timeout runs its callback, `flush`, whether or not
        `timerId` was reset since it was scheduled. */
    method TimerFires()
      requires liveTimers > 0
      modifies this, base
      ensures liveTimers == old(liveTimers) - 1
      ensures entries == [] && !timerMarked
      ensures base.calls == old(base.calls) + (if old(entries) == [] then [] else [Batch(old(entries))])
      ensures Accepted() == old(Accepted())
    {
      liveTimers := liveTimers - 1;
      Flush();
    }

    /** Queue `e` and schedule a timeout unless `timerId` is set. */
    method Enqueue(e: LogEntry)
      modifies this
      ensures entries == old(entries) + [e] && timerMarked
      ensures liveTimers == old(liveTimers) + (if old(timerMarked) then 0 else 1)
    {
      entries := entries + [e];
      if !timerMarked {
        timerMarked := true;
        liveTimers := liveTimers + 1;
      }
    }

    /** `addEntry` as the source writes it: queue the entry; flush at once
        when the immediate-flush test (with its ERROR-for-WARN slip) holds,
        otherwise schedule a timeout unless one is marked. A warning always
        waits for a timer. */
    method AddEntry(e: LogEntry)
      modifies this, base
      ensures Accepted() == old(Accepted()) + [e]
      ensures NonEmptyBatchesFrom(base.calls, |old(base.calls)|)
      ensures ImmediateFlushAsWritten(e.level, flushIfError, flushIfWarn) ==>
        && entries == [] && !timerMarked && liveTimers == old(liveTimers)
        && base.calls == old(base.calls) + [Batch(old(entries) + [e])]
      ensures !ImmediateFlushAsWritten(e.level, flushIfError, flushIfWarn) ==>
        && entries == old(entries) + [e] && base.calls == old(base.calls) && timerMarked
        && liveTimers == old(liveTimers) + (if old(timerMarked) then 0 else 1)
      ensures e.level == Warn ==> base.calls == old(base.calls) && entries == old(entries) + [e]
    {
      WarnNeverFlushesAsWritten(flushIfError, flushIfWarn);
      if ImmediateFlushAsWritten(e.level, flushIfError, flushIfWarn) {
        entries := entries + [e];
        Flush();
      } else {
        Enqueue(e);
      }
    }

    /** `addEntry` as intended: the same, with each severity answering to
        its own flag. */
    method AddEntryCorrected(e: LogEntry)
      modifies this, base
      ensures Accepted() == old(Accepted()) + [e]
      ensures NonEmptyBatchesFrom(base.calls, |old(base.calls)|)
      ensures ImmediateFlush(e.level, flushIfError, flushIfWarn) ==>
        && entries == [] && !timerMarked && liveTimers == old(liveTimers)
        && base.calls == old(base.calls) + [Batch(old(entries) + [e])]
      ensures !ImmediateFlush(e.level, flushIfError, flushIfWarn) ==>
        && entries == old(entries) + [e] && base.calls == old(base.calls) && timerMarked
        && liveTimers == old(liveTimers) + (if old(timerMarked) then 0 else 1)
    {
      if ImmediateFlush(e.level, flushIfError, flushIfWarn) {
        entries := entries + [e];
        Flush();
      } else {
        Enqueue(e);
      }
    }

    /** `addBatch`: `addEntry` on each element, in order. */
    method AddBatch(es: seq<LogEntry>)
      modifies this, base
      ensures DelayerState(entries, timerMarked, liveTimers, base.calls)
        == StepsAsWritten(DelayerState(old(entries), old(timerMarked), old(liveTimers), old(base.calls)),
                          es, flushIfError, flushIfWarn)
      ensures Accepted() == old(Accepted()) + es
      ensures NonEmptyBatchesFrom(base.calls, |old(base.calls)|)
      ensures |old(base.calls)| <= |base.calls|
      ensures base.calls[..|old(base.calls)|] == old(base.calls)
    {
      ghost var s0 := DelayerState(entries, timerMarked, liveTimers, base.calls);
      for i := 0 to |es|
        invariant DelayerState(entries, timerMarked, liveTimers, base.calls)
          == StepsAsWritten(s0, es[..i], flushIfError, flushIfWarn)
      {
        ghost var m := DelayerState(entries, timerMarked, liveTimers, base.calls);
        AddEntry(es[i]);
        assert DelayerState(entries, timerMarked, liveTimers, base.calls)
          == StepAsWritten(m, es[i], flushIfError, flushIfWarn);
        assert es[..i + 1][..i] == es[..i];
      }
      assert es[..|es|] == es;
      StepsAccept(s0, es, flushIfError, flushIfWarn);
    }
  }

  /** With the default parameters a warning is not handed over at once, as
      written: it waits in the queue for the timer. */
  method WarnWaitsAsWritten(w: LogEntry) returns (handed: seq<Call>, queued: seq<LogEntry>)
    requires w.level == Warn
    ensures handed == [] && queued == [w]
  {
    var base := new LogWriter();
    var d := new LogDelayer(base, DelayerParams(None, None, None));
    d.AddEntry(w);
    handed, queued := base.calls, d.entries;
  }

  /** As intended, the same warning is handed over at once. */
  method WarnFlushesCorrected(w: LogEntry) returns (handed: seq<Call>, queued: seq<LogEntry>)
    requires w.level == Warn
    ensures handed == [Batch([w])] && queued == []
  {
    var base := new LogWriter();
    var d := new LogDelayer(base, DelayerParams(None, None, None));
    assert d.flushIfWarn && d.entries == [];
    d.AddEntryCorrected(w);
    assert [] + [w] == [w];
    handed, queued := base.calls, d.entries;
  }

  /** The timeout scheduled for `a` survives the flush forced by the error
      `b`; `c` then schedules a second one, and whichever runs first hands
      `c` over, possibly long before `c`'s own delay has passed. */
  method StaleTimerFlushesLater(a: LogEntry, b: LogEntry, c: LogEntry) returns (handed: seq<Call>)
    requires a.level == Info && b.level == Error && c.level == Info
    ensures handed == [Batch([a, b]), Batch([c])]
  {
    var base := new LogWriter();
    var d := new LogDelayer(base, DelayerParams(None, None, None));
    assert d.flushIfError;
    d.AddEntry(a);
    assert d.entries == [a] && d.liveTimers == 1;
    d.AddEntry(b);
    assert [a] + [b] == [a, b];
    assert base.calls == [Batch([a, b])];
    d.AddEntry(c);
    assert d.liveTimers == 2 && d.entries == [c];
    d.TimerFires();
    handed := base.calls;
  }
}
