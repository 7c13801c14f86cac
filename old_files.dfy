/** Removal of old log files (server.ts, region "Old files remover", and the
    `deleteLogsOlderThan_hours` entry point of core.ts). The directory is an
    abstract listing: each entry carries what `stat` reports and whether
    `stat` or `unlink` fails on it. The clock reading is a parameter. */
module OldFiles {

  const ONE_HOUR := 1000 * 60 * 60

  /** One name in the directory. `isFile` and `mtime` are what `stat`
      reports when it succeeds; `mtime` is in epoch milliseconds. */
  datatype DirEntry = DirEntry(name: string, isFile: bool, mtime: int, statFails: bool, unlinkFails: bool)

  /** What `stat` says of the directory itself. */
  datatype DirStat = Missing | NotADirectory | Directory(entries: seq<DirEntry>)

  /** What one sweep did: the entries it removed and those it warned about,
      each in listing order. */
  datatype SweepReport = SweepReport(deleted: seq<DirEntry>, warned: seq<DirEntry>)

  /** A regular file strictly older than the limit. */
  predicate Expired(e: DirEntry, now: int, maxTime: int) {
    e.isFile && now - e.mtime > maxTime
  }

  /** The entries that get removed: readable, expired, and removable. */
  predicate Removed(e: DirEntry, now: int, maxTime: int) {
    !e.statFails && Expired(e, now, maxTime) && !e.unlinkFails
  }

  /** The entries that get a warning: `stat` failed, or the removal of an
      expired file failed. */
  predicate Warned(e: DirEntry, now: int, maxTime: int) {
    e.statFails || (Expired(e, now, maxTime) && e.unlinkFails)
  }

  /** The per-entry callback over a listing: each entry is handled on its
      own, and a failure on one only adds a warning. */
  function Sweep(entries: seq<DirEntry>, now: int, maxTime: int): SweepReport {
    if entries == [] then SweepReport([], [])
    else
      var r := Sweep(entries[..|entries| - 1], now, maxTime);
      var e := entries[|entries| - 1];
      if e.statFails then SweepReport(r.deleted, r.warned + [e])
      else if !Expired(e, now, maxTime) then r
      else if e.unlinkFails then SweepReport(r.deleted, r.warned + [e])
      else SweepReport(r.deleted + [e], r.warned)
  }

  /** `cleanupOldFiles`: nothing when the path is missing or not a
      directory, otherwise a sweep of its listing. */
  function CleanupOldFiles(dir: DirStat, now: int, maxTime: int): (r: SweepReport)
    ensures !dir.Directory? ==> r.deleted == [] && r.warned == []
    ensures dir.Directory? ==> r == Sweep(dir.entries, now, maxTime)
  {
    if dir.Directory? then Sweep(dir.entries, now, maxTime) else SweepReport([], [])
  }

  /** Exactly the removable expired files are removed, and exactly the
      failures are reported. */
  lemma {:induction false} SweepRemovesExactlyExpired(entries: seq<DirEntry>, now: int, maxTime: int)
    ensures var r := Sweep(entries, now, maxTime);
      && (forall e :: e in r.deleted <==> e in entries && Removed(e, now, maxTime))
      && (forall e :: e in r.warned <==> e in entries && Warned(e, now, maxTime))
  {
    if entries != [] {
      var init := entries[..|entries| - 1];
      SweepRemovesExactlyExpired(init, now, maxTime);
      assert entries == init + [entries[|entries| - 1]];
    }
  }

  /** Entries are handled independently: sweeping a listing is sweeping its
      parts one after the other. */
  lemma {:induction false} SweepIsPerEntry(a: seq<DirEntry>, b: seq<DirEntry>, now: int, maxTime: int)
    ensures var ra, rb := Sweep(a, now, maxTime), Sweep(b, now, maxTime);
      Sweep(a + b, now, maxTime) == SweepReport(ra.deleted + rb.deleted, ra.warned + rb.warned)
  {
    if b == [] {
      assert a + b == a;
    } else {
      var b' := b[..|b| - 1];
      assert (a + b)[..|a + b| - 1] == a + b';
      SweepIsPerEntry(a, b', now, maxTime);
      var ra, rb' := Sweep(a, now, maxTime), Sweep(b', now, maxTime);
      assert ra.deleted + rb'.deleted + [b[|b| - 1]] == ra.deleted + (rb'.deleted + [b[|b| - 1]]);
      assert ra.warned + rb'.warned + [b[|b| - 1]] == ra.warned + (rb'.warned + [b[|b| - 1]]);
    }
  }

  /** The settings a sweep runs with: at least one hour (core.ts raises a
      smaller value to 1), and the directory `logs` when none is given. */
  function SweepSettings(hours: int, logDir: string): (r: (string, int))
    ensures r.1 >= ONE_HOUR
    ensures hours >= 1 ==> r.1 == hours * ONE_HOUR
    ensures hours < 1 ==> r.1 == ONE_HOUR
    ensures r.0 == if logDir == "" then "logs" else logDir
  {
    var h := if hours < 1 then 1 else hours;
    (if logDir == "" then "logs" else logDir, h * ONE_HOUR)
  }

  /** With a two-hour limit, at ten hours past the epoch: a file half an
      hour old stays, one exactly two hours old stays, one three hours old
      goes, an old sub-directory stays, and an old file that cannot be
      removed is reported. */
  lemma TwoHourSweepExample()
    ensures var now := 10 * ONE_HOUR;
      var young := DirEntry("a.log", true, now - ONE_HOUR / 2, false, false);
      var edge := DirEntry("b.log", true, now - 2 * ONE_HOUR, false, false);
      var stale := DirEntry("c.log", true, now - 3 * ONE_HOUR, false, false);
      var sub := DirEntry("d", false, 0, false, false);
      var locked := DirEntry("e.log", true, 0, false, true);
      var (dir, maxTime) := SweepSettings(2, "");
      && dir == "logs"
      && CleanupOldFiles(Directory([young, edge, stale, sub, locked]), now, maxTime)
         == SweepReport([stale], [locked])
  {
    var now := 10 * ONE_HOUR;
    var young := DirEntry("a.log", true, now - ONE_HOUR / 2, false, false);
    var edge := DirEntry("b.log", true, now - 2 * ONE_HOUR, false, false);
    var stale := DirEntry("c.log", true, now - 3 * ONE_HOUR, false, false);
    var sub := DirEntry("d", false, 0, false, false);
    var locked := DirEntry("e.log", true, 0, false, true);
    var es := [young, edge, stale, sub, locked];
    assert es[..4] == [young, edge, stale, sub];
    assert es[..4][..3] == [young, edge, stale];
    assert es[..4][..3][..2] == [young, edge];
    assert es[..4][..3][..2][..1] == [young];
    assert [young][..0] == [];
    var maxTime := 2 * ONE_HOUR;
    assert Sweep([young], now, maxTime) == SweepReport([], []);
    assert Sweep([young, edge], now, maxTime) == SweepReport([], []);
    assert Sweep([young, edge, stale], now, maxTime) == SweepReport([stale], []);
    assert Sweep([young, edge, stale, sub], now, maxTime) == SweepReport([stale], []);
  }
}
