/** The file writer, its open/closed state machine and the size-based
    rotator (server.ts, regions "FileLogWriter" and "File Rotator"). The
    write stream is the log file's path plus `streamEnded`; a write goes
    straight to the end of the file. Timers and application hooks are method
    calls, and the clock a rotation reads is a parameter. */
module Server {
  import opened Common
  import opened Files
  import opened RotatedNames
  import Formaters

  /** `LogFileRotate`. */
  datatype Rotate = NoRotate | OnSize

  /** `FileLogWriterParams`, plus `clearFileOnStart`, which the constructor
      reads too; a missing field is `None`. */
  datatype FileParams = FileParams(
    logDir: Option<string>,
    fileName: Option<string>,
    rotate: Option<Rotate>,
    maxFileSizeMb: Option<int>,
    zipArchive: Option<bool>,
    clearFileOnStart: Option<bool>)

  /** The settings a writer keeps after applying the defaults. */
  datatype FileConfig = FileConfig(
    logDir: string,
    fileName: string,
    rotate: Rotate,
    maxFileSizeMb: int,
    zipArchive: bool,
    clearFileOnStart: bool)

  /** The constructor's `||` defaults: an empty or missing name or directory
      and a missing or zero size are replaced; only an explicit `true` zips or
      clears; rotation is off unless asked for. */
  function Configure(p: FileParams): (c: FileConfig)
    ensures c.fileName != "" && c.logDir != "" && c.maxFileSizeMb != 0
    ensures p.fileName.Some? && p.fileName.value != "" ==> c.fileName == p.fileName.value
    ensures p.fileName.None? || p.fileName.value == "" ==> c.fileName == "logfile.log"
    ensures p.logDir.Some? && p.logDir.value != "" ==> c.logDir == p.logDir.value
    ensures p.logDir.None? || p.logDir.value == "" ==> c.logDir == "logs"
    ensures c.rotate == OnSize <==> p.rotate == Some(OnSize)
    ensures p.maxFileSizeMb.Some? && p.maxFileSizeMb.value != 0 ==> c.maxFileSizeMb == p.maxFileSizeMb.value
    ensures p.maxFileSizeMb.None? || p.maxFileSizeMb.value == 0 ==> c.maxFileSizeMb == 100
    ensures c.zipArchive <==> p.zipArchive == Some(true)
    ensures c.clearFileOnStart <==> p.clearFileOnStart == Some(true)
  {
    FileConfig(
      if p.logDir.Some? && p.logDir.value != "" then p.logDir.value else "logs",
      if p.fileName.Some? && p.fileName.value != "" then p.fileName.value else "logfile.log",
      p.rotate.GetOr(NoRotate),
      if p.maxFileSizeMb.Some? && p.maxFileSizeMb.value != 0 then p.maxFileSizeMb.value else 100,
      p.zipArchive == Some(true),
      p.clearFileOnStart == Some(true))
  }

  /** What the writer puts in the file for one entry. */
  function Line(f: LogEntry -> string, e: LogEntry): string {
    f(e) + "\n"
  }

  /** The text a run of entries becomes, one line each, in order. */
  function Render(f: LogEntry -> string, es: seq<LogEntry>): (r: string)
    ensures |r| >= |es|
  {
    if es == [] then "" else Render(f, es[..|es| - 1]) + Line(f, es[|es| - 1])
  }

  /** Rendering is compositional. */
  lemma {:induction false} RenderAppend(f: LogEntry -> string, a: seq<LogEntry>, b: seq<LogEntry>)
    ensures Render(f, a + b) == Render(f, a) + Render(f, b)
  {
    if b == [] {
      assert a + b == a;
    } else {
      var b' := b[..|b| - 1];
      assert (a + b)[..|a + b| - 1] == a + b';
      RenderAppend(f, a, b');
    }
  }

  /** The files after the lines for `es` were written, one write per entry,
      at the end of `p`. */
  function WriteLines(files: map<FilePath, FileData>, p: FilePath, f: LogEntry -> string, es: seq<LogEntry>)
    : map<FilePath, FileData>
  {
    if es == [] then files
    else
      var before := WriteLines(files, p, f, es[..|es| - 1]);
      before[p := Plain(TextAt(before, p) + Line(f, es[|es| - 1]))]
  }

  /** Writing the entries one by one leaves `p` holding its old text followed
      by their rendering, and touches no other file. */
  lemma {:induction false} WriteLinesAppendsRender(files: map<FilePath, FileData>, p: FilePath,
                                                   f: LogEntry -> string, es: seq<LogEntry>)
    ensures WriteLines(files, p, f, es) ==
      if es == [] then files else files[p := Plain(TextAt(files, p) + Render(f, es))]
  {
    if es != [] {
      var es' := es[..|es| - 1];
      var line := Line(f, es[|es| - 1]);
      WriteLinesAppendsRender(files, p, f, es');
      var t, r' := TextAt(files, p), Render(f, es');
      assert Render(f, es) == r' + line;
      if es' == [] {
        assert WriteLines(files, p, f, es) == files[p := Plain(TextAt(files, p) + line)];
        assert r' == "" && t + line == t + Render(f, es);
      } else {
        AppendToWritten(files, p, t + r', line);
        assert t + r' + line == t + Render(f, es);
      }
    }
  }

  /** Appending to a file whose text was just set appends to that text. */
  lemma AppendToWritten(files: map<FilePath, FileData>, p: FilePath, t: string, line: string)
    ensures var before := files[p := Plain(t)];
      before[p := Plain(TextAt(before, p) + line)] == files[p := Plain(t + line)]
  {
  }

  /** The files after `openFile`: the directory exists, the file is removed
      first when asked to, and opening for append creates it when missing. */
  function Opened(files: map<FilePath, FileData>, p: FilePath, clear: bool): (r: map<FilePath, FileData>)
    ensures p in r
    ensures r[p] == if clear || p !in files then Plain("") else files[p]
    ensures r - {p} == files - {p}
  {
    var kept := if clear then files - {p} else files;
    if p in kept then kept else kept[p := Plain("")]
  }

  /** `fileSizeInMB > maxFileSize_mb`, with `fileSizeInMB` the size in bytes
      over 1024 * 1024, stated on integers. */
  function MustRotate(size: nat, maxMb: int): bool {
    size > maxMb * 1048576
  }

  /** The integer test is the source's division test. */
  lemma MustRotateIsMegabyteTest(size: nat, maxMb: int)
    ensures MustRotate(size, maxMb) <==> (size as real) / (1024.0 * 1024.0) > maxMb as real
  {
    var mb := (size as real) / 1048576.0;
    assert size as real == mb * 1048576.0;
    if MustRotate(size, maxMb) {
      assert (maxMb * 1048576) as real < size as real;
    } else {
      assert size as real <= (maxMb * 1048576) as real;
    }
  }

  /** Where `renameFile` moves `p`: a new name in the same directory, whose
      compressed copy is a third name. */
  function RotatedPath(p: FilePath, c: Clock): (q: FilePath)
    ensures q.dir == p.dir && q != p && GzipPath(q) != p && GzipPath(q) != q
  {
    RotatedPathIsNew(p, DateStamp(c));
    FilePath(p.dir, RotatedName(p.name, DateStamp(c)))
  }

  /** The same, with the date stamp as the source builds it. */
  function RotatedPathAsWritten(p: FilePath, c: Clock): (q: FilePath)
    ensures q.dir == p.dir && q != p && GzipPath(q) != p && GzipPath(q) != q
  {
    RotatedPathIsNew(p, DateStampAsWritten(c));
    FilePath(p.dir, RotatedName(p.name, DateStampAsWritten(c)))
  }

  /** As written, two rotations of the same file a week apart, at the same
      time of day, rename to the same path. Between them the file grew again
      to `mid`, past the limit; the second rename replaces the first
      archive, so what `p` held at the first rotation is gone. */
  lemma AsWrittenRotationsOverwrite(files: map<FilePath, FileData>, p: FilePath, mid: string, maxMb: int)
    requires p in files && MustRotate(Size(files, p), maxMb) && MustRotate(|mid|, maxMb)
    ensures var a := Clock(2026, 2026, 0, 5, 1, 12, 0, 0);
      var b := Clock(2026, 2026, 0, 12, 1, 12, 0, 0);
      var q := RotatedPathAsWritten(p, a);
      && q == RotatedPathAsWritten(p, b)
      && var once := AfterRotation(files, p, q, false, "");
      && once[q] == files[p]
      && AfterRotation(once[p := Plain(mid)], p, q, false, "")[q] == Plain(mid)
  {
    AsWrittenStampCollides();
  }

  /** With the corrected stamp, two rotations a week apart, at the same time
      of day (the two Mondays above are one such pair), keep both archives. */
  lemma RotationsAWeekApartKeepBoth(files: map<FilePath, FileData>, p: FilePath, mid: string, maxMb: int, a: Clock)
    requires p in files && MustRotate(Size(files, p), maxMb) && MustRotate(|mid|, maxMb)
    requires ValidClock(a) && ValidClock(a.(utcDate := a.utcDate + 7))
    ensures var qa, qb := RotatedPath(p, a), RotatedPath(p, a.(utcDate := a.utcDate + 7));
      && qa != qb
      && var once := AfterRotation(files, p, qa, false, "");
      && var twice := AfterRotation(once[p := Plain(mid)], p, qb, false, "");
      && twice[qa] == files[p] && twice[qb] == Plain(mid)
  {
    DistinctDaysKeepBoth(files, p, a, a.(utcDate := a.utcDate + 7), mid);
  }

  /** Rotations on two different days rename to two different paths, so the
      second, of the text `mid` written since, does not replace the first
      archive. */
  lemma DistinctDaysKeepBoth(files: map<FilePath, FileData>, p: FilePath, a: Clock, b: Clock, mid: string)
    requires p in files && ValidClock(a) && ValidClock(b) && a.utcDate != b.utcDate
    ensures var qa, qb := RotatedPath(p, a), RotatedPath(p, b);
      && qa != qb
      && var once := AfterRotation(files, p, qa, false, "");
      && var twice := AfterRotation(once[p := Plain(mid)], p, qb, false, "");
      && twice[qa] == files[p] && twice[qb] == Plain(mid)
  {
    if DateStamp(a) == DateStamp(b) {
      DateStampInjective(a, b);
    }
    DateStampRoundTrip(a);
    DateStampRoundTrip(b);
    RotatedNameLayout(p.name, DateStamp(a), DateStamp(b));
    var qa, qb := RotatedPath(p, a), RotatedPath(p, b);
    assert qa != qb;
    var once := AfterRotation(files, p, qa, false, "");
    assert once[qa] == files[p];
    var between := once[p := Plain(mid)];
    assert between[qa] == files[p];
    var twice := AfterRotation(between, p, qb, false, "");
    assert twice[qa] == between[qa];
  }

  /** The rotated file, its compressed copy and the live file are three
      different paths. */
  lemma RotatedPathIsNew(p: FilePath, stamp: string)
    ensures var q := FilePath(p.dir, RotatedName(p.name, stamp));
      q != p && GzipPath(q) != p && GzipPath(q) != q
  {
    RotatedNameLayout(p.name, stamp, stamp);
  }

  /** The files after one rotation of `p` to `q`: `q` (or, when zipping,
      only `q.gz`) holds everything `p` held, and `p` starts over holding
      `restart`, the lines written since; no other file changes. */
  function AfterRotation(files: map<FilePath, FileData>, p: FilePath, q: FilePath, zip: bool, restart: string)
    : (r: map<FilePath, FileData>)
    requires p in files && q != p && GzipPath(q) != p && GzipPath(q) != q
    ensures p in r && r[p] == Plain(restart)
    ensures zip ==> q !in r && GzipPath(q) in r && r[GzipPath(q)] == Gzipped(files[p].text)
    ensures !zip ==> q in r && r[q] == files[p]
    ensures forall k :: k != p && k != q && k != GzipPath(q) ==>
      (k in r <==> k in files) && (k in r ==> r[k] == files[k])
  {
    var moved := (files - {p})[q := files[p]][p := Plain(restart)];
    if zip then moved[GzipPath(q) := Gzipped(files[p].text)] - {q} else moved
  }

  /** Reopening a file that was just renamed away and writing `pending` to
      it leaves exactly their rendering there. */
  lemma ReopenAfterRename(renamed: map<FilePath, FileData>, p: FilePath, f: LogEntry -> string,
                          pending: seq<LogEntry>)
    requires p !in renamed
    ensures WriteLines(Opened(renamed, p, false), p, f, pending) == renamed[p := Plain(Render(f, pending))]
  {
    var reopened := Opened(renamed, p, false);
    assert reopened == renamed[p := Plain("")];
    WriteLinesAppendsRender(reopened, p, f, pending);
    if pending != [] {
      assert reopened[p := Plain(TextAt(reopened, p) + Render(f, pending))]
          == renamed[p := Plain(Render(f, pending))];
    }
  }

  /** What a writer in state (`closed`, `buffer`) holds back: an open
      writer's buffer is never replayed. */
  function HeldBack(closed: bool, buffer: seq<LogEntry>): seq<LogEntry> {
    if closed then buffer else []
  }

  /** `FileLogWriter`. */
  class FileLogWriter {
    const fs: FileSystem
    /** `path.join(logDir, fileName)`, the only path the writer writes to. */
    const path: FilePath
    const rotate: Rotate
    const zipArchive: bool
    const maxFileSizeMb: int
    const formatter: LogEntry -> string
    var isClosed: bool
    var buffer: seq<LogEntry>
    /** `end()` was called on the current stream: later writes are lost. */
    var streamEnded: bool

    /** An open writer holds nothing back. */
    predicate Valid()
      reads this
    {
      !isClosed ==> buffer == []
    }

    /** The constructor: apply the defaults, open (and maybe clear) the file,
        join the rotator when rotating on size, then declare the writer open.
        The second opening finds the file in place and changes nothing. */
    constructor (params: FileParams, formatter: LogEntry -> string, fs: FileSystem, rotator: FileRotator)
      requires rotator.Valid() && rotator.fs == fs
      modifies fs, rotator
      ensures this.fs == fs && this.formatter == formatter
      ensures var c := Configure(params);
        && path == FilePath(c.logDir, c.fileName) && rotate == c.rotate
        && zipArchive == c.zipArchive && maxFileSizeMb == c.maxFileSizeMb
        && fs.files == Opened(old(fs.files), path, c.clearFileOnStart)
        && fs.dirs == old(fs.dirs) + {c.logDir}
        && rotator.clients == old(rotator.clients) + (if c.rotate == OnSize then [this] else [])
      ensures Valid() && !isClosed && buffer == [] && !streamEnded
      ensures rotator.Valid() && rotator.hotReload == old(rotator.hotReload)
      ensures rotator.starts == old(rotator.starts) + (if !old(rotator.started) && rotate == OnSize then 1 else 0)
      ensures rotator.checkDue == (old(rotator.checkDue) || (!old(rotator.started) && rotate == OnSize))
    {
      var c := Configure(params);
      this.fs := fs;
      this.formatter := formatter;
      path := FilePath(c.logDir, c.fileName);
      rotate := c.rotate;
      zipArchive := c.zipArchive;
      maxFileSizeMb := c.maxFileSizeMb;
      isClosed := true;
      buffer := [];
      streamEnded := false;
      new;
      OpenFile(c.clearFileOnStart);
      if rotate == OnSize {
        rotator.Register(this);
      }
      DeclareOpenAsWritten();
    }

    /** `openFile`: make the directory, remove the file when asked to, and
        open a fresh append stream on it. */
    method OpenFile(clear: bool)
      modifies this, fs
      ensures fs.files == Opened(old(fs.files), path, clear)
      ensures fs.dirs == old(fs.dirs) + {path.dir}
      ensures !streamEnded && isClosed == old(isClosed) && buffer == old(buffer)
    {
      fs.MakeDir(path.dir);
      if clear {
        fs.Unlink(path);
      }
      fs.OpenForAppend(path);
      streamEnded := false;
    }

    /** `addEntry`: buffer while closed; otherwise write the formatted line
        (which an ended stream drops). */
    method AddEntry(e: LogEntry)
      modifies this, fs
      ensures isClosed == old(isClosed) && streamEnded == old(streamEnded) && fs.dirs == old(fs.dirs)
      ensures isClosed ==> buffer == old(buffer) + [e] && fs.files == old(fs.files)
      ensures !isClosed ==> (buffer == old(buffer)
        && fs.files == WriteLines(old(fs.files), path, formatter, if streamEnded then [] else [e]))
    {
      if isClosed {
        buffer := buffer + [e];
      } else if !streamEnded {
        fs.Append(path, Line(formatter, e));
      }
    }

    /** `addBatch`: `addEntry` on each element, in order. */
    method AddBatch(es: seq<LogEntry>)
      modifies this, fs
      ensures isClosed == old(isClosed) && streamEnded == old(streamEnded) && fs.dirs == old(fs.dirs)
      ensures isClosed ==> buffer == old(buffer) + es && fs.files == old(fs.files)
      ensures !isClosed ==> (buffer == old(buffer)
        && fs.files == WriteLines(old(fs.files), path, formatter, if streamEnded then [] else es))
    {
      for i := 0 to |es|
        invariant isClosed == old(isClosed) && streamEnded == old(streamEnded) && fs.dirs == old(fs.dirs)
        invariant isClosed ==> buffer == old(buffer) + es[..i] && fs.files == old(fs.files)
        invariant !isClosed ==> (buffer == old(buffer)
          && fs.files == WriteLines(old(fs.files), path, formatter, if streamEnded then [] else es[..i]))
      {
        AddEntry(es[i]);
        assert es[..i + 1][..i] == es[..i];
      }
      assert es[..|es|] == es;
    }

    /** `flush`: end the current stream. */
    method Flush()
      modifies this
      ensures streamEnded && isClosed == old(isClosed) && buffer == old(buffer)
    {
      streamEnded := true;
    }

    /** `declareClosed`: a second call changes nothing. */
    method DeclareClosed()
      modifies this
      ensures isClosed && streamEnded == old(streamEnded)
      ensures buffer == if old(isClosed) then old(buffer) else []
    {
      if !isClosed {
        isClosed := true;
        buffer := [];
      }
    }

    /** `onBeforeFileRotation`: an open writer closes and ends its stream; a
        closed one is left as it is. */
    method OnBeforeFileRotation()
      modifies this
      ensures isClosed
      ensures old(isClosed) ==> buffer == old(buffer) && streamEnded == old(streamEnded)
      ensures !old(isClosed) ==> buffer == [] && streamEnded
    {
      if isClosed {
        return;
      }
      DeclareClosed();
      streamEnded := true;
    }

    /** `declareOpen` as the source writes it: the buffer is replayed through
        `addBatch` while `isClosed` is still set, so every replayed entry is
        buffered again and then dropped with the buffer. */
    method DeclareOpenAsWritten()
      modifies this, fs
      ensures !isClosed && (old(Valid()) ==> Valid())
      ensures old(isClosed) ==> (buffer == [] && !streamEnded
        && fs.files == Opened(old(fs.files), path, false)
        && fs.dirs == old(fs.dirs) + {path.dir})
      ensures !old(isClosed) ==> (streamEnded == old(streamEnded) && buffer == old(buffer)
        && fs.files == old(fs.files) && fs.dirs == old(fs.dirs))
    {
      if isClosed {
        OpenFile(false);
        AddBatch(buffer);
        buffer := [];
      }
      isClosed := false;
    }

    /** `declareOpen` as intended: reopen the file, then write the buffered
        entries to it, in order. */
    method DeclareOpen()
      modifies this, fs
      ensures !isClosed && (old(Valid()) ==> Valid())
      ensures old(isClosed) ==> (buffer == [] && !streamEnded
        && fs.files == WriteLines(Opened(old(fs.files), path, false), path, formatter, old(buffer))
        && fs.dirs == old(fs.dirs) + {path.dir})
      ensures !old(isClosed) ==> (streamEnded == old(streamEnded) && buffer == old(buffer)
        && fs.files == old(fs.files) && fs.dirs == old(fs.dirs))
    {
      if isClosed {
        OpenFile(false);
        var pending := buffer;
        buffer := [];
        isClosed := false;
        AddBatch(pending);
      } else {
        isClosed := false;
      }
    }

    /** `onAfterFileRotation`, which runs `declareOpen` as written: the file
        is reopened, and what was held back while closed is dropped. */
    method OnAfterFileRotation()
      modifies this, fs
      ensures !isClosed && (old(Valid()) ==> Valid())
      ensures old(isClosed) ==> (buffer == [] && !streamEnded
        && fs.files == Opened(old(fs.files), path, false)
        && fs.dirs == old(fs.dirs) + {path.dir})
      ensures !old(isClosed) ==> (streamEnded == old(streamEnded) && buffer == old(buffer)
        && fs.files == old(fs.files) && fs.dirs == old(fs.dirs))
    {
      DeclareOpenAsWritten();
    }

    /** `onAfterFileRotation` over the corrected `declareOpen`: what was held
        back is written to the reopened file, in order. */
    method OnAfterFileRotationCorrected()
      modifies this, fs
      ensures !isClosed && (old(Valid()) ==> Valid())
      ensures old(isClosed) ==> (buffer == [] && !streamEnded
        && fs.files == WriteLines(Opened(old(fs.files), path, false), path, formatter, old(buffer))
        && fs.dirs == old(fs.dirs) + {path.dir})
      ensures !old(isClosed) ==> (streamEnded == old(streamEnded) && buffer == old(buffer)
        && fs.files == old(fs.files) && fs.dirs == old(fs.dirs))
    {
      DeclareOpen();
    }

    /** The application-exited hook as written: a writer caught closed
        reopens its file, drops what it held back and closes again; then the
        stream ends. */
    method OnAppExited()
      modifies this, fs
      ensures streamEnded && isClosed == old(isClosed)
      ensures old(isClosed) ==> (buffer == []
        && fs.files == Opened(old(fs.files), path, false)
        && fs.dirs == old(fs.dirs) + {path.dir})
      ensures !old(isClosed) ==> (buffer == old(buffer)
        && fs.files == old(fs.files) && fs.dirs == old(fs.dirs))
    {
      if isClosed {
        DeclareOpenAsWritten();
        DeclareClosed();
      }
      streamEnded := true;
    }

    /** The application-exited hook over the corrected `declareOpen`: what a
        closed writer held back is written out before it closes again. */
    method OnAppExitedCorrected()
      modifies this, fs
      ensures streamEnded && isClosed == old(isClosed)
      ensures old(isClosed) ==> (buffer == []
        && fs.files == WriteLines(Opened(old(fs.files), path, false), path, formatter, old(buffer))
        && fs.dirs == old(fs.dirs) + {path.dir})
      ensures !old(isClosed) ==> (buffer == old(buffer)
        && fs.files == old(fs.files) && fs.dirs == old(fs.dirs))
    {
      if isClosed {
        DeclareOpen();
        DeclareClosed();
      }
      streamEnded := true;
    }
  }
  /** The default parameters. */
  const NoParams := FileParams(None, None, None, None, None, None)

  /** `newFileWriter`: the dated plain format unless a formatter is given,
      and the defaults of `Configure` unless parameters are given. */
  method NewFileWriter(formatter: Option<LogEntry -> string>, params: Option<FileParams>,
                       isoDate: int -> string, stringify: Data -> string,
                       fs: FileSystem, rotator: FileRotator)
    returns (w: FileLogWriter)
    requires rotator.Valid() && rotator.fs == fs
    modifies fs, rotator
    ensures fresh(w) && w.fs == fs && w.Valid() && !w.isClosed && w.buffer == [] && !w.streamEnded
    ensures formatter.Some? ==> w.formatter == formatter.value
    ensures formatter.None? ==> forall e :: w.formatter(e) == Formaters.DateTypeTitleSourceData(e, isoDate, stringify)
    ensures var c := Configure(params.GetOr(NoParams));
      && w.path == FilePath(c.logDir, c.fileName) && w.rotate == c.rotate
      && w.zipArchive == c.zipArchive && w.maxFileSizeMb == c.maxFileSizeMb
      && fs.files == Opened(old(fs.files), w.path, c.clearFileOnStart)
      && fs.dirs == old(fs.dirs) + {c.logDir}
      && rotator.clients == old(rotator.clients) + (if c.rotate == OnSize then [w] else [])
    ensures rotator.Valid()
  {
    var f := if formatter.Some? then formatter.value
             else (e: LogEntry) => Formaters.DateTypeTitleSourceData(e, isoDate, stringify);
    var p := params.GetOr(NoParams);
    w := new FileLogWriter(p, f, fs, rotator);
  }

  /** The rotator: the registered writers (`gFileRotatorClients`), whether the
      poller was started (`gIsFileRotatorStarted`), and the hot-reload flag.
      `checkDue` stands for the pending `check` call or timer. */
  class FileRotator {
    const fs: FileSystem
    var clients: seq<FileLogWriter>
    var started: bool
    /** How many times the poller was started. */
    ghost var starts: nat
    var checkDue: bool
    var hotReload: bool

    /** The poller runs once there is a client, and was started exactly once;
        every client writes to this file system. */
    ghost predicate Valid()
      reads this
    {
      && (started <==> |clients| > 0)
      && starts == (if started then 1 else 0)
      && forall i :: 0 <= i < |clients| ==> clients[i].fs == fs
    }

    constructor (fs: FileSystem)
      ensures Valid() && this.fs == fs && clients == [] && !checkDue && !hotReload
    {
      this.fs := fs;
      clients := [];
      started := false;
      starts := 0;
      checkDue := false;
      hotReload := false;
    }

    /** `addToFileRotator`: append the client; the first one starts the
        poller, whose first check runs at once. */
    method Register(c: FileLogWriter)
      requires Valid() && c.fs == fs
      modifies this
      ensures Valid()
      ensures clients == old(clients) + [c] && started && hotReload == old(hotReload)
      ensures starts == old(starts) + (if old(started) then 0 else 1)
      ensures checkDue == (old(checkDue) || !old(started))
    {
      clients := clients + [c];
      if !started {
        started := true;
        starts := starts + 1;
        checkDue := true;
      }
    }

    /** One client of `check`, as written. A missing file (ENOENT) is
        skipped. A file larger than the client's limit is rotated: the
        writer closes, the file is renamed under the as-written stamp, the
        writer reopens a fresh, empty file and, when asked to, the renamed
        file is replaced by its gzip copy. `during` are the entries logged
        to the writer while the rename is under way; they are lost, with
        whatever a closed writer held back. */
    method CheckClient(c: FileLogWriter, clock: Clock, during: seq<LogEntry>) returns (rotated: bool)
      requires c.fs == fs
      modifies c, fs
      ensures rotated <==> c.path in old(fs.files) && MustRotate(Size(old(fs.files), c.path), c.maxFileSizeMb)
      ensures !rotated ==> (fs.files == old(fs.files) && fs.dirs == old(fs.dirs)
        && c.isClosed == old(c.isClosed) && c.buffer == old(c.buffer) && c.streamEnded == old(c.streamEnded))
      ensures rotated ==> (c.Valid() && !c.isClosed && !c.streamEnded
        && fs.dirs == old(fs.dirs) + {c.path.dir}
        && fs.files == AfterRotation(old(fs.files), c.path, RotatedPathAsWritten(c.path, clock), c.zipArchive, ""))
    {
      var p := c.path;
      if p !in fs.files {
        return false;
      }
      if !MustRotate(Size(fs.files, p), c.maxFileSizeMb) {
        return false;
      }
      rotated := true;
      var q := RotatedPathAsWritten(p, clock);
      c.OnBeforeFileRotation();
      c.AddBatch(during);
      fs.Rename(p, q);
      ghost var renamed := fs.files;
      c.OnAfterFileRotation();
      assert fs.files == renamed[p := Plain("")];
      if c.zipArchive {
        fs.Gzip(q);
        fs.Unlink(q);
      }
    }

    /** One client of `check` with both slips corrected: the archive is
        named by the UTC date and time, and what the writer held back,
        then what was logged during the rename, starts the new file. */
    method CheckClientCorrected(c: FileLogWriter, clock: Clock, during: seq<LogEntry>) returns (rotated: bool)
      requires c.fs == fs
      modifies c, fs
      ensures rotated <==> c.path in old(fs.files) && MustRotate(Size(old(fs.files), c.path), c.maxFileSizeMb)
      ensures !rotated ==> (fs.files == old(fs.files) && fs.dirs == old(fs.dirs)
        && c.isClosed == old(c.isClosed) && c.buffer == old(c.buffer) && c.streamEnded == old(c.streamEnded))
      ensures rotated ==> (c.Valid() && !c.isClosed && !c.streamEnded
        && fs.dirs == old(fs.dirs) + {c.path.dir}
        && fs.files == AfterRotation(old(fs.files), c.path, RotatedPath(c.path, clock), c.zipArchive,
                                     Render(c.formatter, HeldBack(old(c.isClosed), old(c.buffer)) + during)))
    {
      var p := c.path;
      if p !in fs.files {
        return false;
      }
      if !MustRotate(Size(fs.files, p), c.maxFileSizeMb) {
        return false;
      }
      rotated := true;
      var q := RotatedPath(p, clock);
      c.OnBeforeFileRotation();
      c.AddBatch(during);
      assert c.isClosed && c.buffer == HeldBack(old(c.isClosed), old(c.buffer)) + during;
      ghost var pending := c.buffer;
      fs.Rename(p, q);
      ghost var renamed := fs.files;
      c.OnAfterFileRotationCorrected();
      ReopenAfterRename(renamed, p, c.formatter, pending);
      assert fs.files == renamed[p := Plain(Render(c.formatter, pending))];
      if c.zipArchive {
        fs.Gzip(q);
        fs.Unlink(q);
      }
    }

    /** `check`: nothing while hot reload is on, and no new timer either;
        otherwise every client in turn, then schedule the next check. A
        client that was open is open afterwards. */
    method Check(clock: Clock)
      requires Valid()
      modifies this, fs, clients
      ensures Valid() && clients == old(clients) && hotReload == old(hotReload)
      ensures checkDue == !hotReload
      ensures hotReload ==> (fs.files == old(fs.files)
        && forall i :: 0 <= i < |clients| ==> clients[i].isClosed == old(clients[i].isClosed))
      ensures forall i :: 0 <= i < |clients| && !old(clients[i].isClosed) ==> !clients[i].isClosed
    {
      if hotReload {
        checkDue := false;
        return;
      }
      for i := 0 to |clients|
        invariant Valid() && clients == old(clients) && hotReload == old(hotReload)
        invariant forall c :: c in clients && !old(c.isClosed) ==> !c.isClosed
      {
        var c := clients[i];
        var _ := CheckClient(c, clock, []);
      }
      checkDue := true;
    }

    /** Every client's stream is ended. */
    method FlushAll()
      requires Valid()
      modifies clients
      ensures forall i :: 0 <= i < |clients| ==> clients[i].streamEnded
      ensures forall i :: 0 <= i < |clients| ==>
        clients[i].isClosed == old(clients[i].isClosed) && clients[i].buffer == old(clients[i].buffer)
    {
      for i := 0 to |clients|
        invariant forall j :: 0 <= j < i ==> clients[j].streamEnded
        invariant forall j :: 0 <= j < |clients| ==>
          clients[j].isClosed == old(clients[j].isClosed) && clients[j].buffer == old(clients[j].buffer)
      {
        clients[i].Flush();
      }
    }

    /** The application-exiting hook. */
    method OnAppExiting()
      requires Valid()
      modifies clients
      ensures forall i :: 0 <= i < |clients| ==> clients[i].streamEnded
      ensures forall i :: 0 <= i < |clients| ==>
        clients[i].isClosed == old(clients[i].isClosed) && clients[i].buffer == old(clients[i].buffer)
    {
      FlushAll();
    }

    /** The hot-reload hook: checks stop and every stream ends. */
    method OnHotReload()
      requires Valid()
      modifies this, clients
      ensures Valid() && hotReload && clients == old(clients)
      ensures started == old(started) && checkDue == old(checkDue)
      ensures forall i :: 0 <= i < |clients| ==> clients[i].streamEnded
      ensures forall i :: 0 <= i < |clients| ==>
        clients[i].isClosed == old(clients[i].isClosed) && clients[i].buffer == old(clients[i].buffer)
    {
      hotReload := true;
      FlushAll();
    }
  }

  /** A rotation window as written: entries logged while the file is being
      renamed reach neither the archive nor the new file, and are not held
      back either. */
  method RotationWindowAsWritten(f: LogEntry -> string, before: seq<LogEntry>, during: seq<LogEntry>, clock: Clock)
    returns (archived: string, live: string, held: seq<LogEntry>)
    ensures archived == Render(f, before) && live == "" && held == []
  {
    var fs, w, _ := WriterWith(f, before, NoParams);
    var p := w.path;
    w.OnBeforeFileRotation();
    w.AddBatch(during);
    var q := RotatedPathAsWritten(p, clock);
    fs.Rename(p, q);
    assert TextAt(fs.files, q) == Render(f, before);
    w.OnAfterFileRotation();
    archived, live, held := TextAt(fs.files, q), TextAt(fs.files, p), w.buffer;
  }

  /** The same window with both slips corrected: the archive holds what was
      written before, the new file what was logged during the rename. */
  method RotationWindow(f: LogEntry -> string, before: seq<LogEntry>, during: seq<LogEntry>, clock: Clock)
    returns (archived: string, live: string, held: seq<LogEntry>)
    ensures archived == Render(f, before) && live == Render(f, during) && held == []
  {
    var fs, w, _ := WriterWith(f, before, NoParams);
    var p := w.path;
    w.OnBeforeFileRotation();
    w.AddBatch(during);
    assert w.buffer == during;
    var q := RotatedPath(p, clock);
    fs.Rename(p, q);
    assert TextAt(fs.files, q) == Render(f, before);
    ghost var renamed := fs.files;
    w.OnAfterFileRotationCorrected();
    ReopenAfterRename(renamed, p, f, during);
    archived, live, held := TextAt(fs.files, q), TextAt(fs.files, p), w.buffer;
  }

  /** A new writer on an empty file system, with the rotator it joined,
      after `es` were logged to it: its file holds their lines. */
  method WriterWith(f: LogEntry -> string, es: seq<LogEntry>, params: FileParams)
    returns (fs: FileSystem, w: FileLogWriter, rotator: FileRotator)
    ensures w.fs == fs && w.formatter == f && !w.isClosed && !w.streamEnded && w.buffer == []
    ensures w.path == FilePath(Configure(params).logDir, Configure(params).fileName)
    ensures w.rotate == Configure(params).rotate && w.maxFileSizeMb == Configure(params).maxFileSizeMb
    ensures w.zipArchive == Configure(params).zipArchive
    ensures w.path in fs.files && fs.files[w.path] == Plain(Render(f, es))
    ensures rotator.fs == fs && rotator.Valid()
    ensures rotator.clients == if w.rotate == OnSize then [w] else []
    ensures fresh(fs) && fresh(w) && fresh(rotator)
  {
    fs := new FileSystem(map[], {});
    rotator := new FileRotator(fs);
    w := new FileLogWriter(params, f, fs, rotator);
    ghost var start := fs.files;
    assert start == map[w.path := Plain("")];
    w.AddBatch(es);
    WriteLinesAppendsRender(start, w.path, f, es);
  }

  /** A size-rotated writer end to end, as written: once the file passes the
      default 100 MB, the rotator it joined checks it and moves everything
      written so far to the archive; what is logged during the rotation is
      lost, and the new file receives only what is logged after it. */
  method SizeRotationAsWritten(f: LogEntry -> string, before: seq<LogEntry>, during: seq<LogEntry>,
                               after: seq<LogEntry>, clock: Clock)
    returns (rotated: bool, archived: string, live: string)
    requires |Render(f, before)| > 100 * 1048576
    ensures rotated && archived == Render(f, before) && live == Render(f, after)
  {
    var fs, w, rotator := WriterWith(f, before, FileParams(None, None, Some(OnSize), None, None, None));
    var p := w.path;
    assert MustRotate(Size(fs.files, p), w.maxFileSizeMb);
    rotated := rotator.CheckClient(rotator.clients[0], clock, during);
    var q := RotatedPathAsWritten(p, clock);
    assert fs.files[p] == Plain("");
    ghost var mid := fs.files;
    w.AddBatch(after);
    WriteLinesAppendsRender(mid, p, f, after);
    archived, live := TextAt(fs.files, q), TextAt(fs.files, p);
  }

  /** The same with both slips corrected: the new file receives what is
      logged during and after the rotation. */
  method SizeRotation(f: LogEntry -> string, before: seq<LogEntry>, during: seq<LogEntry>,
                      after: seq<LogEntry>, clock: Clock)
    returns (rotated: bool, archived: string, live: string)
    requires |Render(f, before)| > 100 * 1048576
    ensures rotated && archived == Render(f, before) && live == Render(f, during + after)
  {
    var fs, w, rotator := WriterWith(f, before, FileParams(None, None, Some(OnSize), None, None, None));
    var p := w.path;
    assert MustRotate(Size(fs.files, p), w.maxFileSizeMb);
    assert HeldBack(w.isClosed, w.buffer) + during == during;
    rotated := rotator.CheckClientCorrected(rotator.clients[0], clock, during);
    var q := RotatedPath(p, clock);
    assert fs.files[p] == Plain(Render(f, during));
    ghost var mid := fs.files;
    w.AddBatch(after);
    WriteLinesAppendsRender(mid, p, f, after);
    RenderAppend(f, during, after);
    archived, live := TextAt(fs.files, q), TextAt(fs.files, p);
  }
}
