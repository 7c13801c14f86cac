# jopi-logs core in Dafny

A model of the logging core of the `jopi-logs` package. It covers the
following parts:

- **Default writer and buffer** (`Writers`). Until a real writer is
  installed, entries go to a process-wide buffer, and the first real writer
  receives that buffer in one batch.
- **Loggers** (`Loggers`). Hierarchical loggers have dotted names, and each
  level subclass decides which of `spam`, `info`, `warn` and `error` fire.
- **Delaying writer** (`Delayer`). It queues entries and hands them to a base
  writer after a timer, or at once for an error entry.
- **Worker hand-off** (`Workers`). The main thread posts entries to a worker
  thread, and the worker dispatches each message.
- **File writer** (`Server`). It keeps an open/closed state, buffers entries
  while its file is being rotated, and writes formatted lines.
- **Rotator** (`Server`). It polls the registered writers, renames a file that
  grew past its limit, and optionally gzips it. Rotated names are built in
  `RotatedNames`.
- **Old-file sweeper** (`OldFiles`). It deletes files older than a limit.
- **Line formatters** (`Formaters`). There is a plain format and a coloured
  format; `Text` supplies `padEnd`, `padStart` and decimal `toString`.

The `LogWriter` interface is the class `Common.LogWriter`. It stands for any
writer whose own behaviour is outside the model, and it records the calls it
receives: `Single(e)` for `addEntry` and `Batch(es)` for `addBatch`.
`Common.Delivered` flattens those calls into the entries handed over, in
order.

The file system is `Files.FileSystem`: a set of directories and a map from
path to text. Writes append at the end of a file. Timers, application hooks
and thread messages become explicit method calls. The clock, `toISOString`
and `JSON.stringify` are parameters.

Three slips in the source are listed under Findings. The classes follow the
source as written. Beside each affected operation, a member named
`...Corrected` (or a function without the `AsWritten` suffix) states the
intended behaviour, and the scenarios prove both.

## Model

| member | source | states |
|---|---|---|
| Common.Singles | _packages/jopi-logs/src/core.ts:39-41 | one `addEntry` call per element, in order |
| Common.DeliveredAppend | _packages/jopi-logs/src/core.ts:39-41 | the entries handed over by two runs of calls are the concatenation of each run's entries |
| Common.DeliveredSingles | _packages/jopi-logs/src/core.ts:39-41 | calling `addEntry` on each element hands over exactly those elements, in order |
| Common.LogWriter.AddEntry | _packages/jopi-logs/src/common.ts:19-22 | the writer has received one more call, and one more entry at the end |
| Common.LogWriter.AddBatch | _packages/jopi-logs/src/common.ts:19-22 | the writer has received one more batch call, and the batch's entries at the end |
| Writers.BufferLogWriter.AddEntry | _packages/jopi-logs/src/core.ts:35-37 | the entry is appended at the end of the buffer |
| Writers.BufferLogWriter.AddBatch | _packages/jopi-logs/src/core.ts:39-41 | the buffer grows by exactly the batch, in order, as one `addEntry` per element would make it grow |
| Writers.BufferLogWriter.FlushTo | _packages/jopi-logs/src/core.ts:43-47 | the target receives the whole old buffer, in insertion order, in exactly one `addBatch` call, and the buffer is left empty |
| Writers.DefaultLogWriter.AddEntry | _packages/jopi-logs/src/core.ts:59-61 | the entry goes to the current target only: the buffer when it is the target, otherwise one `addEntry` call on the installed writer |
| Writers.DefaultLogWriter.AddBatch | _packages/jopi-logs/src/core.ts:63-65 | the batch goes to the current target only |
| Writers.DefaultLogWriter.SetDefaultWriter | _packages/jopi-logs/src/core.ts:76-84 | installing a real writer while the buffer is the target drains the buffer into it in one batch; every other installation only swaps the target; the target afterwards is the installed one |
| Writers.DefaultLogWriter.GetDefaultWriter | _packages/jopi-logs/src/core.ts:86-88 | returns the current target |
| Writers.RedirectOnce | _packages/jopi-logs/src/core.ts:76-91 | entries logged before any writer exists reach the first installed writer exactly once, in order, in a single batch; a second installation receives nothing |
| Loggers.Passes | _packages/jopi-logs/src/core.ts:181-237 | the four subclasses' overrides let method level M through exactly when M's numeric value is at most the logger's (ERROR=0 < WARN=2 < INFO=4 < SPAM=8) |
| Loggers.LevelName | _packages/jopi-logs/src/core.ts:168-179 | each level's name is four or five upper-case letters |
| Loggers.LevelNamesDistinct | _packages/jopi-logs/src/core.ts:168-179 | two levels have the same name exactly when they are the same level |
| Loggers.FullNameOfChain | _packages/jopi-logs/src/core.ts:106-107 | naming a child `parent.fullName + "." + name` gives the dotted join of the whole chain of names from the root |
| Loggers.AncestorNameIsPrefix | _packages/jopi-logs/src/core.ts:106-107 | every ancestor's full name followed by a dot is a prefix of a descendant's full name |
| Loggers.Emitted | _packages/jopi-logs/src/core.ts:115-137 | each handler call builds one entry carrying the method's level, the logger's full name, the clock reading, the title and the data |
| Loggers.JopiLogger.constructor | _packages/jopi-logs/src/core.ts:99-111 | the full name is the parent's plus "." plus the name, or the bare name for a root; a child copies its parent's writer at construction only; a root uses the default writer |
| Loggers.JopiLogger.SetLogWriter | _packages/jopi-logs/src/core.ts:140-143 | a missing writer falls back to the default writer; otherwise the given writer is installed |
| Loggers.JopiLogger.Emit | _packages/jopi-logs/src/core.ts:115-137 | a handler call adds one entry to the logger's own writer, or to the default writer's current target; the default buffer is untouched unless it is that target |
| Loggers.JopiLogger.Log | _packages/jopi-logs/src/core.ts:145-237 | returns whether the level passes; when it passes and there is a callback, exactly the entries of the callback's handler calls reach the logger's writer, in order; otherwise nothing is emitted; the default buffer is untouched unless it is the target |
| Delayer.DelayTime | _packages/jopi-logs/src/core.ts:286 | the delay is never 0: a missing or zero delay is 2 seconds, and any other value is kept |
| Delayer.FlagOn | _packages/jopi-logs/src/core.ts:287-288 | a flush flag is on unless it is explicitly `false` |
| Delayer.ImmediateFlushAsWritten | _packages/jopi-logs/src/core.ts:296-306 | as written, an entry flushes at once exactly when it is ERROR and either flag is set; WARN never does |
| Delayer.WarnNeverFlushesAsWritten | _packages/jopi-logs/src/core.ts:296-306 | as written, a WARN entry never causes an immediate flush, whatever the flags, and `flushIfWarn` makes ERROR entries flush |
| Delayer.ImmediateFlush | _packages/jopi-logs/src/core.ts:296-306 | corrected test: an entry flushes at once exactly when it is ERROR with `flushIfError` set, or WARN with `flushIfWarn` set |
| Delayer.LogDelayer.constructor | _packages/jopi-logs/src/core.ts:280-288 | applies the defaults; the queue is empty and no timer is pending |
| Delayer.LogDelayer.Flush | _packages/jopi-logs/src/core.ts:326-333 | forgets the pending timer (`timerId = 0`) but leaves its timeout scheduled; an empty queue makes no call on the base writer; otherwise the whole queue goes to the base writer in one batch; no accepted entry is lost or duplicated |
| Delayer.LogDelayer.TimerFires | _packages/jopi-logs/src/core.ts:308-310 | a scheduled timeout runs `flush` whether or not `timerId` was reset since, and is no longer scheduled |
| Delayer.LogDelayer.AddEntry | _packages/jopi-logs/src/core.ts:293-320 | as written: the entry is accepted at the end; when the as-written test holds (ERROR with either flag) the whole queue including the entry is handed over in order and emptied; otherwise the entry waits and a timeout is scheduled only if `timerId` is not set; a WARN entry always waits |
| Delayer.LogDelayer.AddEntryCorrected | _packages/jopi-logs/src/core.ts:293-320 | corrected: the same, with the intended test, so a WARN entry with `flushIfWarn` on is handed over at once |
| Delayer.LogDelayer.AddBatch | _packages/jopi-logs/src/core.ts:322-324 | the queue, the timer mark, the timeouts scheduled and the base writer's calls afterwards are exactly those of `addEntry` as written applied to each element in order (`StepsAsWritten`) |
| Delayer.StepAccepts | _packages/jopi-logs/src/core.ts:293-320 | one `addEntry` as written loses and duplicates nothing: what was delivered plus what is queued grows by exactly the entry; earlier base calls are kept and a new one carries a non-empty batch |
| Delayer.StepsAccept | _packages/jopi-logs/src/core.ts:293-324 | a run of `addEntry` calls as written loses and duplicates nothing: what was delivered plus what is queued grows by exactly the entries handed in, in order; earlier base calls are kept and every new one carries a non-empty batch |
| Delayer.InfoThenErrorExample | _packages/jopi-logs/src/core.ts:293-324 | with both flags set, an INFO entry then an ERROR entry schedule one timeout and then go out together as one batch, leaving the queue empty and the timer unmarked |
| Delayer.WarnWaitsAsWritten | _packages/jopi-logs/src/core.ts:280-320 | as written, with the default parameters a single WARN entry makes no call on the base writer and stays queued |
| Delayer.WarnFlushesCorrected | _packages/jopi-logs/src/core.ts:280-320 | corrected: with the default parameters a single WARN entry is handed over at once in one batch |
| Delayer.StaleTimerFlushesLater | _packages/jopi-logs/src/core.ts:293-333 | INFO `a`, ERROR `b`, INFO `c`: the ERROR flush hands over [a, b]; the timeout scheduled for `a` is still live when `c` schedules another, and the first to run hands over [c] |
| Workers.WorkerLogWriter.AddBatch | _packages/jopi-logs/src/core.ts:381-384 | posts the batch as one array message |
| Workers.WorkerLogWriter.AddEntry | _packages/jopi-logs/src/core.ts:386-389 | posts the entry as a one-element array |
| Workers.Route | _packages/jopi-logs/src/core.ts:393-411 | the receiver shuts down exactly on the `"APP_EXIT"` sentinel, and uses `addBatch` exactly for arrays of more than one entry |
| Workers.ReceiverDeliversSent | _packages/jopi-logs/src/core.ts:381-409 | for every non-empty sender call the receiver does not shut down, and it hands the default writer exactly the call's entries |
| Workers.SingleAndBatchOfOneAlike | _packages/jopi-logs/src/core.ts:381-409 | a single entry and a batch of that one entry are dispatched alike, as `addEntry` |
| Workers.ForwardingPreservesEntries | _packages/jopi-logs/src/core.ts:377-409 | across the thread boundary, the entries the receiver hands on are exactly those the sender was given: nothing is lost, duplicated or reordered |
| Workers.WorkerThread.OnMessage | _packages/jopi-logs/src/core.ts:393-411 | after the sentinel the thread is closed and receives nothing more; entry messages reach the default writer's current target as the dispatch decides |
| Text.PadEnd | _packages/jopi-logs/src/formaters.ts:22 | `padEnd`: the string is kept and filled on the right up to the width, never cut |
| Text.PadStart | _packages/jopi-logs/src/server.ts:207-209 | `padStart`: the string is kept and filled on the left up to the width, never cut |
| Text.DecimalRoundTrip | _packages/jopi-logs/src/server.ts:207-209 | reading back a number's decimal string gives the number |
| Text.LeadingZerosIgnored | _packages/jopi-logs/src/server.ts:207-209 | zeros padded on the left do not change the value read back |
| Text.DecimalWidth | _packages/jopi-logs/src/server.ts:207-209 | a number below 10^k has at most k digits |
| Formaters.Tag | _packages/jopi-logs/src/formaters.ts:26-35 | every plain level tag is five characters wide |
| Formaters.TagsAreAlignedNames | _packages/jopi-logs/src/formaters.ts:26-35 | each tag is the level's name padded to five, and the level can be read back from it; so the four tags are distinct |
| Formaters.TitleColumn | _packages/jopi-logs/src/formaters.ts:22 | the title is kept and padded with spaces to at least 50 columns, never cut |
| Formaters.MissingTitleIsBlank | _packages/jopi-logs/src/formaters.ts:22 | a missing title gives 50 spaces |
| Formaters.DataText | _packages/jopi-logs/src/formaters.ts:21 | falsy or missing data contributes the empty string, and other data its serialisation |
| Formaters.PlainLineLayout | _packages/jopi-logs/src/formaters.ts:18-36 | a plain line is the date, " - ", the five-wide tag, " - ", the title column, the logger name, " \|>" and the data text; the tag sits at the same offset for every level and reads back as the entry's level; the line is built by `DateTypeTitleSourceData` |
| Formaters.ColoredTag | _packages/jopi-logs/src/formaters.ts:44-53 | every coloured tag is five characters wide |
| Formaters.ColoredTagsFollowPlainTags | _packages/jopi-logs/src/formaters.ts:44-53 | the coloured tag is the plain tag in lower case, and the four levels have four different colours |
| Formaters.ColoredLineLayout | _packages/jopi-logs/src/formaters.ts:38-54 | a coloured line is the colour, the tag, RESET, " - ", the title column, then GREY, the logger name and the data text joined by one space, and RESET at the end; the line is built by `TypeTitleSourceDataColored` |
| RotatedNames.Digit | _packages/jopi-logs/src/server.ts:207-209 | `digit(v, n)` is as wide as the wider of n and v's decimal string, so never cut, and reads back as v |
| RotatedNames.DigitLayout | _packages/jopi-logs/src/server.ts:207-209 | `digit(v, n)` ends with v's decimal string and holds only zeros before it |
| RotatedNames.DigitWidth | _packages/jopi-logs/src/server.ts:207-209 | a value below 10^n fills exactly n characters |
| RotatedNames.AsWrittenStampCollides | _packages/jopi-logs/src/server.ts:198 | as written, two valid clock readings a week apart give the same date stamp, while the corrected stamps differ; the as-written stamp is `DateStampAsWritten`, the corrected one `DateStamp` |
| RotatedNames.StampParts | _packages/jopi-logs/src/server.ts:198 | the corrected stamp is the four-digit year, two-digit month and day, a dash, then two-digit hours, minutes and seconds, each at its fixed offset |
| RotatedNames.DateStampRoundTrip | _packages/jopi-logs/src/server.ts:198 | the corrected stamp is 15 characters wide, and its six fields read back as the UTC year, calendar month, day, hours, minutes and seconds |
| RotatedNames.DateStampInjective | _packages/jopi-logs/src/server.ts:198 | corrected stamps of two valid clock readings are equal only when the readings agree to the second |
| RotatedNames.LastDot | _packages/jopi-logs/src/server.ts:194 | finds the last dot in the name, or reports that there is none |
| RotatedNames.SplitExt | _packages/jopi-logs/src/server.ts:194-195 | the base name and the extension put back together give the name; a non-empty extension starts with a dot |
| RotatedNames.RotatedName | _packages/jopi-logs/src/server.ts:200 | the new name is one character longer than the old name and the stamp together |
| RotatedNames.RotatedNameLayout | _packages/jopi-logs/src/server.ts:193-201 | the new name is the base name, "_", the stamp and the extension; it differs from the old name, and different stamps of one width give different names |
| RotatedNames.DefaultNameRotation | _packages/jopi-logs/src/server.ts:193-201 | "logfile.log" rotates to "logfile_" + stamp + ".log" |
| Files.FileSystem.MakeDir | _packages/jopi-logs/src/server.ts:80 | the directory exists afterwards; no file changes |
| Files.FileSystem.Unlink | _packages/jopi-logs/src/server.ts:82-85 | the file is gone and nothing else changes; removing a missing file changes nothing |
| Files.FileSystem.OpenForAppend | _packages/jopi-logs/src/server.ts:87 | opening for append creates a missing file empty and leaves an existing one as it is |
| Files.FileSystem.Append | _packages/jopi-logs/src/server.ts:98 | the text is added at the end of the file |
| Files.FileSystem.Rename | _packages/jopi-logs/src/server.ts:203 | the new path holds the old content, and the old path is gone |
| Files.FileSystem.Gzip | _packages/jopi-logs/src/server.ts:184-190 | the ".gz" path holds the file's content, compressed; the file itself stays |
| Server.Configure | _packages/jopi-logs/src/server.ts:45-52 | the defaults: file "logfile.log" and directory "logs" when missing or empty, no rotation unless ON_SIZE, 100 MB when missing or 0, zip and clear only on an explicit `true` |
| Server.Render | _packages/jopi-logs/src/server.ts:98 | the text of a run of entries has at least one character per entry, one line each |
| Server.RenderAppend | _packages/jopi-logs/src/server.ts:102-104 | rendering two runs of entries is rendering each in turn |
| Server.WriteLinesAppendsRender | _packages/jopi-logs/src/server.ts:98-104 | writing entries one by one leaves the file with its old text followed by their lines, and touches no other file |
| Server.Opened | _packages/jopi-logs/src/server.ts:76-88 | after `openFile` the file exists: empty when it was cleared or missing, otherwise unchanged; no other file changes |
| Server.MustRotateIsMegabyteTest | _packages/jopi-logs/src/server.ts:220-221 | the integer threshold `size > maxMb * 1048576` is the source's strict test `size / (1024 * 1024) > maxMb`; `MustRotate` is that integer test |
| Server.RotatedPath | _packages/jopi-logs/src/server.ts:192-205 | the rotated file stays in its directory under a new name, and its ".gz" copy is a third name |
| Server.RotatedPathAsWritten | _packages/jopi-logs/src/server.ts:192-205 | the same, with the stamp as written |
| Server.RotatedPathIsNew | _packages/jopi-logs/src/server.ts:192-205 | the live file, the rotated file and the compressed copy are three different paths |
| Server.AsWrittenRotationsOverwrite | _packages/jopi-logs/src/server.ts:198-203 | as written, two rotations a week apart rename to the same path, so the archive of the second, holding the text written in between, replaces the first |
| Server.RotationsAWeekApartKeepBoth | _packages/jopi-logs/src/server.ts:198-203 | with the corrected stamp, any two rotations seven days apart at the same time of day rename to different paths: the first archive keeps the first file, the second the text written in between |
| Server.DistinctDaysKeepBoth | _packages/jopi-logs/src/server.ts:198-203 | with the corrected stamp, rotations of one file on two different days of the month rename to different paths, and the second leaves the first archive intact while archiving the text written in between |
| Server.AfterRotation | _packages/jopi-logs/src/server.ts:223-231 | after a rotation, the archive (or only its ".gz" copy when zipping) holds everything the file held, the file restarts with the lines written since, and no other file changes |
| Server.ReopenAfterRename | _packages/jopi-logs/src/server.ts:128-137 | reopening a file that was renamed away and writing the pending entries leaves exactly their lines in it |
| Server.FileLogWriter.constructor | _packages/jopi-logs/src/server.ts:44-74 | applies the defaults; makes the directory; opens the file, cleared only on request; registers with the rotator only for ON_SIZE; the writer ends up open with an empty buffer |
| Server.FileLogWriter.OpenFile | _packages/jopi-logs/src/server.ts:76-88 | the directory exists, the file is opened (cleared first on request), and a new stream is live |
| Server.FileLogWriter.AddEntry | _packages/jopi-logs/src/server.ts:92-100 | while closed, the entry is appended to the buffer and nothing is written; while open, exactly `formatter(entry) + "\n"` is appended to the file |
| Server.FileLogWriter.AddBatch | _packages/jopi-logs/src/server.ts:102-104 | `addEntry` on each element in order: all buffered while closed, or all their lines written while open |
| Server.FileLogWriter.Flush | _packages/jopi-logs/src/server.ts:110-112 | ends the stream; the state is otherwise unchanged |
| Server.FileLogWriter.DeclareClosed | _packages/jopi-logs/src/server.ts:121-126 | the writer is closed; closing an open writer empties the buffer, and a second call changes nothing |
| Server.FileLogWriter.OnBeforeFileRotation | _packages/jopi-logs/src/server.ts:114-119 | a closed writer is left as it is; an open one closes, empties its buffer and ends its stream |
| Server.FileLogWriter.DeclareOpenAsWritten | _packages/jopi-logs/src/server.ts:128-137 | as written: a closed writer reopens its file, but the file gains none of the buffered entries, and the buffer is left empty |
| Server.FileLogWriter.DeclareOpen | _packages/jopi-logs/src/server.ts:128-137 | corrected: a closed writer reopens its file and writes the buffered entries to it, in order; the writer is open with an empty buffer |
| Server.FileLogWriter.OnAfterFileRotation | _packages/jopi-logs/src/server.ts:128-141 | as written (through `declareOpen`): a closed writer reopens its file, which gains nothing; what it held back is dropped and the buffer is empty; an open writer is unchanged |
| Server.FileLogWriter.OnAfterFileRotationCorrected | _packages/jopi-logs/src/server.ts:128-141 | corrected: a closed writer reopens its file and writes what it held back, in order |
| Server.FileLogWriter.OnAppExited | _packages/jopi-logs/src/server.ts:58-71 | as written: a writer caught closed reopens its file, drops what it held back and closes again; the stream ends either way |
| Server.FileLogWriter.OnAppExitedCorrected | _packages/jopi-logs/src/server.ts:58-71 | corrected: a writer caught closed writes out what it held back before closing again; the stream ends either way |
| Server.NewFileWriter | _packages/jopi-logs/src/server.ts:23-27 | without a formatter the dated plain format is used; the path, rotation mode, zip flag and size limit are those `Configure` gives for the parameters or, without any, for the defaults; the file is opened (and cleared when asked), the writer joins the rotator exactly when it rotates on size, and it is open with an empty buffer |
| Server.FileRotator.constructor | _packages/jopi-logs/src/server.ts:171-172 | no clients and the poller not started |
| Server.FileRotator.Register | _packages/jopi-logs/src/server.ts:174-181 | the registry is append-only; the poller is started on the first registration and only then, so it is started exactly once |
| Server.FileRotator.CheckClient | _packages/jopi-logs/src/server.ts:192-238 | as written: a missing file is skipped; the file rotates exactly when it is over the limit; a rotation renames it under the as-written stamp (optionally gzipped and removed), leaves the new file empty and the writer open with an empty buffer, so entries logged during the rotation are lost; no other file changes |
| Server.FileRotator.CheckClientCorrected | _packages/jopi-logs/src/server.ts:192-238 | corrected: the same, except that the archive is named by the UTC date and time and the new file starts with what the writer held back and what was logged during the rotation |
| Server.FileRotator.Check | _packages/jopi-logs/src/server.ts:211-248 | under hot reload nothing happens and no new check is scheduled; otherwise every client is checked, open writers stay open, and the next check is scheduled |
| Server.FileRotator.FlushAll | _packages/jopi-logs/src/server.ts:253-262 | every client's stream is ended, and no client's state changes otherwise |
| Server.FileRotator.OnAppExiting | _packages/jopi-logs/src/server.ts:253-255 | every client's stream is ended; the clients' closed flags and buffers are unchanged |
| Server.FileRotator.OnHotReload | _packages/jopi-logs/src/server.ts:257-262 | sets the hot-reload flag and ends every client's stream; the clients' closed flags and buffers, and the rotator's started and check-due state, are unchanged |
| Server.RotationWindowAsWritten | _packages/jopi-logs/src/server.ts:114-141 | as written, entries logged while a file is being rotated reach neither the archive nor the new file, and are not held back either |
| Server.RotationWindow | _packages/jopi-logs/src/server.ts:114-141 | corrected: the archive holds what was written before the rotation, and the new file holds what was logged during it |
| Server.WriterWith | _packages/jopi-logs/src/server.ts:44-104 | a new writer on an empty file system, after some entries were logged to it, is open, its file holds exactly their lines, and it joined the returned rotator exactly when it rotates on size |
| Server.SizeRotationAsWritten | _packages/jopi-logs/src/server.ts:44-238 | as written: once the file passes the default 100 MB, the rotator the writer joined checks it as its client and rotates it; the archive holds everything written before, what was logged during the rotation is lost, and the new file holds only what was logged after |
| Server.SizeRotation | _packages/jopi-logs/src/server.ts:44-238 | corrected: the same, and the new file holds what was logged during and after the rotation |
| OldFiles.CleanupOldFiles | _packages/jopi-logs/src/server.ts:286-313 | a missing path or a non-directory deletes nothing and warns about nothing; a directory is swept entry by entry |
| OldFiles.SweepRemovesExactlyExpired | _packages/jopi-logs/src/server.ts:297-313 | exactly the readable regular files strictly older than the limit whose removal succeeds are deleted; exactly the entries whose `stat` fails, or whose removal fails, are warned about; `Sweep` is the per-entry callback over the listing |
| OldFiles.SweepIsPerEntry | _packages/jopi-logs/src/server.ts:297-313 | entries are handled independently, so a failure on one does not stop the others |
| OldFiles.SweepSettings | _packages/jopi-logs/src/server.ts:279-282 | the directory is "logs" when none is given; the limit is hours * ONE_HOUR milliseconds, after core.ts:436 has raised a limit below one hour to one hour |
| OldFiles.TwoHourSweepExample | _packages/jopi-logs/src/server.ts:279-313 | with a two-hour limit, a file exactly two hours old is kept, an older one is deleted, a sub-directory is kept, and a failed removal is reported |

## Left out

- `ConsoleLogWriter`, `newConsoleLogWriter` and `VoidLogWriter`: console output, or nothing at all.
- `createWorker`, `newWorkerLogWriter` and the thread calls (`postMessage`, `declareAppExiting`, `closeCurrentThread`): thread plumbing. The transport is the `posted` sequence, and closing the thread is the `exited` flag.
- Workers.WorkerThread.OnMessage: an empty array delivers nothing. The source calls `addEntry(undefined)` there, and what the target then does is not modelled.
- Delayer.LogDelayer.constructor: takes its base writer explicitly. The source's fallback to the default writer's current target (core.ts:283) is not modelled.
- The timers: the delayer's `setTimeout`, the rotator's 5-second poll, the hourly old-file sweep, and `unref`. The delayer's `timerId` is `timerMarked`, and its timeouts still scheduled are counted by `liveTimers`; a timeout running is `TimerFires`. A pending rotator check is `checkDue`, and the poll firing is a call to `Check`. There is no clock, so when a timeout runs, and in which order, is the caller's choice.
- Delayer.LogDelayer.Flush: a timeout still scheduled after `flush` reset `timerId` is not cancelled; the model records it in `liveTimers`, and its running is one more `TimerFires` (a `flush`) left to the caller.
- The application hooks (`onAppExiting`, `onAppExited`, `onHotReload`) are methods that the caller invokes.
- The dynamic import of server.ts, `newFileWriter` in core.ts with its console fallback, `formater_simpleJson` and its presets: configuration glue.
- `path.resolve` and `path.join`: a path is a (directory, name) pair, and the directory is kept as given. A file name containing "/" is not modelled.
- Streams: a write reaches the end of the file at once. A write on an ended stream is dropped (Node reports an error instead). `onBeforeFileRotation` waiting for the stream to end is implicit.
- `Promise.all` in `check` and in `cleanupOldFiles`: clients and directory entries are handled one after the other. The only interleaving modelled is the entries logged while a rotation is in progress (the `during` parameter of `CheckClient`).
- Server.FileRotator.Check: checks with no entries logged during rotations. It states only that open writers stay open and how the next check is scheduled. The effect on each file is stated by `CheckClient`.
- Errors other than ENOENT during a rotation (`console.error`) are not modelled, and neither is a failing `rename`, `gzip` or `unlink`. In the sweeper, a failing `stat` or `unlink` of an entry is a flag on the entry, and a failing `readdir` is not modelled.
- Files.FileSystem.Gzip: compression is not modelled. The ".gz" file holds the original text, marked as compressed.
- Sizes: one character of a line counts as one byte. The size test is on integers, so a fractional or NaN `maxFileSize_mb`, a fractional `hours` and a NaN delay are not modelled.
- Two writers on the same path: the model writes by path. The source's stream keeps writing to the renamed file until that writer itself reopens.
- `Date.now`, `new Date`, `toISOString` and `JSON.stringify`: these are parameters (`now`, `Clock`, `isoDate`, `stringify`).
- Log levels other than the four enum values.
- Text.PadEnd, Text.PadStart, Formaters.TitleColumn: a character is taken as one UTF-16 code unit, as `padEnd` and `padStart` count them, while a Dafny string counts characters; a title holding characters outside the Basic Multilingual Plane gets one more space per such character in the model than in the source.

## Findings

| source | as written | input that shows it | evidently intended | confidence | as-written member | corrected member |
|---|---|---|---|---|---|---|
| _packages/jopi-logs/src/core.ts:302 | the `flushIfWarn` branch tests `entry.level === LogLevel.ERROR` | a WARN entry with `flushIfWarn` on is queued until the timer fires, instead of being flushed at once | WARN entries flush at once when `flushIfWarn` is on | high; not executed | Delayer.WarnWaitsAsWritten | Delayer.WarnFlushesCorrected |
| _packages/jopi-logs/src/server.ts:128-137 | `declareOpen` replays the buffer through `addBatch` before clearing `isClosed`, then empties the buffer | entries logged between `onBeforeFileRotation` and `onAfterFileRotation`, e.g. during the rename, are written nowhere; the same happens to a closed writer's entries in the exit hook (server.ts:61-64) | the buffered entries are written to the reopened file | high; not executed | Server.SizeRotationAsWritten | Server.SizeRotation |
| _packages/jopi-logs/src/server.ts:198 | the stamp uses `getFullYear()` (local), `getUTCMonth()` (January is 0) and `getUTCDay()` (day of the week) | Monday 5 January 2026 and Monday 12 January 2026, both at 12:00:00 UTC, are both stamped "20260001-120000"; the second rotation renames over the first archive | the UTC year, `getUTCMonth() + 1` and `getUTCDate()` | high; not executed | Server.AsWrittenRotationsOverwrite | Server.DistinctDaysKeepBoth |
