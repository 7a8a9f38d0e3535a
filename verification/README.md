# A verified model of the download library

This project models the parts of the library whose correctness is hard to see from one function, and proves what
they promise over every input, every run and every interleaving.

- **Segmented HTTP download** (`SplitPlan`, `DownloadModel`, `DownloadInvariant`, `DownloadTheorems`,
  `DownloadLengths`, `ProbeHeaders`, `DownloadBehaviour`, `DownloadBudget`, `DownloadLimits`, `DownloadCompletion`,
  `DownloadEngine`). A download is a task with parts, per-part transfers, a file
  on disk and a stored resume record. `DownloadModel` gives the effect of every callback and loop step as a function
  on values; `DownloadEngine.Download` is the mutable object the program has, whose methods are proved to compute
  those functions and whose event loop, driven by an arbitrary script of network, disk and user, is proved to be a
  legal run of them. The network may deliver any chunks, close early, send too much, answer 200 for 206, change the
  resource, fail in any way; the disk may refuse to create or to write, also after some bytes; the process may be
  killed at any step and start again from its last stored record, any number of times. The main theorems are
  `DownloadTheorems.CompletedFileIsPrefix`, `DownloadLengths.CompletedFileIsResource` and
  `ProbeHeaders.UncutDownloadIsResource`.
- **Admission scheduler** (`Scheduler`, `Displacement`): one pass over the task table, with any answers of the engines.
- **Torrent progress** (`PieceIntervals`, `TorrentProgress`, `TorrentFiles`): piece bitmap to byte intervals, the
  throttled publication of progress, and the merge of parsed metadata into the file list.
- **Playback** (`Playback`, `Streaming`): a range served out of a growing set of intervals, and its composition with
  the two engines: what they publish can be played.
- **Context table** (`ContextTable`): start, pause, delete, worker and sweep of the HTTP engine.
- **Codecs, names, limits** (`Base64`, `IntText`, `UniqueName`, `RateLimit`).

`Arithmetic` and `Wrappers` hold helpers.

## Assumptions of the main theorems

What a Completed download is worth is proved in three layers.

`DownloadTheorems.CompletedFileIsPrefix` assumes only `DownloadInvariant.Honest`; nothing about chunking, timing,
transfer results, disk, user, crashes, or the lengths that headers announce:

1. A 206 body starts at the requested offset (section 15.3.7 of RFC 9110) and a 200 body at byte 0; both carry bytes
   of one version of the resource. Bodies come under these two codes only (the client asks the transport to fail on
   error codes, and redirects hand no body to the callback).
2. The resource may change at any time. A new version has a new validator (an entity tag, or a date), and a response
   with a body names it, in any order with its other fields; a 206 that answers an If-Range request need not, if it
   carries the version asked for (section 13.1.5 of RFC 9110). A server without validators keeps one version.
3. On resume the file can be reopened, and a fresh start gets a new file (`UniqueName` is about the latter).

Every byte claimed is then right, and a Completed file is an initial part of the resource, of the length the task
believes in.

`DownloadLengths.CompletedFileIsResource` adds one condition, `RightLength`, at the first body byte of each probe: the
length then taken over is unknown or right. Nothing later can change it, so the condition is exact
(`DownloadLengths.CompletedExactly`).

`ProbeHeaders` says when that is so, from the header lines alone. `RightLengthExactly`: for every sequence of lines and
responses on a probe's connection, the length is right if and only if the last response gives a total in its own
Content-Range, or nothing was remembered from an earlier response, or what was remembered happens to be right; what is
remembered is the first total of any connection, or else the first Content-Length of this one outside a 206.
`UncutDownloadIsResource`: it is right in every run whose announced lengths are true of the versions they come with, in
which a response that gives a total is not cut off before it has named its version, and in which no body without a total
follows another response of its connection whose Content-Length is still remembered.

`DownloadCompletion.AlwaysCompletes` shows that all this is not idle: from every state that honest runs reach with a
right length, failed and stopped ones included, a restart can end with the whole resource, through the stored record or
through a new probe, 206 split, kill and resume. `DownloadLimits.PlainDownloadCompletes` is a run in one life that meets
the assumptions of all three theorems.

## Findings

Where the code does not do what one would expect, the model follows the code, and a lemma says exactly when.

- A redirect that carries a Content-Length gives its length to the file, unless the final response has a Content-Range:
  the first length seen by the probe wins (`ProbeHeaders.RightLengthExactly`; `DownloadLimits.RedirectLengthWins` is
  the shortest instance).
- A total outlives the response that gave it. If that response is lost before it names its version, the resource
  changes, and the retry gets a 200, the two lengths are never compared: the file is cut to the old length and the task
  reports Completed (`DownloadLimits.CutOffTotalWins`; exactly when is `ProbeHeaders.CompletedByHeaders`).
- A probe that ends well with an empty body completes the task although no file was created, under any success code
  (`DownloadLimits.EmptyProbeExactly`). Under 200 that is an empty resource; under 206 it is not
  (`DownloadLimits.EmptyProbeCompletes`).
- A part of unknown length completes whenever its transfer ends well, so a download of unknown length is only known to
  be a prefix (`DownloadLengths.CompletedFileIsResource`, second case).
- A pass of the scheduler can pause a task it has itself admitted, because admission takes a task's force away
  (`Scheduler.ForcedTasksDisplaceEachOther` is the shortest instance). `Displacement.DisplacesExactly` says exactly when,
  from the table before the pass: there are slots, enough tasks can be paused to make room, and some forced task is not
  the last of the forced ones and has at least `2 + max(0, q - d)` of them waiting, itself included, where `q` counts
  the preemptible tasks slower than it and `d` is the number of running tasks less the slots, plus one. With at most one
  forced task waiting it never happens (`Displacement.OneForcedIsSafe`).
- A playback range can be finished if and only if it ends inside the file; the end is never clamped
  (`Playback.FinishesExactly`). A read shorter than asked for shifts everything after it (`Playback.ShortReadMisplaces`).
  A negative
  range end is taken as an open one (`IntText.NegativeEndMeansOpen`).
- The two-phase sweep takes out whatever context a collected URL leads to by then; a context restarted in between is
  taken out while it works, and the next start of the URL gives it a second live worker
  (`ContextTable.TakeThenStart`, `ContextTable.StaleTakeIsReachable`). With each sweep in one step that cannot happen
  (`ContextTable.AtomicSweepsOneWorker`).
- The comment at `src/http/http_engine.cpp:196-203` says that a download whose record is unusable falls back to its
  old name; `finalize_probing` always acquires a name. The model follows `finalize_probing`.

## Model

| member | source | states |
|---|---|---|
| SplitPlan.PlanIsPartition | src/http/http_engine_impl.cpp:659-716 | for every length and configuration the 206 split is an exact partition into non-empty consecutive parts; part 0 holds the probe window or the whole file |
| SplitPlan.PartitionIsExact | src/http/http_engine_impl.cpp:698-716 | a byte is in the file if and only if some part holds it, and no two parts hold the same byte |
| SplitPlan.FirstPartFits | src/http/http_engine_impl.cpp:668-680 | part 0 is never longer than the file, never shorter than the window, and leaves at least one byte to every other part |
| SplitPlan.PlanShape | src/http/http_engine_impl.cpp:664-706 | how many parts there are, that part 0 is the larger of an even share and one mebibyte, and that the others are equally long but for the remainder in the last |
| DownloadEngine.PlanSizes | src/http/http_engine_impl.cpp:664-680 | the step-by-step computation with its two fallbacks gives the count and sizes of the partition proved above |
| DownloadEngine.Download.HeaderCb | src/http/http_engine_impl.cpp:211-319 | which header lines change the task, which end the transfer as drift, and with what verdict |
| DownloadEngine.Download.FinalizeProbing | src/http/http_engine_impl.cpp:594-732 | the first body byte of a probe fixes the length, creates the file and cuts it, or leaves it to the one stream, or fails the task |
| DownloadEngine.Download.AppendParts | src/http/http_engine_impl.cpp:698-716 | the loop appends exactly the remaining intervals of the partition, each with a fresh context, and touches nothing before |
| DownloadEngine.Download.WriteCb | src/http/http_engine_impl.cpp:331-399 | the whole effect of a body callback and the count it returns, for every state, chunk and disk behaviour |
| DownloadEngine.Download.WriteToPart | src/http/http_engine_impl.cpp:354-398 | bytes go to the part's own position, never beyond its end; a failed write never counts as progress |
| DownloadEngine.Download.HandlePartResult | src/http/http_engine_impl.cpp:831-912 | complete, continue the probe, retry or fail, in this order, for every transfer result and code |
| DownloadEngine.Download.AddPart | src/http/http_engine_impl.cpp:416-503 | the request starts at the first byte the part lacks (or is the probe window), insists on the known version by entity tag, else by date, and forgets what the old response said |
| DownloadEngine.Download.ProcessMessage | src/http/http_engine_impl.cpp:1005-1033 | a finished transfer leaves the count of live ones unless its part is asked for again |
| DownloadEngine.Download.SpawnNewParts | src/http/http_engine_impl.cpp:978-985 | exactly one spawn step for each part not yet hung, in order, and nothing else; a completed part gets no transfer |
| DownloadEngine.Download.Perform | src/http/http_engine_impl.cpp:992-999 | the callbacks run are exactly those events of the turn that can happen when their time comes |
| DownloadEngine.Download.ProcessMessages | src/http/http_engine_impl.cpp:1003-1033 | the transfers judged are exactly those of the turn's messages, in order |
| DownloadEngine.Download.MaybeEmitResume | src/http/http_engine_impl.cpp:812-822 | a record is stored only for a resumable task whose total has grown |
| DownloadEngine.Download.EmitResume | src/http/http_engine_impl.cpp:738-762 | the record holds all parts as they stand, in order |
| DownloadEngine.Download.AggregateStatus | src/http/http_engine_impl.cpp:540-587 | one scan gives the verdict defined over all parts; a task that failed for good keeps that verdict, and any other with a part downloading is downloading |
| DownloadEngine.Download.DriveParts | src/http/http_engine_impl.cpp:988-1037 | the run is exactly that of the first turns of the script; each turn was due, and the loop ends only when no transfer is left, a stop was asked for, the task failed for good, the transport broke, or the script is over; when it runs dry unstopped every part has its verdict |
| DownloadEngine.Download.RunPartsMulti | src/http/http_engine_impl.cpp:917-1053 | the same for the whole loop, from hanging the first parts to taking down the last transfers |
| DownloadEngine.TurnExactly | src/http/http_engine_impl.cpp:988-1037 | one turn: callbacks, then new parts, then each message, then the report; a broken transport ends it after the callbacks |
| DownloadEngine.TurnReports | src/http/http_engine_impl.cpp:1035-1037 | after a turn nothing that is done is unreported |
| DownloadEngine.TurnsExactly | src/http/http_engine_impl.cpp:988-999 | each turn is done only while a transfer is live, no stop is asked for, no fatal error is set and the transport works; the loop ends only when that is over or the script is |
| DownloadEngine.LoopExactly | src/http/http_engine_impl.cpp:986-1052 | parts are hung, turns are done, and whatever is live is taken down |
| DownloadEngine.Download.TaskThread | src/http/http_engine_impl.cpp:1056-1110 | the run is decided by the script: nothing when cancelled, a report when paused, else the loop and what follows its verdict; it keeps the invariant with an honest server, and a Completed file is a prefix of the resource, or all of it when the length was right; a pause request shows as Paused and leaves nothing unsaved |
| DownloadInvariant.HeaderKeeps | src/http/http_engine_impl.cpp:211-319 | every header line, with any length and in any order, keeps the invariant; drift rules let no response of another version through |
| DownloadInvariant.BodyKeeps | src/http/http_engine_impl.cpp:331-399 | every body callback keeps the invariant, the first of a probe and failing disks included |
| DownloadInvariant.WriteAtBytes | src/http/http_engine_internal.h:71-86 | byte by byte, what a positioned write changes, what it leaves, and the hole of zeros when it starts beyond the end |
| DownloadTheorems.FinishedKeeps | src/http/http_engine_impl.cpp:1005-1033 | judging a finished transfer and asking again keeps the invariant |
| DownloadTheorems.SpawnKeeps | src/http/http_engine_impl.cpp:978-985 | hanging the next part keeps the invariant |
| DownloadTheorems.ReportKeeps | src/http/http_engine_impl.cpp:800-822 | storing a record, or failing to, keeps the record behind the disk |
| DownloadTheorems.RestartKeeps | src/http/http_engine.cpp:196-240 | a killed process that starts from the stored record satisfies the invariant again |
| DownloadTheorems.ResumeRoundTrip | src/http/http_engine_impl.cpp:764-798 | length, validators, file, and index, interval and progress of every part survive storing and loading; size and completion of parts of known length are recomputed as they were |
| DownloadTheorems.RunKeeps | src/http/http_engine_impl.cpp:946-1037 | the invariant holds after every run, over any number of process lives, whatever lengths are announced |
| DownloadTheorems.CompletedFileIsPrefix | src/http/http_engine_impl.cpp:540-587 | a task reported Completed has, byte for byte, an initial part of its version of the resource, as long as it takes the resource to be; and no file at all if no body byte ever came |
| DownloadLengths.CompletedFileIsResource | src/http/http_engine_impl.cpp:540-587 | the file is exactly the resource when the length was known and right at the first body byte; when unknown it is a prefix, equal if and only if as long |
| DownloadLengths.CompletedExactly | src/http/http_engine_impl.cpp:598-600 | from the first body byte to the verdict, over crashes: a Completed file of known length is the resource if and only if the length taken over was right |
| DownloadLengths.LengthIsFixed | src/http/http_engine_impl.cpp:266-282 | after probing no step but a start without record changes the length of a sized file or its version |
| DownloadLengths.FirstBodyFixesLength | src/http/http_engine_impl.cpp:594-657 | the first body byte gives the file the length then believed, and binds it to the version of that response |
| ProbeHeaders.FirstAnnounced | src/http/http_engine_impl.cpp:266-289 | after any header lines the length believed is the one before, or the first Content-Range total, or the first Content-Length outside a 206 |
| ProbeHeaders.RightLengthExactly | src/http/http_engine_impl.cpp:266-289 | for every header sequence of a probe the length is right if and only if the last response gives its total, or no earlier response left a different length |
| ProbeHeaders.CompletedByHeaders | src/http/http_engine_impl.cpp:266-289 | the same condition decides whether the Completed file is the resource, for every continuation |
| ProbeHeaders.StepKeepsVersion | src/http/http_engine_impl.cpp:266-305 | while no response is cut off between its total and its version, the total belongs to the version the task knows or to the response it listens to, in either order of the fields |
| ProbeHeaders.StepKeepsOwn | src/http/http_engine_impl.cpp:283-289 | a length remembered from no earlier response of the connection is that of the version the present response carries |
| ProbeHeaders.UncutDownloadIsResource | src/http/http_engine_impl.cpp:540-587 | in every such run with true lengths, whose bodies without a total follow no response of the connection that announced a length, a Completed file is the resource |
| DownloadTheorems.ClaimedBytesAreRight | src/http/http_engine_impl.cpp:380-398 | at every moment, also after a crash, each byte a part claims is on disk and is the resource's byte |
| DownloadTheorems.RecordNeverAhead | src/http/http_engine.cpp:198-240 | a restart gets the same parts of the same version and never claims more than the disk holds |
| DownloadTheorems.WritesStayInPart | src/http/http_engine_impl.cpp:354-398 | no byte outside the part's interval changes, and the file keeps its length |
| DownloadTheorems.FullStreamStartsAtZero | src/http/http_engine_impl.cpp:243-254 | in every run, a 200 answer that was let through is written from byte 0 without a gap |
| DownloadTheorems.RequestAsksForTheRest | src/http/http_engine_impl.cpp:462-479 | a request contains a byte if and only if it is one of the part's and the part has not claimed it |
| DownloadBehaviour.RequestExactly | src/http/http_engine_impl.cpp:420-490 | only the end of a transfer and a spawn open a connection; its request is the first mebibyte without condition while probing, and else the rest of the part under If-Range with the entity tag, or the date when there is no tag, or nothing when there is neither |
| DownloadBehaviour.RequestMade | src/http/http_engine_impl.cpp:946-985 | a part asked for again or hung gets its request; one that cannot be built fails the part and opens nothing |
| DownloadBehaviour.HeaderExactly | src/http/http_engine_impl.cpp:211-319 | a line fails part and task for good and cuts the transfer if and only if it contradicts what is known (a 200 out of place, another total, tag or date), before and after probing; the first total, tag and date are learned |
| DownloadBehaviour.BodyExactly | src/http/http_engine_impl.cpp:354-398 | where data is written, what counts as done, what a missing file or a failed write costs, and when the transfer goes on |
| DownloadBehaviour.BodyRefused | src/http/http_engine_impl.cpp:335-363 | a failed, cancelled or paused task and a full part take nothing and change nothing but cut the transfer |
| DownloadBehaviour.SplitExactly | src/http/http_engine_impl.cpp:659-731 | a 206 makes the download resumable, gives part 0 fresh retries and cuts as planned; another answer leaves one part, not resumable, with its retries |
| DownloadBehaviour.NoFileIsFinal | src/http/http_engine_impl.cpp:630-657 | once the file cannot be created, the verdict is failed for good in every run of the process |
| DownloadBehaviour.DriftIsFinal | src/http/http_engine_impl.cpp:218-227 | once a header contradicts, every run of the process, through leaving the loop and settling, ends failed for good |
| DownloadBehaviour.StoppedIsNotJudged | src/http/http_engine_impl.cpp:1020-1025 | while a stop is asked for, the end of a transfer only takes it down |
| DownloadBehaviour.ControlExactly | src/http/http_engine_impl.cpp:1052-1109 | what a pause or cancel request, leaving the loop, the pause mark and the final report change, and that nothing else does |
| DownloadBehaviour.ReasonExactly | src/http/http_engine_impl.cpp:855-912 | which reason a failed part gets for every result and code, and that a completed part of unknown length, and a task without a length, take the length received |
| DownloadTheorems.VerdictExactly | src/http/http_engine_impl.cpp:831-912 | exactly when the end of a transfer completes its part, when the part is asked for again and at what cost, and that it fails in all other cases |
| DownloadTheorems.OverlongBodyCompletes | src/http/http_engine_impl.cpp:357-368 | a surplus is dropped, the transfer is cut, and the resulting transport error still completes the part |
| DownloadTheorems.ReportsGrowInEveryRun | src/http/http_engine_impl.cpp:812-822 | within one process life the reported totals grow strictly |
| DownloadBehaviour.ReportExactly | src/http/http_engine_impl.cpp:812-822 | a report is made if and only if the download is resumable and more is done than was reported; it describes the task part by part, and a refused one still counts |
| DownloadBehaviour.ShortItemsSkipped | src/http/http_engine_impl.cpp:778-780 | a record item with fewer than four numbers is passed over wherever it stands |
| DownloadBehaviour.RestartExactly | src/http/http_engine.cpp:196-240 | a restart goes on from a record if and only if that names a file and has a part; it takes all of it, and otherwise begins anew |
| DownloadLimits.PlainDownloadCompletes | src/http/http_engine_impl.cpp:717-731 | every non-empty file sent under a plain 200 is downloaded: an honest, uncut run that completes with exactly its bytes |
| DownloadCompletion.PartCompletes | src/http/http_engine_impl.cpp:978-1033 | from any restart, the next part is hung, answered by a 206 for the known version, received to its end and complete, whether the answer names the version again or, being conditional, does not |
| DownloadCompletion.ResumedCompletes | src/http/http_engine.cpp:196-240 | a download with a usable record, killed at any moment in any state, can end with exactly its version of the resource, also from a server that never names the version again |
| DownloadCompletion.SplitAndResumeCompletes | src/http/http_engine_impl.cpp:659-716 | any version of any non-empty resource can be downloaded by a probe, a 206 split, a kill after the first byte and a resume, for every configuration |
| DownloadCompletion.AlwaysCompletes | src/http/http_engine.cpp:196-240 | from every reachable state with a right length a restart can end with the whole resource |
| DownloadLimits.RedirectLengthWins | src/http/http_engine_impl.cpp:283-289 | the shortest instance: after a 302 and a 200 the length is right if and only if the redirect announced none, or by chance the same |
| DownloadLimits.CutOffTotalWins | src/http/http_engine_impl.cpp:273-275 | an honest run in which a total of a lost response cuts a longer new version short, and the task reports Completed |
| DownloadLimits.EmptyProbeCompletes | src/http/http_engine_impl.cpp:855-864 | a probe that ends well with an empty body gives a Completed task of positive length and no file |
| DownloadLimits.EmptyProbeExactly | src/http/http_engine_impl.cpp:850-864 | for every probing task: the end of its transfer completes it without a file if and only if it ended well under a success code |
| DownloadBudget.FreshDownloadEnds | src/http/http_engine_impl.cpp:846-890 | whatever the network does, a fresh download opens at most (P + 1)(M + 1) connections, for P parts and M retries |
| DownloadBudget.ResumedDownloadEnds | src/http/http_engine_impl.cpp:866-890 | a resumed download opens at most P(M + 1) connections |
| DownloadBudget.StepPays | src/http/http_engine_impl.cpp:978-1033 | every step keeps connections opened plus connections still allowed within the budget; the split pays for the fresh retries of part 0 |
| DownloadBudget.StepBooks | src/http/http_engine_impl.cpp:974-1033 | `active` is the number of live transfers after every step, and a hung part without one has its verdict |
| DownloadBudget.DryLoopIsDone | src/http/http_engine_impl.cpp:988-1037 | when the loop runs dry unstopped, every part and the task are terminal; Completed if and only if all parts are (no fatal error), and a failure has a worst reason |
| DownloadBudget.WorstIsWorst | src/http/http_engine_impl.cpp:550-571 | the reason shown is the one of some failed part and none ranks higher; none is shown if and only if no part failed |
| DownloadBudget.WorstIgnoresOrder | src/http/http_engine_impl.cpp:550-571 | the order of the parts does not influence a ranked reason |
| DownloadBehaviour.ReasonOrder | src/http/http_engine_impl.cpp:554-569 | authorisation before other errors, those before a failure to be tried again, that before the network |
| DownloadBehaviour.SettledExactly | src/http/http_engine_impl.cpp:540-587 | failed for good stays so; otherwise downloading if and only if some part is, completed if and only if all are, and else failed for the worst reason |
| DownloadBehaviour.RunKeepsUnpaused | src/http/http_engine_impl.cpp:540-587 | no part is ever paused, which makes those cases exhaustive |
| PieceIntervals.ComputeSegments | src/torrent/torrent_engine.cpp:247-262 | the loop over pieces computes the byte-by-byte answer, for every offset, size, piece length and bitmap, short bitmaps included |
| PieceIntervals.RunsCanonical | src/torrent/torrent_engine.cpp:250-262 | the answer is ascending, never touching, inside the file, and holds byte b if and only if the piece of b is finished |
| PieceIntervals.CanonicalIsUnique | src/torrent/torrent_engine.cpp:250-262 | no other list of intervals has these properties |
| PieceIntervals.CountIsSize | src/torrent/torrent_engine.cpp:251-257 | the bytes counted are the number of bytes of finished pieces |
| PieceIntervals.PieceStretch | src/torrent/torrent_engine.cpp:255-256 | each piece from the first to the last has a non-empty stretch of the file whose bytes are there together or not at all |
| PieceIntervals.PieceEnds | src/torrent/torrent_engine.cpp:247-249 | the first and last piece computed by division cover the file exactly |
| PieceIntervals.FullFile | src/torrent/torrent_engine.cpp:525-530 | with every byte there the answer is one interval over the whole file |
| TorrentProgress.TorrentTask.HandlePieceFinished | src/torrent/torrent_engine.cpp:198-270 | which records change and to what, all from one bitmap, and when the task becomes dirty |
| TorrentProgress.TorrentTask.HandleFileCompleted | src/torrent/torrent_engine.cpp:514-533 | exactly the completed file's record changes, and the task is dirty if it has one |
| TorrentProgress.TorrentTask.AffectedFiles | src/torrent/torrent_engine.cpp:210-221 | exactly the shown, non-empty files the piece has bytes of |
| TorrentProgress.TorrentTask.PendingFiles | src/torrent/torrent_engine.cpp:224-236 | exactly those whose share moved by more than a thousandth |
| TorrentProgress.CompletionEqualsRefresh | src/torrent/torrent_engine.cpp:525-531 | the shortcut for a completed file is the record the loop would have computed |
| TorrentProgress.AfterPieceIsFaithful | src/torrent/torrent_engine.cpp:224-268 | an announced piece leaves every record taken from one bitmap and at most a thousandth behind the announced pieces, refreshed or not |
| TorrentProgress.ThrottleExactly | src/torrent/torrent_engine.cpp:224-268 | a record is rewritten if and only if the piece is one of the file and its share moved by more than 0.001; then intervals, bytes and share are those of the bitmap |
| TorrentProgress.TouchesExactly | src/torrent/torrent_engine.cpp:210-221 | a piece concerns a file if and only if it holds one of its bytes |
| TorrentProgress.StepKeepsGood | src/torrent/torrent_engine.cpp:198-270 | the same for every event, with the bitmap running ahead of the announcements |
| TorrentProgress.FreshIsGood | src/torrent/torrent_engine.cpp:393-418 | a list of which nothing has been downloaded is a valid start, whatever the bitmap |
| TorrentProgress.PublishedIsTrue | src/torrent/torrent_engine.cpp:263-268 | after every run: no interval holds a missing byte, the bytes done are the number of bytes in the intervals, the store accepts every record, share and bytes agree, never ahead of the truth and at most 0.001 behind the announcements |
| TorrentProgress.ValidRecord | src/store/task_file_store.cpp:116-131 | the scan with a remembered end decides the whole rule: a task id, a known priority, and intervals inside the file, ascending, disjoint |
| TorrentFiles.ParsedTask.LowerBound | src/torrent/torrent_engine.cpp:397 | everything before the position is smaller, everything from it on is not |
| TorrentFiles.ParsedTask.MergeParsed | src/torrent/torrent_engine.cpp:393-421 | the list stays strictly ascending, holds the old and the shown indexes and no other, shown entries are up to date, others untouched |
| TorrentFiles.MergeTwiceIsOnce | src/torrent/torrent_engine.cpp:594-596 | merging the same metadata again, as after a storage move, changes nothing |
| TorrentFiles.MergeBoundsProgress | src/torrent/torrent_engine.cpp:410-418 | a merged file has 0 <= done <= size if and only if its progress is reported or what it had fits; its progress is then 1 if and only if it is all there; intervals go only when bytes went back |
| TorrentFiles.MergedEntry | src/torrent/torrent_engine.cpp:402-420 | the merged entry field by field: a report inside the file is the bytes done, one outside is cut to 0 or the size, progress is their share, intervals go exactly when bytes went back, path and priority are those of the metadata |
| TorrentFiles.OthersUntouched | src/torrent/torrent_engine.cpp:394-401 | hidden and unmentioned files keep exactly the entries they had |
| TorrentFiles.SortedListsAgree | src/torrent/torrent_engine.cpp:397-401 | a sorted list is determined by its indexes and entries |
| Scheduler.TaskManager.Pass | src/core/task_manager.cpp:235-290 | the loop ends for all answers, makes only legal moves that are the world's answers, and each way it ends is tied to the world: shut down or no slots, refused, nothing waiting, slots taken, nothing to preempt |
| Scheduler.TaskManager.PickNext | src/core/task_manager.cpp:237-249 | a queued task whose engine is there, if there is one; every other such task has force only if it has, and with equal force no higher priority, and with equal priority is no older |
| Scheduler.TaskManager.PickSlowest | src/core/task_manager.cpp:253-261 | a task being downloaded, with its engine there, of least rate, if there is one |
| Scheduler.TaskManager.ActiveCount | src/core/task_manager.cpp:426-433 | the number of tasks, not deleted and not local, that are being downloaded or resolved |
| Scheduler.MoveExactly | src/core/task_manager.cpp:268-289 | what a dispatch and a pause change of their task, and that nothing else changes |
| Scheduler.PassConservesAndBounds | src/core/task_manager.cpp:251-285 | running tasks at the end = at the start - preemptions + successful admissions, and never above both the limit and the start |
| Scheduler.PassIsShort | src/core/task_manager.cpp:235-290 | a pass makes at most two moves per waiting and one per running task |
| Scheduler.DispatchedInOrder | src/core/task_manager.cpp:236-289 | of two dispatches the first has force if the second has, with equal force no lower priority, with equal priority no later creation; and the same against every task left waiting |
| Scheduler.WaitedAllAlong | src/core/task_manager.cpp:235-290 | a task that waits late in a pass has been there, unchanged, since its beginning |
| Scheduler.NoPreemptionAfterUnforced | src/core/task_manager.cpp:251-273 | after a task without force was dispatched, nothing is paused any more |
| Scheduler.ForcedTasksDisplaceEachOther | src/core/task_manager.cpp:251-285 | with one slot and two forced tasks the first is admitted and paused in the same pass |
| Displacement.DisplacesExactly | src/core/task_manager.cpp:235-290 | some legal pass admits a task and pauses it again if and only if the table before the pass meets the counting condition on slots, running and forced tasks |
| Displacement.DisplacedCouldBe | src/core/task_manager.cpp:235-290 | every task that any pass admits and pauses met that condition itself |
| Displacement.AdmitAndDisplace | src/core/task_manager.cpp:235-290 | for a task that meets it and is slowest there is such a pass, ending with its pause |
| Displacement.OneForcedIsSafe | src/core/task_manager.cpp:251-285 | with at most one forced task waiting no pass pauses what it has admitted |
| Playback.PlaybackSession.DoStream | src/playback/playback_proxy.cpp:276-356 | wait, drop, refuse, or send the next chunk of at most 64 KiB of the first segment that holds the position |
| Playback.PlaybackSession.OnHeaderWritten | src/playback/playback_proxy.cpp:361-393 | one response head, then the stored first chunk |
| Playback.PlaybackSession.OnBodyWritten | src/playback/playback_proxy.cpp:401-433 | a complete write finishes the response or goes on behind the chunk; a broken one ends the session |
| Playback.PlaybackSession.OnTimer | src/playback/playback_proxy.cpp:441-455 | the session looks again from where it waits, unless the client is gone |
| Playback.WireIsTheFile | src/playback/playback_proxy.cpp:276-433 | for every run: one head before any body byte; a head names the range asked for, the total known or none, and its length; the body is always the file's bytes from the start the head names, and a finished response has exactly the announced number of them (section 14.4 of RFC 9110) |
| Playback.ChunkIsRight | src/playback/playback_proxy.cpp:325-336 | every byte of a chunk is published, the chunk is the file's, and it is as long as range, segment and 64 KiB allow |
| Playback.BodyWriteAdvances | src/playback/playback_proxy.cpp:412-431 | every completed body write brings the session strictly closer to the end of the range |
| Playback.PublishedByteIsSent | src/playback/playback_proxy.cpp:308-355 | when the next byte is published the session sends |
| Playback.UnpublishedWaits | src/playback/playback_proxy.cpp:319-323 | a byte that is not published is waited for, and nothing is sent |
| Playback.FailuresEnd | src/playback/playback_proxy.cpp:336-342 | an unreadable file is an error response before the head and the end after it; a gone client or a failed write ends the session |
| Playback.WritesFinish | src/playback/playback_proxy.cpp:401-433 | with the rest of the range published, complete writes alone lead to the end of the response |
| Playback.FinishesExactly | src/playback/playback_proxy.cpp:276-433 | a response can be finished if and only if its range lies inside the file |
| Playback.ShortReadMisplaces | src/playback/playback_proxy.cpp:335-355 | the position after a chunk is the number of bytes read if and only if the file reaches the end of the chunk |
| Streaming.DownloadIsPlayable | src/http/http_engine_impl.cpp:380-398 | what an HTTP download claims satisfies what playback relies on, at every moment |
| Streaming.OfferedExactly | src/http/http_engine_impl.cpp:380-398 | a byte is offered to the player if and only if some part has claimed it |
| Streaming.PlayedIsDownloaded | src/playback/playback_proxy.cpp:276-433 | download and playback interleaved in any way, with crashes: the wire carries one head that names the range, and then bytes of one version, the one the download ends with |
| Streaming.TorrentIsPlayable | src/torrent/torrent_engine.cpp:263-268 | so does what the torrent engine publishes, after every run |
| ContextTable.OneWorkerPerUrl | src/http/http_engine.cpp:387-429 | if the sweep takes out only contexts whose worker ended, no reachable state has two live workers for a URL |
| ContextTable.CollectThenTakeIsRechecked | src/http/http_engine.cpp:393-422 | right after a collection each collected URL meets that condition |
| ContextTable.UndisturbedIsRechecked | src/http/http_engine.cpp:393-422 | every run in which no collected URL is started before it is taken meets the condition throughout |
| ContextTable.UndisturbedSweepsOneWorker | src/http/http_engine.cpp:387-429 | so it never has two live workers for a URL, however else sweeps are interleaved |
| ContextTable.AtomicSweepsOneWorker | src/http/http_engine.cpp:387-429 | with every sweep in one step, no reachable state has two live workers for a URL |
| ContextTable.TakeThenStart | src/http/http_engine.cpp:412-422 | after a take, a start of the URL keeps one worker if and only if the context taken out was idle |
| ContextTable.StaleTakeIsReachable | src/http/http_engine.cpp:412-422 | four legal steps lead to a collected URL whose context works again |
| ContextTable.FreedAfterWorker | src/http/http_engine.cpp:423-425 | no step frees a context whose worker is alive |
| ContextTable.CollectedExactly | src/http/http_engine.cpp:394-410 | the three rules: deleted; completed or failed four seconds ago; paused otherwise; and always only when the worker has ended |
| ContextTable.StartExactly | src/http/http_engine.cpp:159-271 | what a start leaves for its URL in each case, and that no other URL is concerned |
| ContextTable.RequestsExactly | src/http/http_engine.cpp:339-376 | which flags pause and delete set, what the end of a worker records, and that nothing else changes |
| ContextTable.HttpEngine.StartDownload | src/http/http_engine.cpp:159-274 | a busy URL is left alone, a left-over is replaced, a record that cannot be stored leaves no context |
| ContextTable.HttpEngine.PauseTask | src/http/http_engine.cpp:337-345 | only the flag of the URL's context changes |
| ContextTable.HttpEngine.DeleteTask | src/http/http_engine.cpp:365-380 | both flags of the URL's context are set, nothing else changes |
| ContextTable.HttpEngine.CollectFinished | src/http/http_engine.cpp:391-411 | exactly the URLs whose context may go, by the three rules |
| ContextTable.HttpEngine.Sweep | src/http/http_engine.cpp:387-429 | an uninterrupted sweep removes exactly those contexts and leaves all others as they were |
| Base64.EncodeImpl | src/utils/base64_util.cpp:34-61 | the loop over groups with shifts and masks writes the encoding of sections 4 and 5 of RFC 4648 |
| Base64.DecodeImpl | src/utils/base64_util.cpp:63-80 | the loop with a 32-bit accumulator that is never cleared decodes as one with unbounded integers; an illegal character gives the empty result |
| Base64.BuildDecodeTable | src/utils/base64_util.cpp:22-29 | the table inverts the alphabet and marks every other character |
| Base64.SymbolsOfTheTables | src/utils/base64_util.cpp:16-19 | the two alphabets symbol by symbol, as tables 1 and 2 of RFC 4648 have them, and that nothing else has a value |
| Base64.RoundTrip | src/utils/base64_util.cpp:34-80 | decoding an encoding gives the bytes back, for every byte string, both alphabets, padded or not |
| Base64.EncodedLength | src/utils/base64_util.cpp:36-59 | 4 ceil(n / 3) symbols padded, ceil(4 n / 3) unpadded |
| Base64.PaddingAtTheEnd | src/utils/base64_util.cpp:48-59 | an equals sign for each missing byte, at the very end, only when padding is asked for |
| Base64.AccumulatorStep | src/utils/base64_util.cpp:72-77 | the wrapped accumulator yields the byte and the remainder of the unbounded one |
| Base64.SkippedDoNotMatter | src/utils/base64_util.cpp:69 | padding, spaces and line breaks can stand anywhere |
| Base64.RefusedExactly | src/utils/base64_util.cpp:70-71 | a text is refused if and only if it holds a character other than =, space, CR and LF that is not in the alphabet |
| IntText.JoinInts | src/utils/string_util.cpp:36-43 | the text is the numbers separated by single commas |
| IntText.SplitInts | src/utils/string_util.cpp:45-64 | the scan with two cursors finds exactly the numbers of the comma-separated segments, skipping empty and unreadable ones |
| IntText.ListRoundTrip | src/utils/string_util.cpp:36-64 | every list of 32-bit integers, the smallest included, survives |
| IntText.JoinedText | src/utils/string_util.cpp:36-43 | the stored text has one comma between two numbers and otherwise only digits and minus signs |
| IntText.LeftOutSegments | src/utils/string_util.cpp:53-58 | numbers beyond 32 bits and segments that begin with no number are left out |
| IntText.ParsePrinted | src/utils/string_util.cpp:55 | a printed number is read back whatever non-digit follows |
| IntText.RangeRoundTrip | src/playback/playback_proxy.cpp:67-91 | a header with start and end is understood as these two |
| IntText.OpenRangeRoundTrip | src/playback/playback_proxy.cpp:82-86 | a header without an end is understood as open |
| IntText.NegativeEndMeansOpen | src/playback/playback_proxy.cpp:239-259 | a header with a negative end is served as an open one, up to the known length, or else to that of the file on disk |
| IntText.BothEndsServed | src/playback/playback_proxy.cpp:255-262 | a header with both ends is served as asked for, beyond the file too, unless the range is empty |
| IntText.MalformedRefused | src/playback/playback_proxy.cpp:70-80 | a header without the unit, without a dash or without a start is refused |
| UniqueName.DownloadDirectory.Acquire | src/utils/unique_name.cpp:40-74 | the name handed out and the entry made for it, when creation fails too |
| UniqueName.DownloadDirectory.Release | src/utils/unique_name.cpp:93-110 | exactly an empty directory or file goes, and the result says whether |
| UniqueName.ChosenIsFirstFree | src/utils/unique_name.cpp:46-64 | the name was free; it is the one asked for, or "name(n)" for the least n from 1 to 9999 that was free |
| UniqueName.FreeNumberIsUsed | src/utils/unique_name.cpp:55-64 | while one of the 9999 numbers is free, the least free one is handed out |
| UniqueName.AllTakenIsStamped | src/utils/unique_name.cpp:66-73 | with all numbers taken the name gets the time, unchecked |
| UniqueName.EntryExactly | src/utils/unique_name.cpp:46-64 | an empty file only for a free name of a single file, else an empty directory; nothing on failure; and no other entry changes |
| UniqueName.ReleaseUndoesAcquire | src/utils/unique_name.cpp:40-110 | a name given back at once leaves the directory as it was |
| UniqueName.HeldNamesAreDistinct | src/utils/unique_name.cpp:40-74 | in every orderly run the names held together are pairwise distinct, look-alike candidates included |
| UniqueName.DataIsNeverRemoved | src/utils/unique_name.cpp:100-110 | data, once written, outlives every release |
| UniqueName.TwoCallsDifferExactly | src/utils/unique_name.cpp:46-53 | two calls with one free name give different names if and only if the first could create its entry |
| RateLimit.CapsWithinLimit | src/http/http_engine_impl.cpp:455-459 | the caps of all connections sum to at most the limit plus one byte per connection, and to at most the limit when no share was rounded up |
| RateLimit.CapIsLargest | src/http/http_engine_impl.cpp:456-459 | a cap is never zero, and no larger one would be within the limit |

## Left out

- libcurl, libtorrent, SQLite, Boost and the operating system: their answers are arbitrary values of the model's scripts.
- Progress, share and rate are real numbers, not doubles; speed smoothing, rates of parts and messages are not modelled.
- Sizes and offsets are unbounded; overflow of 64-bit integers is not modelled (the 32-bit accumulator of base64 is).
- The bencoded text of a resume record: a record is a value with a list of `[index, start, end, done]`.
- Files changed or removed by other programs between two lives, a resume file that cannot be reopened, and records of
  an earlier life of the same URL.
- Exceptions, and a multi handle that cannot be created: both end the loop with a failed task.
- DownloadEngine.Download.RunPartsMulti: a script is finite; when it is over the loop is left, as if the transport broke.
- The name of the file as derived from the URL or Content-Disposition.
- DownloadEngine.Download.TaskThread: a pause request overwrites a Completed verdict, as in the source, so no stability
  of Completed is claimed.
- DownloadLengths.CompletedFileIsResource: for an unknown length only a prefix is claimed, because nothing on the
  wire tells a complete body from a shortened one.
- DownloadEngine.Download.AddPart: request options and the texts of Range and If-Range are reduced to the interval and the
  version asked for.
- RateLimit.CapsWithinLimit: the count is exact; the fallback of the count to 1 when the table is locked, and handles built
  under older counts, are not modelled.
- TorrentProgress.PublishedIsTrue: progress set at byte granularity by the metadata merge is not mixed into these runs,
  and a bitmap that loses pieces (a recheck) is not one of the events.
- TorrentFiles.ParsedTask.MergeParsed: names, extensions and the full path of a file are not part of an entry.
- Displacement.DisplacesExactly: among tasks that tie in order or in rate any one may be taken, while the source takes the
  first of its table.
- Scheduler.TaskManager.Pass: deleted records are not erased and the network-off branch is not part of a pass; an engine
  does not change the table while it answers.
- Playback.WireIsTheFile: error responses other than a refusal, the request parsing before the range, and a clean close
  are not part of the wire.
- ContextTable.HttpEngine.StartDownload: checks of its input and of the directory, and the wait for a left-over worker,
  come before the step; the refusal of a resume while a pause is pending is an answer of the world.
- UniqueName.HeldNamesAreDistinct: runs that need the timestamp, or in which an entry cannot be created, are excluded.
- The maintenance loop, the store's other operations, the other alerts of the torrent engine, P2P, the C interface,
  configuration and logging.
