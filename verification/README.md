# Rinse, modelled in Dafny

Rinse takes documents of doubtful origin, renders every page to an image inside a sandbox, and
makes a new searchable PDF from the images. This project models the part of the program that
decides what happens to a job and proves what that part promises:

* **The life of a job** (`job`, `jobsteps`, `jobproofs`, `jobtheorems`, `jobclosing`). A job walks a
  chain of ten states, or falls off it into Failed. Any number of Start and Close calls, the
  watchdog, the deadline and the process goroutine are interleaved step by step: every section under
  the job's mutex is one step, and so are the context check, `cancel()`, publishing `cancelFn`,
  launching a goroutine and the two ends of a removal.
* **The scheduler and the registry** (`scheduler`, `registry`, `rinsesteps`, `rinseproofs`,
  `rinseinv`, `limitproofs`, `queueproofs`, `gapproofs`, `rinsetheorems`, `listorder`, `calls`,
  `settings`). The ordered list, its limit, and the calls that change them: first as an object with
  loops, each call running alone, then as a step system with the server's mutex explicit, in which a
  scan reads one job's state per step while those states move. `lockorder` holds both kinds of mutex
  across steps and shows that the threads cannot deadlock.
* **The document pipeline** (`documents`, `pipeline`, `pages`, `tracking`). The data directory is a
  map from names to contents, each content known by where it came from; LibreOffice, pdftoppm and
  tesseract are known by what they leave there.
* **The loops around it**: relaying the lines of two output streams (`relay`), previews and their
  cache (`preview`, `previewcache`, and `freshness` for the previews of a job under way), guessing
  the language (`detection`, `language`), the size limit of a download (`download`), overwriting
  files (`scrub`), and finding a token in a header and splitting it (`token`).
  `text` has the strings: splitting, byte order, sorting.

Where the source updates something in place there is a class or a loop, and its methods' contracts
name the functions about which the theorems are proved: `JobCore.Job` runs the same sections that
`JobSteps` interleaves, and `Registry.Rinse` picks with the functions that `Scheduler` is about.

`dafny verify dfyconfig.toml` checks everything.

## What the proofs turned up

* `Start` changes the state before it publishes `cancelFn`. A Close before `cancelFn` is published
  removes the work directory of a job that may yet run, under the process goroutine even, and if the
  job has been or is then started, the directory is removed a second time when that goroutine ends.
  The files are removed twice exactly in that case, and otherwise once. Jobs started by AddJob or
  runTasks cannot get there while only their watchdogs, RemoveJob and the server's Close close them,
  because the server's mutex is held over the gap.
* A watchdog that is late leaves an error on a job that has finished. A finished job carries an error
  exactly when some Close of its run has brought one. The first error set is never replaced.
* The two selection loops differ when the limit is below one and no job runs. The limit is clamped
  where it is loaded and where it is set.
* A document whose extension, in small letters, is `.png` is collected as a page, and output.txt
  then names a file that is gone. For all other names it lists the rendered pages, once each and in
  page order.
* A line of tesseract's output that names several pages, one of them unseen, leaves the outcome to
  the map iteration. For no other line does it matter. A line that has the mark `output-` in one place
  names at most one page.
* A page is collected as soon as its file is there, and a page that cannot be decoded is left out of
  a preview without an error. So a request that comes while a page is being written caches a preview
  that lacks it, and every later request for as many pages at that width gets it. What the cache
  answers is right exactly when it shows all the first pages that can be decoded now. As pages are
  written one after the other, it always is if every request that draws asks for fewer pages than
  have been collected, or comes when all are finished.
* When names join in whatever order, the cached previews stay right exactly if the first pages they
  show stay the same; a page that sorts before a cached one makes them stale. The pages of a document
  whose working name is not input.png join in order, though looks at the directory may overtake one
  another.
* `.wget-hsts` is passed over only when the walk meets it before the document; after a document
  whose name sorts lower it counts as a second one. As the code stands an upload or a download puts
  one file into the data directory, so that such a pair does not arise.
* When standard output ends first, lines of standard error may stay unread: that a success has read
  them all is promised only if there are none.
* A preview of 65536 rows or more cannot be encoded, and is asked for again each time. Some 25 pages
  at the greatest width suffice.
* A failure to close the downloaded file is reported as a document that is too large.
* The comment in rinser/auth.go:84-85 takes `\w` to include the hyphen. It does not, but the pattern
  adds it, so that the set is the one the comment names.

## Model

| member | source | states |
|---|---|---|
| JobCore.Job.constructor | rinser/job.go:90-109 | a new job is in state New, open, without error and never removed |
| JobCore.Job.Transition | rinser/job.go:206-219 | succeeds exactly when the context is alive and the state is the expected one, and then changes nothing else; the first obstacle is the error |
| JobCore.Job.Start | rinser/job.go:146-157 | succeeds exactly for a New job, which then has a context, a published cancelFn and one more goroutine; otherwise nothing changes |
| JobCore.Job.Close | rinser/job.go:247-264 | marks the job closed, keeps the first error, and cancels a running job or removes the files of one that does not run, the latter once |
| JobCore.Job.Fail | rinser/jobprocess.go:85-91 | records the state that failed and an error unless one is set |
| JobCore.Job.ProcessDone | rinser/jobprocess.go:95-107 | the job is done, cannot be cancelled any more, and its files go if it was closed |
| JobProofs.StepKeepsInv | rinser/jobprocess.go:26-107 | every step of every thread keeps the invariant of who launches, who owes the removal, and what has been removed |
| JobProofs.ReachableInv | rinser/job.go:146-264 | that invariant holds after every run of a job's threads |
| JobTheorems.CleanupHandOver | rinser/job.go:247-264 | a job that is closed and at rest has had a removal that began after its last write, and was removed twice exactly when a Close preceded the publishing of a started job's cancelFn, otherwise once |
| JobTheorems.NoRemovalWhileLive | rinser/jobprocess.go:95-107 | without such an early Close nothing is removed while the process goroutine lives, and never twice; nothing is removed before a Close |
| JobTheorems.EarlyCloseRemovesUnderProcess | rinser/job.go:147-151 | the exception is real: a run in which a removal is under way while the process goroutine lives |
| JobTheorems.SingleRun | rinser/job.go:146-157 | however many Starts race, at most one reports success, at most one goroutine is launched and StoppedCh is closed at most once |
| JobTheorems.ChainInFull | rinser/job.go:20-32 | the chain, state by state |
| JobTheorems.StateHistory | rinser/jobprocess.go:58-91 | the states a job has been in are an initial part of the chain, or that and Failed, errstate being the last before it |
| JobTheorems.OnlySections | rinser/job.go:206-264 | the guarded fields change only by one of the critical sections, and the history grows exactly when the state moves |
| JobTheorems.TerminalAbsorbs | rinser/job.go:209-214 | Finished and Failed are never left |
| JobTheorems.CancellationBound | rinser/job.go:206-219 | once the context is done at most one more transition succeeds, namely one already past its check, and the job ends Failed unless that was the last |
| JobClosing.ContextMoves | rinser/job.go:146-157 | the context is made once, is ended only by cancel() or the deadline, and stays as it ended |
| JobClosing.CloseStopsJob | rinser/job.go:247-259 | in every run from the job's creation: once a Close that has found cancelFn has called it, the context is done for good, at most one more transition succeeds, and the job ends Failed unless that was its last |
| JobClosing.WatchdogMoves | rinser/jobprocess.go:26-48 | the watchdog is launched by the Start that wins, makes one Close at a time, with an error, and ends only when the context is done or StoppedCh is closed |
| JobClosing.WatchdogSees | rinser/jobprocess.go:30-34 | between its calls it can end exactly then |
| JobClosing.WhyItFails | rinser/jobprocess.go:58-80 | the process gives up exactly when a check finds the context done or a stage's work fails, and with that error; the compare-and-set of its transitions never fails |
| JobClosing.FailureReported | rinser/jobprocess.go:85-91 | when such a process has ended, the job is Failed, errstate is the state in which it gave up, and the error is the one it gave up with, unless the job had one before or a Close has brought one since |
| JobTheorems.LifecycleInvariant | rinser/jobprocess.go:85-102 | Failed implies an error; done, stopped and the closing of StoppedCh go together, and imply a terminal state and no cancelFn |
| JobTheorems.FirstErrorStays | rinser/job.go:252-254 | an error once set is never replaced in any later run |
| JobTheorems.CanFinish | rinser/jobprocess.go:58-80 | left alone, a job at any check reaches Finished |
| JobTheorems.ErrorMeansBlame | rinser/job.go:247-255 | in every run, a job that has not failed carries an error exactly when it did before or a Close since then has brought one |
| JobTheorems.FinishedErrorMeansBlame | rinser/jobprocess.go:36-45 | so a finished job carries an error exactly when some Close of its run brought one |
| JobTheorems.FinishedMayCarryError | rinser/jobprocess.go:41-45 | a run in which a late watchdog does |
| Scheduler.ScanMeaning | rinser/rinse.go:223-238 | the scan's count is the number of running jobs, its candidate the first waiting one |
| Scheduler.EarlyMeaning | rinser/rinse.go:392-409 | from any point, the loop that gives up early decides as the full count would |
| Scheduler.SelectionRefinement | rinser/rinse.go:392-409 | the two loops pick the same job exactly when the limit is at least one, a job runs, or none waits |
| Scheduler.PickMeaning | rinser/rinse.go:239-243 | a job is picked exactly when a slot is free and one waits, and it is the first that waits |
| Scheduler.FifoTurns | rinser/rinse.go:220-245 | with f free slots and n waiting jobs, k undisturbed calls start exactly the first min(k, f, n) of them |
| Registry.KeepsOrder | rinser/rinse.go:447 | keeping some jobs leaves them in their old order, each as often as before, and leaves out none of them |
| Registry.WithoutKeepsOrder | rinser/rinse.go:447 | deleting a job is keeping all the others |
| Registry.Rinse.constructor | rinser/settings.go:72 | the limit is at least one from the start |
| Registry.Rinse.SetMaxConcurrent | rinser/uimaxconcurrent.go:28-30 | a limit below one is not accepted |
| Registry.Rinse.NextJobLocked | rinser/rinse.go:392-409 | the loop returns the job that the early-exit selection picks |
| Registry.Rinse.ScanTasks | rinser/rinse.go:223-238 | the loop yields the count, the first waiting job, and the finished jobs whose time is up, in list order |
| Registry.Launch | rinser/rinse.go:239-243 | only the picked job changes, and it has been started |
| Registry.Rinse.RunTasks | rinser/rinse.go:220-245 | one turn of the scheduler; at most the first waiting job has been started, and the overdue jobs are returned |
| Registry.Rinse.IsListed | rinser/rinse.go:430-434 | a UUID is found exactly when a listed job has it |
| Registry.Rinse.StartNext | rinser/rinse.go:437-439 | one turn of the scheduler: at most the first waiting job has been started, and the others are as they were |
| Registry.Rinse.ListAndStart | rinser/rinse.go:435-439 | the job is last on the list, and one turn of the scheduler follows |
| Registry.Rinse.AddJob | rinser/rinse.go:424-443 | refused exactly when the server is closed or the UUID is listed; otherwise the job is last on the list and one turn of the scheduler follows |
| Registry.Rinse.RemoveJob | rinser/rinse.go:445-451 | the job leaves the list, the others stay, and it is closed |
| Registry.Rinse.Close | rinser/rinse.go:339-350 | the list is empty for good; every job that was on it is marked closed, cancelled if it was running, and otherwise its files are removed unless it had been closed before; the limit stays |
| Registry.Rinse.FindJobUuid | rinser/findjob.go:7-16 | finds the one job that has the UUID, or there is none |
| Registry.Rinse.JobList | rinser/findjob.go:27-37 | exactly the jobs the user may see, in list order |
| RinseInv.ServerReachable | rinser/rinse.go:220-262 | after every run of the server the list, the mutex and every thread's own lists are sound, and every job keeps its invariant |
| QueueProofs.QueueKept | rinser/rinse.go:424-443 | every step keeps what bounds the running jobs and orders the waiting ones: a scan under the mutex stays right though states move |
| GapProofs.GapKept | rinser/job.go:147-151 | every step keeps jobs that are being started out of reach of any Close |
| RinseTheorems.LimitHolds | rinser/rinse.go:220-245 | while only AddJob and runTasks start jobs and the limit is not lowered, no more listed jobs run than it allows, in every state of every run |
| RinseTheorems.LimitHoldsForProcesses | rinser/rinse.go:404-407 | and so are no more listed jobs being processed, from the Start that won to the end of the process goroutine |
| RinseSettings.HistoryMeans | rinser/uimaxconcurrent.go:28-30 | in every run the limit is the one last set, and what the theorems call started from outside, closed from outside, or lowered has happened in the run |
| RinseSettings.LimitHoldsAsSet | rinser/rinse.go:404-407 | so, in terms of the events alone: without starts from outside and settings that lower it, no more listed jobs run, or are being processed, than the limit last set, which is at least one |
| RinseTheorems.StartsWithinLimit | rinser/rinse.go:436-438 | also with a lowered limit, the step that starts a job leaves no more running than the limit of that moment, and starts the first waiting job |
| RinseTheorems.FirstJobStarts | rinser/rinse.go:424-443 | a run in which a job added to an empty server is about to be started, and is |
| RinseTheorems.WaitingAreLast | rinser/rinse.go:436-438 | the waiting jobs are always the tail of the list |
| RinseTheorems.EveryJobIsCleanedUp | rinser/job.go:247-264 | in every run of the server each job that is closed and at rest has been cleaned up |
| RinseTheorems.ScheduledJobsAreRemovedOnce | rinser/rinse.go:424-451 | without starts and closes from outside, the files of every job are removed at most once, never under its process, and exactly once when it is closed and at rest |
| RinseTheorems.JobsAreConserved | rinser/rinse.go:339-350 | a listed job stays listed until RemoveJob or Close takes it off, and is closed by the time that call returns |
| RinseTheorems.RegistryStaysSound | rinser/rinse.go:424-443 | listed UUIDs stay distinct; a closed server has an empty list and refuses every AddJob |
| RinseTheorems.ClosedForGood | rinser/rinse.go:339-350 | once closed, the server stays closed and its list empty |
| RinseCalls.CallsKeepTheirWord | rinser/rinse.go:424-451 | in every run, when the call has returned: a job that AddJob accepted is listed, or has been taken off by a RemoveJob or Close; one that it refused is not listed, and if as closed, the server is closed; the jobs of RemoveJob and Close are closed and off the list |
| RinseCalls.OffForGood | rinser/rinse.go:424-451 | a job that is off the list, and that no AddJob call brings, is never listed again |
| RinseCalls.TasksRemoveEnded | rinser/rinse.go:231-234 | in every run, whatever jobs do meanwhile, those that runTasks is going to remove have ended |
| RinseCalls.EntryMeans | rinser/rinse.go:427-436 | an AddJob that gets the mutex refuses as closed exactly when the server is closed, as a duplicate exactly when a listed job has the UUID, and otherwise the job is last on the list; a refusal leaves the list alone |
| RinseCalls.ScanDecides | rinser/rinse.go:220-245 | in every run without starts from outside, a scan that has come to the end of the list starts the job that is the first waiting one at that moment, or none waits, or runTasks has counted as many running jobs as the limit allows |
| ListOrder.InsertionOrder | rinser/rinse.go:436-447 | from any reachable state on, the jobs still listed that were listed then come first, in their order of then, and only jobs that were not listed then follow |
| RinseTheorems.NobodyIsStuck | rinser/rinse.go:220-262 | in every reachable state with an unfinished call some thread can step |
| LockOrder.TraceOk | rinser/rinse.go:220-245 | no call asks for the server's mutex while holding a job's, holds two of those, or re-enters one |
| LockOrder.NoDeadlock | rinser/rinse.go:424-451 | threads running any calls in any schedule never all wait |
| Relay.Runner.Loop | rinser/runsc.go:105-130 | the select loop, under every schedule of its goroutines, takes the steps of the step system |
| Relay.Runner.Hand | rinser/runsc.go:107-126 | the next line of one stream is handed over, and an error of the handler ends the loop |
| Relay.RelayMeaning | rinser/runsc.go:80-131 | in every interleaving the lines handed over from each stream are an initial part of it, none follows a handler's error, which is returned exactly when the last line handed over met with it, and success means that standard output was handed over whole |
| Relay.AnswerMeans | rinser/runsc.go:105-130 | the loop gives an answer exactly when some step of the schedule decided on it: a handler's error, the context's where it is done, or, after standard output has ended with the context alive, the command's exit status |
| Relay.SuccessMeans | rinser/runsc.go:113-117 | success is returned exactly when the command was waited for after standard output had ended, with the context alive, and its status was a success |
| Relay.ContextMeans | rinser/runsc.go:126-127 | the context's error is the reason first given |
| Relay.ReturnIsFinal | rinser/runsc.go:105-130 | nothing is handed over after the loop has returned |
| Relay.ErrorLinesMayBeLost | rinser/runsc.go:107-119 | whatever the two streams hold, there is a run that succeeds without reading standard error |
| Relay.ErrorLinesAreSafeOnlyIfNone | rinser/runsc.go:107-126 | every success has read all of standard error if and only if there is nothing on it |
| Pages.NameOrder | rinser/jobprocess.go:328 | names of one width are in byte order exactly when their pages are in order |
| Pages.PageOrder | rinser/jobprocess.go:328 | the rendered pages' names ascend |
| Pages.DigitsRead | rinser/jobprocess.go:328 | the number in a name is that of its page |
| Pages.Sorted | rinser/jobprocess.go:337-342 | iterating a map in any order and sorting gives its keys once each, ascending |
| Pages.Book.Refresh | rinser/job.go:266-289 | every picture in the directory is collected, new ones unseen, and no name or mark is lost |
| Pages.RefreshKeeps | rinser/job.go:283-288 | refreshing keeps all names and marks, adds only pictures that are there, and is idempotent |
| Pages.Book.MakeOutputTxt | rinser/jobprocess.go:331-351 | one line for each collected name, ascending |
| Pages.ListingLines | rinser/jobprocess.go:343-347 | read line by line, output.txt has the path of each name on its own line, in order, and nothing else |
| Pages.OutputTxtInPageOrder | rinser/jobprocess.go:342-347 | if exactly the rendered pages were collected, line i of output.txt names page i, for each of them, and there are no other lines |
| Tracking.HandleLine | rinser/jobprocess.go:367-387 | whichever page the map iteration meets first: an unseen page the line names is marked, a seen one is refused, with the line as the error if it says that a file was not found, and a line that names none or comes from standard output changes nothing |
| Tracking.ContainsMeans | rinser/jobprocess.go:373 | a line contains a name exactly when the name stands somewhere in it |
| Tracking.HandleAll | rinser/jobprocess.go:367-395 | lines are handled in order up to the first that is refused |
| Tracking.OneOutcome | rinser/jobprocess.go:372-384 | for a line that names at most one page the outcome does not depend on the iteration |
| Tracking.SettledMeans | rinser/jobprocess.go:372-384 | the outcome does not depend on the iteration if and only if the line names at most one page or only seen ones |
| Tracking.TwoNamesTwoOutcomes | rinser/jobprocess.go:372-384 | for a line that names an unseen page and another one it does |
| Tracking.PagesAreSeenOnce | rinser/jobprocess.go:367-387 | lines naming at most one page each are all accepted exactly when no page is named twice; then the seen pages are those named, as many as the lines that name one and at most all pages; otherwise the repeating line decides the error |
| Tracking.OneMarkNamesOne | rinser/jobprocess.go:373 | a line with the mark of a page name in one place names at most one page |
| Documents.SuffixExt | rinser/jobprocess.go:214 | a name has a dotted suffix exactly when that is its extension |
| Documents.WorkShape | rinser/jobprocess.go:221 | the working name ends in a given extension exactly when the document's own, in small letters, is that one |
| Documents.ResultOfPlainName | rinser/jobprocess.go:218 | stem.ext becomes stem-ext-rinsed.pdf |
| Documents.ResultOfName | rinser/jobprocess.go:218 | for every name: quotes are dropped, and a name without a dot is all stem |
| Documents.WantedMeans | rinser/jobprocess.go:408-412 | exactly .png, .pdf and .json files outlive the final walk |
| Documents.ResultShape | rinser/jobprocess.go:218 | for every document the result's name is that of a PDF file without quotes and none that the pipeline uses itself |
| Documents.RenderedMeaning | rinser/jobprocess.go:328 | after k pages exactly their names have been added, each with its own page |
| Documents.AfterConversion | rinser/jobprocess.go:299-317 | when the conversion has succeeded, the directory holds input.pdf, which is the document itself if it was a PDF file, and no other trace of it, whatever its name |
| Documents.AfterImages | rinser/jobprocess.go:353-363 | when the pages have been listed, input.pdf is gone and the pages and their list are there |
| Documents.AfterEnding | rinser/jobprocess.go:400-418 | the final walk leaves the result, the pages, and only such other files as it could not remove |
| Documents.WholeRun | rinser/jobprocess.go:58-80 | the stages one after the other leave exactly the result and the pages, and what could not be swept away |
| Documents.NothingOfTheDocument | rinser/jobprocess.go:404-418 | then no file holds the document or its conversion, and all but the files left over are pictures, PDF or JSON |
| Documents.Collected | rinser/jobprocess.go:331-363 | by the time pages are listed, exactly the rendered pages have been collected, if and only if the working name is not input.png |
| Pipeline.Worker.Advance | rinser/job.go:206-219 | a transition and the look at the directory that follows it |
| Pipeline.Worker.Remove | rinser/scrubfile.go:38-39 | the file is gone if no error is reported, is there still exactly if its removal failed, and no other file is touched |
| Pipeline.Worker.RunDownload | rinser/jobprocess.go:129-181 | moves the state exactly when the transition succeeds, and then fails exactly with the fetch, whose file is there if one was created |
| Pipeline.Worker.RunDocumentName | rinser/jobprocess.go:190-225 | fails as multiple documents exactly when some file comes after a document, otherwise as no document unless there is one whose size can be read and is not 0; on success it names the document, the working file and the result |
| Pipeline.HstsComesFirst | rinser/jobprocess.go:195-200 | besides .wget-hsts a file is the sole document exactly when its name sorts higher |
| Pipeline.HstsAfterDocument | rinser/jobprocess.go:195-200 | a directory with .wget-hsts that is refused |
| Pipeline.Worker.RunExtractMeta | rinser/jobprocess.go:236-257 | fails first with the transition, then in writing the metadata |
| Pipeline.Worker.RenameDoc | rinser/jobprocess.go:227-234 | the document has its working name and no other |
| Pipeline.Worker.RunDetectLanguage | rinser/jobprocess.go:261-264 | fails only with its transition |
| Pipeline.Worker.WaitForDocToPdf | rinser/jobprocess.go:299-306 | all but PDF files are converted, and the original has to be gone |
| Pipeline.Worker.RunDocToPdf | rinser/jobprocess.go:308-317 | reports the first error of its transition, the conversion and the removals, in that order |
| Pipeline.Worker.WaitForPdfToImages | rinser/jobprocess.go:319-329 | all pages are there, or, if the tool has failed, some and one that was begun; the watcher, which may meet a half-written page, has collected nothing but what is there |
| Pipeline.BrokenMeans | rinser/jobprocess.go:328 | a failed rendering leaves an initial part of the pages, the next one unfinished unless none was left, and everything else as it was |
| Pipeline.Worker.RunPdfToImages | rinser/jobprocess.go:353-363 | reports the first error of its transition, the tool, the removal and the listing, in that order; on success input.pdf is gone, every picture has been collected, and output.txt lists what was collected |
| Pipeline.Worker.RunTesseract | rinser/jobprocess.go:365-398 | reports the transition's error, else that of the refused line, else tesseract's own |
| Pipeline.Worker.JobEnding | rinser/jobprocess.go:400-426 | reports the first error of its transition and the renaming; on success the result has its name and all else that is not wanted has been swept away |
| Pipeline.Worker.Sweep | rinser/jobprocess.go:404-418 | exactly the unwanted files that could be removed are gone |
| Pipeline.Worker.Prepare | rinser/jobprocess.go:58-65 | the first half of the chain succeeds exactly when every tool, file operation and context check in it does, and otherwise stops with the first error met, in the state where it was met |
| Pipeline.Worker.Produce | rinser/jobprocess.go:66-70 | the second half likewise |
| Pipeline.Worker.Process | rinser/jobprocess.go:50-93 | the job ends Finished exactly when nothing reports an error and no line of tesseract's is refused (which, if each line names at most one page, means that no page is named twice), and otherwise Failed with the first error met in the order of the chain, unless it had one already, and with the state where that error was met; at Finished the data directory is exactly as `Documents.Final` says, and output.txt listed the pages in order unless the document was a .png |
| Preview.NumPages | rinser/jobpreview.go:19-20 | the nearest number of pages that can be shown, at most 100 |
| Preview.ImgWidth | rinser/jobpreview.go:21-22 | the nearest width between 96 and 1920 |
| Preview.PackedIsSum | rinser/jobpreview.go:23 | on 64-bit words the key is a sum without overflow and both parts can be read back |
| Preview.KeyInjective | rinser/jobpreview.go:23 | no two clamped requests share a key |
| Preview.Draw | rinser/jobpreview.go:45-77 | the loops draw the pages that can be decoded, whatever height scaling gives them, unless one cannot be opened or the whole cannot be encoded |
| Preview.DrawingFails | rinser/jobpreview.go:47-71 | there is no preview exactly when a page cannot be opened or the heights of the decodable ones come to 65536 rows |
| Preview.DrawingFits | rinser/jobpreview.go:47-68 | a preview has the width asked for, and its decodable pages, each at its own scaled height, lie in order one below the other without a gap from its top edge to its bottom edge |
| Preview.StackInOrder | rinser/jobpreview.go:47-66 | the decodable pages appear in order, each at its own scaled height |
| Preview.RowsCoveredOnce | rinser/jobpreview.go:59-68 | every row of a preview belongs to exactly one page |
| Preview.PrefixKept | rinser/jobpreview.go:26-29 | the sorted names keep their beginning exactly when the names that join come after all others |
| Preview.PagesJoinInTurn | rinser/jobprocess.go:319-329 | rendered pages do |
| Preview.SameDrawing | rinser/jobpreview.go:45-68 | two lists of pages give the same preview exactly when all can be opened and they show the same pages |
| Preview.OldDrawing | rinser/jobpreview.go:45-68 | a picture drawn before some files were completed is what drawing gives now exactly when all that can be decoded now stands in it |
| PreviewCache.RunKeeps | rinser/jobpreview.go:18-76 | in every run of requests, new pages and writing, each cached picture was drawn from the current first pages, with each file as it was at some moment |
| PreviewCache.HitMeans | rinser/jobpreview.go:18-32 | so what the cache answers is what drawing the first pages gives now if and only if it shows all of them that can be decoded now |
| PreviewCache.CachedIsFresh | rinser/jobpreview.go:18-32 | if no request has found a page unfinished that is finished now, whatever the cache answers is fresh |
| PreviewCache.CarefulIsFresh | rinser/jobpreview.go:18-32 | so it is when pages are written in turn and every request that draws asks for fewer pages than are collected, or comes when all are finished |
| PreviewCache.CompletionMeans | rinser/jobpreview.go:45-76 | when files get completed, a right cache stays right exactly when no cached request has a page that was unfinished and can be decoded now |
| PreviewCache.UnfinishedPageIsMissed | rinser/jobpreview.go:47-49 | a run in which a page is drawn while it is written, and the preview without it is answered when it is finished |
| PreviewCache.StaleMeans | rinser/jobpreview.go:18-32 | when names join in whatever order, a right cache stays right exactly when for every cached request the new first pages can be opened and show what the old ones showed |
| PreviewCache.StaleMeansOtherPages | rinser/jobpreview.go:18-32 | if all pages can be shown, exactly when the first pages are the same |
| PreviewCache.StaleOutOfTurn | rinser/jobpreview.go:24-25 | a run in which a page that sorts before a cached one joins, and a wrong preview is answered |
| Freshness.LooksFindPages | rinser/job.go:266-291 | if the working name is not input.png, every look at the directory, also a late one, finds exactly the pages rendered so far |
| Freshness.WatchedInTurn | rinser/job.go:266-289 | in such a job the pages join in order, also when an older look is inserted after a newer one |
| Freshness.JobPreviewMeans | rinser/jobpreview.go:18-32 | so, however requests, stages, looks and the writing of pages are interleaved, a cached preview of the job is right if and only if it shows all the first pages that can be decoded now |
| Freshness.PreviewsOfJobsAreFresh | rinser/jobprocess.go:319-329 | and always if pages are written in turn and each drawing request asks for fewer pages than are collected, or comes when all are finished |
| Freshness.FirstPageMayBeMissed | rinser/jobpreview.go:47-49 | in every such job with a page, a request that comes while the first is written makes the cache answer without it for good |
| PreviewCache.Previewer.Look | rinser/jobpreview.go:18-32 | a hit is the cached preview; otherwise there are at least as many names as pages to show, sorted |
| PreviewCache.Previewer.Preview | rinser/jobpreview.go:15-81 | an undisturbed call answers from the cache or else as drawing would, stores just that, and nothing when there is no preview; a right cache stays right, and then the answer is what drawing gives |
| Language.CheckLangString | rinser/job.go:71-78 | accepts exactly small letters, plus and underscore |
| Language.LangMeans | rinser/job.go:73 | letter by letter |
| Language.TikaLetters | rinser/langcodes.go:3-22 | every language name is three small letters |
| Language.SameLanguage | rinser/langcodes.go:3-22 | Tika's codes are turned into tesseract's names of the same languages, as the table of names in rinser/langcodes.go:24-128 has them |
| Language.SureIsNearest | rinser/jobprocess.go:285 | the confidence that is needed is the 64-bit number nearest to 0.99 |
| Detection.WordMeans | rinser/jobprocess.go:259 | letter by letter, the characters of words and numbers |
| Detection.OccursMeans | rinser/jobprocess.go:259 | a match stands at a place exactly when the text from there on is DetectedLanguage[word:number], the number with one digit before the full stop |
| Detection.MatchMeaning | rinser/jobprocess.go:259 | the pattern matches at a place exactly when DetectedLanguage[word:number] stands there |
| Detection.NoOverlap | rinser/jobprocess.go:259 | two matches never overlap |
| Detection.StartsAreAll | rinser/jobprocess.go:267 | the scan for matches that do not overlap reports every place where one begins, once and in order |
| Detection.FindAllMeaning | rinser/jobprocess.go:267 | what is found in a line is exactly the matches that stand in it |
| Language.Detector.Handle | rinser/jobprocess.go:265-281 | after any line the table holds the best confidence said so far for each language |
| Language.Detector.Guess | rinser/jobprocess.go:283-291 | the sure languages, each once, sorted and joined, whatever the order of the map |
| Language.Detector.DetectLanguage | rinser/jobprocess.go:261-297 | a chosen language stays; otherwise the result is the sorted list of exactly the languages that some match makes sure |
| Language.SureMeaning | rinser/jobprocess.go:271-288 | keeping only the best confidence decides as looking at all matches would |
| Language.SureMeansSaid | rinser/jobprocess.go:261-297 | the languages found are exactly those that some line names with enough confidence |
| Language.OrderDoesNotMatter | rinser/jobprocess.go:265-281 | how the streams are interleaved, or matches repeated, changes neither the table of best confidences nor the languages found |
| Language.GuessIsLegal | rinser/jobprocess.go:289-291 | the result is a legal language string, empty exactly when nothing is sure, and otherwise splits back into the sorted list |
| Download.LimitDoesNotWrap | rinser/jobprocess.go:120-121 | for every setting, even one that wraps around, the limit plus one does not turn negative |
| Download.LimitMeansMegabytes | rinser/job.go:141-144 | settings that do not wrap mean megabytes |
| Download.Copy | rinser/jobprocess.go:162-163 | the whole body is stored, or its first bytes up to the reader's limit |
| Download.Fetch | rinser/jobprocess.go:156-169 | success means that the whole body was stored, and comes exactly when no step fails and the body and its announced length are within the limit; too large is reported exactly in the stated cases |
| Scrubbing.Handle.Write | rinser/scrubfile.go:24 | a write, or the part of it that was made, replaces the bytes at the handle's place and no others, and the file grows only past its end |
| Scrubbing.Overwrite | rinser/scrubfile.go:17-27 | the loop ends; it succeeds exactly when no block fails; then the first size bytes are zero, and otherwise an initial part of them; the rest is untouched, and a file that is no shorter than size does not grow |
| Scrubbing.Scrub | rinser/scrubfile.go:10-40 | no error is returned exactly when every file was opened, overwritten and closed and the path removed; every file whose writes succeeded is blank, also one with several names; no byte has changed but to zero |
| Token.ClassMeans | rinser/auth.go:82-86 | letter by letter, the alphabet of section 5 of RFC 4648 |
| Token.FindMeaning | rinser/auth.go:86-91 | the backtracking search finds the leftmost token, as long as possible, or there is none |
| Token.HeaderMeaning | rinser/auth.go:73-97 | a token is returned exactly when three non-empty base64url runs joined by full stops stand in the header |
| Token.TokenIsLeftmostLongest | rinser/auth.go:91-96 | what is returned is a token, the leftmost, and as long as possible |
| Token.FoundTokenSplits | jwt/jwt.go:38-48 | a token that was found always splits into three such segments, which join to it again (the compact form of section 7.1 of RFC 7515) |
| Token.SplitterMeaning | jwt/jwt.go:38-48 | a string splits exactly when it has two full stops |
| Text.JoinSplit | jwt/jwt.go:39 | joining what splitting gave is the string again |
| Text.BelowMeans | rinser/jobprocess.go:342 | byte order: a proper prefix comes first, and otherwise the first difference decides |
| Text.SortMeaning | rinser/jobprocess.go:342 | sorting names that do not repeat lists each once, ascending |

## Left out

- JobTheorems.CleanupHandOver: the last write is that of a stage of the process goroutine. When a job is cancelled, the sandbox is killed but not waited for (rinser/runsc.go:65-74), so that it may still be writing for a moment while the files are removed.
- Pipeline.Worker.Process: says nothing about the data directory of a failed run, where a failed tool may leave anything until the job's files are removed; the processDone that follows is part of `JobCore`.
- Pipeline.Worker.Remove: of errors that are joined, the first stands for all.
- Pipeline.Worker.RunDetectLanguage: the languages found are in `Language`; here it only moves the state.
- Pipeline.Worker.RunExtractMeta: the metadata file is outside the data directory and its content is not modelled.
- Pipeline.Worker.RunDocumentName: directories and links are not modelled; the walk passes over them, and an upload or a download brings neither.
- Pipeline.Worker.WaitForPdfToImages: the watcher's one late look, after the tool has ended, is the subject of `Freshness.LooksFindPages` and adds nothing.
- Pages.Book.Refresh: the disk use it adds up is not modelled.
- Language.Detector.Handle: reading a number is strconv.ParseFloat, which is a parameter.
- Preview.Draw: decoding, scaling and JPEG encoding are library code; a preview is the list of its rectangles, and the height that a page has at a width is a parameter.
- PreviewCache.HitMeans: the files of collected pages stay; a request for a job whose files are being removed is not modelled.
- Relay.Runner.Loop: the lines are those the scanners produce; preparing, starting and killing the sandbox process is not modelled.
- Download.Fetch: choosing the file name from the response is not modelled, nor is the HTTP client.
- Scrubbing.Overwrite: nobody else writes to the file meanwhile.
- Registry.Rinse.RunTasks: which finished jobs are overdue is a parameter, because real time is not modelled; the same goes for the `started` and `progress` times, tickers and timeouts, which are steps that may happen at any moment.
- RinseTheorems.LimitHolds: speaks of listed jobs. RemoveJob takes a running job off the list before its goroutine has ended.
- RinseTheorems.ScheduledJobsAreRemovedOnce: the callers of RemoveJob are taken to have found their job on the list, which leaves out the error paths of RESTPOSTJobs that drop a job they have created without closing it (rinser/restpostjobs.go:115-117, 139-141).
- LockOrder.NoDeadlock: the calls into the user interface library are taken to need neither mutex.
- The HTTP and REST handlers, templates and user interface: thin layers over the calls modelled here.
- The checking of token signatures, certificates, JSON and base64: library code.
- Loading and saving settings, apart from the clamping of the limit.
