# A model of the search and harvester servers

This project models the parts of the search and harvester servers in which state is shared between
threads, requests and restarts, and proves what these parts promise.

**The job engine** (`AsyncEngine`, `AsyncInvariant`, `AsyncSteps`, `AsyncFrames`, `AsyncResources`,
`AsyncSafety`, `AsyncTheorems`, `AsyncDelivery`, `AsyncFaults`). One master thread submits, cancels
and collects jobs; two slave threads execute them and call back under the mutex of the job. The engine is a state machine whose
steps are the points at which another thread can interleave: each lookup in a queue, each critical
section, each deletion. The jobs are a map from ids, which stands for the heap: a step that uses a
deleted job raises a fault. The rules that `cpix_async.h` states for clients are the predicate
`Obeys`. The invariant is stated job by job, so that a step has to be looked at for the one job it
concerns.

**The bridge** (`AsyncBridge`, `BridgeInvariant`, `BridgeSteps`, `BridgeEngineSteps`,
`BridgeSafety`, `BridgeTheorems`, `BridgeAnswers`, `BridgeCancel`, `BridgeProgress`, `BridgeTermination`,
`BridgeDeadlock`). Any number of `CCPixSearch` and `CCPixIdxDb` objects with their asyncronizers
drive the engine; the completion callback runs in a slave thread and shares the static mutexes with
the submitting functions. The state of the engine is part of the state of the bridge, and the
bridge is proved to be a client that keeps the rules, so that the guarantees of the engine carry
over.

**Cancel requests and errors** (`CancelRequests`, `ErrorPool`). `CancelWhenDone` remembers one
message; the pool of error objects keeps asynchronous errors apart.

**The hit cache** (`HitsCache`). The wrappers of a ranked hit list, fetched a page at a time. The
central fact is that evicting and refilling is the same as fetching the page anew, so that the state
of the cache is told by the index of the last fetch alone.

**Analyzer definitions** (`AnalyzerSyntax`, `AnalyzerParser`, `AnalyzerTheorems`,
`AnalyzerConverse`). The recursive-descent parser, a parse function it is proved to compute, and a
printer; the two undo each other up to empty parameter lists. The two token kinds whose text is
the same in the source, colon and terminator, are told apart, as they are there by address.

**Documents and batches** (`Wire`, `SearchDocument`, `Batch`). The byte format, the document object
over streams, and the batch that the client cuts with sizes that are four too large.

**Token streams** (`TokenStreams`). The streams that feed the aggregate fields, one token at a time.

**The harvester** (`Scheduler`, `IndexingManager`, `Blacklist`, `PluginLoader`). The queue with its
clock correction and its state file, and the blacklist that is written before a plug-in is loaded.

**What does not hold.** The following the source sets out to do, or relies on, fails for some input.
For each, the project has the input or the run, and the exact condition under which it does hold.

* The submitting functions wait in `put` for room in the queue while they hold the static mutex that
  the completion callback locks. With at least two more client objects of a kind than the queue
  holds jobs (seven, for the default size of five) the server can hang for good;
  with fewer it never does (`BridgeDeadlock.DeadlockFreeIff`). Housekeeping jobs are not modelled:
  one that sits in the index queue takes a place there, which lowers the bound for index clients by
  one for that time.
* A request that is cancelled while `iWaitingForCompletion` is set is never answered
  (`BridgeCancel.CancelNotifiesIff`). The callback of the request may have set the flag already
  (`SilencingHappens`), or the flag is left over from a request cancelled in that way, because Start
  does not clear it (`StaleFlagSilencesTheNext`).
* A second `CancelWhenDone` overwrites the first, which is never answered
  (`CancelRequests.AllAnsweredIff`).
* Collecting results into a wrapper whose error has not been cleared loses an error object
  (`AsyncResources.CollectingConservesIff`).
* `resetDocumentCache` reads the first key of the map even if the map is empty. A request for a hit
  from which no page can be fetched empties it, and the next request is undefined
  (`HitsCache.EmptyMapIsReached`, `CallEmptiesIff`, `EveryCallIsDefinedIff`).
* `cpix_Hits_doc` ends without error although a document is missing, or its wrapper freed, when the
  last hit of the request can be read and an earlier one cannot (`HitsCache.GapGoesUnreported`,
  `LuceneHits.HitsDoc`). The keys of the cache have a gap then, and the test that skips the fetch is
  not exact (`AllInBetween`, `CoveredIff`).
* Within one execution of a document job every hit but the last that cannot be read loses an error
  object of the pool for good, since `XlateExc` sets the error to NULL without releasing it
  (`LuceneHits.HitsDoc`; run in `GapGoesUnreported`).
* A document whose announced field count is negative is read but is no image of a document
  (`Wire.ReadIsWrittenIff`).
* A field added to a document with repeated names need not be the one found
  (`SearchDocument.AddedIsFoundIff`).
* The size array of batches is static: a batch of another client in between can make the transfer
  fail (`Batch.TransferAfterOther`).
* The clock correction takes the time between two runs for a change of the clock when it is three
  minutes or more. A harvest of that length, with no other run meanwhile, is due again as soon as it is
  completed and is started again at once (`Scheduler.LongHarvestIsDueAgainIff`,
  `LongHarvestIsRepeated`; run in `IndexingManager.LongHarvestRun`).
* For the same reason a record does not come due after a week when RunL comes daily: each run ages it
  by less than a minute (`Scheduler.AgesByMinutes`).
* The number of due records need not fall in a round, when others come of age meanwhile
  (`Scheduler.RipeningHidesProgress`, `RoundMakesProgressIff`).
* Boots keep crashing when one uid comes with two versions (`Blacklist.CrashBoundIff`), and while the
  blacklist database cannot be opened (`CrashIsRememberedIff`, `ClosedForgetsEverything`).

Conventions: an exception or a leave is a result (`Option`, `Read`, `Parsed`, `Outcome`, a boolean);
a class stands for a class of the source whose methods change its fields, a datatype for a value;
each method is proved against a function, and the properties are lemmas about that function. Where
two threads interleave, the protocol is a state machine over values instead of classes.

## Model

| member | source | states |
|---|---|---|
| AsyncSafety.StepKeepsInv | searchengine/cpix/cpix/src/cpix_async.cpp:217-297 | every step of the master thread (submit, the sub-steps of Cancel and Results, clearing errors, handles) and of a slave thread keeps the invariant, under the client rules: no deleted job is used, no held mutex is destroyed, no lookup fails, nothing owned is lost |
| AsyncSafety.LookupsAreSafe | searchengine/util/cpixtools/inc/public/cpixjobqueue.h:281-377 | the lookups by id, which read the id of every queued job, only meet live jobs |
| AsyncTheorems.LockAndCancelSettlesOwner | searchengine/cpix/cpix/src/cpix_async.cpp:227-239 | under the job mutex the master is left owing the deletion if the callback has happened, and the slave if it has not; the client no longer does |
| AsyncTheorems.DecideCallsBackIff | searchengine/cpix/cpix/src/cpix_async.cpp:331-354 | the slave calls back exactly the jobs it finds not cancelled, for the first time, and owes the deletion of the others |
| AsyncSteps.DecideKeeps | searchengine/cpix/cpix/src/cpix_async.cpp:331-354 | either way the control invariant of all jobs is kept |
| AsyncTheorems.TakeWaitingSettlesOwner | searchengine/cpix/cpix/src/cpix_async.cpp:261-271 | a job that still waits leaves the queue without having been called back and only the canceller owes its deletion; any other one is found started |
| AsyncTheorems.DeleteOwnIsOwed | searchengine/cpix/cpix/src/cpix_async.cpp:1292-1299 | the slave deletes a job only when it owes that, nobody else does, and the job is out of its queue and unlocked |
| AsyncTheorems.RunsAreSafe | searchengine/cpix/cpix/src/cpix_async.cpp:245-297 | in every state of every interleaving no deleted job is touched or deleted again, no mutex is destroyed while held, no lookup by id fails, and handles, hits and the error each job ends with are conserved; errors that one execution of a document job loses on the way are counted by HitsCache.LuceneHits.HitsDoc |
| AsyncFaults.FaultsOnDead | searchengine/cpix/cpix/src/cpix_async.cpp:307-359 | what that means: a step that works on a deleted job, or deletes it again, raises the fault |
| AsyncFaults.DeletionFaults | searchengine/cpix/cpix/src/cpix_async.cpp:368-376 | deleting a job whose mutex is held, or whose error or hits are gone, raises the fault |
| AsyncFaults.LookupFaults | searchengine/util/cpixtools/inc/public/cpixjobqueue.h:281-377 | a lookup that reads the id of a deleted job raises the fault |
| AsyncFaults.NotFoundIsReported | searchengine/cpix/cpix/src/cpix_async.cpp:474-506 | Cancel and Results report a job that is not in the queue they look into |
| AsyncFaults.OwnershipFaults | searchengine/cpix/cpix/src/cpixerror.cpp:411-419 | releasing an error or hits that are not there, or making them twice, raises the fault |
| AsyncFaults.FaultsStay | searchengine/cpix/cpix/src/cpix_async.cpp:307-359 | no fault is forgotten |
| AsyncTheorems.ExactlyOneOwes | searchengine/cpix/cpix/inc/public/cpix_async.h:133-154 | a job is alive if and only if the client, the slave or the master is obliged to get it deleted, and never two of them are |
| AsyncTheorems.GoneOnceQuiet | searchengine/cpix/cpix/src/cpix_async.cpp:307-359 | a job whose Cancel or Results has returned no longer exists once its slave is not occupied with it |
| AsyncFaults.SettledIff | searchengine/cpix/cpix/src/cpix_async.cpp:245-297 | a job counts as settled if and only if a step has been taken with which a call of Cancel or Results for it returns |
| AsyncTheorems.DeadForGood | searchengine/cpix/cpix/src/cpix_async.cpp:395-407 | a deleted job never comes back: ids are not used twice |
| AsyncTheorems.ResultsWaitForTheSlave | searchengine/cpix/cpix/src/cpix_async.cpp:493-505 | Results passes lockAndUnlock only when the slave has left the critical section and calledBack_ is set |
| AsyncTheorems.CalledBackAtMostOnce | searchengine/cpix/cpix/src/cpix_async.cpp:331-356 | the callback of a job fires at most once in any run |
| AsyncTheorems.NeverCalledBackAfterwards | searchengine/cpix/cpix/inc/public/cpix_async.h:80-87 | once Cancel or Results on a job has returned, in whichever way, its callback is never fired |
| AsyncTheorems.ExecutedInSubmissionOrder | searchengine/cpix/cpix/src/cpix_async.cpp:451-471 | index jobs are executed in submission order without exception; query jobs in submission order less exactly the ones cancelled before they started |
| AsyncTheorems.TakeWaitingKeepsOrder | searchengine/util/cpixtools/inc/public/cpixjobqueue.h:353-377 | cancelNonStartedJob takes one job out of the waiting ones and leaves the order of the rest |
| AsyncFaults.QueuesAreBounded | searchengine/util/cpixtools/inc/public/cpixsyncqueue.h:260-286 | no queue ever holds more waiting jobs than its capacity |
| AsyncFaults.StoppedIff | searchengine/util/cpixtools/inc/public/cpixsyncqueue.h:260-330 | a stopped queue takes no job and refuses it; a slave leaves its loop exactly when it is idle and the queue stopped |
| AsyncFaults.MutexExcludes | searchengine/cpix/cpix/src/cpix_async.cpp:227-239 | the critical section of a live job is entered only when nobody is in it |
| AsyncResources.DeleteConserves | searchengine/cpix/cpix/src/cpix_async.cpp:1054-1068 | deleting a job gives back its handle reference, its error and its hits, each exactly once |
| AsyncResources.TakeResultsConserves | searchengine/cpix/cpix/src/cpix_async.cpp:995-1023 | collecting leaves exactly one owner of the error and of the hits |
| AsyncDelivery.CollectingDelivers | searchengine/cpix/cpix/src/cpix_async.cpp:995-1023 | collecting destroys nothing: the client gets the hits if and only if the job had any, the wrapper the error if and only if the job had one |
| AsyncDelivery.ResultsReachTheClient | searchengine/cpix/cpix/src/cpix_async.cpp:307-376 | over a run: from the taking on, the client owns the hits if and only if the job was a query that found something, until it destroys them, and the wrapper carries the error if and only if the job failed, until it is cleared |
| AsyncDelivery.ResultsReturnWithOutcome | searchengine/cpix/cpix/src/cpix_async.cpp:474-506 | when a call of Results has returned it has taken what the job had, in just this way, after the job was executed |
| AsyncFaults.ClearingReleases | searchengine/cpix/cpix/src/cpixerror.cpp:411-419 | clearing a wrapper takes its error out of use and nothing else |
| AsyncFaults.DestroyingReleases | searchengine/cpix/cpix/src/cpix_async.cpp:995-1023 | destroying hits takes them out of use and nothing else |
| AsyncResources.ConstructConserves | searchengine/cpix/cpix/src/cpix_async.cpp:606-638 | construction keeps every reference accounted for |
| AsyncDelivery.ConstructMakes | searchengine/cpix/cpix/src/cpix_async.cpp:606-638 | a new job has the kind and the handle given, and takes one reference on that handle |
| AsyncDelivery.JobsKeepHandles | searchengine/cpix/cpix/src/cpix_async.cpp:640-649 | a job keeps its kind and handle for as long as it lives |
| AsyncDelivery.HandlesAreCounted | searchengine/cpix/cpix/src/cpix_async.cpp:606-649 | over any run the references of a handle are what the client has opened and not closed, and the live jobs on it |
| AsyncResources.CollectingConservesIff | searchengine/cpix/cpix/inc/public/cpix_async.h:109-115 | collecting into a wrapper conserves error objects if and only if its previous error has been cleared; otherwise that object has no owner any more |
| BridgeSafety.StepKeepsInv | searcher/searchserver/src/ccpixasyncronizer.cpp:59-156 | every step of the client objects, their asyncronizers, the completion callbacks and the engine keeps the invariant that links client objects to jobs |
| BridgeSafety.StepIsEngineStep | searchengine/cpix/cpix/inc/public/cpix_async.h:133-154 | every step of the bridge is a step of the engine that obeys the rules for clients, or leaves the engine alone |
| BridgeTheorems.RunsAreEngineRuns | searcher/searchserver/src/ccpixsearch.cpp:76-111 | forgetting the bridge turns each of its runs into a run of the engine under the client rules, so that all engine guarantees hold for the server |
| BridgeTheorems.RunsAreSafe | searcher/searchserver/src/ccpixsearch.cpp:138-195 | the invariant holds in every state of every run of master, index slave and query slave |
| BridgeEngineSteps.UncancelledIsLinked | searcher/searchserver/src/ccpixsearch.cpp:180-187 | a job that is about to call back and is not cancelled is still awaited by the object of its cookie, or is just being announced to it under the mutex |
| BridgeEngineSteps.RunLFinds | searcher/searchserver/src/ccpixasyncronizer.cpp:115-126 | what RunL finds completed has called back, is unclaimed and started, so that collecting it keeps the rules |
| BridgeEngineSteps.CancelJobObeys | searcher/searchserver/src/ccpixsearch.cpp:80-83 | the job that CancelAll cancels is unclaimed and in the query queue |
| BridgeTheorems.NoCompletionIsLost | searcher/searchserver/src/ccpixsearch.cpp:121-136 | the callback always finds its own job id, even when the job finishes before the submitting call returns, and unless that request is being cancelled a pending, active asyncronizer with an observer |
| BridgeTheorems.EveryStartIsAccountedFor | searcher/searchserver/src/ccpixasyncronizer.cpp:59-69 | as counts: every Start of an object is matched by one notification, or by one silent cancellation, or is outstanding; without CancelAll never by a silent one |
| BridgeAnswers.EveryMessageEndsOnce | searcher/searchserver/src/csearchserversubsession.cpp:574-625 | message by message: from its Start on a message is open, or exactly one step of the run has completed, revoked or silenced it; without CancelAll that step is the completion, and the callback of the job came before it |
| BridgeAnswers.EndsAtMostOnce | searcher/searchserver/src/ccpixasyncronizer.cpp:132-156 | with whatever cancellations, no message is dealt with twice |
| BridgeAnswers.NotifiedAfterCallback | searcher/searchserver/src/ccpixasyncronizer.cpp:115-126 | RunL tells the observer of a request only after the callback of its job has done its work, and goes on to collect the results |
| BridgeAnswers.RunLMeans | searcher/searchserver/src/ccpixasyncronizer.cpp:115-156 | RunL tells the observer once and forgets it, clears iWaitingForCompletion, ends the request and begins to collect the results of its job; no other object is touched |
| BridgeCancel.CancelNotifiesIff | searcher/searchserver/src/ccpixasyncronizer.cpp:132-142 | a request that CancelAll finds active is answered by exactly one notification if and only if iWaitingForCompletion was not set; otherwise its observer is never told |
| BridgeCancel.FlagIsSetIff | searcher/searchserver/src/ccpixasyncronizer.cpp:59-117 | iWaitingForCompletion is set if and only if a callback has set it since the last RunL of that object, or since it was clear |
| BridgeCancel.NotifiedAfterRunL | searcher/searchserver/src/ccpixasyncronizer.cpp:115-142 | a request that follows an ordinary completion and is cancelled before its own callback sets the flag is answered exactly once |
| BridgeCancel.FlagOnlyWhileActive | searcher/searchserver/src/ccpixasyncronizer.cpp:94-117 | as long as nothing has been cancelled the flag is set only while the request is active |
| BridgeCancel.SilencingHappens | searcher/searchserver/src/ccpixasyncronizer.cpp:94-109 | with one search object already there is a run in which a cancelled request is never answered |
| BridgeCancel.StaleFlagSilencesTheNext | searcher/searchserver/src/ccpixasyncronizer.cpp:59-69 | Start does not clear iWaitingForCompletion: after such a cancellation the next request of the same object, cancelled before its own callback, is not answered either |
| BridgeCancel.SilencedAfterCallback | searcher/searchserver/src/ccpixasyncronizer.cpp:132-142 | a request is silenced only after its callback: until then the master stands in the cancellation |
| BridgeCancel.CompareMeans | searcher/searchserver/src/ccpixsearch.cpp:121-136 | the callback goes on only for the job that its object waits for |
| BridgeCancel.TestMeans | searcher/searchserver/src/ccpixasyncronizer.cpp:94-109 | the callback completes the request only if it is pending |
| BridgeProgress.SomeoneMoves | searcher/searchserver/src/ccpixsearch.cpp:121-136 | in every reachable state there is nothing left to do, or some thread can move, or the master is jammed on a full queue |
| BridgeProgress.CallbackMoves | searcher/searchserver/src/ccpixsearch.cpp:124-132 | the slave is held up in the callback only by a master that holds the static mutex |
| BridgeProgress.HolderMoves | searchengine/cpix/cpix/src/cpix_async.cpp:331-341 | whoever holds the mutex of a job that the master waits for can move |
| BridgeTermination.StepWorks | searcher/searchserver/src/ccpixasyncronizer.cpp:94-126 | every step that is not a new request leaves less to do |
| BridgeTermination.EveryRunDrains | searcher/searchserver/src/csearchserversubsession.cpp:574-625 | without new requests every run ends within a number of steps known from its first state, with every request answered unless the master is jammed |
| BridgeDeadlock.JamIsForGood | searchengine/util/cpixtools/inc/public/cpixsyncqueue.h:260-286 | once the master waits in put with the static mutex and the slave waits for that mutex, no step of any thread ends it |
| BridgeDeadlock.JamTakesClients | searcher/searchserver/src/ccpixidxdb.cpp:310-319 | a jam takes two more client objects than the queue has room for |
| BridgeDeadlock.JamReachableIff | searcher/searchserver/src/ccpixsearch.cpp:180-187 | a jam on the queue of a kind is reachable if and only if there are at least two more client objects of that kind than the queue holds jobs |
| BridgeDeadlock.DeadlockFreeIff | searcher/searchserver/src/ccpixidxdb.cpp:133-150 | the server can always go on, in every reachable state, if and only if neither queue is exceeded in this way |
| CancelRequests.RequestsAreConserved | searcher/searchserver/src/ccpixasyncronizer.cpp:75-88 | every cancel request is answered once, or waits, or was overwritten by a later one |
| CancelRequests.ActiveIff | searcher/searchserver/src/ccpixasyncronizer.cpp:59-69 | the asyncronizer is active if and only if an operation has begun that has not completed |
| CancelRequests.AskMeans | searcher/searchserver/src/ccpixasyncronizer.cpp:75-88 | a cancel request is answered at once when nothing is active, and otherwise becomes the one that waits |
| CancelRequests.AllAnsweredIff | searcher/searchserver/src/ccpixasyncronizer.cpp:119-123 | when the operation completes every cancel request has been answered exactly once if and only if none came while another waited |
| CancelRequests.CCPixAsyncronizer.CancelWhenDone | searcher/searchserver/src/ccpixasyncronizer.cpp:75-88 | an active asyncronizer keeps the message, an idle one completes it at once |
| CancelRequests.CCPixAsyncronizer.Done | searcher/searchserver/src/ccpixasyncronizer.cpp:115-123 | the kept message is completed when the operation completes |
| ErrorPool.SlaveErrorsArePrivate | searchengine/cpix/cpix/src/cpixerror.cpp:259-296 | an error made by a slave thread is an object nobody else uses, and making it disturbs no other error |
| ErrorPool.SlaveErrorKeepsItsText | searchengine/cpix/cpix/src/cpixerror.cpp:313-342 | the text of such an error stays until it is destroyed, whatever else is created and destroyed meanwhile |
| ErrorPool.AllKeepError | searchengine/util/cpixtools/inc/public/cpixsyncpool.h:124-171 | an error in use stays in use for good as long as nobody destroys it |
| ErrorPool.ReleasedOnce | searchengine/util/cpixtools/inc/public/cpixsyncpool.h:150-171 | an error is taken back exactly when it is in use; a second release is refused |
| ErrorPool.AcquiredAgain | searchengine/util/cpixtools/inc/public/cpixsyncpool.h:124-171 | an empty pool makes a new item; an item given back is handed out again |
| ErrorPool.ReleasedInOrder | searchengine/util/cpixtools/inc/public/cpixsyncpool.h:124-171 | items are handed out in the order in which they were given back, two are kept, and a third is deleted |
| ErrorPool.DestroyMeans | searchengine/cpix/cpix/src/cpixerror.cpp:411-419 | destroying takes an error out of use; one that is refused, or of the static error, changes nothing |
| ErrorPool.Clipped | searchengine/cpix/cpix/src/cpixerror.cpp:313-342 | a message is kept whole if it fits into 255 characters and is otherwise cut to its first 255 |
| ErrorPool.SyncErrorIsShared | searchengine/cpix/cpix/src/cpixerror.cpp:183-191 | after any sequence of operations the error of a synchronous call says what the last synchronous call reported |
| ErrorPool.ErrorInfoPool.Acquire | searchengine/util/cpixtools/inc/public/cpixsyncpool.h:124-146 | the pool object hands out the oldest free item, or a new one |
| ErrorPool.ErrorInfoPool.Release | searchengine/util/cpixtools/inc/public/cpixsyncpool.h:150-171 | the pool object keeps at most two free items and refuses items it does not know |
| ErrorPool.ErrorInfoPool.CreateError | searchengine/cpix/cpix/src/cpixerror.cpp:313-342 | the message is clipped to its buffer and stored in the object acquired |
| ErrorPool.ErrorInfoPool.DestroyError | searchengine/cpix/cpix/src/cpixerror.cpp:411-419 | destroying releases pooled errors and leaves the static one alone |
| HitsCache.PagesOverlap | searchengine/cpix/cpix/src/cpixhits.cpp:39-60 | what is kept of an old page is part of the page fetched from the index kept from |
| HitsCache.LuceneHits.DestroyWrappers | searchengine/cpix/cpix/src/cpixhits.cpp:39-60 | frees the wrappers before the key in order, all of them for -1 or a missing key, and each wrapper is owned or freed exactly once |
| HitsCache.LuceneHits.WrapDocument | searchengine/cpix/cpix/src/cpixhits.cpp:70-93 | adds the index unless it is there; an existing wrapper is not replaced |
| HitsCache.LuceneHits.FetchDocuments | searchengine/cpix/cpix/src/documentconsumer.cpp:24-70 | adds exactly the readable documents of the page up to the first failure that is not a deletion |
| HitsCache.LuceneHits.GetDocument_ | searchengine/cpix/cpix/src/cpixhits.cpp:277-319 | whatever was cached before, the cache is afterwards exactly the page fetched from the index; it fails if and only if the hit cannot be read |
| HitsCache.LuceneHits.GetDocument | searchengine/cpix/cpix/src/cpixhits.cpp:96-109 | agrees with the plain list for every index and every state of the cache |
| HitsCache.LuceneHits.Open | searchengine/cpix/cpix/src/cpixhits.cpp:225-262 | the constructor with its fetch of the first page: it throws if and only if there are hits and the first cannot be read; the map is empty only when there are no hits |
| HitsCache.LuceneHits.ResetDocumentCache | searchengine/cpix/cpix/src/cpixhits.cpp:111-123 | undefined if and only if the map is empty; otherwise it returns the number of cached documents, refetching from the index when the request is not covered, and throws when that fails |
| HitsCache.ResetCachesAllIff | searchengine/cpix/cpix/src/cpixhits.cpp:111-123 | for a request of at most a page within the list all requested documents are cached afterwards if and only if all of them can be read |
| HitsCache.PageReaches | searchengine/cpix/cpix/src/cpixhits.cpp:169-183 | the cached keys lie within one page of the hit list |
| HitsCache.AllInBetween | searchengine/cpix/cpix/src/cpixhits.cpp:169-183 | the cached keys form one interval if and only if no hit that cannot be read lies between two that can, as far as the page was fetched |
| HitsCache.NoGapIff | searchengine/cpix/cpix/src/cpixhits.cpp:113-116 | that is so if and only if from the first key on as many hits can be read as there are keys |
| HitsCache.CoveredIsCached | searchengine/cpix/cpix/src/cpixhits.cpp:113-116 | when the fetch is skipped every requested readable document is cached |
| HitsCache.CoveredIff | searchengine/cpix/cpix/src/cpixhits.cpp:113-116 | the test skips the fetch exactly when nothing requested is missing, for all requests, under the same condition |
| HitsCache.LuceneHits.HitsDoc | searchengine/cpix/cpix/src/cpixsearch.cpp:236-269 | undefined if and only if the map is empty; otherwise it delivers, for every position asked for, the hit there or nothing; all are there with live wrappers if and only if all these hits can be read; it ends without error although something is missing or freed if and only if the last hit can be read and an earlier one cannot; it loses one pooled error for each hit but the last that cannot be read |
| HitsCache.LuceneHits.XlateExc | searchengine/cpix/cpix/inc/private/cpixutil.h:92-150 | every call sets the error to NULL without releasing it, and takes a new one from the pool if it throws |
| HitsCache.LuceneHits.DeliverOne | searchengine/cpix/cpix/src/cpixsearch.cpp:248-268 | one turn of that loop |
| HitsCache.DeliversAllIff | searchengine/cpix/cpix/src/cpixsearch.cpp:236-269 | a call delivers every document asked for, up to a page and to the end of the list, if and only if these hits can be read |
| HitsCache.CallEmptiesIff | searchengine/cpix/cpix/src/cpixhits.cpp:277-319 | a call leaves the map empty, so that the next one is undefined, if and only if no page can be fetched from the last hit it asks for |
| HitsCache.EveryCallIsDefinedIff | searcher/searchserver/src/ccpixsearch.cpp:222-225 | once a page is cached, all sequences of calls whose indices the server admits are defined if and only if a page can be fetched from every hit |
| HitsCache.EveryPageHoldsIff | searchengine/cpix/cpix/src/documentconsumer.cpp:24-70 | that is so if and only if no hit is broken, the last one can be read, and no whole page of hits is deleted |
| HitsCache.EmptyMapIsReached | searchengine/cpix/cpix/src/cpixhits.cpp:115-115 | with the second of two hits deleted a request for it ends with an error and the next request, whatever it is, is undefined |
| HitsCache.GapGoesUnreported | searchengine/cpix/cpix/src/cpixsearch.cpp:248-268 | a call on a list with a deleted document that ends without error although a document is missing, a delivered wrapper has been freed and a pooled error is lost |
| AnalyzerTheorems.ParsePrintedIff | searchengine/cpix/cpix/src/analyzerexp.cpp:376-398 | parsing the printed tokens of any piping and any remainder gives back both if and only if the remainder is no further filter and, after a bare identifier, no parameter list |
| AnalyzerTheorems.DefinitionPrinted | searchengine/cpix/cpix/src/analyzerexp.cpp:400-424 | every printed definition parses to its tree |
| AnalyzerTheorems.SwitchIsSpelled | searchengine/cpix/cpix/src/analyzerexp.cpp:262-398 | the words of the language, token by token: a switch with a case of two names and a default, and a filter with two parameters behind it |
| AnalyzerTheorems.ParamsPrinted | searchengine/cpix/cpix/src/analyzerexp.cpp:272-282 | a printed parameter list parses to its parameters |
| AnalyzerTheorems.CasePrinted | searchengine/cpix/cpix/src/analyzerexp.cpp:305-318 | a printed case parses to its names and piping |
| AnalyzerTheorems.CasesPrinted | searchengine/cpix/cpix/src/analyzerexp.cpp:334-336 | printed cases parse up to the default |
| AnalyzerTheorems.SourcePrinted | searchengine/cpix/cpix/src/analyzerexp.cpp:329-386 | a printed switch or invocation parses to itself |
| AnalyzerTheorems.FiltersPrinted | searchengine/cpix/cpix/src/analyzerexp.cpp:393-396 | printed filters parse one after the other, whatever follows |
| AnalyzerConverse.PipingReads | searchengine/cpix/cpix/src/analyzerexp.cpp:388-398 | the tokens a piping was parsed from are those it prints, up to empty parameter lists, and every case has a name |
| AnalyzerConverse.DefinitionReads | searchengine/cpix/cpix/src/analyzerexp.cpp:400-424 | printing a parsed definition gives back its tokens up to empty parameter lists |
| AnalyzerConverse.SameTreeIff | searchengine/cpix/cpix/src/analyzerexp.cpp:284-303 | two definitions have the same tree if and only if they differ in empty parameter lists at most |
| AnalyzerConverse.InvokationReads | searchengine/cpix/cpix/src/analyzerexp.cpp:299-303 | a bare identifier and one with an empty list read alike; nothing else does |
| AnalyzerParser.Lexer.Next | searchengine/util/cpixtools/src/cpixparsetools.cpp:687-700 | gives the token peeked at before the others, and throws at the end |
| AnalyzerParser.Lexer.Peek | searchengine/util/cpixtools/src/cpixparsetools.cpp:702-710 | shows the next token and leaves the rest as it is |
| AnalyzerParser.Lexer.Eat | searchengine/util/cpixtools/src/cpixparsetools.cpp:825-833 | succeeds exactly on the expected token |
| AnalyzerParser.ParseParameterList | searchengine/cpix/cpix/src/analyzerexp.cpp:272-282 | computes the parse function of parameter lists, throwing exactly when it fails |
| AnalyzerParser.ParseRelaxedInvokation | searchengine/cpix/cpix/src/analyzerexp.cpp:284-303 | likewise for an identifier with optional parameters |
| AnalyzerParser.ParseCase | searchengine/cpix/cpix/src/analyzerexp.cpp:305-318 | likewise for a case |
| AnalyzerParser.ParseCases | searchengine/cpix/cpix/src/analyzerexp.cpp:334-336 | likewise for the cases of a switch |
| AnalyzerParser.ParseDefault | searchengine/cpix/cpix/src/analyzerexp.cpp:320-327 | likewise for the default |
| AnalyzerParser.ParseSwitch | searchengine/cpix/cpix/src/analyzerexp.cpp:329-369 | likewise for the three kinds of switch |
| AnalyzerParser.ParseTokenizer | searchengine/cpix/cpix/src/analyzerexp.cpp:376-386 | likewise for a tokenizer |
| AnalyzerParser.ParsePiping | searchengine/cpix/cpix/src/analyzerexp.cpp:388-398 | likewise for a piping; the recursion ends because tokens run out |
| AnalyzerParser.ParseDefinition | searchengine/cpix/cpix/src/analyzerexp.cpp:400-424 | likewise for a definition up to the end of the text |
| Wire.DocumentRoundTrip | searcher/searchclient/src/csearchdocument.cpp:132-154 | reading a written document gives back boost, fields and order, with any bytes that follow untouched |
| Wire.ReadIsWrittenIff | searcher/searchclient/src/csearchdocument.cpp:143-154 | what can be read is the image of the document it yields, byte for byte, if and only if it does not announce a negative number of fields |
| Wire.SerialisedLength | searcher/searchclient/src/csearchdocument.cpp:118-130 | the serialised length is always Size() less four, and Size() is never zero |
| Wire.FieldRead | searcher/searchclient/src/cdocumentfield.cpp:111-144 | reading a written field gives it back |
| Wire.TextRead | searcher/searchclient/src/cdocumentfield.cpp:113-114 | reading a written text gives it back |
| Wire.NumberLayout | searcher/searchclient/src/cdocumentfield.cpp:106-117 | integers are four bytes, the lowest first, in two's complement |
| Wire.CharLayout | searcher/searchclient/src/cdocumentfield.cpp:108-112 | a character is two bytes, the lower first |
| Wire.FieldLayout | searcher/searchclient/src/cdocumentfield.cpp:106-117 | a field is the length of its name, the name, the length of its value, the value, the configuration and the boost |
| Wire.DocumentLayout | searcher/searchclient/src/csearchdocument.cpp:118-196 | a document is its boost, the number of its fields, and the fields in order |
| SearchDocument.CSearchDocument.Size | searcher/searchclient/src/csearchdocument.cpp:118-130 | sums the sizes of the fields, taking eight bytes for the boost |
| SearchDocument.CSearchDocument.ExternalizeL | searcher/searchclient/src/csearchdocument.cpp:132-141 | writes exactly the image of the document, or leaves when it does not fit |
| SearchDocument.CSearchDocument.InternalizeL | searcher/searchclient/src/csearchdocument.cpp:143-154 | appends exactly the fields that the bytes hold and leaves exactly when they cannot be read |
| SearchDocument.CSearchDocument.AddFieldL | searcher/searchclient/src/csearchdocument.cpp:156-164 | takes out the first field of that name and appends the new one |
| SearchDocument.CSearchDocument.RemoveField | searcher/searchclient/src/csearchdocument.cpp:166-178 | takes out the first field of that name and tells whether there was one |
| SearchDocument.CSearchDocument.FindField | searcher/searchclient/src/csearchdocument.cpp:185-196 | finds the first field of that name |
| SearchDocument.ExternalizeField | searcher/searchclient/src/cdocumentfield.cpp:111-121 | writes exactly the image of the field |
| SearchDocument.InternalizeField | searcher/searchclient/src/cdocumentfield.cpp:123-144 | reads exactly one field, or leaves |
| SearchDocument.AddingUpdates | searcher/searchclient/src/csearchdocument.cpp:156-164 | on distinct names AddFieldL keeps them distinct and updates the map that Field(name) reads at that name alone |
| SearchDocument.AddedIsFoundIff | searcher/searchclient/src/csearchdocument.cpp:156-178 | in general the added field is the one found by its name if and only if there was no different second field of that name before |
| SearchDocument.LookupSurvivesTheTrip | searcher/searchclient/src/csearchdocument.cpp:185-196 | Field(name) answers the same before and after the trip |
| Batch.ConvertedMeans | searcher/searchserver/src/CCPixAbstractSearcher.cpp:106-193 | a converted document has distinct names; document id, class and excerpt carry the value stored first under their name, by its place, empty classes and excerpts are left out, every other field carries the value stored last under its name, and nothing else is there |
| Batch.ConvertedInOrder | searcher/searchserver/src/CCPixAbstractSearcher.cpp:114-188 | a batch is converted document by document, in order, without the NULL ones |
| Batch.SubSession.ConvertBatchDocumentL | searcher/searchserver/src/CCPixAbstractSearcher.cpp:106-193 | builds the document list and the size list together, skipping NULL documents |
| Batch.SubSession.GetBatchDocumentCompleteL | searcher/searchserver/src/csearchserversubsession.cpp:303-309 | sends the sizes; it fails exactly for an empty batch and for one longer than the list of the client |
| Batch.SubSession.GetBatchDocumentObjectL | searcher/searchserver/src/csearchserversubsession.cpp:363-406 | sends the concatenated images if they fit into the buffer computed from the static sizes and into that of the client |
| Batch.SubSession.ExternalizeAll | searcher/searchserver/src/csearchserversubsession.cpp:385-392 | writes the images of the documents one after the other |
| Batch.CountSizes | searcher/searchclient/src/rsearchserversession.cpp:405-414 | the leading sizes that are not zero are as many as there are documents |
| Batch.CutBlob | searcher/searchclient/src/rsearchserversession.cpp:423-436 | cutting by sizes less four falls on the document boundaries and gives back the documents |
| Batch.GetBatchDocuments | searcher/searchclient/src/rsearchserversession.cpp:401-440 | the client gets exactly the documents of its batch if and only if their images fit into the buffer that the static sizes allow at that moment |
| Batch.ImageLength | searcher/searchclient/src/rsearchserversession.cpp:420-430 | the images are four bytes a document shorter than the sizes say |
| Batch.BuffersSuffice | searcher/searchserver/src/csearchserversubsession.cpp:373-379 | undisturbed, both buffers suffice |
| Batch.Transfer | searcher/searchserver/src/csearchserversubsession.cpp:363-406 | undisturbed, the client gets exactly its batch, unless that is empty or longer than was asked for |
| Batch.TransferAfterOther | searcher/searchserver/src/CCPixAbstractSearcher.cpp:106-193 | with the batch of another client in between the transfer works if and only if the images of this batch are no longer than those of the other, with four bytes for each of the other documents and one to spare |
| TokenStreams.AggregateFieldTokenStream.GetNextStream | searchengine/cpix/cpix/src/analyzer.cpp:226-288 | opens the next aggregated field, skipping the others: free text by the standard tokenizer, other phone numbers by their analyzer, all else by the analyzer of the index; it throws exactly when the content is neither a string nor a file reader |
| TokenStreams.AnalyzedBy | searchengine/cpix/cpix/src/analyzer.cpp:244-287 | what one field contributes to the aggregate field, by its flags and its content |
| TokenStreams.OtherFields | searchengine/cpix/cpix/src/analyzer.cpp:297-310 | every other field is left to the analyzer of the index |
| TokenStreams.AggregateFieldTokenStream.Next | searchengine/cpix/cpix/src/analyzer.cpp:210-218 | repeated calls give the tokens of the aggregated fields in order, then the end or the exception |
| TokenStreams.PrefixGenerator.Next | searchengine/cpix/cpix/src/analyzer.cpp:174-197 | repeated calls give the prefixes of each token, longest first, although the stored token is clipped in place |
| TokenStreams.PrefixGenerator.Fetch | searchengine/cpix/cpix/src/analyzer.cpp:177-183 | tokens without a prefix are passed over |
| TokenStreams.Drain | searchengine/cpix/cpix/src/analyzer.cpp:174-197 | pulling until the end gives exactly the expanded stream, and it ends |
| TokenStreams.PullsIff | searchengine/cpix/cpix/src/analyzer.cpp:174-197 | one call of next is told by what is left alone: the first token, or the end, or the exception, after which the stream has ended |
| TokenStreams.PrefixStream | searchengine/cpix/cpix/src/analyzer.cpp:297-310 | the prefix field is served by the generator over the aggregated fields with length 2 |
| TokenStreams.FieldByField | searchengine/cpix/cpix/src/analyzer.cpp:297-310 | the prefix stream takes the fields one after the other, up to the first that cannot be read |
| TokenStreams.ExpandedMembersIff | searchengine/cpix/cpix/src/analyzer.cpp:182-192 | a token is in the expanded stream if and only if it is a prefix of a source token of a length from 1 to the limit, with its offsets and type, and with its increment only for the longest |
| TokenStreams.ShorterPrefixes | searchengine/cpix/cpix/src/analyzer.cpp:185-188 | clipping the stored token does not change its shorter prefixes |
| TokenStreams.PositionsAreKept | searchengine/cpix/cpix/src/analyzer.cpp:175-178 | the position increments of the expanded stream add up to those of the tokens that are not empty |
| Scheduler.AgeIsKeptIff | harvester/harvesterserver/src/cindexingmanager.cpp:216-229 | a record is as old at this run as at the previous one, to within less than a minute, if and only if the jump branch fires or less than a minute has passed |
| Scheduler.AgesByMinutes | harvester/harvesterserver/src/cindexingmanager.cpp:322-326 | over any number of runs three minutes or more apart, as the daily timer sets them, a completed record ages by less than a minute a run and does not come due |
| Scheduler.JumpedIff | harvester/harvesterserver/src/cindexingmanager.cpp:219-221 | the clock counts as changed exactly from a minute back and from three minutes ahead, never at the first run and never over a time beyond the range of a TInt in minutes |
| Scheduler.MinutesFromIff | harvester/harvesterserver/src/cindexingmanager.cpp:217-217 | the minutes between two times, towards zero |
| Scheduler.AgesAreKept | harvester/harvesterserver/src/cindexingmanager.cpp:222-229 | correcting for the clock keeps the age of both times of every record and everything else |
| Scheduler.DueIff | harvester/harvesterserver/src/cindexingmanager.cpp:278-281 | a record is not due exactly when it has no plug-in, does not wait, or completed within the last week |
| Scheduler.RunStartsTheFirst | harvester/harvesterserver/src/cindexingmanager.cpp:274-314 | a run with nothing running starts exactly the first due record whose start succeeds, hibernates the due ones before it, with the error of their start and its time as start and completion, and changes nothing else |
| Scheduler.QueueStaysOrderly | harvester/harvesterserver/src/cindexingmanager.cpp:401-519 | whatever plug-ins and timer do, at most one record is running and no name is queued twice |
| Scheduler.AddMeans | harvester/harvesterserver/src/cindexingmanager.cpp:409-434 | adding a queued name wakes its record if that hibernates, with the completion time reset when forced, and touches no other |
| Scheduler.AddNewMeans | harvester/harvesterserver/src/cindexingmanager.cpp:437-439 | a new name is appended, waiting, without times |
| Scheduler.ForcedAddIsDue | harvester/harvesterserver/src/cindexingmanager.cpp:420-431 | a forced reharvest makes a hibernating record due at once |
| Scheduler.RemoveMeans | harvester/harvesterserver/src/cindexingmanager.cpp:453-485 | removing takes the record out of the queue if asked to, and else puts it to sleep if it waits |
| Scheduler.CompleteMeans | harvester/harvesterserver/src/cindexingmanager.cpp:491-519 | a completed record waits with its error and the time, and no other is touched |
| Scheduler.AbsentMeans | harvester/harvesterserver/src/cindexingmanager.cpp:453-519 | for a plug-in and name that are not queued nothing changes |
| Scheduler.RoundMakesProgress | harvester/harvesterserver/src/cindexingmanager.cpp:276-313 | in particular it is so when no other record comes of age, the clock runs forward and the runs are close enough for the clock to be left alone |
| Scheduler.LongHarvestIsDueAgainIff | harvester/harvesterserver/src/cindexingmanager.cpp:219-229 | when RunL takes the time since its last run for a change of the clock, a completion in between is due again if and only if it came later than the odd seconds of that time after that run |
| Scheduler.LongHarvestIsDueAgain | harvester/harvesterserver/src/cindexingmanager.cpp:219-282 | with three minutes or more between the runs a record harvested for a minute or more is due again |
| Scheduler.LongHarvestIsRepeated | harvester/harvesterserver/src/cindexingmanager.cpp:213-307 | so the next RunL starts the same harvester again, unless one before it has come of age |
| IndexingManager.LongHarvestRun | harvester/harvesterserver/src/cindexingmanager.cpp:204-519 | the same on the object: queued, run, completed and run again, the record is running once more |
| Scheduler.NextRunPicks | harvester/harvesterserver/src/cindexingmanager.cpp:213-231 | the next RunL corrects the queue for the clock and chooses what to start from the corrected queue |
| Scheduler.DueAfterRound | harvester/harvesterserver/src/cindexingmanager.cpp:213-313 | which records are due then: those due before, less the one harvested, those put to sleep and those faded, with those that came of age and the one harvested if the correction makes it due again |
| Scheduler.RoundBalance | harvester/harvesterserver/src/cindexingmanager.cpp:213-313 | the same as a balance of numbers |
| Scheduler.RoundMakesProgressIff | harvester/harvesterserver/src/cindexingmanager.cpp:213-313 | at the next RunL fewer records are due if and only if those that come of age, with the one harvested if it is due again, do not outnumber those put to sleep and those faded |
| Scheduler.RipeningHidesProgress | harvester/harvesterserver/src/cindexingmanager.cpp:280-282 | a concrete queue in which the number of due records stays the same over a round |
| IndexingManager.LoadOfSaved | harvester/harvesterserver/src/cindexingmanager.cpp:545-620 | loading a saved queue restores every name, both times and the error, with status hibernate and no plug-in |
| IndexingManager.RecordLayout | harvester/harvesterserver/src/cindexingmanager.cpp:600-612 | a record is the length of its name, the name, the times of its start and completion, and its error |
| IndexingManager.LongLayout | harvester/harvesterserver/src/cindexingmanager.cpp:606-608 | a time is the eight bytes of its two's complement, the lowest first |
| IndexingManager.RestoredIsOrderly | harvester/harvesterserver/src/cindexingmanager.cpp:577-578 | after a restart nothing is running and no name is queued twice |
| IndexingManager.OtherVersionLeaves | harvester/harvesterserver/src/cindexingmanager.cpp:556-560 | a file of a version other than 1 is not read |
| IndexingManager.LongNameLeaves | harvester/harvesterserver/src/cindexingmanager.cpp:569-570 | a name longer than its buffer is not read |
| IndexingManager.TriesIff | harvester/harvesterserver/src/cindexingmanager.cpp:284-319 | the queue is saved after a run exactly when the run, or something before it, has changed it |
| IndexingManager.CIndexingManager.RunL | harvester/harvesterserver/src/cindexingmanager.cpp:204-329 | corrects for the clock, starts the next harvester when none runs and the manager is active, and saves exactly when something changed |
| IndexingManager.CIndexingManager.CorrectForClock | harvester/harvesterserver/src/cindexingmanager.cpp:213-231 | shifts all times of all records by the whole minutes of the jump |
| IndexingManager.CIndexingManager.StartNext | harvester/harvesterserver/src/cindexingmanager.cpp:276-313 | the loop over due records |
| IndexingManager.CIndexingManager.AddHarvestingQueue | harvester/harvesterserver/src/cindexingmanager.cpp:401-447 | wakes a hibernating record of that name, resets it when forced, or appends a new one; the change is noted exactly when it has to be saved: a new record, or a forced reset |
| IndexingManager.CIndexingManager.RemoveHarvestingQueue | harvester/harvesterserver/src/cindexingmanager.cpp:453-485 | hibernates a waiting record of that plug-in and name, or removes it and saves |
| IndexingManager.CIndexingManager.HarvestingCompleted | harvester/harvesterserver/src/cindexingmanager.cpp:491-519 | puts the record back to waiting with its error and completion time |
| IndexingManager.CIndexingManager.SaveL | harvester/harvesterserver/src/cindexingmanager.cpp:589-620 | writes the image of the queue |
| IndexingManager.CIndexingManager.LoadL | harvester/harvesterserver/src/cindexingmanager.cpp:545-583 | appends exactly the records of the file and leaves exactly when it cannot be read or the array cannot hold them; the records there are kept |
| Blacklist.WrittenIsListed | harvester/harvesterserver/src/cblacklistmgr.cpp:89-113 | AddL lists the plug-in with that version and changes nothing for any other |
| Blacklist.DeletedIsNotListed | harvester/harvesterserver/src/cblacklistdb.cpp:197-226 | Remove takes the plug-in off the list whatever its version, and changes nothing for any other |
| Blacklist.BootKeepsOneRowEach | harvester/harvesterserver/src/cblacklistmgr.cpp:99-108 | the table never holds two rows of one uid |
| Blacklist.UnattemptedIsUntouched | harvester/harvesterserver/src/cindexingmanager.cpp:680-734 | a boot changes the entry of a plug-in only if it attempts to load it |
| Blacklist.FailureIsNeverRepeated | harvester/harvesterserver/src/cindexingmanager.cpp:359-376 | a plug-in whose load crashed or left in one boot is never attempted in a later one |
| Blacklist.CrashingBootsAreBounded | harvester/harvesterserver/src/cindexingmanager.cpp:359-376 | no more boots crash than there are plug-ins |
| Blacklist.CrashBoundIff | harvester/harvesterserver/src/cindexingmanager.cpp:708-734 | this bound holds, for all histories, if and only if no uid comes with two versions |
| Blacklist.CrashIsRememberedIff | harvester/harvesterserver/src/cblacklistdb.cpp:232-270 | the plug-in that took down a boot is skipped at the next one if and only if the database is open then and was open in the boot that crashed or has it listed from before |
| Blacklist.ClosedForgetsEverything | harvester/harvesterserver/src/cblacklistdb.cpp:154-162 | while the database never opens, a crashing plug-in takes down every boot that comes to it |
| PluginLoader.CBlacklistMgr.AddL | harvester/harvesterserver/src/cblacklistmgr.cpp:89-113 | updates the row found or inserts one |
| PluginLoader.CBlacklistMgr.AddtoDontloadListL | harvester/harvesterserver/src/cblacklistmgr.cpp:159-177 | adds a uid that is not there yet, so that none is there twice |
| PluginLoader.CBlacklistDb.AddL | harvester/harvesterserver/src/cblacklistdb.cpp:154-191 | inserts a row when the database is open |
| PluginLoader.CBlacklistDb.UpdateL | harvester/harvesterserver/src/cblacklistdb.cpp:276-323 | updates the first row of that uid |
| PluginLoader.CBlacklistDb.FindWithVersionL | harvester/harvesterserver/src/cblacklistdb.cpp:232-270 | compares the version of the first row of that uid; a closed database finds nothing |
| PluginLoader.Loader.GetPluginLoadStatusL | harvester/harvesterserver/src/cindexingmanager.cpp:680-702 | a plug-in is loaded unless it is listed with its version or in the dontload list |
| PluginLoader.Loader.LoadHarvesterpluginL | harvester/harvesterserver/src/cindexingmanager.cpp:708-734 | the plug-in is listed before it is loaded and taken off only when it has loaded |
| PluginLoader.Loader.LoadPluginsL | harvester/harvesterserver/src/cindexingmanager.cpp:335-379 | one boot: the file plug-in goes last and every plug-in that is not skipped is attempted in order |
| PluginLoader.FilesLastOrder | harvester/harvesterserver/src/cindexingmanager.cpp:347-360 | the first plug-in with the uid of the file harvester goes last, all others keep their order; without one nothing moves |
| PluginLoader.FilesLastPermutes | harvester/harvesterserver/src/cindexingmanager.cpp:347-358 | moving the file plug-in to the end neither adds nor loses one |

## Left out

- HitsCache.LuceneHits.HitsDoc: says nothing of the state after a call that is undefined; the index version is taken as unchanged throughout.
- What a LuceneHits whose constructor throws leaves behind: the wrappers and the handle reference it had taken.
- The request semaphore of the active scheduler: a DoCancel that races with the callback can complete the same request status twice; only the status values are modelled.
- Job constructors that throw after taking a handle reference, and callbacks that throw: both are taken to succeed.
- The shared copies of documents, analyzers and queries that jobs hold; they are handled like the handle reference.
- Failing enqueues in GetDocumentL and DeleteDocumentsL, and CHouseKeepingHandler: the bridge submits as SearchL and AddL do.
- Stopping the engine while the bridge is in use: the engine has the step, the bridge does not take it.
- Deletion of client objects while a request is pending.
- The 32-bit widths of job ids, counters and sums of sizes, and of positions in the hit list.
- A CDocumentField that is changed through the reference AddFieldL returns: fields are values.
- HitDocumentList, the second implementation of the hits interface.
- The lexical level of analyzer definitions: tokens are given, with the text of literals already decoded; ParseInvokation, which pipings do not use.
- The analyzers themselves, CLucene, Snowball and the Thai analysis: a field carries the tokens they would yield.
- A plug-in that calls back synchronously from StartHarvestingL; the clock readings within one RunL after the first are taken as equal.
- Overflow of a TTime by the clock correction, and the timer with its cancellations.
- Errors of the blacklist database other than not being open; the content-info database, the activity and state observers and the guard timer.
- cpix_Error_report and the names of error types.
- Thread creation, priorities, logging, descriptors, IPC copying, the cleanup stack and security policies.
