# Verified model of the waystation

Dafny models of the parts of the repository where a mistake loses bytes, money or a delivery
decision, with proofs over every input or every run. `dafny verify dfyconfig.toml` checks the whole
project.

| file | what it models |
|---|---|
| `Ranges.dfy` | the byte-range plan of a parallel download |
| `Download.dfy`, `DownloadTabs.dfy` | the resumable download: range workers, swap file, close-then-record, crash, resume, as one page sees it; then any number of pages over one disk and one record |
| `DownloadRuns.dfy`, `DownloadWitnesses.dfy` | what whole downloads end with: the runs that end right, the runs that end wrong, and exactly when |
| `DownloadPage.dfy` | the writable, one run of `saveToDisk` and the page as mutable objects |
| `Upload.dfy`, `UploadRuns.dfy`, `UploadPage.dfy` | the resumable multipart upload: concurrent calls, upload ids and workers, the one unsynchronised resume record, ListParts, assembly; what whole uploads end with; then the browser's object |
| `StorageSource.dfy` | single-flight renewal of storage URLs |
| `GatewayTables.dfy`, `Gateway.dfy` | the control plane's tables, and its handlers as events split at their awaits |
| `GatewayLinks.dfy` | what links are worth, by their rows: refusal, terms, budgets, grants, and each handler's effect |
| `GatewayBudget.dfy`, `GatewayGrants.dfy`, `GatewayFolders.dfy`, `GatewayHandlers.dfy` | paid budgets; download grants and metering; folder lifecycle and link liveness; runs of whole handlers |
| `ControlPlane.dfy` | the control plane as a class whose methods update its tables in place |
| `Manifest.dfy`, `PathRules.dfy`, `FolderTree.dfy` | the folder manifest check; its rules unit by unit; saving a folder on a case-insensitive disk |
| `Authority.dfy`, `AuthorityRules.dfy` | the dual-key delivery authority; its decisions in terms of what was observed |
| `Coverage.dfy`, `CoverageRules.dfy` | the risk-coverage validator; what its statuses mean |
| `WordErrorRate.dfy`, `LagSearch.dfy`, `TimeDedupe.dfy` | word error rate, lag search, time de-duplication |
| `Pricing.dfy`, `RateLimit.dfy` | prices and the fixed-window limiter |
| `Basics.dfy`, `Sums.dfy` | shared datatypes, small arithmetic, sums over maps |

Protocols are state machines. `Enabled` says when an event may happen, `Next` what it does, and the
theorems quantify over every list of events. The classes perform the same events in place. A method
that stands for an event equates its object's snapshot with `Next` of the old one, so the theorems
over runs hold of the objects; the methods of `StorageSource.Closure` and those of `ControlPlane` that
stand for a query equate the fields they write with the functions `Next` is made of.

Storage is an abstract map from parts or transfers to bytes or sizes. Its answers, the clock, fresh
ids, user clicks, payment confirmations and the success or failure of every call are events or
parameters, chosen adversarially. The save picker creates the file or empties the one chosen, as the
File System Access API specifies. Verification of a range is assumed to accept exactly the right
bytes, as is a plain HTTP answer that is ok. Storage assembles a multipart upload once, for its id
disappears with it. Numbers are unbounded integers or reals, not floats.

## What the proofs found

* Uploads of a file complete only with exactly the file, over every run, if and only if no upload is
  initiated while a record of the file stands, and none while another call for it has an upload, or the
  file is a single part (`UploadRuns.UploadsStoreTheFileIff`). The record is keyed by the file and not
  by the upload (`client/src/uploader.ts:51-53`), `markPart` marks whatever record stands
  (`client/src/resumeStore.ts:19-24`), and reconciliation only adds: when two calls that both found no
  record initiate, a part one upload holds is marked in the record of the other, and a later call
  completes that one without it (`UploadRuns.RacingEndsWrong`). One event breaks the accounts exactly
  when it writes a part into the record of an upload storage does not hold it for
  (`Upload.EventKeepsGoodIffOwned`).
* Downloads end with exactly the object, over every run of any number of pages, if and only if the
  object is below 32 MiB, or all of these hold (`DownloadWitnesses.DownloadsEndExactIff`):
  no later session loses the verification data an earlier one had, or the object is above 4 GiB and no
  session ever has it; no restart over a recorded file loses both updates of the record; no page starts
  on a file another is downloading to; none starts over on one another has a record of in hand. Each of
  the four alone ends wrong, by a run given for every size: verified ranges are 8 MiB, unverified ones
  16 MiB or more, and only start offsets are recorded (`LosingVerificationEndsWrong`); a restart empties
  the file, and its failures to clear and reset the record are ignored
  (`LosingTheRecordUpdateEndsWrong`); the later of two closes replaces what the earlier committed
  (`SharedFileEndsWrong`); and a page resumes from the copy of the record it read when it loaded
  (`StaleCopyEndsWrong`). `client/src/downloadResume.ts:3-6` says the same object always yields the same
  ranges; the code at `client/src/delivery.ts:151` does not.
* A restart on a file no other page is downloading to keeps the promise of the record and of its
  copies, whatever follows, exactly when a record naming ranges of the file was cleared or replaced and
  no other page has one in hand (`DownloadTabs.RestartIsSafeIffSound`).
* Budgets and grants hold for handlers split at their awaits; folders do not. An upload handler keeps
  the folder invariants exactly when what it checked still holds when it resumes
  (`GatewayFolders.EventKeepsFoldersIffGuarded`), and wherever a path may be uploaded, two interleaved
  requests for it both complete (`GatewayHandlers.RacingUploadsCompleteTwice`). Whole handlers keep them.
* The authority is monotone in concerns exactly when every policy rule may hold or enforce
  (`Authority.MonotoneIffEveryRuleHolds`), as every rule of the shipped policy may.
* Assessed plus unresolved risks equal the applicable ones exactly when the statuses a model supplies
  are normalised (`Coverage.CountsAccountIffNormal`); the validator itself does not normalise them.
* By card a receipt's parts always sum to the charge, and batching saves at least 29 cents. Without the
  flat fee a small file's parts can exceed its charge (`Pricing.CoinbaseReceiptCanFail`); the exact
  condition is `Pricing.CoinbaseReceiptAddsUpIff`.
* The limiter admits one call in every window even at limit zero (`RateLimit.ZeroLimitAdmitsOne`).

## Model

| member | source | states |
|---|---|---|
| Ranges.PlanRanges | client/src/ranges.ts:17-32 | the loop computes the plan with the size rounded up to 1024 and capped, in one pass |
| Ranges.PushRanges | client/src/ranges.ts:28-31 | the loop pushes the ranges of the plan for a size |
| Ranges.PlanTiles | client/src/ranges.ts:29-31 | every byte of the file lies in exactly one range, ends inclusive |
| Ranges.PlanIsContiguous | client/src/ranges.ts:29-31 | the first range starts at 0, each next one after the last end, the last ends at total - 1 |
| Ranges.PlanIsAligned | client/src/ranges.ts:19-27 | starts and the size are multiples of 1024, all ranges but the last are one size, at most 400 when uncapped |
| Ranges.UncappedSizeIsLeast | client/src/ranges.ts:18-27 | uncapped, the size is the least whole number of kibibytes that is at least 16 MiB and needs at most 400 ranges |
| Ranges.CappedSizeIsTheCap | client/src/ranges.ts:20 | a cap in whole kibibytes, no more than 16 MiB, is the size |
| Ranges.FinerRangeIsContained | client/src/ranges.ts:17-32 | a range of an equal or finer plan lies inside the coarser plan's range with the same start |
| Download.StepKeepsShape | client/src/delivery.ts:140-212 | every step of workers, queued writes, failures and fallback keeps: committed ranges are in the swap file, and only object bytes were written |
| Download.PoolDoneIsComplete | client/src/uploader.ts:195-200 | when the shared iterator is empty and no worker stopped, every wanted range is in the swap file |
| Download.FinishedIffRecoverable | client/src/delivery.ts:151-212 | a session that ends without error leaves exactly the object if and only if the file it kept was right outside the ranges it fetched, and no longer |
| Download.TruthfulIsRecoverable | client/src/delivery.ts:180 | skipping truthfully recorded ranges is sound when the range size has not grown |
| Download.SkippingIsRecoverableIffSizeDoesNotGrow | client/src/delivery.ts:180-181 | the ranges a pool is left with repair every kept file of a truthful record, for all objects of a size, exactly when the range size does not grow or one range was the whole file |
| Download.FailedWorkerStops | client/src/uploader.ts:195-200 | a failed worker stops for good and the pool can no longer end well |
| Download.FallingBackSaves | client/src/delivery.ts:161-166 | whatever a pool did, falling back can always save exactly the object |
| Download.StreamEnds | client/src/delivery.ts:161-166 | the stream that wrote it all ends with the object |
| Download.SessionsGoOn | client/src/delivery.ts:173-211 | a session can always be paused until it returns, a pool can fall back, a worker fail or take what is left |
| Download.OnlyLargeObjectsPool | client/src/delivery.ts:173 | below 32 MiB nothing is fetched in ranges |
| Download.CommittedIsTruthful | client/src/delivery.ts:794-809 | what close commits makes the record saved after it true |
| Download.CloseKeepsGood | client/src/delivery.ts:763-799 | close, succeeding or failing, keeps every record true of the file on disk |
| Download.SaveIsExact | client/src/delivery.ts:758-764 | a download that closes after success has put exactly the object on disk |
| Download.ResumeKeepsGood | client/src/delivery.ts:714-762 | a resume whose ranges are no larger than the recorded ones keeps the invariant |
| Download.EventKeepsGood | client/src/delivery.ts:681-839 | every step, load, close, record update and crash keeps the invariant; so does a resume without larger ranges, and a restart that does not leave a nonempty record of the picked file standing |
| DownloadTabs.MoveKeepsGood | client/src/delivery.ts:661-839 | with any number of pages, an event of one keeps the invariant of all, if it starts on no file another is downloading to and starts over none another has a record of in hand |
| Download.FreshPageIsGood | client/src/delivery.ts:661-674 | a page without a record starts safe, whatever the disk holds |
| DownloadTabs.RunsAreSafe | client/src/delivery.ts:661-839 | over every run of such events the record and every page's idle copy name only bytes the file on disk holds, and a finished download is exactly the object |
| Download.DownloadRecords | client/src/delivery.ts:763-825 | once its last update of the record took effect, a download that saved or was discarded leaves none, and a salvaged one exactly the file, its size, and the starts it skipped or drained |
| Download.DiscardedLeavesNothing | client/src/delivery.ts:776-783 | a spent limit leaves the disk as it was, nothing on record and nothing in hand |
| DownloadTabs.SavedIsNotOfferedAgain | client/src/delivery.ts:661-674 | after a saved download cleared its record, a page that loads has nothing to resume, whatever pages do short of recording something |
| DownloadTabs.RestartIsSafeIffSound | client/src/delivery.ts:698-706 | where no other page is downloading to the picked file, every sound run after starting over keeps the promise, if and only if a record naming its ranges was cleared or replaced and no other page has one in hand |
| Download.OnlyLosingVerificationGrows | client/src/delivery.ts:747-762 | between two sessions the range size grows only when verification data is lost that the object is small enough to have |
| Download.VerifiableUpToFourGiB | client/src/delivery.ts:80-97 | the sidecar is small enough to be loaded exactly for objects up to 4 GiB |
| Download.SidecarGrowsByChunk | client/src/delivery.ts:80-86 | the sidecar is eight bytes and 64 for each chunk after the first |
| Download.VerifiedRangesAreEightMiB | client/src/delivery.ts:74-78 | with verification data ranges are 8 MiB up to 4 GiB, and else uncapped |
| DownloadWitnesses.PoolRun | client/src/delivery.ts:180-203 | from between two ranges a pool can drain all that is left and succeed |
| DownloadWitnesses.PauseAfterFirstRange | client/src/delivery.ts:784-809 | a download can commit its first range, pause, close and record it |
| DownloadRuns.NonGrowingEndsExact | client/src/delivery.ts:681-839 | every run of sessions, phase after phase, ends with exactly the object when no phase loses verification data an earlier one had, or none has it |
| DownloadRuns.SmallEndsExact | client/src/delivery.ts:173 | below 32 MiB every run ends with exactly the object, whatever is lost and however many pages interfere |
| DownloadWitnesses.LosingVerificationEndsWrong | client/src/delivery.ts:74-97 | from 32 MiB to 4 GiB some verified download resumed without verification data saves a wrong file |
| DownloadWitnesses.LosingTheRecordUpdateEndsWrong | client/src/delivery.ts:698-706 | from 32 MiB on some restart whose record updates both fail leads to a wrong file, in any phase |
| DownloadWitnesses.StaleCopyEndsWrong | client/src/delivery.ts:661-692 | from 32 MiB on a page that resumes from the copy it loaded can save a wrong file after another page started over |
| DownloadWitnesses.SharedFileEndsWrong | client/src/delivery.ts:756-809 | from 32 MiB on two pages downloading to one file can make the earlier one resume to a wrong file |
| DownloadWitnesses.DownloadsEndExactIff | client/src/delivery.ts:131-212 | for every list of phases all runs end exact if and only if the object is small, or no restart loses both record updates, no page starts on a file another downloads to or starts over on one another has a record of, and no phase loses verification data the object can have |
| DownloadPage.Writable.Write | client/src/delivery.ts:145-149 | a positioned write puts its bytes there, pads a gap with zeros and changes no other byte |
| DownloadPage.Writable.Drain | client/src/delivery.ts:108-123 | draining a body at an advancing position is one write of the whole body |
| DownloadPage.WritesJoin | client/src/delivery.ts:108-123 | two writes end to end equal one write of both |
| DownloadPage.Saving.constructor | client/src/delivery.ts:151-180 | a new session plans its ranges and keeps exactly those whose start is not recorded |
| DownloadPage.Saving.TakeRange | client/src/delivery.ts:181-182 | a worker draws the next range from the shared iterator |
| DownloadPage.Saving.QueueWrite | client/src/delivery.ts:187-195 | a chunk that arrived is queued for writing at its position |
| DownloadPage.Saving.WriteQueued | client/src/delivery.ts:145-149 | a queued write puts the object's bytes at its position |
| DownloadPage.Saving.ApplyWrite | client/src/delivery.ts:145-149 | a queued write reaches the swap file and its lane advances |
| DownloadPage.Saving.Stop | client/src/delivery.ts:183-190 | a failed request, verification or write ends its worker |
| DownloadPage.Saving.PushCompleted | client/src/delivery.ts:202 | a drained range joins the completed list in memory |
| DownloadPage.Saving.StartSingle | client/src/delivery.ts:161-178 | the fallback rewrites the file from byte zero |
| DownloadPage.Saving.Return | client/src/delivery.ts:204-212 | the call resolves or throws |
| DownloadPage.Page.PickFile | client/src/delivery.ts:693-706 | the picked file is empty, and each update of the record that took effect is made |
| DownloadPage.Page.Download | client/src/delivery.ts:693-707 | the picker branch clears and resets the record and opens an empty file, keeping the page safe when sound |
| DownloadPage.Page.LoadRecord | client/src/delivery.ts:661-674 | the page takes the record in hand if it is of this size |
| DownloadPage.Page.ResumeDownload | client/src/delivery.ts:690-692 | the resume branch keeps the file and skips the ranges of the copy in hand |
| DownloadPage.Page.CloseWritable | client/src/delivery.ts:763-798 | only a successful close moves the swap file onto the disk |
| DownloadPage.Page.SaveOrClear | client/src/delivery.ts:799-825 | then the record names what close made durable, or is cleared |
| DownloadPage.Page.SettleRecord | client/src/delivery.ts:799-835 | and the page has in hand the record it reads back, nothing after a discard, its old copy after success |
| DownloadPage.Page.AbortWritable | client/src/delivery.ts:776-783 | a spent download limit discards the session |
| DownloadPage.Page.GoAway | client/src/downloadResume.ts:14-16 | a crash loses the swap file and the page's copy, and nothing else |
| Upload.PlanCoversFile | gateway/src/s3.ts:26-30 | at most 9000 parts cover the file and the last is needed |
| Upload.PartSizeIsLeast | gateway/src/s3.ts:26-30 | parts are the least whole number of mebibytes that is at least 16 and needs at most 9000 of them |
| Upload.ListParts | gateway/src/s3.ts:55-67 | paging with markers returns the whole listing, whatever the page size |
| Upload.CompleteIsTheFile | gateway/src/s3.ts:72-82 | the sorted listing of all planned parts assembles to exactly the file |
| Upload.AssembledFrom | gateway/src/s3.ts:72-82 | with exactly the parts after one of them, assembly is the rest of the file |
| Upload.FinishedAttemptHasAll | client/src/uploader.ts:123-141 | when a pool of an upload in the invariant ends with no stopped worker, storage holds every planned part of that upload |
| Upload.EventKeepsPlanned | client/src/uploader.ts:64-143 | whatever races, storage holds under every upload only parts of the plan with their bytes |
| Upload.EventKeepsGoodIffOwned | client/src/resumeStore.ts:19-24 | an event keeps each done set within its own upload's parts, and completion exact, if and only if it writes no part into the record of an upload that lacks it |
| Upload.OwnedRunsStoreTheFile | client/src/uploader.ts:64-189 | over every interleaving of calls, uploads, workers, crashes and lost updates without such a write, done sets stay within their upload's parts and completion stores exactly the file |
| Upload.FinishCompletes | client/src/uploader.ts:175-180 | a drained call assembles its upload once, and the record is still to be cleared |
| Upload.CallIsOver | client/src/uploader.ts:181 | a call that is cleared or gone keeps nothing, and storage and other calls stay as they are |
| Upload.UntouchedIsGood | client/src/uploader.ts:64-66 | a file without record or upload satisfies the invariant |
| Upload.FoundIsTheRecords | client/src/uploader.ts:65 | a call that finds a record takes its upload and what it calls done |
| Upload.CompletedIsForgotten | client/src/uploader.ts:175-181 | once a completed call cleared the record, the next one finds none, until one is saved or marked |
| UploadRuns.AloneKeepsOneUpload | client/src/uploader.ts:65-78 | when uploads are initiated only while no record stands and no other call has one, all calls, the record and what workers read of it are of one upload |
| UploadRuns.AloneRunsStoreTheFile | client/src/uploader.ts:64-189 | every such run keeps the accounts and completes only with the file |
| UploadRuns.OnePartRunsStoreTheFile | client/src/uploader.ts:123-141 | whatever races, a file of one part is completed only with its bytes |
| UploadRuns.MarksAnother | client/src/resumeStore.ts:19-24 | in either race a worker of one upload marks its part in the record of another, which lacks it |
| UploadRuns.RacingEndsWrong | client/src/uploader.ts:104-123 | then a call that attaches by that record completes its upload without the part, in either race and for every file of two parts or more |
| UploadRuns.UploadsStoreTheFileIff | client/src/uploader.ts:64-189 | all runs complete a file only with its bytes if and only if no upload is initiated while a record stands, none while another call has one, or the file is one part |
| UploadRuns.AccountIsKeptIff | client/src/resumeStore.ts:1-2 | all runs keep every done set within its own upload's parts if and only if neither race may happen |
| UploadPage.Browser.constructor | client/src/uploader.ts:64-66 | a file nobody has uploaded satisfies the invariant |
| UploadPage.Browser.GetResume | client/src/uploader.ts:64-66 | a call starts with the record's upload and done map, or without any |
| UploadPage.Browser.PostUpload | client/src/uploader.ts:66-76 | a call that found no record initiates an upload, whatever the record is by then |
| UploadPage.Browser.SaveResume | client/src/resumeStore.ts:16-18 | the call's upload and done map replace the record |
| UploadPage.Browser.ReconcileWith | client/src/uploader.ts:103-106 | the done map becomes what it was plus exactly what storage holds of the upload |
| UploadPage.Browser.StartPool | client/src/uploader.ts:122-126 | the pool gets the plan's parts that are not done |
| UploadPage.Browser.MissingParts | client/src/uploader.ts:123 | the missing parts are the plan's numbers not done, in order |
| UploadPage.Browser.TakePart | client/src/uploader.ts:195-200 | a worker draws the next missing part |
| UploadPage.Browser.PutPart | client/src/uploader.ts:127-130 | the part's slice of the file reaches storage under the call's upload |
| UploadPage.Browser.AcknowledgePart | client/src/uploader.ts:131-133 | an ok answer marks the part done in memory |
| UploadPage.Browser.ReadStored | client/src/resumeStore.ts:19-21 | markPart reads the record as it is then, of whatever upload |
| UploadPage.Browser.WriteStored | client/src/resumeStore.ts:22-23 | markPart writes back what it read plus its part, over what others wrote since; that keeps the invariant exactly when storage holds the part of that record's upload |
| UploadPage.Browser.Reject | client/src/uploader.ts:131 | a failed part ends its worker |
| UploadPage.Browser.Complete | client/src/uploader.ts:175-180 | completion in the invariant stores exactly the file |
| UploadPage.Browser.ClearResume | client/src/uploader.ts:181 | then the record goes, whichever upload it is of |
| UploadPage.Browser.Unload | client/src/resumeStore.ts:1-2 | a page that goes away ends its call and leaves record and storage |
| StorageSource.Closure.Refresh | client/src/storageSource.ts:114-126 | a refresh joins the one in flight, or asks once |
| StorageSource.Closure.Resolve | client/src/storageSource.ts:118-123 | success replaces the url, keeps or replaces the continuation, and dates the expiry from when it asked |
| StorageSource.Closure.Reject | client/src/storageSource.ts:118-125 | a failed resolve changes no url and fails its waiters |
| StorageSource.Closure.Finally | client/src/storageSource.ts:118-125 | once settled the flight is forgotten, so the next refresh asks again |
| StorageSource.Closure.Current | client/src/storageSource.ts:139-142 | the current url is refreshed first when its expiry is near |
| StorageSource.Closure.Renew | client/src/storageSource.ts:143-146 | only the url still stored is renewed |
| StorageSource.EventKeepsGood | client/src/storageSource.ts:103-161 | every event of any number of callers keeps the invariant |
| StorageSource.RenewalIsSafe | client/src/storageSource.ts:103-161 | at most one resolve is outstanding, each url is superseded at most once, a continuation is never lost, a fetch makes at most two requests |
| StorageSource.OpenedIsGood | client/src/storageSource.ts:103-148 | in every run from the closure's creation, through the first refresh it awaits, the invariant holds, callers come only once it is returned, and after a first success the mediated url is never current again |
| StorageSource.AnswerIsStored | client/src/storageSource.ts:118-123 | the answer's URL is current, with its continuation if it brings one, and is nearly spent from five minutes before its life in seconds ends, counted from when it was asked |
| StorageSource.OnlyAnswersChangeTheUrl | client/src/storageSource.ts:103-126 | nothing but a resolve that succeeds changes the URL, its expiry or the continuation |
| StorageSource.CallUsesOrRenews | client/src/storageSource.ts:139-142 | a call takes the current URL at once exactly when it is not nearly spent, and else awaits the one refresh |
| StorageSource.RefusedCallRenewsItsUrl | client/src/storageSource.ts:143-146 | a refused call renews the URL it was refused while that is current, and else retries with the current one |
| StorageSource.CallEnds | client/src/storageSource.ts:153-161 | how a call goes on or ends after each refresh and answer |
| StorageSource.OpeningEnds | client/src/storageSource.ts:128-136 | the source is returned unless its first refresh failed for good |
| StorageSource.CallsComeAndGo | client/src/storageSource.ts:153-161 | a call enters, and the answer to its second request ends it |
| StorageSource.ForgottenAsksAgain | client/src/storageSource.ts:124 | a settled refresh is forgotten, and the next one asks again |
| StorageSource.FailureIsSettled | client/src/storageSource.ts:114-126 | a failed resolve settles the refresh for all who await it |
| GatewayTables.InsertedIsUnique | gateway/src/db.ts:530-542 | a new folder's rows are determined: the declared paths with their sizes, unclaimed, and nothing else changed |
| Gateway.EventKeepsTyped | gateway/src/db.ts:257-288 | every event keeps the references between transfers, uploads, declared files and suspended handlers |
| Gateway.TypedIsTwoLevels | gateway/src/db.ts:349-367 | parents have no parents, so the recursions over rows end |
| GatewayLinks.RevokedIffRefused | gateway/src/db.ts:348-361 | a known link is refused exactly when its row or its folder's is revoked, past a nonzero expiry, or a folder not whole, or its folder is missing |
| GatewayLinks.OriginalProceedsIff | gateway/src/routes.ts:1008-1019 | a download request goes on to storage exactly when it is unlocked and the link not refused |
| GatewayLinks.LiveLinkProceeds | gateway/src/routes.ts:1008-1024 | an unlocked request on a live link always proceeds |
| GatewayLinks.RevokingRevokes | gateway/src/db.ts:301-324 | revoking a whole link revokes its row |
| GatewayLinks.RevokedIsRefusedThroughout | gateway/src/db.ts:348-361 | over every run after it, requests for the link and for the files in it are refused until an event unrevokes it |
| GatewayLinks.ExpiryComes | gateway/src/db.ts:353 | a link with a nonzero expiry is refused from the first millisecond after it |
| GatewayLinks.AbandonedIsGone | gateway/src/routes.ts:692-703 | a handler that fails at its await leaves what it did before |
| GatewayLinks.CompletedCarriesTerms | gateway/src/routes.ts:799-809 | a completed upload's link lives its order's weeks and a day and allows its downloads and one, or has the default days and no bound |
| GatewayLinks.SealingGivesTerms | gateway/src/routes.ts:601-622 | a folder is sealed exactly when it is open and each path has a completed upload with a link; it gets the terms, its members the expiry, and no other row changes |
| GatewayLinks.RecipientStateIsSet | gateway/src/db.ts:301-324 | a link gets the expiry and revocation asked, a folder's members get the folder's, and no other row changes |
| GatewayLinks.FolderIsCreatedIffPaid | gateway/src/routes.ts:576-599 | a folder is created with its paths, and the sum of its sizes drawn, exactly when its order is paid and they fit to the last byte |
| GatewayLinks.MemberUploadBeginsIff | gateway/src/routes.ts:636-668 | a member's upload begins exactly for a declared path of that size, not done, of an open folder, and draws nothing |
| GatewayLinks.UploadBeginsIffPaid | gateway/src/routes.ts:624-690 | another upload begins exactly when its order is paid and the bytes fit, and draws them |
| GatewayLinks.UploadIsBound | gateway/src/routes.ts:692-703 | the initiated upload has its row, and its path is bound to it |
| GatewayLinks.CompletionBeginsIff | gateway/src/routes.ts:811-829 | a completion goes to storage exactly when the upload is known, not complete and still the one its path is bound to |
| GatewayLinks.AssemblyIsStored | gateway/src/s3.ts:72-82 | what storage assembled is what the link serves |
| GatewayLinks.OrdersLive | gateway/src/routes.ts:360-367 | orders start unpaid and unused, payment and closing change only the status, and a paid order is never closed |
| GatewayLinks.AllowanceIsTheLinks | gateway/src/routes.ts:1040-1043 | the allowance is the link's own, or its folder's |
| GatewayLinks.GrantLivesSevenDays | gateway/src/routes.ts:1044-1056 | a grant is honoured for the file it was claimed for, from then until seven days later, and for no other |
| GatewayLinks.ForeignGrantIsNoGrant | gateway/src/routes.ts:1044-1048 | a grant not presented, unknown, or of another file is not honoured |
| GatewayLinks.OriginalIsServed | gateway/src/routes.ts:1024-1084 | a served request continues, is refused, or claims a grant of seven days; downloads with bytes are metered once, under the grant or by the hour |
| GatewayBudget.EventIsBudgeted | gateway/src/db.ts:784-788 | every event, with handlers split at awaits, keeps charges plus reservations of each order within what it consumed, and that within what it paid |
| GatewayBudget.EventKeepsLedger | gateway/src/routes.ts:588-598 | each folder is charged the total of its declared sizes and each standalone upload its declared size |
| GatewayBudget.RunsStayWithinBudget | gateway/src/routes.ts:588-681 | budgets hold over every run |
| GatewayBudget.PaidBudgetIsConserved | gateway/src/routes.ts:636-681 | in every reachable state any folders and standalone uploads of an order fit what it consumed, which fits what it paid |
| GatewayBudget.PaidIsAbsorbing | gateway/src/db.ts:773-788 | paid stays paid, the priced bytes never change and consumption never shrinks |
| GatewayBudget.OrdersOnlyGrow | gateway/src/db.ts:773-788 | no event unpays an order or lowers its consumption, and only a paid order consumes |
| GatewayGrants.EventKeepsGrants | gateway/src/db.ts:881-893 | every event keeps each file's grants within its allowance and each grant metered once |
| GatewayGrants.AllowanceIsFixed | gateway/src/db.ts:571-573 | no event changes an allowance once it is fixed |
| GatewayGrants.RunsKeepGrants | gateway/src/routes.ts:1008-1084 | both hold over every interleaving of requests split at their storage listing |
| GatewayGrants.GrantsNeverExceedAllowance | gateway/src/routes.ts:1043-1056 | a file (for a member, by its folder's allowance) never has more grants than allowed, none before one is fixed, and as many grant-keyed meter rows as grants of a non-empty original |
| GatewayGrants.RequestClaimsExactlyWhenOwed | gateway/src/routes.ts:1043-1084 | a request takes a credit exactly when it holds no live grant and one is left, and then holds a live one |
| GatewayFolders.EventKeepsFoldersIffGuarded | gateway/src/routes.ts:632-701 | an event keeps the folder invariants if and only if what its handler checked still holds when it resumes |
| GatewayFolders.OneCompletedUploadPerPath | gateway/src/routes.ts:819-832 | a declared path has at most one completed upload |
| GatewayFolders.SealedFolderIsWhole | gateway/src/routes.ts:608-616 | each path of a sealed folder is bound to a completed, stored member of the declared size |
| GatewayFolders.CompletedFitReservation | gateway/src/routes.ts:588-598 | a folder's completed sizes never exceed what it reserved, and equal it once sealed |
| GatewayFolders.SealedStaysSealed | gateway/src/db.ts:568-574 | ready is never left |
| GatewayFolders.SealingHappensOnce | gateway/src/routes.ts:607 | completing a ready folder again changes nothing |
| GatewayFolders.CompletedPathIsFinal | gateway/src/routes.ts:639-642 | a completed path is never claimed again |
| GatewayFolders.MembersAreChildren | gateway/src/db.ts:562-565 | the members a folder lists are exactly the rows whose parent it is |
| GatewayFolders.SealKeepsFolders | gateway/src/db.ts:568-579 | sealing gives every member the folder's expiry |
| GatewayFolders.FolderStateReachesMembers | gateway/src/db.ts:301-324 | revoking, restoring or re-dating a folder gives every member's row the folder's state |
| GatewayFolders.SetRecipientKeepsFolders | gateway/src/db.ts:301-324 | a change of recipient state keeps the folder invariants |
| GatewayFolders.MemberLivesWithFolder | gateway/src/db.ts:349-362 | a member is alive exactly when its folder is, and neither is before sealing |
| GatewayHandlers.HandlerKeepsSound | gateway/src/routes.ts:624-703 | a handler run without interruption keeps all folder properties |
| GatewayHandlers.FolderLifecycle | gateway/src/routes.ts:601-866 | in every state whole handlers reach: one completed upload per path, sealed folders whole, sizes within the reservation, members alive with their folder |
| GatewayHandlers.HandlersKeepFinality | gateway/src/routes.ts:601-866 | over every run of whole handlers a sealed folder stays sealed and a completed path stays bound to its upload |
| GatewayHandlers.RacingUploadsCompleteTwice | gateway/src/routes.ts:692-701 | from any state in which a path may be uploaded, two interleaved requests for it both complete, and the path names the later |
| ControlPlane.ControlPlane.SetRecipientRow | gateway/src/db.ts:301-324 | the recursive update gives the row its new state and every listed member the folder's |
| ControlPlane.ControlPlane.MarkFolderReady | gateway/src/db.ts:568-579 | uploading becomes ready once, with the members' expiry set in a loop |
| ControlPlane.ControlPlane.ConsumeOrderBudget | gateway/src/db.ts:850-853 | the draw succeeds exactly when the order is paid and the bytes fit, and then adds them |
| ControlPlane.ControlPlane.InsertFolder | gateway/src/db.ts:531-542 | the folder row and every manifest row are inserted |
| ControlPlane.ControlPlane.ClaimDownloadGrant | gateway/src/db.ts:885-893 | a grant is inserted exactly when fewer than the allowance exist |
| ControlPlane.ControlPlane.RecordMeter | gateway/src/db.ts:677-707 | a key is written once |
| ControlPlane.ControlPlane.MarkOrderPaid | gateway/src/routes.ts:360-367 | a confirmed order becomes paid, idempotently |
| ControlPlane.ControlPlane.PostFolder | gateway/src/routes.ts:576-599 | POST /folders reserves the whole manifest and inserts it, or changes nothing |
| ControlPlane.ControlPlane.PostFolderComplete | gateway/src/routes.ts:601-622 | POST /folders/:id/complete seals a full folder and otherwise changes nothing |
| ControlPlane.ControlPlane.Missing | gateway/src/routes.ts:608-609 | no path is missing exactly when every declared path is done |
| ControlPlane.ControlPlane.BeginPostUpload | gateway/src/routes.ts:624-683 | POST /uploads up to its await: the member checks, or the draw on the budget |
| ControlPlane.ControlPlane.EndPostUpload | gateway/src/routes.ts:692-703 | POST /uploads after its await: the upload row and the claim |
| ControlPlane.ControlPlane.BeginPostComplete | gateway/src/routes.ts:811-829 | /uploads/complete up to its await: superseded and repeated calls stop |
| ControlPlane.ControlPlane.EndPostComplete | gateway/src/routes.ts:831-869 | /uploads/complete after its await: state, transfer row with the order's terms, meter |
| ControlPlane.ControlPlane.SetRecipientState | gateway/src/db.ts:301-324 | recipient state of a whole link |
| ControlPlane.ControlPlane.BeginGetOriginal | gateway/src/routes.ts:1008-1019 | a dead or locked link is refused before storage is asked |
| ControlPlane.ControlPlane.EnforceAllowance | gateway/src/routes.ts:1043-1061 | a finite allowance refuses, continues or claims, and keys the meter row |
| ControlPlane.ControlPlane.ServeOriginal | gateway/src/routes.ts:1024-1084 | what is granted and metered once the listing is in |
| ControlPlane.ControlPlane.EndGetOriginal | gateway/src/routes.ts:1024-1109 | the download route after its await |
| Manifest.Split | gateway/src/folders.ts:54 | splitting at slashes gives slash-free segments that join back to the path |
| Manifest.SplitOfJoin | gateway/src/folders.ts:105 | joining slash-free segments and splitting gives them back |
| Manifest.JoinIsInjective | gateway/src/folders.ts:101-105 | joined names are equal exactly when the segment lists are |
| Manifest.ClientAgreesWithGateway | client/src/folders.ts:21-32 | the sender's page and the gateway accept the same paths |
| Manifest.UsedByName | gateway/src/folders.ts:102 | the sets of names find exactly the paths taken by an earlier file or directory |
| Manifest.AcceptableIffNotRefused | gateway/src/folders.ts:80-115 | a manifest is bounded, valid, pairwise distinct ignoring case and without a file as another's directory, exactly when no refusal applies |
| Manifest.AddDirectories | gateway/src/folders.ts:105 | the loop adds exactly the names of a path's proper ancestors |
| Manifest.Intersects | gateway/src/folders.ts:109-111 | the last loop finds a name that is both file and directory if there is one |
| Manifest.Admit | gateway/src/folders.ts:91-105 | one entry's refusal, in the order of the checks, or its names in the sets |
| Manifest.Validate | gateway/src/folders.ts:80-115 | exactly the acceptable manifests pass, unchanged and with their total; others get the code of the first failing check |
| PathRules.AcceptedIffUnitsAreFine | gateway/src/folders.ts:33-62 | a path is accepted exactly when it has at most 1024 units and 32 levels, no control unit, backslash, adjacent dots or lone dot, no leading, trailing or double slash, no padding, and no name over 200 units |
| PathRules.ClimbingIsRefused | gateway/src/folders.ts:35-36 | a path with two adjacent dots is refused |
| PathRules.AcceptedStaysInside | gateway/src/folders.ts:10-13 | an accepted path opened segment by segment never leaves its folder |
| PathRules.AcceptableIffFine | gateway/src/folders.ts:76-115 | a manifest is acceptable exactly when it is within the limits, each path and size is fine, and no two paths, ignoring case, are equal or one above the other |
| PathRules.RefusalIsExplained | gateway/src/folders.ts:80-115 | the code of a refusal is true of the first entry at fault, or of the whole manifest |
| PathRules.TotalAddsUp | gateway/src/folders.ts:106 | the total is the sum of the sizes |
| FolderTree.Disk.ChildDir | client/src/folderDelivery.ts:77-85 | a directory is made or reused, and a file of its name refuses |
| FolderTree.Disk.ChildFile | client/src/folderDelivery.ts:87-95 | a file is made or opened, and a directory of its name refuses |
| FolderTree.Disk.SaveOne | client/src/folderDelivery.ts:487-491 | a file finds its place exactly when it clashes with none saved before |
| FolderTree.Disk.SaveAll | client/src/folderDelivery.ts:421-442 | all files find their places exactly when no name is another's directory, and the tree is then theirs and nothing else |
| FolderTree.OwnLeafIffDistinct | client/src/folderDelivery.ts:490-491 | each entry has a leaf of its own exactly when no two names are equal |
| FolderTree.SeparateIffSavedApart | gateway/src/folders.ts:76-79 | names are separate exactly when saving neither clashes nor opens a file twice |
| FolderTree.SaveManifest | client/src/folderDelivery.ts:480-496 | an accepted manifest is saved one leaf to an entry |
| Authority.AuthorityIsOrdered | pipeline/qc/ai_authority.py:183-195 | shadow <= hold <= enforce, never below the instruments' gate, and only enforce lets AI reject |
| Authority.AiRejectIsCorroborated | pipeline/qc/ai_authority.py:103-116 | an AI rejection has an enforcing rule, enough distinct non-synthesis sources and evidence, and an eligible synthesis concern |
| Authority.ConcernNeverLowers | pipeline/qc/ai_authority.py:144-181 | when every rule may hold, one more evidenced concern never lowers the decision and is never passed as ready |
| Authority.AdvisoryRuleCanClear | pipeline/qc/ai_authority.py:145-149 | under a rule of any other authority a synthesis concern can release what was held |
| Authority.MonotoneIffEveryRuleHolds | pipeline/qc/ai_authority.py:136-195 | the decision is monotone in concerns exactly when every rule has authority hold or enforce |
| Authority.GroupStage | pipeline/qc/ai_authority.py:50-64 | evidenced concerns of registered risks are grouped by risk, synthesis apart |
| Authority.GroupConcerns | pipeline/qc/ai_authority.py:46-64 | the groups hold every evidenced concern of a registered risk in any stage, and nothing else |
| Authority.QualifiedFindings | pipeline/qc/ai_authority.py:46-133 | the findings are those of every risk with a concern, qualified by distinct sources, evidence and synthesis agreement |
| Authority.ObservedStates | pipeline/qc/ai_authority.py:153-155 | the last synthesis state on each required risk |
| Authority.ProposeFor | pipeline/qc/ai_authority.py:144-181 | the AI gate takes the first reason that applies |
| Authority.DecideRelease | pipeline/qc/ai_authority.py:136-220 | the disposition, the proposal and the AI gate in each mode |
| AuthorityRules.InstrumentsBound | pipeline/qc/ai_authority.py:35-41 | only what the instruments passed is released, what they failed is rejected, and in shadow nothing else counts |
| AuthorityRules.ReadyIff | pipeline/qc/ai_authority.py:136-195 | a delivery is ready exactly when it passed and, but in shadow, a required AI gate ran, every standing concern is proven and only advised on, and every required risk was checked |
| AuthorityRules.RejectedIff | pipeline/qc/ai_authority.py:136-195 | it is rejected exactly when it failed, or in enforce mode an enforced concern is proven and no required AI gate is outstanding |
| AuthorityRules.FindingsByObservation | pipeline/qc/ai_authority.py:46-133 | a finding exists exactly where a concern stands, and reports the stages, sources and evidence that vouch for it and whether they prove it |
| AuthorityRules.CoveredIffChecked | pipeline/qc/ai_authority.py:150-160 | a required risk is covered exactly when the synthesis's last word on it is not that it went unchecked |
| Coverage.InstrumentsWin | pipeline/qc/agentic.py:506-521 | any two replies give the same entry to a risk an instrument decided |
| Coverage.AnnotationsChangeNothing | pipeline/qc/agentic.py:506-508 | a model's findings, appended as checks, change no entry |
| Coverage.RepliesDoNotInterfere | pipeline/qc/agentic.py:410-577 | end to end, replies and their findings never move a risk an instrument decided, nor any applicability |
| Coverage.SomeRisksAreNeverClear | pipeline/qc/agentic.py:81-147 | certified_pse, color_trim_intent, lip_sync and channel_assignment are never CLEAR |
| Coverage.CountsAccountIffNormal | pipeline/qc/agentic.py:562-577 | assessed plus unresolved equals applicable exactly when no gap is filled with a status outside the six |
| Coverage.NormalisedIsCounted | pipeline/qc/agentic.py:338-340 | a normalised status never leaves a risk uncounted |
| Coverage.NormalisedRepliesAccount | pipeline/qc/agentic.py:334-340 | normalised replies always account |
| Coverage.RawStatusIsUncounted | pipeline/qc/agentic.py:522-536 | a reply that was not normalised can leave a risk uncounted |
| Coverage.Assess | pipeline/qc/agentic.py:498-552 | instruments decide, then the model within its limits, then support checks, then the default |
| Coverage.CountByStatus | pipeline/qc/agentic.py:563 | the counter has the number of applicable risks of every status |
| Coverage.BuildCoverage | pipeline/qc/agentic.py:479-577 | one entry for each registered risk in order, with its counts, counts by status, unknown statuses, and whether all is assessed |
| Coverage.ReportableFindings | pipeline/qc/agentic.py:387-407 | the final pass's findings, the first of each risk and title ignoring case, in order |
| Coverage.AnnotateFindings | pipeline/qc/agentic.py:413-450 | one check for each finding in order, a blocker capped to a warning |
| Coverage.ChecksFromFindings | pipeline/qc/agentic.py:410-462 | one check for each finding, then one warning for each risk that only a suspicious disposition raises |
| Coverage.ChecksAreOfRaisedRisks | pipeline/qc/agentic.py:410-462 | those checks never fail a delivery and name exactly the raised risks |
| CoverageRules.RiskAppliesIff | pipeline/qc/agentic.py:165-204 | each registered risk applies to exactly the media it is about, by metadata or by a check that only such media gets |
| CoverageRules.RegistryScopes | pipeline/qc/agentic.py:75-147 | which risks readings can settle wholly, and which no model can |
| CoverageRules.StatusIffMeant | pipeline/qc/agentic.py:498-552 | each status is given exactly in the cases it stands for, over readings, the model's word, support checks and the state of the model |
| CoverageRules.SixStatuses | pipeline/qc/agentic.py:338-340 | which statuses count as assessed, unresolved and known, and what a reply's others become |
| CoverageRules.FindingsBecomeWarnings | pipeline/qc/agentic.py:413-450 | a finding becomes a check under its risk's name, for information if it says so and else a warning |
| CoverageRules.ExtrasAreSuspected | pipeline/qc/agentic.py:451-462 | a risk gets one more warning exactly when the model confirms or suspects it and no finding is on it |
| CoverageRules.ModelSaysItsLastWord | pipeline/qc/agentic.py:465-476 | the model's word on a risk is the last disposition in the pass that counts, and none where that has none |
| CoverageRules.NoReplyNoWord | pipeline/qc/agentic.py:465-476 | without a pass that counts the model says nothing |
| WordErrorRate.DistanceIsMinimal | pipeline/worker.py:498-508 | the recurrence is the least cost of any edit script |
| WordErrorRate.EditDistanceIsAMetric | pipeline/worker.py:498-508 | zero exactly on equal lists, symmetric, triangle inequality, between the length difference and the longer length |
| WordErrorRate.Rate | pipeline/worker.py:498-508 | the two-row program returns the least number of edits over the reference length, 0 or 1 for an empty reference |
| LagSearch.DelayCorrelatesBest | pipeline/qc/audio.py:60-74 | at the true delay the correlation is the whole energy and at every other lag it is strictly less |
| LagSearch.NormalizedHasUnitEnergy | pipeline/qc/audio.py:51-57 | a normalised series has energy one, and at most one when cut to the shorter of a pair |
| LagSearch.NormalizedIsCentered | pipeline/qc/audio.py:51-57 | a normalised series sums to zero and keeps the differences of its samples, scaled by the norm |
| LagSearch.UnitEnergyBoundsCorrelation | pipeline/qc/audio.py:60-74 | such series correlate within -1 and 1 at every lag |
| LagSearch.BestLag | pipeline/qc/audio.py:60-74 | the first lag of greatest correlation; for a delayed series exactly its delay |
| TimeDedupe.DedupeTimes | pipeline/worker.py:768-773 | the greedy loop over clamped, sorted times |
| TimeDedupe.ClampStandsFor | pipeline/worker.py:770 | a time within the programme stands for itself, one before it for 0, one after it for 50 milliseconds before the end |
| TimeDedupe.DedupeIsSeparated | pipeline/worker.py:768-773 | kept times ascend, lie in the programme, stand for requested ones and are at least the gap apart |
| TimeDedupe.DedupeCovers | pipeline/worker.py:768-773 | every requested time within the programme has a kept one at it or less than the gap before it, and any other has one at what it stands for |
| TimeDedupe.DedupeIsMaximum | pipeline/worker.py:768-773 | no separated list of requested times within the programme, or of what requested times stand for, is longer |
| Pricing.ClampInt | gateway/src/pricing.ts:101-111 | a count is cut to a whole number, one below its range or not finite becomes the least, one above the greatest |
| Pricing.CeilCentsBounds | gateway/src/pricing.ts:123 | rounding is at most half a millionth below and less than that and a cent above |
| Pricing.PriceIsMonotone | gateway/src/pricing.ts:136-167 | more bytes, downloads or weeks never cost less |
| Pricing.PriceIsTight | gateway/src/pricing.ts:136-148 | never below the floor or the exact total, and less than a cent above it when not floored, up to the rounding error |
| Pricing.LinesArePriced | gateway/src/pricing.ts:136-151 | the base is 2 cents a gigabyte, the downloads line a cent a gigabyte for each over two, the weeks line for each over one, each rounded up |
| Pricing.ChargeIsExact | gateway/src/pricing.ts:143-148 | the charge is the exact total rounded up, 2.06 cents a gigabyte and 30 by card or 2.04 by crypto with the add-ons, and at least 50 by card |
| Pricing.FeeIsTheRest | gateway/src/pricing.ts:161-163 | the fee is what the other lines leave of the charge, and nothing when they leave nothing |
| Pricing.WholeCentsStay | gateway/src/pricing.ts:120-123 | a whole number of cents is not pushed to the next |
| Pricing.BatchingSaves | gateway/src/pricing.ts:143-148 | by card one batch costs at least 29 cents less than the same bytes in two |
| Pricing.StripeReceiptAddsUp | gateway/src/pricing.ts:149-163 | by card base, extras and fee sum to the charge, with a fee of at least 27 cents |
| Pricing.CoinbaseReceiptAddsUpIff | gateway/src/pricing.ts:143-163 | by crypto the receipt adds up exactly when the total in rounded millionths exceeds the three rounded-up parts less one cent |
| Pricing.CoinbaseReceiptAddsUp | gateway/src/pricing.ts:143-163 | so it adds up without add-ons, and from 51 GB on |
| Pricing.CoinbaseReceiptCanFail | gateway/src/pricing.ts:146-163 | a small file with add-ons shows three cents of parts on a charge of one |
| RateLimit.CallKeepsFits | gateway/src/auth.ts:419-429 | each call keeps: a window admits at most its limit, windows of a key start more than a window apart |
| RateLimit.AdmittedIff | gateway/src/auth.ts:419-429 | a call is admitted exactly when fewer than the limit were admitted in any window of its key that runs |
| RateLimit.CallIsCounted | gateway/src/auth.ts:419-429 | an admitted call is counted in the window that runs or opens one, and a refused one changes nothing but the clock |
| RateLimit.LimiterIsBounded | gateway/src/auth.ts:419-429 | over every run in clock order no interval as long as a window admits more than twice the limit for a key |
| RateLimit.ZeroLimitAdmitsOne | gateway/src/auth.ts:422-425 | the first call of a window passes whatever the limit |
| RateLimit.Limiter.Allow | gateway/src/auth.ts:419-429 | the method on the shared map of buckets |

## Left out

- Network, storage SDK, presigning, server-sent events, routing, cookies, email and payment adapters: foreign calls, whose outcomes are inputs here.
- BLAKE3 and bao, HMAC, scrypt: assumed to accept exactly the right bytes or token; a password gate is a boolean.
- Rendering, progress, the clipboard, the admin panel: user interface.
- Quota, ownership and input-size refusals of the handlers: they return before any state changes.
- Purging, sweeping of unfinished uploads and objects older than the database: rows and objects are never removed in the model.
- `saveTransfer`'s update of an existing row: a transfer is completed once, because storage assembles its multipart once.
- Download: queued writes are applied in any order, where the source chains them in request order, a page may load the record at any time, and the lanes of a pool take their ranges in any order, where the source's twelve workers each take one at once; the proofs cover more interleavings. Storage is taken to tell the sidecar's length. A `createWritable` that throws is no event of its own: on a fresh start it leaves what a session that throws at once and is discarded leaves, and on a resume the record is saved again unchanged.
- Download: the member download of `client/src/folderDelivery.ts` is not modelled; it shares `saveToDisk`, but opens its file without emptying it and reads the record at each start. A second click of a page whose first is still awaiting the picker or a permission is a second page here.
- Upload: the resume record is keyed by name, size and modification time; two files with the same key are taken to be equal.
- Upload: the hash, sidecar and caption uploads do not touch the parts; a folder member's key also holds its folder and path, which makes it another file here. Storage is taken to refuse the assembly of no part, as the S3 API does.
- DownloadTabs.RestartIsSafeIffSound: a restart on a file another page is downloading to is not part of it; that such runs can end wrong is `DownloadWitnesses.SharedFileEndsWrong`.
- LagSearch.NormalizedHasUnitEnergy: the square root is a parameter, taken to be exact.
- TimeDedupe.DedupeTimes: times and the duration are whole milliseconds, on which the source's rounding to three decimals changes nothing.
- WordErrorRate.Rate: the quotient is a real, not a float.
- Manifest: paths are sequences of UTF-16 units, already NFKC-normalised; lower-casing is any function that works segment by segment and leaves slashes alone.
- FolderTree: names a file system refuses and `osSafe` rewrites are not modelled, nor the choice of a fresh top directory.
- `buildFolders`: it only groups and sorts what the manifest check then validates.
- Authority: resolution of rule defaults, labels, hashes, reasons and the reported maximum confidence carry no decision.
- Coverage.BuildCoverage: reasons, evidence and labels are not modelled, so neither are the entries `validation_errors` has for a missing reason; `accounting_complete` is the absence of errors, for there is always an entry per risk.
- Pricing: rates are the defaults, over exact reals; the checkout and its re-validation are not modelled.
- RateLimit: a key is always used with the same limit and window, as the callers do; the clock never goes back.
- ControlPlane: the tables are maps, a transaction is one method, and the listing order of members is arbitrary.
