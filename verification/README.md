# Verification of the GDrive_Turbo_Copy engine

A Dafny model of the resumable, multi-threaded Drive tree copier and proofs of what it promises:
what crashes and restarts can and cannot do to the copy, when a preview or a fast mode agrees with
the plain run, that shared counters and limits hold under every interleaving, and what the resume
log keeps.

Drive is an abstract state (folders, tagged files, logs, pages, answers). What can go wrong is a
step of a state machine or an input: process crashes at any moment, copies that fail, are made but
not confirmed, or fail verification, listings that break off on either side, verification and search
calls that fail, folder creations that fail, are made but not confirmed, or are repeated, refused or
unconfirmed saves, unreadable or trashed logs, throttling.
Not every part has every fault; "Left out" says where a part assumes one away. Where a fault breaks
a promise, the theorem says exactly when.

Check it with `dafny verify --resource-limit 2000000 --verification-time-limit 0 dfyconfig.toml` (Dafny 4.11).

## How it is organised

- **One folder.** `DriveModel` holds the values, `IndexSpec` the duplicate index as functions,
  `DestinationIndex` the mutable class tied to them, `IndexTheory` what any sequence of pops keeps
  and why greedy matching is optimal. `FolderSync` is one destination folder during one run, with the
  bound any interleaving of workers respects.
- **Whole runs.** `SyncRuns` lets folders be entered (with a full listing or a cut one, directly or
  through shortcuts, once or again), files checked, matched, copied and recorded in any order, logs be
  saved or trashed and the process die and restart at any moment. `Histories` builds such runs.
  `Slips` shows that the faults which leave a trace really do, `SkipSafety` says exactly when skipping
  completed folders is safe. `FolderResolution` says exactly when a source folder gets a second
  destination folder. `StoreRuns` joins folders and files in one machine.
- **Graph parts.** `CompletedFolders` is the memoised, cycle-guarded search against the least fixed
  point; `Traversal` the walk over cyclic source graphs and its fast variant, `FastWalk` the latter as
  the loops it is, `FastListLoss` what under-counted answers cost; `Listing` pages, batches and
  fallbacks; `AncestorSearch` the safety search along parents.
- **The engine.** `Engine` gives one unstopped single-worker run as a function, `Copier` is the class
  that performs it in place, walking the source graph by recursion. `Outcomes` reads what a run does
  off the tree, the index and the failing calls, as a log of events, and shows the run to be their
  replay. `EngineFolders` ties its resolutions to `FolderResolution`, `EngineHistories` whole runs to
  the histories of `StoreRuns`, `SourceTrees` the walked graph to their sources. `DryRun` compares a
  preview with the run it previews.
- **Shared counters.** `CopyLedger` holds the critical sections, `CopyProtocol` interleaves them over
  any number of threads.
- **Rate and concurrency.** `Pacer` and `Limiter` are the two adaptive objects, `PacerTheory` the
  bounds over unbounded runs, `PacerThreads` the cooldown of threads told apart, `Retry` the
  composition of slot, pacing, retries and feedback.
- **Resume log.** `ResumeLog` is the log as a value (canonical form, migration, integrity, round
  trip), `ResumeStore` the class that lists, merges and saves, `ResumeSessions` any number of accounts
  crashing, restarting and cleaning up over one folder. `Ordering` is Python's order on strings.

Each imperative part of the source is a class or a method with loops, proved equal to a function; the
theorems are about the functions and about state machines over them. The engine's functions are runs
of those machines: after any crashes and restarts one clean run leaves every folder with one
destination folder and the right number of files (`EngineHistories.EngineConverges`), and a second
one copies nothing (`EngineHistories.RerunCopiesNothing`).

## Where the code does not do what it says

These are proved, each with its exact condition:

- A completed folder is skipped without re-listing because "every file is in `copied_ids`". Every
  complete run ends with the right files, whatever was skipped in its history, if and only if no
  folder below the root that can be completed at all holds two files of equal name and checksum, or
  a file that is tracked elsewhere too (`SkipSafety.SkipSafeExactlyWhenSeparable`): in another folder,
  or in the copy of the same folder that a shortcut in the source leads to
  (`SkipSafety.ShortcutTargetIsInseparable`), since the copies made there are recorded under the same
  ids. For every other source a history is built whose last run skips a folder that is a file short
  and is complete all the same (`SkipSafety.LosingSkipRun`). That history leaves one file for later
  while others are served, as several workers, a failed copy or a changed listing order can; the
  condition is not specialised to one worker.
- "Never a duplicate": a destination listing that breaks off is only logged and the files it did not
  show are copied again; a copy call that reports a retryable failure is repeated although the copy
  was made; and with several workers a folder that the walk comes to twice is listed again while
  copies into it are on their way. The surplus of a class never exceeds the files that slipped so
  (`SyncRuns.SurplusIsSlips`) and reaches that number (`Slips.CutListingAdds`,
  `Slips.LostConfirmationsAdd`, `Slips.LateCopyAdds`); no history has a surplus if and only if none of
  the three can happen in the source (`Slips.NeverASurplusExactlyWhen`).
- One destination folder per source folder: a failed search counts as "not found", a folder that lies
  under another parent is not looked for there, and a creation that took effect is repeated when its
  answer is lost. A second folder appears if and only if one of these happens to a resolution that
  creates (`FolderResolution.SecondFolderExactlyWhen`); over whole histories there is none if and only
  if nothing was created beside another folder of its key
  (`FolderResolution.OneFolderExactlyWhenNoSlip`), which with one parent per folder leaves only the
  failed searches and the repeated creations (`FolderResolution.OneFolderExactlyWhenCareful`). A lost
  creation that is not repeated leaves one folder, and later runs use it
  (`FolderResolution.LostCreationIsFound`).
- A fully ok run trashes the tool's logs in the folder, other accounts' included: a recorded fact
  survives if and only if some log that records it is not the tool's or is spared
  (`ResumeSessions.RecordKeptExactlyWhen`). As every log the store creates is the tool's, one complete
  clean-up makes the folder forget everything (`ResumeSessions.CleanUpForgetsEverything`), and the
  other accounts' sessions go on saving into the trash (`ResumeSessions.SavesIntoTrash`). Losing a log costs no file and adds none:
  `SyncRuns.SurplusIsSlips`, `SyncRuns.CrashRestartConverges` and `SkipSafety.SkippingConverges` hold
  with logs trashed at any moment.
- A dry run predicts the real run exactly if and only if no match lies in a folder that `folder_map`
  re-attaches below a destination folder that is missing (`DryRun.DryRunPredictsRealRun`): the lookup
  in `folder_map` does not check the parent, and without a parent a dry run does not look at all.
- The README says fast-list never silently skips a folder. A folder never is; a file can be: a bucket
  that comes back under-counted but not empty is believed. The fast walk then misses exactly the
  visits of the children that were dropped (`FastListLoss.FastListMissesExactly`,
  `FastListLoss.BatchedTraversalMissesExactly`, `FastListLoss.ShortBucketLosesAFile`).
- A Retry-After deadline holds back every acquire that checks the cooldown after it was recorded
  (`PacerThreads.GrantRespectsDeadline`), but not one already waiting for tokens
  (`PacerThreads.EarlyCheckIsGrantedInside`).
- With a ceiling below the minimum rate (one per second by default), the first throttle raises the
  rate above the ceiling (`PacerTheory.FloorMustNotExceedCeiling`).
- A log that is unreadable and ignored stays in the folder, and the account's next save creates a
  second log of the same name beside it (`ResumeStore.NoOwnLogNoTarget`,
  `ResumeSessions.BrokenLogIsNeverTouched`).

## Model

| member | source | states |
|---|---|---|
| DestinationIndex.FindFirst | src/gdrive_turbo_copy/copier.py:102-111 | The search loops of a match return the first candidate that satisfies the test, or none |
| DestinationIndex.DestIndex.Build | src/gdrive_turbo_copy/copier.py:48-60 | Building the two dictionaries from a listing gives the index IndexTheory reasons about: folders left out, tag of a shortcut before tag of a file, later tags win |
| DestinationIndex.DestIndex.RemoveFromName | src/gdrive_turbo_copy/copier.py:62-67 | Removes the first equal file from its name list and drops a list that becomes empty |
| DestinationIndex.DestIndex.PopByAppProp | src/gdrive_turbo_copy/copier.py:69-76 | A tag hit leaves both dictionaries; an empty or unknown id changes nothing |
| DestinationIndex.DestIndex.ForgetTagsOf | src/gdrive_turbo_copy/copier.py:116-119 | Exactly the tags that refer to this very object go |
| DestinationIndex.DestIndex.PopMatch | src/gdrive_turbo_copy/copier.py:78-120 | Tag first, then the candidate the verify mode selects among files of the same name, consumed from both dictionaries |
| IndexTheory.PopByAppPropAgrees | src/gdrive_turbo_copy/copier.py:69-76 | A tag pop keeps the dictionaries in agreement and takes one file off the bag of its name |
| IndexTheory.PopMatchAgrees | src/gdrive_turbo_copy/copier.py:78-120 | A match in any mode keeps them in agreement and hands out one file that was listed |
| IndexTheory.ReturnedPlusRemainingIsBuilt | src/gdrive_turbo_copy/copier.py:48-120 | After any sequence of pops in any modes: every tagged entry is under its name, no list is empty, and returned plus remaining is exactly what was listed |
| IndexTheory.ServedExactlyWhenAvailable | src/gdrive_turbo_copy/copier.py:78-120 | In checksum mode with honest tags a request is served if and only if its content class is not exhausted, and uses up that class and no other |
| IndexTheory.PopMatchMeans | src/gdrive_turbo_copy/copier.py:78-120 | Which file may match: the one tagged with the source; else, of the files of its name, the first with the same checksum, by name and size the first with the same size if none has it, by name alone, if allowed, the first; else none |
| IndexTheory.MatchLosesItsTags | src/gdrive_turbo_copy/copier.py:116-119 | A match by name takes every tag that refers to it out of the index, and no other |
| IndexTheory.BuiltTags | src/gdrive_turbo_copy/copier.py:48-60 | A fresh index holds under each source key the last file tagged with it, and nothing under other keys |
| IndexTheory.GreedyServesMin | src/gdrive_turbo_copy/copier.py:78-120 | Greedy popping serves min(requested, present) of every (name, md5) class, in every order |
| IndexTheory.BuildAvail | src/gdrive_turbo_copy/copier.py:48-60 | A fresh index can serve every listed file of a content class, and each tag once |
| CompletedFolders.CompleteIsFixedPoint | src/gdrive_turbo_copy/copier.py:997-1034 | Completeness satisfies the rule the code documents, in both directions |
| CompletedFolders.CompleteIsLeast | src/gdrive_turbo_copy/copier.py:997-1034 | It is the least set closed under that rule |
| CompletedFolders.GuardedFolderIsIncomplete | src/gdrive_turbo_copy/copier.py:1021-1022 | A folder the cycle guard rejects really is incomplete, so the guard never poisons the memo |
| CompletedFolders.CompletionSearch.IsComplete | src/gdrive_turbo_copy/copier.py:1016-1032 | On any graph, with any stack and in any order of subfolders, the answer is true if and only if the folder is complete, and every memo entry stays true |
| CompletedFolders.FailedIds | src/gdrive_turbo_copy/copier.py:1007-1011 | The failed ids are exactly the non-empty ids of any of the four fields of any failed item |
| CompletedFolders.ComputeCompletedFolders | src/gdrive_turbo_copy/copier.py:997-1034 | The result is exactly the recorded folders in the least fixed point |
| CompletedFolders.RecordTreeNode | src/gdrive_turbo_copy/copier.py:977-995 | A record holds the plain files and plain folders of a listing and is eligible if and only if it has no shortcut |
| CompletedFolders.CompletedMeansListing | src/gdrive_turbo_copy/copier.py:977-1034 | From listing to result: a folder listed this run and not known before is complete if and only if its listing did not fail, it shows no shortcut, every file was copied and is mentioned in no failed item, and every subfolder is complete |
| CompletedFolders.BrokenListingIsIncomplete | src/gdrive_turbo_copy/copier.py:1024 | A folder whose listing failed is never found complete unless it was known before |
| FolderSync.MatchKeeps | src/gdrive_turbo_copy/copier.py:603-614 | Matching a file keeps the folder's invariant: used plus available is what was indexed, and a miss means the class is exhausted |
| FolderSync.ResumeHitIsMatch | src/gdrive_turbo_copy/copier.py:589-614 | A resume-log hit returns what matching would have returned |
| FolderSync.CopyIsTagged | src/gdrive_turbo_copy/copier.py:648-669 | A copy has its source's name, type, size and checksum and carries the id its source is tracked by |
| FolderSync.CopyIsFoundAgain | src/gdrive_turbo_copy/copier.py:69-76 | The next run finds the copy by its tag in every mode, whatever else lies in the folder |
| FolderSync.CheckResumeKeeps | src/gdrive_turbo_copy/copier.py:589-601 | The resume check, hit or unconfirmed, keeps the invariant |
| FolderSync.LandKeeps | src/gdrive_turbo_copy/copier.py:648-695 | A server-side copy adds one file of its class and keeps the invariant |
| FolderSync.LoseKeeps | src/gdrive_turbo_copy/retry.py:192-232 | A copy that was made although the call failed adds one file of its class, counted as slipped, and keeps the invariant |
| FolderSync.RunStaysBounded | src/gdrive_turbo_copy/copier.py:576-695 | No class is ever below its initial count, or above max(source, initial) by more than its slips; when every file is settled it is at least that maximum |
| FolderSync.DoneIsPresent | src/gdrive_turbo_copy/copier.py:576-695 | A file that was matched or copied has a file of its class at the destination |
| FolderSync.TookFromSeen | src/gdrive_turbo_copy/copier.py:603-695 | No more of a class is matched than the listing showed, a copy is made only when all of those are matched, and once every file is settled matched plus copied is the source count |
| SyncRuns.SurplusIsSlips | src/gdrive_turbo_copy/copier.py:576-695 | At every moment of every history of runs, crashes, restarts and trashed logs, no class of any folder has lost a file, and its surplus over max(source, initial) is at most what cut listings hid, lost confirmations left and late copies added |
| SyncRuns.CrashRestartConverges | src/gdrive_turbo_copy/copier.py:254-276 | After any history, a run that re-lists everything and completes leaves every class of every reachable folder at max(source, initial), plus at most its slips |
| SyncRuns.NoFaultsNoSlips | src/gdrive_turbo_copy/copier.py:955-973 | In a history without cut listings, lost confirmations and overlapping visits nothing slips, so both bounds are exact |
| SyncRuns.RecordedAs | src/gdrive_turbo_copy/copier.py:524-525 | Whatever name a folder is entered by, its own or a shortcut's, it is recorded under its real id with what it lists |
| Slips.CutListingAdds | src/gdrive_turbo_copy/copier.py:955-973 | A folder at its target is listed in part: once its files are settled, each hidden file has a double |
| Slips.LostConfirmationsAdd | src/gdrive_turbo_copy/copier.py:669-695 | For every n, n lost confirmations leave exactly n files too many |
| Slips.LateCopyAdds | src/gdrive_turbo_copy/copier.py:531-562 | For every folder with a file that the walk comes to on two paths, a second visit overlapping the first leaves one file too many |
| Slips.NeverASurplusExactlyWhen | src/gdrive_turbo_copy/copier.py:576-695 | No history ever has a surplus file if and only if there is nothing to copy, or listings are never cut, confirmations never lost, and no folder with files is reached twice by overlapping visits |
| SkipSafety.CanCompleteMeans | src/gdrive_turbo_copy/copier.py:1016-1032 | A folder can be completed if and only if it holds no shortcut and all its subfolders can |
| SkipSafety.CycleCannotComplete | src/gdrive_turbo_copy/copier.py:1021-1022 | A folder on a cycle never can |
| SkipSafety.ShortcutTargetIsInseparable | src/gdrive_turbo_copy/copier.py:478-480 | A shortcut to a skippable folder with files is enough to make the source inseparable |
| SkipSafety.FinishKeepsCovered | src/gdrive_turbo_copy/copier.py:270-272 | Adding the computed completed folders, with the flag on, keeps every completed folder covered, with all its subfolders |
| SkipSafety.SkippingConverges | src/gdrive_turbo_copy/copier.py:501-509 | With a separable source, a complete run that skips completed folders ends with the same counts as one that re-lists everything, under any faults |
| SkipSafety.OtherFolderRecordsIt | src/gdrive_turbo_copy/copier.py:1036-1038 | For every folder and file tracked elsewhere too, be it in another folder or behind a shortcut, a history with skipping on records the file while this folder lacks it |
| SkipSafety.TwinStealsCopy | src/gdrive_turbo_copy/copier.py:589-614 | For every folder with two files of equal name and checksum, a history records both while one is missing: after a stop, one copy serves for its twin |
| SkipSafety.LosingSkipRun | src/gdrive_turbo_copy/copier.py:501-509 | Every skippable folder with such files or twins has a history of runs with skip_completed_folders on, without any fault, whose last run skips it, is complete, and leaves it a file short |
| SkipSafety.SkipSafeExactlyWhenSeparable | src/gdrive_turbo_copy/copier.py:997-1034 | Every complete run of every history leaves every class at exactly max(source, initial) if and only if no skippable folder holds twins or a file tracked elsewhere |
| FolderResolution.ExistingIsFound | src/gdrive_turbo_copy/copier.py:795-808 | With one parent per folder: if a tagged folder exists anywhere and the search gets through, resolving its source folder returns it, whatever log survived and whether or not verification fails |
| FolderResolution.SecondFolderExactlyWhen | src/gdrive_turbo_copy/copier.py:787-877 | One resolution leaves two folders of a key if and only if the remembered one is not confirmed, something is created, and the search failed beside an existing folder, or that lies under another parent, or the creation was repeated |
| FolderResolution.OneFolderExactlyWhenNoSlip | src/gdrive_turbo_copy/copier.py:787-877 | After any history of resolutions with failing, lost and repeated calls, crashes and restarts, no source folder has two destination folders if and only if none was created beside another of its key |
| FolderResolution.OneFolderExactlyWhenCareful | src/gdrive_turbo_copy/copier.py:787-877 | With one parent per folder: if and only if no search failed beside an existing folder before a creation and no creation was repeated |
| FolderResolution.SameFolderAsBefore | src/gdrive_turbo_copy/copier.py:787-831 | While nothing slips, every run resolves a source folder to the destination folder it had before |
| FolderResolution.LostCreationIsFound | src/gdrive_turbo_copy/retry.py:192-232 | A creation that took effect unconfirmed and was not repeated leaves one folder, and every later run that resolves the key gets it |
| FolderResolution.FoldersAreSlips | src/gdrive_turbo_copy/copier.py:787-877 | Whatever calls fail or are repeated: the folders of a key are those there were, or the first, plus exactly its slips |
| FolderResolution.FoldersWithinSlips | src/gdrive_turbo_copy/copier.py:787-877 | A source folder with one parent at every level has at most one destination folder plus the extra creations (failed searches, repeated creations) of its key and of the keys above it |
| StoreRuns.OneFolderWithTheRightFiles | src/gdrive_turbo_copy/copier.py:254-276 | Folders and files in one machine: after any crashes and restarts in which no folder was created beside another of its key, a complete run leaves every reachable source folder with files exactly one destination folder, holding max(source, initial) of each class plus at most the slips |
| Ordering.Least | src/gdrive_turbo_copy/copier.py:854-862 | The least id is a member below all others (unique by LeastUnique) |
| Ordering.SortedIsUnique | src/gdrive_turbo_copy/resume_store.py:60-62 | A set has one sorted listing, so the canonical lists depend on the members alone |
| Listing.ListChildren | src/gdrive_turbo_copy/copier.py:917-953 | Returns the files of pages max(1, from) to `to`, or to the last if that is 0, cut before the first unreadable page; reports failure if and only if an unreadable page lies in that range |
| Listing.AppendToParents | src/gdrive_turbo_copy/copier.py:447-453 | A file is appended to every requested parent it names, and to no other |
| Listing.BucketCounts | src/gdrive_turbo_copy/copier.py:447-453 | Over all answered files a bucket holds each file as often as it mentions the parent, and nothing else |
| Listing.ListMultiPages | src/gdrive_turbo_copy/copier.py:439-456 | Over all pages every requested parent gets exactly its bucket |
| Listing.ListSingly | src/gdrive_turbo_copy/copier.py:421-430 | The fallback lists every folder of the group by itself |
| Listing.ListGroup | src/gdrive_turbo_copy/copier.py:409-436 | A failed query, an all-empty batch and an empty parent all fall back to single listings; the result is what is believed of each folder |
| Listing.BatchedList | src/gdrive_turbo_copy/copier.py:398-437 | Batches of 50 give, for every folder, the answer of its group |
| Listing.BatchedIsSingle | src/gdrive_turbo_copy/copier.py:398-437 | With complete-or-empty buckets the batched map equals per-folder listing for every folder, over all groups, pages and failed batches |
| Listing.UnderCountedBucketIsTrusted | src/gdrive_turbo_copy/copier.py:432-436 | Two files, one of them missing from a non-empty bucket: only one is seen |
| Traversal.WalkIsSimple | src/gdrive_turbo_copy/copier.py:458-529 | On every graph, cyclic or not, each branch of the recursion follows a path of distinct folders |
| Traversal.UnfoldMeans | src/gdrive_turbo_copy/copier.py:458-529 | What becomes of each child: a shortcut is handled under its own id and name, and its target, if it resolves, is copied or followed as if it lay there, else it fails; a folder on the path is left out; a failed listing counts ahead of what it shows |
| Traversal.WalkDepthBounded | src/gdrive_turbo_copy/copier.py:486-529 | The recursion nests at most as deep as there are unvisited readable folders, plus one |
| Traversal.WalkVisits | src/gdrive_turbo_copy/copier.py:309-327 | The files of the walk, each under its source folder, are those of the default traversal in order |
| Traversal.FastListRefinesDefault | src/gdrive_turbo_copy/copier.py:329-374 | If batched listings hold the same files as single ones, fast and default traversal consider the same (file, source parent) multiset, on every graph |
| Traversal.BatchedTraversalRefinesDefault | src/gdrive_turbo_copy/copier.py:329-456 | The same with the batched listing in place: complete-or-empty buckets cost no file |
| FastListLoss.FastListMissesExactly | src/gdrive_turbo_copy/copier.py:329-374 | If answers are sub-bags of the folders, the default visits are the fast visits plus exactly the visits of the dropped children, on every graph |
| FastListLoss.BatchedTraversalMissesExactly | src/gdrive_turbo_copy/copier.py:329-456 | The same with the batched listing in place, over any pages, groups and failed queries |
| FastListLoss.ShortBucketLosesAFile | src/gdrive_turbo_copy/copier.py:398-437 | A whole walk that considers one file of a folder where the default walk considers both |
| FastListLoss.SameFilesAreServed | src/gdrive_turbo_copy/copier.py:78-120 | When nothing is dropped, fast and default order find the same number of existing files in every class of every folder |
| FastWalk.FastWalker.SortLevel | src/gdrive_turbo_copy/copier.py:341-362 | One pass over a level considers exactly its files and puts aside exactly the folders not on the current path |
| FastWalk.FastWalker.EnterFolder | src/gdrive_turbo_copy/copier.py:367-374 | A folder put aside is processed with the batch's answer for it |
| FastWalk.FastWalker.ProcessLevelFast | src/gdrive_turbo_copy/copier.py:329-374 | Walking the graph with one batched listing per level considers exactly the fast visits of Traversal, and terminates on every graph |
| Engine.EveryItemHasOneOutcome | src/gdrive_turbo_copy/copier.py:309-327 | In an unstopped run, whatever calls fail, every file, broken shortcut, failed source listing and failed folder creation that is reached adds exactly one outcome |
| Engine.AllReached | src/gdrive_turbo_copy/copier.py:309-529 | Without failing creations every item of the tree is reached |
| Engine.WalkOutcomes | src/gdrive_turbo_copy/copier.py:309-529 | Of a walk of any graph, with any listings, searches, verifications and copies failing: copied, skipped, would-copy or failed, once each |
| Outcomes.RunIsReplay | src/gdrive_turbo_copy/copier.py:309-529 | Whatever calls fail, the run is the replay of the events read off the tree, the index and the failing calls: found, refused, announced, not made, stored and verified or not, inaccessible, created, resolved, not created |
| Outcomes.CountsAreEvents | src/gdrive_turbo_copy/copier.py:611-694 | Over a whole walk, copied and its bytes count exactly the copies made and verified; failed exactly the too large, unmade and unverified files, inaccessible items and folders not created; skipped and would-copy exactly theirs |
| Outcomes.LastEventDecides | src/gdrive_turbo_copy/copier.py:589-694 | An id is in copied_ids afterwards if and only if the last event about it was a match or a verified copy; an id the log had is gone if its file was refused, announced, not made or not verified; others are as before |
| Outcomes.EveryRecordHasAFile | src/gdrive_turbo_copy/copier.py:682-694 | An id newly in copied_ids was matched or copied in this run, and that file is at the destination at the end |
| Outcomes.WholeRunIsReplay | src/gdrive_turbo_copy/copier.py:222-256 | A run starts from what its root's log knows, with its own root entry winning; without a root it does nothing |
| EngineFolders.ResolutionIsAStep | src/gdrive_turbo_copy/copier.py:787-831 | Finding or creating a folder is one resolution step of FolderResolution with the calls that fail: the same store, folder_map and folder |
| EngineFolders.SearchFinds | src/gdrive_turbo_copy/copier.py:833-863 | A search gives d if and only if d is the least id among the folders of that tag under that parent |
| EngineFolders.ResolvedIsTagged | src/gdrive_turbo_copy/copier.py:787-831 | The folder given carries the tag of its key and is the entry of folder_map; unless it was remembered it lies under the given parent; only a creation changes the store |
| EngineFolders.OnlyThisFolder | src/gdrive_turbo_copy/copier.py:787-831 | No other folder, entry, record or counter changes |
| EngineFolders.ResolvingAgain | src/gdrive_turbo_copy/copier.py:795-803 | Asking again with folder_map gives the same folder and changes nothing |
| EngineFolders.SearchingAgain | src/gdrive_turbo_copy/copier.py:833-863 | Asking again by search alone, whatever log survived, gives the same folder and creates none |
| EngineHistories.FileIsHistory | src/gdrive_turbo_copy/copier.py:576-695 | What the engine does with one file, whatever fails, is a sequence of steps of the file machine, with the same index, records and destination at the end |
| EngineHistories.NodesAreHistory | src/gdrive_turbo_copy/copier.py:309-529 | The same of any part of the walk, folders included; if nothing fails, everything below is entered and settled |
| EngineHistories.EngineRunIsHistory | src/gdrive_turbo_copy/copier.py:309-529 | A whole run of the engine, whatever copies, verifications and creations fail, is a history of StoreRuns, and complete if none fails |
| EngineHistories.EngineConverges | src/gdrive_turbo_copy/copier.py:254-276 | After any history of runs, crashes and restarts without folder slips, one clean run of the engine leaves every folder with files exactly one destination folder, holding max(source, initial) of each class plus at most what slipped before |
| EngineHistories.NothingLeftToCopy | src/gdrive_turbo_copy/copier.py:589-614 | If the destination has enough of every class, whoever put it there, a clean run copies nothing |
| EngineHistories.RerunCopiesNothing | src/gdrive_turbo_copy/copier.py:589-614 | A second run after a clean one copies nothing, whatever folder_map and records its log gave it |
| SourceTrees.UnfoldFits | src/gdrive_turbo_copy/copier.py:458-529 | What the walk unfolds from a graph is what the source of the histories has |
| SourceTrees.UnfoldIsWhole | src/gdrive_turbo_copy/copier.py:458-529 | What the walk unfolds shows every file and folder of that source |
| SourceTrees.EngineConvergesOnGraph | src/gdrive_turbo_copy/copier.py:309-529 | EngineConverges for the walk of a graph |
| Copier.CopyEngine.FindDestFolder | src/gdrive_turbo_copy/copier.py:833-863 | Of the tagged folders under the parent the one with the least id; none if there is none or the search fails |
| Copier.CopyEngine.GetOrCreateFolder | src/gdrive_turbo_copy/copier.py:787-831 | Cached and verified, else found, else created (never in a dry run, never without a parent, possibly failing), with folder_map updated |
| Copier.CopyEngine.CopyFile | src/gdrive_turbo_copy/copier.py:576-695 | Resume check, match, and settlement leave the run and the index as Engine.CopyFile says |
| Copier.CopyEngine.SettleFile | src/gdrive_turbo_copy/copier.py:611-694 | Matched, too large, would-copy, failed or copied, with the counters, the destination and copied_ids of that case |
| Copier.CopyEngine.ProcessLevel | src/gdrive_turbo_copy/copier.py:309-327 | Walking the source graph in place, cycles included, is folding the unfolded walk; it terminates |
| Copier.CopyEngine.HandleChild | src/gdrive_turbo_copy/copier.py:458-484 | A child is resolved and treated as the node the walk has for it |
| Copier.CopyEngine.CopyFolder | src/gdrive_turbo_copy/copier.py:486-529 | A folder on the current path is left out; any other is resolved, listed and processed |
| Copier.CopyEngine.FillFolder | src/gdrive_turbo_copy/copier.py:523-529 | A resolved folder is listed, a failed listing counted, and its children processed |
| DryRun.LogDoesNotDecide | src/gdrive_turbo_copy/copier.py:589-614 | Whether an id is in the resume log changes neither which destination file is used up nor what the file counts as |
| DryRun.DryNodes | src/gdrive_turbo_copy/copier.py:629-633 | A dry run counts the prediction made without re-attaching, and changes nothing at the destination |
| DryRun.RealNodes | src/gdrive_turbo_copy/copier.py:576-695 | A real run, whose destination grows under it, counts the prediction made from the state at the start |
| DryRun.StraysAreTheDifference | src/gdrive_turbo_copy/copier.py:795-803 | The two predictions differ by exactly the matches in stray folders |
| DryRun.DryRunPredictsRealRun | src/gdrive_turbo_copy/copier.py:787-831 | From the same start, would-copy count and bytes equal copied count and bytes and skips and failures agree, if and only if no match is in a stray folder |
| DryRun.StrayFolderBreaksPreview | src/gdrive_turbo_copy/copier.py:795-803 | Concrete runs where the preview announces a copy and the run skips the file |
| CopyLedger.SharedLedger.TryReserve | src/gdrive_turbo_copy/copier.py:635-646 | Reserves exactly when a positive budget is not exceeded, and otherwise changes nothing |
| CopyLedger.SharedLedger.ReleaseReservation | src/gdrive_turbo_copy/copier.py:1053-1056 | Gives the reserved bytes back |
| CopyLedger.SharedLedger.Mark | src/gdrive_turbo_copy/copier.py:1036-1044 | Counts the copy and its bytes and ends the streak |
| CopyLedger.SharedLedger.RateLimited | src/gdrive_turbo_copy/copier.py:727-730 | Lengthens the streak and says whether it reached 8 |
| CopyLedger.SharedLedger.OtherOutcome | src/gdrive_turbo_copy/copier.py:745-747 | Ends the streak |
| CopyProtocol.ReservedIsVerifiedPlusInFlight | src/gdrive_turbo_copy/copier.py:635-695 | In every interleaving reserved bytes are verified plus in flight plus deliberately unreleased, and verified bytes never exceed a positive budget |
| CopyProtocol.BreakerFiresExactlyOnStreak | src/gdrive_turbo_copy/copier.py:715-747 | The counter is the length of the trailing run of rate-limited outcomes; the breaker has fired if and only if eight in a row occurred |
| CopyProtocol.BreakerStopsTheRun | src/gdrive_turbo_copy/copier.py:715-747 | Eight rate-limited outcomes in a row stop the run as soon as the thread that saw the eighth goes on |
| CopyProtocol.CountIsCopies | src/gdrive_turbo_copy/copier.py:1036-1044 | In every run the copies counted are the outcomes that were copies |
| CopyProtocol.AtMostOneLateCopyPerThread | src/gdrive_turbo_copy/copier.py:562-587 | After the stop is set every thread finishes at most one more copy |
| CopyProtocol.EqualFilesFillTheBudget | src/gdrive_turbo_copy/copier.py:635-646 | With n equal files and no failures every finished interleaving has copied exactly min(n, floor(budget/size)) |
| AncestorSearch.PushParents | src/gdrive_turbo_copy/copier.py:910-912 | Adds exactly the parents not seen yet to the stack |
| AncestorSearch.IsDescendantOf | src/gdrive_turbo_copy/copier.py:894-913 | True always means reachable; the answer is exact when no more than max_nodes items are reachable; it ends on every graph |
| Limiter.SharedLimit.TryAcquire | src/gdrive_turbo_copy/concurrency.py:61-66 | One pass of the wait loop takes a slot if and only if the type is below its limit |
| Limiter.SharedLimit.Release | src/gdrive_turbo_copy/concurrency.py:68-72 | Gives one slot back |
| Limiter.SharedLimit.RecordSuccess | src/gdrive_turbo_copy/concurrency.py:74-81 | A full streak below the ceiling raises the limit by one and wakes the waiters; otherwise the streak grows |
| Limiter.SharedLimit.RecordThrottle | src/gdrive_turbo_copy/concurrency.py:83-87 | Halves the limit, not below the minimum, and ends the streak |
| Limiter.NewStartsAtCeiling | src/gdrive_turbo_copy/concurrency.py:46-48 | A new limit stands at its ceiling, the number of workers or one |
| Limiter.ThrottlesHalve | src/gdrive_turbo_copy/concurrency.py:83-87 | n throttles give max(1, limit / 2^n) |
| Limiter.StreaksRaise | src/gdrive_turbo_copy/concurrency.py:74-81 | m full streaks give min(max, limit + m) |
| Limiter.StepKeepsInv | src/gdrive_turbo_copy/concurrency.py:61-87 | Every step keeps the limits and the absence of lost wakeups, and in_flight never grows while at or above the limit |
| Limiter.LimiterIsSafeAndLive | src/gdrive_turbo_copy/concurrency.py:61-87 | In every reachable state 1 <= limit <= max, at most max in flight, a limit below max means an unfinished streak, and a sleeper's type is full with a running call that will wake it |
| Pacer.AdaptivePacer.RefillLocked | src/gdrive_turbo_copy/pacer.py:45-50 | Credits elapsed time at the current rate, up to the capacity |
| Pacer.AdaptivePacer.TakeTokens | src/gdrive_turbo_copy/pacer.py:52-70 | Terminates, sleeps off the deficit and takes its tokens from a bucket that held enough |
| Pacer.AdaptivePacer.Acquire | src/gdrive_turbo_copy/pacer.py:110-123 | Returns no earlier than the cooldown it started under, and takes its tokens; a rate of zero does nothing |
| Pacer.AdaptivePacer.RecordThrottle | src/gdrive_turbo_copy/pacer.py:125-135 | Lowers rate, capacity and tokens, ends the streak and only ever extends the cooldown |
| Pacer.AdaptivePacer.RecordSuccess | src/gdrive_turbo_copy/pacer.py:137-147 | Counts the success; a full streak below the ceiling adds one step, up to the ceiling |
| PacerTheory.RunKeepsInv | src/gdrive_turbo_copy/pacer.py:110-147 | Over any run the rate stays in (0, max], tokens within the burst, and the cooldown never decreases |
| PacerTheory.DeadlineIsRemembered | src/gdrive_turbo_copy/pacer.py:131-135 | A Retry-After deadline once recorded stays within the cooldown for the rest of the run |
| PacerThreads.ProjectionRuns | src/gdrive_turbo_copy/pacer.py:110-123 | Threads told apart drive the shared bucket exactly as the runs of PacerTheory do |
| PacerThreads.ThreadsNeverExceedCeiling | src/gdrive_turbo_copy/pacer.py:45-123 | So the window bound holds for any number of threads |
| PacerThreads.GrantRespectsDeadline | src/gdrive_turbo_copy/pacer.py:110-135 | In every interleaving, a grant whose thread last checked the cooldown after a Retry-After throttle is not before that deadline |
| PacerThreads.EarlyCheckIsGrantedInside | src/gdrive_turbo_copy/pacer.py:110-123 | A thread that checked before the throttle may be granted inside the cooldown |
| PacerTheory.WindowBound | src/gdrive_turbo_copy/pacer.py:45-70 | N grants in a window of length T satisfy N(1-1e-9) <= max(1, max_rate) + max_rate*T, whatever throttles and successes interleave |
| PacerTheory.PacerNeverExceedsCeiling | src/gdrive_turbo_copy/pacer.py:45-147 | That bound for every window of every run of a new pacer |
| PacerTheory.BurstIsExact | src/gdrive_turbo_copy/pacer.py:52-70 | A bucket with at least n tokens and fewer than n+1 grants exactly n times at one instant; the next thread has to wait |
| PacerTheory.NewBucketGrantsItsBurst | src/gdrive_turbo_copy/pacer.py:26-43 | A new pacer grants floor(max(1, ceiling)) tokens at once, and no more |
| PacerTheory.MultiplicativeDecrease | src/gdrive_turbo_copy/pacer.py:125-129 | j throttles give max(min, rate*backoff^j) |
| PacerTheory.AdditiveIncrease | src/gdrive_turbo_copy/pacer.py:137-147 | m full streaks give min(max, rate + m steps) |
| PacerTheory.ControlLaw | src/gdrive_turbo_copy/pacer.py:125-147 | Both in sequence |
| PacerTheory.FloorMustNotExceedCeiling | src/gdrive_turbo_copy/pacer.py:103-129 | A throttle keeps every rate under the ceiling if and only if the floor is not above it |
| Retry.StopsAfter | src/gdrive_turbo_copy/retry.py:192-200 | The attempt at which retrying stops is the number of calls: leading transient errors plus one, capped |
| Retry.Exec | src/gdrive_turbo_copy/drive_client.py:71-104 | The exact sequence of pacing, calls, throttle feedback and sleeps, and the last answer as result |
| Retry.Run | src/gdrive_turbo_copy/drive_client.py:65-69 | The same inside the operation's concurrency slot |
| Retry.SlotHeldThroughout | src/gdrive_turbo_copy/drive_client.py:65-69 | Exactly one slot is held from first effect to last, through every attempt and sleep, and none afterwards, however it ends |
| Retry.RetryComposition | src/gdrive_turbo_copy/retry.py:172-232 | Calls are leading transient errors plus one, capped at max_attempts; one token per call; one sleep between calls; exactly the retried throttles are reported |
| Retry.JitterTotalBounded | src/gdrive_turbo_copy/retry.py:144-149 | n jittered sleeps total at most the sum of min(cap, base*2^(i-1)) |
| Retry.BackoffDoubles | src/gdrive_turbo_copy/retry.py:144-149 | The backoff of the n-th attempt is min(cap, base*2^(n-1)) |
| Retry.RetryAfterIsSlept | src/gdrive_turbo_copy/retry.py:198-206 | A retried answer with a Retry-After is followed by a sleep of exactly that length, one without by its jitter |
| Retry.EffectsInOrder | src/gdrive_turbo_copy/drive_client.py:71-104 | Every call comes right after its token, every throttle report right after the throttled call with its Retry-After, every sleep after the call or its report, every success report after the successful call |
| Retry.OperationFeedback | src/gdrive_turbo_copy/drive_client.py:72-103 | One operation halves its limit once per retried throttle and counts one success if it got through |
| ResumeLog.FailedItemsRoundTrip | src/gdrive_turbo_copy/models.py:221-238 | Failed items survive to_dict and from_dict if and only if their required fields are present |
| ResumeLog.MigrationKeepsEverything | src/gdrive_turbo_copy/resume_store.py:83-103 | Migration from any schema keeps every property that was present, the version apart |
| ResumeLog.MigrationDropsNoId | src/gdrive_turbo_copy/resume_store.py:87-90 | The copied ids are the same before and after, under either name |
| ResumeLog.MigrationIsIdempotent | src/gdrive_turbo_copy/resume_store.py:83-103 | Migrating twice is migrating once |
| ResumeLog.AnySchemaIsRead | src/gdrive_turbo_copy/resume_store.py:106-130 | A readable log of any schema is read with the copied ids, completed folders and folder map it holds |
| ResumeLog.ScalarsAreRead | src/gdrive_turbo_copy/resume_store.py:106-130 | Account, source root, destination root, run id and timestamps are read as they stand, in every schema |
| ResumeLog.BytesAreRead | src/gdrive_turbo_copy/resume_store.py:91-95 | A size in bytes is read as it stands, whatever else the log holds |
| ResumeLog.UnversionedIsFilledIn | src/gdrive_turbo_copy/resume_store.py:80-101 | A log without a version, or with an empty one, is taken for one of the first schema and given every property of the later ones |
| ResumeLog.VersionDecidesWhatIsAdded | src/gdrive_turbo_copy/resume_store.py:80-103 | The version decides what migration adds: the ids' new name below 2, bytes and roots below 3, the completed folders below 4, and nothing at 4 |
| ResumeLog.OlderMimeTypeWins | src/gdrive_turbo_copy/models.py:229 | A failed item's type is read under its older name when that is there, and under the newer one otherwise |
| ResumeLog.MegabytesBecomeBytes | src/gdrive_turbo_copy/resume_store.py:91-95 | The size of an old log becomes floor(mb * 1048576) bytes |
| ResumeLog.WrittenLogIsRead | src/gdrive_turbo_copy/resume_store.py:77-130 | Every serialized state passes its own integrity check and is read back with every id, folder and count |
| ResumeLog.RoundTripExactlyWhen | src/gdrive_turbo_copy/resume_store.py:77-130 | Deserializing restores the state itself if and only if its version is current, its timestamps are set and its failed items have their required fields |
| ResumeLog.EditDetectedExactlyWhen | src/gdrive_turbo_copy/resume_store.py:110-113 | An edit of a written log that keeps its hash is rejected if and only if the hash tells the contents apart |
| ResumeLog.UnsignedLogIsAccepted | src/gdrive_turbo_copy/resume_store.py:110-113 | A written log without its hash is read like one with it |
| ResumeStore.ListLogFiles | src/gdrive_turbo_copy/resume_store.py:217-227 | The log files of all pages in order, or the listing error |
| ResumeStore.ListedMeans | src/gdrive_turbo_copy/resume_store.py:217-227 | A listing holds exactly the files of its pages whose name begins like a log's |
| ResumeStore.LogNamesAreListed | src/gdrive_turbo_copy/resume_store.py:133-140 | The log of every account is listed, under a safe name |
| ResumeStore.LogNamesDiffer | src/gdrive_turbo_copy/resume_store.py:133-140 | Accounts of safe characters have logs of their own |
| ResumeStore.Store.MergeLogs | src/gdrive_turbo_copy/resume_store.py:181-206 | The in-place merge loop is the fold over the logs, up to the first unreadable one unless told to skip it |
| ResumeStore.Store.Load | src/gdrive_turbo_copy/resume_store.py:150-215 | Result, own log id and error in every case: listing failed, start_fresh, unreadable log, ignore_broken |
| ResumeStore.Store.Save | src/gdrive_turbo_copy/resume_store.py:229-249 | Updates the known own log, else creates one; its id is remembered only when the creation is confirmed |
| ResumeStore.LoadedIdsAreTheUnion | src/gdrive_turbo_copy/resume_store.py:193-196 | Loaded copied ids and completed folders are exactly the union over the readable logs |
| ResumeStore.LoadedIdsIgnoreOrder | src/gdrive_turbo_copy/resume_store.py:193-196 | They do not depend on the order of the logs |
| ResumeStore.LoadedFailuresAreAll | src/gdrive_turbo_copy/resume_store.py:197 | A load knows the failed items of every readable log, one log after the other |
| ResumeStore.LoadKeepsIdentity | src/gdrive_turbo_copy/resume_store.py:181-206 | Account, destination root and time of writing are never taken from a log |
| ResumeStore.FirstLogDecidesFolder | src/gdrive_turbo_copy/resume_store.py:194-195 | folder_map holds exactly the folders some log knows, each with the destination of the first log that knows it |
| ResumeStore.OwnLogDecidesScalars | src/gdrive_turbo_copy/resume_store.py:198-203 | The last readable log of the account's own name decides the scalars and which file is saved to |
| ResumeStore.NoOwnLogNoTarget | src/gdrive_turbo_copy/resume_store.py:181-203 | Without a readable own log the save target and the scalars stay as they were |
| ResumeSessions.SaveIsSaved | src/gdrive_turbo_copy/resume_store.py:229-249 | Carrying out the request of a save, unless refused, and keeping the target its answer gives is what a save does to the sessions |
| ResumeSessions.KnownLogIsUpdated | src/gdrive_turbo_copy/resume_store.py:239-246 | The request updates the own log exactly if one is known; otherwise it creates a log of the session's name in the state's destination root |
| ResumeSessions.CreatedLogIsLoaded | src/gdrive_turbo_copy/resume_store.py:181-203 | A log created by a save, confirmed or not, is taken for its own by the next load of that name |
| ResumeSessions.RecordKeptExactlyWhen | src/gdrive_turbo_copy/resume_store.py:268-285 | One action keeps a recorded fact recorded if and only if it is not a clean-up that trashes every log recording it |
| ResumeSessions.CleanUpForgetsEverything | src/gdrive_turbo_copy/resume_store.py:268-285 | Unless a log without the tool's tag was there before, a complete clean-up after any run leaves no fact of any account recorded |
| ResumeSessions.NothingIsForgotten | src/gdrive_turbo_copy/resume_store.py:150-285 | Over any run of saves (refused, confirmed, or with the confirmation lost), crashes, restarts, fresh starts and clean-ups of any number of accounts, a recorded fact stays recorded until it is discarded or all its records are cleaned up, and every later load knows it |
| ResumeSessions.SavesIntoTrash | src/gdrive_turbo_copy/resume_store.py:237-242 | After another account has cleaned up, a session goes on updating its trashed log, and no load sees what it saves |
| ResumeSessions.OneLogPerSlip | src/gdrive_turbo_copy/resume_store.py:237-249 | A name never has more readable logs than it began with (or one) plus one per lost confirmation or forced fresh start |
| ResumeSessions.BrokenLogIsNeverTouched | src/gdrive_turbo_copy/resume_store.py:181-192 | Through every run an unreadable log keeps its content, and stays in the folder if and only if no clean-up trashes it |

## Left out

- Google client, authentication, media, query strings, CLI, notebook and logging: foreign I/O; the client is its answers.
- Clocks and timestamps: a parameter; pacing time is a real that sleeping advances by at least the time asked.
- JSON text and SHA-256: a log is the value it parses to, the hash an arbitrary function of the value without the hash. NaN and infinities are not numbers here.
- Properties of a log the code never reads: they are hashed and kept by migration in the source and are not part of RawLog.
- classify_error, parse_http_error and Retry-After parsing: single-branch tables; their answers are inputs of Retry.
- Floating-point rounding of rates, tokens, sizes and the byte budget: reals and integers.
- Drive's own consistency and searches limited to ten results: listings and searches show the current state.
- Folder descriptions, modification times and visibility flags sent with a copy.
- run()'s preflight checks and the refusal messages around them, except the ancestor search.
- NullPacer, make_pacer, export_failed_report, the failed report that a clean-up also trashes, progress reports: only easy members.
- NAME_SIZE and NAME_ONLY in the counting theorems: size is not an equivalence compatible with md5. Index agreement and the dry-run theorem cover all modes.
- SyncRuns.CrashRestartConverges: all runs of a history list the source with one exclude_substrings filter and see the same files; tags agree with content; a folder keeps one destination per name (FolderResolution says when it does not); a run in which a source listing or a folder creation fails is one that did not complete.
- SkipSafety.SkipSafeExactlyWhenSeparable: every name of the source is reachable by the walk; histories without cut listings, lost confirmations and overlapping visits, which break the counts with or without skipping (SkippingConverges covers them in the safe direction). The condition is for any number of workers. A folder completed under one exclude_substrings filter and skipped under another is not modelled. With fast_list nothing below the root is recorded or skipped.
- FolderResolution.OneFolderExactlyWhenNoSlip: one thread creates folders, as in the source; tagged folders are not moved or trashed by others between runs; the number of attempts of a creation is not bounded.
- StoreRuns.OneFolderWithTheRightFiles: for histories in which no folder slips; FolderResolution says exactly when one does, lost and repeated creations included.
- Listing.ListChildren: name exclusions are part of what the client answers; a fatal quota error, which unwinds the run, is not an answer.
- Traversal.BatchedTraversalRefinesDefault: compares which files are considered under which source folder; which of two equal files of a level is served by an existing one may differ, only their number is the same (FastListLoss.SameFilesAreServed).
- FastWalk.FastWalker.ProcessLevelFast: records what is considered and creates no destination folders; only folders of the source graph have children to show.
- Copier.CopyEngine.ProcessLevel: one worker, no stop, no byte budget, destination listings that are whole (a cut one is a step of SyncRuns); stops and budgets are in CopyProtocol, crashes and skipping in SyncRuns.
- Copier.CopyEngine.CopyFolder: completed folders are not skipped here (SkipSafety); calls fail per id, the same way each time.
- Copier.CopyEngine.SettleFile: no byte budget (CopyProtocol); the outcome of a copy is given per id.
- Copier.CopyEngine.GetOrCreateFolder: finding a folder by search reads the whole store.
- EngineHistories.EngineRunIsHistory: a real run with checksums, one worker and no budget, in which searches get through, every folder is listed under one parent and reached once, and no listing shows a file twice. Steps that only several workers or a crash make are in SyncRuns.
- EngineHistories.EngineConverges: copies and creations get through and no file is above the single-file cap; failures in earlier runs are covered by the history before.
- DryRun.DryRunPredictsRealRun: one worker, no budget, no folder reached twice, no failing copy, verification, search or creation; source listings may fail and shortcuts be broken; files have non-empty ids.
- CopyProtocol.EqualFilesFillTheBudget: sizes are positive and no file is above the single-file cap.
- CopyProtocol.AtMostOneLateCopyPerThread: a copy is one file; the submission queue between main thread and workers is the shared queue of the model.
- Pacer.AdaptivePacer.Acquire: the class method runs undisturbed; PacerThreads interleaves any number of threads.
- Pacer.AdaptivePacer.TakeTokens: likewise.
- PacerTheory.WindowBound: requires the floor not above the ceiling and a backoff between 0 and 1, as the defaults have.
- Limiter.LimiterIsSafeAndLive: fairness between waiters is not promised by the source and not stated.
- Retry.Exec: at least one answer per possible attempt is given; slot, pacer and log are one thread's view.
- ResumeLog.WrittenLogIsRead: id lists hold strings; the source keeps other hashable members of a list, here such a log is unreadable. A folder_map given as a list of pairs is unreadable too.
- ResumeStore.Store.Load: all listed logs are read before the merge, while the source reads each in turn; the outcome is the same.
- ResumeSessions.NothingIsForgotten: one session per log name at a time; two processes of one account, or two accounts whose sanitised names coincide, overwrite each other in the source. A log nobody else edits or deletes.
- Thread-pool internals, mutation of the state while it is serialized, and concurrent saves.
- failed_items after _reconcile_failed: the persisted list is not kept equal to unresolved plus new, so nothing is claimed about it.
