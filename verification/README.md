# Verification of the factory orchestrator's execution core

A Dafny model of the path a GitHub delivery takes through the orchestrator: recorded in the ledger,
claimed by the worker, routed, run by a role in an environment of its own, chained to what follows,
and swept up again when something was lost. Beside it stand the self-contained algorithms on that
path: the promotion protocol, the git working copies, the glob compiler and the question list.
`dafny verify dfyconfig.toml` checks all of it.

| module | models | main results |
|---|---|---|
| `Keys` | thread keys and environment ids as strings | no two issues or environments share one |
| `Deliveries` | ledger rows, lock table, lines, slots, crashes as a transition system | per-issue order, lock-table soundness, conservation, the queue drains |
| `DeliveryWorker` | `Ledger` and the worker loop as objects | each method is one step of `Deliveries` |
| `LockOrder` | what deliveries, runs, questions and deleters block on | one order, no deadlock, everything that comes is done, one run per copy, one train at a time |
| `Environments` | `hold`'s bookkeeping beside `sweep` and `discard` | no deletion under a live run |
| `Git` | a small git: commits, refs, index, working tree, stash, ignored files | reset correctness, any edit is kept, the working tree comes back file for file |
| `Promotion` | merges, closings and handlers interleaving look by look and write by write | exactly when it ships early, exactly when a wake-up is lost |
| `Chain` | routing, fan and chain rounds on a durable thread | exactly once, what is decided is sent and done, no run twice in a round, bounded |
| `Reconcile`, `StagingGate` | the sweep's decisions, restarts, the expedite map | exact decisions, bounded restarts, no role out of turn or unasked for, exactly what writes to staging |
| `Glob` | `_glob_re`, a parser and meaning for the regular expressions it writes | the compiled text means the glob |
| `Questions` | printing and reading the question list | round trips for all good lists and for all comments |
| `Observe` | test, fix, push | a push follows a green test exactly while there is a test command, and sends what was tested exactly when |

## What the code does not promise

Read closely, the code departs from what one would like to prove in these places. Each is named with
the lemma that shows it, and the main results say when the code does keep the property.

- A staged edit undone in the working tree makes `save_wip` commit nothing, and the branch's unpushed
  commits are not kept (`Git.StagedThenUndoneLosesCommits`, `Git.SavesExactlyWhen`).
- A left `index.lock`, or a lock on the branch, makes `save_wip` keep nothing of a dirty copy, although
  the reset that follows would have cleared the first (`Git.LeftLockLosesWork`).
- Work saved as the first commit of a branch cannot be un-committed on restore: the copy stays on the
  branch with it and the record is dropped (`Git.FirstCommitIsSaved`, `Git.WorkSurvivesReset`).
- An ignored untracked file at a path GitHub's default branch tracks does not survive the round trip, though
  every other file of the working tree does (`Git.TreeAfterRoundTrip`).
- A tag named like a local branch makes `_reset` fail at `branch -D`, and a left `config.lock` makes it
  fail at once (`Git.WorkingCopy.ResetToGitHub`); the copy is then made afresh, and work on a branch a tag
  hides is not kept (`Git.SavesExactlyWhen`).
- A torn `meta.json` read gives a fresh lock, and the home may go while a run is in it; nothing else
  makes it so (`Environments.DeletesUnderARunOnlyIfTorn`).
- A run whose `on_wait` raises stays listed as waiting for good (`Environments.GivenUpStaysListed`).
- Moving an epic on is two label writes. A handler that breaks off between them leaves the epic with
  neither label, and no later event finds it (`Promotion.WakeUpCanBeLost`, `Promotion.LostForGood`).
- Epic references are substring tests, so an open promotion of epic 12 holds epic 1 back
  (`Promotion.MentionsExactly`, `Promotion.LongerNumberHoldsEpicBack`).
- A sibling named only by a longer reference is shipped in place of the epic meant, and so is the own
  repo's epic of that number (`Promotion.TouchesUnnamedExactly`, `Promotion.OwnNumberIsTaken`). If that
  happens to the last merge's handler, the release is left waiting (`Promotion.NoLostWakeUp`,
  `Promotion.OwnNumberLosesIt`).
- A label that cannot be taken off is taken to be gone, so an epic can keep both (`Promotion.MayKeepBothLabels`).
- Only open PRs are waited for. One closed unmerged, not opened yet, or in a repo that cannot be opened
  does not hold the release back, and one reopened later is open when it ships (`Promotion.EarlyExactly`,
  `Promotion.UnopenedRepoIsPassedOver`). Closing the last one is no event, so nothing ships
  (`Promotion.ClosedLastLosesIt`).
- One repo whose pulls cannot be listed leaves the release waiting (`Promotion.UnlistedRepoWaits`). The
  ledger drops a repeated guid, so it takes a new delivery (`Promotion.OnlyNewDeliveryHelps`); only a
  handler cut off by a crash starts again by itself (`Promotion.CrashIsHandledAgain`).
- A failed round only puts a release off (`Chain.FailureOnlyDefersRelease`).
- Every expedited task that is idle at `factory:ready-to-ship` while its epic still waits at gate GS is
  released with staging open (`StagingGate.GetsToStagingExactly`). A release decided on earlier gets there
  on any issue that is moved to `factory:epic-ready` before it starts (`StagingGate.MovedBeforeItStarts`).
- The test command is read again each round, so an agent that removes it gets a red suite pushed
  (`Observe.CommandRemovedIsPushed`). The tests run on the working tree and the push sends HEAD, so an
  uncommitted edit is tested and not pushed, and what the tests check out is pushed
  (`Observe.UncommittedEditIsTestedNotPushed`, `Observe.TestsThatMoveHeadArePushed`).
- A double star and slash inside a name takes the rest of that directory's name with it
  (`Glob.MidSegmentDiffers`).
- A usage-limit text with a minute above 59 makes the sweep raise (`Reconcile.DecisionIsExact`).

## Assumptions

- `received_at` is distinct and follows insert order, so the ledger's rows are a sequence. The worker's
  ledger writes do not raise. If `finish_delivery` raised, the key's count would never be dropped
  (webhook.py:139-145).
- `asyncio.Lock` is first come, first served, and a task queues on its lock when it is created.
  `threading.Lock` is not, so nothing is claimed about who of several waiting runs gets a turn next.
- Each guarded block, ledger statement, label change and look at a repo is one step; a remote answer is
  whatever the step says it is.
- One ignore predicate holds for the whole of a reset: `git clean` runs while the old HEAD is still
  checked out (issue_workspaces.py:613-615), and ignore rules tracked in git could differ by then.
- A copy holds no git repository of its own below it: `git clean -fd` spares those, and `git add` records
  them as links.
- No path is a file in one tree and a directory in another.
- A work-in-progress commit is new: no remote already fetched has it (`Git.FreshWip`).
- A deleter tries its lock without waiting. `LockOrder` lets it wait, which is the harder case for
  progress; `Environments` has it as written.
- The guards around the tables themselves (issue_workspaces.py:145, repo_cache.py:56, role_runner.py:426,
  ask.py:80) and a live log's lock are held for a few statements that wait for nothing; they are part of
  the steps, not resources.
- The default thread pool of `asyncio.to_thread` is a resource of `LockOrder`. The pool on which one graph
  invocation fans out its own runs is not: it serves that invocation alone, and only makes runs start later.
- Queues and locks are keyed by values. Their printed keys are as distinct as those
  (`Keys.ThreadsAreApart`, `Keys.EnvironmentsAreApart`), as owner names hold no `/` and repo names no
  `#` or `@`.
- In the interleaving of `Promotion` a repo has one promotion PR for the epic followed, titled with its
  number and in the epic's home or mentioning it, and none has merged or been closed at the start. What
  stands on GitHub beside it, such as other epics of the same number, is what each check says.
- `discard` and `sweep` are proved as loops with nothing beside them (`Environments.IssueWorkspaces.Discard`,
  `Sweep`); what runs may do between their tries is in the steps of `Environments`.
- Reading which epics a promotion means is one step, and reading one repo's pulls another.
- No local branch has a name beginning with `heads/`, and a merge under way on a branch without a commit
  does not occur (`Git.MergesOntoACommit`).
- The sweep sees the newest 20 runs (reconcile.py:303), so a stretch longer than that can be restarted
  again.
- `\d` is an ASCII digit in the question list. Marker and head texts are compared in any case, with the
  four letters beyond ASCII that Python's `re.IGNORECASE` also matches.

## Model

| member | source | states |
|---|---|---|
| `Deliveries.ReachableIsSafe` | orchestrator/src/factory_orchestrator/webhook.py:101-145 | From an empty start, through any interleaving of recordings, claims, lock and slot takings, finishes, crashes and restarts, the worker's table, lines, tasks and the ledger's rows fit together (the invariant below) |
| `Deliveries.EveryRunKeepsInv` | orchestrator/src/factory_orchestrator/webhook.py:101-145 | The same from any good state: every run of steps keeps the invariant |
| `Deliveries.ClaimByOnes` | orchestrator/src/factory_orchestrator/ledger.py:126-141 | Claiming a batch of n is claiming the oldest pending row and then a batch of n-1: rows and returned list alike |
| `Deliveries.IssueOrder` | orchestrator/src/factory_orchestrator/webhook.py:101-145 | In every good state the deliveries of an issue read, in arrival order, finished, then exactly the line of the issue's lock, holder first, then pending |
| `Deliveries.LineIsTasks` | orchestrator/src/factory_orchestrator/webhook.py:114-125 | The line of an issue's lock lists each live task of the issue once and nothing else |
| `Deliveries.LockTableSound` | orchestrator/src/factory_orchestrator/webhook.py:114-145 | An issue has a lock in the table iff it has live tasks; its count is the number of them; they all hold that one lock object; at most one of them runs, and at most `concurrency` run in all |
| `Deliveries.FinishedStays` | orchestrator/src/factory_orchestrator/ledger.py:143-152 | A finished delivery is never touched again and no later step finishes it again, across crashes |
| `Deliveries.FinishedByFinish` | orchestrator/src/factory_orchestrator/webhook.py:127-145 | A row becomes done by its own finish step without an error, failed by its own with one, and finished by no other step |
| `Deliveries.Conservation` | orchestrator/src/factory_orchestrator/ledger.py:82-95 | Along any run a recorded delivery keeps its place, guid and key, is finished at most once, and is done exactly when the run holds its finish step without an error, failed exactly when it holds the one with |
| `Deliveries.RowsAreRecordings` | orchestrator/src/factory_orchestrator/ledger.py:82-95 | From an empty start, through any run, the ledger has a row for exactly the deliveries recorded in it, each for the issue it was first recorded for |
| `Deliveries.CrashLosesNothing` | orchestrator/src/factory_orchestrator/ledger.py:154-160 | The processing rows are exactly the live tasks; crash and restart put each of them back to pending and change no other row |
| `Deliveries.WorkerNeverStuck` | orchestrator/src/factory_orchestrator/webhook.py:101-145 | While a delivery is unfinished and the worker is up, the worker has a move that does something |
| `Deliveries.QueueDrains` | orchestrator/src/factory_orchestrator/webhook.py:101-145 | With no crash and nothing new, every sequence of the worker's moves is bounded, and when none is left every delivery is finished |
| `Keys.ThreadsAreApart` | orchestrator/src/factory_orchestrator/webhook.py:65-71 | Two deliveries have one thread key iff they name the same repo and the same issue |
| `Keys.EnvironmentsAreApart` | orchestrator/src/factory_orchestrator/issue_workspaces.py:157-159 | Two environments have one id iff they are the same place of the same repo; staging and an issue never share one |
| `DeliveryWorker.TakesNext` | orchestrator/src/factory_orchestrator/ledger.py:126-141 | The j-th row of a batch is the only row its update touches and comes next in claim order |
| `DeliveryWorker.TakenIsNext` | orchestrator/src/factory_orchestrator/ledger.py:131-141 | Updating by guid where the row is still pending makes exactly the next claim of the batch, and always hits |
| `DeliveryWorker.AllSelected` | orchestrator/src/factory_orchestrator/ledger.py:126-141 | A batch never exceeds its limit, and a short one took every pending row |
| `DeliveryWorker.Ledger.RecordDelivery` | orchestrator/src/factory_orchestrator/ledger.py:82-95 | Appends a pending row unless the guid is known; the answer says which |
| `DeliveryWorker.Ledger.ClaimPending` | orchestrator/src/factory_orchestrator/ledger.py:126-141 | The loop over the selected rows claims exactly the oldest `limit` pending rows, in order |
| `DeliveryWorker.Ledger.FinishDelivery` | orchestrator/src/factory_orchestrator/ledger.py:143-152 | Stamps the row of that guid done or failed and no other |
| `DeliveryWorker.Ledger.RequeueProcessing` | orchestrator/src/factory_orchestrator/ledger.py:154-160 | Every processing row is pending again, no other row changes, and the count is returned |
| `DeliveryWorker.Worker.Start` | orchestrator/src/factory_orchestrator/webhook.py:101-108 | Starting is the restart step: requeue, with an empty memory; the invariant holds |
| `DeliveryWorker.Worker.Pass` | orchestrator/src/factory_orchestrator/webhook.py:109-125 | One pass of the loop is one claim step: the batch is claimed and a task queued for each row in claim order; the invariant holds |
| `DeliveryWorker.Worker.Spawn` | orchestrator/src/factory_orchestrator/webhook.py:114-123 | Finds or makes the key's lock, counts the task, and queues it last |
| `DeliveryWorker.Worker.Begin` | orchestrator/src/factory_orchestrator/webhook.py:127-131 | The head of an issue's line takes a slot; the invariant holds |
| `DeliveryWorker.Worker.End` | orchestrator/src/factory_orchestrator/webhook.py:131-145 | Finishing stamps the row of that delivery done if its processing returned and failed if it raised, no other row, leaves lock and slot, drops the count and with the last count the lock; the invariant holds |
| `LockOrder.RunClimbs` | orchestrator/src/factory_orchestrator/graph.py:445-488 | Whatever `build_environment` and `train_turn` choose, a role run acquires strictly upwards and gives everything back |
| `LockOrder.EveryJobClimbs` | orchestrator/src/factory_orchestrator/role_runner.py:316-331 | Deliveries, role runs, questions and deleters all acquire in one strict order, the factory checkout's lock last, and end holding nothing |
| `LockOrder.TakesExactly` | orchestrator/src/factory_orchestrator/role_runner.py:316-331 | Which locks and slots, besides turns, each kind of job takes: its issue, its conversation, the caches of the repos it reads or has to copy, pool slots |
| `LockOrder.EventKeepsInv` | orchestrator/src/factory_orchestrator/role_runner.py:530-572 | Any arrival and any step keeps each lock to one holder and each pool within its size |
| `LockOrder.StepTakesOrGives` | orchestrator/src/factory_orchestrator/role_runner.py:530-572 | A step that acquires takes a free lock or slot, one that frees gives it back, and no other holding changes |
| `LockOrder.ReachableInv` | orchestrator/src/factory_orchestrator/graph.py:560-628 | So in every reachable state, with any number of jobs |
| `LockOrder.SomeoneMoves` | orchestrator/src/factory_orchestrator/ask.py:449-451 | Deadlock freedom: from any unfinished job, following who it waits for ends at a job that can step |
| `LockOrder.EverythingFinishes` | orchestrator/src/factory_orchestrator/graph.py:560-628 | Every way of stepping on from a good state is bounded in length, and when no job can step all have finished |
| `LockOrder.EverythingIsDone` | orchestrator/src/factory_orchestrator/graph.py:366-395 | Once no job can go on, the system holds exactly the jobs that came, all finished, and for each delivery exactly the runs of its rounds, in order, all finished |
| `LockOrder.WaitersHoldNoSession` | orchestrator/src/factory_orchestrator/role_runner.py:455-456 | A run waiting for a staging or environment turn holds no session slot |
| `LockOrder.SessionHoldsExactly` | orchestrator/src/factory_orchestrator/graph.py:445-488 | In its session a run that is no release holds its own issue's turn and no other; a task's release its epic's, or its own and the staging turn of its epic's repo; any other release its repo's staging turn |
| `LockOrder.OneRunPerCopy` | orchestrator/src/factory_orchestrator/graph.py:445-488 | No two runs that work in one issue's copy are ever in session together |
| `LockOrder.OneStagingTurnEach` | orchestrator/src/factory_orchestrator/graph.py:473-488 | No job ever holds two staging turns |
| `LockOrder.TrainHoldsStaging` | orchestrator/src/factory_orchestrator/graph.py:445-488 | A run on a home's release train that is in its session holds that home's staging turn |
| `LockOrder.OneTrain` | orchestrator/src/factory_orchestrator/graph.py:613-628 | No two runs of one home's release train are in a session at once |
| `Environments.WithoutRemoves` | orchestrator/src/factory_orchestrator/issue_workspaces.py:184-191 | Taking a waiter out of a queue removes that waiter and no other |
| `Environments.StepKeepsInv` | orchestrator/src/factory_orchestrator/issue_workspaces.py:168-206 | Every step of `hold`, a raising `on_wait` included, of `mark`, `sweep` and `discard` keeps queues, holders and locks in agreement with who waits, holds and runs |
| `Environments.RunKeepsInv` | orchestrator/src/factory_orchestrator/issue_workspaces.py:168-276 | So does every run of such steps |
| `Environments.NoDeletionUnderARun` | orchestrator/src/factory_orchestrator/issue_workspaces.py:237-276 | With every meta.json read whole: a copy is deleted only while its turn is free and never a staging copy; one run at most is in an environment; the shown holder is the run that owns the turn |
| `Environments.TornReadMayDelete` | orchestrator/src/factory_orchestrator/issue_workspaces.py:548-558 | From any state in which a home's meta.json is read torn, some continuation deletes it under a live run, staging or not |
| `Environments.WholeReadHolds` | orchestrator/src/factory_orchestrator/issue_workspaces.py:548-558 | A deleter that read it whole has the home's lock until it is done |
| `Environments.DeletesUnderARunOnlyIfTorn` | orchestrator/src/factory_orchestrator/issue_workspaces.py:548-558 | A try can end in a deletion under a live run if and only if its meta.json was not read whole, from any state, whatever else goes on |
| `Environments.GivenUpStaysListed` | orchestrator/src/factory_orchestrator/issue_workspaces.py:180-191 | An entry whose run gave up while listed stays in the queue for good |
| `Environments.PickersSpareStaging` | orchestrator/src/factory_orchestrator/issue_workspaces.py:237-276 | `sweep` and `discard` pick only issue homes, or a home whose meta.json they could not read |
| `Environments.IssueWorkspaces.TryHold` | orchestrator/src/factory_orchestrator/issue_workspaces.py:176-180 | The first, non-blocking try: the turn is taken exactly when it was free |
| `Environments.IssueWorkspaces.Enlist` | orchestrator/src/factory_orchestrator/issue_workspaces.py:181-182 | A refused run is listed last in its environment's queue |
| `Environments.IssueWorkspaces.Delist` | orchestrator/src/factory_orchestrator/issue_workspaces.py:185-191 | After the wait its own entry leaves the queue, no other; an empty queue is dropped |
| `Environments.IssueWorkspaces.ShowHolder` | orchestrator/src/factory_orchestrator/issue_workspaces.py:192-194 | The run is shown as holder |
| `Environments.IssueWorkspaces.MarkState` | orchestrator/src/factory_orchestrator/issue_workspaces.py:200-206 | Changes the state text of a shown holder and nothing else |
| `Environments.IssueWorkspaces.LetGo` | orchestrator/src/factory_orchestrator/issue_workspaces.py:195-198 | Hidden first, released after |
| `Environments.IssueWorkspaces.Abandon` | orchestrator/src/factory_orchestrator/issue_workspaces.py:181-184 | When `on_wait` raises the run is gone and its entry is not |
| `Environments.IssueWorkspaces.Remove` | orchestrator/src/factory_orchestrator/issue_workspaces.py:548-558 | A home in use is left alone, a free one deleted under its lock, an unreadable one deleted regardless |
| `Environments.IssueWorkspaces.Discard` | orchestrator/src/factory_orchestrator/issue_workspaces.py:237-251 | Every copy of the closed issue and every copy naming it as its epic goes unless in use, and no other; the number gone is returned |
| `Environments.IssueWorkspaces.Sweep` | orchestrator/src/factory_orchestrator/issue_workspaces.py:253-276 | Every readable issue copy that is due goes unless in use, no staging environment, and every copy that cannot be read; the number gone is returned |
| `Git.BundleConnects` | orchestrator/src/factory_orchestrator/issue_workspaces.py:395-422 | A bundle made without commits a copy has always unpacks there |
| `Git.UnpackedExactly` | orchestrator/src/factory_orchestrator/issue_workspaces.py:410-422 | A bundle adds exactly the commits below its tip that are below none of the refs left out |
| `Git.ResetForcesGitHub` | orchestrator/src/factory_orchestrator/issue_workspaces.py:593-625 | After a reset that goes through: HEAD on the default branch at GitHub's tip; every local branch is GitHub's; no stash, staged edit, merge or half-finished operation; tracked files are the tip's; what else is left is exactly the ignored untracked files, untouched |
| `Git.ResetTwice` | orchestrator/src/factory_orchestrator/issue_workspaces.py:593-625 | A second reset against the same GitHub changes nothing but unreferenced objects |
| `Git.SavesExactlyWhen` | orchestrator/src/factory_orchestrator/issue_workspaces.py:375-422 | Work is kept iff the copy is on a task branch, some file git looks at was written, added or taken away, or commits are unpushed or a merge is under way, no left lock is in the way, and it is not the one state where `commit` has nothing to commit |
| `Git.OneEditIsKept` | orchestrator/src/factory_orchestrator/issue_workspaces.py:392-404 | On a task branch without locks any one file changed, added or removed, new files included, is enough for the work to be kept |
| `Git.StagedThenUndoneLosesCommits` | orchestrator/src/factory_orchestrator/issue_workspaces.py:392-404 | In that state a branch with unpushed commits is not kept |
| `Git.LeftLockLosesWork` | orchestrator/src/factory_orchestrator/issue_workspaces.py:392-422 | With the index's lock left by a killed command, edits and unpushed commits are not kept, which without the lock they would be |
| `Git.RestoreOutcomes` | orchestrator/src/factory_orchestrator/issue_workspaces.py:424-470 | Exactly when work comes back, is dropped or gets stuck; dropped work leaves the copy as reset made it |
| `Git.RestoreKeepsSound` | orchestrator/src/factory_orchestrator/issue_workspaces.py:424-470 | After a restore every ref still names a commit that is there, with all its history |
| `Git.WorkComesBack` | orchestrator/src/factory_orchestrator/issue_workspaces.py:424-470 | In any copy prepared afterwards, saved work can be used iff the record is fresh, its bundle unpacks there and GitHub's branch is gone or behind the kept tip; then, if the run's branch had a commit, it comes back with branch, commit and every file not ignored as the run left them, and if not it stays committed as the branch's first commit; else the copy is as prepared |
| `Git.WorkSurvivesReset` | orchestrator/src/factory_orchestrator/issue_workspaces.py:375-470 | Save, any reset that goes through, restore: work comes back, exactly as the run left it, iff the record is fresh, GitHub's branch is gone or behind the kept tip and the branch had a commit; without one it is stuck as that first commit, iff the rest holds |
| `Git.TreeAfterRoundTrip` | orchestrator/src/factory_orchestrator/issue_workspaces.py:375-470 | The working tree after save, reset and restore is the one saved, file for file, but for ignored untracked files at paths GitHub's default branch tracks |
| `Git.UnmovedBranchTakesItBack` | orchestrator/src/factory_orchestrator/issue_workspaces.py:424-470 | Within three days, with GitHub's branch where the run's branch was or absent, saved work always comes back |
| `Git.FirstCommitIsSaved` | orchestrator/src/factory_orchestrator/issue_workspaces.py:375-422 | A task branch without a commit has its work saved like any other, so work can get stuck |
| `Git.WorkSurvivesClone` | orchestrator/src/factory_orchestrator/issue_workspaces.py:209-236 | The same through a fresh clone, if the bundle unpacks there |
| `Git.WorkingCopy.MatchBranches` | orchestrator/src/factory_orchestrator/issue_workspaces.py:616-625 | The loop over the local branches leaves each at GitHub's commit, or gone, and goes through exactly when no tag hides a branch |
| `Git.WorkingCopy.ResetToGitHub` | orchestrator/src/factory_orchestrator/issue_workspaces.py:593-625 | Step by step it is the reset specified; it fails exactly when GitHub does not answer or lacks its default branch, a killed command left a ref or the config locked, or a tag hides a local branch |
| `Git.WorkingCopy.ForceTo` | orchestrator/src/factory_orchestrator/issue_workspaces.py:613-625 | The steps after `reset --hard`: clean, clear the stash, check out the default branch, match the others |
| `Git.WorkingCopy.Prepare` | orchestrator/src/factory_orchestrator/issue_workspaces.py:209-236 | The copy handed to a run is at GitHub's state, reset or cloned afresh |
| `Git.WorkingCopy.SaveWip` | orchestrator/src/factory_orchestrator/issue_workspaces.py:375-422 | Step by step it is the save specified; an earlier record never survives it |
| `Git.WorkingCopy.RestoreWip` | orchestrator/src/factory_orchestrator/issue_workspaces.py:424-470 | Step by step it is the restore specified; anything but success drops the record, and the temporary ref never stays |
| `Promotion.OpenPromotions` | orchestrator/src/factory_orchestrator/router.py:620-640 | Lists exactly the repos that still wait: an open promotion naming the epic, or pulls that cannot be listed; empty iff none waits |
| `Promotion.FirstNamed` | orchestrator/src/factory_orchestrator/router.py:609-618 | The first sibling the body names that has such an epic waiting, and none exactly when there is none |
| `Promotion.Promoted` | orchestrator/src/factory_orchestrator/router.py:599-618 | Each number ships from its one place: its own repo if that has such an epic, else the first named sibling; numbers without a place are left out, and nothing else is in the list |
| `Promotion.PromotedEpics` | orchestrator/src/factory_orchestrator/router.py:599-618 | The loops compute that list, in the order of the numbers |
| `Promotion.MentionsExactly` | orchestrator/src/factory_orchestrator/router.py:633-640 | The substring `repo#n` is found exactly when the text names, by itself, some reference whose number begins with the digits of n, in a repo whose name ends with this one |
| `Promotion.MentionsMisleads` | orchestrator/src/factory_orchestrator/router.py:609-611 | Substring and reference part exactly on a text that names a longer reference and not this one |
| `Promotion.WaitsExactly` | orchestrator/src/factory_orchestrator/router.py:620-640 | When a repo is waited for, in terms of what its open promotions really name |
| `Promotion.LongerNumberHoldsEpicBack` | orchestrator/src/factory_orchestrator/router.py:633-640 | An open promotion of m alone holds n back wherever the digits of m begin with those of n, and its own handler ships nothing of n |
| `Promotion.TouchesUnnamedExactly` | orchestrator/src/factory_orchestrator/router.py:599-618 | A handler touches a sibling's epic its promotion does not name exactly when that sibling is the first substring hit for a number its own repo does not ship, by a longer reference alone |
| `Promotion.FoundExactly` | orchestrator/src/factory_orchestrator/router.py:599-618 | The followed epic is found exactly in its own repo where it ships, or elsewhere if neither the handler's own repo nor a sibling asked before has one of that number |
| `Promotion.OwnNumberIsTaken` | orchestrator/src/factory_orchestrator/router.py:604-608 | A repo that ships an epic of the same number itself always comes first |
| `Promotion.MergeCount` | orchestrator/src/factory_orchestrator/router.py:566-597 | All PRs are merged exactly when as many merges happened as there are PRs |
| `Promotion.StepKeepsInv` | orchestrator/src/factory_orchestrator/router.py:566-682 | Every opening, merge, closing and reopening of a PR, every delivery, check, single look, decision, label write, failure and crash keeps the protocol's invariant |
| `Promotion.NeverDeployedEarly` | orchestrator/src/factory_orchestrator/router.py:620-682 | When an epic has lost `factory:in-staging` or got `factory:deployed`, each of its PRs has merged, or was not open at the start, was closed, or was passed over because its repo could not be opened; none is open unless one was opened, reopened or passed over on the way |
| `Promotion.EarlyExactly` | orchestrator/src/factory_orchestrator/router.py:566-597 | A release can be deployed before all its PRs merged iff it has two PRs or more, even with one reopened and open; with nobody opening, closing or reopening and every repo opened, iff one was not open at the start |
| `Promotion.UnopenedRepoIsPassedOver` | orchestrator/src/factory_orchestrator/router.py:544-563 | Any release of two or more can be deployed by merges alone while one PR is still open, whose repo could not be opened |
| `Promotion.LastSawAll` | orchestrator/src/factory_orchestrator/router.py:620-671 | The handler of the last merge's event, ending without an error with every repo readable, leaves the epic deployed, unless it did not find the epic, or a handler is between its two label writes or broke off there |
| `Promotion.NoLostWakeUp` | orchestrator/src/factory_orchestrator/router.py:566-682 | Once every PR is merged and handled, whatever the interleaving, duplicates, closings and other failures: the epic is not deployed exactly when a handler broke off between its two label writes, or the last merge's handler did not find the epic, and no handler got through both writes |
| `Promotion.FoundUnlessInTheWay` | orchestrator/src/factory_orchestrator/router.py:599-618 | A waiting epic is found from its home, and from a repo with no such number of its own and no nearer sibling with one that the text mentions |
| `Promotion.NoneMisses` | orchestrator/src/factory_orchestrator/router.py:599-618 | With nothing in the way at any check, no handler of any run misses the epic while it waits |
| `Promotion.WakesUp` | orchestrator/src/factory_orchestrator/router.py:566-682 | Then, with nobody breaking off between the writes, every release merged and handled is deployed |
| `Promotion.BreakingOffStrands` | orchestrator/src/factory_orchestrator/router.py:675-682 | Breaking off there, by an error or a crash, strands the epic with neither label exactly when no other handler is past its check |
| `Promotion.LostForGood` | orchestrator/src/factory_orchestrator/router.py:599-604 | A stranded epic stays so through every continuation, new deliveries included |
| `Promotion.WakeUpCanBeLost` | orchestrator/src/factory_orchestrator/router.py:675-682 | Every release can come to that with all its merges handled without an error but one |
| `Promotion.OwnNumberLosesIt` | orchestrator/src/factory_orchestrator/router.py:604-608 | Every release with a PR outside the epic's home can be left waiting, all merged and handled and nobody breaking off, by an epic of the same number in that PR's repo |
| `Promotion.ClosedLastLosesIt` | orchestrator/src/factory_orchestrator/router.py:580-583 | Every release can be left waiting with no PR open, when the last one is closed unmerged |
| `Promotion.HandledToTheEnd` | orchestrator/src/factory_orchestrator/router.py:566-682 | With no promotion PR open, one event handled without trouble deploys the epic |
| `Promotion.MayKeepBothLabels` | orchestrator/src/factory_orchestrator/router.py:673-682 | With no promotion PR open, an event handled while taking the old label off fails leaves the epic with both labels, still to be shipped by the next |
| `Promotion.UnlistedRepoWaits` | orchestrator/src/factory_orchestrator/router.py:626-632 | One repo whose pulls cannot be listed leaves the release waiting, even in the last merge's handler |
| `Promotion.QuietStays` | orchestrator/src/factory_orchestrator/ledger.py:82-95 | With all handlers over, nothing but a delivery with a new guid changes the epic's labels |
| `Promotion.OnlyNewDeliveryHelps` | orchestrator/src/factory_orchestrator/ledger.py:82-95 | A merged release left waiting stays so through every repeated delivery and every other step; with none open a new delivery may still deploy it |
| `Promotion.CrashIsHandledAgain` | orchestrator/src/factory_orchestrator/ledger.py:154-160 | A handler cut off by a crash anywhere but between its writes is handled again without any delivery, and may deploy |
| `Chain.NoRunSentTwice` | orchestrator/src/factory_orchestrator/graph.py:366-395 | A round never sends one (role, issue, repo) twice iff its pending list spells each run one way |
| `Chain.BothSpellingsAreSent` | orchestrator/src/factory_orchestrator/graph.py:371-378 | The de-duplication alone would send a run named with and without its repo twice |
| `Chain.RoutedIsDistinct` | orchestrator/src/factory_orchestrator/graph.py:230-233 | What the router decides spells each run one way: the event's own repo left out, every other spelled out |
| `Chain.ChainedRoundsAreDistinct` | orchestrator/src/factory_orchestrator/graph.py:287-364 | So does what a chain step adds |
| `Chain.ChainsExactlyOnce` | orchestrator/src/factory_orchestrator/graph.py:230-395 | Over any invocations of a durable thread, cut short or not: no completion is looked at twice, each is looked at before its invocation goes on, `release_chain` is entered at most once per invocation, no round is sent at its cap, and no round sends one (role, issue, repo) twice |
| `Chain.ChainLooksAtItsOwn` | orchestrator/src/factory_orchestrator/graph.py:248-254 | A chain step looks at exactly its invocation's unexamined completions, never an earlier invocation's |
| `Chain.InvocationsEnd` | orchestrator/src/factory_orchestrator/graph.py:366-395 | Every step but a new invocation brings the thread closer to its end |
| `Chain.OnlyIdleStops` | orchestrator/src/factory_orchestrator/graph.py:366-395 | Only an idle thread has no step left |
| `Chain.FanSends` | orchestrator/src/factory_orchestrator/graph.py:366-395 | The fan sends exactly what is pending, each run once, below the cap; goes back to the chain step only for a release still to be opened; and ends otherwise |
| `Chain.ChainedIsSent` | orchestrator/src/factory_orchestrator/graph.py:351-395 | The fan after a chain step sends exactly the runs it asked for and, if it opened the release, the intake of each issue freed; nothing at the cap |
| `Chain.RoutedIsSent` | orchestrator/src/factory_orchestrator/graph.py:230-240 | The first fan of an invocation sends exactly the runs the router decided on |
| `Chain.RoundConserves` | orchestrator/src/factory_orchestrator/graph.py:243-246 | All through a round, the runs that came back and those still out are together, one for one, the runs sent |
| `Chain.DecidedIsDone` | orchestrator/src/factory_orchestrator/graph.py:248-395 | Once the round after a chain step is over, it added one completion for each run the step asked for, with that role, issue and repo, and none besides |
| `Chain.RoutedIsDone` | orchestrator/src/factory_orchestrator/graph.py:217-246 | So it is with what the router decided on, whatever the thread was at before |
| `Chain.RoundsAreBounded` | orchestrator/src/factory_orchestrator/graph.py:366-370 | An uninterrupted invocation takes at most the plain cap of chain steps, and the higher cap only when an expedited issue turns up |
| `Chain.InvocationIsBounded` | orchestrator/src/factory_orchestrator/graph.py:366-370 | A new invocation takes at most four chain steps, or thirty-two once something expedited turns up, whatever came before it on the thread |
| `Chain.FailureOnlyDefersRelease` | orchestrator/src/factory_orchestrator/graph.py:351-395 | A chain step opens a pending release exactly when nothing in its round failed; otherwise another chain step follows unless the cap ends the invocation |
| `Chain.ReleaseOpensUnlessCapped` | orchestrator/src/factory_orchestrator/graph.py:351-395 | So a release asked for is open by the end of its invocation, unless the rounds ran out |
| `Chain.Deduped` | orchestrator/src/factory_orchestrator/graph.py:371-378 | The de-duplicated list has every pending run once, in order of first mention |
| `Chain.ThisRound` | orchestrator/src/factory_orchestrator/graph.py:252-254 | The filter picks exactly this invocation's completions of this round, in order |
| `Chain.FanItems` | orchestrator/src/factory_orchestrator/graph.py:371-378 | The loop of `fan` computes that list |
| `Chain.ChainRound` | orchestrator/src/factory_orchestrator/graph.py:252-254 | The filter and the `failed` test as loops over the durable list |
| `Reconcile.LimitResetIsNext` | orchestrator/src/factory_orchestrator/reconcile.py:89-96 | The reset time is the first instant after the run ended at which a UTC clock with am and pm shows the named time, at most a day later |
| `Reconcile.CountFailures` | orchestrator/src/factory_orchestrator/reconcile.py:170-183 | The loop counts failures of the newest run's role since it last succeeded |
| `Reconcile.TablesAgree` | orchestrator/src/factory_orchestrator/router.py:69-91 | The expedite map starts a role only from a state the role starts from |
| `Reconcile.DecisionIsExact` | orchestrator/src/factory_orchestrator/reconcile.py:121-205 | An idle issue whose last run broke off where its role starts is given up on, waiting or restarted, exactly one of them, each with its exact condition in outcomes, marks and minutes; the sweep raises exactly for a minute no clock has |
| `Reconcile.AdvanceIsExact` | orchestrator/src/factory_orchestrator/reconcile.py:148-153 | In every other case the sweep starts a role iff the issue is idle, expedited, at one of the four states before an automatic role, and twenty minutes have passed |
| `Reconcile.SweepAnswersExactly` | orchestrator/src/factory_orchestrator/reconcile.py:121-153 | A sweep queues a restart for the newest run exactly when it decides on one and has not answered that run before |
| `Reconcile.NewestStays` | orchestrator/src/factory_orchestrator/reconcile.py:303-303 | Ending a run changes nothing a window of finished runs saw |
| `Reconcile.StepKeepsInv` | orchestrator/src/factory_orchestrator/reconcile.py:280-314 | Every label change, start, end and sweep keeps what was true when each restart was queued |
| `Reconcile.WindowCounts` | orchestrator/src/factory_orchestrator/reconcile.py:170-183 | A stretch within the window counts all its failures, and only those where it begins inside the window |
| `Reconcile.RetriedWithinFailures` | orchestrator/src/factory_orchestrator/reconcile.py:121-153 | Within the window, at most `MAX_RETRIES` failures of a stretch are answered by the same role |
| `Reconcile.RestartsAreBounded` | orchestrator/src/factory_orchestrator/reconcile.py:263-314 | Over any history: one restart per run ever, and no three failed runs of a role are answered by that role in a stretch of at most 20 without a success |
| `Reconcile.StatesHas` | orchestrator/src/factory_orchestrator/router.py:710-718 | An issue's states are exactly its `factory:` labels that are not marks (nor, where asked, kinds) |
| `StagingGate.SweepQueuesOk` | orchestrator/src/factory_orchestrator/reconcile.py:121-153 | A queued restart is of a role the state seen leads to: one that broke off, or a code role on an expedited issue, a release then with epic branches |
| `StagingGate.StartTableAgrees` | orchestrator/src/factory_orchestrator/reconcile.py:53-63 | Every state a role starts from is one automation leads on from: by the expedite map, after a plan, at a gate's label, or at intake; and the other way round |
| `StagingGate.GateStaysShut` | orchestrator/src/factory_orchestrator/router.py:935-956 | Whatever happens on an issue, automation decides on no release where the sole state is `factory:epic-ready`; without epic branches it only restarts a release that broke off |
| `StagingGate.OnlyExpeditedOrBrokenOff` | orchestrator/src/factory_orchestrator/router.py:94-128 | Over any history, an implementer, reviewer, QA or release run is decided on only where the marker was on the issue or its task's epic, when automation decided or when the sweep saw it, or to restart a run of that role that broke off |
| `StagingGate.NoRoleOutOfTurn` | orchestrator/src/factory_orchestrator/graph.py:255-349 | Over any history, every run automation decides on found the issue at a state that role follows on, and an implementer, reviewer, QA or release run found it neither blocked nor in progress |
| `StagingGate.RestartsFindTheIssueIdle` | orchestrator/src/factory_orchestrator/router.py:1297-1310 | Over any history, every queued restart that goes ahead found its issue open, at the state seen, not blocked and not in progress |
| `StagingGate.SoleStateExactly` | orchestrator/src/factory_orchestrator/router.py:710-718 | With distinct labels, the sole state is the one state label, if there is exactly one |
| `StagingGate.ExpediteExactly` | orchestrator/src/factory_orchestrator/router.py:935-956 | Which role expedite starts on which sole state, gates included, and that it starts nothing on a blocked or busy issue |
| `StagingGate.ExpediteReleasesExactly` | orchestrator/src/factory_orchestrator/router.py:935-956 | With epic branches expedite starts a release exactly where `factory:ready-to-ship` is the sole state and the issue is neither blocked nor in progress; without them never |
| `StagingGate.LabelStartsOk` | orchestrator/src/factory_orchestrator/router.py:2190-2382 | What a label event starts follows on a label it carries; a code role only with the marker and where expedite would start it |
| `StagingGate.LabelReleasesExactly` | orchestrator/src/factory_orchestrator/router.py:2324-2382 | Of all label events, replayed by the sweep or not, only `factory:expedite` starts a release, exactly where expedite does and the marker is not refused |
| `StagingGate.StepKeepsInv` | orchestrator/src/factory_orchestrator/graph.py:287-349 | Chain steps, expedite, label events, task releases, sweeps and starts all keep it |
| `StagingGate.AutomaticRunsAndStaging` | orchestrator/src/factory_orchestrator/graph.py:491-523 | An automatic run of an issue that is no task may write to staging, where there are epic branches, only if the issue moved after the decision or carries two states; without epic branches only as the restart of a release |
| `StagingGate.MovedBeforeItStarts` | orchestrator/src/factory_orchestrator/graph.py:316-349 | On any issue moved between expedite's decision and the start: the run may write to staging exactly if a release was decided on and the labels as moved allow it |
| `StagingGate.MovedBeforeItsRestart` | orchestrator/src/factory_orchestrator/router.py:1297-1310 | A queued restart on an issue moved since: exactly if it is a release that does not stand down and the labels as moved allow it |
| `StagingGate.GetsToStagingExactly` | orchestrator/src/factory_orchestrator/graph.py:491-523 | On an issue without history that nobody moves, some run of automatic steps may write to staging iff it is an expedited task, idle at the sole state `factory:ready-to-ship`, of an epic at `factory:in-staging` or still at `factory:epic-ready` |
| `StagingGate.TaskWritesExactlyWhileItsEpicWaits` | orchestrator/src/factory_orchestrator/graph.py:508-522 | Over any history, before its epic is at `factory:in-staging` a task's automatic run may write to staging iff it is a release and the epic is at `factory:epic-ready`; the task was ready to ship when it was decided on |
| `Glob.GlobRe` | orchestrator/src/factory_orchestrator/router.py:467-478 | The scan's text, read as a regular expression, accepts on one-line paths what the glob says, for every pattern in the lenient reading and for segment-starting patterns in the strict one |
| `Glob.GlobKeepsMeaning` | orchestrator/src/factory_orchestrator/router.py:467-478 | The same as a law, and the strict reading never accepts a path the expression refuses |
| `Glob.NewlineAfter` | orchestrator/src/factory_orchestrator/router.py:467-478 | A path the pattern means is accepted with a newline after it too |
| `Glob.ParseText` | orchestrator/src/factory_orchestrator/router.py:470-478 | The text of any pieces parses back to what they mean: escaping and juxtaposition change nothing |
| `Glob.CompiledIsLenient` | orchestrator/src/factory_orchestrator/router.py:467-478 | The compiled expression accepts a path iff its pieces fit the path's segments |
| `Glob.ReadingsAgree` | orchestrator/src/factory_orchestrator/router.py:471-472 | Where every double star with a slash starts a segment, strict and lenient readings are one |
| `Glob.StrictIsNarrower` | orchestrator/src/factory_orchestrator/router.py:471-472 | Strictly read, a pattern accepts no more than leniently read |
| `Glob.MidSegmentDiffers` | orchestrator/src/factory_orchestrator/router.py:471-472 | `a**/b` accepts `ax/b`, which whole directories would not |
| `Glob.SegmentGlobStarts` | orchestrator/src/factory_orchestrator/router.py:467-478 | Whether a pattern starts its segments can be read off its text |
| `Glob.TextUnfolds` | orchestrator/src/factory_orchestrator/router.py:469-477 | What each branch of the scan writes and how far it moves |
| `Glob.ProfilePathsMean` | orchestrator/src/factory_orchestrator/router.py:39-44 | Every profile pattern means what its glob says |
| `Glob.AnyDirectory` | orchestrator/src/factory_orchestrator/router.py:39-44 | A double star, a slash and a name accept exactly the paths whose last segment is that name |
| `Glob.JoinSplit` | orchestrator/src/factory_orchestrator/router.py:467-478 | Segments joined with slashes are the path again |
| `Questions.ExtractQuestions` | orchestrator/src/factory_orchestrator/next_step.py:44-73 | The loops compute the list specified: the first head with a question under it, else the lines that ask |
| `Questions.RoundTrip` | orchestrator/src/factory_orchestrator/next_step.py:30-92 | Any list of one-line questions between which no fold, fence or comment opens and closes is read back from its printed block, up to the limit |
| `Questions.PlainRoundTrip` | orchestrator/src/factory_orchestrator/next_step.py:30-92 | One to eight trimmed one-line questions free of opening markers come back whole |
| `Questions.NoticeRepeatsQuestions` | orchestrator/src/factory_orchestrator/next_step.py:44-92 | For every comment: printing the questions read from it and reading that gives the same questions |
| `Questions.ExtractRead` | orchestrator/src/factory_orchestrator/next_step.py:44-73 | Whatever the comment, what is read is trimmed, on one line each, from lines of their own in order, and at most `limit` |
| `Questions.AskedExactly` | orchestrator/src/factory_orchestrator/next_step.py:67-73 | Without a head, the lines that ask are read, all of them, each text once |
| `Questions.WithoutAHead` | orchestrator/src/factory_orchestrator/next_step.py:67-73 | What is then read ends in a question mark and is 8 to 300 long, none twice; short of the limit every line that is such a question as it stands is read |
| `Questions.VisibleIsUnpaired` | orchestrator/src/factory_orchestrator/next_step.py:35-41 | What is visible holds no fold, fence or comment that opens and closes |
| `Questions.CutPaired` | orchestrator/src/factory_orchestrator/next_step.py:38-40 | Removing one kind of marker never makes a pair of any kind, and leaves none of its own |
| `Questions.BlockUnpaired` | orchestrator/src/factory_orchestrator/next_step.py:89-92 | Printing adds no marker pair |
| `Questions.ReadsBackIfAllVisible` | orchestrator/src/factory_orchestrator/next_step.py:44-92 | A block nothing is cut from reads back as its questions |
| `Questions.RowReadsBack` | orchestrator/src/factory_orchestrator/next_step.py:31-31 | A numbered row reads back as its question |
| `Questions.ItemUnderAnyMarker` | orchestrator/src/factory_orchestrator/next_step.py:31-31 | A list item reads as its text under a number with dot or bracket, a dash or a star |
| `Questions.CrLfIsOneBreak` | orchestrator/src/factory_orchestrator/next_step.py:48-48 | A carriage return and line feed end one line together |
| `Questions.HeaderReadsBack` | orchestrator/src/factory_orchestrator/next_step.py:30-30 | The printed head is read as a head with nothing on its line |
| `Questions.QuestionOnTheHeadLine` | orchestrator/src/factory_orchestrator/next_step.py:49-66 | A question on the head's own line is read first, and the list under it after it |
| `Observe.Observe` | orchestrator/src/factory_orchestrator/role_runner.py:733-816 | The loop makes exactly the run specified, outcome and trace |
| `Observe.RunShape` | orchestrator/src/factory_orchestrator/role_runner.py:745-816 | Every run is at most two red rounds handed to the agent and one round that ends it, one of six ways; each round and the outcome are what the copy, the tests, the clock, the agent and the push of that round make them |
| `Observe.RedGoesBackExactly` | orchestrator/src/factory_orchestrator/role_runner.py:768-805 | A red test goes back to the agent iff fewer than two did before and the clock has time left, and ends the run otherwise |
| `Observe.TestedExactly` | orchestrator/src/factory_orchestrator/role_runner.py:745-757 | Nothing happens iff the copy is on no factory branch ahead of origin, and the run begins with a test iff something happens and a command is named |
| `Observe.TestRunsAreBounded` | orchestrator/src/factory_orchestrator/role_runner.py:777-784 | The tests run at most `MAX_FIX_RESUMES` + 1 times, the agent is resumed at most `MAX_FIX_RESUMES` times |
| `Observe.PushFollowsGreen` | orchestrator/src/factory_orchestrator/role_runner.py:751-811 | At most one push, the last step; straight after a green test of that copy, no agent step between, iff the copy of that round names a test command |
| `Observe.PushedTreeWasTested` | orchestrator/src/factory_orchestrator/role_runner.py:756-811 | With everything committed and tests that leave HEAD alone, what is pushed is the tree that was green, on the branch inspected; given either of the two, the trees agree exactly when the other holds |
| `Observe.PushedTreePasses` | orchestrator/src/factory_orchestrator/role_runner.py:756-811 | A suite that always answers alike then passes what is pushed |
| `Observe.UncommittedEditIsTestedNotPushed` | orchestrator/src/factory_orchestrator/role_runner.py:837-839 | For any suite and trees: an uncommitted edit can turn the tests green while HEAD, red by the same suite, is pushed with success |
| `Observe.TestsThatMoveHeadArePushed` | orchestrator/src/factory_orchestrator/role_runner.py:837-839 | A test run that moves HEAD has whatever it moved to pushed, on any branch |
| `Observe.SuccessExactly` | orchestrator/src/factory_orchestrator/role_runner.py:747-816 | The run succeeds iff its push does, or nothing was there to push and the agent had succeeded |
| `Observe.RedThenSuccess` | orchestrator/src/factory_orchestrator/role_runner.py:768-816 | After a red test, a success ends with a green test and its push iff the copy pushed still names a test command |
| `Observe.CommandRemovedIsPushed` | orchestrator/src/factory_orchestrator/role_runner.py:751-811 | An agent that takes the test command out gets a red suite pushed untested, with success |

## Left out

- `ship`'s task loop: it picks tasks of every repo by title number alone (router.py:663-670), so the
  promotion results are about epics.
- Questions.ExtractQuestions: takes ASCII digits only for a list number, because Unicode's decimal digits are a long table.
- Reconcile.RestartsAreBounded: says nothing of a stretch of more than 20 runs, because the sweep sees no further back.
- `push_touches_profile`'s walk over a push's commit lists: one comprehension over the patterns proved here.
- `start_run`, `finish_run` and `interrupt_unfinished`: run rows are events of `Reconcile`.
- `checkout` and `refresh_master`: only their lock is modelled, not the master clone they build and rename.
- `prune_conversations` and the age of a conversation's home: only its lock is modelled.
- `environment_notes`, prompts, transcripts, redaction, usage and the live log: text that decides nothing here.
- `prepare`'s error when GitHub cannot be cloned either: the run fails before it has a copy.
- `_queue_labeled`: what a replayed label starts is in `StagingGate`; how often one is queued has no bound of its own.
- The tasks an epic's promotion moves on, and the notice that follows: `ship` goes on after the epic's own
  two writes, and whatever fails there leaves the epic deployed.
- `stale_marker`: whether an in-progress label outlived its run is part of an issue's arbitrary label changes.
- Observe.Observe: the push is one answer, success or not, because opening the PR and commenting never fail it.
- The lists of waiting and live sessions and the holders' `since` times (role_runner.py:546-572): shown by an
  endpoint, they decide nothing.
- HTTP endpoints, pages, signatures, secrets, the Console, config parsing and the router's refusal texts.
- Order between runs waiting on one environment's lock: the code does not promise any.

