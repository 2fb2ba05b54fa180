# Verification of franktheunicorn

A Dafny model of the stateful parts of this repository, with proofs about every input, every
run and every interleaving. `dafny verify dfyconfig.toml` checks all of it.

| files | what they model |
|---|---|
| Routing, Repository, Planning | which targets a branch name goes to, the base it was cut from, whether it has landed, what is left to merge (`tools/merge_branches.py`) |
| Bags, BatchState, Surveying, Backporter | the class `Backporter`: sorting and planning the list, picking, the review gate, building, pushing, the ledger, the waiting loop, the last look, a whole run |
| Recutting | when the last look executes what was approved |
| SuccessiveRuns, Workers | runs that share a ledger file; workers that share the work list, the push remote, the target locks and the ledger |
| Audit | `tools/check_fixes_landed.py`, over the same routing and the same landing rules |
| DiffPosition, HunkHeaders | `translate_line_to_position` against a declarative numbering of the hunks, and its headers against a printer |
| ReviewComments, ReviewPoster, PostedOnce, GitHubPoster | posting a review over a forge that may accept a request and still raise, reading it back, recalling a comment |
| PullRequests, Listing, Poller | the poller's refresh rules, the paginated listing and the reap, one pass over a project |
| ConfigCache | the project-config cache and its settle time |

## The shape of the model

Git is a map from target to `seq<Commit>`; a commit has an id, a patch id (none for an empty
diff), a subject and the ids its `-x` trailers name. A push lands only as a fast-forward, a pick
is picked, empty or a conflict, a rebase may conflict and drops what is already upstream. What
git, GitHub, sbt, claude and the operator answer is left open: in the methods as values taken
out of nowhere (`:= *`), in the functions as arguments. So every theorem holds for all answers.
Where the code keeps state in an object, the model has a class; each of its methods is tied to a
predicate or a function over a snapshot (`W()`) of its fields, and the theorems are about those.

Each forge, file-system and clock assumption is written into a predicate rather than assumed in
prose: `PostedOnce.Legal`, `ConfigCache.Enabled`, `Workers.Enabled`, `Listing.FromForge`.

## What turned out not to hold

Each of these has the exact condition and a failing input.

- `already_landed`'s trailer rule asks the same question for each commit of a series, so one
  picked commit answers for all of a longer branch. Whatever the target holds, a skip is right
  exactly for series of at most one commit (`SkipIsSoundExactlyWhen`, `TrailerSkipCoversTooMuch`).
  A run merges only such branches; the audit asks about any.
- The order of the markers to strip matters, for some name, exactly when some marker ends in
  another one and what is left of it is no run of markers (`OrderIrrelevantExactlyWhen`,
  `MarkerOrderMatters`). The same condition decides whether a run of markers comes off every name
  (`RunsComeOffExactlyWhen`).
- A short pin behind a stem that ends in `-branch` reads as a long one, and only then is a stem
  not read back (`StandardSpellingReadsBack`, `SwallowedStem`).
- Diff positions agree with the numbering exactly when no line of the side stands at or behind a
  line the search does not read: a body line that reads as a file header, or an untagged line
  right below the first `@@` (`AgreesExactlyWhenRead`, `BodyLineReadsAsHeader`, `BareFirstLine`).
- `refresh_rewrites` plans a branch again at a new head without asking for approval again. What is
  looked at again is what was approved, whatever the helper scripts answer, exactly when the
  rewrites are left alone or no rewrite could be planned (`ApprovedKeptExactlyWhen`,
  `AlwaysKeptExactlyWhen`, `RecutIsExecutedUnapproved`).
- The settle time has to cover the rounding of the mtimes and the time a load takes. With the
  two-second rounding of some file systems nothing is left for the load (`CoherentExactlyWhen`,
  `StaleRunLies`).
- A failed refresh is not repeated when the stored state was all that differed
  (`RetriedExactlyWhen`, `StateChangeIsForgotten`).
- The review listing stops at 500 reviews: a review that lands behind them is reported as absent
  (`AbsentIsWrongExactlyWhen`, `LandedBehindFiveHundred`).
- A caller's own list of drafts is not checked for drafts that were posted before
  (`SecondCopyExactlyWhen`, `PostedAgain`).

## Model

| member | source | states |
|---|---|---|
| Routing.LogicalName | tools/merge_branches.py:196-209 | the sweep over the markers ends in the name with every trailing marker off, whatever the markers |
| Routing.LogicalIdempotent | tools/merge_branches.py:196-209 | stripping a second time changes nothing |
| Routing.MarkerOrderIrrelevant | tools/merge_branches.py:200-209 | order and repetition of the markers do not matter when each rest of a marker that ends in another one is a run of markers |
| Routing.OrderIrrelevantExactlyWhen | tools/merge_branches.py:200-209 | every order of a list strips every name alike exactly under that condition |
| Routing.DoubledMarkerIsHarmless | tools/merge_branches.py:200-209 | with `-aok` and `-aok-aok` it holds, though one is the tail of the other |
| Routing.MarkerOrderMatters | tools/merge_branches.py:200-209 | with `-aok` and `aok` it does not hold, and two orders leave two logical names |
| Routing.RunComesOff | tools/merge_branches.py:196-209 | under that condition any run of markers behind any name comes off whole, and leaves what the name alone would leave |
| Routing.RunsComeOffExactlyWhen | tools/merge_branches.py:196-209 | runs come off every name exactly under that condition |
| Routing.SpellingReadsBack | tools/merge_branches.py:171-227 | every spelling of a pin (`-V` or `-branch-V`, with or without `-rN`) under any run of markers reads as without them; where the markers leave the pin alone it reads back to V's target, and to its stem exactly when the stem's own `-branch` is not swallowed |
| Routing.StandardSpellingReadsBack | tools/merge_branches.py:171-227 | the same under the standard markers, where no marker can eat into a pin |
| Routing.SwallowedStem | tools/merge_branches.py:191-193 | a short pin behind a stem ending in `-branch` is, letter for letter, a long pin behind a shorter stem |
| Routing.ProbeReadsBack | tools/merge_branches.py:1572-1588 | for any list whose markers keep off pins, every name `unlisted_sibling` asks the fork for would be pinned to the very target |
| Routing.StandardLeavesPins | tools/merge_branches.py:171 | the standard markers keep off pins |
| Routing.SiblingCoverage | tools/merge_branches.py:230-248 | the loop over the list computes the coverage map |
| Routing.CoverageMeaning | tools/merge_branches.py:230-248 | a target is covered exactly when a listed sibling of the family is pinned to it, and then by such a one |
| Routing.RoutingPartition | tools/merge_branches.py:1654-1671 | a plain branch's routed targets split exactly into what it keeps and what its listed pinned siblings own; a pinned branch gives nothing up |
| Routing.RoutedExactlyTo | tools/merge_branches.py:251-260 | a pin is the one target; an unpinned branch cut from branch-3.5 goes back there only, any other to every default target |
| Routing.ParseBranchFile | tools/merge_branches.py:280-293 | reading the file line by line gives the entries of its lines, first mention first |
| Routing.EntryReadsBack | tools/merge_branches.py:280-293 | a line gives its first word and, behind a blank, its second; blanks, further columns and everything from a `#` on do not matter, and a line with no word gives nothing |
| Routing.ListedMeaning | tools/merge_branches.py:280-293 | the listed names are distinct and are exactly the first mentions |
| Repository.BestBase | tools/merge_branches.py:867-893 | the base found is one nothing beats in commits left, first among equals; none and unworkable are told apart |
| Repository.BestBaseUnique | tools/merge_branches.py:867-893 | there is only one such base |
| Repository.SkipIsSound | tools/merge_branches.py:902-963 | a one-commit branch called landed is on the target by id, by patch or by a trailer naming it |
| Repository.PatchSkipIsSound | tools/merge_branches.py:902-963 | without the trailer rule, every commit of a series called landed is there by id or patch |
| Repository.TrailerSkipCoversTooMuch | tools/merge_branches.py:918-934 | a two-commit branch with its first half picked is called landed |
| Repository.SkipIsSoundExactlyWhen | tools/merge_branches.py:902-963 | for a series of new work, a skip means that the target carries each commit, whatever it holds, exactly when the series is one commit or none |
| Repository.PushedIsRecognised | tools/merge_branches.py:902-963 | a patch that reached the target under another id is recognised from then on |
| Repository.LandedExactlyWhen | tools/merge_branches.py:902-963 | a series is skipped exactly when it is there by patch, named by a trailer, or told again commit by commit with the same patches; flagged exactly when none of that holds and a subject is there without its patch |
| Repository.FindLanded | tools/merge_branches.py:1348-1368 | the read-back after a push finds, in order, the newest commits of the window on HEAD that have a patch of ours, as many as there are patches to look for |
| Repository.SomethingLanded | tools/merge_branches.py:1348-1368 | something is found exactly when one of the last commits has a patch of ours |
| Repository.OneLandsAsNewest | tools/merge_branches.py:1348-1368 | a single commit is found as the newest one with its patch |
| Repository.OnMasterAlready | tools/merge_branches.py:1321-1346 | what counts as landed on master is on upstream master or was recorded for it, complete or not at all |
| Planning.LedgerRemembers | tools/merge_branches.py:394-406 | what the ledger remembers of a pair is what its last row with a commit says |
| Planning.PickBase | tools/merge_branches.py:853-865 | a pinned base is used as given, otherwise the best one |
| Planning.PlanMeaning | tools/merge_branches.py:1591-1714 | whatever is planned is one commit for distinct targets that are routed, valid, not a sibling's, not merged and not landed |
| Planning.SpelledExactlyBy | tools/merge_branches.py:918-934 | the shas a trailer is matched against are the fork's tip, the commits, their counterparts on master and the ledger's commit for master, and no others |
| Backporting.Backporter.PushTarget | tools/merge_branches.py:1382-1422 | a success put our HEAD on the target by extension, published only the series, and left all of it there; a failure published nothing, and came of a refusal, a rebase conflict or a third race; undisturbed, two attempts are enough |
| BatchState.RebasedCarries | tools/merge_branches.py:1408-1420 | what a rebase leaves out is on the branch rebased onto already, with the same patch |
| Backporting.Backporter.PickSeries | tools/merge_branches.py:1462-1504 | on top of where it started are, in order, the picks of exactly the commits not marked and not empty there, with a trailer each where asked; after a conflict, nothing |
| BatchState.PicksInOrder | tools/merge_branches.py:1473-1504 | each commit that is not on the target by its patch and not empty there is picked behind those before it, with its message and, where asked, its sha in a trailer; and nothing else is |
| BatchState.ConflictsExactlyWhen | tools/merge_branches.py:1495-1504 | picking fails exactly when a commit that is not there already conflicts |
| Backporting.Backporter.CompileTarget | tools/merge_branches.py:1235-1316 | passes only if the build is off or came out clean, at once or from scratch |
| BatchState.SanityNeedsAYes | tools/merge_branches.py:1165-1233 | nothing passes the review gate but a clean verdict, a person's yes where asking is allowed, or an approval given up front |
| Backporting.Backporter.Cleared | tools/merge_branches.py:1515-1536 | the series is refused as held for review exactly when it is to be reviewed and neither claude, nor the operator, nor an up-front approval passes it; as not building exactly when it passed, had to be built and no build came out clean |
| Backporting.Backporter.Backport | tools/merge_branches.py:1442-1549 | which of the eight ends a backport has is what git, claude, the operator and sbt answered, each end exactly for its answers; a push has passed the review gate and the build, put nothing but the picks on the remote, each there itself or by its patch, and has its ledger row naming the last of ours there; every other end leaves tip, remote and ledger as they were |
| BatchState.PickedThenPublished | tools/merge_branches.py:1442-1549 | picking and then publishing, with any refusal between them, is one such step |
| BatchState.OnMasterIsPublic | tools/merge_branches.py:1321-1346 | what a release-branch pick names in its trailer is on the push remote's master or recorded for master |
| Backporting.Backporter.Execute | tools/merge_branches.py:1716-1736 | every target of the branch but itself is attempted once, master first; the record has the end of each backport in order, and "no such target" only for one that is not upstream or that git would not reset; release branches get what just landed on master, or what was there already; the ledger rows are exactly the events recorded as pushed, and every `-x` trailer is public |
| BatchState.ReleasesInOrder | tools/merge_branches.py:1726 | behind master the release branches keep their order |
| BatchState.AttemptedAre | tools/merge_branches.py:1726-1728 | the attempts are exactly the planned targets, the branch's own name aside |
| Backporting.Backporter.EnsureTarget | tools/merge_branches.py:825-851 | the target is put on the upstream tip, and local commits that would go are kept as a backup |
| BatchState.OthersStayUnmerged | tools/merge_branches.py:1682-1693 | merging one branch leaves every other branch's plan as fresh as it was |
| BatchState.LedgerStaysUnique | tools/merge_branches.py:1551-1570 | a batch of a run that heeds its ledger adds no pair twice and none it had |
| Backporting.Backporter.MergeAll | tools/merge_branches.py:1881-1883 | the sequential branch: a batch executes its items in order, each once; its events are all their attempts in order, and its ledger rows exactly those recorded as pushed |
| Backporting.Backporter.BuildInsteadOfWaiting | tools/merge_branches.py:1972-1991 | the branch at the head of the queue is executed on the strength of a local build, or nothing happens |
| Backporting.Backporter.Revisit | tools/merge_branches.py:1885-1970 | every waiting branch ends executed, late-red, recorded as given up or still waiting; executed are only those heard green, or built in CI's stead while the last answer was "running"; with the local stand-in and the build on, as many rounds as branches are enough |
| BatchState.TalliesJoin | tools/merge_branches.py:1885-1970 | two rounds of waiting settle what one long one would: nothing lost, nothing twice |
| Backporting.Backporter.Plan | tools/merge_branches.py:1591-1714 | the method plans what the rules of `PlanFrom` say for the branch's base, and plans nothing merged before |
| Backporting.Backporter.PlanAll | tools/merge_branches.py:1826-1832 | the plans are exactly what `Plan` decides for each branch that is green, building or red |
| Backporting.Backporter.Approve | tools/merge_branches.py:1838-1850 | a plan is approved exactly when nobody is asked, each cut of its family was approved before, or the operator said yes to the family; exactly the cuts of the other families are recorded as turned down |
| Backporting.Backporter.RefreshRewrites | tools/merge_branches.py:2030-2113 | the list becomes what `Refreshed` makes of the helpers' answer: each branch is kept unless its rewrite moved, and then planned again from the new head or dropped |
| Recutting.RewriteIsFound | tools/merge_branches.py:296-304 | a rewrite is found by the logical name it was cut for, the last one of a name |
| Recutting.RecutExactlyWhen | tools/merge_branches.py:2080-2112 | a branch is kept exactly when nothing was cut for it, the cut is not here or is what it is picked from already; otherwise what `plan` says of the new head counts |
| Recutting.ApprovedKeptExactlyWhen | tools/merge_branches.py:2051-2112 | for one list, whatever the helpers answer, what is looked at again is what was approved iff the rewrites are left alone or no rewrite could be planned |
| Recutting.AlwaysKeptExactlyWhen | tools/merge_branches.py:2051-2112 | for all repositories and lists, iff `--no-refresh-before-retry`, `--pick-from-fork`, `--dry-run`, or a zero `--max-commits` |
| Recutting.RecutIsExecutedUnapproved | tools/merge_branches.py:2104-2112 | a concrete red branch whose rewrite moved while its fork head did not: the last look puts an unapproved head among the ready ones |
| Backporting.Backporter.RetryFailed | tools/merge_branches.py:2115-2184 | the list splits exactly into executed, recorded as given up, and dropped after a re-cut; executed are only branches whose last answer was green |
| Backporting.Backporter.Classify | tools/merge_branches.py:1749-1812 | every listed branch goes to the one pile its own answer puts it on -- held, not on the fork, green, building, red, unreadable -- with the events recorded to match, and what is called green was heard green |
| Surveying.ClassifiedMeaning | tools/merge_branches.py:1749-1812 | an entry is on its pile exactly when it is not held, on the fork, and CI is waived, green, running or red; otherwise exactly its reason is recorded |
| Backporting.Backporter.PrepareTargets | tools/merge_branches.py:1817-1821 | the targets of a run are exactly the configured ones that are upstream and that git resets, each once, in order |
| Surveying.AllSurveyed | tools/merge_branches.py:1749-1836 | sorting and planning put together account for every entry: planned as `plan` decides, or on record |
| Backporting.Backporter.LookAtAll | tools/merge_branches.py:1906-1939 | a later look does the same for each waiting branch: vanished, moved, or by the answer for its stored head |
| BatchState.SameGate | tools/merge_branches.py:1739-1874 | a branch executed for an approved plan of the same name passed the same gate |
| BatchState.RestTogether | tools/merge_branches.py:1885-1991 | the waiting loop and the last look together execute each branch at most once, and each is justified by the last answer about it |
| Backporting.Backporter.Run | tools/merge_branches.py:1739-1874 | every branch executed is listed, not held, approved, executed once, and either CI-exempt, or green by GitHub's last answer about its stored head, or built in CI's stead, on record, while that answer was "running"; once the fetches work, every listed branch that is not held, is on the fork and has CI to go by is planned as `plan` decides over the usable targets, every other one is on record with its reason, and nothing else is planned; every plan turned down is on record, and every approved branch is executed, recorded as given up, dropped or left waiting, the green ones first; everything published has its ledger row and passed the review gate and the build |
| SuccessiveRuns.RunAll | tools/merge_branches.py:427-437 | over any number of runs that heed the ledger, whatever it held before, no branch is pushed to the same target twice, none to a target the ledger had, and pushes and new rows correspond one to one |
| Workers.StepInv | tools/merge_branches.py:2186-2227 | every step of every worker keeps the cluster's invariant |
| Workers.RemoteOnlyGrows | tools/merge_branches.py:1382-1422 | over every interleaving, each target on the push remote only grows by extension |
| Workers.PushedCommitsStay | tools/merge_branches.py:1382-1422 | what a worker pushed stays at its place to the end of the run |
| Workers.PublishedIsRecorded | tools/merge_branches.py:1551-1570 | when the workers are idle, each of our commits on the remote has its ledger row |
| Workers.PushesExclude | tools/merge_branches.py:1382-1384 | two workers never push to the same target at once |
| Workers.SecondPushGoesThrough | tools/merge_branches.py:1386-1422 | without an outside pusher and with a working fetch, a lock holder's second push is a fast-forward, whatever the others do |
| Workers.NoPairTwice | tools/merge_branches.py:2186-2227 | over every interleaving of workers on one work list, no branch is published to the same target twice |
| Workers.TrailersArePublic | tools/merge_branches.py:1716-1736 | over every interleaving, each sha written into an `-x` trailer is on the push remote's master or remembered for it |
| Audit.AuditSource | tools/check_fixes_landed.py:145-215 | the report has a row for exactly the targets routed to; it is COVERED exactly for a sibling's, and OK, STALE, MISSING, LOST and UNKNOWN come out exactly when refs and ledger say so, for every base and for a branch that is gone |
| Audit.HeadAudited | tools/check_fixes_landed.py:122-136 | the head audited and the tip trailers are matched against, for a branch that is local, on the fork, both or neither |
| Audit.JudgeSaysRight | tools/check_fixes_landed.py:179-214 | each word of the report for one target, from the head, the changes and the ledger's commit |
| Audit.LedgerSaysRight | tools/check_fixes_landed.py:87-101 | without a head: OK exactly if the ledger's commit is still there, LOST exactly if it exists and is not, UNKNOWN otherwise |
| Audit.CleanAuditMeansLanded | tools/check_fixes_landed.py:293-334 | exit status 0 means every target of every listed branch is a sibling's or shows a sign of the branch: its head, its changes or the ledger's commit |
| Audit.RowsAbout | tools/check_fixes_landed.py:145-215 | a target looked for has its one judgement, every other row about it says covered |
| Audit.PlannedIffAttention | tools/check_fixes_landed.py:104-119 | for a one-commit branch, the targets a run would still send it to are exactly those routed to it, called MISSING, STALE or UNKNOWN, and not claimed by the ledger |
| Audit.PlannedNeedsALook | tools/check_fixes_landed.py:104-119 | a target a run would still send a branch to is never called OK, COVERED or LOST |
| Audit.CleanAuditMeansNothingToMerge | tools/check_fixes_landed.py:293-334 | exit status 0 means a merge run over the same list, refs and ledger has nothing left to merge |
| Audit.OkIsTrueOfOneCommit | tools/check_fixes_landed.py:104-119 | an OK on content is true of a branch a run would merge |
| DiffPosition.TranslateLineToPosition | src/franktheunicorn/backends/diff_position.py:27-112 | the one-pass parser answers the position of the first line its registers give the number, and rejects other sides |
| HunkHeaders.HunkStartExactlyWhen | src/franktheunicorn/backends/diff_position.py:23 | a line is a hunk header starting at two numbers exactly when it is those written out in decimal, each with or without a count, in the header's frame; any other line is none |
| HunkHeaders.HunkRoundTrip | src/franktheunicorn/backends/diff_position.py:23 | printed in decimal and read back, for all numbers |
| HunkHeaders.FileHeaderExactlyWhen | src/franktheunicorn/backends/diff_position.py:24-26 | the lines that read as file headers are the four kinds, written out |
| HunkHeaders.HeaderEffects | src/franktheunicorn/backends/diff_position.py:52-71 | what each kind of file header does to the search |
| HunkHeaders.HunkEffects | src/franktheunicorn/backends/diff_position.py:76-84 | a hunk header sets both numbers, and takes a position unless it is the first |
| HunkHeaders.BodyEffects | src/franktheunicorn/backends/diff_position.py:90-110 | what each tagged line adds to the position and to either number |
| HunkHeaders.UntaggedEffects | src/franktheunicorn/backends/diff_position.py:86-110 | an untagged line is passed over ahead of the body and is context within it |
| HunkHeaders.SideExactlyWhen | src/franktheunicorn/backends/diff_position.py:42-45 | the two sides, in any case, and nothing else |
| DiffPosition.FirstHitIsFirst | src/franktheunicorn/backends/diff_position.py:47-112 | that line is the first: no line before it carries the number, and none at all if there is no answer |
| DiffPosition.InBody | src/franktheunicorn/backends/diff_position.py:50-110 | inside a hunk the four registers are the offset from the first `@@` and the two declarative line numbers |
| DiffPosition.PositionMeaning | src/franktheunicorn/backends/diff_position.py:27-112 | the answer is p exactly when the p-th line below the first `@@` carries the number on the side and none before it does |
| DiffPosition.OrderedMeaning | src/franktheunicorn/backends/diff_position.py:27-112 | with ordered hunks, exactly when the p-th line carries it |
| DiffPosition.DistinctPositions | src/franktheunicorn/backends/diff_position.py:27-112 | different lines never share a position |
| DiffPosition.PositionsInOrder | src/franktheunicorn/backends/diff_position.py:27-112 | with ordered hunks, positions are in the order of the lines |
| DiffPosition.AgreesExactlyWhenRead | src/franktheunicorn/backends/diff_position.py:52-112 | with ordered hunks, the search agrees with the numbering for every line exactly when no line of the side stands at or behind one it does not read: a body line that reads as a file header, or an untagged one right below the first `@@` |
| DiffPosition.BareFirstLine | src/franktheunicorn/backends/diff_position.py:86-88 | a diff whose first context line is bare empty fails it: line 2 is not found at its position |
| DiffPosition.SmallDiff | src/franktheunicorn/backends/diff_position.py:27-112 | a one-hunk diff meets every condition of these lemmas, with the positions written out |
| DiffPosition.BodyLineReadsAsHeader | src/franktheunicorn/backends/diff_position.py:53-57 | an added line shaped like a file header hides the lines below it |
| ReviewComments.BuiltInOrder | src/franktheunicorn/backends/poster.py:109-119 | one comment per draft, in order; it fails exactly when a range ends before it starts |
| ReviewComments.BodyReads | src/franktheunicorn/backends/poster.py:82-106 | the operator's rewrite wins over the draft's text, then the suggestion block if there is one, then the footer |
| ReviewComments.CheckComments | src/franktheunicorn/backends/poster.py:275-285 | the check keeps or folds each comment, and the count is the number of comments that lost their line |
| ReviewComments.Prepare | src/franktheunicorn/backends/poster.py:266-285 | `folded_into_body` is exact in every mode |
| ReviewComments.WhatIsSent | src/franktheunicorn/backends/poster.py:266-298 | each draft goes out once, with its key and whole text, pinned where it was and only where a readable diff shows both ends, or folded with a note of where that was |
| ReviewComments.FoldedExactlyWhen | src/franktheunicorn/backends/poster.py:122-152 | a comment is folded exactly in body-only mode or when the diff does not show one of its ends |
| ReviewComments.InlineIsOnItsLine | src/franktheunicorn/backends/poster.py:122-132 | on an intact file, "shown" means a line of its hunks carries the number |
| PostedOnce.SplitKeepsAll | src/franktheunicorn/backends/github.py:215-228 | every comment goes into the diff or into the body, none is lost, none goes to both |
| PostedOnce.FindMeaning | src/franktheunicorn/backends/poster.py:362-407 | landed: a review that carries this attempt; absent: none does; unknown: a read failed |
| PostedOnce.ReadBack | src/franktheunicorn/backends/poster.py:313-345 | after a request that raised, the read-back never takes another attempt's review for its own, and misses its own only behind the listing's end |
| PostedOnce.PostOutcome | src/franktheunicorn/backends/poster.py:188-360 | done only if the review landed, not-posted only if nothing did, drafts recorded exactly when done; the forge gains one copy of each listed draft or none |
| PostedOnce.RefusedChangesNothing | src/franktheunicorn/backends/poster.py:214-250 | a refused call changes nothing; it is refused as stale exactly when moved heads are to be refused and the two heads are known and neither is a prefix of the other |
| PostedOnce.AbsentIsWrongExactlyWhen | src/franktheunicorn/backends/github.py:295-314 | a landed review is reported absent exactly when 500 reviews were there before it |
| PostedOnce.LandedBehindFiveHundred | src/franktheunicorn/backends/github.py:295-314 | a pull request where that happens: the draft looks postable and has a copy on the forge |
| PostedOnce.SecondCopyExactlyWhen | src/franktheunicorn/backends/poster.py:217-230 | a landing post makes no second copy exactly when its drafts are distinct and none was posted |
| PostedOnce.PostedAgain | src/franktheunicorn/backends/poster.py:217-230 | a posted draft, listed again, gets its second copy |
| PostedOnce.ReturnedAreOwn | src/franktheunicorn/backends/github.py:234-253 | ids matched by position name comments of their own draft |
| PostedOnce.EveryInlineIsNamed | src/franktheunicorn/backends/github.py:234-253 | with distinct drafts each diff comment of the page read gets its own id |
| PostedOnce.BothWaysAgree | src/franktheunicorn/backends/poster.py:390-406 | ids by position and ids by marker are the same map |
| PostedOnce.RecalledExactlyWhen | src/franktheunicorn/backends/poster.py:443-480 | a recall succeeds exactly within 24 hours of a post whose comment id is known, unless the request fails; outside that nothing changes |
| PostedOnce.RecallTakesItsOwn | src/franktheunicorn/backends/poster.py:443-480 | a successful recall removes the draft's only copy; no recall touches another draft's |
| PostedOnce.StepKeeps | src/franktheunicorn/backends/poster.py:188-480 | posts, recalls, edits and reviews by others keep the at-most-once invariant |
| PostedOnce.AtMostOnceFromStart | src/franktheunicorn/backends/poster.py:293-360 | over any sequence of calls in which an unverified post is not retried, each draft has at most one copy, exactly if it is marked posted, and its recorded id is its own |
| Posting.GitHubPoster.PostReview | src/franktheunicorn/backends/poster.py:188-360 | the method does to drafts and forge what `Post` says, with a list or with the approved drafts |
| Posting.GitHubPoster.FindLandedReview | src/franktheunicorn/backends/poster.py:362-407 | the loop over the reviews, newest first, finds what `Find` finds |
| Posting.GitHubPoster.CreateReview | src/franktheunicorn/backends/github.py:206-255 | the review is received whole or not at all, and the ids are matched in posting order |
| Posting.GitHubPoster.RecallComment | src/franktheunicorn/backends/poster.py:443-480 | the method does what `Recall` says |
| Posting.SelectedIsDistinct | src/franktheunicorn/backends/poster.py:217-227 | the default selection is distinct and exactly the accepted and edited drafts |
| PullRequests.DueExactlyWhen | src/franktheunicorn/backends/poller.py:655-671 | the timer runs out exactly when one of the clocks the row is under does |
| PullRequests.ListingIsTaken | src/franktheunicorn/backends/poller.py:1160-1255 | an API record's fields are in the row afterwards, and nothing else of it has changed |
| PullRequests.NewRowIsListed | src/franktheunicorn/backends/poller.py:1160-1255 | a new row shows what its listing shows, and is neither polled nor scored yet |
| PullRequests.RefreshIsSaved | src/franktheunicorn/backends/poller.py:315-576 | the save at the end of a refresh stamps the row, loses no sha, and leaves what the listing wrote |
| PullRequests.ScrapePreserves | src/franktheunicorn/backends/poller.py:1160-1255 | a scrape record overwrites no rich field, and a failed file fetch no file list |
| PullRequests.RetriedExactlyWhen | src/franktheunicorn/backends/poller.py:579-615 | a failed refresh is repeated at every later time exactly when something other than the state had asked for it, or nothing was committed |
| PullRequests.StateChangeIsForgotten | src/franktheunicorn/backends/poller.py:579-615 | a reopened row for which that fails: after one failed refresh nothing asks again within the window |
| PullRequests.RewindLooksAsKnown | src/franktheunicorn/backends/poller.py:579-615 | a rewound row compares to every listing as the known one with the present state does, and every other field is kept |
| PullRequests.SkippedExactlyUntil | src/franktheunicorn/backends/poller.py:618-671 | after a completed refresh, the same listing is skipped exactly while the row is complete, matches and its window runs |
| Listing.ListPullRequests | src/franktheunicorn/backends/github.py:83-125 | the page loop returns what the pages under the cap show, the scrape on the first 401/403 it meets, and raises on any other failure |
| Listing.CompleteExactlyWhen | src/franktheunicorn/backends/github.py:96-125 | a result under the cap is the whole open set, for all open sets, exactly when the page size divides the cap |
| Listing.ReapAfterListing | src/franktheunicorn/backends/poller.py:861-903 | after any outcome of the listing, only rows not open on the forge are closed, and after a reap every open row is |
| Listing.ReapExactlyWhen | src/franktheunicorn/backends/base.py:22 | that holds for all rows and open sets exactly when the page size divides the cap (or no page fits) |
| Listing.ThousandIsTenPages | src/franktheunicorn/backends/base.py:22 | it holds for 1000 and 100 |
| Poller.EveryPrOnce | src/franktheunicorn/backends/poller.py:190-258 | every listed number is in exactly one of refreshed, skipped and failed, also after the bail-out |
| Poller.RefreshedExactlyWhen | src/franktheunicorn/backends/poller.py:190-258 | every entry reached is refreshed or failed exactly when it is new, unfinished, differs from the listing or is due by one of its clocks, and skipped otherwise; the rest is skipped |
| Poller.GivesUpExactlyWhen | src/franktheunicorn/backends/poller.py:190-258 | the pass gives up exactly when five entries in a row fail, right behind the first five that do |
| Poller.FailureBound | src/franktheunicorn/backends/poller.py:190-258 | failed refreshes number at most 4 for each refresh or skip in passing, plus 5 |
| Poller.RowsUpTo | src/franktheunicorn/backends/poller.py:190-258 | a row is changed by its own entry only, and to what that entry's refresh makes of it |
| Poller.NeededStaysNeeded | src/franktheunicorn/backends/poller.py:190-258 | over a whole pass, a pull request that needed a refresh still does later, unless its refresh completed, the rewind was refused or only the state differed |
| Poller.CompletedIsSkipped | src/franktheunicorn/backends/poller.py:190-258 | over a whole pass, one that got its refresh is skipped until the window lapses |
| Poller.ProjectPoller.PollProject | src/franktheunicorn/backends/poller.py:87-279 | the method reaps, then passes over the listing as `Pass` does, rows and lists alike |
| Poller.ProjectPoller.CloseMissing | src/franktheunicorn/backends/poller.py:861-903 | closes the rows `Reap` closes and returns how many changed |
| Poller.ProjectPoller.RewindRefreshMarker | src/franktheunicorn/backends/poller.py:579-615 | the row looks to the skip as it did before the refresh, but for the present state; no other row, and no other field, changes; an unknown row is left alone |
| ConfigCache.SameStampsSameFiles | src/franktheunicorn/config/loader.py:244-254 | equal names, mtimes and sizes mean equal files, when everything read is older than any later stamp |
| ConfigCache.DecideKeeps | src/franktheunicorn/config/loader.py:237-241 | a load that settles keeps the cache honest when rounding and load time fit into the settle time |
| ConfigCache.CoherentFrom | src/franktheunicorn/config/loader.py:156-214 | over every sequence of writes, deletions, clock advances and loads, each load answers what the files say |
| ConfigCache.CoherentExactlyWhen | src/franktheunicorn/config/loader.py:226-241 | that holds over all runs exactly when the rounding plus the longest load is at most the two seconds |
| ConfigCache.StaleRunLies | src/franktheunicorn/config/loader.py:226-241 | otherwise a run that overwrites a file in the tick it was read in loads the old config from then on |
| ConfigCache.ConfigLoader.Load | src/franktheunicorn/config/loader.py:156-214 | the method answers and caches as the specification says, and on a coherent cache answers the current files |
| ConfigCache.ConfigNames | src/franktheunicorn/config/loader.py:179 | the config files are those named something, then `.yaml` or `.yml` |
| ConfigCache.ConfigLoader.Fingerprint | src/franktheunicorn/config/loader.py:244-254 | name, mtime and size of each YAML file, in listing order |
| ConfigCache.ConfigLoader.HasSettled | src/franktheunicorn/config/loader.py:237-241 | true exactly when every file is older than the settle time |

## Left out

The batch backporter:

- Histories are linear; merge commits and the `--first-parent` questions they raise are not modelled.
- The push remote's branches are read as extensions of the upstream mirror's, as they are for a mirror that lags.
- `Source` is a value, passed on and replaced; the aliasing of one object between lists is not captured.
- `merge_all` in `Backporter` is sequential; what several workers do to each other is in Workers, which leaves out the review gate and the build.
- A process killed between a push and its ledger row, and a push that applies and reports failure: assumed not to happen.
- The insides of `refresh_rewrites`' helper scripts: they may leave any head under any name. Their effect on local base branches is not modelled.
- The text of reports, logs, prompts and verdict replies: `parse_verdict` is any verdict, and `warn_if_untested` only decides whether CI covers what is picked.
- How the runs of a commit add up to one CI state (`ci_status`): GitHub gives any of the states.
- Version numbers and revisions are ASCII digits; Python's `\d` takes more.
- The warning `unlisted_sibling` prints; only the names it probes are modelled.

Reviews:

- `splitlines` is not modelled: a diff is its list of lines. Numbers in hunk headers are ASCII digits, and the side is upper-cased in ASCII.
- Escaping of mentions in comment bodies (`backends/mentions.py`), and the wording of the note on a folded comment.
- Bodies are text plus the attempt marker the poster wrote. Text that quotes another attempt's marker is not modelled.
- The forge keeps comments in posting order and creates a review whole or not at all. An in-doubt draft leaves doubt only outside the model, when the operator has looked.
- Deleting and regenerating drafts, and status changes of posted drafts made in the admin.

Polling and configuration:

- What scoring, readiness and merge-intent code computes: any result, saved at the end of a refresh. They write none of the fields the skip compares before that.
- Listings have parsed timestamps; one that does not parse raises before any row is touched.
- Queue routing, contributor cache, reviews marked stale, and the other columns of a row.
- A listing that changes between two pages, as opposed to between two polls.
- A load reads the fingerprint and the files at one moment; the decision to cache comes later. A file that appears and disappears between the two reads is not modelled, nor are permissions, copies that keep an old mtime, and environment variables that change.
- Wire formats, HTML scraping, rate limiting, and the GitLab, Gitea and mock clients.
