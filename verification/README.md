# Robbie, modelled and proved

Robbie is a daemon that reviews pull requests before a person does. It polls GitHub,
decides which PRs to review, spends money on one container per review, publishes what
comes back, answers replies on its own threads, watches the builds it asked for, and
triages a bug queue that a fixer works from. Most of its promises are about every run:
a commit is paid for once, a note is posted once, the loops come to rest, a quiet run
leaves nothing behind. This project models that behaviour and proves those promises.

`dafny verify dfyconfig.toml` checks everything.

## Layout

| file | models |
|---|---|
| `Options`, `Text`, `Sets` | missing values; strings, lines, decimals; counting over finite sets |
| `Blocks`, `Contract` | delimited blocks, last block wins; the review's printer and parser |
| `ThreadContract` | flattening of untrusted text, the reply prompt, and its parser |
| `Truncate` | UTF-8 (section 3 of RFC 3629), the body cut and what survives it |
| `Diff`, `Anchor` | which diff lines take a comment; where each finding goes |
| `Triage`, `Forms` | the issue-form parser; when a whole form comes back as it was filled in |
| `Checks` | CI checks: outcome, red list, whether a build was started |
| `Spend` | spend admission as an interleaved system of tasks |
| `Sweep` | the reply sweep as a two-party system with a potential |
| `Store` | the tables: statements as functions on a value, and the class that runs them |
| `Keys` | the strings the tables are keyed by |
| `Gates` | the review policy |
| `Lifecycle` | the machine: ticks, tasks that interleave at every await and may die, three modes |
| `Safety` | what every run of the machine keeps, from any tables |
| `Rows`, `Ledger` | facts about rows that real runs keep; GitHub's ledger, the quiet modes, what a pass cost |
| `Pipeline` | the per-PR code itself, proved to be the machine's task |
| `Owed` | which posts may still go out, and what becomes of one that GitHub refuses |
| `Board` | the panel's query and the tick's reads behind it |
| `Ticks` | the daemon's loop and why it cannot go straight round forever |
| `IssueQueue` | triage, fixer and pull-request sidecar on one issue, crash between any two writes |

Code that rewrites fields in place is a class whose methods are proved against functions
on the fields' value (`Store.Db`, `Pipeline.Orchestrator`, `Spend.Orchestrator`,
`Sweep.Sweeper`, `IssueQueue.GitHubIssue`, `IssueQueue.Sidecar`); loops that build a value
are methods with invariants; tasks that interleave are step systems, and a theorem about
"every run" quantifies over every sequence of enabled events. The pipeline's methods are
proved to do what the machine's task does when it is driven by the same answers
(`Pipeline.DriveIsARun`, `Pipeline.TurnIsARun`), so what the machine keeps, the code keeps.

Where the obvious claim is false, there is an input that shows it and a condition that is
proved exact:

- A prefix that leaves a VERDICT block open erases the verdict (`Contract.PrintedBlocksWin`,
  `Contract.LeavesVerdictOpenIff`).
- An answer with a heading the form has not reached is taken for the form's
  (`Triage.EarlyHeadingIsTaken`, `Triage.QuestionReadsIff`, `Forms.FormRoundTripIff`).
- A line boundary inside a diff row can add lines (`Diff.FormFeedAddsALine`,
  `Diff.DiffCollects`, `Diff.ExtraPiecesIff`).
- The cost of a run is written after its slot is left, so an arm passes its cutoff, by any
  amount its reading has not seen and by no more (`Spend.LateCostOverruns`,
  `Spend.SpendIsBounded`).
- A task that dies while the operator is told leaks its slot (`Spend.SlotIsLeaked`,
  `Spend.InflightIsHolders`).
- An ok whose label clean-up fails leaves its key unjudged (`Pipeline.JudgedIff`).
- An answer that cannot be used is held, and with the verdict it had, so its commit is not
  reviewed again: the comment at `src/robbie/orchestrator.py:871-872` says the opposite
  (`Pipeline.UselessTurn`, `Safety.JudgedStays`, `Safety.NoSecondContainer`).
- A post whose answer is lost may go out again, and two approvals that wait on one commit's
  build post its red note twice (`Ledger.RivalsPostTwice`, `Ledger.AtMostOnceIff`).
- A review that GitHub refuses is never sent again, its row being recorded first
  (`Owed.RefusedPostIsLost`, `Owed.QueuePostIff`).
- A replaced row takes its cost with it, which is how every cost of a pass that published
  nothing can go (`Ledger.QuietPassIsLost`, `Ledger.CostKeptIff`).
- A run that publishes nothing still judges the backlog of a repo it meets first
  (`Ledger.NoPublishKeepsIff`).
- A reply past the page, or a thread without a node id, is judged again
  (`Sweep.ReplyQuietsIff`, `Sweep.ResolveQuietsIff`).
- A configuration in which the fixer looks for the label triage takes off, case aside, drops
  cleared issues (`IssueQueue.SameLabelDrops`, `IssueQueue.QueuedIff`).
- A branch that was merged and kept can take a second pull request
  (`IssueQueue.KeptBranchTakesAnother`, `IssueQueue.OnePullRequest`).

## Model

| member | source | states |
|---|---|---|
| `Contract.PrintedBlocksWin` | `src/robbie/contract.py:46-63` | below every prefix, whatever blocks it echoes or leaves open, the printed summary and findings are the ones parsed, and the printed verdict is too unless a line of the prefix is a VERDICT marker with no END line below it, when there is none |
| `Contract.LeavesVerdictOpenIff` | `src/robbie/contract.py:58-63` | that condition, said of the prefix's lines alone, is the scan's: it ends inside a VERDICT block |
| `Contract.VerdictSurvives` | `src/robbie/contract.py:46-63` | the verdict's half of that, with the swallowed case |
| `Contract.NoVerdictInside` | `src/robbie/contract.py:48-52` | a block that swallowed the next one reads as no verdict: its leftover letters spell none of the three words |
| `Contract.OpenersAre` | `src/robbie/contract.py:58-63` | a line opens a block of a name exactly when it is the marker with nothing but blanks behind it |
| `Contract.GluedBlockIsRead` | `src/robbie/contract.py:58-63` | below any prefix that leaves no block of the name open, a block whose END line has anything glued to it is still read whole |
| `Contract.DecoratedVerdictIsRead` | `src/robbie/contract.py:46-55` | each of the three words is read as the verdict in any case and between any text without letters or dashes |
| `Blocks.Swallowed` | `src/robbie/contract.py:58-63` | an open block takes the next block's opener and body as text |
| `Blocks.OwnBlock` | `src/robbie/contract.py:58-63` | from a closed scan, a framed block is found whole |
| `Blocks.OpenIff` | `src/robbie/contract.py:58-63` | a scan ends inside a block exactly when some opener has no closer below it |
| `ThreadContract.FlattenIsOneLine` | `src/robbie/contract.py:181-193` | whatever a body holds, its flattened form is one line, no longer than the cap and an ellipsis |
| `ThreadContract.FlattenJoins` | `src/robbie/contract.py:181-193` | two lines that say something reach the prompt as they are with one blank for everything between them that does not: blank lines, robbie's signature, small print |
| `ThreadContract.FlattenCuts` | `src/robbie/contract.py:193` | a line within the cap is kept, a longer one is cut at the last blank within the cap, or at the cap if there is none, and an ellipsis says so |
| `ThreadContract.ThreadBlock` | `src/robbie/contract.py:201-217` | the row loop gives the rows listed for one thread |
| `ThreadContract.RowsOf` | `src/robbie/contract.py:126-133` | those rows are the id and the place, what robbie said, and every reply in order with its author, each flattened to its cap |
| `ThreadContract.ThreadPreamble` | `src/robbie/contract.py:124-175` | the prompt's lines, thread by thread |
| `ThreadContract.ParseThreadVerdicts` | `src/robbie/contract.py:82-103` | the loop over the complete blocks keeps the valid verdicts in order |
| `ThreadContract.DecisionIsRead` | `src/robbie/contract.py:82-103` | below any lines that leave no block open, a decision printed as the prompt asks is read back with its thread, its word in any case and its text, and dropped exactly when the word is none of the three or a reply says nothing |
| `ThreadContract.DecisionsAreValid` | `src/robbie/contract.py:74-79` | whatever a run prints, every decision handed on is one of the three and a reply says something |
| `ThreadContract.OnlyTheTemplateOpens` | `src/robbie/contract.py:124-198` | for any threads, bodies and paths, the prompt parsed back yields the template's block and nothing else |
| `Truncate.RoundTrip` | `src/robbie/publish.py:354-359` | decoding what was encoded gives the string back |
| `Truncate.EncodedAs` | `src/robbie/publish.py:355` | a character takes one to four bytes by its range, and the standard's own examples come out |
| `Truncate.CutDecodes` | `src/robbie/publish.py:354-359` | cutting bytes and decoding with errors ignored gives a prefix of whole characters |
| `Truncate.CutIsLongestPrefix` | `src/robbie/publish.py:354-359` | a body that fits is untouched, any other is its longest fitting prefix and the tail, and the result fits GitHub |
| `Truncate.HeaderSurvives` | `src/robbie/publish.py:338-351` | the marker and the label instruction survive any cut they alone fit in |
| `Truncate.AllOfItIsPublished` | `src/robbie/publish.py:338-351` | what is cut is the marker, the signature, the instruction, the text and the two lists that are not empty, in that order, and all of it is published when it fits |
| `Diff.Commentable` | `src/robbie/anchor.py:38-54` | the row loop collects what the row kinds say, hunk by hunk |
| `Diff.HeadersAreRead` | `src/robbie/anchor.py:18-54` | every row that starts as the header pattern says, both ranges with or without a count, is read as a header with the number its second range begins with |
| `Diff.ReadIsHeader` | `src/robbie/anchor.py:18-54` | and no other row is |
| `Diff.HeaderPieceIsRead` | `src/robbie/anchor.py:18-54` | whatever stands in a printed header's section, its first piece is read as a header with its start |
| `Diff.RowPieceIsRead` | `src/robbie/anchor.py:38-54` | the first piece of a printed row is counted exactly when the row is added or context, and is never a header |
| `Diff.IntervalIsNewLines` | `src/robbie/anchor.py:38-54` | a hunk's added and context lines are the interval of its header's start and count |
| `Diff.DiffCollects` | `src/robbie/anchor.py:38-54` | for any well-formed diff whose hunks do not touch and hide no header, rows of any characters: exactly its new-file lines are collected if and only if every hunk has as many counted pieces as its header says |
| `Diff.ExtraPiecesIff` | `src/robbie/anchor.py:44-54` | row by row: if and only if no row is cut so that a piece past its first is empty or starts with a plus or a space |
| `Diff.WholeDiffCollects` | `src/robbie/anchor.py:38-54` | every well-formed diff without a boundary inside a row and whose last row is not empty, rows ending in a carriage return included, is collected exactly, however its hunks lie |
| `Diff.FormFeedAddsALine` | `src/robbie/anchor.py:44-45` | a diff for which the condition fails: a form feed in an added line is counted as another line |
| `Diff.HeaderInsideJumps` | `src/robbie/anchor.py:46-48` | a deleted line that hides a header: the count is right and the lines are wrong |
| `Diff.HeaderInsideMeets` | `src/robbie/anchor.py:46-48` | and one where the count is wrong and the lines are right, so hidden headers are outside the equivalence either way |
| `Anchor.Nearest` | `src/robbie/anchor.py:113-118` | the nearest line, ties to the lower |
| `Anchor.AnchorAll` | `src/robbie/anchor.py:88-136` | the loop over the findings fills the three outputs as the placement of each says |
| `Anchor.PlacementIs` | `src/robbie/anchor.py:83-136` | a finding is folded exactly when its severity is readable and below the floor, and commented exactly when some line of its file's diff is within three; any other keeps its line for the summary |
| `Anchor.FoldedByName` | `src/robbie/anchor.py:83-103` | for each of the four floors, the severities it folds are exactly those further down than it, by name |
| `Anchor.ReadAs` | `src/robbie/anchor.py:83-85` | a severity is compared in lower case with each blank read as a dash |
| `Anchor.CommentIsAnchored` | `src/robbie/anchor.py:104-134` | every comment's line is in its file's diff, within 3 of the reported one and nearest; a kept start is in the diff above it |
| `Anchor.FindingsAreConserved` | `src/robbie/anchor.py:88-136` | the three outputs hold exactly the findings that came in, with multiplicity |
| `Anchor.OrderIsKept` | `src/robbie/anchor.py:88-136` | each output keeps the order of the findings |
| `Triage.Fields` | `src/robbie/triage.py:34-58` | the line loop computes the form's fields |
| `Triage.FieldsCoverTheBody` | `src/robbie/triage.py:34-58` | every line after the first heading is a new heading or belongs to one field, in order; headings are distinct |
| `Triage.AppendingIsStable` | `src/robbie/triage.py:34-58` | text appended on a new line changes no answer but the last open one |
| `Triage.StandsAloneIff` | `src/robbie/triage.py:45-57` | the parser opens no field in an answer and leaves no fence open exactly when its text is plain lines, headings already above it, and fenced blocks that close |
| `Triage.QuestionReadsIff` | `src/robbie/triage.py:45-57` | so an answer reads back as one exactly when its text is that |
| `Triage.EarlyHeadingIsTaken` | `src/robbie/triage.py:45-57` | an answer that is the form's next heading, for any two headings: the answer comes back empty |
| `Triage.FencesAre` | `src/robbie/triage.py:45-51` | three backticks or tildes after any indentation fence a line |
| `Triage.OnlyFencesAre` | `src/robbie/triage.py:45-51` | and no other line does |
| `Triage.HeadingsAre` | `src/robbie/triage.py:52-55` | two or three hashes at the start of a line name a field, and one, four or an indented pair do not |
| `Forms.OpensNothingIff` | `src/robbie/triage.py:45-57` | the parser opens no field in an answer exactly when its text is plain lines, whole fenced blocks and at most an unclosed one behind them |
| `Forms.FormRoundTripIff` | `src/robbie/triage.py:34-63` | a form with distinct headings parses back to its stripped answers, the placeholder as empty, if and only if every answer's text stands alone, the last perhaps with a fence left open |
| `Checks.SummarizeChecks` | `src/robbie/github.py:470-493` | the four lists are the sorted distinct labels of their bucket's checks; the first three name exactly the checks that say a success, a failure or a pending word |
| `Checks.WordsDecide` | `src/robbie/github.py:470-548` | the outcome is red, and gate 6 lists a name, exactly for a check not ignored that says one of the five failure words; it is green exactly when one says SUCCESS and none says a failure or a pending word |
| `Checks.ListedWith` | `src/robbie/github.py:478-487` | a check that says none of the words is listed with what it does say, its status where it says nothing |
| `Checks.TwoWords` | `src/robbie/github.py:456-463` | a name's words are kept with one blank for whatever space stood between them |
| `Checks.NameFrom` | `src/robbie/github.py:466-467` | a check is called by its context, or its name where it has none, or else "check" |
| `Checks.UpperAt` | `src/robbie/github.py:478-479` | words are compared with their ASCII letters upper-cased and nothing else changed |
| `Checks.SortedSet` | `src/robbie/github.py:489-492` | ascending, distinct, and the same elements |
| `Checks.OnlyBuildsMatter` | `src/robbie/github.py:496-548` | readings that agree on the checks not ignored, in any order and number, have the same outcome, red list and build-started answer |
| `Checks.DeletingIgnored` | `src/robbie/github.py:496-548` | deleting the ignored checks changes neither the outcome, nor the red list, nor whether a build was started |
| `Checks.OutcomeMeans` | `src/robbie/github.py:526-548` | red exactly when gate 6's list is not empty; green or red implies a build was started |
| `Checks.NameIsOneLine` | `src/robbie/github.py:453-467` | a check's name is one line, no longer than the cap and an ellipsis |
| `Sweep.Sweeper.Act` | `src/robbie/threads.py:151-183` | acting on the offered threads in order, a refusal stopping none of the others: each verdict has its own effect on its own thread, and the tally says whether one was answered or refused |
| `Sweep.VerdictsTakeEffect` | `src/robbie/threads.py:151-183` | by the verdicts alone: an accepted concession closes its thread and keeps its comments, an accepted reply on a current thread adds one comment of robbie's and closes nothing, everything else changes no thread and is remembered at its reply count, and no other thread or notice changes |
| `Sweep.StepKeepsSound` | `src/robbie/threads.py:74-192` | every step of either party keeps what the sweep assumes of its snapshot |
| `Sweep.StepPays` | `src/robbie/threads.py:74-192` | a completed run costs one unit of potential, only another party's move adds one |
| `Sweep.SweepsConverge` | `src/robbie/threads.py:74-192` | completed sweep runs are at most the threads pending at first plus the moves others made |
| `Sweep.OneSweepSuffices` | `src/robbie/threads.py:90-96` | with nobody moving, the next sweep starts no container |
| `Sweep.ACommentIsHeard` | `src/robbie/github.py:312-324` | a comment by somebody else on an open thread always makes it pending |
| `Sweep.ReplyQuietsIff` | `src/robbie/threads.py:212-215` | a posted reply quiets its thread exactly when it still fits the page |
| `Sweep.ResolveQuietsIff` | `src/robbie/publish.py:204-216` | a concession quiets its thread exactly when the thread has a node id |
| `Spend.Fallback` | `src/robbie/config.py:275-285` | the heaviest model on the other side of the divide, none when there is none |
| `Spend.Orchestrator.Admit` | `src/robbie/orchestrator.py:331-338` | under the lock: the first arm runs exactly when its own meter has room; the other exactly when the first has none, a review may be swapped, a configured model spends it and it has room; otherwise nothing runs, and the count is raised exactly when one does |
| `Spend.DecidesByRoom` | `src/robbie/orchestrator.py:373-388` | that rule, for every configuration, reading, count and ask |
| `Spend.DecidingTaskFallsBack` | `src/robbie/orchestrator.py:331-338` | and for a task under the lock in any state of the system |
| `Spend.StepKeepsCount` | `src/robbie/orchestrator.py:322-346` | every step keeps the count equal to the holders plus the leaked slots, within the semaphore |
| `Spend.InflightIsHolders` | `src/robbie/orchestrator.py:322-346` | over every interleaving the count is the tasks holding a slot plus the deaths between increment and try, the holders never pass the cap, and it is zero exactly when neither is left |
| `Spend.SlotIsLeaked` | `src/robbie/orchestrator.py:331-346` | wherever one more run may start, a task that dies between the increment and the try leaves the count one higher and every holder as it was |
| `Spend.FreshSlotIsLeaked` | `src/robbie/orchestrator.py:331-346` | so a fresh orchestrator with a slot and an open meter can end with a count of one and nobody in flight |
| `Spend.AllowedFits` | `src/robbie/budget.py:97-174` | a readable meter that admits has room for one more of its own arm, though the count is shared |
| `Spend.SpendIsBounded` | `src/robbie/orchestrator.py:322-388` | an arm's finished cost plus reserve times its runs in flight never exceeds its cutoff plus what its reading had not seen at its last admission |
| `Spend.SpendWithinCutoff` | `src/robbie/budget.py:97-174` | with meters that keep up it never exceeds the cutoff |
| `Spend.LagIsReached` | `src/robbie/orchestrator.py:322-388` | the bound is met with equality: whatever earlier runs cost, a reading that leaves room for one more lets one start |
| `Spend.LateCostOverruns` | `src/robbie/orchestrator.py:416-448` | for every configuration with a slot and a reserve that fits its cutoff, either arm and every lag, a run that overruns the cutoff by exactly the lag |
| `Spend.GateIsRoom` | `src/robbie/budget.py:114-146` | the gate against a reading is the ceiling floor((cutoff - r) / reserve) on the count |
| `Spend.MostInFlight` | `src/robbie/orchestrator.py:322-346` | on one arm and an unchanged reading, no more than the cap and the room, and anyone asking below the room is admitted |
| `Spend.RoomIsReached` | `src/robbie/orchestrator.py:322-346` | every count up to the cap and the room is reached |
| `Store.Db.FinishReviewRow` | `src/robbie/db.py:190-230` | only the given columns are written |
| `Store.Db.ReplaceRequested` | `src/robbie/db.py:303-319` | delete and inserts in one transaction: replaced exactly when no PR is named twice, otherwise rolled back |
| `Store.Db.SettleMoved` | `src/robbie/db.py:358-374` | one UPDATE per head is one statement over all of them |
| `Store.SettleEachIsStale` | `src/robbie/db.py:358-374` | the order of those UPDATEs does not matter |
| `Store.Db.NoticeOnce` | `src/robbie/db.py:559-567` | true exactly the first time |
| `Store.WrittenColumns` | `src/robbie/db.py:190-230` | row by row: a finished pass writes the given columns of its own row and nothing else |
| `Store.StartedRow` | `src/robbie/db.py:180-188` | a started review replaces its key's row by one that runs and knows nothing else, and changes no other row |
| `Store.HeldRow` | `src/robbie/db.py:232-240` | a recorded hold is a held row with its reason and no verdict, and changes no other row |
| `Store.DoneRows` | `src/robbie/db.py:376-386` | the done label settles every row of its PR and changes nothing else |
| `Store.UnlabeledRows` | `src/robbie/db.py:388-407` | losing the label settles the rows of the repo's other PRs that no person has taken, and changes nothing else |
| `Store.StaleRows` | `src/robbie/db.py:358-374` | a moved head settles its PR's rows at other commits whose build is green, red or waited for, and changes nothing else |
| `Store.ExpiredRows` | `src/robbie/db.py:242-256` | approvals waiting since before the time expire, no other row changes, and only newer ones still wait |
| `Store.ReapedRows` | `src/robbie/db.py:491-499` | at boot every row left running becomes failed, with the reason, and no other row changes |
| `Store.RequestRows` | `src/robbie/db.py:303-356` | a repo's requests become the ones just read, or lose those named; other repos' stay |
| `Keys.DedupKeyIsInjective` | `src/robbie/gates.py:140-146` | distinct commits and requests never share a key |
| `Keys.NoticeKeyIsInjective` | `src/robbie/publish.py:37-40` | no two notices of any kind share a key |
| `Gates.FirstCarried` | `src/robbie/gates.py:47-64` | the first of the rule's labels the PR carries |
| `Safety.OwnMoveOk` | `src/robbie/orchestrator.py:241-314` | each step of a task establishes what its next place relies on |
| `Safety.OtherKeeps` | `src/robbie/orchestrator.py:241-314` | a task whose own rows and key others left alone keeps what it relies on |
| `Safety.StepKeepsInv` | `src/robbie/orchestrator.py:135-169` | over any tables at all, every event of the machine keeps what each task relies on and what was judged when the tick began |
| `Safety.JudgedStays` | `src/robbie/db.py:168-240` | over every run a judged key stays judged |
| `Safety.NoSecondContainer` | `src/robbie/orchestrator.py:241-314` | no container is ever started for a commit that already has a pass or a recorded hold |
| `Rows.FactsStay` | `src/robbie/ci_watch.py:56-114` | over every real run, each of these stays true once it is: a commit of a PR is published under one key; a row settled red has its note recorded for that commit; only judged rows carry a cost; no two approvals in the watch's window wait on one commit's build |
| `Rows.ErrandsDiffer` | `src/robbie/publish.py:51-66` | while no two approvals in the watch's window wait on one commit's build, no two tasks have a post out under one key, the CI watch's included |
| `Ledger.StepLogs` | `src/robbie/publish.py:51-66` | every event keeps GitHub's count of a key equal to recorded, about to be recorded, and lost |
| `Ledger.OncePerKey` | `src/robbie/publish.py:51-66` | unless two approvals in the watch's window wait on one commit's build, a key reaches GitHub once, plus once per lost answer of its own; between ticks the count is exactly what is recorded and what was lost |
| `Ledger.RivalsPostTwice` | `src/robbie/ci_watch.py:56-114` | two that do, from any tables that hold them: both looks read the key before either writes it, and its red note goes out twice with no answer lost |
| `Ledger.AtMostOnceIff` | `src/robbie/publish.py:51-66` | every real run posts each key at most once if and only if no two approvals in the watch's window wait on one commit's build with its red note owed |
| `Owed.RefusedPostIsLost` | `src/robbie/orchestrator.py:496-550` | a review or an announcement that GitHub refuses is never sent again: whatever runs from there, its key's count stays |
| `Owed.JudgedAsksNoBuild` | `src/robbie/orchestrator.py:668-693` | once a commit is judged, wherever its task stands, no run asks for a build of it; a refused build goes out again only where the pass was never recorded |
| `Owed.QueuePostIff` | `src/robbie/publish.py:51-66` | between ticks, no real run sends a commit's review, build request, announcement or red note of gate 6 if and only if the commit is judged or the key recorded |
| `Owed.RefusedRedStaysOwed` | `src/robbie/ci_watch.py:56-114` | a refused note of a red build leaves its row followed and its key unrecorded |
| `Owed.RefusedRedIsSent` | `src/robbie/ci_watch.py:56-114` | and once that tick's other looks are over, the next tick's look sends it |
| `Owed.RedNoteIff` | `src/robbie/ci_watch.py:56-114` | between ticks, no real run sends a commit's red-build note if and only if its key is recorded, or the commit is judged and none of its approvals is followed |
| `Ledger.DryRunWritesNothing` | `src/robbie/orchestrator.py:390-398` | a dry run leaves every table and GitHub as they were, the reaping at boot aside |
| `Ledger.NoPublishKeeps` | `src/robbie/orchestrator.py:122-131` | over seeded repos a run that publishes nothing keeps the judged keys, posts nothing, and spends no notice but merges and unmapped authors |
| `Ledger.NoPublishKeepsIff` | `src/robbie/orchestrator.py:834-855` | such runs add no judged key if and only if every configured repo is seeded: cold start records its backlog without publishing too |
| `Ledger.CostKeptIff` | `src/robbie/db.py:180-188` | a recorded cost outlives every run from these tables if and only if its row is one they may not replace: a forced run's with its own model; and over a seeded repo, a judged key in a real run, a judged commit in one that posts nothing |
| `Store.ForcedIsApart` | `src/robbie/orchestrator.py:171-180` | no PR of a queue ever has the key of a forced run with its own model |
| `Ledger.QuietPassIsLost` | `src/robbie/orchestrator.py:106-131` | every cost a run without publishing records is on a row that the next run, quiet or real and unforced, may replace |
| `Ledger.ColdStart` | `src/robbie/db.py:24-50` | an empty database is where every theorem about runs may start, and each fact about rows holds there |
| `Pipeline.Orchestrator.OncePer` | `src/robbie/publish.py:51-66` | check, post, record: read and spent only by a real run, spent only by a post that was taken |
| `Pipeline.Orchestrator.Gate` | `src/robbie/orchestrator.py:241-271` | whichever read fails, acting on its decision leaves what the turn leaves; it is a review exactly when every read worked, no label keeps robbie away, and the PR changes something, owes no answer, is not red and brings a commit no row calls judged; its one write marks the rows of this PR done, when a person took it, nothing else holds it and the run may write |
| `Pipeline.Orchestrator.Handle` | `src/robbie/orchestrator.py:222-239` | one PR's whole turn leaves nothing, the done label's settlement, or the tables, the posts and the outcome of the machine's task driven by the same answers |
| `Pipeline.Orchestrator.Act` | `src/robbie/orchestrator.py:273-314` | acting on a decision leaves what that task leaves from there |
| `Pipeline.Orchestrator.HoldBack` | `src/robbie/orchestrator.py:284-294` | so does a hold: told once and recorded, as the task does it |
| `Pipeline.Orchestrator.Review` | `src/robbie/orchestrator.py:400-425` | so does a review, from the dry run's stop or the slot on |
| `Pipeline.Orchestrator.Contain` | `src/robbie/orchestrator.py:424-454` | so does a started container, however it ends |
| `Pipeline.Orchestrator.Deliver` | `src/robbie/orchestrator.py:456-550` | so does a run that came back: held if unusable, otherwise recorded and posted |
| `Pipeline.Orchestrator.DeliverOk` | `src/robbie/orchestrator.py:496-511` | so does an ok: label, rejection, build, row, announcement, in the task's order |
| `Pipeline.Orchestrator.RequestCi` | `src/robbie/orchestrator.py:668-693` | asking for a build leaves the rest of the task as it stood, and posts nothing when one already runs |
| `Pipeline.Orchestrator.WatchOne` | `src/robbie/ci_watch.py:56-114` | one approval's build leaves what the watch's task leaves |
| `Pipeline.Orchestrator.Seed` | `src/robbie/orchestrator.py:834-855` | the readable backlog is held, and the repo, and no other, marked seeded exactly when all of it was read |
| `Pipeline.DriveIsARun` | `src/robbie/orchestrator.py:222-314` | whatever a task driven alone leaves is the end of a run of the machine, tables, outcome and posts |
| `Pipeline.TurnIsARun` | `src/robbie/orchestrator.py:222-271` | and so is a whole turn, in any queue phase that has not met the PR |
| `Pipeline.StoppedTurn` | `src/robbie/orchestrator.py:222-271` | a turn whose read fails, or whose PR carries a brake label, leaves every table and posts nothing; the labels hold it whatever read would fail next |
| `Pipeline.TakenTurn` | `src/robbie/orchestrator.py:252-261` | the turn of a PR with the done label: exactly its own rows become done, in a run that may write and when no label holds it; nothing is posted |
| `Pipeline.JudgedIff` | `src/robbie/orchestrator.py:241-550` | exactly when a real turn leaves its key judged, failed reads and taken PRs included |
| `Pipeline.HeldTurn` | `src/robbie/orchestrator.py:284-294` | a turn the gates hold tells the operator once unless the PR is empty, leaves a row exactly when waiting cannot change the answer, and posts nothing |
| `Pipeline.CiRedTurn` | `src/robbie/orchestrator.py:296-310` | a turn stopped by a red build alone sends its note at most once per commit and leaves no row |
| `Pipeline.SilentTurn` | `src/robbie/orchestrator.py:416-454` | a turn let through without a slot changes nothing; with a container that fails, its own row is failed with the run's error, `spend` gets the cost unless an endpoint bore it, and nothing is posted |
| `Pipeline.WordlessTurn` | `src/robbie/orchestrator.py:465-472` | one that parses no blocks leaves its own row running and changes nothing else |
| `Pipeline.UselessTurn` | `src/robbie/orchestrator.py:481-497` | an answer that cannot be used is held with its cost, its reason and its verdict, if it has one; an ok whose label GitHub keeps leaves its row running; neither posts anything |
| `Pipeline.OkTurn` | `src/robbie/orchestrator.py:496-511` | the row, the tables and the posts an ok leaves, the build asked for before it is announced, a dismissal that GitHub refuses told once |
| `Pipeline.OkLeaves` | `src/robbie/orchestrator.py:496-511` | that row is published, says ok, waits on its build and opened no thread; a dismissal refused is one notice |
| `Pipeline.SentIs` | `src/robbie/publish.py:51-66` | each of those posts goes out exactly when its key is not recorded and GitHub takes it, and its key is recorded exactly when the answer comes back |
| `Pipeline.FindingsTurn` | `src/robbie/orchestrator.py:513-550` | the row, the posts and the outcome a needs-work or comment leaves, by how its post came out |
| `Pipeline.WatchTurn` | `src/robbie/ci_watch.py:67-108` | what a look at a build settles; red exactly when its note is out |
| `Pipeline.QuietWatch` | `src/robbie/ci_watch.py:67-108` | in a run that posts nothing the look settles nothing either |
| `Pipeline.SeedingHoldsTheBacklog` | `src/robbie/orchestrator.py:834-855` | a seeded backlog is judged, every key of it and nothing else new |
| `Pipeline.SeedingKeepsTheRest` | `src/robbie/orchestrator.py:834-855` | every other row and every other table stays |
| `Board.RetireUnlabeled` | `src/robbie/orchestrator.py:791-832` | a failed or full read and a dry run retire nothing; otherwise the three sweeps in order |
| `Board.BoardIs` | `src/robbie/db.py:271-301` | after a tick's reads the board is exactly the requested, labelled, unbraked PRs whose newest pass in the window approves their head with a build green, red or waited for; other repos' rows stay |
| `Board.LatestPassDecides` | `src/robbie/db.py:271-301` | a newly published pass is its PR's newest, the row id breaking ties; every earlier approval leaves the board, and the PR is on it exactly when this pass approves |
| `Board.WritesDrawIds` | `src/robbie/db.py:24-50` | every statement keeps row ids distinct and below the counter they are drawn from |
| `Board.OneIsNewest` | `src/robbie/db.py:271-301` | every PR with a pass in the window has exactly one newest |
| `Board.BrakeIsReversible` | `src/robbie/db.py:340-356` | brake labels and requests leave no trace: the next read's board is as if the earlier had not happened |
| `Board.BoardAgreesWithGate` | `src/robbie/config.py:119-127` | a PR on the board is one gate 3 does not hold |
| `Board.RetiredStaysOff` | `src/robbie/db.py:340-374` | a settled approval never returns to the board, over every run |
| `Board.MovedHeadNeedsAPass` | `src/robbie/db.py:358-374` | a push, or the label's loss, takes an approval off the board for good |
| `Board.TakenLeavesTheBoard` | `src/robbie/db.py:376-386` | the done label's settlement takes its own PR off the board and no other |
| `Board.TakenTurnLeavesTheBoard` | `src/robbie/orchestrator.py:252-261` | and so does the turn of a PR that carries it, exactly when its labels were read, none of them holds it and the run may write |
| `Ticks.Loop` | `src/robbie/main.py:364-404` | the loop waits after a tick exactly when it is quiet or the tick finished no review |
| `Ticks.RoundJudges` | `src/robbie/main.py:378-387` | a review a real tick reports is of a queued key, unjudged when the tick began and judged when it ended |
| `Ticks.RoundsAreBounded` | `src/robbie/main.py:378-393` | rounds without a wait are at most the keys the queues showed that were unjudged at the start |
| `Ticks.RoundsUseUpKeys` | `src/robbie/main.py:378-393` | that is, the first round's unjudged keys plus the keys that arrived meanwhile |
| `IssueQueue.GitHubIssue.Settle` | `src/robbie/publish.py:383-424` | comment, assignee, label, and the queue label off last; a crash leaves a prefix of these |
| `IssueQueue.GitHubIssue.TriageOne` | `src/robbie/issues.py:71-110` | the fixer gets an open, unlinked issue exactly when its form calls for an attempt or its money question came back clear; the issue goes through the plan of what was said, and every way out that is not a decision leaves it as it was |
| `IssueQueue.TriageFailsClosed` | `src/robbie/issues.py:112-157` | which decision each form and each money answer gets: a money path, or no answer, goes to a person |
| `IssueQueue.NothingUnclearedIsSent` | `src/robbie/issues.py:71-157` | over every run in which triage never read such an issue, nothing is sent to the fixer and only people put the fixable label on |
| `IssueQueue.GitHubIssue.FixOne` | `src/robbie/fixer.py:68-164` | the same for the fixer: what GitHub says of the branch is the outcome, and a closed meter leaves the issue as it was |
| `IssueQueue.SettledMeans` | `src/robbie/publish.py:383-424` | what a settlement that went through leaves: one comment, an owner where a person must act, the fixable label only for the fixer, and one queue label off |
| `IssueQueue.StepKeeps` | `src/robbie/issues.py:71-110` | every step of triage, fixer, sidecar and people keeps the issue accounted for, and every removal explained |
| `IssueQueue.NothingIsDropped` | `src/robbie/publish.py:383-424` | with a crash allowed between any two writes, every removal of a queue label by robbie has a comment of robbie's to itself; an issue cleared for a fix is in the fixer's queue until the fixer settles it; one triage never took out is still in its queue; unless a person took a label off |
| `IssueQueue.SameLabelDrops` | `src/robbie/config.py:72-80` | every configuration the validator accepts in which the fixer looks for the cleared label, case aside: a cleared issue is in no queue |
| `IssueQueue.QueuedIff` | `src/robbie/fixer.py:39-45` | no run loses a cleared issue if and only if no label the fixer looks for is the one triage clears, labels compared as GitHub does, without case |
| `IssueQueue.OnePullRequest` | `src/robbie_mcp/pr.py:253-310` | however the fixer retries and calls overlap, one pull request for an issue, and another only for a branch people deleted or merged |
| `IssueQueue.KeptBranchTakesAnother` | `src/robbie_mcp/pr.py:253-282` | a merged branch that was kept takes a second push when the look at it fails, and a second pull request |
| `IssueQueue.ToolEventsRun` | `src/robbie_mcp/pr.py:245-310` | how far a call gets is a run of the system, and what it leaves: nothing before the push, the branch once it lands, a pull request only with it |
| `IssueQueue.Sidecar.OpenPullRequest` | `src/robbie_mcp/pr.py:245-310` | it opens a pull request exactly when the patch is allowed, the issue is open and still labelled, no branch of its own answers, the patch applies, the push lands and GitHub takes it; and from any state of the system that shows it the same, it leaves what those steps leave |

## Left out

- GitHub, Slack, docker, git and the model are answers: each call is taken, refused, or (for a post) taken with its answer lost. Human-facing wording is not modelled; the reply prompt's fixed sentences are a parameter constrained only to be plain lines.
- `Pipeline.Orchestrator.Handle`: an exception that is not GitHub's ends a turn as failed; the machine has that as a task's death, the method does not.
- `ThreadContract.ParseThreadVerdicts`: an id is ASCII digits; other Unicode decimal digits, which the pattern and `int` also accept, are not read.
- `poll_once`, `CiWatch.watch` and `Sweeper.sweep` start tasks in loops; their concurrency is the machine's, not a method's.
- A repo is assumed to be configured once and a PR to be named once per queue read; a forced review (`review_one`) ignores the gates by design and is in no run, though its rows may be in the tables a run starts from.
- One robbie runs at a time on a database, and its clock does not go back: what the CI watch follows only gets newer.
- `Ledger.OncePerKey`: a refused post is taken to have reached nothing; one that reached GitHub and raised is a lost answer and is counted.
- The queries nothing here depends on (`approved_prs`, `passes_for`, `reviewed_prs`, the counts) and the one-shot that retracts stale rejections are left out.
- The columns of a review row that no decision reads (tokens, duration, transcript, finding counts, times other than creation) are not modelled, nor `ci_seen_at`.
- `Spend.SpendIsBounded`: containers of the fixer and of the money question ask the gate without a slot and are outside it; meter polling, staleness and day rollover are a reading that moves as it likes or is unreadable.
- Which arm a key is hashed to is an arbitrary fixed choice; arithmetic on money is over reals.
- A quiet run settles no thread: a guard of the machine (`Lifecycle.MayWrite`), not of `Sweep.Sweeper`.
- `Sweep.SweepsConverge`: comment ids are distinct because threads are a map, replies are not deleted, and threads with a hundred comments take no further moves.
- `Anchor.AnchorAll`: `int(f["line"])` is given as what it returns or that it fails; parsing the findings' JSON and rendering comments are left out.
- `Checks.SummarizeChecks`: upper-casing is ASCII; check objects are the five fields the code reads.
- `Diff.Commentable`: `\d` is an ASCII digit.
- `Diff.DiffCollects`: hunks do not touch, as a diff's do not, and no piece below a header reads as one; `Diff.HeaderInsideJumps` and `Diff.HeaderInsideMeets` show why the second is asked.
- `Diff.ExtraPiecesIff`: the patch does not end in an empty row, which `splitlines` would drop; `Diff.DiffCollects` covers those that do.
- `Keys.DedupKeyIsInjective`: repo names and commit hashes are assumed free of colons, as GitHub's are; the configuration's pattern alone does not exclude one.
- `IssueQueue.OnePullRequest`: git takes a push onto no branch or onto one whose tip trunk has, and refuses any other; two calls whose commits are the very same commit are not covered, and which patches are refused is an input.
- `IssueQueue.Sidecar.OpenPullRequest`: the sidecar compares its label exactly; it is taken to be spelled as the repository spells it.
- SQLite itself, schema migration, the dashboard, the digest, exports, secrets, the model proxy and the Sentry sidecar are not part of this model.
