# Verified model of the workflow orchestrator core

A Dafny model of the parts of the orchestrator that have an algorithm or a protocol in them, and proofs of
what they are for. `dafny verify dfyconfig.toml` checks all of it.

- **The workflow engine and its durable step log** (`Process*`, `Step*`, `Log*`, `Engine*`). `StepLog` says on
  values what one log write does to the rows: append, replace, or fold a repeated error; `LogWrites` proves what
  that leaves, key by key and column by column. `StepStore` has the mapped
  row objects and state dicts that are changed in place, and is proved equal to it. `Engine` has the step
  loop, step groups with their control keys, recovery from the log, resume, abort, callbacks and timeouts, and
  the events in the life of a process. `EngineInvariant` and `EngineTheorems` prove the history theorem:
  the number of cleared rows is the program counter. `EngineEvents` proves what callbacks, progress updates,
  timeouts and aborts store. `EngineCalls` proves which step functions are called, and
  how often. `EngineTransparency` and `EngineRestarts` prove that pauses do not show, `EngineRetries` when the
  input of a retry is lost, `EngineEndings` how processes stop, `EngineGroups` exactly when a pause inside a
  group goes wrong, `EngineFocus` that focusing commutes with running, and `EngineStore` has the loops over the
  mapped log.
- **The search language** (`Search*`). The lexer and the recursive-descent parser as objects with a position,
  proved equal to grammar functions; the lexer character by character (`SearchCharacters`) and the exact language
  that the parser accepts (`SearchLanguage`); the round trip from trees to text and back; the visitor that appends to
  and pops from a list, with a reader of tsquery strings that gives its output a meaning; and the visitor that
  builds SQL statements, read as sets of rows. `SearchExamples` has texts that the two do not answer as meant.
- **Domain models** (`Domain*`). Saving a tree of product blocks into instance, value and relation rows, with
  reused rows, foreign blocks and the removal of what is left over, and loading it again, also from rows that no
  tree was saved to (`DomainMembers`, `DomainRows`). Lists are objects where the source shares one list between
  fields.
- **Smaller cores.** `SubscriptionRelations` (search by levels with a visited set), `ProductBlockMap` (a closure
  that avoids what is known), `Transactions` (re-entrant transactions), `Crypt` (a mixed-radix, modulus-65
  encoding) and `DictDiff` with `DictPaths` (difference and merge of nested dicts).

What a step function, a JSON round trip, the global lock, the relation fetcher, the order of rows from the
database, the clock and random filler do is a parameter of the model; theorems hold for all of them that
meet the stated conditions.

Where the code does not do what its design promises, the code is kept and the exact condition is proved:

- A pause that a check inside a step group sees ends the group as a success. After its first leaf the group is
  logged as cleared and its other sub steps never run; that happens exactly when one of the checks left sees a
  pause, for a group entered anew (`EngineGroups.PausedGroupIsSkipped`), entered at any leaf
  (`EngineGroups.RunningGroupIsCleared`) or resumed (`EngineGroups.PausedAfterResume`). Already at the first
  check no row of the group is written, and the row before it is rewritten (`EngineGroups.PausedAtFirstCheck`).
  `EngineGroups.PausedGroupIsLost` is a concrete run.
- The input of a retry is lost exactly when its first check sees a pause
  (`EngineRetries.PausedRetryForgetsInput`, with a concrete retry in `EngineRetries.AnswerIsForgotten`).
- The parser accepts more than its documented grammar: a minus sign that negates nothing, and empty alternatives in
  a group of values. It refuses an empty phrase as the value of a key (`SearchLanguage.AcceptsExactly`).
- A negated key that the SQL visitor does not know is not negated (`SearchSql.NegatedKeyIsOppositeIffKnown`, with
  a text in `SearchExamples`).
- A word without anything but glue characters, or an empty phrase or group, makes the tsquery string unreadable
  (`SearchTsMeaning.StringMeansTree`, with a text in `SearchExamples`).
- A list field named like a product block is fused with the list field before it (`DomainTheorems.FusedLists`,
  and exactly when in `DomainTheorems.SavedIsLoaded`).
- Removing an instance takes the relations of other subscriptions to it along
  (`DomainTheorems.SubscriptionSaved`), and a block of the subscription that only a foreign block depends on is
  removed (`DomainTheorems.LeftBehind`, and exactly when in `DomainTheorems.SubscriptionLoads`).
- Product block classes with one name share one entry: the class that is known from a level above or from an
  earlier product stays, else the last one that is found. What only the others depend on can be lost, exactly
  when it is not followed (`ProductBlockMap.CollectsFollowed`, `ProductBlockMap.LostIffNotFollowed`, with two
  concrete products in `ProductBlockMap.TwinIsNotFollowed` and `ProductBlockMap.DeepTwinIsNotFollowed`).
- Characters from 256 on are not decrypted (`Crypt.DecryptsWhatWasEncrypted`, `Crypt.WideIsLost`).

## Model

| member | source | states |
|---|---|---|
| EngineTheorems.HistoryKeeps | orchestrator/core/workflow.py:1567-1644 | Over every history of runs, resumes, restarts, callbacks, progress updates, timeouts and aborts the stored rows stay a trace: between steps, halted in a step, or ended; and the status of the process row reports the last row. |
| EngineTheorems.ClearedRowsAreTheProgramCounter | orchestrator/core/services/processes.py:807-837 | Whatever happened, while a process is not completed or aborted, recovery goes on at the step whose index is the number of cleared rows, and the state of the i-th cleared row is one that a pass through the leaves of the i-th step leads to from the row before; how often each leaf is called is in `EngineCalls`. |
| EngineCalls.HistoryIsAccounted | orchestrator/core/workflow.py:1567-1613 | Whatever happened, the calls of step functions made for a process are passes through its steps in order: each step is passed once, with all its leaves in order, after passes that failed and began again at the first leaf; no event adds more than one failing pass; and the rows say how many steps are passed and which leaf a waiting process stands at. |
| EngineCalls.EachLeafOnce | orchestrator/core/workflow.py:1567-1613 | Without failures no leaf is called twice and none is left out: the calls are the flattened leaves of the workflow up to the program counter, inside a step up to where it waits, and all of them when the process completes in its last step. |
| EngineCalls.ExecAccounts | orchestrator/core/workflow.py:1567-1613 | One run of the step loop adds whole passes and at most one failing or waiting pass. |
| EngineCalls.GroupTurnCalls | orchestrator/core/workflow.py:425-450 | One turn of a group calls its leaves from the one after the named sub step on, each once and in order: all of them when it succeeds, and up to the leaf that its state names when it halts. |
| EngineCalls.ResumeAccounts | orchestrator/core/workflow.py:1628-1634 | Resuming a halted process calls no leaf of a single step again, and of a group the leaves after the one that halted. |
| EngineCalls.TimeoutAccounts | orchestrator/core/workflow.py:1660-1674 | A timeout calls nothing and ends the waiting pass as a failing one. |
| EngineTransparency.RecoveryIsTransparent | orchestrator/core/services/processes.py:807-837 | For deterministic steps: pause between any two steps and restart as often as you like; once finished, the log, the process row and the calls that were made are those of one run without pauses, times and users aside. |
| EngineRestarts.RestartsAreInvisible | orchestrator/core/services/processes.py:584-742 | The same for whole histories: pauses and restarts put anywhere between the resumes, retries, callbacks, progress updates, timeouts and aborts of a process leave no trace, when each of these finds the process stopped; a retry that is paused at its first check must have no new input, and a repeated error must find its own user in both logs or in neither. |
| EngineRestarts.RetrySame | orchestrator/core/services/processes.py:599-640 | A failed process that is retried, paused any number of times, also before it does anything, and finished has the log of the retry without pauses. |
| EngineRestarts.ResumeSame | orchestrator/core/workflow.py:1616-1644 | A suspended process, also one inside a step group, that is resumed, paused any number of times and finished has the log of the resume without pauses. |
| EngineRetries.PausedRetryForgetsInput | orchestrator/core/workflow.py:1592-1597 | The input of a retry is the state that the failed step is run on exactly when its first check sees no pause; otherwise the run leaves no trace of it, whatever it is. |
| EngineRetries.AnswerIsForgotten | orchestrator/core/services/processes.py:610-640 | A concrete failed step group that asks for input: two answers lead to different logs without a pause, and to the same one with it. |
| EngineTransparency.PauseIsInvisible | orchestrator/core/workflow.py:1567-1613 | Finishing a run that was paused any number of times leaves the log of a run that was not. |
| EngineTransparency.TurnSame | orchestrator/core/workflow.py:1567-1613 | Two runs of a deterministic step from states that differ in times only end in rows that differ in times only, also through a step group; and a repeated error is folded in both when both last rows are of the current user, or both are not. |
| EngineTransparency.LoggedSame | orchestrator/core/services/processes.py:191-361 | Two log writes whose inputs differ in times only leave databases that differ in times only, a repeated error with its retries included, when both may change a last row of their own user or neither may. |
| EngineEndings.TheEndAbsorbs | orchestrator/core/workflow.py:1346-1379 | Once a completed or aborted row is last, no later event calls a step, writes a row or changes the process row; for an aborted process only a second abort by a user writes. |
| EngineEndings.TheEndCallsNothing | orchestrator/core/workflow.py:1346-1379 | An ended process stays ended in the same way and no step of it is ever called again, also when it is aborted again. |
| EngineEndings.EndedRunsNothing | orchestrator/core/workflow.py:1616-1644 | Even a resume that nobody refuses calls no step of an ended process and writes no row: all it does is to set the process row to running. |
| EngineEndings.TimeoutRewritesOneRow | orchestrator/core/workflow.py:1660-1674 | A timeout of an awaiting process rewrites its last row and no other, keeps its name, the cleared rows and the program counter, and leaves it resumable; on any other process it does nothing. |
| EngineEndings.UnlockedLifeStops | orchestrator/core/services/processes.py:584-596 | If the engine is never paused, every process that has stopped is completed, aborted or resumable. |
| EngineGroups.PausedGroupIsSkipped | orchestrator/core/workflow.py:408-454 | A group that is entered anew and whose first check sees no pause: if it ends with the process still running, it counts as cleared and recovery goes on after it, and that is right (all its leaves were passed) if and only if none of its later checks sees a pause. |
| EngineGroups.RunningGroupIsCleared | orchestrator/core/workflow.py:408-454 | The same for a group that goes on at any leaf k: right if and only if none of the checks before its remaining leaves sees a pause; otherwise the stored state names the leaf it stopped at. |
| EngineGroups.GroupIsCutShort | orchestrator/core/workflow.py:1567-1613 | The inner loop, from any leaf, names a sub step in the state it succeeds with exactly when the engine is paused at one of the checks it has left. |
| EngineGroups.PausedAtFirstCheck | orchestrator/core/workflow.py:425-450 | A group whose first check already sees a pause calls no leaf and reports success: it rewrites the row before it under that row's name. A failed row is cleared by that, so the group is never entered; after a cleared row recovery goes on at the group, and the loop stops there exactly when the next check between two steps sees a pause too, else the group is passed over and the step after it is run. |
| EngineGroups.PausedAfterResume | orchestrator/core/workflow.py:1616-1644 | A halted group that is resumed: the row of the resume counts as cleared, so recovery goes on after the group, and that is right if and only if none of the checks left sees a pause, the one before it goes on included. |
| EngineGroups.KilledIsPaused | orchestrator/core/workflow.py:437-446 | A process that is killed in a group after the log write of a leaf recovers to what a pause at that moment leaves: at the step after the group. |
| EngineGroups.PausedGroupIsLost | orchestrator/core/workflow.py:408-454 | A concrete workflow that is paused inside a group and restarted: it completes and the state never got what its sub step sets. |
| EngineInvariant.ExecKeeps | orchestrator/core/workflow.py:1567-1613 | The step loop started at a ready state keeps the trace invariant, however it stops. |
| EngineInvariant.StepTurn | orchestrator/core/workflow.py:1567-1613 | One turn of the loop ends as the invariant asks: one new row on top of the rows before, or the last failing one rewritten, and after success a state without steering keys. |
| EngineInvariant.GroupLoop | orchestrator/core/workflow.py:408-454 | The inner loop of a group keeps one row, takes the state through the leaves in order, and stops at the end, at a leaf that did not succeed, or at a pause. |
| EngineInvariant.GroupEnds | orchestrator/core/workflow.py:1592-1610 | The inner loop that begins at leaf k stops before a leaf e: it has called the leaves from k up to e, each once and in order, no check up to there saw a pause, and it stops for the end of the group, for a leaf that did not succeed, or for a check that does see one. |
| EngineInvariant.GroupRuns | orchestrator/core/workflow.py:425-450 | A group that is entered, or re-entered after the sub step that the state names, leaves one row under its name, which the loop around it rewrites with what the inner loop ended with. |
| EngineInvariant.LeafMovesOn | orchestrator/core/workflow.py:395-406 | After leaf k of a group the stored state names leaf k and the group; after the last one it names neither. |
| EngineInvariant.LoggedReports | orchestrator/core/services/processes.py:191-234 | After every log write the process in memory is the last row, and the status of the process row is the one of that row, or for failed tasks one of the failed kinds. |
| EngineInvariant.TraceOneMore | orchestrator/core/services/processes.py:807-837 | A row that one pass through the next step produced extends the trace by one. |
| EngineTheorems.RecoverIdle | orchestrator/core/services/processes.py:807-837 | Between steps, recovery gives the state of the last cleared row and the index after it. |
| EngineTheorems.RecoverHalted | orchestrator/core/services/processes.py:807-837 | In a halted step, recovery gives that step's own variant and state and its index. |
| EngineTheorems.RecoverEnded | orchestrator/core/services/processes.py:807-837 | Of an ended process recovery gives its end. |
| EngineTheorems.ResumeKeeps | orchestrator/core/workflow.py:1616-1644 | Resuming an idle or a halted process keeps the invariant. |
| EngineTheorems.ResumeHalted | orchestrator/core/workflow.py:1628-1634 | Resuming a halted process logs the resume as a success in a row of its own and goes on at the next step, or for a group at the same step, and keeps the invariant. |
| EngineTheorems.GroupGoesOn | orchestrator/core/workflow.py:430-435 | After the resume of a group that halted at leaf k the group goes on at leaf k + 1. |
| EngineTheorems.AfterFinds | orchestrator/core/workflow.py:425-429 | With distinct names the group goes on exactly after the sub step that the state names. |
| EngineTheorems.TimeoutKeeps | orchestrator/core/workflow.py:1660-1674 | A timeout keeps the invariant. |
| EngineTheorems.AbortKeeps | orchestrator/core/workflow.py:1647-1657 | An abort keeps the invariant. |
| EngineTheorems.CallbackKeeps | orchestrator/core/services/processes.py:668-704 | A callback that stores its data and resumes keeps the invariant; what it stores is in `EngineEvents.CallbackIsStored`. |
| EngineEvents.CallbackIsStored | orchestrator/core/services/processes.py:668-704 | A callback that is not refused stores its data under the key that the step named, or under `callback_result`; the row has all other keys, and the rows before it stay; the resume runs on that. |
| EngineEvents.CallbackIsHandedOn | orchestrator/core/services/processes.py:694-704 | When nothing else is merged the data is also in the row that the resume appends and in the state that the run goes on with. |
| EngineEvents.TokenIsChecked | orchestrator/core/services/processes.py:636-652 | A callback or an update with another token, or to a process that awaits none, changes nothing. |
| EngineEvents.ProgressIsStored | orchestrator/core/services/processes.py:707-742 | A progress update puts its data, and the request to remove it, into the awaiting row and changes nothing else. |
| EngineEvents.ProgressIsGone | orchestrator/core/services/processes.py:274-282 | The next write that does not fail has all keys but the progress. |
| EngineEvents.TimeoutIsStored | orchestrator/core/workflow.py:1660-1674 | A timeout makes the awaiting row a failed one with the reason as its error, the rest of the state without a traceback, and the same name and creator; the process can be retried. |
| EngineEvents.AbortIsStored | orchestrator/core/workflow.py:1647-1657 | An abort appends one row with what recovery gives, and calls nothing; a completed process stays as it is. |
| EngineEvents.ResumeIsWritten | orchestrator/core/workflow.py:1628-1641 | A resume leaves the halted row and appends a row with the merged state; the run goes on with that state, behind that row, with the next step or in the same group. |
| EngineEvents.NoStepIsResumed | orchestrator/core/workflow.py:1628-1636 | A process that waits without a step left for it only gets a failed process row. |
| EngineEvents.TaskStaysTask | orchestrator/core/services/processes.py:191-209 | Over every history a process stays what it was started as, a task or no task. |
| EngineEvents.GroupRowIsTimed | orchestrator/core/workflow.py:447-454 | The row of a group has the start time of the group, however late its sub steps were logged. |
| EngineTheorems.ProgressKeeps | orchestrator/core/services/processes.py:707-742 | A progress update keeps the invariant. |
| EngineTheorems.HappenKeeps | orchestrator/core/services/processes.py:599-742 | Every event that is not refused keeps the invariant. |
| LogWrites.AppendedRow | orchestrator/core/services/processes.py:245-326 | A write that neither fails nor asks to replace appends one row: its name, its creator, its times, and, key by key, the state without what steers the log and what is named for removal. |
| LogWrites.InPlaceRow | orchestrator/core/services/processes.py:265-286 | A write that asks to replace rewrites the last row, column by column, and keeps its name and its creator. |
| EngineHistory.LogFails | orchestrator/core/services/processes.py:288-315 | A failing write takes over the last row exactly when that row records the same error of the same step and user: it keeps its name, gets the new state and one more retry with the time of the last one; any other failing write appends a row. |
| LogWrites.FailedRow | orchestrator/core/services/processes.py:288-326 | A failing write, column by column: the same error of the same step and user as in the last row is counted in that row with the times, any other is a row of its own; a traceback is not stored. |
| LogWrites.FailedInPlace | orchestrator/core/services/processes.py:265-308 | A failing write that asks to replace: retries are counted when the step and the user are those of the row, since the row has taken over the state before it is compared. |
| LogWrites.RemovedAreGone | orchestrator/core/services/processes.py:274-286 | A step that asks to remove a list of keys hands on exactly its other keys, without the four that steer the log, and texts as they were; in an appended row and in a replaced one. |
| LogWrites.ReplacesWhenAsked | orchestrator/core/services/processes.py:264-272 | A write that does not fail takes the place of the last row exactly when there is one and the state asks for it with a value that is not empty, zero, false or missing. |
| LogWrites.ProcessRow | orchestrator/core/services/processes.py:191-234 | The process row after a step: its name, its assignee, and which status belongs to which variant. |
| LogWrites.TaskRow | orchestrator/core/services/processes.py:209-229 | The process row after a failing task, by the class and the status code of the error. |
| LogWrites.ResumableAfter | orchestrator/core/services/processes.py:584-596 | After a step a process can be resumed exactly when the step failed, waits, is suspended or awaits a callback. |
| EngineFocus.FocusCommutes | orchestrator/core/workflow.py:552-588 | Running focused steps ends in the same variant as running the steps on the dict under the key; unless failed or waiting, that dict is what the run on it ends with, and all other keys are as they were. |
| EngineFocus.FocusTurn | orchestrator/core/workflow.py:552-568 | One focused step keeps that relation. |
| StepStore.ProcessLog.LogStep | orchestrator/core/services/processes.py:329-361 | The log write on mapped objects, with a replaced row that takes over the very dict of the new state, is the function on values. |
| StepStore.CurrentStepToUpdate | orchestrator/core/services/processes.py:245-326 | The chosen row, on mapped objects and a dict that is popped in place: it changes the last row or makes a new one exactly as the functions on values do, whose rows `LogWrites` tells key by key; the row that is not chosen stays. |
| StepStore.FoldError | orchestrator/core/services/processes.py:288-315 | Finds the repeated error and counts it. |
| StepStore.WriteRow | orchestrator/core/services/processes.py:329-361 | Writes the row with its state normalised. |
| StepStore.ProcessLog.UpdateProcess | orchestrator/core/services/processes.py:191-234 | Writes the process row, with the failed kinds of tasks, and drops the traceback from the state. |
| EngineStore.ExecLeaves | orchestrator/core/workflow.py:408-454 | The loop inside a group on the mapped log is the function on values. |
| EngineStore.RunGroup | orchestrator/core/workflow.py:422-450 | The function of a step group on the mapped log is the function on values. |
| EngineStore.Turn | orchestrator/core/workflow.py:1592-1608 | The body of the step loop on the mapped log is the function on values. |
| EngineStore.Exec | orchestrator/core/workflow.py:1567-1613 | The step loop on the mapped log is the function on values. |
| EngineStore.RunWf | orchestrator/core/workflow.py:1616-1644 | `runwf` on the mapped log, with the step it pops or keeps, is the function on values; a halted process without a remaining step raises, and that is written to the process row alone. |
| SearchLexer.Lexer.Lex | orchestrator/core/utils/search_query.py:90-105 | The loop over the text yields the tokens, which `SearchCharacters` tells character by character. |
| SearchLexer.Lexer.ReadWord | orchestrator/core/utils/search_query.py:80-88 | Reads the longest word at the position. |
| SearchLexer.LexerKeepsTheText | orchestrator/core/utils/search_query.py:90-105 | The spellings of the tokens are the text without white space, `!`, `<` and `>`. |
| SearchCharacters.LexedWords | orchestrator/core/utils/search_query.py:90-105 | Of any text only the last token is `END`, and a word is not empty, does not begin with a dash and has none of the nine separators, written out, and no white space in it. |
| SearchCharacters.PlainTextIsOneWord | orchestrator/core/utils/search_query.py:63-88 | A text without separators and white space that does not begin with a dash is one word, with all dashes, dots and underscores in it. |
| SearchCharacters.SplitsAt | orchestrator/core/utils/search_query.py:93-103 | A text is split at every separator, wherever it stands; the separator gives its token or none. |
| SearchCharacters.DashNegates | orchestrator/core/utils/search_query.py:42-50 | A dash before a word is the negation of what follows. |
| SearchLexer.SpacedTokens | orchestrator/core/utils/search_query.py:63-105 | Printing tokens with spaces and lexing gives the tokens back. |
| SearchRoundTrip.ParserIsTotal | orchestrator/core/utils/search_query.py:111-267 | On every text the parser ends without reading past `END`, with a well-formed tree or a parse error. |
| SearchRoundTrip.ParseOfText | orchestrator/core/utils/search_query.py:111-267 | Printing any well-formed tree, lexing and parsing gives that tree. |
| SearchRoundTrip.TextIsNormalForm | orchestrator/core/utils/search_query.py:111-267 | The printed form of what a user typed parses to the same tree. |
| SearchLanguage.AcceptsExactly | orchestrator/core/utils/search_query.py:111-267 | The parser accepts exactly the sequences of tokens that spell a tree, and returns that tree: the documented grammar, with empty alternatives, and a minus sign that negates nothing, left out; all other tokens are a parse error and no tokens spell two trees. |
| SearchLanguage.QueryIsRead | orchestrator/core/utils/search_query.py:247-261 | All that spells a query, in a group or as a whole, is read as the tree that it spells. |
| SearchLanguage.QueryIsSpelled | orchestrator/core/utils/search_query.py:247-261 | All that is read as a query spells the tree that is returned. |
| SearchRoundTrip.ReadQuery | orchestrator/core/utils/search_query.py:251-267 | The tokens of a query are read as that query, to their end and no further. |
| SearchRoundTrip.ReadTerm | orchestrator/core/utils/search_query.py:214-242 | The tokens of a term are read as that term. |
| SearchRoundTrip.ReadKVValue | orchestrator/core/utils/search_query.py:160-177 | The tokens of a value or a group of values after a colon are read as that. |
| SearchParser.Parser.ParseSearchWord | orchestrator/core/utils/search_query.py:187-193 | From any position before `END`, the method that moves the shared iterator returns what the grammar function says and stops where it says. |
| SearchParser.Parser.ParsePhrase | orchestrator/core/utils/search_query.py:195-206 | From any position before `END`, the method that moves the shared iterator returns what the grammar function says and stops where it says. |
| SearchParser.Parser.ParseValueGroup | orchestrator/core/utils/search_query.py:160-177 | From any position before `END`, the method that moves the shared iterator returns what the grammar function says and stops where it says. |
| SearchParser.Parser.ParseValue | orchestrator/core/utils/search_query.py:179-185 | From any position before `END`, the method that moves the shared iterator returns what the grammar function says and stops where it says. |
| SearchParser.Parser.ParseGroup | orchestrator/core/utils/search_query.py:208-212 | From any position before `END`, the method that moves the shared iterator returns what the grammar function says and stops where it says. |
| SearchParser.Parser.ParsePositiveTerm | orchestrator/core/utils/search_query.py:214-234 | From any position before `END`, the method that moves the shared iterator returns what the grammar function says and stops where it says. |
| SearchParser.Parser.ParseTerm | orchestrator/core/utils/search_query.py:236-242 | From any position before `END`, the method that moves the shared iterator returns what the grammar function says and stops where it says. |
| SearchParser.Parser.ParseAndExpression | orchestrator/core/utils/search_query.py:244-249 | From any position before `END`, the method that moves the shared iterator returns what the grammar function says and stops where it says. |
| SearchParser.Parser.ParseQuery | orchestrator/core/utils/search_query.py:251-261 | From any position before `END`, the method that moves the shared iterator returns what the grammar function says and stops where it says. |
| SearchParser.Parser.Parse | orchestrator/core/utils/search_query.py:263-267 | The whole text must be a query. |
| SearchTsMeaning.StringMeansTree | orchestrator/core/utils/search_query.py:270-386 | The string that the visitor emits, down to the parentheses, operators and prefix marks inside words, can be read as a tsquery (negation, then follow, then and, then or) exactly when every word, phrase and group has something to search for, and then it has the boolean structure of the tree. |
| SearchTsSolid.SolidReads | orchestrator/core/utils/search_query.py:270-386 | One direction: the string of a tree with something to search for everywhere is read as the tree means. |
| SearchTsMeaning.HollowIsUnreadable | orchestrator/core/utils/search_query.py:270-386 | The other direction: one empty word, phrase or group anywhere leaves a string that is no tsquery. |
| SearchTsSolid.TermReads | orchestrator/core/utils/search_query.py:342-362 | The pieces of a term are read as its items that follow each other, also inside more text. |
| SearchTsSolid.NegatedReads | orchestrator/core/utils/search_query.py:342-362 | A negated term is read as one operand: that is what the parentheses are for. |
| SearchTsSolid.WordReads | orchestrator/core/utils/search_query.py:308-331 | A word is read as one operand, whose parts follow each other and of which only the last can be a prefix: the parentheses around several parts keep a negation over all of them. |
| SearchTsParts.PartsAtGlue | orchestrator/core/utils/search_query.py:270-276 | The parts of a word are those before and those after any of its glue characters, which are written out. |
| SearchTsParts.PartOfText | orchestrator/core/utils/search_query.py:274-276 | Text without glue is one part, without the white space around it and with double quotes for single ones. |
| SearchTsParts.NoPart | orchestrator/core/utils/search_query.py:274-276 | White space alone has no part. |
| SearchTsSolid.KeyIsValue | orchestrator/core/utils/search_query.py:288-294 | A key is read as its meaning, in which only a plain word is converted. |
| SearchTsQuery.Visitor.VisitGroup | orchestrator/core/utils/search_query.py:277-285 | Leaves the joined text as it was with the alternatives in parentheses behind it, the last operator popped; without alternatives the opening parenthesis is what is popped. |
| SearchTsQuery.Visitor.VisitKVTerm | orchestrator/core/utils/search_query.py:287-306 | Leaves the joined text as it was with the pieces of the key, `<->` and the pieces of the value behind it; a group of values is in parentheses. |
| SearchTsQuery.Visitor.VisitSearchWord | orchestrator/core/utils/search_query.py:308-331 | Leaves the text as it was with one string behind it: the parts of the word between its glue characters joined by `<->`, the mark of a prefix, and parentheses around several parts; or nothing. |
| SearchTsQuery.Visitor.VisitPhrase | orchestrator/core/utils/search_query.py:333-340 | Leaves the joined text as it was with the words joined by `<->` behind it, the last operator popped. |
| SearchTsQuery.Visitor.VisitTerm | orchestrator/core/utils/search_query.py:342-362 | Leaves the joined text as it was with the pieces of the term behind it, a negated one in parentheses where it needs them. |
| SearchTsQuery.Visitor.VisitAndExpression | orchestrator/core/utils/search_query.py:364-370 | Leaves the joined text as it was with the terms joined by the and-operator behind it, the last operator popped. |
| SearchTsQuery.Visitor.VisitQuery | orchestrator/core/utils/search_query.py:372-379 | Leaves the joined text as it was with the alternatives joined by the or-operator behind it, the last operator popped. |
| SearchSql.QuerySelects | orchestrator/core/utils/search_query.py:392-472 | The statement, read as a set of rows, selects exactly the base rows that satisfy the tree, for trees without empty groups and with known keys. |
| SearchSql.QueryFails | orchestrator/core/utils/search_query.py:462-472 | The visitor raises exactly on a query or group without alternatives. |
| SearchSql.TermSelects | orchestrator/core/utils/search_query.py:429-455 | A term filters the rows of the statement that it is given, or their complement when it is negated. |
| SearchSql.ColumnSelects | orchestrator/core/utils/search_query.py:408-417 | A known key with a value selects the rows on which the condition that its column makes holds, or the others. |
| SearchSql.ValueGroupSelects | orchestrator/core/utils/search_query.py:418-422 | A known key with a group of values selects exactly what it selects with any one of them; negated, the rest. |
| SearchSql.PlainSelects | orchestrator/core/utils/search_query.py:429-432 | A plain value selects the rows in which the condition of any column finds it; negated, the rest. |
| SearchSql.NegatedKeyIsOppositeIffKnown | orchestrator/core/utils/search_query.py:408-427 | A negated key selects the complement exactly when the key is known or there is no row to tell. |
| SearchExamples.NegatedUnknownKeySelectsNothing | orchestrator/core/utils/search_query.py:408-427 | A concrete text, `-n:x` without a column `n`: every row satisfies it and the statement selects none. |
| SearchExamples.EmptyPhraseIsUnreadable | orchestrator/core/utils/search_query.py:333-340 | A concrete text, two quotes: it is parsed, and the string of its tree is no tsquery. |
| SearchExamples.EmptyGroupIsHalfWritten | orchestrator/core/utils/search_query.py:279-285 | Two parentheses are parsed; the string for them is the closing one alone, and the statement cannot be made. |
| DomainTheorems.SavedIsLoaded | orchestrator/core/domain/base.py:400-440 | Saving an owned tree of blocks succeeds exactly when no saved block links another twice, and then loading gives the tree back exactly when no two list fields share one list: scalars equal, lists of values in any order, every block in its own field, lists of one type in order. |
| DomainTheorems.SubscriptionSaved | orchestrator/core/domain/base.py:1439-1498 | However the blocks of other subscriptions in the tree differ from their rows: saving a subscription succeeds exactly when nothing is linked twice and every direct block is saved with it or has a row of it; then its instances are exactly the blocks reached through its own blocks, the rest of its old ones are gone, and an instance of another subscription is as it was exactly when it does not depend on what is gone. |
| DomainTheorems.SubscriptionLoads | orchestrator/core/domain/base.py:1439-1498 | A direct block of a saved subscription is loaded again exactly when no two of its list fields share one list and every block of the subscription below it is reached through blocks of its own. |
| DomainTheorems.LeftBehind | orchestrator/core/domain/base.py:1488-1496 | A concrete database: a block of the subscription that only a foreign block depends on is removed by saving the subscription, and its tree is not loaded again. |
| DomainTheorems.UnreachedIsGone | orchestrator/core/domain/base.py:1488-1496 | Every block of the subscription that is not reached through its own blocks is among the removed ones. |
| DomainRoundTrip.ReturnedIsThere | orchestrator/core/domain/base.py:762-825 | Of a tree that is loaded as itself every block has a row. |
| DomainTheorems.FusedLists | orchestrator/core/domain/base.py:325-359 | A concrete block with a list field named like a product block: saving succeeds, and loading gives another block. |
| DomainTheorems.PlainNamesAreClear | orchestrator/core/domain/base.py:335-347 | When no list field is named like a product block, no lists are shared. |
| DomainRoundTrip.LoadsBack | orchestrator/core/domain/base.py:762-825 | A tree whose rows are stored is loaded as itself exactly when no two list fields share a list. |
| DomainRoundTrip.StepBack | orchestrator/core/domain/base.py:258-359 | One level of that: a block comes back when its lists are its own and its blocks come back. |
| DomainRoundTrip.HeldIsOwn | orchestrator/core/domain/base.py:325-347 | What a field holds in the end is what was loaded for it, exactly when no other list is extended with it. |
| DomainRoundTrip.GroupedLength | orchestrator/core/domain/base.py:329-333 | Grouping blocks by type loses none. |
| DomainRoundTrip.GroupedSingle | orchestrator/core/domain/base.py:329-333 | A list of one type keeps its order. |
| DomainSaved.BlockStores | orchestrator/core/domain/base.py:906-968 | Saving a block succeeds exactly when it may, leaves rows that say what the tree is, and spoils no row of any other block. |
| DomainSaved.RelationsRead | orchestrator/core/domain/base.py:874-904 | The relations of a saved block give each field its blocks back, in any order in which the database returns rows of one order id. |
| DomainSaved.RelationsOneEach | orchestrator/core/domain/base.py:442-468 | The duplicate check makes the targets of a block's relations different, so their keys are unique and each target has one field. |
| DomainSaved.QueueKeepsFields | orchestrator/core/db/models.py:543-552 | Rows sorted by order id give the relations of one field in their order, whatever the order of equal ids. |
| DomainSaved.HeadWritten | orchestrator/core/domain/base.py:938-957 | Writing the own row of a block says what the block is and keeps what is said of others. |
| DomainSaved.TailWritten | orchestrator/core/domain/base.py:874-904 | Writing its relations says what it depends on and keeps what is said of others. |
| DomainTheorems.SubscriptionStores | orchestrator/core/domain/base.py:1476-1478 | When the foreign blocks of a tree are as they are stored, saving leaves rows that say what every block of the tree is. |
| DomainTheorems.FieldsWrite | orchestrator/core/domain/base.py:400-440 | Whatever the foreign blocks look like: saving the blocks of all fields succeeds exactly when no own block links another twice, returns exactly the blocks reached through own blocks, and writes their rows and no other. |
| DomainTheorems.BlockWrites | orchestrator/core/domain/base.py:906-968 | The same for one block: a foreign block cuts off what is below it. |
| DomainValues.SavedRows | orchestrator/core/domain/base.py:827-872 | Each field is saved in its own rows: the k-th value in the k-th row that the field had, the rest in new rows, and no more rows than values. |
| DomainRows.RowOfEachValue | orchestrator/core/domain/base.py:827-872 | After saving a field has as many rows as values: the k-th has the k-th value, and the key of the k-th row that there was, or none. |
| DomainRows.SlotIsLoaded | orchestrator/core/domain/base.py:705-737 | A value is missing exactly when its field must have one and no row is for it. |
| DomainRows.LastRowIsLoaded | orchestrator/core/domain/base.py:719-737 | A field that is no list is loaded with the last of its rows. |
| DomainRows.RowsAreLoaded | orchestrator/core/domain/base.py:719-737 | A list is loaded with all of its rows, in their order. |
| DomainValues.HeldIsLoaded | orchestrator/core/domain/base.py:705-736 | Rows that hold the values of a block are loaded as those values, but for the order of lists. |
| DomainValues.OfPermuted | orchestrator/core/db/models.py:527-534 | The order in which the database returns value rows does not change what a field has. |
| DomainValues.SaveInstanceValues | orchestrator/core/domain/base.py:827-872 | The loops over fields and over values next to rows compute that. |
| DomainValues.LoadInstanceValues | orchestrator/core/domain/base.py:705-736 | The dict of defaults, then values, holds for each field what the specification loads. |
| DomainLoops.CheckDuplicates | orchestrator/core/domain/base.py:442-468 | The buckets by instance id tell whether any id stands twice. |
| DomainLoops.FindMembers | orchestrator/core/domain/base.py:286-333 | The loops group and filter the instances of a field as the function does, which `DomainMembers` tells relation by relation. |
| DomainMembers.MembersHas | orchestrator/core/domain/base.py:291-333 | For any relations, also without field names: a field loads exactly the stored instances of its types to which no relation names a field, or one names this field. |
| DomainMembers.MembersInOrder | orchestrator/core/domain/base.py:286-333 | A field of one type loads them in the order of the relations. |
| DomainMembers.OwnBlocksFit | orchestrator/core/domain/base.py:258-358 | For any rows, the blocks that are loaded for a field are as many as it can hold, and of its types. |
| DomainMembers.LoadsUnlessShared | orchestrator/core/domain/base.py:258-358 | For any rows, an object that has all its values and blocks can be made unless fields share a list. |
| DomainMembers.LoadedFits | orchestrator/core/domain/base.py:762-824 | For any rows, what is loaded is an object of its class with the id and the owner of its row. |
| DomainStore.AddField | orchestrator/core/domain/base.py:335-347 | The list object that is extended, or replaced by a new one, holds for every field what the specification says, fused fields included. |
| DomainStore.Session.Save | orchestrator/core/domain/base.py:906-968 | The method on the session is the function on rows. |
| DomainStore.Session.SaveInstances | orchestrator/core/domain/base.py:400-440 | The loops over fields and lists save what the function on rows saves, stop at the first exception, and return the instances that each field depends on. |
| DomainStore.Session.SetDomainModelAttrs | orchestrator/core/domain/base.py:874-904 | The nested loops replace the relations of the instance with one for each block, numbered in its field, and write nothing else. |
| DomainStore.Session.SaveSubscription | orchestrator/core/domain/base.py:1439-1498 | The method on the session, with its foreign root check and the deletion of what was not saved, is the function on rows. |
| DomainStore.Session.RemoveOld | orchestrator/core/domain/base.py:1488-1496 | Popping the saved instances and deleting the others one by one removes the set difference with all its relations. |
| DomainStore.Session.FromDb | orchestrator/core/domain/base.py:762-825 | The method that loads a block is the function on rows. |
| DomainStore.Session.LoadInstances | orchestrator/core/domain/base.py:258-358 | The loop over fields, with its shared lists, loads the blocks of each field as the function does; which ones these are is in `DomainMembers.MembersHas`. |
| SubscriptionRelations.FindsExactly | orchestrator/core/services/subscription_relations.py:238-285 | Whatever cycles there are, the result has, each once, exactly the subscriptions one relation beyond a path of at most the depth limit, of recursable product types after the start. |
| SubscriptionRelations.NearestComeFirst | orchestrator/core/services/subscription_relations.py:261-285 | What is found further away, or for later subscriptions, comes behind what was found before, in the order of the fetcher. |
| SubscriptionRelations.ExpandsOnce | orchestrator/core/services/subscription_relations.py:264-285 | No subscription is asked for twice when the ones to start with are distinct. |
| SubscriptionRelations.CollectHas | orchestrator/core/services/subscription_relations.py:264-285 | Level by level, what is expanded is what is reached anew. |
| SubscriptionRelations.ReachIsPaths | orchestrator/core/services/subscription_relations.py:264-285 | Levels are paths. |
| SubscriptionRelations.GetRecursiveRelations | orchestrator/core/services/subscription_relations.py:238-285 | The recursion that updates the shared set of used ids returns that, and asks the fetcher for exactly the expanded ids. |
| ProductBlockMap.CollectsFollowed | orchestrator/core/cli/migrate_domain_models.py:93-122 | For all models, also when several classes have one name and whatever cycles there are: the search ends, the map has what is known and exactly the names that are followed, what is known keeps its class, and every other name maps to a class of that name that is followed. A path is followed when each block is the last of its name among what the one before depends on, and that name was known neither before the search nor from a level above. |
| ProductBlockMap.LostIffNotFollowed | orchestrator/core/cli/migrate_domain_models.py:93-122 | A name that the class reaches is lost exactly when it is not followed. |
| ProductBlockMap.CollectsExactly | orchestrator/core/cli/migrate_domain_models.py:93-122 | When a name is that of one class nothing is lost: the map has what is known and exactly the named blocks that the class reaches without passing a known one. |
| ProductBlockMap.CollectsReached | orchestrator/core/cli/migrate_domain_models.py:93-122 | For all models, what is collected is reached without passing a known block. |
| ProductBlockMap.TwinIsNotFollowed | orchestrator/core/cli/migrate_domain_models.py:103-112 | A concrete product that depends on two classes of one name: the last one is kept, and what only the other depends on is reached and not collected. |
| ProductBlockMap.DeepTwinIsNotFollowed | orchestrator/core/cli/migrate_domain_models.py:113-122 | A concrete product with two classes of one name on different levels: the first one is kept, and what only the other depends on is reached and not collected. |
| ProductBlockMap.LastIsKept | orchestrator/core/cli/migrate_domain_models.py:107-112 | Of the classes of one new name that a class depends on directly the last is the one in the map, whatever is found below. |
| ProductBlockMap.NewInOrder | orchestrator/core/cli/migrate_domain_models.py:107-111 | The new names stand in the order in which they are first found, also when a later class takes the place of an earlier one. |
| ProductBlockMap.LastFinderIsKept | orchestrator/core/cli/migrate_domain_models.py:114-121 | Of the classes with one name below, the one that the last block finds is kept. |
| ProductBlockMap.ProductsFollowed | orchestrator/core/cli/migrate_domain_models.py:125-137 | For all models: the map of all products has exactly the names that are followed from some product when what the products before it gave is known, each under its own name, and a name keeps the class that it was given first. |
| ProductBlockMap.ProductsReach | orchestrator/core/cli/migrate_domain_models.py:125-137 | When a name is that of one class: the blocks of all products are exactly the named blocks that some product reaches. |
| ProductBlockMap.FollowedSplits | orchestrator/core/cli/migrate_domain_models.py:108-122 | For all models, what is followed from a class is what it depends on directly, or what is followed from one of those when all of them are known. |
| ProductBlockMap.MoreKnown | orchestrator/core/cli/migrate_domain_models.py:107-112 | Every recursion knows more names: so it ends. |
| ProductBlockMap.MapProductBlocks | orchestrator/core/cli/migrate_domain_models.py:125-137 | The loop over products folds as the specification does. |
| Transactions.AllOrNothing | orchestrator/core/db/database.py:293-317 | An outermost block makes all pending writes durable or none, nothing before it ends, for every program of writes, commits, exceptions, handlers and nested blocks; only an interrupt leaves writes pending. |
| Transactions.NothingInside | orchestrator/core/db/database.py:275-303 | While commit is disabled no commit and no nested block makes anything durable or loses anything, at any time. |
| Transactions.CommitOutside | orchestrator/core/db/database.py:170-184 | Outside any block a commit makes all that is pending durable, or when it is refused none of it. |
| Transactions.DisabledStaysPending | orchestrator/core/db/database.py:275-291 | Code for which commit is disabled leaves its writes pending, however it ends, and the flag as it was. |
| Transactions.FlagRestored | orchestrator/core/db/database.py:275-290 | The disabled flag is as before, however the block ends. |
| Transactions.DurableStays | orchestrator/core/db/database.py:170-174 | No program takes back what is durable. |
| Transactions.FailedStepLeavesNothing | orchestrator/core/workflow.py:286-301 | A step that raises, or whose commit is refused, leaves nothing of its own and becomes a failed process. |
| Transactions.Session.Run | orchestrator/core/db/database.py:275-317 | The session methods, with the flag set and reset around blocks, do what the specification says. |
| Transactions.Session.InTransaction | orchestrator/core/db/database.py:293-317 | `transactional`: re-entrant, commit or roll back. |
| Transactions.Session.WithCommitDisabled | orchestrator/core/db/database.py:275-290 | `disable_commit`: the block that set the flag resets it. |
| Transactions.Session.CommitIfEnabled | orchestrator/core/db/database.py:170-174 | `WrappedSession.commit` does nothing while disabled. |
| Crypt.DecryptsWhatWasEncrypted | orchestrator/core/utils/crypt.py:68-132 | For every text, salt and filler: decryption gives a text of the same length, and it is the text that was encrypted exactly when all its characters are below 256. |
| Crypt.WideIsLost | orchestrator/core/utils/crypt.py:68-132 | The first character that does not fit, of code 256, comes back as the character of code 0. |
| Crypt.SplitIsExact | orchestrator/core/utils/crypt.py:50-58 | The greedy mixed-radix split is exact and every part is at most 63. |
| Crypt.GapRead | orchestrator/core/utils/crypt.py:93-95 | The gap that is read is the gap written, plus one, modulo 65, minus one. |
| Crypt.Alphabet | orchestrator/core/utils/crypt.py:36-46 | The four families have 65 different characters. |
| Crypt.GapsAreDigits | orchestrator/core/utils/crypt.py:27-58 | The gaps of a character are its digits in the base that its position has, written out for each of the seven. |
| Crypt.RefusedIs | orchestrator/core/utils/crypt.py:97-136 | A text is refused exactly when it is empty or its first character is not in the pattern, whose dash makes a range. |
| Crypt.DecodedIsReread | orchestrator/core/utils/crypt.py:106-132 | Decoding keeps in step with encoding through all seven weight lists. |
| Crypt.Cryptic.GapEncode | orchestrator/core/utils/crypt.py:50-65 | The two loops compute the chain of characters. |
| Crypt.Cryptic.Encrypt | orchestrator/core/utils/crypt.py:68-83 | The loop over the text computes the encrypted text. |
| Crypt.Cryptic.Decrypt | orchestrator/core/utils/crypt.py:106-132 | The loop over nibbles computes the decryption, with refused and raising inputs. |
| Crypt.Cryptic.GapDecode | orchestrator/core/utils/crypt.py:97-103 | The weighted sum of the gaps, modulo 256. |
| DictDiff.DifferenceIsPatch | orchestrator/core/utils/get_updated_properties.py:17-29 | Merging the difference of two nested dicts does what merging the second dict does, up to Python's `==`. |
| DictDiff.NothingChanges | orchestrator/core/utils/get_updated_properties.py:17-29 | The difference is empty exactly when merging the second dict changes nothing. |
| DictPaths.EveryKeyIsChanged | orchestrator/core/utils/get_updated_properties.py:17-37 | Every key of the difference, on every level, is new or changed. |
| DictPaths.ChangedIsThere | orchestrator/core/utils/get_updated_properties.py:17-37 | Whatever is new or changed at the end of a path, and not a dict in both, is in the difference as in the second dict. |
| DictPaths.AnswerIsUnderKey | orchestrator/core/utils/get_updated_properties.py:32-37 | Values that are not both dicts: nothing when they are equal, else the second one, as under a key of dicts. |
| DictDiff.MergeGivesSecond | orchestrator/core/services/translations.py:34-40 | Merging gives the second dict exactly when that has every key of the first, also of dicts in both. |
| DictPaths.SecondIsTaken | orchestrator/core/services/translations.py:34-40 | At the end of any path the merged dict has what the second one has, unless both have a dict there. |
| DictPaths.FirstIsKept | orchestrator/core/services/translations.py:34-40 | Where the second dict has nothing, and no value in the way, the merged dict has what the first one has. |
| DictDiff.MergeTwice | orchestrator/core/services/translations.py:34-40 | Merging a second time changes nothing. |
| DictDiff.NoDifferenceAfterMerge | orchestrator/core/services/translations.py:34-40 | After merging there is no difference left. |
| DictDiff.GetDictUpdates | orchestrator/core/utils/get_updated_properties.py:17-29 | The loop over keys computes the difference. |
| DictDiff.GetUpdatedProperties | orchestrator/core/utils/get_updated_properties.py:32-37 | The case split on dicts and other values. |
| DictDiff.DictObject.DeepMerge | orchestrator/core/services/translations.py:34-40 | The loop that overwrites entries in place merges. |

## Left out

- EngineTheorems.HistoryKeeps: for workflows `init >> ... >> done` whose steps leave the engine's own keys alone, whose groups are not nested and have sub steps of different names, and for an engine that no group sees paused (what happens otherwise is in `EngineGroups`); a run that dies in the middle of a group is not an event: its rows recover as those of a pause there (`EngineGroups.KilledIsPaused`).
- EngineTransparency.RecoveryIsTransparent: for steps that ignore their start time and the moment they run; without that no two runs need agree.
- EngineRestarts.RestartsAreInvisible: for timeouts whose reason is not the name of the step, and for retries of which the conditions in the table hold: with new input a paused retry loses it, and repeated errors are folded by user.
- EngineCalls.EachLeafOnce: under the conditions of `HistoryKeeps`; a call is that of a step function by the loop, and what a step does when it is called is a parameter.
- EngineFocus.FocusCommutes: for plain steps that neither read their start time nor set control keys, on a state as the log stores it that has a dict or nothing under the key.
- The second write of `safe_logstep` when a log write fails, the columns for the failure reason and traceback, and log output.
- Exceptions of steps are the error dicts that `error_state_to_dict` makes of them; the mapping of exception classes is not part of this model.
- `conditional`, callback steps and forms: any function from state to process can be a step; input forms are an arbitrary merge into the state.
- Two runs of one process at the same time: a run is one call, and events come one after the other.
- SearchSql.QuerySelects: for the visitor with a base table and join key; without them the visitor logs an error and leaves groups out.
- SearchTsMeaning.StringMeansTree: `<->` is read as a list of items, so its associativity is not told apart; the snake case conversion of keys is a parameter.
- Which search vectors and columns the conditions compare, and how text is normalised by the database.
- DomainLoad.FromDb: loads trees up to a given depth, which is the recursion limit of the interpreter; a cycle of relations ends there in an exception.
- DomainTheorems.SavedIsLoaded: values are strings as `str` made them, so the conversion of loaded strings to other types is not modelled; a class is found by the name of its product block, so life cycle variants of one block are not told apart; blocks of other subscriptions are loaded as they are stored.
- DomainTheorems.SubscriptionSaved: for trees in which a block without a row is of the subscription; another one would be saved as an instance of it.
- DomainStore.Session.Save: rows are values in the maps of the session, so two references to one row object are not told apart; keys of new value rows are given at the flush, which is not modelled.
- `_load_root_instances` and the database function it calls, the model cache and `diff_product_in_database`.
- ProductBlockMap.CollectsExactly: for models in which a name is that of one class, as `ProductBlockMap.ProductsReach`; `CollectsFollowed` and `ProductsFollowed` are for all.
- SubscriptionRelations.FindsExactly: the fetcher is a function of the subscription; its queries and the filter on statuses are not part of this model.
- Transactions.AllOrNothing: code that calls `rollback` or re-enables commit itself is not modelled.
- DictDiff.DictObject.DeepMerge: nested dicts are values, so the sharing of nested dicts with the merged one is not modelled; floats are left out.
- Crypt.Cryptic.Encrypt: the salt and filler are arguments instead of random characters.
- Celery, thread pools, websockets, metrics, authorisation, GraphQL, migrations and the reflection on types: plumbing without an algorithm to prove.
