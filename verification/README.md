# FlexWeek in Dafny

FlexWeek keeps a student's weeks on one server and edits them in desktop windows. This project models the
protocol between them and the desktop's harder stand-alone parts, and proves what every run of them keeps.

`dafny verify dfyconfig.toml` checks it.

## The protocol

- `Store` is one account's rows and the transaction behind `POST /api/changes` and restore, as functions on
  values and as a class whose handlers change its fields in place and put them back on a refusal.
- `Prediction` is the revision a save sends along with its own deletions.
- `RetryOnce` and `Restores` are about whole runs of requests against one account.
- `History` is undo and redo steps, `Session` every reaction of a window as a function of its whole state, and
  `NativeSession` the session object itself, field by field, each method tied to `Session`.
- `Protocol` and `NoLostUpdate` put several windows, one server and a network together. A request may arrive
  any number of times, however late; an answer may be lost; edits may come at any time. The invariant is that
  every revision a window keeps, in its open week, its parked weeks, its pending save or its steps, is that of a
  version some answer showed it.
- `RoundTrip`, `Cursor` and `TravelOutcomes` follow one week from the window to the server and back: saves,
  retries, undos and redos are a cursor in one line of states. `LostAnswers` and `UnheardSaves` are about what that
  line leaves out: an answer to an undo or redo that is lost, and edits over a save that went through unheard.
- `NoLostHomework` watches the same runs for what is shown of each homework. `ProtocolRuns` and `HomeworkRun` build
  four whole runs of windows and server in which something is lost, `ReloadRun` one in which nothing is.
- `Moves` follows steps of several weeks, a block moved to another week above all, there and back again. `StaleSteps`
  is what a window does over newer data: reloads, steps made stale and refused undos.
- `Parking` is about switching weeks, `SetupQueue` about what the setup pages kept.

## The other parts

`ClientEpochs` is the client's reply table across account changes. `Devices` is the two-thread call and the
start-up of the sync service. `AmbientPlayer` and `EndlessLoop` are the focus sounds. `LookCache` is the look
caches. `CommandBar` is ranking, highlighting and grouping. `ClockBox` is the typed clock box. `PeImports` reads a
program file's import names. `LookLens` is the look editor's settings and Reset.

## Where the code does not keep a promise

Each of these is a theorem with the exact condition, and a run or an input that shows it.

- A save can replace a version its window never read, when it deletes homework whose sessions another window has
  meanwhile taken out of the week: the predicted revision then meets a later one. `ProtocolRuns.ALostUpdate` is such
  a run, `Prediction.SkipsNothingIffNoDeletesHere` the condition, `NoLostUpdate.NoLostUpdate` the bound in every run.
- A homework text can be replaced unread when its homework was deleted and made again, since its revisions then start
  over (`NoLostHomework.TakenUnreadExactly`, in every run `NoLostHomework.NoLostHomework`; the run is
  `HomeworkRun.ATextNeverRead`).
- A step that changed only homework is never made stale by a reload (`StaleSteps.ReloadMarksExactly`), so its undo can
  take back a newer text from another window that it has been shown (the run is `HomeworkRun.ANewerTextUndone`).
- An undo or redo the server ran but whose answer was lost leaves the window one state behind. Repeating it heals
  this exactly when it deletes no homework (`LostAnswers.AskedOnce`, `RepeatsNeverHeal`; the run is
  `AnUndoThatNeverHeals`).
- A window that edits over a save that went through unheard can be refused as behind its own save
  (`UnheardSaves.EditOverUnheardSave`; the run is `AnEditRefusedOverItsOwnSave`).
- A landed save drops the parked edits of every other week it wrote, as undoing a move does
  (`Parking.ParkedIsLostExactlyWhen`; the run is `ProtocolRuns.ParkedEditsLost`), and a reload that lands on edits made
  meanwhile drops them (`Parking.SwitchKeepsUnsaved`; the run is `ANoteReloadedAway`).
- A week kept by setup is not saved when it is in conflict, and its save is forgotten
  (`SetupQueue.KeptWeekIsPosted`; the run is `AWeekForgotten`).
- A decode failure that arrives while another sound plays leaves the sink open in a player that says it has
  stopped, and Stop no longer reaches it (`AmbientPlayer.QuietUnlessDecodingFailsLate`, `StopCannotReachIt`; the run
  is `TheNoiseGoesOn`).
- A sound louder than 23170 of 32767 can end its seam with an overflow
  (`EndlessLoop.AlwaysFitsExactlyWhenQuietEnough`).
- An end box stepped down through midnight goes to the end of the day (`ClockBox.SinglesDownExactly`,
  `TwoStepsDownAreNotOne`). An end box with a latest time would leave its limits that way
  (`ClockBox.StepKeepsLimitsUnless`, `AnEndBoxLeavesItsLimits`), but the program gives none of its end boxes one.
- A restore point that restores made a way back is safe for eighteen more points; after that
  `Restores.OutlivesExactly` says when it goes, and `ARecoveryPointGoes` is a run in which it does.
- Letters that are two when folded shift the highlighting of a match (`CommandBar.PrefixesAgreeExactly`; an input is
  `PaintedLate`).

## Model

| member | source | states |
|---|---|---|
| Store.Account.SaveWeekRow | engine/store/src/weeks.rs:36-69 | A week that already reads as sent keeps its revision and is not asked for it; otherwise a wrong revision or a repeated block id is refused with the weeks unchanged, and a right one moves up by one. |
| Store.Account.UpsertAssignment | engine/store/src/assignments.rs:83-122 | New homework needs revision 0 and room below 1000; unchanged text keeps its revision; a stale revision is refused and nothing changes. |
| Store.Account.CutWeeks | engine/store/src/assignments.rs:124-186 | The loop over the weeks takes the deleted homework's sessions out of every week, moves exactly the weeks that held one up by one, and reports those weeks and sessions. |
| Store.Account.RemoveAssignment | engine/store/src/assignments.rs:124-186 | Deleting homework is refused when it is missing or stale and leaves the rows alone then; otherwise the row goes and every week is cut. |
| Store.Account.PruneRestorePoints | engine/store/src/ledger.rs:104-136 | The loop drops exactly the oldest points that are not protected, as many as the account has over its limit. |
| Store.Account.InsertRestorePoint | backend/app.py:292-303 | A new point goes on the end and the oldest unprotected points over twenty go, never the new one. |
| Store.Account.RecallOperation | engine/store/src/ledger.rs:188-209 | The loop over the log answers as the first entry with that id decides: its reply for the same payload, a clash for another, nothing when no entry has the id. |
| Store.Account.RememberOperation | engine/store/src/ledger.rs:211-226 | The newest operation is kept and only the oldest ones over a hundred go. |
| Store.Account.RunUpsertPass | backend/app.py:1359-1374 | The first pass over a batch saves its homework in order, puts the deletions aside in order, and stops at the first refusal. |
| Store.Account.RunDeletePass | backend/app.py:1375-1385 | The second pass deletes in order and stops at the first refusal. |
| Store.Account.RunWeekPass | backend/app.py:1386-1396 | The last pass saves the weeks in order, each only with sessions of homework the account has after the first two passes. |
| Store.Account.PostChangesRequest | backend/app.py:1348-1415 | One transaction: recalled, or run whole and remembered, or refused with every row as it was, however far the batch had come. |
| Store.Account.RestoreRequest | backend/app.py:1586-1613 | A restore answers only for the state it was shown, makes a recovery point, puts back the stored rows and is remembered; a refusal changes nothing. |
| Store.DeletesAlone | backend/app.py:1359-1385 | Running a batch's deletions after all its other homework is the same as running them in the batch's own order. |
| Prediction.DeletesMoveWeeks | engine/store/src/assignments.rs:124-186 | After a batch's deletions, in any order, every week is its old blocks without their sessions, its revision up by the number of deleted homework it held, and the homework is gone. |
| Prediction.DeletionTellsWhatChanged | engine/store/src/assignments.rs:124-186 | A deletion reports exactly the weeks it changed, each with the revision it has now and with exactly the sessions it lost. |
| Prediction.PredictionIsExact | desktop/native/controller.py:174-180 | When the committed week is the server's, the revision sent is exactly the week's revision after the batch's own deletions, so the save is never refused for being behind. |
| Prediction.NextVersionIsASave | engine/store/src/weeks.rs:36-69 | The versions those results speak of are exactly what saves that change a week make of it. |
| Prediction.VersionsLeaptOver | desktop/native/controller.py:1924-1929 | A save the server takes can pass over exactly as many versions as its deletions found fewer sessions than the window had read. |
| Prediction.SkipsNothingIffNoDeletesHere | desktop/native/controller.py:1924-1929 | A save passes over no other window's version if and only if it deletes no homework with sessions in the week as the window read it. |
| RetryOnce.PostAgainstLog | backend/app.py:267-279 | A save that does not run changes nothing at all; one that runs is remembered, and the log stays free of repeats and within a hundred. |
| RetryOnce.RemembersTheNewestHundred | engine/store/src/ledger.rs:211-226 | The newest hundred operations are kept, in order. |
| RetryOnce.RequestAgainstLog | backend/app.py:1592-1612 | The same for restores and saves alike: each is remembered under an id the log does not have yet, or changes nothing. |
| RetryOnce.RetryGetsTheFirstReply | backend/app.py:1353-1356 | Sent again after any other saves and restores, a save gets the first success's reply and changes nothing, and the same id with other data is refused, exactly until a hundred newer operations are remembered. |
| RetryOnce.AtMostOneEffect | desktop/native/controller.py:2136-2138 | However often and wherever in a run of saves and restores one save arrives, it changes the account at most once while no more than a hundred operations are remembered. |
| RetryOnce.RepeatsAreInvisible | desktop/native/controller.py:1952-1965 | Once a save has gone through, a run of saves and restores ends the same with all its later arrivals left out. |
| Restores.RestorePutsBackThePreview | backend/app.py:1586-1613 | A restore is accepted exactly when the account still is as previewed and no stored week repeats an id, else refused for which of the two it is with nothing changed; it then holds the point's weeks, homework and standing rows, and keeps both that point and one of what it replaced within the limit of twenty. |
| Restores.NoPointNoRestore | backend/app.py:1586-1613 | A point there is none of restores nothing and is answered as not found. |
| Restores.RestoreIsReversible | backend/app.py:306-324 | After any saves and restores that make at most eighteen more points, restoring the recovery point brings back the same weeks, homework and standing rows. |
| Restores.OutlivesExactly | engine/store/src/ledger.rs:104-136 | A point outlives the next one exactly when there is room, or it has at most seventeen newer ones, or it has eighteen and the oldest is not the one being restored, or it is that oldest one. |
| Restores.ARecoveryPointGoes | backend/app.py:1586-1613 | A run in which the way back a restore made is there after eighteen more points and goes with one more restore of the first. |
| History.CaptureLinks | engine/engine/src/desk/history.rs:66-109 | A step is captured exactly when the week or some homework changed, and then takes the one state to the other. |
| History.JoinedTakes | engine/engine/src/desk/history.rs:111-151 | A step folded into the one before it takes the world before the first to the world after the second, in every week and homework of either. |
| History.PushKeepsTheNewestFifty | engine/engine/src/desk/history.rs:9-29 | The newest fifty steps are kept, in order. |
| History.JoinedStaysLive | engine/engine/src/desk/history.rs:143-150 | A step joined to a stale one stays a step of its own; after any join the newest step can be travelled and the older ones are as they were. |
| History.JoinedLinks | engine/engine/src/desk/history.rs:111-151 | The same for steps of one week, kept fresh and of that week alone. |
| NativeSession.NativeSession.constructor | desktop/native/controller.py:221-275 | A new session has one empty week, nothing parked, nothing pending and ticket 0. |
| NativeSession.NativeSession.RestoreWeek | desktop/native/controller.py:528-546 | Every field of the open week takes the parked week's value and nothing else of the session changes. |
| NativeSession.NativeSession.Idle | desktop/native/controller.py:366-377 | A reply frees the session exactly when its ticket is the newest. |
| NativeSession.NativeSession.LoadWeek | desktop/native/controller.py:853-901 | The whole session and the request made are as the load rules say: nothing while busy or over unsaved work, a parked week opened at once, otherwise a request under a new ticket. |
| NativeSession.NativeSession.AssignmentsReply | desktop/native/controller.py:906-945 | The whole session after the last answer of a load: the week takes the screen, a week left is parked whole if unsaved and its history cleared, the same week at another revision makes its steps stale, and an older ticket changes nothing. |
| NativeSession.NativeSession.Reload | desktop/native/controller.py:957-962 | What is unsaved in the open week is let go and the week is asked for again. |
| NativeSession.NativeSession.Edit | desktop/native/controller.py:1056-1079 | An edit marks the week dirty, ends a conflict and drops the pending save. |
| NativeSession.NativeSession.AssignmentWrites | desktop/native/controller.py:1912-1917 | The loop writes one entry per changed homework, in sorted order, with the revision of the live row or else the committed one. |
| NativeSession.NativeSession.BuildPending | desktop/native/controller.py:1911-1950 | A new pending save and its step are built from the committed week: predicted revision for one week, the step's kept revisions for others. |
| NativeSession.NativeSession.Save | desktop/native/controller.py:1892-1950 | A save does nothing in conflict or while busy; it sends a pending save again as it was, or builds one. |
| NativeSession.NativeSession.RetrySave | desktop/native/controller.py:2136-2138 | A kept pending save is sent again unchanged, unless there is none or the week is in conflict. |
| NativeSession.NativeSession.TakeResults | desktop/native/controller.py:1997-2007 | The loop puts every homework result in its place and clears its mark. |
| NativeSession.NativeSession.RecordLanded | desktop/native/controller.py:2009-2033 | A landed undo goes on the redo stack, a redo on the undo stack, a recorded save is pushed or joined and ends redo. |
| NativeSession.NativeSession.SaveOk | desktop/native/controller.py:1967-2079 | The whole session after a landed save; under an older ticket nothing changes. |
| NativeSession.NativeSession.SaveErr | desktop/native/controller.py:2081-2132 | The whole session after a refused or unheard save: a travel's step goes back, a 409 marks the conflict and a refused travel reloads. |
| NativeSession.NativeSession.ApplySide | desktop/native/controller.py:1822-1839 | A step's side replaces the week's blocks and its homework, live revisions kept. |
| NativeSession.NativeSession.Undo | desktop/native/controller.py:1841-1854 | Stale steps go; the newest step is taken and sent only when the session can travel and the step is of this week. |
| NativeSession.NativeSession.Redo | desktop/native/controller.py:1856-1869 | As Undo, from the redo stack. |
| NativeSession.NativeSession.MoveToDate | desktop/native/controller.py:1458-1530 | The whole session after a move is asked for: both weeks and the step are built from the open week and the parked edits of the other when it has them, else the other week is fetched first. |
| NativeSession.NativeSession.DestinationReply | desktop/native/controller.py:1555-1628 | The whole session after the other week was fetched: both weeks, with what each was before in the step, go in one save under the same ticket; a block that cannot go there frees the session; an older ticket changes nothing. |
| Protocol.ActKeeps | desktop/native/controller.py:1892-1950 | Whatever the student does, every revision the window keeps or sends is one of a version it was shown. |
| Protocol.TakeKeeps | desktop/native/controller.py:1967-2132 | So does whatever answer arrives. |
| NoLostUpdate.StaleRepliesAreInert | desktop/native/controller.py:366-377 | A reply with an older ticket changes nothing: not the week, not what is parked, not whether the window is busy. |
| NoLostUpdate.EveryRunIsSound | desktop/native/controller.py:853-2134 | Every run of windows, server and network, with lost, late and repeated requests, keeps the protocol's invariant. |
| NoLostUpdate.CommittedIsHeld | desktop/native/controller.py:909-932 | In every run each window's committed blocks and revision, open or parked, are a pair the server held, no newer than the server's, and the same week when the revisions are equal. |
| NoLostUpdate.NoLostUpdate | backend/app.py:1348-1415 | In every run a save that runs, however late and however often it was sent, leaves each week as its own deletions do, or replaces the very version it was built on when first sent: the open week's committed version, or the one read at the revision sent for another week; the one exception is the open week of a save deleting homework with sessions in that committed version, bounded by how many those deletions miss. |
| ProtocolRuns.ALostUpdate | desktop/native/controller.py:174-180 | A run of two windows from a new account, each save as the window builds it: the first, shown revision 1 alone, undoes its homework and replaces the second's revision 2. |
| Moves.TakesDecides | engine/engine/src/desk/history.rs:66-109 | A step between two worlds decides each from the other, in every week and homework. |
| Moves.BatchOfWeeksLands | backend/app.py:1386-1415 | A batch of weeks, each at its own revision, runs exactly when every week may be stored; then each is as written, every other week as it was, and the reply says so; otherwise nothing changes. |
| Moves.MoveGoesExactlyWhen | desktop/native/controller.py:1458-1530 | A move is taken up exactly when nothing is on its way, in conflict or waiting and it goes to another week; otherwise the session stays as it is. |
| Moves.MoveLands | desktop/native/controller.py:1603-1628 | A move lands exactly when both weeks may be stored; then each is what the move made of it, and the newest undo step takes the world the window showed, the destination's blocks included, to the world there is now. |
| Moves.TravelMoves | desktop/native/controller.py:1841-1886 | An undo or redo of a step in any number of weeks puts each week on that side, on the server and on the screen, leaves all else, and leaves the step ready to go the other way, exactly when every week may be stored; otherwise nothing changes on either side. |
| Moves.MovedBackAndAgain | desktop/native/controller.py:1603-1628 | A block moved, the move undone and redone: the undo brings every week and homework back to what was shown before, the redo to what the move made of them. |
| Moves.RefusedWhenAnotherWeekChanged | desktop/native/controller.py:1871-1886 | An undo or redo is refused with no week changed, and its step put back, when another of its weeks was changed elsewhere to something else. |
| StaleSteps.ReloadedStepsNeverTravel | desktop/native/controller.py:915-919 | In no run is a step travelled that held the open week on its stacks when that week was reloaded at another revision, whatever follows; steps are told apart by a title not used again. |
| StaleSteps.ReloadMarksExactly | desktop/native/controller.py:915-919 | A reload makes stale exactly the steps that hold the week, and only when the week is at another revision. |
| StaleSteps.UndoGoesExactlyWhen | desktop/native/controller.py:1841-1854 | Undo sends a save exactly when nothing is on its way, in conflict or unsaved and the newest step that is not stale is of the open week or of homework alone; that step travels, and otherwise the screen stays as it is. |
| StaleSteps.RefusedTravelReloads | desktop/native/controller.py:2081-2132 | An undo or redo refused over newer data puts its step back and loads the week again; then the window shows the server's week with nothing unsaved, and the step is stale if the week is at another revision. |
| StaleSteps.NothingIsSavedInConflict | desktop/native/controller.py:1892-1908 | While a week is in conflict nothing the student does sends a save, and only an edit or a load ends the conflict. |
| ReloadRun.AReloadEndsTheStep | desktop/native/controller.py:906-945 | A run of two windows: one saves a lesson, the other adds a note to it, the first reloads; its Undo sends nothing and its step is gone. |
| NoLostUpdate.ChangedByItsWrite | engine/store/src/weeks.rs:36-69 | A transaction changes a week otherwise than by its deletions only through a write that has the week's revision after them. |
| NoLostHomework.BatchOnHomework | engine/store/src/assignments.rs:83-186 | A batch changes exactly the homework it names, each row as its write says: made at revision 1, changed at its own revision to the next, deleted at its own revision, or left as it reads; the reply tells the rows left. |
| NoLostHomework.EveryRunIsWatched | desktop/native/controller.py:853-2134 | In every run each revision of homework that a window keeps or sends is that of a row it was shown, and a row's revision belongs to one text unless the homework was deleted in between. |
| NoLostHomework.NoLostHomework | backend/app.py:1359-1385 | In every run a homework row that a save changes or deletes, however late that is, had been shown to its window when the save was first sent; or the window had been shown another row under that revision, deleted since. |
| NoLostHomework.TakenUnreadExactly | engine/store/src/assignments.rs:83-122 | Over every history of a homework since a window was shown it, a write at that revision is taken over a row it was not shown if and only if the homework was deleted and made again and then changed one time less than that revision. |
| HomeworkRun.ATextNeverRead | engine/store/src/assignments.rs:83-122 | A run of two windows from a new account in which such a text is overwritten. |
| HomeworkRun.ANewerTextUndone | desktop/native/controller.py:915-919 | A run of two windows in which a step of homework alone, never made stale, takes a newer text back to one older than the step's own change. |
| Names.BeforeIsByFirstDifference | desktop/native/controller.py:1912-1913 | The order homework is sent in is that of texts, letter by letter. |
| RoundTrip.NewHomeworkGoesInExactly | engine/store/src/assignments.rs:83-122 | New homework goes in exactly at revision 0 and while there are fewer than a thousand; else it is a conflict or refused for want of room. |
| RoundTrip.UpsertPass | engine/store/src/assignments.rs:83-122 | Homework writes that run are answered one for one, and the reply's results tell exactly the new rows. |
| RoundTrip.UpsertRoom | engine/store/src/assignments.rs:83-122 | Homework writes are refused exactly when one neither reads as the row does nor has its revision, or there is no room: as late in the first case, for want of room in the second. |
| RoundTrip.DeletePass | engine/store/src/assignments.rs:124-186 | Deletions that fit are refused exactly when one names homework that is not there. |
| RoundTrip.WindowPutsResults | desktop/native/controller.py:1997-2007 | What the window makes of the reply's homework is the results put in place one after another. |
| RoundTrip.BatchLands | desktop/native/controller.py:1892-1950 | From a window in step with the server a save is accepted if and only if its content may be stored, and then the server has exactly the window's week and homework. |
| Cursor.ServerTakes | backend/app.py:1353-1356 | However often a save was lost before, once it gets through the server holds the window's content and says so; a refusal changes nothing. |
| Cursor.SaveLands | desktop/native/controller.py:2018-2033 | A landed save adds its state to the line of states, or replaces the newest when joined. |
| Cursor.TravelFails | desktop/native/controller.py:2090-2104 | A travel that did not land puts its step back where it was and shows the committed week again. |
| Cursor.TravelStep | desktop/native/controller.py:1841-1869 | An answered undo or redo moves the cursor exactly when nothing is unsaved, a step is there and its state may be stored; otherwise nothing changes on either side. |
| Cursor.LoadStartsALine | desktop/native/controller.py:909-932 | A week just opened from another starts a line of its own: the state loaded, on both sides. |
| Cursor.RunsFollowTheLine | desktop/native/controller.py:1822-1869 | Every run of edits, saves, retries, undos and redos, with lost requests and lost answers to saves, is a run of one cursor in a linear history of at most fifty steps, as long as nobody edits over a save that went through unheard and travels are answered. |
| Cursor.BothSidesAtTheCursor | desktop/native/controller.py:2009-2033 | With nothing waiting the server and a clean window hold the state at the cursor; with a save waiting the server holds that or what the window shows. |
| Cursor.AdjacentStepsChain | engine/engine/src/desk/history.rs:66-109 | What each undo step ends on, for the week and for each homework, is what the next begins with. |
| Cursor.RedoUndoesUndo | desktop/native/controller.py:1856-1869 | An undo and then a redo bring both sides back to where they were, the redo stack as it was and the undo stack as it was but for the revisions its newest step keeps. |
| TravelOutcomes.LandsWhenStorable | backend/app.py:1386-1396 | What the server asks of a travel is exactly this of the state it goes to: distinct block ids, sessions of homework that is there, and room. |
| TravelOutcomes.TopNotBlank | engine/engine/src/desk/history.rs:111-151 | In no run does a step, joined ones included, name homework that neither of its sides has. |
| TravelOutcomes.UndoTakesTheSaveBack | desktop/native/controller.py:1841-1854 | An undo right after a recorded save always lands and brings both sides back to before it. |
| LostAnswers.SentAgain | engine/store/src/weeks.rs:36-69 | A save of what the server already has lands whatever its revisions, unless it deletes homework. |
| LostAnswers.AfterLostAnswer | desktop/native/controller.py:2081-2110 | When the server ran a travel and the answer was lost, the window is back on its week with the step in place, exactly one state away from the server. |
| LostAnswers.AskedOnce | desktop/native/controller.py:1841-1869 | From one state behind, asking again brings the two sides together exactly when it is heard and the travel deletes no homework; otherwise they stay one apart, and a travel that deletes homework changes nothing on the server. |
| LostAnswers.RepeatsNeverHeal | desktop/native/controller.py:1841-1869 | When the travel deletes homework, any number of repeats, heard or not, leaves the window one state behind and the server as it is. |
| LostAnswers.LostUndoOfNewHomework | desktop/native/controller.py:2081-2110 | So ends every save that added homework once the answer to its undo is lost: the server before the save, the window after it, however often the undo is repeated. |
| LostAnswers.AnUndoThatNeverHeals | desktop/native/controller.py:1841-1854 | Such a run from a new window on a new account. |
| UnheardSaves.NextBatch | engine/store/src/assignments.rs:83-122 | Against what an unheard save left, the next save lands exactly when it may be stored and, for the week and each homework, the unheard save left it alone or this one asks for the same; otherwise content that may be stored is a conflict. |
| UnheardSaves.EditOverUnheardSave | desktop/native/controller.py:1056-1079 | Whatever is edited over a save that went through unheard, the next save lands exactly under that condition; landed, the line takes its state as if the unheard save had not been; otherwise nothing changes on the server and the window keeps its content in conflict. |
| UnheardSaves.AnEditRefusedOverItsOwnSave | desktop/native/controller.py:2081-2110 | A run in which a window is refused as behind its own lost save. |
| UnheardSaves.RefreshBringsNothing | desktop/native/controller.py:2478-2494 | With one window, the refresh of homework after a save brings nothing new, wherever on the line it comes. |
| Parking.WindowsStayTidy | desktop/native/controller.py:853-932 | In every run the open week is never also parked, every parked week is unsaved and under its own name, and a window waits for one answer exactly while it is busy. |
| Parking.NewWindowIsTidy | desktop/native/controller.py:221-275 | A new window is tidy and has nothing unsaved. |
| Parking.SwitchKeepsUnsaved | desktop/native/controller.py:853-932 | A load without discard, and each of its answers, keeps every unsaved week whole; the one exception is a reload landing on edits made meanwhile, which loses exactly that week. |
| Parking.ANoteReloadedAway | desktop/native/controller.py:1042-1054 | Such a run from a new window: a note added while the week is loaded again in the background is gone when the load arrives. |
| Parking.SwitchingLosesNothing | desktop/native/controller.py:853-932 | Over any run of loads and edits every unsaved week is still there, and each one not edited is exactly as it was. |
| Parking.LoadAsksExactlyWhen | desktop/native/controller.py:853-882 | A load goes to the server exactly when nothing is on its way and it is a discard or nothing is unsaved in the week asked for, parked or on the screen. |
| Parking.HomeworkEditsAreParked | desktop/native/controller.py:906-914 | Homework edited while a save was under way is parked with its week on a switch, though the week has no other edits. |
| Parking.ParkedIsLostExactlyWhen | desktop/native/controller.py:2069-2072 | Whatever happens in the window, a parked week stays parked whole or is opened whole, except exactly when it is discarded or a landed save also wrote it. |
| Parking.GoingBackFindsItAsItWas | desktop/native/controller.py:506-546 | Leaving an unsaved week, doing anything that leaves it alone and going back restores its blocks, revision, homework, pending save and both stacks. |
| ProtocolRuns.ParkedEditsLost | desktop/native/controller.py:2069-2072 | A run from a new account in which undoing a move to another week drops what was written there and not saved. |
| SetupQueue.Setup.KeepSetup | desktop/native/controller.py:1252-1268 | An answer is remembered, shown at once and sent if nothing is out. |
| SetupQueue.Setup.FlushSetup | desktop/native/controller.py:1270-1286 | One kept kind goes out at a time, preferences before study hours before the week. |
| SetupQueue.Setup.Answer | desktop/native/controller.py:3950-3957 | The stored preferences are what the server sent back, and a turn is asked for while anything is kept. |
| SetupQueue.KeptIsShownAtOnce | desktop/native/controller.py:1252-1268 | What is kept, now or before and not sent yet, is shown at once, and nothing else shown changes. |
| SetupQueue.LastKeptIsCurrent | desktop/native/controller.py:1242-1286 | After any interleaving, the value kept, on its way or stored for every key is the one kept for it last. |
| SetupQueue.SentInOrder | desktop/native/controller.py:1270-1286 | A request goes out only when nothing else is, study hours only with no preference kept, the week only with neither. |
| SetupQueue.KeptWeekIsPosted | desktop/native/controller.py:1283-1286 | Once nothing is kept, every keeping of the week was followed by its going out as a save, or by a turn when it was in conflict and nothing went out. |
| SetupQueue.AWeekForgotten | desktop/native/controller.py:1283-1286 | A run in which a week kept while in conflict is never saved. |
| SetupQueue.QueueDrains | desktop/native/controller.py:1242-1250 | Answers and turns alone finish within a decreasing measure; then the server holds every kept key's last value, and each keeping of the week was followed by a save of it unless it was in conflict then. |
| ClientEpochs.NativeClient.Rotate | desktop/native/client.py:223-235 | The loop over outstanding replies, some finishing inside it, leaves a new epoch and manager and the old manager only while replies of it are out. |
| ClientEpochs.NativeClient.BeginFinished | desktop/native/client.py:359-369 | A finished reply leaves the table and its callback runs exactly if its epoch is the current one. |
| ClientEpochs.NativeClient.EndFinished | desktop/native/client.py:369-371 | A handler that ends lets an old manager without replies go, and only that. |
| ClientEpochs.NativeClient.Send | desktop/native/client.py:351-354 | A request is entered under the current manager and epoch. |
| ClientEpochs.TableIsExact | desktop/native/client.py:223-235 | In every run, whenever no handler is under way the table holds exactly the current manager and old ones with replies out. |
| ClientEpochs.SentUntilFinished | desktop/native/client.py:351-371 | In every run a reply that was sent is outstanding exactly until it finishes, on its own or aborted at an account change. |
| ClientEpochs.NoCallbackFromAnEarlierEpoch | desktop/native/client.py:299-301 | Each callback ran in the epoch its request was sent in, and at most once. |
| ClientEpochs.CallbackRunsIffSameAccount | desktop/native/client.py:299-301 | A reply's callback runs when it finishes if and only if the account has not changed since it was sent. |
| Devices.AnswersOutliveTheirWorkers | desktop/native/devices.py:177-234 | In every interleaving an answer is held until its worker has ended and let go only on the window's thread, and each done runs at most once while what it belongs to lives. |
| Devices.EndedIsLetGo | desktop/native/devices.py:219-231 | Once a worker has ended the window has a turn to come that lets its answer go. |
| Devices.ToldExactlyWhenAlive | desktop/native/devices.py:197-201 | Delivering runs done exactly when the owner and what done belongs to are both there. |
| Devices.EveryCallerIsToldOnce | desktop/native/devices.py:92-108 | In every run, callbacks asking again included, start-ups never overlap, at most one service is started, and every caller is told exactly once, once nothing is left to hand out. |
| Devices.EveryCallerIsToldTheOutcome | desktop/native/devices.py:92-108 | In every run each caller who waits when a start-up ends is told exactly its outcome, and one who asks while the service runs is told that service at once; neither is ever told anything else. |
| Devices.FirstAskedFirstTold | desktop/native/devices.py:97-108 | Callers who ask before the start-up ends are told its outcome in the order they asked. |
| Devices.SomethingIsComing | desktop/native/devices.py:97-101 | Whoever waits has a start-up under way or callbacks before theirs. |
| Devices.SyncHost.Ensure | desktop/native/devices.py:92-101 | A caller is answered at once by a running service, else waits; only the first starts one. |
| Devices.SyncHost.Started | desktop/native/devices.py:103-108 | The outcome is kept, and everyone who waits is next to be told exactly it, in order. |
| AmbientPlayer.Player.PlaySound | desktop/native/ambient.py:180-195 | Carry on, resume, or drop the sink and load the new sound. |
| AmbientPlayer.Player.PauseSound | desktop/native/ambient.py:197-207 | Loading pauses at once; playing fades out and waits to suspend. |
| AmbientPlayer.Player.ResumeSound | desktop/native/ambient.py:209-219 | A paused sound fades in again, or loads if it has no sink. |
| AmbientPlayer.Player.StopSound | desktop/native/ambient.py:221-235 | The sound is forgotten; the sink fades out and closes, or closes at once. |
| AmbientPlayer.Player.Step | desktop/native/ambient.py:359-368 | One tick moves the ramp one step towards its target and arrives there. |
| AmbientPlayer.Player.FinishFade | desktop/native/ambient.py:241-245 | A fade under way ends now. |
| AmbientPlayer.Player.Arrive | desktop/native/ambient.py:370-376 | What waited for the fade happens only if the state still asks for it. |
| AmbientPlayer.Player.Begin | desktop/native/ambient.py:321-342 | A decoded sound opens one sink and fades in, or plays silently when none opens. |
| AmbientPlayer.Player.DecodeDone | desktop/native/ambient.py:296-309 | The whole player after a decoder ends: enough sound is cached and, if its sound is the one loading, begun; too little gives up. |
| AmbientPlayer.Player.DropSink | desktop/native/ambient.py:378-387 | The sink, the fade and what waited for it go. |
| AmbientPlayer.EveryRunIsSafe | desktop/native/ambient.py:180-387 | In every run at most one sink is open, opened less stopped being 0 or 1, loading never has one and the ramp stays between 0 and 1. |
| AmbientPlayer.LoadingIsHeard | desktop/native/ambient.py:296-342 | In every run a loading player has a decoder at work on its own sound; when it ends with enough, the sound plays from silence to full whenever a sink opens and sound is on, and any other player only keeps the sound. |
| AmbientPlayer.PlayIsHeard | desktop/native/ambient.py:180-195 | Play is heard at once from a sound the player has or can make, goes on where it was paused, changes nothing while that sound plays or loads, and otherwise loads, or stops when it cannot be decoded. |
| AmbientPlayer.PausesAndStops | desktop/native/ambient.py:197-235 | A pause fades out and holds the sink; a stop, or a sound there is none of, forgets sound and decoder and closes the sink. |
| AmbientPlayer.ResumeIsHeard | desktop/native/ambient.py:209-219 | A resume brings a held sound back to full on the same sink, and plays or loads one that was paused before it was heard. |
| AmbientPlayer.EveryFadeEnds | desktop/native/ambient.py:351-376 | Every fade ends within its length over 35 ms ticks, rounded up, and then a pausing sink is suspended, a stopping one closed and any other left. |
| AmbientPlayer.WaitingActsOnlyIfAsked | desktop/native/ambient.py:370-376 | A tick suspends only a paused player's sink and closes only a stopped one's. |
| AmbientPlayer.QuietUnlessDecodingFailsLate | desktop/native/ambient.py:314-319 | A stopped player has no sink or is closing it, after every event but exactly one kind: a decode failure arriving while a sink is open. |
| AmbientPlayer.TheNoiseGoesOn | desktop/native/ambient.py:314-319 | Such a run from a new player: rain is loading, white noise is chosen and plays, the decoder of the rain fails; the player says stopped and the noise goes on through Stop. |
| AmbientPlayer.StopCannotReachIt | desktop/native/ambient.py:221-235 | From there only starting another sound closes the sink; stopping does not. |
| EndlessLoop.LoopDevice.ReadData | desktop/native/ambient.py:115-124 | A read gives exactly the next whole frames of the endless sound and moves on by as many. |
| EndlessLoop.ReadsHaveNoGap | desktop/native/ambient.py:115-124 | Reads of any sizes are together one stretch of the endless sound, in whole frames. |
| EndlessLoop.EndlessRepeats | desktop/native/ambient.py:99-124 | The endless sound from its start is the sound repeated. |
| EndlessLoop.MixFrame | desktop/native/ambient.py:91-95 | One frame of the blend is mixed in place, channel by channel, nothing else changes, and it fails exactly when a sample of it does not fit. |
| EndlessLoop.Seam | desktop/native/ambient.py:74-96 | The blend, written over in place, has frames less blend, changes nothing past the blend, and fails exactly when a blended sample does not fit. |
| EndlessLoop.BlendIsLongest | desktop/native/ambient.py:81-84 | The blend is the longest that is no longer than asked for and than half the sound. |
| EndlessLoop.SeamJoinsOn | desktop/native/ambient.py:74-96 | The loop's last frame is the sound's own and the next one, but for rounding and how far the curves have come, is the one that followed it; where the blend ends the sound's own start goes on. |
| EndlessLoop.AlwaysFitsExactlyWhenQuietEnough | desktop/native/ambient.py:88-95 | For curves that share the power and mirror each other, as the sine and cosine there do, every sound within a peak has a seam if and only if the peak is at most 23170, which covers 32767 over the square root of two; one louder, two frames are enough to fail. |
| EndlessLoop.QuietSoundsHaveASeam | desktop/native/ambient.py:74-96 | Every sample of a quiet enough sound's seam fits. |
| LookCache.CacheIsTransparent | desktop/native/look.py:668-678 | The cache answers what fetching afresh would and holds exactly the newest 128 distinct keys in order of use. |
| LookCache.SlotsNeverMix | desktop/native/look.py:669-669 | Two kinds and keys share a slot only if they are the same. |
| LookCache.MeasuresAreTransparent | desktop/native/look.py:743-767 | With looks freed and addresses reused, every answer is the uncached one, an identity hit is that very look, and neither cache passes 128. |
| LookCache.AnswersAreRemembered | desktop/native/look.py:743-767 | What was just asked is found again under the look's own address with the answer given, and under its key if it had to be looked up. |
| LookCache.LookCaches.CachedLookJson | desktop/native/look.py:668-678 | A hit moves to the newest end, a miss is fetched and added, the oldest going past the limit. |
| LookCache.LookCaches.LookMeasures | desktop/native/look.py:743-767 | An identity hit answers at once; otherwise the key decides and both caches take the answer. |
| CommandBar.WordStarts | desktop/native/command_bar.py:105-114 | The loop finds exactly where words start. |
| CommandBar.SplitIsWordsAtStarts | desktop/native/command_bar.py:105-114 | The words at those starts are the words splitting gives. |
| CommandBar.WantedKeepsTheWords | desktop/native/command_bar.py:71-71 | What is looked for is what was typed with one space between its words and none around them. |
| CommandBar.RankedExactlyWhenLit | desktop/native/command_bar.py:70-84 | For every non-empty query a text answers if and only if some of its letters light up. |
| CommandBar.AnswersExactly | desktop/native/command_bar.py:87-102 | A command answers exactly when its name lights up or its tip holds three letters or more of what was typed. |
| CommandBar.LitAtTheFirstPlace | desktop/native/command_bar.py:117-141 | The letters light up at the start of the name, else at the first word that begins with them, else at the first place that holds them, else at the start of each of the first words. |
| CommandBar.SpansSpellTheQuery | desktop/native/command_bar.py:117-141 | Spans are ascending, disjoint and in the text, and spell the query or its letters at word starts. |
| CommandBar.PrefixesAgreeExactly | desktop/native/command_bar.py:128-128 | The label and its folded text agree up to a place exactly when every letter before it is one letter when folded. |
| CommandBar.PaintsWhatWasFound | desktop/native/command_bar.py:214-252 | The letters painted are, case aside, the letters found, when every letter up to the last span is one letter when folded. |
| CommandBar.PaintedLate | desktop/native/command_bar.py:214-252 | With a sharp s before it, a match is painted one letter late. |
| CommandBar.RankedIsThePermutedMatches | desktop/native/command_bar.py:144-150 | Every command that answers is listed once and no other is; smaller ranks come first, and of equals the one listed first. |
| CommandBar.NearerComesFirst | desktop/native/command_bar.py:76-102 | A name that begins with what was typed comes before every one that does not, one with a word that begins with it before one that holds it further in or in its tip, and those before one found by initials; equals keep their order. |
| CommandBar.GroupRows | desktop/native/command_bar.py:153-169 | The two tables filled row by row give the grouped listing. |
| CommandBar.ListingHasEveryMatchAndTheBestFirst | desktop/native/command_bar.py:153-169 | The listing is a permutation of the matches, its first row has the best rank, rows keep their order, and groups come by best row and then by GROUPS. |
| CommandBar.NothingTypedListsAll | desktop/native/command_bar.py:153-156 | With nothing typed the groups come in GROUPS order. |
| ClockBox.ReaderIsThePattern | desktop/native/fields.py:85-85 | The reader finds exactly the texts of the written-time pattern, each in one way. |
| ClockBox.HalfEndIs | desktop/native/fields.py:85-85 | After the first letter of a half of the day comes a full stop or none, and then an m with a full stop or none, or nothing. |
| ClockBox.BlanksAndCaseDoNotMatter | desktop/native/fields.py:415-415 | Neither blanks around a time nor capital letters change what it says. |
| ClockBox.SaysItsMinute | desktop/native/fields.py:411-430 | A written time says a minute exactly when it names that minute's hour on its clock and the minutes past it, an hour alone meaning none; the end of the day belongs to end boxes and midnight to the others. |
| ClockBox.WrittenIsReadBack | engine/engine/src/desk/weekmodel.rs:79-90 | What the box writes it reads back as the same minute on either clock, the end of the day included. |
| ClockBox.BareTimeIsTheEarliestAfterTheStart | desktop/native/fields.py:770-784 | A bare hour in a paired end box is the earliest of its two readings after the start, and read as unpaired when neither is later. |
| ClockBox.OthersReadPlainly | desktop/native/fields.py:770-784 | Any other box, clock or time is read as what it says. |
| ClockBox.WholeTimesOnly | desktop/native/fields.py:411-417 | Asked for a whole time an hour alone says none, and nothing else is read differently. |
| ClockBox.TypingTakesWholeTimes | desktop/native/fields.py:814-820 | While the student types a whole time the limits allow is taken at once with the text as typed; any other text leaves the minutes. |
| ClockBox.SettleTakesOrPutsBack | desktop/native/fields.py:822-854 | Settling takes an allowed time and rewrites the text, or puts back the minutes from before typing and leaves the text; the line under it says no time, outside the limits, or not after the start, exactly as it is. |
| ClockBox.NonsenseLeavesTheMinutes | desktop/native/fields.py:814-843 | However it was typed, text that says no time leaves the minutes from before typing began. |
| ClockBox.StepKeepsLimitsUnless | desktop/native/fields.py:946-961 | A step leaves the limits exactly when an end box whose latest time is before the end of the day is stepped down to midnight, which the class allows and the program has none of. |
| ClockBox.AnEndBoxLeavesItsLimits | desktop/native/fields.py:946-961 | An end box up to eight in the evening stepped down from a quarter past midnight is such a case. |
| ClockBox.EveryRunStaysWithinLimits | desktop/native/fields.py:802-854 | Over every run of typing, settling and stepping the minutes stay within the limits. |
| ClockBox.SinglesAreOneStep | desktop/native/fields.py:946-961 | In an unpaired box single steps are one long step and end on a quarter hour or a limit, as long as an end box does not pass midnight. |
| ClockBox.SinglesDownExactly | desktop/native/fields.py:946-961 | Down an end box of the whole day they are one long step exactly until they pass midnight, and again on every whole day after. |
| ClockBox.TwoStepsDownAreNotOne | desktop/native/fields.py:946-961 | Two single steps down from a quarter past midnight do not end where one step of two does. |
| ClockBox.ClockField.Edited | desktop/native/fields.py:814-820 | Typing remembers the minutes from before and takes a readable time as typed. |
| ClockBox.ClockField.Settle | desktop/native/fields.py:822-854 | The whole box after the student is done typing. |
| ClockBox.ClockField.StepBy | desktop/native/fields.py:946-961 | The whole box after a step, which settles first and stops at a problem. |
| ClockBox.ClockField.Take | desktop/native/fields.py:802-812 | A minute is taken exactly when the limits allow it, and a line under the box goes. |
| PeImports.FindOffset | desktop/check_bundle.py:293-300 | The loop finds the first section that holds the address. |
| PeImports.ReadImports | desktop/check_bundle.py:271-310 | On any bytes the walk ends, with the names or a rejection for an unended or non-ASCII name. |
| PeImports.HeadersAreRead | desktop/check_bundle.py:280-300 | The sections and import address of every image packed as the format says, PE32 and PE32+ alike, are read as they were packed. |
| PeImports.OthersHaveNoImports | desktop/check_bundle.py:280-284 | A file that is no program file, or has no PE signature where it says, has no imports. |
| PeImports.WellFormedImportsAreNamed | desktop/check_bundle.py:302-310 | For every image so packed with a well-formed import table the names are exactly its imports, in order. |
| LookLens.ChangesWhereOpen | desktop/native/look_editor.py:225-239 | A setting can be changed if and only if nothing but settings is in its way. |
| LookLens.OpenMeansNothingInTheWay | desktop/native/look_editor.py:225-239 | What is in the way is a value on the path that is no dictionary and counts as true, and nothing else. |
| LookLens.PutGet | desktop/native/look_editor.py:217-239 | What was set is read back. |
| LookLens.PutPut | desktop/native/look_editor.py:225-239 | Only the last of two settings of one path counts, down to the emptied dictionaries. |
| LookLens.StaysTidy | desktop/native/look_editor.py:225-239 | A change leaves no emptied dictionary and no unset entry behind, however far up. |
| LookLens.NoInterference | desktop/native/look_editor.py:225-239 | Setting one path changes nothing at a path apart from it. |
| LookLens.FieldsArePrefixFree | desktop/native/look_editor.py:200-214 | No setting of the editor is part of another's path. |
| LookLens.ResettingGroups | desktop/native/look_editor.py:1493-1497 | Groups reset in any order restore exactly their settings and leave all others alone. |
| LookLens.ResettingAllLeavesNothingChanged | desktop/native/look_editor.py:242-252 | Resetting every group, in any order, leaves nothing changed. |
| LookLens.LookEditor.ResetGroup | desktop/native/look_editor.py:1493-1497 | The loop resets the group's settings one after another, or changes nothing. |

## Left out

- Qt, HTTP, JSON, sign-in, middleware and painting: requests and answers are values, dialogs are inputs.
- Batches without an operation id, which nothing remembers and the desktop does not send, and entries whose id is not
  their homework's own, which are refused before anything is looked at.
- Payload digests: two payloads with one digest are taken to be the same payload.
- The merge of standing rows into weeks, the adoption of old deadlines, the rewriting of stored blocks,
  `settle_placements` and `clear_stale_pins`: taken as the identity on weeks the server has returned.
- Standing updates sent along with a save, and recovery codes and preferences in a restore.
- NoLostUpdate.NoLostUpdate: leaves out restores, imports and phone sync, which write old revisions back, and the
  patch of parked weeks after homework is deleted, which moves a draft's revision on without reading the week.
- NoLostHomework.NoLostHomework: leaves out the same, deleting homework with its own button, and the refresh of
  homework after a save, which shows a window rows outside its loads and saves.
- NoLostUpdate.NoLostUpdate: leaves out the month view's moves between two weeks neither of which is open.
- Cursor.RunsFollowTheLine: leaves out saves without a history step (focus credits), reloads by the student and
  deleting homework with its own button, which records its own step; a run takes operation ids to be new.
- Cursor.RunsFollowTheLine: answers to undos and redos are not lost, and nobody edits over a save that went through
  unheard; `LostAnswers` and `UnheardSaves` say what happens when they are and do.
- The refresh of homework after a landed save, which puts the server's rows, revisions included, over those the window
  has not edited: with one window it changes nothing (`UnheardSaves.RefreshBringsNothing`); rows another window changed
  are left out. The refresh of the other weeks shown.
- A restore's reply beyond its two points: the lists of weeks and homework it restored.
- The planner's saves that start after another save has landed, beyond joining their step.
- SetupQueue.QueueDrains: preferences are loaded and requests succeed; the theme derived from a theme pack is not sent
  along, and a kept update does not name the study hours' own key.
- Devices.EveryCallerIsToldOnce: callbacks do not raise, and the host object lives.
- AmbientPlayer.EveryRunIsSafe: volume, the decoder's buffers and real audio are left out; ramps are exact numbers.
- StaleSteps.ReloadedStepsNeverTravel: speaks of the open week's stacks; the stacks of parked weeks are not marked by a
  reload of another week, and a step there is held to the revision it keeps (`Moves.RefusedWhenAnotherWeekChanged`).
- Moves.TravelMoves: of steps that changed weeks alone; steps of one week with homework are `Cursor.TravelStep`, and a
  step that joins a move with a homework change is not followed to the server.
- EndlessLoop.Seam: works on samples, not on bytes, and takes the two curves as a parameter; of the sine and cosine it
  is used that they share the power, mirror each other and are positive.
- LookCache.MeasuresAreTransparent: looks are not edited once made, and a look's text decides its measures.
- CommandBar.SpansSpellTheQuery: texts are taken after case folding; `PaintsWhatWasFound` says when its spans fit the
  label as written.
- ClockBox.ReaderIsThePattern: digits and letters are the plain ones.
- ClockBox.EveryRunStaysWithinLimits: the time box's own clamping is left out, and a box's limits are in order; an end
  box from midnight on goes up to the end of the day, as `StepKeepsLimitsUnless` shows it must.
- The bundle checks other than the import names.
- The engine's cleaning of a look after each change in the look editor: taken as the identity.
- The solver, calendar and date arithmetic, focus timer, exports, reminders, packaging and smoke scripts.
