/** The session object as the window holds it: every field changed in place, each method tied to what
    Session says of the whole state. */
module NativeSession {
  import opened Basics
  import opened Names
  import opened Store
  import opened Prediction
  import opened History
  import opened Session

  class NativeSession {
    var weekStart: string
    var blocks: seq<Block>
    var revision: nat
    var assignments: Homework
    var dirtyAssignments: set<string>
    var dirty: bool
    var conflict: bool
    var pendingSave: Option<Batch>
    var undoStack: seq<Step>
    var redoStack: seq<Step>
    var committedBlocks: seq<Block>
    var committedAssignments: Homework
    var pendingStep: Option<Step>
    var historyLabel: string
    var drafts: map<string, WeekWork>
    var traveling: Travel
    var travelStep: Option<Step>
    var joinStep: bool
    var busy: bool
    var ticket: nat

    /** The open week whole, as it is parked. */
    function WeekSnapshot(): (work: WeekWork)
      reads this`weekStart, this`blocks, this`revision, this`assignments, this`dirtyAssignments, this`dirty,
            this`conflict, this`pendingSave, this`undoStack, this`redoStack, this`committedBlocks,
            this`committedAssignments, this`pendingStep, this`historyLabel
      ensures work.week == weekStart
    {
      WeekWork(weekStart, blocks, revision, assignments, dirtyAssignments, dirty, conflict, pendingSave,
               undoStack, redoStack, committedBlocks, committedAssignments, pendingStep, historyLabel)
    }

    function All(): State
      reads this
    {
      State(WeekSnapshot(), drafts, traveling, travelStep, joinStep, busy, ticket)
    }

    constructor (week: string)
      ensures All() == FreshSession(week)
    {
      weekStart, blocks, revision, assignments, dirtyAssignments := week, [], 0, map[], {};
      dirty, conflict, pendingSave := false, false, None;
      undoStack, redoStack := [], [];
      committedBlocks, committedAssignments, pendingStep := [], map[], None;
      historyLabel := "editing the week";
      drafts, traveling, travelStep, joinStep, busy, ticket := map[], Still, None, false, false, 0;
    }

    method RestorePage(snap: WeekWork)
      modifies this`weekStart, this`blocks, this`revision, this`assignments, this`dirtyAssignments, this`dirty,
               this`conflict
      ensures weekStart == snap.week && blocks == snap.blocks && revision == snap.rev
      ensures assignments == snap.homework && dirtyAssignments == snap.dirtyHw
      ensures dirty == snap.dirty && conflict == snap.conflict
    {
      weekStart, blocks, revision := snap.week, snap.blocks, snap.rev;
      assignments, dirtyAssignments := snap.homework, snap.dirtyHw;
      dirty, conflict := snap.dirty, snap.conflict;
    }

    method RestoreHistory(snap: WeekWork)
      modifies this`pendingSave, this`undoStack, this`redoStack, this`committedBlocks, this`committedAssignments,
               this`pendingStep, this`historyLabel
      ensures pendingSave == snap.pending && undoStack == snap.undo && redoStack == snap.redo
      ensures committedBlocks == snap.committed && committedAssignments == snap.committedHw
      ensures pendingStep == snap.step && historyLabel == snap.name
    {
      pendingSave, undoStack, redoStack := snap.pending, snap.undo, snap.redo;
      committedBlocks, committedAssignments := snap.committed, snap.committedHw;
      pendingStep, historyLabel := snap.step, snap.name;
    }

    method RestoreWeek(snap: WeekWork)
      modifies this`weekStart, this`blocks, this`revision, this`assignments, this`dirtyAssignments, this`dirty,
               this`conflict, this`pendingSave, this`undoStack, this`redoStack, this`committedBlocks,
               this`committedAssignments, this`pendingStep, this`historyLabel
      ensures WeekSnapshot() == snap
    {
      RestorePage(snap);
      RestoreHistory(snap);
    }

    method BeginRequest()
      modifies this`ticket, this`busy
      ensures ticket == old(ticket) + 1 && busy
    {
      ticket := ticket + 1;
      busy := true;
    }

    /** A reply under an older ticket leaves the session as it is. */
    method Idle(t: nat) returns (live: bool)
      modifies this`busy
      ensures live == (t == ticket)
      ensures busy == (old(busy) && !live)
    {
      if t != ticket {
        return false;
      }
      busy := false;
      return true;
    }

    /** A parked week comes back whole, and the one on screen is parked in turn if it has anything unsaved. */
    method OpenParked(start: string)
      requires start in drafts && start != weekStart
      modifies this
      ensures WeekSnapshot() == old(drafts[start])
      ensures drafts == (if Held(old(WeekSnapshot())) then old(drafts)[old(weekStart) := old(WeekSnapshot())]
                         else old(drafts)) - {start}
      ensures unchanged(this`traveling, this`travelStep, this`joinStep, this`busy, this`ticket)
    {
      hide WeekSnapshot, Held;
      var parked := drafts[start];
      if Held(WeekSnapshot()) {
        drafts := drafts[weekStart := WeekSnapshot()];
      }
      drafts := drafts - {start};
      RestoreWeek(parked);
    }

    method LoadWeek(start: string, discard: bool) returns (call: Option<Call>)
      modifies this
      ensures (All(), call) == AfterLoad(old(All()), start, discard)
    {
      hide WeekSnapshot, Held;
      if busy {
        return None;
      }
      if discard {
        drafts := drafts - {start};
      } else if start == weekStart && Held(WeekSnapshot()) {
        return None;
      } else if start in drafts && Held(drafts[start]) {
        if start != weekStart {
          OpenParked(start);
        }
        return None;
      }
      var previous := weekStart;
      BeginRequest();
      return Some(GetWeek(ticket, previous, start));
    }

    method WeekReply(call: Call, row: Row) returns (next: Option<Call>)
      requires call.GetWeek?
      ensures (All(), next) == AfterWeekReply(All(), call, row)
    {
      if call.ticket != ticket {
        return None;
      }
      return Some(GetHomework(call.ticket, call.previous, call.week, row));
    }

    method AgeHistory(call: Call)
      requires call.GetHomework?
      modifies this`undoStack, this`redoStack
      ensures WeekSnapshot() == Aged(old(WeekSnapshot()), call)
    {
      if call.week != call.previous {
        undoStack, redoStack := [], [];
      } else if revision != call.row.rev {
        undoStack := MarkStale(undoStack, call.week);
        redoStack := MarkStale(redoStack, call.week);
      }
    }

    method PutWeek(week: string, row: Row)
      modifies this`blocks, this`revision, this`weekStart, this`dirty, this`conflict, this`pendingSave
      ensures weekStart == week && blocks == row.blocks && revision == row.rev
      ensures !dirty && !conflict && pendingSave == None
    {
      blocks, revision, weekStart := row.blocks, row.rev, week;
      dirty, conflict, pendingSave := false, false, None;
    }

    method PutHomework(homework: Homework)
      modifies this`pendingStep, this`assignments, this`dirtyAssignments, this`committedBlocks,
               this`committedAssignments
      ensures pendingStep == None && assignments == homework && dirtyAssignments == {}
      ensures committedBlocks == blocks && committedAssignments == homework
    {
      pendingStep, assignments, dirtyAssignments := None, homework, {};
      committedBlocks, committedAssignments := blocks, assignments;
    }

    method PutLoaded(call: Call, homework: Homework)
      requires call.GetHomework?
      modifies this`blocks, this`revision, this`weekStart, this`dirty, this`conflict, this`pendingSave,
               this`pendingStep, this`assignments, this`dirtyAssignments, this`committedBlocks,
               this`committedAssignments
      ensures WeekSnapshot()
           == old(WeekSnapshot()).(week := call.week, blocks := call.row.blocks, rev := call.row.rev,
                                   homework := homework, dirtyHw := {}, dirty := false, conflict := false,
                                   pending := None, committed := call.row.blocks, committedHw := homework,
                                   step := None)
    {
      PutWeek(call.week, call.row);
      PutHomework(homework);
    }

    /** The week being left is parked if it has anything unsaved; the week being opened is not parked. */
    method Park(call: Call)
      requires call.GetHomework?
      modifies this`drafts
      ensures drafts == (if call.week != call.previous && Held(WeekSnapshot())
                         then old(drafts)[call.previous := WeekSnapshot()] else old(drafts)) - {call.week}
    {
      hide Held, WeekSnapshot;
      if call.week != call.previous && Held(WeekSnapshot()) {
        drafts := drafts[call.previous := WeekSnapshot()];
      }
      drafts := drafts - {call.week};
    }

    method TakeLoaded(call: Call, homework: Homework)
      requires call.GetHomework?
      modifies this`drafts, this`undoStack, this`redoStack, this`blocks, this`revision, this`weekStart, this`dirty,
               this`conflict, this`pendingSave, this`pendingStep, this`assignments, this`dirtyAssignments,
               this`committedBlocks, this`committedAssignments
      ensures WeekSnapshot() == LoadedWork(old(WeekSnapshot()), call, homework)
      ensures drafts == (if call.week != call.previous && Held(old(WeekSnapshot()))
                         then old(drafts)[call.previous := old(WeekSnapshot())] else old(drafts)) - {call.week}
    {
      hide Held, Aged, WeekSnapshot;
      Park(call);
      AgeHistory(call);
      PutLoaded(call, homework);
    }

    method AssignmentsReply(call: Call, homework: Homework)
      requires call.GetHomework?
      modifies this
      ensures All() == AfterHomeworkReply(old(All()), call, homework)
    {
      hide Held, LoadedWork, WeekSnapshot;
      var live := Idle(call.ticket);
      if live {
        TakeLoaded(call, homework);
      }
    }

    /** What was not saved is let go on purpose. */
    method LetGoUnsaved()
      modifies this`pendingSave, this`dirty, this`conflict, this`dirtyAssignments
      ensures pendingSave == None && !dirty && !conflict && dirtyAssignments == {}
    {
      pendingSave, dirty, conflict, dirtyAssignments := None, false, false, {};
    }

    method Reload() returns (call: Option<Call>)
      modifies this
      ensures (All(), call) == AfterReload(old(All()))
    {
      hide AfterLoad;
      LetGoUnsaved();
      call := LoadWeek(weekStart, true);
    }

    /** What any local edit does besides its own change. */
    method Touch(name: string)
      modifies this`historyLabel, this`dirty, this`conflict, this`pendingSave
      ensures historyLabel == name && dirty && !conflict && pendingSave == None
    {
      historyLabel := name;
      dirty, conflict, pendingSave := true, false, None;
    }

    method Edit(newBlocks: seq<Block>, homework: Homework, ids: set<string>, name: string)
      modifies this`blocks, this`assignments, this`dirtyAssignments, this`historyLabel, this`dirty, this`conflict,
               this`pendingSave
      ensures WeekSnapshot() == Edited(old(WeekSnapshot()), newBlocks, homework, ids, name)
    {
      blocks, assignments := newBlocks, homework;
      dirtyAssignments := dirtyAssignments + ids;
      Touch(name);
    }

    method AssignmentWrites() returns (writes: seq<HwWrite>)
      ensures writes == HwWrites(WeekSnapshot(), Sorted(dirtyAssignments))
    {
      writes := [];
      var ids := Sorted(dirtyAssignments);
      for i := 0 to |ids|
        invariant writes == HwWrites(WeekSnapshot(), ids[..i])
      {
        writes := writes + [HwWriteFor(WeekSnapshot(), ids[i])];
      }
      assert ids[..|ids|] == ids;
    }

    method PostPending() returns (call: Option<Call>)
      modifies this`ticket, this`busy
      ensures (All(), call) == AfterPost(old(All()))
    {
      if pendingSave.None? {
        return None;
      }
      BeginRequest();
      return Some(PostSave(ticket, pendingSave.value));
    }

    /** The save as it will be sent, and sent again; and the step it will record. */
    method BuildPending(op: string)
      modifies this`pendingSave, this`pendingStep
      ensures pendingSave == Some(BuildBatch(old(All()), op)) && pendingStep == StepForSave(old(All()))
    {
      var writes := AssignmentWrites();
      var extra := Sorted(ExtraWeeks(All()));
      if extra != [] {
        assert forall week <- extra :: week in Elements(extra);
        pendingSave := Some(Batch([WeekWrite(weekStart, blocks, revision)]
                                  + ExtraWrites(travelStep.value, traveling, extra), writes, op, None));
        return;
      }
      var sent := RevisionAfterDeletes(committedBlocks, revision, DeletedIds(writes));
      pendingSave := Some(Batch([WeekWrite(weekStart, blocks, sent)], writes, op, None));
      if traveling == Still {
        pendingStep := CaptureStep(historyLabel, weekStart, committedBlocks, blocks, committedAssignments,
                                   assignments, dirtyAssignments);
      }
    }

    method Save(op: string, join: bool) returns (call: Option<Call>)
      modifies this
      ensures (All(), call) == AfterSave(old(All()), op, join)
    {
      hide BuildBatch, StepForSave;
      if conflict || busy {
        return None;
      }
      if pendingSave.None? {
        BuildPending(op);
      }
      joinStep := join;
      call := PostPending();
    }

    method RetrySave(op: string) returns (call: Option<Call>)
      modifies this
      ensures (All(), call) == AfterRetry(old(All()), op)
    {
      if pendingSave.Some? && !conflict {
        call := Save(op, false);
      } else {
        call := None;
      }
    }

    /** The reply's homework results, one after another. */
    method TakeResults(results: seq<HwResult>)
      modifies this`assignments, this`dirtyAssignments
      ensures WeekSnapshot() == WithResults(old(WeekSnapshot()), results)
    {
      for i := 0 to |results|
        invariant WeekSnapshot() == WithResults(old(WeekSnapshot()), results[..i])
      {
        assert results[..i + 1][..i] == results[..i];
        dirtyAssignments := dirtyAssignments - {results[i].id};
        match results[i]
        case HwSaved(id, body, rev) => assignments := assignments[id := HwRow(body, rev)];
        case HwGone(id, _, _) => assignments := assignments - {id};
      }
      assert results[..|results|] == results;
    }

    method RecordLanded(reply: Reply)
      modifies this`undoStack, this`redoStack
      ensures WeekSnapshot() == Recorded(traveling, travelStep, joinStep, old(WeekSnapshot()), reply)
    {
      if traveling == Undoing && travelStep.Some? {
        redoStack := PushStep(redoStack, KeepRevisions(travelStep.value, reply.weeks));
      } else if traveling == Redoing && travelStep.Some? {
        undoStack := PushStep(undoStack, KeepRevisions(travelStep.value, reply.weeks));
      } else if pendingStep.Some? {
        var step := AsStored(pendingStep.value, reply.weeks, assignments);
        if joinStep {
          undoStack := JoinStep(undoStack, step);
        } else {
          undoStack := PushStep(undoStack, step);
        }
        redoStack := [];
      }
    }

    /** The open week as the reply stored it, when the reply wrote it. */
    method TakeCurrent(reply: Reply) returns (written: bool)
      modifies this`blocks, this`revision, this`dirty, this`conflict
      ensures WeekSnapshot() == WithCurrent(old(WeekSnapshot()), reply)
      ensures written == FindWeek(reply.weeks, weekStart).Some?
    {
      var current := FindWeek(reply.weeks, weekStart);
      if current.Some? {
        blocks, revision, dirty, conflict := current.value.blocks, current.value.rev, false, false;
      }
      written := current.Some?;
    }

    /** Nothing is on its way any more; the open week, when it was written, is what the server has. */
    method Landed(written: bool)
      modifies this`pendingStep, this`pendingSave, this`committedBlocks, this`committedAssignments
      ensures WeekSnapshot() == Settled(old(WeekSnapshot()), written)
    {
      pendingStep, pendingSave := None, None;
      if written {
        committedBlocks, committedAssignments := blocks, assignments;
      }
    }

    method TakeSaved(reply: Reply)
      modifies this`blocks, this`revision, this`dirty, this`conflict, this`assignments, this`dirtyAssignments,
               this`undoStack, this`redoStack, this`pendingStep, this`pendingSave, this`committedBlocks,
               this`committedAssignments
      ensures WeekSnapshot() == LandedWork(traveling, travelStep, joinStep, old(WeekSnapshot()), reply)
    {
      hide WeekSnapshot, WithCurrent, Recorded, WithResults, Settled, FindWeek;
      var written := TakeCurrent(reply);
      TakeResults(reply.homework);
      RecordLanded(reply);
      Landed(written);
    }

    /** Parked weeks the save also wrote are not parked any more. */
    method TravelIsOver(written: set<string>)
      modifies this`traveling, this`travelStep, this`joinStep, this`drafts
      ensures traveling == Still && travelStep == None && !joinStep
      ensures drafts == old(drafts) - (written - {weekStart})
    {
      traveling, travelStep, joinStep := Still, None, false;
      drafts := drafts - (written - {weekStart});
    }

    method FinishSave(call: Call, reply: Reply)
      requires call.PostSave?
      modifies this`blocks, this`revision, this`dirty, this`conflict, this`assignments, this`dirtyAssignments,
               this`undoStack, this`redoStack, this`pendingStep, this`pendingSave, this`committedBlocks,
               this`committedAssignments, this`traveling, this`travelStep, this`joinStep, this`drafts
      ensures WeekSnapshot() == LandedWork(old(traveling), old(travelStep), old(joinStep), old(WeekSnapshot()), reply)
      ensures traveling == Still && travelStep == None && !joinStep
      ensures drafts == old(drafts) - (Written(call.batch) - {weekStart})
    {
      hide LandedWork, Written, WeekSnapshot;
      TakeSaved(reply);
      TravelIsOver(Written(call.batch));
    }

    method SaveOk(call: Call, reply: Reply)
      requires call.PostSave?
      modifies this
      ensures All() == AfterSaveOk(old(All()), call, reply)
    {
      hide LandedWork, Written, WeekSnapshot;
      var live := Idle(call.ticket);
      if live {
        FinishSave(call, reply);
      }
    }

    method BackToCommitted()
      modifies this`blocks, this`assignments, this`dirtyAssignments, this`dirty, this`pendingSave, this`conflict
      ensures WeekSnapshot() == AsCommitted(old(WeekSnapshot()))
    {
      blocks, assignments := committedBlocks, committedAssignments;
      LetGoUnsaved();
    }

    method PutTravelBack()
      modifies this`undoStack, this`redoStack
      ensures WeekSnapshot() == PutBack(traveling, travelStep, old(WeekSnapshot()))
    {
      if traveling == Undoing && travelStep.Some? {
        undoStack := undoStack + [travelStep.value];
      } else if traveling == Redoing && travelStep.Some? {
        redoStack := redoStack + [travelStep.value];
      }
    }

    method TakeRefusal(why: Refusal)
      modifies this`blocks, this`assignments, this`dirtyAssignments, this`dirty, this`pendingSave, this`conflict,
               this`undoStack, this`redoStack
      ensures WeekSnapshot() == TurnedDownWork(traveling, travelStep, old(WeekSnapshot()), why)
    {
      hide AsCommitted, PutBack, WeekSnapshot;
      if traveling != Still && travelStep.Some? && why != Conflict {
        BackToCommitted();
      }
      PutTravelBack();
      SetConflict(why == Conflict);
    }

    method SetConflict(refused: bool)
      modifies this`conflict
      ensures WeekSnapshot() == old(WeekSnapshot()).(conflict := refused)
    {
      conflict := refused;
    }

    /** A travel turned down is over; its step is back on its stack. */
    method TravelTurnedDown()
      modifies this`joinStep, this`traveling, this`travelStep
      ensures !joinStep
      ensures old(traveling) != Still && old(travelStep).Some? ==> traveling == Still && travelStep == None
      ensures old(traveling) == Still || old(travelStep).None? ==>
                traveling == old(traveling) && travelStep == old(travelStep)
    {
      joinStep := false;
      if traveling != Still && travelStep.Some? {
        traveling, travelStep := Still, None;
      }
    }

    method SaveErr(call: Call, why: Refusal) returns (next: Option<Call>)
      requires call.PostSave?
      modifies this
      ensures (All(), next) == AfterSaveErr(old(All()), call, why)
    {
      hide AfterReload, TurnedDownWork, WeekSnapshot;
      var live := Idle(call.ticket);
      if !live {
        return None;
      }
      var refusedTravel := traveling != Still && why == Conflict;
      TakeRefusal(why);
      TravelTurnedDown();
      if refusedTravel {
        next := Reload();
      } else {
        next := None;
      }
    }

    method ApplySide(step: Step, side: Side)
      modifies this`blocks, this`assignments, this`dirtyAssignments, this`historyLabel, this`dirty, this`conflict,
               this`pendingSave
      ensures WeekSnapshot() == SideApplied(old(WeekSnapshot()), step, side)
    {
      if weekStart in step.weeks {
        blocks := if side == Earlier then step.weeks[weekStart].before else step.weeks[weekStart].after;
      }
      Edit(blocks, WithSide(assignments, step.homework, side), step.homework.Keys, step.name);
    }

    /** The step's side goes on screen and is saved. */
    method Travel(step: Step, travel: Travel, op: string) returns (call: Option<Call>)
      modifies this
      ensures (All(), call) == AfterSave(Travelling(old(All()), old(WeekSnapshot()), travel, step), op, false)
    {
      hide AfterSave, SideApplied, WeekSnapshot;
      traveling, travelStep := travel, Some(step);
      ApplySide(step, if travel == Undoing then Earlier else Later);
      call := Save(op, false);
    }

    method Undo(op: string) returns (call: Option<Call>)
      modifies this
      ensures (All(), call) == AfterUndo(old(All()), op)
    {
      hide AfterSave, SideApplied, DropStale;
      undoStack, redoStack := DropStale(undoStack), DropStale(redoStack);
      if !TravelsHere(All(), undoStack) {
        return None;
      }
      var step := undoStack[|undoStack| - 1];
      undoStack := undoStack[..|undoStack| - 1];
      call := Travel(step, Undoing, op);
    }

    method Redo(op: string) returns (call: Option<Call>)
      modifies this
      ensures (All(), call) == AfterRedo(old(All()), op)
    {
      hide AfterSave, SideApplied, DropStale;
      undoStack, redoStack := DropStale(undoStack), DropStale(redoStack);
      if !TravelsHere(All(), redoStack) {
        return None;
      }
      var step := redoStack[|redoStack| - 1];
      redoStack := redoStack[..|redoStack| - 1];
      call := Travel(step, Redoing, op);
    }

    method CommitMove(to: string, dest: Row, sourceAfter: seq<Block>, destAfter: seq<Block>, op: string, name: string)
      modifies this
      ensures All() == MoveCommitted(old(All()), to, dest, sourceAfter, destAfter, op, name)
    {
      pendingStep := Some(Step(name, map[weekStart := WeekChange(blocks, sourceAfter, 0),
                                         to := WeekChange(dest.blocks, destAfter, 0)], map[], false));
      historyLabel := name;
      pendingSave := Some(Batch([WeekWrite(weekStart, sourceAfter, revision), WeekWrite(to, destAfter, dest.rev)], [],
                                op, None));
    }

    method MoveToDate(to: string, sourceAfter: seq<Block>, destAfter: seq<Block>, op: string, name: string)
      returns (call: Option<Call>)
      modifies this
      ensures (All(), call) == AfterMove(old(All()), to, sourceAfter, destAfter, op, name)
    {
      if conflict || busy || pendingSave.Some? || to == weekStart {
        return None;
      }
      if to in drafts && drafts[to].dirty {
        CommitMove(to, Row(drafts[to].blocks, drafts[to].rev), sourceAfter, destAfter, op, name);
        call := PostPending();
      } else {
        BeginRequest();
        call := Some(GetDestination(ticket, to));
      }
    }

    method DestinationReply(call: Call, dest: Row, placed: bool, sourceAfter: seq<Block>, destAfter: seq<Block>,
                            op: string, name: string) returns (next: Option<Call>)
      requires call.GetDestination?
      modifies this
      ensures placed ==> (All(), next) == AfterDestination(old(All()), call, dest, sourceAfter, destAfter, op, name)
      ensures !placed ==> (All(), next) == (AfterFailure(old(All()), call.ticket), None)
    {
      if !placed {
        var _ := Idle(call.ticket);
        return None;
      }
      if call.ticket != ticket || call.week == weekStart {
        return None;
      }
      CommitMove(call.week, dest, sourceAfter, destAfter, op, name);
      return Some(PostSave(call.ticket, pendingSave.value));
    }
  }
}
