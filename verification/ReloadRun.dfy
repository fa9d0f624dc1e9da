/** A run of two windows: the one that reloads the week after the other saved it can no longer undo its own
    save over the other's. */
module ReloadRun {
  import opened Basics
  import opened Names
  import opened Store
  import opened Prediction
  import opened History
  import opened Session
  import opened Protocol
  import opened ProtocolRuns

  /** A week saved over its version of revision `rev`. */
  function Saving(blocks: seq<Block>, rev: nat, op: string): Batch {
    Batch([WeekWrite(WEEK, blocks, rev)], [], op, None)
  }

  function SavedReply(blocks: seq<Block>, rev: nat): Reply {
    Reply([WeekWrite(WEEK, blocks, rev)], [])
  }

  /** The server has the one week, and nothing else. */
  predicate Has(db: Db, row: Row, ids: seq<string>) {
    RowOf(db.weeks, WEEK) == row && db.homework == map[] && Remembers(db.ops, ids)
  }

  lemma SavingRuns(db: Db, row: Row, blocks: seq<Block>, ids: seq<string>, op: string, token: string)
    requires Has(db, row, ids) && op !in ids && |ids| < MAX_OPERATIONS
    requires blocks != row.blocks && !RepeatsId(blocks) && Owned(map[], blocks)
    ensures var (after, answer) := PostChanges(db, Saving(blocks, row.rev, op), token);
            && answer == Done(ChangesResponse(SavedReply(blocks, row.rev + 1)))
            && Has(after, Row(blocks, row.rev + 1), ids + [op])
  {
    hide RepeatsId, Recall, Remember, RunUpserts, RunDeletes;
    var batch := Saving(blocks, row.rev, op);
    var weeks := db.weeks[WEEK := Row(blocks, row.rev + 1)];
    OneWriteRuns(db, batch.weeks[0], weeks, row.rev + 1);
    assert batch.weeks == [batch.weeks[0]];
    BatchOfWeeksRuns(db, batch, token, weeks, SavedReply(blocks, row.rev + 1));
    RunsAndIsRemembered(db, ids, batch, token, db.(weeks := weeks), SavedReply(blocks, row.rev + 1));
  }

  /** The window has the week as the server had it, and nothing to save. */
  predicate Rests(s: State, row: Row) {
    var work := s.open;
    && work.week == WEEK && work.blocks == work.committed == row.blocks && work.rev == row.rev
    && work.homework == work.committedHw == map[] && work.dirtyHw == {}
    && !work.dirty && work.pending.None? && !work.conflict && !s.busy
    && s.travel == Still && s.travelStep.None? && !s.join && s.drafts == map[]
  }

  /** New blocks are saved. */
  lemma EditSends(s: State, row: Row, blocks: seq<Block>, name: string, op: string)
    requires Rests(s, row) && blocks != row.blocks
    ensures var edited := Act(s, Edit(blocks, map[], name));
            && edited.1.None?
            && var (sent, call) := Act(edited.0, Save(op, false));
               && call == Some(PostSave(sent.ticket, Saving(blocks, row.rev, op)))
               && sent.open.week == WEEK && sent.open.homework == sent.open.committedHw == map[]
               && sent.open.dirtyHw == {} && sent.open.undo == s.open.undo && sent.drafts == map[]
               && sent.travel == Still && sent.travelStep.None? && !sent.join
               && sent.open.step == Some(Step(name, map[WEEK := WeekChange(row.blocks, blocks, 0)], map[], false))
  {
    SortedOne("");
    assert Changed(map[], map[]) == map[];
    var edited := Act(s, Edit(blocks, map[], name)).0;
    assert edited.open.dirtyHw == {} && HwWrites(edited.open, []) == [];
    assert DeletedIds([]) == {} && Prediction.Touched(row.blocks, {}) == {};
    assert WEEK in map[WEEK := WeekChange(row.blocks, blocks, 0)];
  }

  /** The answer leaves its step on top. */
  lemma EditLands(s: State, row: Row, blocks: seq<Block>, rev: nat, name: string, batch: Batch)
    requires s.open.week == WEEK && s.open.homework == s.open.committedHw == map[] && s.open.dirtyHw == {}
    requires s.travel == Still && s.travelStep.None? && !s.join && s.drafts == map[]
    requires s.open.step == Some(Step(name, map[WEEK := WeekChange(row.blocks, blocks, 0)], map[], false))
    ensures var after := AfterSaveOk(s, PostSave(s.ticket, batch), SavedReply(blocks, rev));
            && Rests(after, Row(blocks, rev))
            && after.open.undo
               == PushStep(s.open.undo, Step(name, map[WEEK := WeekChange(row.blocks, blocks, rev)], map[], false))
  {
    var reply := SavedReply(blocks, rev);
    assert FindWeek(reply.weeks, WEEK) == Some(reply.weeks[0]);
    var current := WithCurrent(s.open, reply);
    assert WithResults(current, []) == current;
    var stored := AsStored(s.open.step.value, reply.weeks, map[]);
    assert stored.weeks == map[WEEK := WeekChange(row.blocks, blocks, rev)] && stored.homework == map[];
    assert stored == Step(name, map[WEEK := WeekChange(row.blocks, blocks, rev)], map[], false);
    hide AsStored, WithResults, WithCurrent, FindWeek, PushStep;
  }

  /** Two windows and the server, between requests. */
  ghost predicate Between(sys: System, row: Row, ids: seq<string>) {
    && Reached(BOTH, sys) && sys.windows.Keys == sys.seen.Keys == {0, 1} && Has(sys.db, row, ids)
  }

  lemma Saves(sys: System, window: nat, row: Row, blocks: seq<Block>, name: string, ids: seq<string>, op: string)
    returns (after: System)
    requires window in {0, 1} && Between(sys, row, ids) && Rests(sys.windows[window], row)
    requires blocks != row.blocks && !RepeatsId(blocks) && Owned(map[], blocks) && op !in ids && |ids| < MAX_OPERATIONS
    ensures Between(after, Row(blocks, row.rev + 1), ids + [op])
    ensures after.windows == sys.windows[window := after.windows[window]]
    ensures Rests(after.windows[window], Row(blocks, row.rev + 1))
    ensures after.windows[window].open.undo
         == PushStep(sys.windows[window].open.undo,
                     Step(name, map[WEEK := WeekChange(row.blocks, blocks, row.rev + 1)], map[], false))
  {
    hide Act, Take, Handled, Reached, Rests, Has, AfterSaveOk, Shown, PushStep;
    EditSends(sys.windows[window], row, blocks, name, op);
    var edited := Does(BOTH, sys, window, Edit(blocks, map[], name));
    var sent, request := Sends(BOTH, edited, window, Save(op, false));
    var s, batch := sent.windows[window], Saving(blocks, row.rev, op);
    SavingRuns(sent.db, row, blocks, ids, op, "");
    SavedIsTaken(sent.db, s, batch, "", SavedReply(blocks, row.rev + 1));
    EditLands(s, row, blocks, row.rev + 1, name, batch);
    var next;
    after, next := IsAnswered(BOTH, sent, window, request, PostSave(s.ticket, batch), "", Action.Reload);
  }

  /** A window at rest reloads its week: its steps stay, and are stale if the week is at another revision. */
  lemma Reloads(sys: System, window: nat, known: Row, row: Row, ids: seq<string>) returns (after: System)
    requires window in {0, 1} && Between(sys, row, ids) && Rests(sys.windows[window], known)
    ensures Between(after, row, ids) && after.windows == sys.windows[window := after.windows[window]]
    ensures Rests(after.windows[window], row)
    ensures after.windows[window].open.undo
         == if known.rev != row.rev then MarkStale(sys.windows[window].open.undo, WEEK)
            else sys.windows[window].open.undo
  {
    hide Act, Reached, Rests, Has, AfterHomeworkReply, MarkStale;
    var s := sys.windows[window];
    var asked := ReloadAsks(s, known, row);
    HasRow(sys.db, row, ids);
    after := Loads(BOTH, sys, window, Action.Reload, asked, s.ticket + 1, WEEK, WEEK, row);
  }

  lemma HasRow(db: Db, row: Row, ids: seq<string>)
    requires Has(db, row, ids)
    ensures RowOf(db.weeks, WEEK) == row && db.homework == map[]
  {
  }

  lemma ReloadAsks(s: State, known: Row, row: Row) returns (asked: State)
    requires Rests(s, known)
    ensures Act(s, Action.Reload) == (asked, Some(GetWeek(s.ticket + 1, WEEK, WEEK))) && asked.ticket == s.ticket + 1
    ensures var after := AfterHomeworkReply(asked, GetHomework(s.ticket + 1, WEEK, WEEK, row), map[]);
            && Rests(after, row)
            && after.open.undo == (if known.rev != row.rev then MarkStale(s.open.undo, WEEK) else s.open.undo)
  {
    asked := AfterReload(s).0;
  }

  lemma TwoRest() returns (sys: System)
    ensures Between(sys, UNSAVED, []) && Rests(sys.windows[0], UNSAVED) && Rests(sys.windows[1], UNSAVED)
    ensures sys.windows[0].open.undo == []
  {
    hide Reached;
    sys := BothStart();
  }

  lemma BlocksCanBeSaved()
    ensures LESSON != UNSAVED.blocks && !RepeatsId(LESSON) && Owned(map[], LESSON)
    ensures MORE != LESSON && !RepeatsId(MORE) && Owned(map[], MORE)
  {
    assert MORE[0].id != MORE[1].id;
  }

  /** The first window saves a lesson; the second reads the week and saves it with a note; the first reloads
      it. Undo then sends nothing, under any operation id, and the first window's step is gone: the note
      stays. */
  lemma AReloadEndsTheStep() returns (events: seq<Event>)
    ensures var sys := Run(Start(BOTH), events);
            && 0 in sys.windows && RowOf(sys.db.weeks, WEEK) == Row(MORE, 2)
            && var s := sys.windows[0];
               && s.open.blocks == MORE && s.open.rev == 2 && |s.open.undo| == 1
               && s.open.undo[0].weeks.Keys == {WEEK} && s.open.undo[0].weeks[WEEK] == WeekChange([], LESSON, 1)
               && forall op :: Act(s, Undo(op)).1.None? && Act(s, Undo(op)).0.open.undo == []
  {
    hide Between, Rests, Start, MarkStale, Act;
    BlocksCanBeSaved();
    var sys := TwoRest();
    sys := Saves(sys, 0, UNSAVED, LESSON, "adding Lesson", [], "op1");
    var step := Step("adding Lesson", map[WEEK := WeekChange([], LESSON, 1)], map[], false);
    assert PushStep([], step) == [step];
    var one := sys;
    assert [] + ["op1"] == ["op1"] && ["op1"] + ["op2"] == ["op1", "op2"];
    sys := Reloads(sys, 1, UNSAVED, Row(LESSON, 1), ["op1"]);
    sys := Saves(sys, 1, Row(LESSON, 1), MORE, "adding a note", ["op1"], "op2");
    assert sys.windows[0] == one.windows[0];
    sys := Reloads(sys, 0, Row(LESSON, 1), Row(MORE, 2), ["op1", "op2"]);
    NothingToUndo(sys.windows[0], Row(MORE, 2), step);
    AtTheEnd(sys, Row(MORE, 2), ["op1", "op2"]);
    events := TheEvents(BOTH, sys);
  }

  lemma AtTheEnd(sys: System, row: Row, ids: seq<string>)
    requires Between(sys, row, ids) && 0 in sys.windows && Rests(sys.windows[0], row)
    ensures Reached(BOTH, sys) && RowOf(sys.db.weeks, WEEK) == row
    ensures sys.windows[0].open.blocks == row.blocks && sys.windows[0].open.rev == row.rev
  {
    hide Reached;
  }

  lemma NothingToUndo(s: State, row: Row, step: Step)
    requires Rests(s, row) && step.weeks.Keys == {WEEK} && s.open.undo == MarkStale([step], WEEK)
    ensures |s.open.undo| == 1 && s.open.undo[0] == step.(stale := true)
    ensures forall op :: Act(s, Undo(op)).1.None? && Act(s, Undo(op)).0.open.undo == []
  {
    var undo := s.open.undo;
    assert undo[0] == step.(stale := true);
    assert undo[..0] == [];
    assert DropStale([]) == [] && DropStale(undo) == [];
  }
}
