/** Runs in which a homework text is lost: one overwritten by a window that never read it, since the homework was
    deleted and made again under the revision that window knows; and one undone by a step older than it. */
module HomeworkRun {
  import opened Basics
  import opened Names
  import opened Store
  import opened Prediction
  import opened History
  import opened Session
  import opened Protocol
  import opened ProtocolRuns

  // ----- One homework in an empty week -----

  function HwOf(row: Option<HwRow>): Homework {
    if row.Some? then map["essay" := row.value] else map[]
  }

  function RevOf(row: Option<HwRow>): nat {
    if row.Some? then row.value.rev else 0
  }

  function TextOf(row: Option<HwRow>): Option<string> {
    if row.Some? then Some(row.value.body) else None
  }

  /** The row once its text is `text`, or it is deleted. */
  function NextRow(row: Option<HwRow>, text: Option<string>): Option<HwRow> {
    if text.Some? then Some(HwRow(text.value, RevOf(row) + 1)) else None
  }

  function EssayBatch(row: Option<HwRow>, text: Option<string>, op: string): Batch {
    Batch([WeekWrite(WEEK, [], 0)], [HwWrite("essay", text, RevOf(row))], op, None)
  }

  function EssayResult(row: Option<HwRow>, text: Option<string>): HwResult {
    if text.Some? then HwSaved("essay", text.value, RevOf(row) + 1) else HwGone("essay", map[], map[])
  }

  function EssayReply(row: Option<HwRow>, text: Option<string>): Reply {
    Reply([WeekWrite(WEEK, [], 0)], [EssayResult(row, text)])
  }

  /** The server has the homework, and nothing else. */
  predicate Keeps(db: Db, row: Option<HwRow>, ids: seq<string>) {
    db.weeks == map[] && db.homework == HwOf(row) && Remembers(db.ops, ids)
  }

  lemma EmptyWeekRuns(db: Db)
    requires db.weeks == map[]
    ensures RunWeeks(db, [WeekWrite(WEEK, [], 0)]) == Done((db, [WeekWrite(WEEK, [], 0)]))
  {
    assert db.(weeks := db.weeks) == db;
    OneWriteRuns(db, WeekWrite(WEEK, [], 0), db.weeks, 0);
  }

  lemma EssayPasses(db: Db, row: Option<HwRow>, text: Option<string>, op: string)
    requires db.weeks == map[] && db.homework == HwOf(row) && text != TextOf(row)
    ensures var writes := EssayBatch(row, text, op).homework;
            var upserted := RunUpserts(db.homework, writes);
            && upserted.Done?
            && var deleted := RunDeletes(db.(homework := upserted.value.0), writes);
               && deleted.Done? && deleted.value.0 == db.(homework := HwOf(NextRow(row, text)))
               && upserted.value.1 + deleted.value.1 == [EssayResult(row, text)]
  {
    var write := HwWrite("essay", text, RevOf(row));
    assert [write][..|[write]| - 1] == [];
    NoHomework(db);
    assert db.(homework := db.homework) == db;
    if text.Some? {
      var saved := SaveHomework(db.homework, "essay", text.value, RevOf(row));
      assert db.homework["essay" := HwRow(text.value, RevOf(row) + 1)] == HwOf(NextRow(row, text));
      assert row.None? ==> db.homework == map[] && |db.homework| == 0;
      assert saved == Done((HwOf(NextRow(row, text)), RevOf(row) + 1));
      assert [] + [EssayResult(row, text)] == [EssayResult(row, text)];
      var ready := db.(homework := HwOf(NextRow(row, text)));
      NoHomework(ready);
      assert RunDeletes(ready, [write]) == Done((ready, []));
      assert [EssayResult(row, text)] + [] == [EssayResult(row, text)];
    } else {
      assert RunUpserts(db.homework, [write]) == Done((db.homework, []));
      assert CutAll(map[], "essay") == map[];
      assert GoneResult(map[], "essay") == EssayResult(row, text);
      assert db.homework - {"essay"} == map[];
      assert [] + [EssayResult(row, text)] == [EssayResult(row, text)];
    }
  }

  lemma EssayRuns(db: Db, row: Option<HwRow>, text: Option<string>, ids: seq<string>, op: string, token: string)
    requires Keeps(db, row, ids) && text != TextOf(row) && op !in ids && |ids| < MAX_OPERATIONS
    ensures var (after, answer) := PostChanges(db, EssayBatch(row, text, op), token);
            && answer == Done(ChangesResponse(EssayReply(row, text)))
            && Keeps(after, NextRow(row, text), ids + [op])
  {
    hide RunUpserts, RunDeletes, RunWeeks, Recall, Remember;
    var batch := EssayBatch(row, text, op);
    EssayPasses(db, row, text, op);
    var ran := db.(homework := HwOf(NextRow(row, text)));
    EmptyWeekRuns(ran);
    RunsAndIsRemembered(db, ids, batch, token, ran, EssayReply(row, text));
  }

  // ----- The window -----

  type Texts = (Option<string>, Option<string>)

  predicate IsStep(step: Step, texts: Texts) {
    && !step.stale && step.weeks.Keys == {}
    && step.homework.Keys == {"essay"} && step.homework["essay"] == HwChange(texts.0, texts.1)
  }

  predicate AreSteps(stack: seq<Step>, texts: seq<Texts>) {
    |stack| == |texts| && forall i :: 0 <= i < |stack| ==> IsStep(stack[i], texts[i])
  }

  /** The window has the homework as the server had it, nothing unsaved, and these steps. */
  predicate Rests(s: State, row: Option<HwRow>, undo: seq<Texts>, redo: seq<Texts>) {
    var work := s.open;
    && work.week == WEEK && work.blocks == work.committed == [] && work.rev == 0
    && work.homework == work.committedHw == HwOf(row) && work.dirtyHw == {}
    && !work.dirty && work.pending.None? && !work.conflict && !s.busy
    && s.travel == Still && s.travelStep.None?
    && AreSteps(work.undo, undo) && AreSteps(work.redo, redo)
  }

  /** The window shows another text and has it to save. */
  predicate Shows(work: WeekWork, row: Option<HwRow>, text: Option<string>) {
    && work.week == WEEK && work.blocks == work.committed == [] && work.rev == 0
    && work.homework == (if text.Some? then map["essay" := HwRow(text.value, RevOf(row))] else map[])
    && work.committedHw == HwOf(row) && work.dirtyHw == {"essay"}
  }

  lemma ShowsBuilds(s: State, row: Option<HwRow>, text: Option<string>, op: string)
    requires Shows(s.open, row, text) && ExtraWeeks(s) == {}
    ensures BuildBatch(s, op) == EssayBatch(row, text, op)
  {
    SortedOne("essay");
    assert HwWrites(s.open, ["essay"]) == [HwWrite("essay", text, RevOf(row))];
    assert Prediction.Touched([], DeletedIds([HwWrite("essay", text, RevOf(row))])) == {};
  }

  lemma ShowsLands(work: WeekWork, row: Option<HwRow>, text: Option<string>)
    requires Shows(work, row, text)
    ensures FindWeek(EssayReply(row, text).weeks, work.week) == Some(WeekWrite(WEEK, [], 0))
    ensures var reply := EssayReply(row, text);
            WithResults(WithCurrent(work, reply), reply.homework)
              == work.(dirty := false, conflict := false, homework := HwOf(NextRow(row, text)), dirtyHw := {})
  {
    var reply := EssayReply(row, text);
    assert reply.weeks[0].week == WEEK;
    assert FindWeek(reply.weeks, WEEK) == Some(reply.weeks[0]);
    var current := WithCurrent(work, reply);
    assert current == work.(dirty := false, conflict := false);
    var results := reply.homework;
    assert |results| == 1 && results[..|results| - 1] == [] && WithResults(current, []) == current;
    assert {"essay"} - {"essay"} == {};
    if text.Some? {
      assert current.homework["essay" := HwRow(text.value, RevOf(row) + 1)] == HwOf(NextRow(row, text));
    } else {
      assert current.homework - {"essay"} == map[];
    }
  }

  /** Its save goes out. */
  lemma ShownIsPosted(s: State, row: Option<HwRow>, text: Option<string>, op: string)
    requires Shows(s.open, row, text) && ExtraWeeks(s) == {}
    requires s.open.pending.None? && !s.open.conflict && !s.busy
    ensures var batch := EssayBatch(row, text, op);
            AfterSave(s, op, false)
              == (Begin(s.(join := false, open := s.open.(pending := Some(batch), step := StepForSave(s)))),
                  Some(PostSave(s.ticket + 1, batch)))
  {
    hide BuildBatch, StepForSave, Shows, ExtraWeeks;
    ShowsBuilds(s, row, text, op);
  }

  // ----- What the student does in it -----

  function Writing(text: string): Action {
    Edit([], map["essay" := text], "changing Essay")
  }

  /** A new text is saved. */
  lemma SaveSends(s: State, row: Option<HwRow>, undo: seq<Texts>, redo: seq<Texts>, text: string, op: string)
    requires Rests(s, row, undo, redo) && TextOf(row) != Some(text)
    ensures Act(s, Writing(text)).1.None?
    ensures var (sent, call) := Act(Act(s, Writing(text)).0, Save(op, false));
            && call == Some(PostSave(sent.ticket, EssayBatch(row, Some(text), op))) && sent.ticket == s.ticket + 1
            && Shows(sent.open, row, Some(text)) && sent.travel == Still && sent.travelStep.None? && !sent.join
            && sent.open.undo == s.open.undo && sent.open.redo == s.open.redo
            && sent.open.step.Some? && IsStep(sent.open.step.value, (TextOf(row), Some(text)))
  {
    var work := Act(s, Writing(text)).0;
    assert Changed(HwOf(row), map["essay" := text]) == map["essay" := HwRow(text, RevOf(row))];
    assert Shows(work.open, row, Some(text)) && ExtraWeeks(work) == {};
    Captured(work.open, row, text);
    NoExtras();
    hide Shows, CaptureStep, Rests, IsStep, Changed;
    ShownIsPosted(work, row, Some(text), op);
    SaveIs(work, op);
    hide AfterSave, Act;
    StillShows(work.open, work.open.(pending := Some(EssayBatch(row, Some(text), op)), step := StepForSave(work)), row,
               Some(text));
  }

  lemma NoExtras()
    ensures Sorted({}) == []
  {
  }

  lemma SaveIs(s: State, op: string)
    ensures Act(s, Save(op, false)) == AfterSave(s, op, false)
  {
    hide AfterSave;
  }

  lemma StillShows(work: WeekWork, sent: WeekWork, row: Option<HwRow>, text: Option<string>)
    requires Shows(work, row, text) && sent == work.(pending := sent.pending, step := sent.step)
    ensures Shows(sent, row, text)
  {
  }

  lemma Captured(work: WeekWork, row: Option<HwRow>, text: string)
    requires Shows(work, row, Some(text)) && TextOf(row) != Some(text)
    ensures var step := CaptureStep(work.name, work.week, work.committed, work.blocks, work.committedHw, work.homework,
                                    work.dirtyHw);
            step.Some? && IsStep(step.value, (TextOf(row), Some(text)))
  {
    assert BodyOf(work.committedHw, "essay") == TextOf(row) && BodyOf(work.homework, "essay") == Some(text);
    var step := CaptureStep(work.name, work.week, work.committed, work.blocks, work.committedHw, work.homework,
                            work.dirtyHw);
    var homework := map id | id in work.dirtyHw && BodyOf(work.committedHw, id) != BodyOf(work.homework, id)
                      :: HwChange(BodyOf(work.committedHw, id), BodyOf(work.homework, id));
    assert "essay" in homework && homework.Keys == {"essay"};
  }

  lemma StoredIsStep(step: Step, weeks: seq<WeekWrite>, homework: Homework, texts: Texts)
    requires IsStep(step, texts) && BodyOf(homework, "essay") == texts.1
    ensures IsStep(AsStored(step, weeks, homework), texts)
  {
  }

  lemma SaveLands(s: State, row: Option<HwRow>, undo: seq<Texts>, text: string, batch: Batch)
    requires Shows(s.open, row, Some(text)) && s.travel == Still && s.travelStep.None? && !s.join
    requires AreSteps(s.open.undo, undo) && |undo| < HISTORY_LIMIT
    requires s.open.step.Some? && IsStep(s.open.step.value, (TextOf(row), Some(text)))
    ensures var after := AfterSaveOk(s, PostSave(s.ticket, batch), EssayReply(row, Some(text)));
            && Rests(after, NextRow(row, Some(text)), undo + [(TextOf(row), Some(text))], [])
            && after.ticket == s.ticket
  {
    var reply := EssayReply(row, Some(text));
    ShowsLands(s.open, row, Some(text));
    var stored := WithResults(WithCurrent(s.open, reply), reply.homework);
    var step := AsStored(s.open.step.value, reply.weeks, stored.homework);
    StoredIsStep(s.open.step.value, reply.weeks, stored.homework, (TextOf(row), Some(text)));
    hide AsStored, WithResults, WithCurrent, FindWeek, IsStep;
    var after := Recorded(Still, None, false, stored, reply);
    assert after == stored.(undo := s.open.undo + [step], redo := []);
  }

  /** What the step on top of the undo stack takes back is asked for. */
  lemma UndoSends(s: State, row: Option<HwRow>, undo: seq<Texts>, redo: seq<Texts>, op: string)
    requires Rests(s, row, undo, redo) && undo != []
    ensures var text := undo[|undo| - 1].0;
            var (sent, call) := Act(s, Undo(op));
            && call == Some(PostSave(s.ticket + 1, EssayBatch(row, text, op))) && sent.ticket == s.ticket + 1
            && Shows(sent.open, row, text) && sent.travel == Undoing
            && sent.travelStep == Some(s.open.undo[|undo| - 1])
            && sent.open.undo == s.open.undo[..|undo| - 1] && sent.open.redo == s.open.redo
  {
    var text, step, popped := undo[|undo| - 1].0, s.open.undo[|undo| - 1], s.open.(undo := s.open.undo[..|undo| - 1]);
    assert IsStep(step, undo[|undo| - 1]);
    FreshStacks(s, row, undo, redo);
    SideShows(popped, row, step, text, Earlier);
    TravelPosts(s, popped, Undoing, step, row, text, op);
    hide AfterSave, SideApplied, Shows, IsStep, AreSteps, DropStale, EssayBatch, Travelling;
    UndoIsSave(s, popped, step, op);
  }

  /** What the step on top of the redo stack brings back is asked for. */
  lemma RedoSends(s: State, row: Option<HwRow>, undo: seq<Texts>, redo: seq<Texts>, op: string)
    requires Rests(s, row, undo, redo) && redo != []
    ensures var text := redo[|redo| - 1].1;
            var (sent, call) := Act(s, Redo(op));
            && call == Some(PostSave(s.ticket + 1, EssayBatch(row, text, op))) && sent.ticket == s.ticket + 1
            && Shows(sent.open, row, text) && sent.travel == Redoing
            && sent.travelStep == Some(s.open.redo[|redo| - 1])
            && sent.open.undo == s.open.undo && sent.open.redo == s.open.redo[..|redo| - 1]
  {
    var text, step, popped := redo[|redo| - 1].1, s.open.redo[|redo| - 1], s.open.(redo := s.open.redo[..|redo| - 1]);
    assert IsStep(step, redo[|redo| - 1]);
    FreshStacks(s, row, undo, redo);
    SideShows(popped, row, step, text, Later);
    TravelPosts(s, popped, Redoing, step, row, text, op);
    hide AfterSave, SideApplied, Shows, IsStep, AreSteps, DropStale, EssayBatch, Travelling;
    RedoIsSave(s, popped, step, op);
  }

  lemma UndoIsSave(s: State, popped: WeekWork, step: Step, op: string)
    requires WithoutStale(s) == s && CanTravel(s, s.open.undo) && step.weeks.Keys == {}
    requires step == s.open.undo[|s.open.undo| - 1] && popped == s.open.(undo := s.open.undo[..|s.open.undo| - 1])
    ensures Act(s, Undo(op)) == AfterSave(Travelling(s, popped, Undoing, step), op, false)
  {
    hide AfterSave, Travelling, DropStale, WithoutStale;
    assert step.weeks == map[];
  }

  lemma RedoIsSave(s: State, popped: WeekWork, step: Step, op: string)
    requires WithoutStale(s) == s && CanTravel(s, s.open.redo) && step.weeks.Keys == {}
    requires step == s.open.redo[|s.open.redo| - 1] && popped == s.open.(redo := s.open.redo[..|s.open.redo| - 1])
    ensures Act(s, Redo(op)) == AfterSave(Travelling(s, popped, Redoing, step), op, false)
  {
    hide AfterSave, Travelling, DropStale, WithoutStale;
    assert step.weeks == map[];
  }

  lemma TravelPosts(s: State, popped: WeekWork, travel: Travel, step: Step, row: Option<HwRow>, text: Option<string>,
                    op: string)
    requires travel != Still && !s.busy && step.weeks.Keys == {}
    requires var sided := SideApplied(popped, step, if travel == Undoing then Earlier else Later);
             Shows(sided, row, text) && !sided.conflict && sided.pending.None?
             && sided.undo == popped.undo && sided.redo == popped.redo
    ensures var (sent, call) := AfterSave(Travelling(s, popped, travel, step), op, false);
            && call == Some(PostSave(s.ticket + 1, EssayBatch(row, text, op))) && sent.ticket == s.ticket + 1
            && Shows(sent.open, row, text) && sent.travel == travel && sent.travelStep == Some(step)
            && sent.open.undo == popped.undo && sent.open.redo == popped.redo
  {
    hide AfterSave, SideApplied, Shows, StepForSave, EssayBatch;
    var going := Travelling(s, popped, travel, step);
    NoOtherWeeks(going, step);
    hide ExtraWeeks;
    ShownIsPosted(going, row, text, op);
    StillShows(going.open, going.open.(pending := Some(EssayBatch(row, text, op)), step := StepForSave(going)), row,
               text);
  }

  lemma NoOtherWeeks(s: State, step: Step)
    requires s.travelStep == Some(step) && step.weeks.Keys == {}
    ensures ExtraWeeks(s) == {}
  {
  }

  lemma FreshStacks(s: State, row: Option<HwRow>, undo: seq<Texts>, redo: seq<Texts>)
    requires Rests(s, row, undo, redo)
    ensures WithoutStale(s) == s
    ensures s.open.undo != [] ==> s.open.undo[|s.open.undo| - 1].weeks.Keys == {}
    ensures s.open.redo != [] ==> s.open.redo[|s.open.redo| - 1].weeks.Keys == {}
  {
    assert s.open.undo != [] ==> IsStep(s.open.undo[|s.open.undo| - 1], undo[|undo| - 1]);
    assert s.open.redo != [] ==> IsStep(s.open.redo[|s.open.redo| - 1], redo[|redo| - 1]);
  }

  lemma SideShows(work: WeekWork, row: Option<HwRow>, step: Step, text: Option<string>, side: Side)
    requires work.week == WEEK && work.blocks == work.committed == [] && work.rev == 0 && work.dirtyHw == {}
    requires work.homework == work.committedHw == HwOf(row) && step.weeks.Keys == {}
    requires step.homework.Keys == {"essay"} && SideBody(step.homework["essay"], side) == text
    ensures var sided := SideApplied(work, step, side);
            Shows(sided, row, text) && !sided.conflict && sided.pending.None?
            && sided.undo == work.undo && sided.redo == work.redo
  {
    var sided := WithSide(HwOf(row), step.homework, side);
    assert sided == if text.Some? then map["essay" := HwRow(text.value, RevOf(row))] else map[];
  }

  lemma KeptIsStep(step: Step, weeks: seq<WeekWrite>, texts: Texts)
    requires IsStep(step, texts)
    ensures IsStep(KeepRevisions(step, weeks), texts)
  {
  }

  lemma TravelLands(s: State, row: Option<HwRow>, undo: seq<Texts>, redo: seq<Texts>, text: Option<string>,
                    step: Step, texts: Texts, batch: Batch)
    requires Shows(s.open, row, text) && s.travel != Still && s.travelStep == Some(step) && IsStep(step, texts)
    requires AreSteps(s.open.undo, undo) && AreSteps(s.open.redo, redo)
    requires |undo| < HISTORY_LIMIT && |redo| < HISTORY_LIMIT
    ensures var after := AfterSaveOk(s, PostSave(s.ticket, batch), EssayReply(row, text));
            && after.ticket == s.ticket
            && if s.travel == Undoing then Rests(after, NextRow(row, text), undo, redo + [texts])
               else Rests(after, NextRow(row, text), undo + [texts], redo)
  {
    var reply := EssayReply(row, text);
    ShowsLands(s.open, row, text);
    var stored := WithResults(WithCurrent(s.open, reply), reply.homework);
    var kept := KeepRevisions(step, reply.weeks);
    KeptIsStep(step, reply.weeks, texts);
    hide KeepRevisions, WithResults, WithCurrent, FindWeek, IsStep;
    var after := Recorded(s.travel, s.travelStep, s.join, stored, reply);
    assert after == if s.travel == Undoing then stored.(redo := s.open.redo + [kept])
                    else stored.(undo := s.open.undo + [kept]);
  }

  // ----- One request after another -----

  /** Two windows and the server, between requests. */
  ghost predicate Between(sys: System, row: Option<HwRow>, ids: seq<string>) {
    && Reached(BOTH, sys) && sys.windows.Keys == sys.seen.Keys == {0, 1} && Keeps(sys.db, row, ids)
  }

  lemma Answered(sys: System, window: nat, request: nat, row: Option<HwRow>, text: Option<string>, ids: seq<string>,
                 op: string) returns (after: System)
    requires window in {0, 1} && Between(sys, row, ids)
    requires OnItsWay(sys, window, request, PostSave(sys.windows[window].ticket, EssayBatch(row, text, op)))
    requires text != TextOf(row) && op !in ids && |ids| < MAX_OPERATIONS
    ensures Between(after, NextRow(row, text), ids + [op])
    ensures after.windows == sys.windows[window :=
              AfterSaveOk(sys.windows[window], PostSave(sys.windows[window].ticket, EssayBatch(row, text, op)),
                          EssayReply(row, text))]
  {
    hide Take, Handled, AfterSaveOk, Reached, Shown, Keeps;
    var s, batch := sys.windows[window], EssayBatch(row, text, op);
    EssayRuns(sys.db, row, text, ids, op, "");
    SavedIsTaken(sys.db, s, batch, "", EssayReply(row, text));
    var next;
    after, next := IsAnswered(BOTH, sys, window, request, PostSave(s.ticket, batch), "", Action.Reload);
  }

  lemma Saves(sys: System, window: nat, row: Option<HwRow>, undo: seq<Texts>, redo: seq<Texts>, text: string,
              ids: seq<string>, op: string) returns (after: System)
    requires window in {0, 1} && Between(sys, row, ids) && Rests(sys.windows[window], row, undo, redo)
    requires TextOf(row) != Some(text) && op !in ids && |ids| < MAX_OPERATIONS && |undo| < HISTORY_LIMIT
    ensures Between(after, NextRow(row, Some(text)), ids + [op])
    ensures after.windows == sys.windows[window := after.windows[window]]
    ensures Rests(after.windows[window], NextRow(row, Some(text)), undo + [(TextOf(row), Some(text))], [])
  {
    hide Act, Reached, Rests, Keeps, AfterSaveOk;
    SaveSends(sys.windows[window], row, undo, redo, text, op);
    var edited := Does(BOTH, sys, window, Writing(text));
    var sent, request := ProtocolRuns.Sends(BOTH, edited, window, Save(op, false));
    RestsStacks(sys.windows[window], row, undo, redo);
    SaveLands(sent.windows[window], row, undo, text, EssayBatch(row, Some(text), op));
    after := Answered(sent, window, request, row, Some(text), ids, op);
  }

  lemma RestsStacks(s: State, row: Option<HwRow>, undo: seq<Texts>, redo: seq<Texts>)
    requires Rests(s, row, undo, redo)
    ensures AreSteps(s.open.undo, undo) && AreSteps(s.open.redo, redo)
  {
  }

  lemma Undoes(sys: System, window: nat, row: Option<HwRow>, undo: seq<Texts>, redo: seq<Texts>, texts: Texts,
               ids: seq<string>, op: string) returns (after: System)
    requires window in {0, 1} && Between(sys, row, ids) && Rests(sys.windows[window], row, undo + [texts], redo)
    requires texts.0 != TextOf(row) && op !in ids && |ids| < MAX_OPERATIONS
    requires |undo| < HISTORY_LIMIT && |redo| < HISTORY_LIMIT
    ensures Between(after, NextRow(row, texts.0), ids + [op])
    ensures after.windows == sys.windows[window := after.windows[window]]
    ensures Rests(after.windows[window], NextRow(row, texts.0), undo, redo + [texts])
  {
    hide Act, Reached, Rests, Keeps, AfterSaveOk, IsStep;
    var s := sys.windows[window];
    UndoSends(s, row, undo + [texts], redo, op);
    var sent, request := ProtocolRuns.Sends(BOTH, sys, window, Undo(op));
    RestsStacks(s, row, undo + [texts], redo);
    Shorter(s.open.undo, undo, texts);
    TravelLands(sent.windows[window], row, undo, redo, texts.0, s.open.undo[|undo|], texts,
                EssayBatch(row, texts.0, op));
    after := Answered(sent, window, request, row, texts.0, ids, op);
  }

  lemma Shorter(stack: seq<Step>, front: seq<Texts>, last: Texts)
    requires AreSteps(stack, front + [last])
    ensures |stack| == |front| + 1 && AreSteps(stack[..|front|], front) && IsStep(stack[|front|], last)
  {
    hide IsStep;
    assert (front + [last])[|front|] == last;
    assert forall i | 0 <= i < |front| :: (front + [last])[i] == front[i];
  }

  lemma Redoes(sys: System, window: nat, row: Option<HwRow>, undo: seq<Texts>, redo: seq<Texts>, texts: Texts,
               ids: seq<string>, op: string) returns (after: System)
    requires window in {0, 1} && Between(sys, row, ids) && Rests(sys.windows[window], row, undo, redo + [texts])
    requires texts.1 != TextOf(row) && op !in ids && |ids| < MAX_OPERATIONS
    requires |undo| < HISTORY_LIMIT && |redo| < HISTORY_LIMIT
    ensures Between(after, NextRow(row, texts.1), ids + [op])
    ensures after.windows == sys.windows[window := after.windows[window]]
    ensures Rests(after.windows[window], NextRow(row, texts.1), undo + [texts], redo)
  {
    hide Act, Reached, Rests, Keeps, AfterSaveOk, IsStep;
    var s := sys.windows[window];
    RedoSends(s, row, undo, redo + [texts], op);
    var sent, request := ProtocolRuns.Sends(BOTH, sys, window, Redo(op));
    RestsStacks(s, row, undo, redo + [texts]);
    Shorter(s.open.redo, redo, texts);
    TravelLands(sent.windows[window], row, undo, redo, texts.1, s.open.redo[|redo|], texts,
                EssayBatch(row, texts.1, op));
    after := Answered(sent, window, request, row, texts.1, ids, op);
  }

  /** A window that has just opened reads the week and the homework. */
  lemma Reads(sys: System, row: Option<HwRow>, ids: seq<string>) returns (after: System)
    requires Between(sys, row, ids) && sys.windows[0] == FreshSession(WEEK)
    ensures Between(after, row, ids) && after.windows == sys.windows[0 := after.windows[0]]
    ensures Rests(after.windows[0], row, [], [])
  {
    hide Act, Take, Handled, Reached, AfterHomeworkReply, AfterLoad, Rests, Shown;
    var s, asked := sys.windows[0], AfterLoad(FreshSession(WEEK), WEEK, false).0;
    FreshLoads(asked);
    var request, next, last;
    after, request := ProtocolRuns.Sends(BOTH, sys, 0, Load(WEEK, false));
    ReadAnswers(sys.db, asked);
    after, next := IsAnswered(BOTH, after, 0, request, GetWeek(1, WEEK, WEEK), "", Action.Reload);
    after, last := IsAnswered(BOTH, after, 0, next, GetHomework(1, WEEK, WEEK, UNSAVED), "", Action.Reload);
    ReadRests(asked, row);
  }

  lemma FreshLoads(asked: State)
    requires asked == AfterLoad(FreshSession(WEEK), WEEK, false).0
    ensures Act(FreshSession(WEEK), Load(WEEK, false)) == (asked, Some(GetWeek(1, WEEK, WEEK))) && asked.ticket == 1
  {
  }

  lemma ReadAnswers(db: Db, s: State)
    requires s.ticket == 1 && db.weeks == map[]
    ensures var week := GetWeek(1, WEEK, WEEK);
            && Handled(db, week, "") == (db, WeekIs(UNSAVED))
            && Take(s, week, WeekIs(UNSAVED), Action.Reload) == (s, Some(GetHomework(1, WEEK, WEEK, UNSAVED)))
    ensures var homework := GetHomework(1, WEEK, WEEK, UNSAVED);
            && Handled(db, homework, "") == (db, HomeworkIs(db.homework))
            && Take(s, homework, HomeworkIs(db.homework), Action.Reload)
               == (AfterHomeworkReply(s, homework, db.homework), None)
  {
    hide AfterHomeworkReply;
  }

  lemma ReadRests(asked: State, row: Option<HwRow>)
    requires asked == AfterLoad(FreshSession(WEEK), WEEK, false).0
    ensures Rests(AfterHomeworkReply(asked, GetHomework(1, WEEK, WEEK, UNSAVED), HwOf(row)), row, [], [])
  {
  }

  // ----- The run -----

  const SHORT := "Essay"
  const LONG := "Essay, two pages"
  const OTHER := "Essay, by Ada"
  const MINE := "Essay, three pages"

  lemma TextsDiffer()
    ensures SHORT != LONG && SHORT != OTHER && LONG != OTHER && OTHER != MINE && LONG != MINE
  {
    assert |SHORT| == 5 && |OTHER| == 13 && |LONG| == 16 && |MINE| == 18;
  }

  lemma Begins() returns (sys: System)
    ensures Between(sys, None, []) && sys.windows[0] == FreshSession(WEEK) && Rests(sys.windows[1], None, [], [])
  {
    hide Reached;
    sys := BothStart();
  }

  /** The second window writes the homework and then a longer text, which the first window reads. */
  lemma WrittenAndRead() returns (sys: System)
    ensures Between(sys, Some(HwRow(LONG, 2)), ["op1", "op2"])
    ensures Rests(sys.windows[0], Some(HwRow(LONG, 2)), [], [])
    ensures Rests(sys.windows[1], Some(HwRow(LONG, 2)), [(None, Some(SHORT)), (Some(SHORT), Some(LONG))], [])
  {
    hide Between, Rests;
    TextsDiffer();
    sys := Begins();
    sys := Saves(sys, 1, None, [], [], SHORT, [], "op1");
    assert [] + ["op1"] == ["op1"] && [] + [(TextOf(None), Some(SHORT))] == [(None, Some(SHORT))];
    var short := Some(HwRow(SHORT, 1));
    assert NextRow(None, Some(SHORT)) == short && "op2" !in ["op1"];
    sys := Saves(sys, 1, short, [(None, Some(SHORT))], [], LONG, ["op1"], "op2");
    assert ["op1"] + ["op2"] == ["op1", "op2"];
    assert [(None, Some(SHORT))] + [(TextOf(short), Some(LONG))] == [(None, Some(SHORT)), (Some(SHORT), Some(LONG))];
    sys := Reads(sys, Some(HwRow(LONG, 2)), ["op1", "op2"]);
  }

  /** The second window takes both back, brings the homework again and writes another text: revision 2 once
      more. */
  lemma MadeAgain(start: System) returns (sys: System)
    requires Between(start, Some(HwRow(LONG, 2)), ["op1", "op2"])
    requires Rests(start.windows[0], Some(HwRow(LONG, 2)), [], [])
    requires Rests(start.windows[1], Some(HwRow(LONG, 2)), [(None, Some(SHORT)), (Some(SHORT), Some(LONG))], [])
    ensures Between(sys, Some(HwRow(OTHER, 2)), ["op1", "op2", "op3", "op4", "op5", "op6"])
    ensures sys.windows[0] == start.windows[0]
  {
    hide Between, Rests;
    TextsDiffer();
    var made: Texts, changed: Texts := (None, Some(SHORT)), (Some(SHORT), Some(LONG));
    assert [made, changed] == [made] + [changed] && [] + [made] == [made];
    sys := Undoes(start, 1, Some(HwRow(LONG, 2)), [made], [], changed, ["op1", "op2"], "op3");
    assert ["op1", "op2"] + ["op3"] == ["op1", "op2", "op3"] && [] + [changed] == [changed];
    sys := Undoes(sys, 1, Some(HwRow(SHORT, 3)), [], [changed], made, ["op1", "op2", "op3"], "op4");
    assert ["op1", "op2", "op3"] + ["op4"] == ["op1", "op2", "op3", "op4"];
    sys := Redoes(sys, 1, None, [], [changed], made, ["op1", "op2", "op3", "op4"], "op5");
    assert ["op1", "op2", "op3", "op4"] + ["op5"] == ["op1", "op2", "op3", "op4", "op5"];
    sys := Saves(sys, 1, Some(HwRow(SHORT, 1)), [made], [changed], OTHER, ["op1", "op2", "op3", "op4", "op5"], "op6");
    assert ["op1", "op2", "op3", "op4", "op5"] + ["op6"] == ["op1", "op2", "op3", "op4", "op5", "op6"];
  }

  /** The first window has the second one's longer text, at revision 2. The second undoes it and the homework
      itself, brings the homework back and writes another text, at revision 2 again. The first changes the
      text it knows; the server takes that as revision 3, and the other text is gone. */
  lemma ATextNeverRead() returns (events: seq<Event>, request: nat)
    ensures var sys := Run(Start(BOTH), events);
            && request in sys.sent && sys.sent[request].window == 0 && sys.sent[request].call.PostSave?
            && 0 in sys.windows && sys.windows[0].open.committedHw == map["essay" := HwRow(LONG, 2)]
            && sys.db.homework == map["essay" := HwRow(OTHER, 2)]
            && Served(sys, request, "").db.homework == map["essay" := HwRow(MINE, 3)]
  {
    hide Between, Rests, Reached, Served, Handled, Start, OnItsWay;
    var sys;
    sys, request := TheLastSave();
    BetweenIsReached(sys);
    events := TheEvents(BOTH, sys);
    LastIsServed(sys, request);
  }

  lemma BetweenIsReached(sys: System)
    requires exists row, ids :: Between(sys, row, ids)
    ensures Reached(BOTH, sys)
  {
    hide Reached;
  }

  const IDS := ["op1", "op2", "op3", "op4", "op5", "op6"]

  predicate LastSave(sys: System, request: nat) {
    && request in sys.sent && sys.sent[request].window == 0
    && sys.sent[request].call.PostSave?
    && sys.sent[request].call.batch == EssayBatch(Some(HwRow(OTHER, 2)), Some(MINE), "op7")
  }

  lemma TheLastSave() returns (sys: System, request: nat)
    ensures Between(sys, Some(HwRow(OTHER, 2)), IDS) && LastSave(sys, request)
    ensures 0 in sys.windows && sys.windows[0].open.committedHw == map["essay" := HwRow(LONG, 2)]
  {
    hide Act, Reached, Keeps;
    TextsDiffer();
    var known := Some(HwRow(LONG, 2));
    var read := WrittenAndRead();
    sys := MadeAgain(read);
    SaveSends(sys.windows[0], known, [], [], MINE, "op7");
    sys := Does(BOTH, sys, 0, Writing(MINE));
    sys, request := ProtocolRuns.Sends(BOTH, sys, 0, Save("op7", false));
    assert EssayBatch(known, Some(MINE), "op7") == EssayBatch(Some(HwRow(OTHER, 2)), Some(MINE), "op7");
  }

  lemma LastIsServed(sys: System, request: nat)
    requires Between(sys, Some(HwRow(OTHER, 2)), IDS) && LastSave(sys, request)
    ensures sys.db.homework == map["essay" := HwRow(OTHER, 2)]
    ensures Served(sys, request, "").db.homework == map["essay" := HwRow(MINE, 3)]
  {
    hide Reached, Served, Handled;
    TextsDiffer();
    EssayRuns(sys.db, Some(HwRow(OTHER, 2)), Some(MINE), IDS, "op7", "");
    HandledPost(sys.db, sys.sent[request].call.ticket, sys.sent[request].call.batch, "");
    ServedIsHandled(sys, request, "");
  }

  // ----- A newer text undone -----

  /** A window at rest reloads its week: it shows the newer text, and its steps are as they were. */
  lemma Rereads(sys: System, window: nat, known: Option<HwRow>, row: Option<HwRow>, undo: seq<Texts>, redo: seq<Texts>,
                ids: seq<string>) returns (after: System)
    requires window in {0, 1} && Between(sys, row, ids) && Rests(sys.windows[window], known, undo, redo)
    ensures Between(after, row, ids) && after.windows == sys.windows[window := after.windows[window]]
    ensures Rests(after.windows[window], row, undo, redo)
    ensures after.windows[window].open.undo == sys.windows[window].open.undo
  {
    hide Act, Reached, AfterHomeworkReply, Rests;
    var s := sys.windows[window];
    var asked := ReloadAsks(s, known, row, undo, redo);
    after := Loads(BOTH, sys, window, Action.Reload, asked, s.ticket + 1, WEEK, WEEK, UNSAVED);
  }

  lemma ReloadAsks(s: State, known: Option<HwRow>, row: Option<HwRow>, undo: seq<Texts>, redo: seq<Texts>)
    returns (asked: State)
    requires Rests(s, known, undo, redo)
    ensures Act(s, Action.Reload) == (asked, Some(GetWeek(s.ticket + 1, WEEK, WEEK))) && asked.ticket == s.ticket + 1
    ensures var after := AfterHomeworkReply(asked, GetHomework(s.ticket + 1, WEEK, WEEK, UNSAVED), HwOf(row));
            Rests(after, row, undo, redo) && after.open.undo == s.open.undo
  {
    hide IsStep;
    asked := AfterReload(s).0;
  }

  /** A step of homework alone never goes stale. The second window changes a text; the first reads it, changes
      it again; the second reloads and shows the first one's text. Its Undo is still there: it takes back a
      change of its own that no longer shows, and the first window's text is gone. */
  lemma ANewerTextUndone() returns (events: seq<Event>, request: nat)
    ensures var sys := Run(Start(BOTH), events);
            && request in sys.sent && sys.sent[request].window == 1 && sys.sent[request].call.PostSave?
            && 1 in sys.windows && sys.windows[1].travel == Undoing && sys.windows[1].travelStep.Some?
            && sys.windows[1].open.committedHw == sys.db.homework == map["essay" := HwRow(OTHER, 3)]
            && sys.windows[1].travelStep.value.homework.Keys == {"essay"}
            && sys.windows[1].travelStep.value.homework["essay"] == HwChange(Some(SHORT), Some(LONG))
            && Served(sys, request, "").db.homework == map["essay" := HwRow(SHORT, 4)]
  {
    hide Between, Rests, Reached, Served, Handled, Start, Act;
    TextsDiffer();
    var made: Texts, changed: Texts := (None, Some(SHORT)), (Some(SHORT), Some(LONG));
    var known, newer := Some(HwRow(LONG, 2)), Some(HwRow(OTHER, 3));
    var sys := WrittenAndRead();
    sys := Saves(sys, 0, known, [], [], OTHER, ["op1", "op2"], "op3");
    assert ["op1", "op2"] + ["op3"] == ["op1", "op2", "op3"];
    sys := Rereads(sys, 1, known, newer, [made, changed], [], ["op1", "op2", "op3"]);
    sys, request := OwnChangeUndone(sys, newer, made, changed);
    events := TheEvents(BOTH, sys);
  }

  lemma OwnChangeUndone(start: System, newer: Option<HwRow>, made: Texts, changed: Texts)
    returns (sys: System, request: nat)
    requires Between(start, newer, ["op1", "op2", "op3"]) && Rests(start.windows[1], newer, [made, changed], [])
    requires newer == Some(HwRow(OTHER, 3)) && changed == (Some(SHORT), Some(LONG))
    ensures Reached(BOTH, sys) && request in sys.sent
    ensures sys.sent[request].window == 1 && sys.sent[request].call.PostSave? && 1 in sys.windows
    ensures sys.windows[1].travel == Undoing && sys.windows[1].travelStep.Some?
    ensures sys.windows[1].open.committedHw == sys.db.homework == map["essay" := HwRow(OTHER, 3)]
    ensures sys.windows[1].travelStep.value.homework.Keys == {"essay"}
    ensures sys.windows[1].travelStep.value.homework["essay"] == HwChange(Some(SHORT), Some(LONG))
    ensures Served(sys, request, "").db.homework == map["essay" := HwRow(SHORT, 4)]
  {
    hide Act, Reached, Served, Handled;
    var s := start.windows[1];
    TextsDiffer();
    UndoSends(s, newer, [made, changed], [], "op4");
    assert IsStep(s.open.undo[1], [made, changed][1]);
    sys, request := ProtocolRuns.Sends(BOTH, start, 1, Undo("op4"));
    EssayRuns(sys.db, newer, Some(SHORT), ["op1", "op2", "op3"], "op4", "");
    HandledPost(sys.db, sys.sent[request].call.ticket, sys.sent[request].call.batch, "");
    ServedIsHandled(sys, request, "");
  }
}
