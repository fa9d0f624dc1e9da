/** A save that the server ran but whose answer was lost, over which the student went on editing instead of
    sending it again: when the next save lands. */
module UnheardSaves {
  import opened Basics
  import opened Names
  import opened Store
  import opened Prediction
  import opened RetryOnce
  import opened History
  import opened Session
  import opened RoundTrip
  import opened Cursor
  import opened TravelOutcomes
  import opened LostAnswers

  // ----- What the unheard save moved -----

  /** The row moved on exactly when its text changed. */
  predicate MovedIffChanged(row: HwRow, known: Option<HwRow>) {
    match known
    case None => row.rev > 0
    case Some(was) => row.rev == was.rev <==> row.body == was.body
  }

  lemma UpsertsMove(homework: Homework, writes: seq<HwWrite>)
    requires DistinctIds(writes) && RunUpserts(homework, writes).Done?
    ensures var after := RunUpserts(homework, writes).value.0;
            forall id <- UpsertedIds(writes) :: id in after && MovedIffChanged(after[id], RowIn(homework, id))
  {
    hide RunUpserts, DistinctIds;
    UpsertRows(homework, writes);
  }

  /** A save that deletes nothing. */
  lemma NothingDeleted(work: WeekWork)
    requires EditsOnly(work) && KeepsHomework(work)
    ensures DeletedIds(OwnWrites(work)) == {} && UpsertedIds(OwnWrites(work)) == work.dirtyHw
  {
    hide HwWrites, Sorted;
    OwnWritesFit(work);
    assert forall write <- OwnWrites(work) :: write.id in work.dirtyHw && write.body.Some?;
  }

  /** What the unheard save left on the server, against what the window last heard of. */
  ghost predicate Overtaken(sent: WeekWork, db: Db) {
    var row := RowOf(db.weeks, sent.week);
    && row.blocks == sent.blocks
    && (row.rev == sent.rev <==> sent.blocks == sent.committed)
    && Bodies(db.homework) == Bodies(sent.homework)
    && SameOutside(db.homework, sent.committedHw, sent.dirtyHw)
    && (forall id <- sent.dirtyHw :: id in db.homework && MovedIffChanged(db.homework[id], RowIn(sent.committedHw, id)))
  }

  lemma UnheardOvertakes(s: State, before: Db, op: string, token: string)
    requires InStep(s.open, before) && EditsOnly(s.open) && KeepsHomework(s.open) && ExtraWeeks(s) == {}
    requires RunBatch(before, BuildBatch(s, op), token).Done?
    ensures Overtaken(s.open, RunBatch(before, BuildBatch(s, op), token).value.0)
  {
    hide RunUpserts, RunDeletes, RunWeeks, EditsOnly, PutResults, SameOutside, MovedIffChanged, Storable, InStep,
      DeletedIds, UpsertedIds, OwnWrites, KeepsHomework, Bodies;
    var work, writes := s.open, OwnWrites(s.open);
    BatchLands(s, before, op, token);
    NothingDeleted(work);
    OwnWritesFit(work);
    BatchShape(s, op);
    assert before.(homework := before.homework) == before;
    var upserted := RunUpserts(before.homework, writes).value.0;
    UpsertsMove(before.homework, writes);
    UpsertPass(before.homework, writes);
    var ready := before.(homework := upserted);
    DeletesMoveWeeks(ready, writes);
    NoDeletes(ready.weeks);
    var trimmed := RunDeletes(ready, writes).value.0;
    assert RowOf(trimmed.weeks, work.week) == RowOf(before.weeks, work.week);
    OneWeekMoves(trimmed, WeekWrite(work.week, work.blocks, work.rev));
    InStepRows(work, before);
    assert upserted - {} == upserted;
    var after := RunBatch(before, BuildBatch(s, op), token).value.0;
    assert after.homework == upserted;
  }

  lemma InStepRows(work: WeekWork, db: Db)
    requires InStep(work, db)
    ensures RowOf(db.weeks, work.week) == Row(work.committed, work.rev) && work.committedHw == db.homework
  {
  }

  /** A save that deletes nothing goes out with the revision the window has. */
  lemma BatchShape(s: State, op: string)
    requires EditsOnly(s.open) && KeepsHomework(s.open) && ExtraWeeks(s) == {}
    ensures BuildBatch(s, op)
         == Batch([WeekWrite(s.open.week, s.open.blocks, s.open.rev)], OwnWrites(s.open), op, None)
  {
    hide HwWrites, EditsOnly, KeepsHomework;
    assert Sorted({}) == [];
    NothingDeleted(s.open);
    assert Prediction.Touched(s.open.committed, {}) == {};
  }

  lemma OneWeekMoves(db: Db, write: WeekWrite)
    requires RunWeeks(db, [write]).Done?
    ensures var after, was := RunWeeks(db, [write]).value.0, RowOf(db.weeks, write.week);
            && after.homework == db.homework && RowOf(after.weeks, write.week).blocks == write.blocks
            && (RowOf(after.weeks, write.week).rev == was.rev <==> write.blocks == was.blocks)
  {
    assert [write][..|[write]| - 1] == [];
    assert RunWeeks(db, []) == Done((db, []));
  }

  // ----- The window goes on -----

  /** `work` is `sent` edited further. */
  ghost predicate Continues(sent: WeekWork, work: WeekWork) {
    && work.week == sent.week && work.rev == sent.rev
    && work.committed == sent.committed && work.committedHw == sent.committedHw
    && work.undo == sent.undo && work.redo == sent.redo
    && sent.dirtyHw <= work.dirtyHw && EditsOnly(work) && KeepsHomework(work)
  }

  /** For the week and for each homework: the unheard save left it as it was, or the student left it as that
      save had it. */
  predicate StandsOn(heard: Content, sent: Content, now: Content) {
    && (sent.blocks == heard.blocks || now.blocks == sent.blocks)
    && forall id <- sent.bodies :: Lookup(sent.bodies, id) in {Lookup(heard.bodies, id), Lookup(now.bodies, id)}
  }

  /** What the server asks of the content, whatever its revisions. */
  predicate Acceptable(db: Db, work: WeekWork) {
    && !RepeatsId(work.blocks) && Owned(work.homework, work.blocks)
    && HasRoom(db.homework.Keys, work.homework.Keys)
  }

  lemma TimelyWhenItStands(sent: WeekWork, db: Db, work: WeekWork)
    requires Overtaken(sent, db) && EditsOnly(sent) && KeepsHomework(sent) && Continues(sent, work)
    ensures AllTimely(db.homework, OwnWrites(work)) && (sent.blocks == sent.committed || work.blocks == sent.blocks)
       <==> StandsOn(Committed(sent), ContentOf(sent), ContentOf(work))
  {
    hide HwWrites, Sorted;
    OwnWritesFit(work);
    NothingDeleted(work);
    var heard, was, now := Committed(sent).bodies, ContentOf(sent).bodies, ContentOf(work).bodies;
    forall write <- OwnWrites(work)
      ensures write.body.Some?
      ensures Timely(db.homework, write)
         <==> (write.id in was ==> Lookup(was, write.id) in {Lookup(heard, write.id), Lookup(now, write.id)})
    {
      WriteStands(sent, db, work, write);
    }
    forall id <- was | id !in work.dirtyHw ensures Lookup(was, id) == Lookup(heard, id) {
    }
    forall id <- work.dirtyHw ensures exists write <- OwnWrites(work) :: write.id == id {
      assert id in UpsertedIds(OwnWrites(work));
    }
  }

  lemma WriteStands(sent: WeekWork, db: Db, work: WeekWork, write: HwWrite)
    requires Overtaken(sent, db) && EditsOnly(sent) && KeepsHomework(sent) && Continues(sent, work)
    requires write.id in work.dirtyHw && Fits(work.committedHw, write) && write.body == BodyOf(work.homework, write.id)
    ensures write.body.Some?
    ensures Timely(db.homework, write)
       <==> (write.id in sent.homework ==>
               Lookup(Bodies(sent.homework), write.id)
                 in {Lookup(Bodies(sent.committedHw), write.id), Lookup(Bodies(work.homework), write.id)})
  {
    var id := write.id;
    LookupOfBodies(sent.homework, id);
    LookupOfBodies(sent.committedHw, id);
    LookupOfBodies(work.homework, id);
    LookupOfBodies(db.homework, id);
    if id in sent.dirtyHw {
      assert MovedIffChanged(db.homework[id], RowIn(sent.committedHw, id));
    }
  }

  // ----- The next save -----

  lemma KeyAfter(sent: WeekWork, db: Db, work: WeekWork, id: string)
    requires Overtaken(sent, db) && EditsOnly(sent) && KeepsHomework(sent) && Continues(sent, work)
    ensures id in db.homework || id in work.dirtyHw <==> id in work.homework
    ensures id !in work.dirtyHw ==> RowIn(db.homework, id) == RowIn(work.homework, id)
  {
  }

  lemma KeysAfter(sent: WeekWork, db: Db, work: WeekWork)
    requires Overtaken(sent, db) && EditsOnly(sent) && KeepsHomework(sent) && Continues(sent, work)
    ensures db.homework.Keys + work.dirtyHw == work.homework.Keys
    ensures SameOutside(work.homework, db.homework, work.dirtyHw)
  {
    hide Overtaken, EditsOnly, KeepsHomework, Continues;
    forall id
      ensures id in db.homework || id in work.dirtyHw <==> id in work.homework
      ensures id !in work.dirtyHw ==> RowIn(db.homework, id) == RowIn(work.homework, id)
    {
      KeyAfter(sent, db, work, id);
    }
  }

  lemma SameRoom(before: set<string>, added: set<string>, all: set<string>)
    requires before + added == all
    ensures HasRoom(before, added) <==> HasRoom(before, all)
  {
    assert before + all == all;
  }

  /** Both homework passes over the next save's writes. */
  lemma HomeworkVerdict(sent: WeekWork, db: Db, work: WeekWork)
    requires Overtaken(sent, db) && EditsOnly(sent) && KeepsHomework(sent) && Continues(sent, work)
    ensures var writes := OwnWrites(work);
            var ran, room := RunUpserts(db.homework, writes), HasRoom(db.homework.Keys, work.homework.Keys);
            && (ran.Done? <==> AllTimely(db.homework, writes) && room)
            && (ran.Refused? && room ==> ran.why == Conflict)
            && (ran.Done? ==>
                  var (homework, results) := ran.value;
                  && RunDeletes(db.(homework := homework), writes) == Done((db.(homework := homework), []))
                  && Ids(results) == work.dirtyHw && homework == PutResults(work.homework, results)
                  && Bodies(homework) == Bodies(work.homework))
  {
    hide RunUpserts, RunDeletes, EditsOnly, PutResults, SameOutside, HasRoom, AllTimely, DeletedIds, UpsertedIds,
      OwnWrites, KeepsHomework, Bodies, Overtaken, Ids, Answers, RoundTrip.DistinctIds;
    KeysAfter(sent, db, work);
    SameRoom(db.homework.Keys, work.dirtyHw, work.homework.Keys);
    ContinuesMeans(sent, work);
    hide Continues;
    OwnWritesFit(work);
    NothingDeleted(work);
    var writes := OwnWrites(work);
    UpsertRoom(db.homework, writes);
    if RunUpserts(db.homework, writes).Done? {
      UpsertPass(db.homework, writes);
      var (homework, results) := RunUpserts(db.homework, writes).value;
      DeletesNothing(db.(homework := homework), writes);
      ResultsDecide(work.homework, db.homework, results);
      AnswersTell(work, results);
      BodiesStay(work.homework, results);
    }
  }

  /** The server's verdict on the next save: it lands exactly when it may be stored and stands on what the
      unheard save left; otherwise, if it may be stored, it is refused as a conflict. */
  lemma NextBatch(sent: WeekWork, s: State, db: Db, op: string, token: string)
    requires Overtaken(sent, db) && EditsOnly(sent) && KeepsHomework(sent) && Continues(sent, s.open)
    requires ExtraWeeks(s) == {}
    ensures var ran := RunBatch(db, BuildBatch(s, op), token);
            var stands := StandsOn(Committed(sent), ContentOf(sent), ContentOf(s.open));
            && (ran.Done? <==> stands && Acceptable(db, s.open))
            && (ran.Refused? && Acceptable(db, s.open) ==> ran.why == Conflict)
            && (ran.Done? ==> Landed(s.open, ran.value.0, ran.value.1))
  {
    hide RunUpserts, RunDeletes, RunWeeks, EditsOnly, PutResults, HasRoom, RepeatsId, AllTimely, Owned, BuildBatch,
      OwnWrites, KeepsHomework, Bodies, StandsOn, Ids;
    var work, writes := s.open, OwnWrites(s.open);
    ContinuesMeans(sent, work);
    BatchShape(s, op);
    HomeworkVerdict(sent, db, work);
    TimelyWhenItStands(sent, db, work);
    OvertakenWeek(sent, db);
    hide Continues, Overtaken, ContentOf, Committed;
    assert db.(homework := db.homework) == db;
    var upserted := RunUpserts(db.homework, writes);
    if upserted.Done? {
      var (homework, results) := upserted.value;
      assert results + [] == results;
      WeekVerdict(sent, db.(homework := homework), WeekWrite(work.week, work.blocks, work.rev), work.homework);
    }
  }

  lemma OvertakenWeek(sent: WeekWork, db: Db)
    requires Overtaken(sent, db)
    ensures RowOf(db.weeks, sent.week).blocks == sent.blocks
    ensures RowOf(db.weeks, sent.week).rev == sent.rev <==> sent.blocks == sent.committed
  {
  }

  lemma ContinuesMeans(sent: WeekWork, work: WeekWork)
    requires Continues(sent, work)
    ensures EditsOnly(work) && KeepsHomework(work) && work.week == sent.week && work.rev == sent.rev
    ensures work.committed == sent.committed && work.committedHw == sent.committedHw
    ensures work.undo == sent.undo && work.redo == sent.redo
  {
  }

  lemma DeletesNothing(db: Db, writes: seq<HwWrite>)
    requires DeletedIds(writes) == {}
    ensures RunDeletes(db, writes) == Done((db, []))
  {
    assert forall write <- writes :: write.body.None? ==> write.id in DeletedIds(writes);
    DeletesAgain(db, writes);
  }

  lemma WeekVerdict(sent: WeekWork, db: Db, write: WeekWrite, homework: Homework)
    requires RowOf(db.weeks, sent.week).blocks == sent.blocks
    requires RowOf(db.weeks, sent.week).rev == sent.rev <==> sent.blocks == sent.committed
    requires write.week == sent.week && write.rev == sent.rev && Bodies(db.homework) == Bodies(homework)
    ensures var ran := RunWeeks(db, [write]);
            && (ran.Done? <==> Owned(homework, write.blocks) && !RepeatsId(write.blocks)
                               && (sent.blocks == sent.committed || write.blocks == sent.blocks))
            && (ran.Refused? && Owned(homework, write.blocks) && !RepeatsId(write.blocks) ==> ran.why == Conflict)
            && (ran.Done? ==>
                  var (after, results) := ran.value;
                  && |results| == 1 && results[0] == WeekWrite(write.week, write.blocks, results[0].rev)
                  && RowOf(after.weeks, write.week) == Row(write.blocks, results[0].rev)
                  && after.homework == db.homework)
  {
    hide RepeatsId;
    TravelOutcomes.BodiesKeys(db.homework);
    TravelOutcomes.BodiesKeys(homework);
    assert [write][..|[write]| - 1] == [];
    assert RunWeeks(db, []) == Done((db, []));
    assert Owned(db.homework, write.blocks) <==> Owned(homework, write.blocks);
  }

  // ----- The whole of it -----

  /** The save waiting in the window has been run by the server. */
  predicate RanUnheard(d: Desk) {
    && d.s.open.pending.Some?
    && Recall(d.db.ops, d.s.open.pending.value.op, ChangesPayload(d.s.open.pending.value)) != Missing
  }

  lemma UnheardIsOvertaken(d: Desk, line: Line)
    requires At(d, line) && RanUnheard(d)
    ensures Overtaken(d.s.open, d.db) && EditsOnly(d.s.open)
  {
    hide BuildBatch, StepForSave, InStep, EditsOnly, Overtaken, RunBatch, Follows, ExtraWeeks;
    var batch := d.s.open.pending.value;
    var before :| Built(d.s, before, d.db);
    var token :| RanOnce(before, batch, token, d.db);
    UnheardOvertakes(d.s, before, batch.op, token);
    RememberingChangesNothing(d.s.open, before, batch, token);
  }

  lemma RememberingChangesNothing(sent: WeekWork, db: Db, batch: Batch, token: string)
    requires Runs(db, Post(batch, token)) && Overtaken(sent, RunBatch(db, batch, token).value.0)
    ensures Overtaken(sent, PostChanges(db, batch, token).0)
  {
    hide RunBatch, Bodies;
  }

  /** The student has edited over the save `sent`, and nothing is on its way. */
  ghost predicate EditedOver(sent: WeekWork, line: Line, d: Desk) {
    && Idle(d.s) && d.s.open.pending.None? && Continues(sent, d.s.open) && Follows(d.s.open, line)
  }

  lemma {:induction false} EditsContinue(sent: WeekWork, line: Line, d: Desk, edits: seq<Event>)
    requires Idle(d.s) && Continues(sent, d.s.open) && Follows(d.s.open, line)
    requires forall e <- edits :: e.Edit?
    ensures var after := Final(d, edits);
            && after.db == d.db && Idle(after.s) && Continues(sent, after.s.open) && Follows(after.s.open, line)
            && after.s == d.s.(open := after.s.open)
            && (edits != [] ==> after.s.open.pending.None?)
            && (d.s.open.pending.None? ==> after.s.open.pending.None?)
    decreases edits
  {
    hide Continues, Chained;
    if edits != [] {
      OneEditContinues(sent, d, edits[0]);
      EditsContinue(sent, line, Next(d, edits[0]).0, edits[1..]);
    }
  }

  lemma OneEditContinues(sent: WeekWork, d: Desk, e: Event)
    requires Continues(sent, d.s.open) && e.Edit?
    ensures Continues(sent, Next(d, e).0.s.open)
  {
    hide EditsOnly, Changed;
    EditKeepsEditsOnly(d.s.open, e.changes, Next(d, e).0.s.open);
  }

  /** The student never heard that a save went through, edits over it instead of sending it again, and saves.
      That save lands exactly when it may be stored and, for the week and for each homework, the unheard save
      left it as it was or the student did as that save had it. Landed, the line takes the new state as if the
      unheard save had not been. Otherwise nothing changes on the server, and content that may be stored is
      refused as a conflict, kept in the window. */
  lemma EditOverUnheardSave(d: Desk, line: Line, edits: seq<Event>, op: string, join: bool, token: string)
    requires At(d, line) && RanUnheard(d) && Fresh(d.db, op)
    requires edits != [] && forall e <- edits :: e.Edit?
    ensures var edited := Final(d, edits);
            var (after, move) := Next(edited, Save(op, join, Heard, token));
            var sent, now := ContentOf(d.s.open), ContentOf(edited.s.open);
            && edited.db == d.db
            && (move != Stay <==> Acceptable(d.db, edited.s.open) && StandsOn(Committed(d.s.open), sent, now))
            && (move != Stay ==> Possible(line, Add(now, join)) && At(after, Stepped(line, Add(now, join))))
            && (move == Stay ==> after.db == d.db && ContentOf(after.s.open) == now)
            && (move == Stay && Acceptable(d.db, edited.s.open) ==> after.s.open.conflict)
  {
    hide Continues, Acceptable, StandsOn, Overtaken, EditsOnly, KeepsHomework, BuildBatch, StepForSave, Chained,
      RunBatch, Landed, AfterSaveOk, AfterSaveErr, ExtraWeeks, Bodies, Unsent, Kept;
    UnheardIsOvertaken(d, line);
    SelfContinues(d.s.open);
    EditsContinue(d.s.open, line, d, edits);
    var edited := Final(d, edits);
    SaveOver(d.s.open, line, edited, op, join, token);
  }

  lemma SelfContinues(work: WeekWork)
    requires EditsOnly(work) && KeepsHomework(work)
    ensures Continues(work, work)
  {
  }

  lemma SaveOver(sent: WeekWork, line: Line, d: Desk, op: string, join: bool, token: string)
    requires Overtaken(sent, d.db) && EditsOnly(sent) && KeepsHomework(sent)
    requires EditedOver(sent, line, d) && Fresh(d.db, op) && SoundLog(d.db.ops)
    ensures var (after, move) := Next(d, Save(op, join, Heard, token));
            var now := ContentOf(d.s.open);
            && (move != Stay <==> Acceptable(d.db, d.s.open) && StandsOn(Committed(sent), ContentOf(sent), now))
            && (move != Stay ==> move == Add(now, join) && Possible(line, move) && At(after, Stepped(line, move)))
            && (move == Stay ==> after.db == d.db && ContentOf(after.s.open) == now)
            && (move == Stay && Acceptable(d.db, d.s.open) ==> after.s.open.conflict)
  {
    hide Continues, Acceptable, StandsOn, Overtaken, EditsOnly, KeepsHomework, BuildBatch, StepForSave, Chained,
      RunBatch, Landed, AfterSaveOk, AfterSaveErr, Bodies, Unsent, Kept, Stepped;
    ContinuesMeans(sent, d.s.open);
    CursorInside(d.s.open, line);
    var (s, call) := AfterSave(d.s, op, join);
    SameBatch(d.s, s, op);
    BatchOp(d.s, op);
    NextBatch(sent, d.s, d.db, op, token);
    var batch := call.value.batch;
    FreshIsMissing(d.db, op, ChangesPayload(batch));
    PostAgainstLog(d.db, Post(batch, token));
    var (posted, reply) := PostChanges(d.db, batch, token);
    if reply.Done? {
      LandedThrough(d.s.open, d.db, batch, token);
      SentWork(d.s.open, s.open, posted, reply.value.reply);
      ReplySettles(s, call.value, posted, reply.value.reply);
      SaveLands(s, call.value, posted, reply.value.reply, line);
      SettledIsAt(Desk(AfterSaveOk(s, call.value, reply.value.reply), posted),
                  Stepped(line, Add(ContentOf(s.open), join)));
    } else {
      RefusedStays(s, call.value, reply.why);
    }
  }

  lemma SentWork(work: WeekWork, sent: WeekWork, db: Db, reply: Reply)
    requires Landed(work, db, reply) && EditsOnly(work) && KeepsHomework(work)
    requires sent == work.(pending := sent.pending, step := sent.step)
    ensures Landed(sent, db, reply) && EditsOnly(sent) && KeepsHomework(sent)
  {
  }

  lemma RefusedStays(s: State, call: Call, why: Refusal)
    requires call.PostSave? && call.ticket == s.ticket && s.travel == Still
    ensures var after := AfterSaveErr(s, call, why).0;
            ContentOf(after.open) == ContentOf(s.open) && after.open.conflict == (why == Conflict)
  {
  }

  // ----- The refresh after a save -----

  /** The account's homework put over what the window shows, but for what it has edited. */
  function Refreshed(work: WeekWork, rows: Homework): Homework {
    map id | id in work.homework.Keys + rows.Keys && ((id in rows && id !in work.dirtyHw) || id in work.homework) ::
      if id in rows && id !in work.dirtyHw then rows[id] else work.homework[id]
  }

  /** Anywhere on the line, a save that went through unheard included, a refresh brings one window nothing new:
      no text, and no revision to build the next save on. */
  lemma RefreshBringsNothing(d: Desk, line: Line)
    requires At(d, line)
    ensures Refreshed(d.s.open, d.db.homework) == d.s.open.homework
  {
    hide Follows, StepForSave, BuildBatch, Bodies, Kept, Unsent;
    if RanUnheard(d) {
      UnheardIsOvertaken(d, line);
    } else {
      NotRunYet(d, line);
    }
    forall id
      ensures id in Refreshed(d.s.open, d.db.homework) <==> id in d.s.open.homework
      ensures id in d.s.open.homework ==> Refreshed(d.s.open, d.db.homework)[id] == d.s.open.homework[id]
    {
    }
  }

  // ----- A run -----

  /** A first save that may be stored and whose answer is lost has been run all the same. */
  lemma LostSaveRan(d: Desk, line: Line, op: string, token: string)
    requires At(d, line) && d.s.open.pending.None? && Fresh(d.db, op) && Storable(d.s.open)
    ensures var lost := Next(d, Save(op, false, ReplyLost, token)).0;
            && At(lost, line) && RanUnheard(lost)
            && ContentOf(lost.s.open) == ContentOf(d.s.open) && Committed(lost.s.open) == Committed(d.s.open)
            && forall id :: id != op && Fresh(d.db, id) ==> Fresh(lost.db, id)
  {
    hide BuildBatch, StepForSave, Follows, Storable, Kept, Unsent, Bodies, Built, PostChanges, AfterSaveErr, At;
    InPlace(d, line);
    var before := SaveSends(d.s, d.db, line, op, false);
    var (s, call) := AfterSave(d.s, op, false);
    BatchOp(d.s, op);
    SameStorable(d.s, op);
    SaveEnds(s, before, d.db, line, ReplyLost, token);
    ServerTakes(s, before, d.db, token);
    LostKeepsWork(s, call.value);
    FirstIsRemembered(d.db, call.value.batch, token);
  }

  lemma FirstIsRemembered(db: Db, batch: Batch, token: string)
    requires SoundLog(db.ops) && Fresh(db, batch.op) && PostChanges(db, batch, token).1.Done?
    ensures var after := PostChanges(db, batch, token).0;
            && Recall(after.ops, batch.op, ChangesPayload(batch)) != Missing
            && forall id :: id != batch.op && Fresh(db, id) ==> Fresh(after, id)
  {
    hide RunBatch;
    FreshIsMissing(db, batch.op, ChangesPayload(batch));
    PostAgainstLog(db, Post(batch, token));
    RanIsRemembered(db, batch, token, PostChanges(db, batch, token).0);
  }

  lemma LostKeepsWork(s: State, call: Call)
    requires call.PostSave? && call.ticket == s.ticket && s.travel == Still
    ensures AfterSaveErr(s, call, Unreachable).0.open == s.open.(conflict := false)
  {
  }

  const LOST := Save("op1", false, ReplyLost, "t1")
  const MORE := Edit([], map["essay" := "Essay, two pages"], "changing Essay")
  const AGAIN := Save("op2", false, Heard, "t2")

  /** Homework is added and its save lost on the way back; its text is changed and saved again. The server
      keeps the first text and the window is in conflict with its own save. */
  lemma AnEditRefusedOverItsOwnSave()
    ensures var after := Final(NewDesk(), [ADD, LOST, MORE, AGAIN]);
            && after.s.open.conflict
            && Bodies(after.db.homework) == map["essay" := "Essay"]
            && Bodies(after.s.open.homework) == map["essay" := "Essay, two pages"]
  {
    hide Next, At, Storable, Sane, Acceptable, RanUnheard, StandsOn;
    AddingLands();
    var added := Next(NewDesk(), ADD).0;
    LostSaveRan(added, START, "op1", "t1");
    var lost := Next(added, LOST).0;
    assert Final(lost, [MORE]) == Next(lost, MORE).0 by {
      assert [MORE][1..] == [];
    }
    EditOverUnheardSave(lost, START, [MORE], "op2", false, "t2");
    ChangedText(lost, START);
    FourEvents(NewDesk(), ADD, LOST, MORE, AGAIN);
    assert [AGAIN][1..] == [];
  }

  lemma ChangedText(lost: Desk, line: Line)
    requires At(lost, line) && RanUnheard(lost)
    requires ContentOf(lost.s.open) == Content([], map["essay" := "Essay"])
    requires Committed(lost.s.open) == Content([], map[])
    ensures var edited := Next(lost, MORE).0;
            && ContentOf(edited.s.open) == Content([], map["essay" := "Essay, two pages"])
            && Bodies(lost.db.homework) == map["essay" := "Essay"]
            && Acceptable(lost.db, edited.s.open)
            && !StandsOn(Committed(lost.s.open), ContentOf(lost.s.open), ContentOf(edited.s.open))
  {
    hide At, RanUnheard, RepeatsId, HasRoom;
    var edited := Next(lost, MORE).0.s.open;
    BodiesKeys(lost.s.open.homework);
    assert lost.s.open.homework.Keys == {"essay"};
    assert Bodies(edited.homework) == map["essay" := "Essay, two pages"];
    UnheardIsOvertaken(lost, line);
    BodiesKeys(lost.db.homework);
    NothingRepeats();
    RoomForTheSame(lost.db.homework.Keys, edited.homework.Keys);
    assert Lookup(ContentOf(lost.s.open).bodies, "essay") == Some("Essay");
    assert Lookup(ContentOf(edited).bodies, "essay") == Some("Essay, two pages");
  }

  lemma RoomForTheSame(a: set<string>, b: set<string>)
    requires a == b
    ensures HasRoom(a, b)
  {
  }
}
