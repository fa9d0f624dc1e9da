/** An undo or redo that the server ran but whose answer was lost: where it leaves the two sides, and when
    asking for it again brings them together. */
module LostAnswers {
  import opened Basics
  import opened Names
  import opened Store
  import opened Prediction
  import opened RetryOnce
  import opened History
  import opened Session
  import opened RoundTrip
  import opened Cursor
  import opened TravelOutcomes

  // ----- Sending what the server already holds -----

  predicate Stored(result: HwResult, homework: Homework) {
    result.HwSaved? && result.id in homework && homework[result.id] == HwRow(result.body, result.rev)
  }

  lemma {:induction false} StoredChangesNothing(homework: Homework, results: seq<HwResult>)
    requires forall result <- results :: Stored(result, homework)
    ensures PutResults(homework, results) == homework
  {
    if results != [] {
      StoredChangesNothing(homework, results[..|results| - 1]);
      assert Stored(results[|results| - 1], homework);
    }
  }

  lemma {:induction false} ResultsNameTheirs(homework: Homework, results: seq<HwResult>)
    ensures SameOutside(PutResults(homework, results), homework, Ids(results))
  {
    if results != [] {
      var front, last := results[..|results| - 1], results[|results| - 1];
      ResultsNameTheirs(homework, front);
      assert results == front + [last];
    }
  }

  lemma {:induction false} UpsertsAgain(homework: Homework, writes: seq<HwWrite>)
    requires forall write <- writes | write.body.Some? ::
               write.id in homework && homework[write.id].body == write.body.value
    ensures RunUpserts(homework, writes).Done? && RunUpserts(homework, writes).value.0 == homework
    ensures var results := RunUpserts(homework, writes).value.1;
            (forall result <- results :: Stored(result, homework)) && Ids(results) == UpsertedIds(writes)
  {
    if writes == [] {
      assert Ids([]) == {} && UpsertedIds([]) == {};
    } else {
      var front, last := writes[..|writes| - 1], writes[|writes| - 1];
      assert writes == front + [last];
      UpsertsAgain(homework, front);
      assert UpsertedIds(writes) == UpsertedIds(front) + (if last.body.Some? then {last.id} else {});
      if last.body.Some? {
        assert last in writes;
        var stored := HwSaved(last.id, last.body.value, homework[last.id].rev);
        var some := RunUpserts(homework, front).value.1;
        assert RunUpserts(homework, writes).value.1 == some + [stored];
        assert Ids(some + [stored]) == Ids(some) + {last.id};
      }
    }
  }

  lemma {:induction false} DeletesAgain(db: Db, writes: seq<HwWrite>)
    requires forall write <- writes | write.body.None? :: write.id !in db.homework
    ensures RunDeletes(db, writes)
         == if DeletedIds(writes) == {} then Done((db, [])) else Refused(NotFound)
  {
    if writes != [] {
      var front, last := writes[..|writes| - 1], writes[|writes| - 1];
      assert writes == front + [last];
      DeletesAgain(db, front);
      assert DeletedIds(writes) == DeletedIds(front) + (if last.body.None? then {last.id} else {});
    }
  }

  /** The server has the window's content already, under whatever revisions. */
  ghost predicate AlreadyHas(db: Db, work: WeekWork) {
    && RowOf(db.weeks, work.week).blocks == work.blocks
    && Bodies(db.homework) == Bodies(work.homework)
    && SameOutside(db.homework, work.homework, work.dirtyHw)
  }

  /** A save of what the server already has lands, whatever revisions it carries, unless it deletes
      homework: that is gone, and the server says so. */
  lemma SentAgain(s: State, db: Db, op: string, token: string)
    requires AlreadyHas(db, s.open) && EditsOnly(s.open) && ExtraWeeks(s) == {} && Storable(s.open)
    ensures var ran := RunBatch(db, BuildBatch(s, op), token);
            && (ran.Done? <==> s.open.dirtyHw <= s.open.homework.Keys)
            && (ran.Refused? ==> ran.why == NotFound)
            && (ran.Done? ==> Landed(s.open, ran.value.0, ran.value.1))
  {
    hide RevisionAfterDeletes, PutResults, HasRoom, RepeatsId, RunUpserts, RunDeletes, EditsOnly;
    var work, writes := s.open, OwnWrites(s.open);
    assert Sorted({}) == [];
    BodiesKeys(db.homework);
    BodiesKeys(work.homework);
    WritesAgain(work, db.homework);
    UpsertsAgain(db.homework, writes);
    assert db.(homework := db.homework) == db;
    DeletesAgain(db, writes);
    if DeletedIds(writes) == {} {
      var results := RunUpserts(db.homework, writes).value.1;
      ResultsDecide(work.homework, db.homework, results);
      StoredChangesNothing(db.homework, results);
      assert results + [] == results;
      SameWeekAgain(db, WeekWrite(work.week, work.blocks, RevisionAfterDeletes(work.committed, work.rev, {})));
    }
  }

  lemma WritesAgain(work: WeekWork, homework: Homework)
    requires EditsOnly(work) && Bodies(homework) == Bodies(work.homework)
    ensures forall write <- OwnWrites(work) | write.body.Some? ::
              write.id in homework && homework[write.id].body == write.body.value
    ensures forall write <- OwnWrites(work) | write.body.None? :: write.id !in homework
    ensures DeletedIds(OwnWrites(work)) == {} <==> work.dirtyHw <= work.homework.Keys
    ensures DeletedIds(OwnWrites(work)) == {} ==> UpsertedIds(OwnWrites(work)) == work.dirtyHw
  {
    hide HwWrites, Sorted, EditsOnly;
    OwnWritesFit(work);
    forall write <- OwnWrites(work) ensures write.body == BodyOf(homework, write.id) {
      LookupOfBodies(homework, write.id);
      LookupOfBodies(work.homework, write.id);
    }
    forall id <- work.dirtyHw ensures id in DeletedIds(OwnWrites(work)) <==> id !in work.homework {
    }
  }

  lemma SameWeekAgain(db: Db, write: WeekWrite)
    requires RowOf(db.weeks, write.week).blocks == write.blocks
    requires !RepeatsId(write.blocks) && Owned(db.homework, write.blocks)
    ensures RunWeeks(db, [write]) == Done((db, [WeekWrite(write.week, write.blocks, RowOf(db.weeks, write.week).rev)]))
  {
    assert [write][..|[write]| - 1] == [];
    assert RunWeeks(db, []) == Done((db, []));
    assert db.(weeks := db.weeks) == db;
    var stored := WeekWrite(write.week, write.blocks, RowOf(db.weeks, write.week).rev);
    assert [] + [stored] == [stored];
    assert SaveWeek(db.weeks, write) == Done((db.weeks, stored.rev));
  }

  // ----- The travel whose answer was lost -----

  predicate DeletesHomework(step: Step, travel: Travel) {
    exists id <- step.homework :: SideBody(step.homework[id], if travel == Undoing then Earlier else Later).None?
  }

  /** What the window sent, and what a window in the same place would send again. */
  ghost predicate SameContent(a: WeekWork, b: WeekWork) {
    a.week == b.week && a.blocks == b.blocks && a.homework == b.homework && a.dirtyHw == b.dirtyHw
  }

  /** The student presses Undo or Redo. */
  function Asked(s: State, travel: Travel, op: string): (State, Option<Call>)
    requires travel != Still
  {
    if travel == Undoing then AfterUndo(s, op) else AfterRedo(s, op)
  }

  lemma SentSetOut(d: Desk, line: Line, travel: Travel, op: string)
    requires At(d, line) && Clean(d.s.open) && travel != Still && Stack(d.s.open, travel) != [] && Fresh(d.db, op)
    ensures var (s, call) := Asked(d.s, travel, op);
            && call.Some? && UnderWay(s, d.db, call.value, line) && s.travel == travel
            && s.open.pending.Some? && s.open.pending.value.op == op
            && SameContent(s.open, Destination(d.s.open, travel))
            && (Storable(s.open) <==> Storable(Destination(d.s.open, travel)))
            && s.travelStep == Some(Top(d.s.open, travel))
  {
    hide Chained, Unsent, Built, Storable, AfterSave, Links, Travelling, EditsOnly, StepForSave, SideApplied;
    var s := d.s;
    NothingStale(s, line);
    CursorInside(s.open, line);
    var stack := Stack(s.open, travel);
    TravelsWhenClean(d, line, travel);
    var step, rest := stack[|stack| - 1], stack[..|stack| - 1];
    assert rest + [step] == stack;
    var popped := if travel == Undoing then s.open.(undo := rest) else s.open.(redo := rest);
    CleanIsUnsent(d, line);
    TravelSends(s, d.db, line, popped, travel, step, op);
    SentTravel(s, popped, travel, step, op);
    SentUnder(s, popped, travel, step, op);
  }

  lemma SentUnder(s: State, popped: WeekWork, travel: Travel, step: Step, op: string)
    requires !s.busy
    ensures var sent := AfterSave(Travelling(s, popped, travel, step), op, false).0;
            && sent.open.pending.Some? && sent.open.pending.value.op == op
            && SameContent(sent.open, SideApplied(popped, step, if travel == Undoing then Earlier else Later))
  {
    hide StepForSave, WithSide, HwWrites, Sorted, ExtraWrites;
  }

  lemma SameDestination(a: WeekWork, b: WeekWork, travel: Travel)
    requires SameContent(a, b) && Stack(a, travel) == Stack(b, travel) != []
    ensures SameContent(Destination(a, travel), Destination(b, travel))
    ensures b.committedHw == a.committedHw ==> (Storable(Destination(a, travel)) <==> Storable(Destination(b, travel)))
  {
    hide WithSide, RepeatsId, HasRoom, Owned;
  }

  /** The window is on the line as if the server still were at `held`, but the server is already at the state
      the travel leads to. */
  ghost predicate OneBehind(d: Desk, held: Db, line: Line, travel: Travel) {
    && travel != Still
    && At(Desk(d.s, held), line) && Clean(d.s.open) && SoundLog(d.db.ops)
    && Stack(d.s.open, travel) != [] && Storable(Destination(d.s.open, travel))
    && Possible(line, Ahead(line, travel))
    && ServerContent(d.s.open, d.db) == Neighbour(line, travel)
    && AlreadyHas(d.db, Destination(d.s.open, travel))
  }

  /** The server ran the travel and the window never heard: the window is back on the week it had, its step
      back where it was, one state away from the server. */
  lemma AfterLostAnswer(d: Desk, line: Line, travel: Travel, op: string, token: string)
    requires At(d, line) && Clean(d.s.open) && travel != Still && Stack(d.s.open, travel) != []
    requires Fresh(d.db, op) && Storable(Destination(d.s.open, travel))
    ensures var (lost, move) := Next(d, TravelEvent(travel, op, ReplyLost, token));
            && move == Stay && OneBehind(lost, d.db, line, travel)
            && Stack(lost.s.open, travel) == Stack(d.s.open, travel)
  {
    hide Chained, Links, Built, Storable, Destination, EditsOnly, InStep, AfterUndo, AfterRedo, AfterSaveErr,
      PostChanges, Bodies, StepForSave;
    SentSetOut(d, line, travel, op);
    DestinationShows(d, line, travel);
    var (s, call) := Asked(d.s, travel, op);
    ServerTakes(s, d.db, d.db, token);
    var (posted, reply) := PostChanges(d.db, call.value.batch, token);
    ResultsNameTheirs(s.open.homework, reply.value.reply.homework);
    BackAgain(d, d.db, line, travel, op, s, call.value, Unreachable);
    var lost := Desk(AfterSaveErr(s, call.value, Unreachable).0, posted);
    AlreadyHasContent(posted, s.open, Destination(d.s.open, travel));
    NeighbourStored(d, line, travel, posted);
    AlreadyHasContent(posted, s.open, Destination(lost.s.open, travel));
  }

  /** A travel that did not land leaves the window where it set out. */
  lemma BackAgain(d: Desk, held: Db, line: Line, travel: Travel, op: string, s: State, call: Call, why: Refusal)
    requires At(Desk(d.s, held), line) && Clean(d.s.open) && travel != Still && Stack(d.s.open, travel) != []
    requires Fresh(held, op) && why != Conflict && call.PostSave? && Asked(d.s, travel, op) == (s, Some(call))
    ensures var after := AfterSaveErr(s, call, why).0;
            && At(Desk(after, held), line) && Clean(after.open)
            && Stack(after.open, travel) == Stack(d.s.open, travel) && after.open.week == d.s.open.week
            && SameContent(Destination(after.open, travel), Destination(d.s.open, travel))
            && (Storable(Destination(after.open, travel)) <==> Storable(Destination(d.s.open, travel)))
  {
    hide Chained, Links, Built, Storable, Destination, EditsOnly, InStep, AfterUndo, AfterRedo, AfterSaveErr,
      StepForSave, Unsent, Follows, SameContent;
    var there := Desk(d.s, held);
    SentSetOut(there, line, travel, op);
    TravelFails(s, held, call, line, why);
    NothingStale(d.s, line);
    TravelsWhenClean(there, line, travel);
    StackBack(d.s, op, travel);
    WeekStays(s, call, why);
    var after := Desk(AfterSaveErr(s, call, why).0, held);
    BothClean(there, after, line);
    SameDestination(d.s.open, after.s.open, travel);
    SameContentBack(Destination(d.s.open, travel), Destination(after.s.open, travel));
  }

  lemma SameContentBack(a: WeekWork, b: WeekWork)
    requires SameContent(a, b)
    ensures SameContent(b, a)
  {
  }

  /** The stack a travel takes its step from, with the step on top again. */
  lemma StackBack(s: State, op: string, travel: Travel)
    requires travel != Still && WithoutStale(s) == s && TravelsHere(s, Stack(s.open, travel))
    ensures var sent := Asked(s, travel, op).0;
            && sent.open.week == s.open.week
            && (travel == Undoing ==>
                  sent.open.undo + [Top(s.open, travel)] == s.open.undo && sent.open.redo == s.open.redo)
            && (travel == Redoing ==>
                  sent.open.redo + [Top(s.open, travel)] == s.open.redo && sent.open.undo == s.open.undo)
  {
    hide BuildBatch, StepForSave, WithSide;
  }

  lemma BothClean(d: Desk, e: Desk, line: Line)
    requires At(d, line) && At(e, line) && Clean(d.s.open) && Clean(e.s.open)
    requires d.db == e.db && d.s.open.week == e.s.open.week
    ensures SameContent(d.s.open, e.s.open) && d.s.open.committedHw == e.s.open.committedHw
  {
    hide Follows, EditsOnly;
  }

  lemma AlreadyHasContent(db: Db, a: WeekWork, b: WeekWork)
    requires AlreadyHas(db, a) && SameContent(a, b)
    ensures AlreadyHas(db, b)
  {
  }

  lemma DeletesShow(d: Desk, line: Line, travel: Travel)
    requires At(d, line) && Clean(d.s.open) && travel != Still && Stack(d.s.open, travel) != []
    ensures var there := Destination(d.s.open, travel);
            DeletesHomework(Top(d.s.open, travel), travel) <==> !(there.dirtyHw <= there.homework.Keys)
  {
    hide At, Links;
    DestinationShows(d, line, travel);
  }

  lemma WeekStays(s: State, call: Call, why: Refusal)
    requires call.PostSave? && why != Conflict
    ensures AfterSaveErr(s, call, why).0.open.week == s.open.week
  {
    hide AfterReload, TurnedDownWork;
    RefusedWorkKeepsWeek(s, why);
  }

  lemma RefusedWorkKeepsWeek(s: State, why: Refusal)
    ensures TurnedDownWork(s.travel, s.travelStep, s.open, why).week == s.open.week
  {
  }

  /** Remembering the operation does not change what landed. */
  lemma LandedThrough(work: WeekWork, db: Db, batch: Batch, token: string)
    requires Runs(db, Post(batch, token))
    requires Landed(work, RunBatch(db, batch, token).value.0, RunBatch(db, batch, token).value.1)
    ensures PostChanges(db, batch, token).1.Done? && PostChanges(db, batch, token).1.value.ChangesResponse?
    ensures Landed(work, PostChanges(db, batch, token).0, PostChanges(db, batch, token).1.value.reply)
  {
    hide RunBatch, PutResults, Bodies;
  }

  /** What a request to a server that is already there ends in. */
  lemma SecondAnswer(s: State, db: Db, call: Call, op: string, token: string)
    requires AlreadyHas(db, s.open) && EditsOnly(s.open) && ExtraWeeks(s) == {} && Storable(s.open)
    requires call.PostSave? && call.batch == BuildBatch(s, op)
    requires SoundLog(db.ops) && Fresh(db, op)
    ensures var (posted, reply) := PostChanges(db, call.batch, token);
            && SoundLog(posted.ops)
            && (reply.Done? <==> s.open.dirtyHw <= s.open.homework.Keys)
            && (reply.Refused? ==> posted == db && reply.why == NotFound)
            && (reply.Done? ==>
                  && reply.value.ChangesResponse? && Landed(s.open, posted, reply.value.reply)
                  && AlreadyHas(posted, s.open))
  {
    hide RunBatch, BuildBatch, Landed, EditsOnly, AlreadyHas, Storable;
    SentAgain(s, db, op, token);
    BatchOp(s, op);
    FreshIsMissing(db, op, ChangesPayload(call.batch));
    PostAgainstLog(db, Post(call.batch, token));
    var (posted, reply) := PostChanges(db, call.batch, token);
    if reply.Done? {
      LandedThrough(s.open, db, call.batch, token);
      LandedHas(s.open, posted, reply.value.reply);
    }
  }

  lemma BatchOp(s: State, op: string)
    ensures BuildBatch(s, op).op == op
  {
  }

  lemma LandedHas(work: WeekWork, db: Db, reply: Reply)
    requires Landed(work, db, reply)
    ensures AlreadyHas(db, work)
  {
    hide PutResults, Bodies;
    ResultsNameTheirs(work.homework, reply.homework);
  }

  /** Asking again, from a window one state behind: heard, it brings the two sides together at the state the
      server is at exactly when the travel deletes no homework. Otherwise the window stays one state behind,
      and a travel that does delete homework changes nothing on the server either. */
  lemma AskedOnce(d: Desk, held: Db, line: Line, travel: Travel, op: string, fate: Fate, token: string)
    requires OneBehind(d, held, line, travel) && Fresh(held, op) && Fresh(d.db, op)
    ensures var (after, move) := Next(d, TravelEvent(travel, op, fate, token));
            && (move != Stay <==> fate == Heard && !DeletesHomework(Top(d.s.open, travel), travel))
            && (move != Stay ==> move == Ahead(line, travel) && At(after, Stepped(line, move)))
            && (move == Stay ==> OneBehind(after, held, line, travel)
                                 && Stack(after.s.open, travel) == Stack(d.s.open, travel))
            && (DeletesHomework(Top(d.s.open, travel), travel) ==> after.db == d.db)
  {
    hide Chained, Links, Storable, Destination, EditsOnly, InStep, AfterUndo, AfterRedo, AfterSaveErr, AfterSaveOk,
      PostChanges, Bodies, StepForSave, Landed, RunBatch, At, AlreadyHas, ExtraWeeks, BuildBatch;
    var there := Desk(d.s, held);
    SentSetOut(there, line, travel, op);
    var (s, call) := Asked(d.s, travel, op);
    AlreadyHasContent(d.db, Destination(d.s.open, travel), s.open);
    DeletesShow(there, line, travel);
    SecondAnswer(s, d.db, call.value, op, token);
    var (posted, reply) := PostChanges(d.db, call.value.batch, token);
    if fate == Heard && reply.Done? {
      TravelLands(s, held, call.value, posted, reply.value.reply, line);
      assert At(Desk(AfterSaveOk(s, call.value, reply.value.reply), posted), Stepped(line, Ahead(line, travel))) by {
        SettledIsAt(Desk(AfterSaveOk(s, call.value, reply.value.reply), posted), Stepped(line, Ahead(line, travel)));
      }
    } else {
      var why := if fate == Heard then reply.why else Unreachable;
      BackAgain(d, held, line, travel, op, s, call.value, why);
      var after := Desk(AfterSaveErr(s, call.value, why).0, if fate == RequestLost then d.db else posted);
      if fate != RequestLost && reply.Done? {
        AlreadyHasContent(posted, s.open, Destination(d.s.open, travel));
        AlreadyHasContent(posted, s.open, Destination(after.s.open, travel));
        NeighbourStored(there, line, travel, posted);
      } else {
        AlreadyHasContent(d.db, Destination(d.s.open, travel), Destination(after.s.open, travel));
      }
    }
  }

  lemma SettledIsAt(d: Desk, line: Line)
    requires Idle(d.s) && SoundLog(d.db.ops) && Follows(d.s.open, line)
    requires KeepsHomework(d.s.open) && Unsent(d.s.open, d.db)
    ensures At(d, line)
  {
  }

  lemma NeighbourStored(d: Desk, line: Line, travel: Travel, db: Db)
    requires At(d, line) && Clean(d.s.open) && travel != Still && Stack(d.s.open, travel) != []
    requires AlreadyHas(db, Destination(d.s.open, travel))
    ensures Possible(line, Ahead(line, travel)) && ServerContent(d.s.open, db) == Neighbour(line, travel)
  {
    hide At, Links, Bodies;
    DestinationShows(d, line, travel);
    SideKeepsWeek(d.s.open, travel);
  }

  lemma SideKeepsWeek(work: WeekWork, travel: Travel)
    requires Stack(work, travel) != []
    ensures Destination(work, travel).week == work.week
  {
    hide WithSide;
  }

  /** The student asks for the same travel again and again. */
  predicate OnlyAsks(d: Desk, held: Db, travel: Travel, events: seq<Event>)
    decreases events
  {
    events == []
    || (&& (if travel == Undoing then events[0].Undo? else events[0].Redo?)
        && Fresh(held, events[0].op) && Fresh(d.db, events[0].op)
        && OnlyAsks(Next(d, events[0]).0, held, travel, events[1..]))
  }

  /** A lost undo or redo that deletes homework is never healed by asking again: however often it is repeated,
      and whatever is heard, the window stays one state behind and the server stays as it is. */
  lemma {:induction false} RepeatsNeverHeal(d: Desk, held: Db, line: Line, travel: Travel, events: seq<Event>)
    requires OneBehind(d, held, line, travel) && DeletesHomework(Top(d.s.open, travel), travel)
    requires OnlyAsks(d, held, travel, events)
    ensures OneBehind(Final(d, events), held, line, travel) && Final(d, events).db == d.db
    decreases events
  {
    hide OneBehind, Next, Fresh, DeletesHomework;
    if events != [] {
      var e := events[0];
      assert e == TravelEvent(travel, e.op, e.fate, e.token) && Stack(d.s.open, travel) != [] by {
        BehindHasStep(d, held, line, travel);
      }
      AskedOnce(d, held, line, travel, e.op, e.fate, e.token);
      var next := Next(d, e).0;
      assert Stack(next.s.open, travel) == Stack(d.s.open, travel);
      RepeatsNeverHeal(next, held, line, travel, events[1..]);
    }
  }

  lemma BehindHasStep(d: Desk, held: Db, line: Line, travel: Travel)
    requires OneBehind(d, held, line, travel)
    ensures travel != Still && Stack(d.s.open, travel) != []
  {
  }

  // ----- Undoing added homework -----

  /** A save that added homework, then an undo of it whose answer is lost: the server is back at the state
      before the save, the window stays at the one after it, and asking again never changes that. */
  lemma LostUndoOfNewHomework(d: Desk, line: Line, op: string, token: string, undoOp: string, undoToken: string,
                              events: seq<Event>)
    requires At(d, line) && d.s.open.pending.None? && Fresh(d.db, op) && Sane(d.s.open)
    requires exists id :: id in d.s.open.homework && id !in d.s.open.committedHw
    requires Next(d, Save(op, false, Heard, token)).1.Add?
    requires Fresh(Next(d, Save(op, false, Heard, token)).0.db, undoOp)
    requires var saved := Next(d, Save(op, false, Heard, token)).0;
             OnlyAsks(Next(saved, Undo(undoOp, ReplyLost, undoToken)).0, saved.db, Undoing, events)
    ensures var saved := Next(d, Save(op, false, Heard, token)).0;
            var after := Final(Next(saved, Undo(undoOp, ReplyLost, undoToken)).0, events);
            && ServerContent(after.s.open, after.db) == Committed(d.s.open)
            && ContentOf(after.s.open) == ContentOf(d.s.open)
            && Committed(d.s.open) != ContentOf(d.s.open)
            && Clean(after.s.open) && !after.s.busy
  {
    hide Next, Destination, Storable, RepeatsId, Unsent, Kept, HasRoom, Links, Bodies, At, OneBehind, OnlyAsks;
    var saved, move := Next(d, Save(op, false, Heard, token)).0, Next(d, Save(op, false, Heard, token)).1;
    AddsContent(d.s.open);
    OneEvent(d, line, Save(op, false, Heard, token));
    SaveTop(d, line, op, token);
    SaveMove(d, op, token);
    var grown := Stepped(line, move);
    BothSidesAtTheCursor(d, line);
    LineIsShort(d, line);
    AddedBefore(line, ContentOf(d.s.open));
    LandsWhenStorable(saved, grown, Undoing);
    OldStateStorable(d.s.open);
    TopAddsHomework(saved, grown, d.s.open);
    AfterLostAnswer(saved, grown, Undoing, undoOp, undoToken);
    var lost := Next(saved, Undo(undoOp, ReplyLost, undoToken)).0;
    RepeatsNeverHeal(lost, saved.db, grown, Undoing, events);
    BehindShows(Final(lost, events), saved.db, grown);
  }

  lemma AddsContent(work: WeekWork)
    requires exists id :: id in work.homework && id !in work.committedHw
    ensures Committed(work) != ContentOf(work)
  {
    BodiesKeys(work.homework);
    BodiesKeys(work.committedHw);
  }

  lemma LineIsShort(d: Desk, line: Line)
    requires At(d, line)
    ensures |line.states| <= HISTORY_LIMIT + 1 && Committed(d.s.open) == line.states[line.at]
  {
    hide Links, Unsent, Kept;
  }

  lemma TopAddsHomework(d: Desk, line: Line, work: WeekWork)
    requires At(d, line) && Clean(d.s.open) && Stack(d.s.open, Undoing) != [] && Possible(line, Back)
    requires line.states[line.at] == ContentOf(work) && line.states[line.at - 1] == Committed(work)
    requires exists id :: id in work.homework && id !in work.committedHw
    ensures DeletesHomework(Top(d.s.open, Undoing), Undoing)
  {
    hide At;
    DestinationShows(d, line, Undoing);
    BodiesKeys(work.homework);
    BodiesKeys(work.committedHw);
    var id :| id in work.homework && id !in work.committedHw;
    var top := Top(d.s.open, Undoing);
    assert Lookup(Committed(work).bodies, id) != Lookup(ContentOf(work).bodies, id);
    assert id in top.homework && SideBody(top.homework[id], Earlier).None?;
  }

  lemma BehindShows(d: Desk, held: Db, line: Line)
    requires OneBehind(d, held, line, Undoing)
    ensures Possible(line, Back) && ServerContent(d.s.open, d.db) == line.states[line.at - 1]
    ensures ContentOf(d.s.open) == line.states[line.at] && Clean(d.s.open) && !d.s.busy
  {
    hide Follows, Unsent, Kept;
    BothSidesAtTheCursor(Desk(d.s, held), line);
  }

  /** A new window on a new account. */
  function NewDesk(): Desk {
    Desk(FreshSession("2026-09-14"), Db(map[], map[], [], [], []))
  }

  const ADD := Edit([], map["essay" := "Essay"], "adding Essay")
  const SAVE := Save("op1", false, Heard, "t1")

  const START := Line([Content([], map[])], 0)

  lemma NewDeskIsAt()
    ensures At(NewDesk(), START)
  {
    assert Bodies(map[]) == map[];
    hide Kept;
  }

  lemma AddedWork()
    ensures var added := Next(NewDesk(), ADD).0;
            && added.s.open.pending.None? && added.db == NewDesk().db
            && added.s.open.blocks == [] && added.s.open.committed == []
            && added.s.open.homework == map["essay" := HwRow("Essay", 0)] && added.s.open.committedHw == map[]
            && added.s.open.dirtyHw == {"essay"}
  {
    assert Changed(map[], map["essay" := "Essay"]) == map["essay" := HwRow("Essay", 0)];
  }

  lemma EmptyWeekIsStorable(work: WeekWork)
    requires work.blocks == [] && work.committed == [] && work.committedHw == map[]
    requires work.homework == map["essay" := HwRow("Essay", 0)] && work.dirtyHw == {"essay"}
    ensures Storable(work) && Sane(work) && "essay" in work.homework && "essay" !in work.committedHw
  {
    NothingRepeats();
    assert work.committedHw.Keys + work.homework.Keys == {"essay"};
  }

  lemma AddingLands()
    ensures At(NewDesk(), START) && At(Next(NewDesk(), ADD).0, START)
    ensures var added := Next(NewDesk(), ADD).0;
            && added.s.open.pending.None? && added.db == NewDesk().db
            && Storable(added.s.open) && Sane(added.s.open)
            && "essay" in added.s.open.homework && "essay" !in added.s.open.committedHw
            && ContentOf(added.s.open) == Content([], map["essay" := "Essay"])
            && Committed(added.s.open) == Content([], map[])
  {
    hide At, Next, Storable, Sane;
    NewDeskIsAt();
    AddedWork();
    assert NewDesk().s.open.pending.None?;
    EditStays(NewDesk(), START, ADD);
    EmptyWeekIsStorable(Next(NewDesk(), ADD).0.s.open);
    assert Bodies(Next(NewDesk(), ADD).0.s.open.homework) == map["essay" := "Essay"];
  }

  lemma NothingRepeats()
    ensures !RepeatsId([])
  {
  }

  /** A save or an undo under `op` leaves every other new operation id new. */
  lemma OthersStayFresh(d: Desk, e: Event, id: string)
    requires (e.Save? || e.Undo?) && SoundLog(d.db.ops) && d.s.open.pending.None?
    requires Fresh(d.db, id) && id != e.op
    ensures Fresh(Next(d, e).0.db, id)
  {
    var (s, call) := if e.Save? then AfterSave(d.s, e.op, e.join) else AfterUndo(d.s, e.op);
    SentUnderOp(d.s, e);
    ExchangeLogs(d.(s := s), call, e.fate, e.token, id);
    hide AfterSave, AfterUndo, Exchange, Fresh, ContentOf;
  }

  lemma ExchangeLogs(d: Desk, call: Option<Call>, fate: Fate, token: string, id: string)
    requires SoundLog(d.db.ops) && Fresh(d.db, id)
    requires call.Some? && call.value.PostSave? ==> call.value.batch.op != id
    ensures Fresh(Exchange(d, call, fate, token).0.db, id)
  {
    hide AfterSaveOk, AfterSaveErr, PostChanges;
    if call.Some? && call.value.PostSave? {
      PostAgainstLog(d.db, Post(call.value.batch, token));
    }
  }

  lemma SentUnderOp(s: State, e: Event)
    requires (e.Save? || e.Undo?) && s.open.pending.None?
    ensures var call := (if e.Save? then AfterSave(s, e.op, e.join) else AfterUndo(s, e.op)).1;
            call.Some? ==> call.value.PostSave? && call.value.batch.op == e.op
  {
    hide StepForSave, HwWrites, Sorted, ExtraWrites, WithSide, DropStale;
  }

  lemma SavingLands(d: Desk, line: Line)
    requires At(d, line) && d.s.open.pending.None? && Fresh(d.db, "op1") && Storable(d.s.open)
    ensures Next(d, SAVE).1.Add?
  {
    hide Chained, Links, BuildBatch, Stepped, StepForSave, Storable;
    var before := SaveSends(d.s, d.db, line, "op1", false);
    var s := AfterSave(d.s, "op1", false).0;
    SameStorable(d.s, "op1");
    SaveEnds(s, before, d.db, line, Heard, "t1");
  }

  lemma SameStorable(s: State, op: string)
    requires Storable(s.open)
    ensures Storable(AfterSave(s, op, false).0.open)
  {
    hide BuildBatch, StepForSave, RepeatsId, HasRoom, Owned;
  }

  /** A run: homework is added and saved, its undo goes through unheard, and is asked for again. The homework
      is gone from the server and stays in the window. */
  lemma AnUndoThatNeverHeals()
    ensures var after := Final(NewDesk(), [ADD, SAVE, Undo("op2", ReplyLost, "t2"), Undo("op3", Heard, "t3")]);
            && "essay" !in after.db.homework
            && "essay" in after.s.open.homework && Clean(after.s.open) && !after.s.busy
  {
    hide Next, At, RepeatsId, Storable, Links;
    var line := START;
    AddingLands();
    var added := Next(NewDesk(), ADD).0;
    SavingLands(added, line);
    OneEvent(added, line, SAVE);
    AddsContent(added.s.open);
    SaveTop(added, line, "op1", "t1");
    var saved := Next(added, SAVE).0;
    var undo, again := Undo("op2", ReplyLost, "t2"), Undo("op3", Heard, "t3");
    var lost := Next(saved, undo).0;
    AtHasLog(added, line);
    OthersStayFresh(added, SAVE, "op2");
    OthersStayFresh(added, SAVE, "op3");
    AtHasLog(saved, Stepped(line, Next(added, SAVE).1));
    OthersStayFresh(saved, undo, "op3");
    assert [again][1..] == [] && OnlyAsks(lost, saved.db, Undoing, [again]);
    LostUndoOfNewHomework(added, line, "op1", "t1", "op2", "t2", [again]);
    var after := Next(lost, again).0;
    FourEvents(NewDesk(), ADD, SAVE, undo, again);
    assert Final(lost, [again]) == after;
    BodiesKeys(after.db.homework);
    BodiesKeys(after.s.open.homework);
  }

  lemma AtHasLog(d: Desk, line: Line)
    requires At(d, line)
    ensures SoundLog(d.db.ops)
  {
  }

  lemma FourEvents(d: Desk, a: Event, b: Event, c: Event, e: Event)
    ensures Final(d, [a, b, c, e]) == Final(Next(Next(Next(d, a).0, b).0, c).0, [e])
  {
    hide Next;
    assert [a, b, c, e][1..] == [b, c, e] && [b, c, e][1..] == [c, e] && [c, e][1..] == [e];
    assert Final(Next(d, a).0, [b, c, e]) == Final(Next(Next(d, a).0, b).0, [c, e]);
  }
}
