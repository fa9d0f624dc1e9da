/** Changes of several weeks in one save: a block moved to another week, the move taken back and made again. */
module Moves {
  import opened Basics
  import opened Names
  import opened Store
  import opened Prediction
  import opened RetryOnce
  import opened History
  import opened Session
  import opened Protocol
  import NoLostUpdate
  import Cursor
  import Parking

  /** What the account holds: each week's blocks and each homework's text. */
  function WorldOf(db: Db): World {
    World(map week | week in db.weeks :: db.weeks[week].blocks, Bodies(db.homework))
  }

  ghost predicate SameWorld(a: World, b: World) {
    a.bodies == b.bodies && forall week :: BlocksOf(a, week) == BlocksOf(b, week)
  }

  lemma WorldShowsRows(db: Db, week: string)
    ensures BlocksOf(WorldOf(db), week) == RowOf(db.weeks, week).blocks
  {
  }

  /** The world before a step is the one it leads back to, and the world after it the one it leads to. */
  lemma TakesDecides(step: Step, a: World, b: World, other: World)
    requires Takes(step, a, b)
    ensures Takes(step, other, b) <==> SameWorld(other, a)
    ensures Takes(step, a, other) <==> SameWorld(other, b)
  {
    if Takes(step, other, b) {
      SameBefore(step, other, a, b);
    }
    if Takes(step, a, other) {
      SameAfter(step, a, other, b);
    }
  }

  lemma SameBefore(step: Step, a: World, other: World, b: World)
    requires Takes(step, a, b) && Takes(step, other, b)
    ensures SameWorld(a, other)
  {
    forall week ensures BlocksOf(a, week) == BlocksOf(other, week) {
      assert week in step.weeks || week !in step.weeks;
    }
    forall id ensures Lookup(a.bodies, id) == Lookup(other.bodies, id) {
      assert id in step.homework || id !in step.homework;
    }
    SameLookups(a.bodies, other.bodies);
  }

  lemma SameAfter(step: Step, a: World, b: World, other: World)
    requires Takes(step, a, b) && Takes(step, a, other)
    ensures SameWorld(b, other)
  {
    forall week ensures BlocksOf(b, week) == BlocksOf(other, week) {
      assert week in step.weeks || week !in step.weeks;
    }
    forall id ensures Lookup(b.bodies, id) == Lookup(other.bodies, id) {
      assert id in step.homework || id !in step.homework;
    }
    SameLookups(b.bodies, other.bodies);
  }

  // ----- A batch of weeks on the server -----

  /** What the store asks of a week's blocks. */
  predicate CanBeStored(homework: Homework, blocks: seq<Block>) {
    !RepeatsId(blocks) && Owned(homework, blocks)
  }

  predicate Current(weeks: Weeks, write: WeekWrite) {
    write.rev == RowOf(weeks, write.week).rev
  }

  /** Writes at the weeks' own revisions are refused only for what they hold. */
  lemma {:induction false} CurrentWritesRun(db: Db, writes: seq<WeekWrite>)
    requires DistinctWeeks(writes) && forall i :: 0 <= i < |writes| ==> Current(db.weeks, writes[i])
    ensures RunWeeks(db, writes).Done? <==> forall i :: 0 <= i < |writes| ==> CanBeStored(db.homework, writes[i].blocks)
    ensures RunWeeks(db, writes).Done? ==>
              RunWeeks(db, writes).value.0 == db.(weeks := RunWeeks(db, writes).value.0.weeks)
    ensures RunWeeks(db, writes).Refused? ==> RunWeeks(db, writes).why == Unprocessable
  {
    hide Owned, RepeatsId;
    if writes != [] {
      var front, last := writes[..|writes| - 1], writes[|writes| - 1];
      assert forall i | 0 <= i < |front| :: front[i] == writes[i];
      CurrentWritesRun(db, front);
      if RunWeeks(db, front).Done? {
        NoLostUpdate.WritesInPlace(db, front);
        NoLostUpdate.MentionsMore(writes, last.week);
        hide NoLostUpdate.Mentions;
        var before := RunWeeks(db, front).value.0;
        assert RowOf(before.weeks, last.week) == RowOf(db.weeks, last.week);
      }
    }
  }

  /** The reply to such a batch says what each of its weeks is now. */
  predicate Stored(batch: Batch, before: Db, after: Db, reply: Reply) {
    && reply.homework == [] && |reply.weeks| == |batch.weeks| && after.homework == before.homework
    && (forall i :: 0 <= i < |batch.weeks| ==>
          && reply.weeks[i].week == batch.weeks[i].week
          && RowOf(after.weeks, batch.weeks[i].week) == Row(batch.weeks[i].blocks, reply.weeks[i].rev)
          && reply.weeks[i].blocks == batch.weeks[i].blocks)
  }

  ghost predicate OthersStay(batch: Batch, before: Db, after: Db) {
    forall week :: !NoLostUpdate.Mentions(batch.weeks, week) ==>
                     RowOf(after.weeks, week) == RowOf(before.weeks, week)
  }

  lemma BatchOfWeeksLands(db: Db, batch: Batch, token: string)
    requires DistinctWeeks(batch.weeks) && batch.homework == [] && batch.pointName.None? && Cursor.Fresh(db, batch.op)
    requires forall i :: 0 <= i < |batch.weeks| ==> Current(db.weeks, batch.weeks[i])
    ensures var (after, answer) := PostChanges(db, batch, token);
            && (answer.Done? <==> forall i :: 0 <= i < |batch.weeks| ==>
                                    CanBeStored(db.homework, batch.weeks[i].blocks))
            && (answer.Done? ==> answer.value.ChangesResponse? && Stored(batch, db, after, answer.value.reply)
                                 && OthersStay(batch, db, after))
            && (answer.Refused? ==> after == db && answer.why == Unprocessable)
  {
    Cursor.FreshIsMissing(db, batch.op, ChangesPayload(batch));
    assert RunUpserts(db.homework, []) == Done((db.homework, []));
    assert RunDeletes(db, []) == Done((db, []));
    assert db.(homework := db.homework) == db;
    hide CanBeStored, Current;
    CurrentWritesRun(db, batch.weeks);
    if RunWeeks(db, batch.weeks).Done? {
      NoLostUpdate.WritesInPlace(db, batch.weeks);
    }
  }

  // ----- A window in step with the account -----

  /** Nothing is on its way, and nothing is left of what was. */
  predicate AtRest(s: State) {
    !s.busy && s.travel == Still && s.travelStep.None? && !s.join
  }

  /** The window shows the server's own version of its week and has nothing to send. */
  predicate InStep(d: Cursor.Desk) {
    && AtRest(d.s) && !d.s.open.conflict
    && d.s.open.pending.None? && !d.s.open.dirty && d.s.open.dirtyHw == {}
    && Row(d.s.open.blocks, d.s.open.rev) == RowOf(d.db.weeks, d.s.open.week)
    && d.s.open.committed == d.s.open.blocks
  }

  /** The step has, for each week but the open one, the revision the week is at. */
  predicate RevisionsKnown(weeks: Weeks, home: string, step: Step) {
    forall week <- step.weeks :: week != home ==> step.weeks[week].rev == RowOf(weeks, week).rev
  }

  /** The newest step on its stack changed the open week, in whichever weeks, and can be travelled. */
  predicate Poised(d: Cursor.Desk, travel: Travel) {
    && InStep(d)
    && var stack := Cursor.Stack(d.s.open, travel);
       stack != []
       && var step := stack[|stack| - 1];
          !step.stale && step.homework == map[] && d.s.open.week in step.weeks
  }

  /** And none of its other weeks has changed since. */
  predicate Ready(d: Cursor.Desk, travel: Travel) {
    Poised(d, travel) && RevisionsKnown(d.db.weeks, d.s.open.week, Newest(d, travel))
  }

  function Newest(d: Cursor.Desk, travel: Travel): Step
    requires Cursor.Stack(d.s.open, travel) != []
  {
    var stack := Cursor.Stack(d.s.open, travel);
    stack[|stack| - 1]
  }

  /** Undo or redo, its save heard and answered. */
  function After(d: Cursor.Desk, travel: Travel, op: string, token: string): Cursor.Desk {
    Cursor.Next(d, Cursor.TravelEvent(travel, op, Cursor.Heard, token)).0
  }

  predicate AllStorable(db: Db, step: Step, travel: Travel) {
    forall week <- step.weeks :: CanBeStored(db.homework, SideOf(step.weeks[week], travel))
  }

  /** The batch writes each of the step's weeks, as it is on that side, over the version the server has. */
  ghost predicate WritesSide(weeks: Weeks, batch: Batch, step: Step, travel: Travel) {
    && DistinctWeeks(batch.weeks) && batch.homework == [] && batch.pointName.None?
    && (forall i :: 0 <= i < |batch.weeks| ==>
          && batch.weeks[i].week in step.weeks && Current(weeks, batch.weeks[i])
          && batch.weeks[i].blocks == SideOf(step.weeks[batch.weeks[i].week], travel))
    && (forall week <- step.weeks :: NoLostUpdate.Mentions(batch.weeks, week))
  }

  /** The window once the step's side is on the screen. */
  function Going(d: Cursor.Desk, travel: Travel): State
    requires Cursor.Stack(WithoutStale(d.s).open, travel) != []
  {
    var live := WithoutStale(d.s);
    var stack := Cursor.Stack(live.open, travel);
    Travelling(live, Cursor.Popped(live.open, travel), travel, stack[|stack| - 1])
  }

  lemma PoisedIsLive(d: Cursor.Desk, travel: Travel)
    requires Poised(d, travel)
    ensures Cursor.Stack(WithoutStale(d.s).open, travel) == Cursor.Stack(d.s.open, travel)
  {
  }

  lemma ExtraAre(s: State, step: Step)
    requires s.travelStep == Some(step)
    ensures var others := Sorted(ExtraWeeks(s));
            && Distinct(others)
            && (forall i :: 0 <= i < |others| ==> others[i] in step.weeks && others[i] != s.open.week)
            && (forall week <- step.weeks :: week != s.open.week ==> exists i :: 0 <= i < |others| && others[i] == week)
  {
    var others := Sorted(ExtraWeeks(s));
    SortedIsDistinct(ExtraWeeks(s));
    forall i | 0 <= i < |others| ensures others[i] in step.weeks && others[i] != s.open.week {
      assert others[i] in Elements(others);
    }
    forall week <- step.weeks | week != s.open.week
      ensures exists i :: 0 <= i < |others| && others[i] == week
    {
      assert week in Elements(others);
    }
  }

  lemma NothingToSend(work: WeekWork)
    requires work.dirtyHw == {}
    ensures HwWrites(work, Sorted(work.dirtyHw)) == []
    ensures RevisionAfterDeletes(work.committed, work.rev, DeletedIds([])) == work.rev
  {
    assert Sorted({}) == [];
    assert DeletedIds([]) == {} && Prediction.Touched(work.committed, {}) == {};
  }

  /** The writes of a travel: the open week's first, then each other week's. */
  lemma TravelBuilds(s: State, step: Step, op: string)
    requires s.travelStep == Some(step) && s.open.dirtyHw == {}
    ensures var batch, others := BuildBatch(s, op), Sorted(ExtraWeeks(s));
            && batch.homework == [] && batch.pointName.None? && batch.op == op && |batch.weeks| == |others| + 1
            && batch.weeks[0] == WeekWrite(s.open.week, s.open.blocks, s.open.rev)
            && (forall i :: 0 < i < |batch.weeks| ==>
                  && batch.weeks[i].week == others[i - 1] && batch.weeks[i].week in step.weeks
                  && batch.weeks[i].week != s.open.week
                  && batch.weeks[i].blocks == SideOf(step.weeks[batch.weeks[i].week], s.travel)
                  && batch.weeks[i].rev == step.weeks[batch.weeks[i].week].rev)
  {
    ExtraAre(s, step);
    NothingToSend(s.open);
    hide ExtraWeeks, Sorted, HwWrites, RevisionAfterDeletes, DeletedIds, SideOf;
    assert forall week <- Sorted(ExtraWeeks(s)) :: week in Elements(Sorted(ExtraWeeks(s)));
    hide Elements;
  }

  /** With the revisions the weeks are at, those are writes of the step's side over what the server has. */
  lemma SideIsWritten(weeks: Weeks, s: State, step: Step, op: string)
    requires s.travelStep == Some(step) && s.open.dirtyHw == {} && s.open.week in step.weeks
    requires s.open.rev == RowOf(weeks, s.open.week).rev && s.open.blocks == SideOf(step.weeks[s.open.week], s.travel)
    requires RevisionsKnown(weeks, s.open.week, step)
    ensures WritesSide(weeks, BuildBatch(s, op), step, s.travel) && BuildBatch(s, op).op == op
  {
    ExtraAre(s, step);
    TravelBuilds(s, step, op);
    hide BuildBatch, Sorted, ExtraWeeks, RowOf, SideOf, Distinct, DistinctWeeks, NoLostUpdate.Mentions;
    var batch, others := BuildBatch(s, op), Sorted(ExtraWeeks(s));
    FirstThenOthers(batch.weeks, others);
    forall week <- step.weeks ensures NoLostUpdate.Mentions(batch.weeks, week) {
      MentionsFirstAndOthers(batch.weeks, others, week);
    }
  }

  lemma MentionsFirstAndOthers(writes: seq<WeekWrite>, others: seq<string>, week: string)
    requires |writes| == |others| + 1
    requires forall i :: 0 < i < |writes| ==> writes[i].week == others[i - 1]
    requires week == writes[0].week || exists i :: 0 <= i < |others| && others[i] == week
    ensures NoLostUpdate.Mentions(writes, week)
  {
    if week != writes[0].week {
      var i :| 0 <= i < |others| && others[i] == week;
      assert writes[i + 1].week == week;
    }
  }

  lemma FirstThenOthers(writes: seq<WeekWrite>, others: seq<string>)
    requires Distinct(others) && |writes| == |others| + 1
    requires forall i :: 0 < i < |writes| ==> writes[i].week == others[i - 1] && writes[i].week != writes[0].week
    ensures DistinctWeeks(writes)
  {
    forall i, j | 0 <= i < j < |writes| ensures writes[i].week != writes[j].week {
      assert writes[j].week == others[j - 1];
      assert i > 0 ==> writes[i].week == others[i - 1];
    }
  }

  lemma GoingIs(d: Cursor.Desk, travel: Travel)
    requires Poised(d, travel) && travel != Still
    requires Cursor.Stack(WithoutStale(d.s).open, travel) == Cursor.Stack(d.s.open, travel)
    ensures var s, step := Going(d, travel), Newest(d, travel);
            && s.travelStep == Some(step) && s.travel == travel && !s.busy && s.ticket == d.s.ticket
            && s.open.week == d.s.open.week && s.open.rev == d.s.open.rev && s.open.dirtyHw == {}
            && !s.open.conflict && s.open.pending.None? && s.drafts == d.s.drafts
            && s.open.blocks == SideOf(step.weeks[s.open.week], travel)
            && Cursor.Stack(s.open, travel) == Cursor.Stack(d.s.open, travel)[..|Cursor.Stack(d.s.open, travel)| - 1]
  {
    hide DropStale, WithSide;
  }

  // ----- Its answer -----

  function Opposite(travel: Travel): Travel {
    if travel == Undoing then Redoing else Undoing
  }

  lemma ReplyFound(batch: Batch, before: Db, after: Db, reply: Reply, week: string)
    requires DistinctWeeks(batch.weeks) && Stored(batch, before, after, reply)
    ensures NoLostUpdate.Mentions(batch.weeks, week) ==>
              FindWeek(reply.weeks, week) == Some(WeekWrite(week, RowOf(after.weeks, week).blocks,
                                                            RowOf(after.weeks, week).rev))
    ensures !NoLostUpdate.Mentions(batch.weeks, week) ==> FindWeek(reply.weeks, week).None?
  {
    assert DistinctWeeks(reply.weeks);
    if NoLostUpdate.Mentions(batch.weeks, week) {
      var i :| 0 <= i < |batch.weeks| && batch.weeks[i].week == week;
      NoLostUpdate.FindsWrite(reply.weeks, i);
    } else {
      forall write <- reply.weeks ensures write.week != week {
        var i :| 0 <= i < |reply.weeks| && reply.weeks[i] == write;
        assert batch.weeks[i].week == write.week;
      }
    }
  }

  lemma KeptKnown(weeks: Weeks, step: Step, stored: seq<WeekWrite>, home: string)
    requires forall week <- step.weeks ::
               FindWeek(stored, week).Some? && FindWeek(stored, week).value.rev == RowOf(weeks, week).rev
    ensures RevisionsKnown(weeks, home, KeepRevisions(step, stored))
  {
    hide FindWeek;
  }

  function Heard(s: State, batch: Batch, reply: Reply): State {
    AfterSaveOk(s, PostSave(s.ticket, batch), reply)
  }

  /** Where the landed save goes on the stacks. */
  lemma StacksTaken(s: State, batch: Batch, reply: Reply)
    requires reply.homework == []
    ensures var u := Heard(s, batch, reply);
            && (s.travel != Still && s.travelStep.Some? ==>
                  && Cursor.Stack(u.open, s.travel) == Cursor.Stack(s.open, s.travel)
                  && Cursor.Stack(u.open, Opposite(s.travel))
                     == PushStep(Cursor.Stack(s.open, Opposite(s.travel)),
                                 KeepRevisions(s.travelStep.value, reply.weeks)))
            && (s.travel == Still && s.open.step.Some? && !s.join ==>
                  u.open.undo == PushStep(s.open.undo, AsStored(s.open.step.value, reply.weeks, s.open.homework))
                  && u.open.redo == [])
  {
    hide FindWeek, PushStep, JoinStep, KeepRevisions, AsStored;
    var current := WithCurrent(s.open, reply);
    assert current.undo == s.open.undo && current.redo == s.open.redo && current.step == s.open.step;
    assert current.homework == s.open.homework;
    assert WithResults(current, []) == current;
  }

  /** The open week takes what was stored, and is in step again. */
  lemma WeekTaken(s: State, batch: Batch, after: Db, reply: Reply)
    requires s.open.dirtyHw == {} && reply.homework == []
    requires FindWeek(reply.weeks, s.open.week)
          == Some(WeekWrite(s.open.week, RowOf(after.weeks, s.open.week).blocks, RowOf(after.weeks, s.open.week).rev))
    ensures InStep(Cursor.Desk(Heard(s, batch, reply), after)) && Heard(s, batch, reply).open.week == s.open.week
    ensures Heard(s, batch, reply).open.step.None?
  {
    hide FindWeek, PushStep, JoinStep, KeepRevisions, AsStored, RowOf;
    var current := WithCurrent(s.open, reply);
    assert WithResults(current, []) == current;
    Parking.RecordedKeepsWeek(s.travel, s.travelStep, s.join, current, reply);
    hide Recorded;
  }

  lemma PushedIsNewest(stack: seq<Step>, step: Step)
    ensures var pushed := PushStep(stack, step); pushed != [] && pushed[|pushed| - 1] == step
  {
  }

  lemma IsReady(u: Cursor.Desk, travel: Travel, step: Step)
    requires InStep(u) && Cursor.Stack(u.s.open, travel) != [] && Newest(u, travel) == step
    requires !step.stale && step.homework == map[] && u.s.open.week in step.weeks
    requires RevisionsKnown(u.db.weeks, u.s.open.week, step)
    ensures Ready(u, travel)
  {
  }

  lemma TravelTaken(s: State, batch: Batch, db: Db, after: Db, reply: Reply, step: Step)
    requires s.open.dirtyHw == {} && s.travel != Still && s.travelStep == Some(step) && s.open.week in step.weeks
    requires !step.stale && step.homework == map[]
    requires WritesSide(db.weeks, batch, step, s.travel) && Stored(batch, db, after, reply)
    ensures var u := Cursor.Desk(Heard(s, batch, reply), after);
            && Ready(u, Opposite(s.travel)) && u.s.open.week == s.open.week
            && Cursor.SameStep(Newest(u, Opposite(s.travel)), step)
            && Cursor.Stack(u.s.open, s.travel) == Cursor.Stack(s.open, s.travel)
  {
    ReplyFound(batch, db, after, reply, s.open.week);
    WeekTaken(s, batch, after, reply);
    StacksTaken(s, batch, reply);
    forall week <- step.weeks
      ensures FindWeek(reply.weeks, week).Some? && FindWeek(reply.weeks, week).value.rev == RowOf(after.weeks, week).rev
    {
      ReplyFound(batch, db, after, reply, week);
    }
    KeptKnown(after.weeks, step, reply.weeks, s.open.week);
    Cursor.KeptIsSame(step, reply.weeks);
    PushedIsNewest(Cursor.Stack(s.open, Opposite(s.travel)), KeepRevisions(step, reply.weeks));
    hide Heard, FindWeek, RevisionsKnown, PushStep, Stored, InStep, WritesSide, Ready;
    IsReady(Cursor.Desk(Heard(s, batch, reply), after), Opposite(s.travel), KeepRevisions(step, reply.weeks));
    hide KeepRevisions;
  }

  // ----- A step travelled -----

  lemma TravelSent(d: Cursor.Desk, travel: Travel, op: string)
    requires Poised(d, travel) && travel != Still
    requires Cursor.Stack(WithoutStale(d.s).open, travel) == Cursor.Stack(d.s.open, travel)
    ensures var (s, call) := if travel == Undoing then AfterUndo(d.s, op) else AfterRedo(d.s, op);
            var going := Going(d, travel);
            && call == Some(PostSave(s.ticket, BuildBatch(going, op)))
            && s == going.(ticket := d.s.ticket + 1, busy := true, join := false, open := s.open)
            && s.open == going.open.(pending := s.open.pending, step := s.open.step)
  {
    hide DropStale, WithSide, BuildBatch, StepForSave;
  }

  lemma ExchangeHeard(d: Cursor.Desk, batch: Batch, token: string)
    ensures var (after, answer) := PostChanges(d.db, batch, token);
            var u := Cursor.Exchange(d, Some(PostSave(d.s.ticket, batch)), Cursor.Heard, token).0;
            && (answer.Done? && answer.value.ChangesResponse? ==>
                  u == Cursor.Desk(Heard(d.s, batch, answer.value.reply), after))
            && (answer.Refused? ==>
                  u == Cursor.Desk(AfterSaveErr(d.s, PostSave(d.s.ticket, batch), answer.why).0, after))
  {
    hide PostChanges, AfterSaveOk, AfterSaveErr;
  }

  /** Each of the step's weeks is as it is on that side, and everything else as it was. */
  ghost predicate Shows(after: Db, before: Db, step: Step, travel: Travel) {
    && after.homework == before.homework
    && forall week :: RowOf(after.weeks, week).blocks
                        == if week in step.weeks then SideOf(step.weeks[week], travel)
                           else RowOf(before.weeks, week).blocks
  }

  lemma SideIsShown(before: Db, after: Db, batch: Batch, reply: Reply, step: Step, travel: Travel)
    requires WritesSide(before.weeks, batch, step, travel)
    requires Stored(batch, before, after, reply) && OthersStay(batch, before, after)
    ensures Shows(after, before, step, travel)
  {
    forall week
      ensures RowOf(after.weeks, week).blocks
           == if week in step.weeks then SideOf(step.weeks[week], travel) else RowOf(before.weeks, week).blocks
    {
      if week in step.weeks {
        var i :| 0 <= i < |batch.weeks| && batch.weeks[i].week == week;
        assert RowOf(after.weeks, batch.weeks[i].week) == Row(batch.weeks[i].blocks, reply.weeks[i].rev);
      } else if i :| 0 <= i < |batch.weeks| && batch.weeks[i].week == week {
        assert batch.weeks[i].week in step.weeks;
      }
    }
  }

  /** A travel's batch on the server and its answer in the window. */
  lemma TravelHeard(d: Cursor.Desk, s: State, batch: Batch, step: Step, token: string)
    requires s.open.dirtyHw == {} && s.travel != Still && s.travelStep == Some(step) && s.open.week in step.weeks
    requires !step.stale && step.homework == map[] && WritesSide(d.db.weeks, batch, step, s.travel)
    requires Cursor.Fresh(d.db, batch.op) && AllStorable(d.db, step, s.travel)
    ensures var u := Cursor.Exchange(d.(s := s), Some(PostSave(s.ticket, batch)), Cursor.Heard, token).0;
            && Ready(u, Opposite(s.travel)) && u.s.open.week == s.open.week
            && Cursor.SameStep(Newest(u, Opposite(s.travel)), step)
            && Cursor.Stack(u.s.open, s.travel) == Cursor.Stack(s.open, s.travel)
            && Shows(u.db, d.db, step, s.travel)
  {
    SideCanBeStored(d.db, batch, step, s.travel);
    BatchOfWeeksLands(d.db, batch, token);
    ExchangeHeard(d.(s := s), batch, token);
    hide Cursor.Exchange, PostChanges, Heard, AllStorable, CanBeStored, Ready, Stored, OthersStay, WritesSide, Shows;
    var (after, answer) := PostChanges(d.db, batch, token);
    TravelTaken(s, batch, d.db, after, answer.value.reply, step);
    SideIsShown(d.db, after, batch, answer.value.reply, step, s.travel);
  }

  lemma SideCanBeStored(db: Db, batch: Batch, step: Step, travel: Travel)
    requires WritesSide(db.weeks, batch, step, travel)
    ensures DistinctWeeks(batch.weeks) && batch.homework == [] && batch.pointName.None?
    ensures forall i :: 0 <= i < |batch.weeks| ==> Current(db.weeks, batch.weeks[i])
    ensures AllStorable(db, step, travel)
       <==> forall i :: 0 <= i < |batch.weeks| ==> CanBeStored(db.homework, batch.weeks[i].blocks)
  {
    hide CanBeStored;
    if forall i :: 0 <= i < |batch.weeks| ==> CanBeStored(db.homework, batch.weeks[i].blocks) {
      forall week <- step.weeks ensures CanBeStored(db.homework, SideOf(step.weeks[week], travel)) {
        var i :| 0 <= i < |batch.weeks| && batch.weeks[i].week == week;
      }
    }
  }

  /** One the store refuses leaves both sides where they were. */
  lemma TravelRefused(d: Cursor.Desk, s: State, batch: Batch, step: Step, token: string)
    requires s.travel != Still && s.travelStep == Some(step) && !s.open.conflict
    requires Row(s.open.committed, s.open.rev) == RowOf(d.db.weeks, s.open.week)
    requires WritesSide(d.db.weeks, batch, step, s.travel) && Cursor.Fresh(d.db, batch.op)
    requires !AllStorable(d.db, step, s.travel)
    ensures var u := Cursor.Exchange(d.(s := s), Some(PostSave(s.ticket, batch)), Cursor.Heard, token).0;
            && u.db == d.db && InStep(u) && u.s.open.week == s.open.week
            && Cursor.Stack(u.s.open, s.travel) == Cursor.Stack(s.open, s.travel) + [step]
  {
    SideCanBeStored(d.db, batch, step, s.travel);
    BatchOfWeeksLands(d.db, batch, token);
    ExchangeHeard(d.(s := s), batch, token);
    hide Cursor.Exchange, PostChanges, AllStorable, CanBeStored, WritesSide, Stored, OthersStay, RowOf;
  }

  /** Undo and redo of a step, in whichever weeks, in a window in step with the account. When every week may be
      stored as the step has it on that side, each is that on the server and in the window, everything else is
      as it was, and the step can be travelled back; otherwise nothing changes on either side. */
  lemma TravelMoves(d: Cursor.Desk, travel: Travel, op: string, token: string)
    requires Ready(d, travel) && travel != Still && Cursor.Fresh(d.db, op)
    ensures var to, step, stack := After(d, travel, op, token), Newest(d, travel), Cursor.Stack(d.s.open, travel);
            && InStep(to) && to.s.open.week == d.s.open.week
            && if AllStorable(d.db, step, travel) then
                 && Ready(to, Opposite(travel)) && Cursor.SameStep(Newest(to, Opposite(travel)), step)
                 && Cursor.Stack(to.s.open, travel) == stack[..|stack| - 1]
                 && Shows(to.db, d.db, step, travel)
               else
                 to.db == d.db && Cursor.Stack(to.s.open, travel) == stack
  {
    hide AfterSaveOk;
    var step, stack := Newest(d, travel), Cursor.Stack(d.s.open, travel);
    var s, batch := TravelGoes(d, travel, op, token);
    hide Ready, InStep, After, Cursor.Exchange, WritesSide, AllStorable, Shows, Cursor.SameStep;
    if AllStorable(d.db, step, travel) {
      TravelHeard(d, s, batch, step, token);
    } else {
      TravelRefused(d, s, batch, step, token);
      assert stack == stack[..|stack| - 1] + [step];
    }
  }

  /** What a travel sends, and the window while it is on its way. */
  lemma TravelGoes(d: Cursor.Desk, travel: Travel, op: string, token: string) returns (s: State, batch: Batch)
    requires Ready(d, travel) && travel != Still && Cursor.Fresh(d.db, op)
    ensures var step, stack := Newest(d, travel), Cursor.Stack(d.s.open, travel);
            && s.open.dirtyHw == {} && s.travel == travel && s.travelStep == Some(step)
            && s.open.week == d.s.open.week && s.open.week in step.weeks && !s.open.conflict
            && !step.stale && step.homework == map[]
            && Row(s.open.committed, s.open.rev) == RowOf(d.db.weeks, s.open.week)
            && Cursor.Stack(s.open, travel) == stack[..|stack| - 1]
            && WritesSide(d.db.weeks, batch, step, travel) && batch.op == op
            && After(d, travel, op, token)
               == Cursor.Exchange(d.(s := s), Some(PostSave(s.ticket, batch)), Cursor.Heard, token).0
  {
    s, batch := PoisedGoes(d, travel, op, token);
    hide After, Cursor.Exchange, WritesSide;
    var going := Going(d, travel);
    SideIsWritten(d.db.weeks, going, Newest(d, travel), op);
  }

  /** The same whatever became of the step's other weeks. */
  lemma PoisedGoes(d: Cursor.Desk, travel: Travel, op: string, token: string) returns (s: State, batch: Batch)
    requires Poised(d, travel) && travel != Still
    requires Cursor.Stack(WithoutStale(d.s).open, travel) != []
    ensures var step, stack, going := Newest(d, travel), Cursor.Stack(d.s.open, travel), Going(d, travel);
            && s.open.dirtyHw == {} && s.travel == travel && s.travelStep == Some(step)
            && s.open.week == d.s.open.week && !s.open.conflict
            && Row(s.open.committed, s.open.rev) == RowOf(d.db.weeks, s.open.week)
            && Cursor.Stack(s.open, travel) == stack[..|stack| - 1]
            && going.travelStep == s.travelStep && going.travel == travel && going.open.dirtyHw == {}
            && going.open.week == s.open.week && going.open.rev == d.s.open.rev
            && going.open.blocks == SideOf(step.weeks[s.open.week], travel)
            && batch == BuildBatch(going, op)
            && After(d, travel, op, token)
               == Cursor.Exchange(d.(s := s), Some(PostSave(s.ticket, batch)), Cursor.Heard, token).0
  {
    PoisedIsLive(d, travel);
    TravelSent(d, travel, op);
    GoingIs(d, travel);
    var going := Going(d, travel);
    batch := BuildBatch(going, op);
    s := if travel == Undoing then AfterUndo(d.s, op).0 else AfterRedo(d.s, op).0;
    AfterIs(d, travel, op, token);
    assert going.open.committed == d.s.open.committed;
    hide Going, BuildBatch, After, AfterUndo, AfterRedo, Cursor.Exchange, SideOf;
  }

  lemma AfterIs(d: Cursor.Desk, travel: Travel, op: string, token: string)
    requires travel != Still
    ensures var (s, call) := if travel == Undoing then AfterUndo(d.s, op) else AfterRedo(d.s, op);
            After(d, travel, op, token) == Cursor.Exchange(d.(s := s), call, Cursor.Heard, token).0
  {
    hide AfterUndo, AfterRedo, Cursor.Exchange;
  }

  // ----- Another week has changed since -----

  /** The write is not what the week reads as, nor at its revision. */
  predicate Behind(weeks: Weeks, write: WeekWrite) {
    write.rev != RowOf(weeks, write.week).rev && write.blocks != RowOf(weeks, write.week).blocks
  }

  /** One write that is behind refuses them all. */
  lemma {:induction false} OneBehindRefusesAll(db: Db, writes: seq<WeekWrite>, at: nat)
    requires DistinctWeeks(writes) && at < |writes| && Behind(db.weeks, writes[at])
    ensures RunWeeks(db, writes).Refused?
  {
    hide Owned, RepeatsId;
    var front, last := writes[..|writes| - 1], writes[|writes| - 1];
    NoLostUpdate.MentionsMore(writes, last.week);
    if at < |front| {
      OneBehindRefusesAll(db, front, at);
    } else if RunWeeks(db, front).Done? {
      NoLostUpdate.WritesInPlace(db, front);
      hide NoLostUpdate.Mentions;
      assert RowOf(RunWeeks(db, front).value.0.weeks, last.week) == RowOf(db.weeks, last.week);
    }
  }

  /** An undo or redo of a step whose other week was changed elsewhere, and not to what the step would make of it,
      is refused: no week changes on the server, and the step is back on its stack. */
  lemma RefusedWhenAnotherWeekChanged(d: Cursor.Desk, travel: Travel, op: string, token: string, week: string)
    requires Poised(d, travel) && travel != Still && Cursor.Fresh(d.db, op)
    requires var step := Newest(d, travel);
             && week in step.weeks && week != d.s.open.week
             && step.weeks[week].rev != RowOf(d.db.weeks, week).rev
             && SideOf(step.weeks[week], travel) != RowOf(d.db.weeks, week).blocks
    ensures var to := After(d, travel, op, token);
            && to.db == d.db && to.s.open.week == d.s.open.week
            && Cursor.Stack(to.s.open, travel) == Cursor.Stack(d.s.open, travel)
  {
    PoisedIsLive(d, travel);
    PoisedStack(d, travel);
    hide *;
    var s, batch := PoisedGoes(d, travel, op, token);
    var step, stack := Newest(d, travel), Cursor.Stack(d.s.open, travel);
    OtherWeekIsBehind(d.db.weeks, Going(d, travel), step, op, week);
    BehindEnds(d, s, batch, token);
  }

  lemma PoisedStack(d: Cursor.Desk, travel: Travel)
    requires Poised(d, travel)
    ensures var stack := Cursor.Stack(d.s.open, travel);
            stack != [] && stack == stack[..|stack| - 1] + [Newest(d, travel)]
  {
  }

  lemma BehindEnds(d: Cursor.Desk, s: State, batch: Batch, token: string)
    requires DistinctWeeks(batch.weeks) && batch.homework == [] && batch.pointName.None? && Cursor.Fresh(d.db, batch.op)
    requires exists at :: 0 <= at < |batch.weeks| && Behind(d.db.weeks, batch.weeks[at])
    requires s.travel != Still && s.travelStep.Some?
    ensures var u := Cursor.Exchange(d.(s := s), Some(PostSave(s.ticket, batch)), Cursor.Heard, token).0;
            && u.db == d.db && u.s.open.week == s.open.week
            && Cursor.Stack(u.s.open, s.travel) == Cursor.Stack(s.open, s.travel) + [s.travelStep.value]
  {
    hide Behind;
    BehindIsRefused(d.db, batch, token);
    ExchangeHeard(d.(s := s), batch, token);
    PutBackOn(s, batch, PostChanges(d.db, batch, token).1.why);
    hide PostChanges, AfterSaveErr, Cursor.Exchange;
  }

  lemma OtherWeekIsBehind(weeks: Weeks, s: State, step: Step, op: string, week: string)
    requires s.travelStep == Some(step) && s.open.dirtyHw == {} && week in step.weeks && week != s.open.week
    requires step.weeks[week].rev != RowOf(weeks, week).rev
    requires SideOf(step.weeks[week], s.travel) != RowOf(weeks, week).blocks
    ensures var batch := BuildBatch(s, op);
            && batch.homework == [] && batch.pointName.None? && batch.op == op && DistinctWeeks(batch.weeks)
            && exists at :: 0 <= at < |batch.weeks| && Behind(weeks, batch.weeks[at])
  {
    ExtraAre(s, step);
    TravelBuilds(s, step, op);
    hide BuildBatch, Sorted, ExtraWeeks, RowOf, SideOf, Distinct, DistinctWeeks;
    var batch, others := BuildBatch(s, op), Sorted(ExtraWeeks(s));
    FirstThenOthers(batch.weeks, others);
    var i :| 0 <= i < |others| && others[i] == week;
    assert batch.weeks[i + 1].week == week;
    assert Behind(weeks, batch.weeks[i + 1]);
  }

  lemma BehindIsRefused(db: Db, batch: Batch, token: string)
    requires DistinctWeeks(batch.weeks) && batch.homework == [] && batch.pointName.None? && Cursor.Fresh(db, batch.op)
    requires exists at :: 0 <= at < |batch.weeks| && Behind(db.weeks, batch.weeks[at])
    ensures PostChanges(db, batch, token).1.Refused? && PostChanges(db, batch, token).0 == db
  {
    Cursor.FreshIsMissing(db, batch.op, ChangesPayload(batch));
    assert RunUpserts(db.homework, []) == Done((db.homework, []));
    assert RunDeletes(db, []) == Done((db, []));
    assert db.(homework := db.homework) == db;
    hide Behind;
    var at :| 0 <= at < |batch.weeks| && Behind(db.weeks, batch.weeks[at]);
    OneBehindRefusesAll(db, batch.weeks, at);
  }

  lemma PutBackOn(s: State, batch: Batch, why: Refusal)
    requires s.travel != Still && s.travelStep.Some?
    ensures var u := AfterSaveErr(s, PostSave(s.ticket, batch), why).0;
            && u.open.week == s.open.week
            && Cursor.Stack(u.open, s.travel) == Cursor.Stack(s.open, s.travel) + [s.travelStep.value]
  {
  }

  // ----- A block moved to another week -----

  /** The other week as the move takes it: from its parked draft when that has edits, or as fetched. */
  function Destination(d: Cursor.Desk, to: string): Row {
    if to in d.s.drafts && d.s.drafts[to].dirty then Row(d.s.drafts[to].blocks, d.s.drafts[to].rev)
    else RowOf(d.db.weeks, to)
  }

  /** The move's save as it is sent, the other week fetched first if need be. */
  function MoveSent(d: Cursor.Desk, to: string, sourceAfter: seq<Block>, destAfter: seq<Block>, op: string,
                    name: string): (State, Option<Call>)
  {
    var (s, call) := AfterMove(d.s, to, sourceAfter, destAfter, op, name);
    if call.Some? && call.value.GetDestination? then
      AfterDestination(s, call.value, RowOf(d.db.weeks, to), sourceAfter, destAfter, op, name)
    else (s, call)
  }

  /** The move, its save heard and answered. */
  function Moved(d: Cursor.Desk, to: string, sourceAfter: seq<Block>, destAfter: seq<Block>, op: string, name: string,
                 token: string): Cursor.Desk
  {
    var (s, call) := MoveSent(d, to, sourceAfter, destAfter, op, name);
    Cursor.Exchange(d.(s := s), call, Cursor.Heard, token).0
  }

  /** Both weeks are at the server's own revisions, and nothing is on its way. */
  predicate CanMove(d: Cursor.Desk, to: string) {
    && AtRest(d.s) && !d.s.open.conflict && d.s.open.pending.None? && to != d.s.open.week
    && d.s.open.rev == RowOf(d.db.weeks, d.s.open.week).rev
    && Destination(d, to).rev == RowOf(d.db.weeks, to).rev
  }

  /** The world as the window shows it: the open week and the other one as they are there, edits included. */
  function ShownWorld(d: Cursor.Desk, to: string): World {
    var world := WorldOf(d.db);
    world.(weeks := world.weeks[d.s.open.week := d.s.open.blocks][to := Destination(d, to).blocks])
  }

  lemma MoveIsSent(d: Cursor.Desk, to: string, sourceAfter: seq<Block>, destAfter: seq<Block>, op: string, name: string)
    requires CanMove(d, to)
    ensures var (s, call) := MoveSent(d, to, sourceAfter, destAfter, op, name);
            var dest, home := Destination(d, to), d.s.open.week;
            && s.open.pending.Some? && call == Some(PostSave(s.ticket, s.open.pending.value))
            && s.open.pending.value
               == Batch([WeekWrite(home, sourceAfter, d.s.open.rev), WeekWrite(to, destAfter, dest.rev)], [], op, None)
            && s.open.step == Some(Step(name, map[home := WeekChange(d.s.open.blocks, sourceAfter, 0),
                                                  to := WeekChange(dest.blocks, destAfter, 0)], map[], false))
            && s.open == d.s.open.(pending := s.open.pending, step := s.open.step, name := name)
            && s == d.s.(open := s.open, ticket := d.s.ticket + 1, busy := true)
  {
  }

  /** The step of a move, with what was stored, takes what was shown to what is there. */
  lemma MoveTakes(d: Cursor.Desk, step: Step, batch: Batch, after: Db, to: string)
    requires to != d.s.open.week && OthersStay(batch, d.db, after) && after.homework == d.db.homework
    requires |batch.weeks| == 2 && batch.weeks[0].week == d.s.open.week && batch.weeks[1].week == to
    requires step.weeks.Keys == {d.s.open.week, to} && step.homework == map[]
    requires step.weeks[d.s.open.week].before == d.s.open.blocks && step.weeks[to].before == Destination(d, to).blocks
    requires forall week <- step.weeks :: step.weeks[week].after == RowOf(after.weeks, week).blocks
    ensures Takes(step, ShownWorld(d, to), WorldOf(after))
  {
    hide Destination;
    forall week
      ensures if week in step.weeks
              then step.weeks[week].before == BlocksOf(ShownWorld(d, to), week)
                   && step.weeks[week].after == BlocksOf(WorldOf(after), week)
              else BlocksOf(ShownWorld(d, to), week) == BlocksOf(WorldOf(after), week)
    {
      WorldShowsRows(after, week);
      WorldShowsRows(d.db, week);
      if week !in step.weeks {
        assert !NoLostUpdate.Mentions(batch.weeks, week);
      }
    }
  }

  lemma HeardKeepsWeek(s: State, batch: Batch, reply: Reply)
    ensures Heard(s, batch, reply).open.week == s.open.week
  {
    hide LandedWork;
    Parking.LandedKeepsWeek(s, reply);
  }

  lemma MoveRows(batch: Batch, before: Db, after: Db, reply: Reply)
    requires |batch.weeks| == 2 && Stored(batch, before, after, reply)
    ensures RowOf(after.weeks, batch.weeks[0].week).blocks == batch.weeks[0].blocks
    ensures RowOf(after.weeks, batch.weeks[1].week).blocks == batch.weeks[1].blocks
    ensures after.homework == before.homework && reply.homework == []
  {
  }

  lemma MoveTaken(d: Cursor.Desk, s: State, batch: Batch, after: Db, reply: Reply, to: string, sourceAfter: seq<Block>,
                  destAfter: seq<Block>)
    requires to != d.s.open.week && s.open.week == d.s.open.week && s.travel == Still && !s.join
    requires |batch.weeks| == 2
    requires batch.weeks[0].week == s.open.week && batch.weeks[0].blocks == sourceAfter
    requires batch.weeks[1].week == to && batch.weeks[1].blocks == destAfter
    requires Stored(batch, d.db, after, reply) && OthersStay(batch, d.db, after)
    requires s.open.step.Some? && !s.open.step.value.stale && s.open.step.value.homework == map[]
    requires s.open.step.value.weeks
          == map[s.open.week := WeekChange(d.s.open.blocks, sourceAfter, 0),
                 to := WeekChange(Destination(d, to).blocks, destAfter, 0)]
    ensures var u := Cursor.Desk(Heard(s, batch, reply), after);
            && u.s.open.week == s.open.week && u.s.open.undo != [] && u.s.open.redo == []
            && RowOf(after.weeks, s.open.week).blocks == sourceAfter && RowOf(after.weeks, to).blocks == destAfter
            && Takes(Newest(u, Undoing), ShownWorld(d, to), WorldOf(after))
            && Newest(u, Undoing).weeks.Keys == {s.open.week, to}
            && (s.open.dirtyHw == {} ==> Ready(u, Undoing))
  {
    var step := AsStored(s.open.step.value, reply.weeks, s.open.homework);
    MoveRows(batch, d.db, after, reply);
    BothFound(batch, d.db, after, reply);
    MoveStepStored(s.open, after, reply, to);
    HeardKeepsWeek(s, batch, reply);
    StacksTaken(s, batch, reply);
    PushedIsNewest(s.open.undo, step);
    hide AsStored, Stored, PushStep, Ready, Takes, FindWeek, OthersStay, Destination, Heard, ShownWorld, InStep,
      WorldOf, RevisionsKnown;
    MoveTakes(d, step, batch, after, to);
    if s.open.dirtyHw == {} {
      WeekTaken(s, batch, after, reply);
      IsReady(Cursor.Desk(Heard(s, batch, reply), after), Undoing, step);
    }
  }

  lemma BothFound(batch: Batch, before: Db, after: Db, reply: Reply)
    requires |batch.weeks| == 2 && batch.weeks[0].week != batch.weeks[1].week && Stored(batch, before, after, reply)
    ensures forall i :: 0 <= i < 2 ==>
              var week := batch.weeks[i].week;
              FindWeek(reply.weeks, week)
                == Some(WeekWrite(week, RowOf(after.weeks, week).blocks, RowOf(after.weeks, week).rev))
  {
    forall i | 0 <= i < 2
      ensures var week := batch.weeks[i].week;
              FindWeek(reply.weeks, week)
                == Some(WeekWrite(week, RowOf(after.weeks, week).blocks, RowOf(after.weeks, week).rev))
    {
      ReplyFound(batch, before, after, reply, batch.weeks[i].week);
      assert NoLostUpdate.Mentions(batch.weeks, batch.weeks[i].week);
    }
  }

  lemma MoveStepStored(work: WeekWork, after: Db, reply: Reply, to: string)
    requires work.step.Some? && work.step.value.weeks.Keys == {work.week, to} && work.step.value.homework == map[]
    requires forall week <- {work.week, to} ::
               FindWeek(reply.weeks, week)
                 == Some(WeekWrite(week, RowOf(after.weeks, week).blocks, RowOf(after.weeks, week).rev))
    ensures var step, kept := work.step.value, AsStored(work.step.value, reply.weeks, work.homework);
            && kept.weeks.Keys == step.weeks.Keys && kept.stale == step.stale && kept.homework == map[]
            && RevisionsKnown(after.weeks, work.week, kept)
            && forall week <- step.weeks :: kept.weeks[week].before == step.weeks[week].before
                                            && kept.weeks[week].after == RowOf(after.weeks, week).blocks
  {
    hide FindWeek;
  }

  /** A move is taken up exactly when nothing is on its way, in conflict or waiting to be sent and it goes to
      another week; otherwise the session stays as it is. */
  lemma MoveGoesExactlyWhen(s: State, to: string, sourceAfter: seq<Block>, destAfter: seq<Block>, op: string,
                            name: string)
    ensures var (after, call) := AfterMove(s, to, sourceAfter, destAfter, op, name);
            && (call.Some? <==> !s.open.conflict && !s.busy && s.open.pending.None? && to != s.open.week)
            && (call.None? ==> after == s)
            && (call.Some? ==> after.open.blocks == s.open.blocks && after.busy && after.drafts == s.drafts)
  {
  }

  /** A move that lands: both weeks are what it made of them, on the server and in the step it leaves, and that
      step takes the world the window showed to the world there is now. */
  lemma MoveLands(d: Cursor.Desk, to: string, sourceAfter: seq<Block>, destAfter: seq<Block>, op: string, name: string,
                  token: string)
    requires CanMove(d, to) && Cursor.Fresh(d.db, op)
    ensures var u, home := Moved(d, to, sourceAfter, destAfter, op, name, token), d.s.open.week;
            && u.s.open.week == home && u.db.homework == d.db.homework
            && if CanBeStored(d.db.homework, sourceAfter) && CanBeStored(d.db.homework, destAfter) then
                 && RowOf(u.db.weeks, home).blocks == sourceAfter && RowOf(u.db.weeks, to).blocks == destAfter
                 && u.s.open.undo != [] && u.s.open.redo == []
                 && Takes(Newest(u, Undoing), ShownWorld(d, to), WorldOf(u.db))
                 && Newest(u, Undoing).weeks.Keys == {home, to}
                 && (d.s.open.dirtyHw == {} ==> Ready(u, Undoing))
               else u.db == d.db && u.s.open.blocks == d.s.open.blocks && u.s.open.pending.Some?
  {
    MoveIsSent(d, to, sourceAfter, destAfter, op, name);
    var (s, call) := MoveSent(d, to, sourceAfter, destAfter, op, name);
    var batch := s.open.pending.value;
    BatchOfWeeksLands(d.db, batch, token);
    ExchangeHeard(d.(s := s), batch, token);
    hide MoveSent, Cursor.Exchange, PostChanges, Heard;
    var (after, answer) := PostChanges(d.db, batch, token);
    assert batch.weeks[0].blocks == sourceAfter && batch.weeks[1].blocks == destAfter;
    if answer.Done? {
      MoveTaken(d, s, batch, after, answer.value.reply, to, sourceAfter, destAfter);
    }
  }

  // ----- There, back, and there again -----

  /** A world one side of a step, and the step shown on the other side. */
  lemma ShowsTheOtherWorld(step: Step, a: World, b: World, before: Db, after: Db, travel: Travel)
    requires Takes(step, a, b) && step.homework == map[] && Shows(after, before, step, travel) && travel != Still
    requires SameWorld(WorldOf(before), if travel == Undoing then b else a)
    ensures SameWorld(WorldOf(after), if travel == Undoing then a else b)
  {
    var here, there := if travel == Undoing then b else a, if travel == Undoing then a else b;
    forall week ensures BlocksOf(WorldOf(after), week) == BlocksOf(there, week) {
      WorldShowsRows(after, week);
      WorldShowsRows(before, week);
      assert BlocksOf(WorldOf(before), week) == BlocksOf(here, week);
    }
    forall id ensures Lookup(a.bodies, id) == Lookup(b.bodies, id) {
      assert id !in step.homework;
    }
    SameLookups(a.bodies, b.bodies);
  }

  lemma SameStepTakes(step: Step, kept: Step, a: World, b: World)
    requires Takes(step, a, b) && Cursor.SameStep(kept, step)
    ensures Takes(kept, a, b) && kept.weeks.Keys == step.weeks.Keys
  {
    forall week
      ensures if week in kept.weeks
              then kept.weeks[week].before == BlocksOf(a, week) && kept.weeks[week].after == BlocksOf(b, week)
              else BlocksOf(a, week) == BlocksOf(b, week)
    {
      assert week in kept.weeks <==> week in step.weeks;
    }
  }

  lemma ExchangeStaysFresh(d: Cursor.Desk, batch: Batch, token: string, other: string)
    requires Cursor.Fresh(d.db, other) && other != batch.op
    ensures Cursor.Fresh(Cursor.Exchange(d, Some(PostSave(d.s.ticket, batch)), Cursor.Heard, token).0.db, other)
  {
    hide AfterSaveOk, AfterSaveErr, RunBatch;
    if Runs(d.db, Post(batch, token)) {
      RunBatchKeepsLog(d.db, batch, token);
    }
  }

  lemma TravelStaysFresh(d: Cursor.Desk, travel: Travel, op: string, token: string, other: string)
    requires Ready(d, travel) && travel != Still && Cursor.Fresh(d.db, op)
    requires Cursor.Fresh(d.db, other) && other != op
    ensures Cursor.Fresh(After(d, travel, op, token).db, other)
  {
    hide After, Cursor.Exchange, Ready;
    var s, batch := TravelGoes(d, travel, op, token);
    ExchangeStaysFresh(d.(s := s), batch, token, other);
  }

  lemma MoveStaysFresh(d: Cursor.Desk, to: string, sourceAfter: seq<Block>, destAfter: seq<Block>, op: string,
                       name: string, token: string, other: string)
    requires CanMove(d, to) && Cursor.Fresh(d.db, other) && other != op
    ensures Cursor.Fresh(Moved(d, to, sourceAfter, destAfter, op, name, token).db, other)
  {
    MoveIsSent(d, to, sourceAfter, destAfter, op, name);
    hide MoveSent, Cursor.Exchange, Destination;
    var (s, call) := MoveSent(d, to, sourceAfter, destAfter, op, name);
    ExchangeStaysFresh(d.(s := s), s.open.pending.value, token, other);
  }

  /** Undo of a step of worlds whose earlier side may be stored, then its redo: the account is the one world
      and then the other again. */
  lemma BackAndAgain(d: Cursor.Desk, a: World, op: string, token: string, again: string, other: string)
    requires Ready(d, Undoing) && Takes(Newest(d, Undoing), a, WorldOf(d.db))
    requires Cursor.Fresh(d.db, op) && Cursor.Fresh(d.db, again) && op != again
    requires AllStorable(d.db, Newest(d, Undoing), Undoing) && AllStorable(d.db, Newest(d, Undoing), Redoing)
    ensures var back := After(d, Undoing, op, token);
            var redone := After(back, Redoing, again, other);
            && SameWorld(WorldOf(back.db), a) && InStep(back) && back.s.open.week == d.s.open.week
            && SameWorld(WorldOf(redone.db), WorldOf(d.db)) && Ready(redone, Undoing)
            && redone.s.open.week == d.s.open.week
  {
    var step, b := Newest(d, Undoing), WorldOf(d.db);
    TravelMoves(d, Undoing, op, token);
    TravelStaysFresh(d, Undoing, op, token, again);
    var back := After(d, Undoing, op, token);
    var kept := Newest(back, Redoing);
    StorableStays(d.db, back.db, step, kept);
    hide After, InStep, Shows, AllStorable, WorldOf, Takes, SameWorld;
    TravelMoves(back, Redoing, again, other);
    var redone := After(back, Redoing, again, other);
    SameStepTakes(step, kept, a, b);
    SameWorldItself(b);
    ShowsTheOtherWorld(step, a, b, d.db, back.db, Undoing);
    ShowsTheOtherWorld(kept, a, b, back.db, redone.db, Redoing);
  }

  lemma SameWorldItself(a: World)
    ensures SameWorld(a, a)
  {
  }

  lemma StorableStays(before: Db, after: Db, step: Step, kept: Step)
    requires AllStorable(before, step, Redoing) && after.homework == before.homework && Cursor.SameStep(kept, step)
    ensures AllStorable(after, kept, Redoing)
  {
    hide CanBeStored;
  }

  lemma MoveIsStorable(d: Cursor.Desk, moved: Cursor.Desk, to: string)
    requires to != d.s.open.week && moved.db.homework == d.db.homework && moved.s.open.undo != []
    requires Takes(Newest(moved, Undoing), ShownWorld(d, to), WorldOf(moved.db))
    requires Newest(moved, Undoing).weeks.Keys == {d.s.open.week, to}
    requires CanBeStored(d.db.homework, d.s.open.blocks) && CanBeStored(d.db.homework, Destination(d, to).blocks)
    requires CanBeStored(d.db.homework, RowOf(moved.db.weeks, d.s.open.week).blocks)
    requires CanBeStored(d.db.homework, RowOf(moved.db.weeks, to).blocks)
    ensures AllStorable(moved.db, Newest(moved, Undoing), Undoing)
    ensures AllStorable(moved.db, Newest(moved, Undoing), Redoing)
  {
    hide CanBeStored, Destination;
    WorldShowsRows(moved.db, d.s.open.week);
    WorldShowsRows(moved.db, to);
  }

  /** In step, the window shows what the server has. */
  lemma OnTheScreen(d: Cursor.Desk)
    requires InStep(d)
    ensures d.s.open.blocks == BlocksOf(WorldOf(d.db), d.s.open.week)
  {
    WorldShowsRows(d.db, d.s.open.week);
  }

  /** A block moved to another week, the move taken back and made again, each heard and answered. Taken back,
      every week and all homework are what the window showed before it, on the server and on the screen; made
      again, they are what the move made of them. */
  lemma MovedBackAndAgain(d: Cursor.Desk, to: string, sourceAfter: seq<Block>, destAfter: seq<Block>, name: string,
                          ops: (string, string, string), tokens: (string, string, string))
    requires CanMove(d, to) && d.s.open.dirtyHw == {}
    requires Cursor.Fresh(d.db, ops.0) && Cursor.Fresh(d.db, ops.1) && Cursor.Fresh(d.db, ops.2)
    requires Distinct([ops.0, ops.1, ops.2])
    requires CanBeStored(d.db.homework, sourceAfter) && CanBeStored(d.db.homework, destAfter)
    requires CanBeStored(d.db.homework, d.s.open.blocks) && CanBeStored(d.db.homework, Destination(d, to).blocks)
    ensures var moved := Moved(d, to, sourceAfter, destAfter, ops.0, name, tokens.0);
            var back := After(moved, Undoing, ops.1, tokens.1);
            var again := After(back, Redoing, ops.2, tokens.2);
            && RowOf(moved.db.weeks, d.s.open.week).blocks == sourceAfter
            && RowOf(moved.db.weeks, to).blocks == destAfter
            && SameWorld(WorldOf(back.db), ShownWorld(d, to)) && back.s.open.blocks == d.s.open.blocks
            && SameWorld(WorldOf(again.db), WorldOf(moved.db)) && again.s.open.blocks == sourceAfter
  {
    assert [ops.0, ops.1, ops.2][0] == ops.0 && [ops.0, ops.1, ops.2][1] == ops.1 && [ops.0, ops.1, ops.2][2] == ops.2;
    MoveLands(d, to, sourceAfter, destAfter, ops.0, name, tokens.0);
    MoveStaysFresh(d, to, sourceAfter, destAfter, ops.0, name, tokens.0, ops.1);
    MoveStaysFresh(d, to, sourceAfter, destAfter, ops.0, name, tokens.0, ops.2);
    var moved := Moved(d, to, sourceAfter, destAfter, ops.0, name, tokens.0);
    MoveIsStorable(d, moved, to);
    hide Moved, After, CanMove, Takes, WorldOf, SameWorld, AllStorable, CanBeStored, Ready;
    BackAndAgain(moved, ShownWorld(d, to), ops.1, tokens.1, ops.2, tokens.2);
    var back := After(moved, Undoing, ops.1, tokens.1);
    OnTheScreen(back);
    OnTheScreen(After(back, Redoing, ops.2, tokens.2));
  }
}
