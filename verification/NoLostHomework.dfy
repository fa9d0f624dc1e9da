/** Homework over every run of windows, server and network: a homework row is changed or deleted only by a
    window that had been shown the row it replaces, unless that row was deleted and made again in between. */
module NoLostHomework {
  import opened Basics
  import opened Names
  import opened Store
  import opened Prediction
  import opened RetryOnce
  import opened History
  import opened Session
  import opened RoundTrip
  import opened Protocol
  import NoLostUpdate

  // ----- One transaction, homework by homework -----

  predicate Named(writes: seq<HwWrite>, id: string) {
    exists write <- writes :: write.id == id
  }

  lemma DeletedHad(db: Db, writes: seq<HwWrite>)
    requires RoundTrip.DistinctIds(writes) && RunDeletes(db, writes).Done?
    ensures var (after, results) := RunDeletes(db, writes).value;
            && after.homework == db.homework - DeletedIds(writes)
            && (forall write <- writes | write.body.None? ::
                  Puts(RowIn(db.homework, write.id), write, RowIn(after.homework, write.id)))
            && (forall result <- results :: result.HwGone?)
  {
    DeletesMoveWeeks(db, writes);
    RevisionsMatch(db, writes);
    hide RunDeletes;
    forall write <- writes | write.body.None? ensures write.id in DeletedIds(writes) {
    }
  }

  lemma {:induction false} RevisionsMatch(db: Db, writes: seq<HwWrite>)
    requires RoundTrip.DistinctIds(writes) && RunDeletes(db, writes).Done?
    ensures forall write <- writes | write.body.None? ::
              write.id in db.homework && db.homework[write.id].rev == write.rev
    ensures forall result <- RunDeletes(db, writes).value.1 :: result.HwGone?
  {
    hide RoundTrip.DistinctIds, CutAll, GoneResult, DeletedIds;
    if writes != [] {
      var front, last := writes[..|writes| - 1], writes[|writes| - 1];
      LastIsNew(writes);
      assert writes == front + [last];
      RevisionsMatch(db, front);
      DeletesMoveWeeks(db, front);
      if last.body.None? {
        var before := RunDeletes(db, front).value.0;
        assert last.id in before.homework && before.homework[last.id].rev == last.rev;
        GoneNames(before.weeks, last.id);
      }
    }
  }

  /** A batch changes exactly the homework it names, each as its write says, and its reply tells the new rows. */
  lemma BatchOnHomework(db: Db, batch: Batch, token: string)
    requires RoundTrip.DistinctIds(batch.homework) && RunBatch(db, batch, token).Done?
    ensures var (after, reply) := RunBatch(db, batch, token).value;
            && (forall id | !Named(batch.homework, id) :: RowIn(after.homework, id) == RowIn(db.homework, id))
            && (forall write <- batch.homework ::
                  Puts(RowIn(db.homework, write.id), write, RowIn(after.homework, write.id)))
            && (forall result <- reply.homework | result.HwSaved? :: ToldBy(result, after.homework))
  {
    hide RunUpserts, RunDeletes, Puts, RoundTrip.DistinctIds, PutResults, Answers;
    var writes := batch.homework;
    var marked := WithPoint(db, batch.pointName, token);
    assert marked.homework == db.homework;
    var (homework, saved) := RunUpserts(db.homework, writes).value;
    UpsertRows(db.homework, writes);
    UpsertPass(db.homework, writes);
    var ready := marked.(homework := homework);
    DeletedHad(ready, writes);
    var (trimmed, gone) := RunDeletes(ready, writes).value;
    WeeksKeepRest(trimmed, batch.weeks);
    var after := RunBatch(db, batch, token).value.0;
    assert after.homework == homework - DeletedIds(writes);
    OneWriteEach(writes);
    forall write <- writes ensures Puts(RowIn(db.homework, write.id), write, RowIn(after.homework, write.id)) {
      if write.body.Some? {
        assert write.id in UpsertedIds(writes) && write.id !in DeletedIds(writes);
      } else {
        assert write.id in DeletedIds(writes) && write.id !in UpsertedIds(writes);
        assert RowIn(homework, write.id) == RowIn(db.homework, write.id);
      }
    }
    forall id | !Named(writes, id) ensures RowIn(after.homework, id) == RowIn(db.homework, id) {
      assert id !in UpsertedIds(writes) && id !in DeletedIds(writes);
    }
  }

  lemma OneWriteEach(writes: seq<HwWrite>)
    requires RoundTrip.DistinctIds(writes)
    ensures UpsertedIds(writes) !! DeletedIds(writes)
  {
    forall a <- writes, b <- writes | a.id == b.id ensures a == b {
      var i :| 0 <= i < |writes| && writes[i] == a;
      var j :| 0 <= j < |writes| && writes[j] == b;
      assert i == j;
    }
  }

  // ----- What the server has held -----

  /** `b` is `a` or came of it by changes alone: then a revision belongs to one text. */
  predicate ChangedTo(a: HwRow, b: HwRow) {
    a.rev <= b.rev && (a.rev == b.rev ==> a == b)
  }

  /** What one transaction can make of a row. */
  predicate Moves(now: Option<HwRow>, after: Option<HwRow>) {
    && (now.Some? && after.Some? ==> ChangedTo(now.value, after.value))
    && (after.Some? && now.None? ==> after.value.rev == 1)
  }

  /** The row `id` was missing at some time strictly between. */
  predicate GoneBetween(past: seq<Homework>, id: string, from: nat, to: nat) {
    exists k :: from < k < to && k < |past| && id !in past[k]
  }

  ghost predicate SoundRow(past: seq<Homework>, id: string) {
    && (forall i | 0 <= i < |past| && id in past[i] :: past[i][id].rev > 0)
    && (forall i, j | 0 <= i <= j < |past| && id in past[i] && id in past[j] ::
          ChangedTo(past[i][id], past[j][id]) || GoneBetween(past, id, i, j))
  }

  ghost predicate SoundRows(past: seq<Homework>) {
    |past| > 0 && forall id :: SoundRow(past, id)
  }

  lemma RowGrows(past: seq<Homework>, next: Homework, id: string)
    requires |past| > 0 && SoundRow(past, id) && Moves(RowIn(past[|past| - 1], id), RowIn(next, id))
    ensures SoundRow(past + [next], id)
  {
    var more, last := past + [next], |past| - 1;
    forall i, j | 0 <= i <= j < |more| && id in more[i] && id in more[j]
      ensures ChangedTo(more[i][id], more[j][id]) || GoneBetween(more, id, i, j)
    {
      if i < |past| && j == |past| {
        if id !in past[last] {
          assert id !in more[last] && i < last < j;
        } else if !ChangedTo(past[i][id], past[last][id]) {
          var k :| i < k < last && id !in past[k];
          assert id !in more[k];
        }
      } else if j < |past| && !ChangedTo(past[i][id], past[j][id]) {
        var k :| i < k < j && id !in past[k];
        assert id !in more[k];
      }
    }
    assert id in past[last] ==> past[last][id].rev > 0;
  }

  /** A shown row that another one replaced under the same revision was deleted in between. */
  lemma SameRevisionMeansGone(past: seq<Homework>, id: string, i: nat, row: HwRow)
    requires SoundRows(past) && i < |past| && RowIn(past[i], id) == Some(row)
    requires id in past[|past| - 1] && past[|past| - 1][id].rev == row.rev && past[|past| - 1][id] != row
    ensures GoneBetween(past, id, i, |past| - 1)
  {
    assert SoundRow(past, id);
    assert !ChangedTo(past[i][id], past[|past| - 1][id]);
  }

  // ----- Watching a run -----

  /** A homework row that an answer showed a window. */
  datatype RowSeen = RowSeen(id: string, row: HwRow)

  /** What a run does not keep: every state of the homework, what each window was shown of it, and what it had
      been shown when it sent a request. */
  datatype Watch = Watch(past: seq<Homework>, seen: map<nat, set<RowSeen>>, read: map<nat, set<RowSeen>>)

  /** The rows a reply tells. */
  function Told(reply: Reply): set<RowSeen> {
    set result | result in reply.homework && result.HwSaved? :: RowSeen(result.id, HwRow(result.body, result.rev))
  }

  function ShownRows(call: Call, answer: Answer): set<RowSeen> {
    match answer
    case HomeworkIs(homework) =>
      if call.GetHomework? then set id | id in homework :: RowSeen(id, homework[id]) else {}
    case Saved(reply) => if call.PostSave? then Told(reply) else {}
    case _ => {}
  }

  function SeenRows(watch: Watch, window: nat): set<RowSeen> {
    if window in watch.seen then watch.seen[window] else {}
  }

  /** The window takes the answer, under its newest ticket. */
  predicate Taken(sys: System, event: Event) {
    && event.Deliver? && event.request in sys.waiting && event.request in sys.sent
    && event.request !in Next(sys, event).waiting
    && sys.sent[event.request].window in sys.windows
    && sys.sent[event.request].call.ticket == sys.windows[sys.sent[event.request].window].ticket
  }

  function Watched(sys: System, watch: Watch, event: Event): Watch {
    var after := Next(sys, event);
    var seen := if !Taken(sys, event) then watch.seen
                else
                  var window := sys.sent[event.request].window;
                  watch.seen[window := SeenRows(watch, window) + ShownRows(sys.sent[event.request].call, event.answer)];
    var now := Watch(watch.past + [after.db.homework], seen, watch.read);
    now.(read := map n | n in after.sent ::
           if n in watch.read then watch.read[n] else SeenRows(now, after.sent[n].window))
  }

  function WatchRun(sys: System, watch: Watch, events: seq<Event>): Watch
    decreases events
  {
    if events == [] then watch else WatchRun(Next(sys, events[0]), Watched(sys, watch, events[0]), events[1..])
  }

  /** Nothing seen yet, and no homework. */
  function NewWatch(windows: map<nat, string>): Watch {
    Watch([map[]], map w | w in windows :: {}, map[])
  }

  // ----- What every window keeps -----

  ghost predicate RevRead(seen: set<RowSeen>, id: string, rev: nat) {
    rev == 0 || exists x <- seen :: x.id == id && x.row.rev == rev
  }

  ghost predicate RowsRead(seen: set<RowSeen>, homework: Homework) {
    forall id <- homework :: RevRead(seen, id, homework[id].rev)
  }

  ghost predicate BatchRead(seen: set<RowSeen>, batch: Batch) {
    && RoundTrip.DistinctIds(batch.homework)
    && forall write <- batch.homework :: RevRead(seen, write.id, write.rev)
  }

  ghost predicate WorkRead(seen: set<RowSeen>, work: WeekWork) {
    && RowsRead(seen, work.homework) && RowsRead(seen, work.committedHw)
    && (work.pending.Some? ==> BatchRead(seen, work.pending.value))
  }

  ghost predicate WindowRead(seen: set<RowSeen>, s: State) {
    && WorkRead(seen, s.open)
    && forall week <- s.drafts :: WorkRead(seen, s.drafts[week])
  }

  ghost predicate CallRead(seen: set<RowSeen>, call: Call) {
    call.PostSave? ==> BatchRead(seen, call.batch)
  }

  lemma SeenMore(seen: set<RowSeen>, more: set<RowSeen>, s: State)
    requires seen <= more && WindowRead(seen, s)
    ensures WindowRead(more, s)
  {
  }

  lemma CallSeenMore(seen: set<RowSeen>, more: set<RowSeen>, call: Call)
    requires seen <= more && CallRead(seen, call)
    ensures CallRead(more, call)
  {
  }

  lemma ChangedRead(seen: set<RowSeen>, homework: Homework, changes: map<string, string>)
    requires RowsRead(seen, homework)
    ensures RowsRead(seen, Changed(homework, changes))
  {
  }

  lemma SideRead(seen: set<RowSeen>, homework: Homework, changes: map<string, HwChange>, side: Side)
    requires RowsRead(seen, homework)
    ensures RowsRead(seen, WithSide(homework, changes, side))
  {
  }

  lemma BuiltRead(seen: set<RowSeen>, s: State, op: string)
    requires WorkRead(seen, s.open)
    ensures BatchRead(seen, BuildBatch(s, op))
  {
    hide Sorted;
    var ids, writes := Sorted(s.open.dirtyHw), BuildBatch(s, op).homework;
    SortedIsDistinct(s.open.dirtyHw);
    assert writes == HwWrites(s.open, ids);
    forall write <- writes ensures RevRead(seen, write.id, write.rev) {
      var i :| 0 <= i < |writes| && writes[i] == write;
      assert write == HwWriteFor(s.open, ids[i]);
    }
  }

  lemma SaveReads(seen: set<RowSeen>, s: State, op: string, join: bool)
    requires WindowRead(seen, s)
    ensures var (after, call) := AfterSave(s, op, join);
            WindowRead(seen, after) && (call.Some? ==> CallRead(seen, call.value))
  {
    BuiltRead(seen, s.(join := join), op);
    hide BuildBatch, StepForSave, RowsRead, BatchRead;
  }

  lemma TravelReads(seen: set<RowSeen>, s: State, op: string, undo: bool)
    requires WindowRead(seen, s)
    ensures var (after, call) := if undo then AfterUndo(s, op) else AfterRedo(s, op);
            WindowRead(seen, after) && (call.Some? ==> CallRead(seen, call.value))
  {
    hide AfterSave, DropStale, WithSide, RowsRead, BatchRead;
    var live := WithoutStale(s);
    var stack := if undo then live.open.undo else live.open.redo;
    if TravelsHere(live, stack) {
      var step, rest := stack[|stack| - 1], stack[..|stack| - 1];
      var popped := if undo then live.open.(undo := rest) else live.open.(redo := rest);
      SideRead(seen, popped.homework, step.homework, if undo then Earlier else Later);
      SaveReads(seen, Travelling(live, popped, if undo then Undoing else Redoing, step), op, false);
    }
  }

  lemma ActReads(seen: set<RowSeen>, s: State, action: Action)
    requires WindowRead(seen, s)
    ensures var (after, call) := Act(s, action);
            WindowRead(seen, after) && (call.Some? ==> CallRead(seen, call.value))
  {
    hide AfterSave, AfterUndo, AfterRedo, Changed, RowsRead;
    match action
    case Edit(_, changes, _) => ChangedRead(seen, s.open.homework, changes);
    case Save(op, join) => SaveReads(seen, s, op, join);
    case Retry(op) => SaveReads(seen, s, op, false);
    case Undo(op) => TravelReads(seen, s, op, true);
    case Redo(op) => TravelReads(seen, s, op, false);
    case _ =>
  }

  lemma {:induction false} ResultsRead(seen: set<RowSeen>, homework: Homework, results: seq<HwResult>)
    requires RowsRead(seen, homework)
    requires forall result <- results | result.HwSaved? :: RowSeen(result.id, HwRow(result.body, result.rev)) in seen
    ensures RowsRead(seen, PutResults(homework, results))
  {
    if results != [] {
      ResultsRead(seen, homework, results[..|results| - 1]);
      assert results[|results| - 1] in results;
    }
  }

  lemma LandedRead(seen: set<RowSeen>, s: State, reply: Reply)
    requires WorkRead(seen, s.open)
    requires forall result <- reply.homework | result.HwSaved? ::
               RowSeen(result.id, HwRow(result.body, result.rev)) in seen
    ensures WorkRead(seen, LandedWork(s.travel, s.travelStep, s.join, s.open, reply))
  {
    hide Recorded, PutResults, WithResults, RowsRead, BatchRead;
    var current := WithCurrent(s.open, reply);
    WindowPutsResults(current, reply.homework);
    ResultsRead(seen, s.open.homework, reply.homework);
    RecordedKeepsHomework(s.travel, s.travelStep, s.join, WithResults(current, reply.homework), reply);
  }

  lemma RecordedKeepsHomework(travel: Travel, travelStep: Option<Step>, join: bool, work: WeekWork, reply: Reply)
    ensures var after := Recorded(travel, travelStep, join, work, reply);
            after.homework == work.homework && after.committedHw == work.committedHw && after.pending == work.pending
  {
    hide PushStep, JoinStep, KeepRevisions, AsStored;
  }

  lemma TakeReads(seen: set<RowSeen>, s: State, call: Call, answer: Answer, plan: Action)
    requires WindowRead(seen, s) && ShownRows(call, answer) <= seen
    ensures var (after, next) := Take(s, call, answer, plan);
            WindowRead(seen, after) && (next.Some? ==> CallRead(seen, next.value))
  {
    if call.GetHomework? && answer.HomeworkIs? {
      LoadedReads(seen, s, call, answer.homework);
    } else if call.PostSave? && answer.TurnedDown? {
      TurnedDownReads(seen, s, call, answer.why);
    } else if call.PostSave? && answer.Saved? {
      forall result <- answer.reply.homework | result.HwSaved?
        ensures RowSeen(result.id, HwRow(result.body, result.rev)) in seen
      {
        assert RowSeen(result.id, HwRow(result.body, result.rev)) in ShownRows(call, answer);
      }
      LandedRead(seen, s, answer.reply);
    }
    hide RowsRead, LandedWork, AfterHomeworkReply, AfterSaveErr, BatchRead, ShownRows;
  }

  lemma LoadedReads(seen: set<RowSeen>, s: State, call: Call, homework: Homework)
    requires WindowRead(seen, s) && call.GetHomework? && ShownRows(call, HomeworkIs(homework)) <= seen
    ensures WindowRead(seen, AfterHomeworkReply(s, call, homework))
  {
    LoadedRows(seen, call, homework);
    hide RowsRead, Aged, BatchRead, ShownRows;
  }

  lemma TurnedDownReads(seen: set<RowSeen>, s: State, call: Call, why: Refusal)
    requires WindowRead(seen, s) && call.PostSave?
    ensures WindowRead(seen, AfterSaveErr(s, call, why).0)
    ensures AfterSaveErr(s, call, why).1.Some? ==> AfterSaveErr(s, call, why).1.value.GetWeek?
  {
    var kept := if s.travel != Still && s.travelStep.Some? && why != Conflict then AsCommitted(s.open) else s.open;
    var work := TurnedDownWork(s.travel, s.travelStep, s.open, why);
    PutBackKeepsHomework(s.travel, s.travelStep, kept);
    assert work.homework == kept.homework && work.committedHw == kept.committedHw && work.pending == kept.pending;
    assert WorkRead(seen, work);
    hide TurnedDownWork, RowsRead, BatchRead;
  }

  lemma PutBackKeepsHomework(travel: Travel, travelStep: Option<Step>, work: WeekWork)
    ensures var after := PutBack(travel, travelStep, work);
            after.homework == work.homework && after.committedHw == work.committedHw && after.pending == work.pending
  {
  }

  lemma LoadedRows(seen: set<RowSeen>, call: Call, homework: Homework)
    requires call.GetHomework? && ShownRows(call, HomeworkIs(homework)) <= seen
    ensures RowsRead(seen, homework)
  {
    forall id <- homework ensures RevRead(seen, id, homework[id].rev) {
      assert RowSeen(id, homework[id]) in ShownRows(call, HomeworkIs(homework));
    }
  }

  // ----- What server and windows keep together -----

  ghost predicate RowHeld(past: seq<Homework>, x: RowSeen) {
    exists i :: 0 <= i < |past| && RowIn(past[i], x.id) == Some(x.row)
  }

  ghost predicate AllHeld(past: seq<Homework>, rows: set<RowSeen>) {
    forall x <- rows :: RowHeld(past, x)
  }

  ghost predicate LogHeld(past: seq<Homework>, ops: seq<Op>) {
    forall op <- ops :: op.response.ChangesResponse? ==> AllHeld(past, Told(op.response.reply))
  }

  ghost predicate ServerWatched(sys: System, watch: Watch) {
    && SoundRows(watch.past) && watch.past[|watch.past| - 1] == sys.db.homework
    && LogHeld(watch.past, sys.db.ops)
    && (forall pair <- sys.answers ::
          pair.0 in sys.sent && AllHeld(watch.past, ShownRows(sys.sent[pair.0].call, pair.1)))
  }

  ghost predicate WindowsWatched(sys: System, watch: Watch) {
    && (forall w <- sys.windows :: WindowRead(SeenRows(watch, w), sys.windows[w]))
    && watch.read.Keys == sys.sent.Keys
    && (forall n <- sys.sent ::
          watch.read[n] <= SeenRows(watch, sys.sent[n].window) && CallRead(watch.read[n], sys.sent[n].call))
    && (forall w :: AllHeld(watch.past, SeenRows(watch, w)))
  }

  ghost predicate Sound(sys: System, watch: Watch) {
    ServerWatched(sys, watch) && WindowsWatched(sys, watch)
  }

  lemma HeldLonger(past: seq<Homework>, more: seq<Homework>, rows: set<RowSeen>)
    requires past <= more && AllHeld(past, rows)
    ensures AllHeld(more, rows)
  {
    forall x <- rows ensures RowHeld(more, x) {
      var i :| 0 <= i < |past| && RowIn(past[i], x.id) == Some(x.row);
      assert more[i] == past[i];
    }
  }

  lemma PastGrows(past: seq<Homework>, next: Homework)
    requires SoundRows(past)
    requires forall id :: Moves(RowIn(past[|past| - 1], id), RowIn(next, id))
    ensures SoundRows(past + [next])
  {
    hide SoundRow, Moves;
    forall id ensures SoundRow(past + [next], id) {
      RowGrows(past, next, id);
    }
  }

  lemma PutsMoves(now: Option<HwRow>, write: HwWrite, after: Option<HwRow>)
    requires Puts(now, write, after)
    ensures Moves(now, after)
  {
  }

  /** One transaction moves every row as it may be moved, and tells of rows it left or that were told before. */
  lemma PostMoves(db: Db, batch: Batch, token: string)
    requires RoundTrip.DistinctIds(batch.homework)
    ensures var (after, reply) := PostChanges(db, batch, token);
            && (forall id :: Moves(RowIn(db.homework, id), RowIn(after.homework, id)))
            && (reply.Done? && reply.value.ChangesResponse? ==>
                  || (forall result <- reply.value.reply.homework | result.HwSaved? :: ToldBy(result, after.homework))
                  || (exists op <- db.ops :: op.response == reply.value))
            && (forall op <- after.ops :: op in db.ops || (reply.Done? && op.response == reply.value))
  {
    hide RunBatch, Puts, Moves;
    var (after, reply) := PostChanges(db, batch, token);
    if Runs(db, Post(batch, token)) {
      BatchOnHomework(db, batch, token);
      RunBatchKeepsLog(db, batch, token);
      forall id ensures Moves(RowIn(db.homework, id), RowIn(after.homework, id)) {
        if Named(batch.homework, id) {
          var write :| write in batch.homework && write.id == id;
          PutsMoves(RowIn(db.homework, id), write, RowIn(after.homework, id));
        } else {
          StaysMoves(RowIn(db.homework, id));
        }
      }
    } else {
      forall id ensures Moves(RowIn(db.homework, id), RowIn(after.homework, id)) {
        StaysMoves(RowIn(db.homework, id));
      }
      if reply.Done? {
        NoLostUpdate.RecalledIsLogged(db.ops, batch.op, ChangesPayload(batch));
      }
    }
  }

  lemma StaysMoves(row: Option<HwRow>)
    ensures Moves(row, row)
  {
  }

  lemma ToldAreHeld(past: seq<Homework>, homework: Homework, reply: Reply)
    requires |past| > 0 && past[|past| - 1] == homework
    requires forall result <- reply.homework | result.HwSaved? :: ToldBy(result, homework)
    ensures AllHeld(past, Told(reply))
  {
    forall x <- Told(reply) ensures RowHeld(past, x) {
      assert RowIn(past[|past| - 1], x.id) == Some(x.row);
    }
  }

  // ----- Every step keeps it -----

  lemma AnswersHeldLonger(sys: System, watch: Watch, more: seq<Homework>)
    requires ServerWatched(sys, watch) && watch.past <= more
    ensures forall pair <- sys.answers :: pair.0 in sys.sent && AllHeld(more, ShownRows(sys.sent[pair.0].call, pair.1))
    ensures LogHeld(more, sys.db.ops)
  {
    hide AllHeld, ShownRows, Told;
    forall pair <- sys.answers ensures AllHeld(more, ShownRows(sys.sent[pair.0].call, pair.1)) {
      HeldLonger(watch.past, more, ShownRows(sys.sent[pair.0].call, pair.1));
    }
    forall op <- sys.db.ops | op.response.ChangesResponse? ensures AllHeld(more, Told(op.response.reply)) {
      HeldLonger(watch.past, more, Told(op.response.reply));
    }
  }

  lemma SameHomework(past: seq<Homework>)
    requires SoundRows(past)
    ensures SoundRows(past + [past[|past| - 1]])
  {
    hide Moves, SoundRow;
    var now := past[|past| - 1];
    forall id ensures Moves(RowIn(now, id), RowIn(now, id)) {
      StaysMoves(RowIn(now, id));
    }
    PastGrows(past, now);
  }

  /** What a request's answer shows was held. */
  lemma ServeShows(sys: System, watch: Watch, request: nat, token: string)
    requires Sound(sys, watch) && request in sys.sent
    ensures var after := Served(sys, request, token);
            var more := watch.past + [after.db.homework];
            && SoundRows(more) && LogHeld(more, after.db.ops)
            && forall pair <- after.answers ::
                 pair.0 in sys.sent && AllHeld(more, ShownRows(sys.sent[pair.0].call, pair.1))
  {
    hide PostChanges, SoundRows, AllHeld, WindowRead, ShownRows, CallRead, Told, LogHeld;
    var after := Served(sys, request, token);
    var more := watch.past + [after.db.homework];
    var call := sys.sent[request].call;
    AnswersHeldLonger(sys, watch, more);
    NotEmpty(watch.past);
    if call.PostSave? {
      ServePost(sys, watch, request, token);
      PostShows(more, call);
    } else {
      SameHomework(watch.past);
      NothingButHomework(more, call, sys.db);
    }
  }

  lemma NotEmpty(past: seq<Homework>)
    requires SoundRows(past)
    ensures |past| > 0
  {
  }

  lemma PostShows(past: seq<Homework>, call: Call)
    requires call.PostSave?
    ensures forall reply :: ShownRows(call, Saved(reply)) == Told(reply)
    ensures forall why :: AllHeld(past, ShownRows(call, TurnedDown(why)))
  {
  }

  lemma NothingButHomework(past: seq<Homework>, call: Call, db: Db)
    requires |past| > 0 && past[|past| - 1] == db.homework && !call.PostSave?
    ensures AllHeld(past, ShownRows(call, HomeworkIs(db.homework)))
    ensures forall row :: AllHeld(past, ShownRows(call, WeekIs(row)))
  {
    forall x <- ShownRows(call, HomeworkIs(db.homework)) ensures RowHeld(past, x) {
      assert RowIn(past[|past| - 1], x.id) == Some(x.row);
    }
  }

  lemma ServePost(sys: System, watch: Watch, request: nat, token: string)
    requires Sound(sys, watch) && request in sys.sent && sys.sent[request].call.PostSave?
    ensures var (db, reply) := PostChanges(sys.db, sys.sent[request].call.batch, token);
            var more := watch.past + [db.homework];
            && SoundRows(more) && LogHeld(more, db.ops)
            && (reply.Done? && reply.value.ChangesResponse? ==> AllHeld(more, Told(reply.value.reply)))
  {
    hide PostChanges, SoundRows, AllHeld, WindowRead, ShownRows, Moves, Told;
    var batch := sys.sent[request].call.batch;
    assert CallRead(watch.read[request], sys.sent[request].call);
    var (db, reply) := PostChanges(sys.db, batch, token);
    var more := watch.past + [db.homework];
    PostMoves(sys.db, batch, token);
    PastGrows(watch.past, db.homework);
    AnswersHeldLonger(sys, watch, more);
    if reply.Done? && reply.value.ChangesResponse? {
      if op :| op in sys.db.ops && op.response == reply.value {
        assert AllHeld(more, Told(op.response.reply));
      } else {
        ToldAreHeld(more, db.homework, reply.value.reply);
      }
    }
  }

  lemma ServeWatch(sys: System, watch: Watch, request: nat, token: string)
    requires Sound(sys, watch) && request in sys.sent
    ensures var event := Serve(request, token);
            var next, after := Watched(sys, watch, event), Served(sys, request, token);
            && after == Next(sys, event) && after.sent == sys.sent && after.windows == sys.windows
            && next.past == watch.past + [after.db.homework] && next.seen == watch.seen && next.read == watch.read
            && after.db.homework == next.past[|next.past| - 1]
  {
    hide PostChanges, ServerWatched, WindowRead, CallRead, AllHeld;
  }

  lemma ServeKeeps(sys: System, watch: Watch, request: nat, token: string)
    requires Sound(sys, watch) && request in sys.sent
    ensures Sound(Served(sys, request, token), Watched(sys, watch, Serve(request, token)))
  {
    hide WindowRead, CallRead, SoundRows, AllHeld, ShownRows, LogHeld;
    var event := Serve(request, token);
    var after := Served(sys, request, token);
    var next := Watched(sys, watch, event);
    ServeWatch(sys, watch, request, token);
    ServeShows(sys, watch, request, token);
    hide Served, Watched, Next;
    forall w ensures SeenRows(next, w) == SeenRows(watch, w) && AllHeld(next.past, SeenRows(next, w)) {
      HeldLonger(watch.past, next.past, SeenRows(watch, w));
    }
  }

  /** A window moves on, with what it has been shown by then, and may send a request. */
  lemma PlacedAfter(sys: System, watch: Watch, window: nat, result: (State, Option<Call>), number: nat,
                    shown: set<RowSeen>, next: Watch, after: System)
    requires Sound(sys, watch) && window in sys.windows && number !in sys.sent
    requires SeenRows(watch, window) <= shown && AllHeld(watch.past, shown)
    requires WindowRead(shown, result.0) && (result.1.Some? ==> CallRead(shown, result.1.value))
    requires next.past == watch.past + [sys.db.homework]
    requires forall w :: SeenRows(next, w) == if w == window then shown else SeenRows(watch, w)
    requires after == WithWindow(sys, window, result, number)
    requires next.read == map n | n in after.sent ::
                            if n in watch.read then watch.read[n] else SeenRows(next, after.sent[n].window)
    ensures WindowsWatched(after, next)
  {
    hide WindowRead, CallRead, AllHeld, ServerWatched, SeenRows;
    PlacedSent(sys, watch, window, result, number, shown, next, after);
    forall w <- after.windows ensures WindowRead(SeenRows(next, w), after.windows[w]) {
      assert w != window ==> WindowRead(SeenRows(watch, w), sys.windows[w]);
    }
    forall w ensures AllHeld(next.past, SeenRows(next, w)) {
      HeldLonger(watch.past, next.past, if w == window then shown else SeenRows(watch, w));
    }
  }

  lemma PlacedSent(sys: System, watch: Watch, window: nat, result: (State, Option<Call>), number: nat,
                   shown: set<RowSeen>, next: Watch, after: System)
    requires watch.read.Keys == sys.sent.Keys && number !in sys.sent
    requires forall n <- sys.sent ::
               watch.read[n] <= SeenRows(watch, sys.sent[n].window) && CallRead(watch.read[n], sys.sent[n].call)
    requires SeenRows(watch, window) <= shown && (result.1.Some? ==> CallRead(shown, result.1.value))
    requires forall w :: SeenRows(next, w) == if w == window then shown else SeenRows(watch, w)
    requires after == WithWindow(sys, window, result, number)
    requires next.read == map n | n in after.sent ::
                            if n in watch.read then watch.read[n] else SeenRows(next, after.sent[n].window)
    ensures next.read.Keys == after.sent.Keys
    ensures forall n <- after.sent ::
              next.read[n] <= SeenRows(next, after.sent[n].window) && CallRead(next.read[n], after.sent[n].call)
  {
    hide CallRead, SeenRows;
    forall n <- after.sent
      ensures next.read[n] <= SeenRows(next, after.sent[n].window) && CallRead(next.read[n], after.sent[n].call)
    {
      if n in sys.sent {
        assert after.sent[n] == sys.sent[n] && next.read[n] == watch.read[n];
      } else {
        assert n == number && after.sent[n].window == window && next.read[n] == shown;
      }
    }
  }

  /** Neither the server nor what it has answered changes. */
  lemma ServerStays(sys: System, watch: Watch, after: System, next: Watch)
    requires ServerWatched(sys, watch)
    requires after.db == sys.db && after.answers == sys.answers
    requires forall n <- sys.sent :: n in after.sent && after.sent[n] == sys.sent[n]
    requires next.past == watch.past + [sys.db.homework]
    ensures ServerWatched(after, next)
  {
    hide SoundRows, AllHeld, ShownRows, LogHeld;
    SameHomework(watch.past);
    AnswersHeldLonger(sys, watch, next.past);
  }

  lemma LocalWatch(sys: System, watch: Watch, window: nat, action: Action, number: nat)
    requires window in sys.windows && number !in sys.sent
    ensures var event := Local(window, action, number);
            var next, after := Watched(sys, watch, event), Next(sys, event);
            && after == WithWindow(sys, window, Act(sys.windows[window], action), number)
            && next.past == watch.past + [after.db.homework]
            && (forall w :: SeenRows(next, w) == SeenRows(watch, w))
            && next.read == map n | n in after.sent ::
                              if n in watch.read then watch.read[n] else SeenRows(next, after.sent[n].window)
  {
    hide Act;
  }

  lemma LocalKeeps(sys: System, watch: Watch, window: nat, action: Action, number: nat)
    requires Sound(sys, watch) && window in sys.windows && number !in sys.sent
    ensures var event := Local(window, action, number); Sound(Next(sys, event), Watched(sys, watch, event))
  {
    var event := Local(window, action, number);
    var result := Act(sys.windows[window], action);
    LocalWatch(sys, watch, window, action, number);
    ActReads(SeenRows(watch, window), sys.windows[window], action);
    PlacedSends(sys, window, result, number);
    var after, next := Next(sys, event), Watched(sys, watch, event);
    hide Act, Next, Watched, WithWindow, WindowRead, CallRead, AllHeld, ServerWatched, SeenRows;
    ServerStays(sys, watch, after, next);
    PlacedAfter(sys, watch, window, result, number, SeenRows(watch, window), next, after);
  }

  /** Nothing happened. */
  lemma IdleKeeps(sys: System, watch: Watch, event: Event)
    requires Sound(sys, watch) && Next(sys, event) == sys
    ensures Sound(sys, Watched(sys, watch, event))
  {
    hide Next, WindowRead, CallRead, AllHeld, ServerWatched;
    var next := Watched(sys, watch, event);
    ServerStays(sys, watch, sys, next);
    assert next.read == watch.read && next.seen == watch.seen;
    forall w ensures SeenRows(next, w) == SeenRows(watch, w) && AllHeld(next.past, SeenRows(next, w)) {
      HeldLonger(watch.past, next.past, SeenRows(watch, w));
    }
  }

  lemma AnswerWasHeld(sys: System, watch: Watch, request: nat, answer: Answer)
    requires Sound(sys, watch) && request in sys.sent
    requires (request, answer) in sys.answers || answer == TurnedDown(Unreachable)
    ensures AllHeld(watch.past, ShownRows(sys.sent[request].call, answer))
  {
    hide WindowsWatched, SoundRows, LogHeld;
  }

  lemma DeliverKeeps(sys: System, watch: Watch, request: nat, answer: Answer, plan: Action, number: nat)
    requires Sound(sys, watch)
    ensures var event := Deliver(request, answer, plan, number); Sound(Next(sys, event), Watched(sys, watch, event))
  {
    hide Take, WindowRead, CallRead, AllHeld, ServerWatched, ShownRows, Sound;
    var event := Deliver(request, answer, plan, number);
    if Next(sys, event) == sys {
      IdleKeeps(sys, watch, event);
    } else {
      DeliveredKeeps(sys, watch, event);
    }
  }

  /** The system with an answer taken off what is waited for. */
  function AnswerTaken(sys: System, event: Event): System
    requires event.Deliver?
  {
    sys.(waiting := sys.waiting - {event.request}, seen := Next(sys, event).seen)
  }

  /** What the window has been shown once it has the answer. */
  function ShownBy(sys: System, watch: Watch, event: Event): set<RowSeen>
    requires event.Deliver? && event.request in sys.sent && sys.sent[event.request].window in sys.windows
  {
    var window, call := sys.sent[event.request].window, sys.sent[event.request].call;
    if call.ticket == sys.windows[window].ticket then SeenRows(watch, window) + ShownRows(call, event.answer)
    else SeenRows(watch, window)
  }

  lemma DeliveredIs(sys: System, event: Event)
    requires event.Deliver? && Next(sys, event) != sys
    ensures event.request in sys.waiting && event.request in sys.sent && event.number !in sys.sent
    ensures (event.request, event.answer) in sys.answers || event.answer == TurnedDown(Unreachable)
    ensures sys.sent[event.request].window in sys.windows
    ensures var window, call := sys.sent[event.request].window, sys.sent[event.request].call;
            Next(sys, event) == WithWindow(AnswerTaken(sys, event), window,
                                           Take(sys.windows[window], call, event.answer, event.plan), event.number)
    ensures Taken(sys, event)
       <==> sys.sent[event.request].call.ticket == sys.windows[sys.sent[event.request].window].ticket
  {
    hide Take, Shown;
  }

  lemma DeliveredWatch(sys: System, watch: Watch, event: Event)
    requires event.Deliver? && Next(sys, event) != sys && event.request in sys.sent
    requires sys.sent[event.request].window in sys.windows
    ensures var next, after := Watched(sys, watch, event), Next(sys, event);
            && next.past == watch.past + [after.db.homework]
            && (forall w :: SeenRows(next, w) == if w == sys.sent[event.request].window then ShownBy(sys, watch, event)
                                                else SeenRows(watch, w))
            && next.read == map n | n in after.sent ::
                              if n in watch.read then watch.read[n] else SeenRows(next, after.sent[n].window)
  {
    DeliveredIs(sys, event);
    hide Next, ShownRows, Taken;
  }

  lemma DeliveredReads(sys: System, watch: Watch, event: Event)
    requires Sound(sys, watch) && event.Deliver? && event.request in sys.sent
    requires (event.request, event.answer) in sys.answers || event.answer == TurnedDown(Unreachable)
    requires sys.sent[event.request].window in sys.windows
    ensures var window, call := sys.sent[event.request].window, sys.sent[event.request].call;
            var (after, next) := Take(sys.windows[window], call, event.answer, event.plan);
            var shown := ShownBy(sys, watch, event);
            && SeenRows(watch, window) <= shown && AllHeld(watch.past, shown)
            && WindowRead(shown, after) && (next.Some? ==> CallRead(shown, next.value))
  {
    hide Take, WindowRead, CallRead, AllHeld, ServerWatched, ShownRows;
    var window, call := sys.sent[event.request].window, sys.sent[event.request].call;
    var s, shown := sys.windows[window], ShownBy(sys, watch, event);
    AnswerWasHeld(sys, watch, event.request, event.answer);
    HeldTogether(watch.past, SeenRows(watch, window), ShownRows(call, event.answer));
    SeenMore(SeenRows(watch, window), shown, s);
    if call.ticket == s.ticket {
      TakeReads(shown, s, call, event.answer, event.plan);
    } else {
      NoLostUpdate.StaleRepliesAreInert(s, call, event.answer, event.plan);
    }
  }

  lemma DeliveredKeeps(sys: System, watch: Watch, event: Event)
    requires Sound(sys, watch) && event.Deliver? && Next(sys, event) != sys
    ensures Sound(Next(sys, event), Watched(sys, watch, event))
  {
    DeliveredIs(sys, event);
    DeliveredWatch(sys, watch, event);
    DeliveredReads(sys, watch, event);
    var call, window := sys.sent[event.request].call, sys.sent[event.request].window;
    var taken := AnswerTaken(sys, event);
    SameForWatch(sys, taken, watch);
    var result := Take(sys.windows[window], call, event.answer, event.plan);
    var after, next := Next(sys, event), Watched(sys, watch, event);
    PlacedSends(taken, window, result, event.number);
    assert after.db == sys.db;
    hide Take, Next, Watched, WithWindow, WindowRead, CallRead, AllHeld, ServerWatched, WindowsWatched, ShownRows,
      SeenRows, ShownBy;
    ServerStays(sys, watch, after, next);
    PlacedAfter(taken, watch, window, result, event.number, ShownBy(sys, watch, event), next, after);
  }

  lemma PlacedSends(sys: System, window: nat, result: (State, Option<Call>), number: nat)
    requires number !in sys.sent
    ensures var after := WithWindow(sys, window, result, number);
            && after.db == sys.db && after.answers == sys.answers
            && forall n <- sys.sent :: n in after.sent && after.sent[n] == sys.sent[n]
  {
  }

  lemma HeldTogether(past: seq<Homework>, a: set<RowSeen>, b: set<RowSeen>)
    requires AllHeld(past, a) && AllHeld(past, b)
    ensures AllHeld(past, a + b)
  {
  }

  lemma SameForWatch(sys: System, other: System, watch: Watch)
    requires Sound(sys, watch) && other == sys.(waiting := other.waiting, seen := other.seen)
    ensures Sound(other, watch)
  {
    hide WindowRead, CallRead, AllHeld, ShownRows, SoundRows, LogHeld;
  }

  lemma NextKeeps(sys: System, watch: Watch, event: Event)
    requires Sound(sys, watch)
    ensures Sound(Next(sys, event), Watched(sys, watch, event))
  {
    hide Sound, Act, Take, PostChanges, Watched, Served;
    match event
    case Local(window, action, number) =>
      if window in sys.windows && number !in sys.sent {
        LocalKeeps(sys, watch, window, action, number);
      } else {
        IdleKeeps(sys, watch, event);
      }
    case Serve(request, token) =>
      if request in sys.sent {
        ServeKeeps(sys, watch, request, token);
      } else {
        IdleKeeps(sys, watch, event);
      }
    case Deliver(request, answer, plan, number) => DeliverKeeps(sys, watch, request, answer, plan, number);
  }

  lemma {:induction false} EveryRunIsWatched(sys: System, watch: Watch, events: seq<Event>)
    requires Sound(sys, watch)
    ensures Sound(Run(sys, events), WatchRun(sys, watch, events))
    decreases events
  {
    hide Sound, Next, Watched;
    if events != [] {
      NextKeeps(sys, watch, events[0]);
      EveryRunIsWatched(Next(sys, events[0]), Watched(sys, watch, events[0]), events[1..]);
    }
  }

  lemma StartIsWatched(windows: map<nat, string>)
    ensures Sound(Start(windows), NewWatch(windows))
  {
    var sys, watch := Start(windows), NewWatch(windows);
    forall id ensures SoundRow([map[]], id) {
    }
    forall w ensures SeenRows(watch, w) == {} {
    }
    assert watch.read.Keys == sys.sent.Keys;
  }

  // ----- The theorem -----

  /** The window had been shown a row of the same revision, which was deleted before the one replaced was made. */
  ghost predicate DeletedSinceShown(watch: Watch, shown: set<RowSeen>, id: string, replaced: HwRow) {
    exists x <- shown, i | 0 <= i < |watch.past| ::
      && x.id == id && x.row.rev == replaced.rev && x.row != replaced
      && RowIn(watch.past[i], id) == Some(x.row) && GoneBetween(watch.past, id, i, |watch.past| - 1)
  }

  /** In every run, whenever the server runs a save, however late and however often it was sent, a homework row
      that it changes or deletes had been shown to its window by the time that save was first sent; or the
      window had been shown another row under that revision, deleted since. */
  lemma NoLostHomework(windows: map<nat, string>, events: seq<Event>, first: nat, request: nat, token: string,
                       id: string)
    requires var sys := Run(Start(windows), events);
             && request in sys.sent && sys.sent[request].call.PostSave?
             && first in sys.sent && sys.sent[first].call.PostSave?
             && sys.sent[first].call.batch == sys.sent[request].call.batch
    ensures var sys, watch := Run(Start(windows), events), WatchRun(Start(windows), NewWatch(windows), events);
            var now, after := RowIn(sys.db.homework, id), RowIn(Served(sys, request, token).db.homework, id);
            && first in watch.read
            && (now.Some? && after != now ==>
                  || RowSeen(id, now.value) in watch.read[first]
                  || DeletedSinceShown(watch, watch.read[first], id, now.value))
  {
    StartIsWatched(windows);
    EveryRunIsWatched(Start(windows), NewWatch(windows), events);
    ReplacedWasShown(Run(Start(windows), events), WatchRun(Start(windows), NewWatch(windows), events), first, request,
                     token, id);
  }

  lemma ReplacedWasShown(sys: System, watch: Watch, first: nat, request: nat, token: string, id: string)
    requires Sound(sys, watch)
    requires request in sys.sent && sys.sent[request].call.PostSave?
    requires first in sys.sent && sys.sent[first].call.PostSave?
    requires sys.sent[first].call.batch == sys.sent[request].call.batch
    ensures var now, after := RowIn(sys.db.homework, id), RowIn(Served(sys, request, token).db.homework, id);
            && first in watch.read
            && (now.Some? && after != now ==>
                  || RowSeen(id, now.value) in watch.read[first]
                  || DeletedSinceShown(watch, watch.read[first], id, now.value))
  {
    hide WindowRead, SoundRow, PostChanges, LogHeld, ShownRows, SoundRows, GoneBetween;
    var batch := sys.sent[request].call.batch;
    var now, after := RowIn(sys.db.homework, id), RowIn(Served(sys, request, token).db.homework, id);
    assert CallRead(watch.read[first], sys.sent[first].call);
    if now.Some? && after != now {
      var write := ChangedByItsWrite(sys.db, batch, token, id);
      PositiveRow(watch.past, id);
      var x :| x in watch.read[first] && x.id == id && x.row.rev == write.rev;
      assert x in SeenRows(watch, sys.sent[first].window);
      var i :| 0 <= i < |watch.past| && RowIn(watch.past[i], x.id) == Some(x.row);
      if x.row != now.value {
        SameRevisionMeansGone(watch.past, id, i, x.row);
      }
    }
  }

  /** A row is changed or deleted only by a write that has its revision. */
  lemma ChangedByItsWrite(db: Db, batch: Batch, token: string, id: string) returns (write: HwWrite)
    requires RoundTrip.DistinctIds(batch.homework) && id in db.homework
    requires RowIn(PostChanges(db, batch, token).0.homework, id) != RowIn(db.homework, id)
    ensures write in batch.homework && write.id == id && write.rev == db.homework[id].rev
  {
    hide RunBatch;
    assert Runs(db, Post(batch, token));
    BatchOnHomework(db, batch, token);
    write :| write in batch.homework && write.id == id;
  }

  lemma PositiveRow(past: seq<Homework>, id: string)
    requires SoundRows(past) && id in past[|past| - 1]
    ensures past[|past| - 1][id].rev > 0
  {
    assert SoundRow(past, id);
  }

  // ----- Exactly when an unread row is taken -----

  /** What one homework went through: each entry one change, deletion or making of it. */
  predicate RowVersions(rows: seq<Option<HwRow>>) {
    |rows| > 0 && forall i :: 0 < i < |rows| ==> NextRow(rows[i - 1], rows[i])
  }

  predicate NextRow(now: Option<HwRow>, after: Option<HwRow>) {
    match (now, after)
    case (Some(row), Some(next)) => next.rev == row.rev + 1 && next.body != row.body
    case (Some(_), None) => true
    case (None, Some(next)) => next.rev == 1
    case (None, None) => false
  }

  /** Such steps are exactly what writes that run and change something make. */
  lemma NextRowIsAWrite(now: Option<HwRow>, after: Option<HwRow>)
    ensures NextRow(now, after) <==> now != after && exists write: HwWrite :: Puts(now, write, after)
  {
    if NextRow(now, after) {
      var rev := if now.Some? then now.value.rev else 0;
      assert Puts(now, HwWrite("", if after.Some? then Some(after.value.body) else None, rev), after);
    }
  }

  /** How often the homework was changed since it was last made, or since `rows` began; and whether it was
      deleted in between. */
  function SinceMade(rows: seq<Option<HwRow>>): (nat, bool)
    requires rows != []
  {
    if |rows| == 1 then (0, false)
    else
      var (changes, gone) := SinceMade(rows[..|rows| - 1]);
      if rows[|rows| - 1].None? || rows[|rows| - 2].None? then (0, true) else (changes + 1, gone)
  }

  lemma {:induction false} RevisionCounts(rows: seq<Option<HwRow>>)
    requires RowVersions(rows) && rows[0].Some?
    ensures var (changes, gone) := SinceMade(rows);
            && (rows[|rows| - 1].Some? ==>
                  rows[|rows| - 1].value.rev == changes + (if gone then 1 else rows[0].value.rev))
            && (!gone ==> changes == |rows| - 1 && rows[|rows| - 1].Some?)
            && (gone <==> exists i :: 0 <= i < |rows| && rows[i].None?)
  {
    if |rows| > 1 {
      var front := rows[..|rows| - 1];
      RevisionCounts(front);
      assert rows == front + [rows[|rows| - 1]];
      if i :| 0 <= i < |front| && front[i].None? {
        assert rows[i].None?;
      }
      if i :| 0 <= i < |rows| && rows[i].None? {
        assert i < |front| ==> front[i].None?;
      }
    }
  }

  /** A window that was shown the first of `rows` and writes at its revision is taken, over a row it was not
      shown, exactly when the homework was deleted and made again in between and then changed as often as that
      revision takes. */
  lemma TakenUnreadExactly(rows: seq<Option<HwRow>>, id: string, body: string)
    requires RowVersions(rows) && |rows| > 1 && rows[0].Some? && rows[0].value.rev > 0
    requires rows[|rows| - 1].Some? && rows[|rows| - 1].value.body != body
    ensures SaveHomework(map[id := rows[|rows| - 1].value], id, body, rows[0].value.rev).Done?
       <==> SinceMade(rows) == (rows[0].value.rev - 1, true)
  {
    RevisionCounts(rows);
  }
}
