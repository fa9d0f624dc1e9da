/** One save of one week, all the way round: the window builds the batch, the server runs it, and the
    reply leaves the window and the server holding the same week and homework. */
module RoundTrip {
  import opened Basics
  import opened Names
  import opened Store
  import opened Prediction
  import opened RetryOnce
  import opened History
  import opened Session

  // ----- Homework results, put in place one after another -----

  function PutResult(homework: Homework, result: HwResult): Homework {
    match result
    case HwSaved(id, body, rev) => homework[id := HwRow(body, rev)]
    case HwGone(id, _, _) => homework - {id}
  }

  function PutResults(homework: Homework, results: seq<HwResult>): Homework {
    if results == [] then homework
    else PutResult(PutResults(homework, results[..|results| - 1]), results[|results| - 1])
  }

  function Ids(results: seq<HwResult>): set<string> {
    set result | result in results :: result.id
  }

  lemma {:induction false} PutTwice(homework: Homework, first: seq<HwResult>, second: seq<HwResult>)
    ensures PutResults(homework, first + second) == PutResults(PutResults(homework, first), second)
  {
    if second == [] {
      assert first + second == first;
    } else {
      var all := first + second;
      assert all[..|all| - 1] == first + second[..|second| - 1];
      PutTwice(homework, first, second[..|second| - 1]);
    }
  }

  /** Results decide the homework they name and leave the rest. */
  lemma ResultsDecide(a: Homework, b: Homework, results: seq<HwResult>)
    requires SameOutside(a, b, Ids(results))
    ensures PutResults(a, results) == PutResults(b, results)
  {
    ResultsDecideSome(a, b, results, Ids(results));
    var x, y := PutResults(a, results), PutResults(b, results);
    assert forall id :: (id in x <==> id in y) && (id in x ==> x[id] == y[id]);
  }

  lemma {:induction false} ResultsDecideSome(a: Homework, b: Homework, results: seq<HwResult>, open: set<string>)
    requires SameOutside(a, b, open)
    ensures var x, y := PutResults(a, results), PutResults(b, results);
            forall id :: id !in open || id in Ids(results) ==> (id in x <==> id in y) && (id in x ==> x[id] == y[id])
  {
    if results != [] {
      var front, last := results[..|results| - 1], results[|results| - 1];
      ResultsDecideSome(a, b, front, open);
      assert results == front + [last];
    }
  }

  /** What the window makes of the reply's homework is the results put in place. */
  lemma {:induction false} WindowPutsResults(work: WeekWork, results: seq<HwResult>)
    ensures WithResults(work, results)
         == work.(homework := PutResults(work.homework, results), dirtyHw := work.dirtyHw - Ids(results))
  {
    if results != [] {
      var front, last := results[..|results| - 1], results[|results| - 1];
      WindowPutsResults(work, front);
      assert results == front + [last];
    }
  }

  /** A reply that tells of homework as the window has it leaves every body as it is. */
  predicate Tells(result: HwResult, homework: Homework) {
    match result
    case HwSaved(id, body, _) => id in homework && homework[id].body == body
    case HwGone(id, _, _) => id !in homework
  }

  lemma {:induction false} BodiesStay(homework: Homework, results: seq<HwResult>)
    requires forall result <- results :: Tells(result, homework)
    ensures Bodies(PutResults(homework, results)) == Bodies(homework)
  {
    if results != [] {
      var front, last := results[..|results| - 1], results[|results| - 1];
      BodiesStay(homework, front);
      assert last in results && Tells(last, homework);
      var before, after := PutResults(homework, front), PutResults(homework, results);
      assert after == PutResult(before, last);
      assert last.id in before <==> last.id in Bodies(before);
      assert last.id in homework <==> last.id in Bodies(homework);
      if last.HwSaved? {
        assert Bodies(before)[last.id] == Bodies(homework)[last.id];
      }
      assert Bodies(after) == Bodies(before);
    }
  }

  // ----- The server's homework passes -----

  predicate DistinctIds(writes: seq<HwWrite>) {
    forall i, j :: 0 <= i < j < |writes| ==> writes[i].id != writes[j].id
  }

  /** The write has the revision of the row it is for. */
  predicate Fits(homework: Homework, write: HwWrite) {
    write.rev == if write.id in homework then homework[write.id].rev else 0
  }

  /** The server has no reason to call the write late: its row reads as asked, or has the revision sent. */
  predicate Timely(homework: Homework, write: HwWrite) {
    if write.id !in homework then write.rev == 0
    else write.body == Some(homework[write.id].body) || write.rev == homework[write.id].rev
  }

  predicate AllTimely(homework: Homework, writes: seq<HwWrite>) {
    forall write <- writes | write.body.Some? :: Timely(homework, write)
  }

  function UpsertedIds(writes: seq<HwWrite>): set<string> {
    set w | w in writes && w.body.Some? :: w.id
  }

  ghost predicate SameOutside(a: Homework, b: Homework, ids: set<string>) {
    forall id :: id !in ids ==> (id in a <==> id in b) && (id in a ==> a[id] == b[id])
  }

  /** The result tells what one of the writes asked for. */
  predicate Answers(result: HwResult, writes: seq<HwWrite>) {
    match result
    case HwSaved(id, body, _) => exists write <- writes :: write.id == id && write.body == Some(body)
    case HwGone(id, _, _) => exists write <- writes :: write.id == id && write.body == None
  }

  lemma AnswersMore(results: seq<HwResult>, writes: seq<HwWrite>, more: seq<HwWrite>)
    requires forall result <- results :: Answers(result, writes)
    requires forall write <- writes :: write in more
    ensures forall result <- results :: Answers(result, more)
  {
    forall result <- results ensures Answers(result, more) {
      assert Answers(result, writes);
    }
  }

  lemma LastIsNew(writes: seq<HwWrite>)
    requires writes != [] && DistinctIds(writes)
    ensures var front, last := writes[..|writes| - 1], writes[|writes| - 1];
            && writes == front + [last] && DistinctIds(front)
            && last.id !in UpsertedIds(front) && last.id !in DeletedIds(front)
            && UpsertedIds(writes) == UpsertedIds(front) + (if last.body.Some? then {last.id} else {})
            && DeletedIds(writes) == DeletedIds(front) + (if last.body.None? then {last.id} else {})
  {
    var front, last := writes[..|writes| - 1], writes[|writes| - 1];
    assert writes == front + [last];
    forall write <- front ensures write.id != last.id {
      var i :| 0 <= i < |front| && front[i] == write;
      assert writes[i].id != writes[|writes| - 1].id;
    }
  }

  /** New homework goes in exactly at revision 0 and while there are fewer than a thousand. */
  lemma NewHomeworkGoesInExactly(homework: Homework, id: string, body: string, rev: nat)
    requires id !in homework
    ensures var saved := SaveHomework(homework, id, body, rev);
            && (saved.Done? <==> rev == 0 && |homework| < 1000)
            && (saved.Done? ==> saved.value == (homework[id := HwRow(body, 1)], 1))
            && (saved.Refused? ==> saved.why == if rev != 0 then Conflict else Unprocessable)
  {
  }

  /** Adding homework stops at the account's limit. */
  predicate HasRoom(before: set<string>, added: set<string>) {
    added <= before || |before + added| <= MAX_ASSIGNMENTS
  }

  lemma RoomStep(before: set<string>, added: set<string>, id: string)
    ensures var has := before + added;
            HasRoom(before, added + {id}) <==> HasRoom(before, added) && (id in has || |has| < MAX_ASSIGNMENTS)
  {
    var has := before + added;
    assert has + {id} == before + (added + {id});
    if id in has {
      assert has + {id} == has;
      if id in added {
        assert added + {id} == added;
      }
    } else {
      assert |has + {id}| == |has| + 1;
    }
    if added <= before {
      assert has == before;
    }
  }

  lemma {:induction false} UpsertPass(homework: Homework, writes: seq<HwWrite>)
    requires DistinctIds(writes)
    ensures RunUpserts(homework, writes).Done? ==>
              var (after, results) := RunUpserts(homework, writes).value;
              && after == PutResults(homework, results)
              && (forall result <- results :: Answers(result, writes))
              && Ids(results) == UpsertedIds(writes)
              && SameOutside(after, homework, UpsertedIds(writes))
  {
    hide Answers, UpsertedIds, DistinctIds, SaveHomework, SameOutside, PutResult;
    if writes == [] {
      NoWrites();
      assert Ids([]) == {};
      SameOutsideStep(homework, homework, {}, "", None);
    } else {
      var front, last := writes[..|writes| - 1], writes[|writes| - 1];
      LastIsNew(writes);
      UpsertPass(homework, front);
      if RunUpserts(homework, front).Done? {
        var (before, some) := RunUpserts(homework, front).value;
        AnswersMore(some, front, writes);
        assert last in writes;
        if last.body.Some? {
          UpsertStep(homework, before, UpsertedIds(front), last);
          if RunUpserts(homework, writes).Done? {
            var results := RunUpserts(homework, writes).value.1;
            var stored := results[|results| - 1];
            assert results == some + [stored] && results[..|results| - 1] == some;
            assert Ids(results) == Ids(some) + {stored.id};
            AnswersOwn(stored, last, writes);
          }
        }
      }
    }
  }

  function RowIn(homework: Homework, id: string): Option<HwRow> {
    if id in homework then Some(homework[id]) else None
  }

  /** What a write that runs makes of its row. */
  predicate Puts(now: Option<HwRow>, write: HwWrite, after: Option<HwRow>) {
    match (now, write.body)
    case (None, Some(body)) => write.rev == 0 && after == Some(HwRow(body, 1))
    case (Some(row), Some(body)) =>
      if row.body == body then after == now else write.rev == row.rev && after == Some(HwRow(body, row.rev + 1))
    case (None, None) => false
    case (Some(row), None) => write.rev == row.rev && after == None
  }

  predicate ToldBy(result: HwResult, homework: Homework) {
    result.HwSaved? && RowIn(homework, result.id) == Some(HwRow(result.body, result.rev))
  }

  lemma OneUpsertPuts(homework: Homework, before: Homework, ids: set<string>, write: HwWrite)
    requires SameOutside(before, homework, ids) && write.id !in ids && write.body.Some?
    requires SaveHomework(before, write.id, write.body.value, write.rev).Done?
    ensures var (after, rev) := SaveHomework(before, write.id, write.body.value, write.rev).value;
            && Puts(RowIn(homework, write.id), write, RowIn(after, write.id))
            && RowIn(after, write.id) == Some(HwRow(write.body.value, rev))
            && forall id :: id != write.id ==> RowIn(after, id) == RowIn(before, id)
  {
  }

  /** The upserts of a batch, row by row. */
  lemma {:induction false} UpsertRows(homework: Homework, writes: seq<HwWrite>)
    requires DistinctIds(writes) && RunUpserts(homework, writes).Done?
    ensures var (after, results) := RunUpserts(homework, writes).value;
            && (forall write <- writes | write.body.Some? ::
                  Puts(RowIn(homework, write.id), write, RowIn(after, write.id)))
            && (forall result <- results :: ToldBy(result, after) && result.id in UpsertedIds(writes))
  {
    hide DistinctIds, SaveHomework, PutResults, UpsertedIds, Ids, Answers, Puts, SameOutside, RowIn;
    if writes == [] {
    } else {
      var front, last := writes[..|writes| - 1], writes[|writes| - 1];
      LastIsNew(writes);
      UpsertRows(homework, front);
      UpsertPass(homework, front);
      assert writes == front + [last];
      if last.body.Some? {
        OneUpsertPuts(homework, RunUpserts(homework, front).value.0, UpsertedIds(front), last);
        NamesOthers(front, last);
      }
    }
  }

  lemma NamesOthers(front: seq<HwWrite>, last: HwWrite)
    requires last.id !in UpsertedIds(front)
    ensures forall write <- front | write.body.Some? :: write.id != last.id
  {
  }

  /** One write against the rows the ones before it left. */
  lemma UpsertStepRoom(homework: Homework, before: Homework, ids: set<string>, write: HwWrite)
    requires write.body.Some? && write.id !in ids
    requires SameOutside(before, homework, ids)
    ensures var saved := SaveHomework(before, write.id, write.body.value, write.rev);
            var room := write.id in before.Keys || |before.Keys| < MAX_ASSIGNMENTS;
            && (saved.Done? <==> Timely(homework, write) && room)
            && (saved.Refused? ==> saved.why == if Timely(homework, write) then Unprocessable else Conflict)
            && (saved.Done? ==> saved.value.0.Keys == before.Keys + {write.id})
  {
    assert |before| == |before.Keys|;
  }

  /** Homework is refused exactly when one write comes late or there is no room, and as late while there is
      room. */
  lemma {:induction false} UpsertRoom(homework: Homework, writes: seq<HwWrite>)
    requires DistinctIds(writes)
    ensures Verdict(RunUpserts(homework, writes), homework, AllTimely(homework, writes), UpsertedIds(writes))
  {
    hide RunUpserts, UpsertedIds, DistinctIds, SaveHomework, SameOutside, HasRoom, PutResults, Answers, Ids, Extends,
      Timely, Verdict;
    if writes == [] {
      NoUpserts(homework);
    } else {
      var front := writes[..|writes| - 1];
      LastIsNew(writes);
      UpsertRoom(homework, front);
      UpsertPass(homework, front);
      UpsertUnfolds(homework, writes);
      assert AllTimely(homework, writes)
        <==> AllTimely(homework, front) && (writes[|writes| - 1].body.Some? ==> Timely(homework, writes[|writes| - 1]));
      OneMoreUpsert(homework, RunUpserts(homework, front), writes[|writes| - 1], RunUpserts(homework, writes),
                    AllTimely(homework, front), UpsertedIds(front), UpsertedIds(writes));
    }
  }

  predicate Verdict(ran: Upserted, homework: Homework, timely: bool, added: set<string>) {
    && (ran.Done? <==> timely && HasRoom(homework.Keys, added))
    && (ran.Refused? && HasRoom(homework.Keys, added) ==> ran.why == Conflict)
    && (ran.Refused? && timely ==> ran.why == Unprocessable)
    && (ran.Done? ==> ran.value.0.Keys == homework.Keys + added)
  }

  lemma NoUpserts(homework: Homework)
    ensures Verdict(RunUpserts(homework, []), homework, AllTimely(homework, []), UpsertedIds([]))
  {
  }

  type Upserted = Outcome<(Homework, seq<HwResult>)>

  /** `after` is `before` with one more write run. */
  predicate Extends(before: Upserted, last: HwWrite, after: Upserted) {
    && (before.Refused? ==> after == before)
    && (before.Done? && last.body.None? ==> after == before)
    && (before.Done? && last.body.Some? ==>
          var saved := SaveHomework(before.value.0, last.id, last.body.value, last.rev);
          && (saved.Refused? ==> after == Refused(saved.why))
          && (saved.Done? ==> after.Done? && after.value.0 == saved.value.0))
  }

  lemma OneMoreUpsert(homework: Homework, before: Upserted, last: HwWrite, after: Upserted, timely: bool,
                      some: set<string>, all: set<string>)
    requires Extends(before, last, after) && Verdict(before, homework, timely, some)
    requires last.id !in some && all == some + (if last.body.Some? then {last.id} else {})
    requires before.Done? ==> SameOutside(before.value.0, homework, some)
    ensures Verdict(after, homework, timely && (last.body.Some? ==> Timely(homework, last)), all)
  {
    hide SaveHomework, SameOutside, HasRoom, Timely;
    if last.body.Some? {
      RoomStep(homework.Keys, some, last.id);
      if before.Done? {
        UpsertStepRoom(homework, before.value.0, some, last);
      }
    }
  }

  lemma UpsertUnfolds(homework: Homework, writes: seq<HwWrite>)
    requires writes != []
    ensures Extends(RunUpserts(homework, writes[..|writes| - 1]), writes[|writes| - 1], RunUpserts(homework, writes))
  {
    hide SaveHomework;
  }

  lemma NoWrites()
    ensures UpsertedIds([]) == {} && DeletedIds([]) == {}
  {
  }

  lemma AnswersOwn(result: HwResult, write: HwWrite, writes: seq<HwWrite>)
    requires write in writes && result.id == write.id
    requires result.HwSaved? ==> write.body == Some(result.body)
    requires result.HwGone? ==> write.body == None
    ensures Answers(result, writes)
  {
  }

  lemma SameOutsideStep(before: Homework, homework: Homework, ids: set<string>, id: string, row: Option<HwRow>)
    requires before == homework || SameOutside(before, homework, ids)
    ensures SameOutside(before, homework, ids)
    ensures row.Some? ==> SameOutside(before[id := row.value], homework, ids + {id})
  {
  }

  lemma UpsertStep(homework: Homework, before: Homework, ids: set<string>, write: HwWrite)
    requires write.body.Some? && write.id !in ids
    requires SameOutside(before, homework, ids)
    ensures var saved := SaveHomework(before, write.id, write.body.value, write.rev);
            saved.Done? ==>
              && saved.value.0 == PutResult(before, HwSaved(write.id, write.body.value, saved.value.1))
              && SameOutside(saved.value.0, homework, ids + {write.id})
  {
    var saved := SaveHomework(before, write.id, write.body.value, write.rev);
    if saved.Done? {
      SameOutsideStep(before, homework, ids, write.id, Some(HwRow(write.body.value, saved.value.1)));
      assert saved.value.0 == before[write.id := HwRow(write.body.value, saved.value.1)];
    }
  }

  /** One deletion run after others. */
  lemma DeleteUnfolds(db: Db, writes: seq<HwWrite>)
    requires writes != []
    ensures var front, last := RunDeletes(db, writes[..|writes| - 1]), writes[|writes| - 1];
            var all := RunDeletes(db, writes);
            && (front.Refused? ==> all == front)
            && (front.Done? && last.body.Some? ==> all == front)
            && (front.Done? && last.body.None? ==>
                  var gone := DeleteHomework(front.value.0, last.id, last.rev);
                  && (gone.Refused? ==> all == Refused(gone.why))
                  && (gone.Done? ==> all == Done((gone.value.0, front.value.1 + [gone.value.1]))))
  {
    hide DeleteHomework;
  }

  /** Deletions that fit are refused only for homework that is not there. */
  lemma {:induction false} DeletePass(db: Db, writes: seq<HwWrite>)
    requires DistinctIds(writes)
    requires forall write <- writes | write.body.None? :: Fits(db.homework, write)
    ensures RunDeletes(db, writes).Done? <==> DeletedIds(writes) <= db.homework.Keys
    ensures RunDeletes(db, writes).Refused? ==> RunDeletes(db, writes).why == NotFound
    ensures RunDeletes(db, writes).Done? ==>
              var (after, results) := RunDeletes(db, writes).value;
              && after.homework == PutResults(db.homework, results)
              && (forall result <- results :: Answers(result, writes))
              && Ids(results) == DeletedIds(writes)
  {
    if writes == [] {
      NoWrites();
      assert Ids([]) == {};
    } else {
      DeleteUnfolds(db, writes);
      hide RunDeletes, DeleteHomework, Answers, UpsertedIds, DistinctIds, CutAll, GoneResult, AfterDeletes, DeletedIds,
        Fits, PutResults;
      var front, last := writes[..|writes| - 1], writes[|writes| - 1];
      LastIsNew(writes);
      DeletePass(db, front);
      assert last in writes;
      if RunDeletes(db, front).Done? {
        DeletesMoveWeeks(db, front);
        var (before, some) := RunDeletes(db, front).value;
        AnswersMore(some, front, writes);
        if last.body.None? {
          DeleteStep(db.homework, before, DeletedIds(front), last);
          var gone := GoneResult(before.weeks, last.id);
          GoneNames(before.weeks, last.id);
          AnswersOwn(gone, last, writes);
          OneMoreGone(db.homework, some, gone);
        }
      }
    }
  }

  lemma DeleteStep(homework: Homework, before: Db, ids: set<string>, write: HwWrite)
    requires Fits(homework, write) && write.body.None? && write.id !in ids
    requires before.homework == homework - ids
    ensures var gone := DeleteHomework(before, write.id, write.rev);
            && (gone.Done? <==> write.id in homework)
            && (gone.Refused? ==> gone.why == NotFound)
            && (gone.Done? ==> gone.value.0.homework == before.homework - {write.id}
                               && gone.value.1 == GoneResult(before.weeks, write.id))
  {
    hide CutAll, GoneResult;
  }

  lemma OneMoreGone(homework: Homework, some: seq<HwResult>, gone: HwResult)
    requires gone.HwGone?
    ensures PutResults(homework, some + [gone]) == PutResults(homework, some) - {gone.id}
    ensures Ids(some + [gone]) == Ids(some) + {gone.id}
  {
    assert (some + [gone])[..|some + [gone]| - 1] == some;
  }

  lemma GoneNames(weeks: Weeks, id: string)
    ensures GoneResult(weeks, id).HwGone? && GoneResult(weeks, id).id == id
  {
  }

  // ----- The window's side -----

  /** The window's committed copy is what the server has. */
  ghost predicate InStep(work: WeekWork, db: Db) {
    RowOf(db.weeks, work.week) == Row(work.committed, work.rev) && work.committedHw == db.homework
  }

  /** The unsaved homework is the committed one but for the marked ids, whose revisions are still the
      committed ones. */
  ghost predicate EditsOnly(work: WeekWork) {
    && SameOutside(work.homework, work.committedHw, work.dirtyHw)
    && (forall id <- work.dirtyHw :: id in work.homework ==>
          work.homework[id].rev == if id in work.committedHw then work.committedHw[id].rev else 0)
  }

  /** The homework part of a save as the window builds it. */
  function OwnWrites(work: WeekWork): seq<HwWrite> {
    HwWrites(work, Sorted(work.dirtyHw))
  }

  lemma OwnWritesFit(work: WeekWork)
    requires EditsOnly(work)
    ensures DistinctIds(OwnWrites(work))
    ensures forall write <- OwnWrites(work) :: Fits(work.committedHw, write)
    ensures UpsertedIds(OwnWrites(work)) + DeletedIds(OwnWrites(work)) == work.dirtyHw
    ensures UpsertedIds(OwnWrites(work)) !! DeletedIds(OwnWrites(work))
    ensures forall write <- OwnWrites(work) :: write.body == BodyOf(work.homework, write.id)
  {
    var ids, writes := Sorted(work.dirtyHw), OwnWrites(work);
    SortedIsDistinct(work.dirtyHw);
    forall i | 0 <= i < |writes|
      ensures writes[i] == HwWriteFor(work, ids[i]) && ids[i] in work.dirtyHw
    {
      assert ids[i] in Elements(ids);
    }
    forall id <- work.dirtyHw ensures id in UpsertedIds(writes) + DeletedIds(writes) {
      assert id in Elements(ids);
      var i :| 0 <= i < |ids| && ids[i] == id;
      assert writes[i] in writes;
    }
  }

  lemma AnswersTell(work: WeekWork, results: seq<HwResult>)
    requires EditsOnly(work)
    requires forall result <- results :: Answers(result, OwnWrites(work))
    ensures forall result <- results :: Tells(result, work.homework)
  {
    hide HwWrites, EditsOnly, Sorted;
    OwnWritesFit(work);
    forall result <- results ensures Tells(result, work.homework) {
      assert Answers(result, OwnWrites(work));
    }
  }

  lemma FittingIsTimely(homework: Homework, writes: seq<HwWrite>)
    requires forall write <- writes :: Fits(homework, write)
    ensures AllTimely(homework, writes)
  {
  }

  /** Both of the server's homework passes over a window's own writes. */
  lemma HomeworkLands(work: WeekWork, db: Db)
    requires EditsOnly(work) && work.committedHw == db.homework
    ensures var upserted := RunUpserts(db.homework, OwnWrites(work));
            && (upserted.Refused? ==> upserted.why == Unprocessable)
            && (upserted.Done? <==> HasRoom(work.committedHw.Keys, work.homework.Keys))
            && (upserted.Done? ==>
                  var deleted := RunDeletes(db.(homework := upserted.value.0), OwnWrites(work));
                  && (deleted.Done? <==> NoBlanks(work))
                  && (deleted.Refused? ==> deleted.why == NotFound)
                  && (deleted.Done? ==>
                        var results := upserted.value.1 + deleted.value.1;
                        && Ids(results) == work.dirtyHw
                        && deleted.value.0.homework == PutResults(work.homework, results)
                        && Bodies(deleted.value.0.homework) == Bodies(work.homework)))
  {
    hide OwnWrites, EditsOnly, Answers, PutResults, RunDeletes, RunUpserts, Fits, DistinctIds, UpsertedIds, DeletedIds,
      AllTimely;
    var writes := OwnWrites(work);
    OwnWritesFit(work);
    UpsertPass(db.homework, writes);
    UpsertRoom(db.homework, writes);
    FittingIsTimely(db.homework, writes);
    RoomForEdits(work);
    if RunUpserts(db.homework, writes).Done? {
      var (homework, saved) := RunUpserts(db.homework, writes).value;
      DeletableStay(db.homework, homework, writes);
      DeletePass(db.(homework := homework), writes);
      BlanksAreAbsent(work, homework);
      if RunDeletes(db.(homework := homework), writes).Refused? {
        return;
      }
      var gone := RunDeletes(db.(homework := homework), writes).value.1;
      PutTwice(db.homework, saved, gone);
      var results := saved + gone;
      assert Ids(results) == Ids(saved) + Ids(gone);
      assert SameOutside(work.homework, db.homework, work.dirtyHw) by {
        EditsOutside(work);
      }
      ResultsDecide(work.homework, db.homework, results);
      forall result <- results ensures Answers(result, writes) {
        assert result in saved || result in gone;
      }
      AnswersTell(work, results);
      BodiesStay(work.homework, results);
    }
  }

  lemma RoomForEdits(work: WeekWork)
    requires EditsOnly(work)
    ensures HasRoom(work.committedHw.Keys, UpsertedIds(OwnWrites(work)))
       <==> HasRoom(work.committedHw.Keys, work.homework.Keys)
  {
    hide HwWrites, Sorted;
    OwnWritesFit(work);
    var upserted := UpsertedIds(OwnWrites(work));
    forall id ensures id in work.committedHw.Keys + upserted <==> id in work.committedHw.Keys + work.homework.Keys {
      if id in work.homework && id !in work.committedHw {
        assert id in work.dirtyHw;
      }
    }
    assert work.committedHw.Keys + upserted == work.committedHw.Keys + work.homework.Keys;
    assert upserted <= work.committedHw.Keys <==> work.committedHw.Keys + upserted == work.committedHw.Keys;
    assert work.homework.Keys <= work.committedHw.Keys
      <==> work.committedHw.Keys + work.homework.Keys == work.committedHw.Keys;
  }

  lemma EditsOutside(work: WeekWork)
    requires EditsOnly(work)
    ensures SameOutside(work.homework, work.committedHw, work.dirtyHw)
  {
  }

  lemma DeletableStay(before: Homework, after: Homework, writes: seq<HwWrite>)
    requires SameOutside(after, before, UpsertedIds(writes))
    requires UpsertedIds(writes) !! DeletedIds(writes)
    requires forall write <- writes :: Fits(before, write)
    ensures forall write <- writes | write.body.None? :: Fits(after, write)
  {
    forall write <- writes | write.body.None? ensures Fits(after, write) {
      assert write.id in DeletedIds(writes);
      assert Fits(before, write);
    }
  }

  /** Every homework marked as changed is in the window or was there before. */
  predicate NoBlanks(work: WeekWork) {
    forall id <- work.dirtyHw :: id in work.homework || id in work.committedHw
  }

  lemma BlanksAreAbsent(work: WeekWork, after: Homework)
    requires EditsOnly(work) && SameOutside(after, work.committedHw, UpsertedIds(OwnWrites(work)))
    ensures DeletedIds(OwnWrites(work)) <= after.Keys <==> NoBlanks(work)
  {
    hide HwWrites, Sorted;
    OwnWritesFit(work);
    var deleted := DeletedIds(OwnWrites(work));
    forall id ensures id in deleted <==> id in work.dirtyHw && id !in work.homework {
      if id in work.dirtyHw && id !in deleted {
        assert id in UpsertedIds(OwnWrites(work));
      }
    }
    forall id <- deleted ensures id in after <==> id in work.committedHw {
      assert id !in UpsertedIds(OwnWrites(work));
    }
  }

  /** The server has what the window sent, and the reply says so. */
  ghost predicate Landed(work: WeekWork, db: Db, reply: Reply) {
    && |reply.weeks| == 1
    && reply.weeks[0] == WeekWrite(work.week, work.blocks, reply.weeks[0].rev)
    && RowOf(db.weeks, work.week) == Row(work.blocks, reply.weeks[0].rev)
    && Ids(reply.homework) == work.dirtyHw
    && db.homework == PutResults(work.homework, reply.homework)
    && Bodies(db.homework) == Bodies(work.homework)
  }

  lemma OneWeekLands(work: WeekWork, db: Db, rev: nat)
    requires rev == RowOf(db.weeks, work.week).rev
    ensures var write := WeekWrite(work.week, work.blocks, rev);
            var ran := RunWeeks(db, [write]);
            && (ran.Refused? ==> ran.why == Unprocessable)
            && (ran.Done? ==>
                  var (after, results) := ran.value;
                  && results == [WeekWrite(work.week, work.blocks, results[0].rev)]
                  && RowOf(after.weeks, work.week) == Row(work.blocks, results[0].rev)
                  && after.homework == db.homework)
            && (ran.Done? <==> Owned(db.homework, work.blocks) && !RepeatsId(work.blocks))
  {
    var write := WeekWrite(work.week, work.blocks, rev);
    assert [write][..|[write]| - 1] == [];
    assert RunWeeks(db, []) == Done((db, []));
  }

  /** What the server asks of the window's week and homework, whoever sends them. */
  predicate Storable(work: WeekWork) {
    && !RepeatsId(work.blocks)
    && Owned(work.homework, work.blocks)
    && HasRoom(work.committedHw.Keys, work.homework.Keys)
    && NoBlanks(work)
  }

  /** A save from a window in step with the server is accepted exactly when its content may be stored:
      never refused for being behind. Accepted, the server has the window's week and homework. */
  lemma BatchLands(s: State, db: Db, op: string, token: string)
    requires InStep(s.open, db) && EditsOnly(s.open) && ExtraWeeks(s) == {}
    ensures var ran := RunBatch(db, BuildBatch(s, op), token);
            && (ran.Done? <==> Storable(s.open))
            && (ran.Refused? ==> ran.why == Unprocessable || ran.why == NotFound)
            && (ran.Done? ==> Landed(s.open, ran.value.0, ran.value.1))
  {
    hide RunUpserts, RunDeletes, RunWeeks, EditsOnly, RevisionAfterDeletes, PutResults, HasRoom, RepeatsId, NoBlanks;
    var work, writes := s.open, OwnWrites(s.open);
    assert Sorted({}) == [];
    HomeworkLands(work, db);
    var upserted := RunUpserts(db.homework, writes);
    assert db.(homework := db.homework) == db;
    if upserted.Done? {
      var ready := db.(homework := upserted.value.0);
      if RunDeletes(ready, writes).Refused? {
        return;
      }
      var deleted := RunDeletes(ready, writes).value;
      PredictionIsExact(ready, writes, work.week, work.committed, work.rev, work.blocks);
      OneWeekLands(work, deleted.0, RevisionAfterDeletes(work.committed, work.rev, DeletedIds(writes)));
      assert deleted.0.homework.Keys == Bodies(deleted.0.homework).Keys == Bodies(work.homework).Keys;
    }
  }
}
