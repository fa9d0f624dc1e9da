/** The revision a save sends along with its own deletions: exact when the window is up to date, and the
    one way a save can replace a version its window never read. */
module Prediction {
  import opened Basics
  import opened Store

  /** The homework of `deleted` with sessions in `blocks`. */
  function Touched(blocks: seq<Block>, deleted: set<string>): set<string> {
    set id | id in deleted && Holds(blocks, id)
  }

  function RevisionAfterDeletes(stored: seq<Block>, rev: nat, deleted: set<string>): nat {
    rev + |Touched(stored, deleted)|
  }

  function DeletedIds(writes: seq<HwWrite>): set<string> {
    set w | w in writes && w.body.None? :: w.id
  }

  /** A row once every homework of `deleted` is gone, one after another. */
  function AfterDeletes(row: Row, deleted: set<string>): Row {
    Row(Without(row.blocks, deleted), RevisionAfterDeletes(row.blocks, row.rev, deleted))
  }

  // ----- Deleting one homework after another -----

  lemma {:induction false} WithoutNothing(blocks: seq<Block>)
    ensures Without(blocks, {}) == blocks
  {
    if blocks != [] {
      WithoutNothing(blocks[..|blocks| - 1]);
      assert blocks == blocks[..|blocks| - 1] + [blocks[|blocks| - 1]];
    }
  }

  lemma {:induction false} WithoutTwice(blocks: seq<Block>, ids: set<string>, id: string)
    ensures Without(Without(blocks, ids), {id}) == Without(blocks, ids + {id})
  {
    if blocks != [] {
      var front, last := blocks[..|blocks| - 1], blocks[|blocks| - 1];
      WithoutTwice(front, ids, id);
      if !(last.homework.Some? && last.homework.value in ids) {
        assert Without(blocks, ids)[..|Without(blocks, ids)| - 1] == Without(front, ids);
      }
    }
  }

  lemma HoldsIsMembership(blocks: seq<Block>, id: string)
    ensures Holds(blocks, id) <==> exists b <- blocks :: b.homework == Some(id)
  {
    if Holds(blocks, id) {
      var i :| 0 <= i < |blocks| && blocks[i].homework == Some(id);
      assert blocks[i] in blocks;
    }
  }

  lemma HoldsAfterOthersGo(blocks: seq<Block>, ids: set<string>, id: string)
    requires id !in ids
    ensures Holds(Without(blocks, ids), id) <==> Holds(blocks, id)
  {
    HoldsIsMembership(blocks, id);
    HoldsIsMembership(Without(blocks, ids), id);
  }

  lemma {:induction false} WithoutAbsent(blocks: seq<Block>, ids: set<string>, id: string)
    requires !Holds(blocks, id)
    ensures Without(blocks, ids + {id}) == Without(blocks, ids)
  {
    if blocks != [] {
      var front, last := blocks[..|blocks| - 1], blocks[|blocks| - 1];
      assert !Holds(front, id);
      assert blocks[|blocks| - 1].homework != Some(id);
      WithoutAbsent(front, ids, id);
    }
  }

  lemma OneMoreDelete(row: Row, deleted: set<string>, id: string)
    requires id !in deleted
    ensures Cut(AfterDeletes(row, deleted), id) == AfterDeletes(row, deleted + {id})
  {
    HoldsAfterOthersGo(row.blocks, deleted, id);
    WithoutTwice(row.blocks, deleted, id);
    if Holds(row.blocks, id) {
      assert Touched(row.blocks, deleted + {id}) == Touched(row.blocks, deleted) + {id};
    } else {
      WithoutAbsent(row.blocks, deleted, id);
      assert Touched(row.blocks, deleted + {id}) == Touched(row.blocks, deleted);
    }
  }

  lemma CutRow(weeks: Weeks, id: string, week: string)
    ensures RowOf(CutAll(weeks, id), week) == Cut(RowOf(weeks, week), id)
  {
  }

  lemma OneDeleteMore(start: Weeks, before: Weeks, deleted: set<string>, id: string)
    requires id !in deleted
    requires forall week :: RowOf(before, week) == AfterDeletes(RowOf(start, week), deleted)
    ensures forall week :: RowOf(CutAll(before, id), week) == AfterDeletes(RowOf(start, week), deleted + {id})
    ensures CutAll(before, id).Keys == before.Keys
  {
    hide AfterDeletes, Cut;
    forall week ensures RowOf(CutAll(before, id), week) == AfterDeletes(RowOf(start, week), deleted + {id}) {
      CutRow(before, id, week);
      OneMoreDelete(RowOf(start, week), deleted, id);
    }
  }

  lemma NoDeletes(weeks: Weeks)
    ensures DeletedIds([]) == {}
    ensures forall week :: RowOf(weeks, week) == AfterDeletes(RowOf(weeks, week), {})
  {
    forall week ensures RowOf(weeks, week) == AfterDeletes(RowOf(weeks, week), {}) {
      WithoutNothing(RowOf(weeks, week).blocks);
      assert Touched(RowOf(weeks, week).blocks, {}) == {};
    }
  }

  lemma LastDeleted(writes: seq<HwWrite>)
    requires writes != []
    ensures DeletedIds(writes) == DeletedIds(writes[..|writes| - 1])
                                  + (if writes[|writes| - 1].body.None? then {writes[|writes| - 1].id} else {})
  {
    assert writes == writes[..|writes| - 1] + [writes[|writes| - 1]];
  }

  /** A list's sessions are those of its parts, in order. */
  lemma {:induction false} SessionsJoin(a: seq<Block>, b: seq<Block>, id: string)
    ensures Sessions(a + b, id) == Sessions(a, id) + Sessions(b, id)
  {
    if b == [] {
      assert a + b == a;
    } else {
      assert (a + b)[..|a + b| - 1] == a + b[..|b| - 1];
      SessionsJoin(a, b[..|b| - 1], id);
    }
  }

  lemma {:induction false} KeptAndGone(blocks: seq<Block>, id: string)
    ensures multiset(blocks) == multiset(Without(blocks, {id})) + multiset(Sessions(blocks, id))
  {
    if blocks != [] {
      assert blocks == blocks[..|blocks| - 1] + [blocks[|blocks| - 1]];
      KeptAndGone(blocks[..|blocks| - 1], id);
    }
  }

  /** A deletion tells which weeks it changed, each with the revision it has now, and what each of them lost:
      exactly its blocks of that homework. No other week changed. */
  lemma DeletionTellsWhatChanged(db: Db, id: string, rev: nat, week: string)
    requires DeleteHomework(db, id, rev).Done?
    ensures var (after, gone) := DeleteHomework(db, id, rev).value;
            var (was, now) := (RowOf(db.weeks, week), RowOf(after.weeks, week));
            && gone.HwGone? && gone.id == id && gone.removed.Keys == gone.changed.Keys
            && (week in gone.changed <==> now != was)
            && (week in gone.changed ==>
                  && gone.changed[week] == now.rev
                  && multiset(was.blocks) == multiset(now.blocks) + multiset(gone.removed[week])
                  && (forall b <- gone.removed[week] :: b.homework == Some(id))
                  && (forall b <- now.blocks :: b.homework != Some(id)))
  {
    KeptAndGone(RowOf(db.weeks, week).blocks, id);
  }

  /** What the server's deletions do to every week and every homework, whatever order the batch names
      them in. */
  lemma {:induction false} DeletesMoveWeeks(db: Db, writes: seq<HwWrite>)
    requires RunDeletes(db, writes).Done?
    ensures var after := RunDeletes(db, writes).value.0;
            && after == db.(weeks := after.weeks, homework := db.homework - DeletedIds(writes))
            && after.weeks.Keys == db.weeks.Keys
            && DeletedIds(writes) <= db.homework.Keys
            && forall week :: RowOf(after.weeks, week) == AfterDeletes(RowOf(db.weeks, week), DeletedIds(writes))
  {
    hide AfterDeletes, CutAll, GoneResult, DeletedIds;
    if writes == [] {
      NoDeletes(db.weeks);
    } else {
      var front, last := writes[..|writes| - 1], writes[|writes| - 1];
      DeletesMoveWeeks(db, front);
      LastDeleted(writes);
      assert DeletedIds(front) + {} == DeletedIds(front);
      if last.body.None? {
        OneDeleteMore(db.weeks, RunDeletes(db, front).value.0.weeks, DeletedIds(front), last.id);
      }
    }
  }

  /** A window whose committed copy is the server's row sends exactly the revision that row will have,
      so no save is refused on account of its own deletions. */
  lemma PredictionIsExact(db: Db, writes: seq<HwWrite>, week: string, committed: seq<Block>, rev: nat,
                          blocks: seq<Block>)
    requires RunDeletes(db, writes).Done?
    requires RowOf(db.weeks, week) == Row(committed, rev)
    ensures var sent := RevisionAfterDeletes(committed, rev, DeletedIds(writes));
            var after := RunDeletes(db, writes).value.0;
            && sent == RowOf(after.weeks, week).rev
            && SaveWeek(after.weeks, WeekWrite(week, blocks, sent)) != Refused(Conflict)
  {
    DeletesMoveWeeks(db, writes);
  }

  // ----- When the prediction can hide another window's work -----

  /** `rows` is what one week went through: each version a save that changed it. */
  predicate Versions(rows: seq<Row>) {
    && |rows| > 0
    && forall i :: 0 < i < |rows| ==> NextVersion(rows[i - 1], rows[i])
  }

  predicate NextVersion(before: Row, after: Row) {
    after.rev == before.rev + 1 && after.blocks != before.blocks && !RepeatsId(after.blocks)
  }

  /** Versions are exactly what changing saves make. */
  lemma NextVersionIsASave(week: string, before: Row, after: Row)
    ensures NextVersion(before, after) <==>
              exists write: WeekWrite :: write.week == week && write.blocks != before.blocks
                && SaveWeek(map[week := before], write) == Done((map[week := after], after.rev))
  {
    if NextVersion(before, after) {
      var write := WeekWrite(week, after.blocks, before.rev);
      assert map[week := before][week := after] == map[week := after];
      assert SaveWeek(map[week := before], write) == Done((map[week := after], after.rev));
    }
    if write: WeekWrite :| write.week == week && write.blocks != before.blocks
                           && SaveWeek(map[week := before], write) == Done((map[week := after], after.rev)) {
      assert map[week := before][week := Row(write.blocks, write.rev + 1)][week] == map[week := after][week];
    }
  }

  /** The server, holding `now`, takes `blocks` as a change from a window that read `base` and deletes
      `deleted` in the same save. */
  predicate Overwrites(now: Row, base: Row, deleted: set<string>, blocks: seq<Block>) {
    var after := AfterDeletes(now, deleted);
    && blocks != after.blocks
    && RevisionAfterDeletes(base.blocks, base.rev, deleted) == after.rev
  }

  /** The versions a save can leap over number exactly the deletions that found fewer sessions than the
      window had read. */
  lemma VersionsLeaptOver(now: Row, base: Row, deleted: set<string>, blocks: seq<Block>)
    requires Overwrites(now, base, deleted, blocks)
    ensures now.rev - base.rev == |Touched(base.blocks, deleted)| - |Touched(now.blocks, deleted)|
    ensures now.rev >= base.rev && Touched(base.blocks, deleted) == {} ==> now.rev == base.rev
  {
  }

  lemma {:induction false} VersionsCount(rows: seq<Row>)
    requires Versions(rows)
    ensures rows[|rows| - 1].rev == rows[0].rev + |rows| - 1
  {
    if |rows| > 1 {
      VersionsCount(rows[..|rows| - 1]);
    }
  }

  function Note(body: string): Block {
    Block("note", None, body)
  }

  lemma NotesHoldNothing(body: string, deleted: set<string>)
    ensures !RepeatsId([Note(body)])
    ensures Touched([Note(body)], deleted) == {} && Without([Note(body)], deleted) == [Note(body)]
  {
    assert [Note(body)][..0] == [];
    assert Without([], deleted) == [];
  }

  lemma PickNote(before: seq<Block>, avoid: seq<Block>) returns (body: string)
    ensures [Note(body)] != before && [Note(body)] != avoid
  {
    var a, b, c := [Note("a")], [Note("b")], [Note("c")];
    assert a[0] != b[0] && b[0] != c[0] && a[0] != c[0];
    body := if a != before && a != avoid then "a" else if b != before && b != avoid then "b" else "c";
  }

  lemma OneVersionMore(rows: seq<Row>, next: Row)
    requires Versions(rows) && NextVersion(rows[|rows| - 1], next)
    ensures Versions(rows + [next])
  {
    hide NextVersion;
  }

  /** Some other window can save `count` times in a row and end on a week that is one note, not `avoid`. */
  lemma {:induction false} SaveTimes(base: Row, count: nat, avoid: seq<Block>) returns (rows: seq<Row>)
    requires count > 0
    ensures Versions(rows) && rows[0] == base && |rows| == count + 1
    ensures exists body :: rows[count].blocks == [Note(body)]
    ensures rows[count].blocks != avoid
  {
    var so: seq<Row> := [base];
    if count > 1 {
      so := SaveTimes(base, count - 1, []);
    }
    var before := so[count - 1];
    var body := PickNote(before.blocks, avoid);
    NotesHoldNothing(body, {});
    var next := Row([Note(body)], before.rev + 1);
    assert NextVersion(before, next);
    hide Versions, NextVersion, RepeatsId;
    OneVersionMore(so, next);
    rows := so + [next];
    assert rows[count].blocks == [Note(body)];
  }

  /** A save skips no version another window made exactly when it deletes no homework whose sessions its
      window last read in that week. With such a deletion, however the week was read and whatever is
      sent, there are versions between that the server lets it overwrite. */
  lemma SkipsNothingIffNoDeletesHere(base: Row, deleted: set<string>, blocks: seq<Block>)
    ensures (forall rows | Versions(rows) && rows[0] == base
                           && Overwrites(rows[|rows| - 1], base, deleted, blocks) :: |rows| == 1)
        <==> Touched(base.blocks, deleted) == {}
  {
    var predicted := |Touched(base.blocks, deleted)|;
    if Touched(base.blocks, deleted) == {} {
      forall rows | Versions(rows) && rows[0] == base && Overwrites(rows[|rows| - 1], base, deleted, blocks)
        ensures |rows| == 1
      {
        VersionsCount(rows);
      }
    } else {
      var rows := SaveTimes(base, predicted, blocks);
      VersionsCount(rows);
      var body :| rows[predicted].blocks == [Note(body)];
      NotesHoldNothing(body, deleted);
      assert Overwrites(rows[|rows| - 1], base, deleted, blocks);
    }
  }
}
