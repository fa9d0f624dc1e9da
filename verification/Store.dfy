/** The account as the store keeps it, and the transaction behind POST /api/changes.

    Week text is compared as a list of blocks. A payload digest is the payload itself: two payloads
    with one digest are taken to be the same payload. */
module Store {
  import opened Basics

  datatype Block = Block(id: string, homework: Option<string>, body: string)

  /** A week row. A week nobody saved reads as no blocks at revision 0. */
  datatype Row = Row(blocks: seq<Block>, rev: nat)

  type Weeks = map<string, Row>

  datatype HwRow = HwRow(body: string, rev: nat)

  type Homework = map<string, HwRow>

  const UNSAVED := Row([], 0)
  const MAX_ASSIGNMENTS := 1000
  const MAX_RESTORE_POINTS := 20
  const MAX_OPERATIONS := 100

  // ----- What travels -----

  datatype WeekWrite = WeekWrite(week: string, blocks: seq<Block>, rev: nat)

  /** A homework write; no body asks for its deletion. */
  datatype HwWrite = HwWrite(id: string, body: Option<string>, rev: nat)

  datatype Batch = Batch(weeks: seq<WeekWrite>, homework: seq<HwWrite>, op: string, pointName: Option<string>)

  datatype HwResult =
    | HwSaved(id: string, body: string, rev: nat)
    | HwGone(id: string, changed: map<string, nat>, removed: map<string, seq<Block>>)

  datatype Reply = Reply(weeks: seq<WeekWrite>, homework: seq<HwResult>)

  // ----- What is kept -----

  /** What a restore point holds. Points made before 0.19.0 hold no standing rows. */
  datatype Snapshot = Snapshot(weeks: Weeks, homework: Homework, standing: Option<seq<string>>)

  datatype Point = Point(id: string, name: string, body: Snapshot)

  datatype Payload =
    | ChangesPayload(batch: Batch)
    | RestorePayload(point: string, weeks: Weeks, homework: Homework)

  datatype Response =
    | ChangesResponse(reply: Reply)
    | RestoreResponse(point: string, recovery: string)

  datatype Op = Op(id: string, payload: Payload, response: Response)

  datatype Db = Db(weeks: Weeks, homework: Homework, ops: seq<Op>, points: seq<Point>, standing: seq<string>)

  // ----- Week rows -----

  function RowOf(weeks: Weeks, week: string): Row {
    if week in weeks then weeks[week] else UNSAVED
  }

  predicate RepeatsId(blocks: seq<Block>) {
    exists i, j :: 0 <= i < j < |blocks| && blocks[i].id == blocks[j].id
  }

  /** A week that already reads as sent keeps its revision and never asks for it. */
  function SaveWeek(weeks: Weeks, write: WeekWrite): Outcome<(Weeks, nat)> {
    var stored := RowOf(weeks, write.week);
    if RepeatsId(write.blocks) then Refused(Unprocessable)
    else if write.blocks == stored.blocks then Done((weeks, stored.rev))
    else if write.rev != stored.rev then Refused(Conflict)
    else Done((weeks[write.week := Row(write.blocks, write.rev + 1)], write.rev + 1))
  }

  // ----- Homework rows -----

  function SaveHomework(homework: Homework, id: string, body: string, rev: nat): Outcome<(Homework, nat)> {
    if id !in homework then
      if rev != 0 then Refused(Conflict)
      else if |homework| >= MAX_ASSIGNMENTS then Refused(Unprocessable)
      else Done((homework[id := HwRow(body, 1)], 1))
    else if homework[id].body == body then Done((homework, homework[id].rev))
    else if rev != homework[id].rev then Refused(Conflict)
    else Done((homework[id := HwRow(body, rev + 1)], rev + 1))
  }

  predicate Holds(blocks: seq<Block>, id: string) {
    exists i :: 0 <= i < |blocks| && blocks[i].homework == Some(id)
  }

  /** `blocks` without the sessions of `ids`, in order. */
  function Without(blocks: seq<Block>, ids: set<string>): (kept: seq<Block>)
    ensures forall b <- kept :: b in blocks && !(b.homework.Some? && b.homework.value in ids)
    ensures forall b <- blocks :: b in kept || (b.homework.Some? && b.homework.value in ids)
  {
    if blocks == [] then []
    else
      var last := blocks[|blocks| - 1];
      var front := Without(blocks[..|blocks| - 1], ids);
      if last.homework.Some? && last.homework.value in ids then front else front + [last]
  }

  /** The sessions of `id` in `blocks`, in order. */
  function Sessions(blocks: seq<Block>, id: string): (removed: seq<Block>)
    ensures forall b <- removed :: b.homework == Some(id)
    ensures removed != [] <==> Holds(blocks, id)
  {
    if blocks == [] then []
    else
      var front := Sessions(blocks[..|blocks| - 1], id);
      var last := blocks[|blocks| - 1];
      assert Holds(blocks, id) <==> Holds(blocks[..|blocks| - 1], id) || last.homework == Some(id) by {
        if Holds(blocks, id) {
          var i :| 0 <= i < |blocks| && blocks[i].homework == Some(id);
          assert i < |blocks| - 1 ==> blocks[..|blocks| - 1][i] == blocks[i];
        }
        if last.homework == Some(id) {
          assert blocks[|blocks| - 1].homework == Some(id);
        }
      }
      if last.homework == Some(id) then front + [last] else front
  }

  /** A week once the homework `id` is deleted: its sessions go, and a week that had any moves up by one. */
  function Cut(row: Row, id: string): Row {
    if Holds(row.blocks, id) then Row(Without(row.blocks, {id}), row.rev + 1) else row
  }

  function CutAll(weeks: Weeks, id: string): Weeks {
    map week | week in weeks :: Cut(weeks[week], id)
  }

  /** The revisions the deletion of `id` gives to those of `done` that held its sessions. */
  function Moved(weeks: Weeks, done: set<string>, id: string): map<string, nat> {
    map week | week in weeks && week in done && Holds(weeks[week].blocks, id) :: weeks[week].rev + 1
  }

  /** The sessions those weeks lose. */
  function Lost(weeks: Weeks, done: set<string>, id: string): map<string, seq<Block>> {
    map week | week in weeks && week in done && Holds(weeks[week].blocks, id) :: Sessions(weeks[week].blocks, id)
  }

  function GoneResult(weeks: Weeks, id: string): HwResult {
    HwGone(id, Moved(weeks, weeks.Keys, id), Lost(weeks, weeks.Keys, id))
  }

  function DeleteHomework(db: Db, id: string, rev: nat): Outcome<(Db, HwResult)> {
    if id !in db.homework then Refused(NotFound)
    else if db.homework[id].rev != rev then Refused(Conflict)
    else Done((db.(weeks := CutAll(db.weeks, id), homework := db.homework - {id}), GoneResult(db.weeks, id)))
  }

  // ----- Restore points and remembered operations -----

  /** `points` without the oldest `count` that are not protected. */
  function DropOldest(points: seq<Point>, protect: set<string>, count: nat): seq<Point> {
    if points == [] || count == 0 then points
    else if points[0].id in protect then [points[0]] + DropOldest(points[1..], protect, count)
    else DropOldest(points[1..], protect, count - 1)
  }

  function Over(length: nat, keep: nat): nat {
    if length > keep then length - keep else 0
  }

  function InsertPoint(points: seq<Point>, point: Point, keepIds: set<string>): seq<Point> {
    var all := points + [point];
    DropOldest(all, keepIds + {point.id}, Over(|all|, MAX_RESTORE_POINTS))
  }

  datatype Recalled = Missing | Clash | Hit(response: Response)

  function Recall(ops: seq<Op>, id: string, payload: Payload): Recalled {
    if ops == [] then Missing
    else if ops[0].id == id then (if ops[0].payload == payload then Hit(ops[0].response) else Clash)
    else Recall(ops[1..], id, payload)
  }

  function Remember(ops: seq<Op>, op: Op): seq<Op> {
    var all := ops + [op];
    all[Over(|all|, MAX_OPERATIONS)..]
  }

  function Capture(db: Db): Snapshot {
    Snapshot(db.weeks, db.homework, Some(db.standing))
  }

  // ----- The transaction -----

  /** The homework the batch changes or adds, in its order; deletions wait. */
  function RunUpserts(homework: Homework, writes: seq<HwWrite>): Outcome<(Homework, seq<HwResult>)> {
    if writes == [] then Done((homework, []))
    else
      var last := writes[|writes| - 1];
      var front :- RunUpserts(homework, writes[..|writes| - 1]);
      if last.body.None? then Done(front)
      else
        var saved :- SaveHomework(front.0, last.id, last.body.value, last.rev);
        Done((saved.0, front.1 + [HwSaved(last.id, last.body.value, saved.1)]))
  }

  function RunDeletes(db: Db, writes: seq<HwWrite>): Outcome<(Db, seq<HwResult>)> {
    if writes == [] then Done((db, []))
    else
      var last := writes[|writes| - 1];
      var front :- RunDeletes(db, writes[..|writes| - 1]);
      if last.body.Some? then Done(front)
      else
        var gone :- DeleteHomework(front.0, last.id, last.rev);
        Done((gone.0, front.1 + [gone.1]))
  }

  /** Every session's homework is this account's own. */
  predicate Owned(homework: Homework, blocks: seq<Block>) {
    forall b <- blocks :: b.homework.Some? ==> b.homework.value in homework
  }

  function RunWeeks(db: Db, writes: seq<WeekWrite>): Outcome<(Db, seq<WeekWrite>)> {
    if writes == [] then Done((db, []))
    else
      var last := writes[|writes| - 1];
      var front :- RunWeeks(db, writes[..|writes| - 1]);
      if !Owned(front.0.homework, last.blocks) then Refused(Unprocessable)
      else
        var saved :- SaveWeek(front.0.weeks, last);
        Done((front.0.(weeks := saved.0), front.1 + [WeekWrite(last.week, last.blocks, saved.1)]))
  }

  /** The account with the restore point a batch asks for before it changes anything. */
  function WithPoint(db: Db, name: Option<string>, token: string): Db {
    if name.None? then db
    else db.(points := InsertPoint(db.points, Point("rp-" + token, name.value, Capture(db)), {}))
  }

  /** Everything a batch does inside its transaction, before the operation is remembered. */
  function RunBatch(db: Db, batch: Batch, token: string): Outcome<(Db, Reply)> {
    var marked := WithPoint(db, batch.pointName, token);
    var upserted :- RunUpserts(marked.homework, batch.homework);
    var deleted :- RunDeletes(marked.(homework := upserted.0), batch.homework);
    var written :- RunWeeks(deleted.0, batch.weeks);
    Done((written.0, Reply(written.1, upserted.1 + deleted.1)))
  }

  /** POST /api/changes: recalled, or run whole, or refused with nothing changed. */
  function PostChanges(db: Db, batch: Batch, token: string): (Db, Outcome<Response>) {
    match Recall(db.ops, batch.op, ChangesPayload(batch))
    case Hit(response) => (db, Done(response))
    case Clash => (db, Refused(Conflict))
    case Missing =>
      match RunBatch(db, batch, token)
      case Refused(why) => (db, Refused(why))
      case Done((ran, reply)) =>
        var response := ChangesResponse(reply);
        (ran.(ops := Remember(ran.ops, Op(batch.op, ChangesPayload(batch), response))), Done(response))
  }

  /** POST /api/restore-points/{id}/restore. `weeks` and `homework` are what the preview's state token
      stands for. */
  function Restore(db: Db, id: string, weeks: Weeks, homework: Homework, op: string, token: string):
    (Db, Outcome<Response>)
  {
    var payload := RestorePayload(id, weeks, homework);
    match Recall(db.ops, op, payload)
    case Hit(response) => (db, Done(response))
    case Clash => (db, Refused(Conflict))
    case Missing =>
      match FindPoint(db.points, id)
      case None => (db, Refused(NotFound))
      case Some(point) =>
        if weeks != db.weeks || homework != db.homework then (db, Refused(Conflict))
        else if exists week <- point.body.weeks :: RepeatsId(point.body.weeks[week].blocks) then
          (db, Refused(Unprocessable))
        else
          var recovery := Point("rp-" + token, "Before restore", Capture(db));
          var response := RestoreResponse(id, recovery.id);
          (Db(point.body.weeks, point.body.homework, Remember(db.ops, Op(op, payload, response)),
              InsertPoint(db.points, recovery, {id}),
              if point.body.standing.Some? then point.body.standing.value else db.standing),
           Done(response))
  }

  function FindPoint(points: seq<Point>, id: string): (found: Option<Point>)
    ensures found.Some? ==> found.value in points && found.value.id == id
    ensures found.None? <==> forall p <- points :: p.id != id
  {
    if points == [] then None
    else if points[0].id == id then Some(points[0])
    else FindPoint(points[1..], id)
  }

  // ----- The store itself, changed in place -----

  /** One account's rows behind one connection. Each handler is one transaction: a refusal part-way puts
      every row back. */
  class Account {
    var weeks: Weeks
    var homework: Homework
    var ops: seq<Op>
    var points: seq<Point>
    var standing: seq<string>

    ghost function State(): Db
      reads this
    {
      Db(weeks, homework, ops, points, standing)
    }

    constructor ()
      ensures State() == Db(map[], map[], [], [], [])
    {
      weeks, homework, ops, points, standing := map[], map[], [], [], [];
    }

    method SaveWeekRow(write: WeekWrite) returns (r: Outcome<nat>)
      modifies this`weeks
      ensures SaveWeek(old(weeks), write).Done? ==>
                r.Done? && SaveWeek(old(weeks), write) == Done((weeks, r.value))
      ensures SaveWeek(old(weeks), write).Refused? ==>
                weeks == old(weeks) && r == Refused(SaveWeek(old(weeks), write).why)
    {
      if RepeatsId(write.blocks) {
        return Refused(Unprocessable);
      }
      var stored := RowOf(weeks, write.week);
      if write.blocks == stored.blocks {
        return Done(stored.rev);
      }
      if write.rev != stored.rev {
        return Refused(Conflict);
      }
      weeks := weeks[write.week := Row(write.blocks, stored.rev + 1)];
      return Done(write.rev + 1);
    }

    method UpsertAssignment(id: string, body: string, rev: nat) returns (r: Outcome<nat>)
      modifies this`homework
      ensures SaveHomework(old(homework), id, body, rev).Done? ==>
                r.Done? && SaveHomework(old(homework), id, body, rev) == Done((homework, r.value))
      ensures SaveHomework(old(homework), id, body, rev).Refused? ==>
                homework == old(homework) && r == Refused(SaveHomework(old(homework), id, body, rev).why)
    {
      if id !in homework {
        if rev != 0 {
          return Refused(Conflict);
        }
        if |homework| >= MAX_ASSIGNMENTS {
          return Refused(Unprocessable);
        }
        homework := homework[id := HwRow(body, 1)];
        return Done(1);
      }
      if homework[id].body == body {
        return Done(homework[id].rev);
      }
      if rev != homework[id].rev {
        return Refused(Conflict);
      }
      homework := homework[id := HwRow(body, homework[id].rev + 1)];
      return Done(rev + 1);
    }

    /** One week after another loses the sessions of `id`; says which weeks moved and what they lost. */
    method CutWeeks(id: string) returns (changed: map<string, nat>, removed: map<string, seq<Block>>)
      modifies this`weeks
      ensures weeks == CutAll(old(weeks), id)
      ensures HwGone(id, changed, removed) == GoneResult(old(weeks), id)
    {
      changed, removed := map[], map[];
      var todo := weeks.Keys;
      ghost var done: set<string> := {};
      while todo != {}
        invariant todo + done == old(weeks).Keys && todo !! done
        invariant weeks == CutSome(old(weeks), done, id)
        invariant changed == Moved(old(weeks), done, id)
        invariant removed == Lost(old(weeks), done, id)
        decreases todo
      {
        var week :| week in todo;
        CutStep(old(weeks), done, week, id);
        var row := weeks[week];
        var gone := Sessions(row.blocks, id);
        if gone != [] {
          weeks := weeks[week := Row(Without(row.blocks, {id}), row.rev + 1)];
          changed := changed[week := row.rev + 1];
          removed := removed[week := gone];
        }
        todo := todo - {week};
        done := done + {week};
      }
      assert done == old(weeks).Keys;
    }

    method RemoveAssignment(id: string, rev: nat) returns (r: Outcome<HwResult>)
      modifies this`weeks, this`homework
      ensures DeleteHomework(old(State()), id, rev).Done? ==>
                r.Done? && DeleteHomework(old(State()), id, rev) == Done((State(), r.value))
      ensures DeleteHomework(old(State()), id, rev).Refused? ==>
                State() == old(State()) && r == Refused(DeleteHomework(old(State()), id, rev).why)
    {
      if id !in homework {
        return Refused(NotFound);
      }
      if homework[id].rev != rev {
        return Refused(Conflict);
      }
      var changed, removed := CutWeeks(id);
      homework := homework - {id};
      return Done(HwGone(id, changed, removed));
    }

    method PruneRestorePoints(protect: set<string>)
      modifies this`points
      ensures points == DropOldest(old(points), protect, Over(|old(points)|, MAX_RESTORE_POINTS))
    {
      var left := Over(|points|, MAX_RESTORE_POINTS);
      var kept: seq<Point>, i := [], 0;
      while i < |points| && left > 0
        invariant 0 <= i <= |points|
        invariant kept + DropOldest(points[i..], protect, left)
               == DropOldest(points, protect, Over(|points|, MAX_RESTORE_POINTS))
      {
        if points[i].id in protect {
          kept := kept + [points[i]];
          assert kept + DropOldest(points[i + 1..], protect, left)
              == kept[..|kept| - 1] + ([points[i]] + DropOldest(points[i + 1..], protect, left));
        } else {
          left := left - 1;
        }
        i := i + 1;
      }
      points := kept + points[i..];
    }

    method InsertRestorePoint(token: string, name: string, keepIds: set<string>)
      modifies this`points
      ensures points == InsertPoint(old(points), Point("rp-" + token, name, Capture(old(State()))), keepIds)
    {
      var body := Snapshot(weeks, homework, Some(standing));
      points := points + [Point("rp-" + token, name, body)];
      PruneRestorePoints(keepIds + {"rp-" + token});
    }

    method RecallOperation(id: string, payload: Payload) returns (r: Recalled)
      ensures r == Recall(ops, id, payload)
    {
      var i := 0;
      while i < |ops|
        invariant 0 <= i <= |ops|
        invariant Recall(ops, id, payload) == Recall(ops[i..], id, payload)
      {
        if ops[i].id == id {
          return if ops[i].payload == payload then Hit(ops[i].response) else Clash;
        }
        i := i + 1;
      }
      return Missing;
    }

    method RememberOperation(op: Op)
      modifies this`ops
      ensures ops == Remember(old(ops), op)
    {
      ops := ops + [op];
      if |ops| > MAX_OPERATIONS {
        ops := ops[|ops| - MAX_OPERATIONS..];
      }
    }

    /** The first pass over the batch: upserts as they come, deletions put aside. */
    method RunUpsertPass(writes: seq<HwWrite>) returns (r: Outcome<seq<HwResult>>, deletes: seq<HwWrite>)
      modifies this`homework
      ensures RunUpserts(old(homework), writes).Done? ==>
                r.Done? && RunUpserts(old(homework), writes) == Done((homework, r.value))
                && deletes == Deletions(writes)
      ensures RunUpserts(old(homework), writes).Refused? ==>
                r == Refused(RunUpserts(old(homework), writes).why)
    {
      var results: seq<HwResult> := [];
      deletes := [];
      var i := 0;
      while i < |writes|
        invariant 0 <= i <= |writes|
        invariant RunUpserts(old(homework), writes[..i]) == Done((homework, results))
        invariant deletes == Deletions(writes[..i])
      {
        var change := writes[i];
        assert writes[..i + 1][..i] == writes[..i];
        if change.body.None? {
          deletes := deletes + [change];
        } else {
          var saved := UpsertAssignment(change.id, change.body.value, change.rev);
          if saved.Refused? {
            UpsertsStop(old(homework), writes, i + 1);
            return Refused(saved.why), deletes;
          }
          results := results + [HwSaved(change.id, change.body.value, saved.value)];
        }
        i := i + 1;
      }
      assert writes[..i] == writes;
      return Done(results), deletes;
    }

    method RunDeletePass(deletes: seq<HwWrite>) returns (r: Outcome<seq<HwResult>>)
      requires forall d <- deletes :: d.body.None?
      modifies this`weeks, this`homework
      ensures RunDeletes(old(State()), deletes).Done? ==>
                r.Done? && RunDeletes(old(State()), deletes) == Done((State(), r.value))
      ensures RunDeletes(old(State()), deletes).Refused? ==>
                r == Refused(RunDeletes(old(State()), deletes).why)
    {
      var results: seq<HwResult> := [];
      var i := 0;
      while i < |deletes|
        invariant 0 <= i <= |deletes|
        invariant RunDeletes(old(State()), deletes[..i]) == Done((State(), results))
      {
        assert deletes[..i + 1][..i] == deletes[..i];
        var deleted := RemoveAssignment(deletes[i].id, deletes[i].rev);
        if deleted.Refused? {
          DeletesStop(old(State()), deletes, i + 1);
          return Refused(deleted.why);
        }
        results := results + [deleted.value];
        i := i + 1;
      }
      assert deletes[..i] == deletes;
      return Done(results);
    }

    method RunWeekPass(writes: seq<WeekWrite>) returns (r: Outcome<seq<WeekWrite>>)
      modifies this`weeks
      ensures RunWeeks(old(State()), writes).Done? ==>
                r.Done? && RunWeeks(old(State()), writes) == Done((State(), r.value))
      ensures RunWeeks(old(State()), writes).Refused? ==> r == Refused(RunWeeks(old(State()), writes).why)
    {
      var results: seq<WeekWrite> := [];
      var i := 0;
      while i < |writes|
        invariant 0 <= i <= |writes|
        invariant RunWeeks(old(State()), writes[..i]) == Done((State(), results))
      {
        var write := writes[i];
        assert writes[..i + 1][..i] == writes[..i];
        if !Owned(homework, write.blocks) {
          WeeksStop(old(State()), writes, i + 1);
          return Refused(Unprocessable);
        }
        var saved := SaveWeekRow(write);
        if saved.Refused? {
          WeeksStop(old(State()), writes, i + 1);
          return Refused(saved.why);
        }
        results := results + [WeekWrite(write.week, write.blocks, saved.value)];
        i := i + 1;
      }
      assert writes[..i] == writes;
      return Done(results);
    }

    /** The batch's own work on the rows. A refusal may leave rows half changed; the handler rolls back. */
    method Run(batch: Batch, token: string) returns (r: Outcome<Reply>)
      modifies this
      ensures RunBatch(old(State()), batch, token).Done? ==>
                r.Done? && RunBatch(old(State()), batch, token) == Done((State(), r.value))
      ensures RunBatch(old(State()), batch, token).Refused? ==>
                r == Refused(RunBatch(old(State()), batch, token).why)
    {
      if batch.pointName.Some? {
        InsertRestorePoint(token, batch.pointName.value, {});
      }
      var saved, deletes := RunUpsertPass(batch.homework);
      if saved.Refused? {
        return Refused(saved.why);
      }
      DeletesAlone(State(), batch.homework);
      var deleted := RunDeletePass(deletes);
      if deleted.Refused? {
        return Refused(deleted.why);
      }
      var written := RunWeekPass(batch.weeks);
      if written.Refused? {
        return Refused(written.why);
      }
      return Done(Reply(written.value, saved.value + deleted.value));
    }

    method PostChangesRequest(batch: Batch, token: string) returns (r: Outcome<Response>)
      modifies this
      ensures (State(), r) == PostChanges(old(State()), batch, token)
    {
      var known := RecallOperation(batch.op, ChangesPayload(batch));
      match known
      case Hit(response) => return Done(response);
      case Clash => return Refused(Conflict);
      case Missing =>
      var weeks0, homework0, ops0, points0, standing0 := weeks, homework, ops, points, standing;
      var ran := Run(batch, token);
      if ran.Refused? {
        weeks, homework, ops, points, standing := weeks0, homework0, ops0, points0, standing0;
        return Refused(ran.why);
      }
      RememberOperation(Op(batch.op, ChangesPayload(batch), ChangesResponse(ran.value)));
      return Done(ChangesResponse(ran.value));
    }

    method RestoreRequest(id: string, weeksSeen: Weeks, homeworkSeen: Homework, op: string, token: string)
      returns (r: Outcome<Response>)
      modifies this
      ensures (State(), r) == Restore(old(State()), id, weeksSeen, homeworkSeen, op, token)
    {
      var payload := RestorePayload(id, weeksSeen, homeworkSeen);
      var known := RecallOperation(op, payload);
      match known
      case Hit(response) => return Done(response);
      case Clash => return Refused(Conflict);
      case Missing =>
      var found := FindPoint(points, id);
      if found.None? {
        return Refused(NotFound);
      }
      if weeksSeen != weeks || homeworkSeen != homework {
        return Refused(Conflict);
      }
      var stored := found.value.body;
      var points0 := points;
      InsertRestorePoint(token, "Before restore", {id});
      if exists week <- stored.weeks :: RepeatsId(stored.weeks[week].blocks) {
        points := points0;
        return Refused(Unprocessable);
      }
      weeks, homework := stored.weeks, stored.homework;
      if stored.standing.Some? {
        standing := stored.standing.value;
      }
      r := Done(RestoreResponse(id, "rp-" + token));
      RememberOperation(Op(op, payload, r.value));
    }
  }

  // ----- What the handler's loops need -----

  /** The weeks after the deletion has been through those of `done`. */
  ghost function CutSome(weeks: Weeks, done: set<string>, id: string): Weeks {
    map week | week in weeks :: if week in done then Cut(weeks[week], id) else weeks[week]
  }

  lemma CutStep(weeks: Weeks, done: set<string>, week: string, id: string)
    requires week in weeks && week !in done
    ensures CutSome(weeks, done, id)[week] == weeks[week]
    ensures CutSome(weeks, done + {week}, id) == CutSome(weeks, done, id)[week := Cut(weeks[week], id)]
    ensures Moved(weeks, done + {week}, id)
         == if Holds(weeks[week].blocks, id) then Moved(weeks, done, id)[week := weeks[week].rev + 1]
            else Moved(weeks, done, id)
    ensures Lost(weeks, done + {week}, id)
         == if Holds(weeks[week].blocks, id) then Lost(weeks, done, id)[week := Sessions(weeks[week].blocks, id)]
            else Lost(weeks, done, id)
  {
  }

  /** The writes that ask for a deletion, in order. */
  function Deletions(writes: seq<HwWrite>): (deletes: seq<HwWrite>)
    ensures forall d <- deletes :: d.body.None? && d in writes
    ensures forall d <- writes :: d.body.None? ==> d in deletes
  {
    if writes == [] then []
    else
      var last := writes[|writes| - 1];
      var front := Deletions(writes[..|writes| - 1]);
      if last.body.None? then front + [last] else front
  }

  /** Running a batch's deletions on their own is running them among its other writes. */
  lemma {:induction false} DeletesAlone(db: Db, writes: seq<HwWrite>)
    ensures RunDeletes(db, Deletions(writes)) == RunDeletes(db, writes)
  {
    if writes != [] {
      var front, last := writes[..|writes| - 1], writes[|writes| - 1];
      DeletesAlone(db, front);
      if last.body.None? {
        assert Deletions(writes)[..|Deletions(writes)| - 1] == Deletions(front);
      }
    }
  }

  /** A refusal anywhere in the batch refuses all of it. */
  lemma {:induction false} UpsertsStop(homework: Homework, writes: seq<HwWrite>, at: nat)
    requires at <= |writes| && RunUpserts(homework, writes[..at]).Refused?
    ensures RunUpserts(homework, writes) == Refused(RunUpserts(homework, writes[..at]).why)
  {
    if at == |writes| {
      assert writes[..at] == writes;
    } else {
      assert writes[..|writes| - 1][..at] == writes[..at];
      UpsertsStop(homework, writes[..|writes| - 1], at);
    }
  }

  lemma {:induction false} DeletesStop(db: Db, writes: seq<HwWrite>, at: nat)
    requires at <= |writes| && RunDeletes(db, writes[..at]).Refused?
    ensures RunDeletes(db, writes) == Refused(RunDeletes(db, writes[..at]).why)
  {
    if at == |writes| {
      assert writes[..at] == writes;
    } else {
      assert writes[..|writes| - 1][..at] == writes[..at];
      DeletesStop(db, writes[..|writes| - 1], at);
    }
  }

  lemma {:induction false} WeeksStop(db: Db, writes: seq<WeekWrite>, at: nat)
    requires at <= |writes| && RunWeeks(db, writes[..at]).Refused?
    ensures RunWeeks(db, writes) == Refused(RunWeeks(db, writes[..at]).why)
  {
    if at == |writes| {
      assert writes[..at] == writes;
    } else {
      assert writes[..|writes| - 1][..at] == writes[..at];
      WeeksStop(db, writes[..|writes| - 1], at);
    }
  }
}
