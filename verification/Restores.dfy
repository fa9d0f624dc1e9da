/** Restore points: a restore can always be taken back with the point it makes of the account it
    replaces, and that point outlives the next eighteen. */
module Restores {
  import opened Basics
  import opened Store
  import opened RetryOnce

  predicate SoundPoints(points: seq<Point>) {
    && |points| <= MAX_RESTORE_POINTS
    && DistinctIds(points)
  }

  predicate DistinctIds(points: seq<Point>) {
    forall i, j :: 0 <= i < j < |points| ==> points[i].id != points[j].id
  }

  /** `point` is kept, with `newer` points made after it. */
  predicate PointAt(points: seq<Point>, point: Point, newer: nat) {
    newer < |points| && points[|points| - 1 - newer] == point
  }

  lemma {:induction false} FindsTheOnly(points: seq<Point>, at: nat)
    requires DistinctIds(points) && at < |points|
    ensures FindPoint(points, points[at].id) == Some(points[at])
  {
    if at > 0 {
      FindsTheOnly(points[1..], at - 1);
    }
  }

  /** Pruning a full list takes the oldest point, or the second when the oldest is protected. */
  lemma PruneTakesOne(points: seq<Point>, point: Point, keepIds: set<string>)
    requires |points| == MAX_RESTORE_POINTS && |keepIds| <= 1
    requires DistinctIds(points + [point])
    ensures var at := if points[0].id in keepIds then 1 else 0;
            && InsertPoint(points, point, keepIds) == (points + [point])[..at] + (points + [point])[at + 1..]
            && points[at].id !in keepIds
  {
    var all, protect := points + [point], keepIds + {point.id};
    assert all[0] == points[0] && all[1] == points[1] && all[|all| - 1] == point;
    assert all[1..][0] == all[1];
    if points[0].id in keepIds && points[1].id in keepIds {
      assert {points[0].id, points[1].id} <= keepIds;
      SubsetSize({points[0].id, points[1].id}, keepIds);
    }
    if points[0].id in keepIds {
      assert DropOldest(all, protect, 1) == [all[0]] + DropOldest(all[1..], protect, 1);
      assert DropOldest(all[1..], protect, 1) == DropOldest(all[1..][1..], protect, 0) == all[2..];
    } else {
      assert DropOldest(all, protect, 1) == DropOldest(all[1..], protect, 0);
    }
  }

  lemma SubsetSize<T>(a: set<T>, b: set<T>)
    requires a <= b
    ensures |a| <= |b|
  {
    assert b == a + (b - a);
  }

  /** Adding a point keeps the limit, the new point, the protected one, and every point with at most
      seventeen newer ones. */
  lemma InsertKeeps(points: seq<Point>, point: Point, keepIds: set<string>)
    requires SoundPoints(points) && DistinctIds(points + [point]) && |keepIds| <= 1
    ensures SoundPoints(InsertPoint(points, point, keepIds))
    ensures PointAt(InsertPoint(points, point, keepIds), point, 0)
    ensures forall p <- points :: p.id in keepIds ==> p in InsertPoint(points, point, keepIds)
    ensures forall p, newer: nat :: PointAt(points, p, newer) && newer <= 17 ==>
                                      PointAt(InsertPoint(points, point, keepIds), p, newer + 1)
  {
    var all := points + [point];
    assert forall p <- points :: p in all;
    assert forall p, newer: nat :: PointAt(points, p, newer) ==> PointAt(all, p, newer + 1);
    if |points| < MAX_RESTORE_POINTS {
      assert InsertPoint(points, point, keepIds) == all;
    } else {
      PruneTakesOne(points, point, keepIds);
      RemovedAt(all, if points[0].id in keepIds then 1 else 0);
    }
  }

  lemma RemovedAt(all: seq<Point>, at: nat)
    requires at < |all| && DistinctIds(all)
    ensures var left := all[..at] + all[at + 1..];
            && DistinctIds(left)
            && (forall p <- all :: p != all[at] ==> p in left)
            && (forall p, newer: nat :: newer + at + 1 < |all| && PointAt(all, p, newer) ==> PointAt(left, p, newer))
  {
    var left := all[..at] + all[at + 1..];
    forall p <- all | p != all[at]
      ensures p in left
    {
      var i :| 0 <= i < |all| && all[i] == p;
      assert left[if i < at then i else i - 1] == p;
    }
  }

  /** Which points outlive the next one: all of them while there is room, and in a full list every point with
      at most seventeen newer ones. The one with eighteen goes exactly when the oldest is the point being
      restored, and the oldest exactly when it is not. */
  lemma OutlivesExactly(points: seq<Point>, point: Point, keepIds: set<string>, kept: Point, newer: nat)
    requires SoundPoints(points) && DistinctIds(points + [point]) && |keepIds| <= 1
    requires PointAt(points, kept, newer)
    ensures kept in InsertPoint(points, point, keepIds)
       <==> || |points| < MAX_RESTORE_POINTS
            || newer <= 17
            || (if newer == 18 then points[0].id !in keepIds else kept.id in keepIds)
  {
    var all := points + [point];
    assert all[|points| - 1 - newer] == kept;
    if |points| == MAX_RESTORE_POINTS {
      PruneTakesOne(points, point, keepIds);
      var at := if points[0].id in keepIds then 1 else 0;
      RemovedAt(all, at);
      OnlyOnce(all, at);
    } else {
      assert InsertPoint(points, point, keepIds) == all;
    }
  }

  lemma OnlyOnce(all: seq<Point>, at: nat)
    requires at < |all| && DistinctIds(all)
    ensures all[at] !in all[..at] + all[at + 1..]
  {
  }

  predicate SoundWeeks(weeks: Weeks) {
    forall week <- weeks :: !RepeatsId(weeks[week].blocks)
  }

  predicate NewOp(db: Db, op: string) {
    forall known <- db.ops :: known.id != op
  }

  predicate NewPoint(db: Db, token: string) {
    forall p <- db.points :: p.id != "rp-" + token
  }

  /** The point a restore makes of the account it replaces. */
  function Recovery(db: Db, token: string): Point {
    Point("rp-" + token, "Before restore", Capture(db))
  }

  lemma NewPointStaysDistinct(db: Db, token: string, point: Point)
    requires DistinctIds(db.points) && NewPoint(db, token) && point.id == "rp-" + token
    ensures DistinctIds(db.points + [point])
  {
  }

  /** A restore answers for the state the preview showed and no other, and for no point that repeats an id in a
      week; it puts back exactly the point's
      weeks, homework and standing rows; and it leaves within the limit both the point it used and one
      of everything it replaced. */
  lemma RestorePutsBackThePreview(db: Db, point: Point, weeks: Weeks, homework: Homework, op: string,
                                  token: string)
    requires SoundPoints(db.points) && point in db.points
    requires NewOp(db, op) && NewPoint(db, token)
    ensures var (after, reply) := Restore(db, point.id, weeks, homework, op, token);
            && (reply.Done? <==> weeks == db.weeks && homework == db.homework && SoundWeeks(point.body.weeks))
            && (reply.Refused? ==>
                  after == db
                  && reply.why == if weeks == db.weeks && homework == db.homework then Unprocessable else Conflict)
            && (reply.Done? ==>
                  && reply.value == RestoreResponse(point.id, Recovery(db, token).id)
                  && after.weeks == point.body.weeks && after.homework == point.body.homework
                  && (point.body.standing.Some? ==> after.standing == point.body.standing.value)
                  && (point.body.standing.None? ==> after.standing == db.standing)
                  && SoundPoints(after.points)
                  && FindPoint(after.points, point.id) == Some(point)
                  && PointAt(after.points, Recovery(db, token), 0))
  {
    RecallMissing(db.ops, op, RestorePayload(point.id, weeks, homework));
    var i :| 0 <= i < |db.points| && db.points[i] == point;
    FindsTheOnly(db.points, i);
    var (after, reply) := Restore(db, point.id, weeks, homework, op, token);
    if reply.Done? {
      NewPointStaysDistinct(db, token, Recovery(db, token));
      InsertKeeps(db.points, Recovery(db, token), {point.id});
      var j :| 0 <= j < |after.points| && after.points[j] == point;
      FindsTheOnly(after.points, j);
    }
  }

  /** A point there is none of restores nothing, whatever the window was shown. */
  lemma NoPointNoRestore(db: Db, id: string, weeks: Weeks, homework: Homework, op: string, token: string)
    requires NewOp(db, op) && forall point <- db.points :: point.id != id
    ensures Restore(db, id, weeks, homework, op, token) == (db, Refused(NotFound))
  {
    RecallMissing(db.ops, op, RestorePayload(id, weeks, homework));
  }

  // ----- What may happen before the recovery point is used -----

  /** The request makes a restore point. */
  predicate Makes(db: Db, request: Request) {
    Enters(db, request) && (request.Changes? ==> request.post.batch.pointName.Some?)
  }

  function PointsMade(db: Db, requests: seq<Request>): nat
    decreases requests
  {
    if requests == [] then 0
    else (if Makes(db, requests[0]) then 1 else 0) + PointsMade(Handle(db, requests[0]), requests[1..])
  }

  /** Every token drawn in the run is one no kept point has. */
  predicate FreshTokens(db: Db, requests: seq<Request>)
    decreases requests
  {
    requests == [] ||
    (NewPoint(db, match requests[0] case Changes(post) => post.token
                                    case GoBack(_, _, _, _, token) => token)
     && FreshTokens(Handle(db, requests[0]), requests[1..]))
  }

  lemma ChangesPoints(db: Db, post: Post)
    ensures var after := PostChanges(db, post.batch, post.token).0;
            after.points == if Runs(db, post) then WithPoint(db, post.batch.pointName, post.token).points
                            else db.points
  {
    if Runs(db, post) {
      var marked := WithPoint(db, post.batch.pointName, post.token);
      var upserted := RunUpserts(marked.homework, post.batch.homework).value;
      DeletesKeepPoints(marked.(homework := upserted.0), post.batch.homework);
      WeeksKeepRest(RunDeletes(marked.(homework := upserted.0), post.batch.homework).value.0, post.batch.weeks);
    }
  }

  lemma {:induction false} DeletesKeepPoints(db: Db, writes: seq<HwWrite>)
    requires RunDeletes(db, writes).Done?
    ensures RunDeletes(db, writes).value.0.points == db.points
  {
    if writes != [] {
      DeletesKeepPoints(db, writes[..|writes| - 1]);
    }
  }

  lemma PointThroughRequest(db: Db, point: Point, newer: nat, request: Request)
    requires SoundPoints(db.points) && PointAt(db.points, point, newer)
    requires FreshTokens(db, [request])
    requires Makes(db, request) ==> newer <= 17
    ensures SoundPoints(Handle(db, request).points)
    ensures PointAt(Handle(db, request).points, point, if Makes(db, request) then newer + 1 else newer)
  {
    match request
    case Changes(post) =>
      ChangesPoints(db, post);
      if Makes(db, request) {
        var made := Point("rp-" + post.token, post.batch.pointName.value, Capture(db));
        NewPointStaysDistinct(db, post.token, made);
        InsertKeeps(db.points, made, {});
      }
    case GoBack(id, weeks, homework, op, token) =>
      if Makes(db, request) {
        NewPointStaysDistinct(db, token, Recovery(db, token));
        InsertKeeps(db.points, Recovery(db, token), {id});
      }
  }

  lemma {:induction false} PointThroughRun(db: Db, point: Point, newer: nat, requests: seq<Request>)
    requires SoundPoints(db.points) && PointAt(db.points, point, newer)
    requires FreshTokens(db, requests)
    requires newer + PointsMade(db, requests) <= 18
    ensures SoundPoints(HandleAll(db, requests).points)
    ensures PointAt(HandleAll(db, requests).points, point, newer + PointsMade(db, requests))
    decreases requests
  {
    hide Handle, SoundPoints, PointAt;
    if requests != [] {
      assert [requests[0]][1..] == [];
      PointThroughRequest(db, point, newer, requests[0]);
      PointThroughRun(Handle(db, requests[0]), point, if Makes(db, requests[0]) then newer + 1 else newer,
                      requests[1..]);
    }
  }

  /** Restoring is reversible: whatever saves and restores follow, while they make at most eighteen
      points, restoring the recovery point brings back the weeks, homework and standing rows from before
      the first restore. */
  lemma RestoreIsReversible(db: Db, point: Point, op: string, token: string, requests: seq<Request>,
                            op2: string, token2: string)
    requires SoundPoints(db.points) && point in db.points
    requires SoundWeeks(db.weeks) && SoundWeeks(point.body.weeks)
    requires NewOp(db, op) && NewPoint(db, token)
    requires var after := Restore(db, point.id, db.weeks, db.homework, op, token).0;
             && FreshTokens(after, requests) && PointsMade(after, requests) <= 18
             && NewOp(HandleAll(after, requests), op2) && NewPoint(HandleAll(after, requests), token2)
    ensures var (after, reply) := Restore(db, point.id, db.weeks, db.homework, op, token);
            var now := HandleAll(after, requests);
            && reply.Done? && reply.value.RestoreResponse?
            && var (back, answer) := Restore(now, reply.value.recovery, now.weeks, now.homework, op2, token2);
               && answer.Done?
               && back.weeks == db.weeks && back.homework == db.homework && back.standing == db.standing
  {
    RestorePutsBackThePreview(db, point, db.weeks, db.homework, op, token);
    var after := Restore(db, point.id, db.weeks, db.homework, op, token).0;
    PointThroughRun(after, Recovery(db, token), 0, requests);
    var now := HandleAll(after, requests);
    RestorePutsBackThePreview(now, Recovery(db, token), now.weeks, now.homework, op2, token2);
  }

  // ----- A recovery point that goes -----

  function Xs(n: nat): string {
    seq(n, _ => 'x')
  }

  /** A save that changes nothing but asks for a restore point. */
  function Copy(n: nat): Request {
    Changes(Post(Batch([], [], Xs(n), Some("A copy")), Xs(n)))
  }

  function Copies(from: nat, count: nat): seq<Request>
    decreases count
  {
    if count == 0 then [] else [Copy(from)] + Copies(from + 1, count - 1)
  }

  predicate ShorterIds(db: Db, n: nat) {
    (forall op <- db.ops :: |op.id| < n) && (forall p <- db.points :: |p.id| < n + 3)
  }

  lemma OneCopy(db: Db, n: nat)
    requires ShorterIds(db, n) && |db.points| < MAX_RESTORE_POINTS
    ensures var after := Handle(db, Copy(n));
            && Makes(db, Copy(n)) && NewPoint(db, Xs(n)) && ShorterIds(after, n + 1)
            && after.points == db.points + [Point("rp-" + Xs(n), "A copy", Capture(db))]
            && after.weeks == db.weeks && after.homework == db.homework && after.standing == db.standing
  {
    var batch := Batch([], [], Xs(n), Some("A copy"));
    RecallMissing(db.ops, Xs(n), ChangesPayload(batch));
    var marked := WithPoint(db, Some("A copy"), Xs(n));
    assert marked.points == db.points + [Point("rp-" + Xs(n), "A copy", Capture(db))];
    assert RunUpserts(marked.homework, []) == Done((marked.homework, []));
    assert marked.(homework := marked.homework) == marked;
    assert RunDeletes(marked, []) == Done((marked, [])) && RunWeeks(marked, []) == Done((marked, []));
    forall op <- Handle(db, Copy(n)).ops ensures |op.id| < n + 1 {
      assert op in db.ops || op.id == Xs(n);
    }
  }

  lemma {:induction false} CopiesAreKept(db: Db, from: nat, count: nat)
    requires ShorterIds(db, from) && |db.points| + count <= MAX_RESTORE_POINTS
    ensures var after := HandleAll(db, Copies(from, count));
            && FreshTokens(db, Copies(from, count)) && PointsMade(db, Copies(from, count)) == count
            && ShorterIds(after, from + count)
            && db.points <= after.points && |after.points| == |db.points| + count
            && after.weeks == db.weeks && after.homework == db.homework && after.standing == db.standing
    decreases count
  {
    hide Handle, Makes, ShorterIds, NewPoint;
    if count > 0 {
      OneCopy(db, from);
      CopiesAreKept(Handle(db, Copy(from)), from + 1, count - 1);
      assert Copies(from, count)[1..] == Copies(from + 1, count - 1);
    }
  }

  const FIRST := Point("rp-", "First", Snapshot(map[], map[], Some([])))
  const BACK := GoBack("rp-", map[], map[], "x", "x")
  const BACK_AGAIN := GoBack("rp-", map[], map[], Xs(30), Xs(30))

  /** A run: the first point of an account is restored, which makes a way back; eighteen copies later that is
      still there, and restoring the first point again takes it. */
  lemma ARecoveryPointGoes()
    ensures var start := Db(map[], map[], [], [FIRST], []);
            var later := HandleAll(start, [BACK] + Copies(2, 18));
            && FindPoint(Handle(start, BACK).points, "rp-x").Some?
            && FindPoint(later.points, "rp-x").Some?
            && HandleAll(start, [BACK] + Copies(2, 18) + [BACK_AGAIN]) == Handle(later, BACK_AGAIN)
            && Makes(later, BACK_AGAIN)
            && FindPoint(Handle(later, BACK_AGAIN).points, "rp-x").None?
  {
    hide Handle, Makes, FindPoint, InsertPoint;
    var start := Db(map[], map[], [], [FIRST], []);
    var kept := Recovery(start, "x");
    FirstBack(start);
    var restored := Handle(start, BACK);
    CopiesAreKept(restored, 2, 18);
    assert ([BACK] + Copies(2, 18))[1..] == Copies(2, 18);
    var later := HandleAll(start, [BACK] + Copies(2, 18));
    assert later == HandleAll(restored, Copies(2, 18));
    assert PointAt(restored.points, kept, 0);
    PointThroughRun(restored, kept, 0, Copies(2, 18));
    assert later.points[0] == FIRST && later.points[1] == kept;
    FindsTheOnly(later.points, 1);
    RunsOn(start, [BACK] + Copies(2, 18), BACK_AGAIN);
    LastBack(later, kept);
  }

  lemma {:induction false} RunsOn(db: Db, requests: seq<Request>, last: Request)
    ensures HandleAll(db, requests + [last]) == Handle(HandleAll(db, requests), last)
    decreases requests
  {
    hide Handle;
    if requests == [] {
      assert [] + [last] == [last] && [last][1..] == [];
      assert HandleAll(Handle(db, last), []) == Handle(db, last);
    } else {
      assert (requests + [last])[1..] == requests[1..] + [last];
      RunsOn(Handle(db, requests[0]), requests[1..], last);
    }
  }

  lemma FirstBack(start: Db)
    requires start == Db(map[], map[], [], [FIRST], [])
    ensures var after := Handle(start, BACK);
            && after.points == [FIRST, Recovery(start, "x")] && SoundPoints(after.points) && ShorterIds(after, 2)
            && after.weeks == map[] && after.homework == map[]
            && FindPoint(after.points, "rp-x") == Some(Recovery(start, "x"))
  {
    hide InsertPoint, Remember, FindPoint;
    var made := Recovery(start, "x");
    assert "rp-" + "x" == "rp-x";
    RestorePutsBackThePreview(start, FIRST, map[], map[], "x", "x");
    OneMorePoint(FIRST, made);
    var op := Op("x", RestorePayload("rp-", map[], map[]), RestoreResponse("rp-", "rp-x"));
    FirstRemembered(op);
    assert Handle(start, BACK).ops == Remember(start.ops, op);
    FindsTheOnly([FIRST, made], 1);
  }

  lemma OneMorePoint(first: Point, made: Point)
    ensures InsertPoint([first], made, {first.id}) == [first, made]
  {
    assert [first] + [made] == [first, made];
  }

  lemma FirstRemembered(op: Op)
    ensures Remember([], op) == [op]
  {
    assert [] + [op] == [op] && [op][0..] == [op];
  }

  lemma LastBack(later: Db, kept: Point)
    requires SoundPoints(later.points) && |later.points| == MAX_RESTORE_POINTS && ShorterIds(later, 20)
    requires later.points[0] == FIRST && later.points[1] == kept && kept.id == "rp-x"
    requires later.weeks == map[] && later.homework == map[]
    ensures Makes(later, BACK_AGAIN) && FindPoint(Handle(later, BACK_AGAIN).points, "rp-x").None?
  {
    hide InsertPoint;
    var token := Xs(30);
    RecallMissing(later.ops, token, RestorePayload("rp-", map[], map[]));
    FindsTheOnly(later.points, 0);
    var made := Recovery(later, token);
    assert |made.id| == 33;
    NewPointStaysDistinct(later, token, made);
    PruneTakesOne(later.points, made, {"rp-"});
    var all := later.points + [made];
    var left := InsertPoint(later.points, made, {"rp-"});
    assert left == all[..1] + all[2..];
    forall p <- left ensures p.id != "rp-x" {
      var i :| 0 <= i < |left| && left[i] == p;
      assert p == all[if i < 1 then i else i + 1];
      assert all[1].id == "rp-x";
    }
  }
}
