/** Sending a save again. Every reply may be lost and every request may arrive any number of times,
    between any other requests; the remembered operations make the first success the only one. */
module RetryOnce {
  import opened Basics
  import opened Store

  /** A request that reached the server, with the random token it would name a restore point by. */
  datatype Post = Post(batch: Batch, token: string)

  /** The post ran, rather than being recalled or refused, so the log gained an entry. */
  predicate Runs(db: Db, post: Post) {
    && Recall(db.ops, post.batch.op, ChangesPayload(post.batch)) == Missing
    && RunBatch(db, post.batch, post.token).Done?
  }

  /** Everything that is remembered: saves and restores. */
  datatype Request =
    | Changes(post: Post)
    | GoBack(point: string, weeks: Weeks, homework: Homework, op: string, token: string)

  function Handle(db: Db, request: Request): Db {
    match request
    case Changes(post) => PostChanges(db, post.batch, post.token).0
    case GoBack(point, weeks, homework, op, token) => Restore(db, point, weeks, homework, op, token).0
  }

  function HandleAll(db: Db, requests: seq<Request>): Db
    decreases requests
  {
    if requests == [] then db else HandleAll(Handle(db, requests[0]), requests[1..])
  }

  /** The request is done and remembered, rather than recalled or refused. */
  predicate Enters(db: Db, request: Request) {
    match request
    case Changes(post) => Runs(db, post)
    case GoBack(point, weeks, homework, op, token) =>
      Recall(db.ops, op, RestorePayload(point, weeks, homework)) == Missing
      && Restore(db, point, weeks, homework, op, token).1.Done?
  }

  function NewlyRemembered(db: Db, requests: seq<Request>): nat
    decreases requests
  {
    if requests == [] then 0
    else
      (if Enters(db, requests[0]) then 1 else 0) + NewlyRemembered(Handle(db, requests[0]), requests[1..])
  }

  /** The request is a sending of `batch`. */
  predicate Sends(request: Request, batch: Batch) {
    request.Changes? && request.post.batch == batch
  }

  /** How often sending `batch` changed anything in the run. */
  function Effects(db: Db, requests: seq<Request>, batch: Batch): nat
    decreases requests
  {
    if requests == [] then 0
    else
      var after := Handle(db, requests[0]);
      (if Sends(requests[0], batch) && after != db then 1 else 0) + Effects(after, requests[1..], batch)
  }

  /** The log never holds one operation id twice, nor more than its limit. */
  predicate SoundLog(ops: seq<Op>) {
    && |ops| <= MAX_OPERATIONS
    && forall i, j :: 0 <= i < j < |ops| ==> ops[i].id != ops[j].id
  }

  /** `op` is in the log with `newer` operations remembered after it. */
  predicate KeptAt(ops: seq<Op>, op: Op, newer: nat) {
    newer < |ops| && ops[|ops| - 1 - newer] == op
  }

  /** The newest hundred operations are kept, in order. */
  lemma RemembersTheNewestHundred(ops: seq<Op>, op: Op)
    requires |ops| <= 100
    ensures var all, after := ops + [op], Remember(ops, op);
            |after| == (if |ops| < 100 then |ops| + 1 else 100) && after == all[|all| - |after|..]
  {
  }

  lemma {:induction false} RecallMissing(ops: seq<Op>, id: string, payload: Payload)
    ensures Recall(ops, id, payload) == Missing <==> forall op <- ops :: op.id != id
  {
    if ops != [] {
      RecallMissing(ops[1..], id, payload);
      assert ops == [ops[0]] + ops[1..];
    }
  }

  lemma {:induction false} RecallFinds(ops: seq<Op>, at: nat, payload: Payload)
    requires at < |ops| && forall i :: 0 <= i < at ==> ops[i].id != ops[at].id
    ensures Recall(ops, ops[at].id, payload)
         == if ops[at].payload == payload then Hit(ops[at].response) else Clash
  {
    if at > 0 {
      RecallFinds(ops[1..], at - 1, payload);
    }
  }

  lemma RunBatchKeepsLog(db: Db, batch: Batch, token: string)
    requires RunBatch(db, batch, token).Done?
    ensures RunBatch(db, batch, token).value.0.ops == db.ops
  {
    var marked := WithPoint(db, batch.pointName, token);
    var upserted := RunUpserts(marked.homework, batch.homework).value;
    DeletesKeepLog(marked.(homework := upserted.0), batch.homework);
    WeeksKeepRest(RunDeletes(marked.(homework := upserted.0), batch.homework).value.0, batch.weeks);
  }

  lemma {:induction false} DeletesKeepLog(db: Db, writes: seq<HwWrite>)
    requires RunDeletes(db, writes).Done?
    ensures RunDeletes(db, writes).value.0.ops == db.ops
  {
    if writes != [] {
      DeletesKeepLog(db, writes[..|writes| - 1]);
    }
  }

  lemma {:induction false} WeeksKeepRest(db: Db, writes: seq<WeekWrite>)
    requires RunWeeks(db, writes).Done?
    ensures RunWeeks(db, writes).value.0 == db.(weeks := RunWeeks(db, writes).value.0.weeks)
  {
    if writes != [] {
      WeeksKeepRest(db, writes[..|writes| - 1]);
    }
  }

  /** One request against the log: it gains this operation and loses the oldest when full, or stays. */
  lemma PostAgainstLog(db: Db, post: Post)
    requires SoundLog(db.ops)
    ensures var after := PostChanges(db, post.batch, post.token).0;
            && SoundLog(after.ops)
            && (!Runs(db, post) ==> after == db)
            && (Runs(db, post) ==>
                  after.ops == Remember(db.ops, Op(post.batch.op, ChangesPayload(post.batch),
                                                   PostChanges(db, post.batch, post.token).1.value)))
  {
    hide RunBatch;
    RecallMissing(db.ops, post.batch.op, ChangesPayload(post.batch));
    if Runs(db, post) {
      RunBatchKeepsLog(db, post.batch, post.token);
    }
  }

  /** The same for every request. */
  lemma RequestAgainstLog(db: Db, request: Request) returns (op: Op)
    requires SoundLog(db.ops)
    ensures var after := Handle(db, request);
            && SoundLog(after.ops)
            && (!Enters(db, request) ==> after == db)
            && (Enters(db, request) ==>
                  after.ops == Remember(db.ops, op) && forall known <- db.ops :: known.id != op.id)
    ensures request.Changes? && Enters(db, request) ==>
              op == Op(request.post.batch.op, ChangesPayload(request.post.batch),
                       PostChanges(db, request.post.batch, request.post.token).1.value)
  {
    hide RunBatch, InsertPoint;
    match request
    case Changes(post) =>
      PostAgainstLog(db, post);
      RecallMissing(db.ops, post.batch.op, ChangesPayload(post.batch));
      var reply := PostChanges(db, post.batch, post.token).1;
      op := Op(post.batch.op, ChangesPayload(post.batch), if reply.Done? then reply.value else RestoreResponse("", ""));
    case GoBack(point, weeks, homework, id, token) =>
      var payload := RestorePayload(point, weeks, homework);
      RecallMissing(db.ops, id, payload);
      var reply := Restore(db, point, weeks, homework, id, token).1;
      op := Op(id, payload, if reply.Done? then reply.value else RestoreResponse("", ""));
  }

  lemma KeptThroughRequest(db: Db, op: Op, newer: nat, request: Request)
    requires SoundLog(db.ops) && KeptAt(db.ops, op, newer)
    ensures var after := Handle(db, request);
            if !Enters(db, request) then after == db
            else if newer + 1 < MAX_OPERATIONS then KeptAt(after.ops, op, newer + 1)
            else forall other <- after.ops :: other.id != op.id
  {
    hide Handle, Enters;
    var added := RequestAgainstLog(db, request);
  }

  lemma SoundThroughRequest(db: Db, request: Request)
    requires SoundLog(db.ops)
    ensures SoundLog(Handle(db, request).ops)
  {
    hide Handle, Enters, SoundLog;
    var added := RequestAgainstLog(db, request);
  }

  lemma {:induction false} SoundThroughRun(db: Db, requests: seq<Request>)
    requires SoundLog(db.ops)
    ensures SoundLog(HandleAll(db, requests).ops)
    decreases requests
  {
    hide Handle, SoundLog;
    if requests != [] {
      SoundThroughRequest(db, requests[0]);
      SoundThroughRun(Handle(db, requests[0]), requests[1..]);
    }
  }

  lemma {:induction false} KeptThroughRun(db: Db, op: Op, newer: nat, requests: seq<Request>)
    requires SoundLog(db.ops) && KeptAt(db.ops, op, newer)
    requires newer + NewlyRemembered(db, requests) < MAX_OPERATIONS
    ensures KeptAt(HandleAll(db, requests).ops, op, newer + NewlyRemembered(db, requests))
    decreases requests
  {
    hide Handle, SoundLog, KeptAt, Enters;
    if requests != [] {
      SoundThroughRequest(db, requests[0]);
      KeptThroughRequest(db, op, newer, requests[0]);
      KeptThroughRun(Handle(db, requests[0]), op, if Enters(db, requests[0]) then newer + 1 else newer, requests[1..]);
    }
  }

  lemma QuietRequest(db: Db, request: Request)
    requires SoundLog(db.ops) && !Enters(db, request)
    ensures Handle(db, request) == db
  {
    hide Handle, Enters, SoundLog;
    var added := RequestAgainstLog(db, request);
  }

  /** Nothing is remembered in `requests`, so nothing at all happens. */
  lemma {:induction false} QuietRun(db: Db, requests: seq<Request>)
    requires SoundLog(db.ops) && NewlyRemembered(db, requests) == 0
    ensures HandleAll(db, requests) == db
    decreases requests
  {
    hide Handle, SoundLog, Enters;
    if requests != [] {
      QuietRequest(db, requests[0]);
      QuietRun(db, requests[1..]);
    }
  }

  lemma {:induction false} ForgottenAtLimit(db: Db, op: Op, newer: nat, requests: seq<Request>)
    requires SoundLog(db.ops) && KeptAt(db.ops, op, newer)
    requires newer + NewlyRemembered(db, requests) == MAX_OPERATIONS
    ensures forall other <- HandleAll(db, requests).ops :: other.id != op.id
    decreases requests
  {
    hide Handle, Enters;
    SoundThroughRequest(db, requests[0]);
    KeptThroughRequest(db, op, newer, requests[0]);
    var after := Handle(db, requests[0]);
    if Enters(db, requests[0]) && newer + 1 == MAX_OPERATIONS {
      QuietRun(after, requests[1..]);
    } else {
      ForgottenAtLimit(after, op, if Enters(db, requests[0]) then newer + 1 else newer, requests[1..]);
    }
  }

  /** A kept save sent again, after any other saves and restores, gets the first success's reply and changes
      nothing; the same id with other data is refused and changes nothing. Both hold while fewer than a
      hundred operations have been remembered since, and no longer. */
  lemma RetryGetsTheFirstReply(db: Db, first: Post, requests: seq<Request>, again: Post)
    requires SoundLog(db.ops) && Runs(db, first)
    requires again.batch.op == first.batch.op
    requires NewlyRemembered(PostChanges(db, first.batch, first.token).0, requests) <= MAX_OPERATIONS
    ensures var (ran, reply) := PostChanges(db, first.batch, first.token);
            var later := HandleAll(ran, requests);
            var recalled := Recall(later.ops, first.batch.op, ChangesPayload(again.batch));
            && (NewlyRemembered(ran, requests) < MAX_OPERATIONS ==>
                  PostChanges(later, again.batch, again.token)
                    == (later, if again.batch == first.batch then reply else Refused(Conflict)))
            && (recalled == Missing <==> NewlyRemembered(ran, requests) == MAX_OPERATIONS)
  {
    hide RunBatch;
    var (ran, reply) := PostChanges(db, first.batch, first.token);
    PostAgainstLog(db, first);
    var op := Op(first.batch.op, ChangesPayload(first.batch), reply.value);
    assert KeptAt(ran.ops, op, 0);
    var newer := NewlyRemembered(ran, requests);
    var later := HandleAll(ran, requests);
    SoundThroughRun(ran, requests);
    if newer < MAX_OPERATIONS {
      KeptThroughRun(ran, op, 0, requests);
      RecallFinds(later.ops, |later.ops| - 1 - newer, ChangesPayload(again.batch));
    } else {
      ForgottenAtLimit(ran, op, 0, requests);
      RecallMissing(later.ops, first.batch.op, ChangesPayload(again.batch));
    }
  }

  /** While an operation is kept, a request under its id does nothing. */
  lemma KeptIsQuiet(db: Db, op: Op, newer: nat, request: Request)
    requires SoundLog(db.ops) && KeptAt(db.ops, op, newer)
    requires request.Changes? && request.post.batch.op == op.id
    ensures !Enters(db, request) && Handle(db, request) == db
  {
    hide RunBatch;
    RecallFinds(db.ops, |db.ops| - 1 - newer, ChangesPayload(request.post.batch));
  }

  lemma {:induction false} NoEffectOnceKept(db: Db, op: Op, newer: nat, batch: Batch, requests: seq<Request>)
    requires SoundLog(db.ops) && KeptAt(db.ops, op, newer)
    requires op.id == batch.op
    requires newer + NewlyRemembered(db, requests) < MAX_OPERATIONS
    ensures Effects(db, requests, batch) == 0
    decreases requests
  {
    hide Handle, Enters, SoundLog, KeptAt;
    if requests != [] {
      if Sends(requests[0], batch) {
        KeptIsQuiet(db, op, newer, requests[0]);
      }
      SoundThroughRequest(db, requests[0]);
      KeptThroughRequest(db, op, newer, requests[0]);
      NoEffectOnceKept(Handle(db, requests[0]), op, if Enters(db, requests[0]) then newer + 1 else newer, batch,
                       requests[1..]);
    }
  }

  /** However often one save arrives, before or after any other saves and restores, it changes the account at
      most once in any stretch that remembers no more than a hundred operations. */
  lemma {:induction false} AtMostOneEffect(db: Db, requests: seq<Request>, batch: Batch)
    requires SoundLog(db.ops) && NewlyRemembered(db, requests) <= MAX_OPERATIONS
    ensures Effects(db, requests, batch) <= 1
    decreases requests
  {
    hide Handle, Enters;
    if requests != [] {
      var after := Handle(db, requests[0]);
      var op := RequestAgainstLog(db, requests[0]);
      if Sends(requests[0], batch) && after != db {
        NoEffectOnceKept(after, op, 0, batch, requests[1..]);
      } else {
        AtMostOneEffect(after, requests[1..], batch);
      }
    }
  }

  /** The run with every later arrival of `batch` left out. */
  function Others(requests: seq<Request>, batch: Batch): seq<Request> {
    if requests == [] then []
    else (if Sends(requests[0], batch) then [] else [requests[0]]) + Others(requests[1..], batch)
  }

  /** Once a save has gone through, its repeats could as well not have been sent: the account ends the
      same without them. */
  lemma {:induction false} RepeatsAreInvisible(db: Db, op: Op, newer: nat, batch: Batch, requests: seq<Request>)
    requires SoundLog(db.ops) && KeptAt(db.ops, op, newer)
    requires op.id == batch.op
    requires newer + NewlyRemembered(db, requests) < MAX_OPERATIONS
    ensures HandleAll(db, Others(requests, batch)) == HandleAll(db, requests)
    ensures NewlyRemembered(db, Others(requests, batch)) == NewlyRemembered(db, requests)
    decreases requests
  {
    hide Handle, Enters, SoundLog, KeptAt;
    if requests != [] {
      SoundThroughRequest(db, requests[0]);
      KeptThroughRequest(db, op, newer, requests[0]);
      RepeatsAreInvisible(Handle(db, requests[0]), op, if Enters(db, requests[0]) then newer + 1 else newer, batch,
                          requests[1..]);
      if Sends(requests[0], batch) {
        KeptIsQuiet(db, op, newer, requests[0]);
        assert Others(requests, batch) == Others(requests[1..], batch);
      } else {
        assert Others(requests, batch)[0] == requests[0];
        assert Others(requests, batch)[1..] == Others(requests[1..], batch);
      }
    }
  }
}
