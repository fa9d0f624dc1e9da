/** Over every run of windows, server and network: what a window holds as committed is a version the
    server really held, and a week is changed only by a window that had read the version it replaces. */
module NoLostUpdate {
  import opened Basics
  import opened Store
  import opened Prediction
  import opened RetryOnce
  import opened History
  import opened Session
  import opened Protocol

  // ----- The server only moves forward -----

  lemma {:induction false} NothingToTake(blocks: seq<Block>, deleted: set<string>)
    requires forall id <- deleted :: !Holds(blocks, id)
    ensures Without(blocks, deleted) == blocks
  {
    if blocks != [] {
      var front := blocks[..|blocks| - 1];
      assert blocks == front + [blocks[|blocks| - 1]];
      forall id <- deleted ensures !Holds(front, id) && blocks[|blocks| - 1].homework != Some(id) {
        assert !Holds(blocks, id);
        assert forall i | 0 <= i < |front| :: front[i] == blocks[i];
      }
      NothingToTake(front, deleted);
    }
  }

  lemma DeletesMoveForward(row: Row, deleted: set<string>)
    ensures NotBefore(row, AfterDeletes(row, deleted))
  {
    if Prediction.Touched(row.blocks, deleted) == {} {
      forall id <- deleted ensures !Holds(row.blocks, id) {
        assert id !in Prediction.Touched(row.blocks, deleted);
      }
      NothingToTake(row.blocks, deleted);
    }
  }

  predicate Mentions(writes: seq<WeekWrite>, week: string) {
    exists i :: 0 <= i < |writes| && writes[i].week == week
  }

  lemma MentionsMore(writes: seq<WeekWrite>, week: string)
    requires writes != []
    ensures var front, last := writes[..|writes| - 1], writes[|writes| - 1];
            && (Mentions(writes, week) <==> Mentions(front, week) || last.week == week)
            && (DistinctWeeks(writes) ==> DistinctWeeks(front) && !Mentions(front, last.week))
  {
    var front, last := writes[..|writes| - 1], writes[|writes| - 1];
    assert writes == front + [last];
    if Mentions(front, week) {
      var i :| 0 <= i < |front| && front[i].week == week;
      assert writes[i].week == week;
    }
    if last.week == week {
      assert writes[|writes| - 1].week == week;
    }
  }

  /** A save of one week leaves every other week, and its own as it says. */
  lemma OneWrite(weeks: Weeks, write: WeekWrite)
    requires SaveWeek(weeks, write).Done?
    ensures var (after, rev) := SaveWeek(weeks, write).value;
            && RowOf(after, write.week) == Row(write.blocks, rev)
            && (RowOf(after, write.week) == RowOf(weeks, write.week)
                || (write.rev == RowOf(weeks, write.week).rev && rev == write.rev + 1))
            && forall week :: week != write.week ==> RowOf(after, week) == RowOf(weeks, week)
  {
  }

  /** What a batch's week writes do, week by week. */
  lemma {:induction false} WritesInPlace(db: Db, writes: seq<WeekWrite>)
    requires DistinctWeeks(writes) && RunWeeks(db, writes).Done?
    ensures var (after, results) := RunWeeks(db, writes).value;
            && |results| == |writes|
            && (forall i :: 0 <= i < |writes| ==>
                  results[i] == WeekWrite(writes[i].week, writes[i].blocks, results[i].rev))
            && (forall i :: 0 <= i < |writes| ==>
                  RowOf(after.weeks, writes[i].week) == Row(writes[i].blocks, results[i].rev))
            && (forall i :: 0 <= i < |writes| ==>
                  RowOf(after.weeks, writes[i].week) == RowOf(db.weeks, writes[i].week)
                  || (writes[i].rev == RowOf(db.weeks, writes[i].week).rev && results[i].rev == writes[i].rev + 1))
            && (forall week :: !Mentions(writes, week) ==> RowOf(after.weeks, week) == RowOf(db.weeks, week))
  {
    hide SaveWeek, Mentions, DistinctWeeks, RowOf, Owned;
    if writes != [] {
      var front, last := writes[..|writes| - 1], writes[|writes| - 1];
      MentionsMore(writes, last.week);
      WritesInPlace(db, front);
      var (before, some) := RunWeeks(db, front).value;
      var (after, results) := RunWeeks(db, writes).value;
      OneWrite(before.weeks, last);
      forall i | 0 <= i < |front| ensures writes[i] == front[i] && writes[i].week != last.week {
        NotMentioned(front, last.week, i);
      }
      forall week | !Mentions(writes, week) ensures RowOf(after.weeks, week) == RowOf(db.weeks, week) {
        MentionsMore(writes, week);
      }
    }
  }

  lemma NotMentioned(writes: seq<WeekWrite>, week: string, i: nat)
    requires i < |writes| && !Mentions(writes, week)
    ensures writes[i].week != week
  {
  }

  /** The whole batch, week by week: its deletions, then its writes. */
  lemma BatchOnWeeks(db: Db, batch: Batch, token: string)
    requires DistinctWeeks(batch.weeks) && RunBatch(db, batch, token).Done?
    ensures var (after, reply) := RunBatch(db, batch, token).value;
            var deleted := DeletedIds(batch.homework);
            && |reply.weeks| == |batch.weeks|
            && (forall i :: 0 <= i < |batch.weeks| ==>
                  && reply.weeks[i].week == batch.weeks[i].week
                  && RowOf(after.weeks, reply.weeks[i].week) == Row(reply.weeks[i].blocks, reply.weeks[i].rev))
            && (forall i :: 0 <= i < |batch.weeks| ==>
                  var trimmed := AfterDeletes(RowOf(db.weeks, batch.weeks[i].week), deleted);
                  RowOf(after.weeks, batch.weeks[i].week) == trimmed
                  || (batch.weeks[i].rev == trimmed.rev
                      && RowOf(after.weeks, batch.weeks[i].week).rev == trimmed.rev + 1))
            && (forall week :: !Mentions(batch.weeks, week) ==>
                  RowOf(after.weeks, week) == AfterDeletes(RowOf(db.weeks, week), deleted))
  {
    var marked := WithPoint(db, batch.pointName, token);
    var upserted := RunUpserts(marked.homework, batch.homework).value;
    var ready := marked.(homework := upserted.0);
    DeletesMoveWeeks(ready, batch.homework);
    WritesInPlace(RunDeletes(ready, batch.homework).value.0, batch.weeks);
  }

  lemma BatchGrows(db: Db, batch: Batch, token: string)
    requires DistinctWeeks(batch.weeks) && RunBatch(db, batch, token).Done?
    ensures Grows(db.weeks, RunBatch(db, batch, token).value.0.weeks)
  {
    BatchOnWeeks(db, batch, token);
    var after := RunBatch(db, batch, token).value.0;
    forall week ensures NotBefore(RowOf(db.weeks, week), RowOf(after.weeks, week)) {
      DeletesMoveForward(RowOf(db.weeks, week), DeletedIds(batch.homework));
      if i :| 0 <= i < |batch.weeks| && batch.weeks[i].week == week {
        assert RowOf(after.weeks, batch.weeks[i].week).rev >= RowOf(db.weeks, week).rev;
      }
    }
  }

  // ----- The invariant -----

  ghost predicate ReplyHeld(past: seq<Weeks>, reply: Reply) {
    forall write <- reply.weeks :: HeldRow(past, write.week, Row(write.blocks, write.rev))
  }

  ghost predicate LogHeld(past: seq<Weeks>, ops: seq<Op>) {
    forall op <- ops :: op.response.ChangesResponse? ==> ReplyHeld(past, op.response.reply)
  }

  ghost predicate AnswerHeld(past: seq<Weeks>, call: Call, answer: Answer) {
    match answer
    case WeekIs(row) => (call.GetWeek? || call.GetDestination?) ==> HeldRow(past, call.week, row)
    case Saved(reply) => ReplyHeld(past, reply)
    case _ => true
  }

  ghost predicate ServerSound(sys: System) {
    && SoundPast(sys.past) && sys.past[0] == map[] && sys.past[|sys.past| - 1] == sys.db.weeks
    && LogHeld(sys.past, sys.db.ops)
    && (forall pair <- sys.answers :: pair.0 in sys.sent && AnswerHeld(sys.past, sys.sent[pair.0].call, pair.1))
  }

  ghost predicate WindowsSound(sys: System) {
    && sys.seen.Keys == sys.windows.Keys
    && (forall w <- sys.windows :: WindowSound(sys.seen[w], sys.windows[w]))
    && (forall n <- sys.sent :: sys.sent[n].window in sys.windows
                                && sys.sent[n].read <= sys.seen[sys.sent[n].window]
                                && CallSound(sys.sent[n].read, sys.sent[n].base, sys.sent[n].call))
    && (forall w <- sys.seen, x <- sys.seen[w] :: HeldRow(sys.past, x.week, x.row))
  }

  /** The window of request `n` still cares about its answer. */
  predicate Live(sys: System, n: nat)
    requires n in sys.sent && sys.sent[n].window in sys.windows
  {
    sys.sent[n].call.ticket == sys.windows[sys.sent[n].window].ticket
  }

  /** Each window has at most one request it still cares about, and is busy while it has. */
  ghost predicate CallsSound(sys: System) {
    && sys.waiting <= sys.sent.Keys
    && (forall n <- sys.sent :: sys.sent[n].window in sys.windows)
    && (forall n <- sys.waiting :: sys.sent[n].call.ticket <= sys.windows[sys.sent[n].window].ticket)
    && (forall n <- sys.waiting :: Live(sys, n) ==>
          sys.windows[sys.sent[n].window].busy
          && LoadsFrom(sys.sent[n].call, sys.windows[sys.sent[n].window].open.week))
    && (forall n, m | n in sys.waiting && m in sys.waiting ::
          Live(sys, n) && Live(sys, m) && sys.sent[n].window == sys.sent[m].window ==> n == m)
  }

  ghost predicate Sound(sys: System) {
    ServerSound(sys) && WindowsSound(sys) && CallsSound(sys)
  }

  // ----- Tickets -----

  /** A reply under an older ticket changes nothing in the window: not the week, not the drafts, not
      whether it is busy. */
  lemma StaleRepliesAreInert(s: State, call: Call, answer: Answer, plan: Action)
    requires call.ticket != s.ticket
    ensures Take(s, call, answer, plan) == (s, None)
  {
    hide LoadedWork, LandedWork, TurnedDownWork;
  }

  /** A new request is the only live one, and nothing switches the week under a request on its way. */
  lemma ActTickets(s: State, action: Action)
    ensures var (after, call) := Act(s, action);
            if call.Some? then
              after.ticket == s.ticket + 1 && call.value.ticket == after.ticket && after.busy
              && LoadsFrom(call.value, after.open.week)
            else after.ticket == s.ticket && (s.busy ==> after.busy && after.open.week == s.open.week)
  {
    hide BuildBatch, StepForSave, SideApplied, DropStale, WithSide;
    match action
    case Undo(op) => TravelTickets(s, op, true);
    case Redo(op) => TravelTickets(s, op, false);
    case _ =>
  }

  lemma TravelTickets(s: State, op: string, undo: bool)
    ensures var (after, call) := if undo then AfterUndo(s, op) else AfterRedo(s, op);
            if call.Some? then
              after.ticket == s.ticket + 1 && call.value.ticket == after.ticket && after.busy && call.value.PostSave?
            else after.ticket == s.ticket && (s.busy ==> after.busy && after.open.week == s.open.week)
  {
    hide BuildBatch, StepForSave, DropStale, WithSide;
  }

  lemma TakeTickets(s: State, call: Call, answer: Answer, plan: Action)
    requires call.ticket == s.ticket && (call.GetWeek? ==> call.previous == s.open.week)
    ensures var (after, next) := Take(s, call, answer, plan);
            if next.Some? then
              after.ticket >= s.ticket && next.value.ticket == after.ticket && (s.busy ==> after.busy)
              && LoadsFrom(next.value, after.open.week)
            else after.ticket == s.ticket
  {
    hide LoadedWork, LandedWork, TurnedDownWork;
  }

  // ----- Every step keeps the invariant -----

  lemma HeldLonger(past: seq<Weeks>, more: seq<Weeks>, week: string, row: Row)
    requires past <= more && HeldRow(past, week, row)
    ensures HeldRow(more, week, row)
  {
    var i :| 0 <= i < |past| && RowOf(past[i], week) == row;
    assert more[i] == past[i];
  }

  lemma ReplyHeldLonger(past: seq<Weeks>, more: seq<Weeks>, reply: Reply)
    requires past <= more && ReplyHeld(past, reply)
    ensures ReplyHeld(more, reply)
  {
    forall write <- reply.weeks ensures HeldRow(more, write.week, Row(write.blocks, write.rev)) {
      HeldLonger(past, more, write.week, Row(write.blocks, write.rev));
    }
  }

  lemma PastGrows(past: seq<Weeks>, weeks: Weeks)
    requires SoundPast(past) && Grows(past[|past| - 1], weeks)
    ensures SoundPast(past + [weeks])
  {
    var more := past + [weeks];
    forall i, j | 0 <= i <= j < |more| ensures Grows(more[i], more[j]) {
      if i < |past| && j == |past| {
        forall week ensures NotBefore(RowOf(more[i], week), RowOf(weeks, week)) {
          assert NotBefore(RowOf(past[i], week), RowOf(past[|past| - 1], week));
          assert NotBefore(RowOf(past[|past| - 1], week), RowOf(weeks, week));
        }
      }
    }
  }

  /** One transaction: the past grows by it, its reply tells of rows it left, and so does everything
      remembered. */
  lemma PostKeepsServer(past: seq<Weeks>, db: Db, batch: Batch, token: string)
    requires SoundPast(past) && past[|past| - 1] == db.weeks && LogHeld(past, db.ops)
    requires DistinctWeeks(batch.weeks)
    ensures var (after, reply) := PostChanges(db, batch, token);
            && SoundPast(past + [after.weeks]) && LogHeld(past + [after.weeks], after.ops)
            && (reply.Done? && reply.value.ChangesResponse? ==> ReplyHeld(past + [after.weeks], reply.value.reply))
  {
    var (after, reply) := PostChanges(db, batch, token);
    var more := past + [after.weeks];
    if Runs(db, Post(batch, token)) {
      BatchGrows(db, batch, token);
      BatchOnWeeks(db, batch, token);
      RunBatchKeepsLog(db, batch, token);
      forall write <- reply.value.reply.weeks
        ensures HeldRow(more, write.week, Row(write.blocks, write.rev))
      {
        assert more[|past|] == after.weeks;
        var i :| 0 <= i < |reply.value.reply.weeks| && reply.value.reply.weeks[i] == write;
        assert RowOf(after.weeks, reply.value.reply.weeks[i].week) == Row(write.blocks, write.rev);
      }
    } else {
      assert after == db;
      assert Grows(db.weeks, after.weeks);
    }
    PastGrows(past, after.weeks);
    forall op <- after.ops | op.response.ChangesResponse?
      ensures ReplyHeld(more, op.response.reply)
    {
      if op in db.ops {
        ReplyHeldLonger(past, more, op.response.reply);
      }
    }
    if reply.Done? && reply.value.ChangesResponse? && !Runs(db, Post(batch, token)) {
      RecalledIsLogged(db.ops, batch.op, ChangesPayload(batch));
      ReplyHeldLonger(past, more, reply.value.reply);
    }
  }

  lemma {:induction false} RecalledIsLogged(ops: seq<Op>, id: string, payload: Payload)
    requires Recall(ops, id, payload).Hit?
    ensures exists op <- ops :: op.response == Recall(ops, id, payload).response
  {
    if ops[0].id != id {
      RecalledIsLogged(ops[1..], id, payload);
    }
  }

  lemma AnswersHeldLonger(sys: System, more: seq<Weeks>)
    requires ServerSound(sys) && sys.past <= more
    ensures forall pair <- sys.answers :: pair.0 in sys.sent && AnswerHeld(more, sys.sent[pair.0].call, pair.1)
  {
    forall pair <- sys.answers ensures pair.0 in sys.sent && AnswerHeld(more, sys.sent[pair.0].call, pair.1) {
      assert AnswerHeld(sys.past, sys.sent[pair.0].call, pair.1);
      match pair.1
      case WeekIs(row) =>
        var call := sys.sent[pair.0].call;
        if call.GetWeek? || call.GetDestination? {
          HeldLonger(sys.past, more, call.week, row);
        }
      case Saved(reply) => ReplyHeldLonger(sys.past, more, reply);
      case _ =>
    }
  }

  lemma ServeKeepsServer(sys: System, request: nat, token: string)
    requires ServerSound(sys) && request in sys.sent
    requires sys.sent[request].call.PostSave? ==> DistinctWeeks(sys.sent[request].call.batch.weeks)
    ensures var after := Served(sys, request, token);
            ServerSound(after) && sys.past <= after.past
            && after == sys.(db := after.db, past := after.past, answers := after.answers)
  {
    hide PostChanges, SoundPast, LogHeld, ReplyHeld, HeldRow;
    var after := Served(sys, request, token);
    var call := sys.sent[request].call;
    if call.PostSave? {
      PostKeepsServer(sys.past, sys.db, call.batch, token);
      assert after.past[0] == sys.past[0] by {
        PastIsNotEmpty(sys.past);
      }
      AnswersHeldLonger(sys, after.past);
    } else if !call.GetHomework? {
      PastIsNotEmpty(sys.past);
      NowIsHeld(sys.past, sys.db.weeks, call.week);
    }
  }

  lemma PastIsNotEmpty(past: seq<Weeks>)
    requires SoundPast(past)
    ensures |past| > 0
  {
  }

  lemma NowIsHeld(past: seq<Weeks>, weeks: Weeks, week: string)
    requires |past| > 0 && past[|past| - 1] == weeks
    ensures HeldRow(past, week, RowOf(weeks, week))
  {
  }

  lemma ServeKeeps(sys: System, request: nat, token: string)
    requires Sound(sys) && request in sys.sent
    ensures Sound(Served(sys, request, token))
  {
    hide Served, WindowSound, ServerSound;
    var after := Served(sys, request, token);
    assert CallSound(sys.sent[request].read, sys.sent[request].base, sys.sent[request].call);
    ServeKeepsServer(sys, request, token);
    forall w <- sys.seen, x <- sys.seen[w] ensures HeldRow(after.past, x.week, x.row) {
      HeldLonger(sys.past, after.past, x.week, x.row);
    }
  }

  lemma LocalKeeps(sys: System, window: nat, action: Action, number: nat)
    requires Sound(sys) && window in sys.windows && number !in sys.sent
    ensures Sound(WithWindow(sys, window, Act(sys.windows[window], action), number))
  {
    hide Act, WindowSound, CallSound, AnswerHeld;
    var s := sys.windows[window];
    ActKeeps(sys.seen[window], s, action);
    ActTickets(s, action);
    var after := WithWindow(sys, window, Act(s, action), number);
    assert ServerSound(after);
    assert WindowsSound(after);
    LiveAfter(sys, after, window, Act(s, action), number);
  }

  /** The window's new request, if any, is its only live one. */
  lemma LiveAfter(sys: System, after: System, window: nat, result: (State, Option<Call>), number: nat)
    requires CallsSound(sys) && window in sys.windows && number !in sys.sent
    requires after == WithWindow(sys, window, result, number)
    requires result.1.Some? ==>
               result.0.ticket > sys.windows[window].ticket && result.1.value.ticket == result.0.ticket
               && result.0.busy && LoadsFrom(result.1.value, result.0.open.week)
    requires result.1.None? ==>
               result.0.ticket == sys.windows[window].ticket
               && (sys.windows[window].busy ==> result.0.busy && result.0.open.week == sys.windows[window].open.week)
    ensures CallsSound(after)
  {
    forall n <- after.waiting | n != number || result.1.None?
      ensures n in sys.waiting && after.sent[n] == sys.sent[n]
      ensures Live(after, n) ==> Live(sys, n)
      ensures Live(after, n) && sys.sent[n].window == window ==> result.1.None?
    {
    }
  }

  /** What an answer shows was really held by the server. */
  lemma ShownWasHeld(past: seq<Weeks>, call: Call, answer: Answer)
    requires AnswerHeld(past, call, answer)
    ensures forall x <- Shown(call, answer) :: HeldRow(past, x.week, x.row)
  {
    hide HeldRow;
    forall x <- Shown(call, answer) ensures HeldRow(past, x.week, x.row) {
      if answer.Saved? {
        var write :| write in answer.reply.weeks && x == Seen(write.week, Row(write.blocks, write.rev));
      }
    }
  }

  lemma DeliverReads(sys: System, request: nat, answer: Answer) returns (shown: set<Seen>)
    requires Sound(sys) && request in sys.waiting && request in sys.sent
    requires (request, answer) in sys.answers || answer == TurnedDown(Unreachable)
    ensures sys.sent[request].window in sys.windows && sys.seen.Keys == sys.windows.Keys
    ensures var window, call := sys.sent[request].window, sys.sent[request].call;
            shown == sys.seen[window] + (if call.ticket == sys.windows[window].ticket then Shown(call, answer) else {})
    ensures forall x <- shown :: HeldRow(sys.past, x.week, x.row)
    ensures WindowSound(shown, sys.windows[sys.sent[request].window])
    ensures CallSound(shown, sys.sent[request].base, sys.sent[request].call)
  {
    hide Shown, HeldRow, WindowSound, CallSound, AnswerHeld, SoundPast, LogHeld, CallsSound;
    var window, call := sys.sent[request].window, sys.sent[request].call;
    shown := sys.seen[window] + (if call.ticket == sys.windows[window].ticket then Shown(call, answer) else {});
    assert AnswerHeld(sys.past, call, answer) by {
      if answer == TurnedDown(Unreachable) {
        NoAnswerShowsNothing(sys.past, call);
      }
    }
    ShownWasHeld(sys.past, call, answer);
    ReadMore(sys.seen[window], shown, sys.windows[window]);
    CallReadMore(sys.sent[request].read, shown, sys.sent[request].base, call);
  }

  lemma NoAnswerShowsNothing(past: seq<Weeks>, call: Call)
    ensures AnswerHeld(past, call, TurnedDown(Unreachable))
  {
  }

  lemma CallReadMore(seen: set<Seen>, more: set<Seen>, base: Seen, call: Call)
    requires seen <= more && CallSound(seen, base, call)
    ensures CallSound(more, base, call)
  {
    if call.PostSave? {
      BatchReadMore(seen, more, base, call.batch);
    }
  }

  /** The system once a request's answer has been read, before its window acts on it. */
  ghost function AnswerRead(sys: System, request: nat, shown: set<Seen>): System
    requires request in sys.sent
  {
    sys.(waiting := sys.waiting - {request}, seen := sys.seen[sys.sent[request].window := shown])
  }

  lemma ReadKeeps(sys: System, request: nat, shown: set<Seen>)
    requires Sound(sys) && request in sys.waiting && request in sys.sent && sys.sent[request].window in sys.windows
    requires forall x <- shown :: HeldRow(sys.past, x.week, x.row)
    requires WindowSound(shown, sys.windows[sys.sent[request].window])
    requires sys.sent[request].window in sys.seen && sys.seen[sys.sent[request].window] <= shown
    ensures Sound(AnswerRead(sys, request, shown))
    ensures Live(sys, request) ==> sys.windows[sys.sent[request].window].busy
    ensures Live(sys, request) ==>
              forall n <- AnswerRead(sys, request, shown).waiting ::
                sys.sent[n].window == sys.sent[request].window ==> !Live(sys, n)
  {
    hide WindowSound, CallSound, AnswerHeld, SoundPast, LogHeld, HeldRow;
  }

  lemma DeliverKeeps(sys: System, request: nat, answer: Answer, plan: Action, number: nat)
    requires Sound(sys)
    ensures Sound(Next(sys, Deliver(request, answer, plan, number)))
  {
    hide Take, WindowSound, CallSound, AnswerHeld, Shown, SoundPast, LogHeld, HeldRow, WindowsSound, CallsSound,
      ServerSound;
    var after := Next(sys, Deliver(request, answer, plan, number));
    if after != sys {
      var window, call := sys.sent[request].window, sys.sent[request].call;
      var s := sys.windows[window];
      var shown := DeliverReads(sys, request, answer);
      ReadKeeps(sys, request, shown);
      LoadsFromHere(sys, request);
      var taken := AnswerRead(sys, request, shown);
      if Live(sys, request) {
        TakeKeeps(shown, s, sys.sent[request].base, call, answer, plan);
        TakeTickets(s, call, answer, plan);
        LiveAfterLast(taken, after, window, Take(s, call, answer, plan), number);
        ResultPlaced(taken, after, window, Take(s, call, answer, plan), number);
      } else {
        StaleRepliesAreInert(s, call, answer, plan);
        assert taken.windows[window := s] == taken.windows;
        assert shown == sys.seen[window];
        assert after == taken;
      }
    }
  }

  lemma LoadsFromHere(sys: System, request: nat)
    requires Sound(sys) && request in sys.waiting && request in sys.sent && sys.sent[request].window in sys.windows
    ensures Live(sys, request) ==> LoadsFrom(sys.sent[request].call, sys.windows[sys.sent[request].window].open.week)
    ensures sys.sent[request].window in sys.seen
  {
    hide WindowSound, CallSound, AnswerHeld, ServerSound;
  }

  lemma ResultPlaced(sys: System, after: System, window: nat, result: (State, Option<Call>), number: nat)
    requires ServerSound(sys) && WindowsSound(sys) && window in sys.windows && number !in sys.sent
    requires after == WithWindow(sys, window, result, number)
    requires WindowSound(sys.seen[window], result.0)
    requires result.1.Some? ==> CallSound(sys.seen[window], BaseOf(result.0.open), result.1.value)
    ensures ServerSound(after) && WindowsSound(after)
  {
    hide WindowSound, CallSound, AnswerHeld, SoundPast, LogHeld, HeldRow;
  }

  /** After its live request is answered a window has no other, so the next one is the only one. */
  lemma LiveAfterLast(sys: System, after: System, window: nat, result: (State, Option<Call>), number: nat)
    requires CallsSound(sys) && window in sys.windows && number !in sys.sent
    requires sys.windows[window].busy
    requires forall n <- sys.waiting :: sys.sent[n].window == window ==> !Live(sys, n)
    requires after == WithWindow(sys, window, result, number)
    requires result.1.Some? ==>
               result.0.ticket >= sys.windows[window].ticket && result.1.value.ticket == result.0.ticket
               && result.0.busy && LoadsFrom(result.1.value, result.0.open.week)
    requires result.1.None? ==> result.0.ticket == sys.windows[window].ticket
    ensures CallsSound(after)
  {
    forall n <- after.waiting | n != number || result.1.None?
      ensures n in sys.waiting && after.sent[n] == sys.sent[n]
      ensures Live(after, n) ==> Live(sys, n)
      ensures Live(after, n) ==> sys.sent[n].window != window
    {
    }
  }

  lemma NextKeeps(sys: System, event: Event)
    requires Sound(sys)
    ensures Sound(Next(sys, event))
  {
    hide ServerSound, WindowsSound, CallsSound, Act, Take, PostChanges;
    match event
    case Local(window, action, number) =>
      if window in sys.windows && number !in sys.sent {
        LocalKeeps(sys, window, action, number);
      }
    case Serve(request, token) =>
      if request in sys.sent {
        ServeKeeps(sys, request, token);
      }
    case Deliver(request, answer, plan, number) => DeliverKeeps(sys, request, answer, plan, number);
  }

  lemma {:induction false} EveryRunIsSound(sys: System, events: seq<Event>)
    requires Sound(sys)
    ensures Sound(Run(sys, events))
    decreases events
  {
    hide Sound, Next;
    if events != [] {
      NextKeeps(sys, events[0]);
      EveryRunIsSound(Next(sys, events[0]), events[1..]);
    }
  }

  lemma StartIsSound(windows: map<nat, string>)
    ensures Sound(Start(windows))
  {
    var sys := Start(windows);
    assert sys.seen.Keys == sys.windows.Keys;
    forall week ensures NotBefore(RowOf(map[], week), RowOf(map[], week)) {
    }
  }

  // ----- The theorems -----

  /** In every run, each window's committed blocks and revision, open or parked, are a pair the server
      held; its revision is never ahead of the server's, and equal revisions mean the same week. */
  lemma CommittedIsHeld(windows: map<nat, string>, events: seq<Event>, window: nat, draft: string)
    requires window in windows
    ensures var sys := Run(Start(windows), events);
            && window in sys.windows
            && var s := sys.windows[window];
               && HeldRow(sys.past, s.open.week, Row(s.open.committed, s.open.rev))
               && NotBefore(Row(s.open.committed, s.open.rev), RowOf(sys.db.weeks, s.open.week))
               && (draft in s.drafts ==>
                     && HeldRow(sys.past, draft, Row(s.drafts[draft].committed, s.drafts[draft].rev))
                     && NotBefore(Row(s.drafts[draft].committed, s.drafts[draft].rev), RowOf(sys.db.weeks, draft)))
  {
    StartIsSound(windows);
    EveryRunIsSound(Start(windows), events);
    WindowsStay(Start(windows), events);
    var sys := Run(Start(windows), events);
    var s := sys.windows[window];
    assert WindowSound(sys.seen[window], s);
    ReadIsHeld(sys, window, s.open.week, Row(s.open.committed, s.open.rev));
    if draft in s.drafts {
      ReadIsHeld(sys, window, draft, Row(s.drafts[draft].committed, s.drafts[draft].rev));
    }
  }

  lemma ReadIsHeld(sys: System, window: nat, week: string, row: Row)
    requires Sound(sys) && window in sys.seen && Read(sys.seen[window], week, row)
    ensures HeldRow(sys.past, week, row) && NotBefore(row, RowOf(sys.db.weeks, week))
  {
    if row == UNSAVED {
      assert RowOf(sys.past[0], week) == UNSAVED;
    } else {
      assert Seen(week, row) in sys.seen[window];
    }
    assert HeldRow(sys.past, week, row);
    var i :| 0 <= i < |sys.past| && RowOf(sys.past[i], week) == row;
    assert Grows(sys.past[i], sys.past[|sys.past| - 1]);
  }

  lemma {:induction false} WindowsStay(sys: System, events: seq<Event>)
    ensures sys.windows.Keys <= Run(sys, events).windows.Keys
    decreases events
  {
    if events != [] {
      WindowsStay(Next(sys, events[0]), events[1..]);
    }
  }

  /** The versions between the one the window read and the one it replaces are as many as the batch's
      deletions that found fewer sessions than the window had read. */
  predicate LeaptOver(read: Row, replaced: Row, deleted: set<string>) {
    && Prediction.Touched(read.blocks, deleted) != {}
    && replaced.rev > read.rev
    && replaced.rev - read.rev
       == |Prediction.Touched(read.blocks, deleted)| - |Prediction.Touched(replaced.blocks, deleted)|
  }

  /** In every run, whenever the server runs a save, however late and however often it was sent, each week
      ends as the batch's own deletions leave it, or the version replaced is the one the save was built on when
      it was first sent: for the window's open week its committed version, for any other the one it had read
      at the revision it sent. The one exception is the open week of a batch that deletes homework with
      sessions in that committed version, and then only by as many versions as those deletions miss. */
  lemma NoLostUpdate(windows: map<nat, string>, events: seq<Event>, first: nat, request: nat, token: string,
                     week: string)
    requires var sys := Run(Start(windows), events);
             && request in sys.sent && sys.sent[request].call.PostSave?
             && first in sys.sent && sys.sent[first].call.PostSave?
             && sys.sent[first].call.batch == sys.sent[request].call.batch
    ensures var sys := Run(Start(windows), events);
            var batch := sys.sent[request].call.batch;
            var result := RowOf(Served(sys, request, token).db.weeks, week);
            && (!Runs(sys.db, Post(batch, token)) ==> result == RowOf(sys.db.weeks, week))
            && (Runs(sys.db, Post(batch, token)) ==>
                  || result == AfterDeletes(RowOf(sys.db.weeks, week), DeletedIds(batch.homework))
                  || BuiltOn(sys.sent[first], week, RowOf(sys.db.weeks, week), DeletedIds(batch.homework)))
  {
    StartIsSound(windows);
    EveryRunIsSound(Start(windows), events);
    ReplacedWasRead(Run(Start(windows), events), first, request, token, week);
  }

  /** The save was built on the version it replaces, or, in its open week, that many deletions before it. */
  predicate BuiltOn(sent: Sent, week: string, replaced: Row, deleted: set<string>) {
    if week == sent.base.week then replaced == sent.base.row || LeaptOver(sent.base.row, replaced, deleted)
    else Read(sent.read, week, replaced) && RevisionSent(sent.call, week) == Some(replaced.rev)
  }

  /** The revision the save sends for a week. */
  function RevisionSent(call: Call, week: string): Option<nat> {
    if !call.PostSave? then None
    else
      match FindWeek(call.batch.weeks, week)
      case Some(write) => Some(write.rev)
      case None => None
  }

  /** A transaction leaves a week as its deletions do, or as one of its writes does, and that write had
      the revision of the week after those deletions. */
  lemma ChangedByItsWrite(db: Db, batch: Batch, token: string, week: string)
    requires DistinctWeeks(batch.weeks)
    ensures var result := RowOf(PostChanges(db, batch, token).0.weeks, week);
            var trimmed := AfterDeletes(RowOf(db.weeks, week), DeletedIds(batch.homework));
            && (!Runs(db, Post(batch, token)) ==> result == RowOf(db.weeks, week))
            && (Runs(db, Post(batch, token)) ==>
                  || result == trimmed
                  || exists i :: 0 <= i < |batch.weeks| && batch.weeks[i].week == week
                                 && batch.weeks[i].rev == trimmed.rev)
  {
    hide RunBatch, AfterDeletes;
    if Runs(db, Post(batch, token)) {
      BatchOnWeeks(db, batch, token);
    }
  }

  /** What the revision of a sound write says about the version it replaces. */
  lemma WriteSaysWhatWasRead(seen: set<Seen>, base: Seen, write: WeekWrite, deleted: set<string>, replaced: Row)
    requires WriteSound(seen, base, write, deleted)
    requires write.rev == AfterDeletes(replaced, deleted).rev
    requires forall row: Row | Read(seen, write.week, row) :: NotBefore(row, replaced)
    ensures if write.week == base.week then replaced == base.row || LeaptOver(base.row, replaced, deleted)
            else Read(seen, write.week, replaced) && write.rev == replaced.rev
  {
    if write.week == base.week {
      assert NotBefore(base.row, replaced);
    } else {
      var row: Row :| row.rev == write.rev && Read(seen, write.week, row);
      assert NotBefore(row, replaced);
    }
  }

  lemma {:induction false} FindsWrite(writes: seq<WeekWrite>, i: nat)
    requires DistinctWeeks(writes) && i < |writes|
    ensures FindWeek(writes, writes[i].week) == Some(writes[i])
  {
    if i > 0 {
      assert forall j, k :: 0 <= j < k < |writes| - 1 ==> writes[1..][j].week != writes[1..][k].week;
      FindsWrite(writes[1..], i - 1);
    }
  }

  lemma ReplacedWasRead(sys: System, first: nat, request: nat, token: string, week: string)
    requires Sound(sys) && request in sys.sent && sys.sent[request].call.PostSave?
    requires first in sys.sent && sys.sent[first].call.PostSave?
    requires sys.sent[first].call.batch == sys.sent[request].call.batch
    ensures var batch := sys.sent[request].call.batch;
            var replaced := RowOf(sys.db.weeks, week);
            var result := RowOf(Served(sys, request, token).db.weeks, week);
            && (!Runs(sys.db, Post(batch, token)) ==> result == replaced)
            && (Runs(sys.db, Post(batch, token)) ==>
                  || result == AfterDeletes(replaced, DeletedIds(batch.homework))
                  || BuiltOn(sys.sent[first], week, replaced, DeletedIds(batch.homework)))
  {
    hide AfterDeletes, Read, WriteSound, LeaptOver, PostChanges, ServerSound, CallsSound, WindowSound, HeldRow,
      FindWeek;
    var sent, batch := sys.sent[first], sys.sent[request].call.batch;
    var deleted := DeletedIds(batch.homework);
    assert CallSound(sent.read, sent.base, sent.call);
    var replaced := RowOf(sys.db.weeks, week);
    ChangedByItsWrite(sys.db, batch, token, week);
    forall row: Row | Read(sent.read, week, row) ensures NotBefore(row, replaced) {
      ReadMoreRows(sent.read, sys.seen[sent.window], week, row);
      ReadIsHeld(sys, sent.window, week, row);
    }
    if i :| 0 <= i < |batch.weeks| && batch.weeks[i].week == week
            && batch.weeks[i].rev == AfterDeletes(replaced, deleted).rev {
      WriteSaysWhatWasRead(sent.read, sent.base, batch.weeks[i], deleted, replaced);
      FindsWrite(batch.weeks, i);
    }
  }

  lemma ReadMoreRows(seen: set<Seen>, more: set<Seen>, week: string, row: Row)
    requires seen <= more && Read(seen, week, row)
    ensures Read(more, week, row)
  {
  }
}
