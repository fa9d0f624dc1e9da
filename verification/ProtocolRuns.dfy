/** Two runs of windows and server from a new account, step by step: a version overwritten by a window that
    never read it, and edits in a parked week lost to the undo of a move. */
module ProtocolRuns {
  import opened Basics
  import opened Names
  import opened Store
  import opened Prediction
  import opened RetryOnce
  import opened History
  import opened Session
  import opened Protocol
  import Parking

  // ----- Runs one request at a time -----

  ghost predicate Reached(windows: map<nat, string>, sys: System) {
    exists events :: Run(Start(windows), events) == sys
  }

  lemma {:induction false} RunSplits(sys: System, first: seq<Event>, second: seq<Event>)
    ensures Run(sys, first + second) == Run(Run(sys, first), second)
    decreases first
  {
    hide Next;
    if first == [] {
      assert first + second == second;
    } else {
      assert (first + second)[1..] == first[1..] + second;
      RunSplits(Next(sys, first[0]), first[1..], second);
    }
  }

  lemma OneMore(windows: map<nat, string>, sys: System, e: Event)
    requires Reached(windows, sys)
    ensures Reached(windows, Next(sys, e))
  {
    hide Next;
    var events :| Run(Start(windows), events) == sys;
    RunSplits(Start(windows), events, [e]);
    assert [e][1..] == [];
    assert Run(sys, [e]) == Next(sys, e);
  }

  ghost predicate LeadsTo(sys: System, after: System) {
    exists events :: Run(sys, events) == after
  }

  lemma OneStep(sys: System, e: Event)
    ensures LeadsTo(sys, Next(sys, e))
  {
    hide Next;
    assert [e][1..] == [];
    assert Run(sys, [e]) == Next(sys, e);
  }

  lemma StepsJoin(a: System, b: System, c: System)
    requires LeadsTo(a, b) && LeadsTo(b, c)
    ensures LeadsTo(a, c)
  {
    var first :| Run(a, first) == b;
    var second :| Run(b, second) == c;
    RunSplits(a, first, second);
  }

  lemma StartIsReached(windows: map<nat, string>)
    ensures Reached(windows, Start(windows))
  {
    assert Run(Start(windows), []) == Start(windows);
  }

  lemma FreshNumber(sent: map<nat, Sent>) returns (number: nat)
    ensures forall n <- sent :: n < number
    decreases |sent|
  {
    if sent == map[] {
      number := 0;
    } else {
      var some :| some in sent;
      var rest := sent - {some};
      assert rest.Keys == sent.Keys - {some};
      number := FreshNumber(rest);
      assert forall n <- sent :: n == some || n in rest;
      number := if some < number then number else some + 1;
    }
  }

  /** What the server makes of a request. */
  function Handled(db: Db, call: Call, token: string): (Db, Answer) {
    match call
    case GetWeek(_, _, week) => (db, WeekIs(RowOf(db.weeks, week)))
    case GetDestination(_, week) => (db, WeekIs(RowOf(db.weeks, week)))
    case GetHomework(_, _, _, _) => (db, HomeworkIs(db.homework))
    case PostSave(_, batch) =>
      var (after, reply) := PostChanges(db, batch, token);
      (after, match reply
              case Done(ChangesResponse(stored)) => Saved(stored)
              case Done(RestoreResponse(_, _)) => TurnedDown(Conflict)
              case Refused(why) => TurnedDown(why))
  }

  lemma ServedIsHandled(sys: System, request: nat, token: string)
    requires request in sys.sent
    ensures var (db, answer) := Handled(sys.db, sys.sent[request].call, token);
            var after := Served(sys, request, token);
            && after.db == db && after.answers == sys.answers + {(request, answer)}
            && after == sys.(db := after.db, past := after.past, answers := after.answers)
  {
    hide PostChanges;
  }

  /** A system with the window's request on its way. */
  predicate OnItsWay(sys: System, window: nat, request: nat, call: Call) {
    && window in sys.windows && window in sys.seen && request in sys.sent && request in sys.waiting
    && sys.sent[request].window == window && sys.sent[request].call == call
    && call.ticket == sys.windows[window].ticket
  }

  /** The student does something that asks the server nothing. */
  lemma Does(windows: map<nat, string>, sys: System, window: nat, action: Action) returns (after: System)
    requires Reached(windows, sys) && window in sys.windows && Act(sys.windows[window], action).1.None?
    ensures Reached(windows, after) && after.db == sys.db && after.seen == sys.seen
    ensures after.windows == sys.windows[window := Act(sys.windows[window], action).0]
  {
    hide Act;
    var number := FreshNumber(sys.sent);
    after := Next(sys, Local(window, action, number));
    OneMore(windows, sys, Local(window, action, number));
  }

  /** The student does something that sends a request. */
  lemma Sends(windows: map<nat, string>, sys: System, window: nat, action: Action)
    returns (after: System, request: nat)
    requires Reached(windows, sys) && window in sys.windows && window in sys.seen
    requires var (s, call) := Act(sys.windows[window], action); call.Some? && call.value.ticket == s.ticket
    ensures Reached(windows, after) && after.db == sys.db && after.seen == sys.seen
    ensures after.windows == sys.windows[window := Act(sys.windows[window], action).0]
    ensures OnItsWay(after, window, request, Act(sys.windows[window], action).1.value)
    ensures after.sent[request].read == sys.seen[window]
    ensures after.sent[request].base == BaseOf(Act(sys.windows[window], action).0.open)
    ensures after == Next(sys, Local(window, action, request))
  {
    hide Act, Reached;
    request := FreshNumber(sys.sent);
    after := Next(sys, Local(window, action, request));
    OneMore(windows, sys, Local(window, action, request));
  }

  /** The request is handled and answered, and the window takes the answer; it may send another. */
  lemma IsAnswered(windows: map<nat, string>, sys: System, window: nat, request: nat, call: Call, token: string,
                   plan: Action) returns (after: System, next: nat)
    requires Reached(windows, sys) && OnItsWay(sys, window, request, call)
    ensures var (db, answer) := Handled(sys.db, call, token);
            var (s, more) := Take(sys.windows[window], call, answer, plan);
            && Reached(windows, after) && after.db == db
            && after.windows == sys.windows[window := s]
            && after.seen == sys.seen[window := sys.seen[window] + Shown(call, answer)]
            && (more.Some? && more.value.ticket == s.ticket ==> OnItsWay(after, window, next, more.value))
            && LeadsTo(sys, after)
  {
    hide Take, Handled, Shown, Served, LeadsTo, Reached;
    var (db, answer) := Handled(sys.db, call, token);
    next := FreshNumber(sys.sent);
    ServedIsHandled(sys, request, token);
    var served := Next(sys, Serve(request, token));
    OneMore(windows, sys, Serve(request, token));
    assert served == Served(sys, request, token);
    after := Next(served, Deliver(request, answer, plan, next));
    OneMore(windows, served, Deliver(request, answer, plan, next));
    OneStep(sys, Serve(request, token));
    OneStep(served, Deliver(request, answer, plan, next));
    StepsJoin(sys, served, after);
  }

  // ----- A version overwritten unread -----

  const WEEK := "2026-09-14"
  const SESSION := [Block("s", Some("essay"), "Essay")]
  const NOTE := [Block("note", None, "Call Ada")]
  const ESSAY := map["essay" := HwRow("Essay", 1)]

  /** The first window adds homework with a session. */
  const ADD := Edit(SESSION, map["essay" := "Essay"], "adding Essay")
  const ADDED := Batch([WeekWrite(WEEK, SESSION, 0)], [HwWrite("essay", Some("Essay"), 0)], "op1", None)
  const ADDED_REPLY := Reply([WeekWrite(WEEK, SESSION, 1)], [HwSaved("essay", "Essay", 1)])

  /** The second takes the session out and writes a note. */
  const REWRITE := Edit(NOTE, map[], "editing the week")
  const REWRITTEN := Batch([WeekWrite(WEEK, NOTE, 1)], [], "op2", None)
  const REWRITTEN_REPLY := Reply([WeekWrite(WEEK, NOTE, 2)], [])

  /** The first undoes what it added: the empty week, at the revision it expects once its own deletion has
      run. */
  const UNDONE := Batch([WeekWrite(WEEK, [], 2)], [HwWrite("essay", None, 1)], "op3", None)

  predicate Remembers(ops: seq<Op>, ids: seq<string>) {
    |ops| == |ids| && forall i :: 0 <= i < |ops| ==> ops[i].id == ids[i]
  }

  lemma NewToTheLog(db: Db, ids: seq<string>, batch: Batch)
    requires Remembers(db.ops, ids) && batch.op !in ids
    ensures Recall(db.ops, batch.op, ChangesPayload(batch)) == Missing
  {
    RecallMissing(db.ops, batch.op, ChangesPayload(batch));
    forall op <- db.ops ensures op.id != batch.op {
      var i :| 0 <= i < |db.ops| && db.ops[i] == op;
      assert ids[i] in ids;
    }
  }

  /** A batch that runs is remembered after what was. */
  lemma RunsAndIsRemembered(db: Db, ids: seq<string>, batch: Batch, token: string, ran: Db, reply: Reply)
    requires Remembers(db.ops, ids) && batch.op !in ids && |ids| < MAX_OPERATIONS
    requires RunBatch(db, batch, token) == Done((ran, reply)) && ran.ops == db.ops
    ensures var (after, answer) := PostChanges(db, batch, token);
            && answer == Done(ChangesResponse(reply)) && Remembers(after.ops, ids + [batch.op])
            && after.weeks == ran.weeks && after.homework == ran.homework
  {
    hide RunBatch;
    NewToTheLog(db, ids, batch);
  }

  lemma OneWriteRuns(db: Db, write: WeekWrite, weeks: Weeks, rev: nat)
    requires Owned(db.homework, write.blocks) && SaveWeek(db.weeks, write) == Done((weeks, rev))
    ensures RunWeeks(db, [write]) == Done((db.(weeks := weeks), [WeekWrite(write.week, write.blocks, rev)]))
  {
    assert [write][..|[write]| - 1] == [];
    assert RunWeeks(db, []) == Done((db, []));
    assert [] + [WeekWrite(write.week, write.blocks, rev)] == [WeekWrite(write.week, write.blocks, rev)];
  }

  lemma NoHomework(db: Db)
    ensures RunUpserts(db.homework, []) == Done((db.homework, [])) && RunDeletes(db, []) == Done((db, []))
  {
  }

  lemma AddedRuns(db: Db, token: string)
    requires db.weeks == map[] && db.homework == map[] && db.ops == []
    ensures var (after, answer) := PostChanges(db, ADDED, token);
            && answer == Done(ChangesResponse(ADDED_REPLY)) && Remembers(after.ops, ["op1"])
            && after.weeks == map[WEEK := Row(SESSION, 1)] && after.homework == ESSAY
  {
    var write := ADDED.homework[0];
    assert ADDED.homework == [write] && [write][..|[write]| - 1] == [];
    NoHomework(db);
    assert map[]["essay" := HwRow("Essay", 1)] == ESSAY;
    assert SaveHomework(map[], "essay", "Essay", 0) == Done((ESSAY, 1));
    assert RunUpserts(map[], [write]) == Done((ESSAY, [HwSaved("essay", "Essay", 1)])) by {
      assert [] + [HwSaved("essay", "Essay", 1)] == [HwSaved("essay", "Essay", 1)];
    }
    var ready := db.(homework := ESSAY);
    NoHomework(ready);
    assert RunDeletes(ready, [write]) == Done((ready, []));
    assert map[][WEEK := Row(SESSION, 1)] == map[WEEK := Row(SESSION, 1)];
    assert SaveWeek(map[], ADDED.weeks[0]) == Done((map[WEEK := Row(SESSION, 1)], 1));
    OneWriteRuns(ready, ADDED.weeks[0], map[WEEK := Row(SESSION, 1)], 1);
    assert ADDED.weeks == [ADDED.weeks[0]];
    assert [HwSaved("essay", "Essay", 1)] + [] == [HwSaved("essay", "Essay", 1)];
    RunsAndIsRemembered(db, [], ADDED, token, ready.(weeks := map[WEEK := Row(SESSION, 1)]), ADDED_REPLY);
    assert [] + ["op1"] == ["op1"];
  }

  lemma RewrittenRuns(db: Db, token: string)
    requires db.weeks == map[WEEK := Row(SESSION, 1)] && db.homework == ESSAY && Remembers(db.ops, ["op1"])
    ensures var (after, answer) := PostChanges(db, REWRITTEN, token);
            && answer == Done(ChangesResponse(REWRITTEN_REPLY)) && Remembers(after.ops, ["op1", "op2"])
            && after.weeks == map[WEEK := Row(NOTE, 2)] && after.homework == ESSAY
  {
    NoHomework(db);
    assert db.(homework := db.homework) == db;
    assert NOTE[0] != SESSION[0] && |NOTE| == 1;
    assert db.weeks[WEEK := Row(NOTE, 2)] == map[WEEK := Row(NOTE, 2)];
    assert SaveWeek(db.weeks, REWRITTEN.weeks[0]) == Done((map[WEEK := Row(NOTE, 2)], 2));
    OneWriteRuns(db, REWRITTEN.weeks[0], map[WEEK := Row(NOTE, 2)], 2);
    assert REWRITTEN.weeks == [REWRITTEN.weeks[0]];
    assert REWRITTEN_REPLY.homework + REWRITTEN_REPLY.homework == REWRITTEN_REPLY.homework;
    RunsAndIsRemembered(db, ["op1"], REWRITTEN, token, db.(weeks := map[WEEK := Row(NOTE, 2)]), REWRITTEN_REPLY);
    assert ["op1"] + ["op2"] == ["op1", "op2"];
  }

  lemma UndoneRuns(db: Db, token: string)
    requires db.weeks == map[WEEK := Row(NOTE, 2)] && db.homework == ESSAY && Remembers(db.ops, ["op1", "op2"])
    ensures var (after, answer) := PostChanges(db, UNDONE, token);
            answer.Done? && RowOf(after.weeks, WEEK) == Row([], 3)
  {
    var write := UNDONE.homework[0];
    assert UNDONE.homework == [write] && [write][..|[write]| - 1] == [];
    NoHomework(db);
    assert RunUpserts(db.homework, [write]) == Done((db.homework, []));
    assert db.(homework := db.homework) == db;
    assert !Holds(NOTE, "essay");
    var trimmed := db.(homework := db.homework - {"essay"});
    assert CutAll(db.weeks, "essay") == db.weeks;
    assert RunDeletes(db, [write]).Done? && RunDeletes(db, [write]).value.0 == trimmed;
    assert |NOTE| == 1;
    assert trimmed.weeks[WEEK := Row([], 3)] == map[WEEK := Row([], 3)];
    assert SaveWeek(trimmed.weeks, UNDONE.weeks[0]) == Done((map[WEEK := Row([], 3)], 3));
    OneWriteRuns(trimmed, UNDONE.weeks[0], map[WEEK := Row([], 3)], 3);
    NewToTheLog(db, ["op1", "op2"], UNDONE);
  }

  lemma SortedOne(id: string)
    ensures Sorted({id}) == [id] && Sorted({}) == []
  {
    assert FirstOf({id}) == id;
    assert {id} - {id} == {};
  }

  /** The first window once its homework is saved. */
  predicate HasAdded(s: State) {
    var work := s.open;
    && work.week == WEEK && work.blocks == work.committed == SESSION && work.rev == 1
    && work.homework == work.committedHw == ESSAY && work.dirtyHw == {}
    && !work.dirty && work.pending.None? && !work.conflict && !s.busy && s.ticket == 1
    && s.travel == Still && s.travelStep.None?
    && |work.undo| == 1 && work.redo == [] && !work.undo[0].stale
    && work.undo[0].weeks == map[WEEK := WeekChange([], SESSION, 1)]
    && work.undo[0].homework == map["essay" := HwChange(None, Some("Essay"))]
  }

  function Adding(): State {
    Act(FreshSession(WEEK), ADD).0
  }

  lemma FirstSends()
    ensures Act(FreshSession(WEEK), ADD).1.None?
    ensures var (s, call) := AfterSave(Adding(), "op1", false);
            && call == Some(PostSave(1, ADDED)) && s.ticket == 1 && s.busy && s.travel == Still && s.travelStep.None?
            && s.open == Adding().open.(pending := Some(ADDED), step := s.open.step)
            && s.open.step.Some? && !s.open.step.value.stale
            && s.open.step.value.weeks == map[WEEK := WeekChange([], SESSION, 0)]
            && s.open.step.value.homework == map["essay" := HwChange(None, Some("Essay"))]
  {
    SortedOne("essay");
    var work := Adding().open;
    assert work.dirtyHw == {"essay"};
    assert HwWrites(work, ["essay"]) == ADDED.homework;
    assert DeletedIds(ADDED.homework) == {} && Prediction.Touched([], {}) == {};
    assert SESSION != [];
  }

  lemma FirstLands(s: State)
    requires s.ticket == 1 && s.travel == Still && s.travelStep.None? && !s.join
    requires s.open == Adding().open.(pending := Some(ADDED), step := s.open.step)
    requires s.open.step.Some? && !s.open.step.value.stale
    requires s.open.step.value.weeks == map[WEEK := WeekChange([], SESSION, 0)]
    requires s.open.step.value.homework == map["essay" := HwChange(None, Some("Essay"))]
    ensures HasAdded(AfterSaveOk(s, PostSave(1, ADDED), ADDED_REPLY))
  {
    var stored := s.open.(rev := 1, dirty := false, conflict := false, homework := ESSAY, dirtyHw := {});
    AddedArrives(s.open);
    var step := AsStored(s.open.step.value, ADDED_REPLY.weeks, ESSAY);
    assert FindWeek(ADDED_REPLY.weeks, WEEK) == Some(ADDED_REPLY.weeks[0]);
    assert step.weeks == map[WEEK := WeekChange([], SESSION, 1)];
    assert step.homework == map["essay" := HwChange(None, Some("Essay"))];
    hide AsStored, WithResults, WithCurrent, FindWeek;
    assert Recorded(Still, None, false, stored, ADDED_REPLY).undo == [step];
  }

  lemma AddedArrives(work: WeekWork)
    requires work == Adding().open.(pending := work.pending, step := work.step)
    ensures FindWeek(ADDED_REPLY.weeks, work.week) == Some(ADDED_REPLY.weeks[0])
    ensures WithResults(WithCurrent(work, ADDED_REPLY), ADDED_REPLY.homework)
         == work.(rev := 1, dirty := false, conflict := false, homework := ESSAY, dirtyHw := {})
  {
    assert work.week == WEEK && work.homework == map["essay" := HwRow("Essay", 0)] && work.dirtyHw == {"essay"};
    assert work.blocks == SESSION;
    assert ADDED_REPLY.weeks[0].week == WEEK;
    assert FindWeek(ADDED_REPLY.weeks, WEEK) == Some(ADDED_REPLY.weeks[0]);
    var current := WithCurrent(work, ADDED_REPLY);
    assert current == work.(rev := 1, dirty := false, conflict := false);
    var results := ADDED_REPLY.homework;
    assert |results| == 1 && results[..|results| - 1] == [] && WithResults(current, []) == current;
    assert current.homework["essay" := HwRow("Essay", 1)] == ESSAY && {"essay"} - {"essay"} == {};
  }

  /** The first window with its step taken back. */
  function TakingBack(s: State): State
    requires |s.open.undo| == 1
  {
    Travelling(s, s.open.(undo := []), Undoing, s.open.undo[0])
  }

  lemma TakenBack(s: State)
    requires HasAdded(s)
    ensures var work := TakingBack(s).open;
            && work.week == WEEK && work.blocks == [] && work.homework == map[] && work.dirtyHw == {"essay"}
            && work.committed == SESSION && work.committedHw == ESSAY && work.rev == 1 && work.pending.None?
            && !work.conflict && ExtraWeeks(TakingBack(s)) == {}
  {
    assert WithSide(ESSAY, s.open.undo[0].homework, Earlier) == map[];
  }

  lemma TakingBackSends(s: State)
    requires HasAdded(s)
    ensures BuildBatch(TakingBack(s), "op3") == UNDONE
  {
    TakenBack(s);
    hide TakingBack;
    SortedOne("essay");
    var work := TakingBack(s).open;
    assert HwWrites(work, ["essay"]) == UNDONE.homework;
    assert DeletedIds(UNDONE.homework) == {"essay"};
    assert SESSION[0].homework == Some("essay");
    assert Prediction.Touched(SESSION, {"essay"}) == {"essay"};
  }

  lemma FirstUndoes(s: State)
    requires HasAdded(s)
    ensures var (t, call) := AfterUndo(s, "op3");
            call == Some(PostSave(2, UNDONE)) && t.ticket == 2 && BaseOf(t.open) == Seen(WEEK, Row(SESSION, 1))
  {
    TakenBack(s);
    TakingBackSends(s);
    assert WithoutStale(s) == s by {
      assert DropStale(s.open.undo) == s.open.undo;
      NoRedo(s);
    }
    assert s.open.undo[..0] == [];
    hide BuildBatch, StepForSave, SideApplied, DropStale;
    assert TravelsHere(s, s.open.undo);
  }

  lemma NoRedo(s: State)
    requires HasAdded(s)
    ensures DropStale(s.open.redo) == s.open.redo
  {
  }

  /** The second window, once it has read the week. */
  function HasRead(s: State): State {
    AfterHomeworkReply(s, GetHomework(1, WEEK, WEEK, Row(SESSION, 1)), ESSAY)
  }

  lemma SecondReads()
    ensures var (s, call) := AfterLoad(FreshSession(WEEK), WEEK, false);
            && call == Some(GetWeek(1, WEEK, WEEK)) && s.ticket == 1
            && AfterWeekReply(s, call.value, Row(SESSION, 1)) == (s, Some(GetHomework(1, WEEK, WEEK, Row(SESSION, 1))))
            && var (t, sent) := AfterSave(Act(HasRead(s), REWRITE).0, "op2", false);
               sent == Some(PostSave(2, REWRITTEN)) && t.ticket == 2
  {
    SortedOne("");
    var s := AfterLoad(FreshSession(WEEK), WEEK, false).0;
    var work := Act(HasRead(s), REWRITE).0.open;
    assert work.dirtyHw == {} && HwWrites(work, []) == [];
    assert DeletedIds([]) == {} && Prediction.Touched(SESSION, {}) == {};
    assert BuildBatch(Act(HasRead(s), REWRITE).0, "op2") == REWRITTEN;
  }

  const BOTH := map[0 := WEEK, 1 := WEEK]

  /** Both windows have the week with the homework's session, at revision 1. */
  lemma BothHaveRead() returns (sys: System)
    ensures Reached(BOTH, sys) && sys.windows.Keys == {0, 1} && sys.seen.Keys == {0, 1}
    ensures sys.db.weeks == map[WEEK := Row(SESSION, 1)] && sys.db.homework == ESSAY && Remembers(sys.db.ops, ["op1"])
    ensures HasAdded(sys.windows[0]) && sys.seen[0] == {Seen(WEEK, Row(SESSION, 1))}
    ensures sys.windows[1] == HasRead(AfterLoad(FreshSession(WEEK), WEEK, false).0)
  {
    hide Act, Take, HasAdded, Next, Handled, AfterSaveOk, AfterHomeworkReply, AfterLoad, Reached;
    var one := AddedByFirst();
    assert one.windows[1] == FreshSession(WEEK);
    SecondReads();
    var request, next, last;
    var asked := AfterLoad(FreshSession(WEEK), WEEK, false).0;
    LoadIsAnAction(FreshSession(WEEK), asked);
    sys, request := Sends(BOTH, one, 1, Load(WEEK, false));
    WeekComes(sys.db, asked);
    sys, next := IsAnswered(BOTH, sys, 1, request, GetWeek(1, WEEK, WEEK), "", Reload);
    HomeworkComes(sys.db, asked);
    sys, last := IsAnswered(BOTH, sys, 1, next, GetHomework(1, WEEK, WEEK, Row(SESSION, 1)), "", Reload);
  }

  lemma LoadIsAnAction(s: State, asked: State)
    requires AfterLoad(s, WEEK, false) == (asked, Some(GetWeek(1, WEEK, WEEK)))
    ensures Act(s, Load(WEEK, false)) == (asked, Some(GetWeek(1, WEEK, WEEK)))
  {
  }

  lemma WeekComes(db: Db, asked: State)
    requires db.weeks == map[WEEK := Row(SESSION, 1)] && asked.ticket == 1
    ensures var call := GetWeek(1, WEEK, WEEK);
            && Handled(db, call, "") == (db, WeekIs(Row(SESSION, 1)))
            && Take(asked, call, WeekIs(Row(SESSION, 1)), Reload)
               == (asked, Some(GetHomework(1, WEEK, WEEK, Row(SESSION, 1))))
  {
  }

  lemma HomeworkComes(db: Db, asked: State)
    requires db.homework == ESSAY
    ensures var call := GetHomework(1, WEEK, WEEK, Row(SESSION, 1));
            && Handled(db, call, "") == (db, HomeworkIs(ESSAY))
            && Take(asked, call, HomeworkIs(ESSAY), Reload) == (HasRead(asked), None)
  {
    hide AfterHomeworkReply;
  }

  lemma AddedByFirst() returns (sys: System)
    ensures Reached(BOTH, sys) && sys.windows.Keys == {0, 1} && sys.seen.Keys == {0, 1}
    ensures sys.db.weeks == map[WEEK := Row(SESSION, 1)] && sys.db.homework == ESSAY && Remembers(sys.db.ops, ["op1"])
    ensures HasAdded(sys.windows[0]) && sys.seen[0] == {Seen(WEEK, Row(SESSION, 1))}
    ensures sys.windows[1] == FreshSession(WEEK)
  {
    hide Take, HasAdded, Next, Handled, Act, AfterSave, AfterSaveOk, Reached, Start, Shown;
    sys := BothStart();
    FirstSends();
    sys := Does(BOTH, sys, 0, ADD);
    var request, next;
    SaveIsAnAction(sys.windows[0]);
    sys, request := Sends(BOTH, sys, 0, Save("op1", false));
    AddedRuns(sys.db, "t1");
    AddedIsAnswered(sys.db, sys.windows[0]);
    sys, next := IsAnswered(BOTH, sys, 0, request, PostSave(1, ADDED), "t1", Reload);
    ShownIs(1, ADDED);
  }

  lemma BothStart() returns (sys: System)
    ensures Reached(BOTH, sys) && sys.windows == map[0 := FreshSession(WEEK), 1 := FreshSession(WEEK)]
    ensures sys.seen == map[0 := {}, 1 := {}] && sys.db == Db(map[], map[], [], [], [])
  {
    StartIsReached(BOTH);
    sys := Start(BOTH);
  }

  lemma SaveIsAnAction(s: State)
    ensures Act(s, Save("op1", false)) == AfterSave(s, "op1", false)
  {
    hide AfterSave;
  }

  lemma ShownIs(ticket: nat, batch: Batch)
    ensures Shown(PostSave(ticket, batch), Saved(ADDED_REPLY)) == {Seen(WEEK, Row(SESSION, 1))}
  {
    assert forall write <- ADDED_REPLY.weeks :: write == ADDED_REPLY.weeks[0];
    assert ADDED_REPLY.weeks[0] in ADDED_REPLY.weeks;
  }

  lemma AddedIsAnswered(db: Db, s: State)
    requires s == AfterSave(Adding(), "op1", false).0
    requires PostChanges(db, ADDED, "t1").1 == Done(ChangesResponse(ADDED_REPLY))
    ensures Handled(db, PostSave(1, ADDED), "t1") == (PostChanges(db, ADDED, "t1").0, Saved(ADDED_REPLY))
    ensures var (t, next) := Take(s, PostSave(1, ADDED), Saved(ADDED_REPLY), Reload); HasAdded(t) && next.None?
  {
    hide PostChanges, AfterSaveOk, HasAdded;
    FirstSends();
    assert !s.join;
    FirstLands(s);
  }

  lemma SecondSaves(sys: System) returns (after: System)
    requires Reached(BOTH, sys) && sys.windows.Keys == {0, 1} && sys.seen.Keys == {0, 1}
    requires sys.db.weeks == map[WEEK := Row(SESSION, 1)] && sys.db.homework == ESSAY && Remembers(sys.db.ops, ["op1"])
    requires sys.windows[1] == HasRead(AfterLoad(FreshSession(WEEK), WEEK, false).0)
    ensures Reached(BOTH, after) && after.windows.Keys == {0, 1} && after.seen.Keys == {0, 1}
    ensures after.db.weeks == map[WEEK := Row(NOTE, 2)] && after.db.homework == ESSAY
    ensures Remembers(after.db.ops, ["op1", "op2"])
    ensures after.windows[0] == sys.windows[0] && after.seen[0] == sys.seen[0]
  {
    hide Take, Next, Handled, AfterSave, AfterHomeworkReply, AfterLoad;
    SecondReads();
    after := Does(BOTH, sys, 1, REWRITE);
    var request, next;
    after, request := Sends(BOTH, after, 1, Save("op2", false));
    RewrittenRuns(after.db, "t2");
    HandledPost(after.db, 2, REWRITTEN, "t2");
    after, next := IsAnswered(BOTH, after, 1, request, PostSave(2, REWRITTEN), "t2", Reload);
  }

  lemma HandledPost(db: Db, ticket: nat, batch: Batch, token: string)
    ensures Handled(db, PostSave(ticket, batch), token).0 == PostChanges(db, batch, token).0
  {
    hide PostChanges;
  }

  /** The run: the first window adds homework with a session; the second reads the week, takes the session out
      and writes a note, which is revision 2; the first, which has been shown revision 1 alone, undoes the
      homework. The server takes that as revision 3, and the note is gone. */
  lemma ALostUpdate() returns (events: seq<Event>, request: nat)
    ensures var sys := Run(Start(BOTH), events);
            && request in sys.sent && sys.sent[request].window == 0 && sys.sent[request].call.PostSave?
            && RowOf(sys.db.weeks, WEEK) == Row(NOTE, 2)
            && sys.sent[request].base == Seen(WEEK, Row(SESSION, 1))
            && 0 in sys.seen && sys.sent[request].read == sys.seen[0] == {Seen(WEEK, Row(SESSION, 1))}
            && RowOf(Served(sys, request, "t3").db.weeks, WEEK) == Row([], 3)
  {
    hide Act, Next, Take, Served, HasAdded, Handled, Start, Reached, AfterUndo;
    var sys := BothHaveRead();
    sys := SecondSaves(sys);
    FirstUndoes(sys.windows[0]);
    UndoIsAnAction(sys.windows[0]);
    sys, request := Sends(BOTH, sys, 0, Undo("op3"));
    events := TheEvents(BOTH, sys);
    UndoneRuns(sys.db, "t3");
    HandledPost(sys.db, 2, UNDONE, "t3");
    ServedIsHandled(sys, request, "t3");
  }

  lemma TheEvents(windows: map<nat, string>, sys: System) returns (events: seq<Event>)
    requires Reached(windows, sys)
    ensures Run(Start(windows), events) == sys
  {
    hide Start;
    events :| Run(Start(windows), events) == sys;
  }

  lemma UndoIsAnAction(s: State)
    ensures Act(s, Undo("op3")) == AfterUndo(s, "op3")
  {
    hide AfterUndo;
  }

  // ----- Parked edits lost to the undo of a move -----

  const AWAY := "2026-09-21"
  const LESSON := [Block("b", None, "Lesson")]
  const MORE := [Block("b", None, "Lesson"), Block("n", None, "Bring the book")]

  const MOVE := Move(AWAY, [], LESSON, "op1", "moving Lesson")
  const MOVED := Batch([WeekWrite(WEEK, [], 0), WeekWrite(AWAY, LESSON, 0)], [], "op1", None)
  const MOVED_REPLY := Reply([WeekWrite(WEEK, [], 0), WeekWrite(AWAY, LESSON, 1)], [])
  const MOVED_BACK := Batch([WeekWrite(WEEK, LESSON, 0), WeekWrite(AWAY, [], 1)], [], "op2", None)
  const BACK_REPLY := Reply([WeekWrite(WEEK, LESSON, 1), WeekWrite(AWAY, [], 2)], [])

  lemma TwoWritesRun(db: Db, first: WeekWrite, second: WeekWrite, weeks: Weeks, rev: nat, both: Weeks, other: nat)
    requires Owned(db.homework, first.blocks) && SaveWeek(db.weeks, first) == Done((weeks, rev))
    requires Owned(db.homework, second.blocks) && SaveWeek(weeks, second) == Done((both, other))
    ensures RunWeeks(db, [first, second])
         == Done((db.(weeks := both),
                  [WeekWrite(first.week, first.blocks, rev), WeekWrite(second.week, second.blocks, other)]))
  {
    OneWriteRuns(db, first, weeks, rev);
    assert [first, second][..1] == [first];
    var one, two := WeekWrite(first.week, first.blocks, rev), WeekWrite(second.week, second.blocks, other);
    assert [one] + [two] == [one, two];
  }

  lemma BatchOfWeeksRuns(db: Db, batch: Batch, token: string, weeks: Weeks, reply: Reply)
    requires batch.homework == [] && reply.homework == [] && batch.pointName.None?
    requires RunWeeks(db, batch.weeks) == Done((db.(weeks := weeks), reply.weeks))
    ensures RunBatch(db, batch, token) == Done((db.(weeks := weeks), reply))
  {
    NoHomework(db);
    assert db.(homework := db.homework) == db;
    assert reply.homework + reply.homework == reply.homework;
  }

  lemma MovedRuns(db: Db, token: string)
    requires db.weeks == map[] && db.homework == map[] && db.ops == []
    ensures var (after, answer) := PostChanges(db, MOVED, token);
            && answer == Done(ChangesResponse(MOVED_REPLY)) && Remembers(after.ops, ["op1"])
            && after.weeks == map[AWAY := Row(LESSON, 1)] && after.homework == map[]
  {
    assert !RepeatsId([]) && !RepeatsId(LESSON);
    assert map[][AWAY := Row(LESSON, 1)] == map[AWAY := Row(LESSON, 1)];
    TwoWritesRun(db, MOVED.weeks[0], MOVED.weeks[1], map[], 0, map[AWAY := Row(LESSON, 1)], 1);
    assert MOVED.weeks == [MOVED.weeks[0], MOVED.weeks[1]];
    BatchOfWeeksRuns(db, MOVED, token, map[AWAY := Row(LESSON, 1)], MOVED_REPLY);
    RunsAndIsRemembered(db, [], MOVED, token, db.(weeks := map[AWAY := Row(LESSON, 1)]), MOVED_REPLY);
    assert [] + ["op1"] == ["op1"];
  }

  lemma MovedBackRuns(db: Db, token: string)
    requires db.weeks == map[AWAY := Row(LESSON, 1)] && db.homework == map[] && Remembers(db.ops, ["op1"])
    ensures var (after, answer) := PostChanges(db, MOVED_BACK, token);
            answer == Done(ChangesResponse(BACK_REPLY)) && RowOf(after.weeks, AWAY) == Row([], 2)
  {
    assert !RepeatsId([]) && !RepeatsId(LESSON) && WEEK != AWAY by {
      assert WEEK[8] != AWAY[8];
    }
    var one := map[AWAY := Row(LESSON, 1), WEEK := Row(LESSON, 1)];
    var two := map[AWAY := Row([], 2), WEEK := Row(LESSON, 1)];
    assert db.weeks[WEEK := Row(LESSON, 1)] == one && one[AWAY := Row([], 2)] == two;
    TwoWritesRun(db, MOVED_BACK.weeks[0], MOVED_BACK.weeks[1], one, 1, two, 2);
    assert MOVED_BACK.weeks == [MOVED_BACK.weeks[0], MOVED_BACK.weeks[1]];
    BatchOfWeeksRuns(db, MOVED_BACK, token, two, BACK_REPLY);
    RunsAndIsRemembered(db, ["op1"], MOVED_BACK, token, db.(weeks := two), BACK_REPLY);
  }

  const PUT := Edit(LESSON, map[], "adding Lesson")

  lemma MoveSends()
    ensures Act(FreshSession(WEEK), PUT).1.None?
    ensures var s := Act(FreshSession(WEEK), PUT).0;
            var (asked, call) := Act(s, MOVE);
            && call == Some(GetDestination(1, AWAY)) && asked == s.(ticket := 1, busy := true)
            && var (sent, next) := Take(asked, call.value, WeekIs(UNSAVED), MOVE);
               && next == Some(PostSave(1, MOVED)) && sent.ticket == 1
               && sent.open == s.open.(pending := Some(MOVED), step := sent.open.step, name := "moving Lesson")
               && sent == s.(ticket := 1, busy := true, open := sent.open)
               && sent.travel == Still && sent.travelStep.None? && !sent.join && sent.drafts == map[]
               && sent.open.step.Some? && !sent.open.step.value.stale && sent.open.step.value.homework == map[]
               && sent.open.step.value.weeks
                  == map[WEEK := WeekChange(LESSON, [], 0), AWAY := WeekChange([], LESSON, 0)]
  {
    WeeksApart();
  }

  lemma WeeksApart()
    ensures WEEK != AWAY
  {
    assert WEEK[8] != AWAY[8];
  }

  /** The window once the lesson is in the other week. */
  predicate HasMoved(s: State) {
    var work := s.open;
    && work.week == WEEK && work.blocks == work.committed == [] && work.rev == 0
    && work.homework == work.committedHw == map[] && work.dirtyHw == {} && work.redo == []
    && !work.dirty && work.pending.None? && !work.conflict && !s.busy
    && s.travel == Still && s.travelStep.None? && s.drafts.Keys <= {AWAY} && MoveStep(work.undo)
  }

  predicate MoveStep(undo: seq<Step>) {
    && |undo| == 1 && !undo[0].stale && undo[0].homework == map[]
    && undo[0].weeks == map[WEEK := WeekChange(LESSON, [], 0), AWAY := WeekChange([], LESSON, 1)]
  }

  lemma MoveLands(s: State)
    requires s.ticket == 1 && s.travel == Still && s.travelStep.None? && !s.join && s.drafts == map[]
    requires s.open == Act(FreshSession(WEEK), PUT).0.open.(pending := Some(MOVED), step := s.open.step,
                                                            name := s.open.name)
    requires s.open.step.Some? && !s.open.step.value.stale && s.open.step.value.homework == map[]
    requires s.open.step.value.weeks == map[WEEK := WeekChange(LESSON, [], 0), AWAY := WeekChange([], LESSON, 0)]
    ensures var after := AfterSaveOk(s, PostSave(1, MOVED), MOVED_REPLY);
            HasMoved(after) && after.drafts == map[] && after.ticket == 1
  {
    WeeksApart();
    TwoFound(MOVED_REPLY.weeks);
    var current := WithCurrent(s.open, MOVED_REPLY);
    assert WithResults(current, []) == current;
    var step := AsStored(s.open.step.value, MOVED_REPLY.weeks, map[]);
    assert step.weeks == map[WEEK := WeekChange(LESSON, [], 0), AWAY := WeekChange([], LESSON, 1)];
    assert step.homework == map[];
    hide AsStored, WithResults, WithCurrent, FindWeek;
    assert Recorded(Still, None, false, current, MOVED_REPLY).undo == [step];
  }

  lemma TwoFound(weeks: seq<WeekWrite>)
    requires |weeks| == 2 && weeks[0].week == WEEK && weeks[1].week == AWAY
    ensures FindWeek(weeks, WEEK) == Some(weeks[0]) && FindWeek(weeks, AWAY) == Some(weeks[1])
  {
    WeeksApart();
    assert weeks[1..][0] == weeks[1];
  }

  const JOT := Edit(NOTE, map[], "editing the week")
  const ADD_MORE := Edit(MORE, map[], "editing the week")

  /** The window goes to the other week with a note unsaved here, edits there, comes back and lets the note
      go. */
  function Away(s: State): State {
    AfterHomeworkReply(AfterLoad(Act(s, JOT).0, AWAY, false).0, GetHomework(s.ticket + 1, WEEK, AWAY, Row(LESSON, 1)),
                       map[])
  }

  function Back(s: State): State {
    AfterLoad(Act(Away(s), ADD_MORE).0, WEEK, false).0
  }

  function Reloaded(s: State): State {
    AfterHomeworkReply(AfterReload(Back(s)).0, GetHomework(s.ticket + 2, WEEK, WEEK, UNSAVED), map[])
  }

  lemma GoesAway(s: State)
    requires HasMoved(s) && s.drafts == map[]
    ensures var asked := AfterLoad(Act(s, JOT).0, AWAY, false);
            && asked.1 == Some(GetWeek(s.ticket + 1, WEEK, AWAY)) && asked.0.ticket == s.ticket + 1
            && Away(s).open.week == AWAY && Away(s).drafts == map[WEEK := Act(s, JOT).0.open]
            && !Away(s).busy && Away(s).ticket == s.ticket + 1 && Away(s).travel == Still && Away(s).travelStep.None?
  {
    WeeksApart();
    hide Aged;
  }

  lemma ComesBack(s: State)
    requires HasMoved(s) && s.drafts == map[]
    ensures AfterLoad(Act(Away(s), ADD_MORE).0, WEEK, false).1.None?
    ensures Back(s).open == Act(s, JOT).0.open && !Back(s).busy && Back(s).ticket == s.ticket + 1
    ensures Back(s).drafts == map[AWAY := Act(Away(s), ADD_MORE).0.open]
    ensures Back(s).travel == Still && Back(s).travelStep.None?
  {
    WeeksApart();
    hide AfterHomeworkReply;
    GoesAway(s);
    var there := Act(Away(s), ADD_MORE).0;
    assert there.open.dirty && there.drafts[WEEK].dirty;
    assert there.drafts[AWAY := there.open] - {WEEK} == map[AWAY := there.open];
  }

  lemma LetsGo(s: State)
    requires HasMoved(s) && s.drafts == map[]
    ensures var asked := AfterReload(Back(s));
            asked.1 == Some(GetWeek(s.ticket + 2, WEEK, WEEK)) && asked.0.ticket == s.ticket + 2
    ensures HasMoved(Reloaded(s)) && Reloaded(s).ticket == s.ticket + 2
    ensures Reloaded(s).drafts == map[AWAY := Act(Away(s), ADD_MORE).0.open]
  {
    WeeksApart();
    ComesBack(s);
    hide Back, Away;
  }

  /** The window with the move taken back. */
  function MovingBack(s: State): State
    requires |s.open.undo| == 1
  {
    Travelling(s, s.open.(undo := []), Undoing, s.open.undo[0])
  }

  lemma MovingBackSends(s: State)
    requires HasMoved(s)
    ensures BuildBatch(MovingBack(s), "op2") == MOVED_BACK && !MovingBack(s).open.conflict
    ensures MovingBack(s).open.pending.None?
  {
    WeeksApart();
    SortedOne(AWAY);
    var going := MovingBack(s);
    assert going.open.homework == map[] && going.open.dirtyHw == {};
    assert ExtraWeeks(going) == {AWAY};
    assert HwWrites(going.open, []) == [];
    assert ExtraWrites(going.travelStep.value, Undoing, [AWAY]) == [WeekWrite(AWAY, [], 1)];
  }

  /** Undo sends both weeks back. */
  lemma MoveUndone(s: State)
    requires HasMoved(s)
    ensures var (t, call) := AfterUndo(s, "op2");
            call == Some(PostSave(s.ticket + 1, MOVED_BACK)) && t.ticket == s.ticket + 1 && t.open.week == WEEK
  {
    WeeksApart();
    MovingBackSends(s);
    assert WithoutStale(s) == s by {
      assert DropStale(s.open.undo) == s.open.undo && DropStale(s.open.redo) == s.open.redo;
    }
    assert s.open.undo[..0] == [];
    hide BuildBatch, StepForSave, WithSide, DropStale;
    assert TravelsHere(s, s.open.undo);
  }

  /** The answer drops what is parked for the other one. */
  lemma MoveBackLands(s: State, ticket: nat)
    requires s.ticket == ticket && s.open.week == WEEK
    ensures var after := AfterSaveOk(s, PostSave(ticket, MOVED_BACK), BACK_REPLY);
            AWAY !in after.drafts && after.open.week == WEEK
  {
    WeeksApart();
    Parking.LandedKeepsWeek(s, BACK_REPLY);
    hide LandedWork;
    assert MOVED_BACK.weeks[1] in MOVED_BACK.weeks;
    assert AWAY in Written(MOVED_BACK);
  }

  const ONE := map[0 := WEEK]

  lemma OneStart() returns (sys: System)
    ensures Reached(ONE, sys) && sys.windows == map[0 := FreshSession(WEEK)] && sys.seen.Keys == {0}
    ensures sys.db == Db(map[], map[], [], [], [])
  {
    StartIsReached(ONE);
    sys := Start(ONE);
  }

  /** The lesson is in the other week, and nothing is parked. */
  lemma Moves() returns (sys: System)
    ensures Reached(ONE, sys) && sys.windows.Keys == sys.seen.Keys == {0}
    ensures HasMoved(sys.windows[0]) && sys.windows[0].drafts == map[] && sys.windows[0].ticket == 1
    ensures sys.db.weeks == map[AWAY := Row(LESSON, 1)] && sys.db.homework == map[] && Remembers(sys.db.ops, ["op1"])
  {
    hide Act, Take, Next, Handled, HasMoved, Reached, AfterSaveOk, Shown;
    sys := OneStart();
    MoveSends();
    sys := Does(ONE, sys, 0, PUT);
    var request, next;
    sys, request := Sends(ONE, sys, 0, MOVE);
    var asked := sys.windows[0];
    GivesWeek(sys.db, GetDestination(1, AWAY), "", UNSAVED);
    sys, next := IsAnswered(ONE, sys, 0, request, GetDestination(1, AWAY), "", MOVE);
    var sent := sys.windows[0];
    MovedRuns(sys.db, "t1");
    MoveLands(sent);
    SavedIsTaken(sys.db, sent, MOVED, "t1", MOVED_REPLY);
    sys, request := IsAnswered(ONE, sys, 0, next, PostSave(1, MOVED), "t1", Reload);
  }

  lemma GivesWeek(db: Db, call: Call, token: string, row: Row)
    requires (call.GetWeek? || call.GetDestination?) && RowOf(db.weeks, call.week) == row
    ensures Handled(db, call, token) == (db, WeekIs(row))
  {
  }

  lemma SavedIsTaken(db: Db, s: State, batch: Batch, token: string, reply: Reply)
    requires PostChanges(db, batch, token).1 == Done(ChangesResponse(reply))
    ensures Handled(db, PostSave(s.ticket, batch), token) == (PostChanges(db, batch, token).0, Saved(reply))
    ensures Take(s, PostSave(s.ticket, batch), Saved(reply), Reload)
         == (AfterSaveOk(s, PostSave(s.ticket, batch), reply), None)
  {
    hide PostChanges, AfterSaveOk;
  }

  /** A load, from the request to the week on the screen. */
  lemma Loads(windows: map<nat, string>, sys: System, window: nat, action: Action, asked: State, ticket: nat,
              previous: string, week: string, row: Row) returns (after: System)
    requires Reached(windows, sys) && sys.windows.Keys == sys.seen.Keys && window in sys.windows
    requires Act(sys.windows[window], action) == (asked, Some(GetWeek(ticket, previous, week)))
    requires asked.ticket == ticket && RowOf(sys.db.weeks, week) == row
    ensures Reached(windows, after) && after.db == sys.db && after.windows.Keys == after.seen.Keys
    ensures after.windows == sys.windows[window :=
              AfterHomeworkReply(asked, GetHomework(ticket, previous, week, row), sys.db.homework)]
  {
    hide Act, Take, Next, Handled, Reached, AfterHomeworkReply, Shown;
    var request, next;
    after, request := Sends(windows, sys, window, action);
    GivesWeek(after.db, GetWeek(ticket, previous, week), "", row);
    LoadAnswers(after.db, asked, ticket, previous, week, row);
    after, next := IsAnswered(windows, after, window, request, GetWeek(ticket, previous, week), "", Reload);
    after, request := IsAnswered(windows, after, window, next, GetHomework(ticket, previous, week, row), "", Reload);
  }

  lemma LoadAnswers(db: Db, s: State, ticket: nat, previous: string, week: string, row: Row)
    requires s.ticket == ticket
    ensures Take(s, GetWeek(ticket, previous, week), WeekIs(row), Reload)
         == (s, Some(GetHomework(ticket, previous, week, row)))
    ensures var call := GetHomework(ticket, previous, week, row);
            && Handled(db, call, "") == (db, HomeworkIs(db.homework))
            && Take(s, call, HomeworkIs(db.homework), Reload) == (AfterHomeworkReply(s, call, db.homework), None)
  {
    hide AfterHomeworkReply;
  }

  lemma ParksEdits() returns (sys: System)
    ensures Reached(ONE, sys) && sys.windows.Keys == sys.seen.Keys == {0}
    ensures HasMoved(sys.windows[0]) && AWAY in sys.windows[0].drafts
    ensures sys.windows[0].drafts[AWAY].dirty && sys.windows[0].drafts[AWAY].blocks == MORE
    ensures sys.db.weeks == map[AWAY := Row(LESSON, 1)] && sys.db.homework == map[] && Remembers(sys.db.ops, ["op1"])
  {
    hide Next, HasMoved, Reached, AfterHomeworkReply, AfterLoad, AfterReload;
    WeeksApart();
    sys := Moves();
    var s := sys.windows[0];
    GoesAway(s);
    ComesBack(s);
    LetsGo(s);
    sys := Does(ONE, sys, 0, JOT);
    sys := Loads(ONE, sys, 0, Load(AWAY, false), AfterLoad(Act(s, JOT).0, AWAY, false).0, s.ticket + 1, WEEK, AWAY,
                 Row(LESSON, 1));
    sys := Does(ONE, sys, 0, ADD_MORE);
    sys := Does(ONE, sys, 0, Load(WEEK, false));
    sys := Loads(ONE, sys, 0, Action.Reload, AfterReload(Back(s)).0, s.ticket + 2, WEEK, WEEK, UNSAVED);
  }

  /** The run: a lesson is moved to another week, and more is written there and not saved. Back in its own
      week the student presses Undo: the move is undone on the server, and what was written is gone from the
      window. */
  lemma ParkedEditsLost() returns (events: seq<Event>, undo: seq<Event>)
    ensures var before := Run(Start(ONE), events);
            var after := Run(before, undo);
            && 0 in before.windows && 0 in after.windows
            && AWAY in before.windows[0].drafts
            && before.windows[0].drafts[AWAY].dirty && before.windows[0].drafts[AWAY].blocks == MORE
            && |undo| > 0 && undo[0].Local? && undo[0].action.Undo?
            && AWAY !in after.windows[0].drafts && after.windows[0].open.week == WEEK
            && RowOf(after.db.weeks, AWAY).blocks == []
  {
    hide Next, HasMoved, Reached, AfterUndo, Handled, Take, Start, Act, AfterSaveOk, Shown, LeadsTo;
    var before := ParksEdits();
    events := TheEvents(ONE, before);
    var s := before.windows[0];
    MoveUndone(s);
    MoveUndoIsAnAction(s);
    MoveBackLands(AfterUndo(s, "op2").0, s.ticket + 1);
    var sent, request := Sends(ONE, before, 0, Undo("op2"));
    MovedBackRuns(sent.db, "t2");
    SavedIsTaken(sent.db, sent.windows[0], MOVED_BACK, "t2", BACK_REPLY);
    var after, next := IsAnswered(ONE, sent, 0, request, PostSave(s.ticket + 1, MOVED_BACK), "t2", Reload);
    undo := Before(sent, after, before, Local(0, Undo("op2"), request));
  }

  lemma Before(sent: System, after: System, sys: System, e: Event) returns (events: seq<Event>)
    requires sent == Next(sys, e) && LeadsTo(sent, after)
    ensures |events| > 0 && events[0] == e && Run(sys, events) == after
  {
    hide Next;
    var rest :| Run(sent, rest) == after;
    events := [e] + rest;
    assert events[1..] == rest;
  }

  lemma MoveUndoIsAnAction(s: State)
    ensures Act(s, Undo("op2")) == AfterUndo(s, "op2")
  {
    hide AfterUndo;
  }
}
