/** Undo and redo of one week against the server: saves, travels, lost requests, lost replies and
    retries together move a cursor along one line of states. */
module Cursor {
  import opened Basics
  import opened Names
  import opened Store
  import opened Prediction
  import opened RetryOnce
  import opened History
  import opened Session
  import opened RoundTrip

  datatype Desk = Desk(s: State, db: Db)

  /** What becomes of a request: its answer arrives, or it never gets there, or its answer is lost. */
  datatype Fate = Heard | RequestLost | ReplyLost

  datatype Event =
    | Edit(blocks: seq<Block>, changes: map<string, string>, name: string)
    | Save(op: string, join: bool, fate: Fate, token: string)
    | Retry(fate: Fate, token: string)
    | Undo(op: string, fate: Fate, token: string)
    | Redo(op: string, fate: Fate, token: string)

  /** How the cursor moves. */
  datatype Move = Stay | Add(content: Content, join: bool) | Back | Forward

  /** A request on its way to the server and back, and whether its save landed. */
  function Exchange(d: Desk, call: Option<Call>, fate: Fate, token: string): (Desk, bool) {
    if call.None? || !call.value.PostSave? then (d, false)
    else if fate == RequestLost then (d.(s := AfterSaveErr(d.s, call.value, Unreachable).0), false)
    else
      var (after, reply) := PostChanges(d.db, call.value.batch, token);
      if fate == ReplyLost then (Desk(AfterSaveErr(d.s, call.value, Unreachable).0, after), false)
      else
        match reply
        case Done(ChangesResponse(stored)) => (Desk(AfterSaveOk(d.s, call.value, stored), after), true)
        case Done(RestoreResponse(_, _)) => (Desk(AfterSaveErr(d.s, call.value, Conflict).0, after), false)
        case Refused(why) => (Desk(AfterSaveErr(d.s, call.value, why).0, after), false)
  }

  predicate Fresh(db: Db, op: string) {
    forall known <- db.ops :: known.id != op
  }

  function ContentOf(work: WeekWork): Content {
    Content(work.blocks, Bodies(work.homework))
  }

  function Next(d: Desk, e: Event): (Desk, Move) {
    match e
    case Edit(blocks, changes, name) =>
      (d.(s := AfterEdit(d.s, blocks, Changed(d.s.open.homework, changes), changes.Keys, name)), Stay)
    case Save(op, join, fate, token) =>
      var (s, call) := AfterSave(d.s, op, join);
      var (after, landed) := Exchange(d.(s := s), call, fate, token);
      (after, if landed then Add(ContentOf(d.s.open), s.join) else Stay)
    case Retry(fate, token) =>
      var (s, call) := AfterRetry(d.s, "");
      var (after, landed) := Exchange(d.(s := s), call, fate, token);
      (after, if landed then Add(ContentOf(d.s.open), s.join) else Stay)
    case Undo(op, fate, token) =>
      var (s, call) := AfterUndo(d.s, op);
      var (after, landed) := Exchange(d.(s := s), call, fate, token);
      (after, if landed then Back else Stay)
    case Redo(op, fate, token) =>
      var (s, call) := AfterRedo(d.s, op);
      var (after, landed) := Exchange(d.(s := s), call, fate, token);
      (after, if landed then Forward else Stay)
  }

  /** What a run takes for granted: operation ids are new, the student does not edit over a save that went
      through unheard, and an answer to an undo or redo is not lost. */
  predicate Covered(d: Desk, e: Event) {
    match e
    case Edit(_, _, _) =>
      d.s.open.pending.Some? ==>
        Recall(d.db.ops, d.s.open.pending.value.op, ChangesPayload(d.s.open.pending.value)) == Missing
    case Save(op, _, _, _) => Fresh(d.db, op)
    case Retry(_, _) => true
    case Undo(op, fate, _) => Fresh(d.db, op) && fate != ReplyLost
    case Redo(op, fate, _) => Fresh(d.db, op) && fate != ReplyLost
  }

  // ----- The line of states -----

  /** A linear history and where the student is in it. */
  datatype Line = Line(states: seq<Content>, at: nat)

  predicate Possible(line: Line, move: Move) {
    && line.at < |line.states|
    && (move == Back ==> line.at > 0)
    && (move == Forward ==> line.at + 1 < |line.states|)
  }

  /** A new state cuts off what was undone; past fifty steps the oldest state goes. A joined save
      replaces the newest state. */
  function Stepped(line: Line, move: Move): Line
    requires Possible(line, move)
  {
    match move
    case Stay => line
    case Back => line.(at := line.at - 1)
    case Forward => line.(at := line.at + 1)
    case Add(content, join) =>
      if content == line.states[line.at] then line
      else if join && line.at > 0 then Line(line.states[..line.at] + [content], line.at)
      else
        var states := line.states[..line.at + 1] + [content];
        if |states| > HISTORY_LIMIT + 1 then Line(states[1..], line.at) else Line(states, line.at + 1)
  }

  function Committed(work: WeekWork): Content {
    Content(work.committed, Bodies(work.committedHw))
  }

  /** The step names homework that is on neither side of it. */
  predicate Blank(step: Step) {
    exists id <- step.homework :: step.homework[id] == HwChange(None, None)
  }

  predicate NoneBlank(stack: seq<Step>) {
    forall i :: 0 <= i < |stack| ==> !Blank(stack[i])
  }

  /** Each step of the stacks takes one state of the line to the next: what it ends on is what the step
      above it begins with. */
  ghost predicate Chained(week: string, undo: seq<Step>, redo: seq<Step>, line: Line) {
    && line.at == |undo|
    && |line.states| == |undo| + |redo| + 1 <= HISTORY_LIMIT + 1
    && (forall i | 0 <= i < |undo| :: Links(week, undo[i], line.states[i], line.states[i + 1]))
    && (forall i | 0 <= i < |redo| ::
          Links(week, redo[i], line.states[|line.states| - 2 - i], line.states[|line.states| - 1 - i]))
    && NoneBlank(undo) && NoneBlank(redo)
  }

  /** The stacks chain the line, and the committed week and homework are the state at the cursor. */
  ghost predicate Follows(work: WeekWork, line: Line) {
    Chained(work.week, work.undo, work.redo, line) && Committed(work) == line.states[line.at]
  }

  // ----- What a desk keeps -----

  predicate Idle(s: State) {
    !s.busy && s.travel == Still && s.travelStep == None && !s.open.conflict
  }

  /** The window has nothing of its own to send. */
  predicate Clean(work: WeekWork) {
    work.pending.None? && !work.dirty
  }

  /** Nothing is on its way: the window is in step with the server but for its edits. */
  ghost predicate Unsent(work: WeekWork, db: Db) {
    && work.pending.None?
    && InStep(work, db) && EditsOnly(work)
    && (!work.dirty ==> work.blocks == work.committed && work.homework == work.committedHw && work.dirtyHw == {})
  }

  /** The pending save was built when the server held `before`, and the server may have run it since. */
  ghost predicate Built(s: State, before: Db, db: Db) {
    && s.open.pending.Some?
    && InStep(s.open, before) && EditsOnly(s.open) && ExtraWeeks(s) == {}
    && var batch := s.open.pending.value;
       && batch == BuildBatch(s, batch.op)
       && SoundLog(before.ops)
       && Recall(before.ops, batch.op, ChangesPayload(batch)) == Missing
       && (db == before || exists token :: RanOnce(before, batch, token, db))
  }

  ghost predicate RanOnce(before: Db, batch: Batch, token: string, db: Db) {
    Runs(before, Post(batch, token)) && db == PostChanges(before, batch, token).0
  }

  ghost predicate Kept(s: State, db: Db) {
    && s.open.step == StepForSave(s)
    && exists before :: Built(s, before, db)
  }

  /** No homework is missing from the window that its last committed week had or that was edited since. */
  predicate KeepsHomework(work: WeekWork) {
    work.committedHw.Keys + work.dirtyHw <= work.homework.Keys
  }

  /** The desk is where `line` says: either in step with the server, or with a save kept for a retry. */
  ghost predicate At(d: Desk, line: Line) {
    && Idle(d.s) && SoundLog(d.db.ops) && Follows(d.s.open, line) && KeepsHomework(d.s.open)
    && (Unsent(d.s.open, d.db) || Kept(d.s, d.db))
  }

  // ----- The server's part -----

  /** However the save was lost before, once it gets through the server holds the window's content and the
      reply tells so; a refusal changes nothing and is never for being behind. */
  lemma ServerTakes(s: State, before: Db, db: Db, token: string)
    requires Built(s, before, db)
    ensures var (after, reply) := PostChanges(db, s.open.pending.value, token);
            && SoundLog(after.ops)
            && Built(s, before, after)
            && (reply.Done? <==> db != before || Storable(s.open))
            && (reply.Done? ==> reply.value.ChangesResponse? && Landed(s.open, after, reply.value.reply))
            && (reply.Refused? ==> after == db == before && reply.why != Conflict)
  {
    hide RunBatch, InStep, EditsOnly, Storable, PutResults, BuildBatch, SoundLog;
    var batch := s.open.pending.value;
    BatchLands(s, before, batch.op, token);
    var post := Post(batch, token);
    if db == before {
      PostAgainstLog(db, post);
      if Runs(db, post) {
        assert RanOnce(before, batch, token, PostChanges(db, batch, token).0);
      }
    } else {
      var first :| RanOnce(before, batch, first, db);
      BatchLands(s, before, batch.op, first);
      PostAgainstLog(before, Post(batch, first));
      assert HandleAll(db, []) == db;
      RetryGetsTheFirstReply(before, Post(batch, first), [], post);
    }
  }

  // ----- The stacks -----

  lemma ChainBack(week: string, undo: seq<Step>, step: Step, kept: Step, redo: seq<Step>, line: Line)
    requires Chained(week, undo + [step], redo, line)
    requires Links(week, kept, line.states[line.at - 1], line.states[line.at]) && kept.homework == step.homework
    ensures Chained(week, undo, PushStep(redo, kept), Stepped(line, Back)) && PushStep(redo, kept) == redo + [kept]
  {
    hide Links;
    assert (undo + [step])[|undo|] == step && !Blank(step);
    assert forall i | 0 <= i < |undo| :: (undo + [step])[i] == undo[i];
  }

  lemma ChainForward(week: string, undo: seq<Step>, redo: seq<Step>, step: Step, kept: Step, line: Line)
    requires Chained(week, undo, redo + [step], line)
    requires Links(week, kept, line.states[line.at], line.states[line.at + 1]) && kept.homework == step.homework
    ensures Chained(week, PushStep(undo, kept), redo, Stepped(line, Forward)) && PushStep(undo, kept) == undo + [kept]
  {
    hide Links;
    assert (redo + [step])[|redo|] == step && !Blank(step);
    assert forall i | 0 <= i < |redo| :: (redo + [step])[i] == redo[i];
  }

  lemma NoneBlankAdded(week: string, undo: seq<Step>, step: Step, a: Content, b: Content, join: bool)
    requires NoneBlank(undo) && Links(week, step, a, b) && step.homework.Keys <= b.bodies.Keys
    ensures NoneBlank(if join then JoinStep(undo, step) else PushStep(undo, step)) && NoneBlank([])
  {
    forall id <- step.homework ensures step.homework[id].after.Some? {
      assert step.homework[id].after == Lookup(b.bodies, id);
    }
    hide Links;
    assert !Blank(step);
    if join && undo != [] {
      assert !Blank(undo[|undo| - 1]);
      assert !Blank(JoinedStep(undo[|undo| - 1], step));
    }
    hide Blank, JoinedStep;
  }

  lemma ChainAdd(week: string, undo: seq<Step>, redo: seq<Step>, step: Step, content: Content, join: bool, line: Line)
    requires Chained(week, undo, redo, line)
    requires Links(week, step, line.states[line.at], content) && content != line.states[line.at]
    requires step.homework.Keys <= content.bodies.Keys
    ensures Chained(week, if join then JoinStep(undo, step) else PushStep(undo, step), [],
                    Stepped(line, Add(content, join)))
  {
    if join && undo != [] {
      var top := undo[|undo| - 1];
      assert Links(week, top, line.states[line.at - 1], line.states[line.at]);
      JoinedLinks(week, top, step, line.states[line.at - 1], line.states[line.at], content);
    }
    NoneBlankAdded(week, undo, step, line.states[line.at], content, join);
    hide Links, JoinedStep, NoneBlank;
  }

  lemma RevisionsLink(week: string, step: Step, weeks: seq<WeekWrite>, a: Content, b: Content)
    requires Links(week, step, a, b)
    ensures Links(week, KeepRevisions(step, weeks), a, b)
  {
  }

  lemma StoredLinks(step: Step, write: WeekWrite, homework: Homework, a: Content, b: Content)
    requires Links(write.week, step, a, b) && write.blocks == b.blocks && Bodies(homework) == b.bodies
    ensures Links(write.week, AsStored(step, [write], homework), a, b)
    ensures AsStored(step, [write], homework).homework.Keys == step.homework.Keys
  {
    var stored := AsStored(step, [write], homework);
    assert FindWeek([write], write.week) == Some(write);
    forall id <- stored.homework ensures stored.homework[id].after == Lookup(b.bodies, id) {
      LookupOfBodies(homework, id);
    }
  }

  // ----- The window's part -----

  /** A landed save leaves the window with nothing unsaved and in step with the server. */
  lemma ReplySettles(s: State, call: Call, db: Db, reply: Reply)
    requires call.PostSave? && call.ticket == s.ticket && Landed(s.open, db, reply)
    ensures var after := AfterSaveOk(s, call, reply);
            var recorded := Recorded(s.travel, s.travelStep, s.join, s.open.(homework := db.homework), reply);
            && Idle(after) && Unsent(after.open, db) && Clean(after.open) && KeepsHomework(after.open)
            && after.open.week == s.open.week
            && after.open.undo == recorded.undo && after.open.redo == recorded.redo
            && Committed(after.open) == ContentOf(s.open)
  {
    hide Recorded, PutResults, Bodies;
    assert reply.weeks == [reply.weeks[0]];
    assert FindWeek(reply.weeks, s.open.week) == Some(reply.weeks[0]);
    var current := WithCurrent(s.open, reply);
    WindowPutsResults(current, reply.homework);
    var stored := WithResults(current, reply.homework);
    RecordedKeepsRest(s.travel, s.travelStep, s.join, stored, s.open.(homework := db.homework), reply);
  }

  lemma RecordedKeepsRest(travel: Travel, travelStep: Option<Step>, join: bool, work: WeekWork, other: WeekWork,
                          reply: Reply)
    requires work.undo == other.undo && work.redo == other.redo && work.step == other.step
    requires work.homework == other.homework
    ensures var after := Recorded(travel, travelStep, join, work, reply);
            var beside := Recorded(travel, travelStep, join, other, reply);
            && after == work.(undo := after.undo, redo := after.redo)
            && after.undo == beside.undo && after.redo == beside.redo
  {
    hide PushStep, JoinStep, KeepRevisions, AsStored;
  }

  /** When no homework went away, what a captured step names is there after it. */
  lemma CapturedStays(name: string, week: string, before: seq<Block>, after: seq<Block>,
                      beforeHw: Homework, afterHw: Homework, changed: set<string>)
    requires beforeHw.Keys <= afterHw.Keys
    ensures var step := CaptureStep(name, week, before, after, beforeHw, afterHw, changed);
            step.Some? ==> step.value.homework.Keys <= Bodies(afterHw).Keys
  {
  }

  /** A recorded save that lands adds its state to the line. */
  lemma SaveLands(s: State, call: Call, db: Db, reply: Reply, line: Line)
    requires call.PostSave? && call.ticket == s.ticket && Landed(s.open, db, reply)
    requires s.travel == Still && s.travelStep == None && s.open.step == StepForSave(s) && EditsOnly(s.open)
    requires Follows(s.open, line) && KeepsHomework(s.open)
    ensures Follows(AfterSaveOk(s, call, reply).open, Stepped(line, Add(ContentOf(s.open), s.join)))
  {
    hide Links, JoinStep, PushStep, AsStored, StepForSave, Chained, EditsOnly, KeepsHomework, Stepped;
    var work, step := s.open, s.open.step;
    CursorInside(work, line);
    StepCaptured(s);
    ReplySettles(s, call, db, reply);
    AddedAt(line, ContentOf(work), s.join);
    if step.Some? {
      assert reply.weeks == [reply.weeks[0]];
      StoredLinks(step.value, reply.weeks[0], db.homework, Committed(work), ContentOf(work));
      ChainAdd(work.week, work.undo, work.redo, AsStored(step.value, reply.weeks, db.homework), ContentOf(work), s.join,
               line);
    }
  }

  lemma AddedAt(line: Line, content: Content, join: bool)
    requires line.at < |line.states| <= HISTORY_LIMIT + 1
    ensures var after := Stepped(line, Add(content, join));
            after.at < |after.states| && after.states[after.at] == content
    ensures content == line.states[line.at] ==> Stepped(line, Add(content, join)) == line
  {
  }

  /** The step a save sets aside: one when something changed, from the committed state to the one sent. */
  lemma StepCaptured(s: State)
    requires s.travel == Still && s.travelStep == None && EditsOnly(s.open) && KeepsHomework(s.open)
    ensures var work, step := s.open, StepForSave(s);
            && (step.None? <==> ContentOf(work) == Committed(work))
            && (step.Some? ==> Links(work.week, step.value, Committed(work), ContentOf(work))
                               && step.value.homework.Keys <= ContentOf(work).bodies.Keys)
  {
    hide CaptureStep, Links;
    var work := s.open;
    assert Sorted(ExtraWeeks(s)) == [];
    forall id | id !in work.dirtyHw ensures BodyOf(work.committedHw, id) == BodyOf(work.homework, id) {
    }
    CaptureLinks(work.name, work.week, work.committed, work.blocks, work.committedHw, work.homework, work.dirtyHw);
    CapturedStays(work.name, work.week, work.committed, work.blocks, work.committedHw, work.homework, work.dirtyHw);
  }

  // ----- A travel sets out -----

  lemma NothingStale(s: State, line: Line)
    requires Follows(s.open, line)
    ensures WithoutStale(s) == s
  {
    var undo, redo := s.open.undo, s.open.redo;
    if undo != [] {
      assert Links(s.open.week, undo[|undo| - 1], line.states[|undo| - 1], line.states[|undo|]);
    }
    if redo != [] {
      assert Links(s.open.week, redo[|redo| - 1], line.states[line.at], line.states[line.at + 1]);
    }
  }

  /** A step's side put into the window shows the state on that side. */
  lemma SideIsState(work: WeekWork, step: Step, a: Content, b: Content)
    requires Links(work.week, step, a, b)
    ensures ContentOf(work) == b ==> ContentOf(SideApplied(work, step, Earlier)) == a
    ensures ContentOf(work) == a ==> ContentOf(SideApplied(work, step, Later)) == b
  {
    if ContentOf(work) == b {
      SideBodies(work.homework, step.homework, Earlier, a.bodies, b.bodies);
    }
    if ContentOf(work) == a {
      SideBodies(work.homework, step.homework, Later, b.bodies, a.bodies);
    }
  }

  lemma SideBodies(homework: Homework, changes: map<string, HwChange>, side: Side, there: map<string, string>,
                   here: map<string, string>)
    requires Bodies(homework) == here
    requires forall id <- changes :: SideBody(changes[id], side) == Lookup(there, id)
    requires forall id :: id !in changes ==> Lookup(here, id) == Lookup(there, id)
    ensures Bodies(WithSide(homework, changes, side)) == there
  {
    var sided := WithSide(homework, changes, side);
    forall id ensures Lookup(Bodies(sided), id) == Lookup(there, id) {
      LookupOfBodies(homework, id);
      if id !in changes {
        assert Lookup(here, id) == Lookup(there, id);
      }
    }
    SameLookups(Bodies(sided), there);
  }

  lemma SideEditsOnly(work: WeekWork, step: Step, side: Side)
    requires work.homework == work.committedHw && work.dirtyHw == {}
    ensures EditsOnly(SideApplied(work, step, side))
  {
  }

  lemma FreshIsMissing(db: Db, op: string, payload: Payload)
    requires Fresh(db, op)
    ensures Recall(db.ops, op, payload) == Missing
  {
    RecallMissing(db.ops, op, payload);
  }

  /** The travel's save is on its way: its step off its stack, its side on the screen. */
  ghost predicate UnderWay(s: State, db: Db, call: Call, line: Line) {
    && s.travelStep.Some? && s.travel != Still && !s.open.conflict
    && Built(s, db, db)
    && call == PostSave(s.ticket, s.open.pending.value)
    && line.at < |line.states|
    && Committed(s.open) == line.states[line.at]
    && (s.travel == Undoing ==>
          && line.at > 0
          && Chained(s.open.week, s.open.undo + [s.travelStep.value], s.open.redo, line)
          && ContentOf(s.open) == line.states[line.at - 1])
    && (s.travel == Redoing ==>
          && line.at + 1 < |line.states|
          && Chained(s.open.week, s.open.undo, s.open.redo + [s.travelStep.value], line)
          && ContentOf(s.open) == line.states[line.at + 1])
  }

  lemma TravelSends(s: State, db: Db, line: Line, popped: WeekWork, travel: Travel, step: Step, op: string)
    requires Idle(s) && Unsent(s.open, db) && SoundLog(db.ops) && Fresh(db, op) && !s.open.dirty
    requires line.at < |line.states| && Committed(s.open) == line.states[line.at] && travel != Still
    requires popped == s.open.(undo := popped.undo, redo := popped.redo)
    requires travel == Undoing ==> Chained(s.open.week, popped.undo + [step], popped.redo, line)
    requires travel == Redoing ==> Chained(s.open.week, popped.undo, popped.redo + [step], line)
    ensures var (after, call) := AfterSave(Travelling(s, popped, travel, step), op, false);
            call.Some? && UnderWay(after, db, call.value, line)
  {
    hide BuildBatch, Links, SideApplied;
    var week := s.open.week;
    var side := if travel == Undoing then Earlier else Later;
    var a := if travel == Undoing then line.states[line.at - 1] else line.states[line.at];
    var b := if travel == Undoing then line.states[line.at] else line.states[line.at + 1];
    if travel == Undoing {
      TopLinks(week, popped.undo, step, popped.redo, line, Undoing);
    } else {
      TopLinks(week, popped.redo, step, popped.undo, line, Redoing);
    }
    SideIsState(popped, step, a, b);
    SideEditsOnly(popped, step, side);
    var going := Travelling(s, popped, travel, step);
    SideKeepsRest(popped, step, side);
    NoExtraWeeks(week, step, a, b, going);
    FreshIsMissing(db, op, ChangesPayload(BuildBatch(going, op)));
    var (after, call) := AfterSave(going, op, false);
    SameBatch(going, after, op);
  }

  lemma SideKeepsRest(work: WeekWork, step: Step, side: Side)
    ensures var sided := SideApplied(work, step, side);
            sided == work.(blocks := sided.blocks, homework := sided.homework, dirtyHw := sided.dirtyHw,
                           dirty := true, conflict := false, pending := None, name := sided.name)
  {
  }

  lemma NoExtraWeeks(week: string, step: Step, a: Content, b: Content, s: State)
    requires Links(week, step, a, b) && s.travelStep == Some(step) && s.open.week == week
    ensures ExtraWeeks(s) == {}
  {
  }

  /** The batch depends on what is in the window, not on what is kept beside it. */
  lemma SameBatch(s: State, t: State, op: string)
    requires t == s.(open := t.open, ticket := t.ticket, busy := t.busy, join := t.join)
    requires t.open == s.open.(pending := t.open.pending, step := t.open.step)
    ensures BuildBatch(s, op) == BuildBatch(t, op) && BuildBatch(s, op).op == op
    ensures s.travel == Still && ExtraWeeks(s) == {} ==> StepForSave(s) == StepForSave(t)
  {
    assert OwnWrites(s.open) == OwnWrites(t.open);
    assert ExtraWeeks(s) == ExtraWeeks(t);
  }

  // ----- A travel ends -----

  /** A travel that did not land puts its step back where it was and shows the committed week again. */
  lemma TravelFails(s: State, db: Db, call: Call, line: Line, why: Refusal)
    requires UnderWay(s, db, call, line) && why != Conflict
    ensures var (after, next) := AfterSaveErr(s, call, why);
            && next == None
            && Idle(after) && Follows(after.open, line) && Unsent(after.open, db) && Clean(after.open)
            && KeepsHomework(after.open)
            && after.open.undo == s.open.undo + (if s.travel == Undoing then [s.travelStep.value] else [])
            && after.open.redo == s.open.redo + (if s.travel == Redoing then [s.travelStep.value] else [])
  {
    hide Links, BuildBatch, Chained;
    assert s.open.undo + [] == s.open.undo && s.open.redo + [] == s.open.redo;
  }

  /** The same step, whatever revisions it keeps. */
  predicate SameStep(a: Step, b: Step) {
    && a == b.(weeks := a.weeks) && a.weeks.Keys == b.weeks.Keys
    && forall week <- a.weeks :: a.weeks[week] == b.weeks[week].(rev := a.weeks[week].rev)
  }

  /** The newest step of one stack has gone on top of the other. */
  predicate StepTaken(before: WeekWork, after: WeekWork, travel: Travel) {
    var from, to := if travel == Undoing then (before.undo, after.undo) else (before.redo, after.redo),
                    if travel == Undoing then (before.redo, after.redo) else (before.undo, after.undo);
    && from.0 != [] && from.1 == from.0[..|from.0| - 1]
    && to.1 != [] && to.1[..|to.1| - 1] == to.0
    && SameStep(to.1[|to.1| - 1], from.0[|from.0| - 1])
  }

  /** The week with its travelling step on its stack. */
  function Unpopped(s: State): WeekWork
    requires s.travelStep.Some?
  {
    if s.travel == Undoing then s.open.(undo := s.open.undo + [s.travelStep.value])
    else s.open.(redo := s.open.redo + [s.travelStep.value])
  }

  lemma KeptIsSame(step: Step, weeks: seq<WeekWrite>)
    ensures SameStep(KeepRevisions(step, weeks), step) && KeepRevisions(step, weeks).homework == step.homework
  {
  }

  /** One that landed leaves its step on the other stack and the week in step with the server. */
  lemma TravelLands(s: State, db: Db, call: Call, after: Db, reply: Reply, line: Line)
    requires UnderWay(s, db, call, line) && Landed(s.open, after, reply)
    ensures var t := AfterSaveOk(s, call, reply);
            && Idle(t) && Unsent(t.open, after) && Clean(t.open) && KeepsHomework(t.open)
            && Follows(t.open, Stepped(line, if s.travel == Undoing then Back else Forward))
            && StepTaken(Unpopped(s), t.open, s.travel)
  {
    hide Landed, Built, InStep, EditsOnly, Chained, Links, PushStep, AfterSaveOk, KeepRevisions, SameStep;
    ReplySettles(s, call, after, reply);
    var step, week := s.travelStep.value, s.open.week;
    var kept := KeepRevisions(step, reply.weeks);
    KeptIsSame(step, reply.weeks);
    if s.travel == Undoing {
      TopLinks(week, s.open.undo, step, s.open.redo, line, Undoing);
      RevisionsLink(week, step, reply.weeks, line.states[line.at - 1], line.states[line.at]);
      ChainBack(week, s.open.undo, step, kept, s.open.redo, line);
    } else {
      TopLinks(week, s.open.redo, step, s.open.undo, line, Redoing);
      RevisionsLink(week, step, reply.weeks, line.states[line.at], line.states[line.at + 1]);
      ChainForward(week, s.open.undo, s.open.redo, step, kept, line);
    }
  }

  lemma TopLinks(week: string, rest: seq<Step>, step: Step, other: seq<Step>, line: Line, travel: Travel)
    requires travel == Undoing ==> Chained(week, rest + [step], other, line)
    requires travel == Redoing ==> Chained(week, other, rest + [step], line)
    ensures travel == Undoing ==> line.at > 0 && Links(week, step, line.states[line.at - 1], line.states[line.at])
    ensures travel == Redoing ==>
              line.at + 1 < |line.states| && Links(week, step, line.states[line.at], line.states[line.at + 1])
  {
    hide Links;
    assert (rest + [step])[|rest|] == step;
  }

  /** A travel either lands and moves the cursor, or changes nothing on either side. It lands exactly when
      it is heard and the server may store the state it goes to. */
  lemma TravelEnds(s: State, db: Db, call: Call, line: Line, fate: Fate, token: string)
    requires UnderWay(s, db, call, line) && SoundLog(db.ops) && fate != ReplyLost
    ensures var (after, landed) := Exchange(Desk(s, db), Some(call), fate, token);
            && (landed <==> fate == Heard && Storable(s.open))
            && (landed ==>
                  && At(after, Stepped(line, if s.travel == Undoing then Back else Forward)) && Clean(after.s.open)
                  && StepTaken(Unpopped(s), after.s.open, s.travel))
            && (!landed ==> At(after, line) && after.db == db)
  {
    hide Landed, Built, Storable, Follows, Unsent, Chained, AfterSaveOk, AfterSaveErr, PostChanges;
    ServerTakes(s, db, db, token);
    var (posted, reply) := PostChanges(db, call.batch, token);
    if fate == Heard && reply.Done? {
      TravelLands(s, db, call, posted, reply.value.reply, line);
    } else {
      TravelFails(s, db, call, line, if fate == RequestLost then Unreachable else reply.why);
    }
  }

  // ----- A save ends -----

  lemma SaveKept(s: State, before: Db, db: Db, call: Call, line: Line, why: Refusal)
    requires call.PostSave? && call.ticket == s.ticket && why != Conflict
    requires s.travel == Still && s.travelStep == None && !s.open.conflict
    requires s.open.step == StepForSave(s) && Built(s, before, db) && Follows(s.open, line)
    ensures var after := AfterSaveErr(s, call, why).0;
            Idle(after) && Follows(after.open, line) && Kept(after, db)
            && (KeepsHomework(s.open) ==> KeepsHomework(after.open))
  {
    hide Chained, InStep, EditsOnly, BuildBatch, StepForSave;
    var after := AfterSaveErr(s, call, why).0;
    SameBatch(s, after, s.open.pending.value.op);
    assert Built(after, before, db);
  }

  /** A save that lands adds its state to the line. One whose request or answer is lost, or which the
      server refuses, is kept whole, and the line stays. */
  lemma SaveEnds(s: State, before: Db, db: Db, line: Line, fate: Fate, token: string)
    requires s.travel == Still && s.travelStep == None && !s.open.conflict
    requires s.open.step == StepForSave(s) && Built(s, before, db) && Follows(s.open, line) && SoundLog(db.ops)
    requires KeepsHomework(s.open)
    ensures var call := PostSave(s.ticket, s.open.pending.value);
            var (after, landed) := Exchange(Desk(s, db), Some(call), fate, token);
            && (landed <==> fate == Heard && (db != before || Storable(s.open)))
            && At(after, if landed then Stepped(line, Add(ContentOf(s.open), s.join)) else line)
  {
    hide Landed, Storable, Chained, AfterSaveOk, AfterSaveErr, PostChanges, StepForSave, BuildBatch, InStep, EditsOnly,
      Stepped;
    var call := PostSave(s.ticket, s.open.pending.value);
    ServerTakes(s, before, db, token);
    var (posted, reply) := PostChanges(db, call.batch, token);
    if fate == RequestLost {
      SaveKept(s, before, db, call, line, Unreachable);
    } else if fate == ReplyLost {
      SaveKept(s, before, posted, call, line, Unreachable);
    } else if reply.Refused? {
      SaveKept(s, before, posted, call, line, reply.why);
    } else {
      ReplySettles(s, call, posted, reply.value.reply);
      SaveLands(s, call, posted, reply.value.reply, line);
    }
  }

  // ----- Every event -----

  lemma EditStays(d: Desk, line: Line, e: Event)
    requires At(d, line) && e.Edit? && Covered(d, e)
    ensures At(Next(d, e).0, line)
  {
    hide BuildBatch, Chained, StepForSave, InStep, EditsOnly, Kept, Changed;
    var work, changes := d.s.open, e.changes;
    NotRunYet(d, line);
    EditKeepsEditsOnly(work, changes, Next(d, e).0.s.open);
    EditedInStep(work, d.db, Next(d, e).0.s.open);
  }

  /** A window whose pending save the server has not run is in step with it. */
  lemma NotRunYet(d: Desk, line: Line)
    requires At(d, line)
    requires d.s.open.pending.Some? ==>
               Recall(d.db.ops, d.s.open.pending.value.op, ChangesPayload(d.s.open.pending.value)) == Missing
    ensures InStep(d.s.open, d.db) && EditsOnly(d.s.open)
  {
    hide BuildBatch, Follows, StepForSave, InStep, EditsOnly;
    var work := d.s.open;
    if work.pending.Some? {
      var before :| Built(d.s, before, d.db);
      if d.db != before {
        var token :| RanOnce(before, work.pending.value, token, d.db);
        RanIsRemembered(before, work.pending.value, token, d.db);
      }
    }
  }

  lemma EditedInStep(work: WeekWork, db: Db, after: WeekWork)
    requires InStep(work, db) && after.week == work.week && after.rev == work.rev
    requires after.committed == work.committed && after.committedHw == work.committedHw
    ensures InStep(after, db)
  {
  }

  lemma RanIsRemembered(before: Db, batch: Batch, token: string, db: Db)
    requires SoundLog(before.ops) && RanOnce(before, batch, token, db)
    ensures Recall(db.ops, batch.op, ChangesPayload(batch)) != Missing
  {
    PostAgainstLog(before, Post(batch, token));
    RecallMissing(db.ops, batch.op, ChangesPayload(batch));
    assert db.ops[|db.ops| - 1].id == batch.op;
  }

  lemma EditKeepsEditsOnly(work: WeekWork, changes: map<string, string>, edited: WeekWork)
    requires EditsOnly(work)
    requires edited.homework == Changed(work.homework, changes) && edited.dirtyHw == work.dirtyHw + changes.Keys
    requires edited.committedHw == work.committedHw
    requires KeepsHomework(work)
    ensures var after := Changed(work.homework, changes);
            && work.committedHw.Keys + work.dirtyHw + changes.Keys <= after.Keys
            && EditsOnly(edited)
  {
    var after := Changed(work.homework, changes);
    forall id | id !in work.dirtyHw + changes.Keys
      ensures (id in after <==> id in work.committedHw) && (id in after ==> after[id] == work.committedHw[id])
    {
      assert id in after <==> id in work.homework;
    }
    forall id | id in after && id in work.dirtyHw + changes.Keys
      ensures after[id].rev == if id in work.committedHw then work.committedHw[id].rev else 0
    {
      if id in work.homework && id !in work.dirtyHw {
        assert id in work.committedHw && work.homework[id] == work.committedHw[id];
      }
    }
  }

  /** Sending, or sending again: the pending save is the one built before, or it is built now. */
  lemma SaveSends(s: State, db: Db, line: Line, op: string, join: bool) returns (before: Db)
    requires At(Desk(s, db), line)
    requires s.open.pending.None? ==> Fresh(db, op)
    ensures var (after, call) := AfterSave(s, op, join);
            && call == Some(PostSave(after.ticket, after.open.pending.value))
            && after.travel == Still && after.travelStep == None && !after.open.conflict && after.join == join
            && after.open.step == StepForSave(after) && Built(after, before, db) && Follows(after.open, line)
            && KeepsHomework(after.open) && ContentOf(after.open) == ContentOf(s.open)
            && (before != db ==> s.open.pending.Some?)
  {
    hide BuildBatch, Chained, StepForSave;
    var (after, call) := AfterSave(s, op, join);
    if s.open.pending.Some? {
      before :| Built(s, before, db);
      SameBatch(s, after, s.open.pending.value.op);
    } else {
      before := db;
      SameBatch(s, after, op);
      FreshIsMissing(db, op, ChangesPayload(BuildBatch(s, op)));
      assert ExtraWeeks(after) == {};
      assert Built(after, before, db);
    }
  }

  function TravelEvent(travel: Travel, op: string, fate: Fate, token: string): Event {
    if travel == Undoing then Undo(op, fate, token) else Redo(op, fate, token)
  }

  function Stack(work: WeekWork, travel: Travel): seq<Step> {
    if travel == Undoing then work.undo else work.redo
  }

  /** The week with the newest step of a stack taken off it. */
  function Popped(work: WeekWork, travel: Travel): WeekWork
    requires Stack(work, travel) != []
  {
    var rest := Stack(work, travel)[..|Stack(work, travel)| - 1];
    if travel == Undoing then work.(undo := rest) else work.(redo := rest)
  }

  /** The week with the newest step of a stack taken off it and put in. */
  function Destination(work: WeekWork, travel: Travel): WeekWork
    requires Stack(work, travel) != []
  {
    SideApplied(Popped(work, travel), Stack(work, travel)[|Stack(work, travel)| - 1],
                if travel == Undoing then Earlier else Later)
  }

  /** An undo or redo that was answered: the cursor moves exactly when the window has nothing unsaved, there
      is a step to take and the server may store the state it goes to. Otherwise nothing changes on either
      side. */
  lemma TravelStep(d: Desk, line: Line, op: string, fate: Fate, token: string, travel: Travel)
    requires At(d, line) && Fresh(d.db, op) && fate != ReplyLost && travel != Still
    ensures var (after, move) := Next(d, TravelEvent(travel, op, fate, token));
            && Possible(line, move) && At(after, Stepped(line, move))
            && (move == Stay ==> after.db == d.db)
            && (move != Stay ==> Clean(d.s.open) && Clean(after.s.open) && StepTaken(d.s.open, after.s.open, travel))
            && move in {Stay, if travel == Undoing then Back else Forward}
            && (move != Stay <==> Clean(d.s.open) && Stack(d.s.open, travel) != [] && fate == Heard
                                  && Storable(Destination(d.s.open, travel)))
  {
    hide At, Storable, AfterSave, Travelling, Exchange, Destination, StepTaken;
    var s := d.s;
    InPlace(d, line);
    NothingStale(s, line);
    TravelsWhenClean(d, line, travel);
    if TravelsHere(s, Stack(s.open, travel)) {
      TravelGoes(d, line, op, fate, token, travel);
    } else {
      NoCallNoChange(d, fate, token);
    }
  }

  lemma InPlace(d: Desk, line: Line)
    requires At(d, line)
    ensures Follows(d.s.open, line) && line.at < |line.states| && SoundLog(d.db.ops) && Idle(d.s)
  {
    hide Chained, Unsent, Kept;
    CursorInside(d.s.open, line);
  }

  /** The travel as the window sends it, and what becomes of it. */
  lemma TravelGoes(d: Desk, line: Line, op: string, fate: Fate, token: string, travel: Travel)
    requires At(d, line) && Fresh(d.db, op) && fate != ReplyLost && travel != Still
    requires TravelsHere(d.s, Stack(d.s.open, travel))
    ensures var step := Stack(d.s.open, travel)[|Stack(d.s.open, travel)| - 1];
            var (sent, call) := AfterSave(Travelling(d.s, Popped(d.s.open, travel), travel, step), op, false);
            var (after, landed) := Exchange(Desk(sent, d.db), call, fate, token);
            && (landed <==> fate == Heard && Storable(Destination(d.s.open, travel)))
            && (landed ==> At(after, Stepped(line, if travel == Undoing then Back else Forward))
                           && Possible(line, if travel == Undoing then Back else Forward)
                           && Clean(after.s.open) && StepTaken(d.s.open, after.s.open, travel))
            && (!landed ==> At(after, line) && after.db == d.db)
  {
    hide At, Unsent, Built, Storable, AfterSave, Links, Travelling, Exchange, SideApplied, StepTaken, NoneBlank;
    var s, stack := d.s, Stack(d.s.open, travel);
    var step, rest, popped := stack[|stack| - 1], stack[..|stack| - 1], Popped(d.s.open, travel);
    assert rest + [step] == stack;
    InPlace(d, line);
    CleanIsUnsent(d, line);
    TravelSends(s, d.db, line, popped, travel, step, op);
    var (sent, call) := AfterSave(Travelling(s, popped, travel, step), op, false);
    SentTravel(s, popped, travel, step, op);
    assert Unpopped(sent).undo == s.open.undo && Unpopped(sent).redo == s.open.redo;
    TravelEnds(sent, d.db, call.value, line, fate, token);
    TakenFrom(Unpopped(sent), s.open, Exchange(Desk(sent, d.db), call, fate, token).0.s.open, travel);
  }

  lemma TakenFrom(a: WeekWork, b: WeekWork, after: WeekWork, travel: Travel)
    requires a.undo == b.undo && a.redo == b.redo
    ensures StepTaken(a, after, travel) <==> StepTaken(b, after, travel)
  {
  }

  lemma TravelsWhenClean(d: Desk, line: Line, travel: Travel)
    requires At(d, line) && travel != Still
    ensures TravelsHere(d.s, Stack(d.s.open, travel)) <==> Clean(d.s.open) && Stack(d.s.open, travel) != []
  {
    hide Unsent, Kept;
    var stack := Stack(d.s.open, travel);
    if stack != [] {
      var from := if travel == Undoing then line.at - 1 else line.at;
      assert Links(d.s.open.week, stack[|stack| - 1], line.states[from], line.states[from + 1]);
      SameKeys(stack[|stack| - 1].weeks, d.s.open.week);
    }
  }

  lemma SameKeys(weeks: map<string, WeekChange>, week: string)
    requires weeks.Keys <= {week}
    ensures weeks == map[] || week in weeks
  {
    if weeks != map[] {
      var other :| other in weeks;
      assert other == week;
    }
  }

  lemma SentTravel(s: State, popped: WeekWork, travel: Travel, step: Step, op: string)
    requires !s.busy
    ensures var sent := AfterSave(Travelling(s, popped, travel, step), op, false).0;
            && sent.travel == travel && sent.travelStep == Some(step)
            && var side := SideApplied(popped, step, if travel == Undoing then Earlier else Later);
               && sent.open.undo == popped.undo && sent.open.redo == popped.redo
               && sent.open == side.(pending := sent.open.pending, step := sent.open.step)
               && (Storable(sent.open) <==> Storable(side))
               && ContentOf(sent.open) == ContentOf(side)
  {
    hide BuildBatch, StepForSave, WithSide, RepeatsId, Owned, HasRoom;
  }

  lemma NoCallNoChange(d: Desk, fate: Fate, token: string)
    ensures Exchange(d, None, fate, token) == (d, false)
  {
  }

  lemma CursorInside(work: WeekWork, line: Line)
    requires Follows(work, line)
    ensures line.at < |line.states| <= HISTORY_LIMIT + 1
  {
  }

  lemma CleanIsUnsent(d: Desk, line: Line)
    requires At(d, line) && d.s.open.pending.None?
    ensures Unsent(d.s.open, d.db)
  {
  }

  lemma OneEvent(d: Desk, line: Line, e: Event)
    requires At(d, line) && Covered(d, e)
    ensures var (after, move) := Next(d, e);
            Possible(line, move) && At(after, Stepped(line, move))
  {
    hide Unsent, Built, Storable, AfterSave, Exchange, Kept, Chained, AfterUndo, AfterRedo, Fresh, StepForSave;
    CursorInside(d.s.open, line);
    match e
    case Edit(_, _, _) => EditStays(d, line, e);
    case Undo(op, fate, token) => TravelStep(d, line, op, fate, token, Undoing);
    case Redo(op, fate, token) => TravelStep(d, line, op, fate, token, Redoing);
    case Save(op, join, fate, token) =>
      var before := SaveSends(d.s, d.db, line, op, join);
      SaveEnds(AfterSave(d.s, op, join).0, before, d.db, line, fate, token);
    case Retry(fate, token) =>
      if d.s.open.pending.Some? {
        var before := SaveSends(d.s, d.db, line, "", false);
        SaveEnds(AfterSave(d.s, "", false).0, before, d.db, line, fate, token);
      } else {
        NoCallNoChange(d, fate, token);
      }
  }

  /** A week just opened from another, with nothing on its way, starts a line of its own: the state loaded. */
  lemma LoadStartsALine(s: State, db: Db, call: Call)
    requires call.GetHomework? && call.ticket == s.ticket && call.week != call.previous
    requires call.row == RowOf(db.weeks, call.week) && SoundLog(db.ops)
    requires s.travel == Still && s.travelStep == None
    ensures var loaded := AfterHomeworkReply(s, call, db.homework);
            At(Desk(loaded, db), Line([Content(call.row.blocks, Bodies(db.homework))], 0)) && Clean(loaded.open)
  {
    hide Links, Kept;
  }

  // ----- Every run -----

  function Final(d: Desk, events: seq<Event>): Desk
    decreases events
  {
    if events == [] then d else Final(Next(d, events[0]).0, events[1..])
  }

  predicate AllCovered(d: Desk, events: seq<Event>)
    decreases events
  {
    events == [] || (Covered(d, events[0]) && AllCovered(Next(d, events[0]).0, events[1..]))
  }

  function LineAfter(line: Line, d: Desk, events: seq<Event>): Line
    decreases events
  {
    if events == [] then line
    else
      var (after, move) := Next(d, events[0]);
      LineAfter(if Possible(line, move) then Stepped(line, move) else line, after, events[1..])
  }

  /** Every run of edits, saves, retries, undos and redos that is `Covered` is a run of the line: the stacks
      chain its states and both sides are at its cursor. Any request may be lost, and so may any answer to a
      save. `LostAnswers` is about lost answers to undos and redos, `UnheardSaves` about edits over a save that
      went through unheard. */
  lemma {:induction false} RunsFollowTheLine(d: Desk, line: Line, events: seq<Event>)
    requires At(d, line) && AllCovered(d, events)
    ensures At(Final(d, events), LineAfter(line, d, events))
    decreases events
  {
    hide At, Next, Covered, Stepped;
    if events != [] {
      OneEvent(d, line, events[0]);
      var (after, move) := Next(d, events[0]);
      RunsFollowTheLine(after, Stepped(line, move), events[1..]);
    }
  }

  function ServerContent(work: WeekWork, db: Db): Content {
    Content(RowOf(db.weeks, work.week).blocks, Bodies(db.homework))
  }

  /** With no save waiting the server holds the state at the cursor, and so does a window with nothing
      unsaved; with one waiting the server holds that or what the window shows. */
  lemma BothSidesAtTheCursor(d: Desk, line: Line)
    requires At(d, line)
    ensures line.at < |line.states|
    ensures d.s.open.pending.None? ==> ServerContent(d.s.open, d.db) == line.states[line.at]
    ensures d.s.open.pending.None? && !d.s.open.dirty ==> ContentOf(d.s.open) == line.states[line.at]
    ensures ServerContent(d.s.open, d.db) in {line.states[line.at], ContentOf(d.s.open)}
  {
    hide EditsOnly, BuildBatch, Links;
    var work := d.s.open;
    if work.pending.Some? {
      var before :| Built(d.s, before, d.db);
      if d.db != before {
        var token :| RanOnce(before, work.pending.value, token, d.db);
        BatchLands(d.s, before, work.pending.value.op, token);
      }
    }
  }

  /** What each step ends on, the next begins with. */
  lemma AdjacentStepsChain(d: Desk, line: Line, i: nat)
    requires At(d, line) && i + 1 < |d.s.open.undo|
    ensures var week, earlier, later := d.s.open.week, d.s.open.undo[i], d.s.open.undo[i + 1];
            && (week in earlier.weeks && week in later.weeks ==> earlier.weeks[week].after == later.weeks[week].before)
            && (forall id | id in earlier.homework && id in later.homework ::
                  earlier.homework[id].after == later.homework[id].before)
  {
    hide Unsent, Kept;
    assert Links(d.s.open.week, d.s.open.undo[i], line.states[i], line.states[i + 1]);
    assert Links(d.s.open.week, d.s.open.undo[i + 1], line.states[i + 1], line.states[i + 2]);
  }

  /** A redo undoes an undo: the same state again, on both sides, with the same line and the same stacks but
      for the revisions the travelled step keeps. */
  lemma RedoUndoesUndo(d: Desk, line: Line, undo: Event, redo: Event)
    requires At(d, line) && undo.Undo? && redo.Redo?
    requires AllCovered(d, [undo, redo])
    requires Next(d, undo).1 == Back && Next(Next(d, undo).0, redo).1 == Forward
    ensures var after := Next(Next(d, undo).0, redo).0;
            && At(after, line)
            && ContentOf(after.s.open) == ContentOf(d.s.open)
            && ServerContent(after.s.open, after.db) == ServerContent(d.s.open, d.db)
            && d.s.open.undo != [] && |after.s.open.undo| == |d.s.open.undo|
            && after.s.open.undo[..|d.s.open.undo| - 1] == d.s.open.undo[..|d.s.open.undo| - 1]
            && SameStep(after.s.open.undo[|d.s.open.undo| - 1], d.s.open.undo[|d.s.open.undo| - 1])
            && after.s.open.redo == d.s.open.redo
  {
    hide At, Next, Storable, Destination, BuildBatch, StepTaken, SameStep;
    var between := Next(d, undo).0;
    assert [undo, redo][1..] == [redo];
    assert Covered(between, redo);
    TravelStep(d, line, undo.op, undo.fate, undo.token, Undoing);
    TravelStep(between, Stepped(line, Back), redo.op, redo.fate, redo.token, Redoing);
    BothSidesAtTheCursor(d, line);
    BothSidesAtTheCursor(Next(between, redo).0, line);
    SameStepTwice(d.s.open, between.s.open, Next(between, redo).0.s.open);
  }

  lemma SameStepTwice(a: WeekWork, b: WeekWork, c: WeekWork)
    requires StepTaken(a, b, Undoing) && StepTaken(b, c, Redoing)
    ensures a.undo != [] && |c.undo| == |a.undo| && c.undo[..|a.undo| - 1] == a.undo[..|a.undo| - 1]
    ensures SameStep(c.undo[|a.undo| - 1], a.undo[|a.undo| - 1]) && c.redo == a.redo
  {
    SameStepChains(a.undo[|a.undo| - 1], b.redo[|b.redo| - 1], c.undo[|c.undo| - 1]);
  }

  lemma SameStepChains(a: Step, b: Step, c: Step)
    requires SameStep(b, a) && SameStep(c, b)
    ensures SameStep(c, a)
  {
  }
}
