/** Several windows, one server and a network between them. A request may arrive any number of times,
    long after its window gave up on it, and any answer may be lost; each request's callback runs at
    most once. */
module Protocol {
  import opened Basics
  import opened Names
  import opened Store
  import opened Prediction
  import opened History
  import opened Session

  /** A version of a week that an answer showed a window. */
  datatype Seen = Seen(week: string, row: Row)

  /** A request on its way, with what its window had read when it sent it and the version its open week was
      built on. */
  datatype Sent = Sent(window: nat, call: Call, read: set<Seen>, base: Seen)

  datatype Answer = WeekIs(row: Row) | HomeworkIs(homework: Homework) | Saved(reply: Reply) | TurnedDown(why: Refusal)

  datatype System = System(
    db: Db,
    past: seq<Weeks>,
    windows: map<nat, State>,
    seen: map<nat, set<Seen>>,
    sent: map<nat, Sent>,
    waiting: set<nat>,
    answers: set<(nat, Answer)>)

  /** The version the window last had from the server for a week it works on. */
  function BaseOf(work: WeekWork): Seen {
    Seen(work.week, Row(work.committed, work.rev))
  }

  /** What the student does in a window. */
  datatype Action =
    | Edit(blocks: seq<Block>, changes: map<string, string>, name: string)
    | Load(start: string, discard: bool)
    | Reload
    | Save(op: string, join: bool)
    | Retry(op: string)
    | Undo(op: string)
    | Redo(op: string)
    | Move(to: string, sourceAfter: seq<Block>, destAfter: seq<Block>, op: string, name: string)

  function Act(s: State, action: Action): (State, Option<Call>) {
    match action
    case Edit(blocks, changes, name) =>
      (AfterEdit(s, blocks, Changed(s.open.homework, changes), changes.Keys, name), None)
    case Load(start, discard) => AfterLoad(s, start, discard)
    case Reload => AfterReload(s)
    case Save(op, join) => AfterSave(s, op, join)
    case Retry(op) => AfterRetry(s, op)
    case Undo(op) => AfterUndo(s, op)
    case Redo(op) => AfterRedo(s, op)
    case Move(to, sourceAfter, destAfter, op, name) => AfterMove(s, to, sourceAfter, destAfter, op, name)
  }

  /** A window's callback for `call` runs with `answer`. `plan` is how a fetched week takes the block; without
      one the block cannot go there. */
  function Take(s: State, call: Call, answer: Answer, plan: Action): (State, Option<Call>) {
    if call.GetWeek? && answer.WeekIs? then AfterWeekReply(s, call, answer.row)
    else if call.GetHomework? && answer.HomeworkIs? then (AfterHomeworkReply(s, call, answer.homework), None)
    else if call.GetDestination? && answer.WeekIs? && plan.Move? then
      AfterDestination(s, call, answer.row, plan.sourceAfter, plan.destAfter, plan.op, plan.name)
    else if call.PostSave? && answer.Saved? then (AfterSaveOk(s, call, answer.reply), None)
    else if call.PostSave? && answer.TurnedDown? then AfterSaveErr(s, call, answer.why)
    else (AfterFailure(s, call.ticket), None)
  }

  /** What an answer shows the window that takes it. One under an older ticket shows nothing. */
  function Shown(call: Call, answer: Answer): set<Seen> {
    match answer
    case WeekIs(row) => if call.GetWeek? || call.GetDestination? then {Seen(call.week, row)} else {}
    case Saved(reply) => set write | write in reply.weeks :: Seen(write.week, Row(write.blocks, write.rev))
    case _ => {}
  }

  datatype Event =
    | Local(window: nat, action: Action, number: nat)
    | Serve(request: nat, token: string)
    | Deliver(request: nat, answer: Answer, plan: Action, number: nat)

  /** The server handles a request, perhaps again, and answers. */
  function Served(sys: System, request: nat, token: string): System
    requires request in sys.sent
  {
    match sys.sent[request].call
    case GetWeek(_, _, week) => sys.(answers := sys.answers + {(request, WeekIs(RowOf(sys.db.weeks, week)))})
    case GetDestination(_, week) => sys.(answers := sys.answers + {(request, WeekIs(RowOf(sys.db.weeks, week)))})
    case GetHomework(_, _, _, _) => sys.(answers := sys.answers + {(request, HomeworkIs(sys.db.homework))})
    case PostSave(_, batch) =>
      var (after, reply) := PostChanges(sys.db, batch, token);
      var answer := match reply
                    case Done(ChangesResponse(stored)) => Saved(stored)
                    case Done(RestoreResponse(_, _)) => TurnedDown(Conflict)
                    case Refused(why) => TurnedDown(why);
      sys.(db := after, past := sys.past + [after.weeks], answers := sys.answers + {(request, answer)})
  }

  /** The window's new state, and the request it makes, if any, under a number not used before. */
  function WithWindow(sys: System, window: nat, result: (State, Option<Call>), number: nat): System {
    var placed := sys.(windows := sys.windows[window := result.0]);
    if result.1.None? then placed
    else
      var read := if window in sys.seen then sys.seen[window] else {};
      placed.(sent := sys.sent[number := Sent(window, result.1.value, read, BaseOf(result.0.open))],
              waiting := sys.waiting + {number})
  }

  function Next(sys: System, event: Event): System {
    match event
    case Local(window, action, number) =>
      if window !in sys.windows || number in sys.sent then sys
      else WithWindow(sys, window, Act(sys.windows[window], action), number)
    case Serve(request, token) =>
      if request !in sys.sent then sys else Served(sys, request, token)
    case Deliver(request, answer, plan, number) =>
      if request !in sys.waiting || request !in sys.sent || sys.sent[request].window !in sys.windows
         || number in sys.sent
         || !((request, answer) in sys.answers || answer == TurnedDown(Unreachable)) then sys
      else
        var window, call := sys.sent[request].window, sys.sent[request].call;
        var before := if window in sys.seen then sys.seen[window] else {};
        var shown := if call.ticket == sys.windows[window].ticket then before + Shown(call, answer) else before;
        var taken := sys.(waiting := sys.waiting - {request}, seen := sys.seen[window := shown]);
        WithWindow(taken, window, Take(sys.windows[window], call, answer, plan), number)
  }

  function Run(sys: System, events: seq<Event>): System
    decreases events
  {
    if events == [] then sys else Run(Next(sys, events[0]), events[1..])
  }

  /** A new account and any number of windows that have just opened. */
  function Start(windows: map<nat, string>): System {
    System(Db(map[], map[], [], [], []), [map[]], map w | w in windows :: FreshSession(windows[w]),
           map w | w in windows :: {}, map[], {}, {})
  }

  // ----- Versions the server has held -----

  predicate HeldRow(past: seq<Weeks>, week: string, row: Row) {
    exists i :: 0 <= i < |past| && RowOf(past[i], week) == row
  }

  /** `b` is `a` or a later version: a revision belongs to one version only. */
  predicate NotBefore(a: Row, b: Row) {
    a.rev <= b.rev && (a.rev == b.rev ==> a == b)
  }

  ghost predicate Grows(a: Weeks, b: Weeks) {
    forall week :: NotBefore(RowOf(a, week), RowOf(b, week))
  }

  ghost predicate SoundPast(past: seq<Weeks>) {
    |past| > 0 && forall i, j :: 0 <= i <= j < |past| ==> Grows(past[i], past[j])
  }

  /** The window was shown this version, or it is the week nobody saved. */
  predicate Read(seen: set<Seen>, week: string, row: Row) {
    Seen(week, row) in seen || row == UNSAVED
  }

  // ----- What every window keeps -----

  ghost predicate ReadAt(seen: set<Seen>, week: string, rev: nat) {
    exists row: Row :: row.rev == rev && Read(seen, week, row)
  }

  ghost predicate StepSound(seen: set<Seen>, step: Step) {
    forall week <- step.weeks :: ReadAt(seen, week, step.weeks[week].rev)
  }

  ghost predicate StackSound(seen: set<Seen>, stack: seq<Step>) {
    forall i :: 0 <= i < |stack| ==> StepSound(seen, stack[i])
  }

  /** A write of the window's own week has the revision of the version it was built on, moved on by the batch's
      own deletions or not; one of another week that of a version the window read. */
  ghost predicate WriteSound(seen: set<Seen>, base: Seen, write: WeekWrite, deleted: set<string>) {
    if write.week == base.week then
      Read(seen, base.week, base.row)
      && write.rev in {base.row.rev, RevisionAfterDeletes(base.row.blocks, base.row.rev, deleted)}
    else ReadAt(seen, write.week, write.rev)
  }

  predicate DistinctWeeks(writes: seq<WeekWrite>) {
    forall i, j :: 0 <= i < j < |writes| ==> writes[i].week != writes[j].week
  }

  ghost predicate BatchSound(seen: set<Seen>, base: Seen, batch: Batch) {
    && DistinctWeeks(batch.weeks)
    && forall i :: 0 <= i < |batch.weeks| ==> WriteSound(seen, base, batch.weeks[i], DeletedIds(batch.homework))
  }

  ghost predicate WorkSound(seen: set<Seen>, work: WeekWork) {
    && Read(seen, work.week, Row(work.committed, work.rev))
    && (work.pending.Some? ==> BatchSound(seen, BaseOf(work), work.pending.value))
    && StackSound(seen, work.undo) && StackSound(seen, work.redo)
    && (work.step.Some? ==> StepSound(seen, work.step.value))
  }

  ghost predicate WindowSound(seen: set<Seen>, s: State) {
    && WorkSound(seen, s.open)
    && (forall week <- s.drafts :: s.drafts[week].week == week && WorkSound(seen, s.drafts[week]))
    && (s.travelStep.Some? ==> StepSound(seen, s.travelStep.value))
  }

  ghost predicate CallSound(seen: set<Seen>, base: Seen, call: Call) {
    match call
    case GetHomework(_, _, week, row) => Read(seen, week, row)
    case PostSave(_, batch) => BatchSound(seen, base, batch)
    case _ => true
  }

  predicate LoadsFrom(call: Call, week: string) {
    (call.GetWeek? || call.GetHomework?) ==> call.previous == week
  }

  // ----- Reading more keeps everything -----

  lemma ReadMore(seen: set<Seen>, more: set<Seen>, s: State)
    requires seen <= more && WindowSound(seen, s)
    ensures WindowSound(more, s)
  {
    WorkReadMore(seen, more, s.open);
    forall week <- s.drafts ensures WorkSound(more, s.drafts[week]) {
      WorkReadMore(seen, more, s.drafts[week]);
    }
    if s.travelStep.Some? {
      StepReadMore(seen, more, s.travelStep.value);
    }
  }

  lemma StepReadMore(seen: set<Seen>, more: set<Seen>, step: Step)
    requires seen <= more && StepSound(seen, step)
    ensures StepSound(more, step)
  {
    forall week <- step.weeks ensures ReadAt(more, week, step.weeks[week].rev) {
      var row: Row :| row.rev == step.weeks[week].rev && Read(seen, week, row);
      assert Read(more, week, row);
    }
  }

  lemma BatchReadMore(seen: set<Seen>, more: set<Seen>, base: Seen, batch: Batch)
    requires seen <= more && BatchSound(seen, base, batch)
    ensures BatchSound(more, base, batch)
  {
    var deleted := DeletedIds(batch.homework);
    forall i | 0 <= i < |batch.weeks| ensures WriteSound(more, base, batch.weeks[i], deleted) {
      var write := batch.weeks[i];
      assert WriteSound(seen, base, write, deleted);
      if write.week != base.week {
        var row: Row :| row.rev == write.rev && Read(seen, write.week, row);
        assert Read(more, write.week, row);
      }
    }
  }

  lemma WorkReadMore(seen: set<Seen>, more: set<Seen>, work: WeekWork)
    requires seen <= more && WorkSound(seen, work)
    ensures WorkSound(more, work)
  {
    if work.pending.Some? {
      BatchReadMore(seen, more, BaseOf(work), work.pending.value);
    }
    forall i | 0 <= i < |work.undo| ensures StepSound(more, work.undo[i]) {
      StepReadMore(seen, more, work.undo[i]);
    }
    forall i | 0 <= i < |work.redo| ensures StepSound(more, work.redo[i]) {
      StepReadMore(seen, more, work.redo[i]);
    }
    if work.step.Some? {
      StepReadMore(seen, more, work.step.value);
    }
  }

  // ----- Saving keeps what a window has read -----

  lemma UnsavedReadAt(seen: set<Seen>, week: string)
    ensures ReadAt(seen, week, 0)
  {
    assert Read(seen, week, UNSAVED);
  }

  lemma CapturedSound(seen: set<Seen>, s: State)
    requires WorkSound(seen, s.open)
    ensures StepForSave(s).Some? ==> StepSound(seen, StepForSave(s).value)
  {
    UnsavedReadAt(seen, s.open.week);
  }

  lemma BuiltSound(seen: set<Seen>, s: State, op: string)
    requires WindowSound(seen, s)
    ensures BatchSound(seen, BaseOf(s.open), BuildBatch(s, op))
  {
    var batch, deleted := BuildBatch(s, op), DeletedIds(BuildBatch(s, op).homework);
    var extra := Sorted(ExtraWeeks(s));
    SortedIsDistinct(ExtraWeeks(s));
    assert forall week <- extra :: week in Elements(extra);
    assert WriteSound(seen, BaseOf(s.open), batch.weeks[0], deleted);
    forall i | 0 < i < |batch.weeks|
      ensures WriteSound(seen, BaseOf(s.open), batch.weeks[i], deleted)
    {
      var week := extra[i - 1];
      assert week in extra && week in s.travelStep.value.weeks && week != s.open.week;
      assert StepSound(seen, s.travelStep.value);
      assert ReadAt(seen, week, s.travelStep.value.weeks[week].rev);
    }
  }

  lemma SaveKeeps(seen: set<Seen>, s: State, op: string, join: bool)
    requires WindowSound(seen, s)
    ensures WindowSound(seen, AfterSave(s, op, join).0)
    ensures var (after, call) := AfterSave(s, op, join);
            call.Some? ==> CallSound(seen, BaseOf(after.open), call.value)
  {
    var joining := s.(join := join);
    assert WindowSound(seen, joining);
    BuiltSound(seen, joining, op);
    CapturedSound(seen, joining);
    hide BuildBatch, StepForSave, StackSound, StepSound, BatchSound;
  }

  lemma {:induction false} DroppedSound(seen: set<Seen>, stack: seq<Step>)
    requires StackSound(seen, stack)
    ensures StackSound(seen, DropStale(stack))
  {
    assert DropStale(stack) <= stack;
  }

  /** A week whose step is on its way: the step left its stack, its side is on screen. */
  lemma TravellingKeeps(seen: set<Seen>, s: State, popped: WeekWork, travel: Travel, step: Step, op: string)
    requires WindowSound(seen, s) && WorkSound(seen, popped) && StepSound(seen, step)
    ensures var (after, call) := AfterSave(Travelling(s, popped, travel, step), op, false);
            WindowSound(seen, after) && (call.Some? ==> CallSound(seen, BaseOf(after.open), call.value))
  {
    hide AfterSave;
    assert WorkSound(seen, SideApplied(popped, step, if travel == Undoing then Earlier else Later));
    SaveKeeps(seen, Travelling(s, popped, travel, step), op, false);
  }

  lemma UndoKeeps(seen: set<Seen>, s: State, op: string)
    requires WindowSound(seen, s)
    ensures WindowSound(seen, AfterUndo(s, op).0)
    ensures AfterUndo(s, op).1.Some? ==> CallSound(seen, BaseOf(AfterUndo(s, op).0.open), AfterUndo(s, op).1.value)
  {
    hide AfterSave, SideApplied, WindowSound;
    var live := WithoutStale(s);
    StaleDroppedSound(seen, s);
    var undo := live.open.undo;
    if TravelsHere(live, undo) {
      var step, popped := undo[|undo| - 1], live.open.(undo := undo[..|undo| - 1]);
      PoppedSound(seen, live, popped, step);
      TravellingKeeps(seen, live, popped, Undoing, step, op);
    }
  }

  lemma RedoKeeps(seen: set<Seen>, s: State, op: string)
    requires WindowSound(seen, s)
    ensures WindowSound(seen, AfterRedo(s, op).0)
    ensures AfterRedo(s, op).1.Some? ==> CallSound(seen, BaseOf(AfterRedo(s, op).0.open), AfterRedo(s, op).1.value)
  {
    hide AfterSave, SideApplied, WindowSound;
    var live := WithoutStale(s);
    StaleDroppedSound(seen, s);
    var redo := live.open.redo;
    if TravelsHere(live, redo) {
      var step, popped := redo[|redo| - 1], live.open.(redo := redo[..|redo| - 1]);
      PoppedSound(seen, live, popped, step);
      TravellingKeeps(seen, live, popped, Redoing, step, op);
    }
  }

  lemma StaleDroppedSound(seen: set<Seen>, s: State)
    requires WindowSound(seen, s)
    ensures WindowSound(seen, WithoutStale(s))
  {
    DroppedSound(seen, s.open.undo);
    DroppedSound(seen, s.open.redo);
  }

  lemma PoppedSound(seen: set<Seen>, s: State, popped: WeekWork, step: Step)
    requires WindowSound(seen, s)
    requires (|s.open.undo| > 0 && step == s.open.undo[|s.open.undo| - 1]
              && popped == s.open.(undo := s.open.undo[..|s.open.undo| - 1]))
          || (|s.open.redo| > 0 && step == s.open.redo[|s.open.redo| - 1]
              && popped == s.open.(redo := s.open.redo[..|s.open.redo| - 1]))
    ensures WorkSound(seen, popped) && StepSound(seen, step)
  {
  }

  lemma MoveSound(seen: set<Seen>, s: State, to: string, dest: Row, sourceAfter: seq<Block>, destAfter: seq<Block>,
                  op: string, name: string)
    requires WindowSound(seen, s) && to != s.open.week && ReadAt(seen, to, dest.rev)
    ensures var moved := MoveCommitted(s, to, dest, sourceAfter, destAfter, op, name);
            WindowSound(seen, moved) && BatchSound(seen, BaseOf(moved.open), moved.open.pending.value)
  {
    var moved := MoveCommitted(s, to, dest, sourceAfter, destAfter, op, name);
    var batch := moved.open.pending.value;
    UnsavedReadAt(seen, s.open.week);
    UnsavedReadAt(seen, to);
    var base := BaseOf(moved.open);
    assert Read(seen, base.week, base.row);
    assert WriteSound(seen, base, batch.weeks[0], DeletedIds(batch.homework));
    assert WriteSound(seen, base, batch.weeks[1], DeletedIds(batch.homework));
  }

  lemma ActKeeps(seen: set<Seen>, s: State, action: Action)
    requires WindowSound(seen, s)
    ensures WindowSound(seen, Act(s, action).0)
    ensures Act(s, action).1.Some? ==> CallSound(seen, BaseOf(Act(s, action).0.open), Act(s, action).1.value)
  {
    hide AfterSave, AfterUndo, AfterRedo, MoveCommitted, StackSound, StepSound, BatchSound;
    match action
    case Save(op, join) => SaveKeeps(seen, s, op, join);
    case Retry(op) => SaveKeeps(seen, s, op, false);
    case Undo(op) => UndoKeeps(seen, s, op);
    case Redo(op) => RedoKeeps(seen, s, op);
    case Move(to, sourceAfter, destAfter, op, name) =>
      if to in s.drafts && to != s.open.week {
        var draft := s.drafts[to];
        assert Read(seen, to, Row(draft.committed, draft.rev));
        MoveSound(seen, s, to, Row(draft.blocks, draft.rev), sourceAfter, destAfter, op, name);
      }
    case _ =>
  }

  // ----- Replies keep what a window has read -----

  /** Every row the reply stored was shown to the window. */
  predicate ReplyShown(seen: set<Seen>, weeks: seq<WeekWrite>) {
    forall write <- weeks :: Seen(write.week, Row(write.blocks, write.rev)) in seen
  }

  lemma StoredSound(seen: set<Seen>, step: Step, weeks: seq<WeekWrite>, homework: Homework)
    requires StepSound(seen, step) && ReplyShown(seen, weeks)
    ensures StepSound(seen, KeepRevisions(step, weeks)) && StepSound(seen, AsStored(step, weeks, homework))
  {
    forall week <- step.weeks
      ensures ReadAt(seen, week, KeepRevisions(step, weeks).weeks[week].rev)
      ensures ReadAt(seen, week, AsStored(step, weeks, homework).weeks[week].rev)
    {
      var stored := FindWeek(weeks, week);
      if stored.Some? {
        assert Read(seen, week, Row(stored.value.blocks, stored.value.rev));
      }
    }
  }

  lemma JoinedSound(seen: set<Seen>, stack: seq<Step>, step: Step)
    requires StackSound(seen, stack) && StepSound(seen, step)
    ensures StackSound(seen, JoinStep(stack, step)) && StackSound(seen, PushStep(stack, step))
  {
    if stack != [] {
      assert StepSound(seen, stack[|stack| - 1]);
      assert StepSound(seen, JoinedStep(stack[|stack| - 1], step));
    }
  }

  lemma {:induction false} ResultsKeepRest(work: WeekWork, results: seq<HwResult>)
    ensures var after := WithResults(work, results);
            after == work.(dirtyHw := after.dirtyHw, homework := after.homework)
  {
    if results != [] {
      ResultsKeepRest(work, results[..|results| - 1]);
    }
  }

  /** What is on the stacks after a save landed. */
  lemma RecordedSound(seen: set<Seen>, travel: Travel, travelStep: Option<Step>, join: bool, work: WeekWork,
                      reply: Reply)
    requires ReplyShown(seen, reply.weeks)
    requires StackSound(seen, work.undo) && StackSound(seen, work.redo)
    requires work.step.Some? ==> StepSound(seen, work.step.value)
    requires travelStep.Some? ==> StepSound(seen, travelStep.value)
    ensures var after := Recorded(travel, travelStep, join, work, reply);
            && StackSound(seen, after.undo) && StackSound(seen, after.redo)
            && after == work.(undo := after.undo, redo := after.redo)
  {
    hide PushStep, JoinStep, KeepRevisions, AsStored;
    if travelStep.Some? {
      StoredSound(seen, travelStep.value, reply.weeks, map[]);
      JoinedSound(seen, work.redo, KeepRevisions(travelStep.value, reply.weeks));
      JoinedSound(seen, work.undo, KeepRevisions(travelStep.value, reply.weeks));
    }
    if work.step.Some? {
      StoredSound(seen, work.step.value, reply.weeks, work.homework);
      JoinedSound(seen, work.undo, AsStored(work.step.value, reply.weeks, work.homework));
    }
  }

  lemma SaveOkKeeps(seen: set<Seen>, s: State, call: Call, reply: Reply)
    requires WindowSound(seen, s) && call.PostSave? && ReplyShown(seen, reply.weeks)
    ensures WindowSound(seen, AfterSaveOk(s, call, reply))
  {
    hide Recorded, WithResults, StackSound, StepSound, BatchSound;
    if call.ticket == s.ticket {
      var current := WithCurrent(s.open, reply);
      var stored := WithResults(current, reply.homework);
      ResultsKeepRest(current, reply.homework);
      RecordedSound(seen, s.travel, s.travelStep, s.join, stored, reply);
      var after := AfterSaveOk(s, call, reply);
      assert Read(seen, after.open.week, Row(after.open.committed, after.open.rev));
    }
  }

  lemma PutBackSound(seen: set<Seen>, s: State, work: WeekWork)
    requires WorkSound(seen, work)
    requires s.travelStep.Some? ==> StepSound(seen, s.travelStep.value)
    ensures WorkSound(seen, PutBack(s.travel, s.travelStep, work))
    ensures PutBack(s.travel, s.travelStep, work).week == work.week
  {
    hide StepSound, BatchSound;
  }

  lemma SaveErrKeeps(seen: set<Seen>, s: State, call: Call, why: Refusal)
    requires WindowSound(seen, s) && call.PostSave?
    ensures WindowSound(seen, AfterSaveErr(s, call, why).0)
    ensures var (after, next) := AfterSaveErr(s, call, why);
            next.Some? ==> CallSound(seen, BaseOf(after.open), next.value)
  {
    hide PutBack, StackSound, StepSound, BatchSound;
    if call.ticket == s.ticket {
      var kept := if s.travel != Still && s.travelStep.Some? && why != Conflict then AsCommitted(s.open) else s.open;
      PutBackSound(seen, s, kept);
    }
  }

  lemma AgedSound(seen: set<Seen>, work: WeekWork, call: Call)
    requires StackSound(seen, work.undo) && StackSound(seen, work.redo) && call.GetHomework?
    ensures StackSound(seen, Aged(work, call).undo) && StackSound(seen, Aged(work, call).redo)
  {
  }

  lemma LoadedSound(seen: set<Seen>, s: State, call: Call, homework: Homework)
    requires WindowSound(seen, s) && call.GetHomework? && Read(seen, call.week, call.row)
    requires call.ticket == s.ticket ==> call.previous == s.open.week
    ensures WindowSound(seen, AfterHomeworkReply(s, call, homework))
  {
    hide Aged, StackSound, StepSound, BatchSound;
    AgedSound(seen, s.open, call);
    assert WorkSound(seen, LoadedWork(s.open, call, homework));
  }

  lemma TakeKeeps(seen: set<Seen>, s: State, base: Seen, call: Call, answer: Answer, plan: Action)
    requires WindowSound(seen, s) && CallSound(seen, base, call) && Shown(call, answer) <= seen
    requires call.ticket == s.ticket ==> LoadsFrom(call, s.open.week)
    ensures WindowSound(seen, Take(s, call, answer, plan).0)
    ensures var (after, next) := Take(s, call, answer, plan);
            next.Some? ==> CallSound(seen, BaseOf(after.open), next.value)
  {
    if call.GetWeek? && answer.WeekIs? {
      assert Read(seen, call.week, answer.row);
    } else if call.GetHomework? && answer.HomeworkIs? {
      LoadedSound(seen, s, call, answer.homework);
    } else if call.GetDestination? && answer.WeekIs? && plan.Move? {
      assert Read(seen, call.week, answer.row);
      if call.week != s.open.week {
        MoveSound(seen, s, call.week, answer.row, plan.sourceAfter, plan.destAfter, plan.op, plan.name);
      }
    } else if call.PostSave? && answer.Saved? {
      forall write <- answer.reply.weeks ensures Seen(write.week, Row(write.blocks, write.rev)) in seen {
        assert Seen(write.week, Row(write.blocks, write.rev)) in Shown(call, answer);
      }
      SaveOkKeeps(seen, s, call, answer.reply);
    } else if call.PostSave? && answer.TurnedDown? {
      SaveErrKeeps(seen, s, call, answer.why);
    }
  }
}
