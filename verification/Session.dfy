/** The desktop window's session: one open week, the weeks parked with unsaved changes, one request
    ticket, and the saves, undos and loads that go through it. */
module Session {
  import opened Basics
  import opened Names
  import opened Store
  import opened Prediction
  import opened History

  /** Everything that belongs to one week while it is open, and is set aside whole when it is parked. */
  datatype WeekWork = WeekWork(
    week: string,
    blocks: seq<Block>,
    rev: nat,
    homework: Homework,
    dirtyHw: set<string>,
    dirty: bool,
    conflict: bool,
    pending: Option<Batch>,
    undo: seq<Step>,
    redo: seq<Step>,
    committed: seq<Block>,
    committedHw: Homework,
    step: Option<Step>,
    name: string)

  datatype Travel = Still | Undoing | Redoing

  datatype State = State(
    open: WeekWork,
    drafts: map<string, WeekWork>,
    travel: Travel,
    travelStep: Option<Step>,
    join: bool,
    busy: bool,
    ticket: nat)

  /** A request with the ticket it was made under and what its reply's handler remembers. */
  datatype Call =
    | GetWeek(ticket: nat, previous: string, week: string)
    | GetHomework(ticket: nat, previous: string, week: string, row: Row)
    | GetDestination(ticket: nat, week: string)
    | PostSave(ticket: nat, batch: Batch)

  /** The work has something the server does not have yet. */
  predicate Held(work: WeekWork) {
    work.dirty || work.dirtyHw != {} || work.pending.Some?
  }

  function FreshWork(week: string): WeekWork {
    WeekWork(week, [], 0, map[], {}, false, false, None, [], [], [], map[], None, "editing the week")
  }

  function FreshSession(week: string): State {
    State(FreshWork(week), map[], Still, None, false, false, 0)
  }

  function Begin(s: State): State {
    s.(ticket := s.ticket + 1, busy := true)
  }

  // ----- Loading and switching weeks -----

  function AfterLoad(s: State, start: string, discard: bool): (State, Option<Call>) {
    var away := if discard then s.(drafts := s.drafts - {start}) else s;
    if s.busy then (s, None)
    else if !discard && start == s.open.week && Held(s.open) then (s, None)
    else if !discard && start in s.drafts && Held(s.drafts[start]) then
      if start == s.open.week then (s, None)
      else
        var parked := if Held(s.open) then s.drafts[s.open.week := s.open] else s.drafts;
        (s.(open := s.drafts[start], drafts := parked - {start}), None)
    else (Begin(away), Some(GetWeek(s.ticket + 1, s.open.week, start)))
  }

  function AfterWeekReply(s: State, call: Call, row: Row): (State, Option<Call>)
    requires call.GetWeek?
  {
    if call.ticket != s.ticket then (s, None)
    else (s, Some(GetHomework(call.ticket, call.previous, call.week, row)))
  }

  /** Another week starts without history; the same week at another revision keeps it as stale. */
  function Aged(work: WeekWork, call: Call): WeekWork
    requires call.GetHomework?
  {
    if call.week != call.previous then work.(undo := [], redo := [])
    else if work.rev != call.row.rev then
      work.(undo := MarkStale(work.undo, call.week), redo := MarkStale(work.redo, call.week))
    else work
  }

  /** The week and homework a load brought, over whatever was open. */
  function LoadedWork(work: WeekWork, call: Call, homework: Homework): WeekWork
    requires call.GetHomework?
  {
    Aged(work, call).(week := call.week, blocks := call.row.blocks, rev := call.row.rev, homework := homework,
                      dirtyHw := {}, dirty := false, conflict := false, pending := None,
                      committed := call.row.blocks, committedHw := homework, step := None)
  }

  function AfterHomeworkReply(s: State, call: Call, homework: Homework): State
    requires call.GetHomework?
  {
    if call.ticket != s.ticket then s
    else
      var parked := if call.week != call.previous && Held(s.open) then s.drafts[call.previous := s.open] else s.drafts;
      s.(busy := false, open := LoadedWork(s.open, call, homework), drafts := parked - {call.week})
  }

  function AfterFailure(s: State, ticket: nat): State {
    if ticket == s.ticket then s.(busy := false) else s
  }

  /** More > Reload this week: what was not saved is let go on purpose. */
  function AfterReload(s: State): (State, Option<Call>) {
    AfterLoad(s.(open := s.open.(pending := None, dirty := false, conflict := false, dirtyHw := {})),
              s.open.week, true)
  }

  // ----- Editing -----

  /** A local edit: the week's blocks, and the homework of `ids`. */
  function Edited(work: WeekWork, blocks: seq<Block>, homework: Homework, ids: set<string>, name: string): WeekWork {
    work.(blocks := blocks, homework := homework, dirtyHw := work.dirtyHw + ids, dirty := true,
          conflict := false, pending := None, name := name)
  }

  /** Homework that is edited or added; only a travel or its own delete button takes homework away. */
  function Changed(homework: Homework, changes: map<string, string>): Homework {
    map id | id in homework.Keys + changes.Keys ::
      if id in changes then HwRow(changes[id], if id in homework then homework[id].rev else 0)
      else homework[id]
  }

  function AfterEdit(s: State, blocks: seq<Block>, homework: Homework, ids: set<string>, name: string): State {
    s.(open := Edited(s.open, blocks, homework, ids, name))
  }

  // ----- Saving -----

  function HwWriteFor(work: WeekWork, id: string): HwWrite {
    var rev := if id in work.homework then work.homework[id].rev
               else if id in work.committedHw then work.committedHw[id].rev else 0;
    HwWrite(id, BodyOf(work.homework, id), rev)
  }

  function HwWrites(work: WeekWork, ids: seq<string>): seq<HwWrite> {
    seq(|ids|, i requires 0 <= i < |ids| => HwWriteFor(work, ids[i]))
  }

  function SideOf(change: WeekChange, travel: Travel): seq<Block> {
    if travel == Undoing then change.before else change.after
  }

  function ExtraWeeks(s: State): set<string> {
    if s.travelStep.Some? then s.travelStep.value.weeks.Keys - {s.open.week} else {}
  }

  /** The writes an undo or redo sends for a step's other weeks, each with the revision the step keeps. */
  function ExtraWrites(step: Step, travel: Travel, weeks: seq<string>): seq<WeekWrite>
    requires forall week <- weeks :: week in step.weeks
  {
    seq(|weeks|, i requires 0 <= i < |weeks| =>
      WeekWrite(weeks[i], SideOf(step.weeks[weeks[i]], travel), step.weeks[weeks[i]].rev))
  }

  function BuildBatch(s: State, op: string): Batch {
    var work := s.open;
    var writes := HwWrites(work, Sorted(work.dirtyHw));
    var extra := Sorted(ExtraWeeks(s));
    if extra != [] then
      assert forall week <- extra :: week in Elements(extra);
      Batch([WeekWrite(work.week, work.blocks, work.rev)] + ExtraWrites(s.travelStep.value, s.travel, extra),
            writes, op, None)
    else
      Batch([WeekWrite(work.week, work.blocks, RevisionAfterDeletes(work.committed, work.rev, DeletedIds(writes)))],
            writes, op, None)
  }

  function StepForSave(s: State): Option<Step> {
    if Sorted(ExtraWeeks(s)) != [] || s.travel != Still then s.open.step
    else CaptureStep(s.open.name, s.open.week, s.open.committed, s.open.blocks, s.open.committedHw, s.open.homework,
                     s.open.dirtyHw)
  }

  function AfterPost(s: State): (State, Option<Call>) {
    if s.open.pending.None? then (s, None)
    else (Begin(s), Some(PostSave(s.ticket + 1, s.open.pending.value)))
  }

  /** A save, or a kept pending save sent again as it was. `op` is the random id a new save takes. */
  function AfterSave(s: State, op: string, join: bool): (State, Option<Call>) {
    if s.open.conflict || s.busy then (s, None)
    else if s.open.pending.Some? then AfterPost(s.(join := join))
    else
      AfterPost(s.(join := join, open := s.open.(pending := Some(BuildBatch(s, op)), step := StepForSave(s))))
  }

  function FindWeek(weeks: seq<WeekWrite>, week: string): (found: Option<WeekWrite>)
    ensures found.Some? ==> found.value in weeks && found.value.week == week
    ensures found.None? ==> forall w <- weeks :: w.week != week
  {
    if weeks == [] then None
    else if weeks[0].week == week then Some(weeks[0])
    else FindWeek(weeks[1..], week)
  }

  /** The reply's homework results, each put in its place. */
  function WithResults(work: WeekWork, results: seq<HwResult>): WeekWork {
    if results == [] then work
    else
      var front := WithResults(work, results[..|results| - 1]);
      match results[|results| - 1]
      case HwSaved(id, body, rev) =>
        front.(dirtyHw := front.dirtyHw - {id}, homework := front.homework[id := HwRow(body, rev)])
      case HwGone(id, _, _) => front.(dirtyHw := front.dirtyHw - {id}, homework := front.homework - {id})
  }

  /** A step's weeks take the revisions the reply stored them at. */
  function KeepRevisions(step: Step, weeks: seq<WeekWrite>): Step {
    step.(weeks := map week | week in step.weeks ::
            match FindWeek(weeks, week)
            case Some(stored) => step.weeks[week].(rev := stored.rev)
            case None => step.weeks[week])
  }

  /** A recorded step takes, as its after, what the server stored. */
  function AsStored(step: Step, weeks: seq<WeekWrite>, homework: Homework): Step {
    step.(weeks := map week | week in step.weeks ::
            match FindWeek(weeks, week)
            case Some(stored) => step.weeks[week].(after := stored.blocks, rev := stored.rev)
            case None => step.weeks[week],
          homework := map id | id in step.homework ::
            step.homework[id].(after := BodyOf(homework, id)))
  }

  function WithCurrent(work: WeekWork, reply: Reply): WeekWork {
    match FindWeek(reply.weeks, work.week)
    case Some(stored) => work.(blocks := stored.blocks, rev := stored.rev, dirty := false, conflict := false)
    case None => work
  }

  /** Where the landed save goes in the history. */
  function Recorded(travel: Travel, travelStep: Option<Step>, join: bool, work: WeekWork, reply: Reply): WeekWork {
    if travel == Undoing && travelStep.Some? then
      work.(redo := PushStep(work.redo, KeepRevisions(travelStep.value, reply.weeks)))
    else if travel == Redoing && travelStep.Some? then
      work.(undo := PushStep(work.undo, KeepRevisions(travelStep.value, reply.weeks)))
    else if work.step.Some? then
      var step := AsStored(work.step.value, reply.weeks, work.homework);
      work.(undo := if join then JoinStep(work.undo, step) else PushStep(work.undo, step), redo := [])
    else work
  }

  function Settled(work: WeekWork, written: bool): WeekWork {
    var settled := work.(step := None, pending := None);
    if written then settled.(committed := work.blocks, committedHw := work.homework) else settled
  }

  function Written(batch: Batch): set<string> {
    set write | write in batch.weeks :: write.week
  }

  /** The open week once its save's reply is in place. */
  function LandedWork(travel: Travel, travelStep: Option<Step>, join: bool, work: WeekWork, reply: Reply): WeekWork {
    Settled(Recorded(travel, travelStep, join, WithResults(WithCurrent(work, reply), reply.homework), reply),
            FindWeek(reply.weeks, work.week).Some?)
  }

  function AfterSaveOk(s: State, call: Call, reply: Reply): State
    requires call.PostSave?
  {
    if call.ticket != s.ticket then s
    else
      s.(busy := false, open := LandedWork(s.travel, s.travelStep, s.join, s.open, reply),
         travel := Still, travelStep := None, join := false,
         drafts := s.drafts - (Written(call.batch) - {s.open.week}))
  }

  /** A travel that did not land goes back on the stack it came from. */
  function PutBack(travel: Travel, travelStep: Option<Step>, work: WeekWork): WeekWork {
    if travel == Undoing && travelStep.Some? then work.(undo := work.undo + [travelStep.value])
    else if travel == Redoing && travelStep.Some? then work.(redo := work.redo + [travelStep.value])
    else work
  }

  function AsCommitted(work: WeekWork): WeekWork {
    work.(blocks := work.committed, homework := work.committedHw, dirtyHw := {}, dirty := false,
          pending := None, conflict := false)
  }

  /** The open week once its save was turned down. */
  function TurnedDownWork(travel: Travel, travelStep: Option<Step>, work: WeekWork, why: Refusal): WeekWork {
    var kept := if travel != Still && travelStep.Some? && why != Conflict then AsCommitted(work) else work;
    PutBack(travel, travelStep, kept).(conflict := why == Conflict)
  }

  function AfterSaveErr(s: State, call: Call, why: Refusal): (State, Option<Call>)
    requires call.PostSave?
  {
    if call.ticket != s.ticket then (s, None)
    else
      var moving := s.travel != Still && s.travelStep.Some?;
      var settled := s.(busy := false, join := false,
                        open := TurnedDownWork(s.travel, s.travelStep, s.open, why),
                        travel := if moving then Still else s.travel,
                        travelStep := if moving then None else s.travelStep);
      if s.travel != Still && why == Conflict then AfterReload(settled) else (settled, None)
  }

  // ----- Undo and redo -----

  predicate CanTravel(s: State, stack: seq<Step>) {
    stack != [] && !s.busy && !s.open.conflict && !s.open.dirty && s.open.pending.None?
  }

  function SideBody(change: HwChange, side: Side): Option<string> {
    if side == Earlier then change.before else change.after
  }

  /** Homework with a step's side put in; revisions stay the live ones. */
  function WithSide(homework: Homework, changes: map<string, HwChange>, side: Side): Homework {
    map id | id in homework.Keys + changes.Keys
             && (id in changes ==> SideBody(changes[id], side).Some?) ::
      if id in changes then
        HwRow(SideBody(changes[id], side).value, if id in homework then homework[id].rev else 0)
      else homework[id]
  }

  function SideApplied(work: WeekWork, step: Step, side: Side): WeekWork {
    var blocks := if work.week !in step.weeks then work.blocks
                  else if side == Earlier then step.weeks[work.week].before else step.weeks[work.week].after;
    Edited(work, blocks, WithSide(work.homework, step.homework, side), step.homework.Keys, step.name)
  }

  function WithoutStale(s: State): State {
    s.(open := s.open.(undo := DropStale(s.open.undo), redo := DropStale(s.open.redo)))
  }

  /** Whether the newest step of `stack` can be travelled in the open week. */
  predicate TravelsHere(s: State, stack: seq<Step>) {
    && CanTravel(s, stack)
    && (stack[|stack| - 1].weeks == map[] || s.open.week in stack[|stack| - 1].weeks)
  }

  function Travelling(s: State, work: WeekWork, travel: Travel, step: Step): State {
    s.(travel := travel, travelStep := Some(step),
       open := SideApplied(work, step, if travel == Undoing then Earlier else Later))
  }

  function AfterUndo(s: State, op: string): (State, Option<Call>) {
    var live := WithoutStale(s);
    var undo := live.open.undo;
    if !TravelsHere(live, undo) then (live, None)
    else
      AfterSave(Travelling(live, live.open.(undo := undo[..|undo| - 1]), Undoing, undo[|undo| - 1]), op, false)
  }

  function AfterRedo(s: State, op: string): (State, Option<Call>) {
    var live := WithoutStale(s);
    var redo := live.open.redo;
    if !TravelsHere(live, redo) then (live, None)
    else
      AfterSave(Travelling(live, live.open.(redo := redo[..|redo| - 1]), Redoing, redo[|redo| - 1]), op, false)
  }

  function AfterRetry(s: State, op: string): (State, Option<Call>) {
    if s.open.pending.Some? && !s.open.conflict then AfterSave(s, op, false) else (s, None)
  }

  // ----- Moving a block to another week -----

  /** Both weeks in one save. The open week does not change until the server accepts it. */
  function MoveCommitted(s: State, to: string, dest: Row, sourceAfter: seq<Block>, destAfter: seq<Block>, op: string,
                         name: string): State
  {
    var work := s.open;
    var batch := Batch([WeekWrite(work.week, sourceAfter, work.rev), WeekWrite(to, destAfter, dest.rev)], [], op, None);
    var step := Step(name, map[work.week := WeekChange(work.blocks, sourceAfter, 0),
                               to := WeekChange(dest.blocks, destAfter, 0)], map[], false);
    s.(open := work.(pending := Some(batch), step := Some(step), name := name))
  }

  /** Another week is taken from its parked draft when that has edits, or fetched first. */
  function AfterMove(s: State, to: string, sourceAfter: seq<Block>, destAfter: seq<Block>, op: string, name: string):
    (State, Option<Call>)
  {
    if s.open.conflict || s.busy || s.open.pending.Some? || to == s.open.week then (s, None)
    else if to in s.drafts && s.drafts[to].dirty then
      AfterPost(MoveCommitted(s, to, Row(s.drafts[to].blocks, s.drafts[to].rev), sourceAfter, destAfter, op, name))
    else (Begin(s), Some(GetDestination(s.ticket + 1, to)))
  }

  function AfterDestination(s: State, call: Call, dest: Row, sourceAfter: seq<Block>, destAfter: seq<Block>, op: string,
                            name: string): (State, Option<Call>)
    requires call.GetDestination?
  {
    if call.ticket != s.ticket || call.week == s.open.week then (s, None)
    else
      var moved := MoveCommitted(s, call.week, dest, sourceAfter, destAfter, op, name);
      (moved, Some(PostSave(call.ticket, moved.open.pending.value)))
  }
}
