/** Switching weeks: what is unsaved is either open or parked whole, and going back finds it as it was. */
module Parking {
  import opened Basics
  import opened Store
  import opened History
  import opened Session
  import opened Protocol

  /** A window and the one request it still waits for. */
  datatype Window = Window(s: State, call: Option<Call>)

  datatype Input = Do(action: Action) | Arrives(answer: Answer, plan: Action)

  function Step(w: Window, input: Input): Window {
    match input
    case Do(action) =>
      var (s, call) := Act(w.s, action);
      Window(s, if call.Some? then call else w.call)
    case Arrives(answer, plan) =>
      if w.call.None? then w
      else
        var (s, call) := Take(w.s, w.call.value, answer, plan);
        Window(s, call)
  }

  function Steps(w: Window, inputs: seq<Input>): Window
    decreases inputs
  {
    if inputs == [] then w else Steps(Step(w, inputs[0]), inputs[1..])
  }

  predicate IsLoad(call: Call) {
    call.GetWeek? || call.GetHomework?
  }

  /** What a window keeps between inputs. The open week is never also parked, every parked week is unsaved
      and under its own name, and a window waits for exactly one answer while it is busy. */
  predicate Tidy(w: Window) {
    && w.s.open.week !in w.s.drafts
    && (forall week <- w.s.drafts :: w.s.drafts[week].week == week && Held(w.s.drafts[week]))
    && (w.call.Some? <==> w.s.busy)
    && (w.call.Some? ==> w.call.value.ticket == w.s.ticket)
    && (w.call.Some? && IsLoad(w.call.value) ==>
          w.call.value.previous == w.s.open.week && w.call.value.week !in w.s.drafts)
    && (w.call.Some? && w.call.value.GetDestination? ==> w.call.value.week != w.s.open.week)
  }

  /** Every week with something unsaved, open or parked, and its whole work. */
  function Unsaved(s: State): map<string, WeekWork> {
    if Held(s.open) then s.drafts[s.open.week := s.open] else s.drafts
  }

  // ----- Every input keeps a window tidy -----

  lemma ResultsKeepWeek(work: WeekWork, results: seq<HwResult>)
    ensures WithResults(work, results).week == work.week
  {
    ResultsKeepRest(work, results);
  }

  lemma LandedKeepsWeek(s: State, reply: Store.Reply)
    ensures LandedWork(s.travel, s.travelStep, s.join, s.open, reply).week == s.open.week
  {
    hide WithResults, Recorded;
    var current := WithCurrent(s.open, reply);
    ResultsKeepWeek(current, reply.homework);
    RecordedKeepsWeek(s.travel, s.travelStep, s.join, WithResults(current, reply.homework), reply);
  }

  lemma RecordedKeepsWeek(travel: Travel, travelStep: Option<History.Step>, join: bool, work: WeekWork,
                          reply: Store.Reply)
    ensures Recorded(travel, travelStep, join, work, reply).week == work.week
  {
    hide PushStep, JoinStep, KeepRevisions, AsStored;
  }

  lemma SaveStaysTidy(w: Window, s: State, op: string, join: bool)
    requires Tidy(w) && s.open.week == w.s.open.week
    requires s.drafts == w.s.drafts && s.busy == w.s.busy && s.ticket == w.s.ticket
    ensures var (after, call) := AfterSave(s, op, join);
            Tidy(Window(after, if call.Some? then call else w.call))
  {
    hide BuildBatch, StepForSave, Held;
  }

  lemma TravelStaysTidy(w: Window, op: string, undo: bool)
    requires Tidy(w)
    ensures Tidy(Step(w, Do(if undo then Undo(op) else Redo(op))))
  {
    hide AfterSave, DropStale, WithSide, Held;
    var live := WithoutStale(w.s);
    var stack := if undo then live.open.undo else live.open.redo;
    if TravelsHere(live, stack) {
      var step, rest := stack[|stack| - 1], stack[..|stack| - 1];
      var popped := if undo then live.open.(undo := rest) else live.open.(redo := rest);
      SaveStaysTidy(w, Travelling(live, popped, if undo then Undoing else Redoing, step), op, false);
    }
  }

  lemma LoadStaysTidy(w: Window, s: State, start: string, discard: bool)
    requires Tidy(w) && s == w.s.(open := s.open) && s.open.week == w.s.open.week
    ensures var (after, call) := AfterLoad(s, start, discard);
            Tidy(Window(after, if call.Some? then call else w.call))
  {
    hide Held;
  }

  lemma MoveStaysTidy(w: Window, action: Action)
    requires Tidy(w) && action.Move?
    ensures Tidy(Step(w, Do(action)))
  {
    hide Held;
  }

  lemma ActStaysTidy(w: Window, action: Action)
    requires Tidy(w)
    ensures Tidy(Step(w, Do(action)))
  {
    hide AfterSave, AfterUndo, AfterRedo, AfterLoad, AfterMove, Held;
    match action
    case Edit(_, _, _) =>
    case Load(start, discard) => LoadStaysTidy(w, w.s, start, discard);
    case Reload =>
      LoadStaysTidy(w, w.s.(open := w.s.open.(pending := None, dirty := false, conflict := false, dirtyHw := {})),
                    w.s.open.week, true);
    case Save(op, join) => SaveStaysTidy(w, w.s, op, join);
    case Retry(op) => SaveStaysTidy(w, w.s, op, false);
    case Undo(op) => TravelStaysTidy(w, op, true);
    case Redo(op) => TravelStaysTidy(w, op, false);
    case Move(_, _, _, _, _) => MoveStaysTidy(w, action);
  }

  lemma TakeStaysTidy(w: Window, answer: Answer, plan: Action)
    requires Tidy(w)
    ensures Tidy(Step(w, Arrives(answer, plan)))
  {
    hide AfterSaveOk, AfterSaveErr, AfterHomeworkReply, AfterDestination, Held;
    if w.call.Some? {
      match w.call.value
      case PostSave(_, _) => SaveAnswerStaysTidy(w, answer);
      case GetHomework(_, _, _, _) => HomeworkStaysTidy(w, answer);
      case GetDestination(_, _) => DestinationStaysTidy(w, answer, plan);
      case GetWeek(_, _, _) =>
    }
  }

  lemma SaveAnswerStaysTidy(w: Window, answer: Answer)
    requires Tidy(w) && w.call.Some? && w.call.value.PostSave?
    ensures answer.Saved? ==> Tidy(Window(AfterSaveOk(w.s, w.call.value, answer.reply), None))
    ensures answer.TurnedDown? ==>
              var (after, call) := AfterSaveErr(w.s, w.call.value, answer.why);
              Tidy(Window(after, call))
  {
    hide LandedWork, TurnedDownWork, Held;
    if answer.Saved? {
      LandedKeepsWeek(w.s, answer.reply);
    } else if answer.TurnedDown? {
      TurnedDownKeepsWeek(w.s, answer.why);
    }
  }

  lemma HomeworkStaysTidy(w: Window, answer: Answer)
    requires Tidy(w) && w.call.Some? && w.call.value.GetHomework?
    ensures answer.HomeworkIs? ==> Tidy(Window(AfterHomeworkReply(w.s, w.call.value, answer.homework), None))
  {
    hide Aged, Held;
  }

  lemma DestinationStaysTidy(w: Window, answer: Answer, plan: Action)
    requires Tidy(w) && w.call.Some? && w.call.value.GetDestination?
    ensures answer.WeekIs? && plan.Move? ==>
              var (after, call) := AfterDestination(w.s, w.call.value, answer.row, plan.sourceAfter, plan.destAfter,
                                                    plan.op, plan.name);
              Tidy(Window(after, call))
  {
    hide Held;
  }

  lemma TurnedDownKeepsWeek(s: State, why: Refusal)
    ensures TurnedDownWork(s.travel, s.travelStep, s.open, why).week == s.open.week
  {
  }

  lemma {:induction false} WindowsStayTidy(w: Window, inputs: seq<Input>)
    requires Tidy(w)
    ensures Tidy(Steps(w, inputs))
    decreases inputs
  {
    hide Step, Tidy;
    if inputs != [] {
      match inputs[0] {
        case Do(action) => ActStaysTidy(w, action);
        case Arrives(answer, plan) => TakeStaysTidy(w, answer, plan);
      }
      WindowsStayTidy(Step(w, inputs[0]), inputs[1..]);
    }
  }

  lemma NewWindowIsTidy(week: string)
    ensures Tidy(Window(FreshSession(week), None)) && Unsaved(FreshSession(week)) == map[]
  {
  }

  // ----- Switching loses nothing -----

  /** Opening a week without discarding, or an answer to such a load. */
  predicate Switches(w: Window, input: Input) {
    match input
    case Do(action) => action.Load? && !action.discard
    case Arrives(_, _) => w.call.Some? && IsLoad(w.call.value)
  }

  /** The week on screen was edited while it was itself being loaded again, and the load arrives. */
  predicate ReloadsOverEdits(w: Window, input: Input) {
    && input.Arrives? && input.answer.HomeworkIs?
    && w.call.Some? && w.call.value.GetHomework? && w.call.value.week == w.s.open.week
    && Held(w.s.open)
  }

  /** A switch keeps every unsaved week whole, with its blocks, revision, homework, pending save and both
      stacks, unless it reloads a week over edits made meanwhile; then it loses exactly that week. */
  lemma SwitchKeepsUnsaved(w: Window, input: Input)
    requires Tidy(w) && Switches(w, input)
    ensures Unsaved(Step(w, input).s)
         == if ReloadsOverEdits(w, input) then Unsaved(w.s) - {w.s.open.week} else Unsaved(w.s)
  {
    hide AfterLoad, AfterHomeworkReply, Held;
    if input.Do? {
      LoadKeepsUnsaved(w, input.action.start);
    } else if input.answer.HomeworkIs? && w.call.value.GetHomework? {
      LoadedKeepsUnsaved(w, input.answer.homework);
    }
  }

  /** Such a run: the week on screen is being loaded again, in the background, when a note is added to it. The
      load arrives and the note is gone. */
  lemma ANoteReloadedAway(week: string)
    ensures var inputs := [Do(Load(week, false)), Arrives(WeekIs(UNSAVED), Action.Reload),
                           Do(Edit([Block("note", None, "Call Ada")], map[], "adding a note"))];
            var edited := Steps(Window(FreshSession(week), None), inputs);
            var late := Arrives(HomeworkIs(map[]), Action.Reload);
            && week in Unsaved(edited.s) && Unsaved(edited.s)[week].blocks == [Block("note", None, "Call Ada")]
            && Switches(edited, late) && Unsaved(Step(edited, late).s) == map[]
  {
    var w := Window(FreshSession(week), None);
    var a, b := Do(Load(week, false)), Arrives(WeekIs(UNSAVED), Action.Reload);
    var c := Do(Edit([Block("note", None, "Call Ada")], map[], "adding a note"));
    var one := Step(w, a);
    assert one.call == Some(GetWeek(1, week, week)) && one.s.ticket == 1;
    var two := Step(one, b);
    assert two.call == Some(GetHomework(1, week, week, UNSAVED)) && two.s == one.s;
    var three := Step(two, c);
    assert three.s.open.dirty && three.call == two.call && three.s.drafts == map[];
    assert Steps(w, [a, b, c]) == three by {
      hide Step;
      assert [a, b, c][1..] == [b, c] && [b, c][1..] == [c] && [c][1..] == [];
      assert Steps(two, [c]) == three;
      assert Steps(one, [b, c]) == three;
    }
    WindowsStayTidy(w, [a, b, c]);
    hide Step;
    SwitchKeepsUnsaved(three, Arrives(HomeworkIs(map[]), Action.Reload));
    assert Unsaved(three.s) - {week} == map[];
  }

  lemma LoadKeepsUnsaved(w: Window, start: string)
    requires Tidy(w)
    ensures Unsaved(AfterLoad(w.s, start, false).0) == Unsaved(w.s)
  {
    hide Held;
    var after := AfterLoad(w.s, start, false).0;
    assert Unsaved(after).Keys == Unsaved(w.s).Keys;
  }

  lemma LoadedKeepsUnsaved(w: Window, homework: Homework)
    requires Tidy(w) && w.call.Some? && w.call.value.GetHomework?
    ensures Unsaved(AfterHomeworkReply(w.s, w.call.value, homework))
         == if w.call.value.week == w.s.open.week && Held(w.s.open) then Unsaved(w.s) - {w.s.open.week}
            else Unsaved(w.s)
  {
    hide Aged, Held;
    var after := AfterHomeworkReply(w.s, w.call.value, homework);
    assert !Held(after.open) by {
      NothingHeld(w.s.open, w.call.value, homework);
    }
  }

  lemma NothingHeld(work: WeekWork, call: Call, homework: Homework)
    requires call.GetHomework?
    ensures !Held(LoadedWork(work, call, homework))
  {
    hide Aged;
  }

  lemma EditTouchesTheOpenWeek(w: Window, action: Action)
    requires Tidy(w) && action.Edit?
    ensures var after := Step(w, Do(action)).s;
            Unsaved(after) == Unsaved(w.s)[w.s.open.week :=
                                Edited(w.s.open, action.blocks, Changed(w.s.open.homework, action.changes),
                                       action.changes.Keys, action.name)]
  {
  }

  /** The weeks edited during a run. */
  function EditedIn(w: Window, inputs: seq<Input>): set<string>
    decreases inputs
  {
    if inputs == [] then {}
    else
      (if inputs[0].Do? && inputs[0].action.Edit? then {w.s.open.week} else {}) +
      EditedIn(Step(w, inputs[0]), inputs[1..])
  }

  predicate SwitchesAndEdits(w: Window, inputs: seq<Input>)
    decreases inputs
  {
    inputs == []
    || (&& (Switches(w, inputs[0]) || (inputs[0].Do? && inputs[0].action.Edit?))
        && !ReloadsOverEdits(w, inputs[0])
        && SwitchesAndEdits(Step(w, inputs[0]), inputs[1..]))
  }

  /** Any run of switches and edits ends with every unsaved week still there, each one it did not edit
      exactly as it was. */
  lemma {:induction false} SwitchingLosesNothing(w: Window, inputs: seq<Input>, week: string)
    requires Tidy(w) && SwitchesAndEdits(w, inputs)
    ensures var before, after := Unsaved(w.s), Unsaved(Steps(w, inputs).s);
            && (week in before ==> week in after)
            && (week !in EditedIn(w, inputs) ==>
                  (week in after <==> week in before) && (week in before ==> after[week] == before[week]))
    decreases inputs
  {
    hide Step, Tidy, Unsaved, ReloadsOverEdits, Held, Switches;
    if inputs != [] {
      var next := Step(w, inputs[0]);
      if Switches(w, inputs[0]) {
        SwitchKeepsUnsaved(w, inputs[0]);
      } else {
        EditTouchesTheOpenWeek(w, inputs[0].action);
      }
      assert Steps(w, [inputs[0]]) == next by {
        assert [inputs[0]][1..] == [];
        assert Steps(next, []) == next;
      }
      WindowsStayTidy(w, [inputs[0]]);
      SwitchingLosesNothing(next, inputs[1..], week);
    }
  }

  // ----- The only ways to lose a parked week -----

  predicate KeptWhole(before: State, after: State, week: string)
    requires week in before.drafts
  {
    (week in after.drafts && after.drafts[week] == before.drafts[week]) || after.open == before.drafts[week]
  }

  predicate Discards(w: Window, input: Input, week: string) {
    input.Do? && input.action == Load(week, true) && !w.s.busy
  }

  /** A save that also wrote `week`, as undoing a move does, has landed. */
  predicate WritesOver(w: Window, input: Input, week: string) {
    && input.Arrives? && input.answer.Saved?
    && w.call.Some? && w.call.value.PostSave? && week in Written(w.call.value.batch)
  }

  /** A parked week stays parked whole or is opened whole, whatever happens in the window, except when it is
      discarded on purpose or a landed save wrote that week too: that save never looks at the parked edits. */
  lemma ParkedIsLostExactlyWhen(w: Window, input: Input, week: string)
    requires Tidy(w) && week in w.s.drafts
    ensures KeptWhole(w.s, Step(w, input).s, week) <==> !Discards(w, input, week) && !WritesOver(w, input, week)
  {
    hide Step, Tidy, Held, Act;
    match input
    case Do(action) => ActKeepsParked(w, action, week);
    case Arrives(answer, plan) => AnswerKeepsParked(w, answer, plan, week);
  }

  lemma ActKeepsParked(w: Window, action: Action, week: string)
    requires Tidy(w) && week in w.s.drafts
    ensures KeptWhole(w.s, Step(w, Do(action)).s, week) <==> !Discards(w, Do(action), week)
  {
    hide AfterUndo, AfterRedo, BuildBatch, StepForSave, Held;
    if action.Undo? || action.Redo? {
      TravelKeepsDrafts(w.s, action.op, action.Undo?);
    }
  }

  lemma AnswerKeepsParked(w: Window, answer: Answer, plan: Action, week: string)
    requires Tidy(w) && week in w.s.drafts
    ensures KeptWhole(w.s, Step(w, Arrives(answer, plan)).s, week) <==> !WritesOver(w, Arrives(answer, plan), week)
  {
    hide Aged, LandedWork, TurnedDownWork, Held, LoadedWork;
    if w.call.Some? && w.call.value.PostSave? {
      if answer.Saved? {
        LandedKeepsWeek(w.s, answer.reply);
      } else if answer.TurnedDown? {
        TurnedDownKeepsWeek(w.s, answer.why);
      }
    }
  }

  lemma TravelKeepsDrafts(s: State, op: string, undo: bool)
    ensures (if undo then AfterUndo(s, op) else AfterRedo(s, op)).0.drafts == s.drafts
  {
    hide BuildBatch, StepForSave, DropStale, WithSide;
  }

  // ----- Going away and coming back -----

  /** The input does nothing to the parked `home`: no load of it and no save that writes it lands. */
  predicate LeavesAlone(w: Window, input: Input, home: string) {
    !(input.Do? && input.action.Load? && input.action.start == home) && !WritesOver(w, input, home)
  }

  predicate AllLeaveAlone(w: Window, inputs: seq<Input>, home: string)
    decreases inputs
  {
    inputs == [] || (LeavesAlone(w, inputs[0], home) && AllLeaveAlone(Step(w, inputs[0]), inputs[1..], home))
  }

  lemma {:induction false} StaysParked(w: Window, inputs: seq<Input>, home: string)
    requires Tidy(w) && home in w.s.drafts && AllLeaveAlone(w, inputs, home)
    ensures var after := Steps(w, inputs);
            Tidy(after) && home in after.s.drafts && after.s.drafts[home] == w.s.drafts[home]
    decreases inputs
  {
    hide Step;
    if inputs != [] {
      ParkedIsLostExactlyWhen(w, inputs[0], home);
      WindowsStayTidy(w, [inputs[0]]);
      assert Steps(w, [inputs[0]]) == Step(w, inputs[0]) by {
        assert [inputs[0]][1..] == [];
      }
      OnlyLoadsOpen(w, inputs[0], home);
      StaysParked(Step(w, inputs[0]), inputs[1..], home);
    }
  }

  /** A week is opened only by loading it, so one that is left alone is not opened. */
  lemma OnlyLoadsOpen(w: Window, input: Input, home: string)
    requires Tidy(w) && home in w.s.drafts && LeavesAlone(w, input, home)
    ensures Step(w, input).s.open.week != home
  {
    hide AfterUndo, AfterRedo, Aged, LandedWork, TurnedDownWork, BuildBatch, StepForSave, Held;
    match input
    case Do(action) => {
      if action.Undo? || action.Redo? {
        TravelKeepsWeek(w.s, action.op, action.Undo?);
      }
    }
    case Arrives(answer, plan) => {
      if w.call.Some? && w.call.value.PostSave? && answer.Saved? {
        LandedKeepsWeek(w.s, answer.reply);
      } else if w.call.Some? && w.call.value.PostSave? && answer.TurnedDown? {
        TurnedDownKeepsWeek(w.s, answer.why);
      }
    }
  }

  lemma TravelKeepsWeek(s: State, op: string, undo: bool)
    ensures (if undo then AfterUndo(s, op) else AfterRedo(s, op)).0.open.week == s.open.week
  {
    hide BuildBatch, StepForSave, DropStale, WithSide;
  }

  function OpenWeek(start: string, row: Row, homework: Homework): seq<Input> {
    [Do(Load(start, false)), Arrives(WeekIs(row), Reload), Arrives(HomeworkIs(homework), Reload)]
  }

  /** Leave an unsaved week for another, do anything that leaves it alone, and go back: its blocks, revision,
      homework, pending save and both stacks are as they were, and the week left behind is parked if it is
      unsaved. */
  lemma GoingBackFindsItAsItWas(w: Window, away: string, row: Row, homework: Homework, inputs: seq<Input>)
    requires Tidy(w) && !w.s.busy && Held(w.s.open) && away != w.s.open.week
    requires AllLeaveAlone(Steps(w, OpenWeek(away, row, homework)), inputs, w.s.open.week)
    requires !Steps(Steps(w, OpenWeek(away, row, homework)), inputs).s.busy
    ensures var home := w.s.open.week;
            var later := Steps(Steps(w, OpenWeek(away, row, homework)), inputs);
            var back := Step(later, Do(Load(home, false)));
            && back.s.open == w.s.open
            && home !in back.s.drafts
            && (Held(later.s.open) ==> later.s.open.week in back.s.drafts
                                       && back.s.drafts[later.s.open.week] == later.s.open)
  {
    hide Held, Aged;
    var left := Steps(w, OpenWeek(away, row, homework));
    LeavingParks(w, away, row, homework);
    StaysParked(left, inputs, w.s.open.week);
  }

  lemma LeavingParks(w: Window, away: string, row: Row, homework: Homework)
    requires Tidy(w) && !w.s.busy && Held(w.s.open) && away != w.s.open.week
    ensures var left := Steps(w, OpenWeek(away, row, homework));
            && Tidy(left)
            && w.s.open.week in left.s.drafts && left.s.drafts[w.s.open.week] == w.s.open
  {
    hide Aged;
    var inputs := OpenWeek(away, row, homework);
    WindowsStayTidy(w, inputs);
    var one := Step(w, inputs[0]);
    var two := Step(one, inputs[1]);
    var three := Step(two, inputs[2]);
    assert inputs[1..][0] == inputs[1] && inputs[1..][1..] == [inputs[2]] && [inputs[2]][1..] == [];
    assert Steps(three, []) == three;
    assert Steps(two, [inputs[2]]) == three;
    assert Steps(one, inputs[1..]) == three;
    assert Steps(w, inputs) == three;
  }

  // ----- What loading leaves alone -----

  /** Loading asks the server exactly when nothing is on its way and the student lets go of what is unsaved there,
      or there is nothing unsaved: neither in the week asked for, parked, nor, if it is the open one, on the
      screen. */
  lemma LoadAsksExactlyWhen(s: State, start: string, discard: bool)
    ensures var (after, call) := AfterLoad(s, start, discard);
            && (call.Some? <==>
                  && !s.busy
                  && (discard
                      || !((start == s.open.week && Held(s.open)) || (start in s.drafts && Held(s.drafts[start])))))
            && (call.Some? ==> call.value == GetWeek(s.ticket + 1, s.open.week, start) && after.open == s.open)
            && (s.busy || (!discard && start == s.open.week && Held(s.open)) ==> after == s)
  {
  }

  /** Homework edited while a save was under way is not saved with it. Going to another week keeps it, though the
      week itself has no edits left. */
  lemma HomeworkEditsAreParked(s: State, away: string, row: Row, homework: Homework)
    requires !s.busy && away != s.open.week && away !in s.drafts && s.open.dirtyHw != {}
    ensures var (asked, call) := AfterLoad(s, away, false);
            && call == Some(GetWeek(s.ticket + 1, s.open.week, away))
            && var after := AfterHomeworkReply(asked, GetHomework(s.ticket + 1, s.open.week, away, row), homework);
               s.open.week in after.drafts && after.drafts[s.open.week] == s.open && after.open.week == away
  {
  }
}
