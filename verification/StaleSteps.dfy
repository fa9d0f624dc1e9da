/** What a window does over newer data: a reload at another revision ends the steps of its week, none of which is
    travelled again, and a refused undo shows what the server has. */
module StaleSteps {
  import opened Basics
  import opened Store
  import opened History
  import opened Session
  import opened Protocol

  // ----- Steps with one title -----

  /** No step of the stack under this title can still be travelled. */
  predicate Ended(stack: seq<Step>, title: string) {
    forall i :: 0 <= i < |stack| && stack[i].name == title ==> stack[i].stale
  }

  /** Nor can the week come by one: what it is about to record has another title, and under this one it has
      nothing to record. */
  predicate EndedIn(work: WeekWork, title: string) {
    && Ended(work.undo, title) && Ended(work.redo, title)
    && (work.step.Some? ==> work.step.value.name != title)
    && (work.name == title ==> work.blocks == work.committed && work.dirtyHw == {})
  }

  predicate EndedHere(s: State, title: string) {
    && EndedIn(s.open, title) && (forall week <- s.drafts :: EndedIn(s.drafts[week], title))
    && (s.travelStep.Some? ==> s.travelStep.value.name != title)
  }

  /** The student does not use the title again. */
  predicate Avoids(action: Action, title: string) {
    (action.Edit? || action.Move?) ==> action.name != title
  }

  lemma {:induction false} DroppedEnded(stack: seq<Step>, title: string)
    requires Ended(stack, title)
    ensures Ended(DropStale(stack), title)
  {
    assert DropStale(stack) <= stack;
  }

  lemma PushedEnded(stack: seq<Step>, step: Step, title: string)
    requires Ended(stack, title) && step.name != title
    ensures Ended(PushStep(stack, step), title) && Ended(JoinStep(stack, step), title)
  {
  }

  lemma SaveEnded(s: State, op: string, join: bool, title: string)
    requires EndedHere(s, title)
    ensures EndedHere(AfterSave(s, op, join).0, title)
  {
    hide BuildBatch, Ended;
    CaptureEnded(s, title);
    hide StepForSave;
  }

  lemma CaptureEnded(s: State, title: string)
    requires EndedIn(s.open, title)
    ensures StepForSave(s).Some? ==> StepForSave(s).value.name != title
  {
  }

  lemma TravelEnded(s: State, popped: WeekWork, travel: Travel, step: Step, op: string, title: string)
    requires EndedHere(s, title) && Ended(popped.undo, title) && Ended(popped.redo, title)
    requires popped == s.open.(undo := popped.undo, redo := popped.redo) && step.name != title
    ensures EndedHere(AfterSave(Travelling(s, popped, travel, step), op, false).0, title)
  {
    hide AfterSave, WithSide;
    SaveEnded(Travelling(s, popped, travel, step), op, false, title);
  }

  lemma ActEnded(s: State, action: Action, title: string)
    requires EndedHere(s, title) && Avoids(action, title)
    ensures EndedHere(Act(s, action).0, title)
  {
    hide AfterSave, Travelling, DropStale, Ended, MoveCommitted;
    match action
    case Save(op, join) => SaveEnded(s, op, join, title);
    case Retry(op) => SaveEnded(s, op, false, title);
    case Undo(op) => UndoEnded(s, op, title);
    case Redo(op) => RedoEnded(s, op, title);
    case Move(to, sourceAfter, destAfter, op, name) =>
      if to in s.drafts {
        MoveEnded(s, to, Row(s.drafts[to].blocks, s.drafts[to].rev), sourceAfter, destAfter, op, name, title);
      }
    case _ =>
  }

  lemma LiveEnded(s: State, title: string)
    requires EndedHere(s, title)
    ensures EndedHere(WithoutStale(s), title)
  {
    DroppedEnded(s.open.undo, title);
    DroppedEnded(s.open.redo, title);
    hide DropStale, Ended;
  }

  lemma UndoEnded(s: State, op: string, title: string)
    requires EndedHere(s, title)
    ensures EndedHere(AfterUndo(s, op).0, title)
  {
    hide AfterSave, Travelling, DropStale, Ended;
    LiveEnded(s, title);
    var live := WithoutStale(s);
    var undo := live.open.undo;
    if TravelsHere(live, undo) {
      StaleOnTop(s.open.undo);
      PoppedEnded(undo, title);
      TravelEnded(live, live.open.(undo := undo[..|undo| - 1]), Undoing, undo[|undo| - 1], op, title);
    }
  }

  lemma RedoEnded(s: State, op: string, title: string)
    requires EndedHere(s, title)
    ensures EndedHere(AfterRedo(s, op).0, title)
  {
    hide AfterSave, Travelling, DropStale, Ended;
    LiveEnded(s, title);
    var live := WithoutStale(s);
    var redo := live.open.redo;
    if TravelsHere(live, redo) {
      StaleOnTop(s.open.redo);
      PoppedEnded(redo, title);
      TravelEnded(live, live.open.(redo := redo[..|redo| - 1]), Redoing, redo[|redo| - 1], op, title);
    }
  }

  lemma StaleOnTop(stack: seq<Step>)
    ensures DropStale(stack) != [] ==> !DropStale(stack)[|DropStale(stack)| - 1].stale
  {
  }

  lemma PoppedEnded(stack: seq<Step>, title: string)
    requires stack != [] && !stack[|stack| - 1].stale && Ended(stack, title)
    ensures Ended(stack[..|stack| - 1], title) && stack[|stack| - 1].name != title
  {
  }

  lemma MoveEnded(s: State, to: string, dest: Row, sourceAfter: seq<Block>, destAfter: seq<Block>, op: string,
                  name: string, title: string)
    requires EndedHere(s, title) && name != title
    ensures EndedHere(MoveCommitted(s, to, dest, sourceAfter, destAfter, op, name), title)
  {
    hide Ended;
  }

  // ----- Answers -----

  lemma RecordedEnded(travel: Travel, travelStep: Option<Step>, join: bool, work: WeekWork, reply: Reply,
                      title: string)
    requires Ended(work.undo, title) && Ended(work.redo, title)
    requires travelStep.Some? ==> travelStep.value.name != title
    requires work.step.Some? ==> work.step.value.name != title
    ensures var after := Recorded(travel, travelStep, join, work, reply);
            && Ended(after.undo, title) && Ended(after.redo, title)
            && after == work.(undo := after.undo, redo := after.redo)
  {
    if travelStep.Some? {
      PushedEnded(work.redo, KeepRevisions(travelStep.value, reply.weeks), title);
      PushedEnded(work.undo, KeepRevisions(travelStep.value, reply.weeks), title);
    }
    if work.step.Some? {
      PushedEnded(work.undo, AsStored(work.step.value, reply.weeks, work.homework), title);
    }
    hide PushStep, JoinStep;
  }

  lemma LandedEnded(s: State, reply: Reply, title: string)
    requires EndedIn(s.open, title) && (s.travelStep.Some? ==> s.travelStep.value.name != title)
    ensures EndedIn(LandedWork(s.travel, s.travelStep, s.join, s.open, reply), title)
  {
    var current := WithCurrent(s.open, reply);
    var stored := WithResults(current, reply.homework);
    ResultsKeepRest(current, reply.homework);
    ResultsClear(current, reply.homework);
    RecordedEnded(s.travel, s.travelStep, s.join, stored, reply, title);
    hide Recorded, WithResults, Ended, FindWeek;
  }

  lemma SaveOkEnded(s: State, call: Call, reply: Reply, title: string)
    requires EndedHere(s, title) && call.PostSave?
    ensures EndedHere(AfterSaveOk(s, call, reply), title)
  {
    LandedEnded(s, reply, title);
    hide EndedIn, LandedWork, Written;
  }

  lemma {:induction false} ResultsClear(work: WeekWork, results: seq<HwResult>)
    ensures WithResults(work, results).dirtyHw <= work.dirtyHw
  {
    if results != [] {
      ResultsClear(work, results[..|results| - 1]);
    }
  }

  lemma TurnedDownEnded(s: State, why: Refusal, title: string)
    requires EndedIn(s.open, title) && (s.travelStep.Some? ==> s.travelStep.value.name != title)
    ensures EndedIn(TurnedDownWork(s.travel, s.travelStep, s.open, why), title)
  {
    if s.travelStep.Some? {
      PutBackEnded(s.open.undo, s.travelStep.value, title);
      PutBackEnded(s.open.redo, s.travelStep.value, title);
    }
    hide Ended;
  }

  lemma SaveErrEnded(s: State, call: Call, why: Refusal, title: string)
    requires EndedHere(s, title) && call.PostSave?
    ensures EndedHere(AfterSaveErr(s, call, why).0, title)
  {
    TurnedDownEnded(s, why, title);
    hide TurnedDownWork, Ended;
  }

  lemma PutBackEnded(stack: seq<Step>, step: Step, title: string)
    requires Ended(stack, title) && step.name != title
    ensures Ended(stack + [step], title)
  {
  }

  lemma AgedEnded(work: WeekWork, call: Call, title: string)
    requires Ended(work.undo, title) && Ended(work.redo, title) && call.GetHomework?
    ensures Ended(Aged(work, call).undo, title) && Ended(Aged(work, call).redo, title)
  {
  }

  lemma LoadedEnded(s: State, call: Call, homework: Homework, title: string)
    requires EndedHere(s, title) && call.GetHomework?
    ensures EndedHere(AfterHomeworkReply(s, call, homework), title)
  {
    AgedEnded(s.open, call, title);
    hide Ended, Aged, Held;
  }

  lemma TakeEnded(s: State, call: Call, answer: Answer, plan: Action, title: string)
    requires EndedHere(s, title) && Avoids(plan, title)
    ensures EndedHere(Take(s, call, answer, plan).0, title)
  {
    hide AfterSaveOk, AfterSaveErr, AfterHomeworkReply, MoveCommitted, EndedIn;
    if call.GetHomework? && answer.HomeworkIs? {
      LoadedEnded(s, call, answer.homework, title);
    } else if call.GetDestination? && answer.WeekIs? && plan.Move? {
      MoveEnded(s, call.week, answer.row, plan.sourceAfter, plan.destAfter, plan.op, plan.name, title);
    } else if call.PostSave? && answer.Saved? {
      SaveOkEnded(s, call, answer.reply, title);
    } else if call.PostSave? && answer.TurnedDown? {
      SaveErrEnded(s, call, answer.why, title);
    }
  }

  // ----- The reload -----

  /** The answer that reloads the open week at another revision, in the window that asked for it. */
  predicate ReloadsElsewhere(s: State, call: Call) {
    && call.GetHomework? && call.ticket == s.ticket
    && call.week == call.previous == s.open.week && call.row.rev != s.open.rev
  }

  /** Every step of this title on the open week's stacks holds the week, and there is none besides. */
  predicate HoldTheWeek(s: State, title: string) {
    && (forall i :: 0 <= i < |s.open.undo| && s.open.undo[i].name == title ==> s.open.week in s.open.undo[i].weeks)
    && (forall i :: 0 <= i < |s.open.redo| && s.open.redo[i].name == title ==> s.open.week in s.open.redo[i].weeks)
    && (forall week <- s.drafts :: EndedIn(s.drafts[week], title))
    && (s.travelStep.Some? ==> s.travelStep.value.name != title)
  }

  lemma ReloadEnds(s: State, call: Call, homework: Homework, title: string)
    requires ReloadsElsewhere(s, call) && HoldTheWeek(s, title)
    ensures EndedHere(AfterHomeworkReply(s, call, homework), title)
  {
    StaleEnded(s.open.undo, call.week, title);
    StaleEnded(s.open.redo, call.week, title);
    hide Ended, MarkStale;
  }

  lemma StaleEnded(stack: seq<Step>, week: string, title: string)
    requires forall i :: 0 <= i < |stack| && stack[i].name == title ==> week in stack[i].weeks
    ensures Ended(MarkStale(stack, week), title)
  {
  }

  /** A reload makes stale exactly the steps that hold the week, and those only when the week is at another
      revision; a step of homework alone stays as it was, whatever became of its homework. */
  lemma ReloadMarksExactly(s: State, call: Call, homework: Homework, i: nat)
    requires call.GetHomework? && call.ticket == s.ticket && call.week == call.previous && i < |s.open.undo|
    ensures var after := AfterHomeworkReply(s, call, homework);
            && |after.open.undo| == |s.open.undo|
            && after.open.undo[i] == s.open.undo[i].(stale := after.open.undo[i].stale)
            && (after.open.undo[i].stale <==>
                  s.open.undo[i].stale || (call.row.rev != s.open.rev && call.week in s.open.undo[i].weeks))
  {
  }

  /** An undo or redo the server refuses over newer data puts its step back and asks for the week again. With the
      answers the window shows the server's week and homework, has nothing unsaved, and the step is stale if it
      holds the week and that is at another revision. */
  lemma RefusedTravelReloads(s: State, call: Call, row: Row, homework: Homework)
    requires call.PostSave? && call.ticket == s.ticket && s.travel != Still && s.travelStep.Some?
    ensures var (asked, next) := AfterSaveErr(s, call, Conflict);
            && next == Some(GetWeek(s.ticket + 1, s.open.week, s.open.week))
            && var (waiting, last) := AfterWeekReply(asked, next.value, row);
               && last.Some? && last.value.GetHomework?
               && var shown := AfterHomeworkReply(waiting, last.value, homework);
                  && shown.open.week == s.open.week && shown.open.blocks == shown.open.committed == row.blocks
                  && shown.open.rev == row.rev && shown.open.homework == shown.open.committedHw == homework
                  && !shown.open.dirty && shown.open.dirtyHw == {} && shown.open.pending.None? && !shown.open.conflict
                  && !shown.busy && shown.travel == Still && shown.travelStep.None?
                  && (s.travel == Undoing ==>
                        shown.open.undo == Reloaded(s.open.undo + [s.travelStep.value], s.open.rev, s.open.week, row))
                  && (s.travel == Redoing ==>
                        shown.open.redo == Reloaded(s.open.redo + [s.travelStep.value], s.open.rev, s.open.week, row))
  {
    hide MarkStale;
  }

  /** The newest step that is not stale, if there is one. */
  predicate NewestLive(stack: seq<Step>, at: nat) {
    at < |stack| && !stack[at].stale && forall i :: at < i < |stack| ==> stack[i].stale
  }

  lemma {:induction false} DroppedToLive(stack: seq<Step>, at: nat)
    requires NewestLive(stack, at)
    ensures DropStale(stack) == stack[..at + 1]
  {
    if at == |stack| - 1 {
      assert stack[..at + 1] == stack;
    } else {
      assert NewestLive(stack[..|stack| - 1], at);
      DroppedToLive(stack[..|stack| - 1], at);
      assert stack[..|stack| - 1][..at + 1] == stack[..at + 1];
    }
  }

  lemma {:induction false} LiveIsThere(stack: seq<Step>)
    ensures DropStale(stack) != [] ==> NewestLive(stack, |DropStale(stack)| - 1)
  {
    if stack != [] && stack[|stack| - 1].stale {
      LiveIsThere(stack[..|stack| - 1]);
    }
  }

  /** Undo sends a save exactly when nothing is on its way, in conflict or unsaved and the newest step that is not
      stale is the open week's or of homework alone; it is that step that travels. Otherwise the screen stays as
      it is, and at most stale steps go. */
  lemma UndoGoesExactlyWhen(s: State, op: string)
    ensures var (after, call) := AfterUndo(s, op);
            var idle := !s.busy && !s.open.conflict && !s.open.dirty && s.open.pending.None?;
            && (call.Some? <==>
                  idle && exists at: nat :: NewestLive(s.open.undo, at)
                                            && (s.open.undo[at].weeks == map[] || s.open.week in s.open.undo[at].weeks))
            && (call.Some? ==>
                  && call.value.PostSave? && after.travel == Undoing && after.travelStep.Some?
                  && exists at: nat :: NewestLive(s.open.undo, at) && after.travelStep == Some(s.open.undo[at])
                                       && after.open.undo == s.open.undo[..at])
            && (call.None? ==>
                  after == s.(open := s.open.(undo := DropStale(s.open.undo), redo := DropStale(s.open.redo))))
  {
    hide BuildBatch, StepForSave, WithSide;
    LiveIsThere(s.open.undo);
    var live := DropStale(s.open.undo);
    if live != [] {
      DroppedToLive(s.open.undo, |live| - 1);
      assert s.open.undo[..|live|][|live| - 1] == s.open.undo[|live| - 1];
      OnlyOneIsNewest(s.open.undo, |live| - 1);
    } else {
      NoneIsNewest(s.open.undo);
    }
    hide DropStale, NewestLive;
  }

  lemma OnlyOneIsNewest(stack: seq<Step>, at: nat)
    requires NewestLive(stack, at)
    ensures forall other: nat :: NewestLive(stack, other) ==> other == at
  {
  }

  lemma NoneIsNewest(stack: seq<Step>)
    requires DropStale(stack) == []
    ensures forall at: nat :: !NewestLive(stack, at)
  {
    forall at: nat ensures !NewestLive(stack, at) {
      if NewestLive(stack, at) {
        DroppedToLive(stack, at);
      }
    }
  }

  /** While the week is in conflict nothing the student does saves it: they edit it, or load a week, first. */
  lemma NothingIsSavedInConflict(s: State, action: Action)
    requires s.open.conflict
    ensures var (after, call) := Act(s, action);
            && (call.Some? ==> call.value.GetWeek? && (action.Load? || action.Reload?))
            && (!action.Edit? && !action.Load? && !action.Reload? ==> after.open.conflict)
  {
    hide BuildBatch, StepForSave, DropStale, SideApplied;
  }

  function Reloaded(stack: seq<Step>, rev: nat, week: string, row: Row): seq<Step> {
    if rev != row.rev then MarkStale(stack, week) else stack
  }

  // ----- Every run from there -----

  /** The window's student does not use the title from here on. */
  predicate NotUsedAgain(events: seq<Event>, window: nat, title: string) {
    forall i :: 0 <= i < |events| ==>
      match events[i]
      case Local(there, action, _) => there == window ==> Avoids(action, title)
      case Deliver(_, _, plan, _) => Avoids(plan, title)
      case Serve(_, _) => true
  }

  lemma EventEnded(sys: System, e: Event, window: nat, title: string)
    requires window in sys.windows && EndedHere(sys.windows[window], title) && NotUsedAgain([e], window, title)
    ensures window in Next(sys, e).windows && EndedHere(Next(sys, e).windows[window], title)
  {
    hide EndedHere, Act, Take, PostChanges, Avoids;
    assert [e][0] == e;
    match e
    case Local(there, action, number) =>
      if there == window {
        ActEnded(sys.windows[window], action, title);
      }
    case Deliver(request, answer, plan, number) =>
      if request in sys.sent && sys.sent[request].window == window {
        TakeEnded(sys.windows[window], sys.sent[request].call, answer, plan, title);
      }
    case Serve(request, token) =>
  }

  lemma {:induction false} RunEnded(sys: System, events: seq<Event>, window: nat, title: string)
    requires window in sys.windows && EndedHere(sys.windows[window], title) && NotUsedAgain(events, window, title)
    ensures window in Run(sys, events).windows && EndedHere(Run(sys, events).windows[window], title)
    decreases events
  {
    hide EndedHere, Next, Avoids;
    if events != [] {
      assert NotUsedAgain([events[0]], window, title);
      EventEnded(sys, events[0], window, title);
      assert forall i | 0 <= i < |events| - 1 :: events[1..][i] == events[i + 1];
      RunEnded(Next(sys, events[0]), events[1..], window, title);
    }
  }

  /** In no run is a step travelled that was on the open week's stacks when that week was reloaded at another
      revision: told apart by a title of their own, the steps that held the week then are never the one under
      way, whatever the windows, the server and the network do from there on. */
  lemma ReloadedStepsNeverTravel(windows: map<nat, string>, first: seq<Event>, rest: seq<Event>, request: nat,
                                 homework: Homework, plan: Action, number: nat, title: string)
    requires var sys := Run(Start(windows), first);
             && request in sys.waiting && request in sys.sent && number !in sys.sent
             && (request, HomeworkIs(homework)) in sys.answers
             && var window := sys.sent[request].window;
                && window in sys.windows
                && ReloadsElsewhere(sys.windows[window], sys.sent[request].call)
                && HoldTheWeek(sys.windows[window], title)
                && NotUsedAgain(rest, window, title)
    ensures var sys := Run(Start(windows), first);
            var window := sys.sent[request].window;
            var reloaded := Next(sys, Deliver(request, HomeworkIs(homework), plan, number));
            var later := Run(reloaded, rest);
            && window in later.windows
            && (later.windows[window].travelStep.Some? ==> later.windows[window].travelStep.value.name != title)
  {
    hide HoldTheWeek, EndedIn, Start;
    var sys := Run(Start(windows), first);
    var window := sys.sent[request].window;
    ReloadEnds(sys.windows[window], sys.sent[request].call, homework, title);
    hide AfterHomeworkReply, NotUsedAgain;
    RunEnded(Next(sys, Deliver(request, HomeworkIs(homework), plan, number)), rest, window, title);
  }
}
