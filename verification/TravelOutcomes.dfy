/** When an undo or redo lands, and what a travel whose answer was lost leaves behind. */
module TravelOutcomes {
  import opened Basics
  import opened Names
  import opened Store
  import opened Prediction
  import opened RetryOnce
  import opened History
  import opened Session
  import opened RoundTrip
  import opened Cursor

  function Ahead(line: Line, travel: Travel): Move
    requires travel != Still
  {
    if travel == Undoing then Back else Forward
  }

  /** The state a travel would take both sides to. */
  function Neighbour(line: Line, travel: Travel): Content
    requires travel != Still && Possible(line, Ahead(line, travel))
  {
    line.states[Stepped(line, Ahead(line, travel)).at]
  }

  function Top(work: WeekWork, travel: Travel): Step
    requires Stack(work, travel) != []
  {
    Stack(work, travel)[|Stack(work, travel)| - 1]
  }

  /** Every session's homework is there. */
  predicate OwnContent(content: Content) {
    forall b <- content.blocks :: b.homework.Some? ==> b.homework.value in content.bodies
  }

  lemma DestinationShows(d: Desk, line: Line, travel: Travel)
    requires At(d, line) && Clean(d.s.open) && travel != Still && Stack(d.s.open, travel) != []
    ensures Possible(line, Ahead(line, travel))
    ensures var there := Destination(d.s.open, travel);
            && ContentOf(there) == Neighbour(line, travel)
            && there.dirtyHw == Top(d.s.open, travel).homework.Keys
            && there.committedHw == d.s.open.committedHw && Bodies(there.committedHw) == line.states[line.at].bodies
    ensures Links(d.s.open.week, Top(d.s.open, travel),
                  if travel == Undoing then Neighbour(line, travel) else line.states[line.at],
                  if travel == Undoing then line.states[line.at] else Neighbour(line, travel))
  {
    hide Links, SideApplied, InStep, Kept, EditsOnly;
    var work := d.s.open;
    var stack := Stack(work, travel);
    var rest, step := stack[..|stack| - 1], stack[|stack| - 1];
    assert rest + [step] == stack;
    CleanIsUnsent(d, line);
    var popped := if travel == Undoing then work.(undo := rest) else work.(redo := rest);
    if travel == Undoing {
      TopLinks(work.week, rest, step, work.redo, line, Undoing);
      SideIsState(popped, step, Neighbour(line, travel), line.states[line.at]);
      SideKeys(popped, step, Earlier);
    } else {
      TopLinks(work.week, rest, step, work.undo, line, Redoing);
      SideIsState(popped, step, line.states[line.at], Neighbour(line, travel));
      SideKeys(popped, step, Later);
    }
  }

  lemma SideKeys(work: WeekWork, step: Step, side: Side)
    ensures var there := SideApplied(work, step, side);
            there.dirtyHw == work.dirtyHw + step.homework.Keys && there.committedHw == work.committedHw
  {
    hide WithSide;
  }

  lemma BodiesKeys(homework: Homework)
    ensures Bodies(homework).Keys == homework.Keys
  {
  }

  /** What the server asks of a travel, in terms of the state it goes to: blocks with ids of their own,
      sessions of homework that is there, and room for homework that comes back. */
  lemma LandsWhenStorable(d: Desk, line: Line, travel: Travel)
    requires At(d, line) && Clean(d.s.open) && travel != Still && Stack(d.s.open, travel) != []
    ensures Possible(line, Ahead(line, travel))
    ensures var to := Neighbour(line, travel);
            Storable(Destination(d.s.open, travel)) <==>
              && !RepeatsId(to.blocks) && OwnContent(to)
              && HasRoom(line.states[line.at].bodies.Keys, to.bodies.Keys)
  {
    hide At, Destination, RepeatsId, HasRoom, Links, Bodies;
    DestinationShows(d, line, travel);
    TopNotBlank(d, line, travel);
    var there, step := Destination(d.s.open, travel), Top(d.s.open, travel);
    BodiesKeys(there.homework);
    BodiesKeys(there.committedHw);
    assert Owned(there.homework, there.blocks) <==> OwnContent(Neighbour(line, travel));
    BlanksOnNeitherSide(d.s.open.week, step,
                        if travel == Undoing then Neighbour(line, travel) else line.states[line.at],
                        if travel == Undoing then line.states[line.at] else Neighbour(line, travel));
  }

  /** In no run is there a step on the stacks for homework that neither of its sides has. */
  lemma TopNotBlank(d: Desk, line: Line, travel: Travel)
    requires At(d, line) && travel != Still && Stack(d.s.open, travel) != []
    ensures !Blank(Top(d.s.open, travel))
  {
    hide Links, Unsent, Kept, Blank;
  }

  lemma BlanksOnNeitherSide(week: string, step: Step, a: Content, b: Content)
    requires Links(week, step, a, b)
    ensures Blank(step) <==> exists id <- step.homework :: id !in a.bodies && id !in b.bodies
  {
    forall id <- step.homework
      ensures step.homework[id] == HwChange(None, None) <==> id !in a.bodies && id !in b.bodies
    {
      assert step.homework[id].before == Lookup(a.bodies, id);
      assert step.homework[id].after == Lookup(b.bodies, id);
    }
  }

  /** The account keeps its rules. */
  predicate Sane(work: WeekWork) {
    !RepeatsId(work.committed) && Owned(work.committedHw, work.committed) && |work.committedHw| <= MAX_ASSIGNMENTS
  }

  lemma RoomBothWays(before: set<string>, after: set<string>)
    requires HasRoom(before, after) && |before| <= MAX_ASSIGNMENTS
    ensures HasRoom(after, before)
  {
    assert before + after == after + before;
    if after <= before {
      assert before + after == before;
    }
  }

  lemma CapturesChange(s: State)
    requires s.travel == Still && ExtraWeeks(s) == {} && EditsOnly(s.open)
    ensures StepForSave(s).None? <==> ContentOf(s.open) == Committed(s.open)
  {
    var work := s.open;
    assert Sorted({}) == [];
    CaptureLinks(work.name, work.week, work.committed, work.blocks, work.committedHw, work.homework, work.dirtyHw);
  }

  lemma PushedOnTop(stack: seq<Step>, step: Step)
    ensures PushStep(stack, step) != [] && PushStep(stack, step)[|PushStep(stack, step)| - 1] == step
  {
  }

  /** The step a landed save records, when it is not joined. */
  lemma SaveTop(d: Desk, line: Line, op: string, token: string)
    requires At(d, line) && d.s.open.pending.None? && Fresh(d.db, op)
    requires Next(d, Save(op, false, Heard, token)).1.Add?
    requires ContentOf(d.s.open) != Committed(d.s.open)
    ensures var saved := Next(d, Save(op, false, Heard, token)).0;
            && Clean(saved.s.open) && Storable(d.s.open)
            && Stack(saved.s.open, Undoing) != []
  {
    hide Chained, Links, BuildBatch, PushStep, CaptureStep, AsStored, Stepped, InStep, RepeatsId, HasRoom, Owned,
      PostChanges, AfterSaveOk, Bodies, StepForSave, EditsOnly;
    var before := SaveSends(d.s, d.db, line, op, false);
    var (s, call) := AfterSave(d.s, op, false);
    ServerTakes(s, before, d.db, token);
    var (posted, reply) := PostChanges(d.db, call.value.batch, token);
    ReplySettles(s, call.value, posted, reply.value.reply);
    CapturesChange(s);
    PushedOnTop(s.open.undo, AsStored(s.open.step.value, reply.value.reply.weeks, posted.homework));
  }

  /** An undo right after a save takes both sides back to the week and homework before it, whatever the
      save changed. */
  lemma UndoTakesTheSaveBack(d: Desk, line: Line, op: string, token: string, undoOp: string, undoToken: string)
    requires At(d, line) && d.s.open.pending.None? && Fresh(d.db, op) && Sane(d.s.open)
    requires Next(d, Save(op, false, Heard, token)).1.Add?
    requires ContentOf(d.s.open) != Committed(d.s.open)
    requires Fresh(Next(d, Save(op, false, Heard, token)).0.db, undoOp)
    ensures var (back, move) := Next(Next(d, Save(op, false, Heard, token)).0, Undo(undoOp, Heard, undoToken));
            && move == Back
            && ContentOf(back.s.open) == Committed(d.s.open)
            && ServerContent(back.s.open, back.db) == ServerContent(d.s.open, d.db)
  {
    hide Next, Destination, Storable, Blank, RepeatsId, Links, Unsent, Kept, HasRoom, Bodies;
    OneEvent(d, line, Save(op, false, Heard, token));
    SaveTop(d, line, op, token);
    var (saved, move) := Next(d, Save(op, false, Heard, token));
    var grown := Stepped(line, move);
    SaveMove(d, op, token);
    AddedBefore(line, ContentOf(d.s.open));
    TravelStep(saved, grown, undoOp, Heard, undoToken, Undoing);
    LandsWhenStorable(saved, grown, Undoing);
    BothSidesAtTheCursor(d, line);
    BothSidesAtTheCursor(saved, grown);
    assert Neighbour(grown, Undoing) == Committed(d.s.open);
    OldStateStorable(d.s.open);
    assert Next(saved, Undo(undoOp, Heard, undoToken)).1 == Back;
    BothSidesAtTheCursor(Next(saved, Undo(undoOp, Heard, undoToken)).0, Stepped(grown, Back));
  }

  lemma AddedBefore(line: Line, content: Content)
    requires Possible(line, Add(content, false)) && content != line.states[line.at]
    requires |line.states| <= HISTORY_LIMIT + 1
    ensures var grown := Stepped(line, Add(content, false));
            && Possible(grown, Back)
            && grown.states[grown.at] == content && grown.states[grown.at - 1] == line.states[line.at]
  {
  }

  lemma SaveMove(d: Desk, op: string, token: string)
    ensures var move := Next(d, Save(op, false, Heard, token)).1;
            move in {Stay, Add(ContentOf(d.s.open), false)}
  {
    hide AfterSaveOk, AfterSaveErr, PostChanges, BuildBatch, StepForSave, Bodies;
  }

  lemma OldStateStorable(work: WeekWork)
    requires Sane(work) && Storable(work)
    ensures var was := Committed(work);
            && !RepeatsId(was.blocks) && OwnContent(was)
            && HasRoom(Bodies(work.homework).Keys, was.bodies.Keys)
  {
    BodiesKeys(work.committedHw);
    BodiesKeys(work.homework);
    RoomBothWays(work.committedHw.Keys, work.homework.Keys);
  }
}
