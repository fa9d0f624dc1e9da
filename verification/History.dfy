/** Undo and redo steps, and the two stacks that hold them. */
module History {
  import opened Basics
  import opened Store

  const HISTORY_LIMIT := 50

  /** What a step did to one week; `rev` is the week's revision when the step last landed. */
  datatype WeekChange = WeekChange(before: seq<Block>, after: seq<Block>, rev: nat)

  datatype HwChange = HwChange(before: Option<string>, after: Option<string>)

  datatype Step = Step(name: string, weeks: map<string, WeekChange>, homework: map<string, HwChange>, stale: bool)

  datatype Side = Earlier | Later

  function BodyOf(homework: Homework, id: string): Option<string> {
    if id in homework then Some(homework[id].body) else None
  }

  /** The step between two states of a week, or none when nothing changed. */
  function CaptureStep(name: string, week: string, before: seq<Block>, after: seq<Block>,
                       beforeHw: Homework, afterHw: Homework, changed: set<string>): Option<Step>
  {
    var weeks := if before == after then map[] else map[week := WeekChange(before, after, 0)];
    var homework := map id | id in changed && BodyOf(beforeHw, id) != BodyOf(afterHw, id)
                      :: HwChange(BodyOf(beforeHw, id), BodyOf(afterHw, id));
    if weeks == map[] && homework == map[] then None else Some(Step(name, weeks, homework, false))
  }

  /** The newest step goes on top; past the limit the oldest goes. */
  function PushStep(stack: seq<Step>, step: Step): seq<Step> {
    var all := stack + [step];
    if |all| > HISTORY_LIMIT then all[1..] else all
  }

  /** Each week and homework keeps the earlier before and the later entry otherwise. */
  function JoinedStep(earlier: Step, later: Step): Step {
    earlier.(
      weeks := map week | week in earlier.weeks.Keys + later.weeks.Keys ::
                 if week !in later.weeks then earlier.weeks[week]
                 else if week !in earlier.weeks then later.weeks[week]
                 else later.weeks[week].(before := earlier.weeks[week].before),
      homework := map id | id in earlier.homework.Keys + later.homework.Keys ::
                    if id !in later.homework then earlier.homework[id]
                    else if id !in earlier.homework then later.homework[id]
                    else HwChange(earlier.homework[id].before, later.homework[id].after))
  }

  function JoinStep(stack: seq<Step>, step: Step): seq<Step> {
    if stack == [] || stack[|stack| - 1].stale then PushStep(stack, step)
    else stack[..|stack| - 1] + [JoinedStep(stack[|stack| - 1], step)]
  }

  /** Every step that holds `week` becomes stale. */
  function MarkStale(stack: seq<Step>, week: string): seq<Step> {
    seq(|stack|, i requires 0 <= i < |stack| =>
      if week in stack[i].weeks then stack[i].(stale := true) else stack[i])
  }

  function DropStale(stack: seq<Step>): (left: seq<Step>)
    ensures left <= stack
    ensures left != [] ==> !left[|left| - 1].stale
  {
    if stack != [] && stack[|stack| - 1].stale then DropStale(stack[..|stack| - 1]) else stack
  }

  // ----- What a step joins together -----

  /** What the student sees of one week and the homework: its blocks and each homework's text. */
  datatype Content = Content(blocks: seq<Block>, bodies: map<string, string>)

  function Bodies(homework: Homework): map<string, string> {
    map id | id in homework :: homework[id].body
  }

  function Lookup(bodies: map<string, string>, id: string): Option<string> {
    if id in bodies then Some(bodies[id]) else None
  }

  /** `step` is one change of `week` alone, taking `a` to `b`. */
  ghost predicate Links(week: string, step: Step, a: Content, b: Content) {
    && !step.stale
    && step.weeks.Keys <= {week}
    && (if week in step.weeks then step.weeks[week].before == a.blocks && step.weeks[week].after == b.blocks
        else a.blocks == b.blocks)
    && (forall id <- step.homework :: step.homework[id].before == Lookup(a.bodies, id)
                                      && step.homework[id].after == Lookup(b.bodies, id))
    && (forall id :: id !in step.homework ==> Lookup(a.bodies, id) == Lookup(b.bodies, id))
  }

  lemma SameLookups(a: map<string, string>, b: map<string, string>)
    requires forall id :: Lookup(a, id) == Lookup(b, id)
    ensures a == b
  {
    forall id ensures id in a <==> id in b {
      assert Lookup(a, id) == Lookup(b, id);
    }
    forall id <- a ensures a[id] == b[id] {
      assert Lookup(a, id) == Lookup(b, id);
    }
  }

  lemma LookupOfBodies(homework: Homework, id: string)
    ensures Lookup(Bodies(homework), id) == BodyOf(homework, id)
  {
  }

  /** A step is captured exactly when something changed, and links the two states. */
  lemma CaptureLinks(name: string, week: string, before: seq<Block>, after: seq<Block>,
                     beforeHw: Homework, afterHw: Homework, changed: set<string>)
    requires forall id :: id !in changed ==> BodyOf(beforeHw, id) == BodyOf(afterHw, id)
    ensures var a, b := Content(before, Bodies(beforeHw)), Content(after, Bodies(afterHw));
            var step := CaptureStep(name, week, before, after, beforeHw, afterHw, changed);
            (step.None? <==> a == b) && (step.Some? ==> Links(week, step.value, a, b))
  {
    var a, b := Content(before, Bodies(beforeHw)), Content(after, Bodies(afterHw));
    var step := CaptureStep(name, week, before, after, beforeHw, afterHw, changed);
    forall id
      ensures Lookup(a.bodies, id) == BodyOf(beforeHw, id) && Lookup(b.bodies, id) == BodyOf(afterHw, id)
    {
    }
    var homework := map id | id in changed && BodyOf(beforeHw, id) != BodyOf(afterHw, id)
                      :: HwChange(BodyOf(beforeHw, id), BodyOf(afterHw, id));
    if before != after {
      assert week in map[week := WeekChange(before, after, 0)];
    }
    if step.None? {
      forall id
        ensures Lookup(a.bodies, id) == Lookup(b.bodies, id)
      {
        assert id !in homework;
      }
      SameLookups(a.bodies, b.bodies);
    } else if before == after {
      var id :| id in homework;
      assert Lookup(a.bodies, id) != Lookup(b.bodies, id);
    }
  }

  /** Every week's blocks and every homework's text. */
  datatype World = World(weeks: map<string, seq<Block>>, bodies: map<string, string>)

  function BlocksOf(world: World, week: string): seq<Block> {
    if week in world.weeks then world.weeks[week] else []
  }

  /** `step` is the change of `a` to `b`, in whichever weeks. */
  ghost predicate Takes(step: Step, a: World, b: World) {
    && (forall week :: if week in step.weeks
                       then step.weeks[week].before == BlocksOf(a, week) && step.weeks[week].after == BlocksOf(b, week)
                       else BlocksOf(a, week) == BlocksOf(b, week))
    && (forall id :: if id in step.homework
                     then step.homework[id] == HwChange(Lookup(a.bodies, id), Lookup(b.bodies, id))
                     else Lookup(a.bodies, id) == Lookup(b.bodies, id))
  }

  /** Folding a step into the one before it takes the first world to the last, in all their weeks. */
  lemma JoinedTakes(earlier: Step, later: Step, a: World, b: World, c: World)
    requires Takes(earlier, a, b) && Takes(later, b, c)
    ensures Takes(JoinedStep(earlier, later), a, c)
  {
    var joined := JoinedStep(earlier, later);
    forall week
      ensures if week in joined.weeks
              then joined.weeks[week].before == BlocksOf(a, week) && joined.weeks[week].after == BlocksOf(c, week)
              else BlocksOf(a, week) == BlocksOf(c, week)
    {
      assert week in joined.weeks <==> week in earlier.weeks || week in later.weeks;
    }
    forall id
      ensures if id in joined.homework then joined.homework[id] == HwChange(Lookup(a.bodies, id), Lookup(c.bodies, id))
              else Lookup(a.bodies, id) == Lookup(c.bodies, id)
    {
      assert id in joined.homework <==> id in earlier.homework || id in later.homework;
    }
  }

  /** A step joined to one that is stale, or to none, stays a step of its own; any other join leaves as many
      steps. Either way the newest can be travelled and the older ones are as they were. */
  lemma JoinedStaysLive(stack: seq<Step>, step: Step)
    requires !step.stale
    ensures var after := JoinStep(stack, step);
            && after != [] && !after[|after| - 1].stale
            && (stack != [] && !stack[|stack| - 1].stale ==>
                  |after| == |stack| && after[..|after| - 1] == stack[..|stack| - 1])
            && (stack == [] || stack[|stack| - 1].stale ==> after[|after| - 1] == step)
            && (|stack| < HISTORY_LIMIT && stack != [] && stack[|stack| - 1].stale ==> after == stack + [step])
  {
  }

  /** The newest fifty steps are kept, in order. */
  lemma PushKeepsTheNewestFifty(stack: seq<Step>, step: Step)
    requires |stack| <= 50
    ensures var all, after := stack + [step], PushStep(stack, step);
            |after| == (if |stack| < 50 then |stack| + 1 else 50) && after == all[|all| - |after|..]
  {
    assert stack + [step] == (stack + [step])[0..];
  }

  /** The same within one week. */
  lemma JoinedLinks(week: string, earlier: Step, later: Step, a: Content, b: Content, c: Content)
    requires Links(week, earlier, a, b) && Links(week, later, b, c)
    ensures Links(week, JoinedStep(earlier, later), a, c)
  {
  }
}
