/** What the setup pages kept, written out one request at a time: preferences, then study hours, then the
    week. Preferences are loaded and every request succeeds. */
module SetupQueue {
  import opened Basics

  type Prefs = map<string, string>

  const WINDOWS := "work_windows"

  datatype Request =
    | PutPreferences(updates: Prefs, body: Prefs)
    | PutHours(windows: string, body: Prefs)
    | PostWeek
    | Other

  datatype State = State(
    preferences: Prefs,
    keptPrefs: Prefs,
    keptWindows: Option<string>,
    keptWeek: bool,
    conflict: bool,
    out: Option<Request>,
    turns: nat,
    server: Prefs)

  predicate Busy(s: State) {
    s.out.Some?
  }

  predicate PutsPreferences(s: State) {
    s.out.Some? && (s.out.value.PutPreferences? || s.out.value.PutHours?)
  }

  predicate Keeps(s: State) {
    s.keptPrefs != map[] || s.keptWindows.Some? || s.keptWeek
  }

  /** The next kept answer goes out, if nothing else is. A save that is in conflict sends nothing. */
  function AfterFlush(s: State): State {
    if Busy(s) then s
    else if s.keptPrefs != map[] then
      s.(keptPrefs := map[], out := Some(PutPreferences(s.keptPrefs, s.preferences + s.keptPrefs)))
    else if s.keptWindows.Some? then
      s.(keptWindows := None, out := Some(PutHours(s.keptWindows.value, s.preferences[WINDOWS := s.keptWindows.value])))
    else if s.keptWeek then s.(keptWeek := false, out := if s.conflict then None else Some(PostWeek))
    else s
  }

  function WithKept(s: State, updates: Prefs, windows: Option<string>, week: bool): State {
    var kept := s.keptPrefs + updates;
    s.(keptPrefs := kept, keptWindows := if windows.Some? then windows else s.keptWindows,
       keptWeek := s.keptWeek || week, preferences := s.preferences + kept)
  }

  function AfterKeep(s: State, updates: Prefs, windows: Option<string>, week: bool): State {
    AfterFlush(WithKept(s, updates, windows, week))
  }

  /** The answer to the request that is out. The server keeps the body of a preferences write whole and
      sends it back. An idle turn is asked for when something is still kept. */
  function AfterReply(s: State): State
    requires Busy(s)
  {
    var stored := if PutsPreferences(s) then s.(server := s.out.value.body, preferences := s.out.value.body) else s;
    stored.(out := None, turns := if Keeps(s) then s.turns + 1 else s.turns)
  }

  function AfterTurn(s: State): State
    requires s.turns > 0
  {
    AfterFlush(s.(turns := s.turns - 1))
  }

  // ----- Runs -----

  datatype Event =
    | Keep(updates: Prefs, windows: Option<string>, week: bool)
    | Answered
    | Turn
    | Begins(conflict: bool)

  /** `Begins` is any other request of the window; whether the week is in conflict may have changed. */
  function Next(s: State, e: Event): State {
    match e
    case Keep(updates, windows, week) => AfterKeep(s, updates, windows, week)
    case Answered => if Busy(s) then AfterReply(s) else s
    case Turn => if s.turns > 0 then AfterTurn(s) else s
    case Begins(conflict) => if Busy(s) then s else s.(out := Some(Other), conflict := conflict)
  }

  function Run(s: State, events: seq<Event>): State
    decreases events
  {
    if events == [] then s else Run(Next(s, events[0]), events[1..])
  }

  predicate Plain(e: Event) {
    e.Keep? ==> WINDOWS !in e.updates
  }

  /** The last value kept for each key. */
  function Wanted(events: seq<Event>): Prefs {
    if events == [] then map[]
    else
      var last := events[|events| - 1];
      var front := Wanted(events[..|events| - 1]);
      if !last.Keep? then front
      else
        front + last.updates + (if last.windows.Some? then map[WINDOWS := last.windows.value] else map[])
  }

  /** The preferences the server has once the request that is out is answered. */
  function Base(s: State): Prefs {
    if PutsPreferences(s) then s.out.value.body else s.server
  }

  /** The value for `key` that was asked for last: still kept, on its way, or stored. */
  function Current(s: State, key: string): Option<string> {
    if key in s.keptPrefs then Some(s.keptPrefs[key])
    else if key == WINDOWS && s.keptWindows.Some? then s.keptWindows
    else if key in Base(s) then Some(Base(s)[key])
    else None
  }

  /** Keys the window may not show yet as they will be: still kept, or on their way. */
  function Unsettled(s: State): set<string> {
    s.keptPrefs.Keys +
    match s.out
    case Some(PutPreferences(updates, _)) => updates.Keys
    case Some(PutHours(_, _)) => {WINDOWS}
    case _ => {}
  }

  ghost predicate Agree(a: Prefs, b: Prefs, key: string) {
    (key in a <==> key in b) && (key in a ==> a[key] == b[key])
  }

  /** All else the window shows as the server has it or is being sent it. */
  ghost predicate Settled(s: State) {
    forall key | key !in Unsettled(s) :: Agree(s.preferences, Base(s), key)
  }

  /** Between events what is shown is settled, and whatever is kept while nothing is out has a turn coming. */
  ghost predicate Sound(s: State) {
    && WINDOWS !in s.keptPrefs
    && (!Busy(s) && Keeps(s) ==> s.turns > 0)
    && Settled(s)
  }

  // ----- Every value arrives -----

  lemma FlushKeepsValues(s: State, key: string)
    requires WINDOWS !in s.keptPrefs && Settled(s)
    ensures var t := AfterFlush(s);
            WINDOWS !in t.keptPrefs && Settled(t) && Current(t, key) == Current(s, key)
  {
    if !Busy(s) && (s.keptPrefs != map[] || s.keptWindows.Some?) {
      var t := AfterFlush(s);
      assert Unsettled(s) == s.keptPrefs.Keys;
      forall k | k !in Unsettled(t) ensures Agree(t.preferences, Base(t), k) {
        assert k !in Unsettled(s) ==> Agree(s.preferences, Base(s), k);
      }
      assert key !in Unsettled(s) ==> Agree(s.preferences, Base(s), key);
    } else {
      SettledAlike(s, AfterFlush(s));
    }
  }

  lemma SettledAlike(s: State, t: State)
    requires Settled(s) && t.preferences == s.preferences && t.keptPrefs == s.keptPrefs && t.server == s.server
    requires t.out == s.out || (!PutsPreferences(s) && !PutsPreferences(t))
    ensures Settled(t)
  {
    forall k | k !in Unsettled(t) ensures Agree(t.preferences, Base(t), k) {
      assert k !in Unsettled(s);
    }
  }

  lemma StoredIsSettled(s: State)
    requires PutsPreferences(s)
    ensures Settled(AfterReply(s))
  {
  }

  lemma KeptIsSettled(s: State, updates: Prefs, windows: Option<string>, week: bool)
    requires Settled(s)
    ensures Settled(WithKept(s, updates, windows, week))
  {
    var t := WithKept(s, updates, windows, week);
    forall k | k !in Unsettled(t) ensures Agree(t.preferences, Base(t), k) {
      assert k !in Unsettled(s) && Agree(s.preferences, Base(s), k);
    }
  }

  /** Whatever is kept is sent at once, or waits for an answer and the turn it asks for. */
  lemma FlushLeavesATurn(s: State, e: Event)
    requires !Busy(s) && Keeps(s) ==> s.turns > 0
    ensures var t := Next(s, e);
            !Busy(t) && Keeps(t) ==> t.turns > 0
  {
  }

  lemma EventKeepsSound(s: State, e: Event)
    requires Sound(s) && Plain(e)
    ensures Sound(Next(s, e))
  {
    hide Settled, Unsettled, AfterFlush;
    FlushLeavesATurn(s, e);
    match e
    case Keep(updates, windows, week) => {
      KeptIsSettled(s, updates, windows, week);
      FlushKeepsValues(WithKept(s, updates, windows, week), "");
    }
    case Turn => {
      if s.turns > 0 {
        SettledAlike(s, s.(turns := s.turns - 1));
        FlushKeepsValues(s.(turns := s.turns - 1), "");
      }
    }
    case Answered =>
      if PutsPreferences(s) {
        StoredIsSettled(s);
      } else if Busy(s) {
        SettledAlike(s, AfterReply(s));
      }
    case Begins(_) => SettledAlike(s, Next(s, e));
  }

  /** Only keeping an answer changes what is asked for; sending, answers and turns carry it along. */
  lemma EventKeepsValues(s: State, e: Event, key: string)
    requires Sound(s) && Plain(e)
    ensures Current(Next(s, e), key)
         == if e.Keep? && key in e.updates then Some(e.updates[key])
            else if e.Keep? && key == WINDOWS && e.windows.Some? then e.windows
            else Current(s, key)
  {
    hide Settled, Unsettled, AfterFlush;
    match e
    case Keep(updates, windows, week) => {
      KeptIsSettled(s, updates, windows, week);
      FlushKeepsValues(WithKept(s, updates, windows, week), key);
    }
    case Turn => {
      if s.turns > 0 {
        SettledAlike(s, s.(turns := s.turns - 1));
        FlushKeepsValues(s.(turns := s.turns - 1), key);
      }
    }
    case _ =>
  }

  /** The preferences are loaded and nothing is kept or out. */
  function Loaded(server: Prefs): State {
    State(server, map[], None, false, false, None, 0, server)
  }

  lemma LoadedIsSound(server: Prefs)
    ensures Sound(Loaded(server))
  {
  }

  /** After any interleaving of keeps, answers, turns and other requests, the value on record for every key
      is the one kept for it last. */
  lemma {:induction false} LastKeptIsCurrent(server: Prefs, events: seq<Event>, key: string)
    requires forall e <- events :: Plain(e)
    ensures Sound(Run(Loaded(server), events))
    ensures Current(Run(Loaded(server), events), key)
         == if key in Wanted(events) then Some(Wanted(events)[key])
            else if key in server then Some(server[key]) else None
  {
    hide Next, Sound, Current;
    if events == [] {
      LoadedIsSound(server);
      NothingKept(server, key);
    } else {
      var front, last := events[..|events| - 1], events[|events| - 1];
      assert events == front + [last];
      LastKeptIsCurrent(server, front, key);
      RunSplits(Loaded(server), front, [last]);
      RunOne(Run(Loaded(server), front), last);
      EventKeepsSound(Run(Loaded(server), front), last);
      EventKeepsValues(Run(Loaded(server), front), last, key);
    }
  }

  lemma NothingKept(server: Prefs, key: string)
    ensures Current(Loaded(server), key) == if key in server then Some(server[key]) else None
  {
  }

  lemma RunOne(s: State, e: Event)
    ensures Run(s, [e]) == Next(s, e)
  {
    assert [e][1..] == [];
  }

  lemma {:induction false} RunSplits(s: State, first: seq<Event>, second: seq<Event>)
    ensures Run(s, first + second) == Run(Run(s, first), second)
    decreases first
  {
    if first == [] {
      assert first + second == second;
    } else {
      assert (first + second)[1..] == first[1..] + second;
      RunSplits(Next(s, first[0]), first[1..], second);
    }
  }

  /** What is kept is shown at once, with all that was kept before it and has not gone out. */
  lemma KeptIsShownAtOnce(s: State, updates: Prefs, windows: Option<string>, week: bool, key: string)
    ensures var shown := AfterKeep(s, updates, windows, week).preferences;
            && (key in updates ==> key in shown && shown[key] == updates[key])
            && (key !in updates && key in s.keptPrefs ==> key in shown && shown[key] == s.keptPrefs[key])
            && (key !in updates && key !in s.keptPrefs ==> Agree(shown, s.preferences, key))
  {
  }

  // ----- One at a time, in order -----

  /** A request goes out only while nothing else is, study hours only once no preference is kept, and the
      week only once neither is. */
  lemma SentInOrder(s: State, e: Event)
    requires Next(s, e).out != s.out && Next(s, e).out.Some?
    ensures s.out.None?
    ensures var t := Next(s, e);
            && (t.out.value.PutHours? ==> t.keptPrefs == map[])
            && (t.out.value.PostWeek? ==> t.keptPrefs == map[] && t.keptWindows.None?)
  {
  }

  /** A week that was kept, before or just now, is kept no longer. */
  predicate WeekLeaves(s: State, e: Event) {
    (s.keptWeek || (e.Keep? && e.week)) && !Next(s, e).keptWeek
  }

  /** It goes out as a save of the week, unless that is in conflict: then nothing goes out for it. */
  predicate WeekGoesOut(s: State, e: Event) {
    WeekLeaves(s, e) && s.out.None? && Next(s, e).out == if s.conflict then None else Some(PostWeek)
  }

  lemma WeekGoesUnlessInConflict(s: State, e: Event)
    requires WeekLeaves(s, e)
    ensures WeekGoesOut(s, e)
  {
  }

  lemma {:induction false} KeptWeekGoes(s: State, events: seq<Event>) returns (at: nat)
    requires s.keptWeek && !Run(s, events).keptWeek
    ensures at < |events| && WeekGoesOut(Run(s, events[..at]), events[at])
    decreases events
  {
    hide Next, WeekLeaves, WeekGoesOut;
    var next := Next(s, events[0]);
    if next.keptWeek {
      var later := KeptWeekGoes(next, events[1..]);
      at := later + 1;
      assert events[..at] == [events[0]] + events[1..][..later];
      assert events[..at][1..] == events[1..][..later];
    } else {
      assert WeekLeaves(s, events[0]) by {
        LeavesNow(s, events[0]);
      }
      WeekGoesUnlessInConflict(s, events[0]);
      at := 0;
    }
  }

  lemma LeavesNow(s: State, e: Event)
    requires s.keptWeek && !Next(s, e).keptWeek
    ensures WeekLeaves(s, e)
  {
  }

  /** Once nothing is kept, each keeping of the week was followed by its going out. */
  lemma KeptWeekIsPosted(s: State, events: seq<Event>, kept: nat)
    requires kept < |events| && events[kept].Keep? && events[kept].week && !Run(s, events).keptWeek
    ensures exists at :: kept <= at < |events| && WeekGoesOut(Run(s, events[..at]), events[at])
  {
    hide WeekGoesOut;
    var before, rest := Run(s, events[..kept]), events[kept + 1..];
    var after := Next(before, events[kept]);
    assert events == events[..kept] + ([events[kept]] + rest) && ([events[kept]] + rest)[1..] == rest;
    RunSplits(s, events[..kept], [events[kept]] + rest);
    if after.keptWeek {
      var later := KeptWeekGoes(after, rest);
      var at := kept + 1 + later;
      assert events[..at] == events[..kept] + ([events[kept]] + rest[..later]);
      assert ([events[kept]] + rest[..later])[1..] == rest[..later];
      RunSplits(s, events[..kept], [events[kept]] + rest[..later]);
      assert WeekGoesOut(Run(s, events[..at]), events[at]);
    } else {
      WeekGoesUnlessInConflict(before, events[kept]);
    }
  }

  /** A run: the week is kept while a request is out and the week in conflict. It is never saved, and nothing
      is kept any more. */
  lemma AWeekForgotten(server: Prefs)
    ensures var events := [Begins(true), Keep(map[], None, true), Answered, Turn];
            && !Keeps(Run(Loaded(server), events))
            && forall n | 0 <= n <= |events| :: Run(Loaded(server), events[..n]).out != Some(PostWeek)
  {
    var events := [Begins(true), Keep(map[], None, true), Answered, Turn];
    var s := Loaded(server);
    var one := Next(s, events[0]);
    var two := Next(one, events[1]);
    assert two.keptWeek && two.conflict && two.out == Some(Other) && two.keptPrefs == map[] && two.keptWindows.None?;
    var three := Next(two, events[2]);
    var four := Next(three, events[3]);
    assert !Keeps(four) && four.out.None?;
    hide Next;
    forall n | 0 <= n < |events| ensures Run(s, events[..n + 1]) == Next(Run(s, events[..n]), events[n]) {
      RunNext(s, events, n);
    }
    assert events[..4] == events;
    assert Run(s, events[..1]) == one && Run(s, events[..2]) == two && Run(s, events[..3]) == three;
  }

  lemma RunNext(s: State, events: seq<Event>, n: nat)
    requires n < |events|
    ensures Run(s, events[..n + 1]) == Next(Run(s, events[..n]), events[n])
  {
    hide Next;
    assert events[..n + 1] == events[..n] + [events[n]];
    RunSplits(s, events[..n], [events[n]]);
    RunOne(Run(s, events[..n]), events[n]);
  }

  // ----- Draining -----

  function Waiting(s: State): nat {
    (if s.keptPrefs != map[] then 1 else 0) + (if s.keptWindows.Some? then 1 else 0) + (if s.keptWeek then 1 else 0)
  }

  /** What is left to do. */
  function Measure(s: State): nat {
    4 * Waiting(s) + (if Busy(s) then 3 else 0) + s.turns
  }

  /** Something can still happen without the student: an answer or a turn. */
  predicate Moves(s: State, e: Event) {
    (e == Answered && Busy(s)) || (e == Turn && s.turns > 0)
  }

  lemma MovesDrain(s: State, e: Event)
    requires Moves(s, e)
    ensures Measure(Next(s, e)) < Measure(s)
  {
  }

  predicate AllMove(s: State, events: seq<Event>)
    decreases events
  {
    events == [] || (Moves(s, events[0]) && AllMove(Next(s, events[0]), events[1..]))
  }

  lemma {:induction false} MovesAreFew(s: State, events: seq<Event>)
    requires AllMove(s, events)
    ensures |events| + Measure(Run(s, events)) <= Measure(s)
    decreases events
  {
    if events != [] {
      MovesDrain(s, events[0]);
      MovesAreFew(Next(s, events[0]), events[1..]);
    }
  }

  /** However keeps, answers and turns interleaved, answers and turns alone then finish within the measure.
      When none is left to happen everything kept has been sent: the server holds, for each key, the value
      kept last, and every keeping of the week was followed by a save of it, or by a moment when it could have
      been sent but was in conflict. */
  lemma QueueDrains(server: Prefs, events: seq<Event>, ending: seq<Event>, key: string, kept: nat)
    requires forall e <- events :: Plain(e)
    requires AllMove(Run(Loaded(server), events), ending)
    ensures var mid := Run(Loaded(server), events);
            var done := Run(mid, ending);
            && |ending| <= Measure(mid)
            && (!Moves(done, Answered) && !Moves(done, Turn) ==>
                  && !Keeps(done) && done.out.None?
                  && (if key in Wanted(events) then key in done.server && done.server[key] == Wanted(events)[key]
                      else key in done.server <==> key in server)
                  && (key !in Wanted(events) && key in server ==> done.server[key] == server[key])
                  && var all := events + ending;
                     (kept < |events| && events[kept].Keep? && events[kept].week ==>
                        exists at :: kept <= at < |all| && WeekGoesOut(Run(Loaded(server), all[..at]), all[at])))
  {
    hide Next, AllMove, Measure, Wanted;
    var mid := Run(Loaded(server), events);
    MovesAreFew(mid, ending);
    MovesArePlain(mid, ending);
    LastKeptIsCurrent(server, events + ending, key);
    WantedByKeepsOnly(events, ending);
    RunSplits(Loaded(server), events, ending);
    hide WeekGoesOut;
    var all := events + ending;
    if kept < |events| && events[kept].Keep? && events[kept].week && !Run(mid, ending).keptWeek {
      assert all[kept] == events[kept];
      KeptWeekIsPosted(Loaded(server), all, kept);
    }
  }

  lemma {:induction false} MovesArePlain(s: State, events: seq<Event>)
    requires AllMove(s, events)
    ensures forall e <- events :: Plain(e) && !e.Keep?
    decreases events
  {
    if events != [] {
      MovesArePlain(Next(s, events[0]), events[1..]);
      assert events == [events[0]] + events[1..];
    }
  }

  lemma {:induction false} WantedByKeepsOnly(events: seq<Event>, ending: seq<Event>)
    requires forall e <- ending :: !e.Keep?
    ensures Wanted(events + ending) == Wanted(events)
  {
    if ending == [] {
      assert events + ending == events;
    } else {
      var all := events + ending;
      assert all[..|all| - 1] == events + ending[..|ending| - 1];
      WantedByKeepsOnly(events, ending[..|ending| - 1]);
    }
  }

  // ----- The session's fields, changed in place -----

  class Setup {
    var preferences: Prefs
    var setupPrefs: Prefs
    var setupWorkWindows: Option<string>
    var setupWeek: bool
    var conflict: bool
    var out: Option<Request>
    var turns: nat
    var server: Prefs

    function All(): State
      reads this
    {
      State(preferences, setupPrefs, setupWorkWindows, setupWeek, conflict, out, turns, server)
    }

    constructor (stored: Prefs)
      ensures All() == Loaded(stored)
    {
      preferences, setupPrefs, setupWorkWindows, setupWeek := stored, map[], None, false;
      conflict, out, turns, server := false, None, 0, stored;
    }

    method FlushSetup()
      modifies this
      ensures All() == AfterFlush(old(All()))
    {
      if out.Some? {
        return;
      }
      if setupPrefs != map[] {
        var updates := setupPrefs;
        setupPrefs := map[];
        out := Some(PutPreferences(updates, preferences + updates));
        return;
      }
      if setupWorkWindows.Some? {
        var windows := setupWorkWindows.value;
        setupWorkWindows := None;
        out := Some(PutHours(windows, preferences[WINDOWS := windows]));
        return;
      }
      if setupWeek {
        setupWeek := false;
        if !conflict {
          out := Some(PostWeek);
        }
      }
    }

    method KeepSetup(updates: Prefs, windows: Option<string>, saveWeek: bool)
      modifies this
      ensures All() == AfterKeep(old(All()), updates, windows, saveWeek)
    {
      setupPrefs := setupPrefs + updates;
      if windows.Some? {
        setupWorkWindows := windows;
      }
      if saveWeek {
        setupWeek := true;
      }
      preferences := preferences + setupPrefs;
      FlushSetup();
    }

    method Answer()
      requires out.Some?
      modifies this
      ensures All() == AfterReply(old(All()))
    {
      var answered := out.value;
      out := None;
      if answered.PutPreferences? || answered.PutHours? {
        server, preferences := answered.body, answered.body;
      }
      if setupPrefs != map[] || setupWorkWindows.Some? || setupWeek {
        turns := turns + 1;
      }
    }

    method IdleTurn()
      requires turns > 0
      modifies this
      ensures All() == AfterTurn(old(All()))
    {
      turns := turns - 1;
      FlushSetup();
    }
  }
}
