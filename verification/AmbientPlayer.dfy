/** The ambient sound player: one voice, one sink, one fade at a time. Opening a sink and decoding a file
    are answered from outside; levels are exact numbers. */
module AmbientPlayer {
  import opened Basics

  datatype Mode = Stopped | Loading | Playing | Paused

  datatype Sink = Closed | Running | Suspended

  datatype After = Nothing | Suspend | Stop

  const WHITE_NOISE := "white-noise"
  const SOUNDS := {"rain", "lo-fi", "white-noise"}
  const FADE_STEP_MS := 35

  /** `begun` and `ended` count the sinks opened and stopped so far. */
  datatype State = State(
    fadeMs: int,
    silent: bool,
    mode: Mode,
    kind: string,
    cache: set<string>,
    decoding: Option<string>,
    sink: Sink,
    ramp: real,
    rampTo: real,
    after: After,
    timer: bool,
    begun: nat,
    ended: nat)

  /** What the world answers when it is asked: whether a sink opens and whether a decoder can be set up. */
  datatype World = World(opens: bool, decodes: bool)

  function New(fadeMs: int, silent: bool): State {
    State(fadeMs, silent, Stopped, "", {}, None, Closed, 0.0, 0.0, Nothing, false, 0, 0)
  }

  predicate Open(s: State) {
    s.sink != Closed
  }

  function AfterDropSink(s: State): State {
    s.(timer := false, after := Nothing, sink := Closed, ended := if Open(s) then s.ended + 1 else s.ended)
  }

  /** The fade is at its end; what waited for it happens only if the player still wants it. */
  function AfterArrive(s: State): State {
    var t := s.(after := Nothing);
    if s.after == Suspend && Open(s) && s.mode == Paused then t.(sink := Suspended)
    else if s.after == Stop && s.mode == Stopped then AfterDropSink(t)
    else t
  }

  function AfterFade(s: State, target: real): State {
    var t := s.(rampTo := target);
    if s.fadeMs <= 0 || !Open(s) then AfterArrive(t.(ramp := target)) else t.(timer := true)
  }

  function AfterBegin(s: State, world: World): State {
    if s.kind !in s.cache then s
    else if s.silent || !world.opens then s.(mode := Playing)
    else AfterFade(s.(mode := Playing, sink := Running, begun := s.begun + 1, ramp := 0.0, after := Nothing), 1.0)
  }

  function AfterGiveUp(s: State): State {
    s.(decoding := None, kind := "", mode := Stopped)
  }

  function AfterReady(s: State, kind: string, world: World): State {
    if kind in s.cache then AfterBegin(s, world)
    else if kind == WHITE_NOISE then AfterBegin(s.(cache := s.cache + {kind}), world)
    else if world.decodes then s.(decoding := Some(kind))
    else AfterGiveUp(s)
  }

  function AfterResume(s: State, world: World): State {
    if s.mode != Paused then s
    else if !Open(s) then AfterReady(s.(mode := Loading), s.kind, world)
    else AfterFade(s.(after := Nothing, mode := Playing, sink := Running), 1.0)
  }

  function AfterStop(s: State): State {
    var t := s.(kind := "", decoding := None);
    if s.mode == Stopped then t
    else if !Open(s) || s.fadeMs <= 0 || s.mode == Paused then AfterDropSink(t.(mode := Stopped))
    else AfterFade(t.(mode := Stopped, after := Stop), 0.0)
  }

  function AfterPlay(s: State, kind: string, world: World): State {
    if kind !in SOUNDS then AfterStop(s)
    else if kind == s.kind && s.mode in {Playing, Loading} then s
    else if kind == s.kind && s.mode == Paused then AfterResume(s, world)
    else AfterReady(AfterDropSink(s).(kind := kind, mode := Loading), kind, world)
  }

  function AfterPause(s: State): State {
    if s.mode == Loading then s.(mode := Paused)
    else if s.mode != Playing then s
    else if !Open(s) then s.(mode := Paused)
    else AfterFade(s.(mode := Paused, after := Suspend), 0.0)
  }

  /** The decoder says it is done; `enough` is whether it gave a second of sound. */
  function AfterDecoded(s: State, enough: bool, world: World): State {
    if s.decoding.None? then s
    else if !enough then AfterGiveUp(s)
    else
      var kind := s.decoding.value;
      var t := s.(decoding := None, cache := s.cache + {kind});
      if s.kind == kind && s.mode == Loading then AfterBegin(t, world) else t
  }

  /** What a player is made with. */
  predicate Same(s: State, t: State) {
    t.fadeMs == s.fadeMs && t.silent == s.silent
  }

  function Toward(ramp: real, target: real, distance: real): real {
    if ramp < target then (if ramp + distance < target then ramp + distance else target)
    else if ramp - distance > target then ramp - distance
    else target
  }

  /** One tick of the fade's timer. */
  function AfterTick(s: State): (t: State)
    requires s.timer ==> s.fadeMs > 0
    ensures Same(s, t)
  {
    if !s.timer then s
    else
      var t := s.(ramp := Toward(s.ramp, s.rampTo, FADE_STEP_MS as real / s.fadeMs as real));
      if t.ramp == t.rampTo then AfterArrive(t.(timer := false)) else t
  }

  function AfterFinishFade(s: State): State
    requires s.timer ==> s.fadeMs > 0
  {
    if s.timer then AfterTick(s.(ramp := s.rampTo)) else s
  }

  // ----- Runs -----

  datatype Event =
    | Play(kind: string, world: World)
    | Pause
    | Resume(world: World)
    | StopIt
    | Tick
    | FinishFade
    | Decoded(enough: bool, world: World)
    | DecodeFailed

  function Next(s: State, e: Event): State
    requires s.timer ==> s.fadeMs > 0
  {
    match e
    case Play(kind, world) => AfterPlay(s, kind, world)
    case Pause => AfterPause(s)
    case Resume(world) => AfterResume(s, world)
    case StopIt => AfterStop(s)
    case Tick => AfterTick(s)
    case FinishFade => AfterFinishFade(s)
    case Decoded(enough, world) => AfterDecoded(s, enough, world)
    case DecodeFailed => AfterGiveUp(s)
  }

  /** One sink at most and none while loading; the ramp between silence and full; a fade only on an open
      sink, and once it has ended nothing is left waiting for it. */
  predicate Safe(s: State) {
    && s.begun - s.ended == (if Open(s) then 1 else 0)
    && (s.mode == Loading ==> !Open(s))
    && 0.0 <= s.ramp <= 1.0 && s.rampTo in {0.0, 1.0}
    && (s.timer ==> Open(s) && s.fadeMs > 0)
    && (!s.timer ==> s.after == Nothing)
    && (Open(s) && !s.timer ==> s.ramp == s.rampTo)
    && (s.after != Nothing ==> s.rampTo == 0.0)
    && (s.mode == Playing && Open(s) ==> s.rampTo == 1.0 && s.sink == Running)
    && (s.mode == Paused && s.sink == Running ==> s.timer && s.after == Suspend)
  }

  lemma BeginSafe(s: State, world: World)
    requires Safe(s) && !Open(s)
    ensures Safe(AfterBegin(s, world)) && Same(s, AfterBegin(s, world))
  {
  }

  lemma ReadySafe(s: State, kind: string, world: World)
    requires Safe(s) && !Open(s)
    ensures Safe(AfterReady(s, kind, world)) && Same(s, AfterReady(s, kind, world))
  {
    hide AfterBegin;
    BeginSafe(s, world);
    BeginSafe(s.(cache := s.cache + {kind}), world);
  }

  lemma ResumeSafe(s: State, world: World)
    requires Safe(s)
    ensures Safe(AfterResume(s, world)) && Same(s, AfterResume(s, world))
  {
    hide AfterReady;
    if !Open(s) {
      ReadySafe(s.(mode := Loading), s.kind, world);
    }
  }

  lemma StopSafe(s: State)
    requires Safe(s)
    ensures Safe(AfterStop(s)) && Same(s, AfterStop(s))
  {
  }

  lemma PlaySafe(s: State, kind: string, world: World)
    requires Safe(s)
    ensures Safe(AfterPlay(s, kind, world)) && Same(s, AfterPlay(s, kind, world))
  {
    hide AfterReady, AfterResume, AfterStop;
    StopSafe(s);
    ResumeSafe(s, world);
    ReadySafe(AfterDropSink(s).(kind := kind, mode := Loading), kind, world);
  }

  lemma DecodedSafe(s: State, enough: bool, world: World)
    requires Safe(s)
    ensures Safe(AfterDecoded(s, enough, world)) && Same(s, AfterDecoded(s, enough, world))
  {
    hide AfterBegin;
    if s.decoding.Some? && s.mode == Loading {
      BeginSafe(s.(decoding := None, cache := s.cache + {s.decoding.value}), world);
    }
  }

  lemma TickSafe(s: State)
    requires Safe(s)
    ensures Safe(AfterTick(s)) && Same(s, AfterTick(s))
  {
  }

  lemma EventKeepsSafe(s: State, e: Event)
    requires Safe(s)
    ensures Safe(Next(s, e)) && Same(s, Next(s, e))
  {
    hide AfterPlay, AfterResume, AfterStop, AfterDecoded, AfterTick;
    match e
    case Play(kind, world) => PlaySafe(s, kind, world);
    case Resume(world) => ResumeSafe(s, world);
    case StopIt => StopSafe(s);
    case Tick => TickSafe(s);
    case FinishFade => TickSafe(if s.timer then s.(ramp := s.rampTo) else s);
    case Decoded(enough, world) => DecodedSafe(s, enough, world);
    case _ =>
  }

  function Run(s: State, events: seq<Event>): (t: State)
    requires Safe(s)
    ensures Safe(t) && Same(s, t)
    decreases events
  {
    if events == [] then s
    else
      EventKeepsSafe(s, events[0]);
      Run(Next(s, events[0]), events[1..])
  }

  /** In every run from a new player at most one sink is open, none while a sound loads, and the ramp stays
      between silence and full. */
  lemma EveryRunIsSafe(fadeMs: int, silent: bool, events: seq<Event>)
    ensures var s := Run(New(fadeMs, silent), events);
            && s.ended <= s.begun <= s.ended + 1
            && (s.begun == s.ended + 1 <==> Open(s))
            && (s.mode == Loading ==> !Open(s))
            && 0.0 <= s.ramp <= 1.0
  {
  }

  // ----- Fades -----

  /** `count` ticks with nothing else between them. */
  function Ticks(s: State, count: nat): State
    requires s.fadeMs > 0
    decreases count
  {
    if count == 0 then s else Ticks(AfterTick(s), count - 1)
  }

  function Gap(s: State): real {
    if s.ramp < s.rampTo then s.rampTo - s.ramp else s.ramp - s.rampTo
  }

  /** A tick brings the ramp one step nearer, or there. */
  lemma TickNears(s: State)
    requires Safe(s) && s.timer
    ensures var t := AfterTick(s);
            && t.mode == s.mode
            && (t.timer ==> t == s.(ramp := t.ramp) && Gap(t) > 0.0
                            && Gap(t) * s.fadeMs as real == Gap(s) * s.fadeMs as real - FADE_STEP_MS as real)
            && (!t.timer ==> t.ramp == s.rampTo && t.sink == AfterArrive(s).sink)
  {
    var t := AfterTick(s);
    var distance := FADE_STEP_MS as real / s.fadeMs as real;
    if t.timer {
      assert Gap(t) == Gap(s) - distance;
      Distributes(Gap(s), distance, s.fadeMs as real);
      assert distance * s.fadeMs as real == FADE_STEP_MS as real;
    }
  }

  lemma Distributes(a: real, b: real, c: real)
    ensures (a - b) * c == a * c - b * c
  {
  }

  lemma {:induction false} FadeEndsWithin(s: State, count: nat)
    requires Safe(s) && s.timer
    requires Gap(s) * s.fadeMs as real <= (count * FADE_STEP_MS) as real
    requires count > 0
    ensures var t := Ticks(s, count);
            && !t.timer && t.mode == s.mode
            && t.ramp == s.rampTo
            && t.sink == AfterArrive(s).sink
    decreases count
  {
    TickSafe(s);
    TickNears(s);
    hide AfterTick, Safe, Gap;
    var next := AfterTick(s);
    if next.timer {
      PositiveProduct(Gap(next), s.fadeMs as real);
      SameArrival(s, next.ramp);
      FadeEndsWithin(next, count - 1);
    } else {
      NoMoreTicks(next, count - 1);
    }
  }

  lemma SameArrival(s: State, ramp: real)
    ensures AfterArrive(s.(ramp := ramp)).sink == AfterArrive(s).sink
  {
  }

  lemma PositiveProduct(a: real, b: real)
    requires a > 0.0 && b > 0.0
    ensures a * b > 0.0
  {
  }

  lemma {:induction false} NoMoreTicks(s: State, count: nat)
    requires s.fadeMs > 0 && !s.timer
    ensures Ticks(s, count) == s
    decreases count
  {
    if count > 0 {
      NoMoreTicks(s, count - 1);
    }
  }

  /** As many ticks as steps of 35 ms make up the fade. */
  function FadeTicks(fadeMs: int): nat
    requires fadeMs > 0
  {
    (fadeMs + FADE_STEP_MS - 1) / FADE_STEP_MS
  }

  /** Every fade is over within its own number of ticks, and then a pausing player's sink is suspended, a
      stopping one's closed, and any other's left as it is. */
  lemma EveryFadeEnds(s: State)
    requires Safe(s) && s.timer
    ensures var t := Ticks(s, FadeTicks(s.fadeMs));
            && FadeTicks(s.fadeMs) * 35 < s.fadeMs + 35
            && !t.timer && t.ramp == s.rampTo
            && t.sink == (if s.after == Suspend && s.mode == Paused then Suspended
                          else if s.after == Stop && s.mode == Stopped then Closed else s.sink)
  {
    var count := FadeTicks(s.fadeMs);
    assert count * FADE_STEP_MS >= s.fadeMs;
    assert Gap(s) <= 1.0;
    assert Gap(s) * s.fadeMs as real <= s.fadeMs as real;
    FadeEndsWithin(s, count);
  }

  // ----- What was asked for is heard -----

  /** A loading player has a decoder at work on its own sound, a playing one has its sound, and a silent one
      opens no sink. */
  predicate Underway(s: State) {
    && (if s.mode == Stopped then s.kind == "" else s.kind in SOUNDS)
    && (s.mode == Loading ==> s.decoding == Some(s.kind) && s.kind !in s.cache)
    && (s.mode == Playing || (s.mode == Paused && Open(s)) ==> s.kind in s.cache)
    && (s.silent ==> !Open(s))
  }

  lemma BeginUnderway(s: State, world: World)
    requires s.kind in SOUNDS && (s.silent ==> !Open(s)) && s.kind in s.cache
    ensures Underway(AfterBegin(s, world)) && AfterBegin(s, world).mode == Playing
  {
  }

  lemma ReadyUnderway(s: State, world: World)
    requires s.kind in SOUNDS && !Open(s)
    ensures Underway(AfterReady(s.(mode := Loading), s.kind, world))
  {
    hide AfterBegin;
    if s.kind in s.cache {
      BeginUnderway(s.(mode := Loading), world);
    } else if s.kind == WHITE_NOISE {
      BeginUnderway(s.(mode := Loading, cache := s.cache + {s.kind}), world);
    }
  }

  lemma EventKeepsUnderway(s: State, e: Event)
    requires Safe(s) && Underway(s)
    ensures Underway(Next(s, e))
  {
    hide AfterReady, AfterBegin;
    match e
    case Play(kind, world) =>
      if kind in SOUNDS {
        ReadyUnderway(AfterDropSink(s).(kind := kind), world);
        if s.mode == Paused && !Open(s) {
          ReadyUnderway(s, world);
        }
      }
    case Resume(world) =>
      if s.mode == Paused && !Open(s) {
        ReadyUnderway(s, world);
      }
    case Decoded(enough, world) =>
      if s.decoding.Some? && s.mode == Loading {
        BeginUnderway(s.(decoding := None, cache := s.cache + {s.decoding.value}), world);
      }
    case _ =>
  }

  lemma {:induction false} RunsAreUnderway(s: State, events: seq<Event>)
    requires Safe(s) && Underway(s)
    ensures Underway(Run(s, events))
    decreases events
  {
    assert s.timer ==> s.fadeMs > 0;
    hide Safe, Underway, Next;
    if events != [] {
      EventKeepsSafe(s, events[0]);
      EventKeepsUnderway(s, events[0]);
      RunsAreUnderway(Next(s, events[0]), events[1..]);
    }
  }

  /** The player once the fade in progress is over, with nothing else happening meanwhile. */
  function Faded(s: State): State
    requires Safe(s)
  {
    if s.timer then Ticks(s, FadeTicks(s.fadeMs)) else s
  }

  /** The sound is on, and at full once the fade is over. */
  predicate Sounds(s: State)
    requires Safe(s)
  {
    s.mode == Playing && s.sink == Running && Faded(s).mode == Playing && Faded(s).sink == Running
    && Faded(s).ramp == 1.0
  }

  lemma PlayingSounds(s: State)
    requires Safe(s) && s.mode == Playing && Open(s)
    ensures Sounds(s)
  {
    if s.timer {
      TicksKeepMode(s, FadeTicks(s.fadeMs));
      hide Ticks;
      EveryFadeEnds(s);
    }
  }

  lemma {:induction false} TicksKeepMode(s: State, count: nat)
    requires Safe(s) && s.fadeMs > 0
    ensures Ticks(s, count).mode == s.mode
    decreases count
  {
    if count > 0 {
      TickSafe(s);
      TicksKeepMode(AfterTick(s), count - 1);
    }
  }

  /** In every run a player that is loading plays its sound as soon as the decoder at work on it is done: it
      is heard, and at full once it has faded in, whenever a sink opens and sound is on. Any other player only
      keeps the sound: one paused meanwhile stays silent, and one that plays another goes on. */
  lemma LoadingIsHeard(fadeMs: int, silent: bool, events: seq<Event>, world: World)
    ensures var s := Run(New(fadeMs, silent), events);
            var t := Next(s, Decoded(true, world));
            && Safe(t) && t.kind == s.kind && (s.decoding.Some? ==> s.decoding.value in t.cache)
            && (s.mode == Loading ==>
                  && s.decoding == Some(s.kind) && s.kind in SOUNDS && t.mode == Playing
                  && (Sounds(t) <==> !silent && world.opens)
                  && (Sounds(t) ==> t.begun == s.begun + 1 && (fadeMs > 0 ==> t.ramp == 0.0)))
            && (s.mode != Loading ==>
                  t.mode == s.mode && t.sink == s.sink && t.ramp == s.ramp && t.rampTo == s.rampTo
                  && t.timer == s.timer && t.after == s.after)
  {
    var s := Run(New(fadeMs, silent), events);
    RunsAreUnderway(New(fadeMs, silent), events);
    var t := Next(s, Decoded(true, world));
    EventKeepsSafe(s, Decoded(true, world));
    if s.mode == Loading {
      DecodedBegins(s, world);
      if Open(t) {
        PlayingSounds(t);
      }
    }
  }

  lemma DecodedBegins(s: State, world: World)
    requires Safe(s) && s.mode == Loading && s.decoding == Some(s.kind)
    ensures var t := AfterDecoded(s, true, world);
            && t.mode == Playing && t.kind == s.kind && (Open(t) <==> !s.silent && world.opens)
            && (Open(t) ==> t.begun == s.begun + 1 && (s.fadeMs > 0 ==> t.ramp == 0.0))
  {
  }

  /** A sound the player has, or can make, is heard as soon as it is asked for; any other is loaded when a
      decoder can be set up, and without one the player is stopped with no sink. What is already playing or
      loading goes on as it was. */
  lemma PlayIsHeard(s: State, kind: string, world: World)
    requires Safe(s) && Underway(s) && kind in SOUNDS
    ensures var t := AfterPlay(s, kind, world);
            && Safe(t)
            && (kind == s.kind && s.mode in {Playing, Loading} ==> t == s)
            && (!(kind == s.kind && s.mode in {Playing, Loading}) ==>
                  if kind == s.kind && s.mode == Paused && Open(s) then
                    Sounds(t) && t.kind == kind && t.begun == s.begun
                  else if kind in s.cache || kind == WHITE_NOISE then
                    t.mode == Playing && t.kind == kind && (Sounds(t) <==> !s.silent && world.opens)
                    && (Sounds(t) && s.fadeMs > 0 ==> t.ramp == 0.0)
                  else if world.decodes then t.mode == Loading && t.kind == kind && t.decoding == Some(kind)
                  else t.mode == Stopped && !Open(t))
  {
    PlaySafe(s, kind, world);
    hide Safe, Faded, Sounds, AfterReady;
    var t := AfterPlay(s, kind, world);
    if t.mode == Playing && Open(t) {
      PlayingSounds(t);
    } else {
      ClosedIsQuiet(t);
    }
    ReadyIs(AfterDropSink(s).(kind := kind, mode := Loading), world);
    if !Open(s) {
      ReadyIs(s.(mode := Loading), world);
    }
  }

  lemma ClosedIsQuiet(s: State)
    requires Safe(s) && (s.mode != Playing || !Open(s))
    ensures !Sounds(s)
  {
  }

  lemma ReadyIs(s: State, world: World)
    requires s.mode == Loading && !Open(s)
    ensures var t := AfterReady(s, s.kind, world);
            if s.kind in s.cache || s.kind == WHITE_NOISE then
              t.mode == Playing && t.kind == s.kind && (Open(t) <==> !s.silent && world.opens)
              && (Open(t) && s.fadeMs > 0 ==> t.ramp == 0.0)
            else if world.decodes then t == s.(decoding := Some(s.kind))
            else t.mode == Stopped && !Open(t)
  {
  }

  /** A pause is heard out: the fade goes down and the sink is held. A stop, or a sound there is none of, forgets
      the sound and its decoder and closes the sink. */
  lemma PausesAndStops(s: State, other: string, world: World)
    requires Safe(s) && Underway(s) && s.mode != Stopped && other !in SOUNDS
    ensures var paused, stopped := AfterPause(s), AfterStop(s);
            && Safe(paused) && Safe(stopped)
            && paused.mode == Paused && paused.kind == s.kind && paused.decoding == s.decoding
            && (s.mode == Playing && Open(s) ==> Faded(paused).sink == Suspended && Faded(paused).ramp == 0.0)
            && (Open(paused) <==> Open(s))
            && stopped.mode == Stopped && stopped.kind == "" && stopped.decoding.None? && !Open(Faded(stopped))
            && AfterPlay(s, other, world) == stopped
  {
    EventKeepsSafe(s, Pause);
    EventKeepsSafe(s, StopIt);
    var paused, stopped := AfterPause(s), AfterStop(s);
    if paused.timer {
      EveryFadeEnds(paused);
    }
    if stopped.timer {
      EveryFadeEnds(stopped);
    }
    hide Ticks, FadeTicks;
  }

  /** A resume brings a held sound back to full, and plays one that was paused before it could be heard, loading
      it again if the player still does not have it. */
  lemma ResumeIsHeard(s: State, world: World)
    requires Safe(s) && Underway(s) && s.mode == Paused
    ensures var t := AfterResume(s, world);
            && Safe(t)
            && if Open(s) then Sounds(t) && t.kind == s.kind && t.begun == s.begun
               else if s.kind in s.cache || s.kind == WHITE_NOISE then
                 t.mode == Playing && t.kind == s.kind && (Sounds(t) <==> !s.silent && world.opens)
               else if world.decodes then t.mode == Loading && t.kind == s.kind && t.decoding == Some(s.kind)
               else t.mode == Stopped && !Open(t)
  {
    ResumeSafe(s, world);
    hide Safe, Faded, Sounds, AfterReady;
    var t := AfterResume(s, world);
    if !Open(s) {
      ReadyIs(s.(mode := Loading), world);
    }
    if t.mode == Playing && Open(t) {
      PlayingSounds(t);
    } else {
      ClosedIsQuiet(t);
    }
  }

  /** What waited for the end of a fade happens only if the player still wants it then. */
  lemma WaitingActsOnlyIfAsked(s: State, e: Event)
    requires Safe(s) && (e.Tick? || e.FinishFade?)
    requires Next(s, e).sink != s.sink
    ensures (s.mode == Paused && s.after == Suspend && Next(s, e).sink == Suspended)
         || (s.mode == Stopped && s.after == Stop && Next(s, e).sink == Closed)
  {
  }

  // ----- Stopped with a sink -----

  /** A stopped player has no sink, or is fading it out to close it. */
  predicate Quiet(s: State) {
    s.mode == Stopped && Open(s) ==> s.timer && s.after == Stop
  }

  /** A decode that fails, or gives too little, for a sound that is not the one playing. */
  predicate GivesUpLate(s: State, e: Event) {
    && (e.DecodeFailed? || (e.Decoded? && !e.enough && s.decoding.Some?))
    && Open(s) && s.after != Stop
  }

  /** A stopped player is quiet after every event but one: a decode failure that arrives while a sink is open.
      The player then says it has stopped, and the sink goes on. */
  lemma QuietUnlessDecodingFailsLate(s: State, e: Event)
    requires Safe(s) && Quiet(s)
    ensures Quiet(Next(s, e)) <==> !GivesUpLate(s, e)
  {
    hide AfterReady, AfterBegin;
    match e
    case Tick => {
      if s.timer {
        TickQuiet(s);
      }
    }
    case FinishFade => {
      if s.timer {
        TickQuiet(s.(ramp := s.rampTo));
      }
    }
    case Play(kind, world) => {
      if kind in SOUNDS {
        ReadyQuiet(AfterDropSink(s).(kind := kind, mode := Loading), kind, world);
        ReadyQuiet(s.(mode := Loading), s.kind, world);
      }
    }
    case Resume(world) => ReadyQuiet(s.(mode := Loading), s.kind, world);
    case Decoded(enough, world) => {
      if s.decoding.Some? {
        BeginQuiet(s.(decoding := None, cache := s.cache + {s.decoding.value}), world);
      }
    }
    case _ =>
  }

  lemma BeginQuiet(s: State, world: World)
    requires s.mode == Loading ==> !Open(s)
    ensures s.mode == Loading ==> Quiet(AfterBegin(s, world))
  {
  }

  lemma ReadyQuiet(s: State, kind: string, world: World)
    ensures s.mode == Loading && !Open(s) ==> Quiet(AfterReady(s, kind, world))
  {
  }

  lemma TickQuiet(s: State)
    requires Safe(s) && Quiet(s) && s.timer
    ensures Quiet(AfterTick(s))
  {
  }

  /** Then Stop does not reach the sink: only starting another sound closes it. */
  lemma StopCannotReachIt(s: State, e: Event)
    requires Safe(s) && s.mode == Stopped && Open(s) && s.after != Stop
    ensures !Open(Next(s, e)) || Next(s, e).begun > s.begun <==> e.Play? && e.kind in SOUNDS
  {
    hide AfterReady;
    if e.Play? && e.kind in SOUNDS {
      assert s.mode == Stopped;
      ReadyCounts(AfterDropSink(s).(kind := e.kind, mode := Loading), e.kind, e.world);
    }
  }

  const FINE := World(true, true)

  /** A run: rain is being decoded when the student changes to white noise, which plays at once; then the
      decoder of the rain fails. The player says it has stopped and the noise goes on, through Stop as well. */
  lemma TheNoiseGoesOn(fadeMs: nat)
    ensures var late := Run(New(fadeMs, false), [Play("rain", FINE), Play("white-noise", FINE), DecodeFailed]);
            && late.mode == Stopped && late.sink == Running && !Quiet(late)
            && Next(late, StopIt).mode == Stopped && Next(late, StopIt).sink == Running
  {
    var one := Next(New(fadeMs, false), Play("rain", FINE));
    assert one.mode == Loading && one.decoding == Some("rain") && one.kind == "rain" && one.sink == Closed;
    var two := Next(one, Play("white-noise", FINE));
    assert two.mode == Playing && two.sink == Running && two.after == Nothing;
    var three := Next(two, DecodeFailed);
    var events := [Play("rain", FINE), Play("white-noise", FINE), DecodeFailed];
    assert events[1..][0] == events[1] && events[1..][1..] == [DecodeFailed] && [DecodeFailed][1..] == [];
    assert Run(three, []) == three;
    assert Run(two, [DecodeFailed]) == three;
    assert Run(one, events[1..]) == three;
  }

  lemma ReadyCounts(s: State, kind: string, world: World)
    requires !Open(s)
    ensures !Open(AfterReady(s, kind, world)) || AfterReady(s, kind, world).begun > s.begun
  {
  }

  // ----- The player itself -----

  class Player {
    const fadeMs: int
    const silent: bool
    var mode: Mode
    var kind: string
    var cache: set<string>
    var decoding: Option<string>
    var sink: Sink
    var ramp: real
    var rampTo: real
    var after: After
    var timer: bool
    var begun: nat
    var ended: nat

    function All(): State
      reads this
    {
      State(fadeMs, silent, mode, kind, cache, decoding, sink, ramp, rampTo, after, timer, begun, ended)
    }

    constructor (fade: int, quiet: bool)
      ensures All() == New(fade, quiet)
    {
      fadeMs, silent, mode, kind, cache, decoding := fade, quiet, Stopped, "", {}, None;
      sink, ramp, rampTo, after, timer, begun, ended := Closed, 0.0, 0.0, Nothing, false, 0, 0;
    }

    method DropSink()
      modifies this`timer, this`after, this`sink, this`ended
      ensures All() == AfterDropSink(old(All()))
    {
      timer := false;
      after := Nothing;
      if sink != Closed {
        ended := ended + 1;
      }
      sink := Closed;
    }

    method Arrive()
      modifies this`timer, this`after, this`sink, this`ended
      ensures All() == AfterArrive(old(All()))
    {
      var waiting := after;
      after := Nothing;
      if waiting == Suspend && sink != Closed && mode == Paused {
        sink := Suspended;
      } else if waiting == Stop && mode == Stopped {
        DropSink();
      }
    }

    method Fade(target: real)
      modifies this`rampTo, this`ramp, this`timer, this`after, this`sink, this`ended
      ensures All() == AfterFade(old(All()), target)
    {
      rampTo := target;
      if fadeMs <= 0 || sink == Closed {
        ramp := target;
        Arrive();
        return;
      }
      timer := true;
    }

    method Begin(world: World)
      modifies this
      ensures All() == AfterBegin(old(All()), world)
    {
      if kind !in cache {
        return;
      }
      mode := Playing;
      if silent || !world.opens {
        return;
      }
      sink := Running;
      begun := begun + 1;
      ramp := 0.0;
      after := Nothing;
      Fade(1.0);
    }

    method GiveUp()
      modifies this`decoding, this`kind, this`mode
      ensures All() == AfterGiveUp(old(All()))
    {
      decoding := None;
      kind := "";
      mode := Stopped;
    }

    method Ready(sound: string, world: World)
      modifies this
      ensures All() == AfterReady(old(All()), sound, world)
    {
      hide AfterBegin;
      if sound in cache {
        Begin(world);
      } else if sound == WHITE_NOISE {
        cache := cache + {sound};
        Begin(world);
      } else if !world.decodes {
        GiveUp();
      } else {
        decoding := Some(sound);
      }
    }

    method PlaySound(sound: string, world: World)
      modifies this
      ensures All() == AfterPlay(old(All()), sound, world)
    {
      hide AfterReady, AfterResume, AfterStop;
      if sound !in SOUNDS {
        StopSound();
        return;
      }
      if sound == kind && (mode == Playing || mode == Loading) {
        return;
      }
      if sound == kind && mode == Paused {
        ResumeSound(world);
        return;
      }
      DropSink();
      kind := sound;
      mode := Loading;
      Ready(sound, world);
    }

    method PauseSound()
      modifies this
      ensures All() == AfterPause(old(All()))
    {
      hide AfterFade;
      if mode == Loading {
        mode := Paused;
        return;
      }
      if mode != Playing {
        return;
      }
      mode := Paused;
      if sink == Closed {
        return;
      }
      after := Suspend;
      Fade(0.0);
    }

    method ResumeSound(world: World)
      modifies this
      ensures All() == AfterResume(old(All()), world)
    {
      hide AfterFade, AfterReady;
      if mode != Paused {
        return;
      }
      if sink == Closed {
        mode := Loading;
        Ready(kind, world);
        return;
      }
      after := Nothing;
      mode := Playing;
      sink := Running;
      Fade(1.0);
    }

    method StopSound()
      modifies this
      ensures All() == AfterStop(old(All()))
    {
      hide AfterFade, AfterDropSink;
      var was := mode;
      kind := "";
      decoding := None;
      if was == Stopped {
        return;
      }
      mode := Stopped;
      if sink == Closed || fadeMs <= 0 || was == Paused {
        DropSink();
        return;
      }
      after := Stop;
      Fade(0.0);
    }

    method Step()
      requires timer && fadeMs > 0
      modifies this`ramp, this`timer, this`after, this`sink, this`ended
      ensures All() == AfterTick(old(All()))
    {
      hide AfterArrive;
      var distance := FADE_STEP_MS as real / fadeMs as real;
      if ramp < rampTo {
        ramp := if ramp + distance < rampTo then ramp + distance else rampTo;
      } else {
        ramp := if ramp - distance > rampTo then ramp - distance else rampTo;
      }
      if ramp == rampTo {
        timer := false;
        Arrive();
      }
    }

    method FinishFade()
      requires timer ==> fadeMs > 0
      modifies this`ramp, this`timer, this`after, this`sink, this`ended
      ensures All() == AfterFinishFade(old(All()))
    {
      hide AfterTick;
      if timer {
        ramp := rampTo;
        Step();
      }
    }

    method DecodeDone(enough: bool, world: World)
      modifies this
      ensures All() == AfterDecoded(old(All()), enough, world)
    {
      hide AfterBegin;
      if decoding.None? {
        return;
      }
      var sound := decoding.value;
      decoding := None;
      if !enough {
        GiveUp();
        return;
      }
      cache := cache + {sound};
      if kind == sound && mode == Loading {
        Begin(world);
      }
    }
  }
}
