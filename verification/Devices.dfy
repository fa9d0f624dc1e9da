/** Calls made off the window's thread, and the one sync service started by them. */
module Devices {
  import opened Basics

  // ----- One call, two threads -----

  type Owner = nat
  type CallId = nat

  /** How far the worker's own thread is. */
  datatype Worker = Working | Emitted | Ended

  datatype Side = WindowThread | WorkerThread

  /** `held` is the window's own hold on the answer; `posted` and `retry` are turns of the window's thread
      still to come; `freedOn` is the thread that let the answer go for good. */
  datatype Call = Call(owner: Owner, target: Owner, worker: Worker, held: bool, posted: bool, retry: bool,
                       delivered: bool, freedOn: Option<Side>)

  /** A `done` that ran, and whether what it belongs to was alive. */
  datatype Told = Told(call: CallId, alive: bool)

  datatype Threads = Threads(alive: set<Owner>, calls: map<CallId, Call>, told: seq<Told>)

  datatype Turn =
    | Start(call: CallId, owner: Owner, target: Owner)
    | WorkDone(call: CallId)
    | WorkerEnds(call: CallId)
    | Deliver(call: CallId)
    | Retry(call: CallId)
    | Dies(owner: Owner)

  predicate Enabled(t: Threads, turn: Turn) {
    match turn
    case Start(call, owner, target) => call !in t.calls && owner in t.alive && target in t.alive
    case WorkDone(call) => call in t.calls && t.calls[call].worker == Working
    case WorkerEnds(call) => call in t.calls && t.calls[call].worker == Emitted
    case Deliver(call) => call in t.calls && t.calls[call].posted
    case Retry(call) => call in t.calls && t.calls[call].retry
    case Dies(owner) => owner in t.alive
  }

  /** The window asks for another turn while the worker is alive, and lets go once it has ended. */
  function Released(c: Call): Call {
    if c.worker != Ended then c.(retry := true)
    else c.(held := false, retry := false, freedOn := if c.freedOn.None? then Some(WindowThread) else c.freedOn)
  }

  function Step(t: Threads, turn: Turn): Threads
    requires Enabled(t, turn)
  {
    match turn
    case Start(call, owner, target) =>
      t.(calls := t.calls[call := Call(owner, target, Working, true, false, false, false, None)])
    // On the worker: the signal is queued for the window's thread, if the answer is still there to emit it.
    case WorkDone(call) =>
      t.(calls := t.calls[call := t.calls[call].(worker := Emitted, posted := t.calls[call].freedOn.None?)])
    // On the worker: its own hold on the answer goes, and with it the answer, were nobody else holding it.
    case WorkerEnds(call) =>
      var c := t.calls[call];
      t.(calls := t.calls[call := c.(worker := Ended, freedOn := if c.held || c.freedOn.Some? then c.freedOn
                                                                 else Some(WorkerThread))])
    // On the window's thread.
    case Deliver(call) =>
      var c := t.calls[call];
      var living := c.owner in t.alive && c.target in t.alive;
      Threads(t.alive, t.calls[call := Released(c.(posted := false, delivered := true))],
              if living then t.told + [Told(call, c.owner in t.alive && c.target in t.alive)] else t.told)
    case Retry(call) => t.(calls := t.calls[call := Released(t.calls[call].(retry := false))])
    case Dies(owner) => t.(alive := t.alive - {owner})
  }

  function Run(t: Threads, turns: seq<Turn>): Threads
    decreases turns
  {
    if turns == [] || !Enabled(t, turns[0]) then t else Run(Step(t, turns[0]), turns[1..])
  }

  /** One call between turns: held until the worker has ended and the window has let go; never let go by the
      worker; and until then there is always a turn to come that leads there. */
  predicate CallSound(c: Call) {
    && (c.freedOn.None? <==> c.held)
    && (c.freedOn.Some? ==> c.worker == Ended && c.freedOn == Some(WindowThread) && c.delivered)
    && (c.posted <==> c.worker != Working && !c.delivered)
    && (c.delivered ==> c.worker != Working)
    && (c.retry <==> c.delivered && c.held)
  }

  ghost predicate Sound(t: Threads) {
    && (forall call <- t.calls :: CallSound(t.calls[call]))
    && (forall i :: 0 <= i < |t.told| ==>
          t.told[i].alive && t.told[i].call in t.calls && t.calls[t.told[i].call].delivered)
    && (forall i, j :: 0 <= i < j < |t.told| ==> t.told[i].call != t.told[j].call)
  }

  lemma TurnKeepsSound(t: Threads, turn: Turn)
    requires Sound(t) && Enabled(t, turn)
    ensures Sound(Step(t, turn))
  {
  }

  lemma {:induction false} RunsAreSound(t: Threads, turns: seq<Turn>)
    requires Sound(t)
    ensures Sound(Run(t, turns))
    decreases turns
  {
    if turns != [] && Enabled(t, turns[0]) {
      TurnKeepsSound(t, turns[0]);
      RunsAreSound(Step(t, turns[0]), turns[1..]);
    }
  }

  /** In every interleaving of the window's thread and the workers, an answer is held until its worker has
      ended and is let go on the window's thread, and each `done` runs at most once, while what it belongs
      to is alive. */
  lemma AnswersOutliveTheirWorkers(alive: set<Owner>, turns: seq<Turn>, call: CallId, i: nat, j: nat)
    ensures var t := Run(Threads(alive, map[], []), turns);
            && (call in t.calls ==>
                  && (t.calls[call].worker != Ended ==> t.calls[call].held && t.calls[call].freedOn.None?)
                  && t.calls[call].freedOn != Some(WorkerThread))
            && (i < |t.told| ==> t.told[i].alive)
            && (i < j < |t.told| ==> t.told[i].call != t.told[j].call)
  {
    RunsAreSound(Threads(alive, map[], []), turns);
  }

  /** A worker that has ended is not held for ever: the window has a turn to come for it, and any such turn
      either lets the answer go or is followed by one that does. */
  lemma EndedIsLetGo(t: Threads, call: CallId)
    requires Sound(t) && call in t.calls && t.calls[call].worker == Ended && t.calls[call].held
    ensures Enabled(t, Deliver(call)) || Enabled(t, Retry(call))
    ensures Enabled(t, Deliver(call)) ==> !Step(t, Deliver(call)).calls[call].held
    ensures Enabled(t, Retry(call)) ==> !Step(t, Retry(call)).calls[call].held
  {
  }

  /** Delivering tells `done` exactly when both the owner and what `done` belongs to are still there. */
  lemma ToldExactlyWhenAlive(t: Threads, call: CallId)
    requires Sound(t) && Enabled(t, Deliver(call))
    ensures var c := t.calls[call];
            Step(t, Deliver(call)).told != t.told <==> c.owner in t.alive && c.target in t.alive
    ensures forall i :: 0 <= i < |t.told| ==> t.told[i].call != call
  {
  }

  // ----- The sync service -----

  type Caller = nat
  type Service = nat

  datatype Answer = Answer(caller: Caller, service: Option<Service>)

  /** A start-up's answer being handed out, to those still left. */
  datatype Frame = Frame(service: Option<Service>, left: seq<Caller>)

  datatype Host = Host(service: Option<Service>, waiting: seq<Caller>, frames: seq<Frame>, starting: nat,
                       running: nat, asked: set<Caller>, answers: seq<Answer>)

  const NEW_HOST := Host(None, [], [], 0, 0, {}, [])

  function AfterEnsure(h: Host, caller: Caller): Host {
    var asked := h.(asked := h.asked + {caller});
    if h.service.Some? then asked.(answers := h.answers + [Answer(caller, h.service)])
    else asked.(waiting := h.waiting + [caller], starting := if |h.waiting| == 0 then h.starting + 1 else h.starting)
  }

  /** The start-up is over, with a service or without. A callback may ask again while the rest wait. */
  function AfterStarted(h: Host, service: Option<Service>): Host
    requires h.starting > 0
  {
    h.(service := service, waiting := [], frames := h.frames + [Frame(service, h.waiting)],
       starting := h.starting - 1, running := if service.Some? then h.running + 1 else h.running)
  }

  function AfterReady(h: Host): Host
    requires h.frames != [] && h.frames[|h.frames| - 1].left != []
  {
    var top := h.frames[|h.frames| - 1];
    h.(frames := h.frames[..|h.frames| - 1] + [Frame(top.service, top.left[1..])],
       answers := h.answers + [Answer(top.left[0], top.service)])
  }

  function AfterAllReady(h: Host): Host
    requires h.frames != [] && h.frames[|h.frames| - 1].left == []
  {
    h.(frames := h.frames[..|h.frames| - 1])
  }

  datatype HostEvent = Ensure(caller: Caller) | Started(service: Option<Service>) | Ready | AllReady

  predicate CanHappen(h: Host, e: HostEvent) {
    match e
    case Ensure(caller) => caller !in h.asked
    case Started(_) => h.starting > 0
    case Ready => h.frames != [] && h.frames[|h.frames| - 1].left != []
    case AllReady => h.frames != [] && h.frames[|h.frames| - 1].left == []
  }

  function HostStep(h: Host, e: HostEvent): Host
    requires CanHappen(h, e)
  {
    match e
    case Ensure(caller) => AfterEnsure(h, caller)
    case Started(service) => AfterStarted(h, service)
    case Ready => AfterReady(h)
    case AllReady => AfterAllReady(h)
  }

  function HostRun(h: Host, events: seq<HostEvent>): Host
    decreases events
  {
    if events == [] || !CanHappen(h, events[0]) then h else HostRun(HostStep(h, events[0]), events[1..])
  }

  function Left(frames: seq<Frame>): multiset<Caller> {
    if frames == [] then multiset{} else Left(frames[..|frames| - 1]) + multiset(frames[|frames| - 1].left)
  }

  function Answered(answers: seq<Answer>): multiset<Caller> {
    if answers == [] then multiset{}
    else Answered(answers[..|answers| - 1]) + multiset{answers[|answers| - 1].caller}
  }

  function Places(h: Host): multiset<Caller> {
    multiset(h.waiting) + Left(h.frames) + Answered(h.answers)
  }

  /** Every caller is in exactly one place: waiting, about to be told, or told. A start-up is under way
      exactly while someone waits for it, and there is no service then. */
  ghost predicate HostSound(h: Host) {
    && Places(h) == multiset(h.asked)
    && h.starting == (if h.waiting == [] then 0 else 1)
    && (h.waiting != [] ==> h.service.None?)
    && h.running == (if h.service.Some? then 1 else 0)
    && (forall i :: 0 <= i < |h.answers| ==> h.answers[i].service in {None, h.service})
    && (forall i :: 0 <= i < |h.frames| ==> h.frames[i].service in {None, h.service})
  }

  lemma LastPart<T>(s: seq<T>, x: T)
    ensures (s + [x])[..|s + [x]| - 1] == s && (s + [x])[|s + [x]| - 1] == x
  {
  }

  lemma EnsurePlaces(h: Host, caller: Caller)
    ensures Places(AfterEnsure(h, caller)) == Places(h) + multiset{caller}
  {
    LastPart(h.answers, Answer(caller, h.service));
  }

  lemma StartedPlaces(h: Host, service: Option<Service>)
    requires h.starting > 0
    ensures Places(AfterStarted(h, service)) == Places(h)
  {
    LastPart(h.frames, Frame(service, h.waiting));
  }

  lemma ReadyPlaces(h: Host)
    requires CanHappen(h, Ready)
    ensures Places(AfterReady(h)) == Places(h)
  {
    var top := h.frames[|h.frames| - 1];
    LastPart(h.frames[..|h.frames| - 1], Frame(top.service, top.left[1..]));
    LastPart(h.answers, Answer(top.left[0], top.service));
    assert top.left == [top.left[0]] + top.left[1..];
    assert multiset(top.left) == multiset{top.left[0]} + multiset(top.left[1..]);
  }

  lemma AllReadyPlaces(h: Host)
    requires CanHappen(h, AllReady)
    ensures Places(AfterAllReady(h)) == Places(h)
  {
    assert multiset(h.frames[|h.frames| - 1].left) == multiset{};
  }

  lemma EventKeepsHostSound(h: Host, e: HostEvent)
    requires HostSound(h) && CanHappen(h, e)
    ensures HostSound(HostStep(h, e))
  {
    hide Places;
    match e
    case Ensure(caller) => {
      EnsurePlaces(h, caller);
      assert multiset(h.asked + {caller}) == multiset(h.asked) + multiset{caller};
    }
    case Started(service) => StartedPlaces(h, service);
    case Ready => ReadyPlaces(h);
    case AllReady => AllReadyPlaces(h);
  }

  lemma {:induction false} HostRunsAreSound(h: Host, events: seq<HostEvent>)
    requires HostSound(h)
    ensures HostSound(HostRun(h, events))
    decreases events
  {
    hide HostSound, HostStep, CanHappen;
    if events != [] && CanHappen(h, events[0]) {
      EventKeepsHostSound(h, events[0]);
      HostRunsAreSound(HostStep(h, events[0]), events[1..]);
    }
  }

  lemma {:induction false} CountsAnswers(answers: seq<Answer>, i: nat, j: nat)
    requires i < j < |answers| && answers[i].caller == answers[j].caller
    ensures Answered(answers)[answers[i].caller] >= 2
  {
    var front, last := answers[..|answers| - 1], answers[|answers| - 1];
    if j < |answers| - 1 {
      CountsAnswers(front, i, j);
    } else {
      CountsOne(front, i);
    }
  }

  lemma {:induction false} CountsOne(answers: seq<Answer>, i: nat)
    requires i < |answers|
    ensures answers[i].caller in Answered(answers)
  {
    if i < |answers| - 1 {
      CountsOne(answers[..|answers| - 1], i);
    }
  }

  lemma {:induction false} AnswerFor(answers: seq<Answer>, caller: Caller) returns (i: nat)
    requires caller in Answered(answers)
    ensures i < |answers| && answers[i].caller == caller
  {
    if answers[|answers| - 1].caller == caller {
      i := |answers| - 1;
    } else {
      i := AnswerFor(answers[..|answers| - 1], caller);
    }
  }

  lemma ToldAtMostOnce(h: Host, caller: Caller)
    requires HostSound(h)
    ensures Answered(h.answers)[caller] <= 1
  {
    assert Places(h)[caller] == multiset(h.asked)[caller];
  }

  lemma NewHostIsSound()
    ensures HostSound(NEW_HOST)
  {
    assert Left(NEW_HOST.frames) == multiset{} && Answered(NEW_HOST.answers) == multiset{};
  }

  /** In every run, with callers asking again from inside their callbacks, no two start-ups run at once and
      at most one service is ever started; no caller is told twice; once nothing is waiting or being handed
      out every caller has been told; and each is told the service that runs, or that it did not start. */
  lemma EveryCallerIsToldOnce(events: seq<HostEvent>, i: nat, j: nat, caller: Caller)
    ensures var h := HostRun(NEW_HOST, events);
            && h.starting <= 1 && h.running <= 1
            && (h.starting == 1 <==> h.waiting != [])
            && (i < j < |h.answers| ==> h.answers[i].caller != h.answers[j].caller)
            && (i < |h.answers| ==> h.answers[i].caller in h.asked && h.answers[i].service in {None, h.service})
            && (h.waiting == [] && h.frames == [] && caller in h.asked ==>
                  exists k :: 0 <= k < |h.answers| && h.answers[k].caller == caller)
  {
    NewHostIsSound();
    HostRunsAreSound(NEW_HOST, events);
    var h := HostRun(NEW_HOST, events);
    var all := Places(h);
    if i < j < |h.answers| && h.answers[i].caller == h.answers[j].caller {
      ToldAtMostOnce(h, h.answers[i].caller);
      CountsAnswers(h.answers, i, j);
    }
    if i < |h.answers| {
      CountsOne(h.answers, i);
      assert h.answers[i].caller in all;
    }
    if h.waiting == [] && h.frames == [] && caller in h.asked {
      assert caller in all;
      var k := AnswerFor(h.answers, caller);
    }
  }

  /** The caller has been told `service`, or is about to be. */
  ghost predicate Promised(h: Host, caller: Caller, service: Option<Service>) {
    || Answer(caller, service) in h.answers
    || exists i :: 0 <= i < |h.frames| && h.frames[i].service == service && caller in h.frames[i].left
  }

  lemma StepKeepsPromise(h: Host, e: HostEvent, caller: Caller, service: Option<Service>)
    requires CanHappen(h, e) && Promised(h, caller, service)
    ensures Promised(HostStep(h, e), caller, service)
  {
    var after := HostStep(h, e);
    if Answer(caller, service) in h.answers {
      assert h.answers <= after.answers;
    } else {
      var i :| 0 <= i < |h.frames| && h.frames[i].service == service && caller in h.frames[i].left;
      if e.Ready? && i == |h.frames| - 1 {
        if caller == h.frames[i].left[0] {
          assert after.answers[|h.answers|] == Answer(caller, service);
        } else {
          assert after.frames[i].service == service && caller in after.frames[i].left;
        }
      } else {
        assert after.frames[i] == h.frames[i];
      }
    }
  }

  lemma {:induction false} RunKeepsPromise(h: Host, events: seq<HostEvent>, caller: Caller, service: Option<Service>)
    requires Promised(h, caller, service)
    ensures Promised(HostRun(h, events), caller, service)
    decreases events
  {
    hide Promised, HostStep, CanHappen;
    if events != [] && CanHappen(h, events[0]) {
      StepKeepsPromise(h, events[0], caller, service);
      RunKeepsPromise(HostStep(h, events[0]), events[1..], caller, service);
    }
  }

  lemma {:induction false} CountsLeft(frames: seq<Frame>, i: nat, caller: Caller)
    requires i < |frames| && caller in frames[i].left
    ensures caller in Left(frames)
  {
    if i < |frames| - 1 {
      CountsLeft(frames[..|frames| - 1], i, caller);
    }
  }

  /** Whoever is told or about to be told `service` is told nothing else, now or later. */
  lemma PromiseIsExact(h: Host, caller: Caller, service: Option<Service>, k: nat)
    requires HostSound(h) && Promised(h, caller, service)
    requires k < |h.answers| && h.answers[k].caller == caller
    ensures h.answers[k].service == service
  {
    CountsOne(h.answers, k);
    if Answer(caller, service) in h.answers {
      var i :| 0 <= i < |h.answers| && h.answers[i] == Answer(caller, service);
      ToldAtMostOnce(h, caller);
      if i < k {
        CountsAnswers(h.answers, i, k);
      } else if k < i {
        CountsAnswers(h.answers, k, i);
      }
    } else {
      var i :| 0 <= i < |h.frames| && h.frames[i].service == service && caller in h.frames[i].left;
      CountsLeft(h.frames, i, caller);
      ToldMeansDone(h, caller);
    }
  }

  /** Someone told already is neither waiting nor about to be told. */
  lemma ToldMeansDone(h: Host, caller: Caller)
    requires HostSound(h) && caller in Answered(h.answers)
    ensures caller !in Left(h.frames) && caller !in h.waiting
  {
    assert Places(h)[caller] == multiset(h.asked)[caller];
  }

  /** Each caller who waits when a start-up ends is told exactly its outcome: whatever happens from then on, an
      answer to them has that outcome, and they have one once nothing is being handed out. A caller who asks
      while the service runs is told that service at once, and nothing else ever. */
  lemma EveryCallerIsToldTheOutcome(first: seq<HostEvent>, e: HostEvent, rest: seq<HostEvent>, caller: Caller,
                                    k: nat)
    requires CanHappen(HostRun(NEW_HOST, first), e)
    ensures var before := HostRun(NEW_HOST, first);
            var after := HostRun(HostStep(before, e), rest);
            && (e.Started? && caller in before.waiting ==>
                  && (k < |after.answers| && after.answers[k].caller == caller ==>
                        after.answers[k].service == e.service)
                  && (after.frames == [] ==> Answer(caller, e.service) in after.answers))
            && (e == Ensure(caller) && before.service.Some? ==>
                  && HostStep(before, e).answers == before.answers + [Answer(caller, before.service)]
                  && (k < |after.answers| && after.answers[k].caller == caller ==>
                        after.answers[k].service == before.service))
  {
    hide HostSound, Promised;
    NewHostIsSound();
    HostRunsAreSound(NEW_HOST, first);
    var before := HostRun(NEW_HOST, first);
    EventKeepsHostSound(before, e);
    HostRunsAreSound(HostStep(before, e), rest);
    if e.Started? && caller in before.waiting {
      OutcomeIsPromised(before, e.service, caller);
      Kept(HostStep(before, e), rest, caller, e.service, k);
    } else if e == Ensure(caller) && before.service.Some? {
      ServiceIsTold(before, caller);
      Kept(HostStep(before, e), rest, caller, before.service, k);
    }
  }

  lemma OutcomeIsPromised(h: Host, service: Option<Service>, caller: Caller)
    requires h.starting > 0 && caller in h.waiting
    ensures Promised(AfterStarted(h, service), caller, service)
  {
    assert AfterStarted(h, service).frames[|h.frames|] == Frame(service, h.waiting);
  }

  lemma ServiceIsTold(h: Host, caller: Caller)
    requires h.service.Some?
    ensures Promised(AfterEnsure(h, caller), caller, h.service)
  {
    assert AfterEnsure(h, caller).answers[|h.answers|] == Answer(caller, h.service);
  }

  lemma Kept(h: Host, rest: seq<HostEvent>, caller: Caller, service: Option<Service>, k: nat)
    requires HostSound(HostRun(h, rest)) && Promised(h, caller, service)
    ensures var after := HostRun(h, rest);
            && (k < |after.answers| && after.answers[k].caller == caller ==> after.answers[k].service == service)
            && (after.frames == [] ==> Answer(caller, service) in after.answers)
  {
    hide HostSound;
    RunKeepsPromise(h, rest, caller, service);
    var after := HostRun(h, rest);
    if k < |after.answers| && after.answers[k].caller == caller {
      PromiseIsExact(after, caller, service, k);
    }
  }

  function ToldInTurn(callers: seq<Caller>, service: Option<Service>): seq<Answer> {
    seq(|callers|, i requires 0 <= i < |callers| => Answer(callers[i], service))
  }

  /** With no caller asking in between, those who waited are told in the order they asked. */
  lemma {:induction false} ToldInTheOrderAsked(h: Host, n: nat)
    requires h.frames != [] && n <= |h.frames[|h.frames| - 1].left|
    ensures var top := h.frames[|h.frames| - 1];
            var after := HostRun(h, seq(n, i => Ready));
            && after.answers == h.answers + ToldInTurn(top.left[..n], top.service)
            && after.frames == h.frames[..|h.frames| - 1] + [Frame(top.service, top.left[n..])]
    decreases n
  {
    var top := h.frames[|h.frames| - 1];
    if n > 0 {
      var rest := AfterReady(h);
      LastPart(h.frames[..|h.frames| - 1], Frame(top.service, top.left[1..]));
      assert seq(n, i => Ready)[1..] == seq(n - 1, i => Ready);
      ToldInTheOrderAsked(rest, n - 1);
      assert ToldInTurn(top.left[..n], top.service)
          == [Answer(top.left[0], top.service)] + ToldInTurn(top.left[1..][..n - 1], top.service);
      assert top.left[1..][n - 1..] == top.left[n..];
    } else {
      assert top.left[..0] == [] && top.left[0..] == top.left;
      assert h.frames == h.frames[..|h.frames| - 1] + [top];
    }
  }

  function Asking(callers: seq<Caller>): seq<HostEvent> {
    seq(|callers|, i requires 0 <= i < |callers| => Ensure(callers[i]))
  }

  lemma {:induction false} TheyWaitInOrder(h: Host, callers: seq<Caller>)
    requires h.service.None? && Distinct(callers) && forall caller <- callers :: caller !in h.asked
    ensures var after := HostRun(h, Asking(callers));
            && after.waiting == h.waiting + callers && after.frames == h.frames && after.answers == h.answers
            && after.starting == (if h.waiting == [] && callers != [] then h.starting + 1 else h.starting)
    decreases callers
  {
    if callers != [] {
      var next := AfterEnsure(h, callers[0]);
      assert Asking(callers)[1..] == Asking(callers[1..]);
      forall caller <- callers[1..] ensures caller !in next.asked {
        var i :| 0 <= i < |callers| - 1 && callers[1..][i] == caller;
        assert callers[i + 1] == caller != callers[0];
      }
      TheyWaitInOrder(next, callers[1..]);
      assert h.waiting + [callers[0]] + callers[1..] == h.waiting + callers;
    }
  }

  /** Callers who ask before the start-up ends are told its outcome one by one, in the order they asked. */
  lemma FirstAskedFirstTold(callers: seq<Caller>, service: Option<Service>)
    requires callers != [] && Distinct(callers)
    ensures var asked := HostRun(NEW_HOST, Asking(callers));
            && CanHappen(asked, Started(service))
            && HostRun(HostStep(asked, Started(service)), seq(|callers|, i => Ready)).answers
               == ToldInTurn(callers, service)
  {
    TheyWaitInOrder(NEW_HOST, callers);
    var asked := HostRun(NEW_HOST, Asking(callers));
    assert [] + callers == callers;
    var started := HostStep(asked, Started(service));
    LastPart(asked.frames, Frame(service, callers));
    ToldInTheOrderAsked(started, |callers|);
    assert callers[..|callers|] == callers;
    assert [] + ToldInTurn(callers, service) == ToldInTurn(callers, service);
  }

  /** Someone who waits always has a way to be told: the start-up's answer, or the callbacks before theirs. */
  lemma SomethingIsComing(h: Host)
    requires HostSound(h) && (h.waiting != [] || h.frames != [])
    ensures h.starting == 1 || CanHappen(h, Ready) || CanHappen(h, AllReady)
  {
  }

  class SyncHost {
    var service: Option<Service>
    var waiting: seq<Caller>
    var frames: seq<Frame>
    var starting: nat
    var running: nat
    var asked: set<Caller>
    var answers: seq<Answer>

    function All(): Host
      reads this
    {
      Host(service, waiting, frames, starting, running, asked, answers)
    }

    constructor ()
      ensures All() == NEW_HOST
    {
      service, waiting, frames, starting, running, asked, answers := None, [], [], 0, 0, {}, [];
    }

    method Ensure(caller: Caller)
      modifies this
      ensures All() == AfterEnsure(old(All()), caller)
    {
      asked := asked + {caller};
      if service.Some? {
        answers := answers + [Answer(caller, service)];
        return;
      }
      waiting := waiting + [caller];
      if |waiting| == 1 {
        starting := starting + 1;
      }
    }

    method Started(result: Option<Service>)
      requires starting > 0
      modifies this
      ensures All() == AfterStarted(old(All()), result)
    {
      starting := starting - 1;
      service := result;
      var told := waiting;
      waiting := [];
      if result.Some? {
        running := running + 1;
      }
      frames := frames + [Frame(result, told)];
    }

    method TellNext()
      requires frames != [] && frames[|frames| - 1].left != []
      modifies this`frames, this`answers
      ensures All() == AfterReady(old(All()))
    {
      var top := frames[|frames| - 1];
      frames := frames[..|frames| - 1] + [Frame(top.service, top.left[1..])];
      answers := answers + [Answer(top.left[0], top.service)];
    }
  }
}
