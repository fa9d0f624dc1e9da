/** The client's reply table across account changes: one network manager per epoch, and each old manager
    let go once its last reply has finished. */
module ClientEpochs {
  import opened Basics

  type Manager = nat
  type ReplyId = nat

  datatype Request = Request(manager: Manager, epoch: nat)

  /** A callback that ran: the epoch its request was sent in and the one it ran in. */
  datatype Callback = Callback(reply: ReplyId, sent: nat, ran: nat)

  /** `frames` are the finished handlers under way, innermost last, each with the manager it will try to
      let go. Handlers nest, for a callback may change the account. */
  datatype State = State(
    epoch: nat,
    manager: Manager,
    replies: map<Manager, set<ReplyId>>,
    requests: map<ReplyId, Request>,
    frames: seq<Manager>,
    ran: seq<Callback>)

  function Retired(replies: map<Manager, set<ReplyId>>, current: Manager, manager: Manager):
    map<Manager, set<ReplyId>>
  {
    if manager != current && (manager !in replies || replies[manager] == {}) then replies - {manager} else replies
  }

  function AfterSend(s: State, reply: ReplyId): State
    requires s.manager in s.replies
  {
    s.(replies := s.replies[s.manager := s.replies[s.manager] + {reply}],
       requests := s.requests[reply := Request(s.manager, s.epoch)])
  }

  predicate Outstanding(s: State, reply: ReplyId) {
    && reply in s.requests
    && s.requests[reply].manager in s.replies && reply in s.replies[s.requests[reply].manager]
  }

  /** The reply has finished: it leaves the table, and its callback runs if its epoch is still the one. */
  function AfterFinished(s: State, reply: ReplyId): State
    requires Outstanding(s, reply)
  {
    var request := s.requests[reply];
    s.(replies := s.replies[request.manager := s.replies[request.manager] - {reply}],
       frames := s.frames + [request.manager],
       ran := if request.epoch == s.epoch then s.ran + [Callback(reply, request.epoch, s.epoch)] else s.ran)
  }

  /** The innermost handler ends. */
  function AfterHandler(s: State): State
    requires s.frames != []
  {
    s.(replies := Retired(s.replies, s.manager, s.frames[|s.frames| - 1]), frames := s.frames[..|s.frames| - 1])
  }

  /** A new account, or none: a new epoch and manager, and every outstanding reply aborted. Those of `now`
      finish inside the loop that aborts them; no callback runs, for their epoch is over. */
  function AfterRotate(s: State, next: Manager, now: set<ReplyId>): State
    requires s.manager in s.replies
  {
    var table := s.replies[next := {}];
    s.(epoch := s.epoch + 1, manager := next,
       replies := Retired(table[s.manager := s.replies[s.manager] - now], next, s.manager))
  }

  // ----- Runs -----

  datatype Event =
    | Send(reply: ReplyId)
    | Finished(reply: ReplyId)
    | HandlerEnds
    | Rotate(next: Manager, now: set<ReplyId>)

  /** Replies and managers are new objects when they are made. */
  predicate Possible(s: State, e: Event) {
    match e
    case Send(reply) => reply !in s.requests && s.manager in s.replies
    case Finished(reply) => Outstanding(s, reply)
    case HandlerEnds => s.frames != []
    case Rotate(next, now) =>
      && s.manager in s.replies && now <= s.replies[s.manager]
      && next != s.manager && next !in s.replies && next !in s.frames
      && forall reply <- s.requests :: s.requests[reply].manager != next
  }

  function Next(s: State, e: Event): State
    requires Possible(s, e)
  {
    match e
    case Send(reply) => AfterSend(s, reply)
    case Finished(reply) => AfterFinished(s, reply)
    case HandlerEnds => AfterHandler(s)
    case Rotate(next, now) => AfterRotate(s, next, now)
  }

  function Run(s: State, events: seq<Event>): State
    decreases events
  {
    if events == [] || !Possible(s, events[0]) then s else Run(Next(s, events[0]), events[1..])
  }

  const START := State(0, 0, map[0 := {}], map[], [], [])

  ghost predicate TableSound(s: State) {
    && s.manager in s.replies
    && (forall m <- s.replies :: m == s.manager || s.replies[m] != {} || m in s.frames)
    && (forall m <- s.replies, reply <- s.replies[m] :: reply in s.requests && s.requests[reply].manager == m)
    && (forall reply <- s.requests :: s.requests[reply].epoch <= s.epoch)
    && (forall reply <- s.requests :: s.requests[reply].manager == s.manager <==> s.requests[reply].epoch == s.epoch)
  }

  ghost predicate Sound(s: State) {
    TableSound(s) && RanSound(s)
  }

  /** Each callback that ran is of a request sent in the epoch it ran in, which is no longer outstanding. */
  ghost predicate RanSound(s: State) {
    && (forall i :: 0 <= i < |s.ran| ==> s.ran[i].sent == s.ran[i].ran && s.ran[i].reply in s.requests
                                         && s.requests[s.ran[i].reply].epoch == s.ran[i].sent
                                         && !Outstanding(s, s.ran[i].reply))
    && (forall i, j :: 0 <= i < j < |s.ran| ==> s.ran[i].reply != s.ran[j].reply)
  }

  lemma EventKeepsTable(s: State, e: Event)
    requires TableSound(s) && Possible(s, e)
    ensures TableSound(Next(s, e))
  {
    var after := Next(s, e);
    match e
    case HandlerEnds => {
      var last := s.frames[|s.frames| - 1];
      assert s.frames == after.frames + [last];
    }
    case Rotate(next, now) => {
      assert forall m <- after.replies :: m == next || (m in s.replies && after.replies[m] <= s.replies[m]);
    }
    case _ =>
  }

  /** Nothing comes back into the table: a reply that has finished stays finished. */
  lemma FinishedStays(s: State, e: Event, reply: ReplyId)
    requires TableSound(s) && Possible(s, e) && reply in s.requests && !Outstanding(s, reply)
    ensures reply in Next(s, e).requests && Next(s, e).requests[reply] == s.requests[reply]
    ensures !Outstanding(Next(s, e), reply)
  {
  }

  lemma EventKeepsSound(s: State, e: Event)
    requires Sound(s) && Possible(s, e)
    ensures Sound(Next(s, e))
  {
    EventKeepsTable(s, e);
    hide TableSound;
    var after := Next(s, e);
    forall i | 0 <= i < |s.ran|
      ensures after.requests[s.ran[i].reply] == s.requests[s.ran[i].reply] && !Outstanding(after, s.ran[i].reply)
    {
      FinishedStays(s, e, s.ran[i].reply);
    }
    if e.Finished? {
      assert forall i | 0 <= i < |s.ran| :: s.ran[i].reply != e.reply;
    }
  }

  lemma {:induction false} RunsAreSound(s: State, events: seq<Event>)
    requires Sound(s)
    ensures Sound(Run(s, events))
    decreases events
  {
    hide Sound, Next, Possible;
    if events != [] && Possible(s, events[0]) {
      EventKeepsSound(s, events[0]);
      RunsAreSound(Next(s, events[0]), events[1..]);
    }
  }

  /** In every run, whenever no handler is under way, the table holds exactly the current manager and the
      old ones with replies outstanding. Every reply to come is in the table under its own manager, so its
      handler always finds it. */
  lemma TableIsExact(events: seq<Event>, manager: Manager)
    ensures var s := Run(START, events);
            && (s.frames == [] ==> (manager in s.replies <==>
                  manager == s.manager || exists reply <- s.requests ::
                    Outstanding(s, reply) && s.requests[reply].manager == manager))
            && (forall m <- s.replies, reply <- s.replies[m] :: Outstanding(s, reply))
  {
    StartIsSound();
    RunsAreSound(START, events);
    var s := Run(START, events);
    if s.frames == [] && manager in s.replies && manager != s.manager {
      var reply :| reply in s.replies[manager];
      assert Outstanding(s, reply);
    }
  }

  /** In every run each callback ran in the epoch its request was sent in, and at most once. */
  lemma NoCallbackFromAnEarlierEpoch(events: seq<Event>, i: nat, j: nat)
    ensures var s := Run(START, events);
            && (i < |s.ran| ==> s.ran[i].sent == s.ran[i].ran)
            && (i < j < |s.ran| ==> s.ran[i].reply != s.ran[j].reply)
  {
    StartIsSound();
    RunsAreSound(START, events);
  }

  /** The managers made during a run. */
  function Rotations(s: State, events: seq<Event>): nat
    decreases events
  {
    if events == [] || !Possible(s, events[0]) then 0
    else (if events[0].Rotate? then 1 else 0) + Rotations(Next(s, events[0]), events[1..])
  }

  lemma {:induction false} EpochCountsRotations(s: State, events: seq<Event>, reply: ReplyId)
    requires reply in s.requests
    ensures var after := Run(s, events);
            && after.epoch == s.epoch + Rotations(s, events)
            && reply in after.requests && after.requests[reply] == s.requests[reply]
    decreases events
  {
    if events != [] && Possible(s, events[0]) {
      EpochCountsRotations(Next(s, events[0]), events[1..], reply);
    }
  }

  /** A reply's callback runs when it finishes exactly if the account has not changed since it was sent,
      whatever else went out, finished or nested in between. */
  lemma CallbackRunsIffSameAccount(s: State, reply: ReplyId, events: seq<Event>)
    requires Possible(s, Send(reply))
    ensures var sent := AfterSend(s, reply);
            var later := Run(sent, events);
            Outstanding(later, reply) ==>
              (Rotations(sent, events) == 0 <==>
                 AfterFinished(later, reply).ran == later.ran + [Callback(reply, s.epoch, later.epoch)])
  {
    EpochCountsRotations(AfterSend(s, reply), events, reply);
    var later := Run(AfterSend(s, reply), events);
    assert |later.ran + [Callback(reply, s.epoch, later.epoch)]| != |later.ran|;
  }

  lemma StartIsSound()
    ensures Sound(START)
  {
  }

  /** Whether the reply finishes during a run: on its own, or inside the loop that aborts it. */
  predicate Finishes(s: State, events: seq<Event>, reply: ReplyId)
    decreases events
  {
    events != [] && Possible(s, events[0])
    && (events[0] == Finished(reply) || (events[0].Rotate? && reply in events[0].now)
        || Finishes(Next(s, events[0]), events[1..], reply))
  }

  lemma LeavesWhenItFinishes(s: State, e: Event, reply: ReplyId)
    requires TableSound(s) && Possible(s, e) && reply in s.requests
    ensures Outstanding(Next(s, e), reply)
       <==> Outstanding(s, reply) && e != Finished(reply) && !(e.Rotate? && reply in e.now)
  {
    var after, m := Next(s, e), s.requests[reply].manager;
    assert after.requests[reply] == s.requests[reply];
    match e
    case HandlerEnds => {
      var last := s.frames[|s.frames| - 1];
      assert m in after.replies <==> m in s.replies && !(m == last && m != s.manager && s.replies[m] == {});
    }
    case Rotate(next, now) => {
      assert m != next;
      if m != s.manager {
        assert reply !in s.replies[s.manager];
        assert m in after.replies <==> m in s.replies;
      } else {
        var left := s.replies[m] - now;
        assert m in after.replies <==> left != {};
        assert reply in left ==> left != {} && after.replies[m] == left;
        assert left != {} ==> after.replies[m] == left;
        assert Outstanding(after, reply) <==> reply in left;
      }
    }
    case _ =>
  }

  lemma {:induction false} GoneStaysGone(s: State, events: seq<Event>, reply: ReplyId)
    requires Sound(s) && reply in s.requests && !Outstanding(s, reply)
    ensures !Outstanding(Run(s, events), reply)
    decreases events
  {
    hide RanSound;
    if events != [] && Possible(s, events[0]) {
      EventKeepsSound(s, events[0]);
      FinishedStays(s, events[0], reply);
      GoneStaysGone(Next(s, events[0]), events[1..], reply);
    }
  }

  /** A reply is outstanding from its sending until it finishes, and no longer: nothing else takes it out of the
      table, and nothing puts it back. */
  lemma {:induction false} OutstandingUntilItFinishes(s: State, events: seq<Event>, reply: ReplyId)
    requires Sound(s) && reply in s.requests && Outstanding(s, reply)
    ensures Outstanding(Run(s, events), reply) <==> !Finishes(s, events, reply)
    decreases events
  {
    hide RanSound;
    if events != [] && Possible(s, events[0]) {
      EventKeepsSound(s, events[0]);
      LeavesWhenItFinishes(s, events[0], reply);
      var next := Next(s, events[0]);
      if Outstanding(next, reply) {
        OutstandingUntilItFinishes(next, events[1..], reply);
      } else {
        SentStays(s, events[0], reply);
        GoneStaysGone(next, events[1..], reply);
      }
    }
  }

  lemma SentStays(s: State, e: Event, reply: ReplyId)
    requires Possible(s, e) && reply in s.requests
    ensures reply in Next(s, e).requests
  {
  }

  /** In every run a reply that was sent is outstanding exactly until it finishes. */
  lemma SentUntilFinished(first: seq<Event>, reply: ReplyId, rest: seq<Event>)
    requires Possible(Run(START, first), Send(reply))
    ensures var sent := Next(Run(START, first), Send(reply));
            Outstanding(Run(sent, rest), reply) <==> !Finishes(sent, rest, reply)
  {
    StartIsSound();
    RunsAreSound(START, first);
    EventKeepsSound(Run(START, first), Send(reply));
    OutstandingUntilItFinishes(Next(Run(START, first), Send(reply)), rest, reply);
  }

  // ----- The client itself -----

  class NativeClient {
    var epoch: nat
    var manager: Manager
    var replies: map<Manager, set<ReplyId>>
    var requests: map<ReplyId, Request>
    var frames: seq<Manager>
    var ran: seq<Callback>

    function All(): State
      reads this
    {
      State(epoch, manager, replies, requests, frames, ran)
    }

    constructor ()
      ensures All() == START
    {
      epoch, manager, replies, requests, frames, ran := 0, 0, map[0 := {}], map[], [], [];
    }

    method Retire(retiring: Manager)
      modifies this`replies
      ensures replies == Retired(old(replies), manager, retiring)
    {
      if retiring != manager && (retiring !in replies || replies[retiring] == {}) {
        replies := replies - {retiring};
      }
    }

    method Send(reply: ReplyId)
      requires manager in replies
      modifies this`replies, this`requests
      ensures All() == AfterSend(old(All()), reply)
    {
      requests := requests[reply := Request(manager, epoch)];
      replies := replies[manager := replies[manager] + {reply}];
    }

    method BeginFinished(reply: ReplyId)
      requires Outstanding(All(), reply)
      modifies this`replies, this`frames, this`ran
      ensures All() == AfterFinished(old(All()), reply)
    {
      var request := requests[reply];
      replies := replies[request.manager := replies[request.manager] - {reply}];
      frames := frames + [request.manager];
      if request.epoch == epoch {
        ran := ran + [Callback(reply, request.epoch, epoch)];
      }
    }

    method EndFinished()
      requires frames != []
      modifies this`replies, this`frames
      ensures All() == AfterHandler(old(All()))
    {
      var last := frames[|frames| - 1];
      Retire(last);
      frames := frames[..|frames| - 1];
    }

    /** A reply of an earlier epoch finishes at once, its handler from start to end. */
    method FinishNow(reply: ReplyId)
      requires Outstanding(All(), reply) && requests[reply].epoch != epoch
      modifies this`replies, this`frames, this`ran
      ensures frames == old(frames) && ran == old(ran)
      ensures var m := requests[reply].manager;
              replies == Retired(old(replies)[m := old(replies)[m] - {reply}], manager, m)
    {
      BeginFinished(reply);
      EndFinished();
    }

    /** One aborted reply that finishes at once, of those still out. */
    method AbortNow(reply: ReplyId, ghost table: map<Manager, set<ReplyId>>, ghost outstanding: set<ReplyId>,
                    ghost finished: set<ReplyId>)
      requires reply in requests && requests[reply].epoch != epoch && requests[reply].manager != manager
      requires requests[reply].manager in table && table[requests[reply].manager] == outstanding
      requires reply in outstanding && reply !in finished
      requires replies == WithoutFinished(table, requests[reply].manager, outstanding - finished)
      modifies this`replies, this`frames, this`ran
      ensures frames == old(frames) && ran == old(ran)
      ensures replies == WithoutFinished(table, requests[reply].manager, outstanding - (finished + {reply}))
    {
      FinishedMore(table, requests[reply].manager, outstanding, finished + {reply}, reply, manager);
      assert finished + {reply} - {reply} == finished;
      StillWaiting(table, requests[reply].manager, outstanding - finished, reply);
      FinishNow(reply);
    }

    /** Every outstanding reply of an old manager is aborted, one after another. */
    method AbortAll(previous: Manager, now: set<ReplyId>)
      requires previous in replies && previous != manager && now <= replies[previous]
      requires forall reply <- replies[previous] ::
                 reply in requests && requests[reply].epoch != epoch && requests[reply].manager == previous
      modifies this`replies, this`frames, this`ran
      ensures frames == old(frames) && ran == old(ran)
      ensures replies == WithoutFinished(old(replies), previous, old(replies)[previous] - now)
    {
      hide WithoutFinished;
      var left := replies[previous];
      ghost var table, outstanding, finished: set<ReplyId> := replies, left, {};
      NoneFinished(table, previous);
      while left != {}
        invariant frames == old(frames) && ran == old(ran)
        invariant left <= outstanding && left !! finished && now <= left + finished && finished <= now
        invariant replies == WithoutFinished(table, previous, outstanding - finished)
        decreases |left|
      {
        var reply :| reply in left;
        left := left - {reply};
        if reply in now {
          AbortNow(reply, table, outstanding, finished);
          finished := finished + {reply};
        }
      }
      assert finished == now;
    }

    /** Aborting may finish a reply at once: its whole handler then runs inside this loop, and it may be the
        one that lets the old manager go. */
    method Rotate(next: Manager, now: set<ReplyId>)
      requires Sound(All()) && Possible(All(), Event.Rotate(next, now))
      modifies this
      ensures All() == AfterRotate(old(All()), next, now)
    {
      TheirOwn(All());
      hide Sound, AfterRotate, Retired, WithoutFinished;
      var previous := manager;
      epoch := epoch + 1;
      manager := next;
      replies := replies[next := {}];
      AbortAll(previous, now);
      Retire(previous);
      RotateEnds(old(All()), next, now);
    }
  }

  /** The table once only `waiting` of a manager's replies are left; an empty old manager is let go. */
  function WithoutFinished(table: map<Manager, set<ReplyId>>, manager: Manager, waiting: set<ReplyId>):
    map<Manager, set<ReplyId>>
  {
    if waiting == {} && manager in table && table[manager] != {} then table - {manager} else table[manager := waiting]
  }

  lemma NoneFinished(table: map<Manager, set<ReplyId>>, manager: Manager)
    requires manager in table
    ensures WithoutFinished(table, manager, table[manager] - {}) == table
  {
    assert table[manager] - {} == table[manager] && table[manager := table[manager]] == table;
  }

  lemma StillWaiting(table: map<Manager, set<ReplyId>>, manager: Manager, waiting: set<ReplyId>, reply: ReplyId)
    requires reply in waiting
    ensures WithoutFinished(table, manager, waiting) == table[manager := waiting]
  {
  }

  lemma FinishedMore(table: map<Manager, set<ReplyId>>, manager: Manager, outstanding: set<ReplyId>,
                     finished: set<ReplyId>, reply: ReplyId, current: Manager)
    requires current != manager && manager in table && table[manager] == outstanding
    requires reply in outstanding && reply in finished
    ensures var before := table[manager := outstanding - (finished - {reply})];
            Retired(before[manager := before[manager] - {reply}], current, manager)
              == WithoutFinished(table, manager, outstanding - finished)
  {
    assert outstanding - (finished - {reply}) - {reply} == outstanding - finished;
    assert table[manager := {}] - {manager} == table - {manager};
  }

  lemma RotateEnds(s: State, next: Manager, now: set<ReplyId>)
    requires s.manager in s.replies && next != s.manager && next !in s.replies
    ensures var table := WithoutFinished(s.replies[next := {}], s.manager, s.replies[s.manager] - now);
            AfterRotate(s, next, now)
              == s.(epoch := s.epoch + 1, manager := next, replies := Retired(table, next, s.manager))
  {
    var table := s.replies[next := {}];
    assert table[s.manager := {}] - {s.manager} == table - {s.manager};
  }

  /** The outstanding replies of the current manager were sent in this epoch. */
  lemma TheirOwn(s: State)
    requires Sound(s)
    ensures s.manager in s.replies
    ensures forall reply <- s.replies[s.manager] ::
              reply in s.requests && s.requests[reply] == Request(s.manager, s.epoch)
  {
  }
}
