/** The paced notification queue: one message at a time, the newest value of every property. */
module Notifications {
  import opened Text

  datatype Key = Key(deviceId: int, property: string)

  datatype Note = Note(key: Key, value: string)

  /** What happened, and when: a publish started, or the broker connection came back. */
  datatype Mark = Published(note: Note, at: int) | Reconnected(at: int)

  /** The settings, and the wall clock: its `n`-th reading in this process. */
  datatype Env = Env(enabled: bool, interval: nat, clock: nat -> int) {
    ghost predicate Monotone() {
      forall i, j :: 0 <= i <= j ==> clock(i) <= clock(j)
    }
  }

  /** `timer` is the timer the service knows of, as the earliest time it may fire; `armed` are those the
      runtime has. `lastPublishAt` is `None` at boot. */
  datatype State = State(
    queue: seq<Note>, timer: Option<int>, lastPublishAt: Option<int>, armed: multiset<int>,
    connected: bool, listening: bool, readings: nat, received: seq<Note>, log: seq<Mark>)

  datatype Event = Receive(note: Note) | TimerFires(at: int) | ConnectionLost | Reconnect | Destroy

  function Start(connected: bool): State {
    State([], None, None, multiset{}, connected, true, 0, [], [])
  }

  /** The place of `key` in the queue, or the queue's length. */
  function IndexOf(queue: seq<Note>, key: Key): (i: nat)
    ensures i <= |queue|
    ensures i < |queue| ==> queue[i].key == key
    ensures forall k :: 0 <= k < i ==> queue[k].key != key
  {
    if queue == [] || queue[0].key == key then 0 else 1 + IndexOf(queue[1..], key)
  }

  /** A waiting property has its value replaced in place; a new one goes last. */
  function Put(queue: seq<Note>, note: Note): seq<Note> {
    var i := IndexOf(queue, note.key);
    if i < |queue| then queue[i := note] else queue + [note]
  }

  /** The state right after the head is published, before the next is scheduled. */
  function PopHead(s: State, now: int): State
    requires s.queue != []
  {
    s.(timer := None, queue := s.queue[1..], lastPublishAt := Some(now), readings := s.readings + 1,
       log := s.log + [Published(s.queue[0], now)])
  }

  function ScheduleNext(e: Env, s: State): State
    decreases if s.queue == [] then 0 else 2 * |s.queue| + 1
  {
    if s.timer.Some? || s.queue == [] then s
    else
      var now := e.clock(s.readings);
      var read := s.(readings := s.readings + 1);
      if s.lastPublishAt.Some? && s.lastPublishAt.value + e.interval - now > 0
      then
        var at := s.lastPublishAt.value + e.interval;
        read.(timer := Some(at), armed := s.armed + multiset{at})
      else PublishNext(e, read)
  }

  function PublishNext(e: Env, s: State): State
    decreases if s.queue == [] then 1 else 2 * |s.queue|
  {
    var fired := s.(timer := None);
    if !s.connected then fired
    else if s.queue == [] then ScheduleNext(e, fired)
    else ScheduleNext(e, PopHead(s, e.clock(s.readings)))
  }

  function AfterReceive(e: Env, s: State, note: Note): State {
    if !e.enabled then s
    else ScheduleNext(e, s.(queue := Put(s.queue, note), received := s.received + [note]))
  }

  /** `clearTimeout` of the timer the service knows of. */
  function ClearTimer(s: State): State {
    if s.timer.Some? then s.(timer := None, armed := s.armed - multiset{s.timer.value}) else s
  }

  /** The listener's work, up to the scheduling. */
  function Back(e: Env, s: State): State {
    var now := e.clock(s.readings);
    ClearTimer(s).(connected := true, lastPublishAt := Some(now), readings := s.readings + 1,
                   log := s.log + [Reconnected(now)])
  }

  function AfterReconnect(e: Env, s: State): State {
    if s.listening then ScheduleNext(e, Back(e, s)) else s.(connected := true)
  }

  function AfterDestroy(s: State): State {
    ClearTimer(s).(listening := false, queue := [])
  }

  function Apply(e: Env, s: State, event: Event): State {
    match event
    case Receive(note) => AfterReceive(e, s, note)
    case TimerFires(at) => PublishNext(e, s.(armed := s.armed - multiset{at}))
    case ConnectionLost => s.(connected := false)
    case Reconnect => AfterReconnect(e, s)
    case Destroy => AfterDestroy(s)
  }

  /** A timer fires only once armed, and never early. Everything else may happen at any time. */
  predicate Enabled(e: Env, s: State, event: Event) {
    event.TimerFires? ==> event.at in s.armed && e.clock(s.readings) >= event.at
  }

  /** A run of events, each of which could happen. */
  ghost predicate IsRun(e: Env, s: State, events: seq<Event>)
    decreases |events|
  {
    events == [] || (Enabled(e, s, events[0]) && IsRun(e, Apply(e, s, events[0]), events[1..]))
  }

  function Run(e: Env, s: State, events: seq<Event>): State
    decreases |events|
  {
    if events == [] then s else Run(e, Apply(e, s, events[0]), events[1..])
  }

  // ---- Pacing

  /** Everything logged so far is at least the interval before any later publish. */
  ghost predicate Paced(interval: nat, log: seq<Mark>) {
    forall i, j :: 0 <= i < j < |log| && log[j].Published? ==> log[i].at + interval <= log[j].at
  }

  ghost predicate Timely(e: Env, s: State) {
    && Paced(e.interval, s.log)
    && (s.lastPublishAt.None? ==> s.log == [])
    && (s.lastPublishAt.Some? ==> s.lastPublishAt.value <= e.clock(s.readings))
    && (s.lastPublishAt.Some? ==> forall i :: 0 <= i < |s.log| ==> s.log[i].at <= s.lastPublishAt.value)
    && (s.timer.Some? ==>
        s.queue != [] && s.lastPublishAt.Some? && s.timer.value == s.lastPublishAt.value + e.interval)
    && (s.lastPublishAt.Some? ==> s.log != [] && s.lastPublishAt.value == s.log[|s.log| - 1].at)
    && (s.timer.Some? ==> s.readings > 0 && s.timer.value > e.clock(s.readings - 1))
  }

  /** The interval since the last publish or reconnect is over at the next reading of the clock. */
  ghost predicate Due(e: Env, s: State) {
    s.lastPublishAt.Some? ==> s.lastPublishAt.value + e.interval <= e.clock(s.readings)
  }

  lemma {:induction false} ScheduleIsTimely(e: Env, s: State)
    requires e.Monotone() && Timely(e, s)
    ensures Timely(e, ScheduleNext(e, s))
    decreases if s.queue == [] then 0 else 2 * |s.queue| + 1
  {
    if s.timer.None? && s.queue != [] {
      var now := e.clock(s.readings);
      assert now <= e.clock(s.readings + 1);
      var read := s.(readings := s.readings + 1);
      if !(s.lastPublishAt.Some? && s.lastPublishAt.value + e.interval - now > 0) {
        PublishIsTimely(e, read);
      }
    }
  }

  lemma {:induction false} PublishIsTimely(e: Env, s: State)
    requires e.Monotone() && Timely(e, s) && Due(e, s)
    ensures Timely(e, PublishNext(e, s))
    decreases if s.queue == [] then 1 else 2 * |s.queue|
  {
    if s.connected {
      var fired := s.(timer := None);
      if s.queue == [] {
        ScheduleIsTimely(e, fired);
      } else {
        assert e.clock(s.readings) <= e.clock(s.readings + 1);
        ScheduleIsTimely(e, PopHead(s, e.clock(s.readings)));
      }
    }
  }

  /** The runtime has exactly the one timer the service knows of. */
  ghost predicate OneTimer(s: State) {
    s.armed == if s.timer.Some? then multiset{s.timer.value} else multiset{}
  }

  lemma {:induction false} ScheduleKeepsOneTimer(e: Env, s: State)
    requires OneTimer(s)
    ensures OneTimer(ScheduleNext(e, s))
    decreases if s.queue == [] then 0 else 2 * |s.queue| + 1
  {
    if s.timer.None? && s.queue != [] {
      PublishKeepsOneTimer(e, s.(readings := s.readings + 1));
    }
  }

  lemma {:induction false} PublishKeepsOneTimer(e: Env, s: State)
    requires s.armed == multiset{}
    ensures OneTimer(PublishNext(e, s))
    decreases if s.queue == [] then 1 else 2 * |s.queue|
  {
    if s.connected && s.queue != [] {
      ScheduleKeepsOneTimer(e, PopHead(s, e.clock(s.readings)));
    }
  }

  lemma EventKeepsOneTimer(e: Env, s: State, event: Event)
    requires OneTimer(s) && Enabled(e, s, event)
    ensures OneTimer(Apply(e, s, event))
  {
    match event
    case Receive(note) =>
      if e.enabled {
        ScheduleKeepsOneTimer(e, s.(queue := Put(s.queue, note), received := s.received + [note]));
      }
    case TimerFires(at) => PublishKeepsOneTimer(e, s.(armed := s.armed - multiset{at}));
    case ConnectionLost =>
    case Reconnect =>
      if s.listening {
        ScheduleKeepsOneTimer(e, Back(e, s));
      }
    case Destroy =>
  }

  lemma BackIsTimely(e: Env, s: State)
    requires e.Monotone() && Timely(e, s)
    ensures Timely(e, Back(e, s))
  {
    assert e.clock(s.readings) <= e.clock(s.readings + 1);
  }

  lemma EventIsTimely(e: Env, s: State, event: Event)
    requires e.Monotone() && Timely(e, s) && OneTimer(s) && Enabled(e, s, event)
    ensures Timely(e, Apply(e, s, event))
  {
    match event
    case Receive(note) =>
      if e.enabled {
        ScheduleIsTimely(e, s.(queue := Put(s.queue, note), received := s.received + [note]));
      }
    case TimerFires(at) => PublishIsTimely(e, s.(armed := s.armed - multiset{at}));
    case ConnectionLost =>
    case Reconnect =>
      if s.listening {
        BackIsTimely(e, s);
        ScheduleIsTimely(e, Back(e, s));
      }
    case Destroy =>
  }

  lemma {:induction false} RunIsTimely(e: Env, s: State, events: seq<Event>)
    requires e.Monotone() && Timely(e, s) && OneTimer(s) && IsRun(e, s, events)
    ensures Timely(e, Run(e, s, events)) && OneTimer(Run(e, s, events))
    decreases |events|
  {
    if events != [] {
      EventKeepsOneTimer(e, s, events[0]);
      EventIsTimely(e, s, events[0]);
      RunIsTimely(e, Apply(e, s, events[0]), events[1..]);
    }
  }

  /** Over any run, every publish comes at least the interval after every publish and reconnect before it. */
  lemma PublishesArePaced(e: Env, connected: bool, events: seq<Event>)
    requires e.Monotone() && IsRun(e, Start(connected), events)
    ensures Paced(e.interval, Run(e, Start(connected), events).log)
  {
    RunIsTimely(e, Start(connected), events);
  }

  lemma ScheduleIsQuietOffline(e: Env, s: State)
    requires !s.connected
    ensures ScheduleNext(e, s).log == s.log && !ScheduleNext(e, s).connected
  {
    var read := s.(readings := s.readings + 1);
    assert PublishNext(e, read) == read.(timer := None);
  }

  /** No publish starts while the client is offline; being back is the only event that changes that. */
  lemma NothingIsPublishedOffline(e: Env, s: State, event: Event)
    requires !s.connected && !event.Reconnect?
    ensures Apply(e, s, event).log == s.log && !Apply(e, s, event).connected
  {
    if event.Receive? {
      ScheduleIsQuietOffline(e, s.(queue := Put(s.queue, event.note), received := s.received + [event.note]));
    }
  }

  // ---- Nothing lost, nothing stalled

  ghost predicate DistinctKeys(queue: seq<Note>) {
    forall i, j :: 0 <= i < j < |queue| ==> queue[i].key != queue[j].key
  }

  function LastReceived(received: seq<Note>, key: Key): Option<string>
    decreases |received|
  {
    if received == [] then None
    else
      var last := received[|received| - 1];
      if last.key == key then Some(last.value) else LastReceived(received[..|received| - 1], key)
  }

  function LastPublished(log: seq<Mark>, key: Key): Option<string>
    decreases |log|
  {
    if log == [] then None
    else
      var last := log[|log| - 1];
      if last.Published? && last.note.key == key then Some(last.note.value)
      else LastPublished(log[..|log| - 1], key)
  }

  /** The newest value of a property is the queued one if it waits, else the one published last. */
  ghost predicate Newest(s: State, key: Key) {
    var i := IndexOf(s.queue, key);
    LastReceived(s.received, key) == if i < |s.queue| then Some(s.queue[i].value) else LastPublished(s.log, key)
  }

  ghost predicate Complete(s: State) {
    DistinctKeys(s.queue) && forall key :: Newest(s, key)
  }

  /** Connected with something waiting means a timer is armed. */
  ghost predicate Moving(s: State) {
    s.connected && s.queue != [] ==> s.timer.Some?
  }

  lemma {:induction false} ScheduleKeepsAll(e: Env, s: State)
    requires Complete(s)
    ensures Complete(ScheduleNext(e, s)) && Moving(ScheduleNext(e, s))
    decreases if s.queue == [] then 0 else 2 * |s.queue| + 1
  {
    if s.timer.None? && s.queue != [] {
      var now := e.clock(s.readings);
      var read := s.(readings := s.readings + 1);
      assert Complete(read) by {
        forall key ensures Newest(read, key) {
          assert Newest(s, key);
        }
      }
      if s.lastPublishAt.Some? && s.lastPublishAt.value + e.interval - now > 0 {
        var at := s.lastPublishAt.value + e.interval;
        var waiting := read.(timer := Some(at), armed := s.armed + multiset{at});
        forall key ensures Newest(waiting, key) {
          assert Newest(s, key);
        }
      } else {
        PublishKeepsAll(e, read);
      }
    }
  }

  lemma PopIsComplete(s: State, now: int)
    requires Complete(s) && s.queue != []
    ensures Complete(PopHead(s, now))
  {
    var popped := PopHead(s, now);
    var mark := Published(s.queue[0], now);
    assert popped.log[..|s.log|] == s.log;
    forall key ensures Newest(popped, key) {
      assert Newest(s, key);
      var i := IndexOf(s.queue, key);
      if i == 0 {
        assert s.queue[0].key == key;
        forall k | 0 <= k < |popped.queue| ensures popped.queue[k].key != key {
          assert popped.queue[k] == s.queue[k + 1];
        }
      }
    }
  }

  lemma {:induction false} PublishKeepsAll(e: Env, s: State)
    requires Complete(s)
    ensures Complete(PublishNext(e, s)) && Moving(PublishNext(e, s))
    decreases if s.queue == [] then 1 else 2 * |s.queue|
  {
    var fired := s.(timer := None);
    assert Complete(fired) by {
      forall key ensures Newest(fired, key) {
        assert Newest(s, key);
      }
    }
    if s.connected && s.queue == [] {
      ScheduleKeepsAll(e, fired);
    } else if s.connected {
      var now := e.clock(s.readings);
      PopIsComplete(s, now);
      ScheduleKeepsAll(e, PopHead(s, now));
    }
  }

  /** Putting a value moves nothing that waits. */
  lemma PlaceAfterPut(queue: seq<Note>, note: Note, key: Key)
    ensures var before, after := IndexOf(queue, key), IndexOf(Put(queue, note), key);
      && (key == note.key ==> after < |Put(queue, note)| && Put(queue, note)[after] == note)
      && (key != note.key ==>
          if before < |queue| then after == before && Put(queue, note)[after] == queue[before]
          else after == |Put(queue, note)|)
  {
    var i, put := IndexOf(queue, note.key), Put(queue, note);
    var before, after := IndexOf(queue, key), IndexOf(put, key);
    assert i < |put| && put[i] == note;
    assert after < |put| && after < |queue| ==> put[after].key == queue[after].key;
    assert before < |queue| ==> put[before].key == queue[before].key;
  }

  lemma PutIsComplete(s: State, note: Note)
    requires Complete(s)
    ensures Complete(s.(queue := Put(s.queue, note), received := s.received + [note]))
  {
    var t := s.(queue := Put(s.queue, note), received := s.received + [note]);
    var i := IndexOf(s.queue, note.key);
    assert t.received[..|s.received|] == s.received;
    forall key ensures Newest(t, key) {
      assert Newest(s, key);
      PlaceAfterPut(s.queue, note, key);
    }
  }

  lemma {:induction false} ScheduleListens(e: Env, s: State)
    ensures ScheduleNext(e, s).listening == s.listening && ScheduleNext(e, s).received == s.received
    decreases if s.queue == [] then 0 else 2 * |s.queue| + 1
  {
    if s.timer.None? && s.queue != [] {
      PublishListens(e, s.(readings := s.readings + 1));
    }
  }

  lemma {:induction false} PublishListens(e: Env, s: State)
    ensures PublishNext(e, s).listening == s.listening && PublishNext(e, s).received == s.received
    decreases if s.queue == [] then 1 else 2 * |s.queue|
  {
    if s.connected && s.queue != [] {
      ScheduleListens(e, PopHead(s, e.clock(s.readings)));
    }
  }

  lemma ListeningStays(e: Env, s: State, event: Event)
    requires s.listening && !event.Destroy?
    ensures Apply(e, s, event).listening
  {
    match event
    case Receive(note) => ScheduleListens(e, s.(queue := Put(s.queue, note), received := s.received + [note]));
    case TimerFires(at) => PublishListens(e, s.(armed := s.armed - multiset{at}));
    case ConnectionLost =>
    case Reconnect => ScheduleListens(e, Back(e, s));
  }

  lemma EventKeepsAll(e: Env, s: State, event: Event)
    requires Complete(s) && Moving(s) && s.listening && !event.Destroy?
    ensures var t := Apply(e, s, event); Complete(t) && Moving(t) && t.listening
  {
    ListeningStays(e, s, event);
    match event
    case Receive(note) =>
      if e.enabled {
        PutIsComplete(s, note);
        ScheduleKeepsAll(e, s.(queue := Put(s.queue, note), received := s.received + [note]));
      }
    case TimerFires(at) =>
      var fired := s.(armed := s.armed - multiset{at});
      forall key ensures Newest(fired, key) {
        assert Newest(s, key);
      }
      PublishKeepsAll(e, fired);
    case ConnectionLost =>
      forall key ensures Newest(s.(connected := false), key) {
        assert Newest(s, key);
      }
    case Reconnect =>
      var back := Back(e, s);
      assert back.log[..|s.log|] == s.log;
      forall key ensures Newest(back, key) {
        assert Newest(s, key);
      }
      ScheduleKeepsAll(e, back);
  }

  lemma {:induction false} RunKeepsAll(e: Env, s: State, events: seq<Event>)
    requires Complete(s) && Moving(s) && s.listening && Destroy !in events
    ensures Complete(Run(e, s, events)) && Moving(Run(e, s, events))
    decreases |events|
  {
    if events != [] {
      assert events[0] in events;
      EventKeepsAll(e, s, events[0]);
      RunKeepsAll(e, Apply(e, s, events[0]), events[1..]);
    }
  }

  /** The notes of the receive events, in order. */
  function Heard(events: seq<Event>): seq<Note> {
    if events == [] then [] else (if events[0].Receive? then [events[0].note] else []) + Heard(events[1..])
  }

  lemma EventHears(e: Env, s: State, event: Event)
    ensures Apply(e, s, event).received == s.received + if e.enabled then Heard([event]) else []
  {
    assert Heard([event]) == if event.Receive? then [event.note] else [];
    match event
    case Receive(note) => ScheduleListens(e, s.(queue := Put(s.queue, note), received := s.received + [note]));
    case TimerFires(at) => PublishListens(e, s.(armed := s.armed - multiset{at}));
    case ConnectionLost =>
    case Reconnect => ScheduleListens(e, Back(e, s));
    case Destroy =>
  }

  /** What was received is what the events brought, all of it when notifications are on, else nothing. */
  lemma {:induction false} ReceivedIsHeard(e: Env, s: State, events: seq<Event>)
    ensures Run(e, s, events).received == s.received + if e.enabled then Heard(events) else []
    decreases |events|
  {
    if events != [] {
      EventHears(e, s, events[0]);
      ReceivedIsHeard(e, Apply(e, s, events[0]), events[1..]);
      assert Heard(events) == Heard([events[0]]) + Heard(events[1..]);
    }
  }

  /** The newest value the events brought of a property waits or was published last. */
  ghost predicate NewestHeard(e: Env, events: seq<Event>, s: State, key: Key) {
    var i := IndexOf(s.queue, key);
    (if i < |s.queue| then Some(s.queue[i].value) else LastPublished(s.log, key)) ==
      if e.enabled then LastReceived(Heard(events), key) else None
  }

  /** Exactly one timer, set for the end of the interval after the last publish or reconnect, still to come when
      the clock was last read. */
  ghost predicate WillFire(e: Env, s: State) {
    && s.log != [] && s.timer == Some(s.log[|s.log| - 1].at + e.interval) && s.armed == multiset{s.timer.value}
    && s.readings > 0 && s.timer.value > e.clock(s.readings - 1)
  }

  lemma MovingFires(e: Env, s: State)
    requires Moving(s) && Timely(e, s) && OneTimer(s) && s.connected && s.queue != []
    ensures WillFire(e, s)
  {
  }

  lemma NewestIsHeard(e: Env, connected: bool, events: seq<Event>, key: Key)
    requires Newest(Run(e, Start(connected), events), key)
    ensures NewestHeard(e, events, Run(e, Start(connected), events), key)
  {
    ReceivedIsHeard(e, Start(connected), events);
    assert [] + Heard(events) == Heard(events);
  }

  /** Until it is destroyed: of every property, the newest value the events brought waits or was published last;
      each waits at most once; and a connected queue that holds anything will publish. */
  lemma NothingIsLost(e: Env, connected: bool, events: seq<Event>)
    requires e.Monotone() && IsRun(e, Start(connected), events) && Destroy !in events
    ensures var s := Run(e, Start(connected), events);
      && DistinctKeys(s.queue)
      && (forall key :: NewestHeard(e, events, s, key))
      && (s.connected && s.queue != [] ==> WillFire(e, s))
  {
    var start := Start(connected);
    RunIsTimely(e, start, events);
    forall key ensures Newest(start, key) {
    }
    RunKeepsAll(e, start, events);
    var s := Run(e, start, events);
    forall key ensures NewestHeard(e, events, s, key) {
      assert Newest(s, key);
      NewestIsHeard(e, connected, events, key);
    }
  }

  /** Only what was received waits or is published. */
  ghost predicate Genuine(s: State) {
    && (forall i :: 0 <= i < |s.queue| ==> s.queue[i] in s.received)
    && (forall i :: 0 <= i < |s.log| && s.log[i].Published? ==> s.log[i].note in s.received)
  }

  lemma {:induction false} ScheduleInventsNothing(e: Env, s: State)
    requires Genuine(s)
    ensures Genuine(ScheduleNext(e, s))
    decreases if s.queue == [] then 0 else 2 * |s.queue| + 1
  {
    if s.timer.None? && s.queue != [] {
      PublishInventsNothing(e, s.(readings := s.readings + 1));
    }
  }

  lemma {:induction false} PublishInventsNothing(e: Env, s: State)
    requires Genuine(s)
    ensures Genuine(PublishNext(e, s))
    decreases if s.queue == [] then 1 else 2 * |s.queue|
  {
    if s.connected {
      ScheduleInventsNothing(e, if s.queue == [] then s.(timer := None) else PopHead(s, e.clock(s.readings)));
    }
  }

  lemma EventInventsNothing(e: Env, s: State, event: Event)
    requires Genuine(s)
    ensures Genuine(Apply(e, s, event))
  {
    match event
    case Receive(note) =>
      ScheduleInventsNothing(e, s.(queue := Put(s.queue, note), received := s.received + [note]));
    case TimerFires(at) => PublishInventsNothing(e, s.(armed := s.armed - multiset{at}));
    case ConnectionLost =>
    case Reconnect => ScheduleInventsNothing(e, Back(e, s));
    case Destroy =>
  }

  lemma {:induction false} RunInventsNothing(e: Env, s: State, events: seq<Event>)
    requires Genuine(s)
    ensures Genuine(Run(e, s, events))
    decreases |events|
  {
    if events != [] {
      EventInventsNothing(e, s, events[0]);
      RunInventsNothing(e, Apply(e, s, events[0]), events[1..]);
    }
  }

  /** Every note published was received, and none when notifications are off. */
  lemma NothingIsInvented(e: Env, connected: bool, events: seq<Event>, i: nat)
    requires i < |Run(e, Start(connected), events).log| && Run(e, Start(connected), events).log[i].Published?
    ensures e.enabled && Run(e, Start(connected), events).log[i].note in Heard(events)
  {
    RunInventsNothing(e, Start(connected), events);
    ReceivedIsHeard(e, Start(connected), events);
  }

  // ---- Destroyed

  /** Nothing waits, no timer is armed and the client's listener is gone. */
  ghost predicate Silent(s: State) {
    s.queue == [] && s.timer == None && s.armed == multiset{} && !s.listening
  }

  lemma {:induction false} SilentStaysSilent(e: Env, s: State, events: seq<Event>)
    requires Silent(s) && IsRun(e, s, events) && forall event :: event in events ==> !event.Receive?
    ensures Silent(Run(e, s, events)) && Run(e, s, events).log == s.log
    decreases |events|
  {
    if events != [] {
      assert events[0] in events;
      SilentStaysSilent(e, Apply(e, s, events[0]), events[1..]);
    }
  }

  /** Once destroyed, nothing that waited is published, whatever the broker and the runtime do. */
  lemma DestroyedPublishesNothing(e: Env, connected: bool, events: seq<Event>, later: seq<Event>)
    requires e.Monotone() && IsRun(e, Start(connected), events)
    requires IsRun(e, Apply(e, Run(e, Start(connected), events), Destroy), later)
    requires forall event :: event in later ==> !event.Receive?
    ensures var s := Run(e, Start(connected), events); Run(e, Apply(e, s, Destroy), later).log == s.log
  {
    RunIsTimely(e, Start(connected), events);
    SilentStaysSilent(e, Apply(e, Run(e, Start(connected), events), Destroy), later);
  }

  // ---- First come, first served

  function Keys(queue: seq<Note>): (keys: seq<Key>)
    ensures |keys| == |queue|
    ensures forall i :: 0 <= i < |queue| ==> keys[i] == queue[i].key
  {
    if queue == [] then [] else [queue[0].key] + Keys(queue[1..])
  }

  function PublishedKey(mark: Mark): seq<Key> {
    if mark.Published? then [mark.note.key] else []
  }

  /** The properties published, in order. */
  function PublishedKeys(log: seq<Mark>): seq<Key> {
    if log == [] then [] else PublishedKeys(log[..|log| - 1]) + PublishedKey(log[|log| - 1])
  }

  lemma PublishedOneMore(log: seq<Mark>, mark: Mark)
    ensures PublishedKeys(log + [mark]) == PublishedKeys(log) + PublishedKey(mark)
  {
    assert (log + [mark])[..|log|] == log;
  }

  /** What was published, then what waits: the order of service so far. */
  function Line(s: State): seq<Key> {
    PublishedKeys(s.log) + Keys(s.queue)
  }

  lemma PopKeepsLine(s: State, now: int)
    requires s.queue != []
    ensures Line(PopHead(s, now)) == Line(s)
  {
    var mark, key, rest := Published(s.queue[0], now), s.queue[0].key, Keys(s.queue[1..]);
    PublishedOneMore(s.log, mark);
    assert Keys(s.queue) == [key] + rest;
    Associate(PublishedKeys(s.log), [key], rest);
  }

  lemma {:induction false} ScheduleKeepsLine(e: Env, s: State)
    ensures Line(ScheduleNext(e, s)) == Line(s)
    decreases if s.queue == [] then 0 else 2 * |s.queue| + 1
  {
    if s.timer.None? && s.queue != [] {
      PublishKeepsLine(e, s.(readings := s.readings + 1));
    }
  }

  lemma {:induction false} PublishKeepsLine(e: Env, s: State)
    ensures Line(PublishNext(e, s)) == Line(s)
    decreases if s.queue == [] then 1 else 2 * |s.queue|
  {
    if s.connected && s.queue != [] {
      PopKeepsLine(s, e.clock(s.readings));
      ScheduleKeepsLine(e, PopHead(s, e.clock(s.readings)));
    }
  }

  lemma PutExtendsKeys(queue: seq<Note>, note: Note)
    ensures Keys(queue) <= Keys(Put(queue, note))
  {
  }

  lemma BackKeepsLine(e: Env, s: State)
    ensures Line(Back(e, s)) == Line(s)
  {
    PublishedOneMore(s.log, Reconnected(e.clock(s.readings)));
  }

  /** No event moves a waiting property back: the line only grows at its end. */
  lemma EventExtendsLine(e: Env, s: State, event: Event)
    requires !event.Destroy?
    ensures Line(s) <= Line(Apply(e, s, event))
  {
    match event
    case Receive(note) =>
      if e.enabled {
        var put := s.(queue := Put(s.queue, note), received := s.received + [note]);
        PutExtendsKeys(s.queue, note);
        ScheduleKeepsLine(e, put);
      }
    case TimerFires(at) => PublishKeepsLine(e, s.(armed := s.armed - multiset{at}));
    case ConnectionLost =>
    case Reconnect =>
      if s.listening {
        BackKeepsLine(e, s);
        ScheduleKeepsLine(e, Back(e, s));
      }
  }

  lemma {:induction false} RunExtendsLine(e: Env, s: State, events: seq<Event>)
    requires Destroy !in events
    ensures Line(s) <= Line(Run(e, s, events))
    decreases |events|
  {
    if events != [] {
      assert events[0] in events;
      EventExtendsLine(e, s, events[0]);
      RunExtendsLine(e, Apply(e, s, events[0]), events[1..]);
    }
  }

  /** From `s` to `t`, the property at place `i` has moved up by exactly the publishes in between, or has
      been published as the `i`-th of them. */
  ghost predicate ServedInTurn(s: State, t: State, i: nat)
    requires i < |s.queue|
  {
    var done, before := |PublishedKeys(t.log)|, |PublishedKeys(s.log)|;
    && before <= done + |t.queue|
    && (done <= before + i ==> before + i - done < |t.queue| && t.queue[before + i - done].key == s.queue[i].key)
    && (before + i < done ==> PublishedKeys(t.log)[before + i] == s.queue[i].key)
  }

  lemma PlaceInLonger<T>(a: seq<T>, b: seq<T>, c: seq<T>, d: seq<T>, i: nat)
    requires a + b <= c + d && i < |b|
    ensures |a| <= |c| + |d|
    ensures |c| <= |a| + i ==> |a| + i - |c| < |d| && d[|a| + i - |c|] == b[i]
    ensures |a| + i < |c| ==> c[|a| + i] == b[i]
  {
    assert (a + b)[|a| + i] == b[i] == (c + d)[|a| + i];
  }

  lemma LineServesInTurn(s: State, t: State, i: nat)
    requires Line(s) <= Line(t) && i < |s.queue|
    ensures ServedInTurn(s, t, i)
  {
    PlaceInLonger(PublishedKeys(s.log), Keys(s.queue), PublishedKeys(t.log), Keys(t.queue), i);
  }

  /** Nothing overtakes a waiting property, however often others change. */
  lemma WaitIsBounded(e: Env, s: State, events: seq<Event>, i: nat)
    requires Destroy !in events && i < |s.queue|
    ensures ServedInTurn(s, Run(e, s, events), i)
  {
    RunExtendsLine(e, s, events);
    LineServesInTurn(s, Run(e, s, events), i);
  }

  lemma {:induction false} ScheduleExtendsLog(e: Env, s: State)
    ensures s.log <= ScheduleNext(e, s).log
    decreases if s.queue == [] then 0 else 2 * |s.queue| + 1
  {
    if s.timer.None? && s.queue != [] {
      PublishExtendsLog(e, s.(readings := s.readings + 1));
    }
  }

  /** The armed timer, once it fires on a live connection, publishes the property that waited longest. */
  lemma TimerPublishesTheHead(e: Env, s: State)
    requires s.connected && s.queue != []
    ensures s.log + [Published(s.queue[0], e.clock(s.readings))] <= PublishNext(e, s).log
  {
    ScheduleExtendsLog(e, PopHead(s, e.clock(s.readings)));
  }

  lemma {:induction false} PublishExtendsLog(e: Env, s: State)
    ensures s.log <= PublishNext(e, s).log
    decreases if s.queue == [] then 1 else 2 * |s.queue|
  {
    if s.connected && s.queue != [] {
      ScheduleExtendsLog(e, PopHead(s, e.clock(s.readings)));
    }
  }

  // ---- The service

  class NotificationDispatchService {
    const enabled: bool
    const interval: nat
    const clock: nat -> int

    var queue: seq<Note>
    var timer: Option<int>
    var lastPublishAt: Option<int>
    /** Whether the reconnect listener is attached to the client. */
    var listening: bool
    /** The client's own flag; it changes under the service. */
    var connected: bool
    var readings: nat
    /** What the runtime has armed, what was received, and what was published when. */
    ghost var armed: multiset<int>
    ghost var received: seq<Note>
    ghost var log: seq<Mark>

    constructor (enabled: bool, interval: nat, clock: nat -> int, connected: bool)
      ensures GetEnv() == Env(enabled, interval, clock) && View() == Start(connected)
    {
      this.enabled, this.interval, this.clock := enabled, interval, clock;
      queue, timer, lastPublishAt, listening := [], None, None, true;
      this.connected, readings, armed, received, log := connected, 0, multiset{}, [], [];
    }

    function GetEnv(): Env {
      Env(enabled, interval, clock)
    }

    ghost function View(): State
      reads this
    {
      State(queue, timer, lastPublishAt, armed, connected, listening, readings, received, log)
    }

    method Now() returns (now: int)
      modifies this`readings
      ensures now == clock(old(readings)) && readings == old(readings) + 1
    {
      now := clock(readings);
      readings := readings + 1;
    }

    /** Queues an observed value for publishing, when notifications are enabled. */
    method Receive(note: Note)
      modifies this
      ensures View() == AfterReceive(GetEnv(), old(View()), note)
    {
      if enabled {
        Enqueue(note);
      }
    }

    method Enqueue(note: Note)
      modifies this
      ensures View() == ScheduleNext(GetEnv(), old(View()).(
        queue := Put(old(queue), note), received := old(received) + [note]))
    {
      var waiting := FindWaiting(note.key);
      if waiting < |queue| {
        queue := queue[waiting := note];
      } else {
        queue := queue + [note];
      }
      received := received + [note];
      ScheduleTimer();
    }

    method FindWaiting(key: Key) returns (i: nat)
      ensures i == IndexOf(queue, key)
    {
      i := 0;
      while i < |queue| && queue[i].key != key
        invariant i <= |queue|
        invariant IndexOf(queue, key) == i + IndexOf(queue[i..], key)
      {
        assert queue[i..][1..] == queue[i + 1..];
        i := i + 1;
      }
    }

    method ScheduleTimer()
      modifies this
      ensures View() == ScheduleNext(GetEnv(), old(View()))
      decreases if queue == [] then 0 else 2 * |queue| + 1
    {
      if timer.Some? || queue == [] {
        return;
      }
      var now := Now();
      if lastPublishAt.Some? && lastPublishAt.value + interval - now > 0 {
        timer := Some(lastPublishAt.value + interval);
        armed := armed + multiset{lastPublishAt.value + interval};
      } else {
        PublishHead();
      }
    }

    method PublishHead()
      modifies this
      ensures View() == PublishNext(GetEnv(), old(View()))
      decreases if queue == [] then 1 else 2 * |queue|
    {
      timer := None;
      if !connected {
        return;
      }
      if queue != [] {
        SendHead();
      }
      ScheduleTimer();
    }

    /** Starts the publish of the notification that has waited longest. */
    method SendHead()
      requires queue != [] && timer == None
      modifies this
      ensures View() == PopHead(old(View()), clock(old(readings)))
    {
      var next := queue[0];
      queue := queue[1..];
      var now := Now();
      lastPublishAt := Some(now);
      log := log + [Published(next, now)];
    }

    /** The client is back: whatever waits starts over, a full interval from now. */
    method OnReconnect()
      requires listening
      modifies this
      ensures View() == AfterReconnect(GetEnv(), old(View()))
    {
      Restart();
      ScheduleTimer();
    }

    method Restart()
      modifies this
      ensures View() == Back(GetEnv(), old(View()))
    {
      connected := true;
      Clear();
      var now := Now();
      lastPublishAt := Some(now);
      log := log + [Reconnected(now)];
    }

    method OnDestroy()
      modifies this
      ensures View() == AfterDestroy(old(View()))
    {
      listening := false;
      Clear();
      queue := [];
    }

    method Clear()
      modifies this`timer, this`armed
      ensures View() == ClearTimer(old(View()))
    {
      if timer.Some? {
        armed := armed - multiset{timer.value};
        timer := None;
      }
    }
  }
}
