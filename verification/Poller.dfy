/** The device property poller: back-off, one tick at a time, and change detection among subscriptions
    that come and go while a read is in flight. */
module Poller {
  import opened Text

  /** What a map answers for a key it lacks is a value like any other. */
  datatype Value = Undefined | Known(content: string)

  /** One device's share of a tick. */
  datatype Target = Target(deviceId: string, properties: set<string>)

  datatype Reading = Reading(property: string, value: Value, code: int)

  /** How a read ends. `enabled` is whether polling still is when the answer arrives. */
  datatype Outcome = Answered(enabled: bool, readings: seq<Reading>) | Failed

  datatype Mark =
    | Emitted(deviceId: string, property: string, oldValue: Value, newValue: Value)
    | Dropped(deviceId: string, property: string)
    | DroppedAll(deviceId: string)

  datatype Config = Config(dispatchOnChange: bool, maxErrors: nat, skipCycles: nat)

  /** Subscriptions, the last value per cache key, and what was emitted and unsubscribed so far. */
  datatype Watch = Watch(subscriptions: map<string, set<string>>, lastValues: map<string, Value>, log: seq<Mark>)

  /** Consecutive errors and cycles left to skip, per device, and the devices read so far. */
  datatype Health = Health(errorCounts: map<string, nat>, skipCycles: map<string, nat>, polled: seq<string>)

  datatype Phase = Created | Loading | Loaded

  datatype Timer = NoTimer | Kept(handle: nat)

  /** `timer` is the handle the service keeps, also while that timer's tick runs; `armed` are the timers the
      runtime has. */
  datatype Schedule = Schedule(
    phase: Phase, timer: Timer, armed: set<nat>, issued: nat, ticking: bool, ticks: nat)

  /** `due` is what the running tick has left to read. */
  datatype State = State(watch: Watch, health: Health, schedule: Schedule, due: seq<Target>)

  /** Between two events the service only waits: for a timer, for a device, or for the subscriptions. */
  datatype Event =
    | Begin
    | Load(stored: seq<(string, string)>)
    | Subscribe(deviceId: string, properties: seq<string>)
    | Unsubscribe(deviceId: string, property: string)
    | UnsubscribeAll(deviceId: string)
    | TimerFires(handle: nat, targets: seq<Target>)
    | Read(outcome: Outcome)
    | Stop

  const START := State(
    Watch(map[], map[], []), Health(map[], map[], []), Schedule(Created, NoTimer, {}, 0, false, 0), [])

  // ---- Subscriptions and the cache

  function Prefix(deviceId: string): string {
    deviceId + ":"
  }

  function Key(deviceId: string, property: string): string {
    Prefix(deviceId) + property
  }

  function LastValue(values: map<string, Value>, key: string): Value {
    if key in values then values[key] else Undefined
  }

  function Properties(subscriptions: map<string, set<string>>, deviceId: string): set<string> {
    if deviceId in subscriptions then subscriptions[deviceId] else {}
  }

  function Added(w: Watch, deviceId: string, properties: seq<string>): Watch {
    w.(subscriptions := w.subscriptions[deviceId :=
      Properties(w.subscriptions, deviceId) + (set p | p in properties)])
  }

  function AddedAll(w: Watch, stored: seq<(string, string)>): Watch
    decreases |stored|
  {
    if stored == [] then w else AddedAll(Added(w, stored[0].0, [stored[0].1]), stored[1..])
  }

  function Removed(w: Watch, deviceId: string, property: string): Watch {
    var rest := Properties(w.subscriptions, deviceId) - {property};
    Watch(
      if rest == {} then w.subscriptions - {deviceId} else w.subscriptions[deviceId := rest],
      w.lastValues - {Key(deviceId, property)},
      w.log + [Dropped(deviceId, property)])
  }

  function RemovedAll(w: Watch, deviceId: string): Watch {
    Watch(
      w.subscriptions - {deviceId},
      map key | key in w.lastValues && !(Prefix(deviceId) <= key) :: w.lastValues[key],
      w.log + [DroppedAll(deviceId)])
  }

  /** One property of a read that succeeded: refusals and lapsed subscriptions are passed over. */
  function Noticed(c: Config, w: Watch, deviceId: string, r: Reading): Watch {
    if r.code != 0 || r.property !in Properties(w.subscriptions, deviceId) then w
    else
      var last := LastValue(w.lastValues, Key(deviceId, r.property));
      if last == r.value && c.dispatchOnChange then w
      else
        w.(lastValues := w.lastValues[Key(deviceId, r.property) := r.value],
           log := w.log + [Emitted(deviceId, r.property, if last != r.value then last else r.value, r.value)])
  }

  function NoticedAll(c: Config, w: Watch, deviceId: string, readings: seq<Reading>): Watch
    decreases |readings|
  {
    if readings == [] then w else NoticedAll(c, Noticed(c, w, deviceId, readings[0]), deviceId, readings[1..])
  }

  // ---- Back-off

  function Count(counts: map<string, nat>, deviceId: string): nat {
    if deviceId in counts then counts[deviceId] else 0
  }

  function Failing(c: Config, h: Health, deviceId: string): Health {
    var count := Count(h.errorCounts, deviceId) + 1;
    if count >= c.maxErrors
    then h.(errorCounts := h.errorCounts - {deviceId}, skipCycles := h.skipCycles[deviceId := c.skipCycles])
    else h.(errorCounts := h.errorCounts[deviceId := count])
  }

  function WatchAfter(c: Config, w: Watch, deviceId: string, outcome: Outcome): Watch {
    if outcome.Answered? && outcome.enabled then NoticedAll(c, w, deviceId, outcome.readings) else w
  }

  /** The outcome of one read: an answer that arrives after polling was switched off changes nothing. */
  function HealthAfter(c: Config, h: Health, deviceId: string, outcome: Outcome): Health {
    var polled := h.(polled := h.polled + [deviceId]);
    match outcome
    case Failed => Failing(c, polled, deviceId)
    case Answered(enabled, _) =>
      if enabled then polled.(errorCounts := polled.errorCounts - {deviceId}) else polled
  }

  /** The devices in back-off, one cycle on. */
  function Skipped(skipCycles: map<string, nat>, devices: set<string>): map<string, nat> {
    map d | d in skipCycles :: if d in devices && skipCycles[d] > 0 then skipCycles[d] - 1 else skipCycles[d]
  }

  lemma SkippedOneMore(skipCycles: map<string, nat>, devices: set<string>, d: string)
    requires d !in devices
    ensures Skipped(skipCycles, devices + {d})
         == if d in skipCycles && skipCycles[d] > 0
            then Skipped(skipCycles, devices)[d := Skipped(skipCycles, devices)[d] - 1]
            else Skipped(skipCycles, devices)
    ensures Count(Skipped(skipCycles, devices), d) == Count(skipCycles, d)
  {
  }

  ghost predicate DistinctDevices(targets: seq<Target>) {
    forall i, j :: 0 <= i < j < |targets| ==> targets[i].deviceId != targets[j].deviceId
  }

  predicate Pending(targets: seq<Target>, deviceId: string) {
    exists i :: 0 <= i < |targets| && targets[i].deviceId == deviceId
  }

  /** In some order: those of `devices` that are not in back-off, each once, with their properties. */
  ghost predicate DueAmong(
    devices: set<string>, subscriptions: map<string, set<string>>, skipCycles: map<string, nat>, targets: seq<Target>)
  {
    && DistinctDevices(targets)
    && (forall d :: Pending(targets, d) <==> d in devices && Count(skipCycles, d) == 0)
    && forall i :: 0 <= i < |targets| ==>
        targets[i].deviceId in subscriptions && targets[i].properties == subscriptions[targets[i].deviceId]
  }

  ghost predicate IsDue(subscriptions: map<string, set<string>>, skipCycles: map<string, nat>, targets: seq<Target>) {
    DueAmong(subscriptions.Keys, subscriptions, skipCycles, targets)
  }

  lemma OneMoreDevice(devices: set<string>, subscriptions: map<string, set<string>>, skipCycles: map<string, nat>,
                      targets: seq<Target>, d: string)
    requires DueAmong(devices, subscriptions, skipCycles, targets) && d in subscriptions && d !in devices
    ensures DueAmong(devices + {d}, subscriptions, skipCycles,
                     if Count(skipCycles, d) > 0 then targets else targets + [Target(d, subscriptions[d])])
  {
    var all := targets + [Target(d, subscriptions[d])];
    assert !Pending(targets, d);
    assert all[|targets|].deviceId == d;
    forall other | other != d ensures Pending(all, other) <==> Pending(targets, other) {
      if i :| 0 <= i < |targets| && targets[i].deviceId == other {
        assert all[i].deviceId == other;
      }
    }
  }

  // ---- Events

  function Rearmed(t: Schedule): Schedule {
    t.(timer := Kept(t.issued), armed := t.armed + {t.issued}, issued := t.issued + 1)
  }

  function Stopped(t: Schedule): Schedule {
    if t.timer.Kept? then t.(timer := NoTimer, armed := t.armed - {t.timer.handle}) else t
  }

  /** The end of a tick, once nothing is left to read. */
  function Settled(s: State): State {
    if s.due != [] then s
    else
      var rested := s.schedule.(ticking := false);
      s.(schedule := if rested.timer.Kept? then Rearmed(rested) else rested)
  }

  function Begun(s: State, targets: seq<Target>): State {
    State(s.watch, s.health.(skipCycles := Skipped(s.health.skipCycles, s.watch.subscriptions.Keys)),
          s.schedule.(ticking := true, ticks := s.schedule.ticks + 1), targets)
  }

  function Ticked(s: State, handle: nat, targets: seq<Target>): State {
    var fired := s.(schedule := s.schedule.(armed := s.schedule.armed - {handle}));
    if s.schedule.ticking then fired
    else Settled(Begun(fired, targets))
  }

  function Polled(c: Config, s: State, outcome: Outcome): State
    requires s.due != []
  {
    var d := s.due[0].deviceId;
    Settled(State(WatchAfter(c, s.watch, d, outcome), HealthAfter(c, s.health, d, outcome), s.schedule, s.due[1..]))
  }

  ghost predicate Enabled(s: State, event: Event) {
    match event
    case Begin => s.schedule.phase.Created?
    case Load(_) => s.schedule.phase.Loading?
    case TimerFires(handle, targets) =>
      handle in s.schedule.armed && IsDue(s.watch.subscriptions, s.health.skipCycles, targets)
    case Read(_) => s.due != []
    case _ => true
  }

  function Apply(c: Config, s: State, event: Event): State
    requires event.Read? ==> s.due != []
  {
    match event
    case Begin => s.(schedule := s.schedule.(phase := Loading))
    case Load(stored) =>
      s.(watch := AddedAll(s.watch, stored), schedule := Rearmed(s.schedule.(phase := Loaded)))
    case Subscribe(d, properties) => s.(watch := Added(s.watch, d, properties))
    case Unsubscribe(d, property) => s.(watch := Removed(s.watch, d, property))
    case UnsubscribeAll(d) => s.(watch := RemovedAll(s.watch, d))
    case TimerFires(handle, targets) => Ticked(s, handle, targets)
    case Read(outcome) => Polled(c, s, outcome)
    case Stop => s.(schedule := Stopped(s.schedule))
  }

  ghost predicate IsRun(c: Config, s: State, events: seq<Event>)
    decreases |events|
  {
    events == [] || (Enabled(s, events[0]) && IsRun(c, Apply(c, s, events[0]), events[1..]))
  }

  ghost function Run(c: Config, s: State, events: seq<Event>): State
    requires IsRun(c, s, events)
    decreases |events|
  {
    if events == [] then s else Run(c, Apply(c, s, events[0]), events[1..])
  }

  // ---- One tick at a time

  /** The kept handle means exactly one of: its timer is armed, its tick is running. Without it, neither
      will start another. */
  ghost predicate OneTick(s: State) {
    var t := s.schedule;
    && (!t.phase.Loaded? ==> t.timer.NoTimer? && !t.ticking)
    && (t.ticking <==> s.due != [])
    && t.armed == (if t.timer.Kept? && !t.ticking then {t.timer.handle} else {})
    && DistinctDevices(s.due)
  }

  lemma EventKeepsOneTick(c: Config, s: State, event: Event)
    requires OneTick(s) && Enabled(s, event)
    ensures OneTick(Apply(c, s, event))
  {
  }

  lemma {:induction false} RunKeepsOneTick(c: Config, s: State, events: seq<Event>)
    requires OneTick(s) && IsRun(c, s, events)
    ensures OneTick(Run(c, s, events))
    decreases |events|
  {
    if events != [] {
      EventKeepsOneTick(c, s, events[0]);
      RunKeepsOneTick(c, Apply(c, s, events[0]), events[1..]);
    }
  }

  lemma {:induction false} HandleStays(c: Config, s: State, events: seq<Event>)
    requires IsRun(c, s, events) && Stop !in events
    requires s.schedule.phase.Loaded? ==> s.schedule.timer.Kept?
    ensures var t := Run(c, s, events).schedule; t.phase.Loaded? ==> t.timer.Kept?
    decreases |events|
  {
    if events != [] {
      assert events[0] in events;
      HandleStays(c, Apply(c, s, events[0]), events[1..]);
    }
  }

  /** Once started and not stopped, exactly one tick is pending or running; none begins while one runs. */
  lemma OneTickPendingOrRunning(c: Config, events: seq<Event>)
    requires IsRun(c, START, events) && Stop !in events
    requires Run(c, START, events).schedule.phase.Loaded?
    ensures var t := Run(c, START, events).schedule;
      && |t.armed| == (if t.ticking then 0 else 1)
      && forall handle :: handle in t.armed ==> t.timer == Kept(handle) && !t.ticking
  {
    RunKeepsOneTick(c, START, events);
    HandleStays(c, START, events);
  }

  /** From here on no timer is ever armed and no tick begins. */
  ghost predicate Quiet(c: Config, s: State) {
    forall events | IsRun(c, s, events) ::
      Run(c, s, events).schedule.armed == {} && Run(c, s, events).schedule.ticks == s.schedule.ticks
  }

  lemma {:induction false} HandleGone(c: Config, s: State, events: seq<Event>)
    requires OneTick(s) && s.schedule.phase.Loaded? && s.schedule.timer.NoTimer? && IsRun(c, s, events)
    ensures Run(c, s, events).schedule.armed == {} && Run(c, s, events).schedule.ticks == s.schedule.ticks
    decreases |events|
  {
    if events != [] {
      EventKeepsOneTick(c, s, events[0]);
      HandleGone(c, Apply(c, s, events[0]), events[1..]);
    }
  }

  /** Stopping is final exactly when the subscriptions have been loaded: a stop before or while they are is
      lost, and polling starts all the same. */
  lemma StopIsFinalIff(c: Config, s: State)
    requires OneTick(s)
    ensures Quiet(c, Apply(c, s, Stop)) <==> s.schedule.phase.Loaded?
  {
    var t := Apply(c, s, Stop);
    EventKeepsOneTick(c, s, Stop);
    if s.schedule.phase.Loaded? {
      forall events | IsRun(c, t, events)
        ensures Run(c, t, events).schedule.armed == {} && Run(c, t, events).schedule.ticks == t.schedule.ticks
      {
        HandleGone(c, t, events);
      }
    } else {
      var events := if s.schedule.phase.Created? then [Begin, Load([])] else [Load([])];
      var begun := if s.schedule.phase.Created? then Apply(c, t, Begin) else t;
      var started := Apply(c, begun, Load([]));
      assert IsRun(c, started, []) && Run(c, started, []) == started;
      assert IsRun(c, begun, [Load([])]) && Run(c, begun, [Load([])]) == started;
      assert events[1..] == if s.schedule.phase.Created? then [Load([])] else [];
      assert IsRun(c, t, events) && Run(c, t, events) == started;
      assert t.schedule.issued in started.schedule.armed;
    }
  }

  // ---- How often a dead device is read

  /** One device's back-off: its errors, its cycles to skip, and how often it was read. */
  datatype Streak = Streak(errors: nat, skip: nat, polls: nat)

  function FailOnce(c: Config, b: Streak): Streak {
    if b.errors + 1 >= c.maxErrors then Streak(0, c.skipCycles, b.polls + 1)
    else Streak(b.errors + 1, b.skip, b.polls + 1)
  }

  /** A device that only ever fails, after `n` ticks. */
  function Fails(c: Config, n: nat): Streak {
    if n == 0 then Streak(0, 0, 0)
    else
      var b := Fails(c, n - 1);
      if b.skip > 0 then b.(skip := b.skip - 1) else FailOnce(c, b)
  }

  /** Failures in a row before a pause; the count is compared after the first failure, so never none. */
  function Limit(c: Config): nat {
    if c.maxErrors == 0 then 1 else c.maxErrors
  }

  function Min(a: nat, b: nat): nat {
    if a < b then a else b
  }

  /** `M * (n / P) + min(n % P, M)`. */
  function PollsAfter(limit: nat, period: nat, n: nat): nat
    requires period > 0
  {
    limit * (n / period) + Min(n % period, limit)
  }

  function PollsOfDead(c: Config, n: nat): nat {
    PollsAfter(Limit(c), Limit(c) + c.skipCycles, n)
  }

  lemma FarFromZero(x: int, d: nat)
    requires x != 0
    ensures x * d >= d || x * d + d <= 0
  {
    if x > 0 {
      assert (x - 1) * d >= 0;
    } else {
      assert (-x - 1) * d >= 0;
    }
  }

  lemma QuotientIsUnique(n: nat, d: nat, q: nat, r: nat)
    requires r < d && n == q * d + r
    ensures n / d == q && n % d == r
  {
    var p, m := n / d, n % d;
    assert n == p * d + m;
    assert (q - p) * d == q * d - p * d == m - r;
    if q != p {
      FarFromZero(q - p, d);
    }
  }

  lemma NextQuotient(n: nat, d: nat)
    requires d > 0
    ensures if n % d + 1 == d then (n + 1) / d == n / d + 1 && (n + 1) % d == 0
            else (n + 1) / d == n / d && (n + 1) % d == n % d + 1
  {
    var q, r := n / d, n % d;
    assert n == q * d + r;
    if r + 1 == d {
      assert n + 1 == (q + 1) * d + 0;
      QuotientIsUnique(n + 1, d, q + 1, 0);
    } else {
      QuotientIsUnique(n + 1, d, q, r + 1);
    }
  }

  lemma NextPolls(limit: nat, period: nat, n: nat)
    requires 0 < limit <= period
    ensures PollsAfter(limit, period, n + 1) == PollsAfter(limit, period, n) + if n % period < limit then 1 else 0
  {
    NextQuotient(n, period);
    var q, r := n / period, n % period;
    var product := limit * q;
    assert limit * (q + 1) == product + limit;
    assert PollsAfter(limit, period, n) == product + Min(r, limit);
    if r + 1 == period {
      assert PollsAfter(limit, period, n + 1) == product + limit + Min(0, limit);
    } else {
      assert PollsAfter(limit, period, n + 1) == product + Min(r + 1, limit);
    }
  }

  lemma {:induction false} FailsInClosedForm(c: Config, n: nat)
    ensures var k := n % (Limit(c) + c.skipCycles);
      Fails(c, n) == Streak(if k < Limit(c) then k else 0, if k < Limit(c) then 0 else Limit(c) + c.skipCycles - k,
                            PollsOfDead(c, n))
  {
    if n > 0 {
      FailsInClosedForm(c, n - 1);
      NextQuotient(n - 1, Limit(c) + c.skipCycles);
      NextPolls(Limit(c), Limit(c) + c.skipCycles, n - 1);
    } else {
      QuotientIsUnique(0, Limit(c) + c.skipCycles, 0, 0);
    }
  }

  function TimesIn(xs: seq<string>, x: string): nat {
    multiset(xs)[x]
  }

  function StreakIn(h: Health, deviceId: string): Streak {
    Streak(Count(h.errorCounts, deviceId), Count(h.skipCycles, deviceId), TimesIn(h.polled, deviceId))
  }

  function Later(b: Streak, polls: nat): Streak {
    b.(polls := b.polls + polls)
  }

  /** In every state of the run the device is subscribed, and no read of it succeeds. */
  ghost predicate Dead(c: Config, s: State, events: seq<Event>, deviceId: string)
    requires IsRun(c, s, events)
    decreases |events|
  {
    && deviceId in s.watch.subscriptions
    && (events == [] ||
        (&& (events[0].Read? && s.due[0].deviceId == deviceId ==> events[0].outcome.Failed?)
         && Dead(c, Apply(c, s, events[0]), events[1..], deviceId)))
  }

  predicate Fits(c: Config, b: Streak, pending: bool, n: nat, polls: nat) {
    if pending then n > 0 && Fails(c, n - 1).skip == 0 && b == Later(Fails(c, n - 1), polls)
    else b == Later(Fails(c, n), polls)
  }

  /** The device is where `n` ticks of failures leave it, or one read short of that while the tick is
      still to come to it. */
  ghost predicate OnStreak(c: Config, s: State, deviceId: string, n: nat, polls: nat) {
    Fits(c, StreakIn(s.health, deviceId), Pending(s.due, deviceId), n, polls)
  }

  /** The read the tick still had to make, made. */
  lemma FitsAfterFailure(c: Config, b: Streak, n: nat, polls: nat)
    requires Fits(c, b, true, n, polls)
    ensures Fits(c, FailOnce(c, b), false, n, polls)
  {
  }

  /** The same, counting the ticks since tick number `since`. */
  ghost predicate OnStreakSince(c: Config, s: State, deviceId: string, since: nat, polls: nat) {
    s.schedule.ticks >= since && OnStreak(c, s, deviceId, s.schedule.ticks - since, polls)
  }

  lemma TickStaysOnStreak(
    c: Config, s: State, handle: nat, targets: seq<Target>, deviceId: string, since: nat, polls: nat)
    requires OneTick(s) && handle in s.schedule.armed && deviceId in s.watch.subscriptions
    requires IsDue(s.watch.subscriptions, s.health.skipCycles, targets)
    requires OnStreakSince(c, s, deviceId, since, polls)
    ensures OnStreakSince(c, Ticked(s, handle, targets), deviceId, since, polls)
  {
    assert !Pending(s.due, deviceId);
    var t := Ticked(s, handle, targets);
    assert t.due == targets;
    assert Pending(t.due, deviceId) <==> Count(s.health.skipCycles, deviceId) == 0;
  }

  lemma PendingAfterHead(targets: seq<Target>, deviceId: string)
    requires targets != [] && DistinctDevices(targets)
    ensures Pending(targets[1..], deviceId) <==> Pending(targets, deviceId) && targets[0].deviceId != deviceId
  {
    forall i | 0 < i < |targets| ensures targets[1..][i - 1] == targets[i] {
    }
  }

  lemma StreakAfterRead(c: Config, h: Health, read: string, outcome: Outcome, deviceId: string)
    requires read == deviceId ==> outcome.Failed?
    ensures StreakIn(HealthAfter(c, h, read, outcome), deviceId)
         == if read == deviceId then FailOnce(c, StreakIn(h, deviceId)) else StreakIn(h, deviceId)
  {
    assert multiset(h.polled + [read]) == multiset(h.polled) + multiset{read};
  }

  lemma ReadStaysOnStreak(c: Config, s: State, outcome: Outcome, deviceId: string, n: nat, polls: nat)
    requires s.due != [] && DistinctDevices(s.due) && OnStreak(c, s, deviceId, n, polls)
    requires s.due[0].deviceId == deviceId ==> outcome.Failed?
    ensures OnStreak(c, Polled(c, s, outcome), deviceId, n, polls)
  {
    var read := s.due[0].deviceId;
    assert Polled(c, s, outcome).due == s.due[1..]
      && Polled(c, s, outcome).health == HealthAfter(c, s.health, read, outcome);
    PendingAfterHead(s.due, deviceId);
    StreakAfterRead(c, s.health, read, outcome, deviceId);
    if read == deviceId {
      assert Pending(s.due, deviceId);
      FitsAfterFailure(c, StreakIn(s.health, deviceId), n, polls);
    }
  }

  lemma EventStaysOnStreak(c: Config, s: State, event: Event, deviceId: string, since: nat, polls: nat)
    requires OneTick(s) && Enabled(s, event) && deviceId in s.watch.subscriptions
    requires event.Read? && s.due[0].deviceId == deviceId ==> event.outcome.Failed?
    requires OnStreakSince(c, s, deviceId, since, polls)
    ensures OnStreakSince(c, Apply(c, s, event), deviceId, since, polls)
  {
    match event
    case TimerFires(handle, targets) => TickStaysOnStreak(c, s, handle, targets, deviceId, since, polls);
    case Read(outcome) => ReadStaysOnStreak(c, s, outcome, deviceId, s.schedule.ticks - since, polls);
    case _ =>
      var t := Apply(c, s, event);
      assert t.health == s.health && t.due == s.due && t.schedule.ticks == s.schedule.ticks;
  }

  lemma {:induction false} RunStaysOnStreak(
    c: Config, s: State, events: seq<Event>, deviceId: string, since: nat, polls: nat)
    requires OneTick(s) && IsRun(c, s, events) && Dead(c, s, events, deviceId)
    requires OnStreakSince(c, s, deviceId, since, polls)
    ensures OnStreakSince(c, Run(c, s, events), deviceId, since, polls)
    decreases |events|
  {
    if events != [] {
      var t := Apply(c, s, events[0]);
      EventKeepsOneTick(c, s, events[0]);
      EventStaysOnStreak(c, s, events[0], deviceId, since, polls);
      RunStaysOnStreak(c, t, events[1..], deviceId, since, polls);
    }
  }

  lemma PollsOnStreak(c: Config, s: State, deviceId: string, since: nat, polls: nat)
    requires OnStreakSince(c, s, deviceId, since, polls)
    ensures var n := s.schedule.ticks - since;
      && n >= (if Pending(s.due, deviceId) then 1 else 0)
      && TimesIn(s.health.polled, deviceId) == polls + PollsOfDead(c, if Pending(s.due, deviceId) then n - 1 else n)
  {
    var n := s.schedule.ticks - since;
    FailsInClosedForm(c, if Pending(s.due, deviceId) then n - 1 else n);
  }

  /** However subscriptions of other devices change meanwhile: over `n` ticks a device that always fails is read
      `M * (n / (M + S)) + min(n % (M + S), M)` times, not counting a read the running tick has yet to make. */
  lemma DeadDevicePolls(c: Config, s: State, events: seq<Event>, deviceId: string)
    requires OneTick(s) && IsRun(c, s, events) && Dead(c, s, events, deviceId)
    requires !Pending(s.due, deviceId) && StreakIn(s.health, deviceId).errors == StreakIn(s.health, deviceId).skip == 0
    ensures var t := Run(c, s, events);
      var n := t.schedule.ticks - s.schedule.ticks;
      && n >= (if Pending(t.due, deviceId) then 1 else 0)
      && TimesIn(t.health.polled, deviceId) - TimesIn(s.health.polled, deviceId)
         == PollsOfDead(c, if Pending(t.due, deviceId) then n - 1 else n)
  {
    RunStaysOnStreak(c, s, events, deviceId, s.schedule.ticks, TimesIn(s.health.polled, deviceId));
    PollsOnStreak(c, Run(c, s, events), deviceId, s.schedule.ticks, TimesIn(s.health.polled, deviceId));
  }

  /** In every state of the run the device is subscribed, and every read of it is answered. */
  ghost predicate Healthy(c: Config, s: State, events: seq<Event>, deviceId: string)
    requires IsRun(c, s, events)
    decreases |events|
  {
    && deviceId in s.watch.subscriptions
    && (events == [] ||
        (&& (events[0].Read? && s.due[0].deviceId == deviceId ==> events[0].outcome.Answered?)
         && Healthy(c, Apply(c, s, events[0]), events[1..], deviceId)))
  }

  /** It has been read once a tick since tick number `since`, but for a read the running tick has yet to make. */
  ghost predicate InStep(s: State, deviceId: string, since: nat, polls: nat) {
    && s.schedule.ticks >= since && Count(s.health.skipCycles, deviceId) == 0
    && TimesIn(s.health.polled, deviceId) + (if Pending(s.due, deviceId) then 1 else 0)
      == polls + s.schedule.ticks - since
  }

  lemma TickStaysInStep(s: State, handle: nat, targets: seq<Target>, deviceId: string, since: nat, polls: nat)
    requires OneTick(s) && handle in s.schedule.armed && deviceId in s.watch.subscriptions
    requires IsDue(s.watch.subscriptions, s.health.skipCycles, targets) && InStep(s, deviceId, since, polls)
    ensures InStep(Ticked(s, handle, targets), deviceId, since, polls)
  {
    assert !Pending(s.due, deviceId);
    assert Ticked(s, handle, targets).due == targets;
  }

  lemma ReadStaysInStep(c: Config, s: State, outcome: Outcome, deviceId: string, since: nat, polls: nat)
    requires s.due != [] && DistinctDevices(s.due) && InStep(s, deviceId, since, polls)
    requires s.due[0].deviceId == deviceId ==> outcome.Answered?
    ensures InStep(Polled(c, s, outcome), deviceId, since, polls)
  {
    var read, t := s.due[0].deviceId, Polled(c, s, outcome);
    assert t.due == s.due[1..] && t.health == HealthAfter(c, s.health, read, outcome);
    PendingAfterHead(s.due, deviceId);
    assert multiset(s.health.polled + [read]) == multiset(s.health.polled) + multiset{read};
    assert read == deviceId ==> Pending(s.due, deviceId);
  }

  lemma {:induction false} RunStaysInStep(
    c: Config, s: State, events: seq<Event>, deviceId: string, since: nat, polls: nat)
    requires OneTick(s) && IsRun(c, s, events) && Healthy(c, s, events, deviceId) && InStep(s, deviceId, since, polls)
    ensures InStep(Run(c, s, events), deviceId, since, polls)
    decreases |events|
  {
    if events != [] {
      var t := Apply(c, s, events[0]);
      EventKeepsOneTick(c, s, events[0]);
      match events[0] {
        case TimerFires(handle, targets) => TickStaysInStep(s, handle, targets, deviceId, since, polls);
        case Read(outcome) => ReadStaysInStep(c, s, outcome, deviceId, since, polls);
        case _ => assert t.health == s.health && t.due == s.due && t.schedule.ticks == s.schedule.ticks;
      }
      RunStaysInStep(c, t, events[1..], deviceId, since, polls);
    }
  }

  /** A device that always answers is read once every tick, whatever becomes of the others. */
  lemma HealthyDevicePolls(c: Config, s: State, events: seq<Event>, deviceId: string)
    requires OneTick(s) && IsRun(c, s, events) && Healthy(c, s, events, deviceId)
    requires !Pending(s.due, deviceId) && Count(s.health.skipCycles, deviceId) == 0
    ensures var t := Run(c, s, events);
      TimesIn(t.health.polled, deviceId) - TimesIn(s.health.polled, deviceId)
      == t.schedule.ticks - s.schedule.ticks - if Pending(t.due, deviceId) then 1 else 0
  {
    RunStaysInStep(c, s, events, deviceId, s.schedule.ticks, TimesIn(s.health.polled, deviceId));
  }

  lemma TimesOneMore(polled: seq<string>, read: string, deviceId: string)
    ensures TimesIn(polled + [read], deviceId) == TimesIn(polled, deviceId) + if read == deviceId then 1 else 0
  {
    assert multiset(polled + [read]) == multiset(polled) + multiset{read};
  }

  /** A read tells on the device read alone: an answer makes its failures start over, unless polling was switched
      off meanwhile; a failure counts, and the last one allowed pauses it. */
  lemma ReadsTellOnTheirDevice(c: Config, s: State, outcome: Outcome, deviceId: string)
    requires s.due != []
    ensures var b, a := StreakIn(s.health, deviceId), StreakIn(Apply(c, s, Read(outcome)).health, deviceId);
      if s.due[0].deviceId != deviceId then a == b
      else
        && a.polls == b.polls + 1
        && match outcome
           case Answered(enabled, _) => a.errors == (if enabled then 0 else b.errors) && a.skip == b.skip
           case Failed =>
             if b.errors + 1 < c.maxErrors then a.errors == b.errors + 1 && a.skip == b.skip
             else a.errors == 0 && a.skip == c.skipCycles
  {
    TimesOneMore(s.health.polled, s.due[0].deviceId, deviceId);
    assert Apply(c, s, Read(outcome)).health == HealthAfter(c, s.health, s.due[0].deviceId, outcome);
  }

  /** A recorded error count is at least one and below the limit. */
  ghost predicate CountsInRange(c: Config, h: Health) {
    forall d :: d in h.errorCounts ==> 1 <= h.errorCounts[d] < Limit(c)
  }

  lemma {:induction false} ErrorCountsStayInRange(c: Config, s: State, events: seq<Event>)
    requires IsRun(c, s, events) && CountsInRange(c, s.health)
    ensures CountsInRange(c, Run(c, s, events).health)
    decreases |events|
  {
    if events != [] {
      ErrorCountsStayInRange(c, Apply(c, s, events[0]), events[1..]);
    }
  }

  // ---- What the cache holds

  predicate Subscribed(subscriptions: map<string, set<string>>, deviceId: string, property: string) {
    property in Properties(subscriptions, deviceId)
  }

  ghost predicate HasOwner(subscriptions: map<string, set<string>>, key: string) {
    exists d, p :: Subscribed(subscriptions, d, p) && key == Key(d, p)
  }

  /** Every cached value belongs to a subscription. */
  ghost predicate NoOrphans(w: Watch) {
    forall key :: key in w.lastValues ==> HasOwner(w.subscriptions, key)
  }

  lemma AddingKeepsOwners(w: Watch, deviceId: string, properties: seq<string>)
    requires NoOrphans(w)
    ensures NoOrphans(Added(w, deviceId, properties))
  {
    var v := Added(w, deviceId, properties);
    forall key | key in v.lastValues ensures HasOwner(v.subscriptions, key) {
      var d, p :| Subscribed(w.subscriptions, d, p) && key == Key(d, p);
      assert Subscribed(v.subscriptions, d, p);
    }
  }

  lemma {:induction false} LoadingKeepsOwners(w: Watch, stored: seq<(string, string)>)
    requires NoOrphans(w)
    ensures NoOrphans(AddedAll(w, stored))
    decreases |stored|
  {
    if stored != [] {
      AddingKeepsOwners(w, stored[0].0, [stored[0].1]);
      LoadingKeepsOwners(Added(w, stored[0].0, [stored[0].1]), stored[1..]);
    }
  }

  lemma RemovingKeepsOwners(w: Watch, deviceId: string, property: string)
    requires NoOrphans(w)
    ensures NoOrphans(Removed(w, deviceId, property)) && NoOrphans(RemovedAll(w, deviceId))
  {
    var v, u := Removed(w, deviceId, property), RemovedAll(w, deviceId);
    forall key | key in v.lastValues ensures HasOwner(v.subscriptions, key) {
      var d, p :| Subscribed(w.subscriptions, d, p) && key == Key(d, p);
      assert Subscribed(v.subscriptions, d, p);
    }
    forall key | key in u.lastValues ensures HasOwner(u.subscriptions, key) {
      var d, p :| Subscribed(w.subscriptions, d, p) && key == Key(d, p);
      assert Prefix(d) <= key;
      assert Subscribed(u.subscriptions, d, p);
    }
  }

  lemma {:induction false} NoticingKeepsOwners(c: Config, w: Watch, deviceId: string, readings: seq<Reading>)
    requires NoOrphans(w)
    ensures NoOrphans(NoticedAll(c, w, deviceId, readings))
    decreases |readings|
  {
    if readings != [] {
      var r := readings[0];
      var v := Noticed(c, w, deviceId, r);
      forall key | key in v.lastValues ensures HasOwner(v.subscriptions, key) {
        if key in w.lastValues {
          assert HasOwner(w.subscriptions, key);
        } else {
          assert Subscribed(w.subscriptions, deviceId, r.property) && key == Key(deviceId, r.property);
        }
      }
      NoticingKeepsOwners(c, v, deviceId, readings[1..]);
    }
  }

  lemma EventKeepsOwners(c: Config, s: State, event: Event)
    requires Enabled(s, event) && NoOrphans(s.watch)
    ensures NoOrphans(Apply(c, s, event).watch)
  {
    match event
    case Load(stored) => LoadingKeepsOwners(s.watch, stored);
    case Subscribe(d, properties) => AddingKeepsOwners(s.watch, d, properties);
    case Unsubscribe(d, property) => RemovingKeepsOwners(s.watch, d, property);
    case UnsubscribeAll(d) => RemovingKeepsOwners(s.watch, d, "");
    case Read(outcome) =>
      if outcome.Answered? {
        NoticingKeepsOwners(c, s.watch, s.due[0].deviceId, outcome.readings);
      }
    case _ =>
  }

  /** However subscribing, unsubscribing and reading interleave, no cached value outlives its subscription. */
  lemma {:induction false} CachedValuesAreSubscribed(c: Config, s: State, events: seq<Event>)
    requires IsRun(c, s, events) && NoOrphans(s.watch)
    ensures NoOrphans(Run(c, s, events).watch)
    decreases |events|
  {
    if events != [] {
      EventKeepsOwners(c, s, events[0]);
      CachedValuesAreSubscribed(c, Apply(c, s, events[0]), events[1..]);
    }
  }

  // ---- What is emitted

  /** The value last emitted for a property since it was last unsubscribed. */
  function LastEmitted(log: seq<Mark>, deviceId: string, property: string): Value
    decreases |log|
  {
    if log == [] then Undefined
    else
      var last := log[|log| - 1];
      if last.deviceId == deviceId && (last.DroppedAll? || last.property == property)
      then if last.Emitted? then last.newValue else Undefined
      else LastEmitted(log[..|log| - 1], deviceId, property)
  }

  /** Every event's old value is the new value of the one before it. */
  ghost predicate Chained(log: seq<Mark>) {
    forall i :: 0 <= i < |log| && log[i].Emitted? ==>
      log[i].oldValue == LastEmitted(log[..i], log[i].deviceId, log[i].property)
  }

  ghost predicate OnlyChanges(log: seq<Mark>) {
    forall i :: 0 <= i < |log| && log[i].Emitted? ==> log[i].oldValue != log[i].newValue
  }

  lemma ChainedAppend(log: seq<Mark>, mark: Mark)
    requires Chained(log)
    requires mark.Emitted? ==> mark.oldValue == LastEmitted(log, mark.deviceId, mark.property)
    ensures Chained(log + [mark])
  {
    var all := log + [mark];
    forall i | 0 <= i < |all| && all[i].Emitted?
      ensures all[i].oldValue == LastEmitted(all[..i], all[i].deviceId, all[i].property)
    {
      assert all[..i] == log[..i];
      assert log[..|log|] == log;
    }
  }

  lemma OnlyChangesAppend(log: seq<Mark>, mark: Mark)
    requires OnlyChanges(log) && (mark.Emitted? ==> mark.oldValue != mark.newValue)
    ensures OnlyChanges(log + [mark])
  {
  }

  lemma {:induction false} NoticingEmitsChanges(c: Config, w: Watch, deviceId: string, readings: seq<Reading>)
    requires c.dispatchOnChange && OnlyChanges(w.log)
    ensures OnlyChanges(NoticedAll(c, w, deviceId, readings).log)
    decreases |readings|
  {
    if readings != [] {
      var v := Noticed(c, w, deviceId, readings[0]);
      if v != w {
        OnlyChangesAppend(w.log, v.log[|w.log|]);
      }
      NoticingEmitsChanges(c, v, deviceId, readings[1..]);
    }
  }

  lemma {:induction false} LoadingLogsNothing(w: Watch, stored: seq<(string, string)>)
    ensures AddedAll(w, stored).log == w.log
    decreases |stored|
  {
    if stored != [] {
      LoadingLogsNothing(Added(w, stored[0].0, [stored[0].1]), stored[1..]);
    }
  }

  /** With dispatch on change, an event's values always differ, whatever the ids. */
  lemma {:induction false} EventsAreChanges(c: Config, s: State, events: seq<Event>)
    requires c.dispatchOnChange && IsRun(c, s, events) && OnlyChanges(s.watch.log)
    ensures OnlyChanges(Run(c, s, events).watch.log)
    decreases |events|
  {
    if events != [] {
      match events[0] {
        case Load(stored) => LoadingLogsNothing(s.watch, stored);
        case Unsubscribe(d, property) => OnlyChangesAppend(s.watch.log, Dropped(d, property));
        case UnsubscribeAll(d) => OnlyChangesAppend(s.watch.log, DroppedAll(d));
        case Read(outcome) =>
          if outcome.Answered? {
            NoticingEmitsChanges(c, s.watch, s.due[0].deviceId, outcome.readings);
          }
        case _ =>
      }
      EventsAreChanges(c, Apply(c, s, events[0]), events[1..]);
    }
  }

  /** No two subscriptions share a cache key. */
  ghost predicate OneKey(pairs: iset<(string, string)>) {
    forall a, p, b, q :: (a, p) in pairs && (b, q) in pairs && Key(a, p) == Key(b, q) ==> a == b && p == q
  }

  /** Dropping the id erases no other device's cached values. */
  ghost predicate Spares(pairs: iset<(string, string)>, dropped: string) {
    forall b, p :: (b, p) in pairs && Prefix(dropped) <= Key(b, p) ==> dropped == b
  }

  /** What may be subscribed, and what may be dropped, keep out of each other's way. */
  ghost predicate Separate(pairs: iset<(string, string)>, dropped: iset<string>) {
    OneKey(pairs) && forall a :: a in dropped ==> Spares(pairs, a)
  }

  ghost predicate Remembered(w: Watch, deviceId: string, property: string) {
    LastValue(w.lastValues, Key(deviceId, property)) == LastEmitted(w.log, deviceId, property)
  }

  /** The cache remembers, for every subscription there may be, what was last emitted for it. */
  ghost predicate Remembers(pairs: iset<(string, string)>, w: Watch) {
    forall d, p :: (d, p) in pairs ==> Remembered(w, d, p)
  }

  ghost predicate Admitted(pairs: iset<(string, string)>, subscriptions: map<string, set<string>>) {
    forall d, p :: Subscribed(subscriptions, d, p) ==> (d, p) in pairs
  }

  ghost predicate Faithful(pairs: iset<(string, string)>, w: Watch) {
    Chained(w.log) && Remembers(pairs, w) && Admitted(pairs, w.subscriptions)
  }

  lemma RemovingIsFaithful(pairs: iset<(string, string)>, w: Watch, deviceId: string, property: string)
    requires OneKey(pairs) && (deviceId, property) in pairs && Faithful(pairs, w)
    ensures Faithful(pairs, Removed(w, deviceId, property))
  {
    var v := Removed(w, deviceId, property);
    ChainedAppend(w.log, Dropped(deviceId, property));
    assert v.log[..|w.log|] == w.log;
    forall d, p | (d, p) in pairs ensures Remembered(v, d, p) {
      assert Remembered(w, d, p);
    }
    forall d, p | Subscribed(v.subscriptions, d, p) ensures (d, p) in pairs {
      assert Subscribed(w.subscriptions, d, p);
    }
  }

  lemma RemovingAllIsFaithful(pairs: iset<(string, string)>, w: Watch, deviceId: string)
    requires Spares(pairs, deviceId) && Faithful(pairs, w)
    ensures Faithful(pairs, RemovedAll(w, deviceId))
  {
    var v := RemovedAll(w, deviceId);
    ChainedAppend(w.log, DroppedAll(deviceId));
    assert v.log[..|w.log|] == w.log;
    forall d, p | (d, p) in pairs ensures Remembered(v, d, p) {
      assert Remembered(w, d, p);
      assert Prefix(d) <= Key(d, p);
    }
    forall d, p | Subscribed(v.subscriptions, d, p) ensures (d, p) in pairs {
      assert Subscribed(w.subscriptions, d, p);
    }
  }

  lemma NoticingIsFaithful(c: Config, pairs: iset<(string, string)>, w: Watch, deviceId: string, r: Reading)
    requires OneKey(pairs) && Faithful(pairs, w)
    ensures Faithful(pairs, Noticed(c, w, deviceId, r))
  {
    var v := Noticed(c, w, deviceId, r);
    if v != w {
      assert Subscribed(w.subscriptions, deviceId, r.property);
      assert Remembered(w, deviceId, r.property);
      var mark := v.log[|w.log|];
      assert v.log == w.log + [mark] && v.log[..|w.log|] == w.log;
      ChainedAppend(w.log, mark);
      forall d, p | (d, p) in pairs ensures Remembered(v, d, p) {
        assert Remembered(w, d, p);
      }
    }
  }

  lemma {:induction false} NoticingAllIsFaithful(
    c: Config, pairs: iset<(string, string)>, w: Watch, deviceId: string, readings: seq<Reading>)
    requires OneKey(pairs) && Faithful(pairs, w)
    ensures Faithful(pairs, NoticedAll(c, w, deviceId, readings))
    decreases |readings|
  {
    if readings != [] {
      NoticingIsFaithful(c, pairs, w, deviceId, readings[0]);
      NoticingAllIsFaithful(c, pairs, Noticed(c, w, deviceId, readings[0]), deviceId, readings[1..]);
    }
  }

  lemma AddingIsFaithful(pairs: iset<(string, string)>, w: Watch, deviceId: string, properties: seq<string>)
    requires Faithful(pairs, w) && forall i :: 0 <= i < |properties| ==> (deviceId, properties[i]) in pairs
    ensures Faithful(pairs, Added(w, deviceId, properties))
  {
    var v := Added(w, deviceId, properties);
    forall d, p | (d, p) in pairs ensures Remembered(v, d, p) {
      assert Remembered(w, d, p);
    }
    forall d, p | Subscribed(v.subscriptions, d, p) ensures (d, p) in pairs {
      assert d != deviceId || p !in properties ==> Subscribed(w.subscriptions, d, p);
    }
  }

  lemma {:induction false} LoadingIsFaithful(pairs: iset<(string, string)>, w: Watch, stored: seq<(string, string)>)
    requires Faithful(pairs, w) && forall i :: 0 <= i < |stored| ==> stored[i] in pairs
    ensures Faithful(pairs, AddedAll(w, stored))
    decreases |stored|
  {
    if stored != [] {
      assert (stored[0].0, stored[0].1) == stored[0];
      AddingIsFaithful(pairs, w, stored[0].0, [stored[0].1]);
      LoadingIsFaithful(pairs, Added(w, stored[0].0, [stored[0].1]), stored[1..]);
    }
  }

  /** A value read for a live subscription is, afterwards, the one last emitted for it. */
  lemma ReadingIsEmitted(c: Config, w: Watch, deviceId: string, r: Reading)
    requires Remembered(w, deviceId, r.property) && Subscribed(w.subscriptions, deviceId, r.property) && r.code == 0
    ensures LastEmitted(Noticed(c, w, deviceId, r).log, deviceId, r.property) == r.value
  {
    var v := Noticed(c, w, deviceId, r);
    if v != w {
      assert v.log[..|w.log|] == w.log;
    }
  }

  lemma {:induction false} OthersKeepTheirs(
    c: Config, w: Watch, deviceId: string, readings: seq<Reading>, property: string)
    requires forall i :: 0 <= i < |readings| ==> readings[i].property != property
    ensures LastEmitted(NoticedAll(c, w, deviceId, readings).log, deviceId, property)
      == LastEmitted(w.log, deviceId, property)
    decreases |readings|
  {
    if readings != [] {
      var v := Noticed(c, w, deviceId, readings[0]);
      assert v != w ==> v.log[..|w.log|] == w.log;
      OthersKeepTheirs(c, v, deviceId, readings[1..], property);
    }
  }

  ghost predicate DistinctProperties(readings: seq<Reading>) {
    forall i, j :: 0 <= i < j < |readings| ==> readings[i].property != readings[j].property
  }

  /** Nothing read goes unreported: after an answer, every live property was last emitted with the value read. */
  lemma {:induction false} AnswerIsEmitted(
    c: Config, pairs: iset<(string, string)>, w: Watch, deviceId: string, readings: seq<Reading>, i: nat)
    requires OneKey(pairs) && Faithful(pairs, w) && DistinctProperties(readings)
    requires i < |readings| && readings[i].code == 0 && Subscribed(w.subscriptions, deviceId, readings[i].property)
    ensures LastEmitted(NoticedAll(c, w, deviceId, readings).log, deviceId, readings[i].property) == readings[i].value
    decreases |readings|
  {
    var v := Noticed(c, w, deviceId, readings[0]);
    if i == 0 {
      assert Remembered(w, deviceId, readings[0].property);
      ReadingIsEmitted(c, w, deviceId, readings[0]);
      OthersKeepTheirs(c, v, deviceId, readings[1..], readings[0].property);
    } else {
      NoticingIsFaithful(c, pairs, w, deviceId, readings[0]);
      AnswerIsEmitted(c, pairs, v, deviceId, readings[1..], i - 1);
    }
  }

  /** The event subscribes and unsubscribes `pairs` only, and drops only ids of `dropped`. */
  ghost predicate Names(pairs: iset<(string, string)>, dropped: iset<string>, event: Event) {
    match event
    case Load(stored) => forall i :: 0 <= i < |stored| ==> stored[i] in pairs
    case Subscribe(d, properties) => forall i :: 0 <= i < |properties| ==> (d, properties[i]) in pairs
    case Unsubscribe(d, property) => (d, property) in pairs
    case UnsubscribeAll(d) => d in dropped
    case _ => true
  }

  ghost predicate AllName(pairs: iset<(string, string)>, dropped: iset<string>, events: seq<Event>) {
    forall i :: 0 <= i < |events| ==> Names(pairs, dropped, events[i])
  }

  lemma EventIsFaithful(c: Config, pairs: iset<(string, string)>, dropped: iset<string>, s: State, event: Event)
    requires Separate(pairs, dropped) && Enabled(s, event) && Names(pairs, dropped, event) && Faithful(pairs, s.watch)
    ensures Faithful(pairs, Apply(c, s, event).watch)
  {
    match event
    case Load(stored) => LoadingIsFaithful(pairs, s.watch, stored);
    case Subscribe(d, properties) => AddingIsFaithful(pairs, s.watch, d, properties);
    case Unsubscribe(d, property) => RemovingIsFaithful(pairs, s.watch, d, property);
    case UnsubscribeAll(d) => RemovingAllIsFaithful(pairs, s.watch, d);
    case Read(outcome) =>
      if outcome.Answered? {
        NoticingAllIsFaithful(c, pairs, s.watch, s.due[0].deviceId, outcome.readings);
      }
    case _ =>
  }

  lemma {:induction false} RunIsFaithful(
    c: Config, pairs: iset<(string, string)>, dropped: iset<string>, s: State, events: seq<Event>)
    requires Separate(pairs, dropped) && IsRun(c, s, events) && AllName(pairs, dropped, events)
    requires Faithful(pairs, s.watch)
    ensures Faithful(pairs, Run(c, s, events).watch)
    decreases |events|
  {
    if events != [] {
      EventIsFaithful(c, pairs, dropped, s, events[0]);
      RunIsFaithful(c, pairs, dropped, Apply(c, s, events[0]), events[1..]);
    }
  }

  /** The reading was not refused, and is still subscribed for. */
  predicate Live(w: Watch, deviceId: string, r: Reading) {
    r.code == 0 && Subscribed(w.subscriptions, deviceId, r.property)
  }

  predicate ReportsOne(w: Watch, deviceId: string, r: Reading, mark: Mark) {
    && Live(w, deviceId, r) && mark.Emitted?
    && mark.deviceId == deviceId && mark.property == r.property && mark.newValue == r.value
  }

  /** The entry reports some live reading. */
  ghost predicate Reports(w: Watch, deviceId: string, readings: seq<Reading>, mark: Mark) {
    exists i :: 0 <= i < |readings| && ReportsOne(w, deviceId, readings[i], mark)
  }

  /** What an answer adds to the log reports its live readings and nothing else. */
  lemma {:induction false} NoticingReports(c: Config, w: Watch, deviceId: string, readings: seq<Reading>)
    ensures var v := NoticedAll(c, w, deviceId, readings);
      && v.subscriptions == w.subscriptions && w.log <= v.log
      && forall k :: |w.log| <= k < |v.log| ==> Reports(w, deviceId, readings, v.log[k])
    decreases |readings|
  {
    if readings != [] {
      var u := Noticed(c, w, deviceId, readings[0]);
      var v := NoticedAll(c, w, deviceId, readings);
      NoticingReports(c, u, deviceId, readings[1..]);
      assert u != w ==> ReportsOne(w, deviceId, readings[0], u.log[|w.log|]);
      forall k | |w.log| <= k < |v.log| ensures Reports(w, deviceId, readings, v.log[k]) {
        if k < |u.log| {
          assert v.log[k] == u.log[|w.log|];
        } else {
          var i :| 0 <= i < |readings[1..]| && ReportsOne(u, deviceId, readings[1..][i], v.log[k]);
          assert ReportsOne(w, deviceId, readings[i + 1], v.log[k]);
        }
      }
    }
  }

  lemma {:induction false} NoticingReportsAll(c: Config, w: Watch, deviceId: string, readings: seq<Reading>, i: nat)
    returns (k: nat)
    requires !c.dispatchOnChange && i < |readings| && Live(w, deviceId, readings[i])
    ensures var v := NoticedAll(c, w, deviceId, readings);
      |w.log| <= k < |v.log| && ReportsOne(w, deviceId, readings[i], v.log[k])
    decreases |readings|
  {
    var u := Noticed(c, w, deviceId, readings[0]);
    NoticingReports(c, u, deviceId, readings[1..]);
    if i == 0 {
      k := |w.log|;
      assert ReportsOne(w, deviceId, readings[0], u.log[k]);
      assert NoticedAll(c, w, deviceId, readings).log[k] == u.log[k];
    } else {
      k := NoticingReportsAll(c, u, deviceId, readings[1..], i - 1);
    }
  }

  /** In any run: once an answer is in, every live property was last emitted with the value read; what was emitted
      reports such readings of that device, and nothing else. A read that failed, or was answered after polling had
      been switched off, reports nothing. */
  lemma AnswersAreReported(
    c: Config, pairs: iset<(string, string)>, dropped: iset<string>, events: seq<Event>, outcome: Outcome)
    requires Separate(pairs, dropped) && IsRun(c, START, events) && AllName(pairs, dropped, events)
    requires Run(c, START, events).due != [] && (outcome.Answered? ==> DistinctProperties(outcome.readings))
    ensures var s := Run(c, START, events);
      var t, d := Apply(c, s, Read(outcome)), s.due[0].deviceId;
      if outcome.Failed? || !outcome.enabled then t.watch == s.watch
      else
        && (forall i :: 0 <= i < |outcome.readings| && Live(s.watch, d, outcome.readings[i]) ==>
              LastEmitted(t.watch.log, d, outcome.readings[i].property) == outcome.readings[i].value)
        && t.watch.subscriptions == s.watch.subscriptions && s.watch.log <= t.watch.log
        && forall k :: |s.watch.log| <= k < |t.watch.log| ==> Reports(s.watch, d, outcome.readings, t.watch.log[k])
  {
    RunIsFaithful(c, pairs, dropped, START, events);
    var s := Run(c, START, events);
    var d := s.due[0].deviceId;
    if outcome.Answered? && outcome.enabled {
      NoticingReports(c, s.watch, d, outcome.readings);
      forall i | 0 <= i < |outcome.readings| && Live(s.watch, d, outcome.readings[i])
        ensures LastEmitted(Apply(c, s, Read(outcome)).watch.log, d, outcome.readings[i].property)
             == outcome.readings[i].value
      {
        AnswerIsEmitted(c, pairs, s.watch, d, outcome.readings, i);
      }
    }
  }

  /** Without dispatch on change, every live reading is emitted every time. */
  lemma EveryReadingIsEmitted(c: Config, s: State, readings: seq<Reading>, i: nat) returns (k: nat)
    requires !c.dispatchOnChange && s.due != []
    requires i < |readings| && Live(s.watch, s.due[0].deviceId, readings[i])
    ensures var t := Apply(c, s, Read(Answered(true, readings)));
      && |s.watch.log| <= k < |t.watch.log|
      && ReportsOne(s.watch, s.due[0].deviceId, readings[i], t.watch.log[k])
  {
    k := NoticingReportsAll(c, s.watch, s.due[0].deviceId, readings, i);
  }

  // ---- Told by the events

  /** Whether the subscription is wanted after these events, when `before` says whether it was. */
  predicate Wanted(before: bool, events: seq<Event>, deviceId: string, property: string)
    decreases |events|
  {
    if events == [] then before
    else
      var now :=
        match events[0]
        case Load(stored) => before || (deviceId, property) in stored
        case Subscribe(d, properties) => before || (d == deviceId && property in properties)
        case Unsubscribe(d, p) => before && !(d == deviceId && p == property)
        case UnsubscribeAll(d) => before && d != deviceId
        case _ => before;
      Wanted(now, events[1..], deviceId, property)
  }

  lemma {:induction false} LoadingSubscribes(
    w: Watch, stored: seq<(string, string)>, deviceId: string, property: string)
    ensures Subscribed(AddedAll(w, stored).subscriptions, deviceId, property)
       <==> Subscribed(w.subscriptions, deviceId, property) || (deviceId, property) in stored
    decreases |stored|
  {
    if stored != [] {
      LoadingSubscribes(Added(w, stored[0].0, [stored[0].1]), stored[1..], deviceId, property);
      assert stored == [stored[0]] + stored[1..];
    }
  }

  /** A property is subscribed exactly when the events ask for it last. */
  lemma {:induction false} SubscriptionsAreWanted(
    c: Config, s: State, events: seq<Event>, deviceId: string, property: string)
    requires IsRun(c, s, events)
    ensures Subscribed(Run(c, s, events).watch.subscriptions, deviceId, property)
       <==> Wanted(Subscribed(s.watch.subscriptions, deviceId, property), events, deviceId, property)
    decreases |events|
  {
    if events != [] {
      match events[0] {
        case Load(stored) => LoadingSubscribes(s.watch, stored, deviceId, property);
        case Read(outcome) =>
          if outcome.Answered? {
            NoticingReports(c, s.watch, s.due[0].deviceId, outcome.readings);
          }
        case _ =>
      }
      SubscriptionsAreWanted(c, Apply(c, s, events[0]), events[1..], deviceId, property);
    }
  }

  /** The unsubscriptions in a log, and among events. */
  function Drops(log: seq<Mark>): seq<Mark> {
    if log == [] then [] else (if log[0].Emitted? then [] else [log[0]]) + Drops(log[1..])
  }

  function DropOf(event: Event): seq<Mark> {
    match event
    case Unsubscribe(d, p) => [Dropped(d, p)]
    case UnsubscribeAll(d) => [DroppedAll(d)]
    case _ => []
  }

  function DropsOf(events: seq<Event>): seq<Mark> {
    if events == [] then [] else DropOf(events[0]) + DropsOf(events[1..])
  }

  lemma DropsCons(mark: Mark, rest: seq<Mark>)
    ensures Drops([mark] + rest) == (if mark.Emitted? then [] else [mark]) + Drops(rest)
  {
    assert ([mark] + rest)[1..] == rest;
  }

  lemma {:induction false} DropsAppend(a: seq<Mark>, b: seq<Mark>)
    ensures Drops(a + b) == Drops(a) + Drops(b)
  {
    if a == [] {
      assert a + b == b;
    } else {
      DropsAppend(a[1..], b);
      assert a == [a[0]] + a[1..] && a + b == [a[0]] + (a[1..] + b);
      DropsCons(a[0], a[1..]);
      DropsCons(a[0], a[1..] + b);
      Associate(if a[0].Emitted? then [] else [a[0]], Drops(a[1..]), Drops(b));
    }
  }

  lemma {:induction false} EmittedDropsNothing(marks: seq<Mark>)
    requires forall i :: 0 <= i < |marks| ==> marks[i].Emitted?
    ensures Drops(marks) == []
  {
    if marks != [] {
      EmittedDropsNothing(marks[1..]);
    }
  }

  lemma EventDrops(c: Config, s: State, event: Event)
    requires Enabled(s, event)
    ensures s.watch.log <= Apply(c, s, event).watch.log
    ensures Drops(Apply(c, s, event).watch.log) == Drops(s.watch.log) + DropOf(event)
  {
    var t := Apply(c, s, event);
    match event {
      case Load(stored) => LoadingLogsNothing(s.watch, stored);
      case Read(outcome) =>
        if outcome.Answered? {
          NoticingReports(c, s.watch, s.due[0].deviceId, outcome.readings);
        }
      case _ =>
    }
    var added := t.watch.log[|s.watch.log|..];
    assert t.watch.log == s.watch.log + added;
    DropsAppend(s.watch.log, added);
    if event.Unsubscribe? || event.UnsubscribeAll? {
      assert added == DropOf(event) && added[1..] == [];
    } else {
      EmittedDropsNothing(added);
    }
  }

  /** The log drops exactly what the events unsubscribe, in order: an emitted value is forgotten then and only then. */
  lemma {:induction false} DropsAreTold(c: Config, s: State, events: seq<Event>)
    requires IsRun(c, s, events)
    ensures Drops(Run(c, s, events).watch.log) == Drops(s.watch.log) + DropsOf(events)
    decreases |events|
  {
    if events != [] {
      EventDrops(c, s, events[0]);
      DropsAreTold(c, Apply(c, s, events[0]), events[1..]);
      Associate(Drops(s.watch.log), DropOf(events[0]), DropsOf(events[1..]));
    }
  }

  /** Over any run that subscribes `pairs` and drops `dropped`, whatever happens while a read is in flight. */
  ghost predicate AlwaysChained(c: Config, pairs: iset<(string, string)>, dropped: iset<string>) {
    forall events | IsRun(c, START, events) && AllName(pairs, dropped, events) ::
      Chained(Run(c, START, events).watch.log)
  }

  lemma EventsAreChained(c: Config, pairs: iset<(string, string)>, dropped: iset<string>, events: seq<Event>)
    requires Separate(pairs, dropped) && IsRun(c, START, events) && AllName(pairs, dropped, events)
    ensures Chained(Run(c, START, events).watch.log)
  {
    RunIsFaithful(c, pairs, dropped, START, events);
  }

  lemma OneMoreEvent(c: Config, s: State, event: Event, rest: seq<Event>)
    requires Enabled(s, event) && IsRun(c, Apply(c, s, event), rest)
    ensures IsRun(c, s, [event] + rest) && Run(c, s, [event] + rest) == Run(c, Apply(c, s, event), rest)
  {
    assert ([event] + rest)[1..] == rest;
  }

  /** One property of one device is subscribed, and its value changes between two ticks. */
  function Turned(deviceId: string, property: string, value: string): Event {
    Read(Answered(true, [Reading(property, Known(value), 0)]))
  }

  lemma SoleTick(c: Config, s: State, deviceId: string, property: string, handle: nat)
    requires s.watch.subscriptions == map[deviceId := {property}] && s.health.skipCycles == map[]
    requires s.schedule.armed == {handle} && s.schedule.timer == Kept(handle) && !s.schedule.ticking
    ensures var event := TimerFires(handle, [Target(deviceId, {property})]);
      && Enabled(s, event)
      && Apply(c, s, event).watch == s.watch && Apply(c, s, event).due == event.targets
      && Apply(c, s, event).health == s.health
      && Apply(c, s, event).schedule == s.schedule.(armed := {}, ticking := true, ticks := s.schedule.ticks + 1)
  {
    var targets := [Target(deviceId, {property})];
    forall d ensures Pending(targets, d) <==> d == deviceId {
      assert targets[0].deviceId == deviceId;
    }
    assert s.health.skipCycles == Skipped(s.health.skipCycles, {deviceId});
  }

  lemma SoleRead(c: Config, s: State, deviceId: string, property: string, value: string, handle: nat)
    requires s.watch.subscriptions == map[deviceId := {property}] && s.health.skipCycles == map[]
    requires s.due == [Target(deviceId, {property})] && s.watch.lastValues == map[]
    requires s.schedule.armed == {} && s.schedule.timer == Kept(handle) && s.schedule.issued == handle + 1
    ensures var t := Apply(c, s, Turned(deviceId, property, value));
      && t.watch.log == s.watch.log + [Emitted(deviceId, property, Undefined, Known(value))]
      && t.watch.lastValues == map[Key(deviceId, property) := Known(value)]
      && t.watch.subscriptions == s.watch.subscriptions && t.health.skipCycles == map[]
      && t.schedule.armed == {handle + 1} && t.schedule.timer == Kept(handle + 1) && !t.schedule.ticking
      && t.schedule.issued == handle + 2
  {
    var r := Reading(property, Known(value), 0);
    assert NoticedAll(c, s.watch, deviceId, [r]) == Noticed(c, s.watch, deviceId, r) by {
      assert [r][1..] == [];
    }
  }

  /** A subscribed device loses its cached value when another id is dropped. */
  function Breaking(a: string, b: string, p: string): seq<Event> {
    [Begin] + ([Load([(b, p)])] + ([TimerFires(0, [Target(b, {p})])] + ([Turned(b, p, "on")] + ([UnsubscribeAll(a)]
      + ([TimerFires(1, [Target(b, {p})])] + ([Turned(b, p, "off")] + []))))))
  }

  lemma SoleLoad(c: Config, deviceId: string, property: string)
    ensures Apply(c, Apply(c, START, Begin), Load([(deviceId, property)]))
         == State(Watch(map[deviceId := {property}], map[], []), Health(map[], map[], []),
                  Schedule(Loaded, Kept(0), {0}, 1, false, 0), [])
  {
    var stored := [(deviceId, property)];
    var properties := set x | x in [property];
    assert {} + properties == {property};
    var w := Added(START.watch, deviceId, [property]);
    assert w.subscriptions == map[deviceId := {} + properties];
    assert w == Watch(map[deviceId := {property}], map[], []);
    assert stored[1..] == [] && AddedAll(w, stored[1..]) == w;
    assert AddedAll(START.watch, stored) == w;
    assert {0} == {} + {0};
  }

  lemma BrokenChain(a: string, b: string, property: string, one: Value, two: Value)
    requires a != b && one != Undefined
    ensures !Chained([Emitted(b, property, Undefined, one), DroppedAll(a), Emitted(b, property, Undefined, two)])
  {
    var log := [Emitted(b, property, Undefined, one), DroppedAll(a), Emitted(b, property, Undefined, two)];
    assert log[..2][..1] == [log[0]];
    assert LastEmitted(log[..2], b, property) == LastEmitted([log[0]], b, property);
    assert log[2].oldValue != LastEmitted(log[..2], log[2].deviceId, log[2].property);
  }

  /** Dropping an id whose prefix begins another device's cache key makes that property look newly subscribed. */
  lemma DroppingAnotherBreaksTheChain(c: Config, a: string, b: string, p: string)
    requires a != b && Prefix(a) <= Key(b, p)
    ensures IsRun(c, START, Breaking(a, b, p)) && !Chained(Run(c, START, Breaking(a, b, p)).watch.log)
  {
    var fires0, fires1 := TimerFires(0, [Target(b, {p})]), TimerFires(1, [Target(b, {p})]);
    var s1 := Apply(c, START, Begin);
    var s2 := Apply(c, s1, Load([(b, p)]));
    SoleLoad(c, b, p);
    SoleTick(c, s2, b, p, 0);
    var s3 := Apply(c, s2, fires0);
    SoleRead(c, s3, b, p, "on", 0);
    var s4 := Apply(c, s3, Turned(b, p, "on"));
    var s5 := Apply(c, s4, UnsubscribeAll(a));
    assert s5.watch.lastValues == map[] && s5.watch.subscriptions == s4.watch.subscriptions;
    SoleTick(c, s5, b, p, 1);
    var s6 := Apply(c, s5, fires1);
    SoleRead(c, s6, b, p, "off", 1);
    var s7 := Apply(c, s6, Turned(b, p, "off"));
    assert s7.watch.log
        == [Emitted(b, p, Undefined, Known("on")), DroppedAll(a), Emitted(b, p, Undefined, Known("off"))];
    BrokenChain(a, b, p, Known("on"), Known("off"));

    var last := [UnsubscribeAll(a)] + ([fires1] + ([Turned(b, p, "off")] + []));
    OneMoreEvent(c, s6, Turned(b, p, "off"), []);
    OneMoreEvent(c, s5, fires1, [Turned(b, p, "off")] + []);
    OneMoreEvent(c, s4, UnsubscribeAll(a), [fires1] + ([Turned(b, p, "off")] + []));
    OneMoreEvent(c, s3, Turned(b, p, "on"), last);
    OneMoreEvent(c, s2, fires0, [Turned(b, p, "on")] + last);
    OneMoreEvent(c, s1, Load([(b, p)]), [fires0] + ([Turned(b, p, "on")] + last));
    OneMoreEvent(c, START, Begin, [Load([(b, p)])] + ([fires0] + ([Turned(b, p, "on")] + last)));
  }

  /** Property keys hold a colon themselves: an id that spells a device's id and the service of one of its
      properties erases that device's value. */
  lemma ServiceNameBreaksTheChain(c: Config, device: string, service: string, member: string)
    ensures var events := Breaking(device + ":" + service, device, service + ":" + member);
      IsRun(c, START, events) && !Chained(Run(c, START, events).watch.log)
  {
    var property := service + ":" + member;
    assert Key(device, property) == Prefix(device + ":" + service) + member;
    DroppingAnotherBreaksTheChain(c, device + ":" + service, device, property);
  }

  /** Two subscriptions with one cache key: the second's first event continues the first's. */
  function Sharing(a: string, p: string, b: string, q: string): seq<Event> {
    [Begin] + ([Load([(a, p), (b, q)])] + ([TimerFires(0, [Target(a, {p}), Target(b, {q})])]
      + ([Turned(a, p, "on")] + ([Turned(b, q, "off")] + []))))
  }

  lemma LoadOfTwo(c: Config, a: string, p: string, b: string, q: string)
    requires a != b
    ensures Apply(c, Apply(c, START, Begin), Load([(a, p), (b, q)])).watch == Watch(map[a := {p}, b := {q}], map[], [])
  {
    var stored := [(a, p), (b, q)];
    var first := Added(START.watch, a, [p]);
    assert (set x | x in [p]) == {p} && (set x | x in [q]) == {q};
    assert {} + {p} == {p} && {} + {q} == {q};
    assert first.subscriptions == map[a := {p}];
    var second := Added(first, b, [q]);
    assert second.subscriptions == map[a := {p}, b := {q}];
    assert stored[1..] == [(b, q)] && stored[1..][1..] == [];
    assert AddedAll(first, stored[1..]) == AddedAll(second, []) == second;
  }

  lemma TwoAreDue(a: string, p: string, b: string, q: string)
    requires a != b
    ensures IsDue(map[a := {p}, b := {q}], map[], [Target(a, {p}), Target(b, {q})])
  {
    var targets := [Target(a, {p}), Target(b, {q})];
    forall d ensures Pending(targets, d) <==> d == a || d == b {
      assert targets[0].deviceId == a && targets[1].deviceId == b;
    }
  }

  lemma ReadOfOne(c: Config, w: Watch, d: string, p: string, value: string)
    requires Subscribed(w.subscriptions, d, p) && LastValue(w.lastValues, Key(d, p)) != Known(value)
    ensures NoticedAll(c, w, d, [Reading(p, Known(value), 0)])
         == w.(lastValues := w.lastValues[Key(d, p) := Known(value)],
               log := w.log + [Emitted(d, p, LastValue(w.lastValues, Key(d, p)), Known(value))])
  {
    var r := Reading(p, Known(value), 0);
    assert [r][1..] == [];
    assert NoticedAll(c, w, d, [r]) == Noticed(c, w, d, r);
  }

  lemma ForeignOldValue(a: string, p: string, b: string, q: string)
    requires a != b
    ensures !Chained([Emitted(a, p, Undefined, Known("on")), Emitted(b, q, Known("on"), Known("off"))])
  {
    var log := [Emitted(a, p, Undefined, Known("on")), Emitted(b, q, Known("on"), Known("off"))];
    assert log[..1][..0] == [];
    assert LastEmitted(log[..1], b, q) == Undefined;
    assert log[1].oldValue != LastEmitted(log[..1], log[1].deviceId, log[1].property);
  }

  lemma SharedKeyBreaksTheChain(c: Config, a: string, p: string, b: string, q: string)
    requires (a, p) != (b, q) && Key(a, p) == Key(b, q)
    ensures IsRun(c, START, Sharing(a, p, b, q)) && !Chained(Run(c, START, Sharing(a, p, b, q)).watch.log)
  {
    assert a != b by {
      assert Key(a, p)[|Prefix(a)|..] == p && Key(b, q)[|Prefix(b)|..] == q;
    }
    var fires := TimerFires(0, [Target(a, {p}), Target(b, {q})]);
    var s1 := Apply(c, START, Begin);
    var s2 := Apply(c, s1, Load([(a, p), (b, q)]));
    LoadOfTwo(c, a, p, b, q);
    TwoAreDue(a, p, b, q);
    var s3 := Apply(c, s2, fires);
    ReadOfOne(c, s3.watch, a, p, "on");
    var s4 := Apply(c, s3, Turned(a, p, "on"));
    assert s4.due == [Target(b, {q})];
    ReadOfOne(c, s4.watch, b, q, "off");
    var s5 := Apply(c, s4, Turned(b, q, "off"));
    assert s5.watch.log == [Emitted(a, p, Undefined, Known("on")), Emitted(b, q, Known("on"), Known("off"))];
    ForeignOldValue(a, p, b, q);

    OneMoreEvent(c, s4, Turned(b, q, "off"), []);
    OneMoreEvent(c, s3, Turned(a, p, "on"), [Turned(b, q, "off")] + []);
    OneMoreEvent(c, s2, fires, [Turned(a, p, "on")] + ([Turned(b, q, "off")] + []));
    OneMoreEvent(c, s1, Load([(a, p), (b, q)]), [fires] + ([Turned(a, p, "on")] + ([Turned(b, q, "off")] + [])));
    OneMoreEvent(c, START, Begin,
                 [Load([(a, p), (b, q)])] + ([fires] + ([Turned(a, p, "on")] + ([Turned(b, q, "off")] + []))));
  }

  lemma BreakingNames(pairs: iset<(string, string)>, dropped: iset<string>, a: string, b: string, p: string)
    requires a in dropped && (b, p) in pairs
    ensures AllName(pairs, dropped, Breaking(a, b, p))
  {
  }

  lemma SharingNames(pairs: iset<(string, string)>, dropped: iset<string>, a: string, p: string, b: string, q: string)
    requires (a, p) in pairs && (b, q) in pairs
    ensures AllName(pairs, dropped, Sharing(a, p, b, q))
  {
  }

  /** Events are chained in every run exactly when no two admissible subscriptions share a cache key and no id
      that may be dropped has a prefix that begins the key of another device's. */
  lemma EventsAreChainedIff(c: Config, pairs: iset<(string, string)>, dropped: iset<string>)
    ensures AlwaysChained(c, pairs, dropped) <==> Separate(pairs, dropped)
  {
    if Separate(pairs, dropped) {
      forall events | IsRun(c, START, events) && AllName(pairs, dropped, events)
        ensures Chained(Run(c, START, events).watch.log)
      {
        EventsAreChained(c, pairs, dropped, events);
      }
    } else if !OneKey(pairs) {
      var a, p, b, q :| (a, p) in pairs && (b, q) in pairs && Key(a, p) == Key(b, q) && (a, p) != (b, q);
      SharedKeyBreaksTheChain(c, a, p, b, q);
      SharingNames(pairs, dropped, a, p, b, q);
    } else {
      var a :| a in dropped && !Spares(pairs, a);
      var b, p :| (b, p) in pairs && Prefix(a) <= Key(b, p) && a != b;
      DroppingAnotherBreaksTheChain(c, a, b, p);
      BreakingNames(pairs, dropped, a, b, p);
    }
  }

  ghost predicate Plain(id: string) {
    ':' !in id
  }

  lemma FirstColon(id: string, key: string)
    requires Plain(id) && Prefix(id) <= key
    ensures |id| < |key| && key[|id|] == ':' && id == key[..|id|]
    ensures forall i :: 0 <= i < |id| ==> key[i] != ':'
  {
    assert forall i :: 0 <= i < |id| ==> key[i] == id[i] && id[i] in id;
    assert Prefix(id)[|id|] == ':';
  }

  lemma PlainOwner(a: string, b: string, key: string)
    requires Plain(a) && Plain(b) && Prefix(a) <= key && Prefix(b) <= key
    ensures a == b
  {
    FirstColon(a, key);
    FirstColon(b, key);
  }

  /** Ids without a colon, dropped ones included, are enough, whatever the property keys. */
  lemma PlainIdsAreSeparate(pairs: iset<(string, string)>, dropped: iset<string>)
    requires (forall b, p :: (b, p) in pairs ==> Plain(b)) && (forall a :: a in dropped ==> Plain(a))
    ensures Separate(pairs, dropped)
  {
    forall a, p, b, q | (a, p) in pairs && (b, q) in pairs && Key(a, p) == Key(b, q) ensures a == b && p == q {
      PlainOwner(a, b, Key(a, p));
      assert Key(a, p)[|Prefix(a)|..] == p && Key(b, q)[|Prefix(b)|..] == q;
    }
    forall a | a in dropped ensures Spares(pairs, a) {
      forall b, p | (b, p) in pairs && Prefix(a) <= Key(b, p) ensures a == b {
        PlainOwner(a, b, Key(b, p));
      }
    }
  }

  // ---- The service

  class DevicePropertyPollerService {
    const config: Config

    var subscriptions: map<string, set<string>>
    var lastValues: map<string, Value>
    var errorCounts: map<string, nat>
    var skipCycles: map<string, nat>
    var timer: Timer
    var ticking: bool
    /** What the running tick's loop has left. */
    var due: seq<Target>
    /** How far starting is, the runtime's timers, and what happened so far. */
    ghost var phase: Phase
    var issued: nat
    ghost var armed: set<nat>
    ghost var ticks: nat
    ghost var polled: seq<string>
    ghost var log: seq<Mark>

    constructor (config: Config)
      ensures this.config == config && View() == START
    {
      this.config := config;
      subscriptions, lastValues, errorCounts, skipCycles := map[], map[], map[], map[];
      timer, ticking, due, issued := NoTimer, false, [], 0;
      phase, armed, ticks, polled, log := Created, {}, 0, [], [];
    }

    ghost function View(): State
      reads this
    {
      State(Watch(subscriptions, lastValues, log), Health(errorCounts, skipCycles, polled),
            Schedule(phase, timer, armed, issued, ticking, ticks), due)
    }

    method AddSubscriptions(deviceId: string, properties: seq<string>)
      modifies this`subscriptions
      ensures View() == Apply(config, old(View()), Subscribe(deviceId, properties))
    {
      var owned := if deviceId in subscriptions then subscriptions[deviceId] else {};
      var i := 0;
      while i < |properties|
        invariant i <= |properties|
        invariant owned == Properties(subscriptions, deviceId) + set p | p in properties[..i]
      {
        owned := owned + {properties[i]};
        assert properties[..i + 1] == properties[..i] + [properties[i]];
        i := i + 1;
      }
      assert properties[..i] == properties;
      subscriptions := subscriptions[deviceId := owned];
    }

    method RemoveSubscription(deviceId: string, property: string)
      modifies this
      ensures View() == Apply(config, old(View()), Unsubscribe(deviceId, property))
    {
      if deviceId in subscriptions {
        var rest := subscriptions[deviceId] - {property};
        subscriptions := if rest == {} then subscriptions - {deviceId} else subscriptions[deviceId := rest];
      }
      lastValues := lastValues - {Key(deviceId, property)};
      log := log + [Dropped(deviceId, property)];
    }

    method RemoveAllSubscriptions(deviceId: string)
      modifies this
      ensures View() == Apply(config, old(View()), UnsubscribeAll(deviceId))
    {
      subscriptions := subscriptions - {deviceId};
      Forget(Prefix(deviceId));
      log := log + [DroppedAll(deviceId)];
    }

    method Forget(prefix: string)
      modifies this`lastValues
      ensures lastValues == map key | key in old(lastValues) && !(prefix <= key) :: old(lastValues)[key]
    {
      var keys := lastValues.Keys;
      while keys != {}
        invariant keys <= lastValues.Keys
        invariant lastValues.Keys <= old(lastValues).Keys
        invariant forall k :: k in old(lastValues) ==>
          (k in lastValues <==> k in keys || !(prefix <= k))
        invariant forall k :: k in lastValues ==> lastValues[k] == old(lastValues)[k]
      {
        var key :| key in keys;
        if prefix <= key {
          lastValues := lastValues - {key};
        }
        keys := keys - {key};
      }
    }

    /** Starting, once the stored subscriptions have arrived. */
    method OnLoaded(stored: seq<(string, string)>)
      requires phase.Loading?
      modifies this
      ensures View() == Apply(config, old(View()), Load(stored))
    {
      var i := 0;
      while i < |stored|
        invariant i <= |stored|
        invariant AddedAll(old(View()).watch, stored) == AddedAll(View().watch, stored[i..])
        invariant View() == old(View()).(watch := View().watch)
      {
        AddSubscriptions(stored[i].0, [stored[i].1]);
        i := i + 1;
      }
      phase := Loaded;
      ScheduleNext();
    }

    method StopPolling()
      modifies this`timer, this`armed
      ensures View() == Apply(config, old(View()), Stop)
    {
      if timer.Kept? {
        armed := armed - {timer.handle};
        timer := NoTimer;
      }
    }

    method ScheduleNext()
      modifies this`timer, this`armed, this`issued
      ensures View() == old(View()).(schedule := Rearmed(old(View()).schedule))
    {
      timer := Kept(issued);
      armed := armed + {issued};
      issued := issued + 1;
    }

    /** A timer fires: the tick takes its devices, and ends at once when none is due. */
    method Tick(handle: nat) returns (targets: seq<Target>)
      requires handle in armed
      modifies this
      ensures !old(ticking) ==> IsDue(subscriptions, old(skipCycles), targets)
      ensures View() == Ticked(old(View()), handle, targets)
    {
      armed := armed - {handle};
      if ticking {
        return [];
      }
      targets := BeginTick();
      EndTick();
    }

    method BeginTick() returns (targets: seq<Target>)
      modifies this`ticking, this`ticks, this`skipCycles, this`due
      ensures IsDue(subscriptions, old(skipCycles), targets)
      ensures View() == Begun(old(View()), targets)
    {
      ticking := true;
      ticks := ticks + 1;
      targets := DueDevices();
      due := targets;
    }

    method EndTick()
      modifies this
      ensures View() == Settled(old(View()))
    {
      if due == [] {
        ticking := false;
        if timer.Kept? {
          ScheduleNext();
        }
      }
    }

    /** The devices to poll, in whatever order the subscriptions are listed; the others are one cycle closer. */
    method DueDevices() returns (targets: seq<Target>)
      modifies this`skipCycles
      ensures IsDue(subscriptions, old(skipCycles), targets)
      ensures skipCycles == Skipped(old(skipCycles), subscriptions.Keys)
    {
      targets := [];
      var left := subscriptions.Keys;
      ghost var seen: set<string> := {};
      while left != {}
        invariant seen + left == subscriptions.Keys && seen !! left
        invariant skipCycles == Skipped(old(skipCycles), seen)
        invariant DueAmong(seen, subscriptions, old(skipCycles), targets)
      {
        var d :| d in left;
        SkippedOneMore(old(skipCycles), seen, d);
        OneMoreDevice(seen, subscriptions, old(skipCycles), targets, d);
        left, seen := left - {d}, seen + {d};
        if d in skipCycles && skipCycles[d] > 0 {
          skipCycles := skipCycles[d := skipCycles[d] - 1];
        } else {
          targets := targets + [Target(d, subscriptions[d])];
        }
      }
    }

    /** The read of the device the running tick has come to ends. */
    method ReadDevice(outcome: Outcome)
      requires due != []
      modifies this
      ensures View() == Apply(config, old(View()), Read(outcome))
    {
      var deviceId := due[0].deviceId;
      due := due[1..];
      TakeOutcome(deviceId, outcome);
      EndTick();
    }

    method TakeOutcome(deviceId: string, outcome: Outcome)
      modifies this`lastValues, this`log, this`errorCounts, this`skipCycles, this`polled
      ensures View() == old(View()).(
        watch := WatchAfter(config, old(View()).watch, deviceId, outcome),
        health := HealthAfter(config, old(View()).health, deviceId, outcome))
    {
      polled := polled + [deviceId];
      match outcome
      case Answered(enabled, readings) =>
        if enabled {
          Notice(deviceId, readings);
          errorCounts := errorCounts - {deviceId};
        }
      case Failed => BackOff(deviceId);
    }

    method Notice(deviceId: string, readings: seq<Reading>)
      modifies this`lastValues, this`log
      ensures View().watch == NoticedAll(config, old(View()).watch, deviceId, readings)
    {
      var i := 0;
      while i < |readings|
        invariant i <= |readings|
        invariant NoticedAll(config, old(View()).watch, deviceId, readings)
               == NoticedAll(config, View().watch, deviceId, readings[i..])
      {
        NoticeOne(deviceId, readings[i]);
        assert readings[i..][1..] == readings[i + 1..];
        i := i + 1;
      }
    }

    method NoticeOne(deviceId: string, r: Reading)
      modifies this`lastValues, this`log
      ensures View().watch == Noticed(config, old(View()).watch, deviceId, r)
    {
      if r.code != 0 {
        return;
      }
      if deviceId !in subscriptions || r.property !in subscriptions[deviceId] {
        return;
      }
      var key := Key(deviceId, r.property);
      var last := if key in lastValues then lastValues[key] else Undefined;
      var changed := last != r.value;
      if changed || !config.dispatchOnChange {
        lastValues := lastValues[key := r.value];
        log := log + [Emitted(deviceId, r.property, if changed then last else r.value, r.value)];
      }
    }

    method BackOff(deviceId: string)
      modifies this`errorCounts, this`skipCycles
      ensures View().health == Failing(config, old(View()).health, deviceId)
    {
      var count := (if deviceId in errorCounts then errorCounts[deviceId] else 0) + 1;
      errorCounts := errorCounts[deviceId := count];
      if count >= config.maxErrors {
        errorCounts := errorCounts - {deviceId};
        skipCycles := skipCycles[deviceId := config.skipCycles];
      }
    }
  }
}
