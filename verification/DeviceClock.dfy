/** The clock of a miIO device, as far as one process can tell: what stamp to put on a packet. */
module Clocks {
  import opened Text

  /** A stamp in seconds since the device's boot, the monotonic time it arrived, and the wall time of that. */
  datatype Reading = Reading(stamp: int, at: real, updatedAt: real)

  datatype StampState = StampState(stamp: int, updatedAt: real)

  /** One moment on the process's monotonic clock and on its wall clock, in milliseconds. */
  datatype Instant = Instant(perf: real, wall: real)

  const MS_PER_SECOND := 1000.0

  function Seconds(ms: real): int {
    (ms / MS_PER_SECOND).Floor
  }

  function AtLeastZero(x: real): real {
    if x < 0.0 then 0.0 else x
  }

  function NextStamp(r: Reading, perf: real): int {
    r.stamp + Seconds(AtLeastZero(perf - r.at)) + 1
  }

  function Synced(stamp: int, now: Instant): Reading {
    Reading(stamp, now.perf, now.wall)
  }

  /** Only a stamp ahead of the next one re-bases the clock. */
  function Observed(clock: Option<Reading>, stamp: int, now: Instant): Option<Reading> {
    if clock.Some? && stamp > NextStamp(clock.value, now.perf) then Some(Synced(stamp, now)) else clock
  }

  function Restored(clock: Option<Reading>, state: StampState, now: Instant): Option<Reading> {
    if state.updatedAt <= 0.0 then clock
    else Some(Reading(state.stamp, now.perf - AtLeastZero(now.wall - state.updatedAt), state.updatedAt))
  }

  /** A device that was `phase` milliseconds past its boot at the monotonic time 0, and the wall clock by that
      time. Two stretches of time differ by `skew` at most between the clocks, rounding included. */
  datatype Device = Device(phase: real, wall: real -> real, skew: real) {
    function Stamp(t: real): int {
      Seconds(t + phase)
    }

    ghost predicate Sound() {
      && skew >= 0.0
      && forall t, u :: -skew <= (wall(t) - wall(u)) - (t - u) <= skew
    }

    function Moment(t: real): Instant {
      Instant(t, wall(t))
    }

    /** A packet sent at `t` is not behind the device, nor more than a second ahead, up to the skew. */
    predicate InTime(stamp: int, t: real) {
      Stamp(t - skew) <= stamp <= Stamp(t + skew) + 1
    }

    /** The reading was taken at `u`; a restored one knows when up to the skew. */
    predicate TakenAt(r: Reading, u: real) {
      r.stamp == Stamp(u) && r.updatedAt == wall(u) && u - skew <= r.at <= u + skew
    }

    ghost predicate Truthful(r: Reading, now: real) {
      r.at <= now && exists u :: u <= now && TakenAt(r, u)
    }

    /** A persisted reading is one this device gave at some time, or has no time. */
    ghost predicate Genuine(state: StampState, now: real) {
      state.updatedAt <= 0.0 || exists u :: u <= now && state.stamp == Stamp(u) && state.updatedAt == wall(u)
    }
  }

  lemma SecondsAdd(x: real, y: real)
    ensures Seconds(x) + Seconds(y) <= Seconds(x + y) <= Seconds(x) + Seconds(y) + 1
  {
    var a, b := x / MS_PER_SECOND, y / MS_PER_SECOND;
    assert (x + y) / MS_PER_SECOND == a + b;
  }

  lemma SecondsGrow(x: real, y: real)
    requires x <= y
    ensures Seconds(x) <= Seconds(y)
  {
    assert x / MS_PER_SECOND <= y / MS_PER_SECOND;
  }

  lemma NextGrows(r: Reading, t: real, u: real)
    requires t <= u
    ensures NextStamp(r, t) <= NextStamp(r, u)
  {
    SecondsGrow(AtLeastZero(t - r.at), AtLeastZero(u - r.at));
  }

  /** The next stamp is the device's clock or one more; the clocks' skew since a restore moves that at most. */
  lemma NextIsInTime(d: Device, r: Reading, now: real)
    requires d.Sound() && d.Truthful(r, now)
    ensures d.InTime(NextStamp(r, now), now)
    ensures d.skew == 0.0 ==> d.Stamp(now) <= NextStamp(r, now) <= d.Stamp(now) + 1
  {
    var u :| u <= now && d.TakenAt(r, u);
    var since := now - r.at;
    SecondsAdd(u + d.phase, since);
    SecondsGrow(now - d.skew + d.phase, u + d.phase + since);
    SecondsGrow(u + d.phase + since, now + d.skew + d.phase);
  }

  lemma SyncIsTruthful(d: Device, now: real)
    requires d.Sound()
    ensures d.Truthful(Synced(d.Stamp(now), d.Moment(now)), now)
  {
    assert d.TakenAt(Synced(d.Stamp(now), d.Moment(now)), now);
  }

  lemma RestoreIsTruthful(d: Device, clock: Option<Reading>, state: StampState, now: real)
    requires d.Sound() && d.Genuine(state, now) && state.updatedAt > 0.0
    ensures d.Truthful(Restored(clock, state, d.Moment(now)).value, now)
  {
    var u :| u <= now && state.stamp == d.Stamp(u) && state.updatedAt == d.wall(u);
    var drift := (d.wall(now) - d.wall(u)) - (now - u);
    assert -d.skew <= drift <= d.skew;
    assert d.TakenAt(Restored(clock, state, d.Moment(now)).value, u);
  }

  lemma StaysTruthful(d: Device, r: Reading, now: real, later: real)
    requires d.Truthful(r, now) && now <= later
    ensures d.Truthful(r, later)
  {
  }

  // ---- Runs of one clock

  datatype Packet = Packet(stamp: int, at: real)

  /** `flight` is the packet that has no answer yet. */
  datatype State = State(clock: Option<Reading>, flight: Option<Packet>, now: real, sent: seq<Packet>)

  /** What happens to the clock, in time. A device answers with its own clock or with the stamp it was sent. */
  datatype Event =
    | Hello(at: real)
    | Send(at: real)
    | Answer(at: real, echo: bool)
    | Lost(at: real)
    | Restore(at: real, state: StampState)
    | Reset(at: real)

  /** Time goes on, only one packet is in flight, and what is restored is a reading of this device. */
  ghost predicate Enabled(d: Device, s: State, event: Event) {
    && s.now <= event.at
    && match event
       case Hello(_) => true
       case Send(_) => s.flight.None? && s.clock.Some?
       case Answer(_, _) => s.flight.Some?
       case Lost(_) => true
       case Restore(at, state) => d.Genuine(state, at)
       case Reset(_) => true
  }

  function Apply(d: Device, s: State, event: Event): State {
    var now := d.Moment(event.at);
    match event
    case Hello(at) => s.(now := at, clock := Some(Synced(d.Stamp(at), now)))
    case Send(at) =>
      if s.clock.None? then s.(now := at)
      else
        var packet := Packet(NextStamp(s.clock.value, at), at);
        s.(now := at, flight := Some(packet), sent := s.sent + [packet])
    case Answer(at, echo) =>
      if s.flight.None? then s.(now := at)
      else
        var stamp := if echo then s.flight.value.stamp else d.Stamp(at);
        s.(now := at, flight := None, clock := Observed(s.clock, stamp, now))
    case Lost(at) => s.(now := at, flight := None)
    case Restore(at, state) => s.(now := at, clock := Restored(s.clock, state, now))
    case Reset(at) => s.(now := at, clock := None)
  }

  ghost predicate IsRun(d: Device, s: State, events: seq<Event>)
    decreases |events|
  {
    events == [] || (Enabled(d, s, events[0]) && IsRun(d, Apply(d, s, events[0]), events[1..]))
  }

  function Run(d: Device, s: State, events: seq<Event>): State
    decreases |events|
  {
    if events == [] then s else Run(d, Apply(d, s, events[0]), events[1..])
  }

  /** The next stamp has not fallen behind the packet in flight. */
  predicate NotBehind(s: State) {
    s.flight.Some? && s.clock.Some? ==> s.flight.value.stamp <= NextStamp(s.clock.value, s.now)
  }

  /** A hello or a restore never puts the clock behind a packet in flight. */
  ghost predicate Careful(d: Device, s: State, events: seq<Event>)
    decreases |events|
  {
    events == [] ||
    (var t := Apply(d, s, events[0]);
     (events[0].Hello? || events[0].Restore? ==> NotBehind(t)) && Careful(d, t, events[1..]))
  }

  ghost predicate AllInTime(d: Device, sent: seq<Packet>) {
    forall i :: 0 <= i < |sent| ==> d.InTime(sent[i].stamp, sent[i].at)
  }

  /** The reading is the device's, and every packet was in time. */
  ghost predicate Right(d: Device, s: State) {
    && (s.clock.Some? ==> d.Truthful(s.clock.value, s.now))
    && AllInTime(d, s.sent)
    && (s.flight.Some? ==> s.flight.value.at <= s.now && d.InTime(s.flight.value.stamp, s.flight.value.at))
  }

  ghost predicate Kept(d: Device, s: State) {
    Right(d, s) && NotBehind(s)
  }

  /** An echo of the packet in flight never re-bases the clock. */
  lemma EchoIsIgnored(d: Device, s: State, at: real)
    requires d.Sound() && Kept(d, s) && s.flight.Some? && s.now <= at
    ensures Apply(d, s, Answer(at, true)).clock == s.clock
  {
    if s.clock.Some? {
      NextGrows(s.clock.value, s.now, at);
    }
  }

  lemma HelloIsRight(d: Device, s: State, at: real)
    requires d.Sound() && Right(d, s) && s.now <= at
    ensures Right(d, Apply(d, s, Hello(at)))
  {
    SyncIsTruthful(d, at);
  }

  /** When the clocks agree, no hello puts the clock behind. */
  lemma HelloIsNotBehind(d: Device, s: State, at: real)
    requires d.Sound() && d.skew == 0.0 && Right(d, s) && s.now <= at
    ensures NotBehind(Apply(d, s, Hello(at)))
  {
    if s.flight.Some? {
      SecondsGrow(s.flight.value.at + d.phase, at + d.phase);
      assert s.flight.value.stamp <= d.Stamp(at) + 1 == NextStamp(Synced(d.Stamp(at), d.Moment(at)), at);
    }
  }

  lemma RestoreIsRight(d: Device, s: State, at: real, state: StampState)
    requires d.Sound() && Right(d, s) && Enabled(d, s, Restore(at, state))
    ensures Right(d, Apply(d, s, Restore(at, state)))
  {
    if state.updatedAt > 0.0 {
      RestoreIsTruthful(d, s.clock, state, at);
    } else if s.clock.Some? {
      StaysTruthful(d, s.clock.value, s.now, at);
    }
  }

  lemma SendKeeps(d: Device, s: State, at: real)
    requires d.Sound() && Kept(d, s) && Enabled(d, s, Send(at))
    ensures Kept(d, Apply(d, s, Send(at)))
  {
    StaysTruthful(d, s.clock.value, s.now, at);
    NextIsInTime(d, s.clock.value, at);
  }

  lemma AnswerKeeps(d: Device, s: State, at: real, echo: bool)
    requires d.Sound() && Kept(d, s) && Enabled(d, s, Answer(at, echo))
    ensures Kept(d, Apply(d, s, Answer(at, echo)))
    ensures d.skew == 0.0 || echo ==> Apply(d, s, Answer(at, echo)).clock == s.clock
  {
    if s.clock.Some? {
      StaysTruthful(d, s.clock.value, s.now, at);
      if echo {
        EchoIsIgnored(d, s, at);
      } else {
        NextIsInTime(d, s.clock.value, at);
        SyncIsTruthful(d, at);
      }
    }
  }

  lemma EventKeeps(d: Device, s: State, event: Event)
    requires d.Sound() && Kept(d, s) && Enabled(d, s, event)
    requires event.Hello? || event.Restore? ==> NotBehind(Apply(d, s, event))
    ensures Kept(d, Apply(d, s, event))
  {
    if s.clock.Some? {
      StaysTruthful(d, s.clock.value, s.now, event.at);
      NextGrows(s.clock.value, s.now, event.at);
    }
    match event
    case Hello(at) => HelloIsRight(d, s, at);
    case Send(at) => SendKeeps(d, s, at);
    case Answer(at, echo) => AnswerKeeps(d, s, at, echo);
    case Lost(at) =>
    case Restore(at, state) => RestoreIsRight(d, s, at, state);
    case Reset(at) =>
  }

  lemma {:induction false} RunKeeps(d: Device, s: State, events: seq<Event>)
    requires d.Sound() && Kept(d, s) && IsRun(d, s, events) && Careful(d, s, events)
    ensures Kept(d, Run(d, s, events))
    decreases |events|
  {
    if events != [] {
      EventKeeps(d, s, events[0]);
      RunKeeps(d, Apply(d, s, events[0]), events[1..]);
    }
  }

  /** In any sequence of hellos, commands, answers, losses, restores and resets that is careful with a packet in
      flight, every stamp sent is the device's clock or one more, up to the skew of the clocks. */
  lemma EveryStampIsInTime(d: Device, start: real, events: seq<Event>, i: nat)
    requires d.Sound() && IsRun(d, State(None, None, start, []), events)
    requires Careful(d, State(None, None, start, []), events)
    requires i < |Run(d, State(None, None, start, []), events).sent|
    ensures var packet := Run(d, State(None, None, start, []), events).sent[i];
      && d.InTime(packet.stamp, packet.at)
      && (d.skew == 0.0 ==> d.Stamp(packet.at) <= packet.stamp <= d.Stamp(packet.at) + 1)
  {
    RunKeeps(d, State(None, None, start, []), events);
  }

  /** Every careful continuation sends stamps in time only. */
  ghost predicate StaysInTime(d: Device, s: State) {
    forall events | IsRun(d, s, events) && Careful(d, s, events) :: AllInTime(d, Run(d, s, events).sent)
  }

  lemma BehindGoesWrong(d: Device, s: State)
    requires d.Sound() && d.skew == 0.0 && Right(d, s) && !NotBehind(s)
    ensures !StaysInTime(d, s)
  {
    var at := s.now;
    var t := Apply(d, s, Answer(at, true));
    var u := Apply(d, t, Send(at));
    NextIsInTime(d, s.clock.value, at);
    assert t.clock == Some(Synced(s.flight.value.stamp, d.Moment(at)));
    assert Seconds(0.0) == 0;
    var packet := u.sent[|s.sent|];
    assert packet == Packet(s.flight.value.stamp + 1, at) && packet.stamp > d.Stamp(at) + 1;
    assert !d.InTime(packet.stamp, packet.at);

    var events := [Answer(at, true), Send(at)];
    assert events[1..] == [Send(at)] && [Send(at)][1..] == [];
    assert IsRun(d, u, []) && Careful(d, u, []) && Run(d, u, []) == u;
    assert IsRun(d, t, [Send(at)]) && Careful(d, t, [Send(at)]) && Run(d, t, [Send(at)]) == u;
    assert IsRun(d, s, events) && Careful(d, s, events) && Run(d, s, events) == u;
  }

  /** Restoring a reading is safe exactly when its next stamp is not behind a packet in flight. */
  lemma RestoreIsSafeIff(d: Device, s: State, at: real, state: StampState)
    requires d.Sound() && d.skew == 0.0 && Kept(d, s) && Enabled(d, s, Restore(at, state))
    ensures var restored := Restored(s.clock, state, d.Moment(at));
      StaysInTime(d, Apply(d, s, Restore(at, state)))
      <==> (s.flight.Some? && restored.Some? ==> s.flight.value.stamp <= NextStamp(restored.value, at))
  {
    var t := Apply(d, s, Restore(at, state));
    RestoreIsRight(d, s, at, state);
    if NotBehind(t) {
      forall events | IsRun(d, t, events) && Careful(d, t, events) ensures AllInTime(d, Run(d, t, events).sent) {
        RunKeeps(d, t, events);
      }
    } else {
      BehindGoesWrong(d, t);
    }
  }

  /** Restoring a reading under a packet in flight can make its echo re-base the clock a second ahead. */
  lemma RestoringInFlightRebases()
    ensures var d := Device(0.0, t => t, 0.0);
      var events := [Hello(1500.0), Send(1500.0), Restore(1600.0, StampState(0, 700.0)),
                     Answer(1600.0, true), Send(1600.0)];
      var s := Run(d, State(None, None, 1500.0, []), events);
      && d.Sound() && d.Genuine(StampState(0, 700.0), 1600.0)
      && s.sent == [Packet(2, 1500.0), Packet(3, 1600.0)] && !d.InTime(3, 1600.0)
  {
    var d := Device(0.0, t => t, 0.0);
    assert Seconds(700.0) == 0 && Seconds(1500.0) == 1 && Seconds(1600.0) == 1;
    assert Seconds(900.0) == 0 && Seconds(0.0) == 0;
    assert 700.0 <= 1600.0 && d.Stamp(700.0) == 0;
    var s0 := State(None, None, 1500.0, []);
    var s1 := Apply(d, s0, Hello(1500.0));
    var s2 := Apply(d, s1, Send(1500.0));
    var s3 := Apply(d, s2, Restore(1600.0, StampState(0, 700.0)));
    var s4 := Apply(d, s3, Answer(1600.0, true));
    var s5 := Apply(d, s4, Send(1600.0));
    assert s5.sent == [Packet(2, 1500.0), Packet(3, 1600.0)];
    assert Run(d, s4, [Send(1600.0)]) == s5;
    assert Run(d, s3, [Answer(1600.0, true), Send(1600.0)]) == s5;
    assert Run(d, s2, [Restore(1600.0, StampState(0, 700.0)), Answer(1600.0, true), Send(1600.0)]) == s5;
    assert Run(d, s1, [Send(1500.0), Restore(1600.0, StampState(0, 700.0)), Answer(1600.0, true), Send(1600.0)]) == s5;
  }

  /** The moments are the readings of the two process clocks a call makes. */
  class DeviceClock {
    var reading: Option<Reading>

    constructor ()
      ensures reading == None
    {
      reading := None;
    }

    method Sync(stamp: int, now: Instant)
      modifies this
      ensures reading == Some(Synced(stamp, now))
    {
      reading := Some(Reading(stamp, now.perf, now.wall));
    }

    method Observe(stamp: int, now: Instant)
      modifies this
      ensures reading == Observed(old(reading), stamp, now)
    {
      if reading.Some? {
        var next := Next(now);
        if stamp > next.value {
          Sync(stamp, now);
        }
      }
    }

    method Restore(state: StampState, now: Instant)
      modifies this
      ensures reading == Restored(old(reading), state, now)
    {
      if state.updatedAt <= 0.0 {
        return;
      }
      var age := AtLeastZero(now.wall - state.updatedAt);
      reading := Some(Reading(state.stamp, now.perf - age, state.updatedAt));
    }

    method Reset()
      modifies this
      ensures reading == None
    {
      reading := None;
    }

    /** `None` stands for the error of a clock that has no reading. */
    method Next(now: Instant) returns (stamp: Option<int>)
      ensures stamp == if reading.None? then None else Some(NextStamp(reading.value, now.perf))
    {
      if reading.None? {
        return None;
      }
      var elapsed := AtLeastZero(now.perf - reading.value.at);
      stamp := Some(reading.value.stamp + Seconds(elapsed) + 1);
    }

    method Snapshot() returns (state: Option<StampState>)
      ensures state == if reading.None? then None else Some(StampState(reading.value.stamp, reading.value.updatedAt))
    {
      state := if reading.None? then None else Some(StampState(reading.value.stamp, reading.value.updatedAt));
    }
  }
}
