/** A command to a device: sent with the cached clock, and once more after a fresh handshake. */
module MiotDevices {
  import opened Text
  import opened Clocks

  /** What becomes of one packet. An answer carries the device's clock, or the stamp it was sent, also when the
      device refuses; silence covers every answer that cannot be read. */
  datatype Answer = Acknowledged(echo: bool) | Refused(echo: bool) | Silent

  datatype Stored = NoStore | StoreFails | Empty | Holds(state: StampState)

  /** What one command meets: the store, whether a handshake is answered, the `n`-th packet's fate, the stamp
      the device reports at a time, and the moments at which the command looks at its clocks, in order. */
  datatype World = World(
    stored: Stored, persists: bool, hello: bool, answer: nat -> Answer, report: real -> int, time: nat -> Instant)

  datatype Action =
    | Greeted(stamp: int)
    | Unanswered
    | Sent(stamp: int, at: real, answer: Answer)
    | Persisted(state: StampState, ok: bool)

  datatype Outcome = Done | NotConnected | StoreUnreadable | NoHello | Rejected(refreshed: bool)

  /** The clock, how often time was looked at and how many packets were sent, and all that was done. */
  datatype Session = Session(clock: Option<Reading>, step: nat, packets: nat, log: seq<Action>)

  function Fresh(clock: Option<Reading>): Session {
    Session(clock, 0, 0, [])
  }

  function AfterPacket(w: World, s: Session): Session
    requires s.clock.Some?
  {
    var now, later, answer := w.time(s.step), w.time(s.step + 1), w.answer(s.packets);
    var stamp := NextStamp(s.clock.value, now.perf);
    Session(
      if answer.Silent? then s.clock
      else Observed(s.clock, if answer.echo then stamp else w.report(later.perf), later),
      s.step + 2, s.packets + 1, s.log + [Sent(stamp, now.perf, answer)])
  }

  /** Packets one after the other, until one is not acknowledged. */
  function Attempt(w: World, s: Session, packets: nat): (Session, bool)
    requires s.clock.Some?
    decreases packets
  {
    if packets == 0 then (s, true)
    else if w.answer(s.packets).Acknowledged? then Attempt(w, AfterPacket(w, s), packets - 1)
    else (AfterPacket(w, s), false)
  }

  function Persist(w: World, s: Session): Session {
    if w.stored.NoStore? || s.clock.None? then s
    else s.(log := s.log + [Persisted(StampState(s.clock.value.stamp, s.clock.value.updatedAt), w.persists)])
  }

  function AfterHello(w: World, s: Session): Session {
    var now := w.time(s.step);
    var stamp := w.report(now.perf);
    Session(Some(Synced(stamp, now)), s.step + 1, s.packets, s.log + [Greeted(stamp)])
  }

  /** A handshake, then one attempt. */
  function WithFreshStamp(w: World, s: Session, packets: nat, retried: bool): (Session, Outcome) {
    if !w.hello then (s.(log := s.log + [Unanswered]), NoHello)
    else
      var (tried, ok) := Attempt(w, AfterHello(w, s), packets);
      if ok then (Persist(w, tried), Done) else (tried, Rejected(retried))
  }

  /** The store is consulted when there is no reading. */
  function Loaded(w: World, s: Session): Session {
    if s.clock.None? && w.stored.Holds?
    then s.(clock := Restored(s.clock, w.stored.state, w.time(s.step)), step := s.step + 1)
    else s
  }

  function Command(w: World, clock: Option<Reading>, connected: bool, packets: nat): (Session, Outcome) {
    if !connected then (Fresh(clock), NotConnected)
    else if clock.None? && w.stored.StoreFails? then (Fresh(clock), StoreUnreadable)
    else
      var s := Loaded(w, Fresh(clock));
      if s.clock.None? then WithFreshStamp(w, s, packets, false)
      else
        var (tried, ok) := Attempt(w, s, packets);
        if ok then (Persist(w, tried), Done) else WithFreshStamp(w, tried.(clock := None), packets, true)
  }

  // ---- What a command sends

  ghost predicate AllAcknowledged(sends: seq<Action>) {
    forall i :: 0 <= i < |sends| ==> sends[i].Sent? && sends[i].answer.Acknowledged?
  }

  /** The packets of one attempt: all of them acknowledged, or all but the last one sent. */
  ghost predicate IsAttempt(sends: seq<Action>, packets: nat, ok: bool) {
    if ok then |sends| == packets && AllAcknowledged(sends)
    else
      && 0 < |sends| <= packets && AllAcknowledged(sends[..|sends| - 1])
      && sends[|sends| - 1].Sent? && !sends[|sends| - 1].answer.Acknowledged?
  }

  /** The packets got the answers the world has for them, from the `from`-th on. */
  ghost predicate AnsweredAs(w: World, sends: seq<Action>, from: nat) {
    forall i :: 0 <= i < |sends| ==> sends[i].Sent? && sends[i].answer == w.answer(from + i)
  }

  lemma AttemptGrows(first: Action, rest: seq<Action>, packets: nat, ok: bool)
    requires first.Sent? && first.answer.Acknowledged? && IsAttempt(rest, packets, ok)
    ensures IsAttempt([first] + rest, packets + 1, ok)
  {
    if !ok {
      assert ([first] + rest)[..|rest|] == [first] + rest[..|rest| - 1];
    }
  }

  lemma {:induction false} AttemptSends(w: World, s: Session, packets: nat) returns (sends: seq<Action>)
    requires s.clock.Some?
    ensures Attempt(w, s, packets).0.clock.Some?
    ensures Attempt(w, s, packets).0.log == s.log + sends
    ensures IsAttempt(sends, packets, Attempt(w, s, packets).1)
    decreases packets
  {
    if packets == 0 {
      return [];
    }
    var next := AfterPacket(w, s);
    var first := next.log[|s.log|];
    assert next.log == s.log + [first];
    if w.answer(s.packets).Acknowledged? {
      var rest := AttemptSends(w, next, packets - 1);
      AttemptGrows(first, rest, packets - 1, Attempt(w, next, packets - 1).1);
      sends := [first] + rest;
    } else {
      sends := [first];
    }
  }

  /** From place `from` of the log on, the packets got the answers the world has for them. */
  ghost predicate AnsweredFrom(w: World, log: seq<Action>, from: nat, packets: nat) {
    forall i :: from <= i < |log| ==> log[i].Sent? && log[i].answer == w.answer(packets + i - from)
  }

  lemma {:induction false} AttemptIsAnswered(w: World, s: Session, packets: nat)
    requires s.clock.Some?
    ensures var t := Attempt(w, s, packets).0;
      && s.log <= t.log && AnsweredFrom(w, t.log, |s.log|, s.packets) && t.packets - s.packets == |t.log| - |s.log|
    decreases packets
  {
    if packets > 0 && w.answer(s.packets).Acknowledged? {
      AttemptIsAnswered(w, AfterPacket(w, s), packets - 1);
    }
  }

  lemma AnsweredBehind(w: World, before: seq<Action>, sends: seq<Action>, packets: nat)
    requires AnsweredFrom(w, before + sends, |before|, packets)
    ensures AnsweredAs(w, sends, packets)
  {
    assert forall i :: 0 <= i < |sends| ==> sends[i] == (before + sends)[|before| + i];
  }

  lemma SendsAreAnswered(w: World, s: Session, packets: nat, sends: seq<Action>)
    requires s.clock.Some? && Attempt(w, s, packets).0.log == s.log + sends
    ensures AnsweredAs(w, sends, s.packets) && Attempt(w, s, packets).0.packets == s.packets + |sends|
  {
    AttemptIsAnswered(w, s, packets);
    AnsweredBehind(w, s.log, sends, s.packets);
  }

  /** Everything a command did: a first attempt, a handshake, a second attempt, and persisting the clock. */
  datatype Story = Story(first: seq<Action>, hello: seq<Action>, second: seq<Action>, persisted: seq<Action>) {
    function Log(): seq<Action> {
      first + hello + second + persisted
    }
  }

  /** Packets are sent at most twice, with the one handshake in between; an attempt that was acknowledged is
      never followed by another, whether or not its clock could be persisted. */
  ghost predicate Tells(w: World, story: Story, packets: nat, outcome: Outcome) {
    && |story.hello| <= 1
    && (forall i :: 0 <= i < |story.hello| ==> story.hello[i].Greeted? || story.hello[i].Unanswered?)
    && |story.persisted| <= 1 && (forall i :: 0 <= i < |story.persisted| ==> story.persisted[i].Persisted?)
    && match outcome
       case Done =>
         if story.hello == [] then IsAttempt(story.first, packets, true) && story.second == []
         else
           && (story.first == [] || IsAttempt(story.first, packets, false)) && w.hello
           && IsAttempt(story.second, packets, true)
       case Rejected(refreshed) =>
         && (if refreshed then IsAttempt(story.first, packets, false) else story.first == [])
         && story.hello != [] && w.hello && IsAttempt(story.second, packets, false) && story.persisted == []
       case NoHello =>
         && (story.first == [] || IsAttempt(story.first, packets, false))
         && story.hello != [] && !w.hello && story.second == [] && story.persisted == []
       case _ => story.Log() == []
  }

  /** There is a reading to start with: a cached one, or one the store gives that has a time. */
  predicate HasReading(w: World, clock: Option<Reading>) {
    clock.Some? || (w.stored.Holds? && w.stored.state.updatedAt > 0.0)
  }

  /** The outcome and what was done are those the world forces: nothing without a connection or with an unreadable
      store; a first attempt exactly with a reading; a handshake exactly without one or after a refusal; persisting
      exactly after success, where there is a store. */
  ghost predicate Forced(
    w: World, clock: Option<Reading>, connected: bool, packets: nat, story: Story, outcome: Outcome) {
    && (outcome.NotConnected? <==> !connected)
    && (outcome.StoreUnreadable? <==> connected && clock.None? && w.stored.StoreFails?)
    && (connected && !outcome.StoreUnreadable? ==>
         && (if HasReading(w, clock) then IsAttempt(story.first, packets, story.hello == [])
             else story.first == [] && story.hello != [])
         && (story.persisted != [] <==> outcome.Done? && !w.stored.NoStore?)
         && AnsweredAs(w, story.first, 0) && AnsweredAs(w, story.second, |story.first|))
    && (outcome.Rejected? ==> outcome.refreshed == HasReading(w, clock))
  }

  lemma PersistOnce(w: World, s: Session) returns (persisted: seq<Action>)
    ensures Persist(w, s).log == s.log + persisted
    ensures persisted != [] <==> !w.stored.NoStore? && s.clock.Some?
    ensures |persisted| <= 1 && forall i :: 0 <= i < |persisted| ==> persisted[i].Persisted?
  {
    persisted := Persist(w, s).log[|s.log|..];
  }

  lemma FreshStory(w: World, s: Session, packets: nat, retried: bool) returns (story: Story)
    requires s.clock.None? && (if retried then IsAttempt(s.log, packets, false) else s.log == [])
    ensures WithFreshStamp(w, s, packets, retried).0.log == story.Log()
    ensures Tells(w, story, packets, WithFreshStamp(w, s, packets, retried).1)
    ensures story.first == s.log && story.hello != []
    ensures story.persisted != [] <==> WithFreshStamp(w, s, packets, retried).1.Done? && !w.stored.NoStore?
    ensures s.packets == |s.log| ==> AnsweredAs(w, story.second, |s.log|)
    ensures WithFreshStamp(w, s, packets, retried).1 in {NoHello, Done, Rejected(retried)}
  {
    if !w.hello {
      return Story(s.log, [Unanswered], [], []);
    }
    var greeted := AfterHello(w, s);
    var second := AttemptSends(w, greeted, packets);
    SendsAreAnswered(w, greeted, packets, second);
    var (tried, ok) := Attempt(w, greeted, packets);
    var persisted := [];
    if ok {
      persisted := PersistOnce(w, tried);
    }
    story := Story(s.log, [greeted.log[|s.log|]], second, persisted);
  }

  lemma CachedStory(w: World, s: Session, packets: nat) returns (story: Story)
    requires s.clock.Some? && s.log == [] && s.packets == 0
    ensures var (tried, ok) := Attempt(w, s, packets);
      var (t, outcome) := if ok then (Persist(w, tried), Done)
                          else WithFreshStamp(w, tried.(clock := None), packets, true);
      && t.log == story.Log() && Tells(w, story, packets, outcome)
      && IsAttempt(story.first, packets, story.hello == [])
      && (story.persisted != [] <==> outcome.Done? && !w.stored.NoStore?)
      && AnsweredAs(w, story.first, 0) && AnsweredAs(w, story.second, |story.first|)
      && outcome in {NoHello, Done, Rejected(true)}
  {
    var first := AttemptSends(w, s, packets);
    SendsAreAnswered(w, s, packets, first);
    var (tried, ok) := Attempt(w, s, packets);
    if ok {
      var persisted := PersistOnce(w, tried);
      story := Story(first, [], [], persisted);
    } else {
      story := FreshStory(w, tried.(clock := None), packets, true);
    }
  }

  lemma CommandStory(w: World, clock: Option<Reading>, connected: bool, packets: nat) returns (story: Story)
    ensures Command(w, clock, connected, packets).0.log == story.Log()
    ensures Tells(w, story, packets, Command(w, clock, connected, packets).1)
    ensures Forced(w, clock, connected, packets, story, Command(w, clock, connected, packets).1)
  {
    story := Story([], [], [], []);
    if connected && !(clock.None? && w.stored.StoreFails?) {
      var s := Loaded(w, Fresh(clock));
      if s.clock.None? {
        story := FreshStory(w, s, packets, false);
      } else {
        story := CachedStory(w, s, packets);
      }
    }
  }

  function HelloCount(log: seq<Action>): nat {
    if log == [] then 0 else (if log[0].Greeted? || log[0].Unanswered? then 1 else 0) + HelloCount(log[1..])
  }

  function SendCount(log: seq<Action>): nat {
    if log == [] then 0 else (if log[0].Sent? then 1 else 0) + SendCount(log[1..])
  }

  lemma {:induction false} CountsAdd(a: seq<Action>, b: seq<Action>)
    ensures HelloCount(a + b) == HelloCount(a) + HelloCount(b) && SendCount(a + b) == SendCount(a) + SendCount(b)
  {
    if a == [] {
      assert a + b == b;
    } else {
      CountsAdd(a[1..], b);
      assert (a + b)[1..] == a[1..] + b;
    }
  }

  lemma {:induction false} CountsBound(log: seq<Action>)
    ensures HelloCount(log) + SendCount(log) <= |log|
    ensures (forall i :: 0 <= i < |log| ==> log[i].Sent?) ==> HelloCount(log) == 0
    ensures (forall i :: 0 <= i < |log| ==> !log[i].Sent?) ==> SendCount(log) == 0
    ensures (forall i :: 0 <= i < |log| ==> log[i].Persisted?) ==> HelloCount(log) == 0
  {
    if log != [] {
      CountsBound(log[1..]);
    }
  }

  lemma AttemptIsSends(sends: seq<Action>, packets: nat, ok: bool)
    requires sends == [] || IsAttempt(sends, packets, ok)
    ensures |sends| <= packets && forall i :: 0 <= i < |sends| ==> sends[i].Sent?
  {
    if !ok && sends != [] {
      assert forall i :: 0 <= i < |sends| - 1 ==> sends[..|sends| - 1][i] == sends[i];
    }
  }

  lemma StoryIsBounded(w: World, story: Story, packets: nat, outcome: Outcome)
    requires Tells(w, story, packets, outcome) && (outcome.Done? || outcome.Rejected? || outcome.NoHello?)
    ensures HelloCount(story.Log()) <= 1 && SendCount(story.Log()) <= 2 * packets
  {
    AttemptIsSends(story.first, packets, outcome.Done? && story.hello == []);
    AttemptIsSends(story.second, packets, outcome.Done?);
    CountsBound(story.first);
    CountsBound(story.hello);
    CountsBound(story.second);
    CountsBound(story.persisted);
    CountsAdd(story.first, story.hello);
    CountsAdd(story.first + story.hello, story.second);
    CountsAdd(story.first + story.hello + story.second, story.persisted);
  }

  /** Per command: at most one handshake, and every packet at most twice. */
  lemma CommandIsBounded(w: World, clock: Option<Reading>, connected: bool, packets: nat)
    ensures HelloCount(Command(w, clock, connected, packets).0.log) <= 1
    ensures SendCount(Command(w, clock, connected, packets).0.log) <= 2 * packets
  {
    var story := CommandStory(w, clock, connected, packets);
    var outcome := Command(w, clock, connected, packets).1;
    if outcome.Done? || outcome.Rejected? || outcome.NoHello? {
      StoryIsBounded(w, story, packets, outcome);
    }
  }

  /** From place `i` on, that many packets in a row were sent and acknowledged. */
  ghost predicate AcknowledgedFrom(log: seq<Action>, i: nat, packets: nat) {
    i + packets <= |log| && AllAcknowledged(log[i..i + packets])
  }

  /** Packets sent in a row stand within one attempt. */
  lemma RowWithinAttempt(story: Story, i: nat, packets: nat)
    requires packets > 0 && AcknowledgedFrom(story.Log(), i, packets)
    requires |story.hello| <= 1 && forall k :: 0 <= k < |story.hello| ==> !story.hello[k].Sent?
    requires forall k :: 0 <= k < |story.persisted| ==> !story.persisted[k].Sent?
    ensures story.hello != [] ==> i + packets <= |story.first| || |story.first| + |story.hello| <= i
    ensures i + packets <= |story.first| + |story.hello| + |story.second|
  {
    var log, f, h, s := story.Log(), |story.first|, |story.hello|, |story.second|;
    assert forall k :: i <= k < i + packets ==> log[k] == log[i..i + packets][k - i];
    if story.hello != [] {
      assert log[f] == story.hello[0];
    }
    assert forall k :: f + h + s <= k < |log| ==> log[k] == story.persisted[k - f - h - s];
    assert log[i + packets - 1].Sent?;
  }

  /** A failed attempt has no such row. */
  lemma NoRowInFailure(sends: seq<Action>, packets: nat, i: nat)
    requires packets > 0 && IsAttempt(sends, packets, false) && i + packets <= |sends|
    ensures !AllAcknowledged(sends[i..i + packets])
  {
    assert sends[i..i + packets][packets - 1] == sends[|sends| - 1];
  }

  lemma StoryEndsWhenAcknowledged(w: World, story: Story, packets: nat, outcome: Outcome, i: nat, j: nat)
    requires packets > 0 && Tells(w, story, packets, outcome)
    requires AcknowledgedFrom(story.Log(), i, packets) && i + packets <= j < |story.Log()|
    ensures story.Log()[j].Persisted? && outcome == Done
  {
    var log, f, h, s := story.Log(), |story.first|, |story.hello|, |story.second|;
    RowWithinAttempt(story, i, packets);
    if i + packets <= f {
      assert log[i..i + packets] == story.first[i..i + packets];
      if IsAttempt(story.first, packets, false) {
        NoRowInFailure(story.first, packets, i);
      }
    } else if h > 0 {
      var k: nat := i - f - h;
      assert log[i..i + packets] == story.second[k..k + packets];
      if IsAttempt(story.second, packets, false) {
        NoRowInFailure(story.second, packets, k);
      }
    }
  }

  /** Once all its packets were acknowledged in a row, a command sends nothing more and has succeeded. */
  lemma AcknowledgedIsLast(w: World, clock: Option<Reading>, connected: bool, packets: nat, i: nat, j: nat)
    requires packets > 0
    requires AcknowledgedFrom(Command(w, clock, connected, packets).0.log, i, packets)
    requires i + packets <= j < |Command(w, clock, connected, packets).0.log|
    ensures Command(w, clock, connected, packets).0.log[j].Persisted?
    ensures Command(w, clock, connected, packets).1 == Done
  {
    var story := CommandStory(w, clock, connected, packets);
    StoryEndsWhenAcknowledged(w, story, packets, Command(w, clock, connected, packets).1, i, j);
  }

  lemma {:induction false} AttemptIgnoresPersisting(w: World, persists: bool, s: Session, packets: nat)
    requires s.clock.Some?
    ensures Attempt(w.(persists := persists), s, packets) == Attempt(w, s, packets)
    decreases packets
  {
    if packets > 0 && w.answer(s.packets).Acknowledged? {
      AttemptIgnoresPersisting(w, persists, AfterPacket(w, s), packets - 1);
    }
  }

  /** A store that fails to persist changes neither the outcome, nor the clock, nor what is sent. */
  lemma PersistingNeverResends(w: World, persists: bool, clock: Option<Reading>, connected: bool, packets: nat)
    ensures var (s, outcome) := Command(w, clock, connected, packets);
      var (t, other) := Command(w.(persists := persists), clock, connected, packets);
      outcome == other && s.clock == t.clock && s.packets == t.packets && s.step == t.step
  {
    var v := w.(persists := persists);
    var s := Loaded(w, Fresh(clock));
    if s.clock.Some? {
      AttemptIgnoresPersisting(w, persists, s, packets);
      var t := Attempt(w, s, packets).0.(clock := None);
      assert AfterHello(v, t) == AfterHello(w, t);
      AttemptIgnoresPersisting(w, persists, AfterHello(w, t), packets);
    } else {
      assert AfterHello(v, s) == AfterHello(w, s);
      AttemptIgnoresPersisting(w, persists, AfterHello(w, s), packets);
    }
  }

  // ---- The stamps of a command

  /** The device reports its own clock, and the process's clocks run with it. */
  ghost predicate Honest(d: Device, w: World) {
    && d.Sound()
    && (forall t :: w.report(t) == d.Stamp(t))
    && (forall i: nat :: w.time(i) == d.Moment(w.time(i).perf))
    && (forall i: nat, j: nat :: i <= j ==> w.time(i).perf <= w.time(j).perf)
  }

  ghost predicate InTimeFrom(d: Device, log: seq<Action>, from: nat) {
    forall j :: from <= j < |log| && log[j].Sent? ==> d.InTime(log[j].stamp, log[j].at)
  }

  lemma PacketIsInTime(d: Device, w: World, s: Session)
    requires Honest(d, w) && s.clock.Some? && d.Truthful(s.clock.value, w.time(s.step).perf)
    ensures var t := AfterPacket(w, s);
      && t.log[..|s.log|] == s.log && InTimeFrom(d, t.log, |s.log|)
      && t.clock.Some? && d.Truthful(t.clock.value, w.time(t.step).perf)
  {
    var now, later := w.time(s.step).perf, w.time(s.step + 1).perf;
    assert now <= later <= w.time(s.step + 2).perf;
    NextIsInTime(d, s.clock.value, now);
    NextGrows(s.clock.value, now, later);
    SyncIsTruthful(d, later);
    var r := AfterPacket(w, s).clock.value;
    assert r == s.clock.value || r == Synced(d.Stamp(later), d.Moment(later));
    if r == s.clock.value {
      StaysTruthful(d, r, now, w.time(s.step + 2).perf);
    } else {
      StaysTruthful(d, r, later, w.time(s.step + 2).perf);
    }
  }

  lemma {:induction false} AttemptIsInTime(d: Device, w: World, s: Session, packets: nat)
    requires Honest(d, w) && s.clock.Some? && d.Truthful(s.clock.value, w.time(s.step).perf)
    ensures s.log <= Attempt(w, s, packets).0.log
    ensures InTimeFrom(d, Attempt(w, s, packets).0.log, |s.log|)
    decreases packets
  {
    if packets > 0 {
      PacketIsInTime(d, w, s);
      var next := AfterPacket(w, s);
      if w.answer(s.packets).Acknowledged? {
        AttemptIsInTime(d, w, next, packets - 1);
        var log := Attempt(w, next, packets - 1).0.log;
        assert log[|s.log|] == next.log[|s.log|];
      }
    }
  }

  lemma FreshIsInTime(d: Device, w: World, s: Session, packets: nat, retried: bool)
    requires Honest(d, w) && forall i :: 0 <= i < |s.log| ==> s.log[i].Sent?
    ensures var log := WithFreshStamp(w, s, packets, retried).0.log;
      && s.log <= log && InTimeFrom(d, log, |s.log|)
      && forall i :: 0 <= i < |log| && log[i].Greeted? ==> i >= |s.log|
  {
    if w.hello {
      var greeted := AfterHello(w, s);
      var now, later := w.time(s.step).perf, w.time(s.step + 1).perf;
      SyncIsTruthful(d, now);
      assert now <= later;
      StaysTruthful(d, greeted.clock.value, now, later);
      AttemptIsInTime(d, w, greeted, packets);
    }
  }

  /** Whatever the cached clock was, a rebooted device's too: every packet after the handshake is in time. */
  lemma AfterHelloIsInTime(d: Device, w: World, clock: Option<Reading>, connected: bool, packets: nat, i: nat, j: nat)
    requires Honest(d, w)
    requires var log := Command(w, clock, connected, packets).0.log;
      i < j < |log| && log[i].Greeted? && log[j].Sent?
    ensures var sent := Command(w, clock, connected, packets).0.log[j]; d.InTime(sent.stamp, sent.at)
  {
    var s := Loaded(w, Fresh(clock));
    if s.clock.None? {
      FreshIsInTime(d, w, s, packets, false);
    } else {
      var sends := AttemptSends(w, s, packets);
      var (tried, ok) := Attempt(w, s, packets);
      AttemptIsSends(sends, packets, ok);
      if !ok {
        FreshIsInTime(d, w, tried.(clock := None), packets, true);
      }
    }
  }

  lemma InTimeThroughout(d: Device, first: seq<Action>, log: seq<Action>)
    requires first <= log && InTimeFrom(d, first, 0) && InTimeFrom(d, log, |first|)
    ensures InTimeFrom(d, log, 0)
  {
    forall j | 0 <= j < |first| && log[j].Sent? ensures d.InTime(log[j].stamp, log[j].at) {
      assert log[j] == first[j];
    }
  }

  lemma CachedIsInTime(d: Device, w: World, s: Session, packets: nat)
    requires Honest(d, w) && s.clock.Some? && s.log == [] && d.Truthful(s.clock.value, w.time(s.step).perf)
    ensures var (tried, ok) := Attempt(w, s, packets);
      && InTimeFrom(d, tried.log, 0)
      && (!ok ==> InTimeFrom(d, WithFreshStamp(w, tried.(clock := None), packets, true).0.log, 0))
  {
    AttemptIsInTime(d, w, s, packets);
    var sends := AttemptSends(w, s, packets);
    var (tried, ok) := Attempt(w, s, packets);
    AttemptIsSends(sends, packets, ok);
    assert tried.log == sends;
    if !ok {
      var again := tried.(clock := None);
      FreshIsInTime(d, w, again, packets, true);
      InTimeThroughout(d, tried.log, WithFreshStamp(w, again, packets, true).0.log);
    }
  }

  lemma LoadedIsTruthful(d: Device, w: World, clock: Option<Reading>)
    requires Honest(d, w)
    requires clock.Some? ==> d.Truthful(clock.value, w.time(0).perf)
    requires w.stored.Holds? ==> d.Genuine(w.stored.state, w.time(0).perf)
    ensures var s := Loaded(w, Fresh(clock)); s.clock.Some? ==> d.Truthful(s.clock.value, w.time(s.step).perf)
  {
    var s := Loaded(w, Fresh(clock));
    if s.clock.Some? && clock.None? {
      RestoreIsTruthful(d, clock, w.stored.state, w.time(0).perf);
      assert w.time(0).perf <= w.time(1).perf;
      StaysTruthful(d, s.clock.value, w.time(0).perf, w.time(1).perf);
    }
  }

  /** With a reading of this device, or none: every packet of the command is in time. */
  lemma CommandIsInTime(d: Device, w: World, clock: Option<Reading>, connected: bool, packets: nat)
    requires Honest(d, w)
    requires clock.Some? ==> d.Truthful(clock.value, w.time(0).perf)
    requires w.stored.Holds? ==> d.Genuine(w.stored.state, w.time(0).perf)
    ensures InTimeFrom(d, Command(w, clock, connected, packets).0.log, 0)
  {
    var s := Loaded(w, Fresh(clock));
    if s.clock.None? {
      FreshIsInTime(d, w, s, packets, false);
    } else {
      LoadedIsTruthful(d, w, clock);
      CachedIsInTime(d, w, s, packets);
    }
  }

  // ---- Commands one after the other

  lemma {:induction false} AttemptKeepsClock(d: Device, w: World, s: Session, packets: nat)
    requires Honest(d, w) && s.clock.Some? && d.Truthful(s.clock.value, w.time(s.step).perf)
    ensures var t := Attempt(w, s, packets).0; t.clock.Some? && d.Truthful(t.clock.value, w.time(t.step).perf)
    decreases packets
  {
    if packets > 0 {
      PacketIsInTime(d, w, s);
      if w.answer(s.packets).Acknowledged? {
        AttemptKeepsClock(d, w, AfterPacket(w, s), packets - 1);
      }
    }
  }

  /** The readings a command persisted are the device's. */
  ghost predicate PersistsGenuine(d: Device, log: seq<Action>, now: real) {
    forall i :: 0 <= i < |log| && log[i].Persisted? ==> d.Genuine(log[i].state, now)
  }

  /** The command leaves a reading of the device, or none, and persisted nothing else. */
  ghost predicate LeavesGenuine(d: Device, w: World, t: Session) {
    && (t.clock.Some? ==> d.Truthful(t.clock.value, w.time(t.step).perf))
    && PersistsGenuine(d, t.log, w.time(t.step).perf)
  }

  lemma PersistLeavesGenuine(d: Device, w: World, s: Session)
    requires LeavesGenuine(d, w, s)
    ensures LeavesGenuine(d, w, Persist(w, s))
  {
    if s.clock.Some? {
      var u :| u <= w.time(s.step).perf && d.TakenAt(s.clock.value, u);
    }
  }

  lemma SendsPersistNothing(d: Device, log: seq<Action>, now: real)
    requires forall i :: 0 <= i < |log| ==> !log[i].Persisted?
    ensures PersistsGenuine(d, log, now)
  {
  }

  lemma AttemptLeavesGenuine(d: Device, w: World, s: Session, packets: nat)
    requires Honest(d, w) && s.clock.Some? && d.Truthful(s.clock.value, w.time(s.step).perf)
    requires forall i :: 0 <= i < |s.log| ==> !s.log[i].Persisted?
    ensures LeavesGenuine(d, w, Attempt(w, s, packets).0)
    ensures forall i :: 0 <= i < |Attempt(w, s, packets).0.log| ==>
      if i < |s.log| then Attempt(w, s, packets).0.log[i] == s.log[i] else Attempt(w, s, packets).0.log[i].Sent?
  {
    AttemptKeepsClock(d, w, s, packets);
    AttemptIsAnswered(w, s, packets);
    SendsPersistNothing(d, Attempt(w, s, packets).0.log, w.time(Attempt(w, s, packets).0.step).perf);
  }

  lemma FreshLeavesGenuine(d: Device, w: World, s: Session, packets: nat, retried: bool)
    requires Honest(d, w) && s.clock.None? && forall i :: 0 <= i < |s.log| ==> s.log[i].Sent?
    ensures LeavesGenuine(d, w, WithFreshStamp(w, s, packets, retried).0)
  {
    if w.hello {
      var greeted := AfterHello(w, s);
      var now, later := w.time(s.step).perf, w.time(s.step + 1).perf;
      SyncIsTruthful(d, now);
      assert now <= later;
      StaysTruthful(d, greeted.clock.value, now, later);
      AttemptLeavesGenuine(d, w, greeted, packets);
      PersistLeavesGenuine(d, w, Attempt(w, greeted, packets).0);
    }
  }

  /** With a reading of this device, or none, a command leaves one, or none, and persists no other. */
  lemma CommandLeavesGenuine(d: Device, w: World, clock: Option<Reading>, connected: bool, packets: nat)
    requires Honest(d, w)
    requires clock.Some? ==> d.Truthful(clock.value, w.time(0).perf)
    requires w.stored.Holds? ==> d.Genuine(w.stored.state, w.time(0).perf)
    ensures LeavesGenuine(d, w, Command(w, clock, connected, packets).0)
  {
    var s := Loaded(w, Fresh(clock));
    if s.clock.None? {
      FreshLeavesGenuine(d, w, s, packets, false);
    } else {
      LoadedIsTruthful(d, w, clock);
      var (tried, ok) := Attempt(w, s, packets);
      AttemptLeavesGenuine(d, w, s, packets);
      PersistLeavesGenuine(d, w, tried);
      if !ok {
        FreshLeavesGenuine(d, w, tried.(clock := None), packets, true);
      }
    }
  }

  /** One command of a sequence: what it meets, whether the device is connected, and how many packets it is. */
  datatype Call = Call(world: World, connected: bool, packets: nat) {
    function After(clock: Option<Reading>): Session {
      Command(world, clock, connected, packets).0
    }
  }

  function PersistedIn(log: seq<Action>): set<StampState> {
    set i | 0 <= i < |log| && log[i].Persisted? :: log[i].state
  }

  /** Commands of one device, none before the last one is over. The store gives back only what it held at first,
      or what a command had persisted by then. */
  ghost predicate Follows(d: Device, calls: seq<Call>, clock: Option<Reading>, now: real, held: set<StampState>)
    decreases |calls|
  {
    calls == [] ||
    (var w, t := calls[0].world, calls[0].After(clock);
     && Honest(d, w) && now <= w.time(0).perf
     && (w.stored.Holds? ==> w.stored.state in held)
     && Follows(d, calls[1..], t.clock, w.time(t.step).perf, held + PersistedIn(t.log)))
  }

  /** What each command of a sequence did. */
  function Logs(calls: seq<Call>, clock: Option<Reading>): (logs: seq<seq<Action>>)
    ensures |logs| == |calls|
    decreases |calls|
  {
    if calls == [] then []
    else var t := calls[0].After(clock); [t.log] + Logs(calls[1..], t.clock)
  }

  ghost predicate AllGenuine(d: Device, held: set<StampState>, now: real) {
    forall state :: state in held ==> d.Genuine(state, now)
  }

  lemma GenuineStays(d: Device, held: set<StampState>, log: seq<Action>, now: real, later: real)
    requires AllGenuine(d, held, now) && now <= later && PersistsGenuine(d, log, later)
    ensures AllGenuine(d, held + PersistedIn(log), later)
  {
    forall state | state in held + PersistedIn(log) ensures d.Genuine(state, later) {
      if state in held {
        assert d.Genuine(state, now);
      }
    }
  }

  /** What is known between two commands. */
  ghost predicate Knows(d: Device, clock: Option<Reading>, now: real, held: set<StampState>) {
    AllGenuine(d, held, now) && (clock.Some? ==> d.Truthful(clock.value, now))
  }

  lemma KnowsLater(d: Device, clock: Option<Reading>, now: real, held: set<StampState>, later: real)
    requires Knows(d, clock, now, held) && now <= later
    ensures Knows(d, clock, later, held)
  {
    GenuineStays(d, held, [], now, later);
    assert held + PersistedIn([]) == held;
    if clock.Some? {
      StaysTruthful(d, clock.value, now, later);
    }
  }

  /** One command, from what is known before it to what is known after it. */
  lemma CommandStaysInTime(d: Device, call: Call, clock: Option<Reading>, held: set<StampState>, t: Session)
    requires Honest(d, call.world) && t == call.After(clock)
    requires Knows(d, clock, call.world.time(0).perf, held)
    requires call.world.stored.Holds? ==> call.world.stored.state in held
    ensures InTimeFrom(d, t.log, 0)
    ensures Knows(d, t.clock, call.world.time(t.step).perf, held + PersistedIn(t.log))
  {
    var w := call.world;
    CommandIsInTime(d, w, clock, call.connected, call.packets);
    CommandLeavesGenuine(d, w, clock, call.connected, call.packets);
    assert w.time(0).perf <= w.time(t.step).perf;
    GenuineStays(d, held, t.log, w.time(0).perf, w.time(t.step).perf);
  }

  /** Commands go on from the reading the last one left. */
  lemma {:induction false} CommandsStayInTime(
    d: Device, calls: seq<Call>, clock: Option<Reading>, now: real, held: set<StampState>, i: nat)
    requires Follows(d, calls, clock, now, held) && Knows(d, clock, now, held) && i < |calls|
    ensures InTimeFrom(d, Logs(calls, clock)[i], 0)
    decreases |calls|
  {
    var w, t := calls[0].world, calls[0].After(clock);
    KnowsLater(d, clock, now, held, w.time(0).perf);
    CommandStaysInTime(d, calls[0], clock, held, t);
    if i > 0 {
      CommandsStayInTime(d, calls[1..], t.clock, w.time(t.step).perf, held + PersistedIn(t.log), i - 1);
    }
  }

  /** From a new device with an empty store: every packet of every command is in time, whatever is lost, refused
      or echoed on the way. */
  lemma NewDeviceStaysInTime(d: Device, calls: seq<Call>, start: real, i: nat, j: nat)
    requires Follows(d, calls, None, start, {}) && i < |calls|
    requires j < |Logs(calls, None)[i]| && Logs(calls, None)[i][j].Sent?
    ensures var sent := Logs(calls, None)[i][j];
      && d.InTime(sent.stamp, sent.at)
      && (d.skew == 0.0 ==> d.Stamp(sent.at) <= sent.stamp <= d.Stamp(sent.at) + 1)
  {
    CommandsStayInTime(d, calls, None, start, {}, i);
  }

  class MiotDevice {
    const clock: DeviceClock
    var deviceId: Option<int>
    var step: nat
    var packetsSent: nat
    ghost var log: seq<Action>

    constructor (deviceId: Option<int>)
      ensures this.deviceId == deviceId && fresh(clock) && View() == Fresh(None)
    {
      clock := new DeviceClock();
      this.deviceId, step, packetsSent, log := deviceId, 0, 0, [];
    }

    ghost function View(): Session
      reads this, clock
    {
      Session(clock.reading, step, packetsSent, log)
    }

    /** One command of that many packets, start to end; the device's queue runs them one at a time. */
    method RunWithStamp(w: World, packets: nat) returns (outcome: Outcome)
      modifies this`step, this`packetsSent, this`log, clock
      ensures (View(), outcome) == Command(w, old(clock.reading), deviceId.Some?, packets)
    {
      step, packetsSent, log := 0, 0, [];
      if deviceId.None? {
        return NotConnected;
      }
      if clock.reading.None? {
        if w.stored.StoreFails? {
          return StoreUnreadable;
        }
        if w.stored.Holds? {
          clock.Restore(w.stored.state, w.time(step));
          step := step + 1;
        }
      }
      if clock.reading.None? {
        outcome := RunWithFreshStamp(w, packets, false);
        return;
      }
      var ok := SendAll(w, packets);
      if ok {
        PersistSafely(w);
        return Done;
      }
      clock.Reset();
      outcome := RunWithFreshStamp(w, packets, true);
    }

    method RunWithFreshStamp(w: World, packets: nat, retried: bool) returns (outcome: Outcome)
      modifies this`step, this`packetsSent, this`log, clock
      ensures (View(), outcome) == WithFreshStamp(w, old(View()), packets, retried)
    {
      if !w.hello {
        log := log + [Unanswered];
        return NoHello;
      }
      var now := w.time(step);
      clock.Sync(w.report(now.perf), now);
      step := step + 1;
      log := log + [Greeted(w.report(now.perf))];
      var ok := SendAll(w, packets);
      if !ok {
        return Rejected(retried);
      }
      PersistSafely(w);
      outcome := Done;
    }

    method SendAll(w: World, packets: nat) returns (ok: bool)
      requires clock.reading.Some?
      modifies this`step, this`packetsSent, this`log, clock
      ensures (View(), ok) == Attempt(w, old(View()), packets)
    {
      var left: nat := packets;
      while left > 0
        invariant left <= packets && clock.reading.Some?
        invariant Attempt(w, old(View()), packets) == Attempt(w, View(), left)
      {
        ok := SendCommand(w);
        if !ok {
          return;
        }
        left := left - 1;
      }
      ok := true;
    }

    method SendCommand(w: World) returns (acknowledged: bool)
      requires clock.reading.Some?
      modifies this`step, this`packetsSent, this`log, clock
      ensures View() == AfterPacket(w, old(View())) && clock.reading.Some?
      ensures acknowledged <==> w.answer(old(packetsSent)).Acknowledged?
    {
      var now, later := w.time(step), w.time(step + 1);
      var next := clock.Next(now);
      var stamp := next.value;
      var answer := w.answer(packetsSent);
      if !answer.Silent? {
        clock.Observe(if answer.echo then stamp else w.report(later.perf), later);
      }
      step, packetsSent := step + 2, packetsSent + 1;
      log := log + [Sent(stamp, now.perf, answer)];
      acknowledged := answer.Acknowledged?;
    }

    /** The command has succeeded: a store that fails is only logged. */
    method PersistSafely(w: World)
      modifies this`log
      ensures View() == Persist(w, old(View()))
    {
      var state := clock.Snapshot();
      if !w.stored.NoStore? && state.Some? {
        log := log + [Persisted(state.value, w.persists)];
      }
    }
  }
}
