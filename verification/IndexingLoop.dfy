/** The indexing loop: a self-rescheduling chain of runs, with requests merged while one is in progress. */
module IndexingLoop {
  import opened Text

  datatype Request = Request(knowledgeBases: seq<string>, full: bool, manual: bool)

  function Merge(queued: Option<Request>, request: Request): Request {
    match queued
    case None => request
    case Some(q) =>
      Request(Deduplicate(q.knowledgeBases + request.knowledgeBases),
              q.full || request.full, q.manual || request.manual)
  }

  /** `run` does everything `request` asks for. */
  ghost predicate Covers(run: Request, request: Request) {
    && (forall kb :: kb in request.knowledgeBases ==> kb in run.knowledgeBases)
    && (request.full ==> run.full) && (request.manual ==> run.manual)
  }

  /** A merged request covers both, and asks for nothing neither did. */
  lemma MergeIsTheJoin(queued: Request, request: Request)
    ensures var merged := Merge(Some(queued), request);
      && Covers(merged, queued) && Covers(merged, request)
      && forall run :: Covers(run, queued) && Covers(run, request) ==> Covers(run, merged)
  {
    DeduplicateKeepsElements(queued.knowledgeBases + request.knowledgeBases);
  }

  /** The request a scheduled run makes, and whether the loop runs on its own. */
  datatype Config = Config(enabled: bool, all: seq<string>)

  datatype Entry = Queued(request: Request) | Started(request: Request)

  /** `active` are the runs in progress; `running` is what the service believes about that. */
  datatype State = State(
    timer: bool, running: bool, pending: Option<Request>, stopped: bool, active: seq<Request>, log: seq<Entry>)

  const INITIAL := State(false, false, None, false, [], [])

  /** `ReadyBegin` and `ReadyEnd` are the two ends of `$onReady`, which reads the database in between. */
  datatype Event = ReadyBegin | ReadyEnd | Trigger(request: Request) | TimerFires | RunEnds(run: nat) | Destroy

  function Schedule(s: State): State {
    if s.stopped then s else s.(timer := true)
  }

  function Launch(s: State, request: Request): State {
    s.(active := s.active + [request], running := true, log := s.log + [Started(request)])
  }

  function AfterTrigger(s: State, request: Request): State {
    if s.running then s.(pending := Some(Merge(s.pending, request)), log := s.log + [Queued(request)])
    else Launch(s.(timer := false), request)
  }

  function AfterRun(c: Config, s: State, run: nat): State
    requires run < |s.active|
  {
    var done := s.(active := s.active[..run] + s.active[run + 1..], running := false);
    if s.stopped then done
    else if s.pending.Some? then Launch(done.(pending := None), s.pending.value)
    else if c.enabled then Schedule(done) else done
  }

  predicate Enabled(s: State, event: Event) {
    && (event.TimerFires? ==> s.timer)
    && (event.RunEnds? ==> event.run < |s.active|)
  }

  function Apply(c: Config, s: State, event: Event): State
    requires Enabled(s, event)
  {
    match event
    case ReadyBegin => s.(stopped := false)
    case ReadyEnd => if c.enabled then Schedule(s) else s
    case Trigger(request) => AfterTrigger(s, request)
    case TimerFires => Launch(s.(timer := false), Request(c.all, false, false))
    case RunEnds(run) => AfterRun(c, s, run)
    case Destroy => s.(stopped := true, timer := false)
  }

  ghost predicate IsRun(c: Config, s: State, events: seq<Event>)
    decreases |events|
  {
    events == [] || (Enabled(s, events[0]) && IsRun(c, Apply(c, s, events[0]), events[1..]))
  }

  function Run(c: Config, s: State, events: seq<Event>): State
    requires IsRun(c, s, events)
    decreases |events|
  {
    if events == [] then s else Run(c, Apply(c, s, events[0]), events[1..])
  }

  /** No run is in progress, or the loop is switched off or stopped. */
  predicate ReadyIsSafe(c: Config, s: State) {
    s.active == [] || !c.enabled || s.stopped
  }

  /** `$onReady` ends, each time it does, with no run in progress, or when it arms nothing. */
  ghost predicate Calm(c: Config, s: State, events: seq<Event>)
    requires IsRun(c, s, events)
    decreases |events|
  {
    events == [] ||
    ((events[0].ReadyEnd? ==> ReadyIsSafe(c, s)) && Calm(c, Apply(c, s, events[0]), events[1..]))
  }

  // ---- One run at a time

  /** At most one run, which the service knows of; a timer excludes one. */
  ghost predicate OneRun(s: State) {
    |s.active| <= 1 && s.running == (s.active != []) && (s.timer ==> s.active == [])
  }

  /** One run, and nothing pends without it. */
  ghost predicate Exclusive(s: State) {
    OneRun(s) && (!s.stopped && s.pending.Some? ==> s.running)
  }

  /** Either a run is in progress or the timer is armed, never both, never neither. */
  ghost predicate Alive(c: Config, s: State) {
    c.enabled && !s.stopped ==> (s.timer <==> s.active == [])
  }

  // ---- Every queued request is covered

  /** The requests queued since a run last started. */
  function Waiting(log: seq<Entry>): seq<Request>
    decreases |log|
  {
    if log == [] || log[|log| - 1].Started? then [] else Waiting(log[..|log| - 1]) + [log[|log| - 1].request]
  }

  function JoinAll(requests: seq<Request>): Option<Request>
    decreases |requests|
  {
    if requests == [] then None
    else Some(Merge(JoinAll(requests[..|requests| - 1]), requests[|requests| - 1]))
  }

  lemma {:induction false} JoinCovers(requests: seq<Request>, i: nat)
    requires i < |requests|
    ensures JoinAll(requests).Some? && Covers(JoinAll(requests).value, requests[i])
    decreases |requests|
  {
    var n := |requests| - 1;
    var rest := JoinAll(requests[..n]);
    if rest.Some? {
      MergeIsTheJoin(rest.value, requests[n]);
    }
    if i < n {
      JoinCovers(requests[..n], i);
    }
  }

  /** The run that starts next after a request was queued covers it. */
  ghost predicate Answered(log: seq<Entry>) {
    forall i, j ::
      0 <= i < j < |log| && log[i].Queued? && log[j].Started? && (forall k :: i < k < j ==> log[k].Queued?) ==>
      Covers(log[j].request, log[i].request)
  }

  /** A run that starts with requests waiting is their merge, no more. */
  ghost predicate StartsAreMerges(log: seq<Entry>) {
    forall j :: 0 <= j < |log| && log[j].Started? && Waiting(log[..j]) != [] ==>
      JoinAll(Waiting(log[..j])) == Some(log[j].request)
  }

  ghost predicate Accounted(s: State) {
    Answered(s.log) && StartsAreMerges(s.log) && s.pending == JoinAll(Waiting(s.log))
  }

  /** Where in the log a waiting request stands, and the other way round. */
  lemma {:induction false} QueuedIsWaiting(log: seq<Entry>, i: nat)
    requires i < |log| && log[i].Queued? && forall k :: i < k < |log| ==> log[k].Queued?
    ensures log[i].request in Waiting(log)
    decreases |log|
  {
    var n := |log| - 1;
    if i < n {
      assert log[n].Queued?;
      assert forall k :: i < k < n ==> log[..n][k] == log[k];
      QueuedIsWaiting(log[..n], i);
    }
  }

  /** A run may start with `request` when that covers whatever waits. */
  lemma LaunchAnswers(log: seq<Entry>, request: Request)
    requires Answered(log) && (Waiting(log) == [] || JoinAll(Waiting(log)) == Some(request))
    ensures Answered(log + [Started(request)])
    ensures StartsAreMerges(log) ==> StartsAreMerges(log + [Started(request)])
  {
    var all := log + [Started(request)];
    assert forall j :: 0 <= j <= |log| ==> all[..j] == log[..j];
    assert log[..|log|] == log;
    forall i, j | 0 <= i < j < |all| && all[i].Queued? && all[j].Started? && (forall k :: i < k < j ==> all[k].Queued?)
      ensures Covers(all[j].request, all[i].request)
    {
      if j < |log| {
        assert forall k :: i < k < j ==> log[k] == all[k];
        assert log[i] == all[i] && log[j] == all[j];
      } else {
        assert forall k :: i < k < |log| ==> log[k] == all[k];
        QueuedIsWaiting(log, i);
        var w :| 0 <= w < |Waiting(log)| && Waiting(log)[w] == log[i].request;
        JoinCovers(Waiting(log), w);
      }
    }
  }

  lemma QueueAnswers(log: seq<Entry>, request: Request)
    requires Answered(log)
    ensures Answered(log + [Queued(request)])
    ensures StartsAreMerges(log) ==> StartsAreMerges(log + [Queued(request)])
    ensures JoinAll(Waiting(log + [Queued(request)])) == Some(Merge(JoinAll(Waiting(log)), request))
  {
    var all := log + [Queued(request)];
    assert forall j :: 0 <= j < |log| ==> all[..j] == log[..j];
    assert all[..|log|] == log;
    assert Waiting(all) == Waiting(log) + [request];
    assert (Waiting(log) + [request])[..|Waiting(log)|] == Waiting(log);
    forall i, j | 0 <= i < j < |all| && all[i].Queued? && all[j].Started? && (forall k :: i < k < j ==> all[k].Queued?)
      ensures Covers(all[j].request, all[i].request)
    {
      assert forall k :: i < k < j ==> log[k] == all[k];
      assert log[i] == all[i] && log[j] == all[j];
    }
  }

  // ---- Whole runs

  /** All that holds in every state of a run that is not destroyed. */
  ghost predicate Good(s: State) {
    Exclusive(s) && Accounted(s) && !s.stopped
  }

  lemma EventKeepsGood(c: Config, s: State, event: Event)
    requires Good(s) && Enabled(s, event) && !event.Destroy? && (event.ReadyEnd? ==> ReadyIsSafe(c, s))
    ensures Good(Apply(c, s, event))
    ensures Alive(c, s) || event.ReadyEnd? ==> Alive(c, Apply(c, s, event))
  {
    assert s.pending.None? ==> Waiting(s.log) == [];
    match event
    case ReadyBegin =>
    case ReadyEnd =>
    case Trigger(request) =>
      if s.running {
        QueueAnswers(s.log, request);
      } else {
        LaunchAnswers(s.log, request);
      }
    case TimerFires => LaunchAnswers(s.log, Request(c.all, false, false));
    case RunEnds(run) =>
      assert s.active[..run] + s.active[run + 1..] == [];
      if s.pending.Some? {
        LaunchAnswers(s.log, s.pending.value);
      }
    }

  lemma {:induction false} RunKeepsGood(c: Config, s: State, events: seq<Event>)
    requires Good(s) && IsRun(c, s, events) && Calm(c, s, events) && Destroy !in events
    ensures Good(Run(c, s, events))
    ensures Alive(c, s) || ReadyEnd in events ==> Alive(c, Run(c, s, events))
    decreases |events|
  {
    if events != [] {
      assert events[0] in events;
      EventKeepsGood(c, s, events[0]);
      RunKeepsGood(c, Apply(c, s, events[0]), events[1..]);
    }
  }

  lemma EventKeepsOneRun(c: Config, s: State, event: Event)
    requires OneRun(s) && Enabled(s, event) && (event.ReadyEnd? ==> ReadyIsSafe(c, s))
    ensures OneRun(Apply(c, s, event))
  {
    if event.RunEnds? {
      assert s.active[..event.run] + s.active[event.run + 1..] == [];
    }
  }

  lemma {:induction false} RunKeepsOneRun(c: Config, s: State, events: seq<Event>)
    requires OneRun(s) && IsRun(c, s, events) && Calm(c, s, events)
    ensures OneRun(Run(c, s, events))
    decreases |events|
  {
    if events != [] {
      EventKeepsOneRun(c, s, events[0]);
      RunKeepsOneRun(c, Apply(c, s, events[0]), events[1..]);
    }
  }

  /** Runs never overlap, destroyed or not; an enabled loop that became ready and was not destroyed always has
      exactly one of run and timer. */
  lemma RunsNeverOverlap(c: Config, events: seq<Event>)
    requires IsRun(c, INITIAL, events) && Calm(c, INITIAL, events)
    ensures var s := Run(c, INITIAL, events);
      && |s.active| <= 1
      && (s.running <==> s.active != [])
      && (c.enabled && ReadyEnd in events && Destroy !in events ==> (s.timer <==> s.active == []))
  {
    RunKeepsOneRun(c, INITIAL, events);
    if Destroy !in events {
      RunKeepsGood(c, INITIAL, events);
    }
  }

  // ---- Told by the events

  /** The runs in progress before an event that are still so after it. */
  function Left(s: State, event: Event): seq<Request>
    requires Enabled(s, event)
  {
    if event.RunEnds? then s.active[..event.run] + s.active[event.run + 1..] else s.active
  }

  /** The runs an event starts: those that join the ones in progress. */
  function Joined(c: Config, s: State, event: Event): seq<Request>
    requires Enabled(s, event)
  {
    var t := Apply(c, s, event);
    if |Left(s, event)| <= |t.active| then t.active[|Left(s, event)|..] else []
  }

  function AsStarted(requests: seq<Request>): seq<Entry> {
    if requests == [] then [] else [Started(requests[0])] + AsStarted(requests[1..])
  }

  /** Apart from what waits for a run to end, a run is started by a trigger or the timer alone, and is exactly what
      was asked. */
  lemma RunsAreWhatWasAsked(c: Config, s: State, event: Event)
    requires OneRun(s) && Enabled(s, event) && !event.RunEnds?
    ensures Joined(c, s, event) ==
      match event
      case Trigger(request) => if s.active == [] then [request] else []
      case TimerFires => [Request(c.all, false, false)]
      case _ => []
  {
  }

  /** What there is to tell of an event: a trigger met by a run in progress is queued; what joins is started. */
  function ToldOf(c: Config, s: State, event: Event): seq<Entry>
    requires Enabled(s, event)
  {
    (if event.Trigger? && s.active != [] then [Queued(event.request)] else []) + AsStarted(Joined(c, s, event))
  }

  function Told(c: Config, s: State, events: seq<Event>): seq<Entry>
    requires IsRun(c, s, events)
    decreases |events|
  {
    if events == [] then [] else ToldOf(c, s, events[0]) + Told(c, Apply(c, s, events[0]), events[1..])
  }

  lemma EventIsTold(c: Config, s: State, event: Event)
    requires OneRun(s) && Enabled(s, event)
    ensures Left(s, event) <= Apply(c, s, event).active
    ensures Apply(c, s, event).log == s.log + ToldOf(c, s, event)
  {
    var t := Apply(c, s, event);
    assert t.active == Left(s, event) + Joined(c, s, event);
    assert |Joined(c, s, event)| <= 1;
    assert Joined(c, s, event) != [] ==> AsStarted(Joined(c, s, event)) == [Started(Joined(c, s, event)[0])];
  }

  /** The log holds exactly the requests of the triggers that met a run in progress, and every run that started,
      in the order of the events. */
  lemma {:induction false} LogTellsTheEvents(c: Config, s: State, events: seq<Event>)
    requires OneRun(s) && IsRun(c, s, events) && Calm(c, s, events)
    ensures Run(c, s, events).log == s.log + Told(c, s, events)
    decreases |events|
  {
    if events != [] {
      var t := Apply(c, s, events[0]);
      EventIsTold(c, s, events[0]);
      EventKeepsOneRun(c, s, events[0]);
      LogTellsTheEvents(c, t, events[1..]);
      Associate(s.log, ToldOf(c, s, events[0]), Told(c, t, events[1..]));
    }
  }

  lemma LogIsTold(c: Config, events: seq<Event>)
    requires IsRun(c, INITIAL, events) && Calm(c, INITIAL, events)
    ensures Run(c, INITIAL, events).log == Told(c, INITIAL, events)
  {
    LogTellsTheEvents(c, INITIAL, events);
  }

  /** As the events tell it: a run that starts with requests queued since the last start is exactly their merge. */
  lemma StartsMergeTheQueued(c: Config, events: seq<Event>)
    requires IsRun(c, INITIAL, events) && Calm(c, INITIAL, events) && Destroy !in events
    ensures Answered(Told(c, INITIAL, events)) && StartsAreMerges(Told(c, INITIAL, events))
  {
    RunKeepsGood(c, INITIAL, events);
    LogIsTold(c, events);
  }

  /** The run in progress is the one there was, and what pends covers the request. */
  ghost predicate Waits(s: State, run: Request, request: Request) {
    OneRun(s) && !s.stopped && s.active == [run] && s.pending.Some? && Covers(s.pending.value, request)
  }

  /** No event of these starts a run. */
  ghost predicate NoneStarts(c: Config, s: State, events: seq<Event>)
    requires IsRun(c, s, events)
    decreases |events|
  {
    events == [] || (Joined(c, s, events[0]) == [] && NoneStarts(c, Apply(c, s, events[0]), events[1..]))
  }

  lemma EndStartsWhatPends(c: Config, s: State, run: Request, request: Request)
    requires Waits(s, run, request)
    ensures Joined(c, s, RunEnds(0)) == [s.pending.value]
  {
    assert s.active[..0] + s.active[1..] == [];
  }

  lemma EventKeepsWaiting(c: Config, s: State, event: Event, run: Request, request: Request)
    requires Waits(s, run, request) && Enabled(s, event) && !event.Destroy? && Joined(c, s, event) == []
    requires event.ReadyEnd? ==> ReadyIsSafe(c, s)
    ensures Waits(Apply(c, s, event), run, request)
  {
    EventKeepsOneRun(c, s, event);
    EndStartsWhatPends(c, s, run, request);
    if event.Trigger? {
      MergeIsTheJoin(s.pending.value, event.request);
    }
  }

  lemma {:induction false} RunKeepsWaiting(c: Config, s: State, events: seq<Event>, run: Request, request: Request)
    requires Waits(s, run, request) && IsRun(c, s, events) && Calm(c, s, events) && Destroy !in events
    requires NoneStarts(c, s, events)
    ensures Waits(Run(c, s, events), run, request)
    decreases |events|
  {
    if events != [] {
      assert events[0] in events;
      EventKeepsWaiting(c, s, events[0], run, request);
      RunKeepsWaiting(c, Apply(c, s, events[0]), events[1..], run, request);
    }
  }

  lemma TriggerWaits(c: Config, s: State, request: Request)
    requires Good(s) && s.active != []
    ensures Waits(AfterTrigger(s, request), s.active[0], request)
  {
    if s.pending.Some? {
      MergeIsTheJoin(s.pending.value, request);
    }
  }

  /** A trigger met by a run in progress, answered QUEUED: no run starts before that one ends; its end starts one at
      once, and that covers the request, whatever else was asked meanwhile. */
  lemma QueuedRequestsAreCovered(c: Config, before: seq<Event>, request: Request, between: seq<Event>)
    requires IsRun(c, INITIAL, before) && Calm(c, INITIAL, before) && Destroy !in before
    requires var s := Run(c, INITIAL, before);
      var t := Apply(c, s, Trigger(request));
      && s.active != [] && IsRun(c, t, between) && Calm(c, t, between) && Destroy !in between
      && NoneStarts(c, t, between)
    ensures var s := Run(c, INITIAL, before);
      var u := Run(c, Apply(c, s, Trigger(request)), between);
      && u.active == s.active && |Joined(c, u, RunEnds(0))| == 1 && Covers(Joined(c, u, RunEnds(0))[0], request)
  {
    RunKeepsGood(c, INITIAL, before);
    var s := Run(c, INITIAL, before);
    TriggerWaits(c, s, request);
    RunKeepsWaiting(c, Apply(c, s, Trigger(request)), between, s.active[0], request);
    var u := Run(c, Apply(c, s, Trigger(request)), between);
    EndStartsWhatPends(c, u, s.active[0], request);
  }

  // ---- Where it needs the condition

  /** No two runs are ever in progress from here on, as long as every later `$onReady` is safe. */
  ghost predicate NoOverlap(c: Config, s: State) {
    forall events | IsRun(c, s, events) && Calm(c, s, events) :: |Run(c, s, events).active| <= 1
  }

  /** Once `$onReady` has ended, runs stay apart exactly when none was in progress, or the end did nothing: it
      does not look. */
  lemma ReadyIsSafeIff(c: Config, s: State)
    requires OneRun(s)
    ensures NoOverlap(c, Apply(c, s, ReadyEnd)) <==> s.active == [] || !c.enabled || s.stopped
  {
    var t := Apply(c, s, ReadyEnd);
    if ReadyIsSafe(c, s) {
      forall events | IsRun(c, t, events) && Calm(c, t, events) ensures |Run(c, t, events).active| <= 1 {
        RunKeepsOneRun(c, t, events);
      }
    } else {
      var u := Apply(c, t, TimerFires);
      assert IsRun(c, u, []) && Calm(c, u, []) && Run(c, u, []) == u;
      assert [TimerFires][1..] == [];
      assert IsRun(c, t, [TimerFires]) && Calm(c, t, [TimerFires]) && Run(c, t, [TimerFires]) == u;
    }
  }

  /** A request that comes in before `$onReady` is done makes two runs overlap. */
  lemma EarlyTriggerOverlaps(c: Config, request: Request, s: State)
    requires c.enabled && s == AfterTrigger(INITIAL, request)
    ensures Enabled(Apply(c, s, ReadyEnd), TimerFires)
    ensures Apply(c, Apply(c, s, ReadyEnd), TimerFires).active == [request, Request(c.all, false, false)]
  {
  }

  /** Once stopped, and until it becomes ready again: no timer is armed, and only a trigger starts a run. */
  lemma {:induction false} StoppedStaysQuiet(c: Config, s: State, events: seq<Event>)
    requires s.stopped && !s.timer && IsRun(c, s, events) && ReadyBegin !in events
    ensures var t := Run(c, s, events);
      && t.stopped && !t.timer
      && ((forall e :: e in events ==> !e.Trigger?) ==> t.log == s.log && |t.active| <= |s.active|)
    decreases |events|
  {
    if events != [] {
      assert events[0] in events;
      StoppedStaysQuiet(c, Apply(c, s, events[0]), events[1..]);
    }
  }

  class IndexingLoopService {
    const enabled: bool
    const knowledgeBases: seq<string>

    /** Whether a timer is armed. */
    var timer: bool
    var running: bool
    var pending: Option<Request>
    var stopped: bool
    /** The runs in progress, and what was queued and started. */
    ghost var active: seq<Request>
    ghost var log: seq<Entry>

    constructor (enabled: bool, knowledgeBases: seq<string>)
      ensures GetConfig() == Config(enabled, knowledgeBases) && View() == INITIAL
    {
      this.enabled, this.knowledgeBases := enabled, knowledgeBases;
      timer, running, pending, stopped, active, log := false, false, None, false, [], [];
    }

    function GetConfig(): Config {
      Config(enabled, knowledgeBases)
    }

    ghost function View(): State
      reads this
    {
      State(timer, running, pending, stopped, active, log)
    }

    method OnReadyBegin()
      modifies this
      ensures View() == Apply(GetConfig(), old(View()), ReadyBegin)
    {
      stopped := false;
    }

    method OnReadyEnd()
      modifies this
      ensures View() == Apply(GetConfig(), old(View()), ReadyEnd)
    {
      if enabled {
        Arm();
      }
    }

    method OnDestroy()
      modifies this
      ensures View() == Apply(GetConfig(), old(View()), Destroy)
    {
      stopped := true;
      timer := false;
    }

    /** Without a run in progress one begins at once; otherwise the request waits, merged with any that waits. */
    method Trigger(request: Request) returns (queued: bool)
      modifies this
      ensures queued == old(running)
      ensures View() == AfterTrigger(old(View()), request)
    {
      if running {
        pending := Some(Merge(pending, request));
        log := log + [Queued(request)];
        return true;
      }
      timer := false;
      Begin(request);
      return false;
    }

    method OnTimer()
      requires timer
      modifies this
      ensures View() == Apply(GetConfig(), old(View()), TimerFires)
    {
      timer := false;
      Begin(Request(knowledgeBases, false, false));
    }

    method Arm()
      modifies this
      ensures View() == Schedule(old(View()))
    {
      if stopped {
        return;
      }
      timer := true;
    }

    method Begin(request: Request)
      modifies this
      ensures View() == Launch(old(View()), request)
    {
      active := active + [request];
      running := true;
      log := log + [Started(request)];
    }

    /** What `start` does once its run is over, however that ended. */
    method OnRunEnd(ghost run: nat)
      requires run < |active|
      modifies this
      ensures View() == AfterRun(GetConfig(), old(View()), run)
    {
      active := active[..run] + active[run + 1..];
      running := false;
      if stopped {
        return;
      }
      var next := pending;
      pending := None;
      if next.Some? {
        Begin(next.value);
      } else if enabled {
        Arm();
      }
    }
  }
}
