/** Replaying requests that were answered 401, with concurrent requests sharing one credential generation. */
module HttpReplay {
  import opened Text
  import opened Resilience

  /** `Tagged` waits for credentials; `Sending(n)` is about to make attempt `n`; `Replaying` is about to be
      sent through the interceptors again. The caller gets the result of `Done`; without credentials nothing
      was sent. */
  datatype Phase = Tagged | Sending(attempt: nat) | Replaying | Done(result: Result) | NoCredentials

  /** `generation` is the one the request was last tagged with, `refused` the one its 401 was for. */
  datatype Request = Request(
    mayRetry: bool, phase: Phase, generation: nat, retried: bool, refused: Option<nat>, passes: nat, hits: nat)

  /** `generation` is bumped on every invalidation a 401 causes; `invalidated` lists those, in order. */
  datatype State = State(generation: nat, requests: map<nat, Request>, invalidated: seq<nat>)

  datatype Config = Config(retryCount: nat, statusCodes: set<nat>)

  const INITIAL := State(0, map[], [])

  /** One step of one request. An attempt may be rejected by the policy before it reaches the adapter. */
  datatype Event =
    | Start(id: nat, mayRetry: bool)
    | Credentials(id: nat, usable: bool)
    | Attempt(id: nat, reached: bool, result: Result)
    | Replay(id: nat)

  const UNAUTHORIZED := Failed(Status(401))

  function Put(s: State, id: nat, r: Request): State {
    s.(requests := s.requests[id := r])
  }

  /** The response interceptor: the first 401 of a request replays it, and drops the credentials only if no
      other request has since. */
  function Settle(s: State, id: nat, r: Request, result: Result): State {
    if result == UNAUTHORIZED && !r.retried then
      var replaying := Put(s, id, r.(phase := Replaying, retried := true, refused := Some(r.generation)));
      if r.generation == s.generation
      then replaying.(generation := s.generation + 1, invalidated := s.invalidated + [s.generation])
      else replaying
    else Put(s, id, r.(phase := Done(result)))
  }

  predicate Enabled(s: State, event: Event) {
    match event
    case Start(id, _) => id !in s.requests
    case Credentials(id, _) => id in s.requests && s.requests[id].phase.Tagged?
    case Attempt(id, reached, result) =>
      id in s.requests && s.requests[id].phase.Sending? && (!reached ==> result.Failed? && !result.failure.Status?)
    case Replay(id) => id in s.requests && s.requests[id].phase.Replaying?
  }

  function AttemptMade(c: Config, s: State, id: nat, reached: bool, result: Result): State
    requires id in s.requests && s.requests[id].phase.Sending?
  {
    var r := s.requests[id];
    var hit := r.(hits := r.hits + (if reached then 1 else 0));
    if GoesOn(result, r.phase.attempt, Budget(c.retryCount, r.mayRetry), c.statusCodes)
    then Put(s, id, hit.(phase := Sending(r.phase.attempt + 1)))
    else Settle(s, id, hit, result)
  }

  function Apply(c: Config, s: State, event: Event): State
    requires Enabled(s, event)
  {
    match event
    case Start(id, mayRetry) => Put(s, id, Request(mayRetry, Tagged, s.generation, false, None, 1, 0))
    case Credentials(id, usable) =>
      Put(s, id, s.requests[id].(phase := if usable then Sending(0) else NoCredentials))
    case Attempt(id, reached, result) => AttemptMade(c, s, id, reached, result)
    case Replay(id) =>
      var r := s.requests[id];
      Put(s, id, r.(phase := Tagged, generation := s.generation, passes := r.passes + 1))
  }

  ghost predicate IsRun(c: Config, s: State, events: seq<Event>)
    decreases |events|
  {
    events == [] || (Enabled(s, events[0]) && IsRun(c, Apply(c, s, events[0]), events[1..]))
  }

  function Run(c: Config, s: State, events: seq<Event>): State
    requires IsRun(c, s, events)
    decreases |events|
  {
    if events == [] then s else Run(c, Apply(c, s, events[0]), events[1..])
  }

  // ---- What every interleaving keeps

  /** How many adapter calls a request's earlier passes, and the attempts of this one, account for. */
  function Allowed(c: Config, r: Request): nat
    requires r.passes >= 1
  {
    var budget := Budget(c.retryCount, r.mayRetry);
    match r.phase
    case Tagged => if r.passes == 1 then 0 else budget
    case Sending(attempt) => (if r.passes == 1 then 0 else budget) + attempt
    case Replaying => budget
    case _ => if r.passes == 1 then budget else 2 * budget
  }

  ghost predicate RequestSound(c: Config, s: State, r: Request) {
    && (r.passes == 1 || r.passes == 2)
    && (r.passes == 2 ==> r.retried)
    && (r.retried <==> r.refused.Some?)
    && (r.retried && r.passes == 1 ==> r.phase.Replaying?)
    && (r.phase.Replaying? ==> r.passes == 1 && r.retried && r.refused == Some(r.generation))
    && (r.phase == Done(UNAUTHORIZED) ==> r.passes == 2)
    && (r.refused.Some? ==> r.refused.value < s.generation)
    && (r.passes == 2 ==> r.refused.value < r.generation)
    && r.generation <= s.generation
    && (r.phase.Sending? ==> r.phase.attempt < Budget(c.retryCount, r.mayRetry))
    && r.hits <= Allowed(c, r)
  }

  ghost predicate Sound(c: Config, s: State) {
    && |s.invalidated| == s.generation
    && (forall g :: 0 <= g < s.generation ==> s.invalidated[g] == g)
    && forall id :: id in s.requests ==> RequestSound(c, s, s.requests[id])
  }

  /** Soundness of a request outlives a bump of the generation. */
  lemma OthersStaySound(c: Config, s: State, t: State, id: nat)
    requires Sound(c, s) && s.generation <= t.generation
    requires forall other :: other in t.requests && other != id ==>
      other in s.requests && t.requests[other] == s.requests[other]
    ensures forall other :: other in t.requests && other != id ==> RequestSound(c, t, t.requests[other])
  {
  }

  lemma AttemptKeepsSound(c: Config, s: State, id: nat, reached: bool, result: Result)
    requires Sound(c, s) && Enabled(s, Attempt(id, reached, result))
    ensures Sound(c, AttemptMade(c, s, id, reached, result))
  {
    var t := AttemptMade(c, s, id, reached, result);
    var r := s.requests[id];
    assert RequestSound(c, s, r);
    assert RequestSound(c, t, t.requests[id]);
    OthersStaySound(c, s, t, id);
  }

  lemma EventKeepsSound(c: Config, s: State, event: Event)
    requires Sound(c, s) && Enabled(s, event)
    ensures Sound(c, Apply(c, s, event))
  {
    var t := Apply(c, s, event);
    match event
    case Start(id, mayRetry) => OthersStaySound(c, s, t, id);
    case Credentials(id, usable) =>
      assert RequestSound(c, s, s.requests[id]);
      OthersStaySound(c, s, t, id);
    case Attempt(id, reached, result) => AttemptKeepsSound(c, s, id, reached, result);
    case Replay(id) =>
      assert RequestSound(c, s, s.requests[id]);
      OthersStaySound(c, s, t, id);
  }

  lemma {:induction false} RunKeepsSound(c: Config, s: State, events: seq<Event>)
    requires Sound(c, s) && IsRun(c, s, events)
    ensures Sound(c, Run(c, s, events))
    decreases |events|
  {
    if events != [] {
      EventKeepsSound(c, s, events[0]);
      RunKeepsSound(c, Apply(c, s, events[0]), events[1..]);
    }
  }

  /** However requests interleave, a credential generation is invalidated by one 401 at most, in order. */
  lemma EachGenerationIsInvalidatedOnce(c: Config, events: seq<Event>, i: nat, j: nat)
    requires IsRun(c, INITIAL, events)
    requires i < j < |Run(c, INITIAL, events).invalidated|
    ensures Run(c, INITIAL, events).invalidated[i] < Run(c, INITIAL, events).invalidated[j]
    ensures Run(c, INITIAL, events).invalidated[j] < Run(c, INITIAL, events).generation
  {
    RunKeepsSound(c, INITIAL, events);
  }

  /** No request is replayed twice, and its adapter calls are bounded: at most two when it may not be retried. */
  lemma AdapterCallsAreBounded(c: Config, events: seq<Event>, id: nat)
    requires IsRun(c, INITIAL, events) && id in Run(c, INITIAL, events).requests
    ensures var r := Run(c, INITIAL, events).requests[id];
      && r.passes <= 2
      && r.hits <= 2 * (c.retryCount + 1)
      && (!r.mayRetry ==> r.hits <= 2)
      && (r.passes == 1 && !r.retried ==> r.hits <= Budget(c.retryCount, r.mayRetry))
  {
    RunKeepsSound(c, INITIAL, events);
    var s := Run(c, INITIAL, events);
    assert RequestSound(c, s, s.requests[id]);
  }

  /** A replay never goes out under the generation that was refused. */
  lemma ReplaysUseNewerCredentials(c: Config, events: seq<Event>, id: nat)
    requires IsRun(c, INITIAL, events) && id in Run(c, INITIAL, events).requests
    ensures var r := Run(c, INITIAL, events).requests[id];
      r.passes == 2 ==> r.refused.Some? && r.refused.value < r.generation
  {
    RunKeepsSound(c, INITIAL, events);
    var s := Run(c, INITIAL, events);
    assert RequestSound(c, s, s.requests[id]);
  }

  // ---- The refusals of a run, and what becomes of them

  /** A pass that ended in a 401, with the generation it was sent under. */
  datatype Refusal = Refusal(id: nat, generation: nat)

  predicate Refuses(c: Config, s: State, event: Event)
    requires Enabled(s, event)
  {
    && event.Attempt? && event.result == UNAUTHORIZED
    && var r := s.requests[event.id];
       !GoesOn(event.result, r.phase.attempt, Budget(c.retryCount, r.mayRetry), c.statusCodes)
  }

  /** All 401s in which a pass of a request ended, in order. */
  function Refusals(c: Config, s: State, events: seq<Event>): seq<Refusal>
    requires IsRun(c, s, events)
    decreases |events|
  {
    if events == [] then []
    else
      (if Refuses(c, s, events[0]) then [Refusal(events[0].id, s.requests[events[0].id].generation)] else [])
      + Refusals(c, Apply(c, s, events[0]), events[1..])
  }

  /** Of those, a request's first one counts, and only the first that counts of each generation. */
  function Invalidations(refusals: seq<Refusal>, refused: set<nat>, invalidated: seq<nat>): seq<nat>
    decreases |refusals|
  {
    if refusals == [] then invalidated
    else
      var r := refusals[0];
      Invalidations(refusals[1..], refused + {r.id},
                    if r.id in refused || r.generation in invalidated then invalidated
                    else invalidated + [r.generation])
  }

  function Retried(s: State): set<nat> {
    set id | id in s.requests && s.requests[id].retried
  }

  lemma StepInvalidates(c: Config, s: State, event: Event)
    requires Sound(c, s) && Enabled(s, event)
    ensures !Refuses(c, s, event) ==>
      Apply(c, s, event).invalidated == s.invalidated && Retried(Apply(c, s, event)) == Retried(s)
    ensures Refuses(c, s, event) ==>
      var g := s.requests[event.id].generation;
      && Retried(Apply(c, s, event)) == Retried(s) + {event.id}
      && Apply(c, s, event).invalidated ==
         if event.id in Retried(s) || g in s.invalidated then s.invalidated else s.invalidated + [g]
  {
    if Refuses(c, s, event) {
      var g := s.requests[event.id].generation;
      assert RequestSound(c, s, s.requests[event.id]);
      assert g < s.generation ==> s.invalidated[g] == g;
    }
  }

  lemma {:induction false} RunInvalidates(c: Config, s: State, events: seq<Event>)
    requires Sound(c, s) && IsRun(c, s, events)
    ensures Run(c, s, events).invalidated == Invalidations(Refusals(c, s, events), Retried(s), s.invalidated)
    decreases |events|
  {
    if events != [] {
      StepInvalidates(c, s, events[0]);
      EventKeepsSound(c, s, events[0]);
      var rest := Refusals(c, Apply(c, s, events[0]), events[1..]);
      RunInvalidates(c, Apply(c, s, events[0]), events[1..]);
      if Refuses(c, s, events[0]) {
        assert Refusals(c, s, events)[1..] == rest;
      } else {
        assert Refusals(c, s, events) == rest;
      }
    }
  }

  /** However requests interleave, credentials are dropped for exactly the generations some request met its
      first 401 under, each when the first of those came; every other request that was refused joins it. */
  lemma FirstRefusalsInvalidate(c: Config, events: seq<Event>)
    requires IsRun(c, INITIAL, events)
    ensures Run(c, INITIAL, events).invalidated == Invalidations(Refusals(c, INITIAL, events), {}, [])
  {
    RunInvalidates(c, INITIAL, events);
    assert Retried(INITIAL) == {};
  }

  function RefusalCount(refusals: seq<Refusal>, id: nat): nat {
    if refusals == [] then 0 else (if refusals[0].id == id then 1 else 0) + RefusalCount(refusals[1..], id)
  }

  /** How many refusals a request's record stands for. */
  function Recorded(s: State, id: nat): nat {
    if id !in s.requests || !s.requests[id].retried then 0
    else if s.requests[id].phase == Done(UNAUTHORIZED) then 2
    else 1
  }

  lemma {:induction false} RunRecords(c: Config, s: State, events: seq<Event>, id: nat)
    requires IsRun(c, s, events)
    ensures Recorded(Run(c, s, events), id) == Recorded(s, id) + RefusalCount(Refusals(c, s, events), id)
    decreases |events|
  {
    if events != [] {
      var rest := Refusals(c, Apply(c, s, events[0]), events[1..]);
      RunRecords(c, Apply(c, s, events[0]), events[1..], id);
      if Refuses(c, s, events[0]) {
        assert Refusals(c, s, events)[1..] == rest;
      } else {
        assert Refusals(c, s, events) == rest;
      }
    }
  }

  /** A caller is told of a 401 exactly when it was the second one of its request. The first is always replayed,
      once what it was sent under has been dropped. */
  lemma CallersSeeTheSecondRefusal(c: Config, events: seq<Event>, id: nat)
    requires IsRun(c, INITIAL, events) && id in Run(c, INITIAL, events).requests
    ensures var t := Run(c, INITIAL, events);
      var r, count := t.requests[id], RefusalCount(Refusals(c, INITIAL, events), id);
      && count <= 2
      && (r.phase == Done(UNAUTHORIZED) <==> count == 2)
      && (count == 2 ==> r.passes == 2)
      && (count == 1 ==> r.passes == 2 || r.phase.Replaying?)
      && (count > 0 ==> r.refused.Some? && r.refused.value in t.invalidated)
      && (r.passes == 2 ==> count > 0)
  {
    RunRecords(c, INITIAL, events, id);
    RunKeepsSound(c, INITIAL, events);
    var t := Run(c, INITIAL, events);
    var r := t.requests[id];
    assert RequestSound(c, t, r);
    if r.refused.Some? {
      assert t.invalidated[r.refused.value] == r.refused.value;
    }
  }

  // ---- What the events say of one request

  /** Attempts made in the current pass, adapter calls, replays, the last result, the last usability of credentials. */
  datatype Tally = Tally(attempts: nat, calls: nat, replays: nat, last: Option<Result>, usable: bool)

  const NOTHING := Tally(0, 0, 0, None, true)

  function Counted(tally: Tally, event: Event): Tally {
    match event
    case Start(_, _) => NOTHING
    case Credentials(_, usable) => tally.(usable := usable)
    case Attempt(_, reached, result) =>
      tally.(attempts := tally.attempts + 1, calls := tally.calls + (if reached then 1 else 0), last := Some(result))
    case Replay(_) => tally.(attempts := 0, replays := tally.replays + 1)
  }

  function TallyOf(tally: Tally, events: seq<Event>, id: nat): Tally
    decreases |events|
  {
    if events == [] then tally
    else TallyOf(if events[0].id == id then Counted(tally, events[0]) else tally, events[1..], id)
  }

  ghost predicate Spent(c: Config, r: Request, tally: Tally) {
    && tally.attempts > 0 && tally.last.Some?
    && !GoesOn(tally.last.value, tally.attempts - 1, Budget(c.retryCount, r.mayRetry), c.statusCodes)
  }

  /** The record of a request says what its events do. A pass that is over used up its attempts, unless the last one
      may not be retried. */
  ghost predicate Records(c: Config, r: Request, tally: Tally) {
    && r.hits == tally.calls && r.passes == tally.replays + 1
    && match r.phase
       case Tagged => tally.attempts == 0
       case Sending(n) => tally.attempts == n && tally.usable
       case Replaying => tally.last == Some(UNAUTHORIZED) && Spent(c, r, tally)
       case Done(result) => tally.last == Some(result) && Spent(c, r, tally)
       case NoCredentials => !tally.usable && tally.attempts == 0
  }

  ghost predicate AllRecorded(c: Config, s: State, id: nat, tally: Tally) {
    id in s.requests ==> Records(c, s.requests[id], tally)
  }

  lemma EventIsRecorded(c: Config, s: State, event: Event, id: nat, tally: Tally)
    requires Enabled(s, event) && AllRecorded(c, s, id, tally)
    ensures AllRecorded(c, Apply(c, s, event), id, if event.id == id then Counted(tally, event) else tally)
  {
  }

  lemma {:induction false} RunIsRecorded(c: Config, s: State, events: seq<Event>, id: nat, tally: Tally)
    requires IsRun(c, s, events) && AllRecorded(c, s, id, tally)
    ensures AllRecorded(c, Run(c, s, events), id, TallyOf(tally, events, id))
    decreases |events|
  {
    if events != [] {
      EventIsRecorded(c, s, events[0], id, tally);
      RunIsRecorded(c, Apply(c, s, events[0]), events[1..], id,
                    if events[0].id == id then Counted(tally, events[0]) else tally);
    }
  }

  /** A caller gets the result of the last attempt made, once that may not be retried any more; adapter calls and
      passes are those the events made; without usable credentials nothing more is sent. */
  lemma CallersGetTheLastResult(c: Config, events: seq<Event>, id: nat)
    requires IsRun(c, INITIAL, events) && id in Run(c, INITIAL, events).requests
    ensures Records(c, Run(c, INITIAL, events).requests[id], TallyOf(NOTHING, events, id))
  {
    RunIsRecorded(c, INITIAL, events, id, NOTHING);
  }

  /** How many invalidations there had been when the request last passed the interceptors. */
  function TagOf(c: Config, s: State, events: seq<Event>, id: nat, tag: nat): nat
    requires IsRun(c, s, events)
    decreases |events|
  {
    if events == [] then tag
    else
      var e := events[0];
      TagOf(c, Apply(c, s, e), events[1..], id, if e.id == id && (e.Start? || e.Replay?) then |s.invalidated| else tag)
  }

  lemma {:induction false} TagsAreCurrent(c: Config, s: State, events: seq<Event>, id: nat, tag: nat)
    requires Sound(c, s) && IsRun(c, s, events) && (id in s.requests ==> s.requests[id].generation == tag)
    ensures id in Run(c, s, events).requests ==>
      Run(c, s, events).requests[id].generation == TagOf(c, s, events, id, tag)
    decreases |events|
  {
    if events != [] {
      var e := events[0];
      EventKeepsSound(c, s, e);
      TagsAreCurrent(c, Apply(c, s, e), events[1..], id,
                     if e.id == id && (e.Start? || e.Replay?) then |s.invalidated| else tag);
    }
  }

  /** A request is tagged with the number of invalidations there had been when it was last sent off. */
  lemma RequestsCarryTheirGeneration(c: Config, events: seq<Event>, id: nat)
    requires IsRun(c, INITIAL, events) && id in Run(c, INITIAL, events).requests
    ensures Run(c, INITIAL, events).requests[id].generation == TagOf(c, INITIAL, events, id, 0)
  {
    TagsAreCurrent(c, INITIAL, events, id, 0);
  }

  /** A provider's interceptors, with the request configurations they annotate. */
  class Provider {
    const retryCount: nat
    const statusCodes: set<nat>
    var generation: nat
    var requests: map<nat, Request>
    ghost var invalidated: seq<nat>

    constructor (retryCount: nat, statusCodes: set<nat>)
      ensures GetConfig() == Config(retryCount, statusCodes) && View() == INITIAL
    {
      this.retryCount, this.statusCodes := retryCount, statusCodes;
      generation, requests, invalidated := 0, map[], [];
    }

    function GetConfig(): Config {
      Config(retryCount, statusCodes)
    }

    ghost function View(): State
      reads this
    {
      State(generation, requests, invalidated)
    }

    /** The request interceptor tags the configuration before it asks for credentials. */
    method Send(id: nat, method_: Option<string>, retry: Option<bool>)
      requires id !in requests
      modifies this
      ensures View() == Apply(GetConfig(), old(View()), Start(id, MayRetry(method_, retry)))
    {
      requests := requests[id := Request(MayRetry(method_, retry), Tagged, generation, false, None, 1, 0)];
    }

    /** Blank credentials never reach the wire; they are dropped without counting as an invalidation by a 401. */
    method Attach(id: nat, usable: bool)
      requires Enabled(View(), Credentials(id, usable))
      modifies this
      ensures View() == Apply(GetConfig(), old(View()), Credentials(id, usable))
    {
      requests := requests[id := requests[id].(phase := if usable then Sending(0) else NoCredentials)];
    }

    /** One attempt under the policy, and what the response interceptor makes of the last one. */
    method OnAttempt(id: nat, reached: bool, result: Result)
      requires Enabled(View(), Attempt(id, reached, result))
      modifies this
      ensures View() == Apply(GetConfig(), old(View()), Attempt(id, reached, result))
    {
      var r := requests[id];
      if reached {
        r := r.(hits := r.hits + 1);
      }
      if GoesOn(result, r.phase.attempt, Budget(retryCount, r.mayRetry), statusCodes) {
        requests := requests[id := r.(phase := Sending(r.phase.attempt + 1))];
        return;
      }
      OnSettled(id, r, result);
    }

    method OnSettled(id: nat, r: Request, result: Result)
      modifies this
      ensures View() == Settle(old(View()), id, r, result)
    {
      if result == UNAUTHORIZED && !r.retried {
        requests := requests[id := r.(phase := Replaying, retried := true, refused := Some(r.generation))];
        if r.generation == generation {
          invalidated := invalidated + [generation];
          generation := generation + 1;
        }
      } else {
        requests := requests[id := r.(phase := Done(result))];
      }
    }

    /** The configuration goes through the interceptors again. */
    method Resend(id: nat)
      requires Enabled(View(), Replay(id))
      modifies this
      ensures View() == Apply(GetConfig(), old(View()), Replay(id))
    {
      var r := requests[id];
      requests := requests[id := r.(phase := Tagged, generation := generation, passes := r.passes + 1)];
    }
  }
}
