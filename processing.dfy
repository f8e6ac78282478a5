/** The processing page: a cosmetic five-step timeline advanced by a
    1500 ms interval, while the proposal is generated in the background at
    most once per mount. Each run of the mount effect starts an interval of
    its own; timer firings, the generation result and the effect's cleanup
    are events. */
module Processing {
  import opened JsonValue
  import Api
  import AgentProgress
  import opened AppRoutes

  const Steps: seq<AgentProgress.Step> := [
    AgentProgress.Step("Analysing the Document", Some("Scanning document structure...")),
    AgentProgress.Step("Requirement Mapping Agent", Some("Prioritizing features...")),
    AgentProgress.Step("Designing Solution Architect", Some("Designing database schema...")),
    AgentProgress.Step("Finance Pricing Agent", Some("Calculating resource costs...")),
    AgentProgress.Step("Master Agent Reviewing Task", Some("Finalizing proposal..."))
  ]

  const TickPeriod := 1500
  /** Without an overview the interval is cleared after this many ms. */
  const ClearDelay := |Steps| * TickPeriod + 200

  /** The interval's update `s => Math.min(s + 1, steps.length)`. */
  function Advance(active: int): (r: int)
    ensures active < |Steps| ==> r == active + 1
    ensures active >= |Steps| ==> r == |Steps|
  {
    if active + 1 < |Steps| then active + 1 else |Steps|
  }

  /** `active` after `k` ticks from `active`. */
  function AfterTicks(active: int, k: nat): (r: int)
    ensures active <= |Steps| ==> active <= r <= |Steps|
    ensures k == 0 ==> r == active
    decreases k
  {
    if k == 0 then active else AfterTicks(Advance(active), k - 1)
  }

  /** `k` ticks from `start` reach `min(start + k, 5)`. */
  lemma {:induction false} AfterTicksSaturates(start: nat, k: nat)
    requires start <= |Steps|
    ensures AfterTicks(start, k) == if start + k < |Steps| then start + k else |Steps|
    decreases k
  {
    if k > 0 {
      AfterTicksSaturates(Advance(start), k - 1);
    }
  }

  /** The ticks that fit before the clearing timer light every step. */
  lemma ClearTimerCompletesTimeline()
    ensures ClearDelay / TickPeriod == |Steps|
    ensures AfterTicks(0, ClearDelay / TickPeriod) == |Steps|
  {
    AfterTicksSaturates(0, ClearDelay / TickPeriod);
  }

  /** The index handed to the timeline, `Math.min(active, steps.length - 1)`. */
  function DisplayIndex(active: int): (r: int)
    ensures 0 <= active ==> 0 <= r <= |Steps| - 1
    ensures active <= |Steps| - 1 ==> r == active
    ensures active >= |Steps| - 1 ==> r == |Steps| - 1
  {
    if active < |Steps| - 1 then active else |Steps| - 1
  }

  const SubtitlePrefix := "Agent pipeline running for: "

  /** The subtitle: the state's file name, or "Uploaded document". */
  function Subtitle(fileName: Option<string>): (r: string)
    ensures fileName.Some? && fileName.value != "" ==> r == SubtitlePrefix + fileName.value
    ensures !(fileName.Some? && fileName.value != "") ==> r == SubtitlePrefix + "Uploaded document"
  {
    SubtitlePrefix + (if fileName.Some? && fileName.value != "" then fileName.value else "Uploaded document")
  }

  /** What the asynchronous part of the first effect run awaits. */
  datatype Pending =
    | NoTask
    | AwaitingProposal(iv: nat)   // the request; `iv` is that run's interval
    | AwaitingClear(iv: nat)      // the timer that clears that run's interval

  class ProcessingPage {
    const overview: Option<Json>      // `state?.approvedOverview`
    var active: int
    var running: set<nat>             // intervals not yet cleared
    var nextId: nat
    var effectInterval: Option<nat>   // the interval of the effect run now mounted
    var called: bool                  // `calledRef.current`
    var requests: nat                 // `generateProposal` calls made
    var pending: Pending
    var navigation: Option<Navigation>

    ghost predicate Valid()
      reads this
    {
      && 0 <= active <= |Steps|
      && (forall id :: id in running ==> id < nextId)
      && (effectInterval.Some? ==> effectInterval.value < nextId)
      && requests == (if called && IsTruthy(overview) then 1 else 0)
      && (!called ==> pending == NoTask && effectInterval == None)
      && (pending.AwaitingProposal? ==> IsTruthy(overview) && pending.iv < nextId)
      && (pending.AwaitingClear? ==> !IsTruthy(overview) && pending.iv < nextId)
    }

    constructor (overview: Option<Json>)
      ensures Valid() && this.overview == overview
      ensures active == 0 && running == {} && nextId == 0 && effectInterval == None
      ensures !called && requests == 0 && pending == NoTask && navigation == None
    {
      this.overview := overview;
      active := 0;
      running := {};
      nextId := 0;
      effectInterval := None;
      called := false;
      requests := 0;
      pending := NoTask;
      navigation := None;
    }

    /** The mount effect: reset the counter, start an interval, and on the
        first run only start the generation (or, without an overview, the
        clearing timer). */
    method Effect()
      requires Valid() && effectInterval == None
      modifies this
      ensures Valid()
      ensures active == 0 && running == old(running) + {old(nextId)} && nextId == old(nextId) + 1
      ensures effectInterval == Some(old(nextId)) && called
      ensures old(called) ==> requests == old(requests) && pending == old(pending)
      ensures !old(called) && IsTruthy(overview) ==> requests == 1 && pending == AwaitingProposal(old(nextId))
      ensures !old(called) && !IsTruthy(overview) ==> requests == 0 && pending == AwaitingClear(old(nextId))
      ensures navigation == old(navigation)
    {
      active := 0;
      var iv := nextId;
      nextId := nextId + 1;
      running := running + {iv};
      effectInterval := Some(iv);
      if !called {
        called := true;
        if IsTruthy(overview) {
          requests := requests + 1;
          pending := AwaitingProposal(iv);
        } else {
          pending := AwaitingClear(iv);
        }
      }
    }

    /** The effect's cleanup (unmount, or a re-run of the effect). */
    method Cleanup()
      requires Valid() && effectInterval.Some?
      modifies this
      ensures Valid() && effectInterval == None
      ensures running == old(running) - {old(effectInterval).value}
      ensures active == old(active) && nextId == old(nextId) && called == old(called)
      ensures requests == old(requests) && pending == old(pending) && navigation == old(navigation)
    {
      running := running - {effectInterval.value};
      effectInterval := None;
    }

    /** A running interval fires. */
    method Tick(iv: nat)
      requires Valid() && iv in running
      modifies this`active
      ensures Valid() && active == Advance(old(active))
    {
      active := Advance(active);
    }

    /** `k` firings of one running interval. */
    method Ticks(iv: nat, k: nat)
      requires Valid() && iv in running
      modifies this`active
      ensures Valid() && active == AfterTicks(old(active), k)
    {
      var i := 0;
      while i < k
        invariant 0 <= i <= k
        invariant Valid()
        invariant AfterTicks(old(active), k) == AfterTicks(active, k - i)
      {
        Tick(iv);
        i := i + 1;
      }
    }

    /** The generation settled: success navigates to the result page; a
        failure clears the interval of the run that started it. */
    method ProposalSettled(r: Api.Result<Json>)
      requires Valid() && pending.AwaitingProposal?
      modifies this
      ensures Valid() && pending == NoTask
      ensures r.Ok? ==> navigation == Some(Navigate("/proposal", Some(Obj([Field("result", r.value)]))))
                        && running == old(running)
      ensures r.Err? ==> navigation == old(navigation) && running == old(running) - {old(pending).iv}
      ensures active == old(active) && effectInterval == old(effectInterval) && nextId == old(nextId)
      ensures called == old(called) && requests == old(requests)
    {
      var iv := pending.iv;
      pending := NoTask;
      match r
      case Ok(resp) =>
        navigation := Some(Navigate("/proposal", Some(Obj([Field("result", resp)]))));
      case Err(_) =>
        running := running - {iv};
    }

    /** The clearing timer of the no-overview path fired. */
    method ClearTimerElapsed()
      requires Valid() && pending.AwaitingClear?
      modifies this
      ensures Valid() && pending == NoTask
      ensures running == old(running) - {old(pending).iv}
      ensures active == old(active) && effectInterval == old(effectInterval) && nextId == old(nextId)
      ensures called == old(called) && requests == old(requests) && navigation == old(navigation)
    {
      running := running - {pending.iv};
      pending := NoTask;
    }
  }

  /** One mount with a failing generation: the interval is cleared, so no
      interval is left to advance `active`, and nothing navigates. */
  method MountThenFail(overview: Json, ticks: nat, message: string) returns (p: ProcessingPage)
    requires Truthy(overview)
    ensures p.Valid() && p.running == {} && p.navigation == None && p.requests == 1
    ensures p.active == (if ticks < |Steps| then ticks else |Steps|)
  {
    p := new ProcessingPage(Some(overview));
    p.Effect();
    p.Ticks(0, ticks);
    AfterTicksSaturates(0, ticks);
    p.ProposalSettled(Api.Err(message));
  }

  /** Running the effect twice (cleanup in between) still makes one
      request. The failure then clears only the first run's interval,
      which the cleanup had already cleared, so the second run's interval
      keeps advancing the timeline. */
  method EffectTwiceThenFail(overview: Json, message: string) returns (p: ProcessingPage)
    requires Truthy(overview)
    ensures p.Valid() && p.requests == 1
    ensures p.running == {1} && p.navigation == None
  {
    p := new ProcessingPage(Some(overview));
    p.Effect();
    p.Cleanup();
    p.Effect();
    p.ProposalSettled(Api.Err(message));
  }

  /** Without an overview no request is made, and once the clearing timer
      fires no interval is left. */
  method MountWithoutOverview(overview: Option<Json>) returns (p: ProcessingPage)
    requires !IsTruthy(overview)
    ensures p.Valid() && p.requests == 0 && p.running == {} && p.navigation == None
    ensures p.active == |Steps|
  {
    p := new ProcessingPage(overview);
    p.Effect();
    ClearTimerCompletesTimeline();
    p.Ticks(0, ClearDelay / TickPeriod);
    p.ClearTimerElapsed();
  }

  /** Whatever the sequence of events, at most one request is made. */
  lemma AtMostOneRequest(p: ProcessingPage)
    requires p.Valid()
    ensures p.requests <= 1
    ensures p.requests == 1 <==> p.called && IsTruthy(p.overview)
  {
  }
}
