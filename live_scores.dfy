/** The live-score ticker: a poller that keeps one score snapshot fresh while the page
    is visible, and the arithmetic that sizes the ticker's scroll animation.

    The poller is a state machine driven by explicit events. The abort controller is a
    generation counter: controller number `controllers` is the one `abortRef` holds,
    and `aborted` records every controller whose `abort()` was called. The interval
    timer is the set of intervals still scheduled plus the id `intervalRef` holds. */
module LiveScores {
  import opened Common
  import opened Games

  const PollIntervalMs: nat := 60000
  const ScrollMsPerChip: nat := 8000
  const ScrollMinMs: nat := 20000
  const ScrollMaxMs: nat := 80000

  // ------------------------------------------------------ scroll duration

  /** About 8 s of scrolling per game, never under 20 s nor over 80 s. */
  function ScrollDuration(chipCount: nat): (ms: nat)
    ensures ScrollMinMs <= ms <= ScrollMaxMs
    ensures ms == chipCount * ScrollMsPerChip <==> 3 <= chipCount <= 10
    ensures chipCount <= 2 ==> ms == ScrollMinMs
    ensures chipCount >= 10 ==> ms == ScrollMaxMs
  {
    var ms := chipCount * ScrollMsPerChip;
    if ms > ScrollMaxMs then ScrollMaxMs else if ms < ScrollMinMs then ScrollMinMs else ms
  }

  lemma ScrollDurationMonotone(a: nat, b: nat)
    requires a <= b
    ensures ScrollDuration(a) <= ScrollDuration(b)
  {
  }

  /** What the ticker area shows. */
  datatype TickerView =
    | LoadingText
    | NoGamesText
    | Track(chips: seq<Game>, durationMs: nat)

  /** The ticker renders every game twice in a row for a seamless loop, and animates
      over half the track, so the duration is sized by the number of distinct games. */
  function Ticker(loading: bool, scores: Option<Snapshot>): (v: TickerView)
    ensures v == LoadingText <==> loading
    ensures v == NoGamesText <==> !loading && AllGames(scores) == []
    ensures v.Track? ==>
      && |v.chips| == 2 * |AllGames(scores)|
      && v.chips[..|v.chips| / 2] == v.chips[|v.chips| / 2..] == AllGames(scores)
      && v.durationMs == ScrollDuration(|v.chips| / 2)
  {
    var games := AllGames(scores);
    if loading then LoadingText
    else if games == [] then NoGamesText
    else Track(games + games, ScrollDuration(|games|))
  }

  // -------------------------------------------------------- poller state

  datatype Phase = BeforeMount | Mounted | AfterUnmount

  datatype Poller = Poller(
    phase: Phase,
    hidden: bool,               // document.hidden
    scores: Option<Snapshot>,   // the `scores` state cell
    loading: bool,              // the `loading` state cell
    intervalRef: Option<nat>,   // the interval id intervalRef.current holds
    timers: set<nat>,           // intervals scheduled and not cleared
    nextTimer: nat,             // the id the next setInterval returns
    controllers: nat,           // AbortControllers created; abortRef.current is the last
    aborted: set<nat>,          // controllers whose abort() was called
    outstanding: set<nat>)      // requests issued whose completion has not run

  /** The events the environment delivers. */
  datatype Event =
    | Mount
    | Tick(timer: nat)
    | VisibilityChange(nowHidden: bool)
    | Complete(generation: nat, outcome: Response<Snapshot>)
    | Unmount

  /** Before the component mounts: no snapshot, loading, no timer, no request. */
  function Initial(hidden: bool): (p: Poller)
    ensures p.scores.None? && p.loading && p.controllers == 0 && p.timers == {}
  {
    Poller(BeforeMount, hidden, None, true, None, {}, 1, 0, {}, {})
  }

  /** fetchScores: abort the controller abortRef holds, then start a request with a fresh one. */
  function Fetch(p: Poller): Poller {
    var aborted := if p.controllers > 0 then p.aborted + {p.controllers} else p.aborted;
    p.(aborted := aborted, controllers := p.controllers + 1,
       outstanding := p.outstanding + {p.controllers + 1})
  }

  /** stopInterval: clear the interval intervalRef holds (clearInterval(null) does nothing) and null the ref. */
  function StopInterval(p: Poller): Poller {
    var timers := if p.intervalRef.Some? then p.timers - {p.intervalRef.value} else p.timers;
    p.(intervalRef := None, timers := timers)
  }

  /** startInterval as written: schedule a new interval and overwrite intervalRef. */
  function StartIntervalAsWritten(p: Poller): Poller {
    p.(intervalRef := Some(p.nextTimer), timers := p.timers + {p.nextTimer},
       nextTimer := p.nextTimer + 1)
  }

  /** startInterval as intended: clear the interval intervalRef holds first. */
  function StartInterval(p: Poller): Poller {
    StartIntervalAsWritten(StopInterval(p))
  }

  /** The completion handler of request number g (its try / catch / finally). A request
      whose controller was aborted ends in AbortError, whatever the network did; the
      `finally` still clears `loading`. Once unmounted, state setters do nothing. */
  function Completion(p: Poller, g: nat, outcome: Response<Snapshot>): Poller {
    if g !in p.outstanding then p
    else
      var q := p.(outstanding := p.outstanding - {g});
      if p.phase != Mounted then q
      else if g !in p.aborted && outcome.Ok? then q.(scores := Some(outcome.data), loading := false)
      else q.(loading := false)
  }

  /** The effect's cleanup: stop the interval and abort the pending request. */
  function Cleanup(p: Poller): Poller {
    var q := StopInterval(p);
    q.(phase := AfterUnmount,
       aborted := if q.controllers > 0 then q.aborted + {q.controllers} else q.aborted)
  }

  /** One event, with startInterval chosen by the caller. */
  function StepWith(p: Poller, e: Event, correctedStart: bool): Poller {
    var start := (q: Poller) => if correctedStart then StartInterval(q) else StartIntervalAsWritten(q);
    match e
    case Mount =>
      if p.phase == BeforeMount then start(Fetch(p)).(phase := Mounted) else p
    case Tick(id) =>
      if id in p.timers then Fetch(p) else p
    case VisibilityChange(h) =>
      if p.phase != Mounted || h == p.hidden then p.(hidden := h)
      else if h then StopInterval(p).(hidden := h)
      else start(Fetch(p)).(hidden := h)
    case Complete(g, o) =>
      Completion(p, g, o)
    case Unmount =>
      if p.phase == Mounted then Cleanup(p) else p
  }

  /** One event as the component is written. */
  function StepAsWritten(p: Poller, e: Event): Poller {
    StepWith(p, e, false)
  }

  /** One event with the corrected startInterval. */
  function Step(p: Poller, e: Event): Poller {
    StepWith(p, e, true)
  }

  /** A sequence of events, with startInterval chosen by the caller. */
  function RunWith(p: Poller, es: seq<Event>, correctedStart: bool): Poller
    decreases |es|
  {
    if es == [] then p else RunWith(StepWith(p, es[0], correctedStart), es[1..], correctedStart)
  }

  function Run(p: Poller, es: seq<Event>): Poller {
    RunWith(p, es, true)
  }

  function RunAsWritten(p: Poller, es: seq<Event>): Poller {
    RunWith(p, es, false)
  }

  // ----------------------------------------------------------- invariants

  /** The request side of the poller, kept by both forms of startInterval. */
  ghost predicate RequestsValid(p: Poller) {
    // every request and every aborted controller was created
    && (forall g :: g in p.outstanding ==> 1 <= g <= p.controllers)
    && (forall g :: g in p.aborted ==> 1 <= g <= p.controllers)
    // every controller before the current one was aborted
    && (forall g :: 1 <= g < p.controllers ==> g in p.aborted)
    && (p.phase == BeforeMount ==> p.controllers == 0 && p.timers == {} && p.scores.None? && p.loading)
    && (p.scores.Some? ==> !p.loading)
  }

  /** The timer side, kept only with the corrected startInterval. */
  ghost predicate TimersValid(p: Poller) {
    // at most one interval is scheduled, and it is the one intervalRef holds
    && p.timers == (if p.intervalRef.Some? then {p.intervalRef.value} else {})
    && (p.intervalRef.Some? ==> p.intervalRef.value < p.nextTimer)
    && (p.phase == Mounted && !p.hidden ==> p.intervalRef.Some?)
    // after unmount nothing is scheduled and every controller was aborted
    && (p.phase == AfterUnmount ==> p.timers == {} && (p.controllers > 0 ==> p.controllers in p.aborted))
  }

  /** The poller's invariant under the corrected startInterval. */
  ghost predicate Valid(p: Poller) {
    RequestsValid(p) && TimersValid(p)
  }

  lemma InitialValid(hidden: bool)
    ensures Valid(Initial(hidden))
  {
  }

  /** Every event keeps the request invariant, whichever startInterval runs. */
  lemma StepKeepsRequests(p: Poller, e: Event, correctedStart: bool)
    requires RequestsValid(p)
    ensures RequestsValid(StepWith(p, e, correctedStart))
  {
    match e
    case Mount =>
    case Tick(id) =>
    case VisibilityChange(h) =>
    case Complete(g, o) =>
    case Unmount =>
  }

  lemma {:induction false} RunKeepsRequests(p: Poller, es: seq<Event>, correctedStart: bool)
    requires RequestsValid(p)
    ensures RequestsValid(RunWith(p, es, correctedStart))
    decreases |es|
  {
    if es != [] {
      StepKeepsRequests(p, es[0], correctedStart);
      RunKeepsRequests(StepWith(p, es[0], correctedStart), es[1..], correctedStart);
    }
  }

  lemma StepPreservesValid(p: Poller, e: Event)
    requires Valid(p)
    ensures Valid(Step(p, e))
  {
    match e
    case Mount => MountPreservesValid(p);
    case Tick(id) => TickPreservesValid(p, id);
    case VisibilityChange(h) => VisibilityPreservesValid(p, h);
    case Complete(g, o) => CompletionPreservesValid(p, g, o);
    case Unmount => UnmountPreservesValid(p);
  }

  lemma MountPreservesValid(p: Poller)
    requires Valid(p)
    ensures Valid(Step(p, Mount))
  {
  }

  lemma TickPreservesValid(p: Poller, id: nat)
    requires Valid(p)
    ensures Valid(Step(p, Tick(id)))
  {
  }

  lemma VisibilityPreservesValid(p: Poller, h: bool)
    requires Valid(p)
    ensures Valid(Step(p, VisibilityChange(h)))
  {
    if p.phase == Mounted && h != p.hidden && !h {
      ShowPreservesValid(p);
    }
  }

  lemma ShowPreservesValid(p: Poller)
    requires Valid(p) && p.phase == Mounted && p.hidden
    ensures Valid(StartInterval(Fetch(p)).(hidden := false))
  {
  }

  lemma CompletionPreservesValid(p: Poller, g: nat, o: Response<Snapshot>)
    requires Valid(p)
    ensures Valid(Step(p, Complete(g, o)))
  {
  }

  lemma UnmountPreservesValid(p: Poller)
    requires Valid(p)
    ensures Valid(Step(p, Unmount))
  {
  }

  lemma {:induction false} RunPreservesValid(p: Poller, es: seq<Event>)
    requires Valid(p)
    ensures Valid(Run(p, es))
    decreases |es|
  {
    if es != [] {
      StepPreservesValid(p, es[0]);
      RunPreservesValid(Step(p, es[0]), es[1..]);
    }
  }

  // ------------------------------------------------------------ properties

  /** At most one request is live (outstanding and not aborted), and it is the latest. */
  lemma AtMostOneLiveRequest(p: Poller, g: nat, h: nat)
    requires RequestsValid(p)
    requires g in p.outstanding && g !in p.aborted
    requires h in p.outstanding && h !in p.aborted
    ensures g == h == p.controllers
  {
  }

  /** The same for every state the component reaches, as written or corrected. */
  lemma ReachableAtMostOneLiveRequest(hidden: bool, es: seq<Event>, correctedStart: bool, g: nat, h: nat)
    requires var p := RunWith(Initial(hidden), es, correctedStart);
      g in p.outstanding && g !in p.aborted && h in p.outstanding && h !in p.aborted
    ensures g == h == RunWith(Initial(hidden), es, correctedStart).controllers
  {
    InitialValid(hidden);
    RunKeepsRequests(Initial(hidden), es, correctedStart);
    AtMostOneLiveRequest(RunWith(Initial(hidden), es, correctedStart), g, h);
  }

  /** Only the most recently started request can store its result: the completion of
      any earlier one leaves the snapshot unchanged. */
  lemma OnlyLatestRequestStores(p: Poller, g: nat, o: Response<Snapshot>, correctedStart: bool)
    requires RequestsValid(p)
    requires g != p.controllers
    ensures StepWith(p, Complete(g, o), correctedStart).scores == p.scores
  {
  }

  /** A second fetch before the first resolves makes the first one's completion
      invisible in the stored snapshot. */
  lemma SupersededCompletionIgnored(p: Poller, id: nat, g: nat, o: Response<Snapshot>, correctedStart: bool)
    requires RequestsValid(p)
    requires id in p.timers
    ensures RequestsValid(StepWith(p, Tick(id), correctedStart))
    ensures g <= p.controllers ==>
      StepWith(StepWith(p, Tick(id), correctedStart), Complete(g, o), correctedStart).scores == p.scores
  {
    StepKeepsRequests(p, Tick(id), correctedStart);
    if g <= p.controllers {
      OnlyLatestRequestStores(StepWith(p, Tick(id), correctedStart), g, o, correctedStart);
    }
  }

  /** The latest request, when it succeeds while mounted, replaces the snapshot with its data. */
  lemma LatestSuccessStores(p: Poller, d: Snapshot, correctedStart: bool)
    requires p.phase == Mounted
    requires p.controllers in p.outstanding && p.controllers !in p.aborted
    ensures StepWith(p, Complete(p.controllers, Ok(d)), correctedStart).scores == Some(d)
    ensures !StepWith(p, Complete(p.controllers, Ok(d)), correctedStart).loading
  {
  }

  /** A failed or aborted fetch keeps the previous snapshot; any completion while
      mounted clears `loading`. */
  lemma FailedFetchKeepsScores(p: Poller, g: nat, o: Response<Snapshot>, correctedStart: bool)
    requires !o.Ok?
    ensures StepWith(p, Complete(g, o), correctedStart).scores == p.scores
    ensures p.phase == Mounted && g in p.outstanding ==> !StepWith(p, Complete(g, o), correctedStart).loading
  {
  }

  /** Mounting issues one fetch and starts polling, in both forms. */
  lemma MountFetchesOnce(hidden: bool, correctedStart: bool)
    ensures var p := StepWith(Initial(hidden), Mount, correctedStart);
      && p.phase == Mounted && p.controllers == 1 && p.outstanding == {1}
      && p.intervalRef.Some? && p.timers == {p.intervalRef.value}
  {
  }

  /** Going hidden clears the interval intervalRef holds and issues nothing. Under the
      corrected invariant nothing is then scheduled and no tick fetches. */
  lemma HidingStopsPolling(p: Poller, id: nat, correctedStart: bool)
    requires p.phase == Mounted && !p.hidden
    ensures var q := StepWith(p, VisibilityChange(true), correctedStart);
      && q.intervalRef.None? && q.controllers == p.controllers && q.outstanding == p.outstanding
      && q.scores == p.scores && q.loading == p.loading
      && (p.intervalRef.Some? ==> q.timers == p.timers - {p.intervalRef.value})
    ensures Valid(p) ==>
      var q := StepWith(p, VisibilityChange(true), correctedStart);
      q.timers == {} && StepWith(q, Tick(id), correctedStart) == q
  {
  }

  /** Becoming visible issues exactly one immediate fetch and schedules a new interval;
      as written the interval held before stays scheduled beside it, corrected it is the
      only one. */
  lemma ShowingFetchesOnceAndResumes(p: Poller, correctedStart: bool)
    requires p.phase == Mounted && p.hidden
    ensures var q := StepWith(p, VisibilityChange(false), correctedStart);
      && q.controllers == p.controllers + 1
      && q.outstanding == p.outstanding + {q.controllers}
      && q.intervalRef == Some(p.nextTimer) && p.nextTimer in q.timers
    ensures !correctedStart ==> StepWith(p, VisibilityChange(false), correctedStart).timers == p.timers + {p.nextTimer}
    ensures correctedStart && Valid(p) ==> StepWith(p, VisibilityChange(false), correctedStart).timers == {p.nextTimer}
  {
  }

  /** After unmount no event changes what the component shows or which intervals are
      scheduled; without a scheduled interval no event issues a request either. */
  lemma {:induction false} UnmountQuiesces(p: Poller, es: seq<Event>, correctedStart: bool)
    requires p.phase == AfterUnmount
    ensures var q := RunWith(p, es, correctedStart);
      && q.scores == p.scores && q.loading == p.loading && q.phase == AfterUnmount
      && q.timers == p.timers && q.intervalRef == p.intervalRef
    ensures p.timers == {} ==> RunWith(p, es, correctedStart).controllers == p.controllers
    decreases |es|
  {
    if es != [] {
      UnmountQuiesces(StepWith(p, es[0], correctedStart), es[1..], correctedStart);
    }
  }

  /** With the corrected startInterval, unmounting leaves nothing scheduled, so no later
      event issues a request. */
  lemma CorrectedUnmountQuiesces(p: Poller, es: seq<Event>)
    requires Valid(p) && p.phase == Mounted
    ensures var gone := Step(p, Unmount);
      gone.timers == {} && Run(gone, es).controllers == gone.controllers
  {
    UnmountQuiesces(Step(p, Unmount), es, true);
  }

  /** The interval leak, as the component is written: mounted while the page is hidden
      (a background tab), then shown. The first interval is never cleared: hiding the
      page again leaves it firing, and after unmount each of its ticks still issues a
      request, because the cleanup clears only the interval intervalRef holds. */
  lemma LeakedIntervalAsWritten()
    ensures var mounted := StepAsWritten(Initial(true), Mount);
      var shown := StepAsWritten(mounted, VisibilityChange(false));
      var hiddenAgain := StepAsWritten(shown, VisibilityChange(true));
      var gone := StepAsWritten(shown, Unmount);
      && shown.timers == {1, 2}
      && hiddenAgain.timers == {1}
      && StepAsWritten(hiddenAgain, Tick(1)).controllers == hiddenAgain.controllers + 1
      && gone.phase == AfterUnmount
      && gone.timers == {1}
      && StepAsWritten(gone, Tick(1)).controllers == gone.controllers + 1
  {
  }

  /** With the corrected startInterval, the same events leave nothing scheduled. */
  lemma NoLeakCorrected()
    ensures var gone := Run(Initial(true), [Mount, VisibilityChange(false), Unmount]);
      && gone.timers == {}
      && Step(gone, Tick(1)) == gone
  {
  }

  // ---------------------------------------------------------------- class

  /** The component itself: its state cells and refs as fields, one method per event.
      `correctedStart` chooses between startInterval as written and as corrected. */
  class LiveScoresTicker {
    const correctedStart: bool
    var phase: Phase
    var hidden: bool
    var scores: Option<Snapshot>
    var loading: bool
    var intervalRef: Option<nat>
    var timers: set<nat>
    var nextTimer: nat
    var controllers: nat
    var aborted: set<nat>
    var outstanding: set<nat>

    function State(): Poller
      reads this
    {
      Poller(phase, hidden, scores, loading, intervalRef, timers, nextTimer,
             controllers, aborted, outstanding)
    }

    constructor (documentHidden: bool, correctedStart: bool)
      ensures State() == Initial(documentHidden) && this.correctedStart == correctedStart
    {
      this.correctedStart := correctedStart;
      phase, hidden, scores, loading := BeforeMount, documentHidden, None, true;
      intervalRef, timers, nextTimer := None, {}, 1;
      controllers, aborted, outstanding := 0, {}, {};
    }

    method FetchScores()
      modifies this
      ensures State() == Fetch(old(State()))
    {
      if controllers > 0 {
        aborted := aborted + {controllers};
      }
      controllers := controllers + 1;
      outstanding := outstanding + {controllers};
    }

    method StopTimer()
      modifies this
      ensures State() == StopInterval(old(State()))
    {
      if intervalRef.Some? {
        timers := timers - {intervalRef.value};
      }
      intervalRef := None;
    }

    method StartTimer()
      modifies this
      ensures State() == if correctedStart then StartInterval(old(State())) else StartIntervalAsWritten(old(State()))
    {
      if correctedStart {
        StopTimer();
      }
      timers := timers + {nextTimer};
      intervalRef := Some(nextTimer);
      nextTimer := nextTimer + 1;
    }

    method OnMount()
      modifies this
      ensures State() == StepWith(old(State()), Mount, correctedStart)
    {
      if phase == BeforeMount {
        FetchScores();
        StartTimer();
        phase := Mounted;
      }
    }

    method OnTick(id: nat)
      modifies this
      ensures State() == StepWith(old(State()), Tick(id), correctedStart)
    {
      if id in timers {
        FetchScores();
      }
    }

    method OnVisibilityChange(nowHidden: bool)
      modifies this
      ensures State() == StepWith(old(State()), VisibilityChange(nowHidden), correctedStart)
    {
      if phase == Mounted && nowHidden != hidden {
        if nowHidden {
          StopTimer();
        } else {
          FetchScores();
          StartTimer();
        }
      }
      hidden := nowHidden;
    }

    method OnComplete(g: nat, outcome: Response<Snapshot>)
      modifies this
      ensures State() == StepWith(old(State()), Complete(g, outcome), correctedStart)
    {
      if g in outstanding {
        outstanding := outstanding - {g};
        if phase == Mounted {
          if g !in aborted && outcome.Ok? {
            scores := Some(outcome.data);
          }
          loading := false;
        }
      }
    }

    method OnUnmount()
      modifies this
      ensures State() == StepWith(old(State()), Unmount, correctedStart)
    {
      if phase == Mounted {
        StopTimer();
        if controllers > 0 {
          aborted := aborted + {controllers};
        }
        phase := AfterUnmount;
      }
    }
  }
}
