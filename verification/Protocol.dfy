/** Many gateway requests in flight over one shared circuit map, as a step
    system. A step is one synchronous stretch of the service's code; what the
    upstream, the timers, the client and the scheduler do between two of them
    is left open. */
module Protocol {
  import opened Unified
  import opened Breaker
  import opened PolicyRules

  /** `streamResponse` or `createResponse`. */
  datatype Kind = Streaming | Unary

  /** One call of a policy run's operation. `fired` says that the attempt's own
      AbortController was aborted. */
  datatype Attempt = Attempt(events: seq<StreamEvent>, fired: bool)

  datatype RunPhase =
    | Awaiting              // the operation is pending
    | AtYield               // parked at `yield event`
    | Sleeping              // backing off before the next attempt
    | Returned              // the run ended normally
    | Threw(error: string)
    | Closed                // ended by a queued `return()`

  /** One `executeStreamWithPolicy` or `executeWithPolicy` call. `cancelled`
      says that the gateway's controller for this provider was aborted. */
  datatype Run = Run(owner: nat, provider: string, attempts: seq<Attempt>, yielded: bool,
                     phase: RunPhase, cancelled: bool, recorded: nat)

  datatype GatewayPhase =
    | Pumping               // racing the current run against the idle timer
    | Parked                // at `yield result.value`
    | Over

  datatype Request = Request(kind: Kind, model: string, chain: seq<string>, tried: nat, current: nat,
                             yieldedAny: bool, lastError: Option<string>, aborted: bool,
                             phase: GatewayPhase, out: seq<StreamEvent>)

  datatype World = World(now: nat, board: Board, requests: seq<Request>, runs: seq<Run>)

  const START := World(0, FRESH_BOARD, [], [])

  datatype Step =
    | Tick(ms: nat)
    | Begin(kind: Kind, model: string, chain: seq<string>, aborted: bool)
    | CallerAbort(r: nat)
    | UpstreamYields(i: nat, event: StreamEvent)
    | UpstreamEnds(i: nat)
    | UpstreamThrows(i: nat, error: string)  // also a unary attempt's timeout
    | BackoffEnds(i: nat)
    | QueuedReturn(i: nat)
    | Receive(r: nat)
    | IdleTimeout(r: nat)
    | ConsumerPulls(r: nat)
    | ConsumerBreaks(r: nat)

  predicate RunOver(p: RunPhase) {
    p.Returned? || p.Threw? || p.Closed?
  }

  /** The signal the policy sees as its caller's: the gateway's controller for
      this provider merged with the client's. */
  predicate CallerGone(w: World, run: Run)
    requires run.owner < |w.requests|
  {
    run.cancelled || w.requests[run.owner].aborted
  }

  function LastAttempt(run: Run): Attempt
    requires run.attempts != []
  {
    run.attempts[|run.attempts| - 1]
  }

  /** The run with its last attempt replaced. */
  function WithLast(run: Run, a: Attempt): Run
    requires run.attempts != []
  {
    run.(attempts := run.attempts[|run.attempts| - 1 := a])
  }

  function FireLast(run: Run): Run
    requires run.attempts != []
  {
    WithLast(run, LastAttempt(run).(fired := true))
  }

  const NEW_ATTEMPT := Attempt([], false)

  predicate Enabled(w: World, s: Step) {
    match s
    case Tick(_) => true
    case Begin(_, _, _, _) => true
    case CallerAbort(r) => r < |w.requests|
    case UpstreamYields(i, _) =>
      RunAt(w, i) && w.runs[i].phase.Awaiting? && w.requests[w.runs[i].owner].kind.Streaming?
    case UpstreamEnds(i) => RunAt(w, i) && w.runs[i].phase.Awaiting?
    case UpstreamThrows(i, _) => RunAt(w, i) && w.runs[i].phase.Awaiting?
    case BackoffEnds(i) => RunAt(w, i) && w.runs[i].phase.Sleeping?
    case QueuedReturn(i) => RunAt(w, i) && w.runs[i].phase.AtYield? && w.runs[i].cancelled
    case Receive(r) =>
      RequestAt(w, r) && w.requests[r].phase.Pumping? &&
      var p := CurrentRun(w, r).phase;
      p.Returned? || p.Threw?
      || (p.AtYield? && CurrentRun(w, r).attempts != [] && LastAttempt(CurrentRun(w, r)).events != [])
    case IdleTimeout(r) =>
      RequestAt(w, r) && w.requests[r].phase.Pumping? && w.requests[r].kind.Streaming? &&
      (CurrentRun(w, r).phase.Awaiting? || CurrentRun(w, r).phase.Sleeping?)
    case ConsumerPulls(r) =>
      RequestAt(w, r) && w.requests[r].phase.Parked? && CurrentRun(w, r).phase.AtYield?
    case ConsumerBreaks(r) => RequestAt(w, r) && w.requests[r].phase.Parked?
  }

  predicate RunAt(w: World, i: nat) {
    i < |w.runs| && w.runs[i].owner < |w.requests| &&
    (w.runs[i].phase.Awaiting? || w.runs[i].phase.AtYield? ==> w.runs[i].attempts != [])
  }

  predicate RequestAt(w: World, r: nat) {
    r < |w.requests| && w.requests[r].current < |w.runs|
  }

  function CurrentRun(w: World, r: nat): Run
    requires RequestAt(w, r)
  {
    w.runs[w.requests[r].current]
  }

  function SetRun(w: World, i: nat, run: Run): World
    requires i < |w.runs|
  {
    w.(runs := w.runs[i := run])
  }

  function SetRequest(w: World, r: nat, q: Request): World
    requires r < |w.requests|
  {
    w.(requests := w.requests[r := q])
  }

  /** A run's first stretch, up to the first `operation` call: the breaker is
      checked here and nowhere else. */
  function OpenRun(cfg: Config, w: World, r: nat, provider: string): Run
    requires r < |w.requests|
  {
    var opening := Run(r, provider, [], false, Awaiting, false, 0);
    if !Admits(cfg.limits, w.board, provider, w.now) then
      opening.(phase := Threw(BreakerOpenMessage(provider)))
    else if w.requests[r].aborted then
      opening.(phase := Threw(ABORTED))
    else
      opening.(attempts := [NEW_ATTEMPT])
  }

  /** The head of the gateway's provider loop: open a run on the next provider,
      or report that none is left. */
  function NextProvider(cfg: Config, w: World, r: nat): World
    requires r < |w.requests|
  {
    var q := w.requests[r];
    if q.tried < |q.chain| then
      var provider := q.chain[q.tried];
      var run := OpenRun(cfg, w, r, provider);
      var board := if Admits(cfg.limits, w.board, provider, w.now) then AfterCheck(w.board, provider) else w.board;
      var q' := q.(tried := q.tried + 1, current := |w.runs|, yieldedAny := false, phase := Pumping);
      World(w.now, board, w.requests[r := q'], w.runs + [run])
    else
      var report := if q.kind.Streaming? then [ErrorEvent(AllFailedMessage(q.lastError, q.model))] else [];
      SetRequest(w, r, q.(phase := Over, out := q.out + report))
  }

  /** The catch block of the gateway's provider loop. */
  function ProviderFailed(cfg: Config, w: World, r: nat, error: string): World
    requires r < |w.requests|
  {
    var q := w.requests[r].(lastError := Some(error));
    if q.aborted then
      SetRequest(w, r, q.(phase := Over))
    else if q.yieldedAny then
      SetRequest(w, r, q.(phase := Over, out := q.out + [ErrorEvent(error)]))
    else
      NextProvider(cfg, SetRequest(w, r, q), r)
  }

  /** The `finally` of the gateway's pump, which only the streaming path has. */
  function Teardown(w: World, r: nat): World
    requires RequestAt(w, r)
  {
    if w.requests[r].kind.Streaming? then
      SetRun(w, w.requests[r].current, CurrentRun(w, r).(cancelled := true))
    else
      w
  }

  function Finish(w: World, r: nat): World
    requires r < |w.requests|
  {
    SetRequest(w, r, w.requests[r].(phase := Over))
  }

  function Throws(cfg: Config, w: World, i: nat, error: string): World
    requires RunAt(w, i) && w.runs[i].phase.Awaiting?
  {
    var run := FireLast(w.runs[i]);
    match AfterThrow(cfg, |run.attempts| - 1, run.yielded, CallerGone(w, run))
    case GiveUpUnrecorded => SetRun(w, i, run.(phase := Threw(error)))
    case RecordAndGiveUp =>
      SetRun(w, i, run.(phase := Threw(error), recorded := run.recorded + 1))
        .(board := AfterFailure(cfg.limits, w.board, run.provider, w.now))
    case RecordAndRetry =>
      SetRun(w, i, run.(phase := Sleeping, recorded := run.recorded + 1))
        .(board := AfterFailure(cfg.limits, w.board, run.provider, w.now))
  }

  function Receives(cfg: Config, w: World, r: nat): World
    requires Enabled(w, Receive(r))
  {
    var run := CurrentRun(w, r);
    if run.phase.Threw? then
      ProviderFailed(cfg, Teardown(w, r), r, run.phase.error)
    else if run.phase.AtYield? then
      var q := w.requests[r];
      var events := LastAttempt(run).events;
      SetRequest(w, r, q.(phase := Parked, yieldedAny := true, out := q.out + [events[|events| - 1]]))
    else
      Finish(Teardown(w, r), r)
  }

  function Do(cfg: Config, w: World, s: Step): World
    requires Enabled(w, s)
  {
    match s
    case Tick(ms) => w.(now := w.now + ms)
    case Begin(kind, model, chain, aborted) =>
      var q := Request(kind, model, chain, 0, 0, false, None, aborted, Pumping, []);
      NextProvider(cfg, w.(requests := w.requests + [q]), |w.requests|)
    case CallerAbort(r) => SetRequest(w, r, w.requests[r].(aborted := true))
    case UpstreamYields(i, event) =>
      var run := w.runs[i];
      var last := LastAttempt(run);
      SetRun(w, i, WithLast(run, last.(events := last.events + [event])).(phase := AtYield, yielded := true))
    case UpstreamEnds(i) =>
      SetRun(w, i, FireLast(w.runs[i]).(phase := Returned))
        .(board := AfterSuccess(w.board, w.runs[i].provider))
    case UpstreamThrows(i, error) => Throws(cfg, w, i, error)
    case BackoffEnds(i) =>
      var run := w.runs[i];
      SetRun(w, i, run.(attempts := run.attempts + [NEW_ATTEMPT], yielded := false, phase := Awaiting))
    case QueuedReturn(i) => SetRun(w, i, FireLast(w.runs[i]).(phase := Closed))
    case Receive(r) => Receives(cfg, w, r)
    case IdleTimeout(r) => ProviderFailed(cfg, Teardown(w, r), r, IDLE_TIMEOUT)
    case ConsumerPulls(r) =>
      var q := w.requests[r];
      SetRun(SetRequest(w, r, q.(phase := Pumping)), q.current, CurrentRun(w, r).(phase := Awaiting))
    case ConsumerBreaks(r) => Finish(Teardown(w, r), r)
  }

  ghost predicate Next(cfg: Config, w: World, w': World) {
    exists s :: Enabled(w, s) && w' == Do(cfg, w, s)
  }

  /** A finite history of the service from its start. */
  ghost predicate Behaviour(cfg: Config, ws: seq<World>) {
    && |ws| > 0
    && ws[0] == START
    && forall k :: 0 <= k < |ws| - 1 ==> Next(cfg, ws[k], ws[k + 1])
  }

  /** A transitive relation that holds over every step holds over the whole way. */
  lemma {:induction false} Along(ws: seq<World>, related: (World, World) -> bool, a: nat, b: nat)
    requires a <= b < |ws| && related(ws[a], ws[a])
    requires forall k :: a <= k < b ==> related(ws[k], ws[k + 1])
    requires forall x, y, z :: related(x, y) && related(y, z) ==> related(x, z)
    ensures related(ws[a], ws[b])
  {
    if a < b {
      Along(ws, related, a, b - 1);
      assert related(ws[b - 1], ws[b - 1 + 1]);
    }
  }
}
