/** What every reachable state of the service satisfies. */
module ProtocolInvariant {
  import opened Unified
  import opened Breaker
  import opened PolicyRules
  import opened Protocol

  /** The events of the attempt a run is on. */
  function LastEvents(run: Run): seq<StreamEvent> {
    if run.attempts == [] then [] else LastAttempt(run).events
  }

  ghost predicate RunOk(cfg: Config, run: Run, kind: Kind) {
    var n := |run.attempts|;
    && run.recorded <= n <= cfg.maxRetries + 1
    && (forall j :: 0 <= j < n - 1 ==> run.attempts[j].fired && run.attempts[j].events == [])
    && (run.yielded <==> LastEvents(run) != [])
    && (n == 0 ==> run.phase.Threw? && run.recorded == 0)
    && (run.phase.Awaiting? || run.phase.AtYield? ==> run.recorded == n - 1)
    && (run.phase.AtYield? ==> run.yielded)
    && (run.phase.Sleeping? ==> run.recorded == n <= cfg.maxRetries && !run.yielded)
    && (run.phase.Sleeping? || RunOver(run.phase) ==> n == 0 || LastAttempt(run).fired)
    && (kind.Unary? ==> !run.yielded && !run.cancelled && !run.phase.Closed?)
  }

  /** The gateway has moved on from this run: nothing it does can reach the
      client, and no signal it hands out is live. */
  predicate LeftBehind(run: Run, kind: Kind) {
    if kind.Streaming? then run.cancelled else RunOver(run.phase)
  }

  /** `out` is the first events of `source`, with at most one error report of
      the gateway's own at the end, and that only once the request is over. */
  predicate Delivered(out: seq<StreamEvent>, source: seq<StreamEvent>, over: bool) {
    || out <= source
    || (over && |out| > 0 && out[|out| - 1].Error? && out[..|out| - 1] <= source)
  }

  ghost predicate OutputOk(q: Request, run: Run) {
    && (q.kind.Unary? ==> q.out == [] && !q.phase.Parked?)
    && (q.yieldedAny ==> run.yielded)
    && (!q.phase.Over? ==> (q.yieldedAny <==> q.out != []) && !run.cancelled && !run.phase.Closed?)
    && match q.phase
       case Pumping =>
         if run.phase.AtYield? then
           LastEvents(run) != [] && q.out == LastEvents(run)[..|LastEvents(run)| - 1]
         else
           q.out == LastEvents(run)
       case Parked => run.phase.AtYield? && q.out == LastEvents(run)
       case Over => Delivered(q.out, LastEvents(run), true)
  }

  ghost predicate RequestOk(w: World, r: nat)
    requires r < |w.requests|
  {
    var q := w.requests[r];
    && q.tried <= |q.chain|
    && (forall i :: 0 <= i < |w.runs| && w.runs[i].owner == r ==>
          && 0 < q.tried && i <= q.current
          && (i != q.current || q.phase.Over? ==> LeftBehind(w.runs[i], q.kind)))
    && if q.tried == 0 then
         q.phase.Over? && !q.yieldedAny && Delivered(q.out, [], true)
       else
         q.current < |w.runs| && w.runs[q.current].owner == r && OutputOk(q, w.runs[q.current])
  }

  ghost predicate RunsOk(cfg: Config, w: World) {
    forall i :: 0 <= i < |w.runs| ==>
      w.runs[i].owner < |w.requests| && RunOk(cfg, w.runs[i], w.requests[w.runs[i].owner].kind)
  }

  /** Everything but what request `r` itself must satisfy. */
  ghost predicate RestOk(cfg: Config, w: World, r: nat) {
    && MatchesLog(cfg.limits, w.board)
    && RunsOk(cfg, w)
    && forall r' :: 0 <= r' < |w.requests| && r' != r ==> RequestOk(w, r')
  }

  ghost predicate Invariant(cfg: Config, w: World) {
    && MatchesLog(cfg.limits, w.board)
    && RunsOk(cfg, w)
    && forall r :: 0 <= r < |w.requests| ==> RequestOk(w, r)
  }

  /** Request `r` between a failed run and whatever comes next. */
  ghost predicate BetweenRuns(w: World, r: nat)
    requires r < |w.requests|
  {
    var q := w.requests[r];
    && q.tried <= |q.chain|
    && (forall i :: 0 <= i < |w.runs| && w.runs[i].owner == r ==>
          0 < q.tried && i <= q.current && LeftBehind(w.runs[i], q.kind))
    && (0 < q.tried ==> q.current < |w.runs| && w.runs[q.current].owner == r)
    && (q.yieldedAny <==> q.out != [])
    && (0 < q.tried && q.yieldedAny ==> w.runs[q.current].yielded)
    && q.out <= (if 0 < q.tried then LastEvents(w.runs[q.current]) else [])
    && (q.kind.Unary? ==> q.out == [])
  }

  /** A step that changes one run and the board. */
  lemma RunStepKeeps(cfg: Config, w: World, i: nat, run: Run, board: Board)
    requires Invariant(cfg, w) && i < |w.runs|
    requires MatchesLog(cfg.limits, board)
    requires run.owner == w.runs[i].owner && run.cancelled == w.runs[i].cancelled
    requires RunOk(cfg, run, w.requests[run.owner].kind)
    requires RunOver(w.runs[i].phase) ==> RunOver(run.phase)
    requires var q := w.requests[run.owner]; i == q.current ==> OutputOk(q, run)
    ensures Invariant(cfg, SetRun(w, i, run).(board := board))
  {
    var w' := SetRun(w, i, run).(board := board);
    forall r | 0 <= r < |w'.requests| ensures RequestOk(w', r) {
      assert RequestOk(w, r);
    }
  }

  lemma OpenRunOk(cfg: Config, w: World, r: nat, provider: string, kind: Kind)
    requires r < |w.requests|
    ensures RunOk(cfg, OpenRun(cfg, w, r, provider), kind)
    ensures LastEvents(OpenRun(cfg, w, r, provider)) == []
  {
  }

  lemma NextProviderKeeps(cfg: Config, w: World, r: nat)
    requires r < |w.requests| && RestOk(cfg, w, r) && BetweenRuns(w, r)
    requires w.requests[r].out == []
    ensures Invariant(cfg, NextProvider(cfg, w, r))
  {
    var w' := NextProvider(cfg, w, r);
    var q := w.requests[r];
    if q.tried < |q.chain| {
      var run := OpenRun(cfg, w, r, q.chain[q.tried]);
      OpenRunOk(cfg, w, r, q.chain[q.tried], q.kind);
      CheckKeepsLog(cfg.limits, w.board, q.chain[q.tried]);
      RunOpenedKeeps(cfg, w, r, run, w'.board, w'.requests[r]);
    } else {
      ExhaustedKeeps(cfg, w, r);
    }
  }

  lemma ExhaustedKeeps(cfg: Config, w: World, r: nat)
    requires r < |w.requests| && RestOk(cfg, w, r) && BetweenRuns(w, r)
    requires w.requests[r].out == [] && w.requests[r].tried == |w.requests[r].chain|
    ensures Invariant(cfg, NextProvider(cfg, w, r))
  {
    var q, w' := w.requests[r], NextProvider(cfg, w, r);
    var report := if q.kind.Streaming? then [ErrorEvent(AllFailedMessage(q.lastError, q.model))] else [];
    assert [] + report == report;
    AloneKeeps(cfg, w, r, q.(phase := Over, out := report));
    EndedOk(w, r, q.(phase := Over, out := report));
  }

  lemma RunOpenedKeeps(cfg: Config, w: World, r: nat, run: Run, board: Board, q: Request)
    requires r < |w.requests| && RestOk(cfg, w, r) && BetweenRuns(w, r)
    requires MatchesLog(cfg.limits, board)
    requires run.owner == r && RunOk(cfg, run, q.kind) && !run.cancelled && LastEvents(run) == []
    requires run.phase.Awaiting? || run.phase.Threw?
    requires q.kind == w.requests[r].kind && q.chain == w.requests[r].chain
    requires q.current == |w.runs| && 0 < q.tried <= |q.chain| && q.phase.Pumping? && !q.yieldedAny && q.out == []
    ensures Invariant(cfg, World(w.now, board, w.requests[r := q], w.runs + [run]))
  {
    var w' := World(w.now, board, w.requests[r := q], w.runs + [run]);
    forall r' | 0 <= r' < |w'.requests| ensures RequestOk(w', r') {
      if r' != r { assert RequestOk(w, r'); }
    }
  }

  /** A change of request `r` alone is no other request's business. */
  lemma AloneKeeps(cfg: Config, w: World, r: nat, q: Request)
    requires r < |w.requests| && RestOk(cfg, w, r) && q.kind == w.requests[r].kind
    ensures RestOk(cfg, SetRequest(w, r, q), r)
  {
    var w' := SetRequest(w, r, q);
    forall r' | 0 <= r' < |w'.requests| && r' != r ensures RequestOk(w', r') {
      assert RequestOk(w, r');
    }
  }

  /** A request that ends between two runs, with or without a report. */
  lemma EndedOk(w: World, r: nat, q: Request)
    requires r < |w.requests| && BetweenRuns(w, r)
    requires var p := w.requests[r];
             && q.kind == p.kind && q.chain == p.chain && q.tried == p.tried && q.current == p.current
             && q.yieldedAny == p.yieldedAny && q.phase.Over?
             && (q.out == p.out
                 || (q.kind.Streaming? && q.out != [] && q.out[..|q.out| - 1] == p.out && q.out[|q.out| - 1].Error?))
    ensures RequestOk(SetRequest(w, r, q), r)
  {
  }

  lemma ProviderFailedKeeps(cfg: Config, w: World, r: nat, error: string)
    requires r < |w.requests| && RestOk(cfg, w, r) && BetweenRuns(w, r)
    ensures Invariant(cfg, ProviderFailed(cfg, w, r, error))
  {
    var q := w.requests[r].(lastError := Some(error));
    AloneKeeps(cfg, w, r, q);
    if !q.aborted && !q.yieldedAny {
      assert BetweenRuns(SetRequest(w, r, q), r);
      NextProviderKeeps(cfg, SetRequest(w, r, q), r);
    } else {
      var q' := if q.aborted then q.(phase := Over) else q.(phase := Over, out := q.out + [ErrorEvent(error)]);
      assert q.out + [ErrorEvent(error)] != [] && (q.out + [ErrorEvent(error)])[..|q.out|] == q.out;
      AloneKeeps(cfg, w, r, q');
      EndedOk(w, r, q');
      assert ProviderFailed(cfg, w, r, error) == SetRequest(w, r, q');
    }
  }

  /** A change of request `r` and of one of its runs is no other request's
      business. */
  lemma OthersKeep(cfg: Config, w: World, r: nat, i: nat, q: Request, run: Run)
    requires r < |w.requests| && RestOk(cfg, w, r) && i < |w.runs| && w.runs[i].owner == run.owner == r
    requires q.kind == w.requests[r].kind && RunOk(cfg, run, q.kind)
    ensures RestOk(cfg, w.(requests := w.requests[r := q], runs := w.runs[i := run]), r)
  {
    var w' := w.(requests := w.requests[r := q], runs := w.runs[i := run]);
    forall r' | 0 <= r' < |w'.requests| && r' != r ensures RequestOk(w', r') {
      assert RequestOk(w, r');
    }
  }

  lemma CancelledBetween(w: World, r: nat)
    requires RequestAt(w, r) && RequestOk(w, r) && w.requests[r].tried > 0 && !w.requests[r].phase.Over?
    requires w.requests[r].kind.Streaming?
    ensures BetweenRuns(SetRun(w, w.requests[r].current, CurrentRun(w, r).(cancelled := true)), r)
  {
  }

  /** After the pump's `finally` the request holds nothing live. */
  lemma TeardownLeaves(cfg: Config, w: World, r: nat)
    requires Invariant(cfg, w) && RequestAt(w, r) && w.requests[r].tried > 0 && !w.requests[r].phase.Over?
    requires w.requests[r].kind.Unary? ==> RunOver(CurrentRun(w, r).phase)
    ensures RestOk(cfg, Teardown(w, r), r) && BetweenRuns(Teardown(w, r), r)
    ensures RequestAt(Teardown(w, r), r) && LastEvents(CurrentRun(Teardown(w, r), r)) == LastEvents(CurrentRun(w, r))
  {
    assert RequestOk(w, r);
    if w.requests[r].kind.Streaming? {
      var run, i := CurrentRun(w, r).(cancelled := true), w.requests[r].current;
      OthersKeep(cfg, w, r, i, w.requests[r], run);
      CancelledBetween(w, r);
      assert Teardown(w, r) == w.(requests := w.requests[r := w.requests[r]], runs := w.runs[i := run]);
    }
  }

  /** Finishing without a report: the output stands. */
  lemma FinishKeeps(cfg: Config, w: World, r: nat)
    requires r < |w.requests| && RestOk(cfg, w, r) && BetweenRuns(w, r) && w.requests[r].tried > 0
    ensures Invariant(cfg, Finish(w, r))
  {
    AloneKeeps(cfg, w, r, w.requests[r].(phase := Over));
    EndedOk(w, r, w.requests[r].(phase := Over));
  }

  /** A change of one request that leaves all runs alone. */
  lemma RequestStepKeeps(cfg: Config, w: World, r: nat, q: Request)
    requires Invariant(cfg, w) && r < |w.requests|
    requires var p := w.requests[r];
             && q.kind == p.kind && q.chain == p.chain && q.tried == p.tried && q.current == p.current
             && (q.tried == 0 ==> q.yieldedAny == p.yieldedAny)
    requires w.requests[r].phase.Over? == q.phase.Over?
    requires if q.tried == 0 then q.out == w.requests[r].out else q.current < |w.runs| && OutputOk(q, w.runs[q.current])
    ensures Invariant(cfg, SetRequest(w, r, q))
  {
    var w' := SetRequest(w, r, q);
    assert RequestOk(w, r);
    forall r' | 0 <= r' < |w'.requests| ensures RequestOk(w', r') {
      if r' != r { assert RequestOk(w, r'); }
    }
  }

  lemma BeginKeeps(cfg: Config, w: World, s: Step)
    requires Invariant(cfg, w) && s.Begin?
    ensures Invariant(cfg, Do(cfg, w, s))
  {
    var q := Request(s.kind, s.model, s.chain, 0, 0, false, None, s.aborted, Pumping, []);
    var r := |w.requests|;
    var w1 := w.(requests := w.requests + [q]);
    forall r' | 0 <= r' < |w1.requests| && r' != r ensures RequestOk(w1, r') {
      assert RequestOk(w, r');
    }
    NextProviderKeeps(cfg, w1, r);
  }

  /** One more event of the current attempt: what the client has is still what it
      had. */
  lemma OutputGrows(q: Request, run: Run, run': Run, event: StreamEvent)
    requires OutputOk(q, run) && run.phase.Awaiting? && run'.phase.AtYield? && run'.yielded
    requires run'.cancelled == run.cancelled && LastEvents(run') == LastEvents(run) + [event]
    ensures OutputOk(q, run')
  {
    var events := LastEvents(run');
    assert events[..|events| - 1] == LastEvents(run);
    if q.phase.Over? {
      var sent := if q.out <= LastEvents(run) then q.out else q.out[..|q.out| - 1];
      assert sent <= LastEvents(run) && sent <= events;
    }
  }

  lemma YieldedRunOk(cfg: Config, run: Run, kind: Kind, event: StreamEvent) returns (run': Run)
    requires RunOk(cfg, run, kind) && run.phase.Awaiting? && kind.Streaming? && run.attempts != []
    ensures var last := LastAttempt(run);
            run' == WithLast(run, last.(events := last.events + [event])).(phase := AtYield, yielded := true)
    ensures RunOk(cfg, run', kind) && LastEvents(run') == LastEvents(run) + [event]
  {
    var last := LastAttempt(run);
    run' := WithLast(run, last.(events := last.events + [event])).(phase := AtYield, yielded := true);
  }

  lemma YieldsKeeps(cfg: Config, w: World, s: Step)
    requires Invariant(cfg, w) && Enabled(w, s) && s.UpstreamYields?
    ensures Invariant(cfg, Do(cfg, w, s))
  {
    var run := w.runs[s.i];
    var q := w.requests[run.owner];
    var run' := YieldedRunOk(cfg, run, q.kind, s.event);
    assert RequestOk(w, run.owner);
    if s.i == q.current {
      OutputGrows(q, run, run', s.event);
    }
    RunStepKeeps(cfg, w, s.i, run', w.board);
    assert Do(cfg, w, s) == SetRun(w, s.i, run').(board := w.board);
  }

  /** A run that moves on without a new event. */
  predicate Moves(run: Run, run': Run) {
    && run'.owner == run.owner && run'.cancelled == run.cancelled && LastEvents(run') == LastEvents(run)
    && run'.yielded == run.yielded && (RunOver(run.phase) ==> RunOver(run'.phase))
  }

  lemma MovedOutput(q: Request, run: Run, run': Run)
    requires OutputOk(q, run) && Moves(run, run')
    requires !run'.phase.AtYield? && (run.phase.AtYield? ==> q.phase.Over?) && (run'.phase.Closed? ==> q.phase.Over?)
    ensures OutputOk(q, run')
  {
  }

  lemma MoveKeeps(cfg: Config, w: World, i: nat, run: Run, board: Board)
    requires Invariant(cfg, w) && i < |w.runs| && MatchesLog(cfg.limits, board)
    requires Moves(w.runs[i], run) && RunOk(cfg, run, w.requests[run.owner].kind)
    requires !run.phase.AtYield? && (w.runs[i].phase.AtYield? || run.phase.Closed? ==> run.cancelled)
    ensures Invariant(cfg, SetRun(w, i, run).(board := board))
  {
    var q := w.requests[run.owner];
    assert RequestOk(w, run.owner);
    if i == q.current {
      MovedOutput(q, w.runs[i], run);
    }
    RunStepKeeps(cfg, w, i, run, board);
  }

  lemma EndsKeeps(cfg: Config, w: World, s: Step)
    requires Invariant(cfg, w) && Enabled(w, s) && s.UpstreamEnds?
    ensures Invariant(cfg, Do(cfg, w, s))
  {
    var run := w.runs[s.i];
    var run' := FireLast(run).(phase := Returned);
    SuccessKeepsLog(cfg.limits, w.board, run.provider);
    assert RunOk(cfg, run', w.requests[run.owner].kind);
    MoveKeeps(cfg, w, s.i, run', AfterSuccess(w.board, run.provider));
  }

  lemma BackoffKeeps(cfg: Config, w: World, s: Step)
    requires Invariant(cfg, w) && Enabled(w, s) && s.BackoffEnds?
    ensures Invariant(cfg, Do(cfg, w, s))
  {
    var run := w.runs[s.i];
    var run' := run.(attempts := run.attempts + [NEW_ATTEMPT], yielded := false, phase := Awaiting);
    assert RunOk(cfg, run, w.requests[run.owner].kind);
    assert RunOk(cfg, run', w.requests[run.owner].kind);
    MoveKeeps(cfg, w, s.i, run', w.board);
    assert Do(cfg, w, s) == SetRun(w, s.i, run').(board := w.board);
  }

  lemma ReturnKeeps(cfg: Config, w: World, s: Step)
    requires Invariant(cfg, w) && Enabled(w, s) && s.QueuedReturn?
    ensures Invariant(cfg, Do(cfg, w, s))
  {
    var run := w.runs[s.i];
    var run' := FireLast(run).(phase := Closed);
    assert RunOk(cfg, run', w.requests[run.owner].kind);
    MoveKeeps(cfg, w, s.i, run', w.board);
    assert Do(cfg, w, s) == SetRun(w, s.i, run').(board := w.board);
  }

  lemma ThrowsKeeps(cfg: Config, w: World, i: nat, error: string)
    requires Invariant(cfg, w) && RunAt(w, i) && w.runs[i].phase.Awaiting?
    ensures Invariant(cfg, Throws(cfg, w, i, error))
  {
    var run := w.runs[i];
    var w' := Throws(cfg, w, i, error);
    assert RunOk(cfg, run, w.requests[run.owner].kind);
    FailureKeepsLog(cfg.limits, w.board, run.provider, w.now);
    assert RunOk(cfg, w'.runs[i], w.requests[run.owner].kind);
    MoveKeeps(cfg, w, i, w'.runs[i], w'.board);
    assert w' == SetRun(w, i, w'.runs[i]).(board := w'.board);
  }

  /** A run's result reaches the gateway and ends it for this provider. */
  lemma HandoverKeeps(cfg: Config, w: World, s: Step)
    requires Invariant(cfg, w) && Enabled(w, s)
    requires s.IdleTimeout? || s.ConsumerBreaks? || (s.Receive? && RunOver(CurrentRun(w, s.r).phase))
    ensures Invariant(cfg, Do(cfg, w, s))
  {
    var r := s.r;
    assert RequestOk(w, r);
    var run := CurrentRun(w, r);
    TeardownLeaves(cfg, w, r);
    if s.IdleTimeout? {
      ProviderFailedKeeps(cfg, Teardown(w, r), r, IDLE_TIMEOUT);
    } else if s.Receive? && run.phase.Threw? {
      ProviderFailedKeeps(cfg, Teardown(w, r), r, run.phase.error);
    } else {
      FinishKeeps(cfg, Teardown(w, r), r);
    }
  }

  lemma EventReceivedKeeps(cfg: Config, w: World, s: Step)
    requires Invariant(cfg, w) && Enabled(w, s) && s.Receive? && CurrentRun(w, s.r).phase.AtYield?
    ensures Invariant(cfg, Do(cfg, w, s))
  {
    var q := w.requests[s.r];
    assert RequestOk(w, s.r);
    var evs := LastEvents(CurrentRun(w, s.r));
    assert evs[..|evs| - 1] + [evs[|evs| - 1]] == evs;
    RequestStepKeeps(cfg, w, s.r, q.(phase := Parked, yieldedAny := true, out := q.out + [evs[|evs| - 1]]));
  }

  lemma PulledOk(w: World, r: nat, q: Request, run: Run)
    requires RequestAt(w, r) && RequestOk(w, r) && w.requests[r].phase.Parked? && w.requests[r].tried > 0
    requires q == w.requests[r].(phase := Pumping) && run == CurrentRun(w, r).(phase := Awaiting)
    ensures RequestOk(w.(requests := w.requests[r := q], runs := w.runs[q.current := run]), r)
  {
    assert LastEvents(run) == LastEvents(CurrentRun(w, r));
  }

  lemma PullKeeps(cfg: Config, w: World, s: Step)
    requires Invariant(cfg, w) && Enabled(w, s) && s.ConsumerPulls?
    ensures Invariant(cfg, Do(cfg, w, s))
  {
    var q, run := w.requests[s.r].(phase := Pumping), CurrentRun(w, s.r).(phase := Awaiting);
    assert RequestOk(w, s.r);
    assert RunOk(cfg, CurrentRun(w, s.r), q.kind);
    OthersKeep(cfg, w, s.r, q.current, q, run);
    PulledOk(w, s.r, q, run);
    assert Do(cfg, w, s) == w.(requests := w.requests[s.r := q], runs := w.runs[q.current := run]);
  }

  lemma StepKeeps(cfg: Config, w: World, s: Step)
    requires Invariant(cfg, w) && Enabled(w, s)
    ensures Invariant(cfg, Do(cfg, w, s))
  {
    match s
    case Tick(_) =>
      var w' := Do(cfg, w, s);
      forall r | 0 <= r < |w'.requests| ensures RequestOk(w', r) {
        assert RequestOk(w, r);
      }
    case Begin(_, _, _, _) => BeginKeeps(cfg, w, s);
    case CallerAbort(r) =>
      assert RequestOk(w, r);
      RequestStepKeeps(cfg, w, r, w.requests[r].(aborted := true));
    case UpstreamThrows(i, error) => ThrowsKeeps(cfg, w, i, error);
    case UpstreamYields(_, _) => YieldsKeeps(cfg, w, s);
    case UpstreamEnds(_) => EndsKeeps(cfg, w, s);
    case BackoffEnds(_) => BackoffKeeps(cfg, w, s);
    case QueuedReturn(_) => ReturnKeeps(cfg, w, s);
    case Receive(r) =>
      if CurrentRun(w, r).phase.AtYield? { EventReceivedKeeps(cfg, w, s); } else { HandoverKeeps(cfg, w, s); }
    case IdleTimeout(_) => HandoverKeeps(cfg, w, s);
    case ConsumerPulls(_) => PullKeeps(cfg, w, s);
    case ConsumerBreaks(_) => HandoverKeeps(cfg, w, s);
  }

  lemma {:induction false} AlwaysInvariant(cfg: Config, ws: seq<World>, k: nat)
    requires Behaviour(cfg, ws) && k < |ws|
    ensures Invariant(cfg, ws[k])
  {
    if k == 0 {
      assert forall p :: CircuitMatchesLog(cfg.limits, FRESH_BOARD, p);
    } else {
      AlwaysInvariant(cfg, ws, k - 1);
      assert Next(cfg, ws[k - 1], ws[k - 1 + 1]);
      var s :| Enabled(ws[k - 1], s) && ws[k] == Do(cfg, ws[k - 1], s);
      StepKeeps(cfg, ws[k - 1], s);
    }
  }
}
