/** What the protocol promises about one request, over every history. */
module ProtocolSafety {
  import opened Unified
  import opened Breaker
  import opened PolicyRules
  import opened Protocol
  import opened ProtocolInvariant

  predicate AttemptOf(w: World, r: nat, i: nat, j: nat) {
    i < |w.runs| && w.runs[i].owner == r && j < |w.runs[i].attempts|
  }

  /** Attempt `j` of run `i` is the one and only source of what the client got. */
  predicate ServedBy(w: World, r: nat, i: nat, j: nat)
    requires r < |w.requests|
  {
    AttemptOf(w, r, i, j) &&
    Delivered(w.requests[r].out, w.runs[i].attempts[j].events, w.requests[r].phase.Over?)
  }

  predicate NothingFromUpstream(q: Request) {
    q.out == [] || (q.phase.Over? && |q.out| == 1 && q.out[0].Error?)
  }

  /** No replay and no splice. */
  lemma OneSource(cfg: Config, ws: seq<World>, k: nat, r: nat)
    requires Behaviour(cfg, ws) && k < |ws| && r < |ws[k].requests|
    ensures NothingFromUpstream(ws[k].requests[r]) || exists i: nat, j: nat :: ServedBy(ws[k], r, i, j)
  {
    AlwaysInvariant(cfg, ws, k);
    var w := ws[k];
    assert RequestOk(w, r);
    var q := w.requests[r];
    if q.tried == 0 || CurrentRun(w, r).attempts == [] {
      assert Delivered(q.out, [], q.phase.Over?);
    } else {
      assert ServedBy(w, r, q.current, |CurrentRun(w, r).attempts| - 1);
    }
  }

  /** The attempt's signal is not aborted: neither its own controller, nor the
      gateway's for this provider, nor the client's. */
  predicate Live(w: World, r: nat, i: nat, j: nat)
    requires r < |w.requests|
  {
    AttemptOf(w, r, i, j) && !w.runs[i].attempts[j].fired && !w.runs[i].cancelled && !w.requests[r].aborted
  }

  lemma LiveIsCurrent(cfg: Config, w: World, r: nat, i: nat, j: nat)
    requires Invariant(cfg, w) && r < |w.requests| && Live(w, r, i, j)
    ensures !w.requests[r].phase.Over?
    ensures i == w.requests[r].current && j == |w.runs[i].attempts| - 1
  {
    assert RequestOk(w, r);
    assert RunOk(cfg, w.runs[i], w.requests[r].kind);
  }

  /** At every moment at most one upstream attempt of a request has a live
      signal, and none once the request is over. */
  lemma AtMostOneLive(cfg: Config, ws: seq<World>, k: nat, r: nat)
    requires Behaviour(cfg, ws) && k < |ws| && r < |ws[k].requests|
    ensures forall i: nat, j: nat, i': nat, j': nat ::
              Live(ws[k], r, i, j) && Live(ws[k], r, i', j') ==> i == i' && j == j'
    ensures ws[k].requests[r].phase.Over? ==> forall i: nat, j: nat :: !Live(ws[k], r, i, j)
  {
    AlwaysInvariant(cfg, ws, k);
    forall i: nat, j: nat | Live(ws[k], r, i, j)
      ensures !ws[k].requests[r].phase.Over?
      ensures i == ws[k].requests[r].current && j == |ws[k].runs[i].attempts| - 1
    {
      LiveIsCurrent(cfg, ws[k], r, i, j);
    }
  }

  /** How many operations a run may have called once its sleep is over. */
  function Slack(run: Run): nat {
    |run.attempts| + if run.phase.Sleeping? then 1 else 0
  }

  /** A run keeps its owner, and one whose caller is gone only winds down. */
  ghost predicate WindsDown(w: World, w': World, i: nat)
    requires i < |w.runs| && w.runs[i].owner < |w.requests|
  {
    && i < |w'.runs| && w'.runs[i].owner == w.runs[i].owner < |w'.requests|
    && (CallerGone(w, w.runs[i]) ==>
          && CallerGone(w', w'.runs[i])
          && w'.runs[i].recorded == w.runs[i].recorded
          && Slack(w'.runs[i]) <= Slack(w.runs[i]))
  }

  /** An aborted request tries no further provider. */
  ghost predicate StaysAborted(w: World, w': World, r: nat)
    requires r < |w.requests|
  {
    w.requests[r].aborted ==>
      r < |w'.requests| && w'.requests[r].aborted && w'.requests[r].tried == w.requests[r].tried
  }

  ghost predicate RunsNeutral(w: World, w': World) {
    forall i :: 0 <= i < |w.runs| ==> w.runs[i].owner < |w.requests| && WindsDown(w, w', i)
  }

  ghost predicate Neutral(w: World, w': World) {
    && RunsNeutral(w, w')
    && forall r :: 0 <= r < |w.requests| ==> StaysAborted(w, w', r)
  }

  lemma NeutralTransitive(w: World, w1: World, w2: World)
    requires Neutral(w, w1) && Neutral(w1, w2)
    ensures Neutral(w, w2)
  {
    forall i | 0 <= i < |w.runs| ensures WindsDown(w, w2, i) {
      assert WindsDown(w, w1, i);
      assert WindsDown(w1, w2, i);
    }
    forall r | 0 <= r < |w.requests| ensures StaysAborted(w, w2, r) {
      assert StaysAborted(w, w1, r);
      if w.requests[r].aborted { assert StaysAborted(w1, w2, r); }
    }
  }

  ghost predicate Owned(w: World) {
    forall i :: 0 <= i < |w.runs| ==> w.runs[i].owner < |w.requests|
  }

  lemma NextProviderNeutral(cfg: Config, w: World, r: nat)
    requires r < |w.requests| && Owned(w)
    ensures RunsNeutral(w, NextProvider(cfg, w, r))
    ensures forall r' :: 0 <= r' < |w.requests| && (r' != r || !w.requests[r].aborted) ==>
              StaysAborted(w, NextProvider(cfg, w, r), r')
  {
    var w' := NextProvider(cfg, w, r);
    forall i | 0 <= i < |w.runs| ensures WindsDown(w, w', i) {
      assert w'.runs[i] == w.runs[i];
    }
  }

  lemma ProviderFailedNeutral(cfg: Config, w: World, r: nat, error: string)
    requires r < |w.requests| && Owned(w)
    ensures Neutral(w, ProviderFailed(cfg, w, r, error))
  {
    var q := w.requests[r].(lastError := Some(error));
    if !q.aborted && !q.yieldedAny {
      NextProviderNeutral(cfg, SetRequest(w, r, q), r);
      NeutralTransitive(w, SetRequest(w, r, q), ProviderFailed(cfg, w, r, error));
    }
  }

  lemma TeardownNeutral(w: World, r: nat)
    requires RequestAt(w, r) && Owned(w)
    ensures Neutral(w, Teardown(w, r)) && Owned(Teardown(w, r))
  {
  }

  lemma RunStepNeutral(cfg: Config, w: World, s: Step)
    requires Invariant(cfg, w) && Enabled(w, s)
    requires s.UpstreamYields? || s.UpstreamEnds? || s.UpstreamThrows? || s.BackoffEnds? || s.QueuedReturn?
    ensures Neutral(w, Do(cfg, w, s))
  {
    var w' := Do(cfg, w, s);
    assert RunOk(cfg, w.runs[s.i], w.requests[w.runs[s.i].owner].kind);
    assert w'.requests == w.requests && w'.runs == w.runs[s.i := w'.runs[s.i]];
    forall i | 0 <= i < |w.runs| ensures WindsDown(w, w', i) {
      if i != s.i { assert w'.runs[i] == w.runs[i]; }
    }
  }

  lemma BeginNeutral(cfg: Config, w: World, s: Step)
    requires Invariant(cfg, w) && s.Begin?
    ensures Neutral(w, Do(cfg, w, s))
  {
    var q := Request(s.kind, s.model, s.chain, 0, 0, false, None, s.aborted, Pumping, []);
    var w1, w' := w.(requests := w.requests + [q]), Do(cfg, w, s);
    NextProviderNeutral(cfg, w1, |w.requests|);
    forall i | 0 <= i < |w.runs| ensures WindsDown(w, w', i) {
      assert WindsDown(w1, w', i);
    }
    forall r | 0 <= r < |w.requests| ensures StaysAborted(w, w', r) {
      assert StaysAborted(w1, w', r);
    }
  }

  /** A step that touches no run and no abort. */
  lemma QuietNeutral(w: World, w': World)
    requires Owned(w) && w'.runs == w.runs && |w'.requests| == |w.requests|
    requires forall r :: 0 <= r < |w.requests| ==>
               && w'.requests[r].tried == w.requests[r].tried
               && (w.requests[r].aborted ==> w'.requests[r].aborted)
    ensures Neutral(w, w')
  {
  }

  lemma PullNeutral(cfg: Config, w: World, s: Step)
    requires Invariant(cfg, w) && Enabled(w, s) && s.ConsumerPulls?
    ensures Neutral(w, Do(cfg, w, s))
  {
    var c, w' := w.requests[s.r].current, Do(cfg, w, s);
    forall i | 0 <= i < |w.runs| ensures WindsDown(w, w', i) {
      assert w'.runs[i] == if i == c then w.runs[c].(phase := Awaiting) else w.runs[i];
    }
  }

  lemma StepNeutral(cfg: Config, w: World, s: Step)
    requires Invariant(cfg, w) && Enabled(w, s)
    ensures Neutral(w, Do(cfg, w, s))
  {
    match s
    case Tick(_) => QuietNeutral(w, Do(cfg, w, s));
    case CallerAbort(_) => QuietNeutral(w, Do(cfg, w, s));
    case Begin(_, _, _, _) => BeginNeutral(cfg, w, s);
    case Receive(r) =>
      if CurrentRun(w, r).phase.AtYield? {
        QuietNeutral(w, Do(cfg, w, s));
      } else {
        HandoverNeutral(cfg, w, s);
      }
    case IdleTimeout(_) => HandoverNeutral(cfg, w, s);
    case ConsumerBreaks(_) => HandoverNeutral(cfg, w, s);
    case ConsumerPulls(_) => PullNeutral(cfg, w, s);
    case _ => RunStepNeutral(cfg, w, s);
  }

  lemma HandoverNeutral(cfg: Config, w: World, s: Step)
    requires Invariant(cfg, w) && Enabled(w, s)
    requires s.IdleTimeout? || s.ConsumerBreaks? || (s.Receive? && !CurrentRun(w, s.r).phase.AtYield?)
    ensures Neutral(w, Do(cfg, w, s))
  {
    var w1, w' := Teardown(w, s.r), Do(cfg, w, s);
    TeardownNeutral(w, s.r);
    assert Neutral(w1, w') by {
      if s.IdleTimeout? {
        ProviderFailedNeutral(cfg, w1, s.r, IDLE_TIMEOUT);
      } else if s.Receive? && CurrentRun(w, s.r).phase.Threw? {
        ProviderFailedNeutral(cfg, w1, s.r, CurrentRun(w, s.r).phase.error);
      } else {
        QuietNeutral(w1, w');
      }
    }
    NeutralTransitive(w, w1, w');
  }

  lemma NeutralStill(cfg: Config, ws: seq<World>, k: nat)
    requires Behaviour(cfg, ws) && k < |ws|
    ensures Neutral(ws[k], ws[k])
  {
    AlwaysInvariant(cfg, ws, k);
  }

  lemma NextNeutral(cfg: Config, ws: seq<World>, k: nat)
    requires Behaviour(cfg, ws) && k + 1 < |ws|
    ensures Neutral(ws[k], ws[k + 1])
  {
    AlwaysInvariant(cfg, ws, k);
    assert Next(cfg, ws[k], ws[k + 1]);
    var s :| Enabled(ws[k], s) && ws[k + 1] == Do(cfg, ws[k], s);
    StepNeutral(cfg, ws[k], s);
  }

  lemma NeutralFrom(cfg: Config, ws: seq<World>, a: nat, b: nat)
    requires Behaviour(cfg, ws) && a <= b < |ws|
    ensures Neutral(ws[a], ws[b])
  {
    var related := (x: World, y: World) => Neutral(x, y);
    NeutralStill(cfg, ws, a);
    forall k | a <= k < b ensures related(ws[k], ws[k + 1]) {
      NextNeutral(cfg, ws, k);
    }
    forall x, y, z | related(x, y) && related(y, z) ensures related(x, z) {
      NeutralTransitive(x, y, z);
    }
    Along(ws, related, a, b);
  }

  /** Once a run's caller is gone - the client, or the gateway after an idle
      timeout - the run calls at most one further operation, and that only out
      of a backoff, and it never again feeds the breaker. Once the client is
      gone, the gateway opens no further provider. */
  lemma AbortNeutrality(cfg: Config, ws: seq<World>, a: nat, b: nat, i: nat)
    requires Behaviour(cfg, ws) && a <= b < |ws| && i < |ws[a].runs| && ws[a].runs[i].owner < |ws[a].requests|
    requires ws[a].runs[i].cancelled || ws[a].requests[ws[a].runs[i].owner].aborted
    ensures var r := ws[a].runs[i].owner;
            && i < |ws[b].runs| && r < |ws[b].requests|
            && ws[b].runs[i].recorded == ws[a].runs[i].recorded
            && |ws[b].runs[i].attempts| <= |ws[a].runs[i].attempts| + 1
            && (!ws[a].runs[i].phase.Sleeping? ==> |ws[b].runs[i].attempts| <= |ws[a].runs[i].attempts|)
            && (ws[a].requests[r].aborted ==> ws[b].requests[r].tried == ws[a].requests[r].tried)
  {
    NeutralFrom(cfg, ws, a, b);
    assert WindsDown(ws[a], ws[b], i);
    assert StaysAborted(ws[a], ws[b], ws[a].runs[i].owner);
  }

  /** The client holds an upstream event of request `r`. */
  ghost predicate Committed(w: World, w': World, r: nat)
    requires r < |w.requests|
  {
    w.requests[r].yieldedAny ==>
      && r < |w'.requests| && w'.requests[r].yieldedAny
      && w'.requests[r].tried == w.requests[r].tried
      && w'.requests[r].current == w.requests[r].current < |w.runs| <= |w'.runs|
      && |w'.runs[w.requests[r].current].attempts| == |w.runs[w.requests[r].current].attempts|
      && w.requests[r].out <= w'.requests[r].out
  }

  lemma CommittedTransitive(w: World, w1: World, w2: World, r: nat)
    requires r < |w.requests| && Committed(w, w1, r)
    requires r < |w1.requests| ==> Committed(w1, w2, r)
    ensures Committed(w, w2, r)
  {
  }

  lemma NextProviderCommitted(cfg: Config, w: World, r': nat, r: nat)
    requires r < |w.requests| && r' < |w.requests|
    requires w.requests[r].yieldedAny ==> w.requests[r].current < |w.runs|
    requires r != r' || !w.requests[r].yieldedAny
    ensures Committed(w, NextProvider(cfg, w, r'), r)
  {
    var w' := NextProvider(cfg, w, r');
    assert forall i :: 0 <= i < |w.runs| ==> w'.runs[i] == w.runs[i];
  }

  lemma ProviderFailedCommitted(cfg: Config, w: World, r': nat, error: string, r: nat)
    requires r < |w.requests| && r' < |w.requests|
    requires w.requests[r].yieldedAny ==> w.requests[r].current < |w.runs|
    ensures Committed(w, ProviderFailed(cfg, w, r', error), r)
  {
    var q := w.requests[r'].(lastError := Some(error));
    if !q.aborted && !q.yieldedAny {
      NextProviderCommitted(cfg, SetRequest(w, r', q), r', r);
    }
  }

  lemma HandoverCommitted(cfg: Config, w: World, s: Step, r: nat)
    requires Invariant(cfg, w) && Enabled(w, s) && r < |w.requests|
    requires s.IdleTimeout? || s.ConsumerBreaks? || (s.Receive? && !CurrentRun(w, s.r).phase.AtYield?)
    ensures Committed(w, Do(cfg, w, s), r)
  {
    assert RequestOk(w, r);
    var w1 := Teardown(w, s.r);
    if s.IdleTimeout? {
      ProviderFailedCommitted(cfg, w1, s.r, IDLE_TIMEOUT, r);
    } else if s.Receive? && CurrentRun(w, s.r).phase.Threw? {
      ProviderFailedCommitted(cfg, w1, s.r, CurrentRun(w, s.r).phase.error, r);
    }
    CommittedTransitive(w, w1, Do(cfg, w, s), r);
  }

  lemma RunStepCommitted(cfg: Config, w: World, s: Step, r: nat)
    requires Invariant(cfg, w) && Enabled(w, s) && r < |w.requests|
    requires s.UpstreamYields? || s.UpstreamEnds? || s.UpstreamThrows? || s.BackoffEnds? || s.QueuedReturn?
    ensures Committed(w, Do(cfg, w, s), r)
  {
    var w' := Do(cfg, w, s);
    assert RequestOk(w, r);
    assert w'.requests == w.requests && w'.runs == w.runs[s.i := w'.runs[s.i]];
    if s.i == w.requests[r].current && w.requests[r].yieldedAny {
      assert OutputOk(w.requests[r], w.runs[s.i]) && RunOk(cfg, w.runs[s.i], w.requests[w.runs[s.i].owner].kind);
    }
  }

  lemma PullCommitted(cfg: Config, w: World, s: Step, r: nat)
    requires Invariant(cfg, w) && Enabled(w, s) && r < |w.requests| && s.ConsumerPulls?
    ensures Committed(w, Do(cfg, w, s), r)
  {
    assert RequestOk(w, r);
    var c, w' := w.requests[s.r].current, Do(cfg, w, s);
    assert w'.runs == w.runs[c := w.runs[c].(phase := Awaiting)];
  }

  lemma StepCommitted(cfg: Config, w: World, s: Step, r: nat)
    requires Invariant(cfg, w) && Enabled(w, s) && r < |w.requests|
    ensures Committed(w, Do(cfg, w, s), r)
  {
    assert RequestOk(w, r);
    match s
    case Begin(kind, model, chain, aborted) =>
      var q := Request(kind, model, chain, 0, 0, false, None, aborted, Pumping, []);
      NextProviderCommitted(cfg, w.(requests := w.requests + [q]), |w.requests|, r);
    case Receive(r') =>
      if !CurrentRun(w, r').phase.AtYield? { HandoverCommitted(cfg, w, s, r); }
    case IdleTimeout(_) => HandoverCommitted(cfg, w, s, r);
    case ConsumerBreaks(_) => HandoverCommitted(cfg, w, s, r);
    case Tick(_) =>
    case CallerAbort(_) =>
    case ConsumerPulls(_) => PullCommitted(cfg, w, s, r);
    case _ => RunStepCommitted(cfg, w, s, r);
  }

  lemma NextCommitted(cfg: Config, ws: seq<World>, k: nat, r: nat)
    requires Behaviour(cfg, ws) && k + 1 < |ws|
    ensures r < |ws[k].requests| ==> Committed(ws[k], ws[k + 1], r)
  {
    AlwaysInvariant(cfg, ws, k);
    assert Next(cfg, ws[k], ws[k + 1]);
    var s :| Enabled(ws[k], s) && ws[k + 1] == Do(cfg, ws[k], s);
    if r < |ws[k].requests| { StepCommitted(cfg, ws[k], s, r); }
  }

  lemma CommittedStill(cfg: Config, w: World, r: nat)
    requires Invariant(cfg, w) && r < |w.requests|
    ensures Committed(w, w, r)
  {
    assert RequestOk(w, r);
  }

  lemma CommittedFrom(cfg: Config, ws: seq<World>, a: nat, b: nat, r: nat)
    requires Behaviour(cfg, ws) && a <= b < |ws| && r < |ws[a].requests|
    ensures Committed(ws[a], ws[b], r)
  {
    var related := (x: World, y: World) => r < |x.requests| ==> Committed(x, y, r);
    AlwaysInvariant(cfg, ws, a);
    CommittedStill(cfg, ws[a], r);
    forall k | a <= k < b ensures related(ws[k], ws[k + 1]) {
      NextCommitted(cfg, ws, k, r);
    }
    forall x, y, z | related(x, y) && related(y, z) ensures related(x, z) {
      if r < |x.requests| {
        CommittedTransitive(x, y, z, r);
      }
    }
    Along(ws, related, a, b);
  }

  /** All runs of request `r` at `w'` were there at `w`; its current run then has
      the same attempts, an abandoned one at most one more. */
  ghost predicate NoNewRuns(w: World, w': World, r: nat)
    requires r < |w.requests|
  {
    forall i: nat :: i < |w'.runs| && w'.runs[i].owner == r ==>
      && i < |w.runs| && w.runs[i].owner == r
      && |w'.runs[i].attempts| <= |w.runs[i].attempts| + if i == w.requests[r].current then 0 else 1
  }

  /** Every live attempt of `r` at `w'` is an attempt its current run had at `w`. */
  ghost predicate OnlyOldLive(w: World, w': World, r: nat)
    requires r < |w.requests| && r < |w'.requests|
  {
    forall i: nat, j: nat :: Live(w', r, i, j) ==> i == w.requests[r].current && AttemptOf(w, r, i, j)
  }

  lemma OldRun(cfg: Config, w: World, w': World, r: nat, i: nat)
    requires Invariant(cfg, w) && Invariant(cfg, w') && Neutral(w, w')
    requires r < |w.requests| && w.requests[r].yieldedAny && Committed(w, w', r)
    requires i < |w'.runs| && w'.runs[i].owner == r
    ensures i < |w.runs| && w.runs[i].owner == r
    ensures i != w.requests[r].current ==> |w'.runs[i].attempts| <= |w.runs[i].attempts| + 1
    ensures i == w.requests[r].current ==> |w'.runs[i].attempts| == |w.runs[i].attempts|
  {
    assert RequestOk(w', r) && RequestOk(w, r);
    assert WindsDown(w, w', i);
    if i != w.requests[r].current {
      assert LeftBehind(w.runs[i], w.requests[r].kind) && w.requests[r].kind.Streaming? by {
        assert RunOk(cfg, w.runs[w.requests[r].current], w.requests[r].kind);
      }
    }
  }

  /** Once output reached a client, no further provider is tried for it and what
      it has is never taken back. No attempt that starts later is ever live: the
      current run makes no further one, and an abandoned run at most one, out of
      its backoff and with its signal already aborted. */
  lemma NoAttemptAfterOutput(cfg: Config, ws: seq<World>, a: nat, b: nat, r: nat)
    requires Behaviour(cfg, ws) && a <= b < |ws| && r < |ws[a].requests| && ws[a].requests[r].yieldedAny
    ensures Committed(ws[a], ws[b], r)
    ensures NoNewRuns(ws[a], ws[b], r) && OnlyOldLive(ws[a], ws[b], r)
  {
    CommittedFrom(cfg, ws, a, b, r);
    NeutralFrom(cfg, ws, a, b);
    AlwaysInvariant(cfg, ws, a);
    AlwaysInvariant(cfg, ws, b);
    forall i: nat | i < |ws[b].runs| && ws[b].runs[i].owner == r
      ensures i < |ws[a].runs| && ws[a].runs[i].owner == r
      ensures |ws[b].runs[i].attempts| <= |ws[a].runs[i].attempts| + if i == ws[a].requests[r].current then 0 else 1
    {
      OldRun(cfg, ws[a], ws[b], r, i);
    }
    forall i: nat, j: nat | Live(ws[b], r, i, j)
      ensures i == ws[a].requests[r].current && AttemptOf(ws[a], r, i, j)
    {
      LiveIsCurrent(cfg, ws[b], r, i, j);
      OldRun(cfg, ws[a], ws[b], r, i);
    }
  }

  /** Under any interleaving every circuit says exactly what the log says. */
  lemma BreakerTrace(cfg: Config, ws: seq<World>, k: nat, provider: string)
    requires Behaviour(cfg, ws) && k < |ws|
    ensures var c := Lookup(ws[k].board, provider);
            && c.failures == FailuresSince(ws[k].board.log, provider)
            && (c.isOpen <==> FailuresSince(ws[k].board.log, provider) >= Trip(cfg.limits))
  {
    AlwaysInvariant(cfg, ws, k);
    assert CircuitMatchesLog(cfg.limits, ws[k].board, provider);
  }

  // ---- Admission over histories ----

  /** A step that opens a run: it has an attempt exactly if the log and the clock
      let it through and its caller is there. */
  lemma OpenedByLog(cfg: Config, w: World, r: nat)
    requires r < |w.requests| && MatchesLog(cfg.limits, w.board) && w.requests[r].tried < |w.requests[r].chain|
    ensures var w', provider := NextProvider(cfg, w, r), w.requests[r].chain[w.requests[r].tried];
            && |w'.runs| == |w.runs| + 1 && w'.runs[|w.runs|].provider == provider
            && var run := w'.runs[|w.runs|];
               run.attempts == [] <==> TurnedAway(cfg.limits, w.board.log, provider, w.now) || w.requests[r].aborted
  {
    assert CircuitMatchesLog(cfg.limits, w.board, w.requests[r].chain[w.requests[r].tried]);
    AdmittedByLog(cfg.limits, w.board, w.requests[r].chain[w.requests[r].tried], w.now);
  }

  /** If a step opened run `i`, what it says of its first attempt. */
  ghost predicate OpensByLog(cfg: Config, w: World, w': World, i: nat) {
    |w.runs| <= i < |w'.runs| ==>
      && w'.runs[i].owner < |w'.requests|
      && (w'.runs[i].attempts == [] <==>
            TurnedAway(cfg.limits, w.board.log, w'.runs[i].provider, w.now) || w'.requests[w'.runs[i].owner].aborted)
  }

  lemma NextProviderOpens(cfg: Config, w: World, r: nat, i: nat)
    requires r < |w.requests| && MatchesLog(cfg.limits, w.board)
    ensures OpensByLog(cfg, w, NextProvider(cfg, w, r), i)
  {
    if w.requests[r].tried < |w.requests[r].chain| {
      OpenedByLog(cfg, w, r);
    }
  }

  lemma StepOpens(cfg: Config, w: World, s: Step, i: nat)
    requires Invariant(cfg, w) && Enabled(w, s)
    ensures OpensByLog(cfg, w, Do(cfg, w, s), i)
  {
    match s
    case Begin(kind, model, chain, aborted) =>
      var q := Request(kind, model, chain, 0, 0, false, None, aborted, Pumping, []);
      NextProviderOpens(cfg, w.(requests := w.requests + [q]), |w.requests|, i);
    case Receive(r) =>
      if CurrentRun(w, r).phase.Threw? { FailedOpens(cfg, w, r, CurrentRun(w, r).phase.error, i); }
    case IdleTimeout(r) => FailedOpens(cfg, w, r, IDLE_TIMEOUT, i);
    case _ =>
  }

  lemma FailedOpens(cfg: Config, w: World, r: nat, error: string, i: nat)
    requires RequestAt(w, r) && MatchesLog(cfg.limits, w.board)
    ensures OpensByLog(cfg, w, ProviderFailed(cfg, Teardown(w, r), r, error), i)
  {
    var torn := Teardown(w, r);
    var q := torn.requests[r].(lastError := Some(error));
    if !q.aborted && !q.yieldedAny {
      NextProviderOpens(cfg, SetRequest(torn, r, q), r, i);
    }
  }

  /** A run without an attempt never gets one. */
  ghost predicate StaysIdle(cfg: Config, w: World, w': World, i: nat) {
    i < |w.runs| && w.runs[i].attempts == [] && w.runs[i].phase.Threw? ==>
      i < |w'.runs| && w'.runs[i].attempts == [] && w'.runs[i].phase.Threw?
  }

  lemma RunsKept(cfg: Config, w: World, r: nat, error: string, i: nat)
    requires r < |w.requests|
    ensures StaysIdle(cfg, w, NextProvider(cfg, w, r), i) && StaysIdle(cfg, w, ProviderFailed(cfg, w, r, error), i)
  {
  }

  lemma StepStaysIdle(cfg: Config, w: World, s: Step, i: nat)
    requires Invariant(cfg, w) && Enabled(w, s)
    ensures StaysIdle(cfg, w, Do(cfg, w, s), i)
  {
    match s
    case Begin(kind, model, chain, aborted) =>
      var q := Request(kind, model, chain, 0, 0, false, None, aborted, Pumping, []);
      RunsKept(cfg, w.(requests := w.requests + [q]), |w.requests|, "", i);
    case Receive(r) =>
      if CurrentRun(w, r).phase.Threw? { RunsKept(cfg, Teardown(w, r), r, CurrentRun(w, r).phase.error, i); }
    case IdleTimeout(r) => RunsKept(cfg, Teardown(w, r), r, IDLE_TIMEOUT, i);
    case _ =>
  }

  /** While the log has a circuit open and the reset time has not gone by since
      its last failure, no run opened on that provider ever has an attempt; every
      other run opened for a caller who is there starts with one. */
  lemma AdmissionOverHistories(cfg: Config, ws: seq<World>, k: nat, m: nat, i: nat)
    requires Behaviour(cfg, ws) && k < m < |ws| && |ws[k].runs| <= i < |ws[k + 1].runs|
    ensures var run := ws[k + 1].runs[i];
            if TurnedAway(cfg.limits, ws[k].board.log, run.provider, ws[k].now) then
              i < |ws[m].runs| && ws[m].runs[i].attempts == []
            else
              run.owner < |ws[k + 1].requests| && (!ws[k + 1].requests[run.owner].aborted ==> run.attempts != [])
  {
    AlwaysInvariant(cfg, ws, k);
    AlwaysInvariant(cfg, ws, k + 1);
    assert Next(cfg, ws[k], ws[k + 1]);
    var s :| Enabled(ws[k], s) && ws[k + 1] == Do(cfg, ws[k], s);
    StepOpens(cfg, ws[k], s, i);
    if ws[k + 1].runs[i].attempts == [] {
      assert RunOk(cfg, ws[k + 1].runs[i], ws[k + 1].requests[ws[k + 1].runs[i].owner].kind);
      IdleFrom(cfg, ws, k + 1, m, i);
    }
  }

  lemma IdleFrom(cfg: Config, ws: seq<World>, a: nat, b: nat, i: nat)
    requires Behaviour(cfg, ws) && a <= b < |ws|
    ensures StaysIdle(cfg, ws[a], ws[b], i)
  {
    var related := (x: World, y: World) => StaysIdle(cfg, x, y, i);
    forall k | a <= k < b ensures related(ws[k], ws[k + 1]) {
      AlwaysInvariant(cfg, ws, k);
      assert Next(cfg, ws[k], ws[k + 1]);
      var s :| Enabled(ws[k], s) && ws[k + 1] == Do(cfg, ws[k], s);
      StepStaysIdle(cfg, ws[k], s, i);
    }
    Along(ws, related, a, b);
  }

  /** A throw: unrecorded if the run was cancelled or the client is gone; else
      recorded, and retried exactly if nothing was yielded and a retry is left. */
  lemma ThrowIsRecorded(cfg: Config, w: World, i: nat, error: string)
    requires Invariant(cfg, w) && Enabled(w, UpstreamThrows(i, error))
    ensures var run, w' := w.runs[i], Do(cfg, w, UpstreamThrows(i, error));
            if run.cancelled || w.requests[run.owner].aborted then
              w'.board == w.board && w'.runs[i].phase == Threw(error)
            else
              && w'.board.log == w.board.log + [Failed(run.provider, w.now)]
              && w'.runs[i].phase == if run.yielded || |run.attempts| > cfg.maxRetries then Threw(error) else Sleeping
  {
  }
}
