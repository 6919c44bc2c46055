/** How far failures can run past the threshold: calls that passed the breaker
    before it opened keep their retries. */
module ProtocolBreaker {
  import opened Unified
  import opened Breaker
  import opened PolicyRules
  import opened Protocol
  import opened ProtocolInvariant

  /** Failures a run may still record. */
  function Cost(cfg: Config, provider: string, run: Run): int {
    if run.provider != provider || RunOver(run.phase) then 0 else cfg.maxRetries + 1 - run.recorded
  }

  function Budget(cfg: Config, provider: string, runs: seq<Run>): int {
    if runs == [] then 0 else Budget(cfg, provider, runs[..|runs| - 1]) + Cost(cfg, provider, runs[|runs| - 1])
  }

  /** Calls to a provider that passed the breaker and are not over. */
  function InFlight(provider: string, runs: seq<Run>): nat {
    if runs == [] then 0 else
      var last := runs[|runs| - 1];
      InFlight(provider, runs[..|runs| - 1]) + if last.provider == provider && !RunOver(last.phase) then 1 else 0
  }

  lemma {:induction false} BudgetUpdate(cfg: Config, provider: string, runs: seq<Run>, i: nat, run: Run)
    requires i < |runs|
    ensures Budget(cfg, provider, runs[i := run])
         == Budget(cfg, provider, runs) - Cost(cfg, provider, runs[i]) + Cost(cfg, provider, run)
  {
    var n := |runs| - 1;
    if i == n {
      assert runs[i := run][..n] == runs[..n];
    } else {
      assert runs[i := run][..n] == runs[..n][i := run];
      BudgetUpdate(cfg, provider, runs[..n], i, run);
    }
  }

  lemma BudgetAppend(cfg: Config, provider: string, runs: seq<Run>, run: Run)
    ensures Budget(cfg, provider, runs + [run]) == Budget(cfg, provider, runs) + Cost(cfg, provider, run)
  {
    assert (runs + [run])[..|runs|] == runs;
  }

  lemma TimesOneMore(n: nat, m: nat)
    ensures (n + 1) * m == n * m + m
  {
  }

  lemma {:induction false} BudgetBound(cfg: Config, provider: string, runs: seq<Run>)
    requires forall i :: 0 <= i < |runs| ==> 0 <= runs[i].recorded <= cfg.maxRetries + 1
    ensures 0 <= Budget(cfg, provider, runs) <= InFlight(provider, runs) * (cfg.maxRetries + 1)
  {
    if runs != [] {
      var before, last := runs[..|runs| - 1], runs[|runs| - 1];
      BudgetBound(cfg, provider, before);
      assert 0 <= Cost(cfg, provider, last) <= cfg.maxRetries + 1;
      if last.provider == provider && !RunOver(last.phase) {
        TimesOneMore(InFlight(provider, before), cfg.maxRetries + 1);
      }
    }
  }

  /** Recorded failures plus what calls in flight can still add. */
  function Exposure(cfg: Config, w: World, provider: string): int {
    Lookup(w.board, provider).failures + Budget(cfg, provider, w.runs)
  }

  lemma NextProviderExposure(cfg: Config, w: World, r: nat, provider: string)
    requires r < |w.requests|
    requires Open(NextProvider(cfg, w, r).board, provider)
    ensures Exposure(cfg, NextProvider(cfg, w, r), provider) <= Exposure(cfg, w, provider)
  {
    var q := w.requests[r];
    if q.tried < |q.chain| {
      BudgetAppend(cfg, provider, w.runs, OpenRun(cfg, w, r, q.chain[q.tried]));
    }
  }

  lemma TeardownExposure(cfg: Config, w: World, r: nat, provider: string)
    requires RequestAt(w, r)
    ensures Exposure(cfg, Teardown(w, r), provider) == Exposure(cfg, w, provider)
  {
    BudgetUpdate(cfg, provider, w.runs, w.requests[r].current, CurrentRun(w, r).(cancelled := true));
  }

  lemma ProviderFailedExposure(cfg: Config, w: World, r: nat, error: string, provider: string)
    requires r < |w.requests|
    requires Open(ProviderFailed(cfg, w, r, error).board, provider)
    ensures Exposure(cfg, ProviderFailed(cfg, w, r, error), provider) <= Exposure(cfg, w, provider)
  {
    var q := w.requests[r].(lastError := Some(error));
    if !q.aborted && !q.yieldedAny {
      NextProviderExposure(cfg, SetRequest(w, r, q), r, provider);
    }
  }

  /** A recorded failure is paid for out of its run's budget. */
  lemma ThrowCosts(cfg: Config, w: World, i: nat, error: string, provider: string)
    requires RunAt(w, i) && w.runs[i].phase.Awaiting? && w.runs[i].recorded <= cfg.maxRetries
    ensures var w' := Throws(cfg, w, i, error);
            && w'.runs == w.runs[i := w'.runs[i]]
            && (Lookup(w'.board, provider).failures + Cost(cfg, provider, w'.runs[i])
                <= Lookup(w.board, provider).failures + Cost(cfg, provider, w.runs[i]))
  {
  }

  lemma ThrowExposure(cfg: Config, w: World, s: Step, provider: string)
    requires Invariant(cfg, w) && Enabled(w, s) && s.UpstreamThrows?
    ensures Exposure(cfg, Do(cfg, w, s), provider) <= Exposure(cfg, w, provider)
  {
    var w' := Do(cfg, w, s);
    assert RunOk(cfg, w.runs[s.i], w.requests[w.runs[s.i].owner].kind);
    ThrowCosts(cfg, w, s.i, s.error, provider);
    BudgetUpdate(cfg, provider, w.runs, s.i, w'.runs[s.i]);
  }

  /** A run that is not yet over records nothing and moves on, or is over. */
  lemma RunMoves(cfg: Config, w: World, i: nat, run: Run, provider: string)
    requires i < |w.runs| && 0 <= w.runs[i].recorded <= cfg.maxRetries + 1 && run.provider == w.runs[i].provider
    requires RunOver(run.phase) || (run.recorded == w.runs[i].recorded && !RunOver(w.runs[i].phase))
    ensures Exposure(cfg, SetRun(w, i, run), provider) <= Exposure(cfg, w, provider)
  {
    BudgetUpdate(cfg, provider, w.runs, i, run);
  }

  lemma EndExposure(cfg: Config, w: World, s: Step, provider: string)
    requires Invariant(cfg, w) && Enabled(w, s) && s.UpstreamEnds?
    requires Open(Do(cfg, w, s).board, provider)
    ensures Exposure(cfg, Do(cfg, w, s), provider) <= Exposure(cfg, w, provider)
  {
    var run := w.runs[s.i];
    assert RunOk(cfg, run, w.requests[run.owner].kind);
    RunMoves(cfg, w, s.i, FireLast(run).(phase := Returned), provider);
  }

  lemma RunStepExposure(cfg: Config, w: World, s: Step, provider: string)
    requires Invariant(cfg, w) && Enabled(w, s)
    requires s.UpstreamYields? || s.BackoffEnds? || s.QueuedReturn?
    ensures Exposure(cfg, Do(cfg, w, s), provider) <= Exposure(cfg, w, provider)
  {
    var run, w' := w.runs[s.i], Do(cfg, w, s);
    assert RunOk(cfg, run, w.requests[run.owner].kind);
    assert w' == SetRun(w, s.i, w'.runs[s.i]);
    RunMoves(cfg, w, s.i, w'.runs[s.i], provider);
  }

  lemma StepExposure(cfg: Config, w: World, s: Step, provider: string)
    requires Invariant(cfg, w) && Enabled(w, s)
    requires Open(Do(cfg, w, s).board, provider)
    ensures Exposure(cfg, Do(cfg, w, s), provider) <= Exposure(cfg, w, provider)
  {
    match s
    case Tick(_) =>
    case CallerAbort(_) =>
    case Begin(kind, model, chain, aborted) =>
      var q := Request(kind, model, chain, 0, 0, false, None, aborted, Pumping, []);
      NextProviderExposure(cfg, w.(requests := w.requests + [q]), |w.requests|, provider);
    case Receive(r) =>
      TeardownExposure(cfg, w, r, provider);
      if CurrentRun(w, r).phase.Threw? {
        ProviderFailedExposure(cfg, Teardown(w, r), r, CurrentRun(w, r).phase.error, provider);
      }
    case IdleTimeout(r) =>
      TeardownExposure(cfg, w, r, provider);
      ProviderFailedExposure(cfg, Teardown(w, r), r, IDLE_TIMEOUT, provider);
    case ConsumerBreaks(r) => TeardownExposure(cfg, w, r, provider);
    case ConsumerPulls(r) =>
      BudgetUpdate(cfg, provider, w.runs, w.requests[r].current, CurrentRun(w, r).(phase := Awaiting));
    case UpstreamThrows(_, _) => ThrowExposure(cfg, w, s, provider);
    case UpstreamEnds(_) => EndExposure(cfg, w, s, provider);
    case _ => RunStepExposure(cfg, w, s, provider);
  }

  lemma {:induction false} ExposureWhileOpen(cfg: Config, ws: seq<World>, a: nat, b: nat, provider: string)
    requires Behaviour(cfg, ws) && a <= b < |ws|
    requires forall k :: a < k <= b ==> Open(ws[k].board, provider)
    ensures Exposure(cfg, ws[b], provider) <= Exposure(cfg, ws[a], provider)
  {
    if a < b {
      ExposureWhileOpen(cfg, ws, a, b - 1, provider);
      AlwaysInvariant(cfg, ws, b - 1);
      assert Next(cfg, ws[b - 1], ws[b - 1 + 1]);
      var s :| Enabled(ws[b - 1], s) && ws[b] == Do(cfg, ws[b - 1], s);
      StepExposure(cfg, ws[b - 1], s, provider);
    }
  }

  /** From the step in which a breaker opens until it next closes, failures
      stay within the threshold plus the retries of the calls that were in
      flight when it opened, whatever those calls are interleaved with. */
  lemma Overshoot(cfg: Config, ws: seq<World>, a: nat, b: nat, provider: string)
    requires Behaviour(cfg, ws) && a < b < |ws|
    requires !Open(ws[a].board, provider)
    requires forall k :: a < k <= b ==> Open(ws[k].board, provider)
    ensures Lookup(ws[b].board, provider).failures
         <= Trip(cfg.limits) - 1 + InFlight(provider, ws[a].runs) * (cfg.maxRetries + 1)
  {
    ExposureWhileOpen(cfg, ws, a, b, provider);
    AlwaysInvariant(cfg, ws, a);
    AlwaysInvariant(cfg, ws, b);
    assert CircuitMatchesLog(cfg.limits, ws[a].board, provider);
    forall w, i | (w == ws[a] || w == ws[b]) && 0 <= i < |w.runs| ensures w.runs[i].recorded <= cfg.maxRetries + 1 {
      assert RunOk(cfg, w.runs[i], w.requests[w.runs[i].owner].kind);
    }
    BudgetBound(cfg, provider, ws[a].runs);
    BudgetBound(cfg, provider, ws[b].runs);
  }
}
