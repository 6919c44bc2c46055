/** The sequential gateway and the interleaved service agree. Close the service
    off around one request: its upstreams follow their scripts, its timers fire
    on time, its caller aborts or breaks off as planned. What is left is one
    history, and it ends where `StreamFrom` and `RespondFrom` say. */
module ProtocolSimulation {
  import opened Unified
  import opened Breaker
  import opened PolicyRules
  import opened Providers
  import opened Policy
  import opened Fallback
  import opened Protocol

  /** Request `r`, and the providers its chain names. */
  datatype Stage = Stage(cfg: Config, r: nat, legs: seq<Leg>)

  /** What is pending around the request: the rest of the current attempt's
      script and when its next gap began, the idle timer, the end of a backoff,
      and the caller's plans. */
  datatype Env = Env(script: Script, since: nat, deadline: Option<nat>, wake: nat, who: Caller)

  datatype Moment = Moment(w: World, env: Env)

  /** What attempt `a` does; a reply is a script that ends or fails in time. */
  function AttemptScript(cfg: Config, kind: Kind, p: AiProvider, a: nat): Script {
    if kind.Streaming? then p.streams(a) else
      var reply := p.replies(a);
      if InTime(cfg, reply) then Finish(reply.gap) else Script.Fail(Miss(cfg, reply).0, Miss(cfg, reply).1)
  }

  /** Around a run that was just opened. */
  function Fresh(st: Stage, w: World, who: Caller): Env {
    if st.r < |w.requests| && 0 < w.requests[st.r].tried <= |st.legs| then
      var q := w.requests[st.r];
      Env(AttemptScript(st.cfg, q.kind, st.legs[q.tried - 1].provider, 0), w.now,
          if q.kind.Streaming? then Some(w.now + st.cfg.idleMs) else None, 0, who)
    else
      Env(Silent, w.now, None, 0, who)
  }

  predicate Late(e: Env, t: nat) {
    e.deadline.Some? && t >= e.deadline.value
  }

  /** When the wait of an awaiting or sleeping run is over, and what ends it. */
  function Target(st: Stage, i: nat, run: Run, e: Env): Option<(nat, Step)> {
    if run.phase.Sleeping? then
      Some(if Late(e, e.wake) then (e.deadline.value, IdleTimeout(st.r)) else (e.wake, BackoffEnds(i)))
    else if e.script.Silent? || Late(e, e.since + e.script.gap) then
      if e.deadline.Some? then Some((e.deadline.value, IdleTimeout(st.r))) else None
    else
      Some((e.since + e.script.gap,
            match e.script
            case Emit(_, event, _) => UpstreamYields(i, event)
            case Finish(_) => UpstreamEnds(i)
            case Fail(_, error) => UpstreamThrows(i, error)))
  }

  predicate AbortDue(e: Env, q: Request, now: nat) {
    !q.aborted && Gone(e.who.abort, now)
  }

  /** A tick that skips neither the target nor the caller's abort. */
  function TickTo(e: Env, q: Request, now: nat, target: nat): Step
    requires now < target
  {
    if !q.aborted && e.who.abort.Some? && now < e.who.abort.value < target then Tick(e.who.abort.value - now)
    else Tick(target - now)
  }

  /** The next step; None when the request is over. */
  function Due(st: Stage, s: Moment): Option<Step> {
    if !RequestAt(s.w, st.r) || s.w.requests[st.r].phase.Over? then None else
      var q, run := s.w.requests[st.r], CurrentRun(s.w, st.r);
      if AbortDue(s.env, q, s.w.now) then Some(CallerAbort(st.r))
      else if q.phase.Parked? then
        Some(if s.env.who.breaksAt == Some(0) then ConsumerBreaks(st.r) else ConsumerPulls(st.r))
      else if run.phase.Awaiting? || run.phase.Sleeping? then
        var t := Target(st, q.current, run, s.env);
        if t.None? then None
        else if s.w.now < t.value.0 then Some(TickTo(s.env, q, s.w.now, t.value.0))
        else Some(t.value.1)
      else
        Some(Receive(st.r))
  }

  function EnvAfter(st: Stage, s: Moment, step: Step, w: World): Env {
    var e := s.env;
    match step
    case UpstreamYields(_, _) => e.(script := if e.script.Emit? then e.script.rest else e.script)
    case UpstreamThrows(i, _) =>
      if i < |w.runs| && w.runs[i].attempts != [] then
        e.(wake := w.now + Backoff(st.cfg, |w.runs[i].attempts| - 1))
      else e
    case BackoffEnds(i) =>
      if i < |w.runs| && w.runs[i].attempts != [] && RequestAt(w, st.r) && 0 < w.requests[st.r].tried <= |st.legs| then
        var q := w.requests[st.r];
        e.(since := w.now, script := AttemptScript(st.cfg, q.kind, st.legs[q.tried - 1].provider,
                                                   |w.runs[i].attempts| - 1))
      else e
    case ConsumerPulls(_) => e.(since := w.now, deadline := Some(w.now + st.cfg.idleMs), who := e.who.After())
    case IdleTimeout(_) => Fresh(st, w, e.who)
    case Receive(_) =>
      if RequestAt(s.w, st.r) && CurrentRun(s.w, st.r).phase.AtYield? then e else Fresh(st, w, e.who)
    case _ => e
  }

  function After(st: Stage, s: Moment): Moment {
    var step := Due(st, s);
    if step.Some? && Enabled(s.w, step.value) then
      var w := Do(st.cfg, s.w, step.value);
      Moment(w, EnvAfter(st, s, step.value, w))
    else s
  }

  /** The history: `n` steps on from `s`. */
  function Steps(st: Stage, s: Moment, n: nat): Moment
    decreases n
  {
    if n == 0 then s else Steps(st, After(st, s), n - 1)
  }

  ghost predicate RunsTo(st: Stage, s: Moment, s': Moment) {
    exists n: nat :: Steps(st, s, n) == s'
  }

  lemma RunsOne(st: Stage, s: Moment)
    ensures RunsTo(st, s, After(st, s))
  {
    assert Steps(st, After(st, s), 0) == After(st, s);
    assert Steps(st, s, 1) == After(st, s);
  }

  lemma RunsNone(st: Stage, s: Moment)
    ensures RunsTo(st, s, s)
  {
    assert Steps(st, s, 0) == s;
  }

  lemma {:induction false} StepsAdd(st: Stage, s: Moment, a: nat, b: nat)
    ensures Steps(st, s, a + b) == Steps(st, Steps(st, s, a), b)
    decreases a
  {
    if a > 0 {
      StepsAdd(st, After(st, s), a - 1, b);
    }
  }

  lemma RunsOn(st: Stage, s: Moment, s1: Moment, s2: Moment)
    requires RunsTo(st, s, s1) && RunsTo(st, s1, s2)
    ensures RunsTo(st, s, s2)
  {
    var a: nat :| Steps(st, s, a) == s1;
    var b: nat :| Steps(st, s1, b) == s2;
    StepsAdd(st, s, a, b);
  }

  // ---- One request and its current run ----

  datatype View = View(now: nat, board: Board, q: Request, run: Run, env: Env)

  predicate Shows(s: Moment, r: nat, v: View) {
    && r < |s.w.requests| && s.w.requests[r] == v.q
    && v.q.current < |s.w.runs| && s.w.runs[v.q.current] == v.run && v.run.owner == r
    && s.w.now == v.now && s.w.board == v.board && s.env == v.env
  }

  /** The abort flag is up to date. */
  predicate Flagged(v: View) {
    v.q.aborted == Gone(v.env.who.abort, v.now)
  }

  function At(v: View, t: nat): View {
    v.(now := t, q := v.q.(aborted := Gone(v.env.who.abort, t)))
  }

  /** The current run stands for provider `p`. */
  ghost predicate Serving(st: Stage, v: View, p: AiProvider) {
    && v.run.provider == p.name && 0 < v.q.tried <= |st.legs| && st.legs[v.q.tried - 1].provider == p
    && !v.run.cancelled && v.q.phase.Pumping? && Flagged(v)
    && (v.q.kind.Streaming? <==> v.env.deadline.Some?)
    && (v.q.yieldedAny <==> v.q.out != [])
  }

  /** The gateway waits for attempt `attempt`, whose script is now at `script`. */
  ghost predicate Busy(st: Stage, v: View, p: AiProvider, attempt: nat, script: Script, yielded: bool) {
    && Serving(st, v, p)
    && v.run.phase.Awaiting? && |v.run.attempts| == attempt + 1
    && v.run.yielded == v.q.yieldedAny == yielded
    && v.env.script == script && v.env.since == v.now
  }

  lemma Fire(st: Stage, s: Moment, v: View, step: Step) returns (s': Moment)
    requires Shows(s, st.r, v) && Due(st, s) == Some(step) && Enabled(s.w, step)
    ensures RunsTo(st, s, s')
    ensures s' == Moment(Do(st.cfg, s.w, step), EnvAfter(st, s, step, Do(st.cfg, s.w, step)))
  {
    RunsOne(st, s);
    s' := After(st, s);
  }

  lemma WaitPlain(st: Stage, s: Moment, v: View, t: nat, step: Step) returns (s': Moment)
    requires Shows(s, st.r, v) && Flagged(v) && v.q.phase.Pumping? && (v.run.phase.Awaiting? || v.run.phase.Sleeping?)
    requires v.now <= t && Target(st, v.q.current, v.run, v.env) == Some((t, step))
    requires v.q.aborted == Gone(v.env.who.abort, t)
    ensures RunsTo(st, s, s') && Shows(s', st.r, At(v, t)) && Due(st, s') == Some(step)
  {
    if v.now == t {
      RunsNone(st, s);
      s' := s;
    } else {
      s' := Fire(st, s, v, Tick(t - v.now));
    }
  }

  /** The clock runs to the target, past the caller's abort if that comes first. */
  lemma Wait(st: Stage, s: Moment, v: View, t: nat, step: Step) returns (s': Moment)
    requires Shows(s, st.r, v) && Flagged(v) && v.q.phase.Pumping? && (v.run.phase.Awaiting? || v.run.phase.Sleeping?)
    requires v.now <= t && Target(st, v.q.current, v.run, v.env) == Some((t, step))
    ensures RunsTo(st, s, s') && Shows(s', st.r, At(v, t)) && Due(st, s') == Some(step)
  {
    if v.q.aborted == Gone(v.env.who.abort, t) {
      s' := WaitPlain(st, s, v, t, step);
    } else {
      var a := v.env.who.abort.value;
      var v1 := v.(now := a);
      var s1 := Fire(st, s, v, Tick(a - v.now));
      assert Shows(s1, st.r, v1);
      var s2 := Fire(st, s1, v1, CallerAbort(st.r));
      RunsOn(st, s, s1, s2);
      s' := WaitPlain(st, s2, At(v, a), t, step);
      RunsOn(st, s, s2, s');
    }
  }

  // ---- One pull ----

  /** What the view is when a pull of `v` came to `x`. */
  ghost predicate Pulls(st: Stage, v: View, p: AiProvider, x: Pulled, v': View) {
    && v'.board == x.board && v'.now == x.now && v'.env.who == v.env.who
    && match x.result
       case Value(event) =>
         && v'.q == At(v, x.now).q.(phase := Parked, yieldedAny := true, out := v.q.out + [event])
         && v'.run.phase.AtYield? && v'.run.yielded && !v'.run.cancelled && v'.run.provider == p.name
         && x.gen.Reading? && |v'.run.attempts| == x.gen.attempt + 1 && v'.env.script == x.gen.rest
       case Ended => v'.q == At(v, x.now).q && v'.run.phase.Returned?
       case Thrown(error) => v'.q == At(v, x.now).q && v'.run.phase == Threw(error)
       case Pending => v'.q == At(v, x.now).q && (v'.run.phase.Awaiting? || v'.run.phase.Sleeping?)
  }

  /** A moment whose idle timer fires now. */
  predicate Idles(st: Stage, s: Moment) {
    Due(st, s) == Some(IdleTimeout(st.r))
  }

  lemma Yields(st: Stage, s: Moment, v: View, p: AiProvider, attempt: nat, script: Script, yielded: bool)
    returns (s': Moment, v': View)
    requires Shows(s, st.r, v) && Busy(st, v.(env := v.env.(since := v.now)), p, attempt, script, yielded)
    requires v.q.kind.Streaming? && script.Emit? && Due(st, s) == Some(UpstreamYields(v.q.current, script.event))
    ensures RunsTo(st, s, s') && Shows(s', st.r, v')
    ensures Pulls(st, v, p, Pulled(Value(script.event), Reading(attempt, script.rest), v.board, v.now), v')
  {
    var i := v.q.current;
    var s1 := Fire(st, s, v, UpstreamYields(i, script.event));
    var v1 := View(v.now, v.board, v.q, s1.w.runs[i], s1.env);
    assert Due(st, s1) == Some(Receive(st.r));
    s' := Fire(st, s1, v1, Receive(st.r));
    RunsOn(st, s, s1, s');
    v' := View(v.now, v.board, s'.w.requests[st.r], s'.w.runs[i], s'.env);
  }

  lemma Ends(st: Stage, s: Moment, v: View, p: AiProvider, attempt: nat, script: Script, yielded: bool)
    returns (s': Moment, v': View)
    requires Shows(s, st.r, v) && Busy(st, v.(env := v.env.(since := v.now)), p, attempt, script, yielded)
    requires Due(st, s) == Some(UpstreamEnds(v.q.current))
    ensures RunsTo(st, s, s') && Shows(s', st.r, v')
    ensures Pulls(st, v, p, Pulled(Ended, Gen.Over, AfterSuccess(v.board, p.name), v.now), v')
    ensures |v'.run.attempts| == attempt + 1
  {
    var i := v.q.current;
    s' := Fire(st, s, v, UpstreamEnds(i));
    v' := View(v.now, s'.w.board, v.q, s'.w.runs[i], s'.env);
  }

  /** A throw is left unrecorded, recorded and given up, or slept on. */
  lemma Fails(st: Stage, s: Moment, v: View, p: AiProvider, attempt: nat, script: Script, yielded: bool)
    returns (s': Moment, v': View)
    requires Shows(s, st.r, v) && Busy(st, v.(env := v.env.(since := v.now)), p, attempt, script, yielded)
    requires script.Fail? && Due(st, s) == Some(UpstreamThrows(v.q.current, script.error))
    ensures RunsTo(st, s, s') && Shows(s', st.r, v')
    ensures v'.q == v.q && v'.now == v.now && Serving(st, v', p) && |v'.run.attempts| == attempt + 1
    ensures v'.env == v.env.(wake := v.now + Backoff(st.cfg, attempt))
    ensures var verdict := AfterThrow(st.cfg, attempt, yielded, Gone(v.env.who.abort, v.now));
            && v'.board == (if verdict.GiveUpUnrecorded? then v.board
                            else AfterFailure(st.cfg.limits, v.board, p.name, v.now))
            && v'.run.phase == if verdict.RecordAndRetry? then Sleeping else Threw(script.error)
  {
    var i := v.q.current;
    s' := Fire(st, s, v, UpstreamThrows(i, script.error));
    v' := View(v.now, s'.w.board, v.q, s'.w.runs[i], s'.env);
  }

  lemma Retries(st: Stage, s: Moment, v: View, p: AiProvider, attempt: nat) returns (s': Moment, v': View)
    requires Shows(s, st.r, v) && Serving(st, v, p) && v.run.phase.Sleeping? && |v.run.attempts| == attempt + 1
    requires !v.q.yieldedAny && Due(st, s) == Some(BackoffEnds(v.q.current))
    ensures RunsTo(st, s, s') && Shows(s', st.r, v')
    ensures Busy(st, v', p, attempt + 1, AttemptScript(st.cfg, v.q.kind, p, attempt + 1), false)
    ensures v'.q == v.q && v'.now == v.now && v'.board == v.board
    ensures v'.env.who == v.env.who && v'.env.deadline == v.env.deadline
  {
    var i := v.q.current;
    s' := Fire(st, s, v, BackoffEnds(i));
    v' := View(v.now, v.board, v.q, s'.w.runs[i], s'.env);
  }

  lemma PullSucceeds(st: Stage, s: Moment, v: View, p: AiProvider, attempt: nat, script: Script, yielded: bool,
                     left: nat)
    returns (s': Moment, v': View)
    requires Shows(s, st.r, v) && Busy(st, v, p, attempt, script, yielded)
    requires v.q.kind.Streaming? && v.env.deadline == Some(v.now + left)
    requires (script.Emit? || script.Finish?) && script.gap < left
    ensures var x := Drive(st.cfg, v.env.who.abort, p, attempt, script, yielded, left, v.board, v.now);
            RunsTo(st, s, s') && Shows(s', st.r, v') && Pulls(st, v, p, x, v') && !x.result.Pending?
  {
    var t := v.now + script.gap;
    var s1;
    if script.Emit? {
      s1 := Wait(st, s, v, t, UpstreamYields(v.q.current, script.event));
      s', v' := Yields(st, s1, At(v, t), p, attempt, script, yielded);
    } else {
      s1 := Wait(st, s, v, t, UpstreamEnds(v.q.current));
      s', v' := Ends(st, s1, At(v, t), p, attempt, script, yielded);
    }
    RunsOn(st, s, s1, s');
  }

  lemma PullFails(st: Stage, s: Moment, v: View, p: AiProvider, attempt: nat, script: Script, yielded: bool)
    returns (s': Moment, v': View)
    requires Shows(s, st.r, v) && Busy(st, v, p, attempt, script, yielded)
    requires script.Fail? && !Late(v.env, v.now + script.gap)
    ensures RunsTo(st, s, s') && Shows(s', st.r, v')
    ensures var t := v.now + script.gap;
            var verdict := AfterThrow(st.cfg, attempt, yielded, Gone(v.env.who.abort, t));
            && v'.q == At(v, t).q && v'.now == t && Serving(st, v', p) && |v'.run.attempts| == attempt + 1
            && v'.env == v.env.(wake := t + Backoff(st.cfg, attempt))
            && v'.board == (if verdict.GiveUpUnrecorded? then v.board
                            else AfterFailure(st.cfg.limits, v.board, p.name, t))
            && v'.run.phase == if verdict.RecordAndRetry? then Sleeping else Threw(script.error)
  {
    var t := v.now + script.gap;
    var s1 := Wait(st, s, v, t, UpstreamThrows(v.q.current, script.error));
    s', v' := Fails(st, s1, At(v, t), p, attempt, script, yielded);
    RunsOn(st, s, s1, s');
  }

  /** What a pull comes to that backs off after attempt `attempt`, `gap` of its
      time `left` having gone by. */
  function AfterBackoff(cfg: Config, abort: Option<nat>, p: AiProvider, attempt: nat, gap: nat, left: nat, board: Board,
                        now: nat): Pulled
    requires gap <= now && gap < left
  {
    var wait := gap + Backoff(cfg, attempt);
    if wait >= left then Pulled(Pending, Gen.Over, board, now - gap + left)
    else Drive(cfg, abort, p, attempt + 1, p.streams(attempt + 1), false, left - wait, board, now - gap + wait)
  }

  lemma DriveBacksOff(cfg: Config, abort: Option<nat>, p: AiProvider, attempt: nat, script: Script, left: nat,
                      board: Board, now: nat)
    requires script.Fail? && script.gap < left && attempt < cfg.maxRetries && !Gone(abort, now + script.gap)
    ensures var at := now + script.gap;
            Drive(cfg, abort, p, attempt, script, false, left, board, now)
            == AfterBackoff(cfg, abort, p, attempt, script.gap, left, AfterFailure(cfg.limits, board, p.name, at), at)
  {
  }

  /** What is pulled later in the same wait is pulled from its start. */
  lemma PullsEarlier(st: Stage, v: View, v1: View, p: AiProvider, x: Pulled, v': View)
    requires Pulls(st, v1, p, x, v') && v1.env.who == v.env.who && v1.q == At(v, v1.now).q
    ensures Pulls(st, v, p, x, v')
  {
    assert At(v1, x.now).q == At(v, x.now).q;
  }

  /** One pull of the sequential stream is the next few steps of the history. */
  lemma {:induction false} SimulatePull(st: Stage, s: Moment, v: View, p: AiProvider, attempt: nat, script: Script,
                                        yielded: bool, left: nat) returns (s': Moment, v': View)
    requires Shows(s, st.r, v) && Busy(st, v, p, attempt, script, yielded)
    requires v.q.kind.Streaming? && v.env.deadline == Some(v.now + left)
    ensures RunsTo(st, s, s') && Shows(s', st.r, v')
    ensures var x := Drive(st.cfg, v.env.who.abort, p, attempt, script, yielded, left, v.board, v.now);
            Pulls(st, v, p, x, v') && (x.result.Pending? ==> Idles(st, s'))
    decreases st.cfg.maxRetries - attempt
  {
    if script.Silent? || script.gap >= left {
      s' := Lapses(st, s, v, p, v.now + left, v.board);
      v' := At(v, v.now + left);
    } else if script.Fail? {
      s', v' := SimulateFail(st, s, v, p, attempt, script, yielded, left);
    } else {
      s', v' := PullSucceeds(st, s, v, p, attempt, script, yielded, left);
    }
  }

  lemma {:induction false} SimulateFail(st: Stage, s: Moment, v: View, p: AiProvider, attempt: nat, script: Script,
                                        yielded: bool, left: nat) returns (s': Moment, v': View)
    requires Shows(s, st.r, v) && Busy(st, v, p, attempt, script, yielded)
    requires v.q.kind.Streaming? && v.env.deadline == Some(v.now + left) && script.Fail? && script.gap < left
    ensures RunsTo(st, s, s') && Shows(s', st.r, v')
    ensures var x := Drive(st.cfg, v.env.who.abort, p, attempt, script, yielded, left, v.board, v.now);
            Pulls(st, v, p, x, v') && (x.result.Pending? ==> Idles(st, s'))
    decreases st.cfg.maxRetries - attempt, 1
  {
    var s1, v1 := PullFails(st, s, v, p, attempt, script, yielded);
    if v1.run.phase.Sleeping? {
      DriveBacksOff(st.cfg, v.env.who.abort, p, attempt, script, left, v.board, v.now);
      s', v' := SimulateRetry(st, s1, v1, p, attempt, script.gap, left);
      RunsOn(st, s, s1, s');
      var x := AfterBackoff(st.cfg, v.env.who.abort, p, attempt, script.gap, left, v1.board, v1.now);
      PullsEarlier(st, v, v1, p, x, v');
    } else {
      s', v' := s1, v1;
    }
  }

  /** A backoff that ends before the idle timer fires. */
  lemma RetryStarts(st: Stage, s: Moment, v: View, p: AiProvider, attempt: nat) returns (s': Moment, v': View)
    requires Shows(s, st.r, v) && Serving(st, v, p) && v.run.phase.Sleeping? && |v.run.attempts| == attempt + 1
    requires !v.q.yieldedAny && v.now <= v.env.wake && !Late(v.env, v.env.wake)
    ensures RunsTo(st, s, s') && Shows(s', st.r, v')
    ensures Busy(st, v', p, attempt + 1, AttemptScript(st.cfg, v.q.kind, p, attempt + 1), false)
    ensures v'.q == At(v, v.env.wake).q && v'.now == v.env.wake && v'.board == v.board
    ensures v'.env.who == v.env.who && v'.env.deadline == v.env.deadline
  {
    var s1 := Wait(st, s, v, v.env.wake, BackoffEnds(v.q.current));
    s', v' := Retries(st, s1, At(v, v.env.wake), p, attempt);
    RunsOn(st, s, s1, s');
  }

  /** The idle timer fires while the run waits or sleeps. */
  lemma Lapses(st: Stage, s: Moment, v: View, p: AiProvider, t: nat, board: Board) returns (s': Moment)
    requires Shows(s, st.r, v) && Serving(st, v, p) && (v.run.phase.Awaiting? || v.run.phase.Sleeping?)
    requires v.now <= t && v.board == board
    requires Target(st, v.q.current, v.run, v.env) == Some((t, IdleTimeout(st.r)))
    ensures RunsTo(st, s, s') && Shows(s', st.r, At(v, t)) && Idles(st, s')
    ensures Pulls(st, v, p, Pulled(Pending, Gen.Over, board, t), At(v, t))
  {
    s' := Wait(st, s, v, t, IdleTimeout(st.r));
  }

  /** A backoff that leaves time for the next attempt. */
  lemma RetryInTime(st: Stage, s: Moment, v: View, p: AiProvider, attempt: nat, gap: nat, left: nat)
    returns (s': Moment, v': View)
    requires Shows(s, st.r, v) && Serving(st, v, p) && v.run.phase.Sleeping? && |v.run.attempts| == attempt + 1
    requires !v.q.yieldedAny && gap + Backoff(st.cfg, attempt) < left && gap <= v.now
    requires v.q.kind.Streaming? && v.env.deadline == Some(v.now - gap + left)
    requires v.env.wake == v.now + Backoff(st.cfg, attempt)
    ensures RunsTo(st, s, s') && Shows(s', st.r, v')
    ensures var rest := left - (gap + Backoff(st.cfg, attempt));
            && Busy(st, v', p, attempt + 1, p.streams(attempt + 1), false)
            && v'.q.kind.Streaming? && v'.env.deadline == Some(v'.now + rest)
            && v'.env.who == v.env.who && v'.q == At(v, v'.now).q
            && AfterBackoff(st.cfg, v.env.who.abort, p, attempt, gap, left, v.board, v.now)
               == Drive(st.cfg, v'.env.who.abort, p, attempt + 1, p.streams(attempt + 1), false, rest, v'.board, v'.now)
  {
    s', v' := RetryStarts(st, s, v, p, attempt);
  }

  lemma {:induction false} SimulateRetry(st: Stage, s: Moment, v: View, p: AiProvider, attempt: nat, gap: nat,
                                         left: nat)
    returns (s': Moment, v': View)
    requires Shows(s, st.r, v) && Serving(st, v, p) && v.run.phase.Sleeping? && |v.run.attempts| == attempt + 1
    requires !v.q.yieldedAny && attempt < st.cfg.maxRetries && gap < left && gap <= v.now
    requires v.q.kind.Streaming? && v.env.deadline == Some(v.now - gap + left)
    requires v.env.wake == v.now + Backoff(st.cfg, attempt)
    ensures RunsTo(st, s, s') && Shows(s', st.r, v')
    ensures var x := AfterBackoff(st.cfg, v.env.who.abort, p, attempt, gap, left, v.board, v.now);
            Pulls(st, v, p, x, v') && (x.result.Pending? ==> Idles(st, s'))
    decreases st.cfg.maxRetries - attempt, 0
  {
    if gap + Backoff(st.cfg, attempt) >= left {
      s' := Lapses(st, s, v, p, v.now - gap + left, v.board);
      v' := At(v, v.now - gap + left);
    } else {
      var s1, v1 := RetryInTime(st, s, v, p, attempt, gap, left);
      s', v' := SimulatePull(st, s1, v1, p, attempt + 1, p.streams(attempt + 1), false,
                             left - (gap + Backoff(st.cfg, attempt)));
      RunsOn(st, s, s1, s');
      PullsEarlier(st, v, v1, p, AfterBackoff(st.cfg, v.env.who.abort, p, attempt, gap, left, v.board, v.now), v');
    }
  }

  // ---- The pump ----

  /** The rest of the pump after a pull came to `x`. */
  function PumpFrom(cfg: Config, who: Caller, p: AiProvider, x: Pulled): Pumped {
    match x.result
    case Value(event) =>
      if who.breaksAt == Some(0) then Pumped([event], Left, x.board, x.now) else
        var rest := Pump(cfg, who.After(), p, x.gen, x.board, x.now);
        rest.(events := [event] + rest.events)
    case Ended => Pumped([], Completed, x.board, x.now)
    case Thrown(error) => Pumped([], Broken(error), x.board, x.now)
    case Pending => Pumped([], Broken(IDLE_TIMEOUT), x.board, x.now)
  }

  /** The request is over with this output. */
  ghost predicate Done(st: Stage, s: Moment, board: Board, out: seq<StreamEvent>) {
    && st.r < |s.w.requests| && s.w.requests[st.r].phase.Over? && s.w.requests[st.r].out == out && s.w.board == board
    && Due(st, s).None?
  }

  /** The moment in which request `r` of `w` has gone on to its next provider. */
  function Onto(st: Stage, w: World, who: Caller): Moment
    requires st.r < |w.requests|
  {
    var w' := NextProvider(st.cfg, w, st.r);
    Moment(w', Fresh(st, w', who))
  }

  /** Request `r` of `w` stands at `q`, after `error`. */
  predicate Onward(st: Stage, w: World, q: Request, error: string, board: Board, now: nat) {
    && st.r < |w.requests| && w.board == board && w.now == now
    && w.requests[st.r] == q.(lastError := Some(error), phase := w.requests[st.r].phase, aborted := false)
  }

  /** Where the pump over one provider, entered in `s` with the request at `q`,
      leads: to the end of the request, or on to the next provider from `w`. */
  ghost predicate Lands(st: Stage, s: Moment, q: Request, who: Caller, x: Pumped, s': Moment, w: World) {
    var out := q.out + x.events;
    && RunsTo(st, s, s')
    && if x.end.Broken? && !Gone(who.abort, x.now) && out == [] then
         Onward(st, w, q, x.end.error, x.board, x.now) && s' == Onto(st, w, who)
       else
         Done(st, s', x.board,
              if x.end.Broken? && !Gone(who.abort, x.now) then out + [ErrorEvent(x.end.error)] else out)
  }

  lemma PullBreaks(st: Stage, s: Moment, v: View, p: AiProvider, x: Pulled, v0: View) returns (s': Moment, w: World)
    requires Shows(s, st.r, v) && Pulls(st, v0, p, x, v) && !x.result.Value?
    requires v0.q.kind.Streaming? && v0.q.phase.Pumping? && (v0.q.yieldedAny <==> v0.q.out != [])
    requires x.result.Pending? ==> Idles(st, s)
    ensures Lands(st, s, v0.q, v0.env.who, PumpFrom(st.cfg, v0.env.who, p, x), s', w)
  {
    assert v.q.out + [] == v.q.out;
    s' := Fire(st, s, v, if x.result.Pending? then IdleTimeout(st.r) else Receive(st.r));
    w := Teardown(s.w, st.r);
    if !x.result.Ended? {
      var error := if x.result.Thrown? then x.result.error else IDLE_TIMEOUT;
      w := SetRequest(w, st.r, w.requests[st.r].(lastError := Some(error)));
    }
  }

  lemma PullLeaves(st: Stage, s: Moment, v: View, p: AiProvider, x: Pulled, v0: View) returns (s': Moment)
    requires Shows(s, st.r, v) && Pulls(st, v0, p, x, v) && x.result.Value? && v0.env.who.breaksAt == Some(0)
    ensures RunsTo(st, s, s') && Done(st, s', x.board, v0.q.out + [x.result.event])
  {
    s' := Fire(st, s, v, ConsumerBreaks(st.r));
  }

  lemma PullAgain(st: Stage, s: Moment, v: View, p: AiProvider, x: Pulled, v0: View) returns (s': Moment, v': View)
    requires Shows(s, st.r, v) && Pulls(st, v0, p, x, v) && x.result.Value? && v0.env.who.breaksAt != Some(0)
    requires Serving(st, v0, p) && v0.q.kind.Streaming?
    ensures RunsTo(st, s, s') && Shows(s', st.r, v') && Busy(st, v', p, x.gen.attempt, x.gen.rest, true)
    ensures v'.q == At(v0, x.now).q.(yieldedAny := true, out := v0.q.out + [x.result.event])
    ensures v'.board == x.board && v'.now == x.now && v'.env.who == v0.env.who.After()
    ensures v'.env.deadline == Some(x.now + st.cfg.idleMs)
  {
    s' := Fire(st, s, v, ConsumerPulls(st.r));
    v' := View(v.now, v.board, s'.w.requests[st.r], s'.w.runs[v.q.current], s'.env);
  }

  lemma LandsEarlier(st: Stage, s: Moment, mid: Moment, q: Request, who: Caller, x: Pumped, s': Moment, w: World)
    requires RunsTo(st, s, mid) && Lands(st, mid, q, who, x, s', w)
    ensures Lands(st, s, q, who, x, s', w)
  {
    RunsOn(st, s, mid, s');
  }

  lemma LandsWith(st: Stage, s: Moment, q: Request, who: Caller, q': Request, event: StreamEvent, x: Pumped,
                  s': Moment, w: World)
    requires q'.out == q.out + [event] && Lands(st, s, q', who.After(), x, s', w)
    ensures Lands(st, s, q, who, x.(events := [event] + x.events), s', w)
  {
    assert q'.out + x.events == q.out + ([event] + x.events);
  }

  /** The pump of the sequential model is the next part of the history. */
  lemma {:induction false} SimulatePump(st: Stage, s: Moment, v: View, p: AiProvider, attempt: nat, script: Script,
                                        yielded: bool) returns (s': Moment, w: World)
    requires Shows(s, st.r, v) && Busy(st, v, p, attempt, script, yielded)
    requires v.q.kind.Streaming? && v.env.deadline == Some(v.now + st.cfg.idleMs)
    ensures var x := Drive(st.cfg, v.env.who.abort, p, attempt, script, yielded, st.cfg.idleMs, v.board, v.now);
            Lands(st, s, v.q, v.env.who, PumpFrom(st.cfg, v.env.who, p, x), s', w)
    decreases if yielded then 0 else 1, script
  {
    var who := v.env.who;
    var x := Drive(st.cfg, who.abort, p, attempt, script, yielded, st.cfg.idleMs, v.board, v.now);
    var s1, v1 := SimulatePull(st, s, v, p, attempt, script, yielded, st.cfg.idleMs);
    if !x.result.Value? {
      s', w := PullBreaks(st, s1, v1, p, x, v);
    } else if who.breaksAt == Some(0) {
      s' := PullLeaves(st, s1, v1, p, x, v);
      w := s'.w;
    } else {
      DriveGen(st.cfg, who.abort, p, attempt, script, yielded, st.cfg.idleMs, v.board, v.now);
      var s2, v2 := PullAgain(st, s1, v1, p, x, v);
      s', w := SimulatePump(st, s2, v2, p, x.gen.attempt, x.gen.rest, true);
      LandsWith(st, s2, v.q, who, v2.q, x.result.event, Pump(st.cfg, who.After(), p, x.gen, x.board, x.now), s', w);
      LandsEarlier(st, s1, s2, v.q, who, PumpFrom(st.cfg, who, p, x), s', w);
    }
    LandsEarlier(st, s, s1, v.q, who, PumpFrom(st.cfg, who, p, x), s', w);
  }

  // ---- The provider loop ----

  function NamesOf(chain: seq<Leg>): (names: seq<string>)
    ensures |names| == |chain| && forall i :: 0 <= i < |chain| ==> names[i] == chain[i].provider.name
  {
    seq(|chain|, i requires 0 <= i < |chain| => chain[i].provider.name)
  }

  /** Request `r` is about to try the providers from `tried` on. */
  predicate Facing(st: Stage, w: World, who: Caller, kind: Kind, model: string, lastError: Option<string>, tried: nat) {
    && st.r < |w.requests|
    && var q := w.requests[st.r];
    && q.kind == kind && q.model == model && q.lastError == lastError && q.tried == tried <= |st.legs|
    && q.chain == NamesOf(st.legs) && q.out == [] && q.aborted == Gone(who.abort, w.now)
  }

  /** What is shown when the next provider's run has been opened. */
  lemma Opens(st: Stage, w: World, who: Caller, kind: Kind, model: string, lastError: Option<string>, tried: nat)
    returns (v: View)
    requires Facing(st, w, who, kind, model, lastError, tried) && tried < |st.legs|
    ensures var p := st.legs[tried].provider;
            && Shows(Onto(st, w, who), st.r, v) && Serving(st, v, p)
            && v.q == w.requests[st.r].(tried := tried + 1, current := |w.runs|, yieldedAny := false, phase := Pumping)
            && v.now == w.now && v.env == Fresh(st, NextProvider(st.cfg, w, st.r), who)
            && v.env.script == AttemptScript(st.cfg, kind, p, 0) && v.env.since == w.now && v.env.who == who
            && v.env.deadline == (if kind.Streaming? then Some(w.now + st.cfg.idleMs) else None)
            && v.run == OpenRun(st.cfg, w, st.r, p.name)
            && v.board == if Admits(st.cfg.limits, w.board, p.name, w.now) then AfterCheck(w.board, p.name) else w.board
  {
    var s := Onto(st, w, who);
    v := View(s.w.now, s.w.board, s.w.requests[st.r], s.w.runs[|w.runs|], s.env);
  }

  lemma SimulateProvider(st: Stage, w: World, who: Caller, model: string, lastError: Option<string>, tried: nat)
    returns (s': Moment, w': World, q: Request)
    requires Facing(st, w, who, Streaming, model, lastError, tried) && tried < |st.legs|
    ensures var x := Pump(st.cfg, who, st.legs[tried].provider, Unopened, w.board, w.now);
            Lands(st, Onto(st, w, who), q, who, x, s', w')
    ensures q == w.requests[st.r].(tried := tried + 1, current := |w.runs|, yieldedAny := false, phase := Pumping)
  {
    var p := st.legs[tried].provider;
    var s := Onto(st, w, who);
    var v := Opens(st, w, who, Streaming, model, lastError, tried);
    q := v.q;
    var x := PullFrom(st.cfg, who.abort, p, Unopened, st.cfg.idleMs, w.board, w.now);
    if v.run.phase.Awaiting? {
      s', w' := SimulatePump(st, s, v, p, 0, p.streams(0), false);
    } else {
      s', w' := PullBreaks(st, s, v, p, x, v);
    }
    assert Pump(st.cfg, who, p, Unopened, w.board, w.now) == PumpFrom(st.cfg, who, p, x);
  }

  lemma {:induction false} SimulateChain(st: Stage, w: World, who: Caller, model: string, lastError: Option<string>,
                                         tried: nat) returns (s': Moment)
    requires Facing(st, w, who, Streaming, model, lastError, tried)
    ensures var (out, board) := StreamFrom(st.cfg, who, model, st.legs[tried..], lastError, w.board, w.now);
            RunsTo(st, Onto(st, w, who), s') && Done(st, s', board, out)
    decreases |st.legs| - tried
  {
    var s := Onto(st, w, who);
    if tried == |st.legs| {
      RunsNone(st, s);
      s' := s;
      var report := [ErrorEvent(AllFailedMessage(lastError, model))];
      assert [] + report == report;
    } else {
      assert st.legs[tried..][0] == st.legs[tried] && st.legs[tried..][1..] == st.legs[tried + 1..];
      var x := Pump(st.cfg, who, st.legs[tried].provider, Unopened, w.board, w.now);
      var s1, w1, q := SimulateProvider(st, w, who, model, lastError, tried);
      assert q.out + x.events == x.events;
      if x.end.Broken? && !Gone(who.abort, x.now) && x.events == [] {
        s' := SimulateChain(st, w1, who, model, Some(x.end.error), tried + 1);
        RunsOn(st, s, s1, s');
      } else {
        s' := s1;
      }
    }
  }

  // ---- The non-streaming path ----

  /** What the view is when the call of `v` came to `x`. */
  ghost predicate Executes(v: View, p: AiProvider, x: Executed, v': View) {
    && v'.board == x.board && v'.now == x.now && v'.env.who == v.env.who && v'.q == At(v, x.now).q
    && match x.answer
       case Answered(text) => v'.run.phase.Returned? && IsReply(p, v'.run, text)
       case Refused(error) => v'.run.phase == Threw(error)
  }

  /** The text is what the run's last attempt resolved to. */
  predicate IsReply(p: AiProvider, run: Run, text: string) {
    run.attempts != [] &&
    var reply := p.replies(|run.attempts| - 1);
    reply.Resolves? && reply.response == text
  }

  lemma CallSucceeds(st: Stage, s: Moment, v: View, p: AiProvider, attempt: nat) returns (s': Moment, v': View)
    requires Shows(s, st.r, v) && Busy(st, v, p, attempt, AttemptScript(st.cfg, Unary, p, attempt), false)
    requires v.q.kind.Unary? && InTime(st.cfg, p.replies(attempt))
    ensures RunsTo(st, s, s') && Shows(s', st.r, v')
    ensures Executes(v, p, Execute(st.cfg, v.env.who.abort, p, attempt, v.board, v.now), v')
  {
    var t := v.now + p.replies(attempt).gap;
    var s1 := Wait(st, s, v, t, UpstreamEnds(v.q.current));
    s', v' := Ends(st, s1, At(v, t), p, attempt, AttemptScript(st.cfg, Unary, p, attempt), false);
    RunsOn(st, s, s1, s');
  }

  lemma CallMisses(st: Stage, s: Moment, v: View, p: AiProvider, attempt: nat) returns (s': Moment, v': View)
    requires Shows(s, st.r, v) && Busy(st, v, p, attempt, AttemptScript(st.cfg, Unary, p, attempt), false)
    requires v.q.kind.Unary? && !InTime(st.cfg, p.replies(attempt))
    ensures RunsTo(st, s, s') && Shows(s', st.r, v')
    ensures var x := Execute(st.cfg, v.env.who.abort, p, attempt, v.board, v.now);
            if v'.run.phase.Threw? then Executes(v, p, x, v') else
              && attempt < st.cfg.maxRetries
              && Busy(st, v', p, attempt + 1, AttemptScript(st.cfg, Unary, p, attempt + 1), false)
              && v'.env.who == v.env.who && v'.q == At(v, v'.now).q
              && x == Execute(st.cfg, v'.env.who.abort, p, attempt + 1, v'.board, v'.now)
  {
    s', v' := PullFails(st, s, v, p, attempt, AttemptScript(st.cfg, Unary, p, attempt), false);
    if v'.run.phase.Sleeping? {
      var s1 := s';
      s', v' := RetryStarts(st, s1, v', p, attempt);
      RunsOn(st, s, s1, s');
    }
  }

  lemma ExecutesEarlier(v: View, v1: View, p: AiProvider, x: Executed, v': View)
    requires Executes(v1, p, x, v') && v1.env.who == v.env.who && v1.q == At(v, v1.now).q
    ensures Executes(v, p, x, v')
  {
    assert At(v1, x.now).q == At(v, x.now).q;
  }

  /** The retry loop of a non-streaming call is the next part of the history. */
  lemma {:induction false} SimulateExecute(st: Stage, s: Moment, v: View, p: AiProvider, attempt: nat)
    returns (s': Moment, v': View)
    requires Shows(s, st.r, v) && Busy(st, v, p, attempt, AttemptScript(st.cfg, Unary, p, attempt), false)
    requires v.q.kind.Unary?
    ensures RunsTo(st, s, s') && Shows(s', st.r, v')
    ensures Executes(v, p, Execute(st.cfg, v.env.who.abort, p, attempt, v.board, v.now), v')
    decreases st.cfg.maxRetries - attempt
  {
    if InTime(st.cfg, p.replies(attempt)) {
      s', v' := CallSucceeds(st, s, v, p, attempt);
    } else {
      var s1, v1 := CallMisses(st, s, v, p, attempt);
      s', v' := s1, v1;
      if !v1.run.phase.Threw? {
        s', v' := SimulateExecute(st, s1, v1, p, attempt + 1);
        RunsOn(st, s, s1, s');
        ExecutesEarlier(v, v1, p, Execute(st.cfg, v1.env.who.abort, p, attempt + 1, v1.board, v1.now), v');
      }
    }
  }

  /** The request is over with this answer; an error leaves no answering run. */
  ghost predicate Replied(st: Stage, s: Moment, board: Board, x: Reported) {
    && st.r < |s.w.requests| && s.w.requests[st.r].phase.Over? && s.w.board == board && Due(st, s).None?
    && var q := s.w.requests[st.r];
    && q.tried <= |st.legs| && (q.tried > 0 ==> q.current < |s.w.runs|)
    && match x
       case Ok(response) =>
         && q.tried > 0 && s.w.runs[q.current].phase.Returned?
         && IsReply(st.legs[q.tried - 1].provider, s.w.runs[q.current], response.text)
         && response.provider == st.legs[q.tried - 1].provider.name
         && response.model == st.legs[q.tried - 1].modelId && response.fallbackUsed == (q.tried > 1)
       case Err(_) => q.tried > 0 ==> s.w.runs[q.current].phase.Threw?
  }

  lemma SimulateCall(st: Stage, w: World, who: Caller, model: string, lastError: Option<string>, tried: nat)
    returns (s': Moment, v: View)
    requires Facing(st, w, who, Unary, model, lastError, tried) && tried < |st.legs|
    ensures var p := st.legs[tried].provider;
            var x := ExecuteChecked(st.cfg, who.abort, p, w.board, w.now);
            && RunsTo(st, Onto(st, w, who), s') && Shows(s', st.r, v)
            && v.board == x.board && v.now == x.now && v.env.who == who && Flagged(v) && v.q.phase.Pumping?
            && v.q == w.requests[st.r].(tried := tried + 1, current := |w.runs|, yieldedAny := false, phase := Pumping,
                                        aborted := Gone(who.abort, x.now))
            && match x.answer
               case Answered(text) => v.run.phase.Returned? && IsReply(p, v.run, text)
               case Refused(error) => v.run.phase == Threw(error)
  {
    var s := Onto(st, w, who);
    v := Opens(st, w, who, Unary, model, lastError, tried);
    if v.run.phase.Awaiting? {
      s', v := SimulateExecute(st, s, v, st.legs[tried].provider, 0);
    } else {
      RunsNone(st, s);
      s' := s;
    }
  }

  /** The gateway receives what a call came to. */
  lemma CallReceived(st: Stage, s: Moment, v: View, text: string)
    returns (s': Moment)
    requires Shows(s, st.r, v) && Flagged(v) && v.q.phase.Pumping? && v.q.kind.Unary? && 0 < v.q.tried <= |st.legs|
    requires v.run.phase.Returned? && IsReply(st.legs[v.q.tried - 1].provider, v.run, text)
    ensures var leg := st.legs[v.q.tried - 1];
            && RunsTo(st, s, s')
            && Replied(st, s', v.board, Ok(Response(text, leg.provider.name, leg.modelId, v.q.tried > 1)))
  {
    s' := Fire(st, s, v, Receive(st.r));
  }

  lemma RefusalReceived(st: Stage, s: Moment, v: View, error: string) returns (s': Moment, w: World)
    requires Shows(s, st.r, v) && Flagged(v) && v.q.phase.Pumping? && v.q.kind.Unary? && 0 < v.q.tried <= |st.legs|
    requires v.run.phase == Threw(error) && !v.q.yieldedAny
    ensures RunsTo(st, s, s')
    ensures v.q.aborted ==> Replied(st, s', v.board, Err(error))
    ensures !v.q.aborted ==> w == SetRequest(s.w, st.r, v.q.(lastError := Some(error))) && s' == Onto(st, w, v.env.who)
  {
    s' := Fire(st, s, v, Receive(st.r));
    w := SetRequest(s.w, st.r, v.q.(lastError := Some(error)));
  }

  /** One provider of the non-streaming loop: the request is answered or given up,
      or goes on to the next provider from `w'`. */
  lemma SimulateLeg(st: Stage, w: World, who: Caller, model: string, lastError: Option<string>, tried: nat)
    returns (s': Moment, w': World, error: Option<string>)
    requires Facing(st, w, who, Unary, model, lastError, tried) && tried < |st.legs|
    ensures RunsTo(st, Onto(st, w, who), s')
    ensures var r := RespondFrom(st.cfg, who.abort, model, st.legs, tried, lastError, w.board, w.now);
            if error.None? then Replied(st, s', r.1, r.0) else
              && Facing(st, w', who, Unary, model, error, tried + 1) && s' == Onto(st, w', who)
              && w'.requests[st.r].current < |w'.runs| && w'.runs[w'.requests[st.r].current].phase.Threw?
              && r == RespondFrom(st.cfg, who.abort, model, st.legs, tried + 1, error, w'.board, w'.now)
  {
    var answer := ExecuteChecked(st.cfg, who.abort, st.legs[tried].provider, w.board, w.now).answer;
    var s1, v := SimulateCall(st, w, who, model, lastError, tried);
    w', error := w, None;
    if answer.Answered? {
      s' := CallReceived(st, s1, v, answer.response);
    } else {
      s', w' := RefusalReceived(st, s1, v, answer.error);
      if !v.q.aborted {
        error := Some(answer.error);
      }
    }
    RunsOn(st, Onto(st, w, who), s1, s');
  }

  lemma RespondExhausted(st: Stage, w: World, who: Caller, model: string, lastError: Option<string>)
    requires Facing(st, w, who, Unary, model, lastError, |st.legs|)
    requires |st.legs| > 0 ==> w.requests[st.r].current < |w.runs| && w.runs[w.requests[st.r].current].phase.Threw?
    ensures Replied(st, Onto(st, w, who), w.board, Err(AllFailedMessage(lastError, model)))
  {
  }

  /** The provider loop of a non-streaming request, which answers `r`, is the rest
      of the history. */
  lemma {:induction false} SimulateRespond(st: Stage, w: World, who: Caller, model: string, lastError: Option<string>,
                                           tried: nat, r: (Reported, Board)) returns (s': Moment)
    requires Facing(st, w, who, Unary, model, lastError, tried)
    requires tried > 0 ==> w.requests[st.r].current < |w.runs| && w.runs[w.requests[st.r].current].phase.Threw?
    requires r == RespondFrom(st.cfg, who.abort, model, st.legs, tried, lastError, w.board, w.now)
    ensures RunsTo(st, Onto(st, w, who), s') && Replied(st, s', r.1, r.0)
    decreases |st.legs| - tried
  {
    if tried == |st.legs| {
      s' := Onto(st, w, who);
      RunsNone(st, s');
      RespondExhausted(st, w, who, model, lastError);
    } else {
      var w1, error;
      s', w1, error := SimulateLeg(st, w, who, model, lastError, tried);
      if error.Some? {
        s' := SimulateRespond(st, w1, who, model, error, tried + 1, r);
        RunsOn(st, Onto(st, w, who), Onto(st, w1, who), s');
      }
    }
  }

  // ---- The two models agree ----

  /** A request begins in `w`. */
  function Begun(cfg: Config, w: World, who: Caller, kind: Kind, model: string, legs: seq<Leg>): Moment {
    var st := Stage(cfg, |w.requests|, legs);
    var w' := Do(cfg, w, Begin(kind, model, NamesOf(legs), Gone(who.abort, w.now)));
    Moment(w', Fresh(st, w', who))
  }

  /** A history on time that has ended has one end only. */
  lemma OneEnd(st: Stage, s: Moment, s1: Moment, s2: Moment)
    requires RunsTo(st, s, s1) && RunsTo(st, s, s2) && Due(st, s1).None? && Due(st, s2).None?
    ensures s1 == s2
  {
    var a: nat :| Steps(st, s, a) == s1;
    var b: nat :| Steps(st, s, b) == s2;
    if a <= b {
      StepsAdd(st, s, a, b - a);
      Stays(st, s1, b - a);
    } else {
      StepsAdd(st, s, b, a - b);
      Stays(st, s2, a - b);
    }
  }

  lemma {:induction false} Stays(st: Stage, s: Moment, n: nat)
    requires Due(st, s).None?
    ensures Steps(st, s, n) == s
    decreases n
  {
    if n > 0 {
      Stays(st, s, n - 1);
    }
  }

  /** Whatever else is in flight in `w`: the history on time of a new streaming
      request ends, in one way only, and there the client has exactly the output
      and the service exactly the breaker state of the sequential gateway. */
  lemma StreamIsTheHistory(cfg: Config, w: World, who: Caller, model: string, legs: seq<Leg>) returns (s': Moment)
    ensures var st, s := Stage(cfg, |w.requests|, legs), Begun(cfg, w, who, Streaming, model, legs);
            var (out, board) := StreamFrom(cfg, who, model, legs, None, w.board, w.now);
            && RunsTo(st, s, s') && Done(st, s', board, out)
            && forall t :: RunsTo(st, s, t) && Due(st, t).None? ==> t == s'
  {
    var st, s := Stage(cfg, |w.requests|, legs), Begun(cfg, w, who, Streaming, model, legs);
    var q := Request(Streaming, model, NamesOf(legs), 0, 0, false, None, Gone(who.abort, w.now), Pumping, []);
    var w1 := w.(requests := w.requests + [q]);
    assert s == Onto(st, w1, who) && legs[0..] == legs;
    s' := SimulateChain(st, w1, who, model, None, 0);
    forall t | RunsTo(st, s, t) && Due(st, t).None? ensures t == s' {
      OneEnd(st, s, t, s');
    }
  }

  /** The same for a non-streaming request: its answer is the sequential one. */
  lemma ResponseIsTheHistory(cfg: Config, w: World, who: Caller, model: string, legs: seq<Leg>) returns (s': Moment)
    ensures var st, s := Stage(cfg, |w.requests|, legs), Begun(cfg, w, who, Unary, model, legs);
            var (x, board) := RespondFrom(cfg, who.abort, model, legs, 0, None, w.board, w.now);
            && RunsTo(st, s, s') && Replied(st, s', board, x)
            && forall t :: RunsTo(st, s, t) && Due(st, t).None? ==> t == s'
  {
    var st, s := Stage(cfg, |w.requests|, legs), Begun(cfg, w, who, Unary, model, legs);
    var q := Request(Unary, model, NamesOf(legs), 0, 0, false, None, Gone(who.abort, w.now), Pumping, []);
    var w1 := w.(requests := w.requests + [q]);
    assert s == Onto(st, w1, who);
    s' := SimulateRespond(st, w1, who, model, None, 0,
                          RespondFrom(cfg, who.abort, model, legs, 0, None, w.board, w.now));
    forall t | RunsTo(st, s, t) && Due(st, t).None? ensures t == s' {
      OneEnd(st, s, t, s');
    }
  }

  // ---- Histories on time are histories ----

  ghost predicate Path(cfg: Config, ws: seq<World>, w: World, w': World) {
    && |ws| > 0 && ws[0] == w && ws[|ws| - 1] == w'
    && forall k :: 0 <= k < |ws| - 1 ==> Next(cfg, ws[k], ws[k + 1])
  }

  /** So every safety theorem about histories holds along them. */
  lemma {:induction false} StepsAreHistory(st: Stage, s: Moment, n: nat) returns (ws: seq<World>)
    ensures Path(st.cfg, ws, s.w, Steps(st, s, n).w)
    decreases n
  {
    if n == 0 {
      ws := [s.w];
    } else {
      var step, s1 := Due(st, s), After(st, s);
      var rest := StepsAreHistory(st, s1, n - 1);
      if step.Some? && Enabled(s.w, step.value) {
        ws := [s.w] + rest;
        assert Next(st.cfg, s.w, s1.w);
        assert forall k :: 0 < k < |ws| ==> ws[k] == rest[k - 1];
      } else {
        ws := rest;
      }
    }
  }
}
