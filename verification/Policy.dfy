/** `PolicyService` as the class it is, run by one caller at a time, whose signal
    fires at `abort` if at all. Upstreams are scripts; `now` is what `Date.now()`
    reads. The interleaved service is in Protocol, over the same decisions and
    the same breaker. */
module Policy {
  import opened Unified
  import opened Breaker
  import opened PolicyRules
  import opened Providers

  /** What one `iterator.next()` comes to, raced against an idle limit. */
  datatype Pull = Value(event: StreamEvent) | Ended | Thrown(error: string) | Pending

  /** Where an `executeStreamWithPolicy` generator stands between two pulls. */
  datatype Gen = Unopened | Reading(attempt: nat, rest: Script) | Over

  datatype Pulled = Pulled(result: Pull, gen: Gen, board: Board, now: nat)

  /** The retry loop from `script` of `attempt` on, until it has a result or
      `left` milliseconds are gone. */
  function Drive(cfg: Config, abort: Option<nat>, p: AiProvider, attempt: nat, script: Script, yielded: bool,
                 left: nat, board: Board, now: nat): Pulled
    decreases cfg.maxRetries - attempt
  {
    if script.Silent? || script.gap >= left then Pulled(Pending, Over, board, now + left) else
      var at := now + script.gap;
      match script
      case Emit(_, event, rest) => Pulled(Value(event), Reading(attempt, rest), board, at)
      case Finish(_) => Pulled(Ended, Over, AfterSuccess(board, p.name), at)
      case Fail(gap, error) =>
        var board' := AfterFailure(cfg.limits, board, p.name, at);
        var wait := gap + Backoff(cfg, attempt);
        match AfterThrow(cfg, attempt, yielded, Gone(abort, at))
        case GiveUpUnrecorded => Pulled(Thrown(error), Over, board, at)
        case RecordAndGiveUp => Pulled(Thrown(error), Over, board', at)
        case RecordAndRetry =>
          if wait >= left then Pulled(Pending, Over, board', now + left)
          else Drive(cfg, abort, p, attempt + 1, p.streams(attempt + 1), false, left - wait, board', now + wait)
  }

  function PullFrom(cfg: Config, abort: Option<nat>, p: AiProvider, gen: Gen, left: nat, board: Board,
                    now: nat): Pulled
  {
    match gen
    case Unopened =>
      if !Admits(cfg.limits, board, p.name, now) then
        Pulled(Thrown(BreakerOpenMessage(p.name)), Over, board, now)
      else if Gone(abort, now) then
        Pulled(Thrown(ABORTED), Over, AfterCheck(board, p.name), now)
      else
        Drive(cfg, abort, p, 0, p.streams(0), false, left, AfterCheck(board, p.name), now)
    case Reading(attempt, rest) => Drive(cfg, abort, p, attempt, rest, true, left, board, now)
    case Over => Pulled(Ended, Over, board, now)
  }

  datatype Answer = Answered(response: string) | Refused(error: string)

  datatype Executed = Executed(answer: Answer, board: Board, now: nat)

  predicate InTime(cfg: Config, reply: Reply) {
    reply.Resolves? && reply.gap < cfg.timeoutMs
  }

  /** How a reply that is no answer in time ends: when, and with what error. */
  function Miss(cfg: Config, reply: Reply): (nat, string)
    requires !InTime(cfg, reply)
  {
    if reply.Rejects? && reply.gap < cfg.timeoutMs then (reply.gap, reply.error) else (cfg.timeoutMs, TIMED_OUT)
  }

  /** The non-streaming retry loop from `attempt` on. */
  function Execute(cfg: Config, abort: Option<nat>, p: AiProvider, attempt: nat, board: Board, now: nat): Executed
    decreases cfg.maxRetries - attempt
  {
    var reply := p.replies(attempt);
    if InTime(cfg, reply) then
      Executed(Answered(reply.response), AfterSuccess(board, p.name), now + reply.gap)
    else
      var (gap, error) := Miss(cfg, reply);
      var at := now + gap;
      if Gone(abort, at) then Executed(Refused(error), board, at) else
        var board' := AfterFailure(cfg.limits, board, p.name, at);
        if attempt < cfg.maxRetries then
          Execute(cfg, abort, p, attempt + 1, board', at + Backoff(cfg, attempt))
        else
          Executed(Refused(error), board', at)
  }

  function ExecuteChecked(cfg: Config, abort: Option<nat>, p: AiProvider, board: Board, now: nat): Executed {
    if !Admits(cfg.limits, board, p.name, now) then Executed(Refused(BreakerOpenMessage(p.name)), board, now)
    else if Gone(abort, now) then Executed(Refused(ABORTED), AfterCheck(board, p.name), now)
    else Execute(cfg, abort, p, 0, AfterCheck(board, p.name), now)
  }

  class PolicyService {
    const cfg: Config
    var circuits: map<string, Circuit>
    ghost var log: seq<Effect>

    ghost function Contents(): Board
      reads this
    {
      Board(circuits, log)
    }

    /** Every circuit is what the log of effects says it is. */
    ghost predicate Valid()
      reads this
    {
      MatchesLog(cfg.limits, Contents())
    }

    constructor (cfg: Config)
      ensures Valid() && this.cfg == cfg && Contents() == FRESH_BOARD
    {
      this.cfg := cfg;
      circuits, log := map[], [];
      new;
      assert forall p :: CircuitMatchesLog(cfg.limits, FRESH_BOARD, p);
    }

    method CheckCircuitBreaker(provider: string, now: nat) returns (admitted: bool)
      requires Valid()
      modifies this
      ensures Valid() && admitted == Admits(cfg.limits, old(Contents()), provider, now)
      ensures Contents() == if admitted then AfterCheck(old(Contents()), provider) else old(Contents())
    {
      if provider !in circuits || !circuits[provider].isOpen {
        return true;
      }
      var state := circuits[provider];
      if now - state.lastFailure >= cfg.limits.resetMs {
        CheckKeepsLog(cfg.limits, Contents(), provider);
        circuits := circuits[provider := state.(isOpen := false, failures := 0)];
        log := log + [TimedReset(provider)];
        return true;
      }
      return false;
    }

    method RecordSuccess(provider: string)
      requires Valid()
      modifies this
      ensures Valid() && Contents() == AfterSuccess(old(Contents()), provider)
    {
      SuccessKeepsLog(cfg.limits, Contents(), provider);
      if provider in circuits {
        circuits := circuits[provider := circuits[provider].(failures := 0, isOpen := false)];
      }
      log := log + [Succeeded(provider)];
    }

    method RecordFailure(provider: string, now: nat)
      requires Valid()
      modifies this
      ensures Valid() && Contents() == AfterFailure(cfg.limits, old(Contents()), provider, now)
    {
      FailureKeepsLog(cfg.limits, Contents(), provider, now);
      var state := if provider in circuits then circuits[provider] else Circuit(0, 0, false);
      state := state.(failures := state.failures + 1, lastFailure := now);
      if state.failures >= cfg.limits.threshold {
        state := state.(isOpen := true);
      }
      circuits := circuits[provider := state];
      log := log + [Failed(provider, now)];
    }

    /** What a catch block does with attempt `attempt`, which threw at `at`. */
    method Catch(provider: string, attempt: nat, yielded: bool, abort: Option<nat>, at: nat) returns (verdict: Verdict)
      requires Valid()
      modifies this
      ensures Valid() && verdict == AfterThrow(cfg, attempt, yielded, Gone(abort, at))
      ensures Contents() == if verdict.GiveUpUnrecorded? then old(Contents())
                            else AfterFailure(cfg.limits, old(Contents()), provider, at)
    {
      if Gone(abort, at) {
        return GiveUpUnrecorded;
      }
      RecordFailure(provider, at);
      return if yielded || attempt >= cfg.maxRetries then RecordAndGiveUp else RecordAndRetry;
    }

    method ExecuteWithPolicy(p: AiProvider, start: nat, abort: Option<nat>) returns (answer: Answer, now: nat)
      requires Valid()
      modifies this
      ensures Valid()
      ensures Executed(answer, Contents(), now) == ExecuteChecked(cfg, abort, p, old(Contents()), start)
    {
      now := start;
      var admitted := CheckCircuitBreaker(p.name, now);
      if !admitted {
        return Refused(BreakerOpenMessage(p.name)), now;
      }
      if Gone(abort, now) {
        return Refused(ABORTED), now;
      }
      ghost var want := Execute(cfg, abort, p, 0, Contents(), now);
      var lastError := "";
      for attempt := 0 to cfg.maxRetries + 1
        invariant Valid()
        invariant if attempt <= cfg.maxRetries then want == Execute(cfg, abort, p, attempt, Contents(), now)
                  else want == Executed(Refused(lastError), Contents(), now)
      {
        var reply := p.replies(attempt);
        if InTime(cfg, reply) {
          now := now + reply.gap;
          RecordSuccess(p.name);
          return Answered(reply.response), now;
        }
        var (gap, error) := Miss(cfg, reply);
        now := now + gap;
        lastError := error;
        var verdict := Catch(p.name, attempt, false, abort, now);
        if verdict.GiveUpUnrecorded? {
          return Refused(lastError), now;
        }
        if verdict.RecordAndRetry? {
          now := now + Backoff(cfg, attempt);
        }
      }
      return Refused(lastError), now;
    }
  }

  /** The generator object of one `executeStreamWithPolicy` call. */
  class PolicyStream {
    const service: PolicyService
    const provider: AiProvider
    /** When the caller's signal fires. */
    const abort: Option<nat>
    var gen: Gen

    constructor (service: PolicyService, provider: AiProvider, abort: Option<nat>)
      ensures this.service == service && this.provider == provider && this.abort == abort && gen == Unopened
    {
      this.service, this.provider, this.abort, gen := service, provider, abort, Unopened;
    }

    method Next(limit: nat, start: nat) returns (result: Pull, now: nat)
      requires service.Valid()
      modifies this, service
      ensures service.Valid()
      ensures Pulled(result, gen, service.Contents(), now)
           == PullFrom(service.cfg, abort, provider, old(gen), limit, old(service.Contents()), start)
    {
      match gen {
        case Unopened =>
          var admitted := service.CheckCircuitBreaker(provider.name, start);
          if !admitted {
            gen := Over;
            return Thrown(BreakerOpenMessage(provider.name)), start;
          }
          if Gone(abort, start) {
            gen := Over;
            return Thrown(ABORTED), start;
          }
          result, now := Resume(0, provider.streams(0), false, limit, start);
        case Reading(attempt, rest) =>
          result, now := Resume(attempt, rest, true, limit, start);
        case Over =>
          return Ended, start;
      }
    }

    /** The retry loop from where the generator stands to its next yield, end or
        throw, unless the idle limit comes first. */
    method Resume(first: nat, pending: Script, yielding: bool, limit: nat, start: nat) returns (result: Pull, now: nat)
      requires service.Valid()
      modifies this, service
      ensures service.Valid()
      ensures Pulled(result, gen, service.Contents(), now)
           == Drive(service.cfg, abort, provider, first, pending, yielding, limit, old(service.Contents()), start)
    {
      var cfg := service.cfg;
      var attempt, script, yielded, left: nat := first, pending, yielding, limit;
      now := start;
      ghost var want := Drive(cfg, abort, provider, attempt, script, yielded, left, service.Contents(), now);
      while script.Fail? && script.gap < left
        invariant service.Valid() && service.cfg == cfg
        invariant want == Drive(cfg, abort, provider, attempt, script, yielded, left, service.Contents(), now)
        decreases cfg.maxRetries - attempt, if script.Fail? && script.gap < left then 1 else 0
      {
        gen := Over;
        var verdict := service.Catch(provider.name, attempt, yielded, abort, now + script.gap);
        if !verdict.RecordAndRetry? {
          return Thrown(script.error), now + script.gap;
        }
        var wait := script.gap + Backoff(cfg, attempt);
        if wait >= left {
          return Pending, now + left;
        }
        now, left := now + wait, left - wait;
        attempt, script, yielded := attempt + 1, provider.streams(attempt + 1), false;
      }
      if script.Emit? && script.gap < left {
        gen := Reading(attempt, script.rest);
        return Value(script.event), now + script.gap;
      }
      gen := Over;
      if script.Finish? && script.gap < left {
        service.RecordSuccess(provider.name);
        return Ended, now + script.gap;
      }
      return Pending, now + left;
    }
  }

  /** The failures that attempts `from` to `end` record when none of them resolves
      in time, the first of them starting at `now`. */
  function Misses(cfg: Config, p: AiProvider, from: nat, end: nat, now: nat): (log: seq<Effect>)
    requires from <= end && forall b :: from <= b < end ==> !InTime(cfg, p.replies(b))
    ensures |log| == end - from && forall e :: e in log ==> e.Failed? && e.provider == p.name
    decreases end - from
  {
    if from == end then [] else
      var (gap, _) := Miss(cfg, p.replies(from));
      [Failed(p.name, now + gap)] + Misses(cfg, p, from + 1, end, now + gap + Backoff(cfg, from))
  }

  lemma LogReassociates(log: seq<Effect>, e: Effect, rest: seq<Effect>)
    ensures log + [e] + rest == log + ([e] + rest)
  {
  }

  lemma {:induction false} LogUntilSuccess(cfg: Config, p: AiProvider, from: nat, a: nat, board: Board, now: nat)
    requires from <= a <= cfg.maxRetries && InTime(cfg, p.replies(a))
    requires forall b :: from <= b < a ==> !InTime(cfg, p.replies(b))
    ensures Execute(cfg, None, p, from, board, now).board.log
         == board.log + (Misses(cfg, p, from, a, now) + [Succeeded(p.name)])
    decreases a - from
  {
    if from < a {
      var at := now + Miss(cfg, p.replies(from)).0;
      var next, later := AfterFailure(cfg.limits, board, p.name, at), at + Backoff(cfg, from);
      LogUntilSuccess(cfg, p, from + 1, a, next, later);
      var rest := Misses(cfg, p, from + 1, a, later);
      LogReassociates(board.log, Failed(p.name, at), rest + [Succeeded(p.name)]);
      assert [Failed(p.name, at)] + (rest + [Succeeded(p.name)]) == [Failed(p.name, at)] + rest + [Succeeded(p.name)];
    } else {
      assert [] + [Succeeded(p.name)] == [Succeeded(p.name)];
    }
  }

  lemma {:induction false} AnswerOfFirst(cfg: Config, p: AiProvider, from: nat, a: nat, board: Board, now: nat)
    requires from <= a <= cfg.maxRetries && InTime(cfg, p.replies(a))
    requires forall b :: from <= b < a ==> !InTime(cfg, p.replies(b))
    ensures var x := Execute(cfg, None, p, from, board, now);
            && x.answer == Answered(p.replies(a).response)
            && !Open(x.board, p.name)
            && (from < a ==> Lookup(x.board, p.name).failures == 0)
    decreases a - from
  {
    if from < a {
      var at := now + Miss(cfg, p.replies(from)).0;
      AnswerOfFirst(cfg, p, from + 1, a, AfterFailure(cfg.limits, board, p.name, at), at + Backoff(cfg, from));
    }
  }

  /** A call whose caller stays is answered by the first attempt that resolves in
      time; what it adds to the log is one failure for each attempt before, and
      that success. */
  lemma AnsweredByFirstInTime(cfg: Config, p: AiProvider, from: nat, a: nat, board: Board, now: nat)
    requires from <= a <= cfg.maxRetries && InTime(cfg, p.replies(a))
    requires forall b :: from <= b < a ==> !InTime(cfg, p.replies(b))
    ensures var x := Execute(cfg, None, p, from, board, now);
            && x.answer == Answered(p.replies(a).response)
            && x.board.log == board.log + (Misses(cfg, p, from, a, now) + [Succeeded(p.name)])
            && !Open(x.board, p.name)
            && (from < a ==> Lookup(x.board, p.name).failures == 0)
  {
    LogUntilSuccess(cfg, p, from, a, board, now);
    AnswerOfFirst(cfg, p, from, a, board, now);
  }

  lemma {:induction false} LogOfRefusal(cfg: Config, p: AiProvider, from: nat, board: Board, now: nat)
    requires from <= cfg.maxRetries
    requires forall b :: from <= b <= cfg.maxRetries ==> !InTime(cfg, p.replies(b))
    ensures Execute(cfg, None, p, from, board, now).board.log
         == board.log + Misses(cfg, p, from, cfg.maxRetries + 1, now)
    decreases cfg.maxRetries - from
  {
    var at := now + Miss(cfg, p.replies(from)).0;
    var later := at + Backoff(cfg, from);
    if from < cfg.maxRetries {
      LogOfRefusal(cfg, p, from + 1, AfterFailure(cfg.limits, board, p.name, at), later);
    }
    LogReassociates(board.log, Failed(p.name, at), Misses(cfg, p, from + 1, cfg.maxRetries + 1, later));
  }

  lemma {:induction false} ErrorOfRefusal(cfg: Config, p: AiProvider, from: nat, board: Board, now: nat)
    requires from <= cfg.maxRetries
    requires forall b :: from <= b <= cfg.maxRetries ==> !InTime(cfg, p.replies(b))
    ensures var x := Execute(cfg, None, p, from, board, now);
            && x.answer == Refused(Miss(cfg, p.replies(cfg.maxRetries)).1)
            && Lookup(x.board, p.name).failures == Lookup(board, p.name).failures + cfg.maxRetries + 1 - from
    decreases cfg.maxRetries - from
  {
    if from < cfg.maxRetries {
      var at := now + Miss(cfg, p.replies(from)).0;
      ErrorOfRefusal(cfg, p, from + 1, AfterFailure(cfg.limits, board, p.name, at), at + Backoff(cfg, from));
    }
  }

  /** With no attempt in time the call fails with the last attempt's error, and
      what it adds to the log is one failure for every attempt. */
  lemma RefusedWhenNoneInTime(cfg: Config, p: AiProvider, from: nat, board: Board, now: nat)
    requires from <= cfg.maxRetries
    requires forall b :: from <= b <= cfg.maxRetries ==> !InTime(cfg, p.replies(b))
    ensures var x := Execute(cfg, None, p, from, board, now);
            && x.answer == Refused(Miss(cfg, p.replies(cfg.maxRetries)).1)
            && x.board.log == board.log + Misses(cfg, p, from, cfg.maxRetries + 1, now)
            && Lookup(x.board, p.name).failures == Lookup(board, p.name).failures + cfg.maxRetries + 1 - from
  {
    LogOfRefusal(cfg, p, from, board, now);
    ErrorOfRefusal(cfg, p, from, board, now);
  }

  /** Whatever the upstream does, a failure is recorded only while the caller is
      there. */
  lemma {:induction false} NothingRecordedOnceGone(cfg: Config, abort: Option<nat>, p: AiProvider, from: nat,
                                                   board: Board, now: nat)
    ensures var log := Execute(cfg, abort, p, from, board, now).board.log;
            && board.log <= log
            && forall k :: |board.log| <= k < |log| && log[k].Failed? ==> !Gone(abort, log[k].at)
    decreases cfg.maxRetries - from
  {
    var reply := p.replies(from);
    if !InTime(cfg, reply) && from < cfg.maxRetries {
      var at := now + Miss(cfg, reply).0;
      NothingRecordedOnceGone(cfg, abort, p, from + 1, AfterFailure(cfg.limits, board, p.name, at),
                              at + Backoff(cfg, from));
    }
  }

  // ---- Admission ----

  /** The caller's signal has not fired by `now`. */
  predicate Present(abort: Option<nat>, now: nat) {
    abort.Some? ==> now < abort.value
  }

  /** A call is turned away exactly by what the log and the clock say, in no time,
      without an attempt and without a trace; otherwise, if its caller is there,
      it runs from attempt 0. */
  lemma CallAdmission(cfg: Config, abort: Option<nat>, p: AiProvider, board: Board, now: nat)
    requires CircuitMatchesLog(cfg.limits, board, p.name)
    ensures var x := ExecuteChecked(cfg, abort, p, board, now);
            if TurnedAway(cfg.limits, board.log, p.name, now) then
              x == Executed(Refused("Circuit breaker is open for provider \"" + p.name + "\"."), board, now)
            else exists b: Board ::
              && LetThrough(cfg.limits, board, p.name, b)
              && x == if Present(abort, now) then Execute(cfg, abort, p, 0, b, now)
                      else Executed(Refused("Operation aborted"), b, now)
  {
    AdmittedByLog(cfg.limits, board, p.name, now);
    assert LetThrough(cfg.limits, board, p.name, AfterCheck(board, p.name));
  }

  /** The same for the first pull of a stream. */
  lemma StreamAdmission(cfg: Config, abort: Option<nat>, p: AiProvider, left: nat, board: Board, now: nat)
    requires CircuitMatchesLog(cfg.limits, board, p.name)
    ensures var x := PullFrom(cfg, abort, p, Unopened, left, board, now);
            if TurnedAway(cfg.limits, board.log, p.name, now) then
              x == Pulled(Thrown("Circuit breaker is open for provider \"" + p.name + "\"."), Over, board, now)
            else exists b: Board ::
              && LetThrough(cfg.limits, board, p.name, b)
              && x == if Present(abort, now) then Drive(cfg, abort, p, 0, p.streams(0), false, left, b, now)
                      else Pulled(Thrown("Operation aborted"), Over, b, now)
  {
    AdmittedByLog(cfg.limits, board, p.name, now);
    assert LetThrough(cfg.limits, board, p.name, AfterCheck(board, p.name));
  }

  // ---- One attempt, in gaps ----

  /** How long an attempt takes that is no answer: until it ends or times out. */
  function Spent(cfg: Config, reply: Reply): nat {
    if reply.Hangs? || reply.gap >= cfg.timeoutMs then cfg.timeoutMs else reply.gap
  }

  /** What its end says. */
  function Complaint(cfg: Config, reply: Reply): string {
    if reply.Rejects? && reply.gap < cfg.timeoutMs then reply.error else "Operation timed out"
  }

  /** One attempt: it answers exactly if it resolves before the timeout; else, if
      the caller has gone by then, the call ends unrecorded, and if not the
      failure is recorded and the next attempt starts after the backoff. */
  lemma OneAttempt(cfg: Config, abort: Option<nat>, p: AiProvider, attempt: nat, board: Board, now: nat)
    ensures var x, reply := Execute(cfg, abort, p, attempt, board, now), p.replies(attempt);
            if reply.Resolves? && reply.gap < cfg.timeoutMs then
              x.answer == Answered(reply.response) && x.now == now + reply.gap && !Open(x.board, p.name)
              && x.board.log == board.log + [Succeeded(p.name)]
            else
              var at, error := now + Spent(cfg, reply), Complaint(cfg, reply);
              if !Present(abort, at) then x == Executed(Refused(error), board, at)
              else exists b: Board ::
                && b.log == board.log + [Failed(p.name, at)]
                && x == if attempt < cfg.maxRetries then
                          Execute(cfg, abort, p, attempt + 1, b, at + cfg.baseDelay * Pow2(attempt))
                        else Executed(Refused(error), b, at)
  {
    var reply := p.replies(attempt);
    if !InTime(cfg, reply) {
      var b := AfterFailure(cfg.limits, board, p.name, now + Spent(cfg, reply));
      assert b.log == board.log + [Failed(p.name, now + Spent(cfg, reply))];
    }
  }

  // ---- A whole call, in gaps ----

  /** None of these attempts resolves before the timeout. */
  ghost predicate Untimely(cfg: Config, p: AiProvider, from: nat, end: nat) {
    forall a :: from <= a < end ==> p.replies(a).Resolves? ==> p.replies(a).gap >= cfg.timeoutMs
  }

  /** Attempt `a` is the first to resolve before the timeout. */
  ghost predicate AnswersAt(cfg: Config, p: AiProvider, from: nat, a: nat, text: string) {
    && from <= a <= cfg.maxRetries && Untimely(cfg, p, from, a)
    && p.replies(a).Resolves? && p.replies(a).gap < cfg.timeoutMs && p.replies(a).response == text
  }

  /** The time that attempts `from` up to `end` take, each with its backoff. */
  function Elapsed(cfg: Config, p: AiProvider, from: nat, end: nat): nat
    requires from <= end
    decreases end - from
  {
    if from == end then 0 else Spent(cfg, p.replies(from)) + Backoff(cfg, from) + Elapsed(cfg, p, from + 1, end)
  }

  lemma NextAttempt(cfg: Config, p: AiProvider, from: nat, board: Board, now: nat) returns (b: Board)
    requires from < cfg.maxRetries && Untimely(cfg, p, from, from + 1)
    ensures Execute(cfg, None, p, from, board, now)
         == Execute(cfg, None, p, from + 1, b, now + Spent(cfg, p.replies(from)) + Backoff(cfg, from))
  {
    assert !InTime(cfg, p.replies(from));
    b := AfterFailure(cfg.limits, board, p.name, now + Spent(cfg, p.replies(from)));
  }

  lemma {:induction false} AnswerFrom(cfg: Config, p: AiProvider, from: nat, a: nat, text: string, board: Board,
                                      now: nat)
    requires AnswersAt(cfg, p, from, a, text)
    ensures var x := Execute(cfg, None, p, from, board, now);
            x.answer == Answered(text) && x.now == now + Elapsed(cfg, p, from, a) + p.replies(a).gap
    decreases a - from
  {
    if from < a {
      assert Untimely(cfg, p, from, from + 1) && Untimely(cfg, p, from + 1, a);
      var b := NextAttempt(cfg, p, from, board, now);
      AnswerFrom(cfg, p, from + 1, a, text, b, now + Spent(cfg, p.replies(from)) + Backoff(cfg, from));
    }
  }

  lemma {:induction false} RefusalFrom(cfg: Config, p: AiProvider, from: nat, board: Board, now: nat)
    requires from <= cfg.maxRetries && Untimely(cfg, p, from, cfg.maxRetries + 1)
    ensures var x, last := Execute(cfg, None, p, from, board, now), p.replies(cfg.maxRetries);
            && x.answer == Refused(Complaint(cfg, last))
            && x.now == now + Elapsed(cfg, p, from, cfg.maxRetries) + Spent(cfg, last)
    decreases cfg.maxRetries - from
  {
    assert Untimely(cfg, p, from, from + 1) && Untimely(cfg, p, from + 1, cfg.maxRetries + 1);
    assert !InTime(cfg, p.replies(from));
    if from < cfg.maxRetries {
      var b := NextAttempt(cfg, p, from, board, now);
      RefusalFrom(cfg, p, from + 1, b, now + Spent(cfg, p.replies(from)) + Backoff(cfg, from));
    }
  }

  /** Time spent in the first `n` attempts, backoffs left out. */
  function TotalSpent(cfg: Config, p: AiProvider, n: nat): nat {
    if n == 0 then 0 else TotalSpent(cfg, p, n - 1) + Spent(cfg, p.replies(n - 1))
  }

  lemma {:induction false} ElapsedLast(cfg: Config, p: AiProvider, from: nat, end: nat)
    requires from <= end
    ensures Elapsed(cfg, p, from, end + 1)
         == Elapsed(cfg, p, from, end) + Spent(cfg, p.replies(end)) + Backoff(cfg, end)
    decreases end - from
  {
    if from < end {
      ElapsedLast(cfg, p, from + 1, end);
    }
  }

  lemma OneMoreBackoff(base: nat, n: nat)
    ensures base * (Pow2(n) - 1) + base * Pow2(n) == base * (Pow2(n + 1) - 1)
  {
    var a: int := Pow2(n);
    assert base * (a - 1) + base * a == base * (a - 1 + a);
  }

  /** The first `n` backoffs double from the base delay. */
  lemma {:induction false} ElapsedClosed(cfg: Config, p: AiProvider, n: nat)
    ensures Elapsed(cfg, p, 0, n) == TotalSpent(cfg, p, n) + cfg.baseDelay * (Pow2(n) - 1)
  {
    if n > 0 {
      ElapsedClosed(cfg, p, n - 1);
      ElapsedLast(cfg, p, 0, n - 1);
      OneMoreBackoff(cfg.baseDelay, n - 1);
    }
  }

  /** A call whose caller stays, in gaps alone: it is answered exactly if some
      attempt resolves before the timeout, with the text of the first to do so,
      after what the attempts and backoffs before it took; if there is none it is
      refused with the last attempt's complaint, after all attempts and all
      backoffs. */
  lemma CallInGaps(cfg: Config, p: AiProvider, board: Board, now: nat)
    ensures var x := Execute(cfg, None, p, 0, board, now);
            match x.answer
            case Answered(text) =>
              exists a: nat :: AnswersAt(cfg, p, 0, a, text)
                && x.now == now + TotalSpent(cfg, p, a) + cfg.baseDelay * (Pow2(a) - 1) + p.replies(a).gap
            case Refused(error) =>
              && Untimely(cfg, p, 0, cfg.maxRetries + 1)
              && error == Complaint(cfg, p.replies(cfg.maxRetries))
              && x.now == now + TotalSpent(cfg, p, cfg.maxRetries + 1) + cfg.baseDelay * (Pow2(cfg.maxRetries) - 1)
  {
    if Untimely(cfg, p, 0, cfg.maxRetries + 1) {
      RefusalFrom(cfg, p, 0, board, now);
      ElapsedClosed(cfg, p, cfg.maxRetries);
    } else {
      var a := FirstTimely(cfg, p, 0);
      AnswerFrom(cfg, p, 0, a, p.replies(a).response, board, now);
      ElapsedClosed(cfg, p, a);
    }
  }

  lemma {:induction false} FirstTimely(cfg: Config, p: AiProvider, from: nat) returns (a: nat)
    requires from <= cfg.maxRetries + 1 && !Untimely(cfg, p, from, cfg.maxRetries + 1)
    ensures p.replies(a).Resolves? && AnswersAt(cfg, p, from, a, p.replies(a).response)
    decreases cfg.maxRetries + 1 - from
  {
    if p.replies(from).Resolves? && p.replies(from).gap < cfg.timeoutMs {
      a := from;
    } else {
      a := FirstTimely(cfg, p, from + 1);
    }
  }

  /** A throw out of a stream: unrecorded if the caller has gone; else recorded,
      and fatal if output went out or no retry is left, or else the next attempt
      comes after the backoff if the idle limit allows. */
  lemma OneThrow(cfg: Config, abort: Option<nat>, p: AiProvider, attempt: nat, script: Script, yielded: bool, left: nat,
                 board: Board, now: nat)
    requires script.Fail? && script.gap < left
    ensures var x, at := Drive(cfg, abort, p, attempt, script, yielded, left, board, now), now + script.gap;
            if !Present(abort, at) then x == Pulled(Thrown(script.error), Over, board, at)
            else exists b: Board ::
              && b.log == board.log + [Failed(p.name, at)]
              && x == if yielded || attempt >= cfg.maxRetries then Pulled(Thrown(script.error), Over, b, at)
                      else
                        var wait := script.gap + cfg.baseDelay * Pow2(attempt);
                        if wait >= left then Pulled(Pending, Over, b, now + left)
                        else
                          Drive(cfg, abort, p, attempt + 1, p.streams(attempt + 1), false, left - wait, b, now + wait)
  {
    var at := now + script.gap;
    assert AfterFailure(cfg.limits, board, p.name, at).log == board.log + [Failed(p.name, at)];
  }
}
