/** The gateway's provider loops, as functions over a provider chain, and from
    which upstream attempt a client is served. */
module Fallback {
  import opened Unified
  import opened Breaker
  import opened PolicyRules
  import opened Providers
  import opened Policy

  datatype Leg = Leg(provider: AiProvider, modelId: string)

  /** How the pump over one provider ends; `Left` is a consumer's break. */
  datatype PumpEnd = Completed | Left | Broken(error: string)

  datatype Pumped = Pumped(events: seq<StreamEvent>, end: PumpEnd, board: Board, now: nat)

  /** Everything one provider hands the client from `gen` on, each pull raced
      against the idle timer. */
  function Pump(cfg: Config, who: Caller, p: AiProvider, gen: Gen, board: Board, now: nat): Pumped
    decreases if gen.Unopened? then 1 else 0, if gen.Reading? then gen.rest else Silent
  {
    var x := PullFrom(cfg, who.abort, p, gen, cfg.idleMs, board, now);
    match x.result
    case Value(event) =>
      if who.breaksAt == Some(0) then Pumped([event], Left, x.board, x.now) else
        PullAdvances(cfg, who.abort, p, gen, cfg.idleMs, board, now);
        var rest := Pump(cfg, who.After(), p, x.gen, x.board, x.now);
        rest.(events := [event] + rest.events)
    case Ended => Pumped([], Completed, x.board, x.now)
    case Thrown(error) => Pumped([], Broken(error), x.board, x.now)
    case Pending => Pumped([], Broken(IDLE_TIMEOUT), x.board, x.now)
  }

  lemma {:induction false} DriveGen(cfg: Config, abort: Option<nat>, p: AiProvider, attempt: nat, script: Script,
                                    yielded: bool, left: nat, board: Board, now: nat)
    ensures var x := Drive(cfg, abort, p, attempt, script, yielded, left, board, now);
            && (x.result.Value? ==> x.gen.Reading?)
            && (yielded && x.result.Value? ==> script.Emit? && x.gen.rest == script.rest)
    decreases cfg.maxRetries - attempt
  {
    if script.Fail? && script.gap < left && !yielded && attempt < cfg.maxRetries {
      var wait := script.gap + Backoff(cfg, attempt);
      if wait < left {
        DriveGen(cfg, abort, p, attempt + 1, p.streams(attempt + 1), false, left - wait,
                 AfterFailure(cfg.limits, board, p.name, now + script.gap), now + wait);
      }
    }
  }

  /** A pull that yields an event leaves a shorter script behind. */
  lemma PullAdvances(cfg: Config, abort: Option<nat>, p: AiProvider, gen: Gen, left: nat, board: Board, now: nat)
    ensures var x := PullFrom(cfg, abort, p, gen, left, board, now);
            && (x.result.Value? ==> x.gen.Reading? && !gen.Over?)
            && (x.result.Value? && gen.Reading? ==> gen.rest.Emit? && x.gen.rest == gen.rest.rest)
  {
    if gen.Reading? {
      DriveGen(cfg, abort, p, gen.attempt, gen.rest, true, left, board, now);
    } else if gen.Unopened? {
      DriveGen(cfg, abort, p, 0, p.streams(0), false, left, AfterCheck(board, p.name), now);
    }
  }

  /** What a client of `streamResponse` gets from the providers of `chain`. */
  function StreamFrom(cfg: Config, who: Caller, model: string, chain: seq<Leg>, lastError: Option<string>,
                      board: Board, now: nat): (seq<StreamEvent>, Board)
    decreases |chain|
  {
    if chain == [] then ([ErrorEvent(AllFailedMessage(lastError, model))], board) else
      var x := Pump(cfg, who, chain[0].provider, Unopened, board, now);
      match x.end
      case Completed => (x.events, x.board)
      case Left => (x.events, x.board)
      case Broken(error) =>
        if Gone(who.abort, x.now) then (x.events, x.board)
        else if x.events != [] then (x.events + [ErrorEvent(error)], x.board)
        else StreamFrom(cfg, who, model, chain[1..], Some(error), x.board, x.now)
  }

  datatype Response = Response(text: string, provider: string, model: string, fallbackUsed: bool)

  /** What a caller of `createResponse` gets; `Err` is the thrown message. */
  datatype Reported = Ok(response: Response) | Err(error: string)

  function RespondFrom(cfg: Config, abort: Option<nat>, model: string, chain: seq<Leg>, i: nat,
                       lastError: Option<string>, board: Board, now: nat): (Reported, Board)
    requires i <= |chain|
    decreases |chain| - i
  {
    if i == |chain| then (Err(AllFailedMessage(lastError, model)), board) else
      var x := ExecuteChecked(cfg, abort, chain[i].provider, board, now);
      match x.answer
      case Answered(text) => (Ok(Response(text, chain[i].provider.name, chain[i].modelId, i > 0)), x.board)
      case Refused(error) =>
        if Gone(abort, x.now) then (Err(error), x.board)
        else RespondFrom(cfg, abort, model, chain, i + 1, Some(error), x.board, x.now)
  }

  // ---- From which attempt a stream comes, while the caller stays ----

  /** When attempt `a` starts, counted from the provider's first: every attempt
      before it failed after its gap and was followed by its backoff. */
  function Lead(cfg: Config, p: AiProvider, a: nat): nat
    requires forall b :: 0 <= b < a ==> p.streams(b).Fail?
  {
    if a == 0 then 0 else Lead(cfg, p, a - 1) + p.streams(a - 1).gap + Backoff(cfg, a - 1)
  }

  function Gaps(p: AiProvider, a: nat): nat
    requires forall b :: 0 <= b < a ==> p.streams(b).Fail?
  {
    if a == 0 then 0 else Gaps(p, a - 1) + p.streams(a - 1).gap
  }

  /** The backoffs before attempt `a` double from the base delay. */
  lemma {:induction false} LeadClosed(cfg: Config, p: AiProvider, a: nat)
    requires forall b :: 0 <= b < a ==> p.streams(b).Fail?
    ensures Lead(cfg, p, a) == Gaps(p, a) + cfg.baseDelay * (Pow2(a) - 1)
  {
    if a > 0 {
      LeadClosed(cfg, p, a - 1);
      OneMoreBackoff(cfg.baseDelay, a - 1);
    }
  }

  /** Attempt `a` is the first of its provider to yield or end normally, and it
      does so before the idle timer fires. */
  ghost predicate Speaks(cfg: Config, p: AiProvider, a: nat) {
    && a <= cfg.maxRetries
    && (forall b :: 0 <= b < a ==> p.streams(b).Fail?)
    && (p.streams(a).Emit? || p.streams(a).Finish?)
    && Lead(cfg, p, a) + p.streams(a).gap < cfg.idleMs
  }

  /** What is relayed of a script once its attempt has spoken: all of it, or
      all up to a failure or a silence, and then one error. */
  function Heard(cfg: Config, s: Script): seq<StreamEvent> {
    match s
    case Emit(gap, event, rest) =>
      if gap < cfg.idleMs then [event] + Heard(cfg, rest) else [ErrorEvent(IDLE_TIMEOUT)]
    case Finish(gap) => if gap < cfg.idleMs then [] else [ErrorEvent(IDLE_TIMEOUT)]
    case Fail(gap, error) => [ErrorEvent(if gap < cfg.idleMs then error else IDLE_TIMEOUT)]
    case Silent => [ErrorEvent(IDLE_TIMEOUT)]
  }

  function Voice(cfg: Config, s: Script): seq<StreamEvent> {
    if s.Emit? then [s.event] + Heard(cfg, s.rest) else []
  }

  /** All events of a script. */
  function Events(s: Script): seq<StreamEvent> {
    if s.Emit? then [s.event] + Events(s.rest) else []
  }

  /** The script ends normally and never pauses as long as the idle limit. */
  predicate Flows(cfg: Config, s: Script) {
    match s
    case Emit(gap, _, rest) => gap < cfg.idleMs && Flows(cfg, rest)
    case Finish(gap) => gap < cfg.idleMs
    case _ => false
  }

  lemma {:induction false} HeardIsPrefix(cfg: Config, s: Script)
    ensures var h := Heard(cfg, s);
            if Flows(cfg, s) then h == Events(s)
            else h != [] && h[|h| - 1].Error? && h[..|h| - 1] <= Events(s)
  {
    if s.Emit? && s.gap < cfg.idleMs {
      HeardIsPrefix(cfg, s.rest);
      var h := Heard(cfg, s.rest);
      if !Flows(cfg, s.rest) {
        assert Heard(cfg, s)[..|h|] == [s.event] + h[..|h| - 1];
      }
    }
  }

  /** Under `Reading` the pump relays the rest of the script, nothing else. */
  lemma {:induction false} PumpReading(cfg: Config, p: AiProvider, attempt: nat, s: Script, board: Board, now: nat)
    ensures var x := Pump(cfg, STEADY, p, Reading(attempt, s), board, now);
            Heard(cfg, s) == x.events + (if x.end.Broken? then [ErrorEvent(x.end.error)] else [])
    decreases s
  {
    if s.Emit? && s.gap < cfg.idleMs {
      PumpReading(cfg, p, attempt, s.rest, board, now + s.gap);
    }
  }

  lemma {:induction false} LeadGrows(cfg: Config, p: AiProvider, a: nat, b: nat)
    requires a < b && forall c :: 0 <= c < b ==> p.streams(c).Fail?
    ensures Lead(cfg, p, a) + p.streams(a).gap + Backoff(cfg, a) <= Lead(cfg, p, b)
    decreases b
  {
    if a < b - 1 {
      LeadGrows(cfg, p, a, b - 1);
    }
  }

  /** A failed attempt that leaves time for the next one. */
  lemma DriveNext(cfg: Config, p: AiProvider, b: nat, board: Board, now: nat) returns (board': Board, now': nat)
    requires b < cfg.maxRetries && (forall c :: 0 <= c <= b ==> p.streams(c).Fail?) && Lead(cfg, p, b + 1) < cfg.idleMs
    ensures Drive(cfg, None, p, b, p.streams(b), false, cfg.idleMs - Lead(cfg, p, b), board, now)
         == Drive(cfg, None, p, b + 1, p.streams(b + 1), false, cfg.idleMs - Lead(cfg, p, b + 1), board', now')
  {
    var s := p.streams(b);
    board', now' := AfterFailure(cfg.limits, board, p.name, now + s.gap), now + (s.gap + Backoff(cfg, b));
  }

  /** The retry loop, entered at attempt `b` with what is left of the idle
      time, stops at the attempt that speaks. */
  lemma {:induction false} DriveSpeaks(cfg: Config, p: AiProvider, b: nat, a: nat, board: Board, now: nat)
    requires b <= a && Speaks(cfg, p, a) && Lead(cfg, p, b) <= cfg.idleMs
    ensures var s := p.streams(a);
            var x := Drive(cfg, None, p, b, p.streams(b), false, cfg.idleMs - Lead(cfg, p, b), board, now);
            if s.Emit? then x.result == Value(s.event) && x.gen == Reading(a, s.rest)
            else x.result == Ended
    decreases a - b
  {
    if b < a {
      LeadGrows(cfg, p, b, a);
      var board', now' := DriveNext(cfg, p, b, board, now);
      DriveSpeaks(cfg, p, b + 1, a, board', now');
    }
  }

  /** If no attempt speaks the retry loop yields nothing. */
  lemma {:induction false} DriveMute(cfg: Config, p: AiProvider, b: nat, board: Board, now: nat)
    requires b <= cfg.maxRetries && (forall c :: 0 <= c < b ==> p.streams(c).Fail?) && Lead(cfg, p, b) <= cfg.idleMs
    requires forall a :: !Speaks(cfg, p, a)
    ensures var x := Drive(cfg, None, p, b, p.streams(b), false, cfg.idleMs - Lead(cfg, p, b), board, now);
            x.result.Thrown? || x.result.Pending?
    decreases cfg.maxRetries - b
  {
    assert !Speaks(cfg, p, b);
    if p.streams(b).Fail? && b < cfg.maxRetries && Lead(cfg, p, b + 1) < cfg.idleMs {
      var board', now' := DriveNext(cfg, p, b, board, now);
      DriveMute(cfg, p, b + 1, board', now');
    }
  }

  /** One provider serves the client exactly if the breaker admits it and one
      of its attempts speaks; then the client hears that attempt. */
  lemma PumpExact(cfg: Config, p: AiProvider, board: Board, now: nat)
    ensures var x := Pump(cfg, STEADY, p, Unopened, board, now);
            && ((x.events == [] && x.end.Broken?) <==>
                !(Admits(cfg.limits, board, p.name, now) && exists a :: Speaks(cfg, p, a)))
            && forall a :: Speaks(cfg, p, a) && Admits(cfg.limits, board, p.name, now) ==>
                 Voice(cfg, p.streams(a)) == x.events + (if x.end.Broken? then [ErrorEvent(x.end.error)] else [])
  {
    var x := Pump(cfg, STEADY, p, Unopened, board, now);
    if Admits(cfg.limits, board, p.name, now) {
      forall a | Speaks(cfg, p, a)
        ensures Voice(cfg, p.streams(a)) == x.events + (if x.end.Broken? then [ErrorEvent(x.end.error)] else [])
        ensures x.events != [] || x.end.Completed?
      {
        DriveSpeaks(cfg, p, 0, a, AfterCheck(board, p.name), now);
        var y := PullFrom(cfg, None, p, Unopened, cfg.idleMs, board, now);
        if p.streams(a).Emit? {
          PumpReading(cfg, p, a, p.streams(a).rest, y.board, y.now);
        }
      }
      if forall a :: !Speaks(cfg, p, a) {
        DriveMute(cfg, p, 0, AfterCheck(board, p.name), now);
      }
    }
  }

  /** Board and clock at which provider `i` is reached when every provider
      before it served nothing. */
  function Reached(cfg: Config, chain: seq<Leg>, i: nat, board: Board, now: nat): (Board, nat)
    requires i <= |chain|
  {
    if i == 0 then (board, now) else
      var (b, t) := Reached(cfg, chain, i - 1, board, now);
      var x := Pump(cfg, STEADY, chain[i - 1].provider, Unopened, b, t);
      (x.board, x.now)
  }

  /** Attempt `a` of provider `i` would serve the client. */
  ghost predicate Serves(cfg: Config, chain: seq<Leg>, board: Board, now: nat, i: nat, a: nat) {
    && i < |chain|
    && Speaks(cfg, chain[i].provider, a)
    && var (b, t) := Reached(cfg, chain, i, board, now);
       Admits(cfg.limits, b, chain[i].provider.name, t)
  }

  lemma {:induction false} ReachedTail(cfg: Config, chain: seq<Leg>, i: nat, board: Board, now: nat)
    requires 0 < i <= |chain|
    ensures var x := Pump(cfg, STEADY, chain[0].provider, Unopened, board, now);
            Reached(cfg, chain, i, board, now) == Reached(cfg, chain[1..], i - 1, x.board, x.now)
  {
    if i > 1 {
      ReachedTail(cfg, chain, i - 1, board, now);
    }
  }

  lemma ServesTail(cfg: Config, chain: seq<Leg>, board: Board, now: nat, i: nat, a: nat)
    requires chain != []
    ensures var x := Pump(cfg, STEADY, chain[0].provider, Unopened, board, now);
            Serves(cfg, chain[1..], x.board, x.now, i, a) == Serves(cfg, chain, board, now, i + 1, a)
  {
    if i + 1 <= |chain| {
      ReachedTail(cfg, chain, i + 1, board, now);
    }
  }

  /** A provider that serves nothing is passed over. */
  lemma LegSkipped(cfg: Config, model: string, chain: seq<Leg>, lastError: Option<string>, board: Board, now: nat)
    returns (error: string)
    requires chain != [] && forall a :: !Serves(cfg, chain, board, now, 0, a)
    ensures var x := Pump(cfg, STEADY, chain[0].provider, Unopened, board, now);
            && x.end == Broken(error)
            && StreamFrom(cfg, STEADY, model, chain, lastError, board, now)
               == StreamFrom(cfg, STEADY, model, chain[1..], Some(error), x.board, x.now)
  {
    var p := chain[0].provider;
    PumpExact(cfg, p, board, now);
    forall a | Speaks(cfg, p, a) ensures !Admits(cfg.limits, board, p.name, now) {
      assert !Serves(cfg, chain, board, now, 0, a);
    }
    error := Pump(cfg, STEADY, p, Unopened, board, now).end.error;
  }

  lemma LegHeard(cfg: Config, model: string, chain: seq<Leg>, lastError: Option<string>, board: Board, now: nat, a: nat)
    requires Serves(cfg, chain, board, now, 0, a)
    ensures StreamFrom(cfg, STEADY, model, chain, lastError, board, now).0 == Voice(cfg, chain[0].provider.streams(a))
  {
    PumpExact(cfg, chain[0].provider, board, now);
  }

  /** Exact source: a client hears the first attempt, in provider and retry
      order, that yields or ends normally - and nothing else. */
  lemma {:induction false} ExactSource(cfg: Config, model: string, chain: seq<Leg>, lastError: Option<string>,
                                       board: Board, now: nat, i: nat, a: nat)
    requires Serves(cfg, chain, board, now, i, a)
    requires forall i', a' :: 0 <= i' < i ==> !Serves(cfg, chain, board, now, i', a')
    ensures StreamFrom(cfg, STEADY, model, chain, lastError, board, now).0 == Voice(cfg, chain[i].provider.streams(a))
    decreases i
  {
    if i == 0 {
      LegHeard(cfg, model, chain, lastError, board, now, a);
    } else {
      var x := Pump(cfg, STEADY, chain[0].provider, Unopened, board, now);
      var error := LegSkipped(cfg, model, chain, lastError, board, now);
      ServesTail(cfg, chain, board, now, i - 1, a);
      forall i', a' | 0 <= i' < i - 1 ensures !Serves(cfg, chain[1..], x.board, x.now, i', a') {
        ServesTail(cfg, chain, board, now, i', a');
        assert !Serves(cfg, chain, board, now, i' + 1, a');
      }
      ExactSource(cfg, model, chain[1..], Some(error), x.board, x.now, i - 1, a);
    }
  }

  /** If that attempt then never pauses for the idle limit and ends normally, the
      client hears all of its events; if not, a first part and one error. */
  lemma {:induction false} ServedWhole(cfg: Config, s: Script)
    requires s.Emit? || s.Finish?
    ensures var h, whole := Voice(cfg, s), s.Finish? || Flows(cfg, s.rest);
            if whole then h == Events(s)
            else h != [] && h[|h| - 1].Error? && h[..|h| - 1] <= Events(s)
  {
    if s.Emit? {
      HeardIsPrefix(cfg, s.rest);
      var h := Heard(cfg, s.rest);
      if !Flows(cfg, s.rest) {
        assert Voice(cfg, s)[..|h|] == [s.event] + h[..|h| - 1];
      }
    }
  }

  /** The error of the last provider of the chain. */
  function LastBroken(cfg: Config, chain: seq<Leg>, board: Board, now: nat): string
    requires chain != []
  {
    var (b, t) := Reached(cfg, chain, |chain| - 1, board, now);
    var x := Pump(cfg, STEADY, chain[|chain| - 1].provider, Unopened, b, t);
    if x.end.Broken? then x.end.error else ""
  }

  lemma LastBrokenTail(cfg: Config, chain: seq<Leg>, board: Board, now: nat)
    requires |chain| > 1
    ensures var x := Pump(cfg, STEADY, chain[0].provider, Unopened, board, now);
            LastBroken(cfg, chain, board, now) == LastBroken(cfg, chain[1..], x.board, x.now)
  {
    ReachedTail(cfg, chain, |chain| - 1, board, now);
  }

  /** If no attempt qualifies the client gets exactly one error event, with the
      last provider's error. */
  lemma {:induction false} NoSource(cfg: Config, model: string, chain: seq<Leg>, lastError: Option<string>,
                                    board: Board, now: nat)
    requires forall i, a :: 0 <= i < |chain| ==> !Serves(cfg, chain, board, now, i, a)
    ensures StreamFrom(cfg, STEADY, model, chain, lastError, board, now).0
         == [Error(if chain != [] then "All providers failed. Last error: " + LastBroken(cfg, chain, board, now)
                   else if lastError.Some? then "All providers failed. Last error: " + lastError.value
                   else "All providers failed for model \"" + model + "\"", None)]
    decreases |chain|
  {
    if chain != [] {
      var x := Pump(cfg, STEADY, chain[0].provider, Unopened, board, now);
      var error := LegSkipped(cfg, model, chain, lastError, board, now);
      forall i, a | 0 <= i < |chain[1..]| ensures !Serves(cfg, chain[1..], x.board, x.now, i, a) {
        ServesTail(cfg, chain, board, now, i, a);
        assert !Serves(cfg, chain, board, now, i + 1, a);
      }
      NoSource(cfg, model, chain[1..], Some(error), x.board, x.now);
      if |chain| > 1 {
        LastBrokenTail(cfg, chain, board, now);
      }
    }
  }

  // ---- A consumer that breaks off ----

  /** A consumer that breaks off at event `k` gets what it would have got by
      staying, up to that event. */
  lemma {:induction false} PumpCut(cfg: Config, abort: Option<nat>, k: nat, p: AiProvider, gen: Gen, board: Board,
                                   now: nat)
    ensures var x := Pump(cfg, Caller(abort, Some(k)), p, gen, board, now);
            var full := Pump(cfg, Caller(abort, None), p, gen, board, now);
            if k < |full.events| then x.events == full.events[..k + 1] && x.end == Left else x == full
    decreases if gen.Unopened? then 1 else 0, if gen.Reading? then gen.rest else Silent
  {
    var x := PullFrom(cfg, abort, p, gen, cfg.idleMs, board, now);
    if x.result.Value? {
      PullAdvances(cfg, abort, p, gen, cfg.idleMs, board, now);
      if k > 0 {
        PumpCut(cfg, abort, k - 1, p, x.gen, x.board, x.now);
      }
    }
  }

  function Cut(out: seq<StreamEvent>, k: nat): seq<StreamEvent> {
    if k < |out| then out[..k + 1] else out
  }

  lemma {:induction false} BreakCutsStream(cfg: Config, abort: Option<nat>, k: nat, model: string, chain: seq<Leg>,
                                           lastError: Option<string>, board: Board, now: nat)
    ensures StreamFrom(cfg, Caller(abort, Some(k)), model, chain, lastError, board, now).0
         == Cut(StreamFrom(cfg, Caller(abort, None), model, chain, lastError, board, now).0, k)
    decreases |chain|
  {
    if chain != [] {
      PumpCut(cfg, abort, k, chain[0].provider, Unopened, board, now);
      var full := Pump(cfg, Caller(abort, None), chain[0].provider, Unopened, board, now);
      if full.end.Broken? && full.events == [] && !Gone(abort, full.now) {
        BreakCutsStream(cfg, abort, k, model, chain[1..], Some(full.end.error), full.board, full.now);
      } else if full.end.Broken? {
        assert k < |full.events| ==> (full.events + [ErrorEvent(full.end.error)])[..k + 1] == full.events[..k + 1];
      }
    }
  }

  /** A provider that is turned away by log and clock ends its turn at once: no
      event, no time, no trace. */
  lemma PumpAdmission(cfg: Config, who: Caller, p: AiProvider, board: Board, now: nat)
    requires CircuitMatchesLog(cfg.limits, board, p.name) && TurnedAway(cfg.limits, board.log, p.name, now)
    ensures Pump(cfg, who, p, Unopened, board, now)
         == Pumped([], Broken("Circuit breaker is open for provider \"" + p.name + "\"."), board, now)
  {
    AdmittedByLog(cfg.limits, board, p.name, now);
  }

  /** A stall - silence, or a first pause of the idle limit or more - ends the
      provider's turn at that limit: no retry is made and no failure recorded. */
  lemma StallForfeitsRetries(cfg: Config, p: AiProvider, board: Board, now: nat)
    requires Admits(cfg.limits, board, p.name, now)
    requires p.streams(0).Silent? || p.streams(0).gap >= cfg.idleMs
    ensures Pump(cfg, STEADY, p, Unopened, board, now)
         == Pumped([], Broken("Stream idle timeout"), AfterCheck(board, p.name), now + cfg.idleMs)
  {
  }

  // ---- Providers do not disturb each other's breakers ----

  lemma {:induction false} DriveFrame(cfg: Config, abort: Option<nat>, p: AiProvider, attempt: nat, script: Script,
                                      yielded: bool, left: nat, board: Board, now: nat, other: string)
    requires other != p.name
    ensures var x := Drive(cfg, abort, p, attempt, script, yielded, left, board, now);
            Lookup(x.board, other) == Lookup(board, other)
    decreases cfg.maxRetries - attempt
  {
    if script.Fail? && script.gap < left && !yielded && attempt < cfg.maxRetries {
      var wait := script.gap + Backoff(cfg, attempt);
      if wait < left {
        DriveFrame(cfg, abort, p, attempt + 1, p.streams(attempt + 1), false, left - wait,
                   AfterFailure(cfg.limits, board, p.name, now + script.gap), now + wait, other);
      }
    }
  }

  lemma {:induction false} PumpFrame(cfg: Config, who: Caller, p: AiProvider, gen: Gen, board: Board, now: nat,
                                     other: string)
    requires other != p.name
    ensures Lookup(Pump(cfg, who, p, gen, board, now).board, other) == Lookup(board, other)
    decreases if gen.Unopened? then 1 else 0, if gen.Reading? then gen.rest else Silent
  {
    var x := PullFrom(cfg, who.abort, p, gen, cfg.idleMs, board, now);
    if gen.Unopened? {
      DriveFrame(cfg, who.abort, p, 0, p.streams(0), false, cfg.idleMs, AfterCheck(board, p.name), now, other);
    } else if gen.Reading? {
      DriveFrame(cfg, who.abort, p, gen.attempt, gen.rest, true, cfg.idleMs, board, now, other);
    }
    if x.result.Value? && who.breaksAt != Some(0) {
      PullAdvances(cfg, who.abort, p, gen, cfg.idleMs, board, now);
      PumpFrame(cfg, who.After(), p, x.gen, x.board, x.now, other);
    }
  }

  /** Along a chain without repeated providers, each is admitted or rejected on
      the circuit it had when the request began. */
  lemma {:induction false} AdmissionUndisturbed(cfg: Config, chain: seq<Leg>, i: nat, board: Board, now: nat)
    requires i < |chain|
    requires forall j :: 0 <= j < i ==> chain[j].provider.name != chain[i].provider.name
    ensures var name := chain[i].provider.name;
            Lookup(Reached(cfg, chain, i, board, now).0, name) == Lookup(board, name)
  {
    ReachedFrame(cfg, chain, i, board, now, chain[i].provider.name);
  }

  lemma {:induction false} ReachedFrame(cfg: Config, chain: seq<Leg>, i: nat, board: Board, now: nat, other: string)
    requires i <= |chain| && forall j :: 0 <= j < i ==> chain[j].provider.name != other
    ensures Lookup(Reached(cfg, chain, i, board, now).0, other) == Lookup(board, other)
  {
    if i > 0 {
      ReachedFrame(cfg, chain, i - 1, board, now, other);
      var (b, t) := Reached(cfg, chain, i - 1, board, now);
      PumpFrame(cfg, STEADY, chain[i - 1].provider, Unopened, b, t, other);
    }
  }

  // ---- The non-streaming path ----

  function Responded(cfg: Config, chain: seq<Leg>, i: nat, board: Board, now: nat): (Board, nat)
    requires i <= |chain|
  {
    if i == 0 then (board, now) else
      var (b, t) := Responded(cfg, chain, i - 1, board, now);
      var x := ExecuteChecked(cfg, None, chain[i - 1].provider, b, t);
      (x.board, x.now)
  }

  /** Attempt `a` of provider `i` would answer the caller: the breaker admits
      the provider and this is its first attempt to resolve in time. */
  ghost predicate Answers(cfg: Config, chain: seq<Leg>, board: Board, now: nat, i: nat, a: nat) {
    && i < |chain|
    && a <= cfg.maxRetries
    && InTime(cfg, chain[i].provider.replies(a))
    && (forall b :: 0 <= b < a ==> !InTime(cfg, chain[i].provider.replies(b)))
    && var (b, t) := Responded(cfg, chain, i, board, now);
       Admits(cfg.limits, b, chain[i].provider.name, t)
  }

  /** Response `x` is what attempt `a` of provider `i` resolved to, and no
      provider before `i` would have answered. */
  ghost predicate AnsweredBy(cfg: Config, chain: seq<Leg>, board: Board, now: nat, i: nat, a: nat, x: Response) {
    && Answers(cfg, chain, board, now, i, a)
    && (forall i', a' :: 0 <= i' < i ==> !Answers(cfg, chain, board, now, i', a'))
    && x == Response(chain[i].provider.replies(a).response, chain[i].provider.name, chain[i].modelId, i > 0)
  }

  lemma {:induction false} FirstInTime(cfg: Config, p: AiProvider, from: nat) returns (a: nat)
    requires exists c: nat :: from <= c <= cfg.maxRetries && InTime(cfg, p.replies(c))
    ensures from <= a <= cfg.maxRetries && InTime(cfg, p.replies(a))
    ensures forall b :: from <= b < a ==> !InTime(cfg, p.replies(b))
    decreases cfg.maxRetries - from
  {
    if InTime(cfg, p.replies(from)) {
      a := from;
    } else {
      a := FirstInTime(cfg, p, from + 1);
    }
  }

  /** One provider answers exactly if one of its attempts would. */
  lemma CallExact(cfg: Config, chain: seq<Leg>, i: nat, board: Board, now: nat)
    requires i < |chain|
    ensures var (b, t) := Responded(cfg, chain, i, board, now);
            var x := ExecuteChecked(cfg, None, chain[i].provider, b, t);
            if x.answer.Answered? then
              exists a :: Answers(cfg, chain, board, now, i, a)
                          && x.answer.response == chain[i].provider.replies(a).response
            else forall a :: !Answers(cfg, chain, board, now, i, a)
  {
    var (b, t) := Responded(cfg, chain, i, board, now);
    var p := chain[i].provider;
    if Admits(cfg.limits, b, p.name, t) {
      if exists a: nat :: a <= cfg.maxRetries && InTime(cfg, p.replies(a)) {
        var a := FirstInTime(cfg, p, 0);
        AnswerOfFirst(cfg, p, 0, a, AfterCheck(b, p.name), t);
        assert Answers(cfg, chain, board, now, i, a);
      } else {
        ErrorOfRefusal(cfg, p, 0, AfterCheck(b, p.name), t);
      }
    }
  }

  /** A response is the first qualifying attempt's; an error means there is none. */
  ghost predicate FirstAnswer(cfg: Config, chain: seq<Leg>, board: Board, now: nat, r: Reported) {
    match r
    case Ok(x) => exists i, a :: AnsweredBy(cfg, chain, board, now, i, a, x)
    case Err(_) => forall i, a :: 0 <= i < |chain| ==> !Answers(cfg, chain, board, now, i, a)
  }

  lemma AnsweredHere(cfg: Config, chain: seq<Leg>, i: nat, board: Board, now: nat, text: string)
    requires i < |chain| && forall i', a :: 0 <= i' < i ==> !Answers(cfg, chain, board, now, i', a)
    requires exists a :: Answers(cfg, chain, board, now, i, a) && text == chain[i].provider.replies(a).response
    ensures var x := Response(text, chain[i].provider.name, chain[i].modelId, i > 0);
            FirstAnswer(cfg, chain, board, now, Ok(x))
  {
    var a :| Answers(cfg, chain, board, now, i, a) && text == chain[i].provider.replies(a).response;
    assert AnsweredBy(cfg, chain, board, now, i, a, Response(text, chain[i].provider.name, chain[i].modelId, i > 0));
  }

  /** One provider of the loop: its answer, or on to the next. */
  lemma LegResponds(cfg: Config, model: string, chain: seq<Leg>, i: nat, lastError: Option<string>, board: Board,
                    now: nat)
    requires i < |chain|
    ensures var (b, t) := Responded(cfg, chain, i, board, now);
            var (b', t') := Responded(cfg, chain, i + 1, board, now);
            var answer := ExecuteChecked(cfg, None, chain[i].provider, b, t).answer;
            RespondFrom(cfg, None, model, chain, i, lastError, b, t).0
            == match answer
               case Answered(text) => Ok(Response(text, chain[i].provider.name, chain[i].modelId, i > 0))
               case Refused(error) => RespondFrom(cfg, None, model, chain, i + 1, Some(error), b', t').0
  {
  }

  /** The first attempt to resolve in time, in provider and retry order, is the
      answer; without one the call fails. */
  lemma {:induction false} FirstAnswerWins(cfg: Config, model: string, chain: seq<Leg>, from: nat,
                                           lastError: Option<string>, board: Board, now: nat)
    requires from <= |chain|
    requires forall i, a :: 0 <= i < from ==> !Answers(cfg, chain, board, now, i, a)
    ensures var (b, t) := Responded(cfg, chain, from, board, now);
            FirstAnswer(cfg, chain, board, now, RespondFrom(cfg, None, model, chain, from, lastError, b, t).0)
    decreases |chain| - from
  {
    if from < |chain| {
      var (b, t) := Responded(cfg, chain, from, board, now);
      var answer := ExecuteChecked(cfg, None, chain[from].provider, b, t).answer;
      LegResponds(cfg, model, chain, from, lastError, board, now);
      CallExact(cfg, chain, from, board, now);
      if answer.Answered? {
        AnsweredHere(cfg, chain, from, board, now, answer.response);
      } else {
        FirstAnswerWins(cfg, model, chain, from + 1, Some(answer.error), board, now);
      }
    }
  }

  /** A call that fails reports the last provider's error. */
  lemma {:induction false} RefusalText(cfg: Config, model: string, chain: seq<Leg>, from: nat,
                                       lastError: Option<string>, board: Board, now: nat)
    requires from < |chain|
    ensures var (b, t) := Responded(cfg, chain, from, board, now);
            var r := RespondFrom(cfg, None, model, chain, from, lastError, b, t).0;
            r.Err? ==>
              var (b', t') := Responded(cfg, chain, |chain| - 1, board, now);
              var last := ExecuteChecked(cfg, None, chain[|chain| - 1].provider, b', t').answer;
              last.Refused? && r.error == "All providers failed. Last error: " + last.error
    decreases |chain| - from
  {
    LegResponds(cfg, model, chain, from, lastError, board, now);
    var (b, t) := Responded(cfg, chain, from, board, now);
    var answer := ExecuteChecked(cfg, None, chain[from].provider, b, t).answer;
    if answer.Refused? && from + 1 < |chain| {
      RefusalText(cfg, model, chain, from + 1, Some(answer.error), board, now);
    }
  }
}
