/** The per-provider circuit breaker of `PolicyService`, as functions on the
    circuit map, and what a circuit means in terms of everything that was
    recorded on it. */
module Breaker {

  datatype Circuit = Circuit(failures: nat, lastFailure: nat, isOpen: bool)

  datatype Limits = Limits(threshold: int, resetMs: int)

  /** One change of the circuit map, as it was recorded. */
  datatype Effect =
    | Failed(provider: string, at: nat)
    | Succeeded(provider: string)
    | TimedReset(provider: string)

  /** The circuit map together with the log of all effects on it. The code
      keeps the map only; the log is what the map is judged against. */
  datatype Board = Board(circuits: map<string, Circuit>, log: seq<Effect>)

  const FRESH_BOARD := Board(map[], [])

  function Lookup(b: Board, provider: string): Circuit {
    if provider in b.circuits then b.circuits[provider] else Circuit(0, 0, false)
  }

  predicate Open(b: Board, provider: string) {
    Lookup(b, provider).isOpen
  }

  /** Whether `checkCircuitBreaker` returns rather than throws. */
  predicate Admits(l: Limits, b: Board, provider: string, now: nat) {
    var c := Lookup(b, provider);
    !c.isOpen || now - c.lastFailure >= l.resetMs
  }

  /** The board after a check that returned: an open circuit is reset. */
  function AfterCheck(b: Board, provider: string): Board {
    var c := Lookup(b, provider);
    if c.isOpen then
      Board(b.circuits[provider := c.(isOpen := false, failures := 0)], b.log + [TimedReset(provider)])
    else
      b
  }

  function AfterSuccess(b: Board, provider: string): Board {
    var log := b.log + [Succeeded(provider)];
    if provider in b.circuits then
      Board(b.circuits[provider := b.circuits[provider].(failures := 0, isOpen := false)], log)
    else
      Board(b.circuits, log)
  }

  function AfterFailure(l: Limits, b: Board, provider: string, now: nat): Board {
    var c := Lookup(b, provider);
    var failures := c.failures + 1;
    var isOpen := c.isOpen || failures >= l.threshold;
    Board(b.circuits[provider := Circuit(failures, now, isOpen)], b.log + [Failed(provider, now)])
  }

  /** Failures recorded for a provider since its last success or timed reset,
      read backwards off the log. */
  function FailuresSince(log: seq<Effect>, provider: string): nat {
    if log == [] then 0 else
      var before := log[..|log| - 1];
      match log[|log| - 1]
      case Failed(p, _) => FailuresSince(before, provider) + if p == provider then 1 else 0
      case Succeeded(p) => if p == provider then 0 else FailuresSince(before, provider)
      case TimedReset(p) => if p == provider then 0 else FailuresSince(before, provider)
  }

  /** When a provider last failed, 0 if it never did. */
  function LastFailureIn(log: seq<Effect>, provider: string): nat {
    if log == [] then 0 else
      match log[|log| - 1]
      case Failed(p, at) => if p == provider then at else LastFailureIn(log[..|log| - 1], provider)
      case _ => LastFailureIn(log[..|log| - 1], provider)
  }

  /** The failure count at which a circuit opens. A threshold below one still
      needs one recorded failure, because only `recordFailure` opens. */
  function Trip(l: Limits): (n: nat)
    ensures n >= 1 && n >= l.threshold && (n == 1 || n == l.threshold)
  {
    if l.threshold < 1 then 1 else l.threshold
  }

  ghost predicate CircuitMatchesLog(l: Limits, b: Board, provider: string) {
    var c := Lookup(b, provider);
    && c.failures == FailuresSince(b.log, provider)
    && c.lastFailure == LastFailureIn(b.log, provider)
    && (c.isOpen <==> c.failures >= Trip(l))
  }

  ghost predicate MatchesLog(l: Limits, b: Board) {
    forall p :: CircuitMatchesLog(l, b, p)
  }

  lemma CheckKeepsLog(l: Limits, b: Board, provider: string)
    requires MatchesLog(l, b)
    ensures MatchesLog(l, AfterCheck(b, provider))
  {
    var b' := AfterCheck(b, provider);
    forall p ensures CircuitMatchesLog(l, b', p) {
      assert CircuitMatchesLog(l, b, p);
      assert b'.log != b.log ==> b'.log[..|b'.log| - 1] == b.log;
    }
  }

  lemma SuccessKeepsLog(l: Limits, b: Board, provider: string)
    requires MatchesLog(l, b)
    ensures MatchesLog(l, AfterSuccess(b, provider))
    ensures !Open(AfterSuccess(b, provider), provider)
  {
    var b' := AfterSuccess(b, provider);
    forall p ensures CircuitMatchesLog(l, b', p) {
      assert CircuitMatchesLog(l, b, p);
      assert b'.log[..|b'.log| - 1] == b.log;
    }
  }

  lemma FailureKeepsLog(l: Limits, b: Board, provider: string, now: nat)
    requires MatchesLog(l, b)
    ensures MatchesLog(l, AfterFailure(l, b, provider, now))
  {
    var b' := AfterFailure(l, b, provider, now);
    forall p ensures CircuitMatchesLog(l, b', p) {
      assert CircuitMatchesLog(l, b, p);
      assert b'.log[..|b'.log| - 1] == b.log;
    }
  }

  // ---- Admission, read off the log and the clock ----

  /** The failures logged since the last success or reset have reached the
      threshold. */
  predicate OpenByLog(l: Limits, log: seq<Effect>, provider: string) {
    FailuresSince(log, provider) >= 1 && FailuresSince(log, provider) >= l.threshold
  }

  /** A call is turned away: its circuit is open, and the reset time has not gone
      by since the last failure. */
  predicate TurnedAway(l: Limits, log: seq<Effect>, provider: string, now: nat) {
    OpenByLog(l, log, provider) && now - LastFailureIn(log, provider) < l.resetMs
  }

  /** A board after a call was let through: an open circuit was closed, and that
      was logged; a closed one was left alone. */
  ghost predicate LetThrough(l: Limits, b: Board, provider: string, b': Board) {
    if OpenByLog(l, b.log, provider) then
      && b'.log == b.log + [TimedReset(provider)] && FailuresSince(b'.log, provider) == 0 && !Open(b', provider)
      && (forall q :: q != provider ==> Lookup(b', q) == Lookup(b, q))
    else
      b' == b
  }

  lemma AdmittedByLog(l: Limits, b: Board, provider: string, now: nat)
    requires CircuitMatchesLog(l, b, provider)
    ensures Admits(l, b, provider, now) <==> !TurnedAway(l, b.log, provider, now)
    ensures LetThrough(l, b, provider, AfterCheck(b, provider))
  {
    var b' := AfterCheck(b, provider);
    assert b'.log != b.log ==> b'.log[..|b'.log| - 1] == b.log;
  }
}
