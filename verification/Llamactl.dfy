/** The llamactl adapter's stream
    (libs/provider-llamactl/src/llamactl.adapter.ts): an upstream run that may
    be cut off becomes a unified stream with one terminal event. */
module LlamactlStream {
  import opened Unified

  datatype NovaEvent =
    | Chunk(delta: Option<string>)
    | ToolCallChunk
    | NovaError(message: string, code: Option<string>)
    | NovaDone(upstreamSignalled: bool, finishReason: Option<string>)

  datatype Ending = Ends | Throws(message: string)

  /** A finite upstream run consumed to the end. `closing` is what the run's
      iterator throws, if anything, when it is closed before its end. */
  datatype Upstream = Unsupported | Run(events: seq<NovaEvent>, ending: Ending, closing: Option<string>)

  predicate IsTerminal(e: NovaEvent) {
    e.NovaError? || e.NovaDone?
  }

  predicate Terminal(e: StreamEvent) {
    e.Done? || e.Error?
  }

  function FirstTerminal(events: seq<NovaEvent>): (k: nat)
    ensures k <= |events|
    ensures k < |events| ==> IsTerminal(events[k])
    ensures forall i :: 0 <= i < k ==> !IsTerminal(events[i])
  {
    if events == [] || IsTerminal(events[0]) then 0 else 1 + FirstTerminal(events[1..])
  }

  /** `novaStreamEventToSirius` on the events that are not terminal. */
  function Translate(e: NovaEvent): seq<StreamEvent> {
    if e.Chunk? && e.delta.Some? && e.delta.value != "" then [ContentDelta(e.delta.value)] else []
  }

  function Deltas(events: seq<NovaEvent>): (out: seq<StreamEvent>)
    ensures forall e :: e in out ==> !Terminal(e)
  {
    if events == [] then [] else Deltas(events[..|events| - 1]) + Translate(events[|events| - 1])
  }

  lemma DeltasOneMore(events: seq<NovaEvent>, i: nat)
    requires i < |events|
    ensures Deltas(events[..i + 1]) == Deltas(events[..i]) + Translate(events[i])
  {
    assert events[..i + 1][..i] == events[..i];
  }

  const UPSTREAM_EOF := "upstream_eof"

  function Eof(): StreamEvent {
    Error("upstream stream ended without a completion signal", Some(UPSTREAM_EOF))
  }

  /** The upstream said it finished: its first terminal event is a `done` that
      it signalled itself. */
  predicate Finished(u: Upstream) {
    u.Run? && var k := FirstTerminal(u.events);
    k < |u.events| && u.events[k].NovaDone? && u.events[k].upstreamSignalled
  }

  /** Leaving the loop at a `done` closes the upstream iterator; if that throws,
      the catch block speaks again. */
  predicate ClosingSpeaks(u: Upstream) {
    u.Run? && u.closing.Some? && var k := FirstTerminal(u.events);
    k < |u.events| && u.events[k].NovaDone?
  }

  /** The stream is well terminated: one terminal event, in last position. */
  predicate WellTerminated(out: seq<StreamEvent>) {
    out != [] && Terminal(out[|out| - 1]) && forall i :: 0 <= i < |out| - 1 ==> !Terminal(out[i])
  }

  predicate SaysDone(out: seq<StreamEvent>) {
    exists i :: 0 <= i < |out| && out[i].Done?
  }

  /** What the upstream said before its first terminal event. */
  function Content(u: Upstream): seq<StreamEvent> {
    if u.Run? then Deltas(u.events[..FirstTerminal(u.events)]) else []
  }

  /** What the adapter adds after the content. */
  function Closing(name: string, u: Upstream): seq<StreamEvent> {
    if u.Unsupported? then [Error(name + ": upstream does not support streaming", Some("stream_unsupported"))] else
      var k := FirstTerminal(u.events);
      if k == |u.events| then [if u.ending.Throws? then Error(u.ending.message, Some(UPSTREAM_EOF)) else Eof()]
      else AtTerminal(u.events[k], u.closing)
  }

  function AtTerminal(e: NovaEvent, closing: Option<string>): seq<StreamEvent>
    requires IsTerminal(e)
  {
    if e.NovaError? then [Error(e.message, NonEmpty(e.code))] else
      [if e.upstreamSignalled then Done(if e.finishReason.Some? then e.finishReason.value else "stop") else Eof()]
      + if closing.Some? then [Error(closing.value, Some(UPSTREAM_EOF))] else []
  }

  method StreamResponse(name: string, u: Upstream) returns (out: seq<StreamEvent>)
    ensures out == Content(u) + Closing(name, u)
  {
    match u
    case Unsupported =>
      return [Error(name + ": upstream does not support streaming", Some("stream_unsupported"))];
    case Run(events, ending, closing) =>
      out := [];
      for i := 0 to |events|
        invariant i <= FirstTerminal(events)
        invariant out == Deltas(events[..i])
      {
        var e := events[i];
        if IsTerminal(e) {
          assert FirstTerminal(events) == i;
          var last := Finish(e, closing);
          return out + last;
        }
        DeltasOneMore(events, i);
        if e.Chunk? && e.delta.Some? && e.delta.value != "" {
          out := out + [ContentDelta(e.delta.value)];
        }
      }
      assert events[..|events|] == events;
      out := out + [if ending.Throws? then Error(ending.message, Some(UPSTREAM_EOF)) else Eof()];
  }

  /** The terminal branches of the loop, and the catch block if closing throws
      after a `done`. */
  method Finish(e: NovaEvent, closing: Option<string>) returns (last: seq<StreamEvent>)
    requires IsTerminal(e)
    ensures last == AtTerminal(e, closing)
  {
    if e.NovaError? {
      return [Error(e.message, NonEmpty(e.code))];
    }
    if e.upstreamSignalled {
      last := [Done(if e.finishReason.Some? then e.finishReason.value else "stop")];
    } else {
      last := [Eof()];
    }
    if closing.Some? {
      last := last + [Error(closing.value, Some(UPSTREAM_EOF))];
    }
  }

  lemma ClosingShape(name: string, u: Upstream)
    ensures var last := Closing(name, u);
            && 1 <= |last| <= 2 && Terminal(last[0]) && Terminal(last[|last| - 1])
            && (|last| == 1 <==> !ClosingSpeaks(u))
            && (last[0].Done? <==> Finished(u))
            && (|last| == 2 ==> last[1].Error?)
  {
  }

  lemma TerminatedWhenOne(content: seq<StreamEvent>, last: seq<StreamEvent>)
    requires forall e :: e in content ==> !Terminal(e)
    requires 1 <= |last| <= 2 && Terminal(last[0]) && Terminal(last[|last| - 1])
    ensures WellTerminated(content + last) <==> |last| == 1
  {
    var out := content + last;
    assert forall i :: 0 <= i < |content| ==> out[i] in content;
    assert out[|content|] == last[0];
  }

  lemma DoneWhenFirst(content: seq<StreamEvent>, last: seq<StreamEvent>)
    requires forall e :: e in content ==> !Terminal(e)
    requires 1 <= |last| <= 2 && (|last| == 2 ==> last[1].Error?)
    ensures SaysDone(content + last) <==> last[0].Done?
  {
    var out := content + last;
    assert forall i :: 0 <= i < |content| ==> out[i] in content;
    assert out[|content|] == last[0];
  }

  /** Every run that is consumed to the end gives one terminal event, in last
      position, exactly if closing the upstream does not speak again; and `done`
      is said exactly if the upstream finished. */
  lemma StreamTerminates(name: string, u: Upstream)
    ensures var out := Content(u) + Closing(name, u);
            && (WellTerminated(out) <==> !ClosingSpeaks(u))
            && (SaysDone(out) <==> Finished(u))
  {
    ClosingShape(name, u);
    TerminatedWhenOne(Content(u), Closing(name, u));
    DoneWhenFirst(Content(u), Closing(name, u));
  }

  /** The text of a list of events. */
  function TextOf(events: seq<StreamEvent>): string {
    if events == [] then "" else
      var last := events[|events| - 1];
      TextOf(events[..|events| - 1]) + if last.ContentDelta? then last.delta else ""
  }

  /** The text of the upstream's chunks. */
  function Said(events: seq<NovaEvent>): string {
    if events == [] then "" else
      var last := events[|events| - 1];
      Said(events[..|events| - 1]) + if last.Chunk? && last.delta.Some? then last.delta.value else ""
  }

  /** The content is the upstream's text, in deltas none of which is empty. */
  lemma {:induction false} DeltasSay(events: seq<NovaEvent>)
    ensures TextOf(Deltas(events)) == Said(events)
    ensures forall e :: e in Deltas(events) ==> e.ContentDelta? && e.delta != ""
  {
    if events != [] {
      var before, last := Deltas(events[..|events| - 1]), Translate(events[|events| - 1]);
      DeltasSay(events[..|events| - 1]);
      if last != [] {
        assert (before + last)[..|before|] == before;
      } else {
        assert before + last == before;
        assert Said(events[..|events| - 1]) + "" == Said(events[..|events| - 1]);
      }
    }
  }

  /** Which terminal event is said first, by the first upstream terminal event. */
  lemma TerminalSays(name: string, u: Upstream)
    ensures var first := Closing(name, u)[0];
            match u
            case Unsupported =>
              first == Error(name + ": upstream does not support streaming", Some("stream_unsupported"))
            case Run(events, ending, _) =>
              var k := FirstTerminal(events);
              var eof := Error("upstream stream ended without a completion signal", Some("upstream_eof"));
              if k == |events| then
                first == if ending.Throws? then Error(ending.message, Some("upstream_eof")) else eof
              else if events[k].NovaError? then
                first == Error(events[k].message, if events[k].code == Some("") then None else events[k].code)
              else if !events[k].upstreamSignalled then first == eof
              else first == Done(if events[k].finishReason.Some? then events[k].finishReason.value else "stop")
  {
  }

  /** A `done` followed by an error: the upstream finishes, and closing it throws. */
  lemma DoneThenError(name: string)
    ensures var u := Upstream.Run([NovaDone(true, None)], Ends, Some("x"));
            Content(u) + Closing(name, u) == [Done("stop"), Error("x", Some(UPSTREAM_EOF))]
  {
    var u := Upstream.Run([NovaDone(true, None)], Ends, Some("x"));
    assert u.events[..0] == [];
    assert Closing(name, u) == [Done("stop")] + [Error("x", Some(UPSTREAM_EOF))];
    assert [] + Closing(name, u) == Closing(name, u);
  }

  /** An error's code is passed on only if it is a non-empty string. */
  function NonEmpty(code: Option<string>): Option<string> {
    if code.Some? && code.value != "" then code else None
  }
}

/** The adapter's map of usage observations, under any interleaving of calls. */
module LlamactlObservations {
  import opened Unified

  type Observation = string

  /** `Observe` is the usage callback; stream attempts carry no id. `Succeed`
      and `Fail` are the two ways a `createResponse` or `createEmbeddings` call
      ends. */
  datatype Step =
    | Begin(id: string)
    | Observe(attemptId: Option<string>, observation: Observation)
    | Succeed(id: string)
    | Fail(id: string)

  /** The adapter's field, and the attempts between their `Begin` and their end. */
  datatype State = State(observations: map<string, Observation>, inFlight: set<string>)

  const INITIAL := State(map[], {})

  function Lookup(m: map<string, Observation>, id: string): Option<Observation> {
    if id in m then Some(m[id]) else None
  }

  /** The callback keeps an observation only if it names an attempt. */
  predicate Keyed(attemptId: Option<string>) {
    attemptId.Some? && attemptId.value != ""
  }

  function Do(s: State, step: Step): State {
    match step
    case Begin(id) => s.(inFlight := s.inFlight + {id})
    case Observe(attemptId, observation) =>
      if Keyed(attemptId) then s.(observations := s.observations[attemptId.value := observation]) else s
    case Succeed(id) => State(s.observations - {id}, s.inFlight - {id})
    case Fail(id) => State(s.observations - {id}, s.inFlight - {id})
  }

  /** Attempts in flight have distinct ids, and only a call in flight ends. */
  predicate Possible(s: State, step: Step) {
    match step
    case Begin(id) => id !in s.inFlight
    case Observe(_, _) => true
    case Succeed(id) => id in s.inFlight
    case Fail(id) => id in s.inFlight
  }

  /** A callback for an attempt that is not in flight. */
  predicate Late(s: State, step: Step) {
    step.Observe? && Keyed(step.attemptId) && step.attemptId.value !in s.inFlight
  }

  function After(trace: seq<Step>): State {
    if trace == [] then INITIAL else Do(After(trace[..|trace| - 1]), trace[|trace| - 1])
  }

  /** A run in which callbacks fire only inside their own call. */
  predicate Run(trace: seq<Step>) {
    trace == [] ||
    var before, step := After(trace[..|trace| - 1]), trace[|trace| - 1];
    Run(trace[..|trace| - 1]) && Possible(before, step) && !Late(before, step)
  }

  /** The last observation reported for an attempt since it began. */
  function LastReported(trace: seq<Step>, id: string): Option<Observation> {
    if trace == [] then None else
      var step := trace[|trace| - 1];
      if step == Begin(id) then None
      else if step.Observe? && step.attemptId == Some(id) then Some(step.observation)
      else LastReported(trace[..|trace| - 1], id)
  }

  /** No entry outlives its call. */
  ghost predicate Clean(s: State) {
    forall id :: id in s.observations ==> id in s.inFlight
  }

  /** Isolation: at every moment of every run, what a call in flight would carry
      away is what was last reported for that very call, or nothing. */
  lemma {:induction false} ObservationIsolation(trace: seq<Step>, id: string)
    requires Run(trace) && id in After(trace).inFlight
    ensures Lookup(After(trace).observations, id) == if id == "" then None else LastReported(trace, id)
  {
    var before, step := trace[..|trace| - 1], trace[|trace| - 1];
    OnlyInFlight(before);
    if id in After(before).inFlight {
      ObservationIsolation(before, id);
    }
  }

  /** In every run the map's keys are attempts in flight, so it is empty when
      nothing is in flight. */
  lemma {:induction false} OnlyInFlight(trace: seq<Step>)
    requires Run(trace)
    ensures Clean(After(trace))
    ensures After(trace).inFlight == {} ==> After(trace).observations == map[]
  {
    if trace != [] {
      OnlyInFlight(trace[..|trace| - 1]);
      LeaksOnlyLate(After(trace[..|trace| - 1]), trace[|trace| - 1]);
    }
    EmptyWhenIdle(After(trace));
  }

  lemma EmptyWhenIdle(s: State)
    requires Clean(s)
    ensures s.inFlight == {} ==> s.observations == map[]
  {
    if s.inFlight == {} {
      assert forall id :: id !in s.observations;
    }
  }

  /** An entry is left behind exactly by a late callback. */
  lemma LeaksOnlyLate(s: State, step: Step)
    requires Clean(s) && Possible(s, step)
    ensures Clean(Do(s, step)) <==> !Late(s, step)
  {
    if Late(s, step) {
      assert step.attemptId.value in Do(s, step).observations;
    }
  }

  /** A callback after its call leaves an entry that a later call of the same id
      then carries away as its own. */
  lemma LateCallbackIsCarried(id: string)
    requires id != ""
    ensures var late := [Begin(id), Fail(id), Observe(Some(id), "old")];
            && After(late) == State(map[id := "old"], {})
            && Lookup(After(late + [Begin(id)]).observations, id) == Some("old")
  {
    var a, b := [Begin(id)], [Begin(id), Fail(id)];
    var late := b + [Observe(Some(id), "old")];
    assert late == [Begin(id), Fail(id), Observe(Some(id), "old")];
    assert a[..0] == [] && b[..1] == a && late[..2] == b && (late + [Begin(id)])[..3] == late;
    assert After(a) == State(map[], {id});
    assert After(b) == State(map[], {});
  }

  /** The adapter: the map is updated in place; the attempts in flight are
      tracked for the specification only. */
  class LlamactlAdapter {
    var observations: map<string, Observation>
    ghost var inFlight: set<string>

    ghost function Held(): State
      reads this
    {
      State(observations, inFlight)
    }

    constructor ()
      ensures Held() == INITIAL
    {
      observations, inFlight := map[], {};
    }

    ghost method Call(id: string)
      requires Possible(Held(), Begin(id))
      modifies this
      ensures Held() == Do(old(Held()), Begin(id))
    {
      inFlight := inFlight + {id};
    }

    method OnUsageObservation(attemptId: Option<string>, observation: Observation)
      modifies this
      ensures Held() == Do(old(Held()), Observe(attemptId, observation))
    {
      if attemptId.Some? && attemptId.value != "" {
        observations := observations[attemptId.value := observation];
      }
    }

    /** The call's own entry is read, then deleted by the finally block. */
    method Resolved(id: string) returns (carried: Option<Observation>)
      requires Possible(Held(), Succeed(id))
      modifies this
      ensures carried == old(Lookup(observations, id))
      ensures Held() == Do(old(Held()), Succeed(id))
    {
      carried := if id in observations then Some(observations[id]) else None;
      Forget(id);
    }

    method Rejected(id: string)
      requires Possible(Held(), Fail(id))
      modifies this
      ensures Held() == Do(old(Held()), Fail(id))
    {
      Forget(id);
    }

    method Forget(id: string)
      modifies this
      ensures observations == old(observations) - {id} && inFlight == old(inFlight) - {id}
    {
      observations := observations - {id};
      inFlight := inFlight - {id};
    }
  }
}
