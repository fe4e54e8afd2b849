/**
 The media-stream handler of main.py, as a state machine over values. The
 state is the list of call logs of every transcriber the handler has
 created, oldest first, and the index of the one its local variable
 currently refers to (none before the first `connected` event). Decoding a
 media payload is a library call and is passed in as `decode`.
 */
module Relay {
  import opened Wrappers
  import opened TwilioTranscriber

  /** Whether `kind` is none of the four kinds the dispatch has a case for. */
  predicate IsUnknownKind(kind: string)
  {
    kind != "connected" && kind != "start" && kind != "media" && kind != "stop"
  }

  /** An event kind the dispatch has no case for. */
  type UnknownKind = k: string | IsUnknownKind(k) witness "mark"

  /** An inbound event, already parsed; `Other` stands for any unlisted kind. */
  datatype Event = Connected | Start | Media(payload: string) | Stop | Other(kind: UnknownKind)

  /** What ends the handler: a media payload the decoder rejects raises. */
  datatype RelayError = DecodeError(payload: string)

  /** The calls made on one transcriber, in order. */
  type Log = seq<Call>

  /** `logs[i]` belongs to the i-th transcriber created; `current` is the one referenced. */
  datatype State = State(logs: seq<Log>, current: Option<nat>)

  /** The handler's state when the WebSocket opens: no transcriber. */
  const Init: State := State([], None)

  /** A transcriber's log: `connect` once, first, then only streams and closes. */
  predicate WellFormed(log: Log)
  {
    |log| > 0 && log[0] == ConnectCall && forall k :: 0 < k < |log| ==> log[k] != ConnectCall
  }

  /** The reference, when set, is to the most recently created transcriber. */
  predicate Valid(s: State)
  {
    && (s.current.None? <==> s.logs == [])
    && (s.current.Some? ==> s.current.value == |s.logs| - 1)
    && forall i :: 0 <= i < |s.logs| ==> WellFormed(s.logs[i])
  }

  /** Records call `c` on the referenced transcriber, if there is one. */
  function Append(s: State, c: Call): (r: State)
    ensures r.current == s.current && |r.logs| == |s.logs|
    ensures s.current.None? ==> r == s
    ensures forall j :: 0 <= j < |s.logs| && Some(j) != s.current ==> r.logs[j] == s.logs[j]
    ensures s.current.Some? && s.current.value < |s.logs| ==>
      r.logs[s.current.value] == s.logs[s.current.value] + [c]
  {
    match s.current
    case None => s
    case Some(i) => if i < |s.logs| then State(s.logs[i := s.logs[i] + [c]], s.current) else s
  }

  /**
   Handles one event. `connected` creates a transcriber, connects it and
   makes it the referenced one; `media` decodes its payload first and then
   streams the frame to the referenced transcriber, if any; `stop` closes the
   referenced transcriber, if any, and keeps the reference; `start` and
   unlisted kinds do nothing.
   */
  function Step(s: State, e: Event, decode: string -> Option<Frame>): (r: Result<State, RelayError>)
    ensures r.Err? <==> e.Media? && decode(e.payload).None?
    ensures r.Err? ==> r.error == DecodeError(e.payload)
    ensures Valid(s) && r.Ok? ==> Valid(r.value)
  {
    match e
    case Connected => Ok(State(s.logs + [[ConnectCall]], Some(|s.logs|)))
    case Start => Ok(s)
    case Media(payload) =>
      (match decode(payload)
       case None => Err(DecodeError(payload))
       case Some(frame) => Ok(Append(s, StreamCall(frame))))
    case Stop => Ok(Append(s, CloseCall))
    case Other(_) => Ok(s)
  }

  /** Where a run of the handler ends: its last state, and the error that ended it, if any. */
  datatype Outcome = Outcome(final: State, error: Option<RelayError>)

  /** The receive loop: events are handled in order until one raises. */
  function Run(s: State, events: seq<Event>, decode: string -> Option<Frame>): (o: Outcome)
    ensures Valid(s) ==> Valid(o.final)
    ensures |s.logs| <= |o.final.logs|
    decreases |events|
  {
    if events == [] then Outcome(s, None)
    else
      match Step(s, events[0], decode)
      case Err(err) => Outcome(s, Some(err))
      case Ok(next) => Run(next, events[1..], decode)
  }

  /** The first media payload in `events` that does not decode, as the error it raises. */
  function FirstError(events: seq<Event>, decode: string -> Option<Frame>): Option<RelayError>
  {
    if events == [] then None
    else if events[0].Media? && decode(events[0].payload).None? then Some(DecodeError(events[0].payload))
    else FirstError(events[1..], decode)
  }

  /** Whether any event in `events` is `connected`. */
  predicate HasConnected(events: seq<Event>)
  {
    exists k :: 0 <= k < |events| && events[k] == Connected
  }

  /** The call a `media` or `stop` event makes on the referenced transcriber. */
  function CallOf(e: Event, decode: string -> Option<Frame>): seq<Call>
  {
    match e
    case Media(payload) => (match decode(payload) case Some(f) => [StreamCall(f)] case None => [])
    case Stop => [CloseCall]
    case _ => []
  }

  /** The calls the referenced transcriber receives from events with no `connected` among them. */
  function CallsOf(events: seq<Event>, decode: string -> Option<Frame>): seq<Call>
  {
    if events == [] then [] else CallOf(events[0], decode) + CallsOf(events[1..], decode)
  }

  /** The decoded payload of a `media` event. */
  function FrameOf(e: Event, decode: string -> Option<Frame>): seq<Frame>
  {
    match e
    case Media(payload) => (match decode(payload) case Some(f) => [f] case None => [])
    case _ => []
  }

  /** The decoded payloads of the media events, in arrival order. */
  function DecodedFrames(events: seq<Event>, decode: string -> Option<Frame>): seq<Frame>
  {
    if events == [] then [] else FrameOf(events[0], decode) + DecodedFrames(events[1..], decode)
  }

  /** The frames streamed according to a log, in order. */
  function Frames(log: Log): seq<Frame>
  {
    if log == [] then []
    else (if log[0].StreamCall? then [log[0].frame] else []) + Frames(log[1..])
  }

  /** Running two batches of events is running the second from where the first stopped, unless it raised. */
  lemma {:induction false} RunAppend(s: State, a: seq<Event>, b: seq<Event>, decode: string -> Option<Frame>)
    ensures Run(s, a + b, decode) ==
      if Run(s, a, decode).error.Some? then Run(s, a, decode) else Run(Run(s, a, decode).final, b, decode)
    decreases |a|
  {
    if a == [] {
      assert a + b == b;
    } else {
      assert (a + b)[0] == a[0];
      assert (a + b)[1..] == a[1..] + b;
      match Step(s, a[0], decode)
      case Err(_) =>
      case Ok(next) => RunAppend(next, a[1..], b, decode);
    }
  }

  /** The handler stops exactly at the first undecodable payload, and otherwise handles every event. */
  lemma {:induction false} RunErrorIsFirstError(s: State, events: seq<Event>, decode: string -> Option<Frame>)
    ensures Run(s, events, decode).error == FirstError(events, decode)
    decreases |events|
  {
    if events != [] {
      match Step(s, events[0], decode)
      case Err(_) =>
      case Ok(next) => RunErrorIsFirstError(next, events[1..], decode);
    }
  }

  /** Before any `connected`, media and stop events reach no transcriber: the state stays as it was. */
  lemma {:induction false} NothingBeforeConnected(s: State, events: seq<Event>, decode: string -> Option<Frame>)
    requires s.current.None?
    requires !HasConnected(events)
    ensures Run(s, events, decode).final == s
    decreases |events|
  {
    if events != [] {
      NoConnectedSplit(events);
      match Step(s, events[0], decode)
      case Err(_) =>
      case Ok(next) => NothingBeforeConnected(next, events[1..], decode);
    }
  }

  /** Before the first `connected` event of a call nothing is created, streamed or closed. */
  lemma NoTranscriberBeforeConnected(events: seq<Event>, decode: string -> Option<Frame>)
    requires !HasConnected(events)
    ensures Run(Init, events, decode).final == Init
  {
    NothingBeforeConnected(Init, events, decode);
  }

  /** A `connected` event installs a new transcriber whose log is one `connect`, and leaves older logs alone. */
  lemma ConnectedInstalls(s: State, decode: string -> Option<Frame>)
    ensures Step(s, Connected, decode).Ok?
    ensures var t := Step(s, Connected, decode).value;
      && t.logs == s.logs + [[ConnectCall]]
      && t.current == Some(|s.logs|)
  {
  }

  /** `start` and unlisted kinds change nothing. */
  lemma StartAndOtherIgnored(s: State, kind: UnknownKind, decode: string -> Option<Frame>)
    ensures Step(s, Start, decode) == Ok(s)
    ensures Step(s, Other(kind), decode) == Ok(s)
  {
  }

  /** With no `connected`, one step records the event's call on the referenced transcriber. */
  lemma StepWithoutConnected(s: State, e: Event, decode: string -> Option<Frame>)
    requires Valid(s) && s.current.Some?
    requires e != Connected
    requires !(e.Media? && decode(e.payload).None?)
    ensures var i := s.current.value;
      Step(s, e, decode) == Ok(State(s.logs[i := s.logs[i] + CallOf(e, decode)], s.current))
  {
    var i := s.current.value;
    if e.Start? || e.Other? {
      assert s.logs[i] + [] == s.logs[i];
      assert s.logs[i := s.logs[i] + []] == s.logs;
    }
  }

  /** `connected` is not in a batch that lacks it, nor in its tail. */
  lemma NoConnectedSplit(events: seq<Event>)
    requires events != [] && !HasConnected(events)
    ensures events[0] != Connected && !HasConnected(events[1..])
  {
    assert events[0] == events[0];
    forall k | 0 <= k < |events[1..]| ensures events[1..][k] != Connected {
      assert events[1..][k] == events[k + 1];
    }
  }

  /** With no `connected`, the referenced transcriber receives exactly the calls of the events, and no other log changes. */
  lemma {:induction false} RunWithoutConnected(s: State, events: seq<Event>, decode: string -> Option<Frame>)
    requires Valid(s) && s.current.Some?
    requires !HasConnected(events)
    requires FirstError(events, decode).None?
    ensures var i := s.current.value;
      Run(s, events, decode) == Outcome(State(s.logs[i := s.logs[i] + CallsOf(events, decode)], s.current), None)
    decreases |events|
  {
    var i := s.current.value;
    if events == [] {
      assert s.logs[i] + [] == s.logs[i];
      assert s.logs[i := s.logs[i] + []] == s.logs;
    } else {
      NoConnectedSplit(events);
      StepWithoutConnected(s, events[0], decode);
      var head := CallOf(events[0], decode);
      var next := State(s.logs[i := s.logs[i] + head], s.current);
      assert Run(s, events, decode) == Run(next, events[1..], decode);
      RunWithoutConnected(next, events[1..], decode);
      ExtendTwice(s.logs, i, head, CallsOf(events[1..], decode));
    }
  }

  /** Extending one log twice is extending it once by both batches. */
  lemma ExtendTwice(logs: seq<Log>, i: nat, a: Log, b: Log)
    requires i < |logs|
    ensures logs[i := logs[i] + a][i := logs[i] + a + b] == logs[i := logs[i] + (a + b)]
  {
    assert logs[i] + a + b == logs[i] + (a + b);
  }

  /** The frames in the calls of a batch are its decoded media payloads. */
  lemma {:induction false} FramesOfCalls(events: seq<Event>, decode: string -> Option<Frame>)
    ensures Frames(CallsOf(events, decode)) == DecodedFrames(events, decode)
    decreases |events|
  {
    if events != [] {
      FramesOfCalls(events[1..], decode);
      FramesAppend(CallOf(events[0], decode), CallsOf(events[1..], decode));
    }
  }

  /** `Frames` distributes over concatenation. */
  lemma {:induction false} FramesAppend(a: Log, b: Log)
    ensures Frames(a + b) == Frames(a) + Frames(b)
    decreases |a|
  {
    if a == [] {
      assert a + b == b;
    } else {
      assert (a + b)[0] == a[0] && (a + b)[1..] == a[1..] + b;
      FramesAppend(a[1..], b);
    }
  }

  /**
   After the most recent `connected`, the referenced transcriber has been
   connected once and then sent exactly the later media payloads, decoded,
   in arrival order, with a close for each later `stop`.
   */
  lemma FramesAfterLastConnected(pre: seq<Event>, post: seq<Event>, decode: string -> Option<Frame>)
    requires !HasConnected(post)
    requires FirstError(pre + [Connected] + post, decode).None?
    ensures var f := Run(Init, pre + [Connected] + post, decode);
      && f.error.None?
      && f.final.current.Some?
      && f.final.logs[f.final.current.value] == [ConnectCall] + CallsOf(post, decode)
      && Frames(f.final.logs[f.final.current.value]) == DecodedFrames(post, decode)
  {
    var events := pre + [Connected] + post;
    RunErrorIsFirstError(Init, events, decode);
    RunErrorIsFirstError(Init, pre, decode);
    RunAppend(Init, pre + [Connected], post, decode);
    RunAppend(Init, pre, [Connected], decode);
    var o1 := Run(Init, pre, decode);
    assert o1.error.None?;
    var s1 := Step(o1.final, Connected, decode).value;
    assert Run(Init, pre + [Connected], decode) == Outcome(s1, None);
    RunErrorIsFirstError(s1, post, decode);
    RunWithoutConnected(s1, post, decode);
    var f := Run(Init, events, decode);
    assert f.final.logs[f.final.current.value] == [ConnectCall] + CallsOf(post, decode);
    FramesOfCalls(post, decode);
    var c := [ConnectCall] + CallsOf(post, decode);
    assert c[0] == ConnectCall && c[1..] == CallsOf(post, decode);
  }

  /** Two events that both succeed run to the state of their second step. */
  lemma RunPair(s: State, e1: Event, e2: Event, decode: string -> Option<Frame>)
    requires Step(s, e1, decode).Ok? && Step(Step(s, e1, decode).value, e2, decode).Ok?
    ensures Run(s, [e1, e2], decode) == Outcome(Step(Step(s, e1, decode).value, e2, decode).value, None)
  {
    var s1 := Step(s, e1, decode).value;
    assert [e1, e2][0] == e1 && [e1, e2][1..] == [e2];
    assert Run(s, [e1, e2], decode) == Run(s1, [e2], decode);
    assert [e2][0] == e2 && [e2][1..] == [];
    assert Run(s1, [e2], decode) == Run(Step(s1, e2, decode).value, [], decode);
  }

  /** `stop` closes the referenced transcriber but keeps it: a later media frame is streamed to it, and handling goes on. */
  lemma StopKeepsTranscriber(s: State, payload: string, decode: string -> Option<Frame>)
    requires Valid(s) && s.current.Some?
    requires decode(payload).Some?
    ensures var i := s.current.value;
      Run(s, [Stop, Media(payload)], decode)
        == Outcome(State(s.logs[i := s.logs[i] + [CloseCall, StreamCall(decode(payload).value)]], s.current), None)
  {
    var i := s.current.value;
    var f := decode(payload).value;
    StepWithoutConnected(s, Stop, decode);
    var s1 := Step(s, Stop, decode).value;
    assert s1 == State(s.logs[i := s.logs[i] + [CloseCall]], s.current);
    StepWithoutConnected(s1, Media(payload), decode);
    var s2 := Step(s1, Media(payload), decode).value;
    assert s2 == State(s1.logs[i := s1.logs[i] + [StreamCall(f)]], s.current);
    RunPair(s, Stop, Media(payload), decode);
    assert s2.logs[i] == s.logs[i] + [CloseCall, StreamCall(f)];
    assert s2.logs == s.logs[i := s.logs[i] + [CloseCall, StreamCall(f)]];
  }

  /** Only the referenced transcriber's log ever changes; every earlier log is final. */
  lemma {:induction false} EarlierLogsFrozen(s: State, events: seq<Event>, decode: string -> Option<Frame>)
    requires Valid(s)
    ensures var f := Run(s, events, decode).final;
      forall j :: 0 <= j < |s.logs| - 1 ==> f.logs[j] == s.logs[j]
    decreases |events|
  {
    if events != [] {
      match Step(s, events[0], decode)
      case Err(_) =>
      case Ok(next) =>
        EarlierLogsFrozen(next, events[1..], decode);
        assert forall j :: 0 <= j < |s.logs| - 1 ==> next.logs[j] == s.logs[j];
    }
  }

  /**
   A second `connected` replaces the referenced transcriber without closing
   it: nothing is ever again recorded on the replaced one.
   */
  lemma ReplacedTranscriberUntouched(s: State, events: seq<Event>, decode: string -> Option<Frame>)
    requires Valid(s) && s.current.Some?
    requires events != [] && events[0] == Connected
    ensures var i := s.current.value; var f := Run(s, events, decode).final;
      && i < |f.logs|
      && f.logs[i] == s.logs[i]
      && f.current != Some(i)
  {
    var i := s.current.value;
    var next := Step(s, Connected, decode).value;
    assert Run(s, events, decode) == Run(next, events[1..], decode);
    EarlierLogsFrozen(next, events[1..], decode);
    assert next.logs[i] == s.logs[i];
  }
}
