/**
 The media-stream WebSocket handler of main.py in its imperative form: a
 local reference to the current transcriber, reassigned by `connected`,
 and a receive loop that dispatches each event. Every step is proved to do
 what `Relay.Step` says to the abstract state.
 */
module Websocket {
  import opened Wrappers
  import opened TwilioTranscriber
  import Relay

  class CallRelay {
    /** The handler's `transcriber` variable; null stands for Python's None. */
    var transcriber: Transcriber?
    /** Every transcriber this handler has created, oldest first. */
    ghost var created: seq<Transcriber>

    /** The relay's state as a value: each created transcriber's log, and which one is referenced. */
    ghost function Abstract(): Relay.State
      reads this, created
    {
      var ts := created;
      Relay.State(
        seq(|ts|, i requires 0 <= i < |ts| reads ts => ts[i].log),
        if transcriber == null || ts == [] then None else Some(|ts| - 1))
    }

    ghost predicate Valid()
      reads this, created
    {
      && (transcriber == null <==> created == [])
      && (transcriber != null ==> transcriber == created[|created| - 1])
      && (forall i, j :: 0 <= i < j < |created| ==> created[i] != created[j])
      && (forall i :: 0 <= i < |created| ==> created[i].config == TranscriberConfig())
      && Relay.Valid(Abstract())
    }

    /** The handler starts with no transcriber. */
    constructor ()
      ensures Valid()
      ensures Abstract() == Relay.Init
    {
      transcriber := null;
      created := [];
    }

    /** `connected`: a new transcriber becomes the referenced one and is connected; the previous one is dropped unclosed. */
    method ConnectNew()
      requires Valid()
      modifies this
      ensures Valid()
      ensures |created| == |old(created)| + 1 && created[..|old(created)|] == old(created) && fresh(created[|old(created)|])
      ensures Abstract() == Relay.State(old(Abstract()).logs + [[ConnectCall]], Some(|old(Abstract()).logs|))
    {
      var t := new Transcriber();
      transcriber := t;
      created := created + [t];
      t.Connect();
      ghost var was := old(Abstract()).logs;
      forall j | 0 <= j < |was| ensures Abstract().logs[j] == was[j] {
        assert created[j] == old(created)[j] && created[j] != t;
      }
      assert Abstract().logs[|was|] == [ConnectCall];
      assert Abstract().logs == was + [[ConnectCall]];
      assert Relay.WellFormed([ConnectCall]);
      assert Relay.Valid(Abstract());
      assert forall i, j :: 0 <= i < j < |created| ==> created[i] != created[j];
      assert forall i :: 0 <= i < |created| ==> created[i].config == TranscriberConfig();
    }

    /** Records `c` on the referenced transcriber, if there is one, through `Stream` or `Close`. */
    method CallCurrent(c: Call)
      requires Valid()
      requires !c.ConnectCall?
      modifies created
      ensures Valid()
      ensures created == old(created)
      ensures Abstract() == Relay.Append(old(Abstract()), c)
    {
      if transcriber != null {
        if c.StreamCall? {
          transcriber.Stream(c.frame);
        } else {
          transcriber.Close();
        }
        ghost var i := |created| - 1;
        ghost var was := old(Abstract()).logs;
        forall j | 0 <= j < |was| ensures Abstract().logs[j] == if j == i then was[i] + [c] else was[j] {
          assert j != i ==> created[j] != created[i];
        }
        assert Abstract().logs == was[i := was[i] + [c]];
      }
    }

    /** Dispatches one event received on the WebSocket. */
    method Step(e: Relay.Event, decode: string -> Option<Frame>) returns (err: Option<Relay.RelayError>)
      requires Valid()
      modifies this, created
      ensures Valid()
      ensures forall i :: 0 <= i < |created| ==> created[i] in old(created) || fresh(created[i])
      ensures match Relay.Step(old(Abstract()), e, decode)
        case Ok(next) => err.None? && Abstract() == next
        case Err(x) => err == Some(x) && Abstract() == old(Abstract())
    {
      err := None;
      match e {
        case Connected =>
          ConnectNew();
        case Start =>
        case Media(payload) =>
          var frame := decode(payload);
          if frame.None? {
            err := Some(Relay.DecodeError(payload));
            return;
          }
          CallCurrent(StreamCall(frame.value));
        case Stop =>
          CallCurrent(CloseCall);
        case Other(_) =>
      }
    }

    /** The receive loop over the events of one call: it stops early only when a step raises, and otherwise when the events run out. */
    method Serve(events: seq<Relay.Event>, decode: string -> Option<Frame>) returns (err: Option<Relay.RelayError>)
      requires Valid()
      modifies this, created
      ensures Valid()
      ensures forall i :: 0 <= i < |created| ==> created[i] in old(created) || fresh(created[i])
      ensures Abstract() == Relay.Run(old(Abstract()), events, decode).final
      ensures err == Relay.Run(old(Abstract()), events, decode).error
    {
      var k := 0;
      while k < |events|
        invariant 0 <= k <= |events|
        invariant Valid()
        invariant forall i :: 0 <= i < |created| ==> created[i] in old(created) || fresh(created[i])
        invariant Relay.Run(Abstract(), events[k..], decode) == Relay.Run(old(Abstract()), events, decode)
      {
        ghost var before := Abstract();
        assert events[k..][0] == events[k] && events[k..][1..] == events[k + 1..];
        err := Step(events[k], decode);
        if err.Some? {
          return;
        }
        assert Relay.Run(before, events[k..], decode) == Relay.Run(Abstract(), events[k + 1..], decode);
        k := k + 1;
      }
      err := None;
    }
  }

  /** A call's media-stream connection: a fresh handler state, then the receive loop. */
  method TranscriptionWebsocket(events: seq<Relay.Event>, decode: string -> Option<Frame>)
    returns (relay: CallRelay, err: Option<Relay.RelayError>)
    ensures fresh(relay) && relay.Valid()
    ensures relay.Abstract() == Relay.Run(Relay.Init, events, decode).final
    ensures err == Relay.Run(Relay.Init, events, decode).error
  {
    relay := new CallRelay();
    err := relay.Serve(events, decode);
  }
}
