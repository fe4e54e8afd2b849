# Real-time phone call transcription: a Dafny model

The application answers an incoming Twilio call with TwiML that asks Twilio to
stream the call's audio to a WebSocket. The handler of that WebSocket takes the
`connected`, `start`, `media` and `stop` events of the call one at a time. It
creates and connects an AssemblyAI real-time transcriber, decodes each base64
media payload into mu-law bytes and streams them to the transcriber, and closes
the transcriber on `stop`. The transcriber's data callback prints each
non-empty transcript update on the console.

The model has five modules:

- `Wrappers` (wrappers.dfy): `Option` and `Result`.
- `TwilioTranscriber` (twilio_transcriber.dfy): the fixed configuration of
  every transcriber (8000 Hz, mu-law). It has `Transcriber`, a class standing
  for the library object, whose ghost log records the `connect`, `stream(frame)`
  and `close` calls made on it in order. It also has `OnData`, the console
  display rule, with its inverse `ParseLine`.
- `IncomingCall` (incoming_call.dfy): `ReceiveCall`, the webhook's answer, and
  `Strip`, a model of Python's `str.strip()` that the answer goes through.
- `Relay` (relay.dfy): the WebSocket handler as a state machine on values. The
  state is the logs of all transcribers created so far, plus which one the
  handler's `transcriber` variable refers to. `Step` handles one event and
  `Run` is the receive loop over a sequence of events. The lemmas cover what
  happens before `connected`, the frames after the last `connected`, `stop`,
  and replacement by a second `connected`.
- `Websocket` (websocket.dfy): the same handler written imperatively. A
  `CallRelay` object holds the nullable `transcriber` reference. Its `Step`
  method creates `Transcriber` objects and calls their methods. Its `Serve`
  loop is proved to end in exactly the state and error that `Relay.Run` gives.

Base64 decoding is a library call, so it is a parameter
`decode: string -> Option<Frame>`, where `None` means the library raises.

In several places a reader might expect a relay like this one to behave
otherwise. The model does what the code does:

- One might expect a corrupt media frame to be dropped while the call goes on.
  In the code, an undecodable payload raises out of the handler and ends the
  media stream.
- One might expect `stop` to release the transcriber, so that later frames are
  discarded. In the code, `stop` closes the transcriber but keeps the
  reference: later `media` frames are still streamed to the closed
  transcriber, and the loop goes on.
- One might expect at most one open transcriber per call. In the code, a
  second `connected` replaces the transcriber without closing the old one.
- Unknown event kinds are ignored silently, not reported.
- One might expect frames to be queued during the recognizer's handshake, a
  bounded queue, or a close timeout. The code has none of these, and neither
  does the model.

## Model

| member | source | states |
|---|---|---|
| `Relay.Step` | main.py:60-75 | An event fails exactly when it is a `media` event whose payload does not decode, whatever the transcriber state is: the decode comes before the transcriber check. The failure carries that payload. A successful step keeps the invariant: the reference is to the newest transcriber and every log starts with `connect` and never repeats it. |
| `Relay.Append` | main.py:70-75 | Records the call on the referenced transcriber, at the end of its log, and changes no other log; with no transcriber the state is unchanged. |
| `Relay.Run` | main.py:57-59 | The receive loop keeps the invariant and never forgets a transcriber it created. |
| `Relay.RunAppend` | main.py:58-59 | Events are handled strictly in order: running `a + b` is running `b` from where `a` stopped, unless `a` raised. |
| `Relay.RunErrorIsFirstError` | main.py:67-69 | The loop ends with an error exactly when some media payload does not decode, and the error is the first such payload; otherwise every event is handled. |
| `Relay.NothingBeforeConnected` | main.py:70-75 | From a state with no transcriber, events with no `connected` among them leave the state exactly as it was: no frame is streamed and nothing is closed. |
| `Relay.NoTranscriberBeforeConnected` | main.py:57-75 | A call whose events hold no `connected` never creates, streams to or closes a transcriber. |
| `Relay.ConnectedInstalls` | main.py:61-63 | `connected` adds a new transcriber whose log is a single `connect`, makes it the referenced one, and leaves every earlier log as it was. |
| `Relay.StartAndOtherIgnored` | main.py:60-66 | `start` and any kind matching no case leave the state unchanged. |
| `Relay.StepWithoutConnected` | main.py:67-75 | With a transcriber set, a decodable `media` appends `stream(frame)` to its log, `stop` appends `close`, and `start` or an unknown kind appends nothing. |
| `Relay.RunWithoutConnected` | main.py:58-75 | With no `connected` and no bad payload, the referenced transcriber receives exactly the calls of the events in order, no other log changes, and the reference stays the same. |
| `Relay.FramesOfCalls` | main.py:67-71 | The frames among those calls are exactly the decoded media payloads, in order. |
| `Relay.FramesAppend` | main.py:67-71 | The frames of two logs in sequence are the frames of each, in sequence. |
| `Relay.FramesAfterLastConnected` | main.py:61-71 | In a run where no media payload fails to decode: after the last `connected`, the current transcriber's log is one `connect` followed by the calls of the later events. Its frames are the later decoded media payloads in arrival order, with nothing dropped, reordered or duplicated. |
| `Relay.StopKeepsTranscriber` | main.py:67-75 | `stop` then a decodable `media` records `close` and then `stream(frame)` on the same transcriber. The reference is kept and the loop carries on. |
| `Relay.EarlierLogsFrozen` | main.py:61-62 | Only the referenced transcriber's log ever changes: the log of every transcriber older than it is final. |
| `Relay.ReplacedTranscriberUntouched` | main.py:61-63 | A second `connected` replaces the reference without calling `close` on the old transcriber, and nothing is recorded on the old one afterwards. |
| `Websocket.CallRelay.constructor` | main.py:57 | The handler starts with no transcriber. |
| `Websocket.CallRelay.ConnectNew` | main.py:61-63 | A fresh transcriber is assigned to the reference and connected. The state becomes the old logs plus one log holding `connect`. |
| `Websocket.CallRelay.CallCurrent` | main.py:70-75 | `stream` or `close` is called on the referenced transcriber if there is one, as `Relay.Append` says. |
| `Websocket.CallRelay.Step` | main.py:60-75 | One dispatch on the heap does to the abstract state what `Relay.Step` does, and returns its error. Every transcriber it creates is fresh. |
| `Websocket.CallRelay.Serve` | main.py:58-75 | The receive loop over the events ends in the state and error of `Relay.Run`. |
| `Websocket.TranscriptionWebsocket` | main.py:55-76 | A handler for one connection starts from no transcriber and ends in `Relay.Run(Init, events)`. |
| `TwilioTranscriber.TranscriberConfig` | twilio_transcriber.py:9 | Every transcriber is configured with sample rate 8000 Hz and mu-law encoding. |
| `TwilioTranscriber.Transcriber.constructor` | twilio_transcriber.py:38-47 | A new transcriber has the fixed configuration and has had no call made on it. `CallRelay.Valid` keeps this configuration for every transcriber a call creates. |
| `TwilioTranscriber.Transcriber.Connect` | main.py:63 | Appends `connect` to the transcriber's call log. |
| `TwilioTranscriber.Transcriber.Stream` | main.py:71 | Appends `stream(frame)` to the transcriber's call log. |
| `TwilioTranscriber.Transcriber.Close` | main.py:75 | Appends `close` to the transcriber's call log. |
| `TwilioTranscriber.OnData` | twilio_transcriber.py:17-25 | Empty text prints nothing. Otherwise the output starts with the text unchanged, followed by `"\r\n"` for a final transcript and by `"\r"` alone for a partial one. |
| `TwilioTranscriber.OnDataRoundTrip` | twilio_transcriber.py:22-25 | The printed line gives back the transcript: its text and whether it was final. |
| `TwilioTranscriber.OnDataInjective` | twilio_transcriber.py:22-25 | Two transcripts print the same line only if they are the same update. |
| `IncomingCall.SkipSpace` | main.py:50 | The start of the stripped text: an index at or after the given one, at the end of the input or on a non-space. |
| `IncomingCall.SkipSpaceSkipsOnlySpace` | main.py:50 | Every character `SkipSpace` passes over is whitespace, so no text is lost at the front. |
| `IncomingCall.TrimEnd` | main.py:50 | The end of the stripped text: an index no later than the given end, at the start bound or just after a non-space. |
| `IncomingCall.TrimEndCutsOnlySpace` | main.py:50 | Every character `TrimEnd` cuts off is whitespace, so no text is lost at the back. |
| `IncomingCall.Strip` | main.py:50 | The result is a contiguous slice of the input that starts where the leading whitespace ends and neither starts nor ends with whitespace. |
| `IncomingCall.StripDropsSpace` | main.py:50 | Everything `Strip` removes, before and after the slice it keeps, is whitespace. |
| `IncomingCall.StripNewlines` | main.py:41-50 | Stripping the template removes exactly its first and last newline. |
| `IncomingCall.ReceiveCall` | main.py:38-53 | POST gets TwiML with media type text/xml whose body is the stripped document, holding `<Stream url='wss://` + host + `/realtime' />`. Any other method gets the string "Real-time phone call transcription app". |
| `IncomingCall.StreamInsideConnect` | main.py:46-48 | In the POST answer the stream element stands directly inside `<Connect>`, and the document starts with `<` and ends with `>`. |

## Left out

- Reading from the WebSocket and `json.loads` (main.py:58-59): the input is a sequence of already parsed events. A message without an `event` field, or a `media` message without `media.payload`, raises `KeyError` in the source. The model has no such messages.
- When the socket closes, `ws.receive()` raises and ends the handler. The model's loop ends when the event sequence does.
- `base64.b64decode` (main.py:69): its alphabet and padding rules belong to the library, so `decode` is a parameter.
- The AssemblyAI `RealtimeTranscriber` internals: the handshake, its threads, and what `stream` does on a closed session. Only the order of the calls made on it is recorded.
- Exceptions raised by `connect`, `stream` or `close` are not modelled.
- Python truthiness of the transcriber object (`if transcriber:`) is taken to be "not None".
- `on_open`, `on_error` and `on_close` only print, and are not modelled. The console output of `on_data` is modelled as the string it would print.
- `IncomingCall.Strip`: treats only the whitespace characters below 128 as whitespace, not the rest of Unicode whitespace. The stripped TwiML starts with `<` and ends with `>`, so this cannot change its result.
- `IncomingCall.SkipSpace`: same restriction to whitespace below 128.
- `IncomingCall.TrimEnd`: same restriction to whitespace below 128.
- Flask routing: Flask answers OPTIONS itself. GET, HEAD and POST reach `receive_call`, and every non-POST gets the banner, as in the model. The media type Flask gives to the banner is not modelled.
- ngrok tunnel setup, listing Twilio numbers, the webhook update and `app.run` (main.py:78-120) are network and process setup, and are not modelled.
- Environment and credential loading (main.py:14-32, twilio_transcriber.py:5-7) and all console output from `print` other than `on_data`'s are not modelled.
