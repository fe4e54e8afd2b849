/**
 The incoming-call webhook of main.py. A POST from Twilio is answered with a
 TwiML document that routes the call's audio to this application's
 media-stream WebSocket; any other request gets a fixed banner.
 */
module IncomingCall {

  /** Route of the WebSocket that receives the call's media stream. */
  const WebsocketRoute: string := "/realtime"

  /** Body returned to any request that is not a POST. */
  const Banner: string := "Real-time phone call transcription app"

  /** The TwiML document up to the `<Connect>` verb: it asks the caller to speak. */
  const ResponseOpen: string :=
    "<Response>" + "\n    <Say>\n        Speak to see your speech transcribed in the console\n    </Say>\n    "

  /** Opening of the `<Connect>` verb, with the indentation before its child. */
  const ConnectOpen: string := "<Connect>\n        "

  /** Close of the `<Connect>` verb. */
  const ConnectClose: string := "\n    </Connect>"

  /** Close of the document. */
  const ResponseClose: string := "\n</Response>"

  /** TwiML that precedes the stream element, as it stands once stripped. */
  const TwimlHead: string := ResponseOpen + ConnectOpen

  /** TwiML that follows the stream element, as it stands once stripped. */
  const TwimlTail: string := ConnectClose + ResponseClose

  /** A response body, with the media type for the TwiML case. */
  datatype Response = Xml(body: string, mimetype: string) | Plain(body: string)

  /** The characters below 128 that Python's `str.strip()` removes. */
  const Whitespace: set<char> :=
    {' ', '\t', '\n', '\r', '\U{0B}', '\U{0C}', '\U{1C}', '\U{1D}', '\U{1E}', '\U{1F}'}

  predicate IsSpace(c: char)
  {
    c in Whitespace
  }

  /** Index of the first non-whitespace character of `s` at or after `i`, or `|s|`. */
  function SkipSpace(s: string, i: nat): (n: nat)
    requires i <= |s|
    ensures i <= n <= |s|
    ensures n == |s| || !IsSpace(s[n])
    decreases |s| - i
  {
    if i < |s| && IsSpace(s[i]) then SkipSpace(s, i + 1) else i
  }

  /** Everything `SkipSpace` skips is whitespace. */
  lemma {:induction false} SkipSpaceSkipsOnlySpace(s: string, i: nat)
    requires i <= |s|
    ensures forall k :: i <= k < SkipSpace(s, i) ==> IsSpace(s[k])
    decreases |s| - i
  {
    if i < |s| && IsSpace(s[i]) {
      SkipSpaceSkipsOnlySpace(s, i + 1);
    }
  }

  /** End of `s[lo..j]` once its trailing whitespace is cut off. */
  function TrimEnd(s: string, lo: nat, j: nat): (n: nat)
    requires lo <= j <= |s|
    ensures lo <= n <= j
    ensures n == lo || !IsSpace(s[n - 1])
    decreases j
  {
    if lo < j && IsSpace(s[j - 1]) then TrimEnd(s, lo, j - 1) else j
  }

  /** Everything `TrimEnd` cuts off is whitespace. */
  lemma {:induction false} TrimEndCutsOnlySpace(s: string, lo: nat, j: nat)
    requires lo <= j <= |s|
    ensures forall k :: TrimEnd(s, lo, j) <= k < j ==> IsSpace(s[k])
    decreases j
  {
    if lo < j && IsSpace(s[j - 1]) {
      TrimEndCutsOnlySpace(s, lo, j - 1);
    }
  }

  /**
   Python's `str.strip()` with no argument: the slice of `s` from its first
   to its last non-whitespace character.
   */
  function Strip(s: string): (r: string)
    ensures r == [] || (!IsSpace(r[0]) && !IsSpace(r[|r| - 1]))
    ensures var i := SkipSpace(s, 0); i + |r| <= |s| && r == s[i..i + |r|]
  {
    var i := SkipSpace(s, 0);
    s[i..TrimEnd(s, i, |s|)]
  }

  /** Everything `Strip` removes, before and after what it keeps, is whitespace. */
  lemma StripDropsSpace(s: string)
    ensures var r := Strip(s); var i := SkipSpace(s, 0);
      && (forall k :: 0 <= k < i ==> IsSpace(s[k]))
      && (forall k :: i + |r| <= k < |s| ==> IsSpace(s[k]))
  {
    var i := SkipSpace(s, 0);
    SkipSpaceSkipsOnlySpace(s, 0);
    TrimEndCutsOnlySpace(s, i, |s|);
  }

  /** Stripping removes a newline on each side of text that neither starts nor ends with whitespace. */
  lemma StripNewlines(x: string)
    requires x != [] && !IsSpace(x[0]) && !IsSpace(x[|x| - 1])
    ensures Strip("\n" + x + "\n") == x
  {
    var s := "\n" + x + "\n";
    assert s[0] == '\n' && s[1] == x[0];
    assert SkipSpace(s, 0) == SkipSpace(s, 1) == 1;
    assert s[|s| - 1] == '\n' && s[|s| - 2] == x[|x| - 1];
    assert TrimEnd(s, 1, |s|) == TrimEnd(s, 1, |s| - 1) == |s| - 1;
    assert s[1..|s| - 1] == x;
  }

  /** The `<Stream>` element pointing Twilio at the media-stream route on `host`. */
  function StreamElement(host: string): string
  {
    "<Stream url='" + StreamUrl(host) + "' />"
  }

  /** Secure WebSocket URL of the media-stream route on `host`. */
  function StreamUrl(host: string): string
  {
    "wss://" + host + WebsocketRoute
  }

  /** The TwiML literal before stripping: it starts and ends on a newline. */
  function TwimlTemplate(host: string): string
  {
    "\n" + TwimlDocument(host) + "\n"
  }

  /** The document Twilio receives: the template without its outer newlines. */
  function TwimlDocument(host: string): string
  {
    TwimlHead + StreamElement(host) + TwimlTail
  }

  /**
   Answer to a request on the incoming-call route: TwiML with media type
   text/xml for POST, the banner for every other method.
   */
  function ReceiveCall(httpMethod: string, host: string): (r: Response)
    ensures r.Xml? <==> httpMethod == "POST"
    ensures r.Xml? ==> r.mimetype == "text/xml"
    ensures r.Xml? ==> r.body == TwimlHead + StreamElement(host) + TwimlTail
    ensures r.Plain? ==> r.body == "Real-time phone call transcription app"
  {
    if httpMethod == "POST" then
      var x := TwimlDocument(host);
      assert x[0] == ResponseOpen[0] == '<';
      assert x[|x| - 1] == ResponseClose[|ResponseClose| - 1] == '>';
      StripNewlines(x);
      Xml(Strip(TwimlTemplate(host)), "text/xml")
    else
      Plain(Banner)
  }

  /** In the POST answer the stream element sits directly inside `<Connect>`, and the document is bare of outer whitespace. */
  lemma StreamInsideConnect(host: string)
    ensures var body := ReceiveCall("POST", host).body;
      exists pre, post :: body == pre + "<Connect>\n        " + StreamElement(host) + "\n    </Connect>" + post
    ensures var body := ReceiveCall("POST", host).body;
      body[0] == '<' && body[|body| - 1] == '>'
  {
    var body := ReceiveCall("POST", host).body;
    assert body == ResponseOpen + ConnectOpen + StreamElement(host) + ConnectClose + ResponseClose;
    assert body[0] == ResponseOpen[0];
    assert body[|body| - 1] == ResponseClose[|ResponseClose| - 1];
  }
}
