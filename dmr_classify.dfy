/** How the dispatch handler's response callback sorts an HTTP reply: exactly one of
    success, a failure with a fixed or a descriptive message, or a browser redirect. */
module DmrClassify {
  import opened Optional
  import opened Decimal
  import opened DmrOperation

  /** A completed HTTP reply as the transport hands it over. */
  datatype Response = Response(statusCode: int, statusText: string, text: string, headers: map<string, string>)

  /** A response header, absent (null) when the reply does not carry it. */
  function Header(r: Response, name: string): (h: Option<string>)
    ensures h.Some? <==> name in r.headers
    ensures h.Some? ==> h.value == r.headers[name]
  {
    if name in r.headers then Some(r.headers[name]) else None
  }

  /** What the caller's onSuccess receives: the HTTP method used, the raw body and the
      Content-Type header of the reply. */
  datatype DmrResult = DmrResult(httpMethod: string, responseText: string, contentType: Option<string>)

  /** What the caller's onFailure receives: an exception built here, a RequestException
      raised while submitting, or a transport error passed on as it came. */
  datatype Failure = Exception(message: string) | RequestException(cause: string) | TransportError(cause: string)

  /** One call of the caller's callback. */
  datatype Delivery = OnSuccess(result: DmrResult) | OnFailure(failure: Failure)

  /** The reaction to one reply: call the caller back, or send the browser elsewhere
      (in which case the caller hears nothing). */
  datatype Reaction = Deliver(delivery: Delivery) | Redirect(location: Option<string>)

  const AUTHENTICATION_REQUIRED: string := "Authentication required."
  /** Written as two literals so that the verifier can read its first character. */
  const SERVICE_UNAVAILABLE: string := "Service temporarily unavailable." + " Is the server is still booting?"
  const UNEXPECTED_PREFIX: string := "Unexpected HTTP response: "
  const NO_DETAILS: string := "No details"

  /** The response part of the descriptive message: "No details" for an empty body,
      otherwise the body decoded from base64 and rendered as text. */
  function Payload(c: Codec, r: Response): (p: string)
    ensures r.text == "" ==> p == NO_DETAILS
    ensures r.text != "" ==> p == c.decodedText(r.text)
  {
    if r.text == "" then NO_DETAILS else c.decodedText(r.text)
  }

  /** The message for a status code with no branch of its own: the code on the first line,
      then the details. */
  function UnexpectedMessage(c: Codec, o: Op, r: Response): string {
    UNEXPECTED_PREFIX + IntToString(r.statusCode) + "\n" + Details(c, o, r)
  }

  /** After a blank line: the request as text, the reply's status text and its payload. */
  function Details(c: Codec, o: Op, r: Response): string {
    "\n" + "Request\n" + c.operationText(o) + "\n\nResponse\n\n" + r.statusText + "\n" + Payload(c, r)
  }

  /** The descriptive message starts with the prefix and the status code, ends with the
      payload, and so never equals one of the fixed messages. */
  lemma UnexpectedMessageShape(c: Codec, o: Op, r: Response)
    ensures var m, code := UnexpectedMessage(c, o, r), IntToString(r.statusCode);
      && |UNEXPECTED_PREFIX| + |code| + 2 <= |m|
      && m[..|UNEXPECTED_PREFIX|] == UNEXPECTED_PREFIX
      && m[|UNEXPECTED_PREFIX|..|UNEXPECTED_PREFIX| + |code| + 2] == code + "\n\n"
      && m[|UNEXPECTED_PREFIX|..] == code + "\n" + Details(c, o, r)
      && m[|m| - |Payload(c, r)|..] == Payload(c, r)
      && m != AUTHENTICATION_REQUIRED && m != SERVICE_UNAVAILABLE
  {
    var m := UnexpectedMessage(c, o, r);
    assert m[0] == 'U' && AUTHENTICATION_REQUIRED[0] == 'A' && SERVICE_UNAVAILABLE[0] == 'S';
  }

  /** The branch on the status code. */
  function Classify(c: Codec, httpMethod: string, o: Op, r: Response): (x: Reaction)
    ensures (x.Deliver? && x.delivery.OnSuccess?) <==> r.statusCode == 200
    ensures r.statusCode == 200 ==> x.delivery.result == DmrResult(httpMethod, r.text, Header(r, "Content-Type"))
    ensures x == Deliver(OnFailure(Exception(AUTHENTICATION_REQUIRED))) <==> r.statusCode == 401 || r.statusCode == 0
    ensures x.Redirect? <==> r.statusCode == 307
    ensures x.Redirect? ==> x.location == Header(r, "Location")
    ensures x == Deliver(OnFailure(Exception(SERVICE_UNAVAILABLE))) <==> r.statusCode == 503
    ensures x.Deliver? && x.delivery.OnFailure? ==> x.delivery.failure.Exception?
  {
    if r.statusCode == 200 then
      Deliver(OnSuccess(DmrResult(httpMethod, r.text, Header(r, "Content-Type"))))
    else if r.statusCode == 401 || r.statusCode == 0 then
      Deliver(OnFailure(Exception(AUTHENTICATION_REQUIRED)))
    else if r.statusCode == 307 then
      Redirect(Header(r, "Location"))
    else if r.statusCode == 503 then
      Deliver(OnFailure(Exception(SERVICE_UNAVAILABLE)))
    else
      UnexpectedMessageShape(c, o, r);
      Deliver(OnFailure(Exception(UnexpectedMessage(c, o, r))))
  }

  /** Every other status code is a failure whose message is the descriptive one, which
      names the code and ends with the payload ("No details" exactly for an empty body). */
  lemma UnexpectedStatus(c: Codec, httpMethod: string, o: Op, r: Response)
    requires r.statusCode != 200 && r.statusCode != 401 && r.statusCode != 0
    requires r.statusCode != 307 && r.statusCode != 503
    ensures Classify(c, httpMethod, o, r) == Deliver(OnFailure(Exception(UnexpectedMessage(c, o, r))))
    ensures var m, code := UnexpectedMessage(c, o, r), IntToString(r.statusCode);
      && |UNEXPECTED_PREFIX| + |code| <= |m|
      && m[..|UNEXPECTED_PREFIX| + |code|] == UNEXPECTED_PREFIX + code
    ensures var m := UnexpectedMessage(c, o, r);
      && (r.text == "" ==> |NO_DETAILS| <= |m| && m[|m| - |NO_DETAILS|..] == NO_DETAILS)
      && (r.text != "" ==> |c.decodedText(r.text)| <= |m| && m[|m| - |c.decodedText(r.text)|..] == c.decodedText(r.text))
  {
    UnexpectedMessageHead(c, o, r);
    UnexpectedMessageShape(c, o, r);
  }

  /** The descriptive message opens with the prefix followed by the code. */
  lemma UnexpectedMessageHead(c: Codec, o: Op, r: Response)
    ensures var m, code := UnexpectedMessage(c, o, r), IntToString(r.statusCode);
      && |UNEXPECTED_PREFIX| + |code| <= |m|
      && m[..|UNEXPECTED_PREFIX| + |code|] == UNEXPECTED_PREFIX + code
  {
    var m, code := UnexpectedMessage(c, o, r), IntToString(r.statusCode);
    UnexpectedMessageShape(c, o, r);
    var h := m[..|UNEXPECTED_PREFIX| + |code|];
    assert h[..|UNEXPECTED_PREFIX|] == UNEXPECTED_PREFIX;
    assert h[|UNEXPECTED_PREFIX|..] == code;
    assert h == h[..|UNEXPECTED_PREFIX|] + h[|UNEXPECTED_PREFIX|..];
  }

  /** Two strings that each continue a separator-free head with '\n' agree on the head. */
  lemma HeadBeforeNewline(a: string, b: string, tailA: string, tailB: string)
    requires '\n' !in a && '\n' !in b
    requires a + "\n" + tailA == b + "\n" + tailB
    ensures a == b
  {
    var s := a + "\n" + tailA;
    assert forall i :: 0 <= i < |a| ==> s[i] == a[i];
    assert forall i :: 0 <= i < |b| ==> s[i] == b[i];
    assert s[|a|] == '\n' && s[|b|] == '\n';
    assert |a| == |b|;
    assert a == s[..|a|] && b == s[..|b|];
  }

  /** The descriptive message pins down the status code: replies with different codes never
      produce the same message. */
  lemma UnexpectedMessageDeterminesStatus(c: Codec, o1: Op, r1: Response, o2: Op, r2: Response)
    requires UnexpectedMessage(c, o1, r1) == UnexpectedMessage(c, o2, r2)
    ensures r1.statusCode == r2.statusCode
  {
    var p := |UNEXPECTED_PREFIX|;
    var m1, m2 := UnexpectedMessage(c, o1, r1), UnexpectedMessage(c, o2, r2);
    var code1, code2 := IntToString(r1.statusCode), IntToString(r2.statusCode);
    UnexpectedMessageShape(c, o1, r1);
    UnexpectedMessageShape(c, o2, r2);
    assert m1[p..] == m2[p..];
    IntToStringHasNoSeparator(r1.statusCode);
    IntToStringHasNoSeparator(r2.statusCode);
    HeadBeforeNewline(code1, code2, Details(c, o1, r1), Details(c, o2, r2));
    IntToStringInjective(r1.statusCode, r2.statusCode);
  }
}
