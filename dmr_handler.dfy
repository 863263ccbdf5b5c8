/** The DMR dispatch handler: it numbers each dispatch, traces its lifecycle, picks and
    fills the HTTP request, hands it to the transport and reacts to the reply.
    The transport itself is outside the model: submitting either returns a pending request
    or is refused with a cause, and a reply later arrives through OnResponseReceived or
    OnError with the context the response callback captured. */
module DmrHandler {
  import opened Optional
  import opened Decimal
  import opened DmrOperation
  import opened DmrToken
  import opened DmrRouting
  import opened DmrClassify

  /** Java's Long.MAX_VALUE. */
  const LONG_MAX: int := 0x7FFF_FFFF_FFFF_FFFF

  const HEADER_CONTENT_TYPE: string := "Content-Type"
  const HEADER_ACCEPT: string := "Accept"
  const DMR_ENCODED: string := "application/dmr-encoded"
  const GET: string := "GET"
  const POST: string := "POST"

  /** The headers both kinds of request carry. */
  const DMR_HEADERS: map<string, string> := map[HEADER_ACCEPT := DMR_ENCODED, HEADER_CONTENT_TYPE := DMR_ENCODED]

  // ---------------------------------------------------------------------------------
  // Invocation ids

  /** The id a dispatch takes from the counter: the counter itself, unless it has reached
      Long.MAX_VALUE, in which case it is first reset to 0. */
  function IssuedId(counter: int): (id: int)
    requires 0 <= counter <= LONG_MAX
    ensures 0 <= id < LONG_MAX
    ensures counter < LONG_MAX ==> id == counter
    ensures counter == LONG_MAX ==> id == 0
  {
    if counter == LONG_MAX then 0 else counter
  }

  /** The ids of k successive dispatches that start with the counter at `counter`. */
  function IssuedIds(counter: int, k: nat): (ids: seq<int>)
    requires 0 <= counter <= LONG_MAX
    ensures |ids| == k
    decreases k
  {
    if k == 0 then [] else [IssuedId(counter)] + IssuedIds(IssuedId(counter) + 1, k - 1)
  }

  lemma ModuloStep(x: int, i: nat)
    requires 0 <= x < LONG_MAX
    ensures ((if x + 1 == LONG_MAX then 0 else x + 1) + i) % LONG_MAX == (x + 1 + i) % LONG_MAX
  {
  }

  /** Successive ids count up from the first one modulo Long.MAX_VALUE. */
  lemma {:induction false} IssuedIdsCount(counter: int, k: nat, i: nat)
    requires 0 <= counter <= LONG_MAX && i < k
    ensures IssuedIds(counter, k)[i] == (IssuedId(counter) + i) % LONG_MAX
    decreases k
  {
    var first := IssuedId(counter);
    if i > 0 {
      IssuedIdsCount(first + 1, k - 1, i - 1);
      assert IssuedIds(counter, k)[i] == IssuedIds(first + 1, k - 1)[i - 1];
      ModuloStep(first, i - 1);
    }
  }

  /** Each id is one more than the one before, except where the counter wraps to 0. */
  lemma {:induction false} IssuedIdsIncrease(counter: int, k: nat, i: nat)
    requires 0 <= counter <= LONG_MAX && i + 1 < k
    ensures var ids := IssuedIds(counter, k);
      ids[i + 1] == ids[i] + 1 || (ids[i] == LONG_MAX - 1 && ids[i + 1] == 0)
    decreases k
  {
    var first := IssuedId(counter);
    var ids := IssuedIds(counter, k);
    var rest := IssuedIds(first + 1, k - 1);
    assert ids[i + 1] == rest[i];
    if i > 0 {
      IssuedIdsIncrease(first + 1, k - 1, i - 1);
      assert ids[i] == rest[i - 1];
    }
  }

  /** No two of up to Long.MAX_VALUE successive dispatches share an id. */
  lemma IssuedIdsDistinct(counter: int, k: nat, i: nat, j: nat)
    requires 0 <= counter <= LONG_MAX && k <= LONG_MAX && i < j < k
    ensures IssuedIds(counter, k)[i] != IssuedIds(counter, k)[j]
  {
    IssuedIdsCount(counter, k, i);
    IssuedIdsCount(counter, k, j);
    var x := IssuedId(counter);
    assert 0 <= x < LONG_MAX;
    ModuloBelowTwice(x + i);
    ModuloBelowTwice(x + j);
  }

  lemma ModuloBelowTwice(y: int)
    requires 0 <= y < 2 * LONG_MAX
    ensures y % LONG_MAX == if y < LONG_MAX then y else y - LONG_MAX
  {
    if y >= LONG_MAX {
      assert y == (y - LONG_MAX) + LONG_MAX;
    }
  }

  /** The process-wide invocation counter (a static field in the handler class), shared
      by every handler. */
  class InvocationCounter {
    var value: int

    ghost predicate Valid()
      reads this
    {
      0 <= value <= LONG_MAX
    }

    constructor ()
      ensures Valid() && value == 0
    {
      value := 0;
    }

    /** Resets at Long.MAX_VALUE, then hands out the current value and increments. */
    method Next() returns (id: int)
      requires Valid()
      modifies this
      ensures Valid()
      ensures 0 <= id < LONG_MAX
      ensures id == IssuedId(old(value)) && value == id + 1
    {
      if value == LONG_MAX {
        value := 0;
      }
      id := value;
      value := value + 1;
    }
  }

  // ---------------------------------------------------------------------------------
  // Trace events

  /** The lifecycle events of one dispatch. Serialization of the reply is not traced. */
  datatype TraceKind = Begin | Serialized | Send | Receive | End

  /** One event sent to the diagnostics sink; only `begin` carries the token. The
      timestamp is not modelled. */
  datatype TraceEvent = TraceEvent(kind: TraceKind, id: string, token: Option<string>)

  /** What one call of `trace` emits: nothing when tracking is off. */
  function TraceEntry(tracking: bool, c: Codec, kind: TraceKind, id: string, o: Op): (es: seq<TraceEvent>)
    ensures !tracking ==> es == []
    ensures tracking ==> |es| == 1 && es[0].kind == kind && es[0].id == id
    ensures tracking ==> (es[0].token.Some? <==> kind == Begin)
  {
    if !tracking then []
    else if kind == Begin then [TraceEvent(Begin, id, Some(Token(c, o)))]
    else [TraceEvent(kind, id, None)]
  }

  /** Events of the dispatch itself: begin, serialized and, when submission succeeded, send. */
  function DispatchEvents(tracking: bool, c: Codec, id: string, o: Op, sent: bool): seq<TraceEvent> {
    TraceEntry(tracking, c, Begin, id, o) + TraceEntry(tracking, c, Serialized, id, o)
    + (if sent then TraceEntry(tracking, c, Send, id, o) else [])
  }

  /** Events of the response callback, on the reply path and on the error path alike. */
  function ReplyEvents(tracking: bool, c: Codec, id: string, o: Op): seq<TraceEvent> {
    TraceEntry(tracking, c, Receive, id, o) + TraceEntry(tracking, c, End, id, o)
  }

  function Kinds(es: seq<TraceEvent>): (ks: seq<TraceKind>)
    ensures |ks| == |es| && forall i :: 0 <= i < |es| ==> ks[i] == es[i].kind
  {
    seq(|es|, i requires 0 <= i < |es| => es[i].kind)
  }

  /** A dispatch that is submitted and answered traces begin, serialized, send, receive and
      end, in that order, all under its id, and only begin carries the token; with tracking
      off it traces nothing. */
  lemma CompletedDispatchTrace(tracking: bool, c: Codec, id: string, o: Op)
    ensures var es := DispatchEvents(tracking, c, id, o, true) + ReplyEvents(tracking, c, id, o);
      && (tracking ==> Kinds(es) == [Begin, Serialized, Send, Receive, End])
      && (tracking ==> es[0].token == Some(Token(c, o)))
      && (forall i :: 0 <= i < |es| ==> es[i].id == id && (i > 0 ==> es[i].token == None))
      && (!tracking ==> es == [])
  {
  }

  /** A refused submission traces begin and serialized, and never send. */
  lemma RefusedDispatchTrace(tracking: bool, c: Codec, id: string, o: Op)
    ensures var es := DispatchEvents(tracking, c, id, o, false);
      && (tracking ==> Kinds(es) == [Begin, Serialized])
      && (!tracking ==> es == [])
  {
  }

  // ---------------------------------------------------------------------------------
  // Effects, in the order they happen

  /** What the handler does outside itself: an event sent to the diagnostics sink, a call
      of the caller's callback, or sending the browser window to a location. */
  datatype Effect = Traced(event: TraceEvent) | Called(delivery: Delivery) | Redirected(location: Option<string>)

  /** Trace events as effects, in the same order. */
  function Log(es: seq<TraceEvent>): (fx: seq<Effect>)
    ensures |fx| == |es|
    ensures forall e :: e in fx ==> e.Traced?
    decreases |es|
  {
    if es == [] then [] else [Traced(es[0])] + Log(es[1..])
  }

  lemma {:induction false} LogAppend(a: seq<TraceEvent>, b: seq<TraceEvent>)
    ensures Log(a + b) == Log(a) + Log(b)
    decreases |a|
  {
    if a == [] {
      assert a + b == b;
    } else {
      assert (a + b)[0] == a[0] && (a + b)[1..] == a[1..] + b;
      LogAppend(a[1..], b);
    }
  }

  /** What the diagnostics sink receives: the trace events among the effects, in order. */
  function TraceEvents(fx: seq<Effect>): (es: seq<TraceEvent>)
    ensures |es| <= |fx|
    decreases |fx|
  {
    if fx == [] then []
    else (if fx[0].Traced? then [fx[0].event] else []) + TraceEvents(fx[1..])
  }

  /** What the caller and the browser see: the effects that are not trace events, in order. */
  function Outcomes(fx: seq<Effect>): (os: seq<Effect>)
    ensures |os| <= |fx|
    ensures forall i :: 0 <= i < |os| ==> !os[i].Traced?
    decreases |fx|
  {
    if fx == [] then []
    else (if fx[0].Traced? then [] else [fx[0]]) + Outcomes(fx[1..])
  }

  lemma {:induction false} TraceEventsAppend(a: seq<Effect>, b: seq<Effect>)
    ensures TraceEvents(a + b) == TraceEvents(a) + TraceEvents(b)
    decreases |a|
  {
    if a == [] {
      assert a + b == b;
    } else {
      assert (a + b)[0] == a[0] && (a + b)[1..] == a[1..] + b;
      TraceEventsAppend(a[1..], b);
    }
  }

  lemma {:induction false} OutcomesAppend(a: seq<Effect>, b: seq<Effect>)
    ensures Outcomes(a + b) == Outcomes(a) + Outcomes(b)
    decreases |a|
  {
    if a == [] {
      assert a + b == b;
    } else {
      assert (a + b)[0] == a[0] && (a + b)[1..] == a[1..] + b;
      OutcomesAppend(a[1..], b);
    }
  }

  /** Logged trace events reach the sink unchanged and are no outcome. */
  lemma {:induction false} TraceEventsOfLog(es: seq<TraceEvent>)
    ensures TraceEvents(Log(es)) == es && Outcomes(Log(es)) == []
    decreases |es|
  {
    if es != [] {
      assert Log(es)[1..] == Log(es[1..]);
      TraceEventsOfLog(es[1..]);
    }
  }

  /** The effect of a reply's classification: the callback call, or the redirect. */
  function ReactionEffect(x: Reaction): (e: Effect)
    ensures !e.Traced?
    ensures e.Called? <==> x.Deliver?
  {
    match x
    case Deliver(d) => Called(d)
    case Redirect(location) => Redirected(location)
  }

  /** The effects of preparing a dispatch: begin, then serialized. */
  function PreparedEffects(tracking: bool, c: Codec, id: string, o: Op): seq<Effect> {
    Log(TraceEntry(tracking, c, Begin, id, o)) + Log(TraceEntry(tracking, c, Serialized, id, o))
  }

  /** The effects of submitting: send when the transport accepts, the caller's onFailure
      when it refuses. */
  function SubmitEffects(tracking: bool, c: Codec, id: string, o: Op, refusal: Option<string>): seq<Effect> {
    if refusal.Some? then [Called(OnFailure(RequestException(refusal.value)))]
    else Log(TraceEntry(tracking, c, Send, id, o))
  }

  /** The effects of a dispatch up to submission, in the order they happen. */
  function DispatchEffects(tracking: bool, c: Codec, id: string, o: Op, refusal: Option<string>): seq<Effect> {
    PreparedEffects(tracking, c, id, o) + SubmitEffects(tracking, c, id, o, refusal)
  }

  /** The dispatch effects are the dispatch's trace events, followed on a refusal by the
      caller's onFailure: the refusal comes after serialized and no send is traced. */
  lemma DispatchEffectsAsTrace(tracking: bool, c: Codec, id: string, o: Op, refusal: Option<string>)
    ensures DispatchEffects(tracking, c, id, o, refusal)
      == Log(DispatchEvents(tracking, c, id, o, refusal.None?))
         + (if refusal.Some? then [Called(OnFailure(RequestException(refusal.value)))] else [])
  {
    var begin := TraceEntry(tracking, c, Begin, id, o);
    var serialized := TraceEntry(tracking, c, Serialized, id, o);
    LogAppend(begin, serialized);
    if refusal.Some? {
      assert DispatchEvents(tracking, c, id, o, false) == begin + serialized;
    } else {
      LogAppend(begin + serialized, TraceEntry(tracking, c, Send, id, o));
      assert DispatchEvents(tracking, c, id, o, true) == (begin + serialized) + TraceEntry(tracking, c, Send, id, o);
    }
  }

  /** The effects of the response or error callback: receive, the reaction, end. */
  function ReplyEffects(tracking: bool, c: Codec, id: string, o: Op, reaction: Effect): seq<Effect> {
    Log(TraceEntry(tracking, c, Receive, id, o)) + [reaction] + Log(TraceEntry(tracking, c, End, id, o))
  }

  /** An accepted dispatch logs only trace events: begin, serialized, send. */
  lemma AcceptedDispatchEffects(tracking: bool, c: Codec, id: string, o: Op)
    ensures var fx := DispatchEffects(tracking, c, id, o, None);
      TraceEvents(fx) == DispatchEvents(tracking, c, id, o, true) && Outcomes(fx) == []
  {
    var es := DispatchEvents(tracking, c, id, o, true);
    DispatchEffectsAsTrace(tracking, c, id, o, None);
    assert DispatchEffects(tracking, c, id, o, None) == Log(es) + [] == Log(es);
    TraceEventsOfLog(es);
  }

  /** A reply logs receive and end, and the reaction is its one outcome. */
  lemma ReplyEffectsSplit(tracking: bool, c: Codec, id: string, o: Op, reaction: Effect)
    requires !reaction.Traced?
    ensures var fx := ReplyEffects(tracking, c, id, o, reaction);
      TraceEvents(fx) == ReplyEvents(tracking, c, id, o) && Outcomes(fx) == [reaction]
  {
    var receive, end := TraceEntry(tracking, c, Receive, id, o), TraceEntry(tracking, c, End, id, o);
    TraceEventsAppend(Log(receive) + [reaction], Log(end));
    TraceEventsAppend(Log(receive), [reaction]);
    OutcomesAppend(Log(receive) + [reaction], Log(end));
    OutcomesAppend(Log(receive), [reaction]);
    TraceEventsOfLog(receive);
    TraceEventsOfLog(end);
  }

  /** A dispatch that is submitted and answered: the sink receives the complete trace, and
      the one reaction comes after receive and before end. */
  lemma AnsweredDispatchEffects(tracking: bool, c: Codec, id: string, o: Op, reaction: Effect)
    requires !reaction.Traced?
    ensures var fx := DispatchEffects(tracking, c, id, o, None) + ReplyEffects(tracking, c, id, o, reaction);
      && TraceEvents(fx) == DispatchEvents(tracking, c, id, o, true) + ReplyEvents(tracking, c, id, o)
      && Outcomes(fx) == [reaction]
      && (tracking ==> |fx| == 6 && fx[3] == Traced(TraceEvent(Receive, id, None))
                       && fx[4] == reaction && fx[5] == Traced(TraceEvent(End, id, None)))
      && (!tracking ==> fx == [reaction])
  {
    var dispatch := DispatchEffects(tracking, c, id, o, None);
    var reply := ReplyEffects(tracking, c, id, o, reaction);
    AcceptedDispatchEffects(tracking, c, id, o);
    ReplyEffectsSplit(tracking, c, id, o, reaction);
    TraceEventsAppend(dispatch, reply);
    OutcomesAppend(dispatch, reply);
    assert |dispatch| == if tracking then 3 else 0;
  }

  /** A refused dispatch: the sink receives begin and serialized, and the caller's onFailure
      is the last effect. */
  lemma RefusedDispatchEffects(tracking: bool, c: Codec, id: string, o: Op, cause: string)
    ensures var fx := DispatchEffects(tracking, c, id, o, Some(cause));
      && TraceEvents(fx) == DispatchEvents(tracking, c, id, o, false)
      && Outcomes(fx) == [Called(OnFailure(RequestException(cause)))]
      && fx[|fx| - 1] == Called(OnFailure(RequestException(cause)))
  {
    var es := DispatchEvents(tracking, c, id, o, false);
    DispatchEffectsAsTrace(tracking, c, id, o, Some(cause));
    TraceEventsAppend(Log(es), [Called(OnFailure(RequestException(cause)))]);
    OutcomesAppend(Log(es), [Called(OnFailure(RequestException(cause)))]);
    TraceEventsOfLog(es);
  }

  // ---------------------------------------------------------------------------------
  // Requests and handles

  /** What the response callback captured when it was built: the invocation id, the
      operation and the HTTP method of the chosen request builder. */
  datatype ResponseContext = ResponseContext(id: string, operation: Op, httpMethod: string)

  /** The transport's request: what the builder held when it was sent, and whether it is
      still pending. Cancelling it ends its pending state. */
  class Request {
    const httpMethod: string
    const url: string
    const headers: map<string, string>
    const includeCredentials: bool
    const data: Option<string>
    const callback: Option<ResponseContext>
    var pending: bool

    constructor (httpMethod: string, url: string, headers: map<string, string>, includeCredentials: bool,
                 data: Option<string>, callback: Option<ResponseContext>)
      ensures this.httpMethod == httpMethod && this.url == url && this.headers == headers
      ensures this.includeCredentials == includeCredentials && this.data == data && this.callback == callback
      ensures pending
    {
      this.httpMethod := httpMethod;
      this.url := url;
      this.headers := headers;
      this.includeCredentials := includeCredentials;
      this.data := data;
      this.callback := callback;
      pending := true;
    }

    method Cancel()
      modifies this
      ensures !pending
    {
      pending := false;
    }

    method IsPending() returns (p: bool)
      ensures p == pending
    {
      p := pending;
    }
  }

  /** An HTTP request under construction: method and URL fixed, headers, credentials flag,
      body and callback set one by one. */
  class RequestBuilder {
    const httpMethod: string
    const url: string
    var headers: map<string, string>
    var includeCredentials: bool
    var requestData: Option<string>
    var callback: Option<ResponseContext>

    constructor (httpMethod: string, url: string)
      ensures this.httpMethod == httpMethod && this.url == url
      ensures headers == map[] && !includeCredentials && requestData == None && callback == None
    {
      this.httpMethod := httpMethod;
      this.url := url;
      headers := map[];
      includeCredentials := false;
      requestData := None;
      callback := None;
    }

    method SetHeader(name: string, value: string)
      modifies this`headers
      ensures headers == old(headers)[name := value]
    {
      headers := headers[name := value];
    }

    method SetIncludeCredentials(enabled: bool)
      modifies this`includeCredentials
      ensures includeCredentials == enabled
    {
      includeCredentials := enabled;
    }

    method SetRequestData(data: Option<string>)
      modifies this`requestData
      ensures requestData == data
    {
      requestData := data;
    }

    method SetCallback(context: ResponseContext)
      modifies this`callback
      ensures callback == Some(context)
    {
      callback := Some(context);
    }

    /** Submits the request. `refusal` stands for the transport's answer: a cause when it
        throws a RequestException, None when it accepts and returns a pending request. */
    method Send(refusal: Option<string>) returns (request: Request?)
      ensures request == null <==> refusal.Some?
      ensures request != null ==> fresh(request) && request.pending
      ensures request != null ==>
        && request.httpMethod == httpMethod && request.url == url && request.headers == headers
        && request.includeCredentials == includeCredentials && request.data == requestData
        && request.callback == callback
    {
      if refusal.Some? {
        request := null;
      } else {
        request := new Request(httpMethod, url, headers, includeCredentials, requestData, callback);
      }
    }
  }

  /** What the caller gets back from a dispatch: a handle on the transport request, which
      is null when submission failed. */
  class DispatchRequestHandle {
    const delegate: Request?

    constructor (delegate: Request?)
      ensures this.delegate == delegate
    {
      this.delegate := delegate;
    }

    /** Forwards to the request; without one it does nothing. */
    method Cancel()
      modifies delegate
      ensures delegate != null ==> !delegate.pending
    {
      if delegate != null {
        delegate.Cancel();
      }
    }

    /** Pending exactly when there is a request and it is still pending. */
    method IsPending() returns (p: bool)
      ensures p <==> delegate != null && delegate.pending
    {
      if delegate != null {
        p := delegate.IsPending();
      } else {
        p := false;
      }
    }
  }

  // ---------------------------------------------------------------------------------
  // The handler

  /** The HTTP method a dispatch of `o` uses. */
  function RouteMethod(o: Op): (m: string)
    ensures m == GET <==> o.op == READ_RESOURCE_DESCRIPTION
    ensures m == GET || m == POST
  {
    if o.op == READ_RESOURCE_DESCRIPTION then GET else POST
  }

  class Handler {
    const codec: Codec
    const endpoint: string
    const trackInvocations: bool
    const counter: InvocationCounter
    const postRequestBuilder: RequestBuilder
    /** Trace events, callback calls and redirects, in the order they happened. */
    var effects: seq<Effect>

    ghost predicate Valid()
      reads this, counter, postRequestBuilder
    {
      && counter.Valid()
      && postRequestBuilder.httpMethod == POST
      && postRequestBuilder.url == endpoint
      && postRequestBuilder.headers == DMR_HEADERS
      && postRequestBuilder.includeCredentials
    }

    /** Builds the one POST request template every non-description dispatch reuses. */
    constructor (codec: Codec, endpoint: string, trackInvocations: bool, counter: InvocationCounter)
      requires counter.Valid()
      ensures Valid() && fresh(postRequestBuilder)
      ensures this.codec == codec && this.endpoint == endpoint && this.trackInvocations == trackInvocations
      ensures this.counter == counter && unchanged(counter)
      ensures postRequestBuilder.requestData == None && postRequestBuilder.callback == None
      ensures effects == []
    {
      this.codec := codec;
      this.endpoint := endpoint;
      this.trackInvocations := trackInvocations;
      this.counter := counter;
      var rb := new RequestBuilder(POST, endpoint);
      rb.SetHeader(HEADER_ACCEPT, DMR_ENCODED);
      rb.SetHeader(HEADER_CONTENT_TYPE, DMR_ENCODED);
      rb.SetIncludeCredentials(true);
      postRequestBuilder := rb;
      effects := [];
    }

    /** Emits one trace event, computing the token only for begin, and does no work at all
        when tracking is off. */
    method Trace(kind: TraceKind, id: string, o: Op)
      modifies this`effects
      ensures effects == old(effects) + Log(TraceEntry(trackInvocations, codec, kind, id, o))
    {
      if !trackInvocations {
        return;
      }
      if kind == Begin {
        var token := GetToken(codec, o);
        effects := effects + [Traced(TraceEvent(Begin, id, Some(token)))];
      } else {
        effects := effects + [Traced(TraceEvent(kind, id, None))];
      }
    }

    /** A description request gets a fresh GET builder for its URL with no body; every
        other operation is written, base64 encoded, into the shared POST template. */
    method ChooseRequestBuilder(o: Op) returns (rb: RequestBuilder)
      requires Valid()
      modifies postRequestBuilder`requestData
      ensures Valid()
      ensures rb.httpMethod == RouteMethod(o)
      ensures rb.headers == DMR_HEADERS && rb.includeCredentials
      ensures o.op == READ_RESOURCE_DESCRIPTION ==>
        && fresh(rb)
        && rb.url == codec.urlEncode(DescriptionUrl(endpoint, o))
        && rb.requestData == None && rb.callback == None
        && unchanged(postRequestBuilder)
      ensures o.op != READ_RESOURCE_DESCRIPTION ==>
        && rb == postRequestBuilder
        && rb.requestData == Some(codec.toBase64(o))
    {
      if o.op == READ_RESOURCE_DESCRIPTION {
        var base := endpoint;
        if |base| > 0 && base[|base| - 1] == '/' {
          base := base[..|base| - 1];
        }
        var suffix := DescriptionOperationToUrl(o);
        rb := new RequestBuilder(GET, codec.urlEncode(base + suffix));
        rb.SetHeader(HEADER_ACCEPT, DMR_ENCODED);
        rb.SetHeader(HEADER_CONTENT_TYPE, DMR_ENCODED);
        rb.SetIncludeCredentials(true);
        rb.SetRequestData(None);
      } else {
        rb := postRequestBuilder;
        rb.SetRequestData(Some(codec.toBase64(o)));
      }
    }

    /** One dispatch up to submission: take an id, trace begin, choose and fill the request,
        trace serialized, bind the response callback, submit, and trace send. A refused
        submission reports its cause to the caller at once and yields no request. */
    method ExecuteRequest(o: Op, refusal: Option<string>) returns (request: Request?, context: Option<ResponseContext>)
      requires Valid()
      modifies this`effects, counter, postRequestBuilder`requestData, postRequestBuilder`callback
      ensures Valid()
      ensures counter.value == IssuedId(old(counter.value)) + 1
      ensures var id := IntToString(IssuedId(old(counter.value)));
        && effects == old(effects) + DispatchEffects(trackInvocations, codec, id, o, refusal)
        && context == (if refusal.Some? then None else Some(ResponseContext(id, o, RouteMethod(o))))
      ensures request == null <==> refusal.Some?
      ensures request != null ==> fresh(request) && request.pending
      ensures request != null ==>
        && request.httpMethod == RouteMethod(o)
        && request.url == (if o.op == READ_RESOURCE_DESCRIPTION then codec.urlEncode(DescriptionUrl(endpoint, o)) else endpoint)
        && request.headers == DMR_HEADERS && request.includeCredentials
        && request.data == (if o.op == READ_RESOURCE_DESCRIPTION then None else Some(codec.toBase64(o)))
        && request.callback == context
      ensures var id := IntToString(IssuedId(old(counter.value)));
        o.op != READ_RESOURCE_DESCRIPTION ==>
          && postRequestBuilder.requestData == Some(codec.toBase64(o))
          && postRequestBuilder.callback == Some(ResponseContext(id, o, POST))
      ensures o.op == READ_RESOURCE_DESCRIPTION ==> unchanged(postRequestBuilder)
    {
      var n := counter.Next();
      var id := IntToString(n);
      var rb := Prepare(o, id);
      context := Some(ResponseContext(id, o, rb.httpMethod));
      request := Submit(rb, context.value, refusal);
      if request == null {
        context := None;
      }
    }

    /** Traces begin, chooses and fills the request builder, and traces serialized. */
    method Prepare(o: Op, id: string) returns (rb: RequestBuilder)
      requires Valid()
      modifies this`effects, postRequestBuilder`requestData
      ensures Valid()
      ensures effects == old(effects) + PreparedEffects(trackInvocations, codec, id, o)
      ensures rb.httpMethod == RouteMethod(o) && rb.headers == DMR_HEADERS && rb.includeCredentials
      ensures rb.url == (if o.op == READ_RESOURCE_DESCRIPTION then codec.urlEncode(DescriptionUrl(endpoint, o)) else endpoint)
      ensures rb.requestData == (if o.op == READ_RESOURCE_DESCRIPTION then None else Some(codec.toBase64(o)))
      ensures o.op == READ_RESOURCE_DESCRIPTION ==> fresh(rb) && unchanged(postRequestBuilder)
      ensures o.op != READ_RESOURCE_DESCRIPTION ==> rb == postRequestBuilder
    {
      Trace(Begin, id, o);
      rb := ChooseRequestBuilder(o);
      Trace(Serialized, id, o);
    }

    /** Binds the response callback to the builder and submits it: a refusal reaches the
        caller's onFailure, an accepted request is traced as sent. */
    method Submit(rb: RequestBuilder, context: ResponseContext, refusal: Option<string>) returns (request: Request?)
      modifies this`effects, rb`callback
      ensures rb.callback == Some(context)
      ensures request == null <==> refusal.Some?
      ensures request != null ==> fresh(request) && request.pending
      ensures request != null ==>
        && request.httpMethod == rb.httpMethod && request.url == rb.url && request.headers == rb.headers
        && request.includeCredentials == rb.includeCredentials && request.data == rb.requestData
        && request.callback == Some(context)
      ensures effects == old(effects) + SubmitEffects(trackInvocations, codec, context.id, context.operation, refusal)
    {
      rb.SetCallback(context);
      request := rb.Send(refusal);
      if request == null {
        effects := effects + [Called(OnFailure(RequestException(refusal.value)))];
      } else {
        Trace(Send, context.id, context.operation);
      }
    }

    /** A dispatch as the caller sees it: the outcome of ExecuteRequest wrapped in a handle. */
    method Execute(o: Op, refusal: Option<string>) returns (handle: DispatchRequestHandle, context: Option<ResponseContext>)
      requires Valid()
      modifies this`effects, counter, postRequestBuilder`requestData, postRequestBuilder`callback
      ensures Valid()
      ensures counter.value == IssuedId(old(counter.value)) + 1
      ensures var id := IntToString(IssuedId(old(counter.value)));
        && effects == old(effects) + DispatchEffects(trackInvocations, codec, id, o, refusal)
        && context == (if refusal.Some? then None else Some(ResponseContext(id, o, RouteMethod(o))))
      ensures fresh(handle)
      ensures handle.delegate == null <==> refusal.Some?
      ensures handle.delegate != null ==> fresh(handle.delegate) && handle.delegate.pending
      ensures handle.delegate != null ==>
        && handle.delegate.httpMethod == RouteMethod(o)
        && handle.delegate.url == (if o.op == READ_RESOURCE_DESCRIPTION then codec.urlEncode(DescriptionUrl(endpoint, o)) else endpoint)
        && handle.delegate.headers == DMR_HEADERS && handle.delegate.includeCredentials
        && handle.delegate.data == (if o.op == READ_RESOURCE_DESCRIPTION then None else Some(codec.toBase64(o)))
        && handle.delegate.callback == context
      ensures var id := IntToString(IssuedId(old(counter.value)));
        o.op != READ_RESOURCE_DESCRIPTION ==>
          && postRequestBuilder.requestData == Some(codec.toBase64(o))
          && postRequestBuilder.callback == Some(ResponseContext(id, o, POST))
      ensures o.op == READ_RESOURCE_DESCRIPTION ==> unchanged(postRequestBuilder)
    {
      var request;
      request, context := ExecuteRequest(o, refusal);
      handle := new DispatchRequestHandle(request);
    }

    /** The response callback: trace receive, react to the reply, trace end. */
    method OnResponseReceived(context: ResponseContext, r: Response)
      modifies this`effects
      ensures effects == old(effects) + ReplyEffects(trackInvocations, codec, context.id, context.operation,
                                                     ReactionEffect(Classify(codec, context.httpMethod, context.operation, r)))
    {
      Trace(Receive, context.id, context.operation);
      var reaction := Classify(codec, context.httpMethod, context.operation, r);
      match reaction {
        case Deliver(d) =>
          effects := effects + [Called(d)];
        case Redirect(location) =>
          effects := effects + [Redirected(location)];
      }
      Trace(End, context.id, context.operation);
    }

    /** The error callback: trace receive, pass the transport's error on as it is, trace end. */
    method OnError(context: ResponseContext, error: string)
      modifies this`effects
      ensures effects == old(effects) + ReplyEffects(trackInvocations, codec, context.id, context.operation,
                                                     Called(OnFailure(TransportError(error))))
    {
      Trace(Receive, context.id, context.operation);
      effects := effects + [Called(OnFailure(TransportError(error)))];
      Trace(End, context.id, context.operation);
    }

    /** Undo is not supported: it always fails, with this message. */
    method Undo() returns (error: string)
      ensures error == "Not implemented yet."
    {
      error := "Not implemented yet.";
    }
  }

  /** One complete exchange through the handler: dispatch, then the reply. The effects are
      the dispatch's, then receive, the classification's one reaction, and end
      (AnsweredDispatchEffects spells out what the sink and the caller see). */
  method DispatchAndReply(h: Handler, o: Op, r: Response) returns (handle: DispatchRequestHandle)
    requires h.Valid()
    modifies h`effects, h.counter, h.postRequestBuilder`requestData, h.postRequestBuilder`callback
    ensures h.Valid()
    ensures var id := IntToString(IssuedId(old(h.counter.value)));
      h.effects == old(h.effects) + DispatchEffects(h.trackInvocations, h.codec, id, o, None)
                                  + ReplyEffects(h.trackInvocations, h.codec, id, o,
                                                 ReactionEffect(Classify(h.codec, RouteMethod(o), o, r)))
    ensures h.counter.value == IssuedId(old(h.counter.value)) + 1
    ensures handle.delegate != null
    ensures var id := IntToString(IssuedId(old(h.counter.value)));
      && handle.delegate.httpMethod == RouteMethod(o)
      && handle.delegate.url == (if o.op == READ_RESOURCE_DESCRIPTION then h.codec.urlEncode(DescriptionUrl(h.endpoint, o)) else h.endpoint)
      && handle.delegate.headers == DMR_HEADERS && handle.delegate.includeCredentials
      && handle.delegate.data == (if o.op == READ_RESOURCE_DESCRIPTION then None else Some(h.codec.toBase64(o)))
      && handle.delegate.callback == Some(ResponseContext(id, o, RouteMethod(o)))
    ensures var id := IntToString(IssuedId(old(h.counter.value)));
      o.op != READ_RESOURCE_DESCRIPTION ==>
        && h.postRequestBuilder.requestData == Some(h.codec.toBase64(o))
        && h.postRequestBuilder.callback == Some(ResponseContext(id, o, POST))
    ensures o.op == READ_RESOURCE_DESCRIPTION ==> unchanged(h.postRequestBuilder)
  {
    var context;
    handle, context := h.Execute(o, None);
    h.OnResponseReceived(context.value, r);
  }
}
