# DMR dispatch handler and interface address validation, modelled in Dafny

This project models two pieces of the management console.

The first is the **DMR dispatch handler** (`DMRHandler`). It turns a management operation
into an HTTP request, sends it, and sorts the reply into an outcome for the caller. A
management operation is a tree-shaped DMR node with an address, an operation name, optional
composite steps, parameters, and optional `child-type` and `name` children. The model covers:

- the diagnostic token attached to a dispatch's `begin` trace event;
- the process-wide invocation-id counter, which wraps to 0 at `Long.MAX_VALUE`;
- the choice between a fresh GET request for `read-resource-description` and the shared
  POST template for every other operation, including the description URL;
- the classification of a reply by HTTP status code;
- the order of trace events for one dispatch;
- the cancellable handle returned to the caller.

The second is the **address validation step** (`AddressValidation`) for an interface
declaration. It covers when the step applies, and the verdict of its decision tree as a
function of three inputs: whether the inet address is set, whether the address wildcard is
set, and which keys the cleaned changeset holds.

Files and modules:

| file | module | contents |
|---|---|---|
| `optional.dfy` | `Optional` | `Option`, for null references and undefined DMR children |
| `decimal.dfy` | `Decimal` | `String.valueOf` for integers, with its inverse |
| `dmr_operation.dfy` | `DmrOperation` | the `Op` datatype, protocol constants, `Codec` (foreign renderers) |
| `dmr_token.dfy` | `DmrToken` | `getOpToken` / `getToken` |
| `dmr_routing.dfy` | `DmrRouting` | `descriptionOperationToUrl` and the endpoint's trailing slash |
| `dmr_classify.dfy` | `DmrClassify` | the status-code branch of the response callback |
| `dmr_handler.dfy` | `DmrHandler` | classes `InvocationCounter`, `RequestBuilder`, `Request`, `DispatchRequestHandle`, `Handler` |
| `address_validation.dfy` | `AddressValidation` | `doesApplyTo`, the decision tree and its verdict |

How the model is set up:

- **Foreign code is passed in.** The handler calls code it cannot see:
  `ModelNode.asString`/`toString`/`toBase64String`/`fromBase64` and `URL.encode`. These are
  the function-valued fields of a `Codec` value, so the model never looks inside them.
- **The transport is abstract.** `RequestBuilder.Send` takes a `refusal` argument. `Some(cause)`
  means the transport throws a `RequestException`; `None` means it returns a fresh pending
  `Request`. That request keeps what the builder held when it was sent: the method, URL,
  headers, credentials flag, body and bound callback.
- **Replies arrive by method call.** A reply reaches the handler through
  `Handler.OnResponseReceived` or `Handler.OnError`. Each takes the `ResponseContext` that the
  response callback captured: the id, the operation and the HTTP method.
- **Side effects are logged in order.** The handler records what the source does outside
  itself in one sequence, `effects`: events sent to the diagnostics sink (`Traced`), calls of
  the caller's callback (`Called`) and browser redirects (`Redirected`). Because there is one
  log, the contracts fix where a callback falls among the trace events.
- **The counter is shared.** `idCounter` is a static field in the source. Here it is an
  `InvocationCounter` object that handlers share by reference.
- **The tree walk is a loop.** `DecisionTree` is not part of this model. As the tree is built
  with `createRoot`, `yes` and `no`, it is walked from the root by yes/no answers.
  `AddressValidation.Evaluate` is that walk, written as a loop. The two "modify other
  values?" decisions remove a key from the shared changeset before they test whether it is
  empty.

Points where the code behaves differently than one might expect:

- **The composite token is not recursive.** For a composite, `getToken` builds each step's
  piece with `getOpToken` (`DMRHandler.java:88-91`). It does not call `getToken`. A nested
  composite step therefore contributes its own op-token line, not its steps' tokens.
- **The POST template has no `Connection` header.** The template gets `Accept`,
  `Content-Type` and credentials (`DMRHandler.java:73-76`). The `Connection: Keep-Alive`
  constants are declared but never set. `Handler.Valid` states the headers exactly.
- **The "No details" rule holds one way only.** The payload in the unexpected-status message
  is "No details" for an empty body, and the decoded body otherwise
  (`DMRHandler.java:186-187`). The decoded text is opaque and could itself read "No details",
  so the converse is not claimed.
- **A composite may have no steps.** Nothing in the code requires a composite to have at
  least one step. With no steps, its token is empty.

## Model

| member | source | states |
|---|---|---|
| `DmrToken.OpTokenLayout` | dmr/src/main/java/org/jboss/dmr/client/dispatch/impl/DMRHandler.java:100-115 | the op token is address, ": ", op rendering, "; ", child type, "; ", name; the separators sit at fixed offsets whatever the texts are, and the length is the sum of the parts plus 6; the child type renders as its value or the undefined text (`AsString`), and the name as its text or nothing (`NameText`) |
| `DmrToken.NameAppendedOnlyIfDefined` | dmr/src/main/java/org/jboss/dmr/client/dispatch/impl/DMRHandler.java:108-113 | with the name undefined the token ends with "; "; defining the name appends exactly its text and changes nothing before it |
| `DmrToken.GetToken` | dmr/src/main/java/org/jboss/dmr/client/dispatch/impl/DMRHandler.java:83-98 | the buffer loop yields the token specification: the concatenation of " _" + op token of each step for a composite, the op token otherwise |
| `DmrToken.StepTokensAppend` | dmr/src/main/java/org/jboss/dmr/client/dispatch/impl/DMRHandler.java:88-91 | the composite token of a concatenation of step lists is the concatenation of their tokens |
| `DmrToken.StepTokenAt` | dmr/src/main/java/org/jboss/dmr/client/dispatch/impl/DMRHandler.java:88-91 | step i contributes exactly " _" + its op token, placed right after the pieces of steps 0..i-1: N steps give N marked pieces in step order |
| `DmrToken.CompositeTokenIgnoresOwnFields` | dmr/src/main/java/org/jboss/dmr/client/dispatch/impl/DMRHandler.java:86-92 | a composite's token depends only on its steps, never on its own address, child type or name |
| `Decimal.IntToString` | dmr/src/main/java/org/jboss/dmr/client/dispatch/impl/DMRHandler.java:143 | `String.valueOf` of an int: non-empty, digits only for non-negative values, a leading '-' exactly for negative ones |
| `Decimal.IntToStringInjective` | dmr/src/main/java/org/jboss/dmr/client/dispatch/impl/DMRHandler.java:143 | different ids render as different strings (proved through the parse round trip) |
| `DmrRouting.DescriptionOperationToUrl` | dmr/src/main/java/org/jboss/dmr/client/dispatch/impl/DMRHandler.java:240-258 | the builder yields the address path, then "?operation=resource-description", then the parameter query |
| `DmrRouting.AppendAddress` | dmr/src/main/java/org/jboss/dmr/client/dispatch/impl/DMRHandler.java:243-247 | the address loop appends "/" + name + "/" + value per segment, in address order |
| `DmrRouting.AppendParameters` | dmr/src/main/java/org/jboss/dmr/client/dispatch/impl/DMRHandler.java:250-256 | the parameter loop appends "&p=v" for each listed parameter the operation has |
| `DmrRouting.AddressPathAppend` | dmr/src/main/java/org/jboss/dmr/client/dispatch/impl/DMRHandler.java:244-247 | the segments of a concatenated address appear one after the other, in order |
| `DmrRouting.QueryParamsAppend` | dmr/src/main/java/org/jboss/dmr/client/dispatch/impl/DMRHandler.java:250-256 | the query parts follow the order of the parameter list |
| `DmrRouting.DescriptionParametersInOrder` | dmr/src/main/java/org/jboss/dmr/client/dispatch/impl/DMRHandler.java:60-61 | the query lists recursive, proxies, operations, inherited, locale in that fixed order, each present if and only if the operation has it |
| `DmrRouting.QueryParamsIgnoreOthers` | dmr/src/main/java/org/jboss/dmr/client/dispatch/impl/DMRHandler.java:250-256 | parameters outside the list never reach the URL: operations agreeing on the listed parameters get the same query |
| `DmrRouting.TrailingSlashTolerated` | dmr/src/main/java/org/jboss/dmr/client/dispatch/impl/DMRHandler.java:219-223 | an endpoint written with or without one trailing slash gives the same base |
| `DmrRouting.StripTrailingSlashRemovesAtMostOne` | dmr/src/main/java/org/jboss/dmr/client/dispatch/impl/DMRHandler.java:220-223 | the base is a prefix of the endpoint, equal to it or one '/' shorter |
| `DmrRouting.LoggingDescriptionUrl` | dmr/src/main/java/org/jboss/dmr/client/dispatch/impl/DMRHandler.java:219-224 | subsystem=logging on `http://host/mgmt/` gives `http://host/mgmt/subsystem/logging?operation=resource-description`, and the same without the slash |
| `DmrClassify.Classify` | dmr/src/main/java/org/jboss/dmr/client/dispatch/impl/DMRHandler.java:156-190 | success exactly for 200, with the method, body and Content-Type header; the authentication failure exactly for 401 and 0; a redirect to the Location header (`Header`), with no callback, exactly for 307; the unavailable failure exactly for 503; every other delivery is an Exception failure (its payload, `Payload`, is covered by `UnexpectedStatus`) |
| `DmrClassify.UnexpectedMessageShape` | dmr/src/main/java/org/jboss/dmr/client/dispatch/impl/DMRHandler.java:179-188 | the unexpected-status message starts with "Unexpected HTTP response: " and the code, ends with the payload, and differs from both fixed messages |
| `DmrClassify.UnexpectedStatus` | dmr/src/main/java/org/jboss/dmr/client/dispatch/impl/DMRHandler.java:177-190 | any other code yields that failure, which starts with the prefix and the code and ends with "No details" for an empty body or with the decoded body otherwise |
| `DmrClassify.UnexpectedMessageDeterminesStatus` | dmr/src/main/java/org/jboss/dmr/client/dispatch/impl/DMRHandler.java:180 | the message pins down the status code: different codes never give the same message |
| `DmrHandler.IssuedId` | dmr/src/main/java/org/jboss/dmr/client/dispatch/impl/DMRHandler.java:135-143 | the issued id lies in [0, Long.MAX_VALUE), equals the counter whenever the counter has not reached the maximum, and is 0 when it has (the reset) |
| `DmrHandler.IssuedIdsCount` | dmr/src/main/java/org/jboss/dmr/client/dispatch/impl/DMRHandler.java:135-143 | the i-th of successive ids is (first id + i) modulo Long.MAX_VALUE |
| `DmrHandler.IssuedIdsIncrease` | dmr/src/main/java/org/jboss/dmr/client/dispatch/impl/DMRHandler.java:135-143 | each id is the previous plus one, except that Long.MAX_VALUE - 1 is followed by 0 |
| `DmrHandler.IssuedIdsDistinct` | dmr/src/main/java/org/jboss/dmr/client/dispatch/impl/DMRHandler.java:135-143 | no two of up to Long.MAX_VALUE successive dispatches share an id |
| `DmrHandler.InvocationCounter.Next` | dmr/src/main/java/org/jboss/dmr/client/dispatch/impl/DMRHandler.java:135-143 | resets a counter at Long.MAX_VALUE to 0, issues the value before the increment, and leaves the counter at id + 1 |
| `DmrHandler.TraceEntry` | dmr/src/main/java/org/jboss/dmr/client/dispatch/impl/DMRHandler.java:260-271 | with tracking off nothing is emitted; otherwise exactly one event of the given kind and id, carrying a token exactly for begin |
| `DmrHandler.CompletedDispatchTrace` | dmr/src/main/java/org/jboss/dmr/client/dispatch/impl/DMRHandler.java:143-204 | a dispatch that is sent and answered traces begin, serialized, send, receive, end in that order, all under one id, with the token on begin only; nothing with tracking off |
| `DmrHandler.RefusedDispatchTrace` | dmr/src/main/java/org/jboss/dmr/client/dispatch/impl/DMRHandler.java:202-209 | a refused submission traces begin and serialized and never send |
| `DmrHandler.Handler.Trace` | dmr/src/main/java/org/jboss/dmr/client/dispatch/impl/DMRHandler.java:260-271 | appends exactly the trace entry to the effect log: nothing when tracking is off, one event otherwise, with the operation's token on begin only |
| `DmrHandler.Handler.ChooseRequestBuilder` | dmr/src/main/java/org/jboss/dmr/client/dispatch/impl/DMRHandler.java:213-238 | the builder's method is `RouteMethod(o)`, GET exactly for read-resource-description and POST otherwise; read-resource-description gets a fresh GET builder with URL = encode(endpoint with one trailing '/' stripped + description suffix), the DMR headers, credentials and null data, and the POST template stays untouched; every other op reuses the POST template with its data set to the base64 of the operation |
| `DmrHandler.Handler.constructor` | dmr/src/main/java/org/jboss/dmr/client/dispatch/impl/DMRHandler.java:71-77 | builds the one POST template: the endpoint URL, Accept and Content-Type set to application/dmr-encoded, credentials included; the effect log starts empty |
| `DmrHandler.Handler.ExecuteRequest` | dmr/src/main/java/org/jboss/dmr/client/dispatch/impl/DMRHandler.java:133-211 | takes the next id; logs begin, serialized and, when sent, send under that id; the request it submits is the chosen builder: `RouteMethod(o)`, the encoded description URL for read-resource-description and the endpoint otherwise, the DMR headers, credentials, no body or the base64 of the operation, and the response context (id, operation, method) as callback; on a RequestException the caller's onFailure is logged after serialized, and there is no request, no send event and no context |
| `DmrHandler.Handler.Prepare` | dmr/src/main/java/org/jboss/dmr/client/dispatch/impl/DMRHandler.java:144-147 | logs begin then serialized, and yields the builder ChooseRequestBuilder fills: its method, URL, headers, credentials and body as above |
| `DmrHandler.Handler.Submit` | dmr/src/main/java/org/jboss/dmr/client/dispatch/impl/DMRHandler.java:202-209 | sets the builder's callback to the context, then either logs the caller's RequestException failure and yields no request, or yields a fresh pending request carrying the builder's method, URL, headers, credentials, body and that callback, and logs send |
| `DmrHandler.Handler.Execute` | dmr/src/main/java/org/jboss/dmr/client/dispatch/impl/DMRHandler.java:118-125 | the id, effects and context of ExecuteRequest, and a fresh handle that wraps the submitted request: its delegate is null exactly when submission failed, and otherwise is the pending request with the routed method, URL, DMR headers, credentials, body and callback; the POST template holds the base64 body and callback for every operation but read-resource-description, which leaves it untouched |
| `DmrHandler.Handler.OnResponseReceived` | dmr/src/main/java/org/jboss/dmr/client/dispatch/impl/DMRHandler.java:152-192 | logs receive, then the one reaction the classification gives (the callback call or the redirect), then end |
| `DmrHandler.Handler.OnError` | dmr/src/main/java/org/jboss/dmr/client/dispatch/impl/DMRHandler.java:195-200 | logs receive, then the caller's onFailure with the transport's error, then end |
| `DmrHandler.Handler.Undo` | dmr/src/main/java/org/jboss/dmr/client/dispatch/impl/DMRHandler.java:128-131 | always fails, with the message "Not implemented yet." |
| `DmrHandler.DispatchAndReply` | dmr/src/main/java/org/jboss/dmr/client/dispatch/impl/DMRHandler.java:143-204 | a dispatch followed by its reply logs the dispatch effects and then receive, the reaction to the reply classified under the routed method, and end, all under the id the counter issued; the counter moves on past that id; the handle wraps the request sent, with its callback bound to that id, operation and method; the POST template is left as ExecuteRequest leaves it |
| `DmrHandler.AnsweredDispatchEffects` | dmr/src/main/java/org/jboss/dmr/client/dispatch/impl/DMRHandler.java:143-204 | of an answered dispatch, the sink receives exactly the complete trace (begin, serialized, send, receive, end), the caller or browser sees exactly the one reaction, and with tracking on it is the effect between receive and end |
| `DmrHandler.RefusedDispatchEffects` | dmr/src/main/java/org/jboss/dmr/client/dispatch/impl/DMRHandler.java:202-209 | of a refused dispatch, the sink receives begin and serialized, and the caller's RequestException failure is the only outcome and the last effect |
| `DmrHandler.DispatchRequestHandle.Cancel` | dmr/src/main/java/org/jboss/dmr/client/dispatch/impl/DMRHandler.java:305-311 | forwards to the request when there is one; with a null delegate it changes nothing |
| `DmrHandler.DispatchRequestHandle.IsPending` | dmr/src/main/java/org/jboss/dmr/client/dispatch/impl/DMRHandler.java:314-317 | pending exactly when there is a delegate and the delegate is pending; false for a null delegate |
| `AddressValidation.DoesApplyTo` | gui/src/main/java/org/jboss/as/console/client/shared/general/validation/AddressValidation.java:20-37 | the step applies if and only if the inet address is set, the wildcard is set, or the cleaned changeset has the key inetAddress or addressWildcard |
| `AddressValidation.Evaluate` | gui/src/main/java/org/jboss/as/console/client/shared/general/validation/AddressValidation.java:41-87 | walking a tree from the root, with the decisions removing keys from the shared changeset, ends at the terminal the tree walk specification names |
| `AddressValidation.Validate` | gui/src/main/java/org/jboss/as/console/client/shared/general/validation/AddressValidation.java:41-87 | walking the decision tree (`BuildDecisionTree`, lines 41-87), every input ends at exactly one of the terminals 4, 5, 7, 8, 9, with success exactly at 5 and 9; inet set with other keys gives 4/FAILURE and without gives 5/SUCCESS; neither set gives 7/FAILURE; only the wildcard set with keys other than addressWildcard gives 8/FAILURE and without gives 9/SUCCESS |
| `AddressValidation.InetAddressPathIgnoresWildcard` | gui/src/main/java/org/jboss/as/console/client/shared/general/validation/AddressValidation.java:54-68 | once the inet address is set the wildcard is never asked about, and a changed addressWildcard key fails the step |
| `AddressValidation.InapplicableWouldFail` | gui/src/main/java/org/jboss/as/console/client/shared/general/validation/AddressValidation.java:61-80 | where the step does not apply, its tree would end at node 7 with FAILURE |

## Left out

- GWT transport: the `Request`, `RequestBuilder.send` and `Response` classes are stand-ins for GWT's. A submission is decided by an argument, a reply arrives by a method call, and the asynchronous scheduling of callbacks is not modelled.
- Cancellation versus delivery: whether a cancelled request still has its reply delivered is up to the GWT transport and is not modelled. `Request.Cancel` only ends the pending state.
- Foreign renderers and encoders: `ModelNode.asString`/`toString`, `toBase64String`, `fromBase64` and `URL.encode` are the uninterpreted fields of `Codec`. Percent-encoding is therefore not modelled.
- `ModelNode.get` on a missing child creates an undefined child. This side effect of token building on the operation, and through it on the serialized body, is not modelled; the `ModelNode` class is not part of this model.
- The values of the protocol name constants (`composite`, `read-resource-description`, `recursive`, …) come from `ModelDescriptionConstants`, which is not part of this model. They are written out in `DmrOperation`.
- The JSNI `redirect` (`$wnd.location`) is recorded as a `Redirected` effect carrying the location. `Log.error`, the `System.currentTimeMillis` timestamps of trace events, the `Diagnostics` sink (kept as a sequence of events) and the `GWT.create`/`@Inject` wiring are left out.
- The `DESERIALIZED` trace type is never emitted by this handler and is not modelled.
- DmrHandler.Handler.OnResponseReceived: the base64 decoder (`ModelNode.fromBase64`) is taken to succeed on every non-empty body. In the source it runs inside the callback (`DMRHandler.java:186-187`); on a body that is not base64 (an HTML error page, say) it could throw out of `onResponseReceived`, and then neither `onFailure` (line 189) nor the end trace (line 191) would happen. The model, and `AnsweredDispatchEffects`, always have the one reaction followed by end.
- HTTP header names are matched exactly; the browser's case-insensitive header lookup is not modelled.
- Concurrency: the source is single-threaded, and interleavings of several in-flight dispatches are not modelled beyond the shared counter and the shared POST template.
- `AddressValidation`: `DecisionTree`, `AbstractValidationStep.clearChangeset`, `isSet`, the `SUCCESS`/`FAILURE` constants and the `Interface` bean are not part of this model. The "set" tests are booleans, the cleaned changeset is its set of keys, and the values in the changeset are not modelled.
- gui/src/main/java/org/useware/kernel/gui/behaviour/common/ActivationProcedure.java: an assertion and a call into `InteractionCoordinator`/`DialogState`, with no logic of its own to model.
