# LaserQuest client, modelled in Dafny

LaserQuest (`index.js`) is a small HTTP client built on top of a transport
library. It has two modes:

- **Request mode.** A `request()` opens a transport handle, writes the body or the form, and ends the request when the method has one. It sets the `Host` header, follows redirects up to five hops, gathers `set-cookie` values into a cookie jar, and buffers the final response body before emitting `response`.
- **Proxy mode.** `proxy()` pipes an inbound request upstream and copies the upstream status and headers onto an outbound response.

Both modes can be cut short by a timeout. The timeout marks the main handle `aborted` and emits "Request timed out". Every guarded listener then stays silent.

The model replaces the network, the timer and the streams with explicit
events:

- Each listener the client registers is a method of the class `LaserQuest.Client` that the environment calls.
- Each thing the client does to a transport handle is appended to the field `actions`.
- Each thing it emits is appended to the field `events`.

Modules:

- `Http` (`http.dfy`): header sets, the last-write-wins lookup, copying headers onto a response, and lower-casing.
- `Cookies` (`cookies.dfy`): the jar the `jar()` factory creates, and the `set-cookie` values of a response.
- `Assembler` (`assembler.dfy`): the `data`/`end` listeners of `_handleResponse`. Chunks are collected, then copied in order into one buffer of the collected length.
- `Redirects` (`redirects.dfy`): what one call of `_followRedirects` decides (`FollowStep`) and where a whole chain of responses leads (`Chain`). It includes the lemmas that five redirects are followed and that a sixth fails the request.
- `LaserQuest` (`laserquest.dfy`): argument handling of the constructor, `request`, `proxy`, the timer, the cookie listeners, the follower and the body listeners, as the class `Client`. `Client.Valid()` is the protocol invariant every listener keeps. It says:
  - where the redirect chain stands (`ChainView() == Chain(...)` over the responses acted on);
  - that the log holds exactly one timeout error when aborted, and none otherwise;
  - that the log holds at most one `response` event, and one "Max redirects exceeded" exactly when the counter is past the limit;
  - which handles still have listeners pending.

Where the code and the client's documented behaviour disagree, the model
follows the code:

- **Missing Location.** The guard at index.js:128, `!'location' in res.headers`, reads `false in res.headers`. It only holds for a header named "false". So every 3xx within the limit is followed. When the `Location` is missing (or is an array), `url.resolve` throws a type error naming the type it was given out of the listener (`Uncaught`, `Redirects.Throws`). It is not handed to the final callback.
- **Timer cancellation.** The timer is cancelled only on the final response and on errors of the main handle. "Max redirects exceeded" and errors of a redirect hop leave it armed, so a later timeout error can follow them.
- **Hop errors after abort.** Errors of a redirect hop are emitted even after the main handle was aborted.

## Model

| member | source | states |
|---|---|---|
| Http.GetLast | index.js:49-50 | a header lookup finds a name exactly when some header carries it, and yields the value of the last header with that name |
| Http.ApplyHeadersGet | index.js:74-78 | after every upstream header is set on the response, each copied name maps to its upstream value and every other name keeps its old value |
| Http.ToLower | index.js:25 | lower-casing keeps the length and maps every character to its lower-case letter |
| Http.ToLowerIdempotent | index.js:25-26 | lower-casing twice is lower-casing once |
| Cookies.Jar.constructor | index.js:245-247 | the `jar()` factory yields an empty jar |
| Cookies.Jar.Add | index.js:98-100 | adding a cookie appends it to the jar and changes nothing else in it |
| Cookies.Parsed | index.js:106-108 | one cookie per raw value, in the same order, each built from its value |
| Assembler.FlattenLength | index.js:161-167 | the concatenated body is exactly as long as the sum of the chunk lengths counted by the `data` listener |
| Assembler.FlattenAppend | index.js:169-172 | concatenating two runs of chunks is concatenating their bodies |
| Assembler.ChunkInPlace | index.js:169-172 | every chunk sits in the body right after the chunks before it, so nothing is reordered, dropped, truncated or duplicated |
| Assembler.BodyAssembler.constructor | index.js:158-159 | a fresh collector holds no chunk and a zero length |
| Assembler.BodyAssembler.OnData | index.js:161-164 | a `data` event appends the chunk and keeps the length count equal to the sum of chunk lengths |
| Assembler.BodyAssembler.CopyChunk | index.js:170 | one chunk is copied into the buffer at the given offset, and the bytes before and after the copied range are untouched |
| Assembler.BodyAssembler.OnEnd | index.js:165-180 | on `end` the body is nothing when no chunk arrived, otherwise the in-order concatenation of all chunks, `bodyLen` bytes long |
| Redirects.FollowStep | index.js:116-139 | a status outside 300-399 goes to the final callback; a hop is made only within the limit and to the resolved string Location; the limit error comes exactly for a 3xx with no header named "false" once the incremented counter passes the limit |
| Redirects.ChainSnoc | index.js:145-148 | a chain that waits on a target continues, for the next response, with one step from that target at the hop count reached so far |
| Redirects.ChainWithinLimit | index.js:132-148 | a run of followable redirects within the limit, followed by a non-redirect status, delivers that last response |
| Redirects.ChainBeyondLimit | index.js:132-136 | one followable redirect more than the limit allows ends the chain with the limit error, whatever follows |
| Redirects.RedirectLoopFails | index.js:132-136 | with the limit of 5, six redirects in a row fail the request with "Max redirects exceeded" |
| Redirects.FiveRedirectsDelivered | index.js:132-136 | with the limit of 5, five redirects are still followed and the sixth, final response is delivered |
| LaserQuest.ResolveArguments | index.js:10-21 | a string URI takes the given options, or empty ones when none are given; an options object is used only when no second argument is given and it carries a `uri`; otherwise `url.parse` throws |
| LaserQuest.BodyMethodIgnoresCase | index.js:24-26 | whether the method has a body does not depend on its letter case, and the default GET has none |
| LaserQuest.Defaulted | index.js:42-53 | existing headers are never replaced; otherwise the new header object holds only `Content-type`, with the inbound content-type when there is one |
| LaserQuest.RequestActionOrder | index.js:223-236 | in `request` the transport is opened first and the Host header is set last and only there; `end()` happens iff the method has a body, and then right before the Host header; the form header comes right before the form write, after the body write |
| LaserQuest.Client.constructor | index.js:8-27 | the method is the given one, or GET when absent or empty; `hasBody` holds iff the lower-cased method is "post" or "put"; the limit is 5; nothing is emitted or opened |
| LaserQuest.Client.OnTimeout | index.js:30-34 | the main handle is marked aborted, gets `close`, and "Request timed out" is emitted |
| LaserQuest.Client.Expire | index.js:198-199 | the armed timer fires once: the handle was not aborted before, it is afterwards, and the invariant still holds |
| LaserQuest.Client.ClearRequestTimeout | index.js:36-40 | the timer is no longer armed |
| LaserQuest.Client.DefaultHeaders | index.js:42-53 | only the `headers` option changes, to the defaulted header set |
| LaserQuest.Client.Proxy | index.js:55-68 | the headers are defaulted; the transport is opened with the options, gets the Host header and the inbound pipe (ending it iff the method has a body); the timer is armed iff a timeout is set |
| LaserQuest.Client.OpenProxy | index.js:60-68 | the open, Host header and pipe actions are appended in that order, and the timer is armed when a timeout is configured |
| LaserQuest.Client.OnProxyResponse | index.js:70-81 | unaborted: the timer is cancelled, the outbound status is the upstream status, every upstream header is set on it, then the upstream is piped; aborted: nothing changes |
| LaserQuest.Client.OnProxyError | index.js:83-88 | the timer is cancelled; the error is emitted unless the handle was aborted |
| LaserQuest.Client.OnProxyEnd | index.js:89-93 | `end` is emitted unless the handle was aborted |
| LaserQuest.Client.AddCookie | index.js:98-100 | the jar gains exactly the cookie built from the value, at its end |
| LaserQuest.Client.ParseCookies | index.js:102-114 | with a jar, one cookie per `set-cookie` value is appended in header order; with no jar or no header the jar is unchanged |
| LaserQuest.Client.HandleResponse | index.js:157-164 | a fresh, empty collector is attached to the final response |
| LaserQuest.Client.FinalCallback | index.js:214-219 | the final callback runs exactly for a final step; the timer is cancelled, a fresh and empty body collector is attached to that response, and the invariant holds |
| LaserQuest.Client.Deliver | index.js:215-216 | the timer is cancelled and a fresh empty collector holds the response |
| LaserQuest.Client.Redirect | index.js:132-154 | the counter goes up by one, then the limit error, the hop or the resolve error follows as `FollowStep` decides, and the invariant holds |
| LaserQuest.Client.ExceedLimit | index.js:132-136 | past the limit, "Max redirects exceeded" is emitted, no hop is opened, and the chain is in its exceeded state |
| LaserQuest.Client.Exceed | index.js:132-135 | the counter goes up by one and the limit error is appended to the log |
| LaserQuest.Client.FollowLocation | index.js:139-154 | within the limit with a string Location, exactly one hop to the resolved target is opened and becomes the chain's target |
| LaserQuest.Client.OpenRedirectHop | index.js:139-143 | the counter goes up by one and one new transport request to the target is opened, its response pending |
| LaserQuest.Client.ResolveThrows | index.js:139 | within the limit with a missing or array Location, the type error naming `undefined` or `object` escapes the listener and ends the chain |
| LaserQuest.Client.CountHop | index.js:132 | the hop counter goes up by exactly one |
| LaserQuest.Client.Throw | index.js:132-139 | the counter goes up by one and the thrown type error is recorded |
| LaserQuest.Client.FollowRedirects | index.js:116-155 | once aborted nothing changes; otherwise the state changes exactly as `FollowStep` decides (a final response gets a fresh, empty body collector), and the invariant holds |
| LaserQuest.Client.Request | index.js:183-239 | the query string is appended to the URI; the actions are exactly the open followed by the body, form, end and Host actions in order; the timer is armed iff a timeout is set; the counter is 0 |
| LaserQuest.Client.OpenRequest | index.js:185-210 | the URI gets the query string, the transport is opened, the timer is armed when a timeout is set, and the counter is reset to 0 |
| LaserQuest.Client.WriteRequest | index.js:223-236 | the body, form, end and Host actions are appended in the order `request` performs them |
| LaserQuest.Client.OnError | index.js:202-208 | the timer is cancelled; the error is emitted unless the handle was aborted |
| LaserQuest.Client.OnResponse | index.js:211-221 | unaborted: cookies are collected and the follower starts from the request URI, a final response getting a fresh, empty body collector; aborted: nothing is emitted, opened or collected |
| LaserQuest.Client.OnHopResponse | index.js:145-148 | cookies are collected even after abort, then the follower continues from the hop's target, a final response getting a fresh, empty body collector |
| LaserQuest.Client.OnHopError | index.js:152-154 | the hop error is emitted on the client, aborted or not |
| LaserQuest.Client.OnBodyData | index.js:161-164 | the chunk is appended to the final response's collector |
| LaserQuest.Client.OnBodyEnd | index.js:165-180 | `response` is emitted once, with the final response and the assembled body |
| LaserQuest.Create | index.js:241-243 | the factory yields a fresh client exactly when the arguments resolve, carrying the resolved URI and the resolved options with the defaulted method |
| LaserQuest.RedirectLoopFailsRequest | index.js:132-136 | a request that met six followable redirects in a row has failed with the limit error, has no pending hop and has emitted no response |
| LaserQuest.ExceededIsTerminal | index.js:132-136 | once the limit error is out there is no pending hop, no final response and no `response` event, and the limit error is in the log once |
| LaserQuest.AtMostOneTimeout | index.js:30-34 | "Request timed out" is in the log at most once, and exactly when the main handle is aborted |

## Left out

- The transport library (`hyperquest`) and socket I/O. A handle is opened by an `Open`/`OpenHop` action, and its `response`, `error`, `data` and `end` notifications are listener methods that the environment calls.
- Stream piping with back-pressure (index.js:64, 79). Each pipe is a single `PipeInbound(end)` or `PipeOutbound` action.
- Wall-clock time. The timer is the flag `timerArmed`, and it fires through the explicit `Expire` event.
- EventEmitter registration and the optional `request(cb)` callback (index.js:9, 189-194). Emitted events form an append-only log.
- `url.parse`, `url.resolve`, `querystring.stringify`, the cookie-jar `Cookie` parser and UTF-8 decoding are opaque library calls:
  - `Resolved(base, location)` stands for the resolved URL;
  - `SetHost(u)` stands for setting `Host` to the host of `url.parse(u)`;
  - `qs` and `form` are carried already encoded;
  - a cookie keeps its raw text;
  - a body is the bytes before decoding.
- The text-chunk branch of `_handleResponse` (index.js:175-176). The transport delivers byte buffers.
- Which cookie a jar keeps when a name repeats. The jar is an ordered log of added cookies.
- Http.ToLower: lower-cases ASCII letters only, because that is all the comparisons with "post" and "put" can depend on.
- LaserQuest.Client.constructor: does not model the constructor writing the defaulted method back into the caller's options object, because options are values here.
- LaserQuest.Client.Request: one `request` or `proxy` per client (`mode == Fresh`). A second call on the same object, which shares the handle fields, is not modelled.
- LaserQuest.Client.Expire: a timer is fired only while armed. A cleared timer never fires, and a timer that is never cleared fires at most once.
