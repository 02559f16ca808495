/** The LaserQuest client: construction, `request` with its redirect,
    timeout and body handling, and `proxy`. The transport, the timer and
    the streams are replaced by explicit events: each listener the client
    registers is a method the environment calls, what the client does to
    the transport is appended to `actions`, and what it emits to its
    listeners is appended to `events`. */
module LaserQuest {
  import opened Http
  import opened Cookies
  import opened Assembler
  import opened Redirects

  const FormContentType: string := "application/x-www-form-urlencoded; charset=utf-8"

  /** The JavaScript type of a Location that is not a string: a missing
      header is `undefined`, an array of values an `object`. */
  datatype JsType = Undefined | Object

  function LocationType(location: Option<HeaderValue>): JsType
  {
    if location.None? then Undefined else Object
  }

  /** What escapes a listener: the type error `url.resolve` throws when it
      is handed something other than a string. */
  datatype Thrown = ResolveTypeError(given: JsType)

  function ThrownMessage(t: Thrown): string
  {
    match t
    case ResolveTypeError(Undefined) => "Parameter 'url' must be a string, not undefined"
    case ResolveTypeError(Object) => "Parameter 'url' must be a string, not object"
  }

  /** The options object. `qs` and `form` hold their query-string encoding
      (`querystring.stringify` is not part of this model). */
  datatype Options = Options(
    uri: Option<string>,
    httpMethod: Option<string>,
    headers: Option<Headers>,
    body: Option<string>,
    form: Option<string>,
    qs: Option<string>,
    jar: Option<Jar>,
    timeout: Option<int>)

  const NoOptions: Options := Options(None, None, None, None, None, None, None, None)

  /** The first constructor argument: a URI string or an options object. */
  datatype UriArg = UriString(text: string) | UriObject(options: Options)

  datatype ErrorKind = TimedOut | TooManyRedirects | Transport(message: string)

  function Message(e: ErrorKind): string
  {
    match e
    case TimedOut => "Request timed out"
    case TooManyRedirects => "Max redirects exceeded"
    case Transport(m) => m
  }

  /** What the client emits. `Uncaught` is an exception that escapes a
      listener instead of being emitted. */
  datatype Event =
    | Responded(response: Response, body: Option<seq<byte>>)
    | Failed(error: ErrorKind)
    | Ended
    | Uncaught(thrown: Thrown)

  /** What the client does to a transport handle. `Open` and `OpenHop`
      create one (`hyperquest(uri, options)`, `hyperquest({uri: target})`);
      the others act on the main handle. `SetHost(u)` is
      `setHeader('Host', url.parse(u).host)`. */
  datatype Action =
    | Open(uri: string, options: Options)
    | OpenHop(target: Url)
    | SetHeader(name: string, value: string)
    | SetHost(source: string)
    | Write(data: string)
    | End
    | Close
    | PipeInbound(end: bool)
    | PipeOutbound

  /** The inbound request of proxy mode. */
  datatype InboundRequest = InboundRequest(headers: Headers)

  /** The outbound response of proxy mode, owned by the caller. */
  class OutboundResponse {
    var statusCode: int
    var headers: map<string, HeaderValue>

    constructor ()
      ensures statusCode == 200 && headers == map[]
    {
      statusCode, headers := 200, map[];
    }

    method SetHeader(name: string, value: HeaderValue)
      modifies this
      ensures headers == old(headers)[name := value] && statusCode == old(statusCode)
    {
      headers := headers[name := value];
    }
  }

  /** Which constructor argument is the URI and which the options
      (`index.js` lines 10-20); `None` when `url.parse` is then handed
      something other than a string and throws. */
  function ResolveArguments(arg: UriArg, opts: Option<Options>): (r: Option<(string, Options)>)
    ensures r.Some? <==> arg.UriString? || (opts.None? && arg.options.uri.Some?)
    ensures arg.UriString? && opts.None? ==> r == Some((arg.text, NoOptions))
    ensures arg.UriString? && opts.Some? ==> r == Some((arg.text, opts.value))
    ensures arg.UriObject? && r.Some? ==> r.value.1 == arg.options && Some(r.value.0) == arg.options.uri
  {
    match arg
    case UriString(s) => Some((s, if opts.None? then NoOptions else opts.value))
    case UriObject(o) => if opts.None? && o.uri.Some? then Some((o.uri.value, o)) else None
  }

  /** `options.method || 'GET'`: an absent or empty method is GET. */
  function DefaultMethod(m: Option<string>): string
  {
    if m.None? || m.value == "" then "GET" else m.value
  }

  /** Whether the request has a body to end: the lower-cased method is
      "post" or "put". */
  predicate IsBodyMethod(m: string)
  {
    ToLower(m) == "post" || ToLower(m) == "put"
  }

  /** Whether a method has a body does not depend on its letter case, and
      the default method has none. */
  lemma BodyMethodIgnoresCase(m: string)
    ensures IsBodyMethod(m) == IsBodyMethod(ToLower(m))
    ensures !IsBodyMethod(DefaultMethod(None))
  {
    ToLowerIdempotent(m);
    assert ToLower("GET") == "get";
  }

  /** The headers `_defaultHeaders` leaves in the options: an existing
      header object is kept; otherwise a new one holds only `Content-type`,
      copied from the inbound `content-type` when that is present. */
  function Defaulted(h: Option<Headers>, inbound: Headers): (r: Option<Headers>)
    ensures r.Some?
    ensures h.Some? ==> r == h
    ensures h.None? ==> Get(r.value, "Content-type") == Get(inbound, "content-type")
    ensures h.None? ==> forall i :: 0 <= i < |r.value| ==> r.value[i].0 == "Content-type"
  {
    if h.Some? then h
    else match Get(inbound, "content-type")
      case Some(v) => Some([("Content-type", v)])
      case None => Some([])
  }

  /** The transport actions `request` performs after opening the
      transport, in order. */
  function SendActions(o: Options, hasBody: bool, parsedUri: string): seq<Action>
  {
    (if o.body.Some? then [Write(o.body.value)] else [])
    + (if o.form.Some? then [SetHeader("Content-type", FormContentType), Write(o.form.value)] else [])
    + (if hasBody then [End] else [])
    + [SetHost(parsedUri)]
  }

  /** The transport actions `request` performs, in order. */
  function RequestActions(uri: string, o: Options, hasBody: bool, parsedUri: string): seq<Action>
  {
    [Open(uri, o)] + SendActions(o, hasBody, parsedUri)
  }

  /** In `request`, the transport is opened first and the Host header is
      set last and only there; the write side is ended exactly when the
      method has a body; the body write comes before the form header,
      which comes right before the form write. */
  lemma RequestActionOrder(uri: string, o: Options, hasBody: bool, parsedUri: string)
    ensures var a := RequestActions(uri, o, hasBody, parsedUri);
      && a[0] == Open(uri, o)
      && a[|a| - 1] == SetHost(parsedUri)
      && (forall i :: 0 <= i < |a| - 1 ==> !a[i].SetHost?)
      && (End in a <==> hasBody)
      && (hasBody ==> a[|a| - 2] == End)
      && (o.body.Some? ==> a[1] == Write(o.body.value))
      && (o.form.Some? ==> var k := if o.body.Some? then 2 else 1;
            a[k] == SetHeader("Content-type", FormContentType) && a[k + 1] == Write(o.form.value))
  {
  }

  datatype EventKind = ResponseKind | TimeoutKind | ExceededKind | OtherKind

  function KindOf(e: Event): EventKind
  {
    match e
    case Responded(_, _) => ResponseKind
    case Failed(TimedOut) => TimeoutKind
    case Failed(TooManyRedirects) => ExceededKind
    case _ => OtherKind
  }

  /** How many events of kind `k` the log holds. */
  function Occurrences(s: seq<Event>, k: EventKind): nat
  {
    if s == [] then 0
    else Occurrences(s[..|s| - 1], k) + (if KindOf(s[|s| - 1]) == k then 1 else 0)
  }

  lemma OccurrencesSnoc(s: seq<Event>, e: Event)
    ensures forall k :: Occurrences(s + [e], k) == Occurrences(s, k) + (if KindOf(e) == k then 1 else 0)
  {
    assert (s + [e])[..|s|] == s;
  }

  datatype Mode = Fresh | Requesting | Proxying

  class Client {
    var uri: string
    var options: Options
    /** The URI handed to `url.parse` at construction. */
    const parsedUri: string
    const maxRedirects: int
    const hasBody: bool
    var redirects: int
    /** The `aborted` flag of the main transport handle. */
    var aborted: bool
    /** The timeout timer is set and has neither fired nor been cleared. */
    var timerArmed: bool
    var events: seq<Event>
    var actions: seq<Action>
    /** The redirect target whose hop handle still has its `response`
        listener pending. */
    var awaiting: Option<Url>
    /** The listeners `_handleResponse` attached to the final response. */
    var collector: BodyAssembler?
    var finalResponse: Response
    /** The outbound response of proxy mode. */
    var outbound: OutboundResponse?

    ghost var mode: Mode
    /** The main handle has not yet delivered its response. */
    ghost var mainPending: bool
    ghost var hopsOpened: nat
    /** The final response's stream has ended. */
    ghost var bodyDone: bool
    /** The responses the redirect follower has acted on, in order. */
    ghost var followed: seq<Response>
    /** The URL whose response the chain waits for. */
    ghost var target: Url
    ghost var threw: bool

    /** Where the redirect chain of `request` stands. */
    ghost function ChainView(): ChainState
      reads this
    {
      if collector != null then Delivered(finalResponse)
      else if threw then Threw
      else if redirects > maxRedirects then Exceeded
      else Awaiting(target)
    }

    ghost predicate RequestValid()
      reads this, collector
    {
      && 0 <= redirects <= maxRedirects + 1
      && ChainView() == Chain(maxRedirects, followed, 0, Raw(uri))
      && (ChainView().Awaiting? ==> redirects == |followed|)
      && hopsOpened + (if ChainView().Awaiting? then 0 else 1) == |followed|
      && (mainPending ==> followed == [] && awaiting.None? && target == Raw(uri)
                          && collector == null && !threw && redirects == 0)
      && (awaiting.Some? ==> !mainPending && awaiting.value == target && collector == null
                             && !threw && redirects <= maxRedirects)
      && (collector != null ==> collector.Valid() && !aborted && !timerArmed && !mainPending && awaiting.None?
                                && redirects <= maxRedirects)
      && outbound == null
    }

    ghost predicate Valid()
      reads this, collector
    {
      && maxRedirects == 5
      && options.httpMethod.Some? && hasBody == IsBodyMethod(options.httpMethod.value)
      && (aborted ==> !timerArmed)
      && Occurrences(events, TimeoutKind) == (if aborted then 1 else 0)
      && Occurrences(events, ResponseKind) == (if bodyDone then 1 else 0)
      && Occurrences(events, ExceededKind) == (if redirects > maxRedirects then 1 else 0)
      && (bodyDone ==> collector != null)
      && (mode == Fresh ==> events == [] && actions == [] && !aborted && !timerArmed)
      && (mode != Requesting ==> collector == null && awaiting.None? && redirects == 0 && !mainPending
                                 && hopsOpened == 0 && !threw && followed == [])
      && (mode == Proxying ==> outbound != null)
      && (mode == Fresh ==> outbound == null)
      && (mode == Requesting ==> RequestValid())
    }

    /** The jar the options carry, as a frame. */
    function Jars(): set<object>
      reads this
    {
      if options.jar.Some? then {options.jar.value} else {}
    }

    /** The constructor once its arguments are sorted out: `url.parse`,
        the redirect limit, the default method and `hasBody`. */
    constructor (uri: string, opts: Options)
      ensures Valid() && mode == Fresh
      ensures this.uri == uri && parsedUri == uri && maxRedirects == 5
      ensures options == opts.(httpMethod := Some(DefaultMethod(opts.httpMethod)))
      ensures hasBody <==> (ToLower(DefaultMethod(opts.httpMethod)) == "post" || ToLower(DefaultMethod(opts.httpMethod)) == "put")
      ensures events == [] && actions == [] && !aborted && !timerArmed && outbound == null
    {
      this.uri := uri;
      parsedUri := uri;
      maxRedirects := 5;
      var m := DefaultMethod(opts.httpMethod);
      options := opts.(httpMethod := Some(m));
      hasBody := IsBodyMethod(m);
      redirects, aborted, timerArmed := 0, false, false;
      events, actions := [], [];
      awaiting, collector, outbound := None, null, null;
      finalResponse := Response(0, []);
      mode, mainPending, hopsOpened, bodyDone := Fresh, false, 0, false;
      followed, target, threw := [], Raw(uri), false;
    }

    /** `_onTimeout`: marks the main handle aborted, emits `close` on it
        and emits the timeout error. */
    method OnTimeout()
      modifies this`aborted, this`events, this`actions
      ensures aborted
      ensures events == old(events) + [Failed(TimedOut)]
      ensures actions == old(actions) + [Close]
    {
      aborted := true;
      actions := actions + [Close];
      events := events + [Failed(TimedOut)];
    }

    /** The timeout timer fires: it runs `_onTimeout` once. */
    method Expire()
      requires Valid() && timerArmed
      modifies this`timerArmed, this`aborted, this`events, this`actions
      ensures Valid()
      ensures !old(aborted) && aborted && !timerArmed
      ensures events == old(events) + [Failed(TimedOut)]
      ensures actions == old(actions) + [Close]
    {
      timerArmed := false;
      OccurrencesSnoc(events, Failed(TimedOut));
      OnTimeout();
    }

    /** `_clearRequestTimeout`: a timer that is still set is cancelled. */
    method ClearRequestTimeout()
      modifies this`timerArmed
      ensures !timerArmed
    {
      timerArmed := false;
    }

    /** `_defaultHeaders`. */
    method DefaultHeaders(inbound: InboundRequest)
      modifies this`options
      ensures options == old(options).(headers := Defaulted(old(options).headers, inbound.headers))
    {
      if options.headers.Some? {
        return;
      }
      var h: Headers := [];
      match Get(inbound.headers, "content-type") {
        case Some(v) => h := [("Content-type", v)];
        case None =>
      }
      options := options.(headers := Some(h));
    }

    /** `proxy`: default headers, open the transport with the Host header,
        pipe the inbound request into it (ending it only when the method
        has a body) and set the timer when a timeout is configured. */
    method Proxy(inbound: InboundRequest, res: OutboundResponse)
      requires Valid() && mode == Fresh
      modifies this`options, this`actions, this`timerArmed, this`outbound, this`mode
      ensures Valid() && mode == Proxying && outbound == res
      ensures uri == old(uri)
      ensures options == old(options).(headers := Defaulted(old(options).headers, inbound.headers))
      ensures actions == [Open(uri, options), SetHost(parsedUri), PipeInbound(hasBody)]
      ensures timerArmed == options.timeout.Some?
      ensures events == [] && !aborted
    {
      DefaultHeaders(inbound);
      assert options.httpMethod == old(options.httpMethod);
      OpenProxy(res);
    }

    /** The rest of `proxy` once the headers are defaulted: open the
        transport, set its Host header, pipe the inbound request into it
        and set the timer when a timeout is configured. */
    method OpenProxy(res: OutboundResponse)
      modifies this`actions, this`timerArmed, this`outbound, this`mode
      ensures actions == old(actions) + [Open(uri, options), SetHost(parsedUri), PipeInbound(hasBody)]
      ensures timerArmed == (old(timerArmed) || options.timeout.Some?)
      ensures outbound == res && mode == Proxying
    {
      actions := actions + [Open(uri, options)];
      actions := actions + [SetHost(parsedUri)];
      actions := actions + [PipeInbound(hasBody)];
      if options.timeout.Some? {
        timerArmed := true;
      }
      outbound := res;
      mode := Proxying;
    }

    /** The `response` listener of `proxy`: unless aborted, cancel the
        timer, copy the status and every header onto the outbound
        response, and pipe the upstream body into it. */
    method OnProxyResponse(upstream: Response)
      requires Valid() && mode == Proxying
      modifies this`timerArmed, this`actions, outbound
      ensures Valid()
      ensures old(aborted) ==> timerArmed == old(timerArmed) && actions == old(actions)
      ensures old(aborted) ==> outbound.statusCode == old(outbound.statusCode) && outbound.headers == old(outbound.headers)
      ensures !old(aborted) ==> !timerArmed && actions == old(actions) + [PipeOutbound]
      ensures !old(aborted) ==> outbound.statusCode == upstream.statusCode
      ensures !old(aborted) ==> outbound.headers == ApplyHeaders(old(outbound.headers), upstream.headers)
    {
      if !aborted {
        ClearRequestTimeout();
        var res := outbound;
        res.statusCode := upstream.statusCode;
        var i := 0;
        while i < |upstream.headers|
          invariant 0 <= i <= |upstream.headers|
          invariant res.statusCode == upstream.statusCode
          invariant !timerArmed && actions == old(actions)
          invariant res.headers == ApplyHeaders(old(res.headers), upstream.headers[..i])
        {
          var (name, value) := upstream.headers[i];
          assert upstream.headers[..i + 1][..i] == upstream.headers[..i];
          res.SetHeader(name, value);
          i := i + 1;
        }
        assert upstream.headers[..i] == upstream.headers;
        actions := actions + [PipeOutbound];
      }
    }

    /** The `error` listener of `proxy`. */
    method OnProxyError(message: string)
      requires Valid() && mode == Proxying
      modifies this`timerArmed, this`events
      ensures Valid() && !timerArmed
      ensures events == if old(aborted) then old(events) else old(events) + [Failed(Transport(message))]
    {
      ClearRequestTimeout();
      if !aborted {
        OccurrencesSnoc(events, Failed(Transport(message)));
        events := events + [Failed(Transport(message))];
      }
    }

    /** The `end` listener of `proxy`. */
    method OnProxyEnd()
      requires Valid() && mode == Proxying
      modifies this`events
      ensures Valid()
      ensures events == if old(aborted) then old(events) else old(events) + [Ended]
    {
      if !aborted {
        OccurrencesSnoc(events, Ended);
        events := events + [Ended];
      }
    }

    /** `_addCookie`. */
    method AddCookie(value: string)
      requires options.jar.Some?
      modifies Jars()
      ensures options.jar.value.cookies == old(options.jar.value.cookies) + [Cookie(value)]
    {
      options.jar.value.Add(Cookie(value));
    }

    /** `_parseCookies`: with a jar, every `set-cookie` value is added, in
        header order; without a jar or a `set-cookie` header nothing
        changes. */
    method ParseCookies(resp: Response)
      modifies Jars()
      ensures options.jar.Some? ==>
        options.jar.value.cookies == old(options.jar.value.cookies) + Parsed(SetCookieValues(resp.headers))
    {
      if options.jar.Some? {
        match Get(resp.headers, "set-cookie") {
          case Some(Many(values)) =>
            var i := 0;
            while i < |values|
              invariant 0 <= i <= |values|
              invariant options.jar.value.cookies == old(options.jar.value.cookies) + Parsed(values[..i])
            {
              assert values[..i + 1][..i] == values[..i];
              AddCookie(values[i]);
              i := i + 1;
            }
            assert values[..i] == values;
          case Some(One(value)) =>
            AddCookie(value);
          case None =>
        }
      }
    }

    /** The effect of one call of the follower that was not cut short by
        the timeout, as decided by `FollowStep`. */
    twostate predicate FollowedBy(base: Url, res: Response)
      reads this, collector
    {
      var n := old(redirects);
      match FollowStep(maxRedirects, n, base, res)
      case Final =>
        && collector != null && fresh(collector) && collector.buffer == [] && finalResponse == res && !timerArmed
        && redirects == n && events == old(events) && actions == old(actions) && awaiting.None?
      case TooMany =>
        && redirects == n + 1 && events == old(events) + [Failed(TooManyRedirects)]
        && actions == old(actions) && collector == null && awaiting.None? && timerArmed == old(timerArmed)
      case Throws =>
        && redirects == n + 1 && events == old(events) + [Uncaught(ResolveTypeError(LocationType(Get(res.headers, "location"))))]
        && actions == old(actions) && collector == null && awaiting.None? && timerArmed == old(timerArmed)
      case Hop(t) =>
        && redirects == n + 1 && actions == old(actions) + [OpenHop(t)] && awaiting == Some(t)
        && events == old(events) && collector == null && timerArmed == old(timerArmed)
    }

    /** `_handleResponse`: attach the body listeners to the final response. */
    method HandleResponse(resp: Response)
      modifies this`collector, this`finalResponse
      ensures collector != null && fresh(collector) && collector.Valid() && collector.buffer == []
      ensures finalResponse == resp
    {
      collector := new BodyAssembler();
      finalResponse := resp;
    }

    /** The final callback `request` hands to the follower: cancel the
        timer and attach the body listeners to the response. */
    method FinalCallback(base: Url, res: Response)
      requires Valid() && mode == Requesting && !mainPending && awaiting.None? && !aborted
      requires ChainView() == Awaiting(base) && FollowStep(maxRedirects, redirects, base, res) == Final
      modifies this`timerArmed, this`collector, this`finalResponse, this`followed
      ensures Valid() && FollowedBy(base, res)
    {
      ChainSnoc(maxRedirects, followed, 0, Raw(uri), base, res);
      Deliver(res);
    }

    /** The body of the final callback: the timer is cancelled and
        `_handleResponse` attaches the body listeners. */
    method Deliver(res: Response)
      modifies this`timerArmed, this`collector, this`finalResponse, this`followed
      ensures !timerArmed && collector != null && fresh(collector) && collector.Valid() && collector.buffer == []
      ensures finalResponse == res && followed == old(followed) + [res]
    {
      followed := followed + [res];
      ClearRequestTimeout();
      HandleResponse(res);
    }

    /** The redirect branch of the follower: the hop counter is
        incremented and compared with the limit; past it the limit error
        is emitted, otherwise the Location is resolved and a hop is opened
        whose `response` listener continues the follower. The test is
        made on the incremented value, and each branch below performs the
        increment itself. */
    method Redirect(base: Url, res: Response)
      requires Valid() && mode == Requesting && !mainPending && awaiting.None? && !aborted
      requires ChainView() == Awaiting(base) && FollowStep(maxRedirects, redirects, base, res) != Final
      modifies this`redirects, this`events, this`actions, this`awaiting, this`target
      modifies this`hopsOpened, this`threw, this`followed
      ensures Valid() && FollowedBy(base, res)
    {
      if redirects + 1 > maxRedirects {
        ExceedLimit(base, res);
        return;
      }
      match Get(res.headers, "location") {
        case Some(One(location)) =>
          FollowLocation(base, res, location);
        case _ =>
          ResolveThrows(base, res);
      }
    }

    /** A hop counted beyond the limit: "Max redirects exceeded". */
    method ExceedLimit(base: Url, res: Response)
      requires Valid() && mode == Requesting && !mainPending && awaiting.None? && !aborted
      requires ChainView() == Awaiting(base) && FollowStep(maxRedirects, redirects, base, res) == TooMany
      modifies this`redirects, this`events, this`followed
      ensures Valid() && FollowedBy(base, res)
    {
      ChainSnoc(maxRedirects, followed, 0, Raw(uri), base, res);
      OccurrencesSnoc(events, Failed(TooManyRedirects));
      Exceed(res);
    }

    /** The counter is incremented past the limit and the error emitted. */
    method Exceed(res: Response)
      modifies this`redirects, this`events, this`followed
      ensures redirects == old(redirects) + 1 && followed == old(followed) + [res]
      ensures events == old(events) + [Failed(TooManyRedirects)]
    {
      CountHop(res);
      events := events + [Failed(TooManyRedirects)];
    }

    /** A hop counted within the limit, with a string Location: the
        hop to `url.resolve(base, location)` is opened. */
    method FollowLocation(base: Url, res: Response, location: string)
      requires Valid() && mode == Requesting && !mainPending && awaiting.None? && !aborted
      requires ChainView() == Awaiting(base)
      requires FollowStep(maxRedirects, redirects, base, res) == Hop(Resolved(base, location))
      modifies this`redirects, this`actions, this`awaiting, this`target, this`hopsOpened, this`followed
      ensures Valid() && FollowedBy(base, res)
    {
      ChainSnoc(maxRedirects, followed, 0, Raw(uri), base, res);
      OpenRedirectHop(res, Resolved(base, location));
    }

    /** The hop itself: a new transport request to the resolved target,
        whose `response` listener is then pending. */
    method OpenRedirectHop(res: Response, redirectUrl: Url)
      modifies this`redirects, this`actions, this`awaiting, this`target, this`hopsOpened, this`followed
      ensures redirects == old(redirects) + 1 && followed == old(followed) + [res]
      ensures actions == old(actions) + [OpenHop(redirectUrl)]
      ensures awaiting == Some(redirectUrl) && target == redirectUrl
      ensures hopsOpened == old(hopsOpened) + 1
    {
      CountHop(res);
      actions := actions + [OpenHop(redirectUrl)];
      awaiting := Some(redirectUrl);
      target := redirectUrl;
      hopsOpened := hopsOpened + 1;
    }

    /** A hop counted within the limit, with a Location that is missing
        or an array: `url.resolve` throws its type error out of the
        listener. */
    method ResolveThrows(base: Url, res: Response)
      requires Valid() && mode == Requesting && !mainPending && awaiting.None? && !aborted
      requires ChainView() == Awaiting(base) && FollowStep(maxRedirects, redirects, base, res) == Throws
      modifies this`redirects, this`events, this`threw, this`followed
      ensures Valid() && FollowedBy(base, res)
    {
      ChainSnoc(maxRedirects, followed, 0, Raw(uri), base, res);
      OccurrencesSnoc(events, Uncaught(ResolveTypeError(LocationType(Get(res.headers, "location")))));
      Throw(res);
    }

    /** The increment of the hop counter, with the response recorded
        as acted on. */
    method CountHop(res: Response)
      modifies this`redirects, this`followed
      ensures redirects == old(redirects) + 1 && followed == old(followed) + [res]
    {
      followed := followed + [res];
      redirects := redirects + 1;
    }

    /** The counter is incremented, then `url.resolve` throws. */
    method Throw(res: Response)
      modifies this`redirects, this`events, this`threw, this`followed
      ensures redirects == old(redirects) + 1 && followed == old(followed) + [res]
      ensures events == old(events) + [Uncaught(ResolveTypeError(LocationType(Get(res.headers, "location"))))] && threw
    {
      CountHop(res);
      events := events + [Uncaught(ResolveTypeError(LocationType(Get(res.headers, "location"))))];
      threw := true;
    }

    /** `_followRedirects`. Once the main handle is aborted it returns
        without doing anything. A status outside 300-399 goes to the final
        callback, as does a response with a header named "false"; any
        other response is a redirect. */
    method FollowRedirects(base: Url, res: Response)
      requires Valid() && mode == Requesting && !mainPending && awaiting.None?
      requires ChainView() == Awaiting(base)
      modifies this`timerArmed, this`collector, this`finalResponse, this`followed
      modifies this`redirects, this`events, this`actions, this`awaiting, this`target
      modifies this`hopsOpened, this`threw
      ensures Valid()
      ensures old(aborted) ==> redirects == old(redirects) && events == old(events) && actions == old(actions)
                               && collector == null && awaiting.None? && timerArmed == old(timerArmed)
      ensures !old(aborted) ==> FollowedBy(base, res)
    {
      if aborted {
        return;
      }
      if res.statusCode < 300 || res.statusCode > 399 {
        FinalCallback(base, res);
        return;
      }
      // The guard `!'location' in res.headers` tests for a header named "false".
      if Get(res.headers, "false").Some? {
        FinalCallback(base, res);
        return;
      }
      Redirect(base, res);
    }

    /** `request`: append the query string, open the transport, set the
        timer, reset the hop counter, then write the body, the form header
        and form, end the request when the method has a body, and set the
        Host header. */
    method Request()
      requires Valid() && mode == Fresh
      modifies this`uri, this`actions, this`timerArmed, this`redirects
      modifies this`mode, this`mainPending, this`followed, this`target
      ensures Valid() && mode == Requesting && mainPending
      ensures uri == if options.qs.Some? then old(uri) + "?" + options.qs.value else old(uri)
      ensures options == old(options)
      ensures actions == RequestActions(uri, options, hasBody, parsedUri)
      ensures timerArmed == options.timeout.Some?
      ensures events == [] && !aborted && redirects == 0 && awaiting.None? && collector == null
    {
      OpenRequest();
      WriteRequest();
    }

    /** The start of `request`: append the query string, open the
        transport, set the timer when a timeout is configured and reset
        the hop counter. */
    method OpenRequest()
      modifies this`uri, this`actions, this`timerArmed, this`redirects
      modifies this`mode, this`mainPending, this`followed, this`target
      ensures uri == if options.qs.Some? then old(uri) + "?" + options.qs.value else old(uri)
      ensures actions == old(actions) + [Open(uri, options)]
      ensures timerArmed == (old(timerArmed) || options.timeout.Some?)
      ensures redirects == 0
      ensures mode == Requesting && mainPending && followed == [] && target == Raw(uri)
    {
      if options.qs.Some? {
        uri := uri + "?" + options.qs.value;
      }
      actions := actions + [Open(uri, options)];
      if options.timeout.Some? {
        timerArmed := true;
      }
      redirects := 0;
      mode, mainPending, followed, target := Requesting, true, [], Raw(uri);
    }

    /** The end of `request`: write the body, then the form header and
        the form, end the request when the method has a body, and set the
        Host header last. */
    method WriteRequest()
      modifies this`actions
      ensures actions == old(actions) + SendActions(options, hasBody, parsedUri)
    {
      if options.body.Some? {
        actions := actions + [Write(options.body.value)];
      }
      if options.form.Some? {
        actions := actions + [SetHeader("Content-type", FormContentType), Write(options.form.value)];
      }
      if hasBody {
        actions := actions + [End];
      }
      actions := actions + [SetHost(parsedUri)];
    }

    /** The `error` listener of `request` on the main handle. */
    method OnError(message: string)
      requires Valid() && mode == Requesting
      modifies this`timerArmed, this`events
      ensures Valid() && !timerArmed
      ensures events == if old(aborted) then old(events) else old(events) + [Failed(Transport(message))]
    {
      ClearRequestTimeout();
      if !aborted {
        OccurrencesSnoc(events, Failed(Transport(message)));
        events := events + [Failed(Transport(message))];
      }
    }

    /** The `response` listener of `request` on the main handle: unless
        aborted, collect cookies and start the follower at the request URI. */
    method OnResponse(resp: Response)
      requires Valid() && mode == Requesting && mainPending
      modifies this, Jars()
      ensures Valid() && mode == Requesting && !mainPending
      ensures uri == old(uri) && options == old(options) && aborted == old(aborted)
      ensures old(aborted) ==> events == old(events) && actions == old(actions) && redirects == old(redirects)
                               && collector == null && awaiting.None?
      ensures old(aborted) && options.jar.Some? ==> options.jar.value.cookies == old(options.jar.value.cookies)
      ensures !old(aborted) && options.jar.Some? ==>
        options.jar.value.cookies == old(options.jar.value.cookies) + Parsed(SetCookieValues(resp.headers))
      ensures !old(aborted) ==> FollowedBy(Raw(uri), resp)
    {
      mainPending := false;
      if !aborted {
        ParseCookies(resp);
        FollowRedirects(Raw(uri), resp);
      }
    }

    /** The `response` listener of a redirect hop: cookies are collected
        even after a timeout, then the follower continues from the hop's
        target. */
    method OnHopResponse(resp: Response)
      requires Valid() && mode == Requesting && awaiting.Some?
      modifies this, Jars()
      ensures Valid() && mode == Requesting
      ensures uri == old(uri) && options == old(options) && aborted == old(aborted)
      ensures options.jar.Some? ==>
        options.jar.value.cookies == old(options.jar.value.cookies) + Parsed(SetCookieValues(resp.headers))
      ensures old(aborted) ==> events == old(events) && actions == old(actions) && redirects == old(redirects)
                               && collector == null && awaiting.None?
      ensures !old(aborted) ==> FollowedBy(old(awaiting).value, resp)
    {
      var redirectUrl := awaiting.value;
      awaiting := None;
      ParseCookies(resp);
      FollowRedirects(redirectUrl, resp);
    }

    /** The `error` listener of a redirect hop: the error is emitted on the
        client, whether or not the main handle was aborted. */
    method OnHopError(message: string)
      requires Valid() && mode == Requesting && hopsOpened > 0
      modifies this`events
      ensures Valid()
      ensures events == old(events) + [Failed(Transport(message))]
    {
      OccurrencesSnoc(events, Failed(Transport(message)));
      events := events + [Failed(Transport(message))];
    }

    /** A `data` event of the final response. */
    method OnBodyData(chunk: seq<byte>)
      requires Valid() && mode == Requesting && collector != null && !bodyDone
      modifies collector
      ensures Valid()
      ensures collector.buffer == old(collector.buffer) + [chunk]
    {
      collector.OnData(chunk);
    }

    /** The `end` event of the final response: the assembled body is
        emitted with the response. */
    method OnBodyEnd()
      requires Valid() && mode == Requesting && collector != null && !bodyDone
      modifies this`events, this`bodyDone
      ensures Valid() && bodyDone && !aborted
      ensures events == old(events) + [Responded(finalResponse, AssembledBody(collector.buffer))]
    {
      var body := collector.OnEnd();
      OccurrencesSnoc(events, Responded(finalResponse, body));
      events := events + [Responded(finalResponse, body)];
      bodyDone := true;
    }
  }

  /** The module's factory: sort out the arguments and construct; `null`
      when the constructor throws. */
  method Create(arg: UriArg, opts: Option<Options>) returns (c: Client?)
    ensures c == null <==> ResolveArguments(arg, opts).None?
    ensures c != null ==> fresh(c) && c.Valid() && c.mode == Fresh
    ensures c != null ==> c.uri == ResolveArguments(arg, opts).value.0
    ensures c != null ==> c.options == ResolveArguments(arg, opts).value.1.(httpMethod := Some(DefaultMethod(ResolveArguments(arg, opts).value.1.httpMethod)))
  {
    var resolved := ResolveArguments(arg, opts);
    if resolved.None? {
      return null;
    }
    c := new Client(resolved.value.0, resolved.value.1);
  }

  /** A server that answers six followable redirects in a row makes the
      request fail with the limit error: the chain has no live handle and
      no response is ever emitted for it. */
  lemma RedirectLoopFailsRequest(c: Client)
    requires c.Valid() && c.mode == Requesting
    requires |c.followed| >= 6 && forall i :: 0 <= i < 6 ==> Followable(c.followed[i])
    ensures c.redirects > c.maxRedirects && c.collector == null && c.awaiting.None?
    ensures Occurrences(c.events, ExceededKind) == 1 && Occurrences(c.events, ResponseKind) == 0
  {
    RedirectLoopFails(c.followed, Raw(c.uri));
  }

  /** Once the limit error is out, no response can follow: the chain has
      no live handle and no final response. */
  lemma ExceededIsTerminal(c: Client)
    requires c.Valid() && c.mode == Requesting && c.redirects > c.maxRedirects
    ensures c.collector == null && c.awaiting.None? && !c.mainPending
    ensures Occurrences(c.events, ResponseKind) == 0 && Occurrences(c.events, ExceededKind) == 1
  {
  }

  /** A timeout error is emitted at most once, and exactly when the main
      handle is aborted. */
  lemma AtMostOneTimeout(c: Client)
    requires c.Valid()
    ensures Occurrences(c.events, TimeoutKind) <= 1
    ensures Occurrences(c.events, TimeoutKind) == 1 <==> c.aborted
  {
  }
}
