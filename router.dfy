/** The transport-negotiation router of tornadio (tornadio/router.py): the fixed
    table from protocol name to transport handler, the route pattern a router
    registers with the web server, and the dispatch of one request to the
    transport handler its `protocol` group names. */
module TornadioRouter {
  import opened PyValues
  import opened Alternation

  /** The transport handler classes the table refers to. Their behaviour lives
      outside this file; the router only constructs and runs them. */
  datatype Transport =
    | WebSocketHandler
    | FlashSocketHandler
    | XhrPollingHandler
    | XhrMultipartHandler
    | HtmlFileHandler
    | JsonpHandler

  /** `PROTOCOLS`: protocol name to transport handler class. */
  const PROTOCOLS: map<string, Transport> := map[
    "websocket" := WebSocketHandler,
    "flashsocket" := FlashSocketHandler,
    "xhr-polling" := XhrPollingHandler,
    "xhr-multipart" := XhrMultipartHandler,
    "htmlfile" := HtmlFileHandler,
    "jsonp-polling" := JsonpHandler
  ]

  /** The application's connection class that a router is bound to. */
  datatype ConnectionClass = ConnectionClass(name: string)

  // ---------------------------------------------------------------------------
  // Route pattern

  /** Python leaves the order of `PROTOCOLS.keys()` open: any sequence holding
      every key exactly once and nothing else is a possible order. */
  ghost predicate IsKeyOrder(names: seq<string>)
  {
    multiset(names) == multiset(PROTOCOLS.Keys)
  }

  /** Iterating over `PROTOCOLS.keys()`: the keys in some order the model does
      not fix. */
  method ProtocolKeys() returns (names: seq<string>)
    ensures IsKeyOrder(names)
  {
    names := [];
    var rest := PROTOCOLS.Keys;
    while rest != {}
      invariant rest <= PROTOCOLS.Keys
      invariant multiset(names) + multiset(rest) == multiset(PROTOCOLS.Keys)
      decreases |rest|
    {
      var k :| k in rest;
      assert multiset(rest) == multiset(rest - {k}) + multiset{k};
      names := names + [k];
      rest := rest - {k};
    }
  }

  /** The opening of the named group that holds the caller's extra segment. */
  const ExtraOpen := "(?P<extra>"

  const ResourceOpen := "/(?P<resource>"

  const ProtocolOpen := "/(?P<protocol>"

  /** Everything after the protocol alternation: the end of the protocol group,
      the session id, the handshake token or sub-path, and the polling index. */
  const RouteTail := ")/?(?P<session_id>[0-9a-zA-Z]*)/?((?P<protocol_init>\\d*?)|(?P<xhr_path>\\w*?))/?(?P<jsonp_index>\\d*?)"

  /** `extra_sep` when it is given and non-empty, otherwise nothing. */
  function SeparatorText(extraSep: Option<string>): string
  {
    if Truthy(extraSep) then extraSep.value else ""
  }

  /** The extra part of the route: an empty `extra` group when no pattern is
      given (the separator is then dropped), otherwise the separator followed
      by the caller's pattern wrapped in an `extra` group. */
  function ExtraPart(extraRe: Option<string>, extraSep: Option<string>): string
  {
    if Truthy(extraRe) then SeparatorText(extraSep) + ExtraOpen + extraRe.value + ")"
    else ExtraOpen + ")"
  }

  /** Without an extra pattern (`None` or empty) the extra group is empty and
      the separator is ignored. */
  lemma ExtraPartWithoutPattern(extraRe: Option<string>, extraSep: Option<string>)
    requires !Truthy(extraRe)
    ensures ExtraPart(extraRe, extraSep) == "(?P<extra>)"
  {
  }

  /** With an extra pattern, the extra part is the separator, literally, then the
      group opening, then the caller's pattern exactly as given, then `)`. */
  lemma ExtraPartLayout(extraRe: Option<string>, extraSep: Option<string>)
    requires Truthy(extraRe)
    ensures var part, n := ExtraPart(extraRe, extraSep), |SeparatorText(extraSep)|;
      && |part| == n + |ExtraOpen| + |extraRe.value| + 1
      && part[..n] == SeparatorText(extraSep)
      && part[n .. n + |ExtraOpen|] == "(?P<extra>"
      && part[n + |ExtraOpen| .. |part| - 1] == extraRe.value
      && part[|part| - 1] == ')'
  {
  }

  /** A pattern the caller already wrapped in an `extra` group is wrapped a
      second time. */
  lemma PreWrappedPatternIsWrappedAgain(inner: string, extraSep: Option<string>)
    ensures var wrapped := ExtraOpen + inner + ")";
      ExtraPart(Some(wrapped), extraSep) == SeparatorText(extraSep) + ExtraOpen + ExtraOpen + inner + "))"
  {
  }

  /** The extra part as `initialize` computes it, reassigning `extra_re` branch
      by branch. */
  method BuildExtra(extraRe: Option<string>, extraSep: Option<string>) returns (extra: string)
    ensures extra == ExtraPart(extraRe, extraSep)
  {
    if Truthy(extraRe) {
      extra := extraRe.value;
      // A one-character string is never equal to the ten-character group
      // opening, so the pattern is always wrapped.
      assert |[extra[0]]| != |ExtraOpen|;
      if [extra[0]] != ExtraOpen {
        if extra[0] == '(' {
          extra := ExtraOpen + extra + ")";
        } else {
          extra := ExtraOpen + extra + ")";
        }
      }
      assert extra == ExtraOpen + extraRe.value + ")";
      if Truthy(extraSep) {
        extra := extraSep.value + extra;
      }
    } else {
      extra := ExtraOpen + ")";
    }
  }

  /** `proto_re`: the protocol names as one parenthesised alternation. */
  function ProtocolAlternation(names: seq<string>): string
  {
    "(" + Join(names, '|') + ")"
  }

  /** The route pattern for a resource, an extra part and an order of the
      protocol names. The resource goes in verbatim, unescaped. */
  function RoutePattern(resource: string, extra: string, names: seq<string>): string
  {
    ResourceOpen + resource + ")" + extra + ProtocolOpen + ProtocolAlternation(names) + RouteTail
  }

  /** `p` is the pattern `initialize` builds for `resource` and `extra`, for one
      of the possible orders of the protocol names. */
  ghost predicate IsRoutePattern(p: string, resource: string, extra: string)
  {
    exists names :: IsKeyOrder(names) && p == RoutePattern(resource, extra, names)
  }

  /** Where the protocol names start in a pattern for `resource` and `extra`. */
  function HeadLength(resource: string, extra: string): nat
  {
    |ResourceOpen| + |resource| + 1 + |extra| + |ProtocolOpen| + 1
  }

  /** Reads the protocol names back out of a route pattern whose resource and
      extra part are known. */
  function ProtocolsIn(p: string, resource: string, extra: string): (names: seq<string>)
    requires HeadLength(resource, extra) + |RouteTail| + 1 <= |p|
    ensures |names| >= 1
  {
    Split(p[HeadLength(resource, extra) .. |p| - |RouteTail| - 1], '|')
  }

  /** No protocol name contains the alternation's separator. */
  lemma NoBarInProtocolNames()
    ensures forall k :: k in PROTOCOLS ==> '|' !in k
  {
    assert PROTOCOLS.Keys == {"websocket", "flashsocket", "xhr-polling", "xhr-multipart", "htmlfile", "jsonp-polling"};
  }

  /** In any order of the keys, every protocol name occurs exactly once, only
      protocol names occur, and the alternation reads back as that order. */
  lemma KeyOrderAlternation(names: seq<string>)
    requires IsKeyOrder(names)
    ensures forall k :: k in PROTOCOLS ==> multiset(names)[k] == 1
    ensures forall i :: 0 <= i < |names| ==> names[i] in PROTOCOLS
    ensures Split(Join(names, '|'), '|') == names
  {
    OrderOfSet(names, PROTOCOLS.Keys);
    KeyOrderNonEmpty(names);
    NoBarInNames(names);
    SplitJoin(names, '|');
  }

  /** An order of the keys is not empty. */
  lemma KeyOrderNonEmpty(names: seq<string>)
    requires IsKeyOrder(names)
    ensures |names| >= 1
  {
    assert "websocket" in PROTOCOLS.Keys;
    OrderOfSet(names, PROTOCOLS.Keys);
    assert multiset(names)["websocket"] == 1;
  }

  /** Names drawn from the table contain no bar. */
  lemma NoBarInNames(names: seq<string>)
    requires forall i :: 0 <= i < |names| ==> names[i] in PROTOCOLS
    ensures forall i :: 0 <= i < |names| ==> '|' !in names[i]
  {
    NoBarInProtocolNames();
  }

  /** A sequence with the multiset of a set lists each element of the set
      once and nothing else. */
  lemma OrderOfSet(names: seq<string>, keys: set<string>)
    requires multiset(names) == multiset(keys)
    ensures forall k :: k in keys ==> multiset(names)[k] == 1
    ensures forall i :: 0 <= i < |names| ==> names[i] in keys
  {
    forall i | 0 <= i < |names|
      ensures names[i] in keys
    {
      assert names[i] in multiset(names);
    }
  }

  /** The resource group: the resource verbatim, unescaped. */
  function ResourceGroup(resource: string): string
  {
    ResourceOpen + resource + ")"
  }

  /** The text between the extra part and the protocol names. */
  const ProtocolGroupOpen := ProtocolOpen + "("

  /** The text after the protocol names. */
  const ProtocolGroupClose := ")" + RouteTail

  /** The shape of a stored route: the resource group with the resource
      verbatim, then the extra part, then a protocol group whose alternation
      names every protocol of the table exactly once and nothing else, then the
      fixed session id / handshake / polling index tail. */
  lemma RoutePatternShape(p: string, resource: string, extra: string)
    requires IsRoutePattern(p, resource, extra)
    ensures HeadLength(resource, extra) + |RouteTail| + 1 <= |p|
    ensures p[..|ResourceGroup(resource)|] == ResourceGroup(resource)
    ensures p[|ResourceGroup(resource)| .. |ResourceGroup(resource)| + |extra|] == extra
    ensures p[|ResourceGroup(resource)| + |extra| .. HeadLength(resource, extra)] == ProtocolGroupOpen
    ensures p[|p| - |ProtocolGroupClose| ..] == ProtocolGroupClose
    ensures forall k :: k in PROTOCOLS ==> multiset(ProtocolsIn(p, resource, extra))[k] == 1
    ensures forall n :: n in ProtocolsIn(p, resource, extra) ==> n in PROTOCOLS
  {
    var names :| IsKeyOrder(names) && p == RoutePattern(resource, extra, names);
    PatternPieces(resource, extra, names);
    KeyOrderAlternation(names);
  }

  /** Where each piece of a route pattern sits, for a given order of names. */
  lemma PatternPieces(resource: string, extra: string, names: seq<string>)
    ensures var p := RoutePattern(resource, extra, names);
      && HeadLength(resource, extra) + |RouteTail| + 1 <= |p|
      && p[..|ResourceGroup(resource)|] == ResourceGroup(resource)
      && p[|ResourceGroup(resource)| .. |ResourceGroup(resource)| + |extra|] == extra
      && p[|ResourceGroup(resource)| + |extra| .. HeadLength(resource, extra)] == ProtocolGroupOpen
      && p[|p| - |ProtocolGroupClose| ..] == ProtocolGroupClose
      && ProtocolsIn(p, resource, extra) == Split(Join(names, '|'), '|')
  {
    var p := RoutePattern(resource, extra, names);
    var head := ResourceGroup(resource);
    var joined := Join(names, '|');
    assert p == head + extra + ProtocolGroupOpen + joined + ProtocolGroupClose;
    assert |ProtocolGroupOpen| == |ProtocolOpen| + 1;
    assert |ProtocolGroupClose| == |RouteTail| + 1;
    Slices(head, extra, ProtocolGroupOpen, joined, ProtocolGroupClose);
    assert p[HeadLength(resource, extra) .. |p| - |RouteTail| - 1] == joined;
  }

  /** The five pieces of a concatenation sit at the offsets their lengths give. */
  lemma Slices(a: string, b: string, c: string, d: string, e: string)
    ensures var p := a + b + c + d + e;
      && p[..|a|] == a
      && p[|a| .. |a| + |b|] == b
      && p[|a| + |b| .. |a| + |b| + |c|] == c
      && p[|a| + |b| + |c| .. |p| - |e|] == d
      && p[|p| - |e| ..] == e
  {
    var p := a + b + c + d + e;
    assert p == a + (b + (c + (d + e)));
  }

  // ---------------------------------------------------------------------------
  // Dispatch

  /** The captured groups `_execute` reads, in the order it reads them. */
  const CapturedFields: seq<string> := ["extra", "protocol", "protocol_init", "session_id"]

  /** `*extra`: a string spread into one positional argument per character. */
  function Spread(s: string): (args: seq<string>)
    ensures |args| == |s|
    ensures forall i :: 0 <= i < |s| ==> args[i] == [s[i]]
  {
    if s == [] then [] else [[s[0]]] + Spread(s[1..])
  }

  /** Positional string arguments concatenated back into one string. */
  function Concat(parts: seq<string>): string
  {
    if parts == [] then "" else parts[0] + Concat(parts[1..])
  }

  /** The spread arguments put back together give the captured `extra`. */
  lemma {:induction false} ConcatSpread(s: string)
    ensures Concat(Spread(s)) == s
  {
    if s != [] {
      ConcatSpread(s[1..]);
      assert Spread(s)[1..] == Spread(s[1..]);
      assert [s[0]] + s[1..] == s;
    }
  }

  /** The text of the exception raised for an unknown protocol. */
  const NotAvailablePrefix := "Handler for protocol \""
  const NotAvailableSuffix := "\" is not available"

  /** The message of the exception raised for a protocol the table lacks; the
      protocol name can be read back from it. */
  function NotAvailable(proto: string): (m: string)
    ensures |m| == |NotAvailablePrefix| + |proto| + |NotAvailableSuffix|
    ensures m[|NotAvailablePrefix| .. |m| - |NotAvailableSuffix|] == proto
  {
    NotAvailablePrefix + proto + NotAvailableSuffix
  }

  // ---------------------------------------------------------------------------
  // Routers

  /** What a route holds: the pattern text and the router class that handles
      the requests it matches. */
  datatype RouteEntry = RouteEntry(pattern: string, router: SocketRouter)

  /** The outcome of the transport handler's own `_execute`: `None` when it
      returns normally, otherwise the exception it raises. */
  type TransportRun = Invocation -> Option<PyError>

  /** One delegation: the transport handler class constructed with the router
      and the session id, and the arguments its `_execute` receives. */
  datatype Invocation = Invocation(
    handler: Transport,
    router: SocketRouter,
    sessionId: string,
    transforms: seq<string>,
    positional: seq<string>,
    kwargs: map<string, string>)

  /** How a request leaves `_execute`: normally, with an exception that
      propagates, or as an HTTP error. */
  datatype Outcome = Returned | Raised(error: PyError) | HttpError(status: int)

  /** The handler `_execute` delegated to, if any, and how the request ended. */
  datatype Dispatch = Dispatch(call: Option<Invocation>, outcome: Outcome)

  /** The captured groups are all present. */
  predicate HasCapturedFields(kwargs: map<string, string>)
  {
    "extra" in kwargs && "protocol" in kwargs && "protocol_init" in kwargs && "session_id" in kwargs
  }

  /** A router class made by `get_router`. Its two fields are the class
      attributes `_connection` and `_route`, which start out as the inherited
      `None` of `SocketRouterBase`. */
  class SocketRouter {
    var connection: Option<ConnectionClass>
    var route: Option<RouteEntry>

    /** A router is either not yet initialised or bound to a connection class
        and to a route that names the router itself. */
    ghost predicate Valid()
      reads this
    {
      && (connection.Some? <==> route.Some?)
      && (route.Some? ==> route.value.router == this)
    }

    /** `type('SocketRouter', (SocketRouterBase,), {})`: a new class whose
        attributes are still the base's `None`. */
    constructor ()
      ensures Valid()
      ensures connection == None && route == None
    {
      connection := None;
      route := None;
    }

    /** The `connection` property: the bound connection class. */
    function Connection(): (c: Option<ConnectionClass>)
      reads this
      requires Valid()
      ensures c.Some? <==> Route().Some?
    {
      connection
    }

    /** `route()`: the stored route, whose second component is this router. */
    function Route(): (r: Option<RouteEntry>)
      reads this
      requires Valid()
      ensures r.Some? ==> r.value.router == this
    {
      route
    }

    /** `initialize`: binds the connection class and stores the route built
        from the resource, the optional extra pattern and separator, and the
        protocol names. A later call replaces both. */
    method Initialize(conn: ConnectionClass, resource: string, extraRe: Option<string>, extraSep: Option<string>)
      modifies this
      ensures Valid()
      ensures Connection() == Some(conn)
      ensures Route().Some? && Route().value.router == this
      ensures IsRoutePattern(Route().value.pattern, resource, ExtraPart(extraRe, extraSep))
    {
      connection := Some(conn);
      var extra := BuildExtra(extraRe, extraSep);
      var names := ProtocolKeys();
      var protoRe := "(" + Join(names, '|') + ")";
      var pattern := ResourceOpen + resource + ")" + extra + ProtocolOpen + protoRe + RouteTail;
      assert pattern == RoutePattern(resource, extra, names);
      assert IsRoutePattern(pattern, resource, ExtraPart(extraRe, extraSep));
      route := Some(RouteEntry(pattern, this));
    }

    /** `_execute`: reads the captured groups, looks the protocol up in the
        table, and delegates to that transport handler; a `ValueError` (or any
        subclass of it) becomes
        HTTP 400 and any other exception propagates. The host's positional
        arguments `args` are not forwarded. */
    function Execute(transforms: seq<string>, args: seq<string>, kwargs: map<string, string>, transport: TransportRun): (d: Dispatch)
      // a handler is constructed exactly when the fields are there and the
      // protocol is in the table, and it is the one the table names for it
      ensures d.call.Some? <==> HasCapturedFields(kwargs) && kwargs["protocol"] in PROTOCOLS
      ensures d.call.Some? ==>
        var inv := d.call.value;
        && inv.handler == PROTOCOLS[kwargs["protocol"]]
        && inv.router == this
        && inv.sessionId == kwargs["session_id"]
        && inv.transforms == transforms
        && |inv.positional| == |kwargs["extra"]|
        && (forall i :: 0 <= i < |inv.positional| ==> inv.positional[i] == [kwargs["extra"][i]])
        && inv.kwargs == kwargs
      // no ValueError escapes, and 400 means the transport raised one
      ensures !(d.outcome.Raised? && d.outcome.error.IsValueError())
      ensures d.outcome.HttpError? ==> d.outcome.status == 400
      ensures d.outcome.HttpError? <==>
        d.call.Some? && transport(d.call.value).Some? && transport(d.call.value).value.IsValueError()
      // whatever else the transport does reaches the caller unchanged
      ensures d.call.Some? && !(transport(d.call.value).Some? && transport(d.call.value).value.IsValueError()) ==>
        d.outcome == (if transport(d.call.value).Some? then Raised(transport(d.call.value).value) else Returned)
      // an unknown protocol is a generic exception naming it, not a 400
      ensures HasCapturedFields(kwargs) && kwargs["protocol"] !in PROTOCOLS ==>
        d.outcome == Raised(Exception(NotAvailable(kwargs["protocol"])))
    {
      var attempt: (Option<Invocation>, Option<PyError>) :=
        if "extra" !in kwargs then (None, Some(KeyError("extra")))
        else if "protocol" !in kwargs then (None, Some(KeyError("protocol")))
        else if "protocol_init" !in kwargs then (None, Some(KeyError("protocol_init")))
        else if "session_id" !in kwargs then (None, Some(KeyError("session_id")))
        else if kwargs["protocol"] in PROTOCOLS then
          var inv := Invocation(PROTOCOLS[kwargs["protocol"]], this, kwargs["session_id"], transforms, Spread(kwargs["extra"]), kwargs);
          (Some(inv), transport(inv))
        else (None, Some(Exception(NotAvailable(kwargs["protocol"]))));
      Dispatch(attempt.0,
        match attempt.1
        case None => Returned
        case Some(ValueError(_)) => HttpError(400)
        case Some(e) => Raised(e))
    }
  }

  /** A missing captured group raises `KeyError` for the first group `_execute`
      reads that is missing; no handler is constructed. */
  lemma MissingFieldRaisesKeyError(r: SocketRouter, transforms: seq<string>, args: seq<string>,
                                   kwargs: map<string, string>, transport: TransportRun)
    requires !HasCapturedFields(kwargs)
    ensures var d := r.Execute(transforms, args, kwargs, transport);
      && d.call == None
      && exists i :: 0 <= i < |CapturedFields| && CapturedFields[i] !in kwargs
          && (forall j :: 0 <= j < i ==> CapturedFields[j] in kwargs)
          && d.outcome == Raised(KeyError(CapturedFields[i]))
  {
    var d := r.Execute(transforms, args, kwargs, transport);
    var i := if "extra" !in kwargs then 0
      else if "protocol" !in kwargs then 1
      else if "protocol_init" !in kwargs then 2
      else 3;
    assert CapturedFields[i] !in kwargs;
    assert d.outcome == Raised(KeyError(CapturedFields[i]));
  }

  /** The outcome of a request does not depend on the host's positional
      arguments. */
  lemma ExecuteIgnoresPositionalArgs(r: SocketRouter, transforms: seq<string>, args1: seq<string>, args2: seq<string>,
                                     kwargs: map<string, string>, transport: TransportRun)
    ensures r.Execute(transforms, args1, kwargs, transport) == r.Execute(transforms, args2, kwargs, transport)
  {
  }

  /** `get_router`: a new router class, initialised with the handler, the
      resource and the optional extra pattern and separator. Nothing else
      changes, so routers made earlier keep their own binding. */
  method GetRouter(handler: ConnectionClass, resource: string, extraRe: Option<string>, extraSep: Option<string>)
    returns (router: SocketRouter)
    ensures fresh(router)
    ensures router.Valid()
    ensures router.Connection() == Some(handler)
    ensures router.Route().Some? && router.Route().value.router == router
    ensures IsRoutePattern(router.Route().value.pattern, resource, ExtraPart(extraRe, extraSep))
  {
    router := new SocketRouter();
    router.Initialize(handler, resource, extraRe, extraSep);
  }
}
