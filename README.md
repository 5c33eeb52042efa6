# tornadio router, modelled in Dafny

This project models `tornadio/router.py`, the entry point through which every
socket.io client reaches a tornadio server. The file does three things:

- It keeps a fixed table, `PROTOCOLS`, from transport name to transport handler
  class. The names are `websocket`, `flashsocket`, `xhr-polling`,
  `xhr-multipart`, `htmlfile` and `jsonp-polling`.
- It builds one route pattern per router (`initialize`). The pattern holds the
  resource name, an optional caller-supplied "extra" segment with its
  separator, an alternation of the protocol names, and a fixed tail: session
  id, then handshake token or sub-path, then JSONP index.
- It dispatches each request (`_execute`). It reads the captured groups and
  looks the protocol up in the table. It then constructs that transport
  handler with the router and the session id and runs it. A `ValueError`,
  or any subclass of it, becomes HTTP 400.

`get_router` makes a fresh router class each time and initialises it.

Files:

- `py_values.dfy` (module `PyValues`): `Option` for arguments that default to
  `None`, Python truthiness of such arguments, and the exceptions that matter.
- `alternation.dfy` (module `Alternation`): `"|".join(...)` and its inverse,
  with the round-trip lemma.
- `router.dfy` (module `TornadioRouter`): the table, the pattern builder, the
  `SocketRouter` class (`_connection` and `_route` as fields, `initialize`,
  `route`, `connection`, `_execute`), and `GetRouter`.

Three behaviours of `router.py` are easy to miss:

- A caller's extra pattern that already starts with `(?P<extra>` is wrapped
  again. The test at line 83 compares one character with a ten-character
  string, so it never holds.
- There is no check for an empty, duplicate or ambiguous set of protocol names.
- `get_router` returns the router class, not its route.

## Model

| member | source | states |
|---|---|---|
| `TornadioRouter.ProtocolKeys` | tornadio/router.py:93 | iterating `PROTOCOLS.keys()` yields every key of the table exactly once and nothing else, in an order left open |
| `TornadioRouter.NoBarInProtocolNames` | tornadio/router.py:17-24 | no protocol name in the table contains the bar separator, so joining the names with bars loses nothing |
| `TornadioRouter.KeyOrderAlternation` | tornadio/router.py:93 | in any key order each protocol name occurs once, only table names occur, and splitting the joined alternation gives that order back |
| `Alternation.SplitJoin` | tornadio/router.py:93 | round trip: splitting `sep.join(names)` on `sep` gives back `names` when none contains `sep` |
| `Alternation.Split` | tornadio/router.py:93 | the inverse of the join: at least one piece, and no piece contains the separator |
| `TornadioRouter.BuildExtra` | tornadio/router.py:82-91 | the branch-by-branch computation of the extra part, including the line-83 test that never holds, yields exactly the extra part described by the two lemmas below |
| `TornadioRouter.ExtraPartWithoutPattern` | tornadio/router.py:82-91 | with `extra_re` `None` or empty the extra part is exactly `(?P<extra>)`, whatever `extra_sep` is |
| `TornadioRouter.ExtraPartLayout` | tornadio/router.py:82-89 | with a non-empty `extra_re` the extra part is the separator (if given) literally, then `(?P<extra>`, then the pattern unchanged, then `)` |
| `TornadioRouter.PreWrappedPatternIsWrappedAgain` | tornadio/router.py:83-87 | a pattern already of the form `(?P<extra>…)` is wrapped a second time; there is no pre-wrap exemption |
| `TornadioRouter.PatternPieces` | tornadio/router.py:93-101 | where the resource group, extra part, protocol group opening, names and fixed tail sit in a pattern built for a given key order |
| `TornadioRouter.RoutePatternShape` | tornadio/router.py:93-101 | a stored pattern starts with the resource group holding the resource verbatim, then the extra part, then the protocol group, and ends with the fixed session-id / `protocol_init`-or-`xhr_path` / `jsonp_index` tail; its alternation names each table key exactly once |
| `TornadioRouter.SocketRouter.constructor` | tornadio/router.py:32-33 | a new router class starts with `_connection` and `_route` both `None` |
| `TornadioRouter.SocketRouter.Connection` | tornadio/router.py:62-65 | the bound connection class is present exactly when a route is stored |
| `TornadioRouter.SocketRouter.Route` | tornadio/router.py:67-70 | the stored route's second component is the router class itself |
| `TornadioRouter.SocketRouter.Initialize` | tornadio/router.py:72-102 | binds the connection class and stores a route whose pattern is built from the resource, the extra part and some order of the protocol names, paired with this router; a second call overwrites both fields |
| `TornadioRouter.SocketRouter.Execute` | tornadio/router.py:35-60 | a handler is constructed exactly when all four groups are present and the protocol is in the table. It is the table's handler for that name, built with the router and the unchanged session id, and gets one positional argument per character of `extra` plus all captured groups. A `ValueError` or any subclass of it (such as `UnicodeDecodeError`) from the transport becomes 400; nothing else does. Other exceptions pass through unchanged. An unknown protocol raises a generic exception naming it |
| `TornadioRouter.MissingFieldRaisesKeyError` | tornadio/router.py:36-60 | a missing captured group raises `KeyError` for the first missing one in reading order, constructs no handler and is not turned into 400 |
| `TornadioRouter.ExecuteIgnoresPositionalArgs` | tornadio/router.py:35-54 | the host's positional arguments are not forwarded and do not affect the outcome |
| `TornadioRouter.Spread` | tornadio/router.py:54 | `*extra` gives as many positional arguments as `extra` has characters, the i-th being the i-th character |
| `TornadioRouter.ConcatSpread` | tornadio/router.py:54 | the spread arguments concatenate back to `extra` |
| `TornadioRouter.NotAvailable` | tornadio/router.py:56-57 | the "not available" message contains the protocol name, which can be read back from it |
| `TornadioRouter.GetRouter` | tornadio/router.py:104-119 | returns a freshly allocated router bound to the handler and to the route built for the arguments; no existing router changes |

## Left out

- Regex matching of the route is done by tornado and is not part of this model. The pattern is modelled as text.
- tornado's `RequestHandler` and `HTTPError` are not modelled. HTTP 400 is the `HttpError(400)` outcome.
- `logging.debug` (lines 42-47) is left out: it is output only and changes no behaviour.
- The transport handler classes of `tornadio.persistent` and `tornadio.polling` are not part of this model. They are opaque identifiers. Constructing one and running its `_execute` is a single abstract parameter (`TransportRun`), which returns normally or raises one exception. So the model does not tell whether the constructor or `_execute` raised.
- The request handler instance passed as the handler's first argument is modelled as the router object. The `transforms` chain is an opaque list passed through unchanged.
- `type(...)` class synthesis is modelled as allocating a fresh `SocketRouter`. The base class's `None` attributes are its initial state. `SocketRouterBase` itself is not a separate object, but `GetRouter` changes no object other than the one it allocates.
- `TornadioRouter.SocketRouter.Initialize`: states the pattern only up to the order of the protocol names, because Python does not fix the iteration order of `PROTOCOLS.keys()`.
- Arguments of types other than `str` or `None` are not modelled, for example a non-string `extra_re`, or a captured group whose value is `None`. The errors such values raise in Python (a `TypeError` from `*extra`, for instance) are therefore not modelled either.
- A `None` connection class is not modelled. `initialize` stores whatever it is given at line 79, so `get_router(None, r)` would leave `_connection` `None` while `_route` is set. The model's connection class is never `None`, which is why `SocketRouter.Valid` can tie the two fields together.
