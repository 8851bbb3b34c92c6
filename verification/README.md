# Isso request dispatch and startup, modelled in Dafny

This project models the decision logic in `isso/__init__.py` of Isso, a self-hosted
comment server. It covers the parts of the file that decide things on their own:

- how `Isso.dispatch` turns a routing result and a handler outcome into a reply;
- which `max_age` `Isso.unsign` hands to the timed serializer;
- the import block and `make_app`'s choice of server mixin;
- the startup reachability probe, a `for ... else` over the configured hosts;
- the middleware stack that `make_app` folds around the application;
- `main`'s choice between TCP and a unix socket, and its stale-socket removal.

Library calls are inputs rather than code. The router's match, the handler's outcome,
the serializer's `dumps`/`loads`, what is importable, `sys.argv[0]`, each probe's
result and the outcome of `os.unlink` are all passed in. Python behaviour that
matters is written out: the truthiness in `max_age or ...`, unbound module names,
short-circuit `or`, `str.partition` and `str.join`.

Files, one module each: `outcomes.dfy` (`Outcomes` and `Logs`), `pytext.dfy`,
`settings.dfy`, `dispatch.dfy`, `signing.dfy`, `backend.dfy`, `middleware.dfy`,
`probe.dfy`, `listen.dfy` and `bootstrap.dfy`.

Dispatch has a partner: a small-step machine for the request life cycle
(Received, Routed, Invoked, then Responded, ErrorResponded or Escaped).
`Dispatch.DispatchRunsLifeCycle` proves that dispatch equals running this machine
to completion.

## Model

| member | source | states |
|---|---|---|
| Dispatch.Dispatch | isso/__init__.py:118-133 | At most one handler call and at most one log record. No handler call happens exactly when matching raised. A record is written exactly when the handler raised an `Exception` that is not an `HTTPException` and the environ has `PATH_INFO`. An `HTTPException` reply other than the 500 is never logged. An exception escapes dispatch exactly when the handler raised a `BaseException` that is not an `Exception`, or when the catch-all runs without `PATH_INFO`. |
| Dispatch.RoutingErrorPassesThrough | isso/__init__.py:120-123 | An `HTTPException` from `adapter.match()` is returned unchanged. No handler runs and nothing is logged. |
| Dispatch.HandlerOutcomePassesThrough | isso/__init__.py:124-128 | After a match, the handler runs once with the matched values. Its response, or the `HTTPException` it raises, is returned unchanged, and nothing is logged. |
| Dispatch.UnexpectedFailureIs500 | isso/__init__.py:129-131 | When the environ has `PATH_INFO`, any other handler `Exception` yields `InternalServerError` (500) and exactly one ERROR record. The record's message is "method PATH_INFO" and it carries the exception. |
| Dispatch.ReplyHidesException | isso/__init__.py:129-131 | With `PATH_INFO` present, two different unexpected `Exception`s give the same reply, so the reply contains nothing from the exception. |
| Dispatch.MissingPathInfoEscapes | isso/__init__.py:129-130 | When the catch-all runs on an environ without `PATH_INFO`, reading it raises `KeyError`, which escapes dispatch. Nothing is logged. |
| Dispatch.BaseExceptionEscapes | isso/__init__.py:125-131 | A handler `BaseException` that is not an `Exception` (`KeyboardInterrupt`, `SystemExit`) is not caught. It escapes dispatch unchanged, with no 500 and no record. |
| Dispatch.DispatchRunsLifeCycle | isso/__init__.py:118-133 | Running the life-cycle machine from Received for three or more steps reaches a terminal state. That state has dispatch's reply, handler calls and log. It is ErrorResponded exactly when the reply is an `HTTPException`, and Escaped exactly when an exception leaves dispatch. |
| Signing.EffectiveMaxAge | isso/__init__.py:110 | A truthy `max_age` is used as given. `None` or `0` falls back to the configured `max-age`. |
| Signing.UnsignPassesCallerAge | isso/__init__.py:109-110 | Any non-zero `max_age`, including a negative one, reaches `loads` unchanged. |
| Signing.UnsignFalsyUsesConfigured | isso/__init__.py:109-110 | Omitting `max_age` and passing `0` both call `loads` with the configured `max-age`. |
| Backend.ImportBlock | isso/__init__.py:33-40 | `uwsgi` is bound to a module exactly when it is importable. The `gevent` name stays unbound, never probed, exactly when uwsgi is importable. Monkey-patching happens exactly when uwsgi is absent and gevent is importable. |
| Backend.SelectionPriority | isso/__init__.py:145-153 | Selection never reads an unbound name. It picks the uWSGI mixin exactly when uwsgi is importable. Otherwise it picks the threaded mixin exactly when gevent is importable or `argv[0]` ends in "isso", and the process mixin in the remaining case. |
| Backend.UWsgiDominates | isso/__init__.py:145-147 | When uwsgi is importable, the gevent flag and `argv[0]` do not affect the choice. |
| Middleware.ReduceStacksInOrder | isso/__init__.py:180 | The fold applies constructors left to right: the first in the list is innermost and the last is outermost. |
| Middleware.PeelUndoesReduce | isso/__init__.py:180 | Removing as many outer layers as were folded on gives back the original application. |
| Middleware.StackOrder | isso/__init__.py:165-180 | The exact nesting, innermost first: local manager, profiler if configured, static `/js` and `/css`, CORS over the configured hosts, SubURI, and ProxyFix outermost. The profiler is present exactly when `server.profile` is on. |
| Probe.FirstSuccess | isso/__init__.py:157-161 | Finds the first probe that got a response and no earlier one; returns none exactly when every probe failed. |
| Probe.ProbeHosts | isso/__init__.py:157-163 | Hosts are probed in order, stopping at the first response, and exactly one record is logged. That record is "connected to" the first responding host. If no host responds, including when the list is empty, it is one warning naming all hosts joined by ", ". |
| Probe.WarningNamesEveryHost | isso/__init__.py:163 | Every configured host appears in the warning text, at its position in the joined list. |
| PyText.Partition | isso/__init__.py:219 | `str.partition` returns three parts that concatenate back to the input. It splits at the first separator. The middle part is empty exactly when the separator does not occur, and then the last part is empty too. |
| PyText.PartitionAfterFirst | isso/__init__.py:219 | When no separator starts in the prefix, partition returns that prefix, the separator and the rest unchanged. |
| PyText.JoinListsEach | isso/__init__.py:163 | `", ".join(hosts)` writes each host unchanged at its offset. |
| Listen.Classify | isso/__init__.py:210-219 | A listen value starting with "http://" is served over TCP. Any other value is a socket path: the text after the first "unix://", or "" when the marker is absent. |
| Listen.UnixFormGivesPath | isso/__init__.py:219 | `unix://<path>` gives the socket path `<path>`, even when `<path>` itself contains "unix://". |
| Listen.NoSchemeGivesEmptyPath | isso/__init__.py:218-219 | A value with neither scheme, such as `https://...`, gives a socket at the empty path. |
| Listen.RemoveStaleSocket | isso/__init__.py:220-224 | Removing the old socket succeeds when the unlink succeeds or fails with ENOENT. Every other error propagates with its errno. |
| Bootstrap.MakeApp | isso/__init__.py:143-180 | The mixin follows the selection priority. The probe logs exactly one record, at INFO level exactly when some host responded. Hosts are probed up to the first that responds, and that host is named in "connected to". Otherwise every host is probed and the warning joins them all. The stack is the wrapper list in order, with a profiler exactly when profiling is configured. |
| Bootstrap.Serve | isso/__init__.py:210-225 | An `http://` listen value always launches: on gevent's WSGI server when gevent is installed, otherwise on threaded `run_simple` with the configured reloader. A socket listen value fails exactly when unlink fails with an errno other than ENOENT. In that case neither the application nor the server is built. Otherwise it serves on the classified path. |

## Left out

- The timed serializer's internals (HMAC, embedded timestamp, expiry check). `dumps` and `loads` are inputs, so `Signing.Sign` simply forwards to `dumps` and carries no contract.
- The serializer's key is not modelled: neither `general.session-key`, which keys it, nor `Isso.salt`, which is declared but never passed to it. Keying affects only `dumps` and `loads`, and those are inputs.
- werkzeug routing (`Map`, `bind_to_environ`, `match`). The `HTTPException` response bodies are reduced to a status code and a name.
- The behaviour of `SharedDataMiddleware`, `ProfilerMiddleware`, `ProxyFix`, `wsgi.CORSMiddleware` and `wsgi.SubURI`. These are foreign code, so each is an opaque layer tag carrying its constructor arguments.
- The static export directories are kept relative (`js/`, `css/`). Resolving them against the package directory is file-system work.
- The ambient `Local`/`LocalManager` request context and the values `dispatch` stores in it (`local.request`, `local.host`, `local.origin`). Their purpose is per-request isolation under concurrency.
- `wsgi_app` and `__call__`: they only wrap the environment in a `JSONRequest` and call the response.
- `http.curl` itself: each probe is reduced to whether it returned a response.
- Probe.ProbeHosts: the 5-second probe timeout and the probe's `HEAD /` request are not modelled.
- `parse.host` is not part of this model.
- Listen.Classify: the TCP case keeps the whole listen string instead of the host and port `parse.host` would split out.
- Listen.RemoveStaleSocket: the outcome of `os.unlink` is an input. The source does not check the file type before unlinking, so any non-directory file at the socket path is removed, socket or not.
- gevent monkey-patching is reduced to a flag. `WSGIServer`, `run_simple`, `SocketHTTPServer`, uWSGI hosting and the actual `os.unlink` are process and I/O plumbing.
- Bootstrap.Serve: uses one "gevent installed" flag for both the import block and `from gevent.pywsgi import WSGIServer`. It does not model an `ImportError` raised from inside `make_app`, which the `except ImportError` in `main` would also catch.
- The argparse command line, the `import` subcommand (temporary database, Disqus migration), `Config.load` and logging setup. These are I/O or code outside this file.
- The storage handle and the notification subscribers (`db.SQLite3`, `ext.Signal`, `Stdout`, `SMTP`): these are collaborators outside this file.
