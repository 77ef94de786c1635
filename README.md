# Cocaine native worker: options, endpoints and the ticket-refreshing token manager

This Dafny project models the sequential core of the Cocaine C++ worker runtime (cocaine-framework-native):

- **Options** (`options.dfy`, module `WorkerOptions`). This is the `options_t` constructor. It checks, in order, `--help`, `--version`, the four required options and the protocol version bound, and each check can end the process with an exit code. It then stores the supplied values and fills the private `other` map with the token settings, taken from the environment or from defaults. The public fields `token_type`, `token_body`, `tokens_service_name` and `refresh_ticket_interval_sec` are kept apart from the `other` entries of the same names, exactly as the constructor leaves them. `Construct` is the specification function. `Parse` is the step-by-step method, with the loop over the required options, and it is proved equal to `Construct`.
- **Token managers** (`tokman.dfy`, module `Tokens`). `make_token` builds a credential. `token_manager_t::make` chooses between the null manager and the TVM manager. The TVM manager's service object (`TvmService`) holds the token and the refresh timer. Its timer callback (`OnTimer`) does nothing when the wait was cancelled. Otherwise it calls the remote `refresh_ticket(application name, current body)`, overwrites only the token's body and only then re-arms the timer. A failed call propagates out of the callback without re-arming. `Step` and `RunChain` specify one callback and a sequence of callbacks, and the lemmas about them state what the chain keeps and what it produces.
- **Worker** (`worker.dfy`, module `Worker`). `parse_endpoint` splits at the last `':'`, with default port `"10053"`. The constructor strips one pair of enclosing brackets from the host (the IP-literal form of section 3.2.2 of RFC 3986), splits the locator at `','` and maps every segment to an endpoint, in order. The module also covers the exit code that `run` returns and `token()`, which delegates to the token manager.
- **Findings** (`findings.dfy`). This module holds two defects between the command line and the token manager. Both are described below.

The remote service, the timer and the environment are inputs. Each timer callback (`Fire`) carries whether its wait was cancelled and the reply that the blocking `.get()` on the remote call yields. The environment is a map of the variables that are set. The command line is the set of switches given, the string options given and the protocol value.

## Model

| member | source | states |
|---|---|---|
| `WorkerOptions.FirstMissing` | src/worker/options.cpp:85-95 | The result is the index of the first required name that is absent, with every earlier name present. It is None exactly when all names are present. |
| `WorkerOptions.Construct` | src/worker/options.cpp:75-129 | `help` gives exit 0 before anything else. Without `help`, `version` gives exit 0. Otherwise the first missing option of app, uuid, endpoint, locator gives exit code equal to its index, so a missing app gives 0. With all given, a protocol above 2 gives exit 1. The options are built exactly when none of these apply. name, uuid, endpoint and locator equal the supplied values. `other` holds exactly five keys: protocol (the value given, else 0), token_type (env, else "TVM"), token_body (env, else "very_secret"), tokens_service_name "tvm" and refresh_ticket_interval_sec 15. The public token fields stay empty and the interval field keeps its indeterminate value. |
| `WorkerOptions.Parse` | src/worker/options.cpp:52-130 | The imperative constructor, with its early-exit loop over the required options, computes exactly `Construct`. |
| `WorkerOptions.At` | src/worker/options.cpp:137-140 | Returns the `other` entry when the key is present, and the out-of-range error otherwise. |
| `WorkerOptions.Protocol` | src/worker/options.cpp:132-135 | Succeeds exactly when `other` holds a uint32 under "protocol", and then returns that value. |
| `WorkerOptions.ProtocolOfConstructed` | src/worker/options.cpp:97-112 | For constructed options, `protocol()` does not throw. It returns the supplied version, or 0 when none was given, and the value is at most 2. |
| `WorkerOptions.Published` | include/cocaine/framework/worker/options.hpp:34-39 | The corrected fill-in copies the `other` entries for the token kind, token body, service name and interval into the public fields and changes nothing else. |
| `WorkerOptions.ConstructCorrected` | src/worker/options.cpp:112-129 | The corrected constructor has the same exit cases as `Construct`. Its public token fields equal the environment's values or the defaults, and its interval is 15. Reset to their constructed values, those four fields give back exactly `Construct`'s options, so name, uuid, endpoint, locator and `other` are unchanged. |
| `Tokens.MakeToken` | src/tokman.cpp:16-19 | The token's kind and body are the options' public `token_type` and `token_body`. |
| `Tokens.Make` | src/tokman.cpp:84-93 | Yields the TVM manager exactly when the kind is "TVM", and the null manager otherwise. The null manager yields the default token. A new TVM manager holds `MakeToken(options)`, has issued no request and has one wait armed for the options' interval. |
| `Tokens.Manager.GetToken` | src/tokman.cpp:95-98 | The null manager returns the default (empty) token whatever the options. The TVM manager returns the token its service object currently holds. |
| `Tokens.Step` | src/tokman.cpp:60-80 | One timer callback. It keeps the token's kind and appends one request, or none when the wait was cancelled. The timer is re-armed, for the configured interval and with the reply as the new body, exactly when the wait completed and the refresh succeeded. An error is returned exactly when the refresh failed, and it is that reply's error. Otherwise no wait is left pending and the token is unchanged. |
| `Tokens.RunChain` | src/tokman.cpp:56-81 | The self-rescheduling chain over a sequence of callbacks. With no wait pending nothing runs and nothing changes. An error is returned only if a wait was pending, and then no wait is left pending. The `RunChain*` lemmas below state what it keeps and produces. |
| `Tokens.TvmService.constructor` | src/tokman.cpp:41-47 | Takes the application name, service name and interval from the options. Holds `MakeToken(options)` with no wait pending and no request issued. |
| `Tokens.TvmService.GetToken` | src/tokman.cpp:49-53 | Returns the held token and changes nothing. |
| `Tokens.TvmService.RefreshTicketAsync` | src/tokman.cpp:56-60 | Called only when no wait is pending, as at both call sites (src/tokman.cpp:79 and 103). Arms one wait for the configured interval. Only the timer changes. |
| `Tokens.TvmService.OnTimer` | src/tokman.cpp:60-80 | A cancelled wait issues no request, keeps the token and leaves no wait pending. Otherwise exactly one request (application name, pre-refresh body) is issued. On success only the body changes, to the reply, and the timer is re-armed for the same interval. On failure the token is kept, nothing is re-armed and the error is returned. The new state equals `Step` of the old one. |
| `Tokens.TvmTokenManager.constructor` | src/tokman.cpp:100-104 | Creates a fresh service object holding `MakeToken(options)`, with one wait armed for the configured interval and no request issued. |
| `Tokens.TvmTokenManager.GetToken` | src/tokman.cpp:106-109 | Returns exactly the service object's held token. |
| `Tokens.RunChainKeepsType` | src/tokman.cpp:69-77 | No sequence of callbacks changes the token's kind. |
| `Tokens.RunChainRequests` | src/tokman.cpp:59-79 | Callbacks only append requests, at most one per callback, and every request names the application. A pending wait always has the configured interval. |
| `Tokens.RunChainBodyProvenance` | src/tokman.cpp:69-76 | The held body is always the initial body or a body the service returned. |
| `Tokens.RunChainErrorStops` | src/tokman.cpp:66-79 | An error ends the chain with no wait left pending, and that error is the reply of one of the callbacks. |
| `Tokens.RunChainSucceeding` | src/tokman.cpp:56-81 | When every refresh succeeds, each request carries the previous reply, the token ends with the last reply under the same kind, the timer stays armed and no error arises. |
| `Tokens.CancelEndsChain` | src/tokman.cpp:60-64 | After a cancelled wait, no further callback runs, no request is issued and the token is unchanged. |
| `Tokens.FailureEndsChain` | src/tokman.cpp:66-79 | A failed refresh returns its error, keeps the token, issues exactly its one request and is never followed by another callback. |
| `Tokens.ThreeRefreshes` | src/tokman.cpp:69-79 | Replies "B1", "B2", "B3" leave "B3" held. The requests carried the initial body, then "B1", then "B2". |
| `Worker.LastIndexOf` | src/worker.cpp:51 | `rfind` returns None exactly when the character is absent. Otherwise it returns an index holding the character, after which the character does not occur. |
| `Worker.ParseEndpoint` | src/worker.cpp:48-57 | Without ':' the result is (endpoint, "10053"). Otherwise host + ":" + port equals the endpoint and the port holds no ':'. |
| `Worker.ParseEndpointUnique` | src/worker.cpp:51-56 | Any host and any ':'-free port joined by ':' parse back to exactly that host and port. |
| `Worker.UnbracketedIpv6Host` | src/worker.cpp:51-56 | The host may contain ':'. "::1" parses to host ":" and port "1". |
| `Worker.StripBrackets` | src/worker.cpp:109-111 | The result is the input, or the input is the result wrapped in '[' and ']'. A host that starts with '[' and ends with ']' is always stripped. |
| `Worker.StripBracketsWrapped` | src/worker.cpp:109-111 | Stripping undoes wrapping in brackets, for every host. |
| `Worker.StripBracketsOnce` | src/worker.cpp:109-111 | Only one pair is removed: "[[x]]" becomes "[x]". |
| `Worker.Split` | src/worker.cpp:93-94 | Splitting yields at least one piece, and no piece contains the separator. |
| `Worker.SplitJoin` | src/worker.cpp:94 | The pieces joined with ',' give back the locator. |
| `Worker.JoinSplit` | src/worker.cpp:94 | Separator-free pieces joined with ',' split back into exactly those pieces, in order. |
| `Worker.ToEndpoint` | src/worker.cpp:103-117 | The per-segment lambda. A segment without ':' gives the bracket-stripped segment and port "10053". Otherwise the port holds no ':', and the segment is host ":" port, or "[" host "]" ":" port when brackets were stripped. |
| `Worker.BracketedEndpoint` | src/worker.cpp:103-117 | A segment "[host]:port" with a ':'-free port yields exactly (host, port). |
| `Worker.ParseLocator` | src/worker.cpp:93-117 | Produces one endpoint per comma-split locator segment, in the same order, each being that segment's parsed and bracket-stripped host and port. |
| `Worker.RunExitCode` | src/worker.cpp:152-167 | A normal return of the loop gives 0. An `error_t` gives its code's value. Any other exception escapes `run`. |
| `Worker.CallbackFailure` | src/worker.cpp:159-164 | An error escaping a timer callback ends the event loop as an `error_t` carrying the same code (an assumption, see "## Left out"). |
| `Worker.RefreshFailureExitCode` | src/worker.cpp:159-164 | When the chain ends with an error, `run` returns the error code of one of the service's failed replies. |
| `Worker.MovedFrom` | src/worker.cpp:80-87 | The options that `make` receives as written: empty strings and an empty map, with the interval kept. |
| `Worker.MakeAsWritten` | src/worker.cpp:83-86 | As written, `make` receives the moved-from parameter and always yields the null manager, whose token is the default one. |
| `Worker.Worker.constructor` | src/worker.cpp:90-124 | Corrected: `make` receives the kept options (for the code as written see `Worker.MakeAsWritten` and `Findings.ImplOptionsNeverSelectTvm`). Keeps the options and builds one endpoint per locator segment, in order. Selects the TVM manager exactly when the configured kind is "TVM"; that manager holds `MakeToken(options)` with one wait armed. Otherwise the null manager is selected, and its token is the default one. |
| `Worker.Worker.GetToken` | src/worker.cpp:169-171 | Returns exactly what the token manager returns. |
| `Findings.ConstructedOptionsSelectNull` | src/worker/options.cpp:116-129 | Options built by the constructor never select the TVM manager and their token is the default one, even when `other["token_type"]` is "TVM". |
| `Findings.DefaultCommandLineSelectsNull` | src/worker/options.cpp:116-120 | With all four required options given and no environment variables, `other` names "TVM" but the manager chosen is the null one. |
| `Findings.CorrectedOptionsSelectConfiguredKind` | src/worker/options.cpp:116-129 | With the correction, the TVM manager is chosen exactly when the environment names no other kind. The token is the environment's kind and body or the defaults, and the interval is 15. |
| `Findings.ImplOptionsNeverSelectTvm` | src/worker.cpp:83-86 | As written, `make` never selects the TVM manager, including for options configured with "TVM". |

## Left out

- The RPC session, invocation table, dispatcher (`worker_t::on`, `worker_t::fallback`), executor, scheduler and service manager are left out. Their code lives in headers that are not part of this model, and the worker only forwards to them. `run`'s session reset, connect and handshake are left out for the same reason. Only the mapping from the loop's outcome to the exit code is modelled.
- `worker_t::manager()` and `worker_t::options()` are plain accessors. The options are the `options` field of `Worker.Worker`.
- The mutex around the held token is left out. The model is sequential. The blocking `.get()` means a callback never overlaps another refresh, so at most one refresh is in flight holds trivially in the model.
- Real asio timers and the event loop are abstracted. A timer is Idle or Armed with its interval. A callback runs only while a wait is pending, and the wait is consumed before the callback body runs.
- The remote call is an oracle. Each callback is given the reply (new body or error) of the one request it issues.
- Worker.CallbackFailure: the type of the exception that `.get()` throws is declared in headers that are not part of this model. The model assumes it is an `error_t` carrying the service's error code, which `run` returns; `Worker.RefreshFailureExitCode` rests on this.
- `Worker.MovedFrom`: the standard leaves a moved-from `std::string` and `std::unordered_map` valid but unspecified. The model takes them empty, which is what libstdc++ and libc++ do.
- `boost::asio::ip::address::from_string` and `boost::lexical_cast<uint16_t>` are library conversions. Endpoints stop at the host and port strings.
- The mechanics of `boost::program_options` are inputs to the model: it records which options are present and their values. This includes rejecting a protocol value that is not a uint32, unknown options and missing values. The help text, `std::cerr` output, `std::getenv` (an environment map) and `std::exit` (an `Exit(code)` result) are modelled as shown in brackets.
- The uint64 field `refresh_ticket_interval_sec`, which the constructor never writes, is a parameter (`indeterminate`) of the constructor model.
- The layout of `token_t` is taken from its aggregate initialisation at src/tokman.cpp:18 (kind, then body). Its declaration is not part of this model.
- SIGPIPE blocking, the logging service wrapper and the TVM protocol's type-level definition are left out. Only the `refresh_ticket(string, string) -> string` signature of that protocol is used.
- The chain re-arms only after a successful body update. A failed refresh propagates out of the callback and ends the chain, and no error is reported on a later cycle. The null manager returns a default-constructed (empty) token, not the configured one.

## Findings

| source | as written | input that shows it | evidently intended | confidence | as-written member | corrected member |
|---|---|---|---|---|---|---|
| src/worker/options.cpp:116-129 | The constructor stores the token kind and body, the service name and the interval only in the private `other` map. `make_token` (src/tokman.cpp:18) reads the public fields of the same names, which stay empty, so every worker gets the null manager. | `--app a --uuid u --endpoint e --locator l` with no environment variables: `other["token_type"]` is "TVM", yet the null manager is chosen (`Findings.DefaultCommandLineSelectsNull`). | The public fields hold the environment's values or the defaults, as the header's field comments say, so the default configuration selects the TVM manager. | medium; not executed | `WorkerOptions.Construct` | `WorkerOptions.ConstructCorrected` |
| src/worker.cpp:83-86 | `impl` moves its `options` parameter into the member and then passes the moved-from parameter to `token_manager_t::make`. A mem-initializer names the parameter, not the member. | Any options whose `token_type` is "TVM": `make` sees an empty kind and selects the null manager (`Findings.ImplOptionsNeverSelectTvm`). | `make` receives the member `this->options`. | high for the use after move; the empty moved-from value is library behaviour; not executed | `Worker.MakeAsWritten` | `Worker.Worker.constructor` |
