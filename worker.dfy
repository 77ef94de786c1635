/**
 * The worker: locator endpoint strings, the exit code of its run loop, and
 * token access through its token manager.
 */
module Worker {
  import opened Common
  import WorkerOptions
  import Tokens

  /** The port used when an endpoint names none. */
  const DefaultPort: string := "10053"

  /** std::string::rfind for one character: the last index holding `c`. */
  function LastIndexOf(s: string, c: char): (r: Option<nat>)
    ensures r.None? <==> c !in s
    ensures r.Some? ==> r.value < |s| && s[r.value] == c && c !in s[r.value + 1..]
    decreases |s|
  {
    if s == [] then None
    else if s[|s| - 1] == c then Some(|s| - 1)
    else
      assert s == s[..|s| - 1] + [s[|s| - 1]];
      LastIndexOf(s[..|s| - 1], c)
  }

  /** parse_endpoint: host and port split at the last ':'; the whole string
      and the default port when there is no ':'. */
  function ParseEndpoint(endpoint: string): (r: (string, string))
    ensures ':' !in endpoint ==> r == (endpoint, DefaultPort)
    ensures ':' in endpoint ==> r.0 + ":" + r.1 == endpoint && ':' !in r.1
  {
    match LastIndexOf(endpoint, ':')
    case None => (endpoint, DefaultPort)
    case Some(pos) =>
      assert endpoint == endpoint[..pos] + ":" + endpoint[pos + 1..];
      (endpoint[..pos], endpoint[pos + 1..])
  }

  /** The split is the only one whose port has no ':', so a host and port
      joined by ':' parse back to themselves. */
  lemma ParseEndpointUnique(host: string, port: string)
    requires ':' !in port
    ensures ParseEndpoint(host + ":" + port) == (host, port)
  {
    var e := host + ":" + port;
    var r := ParseEndpoint(e);
    assert r.0 + ":" + r.1 == e;
    assert e[|host|] == ':';
    assert |r.0| == |host|;
    assert r.0 == e[..|host|] == host;
    assert r.1 == e[|host| + 1..] == port;
  }

  /** The host keeps every ':' but the last: an unbracketed IPv6 address
      loses its last group to the port. */
  lemma UnbracketedIpv6Host()
    ensures ParseEndpoint("::1") == (":", "1")
  {
    assert "::1" == ":" + ":" + "1";
    ParseEndpointUnique(":", "1");
  }

  /** Removes one pair of enclosing brackets, as in the IP-literal form of
      section 3.2.2 of RFC 3986. */
  function StripBrackets(address: string): (r: string)
    ensures r == address || "[" + r + "]" == address
    ensures |address| > 0 && address[0] == '[' && address[|address| - 1] == ']' ==>
      "[" + r + "]" == address
  {
    if |address| > 0 && address[0] == '[' && address[|address| - 1] == ']' then
      assert address == "[" + address[1..|address| - 1] + "]";
      address[1..|address| - 1]
    else address
  }

  /** Wrapping in brackets and stripping are inverse. */
  lemma StripBracketsWrapped(host: string)
    ensures StripBrackets("[" + host + "]") == host
  {
  }

  /** Only one pair is removed: "[[x]]" becomes "[x]". */
  lemma StripBracketsOnce()
    ensures StripBrackets("[[x]]") == "[x]"
  {
  }

  /** boost::algorithm::split on one separator character: the pieces between
      separators, empty ones included; the empty string is one empty piece. */
  function Split(s: string, sep: char): (r: seq<string>)
    ensures |r| >= 1
    ensures forall i :: 0 <= i < |r| ==> sep !in r[i]
    decreases |s|
  {
    if s == [] then [""]
    else
      var rest := Split(s[1..], sep);
      if s[0] == sep then [""] + rest
      else
        assert forall i :: 1 <= i < |rest| ==> ([[s[0]] + rest[0]] + rest[1..])[i] == rest[i];
        [[s[0]] + rest[0]] + rest[1..]
  }

  /** The pieces put back together with the separator between them. */
  function Join(parts: seq<string>, sep: char): string
    requires |parts| >= 1
    decreases |parts|
  {
    if |parts| == 1 then parts[0] else parts[0] + [sep] + Join(parts[1..], sep)
  }

  /** Splitting loses nothing: the pieces join back to the input. */
  lemma {:induction false} SplitJoin(s: string, sep: char)
    ensures Join(Split(s, sep), sep) == s
    decreases |s|
  {
    if s != [] {
      var rest := Split(s[1..], sep);
      SplitJoin(s[1..], sep);
      if s[0] == sep {
        assert ([""] + rest)[1..] == rest;
        assert s == [sep] + s[1..];
      } else {
        var r := [[s[0]] + rest[0]] + rest[1..];
        if |rest| == 1 {
          assert s == [s[0]] + s[1..];
        } else {
          assert r[1..] == rest[1..];
          assert Join(r, sep) == [s[0]] + (rest[0] + [sep] + Join(rest[1..], sep));
          assert s == [s[0]] + s[1..];
        }
      }
    }
  }

  /** A piece without separators followed by a separator is split off whole. */
  lemma {:induction false} SplitAfterPiece(p: string, t: string, sep: char)
    requires sep !in p
    ensures Split(p + [sep] + t, sep) == [p] + Split(t, sep)
    decreases |p|
  {
    var s := p + [sep] + t;
    if p == [] {
      assert s[1..] == t;
    } else {
      assert s[1..] == p[1..] + [sep] + t;
      SplitAfterPiece(p[1..], t, sep);
      assert [p[0]] + p[1..] == p;
    }
  }

  /** A string without separators is a single piece. */
  lemma {:induction false} SplitNoSeparator(p: string, sep: char)
    requires sep !in p
    ensures Split(p, sep) == [p]
    decreases |p|
  {
    if p != [] {
      SplitNoSeparator(p[1..], sep);
      assert [p[0]] + p[1..] == p;
    }
  }

  /** Splitting recovers the pieces a string was joined from, in order. */
  lemma {:induction false} JoinSplit(parts: seq<string>, sep: char)
    requires |parts| >= 1
    requires forall i :: 0 <= i < |parts| ==> sep !in parts[i]
    ensures Split(Join(parts, sep), sep) == parts
    decreases |parts|
  {
    if |parts| == 1 {
      SplitNoSeparator(parts[0], sep);
    } else {
      JoinSplit(parts[1..], sep);
      SplitAfterPiece(parts[0], Join(parts[1..], sep), sep);
      assert [parts[0]] + parts[1..] == parts;
    }
  }

  /** A locator endpoint, stopped at its host and port strings. */
  datatype Endpoint = Endpoint(address: string, port: string)

  /** The constructor's per-segment lambda: parse, then strip brackets from the host. */
  function ToEndpoint(segment: string): (r: Endpoint)
    ensures ':' !in segment ==> r == Endpoint(StripBrackets(segment), DefaultPort)
    ensures ':' in segment ==> ':' !in r.port
    ensures ':' in segment ==>
      r.address + ":" + r.port == segment || "[" + r.address + "]" + ":" + r.port == segment
  {
    var hostPort := ParseEndpoint(segment);
    Endpoint(StripBrackets(hostPort.0), hostPort.1)
  }

  /** A bracketed host and a port written in the IP-literal form come back
      as they were. */
  lemma BracketedEndpoint(host: string, port: string)
    requires ':' !in port
    ensures ToEndpoint("[" + host + "]" + ":" + port) == Endpoint(host, port)
  {
    ParseEndpointUnique("[" + host + "]", port);
    StripBracketsWrapped(host);
  }

  /** The locator endpoints: the locator split at ',', one endpoint per
      segment, in order, as std::transform with back_inserter fills them. */
  method ParseLocator(locator: string) returns (endpoints: seq<Endpoint>)
    ensures |endpoints| == |Split(locator, ',')|
    ensures forall i :: 0 <= i < |endpoints| ==> endpoints[i] == ToEndpoint(Split(locator, ',')[i])
  {
    var splitted := Split(locator, ',');
    endpoints := [];
    for i := 0 to |splitted|
      invariant |endpoints| == i
      invariant forall k :: 0 <= k < i ==> endpoints[k] == ToEndpoint(splitted[k])
    {
      endpoints := endpoints + [ToEndpoint(splitted[i])];
    }
  }

  /** How the event loop ended: it returned, it threw an error_t with the
      given code value, or it threw something else. */
  datatype LoopOutcome = Returned | ThrewError(code: int) | ThrewOther

  /** What run() does at the end: return an exit code, or let the exception escape. */
  datatype RunResult = ExitCode(code: int) | Escaped

  /** worker_t::run: 0 after a normal return, the error code's value after an error_t. */
  function RunExitCode(outcome: LoopOutcome): (r: RunResult)
    ensures r.ExitCode? <==> !outcome.ThrewOther?
    ensures outcome.Returned? ==> r == ExitCode(0)
    ensures outcome.ThrewError? ==> r == ExitCode(outcome.code)
  {
    match outcome
    case Returned => ExitCode(0)
    case ThrewError(code) => ExitCode(code)
    case ThrewOther => Escaped
  }

  /** How an error escaping a timer callback ends the event loop: the
      exception `.get()` throws is taken to be an error_t carrying the
      service's error code. */
  function CallbackFailure(e: Tokens.CallError): (outcome: LoopOutcome)
    ensures outcome.ThrewError? && outcome.code == e.code
  {
    ThrewError(e.code)
  }

  /** A failed refresh ends the chain and the event loop; run() then returns
      the code of one of the replies the service gave. */
  lemma RefreshFailureExitCode(app: string, interval: u64, s: Tokens.RefreshState, fires: seq<Tokens.Fire>)
    requires Tokens.RunChain(app, interval, s, fires).1.Some?
    ensures var e := Tokens.RunChain(app, interval, s, fires).1.value;
      exists i :: 0 <= i < |fires| && fires[i].reply.Err? &&
        RunExitCode(CallbackFailure(e)) == ExitCode(fires[i].reply.error.code)
  {
    Tokens.RunChainErrorStops(app, interval, s, fires);
  }

  /** What a std::string or std::unordered_map holds once it has been moved
      from (empty, as the usual standard libraries leave it); the integer
      field is copied and keeps its value. */
  function MovedFrom(o: WorkerOptions.Options): (m: WorkerOptions.Options)
    ensures m.tokenType == "" && m.tokenBody == "" && m.other == map[]
    ensures m.refreshTicketIntervalSec == o.refreshTicketIntervalSec
  {
    WorkerOptions.Options("", "", "", o.refreshTicketIntervalSec, "", "", "", "", map[])
  }

  /** worker_t::impl's token manager as written: `make` receives the
      parameter that the `options` member was just moved from, so the null
      manager is chosen whatever the options say. */
  method MakeAsWritten(o: WorkerOptions.Options) returns (m: Tokens.Manager)
    ensures m.Null? && m.GetToken() == Tokens.DefaultToken
  {
    m := Tokens.Make(MovedFrom(o));
  }

  /** worker_t as corrected: the token manager is made from the options it
      keeps, not from the moved-from parameter (see `MakeAsWritten`). */
  class Worker {
    const options: WorkerOptions.Options
    const endpoints: seq<Endpoint>
    const tokenManager: Tokens.Manager

    constructor (o: WorkerOptions.Options)
      ensures options == o
      ensures |endpoints| == |Split(o.locator, ',')|
      ensures forall i :: 0 <= i < |endpoints| ==> endpoints[i] == ToEndpoint(Split(o.locator, ',')[i])
      ensures tokenManager.Tvm? <==> Tokens.UsesTvm(o)
      ensures tokenManager.Null? ==> tokenManager.GetToken() == Tokens.DefaultToken
      ensures tokenManager.Tvm? ==> fresh(tokenManager.tvm) && fresh(tokenManager.tvm.d)
      ensures tokenManager.Tvm? ==> tokenManager.tvm.d.Valid()
      ensures tokenManager.Tvm? ==>
        tokenManager.tvm.d.State() == Tokens.RefreshState(Tokens.MakeToken(o), Tokens.Armed(o.refreshTicketIntervalSec), [])
    {
      var eps := ParseLocator(o.locator);
      var m := Tokens.Make(o);
      options := o;
      endpoints := eps;
      tokenManager := m;
    }

    /** worker_t::token: whatever the token manager returns. */
    function GetToken(): (t: Tokens.Token)
      reads if tokenManager.Tvm? then {tokenManager.tvm.d} else {}
      ensures tokenManager.Null? ==> t == Tokens.DefaultToken
      ensures tokenManager.Tvm? ==> t == tokenManager.tvm.d.State().tok
    {
      tokenManager.GetToken()
    }
  }
}
