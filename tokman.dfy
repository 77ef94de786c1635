/**
 * Token managers: the credential value, the choice between the null and the
 * ticket-refreshing (TVM) manager, and the TVM manager's refresh chain, a
 * timer whose callback calls the remote `refresh_ticket(application name,
 * ticket body) -> new body` and then re-arms the timer.
 *
 * The refresh chain is modelled twice: `TvmService` is the object the source
 * updates in place, and `Step`/`RunChain` are the specification functions of
 * one timer callback and of a sequence of them. `TvmService.OnTimer` is
 * proved to do what `Step` says.
 */
module Tokens {
  import opened Common
  import WorkerOptions

  /** token_t: the credential kind and its body. */
  datatype Token = Token(tokenType: string, body: string)

  /** A default-constructed token_t. */
  const DefaultToken: Token := Token("", "")

  /** make_token: the credential configured in the options' public fields. */
  function MakeToken(o: WorkerOptions.Options): (t: Token)
    ensures t.tokenType == o.tokenType && t.body == o.tokenBody
  {
    Token(o.tokenType, o.tokenBody)
  }

  /** token_manager_t::make picks the TVM manager exactly for this. */
  predicate UsesTvm(o: WorkerOptions.Options)
  {
    MakeToken(o).tokenType == WorkerOptions.DefaultTokenType
  }

  /** The arguments of one refresh_ticket call. */
  datatype Request = Request(applicationName: string, ticket: string)

  /** An error raised by the service call, with the value of its error code. */
  datatype CallError = CallError(code: int)

  /** What `.get()` on the refresh_ticket future yields: the new body or an error. */
  type Reply = Result<string, CallError>

  /** The refresh timer: no wait pending, or one wait pending that expires
      after the given number of seconds. */
  datatype Timer = Idle | Armed(expiresIn: u64)

  /** One run of the timer callback: whether the wait was cancelled, and the
      reply the remote call gives (unused when cancelled). */
  datatype Fire = Fire(cancelled: bool, reply: Reply)

  /** The state the refresh chain changes: the held token, the timer, and the
      refresh_ticket requests issued so far. */
  datatype RefreshState = RefreshState(tok: Token, timer: Timer, issued: seq<Request>)

  /**
   * One timer callback of the application `app` refreshing every `interval`
   * seconds. The wait has completed, so no wait is pending; a cancelled wait
   * returns at once; otherwise one request carrying the current body is
   * issued, an error propagates out of the callback, and a new body replaces
   * the old one before the timer is armed again.
   */
  function Step(app: string, interval: u64, s: RefreshState, f: Fire): (r: (RefreshState, Option<CallError>))
    ensures r.0.tok.tokenType == s.tok.tokenType
    ensures s.issued <= r.0.issued && |r.0.issued| == |s.issued| + (if f.cancelled then 0 else 1)
    ensures r.0.timer.Armed? <==> !f.cancelled && f.reply.Ok?
    ensures r.0.timer.Armed? ==> r.0.timer.expiresIn == interval && r.0.tok.body == f.reply.value
    ensures r.1.Some? <==> !f.cancelled && f.reply.Err?
    ensures r.1.Some? ==> f.reply == Err(r.1.value)
    ensures r.0.timer.Idle? ==> r.0.tok == s.tok
  {
    var waited := s.(timer := Idle);
    if f.cancelled then (waited, None)
    else
      var sent := waited.(issued := s.issued + [Request(app, s.tok.body)]);
      match f.reply
      case Err(e) => (sent, Some(e))
      case Ok(newBody) => (sent.(tok := s.tok.(body := newBody), timer := Armed(interval)), None)
  }

  /**
   * The chain driven by a sequence of timer callbacks. A callback runs only
   * while a wait is pending; an error escaping a callback ends the chain and
   * is returned.
   */
  function RunChain(app: string, interval: u64, s: RefreshState, fires: seq<Fire>): (r: (RefreshState, Option<CallError>))
    ensures s.timer.Idle? ==> r == (s, None)
    ensures r.1.Some? ==> r.0.timer.Idle? && s.timer.Armed?
    decreases |fires|
  {
    if fires == [] || s.timer.Idle? then (s, None)
    else
      var next := Step(app, interval, s, fires[0]);
      if next.1.Some? then next else RunChain(app, interval, next.0, fires[1..])
  }

  /** The chain never changes the token's kind. */
  lemma {:induction false} RunChainKeepsType(app: string, interval: u64, s: RefreshState, fires: seq<Fire>)
    ensures RunChain(app, interval, s, fires).0.tok.tokenType == s.tok.tokenType
    decreases |fires|
  {
    if fires != [] && s.timer.Armed? {
      var next := Step(app, interval, s, fires[0]);
      if next.1.None? {
        RunChainKeepsType(app, interval, next.0, fires[1..]);
      }
    }
  }

  /** The chain only appends requests, at most one per callback, and every
      request names the application; a pending wait always has the
      configured interval. */
  lemma {:induction false} RunChainRequests(app: string, interval: u64, s: RefreshState, fires: seq<Fire>)
    requires s.timer.Armed? ==> s.timer.expiresIn == interval
    ensures var r := RunChain(app, interval, s, fires).0;
      && s.issued <= r.issued
      && |r.issued| <= |s.issued| + |fires|
      && (forall k :: |s.issued| <= k < |r.issued| ==> r.issued[k].applicationName == app)
      && (r.timer.Armed? ==> r.timer.expiresIn == interval)
    decreases |fires|
  {
    if fires != [] && s.timer.Armed? {
      var next := Step(app, interval, s, fires[0]);
      if next.1.None? {
        RunChainRequests(app, interval, next.0, fires[1..]);
      }
    }
  }

  /** The held body is always the initial one or one the service returned. */
  lemma {:induction false} RunChainBodyProvenance(app: string, interval: u64, s: RefreshState, fires: seq<Fire>)
    ensures var r := RunChain(app, interval, s, fires).0;
      r.tok.body == s.tok.body || exists i :: 0 <= i < |fires| && fires[i].reply == Ok(r.tok.body)
    decreases |fires|
  {
    if fires != [] && s.timer.Armed? {
      var next := Step(app, interval, s, fires[0]);
      if next.1.None? {
        RunChainBodyProvenance(app, interval, next.0, fires[1..]);
        var r := RunChain(app, interval, next.0, fires[1..]).0;
        if r.tok.body != next.0.tok.body {
          var i :| 0 <= i < |fires[1..]| && fires[1..][i].reply == Ok(r.tok.body);
          assert fires[i + 1].reply == Ok(r.tok.body);
        } else if r.tok.body != s.tok.body {
          assert fires[0].reply == Ok(r.tok.body);
        }
      }
    }
  }

  /** An error ends the chain: no wait is left pending, and the error is
      the reply of one of the callbacks. */
  lemma {:induction false} RunChainErrorStops(app: string, interval: u64, s: RefreshState, fires: seq<Fire>)
    ensures var r := RunChain(app, interval, s, fires);
      r.1.Some? ==> r.0.timer.Idle? && exists i :: 0 <= i < |fires| && fires[i].reply == Err(r.1.value)
    decreases |fires|
  {
    if fires != [] && s.timer.Armed? {
      var next := Step(app, interval, s, fires[0]);
      if next.1.None? {
        RunChainErrorStops(app, interval, next.0, fires[1..]);
        var r := RunChain(app, interval, next.0, fires[1..]);
        if r.1.Some? {
          var i :| 0 <= i < |fires[1..]| && fires[1..][i].reply == Err(r.1.value);
          assert fires[i + 1].reply == Err(r.1.value);
        }
      }
    }
  }

  /** True when every callback is a completed wait whose refresh succeeds. */
  predicate AllSucceed(fires: seq<Fire>)
  {
    forall i :: 0 <= i < |fires| ==> !fires[i].cancelled && fires[i].reply.Ok?
  }

  /** The body held after the successful refreshes `fires`, starting from `body`. */
  function LastBody(body: string, fires: seq<Fire>): string
    requires AllSucceed(fires)
    decreases |fires|
  {
    if fires == [] then body else LastBody(fires[0].reply.value, fires[1..])
  }

  /** The requests the successful refreshes `fires` issue, starting from `body`:
      each carries the body the previous one returned. */
  function Requests(app: string, body: string, fires: seq<Fire>): seq<Request>
    requires AllSucceed(fires)
    decreases |fires|
  {
    if fires == [] then [] else [Request(app, body)] + Requests(app, fires[0].reply.value, fires[1..])
  }

  /** When every refresh succeeds, each request carries the previous reply,
      the token ends with the last reply and the timer stays armed. */
  lemma {:induction false} RunChainSucceeding(app: string, interval: u64, s: RefreshState, fires: seq<Fire>)
    requires s.timer == Armed(interval)
    requires AllSucceed(fires)
    ensures RunChain(app, interval, s, fires) ==
      (RefreshState(Token(s.tok.tokenType, LastBody(s.tok.body, fires)), Armed(interval),
                    s.issued + Requests(app, s.tok.body, fires)), None)
    decreases |fires|
  {
    if fires == [] {
      assert s.issued + [] == s.issued;
    } else {
      var next := Step(app, interval, s, fires[0]);
      assert !fires[0].cancelled && fires[0].reply.Ok?;
      assert AllSucceed(fires[1..]) by {
        forall i | 0 <= i < |fires[1..]| ensures !fires[1..][i].cancelled && fires[1..][i].reply.Ok? {
          assert fires[1..][i] == fires[i + 1];
        }
      }
      RunChainSucceeding(app, interval, next.0, fires[1..]);
      assert s.issued + [Request(app, s.tok.body)] + Requests(app, fires[0].reply.value, fires[1..])
          == s.issued + Requests(app, s.tok.body, fires);
    }
  }

  /** A cancelled wait ends the chain with no request and no error, whatever follows. */
  lemma CancelEndsChain(app: string, interval: u64, s: RefreshState, reply: Reply, rest: seq<Fire>)
    requires s.timer.Armed?
    ensures RunChain(app, interval, s, [Fire(true, reply)] + rest) == (s.(timer := Idle), None)
  {
  }

  /** A failed refresh ends the chain: the token is kept, no wait is left
      pending, and the error is returned. */
  lemma FailureEndsChain(app: string, interval: u64, s: RefreshState, e: CallError, rest: seq<Fire>)
    requires s.timer.Armed?
    ensures RunChain(app, interval, s, [Fire(false, Err(e))] + rest) ==
      (s.(timer := Idle, issued := s.issued + [Request(app, s.tok.body)]), Some(e))
  {
  }

  /** Three successful refreshes returning "B1", "B2", "B3" leave "B3" held;
      the requests carried the initial body, then "B1", then "B2". */
  lemma ThreeRefreshes(app: string, interval: u64, t: Token)
    ensures var fires := [Fire(false, Ok("B1")), Fire(false, Ok("B2")), Fire(false, Ok("B3"))];
      RunChain(app, interval, RefreshState(t, Armed(interval), []), fires) ==
        (RefreshState(t.(body := "B3"), Armed(interval),
                      [Request(app, t.body), Request(app, "B1"), Request(app, "B2")]), None)
  {
    var fires := [Fire(false, Ok("B1")), Fire(false, Ok("B2")), Fire(false, Ok("B3"))];
    RunChainSucceeding(app, interval, RefreshState(t, Armed(interval), []), fires);
    var tail := [Fire(false, Ok("B2")), Fire(false, Ok("B3"))];
    var last := [Fire(false, Ok("B3"))];
    assert fires[1..] == tail && tail[1..] == last && last[1..] == [];
    assert LastBody(t.body, fires) == "B3";
    assert Requests(app, "B2", last) == [Request(app, "B2")];
    assert Requests(app, "B1", tail) == [Request(app, "B1"), Request(app, "B2")];
    assert Requests(app, t.body, fires) == [Request(app, t.body), Request(app, "B1"), Request(app, "B2")];
    assert [] + Requests(app, t.body, fires) == Requests(app, t.body, fires);
  }

  /** tvm_service_impl_t: the service handle's target, the timer and the held token. */
  class TvmService {
    const applicationName: string
    const tokensServiceName: string
    const refreshInterval: u64
    var tok: Token
    var timer: Timer
    /** The refresh_ticket requests issued so far. */
    ghost var issued: seq<Request>

    /** A pending wait always has the configured interval. */
    ghost predicate Valid()
      reads this
    {
      timer.Armed? ==> timer.expiresIn == refreshInterval
    }

    ghost function State(): RefreshState
      reads this
    {
      RefreshState(tok, timer, issued)
    }

    /** Takes the name, the service name, the interval and the token from
        the options; arms nothing. */
    constructor (o: WorkerOptions.Options)
      ensures Valid()
      ensures applicationName == o.name && tokensServiceName == o.tokensServiceName
      ensures refreshInterval == o.refreshTicketIntervalSec
      ensures State() == RefreshState(MakeToken(o), Idle, [])
    {
      applicationName := o.name;
      tokensServiceName := o.tokensServiceName;
      refreshInterval := o.refreshTicketIntervalSec;
      tok := MakeToken(o);
      timer := Idle;
      issued := [];
    }

    /** token(): the held token, under the lock. */
    function GetToken(): (t: Token)
      reads this
      ensures t == State().tok
    {
      tok
    }

    /** refresh_ticket_async: arm one wait of the configured interval. */
    method RefreshTicketAsync()
      requires timer.Idle?
      modifies this`timer
      ensures Valid()
      ensures timer == Armed(refreshInterval)
    {
      timer := Armed(refreshInterval);
    }

    /** The timer callback; `f.reply` is what the remote call it issues yields. */
    method OnTimer(f: Fire) returns (err: Option<CallError>)
      requires Valid() && timer.Armed?
      modifies this
      ensures Valid()
      ensures (State(), err) == Step(applicationName, refreshInterval, old(State()), f)
      ensures f.cancelled ==> tok == old(tok) && issued == old(issued) && timer == Idle && err.None?
      ensures !f.cancelled ==> issued == old(issued) + [Request(applicationName, old(tok).body)]
      ensures !f.cancelled && f.reply.Ok? ==>
        tok == Token(old(tok).tokenType, f.reply.value) && timer == Armed(refreshInterval) && err.None?
      ensures !f.cancelled && f.reply.Err? ==>
        tok == old(tok) && timer == Idle && err == Some(f.reply.error)
    {
      timer := Idle;
      if f.cancelled {
        return None;
      }
      issued := issued + [Request(applicationName, tok.body)];
      var reply := f.reply;
      if reply.Err? {
        return Some(reply.error);
      }
      tok := tok.(body := reply.value);
      RefreshTicketAsync();
      err := None;
    }
  }

  /** tvm_token_manager_t: owns the service object and starts its chain. */
  class TvmTokenManager {
    const d: TvmService

    constructor (o: WorkerOptions.Options)
      ensures fresh(d) && d.Valid()
      ensures d.applicationName == o.name && d.tokensServiceName == o.tokensServiceName
      ensures d.refreshInterval == o.refreshTicketIntervalSec
      ensures d.State() == RefreshState(MakeToken(o), Armed(o.refreshTicketIntervalSec), [])
    {
      d := new TvmService(o);
      new;
      d.RefreshTicketAsync();
    }

    function GetToken(): (t: Token)
      reads d
      ensures t == d.State().tok
    {
      d.GetToken()
    }
  }

  /** token_manager_t: one of its two implementations. */
  datatype Manager = Null | Tvm(tvm: TvmTokenManager) {

    /** token(): the null manager always yields the default token; the TVM
        manager yields the token its service holds. */
    function GetToken(): (t: Token)
      reads if Tvm? then {tvm.d} else {}
      ensures Null? ==> t == DefaultToken
      ensures Tvm? ==> t == tvm.d.State().tok
    {
      match this
      case Null => DefaultToken
      case Tvm(m) => m.GetToken()
    }
  }

  /** token_manager_t::make: the TVM manager exactly when the configured kind
      is "TVM", with its first wait armed; otherwise the null manager. */
  method Make(o: WorkerOptions.Options) returns (m: Manager)
    ensures m.Tvm? <==> UsesTvm(o)
    ensures m.Null? ==> m.GetToken() == DefaultToken
    ensures m.Tvm? ==> fresh(m.tvm) && fresh(m.tvm.d) && m.tvm.d.Valid()
    ensures m.Tvm? ==> m.tvm.d.applicationName == o.name && m.tvm.d.refreshInterval == o.refreshTicketIntervalSec
    ensures m.Tvm? ==> m.tvm.d.State() == RefreshState(MakeToken(o), Armed(o.refreshTicketIntervalSec), [])
  {
    if MakeToken(o).tokenType == WorkerOptions.DefaultTokenType {
      var t := new TvmTokenManager(o);
      m := Tvm(t);
    } else {
      m := Null;
    }
  }
}
