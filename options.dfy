/**
 * The worker's command-line options (options_t): the check order of its
 * constructor, the exit codes it ends the process with, and the defaults it
 * stores in its private `other` map.
 *
 * The constructor is modelled twice: `Construct` is the specification
 * function, `Parse` the step-by-step method with the loop over the required
 * options; `Parse` is proved to compute `Construct`.
 */
module WorkerOptions {
  import opened Common

  /** The credential kind that selects the ticket-refreshing token manager. */
  const DefaultTokenType: string := "TVM"
  const DefaultTokensServiceName: string := "tvm"
  const DefaultRefreshIntervalSec: u32 := 15
  const DefaultTokenBody: string := "very_secret"

  const EnvTokenType: string := "COCAINE_APP_TOKEN_TYPE"
  const EnvTokenBody: string := "COCAINE_APP_TOKEN_BODY"

  /** The options that must be given, in the order they are checked. */
  const Required: seq<string> := ["app", "uuid", "endpoint", "locator"]

  /** Highest protocol version the worker accepts. */
  const MaxProtocol: u32 := 2

  /** A value held in the `other` map (a boost::any). `unsigned` and
      std::uint32_t are the same 32-bit type, so both are `UInt`. */
  datatype Any = UInt(n: u32) | Str(s: string)

  /**
   * What the command-line parser stored: the switches given (`help`,
   * `version`), the string-valued options given, keyed by name, and the
   * `protocol` value if one was given.
   */
  datatype CommandLine = CommandLine(switches: set<string>, values: map<string, string>, protocol: Option<u32>)

  /** Environment variables that are set, with their values. */
  type Environment = map<string, string>

  datatype Options = Options(
    // taken from environment variables, by intent
    tokenType: string,
    tokenBody: string,
    // defaults, by intent
    tokensServiceName: string,
    refreshTicketIntervalSec: u64,
    name: string,
    uuid: string,
    endpoint: string,
    locator: string,
    other: map<string, Any>)

  /** The constructor either ends the process with an exit code or yields the options. */
  datatype Parsed = Exit(code: nat) | Built(options: Options)

  /** Index of the first name of `names` that is not in `present`, if any. */
  function FirstMissing(names: seq<string>, present: set<string>): (r: Option<nat>)
    ensures r.Some? ==> r.value < |names| && names[r.value] !in present
    ensures r.Some? ==> forall j :: 0 <= j < r.value ==> names[j] in present
    ensures r.None? <==> forall j :: 0 <= j < |names| ==> names[j] in present
  {
    if names == [] then None
    else if names[0] !in present then Some(0)
    else match FirstMissing(names[1..], present)
      case None => None
      case Some(i) => Some(i + 1)
  }

  /** The environment value of `key`, or `default` when it is not set. */
  function EnvOr(env: Environment, key: string, default: string): string
  {
    if key in env then env[key] else default
  }

  /** True when every required option was given. */
  predicate AllRequiredGiven(cl: CommandLine)
  {
    forall j :: 0 <= j < |Required| ==> Required[j] in cl.values
  }

  /** The four required options, named one by one. */
  lemma RequiredNamed(cl: CommandLine)
    requires AllRequiredGiven(cl)
    ensures "app" in cl.values && "uuid" in cl.values && "endpoint" in cl.values && "locator" in cl.values
  {
    assert Required[0] in cl.values && Required[1] in cl.values;
    assert Required[2] in cl.values && Required[3] in cl.values;
  }

  /**
   * The constructor options_t(argc, argv). `indeterminate` is whatever the
   * uint64 field refresh_ticket_interval_sec holds: the constructor never
   * writes that field, nor the three string fields before it, which keep
   * their default-constructed empty value.
   */
  function Construct(cl: CommandLine, env: Environment, indeterminate: u64): (r: Parsed)
    // help wins over everything, version over everything else
    ensures "help" in cl.switches ==> r == Exit(0)
    ensures "help" !in cl.switches && "version" in cl.switches ==> r == Exit(0)
    // a missing required option exits with its index in Required
    ensures forall i :: 0 <= i < |Required| ==>
      ("help" !in cl.switches && "version" !in cl.switches && Required[i] !in cl.values &&
       (forall j :: 0 <= j < i ==> Required[j] in cl.values)) ==> r == Exit(i)
    // the protocol bound is checked last
    ensures ("help" !in cl.switches && "version" !in cl.switches && AllRequiredGiven(cl) &&
             cl.protocol.Some? && cl.protocol.value > MaxProtocol) ==> r == Exit(1)
    ensures r.Built? <==>
      "help" !in cl.switches && "version" !in cl.switches && AllRequiredGiven(cl) &&
      (cl.protocol.None? || cl.protocol.value <= MaxProtocol)
    // the supplied values are stored as given
    ensures r.Built? ==>
      "app" in cl.values && "uuid" in cl.values && "endpoint" in cl.values && "locator" in cl.values &&
      r.options.name == cl.values["app"] && r.options.uuid == cl.values["uuid"] &&
      r.options.endpoint == cl.values["endpoint"] && r.options.locator == cl.values["locator"]
    // the `other` map: protocol, token settings from the environment, fixed defaults
    ensures r.Built? ==>
      r.options.other.Keys == {"protocol", "token_type", "token_body", "tokens_service_name", "refresh_ticket_interval_sec"} &&
      r.options.other["protocol"] == UInt(if cl.protocol.Some? then cl.protocol.value else 0) &&
      r.options.other["token_type"] == Str(EnvOr(env, EnvTokenType, DefaultTokenType)) &&
      r.options.other["token_body"] == Str(EnvOr(env, EnvTokenBody, DefaultTokenBody)) &&
      r.options.other["tokens_service_name"] == Str(DefaultTokensServiceName) &&
      r.options.other["refresh_ticket_interval_sec"] == UInt(DefaultRefreshIntervalSec)
    // the public fields of the same names are left as constructed
    ensures r.Built? ==>
      r.options.tokenType == "" && r.options.tokenBody == "" &&
      r.options.tokensServiceName == "" && r.options.refreshTicketIntervalSec == indeterminate
  {
    if "help" in cl.switches then Exit(0)
    else if "version" in cl.switches then Exit(0)
    else match FirstMissing(Required, cl.values.Keys)
      case Some(id) => Exit(id)
      case None =>
        var protocol: u32 := if cl.protocol.Some? then cl.protocol.value else 0;
        if protocol > MaxProtocol then Exit(1)
        else
          RequiredNamed(cl);
          Built(Options(
            "", "", "", indeterminate,
            cl.values["app"], cl.values["uuid"], cl.values["endpoint"], cl.values["locator"],
            map[
              "protocol" := UInt(protocol),
              "token_type" := Str(EnvOr(env, EnvTokenType, DefaultTokenType)),
              "token_body" := Str(EnvOr(env, EnvTokenBody, DefaultTokenBody)),
              "tokens_service_name" := Str(DefaultTokensServiceName),
              "refresh_ticket_interval_sec" := UInt(DefaultRefreshIntervalSec)]))
  }

  /** The constructor as the source runs it: checks in order, a loop over the
      required options with early exit, then field and map assignments. */
  method Parse(cl: CommandLine, env: Environment, indeterminate: u64) returns (r: Parsed)
    ensures r == Construct(cl, env, indeterminate)
  {
    if "help" in cl.switches {
      return Exit(0);
    }
    if "version" in cl.switches {
      return Exit(0);
    }
    var id := 0;
    while id < |Required|
      invariant 0 <= id <= |Required|
      invariant forall j :: 0 <= j < id ==> Required[j] in cl.values
    {
      if Required[id] !in cl.values {
        return Exit(id);
      }
      id := id + 1;
    }
    var protocol: u32 := 0;
    if cl.protocol.Some? {
      protocol := cl.protocol.value;
      if protocol > MaxProtocol {
        return Exit(1);
      }
    }
    RequiredNamed(cl);
    var o := Options("", "", "", indeterminate, "", "", "", "", map[]);
    o := o.(name := cl.values["app"]);
    o := o.(uuid := cl.values["uuid"]);
    o := o.(endpoint := cl.values["endpoint"]);
    o := o.(locator := cl.values["locator"]);
    o := o.(other := o.other["protocol" := UInt(protocol)]);
    if EnvTokenType in env {
      o := o.(other := o.other["token_type" := Str(env[EnvTokenType])]);
    } else {
      o := o.(other := o.other["token_type" := Str(DefaultTokenType)]);
    }
    if EnvTokenBody in env {
      o := o.(other := o.other["token_body" := Str(env[EnvTokenBody])]);
    } else {
      o := o.(other := o.other["token_body" := Str(DefaultTokenBody)]);
    }
    o := o.(other := o.other["tokens_service_name" := Str(DefaultTokensServiceName)]);
    o := o.(other := o.other["refresh_ticket_interval_sec" := UInt(DefaultRefreshIntervalSec)]);
    r := Built(o);
  }

  /** What other.at() throws, and what boost::any_cast throws. */
  datatype AccessError = OutOfRange | BadAnyCast

  /** options_t::at: the entry of `other` under `key`. */
  function At(o: Options, key: string): (r: Result<Any, AccessError>)
    ensures r.Ok? <==> key in o.other
    ensures r.Ok? ==> r.value == o.other[key]
    ensures r.Err? ==> r.error == OutOfRange
  {
    if key in o.other then Ok(o.other[key]) else Err(OutOfRange)
  }

  /** options_t::protocol: the `protocol` entry cast to uint32. */
  function Protocol(o: Options): (r: Result<u32, AccessError>)
    ensures r.Ok? <==> "protocol" in o.other && o.other["protocol"].UInt?
    ensures r.Ok? ==> o.other["protocol"] == UInt(r.value)
  {
    match At(o, "protocol")
    case Err(e) => Err(e)
    case Ok(UInt(n)) => Ok(n)
    case Ok(Str(_)) => Err(BadAnyCast)
  }

  /** protocol() of constructed options never throws and returns the supplied
      version, 0 when none was given, which is at most MaxProtocol. */
  lemma ProtocolOfConstructed(cl: CommandLine, env: Environment, indeterminate: u64)
    requires Construct(cl, env, indeterminate).Built?
    ensures Protocol(Construct(cl, env, indeterminate).options) ==
      Ok(if cl.protocol.Some? then cl.protocol.value else 0)
    ensures Protocol(Construct(cl, env, indeterminate).options).value <= MaxProtocol
  {
  }

  /**
   * The constructor as evidently intended: the token settings and defaults
   * it computes are also written to the public fields that the token
   * manager reads.
   */
  function Published(o: Options): (p: Options)
    ensures "token_type" in o.other && o.other["token_type"].Str? ==> p.tokenType == o.other["token_type"].s
    ensures "token_body" in o.other && o.other["token_body"].Str? ==> p.tokenBody == o.other["token_body"].s
    ensures "tokens_service_name" in o.other && o.other["tokens_service_name"].Str? ==>
      p.tokensServiceName == o.other["tokens_service_name"].s
    ensures "refresh_ticket_interval_sec" in o.other && o.other["refresh_ticket_interval_sec"].UInt? ==>
      p.refreshTicketIntervalSec as int == o.other["refresh_ticket_interval_sec"].n as int
    ensures p.(tokenType := o.tokenType, tokenBody := o.tokenBody,
               tokensServiceName := o.tokensServiceName,
               refreshTicketIntervalSec := o.refreshTicketIntervalSec) == o
  {
    o.(tokenType := StrEntry(o, "token_type", o.tokenType),
       tokenBody := StrEntry(o, "token_body", o.tokenBody),
       tokensServiceName := StrEntry(o, "tokens_service_name", o.tokensServiceName),
       refreshTicketIntervalSec :=
         if "refresh_ticket_interval_sec" in o.other && o.other["refresh_ticket_interval_sec"].UInt?
         then o.other["refresh_ticket_interval_sec"].n as int as u64
         else o.refreshTicketIntervalSec)
  }

  /** The string entry of `other` under `key`, or `fallback`. */
  function StrEntry(o: Options, key: string, fallback: string): string
  {
    if key in o.other && o.other[key].Str? then o.other[key].s else fallback
  }

  /** The corrected constructor: the same checks and exit codes, with the
      public token fields filled in. */
  function ConstructCorrected(cl: CommandLine, env: Environment, indeterminate: u64): (r: Parsed)
    ensures r.Exit? <==> Construct(cl, env, indeterminate).Exit?
    ensures r.Exit? ==> r == Construct(cl, env, indeterminate)
    ensures r.Built? ==>
      r.options.tokenType == EnvOr(env, EnvTokenType, DefaultTokenType) &&
      r.options.tokenBody == EnvOr(env, EnvTokenBody, DefaultTokenBody) &&
      r.options.tokensServiceName == DefaultTokensServiceName &&
      r.options.refreshTicketIntervalSec == DefaultRefreshIntervalSec as int as u64
    // everything else is what the constructor as written stores
    ensures r.Built? ==>
      Construct(cl, env, indeterminate).Built? &&
      r.options.(tokenType := "", tokenBody := "", tokensServiceName := "",
                 refreshTicketIntervalSec := indeterminate) == Construct(cl, env, indeterminate).options
  {
    match Construct(cl, env, indeterminate)
    case Exit(code) => Exit(code)
    case Built(o) => Built(Published(o))
  }
}
