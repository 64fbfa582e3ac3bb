/**
 * The poller of src/poller.js: construction with option defaults, the
 * start/stop lifecycle over a timer handle, and the classification of one
 * fetch cycle into the events it emits.
 *
 * The HTTP transport (`request`), the timers (`setInterval`,
 * `clearInterval`), the clock and `JSON.parse` are inputs: the timer
 * handle `setInterval` returns is a parameter of `Start`, the latency is a
 * number, the transport's answer is a `TransportOutcome`, and `JSON.parse`
 * is a function parameter.
 */
module Poller {
  import opened Js

  const DefaultTimeout := 4000
  const DefaultAccept := "application/json"
  const DefaultRefreshInterval := 60000
  const ConfigErrorMessage := "ft-poller expects either a url or an options object compatible with request"
  const AlreadyRunningMessage := "Could not start job because the service is already running"

  /** The `request` options this model follows; other properties are
      passed to the transport untouched and are not modelled. */
  datatype RequestInit = RequestInit(
    url: Option<string>,
    timeout: Option<int>,
    headers: Option<map<string, string>>,
    json: bool)

  /** The options object, which the constructor updates in place. When the
      caller supplied it, it is the caller's own object. */
  class RequestOptions {
    var url: Option<string>
    var timeout: Option<int>
    var headers: Option<map<string, string>>
    var json: bool

    constructor (init: RequestInit)
      ensures Value() == init
    {
      url, timeout, headers, json := init.url, init.timeout, init.headers, init.json;
    }

    function Value(): RequestInit
      reads this
    {
      RequestInit(url, timeout, headers, json)
    }
  }

  /** What `parseData` receives: the body as delivered (with `options.json`)
      or the result of `JSON.parse`. */
  datatype Payload = RawBody(text: string) | ParsedBody(value: Json)

  /** `parseData(payload)`: `None` when it returns, `Some(x)` when it throws `x`. */
  type ParseData = Payload -> Option<Thrown>

  /** `JSON.parse`, which may throw. */
  type JsonParse = string -> Result<Json, Thrown>

  /** The constructor's argument. */
  datatype Config = Config(
    url: Option<string>,
    options: RequestOptions?,
    refreshInterval: Option<int>,
    parseData: Option<ParseData>)

  /** An opaque `setInterval` handle; always truthy. */
  datatype Handle = Handle(id: nat)

  /** The response `request` delivers: its status code and body. */
  datatype HttpResponse = HttpResponse(statusCode: int, body: string)

  /** How the transport call of one cycle ends. */
  datatype TransportOutcome = TransportError(error: Thrown) | Responded(response: HttpResponse)

  /** An emitted event: `emit('ok', response, latency)` or `emit('error', err)`. */
  datatype Event = OkEvent(response: HttpResponse, latency: nat) | ErrorEvent(error: Thrown)

  /** The observable result of one fetch cycle: the events in emission
      order and the argument `parseData` was called with, if it was. */
  datatype Cycle = Cycle(events: seq<Event>, parseDataArg: Option<Payload>)

  /** The constructor throws exactly when there is neither an options
      object nor a truthy url. */
  predicate Accepts(config: Config) {
    config.options != null || TruthyString(config.url)
  }

  function OptionsFrame(config: Config): set<object> {
    if config.options != null then {config.options} else {}
  }

  /** The options before defaults are filled in:
      `config.options || { url: config.url }`. */
  function Supplied(config: Config): RequestInit
    reads OptionsFrame(config)
  {
    if config.options != null then config.options.Value()
    else RequestInit(config.url, None, None, false)
  }

  /** The `Accept` header counts as present when it is truthy. */
  predicate HasAccept(headers: map<string, string>) {
    TruthyString(Lookup(headers, "Accept"))
  }

  /** The options after the constructor's defaults: a falsy timeout
      becomes 4000, missing headers become `{}`, and a falsy `Accept`
      becomes `application/json`. */
  function WithDefaults(o: RequestInit): (d: RequestInit)
    ensures d.url == o.url && d.json == o.json
    ensures TruthyNumber(d.timeout)
    ensures TruthyNumber(o.timeout) ==> d.timeout == o.timeout
    ensures !TruthyNumber(o.timeout) ==> d.timeout == Some(DefaultTimeout)
    ensures d.headers.Some? && HasAccept(d.headers.value)
    ensures var before := o.headers.GetOr(map[]);
      (HasAccept(before) ==> d.headers.value["Accept"] == before["Accept"]) &&
      (!HasAccept(before) ==> d.headers.value["Accept"] == DefaultAccept)
    ensures var before := o.headers.GetOr(map[]);
      forall name :: name != "Accept" ==> Lookup(d.headers.value, name) == Lookup(before, name)
  {
    var timeout := if TruthyNumber(o.timeout) then o.timeout else Some(DefaultTimeout);
    var headers := o.headers.GetOr(map[]);
    var headers' := if HasAccept(headers) then headers else headers["Accept" := DefaultAccept];
    o.(timeout := timeout, headers := Some(headers'))
  }

  /** Filling in the defaults a second time changes nothing. */
  lemma DefaultsIdempotent(o: RequestInit)
    ensures WithDefaults(WithDefaults(o)) == WithDefaults(o)
  {
  }

  /** `config.refreshInterval || 60000` */
  function RefreshInterval(config: Config): (ms: int)
    ensures ms != 0
    ensures TruthyNumber(config.refreshInterval) ==> ms == config.refreshInterval.value
    ensures !TruthyNumber(config.refreshInterval) ==> ms == DefaultRefreshInterval
  {
    if TruthyNumber(config.refreshInterval) then config.refreshInterval.value else DefaultRefreshInterval
  }

  /** The events emitted by one cycle have one of three shapes: `ok`
      alone, `ok` then `error`, or `error` alone. */
  predicate WellFormed(events: seq<Event>) {
    || (|events| == 1 && events[0].OkEvent?)
    || (|events| == 2 && events[0].OkEvent? && events[1].ErrorEvent?)
    || (|events| == 1 && events[0].ErrorEvent?)
  }

  /** What `parseData` is handed for a body: the body itself when
      `options.json` is set, otherwise the result of `JSON.parse`. */
  function Decode(body: string, json: bool, jsonParse: JsonParse): (r: Result<Payload, Thrown>)
    ensures r.Success? <==> json || jsonParse(body).Success?
    ensures json ==> r == Success(RawBody(body))
    ensures !json && r.Success? ==> r.value == ParsedBody(jsonParse(body).value)
    ensures r.Failure? ==> r.error == jsonParse(body).error
  {
    if json then Success(RawBody(body))
    else match jsonParse(body)
      case Success(v) => Success(ParsedBody(v))
      case Failure(e) => Failure(e)
  }

  /** The promise chain of `fetch` once the transport has answered. */
  function Settle(outcome: TransportOutcome, latency: nat, json: bool,
                  parseData: Option<ParseData>, jsonParse: JsonParse): (c: Cycle)
    ensures WellFormed(c.events)
    ensures c.events[0].OkEvent? <==> outcome.Responded? && outcome.response.statusCode == 200
    ensures c.events[0].OkEvent? ==> c.events[0] == OkEvent(outcome.response, latency)
    ensures outcome.TransportError? ==> c.events == [ErrorEvent(outcome.error)]
    ensures outcome.Responded? && outcome.response.statusCode != 200 ==>
      c.events == [ErrorEvent(StringValue(outcome.response.body))]
    ensures c.parseDataArg.Some? <==>
      outcome.Responded? && outcome.response.statusCode == 200 &&
      parseData.Some? && Decode(outcome.response.body, json, jsonParse).Success?
    ensures c.parseDataArg.Some? ==>
      Success(c.parseDataArg.value) == Decode(outcome.response.body, json, jsonParse)
    ensures c.parseDataArg.Some? ==>
      (c.events == [c.events[0]] <==> parseData.value(c.parseDataArg.value).None?)
    ensures outcome.Responded? && outcome.response.statusCode == 200 ==>
      var ok := OkEvent(outcome.response, latency);
      match Decode(outcome.response.body, json, jsonParse)
      case Failure(e) => c.events == [ok, ErrorEvent(e)]
      case Success(payload) =>
        match parseData
        case None => c.events == [ok, ErrorEvent(ErrorValue(NotAFunction))]
        case Some(f) => c.events == [ok] + (match f(payload) case None => [] case Some(e) => [ErrorEvent(e)])
  {
    match outcome
    case TransportError(e) => Cycle([ErrorEvent(e)], None)
    case Responded(response) =>
      if response.statusCode == 200 then
        var ok := OkEvent(response, latency);
        match Decode(response.body, json, jsonParse)
        case Failure(e) => Cycle([ok, ErrorEvent(e)], None)
        case Success(payload) =>
          match parseData
          case None => Cycle([ok, ErrorEvent(ErrorValue(NotAFunction))], None)
          case Some(f) =>
            match f(payload)
            case None => Cycle([ok], Some(payload))
            case Some(e) => Cycle([ok, ErrorEvent(e)], Some(payload))
      else
        Cycle([ErrorEvent(StringValue(response.body))], None)
  }

  /** The `TypeError` of calling `self.parseData` when the config gave none. */
  const NotAFunction := Fault("TypeError", "self.parseData is not a function")

  class Poller {
    var options: RequestOptions
    var refreshInterval: int
    var parseData: Option<ParseData>
    var timer: Option<Handle>
    /** The options each transport call was made with, oldest first. */
    ghost var requests: seq<RequestInit>

    /** `isRunning()`: `!!this.poller`; every handle is truthy. */
    predicate IsRunning()
      reads this
      ensures IsRunning() <==> timer != None
    {
      timer.Some?
    }

    /** What a fresh poller looks like for a config whose options were
        `supplied` before construction. */
    ghost predicate BuiltFrom(config: Config, supplied: RequestInit)
      reads this, options
    {
      && (config.options != null ==> options == config.options)
      && options.Value() == WithDefaults(supplied)
      && refreshInterval == RefreshInterval(config)
      && parseData == config.parseData
      && !IsRunning()
      && requests == []
    }

    /** The constructor past its argument check (lines 11-25). */
    constructor (config: Config)
      requires Accepts(config)
      modifies OptionsFrame(config)
      ensures BuiltFrom(config, old(Supplied(config)))
      ensures config.options == null ==> fresh(options)
    {
      var opts: RequestOptions;
      if config.options != null {
        opts := config.options;
      } else {
        opts := new RequestOptions(RequestInit(config.url, None, None, false));
      }
      opts.timeout := if TruthyNumber(opts.timeout) then opts.timeout else Some(DefaultTimeout);
      opts.headers := Some(opts.headers.GetOr(map[]));
      if !HasAccept(opts.headers.value) {
        opts.headers := Some(opts.headers.value["Accept" := DefaultAccept]);
      }
      options := opts;
      refreshInterval := RefreshInterval(config);
      parseData := config.parseData;
      timer := None;
      requests := [];
    }

    /** `new Poller(config)`: throws the configuration message when there is
        neither an options object nor a url, and otherwise constructs. */
    static method New(config: Config) returns (r: Result<Poller, Thrown>)
      modifies OptionsFrame(config)
      ensures r.Failure? <==> !Accepts(config)
      ensures r.Failure? ==> r.error == StringValue(ConfigErrorMessage)
      ensures r.Success? ==> fresh(r.value) && r.value.BuiltFrom(config, old(Supplied(config)))
    {
      if !Accepts(config) {
        return Failure(StringValue(ConfigErrorMessage));
      }
      var p := new Poller(config);
      r := Success(p);
    }

    /** How a `fetch` of this poller ends once the transport has answered:
        the cycle reads `options.json` and `parseData` from the poller. */
    function FetchCycle(outcome: TransportOutcome, latency: nat, jsonParse: JsonParse): (c: Cycle)
      reads this, options
      ensures c == Settle(outcome, latency, options.json, parseData, jsonParse)
      ensures parseData == None ==> c.parseDataArg == None
      ensures options.json && c.parseDataArg.Some? ==> c.parseDataArg == Some(RawBody(outcome.response.body))
    {
      Settle(outcome, latency, options.json, parseData, jsonParse)
    }

    /** The synchronous part of `fetch`: one transport call with the
        current options. How it ends is `FetchCycle`. */
    method Fetch()
      modifies this`requests
      ensures requests == old(requests) + [options.Value()]
    {
      requests := requests + [options.Value()];
    }

    /** `start(opts)`: refuses while running; otherwise makes one call at
        once if `initialRequest` is set, then installs the timer `handle`. */
    method Start(initialRequest: bool, handle: Handle) returns (r: Outcome<Thrown>)
      modifies this`timer, this`requests
      ensures old(IsRunning()) ==>
        r == Fail(ErrorValue(Fault("Error", AlreadyRunningMessage))) &&
        timer == old(timer) && requests == old(requests)
      ensures !old(IsRunning()) ==>
        r == Pass && IsRunning() && timer == Some(handle) &&
        requests == old(requests) + (if initialRequest then [options.Value()] else [])
    {
      if IsRunning() {
        return Fail(ErrorValue(Fault("Error", AlreadyRunningMessage)));
      }
      if initialRequest {
        Fetch();
      }
      timer := Some(handle);
      r := Pass;
    }

    /** `stop()`: clears the timer, whether or not one is installed, and
        returns true. */
    method Stop() returns (r: bool)
      modifies this`timer
      ensures r && !IsRunning()
    {
      timer := None;
      r := true;
    }
  }
}
