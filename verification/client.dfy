/** `Liteapi::Client` (lib/liteapi/client.rb): merging constructor arguments
    over the process-wide configuration, validating the api key, the three
    lazily built connections, and the routing of the request helpers. */
module Client {
  import opened Wrappers
  import opened Json
  import opened Errors
  import opened Configuration
  import Liteapi
  import Connection
  import Text

  const ApiKeyRequiredPrefix: string := "API key is required"
  const ApiKeyRequiredMessage: string :=
    ApiKeyRequiredPrefix + ". Set via Liteapi.configure or pass api_key: to Client.new"

  /** The keyword arguments of `Client.new`. They are the seven configuration
      attributes, so they share the `Config` shape; `None` means not passed. */
  type ClientArgs = Config

  /** The logical destinations, one connection each. */
  datatype Destination = Default | Booking | Dashboard

  /** The resolved attributes of a constructed client; the api key has passed validation. */
  datatype Settings = Settings(
    apiKey: string,
    baseUrl: Option<string>,
    bookBaseUrl: Option<string>,
    dashboardBaseUrl: Option<string>,
    timeout: Option<int>,
    openTimeout: Option<int>,
    maxRetries: Option<int>)

  /** A client: its settings and the connections built so far, one slot per
      destination (`@connection`, `@book_connection`, `@dashboard_connection`). */
  datatype Client = Client(
    settings: Settings,
    connection: Option<Connection.Connection>,
    bookConnection: Option<Connection.Connection>,
    dashboardConnection: Option<Connection.Connection>)

  /** The attribute readers of a client, as a `Config`. */
  function AsConfig(s: Settings): Config {
    Config(Some(s.apiKey), s.baseUrl, s.bookBaseUrl, s.dashboardBaseUrl, s.timeout, s.openTimeout, s.maxRetries)
  }

  /** `arg || config.attr` for each attribute. Only a missing argument falls
      back, so an explicit `0` or `""` is kept. */
  function Resolve(args: ClientArgs, config: Config): (r: Config)
    ensures forall a :: Read(r, a) == if Read(args, a).IsNil() then Read(config, a) else Read(args, a)
  {
    Config(
      args.apiKey.OrElse(config.apiKey),
      args.baseUrl.OrElse(config.baseUrl),
      args.bookBaseUrl.OrElse(config.bookBaseUrl),
      args.dashboardBaseUrl.OrElse(config.dashboardBaseUrl),
      args.timeout.OrElse(config.timeout),
      args.openTimeout.OrElse(config.openTimeout),
      args.maxRetries.OrElse(config.maxRetries))
  }

  /** `validate_api_key!`: passes iff the api key is present and non-empty;
      otherwise a plain `Liteapi::Error` whose message starts with
      "API key is required". */
  function Validate(resolved: Config): (r: Result<Settings, Exception>)
    ensures r.Success? <==> resolved.apiKey.Some? && |resolved.apiKey.value| > 0
    ensures r.Success? ==> AsConfig(r.value) == resolved
    ensures r.Failure? ==> r.error == NewError(ApiKeyRequiredMessage)
    ensures r.Failure? ==> !IsAPIError(r.error.cls) && r.error.api.None?
    ensures r.Failure? ==> r.error.message.JStr? && Text.StartsWith(r.error.message.s, ApiKeyRequiredPrefix)
  {
    assert Text.StartsWith(ApiKeyRequiredMessage, ApiKeyRequiredPrefix) by {
      assert ApiKeyRequiredMessage[..|ApiKeyRequiredPrefix|] == ApiKeyRequiredPrefix;
    }
    match resolved.apiKey
    case Some(key) =>
      if |key| > 0 then
        Success(Settings(key, resolved.baseUrl, resolved.bookBaseUrl, resolved.dashboardBaseUrl,
                         resolved.timeout, resolved.openTimeout, resolved.maxRetries))
      else Failure(NewError(ApiKeyRequiredMessage))
    case None => Failure(NewError(ApiKeyRequiredMessage))
  }

  /** `Client.new(**args)`: reads (and so possibly creates) the global
      configuration, resolves each attribute, and validates the api key.
      No connection exists yet. */
  function New(global: Liteapi.State, env: Option<string>, args: ClientArgs): (r: (Liteapi.State, Result<Client, Exception>))
    ensures r.0 == Liteapi.CurrentConfiguration(global, env).0
    ensures var resolved := Resolve(args, Liteapi.CurrentConfiguration(global, env).1);
      && (r.1.Success? <==> resolved.apiKey.Some? && |resolved.apiKey.value| > 0)
      && (r.1.Success? ==> AsConfig(r.1.value.settings) == resolved && Present(r.1.value) == {})
      && (r.1.Failure? ==> r.1.error == NewError(ApiKeyRequiredMessage))
  {
    var (global', config) := Liteapi.CurrentConfiguration(global, env);
    match Validate(Resolve(args, config))
    case Success(settings) => (global', Success(Client(settings, None, None, None)))
    case Failure(e) => (global', Failure(e))
  }

  /** The base URL attribute a destination's connection uses. */
  function BaseUrlFor(s: Settings, d: Destination): Option<string> {
    match d
    case Default => s.baseUrl
    case Booking => s.bookBaseUrl
    case Dashboard => s.dashboardBaseUrl
  }

  /** `Connection.new(...)` as `connection`, `book_connection` and
      `dashboard_connection` call it: the shared settings plus the
      destination's base URL. */
  function Build(s: Settings, d: Destination): (conn: Connection.Connection)
    ensures conn.apiKey == s.apiKey
    ensures conn.timeout == s.timeout && conn.openTimeout == s.openTimeout
    ensures conn.maxRetries == s.maxRetries
    ensures conn.baseUrl == BaseUrlFor(s, d)
  {
    Connection.Connection(s.apiKey, BaseUrlFor(s, d), s.timeout, s.openTimeout, s.maxRetries)
  }

  /** The instance variable holding a destination's connection. */
  function Slot(c: Client, d: Destination): Option<Connection.Connection> {
    match d
    case Default => c.connection
    case Booking => c.bookConnection
    case Dashboard => c.dashboardConnection
  }

  /** The destinations whose connection has been built. */
  function Present(c: Client): set<Destination> {
    (if c.connection.Some? then {Default} else {})
    + (if c.bookConnection.Some? then {Booking} else {})
    + (if c.dashboardConnection.Some? then {Dashboard} else {})
  }

  /** How many connections have been built, i.e. `|Present(c)|` (see
      `CountIsPresentSize`); kept as arithmetic so that the build count in
      `AccessAll` needs no reasoning about set cardinality. */
  function Count(c: Client): nat {
    (if c.connection.Some? then 1 else 0)
    + (if c.bookConnection.Some? then 1 else 0)
    + (if c.dashboardConnection.Some? then 1 else 0)
  }

  lemma CountIsPresentSize(c: Client)
    ensures Count(c) == |Present(c)|
  {
  }

  /** A stored connection for `d`, if any, is the one `Build` gives. */
  predicate SlotValid(c: Client, d: Destination) {
    Slot(c, d).Some? ==> Slot(c, d).value == Build(c.settings, d)
  }

  /** Every memoised connection is the one `Build` gives for its destination. */
  predicate Valid(c: Client) {
    SlotValid(c, Default) && SlotValid(c, Booking) && SlotValid(c, Dashboard)
  }

  /** `connection` / `book_connection` / `dashboard_connection`
      (`@x ||= Connection.new(...)`): returns the stored connection if there is
      one, otherwise builds, stores and returns it. `built` says whether a
      connection was constructed; only the accessed slot can change. */
  function Access(c: Client, d: Destination): (r: (Client, Connection.Connection, bool))
    ensures var (c', conn, built) := r;
      && c'.settings == c.settings
      && Slot(c', d) == Some(conn)
      && (forall e :: e != d ==> Slot(c', e) == Slot(c, e))
      && Present(c') == Present(c) + {d}
      && (built <==> d !in Present(c))
      && Count(c') == Count(c) + (if built then 1 else 0)
      && (Slot(c, d).Some? ==> c' == c && conn == Slot(c, d).value)
      && (Valid(c) ==> Valid(c') && conn == Build(c.settings, d))
  {
    match Slot(c, d)
    case Some(conn) => (c, conn, false)
    case None =>
      var conn := Build(c.settings, d);
      var c' :=
        match d
        case Default => c.(connection := Some(conn))
        case Booking => c.(bookConnection := Some(conn))
        case Dashboard => c.(dashboardConnection := Some(conn));
      (c', conn, true)
  }

  /** A second access returns the same connection and builds nothing. */
  lemma AccessIsIdempotent(c: Client, d: Destination)
    ensures var (c1, conn1, _) := Access(c, d);
      Access(c1, d) == (c1, conn1, false)
  {
  }

  /** The three connections share api key, timeouts and retry budget and
      differ only in their base URL. */
  lemma ConnectionsDifferOnlyInBaseUrl(s: Settings, d1: Destination, d2: Destination)
    ensures Build(s, d1).(baseUrl := None) == Build(s, d2).(baseUrl := None)
    ensures Build(s, Default).baseUrl == s.baseUrl
    ensures Build(s, Booking).baseUrl == s.bookBaseUrl
    ensures Build(s, Dashboard).baseUrl == s.dashboardBaseUrl
  {
  }

  /** The client's request helpers. There is no `dashboard_put`. */
  datatype Helper = Get | Post | Put | BookGet | BookPost | BookPut | DashboardGet | DashboardPost

  /** Which connection and which verb each helper uses. */
  function Route(h: Helper): (Destination, Connection.Verb) {
    match h
    case Get => (Default, Connection.Verb.Get)
    case Post => (Default, Connection.Verb.Post)
    case Put => (Default, Connection.Verb.Put)
    case BookGet => (Booking, Connection.Verb.Get)
    case BookPost => (Booking, Connection.Verb.Post)
    case BookPut => (Booking, Connection.Verb.Put)
    case DashboardGet => (Dashboard, Connection.Verb.Get)
    case DashboardPost => (Dashboard, Connection.Verb.Post)
  }

  /** Every helper reaches a different (destination, verb) pair, every pair
      except a dashboard PUT is reachable, and the dashboard PUT is not. */
  lemma RoutingIsExact(h1: Helper, h2: Helper, d: Destination, v: Connection.Verb)
    ensures Route(h1) == Route(h2) ==> h1 == h2
    ensures (exists h :: Route(h) == (d, v)) <==> (d, v) != (Dashboard, Connection.Verb.Put)
  {
    if (d, v) != (Dashboard, Connection.Verb.Put) {
      var h :=
        match (d, v)
        case (Default, Get) => Get
        case (Default, Post) => Post
        case (Default, Put) => Put
        case (Booking, Get) => BookGet
        case (Booking, Post) => BookPost
        case (Booking, Put) => BookPut
        case (Dashboard, Get) => DashboardGet
        case (Dashboard, _) => DashboardPost;
      assert Route(h) == (d, v);
    }
  }

  /** One call of a helper: `client.book_post(path, body)` etc. */
  datatype Call = Call(helper: Helper, path: string, payload: Object)

  /** The connection a call goes out on and what it sends there. */
  datatype Dispatch = Dispatch(conn: Connection.Connection, verb: Connection.Verb, path: string, payload: Object)

  /** Where a call goes when its destination's connection has the client's settings. */
  function Planned(s: Settings, call: Call): Dispatch {
    var (d, verb) := Route(call.helper);
    Dispatch(Build(s, d), verb, call.path, call.payload)
  }

  /** The answer the network gives to a dispatched call. */
  function Answer(x: Dispatch, net: Connection.Network): Result<Json, Exception> {
    Connection.Send(x.conn, x.verb, x.path, x.payload, net)
  }

  /** A helper call: memoised connection access, then the request. The call
      goes out on a connection built from the client's own settings for the
      helper's destination, and only that destination gains a connection. */
  function Perform(c: Client, call: Call, net: Connection.Network): (r: (Client, Result<Json, Exception>))
    requires Valid(c)
    ensures Valid(r.0) && r.0.settings == c.settings
    ensures Present(r.0) == Present(c) + {Route(call.helper).0}
    ensures r.1 == Answer(Planned(c.settings, call), net)
  {
    var (d, verb) := Route(call.helper);
    var (c', conn, _) := Access(c, d);
    (c', Connection.Send(conn, verb, call.path, call.payload, net))
  }

  /** The distinct destinations in a sequence of accesses. */
  function Used(ds: seq<Destination>): set<Destination> {
    if |ds| == 0 then {} else Used(ds[..|ds| - 1]) + {ds[|ds| - 1]}
  }

  lemma UsedStep(ds: seq<Destination>, i: nat)
    requires i < |ds|
    ensures Used(ds[..i + 1]) == Used(ds[..i]) + {ds[i]}
  {
    assert ds[..i + 1][..i] == ds[..i];
  }

  /** A run of connection accesses on one client, in order. Every access
      returns the connection built from the client's settings for its
      destination (the same one each time), exactly the destinations used
      gain a connection, and `builds` counts constructions: one per
      destination used for the first time, so no connection is built twice
      however often it is used. */
  method AccessAll(c0: Client, ds: seq<Destination>)
    returns (c: Client, conns: seq<Connection.Connection>, builds: nat)
    requires Valid(c0)
    ensures Valid(c) && c.settings == c0.settings
    ensures |conns| == |ds|
    ensures forall i :: 0 <= i < |ds| ==> conns[i] == Build(c0.settings, ds[i])
    ensures Present(c) == Present(c0) + Used(ds)
    ensures builds == Count(c) - Count(c0) <= 3
  {
    c := c0;
    conns := [];
    builds := 0;
    var i := 0;
    while i < |ds|
      invariant 0 <= i <= |ds|
      invariant Valid(c) && c.settings == c0.settings
      invariant |conns| == i
      invariant forall j :: 0 <= j < i ==> conns[j] == Build(c0.settings, ds[j])
      invariant Present(c) == Present(c0) + Used(ds[..i])
      invariant Count(c0) + builds == Count(c)
    {
      var (next, conn, built) := Access(c, ds[i]);
      conns := conns + [conn];
      if built {
        builds := builds + 1;
      }
      UsedStep(ds, i);
      assert Present(next) == (Present(c0) + Used(ds[..i])) + {ds[i]};
      c := next;
      i := i + 1;
    }
    assert ds[..|ds|] == ds;
  }

  /** An explicit api key wins over the configured one. */
  lemma ExplicitApiKeyOverrides(global: Liteapi.State, env: Option<string>, args: ClientArgs)
    requires args.apiKey.Some? && |args.apiKey.value| > 0
    ensures New(global, env, args).1.Success?
    ensures New(global, env, args).1.value.settings.apiKey == args.apiKey.value
  {
  }

  /** Without an api key argument the configured one is used. */
  lemma ConfiguredApiKeyUsed(global: Liteapi.State, env: Option<string>, args: ClientArgs)
    requires args.apiKey.None?
    ensures var configured := Liteapi.CurrentConfiguration(global, env).1.apiKey;
      New(global, env, args).1.Success? <==> configured.Some? && |configured.value| > 0
    ensures New(global, env, args).1.Success? ==>
      Some(New(global, env, args).1.value.settings.apiKey) == Liteapi.CurrentConfiguration(global, env).1.apiKey
  {
  }

  /** The fallback is nil-only: an explicit empty api key is not replaced by
      the configured one, so construction fails even when one is configured. */
  lemma ExplicitEmptyApiKeyFails(global: Liteapi.State, env: Option<string>, args: ClientArgs)
    requires args.apiKey == Some("")
    ensures New(global, env, args).1.Failure?
  {
  }

  /** `max_retries: 0` is kept rather than replaced by the configured budget. */
  lemma ZeroMaxRetriesKept(global: Liteapi.State, env: Option<string>, args: ClientArgs)
    requires args.maxRetries == Some(0)
    requires New(global, env, args).1.Success?
    ensures New(global, env, args).1.value.settings.maxRetries == Some(0)
  {
    var resolved := Resolve(args, Liteapi.CurrentConfiguration(global, env).1);
    assert Read(resolved, MaxRetries) == Number(Some(0));
  }

  /** With `LITEAPI_API_KEY` unset and the configuration reset, `Client.new`
      without arguments fails before any connection exists. */
  lemma MissingApiKeyRejected(global: Liteapi.State)
    ensures var reset := Liteapi.ResetConfiguration(global, None);
      var noArgs := Config(None, None, None, None, None, None, None);
      New(reset, None, noArgs).1.Failure?
  {
  }
}
