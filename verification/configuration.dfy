/** `Liteapi::Configuration` (lib/liteapi/configuration.rb): the seven
    settings, their defaults, and attribute writes through the accessors. */
module Configuration {
  import opened Wrappers

  const DefaultBaseUrl: string := "https://api.liteapi.travel/v3.0"
  const DefaultBookBaseUrl: string := "https://book.liteapi.travel/v3.0"
  const DefaultDashboardBaseUrl: string := "https://da.liteapi.travel"
  const DefaultTimeout: int := 30
  const DefaultOpenTimeout: int := 10
  const DefaultMaxRetries: int := 3

  /** Every attribute is an `attr_accessor`, so any of them may hold `nil` (`None`). */
  datatype Config = Config(
    apiKey: Option<string>,
    baseUrl: Option<string>,
    bookBaseUrl: Option<string>,
    dashboardBaseUrl: Option<string>,
    timeout: Option<int>,
    openTimeout: Option<int>,
    maxRetries: Option<int>)

  /** The attribute names, for stating facts about all of them at once. */
  datatype Attribute = ApiKey | BaseUrl | BookBaseUrl | DashboardBaseUrl | Timeout | OpenTimeout | MaxRetries

  /** The value of one attribute: a string setting or a numeric one. */
  datatype Value = Str(text: Option<string>) | Number(number: Option<int>) {
    predicate IsNil() {
      (Str? && text.None?) || (Number? && number.None?)
    }
  }

  /** The attribute reader. */
  function Read(c: Config, a: Attribute): Value {
    match a
    case ApiKey => Str(c.apiKey)
    case BaseUrl => Str(c.baseUrl)
    case BookBaseUrl => Str(c.bookBaseUrl)
    case DashboardBaseUrl => Str(c.dashboardBaseUrl)
    case Timeout => Number(c.timeout)
    case OpenTimeout => Number(c.openTimeout)
    case MaxRetries => Number(c.maxRetries)
  }

  /** Two configurations are equal exactly when every attribute reads the same. */
  lemma ReadDetermines(c: Config, d: Config)
    requires forall a :: Read(c, a) == Read(d, a)
    ensures c == d
  {
    assert Read(c, ApiKey) == Read(d, ApiKey);
    assert Read(c, BaseUrl) == Read(d, BaseUrl);
    assert Read(c, BookBaseUrl) == Read(d, BookBaseUrl);
    assert Read(c, DashboardBaseUrl) == Read(d, DashboardBaseUrl);
    assert Read(c, Timeout) == Read(d, Timeout);
    assert Read(c, OpenTimeout) == Read(d, OpenTimeout);
    assert Read(c, MaxRetries) == Read(d, MaxRetries);
  }

  /** `Configuration.new`, with the value of the `LITEAPI_API_KEY` environment
      variable passed in (`None` when unset). */
  function New(env: Option<string>): (c: Config)
    ensures Read(c, ApiKey) == Str(env)
    ensures forall a :: a != ApiKey ==> !Read(c, a).IsNil()
    ensures c.baseUrl == Some(DefaultBaseUrl)
    ensures c.bookBaseUrl == Some(DefaultBookBaseUrl)
    ensures c.dashboardBaseUrl == Some(DefaultDashboardBaseUrl)
    ensures c.timeout == Some(DefaultTimeout)
    ensures c.openTimeout == Some(DefaultOpenTimeout)
    ensures c.maxRetries == Some(DefaultMaxRetries)
  {
    Config(env, Some(DefaultBaseUrl), Some(DefaultBookBaseUrl), Some(DefaultDashboardBaseUrl),
           Some(DefaultTimeout), Some(DefaultOpenTimeout), Some(DefaultMaxRetries))
  }

  /** Fresh defaults depend on the environment only through the api key. */
  lemma DefaultsIgnoreEnvExceptApiKey(env1: Option<string>, env2: Option<string>, a: Attribute)
    requires a != ApiKey
    ensures Read(New(env1), a) == Read(New(env2), a)
  {
  }

  /** One attribute writer call, e.g. `config.timeout = 60`. */
  datatype Write =
    | SetApiKey(apiKey: Option<string>)
    | SetBaseUrl(baseUrl: Option<string>)
    | SetBookBaseUrl(bookBaseUrl: Option<string>)
    | SetDashboardBaseUrl(dashboardBaseUrl: Option<string>)
    | SetTimeout(timeout: Option<int>)
    | SetOpenTimeout(openTimeout: Option<int>)
    | SetMaxRetries(maxRetries: Option<int>)

  function Target(w: Write): Attribute {
    match w
    case SetApiKey(_) => ApiKey
    case SetBaseUrl(_) => BaseUrl
    case SetBookBaseUrl(_) => BookBaseUrl
    case SetDashboardBaseUrl(_) => DashboardBaseUrl
    case SetTimeout(_) => Timeout
    case SetOpenTimeout(_) => OpenTimeout
    case SetMaxRetries(_) => MaxRetries
  }

  function Written(w: Write): Value {
    match w
    case SetApiKey(v) => Str(v)
    case SetBaseUrl(v) => Str(v)
    case SetBookBaseUrl(v) => Str(v)
    case SetDashboardBaseUrl(v) => Str(v)
    case SetTimeout(v) => Number(v)
    case SetOpenTimeout(v) => Number(v)
    case SetMaxRetries(v) => Number(v)
  }

  /** Applying one writer: the written attribute reads back the written value
      and every other attribute is unchanged, so the seven attributes are
      independently writable. */
  function Apply(c: Config, w: Write): (c': Config)
    ensures Read(c', Target(w)) == Written(w)
    ensures forall a :: a != Target(w) ==> Read(c', a) == Read(c, a)
  {
    match w
    case SetApiKey(v) => c.(apiKey := v)
    case SetBaseUrl(v) => c.(baseUrl := v)
    case SetBookBaseUrl(v) => c.(bookBaseUrl := v)
    case SetDashboardBaseUrl(v) => c.(dashboardBaseUrl := v)
    case SetTimeout(v) => c.(timeout := v)
    case SetOpenTimeout(v) => c.(openTimeout := v)
    case SetMaxRetries(v) => c.(maxRetries := v)
  }

  /** The writes of a `configure` block, in order. */
  function ApplyAll(c: Config, ws: seq<Write>): Config
    decreases |ws|
  {
    if |ws| == 0 then c else ApplyAll(Apply(c, ws[0]), ws[1..])
  }

  /** The value of the last write to `a` in `ws`, if any. */
  function LastWrite(ws: seq<Write>, a: Attribute): Option<Value>
    decreases |ws|
  {
    if |ws| == 0 then None
    else if Target(ws[|ws| - 1]) == a then Some(Written(ws[|ws| - 1]))
    else LastWrite(ws[..|ws| - 1], a)
  }

  /** After a sequence of writes each attribute holds the value of its last
      write, or its earlier value when no write touched it. */
  lemma {:induction false} ApplyAllLastWriteWins(c: Config, ws: seq<Write>, a: Attribute)
    ensures Read(ApplyAll(c, ws), a) == LastWrite(ws, a).GetOr(Read(c, a))
    decreases |ws|
  {
    if |ws| > 0 {
      var last := ws[|ws| - 1];
      var init := ws[..|ws| - 1];
      ApplyAllSnoc(c, init, last);
      assert ws == init + [last];
      ApplyAllLastWriteWins(c, init, a);
    }
  }

  /** Running `ws` then `w` is running `ws + [w]`. */
  lemma {:induction false} ApplyAllSnoc(c: Config, ws: seq<Write>, w: Write)
    ensures ApplyAll(c, ws + [w]) == Apply(ApplyAll(c, ws), w)
    decreases |ws|
  {
    if |ws| == 0 {
      assert ws + [w] == [w];
      assert [w][1..] == [];
    } else {
      assert (ws + [w])[1..] == ws[1..] + [w];
      ApplyAllSnoc(Apply(c, ws[0]), ws[1..], w);
    }
  }
}
