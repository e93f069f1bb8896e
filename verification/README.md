# liteapi-ruby-sdk transport core in Dafny

A model of the part of the liteAPI Ruby SDK that does more than map a method
to a URL path. It has four pieces:

- **Response classifier** (`Liteapi::Connection`). `handle_response` turns
  an HTTP status and an optional parsed JSON body into either the body's
  `data` payload or one typed exception. `error_message` picks that
  exception's message with a three-step fallback. `request` turns Faraday
  timeouts and connection failures into plain `Liteapi::Error`s.
- **Error hierarchy** (`errors.rb`): `Error`, then `APIError`, then
  `ClientError` / `ServerError`, then the four status-specific client
  errors, plus the `status`, `code` and `response` attributes of an
  `APIError`.
- **Client** (`Liteapi::Client`):
  - the merge of constructor arguments over the global configuration, with
    a nil-only fallback;
  - api-key validation;
  - three lazily built, memoised connections that differ only in base URL;
  - routing of the eight request helpers to those connections.
- **Global configuration** (`Liteapi::Configuration` and the `Liteapi`
  module). `Configuration.new` sets the defaults. The module's lazily
  created `configuration` is what `configure` writes to, and
  `reset_configuration!` and `configuration=` replace it.

Ruby values are modelled as follows:

- Ruby `nil` and JSON `null` are `Json.JNull`.
- Ruby `||` is `Json.Or`, which falls back on `nil` and `false`. For
  `Option`-typed settings it is `Option.OrElse`, which falls back only on
  `nil`.
- Mutation is modelled by state-passing functions:
  - `Liteapi.State` stands for the module's `@configuration`.
  - `Client.Client` holds the three connection instance variables as
    `Option` slots.
- The value of the `LITEAPI_API_KEY` environment variable is a parameter
  `env: Option<string>`.
- The HTTP exchange is a parameter `net: Connection.Network`. It maps a
  connection and a request to a timeout, a connection failure, or a status
  with a parsed body.

Files:

| file | module | content |
|---|---|---|
| wrappers.dfy | Wrappers | `Option`, `Result` |
| json.dfy | Json | JSON values, Ruby truthiness, `Hash#[]`, `Hash#dig` |
| text.dfy | Text | `Integer#to_s` and its inverse |
| errors.dfy | Errors | the exception classes and exception values |
| connection.dfy | Connection | `handle_response`, `error_message`, `request`, `RETRY_STATUSES` |
| configuration.dfy | Configuration | `Configuration` defaults and attribute writers |
| liteapi.dfy | Liteapi | `configuration`, `configure`, `reset_configuration!`, `configuration=` |
| client.dfy | Client | `Client#initialize`, `validate_api_key!`, memoised connections, request helpers |

## Model

| member | source | states |
|---|---|---|
| Json.Dig | lib/liteapi/connection.rb:59 | `body.dig('error', k)` is `nil` when `error` is nil, the inner value when `error` is a Hash, and a `TypeError` otherwise (iff) |
| Json.DigOrNil | lib/liteapi/connection.rb:107 | agrees with `Dig` wherever `Dig` returns a value, and reads a non-Hash `error` as `nil` |
| Connection.Defaulted | lib/liteapi/connection.rb:50 | `response.body \|\| {}`: a nil body becomes the empty object, any other body is kept |
| Connection.ErrorMessage | lib/liteapi/connection.rb:106-108 | the message is the first truthy value of `error.message`, top-level `message`, "Unknown error"; it is always truthy, so never nil |
| Connection.EmptyErrorMessageKept | lib/liteapi/connection.rb:107 | a present empty `error.message` is the message (Ruby `""` is truthy) |
| Connection.ErrorMessageFallback | lib/liteapi/connection.rb:107 | each of the three steps is taken exactly when the earlier ones are nil or false |
| Connection.ErrorClassFor | lib/liteapi/connection.rb:55-96 | 401, 404, 422 and 429 map to their specific classes and take precedence over 400..499 (ClientError); 500..599 map to ServerError; the result is a client error iff the status is below 500 |
| Connection.UnexpectedStatusMessage | lib/liteapi/connection.rb:99 | the message is "Unexpected response status: " followed by the status in `Integer#to_s` form (no leading zeros, no "-0"), which parses back to the status |
| Connection.UnexpectedStatusMessageInjective | lib/liteapi/connection.rb:97-102 | different unexpected statuses give different messages |
| Connection.HandleResponse | lib/liteapi/connection.rb:49-104 | success iff 2xx, and then the result is exactly `body['data']` of the defaulted body; otherwise an `APIError` with `status` set and `response` the whole defaulted body; 4xx/5xx carry the class from `ErrorClassFor`, `error_message` and `error.code`; every other status is a plain `APIError` with the unexpected-status message and nil code; client error iff 4xx, server error iff 5xx |
| Connection.RetryStatusesAreErrors | lib/liteapi/connection.rb:8 | every retried status (429, 500, 502, 503, 504) is classified as RateLimitError or ServerError, never as success |
| Connection.BuildRequest | lib/liteapi/connection.rb:32-40 | GET sends the payload as query parameters (none when empty) and no body; POST and PUT send it as the body |
| Connection.Execute | lib/liteapi/connection.rb:42-46 | a timeout gives `Error("Request timed out")`, a connection failure gives `Error("Connection failed")`, neither is an `APIError`; a response gives exactly the corrected `HandleResponse` of its status and body, so success iff a 2xx response, and the errors of responses are exactly the `APIError`s (see `ExecuteAgreesExceptOnMalformedError` for the source as written) |
| Connection.Send | lib/liteapi/connection.rb:18-47 | `get`, `post` and `put` send the request `BuildRequest` makes once; a timeout or connection failure gives the plain `Error`, a response gives `HandleResponse` of that response |
| Connection.HandleResponseAsWritten | lib/liteapi/connection.rb:49-108 | as written: success iff 2xx with the body's `data`; a `TypeError` escapes iff the status is 4xx/5xx and `dig` on `error` raises; every other outcome is a well-formed `APIError` with the status and the whole defaulted body |
| Connection.ErrorMessageAsWritten | lib/liteapi/connection.rb:106-108 | as written, `error_message` raises exactly when `dig` does, and otherwise agrees with `ErrorMessage` |
| Connection.StringErrorFieldEscapesTaxonomy | lib/liteapi/connection.rb:55-61 | a 401 whose `error` field is a string raises `TypeError` as written, where the corrected model gives an `AuthenticationError` with "Unknown error" |
| Connection.ExecuteAsWritten | lib/liteapi/connection.rb:32-47 | as written: the two rescued Faraday failures give the plain `Error`s, and a response gives `handle_response` as written, whose `TypeError` is not rescued and escapes `request` |
| Connection.ExecuteAgreesExceptOnMalformedError | lib/liteapi/connection.rb:32-108 | `request` as written lets a `TypeError` escape iff the outcome is a 4xx/5xx response whose `error` is neither nil nor a Hash; on every other outcome it returns or raises exactly what `Execute` does |
| Connection.AsWrittenAgreesExceptOnMalformedError | lib/liteapi/connection.rb:49-108 | the source raises `TypeError` iff the status is 4xx/5xx and `error` is neither nil nor a Hash; otherwise it raises or returns exactly what `HandleResponse` does |
| Errors.NewError | lib/liteapi/errors.rb:4 | a plain `Error` has the given message and no status, code or response, and is not an `APIError` |
| Errors.NewAPIError | lib/liteapi/errors.rb:9-14 | an `APIError` stores message, status, code and response as given |
| Errors.NewAPIErrorWithDefaults | lib/liteapi/errors.rb:9 | omitted `status`, `code` and `response` read back as nil |
| Errors.IsATransitive | lib/liteapi/errors.rb:4-23 | the subclass relation is transitive |
| Errors.IsADepth | lib/liteapi/errors.rb:4-23 | an ancestor is strictly shallower than a proper descendant |
| Errors.IsAAntisymmetric | lib/liteapi/errors.rb:4-23 | the subclass relation is antisymmetric, so the hierarchy is a partial order |
| Errors.EveryClassIsError | lib/liteapi/errors.rb:4-23 | every class descends from `Liteapi::Error` |
| Errors.ClientAndServerAreSiblings | lib/liteapi/errors.rb:17-18 | `ClientError` and `ServerError` are direct subclasses of `APIError`, neither is a subclass of the other, and no class is both |
| Errors.SpecificErrorsAreClientErrors | lib/liteapi/errors.rb:20-23 | the four specific classes are direct subclasses of `ClientError`, hence `APIError`s and never server errors |
| Errors.CategoryMembers | lib/liteapi/errors.rb:4-23 | the `APIError`, client-error and server-error categories listed member by member |
| Text.NatToStringRoundTrip | lib/liteapi/connection.rb:99 | the decimal rendering of a natural number parses back to it |
| Text.IntToStringRoundTrip | lib/liteapi/connection.rb:99 | `Integer#to_s` parses back to the integer, negatives included |
| Text.IntToStringInjective | lib/liteapi/connection.rb:99 | distinct integers render differently |
| Text.CanonicalNatIsToString | lib/liteapi/connection.rb:99 | digits without a leading zero (or "0") are the rendering of the number they denote |
| Text.CanonicalIsToString | lib/liteapi/connection.rb:99 | a canonical decimal string is `Integer#to_s` of the integer it denotes, so each integer has exactly one canonical rendering |
| Configuration.New | lib/liteapi/configuration.rb:8-23 | the api key is the environment value (nil when unset); base URL "https://api.liteapi.travel/v3.0", booking URL "https://book.liteapi.travel/v3.0", dashboard URL "https://da.liteapi.travel", timeout 30, open timeout 10, max retries 3; every attribute but the api key is non-nil |
| Configuration.DefaultsIgnoreEnvExceptApiKey | lib/liteapi/configuration.rb:15-23 | the environment affects only the default api key |
| Configuration.ReadDetermines | lib/liteapi/configuration.rb:5-6 | extensionality of the model's `Config` value: two values whose seven attribute readers agree are equal (Ruby compares `Configuration` objects by identity; this is about the modelled state only) |
| Configuration.Apply | lib/liteapi/configuration.rb:5-6 | a writer sets its attribute to the written value (nil included) and leaves the other six unchanged |
| Configuration.ApplyAllSnoc | lib/liteapi/configuration.rb:5-6 | running writes one after another is running them in sequence |
| Configuration.ApplyAllLastWriteWins | lib/liteapi/configuration.rb:5-6 | after a sequence of writes each attribute holds its last written value, or its earlier value if no write touched it |
| Liteapi.CurrentConfiguration | lib/liteapi.rb:19-21 | the first access creates `Configuration.new` under the current environment and stores it; later accesses return the stored object unchanged |
| Liteapi.ConfigurationIsMemoised | lib/liteapi.rb:19-21 | once created, the configuration stays the same object even if the environment changes |
| Liteapi.Configure | lib/liteapi.rb:23-25 | after `configure`, each attribute holds the block's last write to it, else its value in the current configuration |
| Liteapi.ConfigureIsVisible | lib/liteapi.rb:19-25 | `configuration` after `configure` is the current configuration with the block's writes applied |
| Liteapi.ResetConfiguration | lib/liteapi.rb:27-29 | the stored configuration becomes a fresh default under the current environment |
| Liteapi.ResetDiscardsConfigure | lib/liteapi.rb:23-29 | a reset after `configure` is the same as a reset without it |
| Liteapi.ResetIsIdempotent | lib/liteapi.rb:27-29 | with the environment unchanged, two resets equal one |
| Liteapi.ResetForgetsConfiguredApiKey | lib/liteapi.rb:23-29 | with `LITEAPI_API_KEY` unset, setting an api key between two resets leaves a nil api key |
| Liteapi.AssignConfiguration | lib/liteapi.rb:17 | `configuration=` replaces the stored object wholesale (nil included) |
| Liteapi.AssignIsReadBack | lib/liteapi.rb:17-21 | after `configuration = c`, `configuration` returns `c` |
| Client.Resolve | lib/liteapi/client.rb:19-25 | each attribute is the argument when that is non-nil, else the configured value |
| Client.ZeroMaxRetriesKept | lib/liteapi/client.rb:25 | `max_retries: 0` is kept, not replaced by the configured budget |
| Client.Validate | lib/liteapi/client.rb:32-36 | passes iff the api key is non-nil and non-empty, and then keeps every resolved attribute; otherwise raises a plain `Error` (not an `APIError`) whose message starts with "API key is required" |
| Client.New | lib/liteapi/client.rb:15-28 | reads (and so may create) the global configuration; succeeds iff the resolved api key is non-nil and non-empty, with the resolved attributes and no connection built; otherwise raises the api-key error |
| Client.ExplicitApiKeyOverrides | lib/liteapi/client.rb:19 | a non-empty `api_key:` argument is the client's api key, whatever is configured |
| Client.ConfiguredApiKeyUsed | lib/liteapi/client.rb:19 | without an `api_key:` argument, construction succeeds iff the configured key is non-empty, and then uses it |
| Client.ExplicitEmptyApiKeyFails | lib/liteapi/client.rb:19-33 | `api_key: ""` is not replaced by the configured key, so construction fails |
| Client.MissingApiKeyRejected | lib/liteapi/client.rb:15-36 | with `LITEAPI_API_KEY` unset and the configuration reset, `Client.new` fails |
| Client.Build | lib/liteapi/client.rb:38-66 | a destination's connection has the client's api key, timeouts and retry budget, and that destination's base URL |
| Client.ConnectionsDifferOnlyInBaseUrl | lib/liteapi/client.rb:38-66 | the three connections agree on everything except the base URL, which is `base_url`, `book_base_url` and `dashboard_base_url` respectively |
| Client.Access | lib/liteapi/client.rb:38-66 | `@x \|\|= Connection.new(...)`: builds iff the slot is empty; an existing connection is returned with nothing changed; only the accessed slot changes; validity is preserved and the connection returned is `Build`'s |
| Client.AccessIsIdempotent | lib/liteapi/client.rb:39 | a second access returns the same connection and builds nothing |
| Client.AccessAll | lib/liteapi/client.rb:38-66 | over any sequence of accesses: each returns `Build`'s connection for its destination, exactly the destinations used gain a connection, and the number of constructions is the number of newly filled slots, at most 3 |
| Client.RoutingIsExact | lib/liteapi/client.rb:68-98 | the eight helpers reach eight distinct (connection, verb) pairs; every pair except a dashboard PUT is reachable |
| Client.Perform | lib/liteapi/client.rb:68-98 | a helper call goes out on the connection that `Build` gives for the helper's destination, with the helper's verb, path and payload; only that destination's slot may be filled |

## Left out

- The Faraday builder (lib/liteapi/connection.rb:110-121) is not modelled:
  JSON encoding and decoding, the `X-API-Key` and `Accept` headers,
  timeout enforcement, and the choice of adapter. All of this is library
  I/O. Its effect reaches the model only as the `Transport` outcome that
  `net` returns.
- Retries (lib/liteapi/connection.rb:123-134) are not modelled: attempt
  counting, the 0.5 s interval, randomness, backoff, and which verbs the
  retry middleware retries. They happen inside the retry middleware, which
  is not part of this model. `handle_response` sees only the final
  response, and `RETRY_STATUSES` is modelled as a set of statuses.
- The endpoint modules (static_data.rb, rates.rb, booking.rb, guests.rb,
  vouchers.rb, analytics.rb) are not modelled. They only map methods to
  paths, through `prepare_query_params` and `prepare_body_params`, and
  those helpers are not part of this model.
- A parsed body that is not a JSON object or nil (an array, a string, a
  number, `false`) is not modelled. `raw` is an `Option<Object>`.
  JSON numbers are integers only. In the source, a body with a non-JSON
  content type stays a String. On a 4xx/5xx, `error_message` then calls
  `String#dig` and raises `NoMethodError`, which matters for a gateway's
  HTML 502/503/504, all retry statuses. On a 2xx, `String#[]('data')`
  returns "data" or nil. An Array body makes `body['data']` raise
  `TypeError`.
- Float values are not modelled. `timeout`, `open_timeout` and
  `max_retries` are integers here, while Ruby would accept floats.
- Connection.Execute: only the two outcomes `request` rescues (a Faraday
  timeout and a connection failure) and a response are modelled. Any other
  exception from the HTTP stack (a `Faraday::ParsingError` from the JSON
  middleware on a malformed body, a `Faraday::SSLError`, and so on)
  propagates out of `request` unchanged and is not a `Liteapi::Error`. It
  has no `Transport` outcome here, so `Execute`, `Send` and
  `Client.Perform` say nothing about it. `Execute` also composes the
  corrected `HandleResponse`. On a 4xx/5xx response whose `error` field is
  neither nil nor an object, it gives an `APIError` where the source's
  `request` lets `TypeError` escape. `ExecuteAsWritten` models the source
  here, and `ExecuteAgreesExceptOnMalformedError` bounds the difference.
- Connection.Send: built on `Execute`, so a 4xx/5xx response whose `error`
  field is neither nil nor an object gives an `APIError`. The source's
  `get`/`post`/`put` raise `TypeError` there (see
  `ExecuteAgreesExceptOnMalformedError`).
- Client.Perform: its outcome is `Send`'s, so the request helpers inherit
  the same difference. A 4xx/5xx whose `error` field is not an object gives
  an `APIError` here, while the source raises `TypeError`.
- Connection.HandleResponse: the message is kept as the JSON value
  `error_message` returns. `Exception#message` would convert a non-string
  value to text, and that conversion is not modelled.
- Client.Resolve: the arguments are `Option`s, so only `nil` falls back.
  Passing `false` for a setting, which Ruby's `||` would also replace, is
  not modelled.
- Liteapi.Configure: the block is modelled as a sequence of attribute
  writes. Other effects of the block, and `configure`'s return value (the
  block's value), are not modelled.
- Concurrent first access to any `||=` memoisation is not modelled. The
  model is sequential.
- Reading `ENV` is not modelled directly. The value of `LITEAPI_API_KEY`
  at the moment a default configuration is created is the `env` parameter.
- `Connection#initialize`'s storage of its keyword arguments is not
  modelled as a separate step. It is the `Connection.Connection` record
  itself.

## Findings

| source | as written | input that shows it | evidently intended | confidence | as-written member | corrected member |
|---|---|---|---|---|---|---|
| lib/liteapi/connection.rb:59-107 | `body.dig('error', 'message')` and `body.dig('error', 'code')` raise Ruby's `TypeError` when the body's `error` field is present but not a Hash, so a 4xx/5xx escapes the SDK's own exception hierarchy | status 401 with body `{"error": "Invalid API key"}` | the documented `AuthenticationError` (status 401) with message "Unknown error", treating a non-Hash `error` as absent | not executed | Connection.StringErrorFieldEscapesTaxonomy | Connection.HandleResponse |
