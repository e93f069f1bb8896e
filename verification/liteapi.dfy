/** The process-wide default configuration (lib/liteapi.rb): a lazily
    created `Configuration` that `configure` mutates and
    `reset_configuration!` replaces. The value of `LITEAPI_API_KEY` at the
    moment a default is created is passed in as `env`. */
module Liteapi {
  import opened Wrappers
  import opened Configuration

  /** `@configuration` on the `Liteapi` module; `None` before first use. */
  datatype State = State(configuration: Option<Config>)

  /** `Liteapi.configuration`: creates the default on first access and
      returns the stored object from then on. */
  function CurrentConfiguration(s: State, env: Option<string>): (r: (State, Config))
    ensures r.0.configuration == Some(r.1)
    ensures s.configuration.Some? ==> r.0 == s && r.1 == s.configuration.value
    ensures s.configuration.None? ==> r.1 == New(env)
  {
    match s.configuration
    case Some(c) => (s, c)
    case None => var c := New(env); (State(Some(c)), c)
  }

  /** `Liteapi.configure { |c| ... }`: the block receives the current
      configuration object and its attribute writes land on that object. */
  function Configure(s: State, env: Option<string>, writes: seq<Write>): (s': State)
    ensures s'.configuration.Some?
    ensures forall a ::
              Read(s'.configuration.value, a) == LastWrite(writes, a).GetOr(Read(CurrentConfiguration(s, env).1, a))
  {
    var c := CurrentConfiguration(s, env).1;
    forall a ensures Read(ApplyAll(c, writes), a) == LastWrite(writes, a).GetOr(Read(c, a)) {
      ApplyAllLastWriteWins(c, writes, a);
    }
    State(Some(ApplyAll(c, writes)))
  }

  /** `Liteapi.reset_configuration!`: a fresh default, whatever came before. */
  function ResetConfiguration(s: State, env: Option<string>): (s': State)
    ensures s'.configuration == Some(New(env))
  {
    State(Some(New(env)))
  }

  /** `Liteapi.configuration = c`: the stored object is replaced wholesale
      (`None` makes the next access create a fresh default). */
  function AssignConfiguration(s: State, c: Option<Config>): (s': State)
    ensures s'.configuration == c
  {
    State(c)
  }

  /** Once created, the configuration is the same object on every access,
      even if the environment has changed since. */
  lemma ConfigurationIsMemoised(s: State, env: Option<string>, laterEnv: Option<string>)
    ensures var (s1, c1) := CurrentConfiguration(s, env);
      CurrentConfiguration(s1, laterEnv) == (s1, c1)
  {
  }

  /** Writes made in a `configure` block are what `configuration` returns next. */
  lemma ConfigureIsVisible(s: State, env: Option<string>, writes: seq<Write>, laterEnv: Option<string>)
    ensures CurrentConfiguration(Configure(s, env, writes), laterEnv).1 ==
      ApplyAll(CurrentConfiguration(s, env).1, writes)
  {
    var c := CurrentConfiguration(s, env).1;
    var got := CurrentConfiguration(Configure(s, env, writes), laterEnv).1;
    forall a ensures Read(got, a) == Read(ApplyAll(c, writes), a) {
      ApplyAllLastWriteWins(c, writes, a);
    }
    ReadDetermines(got, ApplyAll(c, writes));
  }

  /** `reset_configuration!` discards everything a `configure` block wrote. */
  lemma ResetDiscardsConfigure(s: State, env: Option<string>, writes: seq<Write>, resetEnv: Option<string>)
    ensures ResetConfiguration(Configure(s, env, writes), resetEnv) == ResetConfiguration(s, resetEnv)
  {
  }

  /** Two resets under the same environment are one reset. */
  lemma ResetIsIdempotent(s: State, env: Option<string>)
    ensures ResetConfiguration(ResetConfiguration(s, env), env) == ResetConfiguration(s, env)
  {
  }

  /** After `configuration = c`, `configuration` returns `c`. */
  lemma AssignIsReadBack(s: State, c: Config, env: Option<string>)
    ensures CurrentConfiguration(AssignConfiguration(s, Some(c)), env).1 == c
  {
  }

  /** With `LITEAPI_API_KEY` unset: reset, set an api key, reset again, and
      the configured api key is `nil` once more. */
  lemma ResetForgetsConfiguredApiKey(s: State)
    ensures var s1 := ResetConfiguration(s, None);
      var s2 := Configure(s1, None, [SetApiKey(Some("test_key"))]);
      CurrentConfiguration(ResetConfiguration(s2, None), None).1.apiKey.None?
  {
  }
}
