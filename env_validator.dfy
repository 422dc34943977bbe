/**
 * Start-up environment checks (api/utils/env_validator.py): which
 * variables must be set, the messages for the missing ones, and filling in
 * the optional ones. The process environment is a class whose variable map
 * load_defaults updates in place.
 */
module EnvValidator {
  import opened Text

  /** REQUIRED_VARS: name and description, in declaration order. */
  const RequiredVars: seq<(string, string)> := [
    ("SUPABASE_URL", "Supabase project URL"),
    ("SUPABASE_KEY", "Supabase anon key for client-side operations"),
    ("SUPABASE_SERVICE_ROLE_KEY", "Supabase service role key for admin operations"),
    ("ELEVENLABS_API_KEY", "ElevenLabs API key for text-to-speech"),
    ("HUGGINGFACE_API_TOKEN", "Hugging Face API token for ML models"),
    ("OPENAI_API_KEY", "OpenAI API key for story generation"),
    ("SECRET_KEY", "Secret key for JWT encryption")
  ]

  /** OPTIONAL_VARS: name and default, in declaration order. */
  const OptionalVars: seq<(string, string)> := [
    ("PORT", "8000"), ("ENVIRONMENT", "development"), ("LOG_LEVEL", "INFO"), ("CORS_ORIGINS", "*")
  ]

  /** PRODUCTION_ONLY_VARS */
  const ProductionOnlyVars: seq<string> := ["SENTRY_DSN", "REDIS_URL"]

  /** A variable counts as set when it is present and non-empty. */
  predicate IsSet(env: map<string, string>, name: string) {
    name in env && env[name] != ""
  }

  function RequiredMessage(v: (string, string)): string {
    "Missing required environment variable: " + v.0 + " (" + v.1 + ")"
  }

  function ProductionMessage(name: string): string {
    "Missing production-required environment variable: " + name
  }

  /** The messages for the required variables that are not set, in order. */
  function MissingRequired(env: map<string, string>, vars: seq<(string, string)>): (errs: seq<string>)
    ensures |errs| <= |vars|
    ensures errs == [] <==> forall i | 0 <= i < |vars| :: IsSet(env, vars[i].0)
  {
    if vars == [] then []
    else MissingRequired(env, vars[..|vars| - 1]) +
         (if IsSet(env, vars[|vars| - 1].0) then [] else [RequiredMessage(vars[|vars| - 1])])
  }

  /** The messages for the production-only variables that are not set, in order. */
  function MissingProduction(env: map<string, string>, names: seq<string>): (errs: seq<string>)
    ensures |errs| <= |names|
    ensures errs == [] <==> forall i | 0 <= i < |names| :: IsSet(env, names[i])
  {
    if names == [] then []
    else MissingProduction(env, names[..|names| - 1]) +
         (if IsSet(env, names[|names| - 1]) then [] else [ProductionMessage(names[|names| - 1])])
  }

  /** The list validate_environment returns. */
  function Expected(env: map<string, string>, isProduction: bool): seq<string> {
    MissingRequired(env, RequiredVars) + (if isProduction then MissingProduction(env, ProductionOnlyVars) else [])
  }

  /** No message at all exactly when every required and, in production, every production-only variable is set. */
  lemma {:induction false} ExpectedEmpty(env: map<string, string>, isProduction: bool)
    ensures Expected(env, isProduction) == [] <==>
      (forall i | 0 <= i < |RequiredVars| :: IsSet(env, RequiredVars[i].0)) &&
      (isProduction ==> forall i | 0 <= i < |ProductionOnlyVars| :: IsSet(env, ProductionOnlyVars[i]))
  {
    var required := MissingRequired(env, RequiredVars);
    var production := if isProduction then MissingProduction(env, ProductionOnlyVars) else [];
    assert Expected(env, isProduction) == required + production;
    assert required + production == [] <==> required == [] && production == [];
  }

  /** The first loop of validate_environment: a message per unset variable of `vars`, in order. */
  method ReportMissingRequired(env: map<string, string>, vars: seq<(string, string)>) returns (errors: seq<string>)
    ensures errors == MissingRequired(env, vars)
  {
    errors := [];
    var i := 0;
    while i < |vars|
      invariant 0 <= i <= |vars|
      invariant errors == MissingRequired(env, vars[..i])
      decreases |vars| - i
    {
      var (name, description) := vars[i];
      if name !in env || env[name] == "" {
        errors := errors + [RequiredMessage((name, description))];
      }
      assert vars[..i + 1][..i] == vars[..i];
      i := i + 1;
    }
    assert vars[..i] == vars;
  }

  /** The second loop of validate_environment: a message per unset name of `names`, in order. */
  method ReportMissingProduction(env: map<string, string>, names: seq<string>) returns (errors: seq<string>)
    ensures errors == MissingProduction(env, names)
  {
    errors := [];
    var j := 0;
    while j < |names|
      invariant 0 <= j <= |names|
      invariant errors == MissingProduction(env, names[..j])
      decreases |names| - j
    {
      var name := names[j];
      if name !in env || env[name] == "" {
        errors := errors + [ProductionMessage(name)];
      }
      assert names[..j + 1][..j] == names[..j];
      j := j + 1;
    }
    assert names[..j] == names;
  }

  /**
   * validate_environment: one message per unset required variable, then,
   * in production mode only, one per unset production-only variable.
   */
  method ValidateEnvironment(env: map<string, string>, isProduction: bool) returns (errors: seq<string>)
    ensures errors == Expected(env, isProduction)
    ensures errors == [] <==>
      (forall i | 0 <= i < |RequiredVars| :: IsSet(env, RequiredVars[i].0)) &&
      (isProduction ==> forall i | 0 <= i < |ProductionOnlyVars| :: IsSet(env, ProductionOnlyVars[i]))
  {
    errors := ReportMissingRequired(env, RequiredVars);
    if isProduction {
      var production := ReportMissingProduction(env, ProductionOnlyVars);
      errors := errors + production;
    }
    ExpectedEmpty(env, isProduction);
  }

  /** Messages of a concatenation are the concatenated messages. */
  lemma {:induction false} MissingRequiredAppend(env: map<string, string>, a: seq<(string, string)>, b: seq<(string, string)>)
    ensures MissingRequired(env, a + b) == MissingRequired(env, a) + MissingRequired(env, b)
    decreases |b|
  {
    if b != [] {
      var b' := b[..|b| - 1];
      assert (a + b)[..|a + b| - 1] == a + b';
      MissingRequiredAppend(env, a, b');
    } else {
      assert a + b == a;
    }
  }

  /** An environment holding exactly the seven required variables, each with the given value. */
  function CompleteEnv(value: string): map<string, string> {
    map["SUPABASE_URL" := value, "SUPABASE_KEY" := value, "SUPABASE_SERVICE_ROLE_KEY" := value,
        "ELEVENLABS_API_KEY" := value, "HUGGINGFACE_API_TOKEN" := value, "OPENAI_API_KEY" := value,
        "SECRET_KEY" := value]
  }

  /** With every required variable set, validation reports nothing. */
  lemma {:induction false} CompleteEnvIsValid(value: string)
    requires value != ""
    ensures Expected(CompleteEnv(value), false) == []
  {
    var env := CompleteEnv(value);
    assert forall i | 0 <= i < |RequiredVars| :: IsSet(env, RequiredVars[i].0);
  }

  /** When exactly one listed variable is unset, exactly its message is reported. */
  lemma {:induction false} OnlyOneMissing(env: map<string, string>, vars: seq<(string, string)>, k: nat)
    requires k < |vars|
    requires forall i | 0 <= i < |vars| :: IsSet(env, vars[i].0) <==> i != k
    ensures MissingRequired(env, vars) == [RequiredMessage(vars[k])]
  {
    var front, back := vars[..k], vars[k + 1..];
    assert MissingRequired(env, front) == [] by {
      forall i | 0 <= i < |front|
        ensures IsSet(env, front[i].0)
      {
        assert front[i] == vars[i];
      }
    }
    assert MissingRequired(env, back) == [] by {
      forall i | 0 <= i < |back|
        ensures IsSet(env, back[i].0)
      {
        assert back[i] == vars[k + 1 + i];
      }
    }
    assert MissingRequired(env, [vars[k]]) == [RequiredMessage(vars[k])] by {
      assert !IsSet(env, vars[k].0);
      assert [vars[k]][..0] == [];
    }
    assert vars == front + ([vars[k]] + back);
    MissingRequiredAppend(env, [vars[k]], back);
    MissingRequiredAppend(env, front, [vars[k]] + back);
  }

  /** Without ELEVENLABS_API_KEY, exactly one required variable is reported. */
  lemma {:induction false} OneRequiredMissing(value: string)
    requires value != ""
    ensures |MissingRequired(CompleteEnv(value) - {"ELEVENLABS_API_KEY"}, RequiredVars)| == 1
  {
    var dropped := CompleteEnv(value) - {"ELEVENLABS_API_KEY"};
    forall i | 0 <= i < |RequiredVars|
      ensures IsSet(dropped, RequiredVars[i].0) <==> i != 3
    {
      var name := RequiredVars[i].0;
      if i == 3 {
        assert name !in dropped;
      } else {
        assert name != "ELEVENLABS_API_KEY" by {
          assert name[0] != 'E';
        }
        assert name in CompleteEnv(value) && CompleteEnv(value)[name] == value;
      }
    }
    OnlyOneMissing(dropped, RequiredVars, 3);
  }

  /** An environment with neither production-only variable gets both reported. */
  lemma {:induction false} BothProductionMissing(env: map<string, string>)
    requires "SENTRY_DSN" !in env && "REDIS_URL" !in env
    ensures |MissingProduction(env, ProductionOnlyVars)| == 2
  {
    var first := ProductionOnlyVars[..1];
    assert first == ["SENTRY_DSN"] && first[..0] == [];
    assert MissingProduction(env, first) == [ProductionMessage("SENTRY_DSN")];
  }

  /**
   * The three expectations about validation: every required variable set
   * gives no message; dropping ELEVENLABS_API_KEY gives exactly one; in
   * production mode the two production-only variables add two more.
   */
  lemma {:induction false} ValidationScenarios(value: string)
    requires value != ""
    ensures Expected(CompleteEnv(value), false) == []
    ensures |Expected(CompleteEnv(value) - {"ELEVENLABS_API_KEY"}, false)| == 1
    ensures |Expected(CompleteEnv(value) - {"ELEVENLABS_API_KEY"}, true)| == 3
  {
    CompleteEnvIsValid(value);
    OneRequiredMissing(value);
    BothProductionMissing(CompleteEnv(value) - {"ELEVENLABS_API_KEY"});
  }

  /** Production mode: ENVIRONMENT, lower-cased, is "production"; a missing variable counts as "". */
  predicate IsProduction(env: map<string, string>) {
    "ENVIRONMENT" in env && ToLower(env["ENVIRONMENT"]) == "production"
  }

  /** What check_and_warn ends with: exiting, continuing with warnings, or success in a mode. */
  datatype CheckVerdict = Exits(errors: seq<string>) | Warns(errors: seq<string>) | Succeeds(mode: string)

  /**
   * check_and_warn: validates in production mode when ENVIRONMENT says so;
   * any message makes it exit when asked to, else only warn; otherwise it
   * reports success with the mode's name.
   */
  function CheckAndWarn(env: map<string, string>, exitOnError: bool): (v: CheckVerdict)
    ensures v.Succeeds? <==> Expected(env, IsProduction(env)) == []
    ensures v.Succeeds? ==> v.mode == (if IsProduction(env) then "PRODUCTION" else "DEVELOPMENT")
    ensures v.Exits? <==> exitOnError && Expected(env, IsProduction(env)) != []
    ensures !v.Succeeds? ==> v.errors == Expected(env, IsProduction(env))
  {
    var errors := Expected(env, IsProduction(env));
    if errors == [] then Succeeds(if IsProduction(env) then "PRODUCTION" else "DEVELOPMENT")
    else if exitOnError then Exits(errors)
    else Warns(errors)
  }

  /** The names of a variable list. */
  function Names(vars: seq<(string, string)>): (names: set<string>)
    ensures forall i | 0 <= i < |vars| :: vars[i].0 in names
    ensures forall k | k in names :: exists i | 0 <= i < |vars| :: vars[i].0 == k
  {
    if vars == [] then {} else Names(vars[..|vars| - 1]) + {vars[|vars| - 1].0}
  }

  /** The environment after load_defaults: each unset optional variable takes its default. */
  function WithDefaults(env: map<string, string>, vars: seq<(string, string)>): map<string, string>
  {
    if vars == [] then env
    else
      var (name, default) := vars[|vars| - 1];
      var before := WithDefaults(env, vars[..|vars| - 1]);
      if IsSet(before, name) then before else before[name := default]
  }

  /** What load_defaults changes: only unset optional variables, each to a non-empty default. */
  lemma {:induction false} WithDefaultsEffect(env: map<string, string>, vars: seq<(string, string)>)
    requires forall i | 0 <= i < |vars| :: vars[i].1 != ""
    ensures WithDefaults(env, vars).Keys == env.Keys + Names(vars)
    ensures forall k | IsSet(env, k) :: WithDefaults(env, vars)[k] == env[k]
    ensures forall k | k in env && k !in Names(vars) :: WithDefaults(env, vars)[k] == env[k]
    ensures forall i | 0 <= i < |vars| :: IsSet(WithDefaults(env, vars), vars[i].0)
    decreases |vars|
  {
    if vars != [] {
      var init := vars[..|vars| - 1];
      assert forall i | 0 <= i < |init| :: init[i] == vars[i];
      WithDefaultsEffect(env, init);
    }
  }

  /** Applying the defaults twice is the same as once. */
  lemma {:induction false} WithDefaultsIdempotent(env: map<string, string>, vars: seq<(string, string)>)
    requires forall i | 0 <= i < |vars| :: vars[i].1 != ""
    ensures WithDefaults(WithDefaults(env, vars), vars) == WithDefaults(env, vars)
  {
    var once := WithDefaults(env, vars);
    WithDefaultsEffect(env, vars);
    SetVariablesUnchanged(once, vars);
  }

  /** When every listed variable is already set, applying the defaults changes nothing. */
  lemma {:induction false} SetVariablesUnchanged(env: map<string, string>, vars: seq<(string, string)>)
    requires forall i | 0 <= i < |vars| :: IsSet(env, vars[i].0)
    ensures WithDefaults(env, vars) == env
    decreases |vars|
  {
    if vars != [] {
      var init := vars[..|vars| - 1];
      forall i | 0 <= i < |init|
        ensures IsSet(env, init[i].0)
      {
        assert init[i] == vars[i];
      }
      SetVariablesUnchanged(env, init);
    }
  }

  /** The process environment (os.environ). */
  class Environment {
    var vars: map<string, string>

    constructor(initial: map<string, string>)
      ensures vars == initial
    {
      vars := initial;
    }

    /**
     * load_defaults: sets every optional variable that is missing or empty
     * to its default; everything else is left as it was.
     */
    method LoadDefaults()
      modifies this
      ensures vars == WithDefaults(old(vars), OptionalVars)
      ensures forall i | 0 <= i < |OptionalVars| :: IsSet(vars, OptionalVars[i].0)
      ensures forall k | IsSet(old(vars), k) :: k in vars && vars[k] == old(vars)[k]
    {
      ghost var env := vars;
      var i := 0;
      while i < |OptionalVars|
        invariant 0 <= i <= |OptionalVars|
        invariant vars == WithDefaults(env, OptionalVars[..i])
        decreases |OptionalVars| - i
      {
        var (name, default) := OptionalVars[i];
        if name !in vars || vars[name] == "" {
          vars := vars[name := default];
        }
        assert OptionalVars[..i + 1][..i] == OptionalVars[..i];
        i := i + 1;
      }
      assert OptionalVars[..i] == OptionalVars;
      WithDefaultsEffect(env, OptionalVars);
    }
  }
}
