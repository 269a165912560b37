/**
 * Process environments as maps from variable name to value: the build
 * environment every builder stage starts from, the copy-then-update a
 * command's environment is made by, and the PATH prefixing of the GCC and
 * C-library stages.
 */
module Environment {
  import opened Strings
  import opened Results
  import opened Config

  type Env = map<string, string>

  /** `env.get(key, default)`. */
  function Get(env: Env, key: string, default: string): string
  {
    if key in env then env[key] else default
  }

  /** The keys the build environment sets whatever the configuration says. */
  const FlagKeys: set<string> := {"CFLAGS", "CXXFLAGS", "MAKEFLAGS"}

  /**
   * A compiler-flags variable of the build environment: the optimisation
   * level, a space, and then the user's flags when there are any, otherwise
   * what the variable held before (nothing if it was unset).
   */
  function FlagValue(optimize: string, flags: seq<string>, inherited: Env, key: string): string
  {
    "-O" + optimize + " " + (if flags != [] then Join(flags, " ") else Get(inherited, key, ""))
  }

  /**
   * The build environment as one update of the inherited environment:
   * CFLAGS, CXXFLAGS and MAKEFLAGS are always replaced, LDFLAGS only when
   * the user gave linker flags, and every other variable is inherited as is.
   */
  function BuildEnv(inherited: Env, c: BuildConfig): Env
  {
    var base := if c.ldflags != [] then inherited["LDFLAGS" := Join(c.ldflags, " ")] else inherited;
    base["CFLAGS" := FlagValue(c.optimize, c.cflags, inherited, "CFLAGS")]
        ["CXXFLAGS" := FlagValue(c.optimize, c.cxxflags, inherited, "CXXFLAGS")]
        ["MAKEFLAGS" := "-j" + IntToString(c.jobs)]
  }

  /**
   * `_prepare_build_env`: copies the inherited environment and updates it
   * key by key in the order the builder does.
   */
  method PrepareBuildEnv(inherited: Env, c: BuildConfig) returns (env: Env)
    ensures env == BuildEnv(inherited, c)
  {
    env := SetFlags(inherited, "CFLAGS", c.cflags);
    env := SetFlags(env, "CXXFLAGS", c.cxxflags);
    env := SetFlags(env, "LDFLAGS", c.ldflags);
    ghost var base := if c.ldflags != [] then inherited["LDFLAGS" := Join(c.ldflags, " ")] else inherited;
    OverwriteFlags(env, base, FlagValue(c.optimize, c.cflags, inherited, "CFLAGS"),
      FlagValue(c.optimize, c.cxxflags, inherited, "CXXFLAGS"), "-j" + IntToString(c.jobs));
    env := env["CFLAGS" := "-O" + c.optimize + " " + Get(env, "CFLAGS", "")];
    env := env["CXXFLAGS" := "-O" + c.optimize + " " + Get(env, "CXXFLAGS", "")];
    env := env["MAKEFLAGS" := "-j" + IntToString(c.jobs)];
  }

  /** Environments that differ at most in CFLAGS and CXXFLAGS agree once those and MAKEFLAGS are overwritten. */
  lemma OverwriteFlags(a: Env, b: Env, cflags: string, cxxflags: string, makeflags: string)
    requires forall k :: k != "CFLAGS" && k != "CXXFLAGS" ==> (k in a <==> k in b)
    requires forall k :: k != "CFLAGS" && k != "CXXFLAGS" && k in a ==> a[k] == b[k]
    ensures a["CFLAGS" := cflags]["CXXFLAGS" := cxxflags]["MAKEFLAGS" := makeflags] ==
            b["CFLAGS" := cflags]["CXXFLAGS" := cxxflags]["MAKEFLAGS" := makeflags]
  {
  }

  /** `if flags: env[key] = ' '.join(flags)`. */
  method SetFlags(env: Env, key: string, flags: seq<string>) returns (r: Env)
    ensures r == if flags != [] then env[key := Join(flags, " ")] else env
  {
    r := env;
    if flags != [] {
      r := r[key := Join(flags, " ")];
    }
  }

  /**
   * What the build environment is, variable by variable: it has every
   * inherited variable plus the three flag variables (and LDFLAGS with user
   * linker flags), the flag variables start with the optimisation level,
   * and everything else is the inherited value.
   */
  lemma BuildEnvContents(inherited: Env, c: BuildConfig)
    ensures var e := BuildEnv(inherited, c);
      e.Keys == inherited.Keys + FlagKeys + (if c.ldflags != [] then {"LDFLAGS"} else {}) &&
      e["CFLAGS"] == "-O" + c.optimize + " " + (if c.cflags != [] then Join(c.cflags, " ") else Get(inherited, "CFLAGS", "")) &&
      e["CXXFLAGS"] == "-O" + c.optimize + " " + (if c.cxxflags != [] then Join(c.cxxflags, " ") else Get(inherited, "CXXFLAGS", "")) &&
      e["MAKEFLAGS"] == "-j" + IntToString(c.jobs) &&
      (c.ldflags != [] ==> e["LDFLAGS"] == Join(c.ldflags, " ")) &&
      (forall k :: k in inherited && k !in FlagKeys && (k != "LDFLAGS" || c.ldflags == []) ==> e[k] == inherited[k])
  {
  }

  /** Both compiler-flag variables always carry the optimisation level first. */
  lemma FlagsStartWithOptimization(inherited: Env, c: BuildConfig)
    ensures ("-O" + c.optimize + " ") <= BuildEnv(inherited, c)["CFLAGS"]
    ensures ("-O" + c.optimize + " ") <= BuildEnv(inherited, c)["CXXFLAGS"]
  {
    var e := BuildEnv(inherited, c);
    var p := "-O" + c.optimize + " ";
    BuildEnvContents(inherited, c);
    assert e["CFLAGS"] == p + (if c.cflags != [] then Join(c.cflags, " ") else Get(inherited, "CFLAGS", ""));
    assert e["CXXFLAGS"] == p + (if c.cxxflags != [] then Join(c.cxxflags, " ") else Get(inherited, "CXXFLAGS", ""));
  }

  /**
   * `run_command`'s environment: a copy of the process environment updated
   * with the caller's variables; no variables (None or an empty dict) means
   * the process environment itself.
   */
  function Overlay(base: Env, env: Option<Env>): (r: Env)
    ensures r.Keys == base.Keys + (if env.Some? then env.value.Keys else {})
    ensures env.Some? ==> forall k :: k in env.value ==> r[k] == env.value[k]
    ensures forall k :: k in base && (env.None? || k !in env.value) ==> r[k] == base[k]
  {
    match env
    case None => base
    case Some(e) => base + e
  }

  /**
   * A builder command run with the build environment sees exactly the build
   * environment: every inherited variable is already in it, so the overlay
   * adds nothing back.
   */
  lemma OverlayBuildEnv(inherited: Env, c: BuildConfig)
    ensures Overlay(inherited, Some(BuildEnv(inherited, c))) == BuildEnv(inherited, c)
  {
    var e := BuildEnv(inherited, c);
    BuildEnvContents(inherited, c);
    assert inherited.Keys <= e.Keys;
    assert (inherited + e).Keys == e.Keys;
  }

  /**
   * `env['PATH'] = f"{prefix/'bin'}:{env['PATH']}"` on a copy of `env`; a
   * missing PATH raises KeyError.
   */
  function PrependPath(env: Env, prefix: string): (r: Result<Env>)
    ensures r.Failure? <==> "PATH" !in env
    ensures r.Failure? ==> r.error == MissingVariable("PATH")
    ensures r.Success? ==> r.value.Keys == env.Keys
    ensures r.Success? ==> r.value["PATH"] == JoinPath(prefix, "bin") + ":" + env["PATH"]
    ensures r.Success? ==> forall k :: k in env && k != "PATH" ==> r.value[k] == env[k]
  {
    if "PATH" !in env then Failure(MissingVariable("PATH"))
    else Success(env["PATH" := JoinPath(prefix, "bin") + ":" + env["PATH"]])
  }
}
