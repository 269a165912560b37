/**
 * The LLVM toolchain build: the LLVM sources, then one stage configuring
 * with CMake for Ninja, building and installing. The C library step of
 * this builder does nothing, so the build's outcome does not depend on the
 * C library configured.
 */
module LlvmToolchain {
  import opened Strings
  import opened Results
  import opened Target
  import opened Config
  import opened Environment
  import opened Host
  import opened Sources
  import opened GccToolchain

  /** The backends built when the architecture is unknown or empty. */
  const FallbackTargets: string := "X86;AArch64;ARM;RISCV"

  /** The architecture-to-backend table of `_get_llvm_target`. */
  const BackendTable: map<string, string> := map[
    "x86_64" := "X86",
    "i386" := "X86",
    "i686" := "X86",
    "aarch64" := "AArch64",
    "arm" := "ARM",
    "riscv32" := "RISCV",
    "riscv64" := "RISCV",
    "mips" := "Mips",
    "powerpc" := "PowerPC"]

  /** `_get_llvm_target`: the table entry of the lower-cased architecture, or the fallback. */
  function LlvmTarget(arch: string): (r: string)
    ensures r == FallbackTargets <==> Lower(arch) !in BackendTable
    ensures r in BackendTable.Values || r == FallbackTargets
  {
    var key := Lower(arch);
    if key in BackendTable then BackendTable[key] else FallbackTargets
  }

  /** The value of `-DLLVM_TARGETS_TO_BUILD`: the fallback for an empty architecture, else the table. */
  function TargetsToBuild(c: BuildConfig): string
  {
    if c.targetArch.arch == "" then FallbackTargets else LlvmTarget(c.targetArch.arch)
  }

  /** The CMake command line of `_build_llvm`. */
  function CmakeArgs(c: BuildConfig, src: string): seq<string>
  {
    ["cmake",
     JoinPath(src, "llvm"),
     "-DCMAKE_INSTALL_PREFIX=" + c.prefix,
     "-DCMAKE_BUILD_TYPE=" + (if c.enableDebug then "Debug" else "Release"),
     "-DLLVM_ENABLE_PROJECTS=" + Join(c.enableComponents, ","),
     "-DLLVM_TARGETS_TO_BUILD=" + TargetsToBuild(c),
     "-DLLVM_DEFAULT_TARGET_TRIPLE=" + c.target,
     if c.enableAssertions then "-DLLVM_ENABLE_ASSERTIONS=ON" else "-DLLVM_ENABLE_ASSERTIONS=OFF",
     if c.enableLto then "-DLLVM_ENABLE_LTO=ON" else "-DLLVM_ENABLE_LTO=OFF",
     "-DLLVM_INCLUDE_TESTS=OFF",
     "-DLLVM_INCLUDE_EXAMPLES=OFF",
     "-DLLVM_INCLUDE_BENCHMARKS=OFF",
     "-DLLVM_ENABLE_TERMINFO=OFF",
     "-DLLVM_ENABLE_ZLIB=OFF",
     "-DLLVM_ENABLE_ZSTD=OFF",
     "-G", "Ninja"] + c.cmakeFlags
  }

  /** `_build_llvm`'s commands: cmake, ninja, ninja install in build/llvm with the build environment. */
  function LlvmCommands(c: BuildConfig, src: string, env: Env): seq<Command>
  {
    var d := JoinPath(c.buildDir, "llvm");
    [Command(CmakeArgs(c, src), Some(d), Some(env)),
     Command(["ninja", JobsFlag(c)], Some(d), Some(env)),
     Command(["ninja", "install"], Some(d), Some(env))]
  }

  /** `_build_llvm`. */
  function LlvmStage(w: World, m: Machine, c: BuildConfig, env: Env, src: string): (Machine, Outcome)
  {
    Stage(w, m, JoinPath(c.buildDir, "llvm"), c.cleanBuild, LlvmCommands(c, src, env))
  }

  /**
   * The body of `LLVMBuilder.build`'s try block: the sources, then the LLVM
   * stage; the C library step that follows does nothing.
   */
  function LlvmPipeline(w: World, m: Machine, c: BuildConfig, env: Env): (Machine, Outcome)
  {
    var (m1, src) := Acquire(w, m, c.sourceDir, LlvmRequest(c));
    if src.Failure? then (m1, Fail(src.error)) else LlvmStage(w, m1, c, env, src.value)
  }

  /** `LLVMBuilder.build`: any exception becomes false. */
  function LlvmBuild(w: World, m: Machine, c: BuildConfig, env: Env): (Machine, bool)
  {
    var (m', o) := LlvmPipeline(w, m, c, env);
    (m', o.Pass?)
  }

  /**
   * The empty-architecture guard before the table lookup changes nothing:
   * the lookup of "" already gives the fallback.
   */
  lemma EmptyArchGuardRedundant(c: BuildConfig)
    ensures TargetsToBuild(c) == LlvmTarget(c.targetArch.arch)
  {
    if c.targetArch.arch == "" {
      assert Lower("") == "";
      assert "" !in BackendTable;
    }
  }

  /** The lookup ignores letter case: an architecture and its lower-cased form select the same backends. */
  lemma CaseInsensitive(arch: string)
    ensures LlvmTarget(Lower(arch)) == LlvmTarget(arch)
  {
    LowerIdempotent(arch);
  }

  /** The lookup ignores letter case: "RISCV64" and "riscv64" both give RISCV, "I686" gives X86. */
  lemma TableExamples()
    ensures LlvmTarget("riscv64") == "RISCV" && LlvmTarget("RISCV64") == "RISCV"
    ensures LlvmTarget("i686") == "X86" && LlvmTarget("I686") == "X86"
    ensures LlvmTarget("sparc") == FallbackTargets
  {
    assert Lower("riscv64") == "riscv64";
    assert Lower("RISCV64") == "riscv64";
    assert Lower("i686") == "i686";
    assert Lower("I686") == "i686";
    assert Lower("sparc") == "sparc";
  }

  /** Every backend the table names is one of the fallback's four or Mips or PowerPC. */
  lemma TargetsAreKnown(arch: string)
    ensures LlvmTarget(arch) in {"X86", "AArch64", "ARM", "RISCV", "Mips", "PowerPC", FallbackTargets}
  {
  }

  /**
   * The disabled-components list never reaches CMake: the arguments are
   * the same whatever it holds.
   */
  lemma DisabledComponentsUnused(c: BuildConfig, src: string, disable: seq<string>)
    ensures CmakeArgs(c.(disableComponents := disable), src) == CmakeArgs(c, src)
  {
  }

  /**
   * For a derived LLVM configuration with no components given, CMake is
   * asked for clang, lld and compiler-rt.
   */
  lemma DefaultProjects(c: BuildConfig, src: string)
    requires c.toolchain == LLVM && c.enableComponents == []
    ensures CmakeArgs(Derive(c), src)[4] == "-DLLVM_ENABLE_PROJECTS=" + "clang,lld,compiler-rt"
  {
    var d := Derive(c);
    assert d.enableComponents == DefaultEnableComponents;
    ProjectsArgument(d, src);
    DefaultComponentsJoined();
  }

  /** The default components, comma-joined. */
  lemma DefaultComponentsJoined()
    ensures Join(DefaultEnableComponents, ",") == "clang,lld,compiler-rt"
  {
    assert Join(["compiler-rt"], ",") == "compiler-rt";
    assert Join(["lld", "compiler-rt"], ",") == "lld,compiler-rt";
  }

  /** The projects argument joins the enabled components with commas. */
  lemma ProjectsArgument(c: BuildConfig, src: string)
    ensures CmakeArgs(c, src)[4] == "-DLLVM_ENABLE_PROJECTS=" + Join(c.enableComponents, ",")
  {
  }

  /**
   * The LLVM build runs a prefix of its three commands, all of them when it
   * reports success.
   */
  lemma LlvmBuildFollowsPlan(w: World, m: Machine, c: BuildConfig, env: Env)
    ensures var plan := LlvmCommands(c, LlvmRequest(c).extractDir, env);
      var (m', ok) := LlvmBuild(w, m, c, env);
      m.trace <= m'.trace && m'.trace <= m.trace + plan &&
      (ok ==> m'.trace == m.trace + plan)
  {
    AcquireKeepsTrace(w, m, c.sourceDir, LlvmRequest(c));
    var (m1, src) := Acquire(w, m, c.sourceDir, LlvmRequest(c));
    if src.Success? {
      StageTrace(w, m1, JoinPath(c.buildDir, "llvm"), c.cleanBuild, LlvmCommands(c, src.value, env));
    }
  }

  /**
   * The C library plays no part in an LLVM build: the same build with any
   * other C library and version has the same effects and the same result.
   */
  lemma LibcIgnored(w: World, m: Machine, c: BuildConfig, env: Env, lib: CLibrary, version: Option<string>)
    ensures LlvmBuild(w, m, c.(cLibrary := lib, libcVersion := version), env) == LlvmBuild(w, m, c, env)
  {
    var c' := c.(cLibrary := lib, libcVersion := version);
    var req := LlvmRequest(c);
    assert LlvmRequest(c') == req by {
      assert c'.llvmVersion == c.llvmVersion && c'.downloadCache == c.downloadCache && c'.sourceDir == c.sourceDir;
    }
    var (m1, src) := Acquire(w, m, c.sourceDir, req);
    if src.Success? {
      SameCommands(c, c', src.value, env);
    }
  }

  /** Configurations that agree on everything the LLVM stage reads give it the same commands. */
  lemma SameCommands(c: BuildConfig, c': BuildConfig, src: string, env: Env)
    requires c'.prefix == c.prefix && c'.enableDebug == c.enableDebug && c'.enableComponents == c.enableComponents
    requires c'.targetArch == c.targetArch && c'.target == c.target && c'.enableAssertions == c.enableAssertions
    requires c'.enableLto == c.enableLto && c'.cmakeFlags == c.cmakeFlags && c'.buildDir == c.buildDir && c'.jobs == c.jobs
    ensures LlvmCommands(c', src, env) == LlvmCommands(c, src, env)
  {
    assert CmakeArgs(c', src) == CmakeArgs(c, src);
  }

  /**
   * `LLVMBuilder`: the configuration, the source manager and the build
   * environment made at construction.
   */
  class LlvmBuilder {
    const config: BuildConfig
    const host: Host
    const sources: SourceManager
    const buildEnv: Env

    constructor (c: BuildConfig, h: Host)
      ensures config == c && host == h && sources.config == c && sources.host == h
      ensures buildEnv == BuildEnv(h.world.environ, c)
    {
      config := c;
      host := h;
      sources := new SourceManager(c, h);
      var env := PrepareBuildEnv(h.world.environ, c);
      buildEnv := env;
    }

    /** `build`: the sources, then LLVM; the C library step is empty. Any error gives false. */
    method Build() returns (ok: bool)
      requires sources.host == host && sources.config == config
      modifies host
      ensures (host.State(), ok) == LlvmBuild(host.world, old(host.State()), config, buildEnv)
    {
      var src := sources.GetLlvmSource();
      if src.Failure? {
        return false;
      }
      var r := BuildLlvm(src.value);
      if r.Fail? {
        return false;
      }
      ok := true;
    }

    /** `_build_llvm`. */
    method BuildLlvm(src: string) returns (r: Outcome)
      modifies host
      ensures (host.State(), r) == LlvmStage(host.world, old(host.State()), config, buildEnv, src)
    {
      var d := JoinPath(config.buildDir, "llvm");
      r := host.PrepareBuildDir(d, config.cleanBuild);
      if r.Fail? {
        return;
      }
      ghost var cs := LlvmCommands(config, src, buildEnv);
      r := host.RunNext(cs, Command(CmakeArgs(config, src), Some(d), Some(buildEnv)));
      if r.Fail? {
        return;
      }
      r := host.RunNext(cs[1..], Command(["ninja", JobsFlag(config)], Some(d), Some(buildEnv)));
      if r.Fail? {
        return;
      }
      r := host.RunNext(cs[2..], Command(["ninja", "install"], Some(d), Some(buildEnv)));
      assert cs[3..] == [];
    }
  }
}
