/**
 * The GCC toolchain build as a trace of commands: binutils, then GCC, then
 * (unless no C library is wanted) the C library, each stage preparing its
 * own build directory and running its configure, make and install commands
 * in order. The first failure ends the build, and the build then reports
 * false.
 */
module GccToolchain {
  import opened Strings
  import opened Results
  import opened Target
  import opened Config
  import opened Environment
  import opened Host
  import opened Sources

  /** `[arg for arg in args if arg]`. */
  function NonEmpty(args: seq<string>): (r: seq<string>)
    ensures forall a :: a in r <==> a in args && a != ""
    ensures |r| <= |args|
    ensures "" !in args ==> r == args
    decreases |args|
  {
    if args == [] then []
    else if args[0] == "" then NonEmpty(args[1..])
    else [args[0]] + NonEmpty(args[1..])
  }

  /** `-jN` for the configured job count. */
  function JobsFlag(c: BuildConfig): string
  {
    "-j" + IntToString(c.jobs)
  }

  /** The binutils configure line, empty arguments filtered out. */
  function BinutilsConfigure(c: BuildConfig, src: string): seq<string>
  {
    NonEmpty([JoinPath(src, "configure"),
              "--target=" + c.target,
              "--prefix=" + c.prefix,
              "--disable-nls",
              "--disable-werror",
              "--disable-multilib",
              if c.withSysroot then "--with-sysroot" else "",
              "--enable-gold",
              "--enable-plugins",
              "--enable-deterministic-archives"] + c.configureFlags)
  }

  /** The binutils stage: configure, make, make install in build/binutils with the build environment. */
  function BinutilsCommands(c: BuildConfig, src: string, env: Env): seq<Command>
  {
    var d := JoinPath(c.buildDir, "binutils");
    [Command(BinutilsConfigure(c, src), Some(d), Some(env)),
     Command(["make", JobsFlag(c)], Some(d), Some(env)),
     Command(["make", "install"], Some(d), Some(env))]
  }

  /** The GCC configure line before filtering: an argument that does not apply is "". */
  function GccConfigureArgs(c: BuildConfig, src: string): seq<string>
  {
    [JoinPath(src, "configure"),
     "--target=" + c.target,
     "--prefix=" + c.prefix,
     "--enable-languages=" + Join(c.enableLanguages, ","),
     "--disable-nls",
     "--disable-multilib",
     if c.cLibrary == NONE then "--without-headers" else "",
     if c.sysroot.Some? then "--with-sysroot=" + c.sysroot.value else "",
     "--disable-libssp",
     "--disable-libstdcxx-pch",
     "--disable-libgomp",
     "--disable-libmudflap",
     "--enable-checking=release",
     "--with-gnu-as",
     "--with-gnu-ld"] + c.configureFlags
  }

  /** The GCC configure line, empty arguments filtered out. */
  function GccConfigure(c: BuildConfig, src: string): seq<string>
  {
    NonEmpty(GccConfigureArgs(c, src))
  }

  /**
   * The GCC stage: the prerequisites script in the source tree, configure,
   * the compiler and libgcc, their installation, and with a C library
   * also the full make and make install.
   */
  function GccCommands(c: BuildConfig, src: string, env: Env): seq<Command>
  {
    CompilerCommands(c, src, env) + (if c.cLibrary != NONE then FullGccCommands(c, env) else [])
  }

  /** The part of the GCC stage that always runs: up to installing the compiler and libgcc. */
  function CompilerCommands(c: BuildConfig, src: string, env: Env): seq<Command>
  {
    var d := JoinPath(c.buildDir, "gcc");
    [Command([JoinPath(JoinPath(src, "contrib"), "download_prerequisites")], Some(src), Some(env)),
     Command(GccConfigure(c, src), Some(d), Some(env)),
     Command(["make", JobsFlag(c), "all-gcc", "all-target-libgcc"], Some(d), Some(env)),
     Command(["make", "install-gcc", "install-target-libgcc"], Some(d), Some(env))]
  }

  /** The full make and make install that run when a C library is wanted. */
  function FullGccCommands(c: BuildConfig, env: Env): seq<Command>
  {
    var d := JoinPath(c.buildDir, "gcc");
    [Command(["make", JobsFlag(c)], Some(d), Some(env)), Command(["make", "install"], Some(d), Some(env))]
  }

  /** The glibc configure line; unlike the others it is not filtered. */
  function GlibcConfigure(c: BuildConfig, src: string): seq<string>
  {
    [JoinPath(src, "configure"),
     "--host=" + c.target,
     "--prefix=/usr",
     if c.sysroot.Some? then "--with-headers=" + JoinPath(JoinPath(c.sysroot.value, "usr"), "include") else "",
     "--disable-werror",
     if IsLinux(c.targetArch) then "--enable-obsolete-rpc" else ""] + c.configureFlags
  }

  /** glibc: configure, make, and an install into the sysroot only when there is one. */
  function GlibcCommands(c: BuildConfig, src: string, d: string, env: Env): seq<Command>
  {
    [Command(GlibcConfigure(c, src), Some(d), Some(env)),
     Command(["make", JobsFlag(c)], Some(d), Some(env))] +
    (if c.sysroot.Some? then [Command(["make", "DESTDIR=" + c.sysroot.value, "install"], Some(d), Some(env))] else [])
  }

  /** The newlib configure line. */
  function NewlibConfigure(c: BuildConfig, src: string): seq<string>
  {
    [JoinPath(src, "configure"),
     "--target=" + c.target,
     "--prefix=" + c.prefix,
     "--disable-nls",
     "--disable-newlib-supplied-syscalls",
     "--enable-multilib"] + c.configureFlags
  }

  /** newlib: configure, make, make install. */
  function NewlibCommands(c: BuildConfig, src: string, d: string, env: Env): seq<Command>
  {
    [Command(NewlibConfigure(c, src), Some(d), Some(env)),
     Command(["make", JobsFlag(c)], Some(d), Some(env)),
     Command(["make", "install"], Some(d), Some(env))]
  }

  /** The musl configure line. */
  function MuslConfigure(c: BuildConfig, src: string): seq<string>
  {
    [JoinPath(src, "configure"),
     "--target=" + c.target,
     "--prefix=" + c.prefix,
     "--disable-shared",
     "--enable-static"] + c.configureFlags
  }

  /** musl: configure, make, make install. */
  function MuslCommands(c: BuildConfig, src: string, d: string, env: Env): seq<Command>
  {
    [Command(MuslConfigure(c, src), Some(d), Some(env)),
     Command(["make", JobsFlag(c)], Some(d), Some(env)),
     Command(["make", "install"], Some(d), Some(env))]
  }

  /** The commands of the configured C library's stage. */
  function LibcCommands(c: BuildConfig, src: string, env: Env): seq<Command>
  {
    var d := LibcDir(c);
    match c.cLibrary
    case GLIBC => GlibcCommands(c, src, d, env)
    case NEWLIB => NewlibCommands(c, src, d, env)
    case MUSL => MuslCommands(c, src, d, env)
    case NONE => []
  }

  /** The C library's build directory, named after the library. */
  function LibcDir(c: BuildConfig): string
  {
    JoinPath(c.buildDir, LibraryValue(c.cLibrary))
  }

  /**
   * The C library's environment: PATH led by the installed tools, and CC
   * and CXX naming the cross compilers just built.
   */
  function LibcEnv(env: Env, c: BuildConfig): (r: Result<Env>)
    ensures r.Failure? <==> "PATH" !in env
    ensures r.Success? ==>
      r.value.Keys == env.Keys + {"CC", "CXX"} &&
      r.value["PATH"] == JoinPath(c.prefix, "bin") + ":" + env["PATH"] &&
      r.value["CC"] == c.target + "-gcc" &&
      r.value["CXX"] == c.target + "-g++" &&
      forall k :: k in env && k !in {"PATH", "CC", "CXX"} ==> r.value[k] == env[k]
  {
    match PrependPath(env, c.prefix)
    case Failure(e) => Failure(e)
    case Success(e) => Success(e["CC" := c.target + "-gcc"]["CXX" := c.target + "-g++"])
  }

  /** A stage: its build directory prepared, then its commands in order. */
  function Stage(w: World, m: Machine, d: string, clean: bool, cs: seq<Command>): (Machine, Outcome)
  {
    var (m1, o) := PrepareDir(m, d, clean);
    if o.Fail? then (m1, o) else RunAll(w, m1, cs)
  }

  /** `_build_binutils`. */
  function BinutilsStage(w: World, m: Machine, c: BuildConfig, env: Env, src: string): (Machine, Outcome)
  {
    Stage(w, m, JoinPath(c.buildDir, "binutils"), c.cleanBuild, BinutilsCommands(c, src, env))
  }

  /** `_build_gcc`: a missing PATH raises before anything else happens. */
  function GccStage(w: World, m: Machine, c: BuildConfig, env: Env, src: string): (Machine, Outcome)
  {
    match PrependPath(env, c.prefix)
    case Failure(e) => (m, Fail(e))
    case Success(genv) => Stage(w, m, JoinPath(c.buildDir, "gcc"), c.cleanBuild, GccCommands(c, src, genv))
  }

  /** `_build_libc`: the library's sources, then its environment, directory and commands. */
  function LibcStage(w: World, m: Machine, c: BuildConfig, env: Env): (Machine, Outcome)
  {
    var (m1, r) := AcquireLibc(w, m, c);
    if r.Failure? then (m1, Fail(r.error))
    else if r.value.None? then (m1, Pass)
    else
      match LibcEnv(env, c)
      case Failure(e) => (m1, Fail(e))
      case Success(lenv) => Stage(w, m1, LibcDir(c), c.cleanBuild, LibcCommands(c, r.value.value, lenv))
  }

  /** The body of `GCCBuilder.build`'s try block: both sources, then the stages. */
  function GccPipeline(w: World, m: Machine, c: BuildConfig, env: Env): (Machine, Outcome)
  {
    var (m1, gcc) := Acquire(w, m, c.sourceDir, GccRequest(c));
    if gcc.Failure? then (m1, Fail(gcc.error)) else
    var (m2, binutils) := Acquire(w, m1, c.sourceDir, BinutilsRequest(c));
    if binutils.Failure? then (m2, Fail(binutils.error)) else
    BuildStages(w, m2, c, env, gcc.value, binutils.value)
  }

  /** Binutils strictly before GCC; the first error ends the build. */
  function BuildStages(w: World, m: Machine, c: BuildConfig, env: Env, gccSrc: string, binutilsSrc: string): (Machine, Outcome)
  {
    var (m1, o) := BinutilsStage(w, m, c, env, binutilsSrc);
    if o.Fail? then (m1, o) else CompilerAndLibc(w, m1, c, env, gccSrc)
  }

  /** GCC, then the C library only when one is configured. */
  function CompilerAndLibc(w: World, m: Machine, c: BuildConfig, env: Env, gccSrc: string): (Machine, Outcome)
  {
    var (m1, o) := GccStage(w, m, c, env, gccSrc);
    if o.Fail? || c.cLibrary == NONE then (m1, o) else LibcStage(w, m1, c, env)
  }

  /** `GCCBuilder.build`: any exception becomes false. */
  function GccBuild(w: World, m: Machine, c: BuildConfig, env: Env): (Machine, bool)
  {
    var (m', o) := GccPipeline(w, m, c, env);
    (m', o.Pass?)
  }

  /** The commands of the C library stage when everything before it succeeds. */
  function LibcPlan(c: BuildConfig, env: Env): seq<Command>
  {
    if c.cLibrary == NONE then [] else
    match LibcRequest(c)
    case Success(Some(req)) =>
      (match LibcEnv(env, c)
       case Success(lenv) => LibcCommands(c, req.extractDir, lenv)
       case Failure(_) => [])
    case _ => []
  }

  /** Every command the stages can run, in the order they run them. */
  function StagesPlan(c: BuildConfig, env: Env, gccSrc: string, binutilsSrc: string): seq<Command>
  {
    var binutils := BinutilsCommands(c, binutilsSrc, env);
    match PrependPath(env, c.prefix)
    case Failure(_) => binutils
    case Success(genv) => binutils + (GccCommands(c, gccSrc, genv) + LibcPlan(c, env))
  }

  /** Every command a GCC build can run, in the order it runs them. */
  function GccPlan(c: BuildConfig, env: Env): seq<Command>
  {
    StagesPlan(c, env, GccRequest(c).extractDir, BinutilsRequest(c).extractDir)
  }

  /** A stage extends the trace by a prefix of its commands, and by all of them when it passes. */
  lemma StageTrace(w: World, m: Machine, d: string, clean: bool, cs: seq<Command>)
    ensures var (m', o) := Stage(w, m, d, clean, cs);
      m.trace <= m'.trace && m'.trace <= m.trace + cs &&
      (o.Pass? ==> m'.trace == m.trace + cs)
  {
    var (m1, o) := PrepareDir(m, d, clean);
    if o.Pass? {
      RunAllPrefix(w, m1, cs);
      RunAllPasses(w, m1, cs);
    }
  }

  /**
   * A stage changes nothing outside its own build directory: the clean
   * build removes only that tree, and commands are not modelled as writing
   * files.
   */
  lemma StageLocal(w: World, m: Machine, d: string, clean: bool, cs: seq<Command>)
    ensures var (m', o) := Stage(w, m, d, clean, cs);
      (forall p :: p in m.fs && !Under(p, d) ==> p in m'.fs && m'.fs[p] == m.fs[p]) &&
      (forall p :: p in m'.fs && !Under(p, d) ==> p in m.fs) &&
      m'.fetched == m.fetched
  {
    PrepareDirLocal(m, d, clean);
    var (m1, o) := PrepareDir(m, d, clean);
    if o.Pass? {
      RunAllKeepsFiles(w, m1, cs);
    }
  }

  /** The C library stage runs a prefix of the C library plan. */
  lemma LibcStageTrace(w: World, m: Machine, c: BuildConfig, env: Env)
    requires c.cLibrary != NONE
    ensures var (m', o) := LibcStage(w, m, c, env);
      m.trace <= m'.trace && m'.trace <= m.trace + LibcPlan(c, env) &&
      (o.Pass? ==> m'.trace == m.trace + LibcPlan(c, env))
  {
    AcquireLibcKeepsTrace(w, m, c);
    var (m1, r) := AcquireLibc(w, m, c);
    if r.Success? && r.value.Some? && LibcEnv(env, c).Success? {
      StageTrace(w, m1, LibcDir(c), c.cleanBuild, LibcCommands(c, r.value.value, LibcEnv(env, c).value));
    }
  }

  /** GCC and the C library run a prefix of their commands, all of them when they pass. */
  lemma CompilerAndLibcTrace(w: World, m: Machine, c: BuildConfig, env: Env, gccSrc: string)
    requires "PATH" in env
    ensures var plan := GccCommands(c, gccSrc, PrependPath(env, c.prefix).value) + LibcPlan(c, env);
      var (m', o) := CompilerAndLibc(w, m, c, env, gccSrc);
      m.trace <= m'.trace && m'.trace <= m.trace + plan &&
      (o.Pass? ==> m'.trace == m.trace + plan)
  {
    var gcs := GccCommands(c, gccSrc, PrependPath(env, c.prefix).value);
    var lcs := LibcPlan(c, env);
    StageTrace(w, m, JoinPath(c.buildDir, "gcc"), c.cleanBuild, gcs);
    var (m1, o) := GccStage(w, m, c, env, gccSrc);
    if c.cLibrary == NONE {
      assert lcs == [];
      PrefixStop(m.trace, m1.trace, gcs, lcs);
    } else if o.Pass? {
      LibcStageTrace(w, m1, c, env);
      var (m2, o2) := LibcStage(w, m1, c, env);
      PrefixThen(m.trace, m2.trace, gcs, lcs);
    } else {
      PrefixStop(m.trace, m1.trace, gcs, lcs);
    }
  }

  /** The stages run a prefix of their plan, all of it when they pass. */
  lemma StagesTrace(w: World, m: Machine, c: BuildConfig, env: Env, gccSrc: string, binutilsSrc: string)
    ensures var plan := StagesPlan(c, env, gccSrc, binutilsSrc);
      var (m', o) := BuildStages(w, m, c, env, gccSrc, binutilsSrc);
      m.trace <= m'.trace && m'.trace <= m.trace + plan &&
      (o.Pass? ==> m'.trace == m.trace + plan)
  {
    var bcs := BinutilsCommands(c, binutilsSrc, env);
    StageTrace(w, m, JoinPath(c.buildDir, "binutils"), c.cleanBuild, bcs);
    var (m1, o) := BinutilsStage(w, m, c, env, binutilsSrc);
    if "PATH" in env {
      var rest := GccCommands(c, gccSrc, PrependPath(env, c.prefix).value) + LibcPlan(c, env);
      assert StagesPlan(c, env, gccSrc, binutilsSrc) == bcs + rest;
      if o.Pass? {
        CompilerAndLibcTrace(w, m1, c, env, gccSrc);
        var (m2, o2) := CompilerAndLibc(w, m1, c, env, gccSrc);
        PrefixThen(m.trace, m2.trace, bcs, rest);
      } else {
        PrefixStop(m.trace, m1.trace, bcs, rest);
      }
    } else {
      assert StagesPlan(c, env, gccSrc, binutilsSrc) == bcs;
      assert CompilerAndLibc(w, m1, c, env, gccSrc).0 == m1;
    }
  }

  /** A prefix of `a` is a prefix of `a + b`. */
  lemma PrefixStop(t: seq<Command>, t1: seq<Command>, a: seq<Command>, b: seq<Command>)
    requires t <= t1 && t1 <= t + a
    ensures t1 <= t + (a + b)
  {
    assert t + (a + b) == (t + a) + b;
  }

  /** After all of `a`, a prefix of `b` makes a prefix of `a + b`. */
  lemma PrefixThen(t: seq<Command>, t2: seq<Command>, a: seq<Command>, b: seq<Command>)
    requires t + a <= t2 && t2 <= (t + a) + b
    ensures t <= t2 && t2 <= t + (a + b)
    ensures t2 == (t + a) + b ==> t2 == t + (a + b)
  {
    assert t + (a + b) == (t + a) + b;
  }

  /**
   * The GCC build runs its commands in the planned order: the trace grows
   * by a prefix of the plan, and by the whole plan when the build reports
   * success.
   */
  lemma GccBuildFollowsPlan(w: World, m: Machine, c: BuildConfig, env: Env)
    ensures var (m', ok) := GccBuild(w, m, c, env);
      m.trace <= m'.trace && m'.trace <= m.trace + GccPlan(c, env) &&
      (ok ==> m'.trace == m.trace + GccPlan(c, env))
  {
    var (m1, gcc) := Acquire(w, m, c.sourceDir, GccRequest(c));
    AcquireKeepsTrace(w, m, c.sourceDir, GccRequest(c));
    if gcc.Success? {
      var (m2, binutils) := Acquire(w, m1, c.sourceDir, BinutilsRequest(c));
      AcquireKeepsTrace(w, m1, c.sourceDir, BinutilsRequest(c));
      if binutils.Success? {
        StagesTrace(w, m2, c, env, gcc.value, binutils.value);
      }
    }
  }

  /**
   * Without a C library the GCC stage stops after installing the compiler
   * and libgcc: four commands, and no full make.
   */
  lemma BareMetalGcc(c: BuildConfig, src: string, env: Env)
    requires c.cLibrary == NONE
    ensures var cs := GccCommands(c, src, env);
      |cs| == 4 &&
      cs[2].argv == ["make", JobsFlag(c), "all-gcc", "all-target-libgcc"] &&
      cs[3].argv == ["make", "install-gcc", "install-target-libgcc"]
  {
  }

  /** Without a C library GCC is configured `--without-headers`. */
  lemma WithoutHeaders(c: BuildConfig, src: string)
    requires c.cLibrary == NONE
    ensures "--without-headers" in GccConfigure(c, src)
  {
    assert GccConfigureArgs(c, src)[6] == "--without-headers";
  }

  /**
   * With a C library the GCC stage itself ends with the full make and make
   * install, after libgcc; the C library is built only later.
   */
  lemma FullGccBeforeLibc(c: BuildConfig, src: string, env: Env)
    requires c.cLibrary != NONE
    ensures var cs := GccCommands(c, src, env);
      |cs| == 6 &&
      cs[2].argv == ["make", JobsFlag(c), "all-gcc", "all-target-libgcc"] &&
      cs[4].argv == ["make", JobsFlag(c)] &&
      cs[5].argv == ["make", "install"]
  {
  }

  /** Every command of `cs` runs in directory `d` with the extra variables `e`. */
  predicate RunsIn(cs: seq<Command>, d: string, e: Env)
  {
    forall i :: 0 <= i < |cs| ==> cs[i].cwd == Some(d) && cs[i].env == Some(e)
  }

  /** The binutils commands run in build/binutils with the build environment itself. */
  lemma BinutilsEnvironment(c: BuildConfig, env: Env, src: string)
    ensures RunsIn(BinutilsCommands(c, src, env), JoinPath(c.buildDir, "binutils"), env)
  {
  }

  /**
   * The GCC commands run with the installed tools first on PATH: the
   * prerequisites script in the source tree, the rest in build/gcc.
   */
  lemma GccEnvironment(c: BuildConfig, env: Env, src: string)
    requires "PATH" in env
    ensures var genv := PrependPath(env, c.prefix).value;
      var gcs := GccCommands(c, src, genv);
      "PATH" in genv && genv["PATH"] == JoinPath(c.prefix, "bin") + ":" + env["PATH"] &&
      gcs[0].cwd == Some(src) && gcs[0].env == Some(genv) &&
      RunsIn(gcs[1..], JoinPath(c.buildDir, "gcc"), genv)
  {
    GccCommandsIn(c, src, PrependPath(env, c.prefix).value);
  }

  /** The GCC stage's commands, for any environment: the first in the source tree, the rest in build/gcc. */
  lemma GccCommandsIn(c: BuildConfig, src: string, e: Env)
    ensures var gcs := GccCommands(c, src, e);
      gcs[0].cwd == Some(src) && gcs[0].env == Some(e) && RunsIn(gcs[1..], JoinPath(c.buildDir, "gcc"), e)
  {
    var d := JoinPath(c.buildDir, "gcc");
    var cc := CompilerCommands(c, src, e);
    var full := if c.cLibrary != NONE then FullGccCommands(c, e) else [];
    CompilerCommandsIn(c, src, e);
    if c.cLibrary != NONE {
      FullGccCommandsIn(c, e);
    }
    RunsInConcat(cc[1..], full, d, e);
    assert GccCommands(c, src, e)[1..] == cc[1..] + full;
  }

  /** The prerequisites script runs in the source tree, the other compiler commands in build/gcc. */
  lemma CompilerCommandsIn(c: BuildConfig, src: string, e: Env)
    ensures var cc := CompilerCommands(c, src, e);
      cc[0].cwd == Some(src) && cc[0].env == Some(e) && RunsIn(cc[1..], JoinPath(c.buildDir, "gcc"), e)
  {
    var cc := CompilerCommands(c, src, e);
    assert forall i :: 1 <= i < 4 ==> cc[1..][i - 1] == cc[i];
  }

  /** The full make and install run in build/gcc. */
  lemma FullGccCommandsIn(c: BuildConfig, e: Env)
    ensures RunsIn(FullGccCommands(c, e), JoinPath(c.buildDir, "gcc"), e)
  {
  }

  /** Two lists that run in one directory with one environment, joined, still do. */
  lemma RunsInConcat(a: seq<Command>, b: seq<Command>, d: string, e: Env)
    requires RunsIn(a, d, e) && RunsIn(b, d, e)
    ensures RunsIn(a + b, d, e)
  {
    assert forall i :: |a| <= i < |a + b| ==> (a + b)[i] == b[i - |a|];
  }

  /** Each library's commands run in the library's build directory with the given variables. */
  lemma LibcCommandsIn(c: BuildConfig, src: string, lenv: Env)
    ensures RunsIn(LibcCommands(c, src, lenv), LibcDir(c), lenv)
  {
  }

  /**
   * The C library is built with the installed tools first on PATH and CC
   * and CXX naming the new cross compilers, in its own build directory.
   */
  lemma LibcEnvironment(c: BuildConfig, env: Env)
    requires "PATH" in env
    ensures var lcs := LibcPlan(c, env);
      var lenv := LibcEnv(env, c).value;
      RunsIn(lcs, LibcDir(c), lenv) &&
      lenv["PATH"] == JoinPath(c.prefix, "bin") + ":" + env["PATH"] &&
      lenv["CC"] == c.target + "-gcc" && lenv["CXX"] == c.target + "-g++"
  {
    if c.cLibrary != NONE && LibcRequest(c).Success? && LibcRequest(c).value.Some? {
      LibcCommandsIn(c, LibcRequest(c).value.value.extractDir, LibcEnv(env, c).value);
    }
  }

  /**
   * Without PATH in the environment the GCC stage raises, so the build
   * reports failure after at most the binutils commands.
   */
  lemma MissingPathFails(w: World, m: Machine, c: BuildConfig, env: Env)
    requires "PATH" !in env
    ensures !GccBuild(w, m, c, env).1
    ensures GccPlan(c, env) == BinutilsCommands(c, BinutilsRequest(c).extractDir, env)
  {
    var (m1, gcc) := Acquire(w, m, c.sourceDir, GccRequest(c));
    if gcc.Success? {
      var (m2, binutils) := Acquire(w, m1, c.sourceDir, BinutilsRequest(c));
      if binutils.Success? {
        var (m3, o) := BinutilsStage(w, m2, c, env, binutils.value);
        assert CompilerAndLibc(w, m3, c, env, gcc.value).1.Fail?;
      }
    }
  }

  /**
   * A bare-metal build (no C library) plans seven commands: three for
   * binutils and four for GCC, the configure line saying
   * `--without-headers`.
   */
  lemma BareMetalPlan(c: BuildConfig, env: Env)
    requires c.cLibrary == NONE && "PATH" in env
    ensures |GccPlan(c, env)| == 7
    ensures "--without-headers" in GccPlan(c, env)[4].argv
  {
    var genv := PrependPath(env, c.prefix).value;
    BareMetalGcc(c, GccRequest(c).extractDir, genv);
    WithoutHeaders(c, GccRequest(c).extractDir);
    assert LibcPlan(c, env) == [];
  }

  /**
   * glibc's configure line is not filtered: without a sysroot, or for a
   * target that is not Linux, it carries an empty argument, which the
   * binutils and GCC lines never do.
   */
  lemma GlibcKeepsEmptyArguments(c: BuildConfig, src: string)
    requires c.sysroot.None? || !IsLinux(c.targetArch)
    ensures "" in GlibcConfigure(c, src)
    ensures "" !in BinutilsConfigure(c, src) && "" !in GccConfigure(c, src)
  {
    if c.sysroot.None? {
      assert GlibcConfigure(c, src)[3] == "";
    } else {
      assert GlibcConfigure(c, src)[5] == "";
    }
  }

  /**
   * `GCCBuilder`: the configuration, the source manager and the build
   * environment made once at construction; its methods run the stages on
   * the host in the order above.
   */
  class GccBuilder {
    const config: BuildConfig
    const host: Host
    const sources: SourceManager
    const buildEnv: Env

    constructor (c: BuildConfig, h: Host)
      ensures config == c && host == h && sources.config == c && sources.host == h
      ensures buildEnv == BuildEnv(h.world.environ, c)
    {
      config := c;
      host := h;
      sources := new SourceManager(c, h);
      var env := PrepareBuildEnv(h.world.environ, c);
      buildEnv := env;
    }

    /** `build`: sources, binutils, GCC, then the C library unless there is none; any error gives false. */
    method Build() returns (ok: bool)
      requires sources.host == host && sources.config == config
      modifies host
      ensures (host.State(), ok) == GccBuild(host.world, old(host.State()), config, buildEnv)
    {
      var gcc := sources.GetGccSource();
      if gcc.Failure? {
        return false;
      }
      var binutils := sources.GetBinutilsSource();
      if binutils.Failure? {
        return false;
      }
      var r := BuildBinutils(binutils.value);
      if r.Fail? {
        return false;
      }
      r := BuildGcc(gcc.value);
      if r.Fail? {
        return false;
      }
      if config.cLibrary != NONE {
        r := BuildLibc();
        if r.Fail? {
          return false;
        }
      }
      ok := true;
    }

    /** `_build_binutils`. */
    method BuildBinutils(src: string) returns (r: Outcome)
      modifies host
      ensures (host.State(), r) == BinutilsStage(host.world, old(host.State()), config, buildEnv, src)
    {
      var d := JoinPath(config.buildDir, "binutils");
      r := host.PrepareBuildDir(d, config.cleanBuild);
      if r.Fail? {
        return;
      }
      ghost var cs := BinutilsCommands(config, src, buildEnv);
      r := host.RunNext(cs, Command(BinutilsConfigure(config, src), Some(d), Some(buildEnv)));
      if r.Fail? {
        return;
      }
      r := host.RunNext(cs[1..], Command(["make", JobsFlag(config)], Some(d), Some(buildEnv)));
      if r.Fail? {
        return;
      }
      r := host.RunNext(cs[2..], Command(["make", "install"], Some(d), Some(buildEnv)));
      assert cs[3..] == [];
    }

    /** `_build_gcc`: PATH first (a missing PATH raises), then the directory and the commands. */
    method BuildGcc(src: string) returns (r: Outcome)
      modifies host
      ensures (host.State(), r) == GccStage(host.world, old(host.State()), config, buildEnv, src)
    {
      var env := PrependPath(buildEnv, config.prefix);
      if env.Failure? {
        return Fail(env.error);
      }
      var e := env.value;
      var d := JoinPath(config.buildDir, "gcc");
      r := host.PrepareBuildDir(d, config.cleanBuild);
      if r.Fail? {
        return;
      }
      ghost var m1 := host.State();
      ghost var full := if config.cLibrary != NONE then FullGccCommands(config, e) else [];
      RunAllAppend(host.world, m1, CompilerCommands(config, src, e), full);
      r := RunCompilerCommands(src, d, e);
      if r.Fail? || config.cLibrary == NONE {
        return;
      }
      r := host.RunNext(full, Command(["make", JobsFlag(config)], Some(d), Some(e)));
      if r.Fail? {
        return;
      }
      r := host.RunNext(full[1..], Command(["make", "install"], Some(d), Some(e)));
      assert full[2..] == [];
    }

    /** The commands `_build_gcc` always runs, in build directory `d` with environment `e`. */
    method RunCompilerCommands(src: string, d: string, e: Env) returns (r: Outcome)
      requires d == JoinPath(config.buildDir, "gcc")
      modifies host
      ensures (host.State(), r) == RunAll(host.world, old(host.State()), CompilerCommands(config, src, e))
    {
      ghost var cs := CompilerCommands(config, src, e);
      r := host.RunNext(cs, Command([JoinPath(JoinPath(src, "contrib"), "download_prerequisites")], Some(src), Some(e)));
      if r.Fail? {
        return;
      }
      r := host.RunNext(cs[1..], Command(GccConfigure(config, src), Some(d), Some(e)));
      if r.Fail? {
        return;
      }
      r := host.RunNext(cs[2..], Command(["make", JobsFlag(config), "all-gcc", "all-target-libgcc"], Some(d), Some(e)));
      if r.Fail? {
        return;
      }
      r := host.RunNext(cs[3..], Command(["make", "install-gcc", "install-target-libgcc"], Some(d), Some(e)));
      assert cs[4..] == [];
    }

    /** `_build_libc`: the sources, the environment with PATH, CC and CXX, the directory, then the library's commands. */
    method BuildLibc() returns (r: Outcome)
      requires sources.host == host && sources.config == config
      modifies host
      ensures (host.State(), r) == LibcStage(host.world, old(host.State()), config, buildEnv)
    {
      var src := sources.GetLibcSource();
      if src.Failure? {
        return Fail(src.error);
      }
      if src.value.None? {
        return Pass;
      }
      var path := PrependPath(buildEnv, config.prefix);
      if path.Failure? {
        return Fail(path.error);
      }
      var env := path.value;
      env := env["CC" := config.target + "-gcc"];
      env := env["CXX" := config.target + "-g++"];
      var d := LibcDir(config);
      r := host.PrepareBuildDir(d, config.cleanBuild);
      if r.Fail? {
        return;
      }
      match config.cLibrary
      case GLIBC =>
        r := BuildGlibc(src.value.value, d, env);
      case NEWLIB =>
        r := BuildNewlib(src.value.value, d, env);
      case MUSL =>
        r := BuildMusl(src.value.value, d, env);
      case NONE =>
        r := Pass;
    }

    /** `_build_glibc`: configure, make, and the sysroot install only when there is a sysroot. */
    method BuildGlibc(src: string, d: string, env: Env) returns (r: Outcome)
      modifies host
      ensures (host.State(), r) == RunAll(host.world, old(host.State()), GlibcCommands(config, src, d, env))
    {
      ghost var cs := GlibcCommands(config, src, d, env);
      r := host.RunNext(cs, Command(GlibcConfigure(config, src), Some(d), Some(env)));
      if r.Fail? {
        return;
      }
      r := host.RunNext(cs[1..], Command(["make", JobsFlag(config)], Some(d), Some(env)));
      if r.Fail? {
        return;
      }
      if config.sysroot.Some? {
        r := host.RunNext(cs[2..], Command(["make", "DESTDIR=" + config.sysroot.value, "install"], Some(d), Some(env)));
        assert cs[3..] == [];
      } else {
        assert cs[2..] == [];
      }
    }

    /** `_build_newlib`. */
    method BuildNewlib(src: string, d: string, env: Env) returns (r: Outcome)
      modifies host
      ensures (host.State(), r) == RunAll(host.world, old(host.State()), NewlibCommands(config, src, d, env))
    {
      ghost var cs := NewlibCommands(config, src, d, env);
      r := host.RunNext(cs, Command(NewlibConfigure(config, src), Some(d), Some(env)));
      if r.Fail? {
        return;
      }
      r := host.RunNext(cs[1..], Command(["make", JobsFlag(config)], Some(d), Some(env)));
      if r.Fail? {
        return;
      }
      r := host.RunNext(cs[2..], Command(["make", "install"], Some(d), Some(env)));
      assert cs[3..] == [];
    }

    /** `_build_musl`. */
    method BuildMusl(src: string, d: string, env: Env) returns (r: Outcome)
      modifies host
      ensures (host.State(), r) == RunAll(host.world, old(host.State()), MuslCommands(config, src, d, env))
    {
      ghost var cs := MuslCommands(config, src, d, env);
      r := host.RunNext(cs, Command(MuslConfigure(config, src), Some(d), Some(env)));
      if r.Fail? {
        return;
      }
      r := host.RunNext(cs[1..], Command(["make", JobsFlag(config)], Some(d), Some(env)));
      if r.Fail? {
        return;
      }
      r := host.RunNext(cs[2..], Command(["make", "install"], Some(d), Some(env)));
      assert cs[3..] == [];
    }
  }
}
