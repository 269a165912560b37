/**
 * BuildConfig and its post-initialisation: the default C-library version
 * per family, the parsed target, the derived sysroot and, for LLVM, the
 * default enabled and disabled sub-projects.
 */
module Config {
  import opened Strings
  import opened Results
  import opened Target

  datatype ToolchainType = GCC | LLVM

  /** The enum's value string. */
  function ToolchainValue(t: ToolchainType): string
  {
    match t
    case GCC => "gcc"
    case LLVM => "llvm"
  }

  datatype CLibrary = GLIBC | NEWLIB | MUSL | NONE

  /** The enum's value string, also the name of the library's build directory. */
  function LibraryValue(l: CLibrary): string
  {
    match l
    case GLIBC => "glibc"
    case NEWLIB => "newlib"
    case MUSL => "musl"
    case NONE => "none"
  }

  /**
   * The fields of the dataclass that the core reads. Paths are strings;
   * `None` of an optional field is `Results.None`.
   */
  datatype BuildConfig = BuildConfig(
    toolchain: ToolchainType,
    target: string,
    prefix: string,
    gccVersion: string,
    binutilsVersion: string,
    llvmVersion: string,
    cLibrary: CLibrary,
    libcVersion: Option<string>,
    enableLanguages: seq<string>,
    enableComponents: seq<string>,
    disableComponents: seq<string>,
    jobs: int,
    cleanBuild: bool,
    enableLto: bool,
    enableDebug: bool,
    enableAssertions: bool,
    optimize: string,
    sysroot: Option<string>,
    withSysroot: bool,
    configureFlags: seq<string>,
    cmakeFlags: seq<string>,
    cflags: seq<string>,
    cxxflags: seq<string>,
    ldflags: seq<string>,
    sourceDir: string,
    buildDir: string,
    downloadCache: string,
    runTests: bool,
    githubActions: bool,
    uploadArtifact: bool,
    targetArch: TargetArchitecture)

  /** `a / b` on paths. */
  function JoinPath(a: string, b: string): string
  {
    a + "/" + b
  }

  /**
   * The dataclass defaults as the constructor fills them in before
   * `__post_init__`; `jobs` stands for `os.cpu_count() or 4`.
   */
  function Defaults(jobs: int): BuildConfig
  {
    BuildConfig(
      GCC, "x86_64-elf", "./install",
      "13.2.0", "2.42", "17.0.6",
      NONE, None,
      ["c", "c++"], [], [],
      jobs, false, false, false, false, "2",
      None, false,
      [], [], [], [], [],
      "./sources", "./build", "./.cache/downloads",
      false, false, false,
      ParseTriple("x86_64-elf"))
  }

  const GlibcDefaultVersion: string := "2.38"
  const NewlibDefaultVersion: string := "4.3.0"
  const MuslDefaultVersion: string := "1.2.4"

  /** The version a C library gets when none is given; an explicit value, even "", is kept. */
  function DefaultLibcVersion(lib: CLibrary, given: Option<string>): (v: Option<string>)
    ensures given.Some? ==> v == given
    ensures given.None? ==> (v.None? <==> lib == NONE)
  {
    if given.Some? then given
    else
      match lib
      case GLIBC => Some(GlibcDefaultVersion)
      case NEWLIB => Some(NewlibDefaultVersion)
      case MUSL => Some(MuslDefaultVersion)
      case NONE => None
  }

  function DefaultSysroot(c: BuildConfig): string
  {
    JoinPath(JoinPath(c.prefix, c.target), "sysroot")
  }

  const DefaultEnableComponents: seq<string> := ["clang", "lld", "compiler-rt"]
  const DefaultDisableComponents: seq<string> := ["libcxx", "libcxxabi", "libunwind"]

  /** The sysroot after derivation: `prefix/target/sysroot` when it was unset and a sysroot is requested. */
  function DerivedSysroot(c: BuildConfig): Option<string>
  {
    if c.sysroot.None? && c.withSysroot then Some(DefaultSysroot(c)) else c.sysroot
  }

  /** The enabled LLVM sub-projects after derivation; GCC lists are left alone. */
  function DerivedEnable(c: BuildConfig): seq<string>
  {
    if c.toolchain == LLVM && c.enableComponents == [] then DefaultEnableComponents else c.enableComponents
  }

  /** The disabled LLVM sub-projects after derivation, independent of the enabled list. */
  function DerivedDisable(c: BuildConfig): seq<string>
  {
    if c.toolchain == LLVM && c.disableComponents == [] then DefaultDisableComponents else c.disableComponents
  }

  /** What `__post_init__` leaves in the configuration, as one function of what the constructor received. */
  function Derive(c: BuildConfig): (d: BuildConfig)
    ensures d.targetArch == ParseTriple(c.target)
    ensures d.libcVersion == DefaultLibcVersion(c.cLibrary, c.libcVersion)
    ensures d.sysroot.Some? <==> c.sysroot.Some? || c.withSysroot
    ensures c.sysroot.Some? ==> d.sysroot == c.sysroot
    ensures c.sysroot.None? && c.withSysroot ==> d.sysroot == Some(DefaultSysroot(c))
    ensures c.toolchain == GCC ==>
      d.enableComponents == c.enableComponents && d.disableComponents == c.disableComponents
    ensures c.toolchain == LLVM ==>
      d.enableComponents == (if c.enableComponents == [] then DefaultEnableComponents else c.enableComponents) &&
      d.disableComponents == (if c.disableComponents == [] then DefaultDisableComponents else c.disableComponents)
    ensures d == c.(libcVersion := d.libcVersion, targetArch := d.targetArch, sysroot := d.sysroot,
                    enableComponents := d.enableComponents, disableComponents := d.disableComponents)
  {
    c.(libcVersion := DefaultLibcVersion(c.cLibrary, c.libcVersion),
       targetArch := ParseTriple(c.target),
       sysroot := DerivedSysroot(c),
       enableComponents := DerivedEnable(c),
       disableComponents := DerivedDisable(c))
  }

  /**
   * `__post_init__`: updates the configuration in place, section by section
   * in the order the dataclass does (library version, target, sysroot,
   * components).
   */
  method PostInit(c: BuildConfig) returns (d: BuildConfig)
    ensures d == Derive(c)
  {
    d := c;
    d := SetDefaultLibcVersion(d);
    d := d.(targetArch := ParseTriple(d.target));
    d := SetDefaultSysroot(d);
    d := SetDefaultComponents(d);
  }

  /** "Set default libc versions": only a missing version is replaced. */
  method SetDefaultLibcVersion(c: BuildConfig) returns (d: BuildConfig)
    ensures d == c.(libcVersion := DefaultLibcVersion(c.cLibrary, c.libcVersion))
  {
    d := c;
    if d.libcVersion.None? {
      if d.cLibrary == GLIBC {
        d := d.(libcVersion := Some(GlibcDefaultVersion));
      } else if d.cLibrary == NEWLIB {
        d := d.(libcVersion := Some(NewlibDefaultVersion));
      } else if d.cLibrary == MUSL {
        d := d.(libcVersion := Some(MuslDefaultVersion));
      }
    }
  }

  /** "Set sysroot if not specified". */
  method SetDefaultSysroot(c: BuildConfig) returns (d: BuildConfig)
    ensures d == c.(sysroot := DerivedSysroot(c))
  {
    d := c;
    if d.sysroot.None? && d.withSysroot {
      d := d.(sysroot := Some(JoinPath(JoinPath(d.prefix, d.target), "sysroot")));
    }
  }

  /** "Set default components": LLVM only, each empty list on its own. */
  method SetDefaultComponents(c: BuildConfig) returns (d: BuildConfig)
    ensures d == c.(enableComponents := DerivedEnable(c), disableComponents := DerivedDisable(c))
  {
    var enable := c.enableComponents;
    var disable := c.disableComponents;
    if c.toolchain == LLVM {
      if enable == [] {
        enable := DefaultEnableComponents;
      }
      if disable == [] {
        disable := DefaultDisableComponents;
      }
    }
    d := c.(enableComponents := enable, disableComponents := disable);
  }

  /** The library defaults: 2.38 for glibc, 4.3.0 for newlib, 1.2.4 for musl, none for NONE. */
  lemma LibcDefaults(c: BuildConfig)
    requires c.libcVersion.None?
    ensures Derive(c).libcVersion == match c.cLibrary
      case GLIBC => Some("2.38")
      case NEWLIB => Some("4.3.0")
      case MUSL => Some("1.2.4")
      case NONE => None
  {
  }

  /** Deriving twice changes nothing: every default, once applied, is kept as an explicit value. */
  lemma DeriveIdempotent(c: BuildConfig)
    ensures Derive(Derive(c)) == Derive(c)
  {
  }

  /**
   * Derivation never rejects a configuration: an explicit empty version
   * stays "" and a C library is kept without a version check.
   */
  lemma DeriveKeepsEmptyVersion(c: BuildConfig)
    requires c.libcVersion == Some("")
    ensures Derive(c).libcVersion == Some("")
    ensures Derive(c).cLibrary == c.cLibrary
  {
  }

  /**
   * The end-to-end LLVM scenario: target riscv64-unknown-elf with no component
   * lists gets the default lists and a bare-metal target.
   */
  lemma ScenarioLlvmDefaults(jobs: int)
    ensures var d := Derive(Defaults(jobs).(toolchain := LLVM, target := "riscv64-unknown-elf"));
      d.enableComponents == ["clang", "lld", "compiler-rt"] &&
      d.disableComponents == ["libcxx", "libcxxabi", "libunwind"] &&
      d.targetArch.arch == "riscv64" && IsBareMetal(d.targetArch) &&
      d.sysroot.None? && d.libcVersion.None?
  {
    ScenarioRiscv();
  }
}
