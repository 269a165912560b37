# Cross-toolchain builder: a verified model

`build_toolchain.py` builds a cross-compilation toolchain for a target triple. The toolchain is either GCC with binutils and an optional C library (glibc, newlib or musl), or LLVM/Clang. The script works in this order:

- it derives a configuration from its defaults;
- it downloads source archives from ordered mirror lists into a cache and extracts them;
- it runs the configure/make (or cmake/ninja) stages in per-stage build directories, with a prepared environment;
- it validates the installed binaries by compiling a test program;
- it installs a version file and an environment script, and optionally packages the prefix with a sha256 checksum file.

This project models that decision logic in Dafny and proves properties of it.

The outside world is a value `Host.World` of oracles:
- the network, one optional body per URL;
- sha256, as an uninterpreted function from bytes to hex text;
- extraction, one optional file tree per archive format, archive bytes and directory;
- the exit status of each started process;
- `os.environ`;
- the bytes `write_text` stores for a text;
- the bytes of files whose text the model does not describe.

The machine the script changes is `Host.Machine`:
- a file system mapping paths to files or directories;
- the list of URLs fetched;
- the trace of commands run.

Every effect is a function `(Machine, Outcome) = F(World, Machine, …)`. The class `Host.Host` holds the same state in fields. Each builder, manager, validator and installer class performs its operation step by step on a `Host`, and its methods are proved to leave exactly the state the corresponding function describes. The properties are proved as lemmas about those functions.

Modules, one per file:
- `Strings`: searching, joining, splitting and number formatting on `seq<char>`;
- `Results`: `Option`, `Result`, `Outcome`, and the error kinds the script raises;
- `Target`: `TargetArchitecture`, the triple parser and its three predicates;
- `Config`: `BuildConfig` and `__post_init__`;
- `Environment`: `_prepare_build_env`, `run_command`'s environment overlay, the PATH prefix;
- `Archive`: `Path.name`, `Path.suffix`, `with_suffix`, and the archive-format test of `extract_archive`;
- `Host`: the oracles, `download_file`, `extract_archive`, `run_command`, build-directory preparation, file writes;
- `Sources`: `SourceManager` and its mirror loops;
- `GccToolchain`: `GCCBuilder`;
- `LlvmToolchain`: `LLVMBuilder`;
- `Validation`: `ToolchainValidator`;
- `Installation`: `ToolchainInstaller`.

Where a reader might expect other behaviour, the model follows the code:
- `x86_64-elf` parses to vendor `elf` and OS `none`. Its bare-metal status comes from the default OS.
- With a C library, GCC's full `make`/`make install` runs inside the GCC stage, before the C library is built.
- The LLVM builder's C-library step does nothing, so an LLVM build's result does not depend on the C library.
- `disable_components` is derived but never reaches CMake.
- The binutils and GCC configure lines drop empty arguments; the glibc line keeps them.
- An empty C-library version is accepted by `__post_init__` and rejected only when the library sources are requested.

## Model

| member | source | states |
|---|---|---|
| Strings.Split | build_toolchain.py:51 | `str.split('-')`: at least one part, no part contains the separator, joining the parts gives the input back, and there is one part exactly when the separator is absent |
| Strings.SplitJoin | build_toolchain.py:51 | splitting a join of separator-free parts gives the parts back |
| Strings.Lower | build_toolchain.py:831 | `str.lower()` keeps the length and lowers each character |
| Strings.LowerIdempotent | build_toolchain.py:831 | lowering an already lowered string changes nothing |
| Strings.NatToString | build_toolchain.py:545 | `str(n)` for a natural number is a string of decimal digits, without a leading zero, whose value is `n` |
| Strings.IntToString | build_toolchain.py:545 | the text of the job count starts with '-' exactly for a negative number, and the digits after any sign denote its magnitude |
| Strings.IntToStringInjective | build_toolchain.py:545 | different job counts give different `-j` texts |
| Target.ParseTriple | build_toolchain.py:49-55 | the triple parser is total, keeps the triple, takes the architecture as the text before the first '-', and without a '-' defaults vendor, OS and environment to unknown/none/gnu |
| Target.ParseFields | build_toolchain.py:49-55 | for dash-free fields, the parse is the first field, then the second, third and fourth or their defaults; fields after the fourth are ignored |
| Target.ParseTwoFields | build_toolchain.py:49-60 | `arch-x` parses to vendor `x`, OS `none` and environment `gnu`, so every two-field triple is bare metal |
| Target.ClassificationConsistent | build_toolchain.py:57-70 | bare metal and Linux never hold together; a Windows target that is neither has OS or environment `mingw32` |
| Target.ScenarioBareMetalElf | build_toolchain.py:49-60 | `x86_64-elf` parses to vendor `elf`, OS `none`, environment `gnu`, and is bare metal |
| Target.ScenarioRiscv | build_toolchain.py:49-60 | `riscv64-unknown-elf` parses field by field and is bare metal |
| Target.ScenarioLinuxGnu | build_toolchain.py:49-65 | `x86_64-linux-gnu` has vendor `linux` and OS `gnu`, so it is not classified as Linux |
| Config.DefaultLibcVersion | build_toolchain.py:136-142 | a given version is kept, even an empty one; a missing one is defaulted exactly for the three real libraries |
| Config.Derive | build_toolchain.py:128-156 | after post-initialisation the target is parsed from the triple; the library version is defaulted; the sysroot is present iff it was given or `with_sysroot` is set, and is `prefix/target/sysroot` when derived; GCC lists are untouched; each empty LLVM list gets its default; every other field is kept as given |
| Config.PostInit | build_toolchain.py:128-156 | the in-place updates of `__post_init__` produce exactly the derived configuration |
| Config.SetDefaultLibcVersion | build_toolchain.py:136-142 | only the library version changes, to its default |
| Config.SetDefaultSysroot | build_toolchain.py:147-149 | only the sysroot changes, to the derived one |
| Config.SetDefaultComponents | build_toolchain.py:151-156 | only the two component lists change, to their LLVM defaults when empty |
| Config.LibcDefaults | build_toolchain.py:136-142 | a missing version becomes 2.38, 4.3.0 or 1.2.4 for glibc, newlib or musl, and stays missing for none |
| Config.DeriveIdempotent | build_toolchain.py:128-156 | deriving a derived configuration changes nothing |
| Config.DeriveKeepsEmptyVersion | build_toolchain.py:136-142 | an explicit empty version survives derivation and the library is kept |
| Config.ScenarioLlvmDefaults | build_toolchain.py:128-156 | an LLVM configuration for `riscv64-unknown-elf` with no lists gets both default lists, a bare-metal target, no sysroot and no library version |
| Environment.PrepareBuildEnv | build_toolchain.py:528-547 | the key-by-key updates build exactly the specified build environment |
| Environment.SetFlags | build_toolchain.py:533-538 | a flag variable is set to the space-joined flags when there are any, else left alone |
| Environment.BuildEnvContents | build_toolchain.py:528-547 | the build environment holds every inherited variable plus CFLAGS, CXXFLAGS and MAKEFLAGS (and LDFLAGS with user linker flags); CFLAGS/CXXFLAGS are `-O<level> ` then the user flags or the inherited value; MAKEFLAGS is `-j<jobs>`; every other variable is inherited unchanged |
| Environment.FlagsStartWithOptimization | build_toolchain.py:541-542 | CFLAGS and CXXFLAGS always start with the optimisation flag |
| Environment.Overlay | build_toolchain.py:214-216 | a process sees the inherited variables overridden by the extra ones, and no others |
| Environment.OverlayBuildEnv | build_toolchain.py:214-216 | overlaying the build environment on the process environment gives the build environment |
| Environment.PrependPath | build_toolchain.py:621-622 | prefixing PATH fails exactly when PATH is missing; otherwise PATH becomes `prefix/bin:` followed by the old value and nothing else changes |
| Archive.Name | build_toolchain.py:298 | a path's name has no '/' and is the whole path when the path has no '/' |
| Archive.Dir | build_toolchain.py:298 | the directory part followed by the name is the path |
| Archive.Suffix | build_toolchain.py:298 | a suffix is empty or a dot followed by dot-free text |
| Archive.NoSuffix | build_toolchain.py:298 | a name with no dot after its first character, or ending in a dot, has no suffix |
| Archive.WithSuffixOfName | build_toolchain.py:1071 | `with_suffix` replaces only the name's last suffix and keeps the directory |
| Archive.NameOfJoin | build_toolchain.py:371 | the name of `dir/file` is `file` |
| Archive.NameSuffixOf | build_toolchain.py:298 | the suffix of `stem.ext` is `.ext` |
| Archive.TarballsAreTar | build_toolchain.py:298-304 | every `.tar.xz` and `.tar.gz` archive is opened as tar |
| Archive.CompressedAreTar | build_toolchain.py:298 | a `.gz`, `.bz2` or `.xz` suffix after a non-empty stem selects tar |
| Archive.OtherSuffixUnsupported | build_toolchain.py:298-315 | any other suffix, in a name without `.tar.`, is rejected as unsupported |
| Archive.ZipIsZip | build_toolchain.py:306-310 | a `.zip` name without `.tar.` in it selects zip |
| Archive.TarTestComesFirst | build_toolchain.py:298-310 | `release.tar.zip` has suffix `.zip` but is opened as tar |
| Archive.HiddenNameUnsupported | build_toolchain.py:298-315 | a file named only `.gz` has no suffix and is rejected as unsupported |
| Host.RemoveTree | build_toolchain.py:586-587 | removing a tree keeps exactly the paths outside it, unchanged |
| Host.DownloadContract | build_toolchain.py:247-288 | after a download, success leaves the destination (with a checksum, a file with that digest); failure leaves no destination, or nothing changed; no other path changes; at most the one URL is fetched; no process runs |
| Host.DownloadFetchesIff | build_toolchain.py:252-275 | the network is asked exactly when the destination is missing or its digest differs from a given checksum |
| Host.DownloadWithoutChecksum | build_toolchain.py:252-277 | without a checksum an existing destination is kept as it is; otherwise the URL is fetched and stored, or the download fails |
| Host.StaleCopyRefetched | build_toolchain.py:253-263 | a cached file whose digest differs from the checksum is deleted and fetched again |
| Host.RunAllKeepsFiles | build_toolchain.py:189-240 | running commands changes neither files nor downloads |
| Host.RunAllPasses | build_toolchain.py:233-240 | a command list passes exactly when every command exits with 0, and then every command is in the trace |
| Host.RunAllAppend | build_toolchain.py:609-614 | running `a + b` runs `a`, then `b` only if `a` passed |
| Host.RunAllPrefix | build_toolchain.py:233-240 | a run extends the trace by a prefix of the commands |
| Host.RunAllStops | build_toolchain.py:233-238 | the first failing command ends the run: the trace stops after it, and the error carries its arguments and exit status |
| Host.PrepareDirLocal | build_toolchain.py:585-589 | preparing a build directory changes nothing outside it; a clean build empties it; on success it is a directory |
| Host.Host.constructor | build_toolchain.py:189-288 | the host starts with the given oracles and state |
| Host.Host.DownloadFile | build_toolchain.py:247-288 | `download_file` performed in place leaves the state the download function describes |
| Host.Host.ExtractArchive | build_toolchain.py:290-315 | `extract_archive` performed in place leaves the state the extraction function describes |
| Host.Host.RunCommand | build_toolchain.py:189-240 | `run_command` records the command and fails on a non-zero exit status |
| Host.Host.PrepareBuildDir | build_toolchain.py:585-589 | removal and `mkdir` performed in place agree with the directory function |
| Host.Host.RunNext | build_toolchain.py:609-614 | one command of a list is the list's first step |
| Host.Host.Write | build_toolchain.py:911-918 | `write_text` replaces the file, and fails on a directory |
| Sources.Urls | build_toolchain.py:374-381 | the URLs of the candidates, in order |
| Sources.TryStopsAtFirstHit | build_toolchain.py:374-383 | the mirror loop stops at the first candidate that succeeds: every earlier URL was fetched once, no later one is, and only that candidate's file is written |
| Sources.TryAllFail | build_toolchain.py:374-383 | when every mirror fails, every URL is fetched once in order, no file changes, and the loop reports failure |
| Sources.TryKeepsPaths | build_toolchain.py:374-383 | the mirror loop never removes a path, and its hit is one of the candidates with its file in place |
| Sources.SkipsExtraction | build_toolchain.py:386-390 | an existing source tree is not extracted again |
| Sources.AcquireTwice | build_toolchain.py:367-390 | a second acquisition after one that produced the source tree changes nothing and gives the same result |
| Sources.ExtractKeepsPaths | build_toolchain.py:290-315 | extraction never removes a path |
| Sources.CachedFirstCandidate | build_toolchain.py:252-267 | a cached first candidate ends the loop with no download |
| Sources.MirrorCandidates | build_toolchain.py:374-377 | one candidate per mirror, in mirror order, all saved to the same cache file |
| Sources.LlvmCandidates | build_toolchain.py:424-439 | for each LLVM mirror the release archive is tried, then the alternative archive on the same mirror |
| Sources.LibcRequest | build_toolchain.py:450-514 | no library gives no request; a real library without a non-empty version is an error naming the library |
| Sources.AcquireKeepsTrace | build_toolchain.py:367-390 | fetching sources runs no command, and on success returns the extraction directory |
| Sources.AcquireLibcKeepsTrace | build_toolchain.py:450-514 | fetching the library sources runs no command, and on success returns the library's extraction directory |
| Sources.RequestsSingleDest | build_toolchain.py:367-505 | every request's candidates share one cache file |
| Sources.DerivedLibcHasRequest | build_toolchain.py:136-142 | after derivation a real library without a given version always has a request |
| Sources.EmptyLibcVersionRejectedLate | build_toolchain.py:455-457 | an explicit empty version passes derivation and is rejected when the library sources are requested |
| Sources.LlvmRefetchesPrimary | build_toolchain.py:424-437 | with only the alternative archive cached and the first mirror down, the release archive is asked for again before the cached alternative is used |
| Sources.SourceManager.constructor | build_toolchain.py:358-361 | the manager keeps its configuration and host |
| Sources.SourceManager.FetchFromMirrors | build_toolchain.py:374-383 | the for/else loop performed in place agrees with the mirror-loop function |
| Sources.SourceManager.AcquireRequest | build_toolchain.py:367-390 | the loop followed by conditional extraction agrees with the acquisition function |
| Sources.SourceManager.GetGccSource | build_toolchain.py:367-390 | `get_gcc_source` acquires the GCC request |
| Sources.SourceManager.GetBinutilsSource | build_toolchain.py:392-415 | `get_binutils_source` acquires the binutils request |
| Sources.SourceManager.GetLlvmSource | build_toolchain.py:417-448 | `get_llvm_source`, with its nested try on the alternative name, acquires the LLVM request |
| Sources.SourceManager.GetLibcSource | build_toolchain.py:450-514 | `get_libc_source` agrees with the library acquisition function, errors included |
| GccToolchain.NonEmpty | build_toolchain.py:607 | filtering keeps exactly the non-empty arguments, in order, and changes nothing when none is empty |
| GccToolchain.LibcEnv | build_toolchain.py:681-684 | the library environment fails exactly without PATH; otherwise it has PATH prefixed and CC/CXX naming the target compilers |
| GccToolchain.StageTrace | build_toolchain.py:585-614 | a stage extends the trace by a prefix of its commands, all of them when it passes |
| GccToolchain.StageLocal | build_toolchain.py:585-589 | a stage changes nothing outside its own build directory |
| GccToolchain.LibcStageTrace | build_toolchain.py:673-697 | the library stage runs a prefix of the library plan |
| GccToolchain.CompilerAndLibcTrace | build_toolchain.py:568-572 | GCC then the library run a prefix of their commands, all when they pass |
| GccToolchain.StagesTrace | build_toolchain.py:564-572 | binutils, GCC and the library run a prefix of the plan, all when they pass |
| GccToolchain.GccBuildFollowsPlan | build_toolchain.py:556-579 | the GCC build runs binutils, then GCC, then the library when one is configured; the trace is a prefix of that plan, and the whole plan when the build reports success |
| GccToolchain.BareMetalGcc | build_toolchain.py:660-671 | without a library, GCC runs four commands ending with `all-gcc all-target-libgcc` and `install-gcc install-target-libgcc`, and no full make |
| GccToolchain.WithoutHeaders | build_toolchain.py:643 | without a library, GCC is configured `--without-headers` |
| GccToolchain.FullGccBeforeLibc | build_toolchain.py:660-671 | with a library, the GCC stage itself ends with the full make and make install |
| GccToolchain.BinutilsEnvironment | build_toolchain.py:609-614 | binutils commands run in build/binutils with the build environment |
| GccToolchain.GccEnvironment | build_toolchain.py:620-666 | GCC commands see `prefix/bin` first on PATH; the prerequisites script runs in the source tree, the rest in build/gcc |
| GccToolchain.LibcCommandsIn | build_toolchain.py:699-756 | each library's commands run in that library's build directory with the given variables |
| GccToolchain.LibcEnvironment | build_toolchain.py:681-697 | library commands see `prefix/bin` first on PATH and CC/CXX naming the target's gcc and g++ |
| GccToolchain.MissingPathFails | build_toolchain.py:621-622 | without PATH the GCC stage raises: the build reports failure and runs at most the binutils commands |
| GccToolchain.BareMetalPlan | build_toolchain.py:556-671 | a build without a library plans seven commands, and GCC's configure line says `--without-headers` |
| GccToolchain.GlibcKeepsEmptyArguments | build_toolchain.py:702-712 | glibc's configure line keeps empty arguments, which the binutils and GCC lines never carry |
| GccToolchain.GccBuilder.constructor | build_toolchain.py:523-526 | the builder holds a source manager on the same configuration and host, and the prepared build environment |
| GccToolchain.GccBuilder.Build | build_toolchain.py:556-579 | `build` performed in place agrees with the GCC build function, every exception giving false |
| GccToolchain.GccBuilder.BuildBinutils | build_toolchain.py:581-614 | `_build_binutils` agrees with the binutils stage |
| GccToolchain.GccBuilder.BuildGcc | build_toolchain.py:616-671 | `_build_gcc` agrees with the GCC stage |
| GccToolchain.GccBuilder.RunCompilerCommands | build_toolchain.py:630-666 | the first four GCC commands run as a list |
| GccToolchain.GccBuilder.BuildLibc | build_toolchain.py:673-697 | `_build_libc` agrees with the library stage |
| GccToolchain.GccBuilder.BuildGlibc | build_toolchain.py:699-719 | `_build_glibc` runs its command list, installing into the sysroot only when there is one |
| GccToolchain.GccBuilder.BuildNewlib | build_toolchain.py:721-738 | `_build_newlib` runs its command list |
| GccToolchain.GccBuilder.BuildMusl | build_toolchain.py:740-756 | `_build_musl` runs its command list |
| LlvmToolchain.LlvmTarget | build_toolchain.py:818-831 | the result is the fallback list exactly when the lower-cased architecture is not in the table, and otherwise one of the table's backends |
| LlvmToolchain.CaseInsensitive | build_toolchain.py:831 | an architecture and its lower-cased form select the same backends |
| LlvmToolchain.EmptyArchGuardRedundant | build_toolchain.py:797 | the empty-architecture guard gives what the table lookup already gives |
| LlvmToolchain.TableExamples | build_toolchain.py:818-831 | riscv64 and RISCV64 give RISCV, i686 and I686 give X86, sparc gives the fallback |
| LlvmToolchain.TargetsAreKnown | build_toolchain.py:818-831 | the result is one of six backends or the fallback list |
| LlvmToolchain.DisabledComponentsUnused | build_toolchain.py:791-809 | the CMake line does not depend on the disabled components |
| LlvmToolchain.DefaultProjects | build_toolchain.py:151-153 | a derived LLVM configuration with no components asks CMake for clang, lld and compiler-rt |
| LlvmToolchain.DefaultComponentsJoined | build_toolchain.py:796 | the default components, comma-joined, are `clang,lld,compiler-rt` |
| LlvmToolchain.ProjectsArgument | build_toolchain.py:796 | the projects argument is the comma-joined enabled components |
| LlvmToolchain.LlvmBuildFollowsPlan | build_toolchain.py:761-816 | the LLVM build runs a prefix of cmake, ninja and ninja install, all three when it reports success |
| LlvmToolchain.LibcIgnored | build_toolchain.py:771-773 | the LLVM build's effects and result are the same whatever library and version are configured |
| LlvmToolchain.SameCommands | build_toolchain.py:782-816 | configurations agreeing on the fields the LLVM stage reads give the same commands |
| LlvmToolchain.LlvmBuilder.constructor | build_toolchain.py:523-526 | the builder holds a source manager on the same configuration and host, and the prepared build environment |
| LlvmToolchain.LlvmBuilder.Build | build_toolchain.py:761-780 | `build` performed in place agrees with the LLVM build function |
| LlvmToolchain.LlvmBuilder.BuildLlvm | build_toolchain.py:782-816 | `_build_llvm` agrees with the LLVM stage |
| Validation.RequiredBinaries | build_toolchain.py:876-887 | GCC needs six tools prefixed with the target; LLVM needs four, among them clang and lld |
| Validation.Missing | build_toolchain.py:889-894 | a binary is reported missing exactly when it is required and its path under `prefix/bin` is absent |
| Validation.MissingDistinct | build_toolchain.py:889-894 | distinct required binaries give distinct missing ones |
| Validation.NoneMissing | build_toolchain.py:896-902 | nothing is missing exactly when every required binary exists |
| Validation.MissingStep | build_toolchain.py:892-894 | each loop step adds the binary to the missing list exactly when its path is absent |
| Validation.UnquotedTarget | build_toolchain.py:910-915 | as written, the default target goes into the test program as the bare expression `x86_64-elf`, not a string literal |
| Validation.QuotedTargetIsString | build_toolchain.py:910-915 | with quotes, the `printf` argument is a string literal whose text is the target |
| Validation.ValidateIff | build_toolchain.py:848-943 | validation passes exactly when every binary exists, the test directory and program can be written, and the compiler exits with 0 |
| Validation.MissingBinaryStops | build_toolchain.py:854-855 | a missing binary fails validation before anything is written or run |
| Validation.ValidateRunsOneCommand | build_toolchain.py:924-934 | validation runs at most the compile command, which sees the process environment unchanged |
| Validation.RunTestsIrrelevant | build_toolchain.py:862-864 | asking for the tests does not change the result, since they always pass |
| Validation.Validator.constructor | build_toolchain.py:845-846 | the validator keeps its configuration and host |
| Validation.Validator.CheckBinaries | build_toolchain.py:873-902 | the loop collects exactly the missing binaries, and reports true exactly when every required binary exists |
| Validation.Validator.TestCompile | build_toolchain.py:904-943 | `_test_compilation` agrees with the test function: write errors propagate, a failed compile gives false |
| Validation.Validator.Validate | build_toolchain.py:848-871 | `validate` agrees with the validation function |
| Installation.PackageName | build_toolchain.py:1063 | the package name is `<toolchain>-<target>-<version>`: it starts with the toolchain, a dash, the target and a dash, ends with the version, and has nothing else |
| Installation.PackageNameDeterminesVersion | build_toolchain.py:1063 | for one toolchain and target, two package names are equal exactly when their versions are |
| Installation.DoubledTarSuffix | build_toolchain.py:1071 | as written, the checksum of `dir/name.tar.xz` goes to `dir/name.tar.tar.xz.sha256` |
| Installation.TarXzName | build_toolchain.py:1064 | the package file's name is `name.tar` followed by its suffix `.xz` |
| Installation.DefaultChecksumName | build_toolchain.py:1063-1071 | the default GCC package is `gcc-x86_64-elf-13.2.0`, and as written its checksum goes to `…13.2.0.tar.tar.xz.sha256` |
| Installation.ChecksumBesidePackage | build_toolchain.py:1071-1074 | the corrected checksum file sits in the package's directory, is named after it with `.sha256`, and is a different path |
| Installation.InstallWrites | build_toolchain.py:958-981 | installing runs no build command (the trace is unchanged) and downloads nothing; on success the version file and the environment script exist |
| Installation.PackageNotScript | build_toolchain.py:1064 | the package is never the version file or the environment script |
| Installation.ChecksumNotScript | build_toolchain.py:1071 | the checksum file, both at the path `with_suffix` gives and at the corrected path, is never the version file or the environment script |
| Installation.NoPackageWithoutUpload | build_toolchain.py:973-974 | unless both GitHub Actions and artifact upload are set, only the prefix and its two files can change |
| Installation.ChecksumMatchesPackage | build_toolchain.py:1066-1074 | after a packaging install, the checksum file holds the digest of the tarball as stored, two spaces and the tarball's name |
| Installation.Installer.constructor | build_toolchain.py:955-956 | the installer keeps its configuration and host |
| Installation.Installer.Install | build_toolchain.py:958-981 | `install` performed in place agrees with the install function |
| Installation.Installer.CreatePackage | build_toolchain.py:1059-1077 | `_create_package` writes the tarball, reads it back, and writes its checksum file |

## Left out

- Real I/O is not modelled: processes, the network, sha256, tar/zip extraction and file contents are oracles in `Host.World`. `subprocess.run` details, output capture and stderr truncation are absent; only the exit status matters.
- Files created by commands (configure, make, ninja) are not modelled. A run changes only the trace.
- Parent directories are not modelled. `mkdir(parents=True)`, `dest.parent.mkdir` in `download_file`, and the source and cache directories the `SourceManager` constructor creates do not appear; paths are plain strings joined with '/', without normalisation.
- A failed `urlretrieve` that leaves a partial file is not modelled. A failed fetch leaves no destination.
- The texts of `VERSION.txt` and the environment script are not modelled. They come from the `generated` oracle, because the version file embeds the output of `date`. The script's `chmod` and the tarball's contents are not modelled either.
- `str.lower()` is modelled for ASCII letters only.
- The `date` subprocess that `_create_version_file` starts through `os.popen` is not recorded in the trace. Its output is part of the version file's text, which the `generated` oracle supplies.
- Logging, colours, the GitHub Actions workflow generator, argparse and `main` are not modelled. They produce output only or sit outside the build core.
- The job count's default from `os.cpu_count()` is not modelled. It is host-dependent, so `jobs` is a parameter.
- Validate: the test program it writes is the corrected one, with the target as a string literal (`TestProgramQuoted`), not the bare triple that `_test_compilation` substitutes. Whether the compile then succeeds is an oracle of the world either way, so only the written file's bytes differ from the code as written.
- TestCompile: writes `TestProgramQuoted`, not the unquoted program of lines 911-917, for the reason given under Findings; `Validation.UnquotedTarget` states what the code as written produces.
- TestCompilation: the same corrected program text as `TestCompile`.
- Install: in its packaging branch the checksum file goes to the corrected path `<package>.sha256`, not to the `….tar.tar.xz.sha256` path that `with_suffix` gives; `Installation.DoubledTarSuffix` states the path as written.
- CreatePackage: writes the checksum to `<package>.sha256`, not to the `with_suffix` path of line 1071.
- Package: the same corrected checksum path as `CreatePackage`.
- ChecksumMatchesPackage: states the checksum's contents at the corrected path `<package>.sha256`; the code as written stores the same text at `….tar.tar.xz.sha256`.
- A command that cannot be started, which `run_command` re-raises as a `RuntimeError`, is not told apart from one that exits with a non-zero status: both are a failed command.

## Findings

| source | as written | input that shows it | evidently intended | confidence | as-written member | corrected member |
|---|---|---|---|---|---|---|
| build_toolchain.py:1071 | `package_file.with_suffix(".tar.xz.sha256")` replaces only the last suffix `.xz` of `name.tar.xz` | default GCC configuration: package `./build/gcc-x86_64-elf-13.2.0.tar.xz` gets checksum file `./build/gcc-x86_64-elf-13.2.0.tar.tar.xz.sha256` | checksum file `<package>.sha256`, that is `gcc-x86_64-elf-13.2.0.tar.xz.sha256` | high, not executed | Installation.DoubledTarSuffix | Installation.ChecksumBesidePackage |
| build_toolchain.py:910-915 | the target triple replaces `__TARGET__` without quotes, as the `printf` argument for `%s` | target `x86_64-elf` gives `printf("Hello from %s\n", x86_64-elf);`, which names undeclared identifiers, so every test compilation fails | the target as a string literal, `"x86_64-elf"` | high, not executed | Validation.UnquotedTarget | Validation.QuotedTargetIsString |

The rest of the model uses the corrected definitions. `Validation.TestCompilation` writes `TestProgramQuoted`, and `Installation.Package` writes the checksum to `ChecksumFile`.
