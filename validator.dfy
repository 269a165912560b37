/**
 * Validation of a built toolchain: the required binaries must exist under
 * the prefix, then a small C program must compile with the new compiler;
 * the further tests step always succeeds.
 */
module Validation {
  import opened Strings
  import opened Results
  import opened Config
  import opened Environment
  import opened Host

  /** The directory the binaries are installed in. */
  function BinDir(c: BuildConfig): string
  {
    JoinPath(c.prefix, "bin")
  }

  /** The binaries `_check_binaries` requires: the target-prefixed GNU tools, or four LLVM tools. */
  function RequiredBinaries(c: BuildConfig): (r: seq<string>)
    ensures c.toolchain == GCC ==> |r| == 6 && forall i :: 0 <= i < |r| ==> c.target + "-" <= r[i]
    ensures c.toolchain == LLVM ==> |r| == 4 && "clang" in r && "lld" in r
  {
    if c.toolchain == GCC then
      [c.target + "-gcc", c.target + "-g++", c.target + "-ld",
       c.target + "-ar", c.target + "-as", c.target + "-objcopy"]
    else
      ["clang", "clang++", "lld", "llvm-ar"]
  }

  /** The names of `names` with no path under `dir`, in their order. */
  function Missing(fs: map<string, Node>, dir: string, names: seq<string>): (r: seq<string>)
    ensures forall n :: n in r <==> n in names && JoinPath(dir, n) !in fs
    ensures |r| <= |names|
    decreases |names|
  {
    if names == [] then []
    else
      var last := names[|names| - 1];
      Missing(fs, dir, names[..|names| - 1]) + (if JoinPath(dir, last) !in fs then [last] else [])
  }

  /** No element occurs twice. */
  predicate Distinct(s: seq<string>)
  {
    forall i, j :: 0 <= i < j < |s| ==> s[i] != s[j]
  }

  /**
   * Every name is reported at most as often as it is listed: a list of
   * distinct binaries gives a list of distinct missing ones.
   */
  lemma {:induction false} MissingDistinct(fs: map<string, Node>, dir: string, names: seq<string>)
    requires Distinct(names)
    ensures Distinct(Missing(fs, dir, names))
    decreases |names|
  {
    if names != [] {
      var init := names[..|names| - 1];
      assert forall i :: 0 <= i < |init| ==> init[i] == names[i];
      MissingDistinct(fs, dir, init);
      var last := names[|names| - 1];
      var r0 := Missing(fs, dir, init);
      assert last !in init;
      assert last !in r0;
      var extra := if JoinPath(dir, last) !in fs then [last] else [];
      var r := Missing(fs, dir, names);
      assert r == r0 + extra;
      forall i, j | 0 <= i < j < |r|
        ensures r[i] != r[j]
      {
        if j >= |r0| {
          assert r[j] == last && r[i] == r0[i] && r0[i] in r0;
          assert r0[i] != last;
        } else {
          assert r[i] == r0[i] && r[j] == r0[j];
          assert r0[i] != r0[j];
        }
      }
    }
  }

  /** Nothing is missing exactly when every name has a path under `dir`. */
  lemma NoneMissing(fs: map<string, Node>, dir: string, names: seq<string>)
    ensures Missing(fs, dir, names) == [] <==> forall n :: n in names ==> JoinPath(dir, n) in fs
  {
    var r := Missing(fs, dir, names);
    if r != [] {
      assert r[0] in r;
    }
  }

  /** One more name: the missing list grows by that name exactly when its path is absent. */
  lemma MissingStep(fs: map<string, Node>, dir: string, names: seq<string>, i: nat)
    requires i < |names|
    ensures Missing(fs, dir, names[..i + 1]) ==
      Missing(fs, dir, names[..i]) + (if JoinPath(dir, names[i]) !in fs then [names[i]] else [])
  {
    assert names[..i + 1][..i] == names[..i];
  }

  /** The test directory, the program written there and the binary compiled from it. */
  function TestDir(c: BuildConfig): string
  {
    JoinPath(c.buildDir, "test")
  }

  function TestSource(c: BuildConfig): string
  {
    JoinPath(TestDir(c), "test.c")
  }

  function TestBinary(c: BuildConfig): string
  {
    JoinPath(TestDir(c), "test.elf")
  }

  /** The text of the test program before and after the argument that names the target. */
  const ProgramHead: string := "\n#include <stdio.h>\nint main() {\n    printf(\"Hello from %s\\n\", "
  const ProgramTail: string := ");\n    return 0;\n}\n"

  /** The test program with `arg` as the argument printed after "Hello from". */
  function TestProgram(arg: string): string
  {
    ProgramHead + arg + ProgramTail
  }

  /** The program as the script writes it: the placeholder replaced by the bare target triple. */
  function TestProgramAsWritten(target: string): string
  {
    TestProgram(target)
  }

  /** A C string literal without escapes: quotes around text holding no quote or backslash. */
  predicate IsStringLiteral(s: string)
  {
    |s| >= 2 && s[0] == '"' && s[|s| - 1] == '"' && forall i :: 1 <= i < |s| - 1 ==> s[i] != '"' && s[i] != '\\'
  }

  /** The target as a C string literal. */
  function Quoted(target: string): string
  {
    "\"" + target + "\""
  }

  /** The program the model writes: the target triple as a string literal for `%s`. */
  function TestProgramQuoted(target: string): string
  {
    TestProgram(Quoted(target))
  }

  /**
   * As written, the default target makes the argument of `printf` the C
   * expression `x86_64-elf`, not a string: it is not a string literal.
   */
  lemma UnquotedTarget()
    ensures TestProgramAsWritten("x86_64-elf") == ProgramHead + "x86_64-elf" + ProgramTail
    ensures !IsStringLiteral("x86_64-elf")
  {
  }

  /**
   * Quoted, the argument is a string literal whose text is the target, for
   * every target without quotes or backslashes.
   */
  lemma QuotedTargetIsString(target: string)
    requires forall i :: 0 <= i < |target| ==> target[i] != '"' && target[i] != '\\'
    ensures IsStringLiteral(Quoted(target))
    ensures Quoted(target)[1..|Quoted(target)| - 1] == target
    ensures TestProgramQuoted(target) == ProgramHead + Quoted(target) + ProgramTail
  {
    var q := Quoted(target);
    assert forall i :: 1 <= i < |q| - 1 ==> q[i] == target[i - 1];
  }

  /** The compiler the test uses: the target-prefixed gcc or clang, from the prefix. */
  function Compiler(c: BuildConfig): string
  {
    JoinPath(BinDir(c), if c.toolchain == GCC then c.target + "-gcc" else "clang")
  }

  /** The compile command: no directory and no extra variables. */
  function CompileCommand(c: BuildConfig): Command
  {
    Command([Compiler(c), TestSource(c), "-o", TestBinary(c), "-v"], None, None)
  }

  /**
   * `_test_compilation`: the directory and the program are made outside its
   * try block, so their errors propagate; the compilation's failure is
   * caught and reported as false.
   */
  function TestCompilation(w: World, m: Machine, c: BuildConfig): (Machine, Result<bool>)
  {
    var (m1, o1) := PrepareDir(m, TestDir(c), false);
    if o1.Fail? then (m1, Failure(o1.error)) else
    var (m2, o2) := WriteFile(m1, TestSource(c), w.encode(TestProgramQuoted(c.target)));
    if o2.Fail? then (m2, Failure(o2.error)) else
    var (m3, o3) := Run(w, m2, CompileCommand(c));
    (m3, Success(o3.Pass?))
  }

  /** `_run_tests`: nothing is run and it reports success. */
  function RunTests(): bool
  {
    true
  }

  /** `validate`: binaries, compilation, then the tests if asked for; any exception gives false. */
  function ValidateToolchain(w: World, m: Machine, c: BuildConfig): (Machine, bool)
  {
    if Missing(m.fs, BinDir(c), RequiredBinaries(c)) != [] then (m, false)
    else
      var (m1, r) := TestCompilation(w, m, c);
      if r.Failure? || !r.value then (m1, false)
      else if c.runTests && !RunTests() then (m1, false)
      else (m1, true)
  }

  /**
   * Validation passes exactly when every required binary exists, the test
   * directory and program can be written, and the compiler exits with 0.
   */
  lemma ValidateIff(w: World, m: Machine, c: BuildConfig)
    ensures ValidateToolchain(w, m, c).1 <==>
      Missing(m.fs, BinDir(c), RequiredBinaries(c)) == [] &&
      !(TestDir(c) in m.fs && m.fs[TestDir(c)].File?) &&
      !(TestSource(c) in m.fs && m.fs[TestSource(c)].Dir?) &&
      w.exit(Start(w, CompileCommand(c))) == 0
  {
    assert TestSource(c) != TestDir(c) by {
      assert |TestSource(c)| > |TestDir(c)|;
    }
  }

  /** With a binary missing, validation fails at once: nothing is written and nothing runs. */
  lemma MissingBinaryStops(w: World, m: Machine, c: BuildConfig, name: string)
    requires name in RequiredBinaries(c) && JoinPath(BinDir(c), name) !in m.fs
    ensures ValidateToolchain(w, m, c) == (m, false)
  {
    assert name in Missing(m.fs, BinDir(c), RequiredBinaries(c));
  }

  /**
   * Validation runs at most the one compile command, and that command sees
   * the process environment unchanged, not the build environment.
   */
  lemma ValidateRunsOneCommand(w: World, m: Machine, c: BuildConfig)
    ensures var m' := ValidateToolchain(w, m, c).0;
      m'.trace == m.trace || m'.trace == m.trace + [CompileCommand(c)]
    ensures Start(w, CompileCommand(c)).env == w.environ
  {
  }

  /** Asking for the tests changes nothing, since they always succeed. */
  lemma RunTestsIrrelevant(w: World, m: Machine, c: BuildConfig, runTests: bool)
    ensures ValidateToolchain(w, m, c.(runTests := runTests)) == ValidateToolchain(w, m, c)
  {
    var c' := c.(runTests := runTests);
    assert RequiredBinaries(c') == RequiredBinaries(c);
    assert BinDir(c') == BinDir(c);
    assert TestCompilation(w, m, c') == TestCompilation(w, m, c) by {
      assert TestDir(c') == TestDir(c) && TestSource(c') == TestSource(c);
      assert CompileCommand(c') == CompileCommand(c);
    }
  }

  /** `ToolchainValidator`: the configuration and the host it checks. */
  class Validator {
    const config: BuildConfig
    const host: Host

    constructor (c: BuildConfig, h: Host)
      ensures config == c && host == h
    {
      config := c;
      host := h;
    }

    /** `_check_binaries`: the missing binaries collected in order; true when there are none. */
    method CheckBinaries() returns (ok: bool, missing: seq<string>)
      ensures missing == Missing(host.fs, BinDir(config), RequiredBinaries(config))
      ensures ok <==> missing == []
      ensures ok <==> forall n :: n in RequiredBinaries(config) ==> JoinPath(BinDir(config), n) in host.fs
    {
      var required := RequiredBinaries(config);
      var dir := BinDir(config);
      missing := [];
      for i := 0 to |required|
        invariant missing == Missing(host.fs, dir, required[..i])
      {
        MissingStep(host.fs, dir, required, i);
        if JoinPath(dir, required[i]) !in host.fs {
          missing := missing + [required[i]];
        }
      }
      assert required[..|required|] == required;
      NoneMissing(host.fs, dir, required);
      ok := missing == [];
    }

    /** `_test_compilation`. */
    method TestCompile() returns (r: Result<bool>)
      modifies host
      ensures (host.State(), r) == TestCompilation(host.world, old(host.State()), config)
    {
      var o := host.PrepareBuildDir(TestDir(config), false);
      if o.Fail? {
        return Failure(o.error);
      }
      o := host.Write(TestSource(config), host.world.encode(TestProgramQuoted(config.target)));
      if o.Fail? {
        return Failure(o.error);
      }
      o := host.RunCommand(CompileCommand(config));
      r := Success(o.Pass?);
    }

    /** `validate`. */
    method Validate() returns (ok: bool)
      modifies host
      ensures (host.State(), ok) == ValidateToolchain(host.world, old(host.State()), config)
    {
      var found, missing := CheckBinaries();
      if !found {
        return false;
      }
      var compiled := TestCompile();
      if compiled.Failure? || !compiled.value {
        return false;
      }
      if config.runTests && !RunTests() {
        return false;
      }
      ok := true;
    }
  }
}
