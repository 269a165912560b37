/**
 * Installation: the prefix directory, the version file and the environment
 * script in it, and, for an artifact upload from GitHub Actions, an xz
 * tarball in the build directory with a sha256 checksum file beside it.
 */
module Installation {
  import opened Strings
  import opened Results
  import opened Config
  import opened Archive
  import opened Host

  /** The version in the package name and the version file: GCC's for GCC, LLVM's otherwise. */
  function ToolchainVersion(c: BuildConfig): string
  {
    if c.toolchain == GCC then c.gccVersion else c.llvmVersion
  }

  /** `<toolchain>-<target>-<version>`. */
  function PackageName(c: BuildConfig): (r: string)
    ensures ToolchainValue(c.toolchain) + "-" + c.target + "-" <= r
    ensures EndsWith(r, ToolchainVersion(c))
    ensures |r| == |ToolchainValue(c.toolchain)| + |c.target| + |ToolchainVersion(c)| + 2
  {
    ToolchainValue(c.toolchain) + "-" + c.target + "-" + ToolchainVersion(c)
  }

  /**
   * For a given toolchain and target the package name determines the
   * version: two such names agree exactly when their versions do.
   */
  lemma PackageNameDeterminesVersion(c: BuildConfig, c': BuildConfig)
    requires c'.toolchain == c.toolchain && c'.target == c.target
    ensures PackageName(c) == PackageName(c') <==> ToolchainVersion(c) == ToolchainVersion(c')
  {
    var head := ToolchainValue(c.toolchain) + "-" + c.target + "-";
    if PackageName(c) == PackageName(c') {
      assert PackageName(c)[|head|..] == ToolchainVersion(c);
      assert PackageName(c')[|head|..] == ToolchainVersion(c');
    }
  }

  function VersionFile(c: BuildConfig): string
  {
    JoinPath(c.prefix, "VERSION.txt")
  }

  function EnvScript(c: BuildConfig): string
  {
    JoinPath(c.prefix, "environment")
  }

  /** The tarball: `<build dir>/<package name>.tar.xz`. */
  function PackageFile(c: BuildConfig): string
  {
    JoinPath(c.buildDir, PackageName(c) + ".tar.xz")
  }

  /** The checksum file's path as the script computes it, with `with_suffix`. */
  function ChecksumFileAsWritten(pkg: string): string
  {
    WithSuffix(pkg, ".tar.xz.sha256")
  }

  /** The checksum file's path the model uses: the package's path with ".sha256" appended. */
  function ChecksumFile(pkg: string): string
  {
    pkg + ".sha256"
  }

  /** The text of the checksum file: the digest, two spaces, the package's file name. */
  function ChecksumText(w: World, pkg: string, data: Blob): string
  {
    w.digest(data) + "  " + Name(pkg)
  }

  /**
   * `with_suffix` replaces only the last suffix, ".xz", so the checksum of
   * `dir/name.tar.xz` lands in `dir/name.tar.tar.xz.sha256`.
   */
  lemma DoubledTarSuffix(dir: string, name: string)
    requires '/' !in name && name != []
    ensures ChecksumFileAsWritten(JoinPath(dir, name + ".tar.xz")) == JoinPath(dir, name + ".tar" + ".tar.xz.sha256")
  {
    var p := JoinPath(dir, name + ".tar.xz");
    TarXzName(dir, name);
    WithSuffixOfName(p, name + ".tar", ".xz", ".tar.xz.sha256");
    JoinAfter(dir, name + ".tar", ".tar.xz.sha256");
  }

  /** Appending to a joined path appends to its last component. */
  lemma JoinAfter(dir: string, stem: string, s: string)
    ensures (dir + "/") + stem + s == JoinPath(dir, stem + s)
  {
  }

  /** The name of `dir/name.tar.xz` is `name.tar` followed by its suffix ".xz". */
  lemma TarXzName(dir: string, name: string)
    requires '/' !in name && name != []
    ensures Name(JoinPath(dir, name + ".tar.xz")) == name + ".tar" + ".xz"
    ensures Suffix(JoinPath(dir, name + ".tar.xz")) == ".xz"
    ensures Archive.Dir(JoinPath(dir, name + ".tar.xz")) == dir + "/"
  {
    var file := name + ".tar.xz";
    assert '/' !in file by {
      assert forall i :: |name| <= i < |file| ==> file[i] in ".tar.xz";
    }
    NameOfJoin(dir, file);
    TarXzSplit(name);
    NameSuffixOf(name + ".tar", "xz");
  }

  /** "name.tar.xz" is "name.tar" + "." + "xz", and "name.tar" + ".xz". */
  lemma TarXzSplit(name: string)
    ensures name + ".tar.xz" == (name + ".tar") + "." + "xz"
    ensures name + ".tar.xz" == name + ".tar" + ".xz"
  {
  }

  /**
   * With the default GCC target and version, the package is
   * `gcc-x86_64-elf-13.2.0.tar.xz` and its checksum is written to
   * `gcc-x86_64-elf-13.2.0.tar.tar.xz.sha256`.
   */
  lemma DefaultChecksumName(c: BuildConfig)
    requires c.toolchain == GCC && c.target == "x86_64-elf" && c.gccVersion == "13.2.0"
    ensures PackageName(c) == "gcc" + "-" + "x86_64-elf" + "-" + "13.2.0"
    ensures ChecksumFileAsWritten(PackageFile(c)) == JoinPath(c.buildDir, PackageName(c) + ".tar" + ".tar.xz.sha256")
  {
    var n := PackageName(c);
    assert '/' !in n by {
      assert '/' !in "x86_64-elf" && '/' !in "13.2.0" && '/' !in "gcc";
      NoSlashConcat("gcc", "-");
      NoSlashConcat("gcc" + "-", "x86_64-elf");
      NoSlashConcat("gcc" + "-" + "x86_64-elf", "-");
      NoSlashConcat("gcc" + "-" + "x86_64-elf" + "-", "13.2.0");
    }
    DoubledTarSuffix(c.buildDir, n);
  }

  /** Joining two names without a slash gives a name without a slash. */
  lemma NoSlashConcat(a: string, b: string)
    requires '/' !in a && '/' !in b
    ensures '/' !in a + b
  {
  }

  /** The corrected checksum file sits beside the package and is named after it. */
  lemma ChecksumBesidePackage(dir: string, file: string)
    requires '/' !in file
    ensures Name(ChecksumFile(JoinPath(dir, file))) == file + ".sha256"
    ensures Archive.Dir(ChecksumFile(JoinPath(dir, file))) == dir + "/"
    ensures ChecksumFile(JoinPath(dir, file)) != JoinPath(dir, file)
  {
    var named := file + ".sha256";
    assert '/' !in named by {
      assert forall i :: |file| <= i < |named| ==> named[i] != '/';
      assert forall i :: 0 <= i < |file| ==> named[i] == file[i];
    }
    assert ChecksumFile(JoinPath(dir, file)) == JoinPath(dir, named);
    NameOfJoin(dir, named);
  }

  /**
   * `_create_package`: the tarball of the prefix, read back and digested,
   * then the checksum file. The tarball's bytes are not modelled.
   */
  function Package(w: World, m: Machine, c: BuildConfig): (Machine, Outcome)
  {
    var pkg := PackageFile(c);
    var (m1, o1) := WriteFile(m, pkg, w.generated(pkg));
    if o1.Fail? then (m1, o1) else
    WriteFile(m1, ChecksumFile(pkg), w.encode(ChecksumText(w, pkg, w.generated(pkg))))
  }

  /** The try block of `install`: the prefix, the two files, the package when asked for. */
  function InstallSteps(w: World, m: Machine, c: BuildConfig): (Machine, Outcome)
  {
    var (m1, o1) := PrepareDir(m, c.prefix, false);
    if o1.Fail? then (m1, o1) else
    var (m2, o2) := WriteFile(m1, VersionFile(c), w.generated(VersionFile(c)));
    if o2.Fail? then (m2, o2) else
    var (m3, o3) := WriteFile(m2, EnvScript(c), w.generated(EnvScript(c)));
    if o3.Fail? then (m3, o3) else
    if c.githubActions && c.uploadArtifact then Package(w, m3, c) else (m3, Pass)
  }

  /** `install`: any exception becomes false. */
  function InstallToolchain(w: World, m: Machine, c: BuildConfig): (Machine, bool)
  {
    var (m', o) := InstallSteps(w, m, c);
    (m', o.Pass?)
  }

  /**
   * Installing runs no build command (the trace is unchanged) and downloads
   * nothing; on success the prefix is a directory holding the version file
   * and the environment script.
   */
  lemma InstallWrites(w: World, m: Machine, c: BuildConfig)
    ensures var (m', ok) := InstallToolchain(w, m, c);
      m'.trace == m.trace && m'.fetched == m.fetched &&
      (ok ==> VersionFile(c) in m'.fs && m'.fs[VersionFile(c)].File? &&
              EnvScript(c) in m'.fs && m'.fs[EnvScript(c)].File?)
  {
    var (m', ok) := InstallToolchain(w, m, c);
    if ok {
      var pkg := PackageFile(c);
      assert VersionFile(c) != EnvScript(c) by {
        assert VersionFile(c)[|c.prefix| + 1] == 'V' && EnvScript(c)[|c.prefix| + 1] == 'e';
      }
      if c.githubActions && c.uploadArtifact {
        assert pkg != VersionFile(c) && pkg != EnvScript(c) by {
          PackageNotScript(c);
        }
        assert ChecksumFile(pkg) != VersionFile(c) && ChecksumFile(pkg) != EnvScript(c) by {
          ChecksumNotScript(c);
        }
      }
    }
  }

  /** The package's path ends in ".tar.xz", so it is neither of the prefix's two files. */
  lemma PackageNotScript(c: BuildConfig)
    ensures PackageFile(c) != VersionFile(c) && PackageFile(c) != EnvScript(c)
  {
    var pkg := PackageFile(c);
    assert pkg[|pkg| - 1] == 'z';
    assert VersionFile(c)[|VersionFile(c)| - 1] == 't';
    assert EnvScript(c)[|EnvScript(c)| - 1] == 't';
  }

  /**
   * The checksum's path ends in ".sha256", both as written and corrected,
   * so it is neither of the prefix's two files.
   */
  lemma ChecksumNotScript(c: BuildConfig)
    ensures ChecksumFile(PackageFile(c)) != VersionFile(c) && ChecksumFile(PackageFile(c)) != EnvScript(c)
    ensures ChecksumFileAsWritten(PackageFile(c)) != VersionFile(c) && ChecksumFileAsWritten(PackageFile(c)) != EnvScript(c)
  {
    var s := ChecksumFile(PackageFile(c));
    var t := ChecksumFileAsWritten(PackageFile(c));
    assert s[|s| - 1] == '6';
    assert t[|t| - 1] == '6';
    assert VersionFile(c)[|VersionFile(c)| - 1] == 't';
    assert EnvScript(c)[|EnvScript(c)| - 1] == 't';
  }

  /**
   * With the upload gate closed nothing is packaged: only the prefix and its
   * two files can change.
   */
  lemma NoPackageWithoutUpload(w: World, m: Machine, c: BuildConfig)
    requires !(c.githubActions && c.uploadArtifact)
    ensures var m' := InstallToolchain(w, m, c).0;
      forall p :: p != c.prefix && p != VersionFile(c) && p != EnvScript(c) ==>
        (p in m'.fs <==> p in m.fs) && (p in m.fs ==> m'.fs[p] == m.fs[p])
  {
  }

  /**
   * A successful packaging install leaves the tarball and, beside it, a
   * checksum file holding the digest of the tarball as stored and its name.
   */
  lemma ChecksumMatchesPackage(w: World, m: Machine, c: BuildConfig)
    requires c.githubActions && c.uploadArtifact
    ensures var (m', ok) := InstallToolchain(w, m, c);
      var pkg := PackageFile(c);
      ok ==> pkg in m'.fs && m'.fs[pkg].File? && ChecksumFile(pkg) in m'.fs &&
             m'.fs[ChecksumFile(pkg)] == File(w.encode(ChecksumText(w, pkg, m'.fs[pkg].data)))
  {
    var pkg := PackageFile(c);
    assert ChecksumFile(pkg) != pkg by {
      assert |ChecksumFile(pkg)| > |pkg|;
    }
  }

  /** `ToolchainInstaller`: the configuration and the host it installs on. */
  class Installer {
    const config: BuildConfig
    const host: Host

    constructor (c: BuildConfig, h: Host)
      ensures config == c && host == h
    {
      config := c;
      host := h;
    }

    /** `install`. */
    method Install() returns (ok: bool)
      modifies host
      ensures (host.State(), ok) == InstallToolchain(host.world, old(host.State()), config)
    {
      var r := host.PrepareBuildDir(config.prefix, false);
      if r.Fail? {
        return false;
      }
      r := host.Write(VersionFile(config), host.world.generated(VersionFile(config)));
      if r.Fail? {
        return false;
      }
      r := host.Write(EnvScript(config), host.world.generated(EnvScript(config)));
      if r.Fail? {
        return false;
      }
      if config.githubActions && config.uploadArtifact {
        r := CreatePackage();
      }
      ok := r.Pass?;
    }

    /** `_create_package`: the tarball, then its bytes read back and digested into the checksum file. */
    method CreatePackage() returns (r: Outcome)
      modifies host
      ensures (host.State(), r) == Package(host.world, old(host.State()), config)
    {
      var pkg := PackageFile(config);
      r := host.Write(pkg, host.world.generated(pkg));
      if r.Fail? {
        return;
      }
      var data := host.fs[pkg].data;
      r := host.Write(ChecksumFile(pkg), host.world.encode(ChecksumText(host.world, pkg, data)));
    }
  }
}
