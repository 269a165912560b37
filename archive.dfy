/**
 * Paths as the archive code sees them: the final component (`Path.name`),
 * its suffix (`Path.suffix`), `Path.with_suffix`, and the suffix test
 * `extract_archive` uses to choose between tar and zip.
 */
module Archive {
  import opened Strings

  /** `Path.name`: the text after the last '/'. */
  function Name(p: string): (r: string)
    ensures '/' !in r
    ensures '/' !in p ==> r == p
  {
    if '/' in p then p[LastIndexOf(p, '/') + 1..] else p
  }

  /** Everything up to and including the last '/', so that `Dir(p) + Name(p) == p`. */
  function Dir(p: string): (r: string)
    ensures r + Name(p) == p
  {
    if '/' in p then p[..LastIndexOf(p, '/') + 1] else ""
  }

  /**
   * `Path.suffix`: from the last '.' of the name, provided that dot is
   * neither the first nor the last character of the name; otherwise "".
   */
  function Suffix(p: string): (r: string)
    ensures r == "" || (|r| >= 2 && r[0] == '.' && '.' !in r[1..])
  {
    NameSuffix(Name(p))
  }

  /** The suffix of a final path component. */
  function NameSuffix(n: string): (r: string)
    ensures r == "" || (|r| >= 2 && r[0] == '.' && '.' !in r[1..])
    ensures EndsWith(n, r)
  {
    if '.' in n && 0 < LastIndexOf(n, '.') < |n| - 1 then n[LastIndexOf(n, '.')..] else ""
  }

  datatype ArchiveFormat = Tar | Zip | Unsupported

  /**
   * The test in `extract_archive`: tar when the suffix is .gz, .bz2 or .xz
   * or the name contains ".tar.", else zip when the suffix is .zip, else
   * unsupported.
   */
  function Format(p: string): ArchiveFormat
  {
    NameFormat(Name(p))
  }

  /** The format test on a final path component. */
  function NameFormat(n: string): ArchiveFormat
  {
    if NameSuffix(n) in [".gz", ".bz2", ".xz"] || Contains(n, ".tar.") then Tar
    else if NameSuffix(n) == ".zip" then Zip
    else Unsupported
  }

  /**
   * `Path.with_suffix(s)` for a valid suffix `s`: the name's suffix, if any,
   * is replaced by `s`, and the directory part is kept.
   */
  function WithSuffix(p: string, s: string): (r: string)
    ensures EndsWith(r, s)
  {
    var n := Name(p);
    var sfx := Suffix(p);
    Dir(p) + (if sfx == "" then n else n[..|n| - |sfx|]) + s
  }

  /** `with_suffix` on a path whose name is `stem` followed by its suffix `sfx` replaces `sfx` by `s`. */
  lemma WithSuffixOfName(p: string, stem: string, sfx: string, s: string)
    requires Name(p) == stem + sfx && Suffix(p) == sfx
    ensures WithSuffix(p, s) == Dir(p) + stem + s
  {
    assert Name(p)[..|Name(p)| - |sfx|] == stem;
  }

  /** The name of `dir/file` is `file` whenever `file` has no '/'. */
  lemma NameOfJoin(dir: string, file: string)
    requires '/' !in file
    ensures Name(dir + "/" + file) == file
    ensures Dir(dir + "/" + file) == dir + "/"
  {
    LastIndexAfter(dir, '/', file);
    assert dir + "/" + file == dir + ['/'] + file;
  }

  /**
   * The suffix of a name `stem.ext` with a non-empty stem and a non-empty,
   * dot-free extension is ".ext".
   */
  lemma NameSuffixOf(stem: string, ext: string)
    requires '.' !in ext
    requires stem != [] && ext != []
    ensures NameSuffix(stem + "." + ext) == "." + ext
  {
    var n := stem + "." + ext;
    assert n == stem + ['.'] + ext;
    LastIndexAfter(stem, '.', ext);
    assert n[|stem|..] == "." + ext;
  }

  /**
   * A name has no suffix when no dot follows its first character (no dot
   * at all, or only a leading one) or when it ends in a dot.
   */
  lemma NoSuffix(n: string)
    ensures (n == [] || '.' !in n[1..]) ==> NameSuffix(n) == ""
    ensures (n != [] && n[|n| - 1] == '.') ==> NameSuffix(n) == ""
  {
    if n != [] && '.' !in n[1..] {
      assert forall j :: 1 <= j < |n| ==> n[j] == n[1..][j - 1];
    }
  }

  /**
   * Every source archive the build downloads is a tar archive: a name ending
   * in ".tar.xz" or ".tar.gz" has suffix .xz or .gz.
   */
  lemma TarballsAreTar(stem: string)
    ensures NameFormat(stem + ".tar.xz") == Tar
    ensures NameFormat(stem + ".tar.gz") == Tar
  {
    NameSuffixOf(stem + ".tar", "xz");
    assert (stem + ".tar") + "." + "xz" == stem + ".tar.xz";
    assert "." + "xz" == ".xz";
    NameSuffixOf(stem + ".tar", "gz");
    assert (stem + ".tar") + "." + "gz" == stem + ".tar.gz";
    assert "." + "gz" == ".gz";
  }

  /** A name with a non-empty stem and the suffix .gz, .bz2 or .xz is a tar archive. */
  lemma CompressedAreTar(stem: string, ext: string)
    requires stem != [] && ext in ["xz", "gz", "bz2"]
    ensures NameFormat(stem + "." + ext) == Tar
  {
    if ext == "xz" {
      NameSuffixOf(stem, "xz");
      assert "." + "xz" == ".xz";
    } else if ext == "gz" {
      NameSuffixOf(stem, "gz");
      assert "." + "gz" == ".gz";
    } else {
      NameSuffixOf(stem, "bz2");
      assert "." + "bz2" == ".bz2";
    }
  }

  /**
   * Any other suffix, in a name without ".tar.", reaches the error branch:
   * the archive format is unsupported.
   */
  lemma OtherSuffixUnsupported(stem: string, ext: string)
    requires stem != [] && ext != [] && '.' !in ext
    requires ext !in ["gz", "bz2", "xz", "zip"]
    requires !Contains(stem + "." + ext, ".tar.")
    ensures NameFormat(stem + "." + ext) == Unsupported
  {
    NameSuffixOf(stem, ext);
    var sfx := "." + ext;
    assert sfx[1..] == ext;
    assert ".gz"[1..] == "gz" && ".bz2"[1..] == "bz2" && ".xz"[1..] == "xz" && ".zip"[1..] == "zip";
    assert sfx !in [".gz", ".bz2", ".xz"] && sfx != ".zip";
  }

  /** A name with the suffix .zip and no ".tar." in it is a zip archive. */
  lemma ZipIsZip(stem: string)
    requires stem != []
    requires !Contains(stem + ".zip", ".tar.")
    ensures NameFormat(stem + ".zip") == Zip
  {
    assert stem + ".zip" == stem + "." + "zip";
    NameSuffixOf(stem, "zip");
    assert "." + "zip" == ".zip";
    assert ".zip" !in [".gz", ".bz2", ".xz"];
  }

  /**
   * The tar test wins over the zip test: "release.tar.zip" is opened as a
   * tar archive because its name contains ".tar.".
   */
  lemma TarTestComesFirst()
    ensures NameSuffix("release.tar.zip") == ".zip"
    ensures NameFormat("release.tar.zip") == Tar
  {
    assert "release.tar.zip" == "release.tar" + "." + "zip";
    NameSuffixOf("release.tar", "zip");
    assert ".tar." <= "release.tar.zip"[7..];
    ContainsSuffix("release.tar.zip", 7, ".tar.");
  }

  /** A compressed file whose name is only the extension, such as ".gz", has no suffix and is unsupported. */
  lemma HiddenNameUnsupported()
    ensures NameFormat(".gz") == Unsupported
  {
    assert ".gz" == [] + ['.'] + "gz";
    LastIndexAfter([], '.', "gz");
    assert !Contains(".gz", ".tar.");
  }

  /** Containment in a suffix is containment in the whole. */
  lemma {:induction false} ContainsSuffix(s: string, k: nat, sub: string)
    requires k <= |s|
    requires Contains(s[k..], sub)
    ensures Contains(s, sub)
    decreases k
  {
    if k > 0 {
      assert s[1..][k - 1..] == s[k..];
      ContainsSuffix(s[1..], k - 1, sub);
    }
  }
}
