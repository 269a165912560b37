/**
 * SourceManager: where each component's archive is downloaded from, the
 * for/else loop that tries the mirrors in order and stops at the first
 * download that succeeds, and the extraction that is skipped when the
 * source directory already exists.
 */
module Sources {
  import opened Strings
  import opened Results
  import opened Config
  import opened Host

  /** One download attempt of a mirror loop: the URL and the cache file it is saved to. */
  datatype Candidate = Candidate(url: string, dest: string)

  /**
   * The mirror loop: candidates are tried in order without a checksum; the
   * first download that succeeds ends the loop and names the archive to
   * extract; `None` is the loop's `else` branch, reached when every
   * candidate failed.
   */
  function TryCandidates(w: World, m: Machine, cs: seq<Candidate>): (Machine, Option<Candidate>)
    decreases |cs|
  {
    if cs == [] then (m, None)
    else
      var (m1, o) := Download(w, m, cs[0].url, cs[0].dest, None);
      if o.Pass? then (m1, Some(cs[0])) else TryCandidates(w, m1, cs[1..])
  }

  /** A candidate's download succeeds: its file is cached or the network delivers its URL. */
  predicate Hits(w: World, fs: map<string, Node>, c: Candidate)
  {
    c.dest in fs || w.net(c.url).Some?
  }

  /** Candidate `k` is the first whose download succeeds. */
  predicate FirstHit(w: World, fs: map<string, Node>, cs: seq<Candidate>, k: nat)
  {
    k < |cs| && Hits(w, fs, cs[k]) && forall j :: 0 <= j < k ==> !Hits(w, fs, cs[j])
  }

  /** The URLs of a list of candidates. */
  function Urls(cs: seq<Candidate>): (r: seq<string>)
    ensures |r| == |cs|
    ensures forall i :: 0 <= i < |cs| ==> r[i] == cs[i].url
  {
    seq(|cs|, i requires 0 <= i < |cs| => cs[i].url)
  }

  /**
   * The loop stops at the first candidate that succeeds: every earlier URL
   * has been requested once and failed, no later one is requested, and the
   * only file written is that candidate's, when it was not cached already.
   */
  lemma {:induction false} TryStopsAtFirstHit(w: World, m: Machine, cs: seq<Candidate>, k: nat)
    requires FirstHit(w, m.fs, cs, k)
    ensures var (m', hit) := TryCandidates(w, m, cs);
      hit == Some(cs[k]) &&
      m'.fetched == m.fetched + Urls(cs[..k]) + (if cs[k].dest in m.fs then [] else [cs[k].url]) &&
      m'.fs == (if cs[k].dest in m.fs then m.fs else m.fs[cs[k].dest := File(w.net(cs[k].url).value)]) &&
      m'.trace == m.trace
    decreases k
  {
    if k == 0 {
      DownloadWithoutChecksum(w, m, cs[0].url, cs[0].dest);
    } else {
      var m1 := m.(fetched := m.fetched + [cs[0].url]);
      var rest := cs[1..];
      TryStepMiss(w, m, cs);
      assert FirstHit(w, m1.fs, rest, k - 1) by {
        assert forall j :: 0 <= j < k - 1 ==> rest[j] == cs[j + 1];
      }
      TryStopsAtFirstHit(w, m1, rest, k - 1);
      assert rest[k - 1] == cs[k];
      assert cs[..k][1..] == rest[..k - 1];
      UrlsCons(cs[..k]);
      ConcatAssoc(m.fetched, [cs[0].url], Urls(rest[..k - 1]));
    }
  }

  /**
   * When every candidate fails the loop reaches its `else`: every URL has
   * been requested once, in order, and no file has changed.
   */
  lemma {:induction false} TryAllFail(w: World, m: Machine, cs: seq<Candidate>)
    requires forall j :: 0 <= j < |cs| ==> !Hits(w, m.fs, cs[j])
    ensures TryCandidates(w, m, cs) == (m.(fetched := m.fetched + Urls(cs)), None)
    decreases |cs|
  {
    if cs == [] {
      assert m.fetched + Urls(cs) == m.fetched;
    } else {
      var m1 := m.(fetched := m.fetched + [cs[0].url]);
      var rest := cs[1..];
      TryStepMiss(w, m, cs);
      assert forall j :: 0 <= j < |rest| ==> !Hits(w, m1.fs, rest[j]) by {
        assert forall j :: 0 <= j < |rest| ==> rest[j] == cs[j + 1];
      }
      TryAllFail(w, m1, rest);
      UrlsCons(cs);
      ConcatAssoc(m.fetched, [cs[0].url], Urls(rest));
    }
  }

  /** A first candidate that misses costs one fetch, and the loop goes on with the rest. */
  lemma TryStepMiss(w: World, m: Machine, cs: seq<Candidate>)
    requires cs != [] && !Hits(w, m.fs, cs[0])
    ensures TryCandidates(w, m, cs) == TryCandidates(w, m.(fetched := m.fetched + [cs[0].url]), cs[1..])
  {
    DownloadMisses(w, m, cs[0]);
  }

  /** A candidate that misses costs one fetch and changes nothing else. */
  lemma DownloadMisses(w: World, m: Machine, c: Candidate)
    requires !Hits(w, m.fs, c)
    ensures Download(w, m, c.url, c.dest, None) == (m.(fetched := m.fetched + [c.url]), Fail(DownloadFailed(c.url)))
  {
    DownloadWithoutChecksum(w, m, c.url, c.dest);
  }

  /** Concatenation of sequences is associative. */
  lemma ConcatAssoc<T>(a: seq<T>, b: seq<T>, c: seq<T>)
    ensures a + b + c == a + (b + c)
  {
  }

  /** The URLs of a non-empty list: the first candidate's, then the rest's. */
  lemma UrlsCons(cs: seq<Candidate>)
    requires cs != []
    ensures Urls(cs) == [cs[0].url] + Urls(cs[1..])
  {
  }

  /** What a `get_*_source` method downloads and where it extracts. */
  datatype Request = Request(
    component: string,          // the name in the error message
    version: string,
    candidates: seq<Candidate>,
    extractDir: string)

  /**
   * A `get_*_source` method: the mirror loop, then extraction of the
   * archive that was downloaded into the source directory unless the
   * source tree is already there. The result is the source tree's path.
   */
  function Acquire(w: World, m: Machine, sourceDir: string, req: Request): (Machine, Result<string>)
  {
    var (m1, hit) := TryCandidates(w, m, req.candidates);
    if hit.None? then (m1, Failure(MirrorsExhausted(req.component, req.version)))
    else if req.extractDir in m1.fs then (m1, Success(req.extractDir))
    else
      var (m2, o) := Extract(w, m1, hit.value.dest, sourceDir);
      if o.Fail? then (m2, Failure(o.error)) else (m2, Success(req.extractDir))
  }

  /** The mirror loop never removes a path: downloads without a checksum only add files. */
  lemma {:induction false} TryKeepsPaths(w: World, m: Machine, cs: seq<Candidate>)
    ensures var (m', hit) := TryCandidates(w, m, cs);
      (forall p :: p in m.fs ==> p in m'.fs && m'.fs[p] == m.fs[p]) &&
      (hit.Some? ==> hit.value in cs && hit.value.dest in m'.fs) &&
      m'.trace == m.trace
    decreases |cs|
  {
    if cs != [] {
      DownloadWithoutChecksum(w, m, cs[0].url, cs[0].dest);
      var (m1, o) := Download(w, m, cs[0].url, cs[0].dest, None);
      if o.Fail? {
        TryKeepsPaths(w, m1, cs[1..]);
      }
    }
  }

  /**
   * Extraction is skipped whenever the source tree already exists: the
   * result is the mirror loop's alone, and no process runs.
   */
  lemma SkipsExtraction(w: World, m: Machine, sourceDir: string, req: Request)
    requires req.extractDir in m.fs
    ensures var (m1, hit) := TryCandidates(w, m, req.candidates);
      Acquire(w, m, sourceDir, req) ==
        (m1, if hit.None? then Failure(MirrorsExhausted(req.component, req.version)) else Success(req.extractDir))
  {
    TryKeepsPaths(w, m, req.candidates);
  }

  /** All candidates of a request are saved to the same cache file. */
  predicate SingleDest(req: Request)
  {
    forall i :: 0 <= i < |req.candidates| ==> req.candidates[i].dest == req.candidates[0].dest
  }

  /**
   * A second acquisition after a successful one that produced the source
   * tree does nothing: the cached archive satisfies the first mirror without
   * a download, and extraction is skipped.
   */
  lemma AcquireTwice(w: World, m: Machine, sourceDir: string, req: Request)
    requires SingleDest(req)
    requires Acquire(w, m, sourceDir, req).1.Success?
    requires req.extractDir in Acquire(w, m, sourceDir, req).0.fs
    ensures var (m1, r1) := Acquire(w, m, sourceDir, req);
      Acquire(w, m1, sourceDir, req) == (m1, r1)
  {
    var cs := req.candidates;
    var (m1, r1) := Acquire(w, m, sourceDir, req);
    var (mt, hit) := TryCandidates(w, m, cs);
    TryKeepsPaths(w, m, cs);
    var dest := cs[0].dest;
    assert hit.value.dest == dest;
    assert dest in m1.fs by {
      if req.extractDir !in mt.fs {
        ExtractKeepsPaths(w, mt, dest, sourceDir);
      }
    }
    CachedFirstCandidate(w, m1, cs);
  }

  /** Extraction adds paths and never removes one. */
  lemma ExtractKeepsPaths(w: World, m: Machine, archive: string, dest: string)
    ensures forall p :: p in m.fs ==> p in Extract(w, m, archive, dest).0.fs
  {
  }

  /** A cached first candidate ends the loop at once, with nothing fetched. */
  lemma CachedFirstCandidate(w: World, m: Machine, cs: seq<Candidate>)
    requires cs != [] && cs[0].dest in m.fs
    ensures TryCandidates(w, m, cs) == (m, Some(cs[0]))
  {
    DownloadWithoutChecksum(w, m, cs[0].url, cs[0].dest);
  }

  const GccMirrors: seq<string> := [
    "https://ftp.gnu.org/gnu/gcc/",
    "https://mirrors.kernel.org/gnu/gcc/",
    "https://ftpmirror.gnu.org/gcc/"]

  const BinutilsMirrors: seq<string> := [
    "https://ftp.gnu.org/gnu/binutils/",
    "https://mirrors.kernel.org/gnu/binutils/"]

  const LlvmMirrors: seq<string> := [
    "https://github.com/llvm/llvm-project/releases/download/llvmorg-",
    "https://mirrors.edge.kernel.org/pub/llvm/"]

  const GlibcMirrors: seq<string> := [
    "https://ftp.gnu.org/gnu/glibc/",
    "https://mirrors.kernel.org/gnu/glibc/"]

  const NewlibMirrors: seq<string> := [
    "https://sourceware.org/pub/newlib/",
    "https://mirrors.kernel.org/sourceware/newlib/"]

  const MuslMirrors: seq<string> := ["https://musl.libc.org/releases/"]

  /** One candidate per mirror, in mirror order: the mirror's URL followed by `path`, all saved to `dest`. */
  function MirrorCandidates(mirrors: seq<string>, path: string, dest: string): (r: seq<Candidate>)
    ensures |r| == |mirrors|
    ensures forall i :: 0 <= i < |r| ==> r[i] == Candidate(mirrors[i] + path, dest)
  {
    seq(|mirrors|, i requires 0 <= i < |mirrors| => Candidate(mirrors[i] + path, dest))
  }

  function GccRequest(c: BuildConfig): Request
  {
    var archive := "gcc-" + c.gccVersion + ".tar.xz";
    Request("GCC", c.gccVersion,
      MirrorCandidates(GccMirrors, "gcc-" + c.gccVersion + "/" + archive, JoinPath(c.downloadCache, archive)),
      JoinPath(c.sourceDir, "gcc-" + c.gccVersion))
  }

  function BinutilsRequest(c: BuildConfig): Request
  {
    var archive := "binutils-" + c.binutilsVersion + ".tar.xz";
    Request("Binutils", c.binutilsVersion,
      MirrorCandidates(BinutilsMirrors, archive, JoinPath(c.downloadCache, archive)),
      JoinPath(c.sourceDir, "binutils-" + c.binutilsVersion))
  }

  /**
   * LLVM's loop: on each mirror the release archive name first and, when
   * that download fails, the alternative name on the same mirror, each
   * saved under its own name.
   */
  function LlvmCandidates(mirrors: seq<string>, version: string, cache: string): (r: seq<Candidate>)
    ensures |r| == 2 * |mirrors|
    ensures forall i :: 0 <= i < |mirrors| ==>
      r[2 * i] == Candidate(mirrors[i] + version + "/" + LlvmArchive(version), JoinPath(cache, LlvmArchive(version))) &&
      r[2 * i + 1] == Candidate(mirrors[i] + version + "/" + LlvmAltArchive(version), JoinPath(cache, LlvmAltArchive(version)))
  {
    if mirrors == [] then []
    else
      [Candidate(mirrors[0] + version + "/" + LlvmArchive(version), JoinPath(cache, LlvmArchive(version))),
       Candidate(mirrors[0] + version + "/" + LlvmAltArchive(version), JoinPath(cache, LlvmAltArchive(version)))] +
      LlvmCandidates(mirrors[1..], version, cache)
  }

  function LlvmArchive(version: string): string
  {
    "llvm-project-" + version + ".src.tar.xz"
  }

  function LlvmAltArchive(version: string): string
  {
    "llvm-project-" + version + ".tar.xz"
  }

  function LlvmRequest(c: BuildConfig): Request
  {
    Request("LLVM", c.llvmVersion,
      LlvmCandidates(LlvmMirrors, c.llvmVersion, c.downloadCache),
      JoinPath(c.sourceDir, "llvm-project-" + c.llvmVersion))
  }

  /**
   * `get_libc_source` before its loop: no request for NONE, an error for a
   * missing or empty version, otherwise the library's archive and mirrors.
   */
  function LibcRequest(c: BuildConfig): (r: Result<Option<Request>>)
    ensures r.Success? && r.value.None? <==> c.cLibrary == NONE
    ensures r.Failure? <==> c.cLibrary != NONE && (c.libcVersion.None? || c.libcVersion.value == "")
    ensures r.Failure? ==> r.error == MissingVersion(LibraryValue(c.cLibrary))
  {
    if c.cLibrary == NONE then Success(None)
    else if c.libcVersion.None? || c.libcVersion.value == "" then Failure(MissingVersion(LibraryValue(c.cLibrary)))
    else
      var v := c.libcVersion.value;
      var name := LibraryValue(c.cLibrary);
      var archive := name + "-" + v + (if c.cLibrary == GLIBC then ".tar.xz" else ".tar.gz");
      var mirrors := match c.cLibrary
        case GLIBC => GlibcMirrors
        case NEWLIB => NewlibMirrors
        case _ => MuslMirrors;
      Success(Some(Request(name, v,
        MirrorCandidates(mirrors, archive, JoinPath(c.downloadCache, archive)),
        JoinPath(c.sourceDir, name + "-" + v))))
  }

  /** `get_libc_source`: nothing for NONE, otherwise the request's acquisition. */
  function AcquireLibc(w: World, m: Machine, c: BuildConfig): (Machine, Result<Option<string>>)
  {
    match LibcRequest(c)
    case Failure(e) => (m, Failure(e))
    case Success(None) => (m, Success(None))
    case Success(Some(req)) =>
      var (m1, r) := Acquire(w, m, c.sourceDir, req);
      (m1, if r.Failure? then Failure(r.error) else Success(Some(r.value)))
  }

  /**
   * Acquiring sources starts no process, and a successful acquisition
   * yields the request's extraction directory.
   */
  lemma AcquireKeepsTrace(w: World, m: Machine, sourceDir: string, req: Request)
    ensures Acquire(w, m, sourceDir, req).0.trace == m.trace
    ensures Acquire(w, m, sourceDir, req).1.Success? ==> Acquire(w, m, sourceDir, req).1.value == req.extractDir
  {
    TryKeepsPaths(w, m, req.candidates);
  }

  /** The same for the C library: no process, and the source tree of its request. */
  lemma AcquireLibcKeepsTrace(w: World, m: Machine, c: BuildConfig)
    ensures AcquireLibc(w, m, c).0.trace == m.trace
    ensures AcquireLibc(w, m, c).1.Success? && AcquireLibc(w, m, c).1.value.Some? ==>
      LibcRequest(c).Success? && LibcRequest(c).value.Some? &&
      AcquireLibc(w, m, c).1.value.value == LibcRequest(c).value.value.extractDir
  {
    if LibcRequest(c).Success? && LibcRequest(c).value.Some? {
      AcquireKeepsTrace(w, m, c.sourceDir, LibcRequest(c).value.value);
    }
  }

  /** Every request except LLVM's saves all its candidates to one cache file. */
  lemma RequestsSingleDest(c: BuildConfig)
    ensures SingleDest(GccRequest(c)) && SingleDest(BinutilsRequest(c))
    ensures LibcRequest(c).Success? && LibcRequest(c).value.Some? ==> SingleDest(LibcRequest(c).value.value)
  {
  }

  /**
   * The default library versions always pass the version check: after
   * derivation a configuration with a C library but no explicit version
   * yields a request.
   */
  lemma DerivedLibcHasRequest(c: BuildConfig)
    requires c.cLibrary != NONE && c.libcVersion.None?
    ensures LibcRequest(Derive(c)).Success? && LibcRequest(Derive(c)).value.Some?
  {
  }

  /**
   * An explicit empty version is only rejected here, when the source is
   * fetched: derivation keeps it and the request fails.
   */
  lemma EmptyLibcVersionRejectedLate(c: BuildConfig)
    requires c.cLibrary != NONE && c.libcVersion == Some("")
    ensures Derive(c).libcVersion == Some("")
    ensures LibcRequest(Derive(c)) == Failure(MissingVersion(LibraryValue(c.cLibrary)))
  {
  }

  /**
   * When the release archive cannot be fetched from the first mirror but the
   * alternative archive is cached, every LLVM acquisition asks the network
   * for the release archive again before using the cached alternative.
   */
  lemma LlvmRefetchesPrimary(w: World, m: Machine, c: BuildConfig)
    requires JoinPath(c.downloadCache, LlvmArchive(c.llvmVersion)) !in m.fs
    requires JoinPath(c.downloadCache, LlvmAltArchive(c.llvmVersion)) in m.fs
    requires w.net(LlvmMirrors[0] + c.llvmVersion + "/" + LlvmArchive(c.llvmVersion)).None?
    ensures var (m', hit) := TryCandidates(w, m, LlvmRequest(c).candidates);
      hit == Some(LlvmRequest(c).candidates[1]) &&
      m'.fetched == m.fetched + [LlvmMirrors[0] + c.llvmVersion + "/" + LlvmArchive(c.llvmVersion)] &&
      m'.fs == m.fs
  {
    var cs := LlvmRequest(c).candidates;
    assert FirstHit(w, m.fs, cs, 1);
    TryStopsAtFirstHit(w, m, cs, 1);
    assert Urls(cs[..1]) == [cs[0].url];
  }

  /**
   * The source manager. It holds the configuration and performs its
   * downloads and extractions on the host.
   */
  class SourceManager {
    const config: BuildConfig
    const host: Host

    constructor (c: BuildConfig, h: Host)
      ensures config == c && host == h
    {
      config := c;
      host := h;
    }

    /** A mirror loop with `break` on the first success and the loop's `else` as `None`. */
    method FetchFromMirrors(cs: seq<Candidate>) returns (hit: Option<Candidate>)
      modifies host
      ensures (host.State(), hit) == TryCandidates(host.world, old(host.State()), cs)
    {
      hit := None;
      var i := 0;
      while i < |cs|
        invariant 0 <= i <= |cs|
        invariant TryCandidates(host.world, old(host.State()), cs) == TryCandidates(host.world, host.State(), cs[i..])
        decreases |cs| - i
      {
        assert cs[i..][1..] == cs[i + 1..];
        var o := host.DownloadFile(cs[i].url, cs[i].dest, None);
        if o.Pass? {
          hit := Some(cs[i]);
          return;
        }
        i := i + 1;
      }
    }

    /** Mirror loop, then extraction unless the source tree exists. */
    method AcquireRequest(req: Request) returns (r: Result<string>)
      modifies host
      ensures (host.State(), r) == Acquire(host.world, old(host.State()), config.sourceDir, req)
    {
      var hit := FetchFromMirrors(req.candidates);
      if hit.None? {
        return Failure(MirrorsExhausted(req.component, req.version));
      }
      if req.extractDir !in host.fs {
        var o := host.ExtractArchive(hit.value.dest, config.sourceDir);
        if o.Fail? {
          return Failure(o.error);
        }
      }
      r := Success(req.extractDir);
    }

    method GetGccSource() returns (r: Result<string>)
      modifies host
      ensures (host.State(), r) == Acquire(host.world, old(host.State()), config.sourceDir, GccRequest(config))
    {
      r := AcquireRequest(GccRequest(config));
    }

    method GetBinutilsSource() returns (r: Result<string>)
      modifies host
      ensures (host.State(), r) == Acquire(host.world, old(host.State()), config.sourceDir, BinutilsRequest(config))
    {
      r := AcquireRequest(BinutilsRequest(config));
    }

    /**
     * `get_llvm_source`: per mirror, the release archive and, if that fails,
     * the alternative archive on the same mirror.
     */
    method GetLlvmSource() returns (r: Result<string>)
      modifies host
      ensures (host.State(), r) == Acquire(host.world, old(host.State()), config.sourceDir, LlvmRequest(config))
    {
      var v := config.llvmVersion;
      var cs := LlvmCandidates(LlvmMirrors, v, config.downloadCache);
      var hit: Option<Candidate> := None;
      var i := 0;
      while i < |LlvmMirrors|
        invariant 0 <= i <= |LlvmMirrors|
        invariant hit.None?
        invariant TryCandidates(host.world, old(host.State()), cs) == TryCandidates(host.world, host.State(), cs[2 * i..])
        decreases |LlvmMirrors| - i
      {
        var mirror := LlvmMirrors[i];
        assert cs[2 * i..][1..] == cs[2 * i + 1..];
        assert cs[2 * i + 1..][1..] == cs[2 * (i + 1)..];
        var o := host.DownloadFile(mirror + v + "/" + LlvmArchive(v), JoinPath(config.downloadCache, LlvmArchive(v)), None);
        if o.Pass? {
          hit := Some(cs[2 * i]);
          break;
        }
        var alt := host.DownloadFile(mirror + v + "/" + LlvmAltArchive(v), JoinPath(config.downloadCache, LlvmAltArchive(v)), None);
        if alt.Pass? {
          hit := Some(cs[2 * i + 1]);
          break;
        }
        i := i + 1;
      }
      if hit.None? {
        return Failure(MirrorsExhausted("LLVM", v));
      }
      var extractDir := JoinPath(config.sourceDir, "llvm-project-" + v);
      if extractDir !in host.fs {
        var o := host.ExtractArchive(hit.value.dest, config.sourceDir);
        if o.Fail? {
          return Failure(o.error);
        }
      }
      r := Success(extractDir);
    }

    method GetLibcSource() returns (r: Result<Option<string>>)
      modifies host
      ensures (host.State(), r) == AcquireLibc(host.world, old(host.State()), config)
    {
      var req := LibcRequest(config);
      if req.Failure? {
        return Failure(req.error);
      }
      if req.value.None? {
        return Success(None);
      }
      var dir := AcquireRequest(req.value.value);
      if dir.Failure? {
        return Failure(dir.error);
      }
      r := Success(Some(dir.value));
    }
  }
}
