/**
 * The machine the build script runs on, reduced to what the core observes:
 * a filesystem of files and directories, the log of URLs requested from the
 * network, and the log of commands run. The network, SHA-256, archive
 * unpacking, the exit status of a command and the process environment are
 * oracles of a World that the script cannot change.
 *
 * Every effect is a function from a World and a Machine to the new Machine
 * and an Outcome; the class Host performs the same effects step by step on
 * its fields and is proved to agree with those functions.
 */
module Host {
  import opened Strings
  import opened Results
  import opened Environment
  import opened Archive

  type Blob = seq<bv8>

  datatype Node = File(data: Blob) | Dir

  /** A call of `run_command`: argument list, working directory, extra variables. */
  datatype Command = Command(argv: seq<string>, cwd: Option<string>, env: Option<Env>)

  /** A process as started: the arguments, directory and the complete environment it sees. */
  datatype Invocation = Invocation(argv: seq<string>, cwd: Option<string>, env: Env)

  datatype World = World(
    net: string -> Option<Blob>,                                       // urlretrieve: the body, or a failure
    digest: Blob -> string,                                            // hashlib.sha256(...).hexdigest()
    unpack: (ArchiveFormat, Blob, string) -> Option<map<string, Node>>, // extractall into a directory
    exit: Invocation -> int,                                           // a process's exit status
    environ: Env,                                                      // os.environ
    encode: string -> Blob,                                            // the bytes write_text stores for a text
    generated: string -> Blob)                                         // the bytes of a generated file whose text is not modelled

  datatype Machine = Machine(
    fs: map<string, Node>,
    fetched: seq<string>,       // every URL handed to urlretrieve, in order
    trace: seq<Command>)        // every command run, in order

  /** A checksum is checked only when one is given and it is not empty. */
  predicate Checked(sha: Option<string>)
  {
    sha.Some? && sha.value != ""
  }

  /**
   * `download_file`: an existing destination is kept without a download when
   * no checksum is given, or when its digest matches; a mismatching copy is
   * deleted and downloaded again; a download whose digest mismatches is
   * deleted and reported.
   */
  function Download(w: World, m: Machine, url: string, dest: string, sha: Option<string>): (Machine, Outcome)
  {
    if dest in m.fs && !Checked(sha) then (m, Pass)
    else if dest in m.fs && m.fs[dest].Dir? then (m, Fail(WrongKind(dest)))
    else if dest in m.fs && w.digest(m.fs[dest].data) == sha.value then (m, Pass)
    else Fetch(w, m.(fs := m.fs - {dest}), url, dest, sha)
  }

  /** The download proper, into a destination that does not exist. */
  function Fetch(w: World, m: Machine, url: string, dest: string, sha: Option<string>): (Machine, Outcome)
  {
    var m1 := m.(fetched := m.fetched + [url]);
    match w.net(url)
    case None => (m1, Fail(DownloadFailed(url)))
    case Some(b) =>
      if Checked(sha) && w.digest(b) != sha.value then (m1, Fail(ChecksumFailed(dest)))
      else (m1.(fs := m1.fs[dest := File(b)]), Pass)
  }

  /**
   * `extract_archive`: creates the destination directory, then unpacks a
   * tar or zip archive into it; any other name is rejected.
   */
  function Extract(w: World, m: Machine, archive: string, dest: string): (Machine, Outcome)
  {
    if dest in m.fs && m.fs[dest].File? then (m, Fail(WrongKind(dest)))
    else
      var m1 := m.(fs := m.fs[dest := Dir]);
      var format := Format(archive);
      if format == Unsupported then (m1, Fail(UnsupportedArchive(archive)))
      else if archive !in m1.fs || m1.fs[archive].Dir? then (m1, Fail(ExtractFailed(archive)))
      else
        match w.unpack(format, m1.fs[archive].data, dest)
        case None => (m1, Fail(ExtractFailed(archive)))
        case Some(entries) => (m1.(fs := m1.fs + entries), Pass)
  }

  /** The process `run_command` starts for a command. */
  function Start(w: World, c: Command): Invocation
  {
    Invocation(c.argv, c.cwd, Overlay(w.environ, c.env))
  }

  /** `run_command` with `check=True`: a non-zero exit status raises. */
  function Run(w: World, m: Machine, c: Command): (Machine, Outcome)
  {
    var p := Start(w, c);
    var m1 := m.(trace := m.trace + [c]);
    if w.exit(p) != 0 then (m1, Fail(CommandFailed(c.argv, w.exit(p)))) else (m1, Pass)
  }

  /** Consecutive `run_command` calls: the first failure propagates and ends the sequence. */
  function RunAll(w: World, m: Machine, cs: seq<Command>): (Machine, Outcome)
    decreases |cs|
  {
    if cs == [] then (m, Pass)
    else
      var (m1, o) := Run(w, m, cs[0]);
      if o.Fail? then (m1, o) else RunAll(w, m1, cs[1..])
  }

  /** `p` lies in the tree rooted at `d`. */
  predicate Under(p: string, d: string)
  {
    p == d || d + "/" <= p
  }

  /** `shutil.rmtree(d)`: every path in the tree rooted at `d` is removed. */
  function RemoveTree(fs: map<string, Node>, d: string): (r: map<string, Node>)
    ensures forall p :: p in r <==> p in fs && !Under(p, d)
    ensures forall p :: p in r ==> r[p] == fs[p]
  {
    map p | p in fs && !Under(p, d) :: fs[p]
  }

  /**
   * A stage's build directory: removed first when a clean build is asked for
   * and it exists, then created. A file in its place makes either step raise.
   */
  function PrepareDir(m: Machine, d: string, clean: bool): (Machine, Outcome)
  {
    if d in m.fs && m.fs[d].File? then (m, Fail(WrongKind(d)))
    else
      var fs1 := if clean && d in m.fs then RemoveTree(m.fs, d) else m.fs;
      (m.(fs := fs1[d := Dir]), Pass)
  }

  /** `path.write_text(...)` or a binary write: a directory in the way raises, otherwise the file is replaced. */
  function WriteFile(m: Machine, path: string, data: Blob): (Machine, Outcome)
  {
    if path in m.fs && m.fs[path].Dir? then (m, Fail(WrongKind(path)))
    else (m.(fs := m.fs[path := File(data)]), Pass)
  }

  /**
   * What a download guarantees. Success leaves the destination in place and,
   * with a checksum, a file with that digest; a failed download leaves no
   * destination, unless it stopped at a directory in its place; no other
   * path changes; at most the one URL is fetched; no process is started.
   */
  lemma DownloadContract(w: World, m: Machine, url: string, dest: string, sha: Option<string>)
    ensures var (m', o) := Download(w, m, url, dest, sha);
      (o.Pass? ==> dest in m'.fs) &&
      (o.Pass? && Checked(sha) ==> m'.fs[dest].File? && w.digest(m'.fs[dest].data) == sha.value) &&
      (o.Fail? ==> dest !in m'.fs || m' == m) &&
      m'.fs - {dest} == m.fs - {dest} &&
      (m'.fetched == m.fetched || m'.fetched == m.fetched + [url]) &&
      m'.trace == m.trace
  {
    var (m', o) := Download(w, m, url, dest, sha);
    if !(dest in m.fs && (!Checked(sha) || m.fs[dest].Dir? || w.digest(m.fs[dest].data) == sha.value)) {
      var m0 := m.(fs := m.fs - {dest});
      assert (m', o) == Fetch(w, m0, url, dest, sha);
      assert m0.fs - {dest} == m.fs - {dest};
      if w.net(url).Some? && o.Pass? {
        assert m'.fs == m0.fs[dest := File(w.net(url).value)];
        assert m'.fs - {dest} == m0.fs - {dest};
      }
    }
  }

  /**
   * The network is consulted exactly when the destination is missing, or a
   * checksum is given and the existing file does not match it.
   */
  lemma DownloadFetchesIff(w: World, m: Machine, url: string, dest: string, sha: Option<string>)
    ensures var (m', o) := Download(w, m, url, dest, sha);
      (m'.fetched == m.fetched + [url]) <==>
        (dest !in m.fs || (Checked(sha) && m.fs[dest].File? && w.digest(m.fs[dest].data) != sha.value))
    ensures var (m', o) := Download(w, m, url, dest, sha);
      (m'.fetched == m.fetched) <==>
        (dest in m.fs && (!Checked(sha) || m.fs[dest].Dir? || w.digest(m.fs[dest].data) == sha.value))
  {
    var (m', o) := Download(w, m, url, dest, sha);
    assert |m.fetched + [url]| != |m.fetched|;
  }

  /**
   * Without a checksum a download is a cache: an existing destination is
   * kept as it is, otherwise the URL is fetched and, when the network
   * delivers, stored at the destination.
   */
  lemma DownloadWithoutChecksum(w: World, m: Machine, url: string, dest: string)
    ensures Download(w, m, url, dest, None) ==
      if dest in m.fs then (m, Pass)
      else if w.net(url).None? then (m.(fetched := m.fetched + [url]), Fail(DownloadFailed(url)))
      else (m.(fs := m.fs[dest := File(w.net(url).value)], fetched := m.fetched + [url]), Pass)
  {
    if dest !in m.fs {
      assert m.fs - {dest} == m.fs;
    }
  }

  /**
   * A stale copy is replaced: with a checksum that the existing file does not
   * match, the file is deleted and fetched again, and the outcome is that of
   * the new download alone.
   */
  lemma StaleCopyRefetched(w: World, m: Machine, url: string, dest: string, sha: Option<string>)
    requires Checked(sha) && dest in m.fs && m.fs[dest].File?
    requires w.digest(m.fs[dest].data) != sha.value
    ensures var (m', o) := Download(w, m, url, dest, sha);
      m'.fetched == m.fetched + [url] &&
      (o.Pass? <==> w.net(url).Some? && w.digest(w.net(url).value) == sha.value) &&
      (o.Fail? ==> dest !in m'.fs)
  {
  }

  /** A command sequence changes neither files nor downloads. */
  lemma {:induction false} RunAllKeepsFiles(w: World, m: Machine, cs: seq<Command>)
    ensures RunAll(w, m, cs).0.fs == m.fs
    ensures RunAll(w, m, cs).0.fetched == m.fetched
    decreases |cs|
  {
    if cs != [] {
      var (m1, o) := Run(w, m, cs[0]);
      if o.Pass? {
        RunAllKeepsFiles(w, m1, cs[1..]);
      }
    }
  }

  /**
   * A command sequence succeeds exactly when every command exits with 0,
   * and then every command has run, in order.
   */
  lemma {:induction false} RunAllPasses(w: World, m: Machine, cs: seq<Command>)
    ensures RunAll(w, m, cs).1.Pass? <==> forall i :: 0 <= i < |cs| ==> w.exit(Start(w, cs[i])) == 0
    ensures RunAll(w, m, cs).1.Pass? ==> RunAll(w, m, cs).0.trace == m.trace + cs
    decreases |cs|
  {
    if cs != [] {
      var m1 := m.(trace := m.trace + [cs[0]]);
      if w.exit(Start(w, cs[0])) == 0 {
        RunAllPasses(w, m1, cs[1..]);
        assert m.trace + cs == m1.trace + cs[1..];
        assert forall i :: 1 <= i < |cs| ==> cs[i] == cs[1..][i - 1];
      }
    }
  }

  /** One step of a command sequence: the first command's failure ends it, its success runs the rest. */
  lemma RunAllStep(w: World, m: Machine, cs: seq<Command>)
    requires cs != []
    ensures Run(w, m, cs[0]).1.Fail? ==> RunAll(w, m, cs) == Run(w, m, cs[0])
    ensures Run(w, m, cs[0]).1.Pass? ==> RunAll(w, m, cs) == RunAll(w, Run(w, m, cs[0]).0, cs[1..])
  {
  }

  /** Running `a + b` is running `a`, then `b` only if `a` passed. */
  lemma {:induction false} RunAllAppend(w: World, m: Machine, a: seq<Command>, b: seq<Command>)
    ensures RunAll(w, m, a + b) ==
      (var (m1, o) := RunAll(w, m, a); if o.Fail? then (m1, o) else RunAll(w, m1, b))
    decreases |a|
  {
    if a == [] {
      assert a + b == b;
    } else {
      assert (a + b)[1..] == a[1..] + b;
      var (m1, o) := Run(w, m, a[0]);
      if o.Pass? {
        RunAllAppend(w, m1, a[1..], b);
      }
    }
  }

  /**
   * Whatever happens, a command sequence extends the trace by a prefix of
   * its commands.
   */
  lemma {:induction false} RunAllPrefix(w: World, m: Machine, cs: seq<Command>)
    ensures m.trace <= RunAll(w, m, cs).0.trace
    ensures RunAll(w, m, cs).0.trace <= m.trace + cs
    decreases |cs|
  {
    if cs != [] {
      var m1 := m.(trace := m.trace + [cs[0]]);
      assert m1.trace <= m.trace + cs;
      if w.exit(Start(w, cs[0])) == 0 {
        RunAllPrefix(w, m1, cs[1..]);
        assert m1.trace + cs[1..] == m.trace + cs;
      }
    }
  }

  /**
   * A command sequence whose first failing command is `k` stops there: the
   * commands up to and including `k` have run, none after it, and the
   * status of `k` is the error reported.
   */
  lemma {:induction false} RunAllStops(w: World, m: Machine, cs: seq<Command>, k: nat)
    requires FailsFirstAt(w, cs, k)
    ensures RunAll(w, m, cs).0 == m.(trace := m.trace + cs[..k + 1])
    ensures RunAll(w, m, cs).1 == Fail(CommandFailed(cs[k].argv, w.exit(Start(w, cs[k]))))
    decreases k
  {
    if k > 0 {
      var m1 := m.(trace := m.trace + [cs[0]]);
      assert FailsFirstAt(w, cs[1..], k - 1) by {
        assert forall j :: 0 <= j < k - 1 ==> cs[1..][j] == cs[j + 1];
      }
      RunAllStops(w, m1, cs[1..], k - 1);
      assert cs[1..][k - 1] == cs[k];
      assert m1.trace + cs[1..][..k] == m.trace + cs[..k + 1];
    }
  }

  /** Command `k` is the first to exit with a non-zero status. */
  predicate FailsFirstAt(w: World, cs: seq<Command>, k: nat)
  {
    k < |cs| && w.exit(Start(w, cs[k])) != 0 &&
    forall j :: 0 <= j < k ==> w.exit(Start(w, cs[j])) == 0
  }

  /**
   * Preparing a build directory touches only its own tree: every path
   * outside it keeps its node, a clean build removes everything strictly
   * inside it, and on success the directory exists.
   */
  lemma PrepareDirLocal(m: Machine, d: string, clean: bool)
    ensures var (m', o) := PrepareDir(m, d, clean);
      (forall p :: p in m.fs && !Under(p, d) ==> p in m'.fs && m'.fs[p] == m.fs[p]) &&
      (forall p :: p in m'.fs && !Under(p, d) ==> p in m.fs) &&
      (o.Pass? ==> d in m'.fs && m'.fs[d] == Dir) &&
      (o.Pass? && clean && d in m.fs ==> forall p :: p in m'.fs && Under(p, d) ==> p == d) &&
      (!clean ==> forall p :: p in m.fs ==> p in m'.fs) &&
      m'.fetched == m.fetched && m'.trace == m.trace
  {
  }

  /**
   * The effectful side of the script. Its fields are the Machine; its
   * methods perform each effect in the order the script does and are
   * proved to agree with the functions above.
   */
  class Host {
    const world: World
    var fs: map<string, Node>
    var fetched: seq<string>
    var trace: seq<Command>

    function State(): Machine
      reads this
    {
      Machine(fs, fetched, trace)
    }

    constructor (w: World, m: Machine)
      ensures world == w && State() == m
    {
      world := w;
      fs := m.fs;
      fetched := m.fetched;
      trace := m.trace;
    }

    method DownloadFile(url: string, dest: string, sha: Option<string>) returns (r: Outcome)
      modifies this
      ensures (State(), r) == Download(world, old(State()), url, dest, sha)
    {
      if dest in fs {
        if !Checked(sha) {
          return Pass;
        }
        match fs[dest]
        case Dir =>
          return Fail(WrongKind(dest));
        case File(data) =>
          if world.digest(data) == sha.value {
            return Pass;
          }
          fs := fs - {dest};
      }
      assert fs == old(fs) - {dest};
      fetched := fetched + [url];
      var got := world.net(url);
      if got.None? {
        return Fail(DownloadFailed(url));
      }
      ghost var before := fs;
      fs := fs[dest := File(got.value)];
      if Checked(sha) && world.digest(got.value) != sha.value {
        fs := fs - {dest};
        assert fs == before;
        return Fail(ChecksumFailed(dest));
      }
      r := Pass;
    }

    method ExtractArchive(archive: string, dest: string) returns (r: Outcome)
      modifies this
      ensures (State(), r) == Extract(world, old(State()), archive, dest)
    {
      if dest in fs && fs[dest].File? {
        return Fail(WrongKind(dest));
      }
      fs := fs[dest := Dir];
      var format := Format(archive);
      if format == Unsupported {
        return Fail(UnsupportedArchive(archive));
      }
      if archive !in fs || fs[archive].Dir? {
        return Fail(ExtractFailed(archive));
      }
      var entries := world.unpack(format, fs[archive].data, dest);
      if entries.None? {
        return Fail(ExtractFailed(archive));
      }
      fs := fs + entries.value;
      r := Pass;
    }

    method RunCommand(c: Command) returns (r: Outcome)
      modifies this
      ensures (State(), r) == Run(world, old(State()), c)
    {
      var p := Invocation(c.argv, c.cwd, Overlay(world.environ, c.env));
      trace := trace + [c];
      var code := world.exit(p);
      if code != 0 {
        return Fail(CommandFailed(c.argv, code));
      }
      r := Pass;
    }

    method PrepareBuildDir(d: string, clean: bool) returns (r: Outcome)
      modifies this
      ensures (State(), r) == PrepareDir(old(State()), d, clean)
    {
      if clean && d in fs {
        if fs[d].File? {
          return Fail(WrongKind(d));
        }
        fs := RemoveTree(fs, d);
      }
      if d in fs && fs[d].File? {
        return Fail(WrongKind(d));
      }
      fs := fs[d := Dir];
      r := Pass;
    }

    /**
     * `run_command` for the next command `c` of a sequence `cs`: the result
     * is the sequence's first step.
     */
    method RunNext(ghost cs: seq<Command>, c: Command) returns (r: Outcome)
      requires cs != [] && cs[0] == c
      modifies this
      ensures r.Fail? ==> (State(), r) == RunAll(world, old(State()), cs)
      ensures r.Pass? ==> RunAll(world, old(State()), cs) == RunAll(world, State(), cs[1..])
    {
      RunAllStep(world, State(), cs);
      r := RunCommand(c);
    }

    method Write(path: string, data: Blob) returns (r: Outcome)
      modifies this
      ensures (State(), r) == WriteFile(old(State()), path, data)
    {
      if path in fs && fs[path].Dir? {
        return Fail(WrongKind(path));
      }
      fs := fs[path := File(data)];
      r := Pass;
    }
  }
}
