/** `jenkinsapi.artifact.Artifact`: saving a build artifact to a local path,
    trusting an existing copy only when the fingerprint service confirms it.

    The collaborators the source reaches through I/O are parameters: the
    filesystem is a map from path to bytes plus a set of directories, the two
    transports (the build's authenticated opener and `urlretrieve`) are
    functions from URL to a fetch outcome, the fingerprint service is an oracle
    on queries, and MD5 is a function on bytes. Each operation is given twice:
    as a function from the old world to the result and the new world, and as a
    method that changes a `Host` step by step and is proved to agree with it. */
module Artifacts {
  import opened Paths
  import opened Checksum

  type Url = string

  /** The optional `build` of an artifact: absent, or a build of job `jobName`
      numbered `buildNo` on the server at `baseurl`. */
  datatype Build = NoBuild | BuildScoped(jobName: string, buildNo: int, baseurl: string)

  /** What a transport does with a URL: deliver the whole body, fail before any
      byte arrives (HTTP error, unreachable host), or fail while the body is
      being read, after `received` bytes. */
  datatype Fetch = Delivered(body: Bytes) | ConnectFailed | BodyFailed(received: Bytes)

  /** The three outcomes of `Fingerprint.validate_for_build`: true, false, or
      an `ArtifactBroken` exception. */
  datatype Verdict = Confirmed | Rejected | Broken

  /** One question put to the fingerprint service: the server, the digest of
      the local file, and the (file name, job name, build number) it should
      belong to. */
  datatype Query = Query(baseurl: string, digest: Hex, basename: Path, jobName: string, buildNo: int)

  /** The exceptions that can leave the operations: a failed transfer, a file
      that could not be opened, `ArtifactBroken` from the fingerprint service,
      and the `AttributeError` of reading `.job` from a missing build. */
  datatype Error = TransferFailure | IOError | ArtifactBroken | AttributeError

  /** A Python call: it returns a value or raises. */
  datatype Outcome<T> = Ok(value: T) | Raised(error: Error)

  /** One invocation of a transport, and whether it was the authenticated one. */
  datatype Download = Download(url: Url, authenticated: bool)

  /** The messages `save` logs, in order. */
  datatype Event =
    | Saving(url: Url, fspath: Path)
    | RenameWarning(filename: Path)
    | UpToDate(filename: Path)
    | NotIdentified
    | NotFromJenkins
    | LocalMissing
    | PostVerifyFailed

  /** The outside world the artifact code calls into. */
  datatype Collaborators = Collaborators(
    opener: Url -> Fetch,
    urlretrieve: Url -> Fetch,
    oracle: Query -> Verdict,
    md5: Bytes -> Hex)

  /** The state a `save` can observe or change: regular files with their
      contents, directories, and the traces of transport calls, fingerprint
      queries and log messages. */
  datatype World = World(
    files: map<Path, Bytes>,
    dirs: set<Path>,
    downloads: seq<Download>,
    queries: seq<Query>,
    log: seq<Event>)
  {
    /** No path is both a file and a directory. */
    predicate Valid() {
      files.Keys !! dirs
    }

    /** `os.path.exists(p)` */
    predicate Exists(p: Path) {
      p in files || p in dirs
    }

    function Logged(e: Event): World {
      this.(log := log + [e])
    }
  }

  /** What `_md5sum(p)` computes: the digest of the whole file, or the error of
      opening a path that is not a regular file. */
  function FileDigest(md5: Bytes -> Hex, files: map<Path, Bytes>, p: Path): Outcome<Hex> {
    if p in files then Ok(md5(files[p])) else Raised(IOError)
  }

  /** The query `_verify_download` puts for a file with contents `content` at
      `fspath`, on behalf of a build. */
  function QueryFor(build: Build, md5: Bytes -> Hex, content: Bytes, fspath: Path): Query
    requires build.BuildScoped?
  {
    Query(build.baseurl, md5(content), Basename(fspath), build.jobName, build.buildNo)
  }

  /** The mutable world of one process: its files and directories and the
      traces of what it has asked of the network; the collaborators are fixed. */
  class Host {
    var files: map<Path, Bytes>
    var dirs: set<Path>
    var downloads: seq<Download>
    var queries: seq<Query>
    var log: seq<Event>
    const net: Collaborators

    constructor (files: map<Path, Bytes>, dirs: set<Path>, net: Collaborators)
      ensures Snapshot() == World(files, dirs, [], [], [])
      ensures this.net == net
    {
      this.files := files;
      this.dirs := dirs;
      this.downloads := [];
      this.queries := [];
      this.log := [];
      this.net := net;
    }

    function Snapshot(): World
      reads this
    {
      World(files, dirs, downloads, queries, log)
    }
  }

  /** `Artifact(filename, url, build)`: its fields are set once, in `__init__`. */
  datatype Artifact = Artifact(filename: Path, url: Url, build: Build) {

    /** The transport `_do_download` uses: the build's authenticated opener when
        there is a build, `urlretrieve` otherwise. */
    function Transport(net: Collaborators): Url -> Fetch {
      if build.BuildScoped? then net.opener else net.urlretrieve
    }

    /** `_verify_download(fspath)` on a world (artifact.py:80-86): digest the
        file, then build the query from `self.build`, then ask the service. */
    function VerifyResult(net: Collaborators, w: World, fspath: Path): (Outcome<bool>, World) {
      match FileDigest(net.md5, w.files, fspath)
      case Raised(e) => (Raised(e), w)
      case Ok(digest) =>
        if build.NoBuild? then (Raised(AttributeError), w)
        else
          var q := QueryFor(build, net.md5, w.files[fspath], fspath);
          var w' := w.(queries := w.queries + [q]);
          match net.oracle(q)
          case Confirmed => (Ok(true), w')
          case Rejected => (Ok(false), w')
          case Broken => (Raised(ArtifactBroken), w')
    }

    /** `_do_download(fspath)` on a world (artifact.py:65-78). The transport is
        called first; then `fspath` is opened for writing, which truncates it;
        then the body is written. A body that fails midway leaves an empty file
        on the opener branch (`f.read()` raises before anything is written) and
        the bytes received so far on the `urlretrieve` branch (it writes block
        by block). */
    function DownloadResult(net: Collaborators, w: World, fspath: Path): (Outcome<Path>, World) {
      var authenticated := build.BuildScoped?;
      var w1 := w.(downloads := w.downloads + [Download(url, authenticated)]);
      match Transport(net)(url)
      case ConnectFailed => (Raised(TransferFailure), w1)
      case Delivered(body) =>
        if fspath in w1.dirs then (Raised(IOError), w1)
        else (Ok(fspath), w1.(files := w1.files[fspath := body]))
      case BodyFailed(received) =>
        if fspath in w1.dirs then (Raised(IOError), w1)
        else (Raised(TransferFailure), w1.(files := w1.files[fspath := if authenticated then [] else received]))
    }

    /** The tail of `save` (artifact.py:58-63): download, then verify the
        downloaded file, absorbing both `False` and `ArtifactBroken`. */
    function FetchAndCheck(net: Collaborators, w: World, fspath: Path): (Outcome<Path>, World) {
      var (d, w1) := DownloadResult(net, w, fspath);
      match d
      case Raised(e) => (Raised(e), w1)
      case Ok(filename) =>
        var (v, w2) := VerifyResult(net, w1, filename);
        match v
        case Ok(_) => (Ok(filename), w2)
        case Raised(e) =>
          if e == ArtifactBroken then (Ok(filename), w2.Logged(PostVerifyFailed))
          else (Raised(e), w2)
    }

    /** The first part of `save` (artifact.py:43-57): log, look for a local
        copy and, when there is one and a build, verify it. `Some(r)` when
        `save` ends here with `r` (the copy is confirmed, or its verification
        raised something other than `ArtifactBroken`), `None` when it goes on
        to download. */
    function Precheck(net: Collaborators, w: World, fspath: Path): (Option<Outcome<Path>>, World) {
      var w0 := w.Logged(Saving(url, fspath));
      var w1 := if EndsWith(fspath, filename) then w0 else w0.Logged(RenameWarning(filename));
      if !w1.Exists(fspath) then (None, w1.Logged(LocalMissing))
      else if build.NoBuild? then (None, w1.Logged(NotFromJenkins))
      else
        var (v, w2) := VerifyResult(net, w1, fspath);
        match v
        case Ok(confirmed) =>
          if confirmed then (Some(Ok(fspath)), w2.Logged(UpToDate(filename)))
          else (None, w2)
        case Raised(e) =>
          if e == ArtifactBroken then (None, w2.Logged(NotIdentified))
          else (Some(Raised(e)), w2)
    }

    /** `save(fspath)` on a world (artifact.py:35-63). */
    function SaveResult(net: Collaborators, w: World, fspath: Path): (Outcome<Path>, World) {
      var (early, w1) := Precheck(net, w, fspath);
      if early.Some? then (early.value, w1) else FetchAndCheck(net, w1, fspath)
    }

    /** `savetodir(dirpath)` on a world (artifact.py:102-110); the two asserts
        are its precondition. */
    function SaveToDirResult(net: Collaborators, w: World, dirpath: Path): (Outcome<Path>, World)
      requires w.Exists(dirpath) && dirpath in w.dirs
    {
      SaveResult(net, w, Join(dirpath, filename))
    }

    /** `_md5sum(fspath, chunksize)` (artifact.py:88-100): read the file in
        chunks of `chunksize` bytes, feeding each to an MD5 accumulator, until a
        read comes back empty. `chunks` is the sequence of reads that were fed.
        Every chunk is non-empty and at most `chunksize` long, they make up the
        whole file, and so the digest is that of the whole file whatever the
        chunk size. (`read(0)` returns nothing, so a zero chunk size digests
        the empty message.) */
    method Md5Sum(h: Host, fspath: Path, chunksize: int) returns (r: Outcome<Hex>, ghost chunks: seq<Bytes>)
      ensures chunksize != 0 ==> r == FileDigest(h.net.md5, h.files, fspath)
      ensures chunksize == 0 ==> r == if fspath in h.files then Ok(h.net.md5([])) else Raised(IOError)
      ensures fspath in h.files && chunksize != 0 ==> Flatten(chunks) == h.files[fspath]
      ensures forall c <- chunks :: c != [] && (chunksize > 0 ==> |c| <= chunksize)
      ensures fspath in h.files && chunksize > 0 ==>
        ReadLoop(h.files[fspath], 0, chunksize, IntendedSentinel, Hasher([]), |h.files[fspath]| + 1) == Some(Flatten(chunks))
    {
      chunks := [];
      if fspath !in h.files {
        return Raised(IOError), chunks;
      }
      var content := h.files[fspath];
      var hasher := Hasher([]);
      var pos := 0;
      var chunk := ReadChunk(content, pos, chunksize);
      while chunk != []
        invariant pos <= |content|
        invariant chunk == ReadChunk(content, pos, chunksize)
        invariant hasher.fed == content[..pos] == Flatten(chunks)
        invariant forall c <- chunks :: c != [] && (chunksize > 0 ==> |c| <= chunksize)
        invariant chunksize == 0 ==> chunks == []
        decreases |content| - pos
      {
        hasher := hasher.Update(chunk);
        FlattenSnoc(chunks, chunk);
        chunks := chunks + [chunk];
        assert content[..pos + |chunk|] == content[..pos] + chunk;
        pos := pos + |chunk|;
        chunk := ReadChunk(content, pos, chunksize);
      }
      assert chunksize != 0 ==> content[..pos] == content;
      if chunksize > 0 {
        IntendedLoopFeedsRest(content, 0, chunksize, Hasher([]), |content| + 1);
        assert Hasher([]).fed + content[0..] == content;
      }
      r := Ok(hasher.HexDigest(h.net.md5));
    }

    /** `_verify_download(fspath)`. */
    method VerifyDownload(h: Host, fspath: Path) returns (r: Outcome<bool>)
      modifies h
      ensures (r, h.Snapshot()) == VerifyResult(h.net, old(h.Snapshot()), fspath)
    {
      var digest, _ := Md5Sum(h, fspath, DefaultChunkSize);
      if digest.Raised? {
        return Raised(digest.error);
      }
      if build.NoBuild? {
        return Raised(AttributeError);
      }
      var q := Query(build.baseurl, digest.value, Basename(fspath), build.jobName, build.buildNo);
      assert q == QueryFor(build, h.net.md5, h.files[fspath], fspath);
      h.queries := h.queries + [q];
      var verdict := h.net.oracle(q);
      r := if verdict == Confirmed then Ok(true)
           else if verdict == Rejected then Ok(false)
           else Raised(ArtifactBroken);
    }

    /** `_do_download(fspath)`. */
    method DoDownload(h: Host, fspath: Path) returns (r: Outcome<Path>)
      modifies h
      ensures (r, h.Snapshot()) == DownloadResult(h.net, old(h.Snapshot()), fspath)
    {
      var authenticated := build.BuildScoped?;
      var response := if authenticated then h.net.opener(url) else h.net.urlretrieve(url);
      h.downloads := h.downloads + [Download(url, authenticated)];
      if response.ConnectFailed? {
        return Raised(TransferFailure);
      }
      if fspath in h.dirs {
        return Raised(IOError);
      }
      if response.Delivered? {
        h.files := h.files[fspath := response.body];
        r := Ok(fspath);
      } else {
        h.files := h.files[fspath := if authenticated then [] else response.received];
        r := Raised(TransferFailure);
      }
    }

    /** `save(fspath)`. */
    method Save(h: Host, fspath: Path) returns (r: Outcome<Path>)
      modifies h
      ensures (r, h.Snapshot()) == SaveResult(h.net, old(h.Snapshot()), fspath)
    {
      h.log := h.log + [Saving(url, fspath)];
      if !EndsWith(fspath, filename) {
        h.log := h.log + [RenameWarning(filename)];
      }
      if fspath in h.files || fspath in h.dirs {
        if build.BuildScoped? {
          var v := VerifyDownload(h, fspath);
          if v == Ok(true) {
            h.log := h.log + [UpToDate(filename)];
            return Ok(fspath);
          } else if v == Raised(ArtifactBroken) {
            h.log := h.log + [NotIdentified];
          } else if v.Raised? {
            return Raised(v.error);
          }
        } else {
          h.log := h.log + [NotFromJenkins];
        }
      } else {
        h.log := h.log + [LocalMissing];
      }
      var d := DoDownload(h, fspath);
      if d.Raised? {
        return d;
      }
      var v := VerifyDownload(h, d.value);
      if v == Raised(ArtifactBroken) {
        h.log := h.log + [PostVerifyFailed];
      } else if v.Raised? {
        return Raised(v.error);
      }
      r := d;
    }

    /** `savetodir(dirpath)`. */
    method SaveToDir(h: Host, dirpath: Path) returns (r: Outcome<Path>)
      requires dirpath in h.files || dirpath in h.dirs
      requires dirpath in h.dirs
      modifies h
      ensures (r, h.Snapshot()) == SaveToDirResult(h.net, old(h.Snapshot()), dirpath)
    {
      var outputfilepath := Join(dirpath, filename);
      r := Save(h, outputfilepath);
    }
  }
}
