/** What `save`, `_do_download`, `_verify_download` and `savetodir` promise,
    stated over the world functions of module Artifacts. The methods of that
    module agree with those functions, so every property here holds of them. */
module ArtifactProperties {
  import opened Paths
  import opened Checksum
  import opened Artifacts

  /** A query about `basename(fspath)` for the artifact's own build. */
  predicate AboutBuild(q: Query, build: Build, fspath: Path) {
    && build.BuildScoped?
    && q.basename == Basename(fspath)
    && q.baseurl == build.baseurl
    && q.jobName == build.jobName
    && q.buildNo == build.buildNo
  }

  /** `qs` extends `base` by at most `n` queries, each about `fspath` and `build`. */
  predicate ExtendsAbout(qs: seq<Query>, base: seq<Query>, n: nat, build: Build, fspath: Path) {
    && |base| <= |qs| <= |base| + n
    && qs[..|base|] == base
    && forall k | |base| <= k < |qs| :: AboutBuild(qs[k], build, fspath)
  }

  lemma ExtendsAboutStep(base: seq<Query>, extra: seq<Query>, n: nat, build: Build, fspath: Path)
    requires |extra| <= n
    requires forall q <- extra :: AboutBuild(q, build, fspath)
    ensures ExtendsAbout(base + extra, base, n, build, fspath)
  {
    assert (base + extra)[..|base|] == base;
    forall k | |base| <= k < |base + extra| ensures AboutBuild((base + extra)[k], build, fspath) {
      assert (base + extra)[k] == extra[k - |base|];
    }
  }

  lemma ExtendsAboutTrans(qs: seq<Query>, mid: seq<Query>, base: seq<Query>, m: nat, n: nat, build: Build, fspath: Path)
    requires ExtendsAbout(mid, base, m, build, fspath) && ExtendsAbout(qs, mid, n, build, fspath)
    ensures ExtendsAbout(qs, base, m + n, build, fspath)
  {
    assert qs[..|base|] == mid[..|base|];
    forall k | |base| <= k < |qs| ensures AboutBuild(qs[k], build, fspath) {
      if k < |mid| {
        assert qs[k] == mid[k];
      }
    }
  }

  /** No rename warning appears in `log` from index `n` on. */
  predicate NoRenameSince(log: seq<Event>, n: nat) {
    forall i | n <= i < |log| :: !log[i].RenameWarning?
  }

  /** `_do_download` calls its transport once; on success it returns `fspath`
      and leaves exactly the delivered bytes there, on either branch. Whatever
      happens, no path other than `fspath` changes and `fspath` is written only
      when it is not a directory. */
  lemma DownloadEffect(a: Artifact, net: Collaborators, w: World, fspath: Path)
    ensures var (r, w') := a.DownloadResult(net, w, fspath);
      && w'.downloads == w.downloads + [Download(a.url, a.build.BuildScoped?)]
      && w'.files - {fspath} == w.files - {fspath}
      && w'.dirs == w.dirs && w'.queries == w.queries && w'.log == w.log
      && (r.Ok? <==> a.Transport(net)(a.url).Delivered? && fspath !in w.dirs)
      && (r.Ok? ==> r.value == fspath && fspath in w'.files && w'.files[fspath] == a.Transport(net)(a.url).body)
      && (r.Raised? ==> r.error == TransferFailure || r.error == IOError)
      && (fspath in w.dirs ==> w'.files == w.files)
  {
    var (r, w') := a.DownloadResult(net, w, fspath);
    assert w'.files - {fspath} == w.files - {fspath};
  }

  /** `_verify_download` asks the service at most once, with the digest of the
      bytes now at `fspath`, its basename and the build's job and number, and
      changes nothing else; it answers with the service's verdict. */
  lemma VerifyQuery(a: Artifact, net: Collaborators, w: World, fspath: Path)
    ensures var (v, w') := a.VerifyResult(net, w, fspath);
      && w'.files == w.files && w'.dirs == w.dirs && w'.downloads == w.downloads && w'.log == w.log
      && (if fspath in w.files && a.build.BuildScoped? then
            var q := QueryFor(a.build, net.md5, w.files[fspath], fspath);
            && w'.queries == w.queries + [q]
            && v == (match net.oracle(q)
                     case Confirmed => Ok(true)
                     case Rejected => Ok(false)
                     case Broken => Raised(ArtifactBroken))
          else
            && w'.queries == w.queries
            && v == Raised(if fspath in w.files then AttributeError else IOError))
  {
  }

  /** The tail of `save` (artifact.py:58-63) downloads once and verifies what
      it downloaded; only a successful download with a build returns normally,
      whatever the service then answers, and `ArtifactBroken` never escapes. */
  lemma FetchAndCheckEffect(a: Artifact, net: Collaborators, w: World, fspath: Path)
    ensures var (r, w') := a.FetchAndCheck(net, w, fspath);
      var fetch := a.Transport(net)(a.url);
      var written := fetch.Delivered? && fspath !in w.dirs;
      && w'.downloads == w.downloads + [Download(a.url, a.build.BuildScoped?)]
      && w'.files - {fspath} == w.files - {fspath} && w'.dirs == w.dirs
      && (fspath in w.dirs ==> w'.files == w.files)
      && (written ==> w'.files == w.files[fspath := fetch.body])
      && |w.queries| <= |w'.queries| <= |w.queries| + 1
      && w'.queries[..|w.queries|] == w.queries
      && (|w'.queries| > |w.queries| ==>
            a.build.BuildScoped? && written &&
            w'.queries[|w.queries|] == QueryFor(a.build, net.md5, fetch.body, fspath))
      && (r.Ok? <==> a.build.BuildScoped? && written)
      && (r.Ok? ==>
            && r.value == fspath && |w'.queries| == |w.queries| + 1
            && w'.log == w.log + (if net.oracle(w'.queries[|w.queries|]) == Broken then [PostVerifyFailed] else []))
      && (r.Raised? ==> r.error != ArtifactBroken && w'.log == w.log)
      && (a.build.NoBuild? ==> w'.queries == w.queries && (written ==> r == Raised(AttributeError)))
      && ExtendsAbout(w'.queries, w.queries, 1, a.build, fspath)
      && (w'.log == w.log || w'.log == w.log + [PostVerifyFailed])
  {
    var (d, w1) := a.DownloadResult(net, w, fspath);
    DownloadEffect(a, net, w, fspath);
    if d.Ok? {
      VerifyQuery(a, net, w1, fspath);
      var w' := a.VerifyResult(net, w1, fspath).1;
      ExtendsAboutStep(w.queries, w'.queries[|w.queries|..], 1, a.build, fspath);
      assert w'.queries == w.queries + w'.queries[|w.queries|..];
    } else {
      ExtendsAboutStep(w.queries, [], 1, a.build, fspath);
      assert w.queries + [] == w.queries;
    }
  }

  /** The first part of `save` (artifact.py:43-57) changes no file and calls
      no transport; it asks the service about the existing bytes exactly when
      there are some and a build, and it ends `save` early exactly when the
      service confirms them, or when `fspath` is a directory and there is a
      build. */
  lemma PrecheckEffect(a: Artifact, net: Collaborators, w: World, fspath: Path)
    ensures var (early, w') := a.Precheck(net, w, fspath);
      var asked := a.build.BuildScoped? && fspath in w.files;
      var confirmed := asked && net.oracle(QueryFor(a.build, net.md5, w.files[fspath], fspath)) == Confirmed;
      && w'.files == w.files && w'.dirs == w.dirs && w'.downloads == w.downloads
      && w'.queries == w.queries + (if asked then [QueryFor(a.build, net.md5, w.files[fspath], fspath)] else [])
      && (early.Some? <==> confirmed || (a.build.BuildScoped? && fspath !in w.files && fspath in w.dirs))
      && (confirmed ==> early == Some(Ok(fspath)))
      && (early.Some? && !confirmed ==> early == Some(Raised(IOError)))
  {
    var w0 := w.Logged(Saving(a.url, fspath));
    var w1 := if EndsWith(fspath, a.filename) then w0 else w0.Logged(RenameWarning(a.filename));
    if w1.Exists(fspath) && a.build.BuildScoped? {
      VerifyQuery(a, net, w1, fspath);
    }
  }

  /** The queries of the first part of `save` are about `fspath` and the build. */
  lemma PrecheckQueries(a: Artifact, net: Collaborators, w: World, fspath: Path)
    ensures ExtendsAbout(a.Precheck(net, w, fspath).1.queries, w.queries, 1, a.build, fspath)
  {
    PrecheckEffect(a, net, w, fspath);
    if a.build.BuildScoped? && fspath in w.files {
      ExtendsAboutStep(w.queries, [QueryFor(a.build, net.md5, w.files[fspath], fspath)], 1, a.build, fspath);
    } else {
      ExtendsAboutStep(w.queries, [], 1, a.build, fspath);
      assert w.queries + [] == w.queries;
    }
  }

  /** An entry the first part of `save` may log: never the post-download
      warning, and the rename warning only for a path that does not end with
      the artifact's file name. */
  predicate PrecheckEvent(e: Event, fspath: Path, filename: Path) {
    e != PostVerifyFailed && (e.RenameWarning? ==> !EndsWith(fspath, filename))
  }

  /** Every entry of `log` from index `n` on is a `PrecheckEvent`. */
  predicate PrecheckEventsSince(log: seq<Event>, n: nat, fspath: Path, filename: Path) {
    n <= |log| && forall i | n <= i < |log| :: PrecheckEvent(log[i], fspath, filename)
  }

  lemma PrecheckEventsAppend(log: seq<Event>, n: nat, tail: seq<Event>, fspath: Path, filename: Path)
    requires PrecheckEventsSince(log, n, fspath, filename)
    requires forall e <- tail :: PrecheckEvent(e, fspath, filename)
    ensures PrecheckEventsSince(log + tail, n, fspath, filename)
  {
    forall i | n <= i < |log + tail| ensures PrecheckEvent((log + tail)[i], fspath, filename) {
      if i >= |log| {
        assert (log + tail)[i] == tail[i - |log|];
      }
    }
  }

  lemma NoRenameAfterPrecheck(log: seq<Event>, n: nat, log': seq<Event>, fspath: Path, filename: Path)
    requires PrecheckEventsSince(log, n, fspath, filename) && EndsWith(fspath, filename)
    requires log' == log || log' == log + [PostVerifyFailed]
    ensures NoRenameSince(log', n)
  {
  }

  lemma PostVerifyLogged(log: seq<Event>, n: nat, log': seq<Event>, broken: bool, fspath: Path, filename: Path)
    requires PrecheckEventsSince(log, n, fspath, filename)
    requires log' == log + if broken then [PostVerifyFailed] else []
    ensures n <= |log'| && (broken <==> PostVerifyFailed in log'[n..])
  {
    assert log'[n..] == log[n..] + if broken then [PostVerifyFailed] else [];
    assert forall i | 0 <= i < |log[n..]| :: log[n..][i] == log[n + i];
  }

  /** The first part of `save` only appends to the log, and only entries that
      `PrecheckEvent` allows. It starts with the `Saving` message, followed by
      the rename warning whenever `fspath` does not end with the file name. */
  lemma PrecheckLog(a: Artifact, net: Collaborators, w: World, fspath: Path)
    ensures var w' := a.Precheck(net, w, fspath).1;
      && |w.log| < |w'.log| && w'.log[..|w.log|] == w.log
      && w'.log[|w.log|] == Saving(a.url, fspath)
      && (!EndsWith(fspath, a.filename) ==>
            |w.log| + 1 < |w'.log| && w'.log[|w.log| + 1] == RenameWarning(a.filename))
      && PrecheckEventsSince(w'.log, |w.log|, fspath, a.filename)
  {
    var w0 := w.Logged(Saving(a.url, fspath));
    var w1 := if EndsWith(fspath, a.filename) then w0 else w0.Logged(RenameWarning(a.filename));
    var head: seq<Event> := [Saving(a.url, fspath)] + if EndsWith(fspath, a.filename) then [] else [RenameWarning(a.filename)];
    assert w1.log == w.log + head;
    assert PrecheckEventsSince(w.log, |w.log|, fspath, a.filename);
    PrecheckEventsAppend(w.log, |w.log|, head, fspath, a.filename);
    var w' := a.Precheck(net, w, fspath).1;
    var tail: seq<Event>;
    if !w1.Exists(fspath) {
      tail := [LocalMissing];
    } else if a.build.NoBuild? {
      tail := [NotFromJenkins];
    } else {
      VerifyQuery(a, net, w1, fspath);
      tail := w'.log[|w1.log|..];
      assert w'.log == w1.log + tail;
    }
    assert w'.log == w1.log + tail;
    PrecheckEventsAppend(w1.log, |w.log|, tail, fspath, a.filename);
    assert w1.log[..|w.log|] == w.log;
    assert w'.log[|w.log|] == w1.log[|w.log|] == head[0];
    if !EndsWith(fspath, a.filename) {
      assert w'.log[|w.log| + 1] == w1.log[|w.log| + 1] == head[1];
    }
  }

  /** `save` as its two parts: the facts of `PrecheckEffect`, and those of
      `FetchAndCheckEffect` when the first part does not end it. */
  lemma SaveParts(a: Artifact, net: Collaborators, w: World, fspath: Path)
    ensures var (early, w1) := a.Precheck(net, w, fspath);
      a.SaveResult(net, w, fspath) == if early.Some? then (early.value, w1) else a.FetchAndCheck(net, w1, fspath)
  {
  }

  /** Short-circuit: an existing file that the service confirms for the build
      is returned as it is; nothing is downloaded and no file changes. */
  lemma ShortCircuit(a: Artifact, net: Collaborators, w: World, fspath: Path)
    requires fspath in w.files && a.build.BuildScoped?
    requires net.oracle(QueryFor(a.build, net.md5, w.files[fspath], fspath)) == Confirmed
    ensures var (r, w') := a.SaveResult(net, w, fspath);
      && r == Ok(fspath)
      && w'.files == w.files && w'.dirs == w.dirs
      && w'.downloads == w.downloads
      && w'.queries == w.queries + [QueryFor(a.build, net.md5, w.files[fspath], fspath)]
  {
    PrecheckEffect(a, net, w, fspath);
  }

  /** Fall-through: an existing file that the service rejects, or cannot
      identify, is downloaded again, exactly once, with the authenticated
      transport, after one query about the old bytes. */
  lemma FallThrough(a: Artifact, net: Collaborators, w: World, fspath: Path)
    requires fspath in w.files && a.build.BuildScoped?
    requires net.oracle(QueryFor(a.build, net.md5, w.files[fspath], fspath)) != Confirmed
    ensures var (r, w') := a.SaveResult(net, w, fspath);
      && w'.downloads == w.downloads + [Download(a.url, true)]
      && |w'.queries| >= |w.queries| + 1
      && w'.queries[|w.queries|] == QueryFor(a.build, net.md5, w.files[fspath], fspath)
  {
    var (early, w1) := a.Precheck(net, w, fspath);
    PrecheckEffect(a, net, w, fspath);
    FetchAndCheckEffect(a, net, w1, fspath);
    var w' := a.FetchAndCheck(net, w1, fspath).1;
    assert w'.queries[|w.queries|] == w'.queries[..|w1.queries|][|w.queries|];
  }

  /** Without a build the local copy is never trusted: `save` always downloads,
      with `urlretrieve`, and never asks the service. Because the check after
      the download reads `self.build.job` without a guard, it then always
      raises: from the transfer, from opening a directory, or `AttributeError`
      after a successful download overwrote `fspath`. */
  lemma NoBuildAlwaysDownloads(a: Artifact, net: Collaborators, w: World, fspath: Path)
    requires a.build.NoBuild?
    ensures var (r, w') := a.SaveResult(net, w, fspath);
      && w'.downloads == w.downloads + [Download(a.url, false)]
      && w'.queries == w.queries
      && r.Raised?
      && (net.urlretrieve(a.url).Delivered? && fspath !in w.dirs ==>
            r == Raised(AttributeError) && w'.files == w.files[fspath := net.urlretrieve(a.url).body])
  {
    var (early, w1) := a.Precheck(net, w, fspath);
    PrecheckEffect(a, net, w, fspath);
    FetchAndCheckEffect(a, net, w1, fspath);
  }

  /** After a download that succeeded, the verification outcome does not
      matter: `False` is ignored and `ArtifactBroken` is logged and absorbed;
      `save` returns the downloaded path, holding the delivered bytes. The
      service was asked about the old bytes (if there were any) and then about
      the delivered ones. */
  lemma PostDownloadCheckAbsorbed(a: Artifact, net: Collaborators, w: World, fspath: Path)
    requires a.build.BuildScoped?
    requires net.opener(a.url).Delivered? && fspath !in w.dirs
    requires fspath in w.files ==> net.oracle(QueryFor(a.build, net.md5, w.files[fspath], fspath)) != Confirmed
    ensures var (r, w') := a.SaveResult(net, w, fspath);
      var body := net.opener(a.url).body;
      var q := QueryFor(a.build, net.md5, body, fspath);
      && r == Ok(fspath)
      && w'.files == w.files[fspath := body]
      && w'.downloads == w.downloads + [Download(a.url, true)]
      && w'.queries == w.queries + (if fspath in w.files then [QueryFor(a.build, net.md5, w.files[fspath], fspath)] else []) + [q]
      && |w.log| <= |w'.log|
      && (net.oracle(q) == Broken <==> PostVerifyFailed in w'.log[|w.log|..])
  {
    var (early, w1) := a.Precheck(net, w, fspath);
    PrecheckEffect(a, net, w, fspath);
    SaveParts(a, net, w, fspath);
    var (r, w') := a.FetchAndCheck(net, w1, fspath);
    FetchAndCheckEffect(a, net, w1, fspath);
    PrecheckLog(a, net, w, fspath);
    var q := QueryFor(a.build, net.md5, net.opener(a.url).body, fspath);
    assert w'.queries == w1.queries + [q];
    PostVerifyLogged(w1.log, |w.log|, w'.log, net.oracle(q) == Broken, fspath, a.filename);
  }

  /** Each `save` calls a transport at most once, and skips it exactly when
      there is a build and either the service confirms the existing file or
      `fspath` is a directory (whose digest cannot be taken). */
  lemma DownloadCount(a: Artifact, net: Collaborators, w: World, fspath: Path)
    ensures var (r, w') := a.SaveResult(net, w, fspath);
      && (w'.downloads == w.downloads || w'.downloads == w.downloads + [Download(a.url, a.build.BuildScoped?)])
      && (w'.downloads == w.downloads <==>
            a.build.BuildScoped? &&
            ((fspath in w.files && net.oracle(QueryFor(a.build, net.md5, w.files[fspath], fspath)) == Confirmed)
             || (fspath !in w.files && fspath in w.dirs)))
  {
    var (early, w1) := a.Precheck(net, w, fspath);
    PrecheckEffect(a, net, w, fspath);
    if early.None? {
      FetchAndCheckEffect(a, net, w1, fspath);
      assert |a.FetchAndCheck(net, w1, fspath).1.downloads| == |w.downloads| + 1;
    }
  }

  /** Each `save` asks the service at most twice, and every question is about
      `basename(fspath)` and the artifact's own build. */
  lemma QueryCount(a: Artifact, net: Collaborators, w: World, fspath: Path)
    ensures ExtendsAbout(a.SaveResult(net, w, fspath).1.queries, w.queries, 2, a.build, fspath)
  {
    var (early, w1) := a.Precheck(net, w, fspath);
    PrecheckQueries(a, net, w, fspath);
    SaveParts(a, net, w, fspath);
    if early.None? {
      var w' := a.FetchAndCheck(net, w1, fspath).1;
      FetchAndCheckEffect(a, net, w1, fspath);
      ExtendsAboutTrans(w'.queries, w1.queries, w.queries, 1, 1, a.build, fspath);
    }
  }

  /** `save` logs the rename warning, right after its first message, exactly
      when the path does not end with the artifact's file name. */
  lemma RenameWarningOnlyOnMismatch(a: Artifact, net: Collaborators, w: World, fspath: Path)
    ensures var w' := a.SaveResult(net, w, fspath).1;
      && |w.log| <= |w'.log|
      && (EndsWith(fspath, a.filename) ==> NoRenameSince(w'.log, |w.log|))
      && (!EndsWith(fspath, a.filename) ==>
            |w.log| + 1 < |w'.log| && w'.log[|w.log| + 1] == RenameWarning(a.filename))
  {
    var (early, w1) := a.Precheck(net, w, fspath);
    PrecheckLog(a, net, w, fspath);
    SaveParts(a, net, w, fspath);
    var w' := a.SaveResult(net, w, fspath).1;
    if early.None? {
      FetchAndCheckEffect(a, net, w1, fspath);
    }
    if EndsWith(fspath, a.filename) {
      NoRenameAfterPrecheck(w1.log, |w.log|, w'.log, fspath, a.filename);
    } else {
      assert w'.log[..|w1.log|] == w1.log;
      assert w'.log[|w.log| + 1] == w1.log[|w.log| + 1];
    }
  }

  /** `save` writes no path but `fspath` and never creates or removes a
      directory, so it keeps files and directories apart. */
  lemma SaveTouchesOnlyTarget(a: Artifact, net: Collaborators, w: World, fspath: Path)
    ensures var (r, w') := a.SaveResult(net, w, fspath);
      && w'.files - {fspath} == w.files - {fspath}
      && w'.dirs == w.dirs
      && (w.Valid() ==> w'.Valid())
  {
    var (early, w1) := a.Precheck(net, w, fspath);
    PrecheckEffect(a, net, w, fspath);
    if early.None? {
      FetchAndCheckEffect(a, net, w1, fspath);
      var w' := a.FetchAndCheck(net, w1, fspath).1;
      if w.Valid() && fspath in w.dirs {
        assert w'.files == w.files;
      }
    }
  }

  /** A successful `save` returns `fspath`, which then holds a regular file,
      and the last question put to the service was about exactly those bytes;
      `ArtifactBroken` never reaches the caller. */
  lemma SaveOutcome(a: Artifact, net: Collaborators, w: World, fspath: Path)
    ensures var (r, w') := a.SaveResult(net, w, fspath);
      && (r.Ok? ==>
            && r.value == fspath && fspath in w'.files
            && a.build.BuildScoped?
            && |w'.queries| > |w.queries|
            && w'.queries[|w'.queries| - 1] == QueryFor(a.build, net.md5, w'.files[fspath], fspath))
      && (r.Raised? ==> r.error != ArtifactBroken)
  {
    var (early, w1) := a.Precheck(net, w, fspath);
    PrecheckEffect(a, net, w, fspath);
    if early.None? {
      FetchAndCheckEffect(a, net, w1, fspath);
    }
  }

  /** Saving twice: once a `save` has succeeded and the service confirms the
      last question that `save` put to it (the one about the bytes it left),
      a second `save` to the same path returns it, downloads nothing and
      changes no file. */
  lemma SecondSaveShortCircuits(a: Artifact, net: Collaborators, w: World, fspath: Path)
    requires a.SaveResult(net, w, fspath).0.Ok?
    requires var qs := a.SaveResult(net, w, fspath).1.queries;
      |qs| > 0 && net.oracle(qs[|qs| - 1]) == Confirmed
    ensures var w1 := a.SaveResult(net, w, fspath).1;
      var (r2, w2) := a.SaveResult(net, w1, fspath);
      r2 == Ok(fspath) && w2.files == w1.files && w2.downloads == w1.downloads
  {
    var w1 := a.SaveResult(net, w, fspath).1;
    SaveOutcome(a, net, w, fspath);
    ShortCircuit(a, net, w1, fspath);
  }

  /** The `endswith` test only logs: two artifacts that differ in nothing but
      `filename` have `save` calls that agree on the result and on every part of
      the world except the log. */
  lemma FilenameOnlyLogged(a: Artifact, b: Artifact, net: Collaborators, w: World, fspath: Path)
    requires a.url == b.url && a.build == b.build
    ensures var (ra, wa) := a.SaveResult(net, w, fspath);
      var (rb, wb) := b.SaveResult(net, w, fspath);
      ra == rb && wa.(log := []) == wb.(log := [])
  {
    var (ea, va) := a.Precheck(net, w, fspath);
    var (eb, vb) := b.Precheck(net, w, fspath);
    PrecheckEffect(a, net, w, fspath);
    PrecheckEffect(b, net, w, fspath);
    assert ea == eb;
    if ea.None? {
      FetchAndCheckIgnoresLog(a, b, net, va, vb, fspath);
    }
  }

  /** `_do_download` reads neither the log nor the artifact's file name. */
  lemma DownloadIgnoresLog(a: Artifact, b: Artifact, net: Collaborators, v: World, u: World, fspath: Path)
    requires a.url == b.url && a.build == b.build
    requires v.(log := []) == u.(log := [])
    ensures a.DownloadResult(net, v, fspath).0 == b.DownloadResult(net, u, fspath).0
    ensures a.DownloadResult(net, v, fspath).1.(log := []) == b.DownloadResult(net, u, fspath).1.(log := [])
    ensures a.DownloadResult(net, v, fspath).1.log == v.log
  {
    assert v.files == u.files && v.dirs == u.dirs && v.downloads == u.downloads && v.queries == u.queries;
    assert a.Transport(net) == b.Transport(net);
  }

  /** `_verify_download` reads neither the log nor the artifact's file name. */
  lemma VerifyIgnoresLog(a: Artifact, b: Artifact, net: Collaborators, v: World, u: World, fspath: Path)
    requires a.build == b.build
    requires v.(log := []) == u.(log := [])
    ensures a.VerifyResult(net, v, fspath).0 == b.VerifyResult(net, u, fspath).0
    ensures a.VerifyResult(net, v, fspath).1.(log := []) == b.VerifyResult(net, u, fspath).1.(log := [])
  {
    assert v.files == u.files && v.queries == u.queries;
    VerifyQuery(a, net, v, fspath);
    VerifyQuery(b, net, u, fspath);
  }

  /** The tail of `save` reads neither the log nor the artifact's file name. */
  lemma FetchAndCheckIgnoresLog(a: Artifact, b: Artifact, net: Collaborators, v: World, u: World, fspath: Path)
    requires a.url == b.url && a.build == b.build
    requires v.(log := []) == u.(log := [])
    ensures var (ra, va) := a.FetchAndCheck(net, v, fspath);
      var (rb, vb) := b.FetchAndCheck(net, u, fspath);
      ra == rb && va.(log := []) == vb.(log := [])
  {
    var (da, va1) := a.DownloadResult(net, v, fspath);
    var (db, vb1) := b.DownloadResult(net, u, fspath);
    DownloadIgnoresLog(a, b, net, v, u, fspath);
    if da.Ok? {
      VerifyIgnoresLog(a, b, net, va1, vb1, da.value);
    }
  }

  /** `savetodir` saves to `join(dirpath, filename)`, which ends with
      `filename`, so its rename warning never fires; and when `filename` holds
      no separator, that is also the name every fingerprint query carries. */
  lemma SaveToDirTarget(a: Artifact, net: Collaborators, w: World, dirpath: Path)
    requires dirpath in w.dirs
    ensures var w' := a.SaveToDirResult(net, w, dirpath).1;
      && |w.log| <= |w'.log|
      && NoRenameSince(w'.log, |w.log|)
      && ('/' !in a.filename ==>
            forall k | |w.queries| <= k < |w'.queries| :: w'.queries[k].basename == a.filename)
  {
    var fspath := Join(dirpath, a.filename);
    assert a.SaveToDirResult(net, w, dirpath) == a.SaveResult(net, w, fspath);
    RenameWarningOnlyOnMismatch(a, net, w, fspath);
    QueryCount(a, net, w, fspath);
    var w' := a.SaveResult(net, w, fspath).1;
    if '/' !in a.filename {
      BasenameOfJoin(dirpath, a.filename);
    }
  }
}
