# jenkinsapi `Artifact`: saving a build artifact, modelled in Dafny

`jenkinsapi.artifact.Artifact` stands for one file that a Jenkins build
produced. Its `save(fspath)` writes the artifact to a local path. If a copy is
already there and the artifact belongs to a build, `save` first asks the Jenkins
fingerprint service whether the MD5 digest of that copy is recorded for this
file name, job and build number. It returns at once when the service confirms
the copy. Otherwise it downloads the artifact and checks the result once more;
with a build, that second check does not stop it (without one it raises, see
below). With a build, the download goes
through the build's authenticated opener; without one it uses `urlretrieve`.
`savetodir(dirpath)` saves to `join(dirpath, filename)`.

The model has four modules:

- `Paths` (`paths.dfy`): `posixpath.join`, `posixpath.basename` and `str.endswith`
  on plain strings.
- `Checksum` (`checksum.dfy`): bytes, the chunked reads of `_md5sum`, and the
  `hashlib` accumulator. The accumulator is abstracted to the bytes fed to it.
  The read loop as the source writes it is modelled too (see "## Findings").
- `Artifacts` (`artifacts.dfy`): the artifact and its collaborators.
  - `World` and `SaveResult`: the state that a `save` reads and changes is a
    `World` value. It holds regular files with their bytes, directories, and
    the traces of transport calls, fingerprint queries and log messages. Each
    operation is a function from the old world to its outcome (a value or a
    raised exception) and the new world: `VerifyResult`, `DownloadResult`,
    `SaveResult` and `SaveToDirResult`.
  - `Host` and the methods: a `Host` is a class holding the same state in
    mutable fields. `Md5Sum`, `VerifyDownload`, `DoDownload`, `Save` and
    `SaveToDir` are methods that update it step by step, in the order of the
    Python code. Each is proved to agree with its function.
  - Collaborators: the transports, the fingerprint service and MD5 are
    parameters (`Collaborators`):
    - each transport is a function from URL to `Delivered(body)`,
      `ConnectFailed` or `BodyFailed(received)`;
    - the service answers `Confirmed`, `Rejected` or `Broken` (the
      `ArtifactBroken` exception);
    - MD5 is a function from bytes to a hex string.
  - `Artifact` itself is a datatype. Its fields are set once, in `__init__`.
  - `build` is `NoBuild` (Python `None`) or `BuildScoped(jobName, buildNo, baseurl)`.
- `ArtifactProperties` (`artifact_properties.dfy`): what `save` and `savetodir`
  promise, proved about the world functions, and through them about the
  methods.

Three behaviours of the code are easy to miss. The model follows the code in
each of them. Against the `save` docstring (artifact.py:36-41), which promises
the path of the file just written, they are:

- **No build, after a successful download.** `_verify_download` runs after
  every download (artifact.py:60), whatever the build. It computes the digest
  (line 84) and then reads `self.build.job` (line 85). With `build` equal to
  `None` that raises `AttributeError`, and nothing catches it, so the
  docstring's path is never returned. The file has already been overwritten
  by then. This is the behaviour with the corrected read loop of `_md5sum`.
  With the loop as written, line 84 never returns, so every `save` whose
  download succeeds hangs, with or without a build (see "## Findings").
  `NoBuildAlwaysDownloads` and the rest of `ArtifactProperties` describe
  `save` with the corrected loop.
- **Errors while verifying.** Only `ArtifactBroken` is caught (lines 52 and 61).
  - When the local `fspath` is a directory, `_md5sum` cannot open it. The
    `IOError` ends `save` at the first check, before any download.
  - A `False` answer is ignored after the download, because its value is
    unused at line 60. Before the download it leads to a new download.
- **Failed body on the opener branch.** When the body fails midway, the
  authenticated branch leaves an empty file behind. Line 72 opens the file,
  which truncates it, and then `f.read()` (line 73) raises before anything is
  written.

## Model

| member | source | states |
|---|---|---|
| Paths.LastSlash | jenkinsapi/artifact.py:86 | the index of the last `/` in the path, or -1; no separator follows it |
| Paths.Basename | jenkinsapi/artifact.py:86 | `os.path.basename`: the longest suffix of the path without a separator, preceded by one unless it is the whole path |
| Paths.Join | jenkinsapi/artifact.py:109 | `os.path.join(dirpath, filename)` ends with `filename`; an absolute `filename` replaces `dirpath`; otherwise the result starts with `dirpath`, with one `/` between them when `dirpath` is non-empty and does not end with one, and no separator added when `dirpath` is empty or ends with one |
| Paths.BasenameOfJoin | jenkinsapi/artifact.py:109 | joining any directory with a file name that has no separator gives a path whose basename is that name |
| Checksum.WrittenLoopNeverStops | jenkinsapi/artifact.py:96-97 | the read loop with the text sentinel `''` never ends, for any file, chunk size and number of reads |
| Checksum.IntendedLoopFeedsRest | jenkinsapi/artifact.py:96-97 | with the empty-bytes sentinel and a positive chunk size, the loop ends within one read per remaining byte plus one, having fed exactly the rest of the file |
| Artifacts.Artifact.Md5Sum | jenkinsapi/artifact.py:88-100 | the chunks read are non-empty, at most `chunksize` long and make up the whole file, so for every non-zero chunk size the digest is MD5 of the whole file; for a positive chunk size, the chunks fed are what `Checksum.ReadLoop` with the `b''` sentinel feeds; `IOError` when the path is not a regular file |
| Artifacts.Artifact.VerifyDownload | jenkinsapi/artifact.py:80-86 | agrees with `VerifyResult`: digest first, then `AttributeError` without a build, else one query whose verdict becomes `True`, `False` or `ArtifactBroken` |
| Artifacts.Artifact.DoDownload | jenkinsapi/artifact.py:65-78 | agrees with `DownloadResult`: one transport call, chosen by the build; the body is written to `fspath`, which is returned |
| Artifacts.Artifact.Save | jenkinsapi/artifact.py:35-63 | agrees with `SaveResult`, the check of the local copy followed by download and re-check |
| Artifacts.Artifact.SaveToDir | jenkinsapi/artifact.py:102-110 | with an existing directory (the two asserts), agrees with `SaveResult` on `join(dirpath, filename)` |
| ArtifactProperties.DownloadEffect | jenkinsapi/artifact.py:65-78 | one transport call is recorded, authenticated exactly when there is a build; success holds exactly when the body is delivered and `fspath` is not a directory, and then `fspath` holds that body; failures are transfer or I/O errors; no other path changes |
| ArtifactProperties.VerifyQuery | jenkinsapi/artifact.py:80-86 | with a regular file and a build, exactly one query: the file's digest, `basename(fspath)`, the job name and the build number, answered with the service's verdict; otherwise `IOError` or `AttributeError` and no query; nothing else changes |
| ArtifactProperties.FetchAndCheckEffect | jenkinsapi/artifact.py:58-63 | one download, then at most one query, about the delivered bytes; a normal return exactly when there is a build and the body was written; `ArtifactBroken` is only logged; without a build a written download ends in `AttributeError` |
| ArtifactProperties.PrecheckEffect | jenkinsapi/artifact.py:43-57 | the check of the local copy changes no file and downloads nothing; it asks the service exactly when a regular file and a build are present, and ends `save` exactly when the copy is confirmed (returning `fspath`) or, with a build, `fspath` is a directory (raising `IOError`) |
| ArtifactProperties.PrecheckQueries | jenkinsapi/artifact.py:46-53 | the check of the local copy adds at most one query, about `fspath` and the build |
| ArtifactProperties.PrecheckLog | jenkinsapi/artifact.py:43-57 | the check of the local copy only appends to the log, first the `Saving` message, then the rename warning on every name mismatch and only then; never the post-download warning |
| ArtifactProperties.ShortCircuit | jenkinsapi/artifact.py:46-51 | a local file confirmed for the build is returned as it is: no download, no file changed, one query about its bytes |
| ArtifactProperties.FallThrough | jenkinsapi/artifact.py:46-58 | a local file that the service rejects or cannot identify is downloaded again, once, with the authenticated transport, after a query about the old bytes |
| ArtifactProperties.NoBuildAlwaysDownloads | jenkinsapi/artifact.py:46-60 | without a build, `save` always downloads with `urlretrieve`, never queries, and always raises; after a successful download that is `AttributeError` and `fspath` holds the new body |
| ArtifactProperties.PostDownloadCheckAbsorbed | jenkinsapi/artifact.py:58-63 | with a build, a delivered body and an `fspath` that is not a directory, `save` (when the local copy was not confirmed) returns `fspath` holding that body, the queries are the old copy's (if any) then the new bytes', and `ArtifactBroken` shows only as the logged warning |
| ArtifactProperties.DownloadCount | jenkinsapi/artifact.py:46-58 | each `save` downloads at most once, and skips the download exactly when there is a build and either the local file is confirmed or `fspath` is a directory |
| ArtifactProperties.QueryCount | jenkinsapi/artifact.py:49-60 | each `save` asks the service at most twice, always about `basename(fspath)` and the artifact's own build |
| ArtifactProperties.RenameWarningOnlyOnMismatch | jenkinsapi/artifact.py:43-45 | the rename warning is logged, right after the `Saving` message, exactly when `fspath` does not end with the artifact's file name |
| ArtifactProperties.SaveTouchesOnlyTarget | jenkinsapi/artifact.py:35-78 | `save` changes no path other than `fspath` and no directory, so it keeps files and directories apart |
| ArtifactProperties.SaveOutcome | jenkinsapi/artifact.py:35-63 | a normal return is `fspath`, now a regular file, with a build, and the last query was about exactly its bytes; `ArtifactBroken` never reaches the caller |
| ArtifactProperties.SecondSaveShortCircuits | jenkinsapi/artifact.py:46-51 | after a successful `save`, if the service confirms the last query that `save` put (about the bytes it left), a second `save` to the same path returns it, downloads nothing and changes no file |
| ArtifactProperties.FilenameOnlyLogged | jenkinsapi/artifact.py:44-45 | `filename` affects only the log: two artifacts differing only in it have `save` calls with the same result and the same world apart from the log |
| ArtifactProperties.DownloadIgnoresLog | jenkinsapi/artifact.py:65-78 | `_do_download` depends on neither the log nor the file name and adds nothing to the log |
| ArtifactProperties.VerifyIgnoresLog | jenkinsapi/artifact.py:80-86 | `_verify_download` depends on neither the log nor the file name |
| ArtifactProperties.FetchAndCheckIgnoresLog | jenkinsapi/artifact.py:58-63 | download and re-check depend on neither the log nor the file name |
| ArtifactProperties.SaveToDirTarget | jenkinsapi/artifact.py:102-110 | `savetodir` never logs the rename warning, and when the file name has no separator every query carries that name |

## Left out

- HTTP, authentication and `urlretrieve` are not modelled. Each transport is a
  function from URL to a fetch outcome, so the same URL always yields the same
  outcome.
- `Fingerprint` and `validate_for_build` are not part of this model. The
  service is an oracle on the query. `jenkinsapi/fingerprint.py` is not part of
  this model.
- The MD5 algorithm is a parameter. Collision resistance ("differing content
  gives a different digest") is not stated.
- The filesystem is flat: paths are keys, with no parent directories, missing
  directories, permissions, symlinks or path normalisation. Opening for writing
  fails only when `fspath` is a directory.
- Logging is modelled as an ordered list of message kinds. Log levels and
  message texts are not modelled.
- `__repr__` is not modelled, because it only formats a string.
- Concurrency is not modelled, including two callers saving one path at once.
- `SaveToDir` / `SaveToDirResult`: the two `assert` statements of `savetodir`
  are preconditions. The `AssertionError` they raise is not modelled.
- `build` is modelled as `None` or a build. A build object that Python treats
  as false is not modelled.
- `Artifacts.Artifact.Md5Sum`: the loop uses the empty-bytes sentinel, not the
  `''` of the source (see "## Findings"). A negative chunk size reads the whole
  file in one read, as `f.read` does.
- Running out of memory, and read errors in the middle of a local file, are not
  modelled.

## Findings

| source | as written | input that shows it | evidently intended | confidence | as-written member | corrected member |
|---|---|---|---|---|---|---|
| jenkinsapi/artifact.py:96 | `iter(lambda: f.read(chunksize), '')`: the sentinel is the text string `''`, but a file opened with `'rb'` returns `bytes`, and under Python 3 `b'' != ''`, so the loop never ends | any existing regular file (even an empty one) passed to `_md5sum`; so any `save` whose download succeeds, or that checks an existing file with a build | the sentinel `b''`: stop at the first empty read, having fed the whole file to the hash | not executed | Checksum.WrittenLoopNeverStops | Artifacts.Artifact.Md5Sum |
