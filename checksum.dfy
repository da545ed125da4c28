/** The checksum engine behind `_md5sum`: file contents as bytes, a binary file
    read in chunks, and a streaming digest accumulator. The MD5 algorithm itself
    is a parameter (`md5: Bytes -> Hex`); what is modelled is how the bytes of
    a file reach it. */
module Checksum {

  newtype Byte = b: int | 0 <= b < 256

  type Bytes = seq<Byte>

  /** A hex digest, as `hexdigest()` returns it. */
  type Hex = string

  datatype Option<T> = None | Some(value: T)

  /** The default `chunksize` of `_md5sum`: 2**20 bytes. */
  const DefaultChunkSize: int := 0x10_0000

  /** `f.read(n)` on a binary file positioned at `pos`: at most `n` bytes, fewer
      only at the end of the file; a negative `n` reads to the end. */
  function ReadChunk(content: Bytes, pos: nat, n: int): Bytes
    requires pos <= |content|
  {
    if n < 0 || |content| - pos <= n then content[pos..] else content[pos..pos + n]
  }

  /** The concatenation of a sequence of chunks. */
  function Flatten(chunks: seq<Bytes>): Bytes {
    if chunks == [] then [] else Flatten(chunks[..|chunks| - 1]) + chunks[|chunks| - 1]
  }

  lemma FlattenSnoc(chunks: seq<Bytes>, c: Bytes)
    ensures Flatten(chunks + [c]) == Flatten(chunks) + c
  {
    assert (chunks + [c])[..|chunks|] == chunks;
  }

  /** The state of a `hashlib.md5()` object, abstracted to the bytes fed to it so
      far: `update` appends and `hexdigest` hashes everything fed. This is the
      streaming contract of every `hashlib` hash. */
  datatype Hasher = Hasher(fed: Bytes) {

    function Update(chunk: Bytes): Hasher {
      Hasher(fed + chunk)
    }

    function HexDigest(md5: Bytes -> Hex): Hex {
      md5(fed)
    }
  }

  /** A value the read loop can compare with its sentinel: binary reads produce
      `bytes`, and the sentinel of the loop as written is the text string `''`.
      Under Python 3 a `bytes` value never equals a `str` value. */
  datatype PyValue = PyBytes(bytes: Bytes) | PyStr(text: string)

  /** The sentinel the source passes to `iter`. */
  const WrittenSentinel: PyValue := PyStr("")

  /** The sentinel the loop evidently means: the empty read at end of file. */
  const IntendedSentinel: PyValue := PyBytes([])

  /** `for chunk in iter(lambda: f.read(n), sentinel): md5.update(chunk)`, run
      for at most `fuel` reads: `Some(fed)` with the bytes fed to the hasher if
      a read returned the sentinel within that budget, `None` otherwise. */
  function ReadLoop(content: Bytes, pos: nat, n: int, sentinel: PyValue, hasher: Hasher, fuel: nat): Option<Bytes>
    requires pos <= |content|
    decreases fuel
  {
    if fuel == 0 then None
    else
      var chunk := ReadChunk(content, pos, n);
      if PyBytes(chunk) == sentinel then Some(hasher.fed)
      else ReadLoop(content, pos + |chunk|, n, sentinel, hasher.Update(chunk), fuel - 1)
  }

  /** The loop as written never stops: however many reads it is given, no read
      equals the text sentinel, and at end of file it keeps reading `b''`. */
  lemma {:induction false} WrittenLoopNeverStops(content: Bytes, pos: nat, n: int, hasher: Hasher, fuel: nat)
    requires pos <= |content|
    ensures ReadLoop(content, pos, n, WrittenSentinel, hasher, fuel) == None
    decreases fuel
  {
    if fuel > 0 {
      var chunk := ReadChunk(content, pos, n);
      WrittenLoopNeverStops(content, pos + |chunk|, n, hasher.Update(chunk), fuel - 1);
    }
  }

  /** With the intended sentinel and a positive chunk size the loop stops after
      at most one read per byte plus the final empty read, having fed the
      hasher exactly the rest of the file. */
  lemma {:induction false} IntendedLoopFeedsRest(content: Bytes, pos: nat, n: int, hasher: Hasher, fuel: nat)
    requires pos <= |content| && n > 0
    requires fuel > |content| - pos
    ensures ReadLoop(content, pos, n, IntendedSentinel, hasher, fuel) == Some(hasher.fed + content[pos..])
    decreases fuel
  {
    var chunk := ReadChunk(content, pos, n);
    if chunk == [] {
      assert content[pos..] == [];
      assert hasher.fed + content[pos..] == hasher.fed;
    } else {
      assert PyBytes(chunk) != IntendedSentinel;
      assert content[pos..] == chunk + content[pos + |chunk|..];
      IntendedLoopFeedsRest(content, pos + |chunk|, n, hasher.Update(chunk), fuel - 1);
      assert hasher.Update(chunk).fed + content[pos + |chunk|..] == hasher.fed + content[pos..];
    }
  }
}
