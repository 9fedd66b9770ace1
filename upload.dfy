/** The chunked copy of an uploaded photo into its destination file. The
    upload is a byte sequence read from a position; the destination is the
    sequence of bytes written to it. */
module Upload {
  import opened Models

  const CHUNK_SIZE: nat := 430

  /** fi.read(n) with the file positioned at `pos`: the next `n` bytes, or
      what remains when fewer are left. */
  function Read(fi: seq<byte>, pos: nat, n: nat): (chunk: seq<byte>)
    requires pos <= |fi|
    ensures pos + |chunk| <= |fi|
    ensures chunk == fi[pos..pos + |chunk|]
    ensures |chunk| == if pos + n <= |fi| then n else |fi| - pos
  {
    if pos + n <= |fi| then fi[pos..pos + n] else fi[pos..]
  }

  /** The bytes a sequence of writes leaves in a file opened empty. */
  function Concat(writes: seq<seq<byte>>): seq<byte> {
    if |writes| == 0 then [] else Concat(writes[..|writes| - 1]) + writes[|writes| - 1]
  }

  /** The `while chunk:` loop of add_photo_to_album. The destination receives
      exactly the uploaded bytes, in order, through writes of at most
      CHUNK_SIZE bytes each, every write but the last being full. */
  method CopyInChunks(fi: seq<byte>) returns (destination: seq<byte>, writes: seq<seq<byte>>)
    ensures destination == fi
    ensures Concat(writes) == destination
    ensures forall k :: 0 <= k < |writes| ==> 0 < |writes[k]| <= CHUNK_SIZE
    ensures forall k :: 0 <= k < |writes| - 1 ==> |writes[k]| == CHUNK_SIZE
  {
    destination, writes := [], [];
    var pos := 0;
    var chunk := Read(fi, pos, CHUNK_SIZE);
    pos := pos + |chunk|;
    while |chunk| > 0
      invariant |chunk| <= pos <= |fi|
      invariant chunk == fi[pos - |chunk|..pos]
      invariant destination == fi[..pos - |chunk|]
      invariant destination == Concat(writes)
      invariant |chunk| <= CHUNK_SIZE && (|chunk| < CHUNK_SIZE ==> pos == |fi|)
      invariant forall k :: 0 <= k < |writes| ==> 0 < |writes[k]| <= CHUNK_SIZE
      invariant forall k :: 0 <= k < |writes| - 1 ==> |writes[k]| == CHUNK_SIZE
      invariant |writes| > 0 && |writes[|writes| - 1]| < CHUNK_SIZE ==> chunk == []
      decreases |fi| - pos + |chunk|
    {
      ghost var written := writes;
      destination := destination + chunk;
      writes := writes + [chunk];
      assert writes[..|writes| - 1] == written;
      chunk := Read(fi, pos, CHUNK_SIZE);
      pos := pos + |chunk|;
    }
  }
}
