/**
 * File contents as byte sequences: the effect of resizing a file and of writing
 * a received chunk into it.
 */
module FileStore {

  newtype byte = x: int | 0 <= x < 256

  const PACKAGE_SIZE: nat := 4096

  function Zeros(n: nat): (s: seq<byte>)
    ensures |s| == n && forall k :: 0 <= k < n ==> s[k] == 0
  {
    seq(n, _ => 0 as byte)
  }

  /** Truncates, or extends with zero bytes. */
  function Resized(content: seq<byte>, n: nat): (r: seq<byte>)
    ensures |r| == n
  {
    if n <= |content| then content[..n] else content + Zeros(n - |content|)
  }

  /** Positioned write on an open file; a gap before the offset reads as zeros. */
  function WriteAt(content: seq<byte>, offset: nat, data: seq<byte>): (r: seq<byte>)
    ensures offset + |data| <= |content| ==> |r| == |content|
    ensures |data| > 0 ==> |r| >= offset + |data| && r[offset..offset + |data|] == data
  {
    if data == [] then content
    else
      var base := if |content| < offset + |data| then Resized(content, offset + |data|) else content;
      base[..offset] + data + base[offset + |data|..]
  }

  /** Bytes written for a chunk of `size` bytes into a file whose record says `fileSize`. */
  function WriteLength(fileSize: nat, size: nat): nat {
    if fileSize <= PACKAGE_SIZE && fileSize <= size then fileSize
    else if size < PACKAGE_SIZE then size
    else PACKAGE_SIZE
  }

  function StoreChunk(content: seq<byte>, fileSize: nat, chunk: seq<byte>, offset: nat): (r: seq<byte>) {
    WriteAt(content, offset, chunk[..WriteLength(fileSize, |chunk|)])
  }

  /** Byte by byte: what was there stays as far as the new length goes, the rest is zero. */
  lemma ResizedAt(content: seq<byte>, n: nat, k: nat)
    requires k < n
    ensures Resized(content, n)[k] == if k < |content| then content[k] else 0
  {
  }

  /** Byte by byte: the data where it belongs, the old content elsewhere, zero in a gap. */
  lemma WrittenAt(content: seq<byte>, offset: nat, data: seq<byte>)
    requires data != []
    ensures var r, end := WriteAt(content, offset, data), offset + |data|;
            && |r| == (if |content| < end then end else |content|)
            && forall k :: 0 <= k < |r| ==>
                 r[k] == if offset <= k < end then data[k - offset] else if k < |content| then content[k] else 0
  {
  }

  /** At most 4096 bytes of a package are written, and no more than the file is long. */
  lemma WrittenLength(fileSize: nat, size: nat)
    ensures WriteLength(fileSize, size) ==
            if fileSize <= size && fileSize <= 4096 then fileSize else if size <= 4096 then size else 4096
  {
  }
}
