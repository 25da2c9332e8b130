/**
 * Moving the content of a file in packages: reading on one side, storing on the other,
 * the loop that the dispatcher runs, and what a receiver ends up with.
 */
module Transfer {
  import opened FileStore

  function Packages(size: nat): nat {
    if size == 0 then 1 else (size + PACKAGE_SIZE - 1) / PACKAGE_SIZE
  }

  function Min(a: nat, b: nat): nat { if a <= b then a else b }

  /** What a read of at most `size` bytes at an offset yields. */
  function Chunk(content: seq<byte>, size: nat, offset: nat): (c: seq<byte>)
    ensures |c| <= size
  {
    if offset >= |content| then [] else content[offset..Min(offset + size, |content|)]
  }

  /** A file that is open: what is on the disk, and the size its record gives. */
  class File {
    var content: seq<byte>
    const size: nat
    const deleted: bool

    constructor (content: seq<byte>, size: nat, deleted: bool)
      ensures this.content == content && this.size == size && this.deleted == deleted
    {
      this.content, this.size, this.deleted := content, size, deleted;
    }

    /** At most one package; a deleted file yields nothing and leaves `more` as it was. */
    method ReadFileData(max: nat, offset: nat, more: bool) returns (data: seq<byte>, more': bool)
      ensures if deleted then data == [] && more' == more
              else data == Chunk(content, WriteLength(size, max), offset) && more' == (offset + |data| < size)
      ensures !deleted ==>
                var most := if size <= max && size <= 4096 then size else Min(max, 4096);
                if offset >= |content| then data == [] else data == content[offset..Min(offset + most, |content|)]
    {
      if deleted { return [], more; }
      if size <= PACKAGE_SIZE && size <= max {
        data := Chunk(content, size, offset);
      } else if max < PACKAGE_SIZE {
        data := Chunk(content, max, offset);
      } else {
        data := Chunk(content, PACKAGE_SIZE, offset);
      }
      more' := offset + |data| < size;
    }

    method StoreFileData(data: seq<byte>, offset: nat)
      modifies this
      ensures content == if deleted then old(content) else StoreChunk(old(content), size, data, offset)
    {
      if deleted { return; }
      if size <= PACKAGE_SIZE && size <= |data| {
        content := WriteAt(content, offset, data[..size]);
      } else if |data| < PACKAGE_SIZE {
        content := WriteAt(content, offset, data[..|data|]);
      } else {
        content := WriteAt(content, offset, data[..PACKAGE_SIZE]);
      }
    }
  }

  // ---------- the round trip ----------

  /** Once the content is there up to an offset, the next package brings it to the next one. */
  lemma NextPackage(content: seq<byte>, target: seq<byte>, offset: nat)
    requires |target| == |content| && offset <= |content|
    requires target[..offset] == content[..offset]
    requires |content| <= PACKAGE_SIZE ==> offset == 0
    ensures var data := Chunk(content, WriteLength(|content|, PACKAGE_SIZE), offset);
            var r := StoreChunk(target, |content|, data, offset);
            var end := Min(offset + PACKAGE_SIZE, |content|);
            |r| == |content| && r[..end] == content[..end] && offset + |data| == end
  {
    var data := Chunk(content, WriteLength(|content|, PACKAGE_SIZE), offset);
    var end := Min(offset + PACKAGE_SIZE, |content|);
    assert |data| == end - offset;
    assert WriteLength(|content|, |data|) == |data| && data[..|data|] == data;
    if |data| > 0 {
      assert StoreChunk(target, |content|, data, offset) == target[..offset] + data + target[end..];
      assert content[..end] == content[..offset] + data;
    }
  }

  lemma PackagesCount(size: nat, count: nat, last: nat)
    requires count == last + 1 && last * PACKAGE_SIZE <= size <= (last + 1) * PACKAGE_SIZE
    requires last > 0 ==> last * PACKAGE_SIZE < size
    ensures count == Packages(size)
  {
  }

  /**
   * Reading at 0, 4096, ... while there is more, and storing each package with its own size
   * and offset into a file of the right length, copies the file, in the least number of reads.
   */
  method CopyFile(source: File, target: File) returns (count: nat)
    requires source != target && !source.deleted && !target.deleted
    requires source.size == |source.content| == target.size == |target.content|
    modifies target
    ensures target.content == source.content
    ensures count == if source.size == 0 then 1 else (source.size + 4095) / 4096
  {
    var more, offset := true, 0;
    count := 0;
    while more
      invariant |target.content| == source.size && offset == count * PACKAGE_SIZE
      invariant if more then offset <= source.size && target.content[..offset] == source.content[..offset]
                else target.content == source.content && count == Packages(source.size)
      invariant more ==> (count > 0 ==> offset < source.size)
      decreases if more then 1 else 0, source.size + PACKAGE_SIZE - offset
    {
      var data;
      NextPackage(source.content, target.content, offset);
      data, more := source.ReadFileData(PACKAGE_SIZE, offset, more);
      target.StoreFileData(data, offset);
      count := count + 1;
      if !more { PackagesCount(source.size, count, count - 1); }
      offset := offset + PACKAGE_SIZE;
    }
  }

  // ---------- the loop of the dispatcher ----------

  /**
   * A packet as the dispatcher builds it: whether the message still starts with its type and
   * status, the size it claims, and the data that was read for it.
   */
  datatype Wire = Wire(header: bool, offset: nat, claimed: nat, more: bool, data: seq<byte>)

  /** A receiver can make sense of the packet: it has a header and as much data as it says. */
  predicate Sound(p: Wire) { p.header && p.claimed == |p.data| }

  /**
   * The loop as it stands: the size is added up over the packets, and from the second packet
   * on the message starts without header.
   */
  method PacketLoop(file: File) returns (packets: seq<Wire>)
    requires !file.deleted && file.size == |file.content|
    ensures |packets| == if file.size == 0 then 1 else (file.size + 4095) / 4096
    ensures forall k :: 0 <= k < |packets| ==>
              && packets[k].offset == k * 4096
              && packets[k].data == file.content[k * 4096..Min((k + 1) * 4096, file.size)]
              && packets[k].more == (k + 1 < |packets|)
              && packets[k].header == (k == 0)
              && packets[k].claimed == Min((k + 1) * 4096, file.size)
  {
    var more, dataSize, offset, header := true, 0, 0, true;
    packets := [];
    while more
      invariant offset == |packets| * PACKAGE_SIZE && header == (packets == [])
      invariant dataSize == Min(offset, file.size)
      invariant if more then |packets| > 0 ==> offset < file.size else |packets| == Packages(file.size)
      invariant forall k :: 0 <= k < |packets| ==>
                  && packets[k].offset == k * PACKAGE_SIZE
                  && packets[k].data == Chunk(file.content, PACKAGE_SIZE, k * PACKAGE_SIZE)
                  && packets[k].more == (more || k + 1 < |packets|)
                  && packets[k].header == (k == 0)
                  && packets[k].claimed == Min((k + 1) * PACKAGE_SIZE, file.size)
      decreases if more then 1 else 0, file.size + PACKAGE_SIZE - offset
    {
      var data;
      ghost var before := packets;
      data, more := file.ReadFileData(PACKAGE_SIZE, offset, more);
      SmallChunk(file.content, offset);
      dataSize := dataSize + |data|;
      packets := packets + [Wire(header, offset, dataSize, more, data)];
      if !more { PackagesCount(file.size, |packets|, |packets| - 1); }
      offset := offset + PACKAGE_SIZE;
      header := false;
    }
  }

  lemma SmallChunk(content: seq<byte>, offset: nat)
    requires |content| <= PACKAGE_SIZE ==> offset == 0
    ensures Chunk(content, WriteLength(|content|, PACKAGE_SIZE), offset) == Chunk(content, PACKAGE_SIZE, offset)
  {
  }

  /** Its packets are all sound if and only if the file fits into one. */
  lemma LoopExact(content: seq<byte>, packets: seq<Wire>)
    requires |packets| == if |content| == 0 then 1 else (|content| + 4095) / 4096
    requires forall k :: 0 <= k < |packets| ==>
               && k * 4096 <= |content|
               && packets[k].data == content[k * 4096..Min((k + 1) * 4096, |content|)]
               && packets[k].header == (k == 0)
               && packets[k].claimed == Min((k + 1) * 4096, |content|)
    ensures (forall k :: 0 <= k < |packets| ==> Sound(packets[k])) <==> |content| <= 4096
  {
    if |content| > 4096 {
      assert !packets[1].header;
      assert !Sound(packets[1]);
    } else {
      assert |packets| == 1;
      var p := packets[0];
      assert p.data == content[0 * 4096..Min((0 + 1) * 4096, |content|)];
      assert Sound(p);
    }
  }

  // ---------- what one packet leaves behind ----------

  /** A whole file in one packet replaces the content exactly if the file was not longer before. */
  lemma WholeFile(before: seq<byte>, data: seq<byte>)
    requires |data| <= 4096
    ensures StoreChunk(before, |data|, data, 0) == data <==> |before| <= |data|
    ensures StoreChunk(before, |data|, data, 0) == data + (if |before| <= |data| then [] else before[|data|..])
  {
    assert data[..|data|] == data;
  }
}
