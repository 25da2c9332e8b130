/**
 * Writing and reading a record through streams, as the stream operators of a file do.
 */
module Streams {
  import opened FileStore
  import opened Hashes
  import opened Boxoffice
  import opened Codec

  lemma SkipIs(s: seq<byte>, n: nat)
    requires n <= |s| && (n < |s| ==> !Space(s[n])) && forall k :: 0 <= k < n ==> Space(s[k])
    ensures Skip(s) == n
  {
    hide Skip;
  }

  lemma TokenIs(s: seq<byte>, n: nat)
    requires n <= |s| && (n < |s| ==> Space(s[n])) && forall k :: 0 <= k < n ==> !Space(s[k])
    ensures TokenLength(s) == n
  {
    hide TokenLength;
  }

  lemma Cut(s: seq<byte>, i: nat, j: nat)
    requires i <= j <= |s|
    ensures s[i..j] == s[i..][..j - i] && s[j..] == s[i..][j - i..]
  {
  }

  class OutStream {
    var written: seq<byte>

    constructor ()
      ensures written == []
    {
      written := [];
    }

    method Write(s: seq<byte>)
      modifies this
      ensures written == old(written) + s
    {
      written := written + s;
    }

    /** The hash of the box, then the record. */
    method WriteFile(box: Digest, f: Metadata)
      requires Valid(f)
      modifies this
      ensures written == old(written) + box + Encode(f)
    {
      hide BigEndian;
      Write(box);
      Write(f.path);
      if f.deleted {
        Write(IN_DELETE);
        return;
      }
      Write(BigEndian(f.mode, 2));
      Write([f.kind as byte]);
      Write(BigEndian(f.mtime, 4));
      if f.kind == REGULAR_FILE {
        Write(BigEndian(f.size, 8));
      } else {
        Write(BigEndian(0, 8));
      }
    }
  }

  class InStream {
    const data: seq<byte>
    var pos: nat

    ghost predicate Valid()
      reads this
    {
      pos <= |data|
    }

    ghost function Rest(): seq<byte>
      requires Valid()
      reads this
    {
      data[pos..]
    }

    constructor (data: seq<byte>)
      ensures Valid() && Rest() == data
    {
      this.data, pos := data, 0;
    }

    /** The next n bytes, if there are as many. */
    method Read(n: nat) returns (s: seq<byte>, ok: bool)
      requires Valid()
      modifies this
      ensures Valid() && ok == (n <= |old(Rest())|)
      ensures ok ==> s == old(Rest())[..n] && Rest() == old(Rest())[n..]
    {
      ok := pos + n <= |data|;
      s := [];
      if ok {
        s := data[pos..pos + n];
        pos := pos + n;
      }
    }

    method SkipSpace()
      requires Valid()
      modifies this
      ensures Valid() && Rest() == old(Rest())[Skip(old(Rest()))..]
    {
      hide Skip;
      ghost var rest, start := Rest(), pos;
      while pos < |data| && Space(data[pos])
        invariant start <= pos <= |data|
        invariant forall k :: start <= k < pos ==> Space(data[k])
      {
        pos := pos + 1;
      }
      SkipIs(rest, pos - start);
    }

    /** Takes everything up to the next white space or the end. */
    method Take() returns (token: seq<byte>)
      requires Valid()
      modifies this
      ensures var u := old(Rest());
              && Valid() && pos == old(pos) + |token|
              && token == u[..TokenLength(u)] && Rest() == u[|token|..]
    {
      hide TokenLength;
      var start := pos;
      while pos < |data| && !Space(data[pos])
        invariant start <= pos <= |data|
        invariant forall k :: start <= k < pos ==> !Space(data[k])
      {
        pos := pos + 1;
      }
      token := data[start..pos];
      Cut(data, start, pos);
      TokenIs(data[start..], pos - start);
    }

    /** The next token, after any white space. */
    method Token() returns (token: seq<byte>)
      requires Valid()
      modifies this
      ensures Valid() && |token| <= pos
      ensures var u := old(Rest())[Skip(old(Rest()))..];
              && token == u[..TokenLength(u)] && Rest() == u[|token|..]
              && data[pos - |token|..] == u
    {
      hide Skip, TokenLength;
      SkipSpace();
      token := Take();
    }

    /** Reads the record of a file object whose size so far is `size`. */
    method ReadFile(size: int) returns (f: Option<Metadata>)
      requires Valid()
      modifies this
      ensures Valid()
      ensures var d := Decode(old(Rest()), size);
              if d.Failed? then f == None else f == Some(d.file) && Rest() == d.rest
    {
      var path, ok := Read(MAXIMUM_PATH_LENGTH);
      if !ok { return None; }
      var token := Token();
      if token == [] { return None; }
      if token == IN_DELETE { return Some(Metadata(path, true, 0, 0, 0, size)); }
      pos := pos - |token|;
      f := ReadFields(path, size);
    }

    method ReadFields(path: seq<byte>, size: int) returns (f: Option<Metadata>)
      requires Valid()
      modifies this
      ensures Valid()
      ensures var d := ParseFields(path, old(Rest()), size);
              if d.Failed? then f == None else f == Some(d.file) && Rest() == d.rest
    {
      ghost var s := Rest();
      if |data| - pos < 7 { return None; }
      var mode, ok := Read(2);
      var kind;
      kind, ok := Read(1);
      var mtime;
      mtime, ok := Read(4);
      assert mode == s[..2] && kind == [s[2]] && mtime == s[3..7] && Rest() == s[7..];
      var r := Metadata(path, false, Number(mode), kind[0] as int, Number(mtime), size);
      if r.kind == REGULAR_FILE {
        var bytes;
        bytes, ok := Read(8);
        if !ok { return None; }
        assert bytes == s[7..15] && Rest() == s[15..];
        r := r.(size := Number(bytes));
      }
      f := Some(r);
    }
  }
}
