/** internal/speedtest/speedtest.go: the reader behind the upload test. */
module Speedtest {
  import opened Basics

  /** How many bytes a read of this size gives. */
  function Served(remaining: int, size: nat, chunk: nat): (n: nat)
    ensures n <= size && n <= chunk && (remaining > 0 ==> n <= remaining)
    ensures n == size || n == chunk || n == remaining || (remaining <= 0 && n == 0)
  {
    if remaining <= 0 then 0 else Min(Min(size, remaining), chunk)
  }

  /** The bytes served by reads of these sizes: prefixes of the chunk. */
  function Stream(size: int, chunk: seq<Byte>, sizes: seq<nat>): seq<Byte> {
    if sizes == [] then []
    else
      var before := Stream(size, chunk, sizes[..|sizes| - 1]);
      before + chunk[..Served(size - |before|, sizes[|sizes| - 1], |chunk|)]
  }

  /** Reads never give more than the size, and each read with a non-empty
      buffer makes progress, so enough of them give all of it. */
  lemma {:induction false} StreamIsComplete(size: nat, chunk: seq<Byte>, sizes: seq<nat>)
    requires chunk != [] && forall i :: 0 <= i < |sizes| ==> sizes[i] > 0
    ensures |Stream(size, chunk, sizes)| <= size
    ensures |Stream(size, chunk, sizes)| >= Min(|sizes|, size)
  {
    if sizes != [] {
      StreamIsComplete(size, chunk, sizes[..|sizes| - 1]);
    }
  }

  class CountingReader {
    var remaining: int
    var sent: int
    const chunk: seq<Byte>

    constructor (size: int, chunk: seq<Byte>)
      ensures remaining == size && sent == 0 && this.chunk == chunk
    {
      remaining, sent := size, 0;
      this.chunk := chunk;
    }

    /** Read fills the front of the buffer from the chunk and nothing else;
        what it counts as sent is what it takes from the remainder. */
    method Read(p: array<Byte>) returns (n: nat, eof: bool)
      modifies this, p
      ensures eof <==> old(remaining) <= 0
      ensures n == Served(old(remaining), p.Length, |chunk|)
      ensures p[..n] == chunk[..n] && p[n..] == old(p[n..])
      ensures sent == old(sent) + n && remaining == old(remaining) - n
    {
      if remaining <= 0 {
        return 0, true;
      }
      n := p.Length;
      if n > remaining {
        n := remaining;
      }
      if n > |chunk| {
        n := |chunk|;
      }
      for i := 0 to n
        invariant p[..i] == chunk[..i] && p[n..] == old(p[n..])
        invariant remaining == old(remaining) && sent == old(sent)
      {
        p[i] := chunk[i];
      }
      remaining := remaining - n;
      sent := sent + n;
      return n, false;
    }

    /** Reads with any buffer sizes: what they give is the stream, and the
        counts add up. */
    method Serve(sizes: seq<nat>) returns (body: seq<Byte>)
      modifies this
      ensures body == Stream(old(remaining), chunk, sizes)
      ensures sent == old(sent) + |body| && remaining == old(remaining) - |body|
    {
      body := [];
      for i := 0 to |sizes|
        invariant sent == old(sent) + |body| && remaining == old(remaining) - |body|
        invariant body == Stream(old(remaining), chunk, sizes[..i])
      {
        assert sizes[..i + 1][..i] == sizes[..i];
        var p := new Byte[sizes[i]];
        var n, _ := Read(p);
        body := body + p[..n];
      }
      assert sizes[..|sizes|] == sizes;
    }

    /** Reading into a buffer until EOF, as an upload does: the body is complete
        and the count exact. */
    method Drain(p: array<Byte>) returns (body: seq<Byte>)
      requires p.Length > 0 && chunk != []
      modifies this, p
      ensures |body| == if old(remaining) > 0 then old(remaining) else 0
      ensures sent == old(sent) + |body| && remaining <= 0
      ensures sent + remaining == old(sent) + old(remaining)
      ensures forall i :: 0 <= i < |body| ==> body[i] in chunk
    {
      body := [];
      var eof := false;
      while !eof
        invariant sent == old(sent) + |body| && sent + remaining == old(sent) + old(remaining)
        invariant old(remaining) > 0 ==> remaining >= 0
        invariant old(remaining) <= 0 ==> body == []
        invariant eof ==> remaining <= 0
        invariant forall i :: 0 <= i < |body| ==> body[i] in chunk
        decreases !eof, remaining
      {
        var n;
        n, eof := Read(p);
        body := body + p[..n];
      }
    }
  }
}
