/** The response assembler: chunks are collected as the response stream
    delivers them, and on the stream's end they are copied, in order, into
    one buffer of exactly the collected length. */
module Assembler {
  import opened Http

  /** The chunks one after another. */
  function Flatten(chunks: seq<seq<byte>>): seq<byte>
  {
    if chunks == [] then [] else Flatten(chunks[..|chunks| - 1]) + chunks[|chunks| - 1]
  }

  /** The sum of the chunk lengths. */
  function TotalLength(chunks: seq<seq<byte>>): nat
  {
    if chunks == [] then 0 else TotalLength(chunks[..|chunks| - 1]) + |chunks[|chunks| - 1]|
  }

  /** The body the stream yields: nothing when no chunk arrived, the
      concatenation of the chunks otherwise (possibly empty, when every
      chunk was empty). */
  function AssembledBody(chunks: seq<seq<byte>>): Option<seq<byte>>
  {
    if |chunks| == 0 then None else Some(Flatten(chunks))
  }

  lemma {:induction false} FlattenLength(chunks: seq<seq<byte>>)
    ensures |Flatten(chunks)| == TotalLength(chunks)
  {
    if chunks != [] {
      FlattenLength(chunks[..|chunks| - 1]);
    }
  }

  lemma {:induction false} FlattenAppend(a: seq<seq<byte>>, b: seq<seq<byte>>)
    ensures Flatten(a + b) == Flatten(a) + Flatten(b)
    decreases |b|
  {
    if b == [] {
      assert a + b == a;
    } else {
      assert (a + b)[..|a + b| - 1] == a + b[..|b| - 1];
      FlattenAppend(a, b[..|b| - 1]);
    }
  }

  lemma {:induction false} TotalLengthPrefix(chunks: seq<seq<byte>>, k: nat)
    requires k <= |chunks|
    ensures TotalLength(chunks[..k]) <= TotalLength(chunks)
    decreases |chunks|
  {
    if k < |chunks| {
      assert chunks[..|chunks| - 1][..k] == chunks[..k];
      TotalLengthPrefix(chunks[..|chunks| - 1], k);
    } else {
      assert chunks[..k] == chunks;
    }
  }

  /** Chunk `k` sits in the body right after the chunks before it: no
      chunk is reordered, dropped, truncated or duplicated. */
  lemma ChunkInPlace(chunks: seq<seq<byte>>, k: nat)
    requires k < |chunks|
    ensures TotalLength(chunks[..k]) + |chunks[k]| <= |Flatten(chunks)|
    ensures Flatten(chunks)[TotalLength(chunks[..k])..TotalLength(chunks[..k]) + |chunks[k]|] == chunks[k]
  {
    assert chunks == chunks[..k] + [chunks[k]] + chunks[k + 1..];
    FlattenAppend(chunks[..k] + [chunks[k]], chunks[k + 1..]);
    FlattenAppend(chunks[..k], [chunks[k]]);
    assert Flatten([chunks[k]]) == chunks[k] by {
      assert [chunks[k]][..0] == [];
    }
    FlattenLength(chunks[..k]);
  }

  /** The `data`/`end` listeners of `_handleResponse` and the buffer
      they share. */
  class BodyAssembler {
    var buffer: seq<seq<byte>>
    var bodyLen: nat

    ghost predicate Valid()
      reads this
    {
      bodyLen == TotalLength(buffer)
    }

    constructor ()
      ensures Valid() && buffer == []
    {
      buffer, bodyLen := [], 0;
    }

    /** A `data` event: the chunk is pushed and its length counted. */
    method OnData(chunk: seq<byte>)
      requires Valid()
      modifies this
      ensures Valid() && buffer == old(buffer) + [chunk]
    {
      assert (buffer + [chunk])[..|buffer|] == buffer;
      buffer := buffer + [chunk];
      bodyLen := bodyLen + |chunk|;
    }

    /** The `end` event: every chunk is copied into a buffer of `bodyLen`
        bytes at the running offset; the bytes are the body the listener
        receives (it decodes them as UTF-8). No chunk: no body. */
    method OnEnd() returns (body: Option<seq<byte>>)
      requires Valid()
      ensures body == AssembledBody(buffer)
      ensures body.Some? ==> |body.value| == bodyLen
    {
      if |buffer| == 0 {
        return None;
      }
      var out := new byte[bodyLen];
      var i, k := 0, 0;
      while k < |buffer|
        invariant 0 <= k <= |buffer|
        invariant i == TotalLength(buffer[..k]) <= out.Length
        invariant out[..i] == Flatten(buffer[..k])
      {
        var chunk := buffer[k];
        assert buffer[..k + 1][..k] == buffer[..k];
        TotalLengthPrefix(buffer, k + 1);
        CopyChunk(out, i, chunk);
        assert out[..i + |chunk|] == out[..i] + out[i..i + |chunk|];
        i := i + |chunk|;
        k := k + 1;
      }
      assert buffer[..k] == buffer;
      assert out[..] == out[..i];
      body := Some(out[..]);
    }

    /** The copy of one chunk into the output buffer at offset `at`. */
    static method CopyChunk(out: array<byte>, at: nat, chunk: seq<byte>)
      requires at + |chunk| <= out.Length
      modifies out
      ensures out[..at] == old(out[..at])
      ensures out[at..at + |chunk|] == chunk
      ensures out[at + |chunk|..] == old(out[at + |chunk|..])
    {
      var j := 0;
      while j < |chunk|
        invariant 0 <= j <= |chunk|
        invariant out[..at] == old(out[..at])
        invariant out[at..at + j] == chunk[..j]
        invariant out[at + j..] == old(out[at + j..])
      {
        out[at + j] := chunk[j];
        j := j + 1;
      }
    }
  }
}
