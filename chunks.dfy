/** Lists of byte chunks and their concatenation: the recorded file is the
    concatenation of the header and the audio chunks, in arrival order. */
module Chunks {
  import opened Bytes

  /** The sum of the chunk lengths. */
  function TotalLength(chunks: seq<seq<Byte>>): nat {
    if chunks == [] then 0
    else TotalLength(chunks[..|chunks| - 1]) + |chunks[|chunks| - 1]|
  }

  /** No chunk is longer than the total, and the total is 0 exactly when
      every chunk is empty. */
  lemma {:induction false} TotalLengthBounds(chunks: seq<seq<Byte>>)
    ensures forall i :: 0 <= i < |chunks| ==> |chunks[i]| <= TotalLength(chunks)
    ensures TotalLength(chunks) == 0 <==> forall i :: 0 <= i < |chunks| ==> chunks[i] == []
  {
    if chunks != [] {
      var front := chunks[..|chunks| - 1];
      TotalLengthBounds(front);
      assert forall i :: 0 <= i < |front| ==> front[i] == chunks[i];
    }
  }

  /** The bytes of the chunks, one after the other: the content of a Blob or
      buffer made from them. */
  function Flatten(chunks: seq<seq<Byte>>): seq<Byte> {
    if chunks == [] then []
    else Flatten(chunks[..|chunks| - 1]) + chunks[|chunks| - 1]
  }

  /** The flattened chunks are exactly as long as the chunk lengths add up to. */
  lemma {:induction false} FlattenLength(chunks: seq<seq<Byte>>)
    ensures |Flatten(chunks)| == TotalLength(chunks)
  {
    if chunks != [] {
      FlattenLength(chunks[..|chunks| - 1]);
    }
  }

  /** Appending one chunk appends its bytes. */
  lemma FlattenSnoc(chunks: seq<seq<Byte>>, chunk: seq<Byte>)
    ensures Flatten(chunks + [chunk]) == Flatten(chunks) + chunk
    ensures TotalLength(chunks + [chunk]) == TotalLength(chunks) + |chunk|
  {
    assert (chunks + [chunk])[..|chunks|] == chunks;
  }

  /** Flattening two lists of chunks one after the other is flattening their
      concatenation: no chunk is reordered or dropped. */
  lemma {:induction false} FlattenAppend(a: seq<seq<Byte>>, b: seq<seq<Byte>>)
    ensures Flatten(a + b) == Flatten(a) + Flatten(b)
  {
    if b != [] {
      assert (a + b)[..|a + b| - 1] == a + b[..|b| - 1];
      FlattenAppend(a, b[..|b| - 1]);
    } else {
      assert a + b == a;
    }
  }

  /** The k-th chunk occupies the bytes from the total length of the chunks
      before it up to the total length including it. */
  lemma {:induction false} ChunkPosition(chunks: seq<seq<Byte>>, k: nat)
    requires k < |chunks|
    ensures TotalLength(chunks[..k]) + |chunks[k]| == TotalLength(chunks[..k + 1]) <= |Flatten(chunks)|
    ensures Flatten(chunks)[TotalLength(chunks[..k])..TotalLength(chunks[..k + 1])] == chunks[k]
  {
    var before, rest := chunks[..k + 1], chunks[k + 1..];
    assert chunks == before + rest;
    assert before[..k] == chunks[..k];
    FlattenAppend(before, rest);
    FlattenLength(chunks[..k]);
    FlattenLength(before);
  }
}
