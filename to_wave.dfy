/** The aggregation behind toWave: each received chunk is appended to the
    buffer list and its length added to dataLength; on completion the header
    for that length is emitted followed by the chunks in arrival order. */
module ToWave {
  import opened Bytes
  import opened Chunks
  import opened Recorder

  /** The state of one toWave subscription. */
  class WaveCollector {
    const options: WriterOptions
    var dataLength: nat
    var buffers: seq<seq<Byte>>

    /** dataLength is always the total length of the received chunks. */
    ghost predicate Valid()
      reads this
    {
      dataLength == TotalLength(buffers)
    }

    constructor (options: WriterOptions)
      ensures Valid()
      ensures this.options == options && dataLength == 0 && buffers == []
    {
      this.options := options;
      dataLength := 0;
      buffers := [];
    }

    /** The `next` handler: appends the chunk and adds its length. */
    method Next(value: seq<Byte>)
      requires Valid()
      modifies this
      ensures Valid()
      ensures buffers == old(buffers) + [value]
      ensures dataLength == old(dataLength) + |value|
    {
      dataLength := dataLength + |value|;
      buffers := buffers + [value];
      assert buffers[..|buffers| - 1] == old(buffers);
    }

    /** The `complete` handler: the header for the received length followed
        by the received chunks, in arrival order. */
    method Complete() returns (result: seq<seq<Byte>>)
      requires Valid()
      ensures result == [HeaderBytes(dataLength, Resolve(options))] + buffers
      ensures |Flatten(result)| == HeaderLength + dataLength
      ensures Flatten(result) == HeaderBytes(dataLength, Resolve(options)) + Flatten(buffers)
    {
      var header := WavHeader(dataLength, options);
      result := [header[..]] + buffers;
      FlattenAppend([header[..]], buffers);
      assert Flatten([header[..]]) == header[..] by {
        assert [header[..]][..0] == [];
      }
      FlattenLength(buffers);
      HeaderLayout(dataLength, Resolve(options));
    }
  }

  /** toWave over a subject that emits `chunks` and then completes: the
      emitted list is the header for their total length followed by the
      chunks unchanged and in order, and the file it makes is 44 bytes
      longer than the audio. */
  method CollectWave(chunks: seq<seq<Byte>>, options: WriterOptions) returns (result: seq<seq<Byte>>)
    ensures result == [HeaderBytes(TotalLength(chunks), Resolve(options))] + chunks
    ensures Flatten(result) == HeaderBytes(TotalLength(chunks), Resolve(options)) + Flatten(chunks)
    ensures |Flatten(result)| == HeaderLength + TotalLength(chunks)
  {
    var collector := new WaveCollector(options);
    var i := 0;
    while i < |chunks|
      invariant 0 <= i <= |chunks|
      invariant collector.Valid() && collector.options == options
      invariant collector.buffers == chunks[..i]
    {
      collector.Next(chunks[i]);
      i := i + 1;
      assert collector.buffers == chunks[..i];
    }
    assert chunks[..|chunks|] == chunks;
    assert collector.buffers == chunks && collector.dataLength == TotalLength(chunks);
    result := collector.Complete();
  }

  /** In the file made of a header followed by the chunks, the header is at
      the very beginning and chunk k starts right after the header and the
      chunks received before it. */
  lemma AudioPosition(header: seq<Byte>, chunks: seq<seq<Byte>>, k: nat)
    requires k < |chunks|
    ensures var file, start := Flatten([header] + chunks), |header| + TotalLength(chunks[..k]);
            && start + |chunks[k]| <= |file|
            && file[..|header|] == header
            && file[start..start + |chunks[k]|] == chunks[k]
  {
    FlattenAppend([header], chunks);
    assert Flatten([header]) == header by {
      assert [header][..0] == [];
    }
    ChunkPosition(chunks, k);
  }
}
