/** How a body is cut into frames that fit the data channel. */
module Chunking {
  import opened Primitives
  import opened Protocol
  import F = Frames

  function Chunks(data: seq<byte>): seq<seq<byte>> {
    if data == [] then []
    else
      var n := Min(MAX_BODY_CHUNK, |data|);
      [data[..n]] + Chunks(data[n..])
  }

  function Flatten(chunks: seq<seq<byte>>): seq<byte> {
    if chunks == [] then [] else chunks[0] + Flatten(chunks[1..])
  }

  /** Every chunk but the last is full, none is empty, and together they are the input. */
  lemma {:induction false} ChunksCover(data: seq<byte>)
    ensures Flatten(Chunks(data)) == data
    ensures forall i :: 0 <= i < |Chunks(data)| ==> 0 < |Chunks(data)[i]| <= MAX_BODY_CHUNK
    ensures forall i :: 0 <= i < |Chunks(data)| - 1 ==> |Chunks(data)[i]| == MAX_BODY_CHUNK
    ensures |Chunks(data)| == (|data| + MAX_BODY_CHUNK - 1) / MAX_BODY_CHUNK
    decreases |data|
  {
    if |data| >= MAX_BODY_CHUNK {
      var first, rest := data[..MAX_BODY_CHUNK], data[MAX_BODY_CHUNK..];
      ChunksCover(rest);
      ChunksFirst(data);
      assert data == first + rest;
    } else if data != [] {
      ChunksShort(data);
      assert [data][1..] == [];
      assert data + Flatten([]) == data;
    }
  }

  lemma ChunksFirst(data: seq<byte>)
    requires |data| >= MAX_BODY_CHUNK
    ensures Chunks(data) == [data[..MAX_BODY_CHUNK]] + Chunks(data[MAX_BODY_CHUNK..])
  {
  }

  lemma ChunksShort(data: seq<byte>)
    requires 0 < |data| <= MAX_BODY_CHUNK
    ensures Chunks(data) == [data]
  {
    assert data[..|data|] == data && data[|data|..] == [];
  }

  /** One turn of the send loop adds exactly the next chunk. */
  lemma {:induction false} ChunksStep(data: seq<byte>, offset: nat, end: nat)
    requires offset < |data| && offset % MAX_BODY_CHUNK == 0
    requires end == Min(offset + MAX_BODY_CHUNK, |data|)
    ensures Chunks(data[..end]) == Chunks(data[..offset]) + [data[offset..end]]
    ensures end % MAX_BODY_CHUNK == 0 || end == |data|
    decreases offset, 1
  {
    if offset == 0 {
      ChunksShort(data[..end]);
      assert data[..0] == [] && data[0..end] == data[..end];
    } else {
      ChunksStepLater(data, offset, end);
    }
  }

  lemma ChunksStepLater(data: seq<byte>, offset: nat, end: nat)
    requires 0 < offset < |data| && offset % MAX_BODY_CHUNK == 0
    requires end == Min(offset + MAX_BODY_CHUNK, |data|)
    ensures Chunks(data[..end]) == Chunks(data[..offset]) + [data[offset..end]]
    decreases offset, 0
  {
    var n, rest := MAX_BODY_CHUNK, data[MAX_BODY_CHUNK..];
    ChunksStep(rest, offset - n, end - n);
    ChunksFirst(data[..end]);
    ChunksFirst(data[..offset]);
    SlicesAfter(data, n, offset, end);
  }

  lemma SlicesAfter(data: seq<byte>, n: nat, offset: nat, end: nat)
    requires n <= offset <= end <= |data|
    ensures data[..end][..n] == data[..offset][..n]
    ensures data[..end][n..] == data[n..][..end - n] && data[..offset][n..] == data[n..][..offset - n]
    ensures data[n..][offset - n..end - n] == data[offset..end]
  {
  }

  function ResBodies(id: u32, chunks: seq<seq<byte>>): (frames: seq<F.Frame>)
    ensures |frames| == |chunks|
    ensures forall i :: 0 <= i < |frames| ==> frames[i] == F.ResBody(id, chunks[i])
  {
    seq(|chunks|, i requires 0 <= i < |chunks| => F.ResBody(id, chunks[i]))
  }

  function ReqBodies(id: u32, chunks: seq<seq<byte>>): (frames: seq<F.Frame>)
    ensures |frames| == |chunks|
    ensures forall i :: 0 <= i < |frames| ==> frames[i] == F.ReqBody(id, chunks[i])
  {
    seq(|chunks|, i requires 0 <= i < |chunks| => F.ReqBody(id, chunks[i]))
  }

  lemma {:induction false} ResBodiesBytes(id: u32, chunks: seq<seq<byte>>)
    ensures F.BodyBytes(ResBodies(id, chunks)) == Flatten(chunks)
  {
    if chunks != [] {
      var first, rest := F.ResBody(id, chunks[0]), ResBodies(id, chunks[1..]);
      assert ResBodies(id, chunks) == [first] + rest;
      F.BodyBytesConcat([first], rest);
      F.BodyBytesOne(first);
      ResBodiesBytes(id, chunks[1..]);
    }
  }

  lemma {:induction false} ReqBodiesBytes(id: u32, chunks: seq<seq<byte>>)
    ensures F.BodyBytes(ReqBodies(id, chunks)) == Flatten(chunks)
  {
    if chunks != [] {
      var first, rest := F.ReqBody(id, chunks[0]), ReqBodies(id, chunks[1..]);
      assert ReqBodies(id, chunks) == [first] + rest;
      F.BodyBytesConcat([first], rest);
      F.BodyBytesOne(first);
      ReqBodiesBytes(id, chunks[1..]);
    }
  }

  /** A body frame is neither empty nor too long. */
  predicate Small(f: F.Frame) {
    f.ReqBody? || f.ResBody? ==> 0 < |f.data| <= MAX_BODY_CHUNK
  }

  lemma SmallFits(json: F.Json, f: F.Frame)
    requires f.ReqBody? || f.ResBody?
    ensures Small(f) ==> 5 < |Encode(F.ToWire(json, f))| <= MAX_FRAME_SIZE
  {
  }

  lemma ChunksAreSmall(id: u32, data: seq<byte>, i: nat)
    requires i < |Chunks(data)|
    ensures Small(ResBodies(id, Chunks(data))[i]) && Small(ReqBodies(id, Chunks(data))[i])
  {
    ChunksCover(data);
  }

  /** The body frames of any buffer, in either direction, carry that buffer. */
  lemma BodyFramesCarry(id: u32, data: seq<byte>)
    ensures F.BodyBytes(ResBodies(id, Chunks(data))) == F.BodyBytes(ReqBodies(id, Chunks(data))) == data
  {
    ChunksCover(data);
    ResBodiesBytes(id, Chunks(data));
    ReqBodiesBytes(id, Chunks(data));
  }
}
