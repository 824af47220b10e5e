/** How a file is cut into DATA packets, with the unsigned 32-bit arithmetic of each side. */
module Segments {
  import opened Words
  import opened Frame

  /** The receiver's and the message header's packet count, computed in `size_t`. */
  function Packets(size: nat): nat {
    (size + PAYLOAD_SIZE - 1) / PAYLOAD_SIZE
  }

  /** The sender's packet count, computed in `uint32_t`. */
  function SenderPackets(size: u32): u32 {
    Low32(size + PAYLOAD_SIZE - 1) / PAYLOAD_SIZE
  }

  function Offset(psn: u32): u32 {
    Low32(psn * PAYLOAD_SIZE)
  }

  /** `payload_len` in the send loop; the subtraction wraps in `uint32_t`. */
  function Length(size: u32, psn: u32): u32 {
    if psn + 1 == SenderPackets(size) then (size - Offset(psn)) % 0x1_0000_0000 else PAYLOAD_SIZE
  }

  /** How many bytes the first `k` packets carry. */
  function Covered(size: nat, k: nat): nat {
    if k * PAYLOAD_SIZE <= size then k * PAYLOAD_SIZE else size
  }

  lemma PacketsInRange(size: u32)
    ensures Packets(size) < 0x1_0000_0000 - 1
    ensures size != 0 ==> Packets(size) >= 1
    ensures SenderPackets(size) <= Packets(size)
  {
  }

  /** The two counts agree exactly when rounding up does not wrap. */
  lemma CountsAgree(size: u32)
    ensures SenderPackets(size) == Packets(size) <==> size + PAYLOAD_SIZE - 1 < 0x1_0000_0000
    ensures SenderPackets(size) != Packets(size) ==> SenderPackets(size) == 0
  {
  }

  /** No wrap-around, and no read outside the file, for any packet the loop can be at. */
  lemma ChunkInBounds(size: u32, psn: u32)
    requires psn < SenderPackets(size)
    ensures Offset(psn) == psn * PAYLOAD_SIZE
    ensures 1 <= Length(size, psn) <= PAYLOAD_SIZE
    ensures Offset(psn) + Length(size, psn) == Covered(size, psn + 1) <= size
    ensures Covered(size, psn) == Offset(psn)
    ensures psn + 1 < SenderPackets(size) ==> Length(size, psn) == PAYLOAD_SIZE
    ensures psn + 1 == SenderPackets(size) ==> Covered(size, psn + 1) == size
  {
    CountsAgree(size);
    var n := size + PAYLOAD_SIZE - 1;
    assert n == PAYLOAD_SIZE * SenderPackets(size) + n % PAYLOAD_SIZE;
    assert PAYLOAD_SIZE * (psn + 1) <= PAYLOAD_SIZE * SenderPackets(size);
  }

  function Chunk(file: seq<Byte>, psn: u32): seq<Byte>
    requires psn < SenderPackets(Low32(|file|))
  {
    ChunkInBounds(Low32(|file|), psn);
    file[Offset(psn)..Offset(psn) + Length(Low32(|file|), psn)]
  }

  /** The first `k` chunks, joined. */
  function JoinedChunks(file: seq<Byte>, k: nat): seq<Byte>
    requires k <= SenderPackets(Low32(|file|))
  {
    if k == 0 then [] else JoinedChunks(file, k - 1) + Chunk(file, k - 1)
  }

  lemma NextChunk(file: seq<Byte>, psn: u32)
    requires psn < SenderPackets(Low32(|file|))
    ensures Covered(Low32(|file|), psn) <= Covered(Low32(|file|), psn + 1) <= |file|
    ensures file[..Covered(Low32(|file|), psn)] + Chunk(file, psn) == file[..Covered(Low32(|file|), psn + 1)]
  {
    hide SenderPackets, Offset, Length, Covered;
    ChunkInBounds(Low32(|file|), psn);
  }

  /** Segmentation loses nothing: the chunks joined are the file (its first 2^32 - 1 bytes at most),
      each but the last is full, and the last is not empty. */
  lemma {:induction false} ChunksJoin(file: seq<Byte>, k: nat)
    requires k <= SenderPackets(Low32(|file|))
    ensures Covered(Low32(|file|), k) <= |file|
    ensures JoinedChunks(file, k) == file[..Covered(Low32(|file|), k)]
  {
    hide SenderPackets, Chunk;
    if k > 0 {
      ChunksJoin(file, k - 1);
      NextChunk(file, k - 1);
    }
  }

  lemma Lossless(file: seq<Byte>)
    requires |file| + PAYLOAD_SIZE - 1 < 0x1_0000_0000
    ensures JoinedChunks(file, SenderPackets(|file|)) == file
    ensures forall p: u32 :: p < SenderPackets(|file|) ==>
              1 <= |Chunk(file, p)| <= PAYLOAD_SIZE
                && (p + 1 < SenderPackets(|file|) ==> |Chunk(file, p)| == PAYLOAD_SIZE)
  {
    hide SenderPackets, Covered, Length, Offset;
    var k := SenderPackets(|file|);
    ChunksJoin(file, k);
    WholeCovered(|file|);
    assert file[..|file|] == file;
    forall p: u32 | p < k
      ensures 1 <= |Chunk(file, p)| <= PAYLOAD_SIZE && (p + 1 < k ==> |Chunk(file, p)| == PAYLOAD_SIZE)
    {
      ChunkInBounds(|file|, p);
    }
  }

  lemma WholeCovered(size: u32)
    requires size + PAYLOAD_SIZE - 1 < 0x1_0000_0000
    ensures Covered(size, SenderPackets(size)) == size
  {
    CountsAgree(size);
    if SenderPackets(size) > 0 {
      ChunkInBounds(size, SenderPackets(size) - 1);
    }
  }
}
