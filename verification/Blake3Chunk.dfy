/** The state of one chunk while its bytes arrive: whole blocks are compressed as soon as a later
    byte shows up, so the last block always waits in the buffer. */
module Blake3Chunk {
  import opened Bits
  import opened Blake3Tree

  class ChunkState {
    const fn: Compressor
    var cv: Words
    var counter: nat
    const buf: array<Byte>
    var bufLen: nat
    var blocksCompressed: nat
    var flags: nat

    ghost const mode: Mode
    ghost var bytes: seq<Byte>  // everything this chunk has absorbed

    ghost predicate Valid()
      reads this, buf
    {
      && |bytes| <= CHUNK_LEN
      && Absorbed(bytes, |bytes|)
      && blocksCompressed == LastBlock(|bytes|)
    }

    /** The first n bytes of data are in: some whole blocks compressed, the rest buffered. */
    ghost predicate Absorbed(data: seq<Byte>, n: nat)
      reads this`cv, this`counter, this`bufLen, this`blocksCompressed, this`flags, buf
    {
      && buf.Length == BLOCK_LEN && fn == mode.fn && flags == mode.flags
      && 64 * blocksCompressed <= n <= |data|
      && cv == ChunkChain(mode, counter, data, blocksCompressed)
      && bufLen == n - 64 * blocksCompressed <= BLOCK_LEN
      && buf[..] == Pad(data[64 * blocksCompressed..n])
    }

    constructor (m: Mode, counter: nat)
      ensures Valid() && fresh(buf)
      ensures mode == m && bytes == [] && this.counter == counter
    {
      fn, cv, flags := m.fn, m.key, m.flags;
      this.counter := counter;
      buf := new Byte[BLOCK_LEN](_ => 0);
      bufLen, blocksCompressed := 0, 0;
      mode, bytes := m, [];
      new;
      assert buf[..] == Pad([]);
    }

    method Reset(key: Words, counter: nat)
      requires Valid() && key == mode.key
      modifies this, buf
      ensures Valid()
      ensures bytes == [] && this.counter == counter
    {
      cv, this.counter, blocksCompressed, bufLen := key, counter, 0, 0;
      ClearBuf();
      bytes := [];
    }

    method ClearBuf()
      requires buf.Length == BLOCK_LEN
      modifies buf
      ensures buf[..] == Pad([])
    {
      forall i | 0 <= i < buf.Length { buf[i] := 0; }
    }

    function Len(): (n: nat)
      requires Valid()
      reads this, buf
      ensures n == |bytes|
    {
      BLOCK_LEN * blocksCompressed + bufLen
    }

    function ToOutput(): (o: Output)
      requires Valid()
      reads this, buf
      ensures o == ChunkOutput(mode, counter, bytes)
    {
      Output(cv, buf[..], bufLen, counter, BitOr(BitOr(flags, StartFlag(blocksCompressed)), CHUNK_END))
    }

    /** Copies what fits of input behind the bytes already buffered. */
    method FillBuf(ghost data: seq<Byte>, ghost n: nat, input: seq<Byte>) returns (take: nat)
      requires Absorbed(data, n) && input == data[n..]
      modifies this`bufLen, buf
      ensures take == (if BLOCK_LEN - old(bufLen) > |input| then |input| else BLOCK_LEN - old(bufLen))
      ensures Absorbed(data, n + take)
    {
      hide ChunkChain;
      take := BLOCK_LEN - bufLen;
      if take > |input| { take := |input|; }
      ghost var held := data[64 * blocksCompressed..n];
      CopyIn(held, input[..take]);
      bufLen := bufLen + take;
      assert data[64 * blocksCompressed..n + take] == held + input[..take];
    }

    method CopyIn(ghost held: seq<Byte>, more: seq<Byte>)
      requires buf.Length == BLOCK_LEN && bufLen == |held| && |held| + |more| <= BLOCK_LEN && buf[..] == Pad(held)
      modifies buf
      ensures buf[..] == Pad(held + more)
    {
      forall i | 0 <= i < |more| { buf[bufLen + i] := more[i]; }
    }

    /** Compresses the block that starts at byte n straight from the input. */
    method CompressBlock(ghost data: seq<Byte>, ghost n: nat, block: Block)
      requires Absorbed(data, n) && bufLen == 0 && n + BLOCK_LEN <= |data| && block == data[n..n + BLOCK_LEN]
      modifies this`cv, this`blocksCompressed
      ensures Absorbed(data, n + BLOCK_LEN)
    {
      cv := fn.inPlace(cv, block, BLOCK_LEN, counter, BitOr(flags, StartFlag(blocksCompressed)));
      blocksCompressed := blocksCompressed + 1;
    }

    /** Compresses a full buffer and empties it. */
    method FlushBuf(ghost data: seq<Byte>, ghost n: nat)
      requires Absorbed(data, n) && bufLen == BLOCK_LEN
      modifies this`cv, this`blocksCompressed, this`bufLen, buf
      ensures Absorbed(data, n) && bufLen == 0
    {
      assert buf[..] == data[64 * blocksCompressed..n];
      cv := fn.inPlace(cv, buf[..], BLOCK_LEN, counter, BitOr(flags, StartFlag(blocksCompressed)));
      blocksCompressed := blocksCompressed + 1;
      bufLen := 0;
      ClearBuf();
    }

    /** Compresses blocks straight from the input while more than one block is left. */
    method CompressBlocks(ghost data: seq<Byte>, ghost n: nat, input: seq<Byte>, from: nat) returns (pos: nat)
      requires n <= |data| && input == data[n..] && from <= |input| && Absorbed(data, n + from)
      requires from < |input| ==> bufLen == 0
      modifies this`cv, this`blocksCompressed
      ensures from <= pos <= |input| <= pos + BLOCK_LEN || pos == from == |input|
      ensures Absorbed(data, n + pos)
      ensures from < |input| ==> pos < |input|
      ensures bufLen == old(bufLen)
    {
      pos := from;
      while |input| - pos > BLOCK_LEN
        invariant from <= pos <= |input| && Absorbed(data, n + pos) && bufLen == old(bufLen)
        invariant from < |input| ==> pos < |input|
      {
        CompressBlock(data, n + pos, input[pos..pos + BLOCK_LEN]);
        pos := pos + BLOCK_LEN;
      }
    }

    /** Buffers what is left of the input, which completes the update. */
    method BufferRest(ghost data: seq<Byte>, ghost n: nat, input: seq<Byte>)
      requires Absorbed(data, n) && input == data[n..] && |data| <= CHUNK_LEN
      requires |input| <= BLOCK_LEN - bufLen
      requires bufLen > 0 || input != [] || data == []
      modifies this`bufLen, this`bytes, buf
      ensures Valid() && bytes == data
    {
      var take := FillBuf(data, n, input);
      assert n + take == |data|;
      bytes := data;
    }

    /** Completes the buffered block, and compresses it once it is known not to be the last. */
    method TopUp(ghost data: seq<Byte>, ghost n: nat, input: seq<Byte>) returns (pos: nat)
      requires n <= |data| && input == data[n..] && Absorbed(data, n)
      modifies this`cv, this`blocksCompressed, this`bufLen, buf
      ensures pos <= |input| && Absorbed(data, n + pos)
      ensures pos < |input| ==> bufLen == 0
      ensures pos == |input| ==> bufLen > 0 || (old(bufLen) == 0 && input == [])
    {
      pos := 0;
      if bufLen > 0 {
        pos := FillBuf(data, n, input);
        if pos < |input| { FlushBuf(data, n + pos); }
      }
    }

    /** Absorbing input makes the state that of the longer chunk, however the bytes were cut. */
    method Update(input: seq<Byte>)
      requires Valid() && |bytes| + |input| <= CHUNK_LEN
      modifies this, buf
      ensures Valid() && counter == old(counter)
      ensures bytes == old(bytes) + input
    {
      ghost var all, n := bytes + input, |bytes|;
      Extend(bytes, input);
      assert all[n..] == input;
      var pos := TopUp(all, n, input);
      pos := CompressBlocks(all, n, input, pos);
      assert all[n + pos..] == input[pos..];
      BufferRest(all, n + pos, input[pos..]);
    }

    lemma Extend(data: seq<Byte>, more: seq<Byte>)
      requires Absorbed(data, |data|)
      ensures Absorbed(data + more, |data|)
    {
      ChunkChainPrefix(mode, counter, data, more, blocksCompressed);
      assert (data + more)[64 * blocksCompressed..|data|] == data[64 * blocksCompressed..];
    }
  }
}
