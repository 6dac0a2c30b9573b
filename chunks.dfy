/** The split of the remuxed output into transfer chunks of 4 MiB, and the concatenation
    the controller applies to the chunks it receives. */
module Chunks {

  /** The size of every chunk but the last, in bytes. */
  const CHUNK: nat := 4 * 1024 * 1024

  function Min(a: int, b: int): int {
    if a < b then a else b
  }

  /** `Math.ceil(total / CHUNK)`: the number of chunks a buffer of `total` bytes takes. */
  function ChunkCount(total: nat): (r: nat)
    ensures total <= r * CHUNK
    ensures r == 0 || (r - 1) * CHUNK < total
    ensures r == 0 <==> total == 0
  {
    (total + CHUNK - 1) / CHUNK
  }

  /** Where the chunk starting at offset `k * CHUNK` ends: `Math.min(total, offset + CHUNK)`. */
  function ChunkEnd(total: nat, k: nat): nat {
    Min(total, (k + 1) * CHUNK)
  }

  /** The chunk starting at offset `k * CHUNK` exists exactly when that offset lies inside
      the data, so the save loop sends exactly `ChunkCount(total)` chunks. */
  lemma {:induction false} ChunkOffsets(total: nat, k: nat)
    ensures k * CHUNK < total <==> k < ChunkCount(total)
  {
    var r := ChunkCount(total);
    if k < r {
      assert k * CHUNK <= (r - 1) * CHUNK;
    } else {
      assert r * CHUNK <= k * CHUNK;
    }
  }

  /** The `k`-th chunk of `data`: the bytes from offset `k * CHUNK` up to its end. */
  function Chunk<T>(data: seq<T>, k: nat): (c: seq<T>)
    requires k < ChunkCount(|data|)
    ensures 0 < |c| <= CHUNK
  {
    data[k * CHUNK..ChunkEnd(|data|, k)]
  }

  /** All chunks of `data`, in offset order. */
  function Chunks<T>(data: seq<T>): seq<seq<T>> {
    seq(ChunkCount(|data|), k requires 0 <= k < ChunkCount(|data|) => Chunk(data, k))
  }

  /** The concatenation of a sequence of chunks, as `new Blob(chunks)` lays them out. */
  function Flatten<T>(chunks: seq<seq<T>>): seq<T> {
    if |chunks| == 0 then [] else Flatten(chunks[..|chunks| - 1]) + chunks[|chunks| - 1]
  }

  lemma {:induction false} FlattenSnoc<T>(chunks: seq<seq<T>>, c: seq<T>)
    ensures Flatten(chunks + [c]) == Flatten(chunks) + c
  {
    assert (chunks + [c])[..|chunks|] == chunks;
  }

  /** Every chunk but the last holds exactly `CHUNK` bytes; the last holds between one and
      `CHUNK` bytes and ends at the end of the data. */
  lemma {:induction false} ChunkSizes<T>(data: seq<T>, k: nat)
    requires k < ChunkCount(|data|)
    ensures k + 1 < ChunkCount(|data|) ==> |Chunk(data, k)| == CHUNK
    ensures k + 1 == ChunkCount(|data|) ==> 0 < |Chunk(data, k)| <= CHUNK && ChunkEnd(|data|, k) == |data|
  {
    var n := ChunkCount(|data|);
    if k + 1 < n {
      assert (k + 1) * CHUNK <= (n - 1) * CHUNK;
    } else {
      assert |data| <= (k + 1) * CHUNK;
    }
  }

  /** The first `n` chunks together are the data up to where chunk `n - 1` ends. */
  lemma {:induction false} FlattenPrefix<T>(data: seq<T>, n: nat)
    requires n <= ChunkCount(|data|)
    ensures Flatten(Chunks(data)[..n]) == data[..Min(|data|, n * CHUNK)]
  {
    if n > 0 {
      var m := n - 1;
      FlattenPrefix(data, m);
      var cs := Chunks(data);
      assert cs[..n] == cs[..m] + [cs[m]];
      FlattenSnoc(cs[..m], cs[m]);
      assert m * CHUNK < |data|;
      assert data[..Min(|data|, n * CHUNK)] == data[..m * CHUNK] + data[m * CHUNK..ChunkEnd(|data|, m)];
    }
  }

  /** Splitting and concatenating gives the data back. */
  lemma {:induction false} FlattenChunks<T>(data: seq<T>)
    ensures Flatten(Chunks(data)) == data
  {
    var cs := Chunks(data);
    FlattenPrefix(data, |cs|);
    assert cs[..|cs|] == cs;
  }

  /** An empty output gives no chunk at all. */
  lemma {:induction false} NoChunksForEmpty<T>(data: seq<T>)
    requires |data| == 0
    ensures Chunks(data) == []
  {
  }
}
