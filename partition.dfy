/**
 * How the two MPI programs, backend/mpi/mpi_analysis.c and
 * backend/mpi/analysis_mpi.c, split an index range among `size` ranks:
 * rank r takes the block [r * chunk, (r + 1) * chunk) with
 * chunk = count / size, and the last rank takes everything from its start
 * to the end. The clustering pass instead deals indices out cyclically,
 * rank r taking r, r + size, r + 2 size, …
 */
module Partition {
  import opened Base

  /** chunk_size: with a non-negative count C's truncating division is Dafny's. */
  function ChunkSize(count: nat, size: nat): nat
    requires size >= 1
  {
    count / size
  }

  /** start_index of rank `rank`. */
  function Start(count: nat, rank: nat, size: nat): nat
    requires rank < size
  {
    rank * ChunkSize(count, size)
  }

  /** end_index of rank `rank`: the last rank runs to `count`. */
  function End(count: nat, rank: nat, size: nat): nat
    requires rank < size
  {
    if rank == size - 1 then count else Start(count, rank, size) + ChunkSize(count, size)
  }

  lemma MulMono(a: nat, b: nat, k: nat)
    requires a <= b
    ensures a * k <= b * k
  {
    assert b * k == a * k + (b - a) * k;
  }

  /** Every block lies inside [0, count) and is well formed. */
  lemma BlockBounds(count: nat, rank: nat, size: nat)
    requires rank < size
    ensures Start(count, rank, size) <= End(count, rank, size) <= count
  {
    var chunk := ChunkSize(count, size);
    assert size * chunk <= count;
    if rank < size - 1 {
      MulMono(rank + 1, size, chunk);
    } else {
      MulMono(rank, size, chunk);
    }
  }

  /** The first block starts at 0, the last ends at `count`, and each block ends where the next begins. */
  lemma BlocksAreAdjacent(count: nat, size: nat)
    requires size >= 1
    ensures Start(count, 0, size) == 0 && End(count, size - 1, size) == count
    ensures forall r | 0 <= r < size - 1 :: End(count, r, size) == Start(count, r + 1, size)
  {
    var chunk := ChunkSize(count, size);
    forall r | 0 <= r < size - 1
      ensures End(count, r, size) == Start(count, r + 1, size)
    {
      assert (r + 1) * chunk == r * chunk + chunk;
    }
  }

  /** Blocks of different ranks do not overlap: a lower rank's block ends before a higher rank's starts. */
  lemma BlocksAreOrdered(count: nat, r1: nat, r2: nat, size: nat)
    requires r1 < r2 < size
    ensures End(count, r1, size) <= Start(count, r2, size)
  {
    var chunk := ChunkSize(count, size);
    assert (r1 + 1) * chunk == r1 * chunk + chunk;
    MulMono(r1 + 1, r2, chunk);
  }

  /** Every index below `count` falls in the block of some rank. */
  lemma BlockOwner(count: nat, size: nat, i: nat) returns (r: nat)
    requires size >= 1 && i < count
    ensures r < size && Start(count, r, size) <= i < End(count, r, size)
  {
    var chunk := ChunkSize(count, size);
    if chunk == 0 || i / chunk >= size - 1 {
      r := size - 1;
      if chunk > 0 {
        MulMono(size - 1, i / chunk, chunk);
      }
    } else {
      r := i / chunk;
      assert (r + 1) * chunk == r * chunk + chunk;
    }
  }

  /** ... and of only one: the blocks are disjoint. */
  lemma BlockOwnerUnique(count: nat, size: nat, i: nat, r1: nat, r2: nat)
    requires r1 < size && r2 < size
    requires Start(count, r1, size) <= i < End(count, r1, size)
    requires Start(count, r2, size) <= i < End(count, r2, size)
    ensures r1 == r2
  {
    if r1 < r2 {
      BlocksAreOrdered(count, r1, r2, size);
    } else if r2 < r1 {
      BlocksAreOrdered(count, r2, r1, size);
    }
  }

  /** The block's length: `chunk` for every rank but the last, which also takes the remainder. */
  lemma BlockLength(count: nat, rank: nat, size: nat)
    requires rank < size
    ensures End(count, rank, size) - Start(count, rank, size)
            == if rank == size - 1 then count % size + ChunkSize(count, size) else ChunkSize(count, size)
  {
    var chunk := ChunkSize(count, size);
    assert count == size * chunk + count % size;
    assert (size - 1) * chunk + chunk == size * chunk;
  }

  /**
   * One step of the cyclic loop `i += size`: from an index of rank
   * `rank`, the next index of that rank is `i + size`, and none lies in between.
   */
  lemma StrideStep(i: nat, size: nat, rank: nat)
    requires rank < size && i % size == rank
    ensures (i + size) % size == rank
    ensures forall j | i < j < i + size :: j % size != rank
  {
    var q := i / size;
    assert i == q * size + rank;
    DivModUnique(i + size, size, q + 1, rank);
    forall j | i < j < i + size
      ensures j % size != rank
    {
      if rank + (j - i) < size {
        DivModUnique(j, size, q, rank + (j - i));
      } else {
        DivModUnique(j, size, q + 1, rank + (j - i) - size);
      }
    }
  }

  /** The cyclic loop of rank `rank` starts at its first index: no smaller index belongs to it. */
  lemma StrideStart(size: nat, rank: nat)
    requires rank < size
    ensures rank % size == rank
    ensures forall j | 0 <= j < rank :: j % size != rank
  {
    DivModUnique(rank, size, 0, rank);
    forall j | 0 <= j < rank
      ensures j % size != rank
    {
      DivModUnique(j, size, 0, j);
    }
  }
}
