/**
 * The partition of a byte (or character) stream into pieces by repeated bounded reads, the way
 * `buildFileMsgs` reads the file and `ObservableSMTP.send` slices the outgoing text: each read
 * takes up to `limit` items, and the loop stops at the first empty read.
 */
module Chunking {
  import opened Basics

  /** How many items a Python `read(n)` returns when `avail` remain: a negative `n` reads them all. */
  function ReadLen(avail: nat, n: int): nat
  {
    if n < 0 || avail <= n then avail else n
  }

  /** A read returns at most what is left and at most what was asked for, and is short only when the request limits it. */
  lemma ReadLenBounds(avail: nat, n: int)
    ensures var k := ReadLen(avail, n);
            k <= avail && (n >= 0 ==> k <= n) && (k < avail ==> k == n)
  {
  }

  /** The non-empty pieces that successive reads of at most `limit` items return, up to the first empty read. */
  function Chunks<T>(data: seq<T>, limit: int): seq<seq<T>>
    decreases |data|
  {
    var k := ReadLen(|data|, limit);
    if k == 0 then [] else [data[..k]] + Chunks(data[k..], limit)
  }

  /** One more read: a non-empty read is the first piece, and the pieces of what follows come after it. */
  lemma ChunksStep<T>(data: seq<T>, limit: int)
    ensures var k := ReadLen(|data|, limit);
            Chunks(data, limit) == if k == 0 then [] else [data[..k]] + Chunks(data[k..], limit)
  {
  }

  /**
   * A read loop's progress after reading `data[..pos]`: the pieces read so far, followed by the
   * pieces of the unread suffix, are the pieces of the whole.
   */
  ghost predicate ReadProgress<T>(data: seq<T>, pos: nat, limit: int, done: seq<seq<T>>)
  {
    pos <= |data| && done + Chunks(data[pos..], limit) == Chunks(data, limit)
  }

  /** Nothing read yet: progress holds at the start of the data. */
  lemma ReadProgressStart<T>(data: seq<T>, limit: int)
    ensures ReadProgress(data, 0, limit, [])
  {
    assert data[0..] == data;
  }

  /** One more non-empty read keeps the progress, with the piece appended. */
  lemma ReadProgressStep<T>(data: seq<T>, pos: nat, limit: int, done: seq<seq<T>>, piece: seq<T>)
    requires ReadProgress(data, pos, limit, done)
    requires piece == data[pos..pos + ReadLen(|data| - pos, limit)] && piece != []
    ensures ReadProgress(data, pos + |piece|, limit, done + [piece])
  {
    var k := |piece|;
    var rest := data[pos..];
    ChunksStep(rest, limit);
    assert rest[..k] == piece;
    assert rest[k..] == data[pos + k..];
    var tail := Chunks(data[pos + k..], limit);
    assert Chunks(rest, limit) == [piece] + tail;
    assert (done + [piece]) + tail == done + ([piece] + tail);
  }

  /** The pieces read so far are the first pieces of the whole, and a non-empty next read means more remain. */
  lemma ReadProgressPrefix<T>(data: seq<T>, pos: nat, limit: int, done: seq<seq<T>>)
    requires ReadProgress(data, pos, limit, done)
    ensures |done| <= |Chunks(data, limit)| && done == Chunks(data, limit)[..|done|]
    ensures ReadLen(|data| - pos, limit) > 0 ==> |done| < |Chunks(data, limit)|
  {
    ChunksStep(data[pos..], limit);
    assert (done + Chunks(data[pos..], limit))[..|done|] == done;
  }

  /** Once a read comes back empty, the pieces read so far are all the pieces. */
  lemma ReadProgressDone<T>(data: seq<T>, pos: nat, limit: int, done: seq<seq<T>>)
    requires ReadProgress(data, pos, limit, done)
    requires ReadLen(|data| - pos, limit) == 0
    ensures done == Chunks(data, limit)
  {
    ChunksStep(data[pos..], limit);
  }

  function Min(a: int, b: int): int
  {
    if a < b then a else b
  }

  function CeilDiv(a: nat, b: nat): nat
    requires b > 0
  {
    (a + b - 1) / b
  }

  /** Reassembly: the pieces, concatenated in order, give back the data (unless reads of 0 items end it at once). */
  lemma {:induction false} ChunksConcat<T>(data: seq<T>, limit: int)
    requires limit != 0
    ensures Concat(Chunks(data, limit)) == data
    decreases |data|
  {
    var k := ReadLen(|data|, limit);
    if k != 0 {
      ChunksConcat(data[k..], limit);
      assert data[..k] + data[k..] == data;
    }
  }

  /** Every piece is non-empty, and no piece is longer than a positive limit. */
  lemma {:induction false} ChunksBounded<T>(data: seq<T>, limit: int)
    ensures forall i :: 0 <= i < |Chunks(data, limit)| ==>
              0 < |Chunks(data, limit)[i]| && (limit > 0 ==> |Chunks(data, limit)[i]| <= limit)
    decreases |data|
  {
    var k := ReadLen(|data|, limit);
    if k != 0 {
      ChunksBounded(data[k..], limit);
    }
  }

  /** Piece `i` is exactly the slice `[i * limit, min(i * limit + limit, |data|))` of the data. */
  lemma ChunkAt<T>(data: seq<T>, limit: int, i: nat)
    requires limit > 0 && i < |Chunks(data, limit)|
    ensures i * limit < |data|
    ensures Chunks(data, limit)[i] == data[i * limit .. Min(i * limit + limit, |data|)]
  {
    ChunkAtOffset(data, limit, i);
    OffsetIsProduct(i, limit);
  }

  /** Where piece `i` starts: `i` full pieces in. */
  function Offset(i: nat, limit: int): int
  {
    if i == 0 then 0 else Offset(i - 1, limit) + limit
  }

  lemma {:induction false} OffsetIsProduct(i: nat, limit: int)
    ensures Offset(i, limit) == i * limit
  {
    if i > 0 {
      OffsetIsProduct(i - 1, limit);
      assert (i - 1) * limit + limit == i * limit;
    }
  }

  /** `ChunkAt` with the offset built by addition, so that the induction needs no multiplication. */
  lemma {:induction false} ChunkAtOffset<T>(data: seq<T>, limit: int, i: nat)
    requires limit > 0 && i < |Chunks(data, limit)|
    ensures 0 <= Offset(i, limit) < |data|
    ensures Chunks(data, limit)[i] == data[Offset(i, limit) .. Min(Offset(i, limit) + limit, |data|)]
    decreases |data|
  {
    if i == 0 {
      ChunksHead(data, limit);
    } else {
      ChunksTail(data, limit, i);
      var rest := data[limit..];
      ChunkAtOffset(rest, limit, i - 1);
      var a := Offset(i - 1, limit);
      var b := Min(a + limit, |rest|);
      SliceOfSlice(data, limit, a, b);
    }
  }

  /** The first `i` pieces together are `min(Offset(i), |data|)` items long. */
  lemma {:induction false} PrefixLength<T>(data: seq<T>, limit: int, i: nat)
    requires limit > 0 && i <= |Chunks(data, limit)|
    ensures |Concat(Chunks(data, limit)[..i])| == Min(Offset(i, limit), |data|)
  {
    if i > 0 {
      var pieces := Chunks(data, limit);
      var j := i - 1;
      PrefixLength(data, limit, j);
      ChunkAtOffset(data, limit, j);
      ConcatAppend(pieces[..j], pieces[j]);
      assert pieces[..j] + [pieces[j]] == pieces[..i];
    }
  }

  /** The first piece is the first `limit` items, or all of them. */
  lemma ChunksHead<T>(data: seq<T>, limit: int)
    requires limit > 0 && 0 < |Chunks(data, limit)|
    ensures data != [] && Chunks(data, limit)[0] == data[0..Min(limit, |data|)]
  {
    ChunksStep(data, limit);
    assert data[..Min(limit, |data|)] == data[0..Min(limit, |data|)];
  }

  /** Past the first piece, which is then a full one, the pieces are those of the rest. */
  lemma ChunksTail<T>(data: seq<T>, limit: int, i: nat)
    requires limit > 0 && 0 < i < |Chunks(data, limit)|
    ensures limit < |data| && i - 1 < |Chunks(data[limit..], limit)|
    ensures Chunks(data, limit)[i] == Chunks(data[limit..], limit)[i - 1]
  {
    ChunksStep(data, limit);
  }

  lemma SliceOfSlice<T>(data: seq<T>, k: nat, a: nat, b: nat)
    requires k <= |data| && a <= b <= |data| - k
    ensures data[k..][a..b] == data[k + a..k + b]
  {
  }

  /** Without division: `n` pieces cover the data exactly when `(n - 1) * limit < |data| <= n * limit`. */
  lemma {:induction false} ChunksCountBounds<T>(data: seq<T>, limit: int)
    requires limit > 0
    ensures var n := |Chunks(data, limit)|;
            (n == 0 <==> data == []) && |data| <= n * limit && (n > 0 ==> (n - 1) * limit < |data|)
    decreases |data|
  {
    var k := ReadLen(|data|, limit);
    if k != 0 {
      var rest := data[k..];
      ChunksCountBounds(rest, limit);
      var m := |Chunks(rest, limit)|;
      assert |data| == k + |rest|;
      assert m * limit + limit == (m + 1) * limit;
      if m > 0 {
        assert k == limit;
        assert (m - 1) * limit + limit == m * limit;
      }
    }
  }

  lemma MulSign(d: int, b: int)
    requires b > 0
    ensures d >= 1 ==> d * b >= b
    ensures d <= -1 ==> d * b <= -b
  {
  }

  lemma CeilDivUnique(a: nat, b: nat, n: nat)
    requires b > 0 && n > 0 && (n - 1) * b < a <= n * b
    ensures CeilDiv(a, b) == n
  {
    var x := a + b - 1;
    var q, r := x / b, x % b;
    assert x == q * b + r && 0 <= r < b;
    assert n * b <= x < n * b + b;
    assert (q - n) * b == q * b - n * b;
    MulSign(q - n, b);
  }

  /** The number of pieces is `ceil(|data| / limit)`. */
  lemma ChunksCount<T>(data: seq<T>, limit: int)
    requires limit > 0
    ensures |Chunks(data, limit)| == CeilDiv(|data|, limit)
  {
    ChunksCountBounds(data, limit);
    var n := |Chunks(data, limit)|;
    if n == 0 {
      assert (limit - 1) / limit == 0;
    } else {
      CeilDivUnique(|data|, limit, n);
    }
  }

  /** A read of 0 items ends the loop at once: nothing is produced. */
  lemma ZeroLimitNoChunks<T>(data: seq<T>)
    ensures Chunks(data, 0) == []
  {
  }

  /** A negative limit reads everything in one piece. */
  lemma NegativeLimitOneChunk<T>(data: seq<T>, limit: int)
    requires limit < 0 && data != []
    ensures Chunks(data, limit) == [data]
  {
    assert data[|data|..] == [];
    assert data[..|data|] == data;
    assert Chunks(data[|data|..], limit) == [];
  }
}
