/** The chunk arithmetic of PrepareUpload, in Go's 64-bit integers. */
module ChunkPlan {
  import opened Prelude
  import opened Tables

  const TWO_63 := 0x8000_0000_0000_0000
  const TWO_64 := 0x1_0000_0000_0000_0000

  predicate IsInt64(x: int) {
    -TWO_63 <= x < TWO_63
  }

  /** The value of an int64 operation whose exact result is `x`. */
  function Wrap64(x: int): int {
    (x + TWO_63) % TWO_64 - TWO_63
  }

  /** Go's integer division truncates toward zero. */
  function TruncDiv(a: int, b: int): int
    requires b > 0
  {
    if a >= 0 then a / b else -((-a) / b)
  }

  function ChunkCount(size: int, chunkSize: int): int
    requires chunkSize > 0
  {
    TruncDiv(Wrap64(Wrap64(size + chunkSize) - 1), chunkSize)
  }

  /** Size given to chunk `i` of `count`. */
  function SizeAt(size: int, chunkSize: int, count: int, i: int): int {
    var remaining := Wrap64(size - Wrap64(i * chunkSize));
    if i == count - 1 && remaining > 0 then remaining else chunkSize
  }

  function Sizes(size: int, chunkSize: int): seq<int>
    requires chunkSize > 0 && ChunkCount(size, chunkSize) >= 0
  {
    var count := ChunkCount(size, chunkSize);
    seq(count, i => SizeAt(size, chunkSize, count, i))
  }

  /** The chunk rows for a file whose chunk IDs are `ids`, in order. */
  function PlanRows(fileId: string, size: int, chunkSize: int, ids: seq<string>): seq<ChunkRow> {
    seq(|ids|, i requires 0 <= i < |ids| => ChunkRow(ids[i], Chunk(fileId, i, SizeAt(size, chunkSize, |ids|, i))))
  }

  datatype PlanError = CapacityPanic

  /** The first `n` IDs of an ID source. */
  function Generated(n: int, newId: nat -> string): seq<string>
    requires n >= 0
  {
    seq(n, i requires 0 <= i < n => newId(i))
  }

  /** The loop of PrepareUpload. A negative count, or one beyond the longest slice the runtime can allocate, makes the
      allocation panic. */
  method PlanChunks(fileId: string, size: int, chunkSize: int, maxChunks: nat, newId: nat -> string)
    returns (r: Result<seq<ChunkRow>, PlanError>)
    requires chunkSize > 0 && IsInt64(size) && IsInt64(chunkSize)
    ensures r.Err? <==> ChunkCount(size, chunkSize) < 0 || ChunkCount(size, chunkSize) > maxChunks
    ensures r.Ok? ==> r.value == PlanRows(fileId, size, chunkSize, Generated(ChunkCount(size, chunkSize), newId))
  {
    var chunkCount := ChunkCount(size, chunkSize);
    if chunkCount < 0 || chunkCount > maxChunks {
      return Err(CapacityPanic);
    }
    var chunks: seq<ChunkRow> := [];
    for i := 0 to chunkCount
      invariant |chunks| == i
      invariant forall j :: 0 <= j < i ==>
        chunks[j] == ChunkRow(newId(j), Chunk(fileId, j, SizeAt(size, chunkSize, chunkCount, j)))
    {
      var chunkId := newId(i);
      var bytes := chunkSize;
      if i == chunkCount - 1 {
        var remaining := Wrap64(size - Wrap64(i * chunkSize));
        if remaining > 0 {
          bytes := remaining;
        }
      }
      chunks := chunks + [ChunkRow(chunkId, Chunk(fileId, i, bytes))];
    }
    r := Ok(chunks);
  }

  // ---- What the plan is for ----

  ghost function Sum(s: seq<int>): int {
    if s == [] then 0 else Sum(s[..|s| - 1]) + s[|s| - 1]
  }

  /** Positive pieces of at most `chunkSize`, all full but the last, adding up to `size`. */
  ghost predicate IsPartition(sizes: seq<int>, size: int, chunkSize: int) {
    && (forall i :: 0 <= i < |sizes| ==> 1 <= sizes[i] <= chunkSize)
    && (forall i :: 0 <= i < |sizes| - 1 ==> sizes[i] == chunkSize)
    && Sum(sizes) == size
  }

  /** The sizes for which the arithmetic does not overflow. */
  predicate Plannable(size: int, chunkSize: int) {
    0 <= size <= TWO_63 - chunkSize
  }

  lemma {:induction false} SumOfFull(sizes: seq<int>, chunkSize: int)
    requires forall i :: 0 <= i < |sizes| ==> sizes[i] == chunkSize
    ensures Sum(sizes) == |sizes| * chunkSize
  {
    if sizes == [] {
    } else {
      SumOfFull(sizes[..|sizes| - 1], chunkSize);
      calc {
        Sum(sizes);
        (|sizes| - 1) * chunkSize + chunkSize;
        |sizes| * chunkSize;
      }
    }
  }

  lemma CountBounds(size: int, chunkSize: int)
    requires 0 < chunkSize && IsInt64(size) && IsInt64(chunkSize) && Plannable(size, chunkSize)
    ensures ChunkCount(size, chunkSize) >= 0 && (ChunkCount(size, chunkSize) == 0 <==> size == 0)
    ensures size > 0 ==>
            var full := (ChunkCount(size, chunkSize) - 1) * chunkSize; full < size <= full + chunkSize
  {
    var total := size + chunkSize - 1;
    assert Wrap64(Wrap64(size + chunkSize) - 1) == total;
    DivBounds(total, chunkSize);
    var n := total / chunkSize;
    if size > 0 {
      OneMore(n, chunkSize, total);
    }
  }

  lemma DivBounds(t: int, c: int)
    requires 0 <= t && 0 < c
    ensures t / c >= 0 && (t / c) * c <= t < (t / c) * c + c
    ensures t < c ==> t / c == 0
  {
    assert t == (t / c) * c + t % c;
    if t < c && t / c >= 1 {
      Ordered(1, t / c, c);
      assert false;
    }
  }

  lemma OneMore(n: int, c: int, t: int)
    requires 0 <= n && 0 < c && n * c <= t < n * c + c && t >= c
    ensures n > 0 && (n - 1) * c == n * c - c
  {
  }

  lemma Ordered(i: int, n: int, c: int)
    requires 0 <= i <= n && 0 < c
    ensures 0 <= i * c <= n * c
  {
    assert (n - i) * c == n * c - i * c;
    assert (n - i) * c >= 0;
  }

  lemma SizeAtPlannable(size: int, chunkSize: int, n: int, i: int)
    requires 0 <= i < n && 0 < chunkSize && 0 <= (n - 1) * chunkSize < size && IsInt64(size)
    ensures SizeAt(size, chunkSize, n, i) == if i == n - 1 then size - (n - 1) * chunkSize else chunkSize
  {
    if i == n - 1 {
      WrapInRange((n - 1) * chunkSize);
      WrapInRange(size - (n - 1) * chunkSize);
      hide Wrap64;
    } else {
      hide Wrap64;
    }
  }

  lemma SizesPlannable(size: int, chunkSize: int)
    requires 0 < chunkSize && IsInt64(size) && IsInt64(chunkSize) && Plannable(size, chunkSize)
    ensures ChunkCount(size, chunkSize) >= 0
    ensures IsPartition(Sizes(size, chunkSize), size, chunkSize)
  {
    CountBounds(size, chunkSize);
    hide ChunkCount, SizeAt;
    var n := ChunkCount(size, chunkSize);
    if n > 0 {
      Ordered(0, n - 1, chunkSize);
    }
    var sizes := Sizes(size, chunkSize);
    if n > 0 {
      forall i | 0 <= i < n
        ensures sizes[i] == if i == n - 1 then size - (n - 1) * chunkSize else chunkSize
      {
        SizeAtPlannable(size, chunkSize, n, i);
      }
      SumOfFull(sizes[..n - 1], chunkSize);
    }
  }

  /** The plan partitions the file exactly when the file size leaves room for one more chunk below 2^63. */
  lemma PlanPartitionsExactly(size: int, chunkSize: int)
    requires 0 < chunkSize <= 9223372036854775807 && -9223372036854775808 <= size <= 9223372036854775807
    ensures (ChunkCount(size, chunkSize) >= 0 && IsPartition(Sizes(size, chunkSize), size, chunkSize))
            <==> 0 <= size && size + chunkSize <= 9223372036854775808
    ensures Plannable(size, chunkSize) <==> 0 <= size && size + chunkSize <= 9223372036854775808
    ensures !Plannable(size, chunkSize) ==> ChunkCount(size, chunkSize) <= 0
  {
    if Plannable(size, chunkSize) {
      SizesPlannable(size, chunkSize);
    } else {
      OverflowCount(size, chunkSize);
      hide ChunkCount, SizeAt;
      if ChunkCount(size, chunkSize) == 0 {
        assert Sizes(size, chunkSize) == [];
      }
    }
  }

  /** The count for every pair of 64-bit values: the sum wraps, and the division drops the fraction. */
  lemma CountExact(size: int, chunkSize: int)
    requires 0 < chunkSize <= 9223372036854775807 && -9223372036854775808 <= size <= 9223372036854775807
    ensures var (total, count) := (size + chunkSize - 1, ChunkCount(size, chunkSize));
            var wrapped := if total <= 9223372036854775807 then total else total - 18446744073709551616;
            if wrapped >= 0 then count * chunkSize <= wrapped < count * chunkSize + chunkSize
            else count * chunkSize - chunkSize < wrapped <= count * chunkSize
  {
    var total := size + chunkSize - 1;
    var wrapped := if total <= 9223372036854775807 then total else total - 18446744073709551616;
    hide Wrap64, TruncDiv;
    WrapSum(size, chunkSize);
    TruncExact(wrapped, chunkSize);
  }

  lemma WrapSum(size: int, chunkSize: int)
    requires 0 < chunkSize <= 9223372036854775807 && -9223372036854775808 <= size <= 9223372036854775807
    ensures Wrap64(Wrap64(size + chunkSize) - 1) ==
      if size + chunkSize - 1 <= 9223372036854775807 then size + chunkSize - 1 else size + chunkSize - 1 - 18446744073709551616
  {
  }

  lemma TruncExact(a: int, b: int)
    requires 0 < b
    ensures if a >= 0 then TruncDiv(a, b) * b <= a < TruncDiv(a, b) * b + b
            else TruncDiv(a, b) * b - b < a <= TruncDiv(a, b) * b
  {
    if a >= 0 {
      DivBounds(a, b);
    } else {
      DivBounds(-a, b);
      assert -((-a) / b) * b == -((-a) / b * b);
    }
  }

  /** Without overflow the count is the file size divided by the chunk size, rounded up. */
  lemma CountPlannable(size: int, chunkSize: int)
    requires 0 < chunkSize && 0 <= size && size + chunkSize <= 9223372036854775808
    ensures ChunkCount(size, chunkSize) == (size + chunkSize - 1) / chunkSize >= 0
  {
    WrapInRange(size + chunkSize - 1);
    assert Wrap64(Wrap64(size + chunkSize) - 1) == size + chunkSize - 1;
  }

  lemma OverflowCount(size: int, chunkSize: int)
    requires 0 < chunkSize && IsInt64(size) && IsInt64(chunkSize) && !Plannable(size, chunkSize)
    ensures size != 0 && ChunkCount(size, chunkSize) <= 0
  {
    var total := size + chunkSize - 1;
    if size < 0 {
      WrapInRange(size + chunkSize);
      WrapInRange(total);
      hide Wrap64;
      DivSign(total, chunkSize);
    } else {
      WrapAround(size + chunkSize, total);
      hide Wrap64;
      DivSign(total - TWO_64, chunkSize);
    }
  }

  lemma WrapInRange(x: int)
    requires IsInt64(x)
    ensures Wrap64(x) == x
  {
  }

  lemma WrapAround(x: int, total: int)
    requires TWO_63 < x < TWO_64 && total == x - 1
    ensures Wrap64(Wrap64(x) - 1) == total - TWO_64
  {
    assert Wrap64(x) == x - TWO_64;
  }

  /** A negative dividend, or one below the divisor, gives no positive quotient. */
  lemma DivSign(a: int, b: int)
    requires a < b && 0 < b
    ensures TruncDiv(a, b) <= 0
  {
    if a >= 0 {
      DivBounds(a, b);
    } else {
      DivBounds(-a, b);
    }
  }

  // ---- Splitting a file along the plan and joining it again ----

  ghost function Split<T>(content: seq<T>, sizes: seq<int>): seq<seq<T>>
    requires forall i :: 0 <= i < |sizes| ==> 0 <= sizes[i]
    requires Sum(sizes) == |content|
    decreases |sizes|
  {
    if sizes == [] then []
    else
      var n := |sizes| - 1;
      SumNonNegative(sizes[..n]);
      Split(content[..Sum(sizes[..n])], sizes[..n]) + [content[Sum(sizes[..n])..]]
  }

  ghost function Join<T>(pieces: seq<seq<T>>): seq<T> {
    if pieces == [] then [] else Join(pieces[..|pieces| - 1]) + pieces[|pieces| - 1]
  }

  lemma {:induction false} SumNonNegative(sizes: seq<int>)
    requires forall i :: 0 <= i < |sizes| ==> 0 <= sizes[i]
    ensures Sum(sizes) >= 0
  {
    if sizes != [] {
      SumNonNegative(sizes[..|sizes| - 1]);
    }
  }

  lemma SplitSnoc<T>(content: seq<T>, sizes: seq<int>) returns (k: nat)
    requires sizes != [] && (forall i :: 0 <= i < |sizes| ==> 0 <= sizes[i]) && Sum(sizes) == |content|
    ensures k <= |content| && Sum(sizes[..|sizes| - 1]) == k && sizes[|sizes| - 1] == |content| - k
    ensures Split(content, sizes) == Split(content[..k], sizes[..|sizes| - 1]) + [content[k..]]
  {
    SumNonNegative(sizes[..|sizes| - 1]);
    k := Sum(sizes[..|sizes| - 1]);
  }

  lemma JoinSnoc<T>(front: seq<seq<T>>, last: seq<T>)
    ensures Join(front + [last]) == Join(front) + last
  {
    assert (front + [last])[..|front|] == front;
  }

  /** Cutting content along a partition yields pieces of the planned sizes, and joining them gives it back. */
  lemma {:induction false} SplitJoin<T>(content: seq<T>, sizes: seq<int>)
    requires forall i :: 0 <= i < |sizes| ==> 0 <= sizes[i]
    requires Sum(sizes) == |content|
    ensures var pieces := Split(content, sizes);
            && |pieces| == |sizes|
            && (forall i :: 0 <= i < |sizes| ==> |pieces[i]| == sizes[i])
            && Join(pieces) == content
    decreases |sizes|
  {
    if sizes == [] {
    } else {
      hide Split, Sum, Join;
      var n := |sizes| - 1;
      var k := SplitSnoc(content, sizes);
      SplitJoin(content[..k], sizes[..n]);
      JoinSnoc(Split(content[..k], sizes[..n]), content[k..]);
      assert content[..k] + content[k..] == content;
    }
  }

  /** Piece `k` of a file cut along a partition is its range of bytes. */
  lemma {:induction false} PieceAt<T>(content: seq<T>, sizes: seq<int>, chunkSize: int, k: nat)
    requires IsPartition(sizes, |content|, chunkSize) && k < |sizes| && chunkSize > 0
    ensures 0 <= k * chunkSize < |content| && |Split(content, sizes)| == |sizes|
    ensures k < |sizes| - 1 ==> k * chunkSize + chunkSize <= |content|
    ensures Split(content, sizes)[k] ==
      if k == |sizes| - 1 then content[k * chunkSize..] else content[k * chunkSize..k * chunkSize + chunkSize]
    decreases |sizes|
  {
    hide Split, Sum;
    var n := |sizes| - 1;
    var front := sizes[..n];
    var m := SplitSnoc(content, sizes);
    FrontPartition(content, sizes, chunkSize, m);
    SplitJoin(content[..m], front);
    Ordered(k, n, chunkSize);
    if k < n {
      hide IsPartition;
      PieceAt(content[..m], front, chunkSize, k);
      StepUp(k, n, chunkSize);
    }
  }

  lemma FrontPartition<T>(content: seq<T>, sizes: seq<int>, chunkSize: int, m: nat)
    requires IsPartition(sizes, |content|, chunkSize) && sizes != [] && m <= |content|
    requires Sum(sizes[..|sizes| - 1]) == m && sizes[|sizes| - 1] == |content| - m
    ensures IsPartition(sizes[..|sizes| - 1], m, chunkSize)
    ensures m == (|sizes| - 1) * chunkSize && m < |content|
  {
    SumOfFull(sizes[..|sizes| - 1], chunkSize);
    hide Sum;
  }

  lemma StepUp(k: nat, n: nat, c: int)
    requires k < n && c > 0
    ensures k * c + c <= n * c && (k == n - 1 ==> k * c + c == n * c)
  {
    Ordered(k + 1, n, c);
    assert (k + 1) * c == k * c + c;
  }

  // ---- Reading the plan back from the tables ----

  ghost function RowIds(rows: seq<ChunkRow>): set<string> {
    set x | x in rows :: x.id
  }

  /** Rows of one file, numbered 0, 1, 2, …, under different IDs. */
  ghost predicate Numbered(fileId: string, rows: seq<ChunkRow>) {
    && (forall i :: 0 <= i < |rows| ==> rows[i].chunk.fileId == fileId && rows[i].chunk.index == i)
    && (forall i, j :: 0 <= i < j < |rows| ==> rows[i].id != rows[j].id)
  }

  /** The chunk rows of `fileId` are exactly `rows`. */
  ghost predicate HoldsRows(db: Db, fileId: string, rows: seq<ChunkRow>) {
    && Numbered(fileId, rows)
    && ChunkIds(db, fileId) == RowIds(rows)
    && (forall i :: 0 <= i < |rows| ==> rows[i].id in db.chunks && db.chunks[rows[i].id] == rows[i].chunk)
  }

  /** ORDER BY chunk_index returns the rows in the order in which they were numbered. */
  lemma ListingIsRows(db: Db, fileId: string, rows: seq<ChunkRow>, q: seq<ChunkRow>)
    requires HoldsRows(db, fileId, rows)
    requires IsChunkListing(db, fileId, q)
    ensures q == rows
  {
    forall j | 0 <= j < |q|
      ensures 0 <= q[j].chunk.index < |rows| && q[j] == rows[q[j].chunk.index]
    {
      assert q[j].id in ChunkIds(db, fileId);
      var i :| 0 <= i < |rows| && rows[i].id == q[j].id;
      assert q[j] == rows[i];
    }
    var indexes := seq(|q|, j requires 0 <= j < |q| => q[j].chunk.index);
    forall k | 0 <= k < |rows| ensures k in indexes {
      assert rows[k] in rows;
      assert rows[k].id in ChunkIds(db, fileId);
      var j :| 0 <= j < |q| && q[j].id == rows[k].id;
      assert indexes[j] == k;
    }
    IncreasingCover(indexes, |rows|);
    forall k | 0 <= k < |q| ensures q[k] == rows[k] {
      assert indexes[k] == k;
    }
  }

  /** A strictly increasing sequence that hits every number below `n`, and no other, counts 0, 1, …, n-1. */
  lemma IncreasingCover(xs: seq<int>, n: nat)
    requires forall i, j :: 0 <= i < j < |xs| ==> xs[i] < xs[j]
    requires forall i :: 0 <= i < |xs| ==> 0 <= xs[i] < n
    requires forall v :: 0 <= v < n ==> v in xs
    ensures |xs| == n && forall i :: 0 <= i < n ==> xs[i] == i
  {
    CoverPrefix(xs, n, n);
    if |xs| > n {
      AtLeastIndex(xs, n);
    }
  }

  lemma {:induction false} AtLeastIndex(xs: seq<int>, i: nat)
    requires forall i, j :: 0 <= i < j < |xs| ==> xs[i] < xs[j]
    requires forall i :: 0 <= i < |xs| ==> 0 <= xs[i]
    requires i < |xs|
    ensures i <= xs[i]
  {
    if i > 0 {
      AtLeastIndex(xs, i - 1);
      assert xs[i - 1] < xs[i];
    }
  }

  lemma {:induction false} CoverPrefix(xs: seq<int>, n: nat, k: nat)
    requires forall i, j :: 0 <= i < j < |xs| ==> xs[i] < xs[j]
    requires forall i :: 0 <= i < |xs| ==> 0 <= xs[i] < n
    requires forall v :: 0 <= v < n ==> v in xs
    requires k <= n
    ensures k <= |xs| && forall i :: 0 <= i < k ==> xs[i] == i
  {
    if k > 0 {
      CoverPrefix(xs, n, k - 1);
      assert k - 1 in xs;
      var j :| 0 <= j < |xs| && xs[j] == k - 1;
      AtLeastIndex(xs, j);
    }
  }

  /** The rows of a file of this size, as PrepareUpload plans them without overflow. */
  ghost predicate IsPlanFor(fileId: string, size: int, chunkSize: int, rows: seq<ChunkRow>) {
    && 0 < size && IsInt64(size) && 0 < chunkSize && IsInt64(chunkSize)
    && |rows| == ChunkCount(size, chunkSize)
    && rows == PlanRows(fileId, size, chunkSize, seq(|rows|, i requires 0 <= i < |rows| => rows[i].id))
  }

  /** Stored chunks, read in index order, partition the file; cutting along them and joining is the identity. */
  lemma StoredPlanRoundTrip<T>(
    db: Db, fileId: string, size: int, chunkSize: int, rows: seq<ChunkRow>, q: seq<ChunkRow>, content: seq<T>)
    requires IsPlanFor(fileId, size, chunkSize, rows) && rows != [] && HoldsRows(db, fileId, rows)
    requires IsChunkListing(db, fileId, q) && |content| == size
    ensures var sizes := seq(|q|, i requires 0 <= i < |q| => q[i].chunk.size);
            && IsPartition(sizes, size, chunkSize)
            && (forall i :: 0 <= i < |q| ==> q[i].chunk.index == i)
            && |Split(content, sizes)| == |q|
            && Join(Split(content, sizes)) == content
  {
    ListingIsRows(db, fileId, rows, q);
    PlanPartitionsExactly(size, chunkSize);
    var sizes := seq(|q|, i requires 0 <= i < |q| => q[i].chunk.size);
    PlanSizes(fileId, size, chunkSize, rows, sizes);
    SplitJoin(content, sizes);
  }

  lemma PlanSizes(fileId: string, size: int, chunkSize: int, rows: seq<ChunkRow>, sizes: seq<int>)
    requires IsPlanFor(fileId, size, chunkSize, rows)
    requires |sizes| == |rows| && forall i :: 0 <= i < |rows| ==> sizes[i] == rows[i].chunk.size
    ensures sizes == Sizes(size, chunkSize)
  {
  }
}
