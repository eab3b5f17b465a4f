/**
 * How StartConcurrentDownload (manager/download.go:172-241) splits the content into
 * byte ranges: the loop counts i down from the connection count to 1; every range but
 * the last takes the remaining length divided by i, the last takes what remains.
 */
module RangePlan {
  import opened Common

  /** An inclusive byte range [start, end]; it is empty when end == start - 1. */
  datatype ByteRange = ByteRange(start: int, end: int)

  function Size(r: ByteRange): int
  {
    r.end - r.start + 1
  }

  predicate Contains(r: ByteRange, b: int)
  {
    r.start <= b <= r.end
  }

  /** Go's `/` on integers, which truncates toward zero (Dafny's rounds down). */
  function GoDiv(a: int, b: int): (q: int)
    requires b > 0
    ensures a >= 0 ==> 0 <= q <= a
    ensures a <= 0 ==> a <= q <= 0
  {
    if a >= 0 then DivBounds(a, b); a / b else DivBounds(-a, b); -((-a) / b)
  }

  lemma DivBounds(a: int, b: int)
    requires a >= 0 && b > 0
    ensures 0 <= a / b <= a
  {
    var q := a / b;
    var r := a % b;
    assert a == b * q + r && 0 <= r < b;
    MulAtLeast(b, q);
  }

  /** b * q >= q for b >= 1 and q >= 0. */
  lemma {:induction false} MulAtLeast(b: int, q: int)
    requires b >= 1 && q >= 0
    ensures b * q >= q
    decreases b
  {
    if b > 1 {
      MulAtLeast(b - 1, q);
      assert b * q == (b - 1) * q + q;
    }
  }

  /** The bytes requested at loop index i when `remaining` bytes are still unassigned. */
  function BytesToGet(remaining: int, i: int): int
    requires i > 0
  {
    if i != 1 then GoDiv(remaining, i) else remaining
  }

  /** The ranges the loop issues from loop index i down to 1, starting at byte `start`. */
  function PlanFrom(start: int, remaining: int, i: nat): (rs: seq<ByteRange>)
    ensures |rs| == i
    decreases i
  {
    if i == 0 then []
    else
      var size := BytesToGet(remaining, i);
      [ByteRange(start, start + (size - 1))] + PlanFrom(start + size, remaining - size, i - 1)
  }

  /** All ranges for a content length and a connection count (no iteration when n < 1). */
  function Plan(contentLength: int, n: int): seq<ByteRange>
  {
    if n <= 0 then [] else PlanFrom(0, contentLength, n)
  }

  /** The value of the Range header sent for a range. */
  function RangeHeader(r: ByteRange): string
  {
    "bytes=" + Itoa(r.start) + "-" + Itoa(r.end)
  }

  /** Sum of the sizes of a list of ranges. */
  function TotalSize(rs: seq<ByteRange>): int
  {
    if rs == [] then 0 else Size(rs[0]) + TotalSize(rs[1..])
  }

  /** Each range begins right after the previous one ends. */
  ghost predicate Contiguous(rs: seq<ByteRange>)
  {
    forall k :: 0 <= k < |rs| - 1 ==> rs[k + 1].start == rs[k].end + 1
  }

  /** No range runs backwards (an empty range is allowed). */
  ghost predicate NonNegative(rs: seq<ByteRange>)
  {
    forall k :: 0 <= k < |rs| ==> Size(rs[k]) >= 0
  }

  /** One step of the loop: the first range, then the ranges of loop index i - 1. */
  lemma PlanFromStep(start: int, remaining: int, i: nat)
    requires remaining >= 0 && i >= 1
    ensures var size := BytesToGet(remaining, i);
      var rs := PlanFrom(start, remaining, i);
      var rest := PlanFrom(start + size, remaining - size, i - 1);
      && 0 <= size <= remaining
      && (i > 1 ==> size == remaining / i)
      && rs[0] == ByteRange(start, start + (size - 1))
      && rs[1..] == rest
      && (forall k :: 0 < k < i ==> rs[k] == rest[k - 1])
  {
  }

  /**
   * One iteration of the loop: when `requested` followed by the ranges of loop
   * index i make up `plan`, so do `requested` with the next range and the ranges
   * of loop index i - 1.
   */
  lemma PlanAdvance(plan: seq<ByteRange>, requested: seq<ByteRange>, start: int, remaining: int, i: nat)
    requires i >= 1 && plan == requested + PlanFrom(start, remaining, i)
    ensures var size := BytesToGet(remaining, i);
      plan == (requested + [ByteRange(start, start + (size - 1))]) + PlanFrom(start + size, remaining - size, i - 1)
  {
    var size := BytesToGet(remaining, i);
    var rest := PlanFrom(start + size, remaining - size, i - 1);
    assert PlanFrom(start, remaining, i) == [ByteRange(start, start + (size - 1))] + rest;
  }

  /** The loop's ranges run from `start` to the last remaining byte. */
  lemma {:induction false} PlanFromEnds(start: int, remaining: int, i: nat)
    requires remaining >= 0 && i >= 1
    ensures var rs := PlanFrom(start, remaining, i);
      && rs[0].start == start
      && rs[i - 1].end == start + remaining - 1
    decreases i
  {
    PlanFromStep(start, remaining, i);
    if i > 1 {
      var size := BytesToGet(remaining, i);
      PlanFromEnds(start + size, remaining - size, i - 1);
    }
  }

  /** Each of the loop's ranges begins right after the previous one ends. */
  lemma {:induction false} PlanFromContiguous(start: int, remaining: int, i: nat)
    requires remaining >= 0 && i >= 1
    ensures Contiguous(PlanFrom(start, remaining, i))
    decreases i
  {
    var rs := PlanFrom(start, remaining, i);
    PlanFromStep(start, remaining, i);
    if i > 1 {
      var size := BytesToGet(remaining, i);
      var rest := PlanFrom(start + size, remaining - size, i - 1);
      PlanFromEnds(start + size, remaining - size, i - 1);
      PlanFromContiguous(start + size, remaining - size, i - 1);
      forall k | 0 <= k < i - 1
        ensures rs[k + 1].start == rs[k].end + 1
      {
        assert rs[k + 1] == rest[k];
        if k > 0 {
          assert rs[k] == rest[k - 1];
          assert rest[k].start == rest[k - 1].end + 1;
        }
      }
    }
  }

  /** None of the loop's ranges runs backwards. */
  lemma {:induction false} PlanFromNonNegative(start: int, remaining: int, i: nat)
    requires remaining >= 0 && i >= 1
    ensures NonNegative(PlanFrom(start, remaining, i))
    decreases i
  {
    var rs := PlanFrom(start, remaining, i);
    PlanFromStep(start, remaining, i);
    if i > 1 {
      var size := BytesToGet(remaining, i);
      var rest := PlanFrom(start + size, remaining - size, i - 1);
      PlanFromNonNegative(start + size, remaining - size, i - 1);
      forall k | 0 < k < i
        ensures Size(rs[k]) >= 0
      {
        assert rs[k] == rest[k - 1];
      }
    }
  }

  /** The sizes of the loop's ranges add up to the remainder. */
  lemma {:induction false} PlanFromTotal(start: int, remaining: int, i: nat)
    requires remaining >= 0 && i >= 1
    ensures TotalSize(PlanFrom(start, remaining, i)) == remaining
    decreases i
  {
    PlanFromStep(start, remaining, i);
    var size := BytesToGet(remaining, i);
    if i > 1 {
      PlanFromTotal(start + size, remaining - size, i - 1);
    } else {
      assert PlanFrom(start + size, remaining - size, 0) == [];
    }
  }

  /**
   * With a non-negative remainder, the loop's ranges start at `start`, follow one
   * another without gap or overlap, never run backwards, end at the last remaining
   * byte and so add up to the remainder.
   */
  lemma PlanFromShape(start: int, remaining: int, i: nat)
    requires remaining >= 0 && i >= 1
    ensures var rs := PlanFrom(start, remaining, i);
      && rs[0].start == start
      && rs[i - 1].end == start + remaining - 1
      && Contiguous(rs)
      && NonNegative(rs)
      && TotalSize(rs) == remaining
  {
    PlanFromEnds(start, remaining, i);
    PlanFromContiguous(start, remaining, i);
    PlanFromNonNegative(start, remaining, i);
    PlanFromTotal(start, remaining, i);
  }

  /** Every range but the last has size floor(bytes still unassigned / loop index). */
  lemma PlanFromSizes(start: int, remaining: int, i: nat)
    requires remaining >= 0 && i >= 1
    ensures var rs := PlanFrom(start, remaining, i);
      forall k :: 0 <= k < i - 1 ==> Size(rs[k]) == (start + remaining - rs[k].start) / (i - k)
  {
    forall k | 0 <= k < i - 1
      ensures Size(PlanFrom(start, remaining, i)[k])
        == (start + remaining - PlanFrom(start, remaining, i)[k].start) / (i - k)
    {
      PlanFromSizeAt(start, remaining, i, k);
    }
  }

  /** The size of the range issued k iterations after loop index i, for k < i - 1. */
  lemma {:induction false} PlanFromSizeAt(start: int, remaining: int, i: nat, k: nat)
    requires remaining >= 0 && k < i - 1
    ensures var r := PlanFrom(start, remaining, i)[k];
      Size(r) == (start + remaining - r.start) / (i - k)
    decreases k
  {
    var size := BytesToGet(remaining, i);
    PlanFromStep(start, remaining, i);
    if k > 0 {
      var rest := PlanFrom(start + size, remaining - size, i - 1);
      PlanFromSizeAt(start + size, remaining - size, i - 1, k - 1);
      var r := rest[k - 1];
      assert PlanFrom(start, remaining, i)[k] == r;
      var e := start + remaining;
      assert (start + size) + (remaining - size) == e;
      assert (i - 1) - (k - 1) == i - k;
      assert Size(r) == (e - r.start) / (i - k);
    }
  }

  /**
   * For a known length L and n >= 1 connections: n ranges, the first starting at 0,
   * the last ending at L - 1, contiguous, sizes adding up to L.
   */
  lemma PlanTiles(contentLength: int, n: int)
    requires contentLength >= 0 && n >= 1
    ensures var rs := Plan(contentLength, n);
      && |rs| == n
      && rs[0].start == 0
      && rs[n - 1].end == contentLength - 1
      && Contiguous(rs)
      && NonNegative(rs)
      && TotalSize(rs) == contentLength
  {
    PlanFromShape(0, contentLength, n);
  }

  /** Some range of `rs` holds byte b. */
  ghost predicate Covered(rs: seq<ByteRange>, b: int)
  {
    exists k :: 0 <= k < |rs| && Contains(rs[k], b)
  }

  /** Dropping the first range keeps a list contiguous and non-negative. */
  lemma ContiguousTail(rs: seq<ByteRange>)
    requires |rs| >= 1 && Contiguous(rs) && NonNegative(rs)
    ensures Contiguous(rs[1..]) && NonNegative(rs[1..])
  {
    var rest := rs[1..];
    forall k | 0 <= k < |rest| - 1 ensures rest[k + 1].start == rest[k].end + 1 {
      assert rest[k] == rs[k + 1] && rest[k + 1] == rs[k + 2];
    }
    forall k | 0 <= k < |rest| ensures Size(rest[k]) >= 0 {
      assert rest[k] == rs[k + 1];
    }
  }

  /** Contiguous ranges that never run backwards end no earlier than one byte before they start. */
  lemma {:induction false} ContiguousSpan(rs: seq<ByteRange>)
    requires |rs| >= 1 && Contiguous(rs) && NonNegative(rs)
    ensures rs[0].start <= rs[|rs| - 1].end + 1
    decreases |rs|
  {
    assert Size(rs[0]) >= 0;
    if |rs| > 1 {
      ContiguousTail(rs);
      ContiguousSpan(rs[1..]);
      assert rs[1].start == rs[0].end + 1;
    }
  }

  /** Contiguous ranges that never run backwards partition the bytes from the first start to the last end. */
  lemma {:induction false} ContiguousPartition(rs: seq<ByteRange>)
    requires |rs| >= 1 && Contiguous(rs) && NonNegative(rs)
    ensures forall b :: Covered(rs, b) <==> rs[0].start <= b <= rs[|rs| - 1].end
    ensures forall j, k, b :: 0 <= j < k < |rs| && Contains(rs[j], b) ==> !Contains(rs[k], b)
    ensures rs[0].start <= rs[|rs| - 1].end + 1
  {
    if |rs| == 1 {
      forall b ensures Covered(rs, b) <==> rs[0].start <= b <= rs[0].end {
        if rs[0].start <= b <= rs[0].end {
          assert Contains(rs[0], b);
        }
      }
    } else {
      var rest := rs[1..];
      ContiguousTail(rs);
      ContiguousPartition(rest);
      assert rest[0].start == rs[0].end + 1;
      assert rest[|rest| - 1] == rs[|rs| - 1];
      forall b
        ensures Covered(rs, b) <==> rs[0].start <= b <= rs[|rs| - 1].end
      {
        if rs[0].start <= b <= rs[|rs| - 1].end {
          if b <= rs[0].end {
            assert Contains(rs[0], b);
          } else {
            assert Covered(rest, b);
            var k :| 0 <= k < |rest| && Contains(rest[k], b);
            assert rs[k + 1] == rest[k];
          }
        }
        if Covered(rs, b) {
          var k :| 0 <= k < |rs| && Contains(rs[k], b);
          if k > 0 {
            assert rs[k] == rest[k - 1];
            assert Covered(rest, b);
          }
        }
      }
      forall j, k, b | 0 <= j < k < |rs| && Contains(rs[j], b)
        ensures !Contains(rs[k], b)
      {
        assert rs[k] == rest[k - 1];
        if j > 0 {
          assert rs[j] == rest[j - 1];
        } else if Contains(rs[k], b) {
          assert Covered(rest, b);
          assert false;
        }
      }
    }
  }

  /**
   * The planner's partition property: for a known length and n >= 1 connections,
   * every byte of [0, L-1] lies in exactly one range and no range reaches outside it.
   */
  lemma PlanPartitionsContent(contentLength: int, n: int)
    requires contentLength >= 0 && n >= 1
    ensures var rs := Plan(contentLength, n);
      && (forall b :: Covered(rs, b) <==> 0 <= b < contentLength)
      && (forall j, k, b :: 0 <= j < k < n && Contains(rs[j], b) ==> !Contains(rs[k], b))
  {
    PlanTiles(contentLength, n);
    ContiguousPartition(Plan(contentLength, n));
  }

  /** 10,000 bytes over 4 connections. */
  lemma PlanTenThousandFour()
    ensures Plan(10000, 4) == [ByteRange(0, 2499), ByteRange(2500, 4999), ByteRange(5000, 7499), ByteRange(7500, 9999)]
  {
  }

  /** More connections than bytes: the first ranges are empty. */
  lemma PlanShortContent()
    ensures Plan(3, 4) == [ByteRange(0, -1), ByteRange(0, 0), ByteRange(1, 1), ByteRange(2, 2)]
  {
    assert GoDiv(3, 4) == 0 && GoDiv(3, 3) == 1 && GoDiv(2, 2) == 1;
    assert BytesToGet(3, 4) == 0 && BytesToGet(3, 3) == 1 && BytesToGet(2, 2) == 1 && BytesToGet(1, 1) == 1;
    assert PlanFrom(3, 0, 0) == [];
    assert PlanFrom(2, 1, 1) == [ByteRange(2, 2)];
    assert PlanFrom(1, 2, 2) == [ByteRange(1, 1), ByteRange(2, 2)];
    assert PlanFrom(0, 3, 3) == [ByteRange(0, 0), ByteRange(1, 1), ByteRange(2, 2)];
  }

  /**
   * The header for the empty first range of PlanShortContent reads "bytes=0--1",
   * a byte-range-spec that section 2.1 of RFC 7233 calls invalid.
   */
  lemma EmptyRangeHeader()
    ensures RangeHeader(ByteRange(0, -1)) == "bytes=0--1"
  {
    assert Itoa(-1) == "-1" && Itoa(0) == "0";
  }
}
