/**
 * Two places where the bounded writers of Stringy.c do not keep inside the
 * buffer they are given: what the code as written does, an input that shows
 * it, and the property the corrected definitions used by the rest of the
 * model keep for every input.
 */
module Findings {
  import opened CString
  import opened BufferSpec
  import opened Stringy

  /** Where str_cat as written puts its terminator, for an old string of
      `n` elements, a source of `m` elements and a buffer of `size`
      elements. The first loop stops after min(n, size - 1) steps, with the
      count at size - 1 minus that; the `--size` of the second loop then
      takes the count to count - 1, or round to SIZE_MAX when it was 0, and
      the second loop copies that many source elements at most. */
  function CatEnd(n: nat, m: nat, size: nat): (r: nat)
    requires 1 <= size
    ensures Min(n, size - 1) <= r <= n + m
  {
    var t := Min(n, size - 1);
    t + Min(m, Dec(size - 1 - t))
  }

  /** Where the old string leaves room, the terminator lands where the
      model of str_cat puts it, inside the buffer. */
  lemma {:induction false} CatEndInside(d: seq<int>, s: seq<int>, size: nat)
    requires 1 <= size <= |d| && Terminated(d, 0) && NoNul(s)
    requires Len(d, 0) + 2 <= size
    ensures var r := CatResult(d, Some(s), size);
      Terminated(r, 0) && CatEnd(Len(d, 0), |s|, size) == Len(r, 0) < size
  {
    CatStr(d, s, size);
  }

  /** When the old string already takes size - 1 elements or more, any
      non-empty source is copied whole from index size - 1 on, so the
      terminator lands at or beyond `size`. */
  lemma {:induction false} CatEndOutside(n: nat, m: nat, size: nat)
    requires 1 <= size && size <= n + 1 && 0 < m <= SIZE_MAX
    ensures CatEnd(n, m, size) == size - 1 + m >= size
  {
  }

  /** "abc" in a buffer of 4 elements, with "x" appended: the 'x' goes
      over the terminator at index 3 and the new terminator to index 4,
      outside the buffer. */
  lemma CatOverrunExample()
    ensures CatEnd(3, 1, 4) == 4
  {
  }

  /** The corrected str_cat of the model keeps the buffer a string that
      ends before `size` for every input, and writes nothing at or above
      `size`. */
  lemma {:induction false} CatStaysInside(d: seq<int>, src: Option<seq<int>>, size: nat)
    requires 1 <= size <= |d| && Terminated(d, 0)
    requires src.Some? ==> NoNul(src.value)
    ensures var r := CatResult(d, src, size);
      |r| == |d| && Terminated(r, 0) && Len(r, 0) < size && r[size..] == d[size..]
  {
    var r := CatResult(d, src, size);
    if src.None? {
      CatNullSource(d, size);
    } else if Len(d, 0) + 2 <= size {
      CatContent(d, src.value, size);
    } else {
      assert r[size - 1] == 0;
      assert Len(r, 0) <= size - 1;
    }
  }

  /** What the three staging loops of str_ins write from the start of the
      staging buffer, whatever its size: the insertion and a terminator. */
  function StagingWrites(t: seq<int>, s: seq<int>, pos: nat): (r: seq<int>)
    ensures |r| == |t| + |s| + 1 && r[|t| + |s|] == 0
  {
    Inserted(t, s, pos) + [0]
  }

  /** The staging writes stay inside a buffer of `size` elements exactly
      when the old string and the source together are shorter than `size`;
      the destination itself only has to hold the old string. */
  lemma {:induction false} StagingFits(t: seq<int>, s: seq<int>, pos: nat, size: nat)
    ensures |StagingWrites(t, s, pos)| <= size <==> |t| + |s| < size
  {
  }

  /** "ABC" in a buffer of 4 elements, with "XY" inserted at 1: the staging
      writes "AXYBC" and its terminator, 6 elements, into 4. */
  lemma StagingOverrunExample()
    ensures var t := ['A' as int, 'B' as int, 'C' as int]; var s := ['X' as int, 'Y' as int];
      |t| < 4 && StagingWrites(t, s, 1) == ['A' as int, 'X' as int, 'Y' as int, 'B' as int, 'C' as int, 0] &&
      |StagingWrites(t, s, 1)| > 4
  {
    var t := ['A' as int, 'B' as int, 'C' as int];
    var s := ['X' as int, 'Y' as int];
    InsertedSplits(t, s, 1);
  }
}
