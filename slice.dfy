/** `Slice`: a half-open range [Start, End) of positions in source text. */
module Slices {
  import opened Int32

  datatype Slice = Slice(start: int32, end: int32)

  /** The default constructor: both ends at zero, so the range is empty. */
  function DefaultSlice(): (s: Slice)
    ensures s.start == 0 && s.end == 0
    ensures Length(s) == 0
  {
    Slice(0, 0)
  }

  /**
   * End - Start. Nothing orders the two ends, so the length is negative
   * exactly when End lies before Start.
   */
  function Length(s: Slice): (r: int)
    ensures s.start as int + r == s.end as int
    ensures r == 0 <==> s.start == s.end
    ensures r < 0 <==> s.end < s.start
  {
    s.end as int - s.start as int
  }

  /** `operator==`: both ends agree, which is exactly equality of the two ranges. */
  function Equal(a: Slice, b: Slice): (r: bool)
    ensures r <==> a == b
  {
    a.start == b.start && a.end == b.end
  }

  /** `operator!=`. */
  function NotEqual(a: Slice, b: Slice): (r: bool)
    ensures r <==> a != b
  {
    !Equal(a, b)
  }

  /** The two-argument constructor keeps both ends as given. */
  lemma CreateKeepsEnds(start: int32, end: int32)
    ensures Slice(start, end).start == start && Slice(start, end).end == end
    ensures Length(Slice(start, end)) == end as int - start as int
  {
  }

  lemma NotEqualNegatesEqual(a: Slice, b: Slice)
    ensures NotEqual(a, b) == !Equal(a, b)
  {
  }

  lemma EqualIsEquivalence(a: Slice, b: Slice, c: Slice)
    ensures Equal(a, a)
    ensures Equal(a, b) ==> Equal(b, a)
    ensures Equal(a, b) && Equal(b, c) ==> Equal(a, c)
  {
  }

  lemma EqualSlicesHaveEqualLength(a: Slice, b: Slice)
    requires Equal(a, b)
    ensures Length(a) == Length(b)
  {
  }
}
