/** Small shared vocabulary: an optional value (used where the engine would fire
    an assertion), the inclusive index range the engine calls a `Segment`, and
    C++'s truncating remainder. */
module Common {

  /** `None` stands for "the engine's `assert` fires here". */
  datatype Option<+T> = None | Some(value: T)

  /** A closed range of enumerator values `first ..= last`. */
  datatype Segment = Segment(first: int, last: int) {

    predicate Contains(x: int) {
      first <= x <= last
    }

    /** Number of values in the range (zero when it is inverted). */
    function Size(): (n: nat)
      ensures n > 0 <==> first <= last
      ensures first <= last ==> n == last - first + 1
    {
      if first <= last then last - first + 1 else 0
    }

    /** Every member of this range is a member of `outer`. */
    predicate Within(outer: Segment) {
      first <= last ==> outer.first <= first && last <= outer.last
    }
  }

  /** C++ `a % b` for `b > 0`: the sign of the result follows the dividend. */
  function CRem(a: int, b: int): (r: int)
    requires b > 0
    ensures a >= 0 ==> 0 <= r < b
    ensures a < 0 ==> -b < r <= 0
    ensures a >= 0 ==> r == a % b
  {
    if a >= 0 then a % b else -((-a) % b)
  }

}
