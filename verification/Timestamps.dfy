/** The 64-bit timestamps of the calculator framework: the special values, the clamped
    addition and the successor and predecessor that streams use. */
module Timestamps {

  /** A timestamp is one int64. The verifier checks that no operation below leaves that range. */
  newtype Timestamp = x: int | -0x8000_0000_0000_0000 <= x <= 0x7fff_ffff_ffff_ffff

  const UNSET: Timestamp := -0x8000_0000_0000_0000
  const UNSTARTED: Timestamp := UNSET + 1
  const PRE_STREAM: Timestamp := UNSET + 2
  const MIN: Timestamp := UNSET + 3
  const MAX: Timestamp := DONE - 3
  const POST_STREAM: Timestamp := DONE - 2
  const ONE_OVER_POST_STREAM: Timestamp := DONE - 1
  const DONE: Timestamp := 0x7fff_ffff_ffff_ffff

  predicate IsRangeValue(t: Timestamp) {
    MIN <= t <= MAX
  }

  /** The timestamps a packet in a stream may carry. */
  predicate IsAllowedInStream(t: Timestamp) {
    PRE_STREAM <= t <= POST_STREAM
  }

  function Least(a: Timestamp, b: Timestamp): Timestamp {
    if b < a then b else a
  }

  function Greatest(a: Timestamp, b: Timestamp): Timestamp {
    if a < b then b else a
  }

  /** The nearest range value to an unbounded integer. */
  function Clamp(x: int): int {
    if x < MIN as int then MIN as int else if x > MAX as int then MAX as int else x
  }

  /** Adds an offset to a range value. Each intermediate difference stays in 64 bits, and the
      result is the exact sum brought back into the range. */
  function Plus(t: Timestamp, offset: Timestamp): (r: Timestamp)
    requires IsRangeValue(t)
    ensures r as int == Clamp(t as int + offset as int)
  {
    if offset >= 0 && t >= MAX - offset then MAX
    else if offset <= 0 && t <= MIN - offset then MIN
    else t + offset
  }

  /** The next timestamp a stream may carry after `t`. After a packet at PRE_STREAM nothing may
      follow, so the result is then above every timestamp a packet may carry. */
  function NextAllowedInStream(t: Timestamp): (r: Timestamp)
    ensures IsAllowedInStream(t) ==> t < r
    ensures t == PRE_STREAM ==> r > POST_STREAM
  {
    if t >= MAX || t == PRE_STREAM then ONE_OVER_POST_STREAM
    else if t < MIN then MIN
    else Plus(t, 1)
  }

  /** The last timestamp settled below the bound `t`. */
  function PreviousAllowedInStream(t: Timestamp): (r: Timestamp)
    ensures t > UNSTARTED ==> UNSTARTED <= r < t
    ensures MIN < t <= MAX ==> NextAllowedInStream(r) == t
  {
    if t <= MIN || t == POST_STREAM then UNSTARTED
    else if t > MAX then MAX
    else Plus(t, -1)
  }

  /** A range value lies strictly after `t` exactly when it is at least the next allowed timestamp. */
  lemma {:induction false} NextIsLeastFollower(t: Timestamp)
    ensures (forall p :: IsRangeValue(p) ==> (t < p <==> NextAllowedInStream(t) <= p)) <==> t != PRE_STREAM
  {
    if t == PRE_STREAM {
      assert IsRangeValue(MIN) && t < MIN && !(NextAllowedInStream(t) <= MIN);
    }
  }

  /** `PreviousAllowedInStream(b)` is the highest range value settled by the bound `b` for every
      bound except POST_STREAM, whose predecessors the function omits. */
  lemma {:induction false} PreviousSettlesUnlessPostStream(b: Timestamp)
    ensures (forall p :: IsRangeValue(p) ==> (p < b <==> p <= PreviousAllowedInStream(b))) <==> b != POST_STREAM
  {
    if b == POST_STREAM {
      assert IsRangeValue(MIN) && MIN < b && !(MIN <= PreviousAllowedInStream(b));
    }
  }

  /** Successor and predecessor undo each other on every range value, and only one step beyond it. */
  lemma {:induction false} NextAndPreviousAreInverse(t: Timestamp)
    ensures NextAllowedInStream(PreviousAllowedInStream(t)) == t <==> IsRangeValue(t) || t == ONE_OVER_POST_STREAM
    ensures PreviousAllowedInStream(NextAllowedInStream(t)) == t <==> IsRangeValue(t) || t == UNSTARTED
  {}

  /** Clamping loses the group law: adding an offset and then its negation returns to `t` exactly
      when the exact sum stayed inside the range. */
  lemma {:induction false} PlusUndoneIffUnclamped(t: Timestamp, offset: Timestamp)
    requires IsRangeValue(t) && offset != UNSET
    ensures Plus(Plus(t, offset), -offset) == t <==> MIN as int <= t as int + offset as int <= MAX as int
  {}
}
