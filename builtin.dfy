/** Go's fixed-width integers and its `error` values. */
module Builtin {

  const TWO_TO_THE_64: int := 0x1_0000_0000_0000_0000
  const TWO_TO_THE_63: int := 0x8000_0000_0000_0000

  newtype uint64 = x: int | 0 <= x < TWO_TO_THE_64

  newtype int64 = x: int | -TWO_TO_THE_63 <= x < TWO_TO_THE_63

  /** An `error` is known to this model only by the text of its `Error()` method. */
  datatype Error = Error(Message: string)

  /** `sub` occurs in `s` starting at index `i`. */
  predicate OccursAt(s: string, sub: string, i: int) {
    0 <= i <= |s| - |sub| && s[i..i + |sub|] == sub
  }

  /** `strings.Contains`. */
  ghost predicate Contains(s: string, sub: string) {
    exists i :: OccursAt(s, sub, i)
  }
}

/** The part of package `time` the cache type uses: durations are copied, never computed with. */
module Time {
  import opened Builtin

  /** `time.Duration`, a count of nanoseconds. */
  type Duration = int64

  const Second: Duration := 1_000_000_000
}
