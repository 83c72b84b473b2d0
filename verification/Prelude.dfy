/** Small helpers shared by every component. */
module Prelude {

  datatype Option<+T> = None | Some(value: T)

  /** The store key of a device with nobody signed in (apps/driver/lib/actionQueue.ts:230). */
  const ANONYMOUS := "anonymous"

  /** `p` occurs in `s`, starting at index `i`. */
  predicate OccursAt<T(==)>(s: seq<T>, p: seq<T>, i: int) {
    0 <= i <= |s| - |p| && s[i..i + |p|] == p
  }

  /** `p` occurs somewhere in `s`. */
  predicate Contains<T(==)>(s: seq<T>, p: seq<T>) {
    exists i | 0 <= i <= |s| :: OccursAt(s, p, i)
  }

  lemma ConcatAssociative<T>(a: seq<T>, b: seq<T>, c: seq<T>)
    ensures (a + b) + c == a + (b + c)
  {
  }
}
