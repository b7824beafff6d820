/** Machine integer widths, an optional value and a substring relation,
    shared by the range-bounded RNG and the coin-flip contract. */
module Base {

  const U32_LIMIT: int := 0x1_0000_0000
  const U32_MAX: int := 0xFFFF_FFFF

  /** Rust's `u8`, `u32`, `u64` and `u128`, as ranges of the unbounded integers. */
  type u8 = x: int | 0 <= x < 0x100
  type u32 = x: int | 0 <= x < 0x1_0000_0000
  type u64 = x: int | 0 <= x < 0x1_0000_0000_0000_0000
  type u128 = x: int | 0 <= x < 0x1_0000_0000_0000_0000_0000_0000_0000_0000

  /** `a + b` on `u32` with overflow checks off: the sum modulo 2^32. */
  function WrappingAdd(a: u32, b: u32): (r: u32)
    ensures a + b < U32_LIMIT ==> r == a + b
    ensures a + b >= U32_LIMIT ==> r == a + b - U32_LIMIT
  {
    (a + b) % U32_LIMIT
  }

  /** Rust's `Option`, usable with `:-`. */
  datatype Option<+T> = None | Some(value: T) {
    predicate IsFailure() {
      None?
    }

    function PropagateFailure<U>(): Option<U>
      requires None?
    {
      None
    }

    function Extract(): T
      requires Some?
    {
      value
    }
  }

  /** `w` occurs in `s` starting at index `i`. */
  predicate OccursAt<T(==)>(s: seq<T>, w: seq<T>, i: nat) {
    i + |w| <= |s| && s[i..i + |w|] == w
  }

  /** `w` occurs as a contiguous piece of `s` (Rust's `str::contains`). */
  predicate Contains<T(==)>(s: seq<T>, w: seq<T>) {
    exists i: nat | i <= |s| :: OccursAt(s, w, i)
  }

  lemma ContainsMiddle<T>(p: seq<T>, w: seq<T>, q: seq<T>)
    ensures Contains(p + w + q, w)
  {
    var s := p + w + q;
    assert s[|p|..|p| + |w|] == w;
    assert OccursAt(s, w, |p|);
  }
}
