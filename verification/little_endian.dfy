/** The byte-level layouts of the sandboxed RNG entry point: the 4-byte
    entropy draw read with `u32::from_le_bytes`, and the output buffer made of
    a little-endian `u32` length followed by the payload. */
module LittleEndian {
  import opened Base

  /** Exactly four bytes, the size of the entropy draw and of the length prefix. */
  type Word4 = s: seq<u8> | |s| == 4 witness [0, 0, 0, 0]

  /** `u32::from_le_bytes`: the first byte is the least significant. */
  function FromLe(b: Word4): (n: u32)
  {
    b[0] as int + 256 * (b[1] as int) + 65536 * (b[2] as int) + 16777216 * (b[3] as int)
  }

  /** `u32::to_le_bytes`, how a `u32` store lays out in little-endian memory. */
  function ToLe(n: u32): (b: Word4)
  {
    [n % 256, n / 256 % 256, n / 65536 % 256, n / 16777216]
  }

  lemma ToLeFromLe(n: u32)
    ensures FromLe(ToLe(n)) == n
  {
  }

  lemma FromLeToLe(b: Word4)
    ensures ToLe(FromLe(b)) == b
  {
    var n := FromLe(b);
    var q1 := b[1] as int + 256 * (b[2] as int) + 65536 * (b[3] as int);
    var q2 := b[2] as int + 256 * (b[3] as int);
    DivMod256(n, b[0], q1);
    DivMod256(q1, b[1], q2);
    DivMod256(q2, b[2], b[3]);
    assert n / 65536 == q1 / 256 by { DivDiv256(n, 256); }
    assert n / 16777216 == q2 / 256 by { DivDiv256(n, 65536); }
  }

  /** Division by 256 is determined by any quotient/remainder pair. */
  lemma DivMod256(n: int, a: int, q: int)
    requires 0 <= a < 256 && n == a + 256 * q
    ensures n % 256 == a && n / 256 == q
  {
  }

  lemma DivDiv256(n: nat, a: nat)
    requires a == 256 || a == 65536
    ensures n / a / 256 == n / (a * 256)
  {
  }

  /** The output buffer: `len` (the payload length cast `as u32`, so taken
      modulo 2^32) written little-endian, then the payload bytes. */
  function Frame(payload: seq<u8>): (buf: seq<u8>)
    ensures |buf| == 4 + |payload|
    ensures buf[4..] == payload
  {
    ToLe(|payload| % U32_LIMIT) + payload
  }

  /** What a consumer of the buffer does: read the 4-byte length, then that
      many bytes. `None` when the buffer is shorter than it claims. */
  function Unframe(buf: seq<u8>): (r: Option<seq<u8>>)
    ensures r.Some? ==> 4 <= |buf| && |r.value| == FromLe(buf[..4])
  {
    if |buf| < 4 then None
    else
      var len := FromLe(buf[..4]);
      if |buf| - 4 < len then None else Some(buf[4..4 + len])
  }

  /** Reading back a buffer returns exactly the payload that was framed,
      provided the payload's length fits the `u32` prefix. */
  lemma UnframeFrame(payload: seq<u8>)
    requires |payload| < U32_LIMIT
    ensures Unframe(Frame(payload)) == Some(payload)
  {
    var buf := Frame(payload);
    assert buf[..4] == ToLe(|payload|);
    ToLeFromLe(|payload|);
    assert buf[4..4 + |payload|] == payload;
  }
}
