/** The sandboxed range-bounded RNG entry point `execute`: parse the
    `{min, max}` request, draw four bytes of entropy, reduce the draw into the
    inclusive range, serialise `{random_number}` and hand it back in a
    length-prefixed buffer, with a negative status code for each failure.

    The host-dependent steps (the JSON parser's verdict, the entropy source,
    the serialiser and the allocator) are inputs to a pure pipeline. */
module Rng {
  import opened Base
  import opened LittleEndian
  import opened Json

  /** The failures `execute` reports, in the order it checks for them. */
  datatype ExecError = ParseFailed | EntropyFailed | SerializeFailed | AllocFailed

  /** The negative status code returned for each failure. */
  function StatusCode(e: ExecError): (code: int)
    ensures -4 <= code <= -1
  {
    match e
    case ParseFailed => -1
    case EntropyFailed => -2
    case SerializeFailed => -3
    case AllocFailed => -4
  }

  /** Distinct failures are told apart by their codes. */
  lemma StatusCodeInjective(e1: ExecError, e2: ExecError)
    ensures StatusCode(e1) == StatusCode(e2) <==> e1 == e2
  {
  }

  /** What the host-side steps of one call produce: the four entropy bytes
      (`None` when `getrandom` fails), whether `serde_json::to_string` fails,
      and whether `std::alloc::alloc` returns null. */
  datatype Host = Host(entropy: Option<Word4>, serializeFails: bool, allocFails: bool)

  /** The outcome of `execute`: a negative status code, a pointer to the
      output buffer (modelled by the buffer's contents), or a panic, which
      aborts the WebAssembly instance instead of returning. */
  datatype ExecResult = Status(code: int) | Buffer(bytes: seq<u8>) | Trap

  /** The reduction as written, on `u32`: `max - min + 1` is a `u32` sum, so
      for `min == 0, max == u32::MAX` it wraps to 0 (with overflow checks on,
      the addition itself panics) and the remainder divides by zero. */
  datatype Reduced = Value(n: u32) | DivideByZero

  function Reduce(min: u32, max: u32, random: u32): (res: Reduced)
    ensures res.DivideByZero? <==> min == 0 && max == U32_MAX
    ensures max <= min ==> res == Value(min)
    ensures max > min && res.Value? ==> min <= res.n <= max
  {
    if max > min then
      var span := WrappingAdd(max - min, 1);
      if span == 0 then DivideByZero else Value(min + random % span)
    else
      Value(min)
  }

  /** The reduction as evidently intended: the span computed without
      wrapping, so that every range, the full `u32` range included, yields a
      number in it. */
  function ReduceWide(min: u32, max: u32, random: u32): (n: u32)
    ensures max > min ==> min <= n <= max
    ensures max <= min ==> n == min
  {
    if max > min then min + random % (max - min + 1) else min
  }

  /** The full `u32` range makes the written reduction divide by zero for
      every entropy draw, although the intended result is the draw itself. */
  lemma FullRangeTraps(random: u32)
    ensures Reduce(0, U32_MAX, random) == DivideByZero
    ensures ReduceWide(0, U32_MAX, random) == random
  {
  }

  /** Wherever the written reduction does not trap, it computes the intended
      value. */
  lemma ReduceAgreesWithWide(min: u32, max: u32, random: u32)
    requires Reduce(min, max, random).Value?
    ensures Reduce(min, max, random).n == ReduceWide(min, max, random)
  {
  }

  /** Every number of a non-trapping range is reached by some entropy draw:
      the one equal to its offset from `min`. */
  lemma ReduceOnto(min: u32, max: u32, v: u32)
    requires min <= v <= max
    requires !(min == 0 && max == U32_MAX)
    ensures Reduce(min, max, v - min) == Value(v)
  {
  }

  /** The two-bucket range the coin flip asks for yields the draw's parity. */
  lemma ReduceCoin(random: u32)
    ensures Reduce(0, 1, random) == Value(random % 2)
  {
  }

  /** The payload bytes of the buffer for a result. */
  function OutputBytes(n: u32): (b: seq<u8>)
    ensures |b| <= 28
    ensures AsciiText(b) == PrintOutput(RangeOutput(n))
  {
    var json := PrintOutput(RangeOutput(n));
    PrintOutputAscii(RangeOutput(n));
    PrintOutputShort(RangeOutput(n));
    AsciiRoundTrip(json);
    AsciiBytes(json)
  }

  /** `execute`, with `parsed` the verdict of `serde_json::from_slice` on the
      input buffer. */
  function Execute(parsed: Option<RangeInput>, host: Host): (res: ExecResult)
    ensures parsed.None? ==> res == Status(StatusCode(ParseFailed))
    ensures parsed.Some? && host.entropy.None? ==> res == Status(StatusCode(EntropyFailed))
    ensures res.Trap? <==>
      parsed.Some? && host.entropy.Some? && parsed.value.min == 0 && parsed.value.max == U32_MAX
    ensures (parsed.Some? && host.entropy.Some? && !res.Trap? && host.serializeFails) ==>
      res == Status(StatusCode(SerializeFailed))
    ensures (parsed.Some? && host.entropy.Some? && !res.Trap? && !host.serializeFails && host.allocFails) ==>
      res == Status(StatusCode(AllocFailed))
    ensures res.Status? ==> exists e :: res.code == StatusCode(e)
    ensures res.Buffer? <==>
      parsed.Some? && host.entropy.Some? && !res.Trap? && !host.serializeFails && !host.allocFails
  {
    match parsed
    case None => Status(StatusCode(ParseFailed))
    case Some(input) =>
      match host.entropy
      case None => Status(StatusCode(EntropyFailed))
      case Some(bytes) =>
        match Reduce(input.min, input.max, FromLe(bytes))
        case DivideByZero => Trap
        case Value(n) =>
          if host.serializeFails then Status(StatusCode(SerializeFailed))
          else if host.allocFails then Status(StatusCode(AllocFailed))
          else Buffer(Frame(OutputBytes(n)))
  }

  /** What the caller of `execute` does with a returned buffer: read the
      length prefix, take that many bytes, and parse them as a response. */
  function ReadBuffer(buf: seq<u8>): Option<u32> {
    var payload :- Unframe(buf);
    var out :- ParseOutput(AsciiText(payload));
    Some(out.random_number)
  }

  /** A returned buffer is `4 + len` bytes, starts with `len` and decodes to
      the reduced draw, which lies in the requested range (or is `min` for an
      empty or inverted range). */
  lemma ExecuteBuffer(input: RangeInput, host: Host)
    requires Execute(Some(input), host).Buffer?
    ensures var buf := Execute(Some(input), host).bytes;
      && |buf| == 4 + FromLe(buf[..4])
      && ReadBuffer(buf) == Some(ReduceWide(input.min, input.max, FromLe(host.entropy.value)))
      && ReadBuffer(buf) == Some(Reduce(input.min, input.max, FromLe(host.entropy.value)).n)
  {
    var random := FromLe(host.entropy.value);
    var n := Reduce(input.min, input.max, random).n;
    ReduceAgreesWithWide(input.min, input.max, random);
    var payload := OutputBytes(n);
    var buf := Frame(payload);
    UnframeFrame(payload);
    assert buf[..4] == ToLe(|payload|);
    ToLeFromLe(|payload|);
    ParseOutputPrint(RangeOutput(n));
  }

  /** Failures are reported in the order of the checks: a parse failure
      wins over everything, an entropy failure over everything after it. */
  lemma FailureOrder(parsed: Option<RangeInput>, h1: Host, h2: Host)
    ensures parsed.None? ==> Execute(parsed, h1) == Execute(parsed, h2)
    ensures parsed.Some? && h1.entropy.None? && h2.entropy.None? ==>
      Execute(parsed, h1) == Execute(parsed, h2)
    ensures (parsed.Some? && h1.entropy.Some? && h1.entropy == h2.entropy
             && !Execute(parsed, h1).Trap? && h1.serializeFails && h2.serializeFails) ==>
      Execute(parsed, h1) == Execute(parsed, h2)
  {
  }

  /** A degenerate range `{3, 3}` yields 3 whatever the entropy. */
  lemma DegenerateRange(bytes: Word4)
    ensures ReadBuffer(Execute(Some(RangeInput(3, 3)), Host(Some(bytes), false, false)).bytes) == Some(3)
  {
    ExecuteBuffer(RangeInput(3, 3), Host(Some(bytes), false, false));
  }
}
