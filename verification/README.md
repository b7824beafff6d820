# Coin flip over a remote range-bounded RNG, in Dafny

This project models the two pieces of decision logic in the random-ark
repository:

- **The range-bounded RNG** (`execute` in `src/lib.rs`). It runs inside a
  WebAssembly sandbox. It parses `{"min":A,"max":B}` and draws four entropy
  bytes, which it reads as a little-endian `u32`. It reduces the draw into the
  inclusive range, or returns `min` for an empty or inverted range. It
  serialises `{"random_number":N}` and returns a buffer that holds a 4-byte
  length followed by the JSON. Each failure gets its own negative status code:
  parse -1, entropy -2, serialise -3, allocate -4.
- **The coin-flip contract** (`flip_coin` and `on_random_result` in
  `random-contract/src/lib.rs`). `flip_coin` checks that the deposit is at
  least 0.01 NEAR. It then describes a call to the OutLayer service that
  forwards the whole deposit and asks for the range `{0, 1}`, and schedules a
  callback that carries the player and the choice. `on_random_result` takes a
  three-way result. A number resolves the wager: 0 means Heads, anything else
  Tails, and the player wins exactly when the choice matches. An empty answer
  and a failed call each abort with their own message.

Modules:

| file | module | models |
|---|---|---|
| `base.dfy` | `Base` | Rust's `u8`/`u32`/`u64`/`u128`, wrapping `u32` addition, `Option`, `str::contains` |
| `little_endian.dfy` | `LittleEndian` | `u32::from_le_bytes`, and the length-prefixed output buffer together with its reader |
| `json.dfy` | `Json` | the two JSON documents, written the way `serde_json::to_string` writes them, and a parser for exactly that shape. The `{min, max}` printer follows the `Input` of `src/main.rs`, which derives `Serialize`. The `Input` of `src/lib.rs` derives only `Deserialize`, so the round-trip test at `src/lib.rs:90-96` does not compile as written. Its twin at `src/main.rs:52-58` does |
| `rng.dfy` | `Rng` | `execute` as a pure pipeline |
| `coin_flip.dfy` | `CoinFlip` | `CoinSide`, `RandomResponse`, `flip_coin`, `on_random_result` |
| `end_to_end.dfy` | `EndToEnd` | one wager, from the contract's request through the RNG to the settlement |

Host effects are parameters.

- `Rng.Execute` takes the verdict of `serde_json::from_slice` as an
  `Option<RangeInput>`.
- It also takes a `Host` record: the entropy bytes, or `None` when `getrandom`
  fails; whether serialisation fails; and whether `alloc` returns null.
- A panic inside `execute` aborts the WebAssembly instance instead of
  returning a status code. It is modelled as the outcome `Trap`.
- A contract call either returns or aborts with a message. This is the
  `Call<T>` datatype.
- The contract struct has no fields, so neither `flip_coin` nor
  `on_random_result` reads or writes contract state. The model therefore has
  no state.

## Model

| member | source | states |
|---|---|---|
| `LittleEndian.FromLeToLe` | src/lib.rs:35-39 | Reading 4 bytes as a little-endian word and writing the word back gives the same 4 bytes, so the word is `b0 + 256·b1 + 65536·b2 + 16777216·b3` with no loss |
| `LittleEndian.ToLeFromLe` | src/lib.rs:72-74 | Storing a `u32` little-endian and reading it back gives the same number |
| `LittleEndian.Frame` | src/lib.rs:60-76 | The output buffer is `4 + len` bytes long and holds the payload from byte 4 on |
| `LittleEndian.UnframeFrame` | src/lib.rs:60-76 | A consumer that reads the 4-byte length and then that many bytes gets back exactly the payload, provided its length fits a `u32` |
| `Json.ParseRangePrint` | src/main.rs:4-8 | Serialising any `{min, max}` and parsing it back gives the same pair |
| `Json.PrintRangeParse` | src/lib.rs:3-7 | The only text the canonical parser maps to a pair is that pair's serialisation, so parsing is the exact inverse of printing |
| `Json.ParseOutputPrint` | src/lib.rs:9-12 | Serialising `{random_number}` and parsing it back gives the same number |
| `Json.PrintOutputParse` | src/lib.rs:49-57 | The only text that parses to a response is that response's serialisation |
| `Json.DigitsValueOf` | src/lib.rs:54-57 | A canonical decimal token is the rendering of the number it denotes: decimal rendering is a bijection onto canonical tokens |
| `Json.PrintOutputContainsDigits` | src/lib.rs:99-103 | The serialised output contains the decimal digits of `random_number` |
| `Json.RangeExample` | src/main.rs:52-58 | `{min: 1, max: 10}` round-trips unchanged |
| `Json.OutputExample` | src/lib.rs:99-103 | The serialisation of `{random_number: 42}` contains "42" |
| `Json.PrintOutputShort` | src/lib.rs:60-61 | The serialised output is at most 28 bytes, so `len as u32` never truncates |
| `Rng.StatusCodeInjective` | src/lib.rs:26-70 | The four failure codes are pairwise distinct |
| `Rng.StatusCode` | src/lib.rs:26-70 | Every failure code is negative, between -4 and -1 |
| `Rng.Reduce` | src/lib.rs:42-46 | The reduction as written traps exactly for `min = 0, max = u32::MAX`. Otherwise it returns `min` when `max <= min` and a value in `[min, max]` when `max > min`, so `min + …` never overflows a `u32` |
| `Rng.ReduceWide` | src/lib.rs:42-46 | The corrected reduction returns a value in `[min, max]` for every range with `max > min`, and `min` otherwise |
| `Rng.FullRangeTraps` | src/lib.rs:43 | For the full `u32` range, the written reduction divides by zero for every draw, while the intended result is the draw itself |
| `Rng.ReduceAgreesWithWide` | src/lib.rs:42-46 | Wherever the written reduction does not trap, it equals the corrected one |
| `Rng.ReduceOnto` | src/lib.rs:43 | Every value of a non-trapping range is reached by some entropy word |
| `Rng.ReduceCoin` | src/lib.rs:42-43 | For `{0, 1}` the reduction is the draw's parity `r % 2` |
| `Rng.OutputBytes` | src/lib.rs:54-61 | The payload bytes are the ASCII encoding of the serialised output, at most 28 of them |
| `Rng.Execute` | src/lib.rs:19-83 | Checks run in the source's order. A parse failure gives -1 whatever the host does. An entropy failure gives -2. The call traps exactly on the full `u32` range. Otherwise a serialisation failure gives -3, and an allocation failure with serialisation succeeding gives -4. A buffer is produced exactly when no step fails. Every status is one of the four codes |
| `Rng.ExecuteBuffer` | src/lib.rs:60-76 | A returned buffer is `4 + len` bytes and starts with `len`. Read back, it yields the reduced draw, which equals the corrected reduction and so lies in the range |
| `Rng.FailureOrder` | src/lib.rs:26-57 | The outcome after a failure does not depend on anything the later steps would have produced |
| `Rng.DegenerateRange` | src/lib.rs:42-46 | `{3, 3}` yields 3 for every entropy draw |
| `CoinFlip.FlipCoin` | random-contract/src/lib.rs:70-114 | The call proceeds exactly when the deposit is at least `MIN_DEPOSIT`. Otherwise it aborts with the minimum-deposit message. The request goes to `outlayer.near` and forwards the whole deposit. It carries input `{"min":0,"max":1}`, no secrets, format `"Json"` and payer = player. The callback carries the same player and choice with 5 TGas |
| `CoinFlip.SideOfSpec` | random-contract/src/lib.rs:137-142 | A draw resolves to Heads exactly when it is 0, and to Tails exactly when it is nonzero, values of 2 or more included |
| `CoinFlip.SideOfSideCode` | random-contract/src/types.rs:5-12 | Heads is encoded as 0 and Tails as 1, and decoding a side's code gives the side back |
| `CoinFlip.OnRandomResult` | random-contract/src/lib.rs:123-186 | The callback returns normally exactly on `Ok(Some(_))`. Then the side is Heads iff the draw is 0, and the wager is won iff the choice equals the side. `Ok(None)` aborts with "OutLayer execution failed". `Err(e)` aborts with "Promise system error: " followed by the error |
| `CoinFlip.SettlementMessage` | random-contract/src/lib.rs:145-171 | A win's message contains "won" and a loss's contains "lost" |
| `CoinFlip.AbortMessagesDistinct` | random-contract/src/lib.rs:174-184 | The two abort messages differ for every promise error. One names the execution failure, the other the system error |
| `CoinFlip.VerdictExclusive` | random-contract/src/lib.rs:145-171 | Every draw settles the wager, and it is won or lost, never both |
| `EndToEnd.CoinRangeInputParses` | random-contract/src/lib.rs:104 | The contract's input literal is the serialisation of `{0, 1}` and parses to it |
| `EndToEnd.WagerResolvesByParity` | random-contract/src/lib.rs:98-142 | With a sufficient deposit and all host steps succeeding, the RNG returns `r % 2` for the entropy word `r`. The wager then resolves to Heads exactly when `r` is even, and is won exactly when that side is the choice |
| `EndToEnd.HeadsOnZeroWins` | random-contract/src/lib.rs:137-157 | Minimum deposit, choice Heads, draw 0: the wager is won and the message says "won" |
| `EndToEnd.HeadsOnOneLoses` | random-contract/src/lib.rs:137-170 | Minimum deposit, choice Heads, draw 1: the wager is lost and the message says "lost" |

## Left out

- NEAR promise machinery is not modelled: `ext_contract`, `.then`, `#[private]`, `env::*` and gas accounting. The request and the callback are values. `with_unused_gas_weight(1)` is kept only as the weight 1.
- Account-id parsing of `"outlayer.near"` is left out. The receiver is kept as a string.
- `code_source` and `resource_limits` are constant JSON with no behaviour, so the request descriptor omits them.
- `log!` output and the emoji in messages are left out. Messages keep the wording of `format!`, without emoji.
- The `Debug` rendering of `PromiseError` is not modelled. It is carried as an opaque string.
- `getrandom` is foreign randomness. Its four bytes, or its failure, are a parameter.
- Raw-pointer reads, `std::alloc` and `mem::forget` are left out. Only the logical byte layout of the returned buffer is modelled, and the pointer is represented by the buffer's contents.
- Rng.Execute: takes the JSON parser's verdict as an input instead of parsing the input bytes. `serde_json` accepts more text than the canonical form: whitespace, other key orders and escapes.
- Json.PrintRangeParse: the parser accepts only the compact form that `serde_json::to_string` writes. It is a subset of what `serde_json::from_slice` accepts, so the inverse property is stated for that form only.
- Serialisation of the output cannot fail in practice. Its failure is an input flag so that code -3 stays reachable.
- `src/main.rs` is a stdin/stdout wrapper around `rand::gen_range`. It repeats the `max <= min → min` rule of `execute`.
- The serde, Borsh and JsonSchema derive attributes are declarations only.
- What the remote service does with unused deposit, and whether a failed wager refunds the player, happen outside this contract and are not modelled.

## Findings

| source | as written | input that shows it | evidently intended | confidence | as-written member | corrected member |
|---|---|---|---|---|---|---|
| src/lib.rs:43 | `input.max - input.min + 1` is computed in `u32`. For the full range it wraps to 0 in a release build, or panics on overflow in a debug build. In a release build `random % 0` then panics, so `execute` traps instead of returning a number or a status code | `{"min":0,"max":4294967295}`, any entropy | a uniform number in `[min, max]`, here the draw itself, as for every other range with `max > min` | high, not executed | `Rng.FullRangeTraps` | `Rng.ReduceWide` |

`Rng.Execute` follows the code as written and traps on this input.
`Rng.ReduceAgreesWithWide` shows that on every other input the written
reduction equals `Rng.ReduceWide`. `Rng.ExecuteBuffer` states the returned
number in terms of `Rng.ReduceWide`.

The command-line variant supports the intended reading. Its
`rng.gen_range(input.min..=input.max)` (`src/main.rs:28-29`) accepts the full
`u32` range and returns a number where `execute` traps.
