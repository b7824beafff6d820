/** The coin-flip contract: `flip_coin` checks the deposit and describes the
    call to the remote compute service together with the callback that will
    receive its answer; `on_random_result` is that callback, which turns the
    three-way result into a win, a loss or an abort.

    The contract struct has no fields, so neither call reads or writes
    contract state; the model therefore has no state parameter. */
module CoinFlip {
  import opened Base

  /** Minimum deposit, in yoctoNEAR (0.01 NEAR). */
  const MIN_DEPOSIT: u128 := 10_000_000_000_000_000_000_000
  /** Gas reserved for the callback (5 TGas). */
  const CALLBACK_GAS: u64 := 5_000_000_000_000
  const OUTLAYER_CONTRACT_ID := "outlayer.near"
  /** The range requested from the remote RNG, as JSON text. */
  const COIN_RANGE_INPUT := "{\"min\":0,\"max\":1}"
  const RESPONSE_FORMAT := "Json"

  const DEPOSIT_TOO_LOW := "Minimum deposit is 0.01 NEAR to pay for OutLayer execution"
  const EXECUTION_FAILED := "OutLayer execution failed"
  const PROMISE_ERROR_PREFIX := "Promise system error: "

  type AccountId = string

  /** The two sides; the remote draw 0 stands for `Heads`, 1 for `Tails`. */
  datatype CoinSide = Heads | Tails

  /** The remote service's success payload. */
  datatype RandomResponse = RandomResponse(random_number: u32)

  /** A failure of the asynchronous call itself, kept by its debug text. */
  datatype PromiseError = PromiseError(debug: string)

  /** `Result<Option<RandomResponse>, PromiseError>`: an answer, an empty
      answer, or a failed call. */
  datatype CallbackResult =
    | Ok(response: Option<RandomResponse>)
    | Err(error: PromiseError)

  /** A contract call either returns a value or aborts with a message
      (`assert!` / `env::panic_str`), reverting the call. */
  datatype Call<T> = Returned(value: T) | Panicked(message: string)

  /** The `request_execution` call on the remote service. The hardcoded
      `code_source` and `resource_limits` objects are not modelled. */
  datatype ExecutionRequest = ExecutionRequest(
    receiver: AccountId,
    attachedDeposit: u128,
    unusedGasWeight: nat,
    inputData: string,
    secretsRef: Option<string>,
    responseFormat: string,
    payerAccountId: Option<AccountId>)

  /** The `on_random_result` callback as scheduled, before the remote
      result is known. */
  datatype ScheduledCallback = ScheduledCallback(player: AccountId, choice: CoinSide, staticGas: u64)

  /** The promise `flip_coin` returns: the request, then the callback. */
  datatype PromiseChain = PromiseChain(request: ExecutionRequest, callback: ScheduledCallback)

  datatype Verdict = Won | Lost

  /** How a wager resolved, with the message returned to the player. */
  datatype Settlement = Settlement(verdict: Verdict, result: CoinSide, choice: CoinSide, message: string)

  /** `flip_coin` called by `player` with `attached` yoctoNEAR. */
  function FlipCoin(player: AccountId, choice: CoinSide, attached: u128): (r: Call<PromiseChain>)
    ensures r.Returned? <==> attached >= MIN_DEPOSIT
    ensures r.Panicked? ==> r.message == DEPOSIT_TOO_LOW
    ensures r.Returned? ==>
      var req := r.value.request;
      && req.receiver == OUTLAYER_CONTRACT_ID
      && req.attachedDeposit == attached
      && req.unusedGasWeight == 1
      && req.inputData == COIN_RANGE_INPUT
      && req.secretsRef == None
      && req.responseFormat == RESPONSE_FORMAT
      && req.payerAccountId == Some(player)
    ensures r.Returned? ==> r.value.callback == ScheduledCallback(player, choice, CALLBACK_GAS)
  {
    if attached < MIN_DEPOSIT then
      Panicked(DEPOSIT_TOO_LOW)
    else
      var request := ExecutionRequest(
        OUTLAYER_CONTRACT_ID, attached, 1, COIN_RANGE_INPUT, None, RESPONSE_FORMAT, Some(player));
      Returned(PromiseChain(request, ScheduledCallback(player, choice, CALLBACK_GAS)))
  }

  /** The side a remote draw stands for: 0 is `Heads`, anything else, values
      of 2 and more included, is `Tails`. */
  function SideOf(random_number: u32): (s: CoinSide)
  {
    if random_number == 0 then Heads else Tails
  }

  /** The draw each side is encoded as. */
  function SideCode(s: CoinSide): (n: u32)
  {
    match s
    case Heads => 0
    case Tails => 1
  }

  lemma SideOfSpec(n: u32)
    ensures SideOf(n) == Heads <==> n == 0
    ensures SideOf(n) == Tails <==> n != 0
  {
  }

  /** Decoding a side's own code gives the side back. */
  lemma SideOfSideCode(s: CoinSide)
    ensures SideOf(SideCode(s)) == s
  {
  }

  function SideName(s: CoinSide): string {
    match s
    case Heads => "Heads"
    case Tails => "Tails"
  }

  const WON := "won"
  const LOST := "lost"

  function WinMessage(result: CoinSide, choice: CoinSide): string {
    "Congratulations! You " + WON + "! Result: " + SideName(result) + ", Your choice: " + SideName(choice)
  }

  function LoseMessage(result: CoinSide, choice: CoinSide): string {
    "Sorry, you " + LOST + ". Result: " + SideName(result) + ", Your choice: " + SideName(choice)
      + ". Better luck next time!"
  }

  /** `on_random_result` for the wager of `player` on `choice`. */
  function OnRandomResult(player: AccountId, choice: CoinSide, result: CallbackResult): (r: Call<Settlement>)
    ensures r.Returned? <==> result.Ok? && result.response.Some?
    ensures r.Returned? ==>
      && r.value.choice == choice
      && (r.value.result == Heads <==> result.response.value.random_number == 0)
      && (r.value.verdict == Won <==> choice == r.value.result)
    ensures result == Ok(None) ==> r == Panicked(EXECUTION_FAILED)
    ensures result.Err? ==> r == Panicked(PROMISE_ERROR_PREFIX + result.error.debug)
  {
    match result
    case Ok(Some(response)) =>
      var side := SideOf(response.random_number);
      if choice == side then
        Returned(Settlement(Won, side, choice, WinMessage(side, choice)))
      else
        Returned(Settlement(Lost, side, choice, LoseMessage(side, choice)))
    case Ok(None) =>
      Panicked(EXECUTION_FAILED)
    case Err(e) =>
      Panicked(PROMISE_ERROR_PREFIX + e.debug)
  }

  /** A win says "won" and a loss says "lost". */
  lemma SettlementMessage(player: AccountId, choice: CoinSide, result: CallbackResult)
    requires OnRandomResult(player, choice, result).Returned?
    ensures var s := OnRandomResult(player, choice, result).value;
      && (s.verdict == Won ==> Contains(s.message, WON))
      && (s.verdict == Lost ==> Contains(s.message, LOST))
  {
    var s := OnRandomResult(player, choice, result).value;
    var r, c := SideName(s.result), SideName(s.choice);
    if s.verdict == Won {
      var tail := "! Result: " + r + ", Your choice: " + c;
      assert s.message == "Congratulations! You " + WON + tail;
      ContainsMiddle("Congratulations! You ", WON, tail);
    } else {
      var tail := ". Result: " + r + ", Your choice: " + c + ". Better luck next time!";
      assert s.message == "Sorry, you " + LOST + tail;
      ContainsMiddle("Sorry, you ", LOST, tail);
    }
  }

  const EXECUTION_FAILED_WORDS := "execution failed"
  const SYSTEM_ERROR_WORDS := "system error"

  /** The two abort messages differ, whatever the promise error says, and
      each names its cause. */
  lemma AbortMessagesDistinct(debug: string)
    ensures EXECUTION_FAILED != PROMISE_ERROR_PREFIX + debug
    ensures Contains(EXECUTION_FAILED, EXECUTION_FAILED_WORDS)
    ensures Contains(PROMISE_ERROR_PREFIX + debug, SYSTEM_ERROR_WORDS)
  {
    assert EXECUTION_FAILED[0] != (PROMISE_ERROR_PREFIX + debug)[0];
    assert EXECUTION_FAILED == "OutLayer " + EXECUTION_FAILED_WORDS + "";
    ContainsMiddle("OutLayer ", EXECUTION_FAILED_WORDS, "");
    assert PROMISE_ERROR_PREFIX + debug == "Promise " + SYSTEM_ERROR_WORDS + (": " + debug);
    ContainsMiddle("Promise ", SYSTEM_ERROR_WORDS, ": " + debug);
  }

  /** A settlement is a win or a loss and never both: it is a win exactly
      when the choice matches the drawn side. */
  lemma VerdictExclusive(player: AccountId, choice: CoinSide, n: u32)
    ensures var r := OnRandomResult(player, choice, Ok(Some(RandomResponse(n))));
      && r.Returned?
      && (r.value.verdict == Won <==> choice == SideOf(n))
      && (r.value.verdict == Lost <==> choice != SideOf(n))
  {
  }
}
