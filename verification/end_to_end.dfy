/** One wager from deposit to settlement: the range the contract requests is
    the one the RNG parses, the RNG answers with the parity of its entropy
    word, and the callback resolves that answer. */
module EndToEnd {
  import opened Base
  import opened LittleEndian
  import opened Json
  import opened Rng
  import opened CoinFlip

  /** The input text the contract sends is the serialisation of `{0, 1}`. */
  lemma CoinRangeInputParses()
    ensures COIN_RANGE_INPUT == PrintRange(RangeInput(0, 1))
    ensures ParseRange(COIN_RANGE_INPUT) == Some(RangeInput(0, 1))
  {
    assert Digits(0) == "0" && Digits(1) == "1";
    ParseRangePrint(RangeInput(0, 1));
  }

  /** A wager with a sufficient deposit, run against an RNG whose host steps
      all succeed with entropy `bytes`: the RNG returns `r % 2` for the
      little-endian word `r`, and the wager resolves to `Heads` exactly when
      `r` is even, won exactly when that matches the player's choice. */
  lemma WagerResolvesByParity(player: AccountId, choice: CoinSide, attached: u128, bytes: Word4)
    requires attached >= MIN_DEPOSIT
    ensures var chain := FlipCoin(player, choice, attached).value;
      var parsed := ParseRange(chain.request.inputData);
      var out := Execute(parsed, Host(Some(bytes), false, false));
      && out.Buffer?
      && ReadBuffer(out.bytes) == Some(FromLe(bytes) % 2)
      && var settled := OnRandomResult(chain.callback.player, chain.callback.choice,
                                       Ok(Some(RandomResponse(FromLe(bytes) % 2))));
         && settled.Returned?
         && (settled.value.result == Heads <==> FromLe(bytes) % 2 == 0)
         && (settled.value.verdict == Won <==> choice == SideOf(FromLe(bytes) % 2))
  {
    CoinRangeInputParses();
    var host := Host(Some(bytes), false, false);
    ReduceCoin(FromLe(bytes));
    ExecuteBuffer(RangeInput(0, 1), host);
  }

  /** Deposit at the minimum, `Heads` chosen, the remote draw 0: the
      callback `flip_coin` schedules settles the wager as a win. */
  lemma HeadsOnZeroWins(player: AccountId)
    ensures var chain := FlipCoin(player, Heads, MIN_DEPOSIT);
      && chain.Returned?
      && var cb := chain.value.callback;
         var r := OnRandomResult(cb.player, cb.choice, Ok(Some(RandomResponse(0))));
         r.Returned? && r.value.verdict == Won && Contains(r.value.message, WON)
  {
    var cb := FlipCoin(player, Heads, MIN_DEPOSIT).value.callback;
    SettlementMessage(cb.player, cb.choice, Ok(Some(RandomResponse(0))));
  }

  /** Deposit at the minimum, `Heads` chosen, the remote draw 1: the
      callback `flip_coin` schedules settles the wager as a loss. */
  lemma HeadsOnOneLoses(player: AccountId)
    ensures var chain := FlipCoin(player, Heads, MIN_DEPOSIT);
      && chain.Returned?
      && var cb := chain.value.callback;
         var r := OnRandomResult(cb.player, cb.choice, Ok(Some(RandomResponse(1))));
         r.Returned? && r.value.verdict == Lost && Contains(r.value.message, LOST)
  {
    var cb := FlipCoin(player, Heads, MIN_DEPOSIT).value.callback;
    SettlementMessage(cb.player, cb.choice, Ok(Some(RandomResponse(1))));
  }
}
