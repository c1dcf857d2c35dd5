/**
 * The program as a stateful object: its fields are the accounts and
 * balances the instructions update in place, and each method is one
 * instruction handler. A handler works on copies of the accounts and
 * writes them back only when it succeeds, which is how the host's
 * all-or-nothing rollback appears here. Each method is proved to have
 * exactly the effect of the corresponding function of module CoinFlip.
 */
module Program {
  import opened Ints
  import opened Account
  import opened Ledger
  import opened CoinFlip

  datatype TierTables = TierTables(betAmounts: Table64, rewardRates: Table32, percentages: Table32)

  /**
   * The copy loop `for i in 0..item_count` of `initialize`: slot `i` of each
   * destination table takes slot `i` of the corresponding source table.
   * Indexing slot 10 panics, so more than 10 items abort the copy.
   */
  method CopyTiers(dstBets: Table64, dstRates: Table32, dstPercentages: Table32,
                   bets: Table64, rates: Table32, percentages: Table32, itemCount: U32)
    returns (r: Option<TierTables>)
    ensures r.None? <==> itemCount > CAPACITY
    ensures r.Some? ==> forall i :: 0 <= i < CAPACITY ==>
      && r.value.betAmounts[i] == (if i < itemCount then bets[i] else dstBets[i])
      && r.value.rewardRates[i] == (if i < itemCount then rates[i] else dstRates[i])
      && r.value.percentages[i] == (if i < itemCount then percentages[i] else dstPercentages[i])
  {
    var b, rr, p := dstBets, dstRates, dstPercentages;
    var i: nat := 0;
    while i < itemCount
      invariant i <= itemCount && i <= CAPACITY
      invariant forall j :: 0 <= j < CAPACITY ==>
        && b[j] == (if j < i then bets[j] else dstBets[j])
        && rr[j] == (if j < i then rates[j] else dstRates[j])
        && p[j] == (if j < i then percentages[j] else dstPercentages[j])
    {
      if i >= CAPACITY {
        return None;
      }
      b := b[i := bets[i]];
      rr := rr[i := rates[i]];
      p := p[i := percentages[i]];
      i := i + 1;
    }
    return Some(TierTables(b, rr, p));
  }

  /** What a handler returns to the host: `Ok(())` or the error that aborted it. */
  function Outcome(r: Result<State>): Result<()> {
    if r.Ok? then Ok(()) else Err(r.error)
  }

  class CoinFlipProgram {
    const consts: Constants

    var globalState: Option<GlobalState>
    var userStates: map<Pubkey, UserState>
    var vault: Balances
    var wallets: map<Pubkey, Balances>

    function Snapshot(): State
      reads this
    {
      State(globalState, userStates, vault, wallets)
    }

    /** A freshly deployed program: no configuration and no player records yet. */
    constructor (consts: Constants, vault: Balances, wallets: map<Pubkey, Balances>)
      ensures this.consts == consts
      ensures Snapshot() == State(None, map[], vault, wallets)
    {
      this.consts := consts;
      globalState := None;
      userStates := map[];
      this.vault := vault;
      this.wallets := wallets;
    }

    method Initialize(signer: Pubkey, vaultKey: Pubkey, woofMint: Pubkey, ticketMint: Pubkey,
                      bets: Table64, rates: Table32, percentages: Table32, itemCount: U32)
      returns (result: Result<()>)
      modifies this
      ensures var r := CoinFlip.Initialize(consts, old(Snapshot()), signer, vaultKey, woofMint, ticketMint,
                                           bets, rates, percentages, itemCount);
        result == Outcome(r) && Snapshot() == Commit(old(Snapshot()), r)
    {
      if globalState.Some? {
        return Err(AccountAlreadyInitialized);
      }
      var g := DEFAULT_GLOBAL_STATE;
      g := g.(admin := signer, woofMint := woofMint, ticketMint := ticketMint, vault := vaultKey);
      var tables := CopyTiers(g.betAmounts, g.rewardRates, g.percentages, bets, rates, percentages, itemCount);
      if tables.None? {
        return Err(Panic);
      }
      assert tables.value.betAmounts == Overlay64(g.betAmounts, bets, itemCount);
      assert tables.value.rewardRates == Overlay32(g.rewardRates, rates, itemCount);
      assert tables.value.percentages == Overlay32(g.percentages, percentages, itemCount);
      g := g.(betAmounts := tables.value.betAmounts, rewardRates := tables.value.rewardRates,
              percentages := tables.value.percentages);
      g := g.(itemCount := itemCount);

      var required := RequiredLamports(consts.rentMinimum, vault.sol);
      var admin := Snapshot().Wallet(signer);
      var moved := Move(admin.sol, vault.sol, required);
      if moved.Err? {
        return Err(moved.error);
      }
      globalState := Some(g);
      wallets := wallets[signer := admin.(sol := moved.value.0)];
      vault := vault.(sol := moved.value.1);
      return Ok(());
    }

    method Coinflip(signer: Pubkey, vaultKey: Pubkey, itemId: U8, gameMode: U8,
                    timestamp: I64, answer: I64)
      returns (result: Result<()>)
      modifies this
      ensures var r := CoinFlip.Coinflip(consts, old(Snapshot()), signer, vaultKey, itemId, gameMode,
                                         timestamp, answer);
        result == Outcome(r) && Snapshot() == Commit(old(Snapshot()), r)
    {
      if globalState.None? {
        return Err(AccountNotInitialized);
      }
      var g := globalState.value;
      if vaultKey != g.vault {
        return Err(ConstraintAddress);
      }
      if itemId >= CAPACITY {
        return Err(Panic);
      }
      var amount := g.betAmounts[itemId];
      var pay := PayAmount(amount);
      if pay.None? {
        return Err(Panic);
      }
      var record := if signer in userStates then userStates[signer] else DEFAULT_USER_STATE;
      record := record.(user := signer);

      var c := PaymentCurrency(gameMode);
      var player := Snapshot().Wallet(signer);
      var moved := Move(player.Of(c), vault.Of(c), pay.value);
      if moved.Err? {
        return Err(moved.error);
      }

      var roll := Roll(timestamp, answer);
      if roll.None? {
        return Err(Panic);
      }
      var reward := Reward(amount, g.rewardRates[itemId], consts.rateDecimal);
      if reward.None? {
        return Err(Panic);
      }
      record := record.(gameMode := gameMode);
      if Wins(roll.value, g.percentages[itemId]) {
        record := record.(rewardAmount := reward.value);
      } else {
        record := record.(rewardAmount := 0);
      }

      wallets := wallets[signer := player.With(c, moved.value.0)];
      vault := vault.With(c, moved.value.1);
      userStates := userStates[signer := record];
      return Ok(());
    }

    method ClaimReward(signer: Pubkey) returns (result: Result<()>)
      modifies this
      ensures var r := CoinFlip.ClaimReward(old(Snapshot()), signer);
        result == Outcome(r) && Snapshot() == Commit(old(Snapshot()), r)
    {
      if globalState.None? || signer !in userStates {
        return Err(AccountNotInitialized);
      }
      var record := userStates[signer];
      if record.user != signer {
        return Err(ConstraintRaw);
      }
      var amount := record.rewardAmount;
      record := record.(rewardAmount := 0);

      if amount > 0 {
        var c := RewardCurrency(record.gameMode);
        var player := Snapshot().Wallet(signer);
        var moved := Move(vault.Of(c), player.Of(c), amount);
        if moved.Err? {
          return Err(moved.error);
        }
        vault := vault.With(c, moved.value.0);
        wallets := wallets[signer := player.With(c, moved.value.1)];
      }
      userStates := userStates[signer := record];
      return Ok(());
    }

    method DepositReward(signer: Pubkey, amount: U64) returns (result: Result<()>)
      modifies this
      ensures var r := CoinFlip.DepositReward(old(Snapshot()), signer, amount);
        result == Outcome(r) && Snapshot() == Commit(old(Snapshot()), r)
    {
      if globalState.None? {
        return Err(AccountNotInitialized);
      }
      var funder := Snapshot().Wallet(signer);
      var moved := Move(funder.ticket, vault.ticket, amount);
      if moved.Err? {
        return Err(moved.error);
      }
      wallets := wallets[signer := funder.(ticket := moved.value.0)];
      vault := vault.(ticket := moved.value.1);
      return Ok(());
    }

    method BuyWoofToken(signer: Pubkey, amount: U64) returns (result: Result<()>)
      modifies this
      ensures var r := CoinFlip.BuyWoofToken(consts, old(Snapshot()), signer, amount);
        result == Outcome(r) && Snapshot() == Commit(old(Snapshot()), r)
    {
      if globalState.None? {
        return Err(AccountNotInitialized);
      }
      var buyer := Snapshot().Wallet(signer);
      var v := vault;
      var paid := Move(buyer.sol, v.sol, amount);
      if paid.Err? {
        return Err(paid.error);
      }
      buyer, v := buyer.(sol := paid.value.0), v.(sol := paid.value.1);

      var woof := WoofAmount(amount, consts.woofsPerSol);
      if woof.None? {
        return Err(Panic);
      }
      var bought := Move(v.woof, buyer.woof, woof.value);
      if bought.Err? {
        return Err(bought.error);
      }
      buyer, v := buyer.(woof := bought.value.1), v.(woof := bought.value.0);

      wallets := wallets[signer := buyer];
      vault := v;
      return Ok(());
    }

    method WithdrawAll(signer: Pubkey, solAmount: U64, woofAmount: U64, ticketAmount: U64)
      returns (result: Result<()>)
      modifies this
      ensures var r := CoinFlip.WithdrawAll(old(Snapshot()), signer, solAmount, woofAmount, ticketAmount);
        result == Outcome(r) && Snapshot() == Commit(old(Snapshot()), r)
    {
      if globalState.None? {
        return Err(AccountNotInitialized);
      }
      if globalState.value.admin != signer {
        return Err(ConstraintRaw);
      }
      var t := Snapshot();
      if solAmount > 0 {
        var admin := t.Wallet(signer);
        var moved := Move(t.vault.sol, admin.sol, solAmount);
        if moved.Err? {
          return Err(moved.error);
        }
        t := t.(vault := t.vault.(sol := moved.value.0),
                wallets := t.wallets[signer := admin.(sol := moved.value.1)]);
      }
      if woofAmount > 0 {
        var admin := t.Wallet(signer);
        var moved := Move(t.vault.woof, admin.woof, woofAmount);
        if moved.Err? {
          return Err(moved.error);
        }
        t := t.(vault := t.vault.(woof := moved.value.0),
                wallets := t.wallets[signer := admin.(woof := moved.value.1)]);
      }
      if ticketAmount > 0 {
        var admin := t.Wallet(signer);
        var moved := Move(t.vault.ticket, admin.ticket, ticketAmount);
        if moved.Err? {
          return Err(moved.error);
        }
        t := t.(vault := t.vault.(ticket := moved.value.0),
                wallets := t.wallets[signer := admin.(ticket := moved.value.1)]);
      }
      vault, wallets := t.vault, t.wallets;
      return Ok(());
    }
  }
}
