/**
 * What the handlers promise, proved about the functions of module CoinFlip.
 */
module Properties {
  import opened Ints
  import opened Account
  import opened Ledger
  import opened CoinFlip

  lemma BalancesEqual(a: Balances, b: Balances)
    requires forall c: Currency :: a.Of(c) == b.Of(c)
    ensures a == b
  {
    assert a.Of(Sol) == b.Of(Sol) && a.Of(Woof) == b.Of(Woof) && a.Of(Ticket) == b.Of(Ticket);
  }

  // ----- initialize -----

  /**
   * `initialize` succeeds exactly when the configuration does not exist yet,
   * at most 10 tiers are configured and the admin can pay the vault's
   * top-up. It then records the signer as admin, the given vault and mints,
   * copies exactly the slots below `itemCount` and leaves the others zero,
   * and leaves the vault with at least `max(minimum balance, 1)` lamports;
   * only the admin's and the vault's SOL balances change.
   */
  lemma InitializeSpec(k: Constants, s: State, signer: Pubkey, vaultKey: Pubkey,
                       woofMint: Pubkey, ticketMint: Pubkey,
                       bets: Table64, rates: Table32, percentages: Table32, itemCount: U32)
    ensures var r := Initialize(k, s, signer, vaultKey, woofMint, ticketMint, bets, rates, percentages, itemCount);
      var topUp := RequiredLamports(k.rentMinimum, s.vault.sol);
      && (r.Ok? <==> s.global.None? && itemCount <= CAPACITY
                     && topUp <= s.Wallet(signer).sol && s.vault.sol + topUp <= U64_MAX)
      && (s.global.Some? ==> r == Err(AccountAlreadyInitialized))
      && (s.global.None? && itemCount > CAPACITY ==> r == Err(Panic))
      && (r.Ok? ==>
            var g := r.value.global.value;
            && r.value.global.Some?
            && g.admin == signer && g.vault == vaultKey
            && g.woofMint == woofMint && g.ticketMint == ticketMint
            && g.itemCount == itemCount
            && (forall i :: 0 <= i < CAPACITY ==>
                  && g.betAmounts[i] == (if i < itemCount then bets[i] else 0)
                  && g.rewardRates[i] == (if i < itemCount then rates[i] else 0)
                  && g.percentages[i] == (if i < itemCount then percentages[i] else 0))
            && r.value.users == s.users
            && r.value.vault.sol >= k.rentMinimum && r.value.vault.sol >= 1
            && r.value.vault.sol == s.vault.sol + topUp
            && r.value.Wallet(signer).sol == s.Wallet(signer).sol - topUp
            && r.value.vault.woof == s.vault.woof && r.value.vault.ticket == s.vault.ticket
            && r.value.Wallet(signer).woof == s.Wallet(signer).woof
            && r.value.Wallet(signer).ticket == s.Wallet(signer).ticket
            && (forall key: Pubkey :: key != signer ==> r.value.Wallet(key) == s.Wallet(key)))
  {
  }

  // ----- coinflip arithmetic -----

  /**
   * The price of a tier is its bet plus `floor(bet / 50)` (2% rounded down);
   * it is defined exactly when doubling the bet does not overflow u64, so
   * the overflow check on the final addition can never fire.
   */
  lemma PayAmountSpec(amount: U64)
    ensures PayAmount(amount).Some? <==> amount <= U64_MAX / 2
    ensures PayAmount(amount).Some? ==>
      PayAmount(amount).value == amount + amount / 50 && PayAmount(amount).value >= amount
  {
  }

  /**
   * The reward of a win is defined exactly when `amount * rate` fits in u64
   * and `RATE_DECIMAL` is not 0, and it is then the product divided by
   * `RATE_DECIMAL`, rounded down, never more than the product.
   */
  lemma RewardSpec(amount: U64, rewardRate: U32, rateDecimal: U64)
    ensures Reward(amount, rewardRate, rateDecimal).Some? <==>
      amount * rewardRate <= U64_MAX && rateDecimal != 0
    ensures Reward(amount, rewardRate, rateDecimal).Some? ==>
      var r := Reward(amount, rewardRate, rateDecimal).value;
      && r == amount * rewardRate / rateDecimal
      && r <= amount * rewardRate
      && r * rateDecimal <= amount * rewardRate
  {
    if amount * rewardRate <= U64_MAX && rateDecimal != 0 {
      var p, q := amount * rewardRate, amount * rewardRate / rateDecimal;
      DivAtMost(p, rateDecimal);
      assert p == rateDecimal * q + p % rateDecimal;
      assert q * rateDecimal == rateDecimal * q;
    }
  }

  /** The roll aborts the flip exactly when `timestamp * answer` overflows i64. */
  lemma RollDefined(timestamp: I64, answer: I64)
    ensures Roll(timestamp, answer).Some? <==> I64_MIN <= timestamp * answer <= I64_MAX
  {
  }

  /** For a non-negative product the roll is `c % 101`, in [0, 100]: tier 100 always wins, tier 0 only on 0. */
  lemma RollOfNonNegativeProduct(timestamp: I64, answer: I64)
    requires I64_MIN <= timestamp * answer <= I64_MAX
    requires timestamp * answer >= 0
    ensures var r := Roll(timestamp, answer).value;
      && r == (timestamp * answer) % 101 && r <= 100
      && Wins(r, 100)
      && (Wins(r, 0) <==> r == 0)
  {
  }

  /**
   * A negative product with a non-zero remainder wraps to a roll of at
   * least 2^32 - 100, which loses against every percentage below that.
   */
  lemma RollOfNegativeProduct(timestamp: I64, answer: I64)
    requires I64_MIN <= timestamp * answer <= I64_MAX
    requires timestamp * answer < 0 && (timestamp * answer) % 101 != 0
    ensures var r := Roll(timestamp, answer).value;
      && r >= U32_LIMIT - 100
      && forall p: U32 :: p < U32_LIMIT - 100 ==> !Wins(r, p)
  {
    RemTruncatingZero(timestamp * answer);
  }

  /** A tier with percentage 0 wins exactly when 101 divides `timestamp * answer`. */
  lemma ZeroTierWinsOnMultiplesOf101(timestamp: I64, answer: I64)
    requires I64_MIN <= timestamp * answer <= I64_MAX
    ensures Wins(Roll(timestamp, answer).value, 0) <==> (timestamp * answer) % 101 == 0
  {
    RemTruncatingZero(timestamp * answer);
  }

  /** The worked example: bet 100, rate 200 at scale 100, percentage 50, answer 3 at time 37. */
  lemma WorkedExample()
    ensures PayAmount(100) == Some(102)
    ensures Roll(37, 3) == Some(10)
    ensures Wins(10, 50)
    ensures Reward(100, 200, 100) == Some(200)
  {
  }

  // ----- coinflip -----

  /** A tier index of 10 or more aborts the flip: Rust's bounds check on the fixed tables. */
  lemma CoinflipRejectsIndexBeyondCapacity(k: Constants, s: State, signer: Pubkey, vaultKey: Pubkey,
                                          itemId: U8, gameMode: U8, timestamp: I64, answer: I64)
    requires itemId >= CAPACITY
    ensures Coinflip(k, s, signer, vaultKey, itemId, gameMode, timestamp, answer).Err?
    ensures s.global.Some? && vaultKey == s.global.value.vault ==>
      Coinflip(k, s, signer, vaultKey, itemId, gameMode, timestamp, answer) == Err(Panic)
  {
  }

  /**
   * The whole effect of `coinflip` on a configured program with an index
   * below the capacity: it succeeds exactly when the price, the transfer,
   * the roll and the reward product are all defined (so a reward overflow
   * aborts a losing flip as well); the price moves from the player to the
   * vault in the currency of the game mode, and the player's record is
   * replaced by the signer, the game mode and either
   * `bet * rate / RATE_DECIMAL` or 0. A vault other than the configured one
   * is refused by the address constraint.
   */
  lemma CoinflipSpec(k: Constants, s: State, signer: Pubkey, vaultKey: Pubkey, itemId: U8, gameMode: U8,
                     timestamp: I64, answer: I64)
    requires s.global.Some? && itemId < CAPACITY
    ensures var g := s.global.value;
      var r := Coinflip(k, s, signer, vaultKey, itemId, gameMode, timestamp, answer);
      var amount := g.betAmounts[itemId];
      var rate := g.rewardRates[itemId];
      var c := PaymentCurrency(gameMode);
      && (vaultKey != g.vault ==> r == Err(ConstraintAddress))
      && (r.Ok? <==>
            && vaultKey == g.vault
            && PayAmount(amount).Some?
            && Move(s.Wallet(signer).Of(c), s.vault.Of(c), PayAmount(amount).value).Ok?
            && I64_MIN <= timestamp * answer <= I64_MAX
            && amount * rate <= U64_MAX && k.rateDecimal != 0)
      && (r.Ok? ==>
            var pay := PayAmount(amount).value;
            var reward := amount * rate / k.rateDecimal;
            var won := Wins(Roll(timestamp, answer).value, g.percentages[itemId]);
            && r.value.global == s.global
            && r.value.users == s.users[signer := UserState(signer, if won then reward else 0, gameMode)]
            && r.value.vault.Of(c) == s.vault.Of(c) + pay
            && r.value.Wallet(signer).Of(c) == s.Wallet(signer).Of(c) - pay
            && (forall d: Currency :: d != c ==>
                  r.value.vault.Of(d) == s.vault.Of(d) && r.value.Wallet(signer).Of(d) == s.Wallet(signer).Of(d))
            && (forall key: Pubkey :: key != signer ==> r.value.Wallet(key) == s.Wallet(key)))
  {
  }

  /**
   * The vault passed to a flip must be the configured one, whatever the tier
   * index: any other key is refused by the address constraint before the
   * handler runs.
   */
  lemma CoinflipWrongVault(k: Constants, s: State, signer: Pubkey, vaultKey: Pubkey, itemId: U8,
                           gameMode: U8, timestamp: I64, answer: I64)
    requires s.global.Some? && vaultKey != s.global.value.vault
    ensures Coinflip(k, s, signer, vaultKey, itemId, gameMode, timestamp, answer) == Err(ConstraintAddress)
  {
  }

  /** Before `initialize` there is no configuration account, so every flip fails. */
  lemma CoinflipUnconfigured(k: Constants, s: State, signer: Pubkey, vaultKey: Pubkey, itemId: U8,
                             gameMode: U8, timestamp: I64, answer: I64)
    requires s.global.None?
    ensures Coinflip(k, s, signer, vaultKey, itemId, gameMode, timestamp, answer) == Err(AccountNotInitialized)
  {
  }

  /**
   * The tier index is checked against the capacity only: after an
   * `initialize` with `itemCount` tiers, a flip on an unconfigured slot
   * (`itemCount <= itemId < 10`) costs nothing and records a reward of 0.
   */
  lemma UnconfiguredTierIsFreeAndPaysNothing(k: Constants, s: State, admin: Pubkey, vaultKey: Pubkey,
                                             woofMint: Pubkey, ticketMint: Pubkey,
                                             bets: Table64, rates: Table32, percentages: Table32, itemCount: U32,
                                             player: Pubkey, itemId: U8, gameMode: U8, timestamp: I64, answer: I64)
    requires Initialize(k, s, admin, vaultKey, woofMint, ticketMint, bets, rates, percentages, itemCount).Ok?
    requires itemCount <= itemId < CAPACITY
    requires I64_MIN <= timestamp * answer <= I64_MAX
    ensures var s1 := Initialize(k, s, admin, vaultKey, woofMint, ticketMint, bets, rates, percentages, itemCount).value;
      var r := Coinflip(k, s1, player, vaultKey, itemId, gameMode, timestamp, answer);
      && (r.Ok? <==> k.rateDecimal != 0)
      && (r.Ok? ==>
            && r.value.users[player].rewardAmount == 0
            && r.value.vault == s1.vault
            && forall key: Pubkey :: r.value.Wallet(key) == s1.Wallet(key))
  {
    var s1 := Initialize(k, s, admin, vaultKey, woofMint, ticketMint, bets, rates, percentages, itemCount).value;
    InitializeSpec(k, s, admin, vaultKey, woofMint, ticketMint, bets, rates, percentages, itemCount);
    var g := s1.global.value;
    assert g.betAmounts[itemId] == 0;
    CoinflipSpec(k, s1, player, vaultKey, itemId, gameMode, timestamp, answer);
    var r := Coinflip(k, s1, player, vaultKey, itemId, gameMode, timestamp, answer);
    if r.Ok? {
      BalancesEqual(r.value.vault, s1.vault);
      BalancesEqual(r.value.Wallet(player), s1.Wallet(player));
    }
  }

  /**
   * A new flip replaces the pending reward instead of adding to it: a
   * losing flip wipes out winnings that were never claimed.
   */
  lemma LosingFlipDiscardsPendingReward(k: Constants, s: State, signer: Pubkey, itemId: U8, gameMode: U8,
                                       timestamp: I64, answer: I64)
    requires s.global.Some? && itemId < CAPACITY
    requires signer in s.users && s.users[signer].rewardAmount > 0
    requires I64_MIN <= timestamp * answer <= I64_MAX
    requires !Wins(Roll(timestamp, answer).value, s.global.value.percentages[itemId])
    ensures var r := Coinflip(k, s, signer, s.global.value.vault, itemId, gameMode, timestamp, answer);
      r.Ok? ==> r.value.users[signer].rewardAmount == 0
  {
    CoinflipSpec(k, s, signer, s.global.value.vault, itemId, gameMode, timestamp, answer);
  }

  // ----- claim_reward -----

  /**
   * `claim_reward` succeeds exactly when the configuration and the signer's
   * own record exist and, for a positive pending reward, the vault can pay
   * it. It then leaves the pending reward at 0 and moves exactly the old
   * amount from the vault's ticket pool (game mode 0) or its SOL (any other
   * mode) to the player, changing nothing else.
   */
  lemma ClaimRewardSpec(s: State, signer: Pubkey)
    ensures var r := ClaimReward(s, signer);
      && (r.Ok? <==>
            && s.global.Some? && signer in s.users && s.users[signer].user == signer
            && (s.users[signer].rewardAmount > 0 ==>
                  var c := RewardCurrency(s.users[signer].gameMode);
                  Move(s.vault.Of(c), s.Wallet(signer).Of(c), s.users[signer].rewardAmount).Ok?))
      && (r.Ok? ==>
            var amount := s.users[signer].rewardAmount;
            var c := RewardCurrency(s.users[signer].gameMode);
            && r.value.global == s.global
            && r.value.users == s.users[signer := s.users[signer].(rewardAmount := 0)]
            && r.value.vault.Of(c) == s.vault.Of(c) - amount
            && r.value.Wallet(signer).Of(c) == s.Wallet(signer).Of(c) + amount
            && (forall d: Currency :: d != c ==>
                  r.value.vault.Of(d) == s.vault.Of(d) && r.value.Wallet(signer).Of(d) == s.Wallet(signer).Of(d))
            && (forall key: Pubkey :: key != signer ==> r.value.Wallet(key) == s.Wallet(key)))
  {
  }

  /** Claiming again right after a successful claim succeeds and changes nothing. */
  lemma ClaimRewardIdempotent(s: State, signer: Pubkey)
    requires ClaimReward(s, signer).Ok?
    ensures ClaimReward(ClaimReward(s, signer).value, signer) == ClaimReward(s, signer)
  {
    var s1 := ClaimReward(s, signer).value;
    ClaimRewardSpec(s, signer);
    assert s1.users[signer].rewardAmount == 0;
    assert s1.users[signer := s1.users[signer].(rewardAmount := 0)] == s1.users;
  }

  // ----- deposit_reward and buy_woof_token -----

  /**
   * `deposit_reward` touches no program record: on success only the
   * funder's and the vault's ticket balances change, by exactly `amount`.
   */
  lemma DepositRewardSpec(s: State, funder: Pubkey, amount: U64)
    ensures var r := DepositReward(s, funder, amount);
      && (r.Ok? <==> s.global.Some? && Move(s.Wallet(funder).ticket, s.vault.ticket, amount).Ok?)
      && (r.Ok? ==>
            && r.value.global == s.global && r.value.users == s.users
            && r.value.vault == s.vault.(ticket := s.vault.ticket + amount)
            && r.value.Wallet(funder) == s.Wallet(funder).(ticket := s.Wallet(funder).ticket - amount)
            && (forall key: Pubkey :: key != funder ==> r.value.Wallet(key) == s.Wallet(key)))
  {
    var r := DepositReward(s, funder, amount);
    if r.Ok? {
      BalancesEqual(r.value.vault, s.vault.(ticket := s.vault.ticket + amount));
      BalancesEqual(r.value.Wallet(funder), s.Wallet(funder).(ticket := s.Wallet(funder).ticket - amount));
    }
  }

  /**
   * The woof bought with `amount` lamports is defined exactly when
   * `amount * WOOFS_PER_SOL` fits in u64, and is then that product.
   */
  lemma WoofAmountSpec(amount: U64, woofsPerSol: U64)
    ensures WoofAmount(amount, woofsPerSol).Some? <==> amount * woofsPerSol <= U64_MAX
    ensures WoofAmount(amount, woofsPerSol).Some? ==> WoofAmount(amount, woofsPerSol).value == amount * woofsPerSol
  {
  }

  /**
   * `buy_woof_token` moves `amount` lamports from the buyer to the vault and
   * `amount * WOOFS_PER_SOL` woof tokens from the vault to the buyer; it
   * aborts when that product overflows u64 or either transfer fails.
   */
  lemma BuyWoofTokenSpec(k: Constants, s: State, buyer: Pubkey, amount: U64)
    ensures var r := BuyWoofToken(k, s, buyer, amount);
      && (r.Ok? <==>
            && s.global.Some?
            && Move(s.Wallet(buyer).sol, s.vault.sol, amount).Ok?
            && amount * k.woofsPerSol <= U64_MAX
            && Move(s.vault.woof, s.Wallet(buyer).woof, amount * k.woofsPerSol).Ok?)
      && (r.Ok? ==>
            var woof := amount * k.woofsPerSol;
            && r.value.global == s.global && r.value.users == s.users
            && r.value.vault == Balances(s.vault.sol + amount, s.vault.woof - woof, s.vault.ticket)
            && r.value.Wallet(buyer) ==
                 Balances(s.Wallet(buyer).sol - amount, s.Wallet(buyer).woof + woof, s.Wallet(buyer).ticket)
            && (forall key: Pubkey :: key != buyer ==> r.value.Wallet(key) == s.Wallet(key)))
  {
    var r := BuyWoofToken(k, s, buyer, amount);
    if r.Ok? {
      var woof := amount * k.woofsPerSol;
      BalancesEqual(r.value.vault, Balances(s.vault.sol + amount, s.vault.woof - woof, s.vault.ticket));
      BalancesEqual(r.value.Wallet(buyer),
                    Balances(s.Wallet(buyer).sol - amount, s.Wallet(buyer).woof + woof, s.Wallet(buyer).ticket));
    }
  }

  // ----- withdraw_all -----

  /** A payout skipped at zero has the same effect as an unconditional one. */
  lemma PayoutIfPositiveSpec(s: State, c: Currency, payee: Pubkey, amount: U64)
    ensures var r := PayoutIfPositive(s, c, payee, amount);
      && (r.Ok? <==> Move(s.vault.Of(c), s.Wallet(payee).Of(c), amount).Ok?)
      && (r.Ok? ==>
            && r.value.global == s.global && r.value.users == s.users
            && r.value.vault == s.vault.With(c, s.vault.Of(c) - amount)
            && r.value.Wallet(payee) == s.Wallet(payee).With(c, s.Wallet(payee).Of(c) + amount)
            && (forall key: Pubkey :: key != payee ==> r.value.Wallet(key) == s.Wallet(key)))
  {
    var r := PayoutIfPositive(s, c, payee, amount);
    if amount > 0 && r.Ok? {
      BalancesEqual(r.value.vault, s.vault.With(c, s.vault.Of(c) - amount));
      BalancesEqual(r.value.Wallet(payee), s.Wallet(payee).With(c, s.Wallet(payee).Of(c) + amount));
    } else if r.Ok? {
      BalancesEqual(s.vault, s.vault.With(c, s.vault.Of(c)));
      BalancesEqual(s.Wallet(payee), s.Wallet(payee).With(c, s.Wallet(payee).Of(c)));
    }
  }

  /** `withdraw_all` is refused to anyone but the recorded admin, whatever the amounts. */
  lemma WithdrawAllOnlyAdmin(s: State, signer: Pubkey, solAmount: U64, woofAmount: U64, ticketAmount: U64)
    requires s.global.None? || s.global.value.admin != signer
    ensures WithdrawAll(s, signer, solAmount, woofAmount, ticketAmount).Err?
    ensures s.global.Some? ==> WithdrawAll(s, signer, solAmount, woofAmount, ticketAmount) == Err(ConstraintRaw)
  {
  }

  /**
   * For the admin, `withdraw_all` succeeds exactly when the vault can pay
   * each requested amount; each vault balance then falls, and the admin's
   * rises, by exactly the requested amount (a zero request leaves that
   * currency alone), and no other wallet and no program record changes.
   */
  lemma WithdrawAllSpec(s: State, signer: Pubkey, solAmount: U64, woofAmount: U64, ticketAmount: U64)
    requires s.global.Some? && s.global.value.admin == signer
    ensures var r := WithdrawAll(s, signer, solAmount, woofAmount, ticketAmount);
      var v, w := s.vault, s.Wallet(signer);
      && (r.Ok? <==>
            && Move(v.sol, w.sol, solAmount).Ok?
            && Move(v.woof, w.woof, woofAmount).Ok?
            && Move(v.ticket, w.ticket, ticketAmount).Ok?)
      && (r.Ok? ==>
            && r.value.global == s.global && r.value.users == s.users
            && r.value.vault == Balances(v.sol - solAmount, v.woof - woofAmount, v.ticket - ticketAmount)
            && r.value.Wallet(signer) == Balances(w.sol + solAmount, w.woof + woofAmount, w.ticket + ticketAmount)
            && (forall key: Pubkey :: key != signer ==> r.value.Wallet(key) == s.Wallet(key)))
  {
    PayoutIfPositiveSpec(s, Sol, signer, solAmount);
    var r1 := PayoutIfPositive(s, Sol, signer, solAmount);
    if r1.Ok? {
      var s1 := r1.value;
      PayoutIfPositiveSpec(s1, Woof, signer, woofAmount);
      var r2 := PayoutIfPositive(s1, Woof, signer, woofAmount);
      if r2.Ok? {
        PayoutIfPositiveSpec(r2.value, Ticket, signer, ticketAmount);
      }
    }
  }

  // ----- invariants over whole histories -----

  /** Every handler keeps each player record owned by its key, and none but `initialize` touches the configuration. */
  lemma ExecutePreservesInvariants(k: Constants, s: State, ix: Instruction)
    requires UsersOwned(s)
    ensures UsersOwned(Commit(s, Execute(k, s, ix)))
    ensures s.global.Some? ==> Commit(s, Execute(k, s, ix)).global == s.global
  {
    var r := Execute(k, s, ix);
    match ix
    case CoinflipIx(u, v, i, m, t, ans) =>
      if r.Ok? {
        CoinflipSpec(k, s, u, v, i, m, t, ans);
      }
    case ClaimRewardIx(u) =>
      ClaimRewardSpec(s, u);
    case WithdrawAllIx(a, sa, wa, ta) =>
      if r.Ok? {
        WithdrawAllSpec(s, a, sa, wa, ta);
      }
    case _ =>
  }

  /**
   * Over any sequence of instructions, once the configuration exists it
   * never changes, and every player record stays owned by its key (so the
   * `user_state.user == user` constraint of `claim_reward` never fails).
   */
  lemma {:induction false} RunPreservesInvariants(k: Constants, s: State, ixs: seq<Instruction>)
    requires UsersOwned(s)
    ensures UsersOwned(Run(k, s, ixs))
    ensures s.global.Some? ==> Run(k, s, ixs).global == s.global
    decreases |ixs|
  {
    if ixs != [] {
      ExecutePreservesInvariants(k, s, ixs[0]);
      RunPreservesInvariants(k, Commit(s, Execute(k, s, ixs[0])), ixs[1..]);
    }
  }

  /** On an owned state the ownership constraint of `claim_reward` never rejects. */
  lemma OwnedStateClaimPassesConstraint(s: State, signer: Pubkey)
    requires UsersOwned(s)
    ensures ClaimReward(s, signer) != Err(ConstraintRaw)
  {
  }
}
