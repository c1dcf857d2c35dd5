/**
 * The six instruction handlers of the coin-flip program, each as a function
 * from the state before the instruction to the state after it or the error
 * that aborts it. An aborted instruction has no effect: the host discards
 * every change it made.
 */
module CoinFlip {
  import opened Ints
  import opened Account
  import opened Ledger

  /**
   * Values fixed outside the handlers: `RATE_DECIMAL` and `WOOFS_PER_SOL`
   * (both used `as u64`) and the host's `Rent::default().minimum_balance(0)`.
   */
  datatype Constants = Constants(rateDecimal: U64, woofsPerSol: U64, rentMinimum: U64)

  // ----- checked arithmetic of the handlers -----

  /** The price of a tier: its bet plus a 2% surcharge, each step overflow-checked. */
  function PayAmount(amount: U64): Option<U64> {
    if amount * 2 > U64_MAX then None
    else if amount + (amount * 2) / 100 > U64_MAX then None
    else Some(amount + (amount * 2) / 100)
  }

  /** The roll `(timestamp * answer % 101) as u32`, with the product checked in i64. */
  function Roll(timestamp: I64, answer: I64): Option<U32> {
    var c := timestamp * answer;
    if c < I64_MIN || c > I64_MAX then None
    else Some(AsU32(RemTruncating(c, 101)))
  }

  /** A flip wins when the roll does not exceed the tier's percentage. */
  predicate Wins(r: U32, percentage: U32) {
    r <= percentage
  }

  /** The reward of a winning flip: `amount * rate / RATE_DECIMAL`, multiplication and division checked. */
  function Reward(amount: U64, rewardRate: U32, rateDecimal: U64): Option<U64> {
    if amount * rewardRate > U64_MAX then None
    else if rateDecimal == 0 then None
    else
      DivAtMost(amount * rewardRate, rateDecimal);
      Some(amount * rewardRate / rateDecimal)
  }

  /** The tokens bought with `amount` lamports: `amount * WOOFS_PER_SOL`, checked. */
  function WoofAmount(amount: U64, woofsPerSol: U64): Option<U64> {
    if amount * woofsPerSol > U64_MAX then None else Some(amount * woofsPerSol)
  }

  /**
   * The lamports the admin sends the vault at initialisation:
   * `minimum.max(1).saturating_sub(vaultLamports)`, the least top-up that
   * brings the vault to at least `max(minimum, 1)`.
   */
  function RequiredLamports(minimum: U64, vaultLamports: U64): (r: U64)
    ensures vaultLamports + r >= minimum && vaultLamports + r >= 1
    ensures r == 0 <==> vaultLamports >= minimum && vaultLamports >= 1
    ensures r > 0 ==> vaultLamports + r - 1 < minimum || vaultLamports + r - 1 < 1
  {
    var target := if minimum >= 1 then minimum else 1;
    if target > vaultLamports then target - vaultLamports else 0
  }

  /** The currency a flip is paid in: only game mode 0 means woof tokens. */
  function PaymentCurrency(gameMode: int): Currency {
    if gameMode == 0 then Woof else Sol
  }

  /** The currency a reward is paid in: only game mode 0 means ticket tokens. */
  function RewardCurrency(gameMode: int): Currency {
    if gameMode == 0 then Ticket else Sol
  }

  /** A table after the zero-based slots below `n` were overwritten from `src`. */
  function Overlay64(dst: Table64, src: Table64, n: nat): Table64
    requires n <= CAPACITY
  {
    seq(CAPACITY, i requires 0 <= i < CAPACITY => if i < n then src[i] else dst[i])
  }

  function Overlay32(dst: Table32, src: Table32, n: nat): Table32
    requires n <= CAPACITY
  {
    seq(CAPACITY, i requires 0 <= i < CAPACITY => if i < n then src[i] else dst[i])
  }

  /** The player record a flip starts from: the existing one, or a fresh default (`init_if_needed`). */
  function PriorRecord(s: State, player: Pubkey): UserState {
    if player in s.users then s.users[player] else DEFAULT_USER_STATE
  }

  // ----- the handlers -----

  /**
   * `initialize`: creates the configuration (failing if it exists), copies
   * the first `itemCount` tier entries (the copy loop panics when it reaches
   * slot 10), and tops the vault up from the admin's SOL.
   */
  function Initialize(k: Constants, s: State, signer: Pubkey, vaultKey: Pubkey,
                      woofMint: Pubkey, ticketMint: Pubkey,
                      bets: Table64, rates: Table32, percentages: Table32,
                      itemCount: U32): Result<State>
  {
    if s.global.Some? then Err(AccountAlreadyInitialized)
    else if itemCount > CAPACITY then Err(Panic)
    else
      var d := DEFAULT_GLOBAL_STATE;
      var g := d.(admin := signer, woofMint := woofMint, ticketMint := ticketMint, vault := vaultKey,
                  betAmounts := Overlay64(d.betAmounts, bets, itemCount),
                  rewardRates := Overlay32(d.rewardRates, rates, itemCount),
                  percentages := Overlay32(d.percentages, percentages, itemCount),
                  itemCount := itemCount);
      Deposit(s.(global := Some(g)), Sol, signer, RequiredLamports(k.rentMinimum, s.vault.sol))
  }

  /**
   * `coinflip`: reads tier `itemId` (bounds-checked against the capacity
   * only), collects bet plus surcharge, rolls, and overwrites the player's
   * record with the outcome.
   */
  function Coinflip(k: Constants, s: State, signer: Pubkey, vaultKey: Pubkey,
                    itemId: U8, gameMode: U8, timestamp: I64, answer: I64): Result<State>
  {
    if s.global.None? then Err(AccountNotInitialized)
    else if vaultKey != s.global.value.vault then Err(ConstraintAddress)
    else if itemId >= CAPACITY then Err(Panic)
    else
      var g := s.global.value;
      var amount := g.betAmounts[itemId];
      var pay :- Unwrap(PayAmount(amount));
      var paid :- Deposit(s, PaymentCurrency(gameMode), signer, pay);
      var r :- Unwrap(Roll(timestamp, answer));
      var reward :- Unwrap(Reward(amount, g.rewardRates[itemId], k.rateDecimal));
      var record := PriorRecord(s, signer).(
        user := signer,
        gameMode := gameMode,
        rewardAmount := if Wins(r, g.percentages[itemId]) then reward else 0);
      Ok(paid.(users := paid.users[signer := record]))
  }

  /**
   * `claim_reward`: zeroes the player's pending reward and, when it was
   * positive, pays it from the vault in the currency of the record's game mode.
   */
  function ClaimReward(s: State, signer: Pubkey): Result<State> {
    if s.global.None? || signer !in s.users then Err(AccountNotInitialized)
    else if s.users[signer].user != signer then Err(ConstraintRaw)
    else
      var u := s.users[signer];
      var cleared := s.(users := s.users[signer := u.(rewardAmount := 0)]);
      if u.rewardAmount > 0 then Payout(cleared, RewardCurrency(u.gameMode), signer, u.rewardAmount)
      else Ok(cleared)
  }

  /** `deposit_reward`: anyone moves ticket tokens into the vault's pool. */
  function DepositReward(s: State, signer: Pubkey, amount: U64): Result<State> {
    if s.global.None? then Err(AccountNotInitialized)
    else Deposit(s, Ticket, signer, amount)
  }

  /** `buy_woof_token`: SOL in, `amount * WOOFS_PER_SOL` woof tokens out of the vault. */
  function BuyWoofToken(k: Constants, s: State, signer: Pubkey, amount: U64): Result<State> {
    if s.global.None? then Err(AccountNotInitialized)
    else
      var paid :- Deposit(s, Sol, signer, amount);
      var woof :- Unwrap(WoofAmount(amount, k.woofsPerSol));
      Payout(paid, Woof, signer, woof)
  }

  /** A payout that is skipped when the amount is zero. */
  function PayoutIfPositive(s: State, c: Currency, payee: Pubkey, amount: U64): Result<State> {
    if amount > 0 then Payout(s, c, payee, amount) else Ok(s)
  }

  /** `withdraw_all`: only the admin; each of the three payouts is skipped when its amount is 0. */
  function WithdrawAll(s: State, signer: Pubkey, solAmount: U64, woofAmount: U64, ticketAmount: U64): Result<State> {
    if s.global.None? then Err(AccountNotInitialized)
    else if s.global.value.admin != signer then Err(ConstraintRaw)
    else
      var s1 :- PayoutIfPositive(s, Sol, signer, solAmount);
      var s2 :- PayoutIfPositive(s1, Woof, signer, woofAmount);
      PayoutIfPositive(s2, Ticket, signer, ticketAmount)
  }

  // ----- transactions -----

  datatype Instruction =
    | InitializeIx(admin: Pubkey, vaultKey: Pubkey, woofMint: Pubkey, ticketMint: Pubkey,
                   bets: Table64, rates: Table32, percentages: Table32, itemCount: U32)
    | CoinflipIx(user: Pubkey, vaultKey: Pubkey, itemId: U8, gameMode: U8, timestamp: I64, answer: I64)
    | ClaimRewardIx(user: Pubkey)
    | DepositRewardIx(funder: Pubkey, amount: U64)
    | BuyWoofTokenIx(buyer: Pubkey, amount: U64)
    | WithdrawAllIx(admin: Pubkey, solAmount: U64, woofAmount: U64, ticketAmount: U64)

  function Execute(k: Constants, s: State, ix: Instruction): Result<State> {
    match ix
    case InitializeIx(a, v, wm, tm, b, r, p, n) => Initialize(k, s, a, v, wm, tm, b, r, p, n)
    case CoinflipIx(u, v, i, m, t, ans) => Coinflip(k, s, u, v, i, m, t, ans)
    case ClaimRewardIx(u) => ClaimReward(s, u)
    case DepositRewardIx(f, amt) => DepositReward(s, f, amt)
    case BuyWoofTokenIx(b, amt) => BuyWoofToken(k, s, b, amt)
    case WithdrawAllIx(a, sa, wa, ta) => WithdrawAll(s, a, sa, wa, ta)
  }

  /** The state after an instruction: its result, or the old state if it aborted. */
  function Commit(s: State, r: Result<State>): State {
    if r.Ok? then r.value else s
  }

  /** A sequence of instructions, each applied atomically. */
  function Run(k: Constants, s: State, ixs: seq<Instruction>): State
    decreases |ixs|
  {
    if ixs == [] then s else Run(k, Commit(s, Execute(k, s, ixs[0])), ixs[1..])
  }
}
