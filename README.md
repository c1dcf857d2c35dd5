# Coin-flip wagering program, modelled in Dafny

This project models `coin_flip`, a Solana (Anchor) program. An admin
configures up to ten bet tiers. These are a bet amount, a reward rate and a
win percentage. Players pay for a flip in woof tokens (game mode 0) or in SOL
(any other mode). A roll derived from the clock and an oracle value decides
the outcome. The reward is held as a pending amount on the player's record
until the player claims it, in ticket tokens (game mode 0) or in SOL. Anyone
can add ticket tokens to the reward pool. Anyone can buy woof tokens for SOL
at a fixed rate. The admin can withdraw any amount of the vault's three
balances.

Modules, one per concern:

- `Ints` (`ints.dfy`): Rust's `u8`/`u32`/`u64`/`i64` as subset types. It also holds the truncating `%` of `i64` and the bit-truncating `as u32` cast.
- `Account` (`account.dfy`): the `GlobalState` and `UserState` records of `account.rs`. The tier tables have exactly ten slots. Both records have all-zero defaults.
- `Ledger` (`ledger.dfy`): the whole observable state, which is the configuration, the player records, the vault's SOL, woof and ticket balances, and every other wallet's balances. It also holds the handlers' errors. The system program's and token program's transfers are balance moves that fail when the payer holds too little or the receiver would overflow `u64`.
- `CoinFlip` (`coin_flip.dfy`): each handler as a function from the state before to the state after, or to the error that aborts it. It contains the checked arithmetic (`PayAmount`, `Roll`, `Reward`, `WoofAmount`, `RequiredLamports`). It also defines `Run`, a sequence of instructions each applied atomically.
- `Properties` (`properties.dfy`): the lemmas about those functions.
- `Program` (`program.dfy`): the class `CoinFlipProgram`. Its fields are the accounts and balances. Its methods are the handlers and update those fields in place. `CopyTiers` is the copy loop of `initialize`. Each method is proved to have exactly the effect of the matching `CoinFlip` function (`Snapshot() == Commit(old(Snapshot()), ...)`).

Anchor deserialises an account, lets the handler change the copy, and writes
it back only if the handler returns `Ok`. The host undoes transfers of a
failed instruction. The methods therefore work on local copies and assign
the fields only at the end, so a failed instruction changes nothing.

Inputs from outside the program are parameters: the signer's key, the
vault key passed in, `Clock::get().unix_timestamp`, the oracle `answer`
(already `as i64`) and the three constants `RATE_DECIMAL`, `WOOFS_PER_SOL` and
`Rent::default().minimum_balance(0)`. The constants are fields of a
`Constants` value and may be any `u64`. A `RATE_DECIMAL` of 0 makes
`checked_div(...).unwrap()` panic, and the model says so.

Where the code and the design intent disagree, the model follows the code:

- The tier index is bounds-checked only against the capacity 10, never against `item_count`.
- `item_count > 10` is not rejected with an error; it panics inside the copy loop at slot 10.
- Any non-zero `game_mode` means SOL.
- A new flip overwrites the pending reward.

## Model

| member | source | states |
|---|---|---|
| `Account.TierIndexInRange` | dragon_coin_flip/programs/coin_flip/src/account.rs:12-14 | an index is within each tier table exactly when it is below the capacity 10 |
| `Ints.RemTruncating` | dragon_coin_flip/programs/coin_flip/src/lib.rs:100 | Rust's signed `%`: the remainder lies strictly between -101 and 101, equals Dafny's `%` for a non-negative dividend and is never positive for a negative one |
| `Ints.RemTruncatingZero` | dragon_coin_flip/programs/coin_flip/src/lib.rs:100 | the truncating remainder by 101 is zero exactly when 101 divides the dividend |
| `Ints.RemTruncatingCongruent` | dragon_coin_flip/programs/coin_flip/src/lib.rs:100 | the truncating remainder by 101 differs from the dividend by a multiple of 101, so together with its range and sign it is the unique value Rust computes |
| `Ints.AsU32` | dragon_coin_flip/programs/coin_flip/src/lib.rs:100 | `as u32` keeps a value in [0, 2^32) and maps a negative value above -2^32 to 2^32 plus it |
| `Ledger.Move` | dragon_coin_flip/programs/coin_flip/src/lib.rs:45-56 | a transfer fails exactly when the payer has less than the amount or the receiver would pass `u64::MAX`; otherwise it moves the amount and conserves the sum |
| `Ledger.Deposit` | dragon_coin_flip/programs/coin_flip/src/lib.rs:69-89 | a payment into the vault succeeds exactly when the move does; it raises the vault and lowers the payer by the amount in one currency and changes no other balance, wallet or record |
| `Ledger.Payout` | dragon_coin_flip/programs/coin_flip/src/lib.rs:142-153 | a payment out of the vault succeeds exactly when the move does; it lowers the vault and raises the payee by the amount in one currency and changes nothing else |
| `CoinFlip.RequiredLamports` | dragon_coin_flip/programs/coin_flip/src/lib.rs:39-43 | the top-up is never negative; it brings the vault to at least `max(minimum, 1)`; it is 0 exactly when the vault already holds that much; otherwise it is the least such amount |
| `CoinFlip.PayAmount` | dragon_coin_flip/programs/coin_flip/src/lib.rs:64 | no contract of its own; specified by `Properties.PayAmountSpec` |
| `CoinFlip.Roll` | dragon_coin_flip/programs/coin_flip/src/lib.rs:98-100 | no contract of its own; specified by `Properties.RollDefined`, `Properties.RollOfNonNegativeProduct`, `Properties.RollOfNegativeProduct` and `Properties.ZeroTierWinsOnMultiplesOf101` |
| `CoinFlip.Reward` | dragon_coin_flip/programs/coin_flip/src/lib.rs:103-105 | no contract of its own; specified by `Properties.RewardSpec` |
| `CoinFlip.WoofAmount` | dragon_coin_flip/programs/coin_flip/src/lib.rs:190 | no contract of its own; specified by `Properties.WoofAmountSpec` |
| `CoinFlip.PaymentCurrency` | dragon_coin_flip/programs/coin_flip/src/lib.rs:69-81 | no contract of its own; used by `Properties.CoinflipSpec`: only game mode 0 pays in woof tokens, any other mode pays in SOL |
| `CoinFlip.Wins` | dragon_coin_flip/programs/coin_flip/src/lib.rs:111 | no contract of its own; used by `Properties.CoinflipSpec` and the roll lemmas: a flip wins when the roll is at most the tier's percentage |
| `CoinFlip.RewardCurrency` | dragon_coin_flip/programs/coin_flip/src/lib.rs:127-152 | no contract of its own; used by `Properties.ClaimRewardSpec`: only game mode 0 is paid in ticket tokens, any other mode in SOL |
| `CoinFlip.Overlay64` | dragon_coin_flip/programs/coin_flip/src/lib.rs:31-35 | no contract of its own; used by `CoinFlip.Initialize` and the proof of `Program.CoinFlipProgram.Initialize`, and `Properties.InitializeSpec` states its effect slot by slot: the slots below `item_count` of the bet table are taken from the input, the rest are kept |
| `CoinFlip.Overlay32` | dragon_coin_flip/programs/coin_flip/src/lib.rs:31-35 | no contract of its own; the same for the reward-rate and percentage tables |
| `CoinFlip.PriorRecord` | dragon_coin_flip/programs/coin_flip/src/lib.rs:323-330 | no contract of its own; used by `CoinFlip.Coinflip`: `init_if_needed` starts from the existing record or the all-zero default, and `Properties.CoinflipSpec` shows every field of it is overwritten |
| `CoinFlip.Initialize` | dragon_coin_flip/programs/coin_flip/src/lib.rs:24-59 | no contract of its own; specified by `Properties.InitializeSpec` |
| `CoinFlip.Coinflip` | dragon_coin_flip/programs/coin_flip/src/lib.rs:61-118 | no contract of its own; specified by `Properties.CoinflipSpec`, `Properties.CoinflipUnconfigured`, `Properties.CoinflipWrongVault` and `Properties.CoinflipRejectsIndexBeyondCapacity` |
| `CoinFlip.ClaimReward` | dragon_coin_flip/programs/coin_flip/src/lib.rs:120-158 | no contract of its own; specified by `Properties.ClaimRewardSpec` |
| `CoinFlip.DepositReward` | dragon_coin_flip/programs/coin_flip/src/lib.rs:160-174 | no contract of its own; specified by `Properties.DepositRewardSpec` |
| `CoinFlip.BuyWoofToken` | dragon_coin_flip/programs/coin_flip/src/lib.rs:176-207 | no contract of its own; specified by `Properties.BuyWoofTokenSpec` and `Properties.WoofAmountSpec` |
| `CoinFlip.PayoutIfPositive` | dragon_coin_flip/programs/coin_flip/src/lib.rs:214-256 | no contract of its own; specified by `Properties.PayoutIfPositiveSpec` |
| `CoinFlip.WithdrawAll` | dragon_coin_flip/programs/coin_flip/src/lib.rs:209-259 | no contract of its own; specified by `Properties.WithdrawAllOnlyAdmin` and `Properties.WithdrawAllSpec` |
| `CoinFlip.Run` | dragon_coin_flip/programs/coin_flip/src/lib.rs:24-259 | no contract of its own; specified by `Properties.RunPreservesInvariants` |
| `Properties.InitializeSpec` | dragon_coin_flip/programs/coin_flip/src/lib.rs:24-59 | `initialize` succeeds iff the configuration does not exist, `item_count <= 10` and the admin can pay the top-up. It fails with an already-initialised error on a second call and panics for `item_count > 10`. On success it records signer, vault, mints and `item_count`, copies exactly the slots below `item_count`, leaves the rest 0, and leaves the vault with at least `max(minimum, 1)` lamports. Only the admin's and the vault's SOL change; every other balance and wallet is unchanged |
| `Properties.PayAmountSpec` | dragon_coin_flip/programs/coin_flip/src/lib.rs:64 | the price is defined exactly when `amount <= u64::MAX / 2`, and it then equals `amount + amount / 50` (2% rounded down); the final overflow check never fires |
| `Properties.RewardSpec` | dragon_coin_flip/programs/coin_flip/src/lib.rs:103-105 | the reward is defined exactly when `amount * rate <= u64::MAX` and `RATE_DECIMAL != 0`, and is then `amount * rate / RATE_DECIMAL` rounded down |
| `Properties.RollDefined` | dragon_coin_flip/programs/coin_flip/src/lib.rs:98 | the roll is defined exactly when `t * answer` lies within i64; otherwise the checked multiply panics |
| `Properties.RollOfNonNegativeProduct` | dragon_coin_flip/programs/coin_flip/src/lib.rs:97-111 | for `t * answer >= 0` the roll is `t * answer % 101`, in [0, 100]; tier 100 always wins and tier 0 wins only on roll 0 |
| `Properties.RollOfNegativeProduct` | dragon_coin_flip/programs/coin_flip/src/lib.rs:98-111 | a negative product with a non-zero remainder wraps to a roll of at least 2^32 - 100, which loses against every percentage below that |
| `Properties.ZeroTierWinsOnMultiplesOf101` | dragon_coin_flip/programs/coin_flip/src/lib.rs:98-111 | a tier with percentage 0 wins exactly when 101 divides `t * answer` |
| `Properties.WorkedExample` | dragon_coin_flip/programs/coin_flip/src/lib.rs:61-118 | bet 100 costs 102; answer 3 at time 37 rolls 10, which wins at percentage 50; rate 200 at scale 100 rewards 200 |
| `Properties.CoinflipRejectsIndexBeyondCapacity` | dragon_coin_flip/programs/coin_flip/src/lib.rs:63 | a tier index of 10 or more always aborts the flip, with a panic once the configuration and vault checks pass |
| `Properties.CoinflipSpec` | dragon_coin_flip/programs/coin_flip/src/lib.rs:61-118 | a flip succeeds iff the vault passed in is the configured one and the price and the payment are defined, `t * answer` lies within i64, and `bet * rate <= u64::MAX` with `RATE_DECIMAL != 0`, so a reward overflow aborts a losing flip too. On success it moves exactly the price from player to vault in the game mode's currency. The player's record becomes exactly (signer, `bet * rate / RATE_DECIMAL` if `roll <= percentage` else 0, game mode widened losslessly). Configuration and every other wallet are unchanged |
| `Properties.CoinflipUnconfigured` | dragon_coin_flip/programs/coin_flip/src/lib.rs:299-304 | before `initialize` every flip fails because the configuration account does not exist, whatever the tier index, vault or mode |
| `Properties.CoinflipWrongVault` | dragon_coin_flip/programs/coin_flip/src/lib.rs:306-312 | a vault other than `global_state.vault` makes the flip fail with the address-constraint error, for any tier index |
| `Properties.UnconfiguredTierIsFreeAndPaysNothing` | dragon_coin_flip/programs/coin_flip/src/lib.rs:31-37 | after `initialize` with `item_count` tiers, a flip at `item_count <= id < 10` reads a zeroed slot: it succeeds whenever the roll and the constants allow, moves no balance and records reward 0 |
| `Properties.LosingFlipDiscardsPendingReward` | dragon_coin_flip/programs/coin_flip/src/lib.rs:110-115 | a losing flip sets the pending reward to 0 even when an earlier win was never claimed |
| `Properties.ClaimRewardSpec` | dragon_coin_flip/programs/coin_flip/src/lib.rs:120-158 | a claim succeeds iff the configuration and the signer's own record exist and, for a positive amount, the vault can pay it. On success the pending reward becomes 0 and exactly the old amount moves from the ticket pool (mode 0) or the vault's SOL (otherwise) to the player. Nothing else changes |
| `Properties.ClaimRewardIdempotent` | dragon_coin_flip/programs/coin_flip/src/lib.rs:123-126 | a claim right after a successful claim succeeds and leaves the state unchanged |
| `Properties.DepositRewardSpec` | dragon_coin_flip/programs/coin_flip/src/lib.rs:160-174 | `deposit_reward` succeeds iff the configuration exists and the move succeeds; it changes only the funder's and the vault's ticket balances, by exactly the amount |
| `Properties.WoofAmountSpec` | dragon_coin_flip/programs/coin_flip/src/lib.rs:190 | the woof bought is defined exactly when `amount * WOOFS_PER_SOL <= u64::MAX`, and is then that product |
| `Properties.BuyWoofTokenSpec` | dragon_coin_flip/programs/coin_flip/src/lib.rs:176-207 | `buy_woof_token` succeeds iff the configuration exists, the SOL payment succeeds, `amount * WOOFS_PER_SOL <= u64::MAX` and the token payout succeeds; the vault then gains `amount` SOL, the buyer gains `amount * WOOFS_PER_SOL` woof, and nothing else changes |
| `Properties.PayoutIfPositiveSpec` | dragon_coin_flip/programs/coin_flip/src/lib.rs:214-256 | skipping a payout of 0 has the same effect as making it |
| `Properties.WithdrawAllOnlyAdmin` | dragon_coin_flip/programs/coin_flip/src/lib.rs:411 | `withdraw_all` by anyone but the recorded admin fails whatever the amounts, with the constraint error once the configuration exists |
| `Properties.WithdrawAllSpec` | dragon_coin_flip/programs/coin_flip/src/lib.rs:209-259 | for the admin, `withdraw_all` succeeds iff the vault can pay each of the three amounts. The vault's balances then fall, and the admin's rise, by exactly the requested amounts, so a 0 request moves nothing. No other wallet or record changes |
| `Properties.ExecutePreservesInvariants` | dragon_coin_flip/programs/coin_flip/src/lib.rs:66 | every instruction keeps each player record owned by its key, and none but `initialize` changes an existing configuration |
| `Properties.RunPreservesInvariants` | dragon_coin_flip/programs/coin_flip/src/lib.rs:24-259 | over any sequence of instructions the configuration, once created, never changes, and player records stay owned by their keys |
| `Properties.OwnedStateClaimPassesConstraint` | dragon_coin_flip/programs/coin_flip/src/lib.rs:385 | on a state whose records are owned by their keys, the `user_state.user == user` constraint of `claim_reward` never rejects |
| `Program.CopyTiers` | dragon_coin_flip/programs/coin_flip/src/lib.rs:31-35 | the copy loop aborts exactly when `item_count > 10`; otherwise every slot below `item_count` of each table is taken from the input and every other slot is kept |
| `Program.CoinFlipProgram.Initialize` | dragon_coin_flip/programs/coin_flip/src/lib.rs:24-59 | the in-place handler returns the same outcome and leaves the same state as `CoinFlip.Initialize`, and leaves the state untouched on failure |
| `Program.CoinFlipProgram.Coinflip` | dragon_coin_flip/programs/coin_flip/src/lib.rs:61-118 | as above, for `CoinFlip.Coinflip` (vault address constraint of line 310 included) |
| `Program.CoinFlipProgram.ClaimReward` | dragon_coin_flip/programs/coin_flip/src/lib.rs:120-158 | as above, for `CoinFlip.ClaimReward` (ownership constraint of line 385 included) |
| `Program.CoinFlipProgram.DepositReward` | dragon_coin_flip/programs/coin_flip/src/lib.rs:160-174 | as above, for `CoinFlip.DepositReward` |
| `Program.CoinFlipProgram.BuyWoofToken` | dragon_coin_flip/programs/coin_flip/src/lib.rs:176-207 | as above, for `CoinFlip.BuyWoofToken` |
| `Program.CoinFlipProgram.WithdrawAll` | dragon_coin_flip/programs/coin_flip/src/lib.rs:209-259 | as above, for `CoinFlip.WithdrawAll` (admin constraint of line 411 included) |

## Left out

- Token accounts: the handlers take their token accounts from the caller. Those of `coinflip`, `claim_reward`, `deposit_reward` and `withdraw_all` are constrained only to be owned by the token program. The `source_account` and `dest_account` of `buy_woof_token` (lib.rs:464-471) carry only `mut`, with no owner check at all. The model assumes the intended accounts. A flip in mode 0 pays into the vault's woof pool. Claims in mode 0 and `deposit_reward` use the ticket pool. `buy_woof_token` uses the woof pool. `withdraw_all` pays the admin's own wallet. A caller passing other accounts is not modelled.
- The token program and the system program are not part of this model. Their transfers are abstract balance moves. The system program's other checks, such as the payer owning no data, are left out.
- Oracle and clock: `latest_round_data` and `Clock::get` become parameters. A failing oracle read and the `i128` to `i64` cast of `answer` are not modelled. The roll is a deterministic function of its inputs, and nothing is claimed about its randomness.
- Host mechanics are left out: PDA derivation, seeds and bumps, `invoke_signed` signing, Anchor's discriminator and ownership checks, and account `space`. Rent is left out as well: the rent for creating the configuration and player accounts is not charged, and rent-exemption checks on the vault are not made. The `seeds` constraint means the vault passed in is always the program's vault. The vault key is therefore a parameter that only the address constraint at lib.rs:310 and `initialize` look at.
- `init_if_needed` creates the player's default record only within a flip that then overwrites all of its fields, so the all-zero `UserState` is never observable on its own.
- `msg!` logging is left out.
- `Rent::default().minimum_balance(0)` is a parameter. Its value comes from the host's floating-point rent formula.
- Which error a doubly-failing instruction reports follows the order of checks in the source. Anchor's actual error codes are not modelled.
