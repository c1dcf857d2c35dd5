/**
 * The program's two persistent records and their all-zero default values.
 */
module Account {
  import opened Ints

  /** A 32-byte public key; `Pubkey::default()` is the all-zero key. */
  type Pubkey = k: seq<U8> | |k| == 32
    witness [0, 0, 0, 0, 0, 0, 0, 0, 0, 0, 0, 0, 0, 0, 0, 0, 0, 0, 0, 0, 0, 0, 0, 0, 0, 0, 0, 0, 0, 0, 0, 0]

  const DEFAULT_PUBKEY: Pubkey :=
    [0, 0, 0, 0, 0, 0, 0, 0, 0, 0, 0, 0, 0, 0, 0, 0, 0, 0, 0, 0, 0, 0, 0, 0, 0, 0, 0, 0, 0, 0, 0, 0]

  /** Every tier table is a fixed-size array of this length (`[T; 10]`). */
  const CAPACITY: nat := 10

  type Table64 = t: seq<U64> | |t| == CAPACITY witness [0, 0, 0, 0, 0, 0, 0, 0, 0, 0]
  type Table32 = t: seq<U32> | |t| == CAPACITY witness [0, 0, 0, 0, 0, 0, 0, 0, 0, 0]

  const ZERO_TABLE64: Table64 := [0, 0, 0, 0, 0, 0, 0, 0, 0, 0]
  const ZERO_TABLE32: Table32 := [0, 0, 0, 0, 0, 0, 0, 0, 0, 0]

  /**
   * The singleton configuration record. `itemCount` is a free-standing u32:
   * nothing in the type ties it to the capacity of the three tables.
   */
  datatype GlobalState = GlobalState(
    admin: Pubkey,
    woofMint: Pubkey,
    ticketMint: Pubkey,
    vault: Pubkey,
    betAmounts: Table64,
    rewardRates: Table32,
    percentages: Table32,
    itemCount: U32)

  /** One record per player: the pending reward and the currency it is paid in. */
  datatype UserState = UserState(user: Pubkey, rewardAmount: U64, gameMode: U32)

  /** `GlobalState::default()`: every key, table entry and count is zero. */
  const DEFAULT_GLOBAL_STATE: GlobalState :=
    GlobalState(DEFAULT_PUBKEY, DEFAULT_PUBKEY, DEFAULT_PUBKEY, DEFAULT_PUBKEY,
                ZERO_TABLE64, ZERO_TABLE32, ZERO_TABLE32, 0)

  /** `UserState::default()`: the zero key, no pending reward, game mode 0. */
  const DEFAULT_USER_STATE: UserState := UserState(DEFAULT_PUBKEY, 0, 0)

  /** A tier index is in range of a table exactly when it is below the capacity. */
  lemma TierIndexInRange(g: GlobalState, i: nat)
    ensures i < |g.betAmounts| <==> i < CAPACITY
    ensures i < |g.rewardRates| <==> i < CAPACITY
    ensures i < |g.percentages| <==> i < CAPACITY
  {
  }
}
