/**
 * Everything the handlers read or write: the two kinds of program record,
 * the vault's three balances and every other wallet's balances, together
 * with the transfer primitives (the system program's lamport transfer and
 * the token program's `transfer`) as balance moves that can fail.
 */
module Ledger {
  import opened Ints
  import opened Account

  /** The three balances a wallet can hold: native SOL and the two tokens. */
  datatype Currency = Sol | Woof | Ticket

  datatype Balances = Balances(sol: U64, woof: U64, ticket: U64) {
    function Of(c: Currency): U64 {
      match c
      case Sol => sol
      case Woof => woof
      case Ticket => ticket
    }

    function With(c: Currency, v: U64): (b: Balances)
      ensures b.Of(c) == v
      ensures forall d: Currency :: d != c ==> b.Of(d) == Of(d)
    {
      match c
      case Sol => this.(sol := v)
      case Woof => this.(woof := v)
      case Ticket => this.(ticket := v)
    }
  }

  const EMPTY: Balances := Balances(0, 0, 0)

  /**
   * The whole observable state. `global` is None until `initialize` creates
   * the configuration account; `users` holds the per-player accounts that
   * exist; a wallet missing from `wallets` holds nothing.
   */
  datatype State = State(
    global: Option<GlobalState>,
    users: map<Pubkey, UserState>,
    vault: Balances,
    wallets: map<Pubkey, Balances>)
  {
    function Wallet(k: Pubkey): Balances {
      if k in wallets then wallets[k] else EMPTY
    }
  }

  /** Why a handler aborts; any abort rolls the whole instruction back. */
  datatype Error =
    | AccountNotInitialized      // a required program account does not exist
    | AccountAlreadyInitialized  // `init` of an account that exists
    | ConstraintAddress          // an `address = ...` account constraint fails
    | ConstraintRaw              // a `constraint = ...` account constraint fails
    | Panic                      // `unwrap()` of None or an out-of-bounds index
    | InsufficientFunds          // a transfer from a balance that is too low
    | BalanceOverflow            // a transfer that would overflow the receiver

  datatype Result<T> = Ok(value: T) | Err(error: Error) {
    predicate IsFailure() { Err? }

    function PropagateFailure<U>(): Result<U>
      requires Err?
    {
      Err(error)
    }

    function Extract(): T
      requires Ok?
    {
      value
    }
  }

  /** Rust's `unwrap()`: a None panics. */
  function Unwrap<T>(o: Option<T>): (r: Result<T>)
    ensures r.Ok? <==> o.Some?
    ensures r.Err? ==> r.error == Panic
    ensures r.Ok? ==> r.value == o.value
  {
    match o
    case Some(v) => Ok(v)
    case None => Err(Panic)
  }

  /**
   * A transfer of `amount` between two balances: it fails when the payer
   * holds less than `amount` or the receiver would pass `u64::MAX`, and
   * otherwise conserves the sum.
   */
  function Move(from: U64, to: U64, amount: U64): (r: Result<(U64, U64)>)
    ensures r.Err? <==> amount > from || to + amount > U64_MAX
    ensures r.Ok? ==> r.value.0 == from - amount && r.value.1 == to + amount
    ensures r.Ok? ==> r.value.0 + r.value.1 == from + to
  {
    if amount > from then Err(InsufficientFunds)
    else if to + amount > U64_MAX then Err(BalanceOverflow)
    else Ok((from - amount, to + amount))
  }

  /** Pays `amount` of `c` from the wallet of `payer` into the vault. */
  function Deposit(s: State, c: Currency, payer: Pubkey, amount: U64): (r: Result<State>)
    ensures r.Ok? <==> Move(s.Wallet(payer).Of(c), s.vault.Of(c), amount).Ok?
    ensures r.Ok? ==> r.value.global == s.global && r.value.users == s.users
    ensures r.Ok? ==> r.value.vault.Of(c) == s.vault.Of(c) + amount
    ensures r.Ok? ==> r.value.Wallet(payer).Of(c) == s.Wallet(payer).Of(c) - amount
    ensures r.Ok? ==> forall d: Currency :: d != c ==>
      r.value.vault.Of(d) == s.vault.Of(d) && r.value.Wallet(payer).Of(d) == s.Wallet(payer).Of(d)
    ensures r.Ok? ==> forall k: Pubkey :: k != payer ==> r.value.Wallet(k) == s.Wallet(k)
  {
    var w := s.Wallet(payer);
    var moved :- Move(w.Of(c), s.vault.Of(c), amount);
    Ok(s.(vault := s.vault.With(c, moved.1), wallets := s.wallets[payer := w.With(c, moved.0)]))
  }

  /** Pays `amount` of `c` out of the vault into the wallet of `payee`. */
  function Payout(s: State, c: Currency, payee: Pubkey, amount: U64): (r: Result<State>)
    ensures r.Ok? <==> Move(s.vault.Of(c), s.Wallet(payee).Of(c), amount).Ok?
    ensures r.Ok? ==> r.value.global == s.global && r.value.users == s.users
    ensures r.Ok? ==> r.value.vault.Of(c) == s.vault.Of(c) - amount
    ensures r.Ok? ==> r.value.Wallet(payee).Of(c) == s.Wallet(payee).Of(c) + amount
    ensures r.Ok? ==> forall d: Currency :: d != c ==>
      r.value.vault.Of(d) == s.vault.Of(d) && r.value.Wallet(payee).Of(d) == s.Wallet(payee).Of(d)
    ensures r.Ok? ==> forall k: Pubkey :: k != payee ==> r.value.Wallet(k) == s.Wallet(k)
  {
    var w := s.Wallet(payee);
    var moved :- Move(s.vault.Of(c), w.Of(c), amount);
    Ok(s.(vault := s.vault.With(c, moved.0), wallets := s.wallets[payee := w.With(c, moved.1)]))
  }

  /** Every player record is stored under, and owned by, the key of its player. */
  ghost predicate UsersOwned(s: State) {
    forall k :: k in s.users ==> s.users[k].user == k
  }
}
