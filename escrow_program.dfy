/** The on-chain escrow program (programs/escrow/src/lib.rs): a config
    account, one escrow account per (order id, buyer), and the token
    accounts the instructions move USDC between.

    Each instruction is specified by a pure transition on `ChainState`
    (`InitializeSpec`, `CreateEscrowSpec`, `ReleaseEscrowSpec`,
    `RefundEscrowSpec`) and carried out in place by the matching method
    of `EscrowChain`.  A Solana instruction is atomic: when any check or
    transfer fails, no account changes, which is what an `Err` result
    means here.  Anchor's account constraints are checks that come first
    and fail with `ConstraintViolated`, `AccountMissing` or
    `AccountInUse`. */
module EscrowProgram {
  import opened Wrappers
  import opened Bytes

  type Seeds = seq<seq<byte>>

  /** Program-address derivation for this program id
      (`Pubkey::find_program_address`).  Its internals (SHA-256 and the
      off-curve bump search) are not modelled: it is any deterministic
      function of the seed list. */
  type Deriver = Seeds -> Pubkey

  const MAX_FEE_BPS: nat := 1000
  const BPS_DENOMINATOR: nat := 10000
  const MAX_ORDER_ID_LEN: nat := 32

  function ConfigSeeds(): Seeds { [Ascii("config")] }

  function EscrowSeeds(orderId: seq<byte>, buyer: Pubkey): Seeds {
    [Ascii("escrow"), orderId, buyer]
  }

  datatype EscrowStatus = Locked | Released | Refunded

  datatype Config = Config(
    admin: Pubkey,
    treasury: Pubkey,
    fulfillmentVault: Pubkey,
    treasuryFeeBps: u16,
    totalDeposits: u64,
    totalReleased: u64,
    bump: u8)

  datatype Escrow = Escrow(
    buyer: Pubkey,
    orderId: seq<byte>,
    amount: u64,
    feeAmount: u64,
    fulfillmentAmount: u64,
    status: EscrowStatus,
    createdAt: i64,
    releasedAt: Option<i64>,
    bump: u8)

  /** An SPL token account: its mint, its owner (the authority that may
      move its tokens) and its balance. */
  datatype TokenAccount = TokenAccount(mint: Pubkey, owner: Pubkey, amount: nat)

  datatype ProgramError =
    | FeeTooHigh | OrderIdTooLong | InvalidAmount | InvalidStatus
    | AccountInUse | AccountMissing | ConstraintViolated
    | TransferFailed | ArithmeticPanic

  datatype ChainState = ChainState(
    config: Option<Config>,
    escrows: map<Pubkey, Escrow>,
    tokens: map<Pubkey, TokenAccount>)

  // ---------------------------------------------------------------------
  // Pure parts: fee split and token transfer

  /** The fee split of create_escrow: `(amount as u128 * fee_bps) / 10000`
      cast back to u64 (the cast truncates), then a checked subtraction
      that panics when the fee exceeds the amount.  With the cap enforced
      by `initialize` neither the truncation nor the panic can happen. */
  function FeeSplit(amount: u64, feeBps: u16): (r: Result<(u64, u64), ProgramError>)
    ensures r.Ok? ==> r.value.0 + r.value.1 == amount
    ensures feeBps <= BPS_DENOMINATOR ==>
      r.Ok? && r.value.0 == ScaledFee(amount, feeBps) && r.value.0 <= amount
    ensures feeBps <= MAX_FEE_BPS ==> r.Ok? && r.value.0 <= amount / 10
  {
    var fee := ScaledFee(amount, feeBps) % U64_LIMIT;
    FeeBound(amount, feeBps);
    if fee <= amount then Ok((fee, amount - fee)) else Err(ArithmeticPanic)
  }

  /** `amount * fee_bps / 10000`, rounded down, before the cast to u64. */
  function ScaledFee(amount: nat, feeBps: nat): nat {
    amount * feeBps / BPS_DENOMINATOR
  }

  lemma FeeBound(amount: u64, feeBps: u16)
    ensures feeBps <= BPS_DENOMINATOR ==> ScaledFee(amount, feeBps) <= amount
    ensures feeBps <= MAX_FEE_BPS ==> ScaledFee(amount, feeBps) <= amount / 10
  {
    if feeBps <= BPS_DENOMINATOR {
      MulMono(amount, feeBps, BPS_DENOMINATOR);
    }
    if feeBps <= MAX_FEE_BPS {
      MulMono(amount, feeBps, MAX_FEE_BPS);
    }
  }

  lemma MulMono(a: nat, b: nat, c: nat)
    requires b <= c
    ensures a * b <= a * c
  {}

  /** The u128 multiplication in the fee split never overflows. */
  lemma FeeProductFitsU128(amount: u64, feeBps: u16)
    ensures amount * feeBps < 0x1_0000_0000_0000_0000_0000_0000_0000_0000
  {
    assert amount * feeBps <= amount * 0xFFFF by { MulMono(amount, feeBps, 0xFFFF); }
  }

  /** An SPL token transfer between two existing accounts of one mint;
      it fails when the mints differ or the source lacks the amount.  A
      transfer from an account to itself leaves the balances as they are. */
  function Transfer(tokens: map<Pubkey, TokenAccount>, from: Pubkey, to: Pubkey, amt: nat)
    : (r: Result<map<Pubkey, TokenAccount>, ProgramError>)
    requires from in tokens && to in tokens
    ensures r.Ok? <==> tokens[from].mint == tokens[to].mint && amt <= tokens[from].amount
    ensures r.Err? ==> r.error == TransferFailed
    ensures r.Ok? ==> r.value.Keys == tokens.Keys
    ensures r.Ok? ==> forall k :: k in tokens && k != from && k != to ==> r.value[k] == tokens[k]
    ensures r.Ok? && from != to ==>
      r.value[from] == tokens[from].(amount := tokens[from].amount - amt) &&
      r.value[to] == tokens[to].(amount := tokens[to].amount + amt)
    ensures r.Ok? && from == to ==> r.value == tokens
  {
    if tokens[from].mint != tokens[to].mint || amt > tokens[from].amount then
      Err(TransferFailed)
    else if from == to then
      Ok(tokens)
    else
      var debited := tokens[from := tokens[from].(amount := tokens[from].amount - amt)];
      Ok(debited[to := debited[to].(amount := debited[to].amount + amt)])
  }

  // ---------------------------------------------------------------------
  // Instructions as transitions

  /** `initialize`: creates the config at the "config" address (Anchor
      `init` fails when it exists) and rejects a fee above 1000 bps. */
  function InitializeSpec(s: ChainState, admin: Pubkey, treasury: Pubkey,
                          fulfillmentVault: Pubkey, treasuryFeeBps: u16, bump: u8)
    : Result<ChainState, ProgramError>
  {
    if s.config.Some? then Err(AccountInUse)
    else if treasuryFeeBps > MAX_FEE_BPS then Err(FeeTooHigh)
    else Ok(s.(config := Some(Config(admin, treasury, fulfillmentVault, treasuryFeeBps, 0, 0, bump))))
  }

  /** The account constraints of the `CreateEscrow` context, checked
      before the instruction body runs: the config exists, the escrow
      address is still free, the vault belongs to that address and holds
      the mint, and the buyer's token account is the buyer's, of the mint. */
  function CreateAccountsError(s: ChainState, key: Pubkey, buyer: Pubkey, buyerTokenAccount: Pubkey,
                               escrowVault: Pubkey, usdcMint: Pubkey): (r: Option<ProgramError>)
    ensures r.None? ==> s.config.Some? && key !in s.escrows
  {
    if s.config.None? then Some(AccountMissing)
    else if key in s.escrows then Some(AccountInUse)
    else if escrowVault !in s.tokens || s.tokens[escrowVault].mint != usdcMint
         || s.tokens[escrowVault].owner != key then Some(ConstraintViolated)
    else if buyerTokenAccount !in s.tokens || s.tokens[buyerTokenAccount].owner != buyer
         || s.tokens[buyerTokenAccount].mint != usdcMint then Some(ConstraintViolated)
    else None
  }

  /** `create_escrow`: the account constraints of `CreateEscrow`, then the
      order-id and amount checks, the fee split, the transfer from the
      buyer's token account to the vault and the deposit counter. */
  function CreateEscrowSpec(derive: Deriver, s: ChainState, buyer: Pubkey,
                            buyerTokenAccount: Pubkey, escrowVault: Pubkey, usdcMint: Pubkey,
                            orderId: seq<byte>, amount: u64, now: i64, bump: u8)
    : Result<ChainState, ProgramError>
  {
    var key := derive(EscrowSeeds(orderId, buyer));
    match CreateAccountsError(s, key, buyer, buyerTokenAccount, escrowVault, usdcMint)
    case Some(e) => Err(e)
    case None =>
    if |orderId| > MAX_ORDER_ID_LEN then Err(OrderIdTooLong)
    else if amount == 0 then Err(InvalidAmount)
    else
      var cfg := s.config.value;
      match FeeSplit(amount, cfg.treasuryFeeBps)
      case Err(e) => Err(e)
      case Ok((fee, fulfillment)) =>
        match Transfer(s.tokens, buyerTokenAccount, escrowVault, amount)
        case Err(e) => Err(e)
        case Ok(tokens') =>
          if cfg.totalDeposits + amount >= U64_LIMIT then Err(ArithmeticPanic)
          else
            var escrow := Escrow(buyer, orderId, amount, fee, fulfillment, Locked, now, None, bump);
            Ok(ChainState(Some(cfg.(totalDeposits := cfg.totalDeposits + amount)),
                          s.escrows[key := escrow], tokens'))
  }

  /** The account checks shared by release_escrow and refund_escrow: the
      escrow account exists at its own seeds and the vault belongs to it. */
  predicate EscrowAccountsOk(derive: Deriver, s: ChainState, escrowKey: Pubkey, escrowVault: Pubkey)
  {
    && escrowKey in s.escrows
    && derive(EscrowSeeds(s.escrows[escrowKey].orderId, s.escrows[escrowKey].buyer)) == escrowKey
    && escrowVault in s.tokens
    && s.tokens[escrowVault].owner == escrowKey
  }

  /** The account constraints of the `ReleaseEscrow` context: the config
      exists and names this admin, treasury and fulfillment vault, the
      escrow accounts check out, and both destination accounts exist. */
  function ReleaseAccountsError(derive: Deriver, s: ChainState, escrowKey: Pubkey, escrowVault: Pubkey,
                                treasury: Pubkey, fulfillmentVault: Pubkey, admin: Pubkey)
    : (r: Option<ProgramError>)
    ensures r.None? ==> s.config.Some? && EscrowAccountsOk(derive, s, escrowKey, escrowVault)
  {
    if s.config.None? then Some(AccountMissing)
    else if s.config.value.admin != admin || s.config.value.treasury != treasury
         || s.config.value.fulfillmentVault != fulfillmentVault then Some(ConstraintViolated)
    else if escrowKey !in s.escrows then Some(AccountMissing)
    else if !EscrowAccountsOk(derive, s, escrowKey, escrowVault) then Some(ConstraintViolated)
    else if treasury !in s.tokens || fulfillmentVault !in s.tokens then Some(AccountMissing)
    else None
  }

  /** `release_escrow`: admin-only; the fee goes to the treasury and the
      rest to the fulfillment vault, the escrow becomes Released and the
      released counter grows by the amount. */
  function ReleaseEscrowSpec(derive: Deriver, s: ChainState, escrowKey: Pubkey, escrowVault: Pubkey,
                             treasury: Pubkey, fulfillmentVault: Pubkey, admin: Pubkey, now: i64)
    : Result<ChainState, ProgramError>
  {
    match ReleaseAccountsError(derive, s, escrowKey, escrowVault, treasury, fulfillmentVault, admin)
    case Some(err) => Err(err)
    case None =>
      var e := s.escrows[escrowKey];
      var cfg := s.config.value;
      if e.status != Locked then Err(InvalidStatus)
      else
        match Transfer(s.tokens, escrowVault, treasury, e.feeAmount)
        case Err(err) => Err(err)
        case Ok(t1) =>
          match Transfer(t1, escrowVault, fulfillmentVault, e.fulfillmentAmount)
          case Err(err) => Err(err)
          case Ok(t2) =>
            if cfg.totalReleased + e.amount >= U64_LIMIT then Err(ArithmeticPanic)
            else
              Ok(ChainState(Some(cfg.(totalReleased := cfg.totalReleased + e.amount)),
                            s.escrows[escrowKey := e.(status := Released, releasedAt := Some(now))],
                            t2))
  }

  /** `refund_escrow`: admin-only; the whole amount goes back to the
      buyer's token account and the escrow becomes Refunded.  The config
      is not even writable here, so its counters stay as they are. */
  function RefundEscrowSpec(derive: Deriver, s: ChainState, escrowKey: Pubkey, escrowVault: Pubkey,
                            buyerTokenAccount: Pubkey, admin: Pubkey, now: i64)
    : Result<ChainState, ProgramError>
  {
    if s.config.None? then Err(AccountMissing)
    else if s.config.value.admin != admin then Err(ConstraintViolated)
    else if escrowKey !in s.escrows then Err(AccountMissing)
    else if !EscrowAccountsOk(derive, s, escrowKey, escrowVault) then Err(ConstraintViolated)
    else if buyerTokenAccount !in s.tokens
         || s.tokens[buyerTokenAccount].owner != s.escrows[escrowKey].buyer then Err(ConstraintViolated)
    else
      var e := s.escrows[escrowKey];
      if e.status != Locked then Err(InvalidStatus)
      else
        match Transfer(s.tokens, escrowVault, buyerTokenAccount, e.amount)
        case Err(err) => Err(err)
        case Ok(t) =>
          Ok(s.(escrows := s.escrows[escrowKey := e.(status := Refunded, releasedAt := Some(now))],
                tokens := t))
  }

  // ---------------------------------------------------------------------
  // Invariants and properties of the transitions

  /** What every stored escrow satisfies: a bounded order id, a positive
      amount split exactly into fee and fulfillment at the configured
      rate, and an address derived from its own seeds. */
  ghost predicate ValidState(derive: Deriver, s: ChainState)
  {
    && (s.config.Some? ==> s.config.value.treasuryFeeBps <= MAX_FEE_BPS)
    && (s.escrows != map[] ==> s.config.Some?)
    && forall k | k in s.escrows ::
         && |s.escrows[k].orderId| <= MAX_ORDER_ID_LEN
         && s.escrows[k].amount > 0
         && s.escrows[k].feeAmount + s.escrows[k].fulfillmentAmount == s.escrows[k].amount
         && s.escrows[k].feeAmount == ScaledFee(s.escrows[k].amount, s.config.value.treasuryFeeBps)
         && derive(EscrowSeeds(s.escrows[k].orderId, s.escrows[k].buyer)) == k
  }

  /** How one successful instruction may change the escrows: none
      disappears, buyer, order id and amounts never change, and a status
      changes only from Locked, so Released and Refunded are terminal. */
  ghost predicate EscrowsAdvance(before: map<Pubkey, Escrow>, after: map<Pubkey, Escrow>)
  {
    && before.Keys <= after.Keys
    && forall k | k in before ::
         && after[k].buyer == before[k].buyer
         && after[k].orderId == before[k].orderId
         && after[k].amount == before[k].amount
         && after[k].feeAmount == before[k].feeAmount
         && after[k].fulfillmentAmount == before[k].fulfillmentAmount
         && after[k].createdAt == before[k].createdAt
         && (after[k].status != before[k].status ==> before[k].status == Locked)
  }

  /** The config counters only grow, and nothing else in the config
      changes once it exists. */
  ghost predicate CountersAdvance(before: Option<Config>, after: Option<Config>)
  {
    before.Some? ==>
      && after.Some?
      && after.value.totalDeposits >= before.value.totalDeposits
      && after.value.totalReleased >= before.value.totalReleased
      && after.value.(totalDeposits := 0, totalReleased := 0)
         == before.value.(totalDeposits := 0, totalReleased := 0)
  }

  lemma InitializeProperties(s: ChainState, admin: Pubkey, treasury: Pubkey,
                             fulfillmentVault: Pubkey, treasuryFeeBps: u16, bump: u8)
    ensures var r := InitializeSpec(s, admin, treasury, fulfillmentVault, treasuryFeeBps, bump);
      && (treasuryFeeBps > MAX_FEE_BPS ==> r.Err?)
      && (r.Ok? <==> s.config.None? && treasuryFeeBps <= MAX_FEE_BPS)
      && (r.Ok? ==> r.value.config.value.totalDeposits == 0 && r.value.config.value.totalReleased == 0
                    && r.value.escrows == s.escrows && r.value.tokens == s.tokens)
  {}

  lemma CreateEscrowRejects(derive: Deriver, s: ChainState, buyer: Pubkey,
                            buyerTokenAccount: Pubkey, escrowVault: Pubkey, usdcMint: Pubkey,
                            orderId: seq<byte>, amount: u64, now: i64, bump: u8)
    requires |orderId| > MAX_ORDER_ID_LEN || amount == 0
    ensures CreateEscrowSpec(derive, s, buyer, buyerTokenAccount, escrowVault, usdcMint,
                             orderId, amount, now, bump).Err?
  {}

  /** A successful create_escrow stores a Locked escrow at the address of
      its seeds holding the amount, its exact fee split and the buyer,
      moves the amount from the buyer's token account into the vault and
      grows total_deposits by exactly the amount. */
  lemma {:induction false} CreateEscrowEffects(derive: Deriver, s: ChainState, buyer: Pubkey,
                            buyerTokenAccount: Pubkey, escrowVault: Pubkey, usdcMint: Pubkey,
                            orderId: seq<byte>, amount: u64, now: i64, bump: u8)
    requires ValidState(derive, s)
    // A program address lies off the ed25519 curve, so it is never the
    // key of a signer such as the buyer.
    requires derive(EscrowSeeds(orderId, buyer)) != buyer
    requires CreateEscrowSpec(derive, s, buyer, buyerTokenAccount, escrowVault, usdcMint,
                              orderId, amount, now, bump).Ok?
    ensures var s' := CreateEscrowSpec(derive, s, buyer, buyerTokenAccount, escrowVault, usdcMint,
                                       orderId, amount, now, bump).value;
      var key := derive(EscrowSeeds(orderId, buyer));
      && key !in s.escrows
      && s'.escrows == s.escrows[key := s'.escrows[key]]
      && s'.escrows[key].status == Locked
      && s'.escrows[key].buyer == buyer && s'.escrows[key].orderId == orderId
      && s'.escrows[key].amount == amount && amount > 0
      && s'.escrows[key].feeAmount == ScaledFee(amount, s.config.value.treasuryFeeBps)
      && s'.escrows[key].feeAmount + s'.escrows[key].fulfillmentAmount == amount
      && s'.config.value.totalDeposits == s.config.value.totalDeposits + amount
      && s'.config.value.totalReleased == s.config.value.totalReleased
      && buyerTokenAccount != escrowVault
      && s'.tokens[buyerTokenAccount].amount == s.tokens[buyerTokenAccount].amount - amount
      && s'.tokens[escrowVault].amount == s.tokens[escrowVault].amount + amount
  {
    var key := derive(EscrowSeeds(orderId, buyer));
    assert s.tokens[escrowVault].owner == key && s.tokens[buyerTokenAccount].owner == buyer;
  }

  /** release_escrow and refund_escrow both require Locked: an escrow
      that is Released or Refunded can never change again. */
  lemma TerminalStatusesAreFinal(derive: Deriver, s: ChainState, escrowKey: Pubkey, escrowVault: Pubkey,
                                 other: Pubkey, fulfillmentVault: Pubkey, admin: Pubkey, now: i64)
    requires escrowKey in s.escrows && s.escrows[escrowKey].status != Locked
    ensures var r := ReleaseEscrowSpec(derive, s, escrowKey, escrowVault, other, fulfillmentVault, admin, now);
      r.Err? && (r.error == InvalidStatus || r.error == AccountMissing || r.error == ConstraintViolated)
    ensures var r := RefundEscrowSpec(derive, s, escrowKey, escrowVault, other, admin, now);
      r.Err? && (r.error == InvalidStatus || r.error == AccountMissing || r.error == ConstraintViolated)
  {}

  /** A successful release moves the fee to the treasury and the
      fulfillment amount to the fulfillment vault (both to the one account
      when they coincide), empties the escrow's share of the vault, marks
      it Released and grows total_released by the amount. */
  lemma {:induction false} ReleaseEscrowEffects(derive: Deriver, s: ChainState, escrowKey: Pubkey,
                            escrowVault: Pubkey, treasury: Pubkey, fulfillmentVault: Pubkey,
                            admin: Pubkey, now: i64)
    requires ValidState(derive, s)
    requires escrowVault != treasury && escrowVault != fulfillmentVault
    requires ReleaseEscrowSpec(derive, s, escrowKey, escrowVault, treasury, fulfillmentVault, admin, now).Ok?
    ensures var s' := ReleaseEscrowSpec(derive, s, escrowKey, escrowVault, treasury, fulfillmentVault, admin, now).value;
      var e := s.escrows[escrowKey];
      && e.status == Locked
      && s'.escrows == s.escrows[escrowKey := e.(status := Released, releasedAt := Some(now))]
      && s'.config.value.totalReleased == s.config.value.totalReleased + e.amount
      && s'.config.value.totalDeposits == s.config.value.totalDeposits
      && s'.tokens[escrowVault].amount == s.tokens[escrowVault].amount - e.amount
      && (treasury != fulfillmentVault ==>
            s'.tokens[treasury].amount == s.tokens[treasury].amount + e.feeAmount &&
            s'.tokens[fulfillmentVault].amount == s.tokens[fulfillmentVault].amount + e.fulfillmentAmount)
      && (treasury == fulfillmentVault ==>
            s'.tokens[treasury].amount == s.tokens[treasury].amount + e.amount)
  {
    var e := s.escrows[escrowKey];
    var t1 := Transfer(s.tokens, escrowVault, treasury, e.feeAmount).value;
    var t2 := Transfer(t1, escrowVault, fulfillmentVault, e.fulfillmentAmount).value;
    assert t1[escrowVault].amount == s.tokens[escrowVault].amount - e.feeAmount;
    assert t2[escrowVault].amount == t1[escrowVault].amount - e.fulfillmentAmount;
  }

  /** A successful refund returns the whole amount to the buyer's token
      account, marks the escrow Refunded and leaves the config as it is. */
  lemma {:induction false} RefundEscrowEffects(derive: Deriver, s: ChainState, escrowKey: Pubkey,
                            escrowVault: Pubkey, buyerTokenAccount: Pubkey, admin: Pubkey, now: i64)
    requires RefundEscrowSpec(derive, s, escrowKey, escrowVault, buyerTokenAccount, admin, now).Ok?
    requires escrowVault != buyerTokenAccount
    ensures var s' := RefundEscrowSpec(derive, s, escrowKey, escrowVault, buyerTokenAccount, admin, now).value;
      var e := s.escrows[escrowKey];
      && e.status == Locked
      && s'.config == s.config
      && s'.escrows == s.escrows[escrowKey := e.(status := Refunded, releasedAt := Some(now))]
      && s'.tokens[buyerTokenAccount].amount == s.tokens[buyerTokenAccount].amount + e.amount
      && s'.tokens[escrowVault].amount == s.tokens[escrowVault].amount - e.amount
  {
    var e := s.escrows[escrowKey];
    var t := Transfer(s.tokens, escrowVault, buyerTokenAccount, e.amount);
    assert t.Ok?;
  }

  /** Every instruction keeps the program invariant, only advances
      escrow statuses out of Locked and only grows the counters. */
  lemma {:induction false} InitializePreserves(derive: Deriver, s: ChainState, admin: Pubkey, treasury: Pubkey,
                                 fulfillmentVault: Pubkey, treasuryFeeBps: u16, bump: u8)
    requires ValidState(derive, s)
    requires InitializeSpec(s, admin, treasury, fulfillmentVault, treasuryFeeBps, bump).Ok?
    ensures var s' := InitializeSpec(s, admin, treasury, fulfillmentVault, treasuryFeeBps, bump).value;
      ValidState(derive, s') && EscrowsAdvance(s.escrows, s'.escrows) && CountersAdvance(s.config, s'.config)
  {
    assert s.escrows == map[];
  }

  lemma {:induction false} CreateEscrowPreserves(derive: Deriver, s: ChainState, buyer: Pubkey,
                            buyerTokenAccount: Pubkey, escrowVault: Pubkey, usdcMint: Pubkey,
                            orderId: seq<byte>, amount: u64, now: i64, bump: u8)
    requires ValidState(derive, s)
    requires CreateEscrowSpec(derive, s, buyer, buyerTokenAccount, escrowVault, usdcMint,
                              orderId, amount, now, bump).Ok?
    ensures var s' := CreateEscrowSpec(derive, s, buyer, buyerTokenAccount, escrowVault, usdcMint,
                                       orderId, amount, now, bump).value;
      ValidState(derive, s') && EscrowsAdvance(s.escrows, s'.escrows) && CountersAdvance(s.config, s'.config)
  {
    var s' := CreateEscrowSpec(derive, s, buyer, buyerTokenAccount, escrowVault, usdcMint,
                               orderId, amount, now, bump).value;
    var key := derive(EscrowSeeds(orderId, buyer));
    assert s'.config.value.treasuryFeeBps == s.config.value.treasuryFeeBps;
    forall k | k in s'.escrows
      ensures s'.escrows[k].feeAmount == ScaledFee(s'.escrows[k].amount, s'.config.value.treasuryFeeBps)
      ensures derive(EscrowSeeds(s'.escrows[k].orderId, s'.escrows[k].buyer)) == k
    {
      if k != key { assert s'.escrows[k] == s.escrows[k]; }
    }
  }

  lemma {:induction false} ReleaseEscrowPreserves(derive: Deriver, s: ChainState, escrowKey: Pubkey,
                            escrowVault: Pubkey, treasury: Pubkey, fulfillmentVault: Pubkey,
                            admin: Pubkey, now: i64)
    requires ValidState(derive, s)
    requires ReleaseEscrowSpec(derive, s, escrowKey, escrowVault, treasury, fulfillmentVault, admin, now).Ok?
    ensures var s' := ReleaseEscrowSpec(derive, s, escrowKey, escrowVault, treasury, fulfillmentVault, admin, now).value;
      ValidState(derive, s') && EscrowsAdvance(s.escrows, s'.escrows) && CountersAdvance(s.config, s'.config)
  {
    var s' := ReleaseEscrowSpec(derive, s, escrowKey, escrowVault, treasury, fulfillmentVault, admin, now).value;
    forall k | k in s'.escrows
      ensures s'.escrows[k].feeAmount == ScaledFee(s'.escrows[k].amount, s'.config.value.treasuryFeeBps)
      ensures derive(EscrowSeeds(s'.escrows[k].orderId, s'.escrows[k].buyer)) == k
    {
      if k != escrowKey { assert s'.escrows[k] == s.escrows[k]; }
    }
  }

  lemma {:induction false} RefundEscrowPreserves(derive: Deriver, s: ChainState, escrowKey: Pubkey,
                            escrowVault: Pubkey, buyerTokenAccount: Pubkey, admin: Pubkey, now: i64)
    requires ValidState(derive, s)
    requires RefundEscrowSpec(derive, s, escrowKey, escrowVault, buyerTokenAccount, admin, now).Ok?
    ensures var s' := RefundEscrowSpec(derive, s, escrowKey, escrowVault, buyerTokenAccount, admin, now).value;
      ValidState(derive, s') && EscrowsAdvance(s.escrows, s'.escrows) && s'.config == s.config
  {
    var s' := RefundEscrowSpec(derive, s, escrowKey, escrowVault, buyerTokenAccount, admin, now).value;
    forall k | k in s'.escrows
      ensures s'.escrows[k].feeAmount == ScaledFee(s'.escrows[k].amount, s'.config.value.treasuryFeeBps)
      ensures derive(EscrowSeeds(s'.escrows[k].orderId, s'.escrows[k].buyer)) == k
    {
      if k != escrowKey { assert s'.escrows[k] == s.escrows[k]; }
    }
  }

  // ---------------------------------------------------------------------
  // The accounts, updated in place by the instruction handlers

  class EscrowChain {
    const derive: Deriver
    var config: Option<Config>
    var escrows: map<Pubkey, Escrow>
    var tokens: map<Pubkey, TokenAccount>

    function State(): ChainState
      reads this
    {
      ChainState(config, escrows, tokens)
    }

    ghost predicate Valid()
      reads this
    {
      ValidState(derive, State())
    }

    /** A freshly deployed program: no config and no escrow yet. */
    constructor (derive: Deriver, tokens: map<Pubkey, TokenAccount>)
      ensures Valid()
      ensures this.derive == derive && config.None? && escrows == map[] && this.tokens == tokens
    {
      this.derive := derive;
      config := None;
      escrows := map[];
      this.tokens := tokens;
    }

    method Initialize(admin: Pubkey, treasury: Pubkey, fulfillmentVault: Pubkey,
                      treasuryFeeBps: u16, bump: u8) returns (r: Result<(), ProgramError>)
      requires Valid()
      modifies this
      ensures Valid()
      ensures var spec := InitializeSpec(old(State()), admin, treasury, fulfillmentVault, treasuryFeeBps, bump);
        && (spec.Ok? ==> r.Ok? && State() == spec.value)
        && (spec.Err? ==> r == Err(spec.error) && State() == old(State()))
    {
      ghost var s0 := State();
      if config.Some? {
        return Err(AccountInUse);
      }
      if treasuryFeeBps > MAX_FEE_BPS {
        return Err(FeeTooHigh);
      }
      config := Some(Config(admin, treasury, fulfillmentVault, treasuryFeeBps, 0, 0, bump));
      r := Ok(());
      InitializePreserves(derive, s0, admin, treasury, fulfillmentVault, treasuryFeeBps, bump);
    }

    /** Returns the address of the new escrow account. */
    method CreateEscrow(buyer: Pubkey, buyerTokenAccount: Pubkey, escrowVault: Pubkey, usdcMint: Pubkey,
                        orderId: seq<byte>, amount: u64, now: i64, bump: u8)
      returns (r: Result<Pubkey, ProgramError>)
      requires Valid()
      modifies this
      ensures Valid()
      ensures var spec := CreateEscrowSpec(derive, old(State()), buyer, buyerTokenAccount, escrowVault,
                                           usdcMint, orderId, amount, now, bump);
        && (spec.Ok? ==> r == Ok(derive(EscrowSeeds(orderId, buyer))) && State() == spec.value)
        && (spec.Err? ==> r == Err(spec.error) && State() == old(State()))
    {
      ghost var s0 := State();
      var key := derive(EscrowSeeds(orderId, buyer));
      var accounts := CreateAccountsError(State(), key, buyer, buyerTokenAccount, escrowVault, usdcMint);
      if accounts.Some? {
        return Err(accounts.value);
      }
      if |orderId| > MAX_ORDER_ID_LEN {
        return Err(OrderIdTooLong);
      }
      if amount == 0 {
        return Err(InvalidAmount);
      }
      var cfg := config.value;
      // The fee cap kept by Valid() means the split cannot panic here.
      var split := FeeSplit(amount, cfg.treasuryFeeBps);
      var moved := Transfer(tokens, buyerTokenAccount, escrowVault, amount);
      if moved.Err? {
        return Err(moved.error);
      }
      if cfg.totalDeposits + amount >= U64_LIMIT {
        return Err(ArithmeticPanic);
      }
      var escrow := Escrow(buyer, orderId, amount, split.value.0, split.value.1, Locked, now, None, bump);
      ghost var s1 := ChainState(Some(cfg.(totalDeposits := cfg.totalDeposits + amount)),
                                 escrows[key := escrow], moved.value);
      assert CreateEscrowSpec(derive, s0, buyer, buyerTokenAccount, escrowVault, usdcMint,
                              orderId, amount, now, bump) == Ok(s1);
      CreateEscrowPreserves(derive, s0, buyer, buyerTokenAccount, escrowVault, usdcMint, orderId, amount, now, bump);
      escrows := escrows[key := escrow];
      tokens := moved.value;
      config := Some(cfg.(totalDeposits := cfg.totalDeposits + amount));
      r := Ok(key);
      assert State() == s1;
    }

    method ReleaseEscrow(escrowKey: Pubkey, escrowVault: Pubkey, treasury: Pubkey,
                         fulfillmentVault: Pubkey, admin: Pubkey, now: i64)
      returns (r: Result<(), ProgramError>)
      requires Valid()
      modifies this
      ensures Valid()
      ensures var spec := ReleaseEscrowSpec(derive, old(State()), escrowKey, escrowVault, treasury,
                                            fulfillmentVault, admin, now);
        && (spec.Ok? ==> r.Ok? && State() == spec.value)
        && (spec.Err? ==> r == Err(spec.error) && State() == old(State()))
    {
      ghost var s0 := State();
      var accounts := ReleaseAccountsError(derive, State(), escrowKey, escrowVault, treasury, fulfillmentVault, admin);
      if accounts.Some? {
        return Err(accounts.value);
      }
      var cfg := config.value;
      var e := escrows[escrowKey];
      if e.status != Locked {
        return Err(InvalidStatus);
      }
      var toTreasury := Transfer(tokens, escrowVault, treasury, e.feeAmount);
      if toTreasury.Err? {
        return Err(toTreasury.error);
      }
      var toVault := Transfer(toTreasury.value, escrowVault, fulfillmentVault, e.fulfillmentAmount);
      if toVault.Err? {
        return Err(toVault.error);
      }
      if cfg.totalReleased + e.amount >= U64_LIMIT {
        return Err(ArithmeticPanic);
      }
      ghost var s1 := ChainState(Some(cfg.(totalReleased := cfg.totalReleased + e.amount)),
                                 escrows[escrowKey := e.(status := Released, releasedAt := Some(now))],
                                 toVault.value);
      assert ReleaseEscrowSpec(derive, s0, escrowKey, escrowVault, treasury, fulfillmentVault, admin, now) == Ok(s1);
      ReleaseEscrowPreserves(derive, s0, escrowKey, escrowVault, treasury, fulfillmentVault, admin, now);
      tokens := toVault.value;
      escrows := escrows[escrowKey := e.(status := Released, releasedAt := Some(now))];
      config := Some(cfg.(totalReleased := cfg.totalReleased + e.amount));
      r := Ok(());
      assert State() == s1;
    }

    method RefundEscrow(escrowKey: Pubkey, escrowVault: Pubkey, buyerTokenAccount: Pubkey,
                        admin: Pubkey, now: i64)
      returns (r: Result<(), ProgramError>)
      requires Valid()
      modifies this
      ensures Valid()
      ensures var spec := RefundEscrowSpec(derive, old(State()), escrowKey, escrowVault,
                                           buyerTokenAccount, admin, now);
        && (spec.Ok? ==> r.Ok? && State() == spec.value)
        && (spec.Err? ==> r == Err(spec.error) && State() == old(State()))
    {
      ghost var s0 := State();
      if config.None? {
        return Err(AccountMissing);
      }
      if config.value.admin != admin {
        return Err(ConstraintViolated);
      }
      if escrowKey !in escrows {
        return Err(AccountMissing);
      }
      if !EscrowAccountsOk(derive, State(), escrowKey, escrowVault) {
        return Err(ConstraintViolated);
      }
      var e := escrows[escrowKey];
      if buyerTokenAccount !in tokens || tokens[buyerTokenAccount].owner != e.buyer {
        return Err(ConstraintViolated);
      }
      if e.status != Locked {
        return Err(InvalidStatus);
      }
      var back := Transfer(tokens, escrowVault, buyerTokenAccount, e.amount);
      if back.Err? {
        return Err(back.error);
      }
      tokens := back.value;
      escrows := escrows[escrowKey := e.(status := Refunded, releasedAt := Some(now))];
      r := Ok(());
      RefundEscrowPreserves(derive, s0, escrowKey, escrowVault, buyerTokenAccount, admin, now);
    }
  }

  // ---------------------------------------------------------------------
  // Account data as Borsh lays it out

  const CONFIG_SIZE: nat := 8 + 32 + 32 + 32 + 2 + 8 + 8 + 1
  const ESCROW_SIZE: nat := 8 + 32 + 36 + 8 + 8 + 8 + 1 + 8 + 9 + 1

  type Discriminator = s: seq<byte> | |s| == 8 witness [0, 0, 0, 0, 0, 0, 0, 0]

  function StatusByte(st: EscrowStatus): byte {
    match st
    case Locked => 0
    case Released => 1
    case Refunded => 2
  }

  function U64Bytes(n: u64): (bs: seq<byte>)
    ensures |bs| == 8
  {
    Pow256Values();
    LittleEndian(n, 8)
  }

  function BorshString(s: seq<byte>): (bs: seq<byte>)
    requires |s| < U32_LIMIT
    ensures |bs| == 4 + |s| && bs[4..] == s
  {
    Pow256Values();
    LittleEndian(|s|, 4) + s
  }

  function BorshOptionI64(o: Option<i64>): (bs: seq<byte>)
    ensures |bs| == if o.Some? then 9 else 1
  {
    match o
    case None => [0]
    case Some(v) => [1] + I64LittleEndian(v)
  }

  /** An `EscrowConfig` account's data: discriminator then fields in
      declaration order. */
  function SerializeConfig(disc: Discriminator, c: Config): seq<byte>
  {
    Pow256Values();
    disc + c.admin + c.treasury + c.fulfillmentVault + LittleEndian(c.treasuryFeeBps, 2)
      + U64Bytes(c.totalDeposits) + U64Bytes(c.totalReleased) + [c.bump]
  }

  /** An `Escrow` account's data: discriminator then fields in
      declaration order, the order id as a length-prefixed string. */
  function SerializeEscrow(disc: Discriminator, e: Escrow): seq<byte>
    requires |e.orderId| < U32_LIMIT
  {
    disc + e.buyer + BorshString(e.orderId) + U64Bytes(e.amount) + U64Bytes(e.feeAmount)
      + U64Bytes(e.fulfillmentAmount) + [StatusByte(e.status)] + I64LittleEndian(e.createdAt)
      + BorshOptionI64(e.releasedAt) + [e.bump]
  }

  /** `EscrowConfig::SIZE` is exactly the serialized size of a config. */
  lemma ConfigSizeExact(disc: Discriminator, c: Config)
    ensures |SerializeConfig(disc, c)| == CONFIG_SIZE == 123
  {}

  /** `Escrow::SIZE` reserves room for the longest order id create_escrow
      accepts (32 bytes) with `released_at` set; a shorter id or an unset
      `released_at` leaves unused bytes at the end. */
  lemma EscrowFitsAccount(disc: Discriminator, e: Escrow)
    requires |e.orderId| <= MAX_ORDER_ID_LEN
    ensures |SerializeEscrow(disc, e)| == 8 + 32 + 4 + |e.orderId| + 24 + 1 + 8
                                          + (if e.releasedAt.Some? then 9 else 1) + 1
    ensures |SerializeEscrow(disc, e)| <= ESCROW_SIZE == 119
    ensures |e.orderId| == MAX_ORDER_ID_LEN && e.releasedAt.Some? ==>
              |SerializeEscrow(disc, e)| == ESCROW_SIZE
  {}
}

