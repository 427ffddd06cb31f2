/** The browser-side escrow client (src/services/escrowService.ts):
    address derivation, USDC unit conversion, the create-escrow
    instruction and the decoder of an escrow account. */
module EscrowService {
  import opened Wrappers
  import opened Bytes
  import opened Solana
  import P = EscrowProgram

  // ---------------------------------------------------------------------
  // Addresses

  function ConfigPda(derive: P.Deriver): Pubkey {
    derive([Ascii("config")])
  }

  function EscrowPda(derive: P.Deriver, orderId: seq<byte>, buyer: Pubkey): Pubkey {
    derive([Ascii("escrow"), orderId, buyer])
  }

  function VaultSeeds(escrow: Pubkey): P.Seeds {
    [Ascii("vault"), escrow]
  }

  function VaultPda(derive: P.Deriver, escrow: Pubkey): Pubkey {
    derive(VaultSeeds(escrow))
  }

  /** The client derives the config and escrow addresses from the very
      seed lists the program checks, so for any derivation both sides
      agree on every address. */
  lemma AddressesMatchProgram(derive: P.Deriver, orderId: seq<byte>, buyer: Pubkey)
    ensures ConfigPda(derive) == derive(P.ConfigSeeds())
    ensures EscrowPda(derive, orderId, buyer) == derive(P.EscrowSeeds(orderId, buyer))
  {}

  /** The vault seed list is none of the seed lists the program knows:
      no instruction of the program creates or signs for that address. */
  lemma VaultSeedsUnknownToProgram(escrow: Pubkey, orderId: seq<byte>, buyer: Pubkey)
    ensures VaultSeeds(escrow) != P.ConfigSeeds()
    ensures VaultSeeds(escrow) != P.EscrowSeeds(orderId, buyer)
  {
    assert |VaultSeeds(escrow)| == 2 && |P.ConfigSeeds()| == 1 && |P.EscrowSeeds(orderId, buyer)| == 3;
  }

  // ---------------------------------------------------------------------
  // What the client's library calls throw

  datatype ClientError =
    | UnsafeAmount      // new BN(n) with |n| of 2^53 or more fails an assertion
    | SeedTooLong       // findProgramAddressSync of a seed longer than 32 bytes
    | RangeError        // readUInt32LE past the end of the buffer
    | NumberTooLarge    // BN.toNumber of 2^53 or more

  /** 2^53: bn.js builds a BN from a number, and gives a number back,
      only below this magnitude. */
  const SAFE_LIMIT: nat := 0x20_0000_0000_0000

  /** web3.js refuses a seed longer than this. */
  const MAX_SEED_LENGTH: nat := 32

  function Abs(x: int): nat {
    if x < 0 then -x else x
  }

  /** `PublicKey.findProgramAddressSync`: it throws when a seed is longer
      than 32 bytes, and gives the program address of the seeds
      otherwise. */
  function FindProgramAddress(derive: P.Deriver, seeds: P.Seeds): (r: Result<Pubkey, ClientError>)
    ensures r.Ok? <==> forall i :: 0 <= i < |seeds| ==> |seeds[i]| <= MAX_SEED_LENGTH
    ensures r.Ok? ==> r.value == derive(seeds)
    ensures r.Err? ==> r.error == SeedTooLong
  {
    if forall i | 0 <= i < |seeds| :: |seeds[i]| <= MAX_SEED_LENGTH then Ok(derive(seeds))
    else Err(SeedTooLong)
  }

  /** `getEscrowPDA`: the order id is one of the seeds, so an id longer
      than 32 bytes makes the derivation throw. The program refuses the
      same ids (MAX_ORDER_ID_LEN), so the client can address exactly the
      escrows the program can create. */
  function GetEscrowPda(derive: P.Deriver, orderId: seq<byte>, buyer: Pubkey): (r: Result<Pubkey, ClientError>)
    ensures r.Ok? <==> |orderId| <= MAX_SEED_LENGTH
    ensures r.Ok? <==> |orderId| <= P.MAX_ORDER_ID_LEN
    ensures r.Ok? ==> r.value == EscrowPda(derive, orderId, buyer)
    ensures r.Err? ==> r.error == SeedTooLong
  {
    EscrowSeedsFit(orderId, buyer);
    FindProgramAddress(derive, P.EscrowSeeds(orderId, buyer))
  }

  /** The "escrow" tag and the buyer key always fit, so the escrow seeds
      fit exactly when the order id does. */
  lemma EscrowSeedsFit(orderId: seq<byte>, buyer: Pubkey)
    ensures var seeds := P.EscrowSeeds(orderId, buyer);
      (forall i :: 0 <= i < |seeds| ==> |seeds[i]| <= MAX_SEED_LENGTH) <==> |orderId| <= MAX_SEED_LENGTH
  {
    var seeds := P.EscrowSeeds(orderId, buyer);
    assert |seeds[0]| == 6 && seeds[1] == orderId && |seeds[2]| == 32;
    if |orderId| <= MAX_SEED_LENGTH {
      forall i | 0 <= i < |seeds|
        ensures |seeds[i]| <= MAX_SEED_LENGTH
      {
        assert i == 0 || i == 1 || i == 2;
      }
    }
  }

  // ---------------------------------------------------------------------
  // Units: USDC has 6 decimals

  const MICRO: real := 1000000.0

  /** `Math.floor(amount * 1_000_000)`, in exact arithmetic. */
  function Lamports(amount: real): (n: int)
    ensures n as real <= amount * MICRO < n as real + 1.0
  {
    (amount * MICRO).Floor
  }

  /** `usdcToLamports`: `new BN(..)` of that number, which fails an
      assertion in bn.js when the magnitude is 2^53 or more. */
  function UsdcToLamports(amount: real): (r: Result<int, ClientError>)
    ensures r.Ok? <==> 1.0 - SAFE_LIMIT as real <= amount * MICRO < SAFE_LIMIT as real
    ensures r.Ok? ==> r.value == Lamports(amount) && Abs(r.value) < SAFE_LIMIT
    ensures r.Err? ==> r.error == UnsafeAmount
  {
    var n := Lamports(amount);
    if Abs(n) < SAFE_LIMIT then Ok(n) else Err(UnsafeAmount)
  }

  /** `lamports.toNumber() / 1_000_000` once the BN is a number. */
  function LamportsToUsdc(n: int): (a: real)
    ensures a * MICRO == n as real
  {
    n as real / MICRO
  }

  /** Converting to base units and back never gains value, and gives back
      exactly the amount when it has at most six decimals. */
  lemma UnitsRoundTrip(amount: real)
    ensures LamportsToUsdc(Lamports(amount)) <= amount
    ensures LamportsToUsdc(Lamports(amount)) == amount
            <==> (amount * MICRO).Floor as real == amount * MICRO
  {
    var n := Lamports(amount);
    assert LamportsToUsdc(n) * MICRO == n as real;
  }

  // ---------------------------------------------------------------------
  // The create-escrow instruction

  /** The placeholder tag the client writes where Anchor expects the
      instruction discriminator. */
  const CREATE_ESCROW_TAG: seq<byte> := [0, 1, 2, 3, 4, 5, 6, 7]

  /** `BN.toArrayLike(Buffer, 'le', 8)`: writes the magnitude, so a
      negative amount is written without its sign. */
  function AmountBytes(lamports: int): (bs: seq<byte>)
    requires Abs(lamports) < U64_LIMIT
    ensures |bs| == 8
  {
    Pow256Values();
    LittleEndian(Abs(lamports), 8)
  }

  /** Writes `src` into `dst` from index `at` (Buffer.copy). */
  method CopyInto(dst: array<byte>, src: seq<byte>, at: nat)
    requires at + |src| <= dst.Length
    modifies dst
    ensures forall k :: 0 <= k < dst.Length ==>
      dst[k] == if at <= k < at + |src| then src[k - at] else old(dst[k])
  {
    var i := 0;
    while i < |src|
      invariant 0 <= i <= |src|
      invariant forall k :: 0 <= k < dst.Length ==>
        dst[k] == if at <= k < at + i then src[k - at] else old(dst[k])
    {
      dst[at + i] := src[i];
      i := i + 1;
    }
  }

  /** The data buffer of `createEscrowInstruction`: allocated zeroed, then
      the tag at 0, the order-id length at 8, the order id at 12 and the
      amount after it. It is built only once the amount became a BN and
      the escrow address was derived, so the amount is below 2^53 in
      magnitude and the id at most 32 bytes long: neither
      `writeUInt32LE` nor `toArrayLike` can throw here. */
  method CreateEscrowData(orderId: seq<byte>, lamports: int) returns (data: seq<byte>)
    requires |orderId| <= MAX_SEED_LENGTH && Abs(lamports) < SAFE_LIMIT
    ensures |data| == 8 + 4 + |orderId| + 8
    ensures data[..8] == CREATE_ESCROW_TAG
    ensures FromLittleEndian(data[8..12]) == |orderId|
    ensures data[12..12 + |orderId|] == orderId
    ensures data[12 + |orderId|..] == AmountBytes(lamports)
  {
    var n := |orderId|;
    var buffer := new byte[8 + 4 + n + 8](_ => 0);
    CopyInto(buffer, CREATE_ESCROW_TAG, 0);
    Pow256Values();
    var lengthBytes := LittleEndian(n, 4);
    CopyInto(buffer, lengthBytes, 8);
    CopyInto(buffer, orderId, 12);
    var amountBytes := AmountBytes(lamports);
    CopyInto(buffer, amountBytes, 12 + n);
    FromLittleEndianInverse(n, 4);
    assert buffer[8..12] == lengthBytes;
    data := buffer[..];
  }

  /** How the program reads create_escrow's arguments after the 8-byte
      discriminator: a Borsh string then a u64. */
  function DecodeCreateEscrowArgs(data: seq<byte>): Option<(seq<byte>, nat)>
  {
    if |data| < 12 then None
    else
      var n := FromLittleEndian(data[8..12]);
      if |data| != 12 + n + 8 then None
      else Some((data[12..12 + n], FromLittleEndian(data[12 + n..])))
  }

  /** The program reads back exactly the order id the client wrote, and
      the magnitude of the amount: a negative amount arrives positive. */
  lemma CreateEscrowDataReadsBack(orderId: seq<byte>, lamports: int, data: seq<byte>)
    requires |orderId| < U32_LIMIT && Abs(lamports) < U64_LIMIT
    requires |data| == 8 + 4 + |orderId| + 8
    requires FromLittleEndian(data[8..12]) == |orderId|
    requires data[12..12 + |orderId|] == orderId
    requires data[12 + |orderId|..] == AmountBytes(lamports)
    ensures DecodeCreateEscrowArgs(data) == Some((orderId, Abs(lamports)))
  {
    Pow256Values();
    FromLittleEndianInverse(Abs(lamports), 8);
  }

  /** The account list of createEscrowInstruction, in the order of the
      program's CreateEscrow context (the rent sysvar is an extra). */
  function CreateEscrowKeys(derive: P.Deriver, ata: AtaDeriver, ids: WellKnownIds,
                            buyer: Pubkey, orderId: seq<byte>, usdcMint: Pubkey): seq<AccountMeta>
  {
    var escrow := EscrowPda(derive, orderId, buyer);
    [ AccountMeta(ConfigPda(derive), false, true),
      AccountMeta(escrow, false, true),
      AccountMeta(VaultPda(derive, escrow), false, true),
      AccountMeta(buyer, true, true),
      AccountMeta(ata(usdcMint, buyer), false, true),
      AccountMeta(usdcMint, false, false),
      AccountMeta(ids.tokenProgram, false, false),
      AccountMeta(ids.systemProgram, false, false),
      AccountMeta(ids.rentSysvar, false, false) ]
  }

  /** What createEscrowInstruction returns. */
  datatype EscrowInstruction = EscrowInstruction(instruction: Instruction, escrowPda: Pubkey, escrowVaultPda: Pubkey)

  /** The error createEscrowInstruction throws, in the order it makes its
      checks: the amount first, then the escrow address. */
  function CreateEscrowError(orderId: seq<byte>, amountUsdc: real): ClientError {
    if UsdcToLamports(amountUsdc).Err? then UnsafeAmount else SeedTooLong
  }

  /** `createEscrowInstruction`: the amount in base units, the three
      addresses, then the data buffer and the instruction. */
  method CreateEscrowInstruction(derive: P.Deriver, ata: AtaDeriver, ids: WellKnownIds,
                                 buyer: Pubkey, orderId: seq<byte>, amountUsdc: real, usdcMint: Pubkey)
    returns (r: Result<EscrowInstruction, ClientError>)
    ensures r.Ok? <==> UsdcToLamports(amountUsdc).Ok? && |orderId| <= MAX_SEED_LENGTH
    ensures r.Err? ==> r.error == CreateEscrowError(orderId, amountUsdc)
    ensures r.Ok? ==>
      var ix := r.value.instruction;
      && r.value.escrowPda == derive(P.EscrowSeeds(orderId, buyer))
      && r.value.escrowVaultPda == VaultPda(derive, r.value.escrowPda)
      && ix.Invoke? && ix.programId == ids.escrowProgram
      && ix.keys == CreateEscrowKeys(derive, ata, ids, buyer, orderId, usdcMint)
      && |ix.data| == 8 + 4 + |orderId| + 8
      && ix.data[..8] == CREATE_ESCROW_TAG
      && DecodeCreateEscrowArgs(ix.data) == Some((orderId, Abs(Lamports(amountUsdc))))
  {
    var amount := UsdcToLamports(amountUsdc);
    if amount.Err? {
      return Err(amount.error);
    }
    var config := ConfigPda(derive);
    var escrow := GetEscrowPda(derive, orderId, buyer);
    if escrow.Err? {
      return Err(escrow.error);
    }
    var vault := VaultPda(derive, escrow.value);
    var data := CreateEscrowData(orderId, amount.value);
    Pow256Values();
    CreateEscrowDataReadsBack(orderId, amount.value, data);
    var keys := CreateEscrowKeys(derive, ata, ids, buyer, orderId, usdcMint);
    r := Ok(EscrowInstruction(Invoke(ids.escrowProgram, keys, data), escrow.value, vault));
  }

  datatype EscrowTransaction = EscrowTransaction(
    instructions: seq<Instruction>,
    escrowPda: Pubkey,
    feePayer: Pubkey,
    recentBlockhash: seq<byte>)

  /** `buildEscrowTransaction`: an instruction creating the buyer's USDC
      account when it does not exist yet, then the create-escrow call. */
  method BuildEscrowTransaction(derive: P.Deriver, ata: AtaDeriver, ids: WellKnownIds,
                                buyer: Pubkey, orderId: seq<byte>, amountUsdc: real,
                                usdcMint: Pubkey, buyerTokenAccountExists: bool,
                                blockhash: seq<byte>)
    returns (r: Result<EscrowTransaction, ClientError>)
    ensures r.Ok? <==> UsdcToLamports(amountUsdc).Ok? && |orderId| <= MAX_SEED_LENGTH
    ensures r.Err? ==> r.error == CreateEscrowError(orderId, amountUsdc)
    ensures r.Ok? ==>
      var tx := r.value;
      var buyerAta := ata(usdcMint, buyer);
      && tx.escrowPda == derive(P.EscrowSeeds(orderId, buyer))
      && tx.feePayer == buyer && tx.recentBlockhash == blockhash
      && |tx.instructions| == (if buyerTokenAccountExists then 1 else 2)
      && (!buyerTokenAccountExists ==>
            tx.instructions[0] == CreateAssociatedTokenAccount(buyer, buyerAta, buyer, usdcMint))
      && var last := tx.instructions[|tx.instructions| - 1];
         && last.Invoke? && last.programId == ids.escrowProgram
         && last.keys == CreateEscrowKeys(derive, ata, ids, buyer, orderId, usdcMint)
         && |last.data| == 8 + 4 + |orderId| + 8
         && last.data[..8] == CREATE_ESCROW_TAG
         && DecodeCreateEscrowArgs(last.data) == Some((orderId, Abs(Lamports(amountUsdc))))
  {
    var instructions: seq<Instruction> := [];
    if !buyerTokenAccountExists {
      instructions := instructions + [CreateAssociatedTokenAccount(buyer, ata(usdcMint, buyer), buyer, usdcMint)];
    }
    var created := CreateEscrowInstruction(derive, ata, ids, buyer, orderId, amountUsdc, usdcMint);
    if created.Err? {
      return Err(created.error);
    }
    instructions := instructions + [created.value.instruction];
    r := Ok(EscrowTransaction(instructions, created.value.escrowPda, buyer, blockhash));
  }

  // ---------------------------------------------------------------------
  // Reading an escrow account back

  datatype ClientStatus = Locked | Released | Refunded

  datatype EscrowView = EscrowView(
    buyer: Pubkey,
    orderId: seq<byte>,
    amount: real,
    feeAmount: real,
    fulfillmentAmount: real,
    status: ClientStatus,
    createdAt: int)

  /** `BN.toNumber()`: exact below 2^53, an assertion failure above. */
  function ToNumber(n: nat): (r: Result<int, ClientError>)
    ensures r.Ok? <==> n < SAFE_LIMIT
    ensures r.Ok? ==> r.value == n
  {
    if n < SAFE_LIMIT then Ok(n) else Err(NumberTooLarge)
  }

  /** `new PublicKey(bytes)`: the bytes are a big-endian number, so a
      short slice comes out padded with zeros in front. */
  function PubkeyFromBytes(s: seq<byte>): (k: Pubkey)
    requires |s| <= 32
    ensures |s| == 32 ==> k == s
    ensures k[32 - |s|..] == s
  {
    seq(32 - |s|, _ => 0) + s
  }

  /** The status byte: 0 is Locked, 1 Released, anything else (a missing
      byte included) Refunded. */
  function StatusAt(data: seq<byte>, at: nat): (st: ClientStatus)
    ensures st == Locked <==> at < |data| && data[at] == 0
    ensures st == Released <==> at < |data| && data[at] == 1
  {
    if at < |data| && data[at] == 0 then Locked
    else if at < |data| && data[at] == 1 then Released
    else Refunded
  }

  /** `new BN(data.slice(at, at + 8), 'le')`: the clamped slice read as a
      little-endian number. */
  function U64At(data: seq<byte>, at: nat): nat {
    FromLittleEndian(Slice(data, at, at + 8))
  }

  /** The record getEscrowAccount returns for account data, read field
      by field from fixed positions relative to the order id's end. */
  function DecodeEscrow(data: seq<byte>): Result<EscrowView, ClientError>
  {
    if |data| < 44 then Err(RangeError)
    else DecodeAfterLength(data, 44 + FromLittleEndian(data[40..44]))
  }

  /** The fields once the order id is known to end at `o`. */
  function DecodeAfterLength(data: seq<byte>, o: nat): Result<EscrowView, ClientError>
    requires o >= 44
  {
    var amount := ToNumber(U64At(data, o));
    var fee := ToNumber(U64At(data, o + 8));
    var fulfillment := ToNumber(U64At(data, o + 16));
    var created := ToNumber(U64At(data, o + 25));
    if amount.Err? || fee.Err? || fulfillment.Err? || created.Err? then Err(NumberTooLarge)
    else Ok(EscrowView(PubkeyFromBytes(Slice(data, 8, 40)), Slice(data, 44, o),
                       LamportsToUsdc(amount.value), LamportsToUsdc(fee.value),
                       LamportsToUsdc(fulfillment.value), StatusAt(data, o + 24), created.value))
  }

  /** The decoder of getEscrowAccount, walking one offset through the
      buffer with no length checks of its own. */
  method DecodeEscrowAccount(data: seq<byte>) returns (r: Result<EscrowView, ClientError>)
    ensures r == DecodeEscrow(data)
  {
    var offset: nat := 8;
    var buyer := PubkeyFromBytes(Slice(data, offset, offset + 32));
    offset := offset + 32;
    if offset + 4 > |data| {
      return Err(RangeError);
    }
    var orderIdLen := FromLittleEndian(data[offset..offset + 4]);
    offset := offset + 4;
    var orderId := Slice(data, offset, offset + orderIdLen);
    offset := offset + orderIdLen;
    var amount := ToNumber(FromLittleEndian(Slice(data, offset, offset + 8)));
    if amount.Err? {
      return Err(amount.error);
    }
    offset := offset + 8;
    var fee := ToNumber(FromLittleEndian(Slice(data, offset, offset + 8)));
    if fee.Err? {
      return Err(fee.error);
    }
    offset := offset + 8;
    var fulfillment := ToNumber(FromLittleEndian(Slice(data, offset, offset + 8)));
    if fulfillment.Err? {
      return Err(fulfillment.error);
    }
    offset := offset + 8;
    var status := StatusAt(data, offset);
    offset := offset + 1;
    var createdAt := ToNumber(FromLittleEndian(Slice(data, offset, offset + 8)));
    if createdAt.Err? {
      return Err(createdAt.error);
    }
    r := Ok(EscrowView(buyer, orderId, LamportsToUsdc(amount.value), LamportsToUsdc(fee.value),
                       LamportsToUsdc(fulfillment.value), status, createdAt.value));
  }

  function StatusView(st: P.EscrowStatus): ClientStatus {
    match st
    case Locked => Locked
    case Released => Released
    case Refunded => Refunded
  }

  /** What the client should see for a stored escrow. */
  function View(e: P.Escrow): EscrowView {
    EscrowView(e.buyer, e.orderId, LamportsToUsdc(e.amount), LamportsToUsdc(e.feeAmount),
               LamportsToUsdc(e.fulfillmentAmount), StatusView(e.status), e.createdAt)
  }

  /** Reading fields that sit where the decoder looks for them. */
  lemma DecodeFromFields(data: seq<byte>, buyer: Pubkey, orderId: seq<byte>,
                         amount: nat, fee: nat, fulfillment: nat, createdAt: nat)
    requires amount < SAFE_LIMIT && fee < SAFE_LIMIT && fulfillment < SAFE_LIMIT && createdAt < SAFE_LIMIT
    requires |data| >= 44 + |orderId| + 33
    requires data[8..40] == buyer
    requires FromLittleEndian(data[40..44]) == |orderId|
    requires data[44..44 + |orderId|] == orderId
    requires U64At(data, 44 + |orderId|) == amount
    requires U64At(data, 52 + |orderId|) == fee
    requires U64At(data, 60 + |orderId|) == fulfillment
    requires U64At(data, 69 + |orderId|) == createdAt
    ensures DecodeEscrow(data) == Ok(EscrowView(buyer, orderId, LamportsToUsdc(amount), LamportsToUsdc(fee),
                                                LamportsToUsdc(fulfillment),
                                                StatusAt(data, 68 + |orderId|), createdAt))
  {
    assert Slice(data, 8, 40) == buyer;
    assert Slice(data, 44, 44 + |orderId|) == orderId;
  }

  lemma U64AtWritten(data: seq<byte>, at: nat, v: nat)
    requires at + 8 <= |data| && v < U64_LIMIT
    requires Pow256(8) == U64_LIMIT
    requires data[at..at + 8] == LittleEndian(v, 8)
    ensures U64At(data, at) == v
  {
    assert Slice(data, at, at + 8) == LittleEndian(v, 8);
    FromLittleEndianInverse(v, 8);
  }

  /** The decoder agrees with the program's Borsh layout: the account data
      of an escrow (plus any unused bytes of the account) decodes to that
      escrow, as long as its amounts and creation time are below 2^53 and
      the creation time is not negative. */
  lemma {:induction false} DecodeSerializedEscrow(disc: P.Discriminator, e: P.Escrow, unused: seq<byte>)
    requires |e.orderId| < U32_LIMIT
    requires e.amount < SAFE_LIMIT && e.feeAmount < SAFE_LIMIT && e.fulfillmentAmount < SAFE_LIMIT
    requires 0 <= e.createdAt < SAFE_LIMIT
    ensures DecodeEscrow(P.SerializeEscrow(disc, e) + unused) == Ok(View(e))
  {
    SerializedEscrowLayout(disc, e, unused);
    DecodeLaidOut(P.SerializeEscrow(disc, e) + unused, e);
  }

  /** Data holding an escrow's fields where the program's layout puts
      them decodes to that escrow. */
  lemma DecodeLaidOut(data: seq<byte>, e: P.Escrow)
    requires |e.orderId| < U32_LIMIT
    requires e.amount < SAFE_LIMIT && e.feeAmount < SAFE_LIMIT && e.fulfillmentAmount < SAFE_LIMIT
    requires 0 <= e.createdAt < SAFE_LIMIT
    requires var n := |e.orderId|;
      && Pow256(4) == U32_LIMIT && Pow256(8) == U64_LIMIT
      && |data| >= 77 + n
      && data[8..40] == e.buyer
      && data[40..44] == LittleEndian(n, 4)
      && data[44..44 + n] == e.orderId
      && data[44 + n..52 + n] == LittleEndian(e.amount, 8)
      && data[52 + n..60 + n] == LittleEndian(e.feeAmount, 8)
      && data[60 + n..68 + n] == LittleEndian(e.fulfillmentAmount, 8)
      && data[68 + n] == P.StatusByte(e.status)
      && data[69 + n..77 + n] == LittleEndian(e.createdAt, 8)
    ensures DecodeEscrow(data) == Ok(View(e))
  {
    var n := |e.orderId|;
    ReadBackAmounts(data, n, e.amount, e.feeAmount, e.fulfillmentAmount);
    U64AtWritten(data, 69 + n, e.createdAt);
    FromLittleEndianInverse(n, 4);
    DecodeFromFields(data, e.buyer, e.orderId, e.amount, e.feeAmount, e.fulfillmentAmount, e.createdAt);
    StatusReadBack(data, 68 + n, e.status);
  }

  lemma StatusReadBack(data: seq<byte>, at: nat, st: P.EscrowStatus)
    requires at < |data| && data[at] == P.StatusByte(st)
    ensures StatusAt(data, at) == StatusView(st)
  {
  }

  /** The three amounts written one after another at `44 + n` read back. */
  lemma ReadBackAmounts(data: seq<byte>, n: nat, amount: nat, fee: nat, fulfillment: nat)
    requires Pow256(8) == U64_LIMIT
    requires amount < U64_LIMIT && fee < U64_LIMIT && fulfillment < U64_LIMIT
    requires |data| >= 68 + n
    requires data[44 + n..52 + n] == LittleEndian(amount, 8)
    requires data[52 + n..60 + n] == LittleEndian(fee, 8)
    requires data[60 + n..68 + n] == LittleEndian(fulfillment, 8)
    ensures U64At(data, 44 + n) == amount && U64At(data, 52 + n) == fee && U64At(data, 60 + n) == fulfillment
  {
    U64AtWritten(data, 44 + n, amount);
    U64AtWritten(data, 52 + n, fee);
    U64AtWritten(data, 60 + n, fulfillment);
  }

  /** Where each field of a serialized escrow lies. */
  lemma SerializedEscrowLayout(disc: P.Discriminator, e: P.Escrow, unused: seq<byte>)
    requires |e.orderId| < U32_LIMIT
    requires 0 <= e.createdAt
    ensures var data := P.SerializeEscrow(disc, e) + unused;
      var n := |e.orderId|;
      && Pow256(4) == U32_LIMIT && Pow256(8) == U64_LIMIT
      && |data| >= 77 + n
      && data[8..40] == e.buyer
      && data[40..44] == LittleEndian(n, 4)
      && data[44..44 + n] == e.orderId
      && data[44 + n..52 + n] == LittleEndian(e.amount, 8)
      && data[52 + n..60 + n] == LittleEndian(e.feeAmount, 8)
      && data[60 + n..68 + n] == LittleEndian(e.fulfillmentAmount, 8)
      && data[68 + n] == P.StatusByte(e.status)
      && data[69 + n..77 + n] == LittleEndian(e.createdAt, 8)
  {
    Pow256Values();
    var n := |e.orderId|;
    var head := disc + e.buyer + P.BorshString(e.orderId);
    var tail := P.U64Bytes(e.amount) + P.U64Bytes(e.feeAmount) + P.U64Bytes(e.fulfillmentAmount)
                + [P.StatusByte(e.status)] + I64LittleEndian(e.createdAt)
                + P.BorshOptionI64(e.releasedAt) + [e.bump] + unused;
    var data := P.SerializeEscrow(disc, e) + unused;
    assert data == head + tail;
    assert |head| == 44 + n;
    Pow256Values();
    TailSlices(P.U64Bytes(e.amount), P.U64Bytes(e.feeAmount), P.U64Bytes(e.fulfillmentAmount),
               P.StatusByte(e.status), I64LittleEndian(e.createdAt),
               P.BorshOptionI64(e.releasedAt) + [e.bump] + unused);
    assert tail == P.U64Bytes(e.amount) + P.U64Bytes(e.feeAmount) + P.U64Bytes(e.fulfillmentAmount)
                   + [P.StatusByte(e.status)] + I64LittleEndian(e.createdAt)
                   + (P.BorshOptionI64(e.releasedAt) + [e.bump] + unused);
    HeadSlices(disc, e.buyer, LittleEndian(n, 4), e.orderId);
    assert head == disc + e.buyer + LittleEndian(n, 4) + e.orderId;
    PrefixSlice(head, tail, 8, 40);
    PrefixSlice(head, tail, 40, 44);
    PrefixSlice(head, tail, 44, 44 + n);
    ShiftSlice(head, tail, 0, 8);
    ShiftSlice(head, tail, 8, 16);
    ShiftSlice(head, tail, 16, 24);
    ShiftSlice(head, tail, 25, 33);
    assert data[68 + n] == tail[24];
  }

  /** An eight-byte tag, a key, a four-byte length and the text, in that
      order. */
  lemma HeadSlices(disc: seq<byte>, buyer: seq<byte>, len: seq<byte>, orderId: seq<byte>)
    requires |disc| == 8 && |buyer| == 32 && |len| == 4
    ensures var head := disc + buyer + len + orderId;
      && |head| == 44 + |orderId|
      && head[8..40] == buyer && head[40..44] == len && head[44..44 + |orderId|] == orderId
  {
    var head := disc + buyer + len + orderId;
    assert head == disc + (buyer + (len + orderId));
    assert head[8..] == buyer + (len + orderId);
    assert head[40..] == len + orderId;
    assert head[44..] == orderId;
  }

  /** Three eight-byte fields, a byte and another eight-byte field, in
      that order, from the start of a sequence. */
  lemma TailSlices(a: seq<byte>, f: seq<byte>, u: seq<byte>, s: byte, c: seq<byte>, rest: seq<byte>)
    requires |a| == 8 && |f| == 8 && |u| == 8 && |c| == 8
    ensures var tail := a + f + u + [s] + c + rest;
      && |tail| >= 33
      && tail[0..8] == a && tail[8..16] == f && tail[16..24] == u
      && tail[24] == s && tail[25..33] == c
  {
    var tail := a + f + u + [s] + c + rest;
    assert tail == a + (f + (u + ([s] + (c + rest))));
    assert tail[8..] == f + (u + ([s] + (c + rest)));
    assert tail[16..] == u + ([s] + (c + rest));
    assert tail[24..] == [s] + (c + rest);
    assert tail[25..] == c + rest;
  }

  lemma PrefixSlice(p: seq<byte>, q: seq<byte>, i: nat, j: nat)
    requires i <= j <= |p|
    ensures (p + q)[i..j] == p[i..j]
  {
    assert (p + q)[..|p|] == p;
  }

  lemma ShiftSlice(p: seq<byte>, q: seq<byte>, i: nat, j: nat)
    requires i <= j <= |q|
    ensures (p + q)[|p| + i..|p| + j] == q[i..j]
  {
    assert (p + q)[|p|..] == q;
  }

  lemma SegmentAt(p: seq<byte>, s: seq<byte>, q: seq<byte>)
    ensures (p + (s + q))[|p|..|p| + |s|] == s
    ensures (p + (s + q))[..|p|] == p
    ensures p + (s + q) == p + s + q
  {}

  /** `getEscrowAccount`: the error of the escrow-address derivation
      for an order id longer than 32 bytes; null when no account exists
      at the escrow address of (orderId, buyer); otherwise the decoded
      record, or the error the decoder throws. */
  function GetEscrowAccount(derive: P.Deriver, accounts: map<Pubkey, seq<byte>>,
                            orderId: seq<byte>, buyer: Pubkey)
    : (r: Result<Option<EscrowView>, ClientError>)
    ensures |orderId| > MAX_SEED_LENGTH ==> r == Err(SeedTooLong)
    ensures r == Ok(None) <==>
      |orderId| <= MAX_SEED_LENGTH && EscrowPda(derive, orderId, buyer) !in accounts
    ensures |orderId| <= MAX_SEED_LENGTH && EscrowPda(derive, orderId, buyer) in accounts ==>
      match DecodeEscrow(accounts[EscrowPda(derive, orderId, buyer)])
      case Ok(v) => r == Ok(Some(v))
      case Err(err) => r == Err(err)
  {
    match GetEscrowPda(derive, orderId, buyer)
    case Err(err) => Err(err)
    case Ok(address) =>
      if address !in accounts then Ok(None)
      else
        match DecodeEscrow(accounts[address])
        case Ok(v) => Ok(Some(v))
        case Err(err) => Err(err)
  }

  /** The client reads back what the program stored: at the escrow
      address of an order id of at most 32 bytes, the account data of an
      escrow decodes to that escrow's view. */
  lemma ReadStoredEscrow(derive: P.Deriver, accounts: map<Pubkey, seq<byte>>, buyer: Pubkey,
                         disc: P.Discriminator, e: P.Escrow, unused: seq<byte>)
    requires |e.orderId| <= MAX_SEED_LENGTH
    requires e.amount < SAFE_LIMIT && e.feeAmount < SAFE_LIMIT && e.fulfillmentAmount < SAFE_LIMIT
    requires 0 <= e.createdAt < SAFE_LIMIT
    requires EscrowPda(derive, e.orderId, buyer) in accounts
    requires accounts[EscrowPda(derive, e.orderId, buyer)] == P.SerializeEscrow(disc, e) + unused
    ensures GetEscrowAccount(derive, accounts, e.orderId, buyer) == Ok(Some(View(e)))
  {
    DecodeSerializedEscrow(disc, e, unused);
  }
}
