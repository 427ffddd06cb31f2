/** The one-off deployment script (scripts/initialize-escrow.ts) that
    sends the program's `initialize` instruction. */
module InitializeEscrow {
  import opened Wrappers
  import opened Bytes
  import opened Solana
  import P = EscrowProgram

  const TREASURY_FEE_BPS: u16 := 500

  /** Anchor's discriminator of `initialize`, as the script spells it out. */
  const INITIALIZE_DISCRIMINATOR: seq<byte> := [175, 175, 109, 31, 13, 152, 155, 237]

  function ConfigPda(derive: P.Deriver): Pubkey {
    derive([Ascii("config")])
  }

  /** The script's config address is the one the program initializes. */
  lemma ConfigPdaMatchesProgram(derive: P.Deriver)
    ensures ConfigPda(derive) == derive(P.ConfigSeeds())
  {}

  /** The configured fee passes the program's cap. */
  lemma ConfiguredFeeWithinCap()
    ensures TREASURY_FEE_BPS <= P.MAX_FEE_BPS
    ensures P.FeeSplit(100000000, TREASURY_FEE_BPS) == Ok((5000000, 95000000))
  {
    P.FeeBound(100000000, TREASURY_FEE_BPS);
  }

  /** The discriminator followed by the fee as a u16, little-endian. */
  function InitializeData(treasuryFeeBps: u16): (data: seq<byte>)
    ensures |data| == 10
    ensures data[..8] == INITIALIZE_DISCRIMINATOR
    ensures FromLittleEndian(data[8..]) == treasuryFeeBps
  {
    Pow256Values();
    FromLittleEndianInverse(treasuryFeeBps, 2);
    var feeBytes := LittleEndian(treasuryFeeBps, 2);
    assert (INITIALIZE_DISCRIMINATOR + feeBytes)[8..] == feeBytes;
    INITIALIZE_DISCRIMINATOR + feeBytes
  }

  /** The account list, in the order of the program's Initialize context:
      config (writable), admin (signer, writable), treasury, fulfillment
      vault, system program. */
  function BuildInitializeInstruction(ids: WellKnownIds, admin: Pubkey, config: Pubkey, treasury: Pubkey,
                                      fulfillmentVault: Pubkey, treasuryFeeBps: u16): (ix: Instruction)
    ensures ix.Invoke? && ix.programId == ids.escrowProgram
    ensures |ix.keys| == 5
    ensures ix.keys[0] == AccountMeta(config, false, true)
    ensures ix.keys[1] == AccountMeta(admin, true, true)
    ensures !ix.keys[2].isWritable && !ix.keys[3].isWritable && !ix.keys[4].isWritable
    ensures forall i :: 0 <= i < 5 && i != 1 ==> !ix.keys[i].isSigner
    ensures ix.data == InitializeData(treasuryFeeBps)
  {
    Invoke(ids.escrowProgram,
           [ AccountMeta(config, false, true),
             AccountMeta(admin, true, true),
             AccountMeta(treasury, false, false),
             AccountMeta(fulfillmentVault, false, false),
             AccountMeta(ids.systemProgram, false, false) ],
           InitializeData(treasuryFeeBps))
  }

  /** The transaction `main` sends, given the accounts that already exist:
      none when the config exists; otherwise an instruction creating the
      admin's USDC account when it is missing, then `initialize` with that
      one account as both treasury and fulfillment vault. */
  method PlanInitialization(derive: P.Deriver, ata: AtaDeriver, ids: WellKnownIds,
                            admin: Pubkey, usdcMint: Pubkey, existing: set<Pubkey>)
    returns (tx: Option<seq<Instruction>>)
    ensures tx.None? <==> ConfigPda(derive) in existing
    ensures tx.Some? ==>
      var treasury := ata(usdcMint, admin);
      && |tx.value| == (if treasury in existing then 1 else 2)
      && (treasury !in existing ==>
            tx.value[0] == CreateAssociatedTokenAccount(admin, treasury, admin, usdcMint))
      && tx.value[|tx.value| - 1] ==
           BuildInitializeInstruction(ids, admin, ConfigPda(derive), treasury, treasury, TREASURY_FEE_BPS)
  {
    var configPda := ConfigPda(derive);
    if configPda in existing {
      return None;
    }
    var treasury := ata(usdcMint, admin);
    var instructions: seq<Instruction> := [];
    if treasury !in existing {
      instructions := instructions + [CreateAssociatedTokenAccount(admin, treasury, admin, usdcMint)];
    }
    instructions := instructions + [BuildInitializeInstruction(ids, admin, configPda, treasury, treasury, TREASURY_FEE_BPS)];
    tx := Some(instructions);
  }

  /** On a program with no config yet, the planned `initialize` succeeds
      and stores the admin's account as both treasury and fulfillment
      vault with the 500 bps fee. */
  lemma InitializationSucceeds(s: P.ChainState, admin: Pubkey, treasury: Pubkey, bump: u8)
    requires s.config.None?
    ensures var r := P.InitializeSpec(s, admin, treasury, treasury, TREASURY_FEE_BPS, bump);
      && r.Ok?
      && r.value.config.value.treasury == r.value.config.value.fulfillmentVault == treasury
      && r.value.config.value.treasuryFeeBps == 500
  {}
}
