/** The pieces of a Solana transaction the client scripts assemble. */
module Solana {
  import opened Bytes

  datatype AccountMeta = AccountMeta(pubkey: Pubkey, isSigner: bool, isWritable: bool)

  datatype Instruction =
      /** The associated-token-account program's create instruction. */
    | CreateAssociatedTokenAccount(payer: Pubkey, ata: Pubkey, owner: Pubkey, mint: Pubkey)
      /** A call into a program with its account list and raw data. */
    | Invoke(programId: Pubkey, keys: seq<AccountMeta>, data: seq<byte>)

  /** `getAssociatedTokenAddress(mint, owner)`: a deterministic address
      whose derivation is not modelled. */
  type AtaDeriver = (Pubkey, Pubkey) -> Pubkey

  /** The fixed program and sysvar ids the clients put in account lists. */
  datatype WellKnownIds = WellKnownIds(
    escrowProgram: Pubkey,
    tokenProgram: Pubkey,
    systemProgram: Pubkey,
    rentSysvar: Pubkey)
}
