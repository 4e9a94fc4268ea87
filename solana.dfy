/**
 * The host platform as the program sees it: account handles reduced to their
 * keys, program errors, the three instruction shapes the program builds, and
 * a host object that records every cross-program invocation it is asked to
 * make and answers from a fixed oracle.
 */
module Solana {
  import opened Wrappers
  import opened Utf8
  import Borsh

  type U8 = n: nat | n < 0x100
  type U16 = n: nat | n < 0x1_0000
  type U64 = n: nat | n < 0x1_0000_0000_0000_0000

  /** A 32-byte public key. */
  type Pubkey = k: seq<Byte> | |k| == 32 witness seq(32, _ => 0 as Byte)

  /** An account handle; only its key plays a part in this program. */
  datatype AccountInfo = AccountInfo(key: Pubkey)

  datatype ProgramError =
    | NotEnoughAccountKeys       // `next_account_info` ran past the end of the list
    | BorshIoError(reason: Borsh.DecodeError)  // a `From<std::io::Error>` conversion
    | IncorrectProgramId
    | UnsupportedSysvar
    | Custom(code: nat)          // any other error a host call or invoked program returns

  type ProgramResult = Result<(), ProgramError>

  /** `spl_token::state::Mint::LEN`, the packed size of a mint account. */
  const MINT_LEN: U64 := 82

  datatype Creator = Creator(address: Pubkey, verified: bool, share: U8)
  datatype Collection = Collection(verified: bool, key: Pubkey)
  datatype UseMethod = Burn | Multiple | Single
  datatype Uses = Uses(useMethod: UseMethod, remaining: U64, total: U64)
  datatype CollectionDetails = V1(size: U64)

  /** The instructions this program asks the host to invoke, with their parameters. */
  datatype Instruction =
    | CreateAccount(from: Pubkey, to: Pubkey, lamports: U64, space: U64, owner: Pubkey)
    | InitializeMint(tokenProgramId: Pubkey, mint: Pubkey, mintAuthority: Pubkey,
                     freezeAuthority: Option<Pubkey>, decimals: U8)
    | CreateMetadataAccountsV3(programId: Pubkey, metadata: Pubkey, mint: Pubkey,
                               mintAuthority: Pubkey, payer: Pubkey, updateAuthority: Pubkey,
                               name: Utf8String, symbol: Utf8String, uri: Utf8String,
                               creators: Option<seq<Creator>>, sellerFeeBasisPoints: U16,
                               updateAuthorityIsSigner: bool, isMutable: bool,
                               collection: Option<Collection>, uses: Option<Uses>,
                               collectionDetails: Option<CollectionDetails>)

  /** One `invoke`: the instruction and the account handles passed with it. */
  datatype Invocation = Invocation(instruction: Instruction, accountInfos: seq<AccountInfo>)

  /**
   * What the host and the invoked programs answer. `mintRentMinimum` is the
   * value of `Rent::get()?.minimum_balance(Mint::LEN)`, or the error of
   * reading the rent sysvar; `initializeMintBuilder` is whether
   * `spl_token::instruction::initialize_mint` builds its instruction; the
   * other three are the result of invoking each instruction kind. Typical
   * failures are `UnsupportedSysvar` for the rent read and
   * `IncorrectProgramId` for the builder.
   */
  datatype Oracle = Oracle(
    mintRentMinimum: Result<U64, ProgramError>,
    initializeMintBuilder: ProgramResult,
    createAccount: ProgramResult,
    initializeMint: ProgramResult,
    createMetadata: ProgramResult)

  function InvokeOutcome(oracle: Oracle, instruction: Instruction): ProgramResult
  {
    match instruction
    case CreateAccount(_, _, _, _, _) => oracle.createAccount
    case InitializeMint(_, _, _, _, _) => oracle.initializeMint
    case CreateMetadataAccountsV3(_, _, _, _, _, _, _, _, _, _, _, _, _, _, _, _) => oracle.createMetadata
  }

  /** `spl_token::instruction::initialize_mint`: the instruction, unless the builder refuses. */
  function BuildInitializeMint(oracle: Oracle, tokenProgramId: Pubkey, mint: Pubkey,
                               mintAuthority: Pubkey, freezeAuthority: Option<Pubkey>,
                               decimals: U8): (r: Result<Instruction, ProgramError>)
    ensures r.Ok? <==> oracle.initializeMintBuilder.Ok?
    ensures r.Err? ==> r.error == oracle.initializeMintBuilder.error
    ensures r.Ok? ==> r.value == InitializeMint(tokenProgramId, mint, mintAuthority, freezeAuthority, decimals)
  {
    match oracle.initializeMintBuilder
    case Err(e) => Err(e)
    case Ok(_) => Ok(InitializeMint(tokenProgramId, mint, mintAuthority, freezeAuthority, decimals))
  }

  /** The runtime: it answers from `oracle` and records every invocation in `trace`. */
  class Host {
    const oracle: Oracle
    var trace: seq<Invocation>

    constructor (oracle: Oracle)
      ensures this.oracle == oracle && trace == []
    {
      this.oracle := oracle;
      trace := [];
    }

    /** `Rent::get()?.minimum_balance(Mint::LEN)`: reads the rent sysvar, issues nothing. */
    method MintRentMinimum() returns (r: Result<U64, ProgramError>)
      ensures r == oracle.mintRentMinimum
    {
      r := oracle.mintRentMinimum;
    }

    /** `invoke`: the invocation is issued (recorded) and the invoked program's result returned. */
    method Invoke(instruction: Instruction, accountInfos: seq<AccountInfo>) returns (r: ProgramResult)
      modifies this
      ensures trace == old(trace) + [Invocation(instruction, accountInfos)]
      ensures r == InvokeOutcome(oracle, instruction)
    {
      trace := trace + [Invocation(instruction, accountInfos)];
      r := InvokeOutcome(oracle, instruction);
    }
  }

  /** `accounts.iter()` as `next_account_info` consumes it. */
  class AccountInfoIter {
    const accounts: seq<AccountInfo>
    var position: nat

    constructor (accounts: seq<AccountInfo>)
      ensures this.accounts == accounts && position == 0
    {
      this.accounts := accounts;
      position := 0;
    }

    /** `next_account_info`: the next handle, or `NotEnoughAccountKeys` once the list is used up. */
    method NextAccountInfo() returns (r: Result<AccountInfo, ProgramError>)
      modifies this
      ensures old(position) < |accounts| ==> r == Ok(accounts[old(position)]) && position == old(position) + 1
      ensures old(position) >= |accounts| ==> r == Err(NotEnoughAccountKeys) && position == old(position)
    {
      if position < |accounts| {
        r := Ok(accounts[position]);
        position := position + 1;
      } else {
        r := Err(NotEnoughAccountKeys);
      }
    }
  }
}
