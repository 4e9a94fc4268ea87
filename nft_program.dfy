/**
 * The program's instruction handler: decode `CreateTokenArgs`, bind the
 * eight accounts by position, then make the three invocations (create the
 * mint account, initialize it as a mint, create its metadata), returning the
 * first error and making no further call after it.
 *
 * `CreateNftEffect` and `ProcessInstructionEffect` are the reference
 * definitions: the result and the invocations issued, as functions of the
 * inputs and of what the host answers. The methods are proved against them.
 */
module NftProgram {
  import opened Wrappers
  import Borsh
  import opened Utf8
  import opened Solana
  import opened CreateTokenArgsCodec

  /** The eight accounts `create_nft` takes, under the names it gives them. */
  datatype Roles = Roles(
    mintAccount: AccountInfo,
    mintAuthority: AccountInfo,
    metadataAccount: AccountInfo,
    payer: AccountInfo,
    rent: AccountInfo,
    systemProgram: AccountInfo,
    tokenProgram: AccountInfo,
    tokenMetadataProgram: AccountInfo)

  /** The first eight accounts in order, or `NotEnoughAccountKeys` when there are fewer. */
  function BindRoles(accounts: seq<AccountInfo>): Result<Roles, ProgramError>
  {
    if |accounts| < 8 then Err(NotEnoughAccountKeys)
    else Ok(Roles(accounts[0], accounts[1], accounts[2], accounts[3],
                  accounts[4], accounts[5], accounts[6], accounts[7]))
  }

  /** The system program's `create_account`: the mint account, funded by the payer, owned by the token program. */
  function CreateAccountCall(roles: Roles, lamports: U64): Invocation
  {
    Invocation(
      CreateAccount(roles.payer.key, roles.mintAccount.key, lamports, MINT_LEN, roles.tokenProgram.key),
      [roles.mintAccount, roles.payer, roles.systemProgram, roles.tokenProgram])
  }

  /** `initialize_mint` with no decimals; the mint authority also holds the freeze authority. */
  function InitializeMintCall(roles: Roles): Invocation
  {
    Invocation(
      InitializeMint(roles.tokenProgram.key, roles.mintAccount.key, roles.mintAuthority.key,
                     Some(roles.mintAuthority.key), 0),
      [roles.mintAccount, roles.mintAuthority, roles.tokenProgram, roles.rent])
  }

  /** `create_metadata_accounts_v3` with the decoded strings and every optional feature off. */
  function CreateMetadataCall(roles: Roles, args: CreateTokenArgs): Invocation
  {
    Invocation(
      CreateMetadataAccountsV3(
        roles.tokenMetadataProgram.key, roles.metadataAccount.key, roles.mintAccount.key,
        roles.mintAuthority.key, roles.payer.key, roles.mintAuthority.key,
        args.nftTitle, args.nftSymbol, args.nftUri,
        None, 0, true, false, None, None, None),
      [roles.metadataAccount, roles.mintAccount, roles.mintAuthority, roles.payer,
       roles.tokenMetadataProgram, roles.rent])
  }

  /** What a run returns and the invocations it issues, in order. */
  datatype Effect = Effect(result: ProgramResult, issued: seq<Invocation>)

  /** The reference definition of `create_nft`. */
  function CreateNftEffect(accounts: seq<AccountInfo>, args: CreateTokenArgs, oracle: Oracle): Effect
  {
    match BindRoles(accounts)
    case Err(e) => Effect(Err(e), [])
    case Ok(roles) =>
      match oracle.mintRentMinimum
      case Err(e) => Effect(Err(e), [])
      case Ok(lamports) =>
        var create := CreateAccountCall(roles, lamports);
        var initialize := InitializeMintCall(roles);
        var describe := CreateMetadataCall(roles, args);
        if oracle.createAccount.Err? then Effect(oracle.createAccount, [create])
        else if oracle.initializeMintBuilder.Err? then Effect(oracle.initializeMintBuilder, [create])
        else if oracle.initializeMint.Err? then Effect(oracle.initializeMint, [create, initialize])
        else if oracle.createMetadata.Err? then Effect(oracle.createMetadata, [create, initialize, describe])
        else Effect(Ok(()), [create, initialize, describe])
  }

  /** The reference definition of `process_instruction`. */
  function ProcessInstructionEffect(accounts: seq<AccountInfo>, instructionData: seq<Byte>,
                                    oracle: Oracle): Effect
  {
    match TryFromSlice(instructionData)
    case Err(e) => Effect(Err(BorshIoError(e)), [])
    case Ok(args) => CreateNftEffect(accounts, args, oracle)
  }

  /** The eight `next_account_info` calls of `create_nft`, on a fresh iterator over `accounts`. */
  method TakeAccounts(accounts: seq<AccountInfo>) returns (r: Result<Roles, ProgramError>)
    ensures r.Ok? <==> |accounts| >= 8
    ensures r.Err? ==> r.error == NotEnoughAccountKeys
    ensures r.Ok? ==> r.value == Roles(accounts[0], accounts[1], accounts[2], accounts[3],
                                       accounts[4], accounts[5], accounts[6], accounts[7])
  {
    var accountsIter := new AccountInfoIter(accounts);
    var mintAccount :- accountsIter.NextAccountInfo();
    var mintAuthority :- accountsIter.NextAccountInfo();
    var metadataAccount :- accountsIter.NextAccountInfo();
    var payer :- accountsIter.NextAccountInfo();
    var rent :- accountsIter.NextAccountInfo();
    var systemProgram :- accountsIter.NextAccountInfo();
    var tokenProgram :- accountsIter.NextAccountInfo();
    var tokenMetadataProgram :- accountsIter.NextAccountInfo();
    r := Ok(Roles(mintAccount, mintAuthority, metadataAccount, payer,
                  rent, systemProgram, tokenProgram, tokenMetadataProgram));
  }

  /** `create_nft`: takes the accounts, then invokes the three instructions in order. */
  method CreateNft(host: Host, accounts: seq<AccountInfo>, createTokenMetadata: CreateTokenArgs)
    returns (r: ProgramResult)
    modifies host
    ensures r == CreateNftEffect(accounts, createTokenMetadata, host.oracle).result
    ensures host.trace == old(host.trace) + CreateNftEffect(accounts, createTokenMetadata, host.oracle).issued
  {
    var roles :- TakeAccounts(accounts);
    var Roles(mintAccount, mintAuthority, metadataAccount, payer,
              rent, systemProgram, tokenProgram, tokenMetadataProgram) := roles;

    var lamports :- host.MintRentMinimum();
    var created :- host.Invoke(
      CreateAccount(payer.key, mintAccount.key, lamports, MINT_LEN, tokenProgram.key),
      [mintAccount, payer, systemProgram, tokenProgram]);

    var initializeMint :- BuildInitializeMint(
      host.oracle, tokenProgram.key, mintAccount.key, mintAuthority.key, Some(mintAuthority.key), 0);
    var initialized :- host.Invoke(initializeMint, [mintAccount, mintAuthority, tokenProgram, rent]);

    var described :- host.Invoke(
      CreateMetadataAccountsV3(
        tokenMetadataProgram.key, metadataAccount.key, mintAccount.key,
        mintAuthority.key, payer.key, mintAuthority.key,
        createTokenMetadata.nftTitle, createTokenMetadata.nftSymbol, createTokenMetadata.nftUri,
        None, 0, true, false, None, None, None),
      [metadataAccount, mintAccount, mintAuthority, payer, tokenMetadataProgram, rent]);

    r := Ok(());
  }

  /** `process_instruction`: decode the payload, then hand over to `create_nft`. */
  method ProcessInstruction(host: Host, programId: Pubkey, accounts: seq<AccountInfo>,
                            instructionData: seq<Byte>)
    returns (r: ProgramResult)
    modifies host
    ensures r == ProcessInstructionEffect(accounts, instructionData, host.oracle).result
    ensures host.trace == old(host.trace) + ProcessInstructionEffect(accounts, instructionData, host.oracle).issued
  {
    match TryFromSlice(instructionData)
    case Err(e) =>
      r := Err(BorshIoError(e));
    case Ok(tokenMetadata) =>
      r := CreateNft(host, accounts, tokenMetadata);
      if r.Err? {
        return;
      }
      r := Ok(());
  }
}
