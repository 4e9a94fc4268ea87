/**
 * What `process_instruction` and `create_nft` promise, stated over their
 * reference definitions: positional account binding, the order of the three
 * invocations, the first failure returned with nothing issued after it, the
 * fixed parameters of each instruction, and malformed payloads stopping
 * everything before any invocation.
 */
module NftProgramProperties {
  import opened Wrappers
  import opened Utf8
  import opened Borsh
  import opened Solana
  import opened CreateTokenArgsCodec
  import opened NftProgram

  /** Every host answer is a success. */
  predicate AllSucceed(oracle: Oracle)
  {
    oracle.mintRentMinimum.Ok? && oracle.createAccount.Ok? && oracle.initializeMintBuilder.Ok? &&
    oracle.initializeMint.Ok? && oracle.createMetadata.Ok?
  }

  /** With fewer than eight accounts the call fails before anything is issued. */
  lemma FewerThanEightAccountsFail(accounts: seq<AccountInfo>, args: CreateTokenArgs, oracle: Oracle)
    requires |accounts| < 8
    ensures CreateNftEffect(accounts, args, oracle) == Effect(Err(NotEnoughAccountKeys), [])
  {
  }

  /** Accounts after the eighth play no part. */
  lemma ExtraAccountsIgnored(accounts: seq<AccountInfo>, args: CreateTokenArgs, oracle: Oracle)
    requires |accounts| >= 8
    ensures CreateNftEffect(accounts, args, oracle) == CreateNftEffect(accounts[..8], args, oracle)
  {
  }

  /** At most three invocations, and always create-account, then initialize-mint, then create-metadata. */
  lemma InvocationOrder(accounts: seq<AccountInfo>, args: CreateTokenArgs, oracle: Oracle)
    ensures var issued := CreateNftEffect(accounts, args, oracle).issued;
      |issued| <= 3 &&
      (|issued| >= 1 ==> issued[0].instruction.CreateAccount?) &&
      (|issued| >= 2 ==> issued[1].instruction.InitializeMint?) &&
      (|issued| == 3 ==> issued[2].instruction.CreateMetadataAccountsV3?)
  {
  }

  /** Nothing is issued after a failed invocation: every invocation but the last one succeeded. */
  lemma NothingAfterFailure(accounts: seq<AccountInfo>, args: CreateTokenArgs, oracle: Oracle)
    ensures var issued := CreateNftEffect(accounts, args, oracle).issued;
      forall i :: 0 <= i < |issued| - 1 ==> InvokeOutcome(oracle, issued[i].instruction).Ok?
  {
  }

  /** `Ok(())` exactly when every step succeeds, and then all three invocations were issued. */
  lemma SuccessIffAllSucceed(accounts: seq<AccountInfo>, args: CreateTokenArgs, oracle: Oracle)
    ensures var e := CreateNftEffect(accounts, args, oracle);
      (e.result.Ok? <==> |accounts| >= 8 && AllSucceed(oracle)) &&
      (e.result.Ok? ==> |e.issued| == 3)
  {
  }

  /** The first failing step decides the result, and it ends the sequence there. */
  lemma FirstFailureReturned(accounts: seq<AccountInfo>, args: CreateTokenArgs, oracle: Oracle)
    requires |accounts| >= 8
    ensures var e := CreateNftEffect(accounts, args, oracle);
      (oracle.mintRentMinimum.Err? ==>
        e == Effect(Err(oracle.mintRentMinimum.error), [])) &&
      (oracle.mintRentMinimum.Ok? && oracle.createAccount.Err? ==>
        e.result == oracle.createAccount && |e.issued| == 1) &&
      (oracle.mintRentMinimum.Ok? && oracle.createAccount.Ok? && oracle.initializeMintBuilder.Err? ==>
        e.result == oracle.initializeMintBuilder && |e.issued| == 1) &&
      (oracle.mintRentMinimum.Ok? && oracle.createAccount.Ok? && oracle.initializeMintBuilder.Ok? &&
       oracle.initializeMint.Err? ==>
        e.result == oracle.initializeMint && |e.issued| == 2) &&
      (oracle.mintRentMinimum.Ok? && oracle.createAccount.Ok? && oracle.initializeMintBuilder.Ok? &&
       oracle.initializeMint.Ok? && oracle.createMetadata.Err? ==>
        e.result == oracle.createMetadata && |e.issued| == 3)
  {
  }

  /** The mint account (0) is created, funded by the payer (3), rent-exempt, sized and owned for the token program (6). */
  lemma CreateAccountParameters(accounts: seq<AccountInfo>, args: CreateTokenArgs, oracle: Oracle)
    requires |accounts| >= 8 && oracle.mintRentMinimum.Ok?
    ensures var issued := CreateNftEffect(accounts, args, oracle).issued;
      |issued| >= 1 &&
      issued[0] == Invocation(
        CreateAccount(accounts[3].key, accounts[0].key, oracle.mintRentMinimum.value, 82, accounts[6].key),
        [accounts[0], accounts[3], accounts[5], accounts[6]])
  {
  }

  /** The mint account (0) is initialized under the token program (6), no decimals, the mint authority (1) holding both authorities. */
  lemma InitializeMintParameters(accounts: seq<AccountInfo>, args: CreateTokenArgs, oracle: Oracle)
    requires |accounts| >= 8 && oracle.mintRentMinimum.Ok? && oracle.createAccount.Ok?
    requires oracle.initializeMintBuilder.Ok?
    ensures var issued := CreateNftEffect(accounts, args, oracle).issued;
      |issued| >= 2 &&
      issued[1] == Invocation(
        InitializeMint(accounts[6].key, accounts[0].key, accounts[1].key, Some(accounts[1].key), 0),
        [accounts[0], accounts[1], accounts[6], accounts[4]])
  {
  }

  /** The metadata account (2) is created by the metadata program (7) with the decoded strings and fixed policy. */
  lemma CreateMetadataParameters(accounts: seq<AccountInfo>, args: CreateTokenArgs, oracle: Oracle)
    requires |accounts| >= 8 && oracle.mintRentMinimum.Ok? && oracle.createAccount.Ok?
    requires oracle.initializeMintBuilder.Ok? && oracle.initializeMint.Ok?
    ensures var issued := CreateNftEffect(accounts, args, oracle).issued;
      |issued| == 3 &&
      issued[2] == Invocation(
        CreateMetadataAccountsV3(
          accounts[7].key, accounts[2].key, accounts[0].key, accounts[1].key, accounts[3].key,
          accounts[1].key, args.nftTitle, args.nftSymbol, args.nftUri,
          None, 0, true, false, None, None, None),
        [accounts[2], accounts[0], accounts[1], accounts[3], accounts[7], accounts[4]])
  {
  }

  /** A payload that does not decode is returned as a Borsh error and nothing is invoked. */
  lemma UndecodablePayloadIssuesNothing(accounts: seq<AccountInfo>, instructionData: seq<Byte>, oracle: Oracle)
    requires TryFromSlice(instructionData).Err?
    ensures ProcessInstructionEffect(accounts, instructionData, oracle) ==
      Effect(Err(BorshIoError(TryFromSlice(instructionData).error)), [])
  {
  }

  /** The encoding of the arguments reaches `create_nft` with exactly those arguments. */
  lemma EncodedPayloadReachesCreateNft(accounts: seq<AccountInfo>, args: CreateTokenArgs, oracle: Oracle)
    requires Serializable(args)
    ensures ProcessInstructionEffect(accounts, Encode(args), oracle) == CreateNftEffect(accounts, args, oracle)
  {
    RoundTrip(args);
  }

  /** Truncated payloads and payloads with trailing bytes are refused before any invocation. */
  lemma MalformedPayloadIssuesNothing(accounts: seq<AccountInfo>, args: CreateTokenArgs, n: nat,
                                      extra: seq<Byte>, oracle: Oracle)
    requires Serializable(args)
    ensures n < |Encode(args)| ==>
      ProcessInstructionEffect(accounts, Encode(args)[..n], oracle) == Effect(Err(BorshIoError(UnexpectedLength)), [])
    ensures |extra| > 0 ==>
      ProcessInstructionEffect(accounts, Encode(args) + extra, oracle) == Effect(Err(BorshIoError(NotAllBytesRead)), [])
  {
    if n < |Encode(args)| {
      TruncationRejected(args, n);
    }
    if |extra| > 0 {
      TrailingBytesRejected(args, extra);
    }
  }

  /** A title that is not well-formed UTF-8 is refused before any invocation. */
  lemma InvalidUtf8PayloadIssuesNothing(accounts: seq<AccountInfo>, bad: seq<Byte>, rest: seq<Byte>, oracle: Oracle)
    requires |bad| < U32_LIMIT && !ValidUtf8(bad)
    ensures ProcessInstructionEffect(accounts, WriteString(bad) + rest, oracle) == Effect(Err(BorshIoError(InvalidUtf8)), [])
  {
    InvalidTitleRejected(bad, rest);
  }

  function AllOk(lamports: U64): Oracle
  {
    Oracle(Ok(lamports), Ok(()), Ok(()), Ok(()), Ok(()))
  }

  /** Scenario A: a full run with ("Cool Cat #1", "CC1", "https://example.com/1.json"). */
  // The strings are parameters fixed by the requires: literal strings would make the verifier evaluate `EncodeUtf8`.
  lemma ScenarioA(accounts: seq<AccountInfo>, lamports: U64, title: string, symbol: string, uri: string)
    requires |accounts| == 8
    requires title == "Cool Cat #1" && symbol == "CC1" && uri == "https://example.com/1.json"
    ensures var args := CreateTokenArgs(FromStr(title), FromStr(symbol), FromStr(uri));
      Serializable(args) &&
      var e := ProcessInstructionEffect(accounts, Encode(args), AllOk(lamports));
      e.result == Ok(()) && |e.issued| == 3 &&
      e.issued[1].instruction.decimals == 0 &&
      e.issued[1].instruction.mintAuthority == accounts[1].key &&
      e.issued[1].instruction.freezeAuthority == Some(accounts[1].key) &&
      e.issued[2].instruction.name == FromStr(title) &&
      e.issued[2].instruction.symbol == FromStr(symbol) &&
      e.issued[2].instruction.uri == FromStr(uri) &&
      e.issued[2].instruction.updateAuthority == accounts[1].key &&
      !e.issued[2].instruction.isMutable
  {
    var args := CreateTokenArgs(FromStr(title), FromStr(symbol), FromStr(uri));
    EncodedPayloadReachesCreateNft(accounts, args, AllOk(lamports));
  }

  /** Scenario B: the mint account already holds data, so account creation fails and nothing follows it. */
  lemma ScenarioB(accounts: seq<AccountInfo>, args: CreateTokenArgs, lamports: U64, failure: ProgramError)
    requires |accounts| == 8 && Serializable(args)
    ensures var oracle := AllOk(lamports).(createAccount := Err(failure));
      var e := ProcessInstructionEffect(accounts, Encode(args), oracle);
      e.result == Err(failure) && |e.issued| == 1 && e.issued[0].instruction.CreateAccount?
  {
    EncodedPayloadReachesCreateNft(accounts, args, AllOk(lamports).(createAccount := Err(failure)));
  }

  /** Scenario C: an empty title decodes, and the metadata gets an empty name. */
  lemma ScenarioC(accounts: seq<AccountInfo>, symbol: Utf8String, uri: Utf8String, lamports: U64)
    requires |accounts| == 8 && |symbol| < U32_LIMIT && |uri| < U32_LIMIT
    ensures var e := ProcessInstructionEffect(accounts, Encode(CreateTokenArgs([], symbol, uri)), AllOk(lamports));
      e.result == Ok(()) && |e.issued| == 3 && e.issued[2].instruction.name == []
  {
    EncodedPayloadReachesCreateNft(accounts, CreateTokenArgs([], symbol, uri), AllOk(lamports));
  }

  /** Scenario D: seven accounts fail with `NotEnoughAccountKeys` before any invocation. */
  lemma ScenarioD(accounts: seq<AccountInfo>, args: CreateTokenArgs, oracle: Oracle)
    requires |accounts| == 7 && Serializable(args)
    ensures ProcessInstructionEffect(accounts, Encode(args), oracle) == Effect(Err(NotEnoughAccountKeys), [])
  {
    EncodedPayloadReachesCreateNft(accounts, args, oracle);
  }
}
