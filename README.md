# solana-nft-native, modelled in Dafny

The program is a single Solana instruction handler, `process_instruction` in
`src/lib.rs`. It decodes a Borsh-encoded `CreateTokenArgs` (title, symbol,
uri) from the instruction data. It then calls `create_nft`, which takes eight
accounts by position and makes three cross-program invocations in a fixed
order:

1. the system program's `create_account` for the mint account;
2. the token program's `initialize_mint`;
3. Metaplex's `create_metadata_accounts_v3`.

Every step ends with `?`, so the first error is returned and nothing after it
runs.

The model has two parts.

- **Payload decoder** (`utf8.dfy`, `borsh.dfy`, `create_token_args.dfy`):
  - Borsh `u32` and `String` readers and writers over byte sequences.
  - The derived struct decoder, and `try_from_slice`, which refuses unread
    bytes.
  - Lemmas for the round trip, for the decoder accepting exactly the
    encodings, and for rejecting truncated input, trailing bytes and
    malformed UTF-8.
  - UTF-8 well-formedness is the rule of table 3-7 of the Unicode Standard,
    which is what Rust's `String::from_utf8` checks. The encoder from Dafny
    strings is proved to produce only well-formed UTF-8.
- **Mint orchestrator** (`solana.dfy`, `nft_program.dfy`,
  `nft_program_properties.dfy`):
  - A `Host` object records each `invoke` in its `trace` and answers from an
    `Oracle`. The oracle says whether the rent sysvar can be read (and gives
    the minimum balance), whether the `initialize_mint` builder succeeds, and
    what each of the three invoked instructions returns.
  - `CreateNft` and `ProcessInstruction` are methods. Each is proved to return
    exactly, and add to the trace exactly, what a reference function
    (`CreateNftEffect`, `ProcessInstructionEffect`) gives for the same inputs
    and oracle.
  - Lemmas about those functions prove the invocation order, the
    short-circuiting, the positional role binding and the fixed instruction
    parameters.

An invocation is recorded when `invoke` is called, including an invocation
that then fails. A rent-sysvar failure at `src/lib.rs:68` and a builder
failure at `src/lib.rs:90` happen while the instruction is being built, so
they return before that `invoke` is made and record nothing.

The instruction data is modelled as `seq<Byte>`, where `Byte` is an integer
newtype over 0..255. Keys are 32-byte sequences. `Mint::LEN` is the
`spl_token` constant 82.

Two facts about the code are worth noting:

- **Extra accounts.** `create_nft` needs at least eight accounts and ignores
  the rest (`ExtraAccountsIgnored`).
- **The `true` flag.** The `true` at `src/lib.rs:115` is the
  `update_authority_is_signer` argument, although the comment on that line
  says "is the payer the update authority". The model names it
  `updateAuthorityIsSigner`.

## Model

| member | source | states |
|---|---|---|
| `Borsh.U32ToLeFromLe` | src/lib.rs:41-46 | reading back a little-endian `u32` length prefix gives the same length |
| `Borsh.U32FromLeToLe` | src/lib.rs:41-46 | every four bytes are the canonical encoding of the `u32` they decode to |
| `Borsh.ReadString` | src/lib.rs:43-45 | reads a `String` field: a length prefix, that many bytes, then the UTF-8 check. It has no contract of its own; `ReadWrittenString`, `ReadStringConsumesEncoding`, `ReadStringRejectsInvalidUtf8` and `ReadTruncatedString` carry its properties |
| `Borsh.ReadWrittenString` | src/lib.rs:43-45 | a written `String` field reads back to the same bytes, and the rest of the input is left unread |
| `Borsh.ReadStringConsumesEncoding` | src/lib.rs:43-45 | a `String` field is read only from its own length-prefixed encoding |
| `Borsh.ReadStringRejectsInvalidUtf8` | src/lib.rs:43-45 | a length-prefixed field that is not well-formed UTF-8 is refused with `InvalidUtf8` |
| `Borsh.ReadTruncatedString` | src/lib.rs:43-45 | every proper prefix of a `String` encoding fails with `UnexpectedLength` |
| `Utf8.EncodeUtf8IsValid` | src/lib.rs:43-45 | the UTF-8 encoding of any string is well formed, so any text is a valid field value |
| `CreateTokenArgsCodec.Deserialize` | src/lib.rs:41-46 | the derived decoder, which reads the three fields in declaration order. It has no contract of its own; `DeserializeEncoded` and `DeserializeConsumesEncoding` carry its properties |
| `CreateTokenArgsCodec.TryFromSlice` | src/lib.rs:24 | `try_from_slice`, which decodes and then refuses unread bytes. It has no contract of its own; `RoundTrip`, `DecodedIsEncoding`, `AcceptsExactlyEncodings`, `TrailingBytesRejected`, `TruncationRejected` and the `Invalid*Rejected` lemmas carry its properties |
| `CreateTokenArgsCodec.TryToVec` | src/lib.rs:41 | serialization succeeds exactly when each string fits its `u32` prefix, and the bytes it gives decode back to the same arguments |
| `CreateTokenArgsCodec.DeserializeEncoded` | src/lib.rs:41-46 | the struct decoder reads title, symbol and uri in declaration order from their encodings and leaves what follows unread |
| `CreateTokenArgsCodec.RoundTrip` | src/lib.rs:24 | `try_from_slice` of the encoding of (title, symbol, uri) gives back the same three strings |
| `CreateTokenArgsCodec.DeserializeConsumesEncoding` | src/lib.rs:41-46 | the bytes the struct decoder consumes are exactly the encoding of the value it returns |
| `CreateTokenArgsCodec.DecodedIsEncoding` | src/lib.rs:24 | an accepted payload is, byte for byte, the encoding of the decoded arguments |
| `CreateTokenArgsCodec.AcceptsExactlyEncodings` | src/lib.rs:24 | `try_from_slice` succeeds if and only if the input is the encoding of some arguments |
| `CreateTokenArgsCodec.TrailingBytesRejected` | src/lib.rs:24 | an encoding followed by any bytes is refused with `NotAllBytesRead` |
| `CreateTokenArgsCodec.TruncationRejected` | src/lib.rs:24 | every proper prefix of an encoding is refused with `UnexpectedLength` |
| `CreateTokenArgsCodec.InvalidTitleRejected` | src/lib.rs:43 | a title that is not well-formed UTF-8 is refused with `InvalidUtf8` |
| `CreateTokenArgsCodec.InvalidSymbolRejected` | src/lib.rs:44 | after a valid title, a symbol that is not well-formed UTF-8 is refused with `InvalidUtf8` |
| `CreateTokenArgsCodec.InvalidUriRejected` | src/lib.rs:45 | after a valid title and symbol, a uri that is not well-formed UTF-8 is refused with `InvalidUtf8` |
| `CreateTokenArgsCodec.EmptyStringsDecode` | src/lib.rs:41-46 | twelve zero bytes decode to three empty strings |
| `Solana.AccountInfoIter.NextAccountInfo` | src/lib.rs:52 | yields the next account and advances, or fails with `NotEnoughAccountKeys` at the end of the list without advancing |
| `Solana.Host.Invoke` | src/lib.rs:64-78 | appends the invocation to the trace and returns the invoked program's result |
| `NftProgram.TakeAccounts` | src/lib.rs:49-59 | the eight `next_account_info` calls succeed exactly when there are at least eight accounts, and bind roles 0 to 7 to accounts 0 to 7 in order |
| `NftProgram.CreateNftEffect` | src/lib.rs:48-134 | the reference definition of `create_nft`: the result and the invocations issued, given the accounts, the arguments and the host's answers. It has no contract of its own; `CreateNft` is proved equal to it, and the `NftProgramProperties` lemmas prove its order, short-circuiting and parameters |
| `NftProgram.ProcessInstructionEffect` | src/lib.rs:19-39 | the reference definition of `process_instruction`: decode, then `create_nft`. It has no contract of its own; `ProcessInstruction` is proved equal to it, and `UndecodablePayloadIssuesNothing`, `EncodedPayloadReachesCreateNft` and `MalformedPayloadIssuesNothing` carry its properties |
| `NftProgram.CreateNft` | src/lib.rs:48-134 | returns exactly what `CreateNftEffect` gives, and the trace grows by exactly its invocations |
| `NftProgram.ProcessInstruction` | src/lib.rs:19-39 | returns exactly what `ProcessInstructionEffect` gives (decode, then `create_nft`), and the trace grows by exactly its invocations |
| `NftProgramProperties.FewerThanEightAccountsFail` | src/lib.rs:52-59 | fewer than eight accounts give `NotEnoughAccountKeys` and issue no invocation |
| `NftProgramProperties.ExtraAccountsIgnored` | src/lib.rs:49-59 | accounts after the eighth do not change the result or the invocations |
| `NftProgramProperties.InvocationOrder` | src/lib.rs:64-129 | at most three invocations, always create-account first, then initialize-mint, then create-metadata |
| `NftProgramProperties.NothingAfterFailure` | src/lib.rs:64-129 | every issued invocation except the last one succeeded, so nothing is issued after a failure |
| `NftProgramProperties.SuccessIffAllSucceed` | src/lib.rs:131-133 | `Ok(())` exactly when there are eight accounts and every host answer succeeds, and then all three invocations were issued |
| `NftProgramProperties.FirstFailureReturned` | src/lib.rs:64-129 | a failure in the rent read, create-account, the builder, initialize-mint or create-metadata is the result, and 0, 1, 1, 2 or 3 invocations were issued |
| `NftProgramProperties.CreateAccountParameters` | src/lib.rs:64-78 | create-account goes from the payer (account 3) to the mint (account 0) with the rent minimum, 82 bytes and the token program (account 6) as owner, and passes accounts 0, 3, 5 and 6 |
| `NftProgramProperties.InitializeMintParameters` | src/lib.rs:83-97 | initialize-mint targets the mint (0) under the token program (6) with 0 decimals, and the mint authority (1) is both the mint authority and `Some` freeze authority; it passes accounts 0, 1, 6 and 4 |
| `NftProgramProperties.CreateMetadataParameters` | src/lib.rs:102-129 | create-metadata is sent to the metadata program (7) for metadata account 2 and mint 0. The mint authority (1) is also the update authority and the payer is account 3. Name, symbol and uri are the decoded strings. There are no creators, 0 royalties, signer flag `true` and `is_mutable` false. Collection, uses and details are all `None`. It passes accounts 2, 0, 1, 3, 7 and 4 |
| `NftProgramProperties.UndecodablePayloadIssuesNothing` | src/lib.rs:24 | a payload that does not decode is returned as a Borsh error and no invocation is issued |
| `NftProgramProperties.EncodedPayloadReachesCreateNft` | src/lib.rs:24-36 | the encoding of some arguments makes `process_instruction` behave exactly as `create_nft` on those arguments |
| `NftProgramProperties.MalformedPayloadIssuesNothing` | src/lib.rs:24 | truncated payloads (`UnexpectedLength`) and payloads with trailing bytes (`NotAllBytesRead`) fail before any invocation |
| `NftProgramProperties.InvalidUtf8PayloadIssuesNothing` | src/lib.rs:24 | a payload whose title is not well-formed UTF-8 fails with `InvalidUtf8` before any invocation |
| `NftProgramProperties.ScenarioA` | src/lib.rs:19-39 | ("Cool Cat #1", "CC1", "https://example.com/1.json") with eight accounts and every call succeeding gives `Ok(())` and three invocations. Decimals are 0 and both mint authorities are account 1. Name, symbol and uri are the payload strings, the update authority is account 1, and the metadata is immutable |
| `NftProgramProperties.ScenarioB` | src/lib.rs:64-78 | if create-account fails (for example, the mint account already holds data), its error is returned and only that invocation was issued |
| `NftProgramProperties.ScenarioC` | src/lib.rs:24 | an empty title decodes, the run succeeds, and the metadata name is empty |
| `NftProgramProperties.ScenarioD` | src/lib.rs:52-59 | seven accounts give `NotEnoughAccountKeys` before any invocation |

## Left out

- `msg!` logging (src/lib.rs:28-32, 62-63, 81-82, 100-101, 131) is not modelled. It is output only and does not affect control flow.
- The invoked programs are not modelled: the system program, `spl_token` and Metaplex token metadata. This includes account creation, the mint layout, metadata address derivation and their validation. Only their success or failure is modelled, as an oracle answer that depends on the instruction kind and not on its parameters.
- `Solana.BuildInitializeMint`: whether `spl_token`'s builder succeeds is an oracle answer. Its own rule (the token program id must be the SPL token id) is in a library that is not part of this model.
- `Solana.Host.MintRentMinimum`: `Rent::get` and `minimum_balance` are host code that uses floating point. The model gives their combined result as one opaque `u64`, or the error of reading the sysvar.
- `AccountInfo` is reduced to its key. Lamports, data, owner, the signer and writable bits, and `.clone()` are host-managed and do not affect anything this code decides.
- Instruction account metas and the system program id that `system_instruction::create_account` fills in are not modelled. They are inside the builders.
- Transaction rollback and atomicity are not modelled. They are host-platform guarantees.
- The `entrypoint!` macro, the unused `_program_id` (kept only as a parameter) and the commented-out `try_from_slice_unchecked` are not modelled. None of them affects behaviour.
- Borsh's error messages are reduced to three reasons: `UnexpectedLength`, `InvalidUtf8` and `NotAllBytesRead`. The text of the `BorshIoError` string is not modelled.
