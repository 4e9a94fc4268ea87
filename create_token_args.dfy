/**
 * `CreateTokenArgs` and its derived Borsh encoding: the three strings in
 * declaration order, each length-prefixed. `TryFromSlice` is Borsh's
 * `try_from_slice`: it decodes the struct and refuses unread bytes.
 */
module CreateTokenArgsCodec {
  import opened Wrappers
  import opened Utf8
  import opened Borsh

  datatype CreateTokenArgs = CreateTokenArgs(nftTitle: Utf8String, nftSymbol: Utf8String, nftUri: Utf8String)

  /** Each string is short enough for its `u32` length prefix. */
  predicate Serializable(args: CreateTokenArgs)
  {
    |args.nftTitle| < U32_LIMIT && |args.nftSymbol| < U32_LIMIT && |args.nftUri| < U32_LIMIT
  }

  /** The derived `BorshSerialize` encoding. */
  function Encode(args: CreateTokenArgs): (b: seq<Byte>)
    requires Serializable(args)
    ensures |b| == 12 + |args.nftTitle| + |args.nftSymbol| + |args.nftUri|
  {
    WriteString(args.nftTitle) + WriteString(args.nftSymbol) + WriteString(args.nftUri)
  }

  /** `try_to_vec`: the encoding, or nothing when a string is too long for its length prefix. */
  function TryToVec(args: CreateTokenArgs): (r: Option<seq<Byte>>)
    ensures r.Some? <==> Serializable(args)
    ensures r.Some? ==> TryFromSlice(r.value) == Ok(args)
  {
    if Serializable(args) then RoundTrip(args); Some(Encode(args)) else None
  }

  /** The derived `BorshDeserialize`: the fields in declaration order, leaving the rest unread. */
  function Deserialize(input: seq<Byte>): Result<(CreateTokenArgs, seq<Byte>), DecodeError>
  {
    var title :- ReadString(input);
    var symbol :- ReadString(title.1);
    var uri :- ReadString(symbol.1);
    Ok((CreateTokenArgs(title.0, symbol.0, uri.0), uri.1))
  }

  /** `CreateTokenArgs::try_from_slice`: decode, then require that every byte was read. */
  function TryFromSlice(input: seq<Byte>): Result<CreateTokenArgs, DecodeError>
  {
    var p :- Deserialize(input);
    if |p.1| > 0 then Err(NotAllBytesRead) else Ok(p.0)
  }

  lemma DeserializeEncoded(args: CreateTokenArgs, rest: seq<Byte>)
    requires Serializable(args)
    ensures Deserialize(Encode(args) + rest) == Ok((args, rest))
  {
    var t, s, u := WriteString(args.nftTitle), WriteString(args.nftSymbol), WriteString(args.nftUri);
    assert Encode(args) + rest == t + (s + (u + rest));
    ReadWrittenString(args.nftTitle, s + (u + rest));
    ReadWrittenString(args.nftSymbol, u + rest);
    ReadWrittenString(args.nftUri, rest);
  }

  /** Decoding an encoding gives back the same three strings. */
  lemma RoundTrip(args: CreateTokenArgs)
    requires Serializable(args)
    ensures TryFromSlice(Encode(args)) == Ok(args)
  {
    DeserializeEncoded(args, []);
    assert Encode(args) + [] == Encode(args);
  }

  /** A successful `Deserialize` is three successful string reads, one after the other. */
  lemma DeserializeSteps(input: seq<Byte>)
    requires Deserialize(input).Ok?
    ensures ReadString(input).Ok?
    ensures var t := ReadString(input).value; ReadString(t.1).Ok?
    ensures var t := ReadString(input).value; var s := ReadString(t.1).value;
      ReadString(s.1).Ok? &&
      Deserialize(input).value == (CreateTokenArgs(t.0, s.0, ReadString(s.1).value.0), ReadString(s.1).value.1)
  {
  }

  lemma Concat4(input: seq<Byte>, a: seq<Byte>, b: seq<Byte>, c: seq<Byte>, r: seq<Byte>, ar: seq<Byte>, br: seq<Byte>)
    requires input == a + ar && ar == b + br && br == c + r
    ensures input == a + b + c + r
  {
  }

  /** What `Deserialize` consumes is exactly the encoding of what it returns. */
  lemma DeserializeConsumesEncoding(input: seq<Byte>)
    requires Deserialize(input).Ok?
    ensures var (args, rest) := Deserialize(input).value;
      Serializable(args) && input == Encode(args) + rest
  {
    DeserializeSteps(input);
    var t := ReadString(input).value;
    ReadStringConsumesEncoding(input);
    var s := ReadString(t.1).value;
    ReadStringConsumesEncoding(t.1);
    var u := ReadString(s.1).value;
    ReadStringConsumesEncoding(s.1);
    Concat4(input, WriteString(t.0), WriteString(s.0), WriteString(u.0), u.1, t.1, s.1);
  }

  /** A payload is accepted only when it is, byte for byte, the encoding of the result. */
  lemma DecodedIsEncoding(input: seq<Byte>)
    requires TryFromSlice(input).Ok?
    ensures Serializable(TryFromSlice(input).value) && Encode(TryFromSlice(input).value) == input
  {
    DeserializeConsumesEncoding(input);
    assert Deserialize(input).value.1 == [];
  }

  /** `try_from_slice` succeeds exactly on the encodings of argument triples. */
  lemma AcceptsExactlyEncodings(input: seq<Byte>)
    ensures TryFromSlice(input).Ok? <==> exists args :: Serializable(args) && Encode(args) == input
  {
    if TryFromSlice(input).Ok? {
      DecodedIsEncoding(input);
    }
    if args :| Serializable(args) && Encode(args) == input {
      RoundTrip(args);
    }
  }

  /** An encoding with bytes appended is refused for the unread bytes. */
  lemma TrailingBytesRejected(args: CreateTokenArgs, extra: seq<Byte>)
    requires Serializable(args) && |extra| > 0
    ensures TryFromSlice(Encode(args) + extra) == Err(NotAllBytesRead)
  {
    DeserializeEncoded(args, extra);
  }

  /** Every proper prefix of an encoding runs out of bytes. */
  lemma TruncationRejected(args: CreateTokenArgs, n: nat)
    requires Serializable(args) && n < |Encode(args)|
    ensures TryFromSlice(Encode(args)[..n]) == Err(UnexpectedLength)
  {
    var t, s, u := WriteString(args.nftTitle), WriteString(args.nftSymbol), WriteString(args.nftUri);
    var input := Encode(args)[..n];
    if n < |t| {
      assert input == t[..n];
      ReadTruncatedString(args.nftTitle, n);
    } else if n < |t| + |s| {
      assert input == t + s[..n - |t|];
      ReadWrittenString(args.nftTitle, s[..n - |t|]);
      ReadTruncatedString(args.nftSymbol, n - |t|);
    } else {
      assert input == t + (s + u[..n - |t| - |s|]);
      ReadWrittenString(args.nftTitle, s + u[..n - |t| - |s|]);
      ReadWrittenString(args.nftSymbol, u[..n - |t| - |s|]);
      ReadTruncatedString(args.nftUri, n - |t| - |s|);
    }
  }

  /** A title that is not well-formed UTF-8 is refused. */
  lemma InvalidTitleRejected(bad: seq<Byte>, rest: seq<Byte>)
    requires |bad| < U32_LIMIT && !ValidUtf8(bad)
    ensures TryFromSlice(WriteString(bad) + rest) == Err(InvalidUtf8)
  {
    ReadStringRejectsInvalidUtf8(bad, rest);
  }

  lemma DeserializeInvalidSymbol(title: Utf8String, bad: seq<Byte>, rest: seq<Byte>)
    requires |title| < U32_LIMIT && |bad| < U32_LIMIT && !ValidUtf8(bad)
    ensures Deserialize(WriteString(title) + (WriteString(bad) + rest)) == Err(InvalidUtf8)
  {
    ReadWrittenString(title, WriteString(bad) + rest);
    ReadStringRejectsInvalidUtf8(bad, rest);
  }

  /** A symbol that is not well-formed UTF-8 is refused. */
  lemma InvalidSymbolRejected(title: Utf8String, bad: seq<Byte>, rest: seq<Byte>)
    requires |title| < U32_LIMIT && |bad| < U32_LIMIT && !ValidUtf8(bad)
    ensures TryFromSlice(WriteString(title) + WriteString(bad) + rest) == Err(InvalidUtf8)
  {
    DeserializeInvalidSymbol(title, bad, rest);
    assert WriteString(title) + WriteString(bad) + rest == WriteString(title) + (WriteString(bad) + rest);
  }

  lemma DeserializeInvalidUri(title: Utf8String, symbol: Utf8String, bad: seq<Byte>, rest: seq<Byte>)
    requires |title| < U32_LIMIT && |symbol| < U32_LIMIT
    requires |bad| < U32_LIMIT && !ValidUtf8(bad)
    ensures Deserialize(WriteString(title) + (WriteString(symbol) + (WriteString(bad) + rest))) == Err(InvalidUtf8)
  {
    ReadWrittenString(title, WriteString(symbol) + (WriteString(bad) + rest));
    ReadWrittenString(symbol, WriteString(bad) + rest);
    ReadStringRejectsInvalidUtf8(bad, rest);
  }

  /** A uri that is not well-formed UTF-8 is refused. */
  lemma InvalidUriRejected(title: Utf8String, symbol: Utf8String, bad: seq<Byte>, rest: seq<Byte>)
    requires |title| < U32_LIMIT && |symbol| < U32_LIMIT
    requires |bad| < U32_LIMIT && !ValidUtf8(bad)
    ensures TryFromSlice(WriteString(title) + WriteString(symbol) + WriteString(bad) + rest) == Err(InvalidUtf8)
  {
    var t, s, b := WriteString(title), WriteString(symbol), WriteString(bad);
    Concat4(t + (s + (b + rest)), t, s, b, rest, s + (b + rest), b + rest);
    DeserializeInvalidUri(title, symbol, bad, rest);
  }

  /** Three empty strings are twelve zero bytes, and back. */
  lemma EmptyStringsDecode()
    ensures TryFromSlice(seq(12, _ => 0 as Byte)) == Ok(CreateTokenArgs([], [], []))
  {
    var args := CreateTokenArgs([], [], []);
    assert Encode(args) == seq(12, _ => 0 as Byte);
    RoundTrip(args);
  }
}
