/**
 * The parts of the Borsh binary format that `CreateTokenArgs` uses: a `u32`
 * is four bytes, least significant first; a `String` is its byte length as a
 * `u32` followed by that many bytes, which must be well-formed UTF-8.
 * Readers take the input and return the value read and the unread rest.
 */
module Borsh {
  import opened Wrappers
  import opened Utf8

  const U32_LIMIT: nat := 0x1_0000_0000

  /**
   * The reasons a Borsh read fails: a short input is reported as
   * `InvalidInput` ("Unexpected length of input"); bad UTF-8 and unread bytes
   * are reported as `InvalidData`.
   */
  datatype DecodeError =
    | UnexpectedLength  // fewer bytes left than the value needs
    | InvalidUtf8       // a string's bytes are not well-formed UTF-8
    | NotAllBytesRead   // `try_from_slice` found bytes after the value

  function U32ToLe(n: nat): (b: seq<Byte>)
    requires n < U32_LIMIT
    ensures |b| == 4
  {
    var n1 := n / 0x100;
    var n2 := n1 / 0x100;
    [(n % 0x100) as Byte, (n1 % 0x100) as Byte, (n2 % 0x100) as Byte, (n2 / 0x100) as Byte]
  }

  function U32FromLe(b: seq<Byte>): (n: nat)
    requires |b| == 4
    ensures n < U32_LIMIT
  {
    b[0] as nat + 0x100 * (b[1] as nat + 0x100 * (b[2] as nat + 0x100 * (b[3] as nat)))
  }

  lemma U32ToLeFromLe(n: nat)
    requires n < U32_LIMIT
    ensures U32FromLe(U32ToLe(n)) == n
  {
    var n1 := n / 0x100;
    var n2 := n1 / 0x100;
    assert n == n % 0x100 + 0x100 * n1;
    assert n1 == n1 % 0x100 + 0x100 * n2;
    assert n2 == n2 % 0x100 + 0x100 * (n2 / 0x100);
  }

  lemma U32FromLeToLe(b: seq<Byte>)
    requires |b| == 4
    ensures U32ToLe(U32FromLe(b)) == b
  {
    var q2 := b[2] as nat + 0x100 * (b[3] as nat);
    var q1 := b[1] as nat + 0x100 * q2;
    var n := b[0] as nat + 0x100 * q1;
    assert n % 0x100 == b[0] as nat && n / 0x100 == q1;
    assert q1 % 0x100 == b[1] as nat && q1 / 0x100 == q2;
    assert q2 % 0x100 == b[2] as nat && q2 / 0x100 == b[3] as nat;
  }

  /** Reads a `u32`; fails only when fewer than four bytes are left. */
  function ReadU32(input: seq<Byte>): (r: Result<(nat, seq<Byte>), DecodeError>)
  {
    if |input| < 4 then Err(UnexpectedLength)
    else Ok((U32FromLe(input[..4]), input[4..]))
  }

  /** The Borsh encoding of a string's bytes: length prefix, then the bytes. */
  function WriteString(s: seq<Byte>): (b: seq<Byte>)
    requires |s| < U32_LIMIT
    ensures |b| == 4 + |s|
  {
    U32ToLe(|s|) + s
  }

  /** Reads a `Vec<u8>`: the length, then that many bytes. */
  function ReadBytes(input: seq<Byte>): (r: Result<(seq<Byte>, seq<Byte>), DecodeError>)
  {
    var p :- ReadU32(input);
    var len, rest := p.0, p.1;
    if |rest| < len then Err(UnexpectedLength) else Ok((rest[..len], rest[len..]))
  }

  /** Reads a `String`: the bytes of a `Vec<u8>`, then the check of `String::from_utf8`. */
  function ReadString(input: seq<Byte>): (r: Result<(Utf8String, seq<Byte>), DecodeError>)
  {
    var p :- ReadBytes(input);
    if !ValidUtf8(p.0) then Err(InvalidUtf8) else Ok((p.0, p.1))
  }

  lemma ReadWrittenBytes(t: seq<Byte>, rest: seq<Byte>)
    requires |t| < U32_LIMIT
    ensures ReadBytes(WriteString(t) + rest) == Ok((t, rest))
  {
    var input := WriteString(t) + rest;
    assert input[..4] == U32ToLe(|t|);
    U32ToLeFromLe(|t|);
    assert input[4..] == t + rest;
    assert (t + rest)[..|t|] == t && (t + rest)[|t|..] == rest;
  }

  /** Reading back a written string gives the string and leaves the rest untouched. */
  lemma ReadWrittenString(s: Utf8String, rest: seq<Byte>)
    requires |s| < U32_LIMIT
    ensures ReadString(WriteString(s) + rest) == Ok((s, rest))
  {
    ReadWrittenBytes(s, rest);
  }

  /** A string is read only from its own encoding: the bytes consumed are exactly `WriteString`. */
  lemma ReadStringConsumesEncoding(input: seq<Byte>)
    requires ReadString(input).Ok?
    ensures var (s, rest) := ReadString(input).value;
      |s| < U32_LIMIT && input == WriteString(s) + rest
  {
    var (s, rest) := ReadBytes(input).value;
    U32FromLeToLe(input[..4]);
    assert input == input[..4] + input[4..];
    assert input[4..] == s + rest;
  }

  /** A string whose bytes are not well-formed UTF-8 is refused, whatever follows it. */
  lemma ReadStringRejectsInvalidUtf8(t: seq<Byte>, rest: seq<Byte>)
    requires |t| < U32_LIMIT && !ValidUtf8(t)
    ensures ReadString(WriteString(t) + rest) == Err(InvalidUtf8)
  {
    ReadWrittenBytes(t, rest);
  }

  /** Every proper prefix of a string's encoding runs out of bytes. */
  lemma ReadTruncatedString(s: Utf8String, n: nat)
    requires |s| < U32_LIMIT && n < |WriteString(s)|
    ensures ReadString(WriteString(s)[..n]) == Err(UnexpectedLength)
  {
    var input := WriteString(s)[..n];
    if n >= 4 {
      assert input[..4] == U32ToLe(|s|);
      U32ToLeFromLe(|s|);
    }
  }
}
