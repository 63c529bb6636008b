/**
 * The idempotency tag attached to every incident: the SHA-256 digest (FIPS
 * 180-4) of `caller|short description`, written in lower-case hexadecimal
 * and cut to its first 12 digits. The hash function itself is a parameter.
 */
module Idempotency {
  import opened PyText

  type byte = x: int | 0 <= x < 256

  /** A SHA-256 digest is 32 bytes. */
  type Digest = d: seq<byte> | |d| == 32 witness seq(32, i => 0)

  /** The text that is hashed: the caller, or "unknown" when it is missing or empty, a bar, the trimmed summary. */
  function TagBase(caller: Option<string>, shortDescription: string): string {
    (if Truthy(caller) then caller.value else "unknown") + "|" + Strip(shortDescription)
  }

  predicate IsHexDigit(c: char) {
    '0' <= c <= '9' || 'a' <= c <= 'f'
  }

  function HexDigit(n: nat): (c: char)
    requires n < 16
    ensures IsHexDigit(c)
  {
    if n < 10 then (48 + n) as char else (87 + n) as char
  }

  function HexValue(c: char): (n: nat)
    requires IsHexDigit(c)
    ensures n < 16 && HexDigit(n) == c
  {
    if c <= '9' then c as int - 48 else c as int - 87
  }

  /** `hexdigest()`: two lower-case digits per byte, high nibble first. */
  function Hex(bytes: seq<byte>): (hex: string)
    ensures |hex| == 2 * |bytes|
    ensures forall k :: 0 <= k < |hex| ==> IsHexDigit(hex[k])
  {
    if bytes == [] then "" else [HexDigit(bytes[0] / 16), HexDigit(bytes[0] % 16)] + Hex(bytes[1..])
  }

  /** `_idempotency_tag` */
  function IdempotencyTag(sha256: string -> Digest, caller: Option<string>, shortDescription: string): (tag: string)
    ensures |tag| == 12
    ensures forall k :: 0 <= k < 12 ==> IsHexDigit(tag[k])
  {
    Hex(sha256(TagBase(caller, shortDescription)))[..12]
  }

  /** Reading the hex digits back gives the bytes. */
  lemma {:induction false} HexDecodes(bytes: seq<byte>, k: nat)
    requires k < |bytes|
    ensures HexValue(Hex(bytes)[2 * k]) * 16 + HexValue(Hex(bytes)[2 * k + 1]) == bytes[k]
  {
    if k > 0 {
      HexDecodes(bytes[1..], k - 1);
      assert Hex(bytes)[2 * k] == Hex(bytes[1..])[2 * (k - 1)];
      assert Hex(bytes)[2 * k + 1] == Hex(bytes[1..])[2 * (k - 1) + 1];
    }
  }

  /** The tag is the first six bytes of the digest of the tag base, in hexadecimal. */
  lemma TagDecodes(sha256: string -> Digest, caller: Option<string>, shortDescription: string, k: nat)
    requires k < 6
    ensures var tag := IdempotencyTag(sha256, caller, shortDescription);
      HexValue(tag[2 * k]) * 16 + HexValue(tag[2 * k + 1]) == sha256(TagBase(caller, shortDescription))[k]
  {
    HexDecodes(sha256(TagBase(caller, shortDescription)), k);
  }

  /** A missing caller and an empty caller are both "unknown". */
  lemma UnknownCaller(shortDescription: string)
    ensures TagBase(None, shortDescription) == TagBase(Some(""), shortDescription)
    ensures TagBase(None, shortDescription) == TagBase(Some("unknown"), shortDescription)
  {
  }

  /** Surrounding whitespace in the summary does not change the tag. */
  lemma TagIgnoresPadding(sha256: string -> Digest, caller: Option<string>, shortDescription: string)
    ensures IdempotencyTag(sha256, caller, Strip(shortDescription)) == IdempotencyTag(sha256, caller, shortDescription)
  {
    StripIdempotent(shortDescription);
  }
}
