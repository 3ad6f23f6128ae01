/** `AuthService.generate_key_32`: a profile key is the 32 hex digits of a random UUID. */
module SessionKeys {
  const HEX := "0123456789abcdef"

  function Pow16(n: nat): (p: nat)
    ensures p >= 1
  {
    if n == 0 then 1 else 16 * Pow16(n - 1)
  }

  /** The 128-bit value `uuid.uuid4()` draws (16^32 = 2^128). */
  type Uuid = n: nat | n < Pow16(32)

  /** The lowest `width` hex digits of `n`, most significant first, zero-padded. */
  function HexDigits(n: nat, width: nat): (s: string)
    ensures |s| == width
    ensures forall i :: 0 <= i < |s| ==> s[i] in HEX
  {
    if width == 0 then "" else HexDigits(n / 16, width - 1) + [HEX[n % 16]]
  }

  /** The value of a hex digit; anything else counts as 0. */
  function DigitValue(c: char): (v: nat)
    ensures v < 16
    ensures forall k :: 0 <= k < 16 && HEX[k] == c ==> v == k
  {
    if '0' <= c <= '9' then c as int - '0' as int
    else if 'a' <= c <= 'f' then c as int - 'a' as int + 10
    else 0
  }

  function ParseHex(s: string): nat
  {
    if s == "" then 0 else ParseHex(s[..|s| - 1]) * 16 + DigitValue(s[|s| - 1])
  }

  /** `uuid.uuid4().hex[:32]`: `hex` already has exactly 32 digits, so the slice keeps them all. */
  function GenerateKey32(uuid: Uuid): (key: string)
    ensures |key| == 32 && forall i :: 0 <= i < |key| ==> key[i] in HEX
  {
    HexDigits(uuid, 32)[..32]
  }

  /** Reading back the digits of a value that fits in them gives the value. */
  lemma {:induction false} ParseHexDigits(n: nat, width: nat)
    requires n < Pow16(width)
    ensures ParseHex(HexDigits(n, width)) == n
  {
    if width > 0 {
      var s := HexDigits(n, width);
      assert s[..|s| - 1] == HexDigits(n / 16, width - 1);
      assert s[|s| - 1] == HEX[n % 16];
      ParseHexDigits(n / 16, width - 1);
    }
  }

  /** Distinct UUIDs give distinct keys, and the key determines the UUID. */
  lemma {:induction false} GenerateKey32RoundTrip(uuid: Uuid)
    ensures ParseHex(GenerateKey32(uuid)) == uuid
  {
    ParseHexDigits(uuid, 32);
    assert HexDigits(uuid, 32)[..32] == HexDigits(uuid, 32);
  }
}
