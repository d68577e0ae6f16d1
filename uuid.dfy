/** `generateUUID` (frontend/utils/uuid.ts) on given random bytes: force the
    version (section 4.1.3 of RFC 4122) and variant (section 4.1.1) bits, render
    every byte as two lowercase hex digits, and cut the 32 digits into the
    8-4-4-4-12 layout of section 3 of RFC 4122 for a version 4 UUID (section 4.4). */
module Uuid {

  /** `(b & 0x0f) | 0x40`: version 4 in the high nibble. */
  function SetVersion(b: bv8): bv8 {
    (b & 0x0F) | 0x40
  }

  /** `(b & 0x3f) | 0x80`: variant 10 in the top two bits. */
  function SetVariant(b: bv8): bv8 {
    (b & 0x3F) | 0x80
  }

  /** The version byte has high nibble 4 and keeps its low nibble; the variant
      byte has top bits 10 and keeps its low six bits. */
  lemma VersionVariantBits(b: bv8)
    ensures SetVersion(b) >> 4 == 4 && SetVersion(b) & 0x0F == b & 0x0F
    ensures SetVariant(b) >> 6 == 2 && SetVariant(b) & 0x3F == b & 0x3F
    ensures SetVersion(b) as int == 64 + b as int % 16
    ensures SetVariant(b) as int == 128 + b as int % 64
  {
  }

  /** The bytes after the two masking assignments. */
  function Masked(bytes: seq<bv8>): (r: seq<bv8>)
    requires |bytes| == 16
    ensures |r| == 16
  {
    bytes[6 := SetVersion(bytes[6])][8 := SetVariant(bytes[8])]
  }

  /** Only bytes 6 and 8 change, and each only in its version or variant bits. */
  lemma MaskedBytes(bytes: seq<bv8>)
    requires |bytes| == 16
    ensures forall i :: 0 <= i < 16 && i != 6 && i != 8 ==> Masked(bytes)[i] == bytes[i]
    ensures Masked(bytes)[6] >> 4 == 4 && Masked(bytes)[6] & 0x0F == bytes[6] & 0x0F
    ensures Masked(bytes)[8] >> 6 == 2 && Masked(bytes)[8] & 0x3F == bytes[8] & 0x3F
  {
    VersionVariantBits(bytes[6]);
    VersionVariantBits(bytes[8]);
  }

  /** Lines 8-9 of the source, which assign into the byte array. */
  method MaskInPlace(randomBytes: array<bv8>)
    requires randomBytes.Length == 16
    modifies randomBytes
    ensures randomBytes[..] == Masked(old(randomBytes[..]))
  {
    randomBytes[6] := (randomBytes[6] & 0x0F) | 0x40;
    randomBytes[8] := (randomBytes[8] & 0x3F) | 0x80;
  }

  predicate IsLowerHex(c: char) {
    '0' <= c <= '9' || 'a' <= c <= 'f'
  }

  /** The lowercase digit `toString(16)` writes for a value below 16. */
  function HexDigit(d: int): (c: char)
    requires 0 <= d < 16
    ensures IsLowerHex(c)
  {
    if d < 10 then ('0' as int + d) as char else ('a' as int + d - 10) as char
  }

  /** `n.toString(16)`: the base-16 digits of n, without leading zeros. */
  function Radix16(n: nat): (r: string)
    ensures |r| > 0 && forall k :: 0 <= k < |r| ==> IsLowerHex(r[k])
    decreases n
  {
    if n < 16 then [HexDigit(n)] else Radix16(n / 16) + [HexDigit(n % 16)]
  }

  /** `s.padStart(len, c)` with a one-character pad. */
  function PadStart(s: string, len: nat, c: char): (r: string)
    ensures |r| == if |s| >= len then |s| else len
    ensures |s| < len ==> r[len - |s|..] == s && forall k :: 0 <= k < len - |s| ==> r[k] == c
    ensures |s| >= len ==> r == s
  {
    if |s| >= len then s else seq(len - |s|, _ => c) + s
  }

  /** `toHex` of the source. */
  function ToHex(b: bv8): (r: string)
    ensures forall k :: 0 <= k < |r| ==> IsLowerHex(r[k])
  {
    PadStart(Radix16(b as int), 2, '0')
  }

  /** Every byte renders as exactly two digits, high nibble first, zero-padded. */
  lemma ToHexTwoDigits(b: bv8)
    ensures ToHex(b) == [HexDigit(b as int / 16), HexDigit(b as int % 16)]
  {
    var n := b as int;
    if n < 16 {
      assert Radix16(n) == [HexDigit(n)];
      assert n / 16 == 0 && n % 16 == n;
      assert PadStart([HexDigit(n)], 2, '0') == ['0', HexDigit(n)];
    } else {
      Radix16TwoDigits(n);
    }
  }

  /** A value from 16 to 255 has exactly two base-16 digits. */
  lemma Radix16TwoDigits(n: nat)
    requires 16 <= n < 256
    ensures Radix16(n) == [HexDigit(n / 16), HexDigit(n % 16)]
  {
    var hi := n / 16;
    assert hi < 16;
    assert Radix16(hi) == [HexDigit(hi)];
  }

  /** `Array.from(bytes).map(toHex).join('')`. */
  function HexString(bytes: seq<bv8>): string {
    if |bytes| == 0 then "" else ToHex(bytes[0]) + HexString(bytes[1..])
  }

  /** Byte i occupies digits 2i and 2i + 1. */
  lemma {:induction false} HexStringAt(bytes: seq<bv8>)
    ensures |HexString(bytes)| == 2 * |bytes|
    ensures forall i :: 0 <= i < |bytes| ==>
      HexString(bytes)[2 * i] == HexDigit(bytes[i] as int / 16) &&
      HexString(bytes)[2 * i + 1] == HexDigit(bytes[i] as int % 16)
  {
    if |bytes| > 0 {
      ToHexTwoDigits(bytes[0]);
      HexStringAt(bytes[1..]);
      var h := HexString(bytes);
      forall i | 0 < i < |bytes|
        ensures h[2 * i] == HexDigit(bytes[i] as int / 16) && h[2 * i + 1] == HexDigit(bytes[i] as int % 16)
      {
        assert bytes[1..][i - 1] == bytes[i];
      }
    }
  }

  /** The joined string consists of hex digits only. */
  lemma {:induction false} HexStringDigits(bytes: seq<bv8>)
    ensures forall k :: 0 <= k < |HexString(bytes)| ==> IsLowerHex(HexString(bytes)[k])
  {
    if |bytes| > 0 {
      HexStringDigits(bytes[1..]);
      var a, b := ToHex(bytes[0]), HexString(bytes[1..]);
      assert HexString(bytes) == a + b;
      forall k | 0 <= k < |a + b| ensures IsLowerHex((a + b)[k]) {
        if k >= |a| {
          assert (a + b)[k] == b[k - |a|];
        }
      }
    }
  }

  /** The template string of line 14: four hyphens between groups of 8, 4, 4, 4 and 12 digits. */
  function Format(hex: string): string
    requires |hex| == 32
  {
    hex[0..8] + "-" + hex[8..12] + "-" + hex[12..16] + "-" + hex[16..20] + "-" + hex[20..32]
  }

  /** `generateUUID` with the 16 random bytes as input. */
  function GenerateUuid(randomBytes: seq<bv8>): string
    requires |randomBytes| == 16
  {
    HexStringAt(Masked(randomBytes));
    Format(HexString(Masked(randomBytes)))
  }

  /** `generateUUID` as written: mask the random byte array in place, then render it. */
  method GenerateUuidInPlace(randomBytes: array<bv8>) returns (uuid: string)
    requires randomBytes.Length == 16
    modifies randomBytes
    ensures randomBytes[..] == Masked(old(randomBytes[..]))
    ensures uuid == GenerateUuid(old(randomBytes[..]))
  {
    MaskInPlace(randomBytes);
    var hex := HexString(randomBytes[..]);
    HexStringAt(randomBytes[..]);
    uuid := hex[0..8] + "-" + hex[8..12] + "-" + hex[12..16] + "-" + hex[16..20] + "-" + hex[20..32];
  }

  /** Where each character of the formatted string comes from. */
  lemma FormatAt(hex: string)
    requires |hex| == 32
    ensures var u := Format(hex);
      && |u| == 36
      && u[8] == '-' && u[13] == '-' && u[18] == '-' && u[23] == '-'
      && (forall k :: 0 <= k < 8 ==> u[k] == hex[k])
      && (forall k :: 9 <= k < 13 ==> u[k] == hex[k - 1])
      && (forall k :: 14 <= k < 18 ==> u[k] == hex[k - 2])
      && (forall k :: 19 <= k < 23 ==> u[k] == hex[k - 3])
      && (forall k :: 24 <= k < 36 ==> u[k] == hex[k - 4])
  {
  }

  /** The position in the 32 digits of a non-hyphen character of the UUID. */
  function DigitIndex(k: int): int {
    if k < 8 then k else if k < 13 then k - 1 else if k < 18 then k - 2 else if k < 23 then k - 3 else k - 4
  }

  /** The output is 36 characters long, with hyphens at 8, 13, 18 and 23 and
      lowercase hex digits everywhere else. */
  lemma UuidLayout(randomBytes: seq<bv8>)
    requires |randomBytes| == 16
    ensures var u := GenerateUuid(randomBytes);
      && |u| == 36
      && u[8] == '-' && u[13] == '-' && u[18] == '-' && u[23] == '-'
      && (forall k :: 0 <= k < 36 && k != 8 && k != 13 && k != 18 && k != 23 ==> IsLowerHex(u[k]))
  {
    var m := Masked(randomBytes);
    var hex := HexString(m);
    HexStringAt(m);
    HexStringDigits(m);
    FormatAt(hex);
    var u := Format(hex);
    forall k | 0 <= k < 36 && k != 8 && k != 13 && k != 18 && k != 23 ensures IsLowerHex(u[k]) {
      assert u[k] == hex[DigitIndex(k)];
    }
  }

  /** Character 14 is the version digit 4 and character 19 is one of 8, 9, a, b. */
  lemma UuidVersionVariant(randomBytes: seq<bv8>)
    requires |randomBytes| == 16
    ensures var u := GenerateUuid(randomBytes);
      && |u| == 36
      && u[14] == '4'
      && (u[19] == '8' || u[19] == '9' || u[19] == 'a' || u[19] == 'b')
  {
    var m := Masked(randomBytes);
    var hex := HexString(m);
    HexStringAt(m);
    FormatAt(hex);
    VersionVariantBits(randomBytes[6]);
    VersionVariantBits(randomBytes[8]);
    var v6, v8 := m[6] as int, m[8] as int;
    assert v6 / 16 == 4;
    assert 8 <= v8 / 16 < 12;
    assert hex[12] == HexDigit(v6 / 16);
    assert hex[16] == HexDigit(v8 / 16);
  }

  /** The value of a lowercase hex digit (the inverse of HexDigit). */
  function HexValue(c: char): (d: int)
    ensures 0 <= d < 16
  {
    if '0' <= c <= '9' then c as int - '0' as int
    else if 'a' <= c <= 'f' then c as int - 'a' as int + 10
    else 0
  }

  lemma HexValueDigit(d: int)
    requires 0 <= d < 16
    ensures HexValue(HexDigit(d)) == d
  {
  }

  /** Reads pairs of hex digits back into bytes. */
  function ParseHex(h: string): seq<bv8>
    decreases |h|
  {
    if |h| < 2 then [] else [(16 * HexValue(h[0]) + HexValue(h[1])) as bv8] + ParseHex(h[2..])
  }

  /** The hex rendering reads back as the bytes it came from. */
  lemma {:induction false} ParseHexString(bytes: seq<bv8>)
    ensures ParseHex(HexString(bytes)) == bytes
  {
    if |bytes| > 0 {
      var b := bytes[0];
      ToHexTwoDigits(b);
      HexValueDigit(b as int / 16);
      HexValueDigit(b as int % 16);
      var h := HexString(bytes);
      assert h == ToHex(b) + HexString(bytes[1..]);
      assert h[2..] == HexString(bytes[1..]);
      ParseHexString(bytes[1..]);
    }
  }

  /** The digits with every hyphen dropped. */
  function RemoveHyphens(s: string): string {
    if |s| == 0 then "" else (if s[0] == '-' then "" else [s[0]]) + RemoveHyphens(s[1..])
  }

  lemma {:induction false} RemoveHyphensAppend(a: string, b: string)
    ensures RemoveHyphens(a + b) == RemoveHyphens(a) + RemoveHyphens(b)
  {
    if |a| > 0 {
      assert (a + b)[1..] == a[1..] + b;
      RemoveHyphensAppend(a[1..], b);
    } else {
      assert a + b == b;
    }
  }

  lemma {:induction false} RemoveHyphensNone(s: string)
    requires forall k :: 0 <= k < |s| ==> s[k] != '-'
    ensures RemoveHyphens(s) == s
  {
    if |s| > 0 {
      RemoveHyphensNone(s[1..]);
    }
  }

  lemma RemoveHyphensSlice(s: string, i: int, j: int)
    requires 0 <= i <= j <= |s|
    requires forall k :: 0 <= k < |s| ==> s[k] != '-'
    ensures RemoveHyphens(s[i..j]) == s[i..j]
  {
    RemoveHyphensNone(s[i..j]);
  }

  lemma RemoveHyphensJoin(a: string, b: string)
    ensures RemoveHyphens(a + "-" + b) == RemoveHyphens(a) + RemoveHyphens(b)
  {
    var hyphen := "-";
    assert RemoveHyphens(hyphen) == "" by {
      assert hyphen[0] == '-' && |hyphen[1..]| == 0;
    }
    RemoveHyphensAppend(a, hyphen);
    RemoveHyphensAppend(a + hyphen, b);
  }

  /** The hyphens are the only characters the layout adds. */
  lemma FormatDropsHyphens(hex: string)
    requires |hex| == 32
    requires forall k :: 0 <= k < 32 ==> hex[k] != '-'
    ensures RemoveHyphens(Format(hex)) == hex
  {
    var p1, p2, p3, p4, p5 := hex[0..8], hex[8..12], hex[12..16], hex[16..20], hex[20..32];
    var q1 := p1 + "-" + p2;
    var q2 := q1 + "-" + p3;
    var q3 := q2 + "-" + p4;
    assert Format(hex) == q3 + "-" + p5;
    RemoveHyphensSlice(hex, 0, 8);
    RemoveHyphensSlice(hex, 8, 12);
    RemoveHyphensJoin(p1, p2);
    RemoveHyphensSlice(hex, 12, 16);
    RemoveHyphensJoin(q1, p3);
    RemoveHyphensSlice(hex, 16, 20);
    RemoveHyphensJoin(q2, p4);
    RemoveHyphensSlice(hex, 20, 32);
    RemoveHyphensJoin(q3, p5);
    assert p1 + p2 + p3 + p4 + p5 == hex;
  }

  /** Removing the hyphens and parsing the 32 digits gives back the masked bytes. */
  lemma UuidRoundTrip(randomBytes: seq<bv8>)
    requires |randomBytes| == 16
    ensures ParseHex(RemoveHyphens(GenerateUuid(randomBytes))) == Masked(randomBytes)
  {
    var m := Masked(randomBytes);
    var hex := HexString(m);
    HexStringAt(m);
    HexStringDigits(m);
    FormatDropsHyphens(hex);
    ParseHexString(m);
  }
}
