/**
 * Version 7 UUID strings: a 48-bit big-endian millisecond time stamp followed
 * by ten random bytes, with the version nibble and the variant bits
 * overwritten in place, printed as lower-case hex in 8-4-4-4-12 groups.
 * The random source is a parameter.
 */
module Uuid {
  import opened Wrappers
  import opened Numerals
  import opened Strings

  /** What `int.to_bytes(6, "big")` raises for a value that does not fit in 48 bits. */
  datatype Overflow = OverflowError

  const TimestampLimit: nat := 0x1_0000_0000_0000

  /** One byte of Python `bytes`. */
  type Byte = x: int | 0 <= x < 256

  /** `n.to_bytes(k, "big")`: the `k` bytes of `n`, most significant first. */
  function BigEndian(n: nat, k: nat): (b: seq<Byte>)
    requires n < Pow(256, k)
    ensures |b| == k
  {
    if k == 0 then []
    else
      assert n / 256 < Pow(256, k - 1) by { assert Pow(256, k) == 256 * Pow(256, k - 1); }
      BigEndian(n / 256, k - 1) + [n % 256]
  }

  /** The two lower-case hex digits of one byte (`bytes.hex()` per byte). */
  function ByteHex(x: Byte): string
  {
    [DigitChar(x / 16), DigitChar(x % 16)]
  }

  /** `bytes.hex()`. */
  function Hex(b: seq<Byte>): (h: string)
    ensures |h| == 2 * |b|
  {
    if b == [] then [] else Hex(b[..|b| - 1]) + ByteHex(b[|b| - 1])
  }

  /** `(x & 0x0F) | 0x70`: the low four bits kept, the high four set to 0111. */
  function WithVersion(x: Byte): Byte
  {
    x % 16 + 0x70
  }

  /** `(x & 0x3F) | 0x80`: the low six bits kept, the high two set to 10. */
  function WithVariant(x: Byte): Byte
  {
    x % 64 + 0x80
  }

  /** The sixteen bytes: time stamp, random bytes, then bytes 6 and 8 overwritten. */
  function UuidBytes(ms: nat, random: seq<Byte>): (b: seq<Byte>)
    requires ms < TimestampLimit && |random| == 10
    ensures |b| == 16
  {
    var joined := BigEndian(ms, 6) + random;
    joined[6 := WithVersion(joined[6])][8 := WithVariant(joined[8])]
  }

  /** The 8-4-4-4-12 grouping of 32 hex digits. */
  function Hyphenate(h: string): (s: string)
    requires |h| == 32
    ensures |s| == 36
  {
    h[0..8] + "-" + h[8..12] + "-" + h[12..16] + "-" + h[16..20] + "-" + h[20..32]
  }

  function UuidString(ms: nat, random: seq<Byte>): string
    requires ms < TimestampLimit && |random| == 10
  {
    Hyphenate(Hex(UuidBytes(ms, random)))
  }

  /**
   * `uuid7(unix_timestamp)` with `os.urandom(10)` passed in as `random`. The
   * time stamp in milliseconds must fit in 48 unsigned bits, or the conversion
   * raises.
   */
  method Uuid7(unixTimestamp: int, random: seq<Byte>) returns (r: Result<string, Overflow>)
    requires |random| == 10
    ensures r.Err? <==> !(0 <= unixTimestamp * 1000 < TimestampLimit)
    ensures r.Ok? ==> r.value == UuidString(unixTimestamp * 1000, random)
  {
    var ms := unixTimestamp * 1000;
    if ms < 0 || ms >= TimestampLimit {
      return Err(OverflowError);
    }
    assert Pow(256, 6) == TimestampLimit;
    var stamp := BigEndian(ms, 6);
    var joined := stamp + random;
    var bytes := new Byte[16](i requires 0 <= i < 16 => joined[i]);
    bytes[6] := WithVersion(bytes[6]);
    bytes[8] := WithVariant(bytes[8]);
    assert bytes[..] == UuidBytes(ms, random);
    var hex := Hex(bytes[..]);
    r := Ok(hex[0..8] + "-" + hex[8..12] + "-" + hex[12..16] + "-" + hex[16..20] + "-" + hex[20..32]);
  }

  // ---------------------------------------------------------------------------
  // Properties of the hex rendering

  /** Byte `i` of the input becomes hex digits `2i` (high nibble) and `2i + 1` (low nibble). */
  lemma {:induction false} HexAt(b: seq<Byte>, i: nat)
    requires i < |b|
    ensures Hex(b)[2 * i] == DigitChar(b[i] / 16)
    ensures Hex(b)[2 * i + 1] == DigitChar(b[i] % 16)
    decreases |b|
  {
    if i < |b| - 1 {
      HexAt(b[..|b| - 1], i);
    }
  }

  predicate IsLowerHex(c: char) { '0' <= c <= '9' || 'a' <= c <= 'f' }

  lemma HexIsLowerHex(b: seq<Byte>, j: nat)
    requires j < |Hex(b)|
    ensures IsLowerHex(Hex(b)[j])
  {
    HexAt(b, j / 2);
    assert j == 2 * (j / 2) || j == 2 * (j / 2) + 1;
  }

  /** Two more hex digits shift the value by a byte. */
  lemma ValueAppendByte(h: string, x: Byte)
    requires AllDigitsIn(h, 16)
    ensures AllDigitsIn(h + ByteHex(x), 16)
    ensures ValueIn(h + ByteHex(x), 16) == ValueIn(h, 16) * 256 + x
  {
    var hi := x / 16;
    var lo := x % 16;
    DigitCharValue(hi);
    DigitCharValue(lo);
    var g := h + [DigitChar(hi)];
    var h2 := g + [DigitChar(lo)];
    assert h + ByteHex(x) == h2;
    assert forall i :: 0 <= i < |g| ==> IsDigitIn(g[i], 16) by {
      forall i | 0 <= i < |g| ensures IsDigitIn(g[i], 16) {
        if i < |h| { assert g[i] == h[i]; }
      }
    }
    assert forall i :: 0 <= i < |h2| ==> IsDigitIn(h2[i], 16) by {
      forall i | 0 <= i < |h2| ensures IsDigitIn(h2[i], 16) {
        if i < |g| { assert h2[i] == g[i]; }
      }
    }
    assert h2[..|h2| - 1] == g;
    assert g[..|g| - 1] == h;
    assert ValueIn(g, 16) == ValueIn(h, 16) * 16 + hi;
    assert ValueIn(h2, 16) == ValueIn(g, 16) * 16 + lo;
  }

  /** The hex of `n.to_bytes(k, "big")` reads back as `n`. */
  lemma {:induction false} BigEndianHexValue(n: nat, k: nat)
    requires n < Pow(256, k)
    ensures AllDigitsIn(Hex(BigEndian(n, k)), 16)
    ensures ValueIn(Hex(BigEndian(n, k)), 16) == n
    decreases k
  {
    if k > 0 {
      assert Pow(256, k) == 256 * Pow(256, k - 1);
      var b := BigEndian(n, k);
      var front := BigEndian(n / 256, k - 1);
      var x: Byte := n % 256;
      assert b == front + [x];
      assert b[..|b| - 1] == front;
      assert Hex(b) == Hex(front) + ByteHex(x);
      BigEndianHexValue(n / 256, k - 1);
      ValueAppendByte(Hex(front), x);
      assert ValueIn(Hex(b), 16) == (n / 256) * 256 + n % 256;
    }
  }

  lemma {:induction false} HexAppend(a: seq<Byte>, b: seq<Byte>)
    ensures Hex(a + b) == Hex(a) + Hex(b)
    decreases |b|
  {
    if b == [] {
      assert a + b == a;
    } else {
      assert (a + b)[..|a + b| - 1] == a + b[..|b| - 1];
      HexAppend(a, b[..|b| - 1]);
    }
  }

  // ---------------------------------------------------------------------------
  // Properties of the UUID string

  /** 36 characters; '-' at 8, 13, 18 and 23; lower-case hex everywhere else. */
  lemma UuidShape(ms: nat, random: seq<Byte>)
    requires ms < TimestampLimit && |random| == 10
    ensures |UuidString(ms, random)| == 36
    ensures forall i :: 0 <= i < 36 ==>
      (UuidString(ms, random)[i] == '-' <==> i in {8, 13, 18, 23})
    ensures forall i :: 0 <= i < 36 && i !in {8, 13, 18, 23} ==> IsLowerHex(UuidString(ms, random)[i])
  {
    var h := Hex(UuidBytes(ms, random));
    var s := UuidString(ms, random);
    forall i | 0 <= i < 36
      ensures (s[i] == '-' <==> i in {8, 13, 18, 23})
      ensures i !in {8, 13, 18, 23} ==> IsLowerHex(s[i])
    {
      if i !in {8, 13, 18, 23} {
        var j := if i < 8 then i else if i < 13 then i - 1 else if i < 18 then i - 2 else if i < 23 then i - 3 else i - 4;
        assert s[i] == h[j];
        HexIsLowerHex(UuidBytes(ms, random), j);
      }
    }
  }

  /** The version digit: character 14 is always '7'. */
  lemma UuidVersion(ms: nat, random: seq<Byte>)
    requires ms < TimestampLimit && |random| == 10
    ensures UuidString(ms, random)[14] == '7'
  {
    var b := UuidBytes(ms, random);
    HexAt(b, 6);
    assert b[6] / 16 == 7;
    assert UuidString(ms, random)[14] == Hex(b)[12];
  }

  /** The variant digit: character 19 is one of 8, 9, a, b. */
  lemma UuidVariant(ms: nat, random: seq<Byte>)
    requires ms < TimestampLimit && |random| == 10
    ensures UuidString(ms, random)[19] in {'8', '9', 'a', 'b'}
  {
    var b := UuidBytes(ms, random);
    HexAt(b, 8);
    assert 8 <= b[8] / 16 <= 11;
    assert UuidString(ms, random)[19] == Hex(b)[16];
  }

  /** The first twelve hex digits are the 48-bit time stamp. */
  lemma UuidTimestamp(ms: nat, random: seq<Byte>)
    requires ms < TimestampLimit && |random| == 10
    ensures AllDigitsIn(UuidString(ms, random)[0..8] + UuidString(ms, random)[9..13], 16)
    ensures ValueIn(UuidString(ms, random)[0..8] + UuidString(ms, random)[9..13], 16) == ms
  {
    assert Pow(256, 6) == TimestampLimit;
    var b := UuidBytes(ms, random);
    StampFirst(ms, random);
    HexPrefix(b, 6);
    HyphenatedPrefix(Hex(b));
    BigEndianHexValue(ms, 6);
  }

  lemma StampFirst(ms: nat, random: seq<Byte>)
    requires ms < TimestampLimit && |random| == 10
    ensures UuidBytes(ms, random)[..6] == (assert Pow(256, 6) == TimestampLimit; BigEndian(ms, 6))
  {
  }

  /** The hex of the first `k` bytes is the first `2k` hex digits. */
  lemma HexPrefix(b: seq<Byte>, k: nat)
    requires k <= |b|
    ensures Hex(b)[..2 * k] == Hex(b[..k])
  {
    assert b == b[..k] + b[k..];
    HexAppend(b[..k], b[k..]);
  }

  /** The first two groups of the 8-4-4-4-12 grouping are the first twelve digits. */
  lemma HyphenatedPrefix(h: string)
    requires |h| == 32
    ensures Hyphenate(h)[0..8] + Hyphenate(h)[9..13] == h[..12]
  {
    var s := Hyphenate(h);
    assert s[0..8] == h[0..8];
    assert s[9..13] == h[8..12];
    assert h[0..8] + h[8..12] == h[..12];
  }

  /** Every bit not fixed by the version and variant comes from the random bytes. */
  lemma UuidRandomBits(ms: nat, random: seq<Byte>)
    requires ms < TimestampLimit && |random| == 10
    ensures UuidBytes(ms, random)[..6] == (assert Pow(256, 6) == TimestampLimit; BigEndian(ms, 6))
    ensures UuidBytes(ms, random)[6] / 16 == 7
    ensures UuidBytes(ms, random)[6] % 16 == random[0] % 16
    ensures UuidBytes(ms, random)[7] == random[1]
    ensures UuidBytes(ms, random)[8] / 64 == 2
    ensures UuidBytes(ms, random)[8] % 64 == random[2] % 64
    ensures UuidBytes(ms, random)[9..] == random[3..]
  {
  }

  /** Python's `s.replace("-", "")` distributes over concatenation. */
  lemma {:induction false} RemoveDashAppend(a: string, b: string)
    ensures RemoveAll(a + b, "-") == RemoveAll(a, "-") + RemoveAll(b, "-")
    decreases |a|
  {
    if a != [] {
      assert (a + b)[1..] == a[1..] + b;
      assert (a + b)[..1] == a[..1];
      RemoveDashAppend(a[1..], b);
    } else {
      assert a + b == b;
    }
  }

  lemma {:induction false} RemoveDashAbsent(h: string)
    requires forall i :: 0 <= i < |h| ==> h[i] != '-'
    ensures RemoveAll(h, "-") == h
    decreases |h|
  {
    if h != [] {
      assert h[..1] != "-" by { assert h[..1][0] == h[0]; }
      RemoveDashAbsent(h[1..]);
    }
  }

  /** Removing the hyphens of `a + "-" + g`, for a hyphen-free `g`, drops that hyphen and keeps `g`. */
  lemma RemoveDashJoin(a: string, g: string)
    requires forall i :: 0 <= i < |g| ==> g[i] != '-'
    ensures RemoveAll(a + "-" + g, "-") == RemoveAll(a, "-") + g
  {
    var x := a + "-";
    RemoveDashAbsent(g);
    RemoveDashAppend(x, g);
    assert RemoveAll(x + g, "-") == RemoveAll(x, "-") + g;
    DashAppended(a);
  }

  lemma DashAppended(a: string)
    ensures RemoveAll(a + "-", "-") == RemoveAll(a, "-")
  {
    RemoveDashAppend(a, "-");
    LoneDashRemoved();
  }

  lemma LoneDashRemoved()
    ensures RemoveAll("-", "-") == []
  {
  }

  /** Removing the hyphens of the 8-4-4-4-12 grouping gives back the hyphen-free digits. */
  lemma HyphenateWithoutHyphens(h: string)
    requires |h| == 32 && forall i :: 0 <= i < |h| ==> h[i] != '-'
    ensures RemoveAll(Hyphenate(h), "-") == h
  {
    var g0, g1, g2, g3, g4 := h[0..8], h[8..12], h[12..16], h[16..20], h[20..32];
    RemoveDashAbsent(g0);
    RemoveDashJoin(g0, g1);
    RemoveDashJoin(g0 + "-" + g1, g2);
    RemoveDashJoin(g0 + "-" + g1 + "-" + g2, g3);
    RemoveDashJoin(g0 + "-" + g1 + "-" + g2 + "-" + g3, g4);
    SlicesJoin(h);
  }

  lemma SlicesJoin(h: string)
    requires |h| == 32
    ensures h[0..8] + h[8..12] + h[12..16] + h[16..20] + h[20..32] == h
  {
    assert h[0..8] + h[8..12] == h[0..12];
    assert h[0..12] + h[12..16] == h[0..16];
    assert h[0..16] + h[16..20] == h[0..20];
    assert h[0..20] + h[20..32] == h;
  }

  /** Removing the hyphens gives back the hex of the sixteen bytes. */
  lemma UuidWithoutHyphens(ms: nat, random: seq<Byte>)
    requires ms < TimestampLimit && |random| == 10
    ensures RemoveAll(UuidString(ms, random), "-") == Hex(UuidBytes(ms, random))
  {
    var h := Hex(UuidBytes(ms, random));
    forall i | 0 <= i < |h| ensures h[i] != '-' {
      HexIsLowerHex(UuidBytes(ms, random), i);
    }
    HyphenateWithoutHyphens(h);
  }
}
