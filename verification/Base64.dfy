/** Base64 of section 4 of RFC 4648, as `base64.b64encode` writes it and
    `base64.b64decode(..., validate=True)` reads it back
    (src/scrapy_extension/backends/_json_codec.py). */
module Base64 {
  import opened Options

  type Byte = x: nat | x < 256
  type Sextet = x: nat | x < 64

  function Char(x: Sextet): char {
    if x < 26 then ('A' as int + x) as char
    else if x < 52 then ('a' as int + x - 26) as char
    else if x < 62 then ('0' as int + x - 52) as char
    else if x == 62 then '+'
    else '/'
  }

  function Value(c: char): Option<Sextet> {
    if 'A' <= c <= 'Z' then Some(c as int - 'A' as int)
    else if 'a' <= c <= 'z' then Some(c as int - 'a' as int + 26)
    else if '0' <= c <= '9' then Some(c as int - '0' as int + 52)
    else if c == '+' then Some(62)
    else if c == '/' then Some(63)
    else None
  }

  // Three bytes x, y, z as four sextets, and back.

  function First(x: Byte): Sextet { x / 4 }
  function Second(x: Byte, y: Byte): Sextet { x % 4 * 16 + y / 16 }
  function Third(y: Byte, z: Byte): Sextet { y % 16 * 4 + z / 64 }
  function Fourth(z: Byte): Sextet { z % 64 }

  function High(c0: Sextet, c1: Sextet): Byte { c0 * 4 + c1 / 16 }
  function Middle(c1: Sextet, c2: Sextet): Byte { c1 % 16 * 16 + c2 / 4 }
  function Low(c2: Sextet, c3: Sextet): Byte { c2 % 4 * 64 + c3 }

  function Encode(b: seq<Byte>): string {
    if b == [] then ""
    else if |b| == 1 then [Char(First(b[0])), Char(Second(b[0], 0)), '=', '=']
    else if |b| == 2 then [Char(First(b[0])), Char(Second(b[0], b[1])), Char(Third(b[1], 0)), '=']
    else
      [Char(First(b[0])), Char(Second(b[0], b[1])), Char(Third(b[1], b[2])), Char(Fourth(b[2]))] + Encode(b[3..])
  }

  function Decode(s: string): Option<seq<Byte>> {
    if s == "" then Some([])
    else if |s| < 4 || Value(s[0]).None? || Value(s[1]).None? then None
    else
      var c0, c1 := Value(s[0]).value, Value(s[1]).value;
      if |s| == 4 && s[2] == '=' && s[3] == '=' then Some([High(c0, c1)])
      else if Value(s[2]).None? then None
      else
        var c2 := Value(s[2]).value;
        if |s| == 4 && s[3] == '=' then Some([High(c0, c1), Middle(c1, c2)])
        else if Value(s[3]).None? then None
        else
          var c3 := Value(s[3]).value;
          var rest := Decode(s[4..]);
          if rest.None? then None
          else Some([High(c0, c1), Middle(c1, c2), Low(c2, c3)] + rest.value)
  }

  lemma CharValue(x: Sextet)
    ensures Value(Char(x)) == Some(x) && Char(x) != '='
  {
  }

  lemma Regroup(x: Byte, y: Byte, z: Byte)
    ensures High(First(x), Second(x, y)) == x
    ensures Middle(Second(x, y), Third(y, z)) == y
    ensures Low(Third(y, z), Fourth(z)) == z
  {
  }

  /** Every byte string comes back. */
  lemma {:induction false} RoundTrip(b: seq<Byte>)
    ensures Decode(Encode(b)) == Some(b)
  {
    hide Char, Value, First, Second, Third, Fourth, High, Middle, Low;
    if b != [] {
      var y, z := if |b| > 1 then b[1] else 0, if |b| > 2 then b[2] else 0;
      Regroup(b[0], y, z);
      CharValue(First(b[0]));
      CharValue(Second(b[0], y));
      CharValue(Third(y, z));
      CharValue(Fourth(z));
      if |b| == 1 {
        assert b == [b[0]];
      } else if |b| == 2 {
        assert b == [b[0], b[1]];
      } else {
        RoundTrip(b[3..]);
        assert Encode(b)[4..] == Encode(b[3..]);
        assert b == [b[0], b[1], b[2]] + b[3..];
      }
    }
  }

  // ----- Against the text of the standard -----

  // Table 1 of section 4 of RFC 4648, in four parts.

  const UPPER: string := "ABCDEFGHIJKLMNOPQRSTUVWXYZ"
  const LOWER: string := "abcdefghijklmnopqrstuvwxyz"
  const DIGITS: string := "0123456789"
  const ALPHABET: string := UPPER + LOWER + DIGITS + "+/"

  lemma AlphabetIs(x: Sextet)
    ensures |ALPHABET| == 64 && Char(x) == ALPHABET[x]
  {
    assert |UPPER| == 26 && forall i :: 0 <= i < 26 ==> UPPER[i] == ('A' as int + i) as char;
    assert |LOWER| == 26 && forall i :: 0 <= i < 26 ==> LOWER[i] == ('a' as int + i) as char;
    assert |DIGITS| == 10 && forall i :: 0 <= i < 10 ==> DIGITS[i] == ('0' as int + i) as char;
  }

  /** A character has the value of its place in the alphabet, and no other has one. */
  lemma ValueIs(c: char, x: Sextet)
    ensures Value(c) == Some(x) <==> c == Char(x)
  {
  }

  /** A byte of the string, and zero past its end. */
  function ByteAt(b: seq<Byte>, i: nat): Byte {
    if i < |b| then b[i] else 0
  }

  /** The 24 bits of group `i`, filled up with zeros. */
  function Bits(b: seq<Byte>, i: nat): nat {
    ByteAt(b, 3 * i) * 65536 + ByteAt(b, 3 * i + 1) * 256 + ByteAt(b, 3 * i + 2)
  }

  /** The `j`-th of the four six-bit groups of 24 bits, the highest first. */
  function Digit(bits: nat, j: nat): Sextet {
    if j == 0 then bits / 262144 % 64
    else if j == 1 then bits / 4096 % 64
    else if j == 2 then bits / 64 % 64
    else bits % 64
  }

  /** Character `k` of the encoding, as the standard has it. */
  function CharAt(b: seq<Byte>, k: nat): char {
    if k % 4 > 1 && k / 4 * 3 + k % 4 > |b| then '=' else ALPHABET[Digit(Bits(b, k / 4), k % 4)]
  }

  lemma SixBits(high: nat, digit: Sextet, low: nat, unit: nat)
    requires low < unit
    ensures ((high * 64 + digit) * unit + low) / unit % 64 == digit
  {
    var n := high * 64 + digit;
    assert (n * unit + low) / unit == n by { Quotient(n, unit, low); }
  }

  lemma Quotient(n: nat, unit: nat, low: nat)
    requires low < unit
    ensures (n * unit + low) / unit == n
  {
    var q, r := (n * unit + low) / unit, (n * unit + low) % unit;
    assert (q - n) * unit == low - r;
    NoneBetween(q - n, unit);
  }

  lemma NoneBetween(d: int, unit: int)
    requires -unit < d * unit < unit
    ensures d == 0
  {
  }

  /** Three bytes and the four groups of six bits they hold. */
  lemma GroupSum(x: Byte, y: Byte, z: Byte)
    ensures x * 65536 + y * 256 + z == First(x) * 262144 + Second(x, y) * 4096 + Third(y, z) * 64 + Fourth(z)
  {
  }

  lemma GroupDigits(x: Byte, y: Byte, z: Byte)
    ensures var bits := x * 65536 + y * 256 + z;
            && Digit(bits, 0) == First(x) && Digit(bits, 1) == Second(x, y)
            && Digit(bits, 2) == Third(y, z) && Digit(bits, 3) == Fourth(z)
  {
    GroupSum(x, y, z);
    hide First, Second, Third, Fourth;
    var a: nat, b: nat, c: nat, d: nat := First(x), Second(x, y), Third(y, z), Fourth(z);
    var ab, low := a * 64 + b, b * 4096 + c * 64 + d;
    SixBits(0, a, low, 262144);
    SixBits(a, b, c * 64 + d, 4096);
    SixBits(ab, c, d, 64);
    SixBits(ab * 64 + c, d, 0, 1);
  }

  lemma TailBits(b: seq<Byte>, i: nat)
    requires |b| >= 3
    ensures Bits(b[3..], i) == Bits(b, i + 1)
  {
  }

  /** The first four characters. */
  lemma FirstGroup(b: seq<Byte>, k: nat)
    requires b != [] && k < 4
    ensures |Encode(b)| >= 4 && Encode(b)[k] == CharAt(b, k)
  {
    hide Digit, First, Second, Third, Fourth, Char;
    var x, y, z := ByteAt(b, 0), ByteAt(b, 1), ByteAt(b, 2);
    GroupDigits(x, y, z);
    AlphabetIs(First(x));
    AlphabetIs(Second(x, y));
    AlphabetIs(Third(y, z));
    AlphabetIs(Fourth(z));
    hide ALPHABET;
    assert k == 0 || k == 1 || k == 2 || k == 3;
  }

  lemma FourLess(k: nat)
    requires k >= 4
    ensures (k - 4) % 4 == k % 4 && (k - 4) / 4 == k / 4 - 1
  {
  }

  lemma LaterChar(b: seq<Byte>, k: nat)
    requires |b| >= 3 && k >= 4
    ensures CharAt(b, k) == CharAt(b[3..], k - 4)
  {
    hide Digit, Bits, ALPHABET;
    FourLess(k);
    TailBits(b, k / 4 - 1);
  }

  lemma LaterGroups(b: seq<Byte>, k: nat)
    requires |b| >= 3 && k >= 4
    ensures |Encode(b)| == 4 + |Encode(b[3..])|
    ensures k < |Encode(b)| ==> Encode(b)[k] == Encode(b[3..])[k - 4]
  {
    hide Char, First, Second, Third, Fourth;
  }

  /** The encoding is the one of the standard: four characters for every three bytes or rest
      of them, each the next six bits in the alphabet, padded with '='. */
  lemma {:induction false} EncodeIsStandard(b: seq<Byte>, k: nat)
    ensures |Encode(b)| == 4 * ((|b| + 2) / 3)
    ensures k < |Encode(b)| ==> Encode(b)[k] == CharAt(b, k)
    decreases |b|
  {
    hide CharAt, Char;
    if |b| >= 3 {
      EncodeIsStandard(b[3..], if k >= 4 then k - 4 else 0);
      if k >= 4 {
        LaterGroups(b, k);
        LaterChar(b, k);
      } else { FirstGroup(b, k); }
    } else if b != [] && k < 4 {
      FirstGroup(b, k);
    }
  }
}
