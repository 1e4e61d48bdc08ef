/** Identifiers are written in base32: three encoders, one meaning. */
module Base32 {
  import opened Bytes

  const ALPHABET: string := "abcdefghijklmnopqrstuvwxyz234567"

  function Pow2(n: nat): (p: nat)
    ensures p > 0
  {
    if n == 0 then 1 else 2 * Pow2(n - 1)
  }

  /** The `count` lowest base-32 digits of a number, highest first, as symbols. */
  function Symbols(n: nat, count: nat): (s: string)
    ensures |s| == count
    decreases count
  {
    if count == 0 then "" else Symbols(n / 32, count - 1) + [ALPHABET[n % 32]]
  }

  /**
   * Section 6 of RFC 4648 without padding characters: the bytes as one bit string, zeros added on the
   * right to a whole number of 5-bit groups, one symbol a group.
   */
  function Encoding(b: bytes): string {
    var count := (8 * |b| + 4) / 5;
    Symbols(Number(b) * Pow2(5 * count - 8 * |b|), count)
  }

  // ---- Shifting is dividing

  lemma NonNegative(n: nat, d: nat)
    requires d > 0
    ensures n / d >= 0
  {
  }

  lemma AtLeastOnce(d: nat, k: int)
    ensures k >= 1 ==> d * k >= d
  {
  }

  lemma OneQuotient(d: nat, q: nat, r: nat, q': nat, r': nat)
    requires d * q + r == d * q' + r' && r < d && r' < d
    ensures q == q' && r == r'
  {
    assert d * (q - q') == r' - r;
    assert d * (q' - q) == r - r';
    AtLeastOnce(d, q - q');
    AtLeastOnce(d, q' - q);
  }

  lemma Quotient(n: nat, d: nat, q: nat, r: nat)
    requires n == d * q + r && r < d
    ensures n / d == q && n % d == r
  {
    OneQuotient(d, q, r, n / d, n % d);
  }

  /** Multiples of the divisor pass through. */
  lemma WithMultiple(a: nat, d: nat, x: nat)
    requires d > 0
    ensures (a * d + x) / d == a + x / d && (a * d + x) % d == x % d
  {
    assert a * d + x == d * (a + x / d) + x % d;
    Quotient(a * d + x, d, a + x / d, x % d);
  }

  lemma Regrouped(x: nat, y: nat, q: nat, r: nat, t: nat)
    requires r < y && t < x
    ensures x * (y * q + r) + t == (x * y) * q + (x * r + t) && x * r + t < x * y
  {
    assert x * (y * q + r) == (x * y) * q + x * r;
    assert x * y == x * r + x * (y - r);
    AtLeastOnce(x, y - r);
  }

  lemma TwiceDivided(n: nat, x: nat, y: nat)
    requires x > 0 && y > 0
    ensures x * y > 0 && n / x / y == n / (x * y)
  {
    var m := n / x;
    var q, r, t := m / y, m % y, n % x;
    Regrouped(x, y, q, r, t);
    assert m == y * q + r && n == x * m + t;
    var rest: nat := x * r + t;
    assert n == (x * y) * q + rest;
    Quotient(n, x * y, q, rest);
  }

  lemma {:induction false} Pow2Sum(a: nat, b: nat)
    ensures Pow2(a + b) == Pow2(a) * Pow2(b)
  {
    if a > 0 {
      Pow2Sum(a - 1, b);
      assert Pow2(a + b) == 2 * (Pow2(a - 1) * Pow2(b)) == (2 * Pow2(a - 1)) * Pow2(b);
    }
  }

  lemma Powers()
    ensures Pow2(0) == 1 && Pow2(5) == 32 && Pow2(8) == 256 && Pow2(32) == 0x1_0000_0000
  {
    assert Pow2(16) == 0x1_0000 by { assert Pow2(8) == 256; Pow2Sum(8, 8); }
    Pow2Sum(16, 16);
  }

  /** A multiple of 2^(s + 5) added on top does not change the five bits from bit `s` on. */
  lemma FiveBits(q: nat, s: nat, v: nat)
    ensures (q * Pow2(s + 5) + v) / Pow2(s) % 32 == v / Pow2(s) % 32
    ensures (q * Pow2(s + 5) + v) % Pow2(s) == v % Pow2(s)
  {
    Pow2Sum(s, 5);
    Powers();
    hide Pow2;
    OnTop(q, Pow2(s), v);
  }

  lemma OnTop(q: nat, d: nat, v: nat)
    requires d > 0
    ensures (q * (d * 32) + v) / d % 32 == v / d % 32 && (q * (d * 32) + v) % d == v % d
  {
    var n, m := q * (d * 32) + v, v / d;
    assert n == (q * 32) * d + v;
    WithMultiple(q * 32, d, v);
    assert n / d == q * 32 + m;
    WithMultiple(q, 32, m);
  }

  /** Dropping the low bits and then five more. */
  lemma FiveMore(n: nat, s: nat)
    ensures n / Pow2(s) / 32 == n / Pow2(s + 5)
  {
    Powers();
    Pow2Sum(s, 5);
    hide Pow2;
    TwiceDivided(n, Pow2(s), 32);
  }

  /** A new byte goes below everything kept so far. */
  lemma ByteBelow(n: nat, b: byte, bits: nat)
    ensures (n * 256 + b) / Pow2(bits + 8) == n / Pow2(bits)
    ensures (n * 256 + b) % Pow2(bits + 8) == (n % Pow2(bits)) * 256 + b
  {
    Powers();
    Pow2Sum(bits, 8);
    hide Pow2;
    Below(n, b, Pow2(bits));
  }

  lemma Below(n: nat, b: byte, y: nat)
    requires y > 0
    ensures (n * 256 + b) / (y * 256) == n / y && (n * 256 + b) % (y * 256) == (n % y) * 256 + b
  {
    var q, r := n / y, n % y;
    assert n == y * q + r;
    assert n * 256 + b == (y * 256) * q + (r * 256 + b);
    Quotient(n * 256 + b, y * 256, q, r * 256 + b);
  }

  /** The bits above the 32 that the accumulator keeps never reach a symbol. */
  lemma WrapUnseen(n: nat, s: nat)
    requires s <= 7
    ensures (n % 0x1_0000_0000) / Pow2(s) % 32 == n / Pow2(s) % 32
  {
    Powers();
    Pow2Sum(27 - s, s + 5);
    hide Pow2;
    var q, v, c := n / 0x1_0000_0000, n % 0x1_0000_0000, Pow2(27 - s);
    assert n == q * (c * Pow2(s + 5)) + v == (q * c) * Pow2(s + 5) + v;
    FiveBits(q * c, s, v);
  }

  /** What a masking accumulator sees of the bits it kept. */
  lemma MaskUnseen(n: nat, s: nat)
    ensures (n % Pow2(s + 5)) / Pow2(s) % 32 == n / Pow2(s) % 32 && (n % Pow2(s + 5)) % Pow2(s) == n % Pow2(s)
  {
    hide Pow2;
    var d := Pow2(s + 5);
    assert n == (n / d) * d + n % d;
    FiveBits(n / d, s, n % d);
  }

  /** The last group, filled up with zeros. */
  lemma LastGroup(n: nat, bits: nat)
    requires 1 <= bits <= 4
    ensures n * Pow2(5 - bits) / 32 == n / Pow2(bits)
    ensures (n % Pow2(bits)) * Pow2(5 - bits) % 32 == n * Pow2(5 - bits) % 32
  {
    Powers();
    Pow2Sum(bits, 5 - bits);
    hide Pow2;
    TopGroup(n, Pow2(bits), Pow2(5 - bits));
  }

  lemma TopGroup(n: nat, y: nat, z: nat)
    requires y * z == 32 && y > 0 && z > 0
    ensures n * z / 32 == n / y && (n % y) * z % 32 == n * z % 32
  {
    var q, r := n / y, n % y;
    assert n == y * q + r;
    Scaled(r, y, z);
    Distributed(y, q, r, z);
    Quotient(n * z, 32, q, r * z);
  }

  lemma Distributed(y: nat, q: nat, r: nat, z: nat)
    ensures (y * q + r) * z == (y * z) * q + r * z
  {
  }

  lemma LastWrapped(n: nat, bits: nat)
    requires 1 <= bits <= 4
    ensures (n % 0x1_0000_0000) * Pow2(5 - bits) % 32 == n * Pow2(5 - bits) % 32
  {
    hide Pow2;
    var q, v, z := n / 0x1_0000_0000, n % 0x1_0000_0000, Pow2(5 - bits);
    assert n == q * 0x800_0000 * 32 + v;
    assert n * z == (q * 0x800_0000 * z) * 32 + v * z;
    WithMultiple(q * 0x800_0000 * z, 32, v * z);
  }

  // ---- The encoders' bit operations

  /** n >> s */
  function Shr(n: nat, s: nat): nat {
    NonNegative(n, Pow2(s));
    n / Pow2(s)
  }

  /** (n >> s) & 31 */
  function Five(n: nat, s: nat): (r: nat)
    ensures r < 32
  {
    n / Pow2(s) % 32
  }

  /** (n << s) & 31 */
  function Filled(n: nat, s: nat): (r: nat)
    ensures r < 32
  {
    n * Pow2(s) % 32
  }

  /** (n << 8) | b, as the source's 32-bit integers have it. */
  function Pushed32(n: nat, b: byte): nat {
    (n * 256 + b) % 0x1_0000_0000
  }

  function Low(n: nat, s: nat): nat {
    n % Pow2(s)
  }

  lemma NextSymbol(n: nat, e: nat, bits: nat)
    requires bits >= 5
    ensures Symbols(Shr(n, bits), e) + [ALPHABET[Five(n, bits - 5)]] == Symbols(Shr(n, bits - 5), e + 1)
  {
    FiveMore(n, bits - 5);
  }

  lemma NumberAppend(b: bytes, k: nat)
    requires k < |b|
    ensures Number(b[..k + 1]) == Number(b[..k]) * 256 + b[k]
  {
    assert b[..k + 1][..k] == b[..k];
  }

  lemma PushedWraps(n: nat, b: byte)
    ensures Pushed32(n % 0x1_0000_0000, b) == (n * 256 + b) % 0x1_0000_0000
  {
    var q, v := n / 0x1_0000_0000, n % 0x1_0000_0000;
    assert n * 256 + b == (q * 256) * 0x1_0000_0000 + (v * 256 + b);
    WithMultiple(q * 256, 0x1_0000_0000, v * 256 + b);
  }

  lemma Groups(len: nat, e: nat, bits: nat)
    requires 8 * len == 5 * e + bits && bits <= 4
    ensures (8 * len + 4) / 5 == if bits == 0 then e else e + 1
  {
  }

  lemma OneMoreSymbol(n: nat, e: nat)
    ensures Symbols(n, e + 1) == Symbols(n / 32, e) + [ALPHABET[n % 32]]
  {
  }

  /** All whole groups are out; `bits` bits of the number are left. */
  lemma Ending(b: bytes, e: nat, bits: nat)
    requires 8 * |b| == 5 * e + bits && bits <= 4
    ensures bits == 0 ==> Encoding(b) == Symbols(Shr(Number(b), bits), e)
    ensures bits > 0 ==> Encoding(b) == Symbols(Shr(Number(b), bits), e) + [ALPHABET[Filled(Number(b), 5 - bits)]]
  {
    Powers();
    hide Pow2, Number, Symbols;
    Groups(|b|, e, bits);
    if bits > 0 {
      LastGroup(Number(b), bits);
      OneMoreSymbol(Number(b) * Pow2(5 - bits), e);
    }
  }

  lemma Nothing(b: bytes)
    ensures Number(b[..0]) == 0 && Symbols(Shr(0, 0), 0) == "" && Low(0, 0) == 0
  {
  }

  lemma Pushed(n: nat, b: byte, bits: nat)
    ensures Shr(n * 256 + b, bits + 8) == Shr(n, bits) && Low(n * 256 + b, bits + 8) == Low(n, bits) * 256 + b
  {
    ByteBelow(n, b, bits);
  }

  lemma SeenWrapped(n: nat, s: nat)
    requires s <= 7
    ensures Five(n % 0x1_0000_0000, s) == Five(n, s)
  {
    WrapUnseen(n, s);
  }

  lemma SeenMasked(n: nat, s: nat)
    ensures Five(Low(n, s + 5), s) == Five(n, s) && Low(Low(n, s + 5), s) == Low(n, s)
  {
    MaskUnseen(n, s);
  }

  // ---- The encoders

  /** The encoder with an accumulator of 32 bits that is never cleared. */
  method Encode(b: bytes) returns (out: string)
    ensures out == Encoding(b)
  {
    hide Pow2, Symbols, Encoding, Number, Shr, Five, Filled, Pushed32, Low;
    out := "";
    var bits: nat, value: nat := 0, 0;
    ghost var n: nat, e: nat := 0, 0;
    Nothing(b);
    for k := 0 to |b|
      invariant n == Number(b[..k]) && value == n % 0x1_0000_0000
      invariant bits <= 4 && 8 * k == 5 * e + bits && out == Symbols(Shr(n, bits), e)
    {
      NumberAppend(b, k);
      Pushed(n, b[k], bits);
      PushedWraps(n, b[k]);
      n := n * 256 + b[k];
      value := Pushed32(value, b[k]);
      bits := bits + 8;
      while bits >= 5
        invariant bits <= 12 && 8 * (k + 1) == 5 * e + bits && out == Symbols(Shr(n, bits), e)
      {
        SeenWrapped(n, bits - 5);
        NextSymbol(n, e, bits);
        out := out + [ALPHABET[Five(value, bits - 5)]];
        bits := bits - 5;
        e := e + 1;
      }
    }
    assert b[..|b|] == b;
    Ending(b, e, bits);
    if bits > 0 {
      assert Filled(value, 5 - bits) == Filled(n, 5 - bits) by { LastFilled(n, bits); }
      out := out + [ALPHABET[Filled(value, 5 - bits)]];
    }
  }

  lemma LastFilled(n: nat, bits: nat)
    requires 1 <= bits <= 4
    ensures Filled(n % 0x1_0000_0000, 5 - bits) == Filled(n, 5 - bits) == Filled(Low(n, bits), 5 - bits)
  {
    LastWrapped(n, bits);
    LastGroup(n, bits);
  }

  /** The encoder that clears what it has written after every symbol. */
  method EncodeMasked(b: bytes) returns (out: string)
    ensures out == Encoding(b)
  {
    hide Pow2, Symbols, Encoding, Number, Shr, Five, Filled, Low;
    out := "";
    var bits: nat, value: nat := 0, 0;
    ghost var n: nat, e: nat := 0, 0;
    Nothing(b);
    for k := 0 to |b|
      invariant n == Number(b[..k]) && value == Low(n, bits)
      invariant bits <= 4 && 8 * k == 5 * e + bits && out == Symbols(Shr(n, bits), e)
    {
      NumberAppend(b, k);
      Pushed(n, b[k], bits);
      n := n * 256 + b[k];
      value := value * 256 + b[k];
      bits := bits + 8;
      while bits >= 5
        invariant bits <= 12 && 8 * (k + 1) == 5 * e + bits && out == Symbols(Shr(n, bits), e) && value == Low(n, bits)
      {
        var shift := bits - 5;
        SeenMasked(n, shift);
        NextSymbol(n, e, bits);
        out := out + [ALPHABET[Five(value, shift)]];
        value := Low(value, shift);
        bits := shift;
        e := e + 1;
      }
    }
    assert b[..|b|] == b;
    Ending(b, e, bits);
    if bits > 0 {
      LastFilled(n, bits);
      out := out + [ALPHABET[Filled(value, 5 - bits)]];
    }
  }

  // ---- What an identifier tells

  lemma SymbolsDiffer(i: nat, j: nat)
    requires i < 32 && j < 32 && ALPHABET[i] == ALPHABET[j]
    ensures i == j
  {
    SymbolAt(i);
    SymbolAt(j);
  }

  lemma SymbolAt(i: nat)
    requires i < 32
    ensures ALPHABET[i] as int == if i < 26 then 97 + i else 24 + i
  {
    assert ALPHABET == ['a', 'b', 'c', 'd', 'e', 'f', 'g', 'h', 'i', 'j', 'k', 'l', 'm', 'n', 'o', 'p', 'q', 'r', 's', 't',
                        'u', 'v', 'w', 'x', 'y', 'z', '2', '3', '4', '5', '6', '7'];
  }

  lemma SymbolsSplit(x: nat, count: nat)
    requires count > 0
    ensures var s := Symbols(x, count); s[..count - 1] == Symbols(x / 32, count - 1) && s[count - 1] == ALPHABET[x % 32]
  {
  }

  lemma {:induction false} SymbolsRead(x: nat, y: nat, count: nat)
    requires Symbols(x, count) == Symbols(y, count) && x < Pow2(5 * count) && y < Pow2(5 * count)
    ensures x == y
    decreases count
  {
    if count > 0 {
      hide Symbols;
      SymbolsSplit(x, count);
      SymbolsSplit(y, count);
      SymbolsDiffer(x % 32, y % 32);
      Smaller(x, count);
      Smaller(y, count);
      SymbolsRead(x / 32, y / 32, count - 1);
    }
  }

  lemma Smaller(x: nat, count: nat)
    requires count > 0 && x < Pow2(5 * count)
    ensures x / 32 < Pow2(5 * (count - 1))
  {
    Pow2Sum(5, 5 * (count - 1));
    Powers();
    hide Pow2;
  }

  lemma {:induction false} CapacityIsPower(n: nat)
    ensures Capacity(n) == Pow2(8 * n)
  {
    if n > 0 {
      CapacityIsPower(n - 1);
      Pow2Sum(8, 8 * (n - 1));
      Powers();
      hide Pow2;
    }
  }

  lemma Fits(n: nat, len: nat, pad: nat)
    requires n < Capacity(len)
    ensures n * Pow2(pad) < Pow2(8 * len + pad)
  {
    CapacityIsPower(len);
    Pow2Sum(8 * len, pad);
    hide Pow2, Capacity;
    Scaled(n, Pow2(8 * len), Pow2(pad));
  }

  lemma Scaled(x: nat, y: nat, z: nat)
    requires z > 0
    ensures x < y ==> x * z < y * z
  {
    if x < y {
      assert y * z == x * z + (y - x) * z;
      AtLeastOnce(z, y - x);
    }
  }

  /** Byte strings of one length have different encodings, and twenty bytes take thirty-two symbols. */
  lemma EncodingIsInjective(a: bytes, b: bytes)
    requires |a| == |b| && Encoding(a) == Encoding(b)
    ensures a == b
    ensures |a| == 20 ==> |Encoding(a)| == 32
  {
    hide Pow2, Symbols, Number;
    var count := (8 * |a| + 4) / 5;
    var pad := 5 * count - 8 * |a|;
    var x, y, z := Number(a), Number(b), Pow2(pad);
    Fits(x, |a|, pad);
    Fits(y, |b|, pad);
    SymbolsRead(x * z, y * z, count);
    Scaled(x, y, z);
    Scaled(y, x, z);
    BigEndianOfNumber(a);
    BigEndianOfNumber(b);
  }
}
