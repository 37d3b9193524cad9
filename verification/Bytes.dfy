/** Bytes, byte order, fixed-width and framed encodings, and digests. */
module Bytes {
  import opened Wrappers

  newtype byte = n: int | 0 <= n < 256

  type ByteString = seq<byte>

  const TWO_64: nat := 0x1_0000_0000_0000_0000

  type u64 = n: nat | n < TWO_64

  /** A byte string whose length fits in the eight bytes of a frame. */
  type Framable = b: ByteString | |b| < TWO_64

  type Hash32 = b: ByteString | |b| == 32 witness seq(32, _ => 0)

  type Uuid = b: ByteString | |b| == 16 witness seq(16, _ => 0)

  /**
   * A digest is the hash function applied to a preimage. The constructor is injective, which is
   * the statement that the hash is collision-free; nothing else is known about it.
   */
  datatype Digest =
    | Blake3(preimage: ByteString)
    | Sha256(preimage: ByteString)
    | Uuid5(preimage: ByteString)

  /* ---------------------------------------------------------------- Lexicographic order */

  predicate Before(a: ByteString, b: ByteString) {
    b != [] && (a == [] || a[0] < b[0] || (a[0] == b[0] && Before(a[1..], b[1..])))
  }

  lemma {:induction false} BeforeIsTotal(a: ByteString, b: ByteString)
    ensures a == b || Before(a, b) || Before(b, a)
  {
    if a != [] && b != [] && a[0] == b[0] {
      BeforeIsTotal(a[1..], b[1..]);
      if a[1..] == b[1..] {
        assert a == [a[0]] + a[1..] && b == [b[0]] + b[1..];
      }
    }
  }

  lemma {:induction false} BeforeIsTransitive(a: ByteString, b: ByteString, c: ByteString)
    requires Before(a, b) && Before(b, c)
    ensures Before(a, c)
  {
    if a != [] && a[0] == b[0] && b[0] == c[0] {
      BeforeIsTransitive(a[1..], b[1..], c[1..]);
    }
  }

  lemma {:induction false} BeforeIsIrreflexive(a: ByteString)
    ensures !Before(a, a)
  {
    if a != [] {
      BeforeIsIrreflexive(a[1..]);
    }
  }

  lemma BeforeIsAsymmetric(a: ByteString, b: ByteString)
    requires Before(a, b)
    ensures !Before(b, a) && a != b
  {
    if Before(b, a) {
      BeforeIsTransitive(a, b, a);
    }
    BeforeIsIrreflexive(a);
  }

  /* ---------------------------------------------------------------- Fixed-width integers */

  function Power256(width: nat): nat {
    if width == 0 then 1 else 256 * Power256(width - 1)
  }

  /** The last `width` bytes of `n`, most significant first. */
  function BigEndian(n: nat, width: nat): (b: ByteString)
    ensures |b| == width
  {
    if width == 0 then [] else BigEndian(n / 256, width - 1) + [(n % 256) as byte]
  }

  lemma {:induction false} BigEndianIsInjective(n: nat, m: nat, width: nat)
    requires n < Power256(width) && m < Power256(width)
    requires BigEndian(n, width) == BigEndian(m, width)
    ensures n == m
  {
    if width > 0 {
      var a, b := BigEndian(n / 256, width - 1), BigEndian(m / 256, width - 1);
      assert BigEndian(n, width)[..width - 1] == a && BigEndian(m, width)[..width - 1] == b;
      assert BigEndian(n, width)[width - 1] == BigEndian(m, width)[width - 1];
      BigEndianIsInjective(n / 256, m / 256, width - 1);
    }
  }

  function U64(n: nat): (b: ByteString)
    ensures |b| == 8
  {
    BigEndian(n, 8)
  }

  lemma U64IsInjective(n: u64, m: u64)
    requires U64(n) == U64(m)
    ensures n == m
  {
    assert Power256(8) == TWO_64 by {
      assert Power256(4) == 0x1_0000_0000;
    }
    BigEndianIsInjective(n, m, 8);
  }

  /* ---------------------------------------------------------------- Frames */

  /** A length in eight bytes, then the value. */
  function Framed(value: Framable): ByteString {
    U64(|value|) + value
  }

  /** Two byte strings with equal prefixes of one length agree on both parts. */
  lemma SplitAt(a: ByteString, x: ByteString, b: ByteString, y: ByteString)
    requires a + x == b + y && |a| == |b|
    ensures a == b && x == y
  {
    assert (a + x)[..|a|] == a && (b + y)[..|a|] == b;
    assert (a + x)[|a|..] == x && (b + y)[|a|..] == y;
  }

  /** A framed value is delimited by its own bytes. */
  lemma FramedIsPrefixFree(a: Framable, x: ByteString, b: Framable, y: ByteString)
    requires Framed(a) + x == Framed(b) + y
    ensures a == b && x == y
  {
    assert Framed(a) + x == U64(|a|) + (a + x);
    assert Framed(b) + y == U64(|b|) + (b + y);
    SplitAt(U64(|a|), a + x, U64(|b|), b + y);
    U64IsInjective(|a|, |b|);
    SplitAt(a, x, b, y);
  }

  /* ---------------------------------------------------------------- Lists of codes */

  function Concat<T>(s: seq<T>, code: T -> ByteString): ByteString {
    if s == [] then [] else code(s[0]) + Concat(s[1..], code)
  }

  lemma {:induction false} ConcatSnoc<T>(s: seq<T>, x: T, code: T -> ByteString)
    ensures Concat(s + [x], code) == Concat(s, code) + code(x)
  {
    if s == [] {
      assert [x][1..] == [];
    } else {
      assert (s + [x])[1..] == s[1..] + [x];
      ConcatSnoc(s[1..], x, code);
    }
  }

  /** Extending a prefix of `s` by one element, as a loop over `s` does. */
  lemma ConcatNext<T>(s: seq<T>, i: nat, code: T -> ByteString)
    requires i < |s|
    ensures Concat(s[..i + 1], code) == Concat(s[..i], code) + code(s[i])
  {
    assert s[..i + 1] == s[..i] + [s[i]];
    ConcatSnoc(s[..i], s[i], code);
  }

  /** No code is empty, and a code is delimited by its own bytes. */
  ghost predicate PrefixFree<T(!new)>(code: T -> ByteString) {
    (forall x :: code(x) != []) &&
    forall x, y, u, v :: code(x) + u == code(y) + v ==> x == y && u == v
  }

  lemma {:induction false} ConcatIsInjective<T(!new)>(a: seq<T>, b: seq<T>, code: T -> ByteString)
    requires PrefixFree(code) && Concat(a, code) == Concat(b, code)
    ensures a == b
  {
    if a != [] && b != [] {
      assert code(a[0]) + Concat(a[1..], code) == code(b[0]) + Concat(b[1..], code);
      ConcatIsInjective(a[1..], b[1..], code);
      assert a == [a[0]] + a[1..] && b == [b[0]] + b[1..];
    }
  }

  function Itself(h: Hash32): ByteString {
    h
  }

  lemma {:induction false} HashesHaveFixedWidth(hashes: seq<Hash32>)
    ensures |Concat(hashes, Itself)| == 32 * |hashes|
  {
    if hashes != [] {
      HashesHaveFixedWidth(hashes[1..]);
    }
  }

  lemma HashesArePrefixFree()
    ensures PrefixFree(Itself)
  {
    forall x: Hash32, y: Hash32, u, v | Itself(x) + u == Itself(y) + v
      ensures x == y && u == v
    {
      SplitAt(x, u, y, v);
    }
  }

  /* ---------------------------------------------------------------- Text */

  predicate IsAscii(text: string) {
    forall c | c in text :: c as int < 128
  }

  /** The bytes of a text; texts outside ASCII are not used where this matters. */
  function TextBytes(text: string): (b: ByteString)
    ensures |b| == |text|
  {
    seq(|text|, i requires 0 <= i < |text| => (text[i] as int % 256) as byte)
  }

  lemma TextBytesIsInjective(a: string, b: string)
    requires IsAscii(a) && IsAscii(b) && TextBytes(a) == TextBytes(b)
    ensures a == b
  {
    forall i | 0 <= i < |a|
      ensures a[i] == b[i]
    {
      assert TextBytes(a)[i] == TextBytes(b)[i];
      assert a[i] in a && b[i] in b;
    }
  }

  /* ---------------------------------------------------------------- Hexadecimal and decimal */

  function HexDigit(n: nat): char
    requires n < 16
  {
    if n < 10 then '0' + n as char else 'a' + (n - 10) as char
  }

  function Hex(b: ByteString): string {
    if b == [] then ""
    else [HexDigit(b[0] as nat / 16), HexDigit(b[0] as nat % 16)] + Hex(b[1..])
  }

  predicate IsHexDigit(c: char) {
    '0' <= c <= '9' || 'a' <= c <= 'f'
  }

  function HexValue(c: char): (n: nat)
    requires IsHexDigit(c)
    ensures n < 16
  {
    if c <= '9' then c as nat - 48 else c as nat - 87
  }

  /** Reading pairs of lowercase hexadecimal digits. */
  function Unhex(text: string): Option<ByteString> {
    if text == "" then Some([])
    else if |text| == 1 || !IsHexDigit(text[0]) || !IsHexDigit(text[1]) then None
    else
      match Unhex(text[2..])
      case None => None
      case Some(rest) => Some([(16 * HexValue(text[0]) + HexValue(text[1])) as byte] + rest)
  }

  lemma {:induction false} HexReadsBack(b: ByteString)
    ensures Unhex(Hex(b)) == Some(b)
    ensures |Hex(b)| == 2 * |b| && forall c | c in Hex(b) :: IsHexDigit(c)
  {
    if b != [] {
      HexReadsBack(b[1..]);
      assert Hex(b)[2..] == Hex(b[1..]);
      assert b == [b[0]] + b[1..];
    }
  }

  lemma DigitsRead(c: char, d: char)
    requires IsHexDigit(c) && IsHexDigit(d)
    ensures var n := 16 * HexValue(c) + HexValue(d);
            n < 256 && HexDigit(n / 16) == c && HexDigit(n % 16) == d
  {
  }

  /** What can be read is exactly what can be spelled. */
  lemma {:induction false} UnhexReads(text: string)
    ensures Unhex(text).Some? <==> |text| % 2 == 0 && forall c | c in text :: IsHexDigit(c)
    ensures Unhex(text).Some? ==>
              Hex(Unhex(text).value) == text && |text| == 2 * |Unhex(text).value|
  {
    if |text| >= 2 {
      var rest := text[2..];
      UnhexReads(rest);
      assert text == [text[0], text[1]] + rest;
      assert text[0] in text && text[1] in text;
      if Unhex(text).Some? {
        DigitsRead(text[0], text[1]);
        assert Unhex(text).value[1..] == Unhex(rest).value;
      }
      hide HexDigit, HexValue, IsHexDigit;
    } else if |text| == 1 {
      assert text[0] in text;
    }
  }

  lemma HexIsInjective(a: ByteString, b: ByteString)
    requires Hex(a) == Hex(b)
    ensures a == b
  {
    HexReadsBack(a);
    HexReadsBack(b);
  }

  function Decimal(n: nat): string {
    if n < 10 then ['0' + n as char] else Decimal(n / 10) + ['0' + (n % 10) as char]
  }

  predicate AreDigits(text: string) {
    forall i | 0 <= i < |text| :: '0' <= text[i] <= '9'
  }

  /** The number that decimal digits spell, most significant first. */
  function DecimalValue(text: string): nat
    requires AreDigits(text)
  {
    if text == "" then 0
    else
      10 * DecimalValue(text[..|text| - 1]) + (text[|text| - 1] as nat - 48)
  }

  lemma {:induction false} DecimalReadsBack(n: nat)
    ensures AreDigits(Decimal(n)) && Decimal(n) != "" && DecimalValue(Decimal(n)) == n
    ensures n > 0 ==> Decimal(n)[0] != '0'
  {
    var text := Decimal(n);
    if n >= 10 {
      DecimalReadsBack(n / 10);
      assert text[..|text| - 1] == Decimal(n / 10);
    } else {
      assert text[..0] == "";
    }
  }
}
