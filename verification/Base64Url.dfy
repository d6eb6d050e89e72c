/** Unpadded base64url, section 5 with section 3.2 of RFC 4648, on bytes. */
module Base64Url {
  type Byte = x: int | 0 <= x < 256

  type Text = seq<Byte>

  type Sextet = x: int | 0 <= x < 64

  const COLON: Byte := 58

  /** The alphabet: A-Z, a-z, 0-9, minus, underscore. */
  function Digit(n: Sextet): (c: Byte)
    ensures c != COLON
  {
    if n < 26 then 65 + n
    else if n < 52 then 97 + n - 26
    else if n < 62 then 48 + n - 52
    else if n == 62 then 45
    else 95
  }

  function Undigit(c: Byte): Sextet {
    if 65 <= c <= 90 then c - 65
    else if 97 <= c <= 122 then c - 97 + 26
    else if 48 <= c <= 57 then c - 48 + 52
    else if c == 45 then 62
    else 63
  }

  /** The six-bit groups of a byte and its neighbours. */
  function First(a: Byte): Sextet { a / 4 }

  function Second(a: Byte, b: Byte): Sextet { a % 4 * 16 + b / 16 }

  function Third(b: Byte, c: Byte): Sextet { b % 16 * 4 + c / 64 }

  function Fourth(c: Byte): Sextet { c % 64 }

  /** Three bytes become four digits; one or two left over become two or three, without padding. */
  function Encode(bytes: Text): Text {
    if bytes == [] then []
    else if |bytes| == 1 then [Digit(First(bytes[0])), Digit(Second(bytes[0], 0))]
    else if |bytes| == 2 then [Digit(First(bytes[0])), Digit(Second(bytes[0], bytes[1])), Digit(Third(bytes[1], 0))]
    else
      [Digit(First(bytes[0])), Digit(Second(bytes[0], bytes[1])), Digit(Third(bytes[1], bytes[2])), Digit(Fourth(bytes[2]))]
      + Encode(bytes[3..])
  }

  function Byte0(w: Sextet, x: Sextet): Byte { w * 4 + x / 16 }

  function Byte1(x: Sextet, y: Sextet): Byte { x % 16 * 16 + y / 4 }

  function Byte2(y: Sextet, z: Sextet): Byte { y % 4 * 64 + z }

  function Decode(text: Text): Text {
    if |text| < 2 then []
    else if |text| == 2 then [Byte0(Undigit(text[0]), Undigit(text[1]))]
    else if |text| == 3 then [Byte0(Undigit(text[0]), Undigit(text[1])), Byte1(Undigit(text[1]), Undigit(text[2]))]
    else
      [Byte0(Undigit(text[0]), Undigit(text[1])), Byte1(Undigit(text[1]), Undigit(text[2])), Byte2(Undigit(text[2]), Undigit(text[3]))]
      + Decode(text[4..])
  }

  lemma UndigitDigit(n: Sextet)
    ensures Undigit(Digit(n)) == n
  {
  }

  /** The groups put back together. */
  lemma Regroup(a: Byte, b: Byte, c: Byte)
    ensures Byte0(First(a), Second(a, b)) == a
    ensures Byte1(Second(a, b), Third(b, c)) == b
    ensures Byte2(Third(b, c), Fourth(c)) == c
  {
  }

  lemma ReadBack(a: Byte, b: Byte, c: Byte)
    ensures Undigit(Digit(First(a))) == First(a) && Undigit(Digit(Second(a, b))) == Second(a, b)
    ensures Undigit(Digit(Third(b, c))) == Third(b, c) && Undigit(Digit(Fourth(c))) == Fourth(c)
  {
    hide Digit, Undigit, First, Second, Third, Fourth;
    UndigitDigit(First(a));
    UndigitDigit(Second(a, b));
    UndigitDigit(Third(b, c));
    UndigitDigit(Fourth(c));
  }

  /** Decoding an encoding gives the bytes back, so distinct bytes have distinct encodings. */
  lemma {:induction false} DecodeEncode(bytes: Text)
    ensures Decode(Encode(bytes)) == bytes
    decreases |bytes|
  {
    hide Digit, Undigit, First, Second, Third, Fourth, Byte0, Byte1, Byte2;
    var b := if |bytes| > 1 then bytes[1] else 0;
    var c := if |bytes| > 2 then bytes[2] else 0;
    if bytes != [] {
      ReadBack(bytes[0], b, c);
      Regroup(bytes[0], b, c);
    }
    if |bytes| > 2 {
      DecodeEncode(bytes[3..]);
      assert Encode(bytes)[4..] == Encode(bytes[3..]);
      assert bytes == [bytes[0], bytes[1], bytes[2]] + bytes[3..];
    }
  }

  /** No encoding contains the delimiter. */
  lemma {:induction false} EncodeHasNoColon(bytes: Text)
    ensures COLON !in Encode(bytes)
    decreases |bytes|
  {
    if |bytes| > 2 {
      EncodeHasNoColon(bytes[3..]);
    }
  }

  lemma EncodeInjective(a: Text, b: Text)
    requires Encode(a) == Encode(b)
    ensures a == b
  {
    DecodeEncode(a);
    DecodeEncode(b);
  }

  // ---- as the RFC words it

  const UPPER := "ABCDEFGHIJKLMNOPQRSTUVWXYZ"
  const LOWER := "abcdefghijklmnopqrstuvwxyz"
  const DIGITS := "0123456789"
  const ALPHABET := UPPER + LOWER + DIGITS + "-_"

  lemma UpperAt(n: nat)
    requires n < 26
    ensures |UPPER| == 26 && UPPER[n] as int == 65 + n
  {
  }

  lemma LowerAt(n: nat)
    requires n < 26
    ensures |LOWER| == 26 && LOWER[n] as int == 97 + n
  {
  }

  lemma DigitsAt(n: nat)
    requires n < 10
    ensures |DIGITS| == 10 && DIGITS[n] as int == 48 + n
  {
  }

  lemma Joins<T>(a: seq<T>, b: seq<T>, c: seq<T>, d: seq<T>, n: nat)
    requires n < |a| + |b| + |c| + |d|
    ensures (a + b + c + d)[n] == if n < |a| then a[n]
                                  else if n < |a| + |b| then b[n - |a|]
                                  else if n < |a| + |b| + |c| then c[n - |a| - |b|]
                                  else d[n - |a| - |b| - |c|]
  {
  }

  lemma DigitIsTable(n: Sextet)
    ensures |ALPHABET| == 64 && Digit(n) == ALPHABET[n] as int
  {
    var upper, lower, digits := UPPER, LOWER, DIGITS;
    UpperAt(if n < 26 then n else 0);
    LowerAt(if 26 <= n < 52 then n - 26 else 0);
    DigitsAt(if 52 <= n < 62 then n - 52 else 0);
    hide UPPER, LOWER, DIGITS;
    Joins(UPPER, LOWER, DIGITS, "-_", n);
  }

  /** As many digits as six-bit groups begin in the bytes. */
  lemma {:induction false} EncodedLength(bytes: Text)
    ensures |Encode(bytes)| == (8 * |bytes| + 5) / 6
    decreases |bytes|
  {
    if |bytes| > 2 {
      EncodedLength(bytes[3..]);
    }
  }

  /** The 24 bits of three bytes in a row. */
  function Bits(a: int, b: int, c: int): int {
    a * 65536 + b * 256 + c
  }

  /** The i-th three bytes of the text, filled up with zeros. */
  function Group(bytes: Text, i: nat): int {
    Bits(if 3 * i < |bytes| then bytes[3 * i] else 0, if 3 * i + 1 < |bytes| then bytes[3 * i + 1] else 0,
         if 3 * i + 2 < |bytes| then bytes[3 * i + 2] else 0)
  }

  /** The k-th six bits of 24. */
  function Six(n: int, k: nat): int {
    if k == 0 then n / 262144 else if k == 1 then n / 4096 % 64 else if k == 2 then n / 64 % 64 else n % 64
  }

  lemma By64(q: int, r: int)
    requires 0 <= r < 64
    ensures (q * 64 + r) / 64 == q && (q * 64 + r) % 64 == r
  {
  }

  lemma By4096(q: int, r: int)
    requires 0 <= r < 4096
    ensures (q * 4096 + r) / 4096 == q
  {
  }

  lemma By262144(q: int, r: int)
    requires 0 <= r < 262144
    ensures (q * 262144 + r) / 262144 == q
  {
  }

  lemma SixOf(w: Sextet, x: Sextet, y: Sextet, z: Sextet, n: int)
    requires n == (w as int) * 262144 + (x as int) * 4096 + (y as int) * 64 + z
    ensures Six(n, 0) == w && Six(n, 1) == x && Six(n, 2) == y && Six(n, 3) == z
  {
    var a: int, b: int, c: int, d: int := w, x, y, z;
    By262144(a, b * 4096 + c * 64 + d);
    By4096(a * 64 + b, c * 64 + d);
    By64(a * 4096 + b * 64 + c, d);
    By64(a, b);
    By64(a * 64 + b, c);
  }

  /** The groups of three bytes are the six-bit groups of their 24 bits. */
  lemma Splits(a: Byte, b: Byte, c: Byte)
    ensures var n := Bits(a, b, c); First(a) == Six(n, 0) && Second(a, b) == Six(n, 1) && Third(b, c) == Six(n, 2) && Fourth(c) == Six(n, 3)
  {
    hide Six;
    SixOf(First(a), Second(a, b), Third(b, c), Fourth(c), Bits(a, b, c));
  }

  /** The four digits of a full group, of which a shorter one keeps the first two or three. */
  lemma FirstDigits(bytes: Text, j: nat)
    requires j < 4 && j < |Encode(bytes)|
    ensures Encode(bytes)[j] == var a, b, c := bytes[0], if |bytes| > 1 then bytes[1] else 0, if |bytes| > 2 then bytes[2] else 0;
                                Digit(if j == 0 then First(a) else if j == 1 then Second(a, b) else if j == 2 then Third(b, c) else Fourth(c))
  {
    hide Digit, First, Second, Third, Fourth;
  }

  lemma SixIsDigit(bytes: Text, j: nat)
    requires j < 4 && j < |Encode(bytes)|
    ensures 0 <= Six(Group(bytes, 0), j) < 64 && Encode(bytes)[j] == Digit(Six(Group(bytes, 0), j))
  {
    hide Digit, First, Second, Third, Fourth, Encode, Six, Bits;
    FirstDigits(bytes, j);
    assert bytes != [] by { EncodedLength(bytes); }
    Splits(bytes[0], if |bytes| > 1 then bytes[1] else 0, if |bytes| > 2 then bytes[2] else 0);
  }

  /** Every digit of an encoding is the one that the alphabet lists for its six bits of its group of three bytes. */
  lemma {:induction false} DigitAt(bytes: Text, j: nat)
    requires j < |Encode(bytes)|
    ensures var n := Group(bytes, j / 4);
            0 <= Six(n, j % 4) < |ALPHABET| == 64 && Encode(bytes)[j] == ALPHABET[Six(n, j % 4)] as int
    decreases |bytes|
  {
    hide Digit, Six, ALPHABET, Group;
    if j < 4 {
      SixIsDigit(bytes, j);
      DigitIsTable(Six(Group(bytes, 0), j));
    } else {
      Later(bytes, j);
      DigitAt(bytes[3..], j - 4);
    }
  }

  lemma Later(bytes: Text, j: nat)
    requires 4 <= j < |Encode(bytes)|
    ensures |bytes| > 2 && j - 4 < |Encode(bytes[3..])| && Encode(bytes)[j] == Encode(bytes[3..])[j - 4]
    ensures j / 4 > 0 && (j - 4) / 4 == j / 4 - 1 && (j - 4) % 4 == j % 4 && Group(bytes, j / 4) == Group(bytes[3..], j / 4 - 1)
  {
    hide Group;
    LaterDigit(bytes, j);
    FourLess(j);
    LaterGroup(bytes, j / 4);
  }

  lemma LaterDigit(bytes: Text, j: nat)
    requires 4 <= j < |Encode(bytes)|
    ensures |bytes| > 2 && j - 4 < |Encode(bytes[3..])| && Encode(bytes)[j] == Encode(bytes[3..])[j - 4]
  {
    hide Digit, First, Second, Third, Fourth;
  }

  lemma FourLess(j: nat)
    requires j >= 4
    ensures j / 4 > 0 && (j - 4) / 4 == j / 4 - 1 && (j - 4) % 4 == j % 4
  {
  }

  lemma LaterGroup(bytes: Text, i: nat)
    requires |bytes| > 2 && i > 0
    ensures Group(bytes, i) == Group(bytes[3..], i - 1)
  {
    hide Bits;
  }
}
