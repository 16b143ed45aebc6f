// `btoa`: the base64 encoding of section 4 of RFC 4648 applied to a string
// whose code units all fit in a byte, with `=` padding.

module Base64 {

  type Byte = x: int | 0 <= x < 256

  /** The alphabet of section 4 of RFC 4648. */
  function SextetChar(v: int): (c: char)
    requires 0 <= v < 64
    ensures c != '='
  {
    if v < 26 then ('A' as int + v) as char
    else if v < 52 then ('a' as int + v - 26) as char
    else if v < 62 then ('0' as int + v - 52) as char
    else if v == 62 then '+'
    else '/'
  }

  lemma SextetCharInjective(v: int, w: int)
    requires 0 <= v < 64 && 0 <= w < 64
    ensures SextetChar(v) == SextetChar(w) ==> v == w
  {
  }

  /** The 24-bit value of three bytes. */
  function Triple(a: Byte, b: Byte, c: Byte): (n: int)
    ensures 0 <= n < 0x100_0000
  {
    a * 0x1_0000 + b * 0x100 + c
  }

  /** The four characters for a 24-bit value, most significant sextet first. */
  function Quad(n: int): (r: string)
    requires 0 <= n < 0x100_0000
    ensures |r| == 4 && forall i :: 0 <= i < 4 ==> r[i] != '='
  {
    var n1 := n / 64;
    var n2 := n1 / 64;
    [SextetChar(n2 / 64), SextetChar(n2 % 64), SextetChar(n1 % 64), SextetChar(n % 64)]
  }

  /** The first two characters fix the top twelve bits. */
  lemma QuadPrefix2(n: int, m: int)
    requires 0 <= n < 0x100_0000 && 0 <= m < 0x100_0000
    requires Quad(n)[..2] == Quad(m)[..2]
    ensures n / 64 / 64 == m / 64 / 64
  {
    var n2, m2 := n / 64 / 64, m / 64 / 64;
    assert Quad(n)[0] == Quad(m)[0] && Quad(n)[1] == Quad(m)[1];
    SextetCharInjective(n2 / 64, m2 / 64);
    SextetCharInjective(n2 % 64, m2 % 64);
  }

  /** The first three characters fix the top eighteen bits. */
  lemma QuadPrefix3(n: int, m: int)
    requires 0 <= n < 0x100_0000 && 0 <= m < 0x100_0000
    requires Quad(n)[..3] == Quad(m)[..3]
    ensures n / 64 == m / 64
  {
    assert Quad(n)[..2] == Quad(n)[..3][..2] && Quad(m)[..2] == Quad(m)[..3][..2];
    QuadPrefix2(n, m);
    assert Quad(n)[2] == Quad(m)[2];
    SextetCharInjective(n / 64 % 64, m / 64 % 64);
  }

  /** All four characters fix the value. */
  lemma QuadInjective(n: int, m: int)
    requires 0 <= n < 0x100_0000 && 0 <= m < 0x100_0000
    requires Quad(n) == Quad(m)
    ensures n == m
  {
    assert Quad(n)[..3] == Quad(m)[..3];
    QuadPrefix3(n, m);
    assert Quad(n)[3] == Quad(m)[3];
    SextetCharInjective(n % 64, m % 64);
  }

  /** `btoa` on the bytes: full groups of three, then a padded group of one or two. */
  function Encode(bytes: seq<Byte>): (r: string)
    ensures |r| == 4 * ((|bytes| + 2) / 3)
  {
    if |bytes| == 0 then ""
    else if |bytes| == 1 then Quad(Triple(bytes[0], 0, 0))[..2] + "=="
    else if |bytes| == 2 then Quad(Triple(bytes[0], bytes[1], 0))[..3] + "="
    else
      assert (|bytes| + 2) / 3 == (|bytes[3..]| + 2) / 3 + 1;
      Quad(Triple(bytes[0], bytes[1], bytes[2])) + Encode(bytes[3..])
  }

  /** The test vectors of section 10 of RFC 4648 for "f", "fo" and "foo". */
  lemma TestVectors()
    ensures Encode([102]) == "Zg==" && Encode([102, 111]) == "Zm8=" && Encode([102, 111, 111]) == "Zm9v"
  {
    assert Triple(102, 0, 0) == 6684672 && Quad(6684672) == [SextetChar(25), SextetChar(32), SextetChar(0), SextetChar(0)];
    assert Triple(102, 111, 0) == 6713088 && Quad(6713088) == [SextetChar(25), SextetChar(38), SextetChar(60), SextetChar(0)];
    assert Triple(102, 111, 111) == 6713199 && Quad(6713199) == [SextetChar(25), SextetChar(38), SextetChar(61), SextetChar(47)];
    assert Encode([102, 111, 111][3..]) == "";
  }

  /** Different byte strings never share an encoding. */
  lemma {:induction false} EncodeInjective(x: seq<Byte>, y: seq<Byte>)
    requires Encode(x) == Encode(y)
    ensures x == y
  {
    if |x| >= 3 && |y| >= 3 {
      FullGroup(x, y);
      EncodeInjective(x[3..], y[3..]);
      assert x == x[..3] + x[3..] && y == y[..3] + y[3..];
    } else {
      ShortEncoding(x, y);
    }
  }

  /** The encoding of three or more bytes: the first group, then the encoding of the rest. */
  lemma EncodeFullGroup(x: seq<Byte>)
    requires |x| >= 3
    ensures Encode(x) == Quad(Triple(x[0], x[1], x[2])) + Encode(x[3..])
  {
  }

  /** Agreeing encodings of the form group-then-rest have the same first group and the same rest. */
  lemma SameGroupThenRest(n: int, m: int, rx: string, ry: string)
    requires 0 <= n < 0x100_0000 && 0 <= m < 0x100_0000
    requires Quad(n) + rx == Quad(m) + ry
    ensures n == m && rx == ry
  {
    var e := Quad(n) + rx;
    assert e[..4] == Quad(n) && e[..4] == Quad(m);
    QuadInjective(n, m);
    assert e[4..] == rx && e[4..] == ry;
  }

  /** Two encodings that agree start with the same full group of three bytes. */
  lemma FullGroup(x: seq<Byte>, y: seq<Byte>)
    requires |x| >= 3 && |y| >= 3 && Encode(x) == Encode(y)
    ensures x[..3] == y[..3] && Encode(x[3..]) == Encode(y[3..])
  {
    EncodeFullGroup(x);
    EncodeFullGroup(y);
    SameGroupThenRest(Triple(x[0], x[1], x[2]), Triple(y[0], y[1], y[2]), Encode(x[3..]), Encode(y[3..]));
    SameFirstThree(x, y);
  }

  /** Three bytes are fixed by their 24-bit value. */
  lemma SameFirstThree(x: seq<Byte>, y: seq<Byte>)
    requires |x| >= 3 && |y| >= 3
    requires Triple(x[0], x[1], x[2]) == Triple(y[0], y[1], y[2])
    ensures x[..3] == y[..3]
  {
    assert x[0] == y[0] && x[1] == y[1] && x[2] == y[2];
  }

  /** When one side is shorter than a full group, agreeing encodings come from the same bytes. */
  lemma ShortEncoding(x: seq<Byte>, y: seq<Byte>)
    requires |x| < 3 || |y| < 3
    requires Encode(x) == Encode(y)
    ensures x == y
  {
    if |x| == 0 || |y| == 0 {
      assert |Encode(x)| == 0;
    } else {
      PaddedGroups(x, y);
    }
  }

  /** The padding tells one- and two-byte tails apart from each other and from full groups. */
  lemma PaddedGroups(x: seq<Byte>, y: seq<Byte>)
    requires Encode(x) == Encode(y) && 1 <= |x| && 1 <= |y| && (|x| <= 2 || |y| <= 2)
    ensures x == y
  {
    LastGroup(x);
    LastGroup(y);
    SameTail(x, y, Encode(x));
  }

  /** Two short byte strings whose last groups read the same, padding included, are equal. */
  lemma SameTail(x: seq<Byte>, y: seq<Byte>, e: string)
    requires 1 <= |x| <= 3 && 1 <= |y| <= 3 && (|x| <= 2 || |y| <= 2) && |e| == 4
    requires (e[3] == '=' <==> |x| <= 2) && (e[2] == '=' <==> |x| == 1)
    requires (e[3] == '=' <==> |y| <= 2) && (e[2] == '=' <==> |y| == 1)
    requires |x| == 1 ==> e[..2] == Quad(Triple(x[0], 0, 0))[..2]
    requires |y| == 1 ==> e[..2] == Quad(Triple(y[0], 0, 0))[..2]
    requires |x| == 2 ==> e[..3] == Quad(Triple(x[0], x[1], 0))[..3]
    requires |y| == 2 ==> e[..3] == Quad(Triple(y[0], y[1], 0))[..3]
    ensures x == y
  {
    if |x| == 1 {
      OneByteGroup(x[0], y[0]);
      assert x == [x[0]] && y == [y[0]];
    } else {
      TwoByteGroup(x[0], x[1], y[0], y[1]);
      assert x == [x[0], x[1]] && y == [y[0], y[1]];
    }
  }

  /** Where the padding of a single group sits. */
  lemma LastGroup(x: seq<Byte>)
    requires 1 <= |x| <= 3
    ensures |Encode(x)| == 4
    ensures Encode(x)[3] == '=' <==> |x| <= 2
    ensures Encode(x)[2] == '=' <==> |x| == 1
    ensures |x| == 1 ==> Encode(x)[..2] == Quad(Triple(x[0], 0, 0))[..2]
    ensures |x| == 2 ==> Encode(x)[..3] == Quad(Triple(x[0], x[1], 0))[..3]
  {
    if |x| == 3 {
      assert Encode(x[3..]) == "";
      assert Encode(x) == Quad(Triple(x[0], x[1], x[2]));
    }
  }

  lemma OneByteGroup(a: Byte, b: Byte)
    requires Quad(Triple(a, 0, 0))[..2] == Quad(Triple(b, 0, 0))[..2]
    ensures a == b
  {
    var n, m := Triple(a, 0, 0), Triple(b, 0, 0);
    QuadPrefix2(n, m);
    assert n / 64 / 64 == (a as int) * 16 && m / 64 / 64 == (b as int) * 16;
  }

  lemma TwoByteGroup(a: Byte, a': Byte, b: Byte, b': Byte)
    requires Quad(Triple(a, a', 0))[..3] == Quad(Triple(b, b', 0))[..3]
    ensures a == b && a' == b'
  {
    var n, m := Triple(a, a', 0), Triple(b, b', 0);
    QuadPrefix3(n, m);
    var v, w := n / 64, m / 64;
    assert v == (a as int) * 1024 + (a' as int) * 4 && w == (b as int) * 1024 + (b' as int) * 4;
    assert a == v / 1024 && b == w / 1024;
    assert a' == v % 1024 / 4 && b' == w % 1024 / 4;
  }
}
