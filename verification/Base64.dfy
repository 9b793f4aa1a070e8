/** The streaming base64 encoder of the HTTP server's Basic credentials. */
module Base64 {
  import opened Basics

  type Byte = b: int | 0 <= b < 256

  type Sextet = v: int | 0 <= v < 64

  /** An output character: a digit of the alphabet or padding. */
  datatype Symbol = Digit(value: Sextet) | Pad

  // ---- The encoding by blocks: section 4 of RFC 4648

  function Block(a: Byte, b: Byte, c: Byte): seq<Symbol> {
    [Digit(a / 4), Digit(a % 4 * 16 + b / 16), Digit(b % 16 * 4 + c / 64), Digit(c % 64)]
  }

  function Encoded(s: seq<Byte>): seq<Symbol> {
    if s == [] then []
    else if |s| == 1 then [Digit(s[0] / 4), Digit(s[0] % 4 * 16), Pad, Pad]
    else if |s| == 2 then [Digit(s[0] / 4), Digit(s[0] % 4 * 16 + s[1] / 16), Digit(s[1] % 16 * 4), Pad]
    else Block(s[0], s[1], s[2]) + Encoded(s[3..])
  }

  function FirstByte(w: Sextet, x: Sextet): Byte {
    w * 4 + x / 16
  }

  function SecondByte(x: Sextet, y: Sextet): Byte {
    x % 16 * 16 + y / 4
  }

  function ThirdByte(y: Sextet, z: Sextet): Byte {
    y % 4 * 64 + z
  }

  /** The standard decoder; None for what is not an encoding. */
  function Decoded(t: seq<Symbol>): Option<seq<Byte>> {
    if t == [] then Some([])
    else if |t| < 4 || t[0].Pad? || t[1].Pad? then None
    else
      var a := FirstByte(t[0].value, t[1].value);
      if t[2].Pad? then (if |t| == 4 && t[3].Pad? && t[1].value % 16 == 0 then Some([a]) else None)
      else
        var b := SecondByte(t[1].value, t[2].value);
        if t[3].Pad? then (if |t| == 4 && t[2].value % 4 == 0 then Some([a, b]) else None)
        else
          var rest := Decoded(t[4..]);
          if rest.None? then None else Some([a, b, ThirdByte(t[2].value, t[3].value)] + rest.value)
  }

  lemma DecodeOne(a: Byte)
    ensures Decoded(Encoded([a])) == Some([a])
  {
  }

  lemma DecodeTwo(a: Byte, b: Byte)
    ensures Decoded(Encoded([a, b])) == Some([a, b])
  {
    RecomposeFirst(a, b);
    RecomposeSecond(a, b, 0);
  }

  lemma RecomposeFirst(a: Byte, b: Byte)
    ensures FirstByte(a / 4, a % 4 * 16 + b / 16) == a
  {
    assert (a % 4 * 16 + b / 16) / 16 == a % 4;
  }

  lemma RecomposeSecond(a: Byte, b: Byte, c: Byte)
    ensures SecondByte(a % 4 * 16 + b / 16, b % 16 * 4 + c / 64) == b
  {
    assert (a % 4 * 16 + b / 16) % 16 == b / 16;
    assert (b % 16 * 4 + c / 64) / 4 == b % 16;
  }

  lemma RecomposeThird(b: Byte, c: Byte)
    ensures ThirdByte(b % 16 * 4 + c / 64, c % 64) == c
  {
    assert (b % 16 * 4 + c / 64) % 4 == c / 64;
  }

  lemma DecodeFour(w: Sextet, x: Sextet, y: Sextet, z: Sextet, rest: seq<Symbol>)
    ensures Decoded([Digit(w), Digit(x), Digit(y), Digit(z)] + rest) ==
            if Decoded(rest).None? then None
            else Some([FirstByte(w, x), SecondByte(x, y), ThirdByte(y, z)] + Decoded(rest).value)
  {
    assert ([Digit(w), Digit(x), Digit(y), Digit(z)] + rest)[4..] == rest;
  }

  lemma DecodeBlock(a: Byte, b: Byte, c: Byte, rest: seq<Symbol>)
    ensures Decoded(Block(a, b, c) + rest) ==
            if Decoded(rest).None? then None else Some([a, b, c] + Decoded(rest).value)
  {
    RecomposeFirst(a, b);
    RecomposeSecond(a, b, c);
    RecomposeThird(b, c);
    DecodeFour(a / 4, a % 4 * 16 + b / 16, b % 16 * 4 + c / 64, c % 64, rest);
  }

  /** The standard decoder gives back the bytes. */
  lemma {:induction false} DecoderInvertsEncoder(s: seq<Byte>)
    ensures Decoded(Encoded(s)) == Some(s)
  {
    if |s| == 1 {
      assert s == [s[0]];
      DecodeOne(s[0]);
    } else if |s| == 2 {
      assert s == [s[0], s[1]];
      DecodeTwo(s[0], s[1]);
    } else if |s| > 2 {
      DecoderInvertsEncoder(s[3..]);
      DecodeBlock(s[0], s[1], s[2], Encoded(s[3..]));
      assert s == [s[0], s[1], s[2]] + s[3..];
    }
  }

  // ---- The layout: which digits and paddings stand where, apart from their values

  /** A place in the output: which bits of which bytes it shows. */
  datatype Place = First(a: Byte) | Second(a: Byte, b: Byte) | Third(b: Byte, c: Byte) | Fourth(c: Byte) | Filler

  function Shown(x: Place): Symbol {
    match x
    case First(a) => Digit(a / 4)
    case Second(a, b) => Digit(a % 4 * 16 + b / 16)
    case Third(b, c) => Digit(b % 16 * 4 + c / 64)
    case Fourth(c) => Digit(c % 64)
    case Filler => Pad
  }

  function ShowAll(places: seq<Place>): (r: seq<Symbol>)
    ensures |r| == |places|
  {
    if places == [] then [] else ShowAll(places[..|places| - 1]) + [Shown(places[|places| - 1])]
  }

  lemma {:induction false} ShowConcat(a: seq<Place>, b: seq<Place>)
    ensures ShowAll(a + b) == ShowAll(a) + ShowAll(b)
  {
    if b == [] {
      assert a + b == a;
    } else {
      ShowConcat(a, b[..|b| - 1]);
      assert (a + b)[..|a + b| - 1] == a + b[..|b| - 1];
    }
  }

  /** The layout by blocks. */
  function Blocks(s: seq<Byte>): seq<Place> {
    if s == [] then []
    else if |s| == 1 then [First(s[0]), Second(s[0], 0), Filler, Filler]
    else if |s| == 2 then [First(s[0]), Second(s[0], s[1]), Third(s[1], 0), Filler]
    else [First(s[0]), Second(s[0], s[1]), Third(s[1], s[2]), Fourth(s[2])] + Blocks(s[3..])
  }

  lemma ShowFour(a: Place, b: Place, c: Place, d: Place)
    ensures ShowAll([a, b, c, d]) == [Shown(a), Shown(b), Shown(c), Shown(d)]
  {
    assert [a, b, c, d][..3] == [a, b, c] && [a, b, c][..2] == [a, b] && [a, b][..1] == [a] && [a][..0] == [];
    assert ShowAll([a]) == [Shown(a)];
    assert ShowAll([a, b]) == [Shown(a), Shown(b)];
    assert ShowAll([a, b, c]) == [Shown(a), Shown(b), Shown(c)];
  }

  lemma {:induction false} BlocksShowEncoding(s: seq<Byte>)
    ensures ShowAll(Blocks(s)) == Encoded(s)
  {
    if |s| == 1 {
      ShowFour(First(s[0]), Second(s[0], 0), Filler, Filler);
    } else if |s| == 2 {
      ShowFour(First(s[0]), Second(s[0], s[1]), Third(s[1], 0), Filler);
    } else if |s| > 2 {
      BlocksShowEncoding(s[3..]);
      ShowFour(First(s[0]), Second(s[0], s[1]), Third(s[1], s[2]), Fourth(s[2]));
      ShowConcat([First(s[0]), Second(s[0], s[1]), Third(s[1], s[2]), Fourth(s[2])], Blocks(s[3..]));
    }
  }

  /** The places that the byte at position r of its block completes; p is the byte before it. */
  function Completed(p: Byte, c: Byte, r: nat): seq<Place> {
    if r == 0 then [First(c)] else if r == 1 then [Second(p, c)] else [Third(p, c), Fourth(c)]
  }

  /** The position in its block after one more byte. */
  function Next(r: nat): nat {
    if r == 2 then 0 else r + 1
  }

  /** The layout byte by byte, for bytes that start at position r of a block behind the byte p. */
  function Stream(s: seq<Byte>, p: Byte, r: nat): seq<Place> {
    if s == [] then (if r == 0 then [] else if r == 1 then [Second(p, 0), Filler, Filler] else [Third(p, 0), Filler])
    else Completed(p, s[0], r) + Stream(s[1..], s[0], Next(r))
  }

  /** Byte by byte and block by block come to the same layout. */
  lemma {:induction false} StreamIsBlocks(s: seq<Byte>, p: Byte)
    ensures Stream(s, p, 0) == Blocks(s)
  {
    if |s| == 1 {
      assert s[1..] == [];
    } else if |s| == 2 {
      assert s[1..][1..] == [];
      assert Stream(s[1..], s[0], 1) == Completed(s[0], s[1], 1) + Stream([], s[1], 2);
    } else if |s| > 2 {
      StreamIsBlocks(s[3..], s[2]);
      assert s[1..][1..] == s[2..] && s[2..][1..] == s[3..];
      assert Stream(s[1..], s[0], 1) == Completed(s[0], s[1], 1) + Stream(s[2..], s[1], 2);
      assert Stream(s[2..], s[1], 2) == Completed(s[1], s[2], 2) + Stream(s[3..], s[2], 0);
    }
  }

  lemma {:induction false} StreamLength(s: seq<Byte>, p: Byte, r: nat) returns (k: nat)
    requires r < 3
    ensures |Stream(s, p, r)| + r == 4 * k
  {
    if s == [] {
      k := if r == 0 then 0 else 1;
    } else {
      k := StreamLength(s[1..], s[0], Next(r));
      k := if r == 2 then k + 1 else k;
    }
  }

  /** One byte more: what it completes moves from what is to come to what is out. */
  lemma Advance(out: seq<Symbol>, s: seq<Byte>, i: nat, p: Byte, r: nat)
    requires i < |s|
    ensures out + ShowAll(Stream(s[i..], p, r)) ==
            out + ShowAll(Completed(p, s[i], r)) + ShowAll(Stream(s[i + 1..], s[i], Next(r)))
  {
    assert s[i..][1..] == s[i + 1..];
    ShowConcat(Completed(p, s[i], r), Stream(s[i + 1..], s[i], Next(r)));
  }

  // ---- Reading the accumulator

  /** The six bits of x from bit k on; shifting right rounds down. */
  function Bits(x: int, k: nat): Sextet {
    x / Pow2(k) % 64
  }

  function Pow2(k: nat): (r: int)
    ensures r > 0
  {
    if k == 0 then 1 else 2 * Pow2(k - 1)
  }

  lemma Powers()
    ensures Pow2(0) == 1 && Pow2(2) == 4 && Pow2(4) == 16 && Pow2(6) == 64
  {
    assert Pow2(1) == 2 && Pow2(3) == 8 && Pow2(5) == 32;
  }

  /** The accumulator keeps at least its low twelve bits. */
  ghost predicate KeepsLowBits(wrap: int -> int) {
    forall x :: wrap(x) % 4096 == x % 4096
  }

  /** A 32-bit accumulator. */
  function Wrap32(x: int): (r: int)
    ensures -0x8000_0000 <= r < 0x8000_0000
  {
    (x + 0x8000_0000) % 0x1_0000_0000 - 0x8000_0000
  }

  lemma Wrap32KeepsLowBits()
    ensures KeepsLowBits(Wrap32)
  {
    forall x
      ensures Wrap32(x) % 4096 == x % 4096
    {
      var q := (x + 0x8000_0000) / 0x1_0000_0000;
      assert Wrap32(x) == x - 0x1_0000_0000 * q;
      assert Wrap32(x) == x + 4096 * (-1048576 * q);
      AddMultiple(x, -1048576 * q);
    }
  }

  lemma AddMultiple(x: int, k: int)
    ensures (x + 4096 * k) % 4096 == x % 4096
  {
  }

  lemma Mod4096(k: int, x: int)
    requires 0 <= x < 4096
    ensures (4096 * k + x) % 4096 == x
  {
  }

  lemma Mod256(k: int, x: int)
    requires 0 <= x < 256
    ensures (256 * k + x) % 256 == x
  {
  }

  /** After the byte c has been shifted in behind the byte p, the low bits hold both. */
  lemma ShiftIn(wrap: int -> int, val: int, p: Byte, c: Byte)
    requires KeepsLowBits(wrap) && val % 256 == p
    ensures wrap(val * 256 + c) % 4096 == p % 16 * 256 + c && wrap(val * 256 + c) % 256 == c
  {
    var x, h, a, q := val * 256 + c, val / 256, p / 16, p % 16;
    assert val == 256 * h + p && p == 16 * a + q;
    assert x == 4096 * (16 * h + a) + (256 * q + c);
    Mod4096(16 * h + a, 256 * q + c);
    assert wrap(x) % 4096 == x % 4096;
    LowByte(wrap(x), q, c);
  }

  lemma LowByte(w: int, q: int, c: Byte)
    requires w % 4096 == 256 * q + c
    ensures w % 256 == c
  {
    var g := w / 4096;
    assert w == 256 * (16 * g + q) + c;
    Mod256(16 * g + q, c);
  }

  lemma LowBits(val: int, low: int)
    requires val % 4096 == low
    ensures val % 64 == low % 64 && val / 4 % 64 == low / 4 % 64
    ensures val / 16 % 64 == low / 16 % 64 && val / 64 % 64 == low / 64 % 64
  {
    var h := val / 4096;
    assert val == 4096 * h + low;
    Mod64(64 * h, low);
    assert val / 4 == 64 * (16 * h) + low / 4;
    Mod64(16 * h, low / 4);
    assert val / 16 == 64 * (4 * h) + low / 16;
    Mod64(4 * h, low / 16);
    assert val / 64 == 64 * h + low / 64;
    Mod64(h, low / 64);
  }

  lemma Mod64(m: int, x: int)
    ensures (64 * m + x) % 64 == x % 64
  {
  }

  lemma PairFirst(q: nat, c: Byte)
    ensures (q * 256 + c) / 4 % 64 == c / 4
  {
    assert (q * 256 + c) / 4 == 64 * q + c / 4;
    Mod64(q, c / 4);
  }

  lemma PairSecond(q: nat, c: Byte)
    ensures (q * 256 + c) / 16 % 64 == q % 4 * 16 + c / 16
  {
    var g, f := q / 4, q % 4;
    assert (q * 256 + c) / 16 == 16 * q + c / 16;
    assert 16 * q + c / 16 == 64 * g + (f * 16 + c / 16);
    Mod64(g, f * 16 + c / 16);
  }

  lemma PairThird(q: nat, c: Byte)
    requires q < 16
    ensures (q * 256 + c) / 64 % 64 == q * 4 + c / 64
  {
    assert (q * 256 + c) / 64 == 4 * q + c / 64;
  }

  lemma PairFourth(q: nat, c: Byte)
    ensures (q * 256 + c) % 64 == c % 64
  {
    assert q * 256 + c == 64 * (4 * q) + c;
    Mod64(4 * q, c);
  }

  lemma LowTwoBits(p: Byte)
    ensures p % 16 % 4 == p % 4
  {
  }

  /** The places a byte completes are read off the accumulator. */
  lemma ReadsPlace(val: int, p: Byte, c: Byte)
    requires val % 4096 == p % 16 * 256 + c
    ensures Bits(val, 2) == Shown(First(c)).value && Bits(val, 4) == Shown(Second(p, c)).value
    ensures Bits(val, 6) == Shown(Third(p, c)).value && Bits(val, 0) == Shown(Fourth(c)).value
  {
    Powers();
    LowBits(val, p % 16 * 256 + c);
    PairFirst(p % 16, c);
    PairSecond(p % 16, c);
    PairThird(p % 16, c);
    PairFourth(p % 16, c);
    LowTwoBits(p);
  }

  lemma ShowSnoc(places: seq<Place>, j: nat)
    requires j < |places|
    ensures ShowAll(places[..j + 1]) == ShowAll(places[..j]) + [Shown(places[j])]
  {
    assert places[..j + 1][..j] == places[..j];
  }

  /** The digits that are complete once a byte has been shifted in. */
  method EmitDigits(val: int, valb: int, ghost p: Byte, ghost c: Byte, ghost r: nat)
    returns (digits: seq<Symbol>, left: int)
    requires r < 3 && valb == 2 + 2 * r && val % 4096 == p % 16 * 256 + c
    ensures digits == ShowAll(Completed(p, c, r)) && left == -6 + 2 * Next(r)
  {
    ReadsPlace(val, p, c);
    digits, left := [], valb;
    ghost var places, j := Completed(p, c, r), 0;
    while left >= 0
      invariant 0 <= j <= |places| && left == valb - 6 * j
      invariant digits == ShowAll(places[..j])
    {
      ShowSnoc(places, j);
      digits := digits + [Digit(Bits(val, left))];
      left := left - 6;
      j := j + 1;
    }
    assert places[..j] == places;
  }

  function Pads(n: nat): (r: seq<Symbol>)
    ensures |r| == n
  {
    if n == 0 then [] else Pads(n - 1) + [Pad]
  }

  /** Padding to a multiple of four. */
  method PadOut(out: seq<Symbol>) returns (full: seq<Symbol>, ghost n: nat)
    ensures |full| % 4 == 0 && n < 4 && full == out + Pads(n)
  {
    full, n := out, 0;
    while |full| % 4 != 0
      invariant full == out + Pads(n) && n < 4 && (|out| + n - 1) / 4 == (|out| - 1) / 4
      decreases 4 - n
    {
      full := full + [Pad];
      n := n + 1;
    }
  }

  lemma ShowTail(p: Byte, r: nat)
    requires 1 <= r < 3
    ensures ShowAll(Stream([], p, r)) == [Shown(if r == 1 then Second(p, 0) else Third(p, 0))] + Pads(3 - r)
  {
    var x := if r == 1 then Second(p, 0) else Third(p, 0);
    assert [x, Filler, Filler][..2] == [x, Filler] && [x, Filler][..1] == [x] && [x][..0] == [];
    assert ShowAll([x]) == [Shown(x)];
    assert ShowAll([x, Filler]) == [Shown(x), Pad];
    assert Pads(1) == [Pad];
    assert Pads(2) == [Pad, Pad];
  }

  /** The last digit, if bits are left over, and the padding to a multiple of four. */
  method Finish(out: seq<Symbol>, val: int, valb: int, wrap: int -> int, ghost p: Byte, ghost r: nat, ghost k: nat)
    returns (full: seq<Symbol>)
    requires KeepsLowBits(wrap) && r < 3 && valb == -6 + 2 * r && val % 256 == p
    requires |out| + |Stream([], p, r)| == 4 * k
    ensures full == out + ShowAll(Stream([], p, r))
  {
    full := out;
    if valb > -6 {
      ShiftIn(wrap, val, p, 0);
      ReadsPlace(wrap(val * 256), p, 0);
      ShowTail(p, r);
      full := full + [Digit(Bits(wrap(val * 256), valb + 8))];
    }
    ghost var before, n := full, 0;
    full, n := PadOut(full);
    PadCount(|before|, n, k, if r == 0 then 0 else 3 - r);
  }

  lemma PadCount(len: nat, n: nat, k: nat, want: nat)
    requires (len + n) % 4 == 0 && len + want == 4 * k && n < 4 && want < 4
    ensures n == want
  {
  }

  /** The streaming encoder, for an accumulator of any width that keeps its low twelve bits: it
      yields the encoding by blocks. */
  method Encode(s: seq<Byte>, wrap: int -> int) returns (out: seq<Symbol>)
    requires KeepsLowBits(wrap)
    ensures out == Encoded(s)
  {
    out := [];
    var val, valb := 0, -6;
    ghost var p: Byte, r: nat := 0, 0;
    var i := 0;
    StreamIsBlocks(s, 0);
    BlocksShowEncoding(s);
    assert s[0..] == s;
    while i < |s|
      invariant 0 <= i <= |s| && r < 3
      invariant out + ShowAll(Stream(s[i..], p, r)) == Encoded(s)
      invariant valb == -6 + 2 * r && val % 256 == p
    {
      var c := s[i];
      Advance(out, s, i, p, r);
      ShiftIn(wrap, val, p, c);
      val := wrap(val * 256 + c);
      var digits;
      digits, valb := EmitDigits(val, valb + 8, p, c, r);
      out := out + digits;
      p, r := c, Next(r);
      i := i + 1;
    }
    ghost var k := StreamLength(s, 0, 0);
    assert s[i..] == [];
    out := Finish(out, val, valb, wrap, p, r, k);
  }

  // ---- The alphabet

  function CharOf(x: Symbol): char {
    if x.Pad? then '='
    else if x.value < 26 then 'A' + x.value as char
    else if x.value < 52 then 'a' + (x.value - 26) as char
    else if x.value < 62 then '0' + (x.value - 52) as char
    else if x.value == 62 then '+'
    else '/'
  }

  function Text(t: seq<Symbol>): string {
    if t == [] then "" else Text(t[..|t| - 1]) + [CharOf(t[|t| - 1])]
  }

  lemma CharOfInjective(x: Symbol, y: Symbol)
    requires CharOf(x) == CharOf(y)
    ensures x == y
  {
  }

  lemma {:induction false} TextInjective(t: seq<Symbol>, u: seq<Symbol>)
    requires Text(t) == Text(u)
    ensures t == u
  {
    TextLength(t);
    TextLength(u);
    if t != [] {
      var n := |t| - 1;
      assert Text(t)[..n] == Text(t[..n]) && Text(u)[..n] == Text(u[..n]);
      TextInjective(t[..n], u[..n]);
      assert Text(t)[n] == CharOf(t[n]) && Text(u)[n] == CharOf(u[n]);
      CharOfInjective(t[n], u[n]);
    }
  }

  lemma {:induction false} TextLength(t: seq<Symbol>)
    ensures |Text(t)| == |t|
  {
    if t != [] {
      TextLength(t[..|t| - 1]);
    }
  }

  /** Different credentials have different headers. */
  lemma TextDeterminesBytes(s: seq<Byte>, t: seq<Byte>)
    requires Text(Encoded(s)) == Text(Encoded(t))
    ensures s == t
  {
    TextInjective(Encoded(s), Encoded(t));
    DecoderInvertsEncoder(s);
    DecoderInvertsEncoder(t);
  }
}
