/** UTF-8 as Go decodes it: a whole encoding at a time, and one byte where there is none. */
module Utf8 {
  import opened Common

  /** How many bytes an encoding that starts with b has: 0 when none does. */
  function Need(b: byte): nat {
    if b < 0x80 then 1
    else if b < 0xC2 then 0
    else if b < 0xE0 then 2
    else if b < 0xF0 then 3
    else if b < 0xF5 then 4
    else 0
  }

  predicate Continues(b: byte) { 0x80 <= b < 0xC0 }

  /** The second byte of an encoding is narrower after some first bytes: no overlong encoding, surrogate or
      value past the last code point. */
  predicate Second(b: byte, c: byte) {
    && Continues(c) && (b == 0xE0 ==> c >= 0xA0) && (b == 0xED ==> c < 0xA0)
    && (b == 0xF0 ==> c >= 0x90) && (b == 0xF4 ==> c < 0x90)
  }

  /** s begins with a whole encoding. */
  predicate Whole(s: seq<byte>) {
    && s != [] && 1 <= Need(s[0]) <= |s|
    && (Need(s[0]) >= 2 ==> Second(s[0], s[1]))
    && forall k | 1 <= k < Need(s[0]) :: Continues(s[k])
  }

  /** A byte an encoding can start with, or that belongs to none. */
  predicate RuneStart(b: byte) { !Continues(b) }

  predicate Valid(s: seq<byte>) {
    s == [] || (Whole(s) && Valid(s[Need(s[0])..]))
  }

  // ----- what an encoding is of -----

  /** A code point that is not a surrogate. */
  predicate Scalar(cp: int) { 0 <= cp <= 0x10FFFF && !(0xD800 <= cp <= 0xDFFF) }

  /** The encoding of a code point (section 3 of RFC 3629). */
  function Encode(cp: int): (s: seq<byte>)
    requires Scalar(cp)
    ensures s != []
  {
    if cp < 0x80 then [cp]
    else if cp < 0x800 then [0xC0 + cp / 64, 0x80 + cp % 64]
    else if cp < 0x1_0000 then [0xE0 + cp / 4096, 0x80 + cp / 64 % 64, 0x80 + cp % 64]
    else [0xF0 + cp / 262144, 0x80 + cp / 4096 % 64, 0x80 + cp / 64 % 64, 0x80 + cp % 64]
  }

  /** The code point of lead bits followed by the given continuation bytes. */
  function Joined(lead: int, tail: seq<byte>): int {
    if tail == [] then lead else 64 * Joined(lead, tail[..|tail| - 1]) + (tail[|tail| - 1] as int - 0x80)
  }

  /** The bits a first byte carries. */
  function LeadBits(b: byte): int {
    b as int - match Need(b) case 2 => 0xC0 case 3 => 0xE0 case 4 => 0xF0 case _ => 0
  }

  /** The code point a whole encoding is of. */
  function Decode(s: seq<byte>): int
    requires Whole(s)
  {
    Joined(LeadBits(s[0]), s[1..Need(s[0])])
  }

  lemma JoinedIs(lead: int, tail: seq<byte>)
    requires |tail| <= 3
    ensures |tail| == 0 ==> Joined(lead, tail) == lead
    ensures |tail| == 1 ==> Joined(lead, tail) == 64 * lead + (tail[0] as int - 0x80)
    ensures |tail| == 2 ==> Joined(lead, tail) == 4096 * lead + 64 * (tail[0] as int - 0x80) + (tail[1] as int - 0x80)
    ensures |tail| == 3 ==> Joined(lead, tail) == 262144 * lead + 4096 * (tail[0] as int - 0x80)
                                                  + 64 * (tail[1] as int - 0x80) + (tail[2] as int - 0x80)
  {
    if |tail| >= 1 { JoinedIs(lead, tail[..|tail| - 1]); }
  }

  lemma DecodesBack(s: seq<byte>)
    requires Whole(s)
    ensures Scalar(Decode(s)) && Encode(Decode(s)) == s[..Need(s[0])]
  {
    hide Joined, Encode;
    var n, a := Need(s[0]), LeadBits(s[0]);
    JoinedIs(a, s[1..n]);
    assert forall k | 1 <= k < n :: s[k] == s[1..n][k - 1] && Continues(s[k]);
    match n
    case 1 => EncodesOne(a);
    case 2 => EncodesTwo(a, s[1] - 0x80);
    case 3 => EncodesThree(a, s[1] - 0x80, s[2] - 0x80);
    case _ => EncodesFour(a, s[1] - 0x80, s[2] - 0x80, s[3] - 0x80);
  }

  lemma EncodesOne(a: int)
    requires 0 <= a < 0x80
    ensures Scalar(a) && Encode(a) == [a]
  {}

  lemma EncodesTwo(a: int, b: int)
    requires 2 <= a < 32 && 0 <= b < 64
    ensures Scalar(64 * a + b) && Encode(64 * a + b) == [0xC0 + a, 0x80 + b]
  {
    SplitsTwo(a, b);
  }

  lemma EncodesThree(a: int, b: int, c: int)
    requires 0 <= a < 16 && 0 <= b < 64 && 0 <= c < 64 && (a == 0 ==> b >= 32) && (a == 13 ==> b < 32)
    ensures var cp := 4096 * a + 64 * b + c; Scalar(cp) && Encode(cp) == [0xE0 + a, 0x80 + b, 0x80 + c]
  {
    SplitsThree(a, b, c);
  }

  lemma EncodesFour(a: int, b: int, c: int, d: int)
    requires 0 <= a <= 4 && 0 <= b < 64 && 0 <= c < 64 && 0 <= d < 64 && (a == 0 ==> b >= 16) && (a == 4 ==> b < 16)
    ensures var cp := 262144 * a + 4096 * b + 64 * c + d;
            Scalar(cp) && Encode(cp) == [0xF0 + a, 0x80 + b, 0x80 + c, 0x80 + d]
  {
    SplitsFour(a, b, c, d);
  }

  lemma SplitsTwo(a: int, b: int)
    requires 0 <= b < 64
    ensures (64 * a + b) / 64 == a && (64 * a + b) % 64 == b
  {}

  lemma SplitsThree(a: int, b: int, c: int)
    requires 0 <= b < 64 && 0 <= c < 64
    ensures var cp := 4096 * a + 64 * b + c; cp / 4096 == a && cp / 64 % 64 == b && cp % 64 == c
  {
    SplitsTwo(64 * a + b, c);
  }

  lemma SplitsFour(a: int, b: int, c: int, d: int)
    requires 0 <= b < 64 && 0 <= c < 64 && 0 <= d < 64
    ensures var cp := 262144 * a + 4096 * b + 64 * c + d;
            cp / 262144 == a && cp / 4096 % 64 == b && cp / 64 % 64 == c && cp % 64 == d
  {
    SplitsThree(64 * a + b, c, d);
  }

  lemma EncodesWhole(cp: int, s: seq<byte>)
    requires Scalar(cp) && Encode(cp) <= s
    ensures Whole(s) && Need(s[0]) == |Encode(cp)|
  {
    var e := Encode(cp);
    assert forall k | 0 <= k < |e| :: s[k] == e[k];
    Parts(cp);
  }

  lemma Parts(cp: int)
    requires Scalar(cp)
    ensures 0 <= cp % 64 < 64 && 0 <= cp / 64 % 64 < 64 && 0 <= cp / 4096 % 64 < 64
    ensures cp < 0x800 ==> cp / 64 < 32
    ensures 0x80 <= cp ==> 2 <= cp / 64
    ensures cp < 0x1_0000 ==> cp / 4096 < 16 && cp / 64 == 64 * (cp / 4096) + cp / 64 % 64
    ensures 0x1_0000 <= cp ==> 0 <= cp / 262144 <= 4 && cp / 4096 == 64 * (cp / 262144) + cp / 4096 % 64
    ensures 0x1_0000 <= cp ==> 16 <= cp / 4096 <= 0x10F
    ensures 0x800 <= cp ==> 32 <= cp / 64
    ensures cp < 0xD800 ==> cp / 64 < 0x360
    ensures cp >= 0xE000 ==> cp / 64 >= 0x380
  {}

  /** What begins with a whole encoding is exactly what begins with the encoding of a code point. */
  lemma WholeExactly(s: seq<byte>)
    ensures Whole(s) <==> exists cp :: Scalar(cp) && Encode(cp) <= s
  {
    if Whole(s) {
      DecodesBack(s);
      assert Encode(Decode(s)) <= s;
    }
    if cp :| Scalar(cp) && Encode(cp) <= s { EncodesWhole(cp, s); }
  }

  /** The prefix up to where a rune starts is valid when the whole is. */
  lemma {:induction false} CutAtRuneStart(s: seq<byte>, cut: nat)
    requires Valid(s) && cut <= |s| && (cut == 0 || cut == |s| || RuneStart(s[cut]))
    ensures Valid(s[..cut])
  {
    if 0 < cut < |s| {
      var n := Need(s[0]);
      assert cut >= n;
      CutAtRuneStart(s[n..], cut - n);
      assert s[..cut][n..] == s[n..][..cut - n];
      assert Whole(s[..cut]);
    } else {
      assert s[..|s|] == s;
    }
  }

  /** What follows an encoding does not change it, and an encoding cut short stays none before a byte that
      cannot continue it. */
  lemma WholeBefore(x: seq<byte>, a: seq<byte>)
    requires x != [] && (a == [] || RuneStart(a[0]))
    ensures Whole(x + a) <==> Whole(x)
  {
    var s, n := x + a, Need(x[0]);
    forall k | 0 <= k < |x| ensures s[k] == x[k] {}
    if Whole(s) {
      if n > |x| {
        NotContinued(x, a);
      } else {
        forall k | 1 <= k < n ensures Continues(x[k]) { assert Continues(s[k]); }
      }
    }
    if Whole(x) {
      forall k | 1 <= k < n ensures Continues(s[k]) { assert Continues(x[k]); }
    }
  }

  lemma NotContinued(x: seq<byte>, a: seq<byte>)
    requires x != [] && (a == [] || RuneStart(a[0])) && Need(x[0]) > |x|
    ensures !Whole(x + a)
  {
    var s := x + a;
    assert a != [] ==> s[|x|] == a[0];
  }

  lemma {:induction false} ValidJoins(x: seq<byte>, a: seq<byte>)
    requires Valid(x) && Valid(a)
    ensures Valid(x + a)
  {
    hide Need;
    if x == [] {
      assert x + a == a;
    } else {
      var n := Need(x[0]);
      ValidJoins(x[n..], a);
      assert (x + a)[n..] == x[n..] + a && (x + a)[0] == x[0];
      forall k | 0 <= k < n ensures (x + a)[k] == x[k] {}
      assert Whole(x + a);
    }
  }
}
