/** The byte-table base64 of src/subs.ts:39-97 (section 4 of RFC 4648, decoded leniently). */
module Base64 {
  import Encoding

  type Byte = Encoding.Byte

  const PAD: char := '='

  /** The 64-character alphabet. */
  function Code(i: nat): char
    requires i < 64
  {
    if i < 26 then 'A' + i as char
    else if i < 52 then 'a' + (i - 26) as char
    else if i < 62 then '0' + (i - 52) as char
    else if i == 62 then '+' else '/'
  }

  /** The reverse table: any character outside the alphabet reads as 0. */
  function Rev(c: char): (i: nat)
    ensures i < 64
  {
    if 'A' <= c <= 'Z' then (c - 'A') as nat
    else if 'a' <= c <= 'z' then 26 + (c - 'a') as nat
    else if '0' <= c <= '9' then 52 + (c - '0') as nat
    else if c == '+' then 62 else if c == '/' then 63 else 0
  }

  lemma RevCode(i: nat)
    requires i < 64
    ensures Rev(Code(i)) == i && Code(i) != PAD
  {
  }

  // ---- the specification ----

  /** Three bytes as four characters. */
  function Quad(a: Byte, b: Byte, c: Byte): string
  {
    var x := a * 65536 + b * 256 + c;
    [Code(x / 262144), Code(x / 4096 % 64), Code(x / 64 % 64), Code(x % 64)]
  }

  /** One or two last bytes, without the padding. */
  function Last(bytes: seq<Byte>): string
    requires 1 <= |bytes| <= 2
  {
    if |bytes| == 1 then [Code(bytes[0] / 4), Code(bytes[0] % 4 * 16)]
    else [Code(bytes[0] / 4), Code(bytes[0] % 4 * 16 + bytes[1] / 16), Code(bytes[1] % 16 * 4)]
  }

  /** The characters before the padding. */
  function Bare(bytes: seq<Byte>): string
  {
    if |bytes| == 0 then ""
    else if |bytes| < 3 then Last(bytes)
    else Quad(bytes[0], bytes[1], bytes[2]) + Bare(bytes[3..])
  }

  function Padding(n: nat): string { if n % 3 == 0 then "" else if n % 3 == 1 then "==" else "=" }

  function Encode(bytes: seq<Byte>): string { Bare(bytes) + Padding(|bytes|) }

  /** Four characters as three bytes; the positions past the end read as 0. */
  function Triple(a: nat, b: nat, c: nat, d: nat): (r: seq<Byte>)
    requires a < 64 && b < 64 && c < 64 && d < 64
    ensures |r| == 3
  {
    var n := a * 262144 + b * 4096 + c * 64 + d;
    [n / 65536, n / 256 % 256, n % 256]
  }

  function At(t: string, i: nat): (r: nat)
    ensures r < 64
  {
    if i < |t| then Rev(t[i]) else 0
  }

  function Unbare(t: string): seq<Byte>
  {
    if |t| == 0 then []
    else
      var three := Triple(At(t, 0), At(t, 1), At(t, 2), At(t, 3));
      if |t| >= 4 then three + Unbare(t[4..]) else three[..|t| * 3 / 4]
  }

  /** Trailing padding is dropped. */
  function Strip(s: string): string
  {
    if s != "" && s[|s| - 1] == PAD then Strip(s[..|s| - 1]) else s
  }

  function Decode(s: string): seq<Byte> { Unbare(Strip(s)) }

  // ---- round trip ----

  lemma TripleOfQuad(a: Byte, b: Byte, c: Byte)
    ensures var q := Quad(a, b, c);
            |q| == 4 && (forall ch | ch in q :: ch != PAD) && Triple(Rev(q[0]), Rev(q[1]), Rev(q[2]), Rev(q[3])) == [a, b, c]
  {
    hide Rev, Code, Triple;
    var x := a * 65536 + b * 256 + c;
    Split(x);
    RevCode(x / 262144);
    RevCode(x / 4096 % 64);
    RevCode(x / 64 % 64);
    RevCode(x % 64);
    TripleIs(x / 262144, x / 4096 % 64, x / 64 % 64, x % 64, a, b, c);
  }

  lemma TripleIs(i: nat, j: nat, k: nat, l: nat, a: Byte, b: Byte, c: Byte)
    requires i < 64 && j < 64 && k < 64 && l < 64 && i * 262144 + j * 4096 + k * 64 + l == a * 65536 + b * 256 + c
    ensures Triple(i, j, k, l) == [a, b, c]
  {
    Bytes(a, b, c);
  }

  lemma Split(x: nat)
    requires x < 16777216
    ensures x / 262144 < 64 && x / 262144 * 262144 + x / 4096 % 64 * 4096 + x / 64 % 64 * 64 + x % 64 == x
  {
    Encoding.Base64Digits(x);
  }

  lemma Bytes(a: Byte, b: Byte, c: Byte)
    ensures var x := a * 65536 + b * 256 + c; x / 65536 == a && x / 256 == a * 256 + b && x / 256 % 256 == b && x % 256 == c
  {
  }

  /** One or two last bytes come back, and their characters are not padding. */
  lemma LastBack(bytes: seq<Byte>)
    requires 1 <= |bytes| <= 2
    ensures Unbare(Last(bytes)) == bytes && (forall ch | ch in Last(bytes) :: ch != PAD)
  {
    var a: int := bytes[0];
    if |bytes| == 1 {
      RevCode(a / 4);
      RevCode(a % 4 * 16);
      OneByte(a);
      hide Rev, Code;
      assert bytes == [a];
    } else {
      var b: int := bytes[1];
      RevCode(a / 4);
      RevCode(a % 4 * 16 + b / 16);
      RevCode(b % 16 * 4);
      TwoBytes(a, b);
      hide Rev, Code;
      assert bytes == [a, b];
    }
  }

  lemma OneByte(a: Byte)
    ensures a / 4 < 64 && a % 4 * 16 < 64 && Triple(a / 4, a % 4 * 16, 0, 0)[..1] == [a]
  {
  }

  lemma TwoBytes(a: Byte, b: Byte)
    ensures a % 4 * 16 + b / 16 < 64 && b % 16 * 4 < 64 && Triple(a / 4, a % 4 * 16 + b / 16, b % 16 * 4, 0)[..2] == [a, b]
  {
    assert a / 4 * 262144 + (a % 4 * 16 + b / 16) * 4096 + b % 16 * 4 * 64 == a * 65536 + b * 256;
    Bytes(a, b, 0);
  }

  /** Decoding the characters gives the bytes back, and no character is padding. */
  lemma {:induction false} UnbareBare(bytes: seq<Byte>)
    ensures Unbare(Bare(bytes)) == bytes && forall ch | ch in Bare(bytes) :: ch != PAD
  {
    hide Quad, Triple, Last, Rev;
    if |bytes| == 0 {
    } else if |bytes| < 3 {
      LastBack(bytes);
    } else {
      var q := Quad(bytes[0], bytes[1], bytes[2]);
      TripleOfQuad(bytes[0], bytes[1], bytes[2]);
      UnbareBare(bytes[3..]);
      UnbareGroup(q, Bare(bytes[3..]));
      assert bytes == [bytes[0], bytes[1], bytes[2]] + bytes[3..];
    }
  }

  lemma UnbareGroup(q: string, rest: string)
    requires |q| == 4
    ensures Unbare(q + rest) == Triple(Rev(q[0]), Rev(q[1]), Rev(q[2]), Rev(q[3])) + Unbare(rest)
  {
    hide Triple, Rev;
    assert (q + rest)[4..] == rest;
  }

  lemma StripPadding(t: string, n: nat)
    requires forall ch | ch in t :: ch != PAD
    ensures Strip(t + Padding(n)) == t
  {
    var s := t + Padding(n);
    assert t != "" ==> t[|t| - 1] in t;
    StripShorter(s, |t|);
    assert s[..|t|] == t;
  }

  /** Every byte sequence survives encoding and decoding. */
  lemma RoundTrip(bytes: seq<Byte>)
    ensures Decode(Encode(bytes)) == bytes
  {
    hide Bare, Unbare, Strip;
    UnbareBare(bytes);
    StripPadding(Bare(bytes), |bytes|);
  }

  // ---- the code ----

  lemma {:induction false} BareAppend(a: seq<Byte>, b: seq<Byte>)
    requires |a| % 3 == 0
    ensures Bare(a + b) == Bare(a) + Bare(b)
    decreases |a|
  {
    hide Quad, Last;
    if a == [] {
      assert a + b == b;
    } else {
      BareAppend(a[3..], b);
      assert (a + b)[3..] == a[3..] + b;
    }
  }

  /** Four characters for every three bytes, rounded up. */
  lemma {:induction false} EncodedLength(bytes: seq<Byte>)
    ensures |Encode(bytes)| == (|bytes| + 2) / 3 * 4
  {
    hide Quad, Last;
    var n := |bytes|;
    if n >= 3 {
      EncodedLength(bytes[3..]);
      QuadLength(bytes[0], bytes[1], bytes[2]);
      assert (n + 2) / 3 == (n - 3 + 2) / 3 + 1 && Padding(n) == Padding(n - 3);
    } else if n > 0 {
      LastLength(bytes);
    }
  }

  lemma {:induction false} UnbareAppend(a: string, b: string)
    requires |a| % 4 == 0
    ensures Unbare(a + b) == Unbare(a) + Unbare(b)
    decreases |a|
  {
    hide Triple, Rev;
    if a == "" {
      assert a + b == b;
    } else {
      UnbareAppend(a[4..], b);
      assert (a + b)[4..] == a[4..] + b;
    }
  }

  /** Where the g-th group of three bytes goes, and what is left past the last whole group. */
  lemma EncodeRoom(n: nat, g: nat)
    requires 3 * g <= n
    ensures 3 * g + 2 < n ==> 4 * g + 4 <= (n + 2) / 3 * 4
    ensures 3 * g + 2 >= n ==> (n + 2) / 3 * 4 == if n == 3 * g then 4 * g else 4 * g + 4
    ensures 3 * g + 2 >= n ==> n % 3 == n - 3 * g
  {
  }

  /** Write characters at a position of the buffer. */
  method PutChars(out: array<char>, o: nat, q: string)
    requires o + |q| <= out.Length
    modifies out
    ensures out[..o + |q|] == old(out[..o]) + q
  {
    var k := 0;
    while k < |q|
      invariant k <= |q| && out[..o + k] == old(out[..o]) + q[..k]
    {
      out[o + k] := q[k];
      k := k + 1;
    }
  }

  /** One group of three bytes. */
  method EncodeGroup(bytes: seq<Byte>, out: array<char>, i: nat, o: nat)
    requires i % 3 == 0 && i + 2 < |bytes| && o + 4 <= out.Length && out[..o] == Bare(bytes[..i])
    modifies out
    ensures out[..o + 4] == Bare(bytes[..i + 3])
  {
    hide Quad, Bare, Last;
    GroupEncoded(bytes, i);
    PutChars(out, o, Quad(bytes[i], bytes[i + 1], bytes[i + 2]));
  }

  /** b64encode: fill an exactly sized character buffer, three bytes at a time, then the rest and the padding. */
  method EncodeBytes(bytes: seq<Byte>) returns (s: string)
    ensures s == Encode(bytes)
  {
    hide Quad, Bare, Last, Code, Encode, Padding;
    var n := |bytes|;
    var out := new char[(n + 2) / 3 * 4];
    var o, i := 0, 0;
    ghost var g := 0;
    assert bytes[..0] == [];
    EmptyBare();
    EncodeRoom(n, 0);
    while i + 2 < n
      invariant i == 3 * g <= n && o == 4 * g <= out.Length && out[..o] == Bare(bytes[..i])
    {
      EncodeRoom(n, g);
      EncodeGroup(bytes, out, i, o);
      o, i, g := o + 4, i + 3, g + 1;
    }
    EncodeRoom(n, g);
    RestEncoded(bytes, i);
    if i < n {
      PutChars(out, o, Last(bytes[i..]) + (if i + 1 < n then [PAD] else [PAD, PAD]));
    }
    s := out[..];
    assert out[..if i < n then o + 4 else o] == out[..];
  }

  /** What follows the whole groups. */
  lemma RestEncoded(bytes: seq<Byte>, i: nat)
    requires i % 3 == 0 && i <= |bytes| <= i + 2
    ensures i == |bytes| ==> Encode(bytes) == Bare(bytes[..i])
    ensures i < |bytes| ==> var rest := Last(bytes[i..]) + (if i + 1 < |bytes| then [PAD] else [PAD, PAD]);
                            |rest| == 4 && Encode(bytes) == Bare(bytes[..i]) + rest
  {
    hide Bare, Last;
    BareAppend(bytes[..i], bytes[i..]);
    assert bytes == bytes[..i] + bytes[i..];
    EmptyBare();
    if i < |bytes| { LastLength(bytes[i..]); }
  }

  lemma GroupEncoded(bytes: seq<Byte>, i: nat)
    requires i % 3 == 0 && i + 2 < |bytes|
    ensures |Quad(bytes[i], bytes[i + 1], bytes[i + 2])| == 4
    ensures Bare(bytes[..i + 3]) == Bare(bytes[..i]) + Quad(bytes[i], bytes[i + 1], bytes[i + 2])
  {
    hide Quad, Last, Bare;
    assert bytes[..i + 3] == bytes[..i] + [bytes[i], bytes[i + 1], bytes[i + 2]];
    BareAppend(bytes[..i], [bytes[i], bytes[i + 1], bytes[i + 2]]);
    BareThree(bytes[i], bytes[i + 1], bytes[i + 2]);
    QuadLength(bytes[i], bytes[i + 1], bytes[i + 2]);
  }

  lemma EmptyBare()
    ensures Bare([]) == ""
  {
  }

  lemma QuadLength(a: Byte, b: Byte, c: Byte)
    ensures |Quad(a, b, c)| == 4
  {
  }

  lemma BareThree(a: Byte, b: Byte, c: Byte)
    ensures Bare([a, b, c]) == Quad(a, b, c)
  {
    hide Quad;
    assert [a, b, c][3..] == [];
    EmptyBare();
  }

  lemma LastLength(bytes: seq<Byte>)
    requires 1 <= |bytes| <= 2
    ensures |Last(bytes)| == |bytes| + 1 && Bare(bytes) == Last(bytes)
  {
  }

  lemma {:induction false} StripShorter(s: string, end: nat)
    requires end <= |s| && (forall i | end <= i < |s| :: s[i] == PAD) && (end > 0 ==> s[end - 1] != PAD)
    ensures Strip(s) == s[..end]
    decreases |s|
  {
    if end < |s| {
      StripShorter(s[..|s| - 1], end);
      assert s[..|s| - 1][..end] == s[..end];
    } else {
      assert s[..end] == s;
    }
  }

  /** Where the g-th group of four characters goes, and what a last short group yields. */
  lemma DecodeRoom(end: nat, g: nat)
    requires 4 * g <= end
    ensures 4 * g + 4 <= end ==> 3 * g + 3 <= end * 3 / 4
    ensures 3 * g <= end * 3 / 4 && (end == 4 * g ==> end * 3 / 4 == 3 * g)
    ensures end < 4 * g + 4 ==> end * 3 / 4 == 3 * g + (end - 4 * g) * 3 / 4 && (end - 4 * g) * 3 / 4 <= 2
  {
  }

  /** Write up to three bytes, never past the end of the buffer. */
  method PutBytes(out: array<Byte>, o: nat, n: seq<Byte>) returns (o': nat)
    requires o <= out.Length && |n| == 3
    modifies out
    ensures o' == if o + 3 <= out.Length then o + 3 else out.Length
    ensures out[..o'] == old(out[..o]) + n[..o' - o]
  {
    o' := o;
    if o' < out.Length { out[o'] := n[0]; o' := o' + 1; }
    if o' < out.Length { out[o'] := n[1]; o' := o' + 1; }
    if o' < out.Length { out[o'] := n[2]; o' := o' + 1; }
  }

  /** Where decoding stands before the group of characters at `i`. */
  function Filled(t: string, i: nat): seq<Byte> { Unbare(t[..if i <= |t| then i else |t|]) }

  /** One group of four characters. */
  method DecodeGroup(t: string, out: array<Byte>, i: nat, o: nat, ghost g: nat) returns (o': nat)
    requires i == 4 * g < |t| && out.Length == |t| * 3 / 4 && o == 3 * g <= out.Length && out[..o] == Filled(t, i)
    modifies out
    ensures o' == (if i + 4 <= |t| then 3 * g + 3 else out.Length) <= out.Length && out[..o'] == Filled(t, i + 4)
  {
    hide Triple, Unbare, At;
    DecodeRoom(|t|, g);
    UnbareStep(t, i);
    o' := PutBytes(out, o, Triple(At(t, i), At(t, i + 1), At(t, i + 2), At(t, i + 3)));
  }

  /** b64decode: a buffer of floor(3/4 end) bytes, filled four characters at a time. */
  method DecodeString(s: string) returns (bytes: seq<Byte>)
    ensures bytes == Decode(s)
  {
    hide Triple, Unbare, Strip, At, Filled;
    var end := |s|;
    while end > 0 && s[end - 1] == PAD
      invariant 0 <= end <= |s| && forall i | end <= i < |s| :: s[i] == PAD
    {
      end := end - 1;
    }
    StripShorter(s, end);
    var t := s[..end];
    var out := new Byte[end * 3 / 4];
    var o, i := 0, 0;
    ghost var g := 0;
    FilledEnds(t);
    while i < end
      invariant i == 4 * g && 0 <= o <= out.Length && out[..o] == Filled(t, i)
      invariant o == if i < end then 3 * g else out.Length
      decreases end - i
    {
      DecodeRoom(end, g);
      o := DecodeGroup(t, out, i, o, g);
      if i + 4 <= end { DecodeRoom(end, g + 1); }
      i, g := i + 4, g + 1;
    }
    FilledAt(t, i);
    bytes := out[..];
    assert out[..o] == out[..];
  }

  lemma FilledEnds(t: string)
    ensures Filled(t, 0) == []
  {
    assert t[..0] == "";
    EmptyUnbare();
  }

  lemma FilledAt(t: string, i: nat)
    requires i >= |t|
    ensures Filled(t, i) == Unbare(t)
  {
    assert t[..|t|] == t;
  }

  lemma EmptyUnbare()
    ensures Unbare("") == []
  {
  }

  /** The group of four characters at `i`, whole or cut short by the end. */
  lemma UnbareStep(t: string, i: nat)
    requires i % 4 == 0 && i < |t|
    ensures var n := Triple(At(t, i), At(t, i + 1), At(t, i + 2), At(t, i + 3));
            && |n| == 3
            && Unbare(t[..if i + 4 <= |t| then i + 4 else |t|])
               == Unbare(t[..i]) + n[..if i + 4 <= |t| then 3 else (|t| - i) * 3 / 4]
  {
    hide Triple, Unbare, Rev;
    var k := if i + 4 <= |t| then i + 4 else |t|;
    var g := t[i..k];
    assert t[..k] == t[..i] + g;
    UnbareAppend(t[..i], g);
    assert At(g, 0) == At(t, i) && At(g, 1) == At(t, i + 1) && At(g, 2) == At(t, i + 2) && At(g, 3) == At(t, i + 3);
    OneGroup(g);
  }

  lemma OneGroup(g: string)
    requires 1 <= |g| <= 4
    ensures var n := Triple(At(g, 0), At(g, 1), At(g, 2), At(g, 3));
            Unbare(g) == n[..|g| * 3 / 4]
  {
    hide Triple, Rev;
    if |g| == 4 { assert g[4..] == ""; }
  }
}
