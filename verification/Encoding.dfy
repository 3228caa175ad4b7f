/**
  The bytes a chain hash covers (src/encoding.ts): UTF-8 fields, each behind a 32-bit length, in a fixed
  order. They determine every field, so equal head chains mean equal rows or a hash collision.
*/
module Encoding {
  import opened HlcClock
  import opened Entries

  type Byte = b: nat | b < 256

  const TWO32: nat := 0x1_0000_0000
  const MAX_SAFE_INTEGER: nat := 0x1F_FFFF_FFFF_FFFF

  // ---- UTF-8 ----

  function Utf8Char(c: char): (r: seq<Byte>)
    ensures 1 <= |r| <= 4
  {
    var n := c as int;
    if n < 0x80 then [n]
    else if n < 0x800 then [0xC0 + n / 64, 0x80 + n % 64]
    else if n < 0x1_0000 then [0xE0 + n / 4096, 0x80 + n / 64 % 64, 0x80 + n % 64]
    else [0xF0 + n / 262144, 0x80 + n / 4096 % 64, 0x80 + n / 64 % 64, 0x80 + n % 64]
  }

  function Utf8(s: string): seq<Byte>
  {
    if s == "" then [] else Utf8Char(s[0]) + Utf8(s[1..])
  }

  lemma Utf8CharLead(c: char)
    ensures var lead := Utf8Char(c)[0];
            |Utf8Char(c)| == if lead < 0xC0 then 1 else if lead < 0xE0 then 2 else if lead < 0xF0 then 3 else 4
  {
  }

  lemma Utf8CharInjective(c: char, d: char)
    requires Utf8Char(c) == Utf8Char(d)
    ensures c == d
  {
    hide *;
    Utf8CharValue(c);
    Utf8CharValue(d);
  }

  /** Reading a character back from its bytes. */
  function Utf8Value(b: seq<int>): int
  {
    if |b| == 1 then b[0]
    else if |b| == 2 then 64 * (b[0] - 0xC0) + b[1] - 0x80
    else if |b| == 3 then 4096 * (b[0] - 0xE0) + 64 * (b[1] - 0x80) + b[2] - 0x80
    else if |b| == 4 then 262144 * (b[0] - 0xF0) + 4096 * (b[1] - 0x80) + 64 * (b[2] - 0x80) + b[3] - 0x80
    else -1
  }

  lemma Utf8CharValue(c: char)
    ensures Utf8Value(Utf8Char(c)) == c as int
  {
    Base64Digits(c as int);
  }

  lemma Base64Digits(n: nat)
    ensures n == 64 * (n / 64) + n % 64
    ensures n / 64 == 64 * (n / 4096) + n / 64 % 64
    ensures n / 4096 == 64 * (n / 262144) + n / 4096 % 64
  {
    assert n / 64 / 64 == n / 4096 && n / 4096 / 64 == n / 262144;
  }

  lemma {:induction false} Utf8Injective(s: string, t: string)
    requires Utf8(s) == Utf8(t)
    ensures s == t
  {
    if s != "" && t != "" {
      var a, b := Utf8Char(s[0]), Utf8Char(t[0]);
      assert Utf8(s)[0] == a[0] && Utf8(t)[0] == b[0];
      Utf8CharLead(s[0]);
      Utf8CharLead(t[0]);
      assert a == Utf8(s)[..|a|] && b == Utf8(t)[..|b|];
      Utf8CharInjective(s[0], t[0]);
      assert Utf8(s)[|a|..] == Utf8(s[1..]) && Utf8(t)[|b|..] == Utf8(t[1..]);
      Utf8Injective(s[1..], t[1..]);
      assert s == [s[0]] + s[1..] && t == [t[0]] + t[1..];
    }
  }

  // ---- frames ----

  /** setUint32, big-endian; the length wraps at 2^32. */
  function U32be(n: nat): (r: seq<Byte>)
    ensures |r| == 4
  {
    [n / 0x100_0000 % 256, n / 0x1_0000 % 256, n / 256 % 256, n % 256]
  }

  /** Reading a number from its bytes, most significant first. */
  function BigEndian(b: seq<int>): int { if b == [] then 0 else BigEndian(b[..|b| - 1]) * 256 + b[|b| - 1] }

  lemma OneMoreByte(b: seq<int>, x: int)
    ensures BigEndian(b + [x]) == BigEndian(b) * 256 + x
  {
    assert (b + [x])[..|b|] == b;
  }

  lemma FourBytes(a: int, b: int, c: int, d: int)
    ensures BigEndian([a, b, c, d]) == ((a * 256 + b) * 256 + c) * 256 + d
  {
    hide BigEndian;
    OneMoreByte([], a);
    OneMoreByte([a], b);
    OneMoreByte([a, b], c);
    OneMoreByte([a, b, c], d);
    NoBytes();
    assert [] + [a] == [a] && [a] + [b] == [a, b] && [a, b] + [c] == [a, b, c] && [a, b, c] + [d] == [a, b, c, d];
  }

  lemma NoBytes()
    ensures BigEndian([]) == 0
  {
  }

  lemma U32beDenotes(n: nat)
    requires n < TWO32
    ensures BigEndian(U32be(n)) == n
  {
    var b := U32be(n);
    FourBytes(b[0], b[1], b[2], b[3]);
    U32beValue(n);
    assert b == [b[0], b[1], b[2], b[3]];
  }

  function Frame(s: string): seq<Byte> { U32be(|Utf8(s)|) + Utf8(s) }

  function Frames(fields: seq<string>): seq<Byte>
  {
    if fields == [] then [] else Frame(fields[0]) + Frames(fields[1..])
  }

  /** The length of a field fits its prefix (entries are bounded far below this). */
  predicate Framable(s: string) { |Utf8(s)| < TWO32 }

  lemma U32beInjective(a: nat, b: nat)
    requires a < TWO32 && b < TWO32 && U32be(a) == U32be(b)
    ensures a == b
  {
    assert U32be(a)[0] == U32be(b)[0] && U32be(a)[1] == U32be(b)[1];
    assert U32be(a)[2] == U32be(b)[2] && U32be(a)[3] == U32be(b)[3];
    U32beValue(a);
    U32beValue(b);
  }

  lemma U32beValue(n: nat)
    requires n < TWO32
    ensures n == 0x100_0000 * (n / 0x100_0000 % 256) + 0x1_0000 * (n / 0x1_0000 % 256) + 256 * (n / 256 % 256) + n % 256
  {
    assert n / 256 / 256 == n / 0x1_0000 && n / 0x1_0000 / 256 == n / 0x100_0000;
  }

  /** A framed list is uniquely decodable. */
  lemma {:induction false} FramesInjective(xs: seq<string>, ys: seq<string>)
    requires Frames(xs) == Frames(ys)
    requires forall s | s in xs || s in ys :: Framable(s)
    ensures xs == ys
  {
    if xs != [] && ys != [] {
      var a, b := Frame(xs[0]), Frame(ys[0]);
      assert xs[0] in xs && ys[0] in ys;
      assert a[..4] == Frames(xs)[..4] && b[..4] == Frames(ys)[..4];
      assert a[..4] == U32be(|Utf8(xs[0])|) && b[..4] == U32be(|Utf8(ys[0])|);
      U32beInjective(|Utf8(xs[0])|, |Utf8(ys[0])|);
      assert a == Frames(xs)[..|a|] && b == Frames(ys)[..|b|];
      assert a[4..] == Utf8(xs[0]) && b[4..] == Utf8(ys[0]);
      Utf8Injective(xs[0], ys[0]);
      assert Frames(xs)[|a|..] == Frames(xs[1..]) && Frames(ys)[|b|..] == Frames(ys[1..]);
      FramesInjective(xs[1..], ys[1..]);
      assert xs == [xs[0]] + xs[1..] && ys == [ys[0]] + ys[1..];
    }
  }

  // ---- numbers and ids as text ----

  function Digit(d: nat): char
    requires d < 10
  {
    "0123456789"[d]
  }

  function Digits(n: nat): string
  {
    if n < 10 then [Digit(n)] else Digits(n / 10) + [Digit(n % 10)]
  }

  /** dec: the decimal text of a non-negative safe integer; None is ERR_ENTRY_ENCODING. */
  function Dec(n: nat): Option<string> { if n <= MAX_SAFE_INTEGER then Some(Digits(n)) else None }

  lemma {:induction false} DigitsInjective(a: nat, b: nat)
    requires Digits(a) == Digits(b)
    ensures a == b
  {
    DigitsShape(a);
    DigitsShape(b);
    var last := |Digits(a)| - 1;
    assert Digits(a)[last] == Digits(b)[last];
    assert a % 10 == b % 10;
    if a >= 10 {
      assert Digits(a)[..last] == Digits(a / 10) && Digits(b)[..last] == Digits(b / 10);
      DigitsInjective(a / 10, b / 10);
    }
  }

  /** Reading decimal text. */
  function Decimal(s: string): nat
  {
    if s == "" then 0 else Decimal(s[..|s| - 1]) * 10 + if '0' <= s[|s| - 1] <= '9' then (s[|s| - 1] - '0') as nat else 0
  }

  /** The decimal text of a number reads as that number, has only digits, and no leading zero. */
  lemma {:induction false} DigitsDenote(n: nat)
    ensures Decimal(Digits(n)) == n && (forall c | c in Digits(n) :: '0' <= c <= '9') && (n > 0 ==> Digits(n)[0] != '0')
  {
    DigitsShape(n);
    if n >= 10 {
      DigitsDenote(n / 10);
      assert Digits(n)[..|Digits(n)| - 1] == Digits(n / 10);
    } else {
      assert Digits(n)[..0] == "";
    }
  }

  lemma DigitsShape(n: nat)
    ensures |Digits(n)| >= 1 && (|Digits(n)| == 1 <==> n < 10) && Digits(n)[|Digits(n)| - 1] == Digit(n % 10)
    ensures '"' !in Digits(n)
  {
  }

  /** A name as the charter admits it: nothing JSON would have to escape. */
  predicate Charter(s: string) { '"' !in s && '\\' !in s }

  /** jcs of [writer, seq]. */
  function JcsPair(w: string, n: nat): string { "[\"" + w + JcsTail(n) }

  function JcsTail(n: nat): string { "\"" + ("," + Digits(n) + "]") }

  /** jcs of [topic, writer, seq]. */
  function JcsId(id: EntryId): string { "[\"" + id.topic + JcsMiddle(id.writer, id.seqNo) }

  function JcsMiddle(w: string, n: nat): string { "\"" + (",\"" + w + JcsTail(n)) }

  /** The position of the first quotation mark. */
  function FirstQuote(s: string): nat { if s == "" || s[0] == '"' then 0 else 1 + FirstQuote(s[1..]) }

  lemma {:induction false} FirstQuoteOf(a: string, x: string)
    requires Charter(a)
    ensures FirstQuote(a + "\"" + x) == |a|
  {
    var s := a + "\"" + x;
    if a != "" {
      assert s[0] == a[0] && s[1..] == a[1..] + "\"" + x;
      FirstQuoteOf(a[1..], x);
    }
  }

  /** A quoted charter name at the front of a text is determined by it. */
  lemma QuotedPrefix(a: string, b: string, x: string, y: string)
    requires Charter(a) && Charter(b) && a + "\"" + x == b + "\"" + y
    ensures a == b && x == y
  {
    hide FirstQuote;
    var s, t := a + "\"" + x, b + "\"" + y;
    FirstQuoteOf(a, x);
    FirstQuoteOf(b, y);
    assert a == s[..|a|] && b == t[..|b|];
    assert x == s[|a| + 1..] && y == t[|b| + 1..];
  }

  lemma NameThenTail(w: string, n: nat, v: string, m: nat)
    requires Charter(w) && Charter(v) && w + JcsTail(n) == v + JcsTail(m)
    ensures w == v && n == m
  {
    hide Digits;
    var x, y := "," + Digits(n) + "]", "," + Digits(m) + "]";
    assert w + JcsTail(n) == w + "\"" + x && v + JcsTail(m) == v + "\"" + y;
    QuotedPrefix(w, v, x, y);
    assert x[1..|x| - 1] == Digits(n) && y[1..|y| - 1] == Digits(m);
    DigitsInjective(n, m);
  }

  lemma JcsPairInjective(w: string, n: nat, v: string, m: nat)
    requires Charter(w) && Charter(v) && JcsPair(w, n) == JcsPair(v, m)
    ensures w == v && n == m
  {
    hide JcsTail, Digits, Charter;
    assert JcsPair(w, n)[2..] == w + JcsTail(n) && JcsPair(v, m)[2..] == v + JcsTail(m);
    NameThenTail(w, n, v, m);
  }

  lemma JcsIdInjective(a: EntryId, b: EntryId)
    requires Charter(a.topic) && Charter(a.writer) && Charter(b.topic) && Charter(b.writer)
    requires JcsId(a) == JcsId(b)
    ensures a == b
  {
    hide JcsTail, Digits, Charter;
    var x, y := ",\"" + a.writer + JcsTail(a.seqNo), ",\"" + b.writer + JcsTail(b.seqNo);
    assert JcsId(a)[2..] == a.topic + "\"" + x && JcsId(b)[2..] == b.topic + "\"" + y;
    QuotedPrefix(a.topic, b.topic, x, y);
    assert x[2..] == a.writer + JcsTail(a.seqNo) && y[2..] == b.writer + JcsTail(b.seqNo);
    NameThenTail(a.writer, a.seqNo, b.writer, b.seqNo);
  }

  // ---- the preimages ----

  /** The canonical text of a payload; a library's, so taken as given and injective. */
  type Jcs = Json -> string

  ghost predicate Canonical(jcs: Jcs) { forall a, b :: jcs(a) == jcs(b) ==> a == b }

  function SeedFields(topic: string, writer: string): seq<string> { ["seqscribe:v1", topic, writer] }

  /** The twelve fields of a chain hash; None when a number is outside dec's domain. */
  function ChainFields(jcs: Jcs, prev: string, e: Body): Option<seq<string>>
  {
    if Dec(e.seqNo) == None || Dec(e.hlc.l) == None || Dec(e.hlc.c) == None then None
    else Some([
      prev,
      Digits(e.seqNo), Digits(e.hlc.l), Digits(e.hlc.c),
      e.kind,
      if e.key.Some? then e.key.value else "", if e.key.Some? then "1" else "0",
      if e.causal.Some? then JcsPair(e.causal.value.0, e.causal.value.1) else "", if e.causal.Some? then "1" else "0",
      if e.ref.Some? then JcsId(e.ref.value) else "", if e.ref.Some? then "1" else "0",
      jcs(e.payload)])
  }

  /** What validateEntry guarantees of the names inside an entry. */
  predicate CharterNames(e: Body)
  {
    && (e.causal.Some? ==> Charter(e.causal.value.0))
    && (e.ref.Some? ==> Charter(e.ref.value.topic) && Charter(e.ref.value.writer))
  }

  predicate AllFramable(fields: seq<string>) { forall s | s in fields :: Framable(s) }

  function SeedPreimage(topic: string, writer: string): seq<Byte> { Frames(SeedFields(topic, writer)) }

  function ChainPreimage(jcs: Jcs, prev: string, e: Body): Option<seq<Byte>>
  {
    match ChainFields(jcs, prev, e)
    case None => None
    case Some(fields) => Some(Frames(fields))
  }

  /** An entry over a previous chain that the encoder accepts without truncating a length. */
  predicate Encodable(jcs: Jcs, prev: string, e: Body)
  {
    CharterNames(e) && ChainFields(jcs, prev, e).Some? && AllFramable(ChainFields(jcs, prev, e).value)
  }

  /** The bytes determine the previous chain, seq, hlc, kind, key or its absence, causal, ref and payload. */
  lemma ChainPreimageInjective(jcs: Jcs, p: string, e: Body, q: string, f: Body)
    requires Canonical(jcs) && Encodable(jcs, p, e) && Encodable(jcs, q, f)
    requires ChainPreimage(jcs, p, e) == ChainPreimage(jcs, q, f)
    ensures p == q && e == f
  {
    var xs, ys := ChainFields(jcs, p, e).value, ChainFields(jcs, q, f).value;
    FramesInjective(xs, ys);
    assert xs[0] == ys[0] && xs[4] == ys[4] && xs[11] == ys[11];
    assert xs[1] == ys[1] && xs[2] == ys[2] && xs[3] == ys[3];
    DigitsInjective(e.seqNo, f.seqNo);
    DigitsInjective(e.hlc.l, f.hlc.l);
    DigitsInjective(e.hlc.c, f.hlc.c);
    assert xs[5] == ys[5] && xs[6] == ys[6] && xs[7] == ys[7] && xs[8] == ys[8] && xs[9] == ys[9] && xs[10] == ys[10];
    if e.causal.Some? && f.causal.Some? {
      JcsPairInjective(e.causal.value.0, e.causal.value.1, f.causal.value.0, f.causal.value.1);
    }
    if e.ref.Some? && f.ref.Some? {
      JcsIdInjective(e.ref.value, f.ref.value);
    }
    SameFlag(e.key.Some?, f.key.Some?);
    SameFlag(e.causal.Some?, f.causal.Some?);
    SameFlag(e.ref.Some?, f.ref.Some?);
  }

  lemma SameFlag(a: bool, b: bool)
    ensures (if a then "1" else "0") == (if b then "1" else "0") ==> a == b
  {
    assert "1"[0] != "0"[0];
  }

  /** Seeds determine topic and writer, and no seed preimage is a chain preimage. */
  lemma SeedPreimageInjective(topic: string, writer: string, topic': string, writer': string)
    requires AllFramable(SeedFields(topic, writer)) && AllFramable(SeedFields(topic', writer'))
    requires SeedPreimage(topic, writer) == SeedPreimage(topic', writer')
    ensures topic == topic' && writer == writer'
  {
    var xs, ys := SeedFields(topic, writer), SeedFields(topic', writer');
    FramesInjective(xs, ys);
    assert xs[1] == ys[1] && xs[2] == ys[2];
  }

  lemma SeedIsNoChain(jcs: Jcs, topic: string, writer: string, p: string, e: Body)
    requires AllFramable(SeedFields(topic, writer)) && Encodable(jcs, p, e)
    ensures Some(SeedPreimage(topic, writer)) != ChainPreimage(jcs, p, e)
  {
    if Some(SeedPreimage(topic, writer)) == ChainPreimage(jcs, p, e) {
      FramesInjective(SeedFields(topic, writer), ChainFields(jcs, p, e).value);
    }
  }

  // ---- hash chains over any hash ----

  type Hash = seq<Byte> -> string

  /** Two different byte strings of the given sets with one hash. */
  ghost predicate Collide(h: Hash, xs: set<seq<Byte>>, ys: set<seq<Byte>>)
  {
    exists x, y :: x in xs && y in ys && x != y && h(x) == h(y)
  }

  /** Every byte string hashed on the way to a chain. */
  ghost function Hashed(h: Hash, jcs: Jcs, c: Chain): set<seq<Byte>>
    requires Eval(h, jcs, c).Some?
  {
    match c
    case Seed(topic, writer) => {SeedPreimage(topic, writer)}
    case Link(prev, body) => Hashed(h, jcs, prev) + {ChainPreimage(jcs, Eval(h, jcs, prev).value, body).value}
  }

  /** The hash text a chain term stands for; None when an entry in it cannot be encoded. */
  function Eval(h: Hash, jcs: Jcs, c: Chain): Option<string>
  {
    match c
    case Foreign(_) => None
    case Seed(topic, writer) => if AllFramable(SeedFields(topic, writer)) then Some(h(SeedPreimage(topic, writer))) else None
    case Link(prev, body) =>
      match Eval(h, jcs, prev)
      case None => None
      case Some(p) => if Encodable(jcs, p, body) then Some(h(ChainPreimage(jcs, p, body).value)) else None
  }

  lemma Collides(h: Hash, xs: set<seq<Byte>>, ys: set<seq<Byte>>, x: seq<Byte>, y: seq<Byte>)
    requires x in xs && y in ys && x != y && h(x) == h(y)
    ensures Collide(h, xs, ys)
  {
  }

  lemma CollideWider(h: Hash, xs: set<seq<Byte>>, ys: set<seq<Byte>>, xs': set<seq<Byte>>, ys': set<seq<Byte>>)
    requires xs <= xs' && ys <= ys' && Collide(h, xs, ys)
    ensures Collide(h, xs', ys')
  {
  }

  /** The bytes behind the last hash of a chain, and the previous chain's text if there is one. */
  ghost function LastHashed(h: Hash, jcs: Jcs, c: Chain): (x: seq<Byte>)
    requires Eval(h, jcs, c).Some?
    ensures x in Hashed(h, jcs, c) && h(x) == Eval(h, jcs, c).value
  {
    match c
    case Seed(topic, writer) => SeedPreimage(topic, writer)
    case Link(prev, body) => ChainPreimage(jcs, Eval(h, jcs, prev).value, body).value
  }

  /** One step back from equal last preimages. */
  lemma EqualLast(h: Hash, jcs: Jcs, a: Chain, b: Chain)
    requires Canonical(jcs) && Eval(h, jcs, a).Some? && Eval(h, jcs, b).Some?
    requires LastHashed(h, jcs, a) == LastHashed(h, jcs, b)
    ensures a.Seed? ==> a == b
    ensures a.Link? ==> b.Link? && a.body == b.body && Eval(h, jcs, a.prev) == Eval(h, jcs, b.prev)
  {
    hide Encodable, AllFramable, ChainPreimage, SeedPreimage, SeedFields, Canonical, Hashed;
    match (a, b)
    case (Seed(t, w), Seed(t', w')) => SeedPreimageInjective(t, w, t', w');
    case (Link(p, e), Link(q, f)) =>
      EncodableHasPreimage(jcs, Eval(h, jcs, p).value, e);
      EncodableHasPreimage(jcs, Eval(h, jcs, q).value, f);
      ChainPreimageInjective(jcs, Eval(h, jcs, p).value, e, Eval(h, jcs, q).value, f);
    case (Seed(t, w), Link(q, f)) =>
      EncodableHasPreimage(jcs, Eval(h, jcs, q).value, f);
      SeedIsNoChain(jcs, t, w, Eval(h, jcs, q).value, f);
    case (Link(p, e), Seed(t, w)) =>
      EncodableHasPreimage(jcs, Eval(h, jcs, p).value, e);
      SeedIsNoChain(jcs, t, w, Eval(h, jcs, p).value, e);
    case _ =>
  }

  lemma EncodableHasPreimage(jcs: Jcs, p: string, e: Body)
    requires Encodable(jcs, p, e)
    ensures ChainPreimage(jcs, p, e).Some?
  {
  }

  /**
    Equal chain texts come from equal terms, or two byte strings hashed on the way collide: this is what
    lets the rest of the model compare chain terms where the code compares hashes.
  */
  lemma {:induction false} EqualHashEqualTerm(h: Hash, jcs: Jcs, a: Chain, b: Chain)
    requires Canonical(jcs) && Eval(h, jcs, a).Some? && Eval(h, jcs, a) == Eval(h, jcs, b)
    ensures a == b || Collide(h, Hashed(h, jcs, a), Hashed(h, jcs, b))
    decreases a
  {
    hide LastHashed, Collide, Canonical, Encodable, ChainPreimage, AllFramable;
    var x, y := LastHashed(h, jcs, a), LastHashed(h, jcs, b);
    if x != y {
      Collides(h, Hashed(h, jcs, a), Hashed(h, jcs, b), x, y);
    } else {
      EqualLast(h, jcs, a, b);
      if a.Link? {
        EqualHashEqualTerm(h, jcs, a.prev, b.prev);
        if a.prev != b.prev {
          CollideWider(h, Hashed(h, jcs, a.prev), Hashed(h, jcs, b.prev), Hashed(h, jcs, a), Hashed(h, jcs, b));
        }
      }
    }
  }

  /** The chain term of a stream's rows. */
  function ChainTerm(topic: string, writer: string, bodies: seq<Body>): Chain
  {
    if bodies == [] then Seed(topic, writer)
    else Link(ChainTerm(topic, writer, bodies[..|bodies| - 1]), bodies[|bodies| - 1])
  }

  lemma {:induction false} ChainTermInjective(topic: string, writer: string, xs: seq<Body>, topic': string, writer': string, ys: seq<Body>)
    requires ChainTerm(topic, writer, xs) == ChainTerm(topic', writer', ys)
    ensures topic == topic' && writer == writer' && xs == ys
    decreases |xs|
  {
    if xs != [] && ys != [] {
      ChainTermInjective(topic, writer, xs[..|xs| - 1], topic', writer', ys[..|ys| - 1]);
      assert xs == xs[..|xs| - 1] + [xs[|xs| - 1]] && ys == ys[..|ys| - 1] + [ys[|ys| - 1]];
    }
  }

  /** Two verified prefixes with the same head hash are the same stream, row by row; or two of their own preimages collide. */
  lemma EqualHeadsEqualRows(h: Hash, jcs: Jcs, topic: string, writer: string, xs: seq<Body>,
                            topic': string, writer': string, ys: seq<Body>)
    requires Canonical(jcs)
    requires Eval(h, jcs, ChainTerm(topic, writer, xs)).Some?
    requires Eval(h, jcs, ChainTerm(topic, writer, xs)) == Eval(h, jcs, ChainTerm(topic', writer', ys))
    ensures
      || (topic == topic' && writer == writer' && xs == ys)
      || Collide(h, Hashed(h, jcs, ChainTerm(topic, writer, xs)), Hashed(h, jcs, ChainTerm(topic', writer', ys)))
  {
    hide Hashed, Eval, Collide;
    EqualHashEqualTerm(h, jcs, ChainTerm(topic, writer, xs), ChainTerm(topic', writer', ys));
    if ChainTerm(topic, writer, xs) == ChainTerm(topic', writer', ys) {
      ChainTermInjective(topic, writer, xs, topic', writer', ys);
    }
  }
}
