/**
 * IPv4 addresses as the local provisioner handles them: four bytes, the
 * dotted-decimal text the ledger stores, and Go's `nextIP` increment, which
 * adds in a 64-bit unsigned word and keeps the low 32 bits.
 */
module IPv4 {
  import opened Common

  type Byte = x: int | 0 <= x < 256

  datatype IP = IP(b0: Byte, b1: Byte, b2: Byte, b3: Byte)

  /** A network: an address and a mask, as Go's net.IPNet. */
  datatype IPNet = IPNet(ip: IP, mask: IP)

  /** net.IPv4Mask(255, 255, 255, 255): a single host. */
  const HostMask: IP := IP(255, 255, 255, 255)

  const Two32: int := 0x1_0000_0000
  const Two64: int := 0x1_0000_0000_0000_0000

  /** The address read as a 32-bit big-endian number. */
  function Value(ip: IP): (v: int)
    ensures 0 <= v < Two32
  {
    ip.b0 * 0x100_0000 + ip.b1 * 0x1_0000 + ip.b2 * 0x100 + ip.b3
  }

  /** Two addresses with the same number are the same address. */
  lemma ValueInjective(a: IP, b: IP)
    requires Value(a) == Value(b)
    ensures a == b
  {
    DivBy256(Value(a), a.b0 * 0x1_0000 + a.b1 * 0x100 + a.b2, a.b3);
    DivBy256(Value(b), b.b0 * 0x1_0000 + b.b1 * 0x100 + b.b2, b.b3);
    DivBy256(a.b0 * 0x1_0000 + a.b1 * 0x100 + a.b2, a.b0 * 0x100 + a.b1, a.b2);
    DivBy256(b.b0 * 0x1_0000 + b.b1 * 0x100 + b.b2, b.b0 * 0x100 + b.b1, b.b2);
    DivBy256(a.b0 * 0x100 + a.b1, a.b0, a.b1);
    DivBy256(b.b0 * 0x100 + b.b1, b.b0, b.b1);
  }

  // Quotient and remainder are unique: the three facts the byte arithmetic rests on.

  lemma DivBy256(v: int, q: int, r: int)
    requires v == q * 0x100 + r && 0 <= r < 0x100
    ensures v / 0x100 == q && v % 0x100 == r
  {
  }

  lemma DivBy2p16(v: int, q: int, r: int)
    requires v == q * 0x1_0000 + r && 0 <= r < 0x1_0000
    ensures v / 0x1_0000 == q && v % 0x1_0000 == r
  {
  }

  lemma DivBy2p24(v: int, q: int, r: int)
    requires v == q * 0x100_0000 + r && 0 <= r < 0x100_0000
    ensures v / 0x100_0000 == q && v % 0x100_0000 == r
  {
  }

  lemma DivBy2p32(v: int, q: int, r: int)
    requires v == q * Two32 + r && 0 <= r < Two32
    ensures v / Two32 == q && v % Two32 == r
  {
  }

  /**
   * Go's nextIP(ip, inc): the four bytes are combined into an unsigned
   * 64-bit word, `inc` is added with 64-bit wrap-around, and the bytes are
   * taken back from bits 24..31, 16..23, 8..15 and 0..7. The result is the
   * big-endian value plus `inc`, reduced modulo 2^32.
   */
  function NextIP(ip: IP, inc: nat): (r: IP)
    requires inc < Two64
    ensures Value(r) == (Value(ip) + inc) % Two32
  {
    var v := (Value(ip) + inc) % Two64;
    var r := IP((v / 0x100_0000) % 256, (v / 0x1_0000) % 256, (v / 0x100) % 256, v % 256);
    LowBytes(v);
    LowWordOfSum(Value(ip) + inc);
    r
  }

  /** Re-splitting a word into its low four bytes keeps exactly its value modulo 2^32. */
  lemma LowBytes(v: int)
    requires 0 <= v
    ensures ((v / 0x100_0000) % 256) * 0x100_0000 + ((v / 0x1_0000) % 256) * 0x1_0000
            + ((v / 0x100) % 256) * 0x100 + v % 256 == v % Two32
  {
    var q1, r0 := v / 0x100, v % 0x100;
    var q2, r1 := q1 / 0x100, q1 % 0x100;
    var q3, r2 := q2 / 0x100, q2 % 0x100;
    var q4, r3 := q3 / 0x100, q3 % 0x100;
    DivBy2p16(v, q2, r1 * 0x100 + r0);
    DivBy2p24(v, q3, r2 * 0x1_0000 + r1 * 0x100 + r0);
    DivBy2p32(v, q4, r3 * 0x100_0000 + r2 * 0x1_0000 + r1 * 0x100 + r0);
  }

  /** Wrapping at 2^64 before keeping 32 bits changes nothing: 2^32 divides 2^64. */
  lemma LowWordOfSum(s: int)
    requires 0 <= s
    ensures (s % Two64) % Two32 == s % Two32
  {
    var q, r := s / Two64, s % Two64;
    DivBy2p32(s, q * Two32 + r / Two32, r % Two32);
  }

  /** The broadcast-style top address wraps to 0.0.0.0. */
  lemma NextIPWraps()
    ensures NextIP(IP(255, 255, 255, 255), 1) == IP(0, 0, 0, 0)
  {
    DivBy2p32(Two32, 1, 0);
    ValueInjective(NextIP(IP(255, 255, 255, 255), 1), IP(0, 0, 0, 0));
  }

  /** Below the top address, the next address is numerically one greater. */
  lemma NextIPIncreases(ip: IP)
    requires Value(ip) < Two32 - 1
    ensures Value(NextIP(ip, 1)) == Value(ip) + 1
  {
    DivBy2p32(Value(ip) + 1, 0, Value(ip) + 1);
  }

  // ---------------------------------------------------------------------------
  // text form

  /** One dotted-decimal field: 1 to 3 digits, no leading zero, at most 255. */
  function ParseByte(t: string): (r: Option<Byte>)
    ensures r.Some? ==> |t| >= 1 && forall c :: c in t ==> IsDigit(c)
  {
    if 1 <= |t| <= 3 && (forall c :: c in t ==> IsDigit(c)) && (|t| == 1 || t[0] != '0')
       && DecValue(t) <= 255
    then Some(DecValue(t))
    else None
  }

  /** net.IP.String for an IPv4 address. */
  function Format(ip: IP): (s: string)
    ensures forall c :: c in s ==> IsDigit(c) || c == '.'
  {
    NatText(ip.b0) + "." + NatText(ip.b1) + "." + NatText(ip.b2) + "." + NatText(ip.b3)
  }

  /** net.ParseIP restricted to the dotted-decimal IPv4 form. */
  function Parse(s: string): Option<IP> {
    var p := Split(s, '.');
    if |p| == 4 then ParseFields(p[0], p[1], p[2], p[3]) else None
  }

  function ParseFields(t0: string, t1: string, t2: string, t3: string): Option<IP> {
    var f0, f1, f2, f3 := ParseByte(t0), ParseByte(t1), ParseByte(t2), ParseByte(t3);
    if f0.Some? && f1.Some? && f2.Some? && f3.Some? then Some(IP(f0.value, f1.value, f2.value, f3.value))
    else None
  }

  /** Text whose dot-separated pieces are all digits is made of digits and dots. */
  lemma {:induction false} SplitAllDigits(s: string)
    requires forall k :: 0 <= k < |Split(s, '.')| ==> forall c :: c in Split(s, '.')[k] ==> IsDigit(c)
    ensures forall c :: c in s ==> IsDigit(c) || c == '.'
    decreases |s|
  {
    var p := Split(s, '.');
    if '.' !in s {
      assert p[0] == s;
    } else {
      var i := IndexOf(s, '.');
      var rest := Split(s[i + 1..], '.');
      assert p == [s[..i]] + rest;
      forall k | 0 <= k < |rest|
        ensures forall c :: c in rest[k] ==> IsDigit(c)
      {
        assert rest[k] == p[k + 1];
      }
      SplitAllDigits(s[i + 1..]);
      assert forall c :: c in s[..i] ==> IsDigit(c) by {
        assert p[0] == s[..i];
      }
      assert s == s[..i] + [s[i]] + s[i + 1..];
    }
  }

  /** A valid address is made of digits and dots only (so it holds no '/'). */
  lemma ValidIPChars(s: string)
    requires ValidIP(s)
    ensures forall c :: c in s ==> IsDigit(c) || c == '.'
  {
    var p := Split(s, '.');
    assert |p| == 4;
    assert forall k :: 0 <= k < 4 ==> ParseByte(p[k]).Some?;
    SplitAllDigits(s);
  }

  /** A syntactically valid IPv4 address (the role net.ParseIP plays as a check). */
  predicate ValidIP(s: string) { Parse(s).Some? }

  lemma ParseByteOfText(b: Byte)
    ensures ParseByte(NatText(b)) == Some(b)
  {
    DecValueOfNatText(b);
  }

  /** Reading back the text the ledger stores gives the same address. */
  lemma ParseFormat(ip: IP)
    ensures Parse(Format(ip)) == Some(ip)
  {
    var t0, t1, t2, t3 := NatText(ip.b0), NatText(ip.b1), NatText(ip.b2), NatText(ip.b3);
    FormatFields(ip);
    ParseByteOfText(ip.b0);
    ParseByteOfText(ip.b1);
    ParseByteOfText(ip.b2);
    ParseByteOfText(ip.b3);
    assert ParseFields(t0, t1, t2, t3) == Some(ip);
  }

  lemma FormatFields(ip: IP)
    ensures Split(Format(ip), '.') == [NatText(ip.b0), NatText(ip.b1), NatText(ip.b2), NatText(ip.b3)]
  {
    var t0, t1, t2, t3 := NatText(ip.b0), NatText(ip.b1), NatText(ip.b2), NatText(ip.b3);
    NoDot(t0);
    NoDot(t1);
    NoDot(t2);
    NoDot(t3);
    DottedAssoc(t0, t1, t2, t3);
    SplitFour(t0, t1, t2, t3);
  }

  lemma DottedAssoc(t0: string, t1: string, t2: string, t3: string)
    ensures t0 + "." + t1 + "." + t2 + "." + t3 == t0 + ['.'] + (t1 + ['.'] + (t2 + ['.'] + t3))
  {
  }

  lemma SplitFour(t0: string, t1: string, t2: string, t3: string)
    requires '.' !in t0 && '.' !in t1 && '.' !in t2 && '.' !in t3
    ensures Split(t0 + ['.'] + (t1 + ['.'] + (t2 + ['.'] + t3)), '.') == [t0, t1, t2, t3]
  {
    SplitThree(t1, t2, t3);
    SplitJoin(t0, '.', t1 + ['.'] + (t2 + ['.'] + t3));
  }

  lemma SplitThree(t1: string, t2: string, t3: string)
    requires '.' !in t1 && '.' !in t2 && '.' !in t3
    ensures Split(t1 + ['.'] + (t2 + ['.'] + t3), '.') == [t1, t2, t3]
  {
    SplitJoin(t2, '.', t3);
    SplitJoin(t1, '.', t2 + ['.'] + t3);
  }

  lemma NoDot(t: string)
    requires forall c :: c in t ==> IsDigit(c)
    ensures '.' !in t
  {
  }

  /** CIDR text of a host network ("a.b.c.d/32"), as net.IPNet.String prints it. */
  function HostNetText(n: IPNet): (s: string)
    requires n.mask == HostMask
    ensures HasSuffix(s, "/32") && s[..|s| - 3] == Format(n.ip)
  {
    Format(n.ip) + "/32"
  }
}
