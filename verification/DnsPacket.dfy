/**
 The two sides of the wire format used by the proxy: what the inbound hook reads out of a response,
 and how `create_packet` turns a query into one. Formats are those of sections 4.1.1 to 4.1.4 of
 RFC 1035.
 */
module DnsPacket {
  import opened Bytes
  import opened CStrings
  import opened RbTree

  const HOSTNAME_LEN := 255
  const IPPROTO_UDP := 17
  const DNS_PORT := 53
  const IP_LEN := 20
  const UDP_LEN := 8
  const DNS_LEN := 12
  const R_DATA_LEN := 16

  /** A socket buffer from its IP header on: `len` octets of packet, then whatever else the buffer
      holds. `transport` is the offset of the UDP header. */
  datatype SkBuff = SkBuff(head: seq<byte>, len: nat, transport: nat)

  // ----- reading -----

  /** Octets before the first NUL, looking at no more than `max` of them. */
  function StrNLen(p: seq<byte>, off: nat, max: nat): (n: nat)
    requires off <= |p|
    ensures n <= max && off + n <= |p|
    ensures 0 !in p[off..off + n]
    ensures n < max && off + n < |p| ==> p[off + n] == 0
    decreases |p| - off
  {
    if max == 0 || off == |p| || p[off] == 0 then 0
    else
      var n := 1 + StrNLen(p, off + 1, max - 1);
      assert p[off..off + n] == [p[off]] + p[off + 1..off + n];
      n
  }

  /** The IP header and, for UDP, the UDP header lie in the buffer. */
  predicate HasHeaders(s: SkBuff) {
    IP_LEN <= s.transport && IP_LEN <= |s.head| && (IsUdp(s) ==> s.transport + UDP_LEN <= |s.head|)
  }

  predicate IsUdp(s: SkBuff)
    requires IP_LEN <= |s.head|
  {
    s.head[9] == IPPROTO_UDP
  }

  function NameStart(s: SkBuff): (r: nat) {
    s.transport + UDP_LEN + DNS_LEN
  }

  /** The question name ends inside the buffer and, with its NUL, fits HOSTNAME_LEN: the bound that
      section 2.3.4 of RFC 1035 puts on names. */
  predicate HasName(s: SkBuff) {
    NameStart(s) <= |s.head| &&
    var n := StrNLen(s.head, NameStart(s), HOSTNAME_LEN);
    n < HOSTNAME_LEN && NameStart(s) + n < |s.head|
  }

  function NameOf(s: SkBuff): (r: CStr)
    requires HasName(s)
    ensures |r| < HOSTNAME_LEN
  {
    s.head[NameStart(s)..NameStart(s) + StrNLen(s.head, NameStart(s), HOSTNAME_LEN)]
  }

  /** Where the answer record is looked for: past the name, its NUL, the type and the class. */
  function AnswerStart(s: SkBuff, nameLen: nat): (r: nat) {
    s.transport + UDP_LEN + DNS_LEN + nameLen + 5
  }

  predicate FromDns(s: SkBuff)
    requires HasHeaders(s)
  {
    IsUdp(s) && U16(s.head, s.transport) == DNS_PORT
  }

  predicate ToDns(s: SkBuff)
    requires HasHeaders(s)
  {
    IsUdp(s) && U16(s.head, s.transport + 2) == DNS_PORT
  }

  predicate HasAnswer(s: SkBuff)
    requires HasName(s)
  {
    AnswerStart(s, |NameOf(s)|) + R_DATA_LEN <= |s.head|
  }

  /** The inbound guard as written: a record is turned away only if its type is not A and its data is
      not four octets long. */
  predicate PassesGuard(s: SkBuff)
    requires HasName(s) && HasAnswer(s)
  {
    var r := AnswerStart(s, |NameOf(s)|);
    !(U16(s.head, r + 2) != 1 && U16(s.head, r + 10) != 4)
  }

  /** The node the inbound hook fills in. */
  function Learned(s: SkBuff): (n: DnsNode)
    requires HasName(s) && HasAnswer(s)
    ensures n.host == NameOf(s)
  {
    var r := AnswerStart(s, |NameOf(s)|);
    DnsNode(NameOf(s), U32(s.head, r + 12), U32(s.head, r + 6))
  }

  // ----- the synthesized reply -----

  /** First flag octet, from the low bit: rd, tc, aa, four bits of opcode, qr. Sets qr and rd. */
  function FlagsHigh(b: byte): (r: byte)
    ensures r % 2 == 1 && r / 128 == 1 && r / 2 % 64 == b / 2 % 64
  {
    128 + b / 2 % 64 * 2 + 1
  }

  /** Second flag octet, from the low bit: four bits of response code, cd, ad, z, ra. Sets ra and
      clears ad. */
  function FlagsLow(b: byte): (r: byte)
    ensures r / 32 % 2 == 0 && r / 128 == 1 && r % 32 == b % 32 && r / 64 % 2 == b / 64 % 2
  {
    128 + b / 64 % 2 * 64 + b % 32
  }

  /** The buffer that `skb_copy_expand` returns: the packet's octets and a fresh tail. */
  function Expanded(q: SkBuff, tail: seq<byte>): (b: seq<byte>)
    requires q.len <= |q.head|
    ensures |b| == q.len + |tail|
  {
    q.head[..q.len] + tail
  }

  /** What `create_packet` needs: room for the stores it makes. */
  predicate Answerable(q: SkBuff, node: DnsNode) {
    IP_LEN <= q.transport && AnswerStart(q, |node.host|) <= q.len <= |q.head|
  }

  /** Total length, the two addresses swapped, everything else in the IP header kept. */
  ghost predicate IpRewritten(q: seq<byte>, h: seq<byte>, len: nat)
    requires IP_LEN <= |q| && IP_LEN <= |h|
  {
    && U16(h, 2) == len % 0x1_0000
    && U32(h, 12) == U32(q, 16) && U32(h, 16) == U32(q, 12)
    && forall i :: 0 <= i < 2 || 4 <= i < 12 ==> h[i] == q[i]
  }

  /** The two ports swapped, sixteen octets more, the UDP checksum as it was. */
  ghost predicate UdpRewritten(q: seq<byte>, h: seq<byte>, t: nat)
    requires t + UDP_LEN <= |q| && t + UDP_LEN <= |h|
  {
    && U16(h, t) == U16(q, t + 2) && U16(h, t + 2) == U16(q, t)
    && U16(h, t + 4) == (U16(q, t + 4) + R_DATA_LEN) % 0x1_0000
    && U16(h, t + 6) == U16(q, t + 6)
  }

  /** Same id, response flags, one question, one answer, nothing else. */
  ghost predicate DnsRewritten(q: seq<byte>, h: seq<byte>, d: nat)
    requires d + DNS_LEN <= |q| && d + DNS_LEN <= |h|
  {
    && U16(h, d) == U16(q, d)
    && h[d + 2] == FlagsHigh(q[d + 2]) && h[d + 3] == FlagsLow(q[d + 3])
    && U16(h, d + 4) == 1 && U16(h, d + 6) == 1 && U16(h, d + 8) == 0 && U16(h, d + 10) == 0
  }

  /** A record that points back to the question's name: type A, class IN, the node's ttl and address. */
  ghost predicate AnswerAt(h: seq<byte>, a: nat, node: DnsNode)
    requires a + R_DATA_LEN <= |h|
  {
    && U16(h, a) == 0xc00c && U16(h, a + 2) == 1 && U16(h, a + 4) == 1
    && U32(h, a + 6) == node.ttl && U16(h, a + 10) == 4 && U32(h, a + 12) == node.addr
  }

  /** `r` is the reply to `q` from `node`: rewritten headers, the answer right behind the question, and
      every other octet as the expanded buffer had it. */
  ghost predicate IsReply(q: SkBuff, node: DnsNode, tail: seq<byte>, r: SkBuff)
    requires Answerable(q, node)
  {
    var (t, a, buf) := (q.transport, AnswerStart(q, |node.host|), Expanded(q, tail));
    && r.transport == t && r.len == q.len + R_DATA_LEN <= |r.head| == |buf|
    && IpRewritten(q.head, r.head, r.len) && UdpRewritten(q.head, r.head, t)
    && DnsRewritten(q.head, r.head, t + UDP_LEN) && AnswerAt(r.head, a, node)
    && forall i :: IP_LEN <= i < t || t + 20 <= i < a || a + 16 <= i < |buf| ==> r.head[i] == buf[i]
  }

  // ----- writing -----

  method FillIp(buf: seq<byte>, len: nat) returns (p: seq<byte>)
    requires IP_LEN <= |buf|
    ensures |p| == |buf| && IpRewritten(buf, p, len)
    ensures forall i :: IP_LEN <= i < |p| ==> p[i] == buf[i]
  {
    p := Put16(buf, 2, len);
    var temp := U32(p, 12);
    p := Put32(p, 12, U32(p, 16));
    p := Put32(p, 16, temp);
  }

  method FillUdp(buf: seq<byte>, t: nat) returns (p: seq<byte>)
    requires t + UDP_LEN <= |buf|
    ensures |p| == |buf| && UdpRewritten(buf, p, t)
    ensures forall i :: 0 <= i < t || t + UDP_LEN <= i < |p| ==> p[i] == buf[i]
  {
    var temp := U16(buf, t + 2);
    p := Put16(buf, t + 2, U16(buf, t));
    p := Put16(p, t, temp);
    assert U16(p, t) == U16(buf, t + 2) && U16(p, t + 2) == U16(buf, t);
    assert U16(p, t + 4) == U16(buf, t + 4) && U16(p, t + 6) == U16(buf, t + 6);
    p := Put16(p, t + 4, U16(p, t + 4) + R_DATA_LEN);
  }

  method FillDns(buf: seq<byte>, d: nat) returns (p: seq<byte>)
    requires d + DNS_LEN <= |buf|
    ensures |p| == |buf| && DnsRewritten(buf, p, d)
    ensures forall i :: 0 <= i < d || d + DNS_LEN <= i < |p| ==> p[i] == buf[i]
  {
    p := buf[d + 2 := FlagsHigh(buf[d + 2])];
    p := p[d + 3 := FlagsLow(p[d + 3])];
    p := Put16(p, d + 4, 1);
    p := Put16(p, d + 6, 1);
    p := Put16(p, d + 8, 0);
    p := Put16(p, d + 10, 0);
  }

  method FillAnswer(buf: seq<byte>, a: nat, node: DnsNode) returns (p: seq<byte>)
    requires a + R_DATA_LEN <= |buf|
    ensures |p| == |buf| && AnswerAt(p, a, node)
    ensures forall i :: 0 <= i < a || a + R_DATA_LEN <= i < |p| ==> p[i] == buf[i]
  {
    p := Put16(buf, a, 0xc00c);
    p := Put16(p, a + 2, 1);
    p := Put16(p, a + 4, 1);
    p := Put32(p, a + 6, node.ttl);
    p := Put16(p, a + 10, 4);
    p := Put32(p, a + 12, node.addr);
  }

  ghost predicate Same(p: seq<byte>, q: seq<byte>, from: nat, to: nat) {
    to <= |p| && to <= |q| && forall i :: from <= i < to ==> p[i] == q[i]
  }

  /** A header filled from a copy of the query, and not touched later, is the query's rewritten one. */
  lemma {:induction false} IpKept(q: seq<byte>, a: seq<byte>, p: seq<byte>, r: seq<byte>, len: nat)
    requires Same(q, a, 0, IP_LEN) && Same(p, r, 0, IP_LEN) && IpRewritten(a, p, len)
    ensures IpRewritten(q, r, len)
  {
  }

  lemma {:induction false} UdpKept(q: seq<byte>, a: seq<byte>, p: seq<byte>, r: seq<byte>, t: nat)
    requires Same(q, a, t, t + UDP_LEN) && Same(p, r, t, t + UDP_LEN) && UdpRewritten(a, p, t)
    ensures UdpRewritten(q, r, t)
  {
  }

  lemma {:induction false} DnsKept(q: seq<byte>, a: seq<byte>, p: seq<byte>, r: seq<byte>, d: nat)
    requires Same(q, a, d, d + DNS_LEN) && Same(p, r, d, d + DNS_LEN) && DnsRewritten(a, p, d)
    ensures DnsRewritten(q, r, d)
  {
  }

  /** `create_packet`: copy the query into a larger buffer and overwrite field by field. */
  method CreatePacket(skbOld: SkBuff, node: DnsNode, tail: seq<byte>) returns (skb: SkBuff)
    requires Answerable(skbOld, node) && |tail| >= R_DATA_LEN
    ensures IsReply(skbOld, node, tail, skb)
  {
    var t, len := skbOld.transport, skbOld.len + R_DATA_LEN;
    var copy := Expanded(skbOld, tail);
    var ip := FillIp(copy, len);
    var udp := FillUdp(ip, t);
    var dns := FillDns(udp, t + UDP_LEN);
    var p := FillAnswer(dns, AnswerStart(skbOld, |node.host|), node);
    skb := SkBuff(p, len, t);
    IpKept(skbOld.head, copy, ip, p, len);
    UdpKept(skbOld.head, ip, udp, p, t);
    DnsKept(skbOld.head, udp, dns, p, t + UDP_LEN);
  }

  // ----- reader and writer together -----

  /** Everything about the wire is settled: two replies to the same query from buffers with the same
      tail are equal. */
  lemma {:induction false} ReplyUnique(q: SkBuff, node: DnsNode, tail: seq<byte>, r: SkBuff, s: SkBuff)
    requires Answerable(q, node) && IsReply(q, node, tail, r) && IsReply(q, node, tail, s)
    ensures r == s
  {
    AgreeBelow(q, node, tail, r, tail, s);
    assert r.head == s.head;
  }

  lemma {:induction false} IpAgrees(q: seq<byte>, g: seq<byte>, h: seq<byte>, len: nat)
    requires IP_LEN <= |q| && IP_LEN <= |g| && IP_LEN <= |h|
    requires IpRewritten(q, g, len) && IpRewritten(q, h, len)
    ensures forall i :: 0 <= i < IP_LEN ==> g[i] == h[i]
  {
  }

  lemma {:induction false} UdpDnsAgree(q: seq<byte>, g: seq<byte>, h: seq<byte>, t: nat)
    requires t + 20 <= |q| && t + 20 <= |g| && t + 20 <= |h|
    requires UdpRewritten(q, g, t) && UdpRewritten(q, h, t)
    requires DnsRewritten(q, g, t + UDP_LEN) && DnsRewritten(q, h, t + UDP_LEN)
    ensures forall i :: t <= i < t + 20 ==> g[i] == h[i]
  {
    U16Octets(g, h, t);
    U16Octets(g, h, t + 2);
    U16Octets(g, h, t + 4);
    U16Octets(g, h, t + 6);
    U16Octets(g, h, t + 8);
    U16Octets(g, h, t + 12);
    U16Octets(g, h, t + 14);
    U16Octets(g, h, t + 16);
    U16Octets(g, h, t + 18);
  }

  lemma {:induction false} AnswerAgrees(g: seq<byte>, h: seq<byte>, a: nat, node: DnsNode)
    requires a + R_DATA_LEN <= |g| && a + R_DATA_LEN <= |h|
    requires AnswerAt(g, a, node) && AnswerAt(h, a, node)
    ensures forall i :: a <= i < a + R_DATA_LEN ==> g[i] == h[i]
  {
  }

  /** Up to the end of the answer record no octet depends on the tail. */
  lemma {:induction false} AgreeBelow(q: SkBuff, node: DnsNode, u: seq<byte>, r: SkBuff, v: seq<byte>, s: SkBuff)
    requires Answerable(q, node) && IsReply(q, node, u, r) && IsReply(q, node, v, s)
    ensures forall i :: 0 <= i < AnswerStart(q, |node.host|) + R_DATA_LEN ==> r.head[i] == s.head[i]
  {
    var a := AnswerStart(q, |node.host|);
    IpAgrees(q.head, r.head, s.head, r.len);
    UdpDnsAgree(q.head, r.head, s.head, q.transport);
    AnswerAgrees(r.head, s.head, a, node);
    forall i | IP_LEN <= i < q.transport || q.transport + 20 <= i < a
      ensures r.head[i] == s.head[i]
    {
      assert Expanded(q, u)[i] == q.head[i] == Expanded(q, v)[i];
    }
  }

  /** Running the inbound reader on a synthesized reply gives back exactly the cached node. */
  lemma {:induction false} ReplyReadsBack(q: SkBuff, node: DnsNode, tail: seq<byte>, r: SkBuff)
    requires Answerable(q, node) && IsReply(q, node, tail, r)
    requires HasName(q) && NameOf(q) == node.host
    ensures HasHeaders(r) && HasName(r) && HasAnswer(r) && PassesGuard(r) && Learned(r) == node
    ensures IsUdp(r) <==> IsUdp(q)
  {
    assert r.head[9] == q.head[9];
    QuestionKept(q, node, tail, r);
    SameName(q, r, node.host);
    AnswerReadsBack(r, AnswerStart(q, |node.host|), node);
  }

  lemma {:induction false} AnswerReadsBack(r: SkBuff, a: nat, node: DnsNode)
    requires HasName(r) && NameOf(r) == node.host
    requires a == AnswerStart(r, |node.host|) && a + R_DATA_LEN <= |r.head| && AnswerAt(r.head, a, node)
    ensures HasAnswer(r) && PassesGuard(r) && Learned(r) == node
  {
  }

  lemma {:induction false} QuestionKept(q: SkBuff, node: DnsNode, tail: seq<byte>, r: SkBuff)
    requires Answerable(q, node) && IsReply(q, node, tail, r)
    ensures forall i :: NameStart(q) <= i < AnswerStart(q, |node.host|) ==> r.head[i] == q.head[i]
  {
  }

  lemma {:induction false} SameName(q: SkBuff, r: SkBuff, name: CStr)
    requires HasName(q) && NameOf(q) == name && r.transport == q.transport
    requires NameStart(q) + |name| < |r.head|
    requires forall i :: NameStart(q) <= i <= NameStart(q) + |name| ==> r.head[i] == q.head[i]
    ensures HasName(r) && NameOf(r) == name
  {
  }

  /** The reply comes from the port the query went to, and goes to the port it came from. */
  lemma {:induction false} ReplyPorts(q: SkBuff, node: DnsNode, tail: seq<byte>, r: SkBuff)
    requires Answerable(q, node) && IsReply(q, node, tail, r) && HasHeaders(q)
    ensures HasHeaders(r) && Answerable(r, node)
    ensures FromDns(r) <==> ToDns(q)
    ensures ToDns(r) <==> FromDns(q)
  {
  }

  /** The length fields: the IP total length is the new length exactly when that fits sixteen bits, and
      a UDP length that covered the query's datagram then covers the reply's. */
  lemma {:induction false} ReplyLengths(q: SkBuff, node: DnsNode, tail: seq<byte>, r: SkBuff)
    requires Answerable(q, node) && IsReply(q, node, tail, r)
    ensures U16(r.head, 2) == r.len <==> r.len < 0x1_0000
    ensures U16(q.head, q.transport + 4) == q.len - q.transport && r.len < 0x1_0000 ==>
              U16(r.head, r.transport + 4) == r.len - r.transport
  {
    var t := q.transport;
    assert U16(r.head, 2) == r.len % 0x1_0000;
    assert U16(r.head, t + 4) == (U16(q.head, t + 4) + R_DATA_LEN) % 0x1_0000;
    Low16(r.len);
    Low16(U16(q.head, t + 4) + R_DATA_LEN);
  }

  lemma {:induction false} Low16(x: nat)
    ensures x % 0x1_0000 == x <==> x < 0x1_0000
  {
  }

  /** The packet on the wire, without the rest of the buffer. */
  function Wire(s: SkBuff): (b: seq<byte>)
    requires s.len <= |s.head|
  {
    s.head[..s.len]
  }

  /** If a query ends with its question, the answer record is exactly the sixteen new octets, and what is
      sent is the same whatever the uninitialised tail of the copied buffer holds. If anything follows the
      question, the last octet that is sent is an uninitialised one. */
  lemma {:induction false} StaleOctetsIff(q: SkBuff, node: DnsNode, u: seq<byte>, r: SkBuff, v: seq<byte>, s: SkBuff)
    requires Answerable(q, node) && IsReply(q, node, u, r) && IsReply(q, node, v, s)
    ensures AnswerStart(q, |node.host|) == q.len ==> Wire(r) == Wire(s)
    ensures AnswerStart(q, |node.host|) < q.len ==> Wire(r)[r.len - 1] == u[R_DATA_LEN - 1]
  {
    var a := AnswerStart(q, |node.host|);
    AgreeBelow(q, node, u, r, v, s);
    if a < q.len {
      assert Wire(r)[r.len - 1] == Expanded(q, u)[r.len - 1] == u[R_DATA_LEN - 1];
    }
  }

  // ----- octet by octet -----

  ghost predicate OctetsAt(p: seq<byte>, off: nat, x: seq<byte>) {
    off + |x| <= |p| && forall i :: 0 <= i < |x| ==> p[off + i] == x[i]
  }

  /** The question on the wire: the name, its NUL, and two octets each of type and class. */
  ghost predicate QuestionIs(s: SkBuff, name: CStr, question: seq<byte>) {
    |name| < 255 && |question| == 4 && OctetsAt(s.head, s.transport + 20, name + [0] + question)
  }

  lemma {:induction false} NameIs(s: SkBuff, name: CStr, question: seq<byte>)
    requires QuestionIs(s, name, question)
    ensures HasName(s) && NameOf(s) == name
  {
    var n, wire := s.transport + 20, name + [0] + question;
    forall i | 0 <= i < |name| + 1
      ensures s.head[n + i] == (name + [0])[i]
    {
      assert wire[i] == (name + [0])[i];
    }
    NameLength(s.head, n, name);
    forall i | 0 <= i < |name|
      ensures s.head[n..n + |name|][i] == name[i]
    {
      assert wire[i] == name[i];
    }
  }

  lemma {:induction false} NameLength(p: seq<byte>, off: nat, name: CStr)
    requires |name| < 255 && OctetsAt(p, off, name + [0])
    ensures StrNLen(p, off, 255) == |name|
  {
    var k, wire := StrNLen(p, off, 255), name + [0];
    assert wire[|name|] == 0;
    forall j | off <= j < off + |name|
      ensures p[j] != 0
    {
      assert wire[j - off] == name[j - off] && name[j - off] in name;
    }
    forall j | off <= j < off + k
      ensures p[j] != 0
    {
      assert p[off..off + k][j - off] == p[j];
    }
  }

  /** What the inbound hook makes of the sixteen octets behind a question. */
  lemma {:induction false} RecordRead(s: SkBuff, name: CStr, question: seq<byte>, rec: seq<byte>)
    requires QuestionIs(s, name, question) && |rec| == 16 && OctetsAt(s.head, s.transport + 25 + |name|, rec)
    ensures HasName(s) && HasAnswer(s)
    ensures Learned(s) == DnsNode(name, Quad(rec[12], rec[13], rec[14], rec[15]), Quad(rec[6], rec[7], rec[8], rec[9]))
    ensures PassesGuard(s) <==> rec[2..4] == [0, 1] || rec[10..12] == [0, 4]
  {
    NameIs(s, name, question);
    var a := s.transport + 25 + |name|;
    assert s.head[a + 2] == rec[2] && s.head[a + 3] == rec[3] && s.head[a + 10] == rec[10] && s.head[a + 11] == rec[11];
    assert s.head[a + 6] == rec[6] && s.head[a + 7] == rec[7] && s.head[a + 8] == rec[8] && s.head[a + 9] == rec[9];
    assert s.head[a + 12] == rec[12] && s.head[a + 13] == rec[13] && s.head[a + 14] == rec[14] && s.head[a + 15] == rec[15];
  }

  /** The record of a node as it is sent: a pointer to the name of the question, type A, class IN, the ttl,
      the length of an address, and the address. */
  function RecordOctets(node: DnsNode): (b: seq<byte>) {
    [0xc0, 0x0c, 0, 1, 0, 1, node.ttl.b0, node.ttl.b1, node.ttl.b2, node.ttl.b3,
     0, 4, node.addr.b0, node.addr.b1, node.addr.b2, node.addr.b3]
  }

  /** In the reply to a question its octets are as they were, the sixteen octets behind them are the
      record, and if the query ended with its question nothing follows. */
  lemma {:induction false} ReplyOctets(q: SkBuff, name: CStr, question: seq<byte>, node: DnsNode, tail: seq<byte>, r: SkBuff)
    requires QuestionIs(q, name, question) && node.host == name
    requires Answerable(q, node) && IsReply(q, node, tail, r)
    ensures QuestionIs(r, name, question) && OctetsAt(r.head, q.transport + 25 + |name|, RecordOctets(node))
    ensures q.len == q.transport + 25 + |name| ==> r.len == q.transport + 25 + |name| + 16
  {
    QuestionKept(q, node, tail, r);
    SameOctets(q.head, r.head, q.transport + 20, name + [0] + question);
    PutFields(r.head, q.transport + 25 + |name|, node);
  }

  lemma {:induction false} SameOctets(p: seq<byte>, r: seq<byte>, off: nat, x: seq<byte>)
    requires OctetsAt(p, off, x) && off + |x| <= |r| && forall i :: off <= i < off + |x| ==> r[i] == p[i]
    ensures OctetsAt(r, off, x)
  {
    forall i | 0 <= i < |x|
      ensures r[off + i] == x[i]
    {
      assert p[off + i] == x[i];
    }
  }

  // The headers of a reply in octets: lengths, addresses and ports, id and counts.

  lemma {:induction false} IpOctets(q: seq<byte>, h: seq<byte>, len: nat)
    requires 20 <= |q| && 20 <= |h| && IpRewritten(q, h, len)
    ensures h[12..16] == q[16..20] && h[16..20] == q[12..16]
    ensures 256 * h[2] as int + h[3] as int == len % 0x1_0000
  {
    SameQuad(h, 12, q, 16);
    SameQuad(h, 16, q, 12);
  }

  lemma {:induction false} UdpOctets(q: seq<byte>, h: seq<byte>, t: nat)
    requires t + 8 <= |q| && t + 8 <= |h| && UdpRewritten(q, h, t)
    ensures h[t..t + 2] == q[t + 2..t + 4] && h[t + 2..t + 4] == q[t..t + 2]
    ensures 256 * h[t + 4] as int + h[t + 5] as int == (256 * q[t + 4] as int + q[t + 5] as int + 16) % 0x1_0000
    ensures h[t + 6..t + 8] == q[t + 6..t + 8]
  {
    SameField(h, t, q, t + 2);
    SameField(h, t + 2, q, t);
    SameField(h, t + 6, q, t + 6);
  }

  lemma {:induction false} DnsOctets(q: seq<byte>, h: seq<byte>, d: nat)
    requires d + 12 <= |q| && d + 12 <= |h| && DnsRewritten(q, h, d)
    ensures h[d..d + 2] == q[d..d + 2] && h[d + 4..d + 12] == [0, 1, 0, 1, 0, 0, 0, 0]
    ensures h[d + 2] / 128 == 1 && h[d + 2] % 2 == 1 && h[d + 2] / 2 % 64 == q[d + 2] / 2 % 64
    ensures h[d + 3] / 128 == 1 && h[d + 3] / 32 % 2 == 0
    ensures h[d + 3] % 32 == q[d + 3] % 32 && h[d + 3] / 64 % 2 == q[d + 3] / 64 % 2
  {
    SameField(h, d, q, d);
    U16Is(h, d + 4, 1);
    U16Is(h, d + 6, 1);
    U16Is(h, d + 8, 0);
    U16Is(h, d + 10, 0);
    Counts(h, d + 4);
  }

  lemma {:induction false} SameField(p: seq<byte>, i: nat, q: seq<byte>, j: nat)
    requires i + 2 <= |p| && j + 2 <= |q| && U16(p, i) == U16(q, j)
    ensures p[i..i + 2] == q[j..j + 2]
  {
    U16Is(p, i, U16(q, j));
    U16Is(q, j, U16(q, j));
  }

  lemma {:induction false} SameQuad(p: seq<byte>, i: nat, q: seq<byte>, j: nat)
    requires i + 4 <= |p| && j + 4 <= |q| && U32(p, i) == U32(q, j)
    ensures p[i..i + 4] == q[j..j + 4]
  {
  }

  lemma {:induction false} Counts(p: seq<byte>, d: nat)
    requires d + 8 <= |p| && p[d] == 0 && p[d + 1] == 1 && p[d + 2] == 0 && p[d + 3] == 1
    requires p[d + 4] == 0 && p[d + 5] == 0 && p[d + 6] == 0 && p[d + 7] == 0
    ensures p[d..d + 8] == [0, 1, 0, 1, 0, 0, 0, 0]
  {
  }

  lemma {:induction false} U16Is(p: seq<byte>, off: nat, v: nat)
    requires off + 2 <= |p| && U16(p, off) == v
    ensures p[off] as int == v / 256 && p[off + 1] as int == v % 256
  {
  }

  lemma {:induction false} PutFields(p: seq<byte>, a: nat, node: DnsNode)
    requires a + 16 <= |p| && AnswerAt(p, a, node)
    ensures OctetsAt(p, a, RecordOctets(node))
  {
    U16Is(p, a, 0xc00c);
    U16Is(p, a + 2, 1);
    U16Is(p, a + 4, 1);
    U16Is(p, a + 10, 4);
  }
}
