/**
 The Internet checksum of ping and raw_socket, on a little-endian machine: a deferred-carry sum with
 two folds against the one's complement sum of section 1 of RFC 1071.
 */
module InternetChecksum {
  import opened Bytes

  const INT_MAX := 0x7FFF_FFFF
  const LONG_MAX := 0x7FFF_FFFF_FFFF_FFFF

  // ----- the definition to meet -----

  /** The sixteen-bit words of a buffer; an odd last octet is the low half of a last word. */
  function Words(b: seq<byte>): (ws: seq<nat>)
    ensures forall i :: 0 <= i < |ws| ==> ws[i] <= 0xFFFF
  {
    if b == [] then []
    else if |b| == 1 then [b[0]]
    else [b[0] as int + 256 * b[1] as int] + Words(b[2..])
  }

  /** One's complement addition: the carry out of the top comes back in at the bottom. */
  function OnesAdd(x: nat, y: nat): (r: nat) {
    if x + y > 0xFFFF then x + y - 0xFFFF else x + y
  }

  function OnesSum(ws: seq<nat>): (r: nat) {
    if ws == [] then 0 else OnesAdd(OnesSum(ws[..|ws| - 1]), ws[|ws| - 1])
  }

  /** The checksum of RFC 1071: the complement of the one's complement sum. */
  function Rfc1071(b: seq<byte>): (r: int) {
    0xFFFF - OnesSum(Words(b))
  }

  // ----- sums with deferred carries -----

  function Total(b: seq<byte>): (s: nat) {
    if b == [] then 0
    else if |b| == 1 then b[0]
    else b[0] as int + 256 * b[1] as int + Total(b[2..])
  }

  lemma {:induction false} TotalBound(b: seq<byte>)
    ensures Total(b) <= 0xFFFF * (|b| / 2) + 0xFF * (|b| % 2)
  {
    if |b| >= 2 {
      TotalBound(b[2..]);
      assert |b| / 2 == 1 + |b[2..]| / 2;
    }
  }

  /** An odd last octet counts as if a zero octet followed it. */
  lemma {:induction false} OddIsPadded(b: seq<byte>)
    requires |b| % 2 == 1
    ensures Total(b) == Total(b + [0]) && Words(b) == Words(b + [0])
  {
    if |b| > 1 {
      OddIsPadded(b[2..]);
      assert (b + [0])[2..] == b[2..] + [0];
    } else {
      assert (b + [0])[2..] == [];
    }
  }

  function Sum(ws: seq<nat>): (s: nat) {
    if ws == [] then 0 else ws[0] + Sum(ws[1..])
  }

  lemma {:induction false} TotalIsSum(b: seq<byte>)
    ensures Total(b) == Sum(Words(b))
  {
    if |b| >= 2 {
      TotalIsSum(b[2..]);
      assert Words(b)[1..] == Words(b[2..]);
    }
  }

  lemma {:induction false} SumSplit(a: seq<nat>, b: seq<nat>)
    ensures Sum(a + b) == Sum(a) + Sum(b)
  {
    if a == [] {
      assert a + b == b;
    } else {
      SumSplit(a[1..], b);
      assert (a + b)[1..] == a[1..] + b;
    }
  }

  /** The representative of a sum modulo 0xFFFF that repeated end-around carries arrive at: zero only
      for zero. */
  function Residue(s: nat): (r: nat)
    ensures r <= 0xFFFF && (r == 0 <==> s == 0)
  {
    if s == 0 then 0 else (s - 1) % 0xFFFF + 1
  }

  lemma {:induction false} OnesAddResidue(s: nat, w: nat)
    requires w <= 0xFFFF
    ensures OnesAdd(Residue(s), w) == Residue(s + w)
  {
  }

  lemma {:induction false} OnesSumIsResidue(ws: seq<nat>)
    requires forall i :: 0 <= i < |ws| ==> ws[i] <= 0xFFFF
    ensures OnesSum(ws) == Residue(Sum(ws))
  {
    if ws != [] {
      var init, last := ws[..|ws| - 1], ws[|ws| - 1];
      OnesSumIsResidue(init);
      OnesAddResidue(Sum(init), last);
      SumSplit(init, [last]);
      assert ws == init + [last] && Sum([last]) == last;
    }
  }

  // ----- the folds -----

  function Fold(s: nat): (r: nat) {
    s / 0x1_0000 + s % 0x1_0000
  }

  /** What both implementations do with their sum: fold once, add the carry of that, complement, and
      keep sixteen bits. */
  function Finish(s: nat): (r: nat)
    ensures r <= 0xFFFF
  {
    var f := Fold(s);
    0xFFFF - (f + f / 0x1_0000) % 0x1_0000
  }

  /** A third fold would have nothing left to carry. */
  predicate Settles(s: nat) {
    Fold(Fold(s)) < 0x1_0000
  }

  lemma {:induction false} FoldResidue(s: nat)
    ensures Residue(Fold(s)) == Residue(s)
  {
    assert s == 0x1_0000 * (s / 0x1_0000) + s % 0x1_0000;
    assert s == 0xFFFF * (s / 0x1_0000) + Fold(s);
    ResidueShift(Fold(s), s / 0x1_0000);
  }

  lemma {:induction false} ResidueShift(r: nat, k: nat)
    requires r == 0 ==> k == 0
    ensures Residue(0xFFFF * k + r) == Residue(r)
  {
    if k > 0 {
      ResidueShift(r, k - 1);
      assert (0xFFFF * k + r - 1) % 0xFFFF == (0xFFFF * (k - 1) + r - 1) % 0xFFFF;
    }
  }

  lemma {:induction false} FinishIsSecondFold(s: nat)
    ensures Finish(s) == 0xFFFF - Fold(Fold(s)) % 0x1_0000
  {
    var f := Fold(s);
    var q, r := f / 0x1_0000, f % 0x1_0000;
    assert f + q == 0x1_0000 * q + (q + r);
  }

  /** Two folds give the one's complement answer exactly for the sums that settle. The bound is beyond
      every sum that an `int` length allows. */
  lemma {:induction false} FinishIff(s: nat)
    requires s < 0x1_0000_0000_0000
    ensures Finish(s) == 0xFFFF - Residue(s) <==> Settles(s)
  {
    FinishIsSecondFold(s);
    FoldResidue(s);
    FoldResidue(Fold(s));
    assert Fold(s) < 0x1_0001_0000;
    SettledIff(Fold(Fold(s)));
  }

  lemma {:induction false} SettledIff(g: nat)
    requires g < 0x2_0000
    ensures g % 0x1_0000 == Residue(g) <==> g < 0x1_0000
  {
  }

  // ----- the exact bound -----

  lemma {:induction false} ShortSettles(b: seq<byte>)
    requires |b| <= 131076
    ensures Settles(Total(b))
  {
    TotalBound(b);
    assert Total(b) <= 0x1_0000_0000 + 65534;
  }

  lemma {:induction false} FinishIsRfc1071(b: seq<byte>)
    requires |b| <= INT_MAX
    ensures Finish(Total(b)) == Rfc1071(b) <==> Settles(Total(b))
    ensures |b| <= 131076 ==> Finish(Total(b)) == Rfc1071(b)
  {
    TotalBound(b);
    FinishIff(Total(b));
    TotalIsSum(b);
    OnesSumIsResidue(Words(b));
    if |b| <= 131076 { ShortSettles(b); }
  }

  function AllOnes(n: nat): (b: seq<byte>)
    ensures |b| == n
  {
    seq(n, i => 0xFF)
  }

  lemma {:induction false} AllOnesTotal(k: nat, last: seq<byte>)
    requires |last| <= 1
    ensures Total(AllOnes(2 * k) + last) == 0xFFFF * k + Total(last)
  {
    if k == 0 {
      assert AllOnes(0) + last == last;
    } else {
      AllOnesTotal(k - 1, last);
      assert (AllOnes(2 * k) + last)[2..] == AllOnes(2 * (k - 1)) + last;
    }
  }

  /** One octet more than the bound, and two folds can be one short. */
  lemma {:induction false} BoundIsSharp()
    ensures exists b: seq<byte> :: |b| == 131077 && Finish(Total(b)) != Rfc1071(b)
  {
    var b := AllOnes(2 * 65538) + [1];
    AllOnesTotal(65538, [1]);
    assert !Settles(Total(b));
    FinishIsRfc1071(b);
    assert |b| == 131077;
  }

  // ----- the loops -----

  /** The octets that a C length selects: none for a negative one. */
  function Range(buf: seq<byte>, nbytes: int): (b: seq<byte>)
    requires nbytes <= |buf|
  {
    if nbytes < 0 then [] else buf[..nbytes]
  }

  /** The word loop with a `long` accumulator: for every `int` length the sum stays in range. */
  method SumWords(buf: seq<byte>, nbytes: int) returns (sum: nat)
    requires -INT_MAX - 1 <= nbytes <= INT_MAX && nbytes <= |buf|
    ensures sum == Total(Range(buf, nbytes)) <= LONG_MAX
  {
    ghost var b := Range(buf, nbytes);
    var ptr, left := 0, nbytes;
    sum := 0;
    TotalBound(b);
    while left > 1
      invariant 0 <= ptr <= |b| && left == nbytes - ptr
      invariant sum + Total(b[ptr..]) == Total(b)
    {
      assert b[ptr..][2..] == b[ptr + 2..];
      var word := buf[ptr] as int + 256 * buf[ptr + 1] as int;
      assert sum + word <= Total(b) <= LONG_MAX;
      sum := sum + word;
      ptr := ptr + 2;
      left := left - 2;
    }
    if left == 1 {
      assert b[ptr..] == [buf[ptr]];
      sum := sum + buf[ptr];
    }
  }

  /** ping and traceroute. The result is the checksum of RFC 1071 exactly for the sums that settle,
      and so for every length up to 131076. */
  method Checksum(buf: seq<byte>, nbytes: int) returns (r: nat)
    requires -INT_MAX - 1 <= nbytes <= INT_MAX && nbytes <= |buf|
    ensures r == Finish(Total(Range(buf, nbytes)))
    ensures r == Rfc1071(Range(buf, nbytes)) <==> Settles(Total(Range(buf, nbytes)))
    ensures nbytes <= 131076 ==> r == Rfc1071(Range(buf, nbytes))
  {
    ghost var b := Range(buf, nbytes);
    var sum := SumWords(buf, nbytes);
    sum := sum / 0x1_0000 + sum % 0x1_0000;
    sum := sum + sum / 0x1_0000;
    r := 0xFFFF - sum % 0x1_0000;
    assert r == Finish(Total(b));
    FinishIsRfc1071(b);
  }

  /** raw_socket: an `int` accumulator. `None` is signed overflow, which C leaves undefined: it happens
      exactly when the total is beyond INT_MAX, and otherwise the two versions agree. */
  method RawChecksum(buf: seq<byte>, len: int) returns (r: Option<nat>)
    requires -INT_MAX - 1 <= len <= INT_MAX && len <= |buf|
    ensures r.Some? <==> Total(Range(buf, len)) <= INT_MAX
    ensures r.Some? ==> r.value == Finish(Total(Range(buf, len)))
    ensures len <= 65537 ==> r.Some?
  {
    ghost var b := Range(buf, len);
    var sum, w, nleft := 0, 0, len;
    TotalBound(b);
    while nleft > 1
      invariant 0 <= w <= |b| && nleft == len - w
      invariant sum + Total(b[w..]) == Total(b)
      invariant sum <= INT_MAX
    {
      assert b[w..][2..] == b[w + 2..];
      var word := buf[w] as int + 256 * buf[w + 1] as int;
      if sum + word > INT_MAX {
        return None;
      }
      sum := sum + word;
      w := w + 2;
      nleft := nleft - 2;
    }
    if nleft == 1 {
      assert b[w..] == [buf[w]];
      var answer: int := buf[w];
      if sum + answer > INT_MAX {
        return None;
      }
      sum := sum + answer;
    }
    assert sum == Total(b);
    sum := sum / 0x1_0000 + sum % 0x1_0000;
    sum := sum + sum / 0x1_0000;
    r := Some(0xFFFF - sum % 0x1_0000);
  }

  /** 65537 octets is the longest length that can never overflow. */
  lemma {:induction false} IntBoundIsSharp()
    ensures Total(AllOnes(65538)) > INT_MAX
  {
    AllOnesTotal(32769, []);
    assert AllOnes(2 * 32769) + [] == AllOnes(65538);
  }

  // ----- storing the checksum -----

  function WordAt(b: seq<byte>, off: nat): (w: nat)
    requires off + 2 <= |b|
  {
    b[off] as int + 256 * b[off + 1] as int
  }

  function SetWord(b: seq<byte>, off: nat, w: nat): (r: seq<byte>)
    requires off + 2 <= |b| && w <= 0xFFFF
    ensures |r| == |b| && WordAt(r, off) == w
  {
    b[off := w % 256][off + 1 := w / 256]
  }

  lemma {:induction false} TotalSetWord(b: seq<byte>, off: nat, w: nat)
    requires off % 2 == 0 && off + 2 <= |b| && w <= 0xFFFF
    ensures Total(SetWord(b, off, w)) + WordAt(b, off) == Total(b) + w
  {
    var c := SetWord(b, off, w);
    if off == 0 {
      assert c[2..] == b[2..];
    } else {
      TotalSetWord(b[2..], off - 2, w);
      assert c[2..] == SetWord(b[2..], off - 2, w);
    }
  }

  /** Zero the field, sum, store the result: the finished packet sums to zero. For any content, any
      even field offset and any length within the fold bound. */
  lemma {:induction false} ChecksumVerifies(b: seq<byte>, off: nat)
    requires off % 2 == 0 && off + 2 <= |b| <= 131076
    ensures var zeroed := SetWord(b, off, 0);
            Finish(Total(SetWord(zeroed, off, Finish(Total(zeroed))))) == 0
  {
    var z := SetWord(b, off, 0);
    var c := Finish(Total(z));
    var p := SetWord(z, off, c);
    TotalSetWord(z, off, c);
    ShortSettles(z);
    ShortSettles(p);
    TotalBound(z);
    TotalBound(p);
    FinishIff(Total(z));
    FinishIff(Total(p));
    ComplementCloses(Total(z));
  }

  lemma {:induction false} ComplementCloses(s: nat)
    ensures Residue(s + (0xFFFF - Residue(s))) == 0xFFFF
  {
    if s > 0 {
      var k := (s - 1) / 0xFFFF;
      assert s + (0xFFFF - Residue(s)) == 0xFFFF * k + 0xFFFF;
      ResidueShift(0xFFFF, k);
    }
  }

  /** Sum a packet whose checksum field is zero and store the result there. */
  method StoreChecksum(packet: array<byte>, off: nat)
    requires off % 2 == 0 && off + 2 <= packet.Length <= 131076
    requires packet[off] == packet[off + 1] == 0
    modifies packet
    ensures forall i :: 0 <= i < packet.Length && i != off && i != off + 1 ==> packet[i] == old(packet[i])
    ensures Finish(Total(packet[..])) == 0
  {
    ghost var b := packet[..];
    assert b[..packet.Length] == b && SetWord(b, off, 0) == b;
    ChecksumVerifies(b, off);
    var c := Checksum(packet[..], packet.Length);
    packet[off], packet[off + 1] := c % 256, c / 256;
    assert packet[..] == SetWord(b, off, c);
  }

  const ICMP_SIZE := 8
  const PAYLOAD_SIZE := 48

  /** The echo request of ping, filled in place: the packet that is sent passes its own check. */
  method FillEcho(packet: array<byte>, pid: nat, sequence: nat)
    requires packet.Length == ICMP_SIZE + PAYLOAD_SIZE
    modifies packet
    ensures packet[0] == 8 && packet[1] == 0
    ensures packet[4] as int * 256 + packet[5] as int == pid % 0x1_0000
    ensures packet[6] as int * 256 + packet[7] as int == sequence % 0x1_0000
    ensures forall i :: ICMP_SIZE <= i < packet.Length ==> packet[i] == old(packet[i])
    ensures Finish(Total(packet[..])) == 0
  {
    packet[0] := 8;
    packet[2], packet[3] := 0, 0;
    packet[1] := 0;
    var id, number := Htons(pid), Htons(sequence);
    packet[4], packet[5] := id.0, id.1;
    packet[6], packet[7] := number.0, number.1;
    StoreChecksum(packet, 2);
  }

  // ----- order of words and of octets -----

  lemma {:induction false} SumPermutes(a: seq<nat>, b: seq<nat>)
    requires multiset(a) == multiset(b)
    ensures Sum(a) == Sum(b)
  {
    if a == [] {
      assert |multiset(b)| == 0;
    } else {
      assert a[0] in multiset(b);
      var j :| 0 <= j < |b| && b[j] == a[0];
      var rest := b[..j] + b[j + 1..];
      RemoveAt(b, j);
      RestPermutes(a, b, j);
      SumPermutes(a[1..], rest);
    }
  }

  lemma {:induction false} RestPermutes(a: seq<nat>, b: seq<nat>, j: nat)
    requires multiset(a) == multiset(b) && a != [] && j < |b| && b[j] == a[0]
    ensures multiset(a[1..]) == multiset(b[..j] + b[j + 1..])
  {
    var rest := b[..j] + b[j + 1..];
    assert a == [a[0]] + a[1..];
    assert b == b[..j] + [b[j]] + b[j + 1..];
    assert multiset(a[1..]) == multiset(a) - multiset{a[0]};
    assert multiset(rest) == multiset(b) - multiset{a[0]};
  }

  lemma {:induction false} RemoveAt(b: seq<nat>, j: nat)
    requires j < |b|
    ensures Sum(b) == b[j] + Sum(b[..j] + b[j + 1..])
  {
    SumSplit(b[..j], b[j + 1..]);
    SumSplit(b[..j], b[j..]);
    assert b == b[..j] + b[j..];
    assert b[j..] == [b[j]] + b[j + 1..];
  }

  /** The words may be summed in any order. */
  lemma {:induction false} WordOrderIrrelevant(a: seq<byte>, b: seq<byte>)
    requires multiset(Words(a)) == multiset(Words(b))
    ensures Finish(Total(a)) == Finish(Total(b))
  {
    TotalIsSum(a);
    TotalIsSum(b);
    SumPermutes(Words(a), Words(b));
  }

  function Swap16(w: nat): (r: nat)
    requires w <= 0xFFFF
    ensures r <= 0xFFFF
  {
    w % 256 * 256 + w / 256
  }

  function SwapWords(b: seq<byte>): (r: seq<byte>)
    requires |b| % 2 == 0
    ensures |r| == |b|
  {
    if b == [] then [] else [b[1], b[0]] + SwapWords(b[2..])
  }

  /** Swapping the octets of every word multiplies the sum by 256, modulo 0xFFFF. */
  lemma {:induction false} SwapTotal(b: seq<byte>) returns (k: nat)
    requires |b| % 2 == 0
    ensures 256 * Total(b) == Total(SwapWords(b)) + 0xFFFF * k
    ensures Total(b) == 0 <==> Total(SwapWords(b)) == 0
  {
    if b == [] {
      k := 0;
    } else {
      k := SwapTotal(b[2..]);
      assert SwapWords(b)[2..] == SwapWords(b[2..]);
      k := k + b[1];
    }
  }

  lemma {:induction false} Swap16Residue(r: nat)
    requires 0 < r <= 0xFFFF
    ensures 256 * r == Swap16(r) + 0xFFFF * (r / 256) && Residue(Swap16(r)) == Swap16(r) > 0
  {
    var hi, lo := r / 256, r % 256;
    assert r == 256 * hi + lo;
  }

  lemma {:induction false} SwapResidue(s: nat, t: nat, k: nat)
    requires 256 * s == t + 0xFFFF * k && (s == 0 <==> t == 0)
    ensures Residue(t) == Swap16(Residue(s))
  {
    if s > 0 {
      var q, r := (s - 1) / 0xFFFF, Residue(s);
      Swap16Residue(r);
      var w := Swap16(r);
      assert t == w + 0xFFFF * (256 * q + r / 256 - k) by {
        assert s == 0xFFFF * q + r;
      }
      SameResidue(t, w, 256 * q + r / 256 - k);
    }
  }

  lemma {:induction false} SameResidue(x: nat, y: nat, d: int)
    requires x > 0 && y > 0 && x == y + 0xFFFF * d
    ensures Residue(x) == Residue(y)
  {
    if d >= 0 { ResidueShift(y, d); } else { ResidueShift(x, -d); }
  }

  /** Byte order independence, section 2 of RFC 1071. */
  lemma {:induction false} ByteOrderIndependent(b: seq<byte>)
    requires |b| % 2 == 0 && |b| <= 131076
    ensures Finish(Total(SwapWords(b))) == Swap16(Finish(Total(b)))
  {
    var c := SwapWords(b);
    var k := SwapTotal(b);
    SwapResidue(Total(b), Total(c), k);
    ShortSettles(b);
    ShortSettles(c);
    TotalBound(b);
    TotalBound(c);
    FinishIff(Total(b));
    FinishIff(Total(c));
    SwapComplement(Residue(Total(b)));
  }

  lemma {:induction false} SwapComplement(w: nat)
    requires w <= 0xFFFF
    ensures Swap16(0xFFFF - w) == 0xFFFF - Swap16(w)
  {
    var hi, lo := w / 256, w % 256;
    assert 0xFFFF - w == 256 * (255 - hi) + (255 - lo);
  }
}
