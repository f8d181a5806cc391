/**
 The nested walk over a netlink reply: messages, and inside route messages their attributes, both laid
 out as headers with a length, padded to four octets (section 2.3.2 of RFC 3549).
 */
module Netlink {
  import opened Bytes

  const NLMSG_HDRLEN := 16
  const RTA_HDRLEN := 4
  const RTMSG_LEN := 12
  const RT_TABLE_MAIN := 254
  const RTM_NEWROUTE := 24
  const RTA_DST := 1
  const RTA_OIF := 4
  const RTA_GATEWAY := 5
  const RTA_PREFSRC := 7

  /** The two header forms: `struct nlmsghdr` and `struct rtattr`. */
  datatype Format = NlMsg | RtAttr

  function Hdr(f: Format): (n: nat) {
    if f.NlMsg? then NLMSG_HDRLEN else RTA_HDRLEN
  }

  function Align(n: nat): (r: nat)
    ensures n <= r < n + 4 && r % 4 == 0
  {
    n + (4 - n % 4) % 4
  }

  /** Little-endian fields. */
  function Le16(b: seq<byte>, off: nat): (v: nat)
    requires off + 2 <= |b|
  {
    b[off] as int + 256 * b[off + 1] as int
  }

  function Le32(b: seq<byte>, off: nat): (v: nat)
    requires off + 4 <= |b|
  {
    Le16(b, off) + 0x1_0000 * Le16(b, off + 2)
  }

  function LenAt(f: Format, b: seq<byte>, off: nat): (n: nat)
    requires off + Hdr(f) <= |b|
  {
    if f.NlMsg? then Le32(b, off) else Le16(b, off)
  }

  function KindAt(f: Format, b: seq<byte>, off: nat): (n: nat)
    requires off + Hdr(f) <= |b|
  {
    if f.NlMsg? then Le16(b, off + 4) else Le16(b, off + 2)
  }

  /** Something the walk stands on: where its header is, and its length with the header. */
  datatype Item = Item(kind: nat, off: nat, len: nat)

  /** NLMSG_OK and RTA_OK. */
  predicate Ok(f: Format, b: seq<byte>, off: nat, len: int)
    requires len > 0 ==> off + len <= |b|
  {
    len >= Hdr(f) && LenAt(f, b, off) >= Hdr(f) && LenAt(f, b, off) <= len
  }

  /** The items a walk over `len` octets from `off` visits. */
  function Walk(f: Format, b: seq<byte>, off: nat, len: int): (r: seq<Item>)
    requires len > 0 ==> off + len <= |b|
    decreases if len > 0 then len else 0
  {
    if Ok(f, b, off, len) then
      var n := LenAt(f, b, off);
      [Item(KindAt(f, b, off), off, n)] + Walk(f, b, off + Align(n), len - Align(n))
    else []
  }

  /** Each item lies between the bounds, carries at least its header, and ends before the next starts. */
  ghost predicate Inside(f: Format, w: seq<Item>, lo: int, hi: int) {
    && (forall i :: 0 <= i < |w| ==> lo <= w[i].off && Hdr(f) <= w[i].len && w[i].off + w[i].len <= hi)
    && (forall i, j :: 0 <= i < j < |w| ==> w[i].off + w[i].len <= w[j].off)
  }

  lemma {:induction false} InsideCons(f: Format, m: Item, w: seq<Item>, hi: int)
    requires Inside(f, w, m.off + Align(m.len), hi) && Hdr(f) <= m.len && m.off + m.len <= hi
    ensures Inside(f, [m] + w, m.off, hi)
  {
  }

  /** For every buffer the walk ends, and keeps each visited item inside what was left of the length. */
  lemma {:induction false} WalkInside(f: Format, b: seq<byte>, off: nat, len: int)
    requires len > 0 ==> off + len <= |b|
    ensures Inside(f, Walk(f, b, off, len), off, off + len)
    decreases if len > 0 then len else 0
  {
    if Ok(f, b, off, len) {
      var n := LenAt(f, b, off);
      var (m, w) := (Item(KindAt(f, b, off), off, n), Walk(f, b, off + Align(n), len - Align(n)));
      WalkInside(f, b, off + Align(n), len - Align(n));
      assert Inside(f, w, m.off + Align(m.len), off + len);
      InsideCons(f, m, w, off + len);
      assert Walk(f, b, off, len) == [m] + w;
    }
  }

  // ----- the loops -----

  function Word(b: seq<byte>, off: nat): (q: Quad)
    requires off + 4 <= |b|
  {
    U32(b, off)
  }

  /** The fields that attributes fill in; `None` was not assigned. */
  datatype RouteInfo = RouteInfo(dst: Option<Quad>, src: Option<Quad>, gateway: Option<Quad>, oif: Option<Quad>)

  /** The value of the last attribute of a kind. */
  function LastOf(b: seq<byte>, items: seq<Item>, kind: nat): (r: Option<Quad>)
    requires forall i :: 0 <= i < |items| && items[i].kind == kind ==> items[i].off + 8 <= |b|
  {
    if items == [] then None
    else if items[|items| - 1].kind == kind then Some(Word(b, items[|items| - 1].off + RTA_HDRLEN))
    else LastOf(b, items[..|items| - 1], kind)
  }

  /** The first four data octets of the attributes that are looked into lie in the buffer. */
  predicate DataReadable(b: seq<byte>, items: seq<Item>) {
    forall i :: 0 <= i < |items| && items[i].kind in {RTA_DST, RTA_OIF, RTA_GATEWAY, RTA_PREFSRC} ==>
      items[i].off + 8 <= |b|
  }

  function InfoOf(b: seq<byte>, items: seq<Item>): (r: RouteInfo)
    requires DataReadable(b, items)
  {
    RouteInfo(LastOf(b, items, RTA_DST), LastOf(b, items, RTA_PREFSRC), LastOf(b, items, RTA_GATEWAY),
              LastOf(b, items, RTA_OIF))
  }

  /** The switch in `print_route`. */
  function Assign(info: RouteInfo, b: seq<byte>, item: Item): (r: RouteInfo)
    requires DataReadable(b, [item])
  {
    assert [item][0] == item;
    if item.kind == RTA_OIF then info.(oif := Some(Word(b, item.off + RTA_HDRLEN)))
    else if item.kind == RTA_GATEWAY then info.(gateway := Some(Word(b, item.off + RTA_HDRLEN)))
    else if item.kind == RTA_PREFSRC then info.(src := Some(Word(b, item.off + RTA_HDRLEN)))
    else if item.kind == RTA_DST then info.(dst := Some(Word(b, item.off + RTA_HDRLEN)))
    else info
  }

  function AssignAll(info: RouteInfo, b: seq<byte>, items: seq<Item>): (r: RouteInfo)
    requires DataReadable(b, items)
    decreases |items|
  {
    if items == [] then info
    else
      assert DataReadable(b, [items[0]]);
      AssignAll(Assign(info, b, items[0]), b, items[1..])
  }

  lemma {:induction false} AssignLast(info: RouteInfo, b: seq<byte>, items: seq<Item>)
    requires DataReadable(b, items) && items != []
    ensures DataReadable(b, items[..|items| - 1]) && DataReadable(b, [items[|items| - 1]])
    ensures AssignAll(info, b, items) == Assign(AssignAll(info, b, items[..|items| - 1]), b, items[|items| - 1])
    decreases |items|
  {
    assert DataReadable(b, [items[0]]);
    if |items| > 1 {
      AssignLast(Assign(info, b, items[0]), b, items[1..]);
      assert items[1..][..|items| - 2] == items[..|items| - 1][1..];
    }
  }

  /** Assigning in order leaves each field with the last attribute of its kind. */
  lemma {:induction false} AssignAllIsLast(b: seq<byte>, items: seq<Item>)
    requires DataReadable(b, items)
    ensures AssignAll(RouteInfo(None, None, None, None), b, items) == InfoOf(b, items)
    decreases |items|
  {
    if items != [] {
      var none := RouteInfo(None, None, None, None);
      AssignLast(none, b, items);
      AssignAllIsLast(b, items[..|items| - 1]);
    }
  }

  /** The attributes of the route message at `off`. RTM_PAYLOAD can be negative. */
  function Attributes(b: seq<byte>, m: Item): (r: seq<Item>)
    requires m.off + m.len <= |b|
  {
    Walk(RtAttr, b, m.off + NLMSG_HDRLEN + RTMSG_LEN, m.len - NLMSG_HDRLEN - RTMSG_LEN)
  }

  /** What `reply_msg` does with a message. */
  datatype Visit = Ignored | Printed(kind: nat, len: nat) | OtherTable | Route(info: RouteInfo)

  /** The source's demands on a route message: its table octet and the attribute data it loads are in
      the buffer. */
  predicate RouteReadable(b: seq<byte>, m: Item) {
    && m.off + m.len <= |b| && m.off + 20 < |b|
    && (b[m.off + 20] == RT_TABLE_MAIN ==> DataReadable(b, Attributes(b, m)))
  }

  /** The octets that the switch loads for an attribute, and those that the attribute has. */
  predicate LoadsOctet(i: Item, k: nat) {
    i.kind in {RTA_DST, RTA_OIF, RTA_GATEWAY, RTA_PREFSRC} && i.off + RTA_HDRLEN <= k < i.off + 8
  }

  predicate HasOctet(i: Item, k: nat) {
    i.off <= k < i.off + i.len
  }

  /** Every load of the attributes stays inside the attribute it is for. */
  ghost predicate OwnLoads(w: seq<Item>) {
    forall i, k :: 0 <= i < |w| && LoadsOctet(w[i], k) ==> HasOctet(w[i], k)
  }

  /** In any buffer, every load of a route stays inside its own attribute exactly when each attribute that
      is looked into has at least eight octets. Then it also stays inside the buffer and touches no other
      attribute. */
  lemma {:induction false} OwnLoadsIff(b: seq<byte>, m: Item)
    requires m.off + m.len <= |b|
    ensures var w := Attributes(b, m);
            && (OwnLoads(w) <==>
                forall i :: 0 <= i < |w| && w[i].kind in {RTA_DST, RTA_OIF, RTA_GATEWAY, RTA_PREFSRC} ==> w[i].len >= 8)
            && (OwnLoads(w) ==> DataReadable(b, w))
            && (OwnLoads(w) ==>
                forall i, j, k :: 0 <= i < |w| && 0 <= j < |w| && i != j && LoadsOctet(w[i], k) ==> !HasOctet(w[j], k))
  {
    var w := Attributes(b, m);
    WalkInside(RtAttr, b, m.off + NLMSG_HDRLEN + RTMSG_LEN, m.len - NLMSG_HDRLEN - RTMSG_LEN);
    if OwnLoads(w) {
      forall i | 0 <= i < |w| && w[i].kind in {RTA_DST, RTA_OIF, RTA_GATEWAY, RTA_PREFSRC}
        ensures w[i].len >= 8
      {
        assert LoadsOctet(w[i], w[i].off + 7);
      }
    }
  }

  function VisitOf(b: seq<byte>, m: Item): (v: Visit)
    requires m.kind == RTM_NEWROUTE ==> RouteReadable(b, m)
  {
    if m.kind == 3 || m.kind == 16 then Ignored
    else if m.kind != RTM_NEWROUTE then Printed(m.kind, m.len)
    else if b[m.off + 20] != RT_TABLE_MAIN then OtherTable
    else Route(InfoOf(b, Attributes(b, m)))
  }

  /** The attribute loop of `print_route`. */
  method PrintRoute(b: seq<byte>, m: Item) returns (v: Visit)
    requires m.kind == RTM_NEWROUTE && RouteReadable(b, m)
    ensures v == VisitOf(b, m)
  {
    if b[m.off + 20] != RT_TABLE_MAIN {
      return OtherTable;
    }
    AssignAllIsLast(b, Attributes(b, m));
    var info := WalkAttributes(b, m.off + NLMSG_HDRLEN + RTMSG_LEN, m.len - NLMSG_HDRLEN - RTMSG_LEN);
    v := Route(info);
  }

  method WalkAttributes(b: seq<byte>, start: nat, payload: int) returns (info: RouteInfo)
    requires payload > 0 ==> start + payload <= |b|
    requires DataReadable(b, Walk(RtAttr, b, start, payload))
    ensures info == AssignAll(RouteInfo(None, None, None, None), b, Walk(RtAttr, b, start, payload))
  {
    var attr: nat, rtLen := start, payload;
    info := RouteInfo(None, None, None, None);
    ghost var all := AssignAll(info, b, Walk(RtAttr, b, start, payload));
    while Ok(RtAttr, b, attr, rtLen)
      invariant rtLen > 0 ==> attr + rtLen <= |b|
      invariant DataReadable(b, Walk(RtAttr, b, attr, rtLen))
      invariant AssignAll(info, b, Walk(RtAttr, b, attr, rtLen)) == all
      decreases rtLen
    {
      ghost var w := Walk(RtAttr, b, attr, rtLen);
      var n := LenAt(RtAttr, b, attr);
      var item := Item(KindAt(RtAttr, b, attr), attr, n);
      assert w[0] == item && w[1..] == Walk(RtAttr, b, attr + Align(n), rtLen - Align(n));
      info := Assign(info, b, item);
      attr, rtLen := attr + Align(n), rtLen - Align(n);
    }
  }

  function Visits(b: seq<byte>, items: seq<Item>): (r: seq<Visit>)
    requires forall i :: 0 <= i < |items| && items[i].kind == RTM_NEWROUTE ==> RouteReadable(b, items[i])
    ensures |r| == |items|
  {
    seq(|items|, i requires 0 <= i < |items| => VisitOf(b, items[i]))
  }

  /** The message loop of `reply_msg` over the `len` octets received. */
  method ReplyMsg(b: seq<byte>, len: int) returns (visits: seq<Visit>)
    requires 0 <= len <= |b|
    requires forall i :: 0 <= i < |Walk(NlMsg, b, 0, len)| && Walk(NlMsg, b, 0, len)[i].kind == RTM_NEWROUTE ==>
               RouteReadable(b, Walk(NlMsg, b, 0, len)[i])
    ensures visits == Visits(b, Walk(NlMsg, b, 0, len))
    ensures var w := Walk(NlMsg, b, 0, len);
            |visits| == |w| && forall i :: 0 <= i < |w| ==>
              && (visits[i].Ignored? <==> w[i].kind == 3 || w[i].kind == 16)
              && (visits[i].OtherTable? <==> w[i].kind == 24 && b[w[i].off + 20] != 254)
              && (visits[i].Route? <==> w[i].kind == 24 && b[w[i].off + 20] == 254)
              && (visits[i].Printed? ==> visits[i] == Printed(w[i].kind, w[i].len))
  {
    var ptr: nat, left := 0, len;
    ghost var all := Walk(NlMsg, b, 0, len);
    visits := [];
    while Ok(NlMsg, b, ptr, left)
      invariant left > 0 ==> ptr + left <= |b|
      invariant |visits| <= |all| && all[|visits|..] == Walk(NlMsg, b, ptr, left)
      invariant forall i :: 0 <= i < |visits| ==> visits[i] == VisitOf(b, all[i])
      decreases left
    {
      var m := Item(KindAt(NlMsg, b, ptr), ptr, LenAt(NlMsg, b, ptr));
      assert all[|visits|..][0] == m;
      var v;
      if m.kind == 3 || m.kind == 16 {
        v := Ignored;
      } else if m.kind == RTM_NEWROUTE {
        v := PrintRoute(b, m);
      } else {
        v := Printed(m.kind, m.len);
      }
      assert all[|visits| + 1..] == all[|visits|..][1..];
      visits := visits + [v];
      ptr, left := ptr + Align(m.len), left - Align(m.len);
    }
    assert visits == Visits(b, all);
  }

  // ----- writing -----

  function ToLe16(v: nat): (b: seq<byte>)
    requires v < 0x1_0000
    ensures |b| == 2 && Le16(b, 0) == v
  {
    [v % 256, v / 256]
  }

  /** A message or attribute to be laid out. `extra` is what a netlink header holds after the type:
      flags, sequence number and port id. */
  datatype Tlv = Tlv(kind: nat, extra: seq<byte>, payload: seq<byte>, pad: seq<byte>)

  function Size(f: Format, t: Tlv): (n: nat) {
    Hdr(f) + |t.payload|
  }

  ghost predicate Encodable(f: Format, t: Tlv) {
    && t.kind < 0x1_0000 && |t.extra| == (if f.NlMsg? then 10 else 0)
    && Size(f, t) < (if f.NlMsg? then 0x1_0000_0000 else 0x1_0000)
    && |t.pad| == Align(Size(f, t)) - Size(f, t)
  }

  ghost function Header(f: Format, t: Tlv): (b: seq<byte>)
    requires Encodable(f, t)
    ensures |b| == Hdr(f) && LenAt(f, b, 0) == Size(f, t) && KindAt(f, b, 0) == t.kind
    ensures f.NlMsg? ==>
              && |b| == 16 && b[4] as int + 256 * b[5] as int == t.kind
              && b[0] as int + 0x100 * b[1] as int + 0x1_0000 * b[2] as int + 0x100_0000 * b[3] as int == 16 + |t.payload|
    ensures f.RtAttr? ==>
              && |b| == 4 && b[0] as int + 256 * b[1] as int == 4 + |t.payload| && b[2] as int + 256 * b[3] as int == t.kind
  {
    var n := Size(f, t);
    if f.NlMsg? then
      var lo, hi, kind := ToLe16(n % 0x1_0000), ToLe16(n / 0x1_0000), ToLe16(t.kind);
      [lo[0], lo[1], hi[0], hi[1], kind[0], kind[1]] + t.extra
    else
      var len, kind := ToLe16(n), ToLe16(t.kind);
      [len[0], len[1], kind[0], kind[1]]
  }

  ghost function Encode(f: Format, t: Tlv): (b: seq<byte>)
    requires Encodable(f, t)
    ensures |b| == Align(Size(f, t))
  {
    Header(f, t) + t.payload + t.pad
  }

  ghost predicate AllEncodable(f: Format, ts: seq<Tlv>) {
    forall i :: 0 <= i < |ts| ==> Encodable(f, ts[i])
  }

  ghost function EncodeAll(f: Format, ts: seq<Tlv>): (b: seq<byte>)
    requires AllEncodable(f, ts)
  {
    if ts == [] then [] else Encode(f, ts[0]) + EncodeAll(f, ts[1..])
  }

  /** Kind and payload of a visited item. */
  function Content(f: Format, b: seq<byte>, i: Item): (r: (nat, seq<byte>))
    requires Hdr(f) <= i.len && i.off + i.len <= |b|
  {
    (i.kind, b[i.off + Hdr(f)..i.off + i.len])
  }

  /** The items visited are exactly these, in order. */
  ghost predicate Visited(f: Format, b: seq<byte>, w: seq<Item>, ts: seq<Tlv>) {
    |w| == |ts| &&
    forall i :: 0 <= i < |w| ==>
      Hdr(f) <= w[i].len && w[i].off + w[i].len <= |b| && Content(f, b, w[i]) == (ts[i].kind, ts[i].payload)
  }

  /** `e` is what the buffer holds from `off` on. */
  ghost predicate Holds(b: seq<byte>, off: nat, e: seq<byte>) {
    off + |e| <= |b| && forall i :: 0 <= i < |e| ==> b[off + i] == e[i]
  }

  lemma {:induction false} HoldsSplit(b: seq<byte>, off: nat, d: seq<byte>, e: seq<byte>)
    requires Holds(b, off, d + e)
    ensures Holds(b, off, d) && Holds(b, off + |d|, e)
  {
    assert forall i :: 0 <= i < |d| ==> (d + e)[i] == d[i];
    forall i | 0 <= i < |e|
      ensures b[off + |d| + i] == e[i]
    {
      assert (d + e)[|d| + i] == e[i];
    }
  }

  lemma {:induction false} HeaderInside(f: Format, b: seq<byte>, off: nat, h: seq<byte>)
    requires Holds(b, off, h) && |h| == Hdr(f)
    ensures LenAt(f, b, off) == LenAt(f, h, 0) && KindAt(f, b, off) == KindAt(f, h, 0)
  {
  }

  /** Where an encoded item lies, the walk reads its header and finds its payload. */
  lemma {:induction false} ItemAt(f: Format, b: seq<byte>, off: nat, t: Tlv)
    requires Encodable(f, t) && Holds(b, off, Encode(f, t))
    ensures LenAt(f, b, off) == Size(f, t) && KindAt(f, b, off) == t.kind
    ensures b[off + Hdr(f)..off + Size(f, t)] == t.payload
  {
    HoldsSplit(b, off, Header(f, t) + t.payload, t.pad);
    HoldsSplit(b, off, Header(f, t), t.payload);
    HeaderInside(f, b, off, Header(f, t));
  }

  /** The items of the list lie one behind the other from `off` to `end`. */
  ghost predicate Laid(f: Format, b: seq<byte>, off: nat, ts: seq<Tlv>, end: nat)
    decreases |ts|
  {
    if ts == [] then off == end
    else Encodable(f, ts[0]) && Holds(b, off, Encode(f, ts[0])) && Laid(f, b, off + Align(Size(f, ts[0])), ts[1..], end)
  }

  lemma {:induction false} EncodedIsLaid(f: Format, b: seq<byte>, off: nat, ts: seq<Tlv>)
    requires AllEncodable(f, ts) && Holds(b, off, EncodeAll(f, ts))
    ensures Laid(f, b, off, ts, off + |EncodeAll(f, ts)|)
    decreases |ts|
  {
    if ts != [] {
      HoldsSplit(b, off, Encode(f, ts[0]), EncodeAll(f, ts[1..]));
      EncodedIsLaid(f, b, off + Align(Size(f, ts[0])), ts[1..]);
    }
  }

  /** Padding of the last item, which a length may leave out. */
  function LastPad(ts: seq<Tlv>): (n: nat) {
    if ts == [] then 0 else |ts[|ts| - 1].pad|
  }

  lemma {:induction false} LaidRoom(f: Format, b: seq<byte>, off: nat, ts: seq<Tlv>, end: nat)
    requires Laid(f, b, off, ts, end)
    ensures off + LastPad(ts) <= end
    ensures ts != [] ==> off + Size(f, ts[0]) + LastPad(ts) <= end
    decreases |ts|
  {
    if ts != [] {
      LaidRoom(f, b, off + Align(Size(f, ts[0])), ts[1..], end);
    }
  }

  lemma {:induction false} LaidBounds(f: Format, b: seq<byte>, off: nat, ts: seq<Tlv>, end: nat, len: nat)
    requires Laid(f, b, off, ts, end) && ts != [] && end <= off + len + LastPad(ts)
    ensures Size(f, ts[0]) <= len
    ensures |ts| > 1 ==> Align(Size(f, ts[0])) <= len && LastPad(ts[1..]) == LastPad(ts)
  {
    LaidRoom(f, b, off, ts, end);
    LaidRoom(f, b, off + Align(Size(f, ts[0])), ts[1..], end);
  }

  /** Walking a list laid out in a buffer visits exactly its items, in order, wherever the list lies and
      whether or not the padding of the last item is counted in the length. */
  lemma {:induction false} WalkLaid(f: Format, b: seq<byte>, off: nat, ts: seq<Tlv>, end: nat, len: nat)
    requires Laid(f, b, off, ts, end) && off + len <= end <= off + len + LastPad(ts) && end <= |b|
    ensures Visited(f, b, Walk(f, b, off, len), ts)
    decreases |ts|
  {
    if ts != [] {
      var n := Align(Size(f, ts[0]));
      LaidBounds(f, b, off, ts, end, len);
      if |ts| > 1 {
        WalkLaid(f, b, off + n, ts[1..], end, len - n);
      }
      WalkItem(f, b, off, len, ts);
    }
  }

  lemma {:induction false} WalkEncoded(f: Format, b: seq<byte>, off: nat, ts: seq<Tlv>, len: nat)
    requires AllEncodable(f, ts) && Holds(b, off, EncodeAll(f, ts))
    requires len <= |EncodeAll(f, ts)| <= len + LastPad(ts)
    ensures Visited(f, b, Walk(f, b, off, len), ts)
  {
    EncodedIsLaid(f, b, off, ts);
    WalkLaid(f, b, off, ts, off + |EncodeAll(f, ts)|, len);
  }

  lemma {:induction false} WalkItem(f: Format, b: seq<byte>, off: nat, len: int, ts: seq<Tlv>)
    requires len > 0 ==> off + len <= |b|
    requires ts != [] && Encodable(f, ts[0]) && Holds(b, off, Encode(f, ts[0])) && Size(f, ts[0]) <= len
    requires var n := Align(Size(f, ts[0])); Visited(f, b, Walk(f, b, off + n, len - n), ts[1..])
    ensures Visited(f, b, Walk(f, b, off, len), ts)
  {
    ItemAt(f, b, off, ts[0]);
    WalkFirst(f, b, off, len, ts);
  }

  /** A walk that stands on the first item of a list and visits the rest after it visits the list. */
  lemma {:induction false} WalkFirst(f: Format, b: seq<byte>, off: nat, len: int, ts: seq<Tlv>)
    requires len > 0 ==> off + len <= |b|
    requires ts != [] && Hdr(f) <= Size(f, ts[0]) <= len
    requires LenAt(f, b, off) == Size(f, ts[0]) && KindAt(f, b, off) == ts[0].kind
    requires b[off + Hdr(f)..off + Size(f, ts[0])] == ts[0].payload
    requires var n := Align(Size(f, ts[0])); Visited(f, b, Walk(f, b, off + n, len - n), ts[1..])
    ensures Visited(f, b, Walk(f, b, off, len), ts)
  {
    var n := Size(f, ts[0]);
    VisitedCons(f, b, Item(ts[0].kind, off, n), Walk(f, b, off + Align(n), len - Align(n)), ts);
  }

  lemma {:induction false} VisitedCons(f: Format, b: seq<byte>, i: Item, w: seq<Item>, ts: seq<Tlv>)
    requires ts != [] && Hdr(f) <= i.len && i.off + i.len <= |b|
    requires Content(f, b, i) == (ts[0].kind, ts[0].payload) && Visited(f, b, w, ts[1..])
    ensures Visited(f, b, [i] + w, ts)
  {
  }

  // ----- both levels -----

  /** A message of a reply: a route of any table, with its attributes, or a message of another kind. */
  datatype Msg = RouteMsg(extra: seq<byte>, rtm: seq<byte>, attrs: seq<Tlv>) | PlainMsg(tlv: Tlv)

  ghost function ToTlv(m: Msg): (t: Tlv)
    requires m.RouteMsg? ==> AllEncodable(RtAttr, m.attrs)
  {
    if m.PlainMsg? then m.tlv else Tlv(RTM_NEWROUTE, m.extra, m.rtm + EncodeAll(RtAttr, m.attrs), [])
  }

  ghost predicate MsgOk(m: Msg) {
    if m.PlainMsg? then m.tlv.kind != RTM_NEWROUTE && Encodable(NlMsg, m.tlv)
    else |m.rtm| == RTMSG_LEN && AllEncodable(RtAttr, m.attrs) && Encodable(NlMsg, ToTlv(m))
  }

  ghost predicate MsgsOk(ms: seq<Msg>) {
    forall i :: 0 <= i < |ms| ==> MsgOk(ms[i])
  }

  ghost function ToTlvs(ms: seq<Msg>): (ts: seq<Tlv>)
    requires MsgsOk(ms)
    ensures |ts| == |ms| && forall i :: 0 <= i < |ts| ==> MsgOk(ms[i]) && ts[i] == ToTlv(ms[i])
  {
    if ms == [] then [] else [ToTlv(ms[0])] + ToTlvs(ms[1..])
  }

  lemma {:induction false} SliceHolds(b: seq<byte>, from: nat, to: nat, e: seq<byte>)
    requires from <= to <= |b| && b[from..to] == e
    ensures Holds(b, from, e)
  {
  }

  /** A route message found in a buffer: the attribute walk visits its attributes. */
  lemma {:induction false} RouteInside(b: seq<byte>, m: Item, rtm: seq<byte>, attrs: seq<Tlv>)
    requires |rtm| == RTMSG_LEN && AllEncodable(RtAttr, attrs) && NLMSG_HDRLEN <= m.len && m.off + m.len <= |b|
    requires b[m.off + NLMSG_HDRLEN..m.off + m.len] == rtm + EncodeAll(RtAttr, attrs)
    ensures m.off + 20 < |b| && b[m.off + 20] == rtm[4]
    ensures Visited(RtAttr, b, Attributes(b, m), attrs)
  {
    var start, enc := m.off + NLMSG_HDRLEN, EncodeAll(RtAttr, attrs);
    SliceHolds(b, start, m.off + m.len, rtm + enc);
    HoldsSplit(b, start, rtm, enc);
    assert b[start + 4] == rtm[4];
    AttributesLaid(b, m, attrs, |enc|);
  }

  lemma {:induction false} AttributesLaid(b: seq<byte>, m: Item, attrs: seq<Tlv>, len: nat)
    requires AllEncodable(RtAttr, attrs) && m.off + m.len <= |b| && m.len == NLMSG_HDRLEN + RTMSG_LEN + len
    requires Holds(b, m.off + NLMSG_HDRLEN + RTMSG_LEN, EncodeAll(RtAttr, attrs)) && len == |EncodeAll(RtAttr, attrs)|
    ensures Visited(RtAttr, b, Attributes(b, m), attrs)
  {
    WalkEncoded(RtAttr, b, m.off + NLMSG_HDRLEN + RTMSG_LEN, attrs, len);
  }

  /** The message that the walk stands on is `m`, and the attribute walk in a route visits its
      attributes. */
  ghost predicate MsgVisited(b: seq<byte>, i: Item, m: Msg) {
    && i.off + i.len <= |b|
    && (m.PlainMsg? ==> i.kind == m.tlv.kind && i.len == Size(NlMsg, m.tlv))
    && (m.RouteMsg? ==>
          && i.kind == RTM_NEWROUTE && |m.rtm| == RTMSG_LEN && i.off + 20 < |b| && b[i.off + 20] == m.rtm[4]
          && Visited(RtAttr, b, Attributes(b, i), m.attrs))
  }

  /** For every list of messages, routes of any table with any attributes and other kinds mixed, the
      nested walk visits exactly those messages and, inside each route, exactly its attributes, in order. */
  lemma {:induction false} NestedWalk(b: seq<byte>, ms: seq<Msg>, ts: seq<Tlv>, len: nat)
    requires MsgsOk(ms) && ts == ToTlvs(ms) && AllEncodable(NlMsg, ts) && Holds(b, 0, EncodeAll(NlMsg, ts))
    requires len <= |EncodeAll(NlMsg, ts)| <= len + LastPad(ts)
    ensures var w := Walk(NlMsg, b, 0, len);
            |w| == |ms| && forall i :: 0 <= i < |ms| ==> MsgVisited(b, w[i], ms[i])
  {
    WalkEncoded(NlMsg, b, 0, ts, len);
    AllMessages(b, Walk(NlMsg, b, 0, len), ms, ts);
  }

  lemma {:induction false} AllMessages(b: seq<byte>, w: seq<Item>, ms: seq<Msg>, ts: seq<Tlv>)
    requires MsgsOk(ms) && ts == ToTlvs(ms) && Visited(NlMsg, b, w, ts)
    ensures |w| == |ms| && forall i :: 0 <= i < |ms| ==> MsgVisited(b, w[i], ms[i])
  {
    forall i | 0 <= i < |ms|
      ensures MsgVisited(b, w[i], ms[i])
    {
      assert ts[i] == ToTlv(ms[i]) && Content(NlMsg, b, w[i]) == (ts[i].kind, ts[i].payload);
      OneMessage(b, w[i], ms[i]);
    }
  }

  lemma {:induction false} OneMessage(b: seq<byte>, i: Item, m: Msg)
    requires MsgOk(m) && NLMSG_HDRLEN <= i.len && i.off + i.len <= |b|
    requires Content(NlMsg, b, i) == (ToTlv(m).kind, ToTlv(m).payload)
    ensures MsgVisited(b, i, m)
  {
    if m.RouteMsg? {
      RouteInside(b, i, m.rtm, m.attrs);
    }
  }

  // ----- what is shown of an encoded reply -----

  /** The attributes that are looked into carry at least four octets. */
  ghost predicate Loadable(ts: seq<Tlv>) {
    forall i :: 0 <= i < |ts| && ts[i].kind in {RTA_DST, RTA_OIF, RTA_GATEWAY, RTA_PREFSRC} ==> |ts[i].payload| >= 4
  }

  /** The first four octets of the last attribute of a kind. */
  ghost function LastTlv(ts: seq<Tlv>, kind: nat): (r: Option<Quad>)
    requires forall i :: 0 <= i < |ts| && ts[i].kind == kind ==> |ts[i].payload| >= 4
  {
    if ts == [] then None
    else if ts[|ts| - 1].kind == kind then Some(U32(ts[|ts| - 1].payload, 0))
    else LastTlv(ts[..|ts| - 1], kind)
  }

  ghost function Fields(ts: seq<Tlv>): (r: RouteInfo)
    requires Loadable(ts)
  {
    RouteInfo(LastTlv(ts, RTA_DST), LastTlv(ts, RTA_PREFSRC), LastTlv(ts, RTA_GATEWAY), LastTlv(ts, RTA_OIF))
  }

  lemma {:induction false} ValueAt(b: seq<byte>, i: Item, t: Tlv)
    requires RTA_HDRLEN <= i.len && i.off + i.len <= |b| && Content(RtAttr, b, i) == (t.kind, t.payload)
    requires |t.payload| >= 4
    ensures i.off + 8 <= |b| && Word(b, i.off + RTA_HDRLEN) == U32(t.payload, 0)
  {
    var p := b[i.off + 4..i.off + i.len];
    assert p[0] == b[i.off + 4] && p[1] == b[i.off + 5] && p[2] == b[i.off + 6] && p[3] == b[i.off + 7];
  }

  lemma {:induction false} VisitedLast(b: seq<byte>, w: seq<Item>, ts: seq<Tlv>, kind: nat)
    requires Visited(RtAttr, b, w, ts)
    requires forall i :: 0 <= i < |ts| && ts[i].kind == kind ==> |ts[i].payload| >= 4
    ensures forall i :: 0 <= i < |w| && w[i].kind == kind ==> w[i].off + 8 <= |b|
    ensures LastOf(b, w, kind) == LastTlv(ts, kind)
    decreases |w|
  {
    forall i | 0 <= i < |w| && w[i].kind == kind
      ensures w[i].off + 8 <= |b| && Word(b, w[i].off + RTA_HDRLEN) == U32(ts[i].payload, 0)
    {
      assert Content(RtAttr, b, w[i]) == (ts[i].kind, ts[i].payload);
      ValueAt(b, w[i], ts[i]);
    }
    if w != [] {
      var n := |w| - 1;
      assert Content(RtAttr, b, w[n]) == (ts[n].kind, ts[n].payload);
      VisitedLast(b, w[..n], ts[..n], kind);
    }
  }

  /** What `reply_msg` should show for a message. */
  ghost function Shown(m: Msg): (v: Visit)
    requires MsgOk(m) && Loads(m)
  {
    if m.PlainMsg? then
      if m.tlv.kind == 3 || m.tlv.kind == 16 then Ignored else Printed(m.tlv.kind, Size(NlMsg, m.tlv))
    else if m.rtm[4] != RT_TABLE_MAIN then OtherTable
    else Route(Fields(m.attrs))
  }

  /** A main-table route carries at least four octets in each attribute that is looked into. */
  ghost predicate Loads(m: Msg) {
    m.RouteMsg? && |m.rtm| == RTMSG_LEN && m.rtm[4] == RT_TABLE_MAIN ==> Loadable(m.attrs)
  }

  lemma {:induction false} MsgShown(b: seq<byte>, i: Item, m: Msg)
    requires MsgOk(m) && Loads(m) && MsgVisited(b, i, m)
    ensures i.kind == RTM_NEWROUTE ==> RouteReadable(b, i)
    ensures VisitOf(b, i) == Shown(m)
  {
    if m.RouteMsg? && m.rtm[4] == RT_TABLE_MAIN {
      var w := Attributes(b, i);
      VisitedLast(b, w, m.attrs, RTA_DST);
      VisitedLast(b, w, m.attrs, RTA_PREFSRC);
      VisitedLast(b, w, m.attrs, RTA_GATEWAY);
      VisitedLast(b, w, m.attrs, RTA_OIF);
    }
  }

  /** For a route found in a buffer that is the same as four octets of data in each of them. */
  lemma {:induction false} OwnLoadsAreLoadable(b: seq<byte>, i: Item, m: Msg)
    requires MsgOk(m) && m.RouteMsg? && MsgVisited(b, i, m)
    ensures OwnLoads(Attributes(b, i)) <==> Loadable(m.attrs)
  {
    var w := Attributes(b, i);
    OwnLoadsIff(b, i);
    forall k | 0 <= k < |w|
      ensures w[k].kind == m.attrs[k].kind && w[k].len == RTA_HDRLEN + |m.attrs[k].payload|
    {
      assert Content(RtAttr, b, w[k]) == (m.attrs[k].kind, m.attrs[k].payload);
    }
  }

  /** For every encoded reply, `reply_msg` reads inside the buffer only, and handles each message, in
      order, as it should: routes of the main table are shown with the last destination, source, gateway
      and interface among their attributes, routes of other tables are left, done and link messages are
      ignored, and all others are reported with their kind and length. */
  lemma {:induction false} ReplyShown(b: seq<byte>, ms: seq<Msg>, ts: seq<Tlv>, len: nat)
    requires MsgsOk(ms) && ts == ToTlvs(ms) && AllEncodable(NlMsg, ts) && Holds(b, 0, EncodeAll(NlMsg, ts))
    requires len <= |EncodeAll(NlMsg, ts)| <= len + LastPad(ts)
    requires forall i :: 0 <= i < |ms| ==> Loads(ms[i])
    ensures var w := Walk(NlMsg, b, 0, len);
            |w| == |ms| &&
            (forall i :: 0 <= i < |ms| && w[i].kind == RTM_NEWROUTE ==> RouteReadable(b, w[i])) &&
            forall i :: 0 <= i < |ms| ==> VisitOf(b, w[i]) == Shown(ms[i])
  {
    var w := Walk(NlMsg, b, 0, len);
    NestedWalk(b, ms, ts, len);
    forall i | 0 <= i < |ms|
      ensures w[i].kind == RTM_NEWROUTE ==> RouteReadable(b, w[i])
      ensures VisitOf(b, w[i]) == Shown(ms[i])
    {
      MsgShown(b, w[i], ms[i]);
    }
  }
}
