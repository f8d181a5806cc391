/** The two netfilter hooks over the shared tree, and what any interleaving of packets leaves in it. */
module DnsProxy {
  import opened Bytes
  import opened CStrings
  import opened RbTree
  import opened DnsPacket

  /** A packet seen by one of the hooks. */
  datatype Event = In(skb: SkBuff) | Out(skb: SkBuff)

  datatype Verdict = Accept | Drop

  /** How `create_packet` can end: no memory for the copy, or the value `ip_local_out` returned. */
  datatype Outcome = NoMemory | Sent(code: int)

  /** A response the inbound hook is willing to learn from. */
  predicate Acceptable(s: SkBuff) {
    HasHeaders(s) && FromDns(s) && HasName(s) && HasAnswer(s) && PassesGuard(s)
  }

  /** The event is an acceptable response that carries `name`. */
  predicate Carries(e: Event, name: CStr) {
    e.In? && Acceptable(e.skb) && NameOf(e.skb) == name
  }

  /** The answer of the first acceptable response for `name` in the history. */
  function Earliest(h: seq<Event>, name: CStr): (r: Option<DnsNode>) {
    if h == [] then None
    else if Carries(h[0], name) then Some(Learned(h[0].skb))
    else Earliest(h[1..], name)
  }

  /** A found answer is that of the first response that carries the name. */
  lemma {:induction false} EarliestAt(h: seq<Event>, name: CStr) returns (i: nat)
    requires Earliest(h, name).Some?
    ensures i < |h| && Carries(h[i], name) && Earliest(h, name).value == Learned(h[i].skb)
    ensures forall j :: 0 <= j < i ==> !Carries(h[j], name)
  {
    if Carries(h[0], name) {
      i := 0;
    } else {
      var k := EarliestAt(h[1..], name);
      i := k + 1;
      assert forall j :: 0 < j < i ==> h[j] == h[1..][j - 1];
    }
  }

  /** An answer is found exactly when some response carries the name. */
  lemma {:induction false} EarliestFound(h: seq<Event>, name: CStr)
    ensures Earliest(h, name).Some? <==> exists i :: 0 <= i < |h| && Carries(h[i], name)
  {
    if Earliest(h, name).Some? {
      var i := EarliestAt(h, name);
    } else if h != [] {
      EarliestFound(h[1..], name);
      assert forall i :: 0 < i < |h| ==> h[i] == h[1..][i - 1];
    }
  }

  lemma {:induction false} EarliestAppend(h: seq<Event>, e: Event, name: CStr)
    ensures Earliest(h + [e], name) ==
            if Earliest(h, name).Some? then Earliest(h, name)
            else if Carries(e, name) then Some(Learned(e.skb)) else None
  {
    if h == [] {
      assert h + [e] == [e];
    } else {
      EarliestAppend(h[1..], e, name);
      assert (h + [e])[1..] == h[1..] + [e];
    }
  }

  // ----- the cache as a map -----

  function Learn(cache: map<CStr, DnsNode>, e: Event): (r: map<CStr, DnsNode>) {
    if e.In? && Acceptable(e.skb) && NameOf(e.skb) !in cache then cache[NameOf(e.skb) := Learned(e.skb)]
    else cache
  }

  function CacheAfter(h: seq<Event>): (r: map<CStr, DnsNode>) {
    if h == [] then map[] else Learn(CacheAfter(h[..|h| - 1]), h[|h| - 1])
  }

  lemma {:induction false} CacheStep(h: seq<Event>, e: Event)
    ensures CacheAfter(h + [e]) == Learn(CacheAfter(h), e)
  {
  }

  /** The packet is UDP, and its source port is 53. */
  ghost predicate FromPort53(s: SkBuff) {
    9 < s.transport && OctetsAt(s.head, 9, [17]) && OctetsAt(s.head, s.transport, [0, 53])
  }

  /** What the inbound hook learns from a packet with a question and the record `rec` behind it. It turns
      the record down exactly if its type is not A and its data is not four octets long. */
  lemma {:induction false} LearnsIff(h: seq<Event>, s: SkBuff, name: CStr, question: seq<byte>, rec: seq<byte>)
    requires 20 <= s.transport && QuestionIs(s, name, question)
    requires |rec| == 16 && OctetsAt(s.head, s.transport + 25 + |name|, rec)
    ensures var before, after := CacheAfter(h), CacheAfter(h + [In(s)]);
            if FromPort53(s) && name !in before && (rec[2..4] == [0, 1] || rec[10..12] == [0, 4]) then
              after == before[name := DnsNode(name, Quad(rec[12], rec[13], rec[14], rec[15]),
                                              Quad(rec[6], rec[7], rec[8], rec[9]))]
            else after == before
  {
    CacheStep(h, In(s));
    RecordRead(s, name, question, rec);
    FromDnsIff(s);
  }

  lemma {:induction false} FromDnsIff(s: SkBuff)
    requires HasHeaders(s)
    ensures FromDns(s) <==> FromPort53(s)
  {
    if FromDns(s) {
      U16Is(s.head, s.transport, 53);
    }
    if FromPort53(s) {
      assert [17][0] == 17 && [0, 53][0] == 0 && [0, 53][1] == 53;
    }
  }

  /** Outgoing packets and those from elsewhere teach nothing. */
  lemma {:induction false} OthersTeachNothing(h: seq<Event>, e: Event)
    requires e.Out? || !FromPort53(e.skb)
    ensures CacheAfter(h + [e]) == CacheAfter(h)
  {
    CacheStep(h, e);
    if e.In? && HasHeaders(e.skb) { FromDnsIff(e.skb); }
  }

  function Lookup(cache: map<CStr, DnsNode>, name: CStr): (r: Option<DnsNode>) {
    if name in cache then Some(cache[name]) else None
  }

  /** In every interleaving, what the cache holds for a name is the first acceptable answer for it. */
  lemma {:induction false} CacheIsEarliest(h: seq<Event>, name: CStr)
    ensures Lookup(CacheAfter(h), name) == Earliest(h, name)
  {
    if h != [] {
      var g, e := h[..|h| - 1], h[|h| - 1];
      CacheIsEarliest(g, name);
      EarliestAppend(g, e, name);
      assert h == g + [e];
    }
  }

  // ----- the hooks -----

  class Proxy {
    const tree: RbRoot
    ghost var history: seq<Event>

    ghost predicate Valid()
      reads this, tree
    {
      tree.Valid() && tree.Contents() == CacheAfter(history)
    }

    constructor ()
      ensures Valid() && history == [] && fresh(tree)
    {
      tree := new RbRoot();
      history := [];
    }

    /** `hook_in_packets`. The answer record is read only for a name that is not yet cached. */
    method HookIn(skb: SkBuff) returns (verdict: Verdict)
      requires Valid() && HasHeaders(skb)
      requires FromDns(skb) ==> HasName(skb)
      requires FromDns(skb) && NameOf(skb) !in tree.Contents() ==> HasAnswer(skb)
      modifies this, tree
      ensures Valid() && history == old(history) + [In(skb)] && verdict == Accept
      ensures forall name :: Lookup(tree.Contents(), name) == Earliest(history, name)
    {
      verdict := Accept;
      history := history + [In(skb)];
      CacheStep(old(history), In(skb));
      if FromDns(skb) {
        var hname := NameOf(skb);
        var node, _ := tree.Search(hname);
        if node.None? {
          if PassesGuard(skb) {
            var ret := tree.Insert(Learned(skb));
          }
        }
      }
      forall name
        ensures Lookup(tree.Contents(), name) == Earliest(history, name)
      {
        CacheIsEarliest(history, name);
      }
    }

    /** `hook_out_packets`: a query gets a synthesized reply exactly when an earlier response was
        learned for its name, and the reply is built from the earliest of those. */
    method HookOut(skb: SkBuff, tail: seq<byte>, outcome: Outcome) returns (verdict: Verdict, reply: Option<SkBuff>)
      requires Valid() && HasHeaders(skb) && |tail| >= R_DATA_LEN
      requires ToDns(skb) ==> HasName(skb)
      requires ToDns(skb) && NameOf(skb) in tree.Contents() ==> AnswerStart(skb, |NameOf(skb)|) <= skb.len <= |skb.head|
      modifies this
      ensures Valid() && history == old(history) + [Out(skb)]
      ensures reply.Some? ==> HasName(skb)
      ensures reply.Some? <==>
              && skb.head[9] == 17 && 256 * skb.head[skb.transport + 2] as int + skb.head[skb.transport + 3] as int == 53
              && Earliest(old(history), NameOf(skb)).Some? && outcome.Sent?
      ensures reply.Some? ==>
                var node := Earliest(old(history), NameOf(skb)).value;
                Answerable(skb, node) && IsReply(skb, node, tail, reply.value)
      ensures verdict == Drop <==> reply.Some? && outcome.code == 0
    {
      verdict, reply := Accept, None;
      history := history + [Out(skb)];
      CacheStep(old(history), Out(skb));
      if ToDns(skb) {
        var hname := NameOf(skb);
        CacheIsEarliest(old(history), hname);
        var node, _ := tree.Search(hname);
        if node.Some? && outcome.Sent? {
          assert node.value.host == hname by { CacheNames(old(history), hname); }
          var r := CreatePacket(skb, node.value, tail);
          reply := Some(r);
          if outcome.code == 0 {
            verdict := Drop;
          }
        }
      }
    }
  }

  lemma {:induction false} CacheNames(h: seq<Event>, name: CStr)
    requires name in CacheAfter(h)
    ensures CacheAfter(h)[name].host == name
  {
    var g := h[..|h| - 1];
    if name in CacheAfter(g) { CacheNames(g, name); }
  }

  // ----- re-entry -----

  lemma {:induction false} EarliestExtends(h: seq<Event>, more: seq<Event>, name: CStr)
    requires Earliest(h, name).Some?
    ensures Earliest(h + more, name) == Earliest(h, name)
    decreases |more|
  {
    if more == [] {
      assert h + more == h;
    } else {
      EarliestAppend(h, more[0], name);
      EarliestExtends(h + [more[0]], more[1..], name);
      assert h + more == h + [more[0]] + more[1..];
    }
  }

  /** A response for a name that already has an answer changes nothing, whenever it arrives. */
  lemma {:induction false} LearnsNothing(h: seq<Event>, r: SkBuff, node: DnsNode, more: seq<Event>)
    requires HasName(r) && Earliest(h, NameOf(r)) == Some(node)
    ensures Earliest(h + more, NameOf(r)) == Some(node)
    ensures CacheAfter(h + more + [In(r)]) == CacheAfter(h + more)
  {
    EarliestExtends(h, more, NameOf(r));
    CacheIsEarliest(h + more, NameOf(r));
    CacheStep(h + more, In(r));
  }

  /** A synthesized reply that comes back to the hooks, at any later time: the inbound hook can read it
      and learns nothing from it; the outbound hook answers it again exactly when the client asked from
      port 53, and then that answer is in the same position. */
  lemma {:induction false} ReplyReenters(h: seq<Event>, q: SkBuff, node: DnsNode, tail: seq<byte>, r: SkBuff,
                                         more: seq<Event>)
    requires HasHeaders(q) && ToDns(q) && HasName(q) && Earliest(h, NameOf(q)) == Some(node)
    requires Answerable(q, node) && IsReply(q, node, tail, r)
    ensures HasHeaders(r) && Acceptable(r) && NameOf(r) == NameOf(q)
    ensures CacheAfter(h + more + [In(r)]) == CacheAfter(h + more)
    ensures ToDns(r) <==> U16(q.head, q.transport) == DNS_PORT
    ensures Earliest(h + more, NameOf(r)) == Some(node) && Answerable(r, node)
    ensures ToDns(r) ==> U16(r.head, r.transport) == DNS_PORT
  {
    var i := EarliestAt(h, NameOf(q));
    ReplyReadsBack(q, node, tail, r);
    ReplyPorts(q, node, tail, r);
    LearnsNothing(h, r, node, more);
  }
}
