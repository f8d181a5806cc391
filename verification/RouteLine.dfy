/** The line `print_route` prints for a route: a local `struct route_info`, filled in by the attributes
    that are there. */
module RouteLine {
  import opened Bytes
  import opened Netlink
  import opened Ipv4Text

  /** What the stack holds where `rt_info` lies. */
  datatype Leftover = Leftover(dst: Quad, src: Quad, gateway: Quad, name: string)

  function Or<T>(o: Option<T>, rest: T): (r: T) {
    if o.Some? then o.value else rest
  }

  const NO_ADDR := Quad(0, 0, 0, 0)
  const NO_DST := "0.0.0.0  "
  const NO_HOP := "*.*.*.*"

  function AddrText(a: Quad, zero: string): (s: string) {
    if a == NO_ADDR then zero else Ntoa(a)
  }

  /** The four calls of `printf`. `names` is `if_indextoname`. */
  function Line(info: RouteInfo, left: Leftover, names: Quad -> string): (s: string) {
    AddrText(Or(info.dst, left.dst), NO_DST) + ("\t" + (AddrText(Or(info.gateway, left.gateway), NO_HOP) + ("\t" +
    (NameText(info, left, names) + ("\t" + (AddrText(Or(info.src, left.src), NO_HOP) + "\n"))))))
  }

  function NameText(info: RouteInfo, left: Leftover, names: Quad -> string): (s: string) {
    if info.oif.Some? then names(info.oif.value) else left.name
  }

  // ----- reading a line -----

  /** Digits and dots only. */
  ghost predicate Dotted(s: string) {
    forall i :: 0 <= i < |s| ==> IsDigit(s[i]) || s[i] == '.'
  }

  ghost predicate NoTab(s: string) {
    forall i :: 0 <= i < |s| ==> s[i] != '\t'
  }

  lemma {:induction false} DottedPart(n: nat, t: string)
    requires Dotted(t)
    ensures Dotted("." + t) && Dotted(PrintInt(n) + t)
  {
  }

  lemma {:induction false} NtoaDotted(a: Quad)
    ensures Dotted(Ntoa(a))
  {
    var t3 := PrintInt(a.b3) + "";
    var t2 := PrintInt(a.b2) + ("." + t3);
    var t1 := PrintInt(a.b1) + ("." + t2);
    DottedPart(a.b3, "");
    DottedPart(a.b2, t3);
    DottedPart(a.b2, "." + t3);
    DottedPart(a.b1, t2);
    DottedPart(a.b1, "." + t2);
    DottedPart(a.b0, t1);
    DottedPart(a.b0, "." + t1);
  }

  lemma {:induction false} AddrNoTab(a: Quad, zero: string)
    requires zero == NO_DST || zero == NO_HOP
    ensures NoTab(AddrText(a, zero))
  {
    NtoaDotted(a);
  }

  /** The text tells the address; the stand-ins for zero are no address's text. */
  lemma {:induction false} AddrTextTells(a: Quad, b: Quad, zero: string)
    requires zero == NO_DST || zero == NO_HOP
    requires AddrText(a, zero) == AddrText(b, zero)
    ensures a == b
  {
    NtoaDotted(a);
    NtoaDotted(b);
    RoundTrip(a);
    RoundTrip(b);
    assert !Dotted(zero) by {
      assert !IsDigit(zero[|zero| - 1]) && zero[|zero| - 1] != '.';
    }
  }

  lemma {:induction false} FirstTab(a: string, x: string, b: string, y: string)
    requires NoTab(a) && NoTab(b) && a + ("\t" + x) == b + ("\t" + y)
    ensures a == b && x == y
  {
    var s := a + ("\t" + x);
    assert s[|a|] == '\t' && s[|b|] == '\t';
    assert forall k :: 0 <= k < |a| ==> s[k] == a[k];
    assert forall k :: 0 <= k < |b| ==> s[k] == b[k];
    assert |a| == |b|;
    assert s[..|a|] == a && s[..|b|] == b;
    assert s[|a| + 1..] == x && s[|b| + 1..] == y;
  }

  predicate Complete(info: RouteInfo) {
    info.dst.Some? && info.src.Some? && info.gateway.Some? && info.oif.Some?
  }

  /** Routes with all their fields print the same line only if their addresses and interface names are the
      same. */
  lemma {:induction false} LineTells(i: RouteInfo, j: RouteInfo, left: Leftover, names: Quad -> string)
    requires Complete(i) && Complete(j) && NoTab(names(i.oif.value)) && NoTab(names(j.oif.value))
    requires Line(i, left, names) == Line(j, left, names)
    ensures i.dst == j.dst && i.gateway == j.gateway && i.src == j.src
    ensures names(i.oif.value) == names(j.oif.value)
  {
    AddrNoTab(i.dst.value, NO_DST);
    AddrNoTab(j.dst.value, NO_DST);
    AddrNoTab(i.gateway.value, NO_HOP);
    AddrNoTab(j.gateway.value, NO_HOP);
    var (s4, t4) := (AddrText(i.src.value, NO_HOP) + "\n", AddrText(j.src.value, NO_HOP) + "\n");
    var (s3, t3) := (names(i.oif.value) + ("\t" + s4), names(j.oif.value) + ("\t" + t4));
    var (s2, t2) := (AddrText(i.gateway.value, NO_HOP) + ("\t" + s3), AddrText(j.gateway.value, NO_HOP) + ("\t" + t3));
    FirstTab(AddrText(i.dst.value, NO_DST), s2, AddrText(j.dst.value, NO_DST), t2);
    FirstTab(AddrText(i.gateway.value, NO_HOP), s3, AddrText(j.gateway.value, NO_HOP), t3);
    FirstTab(names(i.oif.value), s4, names(j.oif.value), t4);
    assert s4[..|s4| - 1] == t4[..|t4| - 1];
    AddrTextTells(i.dst.value, j.dst.value, NO_DST);
    AddrTextTells(i.gateway.value, j.gateway.value, NO_HOP);
    AddrTextTells(i.src.value, j.src.value, NO_HOP);
  }

  // ----- what is left on the stack -----

  lemma {:induction false} TextLengths()
    ensures |AddrText(Quad(1, 1, 1, 1), NO_DST)| == 7
    ensures |AddrText(Quad(10, 1, 1, 1), NO_HOP)| == 8
  {
    assert PrintInt(1) == "1" && PrintInt(10) == PrintInt(1) + "0";
  }

  lemma {:induction false} LineLength(info: RouteInfo, left: Leftover, names: Quad -> string)
    ensures |Line(info, left, names)| ==
            |AddrText(Or(info.dst, left.dst), NO_DST)| + |AddrText(Or(info.gateway, left.gateway), NO_HOP)|
            + |NameText(info, left, names)| + |AddrText(Or(info.src, left.src), NO_HOP)| + 4
  {
  }

  /** Two stacks on which the line differs. */
  lemma {:induction false} LineDiffers(info: RouteInfo, names: Quad -> string) returns (s: Leftover, t: Leftover)
    requires !Complete(info)
    ensures Line(info, s, names) != Line(info, t, names)
  {
    s := Leftover(NO_ADDR, NO_ADDR, NO_ADDR, "");
    t := if info.dst.None? then s.(dst := Quad(1, 1, 1, 1))
         else if info.gateway.None? then s.(gateway := Quad(10, 1, 1, 1))
         else if info.src.None? then s.(src := Quad(10, 1, 1, 1))
         else s.(name := "a");
    TextLengths();
    LineLength(info, s, names);
    LineLength(info, t, names);
  }

  ghost predicate Has(ts: seq<Tlv>, kind: nat) {
    exists i :: 0 <= i < |ts| && ts[i].kind == kind
  }

  lemma {:induction false} LastTlvSome(ts: seq<Tlv>, kind: nat)
    requires forall i :: 0 <= i < |ts| && ts[i].kind == kind ==> |ts[i].payload| >= 4
    ensures LastTlv(ts, kind).Some? <==> Has(ts, kind)
  {
    if ts != [] {
      var n := |ts| - 1;
      LastTlvSome(ts[..n], kind);
      if Has(ts, kind) && ts[n].kind != kind {
        var i :| 0 <= i < |ts| && ts[i].kind == kind;
        assert ts[..n][i].kind == kind;
      }
    }
  }

  /** The line of a route is the same on every stack exactly when the route carries all four attributes:
      destination, source, gateway and interface. */
  lemma {:induction false} LineIndependentIff(ts: seq<Tlv>, names: Quad -> string)
    requires Loadable(ts)
    ensures (forall s, t :: Line(Fields(ts), s, names) == Line(Fields(ts), t, names))
            <==> Has(ts, RTA_DST) && Has(ts, RTA_PREFSRC) && Has(ts, RTA_GATEWAY) && Has(ts, RTA_OIF)
  {
    LastTlvSome(ts, RTA_DST);
    LastTlvSome(ts, RTA_PREFSRC);
    LastTlvSome(ts, RTA_GATEWAY);
    LastTlvSome(ts, RTA_OIF);
    if !Complete(Fields(ts)) {
      var s, t := LineDiffers(Fields(ts), names);
    }
  }

  // ----- the columns -----

  /** The texts between tabs. */
  function Columns(s: string): (c: seq<string>)
    ensures |c| >= 1
  {
    if s == "" then [""]
    else
      var c := Columns(s[1..]);
      if s[0] == '\t' then [""] + c else [[s[0]] + c[0]] + c[1..]
  }

  lemma {:induction false} OneColumn(a: string)
    requires NoTab(a)
    ensures Columns(a) == [a]
  {
    if a != "" {
      OneColumn(a[1..]);
      assert a == [a[0]] + a[1..];
    }
  }

  lemma {:induction false} FirstColumn(a: string, x: string)
    requires NoTab(a)
    ensures Columns(a + ("\t" + x)) == [a] + Columns(x)
  {
    var s := a + ("\t" + x);
    if a == "" {
      assert s[1..] == x;
    } else {
      FirstColumn(a[1..], x);
      assert s[1..] == a[1..] + ("\t" + x);
      assert a == [a[0]] + a[1..];
    }
  }

  /** The text stands for the address: a text of its own for zero, and otherwise what parses to it. */
  predicate StandsFor(c: string, a: Quad, zero: string) {
    (c == zero <==> a == Quad(0, 0, 0, 0)) && (c != zero ==> ParseQuad(c) == Some(a))
  }

  lemma {:induction false} AddrStands(a: Quad, zero: string)
    requires zero == "0.0.0.0  " || zero == "*.*.*.*"
    ensures StandsFor(AddrText(a, zero), a, zero) && NoTab(AddrText(a, zero))
  {
    AddrNoTab(a, zero);
    NtoaDotted(a);
    RoundTrip(a);
    assert !Dotted(zero) by {
      assert !IsDigit(zero[|zero| - 1]) && zero[|zero| - 1] != '.';
    }
  }

  /** The line has four columns: destination, gateway, interface and source. */
  lemma {:induction false} LineColumns(info: RouteInfo, left: Leftover, names: Quad -> string, text: string)
    requires text == Line(info, left, names) && NoTab(if info.oif.Some? then names(info.oif.value) else left.name)
    ensures text != "" && text[|text| - 1] == '\n'
    ensures var c := Columns(text[..|text| - 1]);
            && |c| == 4
            && StandsFor(c[0], if info.dst.Some? then info.dst.value else left.dst, "0.0.0.0  ")
            && StandsFor(c[1], if info.gateway.Some? then info.gateway.value else left.gateway, "*.*.*.*")
            && c[2] == (if info.oif.Some? then names(info.oif.value) else left.name)
            && StandsFor(c[3], if info.src.Some? then info.src.value else left.src, "*.*.*.*")
  {
    var d, g := AddrText(Or(info.dst, left.dst), NO_DST), AddrText(Or(info.gateway, left.gateway), NO_HOP);
    var n, s := NameText(info, left, names), AddrText(Or(info.src, left.src), NO_HOP);
    AddrStands(Or(info.dst, left.dst), NO_DST);
    AddrStands(Or(info.gateway, left.gateway), NO_HOP);
    AddrStands(Or(info.src, left.src), NO_HOP);
    FourColumns(d, g, n, s, text);
  }

  lemma {:induction false} FourColumns(d: string, g: string, n: string, s: string, text: string)
    requires NoTab(d) && NoTab(g) && NoTab(n) && NoTab(s)
    requires text == d + ("\t" + (g + ("\t" + (n + ("\t" + (s + "\n"))))))
    ensures text != "" && text[|text| - 1] == '\n' && Columns(text[..|text| - 1]) == [d, g, n, s]
  {
    var x := n + ("\t" + s);
    var y := g + ("\t" + x);
    var z := d + ("\t" + y);
    assert n + ("\t" + (s + "\n")) == x + "\n";
    assert g + ("\t" + (x + "\n")) == y + "\n";
    assert d + ("\t" + (y + "\n")) == z + "\n";
    assert (z + "\n")[..|z|] == z;
    FirstColumn(d, y);
    FirstColumn(g, x);
    FirstColumn(n, s);
    OneColumn(s);
  }

  /** `i` is the last attribute of the kind. */
  ghost predicate IsLast(ts: seq<Tlv>, i: nat, kind: nat) {
    i < |ts| && ts[i].kind == kind && forall k :: i < k < |ts| ==> ts[k].kind != kind
  }

  /** The first four octets of an attribute's data. */
  function Data(t: Tlv): (a: Quad)
    requires |t.payload| >= 4
  {
    Quad(t.payload[0], t.payload[1], t.payload[2], t.payload[3])
  }

  lemma {:induction false} LastTlvIs(ts: seq<Tlv>, i: nat, kind: nat)
    requires forall k :: 0 <= k < |ts| && ts[k].kind == kind ==> |ts[k].payload| >= 4
    requires IsLast(ts, i, kind)
    ensures LastTlv(ts, kind) == Some(Data(ts[i]))
  {
    var n := |ts| - 1;
    if i < n {
      LastTlvIs(ts[..n], i, kind);
    }
  }

  /** From the octets of a message to the line: a main-table route shows, in this order, its last
      attributes of kinds 1, 5, 4 and 7. */
  lemma {:induction false} RoutePrinted(b: seq<byte>, item: Item, m: Msg, dst: nat, gateway: nat, oif: nat, src: nat,
                                        left: Leftover, names: Quad -> string, text: string)
    requires MsgOk(m) && m.RouteMsg? && m.rtm[4] == 254 && MsgVisited(b, item, m)
    requires forall k :: 0 <= k < |m.attrs| && m.attrs[k].kind in {1, 4, 5, 7} ==> |m.attrs[k].payload| >= 4
    requires IsLast(m.attrs, dst, 1) && IsLast(m.attrs, gateway, 5) && IsLast(m.attrs, oif, 4) && IsLast(m.attrs, src, 7)
    requires NoTab(names(Data(m.attrs[oif])))
    ensures item.kind == RTM_NEWROUTE ==> RouteReadable(b, item)
    ensures VisitOf(b, item).Route?
    ensures text == Line(VisitOf(b, item).info, left, names) ==>
              && text != "" && text[|text| - 1] == '\n'
              && var c := Columns(text[..|text| - 1]);
              && |c| == 4 && StandsFor(c[0], Data(m.attrs[dst]), "0.0.0.0  ")
              && StandsFor(c[1], Data(m.attrs[gateway]), "*.*.*.*") && c[2] == names(Data(m.attrs[oif]))
              && StandsFor(c[3], Data(m.attrs[src]), "*.*.*.*")
  {
    MsgShown(b, item, m);
    LastTlvIs(m.attrs, dst, 1);
    LastTlvIs(m.attrs, gateway, 5);
    LastTlvIs(m.attrs, oif, 4);
    LastTlvIs(m.attrs, src, 7);
    if text == Line(VisitOf(b, item).info, left, names) {
      LineColumns(VisitOf(b, item).info, left, names, text);
    }
  }
}
