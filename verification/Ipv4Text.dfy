/** Dotted quads: the printer of the route tool and the parser of the kernel ping module. */
module Ipv4Text {
  import opened Bytes

  predicate IsDigit(c: char) {
    '0' <= c <= '9'
  }

  ghost predicate AllDigits(s: string) {
    forall i :: 0 <= i < |s| ==> IsDigit(s[i])
  }

  /** `%d` of a non-negative number, for `sprintf`. */
  function PrintInt(n: nat): (s: string)
    ensures |s| >= 1 && AllDigits(s)
  {
    var d := ['0' + (n % 10) as char];
    if n < 10 then d else PrintInt(n / 10) + d
  }

  /** `%d` of `sscanf` behind the digits already read into `acc`: the number and the text after it. */
  function ScanDigits(acc: nat, s: string): (r: (nat, string))
    decreases |s|
  {
    if s != [] && IsDigit(s[0]) then ScanDigits(10 * acc + (s[0] as int - '0' as int), s[1..]) else (acc, s)
  }

  lemma {:induction false} ScanRun(acc: nat, p: string, t: string)
    requires AllDigits(p)
    ensures ScanDigits(acc, p + t) == ScanDigits(ScanDigits(acc, p).0, t)
    decreases |p|
  {
    if p == [] {
      assert p + t == t;
    } else {
      ScanRun(10 * acc + (p[0] as int - '0' as int), p[1..], t);
      assert (p + t)[1..] == p[1..] + t;
    }
  }

  /** Scanning a printed number gives the number back. */
  lemma {:induction false} ScanPrinted(n: nat)
    ensures ScanDigits(0, PrintInt(n)).0 == n
  {
    var d := ['0' + (n % 10) as char];
    assert d[1..] == [];
    if n >= 10 {
      ScanPrinted(n / 10);
      ScanRun(0, PrintInt(n / 10), d);
    }
  }

  /** One conversion; it fails without a digit. */
  function ScanInt(s: string): (r: Option<(nat, string)>) {
    if s == [] || !IsDigit(s[0]) then None else Some(ScanDigits(0, s))
  }

  lemma {:induction false} ScanIntPrinted(n: nat, t: string)
    requires t == [] || !IsDigit(t[0])
    ensures ScanInt(PrintInt(n) + t) == Some((n, t))
  {
    ScanPrinted(n);
    ScanRun(0, PrintInt(n), t);
  }

  /** A dot and a conversion. */
  function ScanDotInt(s: string): (r: Option<(nat, string)>) {
    if s == [] || s[0] != '.' then None else ScanInt(s[1..])
  }

  lemma {:induction false} ScanDotIntPrinted(n: nat, t: string)
    requires t == [] || !IsDigit(t[0])
    ensures ScanDotInt("." + (PrintInt(n) + t)) == Some((n, t))
  {
    ScanIntPrinted(n, t);
    assert ("." + (PrintInt(n) + t))[1..] == PrintInt(n) + t;
  }

  /** `ntoa`: the octets of the address, the lowest in memory first. */
  function Ntoa(a: Quad): (s: string) {
    PrintInt(a.b0) + ("." + (PrintInt(a.b1) + ("." + (PrintInt(a.b2) + ("." + (PrintInt(a.b3) + ""))))))
  }

  /** The address that a text stands for: four numbers between dots, each kept to eight bits. The
      source leaves numbers that did not match uninitialised; here that is `None`. */
  function ParseQuad(s: string): (r: Option<Quad>) {
    match ScanInt(s)
    case None => None
    case Some((a, s1)) =>
      match ScanDotInt(s1)
      case None => None
      case Some((b, s2)) =>
        match ScanDotInt(s2)
        case None => None
        case Some((c, s3)) =>
          match ScanDotInt(s3)
          case None => None
          case Some((d, _)) => Some(Quad(a % 256, b % 256, c % 256, d % 256))
  }

  /** `inet_addr`: scan, then fill the four octets. */
  method InetAddr(s: string) returns (r: Option<Quad>)
    ensures r == ParseQuad(s)
    ensures forall a :: s == Ntoa(a) ==> r == Some(a)
  {
    forall a | s == Ntoa(a)
      ensures ParseQuad(s) == Some(a)
    {
      RoundTrip(a);
    }
    var a := ScanInt(s);
    if a.None? { return None; }
    var b := ScanDotInt(a.value.1);
    if b.None? { return None; }
    var c := ScanDotInt(b.value.1);
    if c.None? { return None; }
    var d := ScanDotInt(c.value.1);
    if d.None? { return None; }
    r := Some(Quad(a.value.0 % 256, b.value.0 % 256, c.value.0 % 256, d.value.0 % 256));
  }

  /** Parsing the printed form gives back every 32-bit address. */
  lemma {:induction false} RoundTrip(a: Quad)
    ensures ParseQuad(Ntoa(a)) == Some(a)
  {
    var t3 := "." + (PrintInt(a.b3) + "");
    var t2 := "." + (PrintInt(a.b2) + t3);
    var t1 := "." + (PrintInt(a.b1) + t2);
    ScanIntPrinted(a.b0, t1);
    ScanDotIntPrinted(a.b1, t2);
    ScanDotIntPrinted(a.b2, t3);
    ScanDotIntPrinted(a.b3, "");
    ParseSteps(Ntoa(a), t1, t2, t3, a);
  }

  lemma {:induction false} ParseSteps(s: string, t1: string, t2: string, t3: string, a: Quad)
    requires ScanInt(s) == Some((a.b0, t1)) && ScanDotInt(t1) == Some((a.b1, t2))
    requires ScanDotInt(t2) == Some((a.b2, t3)) && ScanDotInt(t3) == Some((a.b3, ""))
    ensures ParseQuad(s) == Some(a)
  {
  }

  lemma {:induction false} ShortInt(b: byte)
    ensures 1 <= |PrintInt(b)| <= 3
  {
    if b >= 10 {
      assert PrintInt(b) == PrintInt(b / 10) + ['0' + (b % 10) as char];
      if b >= 100 {
        assert PrintInt(b / 10) == PrintInt(b / 100) + ['0' + (b / 10 % 10) as char];
      }
    }
  }

  /** The text fits the eighteen-byte static buffer with its NUL. */
  lemma {:induction false} NtoaFits(a: Quad)
    ensures 7 <= |Ntoa(a)| <= 15
  {
    ShortInt(a.b0);
    ShortInt(a.b1);
    ShortInt(a.b2);
    ShortInt(a.b3);
  }

  // ----- the texts as numbers -----

  /** The value of decimal digits. */
  ghost function Decimal(s: string): (n: nat)
    requires AllDigits(s)
  {
    if s == [] then 0 else 10 * Decimal(s[..|s| - 1]) + (s[|s| - 1] as int - '0' as int)
  }

  ghost predicate Number(s: string) {
    s != "" && AllDigits(s)
  }

  /** Printing gives the shortest number of that value. */
  lemma {:induction false} PrintDecimal(n: nat)
    ensures Number(PrintInt(n)) && Decimal(PrintInt(n)) == n
    ensures |PrintInt(n)| > 1 ==> PrintInt(n)[0] != '0'
  {
    var d := ['0' + (n % 10) as char];
    if n < 10 {
      assert d[..0] == [];
    } else {
      PrintDecimal(n / 10);
      assert PrintInt(n)[..|PrintInt(n)| - 1] == PrintInt(n / 10);
      assert |PrintInt(n / 10)| == 1 ==> PrintInt(n / 10)[0] == '0' + (n / 10 % 10) as char;
    }
  }

  lemma {:induction false} ScanDecimal(p: string)
    requires AllDigits(p)
    ensures ScanDigits(0, p) == (Decimal(p), "")
  {
    if p != "" {
      var q, d := p[..|p| - 1], p[|p| - 1..];
      ScanDecimal(q);
      ScanRun(0, q, d);
      assert p == q + d && d[1..] == [];
    }
  }

  lemma {:induction false} ScanNumber(p: string, t: string)
    requires Number(p) && (t == "" || !IsDigit(t[0]))
    ensures ScanInt(p + t) == Some((Decimal(p), t))
  {
    ScanDecimal(p);
    ScanRun(0, p, t);
  }

  /** `ntoa` writes the octets in their order in memory, in decimal, without leading zeros. */
  lemma {:induction false} NtoaNumbers(a: Quad) returns (p: seq<string>)
    ensures |p| == 4 && Ntoa(a) == p[0] + ("." + (p[1] + ("." + (p[2] + ("." + p[3])))))
    ensures Number(p[0]) && Number(p[1]) && Number(p[2]) && Number(p[3])
    ensures forall i :: 0 <= i < 4 && |p[i]| > 1 ==> p[i][0] != '0'
    ensures Decimal(p[0]) == a.b0 && Decimal(p[1]) == a.b1 && Decimal(p[2]) == a.b2 && Decimal(p[3]) == a.b3
  {
    p := [PrintInt(a.b0), PrintInt(a.b1), PrintInt(a.b2), PrintInt(a.b3)];
    PrintDecimal(a.b0);
    PrintDecimal(a.b1);
    PrintDecimal(a.b2);
    PrintDecimal(a.b3);
    assert PrintInt(a.b3) + "" == PrintInt(a.b3);
  }

  /** Any four numbers between dots parse, whatever follows, to their values modulo 256. */
  lemma {:induction false} ParseNumbers(p: string, q: string, r: string, s: string, t: string)
    requires Number(p) && Number(q) && Number(r) && Number(s) && (t == "" || !IsDigit(t[0]))
    ensures ParseQuad(p + ("." + (q + ("." + (r + ("." + (s + t))))))) ==
            Some(Quad(Decimal(p) % 256, Decimal(q) % 256, Decimal(r) % 256, Decimal(s) % 256))
  {
    var x := "." + (s + t);
    var y := "." + (r + x);
    var z := "." + (q + y);
    ScanNumber(p, z);
    ScanNumber(q, y);
    ScanNumber(r, x);
    ScanNumber(s, t);
    assert z[1..] == q + y && y[1..] == r + x && x[1..] == s + t;
  }

  lemma {:induction false} ScanSplit(acc: nat, s: string) returns (p: string)
    ensures var (n, t) := ScanDigits(acc, s);
            AllDigits(p) && s == p + t && (t == "" || !IsDigit(t[0]))
    ensures s != "" && IsDigit(s[0]) ==> p != ""
    decreases |s|
  {
    if s != "" && IsDigit(s[0]) {
      var q := ScanSplit(10 * acc + (s[0] as int - '0' as int), s[1..]);
      p := [s[0]] + q;
    } else {
      p := "";
    }
  }

  /** And nothing else parses. */
  lemma {:induction false} ParsedIsNumbers(text: string) returns (p: seq<string>, t: string)
    requires ParseQuad(text).Some?
    ensures |p| == 4 && forall i :: 0 <= i < 4 ==> Number(p[i])
    ensures text == p[0] + ("." + (p[1] + ("." + (p[2] + ("." + (p[3] + t))))))
  {
    var s1 := ScanInt(text).value.1;
    var s2 := ScanDotInt(s1).value.1;
    var s3 := ScanDotInt(s2).value.1;
    t := ScanDotInt(s3).value.1;
    var p0 := ScanSplit(0, text);
    var p1 := ScanSplit(0, s1[1..]);
    var p2 := ScanSplit(0, s2[1..]);
    var p3 := ScanSplit(0, s3[1..]);
    p := [p0, p1, p2, p3];
    assert s1 == "." + (p1 + s2) && s2 == "." + (p2 + s3) && s3 == "." + (p3 + t);
  }
}
