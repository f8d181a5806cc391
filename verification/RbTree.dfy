/**
 The ordered tree behind the DNS cache: `search` and `insert`, with the kernel's red-black
 rebalancing run on a path of parent links.
 */
module RbTree {
  import opened Bytes
  import opened CStrings

  datatype DnsNode = DnsNode(host: CStr, addr: Quad, ttl: Quad)

  datatype Color = Red | Black

  datatype Tree = Leaf | Node(color: Color, left: Tree, data: DnsNode, right: Tree)

  datatype Side = LeftOf | RightOf

  /** The parent links from a position up to the root: which child the position is, and the parent's
      colour, data and other child. */
  datatype Path = Top | Under(side: Side, color: Color, data: DnsNode, sibling: Tree, up: Path)

  function InOrder(t: Tree): (s: seq<DnsNode>) {
    match t
    case Leaf => []
    case Node(_, l, d, r) => InOrder(l) + [d] + InOrder(r)
  }

  function Join(side: Side, color: Color, data: DnsNode, focus: Tree, sibling: Tree): (t: Tree) {
    if side.LeftOf? then Node(color, focus, data, sibling) else Node(color, sibling, data, focus)
  }

  /** The whole tree with `t` at the end of the path. */
  function Plug(p: Path, t: Tree): (r: Tree)
    decreases p
  {
    match p
    case Top => t
    case Under(side, color, data, sibling, up) => Plug(up, Join(side, color, data, t, sibling))
  }

  /** What an in-order walk of the whole tree meets before, and after, the end of the path. */
  function Before(p: Path): (s: seq<DnsNode>) {
    match p
    case Top => []
    case Under(side, _, data, sibling, up) =>
      if side.LeftOf? then Before(up) else Before(up) + InOrder(sibling) + [data]
  }

  function After(p: Path): (s: seq<DnsNode>) {
    match p
    case Top => []
    case Under(side, _, data, sibling, up) =>
      if side.LeftOf? then [data] + InOrder(sibling) + After(up) else After(up)
  }

  lemma {:induction false} InOrderPlug(p: Path, t: Tree)
    ensures InOrder(Plug(p, t)) == Before(p) + InOrder(t) + After(p)
    decreases p
  {
    if p.Under? {
      InOrderPlug(p.up, Join(p.side, p.color, p.data, t, p.sibling));
    }
  }

  // ----- key order -----

  /** Strictly increasing host names under strcmp. */
  ghost predicate Sorted(s: seq<DnsNode>) {
    forall i, j :: 0 <= i < j < |s| ==> Below(s[i].host, s[j].host)
  }

  ghost predicate AllBelow(s: seq<DnsNode>, key: CStr) {
    forall i :: 0 <= i < |s| ==> Below(s[i].host, key)
  }

  ghost predicate AllAbove(s: seq<DnsNode>, key: CStr) {
    forall i :: 0 <= i < |s| ==> Below(key, s[i].host)
  }

  /** The dictionary a sequence of nodes stands for. */
  ghost function Dict(s: seq<DnsNode>): (m: map<CStr, DnsNode>) {
    if s == [] then map[] else Dict(s[1..])[s[0].host := s[0]]
  }

  /** Every entry of the dictionary is a node of the sequence, under its own name. */
  lemma {:induction false} DictEntry(s: seq<DnsNode>, key: CStr) returns (i: nat)
    requires key in Dict(s)
    ensures i < |s| && s[i].host == key && Dict(s)[key] == s[i]
  {
    if s[0].host == key {
      i := 0;
    } else {
      i := DictEntry(s[1..], key);
      i := i + 1;
    }
  }

  lemma {:induction false} DictAt(s: seq<DnsNode>, i: nat)
    requires Sorted(s) && i < |s|
    ensures s[i].host in Dict(s) && Dict(s)[s[i].host] == s[i]
  {
    if i > 0 {
      DictAt(s[1..], i - 1);
      StrCmpTotalOrder(s[0].host, s[i].host, []);
    }
  }

  lemma {:induction false} UpdatesCommute(m: map<CStr, DnsNode>, x: DnsNode, y: DnsNode)
    requires x.host != y.host
    ensures m[x.host := x][y.host := y] == m[y.host := y][x.host := x]
  {
  }

  /** Adding a node in key order adds exactly its key to the dictionary. */
  lemma {:induction false} DictInsert(a: seq<DnsNode>, d: DnsNode, b: seq<DnsNode>)
    requires AllBelow(a, d.host)
    ensures Dict(a + [d] + b) == Dict(a + b)[d.host := d]
  {
    if a == [] {
      assert (a + [d] + b)[1..] == b == a + b;
    } else {
      var x, rest := a[0], a[1..];
      DictInsert(rest, d, b);
      assert (a + [d] + b)[1..] == rest + [d] + b && (a + b)[1..] == rest + b;
      assert x.host != d.host by { StrCmpZero(x.host, d.host); }
      UpdatesCommute(Dict(rest + b), d, x);
    }
  }

  /** One comparison at a node puts the key on one side of everything on the other side. */
  lemma {:induction false} DescendLeft(a: seq<DnsNode>, l: seq<DnsNode>, d: DnsNode, r: seq<DnsNode>,
                                       b: seq<DnsNode>, key: CStr)
    requires Sorted(a + (l + [d] + r) + b)
    requires Below(key, d.host) && AllAbove(b, key)
    ensures AllAbove([d] + r + b, key)
  {
    var s := a + (l + [d] + r) + b;
    var k := |a| + |l|;
    assert s[k] == d;
    forall i | 0 <= i < |r|
      ensures Below(key, r[i].host)
    {
      assert s[k + 1 + i] == r[i];
      StrCmpTotalOrder(key, d.host, r[i].host);
    }
  }

  lemma {:induction false} DescendRight(a: seq<DnsNode>, l: seq<DnsNode>, d: DnsNode, r: seq<DnsNode>,
                                       b: seq<DnsNode>, key: CStr)
    requires Sorted(a + (l + [d] + r) + b)
    requires Below(d.host, key) && AllBelow(a, key)
    ensures AllBelow(a + l + [d], key)
  {
    var s := a + (l + [d] + r) + b;
    var k := |a| + |l|;
    assert s[k] == d;
    forall i | 0 <= i < |l|
      ensures Below(l[i].host, key)
    {
      assert s[|a| + i] == l[i];
      StrCmpTotalOrder(l[i].host, d.host, key);
    }
  }

  lemma {:induction false} SortedInsert(a: seq<DnsNode>, d: DnsNode, b: seq<DnsNode>)
    requires Sorted(a + b) && AllBelow(a, d.host) && AllAbove(b, d.host)
    ensures Sorted(a + [d] + b)
  {
    var s := a + [d] + b;
    forall i, j | 0 <= i < j < |s|
      ensures Below(s[i].host, s[j].host)
    {
      var i' := if i < |a| then i else i - 1;
      var j' := if j < |a| then j else j - 1;
      if i != |a| && j != |a| {
        assert s[i] == (a + b)[i'] && s[j] == (a + b)[j'];
      }
    }
  }

  /** The cursor of a search: the position below path `p`, with the key confined to it. */
  ghost predicate Cursor(root: Tree, p: Path, focus: Tree, key: CStr) {
    Plug(p, focus) == root && AllBelow(Before(p), key) && AllAbove(After(p), key)
  }

  function GoLeft(p: Path, t: Tree): (q: Path)
    requires t.Node?
    ensures Plug(q, t.left) == Plug(p, t)
  {
    Under(LeftOf, t.color, t.data, t.right, p)
  }

  function GoRight(p: Path, t: Tree): (q: Path)
    requires t.Node?
    ensures Plug(q, t.right) == Plug(p, t)
  {
    Under(RightOf, t.color, t.data, t.left, p)
  }

  lemma {:induction false} CursorStep(root: Tree, p: Path, t: Tree, key: CStr)
    requires Sorted(InOrder(root)) && Cursor(root, p, t, key) && t.Node?
    ensures Below(key, t.data.host) ==> Cursor(root, GoLeft(p, t), t.left, key)
    ensures Below(t.data.host, key) ==> Cursor(root, GoRight(p, t), t.right, key)
  {
    InOrderPlug(p, t);
    var a, l, d, r, b := Before(p), InOrder(t.left), t.data, InOrder(t.right), After(p);
    if Below(key, d.host) { DescendLeft(a, l, d, r, b, key); }
    if Below(d.host, key) { DescendRight(a, l, d, r, b, key); }
  }

  /** At an empty position the key is nowhere in the tree. */
  lemma {:induction false} CursorMiss(root: Tree, p: Path, key: CStr)
    requires Cursor(root, p, Leaf, key)
    ensures InOrder(root) == Before(p) + After(p)
    ensures key !in Dict(InOrder(root))
  {
    InOrderPlug(p, Leaf);
    var s := InOrder(root);
    if key in Dict(s) {
      var i := DictEntry(s, key);
      StrCmpZero(key, key);
      assert false;
    }
  }

  lemma {:induction false} CursorHit(root: Tree, p: Path, t: Tree, key: CStr)
    requires Sorted(InOrder(root)) && Cursor(root, p, t, key) && t.Node? && t.data.host == key
    ensures key in Dict(InOrder(root)) && Dict(InOrder(root))[key] == t.data
  {
    InOrderPlug(p, t);
    var k := |Before(p)| + |InOrder(t.left)|;
    assert InOrder(root)[k] == t.data;
    DictAt(InOrder(root), k);
  }

  // ----- balance -----

  predicate IsRed(t: Tree) {
    t.Node? && t.color.Red?
  }

  /** Black nodes on the leftmost way down. */
  function BlackHeight(t: Tree): (h: nat) {
    if t.Leaf? then 0 else BlackHeight(t.left) + if t.color.Black? then 1 else 0
  }

  /** Equal black heights on both sides of every node, and no red node with a red child. */
  ghost predicate Balanced(t: Tree) {
    t.Node? ==>
      && Balanced(t.left) && Balanced(t.right)
      && BlackHeight(t.left) == BlackHeight(t.right)
      && (t.color.Red? ==> !IsRed(t.left) && !IsRed(t.right))
  }

  ghost predicate RedBlack(t: Tree) {
    Balanced(t) && !IsRed(t)
  }

  /** A tree of black height `h` fits at the end of the path: it completes a red-black tree if its
      root is black or the parent is. */
  ghost predicate Fits(p: Path, h: nat) {
    p.Under? ==>
      && Balanced(p.sibling) && BlackHeight(p.sibling) == h
      && (p.color.Red? ==> !IsRed(p.sibling) && p.up.Under? && p.up.color.Black?)
      && Fits(p.up, if p.color.Black? then h + 1 else h)
  }

  lemma {:induction false} PlugRedBlack(p: Path, t: Tree)
    requires Balanced(t) && Fits(p, BlackHeight(t))
    requires IsRed(t) ==> p.Under? && p.color.Black?
    ensures RedBlack(Plug(p, t))
    decreases p
  {
    if p.Under? {
      PlugRedBlack(p.up, Join(p.side, p.color, p.data, t, p.sibling));
    }
  }

  /** The way down taken by the loops leaves a path that a black-height-0 leaf fits. */
  lemma {:induction false} FitsDown(p: Path, t: Tree)
    requires t.Node? && Balanced(t) && Fits(p, BlackHeight(t))
    requires IsRed(t) ==> p.Under? && p.color.Black?
    ensures Fits(GoLeft(p, t), BlackHeight(t.left)) && Fits(GoRight(p, t), BlackHeight(t.right))
  {
  }

  function Pow2(n: nat): (r: nat)
    ensures r >= 1
  {
    if n == 0 then 1 else 2 * Pow2(n - 1)
  }

  function Height(t: Tree): (h: nat) {
    if t.Leaf? then 0
    else 1 + if Height(t.left) > Height(t.right) then Height(t.left) else Height(t.right)
  }

  lemma {:induction false} BlackHeightBounds(t: Tree)
    requires Balanced(t)
    ensures Pow2(BlackHeight(t)) <= |InOrder(t)| + 1
    ensures Height(t) <= 2 * BlackHeight(t) + if IsRed(t) then 1 else 0
  {
    if t.Node? {
      BlackHeightBounds(t.left);
      BlackHeightBounds(t.right);
    }
  }

  lemma {:induction false} Pow2Double(n: nat)
    ensures Pow2(2 * n) == Pow2(n) * Pow2(n)
  {
    if n > 0 {
      Pow2Double(n - 1);
      assert Pow2(2 * n) == 2 * Pow2(2 * n - 1) == 4 * Pow2(2 * (n - 1));
    }
  }

  lemma {:induction false} Pow2Monotone(m: nat, n: nat)
    requires m <= n
    ensures Pow2(m) <= Pow2(n)
  {
    if m < n { Pow2Monotone(m, n - 1); }
  }

  lemma {:induction false} SquareMonotone(a: nat, b: nat)
    requires a <= b
    ensures a * a <= b * b
  {
  }

  /** A red-black tree of n nodes is at most 2·log2(n + 1) deep. */
  lemma {:induction false} HeightBound(t: Tree)
    requires RedBlack(t)
    ensures Pow2(Height(t)) <= (|InOrder(t)| + 1) * (|InOrder(t)| + 1)
  {
    BlackHeightBounds(t);
    var h, n := BlackHeight(t), |InOrder(t)| + 1;
    Pow2Monotone(Height(t), 2 * h);
    Pow2Double(h);
    SquareMonotone(Pow2(h), n);
  }

  // ----- rebalancing -----

  /** State of the recolouring loop: a red node whose only possible fault is a red parent. */
  ghost predicate Climbing(p: Path, t: Tree) {
    IsRed(t) && Balanced(t) && Fits(p, BlackHeight(t))
  }

  function Blacken(t: Tree): (r: Tree)
    ensures InOrder(r) == InOrder(t)
  {
    if t.Leaf? then t else t.(color := Black)
  }

  /** The uncle is red: both it and the parent turn black, the grandparent red, and the trouble moves
      two levels up. */
  function Recolour(p: Path, t: Tree): (r: Tree)
    requires p.Under? && p.up.Under?
  {
    Join(p.up.side, Red, p.up.data, Join(p.side, Black, p.data, t, p.sibling), Blacken(p.up.sibling))
  }

  /** The uncle is black: one or two rotations end with a black node over two red ones. An inner
      grandchild is first rotated into its parent's place. */
  function Rotate(p: Path, t: Tree): (r: Tree)
    requires p.Under? && p.up.Under? && t.Node?
  {
    var g := p.up;
    match (p.side, g.side)
    case (LeftOf, LeftOf) => Node(Black, t, p.data, Node(Red, p.sibling, g.data, g.sibling))
    case (RightOf, LeftOf) =>
      Node(Black, Node(Red, p.sibling, p.data, t.left), t.data, Node(Red, t.right, g.data, g.sibling))
    case (RightOf, RightOf) => Node(Black, Node(Red, g.sibling, g.data, p.sibling), p.data, t)
    case (LeftOf, RightOf) =>
      Node(Black, Node(Red, g.sibling, g.data, t.left), t.data, Node(Red, t.right, p.data, p.sibling))
  }

  /** Neither rewriting changes what an in-order walk meets. */
  lemma {:induction false} LocalInOrder(p: Path, t: Tree)
    requires p.Under? && p.up.Under? && t.Node?
    ensures Before(p.up.up) + InOrder(Recolour(p, t)) + After(p.up.up) == Before(p) + InOrder(t) + After(p)
    ensures Before(p.up.up) + InOrder(Rotate(p, t)) + After(p.up.up) == Before(p) + InOrder(t) + After(p)
  {
    RecolourInOrder(p, t);
    RotateInOrder(p, t);
    JoinInOrder(p, t);
    JoinInOrder(p.up, Join(p.side, p.color, p.data, t, p.sibling));
  }

  lemma {:induction false} JoinInOrder(p: Path, t: Tree)
    requires p.Under?
    ensures Before(p.up) + InOrder(Join(p.side, p.color, p.data, t, p.sibling)) + After(p.up)
         == Before(p) + InOrder(t) + After(p)
  {
  }

  lemma {:induction false} RecolourInOrder(p: Path, t: Tree)
    requires p.Under? && p.up.Under?
    ensures InOrder(Recolour(p, t))
         == InOrder(Join(p.up.side, p.up.color, p.up.data, Join(p.side, p.color, p.data, t, p.sibling), p.up.sibling))
  {
  }

  lemma {:induction false} RotateInOrder(p: Path, t: Tree)
    requires p.Under? && p.up.Under? && t.Node?
    ensures InOrder(Rotate(p, t))
         == InOrder(Join(p.up.side, p.up.color, p.up.data, Join(p.side, p.color, p.data, t, p.sibling), p.up.sibling))
  {
    var (a, b, s, u) := (InOrder(t.left), InOrder(t.right), InOrder(p.sibling), InOrder(p.up.sibling));
    var (x, y, z) := ([t.data], [p.data], [p.up.data]);
    var inner := Join(p.side, p.color, p.data, t, p.sibling);
    assert InOrder(t) == a + x + b;
    assert InOrder(inner) == if p.side.LeftOf? then InOrder(t) + y + s else s + y + InOrder(t);
    match (p.side, p.up.side)
    case (LeftOf, LeftOf) => Regroup(a, x, b, y, s, z, u);
    case (RightOf, LeftOf) => Regroup(s, y, a, x, b, z, u);
    case (RightOf, RightOf) => Regroup(u, z, s, y, a, x, b);
    case (LeftOf, RightOf) => Regroup(u, z, a, x, b, y, s);
  }

  /** The four ways the rotations bracket seven consecutive pieces of the walk. */
  lemma {:induction false} Regroup(a: seq<DnsNode>, x: seq<DnsNode>, b: seq<DnsNode>, y: seq<DnsNode>,
                c: seq<DnsNode>, z: seq<DnsNode>, d: seq<DnsNode>)
    ensures (a + x + b) + y + (c + z + d) == (a + x + b + y + c) + z + d
    ensures (a + x + b) + y + (c + z + d) == (a + x + (b + y + c)) + z + d
    ensures (a + x + b) + y + (c + z + d) == a + x + (b + y + (c + z + d))
    ensures (a + x + b) + y + (c + z + d) == a + x + ((b + y + c) + z + d)
  {
  }

  lemma {:induction false} RecolourClimbs(p: Path, t: Tree)
    requires Climbing(p, t) && p.Under? && p.color.Red? && IsRed(p.up.sibling)
    ensures Climbing(p.up.up, Recolour(p, t))
  {
    var h := BlackHeight(t);
    assert Fits(p.up, h) && Fits(p.up.up, h + 1);
    var parent, uncle := Join(p.side, Black, p.data, t, p.sibling), Blacken(p.up.sibling);
    assert Balanced(parent) && Balanced(uncle);
    assert BlackHeight(parent) == h + 1 == BlackHeight(uncle);
  }

  lemma {:induction false} RotateSettles(p: Path, t: Tree)
    requires Climbing(p, t) && p.Under? && p.color.Red? && !IsRed(p.up.sibling)
    ensures Balanced(Rotate(p, t)) && !IsRed(Rotate(p, t))
    ensures Fits(p.up.up, BlackHeight(Rotate(p, t)))
  {
    var h := BlackHeight(t);
    assert Fits(p.up, h) && Fits(p.up.up, h + 1);
    var r := Rotate(p, t);
    assert Balanced(r.left) && Balanced(r.right);
    assert BlackHeight(r.left) == h == BlackHeight(r.right);
  }

  /** `rb_insert_color`: climb from the new red node until no red node has a red parent. */
  method InsertColor(path: Path, node: Tree) returns (root: Tree)
    requires Climbing(path, node)
    ensures RedBlack(root)
    ensures InOrder(root) == Before(path) + InOrder(node) + After(path)
  {
    var p, t := path, node;
    while p.Under? && p.color.Red? && IsRed(p.up.sibling)
      invariant Climbing(p, t)
      invariant Before(p) + InOrder(t) + After(p) == Before(path) + InOrder(node) + After(path)
      decreases p
    {
      RecolourClimbs(p, t);
      LocalInOrder(p, t);
      t, p := Recolour(p, t), p.up.up;
    }
    if p.Top? {
      t := Blacken(t);
    } else if p.color.Red? {
      RotateSettles(p, t);
      LocalInOrder(p, t);
      t, p := Rotate(p, t), p.up.up;
    }
    PlugRedBlack(p, t);
    InOrderPlug(p, t);
    root := Plug(p, t);
  }

  /** `rb_link_node` and `rb_insert_color`: hang a red node at the empty position, then rebalance. */
  method Link(path: Path, data: DnsNode) returns (root: Tree)
    requires Fits(path, 0) && Sorted(Before(path) + After(path))
    requires AllBelow(Before(path), data.host) && AllAbove(After(path), data.host)
    ensures RedBlack(root) && Sorted(InOrder(root))
    ensures Dict(InOrder(root)) == Dict(Before(path) + After(path))[data.host := data]
  {
    SortedInsert(Before(path), data, After(path));
    DictInsert(Before(path), data, After(path));
    var node := Node(Red, Leaf, data, Leaf);
    assert InOrder(node) == [data];
    root := InsertColor(path, node);
  }

  class RbRoot {
    var root: Tree

    ghost predicate Valid()
      reads this
    {
      RedBlack(root) && Sorted(InOrder(root))
    }

    ghost function Contents(): (m: map<CStr, DnsNode>)
      reads this
    {
      Dict(InOrder(root))
    }

    constructor ()
      ensures Valid() && Contents() == map[]
    {
      root := Leaf;
    }

    /** `search`: the walk agrees with dictionary lookup and inspects at most `Height` nodes. */
    method Search(key: CStr) returns (r: Option<DnsNode>, ghost inspected: nat)
      requires Valid()
      ensures r == if key in Contents() then Some(Contents()[key]) else None
      ensures Pow2(inspected) <= (|InOrder(root)| + 1) * (|InOrder(root)| + 1)
    {
      var node := root;
      ghost var p := Top;
      inspected := 0;
      HeightBound(root);
      while node.Node?
        invariant Cursor(root, p, node, key)
        invariant inspected + Height(node) <= Height(root)
        decreases node
      {
        inspected := inspected + 1;
        CursorStep(root, p, node, key);
        var result := StrCmp(key, node.data.host);
        StrCmpTotalOrder(key, node.data.host, []);
        if result < 0 {
          p := GoLeft(p, node);
          node := node.left;
        } else if result > 0 {
          p := GoRight(p, node);
          node := node.right;
        } else {
          CursorHit(root, p, node, key);
          Pow2Monotone(inspected, Height(root));
          return Some(node.data), inspected;
        }
      }
      CursorMiss(root, p, key);
      Pow2Monotone(inspected, Height(root));
      r := None;
    }

    /** `insert`: returns 1 and adds the key exactly when it was absent; otherwise nothing changes. */
    method Insert(data: DnsNode) returns (ret: int)
      requires Valid()
      modifies this
      ensures Valid()
      ensures ret == if data.host in old(Contents()) then 0 else 1
      ensures ret == 0 ==> root == old(root)
      ensures ret == 1 ==> Contents() == old(Contents())[data.host := data]
    {
      var focus, path := root, Top;
      while focus.Node?
        invariant root == old(root) && Cursor(root, path, focus, data.host)
        invariant Balanced(focus) && Fits(path, BlackHeight(focus))
        invariant IsRed(focus) ==> path.Under? && path.color.Black?
        decreases focus
      {
        CursorStep(root, path, focus, data.host);
        FitsDown(path, focus);
        var result := StrCmp(data.host, focus.data.host);
        StrCmpTotalOrder(data.host, focus.data.host, []);
        if result < 0 {
          path, focus := GoLeft(path, focus), focus.left;
        } else if result > 0 {
          path, focus := GoRight(path, focus), focus.right;
        } else {
          CursorHit(root, path, focus, data.host);
          return 0;
        }
      }
      CursorMiss(root, path, data.host);
      root := Link(path, data);
      ret := 1;
    }
  }
}
