/** Scrolling in the two-panel file manager: a (region, line) viewport refining one selected index. */
module FileManager {

  const WINDOW_COUNT := 2
  const MAX_FILES := 256

  /** First file shown, and the selected line below it. */
  datatype Panel = Panel(region: int, line: int)

  /** The index the viewport stands for. */
  function Selected(p: Panel): (i: int) {
    p.region + p.line
  }

  /** A listing of `count` selectable files in a window of `height` lines. */
  datatype View = View(count: int, height: int)

  predicate ViewOk(v: View) {
    v.count >= 1 && v.height >= 1
  }

  datatype Entry = Entry(name: string, isDirectory: bool)

  /** The directory a panel lists, as `readdir` returns it, and the lines of its window. */
  datatype Pane = Pane(entries: seq<Entry>, height: nat)

  /** A directory that can be read has at least its two dot entries. */
  predicate ListingOk(entries: seq<Entry>) {
    2 <= |entries| <= MAX_FILES
  }

  predicate PaneOk(a: Pane) {
    ListingOk(a.entries) && a.height >= 1
  }

  /** What scrolling sees of it: the entry read last is not counted. */
  function ViewOf(a: Pane): (v: View) {
    View(|a.entries| - 1, a.height)
  }

  /** `Enter` and `Parent` come with the directory that is listed if they change it. */
  datatype Key =
    | Down
    | Up
    | PageDown
    | PageUp
    | Enter(entries: seq<Entry>)
    | Parent(entries: seq<Entry>)
    | Yank
    | Tab
    | Quit

  function Min(a: int, b: int): (r: int) {
    if a < b then a else b
  }

  function Max(a: int, b: int): (r: int) {
    if a < b then b else a
  }

  /** The selection is a file, it is on screen, and the screen is not scrolled past the last file. */
  predicate InRange(p: Panel, v: View) {
    && 0 <= p.line < v.height && 0 <= p.region + p.line < v.count
    && 0 <= p.region && (p.region == 0 || p.region + v.height <= v.count)
  }

  // ----- the keys as moves of one index -----

  /** The least scrolling that brings index `i` on screen. */
  function ScrollTo(region: int, i: int, v: View): (r: int) {
    if i < region then i else if i >= region + v.height then i - v.height + 1 else region
  }

  /** The panel that selects index `i` with the screen starting at `region`. */
  function Show(region: int, i: int): (p: Panel) {
    Panel(region, i - region)
  }

  /** One file down or up, stopping at the ends, with the least scrolling. */
  function LineDown(p: Panel, v: View): (r: Panel) {
    var i := Min(p.region + p.line + 1, v.count - 1);
    Show(ScrollTo(p.region, i, v), i)
  }

  function LineUp(p: Panel, v: View): (r: Panel) {
    var i := Max(p.region + p.line - 1, 0);
    Show(ScrollTo(p.region, i, v), i)
  }

  /** A screen further, or the last file; a screen back, or the first file. */
  function ScreenDown(p: Panel, v: View): (r: Panel) {
    if p.region + v.height <= v.count - v.height then Panel(p.region + v.height, p.line)
    else Show(Max(0, v.count - v.height), v.count - 1)
  }

  function ScreenUp(p: Panel, v: View): (r: Panel) {
    if p.region >= v.height then Panel(p.region - v.height, p.line) else Panel(0, 0)
  }

  function Scrolled(p: Panel, v: View, key: Key): (r: Panel) {
    match key
    case Down => LineDown(p, v)
    case Up => LineUp(p, v)
    case PageDown => ScreenDown(p, v)
    case PageUp => ScreenUp(p, v)
    case _ => p
  }

  /** Whether Enter opens a directory: it asks the entry whose index is the line on screen. */
  predicate Descends(p: Panel, a: Pane) {
    0 <= p.line < |a.entries| && a.entries[p.line].isDirectory
  }

  /** The key makes the panel list another directory. */
  predicate Opens(p: Panel, a: Pane, key: Key) {
    key.Parent? || (key.Enter? && Descends(p, a))
  }

  function Moved(p: Panel, a: Pane, key: Key): (r: Panel) {
    if Opens(p, a, key) then Panel(0, 0) else Scrolled(p, ViewOf(a), key)
  }

  function Listing(p: Panel, a: Pane, key: Key): (r: Pane) {
    if Opens(p, a, key) then a.(entries := key.entries) else a
  }

  predicate Lists(key: Key) {
    (key.Enter? || key.Parent?) ==> ListingOk(key.entries)
  }

  lemma {:induction false} LineInRange(p: Panel, v: View)
    requires ViewOk(v) && InRange(p, v)
    ensures InRange(LineDown(p, v), v) && InRange(LineUp(p, v), v)
  {
  }

  lemma {:induction false} ScreenInRange(p: Panel, v: View)
    requires ViewOk(v) && InRange(p, v)
    ensures InRange(ScreenDown(p, v), v) && InRange(ScreenUp(p, v), v)
  {
  }

  lemma {:induction false} TopInRange(v: View)
    requires ViewOk(v)
    ensures InRange(Panel(0, 0), v)
  {
  }

  lemma {:induction false} MoveInRange(p: Panel, a: Pane, key: Key)
    requires PaneOk(a) && InRange(p, ViewOf(a)) && Lists(key)
    ensures PaneOk(Listing(p, a, key)) && InRange(Moved(p, a, key), ViewOf(Listing(p, a, key)))
  {
    if Opens(p, a, key) {
      TopInRange(ViewOf(Listing(p, a, key)));
    } else {
      LineInRange(p, ViewOf(a));
      ScreenInRange(p, ViewOf(a));
    }
  }

  // ----- whole key sequences -----

  datatype Nav = Nav(panels: seq<Panel>, panes: seq<Pane>, current: nat) {
    ghost predicate Ok() {
      && |panels| == |panes| == WINDOW_COUNT && current < WINDOW_COUNT
      && PaneOk(panes[0]) && InRange(panels[0], ViewOf(panes[0]))
      && PaneOk(panes[1]) && InRange(panels[1], ViewOf(panes[1]))
    }
  }

  function Step(n: Nav, key: Key): (r: Nav)
    requires n.current < |n.panels| == |n.panes|
    ensures |r.panels| == |n.panels| && |r.panes| == |n.panes|
  {
    var w := n.current;
    var p, a := n.panels[w], n.panes[w];
    if key.Tab? then n.(current := (w + 1) % WINDOW_COUNT)
    else n.(panels := n.panels[w := Moved(p, a, key)], panes := n.panes[w := Listing(p, a, key)])
  }

  /** The keys up to and including the first `q`. Whatever they are, both panels keep a file selected
      and on screen. */
  ghost function Run(n: Nav, keys: seq<Key>): (r: Nav)
    requires n.Ok() && forall k :: 0 <= k < |keys| ==> Lists(keys[k])
    ensures r.Ok()
    decreases |keys|
  {
    if keys == [] then n
    else
      StepOk(n, keys[0]);
      if keys[0].Quit? then Step(n, keys[0]) else Run(Step(n, keys[0]), keys[1..])
  }

  lemma {:induction false} StepOk(n: Nav, key: Key)
    requires n.Ok() && Lists(key)
    ensures Step(n, key).Ok()
  {
    var p, a := n.panels[n.current], n.panes[n.current];
    MoveInRange(p, a, key);
    UpdateOk(n, Moved(p, a, key), Listing(p, a, key));
  }

  /** What the keys besides scrolling do: Tab moves the focus and nothing else; a key that opens a directory
      lists it in the focused panel from its first entry; all others leave everything as it was. No key but
      Tab touches the other panel or the focus. */
  lemma {:induction false} KeyEffects(n: Nav, key: Key)
    requires n.Ok()
    ensures var (w, r) := (n.current, Step(n, key));
            && (key.Tab? ==> r == Nav(n.panels, n.panes, 1 - w))
            && (!key.Tab? ==> r.current == w && r.panels[1 - w] == n.panels[1 - w] && r.panes[1 - w] == n.panes[1 - w])
            && (key.Parent? || (key.Enter? && n.panes[w].entries[n.panels[w].line].isDirectory) ==>
                  r.panels[w] == Panel(0, 0) && r.panes[w] == Pane(key.entries, n.panes[w].height))
            && (key.Yank? || key.Quit? || (key.Enter? && !n.panes[w].entries[n.panels[w].line].isDirectory) ==> r == n)
  {
    var w := n.current;
    assert n.panels[w := n.panels[w]] == n.panels && n.panes[w := n.panes[w]] == n.panes;
  }

  lemma {:induction false} OtherKept(n: Nav, key: Key)
    requires n.Ok()
    ensures var r := Step(n, key);
            && r.current < WINDOW_COUNT && (r.current == n.current <==> !key.Tab?)
            && r.panels[1 - r.current] == n.panels[1 - r.current] && r.panes[1 - r.current] == n.panes[1 - r.current]
  {
  }

  /** Keys are handled one after the other, and those behind a `q` are not. */
  lemma {:induction false} RunAppend(n: Nav, ks: seq<Key>, ls: seq<Key>)
    requires n.Ok() && forall k :: 0 <= k < |ks + ls| ==> Lists((ks + ls)[k])
    ensures forall k :: 0 <= k < |ks| ==> Lists(ks[k]) && (ks + ls)[k] == ks[k]
    ensures forall k :: 0 <= k < |ls| ==> Lists(ls[k])
    ensures Run(n, ks + ls) ==
            if exists k :: 0 <= k < |ks| && ks[k].Quit? then Run(n, ks) else Run(Run(n, ks), ls)
    decreases |ks|
  {
    assert forall k :: 0 <= k < |ks| ==> (ks + ls)[k] == ks[k];
    assert forall k :: 0 <= k < |ls| ==> ls[k] == (ks + ls)[|ks| + k];
    if ks == [] {
      assert ks + ls == ls;
    } else {
      StepOk(n, ks[0]);
      assert (ks + ls)[1..] == ks[1..] + ls;
      if !ks[0].Quit? {
        RunAppend(Step(n, ks[0]), ks[1..], ls);
        assert (exists k :: 0 <= k < |ks| && ks[k].Quit?) <==> exists k :: 0 <= k < |ks[1..]| && ks[1..][k].Quit? by {
          if k :| 0 <= k < |ks| && ks[k].Quit? {
            assert ks[1..][k - 1].Quit?;
          }
        }
      }
    }
  }

  lemma {:induction false} UpdateOk(n: Nav, p: Panel, a: Pane)
    requires n.Ok() && PaneOk(a) && InRange(p, ViewOf(a))
    ensures n.(panels := n.panels[n.current := p], panes := n.panes[n.current := a]).Ok()
  {
  }

  // ----- laws of the moves -----

  /** A line down that was not stopped at the end is undone by a line up, and the reverse. */
  lemma {:induction false} LinesUndo(p: Panel, v: View)
    requires ViewOk(v) && InRange(p, v)
    ensures Selected(LineUp(LineDown(p, v), v)) == Selected(p) <==> Selected(p) + 1 < v.count || v.count == 1
    ensures Selected(LineDown(LineUp(p, v), v)) == Selected(p) <==> Selected(p) > 0 || v.count == 1
  {
  }

  /** A full screen down is undone, position on screen included. */
  lemma {:induction false} ScreensUndo(p: Panel, v: View)
    requires ViewOk(v) && InRange(p, v) && p.region + v.height <= v.count - v.height
    ensures ScreenUp(ScreenDown(p, v), v) == p
  {
  }

  /** No panel in range with the same selection has its screen nearer to where it was. */
  ghost predicate Least(region: int, p: Panel, v: View) {
    forall q :: InRange(q, v) && q.region + q.line == p.region + p.line ==>
      Distance(region, p.region) <= Distance(region, q.region)
  }

  /** j and k scroll no further than they must to have the new selection on screen. */
  lemma {:induction false} LeastScrolling(p: Panel, v: View)
    requires ViewOk(v) && InRange(p, v)
    ensures Least(p.region, LineDown(p, v), v) && Least(p.region, LineUp(p, v), v)
  {
  }

  /** d and u: a whole screen with the line kept, or the last or first file. */
  lemma {:induction false} PageMoves(p: Panel, v: View)
    requires ViewOk(v) && InRange(p, v)
    ensures p.region + v.height <= v.count - v.height ==> ScreenDown(p, v) == Panel(p.region + v.height, p.line)
    ensures p.region + v.height > v.count - v.height ==>
              var r := ScreenDown(p, v); r.region == Max(0, v.count - v.height) && r.region + r.line == v.count - 1
    ensures p.region >= v.height ==> ScreenUp(p, v) == Panel(p.region - v.height, p.line)
    ensures p.region < v.height ==> ScreenUp(p, v) == Panel(0, 0)
  {
  }

  predicate Scrolling(keys: seq<Key>) {
    forall k :: 0 <= k < |keys| ==> keys[k].Down? || keys[k].Up? || keys[k].PageDown? || keys[k].PageUp?
  }

  lemma {:induction false} ScrollingKeepsListing(n: Nav, keys: seq<Key>)
    requires n.Ok() && Scrolling(keys)
    ensures Run(n, keys).panes == n.panes && Run(n, keys).current == n.current
    decreases |keys|
  {
    if keys != [] {
      StepOk(n, keys[0]);
      ScrollingKeepsListing(Step(n, keys[0]), keys[1..]);
    }
  }

  function Distance(a: int, b: int): (d: nat) {
    if a < b then b - a else a - b
  }

  /** Every counted file can be selected from anywhere. */
  lemma {:induction false} Reach(n: Nav, k: int) returns (keys: seq<Key>)
    requires n.Ok() && 0 <= k < |n.panes[n.current].entries| - 1
    ensures Scrolling(keys) && Selected(Run(n, keys).panels[n.current]) == k
    decreases Distance(Selected(n.panels[n.current]), k)
  {
    var p, a := n.panels[n.current], n.panes[n.current];
    if Selected(p) == k {
      keys := [];
    } else {
      var key := if Selected(p) < k then Down else Up;
      StepOk(n, key);
      LineMoves(p, ViewOf(a));
      keys := Reach(Step(n, key), k);
      ScrollingKeepsListing(Step(n, key), keys);
      keys := [key] + keys;
    }
  }

  lemma {:induction false} LineMoves(p: Panel, v: View)
    requires ViewOk(v) && InRange(p, v)
    ensures Selected(LineDown(p, v)) == Min(Selected(p) + 1, v.count - 1)
    ensures Selected(LineUp(p, v)) == Max(Selected(p) - 1, 0)
  {
  }

  /** Scrolling can select an entry of the listing exactly when it is not the last one read. */
  lemma {:induction false} SelectableIff(n: Nav, k: nat)
    requires n.Ok() && k < |n.panes[n.current].entries|
    ensures (exists keys :: Scrolling(keys) && Selected(Run(n, keys).panels[n.current]) == k)
            <==> k < |n.panes[n.current].entries| - 1
  {
    if k < |n.panes[n.current].entries| - 1 {
      var keys := Reach(n, k);
    } else {
      forall keys | Scrolling(keys)
        ensures Selected(Run(n, keys).panels[n.current]) != k
      {
        ScrollingSelects(n, keys);
      }
    }
  }

  lemma {:induction false} ScrollingSelects(n: Nav, keys: seq<Key>)
    requires n.Ok() && Scrolling(keys)
    ensures Selected(Run(n, keys).panels[n.current]) < |n.panes[n.current].entries| - 1
  {
    ScrollingKeepsListing(n, keys);
    var m := Run(n, keys);
    assert InRange(m.panels[n.current], ViewOf(m.panes[n.current]));
  }

  // ----- what Enter looks at -----

  /** Same size of listing, same window. */
  predicate SameShape(a: Pane, b: Pane) {
    |a.entries| == |b.entries| && a.height == b.height
  }

  /** Enter judges the selected entry, whatever the entries are, exactly while the panel is not scrolled. */
  lemma {:induction false} EnterTestsSelectedIff(p: Panel, a: Pane)
    requires PaneOk(a) && InRange(p, ViewOf(a))
    ensures (forall b: Pane :: SameShape(a, b) ==> (Descends(p, b) <==> b.entries[p.region + p.line].isDirectory))
            <==> p.region == 0
  {
    if p.region != 0 {
      var b := Pane(seq(|a.entries|, i => Entry("", i == p.line)), a.height);
      assert SameShape(a, b) && Descends(p, b) && !b.entries[p.region + p.line].isDirectory;
    }
  }

  /** Scrolling can bring a panel there exactly when the counted files do not fit its window. */
  lemma {:induction false} ScrollsOffTopIff(n: Nav)
    requires n.Ok()
    ensures (exists keys :: Scrolling(keys) && Run(n, keys).panels[n.current].region > 0)
            <==> |n.panes[n.current].entries| - 1 > n.panes[n.current].height
  {
    var a := n.panes[n.current];
    if |a.entries| - 1 > a.height {
      var keys := Reach(n, |a.entries| - 2);
      ScrollingKeepsListing(n, keys);
      LastIsBelow(Run(n, keys).panels[n.current], ViewOf(a));
    } else {
      forall keys | Scrolling(keys)
        ensures Run(n, keys).panels[n.current].region == 0
      {
        ScrollingKeepsListing(n, keys);
      }
    }
  }

  lemma {:induction false} LastIsBelow(p: Panel, v: View)
    requires ViewOk(v) && InRange(p, v) && Selected(p) == v.count - 1 && v.count > v.height
    ensures p.region > 0
  {
  }

  // ----- drawing -----

  datatype Attr = Highlighted | Directory | Plain

  datatype Row = Row(name: string, attr: Attr)

  /** The rows on screen: the counted entries from the region on, as far as the window goes. */
  ghost predicate Drawn(entries: seq<Entry>, p: Panel, height: nat, rows: seq<Row>) {
    && 0 <= p.region && |rows| == Min(height, |entries| - 1 - p.region)
    && forall k :: 0 <= k < |rows| ==>
         && rows[k].name == entries[p.region + k].name
         && (rows[k].attr == Highlighted <==> k == p.line)
         && (rows[k].attr == Directory <==> k != p.line && entries[p.region + k].isDirectory)
  }

  /** `print_files`: reads the directory into `d` and draws the visible region. The count it returns is
      the index of the last entry read, so that entry is neither drawn nor counted. */
  method PrintFiles(entries: seq<Entry>, d: array<Entry>, p: Panel, height: nat) returns (rows: seq<Row>, fileCount: int)
    requires d.Length == MAX_FILES && 1 <= |entries| <= MAX_FILES && 0 <= p.region < |entries|
    modifies d
    ensures fileCount == |entries| - 1 && d[..|entries|] == entries
    ensures Drawn(entries, p, height, rows)
  {
    var i := -1;
    while i + 1 < |entries|
      invariant -1 <= i < |entries|
      invariant d[..i + 1] == entries[..i + 1]
    {
      i := i + 1;
      d[i] := entries[i];
    }
    fileCount := i;
    rows := [];
    i := p.region;
    while i < height + p.region
      invariant p.region <= i <= height + p.region && i <= fileCount
      invariant d[..|entries|] == entries
      invariant Drawn(entries, p, i - p.region, rows)
    {
      if i == fileCount {
        break;
      }
      assert d[i] == entries[i];
      var attr := if p.line == i - p.region then Highlighted else if d[i].isDirectory then Directory else Plain;
      rows := rows + [Row(d[i].name, attr)];
      i := i + 1;
    }
  }

  /** Exactly one row is highlighted, and it shows the selected file. */
  ghost predicate OneHighlighted(entries: seq<Entry>, p: Panel, rows: seq<Row>) {
    && 0 <= p.line < |rows| && 0 <= Selected(p) < |entries|
    && rows[p.line] == Row(entries[Selected(p)].name, Highlighted)
    && forall k :: 0 <= k < |rows| && rows[k].attr == Highlighted ==> k == p.line
  }

  lemma {:induction false} OneHighlight(a: Pane, p: Panel, rows: seq<Row>)
    requires PaneOk(a) && InRange(p, ViewOf(a)) && Drawn(a.entries, p, a.height, rows)
    ensures OneHighlighted(a.entries, p, rows)
  {
  }

  // ----- the key loop -----

  /** The switch in `navigate` for the four scrolling keys, on the focused field. */
  method Clamp(fileCount: int, region: int, line: int, height: int, key: Key) returns (region': int, line': int)
    requires ViewOk(View(fileCount, height)) && InRange(Panel(region, line), View(fileCount, height))
    requires key.Down? || key.Up? || key.PageDown? || key.PageUp?
    ensures Panel(region', line') == Scrolled(Panel(region, line), View(fileCount, height), key)
  {
    region', line' := region, line;
    var filesPerRegion := if fileCount < height then fileCount else height - 1;
    if fileCount == filesPerRegion {
      filesPerRegion := filesPerRegion - 1;
    }
    match key {
      case Down =>
        line' := line' + 1;
        if line' > height - 1 {
          line' := height - 1;
          region' := region' + 1;
          if region' > fileCount - height {
            region' := fileCount - height;
            if region' < 0 {
              region' := 0;
            }
            line' := Min(height, filesPerRegion);
          }
        } else if line' > filesPerRegion {
          line' := filesPerRegion;
        }
      case Up =>
        line' := line' - 1;
        if line' < 0 {
          line' := 0;
          region' := region' - 1;
          if region' < 0 {
            region' := 0;
          }
        }
      case PageDown =>
        region' := region' + height;
        if region' > fileCount - height {
          region' := fileCount - height;
          if region' < 0 {
            region' := 0;
          }
          line' := Min(height, filesPerRegion);
        }
      case PageUp =>
        region' := region' - height;
        if region' < 0 {
          region' := 0;
          line' := 0;
        }
    }
  }

  /** The four scrolling keys, as the user sees them. */
  method Scroll(fileCount: int, region: int, line: int, height: int, key: Key) returns (region': int, line': int)
    requires ViewOk(View(fileCount, height)) && InRange(Panel(region, line), View(fileCount, height))
    requires key.Down? || key.Up? || key.PageDown? || key.PageUp?
    ensures key.Down? ==> region' + line' == Min(region + line + 1, fileCount - 1)
    ensures key.Up? ==> region' + line' == Max(region + line - 1, 0)
    ensures key.Down? || key.Up? ==> Least(region, Panel(region', line'), View(fileCount, height))
    ensures key.PageDown? && region + height <= fileCount - height ==> region' == region + height && line' == line
    ensures key.PageDown? && region + height > fileCount - height ==>
              region' == Max(0, fileCount - height) && region' + line' == fileCount - 1
    ensures key.PageUp? && region >= height ==> region' == region - height && line' == line
    ensures key.PageUp? && region < height ==> region' == 0 && line' == 0
    ensures Panel(region', line') == Scrolled(Panel(region, line), View(fileCount, height), key)
  {
    region', line' := Clamp(fileCount, region, line, height, key);
    var p, v := Panel(region, line), View(fileCount, height);
    LeastScrolling(p, v);
    PageMoves(p, v);
  }

  method ScrollPanel(p: Panel, v: View, key: Key) returns (field: Panel)
    requires ViewOk(v) && InRange(p, v)
    requires key.Down? || key.Up? || key.PageDown? || key.PageUp?
    ensures field == Scrolled(p, v, key)
  {
    var region, line := Scroll(v.count, p.region, p.line, v.height, key);
    field := Panel(region, line);
  }

  /** The switch as a whole, on the focused field. */
  method Switch(p: Panel, a: Pane, fileCount: int, d: array<Entry>, key: Key) returns (field: Panel, pane: Pane)
    requires PaneOk(a) && InRange(p, ViewOf(a)) && fileCount == |a.entries| - 1
    requires |a.entries| <= d.Length && d[..|a.entries|] == a.entries
    ensures field == Moved(p, a, key) && pane == Listing(p, a, key)
  {
    field, pane := p, a;
    match key {
      case Enter(entries) =>
        assert d[p.line] == d[..|a.entries|][p.line];
        if d[p.line].isDirectory {
          field, pane := Panel(0, 0), a.(entries := entries);
        }
      case Parent(entries) =>
        field, pane := Panel(0, 0), a.(entries := entries);
      case Yank =>
      case Tab =>
      case Quit =>
      case _ =>
        field := ScrollPanel(p, View(fileCount, a.height), key);
    }
  }

  class Navigator {
    var panels: seq<Panel>
    var panes: seq<Pane>
    var currentWindow: nat
    var fileCount: int
    var screens: seq<seq<Row>>
    const d: array<Entry>

    ghost function State(): (n: Nav)
      reads this
    {
      Nav(panels, panes, currentWindow)
    }

    /** Both panels are in range and on screen, and the count and the entries read are those of the
        focused one. */
    ghost predicate Valid()
      reads this, d
    {
      && State().Ok() && d.Length == MAX_FILES && |screens| == WINDOW_COUNT
      && Drawn(panes[0].entries, panels[0], panes[0].height, screens[0])
      && Drawn(panes[1].entries, panels[1], panes[1].height, screens[1])
      && fileCount == |panes[currentWindow].entries| - 1
      && d[..fileCount + 1] == panes[currentWindow].entries
    }

    /** Each screen highlights the selected file of its panel and nothing else. */
    ghost predicate BothHighlighted()
      reads this
      requires |panels| == |panes| == |screens| == WINDOW_COUNT
    {
      && OneHighlighted(panes[0].entries, panels[0], screens[0])
      && OneHighlighted(panes[1].entries, panels[1], screens[1])
    }

    lemma {:induction false} ValidHighlights()
      requires Valid()
      ensures BothHighlighted()
    {
      OneHighlight(panes[0], panels[0], screens[0]);
      OneHighlight(panes[1], panels[1], screens[1]);
    }

    constructor (left: Pane, right: Pane)
      requires PaneOk(left) && PaneOk(right)
      ensures Valid() && BothHighlighted() && fresh(d)
      ensures State() == Nav([Panel(0, 0), Panel(0, 0)], [left, right], 0)
    {
      panels := [Panel(0, 0), Panel(0, 0)];
      panes := [left, right];
      currentWindow := 0;
      d := new Entry[MAX_FILES];
      new;
      var l, _ := PrintFiles(left.entries, d, panels[0], left.height);
      var r, _ := PrintFiles(right.entries, d, panels[1], right.height);
      screens := [l, r];
      TopInRange(ViewOf(left));
      TopInRange(ViewOf(right));
      Draw();
      ValidHighlights();
    }

    /** `print_files` for the focused panel. */
    method Draw()
      requires State().Ok() && d.Length == MAX_FILES && |screens| == WINDOW_COUNT
      requires Drawn(panes[1 - currentWindow].entries, panels[1 - currentWindow], panes[1 - currentWindow].height,
                     screens[1 - currentWindow])
      modifies this`fileCount, this`screens, d
      ensures Valid() && screens[1 - currentWindow] == old(screens[1 - currentWindow])
    {
      var w := currentWindow;
      var rows, count := PrintFiles(panes[w].entries, d, panels[w], panes[w].height);
      screens := screens[w := rows];
      fileCount := count;
    }

    /** The switch on the focused panel, or the change of focus. */
    method Apply(key: Key)
      requires Valid()
      modifies this`panels, this`panes, this`currentWindow
      ensures State() == Step(old(State()), key)
    {
      if key.Tab? {
        currentWindow := (currentWindow + 1) % WINDOW_COUNT;
      } else {
        var w := currentWindow;
        var field, pane := Switch(panels[w], panes[w], fileCount, d, key);
        panels, panes := panels[w := field], panes[w := pane];
      }
    }

    /** One turn of the key loop; the listing is read again and drawn at its end. */
    method Press(key: Key)
      requires Valid() && Lists(key)
      modifies this, d
      ensures Valid() && BothHighlighted() && State() == Step(old(State()), key)
      ensures !key.Tab? ==> screens[1 - currentWindow] == old(screens[1 - currentWindow])
    {
      StepOk(State(), key);
      OtherKept(State(), key);
      ghost var other := 1 - Step(State(), key).current;
      assert Drawn(panes[other].entries, panels[other], panes[other].height, screens[other]);
      Apply(key);
      Draw();
      ValidHighlights();
    }

    /** `navigate`. */
    method Navigate(keys: seq<Key>)
      requires Valid() && forall k :: 0 <= k < |keys| ==> Lists(keys[k])
      modifies this, d
      ensures Valid() && BothHighlighted() && State() == Run(old(State()), keys)
    {
      var i, quit := 0, false;
      while i < |keys| && !quit
        invariant 0 <= i <= |keys| && Valid()
        invariant Run(old(State()), keys) == if quit then State() else Run(State(), keys[i..])
      {
        assert keys[i..][1..] == keys[i + 1..];
        Press(keys[i]);
        quit := keys[i].Quit?;
        i := i + 1;
      }
      ValidHighlights();
    }
  }
}
