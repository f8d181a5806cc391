/** The poll loop: a table whose entries are appended and shifted down while it is being scanned. */
module PollLoop {
  import opened Connections

  const POLL_MAX := 1024

  /** An entry; the two flags are the POLLIN bits. */
  datatype PollFd = PollFd(fd: int, events: bool, revents: bool)

  // ----- what one scan does to the client entries -----

  /** The clients `recv` is called on. Removing an entry moves the next one under the index that the
      loop is about to leave, so the entry behind a removed one is passed over. */
  function Served(l: seq<PollFd>, zero: set<int>): (r: seq<int>) {
    if l == [] then []
    else if !l[0].revents then Served(l[1..], zero)
    else if l[0].fd !in zero then [l[0].fd] + Served(l[1..], zero)
    else [l[0].fd] + if |l| == 1 then [] else Served(l[2..], zero)
  }

  /** The entries that stay. */
  function Kept(l: seq<PollFd>, zero: set<int>): (r: seq<PollFd>) {
    if l == [] then []
    else if !l[0].revents || l[0].fd !in zero then [l[0]] + Kept(l[1..], zero)
    else if |l| == 1 then []
    else [l[1]] + Kept(l[2..], zero)
  }

  ghost predicate Distinct(l: seq<PollFd>) {
    forall i, j :: 0 <= i < j < |l| ==> l[i].fd != l[j].fd
  }

  ghost function Fds(l: seq<PollFd>): (r: set<int>) {
    set i | 0 <= i < |l| :: l[i].fd
  }

  /** `l` without the entries of some descriptors, in the same order. */
  function Drop(l: seq<PollFd>, gone: set<int>): (r: seq<PollFd>) {
    if l == [] then [] else (if l[0].fd in gone then [] else [l[0]]) + Drop(l[1..], gone)
  }

  /** The entry is ready and not passed over because its predecessor was served and removed. */
  ghost predicate IsServed(l: seq<PollFd>, zero: set<int>, k: nat)
    requires k < |l|
  {
    l[k].revents && !(k > 0 && IsServed(l, zero, k - 1) && l[k - 1].fd in zero)
  }

  lemma {:induction false} IsServedFrom(l: seq<PollFd>, zero: set<int>, d: nat, k: nat)
    requires d <= k < |l|
    requires d > 0 ==> !(IsServed(l, zero, d - 1) && l[d - 1].fd in zero)
    ensures IsServed(l, zero, k) == IsServed(l[d..], zero, k - d)
  {
    if k > d { IsServedFrom(l, zero, d, k - 1); }
  }

  lemma {:induction false} ServedSubset(l: seq<PollFd>, zero: set<int>, fd: int) returns (k: nat)
    requires fd in Served(l, zero)
    ensures k < |l| && l[k].fd == fd && IsServed(l, zero, k)
    decreases |l|
  {
    if l[0].revents && l[0].fd == fd {
      k := 0;
    } else if l[0].revents && l[0].fd in zero {
      k := ServedSubset(l[2..], zero, fd);
      k := k + 2;
      IsServedFrom(l, zero, 2, k);
    } else {
      k := ServedSubset(l[1..], zero, fd);
      k := k + 1;
      IsServedFrom(l, zero, 1, k);
    }
  }

  lemma {:induction false} ServedAll(l: seq<PollFd>, zero: set<int>, k: nat)
    requires k < |l| && IsServed(l, zero, k)
    ensures l[k].fd in Served(l, zero)
    decreases |l|
  {
    if k > 0 {
      if l[0].revents && l[0].fd in zero {
        if k >= 2 {
          IsServedFrom(l, zero, 2, k);
          ServedAll(l[2..], zero, k - 2);
        }
      } else {
        IsServedFrom(l, zero, 1, k);
        ServedAll(l[1..], zero, k - 1);
      }
    }
  }

  /** Exactly which clients a round serves. */
  lemma {:induction false} ServedExactly(l: seq<PollFd>, zero: set<int>, k: nat)
    requires Distinct(l) && k < |l|
    ensures l[k].fd in Served(l, zero) <==> IsServed(l, zero, k)
  {
    if IsServed(l, zero, k) {
      ServedAll(l, zero, k);
    } else if l[k].fd in Served(l, zero) {
      var j := ServedSubset(l, zero, l[k].fd);
      assert false;
    }
  }

  /** No client is served twice. */
  lemma {:induction false} ServedOnce(l: seq<PollFd>, zero: set<int>)
    requires Distinct(l)
    ensures forall a, b :: 0 <= a < b < |Served(l, zero)| ==> Served(l, zero)[a] != Served(l, zero)[b]
    decreases |l|
  {
    if l != [] {
      var rest := if l[0].revents && l[0].fd in zero && |l| > 1 then l[2..] else l[1..];
      ServedOnce(rest, zero);
      if l[0].fd in Served(rest, zero) {
        var k := ServedSubset(rest, zero, l[0].fd);
        assert false;
      }
    }
  }

  /** Clients are served in the order of their slots. */
  lemma {:induction false} ServedInOrder(l: seq<PollFd>, zero: set<int>, i: nat, j: nat, a: nat, b: nat)
    requires Distinct(l) && i < |l| && j < |l| && a < b < |Served(l, zero)|
    requires Served(l, zero)[a] == l[i].fd && Served(l, zero)[b] == l[j].fd
    ensures i < j
    decreases |l|
  {
    var d, n := if l[0].revents && l[0].fd in zero && |l| > 1 then 2 else 1, if l[0].revents then 1 else 0;
    var rest := l[d..];
    ServedHead(l, zero, d, n);
    var k := PlaceOf(l, zero, d, j, b - n);
    if a >= n {
      var m := PlaceOf(l, zero, d, i, a - n);
      ServedInOrder(rest, zero, m, k, a - n, b - n);
    }
  }

  lemma {:induction false} ServedHead(l: seq<PollFd>, zero: set<int>, d: nat, n: nat)
    requires l != [] && d == (if l[0].revents && l[0].fd in zero && |l| > 1 then 2 else 1)
    requires n == if l[0].revents then 1 else 0
    ensures Served(l, zero) == (if n == 1 then [l[0].fd] else []) + Served(l[d..], zero)
  {
    assert |l| == 1 ==> l[1..] == [];
  }

  lemma {:induction false} PlaceOf(l: seq<PollFd>, zero: set<int>, d: nat, j: nat, b: nat) returns (k: nat)
    requires Distinct(l) && d <= |l| && j < |l| && b < |Served(l[d..], zero)| && Served(l[d..], zero)[b] == l[j].fd
    ensures k < |l[d..]| && j == k + d && l[d..][k] == l[j]
  {
    k := ServedSubset(l[d..], zero, l[j].fd);
    assert l[d..][k] == l[k + d];
  }

  lemma {:induction false} DropNothing(l: seq<PollFd>, gone: set<int>, extra: int)
    requires extra !in Fds(l)
    ensures Drop(l, gone + {extra}) == Drop(l, gone)
  {
    if l != [] {
      assert l[0].fd in Fds(l);
      assert Fds(l[1..]) <= Fds(l) by {
        forall i | 0 <= i < |l[1..]|
          ensures l[1..][i].fd in Fds(l)
        {
          assert l[1..][i] == l[i + 1];
        }
      }
      DropNothing(l[1..], gone, extra);
    }
  }

  /** The clients closed in a round: served, with nothing left to read. */
  ghost function ClosedIn(l: seq<PollFd>, zero: set<int>): (r: set<int>) {
    set fd | fd in Served(l, zero) && fd in zero
  }

  lemma {:induction false} NotAhead(l: seq<PollFd>, d: nat, k: nat)
    requires Distinct(l) && k < d <= |l|
    ensures l[k].fd !in Fds(l[d..])
  {
  }

  lemma {:induction false} ServedFds(l: seq<PollFd>, zero: set<int>, fd: int)
    requires fd in Served(l, zero)
    ensures fd in Fds(l)
  {
    var k := ServedSubset(l, zero, fd);
  }

  /** The scan keeps exactly the clients it did not close, in their order. */
  lemma {:induction false} KeptIsDrop(l: seq<PollFd>, zero: set<int>)
    requires Distinct(l)
    ensures Kept(l, zero) == Drop(l, ClosedIn(l, zero))
    decreases |l|
  {
    if l == [] {
    } else {
      var closes := l[0].revents && l[0].fd in zero;
      var rest := if closes && |l| > 1 then l[2..] else l[1..];
      KeptIsDrop(rest, zero);
      var inner := ClosedIn(rest, zero);
      NotAhead(l, 1, 0);
      if closes && |l| > 1 {
        NotAhead(l, 2, 0);
        NotAhead(l, 2, 1);
        ClosedHead(l, zero, rest);
        DropNothing(rest, inner, l[0].fd);
        if l[1].fd in inner { ServedFds(rest, zero, l[1].fd); }
        assert l[1..][1..] == l[2..];
        assert Drop(l[1..], inner + {l[0].fd}) == [l[1]] + Drop(l[2..], inner + {l[0].fd});
      } else {
        if l[0].fd in inner { ServedFds(rest, zero, l[0].fd); }
        ClosedHead(l, zero, rest);
        assert closes ==> rest == [];
        assert !closes ==> ClosedIn(l, zero) == inner && Drop(l, inner) == [l[0]] + Drop(rest, inner);
      }
    }
  }

  lemma {:induction false} ClosedHead(l: seq<PollFd>, zero: set<int>, rest: seq<PollFd>)
    requires l != []
    requires rest == if l[0].revents && l[0].fd in zero && |l| > 1 then l[2..] else l[1..]
    ensures ClosedIn(l, zero) == ClosedIn(rest, zero) + if l[0].revents && l[0].fd in zero then {l[0].fd} else {}
  {
  }

  // ----- several rounds -----

  lemma {:induction false} NotServedFrom(l: seq<PollFd>, zero: set<int>, d: nat, k: nat)
    requires Distinct(l) && 0 < d <= k < |l| && l[k].fd !in Served(l, zero)
    requires !(IsServed(l, zero, d - 1) && l[d - 1].fd in zero)
    ensures Distinct(l[d..]) && l[d..][k - d].fd !in Served(l[d..], zero)
  {
    IsServedFrom(l, zero, d, k);
    ServedExactly(l, zero, k);
    ServedExactly(l[d..], zero, k - d);
  }

  /** A ready client that is passed over moves up in the table. */
  lemma {:induction false} PassedOverMovesUp(l: seq<PollFd>, zero: set<int>, k: nat) returns (j: nat)
    requires Distinct(l) && k < |l| && l[k].revents && l[k].fd !in Served(l, zero)
    ensures j < k && j < |Kept(l, zero)| && Kept(l, zero)[j] == l[k]
    decreases |l|
  {
    ServedExactly(l, zero, k);
    if l[0].revents && l[0].fd in zero {
      if k == 1 {
        j := 0;
      } else {
        NotServedFrom(l, zero, 2, k);
        assert l[2..][k - 2] == l[k];
        var i := PassedOverMovesUp(l[2..], zero, k - 2);
        assert Kept(l, zero) == [l[1]] + Kept(l[2..], zero);
        j := i + 1;
      }
    } else {
      NotServedFrom(l, zero, 1, k);
      assert l[1..][k - 1] == l[k];
      var i := PassedOverMovesUp(l[1..], zero, k - 1);
      assert Kept(l, zero) == [l[0]] + Kept(l[1..], zero);
      j := i + 1;
    }
  }

  /** The next round starts with the clients that were kept, whatever is reported for them then, and
      further clients behind them. */
  ghost predicate Follows(l: seq<PollFd>, zero: set<int>, next: seq<PollFd>) {
    |Kept(l, zero)| <= |next| && forall j :: 0 <= j < |Kept(l, zero)| ==> next[j].fd == Kept(l, zero)[j].fd
  }

  /** Consecutive rounds in which the client is ready whenever it is in the table. */
  ghost predicate StaysReady(ls: seq<seq<PollFd>>, zs: seq<set<int>>, fd: int) {
    && |ls| == |zs|
    && (forall r :: 0 <= r < |ls| ==> Distinct(ls[r]))
    && (forall r, i :: 0 <= r < |ls| && 0 <= i < |ls[r]| && ls[r][i].fd == fd ==> ls[r][i].revents)
    && (forall r :: 0 < r < |ls| ==> Follows(ls[r - 1], zs[r - 1], ls[r]))
  }

  /** A client with `k` clients before it that stays ready is served within `k + 1` rounds. */
  lemma {:induction false} ServedWithin(ls: seq<seq<PollFd>>, zs: seq<set<int>>, fd: int, k: nat) returns (r: nat)
    requires StaysReady(ls, zs, fd) && k < |ls| && k < |ls[0]| && ls[0][k].fd == fd
    ensures r <= k && fd in Served(ls[r], zs[r])
    decreases k
  {
    if fd in Served(ls[0], zs[0]) {
      r := 0;
    } else {
      var j := PassedOverMovesUp(ls[0], zs[0], k);
      assert Follows(ls[0], zs[0], ls[1]) && ls[1][j].fd == fd;
      LaterRounds(ls, zs, fd);
      r := ServedWithin(ls[1..], zs[1..], fd, j);
      r := r + 1;
    }
  }

  lemma {:induction false} LaterRounds(ls: seq<seq<PollFd>>, zs: seq<set<int>>, fd: int)
    requires StaysReady(ls, zs, fd) && |ls| > 1
    ensures StaysReady(ls[1..], zs[1..], fd)
  {
    forall r | 0 < r < |ls| - 1
      ensures Follows(ls[1..][r - 1], zs[1..][r - 1], ls[1..][r])
    {
      assert Follows(ls[r], zs[r], ls[r + 1]);
    }
  }

  /** One round may not be enough: the third of three ready clients can be passed over twice in a row. */
  lemma {:induction false} PassedOverTwice(a: PollFd, b: PollFd, c: PollFd)
    requires Distinct([a, b, c]) && a.revents && b.revents && c.revents
    ensures Kept([a, b, c], {b.fd}) == [a, c]
    ensures c.fd !in Served([a, b, c], {b.fd}) && c.fd !in Served([a, c], {a.fd})
  {
    var l, m, n := [a, b, c], [a, c], [b, c];
    assert l[0].fd != l[1].fd && l[0].fd != l[2].fd && l[1].fd != l[2].fd;
    assert l[1..] == n && n[2..] == [] && m[2..] == [];
    assert n[1] == c && Kept(n[2..], {b.fd}) == [] && Served(n[2..], {b.fd}) == [];
    assert Served(l, {b.fd}) == [a.fd] + Served(n, {b.fd});
    assert Served(m, {a.fd}) == [a.fd];
  }

  // ----- the loop -----

  /** The entries with the flags that `poll` reported. */
  function Reported(l: seq<PollFd>, revents: seq<bool>): (r: seq<PollFd>)
    requires |revents| == |l|
    ensures |r| == |l|
  {
    seq(|l|, i requires 0 <= i < |l| => l[i].(revents := revents[i]))
  }

  /** By the flags that `poll` reported: a client is served exactly if it is ready and its predecessor was
      not served and removed. */
  ghost predicate SlotRule(slots: seq<PollFd>, ready: seq<bool>, zero: set<int>, received: seq<int>) {
    && |ready| == |slots|
    && forall k :: 0 <= k < |slots| ==>
         (slots[k].fd in received <==>
          ready[k] && !(k > 0 && slots[k - 1].fd in received && slots[k - 1].fd in zero))
  }

  /** The same for the client accepted in the round, by the flag its slot had. */
  ghost predicate NewRule(slots: seq<PollFd>, leftover: bool, clientSock: int, zero: set<int>, received: seq<int>) {
    var n := |slots|;
    clientSock in received <==> leftover && !(n > 0 && slots[n - 1].fd in received && slots[n - 1].fd in zero)
  }

  lemma {:induction false} SlotsServed(slots: seq<PollFd>, ready: seq<bool>, more: seq<PollFd>, zero: set<int>)
    requires |ready| == |slots| && Distinct(Reported(slots, ready) + more)
    ensures var r := Served(Reported(slots, ready) + more, zero);
            && SlotRule(slots, ready, zero, r)
            && (more != [] ==> NewRule(slots, more[0].revents, more[0].fd, zero, r))
  {
    var l := Reported(slots, ready) + more;
    var r := Served(l, zero);
    forall k | 0 <= k < |slots|
      ensures slots[k].fd in r <==> ready[k] && !(k > 0 && slots[k - 1].fd in r && slots[k - 1].fd in zero)
    {
      assert l[k] == slots[k].(revents := ready[k]);
      assert k > 0 ==> l[k - 1] == slots[k - 1].(revents := ready[k - 1]);
      OneServed(l, zero, k);
    }
    if more != [] {
      var k := |slots|;
      assert l[k] == more[0];
      assert k > 0 ==> l[k - 1] == slots[k - 1].(revents := ready[k - 1]);
      OneServed(l, zero, k);
    }
  }

  lemma {:induction false} OneServed(l: seq<PollFd>, zero: set<int>, k: nat)
    requires Distinct(l) && k < |l|
    ensures l[k].fd in Served(l, zero) <==>
            l[k].revents && !(k > 0 && l[k - 1].fd in Served(l, zero) && l[k - 1].fd in zero)
  {
    ServedExactly(l, zero, k);
    if k > 0 { ServedExactly(l, zero, k - 1); }
  }

  lemma {:induction false} RemoveOne(l: seq<PollFd>, k: nat)
    requires Distinct(l) && k < |l|
    ensures Distinct(l[..k] + l[k + 1..])
    ensures Fds(l[..k] + l[k + 1..]) == Fds(l) - {l[k].fd}
  {
    var m := l[..k] + l[k + 1..];
    forall i | 0 <= i < |m|
      ensures m[i] == l[if i < k then i else i + 1]
    {
    }
    forall fd | fd in Fds(l) - {l[k].fd}
      ensures fd in Fds(m)
    {
      var i :| 0 <= i < |l| && l[i].fd == fd;
      assert m[if i < k then i else i - 1] == l[i];
    }
  }

  /** A removal shifts a slot beyond those in use; so a round may fill the table only if it closes
      no client. */
  ghost predicate Room(n: nat, l: seq<PollFd>, zero: set<int>) {
    n <= POLL_MAX && (n == POLL_MAX ==> ClosedIn(l, zero) == {})
  }

  /** Distinct clients, none of them a listener, all polled for input. */
  ghost predicate Good(l: seq<PollFd>, tcpsock: int, udpsock: int) {
    Distinct(l) && forall i :: 0 <= i < |l| ==> l[i].events && l[i].fd != tcpsock && l[i].fd != udpsock
  }

  lemma {:induction false} GoodRemoved(l: seq<PollFd>, k: nat, rest: seq<PollFd>, tcpsock: int, udpsock: int,
                                       h: seq<Action>)
    requires Good(l, tcpsock, udpsock) && k < |l| && rest == l[..k] + l[k + 1..] && Fds(l) == Clients(h)
    ensures Good(rest, tcpsock, udpsock) && Fds(rest) == Clients(h + [Closed(l[k].fd)])
  {
    RemoveOne(l, k);
    ClientsStep(h, Closed(l[k].fd));
  }

  lemma {:induction false} GoodAppended(l: seq<PollFd>, e: PollFd, tcpsock: int, udpsock: int, h: seq<Action>)
    requires Good(l, tcpsock, udpsock) && Good([e], tcpsock, udpsock) && e.fd !in Fds(l) && Fds(l) == Clients(h)
    ensures Good(l + [e], tcpsock, udpsock) && Fds(l + [e]) == Clients(h + [Accepted(e.fd)])
  {
    assert [e][0] == e;
    AppendOne(l, e);
    ClientsStep(h, Accepted(e.fd));
  }

  lemma {:induction false} GoodReported(l: seq<PollFd>, revents: seq<bool>, tcpsock: int, udpsock: int)
    requires |revents| == |l| && Good(l, tcpsock, udpsock)
    ensures Good(Reported(l, revents), tcpsock, udpsock) && Fds(Reported(l, revents)) == Fds(l)
  {
    ReportedSame(l, revents);
  }

  class Loop {
    const tcpsock: int
    const udpsock: int
    const pfds: array<PollFd>
    var nfds: nat
    ghost var history: seq<Action>

    ghost function Slots(): (r: seq<PollFd>)
      requires 2 <= nfds <= pfds.Length
      reads this, pfds
    {
      pfds[2..nfds]
    }

    /** The listeners in slots 0 and 1, then the open clients, all distinct and all polled for input. */
    ghost predicate Valid()
      reads this, pfds
    {
      && pfds.Length == POLL_MAX && 2 <= nfds <= pfds.Length && tcpsock != udpsock
      && pfds[0].fd == tcpsock && pfds[1].fd == udpsock
      && pfds[0].events && pfds[1].events
      && Good(Slots(), tcpsock, udpsock) && Fds(Slots()) == Clients(history)
    }

    /** A descriptor that `accept` may return. */
    ghost predicate NotOpen(fd: int)
      requires 2 <= nfds <= pfds.Length
      reads this, pfds
    {
      fd !in Fds(Slots()) && fd != tcpsock && fd != udpsock
    }

    /** No unused slot has a leftover ready flag. */
    ghost predicate Clean()
      reads this, pfds
    {
      forall i :: nfds <= i < pfds.Length ==> !pfds[i].revents
    }

    /** The table is a local array: its other slots hold whatever was on the stack. */
    constructor (tcpsock: int, udpsock: int, stack: array<PollFd>)
      requires 0 <= tcpsock && 0 <= udpsock && tcpsock != udpsock && stack.Length == POLL_MAX
      modifies stack
      ensures Valid() && history == [] && pfds == stack && nfds == 2
      ensures this.tcpsock == tcpsock && this.udpsock == udpsock
      ensures forall i :: 2 <= i < POLL_MAX ==> pfds[i] == old(stack[i])
    {
      this.tcpsock, this.udpsock := tcpsock, udpsock;
      pfds := stack;
      nfds := 2;
      history := [];
      new;
      pfds[0] := pfds[0].(fd := tcpsock, events := true);
      pfds[1] := pfds[1].(fd := udpsock, events := true);
    }

    /** `poll` writes the flags of the slots in use. */
    method Poll(revents: seq<bool>)
      requires Valid() && |revents| == nfds
      modifies pfds
      ensures Valid() && Slots() == Reported(old(Slots()), revents[2..]) && Fds(Slots()) == old(Fds(Slots()))
      ensures pfds[0].revents == revents[0]
      ensures forall i :: nfds <= i < pfds.Length ==> pfds[i] == old(pfds[i])
    {
      for k := 0 to nfds
        invariant forall i :: 0 <= i < k ==> pfds[i] == old(pfds[i]).(revents := revents[i])
        invariant forall i :: k <= i < pfds.Length ==> pfds[i] == old(pfds[i])
      {
        pfds[k] := pfds[k].(revents := revents[k]);
      }
      assert Slots() == Reported(old(Slots()), revents[2..]);
      GoodReported(old(Slots()), revents[2..], tcpsock, udpsock);
    }

    /** The inner shift loop; it reads one slot past the last one in use. */
    method ShiftDown(i: nat)
      requires i < nfds < pfds.Length
      modifies pfds
      ensures forall j :: 0 <= j < i || nfds <= j < pfds.Length ==> pfds[j] == old(pfds[j])
      ensures forall j :: i <= j < nfds ==> pfds[j] == old(pfds[j + 1])
    {
      var s := i;
      while s < nfds
        invariant i <= s <= nfds
        invariant forall j :: 0 <= j < i || s <= j < pfds.Length ==> pfds[j] == old(pfds[j])
        invariant forall j :: i <= j < s ==> pfds[j] == old(pfds[j + 1])
      {
        pfds[s] := pfds[s + 1];
        s := s + 1;
      }
    }

    /** Mark the slot of a client that left and shift the rest down. */
    method DeleteSlot(i: nat)
      requires 2 <= i < nfds < pfds.Length
      modifies this`nfds, pfds
      ensures nfds == old(nfds) - 1 && pfds[0] == old(pfds[0]) && pfds[1] == old(pfds[1])
      ensures Slots() == old(Slots()[..i - 2] + Slots()[i - 1..])
      ensures pfds[nfds] == old(pfds[nfds])
      ensures forall j :: nfds < j < pfds.Length ==> pfds[j] == old(pfds[j])
    {
      pfds[i] := PollFd(-1, false, pfds[i].revents);
      ShiftDown(i);
      nfds := nfds - 1;
      ShiftedOut(old(Slots()), Slots(), i - 2);
    }

    /** The other clients keep their order. */
    method RemoveSlot(i: nat)
      requires Valid() && 2 <= i < nfds < pfds.Length
      modifies this, pfds
      ensures Valid() && nfds == old(nfds) - 1 && history == old(history) + [Closed(old(pfds[i].fd))]
      ensures Slots() == old(Slots()[..i - 2] + Slots()[i - 1..])
      ensures old(Clean()) ==> Clean()
    {
      SlotAt(i);
      GoodRemoved(Slots(), i - 2, Slots()[..i - 2] + Slots()[i - 1..], tcpsock, udpsock, history);
      history := history + [Closed(pfds[i].fd)];
      DeleteSlot(i);
    }

    /** A new client: descriptor and interest are written, the slot's old `revents` stays. */
    method AddSlot(clientSock: int)
      requires Valid() && nfds < pfds.Length
      requires NotOpen(clientSock)
      modifies this, pfds
      ensures Valid() && nfds == old(nfds) + 1 && history == old(history) + [Accepted(clientSock)]
      ensures Slots() == old(Slots()) + [PollFd(clientSock, true, old(pfds[nfds].revents))]
      ensures pfds[1] == old(pfds[1])
      ensures old(Clean()) ==> Clean()
    {
      ghost var l, h, e := Slots(), history, PollFd(clientSock, true, pfds[nfds].revents);
      pfds[nfds] := pfds[nfds].(fd := clientSock, events := true);
      nfds := nfds + 1;
      history := h + [Accepted(clientSock)];
      assert Slots() == l + [e];
      GoodAppended(l, e, tcpsock, udpsock, h);
    }

    /** A client about to be accepted, as its slot will be. */
    ghost function Coming(ready: bool, clientSock: int): (l: seq<PollFd>)
      requires ready ==> nfds < pfds.Length
      reads this, pfds
    {
      if ready then [PollFd(clientSock, true, pfds[nfds].revents)] else []
    }

    /** The client entries a round works on: those polled, and a client accepted at the start of it. */
    ghost function RoundList(revents: seq<bool>, clientSock: int): (l: seq<PollFd>)
      requires 2 <= nfds <= pfds.Length && |revents| == nfds && (revents[0] ==> nfds < pfds.Length)
      reads this, pfds
    {
      Reported(Slots(), revents[2..]) + Coming(revents[0], clientSock)
    }

    /** The scan is at slot `i` of a round on `l`. */
    ghost predicate At(i: nat, clientSock: int, zero: set<int>, l: seq<PollFd>, received: seq<int>)
      reads this, pfds
    {
      && Valid() && i <= nfds + 1 && Room(nfds + (if i == 0 && pfds[0].revents then 1 else 0), l, zero)
      && (i == 0 ==> Slots() + Coming(pfds[0].revents, clientSock) == l && received == [])
      && (i == 0 && pfds[0].revents ==> NotOpen(clientSock))
      && (i > 0 ==> Scan(Slots(), if i < 2 then 0 else i - 2, zero, l, received))
    }

    /** A ready client: `recv`, and removal if nothing is left to read. */
    method ServeClient(i: nat, zero: set<int>, received: seq<int>, ghost l: seq<PollFd>) returns (r: seq<int>)
      requires Valid() && 2 <= i < nfds && Room(nfds, l, zero) && pfds[i].revents
      requires Scan(Slots(), i - 2, zero, l, received)
      modifies this, pfds
      ensures Valid() && Scan(Slots(), i - 1, zero, l, r) && i <= nfds <= old(nfds)
      ensures old(history) <= history && (old(Clean()) ==> Clean())
    {
      SlotAt(i);
      ghost var slots := Slots();
      ScanServes(slots, i - 2, zero, l, received);
      r := received + [pfds[i].fd];
      if pfds[i].fd in zero {
        assert pfds[i].fd in ClosedIn(l, zero);
        RemoveSlot(i);
      }
      ScanStep(slots, i - 2, zero, l, received, Slots(), r);
    }

    /** The body of the scan at slot `i`. */
    method Turn(i: nat, clientSock: int, zero: set<int>, received: seq<int>, ghost l: seq<PollFd>)
      returns (r: seq<int>)
      requires i < nfds && At(i, clientSock, zero, l, received)
      modifies this, pfds
      ensures At(i + 1, clientSock, zero, l, r)
      ensures nfds <= if i == 0 then old(nfds) + 1 else old(nfds)
      ensures old(history) <= history && (old(Clean()) ==> Clean())
    {
      SlotFd(i);
      r := received;
      if i == 0 { ScanStart(l, zero); }
      if pfds[i].revents {
        if pfds[i].fd == tcpsock {
          AddSlot(clientSock);
        } else if pfds[i].fd == udpsock {
        } else {
          r := ServeClient(i, zero, received, l);
        }
      } else if i >= 2 {
        SlotAt(i);
        ScanStep(Slots(), i - 2, zero, l, received, Slots(), received);
      }
      if i == 0 { assert Slots() == l; }
    }

    /** One round after `poll` reported `revents`. `zero` are the descriptors on which `recv` returns 0.
        Whatever `poll` and `accept` return for the round after it, its list follows this one's. */
    method Round(revents: seq<bool>, clientSock: int, zero: set<int>) returns (received: seq<int>)
      requires Valid() && |revents| == nfds
      requires revents[0] ==> nfds < POLL_MAX && NotOpen(clientSock)
      requires Room(nfds + (if revents[0] then 1 else 0), RoundList(revents, clientSock), zero)
      modifies this, pfds
      ensures Valid() && old(history) <= history
      ensures received == Served(old(RoundList(revents, clientSock)), zero)
      ensures forall a, b :: 0 <= a < b < |received| ==> received[a] != received[b]
      ensures SlotRule(old(Slots()), revents[2..], zero, received)
      ensures revents[0] ==> NewRule(old(Slots()), old(pfds[nfds]).revents, clientSock, zero, received)
      ensures var l := old(RoundList(revents, clientSock)); Slots() == Kept(l, zero) == Drop(l, ClosedIn(l, zero))
      ensures old(Clean()) ==> Clean() && (revents[0] ==> clientSock !in received)
      ensures forall rev, sock :: |rev| == nfds && (rev[0] ==> nfds < POLL_MAX && NotOpen(sock)) ==>
                Distinct(RoundList(rev, sock)) && Follows(old(RoundList(revents, clientSock)), zero, RoundList(rev, sock))
    {
      ghost var l := RoundList(revents, clientSock);
      RoundFacts(revents, clientSock, zero);
      SlotsServed(Slots(), revents[2..], Coming(revents[0], clientSock), zero);
      Poll(revents);
      received := Turns(clientSock, zero, l);
      forall rev, sock | |rev| == nfds && (rev[0] ==> nfds < POLL_MAX && NotOpen(sock))
        ensures Distinct(RoundList(rev, sock)) && Follows(l, zero, RoundList(rev, sock))
      {
        RoundListDistinct(rev, sock);
      }
    }

    /** The loop of a round, over a table that changes under it. */
    method Turns(clientSock: int, zero: set<int>, ghost l: seq<PollFd>) returns (received: seq<int>)
      requires At(0, clientSock, zero, l, [])
      modifies this, pfds
      ensures Valid() && old(history) <= history && (old(Clean()) ==> Clean())
      ensures received == Served(l, zero) && Slots() == Kept(l, zero)
    {
      received := [];
      var i := 0;
      while i < nfds
        invariant At(i, clientSock, zero, l, received)
        invariant old(history) <= history && (old(Clean()) ==> Clean())
        decreases i == 0, nfds + 1 - i
      {
        received := Turn(i, clientSock, zero, received, l);
        i := i + 1;
      }
      ScanEnd(Slots(), i - 2, zero, l, received);
    }

    lemma {:induction false} RoundListDistinct(revents: seq<bool>, clientSock: int)
      requires Valid() && |revents| == nfds && (revents[0] ==> nfds < POLL_MAX && NotOpen(clientSock))
      ensures Distinct(RoundList(revents, clientSock))
    {
      ReportedSame(Slots(), revents[2..]);
      if revents[0] {
        AppendOne(Reported(Slots(), revents[2..]), PollFd(clientSock, true, pfds[nfds].revents));
      }
    }

    /** What the list of a round promises about serving it. */
    lemma {:induction false} RoundFacts(revents: seq<bool>, clientSock: int, zero: set<int>)
      requires Valid() && |revents| == nfds && (revents[0] ==> nfds < POLL_MAX && NotOpen(clientSock))
      ensures var l := RoundList(revents, clientSock);
              && Kept(l, zero) == Drop(l, ClosedIn(l, zero))
              && (forall a, b :: 0 <= a < b < |Served(l, zero)| ==> Served(l, zero)[a] != Served(l, zero)[b])
              && Distinct(l)
              && (revents[0] && !pfds[nfds].revents ==> clientSock !in Served(l, zero))
    {
      var l := RoundList(revents, clientSock);
      RoundListDistinct(revents, clientSock);
      ServedOnce(l, zero);
      KeptIsDrop(l, zero);
      if revents[0] {
        ReportedSame(Slots(), revents[2..]);
        ServedUnreportedIff(Reported(Slots(), revents[2..]), clientSock, pfds[nfds].revents, zero);
      }
    }

    lemma {:induction false} SlotAt(i: nat)
      requires 2 <= i < nfds <= pfds.Length
      ensures |Slots()| == nfds - 2 && Slots()[i - 2] == pfds[i]
    {
    }

    lemma {:induction false} SlotFd(i: nat)
      requires Valid() && i < nfds
      ensures pfds[i].fd == tcpsock ==> i == 0
      ensures pfds[i].fd == udpsock ==> i == 1
    {
    }
  }

  lemma {:induction false} ShiftedOut(was: seq<PollFd>, now: seq<PollFd>, k: nat)
    requires k < |was| == |now| + 1
    requires forall j :: 0 <= j < k ==> now[j] == was[j]
    requires forall j :: k <= j < |now| ==> now[j] == was[j + 1]
    ensures now == was[..k] + was[k + 1..]
  {
  }

  lemma {:induction false} AppendOne(l: seq<PollFd>, e: PollFd)
    requires Distinct(l) && e.fd !in Fds(l)
    ensures Distinct(l + [e]) && Fds(l + [e]) == Fds(l) + {e.fd}
  {
    var m := l + [e];
    assert forall i :: 0 <= i < |l| ==> l[i].fd in Fds(l);
    forall fd | fd in Fds(l) + {e.fd}
      ensures fd in Fds(m)
    {
      if fd == e.fd {
        assert m[|l|].fd == fd;
      } else {
        var i :| 0 <= i < |l| && l[i].fd == fd;
        assert m[i].fd == fd;
      }
    }
  }

  lemma {:induction false} ReportedSame(l: seq<PollFd>, revents: seq<bool>)
    requires |revents| == |l|
    ensures Fds(Reported(l, revents)) == Fds(l)
    ensures Distinct(l) ==> Distinct(Reported(l, revents))
  {
    var m := Reported(l, revents);
    assert forall i :: 0 <= i < |l| ==> m[i].fd == l[i].fd;
  }

  /** The scan stands at client `k` of `slots` (or one past the end, after removing the last): what it
      has done, with what it will do from here, is the round on `l`. */
  ghost predicate Scan(slots: seq<PollFd>, k: nat, zero: set<int>, l: seq<PollFd>, received: seq<int>) {
    if k <= |slots| then
      && slots[..k] + Kept(slots[k..], zero) == Kept(l, zero)
      && received + Served(slots[k..], zero) == Served(l, zero)
    else
      slots == Kept(l, zero) && received == Served(l, zero)
  }

  lemma {:induction false} ScanServes(slots: seq<PollFd>, k: nat, zero: set<int>, l: seq<PollFd>, received: seq<int>)
    requires k < |slots| && Scan(slots, k, zero, l, received) && slots[k].revents
    ensures slots[k].fd in Served(l, zero)
  {
    assert Served(slots[k..], zero)[0] == slots[k].fd;
    assert Served(l, zero)[|received|] == slots[k].fd;
  }

  lemma {:induction false} ScanStart(l: seq<PollFd>, zero: set<int>)
    ensures Scan(l, 0, zero, l, [])
  {
  }

  lemma {:induction false} ScanEnd(slots: seq<PollFd>, k: nat, zero: set<int>, l: seq<PollFd>, received: seq<int>)
    requires Scan(slots, k, zero, l, received) && k >= |slots|
    ensures slots == Kept(l, zero) && received == Served(l, zero)
  {
  }

  /** One turn of the loop takes the scan one client further. */
  lemma {:induction false} ScanStep(slots: seq<PollFd>, k: nat, zero: set<int>, l: seq<PollFd>, received: seq<int>,
                 slots': seq<PollFd>, received': seq<int>)
    requires k < |slots| && Scan(slots, k, zero, l, received)
    requires received' == received + if slots[k].revents then [slots[k].fd] else []
    requires slots' == if slots[k].revents && slots[k].fd in zero then slots[..k] + slots[k + 1..] else slots
    ensures Scan(slots', k + 1, zero, l, received')
  {
    assert slots[k..][1..] == slots[k + 1..];
    if slots[k].revents && slots[k].fd in zero {
      ScanRemoves(slots, k, zero, l, received);
    } else {
      assert slots[..k + 1] == slots[..k] + [slots[k]];
      Assoc(slots[..k], [slots[k]], Kept(slots[k + 1..], zero));
      Assoc(received, [slots[k].fd], Served(slots[k + 1..], zero));
    }
  }

  lemma {:induction false} ScanRemoves(slots: seq<PollFd>, k: nat, zero: set<int>, l: seq<PollFd>, received: seq<int>)
    requires k < |slots| && Scan(slots, k, zero, l, received) && slots[k].revents && slots[k].fd in zero
    ensures Scan(slots[..k] + slots[k + 1..], k + 1, zero, l, received + [slots[k].fd])
  {
    var rest, less := slots[k..], slots[..k] + slots[k + 1..];
    if k + 1 == |slots| {
      assert less == slots[..k];
      assert Kept(rest, zero) == [] && Served(rest, zero) == [slots[k].fd];
    } else {
      assert rest[1] == slots[k + 1] && rest[2..] == slots[k + 2..] == less[k + 1..];
      assert less[..k + 1] == slots[..k] + [slots[k + 1]];
      Assoc(slots[..k], [slots[k + 1]], Kept(rest[2..], zero));
      Assoc(received, [slots[k].fd], Served(rest[2..], zero));
    }
  }

  lemma {:induction false} Assoc<T>(a: seq<T>, b: seq<T>, c: seq<T>)
    ensures a + b + c == a + (b + c)
  {
  }

  /** A client is served in the very round that accepts it, before any `poll` has reported it, exactly
      when its slot carries a leftover ready flag and it is not passed over. */
  lemma {:induction false} ServedUnreportedIff(polled: seq<PollFd>, clientSock: int, leftover: bool, zero: set<int>)
    requires Distinct(polled) && clientSock !in Fds(polled)
    ensures var l := polled + [PollFd(clientSock, true, leftover)];
            clientSock in Served(l, zero) <==>
              leftover && (polled == [] || !(IsServed(l, zero, |polled| - 1) && polled[|polled| - 1].fd in zero))
  {
    var e := PollFd(clientSock, true, leftover);
    AppendOne(polled, e);
    ServedExactly(polled + [e], zero, |polled|);
  }
}
