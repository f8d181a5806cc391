/** The select loop: a bit set that is changed while a copy of it is scanned. */
module SelectLoop {
  import opened Connections

  class Loop {
    const tcpsock: int
    const udpsock: int
    var rset: set<int>
    var max: int
    ghost var table: Table
    ghost var serial: nat
    ghost var history: seq<Action>

    /** The watched set is the two listeners and the open clients, and the scan bound covers it. */
    ghost predicate Valid()
      reads this
    {
      && tcpsock != udpsock && tcpsock !in table && udpsock !in table
      && rset == {tcpsock, udpsock} + table.Keys
      && table.Keys == Clients(history)
      && forall fd :: fd in rset ==> 0 <= fd <= max
    }

    /** `set_max`. */
    method SetMax(val: int)
      modifies this`max
      ensures max >= val && max >= old(max) && max in {val, old(max)}
    {
      max := if val > max then val else max;
    }

    constructor (tcpsock: int, udpsock: int)
      requires 0 <= tcpsock && 0 <= udpsock && tcpsock != udpsock
      ensures Valid() && table == map[] && history == []
      ensures this.tcpsock == tcpsock && this.udpsock == udpsock
    {
      this.tcpsock, this.udpsock := tcpsock, udpsock;
      max := -1;
      table, serial, history := map[], 0, [];
      rset := {tcpsock, udpsock};
      new;
      SetMax(if tcpsock > udpsock then tcpsock else udpsock);
    }

    /** The descriptors whose client disconnects in a round. */
    ghost function Leaving(ready: set<int>, zero: set<int>): (r: set<int>) {
      ready * zero - {tcpsock, udpsock}
    }

    /** `accept` gives a descriptor that is not open at that moment: the scan has passed the clients
        below the listener, and those of them that left are closed again. */
    ghost predicate Fresh(clientSock: int, ready: set<int>, zero: set<int>)
      reads this
    {
      && 0 <= clientSock && clientSock != tcpsock && clientSock != udpsock
      && (clientSock in table ==> clientSock in Leaving(ready, zero) && clientSock < tcpsock)
    }

    method AcceptClient(clientSock: int)
      requires Valid() && 0 <= clientSock && clientSock !in table && clientSock != tcpsock && clientSock != udpsock
      modifies this
      ensures Valid() && max >= old(max) && history == old(history) + [Accepted(clientSock)]
      ensures table == old(table)[clientSock := old(serial)]
    {
      ClientsStep(history, Accepted(clientSock));
      table, serial, history := table[clientSock := serial], serial + 1, history + [Accepted(clientSock)];
      rset := rset + {clientSock};
      SetMax(clientSock);
    }

    method DropClient(fd: int)
      requires Valid() && fd in table
      modifies this
      ensures Valid() && max == old(max) && serial == old(serial) && history == old(history) + [Closed(fd)]
      ensures table == old(table) - {fd}
    {
      ClientsStep(history, Closed(fd));
      table, history := table - {fd}, history + [Closed(fd)];
      rset := rset - {fd};
    }

    /** One round after `select` reported `ready`. `zero` are the descriptors on which `recv` returns 0.
        Every ready descriptor is served, once, in increasing order; and the connection it is served on
        is the one it was at the start of the round. */
    method Round(ready: set<int>, clientSock: int, zero: set<int>)
      returns (served: seq<int>, ghost servedOn: Table)
      requires Valid() && ready <= rset
      requires tcpsock in ready ==> Fresh(clientSock, ready, zero)
      modifies this
      ensures Valid() && old(history) <= history
      ensures forall fd :: fd in served <==> fd in ready
      ensures forall a, b :: 0 <= a < b < |served| ==> served[a] < served[b]
      ensures forall fd :: fd in ready && fd != tcpsock && fd != udpsock ==>
                fd in old(table) && fd in servedOn && servedOn[fd] == old(table)[fd]
      ensures table == (old(table) - Leaving(ready, zero))
                       + if tcpsock in ready then map[clientSock := old(serial)] else map[]
    {
      served, servedOn := [], map[];
      ghost var start, out := table, Leaving(ready, zero);
      assert forall fd :: fd in ready ==> 0 <= fd <= max;
      var i := 0;
      while i <= max
        invariant 0 <= i && Valid() && old(history) <= history && max >= old(max)
        invariant ServedUpTo(served, ready, i)
        invariant forall fd :: fd in ready && fd < i && fd != tcpsock && fd != udpsock ==>
                    fd in start && fd in servedOn && servedOn[fd] == start[fd]
        invariant Midway(start, out, i, tcpsock in ready && tcpsock < i, clientSock, old(serial), table)
        invariant !(tcpsock in ready && tcpsock < i) ==> serial == old(serial)
        decreases i <= tcpsock, max - i
      {
        ghost var before := table;
        if i in ready {
          ServedStep(served, ready, i);
          served := served + [i];
          if i == tcpsock {
            AcceptClient(clientSock);
          } else if i == udpsock {
          } else {
            servedOn := servedOn[i := table[i]];
            if i in zero {
              DropClient(i);
            }
          }
        }
        MidwayStep(start, out, i, tcpsock in ready && tcpsock < i, tcpsock in ready && tcpsock <= i, clientSock,
                   old(serial), before, table);
        i := i + 1;
      }
      assert forall fd :: fd in ready ==> fd < i;
      MidwayEnd(start, out, i, tcpsock in ready, clientSock, old(serial), table);
    }
  }

  /** The ready descriptors below `i` have been served, in increasing order. */
  ghost predicate ServedUpTo(served: seq<int>, ready: set<int>, i: int) {
    && (forall fd :: fd in served <==> fd in ready && fd < i)
    && (forall a, b :: 0 <= a < b < |served| ==> served[a] < served[b])
  }

  lemma {:induction false} ServedStep(served: seq<int>, ready: set<int>, i: int)
    requires ServedUpTo(served, ready, i) && i in ready
    ensures ServedUpTo(served + [i], ready, i + 1)
  {
    forall a | 0 <= a < |served|
      ensures served[a] < i
    {
      assert served[a] in served;
    }
  }

  /** The table when the scan has reached `i`. */
  ghost predicate Midway(start: Table, out: set<int>, i: int, accepted: bool, clientSock: int, serial: nat, table: Table) {
    && (forall fd :: fd in table <==> (fd in start && !(fd in out && fd < i)) || (accepted && fd == clientSock))
    && (forall fd :: fd in table ==> table[fd] == if accepted && fd == clientSock then serial else start[fd])
  }

  lemma {:induction false} MidwayStep(start: Table, out: set<int>, i: int, accepted: bool, accepted': bool,
                                      clientSock: int, serial: nat, table: Table, table': Table)
    requires Midway(start, out, i, accepted, clientSock, serial, table)
    requires (&& accepted' == accepted && table' == (if i in out then table - {i} else table)
              && !(accepted && i in out && i == clientSock))
             || (!accepted && accepted' && i !in out && table' == table[clientSock := serial])
    ensures Midway(start, out, i + 1, accepted', clientSock, serial, table')
  {
  }

  lemma {:induction false} MidwayEnd(start: Table, out: set<int>, i: int, accepted: bool, clientSock: int,
                                     serial: nat, table: Table)
    requires Midway(start, out, i, accepted, clientSock, serial, table)
    requires forall fd :: fd in out ==> fd < i
    ensures table == (start - out) + if accepted then map[clientSock := serial] else map[]
  {
    var gained: Table := if accepted then map[clientSock := serial] else map[];
    var end := (start - out) + gained;
    forall fd
      ensures fd in table <==> fd in end
      ensures fd in table ==> table[fd] == end[fd]
    {
      assert fd in out ==> fd < i;
      assert fd in end <==> fd in start - out || fd in gained;
    }
    assert table == end;
  }
}
