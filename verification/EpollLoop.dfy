/** The epoll loop: an interest list kept by the kernel and changed while a batch of events is handled. */
module EpollLoop {
  import opened Connections

  const MAX_EVENTS := 10

  class Loop {
    const tcpsock: int
    const udpsock: int
    var interest: set<int>
    ghost var table: Table
    ghost var serial: nat
    ghost var history: seq<Action>

    ghost predicate Valid()
      reads this
    {
      && tcpsock != udpsock && tcpsock !in table && udpsock !in table
      && interest == {tcpsock, udpsock} + table.Keys
      && table.Keys == Clients(history)
    }

    constructor (tcpsock: int, udpsock: int)
      requires tcpsock != udpsock
      ensures Valid() && table == map[] && history == []
      ensures this.tcpsock == tcpsock && this.udpsock == udpsock
    {
      this.tcpsock, this.udpsock := tcpsock, udpsock;
      interest := {};
      table, serial, history := map[], 0, [];
      new;
      interest := interest + {udpsock};
      interest := interest + {tcpsock};
    }

    /** The client is among the first `n` events and has nothing left to read. */
    ghost predicate Left(events: seq<int>, n: nat, zero: set<int>, fd: int)
      requires n <= |events|
    {
      fd in events[..n] && fd in zero && fd != tcpsock && fd != udpsock
    }

    /** `accept`, called for event `at`, gives a descriptor that is not open at that moment. */
    ghost predicate Fresh(clientSock: int, events: seq<int>, at: nat, zero: set<int>)
      requires at <= |events|
      reads this
    {
      && clientSock != tcpsock && clientSock != udpsock
      && (clientSock in table ==> Left(events, at, zero, clientSock))
    }

    /** The table after `n` events. */
    ghost predicate Midway(start: Table, events: seq<int>, n: nat, zero: set<int>, clientSock: int, number: nat)
      requires n <= |events|
      reads this
    {
      && (forall fd :: fd in table <==>
            (fd in start && !Left(events, n, zero, fd)) || (tcpsock in events[..n] && fd == clientSock))
      && (forall fd :: fd in table ==>
            table[fd] == if tcpsock in events[..n] && fd == clientSock then number else start[fd])
    }

    method AcceptClient(clientSock: int)
      requires Valid() && clientSock !in table && clientSock != tcpsock && clientSock != udpsock
      modifies this
      ensures Valid() && history == old(history) + [Accepted(clientSock)]
      ensures table == old(table)[clientSock := old(serial)]
    {
      ClientsStep(history, Accepted(clientSock));
      table, serial, history := table[clientSock := serial], serial + 1, history + [Accepted(clientSock)];
      interest := interest + {clientSock};
    }

    method DropClient(fd: int)
      requires Valid() && fd in table
      modifies this
      ensures Valid() && serial == old(serial) && history == old(history) + [Closed(fd)]
      ensures table == old(table) - {fd}
    {
      ClientsStep(history, Closed(fd));
      table, history := table - {fd}, history + [Closed(fd)];
      interest := interest - {fd};
    }

    /** One round over the events `epoll_wait` returned. Each is handled on the connection it was
        reported for, even if `accept` reuses a descriptor that was closed earlier in the round. */
    method Round(events: seq<int>, clientSock: int, zero: set<int>) returns (ghost servedOn: Table)
      requires Valid() && |events| <= MAX_EVENTS
      requires forall k :: 0 <= k < |events| ==> events[k] in interest
      requires forall j, k :: 0 <= j < k < |events| ==> events[j] != events[k]
      requires forall k :: 0 <= k < |events| && events[k] == tcpsock ==> Fresh(clientSock, events, k, zero)
      modifies this
      ensures Valid() && old(history) <= history
      ensures forall k :: 0 <= k < |events| && events[k] != tcpsock && events[k] != udpsock ==>
                events[k] in old(table) && events[k] in servedOn && servedOn[events[k]] == old(table)[events[k]]
      ensures Midway(old(table), events, |events|, zero, clientSock, old(serial))
    {
      servedOn := map[];
      ghost var start := table;
      var i := 0;
      while i < |events|
        invariant 0 <= i <= |events| && Valid() && old(history) <= history
        invariant forall k :: 0 <= k < i && events[k] != tcpsock && events[k] != udpsock ==>
                    events[k] in start && events[k] in servedOn && servedOn[events[k]] == start[events[k]]
        invariant Midway(start, events, i, zero, clientSock, old(serial))
        invariant tcpsock !in events[..i] ==> serial == old(serial)
      {
        var fd := events[i];
        assert events[..i + 1] == events[..i] + [fd];
        assert fd !in events[..i];
        if udpsock == fd {
        } else if tcpsock == fd {
          AcceptClient(clientSock);
        } else {
          EventLive(events, i, zero, clientSock, start);
          servedOn := servedOn[fd := table[fd]];
          if fd in zero {
            DropClient(fd);
          }
        }
        i := i + 1;
      }
    }

    /** The client of a later event is still the one that was reported. */
    lemma {:induction false} EventLive(events: seq<int>, i: nat, zero: set<int>, clientSock: int, start: Table)
      requires i < |events| && events[i] !in events[..i] && events[i] in start
      requires forall k :: 0 <= k < |events| && events[k] == tcpsock ==>
                 (clientSock in start ==> Left(events, k, zero, clientSock))
      ensures !(tcpsock in events[..i] && events[i] == clientSock)
    {
    }
  }
}
