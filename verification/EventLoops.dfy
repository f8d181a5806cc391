/** The three event loops side by side. */
module EventLoops {
  import opened Connections
  import SelectLoop
  import PollLoop
  import EpollLoop

  /** The sockets that a poll table watches. */
  ghost function PollWatches(p: PollLoop.Loop): (r: set<int>)
    requires p.Valid()
    reads p, p.pfds
  {
    set i | 0 <= i < p.nfds :: p.pfds[i].fd
  }

  lemma {:induction false} PollWatchesAre(p: PollLoop.Loop)
    requires p.Valid()
    ensures PollWatches(p) == {p.tcpsock, p.udpsock} + Clients(p.history)
  {
  }

  /** After the same accepts and disconnects, the bit set, the table and the interest list denote the
      same sockets. */
  lemma {:induction false} SameSockets(s: SelectLoop.Loop, p: PollLoop.Loop, e: EpollLoop.Loop)
    requires s.Valid() && p.Valid() && e.Valid()
    requires s.tcpsock == p.tcpsock == e.tcpsock && s.udpsock == p.udpsock == e.udpsock
    requires s.history == p.history == e.history
    ensures s.rset == PollWatches(p) == e.interest
  {
  }
}
