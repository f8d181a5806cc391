/** The connection set that the select, poll and epoll loops each keep in their own form. */
module Connections {

  /** What the loops do to the set, in order. */
  datatype Action = Accepted(fd: int) | Closed(fd: int)

  /** The clients left open by a history of accepts and disconnects. */
  function Clients(h: seq<Action>): (r: set<int>) {
    if h == [] then {}
    else
      var before := Clients(h[..|h| - 1]);
      match h[|h| - 1]
      case Accepted(fd) => before + {fd}
      case Closed(fd) => before - {fd}
  }

  lemma {:induction false} ClientsStep(h: seq<Action>, a: Action)
    ensures Clients(h + [a]) == if a.Accepted? then Clients(h) + {a.fd} else Clients(h) - {a.fd}
  {
  }

  /** A client is open exactly when it was accepted and not closed since. */
  lemma {:induction false} ClientsMean(h: seq<Action>, fd: int)
    ensures fd in Clients(h) <==>
            exists i :: 0 <= i < |h| && h[i] == Accepted(fd) && forall j :: i < j < |h| ==> h[j] != Closed(fd)
  {
    if h != [] {
      var n := |h| - 1;
      ClientsMean(h[..n], fd);
      if h[n] == Accepted(fd) {
        assert h[n] == Accepted(fd);
      } else if h[n] != Closed(fd) {
        assert forall i :: 0 <= i < n ==> h[..n][i] == h[i];
        if fd in Clients(h[..n]) {
          var i :| 0 <= i < n && h[..n][i] == Accepted(fd) && forall j :: i < j < n ==> h[..n][j] != Closed(fd);
          assert h[i] == Accepted(fd);
        }
      }
    }
  }

  /** The kernel's table of open client descriptors; each connection gets a number of its own, so that a
      reused descriptor is told apart from the connection it had before. */
  type Table = map<int, nat>
}
