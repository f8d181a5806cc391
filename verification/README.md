# Verified models of the eltex network programs

A Dafny 4.11 model of the parts of the repository that hold state, formats or arithmetic, with proofs of
what those parts promise. `dafny verify dfyconfig.toml` checks everything.

| file | models |
|---|---|
| `Bytes.dfy` | octets and the fields that C structures lay over a buffer |
| `CStrings.dfy`, `RbTree.dfy` | `strcmp` as an order; the cache tree with red-black insertion along parent links |
| `DnsPacket.dfy`, `DnsProxy.dfy` | what the inbound hook reads, what `create_packet` writes, and the two hooks over a whole history |
| `InternetChecksum.dfy` | the checksum loops of ping and raw_socket against RFC 1071, and the echo packet |
| `TimeServer.dfy` | the UDP time server as interleaved steps of one server loop and any number of workers |
| `Connections.dfy`, `SelectLoop.dfy`, `PollLoop.dfy`, `EpollLoop.dfy`, `EventLoops.dfy` | the three event loops over one connection set |
| `FileManager.dfy` | the viewport of the file manager, its key loop and its drawing |
| `Netlink.dfy` | the nested walk over messages and attributes |
| `RouteLine.dfy` | the line printed for a route, and what it takes from the stack |
| `Ipv4Text.dfy` | the dotted-quad printer and parser |
| `CharDevice.dfy` | the character device and the program that reads it octet by octet |

## How the source is read

- The machine is little-endian, `char` is signed, `int` has 32 and `long` 64 bits. Integers are unbounded
  in the model; truncation to 16 or 8 bits is written out, and the accumulators of the two checksums are
  shown to stay in range or to overflow.
- Results of system calls (`accept`, `recv`, `recvfrom`, `poll`, `epoll_wait`, `time`, `readdir`,
  `ip_local_out`, the contents of fresh memory) are parameters. `accept` is taken to return a descriptor
  that is not open at that moment.
- A precondition that a buffer is long enough stands for memory the C code reads or writes without a check.
- `rb_insert_color` belongs to the kernel, not to the repository; it is modelled with the kernel's three
  cases: red uncle, inner grandchild, outer grandchild. Nodes are values, and parent links are a path of
  frames.

## Findings

- Two folds equal the one's complement sum exactly for the sums that settle after them. That is every
  buffer up to 131076 octets, and `BoundIsSharp` gives a buffer of 131077 for which they do not. The `int`
  accumulator is safe exactly up to 65537 octets (`RawChecksum`, `IntBoundIsSharp`).
- If anything follows the question in a cached query (an additional section, say), the synthesized reply
  ends with octets of uninitialised buffer memory; if nothing follows, it never does (`StaleOctetsIff`).
- The inbound hook turns a record down only if its type is not A and its data is not four octets long, so
  any other record with four octets of data is cached as an address, and so is an A record of any length
  (`LearnsIff`).
- A client that asks from port 53 gets a reply that the outbound hook answers again, and again; from any
  other port the reply leaves both hooks unchanged (`ReplyReenters`).
- The poll loop passes over the entry behind one it removes (`ServedExactly`), and may do so to the same
  ready client in consecutive rounds (`PassedOverTwice`). Each time the client moves up in the table
  (`PassedOverMovesUp`), so one with k clients before it that stays ready is served within k + 1 rounds
  (`ServedWithin`).
- The poll loop never writes `revents` of a new entry, so a client can be served in the round that accepts
  it, before `poll` reported it, exactly when that slot still carries a ready flag and the entry is not
  passed over (`ServedUnreportedIff`). The table is an uninitialised local array; if its unused slots start
  without flags they stay so (the `Clean` clauses of `PollLoop.Loop.Round`).
- The workers of the time server are created before `running` is set, so each of them may fail its first
  loop test and leave, even all (`StartupRace`). The server can then ever reply exactly if some worker has
  not made that test when `running` is set (`ServesIff`).
- Each receive timeout of the time server leads to one reply or to one turn that finds nothing to send
  (`RepliesNeedTimeouts`). Requests that keep arriving without a timeout between them are queued or dropped,
  and none is answered (`Starves`). Without arrivals every fair run empties the server (`DrainsFairly`).
- With more than one worker the time server may answer a later request first (`Overtakes`, `InOrderIff`).
- A worker of the time server ignores the result of `msgrcv`. Interrupted by the signal, it stamps and sends
  the message left in its buffer. The turn that began before the signal can send that as one reply more
  than was asked for, with any number of workers (`ExtraReply`). It takes a receive interrupted while the
  server is past its loop test in STATE_SEND: without that it never happens (`NoExtraReply`,
  `OverReplyIff`), and it is never more than one reply in the whole run (`Safety`).
- `print_route` prints an uninitialised `rt_info`. The line is independent of the stack exactly when the
  route carries a destination, a source, a gateway and an interface (`LineIndependentIff`); a default route,
  which has no destination, prints what lay there. The loads of an attribute stay inside it exactly when it
  has at least eight octets (`OwnLoadsIff`).
- Enter looks at the entry whose index is the line on screen, without the region. It judges the selected
  entry exactly while the panel is not scrolled (`EnterTestsSelectedIff`), and a panel can be scrolled
  exactly when its counted files do not fit the window (`ScrollsOffTopIff`).
- `print_files` returns the index of the last entry read, not the number of entries, so the last entry of a
  directory can be neither drawn nor selected, and every other one can (`PrintFiles`, `SelectableIff`).
- The octet-by-octet reader of the device takes octets of 128 and above for errors: it collects the message
  exactly when that is ASCII (`GetNthByte`). A written string leaves the device buffer terminated exactly
  when it has at most 79 octets (`CopyInTerminated`).

## Model

| member | source | states |
|---|---|---|
| `CStrings.StrCmpTotalOrder` | core/netfilter/proxy_server/proxy_server.c:138-145 | strcmp is a strict total order on C strings: zero exactly on equal strings, one of below, equal, above for any two, and below is transitive |
| `CStrings.FirstDifference` | core/netfilter/proxy_server/proxy_server.c:138-145 | behind any common part the first octets that differ decide, as unsigned numbers, and a string comes before its extensions |
| `RbTree.InsertColor` | core/netfilter/proxy_server/proxy_server.c:168 | climbing from a new red node ends in a red-black tree with the in-order sequence unchanged |
| `RbTree.Link` | core/netfilter/proxy_server/proxy_server.c:166-168 | linking at the position found keeps the tree red-black and strictly sorted and adds exactly one key to the dictionary |
| `RbTree.HeightBound` | core/netfilter/proxy_server/proxy_server.c:166-168 | a red-black tree of n nodes is at most 2·log2(n + 1) deep |
| `RbTree.RbRoot.Search` | core/netfilter/proxy_server/proxy_server.c:131-148 | the walk equals dictionary lookup, present or absent, and inspects at most 2·log2(n + 1) nodes |
| `RbTree.RbRoot.Insert` | core/netfilter/proxy_server/proxy_server.c:150-171 | returns 1 and adds the key exactly when it was absent, returns 0 and changes nothing otherwise; order and balance kept |
| `DnsPacket.StrNLen` | core/netfilter/proxy_server/proxy_server.c:50-54 | the length found is that of the first NUL-free run, within the bound |
| `DnsPacket.FillIp` | core/netfilter/proxy_server/proxy_server.c:203-208 | total length set, addresses exchanged, all other octets kept |
| `DnsPacket.FillUdp` | core/netfilter/proxy_server/proxy_server.c:210-215 | ports exchanged, length raised by sixteen, all other octets kept |
| `DnsPacket.FillDns` | core/netfilter/proxy_server/proxy_server.c:217-226 | id kept, qr, rd, ra set, ad cleared, other flag bits kept, counts 1, 1, 0, 0 |
| `DnsPacket.FillAnswer` | core/netfilter/proxy_server/proxy_server.c:239-246 | sixteen octets hold the compressed name, type, class, ttl, length and address of the node; nothing else changes |
| `DnsPacket.CreatePacket` | core/netfilter/proxy_server/proxy_server.c:173-246 | the stores yield the reply to the query: rewritten headers, the answer right behind the unchanged question, every other octet as copied |
| `DnsPacket.ReplyUnique` | core/netfilter/proxy_server/proxy_server.c:194-246 | that description determines the reply octet by octet |
| `DnsPacket.ReplyReadsBack` | core/netfilter/proxy_server/proxy_server.c:48-68 | the inbound reader on any synthesized reply finds the same name, passes the guard and recovers exactly the node |
| `DnsPacket.ReplyPorts` | core/netfilter/proxy_server/proxy_server.c:210-214 | the reply comes from port 53 exactly when the query went there, and goes to port 53 exactly when the query came from there |
| `DnsPacket.ReplyLengths` | core/netfilter/proxy_server/proxy_server.c:194-215 | the IP length is the new length exactly when that fits sixteen bits, and a consistent UDP length stays consistent |
| `DnsPacket.StaleOctetsIff` | core/netfilter/proxy_server/proxy_server.c:184-201 | if the query ends with its question, what is sent is the same for any two uninitialised tails; if anything follows, the last octet sent is the sixteenth of the tail |
| `DnsPacket.RecordRead` | core/netfilter/proxy_server/proxy_server.c:48-68 | behind a question of a name, its NUL, type and class, the reader takes octets 12 to 15 of the record as address and 6 to 9 as ttl, and the guard passes exactly if octets 2 and 3 say type A or octets 10 and 11 say four octets of data |
| `DnsPacket.ReplyOctets` | core/netfilter/proxy_server/proxy_server.c:194-246 | the reply to such a question holds the same question and behind it c0 0c 00 01 00 01, the ttl, 00 04 and the address; nothing follows if nothing followed the question |
| `DnsPacket.IpOctets` | core/netfilter/proxy_server/proxy_server.c:203-208 | octets of the IP header of a reply: addresses exchanged, total length modulo 65536 |
| `DnsPacket.UdpOctets` | core/netfilter/proxy_server/proxy_server.c:210-215 | octets of the UDP header: ports exchanged, sixteen more in the length, checksum kept |
| `DnsPacket.DnsOctets` | core/netfilter/proxy_server/proxy_server.c:217-226 | octets of the DNS header: id kept, qr, rd and ra set, ad cleared, all other flags kept, counts 0 1 0 1 0 0 0 0 |
| `DnsProxy.EarliestAt` | core/netfilter/proxy_server/proxy_server.c:57-68 | an answer found in a history is that of the first acceptable response for the name |
| `DnsProxy.EarliestFound` | core/netfilter/proxy_server/proxy_server.c:57-63 | an answer is found exactly when some acceptable response carried the name |
| `DnsProxy.CacheIsEarliest` | core/netfilter/proxy_server/proxy_server.c:57-72 | after every interleaving the cache holds for each name the earliest acceptable answer and nothing else |
| `DnsProxy.LearnsIff` | core/netfilter/proxy_server/proxy_server.c:40-72 | a packet with a question and a record changes the cache exactly if it comes by UDP from port 53, its name is not cached, and the record is of type A or has four octets of data; then exactly that name is added with the address and ttl of the record |
| `DnsProxy.OthersTeachNothing` | core/netfilter/proxy_server/proxy_server.c:40-46 | outgoing packets, other protocols and other ports leave the cache as it was |
| `DnsProxy.Proxy.HookIn` | core/netfilter/proxy_server/proxy_server.c:26-83 | accepts the packet; afterwards lookup equals the earliest answer of the extended history, for every name |
| `DnsProxy.Proxy.HookOut` | core/netfilter/proxy_server/proxy_server.c:85-129 | a reply is synthesized exactly for a UDP packet to port 53 whose name has an earlier accepted response, from the earliest one; the query is dropped exactly when sending returned 0 |
| `DnsProxy.LearnsNothing` | core/netfilter/proxy_server/proxy_server.c:57-58 | a later response for an answered name never changes the cache |
| `DnsProxy.ReplyReenters` | core/netfilter/proxy_server/proxy_server.c:102-119 | a reply that re-enters the hooks at any later time is accepted and teaches nothing, and is answered again exactly when the client used port 53 |
| `InternetChecksum.SumWords` | ping/main.c:40-50 | the word loop computes the total, which fits a long for every int length |
| `InternetChecksum.OddIsPadded` | ping/main.c:46-50 | an odd last octet counts as if a zero octet followed |
| `InternetChecksum.FinishIff` | ping/main.c:52-54 | two folds and a complement give the one's complement answer exactly for the sums that settle |
| `InternetChecksum.FinishIsRfc1071` | ping/main.c:40-56 | the result is the checksum of RFC 1071 exactly when the total settles, hence for every length up to 131076 |
| `InternetChecksum.BoundIsSharp` | ping/main.c:52-54 | some buffer of 131077 octets gets a wrong checksum |
| `InternetChecksum.Checksum` | ping/main.c:34-57 | the method returns the folded total, and the RFC 1071 checksum exactly when the total settles; lengths below zero select nothing |
| `InternetChecksum.RawChecksum` | raw_socket/utils.c:3-23 | the int accumulator overflows exactly when the total exceeds INT_MAX, never up to 65537 octets; otherwise the result equals that of ping |
| `InternetChecksum.IntBoundIsSharp` | raw_socket/utils.c:10-18 | 65538 octets of 0xFF overflow |
| `InternetChecksum.ChecksumVerifies` | ping/main.c:151-157 | zero the field, sum, store: the finished packet sums to zero, for any content, even field offset and length within the bound |
| `InternetChecksum.StoreChecksum` | ping/main.c:157 | storing in place makes the packet sum to zero and touches only the field |
| `InternetChecksum.FillEcho` | ping/main.c:151-157 | the echo request has its type, code, id and sequence, an unchanged payload, and passes its own check |
| `InternetChecksum.WordOrderIrrelevant` | ping/main.c:40-54 | buffers with the same words in any order have the same checksum |
| `InternetChecksum.ByteOrderIndependent` | ping/main.c:40-54 | swapping the octets of every word swaps those of the checksum, within the fold bound |
| `TimeServer.StepInv` | udp_client_server/main.c:53-138 | every step of server, worker or signal, from before the start and with interrupted calls, keeps conservation, the bound on replies, message kinds, stamping and capacities |
| `TimeServer.HeadIsFirst` | udp_client_server/main.c:54 | with only kind-1 messages queued, the typed receive takes the head |
| `TimeServer.Safety` | udp_client_server/main.c:53-133 | in every reachable state of a running server each received request is in the handler, a queue, a worker, answered or dropped, once; no address gets more replies than requests; in a whole run with a signal at most one address gets more, by one; every reply is a time text |
| `TimeServer.DroppedExactly` | udp_client_server/main.c:128-133 | over every run exactly the requests are dropped whose handler turn finds as many messages in the first queue as it holds; none is dropped exactly if every handler turn finds room |
| `TimeServer.NothingDropped` | udp_client_server/main.c:128-133 | in a run whose handler turns all find room every request is inside, answered, or lost to an interrupt |
| `TimeServer.HandledInOrder` | udp_client_server/main.c:105-133 | the handler gets exactly the datagrams that arrived, each with its address and data, in their order |
| `TimeServer.Queue0Fifo` | udp_client_server/main.c:54-131 | the workers take exactly the requests the handler queued, unchanged, in their order |
| `TimeServer.Queue1Fifo` | udp_client_server/main.c:55-127 | while the server runs it sends exactly what the workers stored, in that order: to the address of the request they held, with the time they read |
| `TimeServer.InOrder` | udp_client_server/main.c:53-133 | with one worker the replies, and everything behind them, are in the order in which the requests were queued |
| `TimeServer.Overtakes` | udp_client_server/main.c:82-84 | with two workers or more a run exists in which the second of two requests is answered first |
| `TimeServer.InOrderIff` | udp_client_server/main.c:53-133 | first come, first served holds for all runs exactly with one worker |
| `TimeServer.WorkerWaitsIff` | udp_client_server/main.c:53-57 | a worker of a running server has to wait exactly for a request when there is none or for room when the second queue is full |
| `TimeServer.RunsIff` | udp_client_server/main.c:102-111 | a started server is running exactly as long as no signal came and no receive failed other than by timeout |
| `TimeServer.ExtraReply` | udp_client_server/main.c:53-57 | with any number of workers a run exists in which one request gets two replies, the second after a signal: the bound of Safety is met |
| `TimeServer.NoExtraReply` | udp_client_server/main.c:53-57 | in every run in which no receive is interrupted while a send turn is in progress, no address gets more replies than requests |
| `TimeServer.OverReplyIff` | udp_client_server/main.c:53-57 | too many replies are possible exactly if such interrupts are |
| `TimeServer.StartupRace` | udp_client_server/main.c:82-96 | a run exists in which every worker leaves before the server starts |
| `TimeServer.ServesIff` | udp_client_server/main.c:53-133 | a server that is starting can ever reply exactly if some worker has not made its first test |
| `TimeServer.RepliesNeedTimeouts` | udp_client_server/main.c:107-127 | in every run the receive timeouts are exactly the replies and the empty send turns, but for a send turn still ahead |
| `TimeServer.Starves` | udp_client_server/main.c:104-133 | for every n there is a run that receives n requests, times out never and answers none |
| `TimeServer.WeightStep` | udp_client_server/main.c:105-132 | without arrivals no step raises the weight and every enqueue, take, put and send lowers it |
| `TimeServer.WeightRun` | udp_client_server/main.c:53-132 | an arrival-free run of any interleaving makes at most as many hand-overs as the weight it starts with |
| `TimeServer.Progress` | udp_client_server/main.c:53-132 | while requests are inside a running server with a live worker, a few steps without arrivals lower the weight |
| `TimeServer.Drains` | udp_client_server/main.c:53-132 | from every reachable running state with a live worker the server can empty itself without arrivals, and then every request is answered or was dropped |
| `TimeServer.BusyRun` | udp_client_server/main.c:53-132 | in every arrival-free run, however it interleaves, the workers take at most twice the weight and one step each, counting the hand-overs of the server |
| `TimeServer.DrainsFairly` | udp_client_server/main.c:53-132 | every arrival-free run that ignores nobody, however it interleaves, has emptied the server after a number of rounds known at its start; then every request is answered or was dropped |
| `TimeServer.Quiescent` | udp_client_server/main.c:53-133 | the weight is zero exactly when every request received or repeated by an interrupted worker is answered, dropped or lost by an interrupted send |
| `TimeServer.Program.constructor` | udp_client_server/main.c:20-23 | the program starts with empty queues, `running` false and the workers at their first test |
| `TimeServer.Program.StartServer` | udp_client_server/main.c:96-98 | setting `running` after the workers were created is the start step, whatever they did before it |
| `TimeServer.Program.ServerTest` | udp_client_server/main.c:102 | the loop test lets a running server begin a turn and keeps the invariant |
| `TimeServer.Program.ServerTurn` | udp_client_server/main.c:104-136 | one turn of the server loop, begun while running, is the turn step of the model and keeps the invariant, also when a signal came in between |
| `TimeServer.Program.SignalHandler` | udp_client_server/main.c:37-47 | the handler itself only clears the flag; the invariant holds through it, and what interrupted calls then do are steps of their own |
| `TimeServer.Program.WorkerTest` | udp_client_server/main.c:53 | the loop test is the test step |
| `TimeServer.Program.WorkerTake` | udp_client_server/main.c:54 | the blocking receive is the take step, or the interrupted one, which leaves the old message in the buffer |
| `TimeServer.Program.WorkerPut` | udp_client_server/main.c:55-57 | stamping and blocking send are the put step, or the interrupted or refused one, which sends nothing |
| `Connections.ClientsMean` | select_poll_epoll/main.c:184-205 | the clients a history leaves open are those accepted and not closed since |
| `SelectLoop.Loop.constructor` | select_poll_epoll/main.c:123-133 | the watched set starts as the two listeners, within `max` |
| `SelectLoop.Loop.SetMax` | select_poll_epoll/main.c:87-90 | afterwards `max` covers the descriptor and everything it covered before, and is no larger than needed |
| `SelectLoop.Loop.Round` | select_poll_epoll/main.c:173-205 | a round keeps the watched set equal to listeners and open clients, all within `max`; serves exactly the ready descriptors, once each, in order, each on the connection it had when the round began, although `accept` may reuse a number closed in the round |
| `PollLoop.ServedExactly` | select_poll_epoll/main.c:209-240 | a client is served exactly when it is ready and its predecessor was not served and removed |
| `PollLoop.PassedOverMovesUp` | select_poll_epoll/main.c:223-240 | a ready client that a round passes over is nearer to the front of the table after it |
| `PollLoop.ServedWithin` | select_poll_epoll/main.c:168-241 | a client with k clients before it that stays ready is served within k + 1 consecutive rounds; the lists of consecutive rounds are tied to each other by the last clause of PollLoop.Loop.Round |
| `PollLoop.PassedOverTwice` | select_poll_epoll/main.c:223-240 | the third of three ready clients can be passed over in two rounds in a row |
| `PollLoop.ServedOnce` | select_poll_epoll/main.c:209-240 | no client is served twice in a round |
| `PollLoop.ServedInOrder` | select_poll_epoll/main.c:209-240 | clients are served in the order of their slots |
| `PollLoop.KeptIsDrop` | select_poll_epoll/main.c:224-234 | the table after a round is the clients without those closed in it, in their order |
| `PollLoop.ServedUnreportedIff` | select_poll_epoll/main.c:215-218 | a client is served in the round that accepts it exactly when its slot kept a ready flag and it is not passed over |
| `PollLoop.Loop.constructor` | select_poll_epoll/main.c:135-143 | slots 0 and 1 are the listeners, the other slots keep what the stack held |
| `PollLoop.Loop.Poll` | select_poll_epoll/main.c:176 | only the ready flags of the slots in use are written |
| `PollLoop.Loop.ShiftDown` | select_poll_epoll/main.c:231-233 | the slots from `i` on take the value of their successors, the rest stays |
| `PollLoop.Loop.RemoveSlot` | select_poll_epoll/main.c:225-234 | exactly one client leaves the table and the others keep their order |
| `PollLoop.Loop.AddSlot` | select_poll_epoll/main.c:212-218 | the new client is appended with whatever ready flag its slot had |
| `PollLoop.Loop.Round` | select_poll_epoll/main.c:208-241 | a round ends although the table changes under it, serves no client twice and, by the flags that poll reported and the one left in the new slot, exactly those that are ready and do not follow a client served and removed, keeps exactly the clients it did not close in their order, never serves an unreported client if the unused slots carry no flag, keeps the listeners, distinct entries and the open clients in the table, and whatever the next poll and accept return, the next round continues with the clients kept |
| `EpollLoop.Loop.constructor` | select_poll_epoll/main.c:145-166 | the interest list starts as the two listeners |
| `EpollLoop.Loop.Round` | select_poll_epoll/main.c:243-267 | a round keeps the interest list equal to listeners and open clients and handles each event on the connection it was reported for |
| `EventLoops.PollWatchesAre` | select_poll_epoll/main.c:138-143 | the poll table watches the listeners and the clients its history left open |
| `EventLoops.SameSockets` | select_poll_epoll/main.c:182-268 | after the same accepts and disconnects the bit set, the table and the interest list denote the same sockets |
| `FileManager.MoveInRange` | text_manager/navigate.c:43-120 | every key keeps a file selected, on screen, without scrolling past the last file, for every listing it opens |
| `FileManager.Run` | text_manager/navigate.c:28-150 | after any key sequence both panels have a selected file on screen |
| `FileManager.LinesUndo` | text_manager/navigate.c:44-75 | j and k undo each other exactly when the first of them was not stopped |
| `FileManager.ScreensUndo` | text_manager/navigate.c:77-96 | a full screen down followed by a screen up restores region and line |
| `FileManager.Scroll` | text_manager/navigate.c:31-96 | j and k move the selection by one, stopping at the ends, and scroll no further than any panel that shows it must; d and u move by a whole screen with the line kept, or to the last page and file, or to the first |
| `FileManager.Clamp` | text_manager/navigate.c:31-96 | the nested clamping of the source computes that move |
| `FileManager.LeastScrolling` | text_manager/navigate.c:49-75 | for j and k no panel in range with the new selection has its screen nearer to where it was |
| `FileManager.KeyEffects` | text_manager/navigate.c:98-147 | Tab only moves the focus; Enter on a directory and the parent key list the new directory from its first entry; all other keys besides scrolling change nothing; only Tab touches the other panel or the focus |
| `FileManager.RunAppend` | text_manager/navigate.c:28-150 | keys are handled one after the other, and those behind a q are not |
| `FileManager.Switch` | text_manager/navigate.c:43-120 | the whole switch on the focused panel: scrolling, Enter with its directory test on the entries last read, and the parent directory |
| `FileManager.Navigator.Press` | text_manager/navigate.c:28-149 | one key changes the focused panel as specified and leaves the other and its screen alone; the listing is drawn again, count and entries are those read, and each screen highlights exactly the selected file |
| `FileManager.Navigator.Navigate` | text_manager/navigate.c:11-151 | for every key sequence up to the first q, both panels end as specified and each screen highlights exactly the selected file |
| `FileManager.Reach` | text_manager/navigate.c:44-75 | every counted file can be selected from any state |
| `FileManager.SelectableIff` | text_manager/print_files.c:25-38 | scrolling can select an entry exactly when it is not the last one read |
| `FileManager.EnterTestsSelectedIff` | text_manager/navigate.c:101 | the directory test of Enter agrees with the selected entry for all entries exactly when the region is 0 |
| `FileManager.ScrollsOffTopIff` | text_manager/navigate.c:44-96 | scrolling can make the region positive exactly when the counted files do not fit the window |
| `FileManager.PrintFiles` | text_manager/print_files.c:19-66 | the entries are read in order, all but the last are counted, and the rows are the visible ones with their names and attributes |
| `FileManager.OneHighlight` | text_manager/print_files.c:41-59 | in such a drawing exactly one row is highlighted and it shows the selected file |
| `Netlink.WalkInside` | core/netlinkdev/netlink_rt/netlink_recv.c:60-61 | for every buffer the walk ends, visited items lie inside the remaining length and do not overlap |
| `Netlink.WalkLaid` | core/netlinkdev/netlink_rt/netlink_recv.c:60-61 | walking an aligned list visits exactly its items in order, wherever it lies, last padding counted or not |
| `Netlink.WalkEncoded` | core/netlinkdev/netlink_rt/netlink_recv.c:97 | the same for the encoding of any list of messages or attributes |
| `Netlink.NestedWalk` | core/netlinkdev/netlink_rt/netlink_recv.c:60-112 | for every list of messages, routes of any table and other kinds mixed, the nested walk visits exactly those messages and, in each route, exactly its attributes, in order |
| `Netlink.ReplyShown` | core/netlinkdev/netlink_rt/netlink_recv.c:60-117 | for every encoded reply everything read lies in the buffer, and each message is handled in order: main-table routes shown with their last destination, source, gateway and interface, other tables left, done and link messages ignored, all others reported |
| `Netlink.AssignAllIsLast` | core/netlinkdev/netlink_rt/netlink_recv.c:97-112 | each route field ends with the last attribute of its kind, and an absent kind leaves it unassigned |
| `Netlink.OwnLoadsIff` | core/netlinkdev/netlink_rt/netlink_recv.c:95-112 | in any buffer the loads of a route stay inside their own attributes exactly when every attribute looked into has at least eight octets; then they stay in the buffer and touch no other attribute |
| `Netlink.OwnLoadsAreLoadable` | core/netlinkdev/netlink_rt/netlink_recv.c:95-112 | for a route laid out from its attributes that holds exactly when each of those carries four octets of data |
| `Netlink.WalkAttributes` | core/netlinkdev/netlink_rt/netlink_recv.c:95-112 | the attribute loop assigns the fields along the walk |
| `Netlink.PrintRoute` | core/netlinkdev/netlink_rt/netlink_recv.c:81-112 | routes of other tables are left; for the main table the fields are the last attributes |
| `Netlink.ReplyMsg` | core/netlinkdev/netlink_rt/netlink_recv.c:60-76 | each message of the walk is handled once, in order, by its type |
| `RouteLine.LineTells` | core/netlinkdev/netlink_rt/netlink_recv.c:114-117 | complete routes print the same line only if destination, gateway, source and interface name are the same |
| `RouteLine.LineColumns` | core/netlinkdev/netlink_rt/netlink_recv.c:114-117 | the line has four columns between tabs: destination, gateway, interface name and source; an address column is its own stand-in exactly for zero and otherwise parses to the address |
| `RouteLine.RoutePrinted` | core/netlinkdev/netlink_rt/netlink_recv.c:81-117 | from the octets of a main-table route to its line: the columns show the last attributes of kinds 1, 5, 4 and 7 |
| `RouteLine.LineIndependentIff` | core/netlinkdev/netlink_rt/netlink_recv.c:84-117 | the printed line does not depend on the uninitialised structure exactly when all four attributes are present |
| `Ipv4Text.RoundTrip` | core/netlinkdev/netlink_rt/netlink_recv.c:26-34 | parsing the printed dotted quad gives back every 32-bit address |
| `Ipv4Text.NtoaFits` | core/netlinkdev/netlink_rt/netlink_recv.c:27 | the text has 7 to 15 characters, so it fits the buffer |
| `Ipv4Text.NtoaNumbers` | core/netlinkdev/netlink_rt/netlink_recv.c:26-34 | the four octets in memory order, in decimal without leading zeros, between dots |
| `Ipv4Text.ParseNumbers` | core/netfilter/ping/kernel_ping.c:78-84 | any four decimal numbers between dots parse to their values modulo 256 |
| `Ipv4Text.ParsedIsNumbers` | core/netfilter/ping/kernel_ping.c:78-84 | a text that parses is four decimal numbers between dots, and whatever follows |
| `Ipv4Text.InetAddr` | core/netfilter/ping/kernel_ping.c:78-84 | the parser inverts the printer; each number keeps its low eight bits |
| `CharDevice.CopyInTerminated` | core/ioctldev/ioctl_dev.c:56 | a copied string leaves the buffer terminated exactly when it has at most 79 octets, and then the buffer holds it; every octet of the buffer is said |
| `CharDevice.Device.Open` | core/ioctldev/ioctl_dev.c:15-24 | a second open is refused and changes nothing; a first one rewinds the cursor |
| `CharDevice.Device.Release` | core/ioctldev/ioctl_dev.c:26-31 | only the open count changes |
| `CharDevice.Device.Read` | core/ioctldev/ioctl_dev.c:33-48 | returns the next part of the unread text, as long as asked for or all of it, and leaves the rest unread |
| `CharDevice.Device.ReadMany` | core/ioctldev/ioctl_dev.c:33-48 | reads of any lengths concatenate to a prefix that is the whole message as soon as enough was asked for |
| `CharDevice.Device.Write` | core/ioctldev/ioctl_dev.c:50-60 | the written string becomes the unread text exactly when it fits with its NUL |
| `CharDevice.Device.SetMsg` | core/ioctldev/ioctl_dev.c:69-72 | the double copy has the effect of one write |
| `CharDevice.Device.GetMsg` | core/ioctldev/ioctl_dev.c:74-78 | returns everything unread with a NUL and leaves nothing unread |
| `CharDevice.Device.GetNthByte` | core/ioctldev/main.c:36-53 | collects the message exactly when it is ASCII, otherwise stops in front of the first octet of 128 or more |

## Left out

- Update in place inside the tree: nodes are values and the kernel's pointer writes are path rewrites, so aliasing of nodes is not modelled.
- DnsProxy.Proxy.HookIn: does not model a name of 255 octets or more without a NUL, for which `strncpy` leaves the name unterminated and `strlen` reads behind the allocation; section 2.3.4 of RFC 1035 excludes such names.
- DnsProxy.Proxy.HookOut: does not model such names either, nor routing, `ip_local_out` beyond its return value, the IP header checksum, or the UDP checksum, which `create_packet` leaves as it was.
- PollLoop.Loop.Round: a removal while all slots are in use, for which the shift loop reads behind the table, is not modelled, nor an accept that finds no free slot.
- SelectLoop.Loop.Round: the set of descriptors is unbounded; FD_SETSIZE is not modelled.
- FileManager.Navigator.Press: a listing changes only when its panel opens a directory; files that appear or vanish between two keys, an unreadable directory, more than 256 entries and path names are not modelled. The listing opened is a parameter.
- FileManager.PrintFiles: `d` holds copies of the entries; the source keeps pointers from `readdir` and uses them after `closedir`, which is not modelled.
- InternetChecksum.RawChecksum: what a compiler makes of signed overflow is not modelled; overflow is only detected.
- Ipv4Text.InetAddr: leading blanks and signs, which `%d` also accepts, are not modelled.
- TimeServer.Program.ServerTurn: receive errors of the second queue other than "no message" are not modelled, nor queues that hold messages of an earlier process when the server starts.
- Netlink.WalkAttributes: keeps the interface index; its name is looked up in `RouteLine.Line`, where an index without a name is not modelled.
- Cache expiry: the ttl is stored and replayed but never counted down by the source.
- Sockets, options, signals, option parsing, `die` and `RETRY` everywhere: system-call plumbing.
- broadcast_multicast, chat_tcp, sctp, udp_tcp_client_server, pipe, daemon, sniffer, the header filling of raw_socket, the receive loops of ping and traceroute, core/shadow, core/procdev, core/netfilter/port_block, core/netlinkdev/netlink_kernel: straight-line library use, unfinished, or only easy counters.
- Copying files, the popup and all drawing besides the rows of a panel in text_manager.
