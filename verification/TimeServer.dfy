/**
 The threaded UDP time server: one server loop and any number of workers joined by two System V
 message queues, as interleaved atomic steps.
 */
module TimeServer {
  type Addr = int

  /** What is in `buf`: a client's datagram, or the formatted time. */
  datatype Body = Datagram(data: int) | TimeText(tm: int)

  datatype Message = Message(kind: int, addr: Addr, body: Body)

  datatype Phase = Recv | Send | ResponseHandler

  /** A worker is at its loop test, blocked in `msgrcv`, holding a request, or has left the loop. Its
      local `req` keeps the message it handled last, and is uninitialised at first. */
  datatype Worker = AtTest(last: Message) | InReceive(last: Message) | Holding(req: Message) | Exited

  /** Capacities of the queues in messages; all messages have the same size. */
  datatype Config = Config(cap0: nat, cap1: nat)

  /** The program's variables; whether `server` has set `running` and whether it is past its loop test;
      and a record of requests that were received, answered, or dropped at the full first queue, of old
      messages that interrupted workers handled again, and of messages that failed sends lost. */
  datatype State = State(
    phase: Phase, started: bool, running: bool, inTurn: bool, req: Message, q0: seq<Message>, q1: seq<Message>, workers: seq<Worker>,
    received: multiset<Addr>, replies: seq<Message>, dropped: multiset<Addr>,
    spurious: multiset<Addr>, lost: multiset<Addr>)

  /** What `recvfrom` returns: a datagram, a timeout, or another error. */
  datatype Input = Arrival(addr: Addr, data: int) | WouldBlock | Failed

  datatype Event =
    | Start
    | Enter
    | Turn(input: Input)
    | Signal
    | Test(i: nat)
    | Take(i: nat)
    | Put(i: nat, tm: int)
    | TakeInterrupted(i: nat)
    | PutInterrupted(i: nat, tm: int)

  // ----- message queues -----

  /** Index of the first message of kind 1, which is what `msgrcv(.., 1L, ..)` asks for. */
  function First(q: seq<Message>): (i: nat)
    ensures i <= |q| && (i < |q| ==> q[i].kind == 1)
  {
    if q == [] || q[0].kind == 1 then 0 else 1 + First(q[1..])
  }

  function Without(q: seq<Message>, i: nat): (r: seq<Message>)
    requires i < |q|
  {
    q[..i] + q[i + 1..]
  }

  // ----- steps -----

  /** A signal ends the loops, and interrupts a `msgrcv` or `msgsnd` that is blocked. */
  predicate Enabled(c: Config, s: State, e: Event) {
    match e
    case Start => !s.started
    case Enter => s.running && !s.inTurn
    case Turn(_) => s.inTurn
    case Signal => true
    case Test(i) => i < |s.workers| && s.workers[i].AtTest?
    case Take(i) => i < |s.workers| && s.workers[i].InReceive? && First(s.q0) < |s.q0|
    case Put(i, _) => i < |s.workers| && s.workers[i].Holding? && (s.workers[i].req.kind < 1 || |s.q1| < c.cap1)
    case TakeInterrupted(i) => !s.running && i < |s.workers| && s.workers[i].InReceive?
    case PutInterrupted(i, _) => !s.running && i < |s.workers| && s.workers[i].Holding? && |s.q1| >= c.cap1
  }

  function RecvStep(s: State, input: Input): (r: State) {
    match input
    case Arrival(a, d) =>
      s.(req := s.req.(addr := a, body := Datagram(d)), phase := ResponseHandler, received := s.received + multiset{a})
    case WouldBlock => s.(phase := Send)
    case Failed => s.(running := false)
  }

  function SendStep(s: State): (r: State) {
    var i := First(s.q1);
    if i == |s.q1| then s.(phase := Recv)
    else s.(req := s.q1[i], q1 := Without(s.q1, i), replies := s.replies + [s.q1[i]], phase := Recv)
  }

  /** The enqueue does not wait: a full queue loses the request. */
  function HandlerStep(c: Config, s: State): (r: State) {
    var m := s.req.(kind := 1);
    if |s.q0| < c.cap0 then s.(req := m, q0 := s.q0 + [m], phase := Recv)
    else s.(req := m, dropped := s.dropped + multiset{m.addr}, phase := Recv)
  }

  function TestStep(s: State, i: nat): (r: State)
    requires i < |s.workers| && s.workers[i].AtTest?
  {
    s.(workers := s.workers[i := if s.running then InReceive(s.workers[i].last) else Exited])
  }

  function TakeStep(s: State, i: nat): (r: State)
    requires i < |s.workers| && First(s.q0) < |s.q0|
  {
    var k := First(s.q0);
    s.(workers := s.workers[i := Holding(s.q0[k])], q0 := Without(s.q0, k))
  }

  function Stamped(m: Message, tm: int): (r: Message) {
    m.(body := TimeText(tm))
  }

  /** `msgsnd` refuses a message whose kind is not positive. */
  function PutStep(s: State, i: nat, tm: int): (r: State)
    requires i < |s.workers| && s.workers[i].Holding?
  {
    var m := Stamped(s.workers[i].req, tm);
    if m.kind < 1 then s.(workers := s.workers[i := AtTest(m)], lost := s.lost + multiset{m.addr})
    else s.(workers := s.workers[i := AtTest(m)], q1 := s.q1 + [m])
  }

  /** The worker ignores that `msgrcv` failed and goes on with the message it has. */
  function TakeInterruptedStep(s: State, i: nat): (r: State)
    requires i < |s.workers| && s.workers[i].InReceive?
  {
    var m := s.workers[i].last;
    s.(workers := s.workers[i := Holding(m)], spurious := s.spurious + multiset{m.addr})
  }

  /** The worker ignores that `msgsnd` failed. */
  function PutInterruptedStep(s: State, i: nat, tm: int): (r: State)
    requires i < |s.workers| && s.workers[i].Holding?
  {
    var m := Stamped(s.workers[i].req, tm);
    s.(workers := s.workers[i := AtTest(m)], lost := s.lost + multiset{m.addr})
  }

  /** The switch in the server loop. */
  function TurnStep(c: Config, s: State, input: Input): (r: State) {
    match s.phase
    case Recv => RecvStep(s, input)
    case Send => SendStep(s)
    case ResponseHandler => HandlerStep(c, s)
  }

  function Next(c: Config, s: State, e: Event): (r: State)
    requires Enabled(c, s, e)
  {
    match e
    case Start => s.(started := true, running := true)
    case Enter => s.(inTurn := true)
    case Turn(input) => TurnStep(c, s, input).(inTurn := false)
    case Signal => s.(running := false)
    case Test(i) => TestStep(s, i)
    case Take(i) => TakeStep(s, i)
    case Put(i, tm) => PutStep(s, i, tm)
    case TakeInterrupted(i) => TakeInterruptedStep(s, i)
    case PutInterrupted(i, tm) => PutInterruptedStep(s, i, tm)
  }

  /** `running` is still false: the queues are empty, and each worker is at its first test or has
      failed it. */
  predicate Unstarted(s: State) {
    && !s.started && !s.running && !s.inTurn && s.phase == Recv && s.q0 == [] && s.q1 == []
    && (forall i :: 0 <= i < |s.workers| ==> s.workers[i].AtTest? || s.workers[i].Exited?)
    && s.received == multiset{} && s.replies == [] && s.dropped == multiset{}
    && s.spurious == multiset{} && s.lost == multiset{}
  }

  /** The workers are created before `running` is set. */
  predicate Init(s: State) {
    Unstarted(s) && forall i :: 0 <= i < |s.workers| ==> s.workers[i].AtTest?
  }

  /** The steps can be taken one after the other from `s`, and lead to `t`. */
  predicate Run(c: Config, s: State, es: seq<Event>, t: State)
    decreases |es|
  {
    if es == [] then s == t else Enabled(c, s, es[0]) && Run(c, Next(c, s, es[0]), es[1..], t)
  }

  // ----- where requests are -----

  function Count(q: seq<Message>, a: Addr): (n: nat) {
    if q == [] then 0 else (if q[0].addr == a then 1 else 0) + Count(q[1..], a)
  }

  function HeldBy(w: Worker, a: Addr): (n: nat) {
    if w.Holding? && w.req.addr == a then 1 else 0
  }

  function Held(ws: seq<Worker>, a: Addr): (n: nat) {
    if ws == [] then 0 else HeldBy(ws[0], a) + Held(ws[1..], a)
  }

  /** Requests of one address that are inside the server: waiting for the handler, in queue 0, with a
      worker, or in queue 1. */
  function Inside(s: State, a: Addr): (n: nat) {
    (if s.phase == ResponseHandler && s.req.addr == a then 1 else 0)
    + Count(s.q0, a) + Held(s.workers, a) + Count(s.q1, a)
  }

  /** Every request of the address, received or handled again by mistake, is inside, answered, dropped
      or lost. */
  predicate Balanced(s: State, a: Addr) {
    s.received[a] + s.spurious[a] == Inside(s, a) + Count(s.replies, a) + s.dropped[a] + s.lost[a]
  }

  /** Replies never outnumber requests, but for one that the turn in progress at a signal may send. */
  predicate Bounded(s: State, a: Addr) {
    Count(s.replies, a) <= s.received[a] + if s.running || s.inTurn then 0 else 1
  }

  predicate Over(s: State, a: Addr) {
    Count(s.replies, a) > s.received[a]
  }

  /** That one reply goes to one address. */
  ghost predicate OneOver(s: State) {
    forall a, b :: Over(s, a) && Over(s, b) ==> a == b
  }

  ghost predicate Conserved(s: State) {
    (forall a :: Balanced(s, a) && Bounded(s, a)) && OneOver(s)
  }

  predicate AllKind1(q: seq<Message>) {
    forall i :: 0 <= i < |q| ==> q[i].kind == 1
  }

  predicate AllStamped(q: seq<Message>) {
    forall i :: 0 <= i < |q| ==> q[i].body.TimeText?
  }

  predicate WorkersOk(ws: seq<Worker>) {
    forall i :: 0 <= i < |ws| ==> ws[i].Holding? ==> ws[i].req.kind == 1
  }

  /** What passed a worker carries the time. While the server runs, both queues hold messages of kind 1
      only, so `msgrcv` finds the head of the queue, and nothing is handled twice or lost. */
  predicate WellFormed(c: Config, s: State) {
    && AllKind1(s.q0) && AllStamped(s.q1) && AllStamped(s.replies)
    && |s.q0| <= c.cap0 && |s.q1| <= c.cap1 && (!s.started ==> Unstarted(s))
    && (s.running ==> s.spurious == multiset{} && s.lost == multiset{} && AllKind1(s.q1) && WorkersOk(s.workers))
  }

  ghost predicate Inv(c: Config, s: State) {
    Conserved(s) && WellFormed(c, s)
  }

  lemma {:induction false} CountSplit(p: seq<Message>, q: seq<Message>, a: Addr)
    ensures Count(p + q, a) == Count(p, a) + Count(q, a)
  {
    if p == [] {
      assert p + q == q;
    } else {
      CountSplit(p[1..], q, a);
      assert (p + q)[1..] == p[1..] + q;
    }
  }

  lemma {:induction false} CountWithout(q: seq<Message>, i: nat, a: Addr)
    requires i < |q|
    ensures Count(q, a) == Count(Without(q, i), a) + if q[i].addr == a then 1 else 0
  {
    CountSplit(q[..i], q[i + 1..], a);
    CountSplit(q[..i], q[i..], a);
    assert q == q[..i] + q[i..];
    assert q[i..][1..] == q[i + 1..];
  }

  lemma {:induction false} CountAppend(q: seq<Message>, m: Message, a: Addr)
    ensures Count(q + [m], a) == Count(q, a) + if m.addr == a then 1 else 0
  {
    CountSplit(q, [m], a);
  }

  lemma {:induction false} HeldUpdate(ws: seq<Worker>, i: nat, w: Worker, a: Addr)
    requires i < |ws|
    ensures Held(ws[i := w], a) + HeldBy(ws[i], a) == Held(ws, a) + HeldBy(w, a)
  {
    if i == 0 {
      assert ws[0 := w][1..] == ws[1..];
    } else {
      HeldUpdate(ws[1..], i - 1, w, a);
      assert ws[i := w][1..] == ws[1..][i - 1 := w];
    }
  }

  lemma {:induction false} NoneBefore(q: seq<Message>, j: nat)
    requires j < First(q)
    ensures q[j].kind != 1
  {
    if j > 0 { NoneBefore(q[1..], j - 1); }
  }

  lemma {:induction false} HeadIsFirst(q: seq<Message>)
    requires AllKind1(q)
    ensures First(q) == 0
    ensures q != [] ==> Without(q, 0) == q[1..]
  {
  }

  // ----- safety -----

  lemma {:induction false} SendConserves(s: State, a: Addr)
    requires Balanced(s, a) && s.phase == Send
    ensures Balanced(SendStep(s), a)
  {
    var i := First(s.q1);
    if i < |s.q1| {
      CountWithout(s.q1, i, a);
      CountAppend(s.replies, s.q1[i], a);
    }
  }

  lemma {:induction false} HandlerConserves(c: Config, s: State, a: Addr)
    requires Balanced(s, a) && s.phase == ResponseHandler
    ensures Balanced(HandlerStep(c, s), a)
  {
    var m, t := s.req.(kind := 1), HandlerStep(c, s);
    CountAppend(s.q0, m, a);
    assert Count(t.q0, a) + t.dropped[a] == Count(s.q0, a) + s.dropped[a] + if m.addr == a then 1 else 0;
  }

  lemma {:induction false} TestConserves(s: State, i: nat, a: Addr)
    requires i < |s.workers| && s.workers[i].AtTest? && Balanced(s, a)
    ensures Balanced(TestStep(s, i), a)
  {
    HeldUpdate(s.workers, i, if s.running then InReceive(s.workers[i].last) else Exited, a);
  }

  lemma {:induction false} TakeConserves(s: State, i: nat, a: Addr)
    requires i < |s.workers| && s.workers[i].InReceive? && First(s.q0) < |s.q0| && Balanced(s, a)
    ensures Balanced(TakeStep(s, i), a)
  {
    CountWithout(s.q0, First(s.q0), a);
    HeldUpdate(s.workers, i, Holding(s.q0[First(s.q0)]), a);
  }

  lemma {:induction false} PutInterruptedConserves(s: State, i: nat, tm: int, a: Addr)
    requires i < |s.workers| && s.workers[i].Holding? && Balanced(s, a)
    ensures Balanced(PutInterruptedStep(s, i, tm), a)
  {
    HeldUpdate(s.workers, i, AtTest(Stamped(s.workers[i].req, tm)), a);
  }

  lemma {:induction false} PutConserves(s: State, i: nat, tm: int, a: Addr)
    requires i < |s.workers| && s.workers[i].Holding? && Balanced(s, a)
    ensures Balanced(PutStep(s, i, tm), a)
  {
    var m, t := Stamped(s.workers[i].req, tm), PutStep(s, i, tm);
    if m.kind < 1 {
      PutInterruptedConserves(s, i, tm, a);
    } else {
      CountAppend(s.q1, m, a);
      HeldUpdate(s.workers, i, AtTest(m), a);
      assert Count(t.q1, a) + Held(t.workers, a) == Count(s.q1, a) + Held(s.workers, a);
    }
  }

  lemma {:induction false} TakeInterruptedConserves(s: State, i: nat, a: Addr)
    requires i < |s.workers| && s.workers[i].InReceive? && Balanced(s, a)
    ensures Balanced(TakeInterruptedStep(s, i), a)
  {
    HeldUpdate(s.workers, i, Holding(s.workers[i].last), a);
  }

  lemma {:induction false} TurnConserves(c: Config, s: State, input: Input, a: Addr)
    requires Balanced(s, a)
    ensures Balanced(TurnStep(c, s, input), a)
  {
    match s.phase
    case Recv =>
    case Send => SendConserves(s, a);
    case ResponseHandler => HandlerConserves(c, s, a);
  }

  lemma {:induction false} StepConserves(c: Config, s: State, e: Event, a: Addr)
    requires Enabled(c, s, e) && Balanced(s, a)
    ensures Balanced(Next(c, s, e), a)
  {
    match e
    case Start =>
    case Enter =>
    case Turn(input) => TurnConserves(c, s, input, a);
    case Signal =>
    case Test(i) => TestConserves(s, i, a);
    case Take(i) => TakeConserves(s, i, a);
    case Put(i, tm) => PutConserves(s, i, tm, a);
    case TakeInterrupted(i) => TakeInterruptedConserves(s, i, a);
    case PutInterrupted(i, tm) => PutInterruptedConserves(s, i, tm, a);
  }

  /** A turn that finds a message to send. */
  predicate Sends(s: State, e: Event) {
    e.Turn? && s.phase == Send && First(s.q1) < |s.q1|
  }

  /** Such a turn adds one reply; the other steps add none. */
  lemma {:induction false} StepReplies(c: Config, s: State, e: Event)
    requires Enabled(c, s, e)
    ensures var t := Next(c, s, e);
            && t.replies == s.replies + (if Sends(s, e) then [s.q1[First(s.q1)]] else [])
            && s.received <= t.received
            && (t.running || t.inTurn ==> s.running || s.inTurn || e == Start)
            && (Sends(s, e) ==> s.inTurn && !t.inTurn)
  {
  }

  lemma {:induction false} StepBounded(c: Config, s: State, e: Event, a: Addr)
    requires Enabled(c, s, e) && WellFormed(c, s) && WellFormed(c, Next(c, s, e))
    requires Balanced(Next(c, s, e), a) && Bounded(s, a)
    ensures Bounded(Next(c, s, e), a)
  {
    StepReplies(c, s, e);
    if Sends(s, e) {
      CountAppend(s.replies, s.q1[First(s.q1)], a);
    } else {
      assert Next(c, s, e).replies == s.replies;
    }
  }

  lemma {:induction false} StepOneOver(c: Config, s: State, e: Event)
    requires Enabled(c, s, e) && OneOver(s) && forall a :: Bounded(s, a)
    ensures OneOver(Next(c, s, e))
  {
    var t := Next(c, s, e);
    StepReplies(c, s, e);
    if Sends(s, e) {
      var m := s.q1[First(s.q1)];
      forall a | Over(t, a)
        ensures a == m.addr
      {
        assert Bounded(s, a);
        CountAppend(s.replies, m, a);
      }
    } else {
      assert t.replies == s.replies;
      forall a | Over(t, a)
        ensures Over(s, a)
      {
      }
    }
  }

  lemma {:induction false} SendWellFormed(c: Config, s: State)
    requires WellFormed(c, s) && s.started
    ensures WellFormed(c, SendStep(s))
  {
  }

  lemma {:induction false} HandlerWellFormed(c: Config, s: State)
    requires WellFormed(c, s) && s.started
    ensures WellFormed(c, HandlerStep(c, s))
  {
  }

  lemma {:induction false} TurnWellFormed(c: Config, s: State, input: Input)
    requires WellFormed(c, s) && s.started
    ensures WellFormed(c, TurnStep(c, s, input))
  {
    match s.phase
    case Recv =>
    case Send => SendWellFormed(c, s);
    case ResponseHandler => HandlerWellFormed(c, s);
  }

  lemma {:induction false} StepWellFormed(c: Config, s: State, e: Event)
    requires Enabled(c, s, e) && WellFormed(c, s)
    ensures WellFormed(c, Next(c, s, e))
  {
    match e
    case Start =>
    case Enter =>
    case Turn(input) => TurnWellFormed(c, s, input);
    case Signal =>
    case Test(i) =>
    case Take(i) =>
      HeadIsFirst(s.q0);
      assert s.q0[0].kind == 1;
    case Put(i, tm) =>
      assert s.running ==> s.workers[i].req.kind == 1;
    case TakeInterrupted(i) =>
    case PutInterrupted(i, tm) =>
  }

  lemma {:induction false} StepInv(c: Config, s: State, e: Event)
    requires Enabled(c, s, e) && Inv(c, s)
    ensures Inv(c, Next(c, s, e))
  {
    StepWellFormed(c, s, e);
    forall a
      ensures Balanced(Next(c, s, e), a) && Bounded(Next(c, s, e), a)
    {
      assert Balanced(s, a) && Bounded(s, a);
      StepConserves(c, s, e, a);
      StepBounded(c, s, e, a);
    }
    StepOneOver(c, s, e);
  }

  lemma {:induction false} TurnInv(c: Config, s: State, input: Input, t: State)
    requires s.inTurn && Inv(c, s) && t == TurnStep(c, s, input).(inTurn := false)
    ensures Inv(c, t) && t == Next(c, s, Turn(input))
  {
    StepInv(c, s, Turn(input));
  }

  lemma {:induction false} RunInv(c: Config, s: State, es: seq<Event>, t: State)
    requires Inv(c, s) && Run(c, s, es, t)
    ensures Inv(c, t)
    decreases |es|
  {
    if es != [] {
      StepInv(c, s, es[0]);
      RunInv(c, Next(c, s, es[0]), es[1..], t);
    }
  }

  lemma {:induction false} HeldNone(ws: seq<Worker>, a: Addr)
    requires forall i :: 0 <= i < |ws| ==> !ws[i].Holding?
    ensures Held(ws, a) == 0
  {
    if ws != [] { HeldNone(ws[1..], a); }
  }

  lemma {:induction false} InitInv(c: Config, s: State)
    requires Init(s)
    ensures Inv(c, s)
  {
    forall a
      ensures Balanced(s, a) && Bounded(s, a)
    {
      HeldNone(s.workers, a);
    }
  }

  /** In every reachable state, with any number of workers: each request is in exactly one place; while
      the server runs none is handled twice or lost, so no address has more replies than requests; after
      a signal one address may have one more; and every reply is a time text. */
  lemma {:induction false} Safety(c: Config, s: State, es: seq<Event>, t: State)
    requires Init(s) && Run(c, s, es, t)
    ensures forall a :: t.received[a] + t.spurious[a] == Inside(t, a) + Count(t.replies, a) + t.dropped[a] + t.lost[a]
    ensures t.running ==> forall a :: t.received[a] == Inside(t, a) + Count(t.replies, a) + t.dropped[a]
    ensures t.running || t.inTurn ==> forall a :: Count(t.replies, a) <= t.received[a]
    ensures forall a :: Count(t.replies, a) <= t.received[a] + 1
    ensures forall a, b :: Count(t.replies, a) > t.received[a] && Count(t.replies, b) > t.received[b] ==> a == b
    ensures AllStamped(t.replies)
  {
    InitInv(c, s);
    RunInv(c, s, es, t);
    forall a
      ensures t.received[a] + t.spurious[a] == Inside(t, a) + Count(t.replies, a) + t.dropped[a] + t.lost[a]
      ensures Count(t.replies, a) <= t.received[a] + if t.running || t.inTurn then 0 else 1
    {
      assert Balanced(t, a) && Bounded(t, a);
    }
    forall a, b | Count(t.replies, a) > t.received[a] && Count(t.replies, b) > t.received[b]
      ensures a == b
    {
      assert Over(t, a) && Over(t, b);
    }
  }

  // ----- the one extra reply -----

  /** A receive is interrupted while the server is past its loop test and in STATE_SEND. */
  predicate LateTake(s: State, e: Event) {
    e.TakeInterrupted? && s.inTurn && s.phase == Send
  }

  predicate Undisturbed(c: Config, s: State, es: seq<Event>)
    decreases |es|
  {
    es == [] || !Enabled(c, s, es[0]) ||
    (!LateTake(s, es[0]) && Undisturbed(c, Next(c, s, es[0]), es[1..]))
  }

  /** No address is over, and a turn that may still send finds no message handled twice. */
  ghost predicate Calm(c: Config, s: State) {
    Inv(c, s) && (forall a :: !Over(s, a)) && (s.inTurn && s.phase == Send ==> s.spurious == multiset{})
  }

  lemma {:induction false} StepCalm(c: Config, s: State, e: Event)
    requires Calm(c, s) && Enabled(c, s, e) && !LateTake(s, e)
    ensures Calm(c, Next(c, s, e))
  {
    var t := Next(c, s, e);
    StepInv(c, s, e);
    forall a
      ensures !Over(t, a)
    {
      assert Balanced(t, a) && !Over(s, a);
    }
  }

  /** Unless a receive is interrupted there, no address ever gets more replies than requests. */
  lemma {:induction false} NoExtraReply(c: Config, s: State, es: seq<Event>, t: State)
    requires Init(s) && Run(c, s, es, t) && Undisturbed(c, s, es)
    ensures forall a :: Count(t.replies, a) <= t.received[a]
  {
    InitInv(c, s);
    CalmRun(c, s, es, t);
    forall a
      ensures Count(t.replies, a) <= t.received[a]
    {
      assert !Over(t, a);
    }
  }

  lemma {:induction false} CalmRun(c: Config, s: State, es: seq<Event>, t: State)
    requires Calm(c, s) && Run(c, s, es, t) && Undisturbed(c, s, es)
    ensures Calm(c, t)
    decreases |es|
  {
    if es != [] {
      StepCalm(c, s, es[0]);
      CalmRun(c, Next(c, s, es[0]), es[1..], t);
    }
  }

  lemma {:induction false} Then(c: Config, s: State, es: seq<Event>, t: State, e: Event)
    returns (es': seq<Event>, t': State)
    requires Run(c, s, es, t) && Enabled(c, t, e)
    ensures es' == es + [e] && t' == Next(c, t, e) && Run(c, s, es', t')
    ensures Enqueued(c, s, es') == Enqueued(c, s, es) + Enqueues(c, t, e)
  {
    es', t' := es + [e], Next(c, t, e);
    assert [e][1..] == [];
    RunConcat(c, s, es, t, [e], t');
    EnqueuedCons(c, t, e, []);
    assert [e] + [] == [e];
  }

  /** The server starts, and a worker makes its first test after that. */
  lemma {:induction false} Awake(c: Config, s: State, i: nat) returns (es: seq<Event>, t: State)
    requires Unstarted(s) && i < |s.workers| && s.workers[i].AtTest?
    ensures Run(c, Next(c, s, Start), es, t) && Run(c, s, [Start] + es, t)
    ensures t == s.(started := true, running := true, workers := s.workers[i := InReceive(s.workers[i].last)])
  {
    var u := Next(c, s, Start);
    es, t := Then(c, u, [], u, Test(i));
    assert ([Start] + es)[1..] == es;
  }

  /** A request is received and queued. */
  lemma {:induction false} Queued(c: Config, s: State, a: Addr, d: int) returns (es: seq<Event>, t: State)
    requires s.running && !s.inTurn && s.phase == Recv && s.q0 == [] && c.cap0 > 0
    ensures var m := Message(1, a, Datagram(d));
            Run(c, s, es, t) && t == s.(req := m, q0 := [m], received := s.received + multiset{a})
    ensures Enqueued(c, s, es) == [Message(1, a, Datagram(d))]
  {
    es, t := Then(c, s, [], s, Enter);
    es, t := Then(c, s, es, t, Turn(Arrival(a, d)));
    es, t := Then(c, s, es, t, Enter);
    es, t := Then(c, s, es, t, Turn(WouldBlock));
  }

  /** A worker answers the only request, and waits for the next. */
  lemma {:induction false} Worked(c: Config, s: State, i: nat, m: Message, tm: int) returns (es: seq<Event>, t: State)
    requires s.running && s.q0 == [m] && m.kind == 1 && s.q1 == [] && c.cap1 > 0
    requires i < |s.workers| && s.workers[i].InReceive?
    ensures var r := Stamped(m, tm);
            Run(c, s, es, t) && t == s.(q0 := [], q1 := [r], workers := s.workers[i := InReceive(r)])
  {
    es, t := Then(c, s, [], s, Take(i));
    es, t := Then(c, s, es, t, Put(i, tm));
    es, t := Then(c, s, es, t, Test(i));
    assert t.workers == s.workers[i := InReceive(Stamped(m, tm))];
  }

  /** A timeout, and the next turn begins. */
  lemma {:induction false} TurnToSend(c: Config, s: State) returns (es: seq<Event>, t: State)
    requires s.running && !s.inTurn && s.phase == Recv
    ensures Run(c, s, es, t) && t == s.(phase := Send, inTurn := true) && Enqueued(c, s, es) == []
  {
    es, t := Then(c, s, [], s, Enter);
    es, t := Then(c, s, es, t, Turn(WouldBlock));
    es, t := Then(c, s, es, t, Enter);
  }

  /** A timeout and a send. */
  lemma {:induction false} Sent(c: Config, s: State, m: Message) returns (es: seq<Event>, t: State)
    requires s.running && !s.inTurn && s.phase == Recv && s.q1 == [m] && m.kind == 1
    ensures Run(c, s, es, t) && t == s.(req := m, q1 := [], replies := s.replies + [m])
    ensures Enqueued(c, s, es) == []
  {
    es, t := TurnToSend(c, s);
    es, t := Then(c, s, es, t, Turn(WouldBlock));
  }

  /** The server is past its test in STATE_SEND when a signal interrupts the waiting worker. */
  lemma {:induction false} SentAgain(c: Config, s: State, i: nat, m: Message, tm: int) returns (es: seq<Event>, t: State)
    requires s.running && !s.inTurn && s.phase == Recv && s.q1 == [] && m.kind == 1 && c.cap1 > 0
    requires i < |s.workers| && s.workers[i] == InReceive(m)
    ensures Run(c, s, es, t) && t.received == s.received && t.replies == s.replies + [Stamped(m, tm)]
  {
    var e1, t1 := TurnToSend(c, s);
    var e2, t2 := StoredAgain(c, t1, i, m, tm);
    RunConcat(c, s, e1, t1, e2, t2);
    es, t := Then(c, s, e1 + e2, t2, Turn(WouldBlock));
  }

  lemma {:induction false} StoredAgain(c: Config, s: State, i: nat, m: Message, tm: int) returns (es: seq<Event>, t: State)
    requires s.running && s.q1 == [] && m.kind == 1 && c.cap1 > 0
    requires i < |s.workers| && s.workers[i] == InReceive(m)
    ensures Run(c, s, es, t) && t.received == s.received && t.replies == s.replies
    ensures t.inTurn == s.inTurn && t.phase == s.phase && t.q1 == [Stamped(m, tm)]
  {
    es, t := Then(c, s, [], s, Signal);
    es, t := Then(c, s, es, t, TakeInterrupted(i));
    es, t := Then(c, s, es, t, Put(i, tm));
  }

  /** One worker answers the one request. */
  lemma {:induction false} Served(c: Config, s: State, i: nat, a: Addr, d: int, tm: int)
    returns (es: seq<Event>, t: State)
    requires s.running && !s.inTurn && s.phase == Recv && s.q0 == [] && s.q1 == [] && c.cap0 > 0 && c.cap1 > 0
    requires i < |s.workers| && s.workers[i].InReceive?
    ensures var m := Message(1, a, TimeText(tm));
            && Run(c, s, es, t) && t.running && !t.inTurn && t.phase == Recv && t.q1 == []
            && t.workers == s.workers[i := InReceive(m)]
            && t.received == s.received + multiset{a} && t.replies == s.replies + [m]
  {
    var e1, t1 := Queued(c, s, a, d);
    var e2, t2 := Worked(c, t1, i, Message(1, a, Datagram(d)), tm);
    var e3, t3 := Sent(c, t2, Message(1, a, TimeText(tm)));
    RunConcat(c, s, e1, t1, e2, t2);
    RunConcat(c, s, e1 + e2, t2, e3, t3);
    es, t := e1 + e2 + e3, t3;
  }

  /** The extra reply does occur, with any number of workers: one of them, interrupted in its receive,
      puts its last message into the second queue once more, and the server turn in progress sends it. */
  lemma {:induction false} ExtraReply(c: Config, s: State, i: nat, a: Addr, d: int, tm: int)
    returns (es: seq<Event>, t: State)
    requires Init(s) && c.cap0 > 0 && c.cap1 > 0 && i < |s.workers|
    ensures Run(c, s, es, t) && t.received == multiset{a} && Count(t.replies, a) == 2
  {
    var m := Message(1, a, TimeText(tm));
    var e0, t0 := Awake(c, s, i);
    var e1, t1 := Served(c, t0, i, a, d, tm);
    var e2, t2 := SentAgain(c, t1, i, m, tm);
    RunConcat(c, s, [Start] + e0, t0, e1, t1);
    RunConcat(c, s, [Start] + e0 + e1, t1, e2, t2);
    es, t := [Start] + e0 + e1 + e2, t2;
    assert t.replies == [m, m] && [m, m][1..] == [m];
    assert Count([m], a) == 1;
  }

  /** Some run, late interrupts permitted or not, ends with more replies to an address than requests. */
  ghost predicate MayOverReply(c: Config, s: State, late: bool) {
    exists es, t, a :: Run(c, s, es, t) && (late || Undisturbed(c, s, es)) && Over(t, a)
  }

  /** So a server with a worker and room in its queues can send too many replies exactly if a signal can
      interrupt a receive late. */
  lemma {:induction false} OverReplyIff(c: Config, s: State, late: bool)
    requires Init(s) && c.cap0 > 0 && c.cap1 > 0 && s.workers != []
    ensures MayOverReply(c, s, late) <==> late
  {
    if late {
      var es, t := ExtraReply(c, s, 0, 0, 0, 0);
      assert Over(t, 0);
    } else {
      forall es, t, a | Run(c, s, es, t) && Undisturbed(c, s, es)
        ensures !Over(t, a)
      {
        NoExtraReply(c, s, es, t);
      }
    }
  }

  // ----- workers that start too early -----

  predicate AllExited(ws: seq<Worker>) {
    forall i :: 0 <= i < |ws| ==> ws[i].Exited?
  }

  lemma {:induction false} FirstExit(c: Config, s: State, k: nat) returns (es: seq<Event>, t: State)
    requires Init(s) && k <= |s.workers|
    ensures Run(c, s, es, t) && |t.workers| == |s.workers| && t == s.(workers := t.workers)
    ensures forall i :: 0 <= i < |s.workers| ==> if i < k then t.workers[i].Exited? else t.workers[i] == s.workers[i]
  {
    if k == 0 {
      es, t := [], s;
    } else {
      es, t := FirstExit(c, s, k - 1);
      es, t := Then(c, s, es, t, Test(k - 1));
    }
  }

  /** Every worker may fail its first test before `running` is set. */
  lemma {:induction false} StartupRace(c: Config, s: State) returns (es: seq<Event>, t: State)
    requires Init(s)
    ensures Run(c, s, es, t) && t.running && AllExited(t.workers)
  {
    es, t := FirstExit(c, s, |s.workers|);
    es, t := Then(c, s, es, t, Start);
  }

  lemma {:induction false} NobodyWorks(c: Config, s: State, es: seq<Event>, t: State)
    requires s.started && AllExited(s.workers) && s.q1 == [] && Run(c, s, es, t)
    ensures t.replies == s.replies
    decreases |es|
  {
    if es != [] {
      NobodyWorks(c, Next(c, s, es[0]), es[1..], t);
    }
  }

  ghost predicate CanReply(c: Config, s: State) {
    exists es, t :: Run(c, s, es, t) && t.replies != s.replies
  }

  /** A server that is starting can ever send a reply exactly if some worker has not made its first test
      yet. */
  lemma {:induction false} ServesIff(c: Config, s: State)
    requires Unstarted(s) && c.cap0 > 0 && c.cap1 > 0
    ensures CanReply(c, Next(c, s, Start)) <==> !AllExited(s.workers)
  {
    var u := Next(c, s, Start);
    if AllExited(s.workers) {
      forall es, t | Run(c, u, es, t)
        ensures t.replies == u.replies
      {
        NobodyWorks(c, u, es, t);
      }
    } else {
      var i :| 0 <= i < |s.workers| && !s.workers[i].Exited?;
      var e0, t0 := Awake(c, s, i);
      var e1, t1 := Served(c, t0, i, 0, 0, 0);
      RunConcat(c, u, e0, t0, e1, t1);
      assert Run(c, u, e0 + e1, t1) && t1.replies == [Message(1, 0, TimeText(0))];
    }
  }

  // ----- replies wait for timeouts -----

  predicate TimesOut(s: State, e: Event) {
    e.Turn? && s.phase == Recv && e.input.WouldBlock?
  }

  /** Receive timeouts in a run. */
  function Timeouts(c: Config, s: State, es: seq<Event>): (n: nat)
    decreases |es|
  {
    if es == [] || !Enabled(c, s, es[0]) then 0
    else (if TimesOut(s, es[0]) then 1 else 0) + Timeouts(c, Next(c, s, es[0]), es[1..])
  }

  predicate FindsNothing(s: State, e: Event) {
    e.Turn? && s.phase == Send && First(s.q1) == |s.q1|
  }

  /** Turns in STATE_SEND that find no message. */
  function EmptySends(c: Config, s: State, es: seq<Event>): (n: nat)
    decreases |es|
  {
    if es == [] || !Enabled(c, s, es[0]) then 0
    else (if FindsNothing(s, es[0]) then 1 else 0) + EmptySends(c, Next(c, s, es[0]), es[1..])
  }

  lemma {:induction false} OneReply(c: Config, s: State, e: Event)
    requires Enabled(c, s, e)
    ensures var t := Next(c, s, e);
            && |t.replies| + (if t.phase == Send then 1 else 0) + (if FindsNothing(s, e) then 1 else 0)
               == |s.replies| + (if s.phase == Send then 1 else 0) + (if TimesOut(s, e) then 1 else 0)
            && s.replies <= t.replies
  {
  }

  /** Each receive timeout leads to one reply or to one turn that finds nothing, and STATE_SEND is entered
      in no other way. */
  lemma {:induction false} RepliesNeedTimeouts(c: Config, s: State, es: seq<Event>, t: State)
    requires Run(c, s, es, t)
    ensures |t.replies| + (if t.phase == Send then 1 else 0) + EmptySends(c, s, es)
         == |s.replies| + (if s.phase == Send then 1 else 0) + Timeouts(c, s, es)
    ensures s.replies <= t.replies
    decreases |es|
  {
    if es != [] {
      OneReply(c, s, es[0]);
      RepliesNeedTimeouts(c, Next(c, s, es[0]), es[1..], t);
    }
  }

  /** So a server that always finds a datagram never replies: for every `n` there is a run without a
      timeout in which `n` requests of an address arrive and none is answered. */
  lemma {:induction false} Starves(c: Config, s: State, a: Addr, n: nat) returns (es: seq<Event>, t: State)
    requires s.running && !s.inTurn && s.phase == Recv
    ensures Run(c, s, es, t) && Timeouts(c, s, es) == 0 && t.replies == s.replies
    ensures t.received[a] == s.received[a] + n && t.running && !t.inTurn && t.phase == Recv
    decreases n
  {
    es, t := [], s;
    if n > 0 {
      var u1 := Next(c, s, Enter);
      var u2 := Next(c, u1, Turn(Arrival(a, 0)));
      var u3 := Next(c, u2, Enter);
      var u4 := Next(c, u3, Turn(Arrival(a, 0)));
      es, t := Starves(c, u4, a, n - 1);
      es := Prepend(c, u3, Turn(Arrival(a, 0)), es, t);
      es := Prepend(c, u2, Enter, es, t);
      es := Prepend(c, u1, Turn(Arrival(a, 0)), es, t);
      es := Prepend(c, s, Enter, es, t);
    }
  }

  lemma {:induction false} Prepend(c: Config, s: State, e: Event, es: seq<Event>, t: State) returns (es': seq<Event>)
    requires Enabled(c, s, e) && Run(c, Next(c, s, e), es, t)
    ensures es' == [e] + es && Run(c, s, es', t)
    ensures Timeouts(c, s, es') == (if TimesOut(s, e) then 1 else 0) + Timeouts(c, Next(c, s, e), es)
    ensures !Feeds(s, e) && Quiet(c, Next(c, s, e), es) ==> Quiet(c, s, es')
  {
    es' := [e] + es;
    assert es'[1..] == es;
  }

  // ----- what becomes of a request -----

  /** The handler turns a request away: the first queue holds as many messages as it can. */
  predicate TurnsAway(c: Config, s: State, e: Event) {
    e.Turn? && s.phase == ResponseHandler && |s.q0| >= c.cap0
  }

  lemma {:induction false} DropStep(c: Config, s: State, e: Event)
    requires Enabled(c, s, e)
    ensures Next(c, s, e).dropped == s.dropped + if TurnsAway(c, s, e) then multiset{s.req.addr} else multiset{}
  {
  }

  /** The addresses turned away in a run. */
  function TurnedAway(c: Config, s: State, es: seq<Event>): (r: multiset<Addr>)
    decreases |es|
  {
    if es == [] || !Enabled(c, s, es[0]) then multiset{}
    else (if TurnsAway(c, s, es[0]) then multiset{s.req.addr} else multiset{}) + TurnedAway(c, Next(c, s, es[0]), es[1..])
  }

  /** Every turn of the handler finds room in the first queue. */
  predicate Roomy(c: Config, s: State, es: seq<Event>)
    decreases |es|
  {
    es == [] || !Enabled(c, s, es[0]) || (!TurnsAway(c, s, es[0]) && Roomy(c, Next(c, s, es[0]), es[1..]))
  }

  /** Requests are dropped exactly in the handler turns that find the first queue full. */
  lemma {:induction false} DroppedExactly(c: Config, s: State, es: seq<Event>, t: State)
    requires Run(c, s, es, t)
    ensures t.dropped == s.dropped + TurnedAway(c, s, es)
    ensures TurnedAway(c, s, es) == multiset{} <==> Roomy(c, s, es)
    decreases |es|
  {
    if es != [] {
      DropStep(c, s, es[0]);
      DroppedExactly(c, Next(c, s, es[0]), es[1..], t);
    }
  }

  /** So a run that never fills it loses nothing there. */
  lemma {:induction false} NothingDropped(c: Config, s: State, es: seq<Event>, t: State)
    requires Init(s) && Run(c, s, es, t) && Roomy(c, s, es)
    ensures forall a :: t.received[a] + t.spurious[a] == Inside(t, a) + Count(t.replies, a) + t.lost[a]
  {
    Safety(c, s, es, t);
    DroppedExactly(c, s, es, t);
  }

  // What comes in and what goes out, in order.

  function Arrives(s: State, e: Event): (r: seq<(Addr, Body)>) {
    if e.Turn? && s.phase == Recv && e.input.Arrival? then [(e.input.addr, Datagram(e.input.data))] else []
  }

  function Handles(s: State, e: Event): (r: seq<(Addr, Body)>) {
    if e.Turn? && s.phase == ResponseHandler then [(s.req.addr, s.req.body)] else []
  }

  function Enqueues(c: Config, s: State, e: Event): (r: seq<Message>) {
    if e.Turn? && s.phase == ResponseHandler && |s.q0| < c.cap0 then [Message(1, s.req.addr, s.req.body)] else []
  }

  function Takes(c: Config, s: State, e: Event): (r: seq<Message>)
    requires Enabled(c, s, e)
  {
    if e.Take? && Next(c, s, e).workers[e.i].Holding? then [Next(c, s, e).workers[e.i].req] else []
  }

  function Stores(s: State, e: Event): (r: seq<Message>) {
    if e.Put? && e.i < |s.workers| && s.workers[e.i].Holding? && s.workers[e.i].req.kind >= 1 then
      [Message(s.workers[e.i].req.kind, s.workers[e.i].req.addr, TimeText(e.tm))]
    else []
  }

  function Arrived(c: Config, s: State, es: seq<Event>): (r: seq<(Addr, Body)>)
    decreases |es|
  {
    if es == [] || !Enabled(c, s, es[0]) then [] else Arrives(s, es[0]) + Arrived(c, Next(c, s, es[0]), es[1..])
  }

  function Handled(c: Config, s: State, es: seq<Event>): (r: seq<(Addr, Body)>)
    decreases |es|
  {
    if es == [] || !Enabled(c, s, es[0]) then [] else Handles(s, es[0]) + Handled(c, Next(c, s, es[0]), es[1..])
  }

  function Enqueued(c: Config, s: State, es: seq<Event>): (r: seq<Message>)
    decreases |es|
  {
    if es == [] || !Enabled(c, s, es[0]) then [] else Enqueues(c, s, es[0]) + Enqueued(c, Next(c, s, es[0]), es[1..])
  }

  function Taken(c: Config, s: State, es: seq<Event>): (r: seq<Message>)
    decreases |es|
  {
    if es == [] || !Enabled(c, s, es[0]) then [] else Takes(c, s, es[0]) + Taken(c, Next(c, s, es[0]), es[1..])
  }

  function Stored(c: Config, s: State, es: seq<Event>): (r: seq<Message>)
    decreases |es|
  {
    if es == [] || !Enabled(c, s, es[0]) then [] else Stores(s, es[0]) + Stored(c, Next(c, s, es[0]), es[1..])
  }

  /** What was received and waits for the handler. */
  function Pending(s: State): (r: seq<(Addr, Body)>) {
    if s.phase == ResponseHandler then [(s.req.addr, s.req.body)] else []
  }

  lemma {:induction false} PendingStep(c: Config, s: State, e: Event)
    requires Enabled(c, s, e)
    ensures Pending(s) + Arrives(s, e) == Handles(s, e) + Pending(Next(c, s, e))
  {
  }

  /** The handler gets exactly the datagrams that arrived, in their order. */
  lemma {:induction false} HandledInOrder(c: Config, s: State, es: seq<Event>, t: State)
    requires Run(c, s, es, t)
    ensures Pending(s) + Arrived(c, s, es) == Handled(c, s, es) + Pending(t)
    decreases |es|
  {
    if es != [] {
      var u := Next(c, s, es[0]);
      PendingStep(c, s, es[0]);
      HandledInOrder(c, u, es[1..], t);
      Chain(Pending(s), Arrives(s, es[0]), Handles(s, es[0]), Pending(u), Arrived(c, u, es[1..]), Handled(c, u, es[1..]),
            Pending(t));
    }
  }

  /** What goes into a queue comes out of it first, over two stretches of a run. */
  lemma {:induction false} Chain<T>(q: seq<T>, in1: seq<T>, out1: seq<T>, r: seq<T>, in2: seq<T>, out2: seq<T>, t: seq<T>)
    requires q + in1 == out1 + r && r + in2 == out2 + t
    ensures q + (in1 + in2) == (out1 + out2) + t
  {
    calc {
      q + (in1 + in2);
      (q + in1) + in2;
      out1 + (r + in2);
      (out1 + out2) + t;
    }
  }

  /** The steps that touch a queue are the handler's, the takes, the puts and the sends. */
  lemma {:induction false} QueuesKept(c: Config, s: State, e: Event)
    requires Enabled(c, s, e)
    ensures !e.Take? && !(e.Turn? && s.phase == ResponseHandler) ==> Next(c, s, e).q0 == s.q0
    ensures !e.Put? && !(e.Turn? && s.phase == Send) ==> Next(c, s, e).q1 == s.q1 && Next(c, s, e).replies == s.replies
  {
  }

  lemma {:induction false} TakeHead(c: Config, s: State, i: nat)
    requires Enabled(c, s, Take(i)) && AllKind1(s.q0)
    ensures var t := Next(c, s, Take(i)); t.workers[i] == Holding(s.q0[0]) && s.q0 == [s.q0[0]] + t.q0
  {
    HeadIsFirst(s.q0);
    assert Next(c, s, Take(i)).q0 == s.q0[1..];
  }

  lemma {:induction false} SendHead(c: Config, s: State, input: Input)
    requires s.inTurn && s.phase == Send && AllKind1(s.q1)
    ensures var t := Next(c, s, Turn(input)); s.replies + s.q1 == t.replies + t.q1
  {
    HeadIsFirst(s.q1);
    var t := Next(c, s, Turn(input));
    if s.q1 == [] {
      assert t.replies == s.replies && t.q1 == s.q1;
    } else {
      assert t.replies == s.replies + [s.q1[0]] && t.q1 == s.q1[1..];
      MoveHead(s.replies, s.q1);
    }
  }

  lemma {:induction false} MoveHead<T>(p: seq<T>, q: seq<T>)
    requires q != []
    ensures p + q == (p + [q[0]]) + q[1..]
  {
  }

  lemma {:induction false} Queue0Step(c: Config, s: State, e: Event)
    requires Enabled(c, s, e) && AllKind1(s.q0)
    ensures s.q0 + Enqueues(c, s, e) == Takes(c, s, e) + Next(c, s, e).q0
  {
    if e.Take? {
      TakeHead(c, s, e.i);
    } else if !(e.Turn? && s.phase == ResponseHandler) {
      QueuesKept(c, s, e);
    }
  }

  /** The first queue is first in, first out: what the workers take is what the handler put in. */
  lemma {:induction false} Queue0Fifo(c: Config, s: State, es: seq<Event>, t: State)
    requires Inv(c, s) && Run(c, s, es, t)
    ensures s.q0 + Enqueued(c, s, es) == Taken(c, s, es) + t.q0
    decreases |es|
  {
    if es != [] {
      var u := Next(c, s, es[0]);
      StepInv(c, s, es[0]);
      Queue0Step(c, s, es[0]);
      Queue0Fifo(c, u, es[1..], t);
      Chain(s.q0, Enqueues(c, s, es[0]), Takes(c, s, es[0]), u.q0, Enqueued(c, u, es[1..]), Taken(c, u, es[1..]), t.q0);
    }
  }

  lemma {:induction false} Queue1Step(c: Config, s: State, e: Event)
    requires Enabled(c, s, e) && AllKind1(s.q1)
    ensures s.replies + s.q1 + Stores(s, e) == Next(c, s, e).replies + Next(c, s, e).q1
  {
    if e.Turn? && s.phase == Send {
      SendHead(c, s, e.input);
    } else if !e.Put? {
      QueuesKept(c, s, e);
    }
  }

  /** While the server runs, so is the second: it sends what the workers stored, which is the address they
      were given and the time. */
  lemma {:induction false} Queue1Fifo(c: Config, s: State, es: seq<Event>, t: State)
    requires Inv(c, s) && Run(c, s, es, t) && t.running
    ensures s.replies + s.q1 + Stored(c, s, es) == t.replies + t.q1
    decreases |es|
  {
    if es != [] {
      var u := Next(c, s, es[0]);
      StillKind1(c, s, es, t);
      StepInv(c, s, es[0]);
      Queue1Step(c, s, es[0]);
      Queue1Fifo(c, u, es[1..], t);
      Chain(s.replies + s.q1, Stores(s, es[0]), [], u.replies + u.q1, Stored(c, u, es[1..]), [], t.replies + t.q1);
    }
  }

  lemma {:induction false} StillKind1(c: Config, s: State, es: seq<Event>, t: State)
    requires WellFormed(c, s) && Run(c, s, es, t) && t.running
    ensures AllKind1(s.q1)
  {
    if s.started { RunLive(c, s, es, t); }
  }

  // ----- first come, first served -----

  function Addrs(q: seq<Message>): (r: seq<Addr>)
    ensures |r| == |q| && forall i :: 0 <= i < |q| ==> r[i] == q[i].addr
  {
    seq(|q|, i requires 0 <= i < |q| => q[i].addr)
  }

  lemma {:induction false} AddrsConcat(p: seq<Message>, q: seq<Message>)
    ensures Addrs(p + q) == Addrs(p) + Addrs(q)
  {
  }

  function HeldBySole(w: Worker): (r: seq<Addr>) {
    if w.Holding? then [w.req.addr] else []
  }

  /** Everything past the handler, the oldest first, if there is one worker. */
  function Line(s: State): (r: seq<Addr>)
    requires |s.workers| == 1
  {
    Addrs(s.replies + s.q1) + HeldBySole(s.workers[0]) + Addrs(s.q0)
  }

  lemma {:induction false} LineStep(c: Config, s: State, e: Event)
    requires Enabled(c, s, e) && Inv(c, s) && |s.workers| == 1 && (s.running || !s.started)
    ensures |Next(c, s, e).workers| == 1 && Line(Next(c, s, e)) == Line(s) + Addrs(Enqueues(c, s, e))
  {
    var t := Next(c, s, e);
    Queue0Step(c, s, e);
    Queue1Step(c, s, e);
    SoleStep(c, s, e);
    AddrsConcat(s.q0, Enqueues(c, s, e));
    AddrsConcat(Takes(c, s, e), t.q0);
    AddrsConcat(s.replies + s.q1, Stores(s, e));
    LineSum(Addrs(s.replies + s.q1), HeldBySole(s.workers[0]), Addrs(s.q0), Addrs(Stores(s, e)), Addrs(Takes(c, s, e)),
            Addrs(Enqueues(c, s, e)), HeldBySole(t.workers[0]), Addrs(t.q0));
  }

  lemma {:induction false} LineSum<T>(out: seq<T>, held: seq<T>, q: seq<T>, stored: seq<T>, taken: seq<T>, enqueued: seq<T>,
                                      held': seq<T>, q': seq<T>)
    requires held + taken == stored + held' && q + enqueued == taken + q'
    ensures (out + stored) + held' + q' == (out + held + q) + enqueued
  {
    calc {
      (out + stored) + held' + q';
      out + (stored + held') + q';
      out + (held + taken) + q';
      out + held + (taken + q');
      (out + held + q) + enqueued;
    }
  }

  /** A worker holds what it took until it stores it. */
  lemma {:induction false} SoleStep(c: Config, s: State, e: Event)
    requires Enabled(c, s, e) && WellFormed(c, s) && |s.workers| == 1 && (s.running || !s.started)
    ensures var t := Next(c, s, e);
            |t.workers| == 1 &&
            HeldBySole(s.workers[0]) + Addrs(Takes(c, s, e)) == Addrs(Stores(s, e)) + HeldBySole(t.workers[0])
  {
    if e.Take? {
      TakeHead(c, s, e.i);
    } else if e.Put? {
      assert s.workers[e.i].req.kind == 1;
    } else {
      SoleKept(c, s, e);
    }
  }

  lemma {:induction false} SoleKept(c: Config, s: State, e: Event)
    requires Enabled(c, s, e) && WellFormed(c, s) && |s.workers| == 1 && (s.running || !s.started)
    requires !e.Take? && !e.Put?
    ensures |Next(c, s, e).workers| == 1 && HeldBySole(Next(c, s, e).workers[0]) == HeldBySole(s.workers[0])
  {
    assert !s.running ==> Unstarted(s);
    if e.Test? {
      assert e.i == 0;
    } else {
      assert !e.TakeInterrupted? && !e.PutInterrupted?;
      WorkersKept(c, s, e);
    }
  }

  lemma {:induction false} WorkersKept(c: Config, s: State, e: Event)
    requires Enabled(c, s, e) && (e.Start? || e.Enter? || e.Turn? || e.Signal?)
    ensures Next(c, s, e).workers == s.workers
  {
  }

  /** With one worker the addresses are answered in the order in which their requests were queued. */
  lemma {:induction false} InOrder(c: Config, s: State, es: seq<Event>, t: State)
    requires Inv(c, s) && Run(c, s, es, t) && t.running && |s.workers| == 1
    ensures |t.workers| == 1 && Line(t) == Line(s) + Addrs(Enqueued(c, s, es))
    decreases |es|
  {
    if es != [] {
      if s.started { RunLive(c, s, es, t); }
      StepInv(c, s, es[0]);
      LineStep(c, s, es[0]);
      InOrder(c, Next(c, s, es[0]), es[1..], t);
      EnqueuedHead(c, s, es);
    }
  }

  lemma {:induction false} EnqueuedHead(c: Config, s: State, es: seq<Event>)
    requires es != [] && Enabled(c, s, es[0])
    ensures var u := Next(c, s, es[0]);
            forall l: seq<Addr> :: l + Addrs(Enqueued(c, s, es))
                                == l + Addrs(Enqueues(c, s, es[0])) + Addrs(Enqueued(c, u, es[1..]))
  {
    var u := Next(c, s, es[0]);
    var (p, q) := (Addrs(Enqueues(c, s, es[0])), Addrs(Enqueued(c, u, es[1..])));
    AddrsConcat(Enqueues(c, s, es[0]), Enqueued(c, u, es[1..]));
    forall l: seq<Addr>
      ensures l + (p + q) == l + p + q
    {
    }
  }

  /** A request arrives and a worker takes it. */
  lemma {:induction false} Fetched(c: Config, s: State, i: nat, a: Addr, d: int) returns (es: seq<Event>, t: State)
    requires s.running && !s.inTurn && s.phase == Recv && s.q0 == [] && c.cap0 > 0
    requires i < |s.workers| && s.workers[i].InReceive?
    ensures var m := Message(1, a, Datagram(d));
            && Run(c, s, es, t) && Enqueued(c, s, es) == [m]
            && t == s.(req := m, received := s.received + multiset{a}, workers := s.workers[i := Holding(m)])
  {
    var fs, u := Queued(c, s, a, d);
    TakeHead(c, u, i);
    assert u.q0 == [u.q0[0]] + [];
    es, t := Then(c, s, fs, u, Take(i));
    assert t.q0 == [];
  }

  /** A worker stores what it holds, and the server sends it. */
  lemma {:induction false} Delivered(c: Config, s: State, i: nat, tm: int) returns (es: seq<Event>, t: State)
    requires s.running && !s.inTurn && s.phase == Recv && s.q1 == [] && c.cap1 > 0
    requires i < |s.workers| && s.workers[i].Holding? && s.workers[i].req.kind == 1
    ensures var r := Message(1, s.workers[i].req.addr, TimeText(tm));
            && Run(c, s, es, t) && Enqueued(c, s, es) == []
            && t == s.(req := r, replies := s.replies + [r], workers := s.workers[i := AtTest(r)])
  {
    var e1, t1 := Then(c, s, [], s, Put(i, tm));
    var e2, t2 := Sent(c, t1, t1.q1[0]);
    RunConcat(c, s, e1, t1, e2, t2);
    es, t := e1 + e2, t2;
  }

  /** With two workers or more the second request may be answered first. */
  lemma {:induction false} Overtakes(c: Config, s: State, a: Addr, b: Addr) returns (es: seq<Event>, t: State)
    requires Init(s) && c.cap0 > 0 && c.cap1 > 0 && |s.workers| > 1
    ensures Run(c, s, es, t) && t.running
    ensures Addrs(Enqueued(c, s, es)) == [a, b] && Addrs(t.replies) == [b, a]
  {
    var e1, t1 := TwoAwake(c, s);
    var e2, t2 := BothFetched(c, t1, a, b);
    var e3, t3 := BothDelivered(c, t2, a, b);
    RunConcat(c, t1, e2, t2, e3, t3);
    assert Enqueued(c, t1, e2 + e3) == Enqueued(c, t1, e2);
    RunConcat(c, s, e1, t1, e2 + e3, t3);
    es, t := e1 + (e2 + e3), t3;
    assert Enqueued(c, s, es) == Enqueued(c, t1, e2 + e3);
  }

  /** The server waits for a datagram and there is nothing in the queues. */
  predicate Resting(s: State) {
    s.running && !s.inTurn && s.phase == Recv && s.q0 == [] && s.q1 == [] && |s.workers| > 1
  }

  lemma {:induction false} TwoAwake(c: Config, s: State) returns (es: seq<Event>, t: State)
    requires Init(s) && |s.workers| > 1
    ensures Run(c, s, es, t) && Enqueued(c, s, es) == [] && Resting(t) && t.replies == []
    ensures t.workers[0].InReceive? && t.workers[1].InReceive?
  {
    es, t := Then(c, s, [], s, Start);
    es, t := Then(c, s, es, t, Test(0));
    es, t := Then(c, s, es, t, Test(1));
  }

  lemma {:induction false} BothFetched(c: Config, s: State, a: Addr, b: Addr) returns (es: seq<Event>, t: State)
    requires Resting(s) && c.cap0 > 0 && s.workers[0].InReceive? && s.workers[1].InReceive?
    ensures Run(c, s, es, t) && Addrs(Enqueued(c, s, es)) == [a, b] && Resting(t) && t.replies == s.replies
    ensures t.workers[0] == Holding(Message(1, a, Datagram(0))) && t.workers[1] == Holding(Message(1, b, Datagram(0)))
  {
    var e1, t1 := Fetched(c, s, 0, a, 0);
    var e2, t2 := Fetched(c, t1, 1, b, 0);
    RunConcat(c, s, e1, t1, e2, t2);
    es, t := e1 + e2, t2;
  }

  lemma {:induction false} BothDelivered(c: Config, s: State, a: Addr, b: Addr) returns (es: seq<Event>, t: State)
    requires Resting(s) && c.cap1 > 0 && s.replies == []
    requires s.workers[0] == Holding(Message(1, a, Datagram(0))) && s.workers[1] == Holding(Message(1, b, Datagram(0)))
    ensures Run(c, s, es, t) && t.running && Enqueued(c, s, es) == [] && Addrs(t.replies) == [b, a]
  {
    var e1, t1 := Delivered(c, s, 1, 0);
    var e2, t2 := Delivered(c, t1, 0, 0);
    RunConcat(c, s, e1, t1, e2, t2);
    es, t := e1 + e2, t2;
  }

  /** In every run of a server that has not stopped, replies go out in the order in which the requests
      were queued. */
  ghost predicate FirstComeFirstServed(c: Config, s: State) {
    forall es, t :: Run(c, s, es, t) && t.running ==> Addrs(t.replies) <= Addrs(Enqueued(c, s, es))
  }

  lemma {:induction false} InOrderIff(c: Config, s: State)
    requires Init(s) && c.cap0 > 0 && c.cap1 > 0 && s.workers != []
    ensures FirstComeFirstServed(c, s) <==> |s.workers| == 1
  {
    if |s.workers| == 1 {
      InitInv(c, s);
      forall es, t | Run(c, s, es, t) && t.running
        ensures Addrs(t.replies) <= Addrs(Enqueued(c, s, es))
      {
        InOrder(c, s, es, t);
        AddrsConcat(t.replies, t.q1);
        assert Line(t) == Addrs(Enqueued(c, s, es));
      }
    } else {
      var es, t := Overtakes(c, s, 0, 1);
      assert Addrs(t.replies)[0] != Addrs(Enqueued(c, s, es))[0];
    }
  }

  // ----- when steps can be taken -----

  predicate OfWorker(e: Event, i: nat) {
    (e.Test? || e.Take? || e.Put? || e.TakeInterrupted? || e.PutInterrupted?) && e.i == i
  }

  /** While the server runs, a worker has to wait exactly for a request when there is none, or for room in
      the second queue when it is full. */
  lemma {:induction false} WorkerWaitsIff(c: Config, s: State, i: nat)
    requires WellFormed(c, s) && s.running && i < |s.workers|
    ensures (forall e :: OfWorker(e, i) ==> !Enabled(c, s, e)) <==>
            || s.workers[i].Exited?
            || (s.workers[i].InReceive? && s.q0 == [])
            || (s.workers[i].Holding? && |s.q1| == c.cap1)
  {
    HeadIsFirst(s.q0);
    if s.workers[i].AtTest? {
      assert Enabled(c, s, Test(i)) && OfWorker(Test(i), i);
    } else if s.workers[i].InReceive? && s.q0 != [] {
      assert Enabled(c, s, Take(i)) && OfWorker(Take(i), i);
    } else if s.workers[i].Holding? && |s.q1| < c.cap1 {
      assert Enabled(c, s, Put(i, 0)) && OfWorker(Put(i, 0), i);
    }
  }

  /** A signal, or a receive error other than a timeout. */
  predicate Stops(s: State, e: Event) {
    e.Signal? || (e.Turn? && s.phase == Recv && e.input.Failed?)
  }

  predicate NeverStops(c: Config, s: State, es: seq<Event>)
    decreases |es|
  {
    es == [] || !Enabled(c, s, es[0]) || (!Stops(s, es[0]) && NeverStops(c, Next(c, s, es[0]), es[1..]))
  }

  /** A started server stops exactly by one of these, and then for good. */
  lemma {:induction false} RunsIff(c: Config, s: State, es: seq<Event>, t: State)
    requires s.started && Run(c, s, es, t)
    ensures t.running <==> s.running && NeverStops(c, s, es)
    ensures t.started
    decreases |es|
  {
    if es != [] {
      StopStep(c, s, es[0]);
      RunsIff(c, Next(c, s, es[0]), es[1..], t);
    }
  }

  lemma {:induction false} StopStep(c: Config, s: State, e: Event)
    requires Enabled(c, s, e) && s.started
    ensures Next(c, s, e).started && (Next(c, s, e).running <==> s.running && !Stops(s, e))
  {
  }

  // ----- progress -----

  function HoldingCount(ws: seq<Worker>): (n: nat) {
    if ws == [] then 0 else (if ws[0].Holding? then 1 else 0) + HoldingCount(ws[1..])
  }

  /** Hand-overs still ahead of the requests inside the server. */
  function Weight(s: State): (n: nat) {
    (if s.phase == ResponseHandler then 4 else 0) + 3 * |s.q0| + 2 * HoldingCount(s.workers) + |s.q1|
  }

  /** The step brings a message in: an arrival, or an old one handled again after an interrupt. */
  predicate Feeds(s: State, e: Event) {
    (e.Turn? && s.phase == Recv && e.input.Arrival?) || e.TakeInterrupted?
  }

  /** The step hands a request over: enqueue (or loss), take, put or send. */
  predicate Moves(s: State, e: Event) {
    match e
    case Start => false
    case Enter => false
    case Turn(_) => s.phase == ResponseHandler || (s.phase == Send && First(s.q1) < |s.q1|)
    case Signal => false
    case Test(_) => false
    case Take(_) => true
    case Put(_, _) => true
    case TakeInterrupted(_) => false
    case PutInterrupted(_, _) => true
  }

  lemma {:induction false} HoldingUpdate(ws: seq<Worker>, i: nat, w: Worker)
    requires i < |ws|
    ensures HoldingCount(ws[i := w]) + (if ws[i].Holding? then 1 else 0) == HoldingCount(ws) + if w.Holding? then 1 else 0
  {
    if i == 0 {
      assert ws[0 := w][1..] == ws[1..];
    } else {
      HoldingUpdate(ws[1..], i - 1, w);
      assert ws[i := w][1..] == ws[1..][i - 1 := w];
    }
  }

  lemma {:induction false} TurnWeight(c: Config, s: State, input: Input)
    requires !(s.phase == Recv && input.Arrival?)
    ensures Weight(TurnStep(c, s, input)) <= Weight(s) - if Moves(s, Turn(input)) then 1 else 0
  {
  }

  lemma {:induction false} TestWeight(c: Config, s: State, i: nat)
    requires Enabled(c, s, Test(i))
    ensures Weight(TestStep(s, i)) == Weight(s)
  {
    HoldingUpdate(s.workers, i, if s.running then InReceive(s.workers[i].last) else Exited);
  }

  lemma {:induction false} TakeWeight(c: Config, s: State, i: nat)
    requires Enabled(c, s, Take(i))
    ensures Weight(TakeStep(s, i)) == Weight(s) - 1
  {
    HoldingUpdate(s.workers, i, Holding(s.q0[First(s.q0)]));
  }

  lemma {:induction false} PutWeight(c: Config, s: State, i: nat, tm: int)
    requires i < |s.workers| && s.workers[i].Holding?
    ensures Weight(PutStep(s, i, tm)) < Weight(s) && Weight(PutInterruptedStep(s, i, tm)) < Weight(s)
  {
    HoldingUpdate(s.workers, i, AtTest(Stamped(s.workers[i].req, tm)));
  }

  /** Without arrivals the weight never rises, and every hand-over lowers it. */
  lemma {:induction false} WeightStep(c: Config, s: State, e: Event)
    requires Enabled(c, s, e) && !Feeds(s, e)
    ensures Weight(Next(c, s, e)) <= Weight(s) - if Moves(s, e) then 1 else 0
  {
    match e
    case Turn(input) => TurnWeight(c, s, input);
    case Test(i) => TestWeight(c, s, i);
    case Take(i) => TakeWeight(c, s, i);
    case Put(i, tm) => PutWeight(c, s, i, tm);
    case PutInterrupted(i, tm) => PutWeight(c, s, i, tm);
    case _ =>
  }

  function MovesIn(c: Config, s: State, es: seq<Event>): (n: nat)
    decreases |es|
  {
    if es == [] || !Enabled(c, s, es[0]) then 0
    else (if Moves(s, es[0]) then 1 else 0) + MovesIn(c, Next(c, s, es[0]), es[1..])
  }

  predicate Quiet(c: Config, s: State, es: seq<Event>)
    decreases |es|
  {
    es == [] || !Enabled(c, s, es[0]) ||
    (!Feeds(s, es[0]) && Quiet(c, Next(c, s, es[0]), es[1..]))
  }

  /** However the steps interleave, a run without arrivals makes at most `Weight` hand-overs. */
  lemma {:induction false} WeightRun(c: Config, s: State, es: seq<Event>, t: State)
    requires Run(c, s, es, t) && Quiet(c, s, es)
    ensures MovesIn(c, s, es) + Weight(t) <= Weight(s)
    decreases |es|
  {
    if es != [] {
      WeightStep(c, s, es[0]);
      WeightRun(c, Next(c, s, es[0]), es[1..], t);
    }
  }

  lemma {:induction false} SomeHolder(ws: seq<Worker>) returns (i: nat)
    requires HoldingCount(ws) > 0
    ensures i < |ws| && ws[i].Holding?
  {
    if ws[0].Holding? {
      i := 0;
    } else {
      i := SomeHolder(ws[1..]);
      i := i + 1;
    }
  }

  /** A turn of the server from its loop test, or from inside the loop. */
  lemma {:induction false} FullTurn(c: Config, s: State) returns (es: seq<Event>, t: State)
    requires s.running
    ensures Run(c, s, es, t) && Quiet(c, s, es) && t == TurnStep(c, s, WouldBlock).(inTurn := false)
  {
    var u := s.(inTurn := true);
    t := Next(c, u, Turn(WouldBlock));
    es := Prepend(c, u, Turn(WouldBlock), [], t);
    if s.inTurn {
      assert u == s;
    } else {
      es := Prepend(c, s, Enter, es, t);
    }
  }

  /** Some worker has not left its loop. */
  ghost predicate Live(ws: seq<Worker>) {
    exists i :: 0 <= i < |ws| && !ws[i].Exited?
  }

  /** While requests are inside, a few steps bring the weight down. */
  lemma {:induction false} Progress(c: Config, s: State) returns (es: seq<Event>, t: State)
    requires Inv(c, s) && s.running && Live(s.workers) && c.cap1 > 0 && Weight(s) > 0
    ensures Run(c, s, es, t) && Quiet(c, s, es) && Weight(t) < Weight(s) && t.running
    ensures Live(t.workers)
  {
    if s.phase == ResponseHandler || (s.phase == Send && s.q1 != []) {
      es, t := ServerProgress(c, s);
    } else if s.q1 != [] {
      var fs, u := FullTurn(c, s);
      assert u == s.(phase := Send, inTurn := false);
      es, t := ServerProgress(c, u);
      RunConcat(c, s, fs, u, es, t);
      es := fs + es;
    } else {
      es, t := WorkerProgress(c, s);
    }
  }

  /** A request that waits for the handler or the sender goes on with the next turn. */
  lemma {:induction false} ServerProgress(c: Config, s: State) returns (es: seq<Event>, t: State)
    requires s.running && AllKind1(s.q1) && Live(s.workers)
    requires s.phase == ResponseHandler || (s.phase == Send && s.q1 != [])
    ensures Run(c, s, es, t) && Quiet(c, s, es) && Weight(t) < Weight(s) && t.running
    ensures Live(t.workers)
  {
    HeadIsFirst(s.q1);
    TurnWeight(c, s, WouldBlock);
    es, t := FullTurn(c, s);
    assert t.workers == s.workers;
  }

  /** With the second queue empty a worker can go on. */
  lemma {:induction false} WorkerProgress(c: Config, s: State) returns (es: seq<Event>, t: State)
    requires s.running && WorkersOk(s.workers) && AllKind1(s.q0) && Live(s.workers) && |s.q1| < c.cap1
    requires HoldingCount(s.workers) > 0 || s.q0 != []
    ensures Run(c, s, es, t) && Quiet(c, s, es) && Weight(t) < Weight(s) && t.running
    ensures Live(t.workers)
  {
    HeadIsFirst(s.q0);
    if HoldingCount(s.workers) > 0 {
      var i := SomeHolder(s.workers);
      es, t := OneStep(c, s, Put(i, 0), i);
    } else {
      var i :| 0 <= i < |s.workers| && !s.workers[i].Exited?;
      if s.workers[i].InReceive? {
        es, t := OneStep(c, s, Take(i), i);
      } else {
        NoHolder(s.workers, i);
        var u := Next(c, s, Test(i));
        WeightStep(c, s, Test(i));
        es, t := OneStep(c, u, Take(i), i);
        es := Prepend(c, s, Test(i), es, t);
      }
    }
  }

  lemma {:induction false} NoHolder(ws: seq<Worker>, i: nat)
    requires i < |ws| && HoldingCount(ws) == 0
    ensures !ws[i].Holding?
  {
    if i > 0 { NoHolder(ws[1..], i - 1); }
  }

  lemma {:induction false} OneStep(c: Config, s: State, e: Event, i: nat) returns (es: seq<Event>, t: State)
    requires (e == Take(i) || e == Put(i, 0)) && Enabled(c, s, e) && s.running
    ensures t == Next(c, s, e) && Run(c, s, es, t) && Quiet(c, s, es)
    ensures Weight(t) < Weight(s) && t.running && Live(t.workers)
  {
    t := Next(c, s, e);
    es := Prepend(c, s, e, [], t);
    WeightStep(c, s, e);
    assert !t.workers[i].Exited?;
  }

  lemma {:induction false} RunConcat(c: Config, s: State, es: seq<Event>, t: State, fs: seq<Event>, u: State)
    requires Run(c, s, es, t) && Run(c, t, fs, u)
    ensures Run(c, s, es + fs, u)
    ensures Quiet(c, s, es) && Quiet(c, t, fs) ==> Quiet(c, s, es + fs)
    ensures Enqueued(c, s, es + fs) == Enqueued(c, s, es) + Enqueued(c, t, fs)
  {
    PathConcat(c, s, es, t, fs, u);
    EnqueuedConcat(c, s, es, t, fs);
  }

  lemma {:induction false} PathConcat(c: Config, s: State, es: seq<Event>, t: State, fs: seq<Event>, u: State)
    requires Run(c, s, es, t) && Run(c, t, fs, u)
    ensures Run(c, s, es + fs, u)
    ensures Quiet(c, s, es) && Quiet(c, t, fs) ==> Quiet(c, s, es + fs)
    decreases |es|
  {
    if es == [] {
      assert es + fs == fs;
    } else {
      PathConcat(c, Next(c, s, es[0]), es[1..], t, fs, u);
      assert (es + fs)[1..] == es[1..] + fs;
    }
  }

  lemma {:induction false} EnqueuedConcat(c: Config, s: State, es: seq<Event>, t: State, fs: seq<Event>)
    requires Run(c, s, es, t)
    ensures Enqueued(c, s, es + fs) == Enqueued(c, s, es) + Enqueued(c, t, fs)
    decreases |es|
  {
    if es == [] {
      assert es + fs == fs;
    } else {
      var u, es', fs' := Next(c, s, es[0]), es[1..], es[1..] + fs;
      EnqueuedConcat(c, u, es', t, fs);
      assert es == [es[0]] + es' && es + fs == [es[0]] + fs';
      EnqueuedCons(c, s, es[0], es');
      EnqueuedCons(c, s, es[0], fs');
      Assoc(Enqueues(c, s, es[0]), Enqueued(c, u, es'), Enqueued(c, t, fs));
    }
  }

  lemma {:induction false} Assoc<T>(a: seq<T>, b: seq<T>, d: seq<T>)
    ensures a + (b + d) == (a + b) + d
  {
  }

  lemma {:induction false} EnqueuedCons(c: Config, s: State, e: Event, es: seq<Event>)
    requires Enabled(c, s, e)
    ensures Enqueued(c, s, [e] + es) == Enqueues(c, s, e) + Enqueued(c, Next(c, s, e), es)
  {
    assert ([e] + es)[1..] == es;
  }

  /** From every reachable running state the server can empty itself; then each request received has
      been answered or was dropped at the full first queue. */
  lemma {:induction false} Drains(c: Config, s: State) returns (es: seq<Event>, t: State)
    requires Inv(c, s) && s.running && Live(s.workers) && c.cap1 > 0
    ensures Run(c, s, es, t) && Quiet(c, s, es) && Weight(t) == 0
    ensures t.running && forall a :: t.received[a] == Count(t.replies, a) + t.dropped[a]
    decreases Weight(s)
  {
    if Weight(s) == 0 {
      es, t := [], s;
      Quiescent(c, s);
    } else {
      var fs, u := Progress(c, s);
      RunInv(c, s, fs, u);
      es, t := Drains(c, u);
      RunConcat(c, s, fs, u, es, t);
      es := fs + es;
    }
  }

  /** Weight zero is exactly "every request was answered, dropped or lost". */
  lemma {:induction false} Quiescent(c: Config, s: State)
    requires Inv(c, s)
    ensures Weight(s) == 0 <==>
            forall a :: s.received[a] + s.spurious[a] == Count(s.replies, a) + s.dropped[a] + s.lost[a]
  {
    if Weight(s) == 0 {
      forall a
        ensures s.received[a] + s.spurious[a] == Count(s.replies, a) + s.dropped[a] + s.lost[a]
      {
        assert Balanced(s, a);
        HeldBound(s.workers, a);
      }
    } else {
      var a := SomeInside(s);
      assert Balanced(s, a);
    }
  }

  lemma {:induction false} HeldBound(ws: seq<Worker>, a: Addr)
    ensures Held(ws, a) <= HoldingCount(ws)
  {
    if ws != [] { HeldBound(ws[1..], a); }
  }

  lemma {:induction false} HolderHeld(ws: seq<Worker>) returns (a: Addr)
    requires HoldingCount(ws) > 0
    ensures Held(ws, a) > 0
  {
    if ws[0].Holding? { a := ws[0].req.addr; } else { a := HolderHeld(ws[1..]); }
  }

  lemma {:induction false} SomeInside(s: State) returns (a: Addr)
    requires Weight(s) > 0
    ensures Inside(s, a) > 0
  {
    if s.phase == ResponseHandler { a := s.req.addr; }
    else if s.q0 != [] { a := s.q0[0].addr; }
    else if s.q1 != [] { a := s.q1[0].addr; }
    else { a := HolderHeld(s.workers); }
  }

  // ----- every fair run empties the server -----

  function AtTests(ws: seq<Worker>): (n: nat)
    ensures n <= |ws|
  {
    if ws == [] then 0 else (if ws[0].AtTest? then 1 else 0) + AtTests(ws[1..])
  }

  /** Bounds the steps ahead: a hand-over may be followed by a loop test. */
  function Potential(s: State): (n: nat)
    ensures 2 * Weight(s) <= n <= 2 * Weight(s) + |s.workers|
  {
    2 * Weight(s) + AtTests(s.workers)
  }

  /** Every step of a worker, and of the server every one that hands a request over. */
  predicate Busy(s: State, e: Event) {
    e.Test? || Moves(s, e)
  }

  lemma {:induction false} AtTestsUpdate(ws: seq<Worker>, i: nat, w: Worker)
    requires i < |ws|
    ensures AtTests(ws[i := w]) + (if ws[i].AtTest? then 1 else 0) == AtTests(ws) + if w.AtTest? then 1 else 0
  {
    if i == 0 {
      assert ws[0 := w][1..] == ws[1..];
    } else {
      AtTestsUpdate(ws[1..], i - 1, w);
      assert ws[i := w][1..] == ws[1..][i - 1 := w];
    }
  }

  lemma {:induction false} PotentialStep(c: Config, s: State, e: Event)
    requires Enabled(c, s, e) && !Feeds(s, e)
    ensures Potential(Next(c, s, e)) <= Potential(s) - if Busy(s, e) then 1 else 0
  {
    WeightStep(c, s, e);
    match e
    case Test(i) =>
      TestWeight(c, s, i);
      AtTestsUpdate(s.workers, i, if s.running then InReceive(s.workers[i].last) else Exited);
    case Take(i) => AtTestsUpdate(s.workers, i, Holding(s.q0[First(s.q0)]));
    case Put(i, tm) => AtTestsUpdate(s.workers, i, AtTest(Stamped(s.workers[i].req, tm)));
    case PutInterrupted(i, tm) => AtTestsUpdate(s.workers, i, AtTest(Stamped(s.workers[i].req, tm)));
    case _ =>
  }

  function BusyIn(c: Config, s: State, es: seq<Event>): (n: nat)
    decreases |es|
  {
    if es == [] || !Enabled(c, s, es[0]) then 0
    else (if Busy(s, es[0]) then 1 else 0) + BusyIn(c, Next(c, s, es[0]), es[1..])
  }

  /** However the steps interleave, in a run without arrivals the workers together take at most twice the
      weight and one step each, the server's hand-overs included. */
  lemma {:induction false} BusyRun(c: Config, s: State, es: seq<Event>, t: State)
    requires Run(c, s, es, t) && Quiet(c, s, es)
    ensures BusyIn(c, s, es) + Potential(t) <= Potential(s) <= 2 * Weight(s) + |s.workers|
    decreases |es|
  {
    if es != [] {
      PotentialStep(c, s, es[0]);
      BusyRun(c, Next(c, s, es[0]), es[1..], t);
    }
  }

  /** Turns in STATE_SEND. */
  function SendTurns(c: Config, s: State, es: seq<Event>): (n: nat)
    decreases |es|
  {
    if es == [] || !Enabled(c, s, es[0]) then 0
    else (if es[0].Turn? && s.phase == Send then 1 else 0) + SendTurns(c, Next(c, s, es[0]), es[1..])
  }

  /** No worker can take a step. */
  predicate Blocked(c: Config, s: State) {
    forall i :: 0 <= i < |s.workers| ==>
      !Enabled(c, s, Test(i)) && !Enabled(c, s, Take(i)) && !Enabled(c, s, Put(i, 0))
  }

  /** A part of a run without arrivals that ignores nobody: the server passes through STATE_SEND, and
      something is done or no worker can do anything. */
  predicate FairRound(c: Config, s: State, es: seq<Event>, t: State) {
    && Run(c, s, es, t) && Quiet(c, s, es) && t.running
    && SendTurns(c, s, es) > 0 && (BusyIn(c, s, es) > 0 || Blocked(c, t))
  }

  /** Rounds between consecutive states. */
  predicate FairRun(c: Config, states: seq<State>, rounds: seq<seq<Event>>) {
    && |states| == |rounds| + 1
    && forall r :: 0 <= r < |rounds| ==> FairRound(c, states[r], rounds[r], states[r + 1])
  }

  lemma {:induction false} IdleRun(c: Config, s: State, es: seq<Event>, t: State)
    requires Run(c, s, es, t) && Quiet(c, s, es) && BusyIn(c, s, es) == 0
    ensures t.workers == s.workers && t.q0 == s.q0 && t.q1 == s.q1
    ensures s.phase != ResponseHandler || SendTurns(c, s, es) > 0 ==> t.phase != ResponseHandler
    ensures SendTurns(c, s, es) > 0 ==> First(s.q1) == |s.q1|
    decreases |es|
  {
    if es != [] {
      IdleRun(c, Next(c, s, es[0]), es[1..], t);
    }
  }

  /** A running server keeps its workers. */
  lemma {:induction false} RunLive(c: Config, s: State, es: seq<Event>, t: State)
    requires s.started && Run(c, s, es, t) && t.running
    ensures s.running && t.started && |t.workers| == |s.workers|
    ensures forall i :: 0 <= i < |t.workers| ==> (t.workers[i].Exited? <==> s.workers[i].Exited?)
    decreases |es|
  {
    if es != [] {
      RunLive(c, Next(c, s, es[0]), es[1..], t);
    }
  }

  /** With nobody able to act and nothing found to send, nothing is inside. */
  lemma {:induction false} BlockedIsEmpty(c: Config, s: State)
    requires WellFormed(c, s) && s.running && Live(s.workers) && c.cap1 > 0
    requires Blocked(c, s) && s.phase != ResponseHandler && First(s.q1) == |s.q1|
    ensures Weight(s) == 0
  {
    HeadIsFirst(s.q0);
    HeadIsFirst(s.q1);
    if HoldingCount(s.workers) > 0 {
      var i := SomeHolder(s.workers);
      assert Enabled(c, s, Put(i, 0));
      assert false;
    }
    var i :| 0 <= i < |s.workers| && !s.workers[i].Exited?;
    NoHolder(s.workers, i);
    assert !Enabled(c, s, Test(i)) && !Enabled(c, s, Take(i));
  }

  lemma {:induction false} FairRoundLowers(c: Config, s: State, es: seq<Event>, t: State)
    requires Inv(c, s) && s.running && Live(s.workers) && c.cap1 > 0 && FairRound(c, s, es, t)
    ensures Inv(c, t) && Live(t.workers)
    ensures Weight(t) == 0 || Potential(t) < Potential(s)
  {
    RunInv(c, s, es, t);
    RunLive(c, s, es, t);
    var i :| 0 <= i < |s.workers| && !s.workers[i].Exited?;
    assert !t.workers[i].Exited?;
    BusyRun(c, s, es, t);
    if BusyIn(c, s, es) == 0 {
      IdleRun(c, s, es, t);
      BlockedIsEmpty(c, t);
    }
  }

  /** Every arrival-free run of a server with a live worker, however its steps interleave, has emptied it
      after as many fair rounds as its potential. */
  lemma {:induction false} DrainsFairly(c: Config, states: seq<State>, rounds: seq<seq<Event>>)
    requires FairRun(c, states, rounds) && Inv(c, states[0]) && states[0].running && Live(states[0].workers)
    requires c.cap1 > 0 && (|rounds| >= Potential(states[0]) || Weight(states[0]) == 0)
    ensures var t := states[|rounds|];
            Weight(t) == 0 && forall a :: t.received[a] == Count(t.replies, a) + t.dropped[a]
    decreases |rounds|
  {
    if rounds == [] {
      Quiescent(c, states[0]);
    } else {
      var s, es, t := states[0], rounds[0], states[1];
      assert FairRound(c, s, es, t);
      FairRoundLowers(c, s, es, t);
      WeightRun(c, s, es, t);
      assert FairRun(c, states[1..], rounds[1..]) by {
        forall r | 0 <= r < |rounds| - 1
          ensures FairRound(c, states[1..][r], rounds[1..][r], states[1..][r + 1])
        {
          assert FairRound(c, states[r + 1], rounds[r + 1], states[r + 2]);
        }
      }
      DrainsFairly(c, states[1..], rounds[1..]);
    }
  }

  // ----- the program -----

  /** The globals of the program, with the loop bodies of `server` and `worker` as methods. */
  class Program {
    const config: Config
    var state: Phase
    var started: bool
    var running: bool
    var inTurn: bool
    var req: Message
    var queue0: seq<Message>
    var queue1: seq<Message>
    var workers: seq<Worker>
    ghost var received: multiset<Addr>
    ghost var replies: seq<Message>
    ghost var dropped: multiset<Addr>
    ghost var spurious: multiset<Addr>
    ghost var lost: multiset<Addr>

    ghost function Snapshot(): (s: State)
      reads this
    {
      State(state, started, running, inTurn, req, queue0, queue1, workers, received, replies, dropped, spurious, lost)
    }

    /** `stacks` is what the workers' uninitialised `req` variables hold. */
    constructor (config: Config, stacks: seq<Message>)
      ensures Init(Snapshot()) && |workers| == |stacks| && this.config == config
    {
      this.config := config;
      state, started, running, inTurn := Recv, false, false, false;
      req := Message(0, 0, Datagram(0));
      queue0, queue1 := [], [];
      workers := seq(|stacks|, i requires 0 <= i < |stacks| => AtTest(stacks[i]));
      received, replies, dropped := multiset{}, [], multiset{};
      spurious, lost := multiset{}, multiset{};
    }

    /** `server` sets `running` and `state` after creating the workers. */
    method StartServer()
      requires !started && Inv(config, Snapshot())
      modifies this
      ensures Inv(config, Snapshot()) && Snapshot() == Next(config, old(Snapshot()), Start)
    {
      StepInv(config, Snapshot(), Start);
      running, started := true, true;
      state := Recv;
    }

    /** The loop test of `server`. */
    method ServerTest()
      requires running && !inTurn && Inv(config, Snapshot())
      modifies this
      ensures Inv(config, Snapshot()) && Snapshot() == Next(config, old(Snapshot()), Enter)
    {
      StepInv(config, Snapshot(), Enter);
      inTurn := true;
    }

    /** STATE_RECV. */
    method RecvTurn(input: Input)
      requires state == Recv
      modifies this
      ensures Snapshot() == RecvStep(old(Snapshot()), input)
    {
      ghost var s := Snapshot();
      match input {
        case WouldBlock =>
          state := Send;
          assert Snapshot() == s.(phase := Send);
        case Failed =>
          running := false;
          assert Snapshot() == s.(running := false);
        case Arrival(addr, data) =>
          req := req.(addr := addr, body := Datagram(data));
          received := received + multiset{addr};
          state := ResponseHandler;
      }
    }

    /** STATE_SEND. */
    method SendTurn()
      requires state == Send
      modifies this
      ensures Snapshot() == SendStep(old(Snapshot()))
    {
      var i := First(queue1);
      if i == |queue1| {
        state := Recv;
        return;
      }
      req := queue1[i];
      queue1 := Without(queue1, i);
      replies := replies + [req];
      state := Recv;
    }

    /** STATE_RESPONSE_HANDLER. */
    method HandlerTurn()
      requires state == ResponseHandler
      modifies this
      ensures Snapshot() == HandlerStep(config, old(Snapshot()))
    {
      req := req.(kind := 1);
      if |queue0| < config.cap0 {
        queue0 := queue0 + [req];
      } else {
        dropped := dropped + multiset{req.addr};
      }
      state := Recv;
    }

    /** The switch. */
    method SwitchTurn(input: Input)
      modifies this
      ensures Snapshot() == TurnStep(config, old(Snapshot()), input)
    {
      match state {
        case Recv => RecvTurn(input);
        case Send => SendTurn();
        case ResponseHandler => HandlerTurn();
      }
    }

    /** The body of the `while (running)` loop of `server`; a signal may have arrived since the test. */
    method ServerTurn(input: Input)
      requires inTurn && Inv(config, Snapshot())
      modifies this
      ensures Inv(config, Snapshot())
      ensures Snapshot() == Next(config, old(Snapshot()), Turn(input))
    {
      ghost var s := Snapshot();
      SwitchTurn(input);
      inTurn := false;
      TurnInv(config, s, input, Snapshot());
    }

    /** `signal_handler` for SIGINT and SIGTERM, besides interrupting blocked calls. */
    method SignalHandler()
      requires Inv(config, Snapshot())
      modifies this
      ensures Inv(config, Snapshot()) && Snapshot() == Next(config, old(Snapshot()), Signal)
    {
      StepInv(config, Snapshot(), Signal);
      running := false;
    }

    /** A worker's loop test. */
    method WorkerTest(i: nat)
      requires Enabled(config, Snapshot(), Test(i)) && Inv(config, Snapshot())
      modifies this
      ensures Inv(config, Snapshot()) && Snapshot() == Next(config, old(Snapshot()), Test(i))
    {
      StepInv(config, Snapshot(), Test(i));
      workers := workers[i := if running then InReceive(workers[i].last) else Exited];
    }

    /** The blocking receive: a message, or, interrupted by a signal, the old contents of `req`. */
    method Receive(i: nat, interrupted: bool)
      requires i < |workers| && workers[i].InReceive? && (!interrupted ==> First(queue0) < |queue0|)
      modifies this
      ensures Snapshot() ==
              if interrupted then TakeInterruptedStep(old(Snapshot()), i) else TakeStep(old(Snapshot()), i)
    {
      if interrupted {
        spurious := spurious + multiset{workers[i].last.addr};
        workers := workers[i := Holding(workers[i].last)];
      } else {
        var k := First(queue0);
        workers := workers[i := Holding(queue0[k])];
        queue0 := Without(queue0, k);
      }
    }

    method WorkerTake(i: nat, interrupted: bool)
      requires Enabled(config, Snapshot(), if interrupted then TakeInterrupted(i) else Take(i))
      requires Inv(config, Snapshot())
      modifies this
      ensures Inv(config, Snapshot())
      ensures Snapshot() == Next(config, old(Snapshot()), if interrupted then TakeInterrupted(i) else Take(i))
    {
      StepInv(config, Snapshot(), if interrupted then TakeInterrupted(i) else Take(i));
      Receive(i, interrupted);
    }

    /** Stamping, and the blocking send, which fails for a kind below 1 or when interrupted. */
    method StampAndSend(i: nat, tm: int, interrupted: bool)
      requires i < |workers| && workers[i].Holding?
      modifies this
      ensures Snapshot() ==
              if interrupted then PutInterruptedStep(old(Snapshot()), i, tm) else PutStep(old(Snapshot()), i, tm)
    {
      var m := workers[i].req.(body := TimeText(tm));
      if interrupted || m.kind < 1 {
        lost := lost + multiset{m.addr};
      } else {
        queue1 := queue1 + [m];
      }
      workers := workers[i := AtTest(m)];
    }

    method WorkerPut(i: nat, tm: int, interrupted: bool)
      requires Enabled(config, Snapshot(), if interrupted then PutInterrupted(i, tm) else Put(i, tm))
      requires Inv(config, Snapshot())
      modifies this
      ensures Inv(config, Snapshot())
      ensures Snapshot() == Next(config, old(Snapshot()), if interrupted then PutInterrupted(i, tm) else Put(i, tm))
    {
      StepInv(config, Snapshot(), if interrupted then PutInterrupted(i, tm) else Put(i, tm));
      StampAndSend(i, tm, interrupted);
    }
  }
}
