/** How often a message can still be delivered, and when the listener is held up. */
module SseTheorems {
  import opened Schema
  import opened Sse

  lemma RunSnoc(s: State, steps: seq<Step>, step: Step)
    ensures Run(s, steps + [step]) == Apply(Run(s, steps), step)
    ensures Legal(s, steps + [step]) <==> Legal(s, steps) && Enabled(Run(s, steps), step)
  {
  }

  lemma OneMore(steps: seq<Step>, s: State, step: Step, s': State)
    requires Legal(INIT, steps) && Run(INIT, steps) == s && Enabled(s, step) && Apply(s, step) == s'
    ensures Legal(INIT, steps + [step]) && Run(INIT, steps + [step]) == s'
  {
  }

  /** Connected, publishing with the local put done, and with the message off the wire. */
  function Sent(user: int, text: string): State {
    State(map[user := 0], [Queue(user, [], 0)], [Published(user, text, true, false)], [Message(Channel(user), 0)], Listening, multiset{})
  }

  function PutOnce(user: int, text: string): State {
    Sent(user, text).(queues := [Queue(user, [0], 0)], published := [Published(user, text, true, true)], puts := multiset{0})
  }

  lemma ConnectsAndSends(user: int, text: string)
    ensures Apply(Apply(INIT, Connect(user)), BeginPublish(user, text, true)) == Sent(user, text)
  {
  }

  lemma PutsLocally(user: int, text: string)
    ensures Apply(Sent(user, text), EndPublish(0)) == PutOnce(user, text)
  {
    var none: seq<nat> := [];
    assert none + [0] == [0] && multiset{} + multiset{0} == multiset{0};
    assert [Queue(user, none, 0)][0 := Queue(user, [0], 0)] == [Queue(user, [0], 0)];
    assert [Published(user, text, true, false)][0 := Published(user, text, true, true)] == [Published(user, text, true, true)];
  }

  lemma TakesOffWire(user: int, text: string)
    ensures Apply(PutOnce(user, text), Receive) == PutOnce(user, text).(wire := [], listener := Waiting(0, 0))
  {
    ChannelRoundTrip(user);
    assert PutOnce(user, text).wire[1..] == [];
  }

  /** The bound is reached: a connected user gets a message twice when it goes through Redis too. */
  lemma TwiceIsReachable(user: int, text: string) returns (steps: seq<Step>)
    ensures Legal(INIT, steps)
    ensures Run(INIT, steps).queues == [Queue(user, [0, 0], 0)] && Run(INIT, steps).published == [Published(user, text, true, true)]
  {
    ConnectsAndSends(user, text);
    PutsLocally(user, text);
    TakesOffWire(user, text);
    var received := PutOnce(user, text).(wire := [], listener := Waiting(0, 0));
    steps := [];
    OneMore(steps, INIT, Connect(user), Apply(INIT, Connect(user)));
    steps := steps + [Connect(user)];
    OneMore(steps, Apply(INIT, Connect(user)), BeginPublish(user, text, true), Sent(user, text));
    steps := steps + [BeginPublish(user, text, true)];
    OneMore(steps, Sent(user, text), EndPublish(0), PutOnce(user, text));
    steps := steps + [EndPublish(0)];
    OneMore(steps, PutOnce(user, text), Receive, received);
    steps := steps + [Receive];
    OneMore(steps, received, Relay, Apply(received, Relay));
    steps := steps + [Relay];
    assert [0] + [0] == [0, 0];
  }

  ghost predicate Stalled(s: State, q: nat, listener: Listener) {
    s.listener == listener && q < |s.queues| && Full(s.queues[q])
  }

  lemma StepStaysStalled(s: State, step: Step, q: nat)
    requires s.listener.Waiting? && s.listener.queue == q && Stalled(s, q, s.listener)
    requires Enabled(s, step) && step != Consume(q)
    ensures Stalled(Apply(s, step), q, s.listener) && s.wire <= Apply(s, step).wire
  {
  }

  /**
   One full queue holds up everybody: while its reader does not read, whatever else happens, the listener
   goes on waiting and every message on the wire stays there.
   */
  lemma {:induction false} FullQueueStallsListener(s: State, steps: seq<Step>, q: nat)
    requires s.listener.Waiting? && s.listener.queue == q && Stalled(s, q, s.listener)
    requires Legal(s, steps) && Consume(q) !in steps
    ensures Stalled(Run(s, steps), q, s.listener) && s.wire <= Run(s, steps).wire
  {
    if steps != [] {
      FullQueueStallsListener(s, steps[..|steps| - 1], q);
      StepStaysStalled(Run(s, steps[..|steps| - 1]), steps[|steps| - 1], q);
    }
  }

  lemma {:induction false} RunCons(s: State, step: Step, rest: seq<Step>)
    ensures Run(s, [step] + rest) == Run(Apply(s, step), rest)
    ensures Legal(s, [step] + rest) <==> Enabled(s, step) && Legal(Apply(s, step), rest)
  {
    if rest == [] {
      RunSnoc(s, [], step);
      assert [] + [step] == [step] && [step] + rest == [step];
    } else {
      var front, last := rest[..|rest| - 1], rest[|rest| - 1];
      RunCons(s, step, front);
      assert [step] + rest == ([step] + front) + [last] && rest == front + [last];
      RunSnoc(s, [step] + front, last);
      RunSnoc(Apply(s, step), front, last);
    }
  }

  lemma {:induction false} RunKeepsInv(s: State, steps: seq<Step>)
    requires Inv(s) && Legal(s, steps)
    ensures Inv(Run(s, steps))
  {
    if steps != [] {
      RunKeepsInv(s, steps[..|steps| - 1]);
      StepKeepsInv(Run(s, steps[..|steps| - 1]), steps[|steps| - 1]);
    }
  }

  // ---- how often a message can still be put ---------------------------------------------------------

  /** All the puts a message has had and may still get. */
  function Prospect(s: State, id: nat): nat { s.puts[id] + Chances(s, id) }

  lemma {:induction false} ProspectNeverRises(s: State, steps: seq<Step>, id: nat)
    requires Inv(s) && id < |s.published| && Legal(s, steps)
    ensures id < |Run(s, steps).published| && Prospect(Run(s, steps), id) <= Prospect(s, id)
  {
    if steps != [] {
      var front, last := steps[..|steps| - 1], steps[|steps| - 1];
      ProspectNeverRises(s, front, id);
      RunKeepsInv(s, front);
      StepSpendsChances(Run(s, front), last, id);
    }
  }

  function QueueOf(s: State, user: int): nat { if user in s.connections then s.connections[user] else 0 }

  predicate RoomFor(s: State, q: nat) { q < |s.queues| && !Full(s.queues[q]) }

  /** The next step of a continuation that gives message `id` every put it can still get. */
  function GoodStep(s: State, id: nat): Step
    requires id < |s.published| && Chances(s, id) > 0
  {
    var user := s.published[id].user;
    if !s.published[id].done then
      if user !in s.connections then Connect(user)
      else if !RoomFor(s, QueueOf(s, user)) then Consume(QueueOf(s, user))
      else EndPublish(id)
    else if s.listener.Waiting? then
      if !RoomFor(s, s.listener.queue) then Consume(s.listener.queue) else Relay
    else if user !in s.connections then Connect(user)
    else Receive
  }

  /** What is in the way of the step that counts. */
  function Obstacles(s: State, id: nat): nat
    requires id < |s.published|
  {
    var user := s.published[id].user;
    if !s.published[id].done then
      if user !in s.connections then 2 else if !RoomFor(s, QueueOf(s, user)) then 1 else 0
    else if s.listener.Waiting? then if !RoomFor(s, s.listener.queue) then 1 else 0
    else if user !in s.connections then 1 else 0
  }

  lemma GoodStepEnabled(s: State, id: nat)
    requires Inv(s) && id < |s.published| && Chances(s, id) > 0
    ensures Enabled(s, GoodStep(s, id))
  {
    var user := s.published[id].user;
    assert user in s.connections ==> s.queues[s.connections[user]] in s.queues;
  }

  function Undone(s: State, id: nat): nat
    requires id < |s.published|
  {
    if s.published[id].done then 0 else 1
  }

  function Busy(s: State): nat { if s.listener.Waiting? then 1 else 0 }

  predicate Nearer(s: State, s': State, id: nat)
    requires id < |s.published|
  {
    && id < |s'.published|
    && (Undone(s', id) < Undone(s, id) ||
        (Undone(s', id) == Undone(s, id) &&
         (|s'.wire| < |s.wire| ||
          (|s'.wire| == |s.wire| &&
           (Busy(s') < Busy(s) || (Busy(s') == Busy(s) && Obstacles(s', id) < Obstacles(s, id)))))))
  }

  predicate SameWire(s: State, s': State) { s'.wire == s.wire && s'.listener == s.listener && s'.published == s.published }

  lemma SameWireSameChances(s: State, s': State, id: nat)
    requires SameWire(s, s')
    ensures Chances(s', id) == Chances(s, id)
  {
    assert OnWire(s', id) <==> OnWire(s, id);
  }

  lemma ConnectHelps(s: State, id: nat)
    requires Inv(s) && id < |s.published| && s.published[id].user !in s.connections
    requires !s.published[id].done || s.listener.Listening?
    ensures var s' := Apply(s, Connect(s.published[id].user)); Prospect(s', id) == Prospect(s, id) && Nearer(s, s', id)
  {
    var s' := Apply(s, Connect(s.published[id].user));
    SameWireSameChances(s, s', id);
    assert RoomFor(s', |s.queues|);
  }

  lemma ConsumeMakesRoom(s: State, q: nat)
    requires q < |s.queues| && QueueFits(s, s.queues[q]) && Full(s.queues[q])
    ensures SameWire(s, Apply(s, Consume(q))) && RoomFor(Apply(s, Consume(q)), q)
    ensures Apply(s, Consume(q)).puts == s.puts && Apply(s, Consume(q)).connections == s.connections
  {
  }

  lemma ConsumeHelps(s: State, q: nat, id: nat)
    requires Inv(s) && id < |s.published| && q < |s.queues| && Full(s.queues[q])
    requires if s.published[id].done then s.listener.Waiting? && q == s.listener.queue
             else s.published[id].user in s.connections && q == s.connections[s.published[id].user]
    ensures var s' := Apply(s, Consume(q)); Prospect(s', id) == Prospect(s, id) && Nearer(s, s', id)
  {
    assert s.queues[q] in s.queues;
    ConsumeMakesRoom(s, q);
    FewerObstacles(s, Apply(s, Consume(q)), q, id);
  }

  lemma FewerObstacles(s: State, s': State, q: nat, id: nat)
    requires id < |s.published| && SameWire(s, s') && s'.puts == s.puts && s'.connections == s.connections
    requires !RoomFor(s, q) && RoomFor(s', q)
    requires if s.published[id].done then s.listener.Waiting? && q == s.listener.queue
             else s.published[id].user in s.connections && q == s.connections[s.published[id].user]
    ensures Prospect(s', id) == Prospect(s, id) && Nearer(s, s', id)
  {
    SameWireSameChances(s, s', id);
  }

  lemma EndHelps(s: State, id: nat)
    requires Inv(s) && id < |s.published| && !s.published[id].done
    requires s.published[id].user in s.connections && RoomFor(s, s.connections[s.published[id].user])
    ensures var s' := Apply(s, EndPublish(id)); Prospect(s', id) == Prospect(s, id) && Nearer(s, s', id)
  {
    var s' := Apply(s, EndPublish(id));
    assert OnWire(s', id) <==> OnWire(s, id);
  }

  lemma RelayHelps(s: State, id: nat)
    requires Inv(s) && id < |s.published| && s.published[id].done && s.listener.Waiting? && RoomFor(s, s.listener.queue)
    ensures var s' := Apply(s, Relay); Prospect(s', id) == Prospect(s, id) && Nearer(s, s', id)
  {
    var s' := Apply(s, Relay);
    assert OnWire(s', id) <==> OnWire(s, id);
  }

  lemma ReceiveTakes(s: State)
    requires Inv(s) && s.listener.Listening? && s.wire != []
    ensures var s', m := Apply(s, Receive), s.wire[0];
      && m.id < |s.published| && s'.wire == s.wire[1..] && s'.published == s.published && s'.puts == s.puts
      && (s.published[m.id].user in s.connections ==> s'.listener.Waiting? && s'.listener.id == m.id)
      && (s.published[m.id].user !in s.connections ==> s'.listener.Listening?)
  {
    assert s.wire[0] in s.wire;
    ChannelRoundTrip(s.published[s.wire[0].id].user);
  }

  lemma ReceiveHelps(s: State, id: nat)
    requires Inv(s) && id < |s.published| && s.published[id].done && s.listener.Listening? && s.wire != []
    requires s.published[id].user in s.connections
    ensures var s' := Apply(s, Receive); Prospect(s', id) == Prospect(s, id) && Nearer(s, s', id)
  {
    ReceiveTakes(s);
    OnWireAfterReceive(s, id);
  }

  lemma GoodStepHelps(s: State, id: nat)
    requires Inv(s) && id < |s.published| && Chances(s, id) > 0
    ensures Enabled(s, GoodStep(s, id))
    ensures var s' := Apply(s, GoodStep(s, id)); Prospect(s', id) == Prospect(s, id) && Nearer(s, s', id)
  {
    GoodStepEnabled(s, id);
    match GoodStep(s, id)
    case Connect(_) => ConnectHelps(s, id);
    case Consume(q) => ConsumeHelps(s, q, id);
    case EndPublish(_) => EndHelps(s, id);
    case Relay => RelayHelps(s, id);
    case Receive => ReceiveHelps(s, id);
  }

  /** From every reachable state some continuation gives a message every put it can still get. */
  lemma {:induction false} ProspectIsReached(s: State, id: nat) returns (steps: seq<Step>)
    requires Inv(s) && id < |s.published|
    ensures Legal(s, steps) && Run(s, steps).puts[id] == Prospect(s, id)
    decreases Undone(s, id), |s.wire|, Busy(s), Obstacles(s, id)
  {
    if Chances(s, id) == 0 {
      steps := [];
    } else {
      var step := GoodStep(s, id);
      GoodStepHelps(s, id);
      StepKeepsInv(s, step);
      var rest := ProspectIsReached(Apply(s, step), id);
      RunCons(s, step, rest);
      steps := [step] + rest;
    }
  }

  ghost predicate CanBePut(s: State, id: nat, times: nat) { exists steps :: Legal(s, steps) && Run(s, steps).puts[id] >= times }

  /** How often a message can come to be put, from any reachable state: what it has had and its chances, exactly. */
  lemma CanBePutIff(front: seq<Step>, id: nat, times: nat)
    requires Legal(INIT, front) && id < |Run(INIT, front).published|
    ensures CanBePut(Run(INIT, front), id, times) <==> times <= Prospect(Run(INIT, front), id)
  {
    var s := Run(INIT, front);
    EveryRunKeepsInv(front);
    var best := ProspectIsReached(s, id);
    forall steps | Legal(s, steps) ensures Run(s, steps).puts[id] <= Prospect(s, id) {
      ProspectNeverRises(s, steps, id);
    }
  }

  /** A message just published can be put twice if it goes through Redis, and once if not. */
  lemma NewMessage(s: State, user: int, text: string, redis: bool)
    requires Inv(s)
    ensures Prospect(Apply(s, BeginPublish(user, text, redis)), |s.published|) == if redis then 2 else 1
  {
    OnWireAfterBegin(s, user, text, redis, |s.published|);
  }

  // ---- when the listener is held up -----------------------------------------------------------------

  /** Without a read of the queue it waits on, the listener can come to move on exactly if that queue has room now. */
  lemma MovesOnIffRoom(front: seq<Step>)
    requires Legal(INIT, front) && Run(INIT, front).listener.Waiting?
    ensures var s := Run(INIT, front);
      var q := s.listener.queue;
      && q < |s.queues|
      && ((exists steps :: Legal(s, steps) && Consume(q) !in steps && Run(s, steps).listener != s.listener) <==> !Full(s.queues[q]))
  {
    EveryRunKeepsInv(front);
    var s := Run(INIT, front);
    var q := s.listener.queue;
    if Full(s.queues[q]) {
      forall steps | Legal(s, steps) && Consume(q) !in steps ensures Run(s, steps).listener == s.listener {
        FullQueueStallsListener(s, steps, q);
      }
    } else {
      RunSnoc(s, [], Relay);
      assert [] + [Relay] == [Relay] && Consume(q) !in [Relay];
    }
  }

  /** `n` messages published for a connected user who reads nothing. */
  predicate Filled(s: State, user: int, n: nat) {
    && s.connections == map[user := 0] && |s.queues| == 1 && s.queues[0].owner == user
    && s.queues[0].read == 0 && |s.queues[0].history| == n
    && |s.published| == n && s.wire == [] && s.listener.Listening?
  }

  lemma OneMoreFilled(s: State, user: int, n: nat)
    requires Filled(s, user, n) && n < MAX_SIZE
    ensures Enabled(Apply(s, BeginPublish(user, "", false)), EndPublish(n))
    ensures Filled(Apply(Apply(s, BeginPublish(user, "", false)), EndPublish(n)), user, n + 1)
  {
  }

  lemma {:induction false} FilledIsReachable(user: int, n: nat) returns (steps: seq<Step>)
    requires n <= MAX_SIZE
    ensures Legal(INIT, steps) && Filled(Run(INIT, steps), user, n)
  {
    if n == 0 {
      OneMore([], INIT, Connect(user), Apply(INIT, Connect(user)));
      steps := [] + [Connect(user)];
    } else {
      steps := FilledIsReachable(user, n - 1);
      var s := Run(INIT, steps);
      var begun := Apply(s, BeginPublish(user, "", false));
      OneMoreFilled(s, user, n - 1);
      OneMore(steps, s, BeginPublish(user, "", false), begun);
      OneMore(steps + [BeginPublish(user, "", false)], begun, EndPublish(n - 1), Apply(begun, EndPublish(n - 1)));
      steps := steps + [BeginPublish(user, "", false)] + [EndPublish(n - 1)];
    }
  }

  lemma FilledThenSent(s: State, user: int)
    requires Filled(s, user, MAX_SIZE)
    ensures var sent := Apply(s, BeginPublish(user, "", true));
      && Enabled(sent, Receive) && Stalled(Apply(sent, Receive), 0, Waiting(0, MAX_SIZE))
      && Apply(sent, Receive).queues[0].owner == user && |Items(Apply(sent, Receive).queues[0])| == 100
  {
    ChannelRoundTrip(user);
  }

  /** The hold-up does happen, to every user who reads nothing: a hundred messages, and one more through Redis. */
  lemma StallIsReachable(user: int) returns (steps: seq<Step>)
    ensures Legal(INIT, steps) && Stalled(Run(INIT, steps), 0, Waiting(0, MAX_SIZE))
    ensures Run(INIT, steps).queues[0].owner == user && |Items(Run(INIT, steps).queues[0])| == 100
  {
    steps := FilledIsReachable(user, MAX_SIZE);
    var s := Run(INIT, steps);
    var sent := Apply(s, BeginPublish(user, "", true));
    FilledThenSent(s, user);
    OneMore(steps, s, BeginPublish(user, "", true), sent);
    OneMore(steps + [BeginPublish(user, "", true)], sent, Receive, Apply(sent, Receive));
    steps := steps + [BeginPublish(user, "", true)] + [Receive];
  }

  // ---- first in, first out ----------------------------------------------------------------------------

  /** A queue only ever grows at its end, by one message, and is only ever read on. */
  predicate Grows(before: Queue, after: Queue) {
    && before.history <= after.history && |after.history| <= |before.history| + 1
    && before.read <= after.read && after.owner == before.owner
  }

  lemma StepGrowsQueues(s: State, step: Step, q: nat)
    requires Enabled(s, step) && q < |s.queues|
    ensures q < |Apply(s, step).queues| && Grows(s.queues[q], Apply(s, step).queues[q])
  {
  }

  lemma {:induction false} RunGrowsQueues(s: State, steps: seq<Step>, q: nat)
    requires Legal(s, steps) && q < |s.queues|
    ensures q < |Run(s, steps).queues| && s.queues[q].history <= Run(s, steps).queues[q].history
    ensures s.queues[q].read <= Run(s, steps).queues[q].read && Run(s, steps).queues[q].owner == s.queues[q].owner
  {
    if steps != [] {
      var front, last := steps[..|steps| - 1], steps[|steps| - 1];
      RunGrowsQueues(s, front, q);
      StepGrowsQueues(Run(s, front), last, q);
    }
  }

  /** The queue a step puts a message into, if any. */
  function Target(s: State, step: Step): Option<(nat, nat)> {
    match step
    case EndPublish(id) =>
      if id < |s.published| && s.published[id].user in s.connections && |Waits(s, s.connections[s.published[id].user])| < 100
        then Some((s.connections[s.published[id].user], id)) else None
    case Relay => if s.listener.Waiting? then Some((s.listener.queue, s.listener.id)) else None
    case _ => None
  }

  /** The messages waiting in a queue, oldest first. */
  function Waits(s: State, q: nat): seq<nat> { if q < |s.queues| then Items(s.queues[q]) else [] }

  lemma ReadOn(q: Queue, q': Queue)
    requires q.read < |q.history| && q' == q.(read := q.read + 1)
    ensures Items(q) == [q.history[q.read]] + Items(q')
  {
  }

  lemma PutAtEnd(q: Queue, q': Queue, id: nat)
    requires q.read <= |q.history| && q' == q.(history := q.history + [id])
    ensures Items(q') == Items(q) + [id]
  {
  }

  /**
   What waits in a queue after a step: a message put comes last, a read takes the oldest, and nothing else
   touches it.
   */
  lemma StepKeepsOrder(s: State, step: Step, q: nat)
    requires Inv(s) && Enabled(s, step) && q < |s.queues|
    ensures var waits, waits' := Waits(s, q), Waits(Apply(s, step), q);
      if step == Consume(q) then waits == [waits[0]] + waits'
      else if Target(s, step).Some? && Target(s, step).value.0 == q then waits' == waits + [Target(s, step).value.1]
      else waits' == waits
  {
    assert s.queues[q] in s.queues;
    var q', id := Apply(s, step).queues[q], if Target(s, step).Some? then Target(s, step).value.1 else 0;
    if step == Consume(q) {
      ReadOn(s.queues[q], q');
    } else if Target(s, step).Some? && Target(s, step).value.0 == q {
      PutAtEnd(s.queues[q], q', id);
    } else {
      assert q' == s.queues[q];
    }
  }

  /** Redis is a queue too: a publish adds at the end, the listener takes the first, and nothing else touches it. */
  lemma StepKeepsWireOrder(s: State, step: Step)
    requires Enabled(s, step)
    ensures match step
      case BeginPublish(user, _, true) => Apply(s, step).wire == s.wire + [Message(Channel(user), |s.published|)]
      case Receive => s.wire == [s.wire[0]] + Apply(s, step).wire
      case _ => Apply(s, step).wire == s.wire
  {
  }

  /** Who is connected, and to which queue: connecting again changes nothing, a new connection starts empty. */
  lemma ConnectionsChange(s: State, step: Step, user: int)
    requires Inv(s) && Enabled(s, step)
    ensures var s' := Apply(s, step);
      match step
      case Connect(u) =>
        && (u in s.connections ==> s' == s)
        && (u !in s.connections ==> u in s'.connections && s'.connections[u] == |s.queues| && Waits(s', |s.queues|) == [])
        && (user != u ==> Lookup(s'.connections, user) == Lookup(s.connections, user))
      case Disconnect(u) => Lookup(s'.connections, user) == if user == u then None else Lookup(s.connections, user)
      case _ => s'.connections == s.connections
  {
  }

  /** A message off the wire waits for its user's queue, and is dropped exactly if the user is not connected. */
  lemma ReceiveGoesToOwner(s: State)
    requires Inv(s) && Enabled(s, Receive)
    ensures var s', m := Apply(s, Receive), s.wire[0];
      && m.id < |s.published|
      && s'.listener == (if s.published[m.id].user in s.connections then Waiting(s.connections[s.published[m.id].user], m.id) else Listening)
      && s'.published == s.published && s'.queues == s.queues
  {
    assert s.wire[0] in s.wire;
    ChannelRoundTrip(s.published[s.wire[0].id].user);
  }
}
