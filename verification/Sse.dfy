/**
 Server-sent events: bounded queues per connected user, filled by the publisher itself and by a
 listener on Redis channels. A publish has two steps, with other work in between.
 */
module Sse {
  import opened Delimited
  import opened Schema

  // ---- channels -------------------------------------------------------------------------------

  function Digit(d: nat): char
    requires d < 10
  {
    (0x30 + d) as char
  }

  function NatText(n: nat): string {
    if n < 10 then [Digit(n)] else NatText(n / 10) + [Digit(n % 10)]
  }

  function IntText(x: int): string { if x < 0 then ['-'] + NatText(-x) else NatText(x) }

  function ParseNat(s: string): Option<nat> {
    if s == "" then None
    else
      var c, front := s[|s| - 1], s[..|s| - 1];
      if !('0' <= c <= '9') then None
      else if front == "" then Some(c as int - 0x30)
      else
        var rest := ParseNat(front);
        if rest.None? then None else Some(rest.value * 10 + c as int - 0x30)
  }

  function Signed(n: Option<nat>, sign: int): Option<int> { if n.None? then None else Some(sign * n.value) }

  function ParseInt(s: string): Option<int> {
    if s != "" && s[0] == '-' then Signed(ParseNat(s[1..]), -1) else Signed(ParseNat(s), 1)
  }

  function Channel(user: int): string { "sse:user:" + IntText(user) }

  /** The listener's reading of a channel name: the number after the last ':'. */
  function UserOf(channel: string): Option<int> {
    var parts := Split(channel, ':');
    ParseInt(parts[|parts| - 1])
  }

  lemma {:induction false} NatRoundTrip(n: nat)
    ensures ParseNat(NatText(n)) == Some(n)
    ensures NatText(n) != "" && forall c | c in NatText(n) :: '0' <= c <= '9'
  {
    if n >= 10 {
      NatRoundTrip(n / 10);
      assert NatText(n)[..|NatText(n)| - 1] == NatText(n / 10);
    }
  }

  lemma SignRoundTrip(text: string, n: nat)
    requires ParseNat(text) == Some(n) && text != "" && forall c | c in text :: '0' <= c <= '9'
    ensures ParseInt(['-'] + text) == Some(0 - n) && ParseInt(text) == Some(n)
    ensures ':' !in text
  {
    assert (['-'] + text)[1..] == text;
    assert text[0] in text;
  }

  lemma IntRoundTrip(x: int)
    ensures ParseInt(IntText(x)) == Some(x) && ':' !in IntText(x)
  {
    var n := if x < 0 then -x else x;
    NatRoundTrip(n);
    SignRoundTrip(NatText(n), n);
  }

  /** A user's channel is read back as that user. */
  lemma ChannelRoundTrip(user: int)
    ensures UserOf(Channel(user)) == Some(user)
  {
    var parts := ["sse", "user", IntText(user)];
    IntRoundTrip(user);
    assert Join(parts[2..], ':') == IntText(user);
    assert Join(parts[1..], ':') == "user:" + IntText(user);
    assert Join(parts, ':') == "sse:" + ("user:" + IntText(user));
    assert Channel(user) == Join(parts, ':');
    SplitJoin(parts, ':');
  }

  // ---- the machine ----------------------------------------------------------------------------

  const MAX_SIZE := 100

  /** Everything ever put into a queue, oldest first, and how much of it has been read. */
  datatype Queue = Queue(owner: int, history: seq<nat>, read: nat)

  function Items(q: Queue): seq<nat> { if q.read <= |q.history| then q.history[q.read..] else [] }

  predicate Full(q: Queue) { |Items(q)| >= MAX_SIZE }

  /** One publish call. A message is its number; `done` says that the local half is over, `redis` that it went out. */
  datatype Published = Published(user: int, text: string, redis: bool, done: bool)

  datatype Message = Message(channel: string, id: nat)

  /** The listener, between messages or waiting for room in a queue. */
  datatype Listener = Listening | Waiting(queue: nat, id: nat)

  /** Readers keep the queue they were given, also after a disconnect; `puts` counts every put of a message. */
  datatype State = State(
    connections: map<int, nat>,
    queues: seq<Queue>,
    published: seq<Published>,
    wire: seq<Message>,
    listener: Listener,
    puts: multiset<nat>)

  const INIT := State(map[], [], [], [], Listening, multiset{})

  datatype Step =
    | Connect(user: int)
    | Disconnect(user: int)
    | BeginPublish(user: int, text: string, redis: bool)
    | EndPublish(id: nat)
    | Receive
    | Relay
    | Consume(queue: nat)

  function PutInto(s: State, q: nat, id: nat): State
    requires q < |s.queues|
  {
    s.(queues := s.queues[q := s.queues[q].(history := s.queues[q].history + [id])], puts := s.puts + multiset{id})
  }

  predicate Enabled(s: State, step: Step) {
    match step
    case EndPublish(id) => id < |s.published| && !s.published[id].done
    case Receive => s.listener.Listening? && s.wire != []
    case Relay => s.listener.Waiting? && s.listener.queue < |s.queues| && !Full(s.queues[s.listener.queue])
    case Consume(q) => q < |s.queues| && Items(s.queues[q]) != []
    case _ => true
  }

  function Apply(s: State, step: Step): State {
    match step
    case Connect(user) =>
      if user in s.connections then s
      else s.(connections := s.connections[user := |s.queues|], queues := s.queues + [Queue(user, [], 0)])
    case Disconnect(user) => s.(connections := s.connections - {user})
    case BeginPublish(user, text, redis) =>
      s.(published := s.published + [Published(user, text, redis, false)],
         wire := if redis then s.wire + [Message(Channel(user), |s.published|)] else s.wire)
    case EndPublish(id) =>
      if id >= |s.published| then s
      else
        var user := s.published[id].user;
        var s' := s.(published := s.published[id := s.published[id].(done := true)]);
        if user in s.connections && s.connections[user] < |s.queues| && !Full(s.queues[s.connections[user]])
          then PutInto(s', s.connections[user], id) else s'
    case Receive =>
      if s.wire == [] then s
      else
        var user := UserOf(s.wire[0].channel);
        s.(wire := s.wire[1..],
           listener := if user.Some? && user.value in s.connections then Waiting(s.connections[user.value], s.wire[0].id) else Listening)
    case Relay =>
      if s.listener.Waiting? && s.listener.queue < |s.queues| then PutInto(s, s.listener.queue, s.listener.id).(listener := Listening) else s
    case Consume(q) => if q < |s.queues| then s.(queues := s.queues[q := s.queues[q].(read := s.queues[q].read + 1)]) else s
  }

  function Run(s: State, steps: seq<Step>): State {
    if steps == [] then s else Apply(Run(s, steps[..|steps| - 1]), steps[|steps| - 1])
  }

  predicate Legal(s: State, steps: seq<Step>) {
    steps == [] || (Legal(s, steps[..|steps| - 1]) && Enabled(Run(s, steps[..|steps| - 1]), steps[|steps| - 1]))
  }

  // ---- what every step keeps ------------------------------------------------------------------

  predicate OwnMessages(s: State, q: Queue) {
    forall id | id in q.history :: id < |s.published| && s.published[id].user == q.owner
  }

  predicate QueueFits(s: State, q: Queue) { |Items(q)| <= MAX_SIZE && q.read <= |q.history| && OwnMessages(s, q) }

  predicate QueuesFit(s: State) {
    && (forall q | q in s.queues :: QueueFits(s, q))
    && (forall u | u in s.connections :: s.connections[u] < |s.queues| && s.queues[s.connections[u]].owner == u)
  }

  predicate OnWire(s: State, id: nat) { exists i :: 0 <= i < |s.wire| && s.wire[i].id == id }

  /** The wire carries published messages on their users' channels, each once. */
  predicate WireFits(s: State) {
    && (forall m | m in s.wire :: m.id < |s.published| && m.channel == Channel(s.published[m.id].user))
    && (forall i, j | 0 <= i < j < |s.wire| :: s.wire[i].id != s.wire[j].id)
    && (s.listener.Waiting? ==>
          && s.listener.id < |s.published| && !OnWire(s, s.listener.id)
          && s.listener.queue < |s.queues| && s.queues[s.listener.queue].owner == s.published[s.listener.id].user)
  }

  predicate Relaying(s: State, id: nat) { OnWire(s, id) || (s.listener.Waiting? && s.listener.id == id) }

  /** How often a message may still be put: by its publisher, and by the listener. */
  function Chances(s: State, id: nat): nat {
    (if id < |s.published| && !s.published[id].done then 1 else 0) +
    (if Relaying(s, id) then 1 else 0)
  }

  /** How often a message can be put at all. */
  function Most(p: Published): nat { if p.redis then 2 else 1 }

  ghost predicate PutsFit(s: State) {
    && (forall id: nat | id < |s.published| :: s.puts[id] + Chances(s, id) <= Most(s.published[id]))
    && (forall id: nat | id >= |s.published| :: s.puts[id] == 0)
    && (forall q | q in s.queues :: multiset(q.history) <= s.puts)
  }

  ghost predicate Inv(s: State) { QueuesFit(s) && WireFits(s) && PutsFit(s) }

  /** The new state of the one queue a step changes or adds, if any. */
  function Touched(s: State, step: Step): int {
    match step
    case Connect(user) => if user in s.connections then -1 else |s.queues|
    case EndPublish(id) =>
      if id < |s.published| && s.published[id].user in s.connections then s.connections[s.published[id].user] else -1
    case Relay => if s.listener.Waiting? then s.listener.queue else -1
    case Consume(q) => q
    case _ => -1
  }

  lemma OthersUntouched(s: State, step: Step, i: nat)
    requires i < |Apply(s, step).queues| && i != Touched(s, step)
    ensures i < |s.queues| && Apply(s, step).queues[i] == s.queues[i]
  {
  }

  lemma TouchedFits(s: State, step: Step)
    requires QueuesFit(s) && WireFits(s) && Enabled(s, step) && 0 <= Touched(s, step) < |Apply(s, step).queues|
    ensures QueueFits(Apply(s, step), Apply(s, step).queues[Touched(s, step)])
  {
    var i := Touched(s, step);
    if i < |s.queues| {
      assert s.queues[i] in s.queues;
    }
  }

  lemma StepKeepsQueues(s: State, step: Step)
    requires QueuesFit(s) && WireFits(s) && Enabled(s, step)
    ensures QueuesFit(Apply(s, step))
  {
    var s' := Apply(s, step);
    forall i: nat | i < |s'.queues| ensures QueueFits(s', s'.queues[i]) {
      if i == Touched(s, step) {
        TouchedFits(s, step);
      } else {
        OthersUntouched(s, step, i);
        assert s.queues[i] in s.queues;
      }
    }
    ConnectionsFit(s, step);
  }

  lemma ConnectionsFit(s: State, step: Step)
    requires QueuesFit(s)
    ensures forall u | u in Apply(s, step).connections ::
      Apply(s, step).connections[u] < |Apply(s, step).queues| && Apply(s, step).queues[Apply(s, step).connections[u]].owner == u
  {
  }

  lemma ReceiveKeepsWire(s: State)
    requires QueuesFit(s) && WireFits(s) && Enabled(s, Receive)
    ensures WireFits(Apply(s, Receive))
  {
    var m := s.wire[0];
    assert m in s.wire;
    ChannelRoundTrip(s.published[m.id].user);
    assert forall i | 0 <= i < |s.wire[1..]| :: s.wire[1..][i] == s.wire[i + 1] && s.wire[i + 1].id != m.id;
  }

  lemma BeginKeepsWire(s: State, user: int, text: string, redis: bool)
    requires WireFits(s)
    ensures WireFits(Apply(s, BeginPublish(user, text, redis)))
  {
  }

  lemma StepKeepsWire(s: State, step: Step)
    requires QueuesFit(s) && WireFits(s) && Enabled(s, step)
    ensures WireFits(Apply(s, step))
  {
    match step
    case BeginPublish(user, text, redis) => BeginKeepsWire(s, user, text, redis);
    case Receive => ReceiveKeepsWire(s);
    case _ => assert forall id :: OnWire(Apply(s, step), id) <==> OnWire(s, id);
  }

  lemma OnWireAfterBegin(s: State, user: int, text: string, redis: bool, id: nat)
    requires WireFits(s)
    ensures OnWire(Apply(s, BeginPublish(user, text, redis)), id) <==> OnWire(s, id) || (redis && id == |s.published|)
    ensures OnWire(s, id) ==> id < |s.published|
  {
    var s' := Apply(s, BeginPublish(user, text, redis));
    if i :| 0 <= i < |s.wire| && s.wire[i].id == id {
      assert s'.wire[i].id == id && s.wire[i] in s.wire;
    }
    if redis {
      assert s'.wire[|s.wire|].id == |s.published|;
    }
  }

  lemma OnWireAfterReceive(s: State, id: nat)
    requires WireFits(s) && s.wire != []
    ensures OnWire(Apply(s, Receive), id) <==> OnWire(s, id) && id != s.wire[0].id
    ensures OnWire(s, s.wire[0].id)
  {
  }

  predicate Spends(s: State, s': State, id: nat) {
    && (id < |s.published| ==>
          id < |s'.published| && s'.puts[id] + Chances(s', id) <= s.puts[id] + Chances(s, id) && Most(s'.published[id]) == Most(s.published[id]))
    && (|s.published| <= id < |s'.published| ==> s'.puts[id] + Chances(s', id) <= Most(s'.published[id]))
    && (id >= |s'.published| ==> s'.puts[id] == 0)
  }

  lemma BeginSpendsChances(s: State, user: int, text: string, redis: bool, id: nat)
    requires WireFits(s) && PutsFit(s)
    ensures Spends(s, Apply(s, BeginPublish(user, text, redis)), id)
  {
    OnWireAfterBegin(s, user, text, redis, id);
  }

  lemma ReceiveSpendsChances(s: State, id: nat)
    requires WireFits(s) && PutsFit(s) && Enabled(s, Receive)
    ensures Spends(s, Apply(s, Receive), id)
  {
    OnWireAfterReceive(s, id);
  }

  lemma PutSpendsChances(s: State, step: Step, id: nat)
    requires WireFits(s) && PutsFit(s) && Enabled(s, step) && (step.EndPublish? || step.Relay?)
    ensures Spends(s, Apply(s, step), id)
  {
    assert OnWire(Apply(s, step), id) <==> OnWire(s, id);
  }

  /** No step adds to what a message has had and may still get. */
  lemma StepSpendsChances(s: State, step: Step, id: nat)
    requires QueuesFit(s) && WireFits(s) && PutsFit(s) && Enabled(s, step)
    ensures Spends(s, Apply(s, step), id)
  {
    match step
    case BeginPublish(user, text, redis) => BeginSpendsChances(s, user, text, redis, id);
    case Receive => ReceiveSpendsChances(s, id);
    case EndPublish(_) => PutSpendsChances(s, step, id);
    case Relay => PutSpendsChances(s, step, id);
    case _ => assert OnWire(Apply(s, step), id) <==> OnWire(s, id);
  }

  lemma TouchedHistory(s: State, step: Step)
    requires PutsFit(s) && 0 <= Touched(s, step) < |Apply(s, step).queues|
    ensures multiset(Apply(s, step).queues[Touched(s, step)].history) <= Apply(s, step).puts
  {
    var i := Touched(s, step);
    if i < |s.queues| {
      assert s.queues[i] in s.queues;
    }
  }

  lemma StepKeepsHistories(s: State, step: Step)
    requires PutsFit(s)
    ensures forall q | q in Apply(s, step).queues :: multiset(q.history) <= Apply(s, step).puts
  {
    var s' := Apply(s, step);
    assert s.puts <= s'.puts;
    forall i: nat | i < |s'.queues| ensures multiset(s'.queues[i].history) <= s'.puts {
      if i == Touched(s, step) {
        TouchedHistory(s, step);
      } else {
        OthersUntouched(s, step, i);
        assert s.queues[i] in s.queues;
      }
    }
  }

  lemma StepKeepsInv(s: State, step: Step)
    requires Inv(s) && Enabled(s, step)
    ensures Inv(Apply(s, step))
  {
    StepKeepsQueues(s, step);
    StepKeepsWire(s, step);
    StepKeepsHistories(s, step);
    var s' := Apply(s, step);
    forall id: nat ensures (id < |s'.published| ==> s'.puts[id] + Chances(s', id) <= Most(s'.published[id])) && (id >= |s'.published| ==> s'.puts[id] == 0) {
      StepSpendsChances(s, step, id);
    }
  }

  lemma {:induction false} EveryRunKeepsInv(steps: seq<Step>)
    requires Legal(INIT, steps)
    ensures Inv(Run(INIT, steps))
  {
    if steps != [] {
      EveryRunKeepsInv(steps[..|steps| - 1]);
      StepKeepsInv(Run(INIT, steps[..|steps| - 1]), steps[|steps| - 1]);
    }
  }

  /**
   In every interleaving: a queue waits with at most 100 messages, has only ever held messages published
   for its user, and over all queues together a message is put at most twice, and at most once if it was
   published without Redis.
   */
  lemma EveryRunDelivers(steps: seq<Step>, q: nat, id: nat)
    requires Legal(INIT, steps) && q < |Run(INIT, steps).queues|
    ensures var s := Run(INIT, steps);
      && |Items(s.queues[q])| <= MAX_SIZE
      && (id in s.queues[q].history ==> id < |s.published| && s.published[id].user == s.queues[q].owner)
      && multiset(s.queues[q].history)[id] <= s.puts[id] <= (if id < |s.published| then Most(s.published[id]) else 0)
  {
    EveryRunKeepsInv(steps);
    var s := Run(INIT, steps);
    assert s.queues[q] in s.queues;
  }

  // ---- the manager ----------------------------------------------------------------------------

  class SSEManager {
    var connections: map<int, nat>
    var queues: seq<Queue>
    var published: seq<Published>
    var wire: seq<Message>
    var listener: Listener
    ghost var puts: multiset<nat>
    const redis: bool

    constructor (redis: bool)
      ensures View() == INIT && this.redis == redis
    {
      connections, queues, published, wire := map[], [], [], [];
      listener, puts, this.redis := Listening, multiset{}, redis;
    }

    ghost function View(): State
      reads this
    {
      State(connections, queues, published, wire, listener, puts)
    }

    method PutNowait(q: nat, id: nat) returns (ok: bool)
      requires q < |queues|
      modifies `queues, `puts
      ensures ok <==> !Full(old(queues)[q])
      ensures View() == if ok then PutInto(old(View()), q, id) else old(View())
    {
      ok := !Full(queues[q]);
      if ok {
        queues := queues[q := queues[q].(history := queues[q].history + [id])];
        puts := puts + multiset{id};
      }
    }

    method Connect(user: int) returns (queue: nat)
      requires QueuesFit(View())
      modifies this
      ensures View() == Apply(old(View()), Step.Connect(user))
      ensures queue < |queues| && queues[queue].owner == user
    {
      if user !in connections {
        connections := connections[user := |queues|];
        queues := queues + [Queue(user, [], 0)];
      }
      return connections[user];
    }

    method Disconnect(user: int)
      modifies this
      ensures View() == Apply(old(View()), Step.Disconnect(user))
    {
      if user in connections {
        connections := connections - {user};
      }
    }

    /** Up to the wait for Redis. */
    method BeginPublish(user: int, text: string) returns (id: nat)
      modifies this
      ensures View() == Apply(old(View()), Step.BeginPublish(user, text, redis)) && id == |old(published)|
    {
      id := |published|;
      published := published + [Published(user, text, redis, false)];
      if redis {
        wire := wire + [Message(Channel(user), id)];
      }
    }

    /** The rest: false exactly if the user is connected and the queue is full. */
    method EndPublish(id: nat) returns (result: bool)
      requires id < |published| && QueuesFit(View())
      modifies this
      ensures View() == Apply(old(View()), Step.EndPublish(id))
      ensures !result <==> old(published)[id].user in old(connections) && Full(old(queues)[old(connections)[old(published)[id].user]])
    {
      var user := published[id].user;
      published := published[id := published[id].(done := true)];
      result := true;
      if user in connections {
        result := PutNowait(connections[user], id);
      }
    }

    /** One message from the listener's channel. */
    method ReceiveMessage()
      requires Enabled(View(), Receive)
      modifies this
      ensures View() == Apply(old(View()), Receive)
    {
      var m := wire[0];
      wire := wire[1..];
      var user := UserOf(m.channel);
      if user.Some? && user.value in connections {
        listener := Waiting(connections[user.value], m.id);
      }
    }

    method RelayMessage()
      requires Enabled(View(), Relay)
      modifies this
      ensures View() == Apply(old(View()), Relay)
    {
      var ok := PutNowait(listener.queue, listener.id);
      listener := Listening;
    }
  }
}
