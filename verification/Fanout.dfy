/**
Bounded WebSocket fan-out: one drop-oldest queue and one sender task per client
(backend/app/websocket_manager.py).

A run interleaves connects, disconnects, broadcasts and the two halves of every sender's loop (take a
frame from the queue; the send finishes or fails) in any order.
*/
module Fanout {
  import opened Prelude

  type Socket = int
  type Frame = string

  /** Frames buffered per client. */
  const CLIENT_QUEUE_MAXSIZE: nat := 256

  datatype Sender = Waiting | Sending(frame: Frame)

  /** The manager's fields, with the dropped-frames counter and the connections gauge. */
  datatype Hub = Hub(
    active: seq<Socket>, queues: map<Socket, seq<Frame>>, senders: map<Socket, Sender>,
    drops: nat, gauge: int)

  function QueueOf(hub: Hub, ws: Socket): seq<Frame> {
    if ws in hub.queues then hub.queues[ws] else []
  }

  /** put_nowait, after dropping the oldest frame if there is no room. */
  function Pushed(q: seq<Frame>, f: Frame): seq<Frame> {
    if |q| < CLIENT_QUEUE_MAXSIZE then q + [f] else q[1..] + [f]
  }

  function Overflowing(hub: Hub): set<Socket> {
    set ws | ws in hub.queues && ws in hub.active && |hub.queues[ws]| >= CLIENT_QUEUE_MAXSIZE
  }

  function Enqueued(hub: Hub, f: Frame): Hub {
    hub.(queues := map ws | ws in hub.queues :: if ws in hub.active then Pushed(hub.queues[ws], f) else hub.queues[ws],
         drops := hub.drops + |Overflowing(hub)|)
  }

  /** list.remove: the first occurrence. */
  function Without(s: seq<Socket>, x: Socket): seq<Socket> {
    if s == [] then [] else if s[0] == x then s[1..] else [s[0]] + Without(s[1..], x)
  }

  function Joined(hub: Hub, ws: Socket): Hub {
    Hub(hub.active + [ws], hub.queues[ws := []], hub.senders[ws := Waiting], hub.drops, hub.gauge + 1)
  }

  function Left(hub: Hub, ws: Socket): Hub {
    Hub(Without(hub.active, ws), hub.queues - {ws}, hub.senders - {ws}, hub.drops,
        if ws in hub.active then hub.gauge - 1 else hub.gauge)
  }

  predicate CanTake(hub: Hub, ws: Socket) {
    ws in hub.senders && hub.senders[ws].Waiting? && ws in hub.queues && hub.queues[ws] != []
  }

  function Taken(hub: Hub, ws: Socket): Hub
    requires CanTake(hub, ws)
  {
    hub.(queues := hub.queues[ws := hub.queues[ws][1..]], senders := hub.senders[ws := Sending(hub.queues[ws][0])])
  }

  predicate InFlight(hub: Hub, ws: Socket) {
    ws in hub.senders && hub.senders[ws].Sending?
  }

  function Delivered(hub: Hub, ws: Socket): Hub
    requires InFlight(hub, ws)
  {
    hub.(senders := hub.senders[ws := Waiting])
  }

  // ----- runs

  /**
  What happened to one client: the frames broadcast while it was connected, the positions in that log
  which were sent, are being sent and were dropped, and the frames as they went over the wire.
  */
  datatype History = History(log: seq<Frame>, sent: seq<nat>, flying: Option<nat>, lost: seq<nat>, wire: seq<Frame>)

  /** `accepted` lists every socket ever accepted: a second accept raises. */
  datatype World = World(hub: Hub, accepted: seq<Socket>, past: map<Socket, History>)

  datatype Step =
    | Connect(ws: Socket)
    | Disconnect(ws: Socket)
    | Broadcast(frame: Frame)
    | Take(ws: Socket)
    | Sent(ws: Socket)
    | Failed(ws: Socket)

  /** The position of the oldest queued frame. */
  function Oldest(h: History, q: seq<Frame>): nat {
    if |q| <= |h.log| then |h.log| - |q| else 0
  }

  function Noted(h: History, q: seq<Frame>, f: Frame): History {
    h.(log := h.log + [f], lost := if |q| >= CLIENT_QUEUE_MAXSIZE then h.lost + [Oldest(h, q)] else h.lost)
  }

  function Launched(h: History, q: seq<Frame>): History {
    h.(flying := Some(Oldest(h, q)))
  }

  function Landed(h: History, f: Frame): History {
    h.(sent := if h.flying.Some? then h.sent + [h.flying.value] else h.sent, flying := None, wire := h.wire + [f])
  }

  function Apply(w: World, s: Step): World {
    match s
    case Connect(ws) =>
      if ws in w.accepted then w
      else World(Joined(w.hub, ws), w.accepted + [ws], w.past[ws := History([], [], None, [], [])])
    case Disconnect(ws) => w.(hub := Left(w.hub, ws))
    case Broadcast(f) =>
      w.(hub := Enqueued(w.hub, f),
         past := map ws | ws in w.past ::
                   if ws in w.hub.active then Noted(w.past[ws], QueueOf(w.hub, ws), f) else w.past[ws])
    case Take(ws) =>
      if !CanTake(w.hub, ws) || ws !in w.past then w
      else w.(hub := Taken(w.hub, ws), past := w.past[ws := Launched(w.past[ws], w.hub.queues[ws])])
    case Sent(ws) =>
      if !InFlight(w.hub, ws) || ws !in w.past then w
      else w.(hub := Delivered(w.hub, ws), past := w.past[ws := Landed(w.past[ws], w.hub.senders[ws].frame)])
    case Failed(ws) => if InFlight(w.hub, ws) then w.(hub := Left(w.hub, ws)) else w
  }

  function Init(): World {
    World(Hub([], map[], map[], 0, 0), [], map[])
  }

  function Run(steps: seq<Step>): World {
    if steps == [] then Init() else Apply(Run(steps[..|steps| - 1]), steps[|steps| - 1])
  }

  // ----- the registry

  /** The queue and sender maps have exactly the active connections as keys, each listed once. */
  ghost predicate Registered(hub: Hub) {
    && Distinct(hub.active)
    && hub.queues.Keys == Elements(hub.active)
    && hub.senders.Keys == Elements(hub.active)
    && hub.gauge == |hub.active|
  }

  lemma {:induction false} WithoutRemoves(s: seq<Socket>, x: Socket)
    requires Distinct(s)
    ensures Distinct(Without(s, x)) && Elements(Without(s, x)) == Elements(s) - {x}
    ensures |Without(s, x)| == if x in s then |s| - 1 else |s|
  {
    if s != [] {
      var rest := s[1..];
      assert s == [s[0]] + rest;
      assert forall i :: 0 <= i < |rest| ==> rest[i] == s[i + 1];
      assert s[0] !in rest;
      assert x in s <==> x == s[0] || x in rest;
      if s[0] == x {
        assert Elements(rest) == Elements(s) - {x};
      } else {
        WithoutRemoves(rest, x);
        assert s[0] !in Elements(Without(rest, x));
        assert Elements(Without(s, x)) == {s[0]} + Elements(Without(rest, x));
        assert Elements(s) == {s[0]} + Elements(rest);
      }
    }
  }

  lemma LeftRegistered(hub: Hub, ws: Socket)
    requires Registered(hub)
    ensures Registered(Left(hub, ws)) && Elements(Left(hub, ws).active) == Elements(hub.active) - {ws}
  {
    WithoutRemoves(hub.active, ws);
  }

  lemma JoinedRegistered(hub: Hub, ws: Socket)
    requires Registered(hub) && ws !in hub.active
    ensures Registered(Joined(hub, ws))
  {
    assert Elements(hub.active + [ws]) == Elements(hub.active) + {ws};
  }

  // ----- one client's account

  ghost predicate Ascending(ks: seq<nat>, limit: nat) {
    && (forall i, j :: 0 <= i < j < |ks| ==> ks[i] < ks[j])
    && (forall i :: 0 <= i < |ks| ==> ks[i] < limit)
  }

  /** The positions handed to the socket, finished or not. */
  function Handed(h: History): seq<nat> {
    h.sent + if h.flying.Some? then [h.flying.value] else []
  }

  /** Frames go out in broadcast order, and one is dropped only when 256 newer ones were broadcast. */
  ghost predicate InOrder(h: History) {
    && Ascending(Handed(h), |h.log|)
    && |h.wire| == |h.sent| && (forall i :: 0 <= i < |h.sent| ==> h.sent[i] < |h.log| && h.wire[i] == h.log[h.sent[i]])
    && Ascending(h.lost, |h.log|) && (forall i :: 0 <= i < |h.lost| ==> h.lost[i] + CLIENT_QUEUE_MAXSIZE < |h.log|)
  }

  /** Every frame before the queued suffix was handed over or dropped, and none both. */
  ghost predicate Partitioned(h: History, oldest: nat) {
    && (forall k :: k in Handed(h) || k in h.lost ==> k < oldest)
    && (forall k: nat :: k < oldest ==> k in Handed(h) || k in h.lost)
    && (forall k :: k in Handed(h) ==> k !in h.lost)
    && |Handed(h)| + |h.lost| == oldest
  }

  ghost predicate Accounts(h: History, q: seq<Frame>, s: Sender) {
    && |q| <= CLIENT_QUEUE_MAXSIZE && |q| <= |h.log| && q == h.log[|h.log| - |q|..]
    && Partitioned(h, |h.log| - |q|)
    && (s.Sending? <==> h.flying.Some?)
    && (s.Sending? ==> h.flying.value < |h.log| && s.frame == h.log[h.flying.value])
  }

  lemma AppendAscending(ks: seq<nat>, k: nat, limit: nat)
    requires Ascending(ks, k) && k < limit
    ensures Ascending(ks + [k], limit)
  { }

  lemma PushInOrder(h: History, q: seq<Frame>, s: Sender, f: Frame)
    requires InOrder(h) && Accounts(h, q, s)
    ensures InOrder(Noted(h, q, f))
  {
    var h' := Noted(h, q, f);
    assert Handed(h') == Handed(h);
    assert forall i :: 0 <= i < |h.log| ==> h'.log[i] == h.log[i];
    if |q| >= CLIENT_QUEUE_MAXSIZE {
      var k := |h.log| - CLIENT_QUEUE_MAXSIZE;
      assert h'.lost == h.lost + [k];
      forall i | 0 <= i < |h.lost| ensures h.lost[i] < k { assert h.lost[i] in h.lost; }
    }
  }

  lemma PushAccounts(h: History, q: seq<Frame>, s: Sender, f: Frame)
    requires Accounts(h, q, s)
    ensures Accounts(Noted(h, q, f), Pushed(q, f), s)
  {
    hide Partitioned;
    var h' := Noted(h, q, f);
    assert Handed(h') == Handed(h);
    PushPartitioned(h, q, f);
    var q' := Pushed(q, f);
    assert q' == h'.log[|h'.log| - |q'|..];
  }

  lemma PushPartitioned(h: History, q: seq<Frame>, f: Frame)
    requires |q| <= CLIENT_QUEUE_MAXSIZE && |q| <= |h.log| && Partitioned(h, |h.log| - |q|)
    ensures Partitioned(Noted(h, q, f), |h.log| + 1 - |Pushed(q, f)|)
  {
    var h' := Noted(h, q, f);
    assert Handed(h') == Handed(h);
    if |q| >= CLIENT_QUEUE_MAXSIZE {
      var k := |h.log| - |q|;
      assert h'.lost == h.lost + [k];
      assert k !in Handed(h);
    }
  }

  lemma TakeAccounts(h: History, q: seq<Frame>)
    requires InOrder(h) && Accounts(h, q, Waiting) && q != []
    ensures InOrder(Launched(h, q)) && Accounts(Launched(h, q), q[1..], Sending(q[0]))
  {
    var h' := Launched(h, q);
    var k := |h.log| - |q|;
    assert Handed(h) == h.sent;
    assert Handed(h') == Handed(h) + [k];
    forall i | 0 <= i < |h.sent| ensures h.sent[i] < k { assert h.sent[i] in Handed(h); }
    AppendAscending(h.sent, k, |h.log|);
    assert q[1..] == h.log[k + 1..] && q[0] == h.log[k];
    TakePartitioned(h, h', k);
  }

  lemma TakePartitioned(h: History, h': History, k: nat)
    requires Partitioned(h, k) && Handed(h') == Handed(h) + [k] && h'.lost == h.lost
    ensures Partitioned(h', k + 1)
  { }

  lemma LandAccounts(h: History, q: seq<Frame>, f: Frame)
    requires InOrder(h) && Accounts(h, q, Sending(f))
    ensures InOrder(Landed(h, f)) && Accounts(Landed(h, f), q, Waiting)
  {
    assert Handed(Landed(h, f)) == Handed(h);
  }

  // ----- every run

  function LostBy(past: map<Socket, History>, ws: Socket): nat {
    if ws in past then |past[ws].lost| else 0
  }

  function TotalLost(past: map<Socket, History>, sockets: seq<Socket>): nat {
    if sockets == [] then 0 else LostBy(past, sockets[0]) + TotalLost(past, sockets[1..])
  }

  ghost predicate Named(w: World) {
    && Distinct(w.accepted) && w.past.Keys == Elements(w.accepted)
    && Elements(w.hub.active) <= Elements(w.accepted)
  }

  ghost predicate Clients(w: World) {
    && (forall ws :: ws in w.past ==> InOrder(w.past[ws]))
    && (forall ws :: ws in w.past && ws in w.hub.queues && ws in w.hub.senders ==>
          Accounts(w.past[ws], w.hub.queues[ws], w.hub.senders[ws]))
  }

  ghost predicate Counted(w: World) {
    w.hub.drops == TotalLost(w.past, w.accepted)
  }

  ghost predicate Inv(w: World) {
    Registered(w.hub) && Named(w) && Clients(w) && Counted(w)
  }

  lemma {:induction false} TotalSame(past: map<Socket, History>, past': map<Socket, History>, sockets: seq<Socket>)
    requires forall ws :: ws in sockets ==> LostBy(past', ws) == LostBy(past, ws)
    ensures TotalLost(past', sockets) == TotalLost(past, sockets)
  {
    hide LostBy;
    if sockets != [] { TotalSame(past, past', sockets[1..]); }
  }

  lemma {:induction false} TotalMore(past: map<Socket, History>, past': map<Socket, History>, sockets: seq<Socket>,
      more: set<Socket>)
    requires Distinct(sockets)
    requires forall ws :: ws in sockets ==> LostBy(past', ws) == LostBy(past, ws) + if ws in more then 1 else 0
    ensures TotalLost(past', sockets) == TotalLost(past, sockets) + |more * Elements(sockets)|
  {
    hide LostBy;
    if sockets != [] {
      var ws, rest := sockets[0], sockets[1..];
      assert forall i :: 0 <= i < |rest| ==> rest[i] == sockets[i + 1];
      TotalMore(past, past', rest, more);
      CountHead(sockets, more);
    }
  }

  lemma CountHead(sockets: seq<Socket>, more: set<Socket>)
    requires sockets != [] && Distinct(sockets)
    ensures |more * Elements(sockets)| == |more * Elements(sockets[1..])| + if sockets[0] in more then 1 else 0
  {
    var ws, rest := sockets[0], sockets[1..];
    assert forall i :: 0 <= i < |rest| ==> rest[i] == sockets[i + 1];
    assert ws !in rest;
    if ws in more { assert more * Elements(sockets) == more * Elements(rest) + {ws}; }
    else { assert more * Elements(sockets) == more * Elements(rest); }
  }

  lemma {:induction false} TotalAppend(past: map<Socket, History>, sockets: seq<Socket>, ws: Socket)
    ensures TotalLost(past, sockets + [ws]) == TotalLost(past, sockets) + LostBy(past, ws)
  {
    if sockets != [] {
      assert (sockets + [ws])[1..] == sockets[1..] + [ws];
      TotalAppend(past, sockets[1..], ws);
    } else {
      assert sockets + [ws] == [ws];
    }
  }

  lemma ConnectKeeps(w: World, ws: Socket)
    requires Inv(w)
    ensures Inv(Apply(w, Connect(ws)))
  {
    hide Registered, InOrder, Accounts, TotalLost;
    var w' := Apply(w, Connect(ws));
    if ws !in w.accepted {
      assert ws !in Elements(w.accepted);
      assert ws !in w.hub.active by { assert ws !in Elements(w.hub.active); }
      JoinedRegistered(w.hub, ws);
      assert Elements(w'.accepted) == Elements(w.accepted) + {ws};
      assert Elements(w'.hub.active) == Elements(w.hub.active) + {ws};
      TotalSame(w.past, w'.past, w.accepted);
      TotalAppend(w'.past, w.accepted, ws);
      NewClient();
    }
  }

  lemma NewClient()
    ensures InOrder(History([], [], None, [], [])) && Accounts(History([], [], None, [], []), [], Waiting)
  { }

  lemma LeaveKeeps(w: World, ws: Socket)
    requires Inv(w)
    ensures Inv(w.(hub := Left(w.hub, ws)))
  {
    hide Registered, InOrder, Accounts, TotalLost, Without;
    LeftRegistered(w.hub, ws);
  }

  lemma BroadcastClients(w: World, f: Frame)
    requires Registered(w.hub) && Clients(w)
    ensures Clients(Apply(w, Broadcast(f)))
  {
    hide InOrder, Accounts, Pushed;
    var w' := Apply(w, Broadcast(f));
    forall ws | ws in w.past && ws in w.hub.active
      ensures InOrder(w'.past[ws]) && Accounts(w'.past[ws], w'.hub.queues[ws], w'.hub.senders[ws])
    {
      assert ws in Elements(w.hub.active);
      PushInOrder(w.past[ws], w.hub.queues[ws], w.hub.senders[ws], f);
      PushAccounts(w.past[ws], w.hub.queues[ws], w.hub.senders[ws], f);
    }
    assert forall ws :: ws in w.hub.queues ==> ws in w.hub.active;
  }

  lemma BroadcastCounted(w: World, f: Frame)
    requires Registered(w.hub) && Named(w) && Counted(w)
    ensures Named(Apply(w, Broadcast(f))) && Counted(Apply(w, Broadcast(f)))
  {
    hide Distinct, TotalLost;
    var w' := Apply(w, Broadcast(f));
    var over := Overflowing(w.hub);
    forall ws | ws in w.accepted ensures LostBy(w'.past, ws) == LostBy(w.past, ws) + if ws in over then 1 else 0 {
      assert ws in Elements(w.accepted);
      assert ws in w.hub.active <==> ws in Elements(w.hub.active);
    }
    TotalMore(w.past, w'.past, w.accepted, over);
    forall ws | ws in over ensures ws in Elements(w.accepted) { assert ws in Elements(w.hub.active); }
    assert over * Elements(w.accepted) == over;
  }

  lemma BroadcastRegistered(hub: Hub, f: Frame)
    requires Registered(hub)
    ensures Registered(Enqueued(hub, f))
  { }

  lemma TakeKeeps(w: World, ws: Socket)
    requires Inv(w)
    ensures Inv(Apply(w, Take(ws)))
  {
    hide InOrder, Accounts, TotalLost;
    if CanTake(w.hub, ws) && ws in w.past {
      TakeAccounts(w.past[ws], w.hub.queues[ws]);
      TotalSame(w.past, Apply(w, Take(ws)).past, w.accepted);
    }
  }

  lemma SentKeeps(w: World, ws: Socket)
    requires Inv(w)
    ensures Inv(Apply(w, Sent(ws)))
  {
    hide InOrder, Accounts, TotalLost;
    if InFlight(w.hub, ws) && ws in w.past {
      LandAccounts(w.past[ws], w.hub.queues[ws], w.hub.senders[ws].frame);
      TotalSame(w.past, Apply(w, Sent(ws)).past, w.accepted);
    }
  }

  lemma StepKeeps(w: World, s: Step)
    requires Inv(w)
    ensures Inv(Apply(w, s))
  {
    match s
    case Connect(ws) => ConnectKeeps(w, ws);
    case Disconnect(ws) => LeaveKeeps(w, ws);
    case Broadcast(f) => BroadcastRegistered(w.hub, f); BroadcastClients(w, f); BroadcastCounted(w, f);
    case Take(ws) => TakeKeeps(w, ws);
    case Sent(ws) => SentKeeps(w, ws);
    case Failed(ws) => LeaveKeeps(w, ws);
  }

  lemma {:induction false} RunKeeps(steps: seq<Step>)
    ensures Inv(Run(steps))
  {
    hide Inv, Apply;
    if steps == [] { InitInv(); }
    else {
      RunKeeps(steps[..|steps| - 1]);
      StepKeeps(Run(steps[..|steps| - 1]), steps[|steps| - 1]);
    }
  }

  lemma InitInv()
    ensures Inv(Init())
  { }

  // ----- the theorems

  /** In every reachable state the maps and the gauge agree with the list of connections. */
  lemma RegistryAgrees(steps: seq<Step>)
    ensures Registered(Run(steps).hub)
  {
    hide Run, Registered;
    RunKeeps(steps);
  }

  /**
  The account of a connected client: its queue is a suffix of what was broadcast since it connected,
  everything before that was handed to the socket in order or dropped, and nothing is unaccounted for.
  */
  lemma DeliveryAccount(steps: seq<Step>, ws: Socket)
    requires ws in Run(steps).hub.active
    ensures var w := Run(steps);
            && ws in w.past && ws in w.hub.queues && ws in w.hub.senders
            && InOrder(w.past[ws]) && Accounts(w.past[ws], w.hub.queues[ws], w.hub.senders[ws])
            && |w.past[ws].log| == |w.past[ws].sent| + (if w.past[ws].flying.Some? then 1 else 0)
                                   + |w.hub.queues[ws]| + |w.past[ws].lost|
  {
    hide Run, InOrder;
    RunKeeps(steps);
    assert ws in Elements(Run(steps).hub.active);
  }

  /** Whoever was ever connected received frames in order only, and the counter counts every drop. */
  lemma DropsCounted(steps: seq<Step>)
    ensures var w := Run(steps);
            && Named(w) && w.hub.drops == TotalLost(w.past, w.accepted)
            && forall ws :: ws in w.past ==> InOrder(w.past[ws])
  {
    hide Run, Registered, InOrder, Accounts;
    RunKeeps(steps);
  }

  // ----- what each step achieves

  /** A broadcast reaches every client, whatever state its queue is in: the frame is the last one queued. */
  lemma BroadcastReaches(w: World, f: Frame, ws: Socket)
    requires Inv(w) && ws in w.hub.active
    ensures var v := Apply(w, Broadcast(f));
            && v.hub.active == w.hub.active && ws in w.hub.queues && ws in v.hub.queues && ws in w.past && ws in v.past
            && v.hub.queues[ws] == (if |w.hub.queues[ws]| < 256 then w.hub.queues[ws] else w.hub.queues[ws][1..]) + [f]
            && v.past[ws].log == w.past[ws].log + [f] && v.hub.senders == w.hub.senders
  {
    hide Clients, Counted, Distinct, Overflowing;
    assert ws in Elements(w.hub.active);
    assert ws in Elements(w.accepted);
  }

  /** A new socket is served from an empty queue; one that left, or whose send failed, is forgotten. */
  lemma ComesAndGoes(w: World, ws: Socket)
    requires Inv(w)
    ensures var v := Apply(w, Connect(ws));
            ws !in w.accepted ==>
              && ws in v.hub.active && ws in v.hub.queues && v.hub.queues[ws] == []
              && ws in v.hub.senders && v.hub.senders[ws] == Waiting && ws in v.accepted
    ensures var v := Apply(w, Disconnect(ws));
            ws !in v.hub.active && ws !in v.hub.queues && ws !in v.hub.senders
    ensures var v := Apply(w, Failed(ws));
            ws in w.hub.senders && w.hub.senders[ws].Sending? ==>
              ws !in v.hub.active && ws !in v.hub.queues && ws !in v.hub.senders
  {
    hide Clients, Counted, Without, Named;
    LeftView(w.hub, ws, ws);
  }

  /** An idle sender takes the oldest queued frame; a finished send puts it on the wire and frees the sender. */
  lemma SenderWorks(w: World, ws: Socket)
    requires Inv(w) && ws in w.hub.active
    ensures ws in w.hub.senders && ws in w.hub.queues && ws in w.past
    ensures var v := Apply(w, Take(ws));
            w.hub.senders[ws] == Waiting && w.hub.queues[ws] != [] ==>
              v.hub.senders == w.hub.senders[ws := Sending(w.hub.queues[ws][0])] &&
              v.hub.queues == w.hub.queues[ws := w.hub.queues[ws][1..]]
    ensures var v := Apply(w, Sent(ws));
            w.hub.senders[ws].Sending? ==>
              v.hub.senders == w.hub.senders[ws := Waiting] && v.hub.queues == w.hub.queues && ws in v.past &&
              v.past[ws].wire == w.past[ws].wire + [w.hub.senders[ws].frame]
  {
    hide Clients, Counted, Distinct;
    assert ws in Elements(w.hub.active);
    assert ws in Elements(w.accepted);
  }

  // ----- one client cannot disturb another

  datatype View = View(active: bool, queue: seq<Frame>, sender: Option<Sender>, past: Option<History>)

  function ViewOf(w: World, ws: Socket): View {
    View(ws in w.hub.active, QueueOf(w.hub, ws),
         if ws in w.hub.senders then Some(w.hub.senders[ws]) else None,
         if ws in w.past then Some(w.past[ws]) else None)
  }

  predicate Concerns(s: Step, ws: Socket) {
    s.Broadcast? || s.ws == ws
  }

  function Only(steps: seq<Step>, ws: Socket): seq<Step> {
    if steps == [] then []
    else
      var rest := Only(steps[..|steps| - 1], ws);
      if Concerns(steps[|steps| - 1], ws) then rest + [steps[|steps| - 1]] else rest
  }

  lemma LeftView(hub: Hub, ws: Socket, gone: Socket)
    requires Registered(hub)
    ensures ws in Left(hub, gone).active <==> ws in hub.active && ws != gone
  {
    hide Without;
    LeftRegistered(hub, gone);
    assert ws in Elements(Left(hub, gone).active) <==> ws in Elements(hub.active) - {gone};
  }

  lemma OthersUnseen(w: World, s: Step, ws: Socket)
    requires Inv(w) && !Concerns(s, ws)
    ensures ViewOf(Apply(w, s), ws) == ViewOf(w, ws)
  {
    hide Clients, Counted, Without, Named;
    if s.Disconnect? || s.Failed? { LeftView(w.hub, ws, s.ws); }
  }

  lemma OwnSeen(w: World, w': World, s: Step, ws: Socket)
    requires Inv(w) && Inv(w') && ViewOf(w, ws) == ViewOf(w', ws) && Concerns(s, ws)
    ensures ViewOf(Apply(w, s), ws) == ViewOf(Apply(w', s), ws)
  {
    hide Clients, Counted, Without;
    assert ws in w.past <==> ws in w'.past;
    assert ws in w.accepted <==> ws in w'.accepted by {
      assert ws in Elements(w.accepted) <==> ws in Elements(w'.accepted);
    }
    assert ws in w.hub.queues <==> ws in w'.hub.queues by {
      assert ws in Elements(w.hub.active) <==> ws in Elements(w'.hub.active);
    }
    if s.Disconnect? || s.Failed? { LeftView(w.hub, ws, s.ws); LeftView(w'.hub, ws, s.ws); }
  }

  /** What a client receives, keeps queued and loses depends on the broadcasts and on its own socket only. */
  lemma {:induction false} SlowClientsIsolated(steps: seq<Step>, ws: Socket)
    ensures ViewOf(Run(steps), ws) == ViewOf(Run(Only(steps, ws)), ws)
  {
    hide Inv, Apply, ViewOf;
    if steps != [] {
      var init, s := steps[..|steps| - 1], steps[|steps| - 1];
      SlowClientsIsolated(init, ws);
      RunKeeps(init);
      if Concerns(s, ws) {
        RunKeeps(Only(init, ws));
        OwnSeen(Run(init), Run(Only(init, ws)), s, ws);
        assert (Only(init, ws) + [s])[..|Only(init, ws)|] == Only(init, ws);
      } else {
        OthersUnseen(Run(init), s, ws);
      }
    }
  }

  // ----- the manager object

  /** The fan-out loop has served the sockets in `done`. */
  ghost predicate Offered(before: Hub, done: seq<Socket>, f: Frame, queues: map<Socket, seq<Frame>>, drops: nat) {
    && queues.Keys == before.queues.Keys
    && (forall ws :: ws in before.queues ==>
        queues[ws] == if ws in done then Pushed(before.queues[ws], f) else before.queues[ws])
    && drops == before.drops + |Overflowing(before) * Elements(done)|
  }

  ghost predicate Bounded(hub: Hub) {
    forall ws :: ws in hub.queues ==> |hub.queues[ws]| <= CLIENT_QUEUE_MAXSIZE
  }

  lemma EnqueuedBounded(hub: Hub, f: Frame)
    requires Bounded(hub)
    ensures Bounded(Enqueued(hub, f))
  { }

  lemma EnqueuedEach(hub: Hub, f: Frame)
    requires Registered(hub)
    ensures forall ws :: ws in hub.active ==>
              && ws in hub.queues && ws in Enqueued(hub, f).queues
              && Enqueued(hub, f).queues[ws] == (if |hub.queues[ws]| < 256 then hub.queues[ws]
                  else hub.queues[ws][1..]) + [f]
  {
    hide Distinct;
    forall ws | ws in hub.active ensures ws in hub.queues { assert ws in Elements(hub.active); }
  }

  lemma NextUnseen(s: seq<Socket>, i: nat)
    requires Distinct(s) && i < |s|
    ensures s[i] !in s[..i] && s[..i + 1] == s[..i] + [s[i]]
  { }

  lemma CountNext(over: set<Socket>, done: seq<Socket>, ws: Socket)
    requires ws !in done
    ensures |over * Elements(done + [ws])| == |over * Elements(done)| + if ws in over then 1 else 0
  {
    if ws in over { assert over * Elements(done + [ws]) == over * Elements(done) + {ws}; }
    else { assert over * Elements(done + [ws]) == over * Elements(done); }
  }

  lemma OfferedNone(before: Hub, f: Frame)
    ensures Offered(before, before.active[..0], f, before.queues, before.drops)
  {
    assert before.active[..0] == [];
    assert Overflowing(before) * Elements<Socket>([]) == {};
  }

  lemma OfferNext(before: Hub, i: nat, f: Frame, queues: map<Socket, seq<Frame>>, drops: nat)
    requires Registered(before) && Bounded(before)
    requires i < |before.active| && Offered(before, before.active[..i], f, queues, drops)
    ensures before.active[i] in queues && |queues[before.active[i]]| <= CLIENT_QUEUE_MAXSIZE
    ensures Offered(before, before.active[..i + 1], f, queues[before.active[i] := Pushed(queues[before.active[i]], f)],
                    drops + if |queues[before.active[i]]| >= CLIENT_QUEUE_MAXSIZE then 1 else 0)
  {
    hide Pushed, Distinct;
    var ws, done := before.active[i], before.active[..i];
    NextUnseen(before.active, i);
    assert ws in Elements(before.active);
    assert ws in before.queues;
    CountNext(Overflowing(before), done, ws);
  }

  lemma OfferedAll(before: Hub, f: Frame, queues: map<Socket, seq<Frame>>, drops: nat)
    requires Registered(before) && Offered(before, before.active, f, queues, drops)
    ensures Enqueued(before, f) == before.(queues := queues, drops := drops)
  {
    hide Pushed, Distinct;
    var over := Overflowing(before);
    assert over * Elements(before.active) == over;
    forall ws | ws in before.queues ensures ws in before.active && queues[ws] == Enqueued(before, f).queues[ws] {
      assert ws in Elements(before.active);
    }
  }

  class ConnectionManager {
    var active: seq<Socket>
    var queues: map<Socket, seq<Frame>>
    var senders: map<Socket, Sender>
    var drops: nat
    var gauge: int

    ghost function Value(): Hub
      reads this
    {
      Hub(active, queues, senders, drops, gauge)
    }

    ghost predicate Valid()
      reads this
    {
      Registered(Value()) && Bounded(Value())
    }

    constructor ()
      ensures Valid() && Value() == Init().hub
    {
      active, queues, senders, drops, gauge := [], map[], map[], 0, 0;
    }

    /** `connect`, for a socket that was just accepted. */
    method Connect(ws: Socket)
      requires Valid() && ws !in active
      modifies this
      ensures Valid() && Value() == Joined(old(Value()), ws)
      ensures active == old(active) + [ws] && queues == old(queues)[ws := []] && senders == old(senders)[ws := Waiting]
    {
      JoinedRegistered(Value(), ws);
      active := active + [ws];
      queues := queues[ws := []];
      senders := senders[ws := Waiting];
      gauge := gauge + 1;
    }

    /** `disconnect`: may be called again, by the endpoint and by the sender. */
    method Disconnect(ws: Socket)
      requires Valid()
      modifies this
      ensures Valid() && Value() == Left(old(Value()), ws)
      ensures ws !in active && queues == old(queues) - {ws} && senders == old(senders) - {ws}
      ensures Elements(active) == Elements(old(active)) - {ws}
    {
      LeftRegistered(Value(), ws);
      LeftView(Value(), ws, ws);
      if ws in active {
        gauge := gauge - 1;
      } else {
        WithoutAbsent(active, ws);
      }
      active := Without(active, ws);
      queues := queues - {ws};
      senders := senders - {ws};
    }

    /** asyncio.Queue.put_nowait. */
    method PutNowait(ws: Socket, f: Frame) returns (full: bool)
      requires ws in queues
      modifies this`queues
      ensures full <==> |old(queues)[ws]| >= CLIENT_QUEUE_MAXSIZE
      ensures queues == if full then old(queues) else old(queues)[ws := old(queues)[ws] + [f]]
    {
      full := |queues[ws]| >= CLIENT_QUEUE_MAXSIZE;
      if !full { queues := queues[ws := queues[ws] + [f]]; }
    }

    /** The body of the fan-out loop. After making room the second put cannot find the queue full. */
    method Offer(ws: Socket, f: Frame)
      requires ws in queues && |queues[ws]| <= CLIENT_QUEUE_MAXSIZE
      modifies this`queues, this`drops
      ensures queues == old(queues)[ws := Pushed(old(queues)[ws], f)]
      ensures queues[ws] == (if |old(queues)[ws]| < 256 then old(queues)[ws] else old(queues)[ws][1..]) + [f]
      ensures drops == old(drops) + if |old(queues)[ws]| >= CLIENT_QUEUE_MAXSIZE then 1 else 0
    {
      var full := PutNowait(ws, f);
      if full {
        if queues[ws] != [] {
          queues := queues[ws := queues[ws][1..]];
          drops := drops + 1;
        }
        var again := PutNowait(ws, f);
        assert !again;
      }
    }

    /** `_enqueue_to_all_clients`: never blocks, keeps every queue bounded, counts one drop per full queue. */
    method EnqueueToAllClients(f: Frame)
      requires Valid()
      modifies this`queues, this`drops
      ensures Valid() && Value() == Enqueued(old(Value()), f)
      ensures forall ws :: ws in active ==>
                && ws in old(queues) && ws in queues
                && queues[ws] == (if |old(queues)[ws]| < 256 then old(queues)[ws] else old(queues)[ws][1..]) + [f]
    {
      hide Registered, Bounded, Offered, Enqueued, Pushed;
      ghost var before := Value();
      OfferedNone(before, f);
      for i := 0 to |active|
        invariant active == before.active && senders == before.senders && gauge == before.gauge
        invariant Offered(before, active[..i], f, queues, drops)
      {
        OfferNext(before, i, f, queues, drops);
        Offer(active[i], f);
      }
      assert active[..|active|] == active;
      OfferedAll(before, f, queues, drops);
      BroadcastRegistered(before, f);
      EnqueuedBounded(before, f);
      EnqueuedEach(before, f);
    }

    /** The sender's `queue.get()` returns. */
    method SenderGet(ws: Socket) returns (f: Frame)
      requires Valid() && CanTake(Value(), ws)
      modifies this`queues, this`senders
      ensures Valid() && Value() == Taken(old(Value()), ws)
      ensures f == old(queues)[ws][0] && queues == old(queues)[ws := old(queues)[ws][1..]]
      ensures senders == old(senders)[ws := Sending(f)]
    {
      f := queues[ws][0];
      queues := queues[ws := queues[ws][1..]];
      senders := senders[ws := Sending(f)];
    }

    /** `send_json` returns, or raises and the client is dropped. */
    method SenderDone(ws: Socket, failed: bool)
      requires Valid() && InFlight(Value(), ws)
      modifies this
      ensures Valid()
      ensures Value() == if failed then Left(old(Value()), ws) else Delivered(old(Value()), ws)
      ensures if failed then ws !in active && ws !in queues && ws !in senders
              else senders == old(senders)[ws := Waiting] && queues == old(queues) && active == old(active)
    {
      if failed { Disconnect(ws); }
      else { senders := senders[ws := Waiting]; }
    }
  }

  lemma {:induction false} WithoutAbsent(s: seq<Socket>, x: Socket)
    requires x !in s
    ensures Without(s, x) == s
  {
    if s != [] { WithoutAbsent(s[1..], x); }
  }
}
