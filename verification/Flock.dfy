/**
 * A flock: any number of nodes, each running the boxoffice step, a heartbeater that
 * lags behind it, and a dispatcher.  Every ordered pair of nodes is joined by a FIFO
 * channel that may lose messages.  One node, the lead, gets local file events while
 * ready; the others follow.
 *
 * Session numbers and the fields from `stored` on are history: no step reads them.
 */
module Flock {
  import opened Fsm
  import opened FileStore
  import opened Boxoffice
  import opened Roles

  datatype Tagged = Tagged(session: nat, beat: Beat)

  datatype Packet =
    | Hb(tag: Tagged)
    | Data(session: nat, offset: nat, chunk: seq<byte>, more: bool)
    | Noise

  datatype Ticket = Ticket(session: nat, order: Order)

  datatype Dispatcher = Idle | Waiting(ticket: Ticket) | Sending(ticket: Ticket) | Stopping

  datatype Node = Node(
    office: Office,
    session: nat,
    out: seq<Tagged>,            // heartbeat being repeated, then the updates not taken up yet
    tickets: seq<Ticket>,        // orders the dispatcher has not taken up yet
    dispatcher: Dispatcher,
    ticks: seq<Status>,          // 132 and 156 from the dispatcher, not yet processed
    stopped: bool,               // processEvent returned something other than 0
    stored: set<nat>,            // sessions in which the last data packet was stored
    applied: map<nat, (Status, Record)>,  // the metadata record handled in a session
    metas: map<nat, Beat>,       // the 170 or 174 heartbeat opened in a session
    files: map<nat, Beat>,       // the 130 or 134 heartbeat opened in a session
    sent: map<nat, seq<byte>>,   // the bytes the dispatcher read in a session
    ended: set<nat>)             // lead: sessions it ended; others: sessions ended by a stale heartbeat

  datatype Sys = Sys(lead: NodeId, nodes: map<NodeId, Node>, net: map<(NodeId, NodeId), seq<Packet>>)

  // ---------- one node ----------

  function Stamp(session: nat, beats: seq<Beat>): (t: seq<Tagged>)
    ensures |t| == |beats| && forall k :: 0 <= k < |t| ==> t[k] == Tagged(session, beats[k])
  {
    seq(|beats|, k requires 0 <= k < |beats| => Tagged(session, beats[k]))
  }

  /** Orders that start a dispatcher run. */
  function Tickets(session: nat, orders: seq<Order>): seq<Ticket> {
    if orders == [] then []
    else (if orders[0].Stop? then [] else [Ticket(session, orders[0])]) + Tickets(session, orders[1..])
  }

  function NextSession(n: Node, tag: nat, to: State): nat {
    if n.office.state == Ready && Announcing(to) then n.session + 1
    else if n.office.state == Ready && Acknowledging(to) then tag
    else n.session
  }

  predicate Opens(beats: seq<Beat>, a: Status, b: Status) {
    |beats| == 1 && (beats[0].status == a || beats[0].status == b)
  }

  /** The node after a step: `tag` is the session of the message that caused it. */
  function Absorb(n: Node, m: Input, tag: nat, r: Result): Node {
    var from, to := n.office.state, r.office.state;
    var session := NextSession(n, tag, to);
    n.(office := r.office,
       session := session,
       out := n.out + Stamp(session, r.beats),
       tickets := n.tickets + Tickets(session, r.orders),
       stopped := r.outcome != Done,
       stored := if from == SendingFakeFile && to == BroadcastingAllReceived
                 then n.stored + {session} else n.stored,
       applied := if (from == ReceivingFileMetadataChange || from == ReceivingFileMetadataChangeWithMore)
                     && to == BroadcastingAllMetadataReceived
                  then n.applied[session := (m.status, m.file)] else n.applied,
       metas := if Opens(r.beats, S170, S174) then n.metas[session := r.beats[0]] else n.metas,
       files := if Opens(r.beats, S130, S134) then n.files[session := r.beats[0]] else n.files,
       ended := if (from == SendingNewFile && to == SyncingStop)
                   || (from == SendingFileMetadataChange && to == Ready)
                   || (from == BroadcastingAllReceived && to == SyncingStop && tag != session)
                   || (from == BroadcastingAllMetadataReceived && to == Ready && tag != session)
                then n.ended + {session} else n.ended)
  }

  function Start(others: set<NodeId>, disk: map<string, seq<byte>>): Node {
    Node(Initial(others, disk), 0, [Tagged(0, Beat(S100, None, None))], [], Idle, [], false,
         {}, map[], map[], map[], map[], {0})
  }

  /** A file that travels in a single packet. */
  predicate Small(f: Record) { !f.deleted && f.size <= PACKAGE_SIZE }

  // ---------- the system ----------

  datatype Move =
    | Deliver(from: NodeId, to: NodeId, input: Input)   // a message leaves its channel and is processed
    | Tick(to: NodeId, input: Input)                    // a dispatcher message is processed
    | Local(to: NodeId, input: Input)                   // a file event of a box, or an interrupt
    | Poll(from: NodeId)                                // the heartbeater takes up the next update
    | Broadcast(from: NodeId, reached: set<NodeId>)     // and repeats it; some nodes miss it
    | Take(from: NodeId)                                // the dispatcher takes up an order
    | Fire(from: NodeId)                                // its start time has come
    | Emit(from: NodeId, reached: set<NodeId>, packet: Packet, last: bool)  // file data
    | Cover(from: NodeId, reached: set<NodeId>)         // fake data
    | Discard(from: NodeId)                             // an order read while waiting to stop
    | Rest(from: NodeId)                                // its stop time has come

  function Acting(a: Move): NodeId {
    if a.Deliver? || a.Tick? || a.Local? then a.to else a.from
  }

  /** The message that this packet becomes at the boxoffice; fields it lacks are arbitrary. */
  predicate Carries(p: Packet, from: NodeId, m: Input) {
    match p
    case Hb(t) =>
      && m.status == t.beat.status && m.sender == from
      && (t.beat.file.Some? ==> m.file == t.beat.file.value)
      && (t.beat.deadline.Some? ==> m.deadline == t.beat.deadline.value)
    case Data(_, offset, chunk, more) =>
      m.status == S200 && m.offset == offset && m.chunk == chunk && m.more == more
    case Noise => m.status == S210
  }

  function TagOf(p: Packet, otherwise: nat): nat { if p.Hb? then p.tag.session else otherwise }

  /** A file of one packet is sent whole; nothing is claimed of what a longer one looks like. */
  predicate Packed(t: Ticket, p: Packet, last: bool) {
    && p.Data? && p.session == t.session && t.order.Send?
    && (Small(t.order.file) ==> p.offset == 0 && !p.more && |p.chunk| == t.order.file.size && last)
  }

  predicate Enabled(s: Sys, a: Move) {
    && Acting(a) in s.nodes
    && var n := s.nodes[Acting(a)];
    match a
    case Deliver(from, to, m) =>
      && from != to && (from, to) in s.net && |s.net[(from, to)]| > 0
      && !n.stopped && Carries(s.net[(from, to)][0], from, m)
    case Tick(_, m) => |n.ticks| > 0 && !n.stopped && m.status == n.ticks[0]
    case Local(to, m) =>
      && !n.stopped && (m.status == S300 || m.status == S320 || m.status == S500)
      && (m.status == S500 || to == s.lead || n.office.state != Ready)
    case Poll(_) => |n.out| > 1
    case Broadcast(_, _) => |n.out| > 0
    case Take(_) => n.dispatcher.Idle? && |n.tickets| > 0
    case Fire(_) => n.dispatcher.Waiting?
    case Emit(_, _, p, last) => n.dispatcher.Sending? && Packed(n.dispatcher.ticket, p, last)
    case Cover(_, _) => n.dispatcher.Stopping?
    case Discard(_) => n.dispatcher.Stopping? && |n.tickets| > 0
    case Rest(_) => n.dispatcher.Stopping?
  }

  function Sent(net: map<(NodeId, NodeId), seq<Packet>>, from: NodeId, reached: set<NodeId>, p: Packet)
    : map<(NodeId, NodeId), seq<Packet>>
  {
    map k | k in net :: if k.0 == from && k.1 in reached then net[k] + [p] else net[k]
  }

  function Handled(n: Node, m: Input, tag: nat): Node { Absorb(n, m, tag, Process(n.office, m)) }

  /** What a move does to the node that takes it. */
  function After(s: Sys, a: Move): Node
    requires Enabled(s, a)
  {
    var n := s.nodes[Acting(a)];
    match a
    case Deliver(from, to, m) => Handled(n, m, TagOf(s.net[(from, to)][0], n.session))
    case Tick(_, m) => Handled(n.(ticks := n.ticks[1..]), m, n.session)
    case Local(_, m) => Handled(n, m, n.session)
    case Poll(_) => n.(out := n.out[1..])
    case Broadcast(_, _) => n
    case Take(_) => n.(dispatcher := Waiting(n.tickets[0]), tickets := n.tickets[1..])
    case Fire(_) =>
      n.(ticks := n.ticks + [S132],
         dispatcher := if n.dispatcher.ticket.order.Send? then Sending(n.dispatcher.ticket) else Stopping)
    case Emit(_, _, p, last) =>
      n.(sent := n.sent[p.session := p.chunk], dispatcher := if last then Stopping else n.dispatcher)
    case Cover(_, _) => n
    case Discard(_) => n.(tickets := n.tickets[1..])
    case Rest(_) => n.(ticks := n.ticks + [S156], dispatcher := Idle)
  }

  function NetAfter(s: Sys, a: Move): map<(NodeId, NodeId), seq<Packet>>
    requires Enabled(s, a)
  {
    match a
    case Deliver(from, to, _) => s.net[(from, to) := s.net[(from, to)][1..]]
    case Broadcast(from, reached) => Sent(s.net, from, reached, Hb(s.nodes[from].out[0]))
    case Emit(from, reached, p, _) => Sent(s.net, from, reached, p)
    case Cover(from, reached) => Sent(s.net, from, reached, Noise)
    case _ => s.net
  }

  function Next(s: Sys, a: Move): Sys
    requires Enabled(s, a)
  {
    s.(nodes := s.nodes[Acting(a) := After(s, a)], net := NetAfter(s, a))
  }

  ghost predicate Init(s: Sys) {
    && s.lead in s.nodes
    && (forall n :: n in s.nodes ==> s.nodes[n] == Start(s.nodes.Keys - {n}, s.nodes[n].office.disk))
    && (forall k :: k in s.net <==> k.0 in s.nodes && k.1 in s.nodes && k.0 != k.1)
    && (forall k :: k in s.net ==> s.net[k] == [])
  }

  /** The states a run goes through, one move at a time. */
  ghost predicate IsRun(ss: seq<Sys>, moves: seq<Move>) {
    && |ss| == |moves| + 1
    && Init(ss[0])
    && forall k :: 0 <= k < |moves| ==> Enabled(ss[k], moves[k]) && ss[k + 1] == Next(ss[k], moves[k])
  }
}
