/**
 * What a flock guarantees when the lead moves on, in every run: every following node
 * has stored the file, or applied the metadata change, of that very session.
 */
module Commit {
  import opened Fsm
  import opened FileStore
  import opened Boxoffice
  import opened Roles
  import opened Flock
  import opened Invariant
  import opened Safety
  import LeadProof
  import Channels

  // ---------- heartbeaters and fake data ----------

  lemma SendShape(s: Sys, a: Move)
    requires Wired(s) && Enabled(s, a) && (a.Broadcast? || a.Cover?)
    ensures a.from in s.nodes && (a.Broadcast? ==> |s.nodes[a.from].out| > 0)
    ensures Next(s, a).lead == s.lead && Next(s, a).nodes == s.nodes
    ensures var p := if a.Broadcast? then Hb(s.nodes[a.from].out[0]) else Noise;
            var net' := Next(s, a).net;
            forall k :: k in s.net ==>
              k in net' && net'[k] == if k.0 == a.from && k.1 in a.reached then s.net[k] + [p] else s.net[k]
  {
    hide Carries, Packed;
    assert s.nodes[a.from := s.nodes[a.from]] == s.nodes;
  }

  lemma LeadSpeaks(s: Sys, a: Move)
    requires Inv(s) && Enabled(s, a) && (a.Broadcast? || a.Cover?) && a.from == s.lead
    ensures Inv(Next(s, a))
  {
    hide LeadInv, FollowInv, PeerNet, Enabled, Next, DownInv, UpInv, Agree, Joined;
    var s' := Next(s, a);
    StillWired(s, a);
    SendShape(s, a);
    forall j | j in s.nodes && j != s.lead
      ensures PairInv(s'.nodes[s.lead], s'.nodes[j], s'.net[(s.lead, j)], s'.net[(j, s.lead)], j)
    {
      var i, down := s.nodes[s.lead], s.net[(s.lead, j)];
      assert PairInv(i, s.nodes[j], down, s.net[(j, s.lead)], j);
      Channels.DownSend(i, s.nodes[j], down, if a.Broadcast? then Hb(i.out[0]) else Noise);
    }
    LeadMoved(s, s');
  }

  lemma PeerNetSend(net: seq<Packet>, p: Packet)
    requires PeerNet(net) && !p.Data? && (p.Hb? ==> FollowStatus(p.tag.beat.status))
    ensures PeerNet(net + [p])
  {
    hide FollowStatus;
  }

  lemma FollowSpeaks(s: Sys, a: Move)
    requires Inv(s) && Enabled(s, a) && (a.Broadcast? || a.Cover?) && a.from != s.lead
    ensures Inv(Next(s, a))
  {
    hide LeadInv, FollowInv, PeerNet, Enabled, Next, DownInv, Agree, Joined, Ordered, FollowStatus;
    var s', k := Next(s, a), a.from;
    StillWired(s, a);
    SendShape(s, a);
    var i, j, up := s.nodes[s.lead], s.nodes[k], s.net[(k, s.lead)];
    assert PairInv(i, j, s.net[(s.lead, k)], up, k);
    var p := if a.Broadcast? then Hb(j.out[0]) else Noise;
    Channels.UpSend(i, j, up, k, p);
    assert a.Broadcast? ==> UpEntry(j.out[0], i, j, k);
    forall q | q in s.net && q.0 != s.lead && q.1 != s.lead
      ensures PeerNet(s'.net[q])
    {
      assert PeerNet(s.net[(q.0, q.1)]);
      PeerNetSend(s.net[q], p);
    }
    FollowMoved(s, s', k);
  }

  // ---------- moves inside one node ----------

  lemma InnerShape(s: Sys, a: Move)
    requires Wired(s) && Enabled(s, a) && (a.Poll? || a.Take? || a.Fire? || a.Discard? || a.Rest?)
    ensures a.from in s.nodes && Next(s, a) == s.(nodes := s.nodes[a.from := After(s, a)])
    ensures var n, n' := s.nodes[a.from], After(s, a);
            && (a.Poll? ==> |n.out| > 1 && n' == n.(out := n.out[1..]))
            && (a.Take? ==> n.dispatcher.Idle? && |n.tickets| > 0
                            && n' == n.(dispatcher := Waiting(n.tickets[0]), tickets := n.tickets[1..]))
            && (a.Fire? ==> n.dispatcher.Waiting?
                            && n' == n.(ticks := n.ticks + [S132],
                                        dispatcher := if n.dispatcher.ticket.order.Send?
                                                      then Sending(n.dispatcher.ticket) else Stopping))
            && (a.Discard? ==> n.dispatcher.Stopping? && |n.tickets| > 0 && n' == n.(tickets := n.tickets[1..]))
            && (a.Rest? ==> n.dispatcher.Stopping? && n' == n.(ticks := n.ticks + [S156], dispatcher := Idle))
  {
    hide Carries, Packed;
  }

  lemma LeadRuns(i: Node, others: set<NodeId>, i': Node)
    requires LeadInv(i, others)
    requires || (|i.out| > 1 && i' == i.(out := i.out[1..]))
             || (i' == i.(tickets := i'.tickets, dispatcher := i'.dispatcher, ticks := i'.ticks)
                 && Lane(i') && !Idling(i))
    ensures LeadInv(i', others)
  {
    LeadFrame(i, i');
    assert i'.out == i.out ==> LeadInv(i', others) by { hide Lane, LeadHistory, LeadPhase; }
    if i'.tickets == i.tickets && i'.dispatcher == i.dispatcher && i'.ticks == i.ticks {
      LeadProof.LaneFrame(i, i');
    }
    hide Lane, LeadHistory, LeadPhase;
  }

  /** One move of the lead's heartbeater or dispatcher. */
  lemma LeadInner(i: Node, others: set<NodeId>, i': Node, a: Move)
    requires LeadInv(i, others)
    requires a.Poll? ==> |i.out| > 1 && i' == i.(out := i.out[1..])
    requires a.Take? ==> i.dispatcher.Idle? && |i.tickets| > 0
                         && i' == i.(dispatcher := Waiting(i.tickets[0]), tickets := i.tickets[1..])
    requires a.Fire? ==> i.dispatcher.Waiting?
                         && i' == i.(ticks := i.ticks + [S132],
                                     dispatcher := if i.dispatcher.ticket.order.Send?
                                                   then Sending(i.dispatcher.ticket) else Stopping)
    requires a.Discard? ==> i.dispatcher.Stopping? && |i.tickets| > 0 && i' == i.(tickets := i.tickets[1..])
    requires a.Rest? ==> i.dispatcher.Stopping? && i' == i.(ticks := i.ticks + [S156], dispatcher := Idle)
    requires a.Poll? || a.Take? || a.Fire? || a.Discard? || a.Rest?
    ensures LeadInv(i', others)
    ensures !a.Poll? ==> (Active(i') ==> Active(i))
  {
    assert !a.Poll? ==> Lane(i) && !Idling(i) by { hide Lane; }
    if a.Take? { Channels.LaneTake(i); }
    if a.Fire? { Channels.LaneFire(i); }
    if a.Rest? || a.Discard? { Channels.LaneRest(i); }
    hide LeadInv, Lane;
    LeadRuns(i, others, i');
  }

  lemma LeadInnerMoves(s: Sys, a: Move)
    requires Inv(s) && Enabled(s, a) && (a.Poll? || a.Take? || a.Fire? || a.Discard? || a.Rest?)
    requires a.from == s.lead
    ensures Inv(Next(s, a))
  {
    hide LeadInv, FollowInv, PairInv, PeerNet, Enabled, Next, After, Active;
    var s' := Next(s, a);
    StillWired(s, a);
    InnerShape(s, a);
    var i, i', others := s.nodes[s.lead], After(s, a), s.nodes.Keys - {s.lead};
    LeadInner(i, others, i', a);
    forall j | j in s.nodes && j != s.lead
      ensures PairInv(s'.nodes[s.lead], s'.nodes[j], s'.net[(s.lead, j)], s'.net[(j, s.lead)], j)
    {
      assert PairInv(i, s.nodes[j], s.net[(s.lead, j)], s.net[(j, s.lead)], j);
      if a.Poll? {
        Channels.LeadPolls(i, s.nodes[j], s.net[(s.lead, j)], s.net[(j, s.lead)], j);
      } else {
        Channels.LeadDispatches(i, i', s.nodes[j], s.net[(s.lead, j)], s.net[(j, s.lead)], j);
      }
    }
    LeadMoved(s, s');
  }

  lemma FollowInner(j: Node, others: set<NodeId>, j': Node, a: Move)
    requires FollowInv(j, others)
    requires a.Poll? ==> |j.out| > 1 && j' == j.(out := j.out[1..])
    requires a.Take? ==> j.dispatcher.Idle? && |j.tickets| > 0
                         && j' == j.(dispatcher := Waiting(j.tickets[0]), tickets := j.tickets[1..])
    requires a.Fire? ==> j.dispatcher.Waiting?
                         && j' == j.(ticks := j.ticks + [S132],
                                     dispatcher := if j.dispatcher.ticket.order.Send?
                                                   then Sending(j.dispatcher.ticket) else Stopping)
    requires a.Discard? ==> j.dispatcher.Stopping? && |j.tickets| > 0 && j' == j.(tickets := j.tickets[1..])
    requires a.Rest? ==> j.dispatcher.Stopping? && j' == j.(ticks := j.ticks + [S156], dispatcher := Idle)
    requires a.Poll? || a.Take? || a.Fire? || a.Discard? || a.Rest?
    ensures FollowInv(j', others)
  {
  }

  lemma FollowInnerMoves(s: Sys, a: Move)
    requires Inv(s) && Enabled(s, a) && (a.Poll? || a.Take? || a.Fire? || a.Discard? || a.Rest?)
    requires a.from != s.lead
    ensures Inv(Next(s, a))
  {
    hide LeadInv, FollowInv, PairInv, PeerNet, Enabled, Next, After;
    var s', k := Next(s, a), a.from;
    StillWired(s, a);
    InnerShape(s, a);
    var i, j, j' := s.nodes[s.lead], s.nodes[k], After(s, a);
    var down, up := s.net[(s.lead, k)], s.net[(k, s.lead)];
    assert PairInv(i, j, down, up, k);
    FollowInner(j, s.nodes.Keys - {k}, j', a);
    if a.Poll? {
      Channels.FollowPolls(i, j, down, up, k);
    } else {
      Channels.FollowDispatches(i, j, j', down, up, k);
    }
    FollowMoved(s, s', k);
  }

  // ---------- file data ----------

  lemma EmitShape(s: Sys, a: Move)
    requires Wired(s) && Enabled(s, a) && a.Emit?
    ensures a.from in s.nodes
    ensures var n := s.nodes[a.from];
            && n.dispatcher.Sending? && Packed(n.dispatcher.ticket, a.packet, a.last)
            && Next(s, a).lead == s.lead
            && Next(s, a).nodes == s.nodes[a.from := n.(sent := n.sent[a.packet.session := a.packet.chunk],
                                                        dispatcher := if a.last then Stopping else n.dispatcher)]
    ensures var net' := Next(s, a).net;
            forall k :: k in s.net ==>
              k in net' && net'[k] == if k.0 == a.from && k.1 in a.reached then s.net[k] + [a.packet] else s.net[k]
  {
    hide Carries, Packed;
  }

  lemma LeadEmits(i: Node, others: set<NodeId>, i': Node, p: Packet, last: bool)
    requires LeadInv(i, others) && i.dispatcher.Sending? && Packed(i.dispatcher.ticket, p, last)
    requires i' == i.(sent := i.sent[p.session := p.chunk], dispatcher := if last then Stopping else i.dispatcher)
    ensures LeadInv(i', others)
    ensures p.session == i.session && i.session in i.files && i.files[i.session].file.Some?
    ensures Small(i.files[i.session].file.value) ==> i.session !in i.sent && LeadProof.Grows(i, i')
    ensures Packed(Ticket(i.session, i.dispatcher.ticket.order), p, last)
    ensures i.files[i.session].file == Some(i.dispatcher.ticket.order.file)
  {
    assert Lane(i);
    Channels.LaneEmit(i, p, last);
    assert LeadPhase(i') by { hide Lane, LeadHistory; }
    hide Lane, LeadPhase;
  }

  lemma EmitPair(i: Node, i': Node, others: set<NodeId>, j: Node, down: seq<Packet>, up: seq<Packet>, id: NodeId,
                 p: Packet, last: bool, reached: bool)
    requires LeadInv(i, others) && PairInv(i, j, down, up, id)
    requires i.dispatcher.Sending? && Packed(i.dispatcher.ticket, p, last)
    requires i' == i.(sent := i.sent[p.session := p.chunk], dispatcher := if last then Stopping else i.dispatcher)
    ensures PairInv(i', j, if reached then down + [p] else down, up, id)
  {
    LeadEmits(i, others, i', p, last);
    assert LeadHistory(i);
    assert j.session == i.session;
    if Small(i.files[i.session].file.value) {
      Channels.LeadDispatches(i, i', j, down, up, id);
    } else {
      Channels.LongFileNoted(i, i', j, down, up, id, i.session, p.chunk);
    }
    hide LeadInv, PairInv, LeadHistory;
    if reached { Channels.DataSent(i', j, down, up, id, p); }
  }

  lemma LeadEmit(s: Sys, a: Move)
    requires Inv(s) && Enabled(s, a) && a.Emit? && a.from == s.lead
    ensures Inv(Next(s, a))
  {
    hide LeadInv, FollowInv, PairInv, PeerNet, Enabled, Next, Packed;
    var s' := Next(s, a);
    StillWired(s, a);
    EmitShape(s, a);
    var i, i', others := s.nodes[s.lead], s'.nodes[s.lead], s.nodes.Keys - {s.lead};
    LeadEmits(i, others, i', a.packet, a.last);
    forall j | j in s.nodes && j != s.lead
      ensures PairInv(s'.nodes[s.lead], s'.nodes[j], s'.net[(s.lead, j)], s'.net[(j, s.lead)], j)
    {
      assert PairInv(i, s.nodes[j], s.net[(s.lead, j)], s.net[(j, s.lead)], j);
      EmitPair(i, i', others, s.nodes[j], s.net[(s.lead, j)], s.net[(j, s.lead)], j, a.packet, a.last, j in a.reached);
    }
    LeadMoved(s, s');
  }

  // ---------- every run ----------

  lemma StartLead(others: set<NodeId>, disk: map<string, seq<byte>>)
    ensures LeadInv(Start(others, disk), others)
  {
  }

  lemma StartFollow(others: set<NodeId>, disk: map<string, seq<byte>>)
    ensures FollowInv(Start(others, disk), others)
  {
  }

  lemma StartPair(a: set<NodeId>, b: set<NodeId>, diskA: map<string, seq<byte>>, diskB: map<string, seq<byte>>,
                  id: NodeId)
    requires id in a
    ensures PairInv(Start(a, diskA), Start(b, diskB), [], [], id)
  {
  }

  lemma InitHolds(s: Sys)
    requires Init(s)
    ensures Inv(s)
  {
    hide Start, LeadInv, FollowInv, PairInv;
    assert Wired(s);
    var n := s.nodes.Keys;
    StartLead(n - {s.lead}, s.nodes[s.lead].office.disk);
    forall j | j in s.nodes && j != s.lead
      ensures FollowInv(s.nodes[j], n - {j})
      ensures PairInv(s.nodes[s.lead], s.nodes[j], s.net[(s.lead, j)], s.net[(j, s.lead)], j)
    {
      StartFollow(n - {j}, s.nodes[j].office.disk);
      StartPair(n - {s.lead}, n - {j}, s.nodes[s.lead].office.disk, s.nodes[j].office.disk, j);
      assert s.net[(s.lead, j)] == [] && s.net[(j, s.lead)] == [];
    }
    forall j, k | j in s.nodes && k in s.nodes && j != k && j != s.lead && k != s.lead
      ensures PeerNet(s.net[(k, j)])
    {
      assert s.net[(k, j)] == [];
    }
  }

  lemma NextHolds(s: Sys, a: Move)
    requires Inv(s) && Enabled(s, a)
    ensures Inv(Next(s, a))
  {
    hide Inv, Next;
    match a
    case Deliver(from, to, m) =>
      if to == s.lead { DeliverToLead(s, from, m); } else { DeliverToFollow(s, from, to, m); }
    case Tick(to, _) => if to == s.lead { LeadLocal(s, a); } else { FollowLocal(s, a); }
    case Local(to, _) => if to == s.lead { LeadLocal(s, a); } else { FollowLocal(s, a); }
    case Broadcast(from, _) => if from == s.lead { LeadSpeaks(s, a); } else { FollowSpeaks(s, a); }
    case Cover(from, _) => if from == s.lead { LeadSpeaks(s, a); } else { FollowSpeaks(s, a); }
    case Emit(from, _, _, _) => if from == s.lead { LeadEmit(s, a); } else { OnlyLeadEmits(s, a); }
    case _ => if a.from == s.lead { LeadInnerMoves(s, a); } else { FollowInnerMoves(s, a); }
  }

  lemma OnlyLeadEmits(s: Sys, a: Move)
    requires Inv(s) && Enabled(s, a) && a.Emit?
    ensures a.from == s.lead
  {
    assert a.from != s.lead ==> FollowInv(s.nodes[a.from], s.nodes.Keys - {a.from});
    hide Pairs, LeadInv, PeerNet;
  }

  /** The invariant holds in every state of every run. */
  lemma {:induction false} RunHolds(ss: seq<Sys>, moves: seq<Move>, k: nat)
    requires IsRun(ss, moves) && k < |ss|
    ensures Inv(ss[k])
  {
    if k == 0 {
      InitHolds(ss[0]);
    } else {
      RunHolds(ss, moves, k - 1);
      NextHolds(ss[k - 1], moves[k - 1]);
    }
  }

  // ---------- what the lead may conclude ----------

  /**
   * Data commit: while the lead is ending a transfer, every other node has processed,
   * in this very session, the last data packet; and if the file fits one packet, its
   * copy starts with exactly the bytes the lead's dispatcher read.
   */
  lemma DataCommit(ss: seq<Sys>, moves: seq<Move>, k: nat, j: NodeId)
    requires IsRun(ss, moves) && k < |ss|
    requires j in ss[k].nodes && j != ss[k].lead && ss[k].lead in ss[k].nodes
    requires ss[k].nodes[ss[k].lead].office.state == SyncingStop
    ensures var i, n := ss[k].nodes[ss[k].lead], ss[k].nodes[j];
            && n.session == i.session && i.session in n.stored
            && i.session in i.files && i.files[i.session].status == S130 && i.files[i.session].file.Some?
            && var f := i.files[i.session].file.value;
               Small(f) ==> i.session in i.sent && Holds(n.office.disk, f, i.sent[i.session])
  {
    RunHolds(ss, moves, k);
    var s := ss[k];
    var i, n := s.nodes[s.lead], s.nodes[j];
    assert PairInv(i, n, s.net[(s.lead, j)], s.net[(j, s.lead)], j);
    assert LeadPhase(i) && LeadState(i.office.state);
    SyncingSession(i, s.nodes.Keys - {s.lead});
    hide IsRun, Inv, LeadInv, DownInv, UpInv, LeadPhase;
  }

  lemma SyncingSession(i: Node, others: set<NodeId>)
    requires LeadInv(i, others) && i.office.state == SyncingStop
    ensures i.session > 0
  {
  }

  /** Every session the lead has ever ended was done by every other node, with the lead's own record. */
  lemma EndedEverywhere(ss: seq<Sys>, moves: seq<Move>, k: nat, j: NodeId, u: nat)
    requires IsRun(ss, moves) && k < |ss|
    requires j in ss[k].nodes && j != ss[k].lead && ss[k].lead in ss[k].nodes
    requires u > 0 && u in ss[k].nodes[ss[k].lead].ended
    ensures var i, n := ss[k].nodes[ss[k].lead], ss[k].nodes[j];
            if u in i.files then u in n.stored
            else u in n.applied && u in i.metas && i.metas[u].file.Some?
                 && n.applied[u] == (i.metas[u].status, i.metas[u].file.value)
  {
    RunHolds(ss, moves, k);
    var s := ss[k];
    assert PairInv(s.nodes[s.lead], s.nodes[j], s.net[(s.lead, j)], s.net[(j, s.lead)], j);
    hide IsRun, Inv, LeadInv, DownInv, UpInv, Joined;
  }

  predicate Handles(a: Move) { a.Deliver? || a.Tick? || a.Local? }

  /** The node as it takes up the message of a move, and the session the message belongs to. */
  function Taking(s: Sys, a: Move): (Node, nat)
    requires Enabled(s, a) && Handles(a)
  {
    var n := s.nodes[a.to];
    if a.Deliver? then (n, TagOf(s.net[(a.from, a.to)][0], n.session))
    else if a.Tick? then (n.(ticks := n.ticks[1..]), n.session)
    else (n, n.session)
  }

  /** The lead changes state only by one of its moves. */
  lemma LeadActs(s: Sys, a: Move)
    requires Inv(s) && Enabled(s, a) && Acting(a) == s.lead && Handles(a)
    ensures var o := s.nodes[s.lead].office;
            && LeadState(o.state) && LeadMove(o, a.input, Process(o, a.input))
            && After(s, a) == Absorb(Taking(s, a).0, a.input, Taking(s, a).1, Process(o, a.input))
  {
    var i, others := s.nodes[s.lead], s.nodes.Keys - {s.lead};
    TakenInput(s, a);
    LeadSteps(i.office, a.input);
    assert LeadState(i.office.state);
    hide Inv, LeadMove, Process, Absorb, LeadInput, LeadState, Carries;
  }

  lemma TakenInput(s: Sys, a: Move)
    requires Inv(s) && Enabled(s, a) && Acting(a) == s.lead && Handles(a)
    ensures LeadInput(s.nodes[s.lead].office, a.input)
  {
    var i, others := s.nodes[s.lead], s.nodes.Keys - {s.lead};
    if a.Deliver? {
      assert a.from in s.nodes;
      LeadHears(s, a.from, a.input);
    } else {
      if a.Tick? { LeadTicksDown(i, others); }
      LocalInput(i.office, a.input);
    }
    hide Inv, LeadInput;
  }

  /** Only a message can change the lead's state. */
  lemma StateChanges(s: Sys, a: Move)
    requires Wired(s) && Enabled(s, a)
    requires Next(s, a).nodes[s.lead].office.state != s.nodes[s.lead].office.state
    ensures Handles(a) && Acting(a) == s.lead && Next(s, a).nodes[s.lead] == After(s, a)
  {
    hide Handled, Carries, Packed;
  }

  /** The lead leaves the metadata phase for ready by a full round of 141. */
  lemma MetadataRound(s: Sys, a: Move)
    requires Inv(s) && Enabled(s, a)
    requires s.nodes[s.lead].office.state == SendingFileMetadataChange
    requires Next(s, a).nodes[s.lead].office.state == Ready
    ensures var i, i' := s.nodes[s.lead], Next(s, a).nodes[s.lead];
            i'.session == i.session && i'.metas == i.metas && i'.files == i.files && i.session in i'.ended
    ensures a.Deliver? && a.to == s.lead
  {
    StateChanges(s, a);
    LeadActs(s, a);
    var i := s.nodes[s.lead];
    var r := Process(i.office, a.input);
    hide Process, Inv, Absorb, LeadMove, LeadRound, Next, After, Carries, Handled, Enabled;
    RoundOnly(i.office, a.input, r);
    LeadProof.RoundNode(Taking(s, a).0, a.input, Taking(s, a).1, r);
    MessageKind(s, a);
  }

  lemma RoundOnly(o: Office, m: Input, r: Result)
    requires LeadMove(o, m, r) && o.state == SendingFileMetadataChange && r.office.state == Ready
    ensures LeadRound(o, m, r) && |r.beats| == 1 && r.beats[0].status == S150 && m.status == S141
  {
  }

  lemma MessageKind(s: Sys, a: Move)
    requires Inv(s) && Enabled(s, a) && Handles(a) && a.to == s.lead && a.input.status == S141
    ensures a.Deliver?
  {
    if a.Tick? { LeadTicksDown(s.nodes[s.lead], s.nodes.Keys - {s.lead}); }
    hide Pairs, LeadPhase, LeadHistory, Lane, FollowInv, PeerNet;
  }

  /**
   * Metadata commit: when the lead leaves the sending state for ready, every other node
   * has read the 170 record of this session in its receiving state.
   */
  lemma MetadataCommit(ss: seq<Sys>, moves: seq<Move>, k: nat, j: NodeId)
    requires IsRun(ss, moves) && k < |moves|
    requires j in ss[k].nodes && j != ss[k].lead && ss[k].lead in ss[k].nodes
    requires ss[k].nodes[ss[k].lead].office.state == SendingFileMetadataChange
    requires Next(ss[k], moves[k]).nodes[ss[k].lead].office.state == Ready
    ensures var i, n := ss[k].nodes[ss[k].lead], ss[k].nodes[j];
            && i.session in i.metas && i.metas[i.session].status == S170 && i.metas[i.session].file.Some?
            && i.session in n.applied && n.applied[i.session] == (S170, i.metas[i.session].file.value)
  {
    var s, a := ss[k], moves[k];
    RunHolds(ss, moves, k);
    RunHolds(ss, moves, k + 1);
    MetadataRound(s, a);
    var i := s.nodes[s.lead];
    MetadataDone(s, Next(s, a), i, Next(s, a).nodes[s.lead], j);
    hide Inv, Next, IsRun;
    assert Next(s, a).nodes[j] == s.nodes[j] by { OthersStay(s, a, j); }
  }

  lemma OthersStay(s: Sys, a: Move, j: NodeId)
    requires Enabled(s, a) && j in s.nodes && j != Acting(a)
    ensures j in Next(s, a).nodes && Next(s, a).nodes[j] == s.nodes[j]
  {
    hide After, NetAfter;
  }

  lemma MetadataDone(s: Sys, s': Sys, i: Node, i': Node, j: NodeId)
    requires Inv(s) && Inv(s') && s'.lead == s.lead && j in s'.nodes && j != s.lead
    requires i == s.nodes[s.lead] && i' == s'.nodes[s.lead]
    requires i.office.state == SendingFileMetadataChange
    requires i'.session == i.session && i'.metas == i.metas && i'.files == i.files && i.session in i'.ended
    ensures i.session in i.metas && i.metas[i.session].status == S170 && i.metas[i.session].file.Some?
    ensures var n := s'.nodes[j];
            i.session in n.applied && n.applied[i.session] == (S170, i.metas[i.session].file.value)
  {
    assert PairInv(i', s'.nodes[j], s'.net[(s.lead, j)], s'.net[(j, s.lead)], j);
    assert LeadPhase(i) && LeadHistory(i);
    hide DownInv, UpInv, Joined, Lane, FollowInv, PeerNet;
  }
}
