/**
 * Safety of a flock over whole runs: what the lead may conclude when it ends a data
 * transfer or a metadata change.
 */
module Safety {
  import opened Fsm
  import opened Boxoffice
  import opened Stages
  import opened Roles
  import opened Flock
  import opened Invariant
  import LeadProof
  import FollowProof
  import Channels

  ghost predicate PeerNet(net: seq<Packet>) {
    forall p :: 0 <= p < |net| ==> !net[p].Data? && (net[p].Hb? ==> FollowStatus(net[p].tag.beat.status))
  }

  ghost predicate Wired(s: Sys) {
    && s.lead in s.nodes
    && (forall k :: k in s.net <==> k.0 in s.nodes && k.1 in s.nodes && k.0 != k.1)
  }

  ghost predicate Pairs(s: Sys)
    requires Wired(s)
  {
    forall j :: j in s.nodes && j != s.lead ==>
      PairInv(s.nodes[s.lead], s.nodes[j], s.net[(s.lead, j)], s.net[(j, s.lead)], j)
  }

  ghost predicate Inv(s: Sys) {
    && Wired(s)
    && LeadInv(s.nodes[s.lead], s.nodes.Keys - {s.lead})
    && (forall j :: j in s.nodes && j != s.lead ==> FollowInv(s.nodes[j], s.nodes.Keys - {j}))
    && Pairs(s)
    && (forall j, k :: j in s.nodes && k in s.nodes && j != k && j != s.lead && k != s.lead ==>
          PeerNet(s.net[(k, j)]))
  }

  // ---------- the flags keep their nodes ----------

  lemma ReplyKeys(o: Office, m: Input)
    requires m.sender in o.replied
    ensures OnReply(o, m).office.replied.Keys == o.replied.Keys
  {
    hide EventOf, Concluded;
  }

  lemma RecordKeys(o: Office, m: Input)
    ensures OnMetadata(o, m).office.replied == o.replied
    ensures OnNewFileRecord(o, m).office.replied == o.replied
  {
    hide OnMetadata, OnNewFileRecord;
    MetadataFrame(o, m);
    NewFileFrame(o, m);
  }

  lemma HeartbeatKeys(o: Office, m: Input)
    requires m.sender in o.replied
    ensures OnHeartbeat(o, m).office.replied.Keys == o.replied.Keys
  {
    hide EventOf, OnReply, OnMetadata, OnNewFileRecord;
    ReplyKeys(o, m);
    RecordKeys(o, m);
  }

  lemma EnteredKeys(o: Office, m: Input)
    requires EventOf(m.status) == ReceivedHeartbeat ==> m.sender in o.replied
    ensures Entered(o, m).office.replied.Keys == o.replied.Keys
  {
    if EventOf(m.status) == ReceivedHeartbeat {
      TimestampKeys(o, m);
      HeartbeatKeys(Timestamped(o, m), m);
    }
    hide OnHeartbeat, Timestamped, EventOf, CheckEvent;
  }

  lemma StageKeys(a: Mid, m: Input)
    ensures OnQuorum(a, m).office.replied == a.office.replied
    ensures OnLocalFile(a, m).office.replied.Keys == a.office.replied.Keys
  {
    hide StartTime, EventOf;
  }

  lemma DataKeys(a: Mid, m: Input)
    ensures OnData(a, m).office.replied == a.office.replied
  {
    hide Received, EventOf, CheckEvent;
  }

  lemma KeysKept(o: Office, m: Input)
    requires EventOf(m.status) == ReceivedHeartbeat ==> m.sender in o.replied
    ensures Process(o, m).office.replied.Keys == o.replied.Keys
  {
    EnteredKeys(o, m);
    hide Entered, OnData, OnLocalFile, OnQuorum, Continue, CheckEvent, EventOf;
    var a := Entered(o, m);
    StageKeys(a, m);
    var q := OnQuorum(a, m);
    StageKeys(q, m);
    DataKeys(OnLocalFile(q, m), m);
    ContinueKeys(OnData(OnLocalFile(q, m), m), m);
  }

  lemma TimestampKeys(o: Office, m: Input)
    requires m.sender in o.replied
    ensures Timestamped(o, m).replied == o.replied
  {
    hide Int16;
  }

  // ---------- one node handles a message ----------

  lemma LeadHandles(i: Node, others: set<NodeId>, m: Input, tag: nat)
    requires LeadInv(i, others) && LeadInput(i.office, m)
    requires m.status == S156 ==> Idling(i)
    ensures LeadInv(Handled(i, m, tag), others)
  {
    var r := Process(i.office, m);
    LeadSteps(i.office, m);
    AwaitedSender(i.office, m);
    hide Process, Absorb, LeadInv, LeadQuiet, LeadAnnounce, LeadRound, LeadTimer, LeadInput, Awaited;
    if LeadQuiet(i.office, m, r) {
      LeadProof.QuietLead(i, others, m, tag, r);
    } else if LeadAnnounce(i.office, m, r) {
      LeadProof.AnnounceLead(i, others, m, tag, r);
    } else if LeadRound(i.office, m, r) {
      LeadProof.RoundLead(i, others, m, tag, r);
    } else if LeadTimer(i.office, m, r) {
      LeadProof.TimerLead(i, others, m, tag, r);
    } else {
      LeadProof.LeavesLead(i, others, m, tag, r);
    }
  }

  lemma AwaitedSender(o: Office, m: Input)
    requires LeadInput(o, m)
    ensures m.status != NullStatus
    ensures m.status == Awaited(o.state) ==> m.sender in o.replied
    ensures LeadRound(o, m, Process(o, m)) ==> m.sender in o.replied
  {
    hide Process;
  }

  lemma LeadHandlesPair(i: Node, j: Node, down: seq<Packet>, up: seq<Packet>, up': seq<Packet>, id: NodeId,
                        others: set<NodeId>, m: Input, tag: nat)
    requires LeadInv(i, others) && LeadInput(i.office, m) && PairInv(i, j, down, up, id)
    requires LeadProof.Source(m, id, up, up')
    ensures PairInv(Handled(i, m, tag), j, down, up', id)
  {
    var r := Process(i.office, m);
    LeadSteps(i.office, m);
    AwaitedSender(i.office, m);
    if !FollowStatus(m.status) && m.status != S210 { NotFromPeer(i, j, m, id, up, up'); }
    assert LeadAnnounce(i.office, m, r) || LeadTimer(i.office, m, r) || Leaves(i.office, m, r) ==>
        !FollowStatus(m.status) && m.status != S210;
    hide Process, Absorb, LeadInv, PairInv, LeadQuiet, LeadAnnounce, LeadRound, LeadTimer, LeadInput, Awaited;
    if LeadQuiet(i.office, m, r) {
      LeadProof.QuietPair(i, j, down, up, up', id, others, m, tag, r);
    } else if LeadAnnounce(i.office, m, r) {
      LeadProof.AnnouncePair(i, j, down, up, id, others, m, tag, r);
    } else if LeadRound(i.office, m, r) {
      LeadProof.RoundPair(i, j, down, up, up', id, others, m, tag, r);
    } else if LeadTimer(i.office, m, r) {
      LeadProof.TimerPair(i, j, down, up, id, others, m, tag, r);
    } else {
      LeadProof.LeavesPair(i, j, down, up, id, others, m, tag, r);
    }
  }

  /** A message that no follower sends leaves its channel alone. */
  lemma NotFromPeer(i: Node, j: Node, m: Input, id: NodeId, up: seq<Packet>, up': seq<Packet>)
    requires id in i.office.replied && UpInv(i, j, up, id)
    requires LeadProof.Source(m, id, up, up') && !FollowStatus(m.status) && m.status != S210
    ensures up' == up
  {
    assert forall p :: 0 <= p < |up| && up[p].Hb? ==> UpEntry(up[p].tag, i, j, id);
  }

  lemma FollowHandles(i: Node, j: Node, down: seq<Packet>, down': seq<Packet>, up: seq<Packet>, id: NodeId,
                      others: set<NodeId>, m: Input, tag: nat)
    requires FollowInv(j, others) && PairInv(i, j, down, up, id) && LeadHistory(i)
    requires FollowInput(j.office, m) && FollowProof.Source(m, tag, down, down')
    requires m.status == S132 ==> !Loaded(j) && (j.office.state == PromotingNewFileMetadata ==> j.office.notified)
    ensures FollowInv(Handled(j, m, tag), others)
    ensures PairInv(i, Handled(j, m, tag), down', up, id)
  {
    var r := Process(j.office, m);
    FollowSteps(j.office, m);
    HeartbeatSender(j.office, m);
    KeysKept(j.office, m);
    if FollowAdopt(j.office, m, r) { FollowProof.AdoptsLater(i, j, down, down', m, tag, r); }
    hide Process, Absorb, FollowLane, PairInv, FollowQuiet, FollowAdopt, FollowGoOn, FollowRecord,
      FollowApply, FollowData, FollowInput, FollowProof.Source, LeadHistory, EventOf, Loaded;
    if FollowQuiet(j.office, m, r) {
      FollowProof.QuietFollow(j, others, m, tag, r);
      FollowProof.QuietPair(i, j, down, down', up, id, others, m, tag, r);
    } else if FollowAdopt(j.office, m, r) {
      FollowProof.AdoptFollow(j, others, m, tag, r);
      FollowProof.AdoptPair(i, j, down, down', up, id, others, m, tag, r);
    } else if FollowGoOn(j.office, m, r) {
      FollowProof.GoOnPair(i, j, down, down', up, id, others, m, tag, r);
      FollowProof.GoOnFollow(j, others, m, tag, r);
    } else if FollowRecord(j.office, m, r) {
      FollowProof.RecordFollow(j, others, m, tag, r);
      FollowProof.RecordPair(i, j, down, down', up, id, others, m, tag, r);
    } else if FollowApply(j.office, m, r) {
      FollowProof.ApplyFollow(j, others, m, tag, r);
      FollowProof.ApplyPair(i, j, down, down', up, id, others, m, tag, r);
    } else if FollowData(j.office, m, r) {
      FollowProof.DataFollow(j, others, m, tag, r);
      FollowProof.DataPair(i, j, down, down', up, id, others, m, tag, r);
    } else {
      FollowProof.LeavesFollow(j, others, m, tag, r);
      FollowProof.LeavesPair(i, j, down, down', up, id, others, m, tag, r);
    }
  }

  lemma HeartbeatSender(o: Office, m: Input)
    requires FollowInput(o, m)
    ensures EventOf(m.status) == ReceivedHeartbeat ==> m.sender in o.replied
  {
  }

  // ---------- putting the flock back together ----------

  lemma LeadMoved(s: Sys, s': Sys)
    requires Inv(s) && Wired(s') && s'.lead == s.lead && s'.nodes.Keys == s.nodes.Keys
    requires forall j :: j in s.nodes && j != s.lead ==> s'.nodes[j] == s.nodes[j]
    requires LeadInv(s'.nodes[s.lead], s.nodes.Keys - {s.lead})
    requires Pairs(s')
    requires forall k :: k in s.net && k.0 != s.lead && k.1 != s.lead ==> s'.net[k] == s.net[k]
    ensures Inv(s')
  {
    hide LeadInv, FollowInv, Pairs, PeerNet;
  }

  lemma FollowMoved(s: Sys, s': Sys, k: NodeId)
    requires Inv(s) && Wired(s') && s'.lead == s.lead && s'.nodes.Keys == s.nodes.Keys
    requires k in s.nodes && k != s.lead
    requires forall j :: j in s.nodes && j != k ==> s'.nodes[j] == s.nodes[j]
    requires FollowInv(s'.nodes[k], s.nodes.Keys - {k})
    requires PairInv(s.nodes[s.lead], s'.nodes[k], s'.net[(s.lead, k)], s'.net[(k, s.lead)], k)
    requires forall j :: j in s.nodes && j != k && j != s.lead ==>
               s'.net[(s.lead, j)] == s.net[(s.lead, j)] && s'.net[(j, s.lead)] == s.net[(j, s.lead)]
    requires forall q :: q in s.net && q.0 != s.lead && q.1 != s.lead ==> PeerNet(s'.net[q])
    ensures Inv(s')
  {
    hide LeadInv, FollowInv, PairInv, PeerNet;
  }

  lemma StillWired(s: Sys, a: Move)
    requires Wired(s) && Enabled(s, a)
    ensures Wired(Next(s, a)) && Next(s, a).nodes.Keys == s.nodes.Keys
  {
    hide After, Carries, Packed;
  }

  // ---------- messages ----------

  lemma DeliverShape(s: Sys, from: NodeId, to: NodeId, m: Input)
    requires Wired(s) && Enabled(s, Deliver(from, to, m))
    ensures from in s.nodes && to in s.nodes && from != to && (from, to) in s.net && |s.net[(from, to)]| > 0
    ensures Carries(s.net[(from, to)][0], from, m)
    ensures var p := s.net[(from, to)][0];
            var n := s.nodes[to];
            Next(s, Deliver(from, to, m)) ==
              s.(nodes := s.nodes[to := Handled(n, m, TagOf(p, n.session))],
                 net := s.net[(from, to) := s.net[(from, to)][1..]])
  {
    hide Handled, Carries, TagOf;
  }

  /** What a following node puts in the lead's channel, the lead can handle. */
  lemma LeadReceives(i: Node, j: Node, up: seq<Packet>, id: NodeId, m: Input)
    requires id in i.office.replied && UpInv(i, j, up, id) && |up| > 0 && Carries(up[0], id, m)
    ensures LeadInput(i.office, m) && m.status != S156
    ensures FollowStatus(m.status) ==> m.sender == id
    ensures LeadProof.Source(m, id, up, up[1..])
  {
    assert forall p :: 0 <= p < |up| && up[p].Hb? ==> UpEntry(up[p].tag, i, j, id);
  }

  lemma DeliverToLead(s: Sys, from: NodeId, m: Input)
    requires Inv(s) && Enabled(s, Deliver(from, s.lead, m))
    ensures Inv(Next(s, Deliver(from, s.lead, m)))
  {
    hide LeadInv, FollowInv, PairInv, PeerNet, LeadInput, Handled, Enabled, Next, FollowStatus, Carries, TagOf,
      LeadProof.Source;
    var a := Deliver(from, s.lead, m);
    var s' := Next(s, a);
    StillWired(s, a);
    DeliverShape(s, from, s.lead, m);
    var i, others := s.nodes[s.lead], s.nodes.Keys - {s.lead};
    var tag := TagOf(s.net[(from, s.lead)][0], i.session);
    assert PairInv(i, s.nodes[from], s.net[(s.lead, from)], s.net[(from, s.lead)], from);
    LeadHears(s, from, m);
    LeadHandles(i, others, m, tag);
    forall j | j in s.nodes && j != s.lead
      ensures PairInv(s'.nodes[s.lead], s'.nodes[j], s'.net[(s.lead, j)], s'.net[(j, s.lead)], j)
    {
      if j != from { OtherSource(m, from, j, s.net[(j, s.lead)]); }
      LeadHandlesPair(i, s.nodes[j], s.net[(s.lead, j)], s.net[(j, s.lead)], s'.net[(j, s.lead)], j, others, m, tag);
    }
    LeadMoved(s, s');
  }

  lemma LeadHears(s: Sys, from: NodeId, m: Input)
    requires Inv(s) && from in s.nodes && from != s.lead
    requires |s.net[(from, s.lead)]| > 0 && Carries(s.net[(from, s.lead)][0], from, m)
    ensures LeadInput(s.nodes[s.lead].office, m) && m.status != S156
    ensures FollowStatus(m.status) ==> m.sender == from
    ensures LeadProof.Source(m, from, s.net[(from, s.lead)], s.net[(from, s.lead)][1..])
  {
    hide LeadInv, FollowInv, PeerNet, LeadInput, FollowStatus, Carries, LeadProof.Source, UpInv, DownInv, Agree, Joined;
    LeadReceives(s.nodes[s.lead], s.nodes[from], s.net[(from, s.lead)], from, m);
  }

  lemma OtherSource(m: Input, from: NodeId, id: NodeId, up: seq<Packet>)
    requires FollowStatus(m.status) ==> m.sender == from
    requires id != from
    ensures LeadProof.Source(m, id, up, up)
  {
  }

  lemma FollowReceives(i: Node, j: Node, down: seq<Packet>, from: NodeId, m: Input, otherwise: nat)
    requires DownInv(i, j, down) && |down| > 0 && Carries(down[0], from, m) && from in j.office.replied
    ensures FollowInput(j.office, m) && m.status != S132
    ensures FollowProof.Source(m, TagOf(down[0], otherwise), down, down[1..])
  {
    assert forall p :: 0 <= p < |down| && down[p].Hb? ==> DownEntry(down[p].tag, i, j);
  }

  lemma PeerReceives(j: Node, net: seq<Packet>, down: seq<Packet>, from: NodeId, m: Input, tag: nat)
    requires PeerNet(net) && |net| > 0 && Carries(net[0], from, m) && from in j.office.replied
    ensures FollowInput(j.office, m) && m.status != S132
    ensures FollowProof.Source(m, tag, down, down)
  {
  }

  lemma DeliverToFollow(s: Sys, from: NodeId, to: NodeId, m: Input)
    requires Inv(s) && to != s.lead && Enabled(s, Deliver(from, to, m))
    ensures Inv(Next(s, Deliver(from, to, m)))
  {
    hide LeadInv, FollowInv, PairInv, PeerNet, FollowInput, Handled, Enabled, Next, Carries, TagOf,
      FollowProof.Source;
    var a := Deliver(from, to, m);
    var s' := Next(s, a);
    StillWired(s, a);
    DeliverShape(s, from, to, m);
    var i, j := s.nodes[s.lead], s.nodes[to];
    var net := s.net[(from, to)];
    var tag := TagOf(net[0], j.session);
    FollowHears(s, from, to, m, tag);
    FollowHandles(i, j, s.net[(s.lead, to)], s'.net[(s.lead, to)], s.net[(to, s.lead)], to,
                  s.nodes.Keys - {to}, m, tag);
    if from != s.lead { PeerNetPop(net); }
    FollowMoved(s, s', to);
  }

  lemma PeerNetPop(net: seq<Packet>)
    requires PeerNet(net) && |net| > 0
    ensures PeerNet(net[1..])
  {
  }

  lemma FollowHears(s: Sys, from: NodeId, to: NodeId, m: Input, tag: nat)
    requires Inv(s) && from in s.nodes && to in s.nodes && from != to && to != s.lead
    requires |s.net[(from, to)]| > 0 && Carries(s.net[(from, to)][0], from, m)
    requires tag == TagOf(s.net[(from, to)][0], s.nodes[to].session)
    ensures LeadHistory(s.nodes[s.lead])
    ensures PairInv(s.nodes[s.lead], s.nodes[to], s.net[(s.lead, to)], s.net[(to, s.lead)], to)
    ensures FollowInv(s.nodes[to], s.nodes.Keys - {to})
    ensures FollowInput(s.nodes[to].office, m) && m.status != S132
    ensures var down := s.net[(s.lead, to)];
            FollowProof.Source(m, tag, down, if from == s.lead then down[1..] else down)
  {
    hide FollowLane, PeerNet, FollowInput, Carries, TagOf, FollowProof.Source, UpInv, DownInv, Agree, Joined,
      LeadHistory, LeadPhase, Lane;
    var i, j := s.nodes[s.lead], s.nodes[to];
    assert PairInv(i, j, s.net[(s.lead, to)], s.net[(to, s.lead)], to);
    assert from in j.office.replied;
    if from == s.lead {
      FollowReceives(i, j, s.net[(s.lead, to)], from, m, j.session);
    } else {
      PeerReceives(j, s.net[(from, to)], s.net[(s.lead, to)], from, m, tag);
    }
  }

  // ---------- timer ticks and local events ----------

  lemma LocalShape(s: Sys, a: Move)
    requires Wired(s) && Enabled(s, a) && (a.Tick? || a.Local?)
    ensures a.to in s.nodes
    ensures var n := s.nodes[a.to];
            var n0 := if a.Tick? then n.(ticks := n.ticks[1..]) else n;
            Next(s, a) == s.(nodes := s.nodes[a.to := Handled(n0, a.input, n.session)])
    ensures a.Tick? ==> |s.nodes[a.to].ticks| > 0 && a.input.status == s.nodes[a.to].ticks[0]
    ensures a.Local? ==>
              && (a.input.status == S300 || a.input.status == S320 || a.input.status == S500)
              && (a.input.status == S500 || a.to == s.lead || s.nodes[a.to].office.state != Ready)
  {
    hide Handled, Carries, TagOf;
  }

  lemma LeadTicksDown(i: Node, others: set<NodeId>)
    requires LeadInv(i, others) && |i.ticks| > 0
    ensures var i' := i.(ticks := i.ticks[1..]);
            && LeadInv(i', others)
            && (i.ticks[0] == S156 ==> Idling(i'))
            && (i.ticks[0] == S132 || i.ticks[0] == S156)
            && i.office.state != SendingNewFileMetadataWithMore
  {
    assert Lane(i);
    Channels.LaneTick(i);
    hide Lane, LeadHistory, LeadPhase;
    assert LeadHistory(i.(ticks := i.ticks[1..])) && LeadPhase(i.(ticks := i.ticks[1..])) by {
      LeadFrame(i, i.(ticks := i.ticks[1..]));
    }
  }

  lemma LeadFrame(i: Node, i': Node)
    requires i' == i.(tickets := i'.tickets, dispatcher := i'.dispatcher, ticks := i'.ticks, out := i'.out)
    ensures LeadHistory(i) == LeadHistory(i') && LeadPhase(i) == LeadPhase(i')
  {
  }

  lemma LeadLocal(s: Sys, a: Move)
    requires Inv(s) && Enabled(s, a) && (a.Tick? || a.Local?) && a.to == s.lead
    ensures Inv(Next(s, a))
  {
    hide LeadInv, FollowInv, PairInv, PeerNet, LeadInput, Handled, Enabled, Next, LeadProof.Source;
    var s' := Next(s, a);
    StillWired(s, a);
    LocalShape(s, a);
    var n, others, m := s.nodes[s.lead], s.nodes.Keys - {s.lead}, a.input;
    var i := if a.Tick? then n.(ticks := n.ticks[1..]) else n;
    if a.Tick? { LeadTicksDown(n, others); }
    LocalInput(i.office, m);
    LeadHandles(i, others, m, n.session);
    forall j | j in s.nodes && j != s.lead
      ensures PairInv(s'.nodes[s.lead], s'.nodes[j], s'.net[(s.lead, j)], s'.net[(j, s.lead)], j)
    {
      assert PairInv(n, s.nodes[j], s.net[(s.lead, j)], s.net[(j, s.lead)], j);
      if a.Tick? { Channels.LeadDispatches(n, i, s.nodes[j], s.net[(s.lead, j)], s.net[(j, s.lead)], j); }
      LocalSource(m, j, s.net[(j, s.lead)]);
      LeadHandlesPair(i, s.nodes[j], s.net[(s.lead, j)], s.net[(j, s.lead)], s.net[(j, s.lead)], j, others, m,
                      n.session);
    }
    LeadMoved(s, s');
  }

  lemma LocalInput(o: Office, m: Input)
    requires m.status == S300 || m.status == S320 || m.status == S500 || m.status == S156
             || (m.status == S132 && o.state != SendingNewFileMetadataWithMore)
    ensures LeadInput(o, m) && !FollowStatus(m.status)
  {
  }

  lemma LocalSource(m: Input, id: NodeId, up: seq<Packet>)
    requires !FollowStatus(m.status)
    ensures LeadProof.Source(m, id, up, up)
  {
  }

  lemma FollowTicksDown(j: Node, others: set<NodeId>)
    requires FollowInv(j, others) && |j.ticks| > 0
    ensures var j' := j.(ticks := j.ticks[1..]);
            && FollowInv(j', others)
            && (j.ticks[0] == S132 ==>
                  !Loaded(j') && (j.office.state == PromotingNewFileMetadata ==> j.office.notified))
            && (j.ticks[0] == S132 || j.ticks[0] == S156)
  {
    var j' := j.(ticks := j.ticks[1..]);
    assert j.ticks == [j.ticks[0]] + j'.ticks;
    assert Loaded(j') ==> Loaded(j);
  }

  lemma FollowLocal(s: Sys, a: Move)
    requires Inv(s) && Enabled(s, a) && (a.Tick? || a.Local?) && a.to != s.lead
    ensures Inv(Next(s, a))
  {
    hide FollowInv, PairInv, PeerNet, FollowInput, Handled, Enabled, Next, FollowProof.Source, LeadHistory,
      LeadPhase, Lane;
    var s' := Next(s, a);
    StillWired(s, a);
    LocalShape(s, a);
    var n, others, m := s.nodes[a.to], s.nodes.Keys - {a.to}, a.input;
    var i := s.nodes[s.lead];
    var j := if a.Tick? then n.(ticks := n.ticks[1..]) else n;
    var down, up := s.net[(s.lead, a.to)], s.net[(a.to, s.lead)];
    assert PairInv(i, n, down, up, a.to);
    if a.Tick? {
      FollowTicksDown(n, others);
      Channels.FollowDispatches(i, n, j, down, up, a.to);
    }
    LocalFollowInput(j.office, m, n.session, down);
    FollowHandles(i, j, down, down, up, a.to, others, m, n.session);
    FollowMoved(s, s', a.to);
  }

  lemma LocalFollowInput(o: Office, m: Input, tag: nat, down: seq<Packet>)
    requires m.status == S500 || m.status == S156 || m.status == S132
             || ((m.status == S300 || m.status == S320) && o.state != Ready)
    ensures FollowInput(o, m) && FollowProof.Source(m, tag, down, down)
  {
  }
}
