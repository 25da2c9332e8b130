/** Steps of a following node keep the invariant. */
module FollowProof {
  import opened Fsm
  import opened FileStore
  import opened Boxoffice
  import opened Roles
  import opened Flock
  import opened Invariant
  import LeadProof

  /** Where the message came from: the head of the lead's channel, or somewhere else. */
  ghost predicate Source(m: Input, tag: nat, down: seq<Packet>, down': seq<Packet>) {
    || (down' == down
        && (FollowStatus(m.status) || m.status == S210 || m.status == S132 || m.status == S156
            || m.status == S300 || m.status == S320 || m.status == S500))
    || (|down| > 0 && down' == down[1..]
        && (down[0].Hb? ==> tag == down[0].tag.session)
        && exists from :: Carries(down[0], from, m))
  }

  lemma SourceNet(m: Input, tag: nat, down: seq<Packet>, down': seq<Packet>)
    requires Source(m, tag, down, down')
    ensures down' == down || (|down| > 0 && down' == down[1..])
  {
  }

  // ---------- how a step changes the node ----------

  lemma QuietNode(j: Node, m: Input, tag: nat, r: Result)
    requires FollowState(j.office.state) && FollowQuiet(j.office, m, r)
    ensures Absorb(j, m, tag, r) ==
            j.(office := r.office, out := j.out + Stamp(j.session, r.beats), stopped := r.outcome != Done)
  {
    LeadProof.NoTickets(j.session, r);
    hide Stamp, Tickets;
  }

  lemma AdoptNode(j: Node, m: Input, tag: nat, r: Result)
    requires FollowAdopt(j.office, m, r)
    ensures Absorb(j, m, tag, r) ==
            j.(office := r.office, session := tag, out := j.out + [Tagged(tag, r.beats[0])], stopped := false)
  {
    assert Stamp(tag, r.beats) == [Tagged(tag, r.beats[0])];
    hide Stamp;
  }

  lemma GoOnNode(j: Node, m: Input, tag: nat, r: Result)
    requires FollowGoOn(j.office, m, r)
    ensures var j' := Absorb(j, m, tag, r);
            j' == j.(office := r.office, out := j.out + [Tagged(j.session, r.beats[0])], stopped := false,
                     ended := j'.ended)
  {
    LeadProof.NoTickets(j.session, r);
    assert Stamp(j.session, r.beats) == [Tagged(j.session, r.beats[0])];
    hide Stamp, Tickets;
  }

  lemma RecordNode(j: Node, m: Input, tag: nat, r: Result)
    requires FollowRecord(j.office, m, r)
    ensures Absorb(j, m, tag, r) ==
            j.(office := r.office, tickets := j.tickets + [Ticket(j.session, Pretend(m.deadline))],
               stopped := r.outcome != Done)
  {
    LeadProof.OneTicket(j.session, Pretend(m.deadline));
    assert Stamp(j.session, r.beats) == [];
    hide Stamp, Tickets;
  }

  lemma ApplyNode(j: Node, m: Input, tag: nat, r: Result)
    requires FollowApply(j.office, m, r)
    ensures Absorb(j, m, tag, r) ==
            j.(office := r.office, out := j.out + [Tagged(j.session, r.beats[0])], stopped := false,
               applied := j.applied[j.session := (m.status, m.file)])
  {
    assert Stamp(j.session, r.beats) == [Tagged(j.session, r.beats[0])];
    hide Stamp;
  }

  lemma DataNode(j: Node, m: Input, tag: nat, r: Result)
    requires FollowData(j.office, m, r)
    ensures var j' := Absorb(j, m, tag, r);
            if m.more then j' == j.(office := r.office, stopped := r.outcome != Done)
            else j' == j.(office := r.office, out := j.out + [Tagged(j.session, r.beats[0])], stopped := false,
                          stored := j.stored + {j.session})
  {
    assert m.more ==> Stamp(j.session, r.beats) == [];
    assert !m.more ==> Stamp(j.session, r.beats) == [Tagged(j.session, r.beats[0])];
    hide Stamp, Received;
  }

  // ---------- what the channels need ----------

  /** New heartbeats join j's updates at the end; what j has done is only added to. */
  lemma UpGrows(i: Node, j: Node, j': Node, up: seq<Packet>, id: NodeId, added: seq<Tagged>)
    requires id in i.office.replied && UpInv(i, j, up, id)
    requires j.session <= j'.session && j.stored <= j'.stored && j.applied.Keys <= j'.applied.Keys
    requires j'.out == j.out + added && |added| <= 1
    requires MetadataSide(j'.office.state) ==> MetadataSide(j.office.state) || j.session < j'.session
    requires |added| == 1 ==>
               && (added[0].beat.status == S121 ==> !MetadataSide(j'.office.state))
               && FollowStatus(added[0].beat.status) && added[0].session <= j'.session
               && FollowKey(added[0]) >= FollowKey(j.out[|j.out| - 1])
               && (added[0].beat.status == S140 ==> added[0].session in j'.stored)
               && (added[0].beat.status == S141 ==> added[0].session in j'.applied)
    ensures UpInv(i, j', up, id)
  {
    hide FollowStatus, LowUp, FollowRank;
    assert UpEntry(j.out[|j.out| - 1], i, j, id);
    LeadProof.OrderedAppend(up, j.out, added, false);
    forall p | 0 <= p < |up| && up[p].Hb?
      ensures UpEntry(up[p].tag, i, j', id)
    {
      assert UpEntry(up[p].tag, i, j, id);
    }
    forall p | 0 <= p < |j'.out|
      ensures UpEntry(j'.out[p], i, j', id)
    {
      if p < |j.out| { assert UpEntry(j.out[p], i, j, id); }
    }
  }

  /** Within a session, what j has done is only added to. */
  lemma JoinedGrows(i: Node, j: Node, j': Node, id: NodeId)
    requires id in i.office.replied && Joined(i, j, id) && Finished(i, j)
    requires j'.session == j.session && j.stored <= j'.stored && j.applied.Keys <= j'.applied.Keys
    requires MetadataSide(j'.office.state) ==> MetadataSide(j.office.state)
    ensures Joined(i, j', id) && Finished(i, j')
  {
    hide Collected, Active, Announcing, MetadataSide;
  }

  /** The lower end rises with what j takes from the channel. */
  lemma DownRises(i: Node, j: Node, j': Node, down: seq<Packet>, down': seq<Packet>)
    requires DownInv(i, j, down)
    requires down' == down || (|down| > 0 && down' == down[1..])
    requires j.session <= j'.session
    requires LowDown(j') <= LowDown(j)
             || (LeadProof.Popped(down, down') && LowDown(j') <= LeadKey(down[0].tag))
    requires j'.session == j.session || (LeadProof.Popped(down, down') && down[0].tag.session > j.session)
    ensures DownInv(i, j', down')
  {
    hide LeadRank, LowDown, Small;
    forall p | 0 <= p < |down'| && down'[p].Hb?
      ensures DownEntry(down'[p].tag, i, j')
    {
      var q := if down' == down then p else p + 1;
      assert down'[p] == down[q] && DownEntry(down[q].tag, i, j);
      if LeadProof.Popped(down, down') && q > 0 { assert Key(true, down[0].tag) <= Key(true, down[q].tag); }
    }
    forall p | 0 <= p < |i.out|
      ensures DownEntry(i.out[p], i, j')
    {
      assert DownEntry(i.out[p], i, j);
      if LeadProof.Popped(down, down') {
        assert Key(true, down[0].tag) <= Key(true, i.out[0]);
        assert p > 0 ==> Key(true, i.out[0]) <= Key(true, i.out[p]);
      }
    }
    forall p | 0 <= p < |down'| && down'[p].Data?
      ensures DataEntry(down'[p], i, j')
    {
      var q := if down' == down then p else p + 1;
      assert down'[p] == down[q] && DataEntry(down[q], i, j);
    }
    LeadProof.OrderedPop(down, down', i.out, true);
  }

  /** A status that only the lead advertises is at the head of its channel. */
  lemma LeadSays(i: Node, j: Node, m: Input, tag: nat, down: seq<Packet>, down': seq<Packet>)
    requires Source(m, tag, down, down') && DownInv(i, j, down)
    requires LeadStatus(m.status) && !FollowStatus(m.status)
    ensures LeadProof.Popped(down, down')
    ensures var e := down[0].tag;
            && e.beat.status == m.status && e.session == tag
            && DownEntry(e, i, j)
            && (e.beat.file.Some? ==> m.file == e.beat.file.value)
  {
    hide DownEntry;
  }

  /** Data comes from the lead alone. */
  lemma LeadSends(i: Node, j: Node, m: Input, tag: nat, down: seq<Packet>, down': seq<Packet>)
    requires Source(m, tag, down, down') && DownInv(i, j, down) && m.status == S200
    ensures |down| > 0 && down' == down[1..] && down[0].Data? && DataEntry(down[0], i, j)
    ensures m.offset == down[0].offset && m.chunk == down[0].chunk && m.more == down[0].more
  {
    assert forall p :: 0 <= p < |down| && down[p].Hb? ==> DownEntry(down[p].tag, i, j);
  }

  // ---------- quiet steps ----------

  lemma QuietFollow(j: Node, others: set<NodeId>, m: Input, tag: nat, r: Result)
    requires FollowInv(j, others) && FollowQuiet(j.office, m, r)
    requires r.office.replied.Keys == others
    ensures FollowInv(Absorb(j, m, tag, r), others)
  {
    QuietNode(j, m, tag, r);
    hide Absorb, OnlyStop;
  }

  lemma QuietPair(i: Node, j: Node, down: seq<Packet>, down': seq<Packet>, up: seq<Packet>, id: NodeId,
                  others: set<NodeId>, m: Input, tag: nat, r: Result)
    requires FollowInv(j, others) && PairInv(i, j, down, up, id)
    requires FollowQuiet(j.office, m, r) && Source(m, tag, down, down')
    ensures PairInv(i, Absorb(j, m, tag, r), down', up, id)
  {
    QuietNode(j, m, tag, r);
    var j' := Absorb(j, m, tag, r);
    assert Agree(i, j') by { hide Absorb, FollowLane, UpInv, DownInv, Small, Holds; }
    JoinedGrows(i, j, j', id);
    hide Joined, Finished, Absorb, OnlyStop, FollowLane, Agree;
    UpGrows(i, j, j', up, id, Stamp(j.session, r.beats));
    DownRises(i, j, j', down, down');
  }

  // ---------- joining a session ----------

  lemma AdoptFollow(j: Node, others: set<NodeId>, m: Input, tag: nat, r: Result)
    requires FollowInv(j, others) && FollowAdopt(j.office, m, r) && tag > j.session
    requires r.office.replied.Keys == others
    ensures FollowInv(Absorb(j, m, tag, r), others)
  {
    AdoptNode(j, m, tag, r);
    hide Absorb;
  }

  lemma AdoptsLater(i: Node, j: Node, down: seq<Packet>, down': seq<Packet>, m: Input, tag: nat, r: Result)
    requires DownInv(i, j, down) && Source(m, tag, down, down') && FollowAdopt(j.office, m, r)
    ensures j.session < tag <= i.session
    ensures LeadProof.Popped(down, down') && down[0].tag.session == tag
            && 16 * tag + 1 <= LeadKey(down[0].tag)
  {
    LeadSays(i, j, m, tag, down, down');
    hide DownInv, Source, Kept;
  }

  lemma AdoptPair(i: Node, j: Node, down: seq<Packet>, down': seq<Packet>, up: seq<Packet>, id: NodeId,
                  others: set<NodeId>, m: Input, tag: nat, r: Result)
    requires FollowInv(j, others) && PairInv(i, j, down, up, id)
    requires FollowAdopt(j.office, m, r) && Source(m, tag, down, down')
    ensures PairInv(i, Absorb(j, m, tag, r), down', up, id)
  {
    AdoptNode(j, m, tag, r);
    AdoptsLater(i, j, down, down', m, tag, r);
    var j' := Absorb(j, m, tag, r);
    assert Agree(i, j') by { hide Absorb, FollowLane, UpInv, DownInv, Small, Holds, Source; }
    hide Absorb, FollowLane, Agree, Source;
    UpGrows(i, j, j', up, id, [Tagged(tag, r.beats[0])]);
    DownRises(i, j, j', down, down');
  }

  // ---------- going on ----------

  lemma GoOnFollow(j: Node, others: set<NodeId>, m: Input, tag: nat, r: Result)
    requires FollowInv(j, others) && FollowGoOn(j.office, m, r)
    requires r.office.replied.Keys == others
    requires m.status == S132 ==> !Loaded(j)
    requires !(j.office.state == PromotingNewFileMetadata && m.status == S134)
    ensures FollowInv(Absorb(j, m, tag, r), others)
  {
    GoOnNode(j, m, tag, r);
    var j' := Absorb(j, m, tag, r);
    assert FollowLane(j') by { hide Absorb, OnlyStop; }
    hide Absorb, OnlyStop, FollowLane;
  }

  /** Each message that moves j on is of its own session where it comes from the lead. */
  lemma GoOnLow(i: Node, j: Node, j': Node, down: seq<Packet>, down': seq<Packet>, m: Input, tag: nat, r: Result)
    requires DownInv(i, j, down) && Source(m, tag, down, down') && FollowGoOn(j.office, m, r)
    requires j'.office == r.office && j'.session == j.session
    ensures LowDown(j') <= LowDown(j)
            || (LeadProof.Popped(down, down') && LowDown(j') <= LeadKey(down[0].tag))
    ensures m.status == S130 || m.status == S134 ==>
              j.session in i.files && i.files[j.session].status == m.status
  {
    if LeadStatus(m.status) && !FollowStatus(m.status) {
      LeadSays(i, j, m, tag, down, down');
    }
    hide DownInv, Source, Kept, OnlyStop;
  }

  lemma GoOnAgree(i: Node, j: Node, j': Node, others: set<NodeId>, m: Input, r: Result)
    requires FollowInv(j, others) && Agree(i, j) && LeadHistory(i) && FollowGoOn(j.office, m, r)
    requires m.status == S130 || m.status == S134 ==>
               j.session in i.files && i.files[j.session].status == m.status
    requires m.status == S132 && j.office.state == PromotingNewFileMetadata ==> j.office.notified
    requires j'.office == r.office && j'.session == j.session && j'.stored == j.stored && j'.applied == j.applied
    ensures Agree(i, j')
    ensures !(j.office.state == PromotingNewFileMetadata && m.status == S134)
  {
    hide FollowLane, Small, Holds, OnlyStop, FollowState, FollowStateRank, FollowRank;
  }

  lemma GoOnPair(i: Node, j: Node, down: seq<Packet>, down': seq<Packet>, up: seq<Packet>, id: NodeId,
                 others: set<NodeId>, m: Input, tag: nat, r: Result)
    requires FollowInv(j, others) && PairInv(i, j, down, up, id) && LeadHistory(i)
    requires FollowGoOn(j.office, m, r) && Source(m, tag, down, down')
    requires m.status == S132 && j.office.state == PromotingNewFileMetadata ==> j.office.notified
    ensures PairInv(i, Absorb(j, m, tag, r), down', up, id)
    ensures !(j.office.state == PromotingNewFileMetadata && m.status == S134)
  {
    hide Joined, Finished, Absorb, FollowLane, Agree, Source, OnlyStop, LeadHistory;
    GoOnNode(j, m, tag, r);
    var j' := Absorb(j, m, tag, r);
    SourceNet(m, tag, down, down');
    GoOnLow(i, j, j', down, down', m, tag, r);
    GoOnAgree(i, j, j', others, m, r);
    JoinedGrows(i, j, j', id);
    UpGrows(i, j, j', up, id, [Tagged(j.session, r.beats[0])]);
    DownRises(i, j, j', down, down');
  }

  // ---------- records and data ----------

  lemma RecordFollow(j: Node, others: set<NodeId>, m: Input, tag: nat, r: Result)
    requires FollowInv(j, others) && FollowRecord(j.office, m, r)
    requires r.office.replied.Keys == others
    ensures FollowInv(Absorb(j, m, tag, r), others)
  {
    RecordNode(j, m, tag, r);
    hide Absorb;
  }

  lemma RecordPair(i: Node, j: Node, down: seq<Packet>, down': seq<Packet>, up: seq<Packet>, id: NodeId,
                   others: set<NodeId>, m: Input, tag: nat, r: Result)
    requires FollowInv(j, others) && PairInv(i, j, down, up, id) && LeadHistory(i)
    requires FollowRecord(j.office, m, r) && Source(m, tag, down, down')
    ensures PairInv(i, Absorb(j, m, tag, r), down', up, id)
  {
    RecordNode(j, m, tag, r);
    var j' := Absorb(j, m, tag, r);
    LeadSays(i, j, m, tag, down, down');
    assert Agree(i, j') by { hide Absorb, FollowLane, UpInv, DownInv, Small, Holds, Source; }
    JoinedGrows(i, j, j', id);
    hide Joined, Finished, Absorb, FollowLane, Agree, Source, LeadHistory;
    UpGrows(i, j, j', up, id, []);
    DownRises(i, j, j', down, down');
  }

  lemma ApplyFollow(j: Node, others: set<NodeId>, m: Input, tag: nat, r: Result)
    requires FollowInv(j, others) && FollowApply(j.office, m, r)
    requires r.office.replied.Keys == others
    ensures FollowInv(Absorb(j, m, tag, r), others)
  {
    ApplyNode(j, m, tag, r);
    hide Absorb;
  }

  lemma ApplyAgree(i: Node, j: Node, down: seq<Packet>, down': seq<Packet>, up: seq<Packet>, id: NodeId,
                   others: set<NodeId>, m: Input, tag: nat, r: Result)
    requires FollowInv(j, others) && PairInv(i, j, down, up, id) && LeadHistory(i)
    requires FollowApply(j.office, m, r) && Source(m, tag, down, down')
    ensures Agree(i, Absorb(j, m, tag, r))
  {
    LeadSays(i, j, m, tag, down, down');
    hide Absorb, FollowLane, UpInv, DownInv, Small, Holds, Source, Joined, Finished;
    ApplyNode(j, m, tag, r);
  }

  lemma ApplyPair(i: Node, j: Node, down: seq<Packet>, down': seq<Packet>, up: seq<Packet>, id: NodeId,
                  others: set<NodeId>, m: Input, tag: nat, r: Result)
    requires FollowInv(j, others) && PairInv(i, j, down, up, id) && LeadHistory(i)
    requires FollowApply(j.office, m, r) && Source(m, tag, down, down')
    ensures PairInv(i, Absorb(j, m, tag, r), down', up, id)
  {
    ApplyAgree(i, j, down, down', up, id, others, m, tag, r);
    hide Joined, Finished, Absorb, FollowLane, Agree, Source, LeadHistory;
    ApplyNode(j, m, tag, r);
    var j' := Absorb(j, m, tag, r);
    SourceNet(m, tag, down, down');
    LeadSays(i, j, m, tag, down, down');
    JoinedGrows(i, j, j', id);
    UpGrows(i, j, j', up, id, [Tagged(j.session, r.beats[0])]);
    DownRises(i, j, j', down, down');
  }

  /** A whole file in one packet ends up at the start of the file on disk. */
  lemma ReceivedHolds(disk: map<string, seq<byte>>, f: Record, m: Input)
    requires Small(f) && m.offset == 0 && |m.chunk| == f.size
    ensures Holds(Received(disk, f, m), f, m.chunk)
  {
    var open := Opened(disk, f);
    assert f.path in open;
    var before := open[f.path];
    assert m.chunk[..WriteLength(f.size, |m.chunk|)] == m.chunk;
    var after := WriteAt(before, 0, m.chunk);
    assert Received(disk, f, m)[f.path] == after;
    if m.chunk != [] { assert after[0..|m.chunk|] == m.chunk; }
    assert m.chunk <= after;
  }

  lemma DataFollow(j: Node, others: set<NodeId>, m: Input, tag: nat, r: Result)
    requires FollowInv(j, others) && FollowData(j.office, m, r)
    requires r.office.replied.Keys == others
    ensures FollowInv(Absorb(j, m, tag, r), others)
  {
    DataNode(j, m, tag, r);
    hide Absorb, Received;
  }

  lemma DataAgree(i: Node, j: Node, j': Node, others: set<NodeId>, m: Input, r: Result, p: Packet)
    requires FollowInv(j, others) && Agree(i, j) && FollowData(j.office, m, r)
    requires p.Data? && DataEntry(p, i, j)
    requires m.offset == p.offset && m.chunk == p.chunk && m.more == p.more
    requires j'.office == r.office && j'.session == j.session && j'.applied == j.applied
    requires j'.stored == if m.more then j.stored else j.stored + {j.session}
    ensures Agree(i, j')
  {
    var f := i.files[j.session].file.value;
    if Small(f) { ReceivedHolds(j.office.disk, f, m); }
    hide FollowLane, Small, Holds, FollowState, FollowStateRank, FollowRank, Received;
  }

  lemma DataPair(i: Node, j: Node, down: seq<Packet>, down': seq<Packet>, up: seq<Packet>, id: NodeId,
                 others: set<NodeId>, m: Input, tag: nat, r: Result)
    requires FollowInv(j, others) && PairInv(i, j, down, up, id)
    requires FollowData(j.office, m, r) && Source(m, tag, down, down')
    ensures PairInv(i, Absorb(j, m, tag, r), down', up, id)
  {
    DataNode(j, m, tag, r);
    var j' := Absorb(j, m, tag, r);
    LeadSends(i, j, m, tag, down, down');
    DataAgree(i, j, j', others, m, r, down[0]);
    JoinedGrows(i, j, j', id);
    hide Joined, Finished, Absorb, FollowLane, Agree, Source, Received;
    UpGrows(i, j, j', up, id, if m.more then [] else [Tagged(j.session, r.beats[0])]);
    DownRises(i, j, j', down, down');
  }

  lemma LeavesFollow(j: Node, others: set<NodeId>, m: Input, tag: nat, r: Result)
    requires FollowInv(j, others) && Leaves(j.office, m, r)
    ensures FollowInv(Absorb(j, m, tag, r), others)
  {
    LeadProof.LeavesNode(j, m, tag, r);
    hide Absorb;
  }

  lemma LeavesPair(i: Node, j: Node, down: seq<Packet>, down': seq<Packet>, up: seq<Packet>, id: NodeId,
                   others: set<NodeId>, m: Input, tag: nat, r: Result)
    requires FollowInv(j, others) && PairInv(i, j, down, up, id)
    requires Leaves(j.office, m, r) && Source(m, tag, down, down')
    ensures PairInv(i, Absorb(j, m, tag, r), down', up, id)
  {
    LeadProof.LeavesNode(j, m, tag, r);
    var j' := Absorb(j, m, tag, r);
    assert Agree(i, j') by { hide Absorb, FollowLane, UpInv, DownInv, Small, Holds; }
    JoinedGrows(i, j, j', id);
    hide Joined, Finished, Absorb, FollowLane, Agree;
    UpGrows(i, j, j', up, id, []);
    DownRises(i, j, j', down, down');
  }
}
