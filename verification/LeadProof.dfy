/** Steps of the lead keep the invariant. */
module LeadProof {
  import opened Fsm
  import opened Boxoffice
  import opened Roles
  import opened Flock
  import opened Invariant

  // ---------- how a step changes the node ----------

  lemma NoTickets(session: nat, r: Result)
    requires OnlyStop(r)
    ensures Tickets(session, r.orders) == []
  {
  }

  lemma OneTicket(session: nat, o: Order)
    requires !o.Stop?
    ensures Tickets(session, [o]) == [Ticket(session, o)]
  {
    assert [o][1..] == [];
  }

  lemma QuietNode(i: Node, m: Input, tag: nat, r: Result)
    requires LeadState(i.office.state) && LeadQuiet(i.office, m, r)
    ensures Absorb(i, m, tag, r) ==
            i.(office := r.office, out := i.out + Stamp(i.session, r.beats), stopped := r.outcome != Done)
  {
    NoTickets(i.session, r);
    hide Stamp, Tickets;
  }

  lemma AnnounceNode(i: Node, m: Input, tag: nat, r: Result)
    requires LeadState(i.office.state) && LeadAnnounce(i.office, m, r)
    ensures var session := if i.office.state == Ready then i.session + 1 else i.session;
            Absorb(i, m, tag, r) ==
            i.(office := r.office, session := session, out := i.out + [Tagged(session, r.beats[0])],
               stopped := false)
  {
    var session := if i.office.state == Ready then i.session + 1 else i.session;
    NoTickets(session, r);
    assert Stamp(session, r.beats) == [Tagged(session, r.beats[0])];
    hide Stamp, Tickets;
  }

  lemma TimerNode(i: Node, m: Input, tag: nat, r: Result)
    requires LeadState(i.office.state) && LeadTimer(i.office, m, r)
    ensures Absorb(i, m, tag, r) ==
            i.(office := r.office, out := i.out + [Tagged(i.session, r.beats[0])], stopped := false)
  {
    NoTickets(i.session, r);
    assert Stamp(i.session, r.beats) == [Tagged(i.session, r.beats[0])];
    hide Stamp, Tickets;
  }

  lemma LeavesNode(i: Node, m: Input, tag: nat, r: Result)
    requires Leaves(i.office, m, r)
    ensures Absorb(i, m, tag, r) == i.(office := i.office.(state := Exit), stopped := false)
  {
    assert Stamp(i.session, r.beats) == [];
    hide Stamp;
  }

  /** The node after a full round. */
  function Round(i: Node, r: Result): Node
    requires |r.beats| == 1
  {
    var b := r.beats[0];
    i.(office := r.office, out := i.out + [Tagged(i.session, b)], stopped := false,
       tickets := i.tickets + (if b.status == S130 && |r.orders| == 1 then [Ticket(i.session, r.orders[0])] else []),
       metas := if b.status == S170 || b.status == S174 then i.metas[i.session := b] else i.metas,
       files := if b.status == S130 || b.status == S134 then i.files[i.session := b] else i.files,
       ended := if b.status == S155 || b.status == S150 then i.ended + {i.session} else i.ended)
  }

  lemma RoundNode(i: Node, m: Input, tag: nat, r: Result)
    requires LeadState(i.office.state) && LeadRound(i.office, m, r)
    ensures Absorb(i, m, tag, r) == Round(i, r)
  {
    if r.beats[0].status == S130 {
      OneTicket(i.session, r.orders[0]);
      assert r.orders == [r.orders[0]];
    } else {
      NoTickets(i.session, r);
    }
    assert Stamp(i.session, r.beats) == [Tagged(i.session, r.beats[0])];
    hide Stamp, Tickets, Awaited, Full, AllFalse;
  }

  // ---------- what the channels and the other node need ----------

  /** History is only added to. */
  ghost predicate Grows(i: Node, i': Node) {
    && i.session <= i'.session
    && (forall u :: u in i.metas ==> u in i'.metas && i'.metas[u] == i.metas[u])
    && (forall u :: u in i.files ==> u in i'.files && i'.files[u] == i.files[u])
    && (forall u :: u in i.sent ==> u in i'.sent && i'.sent[u] == i.sent[u])
  }

  lemma AgreeGrows(i: Node, i': Node, j: Node)
    requires Grows(i, i') && Agree(i, j)
    ensures Agree(i', j)
  {
    hide Holds, Small;
  }

  lemma EntryGrows(e: Tagged, i: Node, i': Node, j: Node)
    requires Grows(i, i') && DownEntry(e, i, j)
    ensures DownEntry(e, i', j)
  {
    hide LeadRank, LowDown, LeadKey;
  }

  /** New heartbeats join the lead's updates at the end. */
  lemma DownGrows(i: Node, i': Node, j: Node, down: seq<Packet>, added: seq<Tagged>)
    requires Grows(i, i') && DownInv(i, j, down) && i'.out == i.out + added
    requires |added| <= 1
    requires |added| == 1 ==> DownEntry(added[0], i', j) && LeadKey(added[0]) >= LeadKey(i.out[|i.out| - 1])
    ensures DownInv(i', j, down)
  {
    forall p | 0 <= p < |down| && down[p].Hb?
      ensures DownEntry(down[p].tag, i', j)
    {
      EntryGrows(down[p].tag, i, i', j);
    }
    forall p | 0 <= p < |i.out|
      ensures DownEntry(i.out[p], i', j)
    {
      EntryGrows(i.out[p], i, i', j);
    }
    hide DownEntry, LeadKey, Small;
    OrderedAppend(down, i.out, added, true);
  }

  lemma OrderedAppend(net: seq<Packet>, out: seq<Tagged>, added: seq<Tagged>, lead: bool)
    requires Ordered(net, out, lead) && |added| <= 1
    requires |added| == 1 ==> Key(lead, added[0]) >= Key(lead, out[|out| - 1])
    ensures Ordered(net, out + added, lead)
  {
    hide Key;
    var all := out + added;
    forall p, q | 0 <= p < q < |all|
      ensures Key(lead, all[p]) <= Key(lead, all[q])
    {
      if q == |out| && p < |out| - 1 { assert Key(lead, out[p]) <= Key(lead, out[|out| - 1]); }
    }
  }

  /** Where the message came from: the head of j's channel, or somewhere else. */
  ghost predicate Source(m: Input, id: NodeId, up: seq<Packet>, up': seq<Packet>) {
    || (up' == up && (FollowStatus(m.status) ==> m.sender != id))
    || (|up| > 0 && up' == up[1..] && up[0].Hb? && up[0].tag.beat.status == m.status && m.sender == id)
    || (|up| > 0 && up' == up[1..] && up[0].Noise? && m.status == S210)
  }

  predicate Popped(up: seq<Packet>, up': seq<Packet>) { |up| > 0 && up' == up[1..] && up[0].Hb? }

  lemma UpLowers(i: Node, i': Node, j: Node, up: seq<Packet>, up': seq<Packet>, id: NodeId)
    requires id in i.office.replied && id in i'.office.replied
    requires UpInv(i, j, up, id)
    requires up' == up || (|up| > 0 && up' == up[1..])
    requires LowUp(i', id) <= LowUp(i, id) || (Popped(up, up') && LowUp(i', id) <= FollowKey(up[0].tag))
    ensures UpInv(i', j, up', id)
  {
    hide FollowStatus, LowUp, FollowRank;
    forall p | 0 <= p < |up'| && up'[p].Hb?
      ensures UpEntry(up'[p].tag, i', j, id)
    {
      var q := if up' == up then p else p + 1;
      assert up'[p] == up[q] && UpEntry(up[q].tag, i, j, id);
      if Popped(up, up') && q > 0 { assert Key(false, up[0].tag) <= Key(false, up[q].tag); }
    }
    forall p | 0 <= p < |j.out|
      ensures UpEntry(j.out[p], i', j, id)
    {
      assert UpEntry(j.out[p], i, j, id);
      if Popped(up, up') {
        assert Key(false, up[0].tag) <= Key(false, j.out[0]);
        assert p > 0 ==> Key(false, j.out[0]) <= Key(false, j.out[p]);
      }
    }
    OrderedPop(up, up', j.out, false);
  }

  lemma OrderedPop(net: seq<Packet>, net': seq<Packet>, out: seq<Tagged>, lead: bool)
    requires Ordered(net, out, lead)
    requires net' == net || (|net| > 0 && net' == net[1..])
    ensures Ordered(net', out, lead)
  {
    hide Key;
  }

  // ---------- quiet steps ----------

  lemma QuietLead(i: Node, others: set<NodeId>, m: Input, tag: nat, r: Result)
    requires LeadInv(i, others) && LeadQuiet(i.office, m, r) && m.status != NullStatus
    requires m.status == Awaited(i.office.state) ==> m.sender in others
    ensures LeadInv(Absorb(i, m, tag, r), others)
  {
    QuietNode(i, m, tag, r);
    var i' := Absorb(i, m, tag, r);
    assert i'.office.replied.Keys == others by { hide LeadHistory, LeadPhase, Lane; }
    hide Absorb, Lane, TicketOf, OnlyStop;
    assert Lane(i) == Lane(i') by { LaneFrame(i, i'); }
  }

  /** The lane depends on the dispatcher and on the session's history only. */
  lemma LaneFrame(i: Node, i': Node)
    requires i'.tickets == i.tickets && i'.dispatcher == i.dispatcher && i'.ticks == i.ticks
    requires i'.session == i.session && i'.files == i.files && i'.sent == i.sent
    ensures Lane(i) == Lane(i')
  {
  }

  /** A reply of j, now or noted before, is from this session and has the meaning the invariant gives it. */
  lemma ReplyMeans(i: Node, j: Node, id: NodeId, m: Input, up: seq<Packet>, up': seq<Packet>)
    requires id in i.office.replied && LeadState(i.office.state)
    requires Joined(i, j, id) && UpInv(i, j, up, id) && Source(m, id, up, up')
    requires m.status == Awaited(i.office.state) && m.status != NullStatus
    requires i.office.replied[id] || m.sender == id
    ensures j.session == i.session
    ensures i.office.state == SendingNewFile ==> i.session in j.stored
    ensures i.office.state == SendingFileMetadataChange || i.office.state == SendingFileMetadataChangeWithMore ==>
              i.session in j.applied
    ensures i.office.state == AnnouncingNewFile ==> !MetadataSide(j.office.state)
    ensures var low := 16 * i.session + FollowRank(m.status);
            low <= LowUp(i, id) || (Popped(up, up') && low <= FollowKey(up[0].tag))
  {
    if !i.office.replied[id] {
      assert FollowStatus(m.status);
      assert Popped(up, up');
      assert UpEntry(up[0].tag, i, j, id);
    }
  }

  lemma QuietJoined(i: Node, i': Node, j: Node, id: NodeId, m: Input, r: Result,
                    up: seq<Packet>, up': seq<Packet>)
    requires LeadState(i.office.state) && id in i.office.replied && m.status != NullStatus
    requires Joined(i, j, id) && UpInv(i, j, up, id) && Source(m, id, up, up')
    requires LeadQuiet(i.office, m, r)
    requires i'.office == r.office && i'.session == i.session && i'.metas == i.metas && Active(i') == Active(i)
    ensures id in i'.office.replied && Joined(i', j, id)
    ensures LowUp(i', id) <= LowUp(i, id) || (Popped(up, up') && LowUp(i', id) <= FollowKey(up[0].tag))
  {
    if m.sender == id && m.status == Awaited(i.office.state) {
      ReplyMeans(i, j, id, m, up, up');
    }
    hide UpInv, OnlyStop, Active;
  }

  lemma QuietEntry(i: Node, j: Node, id: NodeId, others: set<NodeId>, m: Input, tag: nat, r: Result)
    requires LeadInv(i, others) && LeadQuiet(i.office, m, r) && |r.beats| == 1
    requires id in i.office.replied && Joined(i, j, id)
    ensures DownEntry(Tagged(i.session, r.beats[0]), Absorb(i, m, tag, r), j)
  {
    QuietNode(i, m, tag, r);
    hide Absorb, LeadHistory, LeadPhase, Lane, OnlyStop;
  }

  lemma QuietPair(i: Node, j: Node, down: seq<Packet>, up: seq<Packet>, up': seq<Packet>, id: NodeId,
                  others: set<NodeId>, m: Input, tag: nat, r: Result)
    requires LeadInv(i, others) && PairInv(i, j, down, up, id)
    requires LeadQuiet(i.office, m, r) && Source(m, id, up, up') && m.status != NullStatus
    ensures PairInv(Absorb(i, m, tag, r), j, down, up', id)
  {
    if |r.beats| == 1 { QuietEntry(i, j, id, others, m, tag, r); }
    QuietNode(i, m, tag, r);
    hide Absorb, Agree, LeadHistory, LeadPhase, Lane, OnlyStop, DownEntry;
    var i' := Absorb(i, m, tag, r);
    QuietJoined(i, i', j, id, m, r, up, up');
    UpLowers(i, i', j, up, up', id);
    AgreeGrows(i, i', j);
    DownGrows(i, i', j, down, Stamp(i.session, r.beats));
  }

  // ---------- announcing ----------

  lemma AnnounceLead(i: Node, others: set<NodeId>, m: Input, tag: nat, r: Result)
    requires LeadInv(i, others) && LeadAnnounce(i.office, m, r)
    ensures LeadInv(Absorb(i, m, tag, r), others)
  {
    AnnounceNode(i, m, tag, r);
    hide Absorb, Lane;
  }

  lemma AnnouncePair(i: Node, j: Node, down: seq<Packet>, up: seq<Packet>, id: NodeId,
                     others: set<NodeId>, m: Input, tag: nat, r: Result)
    requires LeadInv(i, others) && PairInv(i, j, down, up, id) && LeadAnnounce(i.office, m, r)
    ensures PairInv(Absorb(i, m, tag, r), j, down, up, id)
  {
    AnnounceNode(i, m, tag, r);
    var i' := Absorb(i, m, tag, r);
    var e := Tagged(i'.session, r.beats[0]);
    AgreeGrows(i, i', j);
    assert DownEntry(i.out[|i.out| - 1], i, j);
    assert DownEntry(e, i', j) && LeadKey(e) >= LeadKey(i.out[|i.out| - 1]) by {
      hide Absorb, Agree, DownInv, UpInv, LeadHistory, LeadPhase, Lane;
    }
    assert Joined(i', j, id) && LowUp(i', id) <= LowUp(i, id) by {
      hide Absorb, Agree, DownInv, UpInv, LeadHistory, LeadPhase, Lane, DownEntry;
    }
    UpLowers(i, i', j, up, up, id);
    hide Absorb, Agree, UpInv, LeadHistory, LeadPhase, Lane, DownEntry, UpEntry, LeadKey, LowUp, Joined;
    DownGrows(i, i', j, down, [e]);
  }

  // ---------- a full round ----------

  lemma RoundPhase(i: Node, others: set<NodeId>, m: Input, r: Result)
    requires LeadInv(i, others) && LeadRound(i.office, m, r)
    ensures LeadHistory(Round(i, r)) && LeadPhase(Round(i, r)) && Grows(i, Round(i, r))
  {
    RoundHistory(i, others, m, r);
    hide Lane, Idling, Full, AllFalse, Awaited, LeadHistory, Grows;
  }

  lemma RoundHistory(i: Node, others: set<NodeId>, m: Input, r: Result)
    requires LeadInv(i, others) && LeadRound(i.office, m, r)
    ensures LeadHistory(Round(i, r)) && Grows(i, Round(i, r))
  {
    hide Lane, Idling, Full, AllFalse, Awaited;
  }

  lemma RoundLane(i: Node, others: set<NodeId>, m: Input, r: Result)
    requires LeadInv(i, others) && LeadRound(i.office, m, r)
    ensures var i' := Round(i, r);
            if DataPhase(i'.office.state) then Lane(i') else Idling(i')
  {
    var i' := Round(i, r);
    assert r.beats[0].status == S130 ==> Idling(i) && i.session !in i.files && i.session !in i.sent;
    assert i.office.state == SendingNewFile ==> Lane(i) && !(r.beats[0].status == S130);
    if i.office.state == SendingNewFile { LaneFrame(i, i'); }
    hide LeadHistory, LeadPhase, Full, AllFalse, Awaited;
  }

  lemma RoundLead(i: Node, others: set<NodeId>, m: Input, tag: nat, r: Result)
    requires LeadInv(i, others) && LeadRound(i.office, m, r) && m.sender in others
    ensures LeadInv(Absorb(i, m, tag, r), others)
  {
    RoundNode(i, m, tag, r);
    RoundPhase(i, others, m, r);
    RoundLane(i, others, m, r);
    hide Absorb, Lane, Idling, LeadHistory, LeadPhase, Grows, Full, Awaited;
  }

  lemma RoundPair(i: Node, j: Node, down: seq<Packet>, up: seq<Packet>, up': seq<Packet>, id: NodeId,
                  others: set<NodeId>, m: Input, tag: nat, r: Result)
    requires LeadInv(i, others) && PairInv(i, j, down, up, id)
    requires LeadRound(i.office, m, r) && Source(m, id, up, up') && m.status != NullStatus
    ensures PairInv(Absorb(i, m, tag, r), j, down, up', id)
  {
    RoundNode(i, m, tag, r);
    var i' := Absorb(i, m, tag, r);
    var e := Tagged(i.session, r.beats[0]);
    RoundPhase(i, others, m, r);
    ReplyMeans(i, j, id, m, up, up');
    AgreeGrows(i, i', j);
    assert DownEntry(i.out[|i.out| - 1], i, j);
    RoundEntry(i, i', j, e, r);
    RoundLow(i, i', j, id, m, r);
    RoundFinished(i, j, r);
    UpLowers(i, i', j, up, up', id);
    hide Absorb, Agree, UpInv, LeadHistory, LeadPhase, Lane, DownEntry, UpEntry, LeadKey, LowUp, Joined, Grows,
      LeadRound, Round;
    DownGrows(i, i', j, down, [e]);
  }

  lemma RoundFinished(i: Node, j: Node, r: Result)
    requires Finished(i, j) && LeadPhase(i) && LeadState(i.office.state) && |r.beats| == 1
    requires RoundEnds(i.office.state, r.office.state, r.beats[0].status)
    requires i.office.state == SendingNewFile ==> i.session in j.stored
    requires i.office.state == SendingFileMetadataChange ==> i.session in j.applied
    ensures Finished(Round(i, r), j)
  {
  }

  lemma RoundEntry(i: Node, i': Node, j: Node, e: Tagged, r: Result)
    requires LeadState(i.office.state) && |r.beats| == 1
    requires RoundEnds(i.office.state, r.office.state, r.beats[0].status)
    requires i' == Round(i, r) && e == Tagged(i.session, r.beats[0])
    requires j.session == i.session && |i.out| > 0
    requires i.out[|i.out| - 1].session == i.session
    requires LeadRank(i.out[|i.out| - 1].beat.status) <= LeadStateRank(i.office.state)
    ensures DownEntry(e, i', j) && LeadKey(e) >= LeadKey(i.out[|i.out| - 1])
  {
  }

  lemma RoundLow(i: Node, i': Node, j: Node, id: NodeId, m: Input, r: Result)
    requires LeadState(i.office.state) && LeadRound(i.office, m, r) && id in i.office.replied
    requires i' == Round(i, r) && j.session == i.session && LeadPhase(i)
    requires i.office.state == AnnouncingNewFile ==> !MetadataSide(j.office.state)
    requires i.office.state == SendingFileMetadataChangeWithMore ==> i.session in j.applied
    ensures id in i'.office.replied && Joined(i', j, id)
    ensures LowUp(i', id) <= 16 * i.session + FollowRank(m.status)
  {
    hide Full, Active;
  }

  // ---------- timers and leaving ----------

  lemma TimerLead(i: Node, others: set<NodeId>, m: Input, tag: nat, r: Result)
    requires LeadInv(i, others) && LeadTimer(i.office, m, r)
    requires m.status == S156 ==> Idling(i)
    ensures LeadInv(Absorb(i, m, tag, r), others)
  {
    TimerNode(i, m, tag, r);
    var i' := Absorb(i, m, tag, r);
    LaneFrame(i, i');
    hide Absorb, Lane;
  }

  lemma TimerPair(i: Node, j: Node, down: seq<Packet>, up: seq<Packet>, id: NodeId,
                  others: set<NodeId>, m: Input, tag: nat, r: Result)
    requires LeadInv(i, others) && PairInv(i, j, down, up, id) && LeadTimer(i.office, m, r)
    ensures PairInv(Absorb(i, m, tag, r), j, down, up, id)
  {
    TimerNode(i, m, tag, r);
    var i' := Absorb(i, m, tag, r);
    var e := Tagged(i.session, r.beats[0]);
    AgreeGrows(i, i', j);
    assert DownEntry(e, i', j) && LeadKey(e) >= LeadKey(i.out[|i.out| - 1]) by {
      hide Absorb, Agree, DownInv, UpInv, LeadHistory, LeadPhase, Lane;
    }
    assert Joined(i', j, id) && LowUp(i', id) <= LowUp(i, id) by {
      hide Absorb, Agree, DownInv, UpInv, LeadHistory, LeadPhase, Lane, DownEntry;
    }
    UpLowers(i, i', j, up, up, id);
    hide Absorb, Agree, UpInv, LeadHistory, LeadPhase, Lane, DownEntry, UpEntry, LeadKey, LowUp, Joined;
    DownGrows(i, i', j, down, [e]);
  }

  lemma LeavesLead(i: Node, others: set<NodeId>, m: Input, tag: nat, r: Result)
    requires LeadInv(i, others) && Leaves(i.office, m, r)
    ensures LeadInv(Absorb(i, m, tag, r), others)
  {
    LeavesNode(i, m, tag, r);
    var i' := Absorb(i, m, tag, r);
    LaneFrame(i, i');
    assert Idling(i) ==> Lane(i);
    hide Absorb, Lane;
  }

  lemma LeavesPair(i: Node, j: Node, down: seq<Packet>, up: seq<Packet>, id: NodeId,
                   others: set<NodeId>, m: Input, tag: nat, r: Result)
    requires LeadInv(i, others) && PairInv(i, j, down, up, id) && Leaves(i.office, m, r)
    ensures PairInv(Absorb(i, m, tag, r), j, down, up, id)
  {
    LeavesNode(i, m, tag, r);
    var i' := Absorb(i, m, tag, r);
    AgreeGrows(i, i', j);
    UpLowers(i, i', j, up, up, id);
    hide Absorb, Agree, UpInv, LeadHistory, LeadPhase, Lane, DownEntry, UpEntry, LeadKey;
    DownGrows(i, i', j, down, []);
  }
}
