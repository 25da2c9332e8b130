/** Moves of heartbeaters and dispatchers keep the invariant. */
module Channels {
  import opened Fsm
  import opened FileStore
  import opened Boxoffice
  import opened Roles
  import opened Flock
  import opened Invariant
  import LeadProof
  import FollowProof

  // ---------- heartbeats ----------

  lemma OrderedSend(net: seq<Packet>, out: seq<Tagged>, lead: bool, p: Packet)
    requires Ordered(net, out, lead) && (p.Hb? ==> p.tag == out[0])
    ensures Ordered(net + [p], out, lead)
  {
    hide Key;
  }

  lemma OrderedPoll(net: seq<Packet>, out: seq<Tagged>, lead: bool)
    requires Ordered(net, out, lead) && |out| > 1
    ensures Ordered(net, out[1..], lead)
  {
    hide Key;
    assert forall p :: 0 <= p < |net| && net[p].Hb? ==> Key(lead, net[p].tag) <= Key(lead, out[0]) <= Key(lead, out[1]);
  }

  lemma DownSend(i: Node, j: Node, down: seq<Packet>, p: Packet)
    requires DownInv(i, j, down) && !p.Data? && (p.Hb? ==> p.tag == i.out[0])
    ensures DownInv(i, j, down + [p])
  {
    OrderedSend(down, i.out, true, p);
    hide DownEntry, Ordered, Small;
  }

  lemma UpSend(i: Node, j: Node, up: seq<Packet>, id: NodeId, p: Packet)
    requires id in i.office.replied && UpInv(i, j, up, id) && !p.Data? && (p.Hb? ==> p.tag == j.out[0])
    ensures UpInv(i, j, up + [p], id)
  {
    OrderedSend(up, j.out, false, p);
    hide UpEntry, Ordered;
  }

  lemma DownPoll(i: Node, j: Node, down: seq<Packet>)
    requires DownInv(i, j, down) && |i.out| > 1
    ensures DownInv(i.(out := i.out[1..]), j, down)
  {
    OrderedPoll(down, i.out, true);
    var i' := i.(out := i.out[1..]);
    assert forall e :: DownEntry(e, i, j) ==> DownEntry(e, i', j);
    hide DownEntry, Ordered, Small;
  }

  lemma UpPoll(i: Node, j: Node, up: seq<Packet>, id: NodeId)
    requires id in i.office.replied && UpInv(i, j, up, id) && |j.out| > 1
    ensures UpInv(i, j.(out := j.out[1..]), up, id)
  {
    OrderedPoll(up, j.out, false);
    var j' := j.(out := j.out[1..]);
    assert forall e :: UpEntry(e, i, j, id) ==> UpEntry(e, i, j', id);
    hide UpEntry, Ordered;
  }

  lemma LeadPolls(i: Node, j: Node, down: seq<Packet>, up: seq<Packet>, id: NodeId)
    requires PairInv(i, j, down, up, id) && |i.out| > 1
    ensures PairInv(i.(out := i.out[1..]), j, down, up, id)
  {
    var i' := i.(out := i.out[1..]);
    DownPoll(i, j, down);
    assert Agree(i', j) by { LeadProof.AgreeGrows(i, i', j); }
    hide DownInv, Agree;
    LeadProof.UpLowers(i, i', j, up, up, id);
  }

  lemma FollowPolls(i: Node, j: Node, down: seq<Packet>, up: seq<Packet>, id: NodeId)
    requires PairInv(i, j, down, up, id) && |j.out| > 1
    ensures PairInv(i, j.(out := j.out[1..]), down, up, id)
  {
    var j' := j.(out := j.out[1..]);
    UpPoll(i, j, up, id);
    hide UpInv, Small, Holds;
    FollowProof.DownRises(i, j, j', down, down);
  }

  // ---------- dispatchers ----------

  /** The pair does not look at the following node's dispatcher. */
  lemma FollowDispatches(i: Node, j: Node, j': Node, down: seq<Packet>, up: seq<Packet>, id: NodeId)
    requires PairInv(i, j, down, up, id)
    requires j' == j.(tickets := j'.tickets, dispatcher := j'.dispatcher, ticks := j'.ticks)
    ensures PairInv(i, j', down, up, id)
  {
    FollowProof.UpGrows(i, j, j', up, id, []);
    FollowProof.DownRises(i, j, j', down, down);
    hide UpInv, DownInv, Small, Holds;
  }

  /** The lead's dispatcher may run down, and its bytes are noted. */
  lemma LeadDispatches(i: Node, i': Node, j: Node, down: seq<Packet>, up: seq<Packet>, id: NodeId)
    requires PairInv(i, j, down, up, id)
    requires i' == i.(tickets := i'.tickets, dispatcher := i'.dispatcher, ticks := i'.ticks, sent := i'.sent)
    requires Active(i') ==> Active(i)
    requires LeadProof.Grows(i, i')
    ensures PairInv(i', j, down, up, id)
  {
    LeadProof.AgreeGrows(i, i', j);
    LeadProof.UpLowers(i, i', j, up, up, id);
    LeadProof.DownGrows(i, i', j, down, []);
    hide UpInv, DownInv, Agree, Active;
  }

  /** The bytes of a longer file are not spoken of. */
  lemma LongFileNoted(i: Node, i': Node, j: Node, down: seq<Packet>, up: seq<Packet>, id: NodeId, u: nat,
                      bytes: seq<byte>)
    requires PairInv(i, j, down, up, id) && LeadHistory(i)
    requires u in i.files && i.files[u].file.Some? && !Small(i.files[u].file.value)
    requires i' == i.(dispatcher := i'.dispatcher, sent := i.sent[u := bytes])
    requires Active(i') ==> Active(i)
    ensures PairInv(i', j, down, up, id)
  {
    LeadProof.UpLowers(i, i', j, up, up, id);
    assert Agree(i', j) by { hide UpInv, DownInv, Holds, LeadHistory; }
    assert forall e :: DownEntry(e, i, j) ==> DownEntry(e, i', j) by { hide LowDown, LeadRank; }
    assert forall p: Packet :: p.Data? && DataEntry(p, i, j) ==> DataEntry(p, i', j);
    assert DownInv(i', j, down) by { hide DownEntry, DataEntry, Ordered; }
    hide UpInv, DownInv, Agree, Active, LeadHistory;
  }

  /** A data packet of this session joins the channel. */
  lemma DataSent(i: Node, j: Node, down: seq<Packet>, up: seq<Packet>, id: NodeId, p: Packet)
    requires PairInv(i, j, down, up, id) && p.Data? && DataEntry(p, i, j) && p.session == i.session
    ensures PairInv(i, j, down + [p], up, id)
  {
    OrderedSend(down, i.out, true, p);
    var down' := down + [p];
    forall a, b | 0 <= a < b < |down'| && down'[a].Hb? && down'[b].Data?
      ensures down'[a].tag.session <= down'[b].session
    {
      assert DownEntry(down[a].tag, i, j);
    }
    hide DownEntry, DataEntry, Ordered, UpInv, Agree;
  }

  // ---------- the lead's lane ----------

  lemma LaneTick(i: Node)
    requires Lane(i) && |i.ticks| > 0
    ensures var i' := i.(ticks := i.ticks[1..]);
            Lane(i') && (i.ticks[0] == S156 ==> Idling(i')) && (i.ticks[0] == S132 || i.ticks[0] == S156)
  {
  }

  lemma LaneTake(i: Node)
    requires Lane(i) && i.dispatcher.Idle? && |i.tickets| > 0
    ensures Lane(i.(dispatcher := Waiting(i.tickets[0]), tickets := i.tickets[1..]))
  {
  }

  lemma LaneFire(i: Node)
    requires Lane(i) && i.dispatcher.Waiting?
    ensures Lane(i.(ticks := i.ticks + [S132], dispatcher := Sending(i.dispatcher.ticket)))
    ensures i.dispatcher.ticket.order.Send?
  {
  }

  lemma LaneRest(i: Node)
    requires Lane(i) && i.dispatcher.Stopping?
    ensures Lane(i.(ticks := i.ticks + [S156], dispatcher := Idle)) && i.tickets == []
  {
  }

  lemma LaneEmit(i: Node, p: Packet, last: bool)
    requires Lane(i) && i.dispatcher.Sending? && Packed(i.dispatcher.ticket, p, last)
    ensures TicketOf(i, i.dispatcher.ticket)
    ensures Lane(i.(sent := i.sent[p.session := p.chunk], dispatcher := if last then Stopping else i.dispatcher))
  {
  }
}
