/**
 * The inductive invariant of a flock.  It is stated for the lead together with one
 * following node and the two channels between them; the rest of the flock only shows
 * up as messages from others.
 */
module Invariant {
  import opened Fsm
  import opened FileStore
  import opened Boxoffice
  import opened Roles
  import opened Flock

  // ---------- order of heartbeats within a channel ----------

  function LeadKey(e: Tagged): int { 16 * e.session + LeadRank(e.beat.status) }
  function FollowKey(e: Tagged): int { 16 * e.session + FollowRank(e.beat.status) }

  function Key(lead: bool, e: Tagged): int { if lead then LeadKey(e) else FollowKey(e) }

  /** What is in the channel, then what the heartbeater still has to say, is in order. */
  ghost predicate Ordered(net: seq<Packet>, out: seq<Tagged>, lead: bool) {
    && |out| > 0
    && (forall p, q :: 0 <= p < q < |net| && net[p].Hb? && net[q].Hb? ==>
          Key(lead, net[p].tag) <= Key(lead, net[q].tag))
    && (forall p :: 0 <= p < |net| && net[p].Hb? ==> Key(lead, net[p].tag) <= Key(lead, out[0]))
    && (forall p, q :: 0 <= p < q < |out| ==> Key(lead, out[p]) <= Key(lead, out[q]))
  }

  // ---------- the lead by itself ----------

  predicate Collected(s: State) { LeadState(s) && !Announcing(s) && s != Exit }

  predicate DataPhase(s: State) { s == SendingNewFileMetadata || s == SendingNewFile || s == SyncingStop }

  /** The dispatcher has, or will get, something to send. */
  predicate Active(i: Node) { i.tickets != [] || i.dispatcher.Waiting? || i.dispatcher.Sending? }

  predicate Idling(i: Node) { i.tickets == [] && i.dispatcher.Idle? && i.ticks == [] }

  predicate TicketOf(i: Node, t: Ticket) {
    && t.session == i.session && t.order.Send?
    && i.session in i.files && i.files[i.session].file == Some(t.order.file)
    && (Small(t.order.file) ==> i.session !in i.sent)
  }

  /** One order makes its way through the dispatcher and comes back as 132 and then 156. */
  predicate Lane(i: Node) {
    || (|i.tickets| == 1 && i.dispatcher.Idle? && i.ticks == [] && TicketOf(i, i.tickets[0]))
    || (i.tickets == [] && i.dispatcher.Waiting? && i.ticks == [] && TicketOf(i, i.dispatcher.ticket))
    || (i.tickets == [] && i.dispatcher.Sending? && (i.ticks == [] || i.ticks == [S132])
        && TicketOf(i, i.dispatcher.ticket))
    || (i.tickets == [] && i.dispatcher.Stopping? && (i.ticks == [] || i.ticks == [S132]))
    || (i.tickets == [] && i.dispatcher.Idle?
        && (i.ticks == [] || i.ticks == [S132] || i.ticks == [S156] || i.ticks == [S132, S156]))
  }

  ghost predicate LeadHistory(i: Node) {
    && (forall u :: u in i.metas ==> u <= i.session && LeadRank(i.metas[u].status) == 3 && i.metas[u].file.Some?)
    && (forall u :: u in i.files ==> u <= i.session && LeadRank(i.files[u].status) == 4 && i.files[u].file.Some?)
    && (forall u :: u in i.metas && u in i.files ==> i.metas[u].status == S174)
    && (forall u :: u in i.sent ==> u in i.files)
    && (forall u :: u in i.ended ==> u <= i.session)
  }

  ghost predicate LeadPhase(i: Node) {
    var s := i.office.state;
    && (Announcing(s) ==> i.session !in i.metas)
    && (Announcing(s) || s == SendingFileMetadataChange || s == SendingFileMetadataChangeWithMore ==>
          i.session !in i.files)
    && (s == SendingFileMetadataChange ==> i.session in i.metas && i.metas[i.session].status == S170)
    && (s == SendingFileMetadataChangeWithMore ==> i.session in i.metas && i.metas[i.session].status == S174)
    && (DataPhase(s) ==> i.session in i.files && i.files[i.session].status == S130)
    && (s != Ready && s != Exit ==> i.session > 0)
    && (s == Ready || s == SyncingStop ==> i.session in i.ended)
    && (s != Ready && s != SyncingStop && s != Exit ==> i.session !in i.ended)
  }

  ghost predicate LeadInv(i: Node, others: set<NodeId>) {
    && LeadState(i.office.state)
    && i.office.replied.Keys == others
    && |i.out| > 0
    && i.out[|i.out| - 1].session == i.session
    && LeadRank(i.out[|i.out| - 1].beat.status) <= LeadStateRank(i.office.state)
    && (i.office.state == SendingNewFileMetadata ==> forall n :: n in i.office.replied ==> !i.office.replied[n])
    && LeadHistory(i)
    && LeadPhase(i)
    && (if DataPhase(i.office.state) || i.office.state == Exit then Lane(i) else Idling(i))
  }

  // ---------- a following node by itself ----------

  /** A start signal is on its way through the dispatcher. */
  predicate Loaded(j: Node) { j.tickets != [] || j.dispatcher.Waiting? || S132 in j.ticks }

  ghost predicate FollowLane(j: Node) {
    && !j.dispatcher.Sending?
    && |j.tickets| <= 1
    && (forall k :: 0 <= k < |j.tickets| ==> j.tickets[k].order.Pretend?)
    && (j.dispatcher.Waiting? ==> j.tickets == [] && S132 !in j.ticks && j.dispatcher.ticket.order.Pretend?)
    && (j.tickets != [] ==> S132 !in j.ticks)
    && (forall p, q :: 0 <= p < q < |j.ticks| ==> !(j.ticks[p] == S132 && j.ticks[q] == S132))
    && (forall p :: 0 <= p < |j.ticks| ==> j.ticks[p] == S132 || j.ticks[p] == S156)
    && (Loaded(j) ==> (j.office.state == PromotingNewFileMetadata && j.office.notified) || j.office.state == Exit)
  }

  ghost predicate FollowInv(j: Node, others: set<NodeId>) {
    var s := j.office.state;
    && FollowState(s)
    && j.office.replied.Keys == others
    && |j.out| > 0
    && j.out[|j.out| - 1].session == j.session
    && FollowRank(j.out[|j.out| - 1].beat.status) <= FollowStateRank(s)
    && FollowLane(j)
    && (forall u :: u in j.stored ==> u <= j.session)
    && (forall u :: u in j.applied ==> u <= j.session)
    && (j.session in j.stored ==>
          s == BroadcastingAllReceived || s == SyncingStop || s == Ready || s == Exit)
    && (s == AcknowledgingNewFile ==> !j.office.notified)
    && (j.session in j.applied ==>
          !Acknowledging(s) && s != ReceivingFileMetadataChange && s != ReceivingFileMetadataChangeWithMore)
    && (s == BroadcastingAllMetadataReceived ==>
          j.session in j.applied && (j.applied[j.session].0 == S174 ==> !j.office.notified))
  }

  /** States of a node that joined the session for a metadata change and is not past it. */
  predicate MetadataSide(s: State) {
    s == AcknowledgingFileMetadataChange || s == AcknowledgingFileMetadataChangeWithMore
    || s == ReceivingFileMetadataChange || s == ReceivingFileMetadataChangeWithMore
    || s == BroadcastingAllMetadataReceived
  }

  // ---------- the lead and one following node ----------

  /** Lower end of what the lead's heartbeats to j can still be. */
  function LowDown(j: Node): int {
    16 * j.session + (if Acknowledging(j.office.state) then 1 else if j.office.state == Exit then 0 else 3)
  }

  /** Lower end of what j's heartbeats to the lead can still be. */
  function LowUp(i: Node, id: NodeId): int
    requires id in i.office.replied
  {
    var s, r := i.office.state, i.office.replied[id];
    var k := 16 * i.session;
    if s == Ready then k + 4
    else if Announcing(s) then
      if !r then k - 12 else if s == AnnouncingFileMetadataChangeWithMore then k + 2 else k + 1
    else if s == SendingFileMetadataChange || s == SendingFileMetadataChangeWithMore then
      if r then k + 4 else k + 1
    else if s == SendingNewFile then if r then k + 7 else k + 1
    else if s == SyncingStop then k + 7
    else if s == Exit then -16
    else k + 1
  }

  ghost predicate DownEntry(e: Tagged, i: Node, j: Node) {
    var rank := LeadRank(e.beat.status);
    && rank > 0
    && e.session <= i.session
    && LeadKey(e) >= LowDown(j)
    && (rank >= 3 ==> e.session <= j.session)
    && (rank == 3 ==> e.session in i.metas && i.metas[e.session] == e.beat)
    && (rank == 4 ==> e.session in i.files && i.files[e.session] == e.beat)
  }

  ghost predicate UpEntry(e: Tagged, i: Node, j: Node, id: NodeId)
    requires id in i.office.replied
  {
    && FollowStatus(e.beat.status)
    && e.session <= j.session
    && FollowKey(e) >= LowUp(i, id)
    && (e.beat.status == S140 ==> e.session in j.stored)
    && (e.beat.status == S141 ==> e.session in j.applied)
    && (e.beat.status == S121 && e.session == j.session ==> !MetadataSide(j.office.state))
  }

  ghost predicate DataEntry(p: Packet, i: Node, j: Node)
    requires p.Data?
  {
    && p.session == j.session
    && p.session in i.files && i.files[p.session].file.Some?
    && (Small(i.files[p.session].file.value) ==>
          && p.offset == 0 && !p.more
          && p.session in i.sent && p.chunk == i.sent[p.session]
          && |p.chunk| == i.files[p.session].file.value.size)
  }

  /** The file starts with these bytes. */
  predicate Holds(disk: map<string, seq<byte>>, f: Record, bytes: seq<byte>) {
    f.path in disk && bytes <= disk[f.path]
  }

  predicate HasFile(i: Node, session: nat, status: Status) {
    session in i.files && i.files[session].file.Some? && i.files[session].status == status
  }

  predicate HasStored(i: Node, j: Node) {
    && j.session in i.files && i.files[j.session].file.Some?
    && (Small(i.files[j.session].file.value) ==>
          j.session in i.sent && Holds(j.office.disk, i.files[j.session].file.value, i.sent[j.session]))
  }

  ghost predicate Agree(i: Node, j: Node) {
    && (forall u :: u in j.applied ==>
          u in i.metas && i.metas[u].file.Some? && j.applied[u] == (i.metas[u].status, i.metas[u].file.value))
    && (j.office.state == PromotingNewFileMetadata || j.office.state == SendingFakeFile ==>
          HasFile(i, j.session, S130))
    && (j.office.state == PromotingNewFileMetadataWithMore ==> HasFile(i, j.session, S134))
    && (j.office.state == PromotingNewFileMetadata && j.office.notified ==>
          j.office.current == i.files[j.session].file)
    && (j.office.state == SendingFakeFile && Small(i.files[j.session].file.value) ==>
          j.office.current == i.files[j.session].file)
    && (j.session in j.stored ==> HasStored(i, j))
  }

  ghost predicate Joined(i: Node, j: Node, id: NodeId)
    requires id in i.office.replied
  {
    var s, r := i.office.state, i.office.replied[id];
    && j.session <= i.session
    && (Collected(s) || Active(i) || (Announcing(s) && r) ==> j.session == i.session)
    && (s == SendingNewFile && r ==> i.session in j.stored)
    && ((s == SendingFileMetadataChange || s == SendingFileMetadataChangeWithMore) && r ==>
          i.session in j.applied)
    && (s == AnnouncingNewFile && r ==> !MetadataSide(j.office.state))
    && (s == SendingNewFileMetadata || s == SendingNewFile ==>
          if i.session in i.metas then i.session in j.applied else !MetadataSide(j.office.state))
  }

  /** Whatever the lead has ended, j has done. */
  ghost predicate Finished(i: Node, j: Node) {
    forall u :: u in i.ended && u > 0 ==> if u in i.files then u in j.stored else u in j.applied
  }

  ghost predicate DownInv(i: Node, j: Node, down: seq<Packet>) {
    && Ordered(down, i.out, true)
    && (forall p :: 0 <= p < |down| && down[p].Hb? ==> DownEntry(down[p].tag, i, j))
    && (forall p :: 0 <= p < |i.out| ==> DownEntry(i.out[p], i, j))
    && (forall p :: 0 <= p < |down| && down[p].Data? ==> DataEntry(down[p], i, j))
    && (forall p, q :: 0 <= p < q < |down| && down[p].Hb? && down[q].Data? ==>
          down[p].tag.session <= down[q].session)
  }

  ghost predicate UpInv(i: Node, j: Node, up: seq<Packet>, id: NodeId)
    requires id in i.office.replied
  {
    && Ordered(up, j.out, false)
    && (forall p :: 0 <= p < |up| && up[p].Hb? ==> UpEntry(up[p].tag, i, j, id))
    && (forall p :: 0 <= p < |j.out| ==> UpEntry(j.out[p], i, j, id))
    && (forall p :: 0 <= p < |up| ==> !up[p].Data?)
  }

  ghost predicate PairInv(i: Node, j: Node, down: seq<Packet>, up: seq<Packet>, id: NodeId) {
    && id in i.office.replied
    && Joined(i, j, id)
    && Agree(i, j)
    && Finished(i, j)
    && DownInv(i, j, down)
    && UpInv(i, j, up, id)
  }
}
