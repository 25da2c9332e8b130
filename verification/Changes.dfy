/**
 * What a metadata change has done on every node when the lead goes on: a 170 record took
 * effect everywhere, a 174 record exactly where it was applicable when it was read.
 */
module Changes {
  import opened Fsm
  import opened Boxoffice
  import opened Roles
  import opened Flock
  import opened Invariant
  import opened Safety
  import opened Commit
  import opened Alignment
  import opened History
  import opened Content
  import opened Copies

  predicate SendingChange(s: State) { s == SendingFileMetadataChange || s == SendingFileMetadataChangeWithMore }

  /** The status of the record that goes out in this state. */
  function RecordStatus(s: State): Status { if s == SendingFileMetadataChange then S170 else S174 }

  // ---------- the round that ends the phase ----------

  lemma RoundMove(o: Office, m: Input, r: Result)
    requires LeadMove(o, m, r) && SendingChange(o.state) && r.office.state != o.state && r.office.state != Exit
    ensures m.status == S141 && Full(o, m.sender)
  {
    hide AllFalse, OnlyStop, Full;
  }

  /** A 141 that the lead gets in this phase is from this session. */
  lemma ReplierApplied(i: Node, j: Node, down: seq<Packet>, up: seq<Packet>, id: NodeId, from: NodeId, m: Input)
    requires PairInv(i, j, down, up, id) && SendingChange(i.office.state)
    requires |up| > 0 && Carries(up[0], from, m) && m.status == S141
    ensures i.session in j.applied
  {
    assert up[0].Hb? ==> UpEntry(up[0].tag, i, j, id);
    hide DownInv, Agree, Finished, Ordered;
  }

  lemma OthersApplied(i: Node, j: Node, down: seq<Packet>, up: seq<Packet>, id: NodeId)
    requires PairInv(i, j, down, up, id) && SendingChange(i.office.state) && i.office.replied[id]
    ensures i.session in j.applied
  {
    hide DownInv, UpInv, Agree, Finished;
  }

  lemma ChangeAnnounced(s: Sys)
    requires Inv(s) && s.lead in s.nodes && SendingChange(s.nodes[s.lead].office.state)
    ensures var i := s.nodes[s.lead];
            && i.session in i.metas && i.metas[i.session].file.Some? && i.session !in i.files
            && i.metas[i.session].status == RecordStatus(i.office.state)
  {
    assert LeadPhase(s.nodes[s.lead]) && LeadHistory(s.nodes[s.lead]);
    hide Pairs, FollowInv, PeerNet;
  }

  lemma AppliedAsSent(i: Node, j: Node, u: nat)
    requires Agree(i, j) && u in j.applied
    ensures u in i.metas && i.metas[u].file.Some? && j.applied[u] == (i.metas[u].status, i.metas[u].file.value)
  {
    hide HasStored;
  }

  lemma SentBy(s: Sys, a: Move)
    requires Wired(s) && Enabled(s, a) && a.Deliver? && a.input.status == S141
    ensures a.input.sender == a.from
  {
  }

  /** The lead leaves the phase only when every other node has handled the record of this session. */
  lemma RoundApplied(s: Sys, a: Move, j: NodeId)
    requires Inv(s) && Enabled(s, a) && s.lead in s.nodes && j in s.nodes && j != s.lead
    requires SendingChange(s.nodes[s.lead].office.state) && s.lead in Next(s, a).nodes
    requires var t := Next(s, a).nodes[s.lead].office.state; t != s.nodes[s.lead].office.state && t != Exit
    ensures var i, n := s.nodes[s.lead], s.nodes[j];
            && i.session in i.metas && i.metas[i.session].file.Some? && i.session !in i.files
            && i.session in n.applied && n.session == i.session
            && n.applied[i.session] == (RecordStatus(i.office.state), i.metas[i.session].file.value)
    ensures s.nodes[j] == Next(s, a).nodes[j]
  {
    hide Inv, Next, Process, LeadMove, After, Taking, Enabled, LeadState, PairInv, FollowInv, LeadInv, Absorb,
      Agree, Full;
    InvWired(s);
    var i := s.nodes[s.lead];
    StateChanges(s, a);
    LeadActs(s, a);
    OfficeAfter(s, a);
    RoundMove(i.office, a.input, Process(i.office, a.input));
    MessageKind(s, a);
    DeliveredFrom(s, a);
    OnlyActing(s, a);
    SentBy(s, a);
    ChangeAnnounced(s);
    InvFollows(s, j);
    var n, down, up := s.nodes[j], s.net[(s.lead, j)], s.net[(j, s.lead)];
    if a.from == j {
      ReplierApplied(i, n, down, up, j, j, a.input);
    } else {
      FullFlag(i, j, a.input.sender, down, up, n);
      OthersApplied(i, n, down, up, j);
    }
    SameSession(i, n, down, up, j);
    PairAgrees(s, j);
    AppliedAsSent(i, n, i.session);
  }

  lemma FullFlag(i: Node, id: NodeId, sender: NodeId, down: seq<Packet>, up: seq<Packet>, j: Node)
    requires PairInv(i, j, down, up, id) && Full(i.office, sender) && sender != id
    ensures id in i.office.replied && i.office.replied[id]
  {
    hide Joined, Agree, Finished, DownInv, UpInv;
  }

  lemma SameSession(i: Node, j: Node, down: seq<Packet>, up: seq<Packet>, id: NodeId)
    requires PairInv(i, j, down, up, id) && SendingChange(i.office.state)
    ensures j.session == i.session
  {
    hide DownInv, UpInv, Agree, Finished;
  }

  // ---------- after the record ----------

  /** While no file goes out in the session, a node that has handled its record leaves the files alone. */
  lemma AppliedKept(i: Node, j: Node, others: set<NodeId>, m: Input, tag: nat, r: Result)
    requires FollowInv(j, others) && FollowMove(j.office, m, r) && Agree(i, j)
    requires j.session in j.applied && j.session !in i.files
    ensures Absorb(j, m, tag, r).session == j.session ==> r.office.disk == j.office.disk
  {
    hide Tickets, Stamp, Received, OnlyStop, FollowLane, HasStored, Small;
  }

  lemma AppliedStays(s: Sys, a: Move, j: NodeId)
    requires Inv(s) && Enabled(s, a) && s.lead in s.nodes && j in s.nodes && j != s.lead && j in Next(s, a).nodes
    requires var u := Next(s, a).nodes[j].session; u in s.nodes[j].applied && u !in s.nodes[s.lead].files
    ensures Next(s, a).nodes[j].session == s.nodes[j].session
    ensures Next(s, a).nodes[j].office.disk == s.nodes[j].office.disk
  {
    hide Inv, Next, Absorb, Process, FollowMove, After, Taking, Enabled, LeadHistory, Agree, FollowInv;
    OnlyActing(s, a);
    if Acting(a) == j {
      if Handles(a) {
        FollowerStep(s, a);
        TakingFrame(s, a);
        var i, n, others, t, tag := s.nodes[s.lead], s.nodes[j], s.nodes.Keys - {j}, Taking(s, a).0, Taking(s, a).1;
        var m, r := a.input, Process(n.office, a.input);
        TicksAside(n, t, m, tag, r);
        if n.office.state == Ready && (m.status == S120 || m.status == S160 || m.status == S164) { LaterSession(s, a); }
        SessionRises(n, others, m, tag, r);
        AppliedEarlier(n, others, Next(s, a).nodes[j].session);
        AppliedKept(i, n, others, m, tag, r);
      } else {
        InnerKeepsEnded(s, a);
      }
    }
  }

  lemma AppliedEarlier(j: Node, others: set<NodeId>, u: nat)
    requires FollowInv(j, others) && u in j.applied
    ensures u <= j.session
  {
    hide FollowLane;
  }

  /** Where the record of the session was handled, and that the files were left alone since. */
  lemma {:induction false} AppliedDisk(ss: seq<Sys>, moves: seq<Move>, k: nat, j: NodeId) returns (q: nat)
    requires IsRun(ss, moves) && k <= |moves| < |ss| && ss[k].lead in ss[k].nodes
    requires j in ss[k].nodes && j != ss[k].lead && ss[k].nodes[j].session in ss[k].nodes[j].applied
    requires ss[k].nodes[j].session !in ss[k].nodes[ss[k].lead].files
    ensures var u := ss[k].nodes[j].session; q < k && Applies(ss[q], moves[q], j, u, ss[k].nodes[j].applied[u])
    ensures j in ss[q + 1].nodes && ss[q + 1].nodes[j].office.disk == ss[k].nodes[j].office.disk
  {
    hide Inv, Next, Enabled, Init, Applies, Small;
    SameNodes(ss, moves, k);
    if k == 0 {
      StartsEmpty(ss[0], j);
    } else {
      SameNodes(ss, moves, k - 1);
      RunStep(ss, moves, k - 1);
      RunHolds(ss, moves, k - 1);
      KeepsStep(ss[k - 1], moves[k - 1]);
      var u := ss[k].nodes[j].session;
      if u in ss[k - 1].nodes[j].applied && ss[k - 1].nodes[j].applied[u] == ss[k].nodes[j].applied[u] {
        AppliedStays(ss[k - 1], moves[k - 1], j);
        q := AppliedDisk(ss, moves, k - 1, j);
      } else {
        AppliedStep(ss[k - 1], moves[k - 1], j, u);
        q := k - 1;
      }
    }
  }

  // ---------- the note, in a flock ----------

  lemma OfficeKept(s: Sys, a: Move, j: NodeId)
    requires Enabled(s, a) && j in s.nodes
    ensures j in Next(s, a).nodes
    ensures var o, p := s.nodes[j].office, Next(s, a).nodes[j].office;
            p == o || (Handles(a) && p == Process(o, a.input).office)
  {
    OnlyActing(s, a);
    if Handles(a) {
      OfficeAfter(s, a);
    } else {
      InnerKeepsEnded(s, a);
    }
    hide Process, Next, After, Enabled;
  }

  lemma StartsClean(s: Sys, j: NodeId)
    requires Init(s) && j in s.nodes
    ensures Clean(s.nodes[j].office)
  {
  }

  lemma {:induction false} CleanFlock(ss: seq<Sys>, moves: seq<Move>, k: nat, j: NodeId)
    requires IsRun(ss, moves) && k <= |moves| < |ss| && j in ss[0].nodes
    ensures j in ss[k].nodes && Clean(ss[k].nodes[j].office)
  {
    hide Next, Enabled, Init, Clean, Process;
    if k == 0 {
      StartsClean(ss[0], j);
    } else {
      CleanFlock(ss, moves, k - 1, j);
      RunStep(ss, moves, k - 1);
      var s, a := ss[k - 1], moves[k - 1];
      OfficeKept(s, a, j);
      if Handles(a) { CleanStep(s.nodes[j].office, a.input); }
    }
  }

  // ---------- the change ----------

  /** The record of the lead's session. */
  predicate Announced(i: Node) { i.session in i.metas && i.metas[i.session].file.Some? }

  /**
   * When the lead leaves the phase in which it sends a metadata record, to be ready or to announce
   * a new file: every other node has read that record in this session, at some move q, and its file
   * is as the record says if and only if the record was applicable then.
   */
  lemma ChangeExact(ss: seq<Sys>, moves: seq<Move>, k: nat, j: NodeId) returns (q: nat)
    requires IsRun(ss, moves) && k < |moves| < |ss|
    requires j in ss[k].nodes && j != ss[k].lead && ss[k].lead in ss[k].nodes
    requires SendingChange(ss[k].nodes[ss[k].lead].office.state) && ss[k].lead in ss[k + 1].nodes
    requires var t := ss[k + 1].nodes[ss[k].lead].office.state;
             t != ss[k].nodes[ss[k].lead].office.state && t != Exit
    ensures Announced(ss[k].nodes[ss[k].lead])
    ensures var i := ss[k].nodes[ss[k].lead];
            var f := i.metas[i.session].file.value;
            && q < k && Applies(ss[q], moves[q], j, i.session, (RecordStatus(i.office.state), f))
            && j in ss[k + 1].nodes
            && (InEffect(ss[k + 1].nodes[j].office.disk, f) <==> Applicable(ss[q].nodes[j].office, f))
  {
    hide Inv, Next, Enabled, Init, InEffect, Applicable, Process, Small;
    RunStep(ss, moves, k);
    RunHolds(ss, moves, k);
    OfficeKept(ss[k], moves[k], j);
    RoundApplied(ss[k], moves[k], j);
    q := AppliedDisk(ss, moves, k, j);
    RunStep(ss, moves, q);
    OfficeAfter(ss[q], moves[q]);
    EffectExact(ss[q].nodes[j].office, moves[q].input);
  }

  /** A change that goes out with 170 has taken effect on every other node when the lead is ready again. */
  lemma ChangeTakesEffect(ss: seq<Sys>, moves: seq<Move>, k: nat, j: NodeId)
    requires IsRun(ss, moves) && k < |moves| < |ss|
    requires j in ss[k].nodes && j != ss[k].lead && ss[k].lead in ss[k].nodes && ss[k].lead in ss[k + 1].nodes
    requires ss[k].nodes[ss[k].lead].office.state == SendingFileMetadataChange
    requires ss[k + 1].nodes[ss[k].lead].office.state == Ready
    ensures var i := ss[k].nodes[ss[k].lead];
            && Announced(i) && j in ss[k + 1].nodes
            && InEffect(ss[k + 1].nodes[j].office.disk, i.metas[i.session].file.value)
  {
    hide IsRun, InEffect;
    var q := ChangeExact(ss, moves, k, j);
    SameNodes(ss, moves, q);
    SameNodes(ss, moves, k);
    CleanFlock(ss, moves, q, j);
  }
}
