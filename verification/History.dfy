/**
 * The history variables of a flock, tied to the moves of the run: what a node is said to
 * have stored or applied, it did store or apply, in that session, at some earlier move.
 */
module History {
  import opened Fsm
  import opened Boxoffice
  import opened Roles
  import opened Flock
  import opened Invariant
  import opened Safety
  import opened Commit
  import opened Alignment

  /** The move has node j take the last data packet of session u from the network. */
  predicate StoresLast(s: Sys, a: Move, j: NodeId, u: nat) {
    && a.Deliver? && a.to == j && a.input.status == S200 && !a.input.more
    && j in s.nodes && s.nodes[j].session == u && s.nodes[j].office.state == SendingFakeFile
  }

  /** The move has node j read this metadata record of session u in its receiving state. */
  predicate Applies(s: Sys, a: Move, j: NodeId, u: nat, what: (Status, Record)) {
    && a.Deliver? && a.to == j && (a.input.status, a.input.file) == what
    && j in s.nodes && s.nodes[j].session == u
    && s.nodes[j].office.state
       == (if what.0 == S170 then ReceivingFileMetadataChange else ReceivingFileMetadataChangeWithMore)
    && (what.0 == S170 || what.0 == S174)
  }

  lemma StoredGrowth(j: Node, m: Input, tag: nat, r: Result, u: nat)
    requires FollowState(j.office.state) && FollowMove(j.office, m, r)
    requires u in Absorb(j, m, tag, r).stored && u !in j.stored
    ensures m.status == S200 && !m.more && j.session == u && j.office.state == SendingFakeFile
  {
    hide Tickets, Stamp, Received, Kept, OnlyStop, FollowState;
  }

  lemma AppliedGrowth(j: Node, m: Input, tag: nat, r: Result, u: nat)
    requires FollowState(j.office.state) && FollowMove(j.office, m, r)
    requires var j' := Absorb(j, m, tag, r); u in j'.applied && (u !in j.applied || j'.applied[u] != j.applied[u])
    ensures (m.status, m.file) == Absorb(j, m, tag, r).applied[u] && j.session == u
    ensures (m.status == S170 && j.office.state == ReceivingFileMetadataChange)
         || (m.status == S174 && j.office.state == ReceivingFileMetadataChangeWithMore)
  {
    hide Tickets, Stamp, Received, Kept, OnlyStop, FollowState;
  }

  lemma TakingHistory(s: Sys, a: Move)
    requires Enabled(s, a) && Handles(a)
    ensures a.to in s.nodes
    ensures var n, t := s.nodes[a.to], Taking(s, a).0; t.stored == n.stored && t.applied == n.applied
  {
    hide Carries;
  }

  lemma InnerHistory(s: Sys, a: Move)
    requires Enabled(s, a) && !Handles(a)
    ensures Acting(a) in s.nodes
    ensures var n, n' := s.nodes[Acting(a)], After(s, a); n'.stored == n.stored && n'.applied == n.applied
  {
    hide Packed;
  }

  lemma FromNetwork(s: Sys, a: Move)
    requires Inv(s) && Enabled(s, a) && Handles(a) && a.to != s.lead
    requires a.input.status == S200 || a.input.status == S130 || a.input.status == S170 || a.input.status == S174
    ensures a.Deliver?
  {
    hide Inv, Enabled, Next, FollowInv;
    InvWired(s);
    if !a.Deliver? {
      LocalShape(s, a);
      InvFollows(s, a.to);
      if a.Tick? { FollowTicksDown(s.nodes[a.to], s.nodes.Keys - {a.to}); }
    }
  }

  lemma StoredStep(s: Sys, a: Move, j: NodeId, u: nat)
    requires Inv(s) && Enabled(s, a) && j in s.nodes && j != s.lead
    requires j in Next(s, a).nodes && u in Next(s, a).nodes[j].stored && u !in s.nodes[j].stored
    ensures StoresLast(s, a, j, u)
  {
    hide Inv, Next, Absorb, Process, FollowMove, After, Taking, Enabled;
    OnlyActing(s, a);
    if Handles(a) && a.to == j {
      FollowActs(s, a);
      TakingKeeps(s, a);
      TakingHistory(s, a);
      StoredGrowth(Taking(s, a).0, a.input, Taking(s, a).1, Process(s.nodes[j].office, a.input), u);
      FromNetwork(s, a);
    } else if !Handles(a) {
      InnerHistory(s, a);
    }
  }

  lemma AppliedStep(s: Sys, a: Move, j: NodeId, u: nat)
    requires Inv(s) && Enabled(s, a) && j in s.nodes && j != s.lead
    requires j in Next(s, a).nodes && u in Next(s, a).nodes[j].applied
    requires u !in s.nodes[j].applied || Next(s, a).nodes[j].applied[u] != s.nodes[j].applied[u]
    ensures Applies(s, a, j, u, Next(s, a).nodes[j].applied[u])
  {
    hide Inv, Next, Absorb, Process, FollowMove, After, Taking, Enabled;
    OnlyActing(s, a);
    if Handles(a) && a.to == j {
      FollowActs(s, a);
      TakingKeeps(s, a);
      TakingHistory(s, a);
      AppliedGrowth(Taking(s, a).0, a.input, Taking(s, a).1, Process(s.nodes[j].office, a.input), u);
      FromNetwork(s, a);
    } else if !Handles(a) {
      InnerHistory(s, a);
    }
  }

  lemma StartsEmpty(s: Sys, j: NodeId)
    requires Init(s) && j in s.nodes
    ensures s.nodes[j].stored == {} && s.nodes[j].applied == map[]
  {
  }

  lemma {:induction false} StoredAt(ss: seq<Sys>, moves: seq<Move>, k: nat, j: NodeId, u: nat) returns (q: nat)
    requires IsRun(ss, moves) && k < |ss| && j in ss[k].nodes && j != ss[k].lead && u in ss[k].nodes[j].stored
    ensures q < k && q < |moves| && StoresLast(ss[q], moves[q], j, u)
  {
    hide Inv, Next, Enabled, Init, StoresLast;
    SameNodes(ss, moves, k);
    if k == 0 {
      StartsEmpty(ss[0], j);
    } else {
      SameNodes(ss, moves, k - 1);
      RunStep(ss, moves, k - 1);
      RunHolds(ss, moves, k - 1);
      if u in ss[k - 1].nodes[j].stored {
        q := StoredAt(ss, moves, k - 1, j, u);
      } else {
        StoredStep(ss[k - 1], moves[k - 1], j, u);
        q := k - 1;
      }
    }
  }

  lemma {:induction false} AppliedAt(ss: seq<Sys>, moves: seq<Move>, k: nat, j: NodeId, u: nat) returns (q: nat)
    requires IsRun(ss, moves) && k < |ss| && j in ss[k].nodes && j != ss[k].lead && u in ss[k].nodes[j].applied
    ensures q < k && q < |moves| && Applies(ss[q], moves[q], j, u, ss[k].nodes[j].applied[u])
  {
    hide Inv, Next, Enabled, Init, Applies;
    SameNodes(ss, moves, k);
    if k == 0 {
      StartsEmpty(ss[0], j);
    } else {
      SameNodes(ss, moves, k - 1);
      RunStep(ss, moves, k - 1);
      RunHolds(ss, moves, k - 1);
      if u in ss[k - 1].nodes[j].applied && ss[k].nodes[j].applied[u] == ss[k - 1].nodes[j].applied[u] {
        q := AppliedAt(ss, moves, k - 1, j, u);
      } else {
        AppliedStep(ss[k - 1], moves[k - 1], j, u);
        q := k - 1;
      }
    }
  }

  /**
   * Data commit on the run itself: when the lead is ending session u, every other node took
   * the last data packet from the network at an earlier move, in session u.
   */
  lemma EveryoneStored(ss: seq<Sys>, moves: seq<Move>, k: nat, j: NodeId) returns (q: nat)
    requires IsRun(ss, moves) && k < |ss|
    requires j in ss[k].nodes && j != ss[k].lead && ss[k].lead in ss[k].nodes
    requires ss[k].nodes[ss[k].lead].office.state == SyncingStop
    ensures q < k && q < |moves| && StoresLast(ss[q], moves[q], j, ss[k].nodes[ss[k].lead].session)
  {
    hide IsRun, Small, Holds, StoresLast;
    DataCommit(ss, moves, k, j);
    q := StoredAt(ss, moves, k, j, ss[k].nodes[ss[k].lead].session);
  }

  /**
   * Metadata commit on the run itself: when the lead leaves the metadata phase of session u
   * for ready, every other node read the lead's 170 record at an earlier move, in session u
   * and in its receiving state.
   */
  lemma EveryoneApplied(ss: seq<Sys>, moves: seq<Move>, k: nat, j: NodeId) returns (q: nat)
    requires IsRun(ss, moves) && k < |moves|
    requires j in ss[k].nodes && j != ss[k].lead && ss[k].lead in ss[k].nodes
    requires ss[k].nodes[ss[k].lead].office.state == SendingFileMetadataChange
    requires Next(ss[k], moves[k]).nodes[ss[k].lead].office.state == Ready
    ensures q < k && q < |ss|
    ensures var i := ss[k].nodes[ss[k].lead];
            && i.session in i.metas && i.metas[i.session].file.Some?
            && Applies(ss[q], moves[q], j, i.session, (S170, i.metas[i.session].file.value))
  {
    RunStep(ss, moves, k);
    hide IsRun, Next, Applies;
    MetadataCommit(ss, moves, k, j);
    q := AppliedAt(ss, moves, k, j, ss[k].nodes[ss[k].lead].session);
  }
}
