/**
 * Whether the copies are exact: for a file of one packet, in every run of a flock, each
 * following node ends up with exactly the bytes that were sent if and only if it resized
 * the file on the record or had no longer version of it.
 */
module Copies {
  import opened Fsm
  import opened FileStore
  import opened Boxoffice
  import opened Roles
  import opened Flock
  import opened Invariant
  import opened Safety
  import opened Commit
  import opened Alignment
  import opened History
  import opened Content
  import FollowProof

  /** The move has node j read the record of file f in session u. */
  predicate ReadsRecord(s: Sys, a: Move, j: NodeId, u: nat, f: Record) {
    && a.Deliver? && a.to == j && a.input.status == S130 && a.input.file == f
    && j in s.nodes && s.nodes[j].session == u
    && s.nodes[j].office.state == PromotingNewFileMetadata && !s.nodes[j].office.notified
  }

  // ---------- what the lead announced and sent stays what it is ----------

  ghost predicate Keeps(i: Node, i': Node) {
    && (forall u :: u in i.files ==> u in i'.files && i'.files[u] == i.files[u])
    && (forall u :: u in i.sent && u in i.files && i.files[u].file.Some? && Small(i.files[u].file.value) ==>
          u in i'.sent && i'.sent[u] == i.sent[u])
  }

  lemma LeadMoveKeeps(i: Node, others: set<NodeId>, m: Input, tag: nat, r: Result)
    requires LeadInv(i, others) && LeadMove(i.office, m, r)
    ensures Keeps(i, Absorb(i, m, tag, r))
  {
    hide Tickets, Stamp, OnlyStop, Full, AllFalse, Awaited, Lane, Small;
  }

  lemma InnerKeeps(s: Sys, a: Move)
    requires Inv(s) && Enabled(s, a) && !Handles(a) && Acting(a) == s.lead
    ensures s.lead in s.nodes && Keeps(s.nodes[s.lead], After(s, a))
  {
    InvWired(s);
    if a.Emit? {
      EmitKeeps(s, a);
    } else {
      hide Inv, Packed, Small;
    }
  }

  lemma LeadsOnly(s: Sys)
    requires Inv(s)
    ensures s.lead in s.nodes && LeadInv(s.nodes[s.lead], s.nodes.Keys - {s.lead})
  {
    hide Pairs, FollowInv, PeerNet, LeadInv;
  }

  lemma EmitKeeps(s: Sys, a: Move)
    requires Inv(s) && Enabled(s, a) && a.Emit? && a.from == s.lead
    ensures s.lead in s.nodes && Keeps(s.nodes[s.lead], After(s, a))
  {
    hide Inv, LeadInv, Next, Enabled, Packed, After, Small, Lane;
    InvWired(s);
    LeadsOnly(s);
    EmitShape(s, a);
    OnlyActing(s, a);
    assert Next(s, a).nodes[s.lead] == After(s, a);
    LeadEmits(s.nodes[s.lead], s.nodes.Keys - {s.lead}, After(s, a), a.packet, a.last);
  }

  lemma KeepsStep(s: Sys, a: Move)
    requires Inv(s) && Enabled(s, a)
    ensures s.lead in s.nodes && Next(s, a).lead == s.lead && s.lead in Next(s, a).nodes
    ensures Keeps(s.nodes[s.lead], Next(s, a).nodes[s.lead])
  {
    hide Inv, Next, Absorb, Process, LeadMove, After, Taking, Enabled, LeadState, LeadInv, Small;
    LeadsOnly(s);
    OnlyActing(s, a);
    if Acting(a) == s.lead {
      if Handles(a) {
        LeadActs(s, a);
        TakingFrame(s, a);
        var i := s.nodes[s.lead];
        LeadMoveKeeps(i, s.nodes.Keys - {s.lead}, a.input, Taking(s, a).1, Process(i.office, a.input));
        AbsorbFrame(i, Taking(s, a).0, a.input, Taking(s, a).1, Process(i.office, a.input));
      } else {
        InnerKeeps(s, a);
      }
    }
  }

  lemma TakingFrame(s: Sys, a: Move)
    requires Enabled(s, a) && Handles(a)
    ensures a.to in s.nodes && Taking(s, a).0 == s.nodes[a.to].(ticks := Taking(s, a).0.ticks)
  {
    hide Carries;
  }

  lemma AbsorbFrame(n: Node, t: Node, m: Input, tag: nat, r: Result)
    requires t == n.(ticks := t.ticks)
    ensures var a, b := Absorb(n, m, tag, r), Absorb(t, m, tag, r); a.files == b.files && a.sent == b.sent
  {
    hide Tickets, Stamp;
  }

  lemma {:induction false} KeepsRun(ss: seq<Sys>, moves: seq<Move>, q: nat, k: nat)
    requires IsRun(ss, moves) && q <= k <= |moves| < |ss|
    ensures ss[k].lead == ss[q].lead && ss[q].lead in ss[q].nodes && ss[q].lead in ss[k].nodes
    ensures Keeps(ss[q].nodes[ss[q].lead], ss[k].nodes[ss[q].lead])
    decreases k
  {
    hide Inv, Next, Enabled, Init, Small;
    SameNodes(ss, moves, q);
    if q < k {
      KeepsRun(ss, moves, q, k - 1);
      RunStep(ss, moves, k - 1);
      RunHolds(ss, moves, k - 1);
      KeepsStep(ss[k - 1], moves[k - 1]);
    }
  }

  // ---------- from the record on ----------

  /** The node has read the record and not yet got the data. */
  predicate Holding(n: Node) {
    n.office.state == SendingFakeFile || (n.office.state == PromotingNewFileMetadata && n.office.notified)
  }

  predicate SmallFile(i: Node, u: nat) { u in i.files && i.files[u].file.Some? && Small(i.files[u].file.value) }

  /** A step into or within this phase reads the record, or leaves the files alone. */
  lemma HoldingStep(i: Node, j: Node, others: set<NodeId>, m: Input, tag: nat, r: Result)
    requires FollowInv(j, others) && FollowMove(j.office, m, r) && LeadHistory(i)
    requires Agree(i, j) && Agree(i, Absorb(j, m, tag, r))
    requires m.status == S132 && j.office.state == PromotingNewFileMetadata ==> j.office.notified
    requires Holding(Absorb(j, m, tag, r)) && SmallFile(i, Absorb(j, m, tag, r).session)
    ensures Absorb(j, m, tag, r).session == j.session
    ensures || (Holding(j) && r.office.disk == j.office.disk)
            || (FollowRecord(j.office, m, r) && Some(m.file) == i.files[j.session].file)
  {
    hide Tickets, Stamp, Received, OnlyStop, FollowLane, HasStored, Small;
  }

  /** The step of a following node in a run, with what is known about it before and after. */
  lemma FollowerStep(s: Sys, a: Move)
    requires Inv(s) && Enabled(s, a) && Handles(a) && a.to != s.lead && s.lead in s.nodes
    ensures a.to in s.nodes && a.to in Next(s, a).nodes
    ensures var i, j, j', m := s.nodes[s.lead], s.nodes[a.to], Next(s, a).nodes[a.to], a.input;
            && FollowInv(j, s.nodes.Keys - {a.to}) && LeadHistory(i) && Agree(i, j) && Agree(i, j')
            && j'.office == Process(j.office, m).office && FollowMove(j.office, m, Process(j.office, m))
            && j' == Absorb(Taking(s, a).0, m, Taking(s, a).1, Process(j.office, m))
            && Next(s, a).nodes[s.lead] == i && Next(s, a).lead == s.lead
            && (m.status == S132 && j.office.state == PromotingNewFileMetadata ==> j.office.notified)
  {
    hide Inv, Next, Process, FollowMove, After, Taking, Enabled, LeadHistory, Agree, FollowInv, FollowState;
    OnlyActing(s, a);
    FollowActs(s, a);
    TakingFrame(s, a);
    NextHolds(s, a);
    PairAgrees(s, a.to);
    PairAgrees(Next(s, a), a.to);
    TickNotified(s, a);
    AbsorbOffice(Taking(s, a).0, a.input, Taking(s, a).1, Process(s.nodes[a.to].office, a.input));
  }

  lemma AbsorbOffice(t: Node, m: Input, tag: nat, r: Result)
    ensures Absorb(t, m, tag, r).office == r.office
  {
    hide Tickets, Stamp;
  }

  lemma PairAgrees(s: Sys, j: NodeId)
    requires Inv(s) && j in s.nodes && j != s.lead
    ensures s.lead in s.nodes && FollowInv(s.nodes[j], s.nodes.Keys - {j}) && LeadHistory(s.nodes[s.lead])
    ensures Agree(s.nodes[s.lead], s.nodes[j])
  {
    InvFollows(s, j);
    LeadsOnly(s);
    hide Inv, FollowInv, Agree, LeadHistory, Joined, Finished, DownInv, UpInv;
  }

  lemma TickNotified(s: Sys, a: Move)
    requires Inv(s) && Enabled(s, a) && Handles(a) && a.to != s.lead && a.to in s.nodes
    ensures var o := s.nodes[a.to].office;
            a.input.status == S132 && o.state == PromotingNewFileMetadata ==> o.notified
  {
    hide Inv, FollowInv, Carries, PairInv, LeadInv;
    InvWired(s);
    InvFollows(s, a.to);
    if a.Tick? {
      FollowTicksDown(s.nodes[a.to], s.nodes.Keys - {a.to});
    } else if a.Deliver? {
      DeliveredFrom(s, a);
      FollowHears(s, a.from, a.to, a.input, Taking(s, a).1);
    }
  }

  lemma TicksAside(j: Node, t: Node, m: Input, tag: nat, r: Result)
    requires t == j.(ticks := t.ticks)
    ensures var a, b := Absorb(j, m, tag, r), Absorb(t, m, tag, r);
            a.session == b.session && a.office == b.office && a.stored == b.stored && a.applied == b.applied
  {
    hide Tickets, Stamp;
  }

  lemma AgreeFrame(i: Node, a: Node, b: Node)
    requires a.session == b.session && a.office == b.office && a.stored == b.stored && a.applied == b.applied
    requires Agree(i, b)
    ensures Agree(i, a)
  {
    hide Small, Holds;
  }

  /** One move of the run, seen from a node that holds a record afterwards. */
  lemma HeldStep(s: Sys, a: Move, j: NodeId)
    requires Inv(s) && Enabled(s, a) && s.lead in s.nodes && j in s.nodes && j != s.lead
    requires j in Next(s, a).nodes && Holding(Next(s, a).nodes[j])
    requires SmallFile(s.nodes[s.lead], Next(s, a).nodes[j].session)
    ensures Next(s, a).nodes[j].session == s.nodes[j].session
    ensures || (Holding(s.nodes[j]) && Next(s, a).nodes[j].office.disk == s.nodes[j].office.disk)
            || (s.nodes[s.lead].files[s.nodes[j].session].file.Some?
                && ReadsRecord(s, a, j, s.nodes[j].session, s.nodes[s.lead].files[s.nodes[j].session].file.value))
  {
    hide Inv, Next, Absorb, Process, FollowMove, After, Taking, Enabled, LeadHistory, Agree, FollowInv, Small;
    OnlyActing(s, a);
    if Acting(a) == j {
      if Handles(a) {
        FollowerStep(s, a);
        TakingFrame(s, a);
        var i, n, t, tag := s.nodes[s.lead], s.nodes[j], Taking(s, a).0, Taking(s, a).1;
        var r := Process(n.office, a.input);
        TicksAside(n, t, a.input, tag, r);
        AgreeFrame(i, Absorb(n, a.input, tag, r), Next(s, a).nodes[j]);
        HoldingStep(i, n, s.nodes.Keys - {j}, a.input, tag, r);
        if FollowRecord(n.office, a.input, r) { FromNetwork(s, a); }
      } else {
        InnerKeepsEnded(s, a);
      }
    }
  }

  /** Where the record was read, and that the files were left alone since. */
  lemma {:induction false} RecordAt(ss: seq<Sys>, moves: seq<Move>, k: nat, j: NodeId) returns (q: nat)
    requires IsRun(ss, moves) && k <= |moves| < |ss| && ss[k].lead in ss[k].nodes
    requires j in ss[k].nodes && j != ss[k].lead && Holding(ss[k].nodes[j])
    requires SmallFile(ss[k].nodes[ss[k].lead], ss[k].nodes[j].session)
    ensures var u := ss[k].nodes[j].session;
            && q < k && ReadsRecord(ss[q], moves[q], j, u, ss[k].nodes[ss[k].lead].files[u].file.value)
            && j in ss[q + 1].nodes && ss[q + 1].nodes[j].office.disk == ss[k].nodes[j].office.disk
  {
    hide Inv, Next, Enabled, Init, ReadsRecord, Small;
    SameNodes(ss, moves, k);
    if k == 0 {
      StartsIdle(ss[0], j);
    } else {
      SameNodes(ss, moves, k - 1);
      RunStep(ss, moves, k - 1);
      RunHolds(ss, moves, k - 1);
      var s, a := ss[k - 1], moves[k - 1];
      KeepsStep(s, a);
      SmallBefore(s, a, j);
      HeldStep(s, a, j);
      if ReadsRecord(s, a, j, s.nodes[j].session, s.nodes[s.lead].files[s.nodes[j].session].file.value) {
        q := k - 1;
      } else {
        q := RecordAt(ss, moves, k - 1, j);
      }
    }
  }

  lemma StartsIdle(s: Sys, j: NodeId)
    requires Init(s) && j in s.nodes
    ensures !Holding(s.nodes[j])
  {
  }

  /** The file of the session was announced before the move, by which another node may be acting. */
  lemma SmallBefore(s: Sys, a: Move, j: NodeId)
    requires Inv(s) && Enabled(s, a) && s.lead in s.nodes && j in s.nodes && j != s.lead
    requires Next(s, a).lead == s.lead && s.lead in Next(s, a).nodes && j in Next(s, a).nodes
    requires Holding(Next(s, a).nodes[j]) && SmallFile(Next(s, a).nodes[s.lead], Next(s, a).nodes[j].session)
    ensures SmallFile(s.nodes[s.lead], Next(s, a).nodes[j].session)
  {
    hide Inv, Next, After, Enabled, Small, LeadHistory, FollowInv;
    OnlyActing(s, a);
    KeepsStep(s, a);
    if Acting(a) == s.lead {
      PairAgrees(s, j);
      HoldingFile(s.nodes[s.lead], s.nodes[j]);
    }
  }

  lemma HoldingFile(i: Node, j: Node)
    requires Agree(i, j) && Holding(j)
    ensures j.session in i.files
  {
    hide HasStored, Small;
  }

  // ---------- after the data ----------

  /** A node that has stored the file of its session leaves the files alone until the next session. */
  lemma StoredKept(j: Node, others: set<NodeId>, m: Input, tag: nat, r: Result)
    requires FollowInv(j, others) && FollowMove(j.office, m, r) && j.session in j.stored
    requires j.office.state == Ready && (m.status == S120 || m.status == S160 || m.status == S164) ==> tag > j.session
    ensures Absorb(j, m, tag, r).session >= j.session
    ensures Absorb(j, m, tag, r).session == j.session ==> r.office.disk == j.office.disk
  {
    hide Tickets, Stamp, Received, OnlyStop, FollowLane;
  }

  lemma SessionRises(j: Node, others: set<NodeId>, m: Input, tag: nat, r: Result)
    requires FollowInv(j, others) && FollowMove(j.office, m, r)
    requires j.office.state == Ready && (m.status == S120 || m.status == S160 || m.status == S164) ==> tag > j.session
    ensures Absorb(j, m, tag, r).session >= j.session
  {
    hide Tickets, Stamp, Received, OnlyStop, FollowLane;
  }

  lemma StoredStays(s: Sys, a: Move, j: NodeId)
    requires Inv(s) && Enabled(s, a) && s.lead in s.nodes && j in s.nodes && j != s.lead && j in Next(s, a).nodes
    requires var u := Next(s, a).nodes[j].session; u in s.nodes[j].stored
    ensures Next(s, a).nodes[j].session == s.nodes[j].session
    ensures Next(s, a).nodes[j].office.disk == s.nodes[j].office.disk
  {
    hide Inv, Next, Absorb, Process, FollowMove, After, Taking, Enabled, LeadHistory, Agree, FollowLane;
    OnlyActing(s, a);
    if Acting(a) == j {
      if Handles(a) {
        FollowerStep(s, a);
        TakingFrame(s, a);
        var n, t, tag, m, r := s.nodes[j], Taking(s, a).0, Taking(s, a).1, a.input, Process(s.nodes[j].office, a.input);
        TicksAside(n, t, m, tag, r);
        if n.office.state == Ready && (m.status == S120 || m.status == S160 || m.status == S164) { LaterSession(s, a); }
        SessionRises(n, s.nodes.Keys - {j}, m, tag, r);
        StoredKept(n, s.nodes.Keys - {j}, m, tag, r);
      } else {
        InnerKeepsEnded(s, a);
      }
    }
  }

  lemma {:induction false} StoredDisk(ss: seq<Sys>, moves: seq<Move>, k: nat, j: NodeId) returns (q: nat)
    requires IsRun(ss, moves) && k <= |moves| < |ss|
    requires j in ss[k].nodes && j != ss[k].lead && ss[k].nodes[j].session in ss[k].nodes[j].stored
    ensures q < k && StoresLast(ss[q], moves[q], j, ss[k].nodes[j].session)
    ensures j in ss[q + 1].nodes && ss[q + 1].nodes[j].office.disk == ss[k].nodes[j].office.disk
  {
    hide Inv, Next, Enabled, Init, StoresLast;
    SameNodes(ss, moves, k);
    if k == 0 {
      StartsEmpty(ss[0], j);
    } else {
      SameNodes(ss, moves, k - 1);
      RunStep(ss, moves, k - 1);
      RunHolds(ss, moves, k - 1);
      var u := ss[k].nodes[j].session;
      if u in ss[k - 1].nodes[j].stored {
        StoredStays(ss[k - 1], moves[k - 1], j);
        q := StoredDisk(ss, moves, k - 1, j);
      } else {
        StoredStep(ss[k - 1], moves[k - 1], j, u);
        q := k - 1;
      }
    }
  }

  // ---------- the copy ----------

  /** The data that a node takes in its session is what the lead sent, whole. */
  lemma DataAsSent(s: Sys, a: Move, j: NodeId, u: nat)
    requires Inv(s) && Enabled(s, a) && StoresLast(s, a, j, u) && j != s.lead && s.lead in s.nodes
    requires SmallFile(s.nodes[s.lead], u)
    ensures var i, f := s.nodes[s.lead], s.nodes[s.lead].files[u].file.value;
            && u in i.sent && a.input.chunk == i.sent[u] && |a.input.chunk| == f.size && a.input.offset == 0
            && s.nodes[j].office.current == Some(f)
  {
    InvWired(s);
    DeliveredFrom(s, a);
    FollowHears(s, a.from, j, a.input, Taking(s, a).1);
    PairAgrees(s, j);
    hide Inv, Enabled, Carries, LeadHistory, FollowInv, FollowProof.Source, FollowInput, Small, HasStored;
    var down := s.net[(s.lead, j)];
    FollowProof.LeadSends(s.nodes[s.lead], s.nodes[j], a.input, Taking(s, a).1, down,
                          if a.from == s.lead then down[1..] else down);
  }

  lemma OfficeAfter(s: Sys, a: Move)
    requires Enabled(s, a) && Handles(a)
    ensures a.to in s.nodes && a.to in Next(s, a).nodes
    ensures Next(s, a).nodes[a.to].office == Process(s.nodes[a.to].office, a.input).office
  {
    OnlyActing(s, a);
    hide Process, Carries, Stamp, Tickets, NetAfter;
  }

  /**
   * When the lead ends session u, whose file fits one packet: every other node has read the record
   * of that file in session u, at some move q, and its copy is exactly what the lead sent if and
   * only if at q it was going to resize the file or had no longer version of it.
   */
  lemma CopyExact(ss: seq<Sys>, moves: seq<Move>, k: nat, j: NodeId) returns (q: nat)
    requires IsRun(ss, moves) && k <= |moves| < |ss|
    requires j in ss[k].nodes && j != ss[k].lead && ss[k].lead in ss[k].nodes
    requires ss[k].nodes[ss[k].lead].office.state == SyncingStop
    requires SmallFile(ss[k].nodes[ss[k].lead], ss[k].nodes[ss[k].lead].session)
    ensures var i, n := ss[k].nodes[ss[k].lead], ss[k].nodes[j];
            var u, f := i.session, i.files[i.session].file.value;
            && q < k && ReadsRecord(ss[q], moves[q], j, u, f)
            && u in i.sent && f.path in n.office.disk
            && (n.office.disk[f.path] == i.sent[u] <==> Fitting(ss[q].nodes[j].office, f))
  {
    hide Inv, Next, Enabled, Init, Small, Fitting, Process, Opened, Sized, Received, Holds;
    DataCommit(ss, moves, k, j);
    var i := ss[k].nodes[ss[k].lead];
    var u, f := i.session, i.files[i.session].file.value;
    var p := StoredDisk(ss, moves, k, j);
    RunStep(ss, moves, p);
    RunHolds(ss, moves, p);
    KeepsRun(ss, moves, p, k);
    SmallThen(ss[p], j, i, u);
    DataAsSent(ss[p], moves[p], j, u);
    OfficeAfter(ss[p], moves[p]);
    q := RecordAt(ss, moves, p, j);
    RunStep(ss, moves, q);
    OfficeAfter(ss[q], moves[q]);
    SmallPlain(f);
    RecordStep(ss[q].nodes[j].office, moves[q].input);
    DataStep(ss[p].nodes[j].office, moves[p].input);
    WholeCopy(ss[q].nodes[j].office, f, ss[p].nodes[j].office.disk, moves[p].input);
  }

  lemma SmallPlain(f: Record)
    requires Small(f)
    ensures !f.deleted && f.size <= PACKAGE_SIZE
  {
  }

  lemma SmallThen(s: Sys, j: NodeId, i: Node, u: nat)
    requires Inv(s) && s.lead in s.nodes && j in s.nodes && j != s.lead
    requires s.nodes[j].office.state == SendingFakeFile && s.nodes[j].session == u
    requires Keeps(s.nodes[s.lead], i) && SmallFile(i, u)
    ensures SmallFile(s.nodes[s.lead], u)
  {
    hide Inv, Small;
    PairAgrees(s, j);
    HoldingFile(s.nodes[s.lead], s.nodes[j]);
  }
}
