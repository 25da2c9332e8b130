/**
 * Phase alignment: while the lead hands out a file, every other node is in the matching
 * part of the session.  The only way out is a 155 or 150 heartbeat of an older session
 * that another following node still has in the channel.
 */
module Alignment {
  import opened Fsm
  import opened Boxoffice
  import opened Stages
  import opened Roles
  import opened Flock
  import opened Invariant
  import opened Safety
  import opened Commit

  /** Some node has ended session u: the lead properly, another one on a stale heartbeat. */
  ghost predicate IsEnded(s: Sys, u: nat) { exists n :: n in s.nodes && u in s.nodes[n].ended }

  /** Heartbeats that make a following node leave the session. */
  predicate Final(st: Status) { st == S155 || st == S150 }

  predicate Resting(s: State) { s == Ready || s == SyncingStop }

  ghost predicate OutEnds(s: Sys, out: seq<Tagged>) {
    forall p :: 0 <= p < |out| && Final(out[p].beat.status) ==> IsEnded(s, out[p].session)
  }

  ghost predicate NetEnds(s: Sys, net: seq<Packet>) {
    forall p :: 0 <= p < |net| && net[p].Hb? && Final(net[p].tag.beat.status) ==> IsEnded(s, net[p].tag.session)
  }

  ghost predicate EndInv(s: Sys) {
    && (forall n :: n in s.nodes ==> OutEnds(s, s.nodes[n].out))
    && (forall k :: k in s.net ==> NetEnds(s, s.net[k]))
    && (forall n :: n in s.nodes && Resting(s.nodes[n].office.state) ==> IsEnded(s, s.nodes[n].session))
  }

  // ---------- one node ----------

  /** What a step of a following node may add: final heartbeats and rest only in an ended session. */
  lemma FollowEnds(j: Node, m: Input, tag: nat, r: Result, tagEnded: bool, selfEnded: bool)
    requires FollowState(j.office.state) && FollowMove(j.office, m, r)
    requires Final(m.status) ==> tagEnded
    requires Resting(j.office.state) ==> selfEnded
    ensures var j' := Absorb(j, m, tag, r);
            var ok := j'.session in j'.ended || (tagEnded && tag == j'.session)
                      || (selfEnded && j'.session == j.session);
            && j.ended <= j'.ended
            && (Resting(j'.office.state) ==> ok)
            && j.out <= j'.out
            && (forall p :: |j.out| <= p < |j'.out| ==>
                  j'.out[p].session == j'.session && (Final(j'.out[p].beat.status) ==> ok))
  {
    hide Tickets, Received, Kept, OnlyStop, FollowState;
  }

  lemma LeadEnds(i: Node, m: Input, tag: nat, r: Result)
    requires LeadState(i.office.state) && LeadMove(i.office, m, r)
    ensures var i' := Absorb(i, m, tag, r);
            && i.ended <= i'.ended
            && i.out <= i'.out
            && (forall p :: |i.out| <= p < |i'.out| ==>
                  i'.out[p].session == i'.session && (Final(i'.out[p].beat.status) ==> i'.session in i'.ended))
  {
    hide Tickets, OnlyStop, Full, AllFalse, Awaited, LeadState;
  }

  // ---------- the flock ----------

  lemma StillEnded(s: Sys, s': Sys, b: NodeId)
    requires b in s.nodes && s'.nodes.Keys == s.nodes.Keys
    requires forall n :: n in s.nodes && n != b ==> s'.nodes[n] == s.nodes[n]
    requires s.nodes[b].ended <= s'.nodes[b].ended
    ensures forall u :: IsEnded(s, u) ==> IsEnded(s', u)
  {
    forall u | IsEnded(s, u)
      ensures IsEnded(s', u)
    {
      var n :| n in s.nodes && u in s.nodes[n].ended;
      assert n in s'.nodes && u in s'.nodes[n].ended;
    }
  }

  /** A channel after a move: unchanged, without its head, or with one heartbeat or packet of b more. */
  ghost predicate NetMoved(net: seq<Packet>, net': seq<Packet>, b: Node) {
    || net' == net
    || (|net| > 0 && net' == net[1..])
    || net' == net + [Noise]
    || (|b.out| > 0 && net' == net + [Hb(b.out[0])])
    || (|net'| > 0 && net' == net + [net'[|net'| - 1]] && net'[|net'| - 1].Data?)
  }

  lemma NetsMoved(s: Sys, a: Move)
    requires Wired(s) && Enabled(s, a)
    ensures Acting(a) in s.nodes
    ensures forall k :: k in s.net ==>
              k in Next(s, a).net && NetMoved(s.net[k], Next(s, a).net[k], s.nodes[Acting(a)])
  {
    forall k | k in s.net
      ensures k in Next(s, a).net && NetMoved(s.net[k], Next(s, a).net[k], s.nodes[Acting(a)])
    {
      if a.Emit? {
        assert k.0 == a.from && k.1 in a.reached ==> Next(s, a).net[k] == s.net[k] + [a.packet];
      }
    }
    hide After, Carries;
  }

  lemma NetStillEnds(s: Sys, s': Sys, net: seq<Packet>, net': seq<Packet>, b: Node)
    requires forall u :: IsEnded(s, u) ==> IsEnded(s', u)
    requires NetEnds(s, net) && OutEnds(s, b.out) && NetMoved(net, net', b)
    ensures NetEnds(s', net')
  {
    hide IsEnded, Final;
    forall p | 0 <= p < |net'| && net'[p].Hb? && Final(net'[p].tag.beat.status)
      ensures IsEnded(s', net'[p].tag.session)
    {
      if |net'| < |net| { assert net'[p] == net[p + 1]; }
    }
  }

  /** What the acting node's own step has to provide. */
  lemma EndsAfter(s: Sys, a: Move)
    requires Inv(s) && EndInv(s) && Enabled(s, a)
    requires var n, n' := s.nodes[Acting(a)], After(s, a);
             && n.ended <= n'.ended
             && (forall p :: 0 <= p < |n'.out| && Final(n'.out[p].beat.status) ==>
                   n'.out[p] in n.out || n'.out[p].session in n'.ended || IsEnded(s, n'.out[p].session))
             && (Resting(n'.office.state) ==> n'.session in n'.ended || IsEnded(s, n'.session))
    ensures EndInv(Next(s, a))
  {
    hide Inv, After, Enabled, NetAfter, NetMoved, Final, Resting;
    var s', b := Next(s, a), Acting(a);
    assert Wired(s) by { InvWired(s); }
    NetsMoved(s, a);
    StillWired(s, a);
    assert s'.nodes == s.nodes[b := After(s, a)];
    StillEnded(s, s', b);
    forall k | k in s'.net
      ensures NetEnds(s', s'.net[k])
    {
      assert k in s.net;
      NetStillEnds(s, s', s.net[k], s'.net[k], s.nodes[b]);
    }
    forall n | n in s'.nodes
      ensures OutEnds(s', s'.nodes[n].out)
      ensures Resting(s'.nodes[n].office.state) ==> IsEnded(s', s'.nodes[n].session)
    {
      assert OutEnds(s, s.nodes[n].out);
    }
  }

  lemma InvWired(s: Sys)
    requires Inv(s)
    ensures Wired(s)
  {
  }

  lemma LeadEndsAfter(s: Sys, a: Move)
    requires Inv(s) && EndInv(s) && Enabled(s, a) && Handles(a) && a.to == s.lead
    ensures EndInv(Next(s, a))
  {
    hide Inv, EndInv, Absorb, LeadMove, Process, Enabled, IsEnded, Final, After, NetAfter, Taking, LeadState, Resting;
    LeadActs(s, a);
    NextHolds(s, a);
    TakingKeeps(s, a);
    var o := s.nodes[s.lead].office;
    LeadEnds(Taking(s, a).0, a.input, Taking(s, a).1, Process(o, a.input));
    LeadRests(Next(s, a));
    EndsAfter(s, a);
  }

  lemma TakingKeeps(s: Sys, a: Move)
    requires Enabled(s, a) && Handles(a)
    ensures a.to in s.nodes
    ensures var n, t := s.nodes[a.to], Taking(s, a).0;
            t.office == n.office && t.session == n.session && t.out == n.out && t.ended == n.ended
  {
    hide Carries;
  }

  lemma LeadRests(s: Sys)
    requires Inv(s)
    ensures var i := s.nodes[s.lead]; Resting(i.office.state) ==> i.session in i.ended
  {
    assert LeadPhase(s.nodes[s.lead]);
    hide Pairs, FollowInv, PeerNet;
  }

  /** A following node changes only by one of its moves. */
  lemma FollowActs(s: Sys, a: Move)
    requires Inv(s) && Enabled(s, a) && Handles(a) && a.to != s.lead
    ensures var o := s.nodes[a.to].office;
            && FollowState(o.state) && FollowMove(o, a.input, Process(o, a.input))
            && After(s, a) == Absorb(Taking(s, a).0, a.input, Taking(s, a).1, Process(o, a.input))
  {
    FollowTaken(s, a);
    FollowSteps(s.nodes[a.to].office, a.input);
    assert FollowInv(s.nodes[a.to], s.nodes.Keys - {a.to});
    hide Inv, FollowMove, Process, Absorb, FollowInput, Carries;
  }

  lemma FollowTaken(s: Sys, a: Move)
    requires Inv(s) && Enabled(s, a) && Handles(a) && a.to != s.lead
    ensures FollowState(s.nodes[a.to].office.state) && FollowInput(s.nodes[a.to].office, a.input)
  {
    var n, others := s.nodes[a.to], s.nodes.Keys - {a.to};
    assert FollowInv(n, others);
    if a.Deliver? {
      assert a.from in s.nodes;
      FollowHears(s, a.from, a.to, a.input, TagOf(s.net[(a.from, a.to)][0], n.session));
    } else {
      if a.Tick? { FollowTicksDown(n, others); }
      LocalFollowInput(n.office, a.input, n.session, []);
    }
    hide Inv, FollowInput;
  }

  lemma TagEnded(s: Sys, a: Move)
    requires Inv(s) && EndInv(s) && Enabled(s, a) && Handles(a) && a.to != s.lead && Final(a.input.status)
    ensures IsEnded(s, Taking(s, a).1)
  {
    hide Inv, IsEnded;
    if a.Deliver? {
      assert NetEnds(s, s.net[(a.from, a.to)]);
    } else {
      NotFinal(s, a);
    }
  }

  lemma NotFinal(s: Sys, a: Move)
    requires Inv(s) && Enabled(s, a) && (a.Tick? || a.Local?) && a.to != s.lead
    ensures !Final(a.input.status)
  {
    hide Inv, Enabled, Next, FollowInv;
    InvWired(s);
    LocalShape(s, a);
    InvFollows(s, a.to);
    if a.Tick? { FollowTicksDown(s.nodes[a.to], s.nodes.Keys - {a.to}); }
  }

  lemma InvFollows(s: Sys, j: NodeId)
    requires Inv(s) && j in s.nodes && j != s.lead
    ensures FollowInv(s.nodes[j], s.nodes.Keys - {j})
    ensures PairInv(s.nodes[s.lead], s.nodes[j], s.net[(s.lead, j)], s.net[(j, s.lead)], j)
    ensures LeadInv(s.nodes[s.lead], s.nodes.Keys - {s.lead})
  {
    hide FollowInv, LeadInv, PairInv, PeerNet;
  }

  lemma FollowEndsAfter(s: Sys, a: Move)
    requires Inv(s) && EndInv(s) && Enabled(s, a) && Handles(a) && a.to != s.lead
    ensures EndInv(Next(s, a))
  {
    hide Inv, Absorb, FollowMove, Process, Enabled, IsEnded, Final, After, Next, Taking, FollowState, NetEnds, OutEnds,
      Resting;
    FollowActs(s, a);
    TakingKeeps(s, a);
    var n, tag := s.nodes[a.to], Taking(s, a).1;
    var r := Process(n.office, a.input);
    if Final(a.input.status) { TagEnded(s, a); }
    assert Resting(n.office.state) ==> IsEnded(s, n.session);
    FollowEnds(Taking(s, a).0, a.input, tag, r, IsEnded(s, tag), IsEnded(s, n.session));
    EndsAfter(s, a);
  }

  lemma QuietEndsAfter(s: Sys, a: Move)
    requires Inv(s) && EndInv(s) && Enabled(s, a) && !Handles(a)
    ensures EndInv(Next(s, a))
  {
    var n, n' := s.nodes[Acting(a)], After(s, a);
    assert n'.office == n.office && n'.session == n.session && n'.ended == n.ended
        && (n'.out == n.out || (|n.out| > 1 && n'.out == n.out[1..])) by { hide Inv, EndInv, Packed; }
    assert Resting(n.office.state) ==> IsEnded(s, n.session);
    hide Inv, EndInv, Enabled, IsEnded, Final, Resting, After;
    EndsAfter(s, a);
  }

  lemma NextEnds(s: Sys, a: Move)
    requires Inv(s) && EndInv(s) && Enabled(s, a)
    ensures EndInv(Next(s, a))
  {
    hide Inv, EndInv, Enabled, Next;
    if !Handles(a) {
      QuietEndsAfter(s, a);
    } else if a.to == s.lead {
      LeadEndsAfter(s, a);
    } else {
      FollowEndsAfter(s, a);
    }
  }

  lemma InitEnds(s: Sys)
    requires Init(s)
    ensures EndInv(s)
  {
    assert forall n :: n in s.nodes ==> s.nodes[n] == Start(s.nodes.Keys - {n}, s.nodes[n].office.disk);
    assert IsEnded(s, 0) by { assert 0 in s.nodes[s.lead].ended; }
    hide IsEnded;
  }

  lemma {:induction false} RunEnds(ss: seq<Sys>, moves: seq<Move>, k: nat)
    requires IsRun(ss, moves) && k < |ss|
    ensures EndInv(ss[k])
  {
    hide Inv, EndInv, Next, Enabled, Init;
    if k == 0 {
      InitEnds(ss[0]);
    } else {
      RunEnds(ss, moves, k - 1);
      RunHolds(ss, moves, k - 1);
      RunStep(ss, moves, k - 1);
      NextEnds(ss[k - 1], moves[k - 1]);
    }
  }

  // ---------- alignment ----------

  /** The part of a data session a following node can be in while the lead hands out the file. */
  predicate Aligned(s: State, metadataFirst: bool) {
    || s == (if metadataFirst then BroadcastingAllMetadataReceived else AcknowledgingNewFile)
    || s == PromotingNewFileMetadata || s == SendingFakeFile || s == BroadcastingAllReceived
  }

  /**
   * The message ends the session of a following node that has done its part, although it
   * belongs to another session.
   */
  predicate Stale(n: Node, m: Input, tag: nat) {
    && tag != n.session
    && (|| (n.office.state == BroadcastingAllReceived && m.status == S155)
        || (n.office.state == BroadcastingAllMetadataReceived && m.status == S150))
  }

  /** The move hands such a message to a node in session u. */
  predicate StaleMove(s: Sys, a: Move, u: nat) {
    && Enabled(s, a) && a.Deliver? && a.to != s.lead
    && s.nodes[a.to].session == u && Stale(s.nodes[a.to], a.input, Taking(s, a).1)
  }

  /** No move before k was stale in session u. */
  ghost predicate Unbroken(ss: seq<Sys>, moves: seq<Move>, k: nat, u: nat)
    requires k <= |moves| <= |ss|
  {
    forall q :: 0 <= q < k ==> !StaleMove(ss[q], moves[q], u)
  }

  predicate Handing(s: State) { s == SendingNewFileMetadata || s == SendingNewFile }

  // ---------- what a stale message does ----------

  lemma FinalHeard(o: Office, m: Input)
    requires (o.state == BroadcastingAllReceived && m.status == S155)
          || (o.state == BroadcastingAllMetadataReceived && m.status == S150)
    ensures var a := OnHeartbeat(Timestamped(o, m), m);
            && a.outcome == Done && a.event == EventOf(m.status) && a.status == m.status
            && a.beats == [] && a.office.state == o.state
  {
    hide OnReply, OnNewFileRecord, OnMetadata, Int16, EventOf;
  }

  lemma FinalRow(s: State, status: Status)
    requires (s == BroadcastingAllReceived && status == S155)
          || (s == BroadcastingAllMetadataReceived && status == S150)
    ensures EventOf(status) == ReceivedHeartbeat && CheckEvent(s, EventOf(status), status)
    ensures var e := EventOf(status);
            && NewState(s, e, status) == (if status == S155 then SyncingStop else Ready)
            && ActionOf(s, e, status) == SendHeartbeat && HeartbeatStatus(s, e, status) == status
  {
  }

  /** A node that has done its part goes along with any 155, or 150, and passes it on. */
  lemma FinalTaken(o: Office, m: Input)
    requires (o.state == BroadcastingAllReceived && m.status == S155)
          || (o.state == BroadcastingAllMetadataReceived && m.status == S150)
    ensures var r := Process(o, m);
            && r.office.state == (if m.status == S155 then SyncingStop else Ready)
            && |r.beats| == 1 && r.beats[0].status == m.status
  {
    FinalRow(o.state, m.status);
    FinalHeard(o, m);
    hide CheckEvent, NewState, ActionOf, HeartbeatStatus, EventOf, Process, OnHeartbeat, Timestamped, Continue;
    HeartbeatPath(o, m);
    var a := OnHeartbeat(Timestamped(o, m), m);
    var to := if m.status == S155 then SyncingStop else Ready;
    Performed(a, m, to, m.status);
    PreparedPlain(a.office, m, m.status, to);
  }

  lemma EndedGrowth(j: Node, m: Input, tag: nat, r: Result)
    requires FollowState(j.office.state) && FollowMove(j.office, m, r)
    ensures var j' := Absorb(j, m, tag, r);
            j'.ended != j.ended ==>
              && Stale(j, m, tag) && Resting(j'.office.state)
              && j'.session == j.session && j'.ended == j.ended + {j.session}
  {
    hide Tickets, Stamp, Received, Kept, OnlyStop, FollowState;
  }

  /** The record of ended sessions grows exactly by the guard on the message. */
  lemma EndedExactly(j: Node, m: Input, tag: nat)
    requires FollowState(j.office.state) && FollowMove(j.office, m, Process(j.office, m))
    ensures Absorb(j, m, tag, Process(j.office, m)).ended == j.ended + if Stale(j, m, tag) then {j.session} else {}
  {
    hide Process, FollowMove, FollowState;
    EndedGrowth(j, m, tag, Process(j.office, m));
    if Stale(j, m, tag) {
      FinalTaken(j.office, m);
    }
    hide Stamp, Tickets;
  }

  /** No following node has recorded the end of session u. */
  ghost predicate NoStale(s: Sys, u: nat) {
    forall n :: n in s.nodes && n != s.lead ==> u !in s.nodes[n].ended
  }

  lemma NotEnded(s: Sys, u: nat)
    requires s.lead in s.nodes && NoStale(s, u) && u !in s.nodes[s.lead].ended
    ensures !IsEnded(s, u)
  {
  }

  lemma GuardStep(s: Sys, a: Move)
    requires Inv(s) && Enabled(s, a) && Handles(a) && a.to != s.lead
    ensures a.to in s.nodes
    ensures var n := s.nodes[a.to];
            After(s, a).ended == n.ended + if StaleMove(s, a, n.session) then {n.session} else {}
  {
    hide Inv, Absorb, Process, FollowMove, After, Enabled, FollowState;
    FollowActs(s, a);
    TakingKeeps(s, a);
    TakingTag(s, a);
    EndedExactly(Taking(s, a).0, a.input, Taking(s, a).1);
  }

  lemma TakingTag(s: Sys, a: Move)
    requires Enabled(s, a) && Handles(a)
    ensures a.to in s.nodes && (!a.Deliver? ==> Taking(s, a).1 == s.nodes[a.to].session)
  {
    hide Carries;
  }

  lemma StaleStep(s: Sys, a: Move, u: nat)
    requires Inv(s) && Enabled(s, a)
    ensures NoStale(Next(s, a), u) <==> NoStale(s, u) && !StaleMove(s, a, u)
  {
    hide Inv, Next, After, Enabled, Stale;
    OnlyActing(s, a);
    var s', b := Next(s, a), Acting(a);
    assert forall n :: n in s.nodes && n != b ==> s'.nodes[n] == s.nodes[n];
    if b != s.lead {
      if Handles(a) { GuardStep(s, a); } else { InnerKeepsEnded(s, a); }
      assert b in s.nodes && b in s'.nodes && s'.lead == s.lead;
    }
  }

  lemma NoStaleAtFirst(s: Sys, u: nat)
    requires Init(s) && u > 0
    ensures NoStale(s, u)
  {
    assert forall n :: n in s.nodes ==> s.nodes[n] == Start(s.nodes.Keys - {n}, s.nodes[n].office.disk);
  }

  /** What following nodes have recorded is what the moves of the run did. */
  lemma {:induction false} NoStaleExact(ss: seq<Sys>, moves: seq<Move>, k: nat, u: nat)
    requires IsRun(ss, moves) && k <= |moves| < |ss| && u > 0
    ensures NoStale(ss[k], u) <==> Unbroken(ss, moves, k, u)
  {
    hide Inv, Next, Enabled, Init, NoStale, StaleMove;
    if k == 0 {
      NoStaleAtFirst(ss[0], u);
    } else {
      NoStaleExact(ss, moves, k - 1, u);
      RunStep(ss, moves, k - 1);
      RunHolds(ss, moves, k - 1);
      StaleStep(ss[k - 1], moves[k - 1], u);
    }
  }

  // ---------- phase alignment ----------

  lemma AlignedNow(s: Sys, j: NodeId)
    requires Inv(s) && EndInv(s) && s.lead in s.nodes && j in s.nodes && j != s.lead
    requires Handing(s.nodes[s.lead].office.state) && NoStale(s, s.nodes[s.lead].session)
    ensures var i, n := s.nodes[s.lead], s.nodes[j];
            n.session == i.session && (n.office.state == Exit || Aligned(n.office.state, i.session in i.metas))
  {
    hide Inv, OutEnds, NetEnds, IsEnded, DownInv, UpInv, Lane, LeadHistory, NoStale, FollowLane, Finished;
    InvFollows(s, j);
    NotEnded(s, s.nodes[s.lead].session);
  }

  /** The lead hands out files in numbered sessions only. */
  lemma HandingSession(s: Sys)
    requires Inv(s) && s.lead in s.nodes && Handing(s.nodes[s.lead].office.state)
    ensures s.nodes[s.lead].session > 0
  {
    assert LeadPhase(s.nodes[s.lead]);
    hide Pairs, FollowInv, PeerNet;
  }

  /**
   * While the lead announces or sends the file of session u, every other node is in session u
   * and aligned, or was interrupted, unless some earlier move was stale in session u.
   */
  lemma PhaseAlignment(ss: seq<Sys>, moves: seq<Move>, k: nat, j: NodeId)
    requires IsRun(ss, moves) && k <= |moves| < |ss|
    requires ss[k].lead in ss[k].nodes && j in ss[k].nodes && j != ss[k].lead
    requires Handing(ss[k].nodes[ss[k].lead].office.state)
    requires Unbroken(ss, moves, k, ss[k].nodes[ss[k].lead].session)
    ensures var i, n := ss[k].nodes[ss[k].lead], ss[k].nodes[j];
            n.session == i.session && (n.office.state == Exit || Aligned(n.office.state, i.session in i.metas))
  {
    hide IsRun, Inv, EndInv, NoStale, Aligned, Handing, Unbroken;
    RunHolds(ss, moves, k);
    RunEnds(ss, moves, k);
    HandingSession(ss[k]);
    NoStaleExact(ss, moves, k, ss[k].nodes[ss[k].lead].session);
    AlignedNow(ss[k], j);
  }

  lemma LineStep(s: Sys, a: Move)
    requires Inv(s) && EndInv(s) && s.lead in s.nodes && Enabled(s, a) && Handles(a) && a.to != s.lead
    requires Handing(s.nodes[s.lead].office.state) && NoStale(s, s.nodes[s.lead].session)
    ensures a.to in s.nodes
    ensures var i, n, n' := s.nodes[s.lead], s.nodes[a.to], After(s, a);
            n'.office.state == Exit || Aligned(n'.office.state, i.session in i.metas)
            <==> !StaleMove(s, a, i.session)
  {
    hide Inv, EndInv, NoStale, Aligned, Next, Absorb, Process, FollowMove, After, Taking, Enabled, StaleMove,
      FollowState;
    ActingThere(s, a);
    OnlyActing(s, a);
    NextHolds(s, a);
    NextEnds(s, a);
    AlignedNow(s, a.to);
    FollowActs(s, a);
    TakingKeeps(s, a);
    EndedGrowth(Taking(s, a).0, a.input, Taking(s, a).1, Process(s.nodes[a.to].office, a.input));
    GuardStep(s, a);
    var s', u := Next(s, a), s.nodes[s.lead].session;
    StaleStep(s, a, u);
    StaleNow(s, s', a.to, u);
    if NoStale(s', u) {
      AlignedNow(s', a.to);
    } else {
      NotAligned(s'.nodes[a.to].office.state, u in s.nodes[s.lead].metas);
    }
  }

  /**
   * A step of a following node that is in line takes it out of line if and only if it is the
   * delivery of a 155 to a node that has all data, or of a 150 to a node that has all metadata,
   * of another session.
   */
  lemma FallsOutOfLine(ss: seq<Sys>, moves: seq<Move>, k: nat)
    requires IsRun(ss, moves) && k < |moves| < |ss| && Handles(moves[k])
    requires ss[k].lead in ss[k].nodes && moves[k].to != ss[k].lead
    requires Handing(ss[k].nodes[ss[k].lead].office.state)
    requires Unbroken(ss, moves, k, ss[k].nodes[ss[k].lead].session)
    ensures var s, a := ss[k], moves[k];
            var i, n' := s.nodes[s.lead], After(s, a);
            n'.office.state == Exit || Aligned(n'.office.state, i.session in i.metas)
            <==> !StaleMove(s, a, i.session)
  {
    RunStep(ss, moves, k);
    hide IsRun, Inv, EndInv, NoStale, Aligned, Next, After, Enabled, Handing, StaleMove, Unbroken;
    RunHolds(ss, moves, k);
    RunEnds(ss, moves, k);
    HandingSession(ss[k]);
    NoStaleExact(ss, moves, k, ss[k].nodes[ss[k].lead].session);
    LineStep(ss[k], moves[k]);
  }

  lemma RunStep(ss: seq<Sys>, moves: seq<Move>, k: nat)
    requires IsRun(ss, moves) && k < |moves|
    ensures |ss| == |moves| + 1 && Enabled(ss[k], moves[k]) && ss[k + 1] == Next(ss[k], moves[k])
  {
  }

  lemma OnlyActing(s: Sys, a: Move)
    requires Enabled(s, a)
    ensures Acting(a) in s.nodes && Next(s, a).lead == s.lead
    ensures Next(s, a).nodes == s.nodes[Acting(a) := After(s, a)]
  {
    hide After, NetAfter, Enabled;
    assert Acting(a) in s.nodes by { ActingThere(s, a); }
  }

  lemma ActingThere(s: Sys, a: Move)
    requires Enabled(s, a)
    ensures Acting(a) in s.nodes
  {
  }

  lemma StaleNow(s: Sys, s': Sys, b: NodeId, u: nat)
    requires NoStale(s, u) && b in s.nodes && b != s.lead && s'.lead == s.lead
    requires s'.nodes.Keys == s.nodes.Keys && forall n :: n in s.nodes && n != b ==> s'.nodes[n] == s.nodes[n]
    ensures NoStale(s', u) <==> u !in s'.nodes[b].ended
    ensures u !in s.nodes[b].ended
  {
  }

  lemma NotAligned(s: State, first: bool)
    requires Resting(s)
    ensures s != Exit && !Aligned(s, first)
  {
  }

  /** With a single following node no final heartbeat is ever stale. */
  lemma OneFollowerStep(s: Sys, a: Move, j: NodeId)
    requires Inv(s) && Enabled(s, a) && s.nodes.Keys == {s.lead, j} && j != s.lead
    requires s.nodes[j].ended == {0}
    ensures Next(s, a).lead == s.lead && Next(s, a).nodes.Keys == s.nodes.Keys && Next(s, a).nodes[j].ended == {0}
  {
    hide Inv, Next, Absorb, Process, FollowMove, After, Taking, Enabled;
    OnlyActing(s, a);
    if Acting(a) == j {
      if Handles(a) {
        FollowActs(s, a);
        TakingKeeps(s, a);
        EndedGrowth(Taking(s, a).0, a.input, Taking(s, a).1, Process(s.nodes[j].office, a.input));
        if Final(a.input.status) { OwnSession(s, a, j); }
      } else {
        InnerKeepsEnded(s, a);
      }
    }
  }

  lemma InnerKeepsEnded(s: Sys, a: Move)
    requires Enabled(s, a) && !Handles(a)
    ensures Acting(a) in s.nodes
    ensures var n, n' := s.nodes[Acting(a)], After(s, a);
            n'.ended == n.ended && n'.session == n.session && n'.office == n.office
  {
    hide Packed;
  }

  /** What the lead says at the end of a session, a following node hears within that session. */
  lemma OwnSession(s: Sys, a: Move, j: NodeId)
    requires Inv(s) && Enabled(s, a) && Handles(a) && a.to == j && s.nodes.Keys == {s.lead, j} && j != s.lead
    requires Final(a.input.status)
    ensures Taking(s, a).1 == s.nodes[j].session || Acknowledging(s.nodes[j].office.state)
            || s.nodes[j].office.state == Exit
  {
    hide Inv, PairInv, FollowInv, LeadInv, Carries;
    if a.Deliver? {
      InvFollows(s, j);
      InvWired(s);
      DeliveredFrom(s, a);
      HeardInSession(s.nodes[s.lead], s.nodes[j], s.net[(s.lead, j)], s.net[(j, s.lead)], j, s.lead, a.input);
    } else {
      NotFinal(s, a);
    }
  }

  lemma HeardInSession(i: Node, j: Node, down: seq<Packet>, up: seq<Packet>, id: NodeId, from: NodeId, m: Input)
    requires PairInv(i, j, down, up, id) && |down| > 0 && Carries(down[0], from, m) && Final(m.status)
    ensures down[0].Hb?
    ensures down[0].tag.session == j.session || Acknowledging(j.office.state) || j.office.state == Exit
  {
    assert down[0].Hb? ==> DownEntry(down[0].tag, i, j);
    hide UpInv, Agree, Joined, Finished, Ordered;
  }

  lemma DeliveredFrom(s: Sys, a: Move)
    requires Wired(s) && Enabled(s, a) && a.Deliver?
    ensures a.from in s.nodes && a.from != a.to && |s.net[(a.from, a.to)]| > 0
    ensures Carries(s.net[(a.from, a.to)][0], a.from, a.input)
    ensures Taking(s, a).1 == TagOf(s.net[(a.from, a.to)][0], s.nodes[a.to].session)
  {
    hide Carries;
  }

  // ---------- alignment holds exactly while no final heartbeat was stale ----------

  /** A node whose session ended by a stale heartbeat stays out of it until the next session. */
  ghost predicate StaysOut(n: Node) {
    && (forall u :: u in n.ended ==> u <= n.session)
    && (n.session in n.ended ==> Resting(n.office.state) || n.office.state == Exit)
  }

  lemma StaysOutMove(j: Node, m: Input, tag: nat, r: Result)
    requires FollowState(j.office.state) && FollowMove(j.office, m, r) && StaysOut(j)
    requires j.office.state == Ready && (m.status == S120 || m.status == S160 || m.status == S164) ==>
               tag > j.session
    ensures StaysOut(Absorb(j, m, tag, r))
  {
    hide Tickets, Stamp, Received, Kept, OnlyStop, FollowState;
  }

  /** An announcement that a ready node hears is of a later session than its own. */
  lemma FreshAnnouncement(i: Node, j: Node, down: seq<Packet>, up: seq<Packet>, id: NodeId, from: NodeId, m: Input)
    requires PairInv(i, j, down, up, id) && |down| > 0 && Carries(down[0], from, m)
    requires j.office.state == Ready && (m.status == S120 || m.status == S160 || m.status == S164)
    ensures down[0].Hb? && down[0].tag.session > j.session
  {
    assert down[0].Hb? ==> DownEntry(down[0].tag, i, j);
    hide UpInv, Agree, Joined, Finished, Ordered;
  }

  lemma PeersDoNotAnnounce(s: Sys, a: Move)
    requires Inv(s) && Enabled(s, a) && a.Deliver? && a.from != s.lead && a.to != s.lead
    ensures a.input.status != S120 && a.input.status != S160 && a.input.status != S164
  {
    InvWired(s);
    hide Inv, Carries, FollowStatus;
    DeliveredFrom(s, a);
    PeerHeard(s, a.from, a.to);
    NotFollowing(s.net[(a.from, a.to)][0], a.from, a.input);
  }

  lemma NotFollowing(p: Packet, from: NodeId, m: Input)
    requires !p.Data? && (p.Hb? ==> FollowStatus(p.tag.beat.status)) && Carries(p, from, m)
    ensures m.status != S120 && m.status != S160 && m.status != S164
  {
  }

  lemma PeerHeard(s: Sys, from: NodeId, to: NodeId)
    requires Inv(s) && from in s.nodes && to in s.nodes && from != to && from != s.lead && to != s.lead
    ensures PeerNet(s.net[(from, to)])
  {
    hide Pairs, FollowInv, LeadInv, PeerNet;
  }

  lemma LaterSession(s: Sys, a: Move)
    requires Inv(s) && Enabled(s, a) && Handles(a) && a.to != s.lead
    requires s.nodes[a.to].office.state == Ready
    requires a.input.status == S120 || a.input.status == S160 || a.input.status == S164
    ensures Taking(s, a).1 > s.nodes[a.to].session
  {
    hide Inv, PairInv, FollowInv, LeadInv, Carries;
    InvWired(s);
    if a.Deliver? {
      DeliveredFrom(s, a);
      InvFollows(s, a.to);
      if a.from != s.lead { PeersDoNotAnnounce(s, a); }
      var down, up := s.net[(s.lead, a.to)], s.net[(a.to, s.lead)];
      FreshAnnouncement(s.nodes[s.lead], s.nodes[a.to], down, up, a.to, s.lead, a.input);
    } else {
      NotAnnounced(s, a);
    }
  }

  lemma NotAnnounced(s: Sys, a: Move)
    requires Inv(s) && Enabled(s, a) && (a.Tick? || a.Local?) && a.to != s.lead
    ensures a.input.status != S120 && a.input.status != S160 && a.input.status != S164
  {
    hide Inv, Enabled, Next, FollowInv;
    InvWired(s);
    LocalShape(s, a);
    InvFollows(s, a.to);
    if a.Tick? { FollowTicksDown(s.nodes[a.to], s.nodes.Keys - {a.to}); }
  }

  lemma StaysOutStep(s: Sys, a: Move, j: NodeId)
    requires Inv(s) && Enabled(s, a) && j in s.nodes && j != s.lead && StaysOut(s.nodes[j])
    ensures Next(s, a).lead == s.lead && j in Next(s, a).nodes && StaysOut(Next(s, a).nodes[j])
  {
    hide Inv, Next, Absorb, Process, FollowMove, After, Taking, Enabled;
    OnlyActing(s, a);
    if Acting(a) == j {
      if Handles(a) {
        FollowActs(s, a);
        TakingKeeps(s, a);
        var m := a.input;
        if s.nodes[j].office.state == Ready && (m.status == S120 || m.status == S160 || m.status == S164) {
          LaterSession(s, a);
        }
        StaysOutMove(Taking(s, a).0, m, Taking(s, a).1, Process(s.nodes[j].office, m));
      } else {
        InnerKeepsEnded(s, a);
      }
    }
  }

  lemma StartsOut(s: Sys, j: NodeId)
    requires Init(s) && j in s.nodes
    ensures StaysOut(s.nodes[j])
  {
  }

  lemma {:induction false} RunStaysOut(ss: seq<Sys>, moves: seq<Move>, k: nat, j: NodeId)
    requires IsRun(ss, moves) && k < |ss| && j in ss[0].nodes && j != ss[0].lead
    ensures ss[k].lead == ss[0].lead && j in ss[k].nodes && StaysOut(ss[k].nodes[j])
  {
    hide Inv, Next, Enabled, Init, StaysOut;
    if k == 0 {
      StartsOut(ss[0], j);
    } else {
      RunStaysOut(ss, moves, k - 1, j);
      RunHolds(ss, moves, k - 1);
      RunStep(ss, moves, k - 1);
      StaysOutStep(ss[k - 1], moves[k - 1], j);
    }
  }

  /** All following nodes are in the lead's session, at a matching point of it. */
  ghost predicate AllAligned(s: Sys)
    requires s.lead in s.nodes
  {
    var i := s.nodes[s.lead];
    forall j :: j in s.nodes && j != s.lead ==>
      s.nodes[j].session == i.session && Aligned(s.nodes[j].office.state, i.session in i.metas)
  }

  lemma {:induction false} SameNodes(ss: seq<Sys>, moves: seq<Move>, k: nat)
    requires IsRun(ss, moves) && k < |ss|
    ensures ss[k].lead == ss[0].lead && ss[k].nodes.Keys == ss[0].nodes.Keys && ss[0].lead in ss[0].nodes
  {
    hide Next, Enabled, Init, After;
    if k == 0 {
      RunHolds(ss, moves, 0);
      InvWired(ss[0]);
      hide Inv;
    } else {
      SameNodes(ss, moves, k - 1);
      RunStep(ss, moves, k - 1);
      OnlyActing(ss[k - 1], moves[k - 1]);
    }
  }

  /**
   * While the lead hands out a file and no following node was interrupted, the flock is
   * aligned if and only if no earlier move of the run was stale in this session.
   */
  lemma AlignedExactly(ss: seq<Sys>, moves: seq<Move>, k: nat)
    requires IsRun(ss, moves) && k <= |moves| < |ss| && ss[k].lead in ss[k].nodes
    requires Handing(ss[k].nodes[ss[k].lead].office.state)
    requires forall j :: j in ss[k].nodes && j != ss[k].lead ==> ss[k].nodes[j].office.state != Exit
    ensures AllAligned(ss[k]) <==> Unbroken(ss, moves, k, ss[k].nodes[ss[k].lead].session)
  {
    hide IsRun, Inv, Aligned, Handing, StaysOut, Unbroken;
    SameNodes(ss, moves, k);
    RunHolds(ss, moves, k);
    HandingSession(ss[k]);
    var s, u := ss[k], ss[k].nodes[ss[k].lead].session;
    NoStaleExact(ss, moves, k, u);
    if Unbroken(ss, moves, k, u) {
      forall j | j in s.nodes && j != s.lead
        ensures s.nodes[j].session == u && Aligned(s.nodes[j].office.state, u in s.nodes[s.lead].metas)
      {
        PhaseAlignment(ss, moves, k, j);
      }
    } else {
      var j :| j in s.nodes && j != s.lead && u in s.nodes[j].ended;
      RunStaysOut(ss, moves, k, j);
      if s.nodes[j].session == u { OutNotAligned(s.nodes[j], u in s.nodes[s.lead].metas); }
    }
  }

  lemma OutNotAligned(n: Node, first: bool)
    requires StaysOut(n) && n.session in n.ended && n.office.state != Exit
    ensures !Aligned(n.office.state, first)
  {
  }

  lemma OneFollowerStart(s: Sys, j: NodeId)
    requires Init(s) && j in s.nodes
    ensures s.nodes[j].ended == {0}
  {
  }

  /** With two nodes no session is ever ended by a stale heartbeat, so alignment holds throughout. */
  lemma {:induction false} OneFollower(ss: seq<Sys>, moves: seq<Move>, k: nat, j: NodeId)
    requires IsRun(ss, moves) && k < |ss|
    requires ss[0].nodes.Keys == {ss[0].lead, j} && j != ss[0].lead
    ensures ss[k].lead == ss[0].lead && ss[k].nodes.Keys == ss[0].nodes.Keys && ss[k].nodes[j].ended == {0}
    ensures forall u :: u > 0 ==> NoStale(ss[k], u)
  {
    hide Inv, Next, Enabled, Init;
    if k == 0 {
      OneFollowerStart(ss[0], j);
    } else {
      OneFollower(ss, moves, k - 1, j);
      RunHolds(ss, moves, k - 1);
      RunStep(ss, moves, k - 1);
      OneFollowerStep(ss[k - 1], moves[k - 1], j);
    }
  }

  /** With two nodes no move is ever stale. */
  lemma NeverStale(ss: seq<Sys>, moves: seq<Move>, k: nat, j: NodeId, u: nat)
    requires IsRun(ss, moves) && k <= |moves| < |ss| && u > 0
    requires ss[0].nodes.Keys == {ss[0].lead, j} && j != ss[0].lead
    ensures Unbroken(ss, moves, k, u)
  {
    hide IsRun, Unbroken, NoStale;
    OneFollower(ss, moves, k, j);
    NoStaleExact(ss, moves, k, u);
  }

  lemma TwoNodesAligned(ss: seq<Sys>, moves: seq<Move>, k: nat, j: NodeId)
    requires IsRun(ss, moves) && k <= |moves| < |ss|
    requires ss[0].nodes.Keys == {ss[0].lead, j} && j != ss[0].lead
    requires ss[k].lead in ss[k].nodes && j in ss[k].nodes && ss[k].lead != j
    requires Handing(ss[k].nodes[ss[k].lead].office.state)
    ensures var i, n := ss[k].nodes[ss[k].lead], ss[k].nodes[j];
            n.session == i.session && (n.office.state == Exit || Aligned(n.office.state, i.session in i.metas))
  {
    hide IsRun, Inv, Unbroken, Aligned, Handing;
    RunHolds(ss, moves, k);
    HandingSession(ss[k]);
    NeverStale(ss, moves, k, j, ss[k].nodes[ss[k].lead].session);
    PhaseAlignment(ss, moves, k, j);
  }
}
