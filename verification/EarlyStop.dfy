/**
 * When a 155 of a session is advertised before the lead has ended that session: only after
 * a node that has all data took a 155 of another session, and always then.
 */
module EarlyStop {
  import opened Fsm
  import opened Boxoffice
  import opened Roles
  import opened Flock
  import opened Safety
  import opened Commit
  import opened Alignment

  /** The move hands a 155 of another session to a node that has all data of session u. */
  predicate StaleStop(s: Sys, a: Move, u: nat) { StaleMove(s, a, u) && a.input.status == S155 }

  /** A heartbeater repeats, or is about to repeat, a 155 of session u. */
  ghost predicate SaysStop(out: seq<Tagged>, u: nat) {
    exists p :: 0 <= p < |out| && out[p].beat.status == S155 && out[p].session == u
  }

  ghost predicate HoldsStop(net: seq<Packet>, u: nat) {
    exists p :: 0 <= p < |net| && net[p].Hb? && net[p].tag.beat.status == S155 && net[p].tag.session == u
  }

  /** Neither a heartbeater nor a channel has a 155 of session u. */
  ghost predicate Silent(s: Sys, u: nat) {
    && (forall n :: n in s.nodes ==> !SaysStop(s.nodes[n].out, u))
    && (forall k :: k in s.net ==> !HoldsStop(s.net[k], u))
  }

  // ---------- one node ----------

  lemma FollowSays(j: Node, m: Input, tag: nat, r: Result, u: nat)
    requires FollowState(j.office.state) && FollowMove(j.office, m, r)
    requires !SaysStop(j.out, u) && SaysStop(Absorb(j, m, tag, r).out, u)
    ensures m.status == S155 && j.office.state == BroadcastingAllReceived && j.session == u
  {
    hide Tickets, Received, Kept, OnlyStop, FollowState;
  }

  lemma LeadSays(i: Node, m: Input, tag: nat, r: Result, u: nat)
    requires LeadState(i.office.state) && LeadMove(i.office, m, r)
    requires !SaysStop(i.out, u) && SaysStop(Absorb(i, m, tag, r).out, u)
    ensures u in Absorb(i, m, tag, r).ended
  {
    hide Tickets, OnlyStop, Full, AllFalse, Awaited, LeadState;
  }

  // ---------- the flock ----------

  lemma NetStaysSilent(net: seq<Packet>, net': seq<Packet>, b: Node, u: nat)
    requires NetMoved(net, net', b) && !HoldsStop(net, u) && !SaysStop(b.out, u)
    ensures !HoldsStop(net', u)
  {
  }

  lemma InnerSilent(s: Sys, a: Move, u: nat)
    requires Enabled(s, a) && !Handles(a) && Acting(a) in s.nodes && !SaysStop(s.nodes[Acting(a)].out, u)
    ensures !SaysStop(After(s, a).out, u)
  {
    var n, n' := s.nodes[Acting(a)], After(s, a);
    assert n'.out == n.out || (|n.out| > 1 && n'.out == n.out[1..]) by { hide Packed; }
    hide After, Enabled;
  }

  /** What a 155 in no channel means for the message of a move. */
  lemma NotHeard(s: Sys, a: Move, u: nat)
    requires Inv(s) && Enabled(s, a) && Handles(a) && a.to != s.lead && Silent(s, u)
    requires a.input.status == S155 && a.to in s.nodes && s.nodes[a.to].session == u
    requires s.nodes[a.to].office.state == BroadcastingAllReceived
    ensures StaleStop(s, a, u)
  {
    hide Inv, Carries, HoldsStop;
    InvWired(s);
    if a.Deliver? {
      DeliveredFrom(s, a);
      HeardHeld(s.net[(a.from, a.to)], a.from, a.input, s.nodes[a.to].session);
    } else {
      NotFinal(s, a);
    }
  }

  lemma HeardHeld(net: seq<Packet>, from: NodeId, m: Input, otherwise: nat)
    requires |net| > 0 && Carries(net[0], from, m) && m.status == S155
    ensures HoldsStop(net, TagOf(net[0], otherwise))
  {
  }

  /** One move keeps the flock silent about session u, unless it is stale or the lead ends the session. */
  lemma SilentStep(s: Sys, a: Move, u: nat)
    requires Inv(s) && Enabled(s, a) && Silent(s, u) && !StaleStop(s, a, u)
    requires Next(s, a).lead in Next(s, a).nodes && u !in Next(s, a).nodes[Next(s, a).lead].ended
    ensures Silent(Next(s, a), u)
  {
    hide Inv, After, Enabled, NetAfter, NetMoved, SaysStop, HoldsStop, StaleStop, Absorb, Process, FollowMove, LeadMove,
      Taking, LeadState, FollowState;
    InvWired(s);
    OnlyActing(s, a);
    NetsMoved(s, a);
    StillWired(s, a);
    var s', b := Next(s, a), Acting(a);
    assert !SaysStop(After(s, a).out, u) by {
      if !Handles(a) {
        InnerSilent(s, a, u);
      } else if SaysStop(After(s, a).out, u) {
        TakingKeeps(s, a);
        var r := Process(s.nodes[b].office, a.input);
        if b == s.lead {
          LeadActs(s, a);
          LeadSays(Taking(s, a).0, a.input, Taking(s, a).1, r, u);
        } else {
          FollowActs(s, a);
          FollowSays(Taking(s, a).0, a.input, Taking(s, a).1, r, u);
          NotHeard(s, a, u);
        }
      }
    }
    forall k | k in s'.net
      ensures !HoldsStop(s'.net[k], u)
    {
      assert k in s.net;
      NetStaysSilent(s.net[k], s'.net[k], s.nodes[b], u);
    }
  }

  lemma SilentAtFirst(s: Sys, u: nat)
    requires Init(s)
    ensures Silent(s, u)
  {
    assert forall n :: n in s.nodes ==> s.nodes[n] == Start(s.nodes.Keys - {n}, s.nodes[n].office.disk);
  }

  lemma EndedStays(s: Sys, a: Move, u: nat)
    requires Inv(s) && Enabled(s, a) && s.lead in s.nodes && u in s.nodes[s.lead].ended
    ensures s.lead in Next(s, a).nodes && u in Next(s, a).nodes[s.lead].ended
  {
    hide Inv, After, Enabled, Next, Absorb, Process, LeadMove, Taking, LeadState;
    OnlyActing(s, a);
    if Acting(a) == s.lead {
      if Handles(a) {
        LeadActs(s, a);
        TakingKeeps(s, a);
        LeadEnds(Taking(s, a).0, a.input, Taking(s, a).1, Process(s.nodes[s.lead].office, a.input));
      } else {
        InnerKeepsEnded(s, a);
      }
    }
  }

  ghost predicate NoStaleStop(ss: seq<Sys>, moves: seq<Move>, k: nat, u: nat)
    requires k <= |moves| <= |ss|
  {
    forall q :: 0 <= q < k ==> !StaleStop(ss[q], moves[q], u)
  }

  /**
   * Before the lead ends session u, no node advertises, and no channel holds, a 155 of session u,
   * unless a node that had all data of session u took a 155 of another session.
   */
  lemma {:induction false} NoEarlyStop(ss: seq<Sys>, moves: seq<Move>, k: nat, u: nat)
    requires IsRun(ss, moves) && k <= |moves| < |ss| && ss[k].lead in ss[k].nodes
    requires u !in ss[k].nodes[ss[k].lead].ended && NoStaleStop(ss, moves, k, u)
    ensures Silent(ss[k], u)
  {
    hide Inv, Next, Enabled, Init, Silent, StaleStop;
    if k == 0 {
      SilentAtFirst(ss[0], u);
    } else {
      RunStep(ss, moves, k - 1);
      RunHolds(ss, moves, k - 1);
      SameNodes(ss, moves, k);
      SameNodes(ss, moves, k - 1);
      if u in ss[k - 1].nodes[ss[k - 1].lead].ended { EndedStays(ss[k - 1], moves[k - 1], u); }
      NoEarlyStop(ss, moves, k - 1, u);
      SilentStep(ss[k - 1], moves[k - 1], u);
    }
  }

  /** Such a node does advertise the 155 of its own session. */
  lemma StaleStopSays(s: Sys, a: Move, u: nat)
    requires Inv(s) && StaleStop(s, a, u)
    ensures a.Deliver? && a.to in Next(s, a).nodes && SaysStop(Next(s, a).nodes[a.to].out, u)
  {
    hide Inv, Absorb, Process, FollowMove, After, Enabled, Next, FollowState;
    OnlyActing(s, a);
    FollowActs(s, a);
    TakingKeeps(s, a);
    var n, m := Taking(s, a).0, a.input;
    FinalTaken(n.office, m);
    PassesOn(n, m, Taking(s, a).1, Process(n.office, m));
  }

  lemma PassesOn(n: Node, m: Input, tag: nat, r: Result)
    requires n.office.state == BroadcastingAllReceived && |r.beats| == 1 && r.beats[0].status == S155
    ensures SaysStop(Absorb(n, m, tag, r).out, n.session)
  {
    var n' := Absorb(n, m, tag, r);
    assert n'.out[|n.out|] == Tagged(n.session, r.beats[0]);
    hide Tickets;
  }

  /**
   * As long as the lead has not ended session u: some node has advertised a 155 of session u by
   * now if and only if some node that had all data of session u has taken a 155 of another session.
   */
  lemma EarlyStopExact(ss: seq<Sys>, moves: seq<Move>, k: nat, u: nat)
    requires IsRun(ss, moves) && k <= |moves| < |ss| && ss[k].lead in ss[k].nodes
    requires u !in ss[k].nodes[ss[k].lead].ended
    ensures (exists q, n :: 0 <= q <= k && n in ss[q].nodes && SaysStop(ss[q].nodes[n].out, u))
            <==> !NoStaleStop(ss, moves, k, u)
  {
    hide Inv, Next, Enabled, Init, SaysStop, HoldsStop, StaleStop;
    if NoStaleStop(ss, moves, k, u) {
      forall q, n | 0 <= q <= k && n in ss[q].nodes
        ensures !SaysStop(ss[q].nodes[n].out, u)
      {
        NotEndedBefore(ss, moves, q, k, u);
        NoEarlyStop(ss, moves, q, u);
      }
    } else {
      var q :| 0 <= q < k && StaleStop(ss[q], moves[q], u);
      RunStep(ss, moves, q);
      RunHolds(ss, moves, q);
      StaleStopSays(ss[q], moves[q], u);
      var q', n := q + 1, moves[q].to;
      assert 0 <= q' <= k && n in ss[q'].nodes && SaysStop(ss[q'].nodes[n].out, u);
    }
  }

  lemma {:induction false} NotEndedBefore(ss: seq<Sys>, moves: seq<Move>, q: nat, k: nat, u: nat)
    requires IsRun(ss, moves) && q <= k <= |moves| < |ss| && ss[k].lead in ss[k].nodes
    requires u !in ss[k].nodes[ss[k].lead].ended
    ensures ss[q].lead in ss[q].nodes && u !in ss[q].nodes[ss[q].lead].ended
    decreases k
  {
    hide Inv, Next, Enabled, Init;
    if q < k {
      RunStep(ss, moves, k - 1);
      RunHolds(ss, moves, k - 1);
      SameNodes(ss, moves, k);
      SameNodes(ss, moves, k - 1);
      if u in ss[k - 1].nodes[ss[k - 1].lead].ended { EndedStays(ss[k - 1], moves[k - 1], u); }
      NotEndedBefore(ss, moves, q, k - 1, u);
    }
  }

  lemma FirstEnded(ss: seq<Sys>, moves: seq<Move>, k: nat)
    requires IsRun(ss, moves) && k <= |moves| < |ss|
    ensures ss[k].lead in ss[k].nodes && 0 in ss[k].nodes[ss[k].lead].ended
  {
    SameNodes(ss, moves, k);
    if 0 !in ss[k].nodes[ss[k].lead].ended {
      NotEndedBefore(ss, moves, 0, k, 0);
    }
    assert ss[0].nodes[ss[0].lead] == Start(ss[0].nodes.Keys - {ss[0].lead}, ss[0].nodes[ss[0].lead].office.disk);
  }

  /** With two nodes there is no early 155 at all. */
  lemma TwoNodesSilent(ss: seq<Sys>, moves: seq<Move>, k: nat, j: NodeId, u: nat)
    requires IsRun(ss, moves) && k <= |moves| < |ss| && ss[k].lead in ss[k].nodes
    requires ss[0].nodes.Keys == {ss[0].lead, j} && j != ss[0].lead
    requires u !in ss[k].nodes[ss[k].lead].ended
    ensures Silent(ss[k], u)
  {
    hide IsRun, Silent, StaleMove;
    FirstEnded(ss, moves, k);
    NeverStale(ss, moves, k, j, u);
    NoEarlyStop(ss, moves, k, u);
  }
}
