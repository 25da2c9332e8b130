/**
 * A run in which alignment is lost: three nodes, a metadata change, then a metadata change
 * with a new file.  A 150 of the first session that one following node sent to the other
 * arrives only in the second one, and is taken for its end.
 */
module Overtaking {
  import opened Fsm
  import opened Boxoffice
  import opened Stages
  import opened Roles
  import opened Flock
  import opened Alignment

  ghost predicate Reachable(s: Sys) {
    exists ss: seq<Sys>, moves: seq<Move> :: IsRun(ss, moves) && ss[|ss| - 1] == s
  }

  lemma Reaches(s: Sys, a: Move)
    requires Reachable(s) && Enabled(s, a)
    ensures Reachable(Next(s, a))
  {
    hide Enabled, Next;
    var ss, moves :| IsRun(ss, moves) && ss[|ss| - 1] == s;
    var ss', moves' := ss + [Next(s, a)], moves + [a];
    assert forall k :: 0 <= k < |moves'| ==> Enabled(ss'[k], moves'[k]) && ss'[k + 1] == Next(ss'[k], moves'[k]);
    assert IsRun(ss', moves');
  }

  // ---------- steps of the boxoffice that such runs use ----------

  /** Heartbeats that move a following node on. */
  predicate Hears(s: State, status: Status, t: State, h: Status) {
    || (s == Ready && status == S120 && t == AcknowledgingNewFile && h == S121)
    || (s == AcknowledgingNewFile && status == S130 && t == PromotingNewFileMetadata && h == S131)
    || (s == Ready && status == S160 && t == AcknowledgingFileMetadataChange && h == S161)
    || (s == Ready && status == S164 && t == AcknowledgingFileMetadataChangeWithMore && h == S165)
    || (s == AcknowledgingFileMetadataChange && status == S170 && t == ReceivingFileMetadataChange && h == S171)
    || (s == AcknowledgingFileMetadataChangeWithMore && status == S174
        && t == ReceivingFileMetadataChangeWithMore && h == S175)
    || (s == ReceivingFileMetadataChange && status == S170 && t == BroadcastingAllMetadataReceived && h == S141)
    || (s == ReceivingFileMetadataChangeWithMore && status == S174
        && t == BroadcastingAllMetadataReceived && h == S141)
    || (s == BroadcastingAllMetadataReceived && status == S150 && t == Ready && h == S150)
  }

  function Counted(s: State, status: Status): Status {
    if s == ReceivingFileMetadataChange || s == ReceivingFileMetadataChangeWithMore then S173 else status
  }

  lemma HearsRow(s: State, status: Status, t: State, h: Status)
    requires Hears(s, status, t, h)
    ensures CheckEvent(s, EventOf(status), status) && EventOf(status) == ReceivedHeartbeat
    ensures var c := Counted(s, status);
            && CheckEvent(s, EventOf(c), c) && NewState(s, EventOf(c), c) == t && s != t
            && ActionOf(s, EventOf(c), c) == SendHeartbeat && HeartbeatStatus(s, EventOf(c), c) == h
            && (c == S173 ==> EventOf(c) == AllMetadataReceived)
  {
  }

  lemma HeardAs(o: Office, m: Input, t: State, h: Status)
    requires Hears(o.state, m.status, t, h)
    ensures var a := OnHeartbeat(Timestamped(o, m), m);
            a == Plain(a.office, Counted(o.state, m.status)) && a.office.state == o.state
  {
    hide EventOf, Int16, OnReply, OnNewFileRecord, Opened, Sized;
  }

  lemma FollowerHears(o: Office, m: Input, t: State, h: Status)
    requires Hears(o.state, m.status, t, h)
    ensures var r := Process(o, m);
            r.outcome == Done && r.office.state == t && |r.beats| == 1 && r.beats[0].status == h
  {
    HearsRow(o.state, m.status, t, h);
    HeardAs(o, m, t, h);
    hide CheckEvent, NewState, ActionOf, HeartbeatStatus, EventOf, Process, OnHeartbeat, Timestamped, Continue;
    HeartbeatPath(o, m);
    var a := OnHeartbeat(Timestamped(o, m), m);
    Performed(a, m, t, h);
    PreparedPlain(a.office, m, h, t);
  }

  /** A local event that the lead announces. */
  predicate Announces(s: State, status: Status, t: State, h: Status) {
    || (s == Ready && status == S300 && t == AnnouncingNewFile && h == S120)
    || (s == Ready && status == S320 && t == AnnouncingFileMetadataChange && h == S160)
    || (s == AnnouncingFileMetadataChange && status == S300 && t == AnnouncingFileMetadataChangeWithMore && h == S164)
  }

  lemma AnnouncesRow(s: State, status: Status, t: State, h: Status)
    requires Announces(s, status, t, h)
    ensures var e := EventOf(status);
            && CheckEvent(s, e, status) && NewState(s, e, status) == t && s != t
            && ActionOf(s, e, status) == SendHeartbeat && HeartbeatStatus(s, e, status) == h
            && e == (if status == S300 then NewLocalFile else LocalFileMetadataChange)
  {
  }

  lemma Queueing(o: Office, m: Input)
    requires |m.file.path| <= MAXIMUM_PATH_LENGTH && o.state != AnnouncingNewFile
    requires EventOf(m.status) == (if m.status == S300 then NewLocalFile else LocalFileMetadataChange)
    ensures var a := OnLocalFile(Plain(o, m.status), m);
            && a == Plain(a.office, m.status) && a.office.state == o.state
            && a.office.replied == ResetReplied(o).replied
            && a.office.dataQueue == o.dataQueue + (if m.status == S300 then [m.file] else [])
            && a.office.metaQueue == o.metaQueue + (if m.status == S300 then [] else [m.file])
  {
    hide EventOf;
  }

  lemma LeadAnnounces(o: Office, m: Input, t: State, h: Status)
    requires Announces(o.state, m.status, t, h) && |m.file.path| <= MAXIMUM_PATH_LENGTH
    ensures var r := Process(o, m);
            && r.outcome == Done && r.office.state == t && |r.beats| == 1 && r.beats[0].status == h
            && r.office.replied == ResetReplied(o).replied
            && r.office.dataQueue == o.dataQueue + (if m.status == S300 then [m.file] else [])
            && r.office.metaQueue == o.metaQueue + (if m.status == S300 then [] else [m.file])
  {
    AnnouncesRow(o.state, m.status, t, h);
    hide CheckEvent, NewState, ActionOf, HeartbeatStatus, EventOf, Process, Continue, OnLocalFile, ResetReplied;
    LocalFilePath(o, m);
    Queueing(o, m);
    var a := OnLocalFile(Plain(o, m.status), m);
    Performed(a, m, t, h);
    PreparedPlain(a.office, m, h, t);
  }

  /** A full round of replies, with what has to be in the queues for it to lead on. */
  predicate Gathers(o: Office, status: Status, t: State, h: Status) {
    || (o.state == AnnouncingFileMetadataChange && status == S161 && o.metaQueue != []
        && t == SendingFileMetadataChange && h == S170)
    || (o.state == AnnouncingFileMetadataChangeWithMore && status == S165 && o.metaQueue != []
        && t == SendingFileMetadataChangeWithMore && h == S174)
    || (o.state == SendingFileMetadataChange && status == S141 && o.metaQueue == [] && o.dataQueue == []
        && t == Ready && h == S150)
    || (o.state == SendingFileMetadataChangeWithMore && status == S141 && o.metaQueue == [] && |o.dataQueue| == 1
        && t == SendingNewFileMetadata && h == S130)
    || (o.state == SendingNewFile && status == S140 && t == SyncingStop && h == S155)
  }

  lemma GathersRow(o: Office, status: Status, t: State, h: Status)
    requires Gathers(o, status, t, h)
    ensures CheckEvent(o.state, EventOf(status), status) && EventOf(status) == ReceivedHeartbeat && Reply(status)
    ensures var c := Concluded(o, status);
            && CheckEvent(o.state, EventOf(c), c) && NewState(o.state, EventOf(c), c) == t && o.state != t
            && ActionOf(o.state, EventOf(c), c) == SendHeartbeat && HeartbeatStatus(o.state, EventOf(c), c) == h
            && c != S122 && (c == S177 ==> t == SendingNewFileMetadata)
            && NewState(o.state, EventOf(status), status) == o.state
  {
  }

  lemma LeadGathers(o: Office, m: Input, t: State, h: Status)
    requires Gathers(o, m.status, t, h) && m.sender in o.replied && Full(o, m.sender)
    ensures t == SendingNewFileMetadata ==> o.dataQueue != []
    ensures h == S170 || h == S174 ==> o.metaQueue != []
    ensures var r := Process(o, m);
            && r.outcome == Done && r.office.state == t && |r.beats| == 1 && r.beats[0].status == h
            && AllFalse(o.replied, r.office.replied)
            && r.office.dataQueue == o.dataQueue[if t == SendingNewFileMetadata then 1 else 0..]
            && r.office.metaQueue == o.metaQueue[if h == S170 || h == S174 then 1 else 0..]
            && (t == SendingNewFileMetadata ==> r.beats[0].file == Some(o.dataQueue[0]))
            && (h == S170 || h == S174 ==> r.beats[0].file == Some(o.metaQueue[0]))
  {
    GathersRow(o, m.status, t, h);
    ReplyConcludes(o, m);
    NotedQueues(o, m);
    hide CheckEvent, NewState, ActionOf, HeartbeatStatus, EventOf, Process, OnHeartbeat, Timestamped, Continue,
      AllFalse, Full;
    HeartbeatPath(o, m);
    var a := OnHeartbeat(Timestamped(o, m), m);
    var b := OnQuorum(a, m);
    assert a == Rechecked(a, m.status);
    QuorumKeeps(a, m);
    Performed(b, m, t, h);
    PreparedQueues(b.office, m, h, t);
    ContinueKeys(b, m);
  }

  lemma QuorumKeeps(a: Mid, m: Input)
    requires a == Plain(a.office, a.status) && a.status != S122 && (a.status == S177 ==> a.office.dataQueue != [])
    ensures var q := OnQuorum(a, m);
            && q.outcome == Done && q.status == a.status && q.event == a.event && q.beats == []
            && q.office == a.office.(deadline := q.office.deadline)
  {
    hide StartTime;
  }

  lemma PreparedQueues(o: Office, m: Input, h: Status, t: State)
    requires t == SendingNewFileMetadata ==> o.dataQueue != []
    requires t == SendingFileMetadataChange || t == SendingFileMetadataChangeWithMore ==> o.metaQueue != []
    requires t != SendingNewFileMetadataWithMore
    ensures var r := Prepare(o, m, h, t);
            && r.outcome == Done && r.office.replied == o.replied && |r.beats| == 1 && r.beats[0].status == h
            && r.office.dataQueue == o.dataQueue[if t == SendingNewFileMetadata then 1 else 0..]
            && (t == SendingNewFileMetadata ==> r.beats[0].file == Some(o.dataQueue[0]))
            && (if t == SendingFileMetadataChange || t == SendingFileMetadataChangeWithMore
                then r.office.metaQueue == o.metaQueue[1..] && r.beats[0].file == Some(o.metaQueue[0])
                else r.office.metaQueue == o.metaQueue)
  {
  }

  // ---------- telling one node what another one advertises ----------

  const NoFile: Record := Record("", 0, false)

  /** The message that a heartbeat becomes. */
  function Message(from: NodeId, beat: Beat): Input {
    Input(beat.status, from, 0, 0, 0, if beat.file.Some? then beat.file.value else NoFile,
          if beat.deadline.Some? then beat.deadline.value else 0, 0, [], false)
  }

  function Last(n: Node): Tagged
    requires n.out != []
  {
    n.out[|n.out| - 1]
  }

  /** What is left of a node that was asked to repeat its latest heartbeat. */
  function Told(n: Node): Node
    requires n.out != []
  {
    n.(out := [Last(n)])
  }

  /** The flock after x's latest heartbeat has reached y. */
  function Relayed(s: Sys, x: NodeId, y: NodeId): Sys
    requires x in s.nodes && y in s.nodes && s.nodes[x].out != []
  {
    var t := Last(s.nodes[x]);
    s.(nodes := s.nodes[x := Told(s.nodes[x])][y := Handled(s.nodes[y], Message(x, t.beat), t.session)])
  }

  lemma PollMove(s: Sys, x: NodeId)
    requires x in s.nodes && |s.nodes[x].out| > 1
    ensures Enabled(s, Poll(x))
    ensures Next(s, Poll(x)) == s.(nodes := s.nodes[x := s.nodes[x].(out := s.nodes[x].out[1..])])
  {
  }

  lemma BroadcastMove(s: Sys, x: NodeId, y: NodeId)
    requires x in s.nodes && s.nodes[x].out != [] && (x, y) in s.net
    ensures Enabled(s, Broadcast(x, {y}))
    ensures Next(s, Broadcast(x, {y})) == s.(net := s.net[(x, y) := s.net[(x, y)] + [Hb(s.nodes[x].out[0])]])
  {
    var p := Hb(s.nodes[x].out[0]);
    assert Sent(s.net, x, {y}, p) == s.net[(x, y) := s.net[(x, y)] + [p]];
    assert s.nodes[x := s.nodes[x]] == s.nodes;
  }

  lemma DeliverMove(s: Sys, x: NodeId, y: NodeId, t: Tagged)
    requires x != y && y in s.nodes && !s.nodes[y].stopped
    requires (x, y) in s.net && s.net[(x, y)] != [] && s.net[(x, y)][0] == Hb(t)
    ensures Enabled(s, Deliver(x, y, Message(x, t.beat)))
    ensures Next(s, Deliver(x, y, Message(x, t.beat))) ==
            s.(nodes := s.nodes[y := Handled(s.nodes[y], Message(x, t.beat), t.session)],
               net := s.net[(x, y) := s.net[(x, y)][1..]])
  {
    hide Handled;
  }

  lemma {:induction false} Polled(s: Sys, x: NodeId)
    requires Reachable(s) && x in s.nodes && s.nodes[x].out != []
    ensures Reachable(s.(nodes := s.nodes[x := Told(s.nodes[x])]))
    decreases if x in s.nodes then |s.nodes[x].out| else 0
  {
    hide Reachable, Enabled, Next;
    var n := s.nodes[x];
    if |n.out| > 1 {
      PollMove(s, x);
      Reaches(s, Poll(x));
      var n' := n.(out := n.out[1..]);
      var s' := s.(nodes := s.nodes[x := n']);
      Polled(s', x);
      assert Told(n') == Told(n);
      assert s'.nodes[x := Told(n)] == s.nodes[x := Told(n)];
    } else {
      assert n.out == [Last(n)];
      assert s.nodes[x := Told(n)] == s.nodes;
    }
  }

  /** Poll until the latest update, broadcast it to y alone. */
  lemma Spoken(s: Sys, x: NodeId, y: NodeId)
    requires Reachable(s) && x in s.nodes && s.nodes[x].out != [] && (x, y) in s.net
    ensures Reachable(s.(nodes := s.nodes[x := Told(s.nodes[x])],
                         net := s.net[(x, y) := s.net[(x, y)] + [Hb(Last(s.nodes[x]))]]))
  {
    hide Reachable, Enabled, Next;
    Polled(s, x);
    var s' := s.(nodes := s.nodes[x := Told(s.nodes[x])]);
    BroadcastMove(s', x, y);
    Reaches(s', Broadcast(x, {y}));
  }

  lemma Relays(s: Sys, x: NodeId, y: NodeId)
    requires Reachable(s) && x in s.nodes && y in s.nodes && x != y && s.nodes[x].out != []
    requires (x, y) in s.net && s.net[(x, y)] == [] && !s.nodes[y].stopped
    ensures Reachable(Relayed(s, x, y))
  {
    hide Reachable, Enabled, Next, Handled, Message;
    Spoken(s, x, y);
    var t := Last(s.nodes[x]);
    var s' := s.(nodes := s.nodes[x := Told(s.nodes[x])], net := s.net[(x, y) := [] + [Hb(t)]]);
    DeliverMove(s', x, y, t);
    Reaches(s', Deliver(x, y, Message(x, t.beat)));
    assert s'.net[(x, y) := s'.net[(x, y)][1..]] == s.net;
  }

  // ---------- scenes: node 0 leads, nodes 1 and 2 follow ----------

  /** State, latest heartbeat and session of a node. */
  datatype Part = Part(state: State, beat: Status, session: nat)

  /** The three nodes, which of them has replied, and how much is queued; whether 2's 150 is on its way to 1. */
  datatype Scene = Scene(lead: Part, replied1: bool, replied2: bool, data: nat, meta: nat,
                         one: Part, two: Part, stale: bool)

  predicate Plays(n: Node, p: Part) {
    && n.office.state == p.state && n.session == p.session && !n.stopped
    && n.out != [] && Last(n).beat.status == p.beat && Last(n).session == p.session
  }

  predicate Leads(n: Node, c: Scene) {
    && Plays(n, c.lead)
    && n.office.replied == map[1 := c.replied1, 2 := c.replied2]
    && |n.office.dataQueue| == c.data && |n.office.metaQueue| == c.meta
  }

  /** The only thing in any channel is a final heartbeat of session 1 from node 2 to node 1, if there is one. */
  ghost predicate Lines(s: Sys, stale: bool, status: Status) {
    && (forall x, y :: (x, y) in s.net <==> x in {0, 1, 2} && y in {0, 1, 2} && x != y)
    && (forall k :: k in s.net ==> if stale && k == (2, 1) then OldEnd(s.net[k], status) else s.net[k] == [])
  }

  predicate OldEnd(net: seq<Packet>, status: Status) {
    |net| == 1 && net[0].Hb? && net[0].tag.session == 1 && net[0].tag.beat.status == status
  }

  ghost predicate Shows(s: Sys, c: Scene) {
    && Reachable(s) && s.lead == 0 && s.nodes.Keys == {0, 1, 2}
    && Leads(s.nodes[0], c) && Plays(s.nodes[1], c.one) && Plays(s.nodes[2], c.two)
    && Lines(s, c.stale, S150)
  }

  lemma FollowerAfter(n: Node, p: Part, m: Input, tag: nat, t: State, h: Status)
    requires Plays(n, p) && Hears(p.state, m.status, t, h)
    ensures Plays(Handled(n, m, tag), Part(t, h, if p.state == Ready then tag else p.session))
  {
    hide Process;
    FollowerHears(n.office, m, t, h);
  }

  lemma TellOne(s: Sys, c: Scene, t: State, h: Status) returns (s': Sys)
    requires Shows(s, c) && Hears(c.one.state, c.lead.beat, t, h)
    ensures Shows(s', c.(one := Part(t, h, if c.one.state == Ready then c.lead.session else c.one.session)))
  {
    hide Reachable, Handled, Hears;
    s' := Relayed(s, 0, 1);
    Relays(s, 0, 1);
    var l := Last(s.nodes[0]);
    FollowerAfter(s.nodes[1], c.one, Message(0, l.beat), l.session, t, h);
    assert s'.nodes.Keys == s.nodes.Keys;
  }

  lemma TellTwo(s: Sys, c: Scene, t: State, h: Status) returns (s': Sys)
    requires Shows(s, c) && Hears(c.two.state, c.lead.beat, t, h)
    ensures Shows(s', c.(two := Part(t, h, if c.two.state == Ready then c.lead.session else c.two.session)))
  {
    hide Reachable, Handled, Hears;
    s' := Relayed(s, 0, 2);
    Relays(s, 0, 2);
    var l := Last(s.nodes[0]);
    FollowerAfter(s.nodes[2], c.two, Message(0, l.beat), l.session, t, h);
    assert s'.nodes.Keys == s.nodes.Keys;
  }

  predicate Awaits(s: State, status: Status) {
    || (s == AnnouncingNewFile && status == S121)
    || (s == SendingNewFile && status == S140)
    || (s == AnnouncingFileMetadataChange && status == S161)
    || (s == AnnouncingFileMetadataChangeWithMore && status == S165)
    || ((s == SendingFileMetadataChange || s == SendingFileMetadataChangeWithMore) && status == S141)
  }

  lemma LeadNotes(o: Office, m: Input)
    requires Awaits(o.state, m.status) && m.sender in o.replied && !Full(o, m.sender)
    ensures var r := Process(o, m);
            && r.outcome == Done && r.beats == [] && r.office.state == o.state
            && r.office.replied == o.replied[m.sender := true]
            && r.office.dataQueue == o.dataQueue && r.office.metaQueue == o.metaQueue
  {
    assert CheckEvent(o.state, EventOf(m.status), m.status) && EventOf(m.status) == ReceivedHeartbeat
        && NewState(o.state, EventOf(m.status), m.status) == o.state;
    ReplyNoted(o, m);
    NotedQueues(o, m);
    hide CheckEvent, NewState, EventOf, Process, OnHeartbeat, Timestamped, Continue, Full;
    HeartbeatPath(o, m);
    var a := OnHeartbeat(Timestamped(o, m), m);
    Stayed(a, m);
  }

  lemma NotedQueues(o: Office, m: Input)
    requires Reply(m.status)
    ensures var p := OnHeartbeat(Timestamped(o, m), m).office; p.dataQueue == o.dataQueue && p.metaQueue == o.metaQueue
  {
    hide Int16, EventOf, Concluded;
  }

  lemma LeadNoted(n: Node, c: Scene, m: Input, tag: nat)
    requires Leads(n, c) && !c.replied2 && Awaits(c.lead.state, m.status) && m.sender == 1
    ensures Leads(Handled(n, m, tag), c.(replied1 := true))
  {
    hide Process;
    assert !Full(n.office, 1) by { assert 2 in n.office.replied && !n.office.replied[2]; }
    LeadNotes(n.office, m);
  }

  /** Node 1 replies first. */
  lemma OneReplies(s: Sys, c: Scene) returns (s': Sys)
    requires Shows(s, c) && !c.replied2 && Awaits(c.lead.state, c.one.beat)
    ensures Shows(s', c.(replied1 := true))
  {
    hide Reachable, Handled, Awaits;
    s' := Relayed(s, 1, 0);
    Relays(s, 1, 0);
    var l := Last(s.nodes[1]);
    LeadNoted(s.nodes[0], c, Message(1, l.beat), l.session);
    assert s'.nodes.Keys == s.nodes.Keys;
  }

  /** Where the lead goes once node 2 has replied as well, given what is queued. */
  predicate Completes(c: Scene, status: Status, t: State, h: Status) {
    || (c.lead.state == AnnouncingFileMetadataChange && status == S161 && c.meta > 0
        && t == SendingFileMetadataChange && h == S170)
    || (c.lead.state == AnnouncingFileMetadataChangeWithMore && status == S165 && c.meta > 0
        && t == SendingFileMetadataChangeWithMore && h == S174)
    || (c.lead.state == SendingFileMetadataChange && status == S141 && c.meta == 0 && c.data == 0
        && t == Ready && h == S150)
    || (c.lead.state == SendingFileMetadataChangeWithMore && status == S141 && c.meta == 0 && c.data == 1
        && t == SendingNewFileMetadata && h == S130)
  }

  function Completed(c: Scene, t: State, h: Status): Scene {
    c.(lead := Part(t, h, c.lead.session), replied1 := false, replied2 := false,
       data := if h == S130 && c.data > 0 then c.data - 1 else c.data,
       meta := if (h == S170 || h == S174) && c.meta > 0 then c.meta - 1 else c.meta)
  }

  lemma LeadCompleted(n: Node, c: Scene, m: Input, tag: nat, t: State, h: Status)
    requires Leads(n, c) && c.replied1 && Completes(c, m.status, t, h) && m.sender == 2
    ensures Leads(Handled(n, m, tag), Completed(c, t, h))
  {
    hide Process;
    LeadGathers(n.office, m, t, h);
    var r := Process(n.office, m).office.replied;
    assert AllFalse(n.office.replied, r);
    assert r == map[1 := false, 2 := false];
  }

  lemma TwoReplies(s: Sys, c: Scene, t: State, h: Status) returns (s': Sys)
    requires Shows(s, c) && c.replied1 && Completes(c, c.two.beat, t, h)
    ensures Shows(s', Completed(c, t, h))
  {
    hide Reachable, Handled, Completes;
    s' := Relayed(s, 2, 0);
    Relays(s, 2, 0);
    var l := Last(s.nodes[2]);
    LeadCompleted(s.nodes[0], c, Message(2, l.beat), l.session, t, h);
    assert s'.nodes.Keys == s.nodes.Keys;
  }

  function Announced(c: Scene, status: Status, t: State, h: Status): Scene {
    c.(lead := Part(t, h, if c.lead.state == Ready then c.lead.session + 1 else c.lead.session),
       replied1 := false, replied2 := false,
       data := if status == S300 then c.data + 1 else c.data,
       meta := if status == S300 then c.meta else c.meta + 1)
  }

  lemma ResetTwo(o: Office, a: bool, b: bool)
    requires o.replied == map[1 := a, 2 := b]
    ensures ResetReplied(o).replied == map[1 := false, 2 := false]
  {
  }

  lemma AnnouncesPhase(s: State, status: Status, t: State, h: Status)
    requires Announces(s, status, t, h)
    ensures Announcing(t)
    ensures t != BroadcastingAllMetadataReceived && t != SyncingStop && t != Ready && t != BroadcastingAllReceived
  {
  }

  lemma LeadAnnounced(n: Node, c: Scene, m: Input, t: State, h: Status)
    requires Leads(n, c) && Announces(c.lead.state, m.status, t, h) && m.file == NoFile
    ensures Leads(Handled(n, m, n.session), Announced(c, m.status, t, h))
  {
    hide Process, Announces;
    ResetTwo(n.office, c.replied1, c.replied2);
    LeadAnnounces(n.office, m, t, h);
    AnnouncesPhase(n.office.state, m.status, t, h);
    hide ResetReplied;
  }

  lemma LocalMove(s: Sys, m: Input)
    requires s.lead in s.nodes && !s.nodes[s.lead].stopped && (m.status == S300 || m.status == S320)
    ensures Enabled(s, Local(s.lead, m))
    ensures Next(s, Local(s.lead, m)) ==
            s.(nodes := s.nodes[s.lead := Handled(s.nodes[s.lead], m, s.nodes[s.lead].session)])
  {
    hide Handled;
  }

  lemma Report(s: Sys, c: Scene, status: Status, t: State, h: Status) returns (s': Sys)
    requires Shows(s, c) && Announces(c.lead.state, status, t, h)
    ensures Shows(s', Announced(c, status, t, h))
  {
    hide Reachable, Handled, Enabled, Next;
    var m := Message(0, Beat(status, None, None));
    LocalMove(s, m);
    s' := Next(s, Local(0, m));
    Reaches(s, Local(0, m));
    LeadAnnounced(s.nodes[0], c, m, t, h);
    assert s'.nodes.Keys == s.nodes.Keys;
  }

  /** Node 2 sends its 150 of session 1 to node 1, which does not get to it yet. */
  lemma Straggles(s: Sys, c: Scene) returns (s': Sys)
    requires Shows(s, c) && !c.stale && c.two.beat == S150 && c.two.session == 1
    ensures Shows(s', c.(stale := true))
  {
    hide Reachable;
    Spoken(s, 2, 1);
    var l := Last(s.nodes[2]);
    s' := s.(nodes := s.nodes[2 := Told(s.nodes[2])], net := s.net[(2, 1) := s.net[(2, 1)] + [Hb(l)]]);
    assert s'.nodes.Keys == s.nodes.Keys;
  }

  // ---------- the run ----------

  const Opening: Scene :=
    Scene(Part(Ready, S100, 0), false, false, 0, 0, Part(Ready, S100, 0), Part(Ready, S100, 0), false)

  function Fresh(others: set<NodeId>): Node { Start(others, map[]) }

  function Nodes(): map<NodeId, Node> {
    map[0 := Fresh({1, 2}), 1 := Fresh({0, 2}), 2 := Fresh({0, 1})]
  }

  function Silence(): map<(NodeId, NodeId), seq<Packet>> {
    map[(0, 1) := [], (0, 2) := [], (1, 0) := [], (1, 2) := [], (2, 0) := [], (2, 1) := []]
  }

  lemma FreshPlays(others: set<NodeId>, a: NodeId, b: NodeId)
    requires others == {a, b}
    ensures var n := Fresh(others);
            && Plays(n, Part(Ready, S100, 0)) && n.office.disk == map[] && n == Start(others, n.office.disk)
            && n.office.replied == map[a := false, b := false] && n.office.dataQueue == [] && n.office.metaQueue == []
  {
  }

  lemma SilentLines(status: Status)
    ensures Lines(Sys(0, Nodes(), Silence()), false, status)
  {
    hide Fresh;
  }

  lemma ReachInit(s: Sys)
    requires Init(s)
    ensures Reachable(s)
  {
    hide Init, Next, Enabled;
    assert IsRun([s], []);
    assert [s][|[s]| - 1] == s;
  }

  lemma ThreeNodes(nodes: map<NodeId, Node>)
    requires nodes == Nodes()
    ensures nodes.Keys == {0, 1, 2}
    ensures forall n :: n in nodes ==> nodes[n] == Fresh(nodes.Keys - {n})
  {
    hide Fresh;
    var keys := nodes.Keys;
    assert keys == {0, 1, 2};
    assert keys - {0} == {1, 2} && keys - {1} == {0, 2} && keys - {2} == {0, 1};
  }

  lemma FreshStart(others: set<NodeId>)
    ensures Fresh(others) == Start(others, Fresh(others).office.disk)
  {
  }

  lemma QuietNet(s: Sys)
    requires Lines(s, false, S150) && s.nodes.Keys == {0, 1, 2}
    ensures forall k :: k in s.net <==> k.0 in s.nodes && k.1 in s.nodes && k.0 != k.1
    ensures forall k :: k in s.net ==> s.net[k] == []
  {
    forall k: (NodeId, NodeId)
      ensures k in s.net <==> k.0 in s.nodes && k.1 in s.nodes && k.0 != k.1
    {
      assert (k.0, k.1) == k;
    }
  }

  lemma StartNodes(nodes: map<NodeId, Node>)
    requires forall n :: n in nodes ==> nodes[n] == Fresh(nodes.Keys - {n})
    ensures forall n :: n in nodes ==> nodes[n] == Start(nodes.Keys - {n}, nodes[n].office.disk)
  {
    hide Fresh, Start;
    forall n | n in nodes
      ensures nodes[n] == Start(nodes.Keys - {n}, nodes[n].office.disk)
    {
      FreshStart(nodes.Keys - {n});
    }
  }

  lemma BeginInit(s: Sys)
    requires s == Sys(0, Nodes(), Silence())
    ensures Init(s)
  {
    hide Nodes, Silence, Fresh, Start, Lines;
    ThreeNodes(s.nodes);
    SilentLines(S150);
    QuietNet(s);
    StartNodes(s.nodes);
  }

  lemma Begin() returns (s: Sys)
    ensures Shows(s, Opening)
  {
    hide Fresh, Silence, Plays, Reachable, Lines, Init;
    s := Sys(0, Nodes(), Silence());
    FreshPlays({1, 2}, 1, 2);
    FreshPlays({0, 2}, 0, 2);
    FreshPlays({0, 1}, 0, 1);
    ThreeNodes(s.nodes);
    SilentLines(S150);
    BeginInit(s);
    ReachInit(s);
  }

  /** A metadata change from start to end; node 2 is done with it, and so is node 1. */
  lemma FirstSession() returns (s: Sys)
    ensures Shows(s, Scene(Part(Ready, S150, 1), false, false, 0, 0, Part(Ready, S150, 1), Part(Ready, S150, 1), true))
  {
    hide Shows;
    s := Begin();
    var c := Opening;
    s := Report(s, c, S320, AnnouncingFileMetadataChange, S160);
    c := c.(lead := Part(AnnouncingFileMetadataChange, S160, 1), meta := 1);
    s := TellOne(s, c, AcknowledgingFileMetadataChange, S161);
    c := c.(one := Part(AcknowledgingFileMetadataChange, S161, 1));
    s := TellTwo(s, c, AcknowledgingFileMetadataChange, S161);
    c := c.(two := Part(AcknowledgingFileMetadataChange, S161, 1));
    s := OneReplies(s, c);
    c := c.(replied1 := true);
    s := TwoReplies(s, c, SendingFileMetadataChange, S170);
    c := c.(lead := Part(SendingFileMetadataChange, S170, 1), replied1 := false, meta := 0);
    s := TellOne(s, c, ReceivingFileMetadataChange, S171);
    c := c.(one := Part(ReceivingFileMetadataChange, S171, 1));
    s := TellOne(s, c, BroadcastingAllMetadataReceived, S141);
    c := c.(one := Part(BroadcastingAllMetadataReceived, S141, 1));
    s := TellTwo(s, c, ReceivingFileMetadataChange, S171);
    c := c.(two := Part(ReceivingFileMetadataChange, S171, 1));
    s := TellTwo(s, c, BroadcastingAllMetadataReceived, S141);
    c := c.(two := Part(BroadcastingAllMetadataReceived, S141, 1));
    s := OneReplies(s, c);
    c := c.(replied1 := true);
    s := TwoReplies(s, c, Ready, S150);
    c := c.(lead := Part(Ready, S150, 1), replied1 := false);
    s := TellOne(s, c, Ready, S150);
    c := c.(one := Part(Ready, S150, 1));
    s := TellTwo(s, c, Ready, S150);
    c := c.(two := Part(Ready, S150, 1));
    s := Straggles(s, c);
  }

  /** A metadata change together with a new file, up to the announcement of the file. */
  lemma SecondSession() returns (s: Sys)
    ensures Shows(s, Scene(Part(SendingNewFileMetadata, S130, 2), false, false, 0, 0,
                           Part(BroadcastingAllMetadataReceived, S141, 2),
                           Part(BroadcastingAllMetadataReceived, S141, 2), true))
  {
    hide Shows;
    s := FirstSession();
    var c := Scene(Part(Ready, S150, 1), false, false, 0, 0, Part(Ready, S150, 1), Part(Ready, S150, 1), true);
    s := Report(s, c, S320, AnnouncingFileMetadataChange, S160);
    c := c.(lead := Part(AnnouncingFileMetadataChange, S160, 2), meta := 1);
    s := Report(s, c, S300, AnnouncingFileMetadataChangeWithMore, S164);
    c := c.(lead := Part(AnnouncingFileMetadataChangeWithMore, S164, 2), data := 1);
    s := TellOne(s, c, AcknowledgingFileMetadataChangeWithMore, S165);
    c := c.(one := Part(AcknowledgingFileMetadataChangeWithMore, S165, 2));
    s := TellTwo(s, c, AcknowledgingFileMetadataChangeWithMore, S165);
    c := c.(two := Part(AcknowledgingFileMetadataChangeWithMore, S165, 2));
    s := OneReplies(s, c);
    c := c.(replied1 := true);
    s := TwoReplies(s, c, SendingFileMetadataChangeWithMore, S174);
    c := c.(lead := Part(SendingFileMetadataChangeWithMore, S174, 2), replied1 := false, meta := 0);
    s := TellOne(s, c, ReceivingFileMetadataChangeWithMore, S175);
    c := c.(one := Part(ReceivingFileMetadataChangeWithMore, S175, 2));
    s := TellOne(s, c, BroadcastingAllMetadataReceived, S141);
    c := c.(one := Part(BroadcastingAllMetadataReceived, S141, 2));
    s := TellTwo(s, c, ReceivingFileMetadataChangeWithMore, S175);
    c := c.(two := Part(ReceivingFileMetadataChangeWithMore, S175, 2));
    s := TellTwo(s, c, BroadcastingAllMetadataReceived, S141);
    c := c.(two := Part(BroadcastingAllMetadataReceived, S141, 2));
    s := OneReplies(s, c);
    c := c.(replied1 := true);
    s := TwoReplies(s, c, SendingNewFileMetadata, S130);
  }

  lemma NotInLine(s: Sys)
    requires s.lead == 0 && s.nodes.Keys == {0, 1, 2} && s.nodes[1].office.state == Ready
    ensures !AllAligned(s)
  {
    assert 1 in s.nodes;
  }

  /** Now the 150 of the first session arrives: node 1 drops out while the lead hands out the file. */
  lemma OutOfLine() returns (s: Sys)
    ensures Reachable(s) && s.lead == 0 && s.nodes.Keys == {0, 1, 2}
    ensures Handing(s.nodes[0].office.state) && s.nodes[0].session == s.nodes[1].session == 2
    ensures s.nodes[1].office.state == Ready
  {
    hide Reachable, Handled, Enabled, Next, AllAligned;
    var before := SecondSession();
    var p := Part(BroadcastingAllMetadataReceived, S141, 2);
    var t := before.net[(2, 1)][0].tag;
    DeliverMove(before, 2, 1, t);
    var a := Deliver(2, 1, Message(2, t.beat));
    Reaches(before, a);
    FollowerAfter(before.nodes[1], p, Message(2, t.beat), t.session, Ready, S150);
    s := Next(before, a);
    assert s.nodes.Keys == before.nodes.Keys;
  }

  /** Alignment is not a property of every run: some run ends out of line while the lead hands out a file. */
  lemma AlignmentCanFail()
    ensures exists ss: seq<Sys>, moves: seq<Move> ::
              && IsRun(ss, moves)
              && var s := ss[|ss| - 1];
                 s.lead in s.nodes && Handing(s.nodes[s.lead].office.state) && !AllAligned(s)
  {
    hide AllAligned, Handing, Init, Enabled, Next;
    var s := OutOfLine();
    NotInLine(s);
    var ss: seq<Sys>, moves: seq<Move> :| IsRun(ss, moves) && ss[|ss| - 1] == s;
    hide IsRun;
  }
}
