/**
 * A run in which a metadata change has no effect: after a new file the nodes hear a metadata
 * change and another new file at once, announced with 164, and the note that a record was
 * written is still there when the record of the change is read.
 */
module OldNote {
  import opened Fsm
  import opened FileStore
  import opened Boxoffice
  import opened Roles
  import opened Flock
  import opened Alignment
  import opened Overtaking
  import opened Content
  import opened Counting
  import opened TwoFiles
  import LeadProof
  import Safety

  // ---------- the lead ----------

  lemma LeadReportsChange(n: Node, l: LeadView, m: Input)
    requires Directs(n, l) && l.timer.Off? && l.part.state == Ready && l.queue == [] && l.meta == []
    requires m.status == S320 && m.file == Short
    ensures Directs(Handled(n, m, n.session),
                    LeadView(Part(AnnouncingFileMetadataChange, S160, l.part.session + 1), Off, false, false, [],
                             None, None, [Short], None))
  {
    hide Process;
    LeadAnnounces(n.office, m, AnnouncingFileMetadataChange, S160);
    ResetTwo(n.office, l.replied1, l.replied2);
    LeadSteps(n.office, m);
    assert Process(n.office, m).orders == [];
    NoOrders(n.session + 1);
    hide Tickets, ResetReplied, LeadMove;
  }

  lemma LeadReportsMore(n: Node, l: LeadView, m: Input)
    requires Directs(n, l) && l.timer.Off? && l.part.state == AnnouncingFileMetadataChange && l.queue == []
    requires m.status == S300 && m.file == Long && l.file.None? && l.sent.None? && l.change.None?
    ensures Directs(Handled(n, m, n.session),
                    l.(part := Part(AnnouncingFileMetadataChangeWithMore, S164, l.part.session), replied1 := false,
                       replied2 := false, queue := [Long]))
  {
    hide Process;
    LeadAnnounces(n.office, m, AnnouncingFileMetadataChangeWithMore, S164);
    ResetTwo(n.office, l.replied1, l.replied2);
    LeadSteps(n.office, m);
    assert Process(n.office, m).orders == [];
    NoOrders(n.session);
    hide Tickets, ResetReplied, LeadMove;
  }

  function Handing(l: LeadView): LeadView {
    l.(part := Part(SendingFileMetadataChangeWithMore, S174, l.part.session), replied1 := false, replied2 := false,
       meta := [], change := Some(Short))
  }

  lemma LeadSendsChange(n: Node, l: LeadView, m: Input, tag: nat)
    requires Directs(n, l) && l.replied1 && l.timer.Off? && l.meta == [Short] && m.sender == 2
    requires l.part.state == AnnouncingFileMetadataChangeWithMore && m.status == S165 && l.change.None?
    requires l.file.None? && l.sent.None?
    ensures Directs(Handled(n, m, tag), Handing(l))
  {
    hide Process, Tickets;
    LeadGathers(n.office, m, SendingFileMetadataChangeWithMore, S174);
    var r := Process(n.office, m);
    BothFalse(n.office.replied, r.office.replied);
    assert n.office.dataQueue[0..] == n.office.dataQueue;
    LeadOrders(n.office, m);
    LeadProof.NoTickets(n.session, r);
  }

  /** The change is out, and the new file is next. */
  lemma LeadGoesOn(n: Node, l: LeadView, m: Input, tag: nat)
    requires Directs(n, l) && l.replied1 && l.queue == [Long] && l.meta == [] && m.sender == 2
    requires l.part.state == SendingFileMetadataChangeWithMore && m.status == S141 && l.change == Some(Short)
    ensures var n' := Handled(n, m, tag);
            && n'.office.state == SendingNewFileMetadata && n'.session == n.session
            && n.session in n'.metas && n'.metas[n.session].file == Some(Short)
  {
    hide Process;
    LeadGathers(n.office, m, SendingNewFileMetadata, S130);
    hide Tickets, Stamp, AllFalse;
  }

  // ---------- a following node ----------

  lemma ChangeIgnored(o: Office, m: Input, e: Store)
    requires Stores(o, e) && e.written && !e.unread && e.copy.Some? && e.copy.value != [] && e.holds.None?
    requires o.state == ReceivingFileMetadataChangeWithMore && m.status == S174 && m.file == Short && m.sender == 0
    ensures Stores(Process(o, m).office, e) && PATH in Process(o, m).office.disk
  {
    hide Process;
    Safety.KeysKept(o, m);
    MetadataStep(o, m);
    WrittenExact(o, m);
    NoReset(o, m);
  }

  lemma Ignores(n: Node, x: Extra, m: Input, tag: nat)
    requires Stands(n, x) && x.timer.Off? && m.sender == 0 && m.status == S174 && m.file == Short
    requires x.part.state == ReceivingFileMetadataChangeWithMore
    requires var e := x.store; e.written && !e.unread && e.copy.Some? && e.copy.value != [] && e.holds.None?
    ensures Stands(Handled(n, m, tag), x.(part := Part(BroadcastingAllMetadataReceived, S141, x.part.session)))
  {
    hide Process, Stores;
    StoresLead(n.office, x.store);
    ChangeIgnored(n.office, m, x.store);
    FollowerHears(n.office, m, BroadcastingAllMetadataReceived, S141);
    FollowSteps(n.office, m);
    assert Process(n.office, m).orders == [] by { hide Tickets; }
    NoOrders(n.session);
    hide Tickets, FollowMove;
  }

  // ---------- the three nodes together ----------

  lemma Reporting(s: Sys, c: Act, status: Status, f: Record, l: LeadView) returns (s': Sys)
    requires Staged(s, c) && (status == S300 || status == S320)
    requires Directs(Handled(s.nodes[0], Message(0, Beat(status, Some(f), None)), s.nodes[0].session), l)
    ensures Staged(s', c.(lead := l))
  {
    hide Reachable, Handled, Stands, Enabled, Next;
    var m := Message(0, Beat(status, Some(f), None));
    LocalMove(s, m);
    s' := Next(s, Local(0, m));
    Reaches(s, Local(0, m));
    assert s'.nodes.Keys == s.nodes.Keys;
  }

  /** Both followers read the record of the change. */
  lemma BothIgnore(s: Sys, c: Act) returns (s': Sys)
    requires Staged(s, c) && c.one == c.two && c.one.timer.Off?
    requires c.lead.part.beat == S174 && c.lead.change == Some(Short)
    requires c.one.part.state == ReceivingFileMetadataChangeWithMore
    requires var e := c.one.store; e.written && !e.unread && e.copy.Some? && e.copy.value != [] && e.holds.None?
    ensures var x := c.one.(part := Part(BroadcastingAllMetadataReceived, S141, c.one.part.session));
            Staged(s', c.(one := x, two := x))
  {
    hide Staged, Handled, Stands, Directs;
    var x := c.one.(part := Part(BroadcastingAllMetadataReceived, S141, c.one.part.session));
    LeadBeat(s, c);
    Ignores(s.nodes[1], c.one, FromLead(s), c.lead.part.session);
    var s1 := ToldOne(s, c, x);
    LeadBeat(s1, c.(one := x));
    Ignores(s1.nodes[2], c.two, FromLead(s1), c.lead.part.session);
    s' := ToldTwo(s1, c.(one := x), x);
  }

  /** Node 1 has replied, and what node 2 says. */
  lemma OneNoted(s: Sys, c: Act) returns (s': Sys)
    requires Staged(s, c) && !c.lead.replied2 && Awaits(c.lead.part.state, c.one.part.beat)
    ensures Staged(s', c.(lead := c.lead.(replied1 := true)))
    ensures s'.nodes.Keys == {0, 1, 2} && s'.nodes[2].out != [] && Last(s'.nodes[2]).beat.status == c.two.part.beat
    ensures Directs(s'.nodes[0], c.lead.(replied1 := true)) && !s'.nodes[0].stopped
  {
    hide Reachable, Handled, Stores, Timed, Directs;
    var t := Last(s.nodes[1]);
    LeadNotesFile(s.nodes[0], c.lead, Message(1, t.beat), t.session);
    s' := ToldLead(s, c, 1, c.lead.(replied1 := true));
    Running(s'.nodes[0], c.lead.(replied1 := true));
  }

  lemma Running(n: Node, l: LeadView)
    requires Directs(n, l)
    ensures !n.stopped
  {
  }

  // ---------- the run ----------

  const Noted: Store := Store(false, true, Some([7]), None)

  /** The change is announced together with a new file, by 164 alone as far as the others hear. */
  lemma Announced164() returns (s: Sys)
    ensures var x := Extra(Part(AcknowledgingFileMetadataChangeWithMore, S165, 2), Off, Noted);
            var l := LeadView(Part(AnnouncingFileMetadataChangeWithMore, S164, 2), Off, false, false, [Long],
                              None, None, [Short], None);
            Staged(s, Act(l, x, x, true))
  {
    hide Staged, Directs, Handled;
    s := FirstFile();
    var c := AfterFirst();
    LeadBeat(s, c);
    var l1 := LeadView(Part(AnnouncingFileMetadataChange, S160, 2), Off, false, false, [], None, None, [Short], None);
    LeadReportsChange(s.nodes[0], c.lead, Message(0, Beat(S320, Some(Short), None)));
    s := Reporting(s, c, S320, Short, l1);
    c := c.(lead := l1);
    LeadBeat(s, c);
    var l := LeadView(Part(AnnouncingFileMetadataChangeWithMore, S164, 2), Off, false, false, [Long], None, None,
                      [Short], None);
    LeadReportsMore(s.nodes[0], l1, Message(0, Beat(S300, Some(Long), None)));
    s := Reporting(s, c, S300, Long, l);
    c := c.(lead := l);
    var x := Extra(Part(AcknowledgingFileMetadataChangeWithMore, S165, 2), Off, Noted);
    s := BothJoin(s, c, x, AcknowledgingFileMetadataChangeWithMore, S165);
  }

  lemma Read174() returns (s: Sys)
    ensures var x := Extra(Part(BroadcastingAllMetadataReceived, S141, 2), Off, Noted);
            var l := LeadView(Part(SendingFileMetadataChangeWithMore, S174, 2), Off, false, false, [Long], None, None,
                              [], Some(Short));
            Staged(s, Act(l, x, x, true))
  {
    hide Staged, Directs, Handled;
    s := Announced164();
    var x := Extra(Part(AcknowledgingFileMetadataChangeWithMore, S165, 2), Off, Noted);
    var l := LeadView(Part(AnnouncingFileMetadataChangeWithMore, S164, 2), Off, false, false, [Long], None, None,
                      [Short], None);
    var c := Act(l, x, x, true);
    s := OneNoted(s, c);
    var noted := l.(replied1 := true);
    var t := Last(s.nodes[2]);
    LeadSendsChange(s.nodes[0], noted, Message(2, t.beat), t.session);
    s := ToldLead(s, c.(lead := noted), 2, Handing(noted));
    c := c.(lead := Handing(l));
    x := Extra(Part(ReceivingFileMetadataChangeWithMore, S175, 2), Off, Noted);
    s := BothJoin(s, c, x, ReceivingFileMetadataChangeWithMore, S175);
    s := BothIgnore(s, c.(one := x, two := x));
  }

  /** The lead has gone on to the new file, and node j's file is not as the record of the change says. */
  predicate NotInEffect(s: Sys, j: NodeId) {
    && s.lead in s.nodes && j in s.nodes && j != s.lead
    && var i := s.nodes[s.lead];
       && i.office.state == SendingNewFileMetadata && i.session in i.metas && i.metas[i.session].file.Some?
       && !InEffect(s.nodes[j].office.disk, i.metas[i.session].file.value)
  }

  lemma StillLong(n: Node, x: Extra)
    requires Stands(n, x) && x.store.copy == Some([7])
    ensures !InEffect(n.office.disk, Short)
  {
  }

  lemma Ignored() returns (s: Sys)
    ensures Reachable(s) && NotInEffect(s, 1)
  {
    hide Reachable, Handled, Stores, Timed, Directs;
    var x := Extra(Part(BroadcastingAllMetadataReceived, S141, 2), Off, Noted);
    var l := LeadView(Part(SendingFileMetadataChangeWithMore, S174, 2), Off, false, false, [Long], None, None,
                      [], Some(Short));
    var b := Read174();
    b := OneNoted(b, Act(l, x, x, true));
    var t := Last(b.nodes[2]);
    LeadGoesOn(b.nodes[0], l.(replied1 := true), Message(2, t.beat), t.session);
    Relays(b, 2, 0);
    s := Relayed(b, 2, 0);
    StillLong(b.nodes[1], x);
    hide InEffect;
  }

  /** A run in which a metadata change that every node has handled is not in effect everywhere. */
  lemma ChangeCanFail()
    ensures exists ss: seq<Sys>, moves: seq<Move> :: IsRun(ss, moves) && NotInEffect(ss[|ss| - 1], 1)
  {
    hide NotInEffect, Init, Enabled, Next;
    var s := Ignored();
    var ss: seq<Sys>, moves: seq<Move> :| IsRun(ss, moves) && ss[|ss| - 1] == s;
    assert NotInEffect(ss[|ss| - 1], 1);
  }
}
