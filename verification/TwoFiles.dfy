/**
 * A run of three nodes with two new files under one path, the second one shorter.  It ends in
 * two ways: with a copy that keeps the tail of the first file, and with a 155 of the second
 * session before the lead has ended it, because a 155 of the first one comes late.
 */
module TwoFiles {
  import opened Fsm
  import opened FileStore
  import opened Boxoffice
  import opened Stages
  import opened Roles
  import opened Flock
  import opened Commit
  import opened Alignment
  import opened EarlyStop
  import opened Overtaking
  import opened Content
  import opened Orders
  import opened Steps
  import opened Copies
  import LeadProof
  import Transfer
  import Queues
  import Safety
  import Invariant

  const PATH: string := "a"
  const Long: Record := Record(PATH, 1, false)
  const Short: Record := Record(PATH, 0, false)

  function Copy(disk: map<string, seq<byte>>): seq<byte> { if PATH in disk then disk[PATH] else [] }

  // ---------- steps of the boxoffice ----------

  /** Timer ticks that move a node on. */
  predicate Ticks(s: State, status: Status, t: State, h: Status) {
    || (s == PromotingNewFileMetadata && status == S132 && t == SendingFakeFile && h == S111)
    || (s == SendingNewFileMetadata && status == S132 && t == SendingNewFile && h == S110)
    || (s == SyncingStop && status == S156 && t == Ready && h == S100)
  }

  lemma TicksRow(s: State, status: Status, t: State, h: Status)
    requires Ticks(s, status, t, h)
    ensures var e := EventOf(status);
            && e == TimingOffsetElapsed && CheckEvent(s, e, status) && NewState(s, e, status) == t && s != t
            && ActionOf(s, e, status) == SendHeartbeat && HeartbeatStatus(s, e, status) == h
  {
  }

  lemma TickTaken(o: Office, m: Input, t: State, h: Status)
    requires Ticks(o.state, m.status, t, h)
    ensures Process(o, m) == Result(o.(state := t), [Beat(h, None, None)], [], Done)
  {
    TicksRow(o.state, m.status, t, h);
    hide Process, CheckEvent, NewState, EventOf, ActionOf, HeartbeatStatus;
    TickPath(o, m);
  }

  /** Every node has replied: the file at the head of the queue goes out, and to the dispatcher. */
  lemma FileGathered(o: Office, m: Input, f: Record)
    requires o.state == AnnouncingNewFile && m.status == S121 && o.dataQueue == [f]
    requires m.sender in o.replied && Full(o, m.sender)
    ensures var r := Process(o, m);
            && r.outcome == Done && r.office.state == SendingNewFileMetadata
            && AllFalse(o.replied, r.office.replied) && r.office.dataQueue == [] && r.office.metaQueue == o.metaQueue
            && r.beats == [Beat(S130, Some(f), Some(r.office.deadline))]
            && r.orders == [Send(S122, r.office.deadline, f)]
  {
    assert Concluded(o, S121) == S122;
    StartRow();
    ReplyConcludes(o, m);
    NotedQueues(o, m);
    hide CheckEvent, NewState, ActionOf, HeartbeatStatus, EventOf, Process, OnHeartbeat, Timestamped, Continue,
      AllFalse, Full, Concluded;
    HeartbeatPath(o, m);
    var a := OnHeartbeat(Timestamped(o, m), m);
    assert a == Rechecked(a, m.status);
    StartNotice(a, m);
    QuorumStarts(a, m);
    var b := OnQuorum(a, m);
    ContinuedStart(AnnouncingNewFile, b, m);
    ContinueKeys(b, m);
    EmptiesQueue(b, m);
  }

  lemma StartRow()
    ensures EventOf(S121) == ReceivedHeartbeat && CheckEvent(AnnouncingNewFile, EventOf(S121), S121)
    ensures CheckEvent(AnnouncingNewFile, EventOf(S122), S122)
  {
  }

  lemma QuorumStarts(a: Mid, m: Input)
    requires a == Plain(a.office, S122) && a.office.dataQueue != []
    ensures var q := OnQuorum(a, m);
            && q.outcome == Done && q.status == S122 && q.event == a.event && q.beats == []
            && q.office == a.office.(deadline := q.office.deadline)
  {
    hide StartTime;
  }

  lemma EmptiesQueue(b: Mid, m: Input)
    requires b.office.state == AnnouncingNewFile && b.outcome == Done && b.status == S122 && b.event == EventOf(S122)
    requires |b.office.dataQueue| == 1
    ensures var p := Continue(b, m).office; p.dataQueue == [] && p.metaQueue == b.office.metaQueue
  {
    Queues.StartRows(AnnouncingNewFile, S122);
    hide CheckEvent, NewState, ActionOf, HeartbeatStatus, EventOf;
  }

  // ---------- what is followed of a node ----------

  /** The dispatcher: at rest, with an order (to send a file, or to pretend), sending, waiting to stop. */
  datatype Timer = Off | Armed(order: Option<Record>) | Going(file: Record) | Halting

  predicate Timed(n: Node, t: Timer) {
    && n.ticks == []
    && match t
       case Off => n.tickets == [] && n.dispatcher.Idle?
       case Armed(f) =>
         && |n.tickets| == 1 && n.dispatcher.Idle? && n.tickets[0].session == n.session
         && var order := n.tickets[0].order;
            if f.Some? then order.Send? && order.file == f.value else order.Pretend?
       case Going(f) =>
         && n.tickets == [] && n.dispatcher.Sending? && n.dispatcher.ticket.session == n.session
         && n.dispatcher.ticket.order.Send? && n.dispatcher.ticket.order.file == f
       case Halting => n.tickets == [] && n.dispatcher.Stopping?
  }

  /** Of a following node: a record is still to be read; one was written; the copy, if known; the record held. */
  datatype Store = Store(unread: bool, written: bool, copy: Option<seq<byte>>, holds: Option<Record>)

  predicate Stores(o: Office, e: Store) {
    && 0 in o.replied
    && (e.unread ==> !o.notified)
    && (e.written ==> o.written)
    && (if e.copy.Some? then Copy(o.disk) == e.copy.value else |Copy(o.disk)| <= 1)
    && (e.holds.Some? ==> o.current == e.holds)
  }

  datatype Extra = Extra(part: Part, timer: Timer, store: Store)

  predicate Stands(n: Node, x: Extra) { Plays(n, x.part) && Timed(n, x.timer) && Stores(n.office, x.store) }

  // ---------- one following node ----------

  lemma StoreKept(o: Office, m: Input, e: Store)
    requires Stores(o, e) && m.sender == 0 && FollowState(o.state) && FollowInput(o, m)
    requires m.status != S130 || o.state != PromotingNewFileMetadata
    requires Moving(m.status) && (m.status == S164 ==> !e.unread)
    requires m.status != S174 || o.state != ReceivingFileMetadataChangeWithMore
    requires Process(o, m).office.state != o.state
    ensures Stores(Process(o, m).office, e) && OnlyStop(Process(o, m))
    ensures m.status == S120 ==> !Process(o, m).office.notified
  {
    hide Process, FollowState, FollowInput, Resets, Copy;
    Safety.KeysKept(o, m);
    FollowSteps(o, m);
    if o.written {
      WrittenExact(o, m);
      NoReset(o, m);
    }
  }

  /** Heartbeats of the lead that the run uses to move a following node on. */
  predicate Moving(s: Status) { s == S120 || s == S130 || s == S155 || s == S164 || s == S174 }

  lemma NoReset(o: Office, m: Input)
    requires Moving(m.status)
    ensures !Resets(o, m)
  {
    hide Full;
  }

  /** A heartbeat of the lead that only moves the node on. */
  lemma Joins(n: Node, x: Extra, m: Input, tag: nat, t: State, h: Status)
    requires Stands(n, x) && x.timer.Off? && m.sender == 0 && Hears(x.part.state, m.status, t, h)
    requires Joining(x, m.status)
    ensures Stands(Handled(n, m, tag), Joined(x, m.status, tag, t, h))
  {
    hide Process, Hears, Stores;
    StoresLead(n.office, x.store);
    FollowerHears(n.office, m, t, h);
    HearsChanges(x.part.state, m.status, t, h);
    StoreKept(n.office, m, x.store);
    Unread(Process(n.office, m).office, x.store);
    LeadProof.NoTickets(NextSession(n, tag, t), Process(n.office, m));
    hide Tickets, FollowState;
    assert Absorb(n, m, tag, Process(n.office, m)).tickets == n.tickets;
  }

  predicate Joining(x: Extra, status: Status) {
    || (x.part.state == Ready && (status == S120 || (status == S164 && !x.store.unread)))
    || (x.part.state == AcknowledgingNewFile && status == S130)
    || (x.part.state == AcknowledgingFileMetadataChangeWithMore && status == S174)
  }

  function Joined(x: Extra, status: Status, tag: nat, t: State, h: Status): Extra {
    x.(part := Part(t, h, if x.part.state == Ready then tag else x.part.session),
       store := if status == S120 then x.store.(unread := true) else x.store)
  }

  lemma StoresLead(o: Office, e: Store)
    requires Stores(o, e)
    ensures 0 in o.replied
  {
  }

  lemma HearsChanges(s: State, status: Status, t: State, h: Status)
    requires Hears(s, status, t, h)
    ensures s != t && FollowState(s) && (s == Ready ==> Acknowledging(t)) && !Announcing(t)
  {
  }

  lemma Unread(o: Office, e: Store)
    requires Stores(o, e)
    ensures !o.notified ==> Stores(o, e.(unread := true))
  {
  }

  /** The copy after the record was read: at most one byte, or as it was if no resize is due. */
  function Opening(e: Store, f: Record): Store {
    Store(false, true, e.copy, Some(f))
  }

  lemma RecordKeepsCopy(o: Office, e: Store, f: Record)
    requires Stores(o, e) && f.path == PATH && !f.deleted
    requires if e.copy.Some? then e.written && e.copy.value != [] else f.size <= 1
    ensures var disk := Opened(o.disk, f);
            var d := if o.written then disk else Sized(disk, f);
            if e.copy.Some? then Copy(d) == e.copy.value else |Copy(d)| <= 1
  {
  }

  lemma Reads(n: Node, x: Extra, m: Input, tag: nat, f: Record)
    requires Stands(n, x) && x.timer.Off? && m.sender == 0 && m.status == S130 && m.file == f
    requires x.part.state == PromotingNewFileMetadata && x.store.unread
    requires f.path == PATH && !f.deleted
    requires if x.store.copy.Some? then x.store.written && x.store.copy.value != [] else f.size <= 1
    ensures Stands(Handled(n, m, tag), x.(timer := Armed(None), store := Opening(x.store, f)))
  {
    hide Process;
    RecordStep(n.office, m);
    RecordKeepsCopy(n.office, x.store, f);
    Safety.KeysKept(n.office, m);
    LeadProof.OneTicket(n.session, Pretend(m.deadline));
    hide Opened, Sized, Copy, Tickets;
  }

  /** The data, as a message. */
  function DataMessage(from: NodeId, chunk: seq<byte>): Input {
    Input(S200, from, 0, 0, 0, NoFile, 0, 0, chunk, false)
  }

  lemma StoresData(n: Node, x: Extra, m: Input, tag: nat, f: Record, copy: seq<byte>)
    requires Stands(n, x) && m == DataMessage(0, m.chunk) && x.part.state == SendingFakeFile
    requires x.store.holds == Some(f) && f.path == PATH && !f.deleted && |m.chunk| == f.size <= 1
    requires if x.store.copy.Some? then |x.store.copy.value| >= f.size else f.size == 1
    requires copy == if x.store.copy.Some? then m.chunk + x.store.copy.value[f.size..] else m.chunk
    ensures Stands(Handled(n, m, tag),
                   x.(part := Part(BroadcastingAllReceived, S140, x.part.session),
                      store := x.store.(copy := Some(copy), holds := None)))
  {
    hide Handled, Received, Copy;
    DataNode(n, m, tag, f);
    DataCopy(n.office, x.store, m, f, copy);
  }

  lemma DataNode(n: Node, m: Input, tag: nat, f: Record)
    requires n.office.state == SendingFakeFile && m.status == S200 && !m.more && n.office.current == Some(f)
    ensures var n' := Handled(n, m, tag);
            n' == n.(office := n.office.(state := BroadcastingAllReceived, current := None,
                                         disk := Received(n.office.disk, f, m)),
                     out := n.out + [Tagged(n.session, Beat(S140, None, None))], stopped := false,
                     stored := n.stored + {n.session})
  {
    hide Process, Received, Stamp, Tickets;
    DataStep(n.office, m);
    StampOne(n.session, Beat(S140, None, None));
    NoOrders(n.session);
  }

  lemma StampOne(u: nat, b: Beat)
    ensures Stamp(u, [b]) == [Tagged(u, b)]
  {
  }

  lemma NoOrders(u: nat)
    ensures Tickets(u, []) == []
  {
  }

  lemma DataCopy(o: Office, e: Store, m: Input, f: Record, copy: seq<byte>)
    requires Stores(o, e) && m.offset == 0 && f.path == PATH && !f.deleted && |m.chunk| == f.size <= 1
    requires if e.copy.Some? then |e.copy.value| >= f.size else f.size == 1
    requires copy == if e.copy.Some? then m.chunk + e.copy.value[f.size..] else m.chunk
    ensures Copy(Received(o.disk, f, m)) == copy
  {
    var before := Opened(o.disk, f)[PATH];
    assert before == Copy(o.disk);
    Transfer.WholeFile(before, m.chunk);
  }

  // ---------- timers ----------

  function TickMessage(status: Status): Input { Message(0, Beat(status, None, None)) }

  /** A node whose dispatcher has taken up its order and started on it. */
  function Running(n: Node): Node
    requires n.tickets != []
  {
    n.(tickets := n.tickets[1..],
       dispatcher := if n.tickets[0].order.Send? then Sending(n.tickets[0]) else Stopping)
  }

  function Parked(n: Node): Node { n.(dispatcher := Idle) }

  /** A tick moves the node on and changes nothing else. */
  lemma TickNode(n: Node, m: Input, t: State, h: Status)
    requires Ticks(n.office.state, m.status, t, h)
    ensures Handled(n, m, n.session) ==
            n.(office := n.office.(state := t), out := n.out + [Tagged(n.session, Beat(h, None, None))],
               stopped := false)
  {
    hide Process, Stamp, Tickets;
    TickTaken(n.office, m, t, h);
    StampOne(n.session, Beat(h, None, None));
    NoOrders(n.session);
  }

  lemma TakeMove(s: Sys, x: NodeId)
    requires x in s.nodes && s.nodes[x].dispatcher.Idle? && |s.nodes[x].tickets| > 0
    ensures Enabled(s, Take(x))
    ensures var n := s.nodes[x];
            Next(s, Take(x)) ==
            s.(nodes := s.nodes[x := n.(dispatcher := Waiting(n.tickets[0]), tickets := n.tickets[1..])])
  {
  }

  lemma FireMove(s: Sys, x: NodeId)
    requires x in s.nodes && s.nodes[x].dispatcher.Waiting?
    ensures Enabled(s, Fire(x))
    ensures var n := s.nodes[x];
            Next(s, Fire(x)) ==
            s.(nodes := s.nodes[x := n.(ticks := n.ticks + [S132],
                                        dispatcher := if n.dispatcher.ticket.order.Send?
                                                      then Sending(n.dispatcher.ticket) else Stopping)])
  {
  }

  lemma RestMove(s: Sys, x: NodeId)
    requires x in s.nodes && s.nodes[x].dispatcher.Stopping?
    ensures Enabled(s, Rest(x))
    ensures var n := s.nodes[x];
            Next(s, Rest(x)) == s.(nodes := s.nodes[x := n.(ticks := n.ticks + [S156], dispatcher := Idle)])
  {
  }

  lemma TickMove(s: Sys, x: NodeId, status: Status)
    requires x in s.nodes && !s.nodes[x].stopped && s.nodes[x].ticks == [status]
    ensures Enabled(s, Tick(x, TickMessage(status)))
    ensures var n := s.nodes[x];
            Next(s, Tick(x, TickMessage(status))) ==
            s.(nodes := s.nodes[x := Handled(n.(ticks := []), TickMessage(status), n.session)])
  {
    hide Handled;
    assert s.nodes[x].ticks[1..] == [];
  }

  /** The dispatcher takes its order, waits for the start, and tells the boxoffice. */
  lemma Starts(s: Sys, x: NodeId)
    requires Reachable(s) && x in s.nodes && s.nodes[x].dispatcher.Idle? && |s.nodes[x].tickets| > 0
    requires s.nodes[x].ticks == [] && !s.nodes[x].stopped
    ensures Reachable(s.(nodes := s.nodes[x := Handled(Running(s.nodes[x]), TickMessage(S132), s.nodes[x].session)]))
  {
    hide Reachable, Enabled, Next, Handled, TickMessage;
    var n := s.nodes[x];
    TakeMove(s, x);
    Reaches(s, Take(x));
    var n1 := n.(dispatcher := Waiting(n.tickets[0]), tickets := n.tickets[1..]);
    var s1 := s.(nodes := s.nodes[x := n1]);
    FireMove(s1, x);
    Reaches(s1, Fire(x));
    var n2 := Running(n).(ticks := [S132]);
    var s2 := s.(nodes := s.nodes[x := n2]);
    assert n1.ticks + [S132] == [S132] && s1.nodes[x := n2] == s.nodes[x := n2];
    assert Next(s1, Fire(x)) == s2;
    TickMove(s2, x, S132);
    Reaches(s2, Tick(x, TickMessage(S132)));
    assert n2.(ticks := []) == Running(n);
    var n3 := Handled(Running(n), TickMessage(S132), n.session);
    assert s2.nodes[x := n3] == s.nodes[x := n3];
  }

  /** The stop time has come. */
  lemma Rests(s: Sys, x: NodeId)
    requires Reachable(s) && x in s.nodes && s.nodes[x].dispatcher.Stopping?
    requires s.nodes[x].ticks == [] && !s.nodes[x].stopped
    ensures Reachable(s.(nodes := s.nodes[x := Handled(Parked(s.nodes[x]), TickMessage(S156), s.nodes[x].session)]))
  {
    hide Reachable, Enabled, Next, Handled, TickMessage;
    var n := s.nodes[x];
    RestMove(s, x);
    Reaches(s, Rest(x));
    var n1 := n.(ticks := [S156], dispatcher := Idle);
    var s1 := s.(nodes := s.nodes[x := n1]);
    assert n.ticks + [S156] == [S156];
    assert Next(s, Rest(x)) == s1;
    TickMove(s1, x, S156);
    Reaches(s1, Tick(x, TickMessage(S156)));
    assert n1.(ticks := []) == Parked(n);
    var n2 := Handled(Parked(n), TickMessage(S156), n.session);
    assert s1.nodes[x := n2] == s.nodes[x := n2];
  }

  lemma FollowerStarts(n: Node, x: Extra)
    requires Stands(n, x) && x.timer == Armed(None) && x.part.state == PromotingNewFileMetadata
    ensures Stands(Handled(Running(n), TickMessage(S132), n.session),
                   x.(part := Part(SendingFakeFile, S111, x.part.session), timer := Halting))
  {
    hide Handled;
    TickNode(Running(n), TickMessage(S132), SendingFakeFile, S111);
  }

  lemma FollowerRests(n: Node, x: Extra)
    requires Stands(n, x) && x.timer == Halting && x.part.state == SyncingStop
    ensures Stands(Handled(Parked(n), TickMessage(S156), n.session),
                   x.(part := Part(Ready, S100, x.part.session), timer := Off))
  {
    hide Handled;
    TickNode(Parked(n), TickMessage(S156), Ready, S100);
  }

  /** 155 of the lead. */
  lemma FollowerStops(n: Node, x: Extra, m: Input, tag: nat)
    requires Stands(n, x) && m.sender == 0 && m.status == S155 && x.part.state == BroadcastingAllReceived
    ensures Stands(Handled(n, m, tag), x.(part := Part(SyncingStop, S155, x.part.session)))
  {
    hide Process, Stores;
    StoresLead(n.office, x.store);
    FinalTaken(n.office, m);
    FinalDone(n.office, m);
    StoreKept(n.office, m, x.store);
    LeadProof.NoTickets(n.session, Process(n.office, m));
    hide Tickets;
  }

  lemma FinalDone(o: Office, m: Input)
    requires o.state == BroadcastingAllReceived && m.status == S155
    ensures Process(o, m).outcome == Done
  {
    hide Process, Settled, Row, Accepted, Fits;
    FinalTaken(o, m);
    StepTaken(o, m);
  }

  // ---------- the lead ----------

  /**
   * The lead: its dispatcher, who has replied, which files are queued, and in its session the file
   * announced and the data sent; which changes are queued, and the one sent.
   */
  datatype LeadView = LeadView(part: Part, timer: Timer, replied1: bool, replied2: bool, queue: seq<Record>,
                               file: Option<Record>, sent: Option<seq<byte>>, meta: seq<Record>, change: Option<Record>)

  predicate Directs(n: Node, l: LeadView) {
    && Plays(n, l.part) && Timed(n, l.timer)
    && n.office.replied == map[1 := l.replied1, 2 := l.replied2]
    && n.office.dataQueue == l.queue && n.office.metaQueue == l.meta
    && (l.part.beat == S174 ==> Last(n).beat.file == l.change)
    && (l.change.Some? ==> n.session in n.metas && n.metas[n.session].file == l.change)
    && (l.part.beat == S130 ==> Last(n).beat.file == l.file)
    && (l.file.Some? ==> n.session in n.files && n.files[n.session].file == l.file)
    && (l.sent.Some? ==> n.session in n.sent && n.sent[n.session] == l.sent.value)
  }

  lemma LeadReports(n: Node, l: LeadView, m: Input)
    requires Directs(n, l) && l.timer.Off? && l.part.state == Ready && l.queue == [] && l.meta == []
    requires m.status == S300 && (m.file == Long || m.file == Short)
    ensures Directs(Handled(n, m, n.session),
                    LeadView(Part(AnnouncingNewFile, S120, l.part.session + 1), Off, false, false, [m.file],
                             None, None, [], None))
  {
    hide Process;
    LeadAnnounces(n.office, m, AnnouncingNewFile, S120);
    ResetTwo(n.office, l.replied1, l.replied2);
    LeadSteps(n.office, m);
    assert Process(n.office, m).orders == [];
    assert Tickets(n.session + 1, []) == [];
    hide Tickets, ResetReplied, LeadMove;
  }

  lemma LeadNotesFile(n: Node, l: LeadView, m: Input, tag: nat)
    requires Directs(n, l) && !l.replied2 && m.sender == 1
    requires Awaits(l.part.state, m.status)
    ensures Directs(Handled(n, m, tag), l.(replied1 := true))
  {
    hide Process;
    assert !Full(n.office, 1) by { assert 2 in n.office.replied && !n.office.replied[2]; }
    LeadNotes(n.office, m);
    LeadSteps(n.office, m);
    assert OnlyStop(Process(n.office, m)) by { hide Full, AllFalse; }
    LeadProof.NoTickets(n.session, Process(n.office, m));
    hide Tickets, LeadMove;
  }

  lemma LeadSendsFile(n: Node, l: LeadView, m: Input, tag: nat, f: Record)
    requires Directs(n, l) && l.replied1 && l.timer.Off? && l.queue == [f] && l.meta == [] && m.sender == 2
    requires l.part.state == AnnouncingNewFile && m.status == S121
    ensures Directs(Handled(n, m, tag),
                    LeadView(Part(SendingNewFileMetadata, S130, l.part.session), Armed(Some(f)), false, false, [],
                             Some(f), None, [], None))
  {
    hide Process, Tickets, Stamp;
    FileGathered(n.office, m, f);
    var r := Process(n.office, m);
    BothFalse(n.office.replied, r.office.replied);
    LeadProof.OneTicket(n.session, r.orders[0]);
    hide AllFalse;
  }

  lemma LeadStarts(n: Node, l: LeadView, f: Record)
    requires Directs(n, l) && l.timer == Armed(Some(f)) && l.part.state == SendingNewFileMetadata
    ensures Directs(Handled(Running(n), TickMessage(S132), n.session),
                    l.(part := Part(SendingNewFile, S110, l.part.session), timer := Going(f)))
  {
    hide Handled;
    TickNode(Running(n), TickMessage(S132), SendingNewFile, S110);
  }

  lemma LeadStops(n: Node, l: LeadView, m: Input, tag: nat)
    requires Directs(n, l) && l.replied1 && m.sender == 2 && l.part.state == SendingNewFile && m.status == S140
    ensures Directs(Handled(n, m, tag),
                    l.(part := Part(SyncingStop, S155, l.part.session), replied1 := false, replied2 := false))
  {
    hide Process, Tickets;
    LeadGathers(n.office, m, SyncingStop, S155);
    var r := Process(n.office, m);
    BothFalse(n.office.replied, r.office.replied);
    assert n.office.dataQueue[0..] == n.office.dataQueue && n.office.metaQueue[0..] == n.office.metaQueue;
    LeadOrders(n.office, m);
    LeadProof.NoTickets(n.session, r);
  }

  /** The end of a round that announces no file tells the dispatcher at most to stop. */
  lemma LeadOrders(o: Office, m: Input)
    requires LeadState(o.state) && m.sender in o.replied && (m.status == S140 || m.status == S165)
    ensures var r := Process(o, m); r.office.state != o.state ==> OnlyStop(r)
  {
    hide Process;
    LeadSteps(o, m);
    hide Full, AllFalse;
  }

  lemma BothFalse(a: map<NodeId, bool>, b: map<NodeId, bool>)
    requires a.Keys == {1, 2} && AllFalse(a, b)
    ensures b == map[1 := false, 2 := false]
  {
  }

  lemma LeadRestsNow(n: Node, l: LeadView)
    requires Directs(n, l) && l.timer == Halting && l.part.state == SyncingStop
    ensures Directs(Handled(Parked(n), TickMessage(S156), n.session),
                    l.(part := Part(Ready, S100, l.part.session), timer := Off))
  {
    hide Handled;
    TickNode(Parked(n), TickMessage(S156), Ready, S100);
  }

  // ---------- the three nodes together ----------

  datatype Act = Act(lead: LeadView, one: Extra, two: Extra, stale: bool)

  ghost predicate Staged(s: Sys, c: Act) {
    && Reachable(s) && s.lead == 0 && s.nodes.Keys == {0, 1, 2}
    && Directs(s.nodes[0], c.lead) && Stands(s.nodes[1], c.one) && Stands(s.nodes[2], c.two)
    && Lines(s, c.stale, S155)
  }

  /** What the lead repeats, as it reaches a node. */
  function FromLead(s: Sys): Input
    requires 0 in s.nodes && s.nodes[0].out != []
  {
    Message(0, Last(s.nodes[0]).beat)
  }

  lemma ToldOne(s: Sys, c: Act, x: Extra) returns (s': Sys)
    requires Staged(s, c)
    requires Stands(Handled(s.nodes[1], FromLead(s), Last(s.nodes[0]).session), x)
    ensures Staged(s', c.(one := x)) && Last(s'.nodes[0]) == Last(s.nodes[0])
  {
    hide Reachable, Handled, Stands, Stores;
    StandsUp(s.nodes[1], c.one);
    Relays(s, 0, 1);
    s' := Relayed(s, 0, 1);
    assert s'.nodes.Keys == s.nodes.Keys;
  }

  lemma ToldTwo(s: Sys, c: Act, x: Extra) returns (s': Sys)
    requires Staged(s, c)
    requires Stands(Handled(s.nodes[2], FromLead(s), Last(s.nodes[0]).session), x)
    ensures Staged(s', c.(two := x)) && Last(s'.nodes[0]) == Last(s.nodes[0])
  {
    hide Reachable, Handled, Stands, Stores;
    StandsUp(s.nodes[2], c.two);
    Relays(s, 0, 2);
    s' := Relayed(s, 0, 2);
    assert s'.nodes.Keys == s.nodes.Keys;
  }

  lemma StandsUp(n: Node, x: Extra)
    requires Stands(n, x)
    ensures Plays(n, x.part) && Timed(n, x.timer)
  {
  }

  lemma StandsTold(n: Node, x: Extra)
    requires Stands(n, x)
    ensures n.out != [] && Stands(Told(n), x)
  {
  }

  lemma ToldLead(s: Sys, c: Act, y: NodeId, l: LeadView) returns (s': Sys)
    requires Staged(s, c) && (y == 1 || y == 2) && s.nodes[y].out != []
    requires Directs(Handled(s.nodes[0], Message(y, Last(s.nodes[y]).beat), Last(s.nodes[y]).session), l)
    ensures Staged(s', c.(lead := l))
  {
    hide Reachable, Handled, Stands;
    StandsTold(s.nodes[1], c.one);
    StandsTold(s.nodes[2], c.two);
    Relays(s, y, 0);
    s' := Relayed(s, y, 0);
    assert s'.nodes.Keys == s.nodes.Keys;
  }

  function Announced(u: nat, f: Record): LeadView {
    LeadView(Part(SendingNewFileMetadata, S130, u), Armed(Some(f)), false, false, [], Some(f), None, [], None)
  }

  /** The lead once all have acknowledged the file, or have it. */
  function Concluding(l: LeadView): LeadView {
    if l.part.state == AnnouncingNewFile && l.queue != [] then Announced(l.part.session, l.queue[0])
    else l.(part := Part(SyncingStop, S155, l.part.session), replied1 := false, replied2 := false)
  }

  /** Both followers reply: the first is noted, the second concludes the round. */
  lemma BothReply(s: Sys, c: Act, status: Status) returns (s': Sys)
    requires Staged(s, c) && !c.lead.replied2 && c.one.part.beat == status && c.two.part.beat == status
    requires || (c.lead.part.state == AnnouncingNewFile && status == S121 && |c.lead.queue| == 1 && c.lead.timer.Off?
                 && c.lead.meta == [])
             || (c.lead.part.state == SendingNewFile && status == S140)
    ensures Staged(s', c.(lead := Concluding(c.lead)))
  {
    hide Reachable, Handled, Stores, Timed, Directs;
    var t1 := Last(s.nodes[1]);
    LeadNotesFile(s.nodes[0], c.lead, Message(1, t1.beat), t1.session);
    var noted := c.(lead := c.lead.(replied1 := true));
    var s1 := ToldLead(s, c, 1, noted.lead);
    var t2 := Last(s1.nodes[2]);
    if status == S121 {
      assert noted.lead.queue == [noted.lead.queue[0]];
      LeadSendsFile(s1.nodes[0], noted.lead, Message(2, t2.beat), t2.session, noted.lead.queue[0]);
    } else {
      LeadStops(s1.nodes[0], noted.lead, Message(2, t2.beat), t2.session);
    }
    s' := ToldLead(s1, noted, 2, Concluding(c.lead));
  }

  lemma Reported(s: Sys, c: Act, f: Record) returns (s': Sys)
    requires Staged(s, c) && c.lead.timer.Off? && c.lead.part.state == Ready && c.lead.queue == [] && c.lead.meta == []
    requires f == Long || f == Short
    ensures var l := LeadView(Part(AnnouncingNewFile, S120, c.lead.part.session + 1), Off, false, false, [f],
                              None, None, [], None);
            Staged(s', c.(lead := l))
  {
    hide Reachable, Handled, Stands, Enabled, Next;
    var m := Message(0, Beat(S300, Some(f), None));
    LocalMove(s, m);
    s' := Next(s, Local(0, m));
    Reaches(s, Local(0, m));
    LeadReports(s.nodes[0], c.lead, m);
    assert s'.nodes.Keys == s.nodes.Keys;
  }

  // ---------- a session ----------

  function Waits(u: nat, e: Store): Extra { Extra(Part(Ready, S100, u), Off, e) }

  /** What the lead says, to both. */
  lemma LeadBeat(s: Sys, c: Act)
    requires Staged(s, c)
    ensures 0 in s.nodes && 1 in s.nodes && 2 in s.nodes && s.nodes[0].out != []
    ensures FromLead(s).status == c.lead.part.beat && FromLead(s).sender == 0
    ensures Last(s.nodes[0]).session == c.lead.part.session
    ensures c.lead.part.beat == S130 && c.lead.file.Some? ==> FromLead(s).file == c.lead.file.value
    ensures c.lead.part.beat == S174 && c.lead.change.Some? ==> FromLead(s).file == c.lead.change.value
    ensures Stands(s.nodes[1], c.one) && Stands(s.nodes[2], c.two) && Directs(s.nodes[0], c.lead)
  {
    hide Reachable, Lines, Stores, Timed;
  }

  /** Both followers join the session, or go on to reading the record. */
  lemma BothJoin(s: Sys, c: Act, x: Extra, t: State, h: Status) returns (s': Sys)
    requires Staged(s, c) && c.one == c.two && x.timer.Off? && c.one.timer.Off?
    requires Hears(c.one.part.state, c.lead.part.beat, t, h) && Joining(c.one, c.lead.part.beat)
    requires x == Joined(c.one, c.lead.part.beat, c.lead.part.session, t, h)
    ensures Staged(s', c.(one := x, two := x))
  {
    hide Staged, Handled, Stands, Directs, Hears;
    LeadBeat(s, c);
    Joins(s.nodes[1], c.one, FromLead(s), c.lead.part.session, t, h);
    var s1 := ToldOne(s, c, x);
    LeadBeat(s1, c.(one := x));
    Joins(s1.nodes[2], c.two, FromLead(s1), c.lead.part.session, t, h);
    s' := ToldTwo(s1, c.(one := x), x);
  }

  /** Both followers read the record. */
  lemma BothRead(s: Sys, c: Act, f: Record) returns (s': Sys)
    requires Staged(s, c) && c.one == c.two && c.one.timer.Off? && c.lead.part.beat == S130 && c.lead.file == Some(f)
    requires c.one.part.state == PromotingNewFileMetadata && c.one.store.unread && f.path == PATH && !f.deleted
    requires var e := c.one.store; if e.copy.Some? then e.written && e.copy.value != [] else f.size <= 1
    ensures var x := c.one.(timer := Armed(None), store := Opening(c.one.store, f));
            Staged(s', c.(one := x, two := x))
  {
    hide Staged, Handled, Stands, Directs;
    var x := c.one.(timer := Armed(None), store := Opening(c.one.store, f));
    LeadBeat(s, c);
    Reads(s.nodes[1], c.one, FromLead(s), c.lead.part.session, f);
    var s1 := ToldOne(s, c, x);
    LeadBeat(s1, c.(one := x));
    Reads(s1.nodes[2], c.two, FromLead(s1), c.lead.part.session, f);
    s' := ToldTwo(s1, c.(one := x), x);
  }

  /** The lead ends the session, and both followers go along. */
  lemma BothStop(s: Sys, c: Act) returns (s': Sys)
    requires Staged(s, c) && c.one == c.two && c.lead.part.beat == S155 && c.one.part.state == BroadcastingAllReceived
    ensures var x := c.one.(part := Part(SyncingStop, S155, c.one.part.session));
            Staged(s', c.(one := x, two := x))
  {
    hide Staged, Handled, Stands, Directs;
    var x := c.one.(part := Part(SyncingStop, S155, c.one.part.session));
    LeadBeat(s, c);
    FollowerStops(s.nodes[1], c.one, FromLead(s), c.lead.part.session);
    var s1 := ToldOne(s, c, x);
    LeadBeat(s1, c.(one := x));
    FollowerStops(s1.nodes[2], c.two, FromLead(s1), c.lead.part.session);
    s' := ToldTwo(s1, c.(one := x), x);
  }

  /** One node replaced by another one that keeps to the plan. */
  lemma Recast(s: Sys, c: Act, s': Sys, c': Act)
    requires Staged(s, c) && Reachable(s') && s'.lead == s.lead && s'.net == s.net && s'.nodes.Keys == s.nodes.Keys
    requires c'.stale == c.stale
    requires Directs(s'.nodes[0], c'.lead) && Stands(s'.nodes[1], c'.one) && Stands(s'.nodes[2], c'.two)
    ensures Staged(s', c')
  {
    hide Reachable, Stands, Directs;
  }

  /** The start time comes for all three dispatchers. */
  lemma AllStart(s: Sys, c: Act, f: Record) returns (s': Sys)
    requires Staged(s, c) && c.one == c.two
    requires c.one.timer == Armed(None) && c.one.part.state == PromotingNewFileMetadata
    requires c.lead.timer == Armed(Some(f)) && c.lead.part.state == SendingNewFileMetadata
    ensures var x := c.one.(part := Part(SendingFakeFile, S111, c.one.part.session), timer := Halting);
            var l := c.lead.(part := Part(SendingNewFile, S110, c.lead.part.session), timer := Going(f));
            Staged(s', Act(l, x, x, c.stale))
  {
    hide Handled, Stands, Directs, Reachable, Lines;
    var x := c.one.(part := Part(SendingFakeFile, S111, c.one.part.session), timer := Halting);
    var l := c.lead.(part := Part(SendingNewFile, S110, c.lead.part.session), timer := Going(f));
    Ready3(s, c);
    Starts(s, 1);
    FollowerStarts(s.nodes[1], c.one);
    var s1 := s.(nodes := s.nodes[1 := Handled(Running(s.nodes[1]), TickMessage(S132), s.nodes[1].session)]);
    Recast(s, c, s1, c.(one := x));
    Starts(s1, 2);
    FollowerStarts(s1.nodes[2], c.two);
    var s2 := s1.(nodes := s1.nodes[2 := Handled(Running(s1.nodes[2]), TickMessage(S132), s1.nodes[2].session)]);
    Recast(s1, c.(one := x), s2, c.(one := x, two := x));
    Starts(s2, 0);
    LeadStarts(s2.nodes[0], c.lead, f);
    s' := s2.(nodes := s2.nodes[0 := Handled(Running(s2.nodes[0]), TickMessage(S132), s2.nodes[0].session)]);
    Recast(s2, c.(one := x, two := x), s', Act(l, x, x, c.stale));
  }

  /** Nothing but an order keeps the dispatchers from starting. */
  lemma Ready3(s: Sys, c: Act)
    requires Staged(s, c) && c.one.timer == Armed(None) && c.two.timer == Armed(None)
    requires c.lead.timer.Armed?
    ensures forall x :: x in {0, 1, 2} ==>
              && x in s.nodes && s.nodes[x].dispatcher.Idle? && |s.nodes[x].tickets| > 0
              && s.nodes[x].ticks == [] && !s.nodes[x].stopped
  {
    hide Reachable, Lines, Stores;
  }

  /** The stop time comes for all three. */
  lemma AllRest(s: Sys, c: Act) returns (s': Sys)
    requires Staged(s, c) && c.one == c.two && c.one.timer == Halting && c.one.part.state == SyncingStop
    requires c.lead.timer == Halting && c.lead.part.state == SyncingStop
    ensures var x := c.one.(part := Part(Ready, S100, c.one.part.session), timer := Off);
            Staged(s', Act(c.lead.(part := Part(Ready, S100, c.lead.part.session), timer := Off), x, x, c.stale))
  {
    hide Handled, Stands, Directs, Reachable, Lines;
    var x := c.one.(part := Part(Ready, S100, c.one.part.session), timer := Off);
    var l := c.lead.(part := Part(Ready, S100, c.lead.part.session), timer := Off);
    Halting3(s, c);
    Rests(s, 1);
    FollowerRests(s.nodes[1], c.one);
    var s1 := s.(nodes := s.nodes[1 := Handled(Parked(s.nodes[1]), TickMessage(S156), s.nodes[1].session)]);
    Recast(s, c, s1, c.(one := x));
    Rests(s1, 2);
    FollowerRests(s1.nodes[2], c.two);
    var s2 := s1.(nodes := s1.nodes[2 := Handled(Parked(s1.nodes[2]), TickMessage(S156), s1.nodes[2].session)]);
    Recast(s1, c.(one := x), s2, c.(one := x, two := x));
    Rests(s2, 0);
    LeadRestsNow(s2.nodes[0], c.lead);
    s' := s2.(nodes := s2.nodes[0 := Handled(Parked(s2.nodes[0]), TickMessage(S156), s2.nodes[0].session)]);
    Recast(s2, c.(one := x, two := x), s', Act(l, x, x, c.stale));
  }

  lemma Halting3(s: Sys, c: Act)
    requires Staged(s, c) && c.one.timer == Halting && c.two.timer == Halting && c.lead.timer == Halting
    ensures forall x :: x in {0, 1, 2} ==>
              x in s.nodes && s.nodes[x].dispatcher.Stopping? && s.nodes[x].ticks == [] && !s.nodes[x].stopped
  {
    hide Reachable, Lines, Stores;
  }

  /** A new file is announced and acknowledged. */
  lemma Announce(s: Sys, l: LeadView, e: Store, stale: bool, f: Record) returns (s': Sys)
    requires Staged(s, Act(l, Waits(l.part.session, e), Waits(l.part.session, e), stale))
    requires l.timer.Off? && l.part.state == Ready && l.queue == [] && l.meta == [] && (f == Long || f == Short)
    ensures var u := l.part.session + 1;
            var x := Extra(Part(AcknowledgingNewFile, S121, u), Off, e.(unread := true));
            Staged(s', Act(Announced(u, f), x, x, stale))
  {
    hide Staged;
    var u := l.part.session + 1;
    var x := Extra(Part(AcknowledgingNewFile, S121, u), Off, e.(unread := true));
    var c := Act(l, Waits(u - 1, e), Waits(u - 1, e), stale);
    s' := Reported(s, c, f);
    c := c.(lead := LeadView(Part(AnnouncingNewFile, S120, u), Off, false, false, [f], None, None, [], None));
    s' := BothJoin(s', c, x, AcknowledgingNewFile, S121);
    s' := BothReply(s', c.(one := x, two := x), S121);
  }

  // ---------- the data ----------

  lemma EmitMove(s: Sys, u: nat, chunk: seq<byte>)
    requires 0 in s.nodes && s.nodes[0].dispatcher.Sending? && (0, 1) in s.net && (0, 2) in s.net
    requires Packed(s.nodes[0].dispatcher.ticket, Data(u, 0, chunk, false), true)
    requires s.net[(0, 1)] == [] && s.net[(0, 2)] == []
    ensures var n, p := s.nodes[0], Data(u, 0, chunk, false);
            var a := Emit(0, {1, 2}, p, true);
            && Enabled(s, a)
            && Next(s, a) == s.(nodes := s.nodes[0 := n.(sent := n.sent[u := chunk], dispatcher := Stopping)],
                                net := s.net[(0, 1) := [p]][(0, 2) := [p]])
  {
    hide Packed;
    var p := Data(u, 0, chunk, false);
    assert [] + [p] == [p];
    assert Sent(s.net, 0, {1, 2}, p) == s.net[(0, 1) := [p]][(0, 2) := [p]];
  }

  lemma DataMove(s: Sys, y: NodeId, u: nat, chunk: seq<byte>)
    requires y != 0 && y in s.nodes && !s.nodes[y].stopped
    requires (0, y) in s.net && s.net[(0, y)] == [Data(u, 0, chunk, false)]
    ensures var a := Deliver(0, y, DataMessage(0, chunk));
            && Enabled(s, a)
            && Next(s, a) == s.(nodes := s.nodes[y := Handled(s.nodes[y], DataMessage(0, chunk), s.nodes[y].session)],
                                net := s.net[(0, y) := []])
  {
    hide Handled;
    assert s.net[(0, y)][1..] == [];
  }

  /** The file goes out in one packet and reaches both. */
  lemma Delivered(s: Sys, u: nat, chunk: seq<byte>) returns (s': Sys)
    requires Reachable(s) && s.nodes.Keys == {0, 1, 2} && (0, 1) in s.net && (0, 2) in s.net
    requires s.nodes[0].dispatcher.Sending? && Packed(s.nodes[0].dispatcher.ticket, Data(u, 0, chunk, false), true)
    requires s.net[(0, 1)] == [] && s.net[(0, 2)] == [] && !s.nodes[1].stopped && !s.nodes[2].stopped
    ensures Reachable(s') && s'.lead == s.lead && s'.net == s.net && s'.nodes.Keys == s.nodes.Keys
    ensures var n, m := s.nodes[0], DataMessage(0, chunk);
            && s'.nodes[0] == n.(sent := n.sent[u := chunk], dispatcher := Stopping)
            && s'.nodes[1] == Handled(s.nodes[1], m, s.nodes[1].session)
            && s'.nodes[2] == Handled(s.nodes[2], m, s.nodes[2].session)
  {
    hide Reachable, Enabled, Next, Handled, DataMessage, Packed;
    var p, m := Data(u, 0, chunk, false), DataMessage(0, chunk);
    EmitMove(s, u, chunk);
    var a := Emit(0, {1, 2}, p, true);
    Reaches(s, a);
    var s1 := Next(s, a);
    DataMove(s1, 1, u, chunk);
    Reaches(s1, Deliver(0, 1, m));
    var s2 := Next(s1, Deliver(0, 1, m));
    DataMove(s2, 2, u, chunk);
    Reaches(s2, Deliver(0, 2, m));
    s' := Next(s2, Deliver(0, 2, m));
    assert s'.net == s.net;
    assert s'.nodes.Keys == s.nodes.Keys;
  }

  lemma LeadEmitted(n: Node, l: LeadView, f: Record, chunk: seq<byte>)
    requires Directs(n, l) && l.timer == Going(f) && |chunk| == f.size && !f.deleted
    ensures n.dispatcher.Sending? && Packed(n.dispatcher.ticket, Data(l.part.session, 0, chunk, false), true)
    ensures Directs(n.(sent := n.sent[l.part.session := chunk], dispatcher := Stopping),
                    l.(timer := Halting, sent := Some(chunk)))
  {
  }

  lemma AllGet(s: Sys, c: Act, f: Record, chunk: seq<byte>, copy: seq<byte>) returns (s': Sys)
    requires Staged(s, c) && c.one == c.two && c.lead.timer == Going(f) && c.one.part.state == SendingFakeFile
    requires c.one.store.holds == Some(f) && f.path == PATH && !f.deleted && |chunk| == f.size <= 1
    requires var e := c.one.store; if e.copy.Some? then |e.copy.value| >= f.size else f.size == 1
    requires var e := c.one.store; copy == if e.copy.Some? then chunk + e.copy.value[f.size..] else chunk
    ensures var x := c.one.(part := Part(BroadcastingAllReceived, S140, c.one.part.session),
                            store := c.one.store.(copy := Some(copy), holds := None));
            Staged(s', Act(c.lead.(timer := Halting, sent := Some(chunk)), x, x, c.stale))
  {
    hide Reachable, Handled, Stands, Directs;
    var x := c.one.(part := Part(BroadcastingAllReceived, S140, c.one.part.session),
                    store := c.one.store.(copy := Some(copy), holds := None));
    var m := DataMessage(0, chunk);
    LeadEmitted(s.nodes[0], c.lead, f, chunk);
    StandsUp(s.nodes[1], c.one);
    StandsUp(s.nodes[2], c.two);
    s' := Delivered(s, c.lead.part.session, chunk);
    StoresData(s.nodes[1], c.one, m, s.nodes[1].session, f, copy);
    StoresData(s.nodes[2], c.two, m, s.nodes[2].session, f, copy);
    Recast(s, c, s', Act(c.lead.(timer := Halting, sent := Some(chunk)), x, x, c.stale));
  }

  // ---------- the run ----------

  /** Where a session stands once everyone has the file and the lead does not know yet. */
  function Stored(u: nat, f: Record, chunk: seq<byte>, copy: seq<byte>, stale: bool): Act {
    var x := Extra(Part(BroadcastingAllReceived, S140, u), Halting, Store(false, true, Some(copy), None));
    Act(LeadView(Part(SendingNewFile, S110, u), Halting, false, false, [], Some(f), Some(chunk), [], None), x, x, stale)
  }

  lemma Session(s: Sys, l: LeadView, e: Store, stale: bool, f: Record, chunk: seq<byte>, copy: seq<byte>)
    returns (s': Sys)
    requires Staged(s, Act(l, Waits(l.part.session, e), Waits(l.part.session, e), stale))
    requires l.timer.Off? && l.part.state == Ready && l.queue == [] && l.meta == []
    requires (f == Long || f == Short) && |chunk| == f.size
    requires if e.copy.Some? then e.written && e.copy.value != [] && |e.copy.value| >= f.size else f.size == 1
    requires copy == if e.copy.Some? then chunk + e.copy.value[f.size..] else chunk
    ensures Staged(s', Stored(l.part.session + 1, f, chunk, copy, stale))
  {
    hide Staged;
    var u := l.part.session + 1;
    var e1 := e.(unread := true);
    s' := Announce(s, l, e, stale, f);
    var x := Extra(Part(AcknowledgingNewFile, S121, u), Off, e1);
    var c := Act(Announced(u, f), x, x, stale);
    x := Extra(Part(PromotingNewFileMetadata, S131, u), Off, e1);
    s' := BothJoin(s', c, x, PromotingNewFileMetadata, S131);
    c := c.(one := x, two := x);
    s' := BothRead(s', c, f);
    x := x.(timer := Armed(None), store := Opening(e1, f));
    c := c.(one := x, two := x);
    s' := AllStart(s', c, f);
    x := x.(part := Part(SendingFakeFile, S111, u), timer := Halting);
    c := Act(c.lead.(part := Part(SendingNewFile, S110, u), timer := Going(f)), x, x, stale);
    s' := AllGet(s', c, f, chunk, copy);
  }

  const Empty: Store := Store(false, false, None, None)

  const AtRest: LeadView := LeadView(Part(Ready, S100, 0), Off, false, false, [], None, None, [], None)

  lemma FreshStands(others: set<NodeId>, a: NodeId)
    requires others == {0, a}
    ensures Stands(Fresh(others), Waits(0, Empty))
  {
    FreshPlays(others, 0, a);
  }

  lemma FreshDirects()
    ensures Directs(Fresh({1, 2}), AtRest)
  {
    FreshPlays({1, 2}, 1, 2);
  }

  lemma Curtain() returns (s: Sys)
    ensures Staged(s, Act(AtRest, Waits(0, Empty), Waits(0, Empty), false))
  {
    hide Init, Fresh, Silence, Reachable, Lines, Stands, Directs;
    s := Sys(0, Nodes(), Silence());
    BeginInit(s);
    FreshDirects();
    FreshStands({0, 2}, 2);
    FreshStands({0, 1}, 1);
    ThreeNodes(s.nodes);
    SilentLines(S155);
    ReachInit(s);
  }

  /** Node 2 sends its 155 of session 1 to node 1, which does not get to it yet. */
  lemma Lags(s: Sys, c: Act) returns (s': Sys)
    requires Staged(s, c) && !c.stale && c.two.part.beat == S155 && c.two.part.session == 1
    ensures Staged(s', c.(stale := true))
  {
    hide Reachable, Stores;
    Spoken(s, 2, 1);
    var l := Last(s.nodes[2]);
    s' := s.(nodes := s.nodes[2 := Told(s.nodes[2])], net := s.net[(2, 1) := s.net[(2, 1)] + [Hb(l)]]);
    assert s'.nodes.Keys == s.nodes.Keys;
  }

  /** Everyone has the long file and is ready again; the 155 of node 2 is still on its way to node 1. */
  function AfterFirst(): Act {
    var x := Waits(1, Store(false, true, Some([7]), None));
    Act(Stored(1, Long, [7], [7], true).lead.(part := Part(Ready, S100, 1), timer := Off), x, x, true)
  }

  lemma FirstFile() returns (s: Sys)
    ensures Staged(s, AfterFirst())
  {
    hide Staged;
    s := Curtain();
    s := Session(s, AtRest, Empty, false, Long, [7], [7]);
    var c := Stored(1, Long, [7], [7], false);
    s := BothReply(s, c, S140);
    c := c.(lead := Concluding(c.lead));
    s := BothStop(s, c);
    var x := c.one.(part := Part(SyncingStop, S155, 1));
    c := c.(one := x, two := x);
    s := Lags(s, c);
    c := c.(stale := true);
    s := AllRest(s, c);
  }

  /** Then the short one, up to where everyone has it. */
  lemma SecondFile() returns (s: Sys)
    ensures Staged(s, Stored(2, Short, [], [7], true))
  {
    hide Staged;
    s := FirstFile();
    assert [] + [7 as byte][0..] == [7];
    s := Session(s, AfterFirst().lead, AfterFirst().one.store, true, Short, [], [7]);
  }

  // ---------- its two ends ----------

  /** The lead ends a session whose file fits one packet, and node j has something else than was sent. */
  predicate WrongCopy(s: Sys, j: NodeId) {
    && s.lead in s.nodes && j in s.nodes && j != s.lead
    && var i := s.nodes[s.lead];
       && i.office.state == SyncingStop && SmallFile(i, i.session) && i.session in i.sent
       && var f := i.files[i.session].file.value;
          f.path in s.nodes[j].office.disk && s.nodes[j].office.disk[f.path] != i.sent[i.session]
  }

  /** Node n says 155 of a session that the lead has not ended. */
  ghost predicate SaysEarly(s: Sys, n: NodeId) {
    && s.lead in s.nodes && n in s.nodes
    && var u := s.nodes[s.lead].session; u !in s.nodes[s.lead].ended && SaysStop(s.nodes[n].out, u)
  }

  lemma TailKept() returns (s: Sys)
    ensures Reachable(s) && WrongCopy(s, 1)
  {
    hide Reachable;
    s := SecondFile();
    s := BothReply(s, Stored(2, Short, [], [7], true), S140);
  }

  /** A run in which a node does not end up with the file that was sent, although the lead ends the session. */
  lemma CopyCanFail()
    ensures exists ss: seq<Sys>, moves: seq<Move> :: IsRun(ss, moves) && WrongCopy(ss[|ss| - 1], 1)
  {
    hide WrongCopy, Init, Enabled, Next;
    var s := TailKept();
    var ss: seq<Sys>, moves: seq<Move> :| IsRun(ss, moves) && ss[|ss| - 1] == s;
    assert WrongCopy(ss[|ss| - 1], 1);
  }

  /** The late 155 arrives: node 1 says 155 of session 2 while the lead is still sending. */
  lemma TooEarly() returns (s: Sys)
    ensures Reachable(s) && s.lead == 0 && s.nodes.Keys == {0, 1, 2}
    ensures s.nodes[0].office.state == SendingNewFile && s.nodes[0].session == 2 && SaysStop(s.nodes[1].out, 2)
  {
    hide Reachable, Handled, Enabled, Next, Stores, SaysStop, Process;
    var b := SecondFile();
    var t := b.net[(2, 1)][0].tag;
    var m := Message(2, t.beat);
    DeliverMove(b, 2, 1, t);
    var a := Deliver(2, 1, m);
    Reaches(b, a);
    var n := b.nodes[1];
    FinalTaken(n.office, m);
    PassesOn(n, m, t.session, Process(n.office, m));
    HandledAs(n, m, t.session);
    s := Next(b, a);
    assert s.nodes.Keys == b.nodes.Keys;
  }

  lemma HandledAs(n: Node, m: Input, tag: nat)
    ensures Handled(n, m, tag) == Absorb(n, m, tag, Process(n.office, m))
  {
    hide Process, Absorb;
  }

  /** A run in which a 155 of a session is advertised before the lead has ended that session. */
  lemma EarlyStopHappens()
    ensures exists ss: seq<Sys>, moves: seq<Move> :: IsRun(ss, moves) && SaysEarly(ss[|ss| - 1], 1)
  {
    hide Init, Enabled, Next, SaysStop, Safety.Inv;
    var s := TooEarly();
    var ss: seq<Sys>, moves: seq<Move> :| IsRun(ss, moves) && ss[|ss| - 1] == s;
    RunHolds(ss, moves, |ss| - 1);
    StillSending(s);
    assert SaysEarly(ss[|ss| - 1], 1);
  }

  lemma StillSending(s: Sys)
    requires Safety.Inv(s) && s.lead in s.nodes && s.nodes[s.lead].office.state == SendingNewFile
    ensures s.nodes[s.lead].session !in s.nodes[s.lead].ended
  {
    assert Invariant.LeadPhase(s.nodes[s.lead]);
    hide Safety.Pairs, Invariant.FollowInv, Safety.PeerNet;
  }
}
