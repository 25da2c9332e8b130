/**
 * One step of the boxoffice, by numbers and without its stages or tables: what becomes of
 * the status, how the step ends, which state it leads to and what it advertises.
 */
module Exact {
  import opened Fsm
  import opened Boxoffice
  import opened Stages
  import opened Roles
  import opened Steps
  import opened Counting
  import opened Queues
  import opened Orders
  import Dispatcher
  import Runs
  import opened ByNumber

  predicate Answer(status: Status) {
    status == 121 || status == 140 || status == 141 || status == 161 || status == 165
  }

  /** What the last answer of a round turns into. */
  function RoundOver(o: Office, status: Status): Status {
    if status == 121 then 122
    else if status == 161 then 162
    else if status == 165 then 166
    else if status == 140 then 142
    else if o.metaQueue != [] then 174
    else if o.dataQueue == [] then 172
    else if |o.dataQueue| == 1 then 177
    else 178
  }

  /** The status of a message after all rewrites. */
  ghost function Resolved(o: Office, m: Input): Status {
    if Answer(m.status) && Full(o, m.sender) then RoundOver(o, m.status)
    else if (m.status == 170 && o.state == 19) || (m.status == 174 && o.state == 20) then 173
    else if m.status == 150 && o.state == 1 then 100
    else if (m.status == 300 || m.status == 304 || m.status == 320 || m.status == 324) && o.state == 2 then 301
    else if m.status == 200 && !m.more then 113
    else m.status
  }

  predicate TooLong(m: Input) {
    (m.status == 300 || m.status == 304 || m.status == 320 || m.status == 324) && |m.file.path| > 128
  }

  /** The record of a file that was deleted, or data without a record. */
  predicate Throws(o: Office, m: Input) {
    || (m.status == 130 && o.state == 17 && !o.notified && !o.written && m.file.deleted)
    || (m.status == 200 && o.current.None?)
  }

  /** How the step ends. */
  ghost function Ending(o: Office, m: Input): Outcome {
    if !Taken(m.status, o.state) then Done
    else if Throws(o, m) then Fault
    else if TooLong(m) || !Taken(Resolved(o, m), o.state) then Rejected
    else Done
  }

  ghost function NextState(o: Office, m: Input): State {
    if Taken(m.status, o.state) && Ending(o, m) == Done then Leads(Resolved(o, m), o.state) else o.state
  }

  function Cleared(replied: map<NodeId, bool>): map<NodeId, bool> { map n | n in replied :: false }

  // ---------- the status ----------

  lemma ReplyExact(o: Office, m: Input)
    requires Reply(m.status)
    ensures var a := OnReply(o, m);
            a.outcome == Done && a.status == if Full(o, m.sender) then RoundOver(o, m.status) else m.status
  {
    hide EventOf;
    var heard := o.replied[m.sender := true];
    if Full(o, m.sender) {
      assert forall n :: n in heard ==> heard[n];
    } else {
      var n :| n in o.replied && n != m.sender && !o.replied[n];
      assert n in heard && !heard[n];
    }
  }

  lemma HeardExact(o: Office, m: Input)
    requires EventOf(m.status) == ReceivedHeartbeat
    ensures var a := OnHeartbeat(o, m);
            && a.status == Resolved(o, m) && a.event == EventOf(a.status)
            && a.outcome == if Throws(o, m) then Fault else Done
  {
    KindsExactly(m.status);
    if Reply(m.status) { ReplyExact(o, m); }
    RecordOutcome(o, m);
    HeardSame(o, m);
    RecordStatus(o, m);
    hide EventOf, OnReply, OnNewFileRecord, OnMetadata, Full;
  }

  lemma RecordStatus(o: Office, m: Input)
    ensures OnNewFileRecord(o, m).status == m.status
    ensures OnMetadata(o, m).status ==
            if (m.status == 170 && o.state == 19) || (m.status == 174 && o.state == 20) then 173 else m.status
  {
    hide EventOf, Opened, Sized, Applied;
  }

  lemma StampedSame(o: Office, m: Input)
    ensures Resolved(Timestamped(o, m), m) == Resolved(o, m) && Throws(Timestamped(o, m), m) == Throws(o, m)
  {
    StampedFlags(o, m);
    hide Int16, Full;
  }

  lemma HeartbeatSettled(o: Office, m: Input)
    requires Honest(m) && Stocked(o) && Taken(m.status, o.state) && EventOf(m.status) == ReceivedHeartbeat
    ensures var a := Settled(o, m);
            a.outcome == Ending(o, m) && a.status == Resolved(o, m)
  {
    hide CheckEvent, EventOf, OnHeartbeat, Timestamped, Honest, Taken, OnQuorum, Throws, Resolved;
    TakenExactly(m.status, o.state);
    TakenExactly(Resolved(o, m), o.state);
    HeardExact(Timestamped(o, m), m);
    HeardSame(Timestamped(o, m), m);
    StampedSame(o, m);
    var a := Entered(o, m);
    assert a == Rechecked(OnHeartbeat(Timestamped(o, m), m), m.status);
    HeartbeatEvent(Timestamped(o, m), m);
    QuorumFlags(a, m);
    HeardConsistent(o, m);
    QuorumConsistent(o.state, a, m);
    QuorumKept(a, m);
    QuorumStocked(o, m);
    NoFileEvent(o, m);
  }

  lemma NoFileEvent(o: Office, m: Input)
    requires EventOf(m.status) == ReceivedHeartbeat
    ensures !TooLong(m) && (Throws(o, m) <==> NoSuchFile(o, m))
  {
    KindsExactly(m.status);
  }

  lemma QuorumKept(a: Mid, m: Input)
    ensures OnQuorum(a, m).outcome == Fault || OnQuorum(a, m).outcome == a.outcome
    ensures OnQuorum(a, m).event == a.event
  {
    hide StartTime;
  }

  /** A file event reaches the queues as it came, and nothing after that touches it. */
  lemma FilePath(o: Office, m: Input)
    requires FileEvent(m.status)
    ensures Settled(o, m) == OnLocalFile(Plain(o, m.status), m)
  {
    PlainEntry(o, m);
    FileEvents(m.status);
    FileEvents(S301);
    hide Entered, OnQuorum, EventOf, OnData;
    var a := Plain(o, m.status);
    LocalStatus(a, m);
    LocalEvent(a, m);
    DataFlags(OnLocalFile(a, m), m);
    hide OnLocalFile;
  }

  lemma LocalEvent(a: Mid, m: Input)
    requires a.event == EventOf(a.status)
    ensures var q := OnLocalFile(a, m); q.event == EventOf(q.status)
  {
    hide EventOf;
  }

  /** Too long a path is refused; otherwise the flags go, and while a new file is announced the status changes. */
  lemma LocalExact(a: Mid, m: Input)
    requires a.outcome == Done && LocalFileEvent(a.event)
    ensures var q := OnLocalFile(a, m);
            if |m.file.path| > 128 then q.outcome == Rejected && q.office == a.office
            else
              && q.outcome == Done && q.office.replied == Cleared(a.office.replied)
              && q.status == if a.office.state == 2 then 301 else a.status
  {
    hide EventOf, Cleared;
    assert ResetReplied(a.office).replied == Cleared(a.office.replied) by { ClearedBy(a.office); }
    hide ResetReplied;
    ResetFields(a.office);
  }

  lemma ClearedBy(o: Office)
    ensures ResetReplied(o).replied == Cleared(o.replied)
  {
  }

  lemma ResetFields(o: Office)
    ensures ResetReplied(o) == o.(replied := ResetReplied(o).replied)
  {
  }

  lemma FileSettled(o: Office, m: Input)
    requires FileEvent(m.status) && Taken(m.status, o.state)
    ensures var a := Settled(o, m);
            a.outcome == Ending(o, m) && (a.outcome == Done ==> a.status == Resolved(o, m))
  {
    assert Taken(301, 2);
    hide Settled, OnLocalFile, EventOf, Taken;
    FilePath(o, m);
    FileEvents(m.status);
    LocalExact(Plain(o, m.status), m);
    hide Full;
  }

  lemma DataSettled(o: Office, m: Input)
    requires m.status == S200 && Taken(m.status, o.state)
    ensures var a := Settled(o, m);
            a.outcome == Ending(o, m) && (a.outcome == Done ==> a.status == Resolved(o, m))
  {
    DataEntry(o, m);
    TakenExactly(113, o.state);
    FileEvents(S200);
    hide Entered, OnQuorum, OnLocalFile, EventOf, CheckEvent, Received;
  }

  lemma TickSettled(o: Office, m: Input)
    requires m.status == S132 || m.status == S156 || m.status == S210 || m.status == S500
    ensures Settled(o, m) == Plain(o, m.status)
    ensures Resolved(o, m) == m.status && !TooLong(m) && !Throws(o, m)
  {
    hide CheckEvent;
  }

  lemma SettledExact(o: Office, m: Input)
    requires Honest(m) && Stocked(o) && Taken(m.status, o.state)
    ensures var a := Settled(o, m);
            a.outcome == Ending(o, m) && (a.outcome == Done ==> a.status == Resolved(o, m))
  {
    hide Settled, Taken, Stocked, Resolved;
    if EventOf(m.status) == ReceivedHeartbeat {
      HeartbeatSettled(o, m);
    } else if FileEvent(m.status) {
      FileSettled(o, m);
    } else if m.status == S200 {
      DataSettled(o, m);
    } else {
      TickSettled(o, m);
    }
  }

  // ---------- the step ----------

  /**
   * Every step with an honest message, in a node that has what it announces (as it does in every
   * run): how it ends, where it leads, and what it advertises.
   */
  lemma StepExact(o: Office, m: Input)
    requires Honest(m) && Stocked(o)
    ensures var r, t := Process(o, m), NextState(o, m);
            && r.outcome == Ending(o, m) && r.office.state == t
            && |r.beats| == (if (t != o.state && t != 29) || (m.status == 150 && o.state == 1) then 1 else 0)
            && (r.beats != [] ==> r.beats[0].status == if t == o.state then 100 else Says(Resolved(o, m), o.state, t))
  {
    hide Process, Settled, Continue, CheckEvent, NewState, ActionOf, HeartbeatStatus, EventOf, Honest, Taken, Leads,
      Says, Resolved, Throws;
    ProcessSettles(o, m);
    TakenExactly(m.status, o.state);
    assert Taken(150, 1) by { TakenHere(); }
    if Taken(m.status, o.state) {
      var a := Settled(o, m);
      SettledExact(o, m);
      SettledConsistent(o, m);
      SettledBeats(o, m);
      FaultStep(o, m);
      FaultsAgree(o, m);
      if a.outcome == Done {
        TakenExactly(a.status, o.state);
        LeadsExactly(a.status, o.state);
        Carried(o.state, a, m);
        if m.status == 150 && o.state == 1 { Returned(o, m); }
      } else {
        Unmoved(a, m);
      }
    }
  }

  lemma TakenHere()
    ensures Taken(150, 1)
  {
  }

  lemma Returned(o: Office, m: Input)
    requires m.status == 150 && o.state == 1
    ensures Resolved(o, m) == 100 && Leads(100, 1) == 1
  {
  }

  lemma FaultsAgree(o: Office, m: Input)
    ensures Throws(o, m) <==> NoSuchFile(o, m) || (m.status == S200 && o.current.None?)
  {
  }

  lemma Unmoved(a: Mid, m: Input)
    requires a.outcome != Done
    ensures Continue(a, m) == Result(a.office, a.beats, a.orders, a.outcome)
  {
  }

  lemma MoveRow(status: Status, s: State)
    requires Taken(status, s) && Leads(status, s) != s
    ensures var e := EventOf(status);
            if Leads(status, s) == 29 then ActionOf(s, e, status) != SendHeartbeat
            else ActionOf(s, e, status) == SendHeartbeat
                 && HeartbeatStatus(s, e, status) == Says(status, s, Leads(status, s))
  {
    hide Taken, Leads, Says, ActionOf, HeartbeatStatus, EventOf, Acts;
    MoveActs(status, s);
    ActsExactly(status, s);
    if status != 500 { SaysExactly(status, s); }
  }

  /** The move along a row, with the heartbeat of that row. */
  lemma Carried(s: State, a: Mid, m: Input)
    requires Consistent(s, a) && a.outcome == Done && Taken(a.status, s)
    ensures var r, t := Continue(a, m), Leads(a.status, s);
            && r.outcome != Rejected
            && (r.outcome == Done ==>
                  && r.office.state == t
                  && (if t == s || t == 29 then r.beats == a.beats
                      else |r.beats| == |a.beats| + 1 && r.beats[|a.beats|].status == Says(a.status, s, t)))
  {
    hide CheckEvent, NewState, ActionOf, HeartbeatStatus, EventOf, Taken, Leads, Says, Prepare;
    LeadsExactly(a.status, s);
    var to, h := NewState(s, a.event, a.status), HeartbeatStatus(s, a.event, a.status);
    if to != s { MoveRow(a.status, s); }
    PreparedBeat(a.office, m, h, to);
  }

  // ---------- the reply flags ----------

  /** The flags after a step: an answer sets one or, as the last one, clears all; a local file clears all. */
  ghost function Flags(o: Office, m: Input): map<NodeId, bool> {
    if !Taken(m.status, o.state) then o.replied
    else if Answer(m.status) then
      if Full(o, m.sender) then Cleared(o.replied[m.sender := false]) else o.replied[m.sender := true]
    else if m.status == 300 || m.status == 304 || m.status == 320 || m.status == 324 then
      if |m.file.path| > 128 then o.replied else Cleared(o.replied)
    else if m.status == 132 || m.status == 156 || m.status == 200 || m.status == 210 || m.status == 500 then o.replied
    else if m.sender in o.replied then o.replied
    else o.replied[m.sender := false]
  }

  /** The flags once this answer is noted, and whether it was the last one. */
  lemma AnswerHeard(o: Office, m: Input)
    ensures Timestamped(o, m).replied[m.sender := true] == o.replied[m.sender := true]
    ensures var heard := o.replied[m.sender := true];
            && (forall n <- heard :: heard[n]) == Full(o, m.sender)
            && Cleared(heard) == Cleared(o.replied[m.sender := false])
  {
    hide Int16;
    var heard := o.replied[m.sender := true];
    if Full(o, m.sender) {
      assert forall n :: n in heard ==> heard[n];
    } else {
      var n :| n in o.replied && n != m.sender && !o.replied[n];
      assert n in heard && !heard[n];
    }
    assert heard.Keys == o.replied[m.sender := false].Keys;
  }

  lemma NotedFlags(o: Office, m: Input)
    ensures var heard := o.replied[m.sender := true];
            OnReply(o, m).office.replied == if forall n <- heard :: heard[n] then Cleared(heard) else heard
  {
    hide EventOf, Concluded;
  }

  lemma AnswerFlags(o: Office, m: Input)
    requires Answer(m.status)
    ensures OnHeartbeat(Timestamped(o, m), m).office.replied ==
            if Full(o, m.sender) then Cleared(o.replied[m.sender := false]) else o.replied[m.sender := true]
  {
    hide OnReply, Timestamped, Cleared, Full;
    AnswerHeard(o, m);
    NotedFlags(Timestamped(o, m), m);
  }

  lemma HeartbeatFlags(o: Office, m: Input)
    requires Taken(m.status, o.state) && EventOf(m.status) == ReceivedHeartbeat
    ensures Settled(o, m).office.replied == Flags(o, m)
  {
    KindsExactly(m.status);
    TakenExactly(m.status, o.state);
    hide CheckEvent, EventOf, OnQuorum, OnLocalFile, OnData, Full, Taken, Cleared;
    HeartbeatEvent(Timestamped(o, m), m);
    HeardConsistent(o, m);
    var a := Entered(o, m);
    QuorumFlags(a, m);
    QuorumConsistent(o.state, a, m);
    QuorumKept(a, m);
    LocalFlags(OnQuorum(a, m), m);
    DataFlags(OnLocalFile(OnQuorum(a, m), m), m);
    if Answer(m.status) { AnswerFlags(o, m); } else { HeardFlags(Timestamped(o, m), m); }
    hide OnHeartbeat, Int16;
  }

  lemma FileFlags(o: Office, m: Input)
    requires FileEvent(m.status) && Taken(m.status, o.state)
    ensures Settled(o, m).office.replied == Flags(o, m)
  {
    hide Settled, OnLocalFile, EventOf, Taken, Cleared;
    FilePath(o, m);
    FileEvents(m.status);
    LocalExact(Plain(o, m.status), m);
  }

  lemma DataKeepsFlags(o: Office, m: Input)
    requires m.status == S200
    ensures Settled(o, m).office.replied == o.replied
  {
    DataEntry(o, m);
    hide Entered, OnQuorum, OnLocalFile, OnData;
    DataFlags(Plain(o, S200), m);
  }

  lemma FlagsExact(o: Office, m: Input)
    requires Honest(m)
    ensures Process(o, m).office.replied == Flags(o, m)
  {
    TakenExactly(m.status, o.state);
    KindsExactly(m.status);
    hide Process, Settled, Continue, CheckEvent, EventOf, Taken, Full, Cleared;
    ProcessSettles(o, m);
    if Taken(m.status, o.state) {
      ContinueKeys(Settled(o, m), m);
      if EventOf(m.status) == ReceivedHeartbeat {
        HeartbeatFlags(o, m);
      } else if FileEvent(m.status) {
        FileFlags(o, m);
      } else if m.status == S200 {
        DataKeepsFlags(o, m);
      } else {
        TickSettled(o, m);
      }
    }
  }

  // ---------- what is told to the dispatcher ----------

  /** What a step gives to the dispatcher. */
  ghost function OrdersDue(o: Office, m: Input): seq<Order> {
    if !Taken(m.status, o.state) || Throws(o, m) then []
    else if m.status == 155 then if o.stopSent then [] else [Order.Stop(m.deadline)]
    else if m.status == 130 then if o.state == 17 && !o.notified then [Pretend(m.deadline)] else []
    else if !Answer(m.status) || !Full(o, m.sender) || !Taken(RoundOver(o, m.status), o.state) then []
    else if RoundOver(o, m.status) == 122 || RoundOver(o, m.status) == 177 then
      if o.dataQueue == [] then [] else [Send(RoundOver(o, m.status), StartTime(Timestamped(o, m), m), o.dataQueue[0])]
    else if RoundOver(o, m.status) == 142 && o.state == 10 && !o.stopSent then
      [Order.Stop((m.now + m.random % 1000 + 1000) % 0x1_0000_0000_0000_0000)]
    else []
  }

  lemma HeardOrders(o: Office, m: Input)
    requires EventOf(m.status) == ReceivedHeartbeat
    ensures var a := OnHeartbeat(o, m);
            a.orders == if Throws(o, m) then []
                        else if m.status == 155 then if o.stopSent then [] else [Order.Stop(m.deadline)]
                        else if m.status == 130 && o.state == 17 && !o.notified then [Pretend(m.deadline)]
                        else []
    ensures m.status != 100 ==> OnHeartbeat(o, m).office.stopSent == (o.stopSent || m.status == 155)
  {
    MetadataFrame(o, m);
    NewFileFrame(o, m);
    RecordOrders(o, m);
    KindsExactly(m.status);
    hide EventOf, OnNewFileRecord, OnMetadata, Concluded;
  }

  lemma RecordOrders(o: Office, m: Input)
    ensures OnNewFileRecord(o, m).orders == if !o.written && m.file.deleted then [] else [Pretend(m.deadline)]
    ensures OnMetadata(o, m).orders == []
  {
    hide EventOf, Opened, Sized, Applied;
  }

  /** The orders before the state changes: those of the heartbeat, then the start of a transfer. */
  lemma HeartbeatOrders(o: Office, m: Input)
    requires Honest(m) && Stocked(o) && Taken(m.status, o.state) && EventOf(m.status) == ReceivedHeartbeat
    requires Ending(o, m) == Done
    ensures var a, x := Settled(o, m), Resolved(o, m);
            && a.orders == (if x == 122 || x == 177
                            then [Send(x, StartTime(Timestamped(o, m), m), o.dataQueue[0])]
                            else OnHeartbeat(Timestamped(o, m), m).orders)
            && (x == 122 || x == 177 ==> o.dataQueue != [] && Answer(m.status) && Full(o, m.sender))
            && a.office.stopSent == OnHeartbeat(Timestamped(o, m), m).office.stopSent
  {
    TakenExactly(m.status, o.state);
    hide CheckEvent, EventOf, OnHeartbeat, Timestamped, Honest, Taken, OnQuorum, OnLocalFile, OnData,
      Throws, Full, StartTime;
    HeartbeatSettled(o, m);
    HeartbeatEvent(Timestamped(o, m), m);
    HeardExact(Timestamped(o, m), m);
    HeardSame(Timestamped(o, m), m);
    StampedSame(o, m);
    var h := OnHeartbeat(Timestamped(o, m), m);
    var a := Entered(o, m);
    HeardConsistent(o, m);
    QuorumConsistent(o.state, a, m);
    StartNotice(a, m);
    QuorumFlags(a, m);
    QuorumKept(a, m);
    Dispatcher.QuorumStart(a, m);
    Dispatcher.SkewKept(Timestamped(o, m), m);
    Dispatcher.SameSkew(a.office, Timestamped(o, m), m);
    LocalNotices(OnQuorum(a, m), m);
    LocalFlags(OnQuorum(a, m), m);
    DataNotices(OnLocalFile(OnQuorum(a, m), m), m);
    if Resolved(o, m) == 122 || Resolved(o, m) == 177 {
      StatusSource(o, m);
      EnteredNotices(o, m);
      QuorumStocked(o, m);
      NoFileEvent(o, m);
      QuorumOutcome(a, m);
      TakenExactly(Resolved(o, m), o.state);
    }
  }

  lemma StatusSource(o: Office, m: Input)
    requires Honest(m) && (Resolved(o, m) == 122 || Resolved(o, m) == 177)
    ensures Answer(m.status) && Full(o, m.sender)
  {
    HonestStatus(m);
    hide Honest, Full;
  }

  lemma FileOrders(o: Office, m: Input)
    requires Taken(m.status, o.state) && EventOf(m.status) != ReceivedHeartbeat && Honest(m)
    ensures Settled(o, m).orders == []
  {
    FileEvents(m.status);
    hide CheckEvent, EventOf, OnLocalFile, OnData, Taken;
    var a := Entered(o, m);
    LocalNotices(OnQuorum(a, m), m);
    DataNotices(OnLocalFile(OnQuorum(a, m), m), m);
    HonestStatus(m);
    StartNotice(Plain(o, m.status), m);
  }

  /** The stop phase is entered by 142 and by 155. */
  lemma StopRows(status: Status, s: State)
    requires Taken(status, s)
    ensures Leads(status, s) == 28 && s != 28 <==> (status == 142 && s == 10) || (status == 155 && s == 24)
  {
  }

  lemma StopDue(m: Input)
    ensures StopTime(m) == (m.now + m.random % 1000 + 1000) % 0x1_0000_0000_0000_0000
  {
  }

  lemma StampedFields(o: Office, m: Input)
    ensures var t := Timestamped(o, m);
            t.state == o.state && t.notified == o.notified && t.stopSent == o.stopSent && t.dataQueue == o.dataQueue
  {
    hide Int16;
  }

  /** The dispatcher is told exactly what is due. */
  lemma OrdersExact(o: Office, m: Input)
    requires Honest(m) && Stocked(o)
    ensures Process(o, m).outcome == Done ==> Process(o, m).orders == OrdersDue(o, m)
  {
    hide Process, Settled, Continue, CheckEvent, NewState, EventOf, Honest, Taken, Leads, StopTime, StartTime,
      OnHeartbeat, Timestamped, Throws, Full;
    ProcessSettles(o, m);
    StepExact(o, m);
    TakenExactly(m.status, o.state);
    if Taken(m.status, o.state) && Ending(o, m) == Done {
      var a := Settled(o, m);
      SettledExact(o, m);
      SettledConsistent(o, m);
      ContinuedOrders(o.state, a, m);
      LeadsExactly(a.status, o.state);
      StopRows(a.status, o.state);
      StopDue(m);
      HonestStatus(m);
      if EventOf(m.status) == ReceivedHeartbeat {
        HeartbeatOrders(o, m);
        HeardOrders(Timestamped(o, m), m);
        StampedSame(o, m);
        StampedFields(o, m);
      } else {
        FileOrders(o, m);
        NotAnswer(m.status);
      }
    }
  }

  lemma NotAnswer(status: Status)
    requires EventOf(status) != ReceivedHeartbeat
    ensures !Answer(status) && status != 155 && status != 130
  {
    KindsExactly(status);
  }

  // ---------- what a heartbeat carries ----------

  /** The file and the deadline that go with what a step advertises. */
  ghost predicate Carries(o: Office, m: Input, t: State, deadline: nat, b: Beat) {
    if t != o.state && (t == 6 || t == 7) then
      o.dataQueue != [] && b.file == Some(o.dataQueue[0]) && b.deadline == Some(deadline)
    else if t != o.state && (t == 8 || t == 9) then
      o.metaQueue != [] && b.file == Some(o.metaQueue[0]) && b.deadline == None
    else if t != o.state && t == 28 && m.status != 155 && !o.stopSent then
      b.file == None && b.deadline == Some((m.now + m.random % 1000 + 1000) % 0x1_0000_0000_0000_0000)
    else b.file == None && b.deadline == None
  }

  lemma PreparedExact(o: Office, m: Input, status: Status, t: State)
    ensures var r := Prepare(o, m, status, t);
            r.outcome == Done ==>
              && |r.beats| == 1
              && (if t == 6 || t == 7 then
                    && o.dataQueue != [] && r.beats[0].file == Some(o.dataQueue[0])
                    && r.beats[0].deadline == Some(r.office.deadline)
                  else if t == 8 || t == 9 then
                    o.metaQueue != [] && r.beats[0].file == Some(o.metaQueue[0]) && r.beats[0].deadline == None
                  else if t == 28 && !o.stopSent then
                    r.beats[0].file == None && r.beats[0].deadline == Some(StopTime(m))
                  else r.beats[0].file == None && r.beats[0].deadline == None)
  {
    hide StopTime;
  }

  /** No file event leads to a sending phase, and none but 142 and 155 to the stop phase. */
  lemma PhaseRows(o: Office, m: Input, x: Status)
    requires Honest(m) && Taken(x, o.state) && Leads(x, o.state) != o.state
    requires x == Resolved(o, m)
    ensures x != 301
    ensures Leads(x, o.state) == 28 ==> m.status == 155 || (m.status == 140 && x == 142)
    ensures 6 <= Leads(x, o.state) <= 9 ==> !FileEvent(m.status)
  {
    HonestStatus(m);
    hide Honest, Full;
  }

  lemma StopKept(o: Office, m: Input)
    requires Honest(m) && Stocked(o) && Taken(m.status, o.state) && Ending(o, m) == Done
    requires m.status == 140 || m.status == 155
    ensures Settled(o, m).office.stopSent == (o.stopSent || m.status == 155)
  {
    KindsExactly(m.status);
    hide Settled, OnHeartbeat, Timestamped, Honest, Taken, Stocked, EventOf;
    HeartbeatOrders(o, m);
    HeardOrders(Timestamped(o, m), m);
    StampedFields(o, m);
  }

  lemma BeatExact(o: Office, m: Input)
    requires Honest(m) && Stocked(o)
    ensures var r := Process(o, m);
            r.outcome == Done ==> forall b :: b in r.beats ==> Carries(o, m, r.office.state, r.office.deadline, b)
  {
    hide Process, Settled, Continue, CheckEvent, NewState, EventOf, Honest, Taken, Leads, StopTime, Prepare, ActionOf,
      HeartbeatStatus, Resolved, Ending;
    ProcessSettles(o, m);
    StepExact(o, m);
    TakenExactly(m.status, o.state);
    if Taken(m.status, o.state) && Ending(o, m) == Done {
      var a, s := Settled(o, m), o.state;
      SettledExact(o, m);
      SettledConsistent(o, m);
      SettledQueues(o, m);
      SettledBeats(o, m);
      ConsistentRow(s, a);
      TakenExactly(a.status, s);
      LeadsExactly(a.status, s);
      var t := Leads(a.status, s);
      if t != s {
        PhaseRows(o, m, a.status);
        MoveRow(a.status, s);
        var h := HeartbeatStatus(s, a.event, a.status);
        PreparedExact(a.office, m, h, t);
        Performs(s, a, m, h, t);
        StopDue(m);
        if m.status == 150 && s == 1 { ReturnKept(o, m); }
        if t == 28 { StopKept(o, m); }
      } else {
        Stays(s, a, m);
      }
    }
  }

  lemma Stays(s: State, a: Mid, m: Input)
    requires Consistent(s, a) && a.outcome == Done && NewState(s, a.event, a.status) == s
    ensures Continue(a, m).beats == a.beats
  {
    hide Prepare;
  }

  lemma Performs(s: State, a: Mid, m: Input, h: Status, t: State)
    requires Consistent(s, a) && a.outcome == Done && NewState(s, a.event, a.status) == t != s
    requires h == HeartbeatStatus(s, a.event, a.status)
    ensures var p, r := Prepare(a.office, m, h, t), Continue(a, m);
            if ActionOf(s, a.event, a.status) != SendHeartbeat then r.beats == a.beats
            else r.outcome == p.outcome && r.beats == a.beats + p.beats && r.office.deadline == p.office.deadline
  {
    hide CheckEvent, NewState, ActionOf, HeartbeatStatus, EventOf, Prepare;
  }

  // ---------- what is noted ----------

  /** Whether the dispatcher counts as told of the new file. */
  predicate Notified(o: Office, m: Input) {
    if m.status == 120 || m.status == 124 || (m.status == 174 && o.state == 20) then false
    else o.notified || (m.status == 130 && o.state == 17)
  }

  /** Whether a record counts as written. */
  ghost predicate Noted(o: Office, m: Input) {
    if m.status == 160 || (m.status == 170 && o.state == 19) || (m.status == 121 && Full(o, m.sender)) then false
    else
      || o.written
      || (m.status == 130 && o.state == 17 && !o.notified)
      || (m.status == 174 && o.state == 20 && !m.file.deleted)
  }

  /** The record that is kept. */
  function Held(o: Office, m: Input): Option<Record> {
    if (m.status == 130 && o.state == 17 && !o.notified) || (m.status == 174 && o.state == 20) then Some(m.file)
    else if m.status == 200 then None
    else o.current
  }

  lemma RecordNotes(o: Office, m: Input)
    ensures var a := OnNewFileRecord(o, m);
            || (!o.written && m.file.deleted)
            || (a.office.notified && a.office.written && a.office.current == Some(m.file))
    ensures var p := OnMetadata(o, m).office;
            && p.notified == (o.notified && !(m.status == 174 && o.state == 20))
            && p.current == (if m.status == 174 && o.state == 20 then Some(m.file) else o.current)
            && (m.status == 170 && o.state == 19 ==> !p.written)
            && (m.status == 174 && o.state == 20 ==> p.written == (o.written || !m.file.deleted))
            && ((m.status == 170 && o.state != 19) || (m.status == 174 && o.state != 20) ==> p.written == o.written)
  {
    hide Opened, Sized, EventOf;
  }

  lemma ReplyNotes(o: Office, m: Input)
    ensures var p := OnReply(o, m).office;
            && p.notified == o.notified && p.current == o.current
            && p.written == (o.written && !(m.status == 121 && Full(o, m.sender)))
  {
    var heard := o.replied[m.sender := true];
    if Full(o, m.sender) {
      assert forall n :: n in heard ==> heard[n];
    } else {
      var n :| n in o.replied && n != m.sender && !o.replied[n];
      assert n in heard && !heard[n];
    }
    hide EventOf, Concluded;
  }

  lemma HeardNotes(o: Office, m: Input)
    requires EventOf(m.status) == ReceivedHeartbeat && !Throws(o, m)
    ensures var p := OnHeartbeat(o, m).office;
            p.notified == Notified(o, m) && p.written == Noted(o, m) && p.current == Held(o, m)
  {
    KindsExactly(m.status);
    RecordNotes(o, m);
    ReplyNotes(o, m);
    hide EventOf, OnNewFileRecord, OnMetadata, OnReply, Full;
  }

  /** What the stages after the heartbeat leave alone, and the skew. */
  predicate SameNotes(o: Office, p: Office) {
    p.notified == o.notified && p.written == o.written && p.skew == o.skew
  }

  lemma LaterNotes(a: Mid, m: Input)
    ensures SameNotes(a.office, OnQuorum(a, m).office) && OnQuorum(a, m).office.current == a.office.current
  {
    hide OnQuorum;
    QuorumFrame(a, m);
  }

  lemma LocalNotes(a: Mid, m: Input)
    ensures SameNotes(a.office, OnLocalFile(a, m).office) && OnLocalFile(a, m).office.current == a.office.current
  {
    hide EventOf;
  }

  lemma DataNotes(a: Mid, m: Input)
    requires a.outcome == Done
    ensures var p := OnData(a, m).office;
            && SameNotes(a.office, p)
            && p.current == if a.event == ReceivedFileData then None else a.office.current
  {
    hide EventOf, CheckEvent, Received;
  }

  lemma PreparedNotes(o: Office, m: Input, status: Status, t: State)
    ensures var r := Prepare(o, m, status, t);
            && SameNotes(o, r.office)
            && r.office.current == if r.outcome == Done && 6 <= t <= 9 then r.beats[0].file else o.current
  {
    hide StopTime;
  }

  lemma ContinuedNotes(s: State, a: Mid, m: Input)
    requires Consistent(s, a) && a.outcome == Done
    ensures var r := Continue(a, m);
            && SameNotes(a.office, r.office)
            && (r.outcome == Done ==>
                  r.office.current == if r.office.state != s && 6 <= r.office.state <= 9 && |r.beats| == |a.beats| + 1
                                      then r.beats[|a.beats|].file else a.office.current)
  {
    hide CheckEvent, NewState, ActionOf, HeartbeatStatus, EventOf, Prepare;
    var to := NewState(s, a.event, a.status);
    PreparedNotes(a.office, m, HeartbeatStatus(s, a.event, a.status), to);
    PreparedBeat(a.office, m, HeartbeatStatus(s, a.event, a.status), to);
    if to != s { AdvertRow(s, a.status); }
    hide Fits;
  }

  lemma EnteredNotes(o: Office, m: Input)
    requires Honest(m) && Taken(m.status, o.state) && !Throws(o, m)
    ensures var p := Entered(o, m).office;
            if EventOf(m.status) == ReceivedHeartbeat then
              && p.notified == Notified(o, m) && p.written == Noted(o, m) && p.current == Held(o, m)
              && p.skew == Timestamped(o, m).skew
            else p == o
  {
    hide CheckEvent, EventOf, OnHeartbeat, Timestamped, Honest, Taken, Throws, Noted, Notified, Held;
    StampedSame(o, m);
    StampedNotes(o, m);
    if EventOf(m.status) == ReceivedHeartbeat {
      HeardNotes(Timestamped(o, m), m);
      Dispatcher.SkewKept(Timestamped(o, m), m);
    }
  }

  lemma StampedNotes(o: Office, m: Input)
    ensures var t := Timestamped(o, m);
            Notified(t, m) == Notified(o, m) && Noted(t, m) == Noted(o, m) && Held(t, m) == Held(o, m)
  {
    StampedFlags(o, m);
    hide Int16, Full;
  }

  lemma PlainNotes(o: Office, m: Input)
    requires EventOf(m.status) != ReceivedHeartbeat && Honest(m)
    ensures Notified(o, m) == o.notified && Noted(o, m) == o.written
    ensures m.status != 200 ==> Held(o, m) == o.current
  {
    KindsExactly(m.status);
    hide Full;
  }

  /**
   * Every step that ends well: the two notes, the record that is kept (which is the file that goes out,
   * if one does), and the clock offset of the sender.
   */
  lemma NotesExact(o: Office, m: Input)
    requires Honest(m) && Stocked(o) && Taken(m.status, o.state) && Ending(o, m) == Done
    ensures var r := Process(o, m);
            var p := r.office;
            && p.notified == Notified(o, m) && p.written == Noted(o, m)
            && p.current == (if p.state != o.state && 6 <= p.state <= 9 && r.beats != [] then r.beats[0].file
                             else Held(o, m))
            && p.skew == if EventOf(m.status) == ReceivedHeartbeat then Timestamped(o, m).skew else o.skew
  {
    hide Process, Continue, Entered, OnQuorum, OnLocalFile, OnData, CheckEvent, EventOf, Timestamped, Honest, Taken,
      Throws, Noted, Notified, Held, Stocked, Resolved, Leads;
    StepExact(o, m);
    ProcessSettles(o, m);
    TakenExactly(m.status, o.state);
    SettledExact(o, m);
    SettledConsistent(o, m);
    SettledBeats(o, m);
    EnteredNotes(o, m);
    var a := Entered(o, m);
    var b := OnQuorum(a, m);
    var c := OnLocalFile(b, m);
    LaterNotes(a, m);
    LocalNotes(b, m);
    StillDone(c, m);
    DataNotes(c, m);
    ContinuedNotes(o.state, Settled(o, m), m);
    EventKept(o, m);
    if EventOf(m.status) != ReceivedHeartbeat { PlainNotes(o, m); }
    if m.status == 200 { DataHeld(o, m); }
    if m.status == 150 && o.state == 1 { Returned(o, m); }
  }

  lemma StillDone(c: Mid, m: Input)
    requires OnData(c, m).outcome == Done
    ensures c.outcome == Done
  {
    hide EventOf, CheckEvent, Received;
  }

  lemma DataHeld(o: Office, m: Input)
    requires m.status == 200
    ensures Held(o, m) == None && EventOf(m.status) != ReceivedHeartbeat
  {
  }

  /** Data stays data up to the stage that stores it, and nothing else becomes data. */
  lemma EventKept(o: Office, m: Input)
    requires Taken(m.status, o.state) && Honest(m)
    ensures OnLocalFile(OnQuorum(Entered(o, m), m), m).event == ReceivedFileData <==> m.status == 200
  {
    TakenExactly(m.status, o.state);
    if m.status == S200 {
      DataEntry(o, m);
      FileEvents(S200);
    } else {
      hide CheckEvent, EventOf, Taken, Honest, Entered, OnQuorum, OnLocalFile;
      var a := Entered(o, m);
      var b := OnQuorum(a, m);
      HeardConsistent(o, m);
      QuorumConsistent(o.state, a, m);
      LocalConsistent(o.state, b, m);
      EnteredStatus(o, m);
      QuorumFlags(a, m);
      LocalStatus(b, m);
      FileEvents(OnLocalFile(b, m).status);
    }
  }

  // ---------- timers ----------

  lemma HeardDeadline(o: Office, m: Input)
    ensures OnHeartbeat(o, m).office.deadline == o.deadline
  {
    MetadataFrame(o, m);
    NewFileFrame(o, m);
    hide EventOf, OnNewFileRecord, OnMetadata, Concluded;
  }

  lemma QuorumDeadline(a: Mid, m: Input)
    ensures var q := OnQuorum(a, m);
            q.office.deadline == if |q.orders| > |a.orders| then StartTime(a.office, m) else a.office.deadline
  {
    hide StartTime;
  }

  lemma PreparedDeadline(o: Office, m: Input, status: Status, t: State)
    ensures Prepare(o, m, status, t).office.deadline == if t == 28 && !o.stopSent then StopTime(m) else o.deadline
  {
    hide StopTime;
  }

  lemma ContinuedDeadline(s: State, a: Mid, m: Input)
    requires Consistent(s, a) && a.outcome == Done
    ensures var t := NewState(s, a.event, a.status);
            Continue(a, m).office.deadline ==
            if t == 28 != s && !a.office.stopSent then StopTime(m) else a.office.deadline
  {
    hide CheckEvent, NewState, ActionOf, HeartbeatStatus, EventOf, Prepare, StopTime, Fits;
    var to := NewState(s, a.event, a.status);
    PreparedDeadline(a.office, m, HeartbeatStatus(s, a.event, a.status), to);
    if to != s { AdvertRow(s, a.status); }
  }

  lemma StampedDeadline(o: Office, m: Input)
    ensures Timestamped(o, m).deadline == o.deadline
  {
    hide Int16;
  }

  lemma SettledDeadline(o: Office, m: Input)
    requires Honest(m) && Stocked(o) && Taken(m.status, o.state) && Ending(o, m) == Done
    ensures var a := Settled(o, m);
            a.office.deadline == if a.orders != [] && a.orders[0].Send? then a.orders[0].start else o.deadline
  {
    hide CheckEvent, EventOf, OnHeartbeat, Timestamped, Honest, Taken, OnQuorum, OnLocalFile, OnData, Throws, Full,
      StartTime, Stocked, Resolved;
    TakenExactly(m.status, o.state);
    HeardDeadline(Timestamped(o, m), m);
    StampedDeadline(o, m);
    EnteredNotices(o, m);
    var a := Entered(o, m);
    HeardConsistent(o, m);
    StartNotice(a, m);
    QuorumDeadline(a, m);
    QuorumFlags(a, m);
    LocalNotices(OnQuorum(a, m), m);
    DataNotices(OnLocalFile(OnQuorum(a, m), m), m);
  }

  lemma SettledStop(o: Office, m: Input)
    requires Honest(m) && Stocked(o) && Taken(m.status, o.state) && Ending(o, m) == Done && m.status != 100
    ensures Settled(o, m).office.stopSent == (o.stopSent || m.status == 155)
  {
    KindsExactly(m.status);
    hide OnHeartbeat, Timestamped, Honest, Taken, Stocked, EventOf, OnQuorum, OnLocalFile, OnData, Throws, Resolved;
    if EventOf(m.status) == ReceivedHeartbeat {
      HeartbeatOrders(o, m);
      HeardOrders(Timestamped(o, m), m);
      StampedFields(o, m);
    } else {
      StartNotice(Plain(o, m.status), m);
      LocalNotices(OnQuorum(Plain(o, m.status), m), m);
      DataNotices(OnLocalFile(OnQuorum(Plain(o, m.status), m), m), m);
    }
  }

  /** Whether a stop was given, and the time kept for the next heartbeat that carries one. */
  lemma TimersExact(o: Office, m: Input)
    requires Honest(m) && Stocked(o) && Taken(m.status, o.state) && Ending(o, m) == Done
    ensures var p, due := Process(o, m).office, OrdersDue(o, m);
            && p.stopSent == (if m.status == 100 then false
                              else o.stopSent || m.status == 155 || (p.state == 28 && o.state != 28))
            && p.deadline == (if due != [] && due[0].Send? then due[0].start
                              else if due != [] && due[0].Stop? && m.status != 155 then due[0].end
                              else o.deadline)
  {
    hide Process, Settled, Continue, CheckEvent, NewState, EventOf, Honest, Taken, Leads, StopTime, Throws, Stocked,
      Resolved, OrdersDue;
    StepExact(o, m);
    OrdersExact(o, m);
    ProcessSettles(o, m);
    TakenExactly(m.status, o.state);
    SettledExact(o, m);
    SettledConsistent(o, m);
    SettledDeadline(o, m);
    var a := Settled(o, m);
    ContinuedOrders(o.state, a, m);
    ContinuedDeadline(o.state, a, m);
    LeadsExactly(a.status, o.state);
    if m.status == 100 { IdleRow(o, m); ClearStep(o, m); } else { SettledStop(o, m); }
    SettledOrders(o, m);
    OrderStep(o, m);
    StopCause(o, m, a.status);
  }

  lemma StopCause(o: Office, m: Input, x: Status)
    requires Honest(m) && Taken(x, o.state) && x == Resolved(o, m)
    ensures Leads(x, o.state) == 28 && o.state != 28 ==> m.status == 140 || m.status == 155
  {
    StopRows(x, o.state);
    HonestStatus(m);
    hide Honest, Full;
  }

  // ---------- over runs ----------

  /** In every run, every step is exactly this. */
  lemma RunExact(start: Office, ms: seq<Input>, rs: seq<Result>, k: nat)
    requires Runs.HonestTrace(start, ms, rs) && k < |rs| == |ms|
    ensures var o, m, r := Runs.Before(start, rs, k), ms[k], rs[k];
            && r.outcome == Ending(o, m) && r.office.state == NextState(o, m) && r.office.replied == Flags(o, m)
            && (r.outcome == Done ==>
                  && r.orders == OrdersDue(o, m)
                  && (forall b :: b in r.beats ==> Carries(o, m, r.office.state, r.office.deadline, b))
                  && (Taken(m.status, o.state) ==>
                        r.office.notified == Notified(o, m) && r.office.written == Noted(o, m)))
  {
    hide Process, Runs.Trace, Honest, Stocked, Ending, NextState, Flags, OrdersDue, Carries, Taken, Notified, Noted;
    Runs.StockedRun(start, ms, rs, k);
    Runs.StepOf(start, ms, rs, k);
    var o, m := Runs.Before(start, rs, k), ms[k];
    StepExact(o, m);
    FlagsExact(o, m);
    OrdersExact(o, m);
    BeatExact(o, m);
    if Taken(m.status, o.state) && Ending(o, m) == Done { NotesExact(o, m); }
  }
}
