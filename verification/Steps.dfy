/**
 * What one step can do, whatever the state of the node and whatever message it gets:
 * which rows of the table it takes, and what it advertises.
 */
module Steps {
  import opened Fsm
  import opened Boxoffice
  import opened Stages

  /** States of a node that announces and sends, and of one that acknowledges and receives. */
  predicate Sender(s: State) { AnnouncingNewFile <= s <= SendingNewFileWithMoreBeta }
  predicate Receiver(s: State) { AcknowledgingNewFile <= s <= BroadcastingAllMetadataReceived }

  predicate MetadataState(s: State) {
    || s == SendingNewFileMetadata || s == SendingNewFileMetadataWithMore
    || s == PromotingNewFileMetadata || s == PromotingNewFileMetadataWithMore
  }

  predicate DataState(s: State) {
    || SendingNewFile <= s <= SendingNewFileWithMoreBeta
    || SendingFakeFile <= s <= BroadcastingAllReceivedWithMoreBeta
  }

  /** The row (s, status) is in the table and leads to t. */
  predicate Row(s: State, status: Status, t: State) {
    CheckEvent(s, EventOf(status), status) && NewState(s, EventOf(status), status) == t
  }

  // ---------- the table ----------

  /** Every accepted row leads to a proper state. */
  lemma StateDefined(s: State, status: Status)
    requires CheckEvent(s, EventOf(status), status)
    ensures NewState(s, EventOf(status), status) != NullState
  {
  }

  /** What a node advertises is a heartbeat to its peers. */
  lemma AdvertsAreHeartbeats(s: State, status: Status)
    requires CheckEvent(s, EventOf(status), status) && ActionOf(s, EventOf(status), status) == SendHeartbeat
    ensures EventOf(HeartbeatStatus(s, EventOf(status), status)) == ReceivedHeartbeat
  {
  }

  /**
   * The rows that pair a status with an event that is not its own, which are never taken: local
   * metadata changes while receiving, a node that only sends heartbeats, and the end of a
   * metadata round with more to come.
   */
  lemma DeadRows(s: State, e: Event, status: Status)
    ensures CheckEvent(s, e, status) && e != EventOf(status) <==>
            || (AcknowledgingFileMetadataChange <= s <= BroadcastingAllMetadataReceived
                && ((e == NewLocalFile && status == S320) || (e == NewLocalFileWithMore && status == S324)))
            || ((SendingNewFile <= s <= SendingNewFileWithMoreBeta
                 || SendingFakeFile <= s <= BroadcastingAllMetadataReceived)
                && e == NodeOnlySendsHeartbeats && status == S100)
            || (s == SendingFileMetadataChangeWithMore && e == AllNodesHaveAllFiles && status == S172)
  {
  }

  /** 410 is advertised only by a node that just received it. */
  lemma PassedOn(s: State, status: Status)
    requires CheckEvent(s, EventOf(status), status) && ActionOf(s, EventOf(status), status) == SendHeartbeat
    requires HeartbeatStatus(s, EventOf(status), status) == S410
    ensures status == S410
  {
  }

  /** Edges of the table, by role. */
  lemma RoleEdges(s: State, status: Status)
    requires CheckEvent(s, EventOf(status), status)
    ensures var t := NewState(s, EventOf(status), status);
            && (s == Exit ==> t == Exit)
            && (Sender(t) ==> Sender(s) || s == Ready)
            && (Receiver(t) ==> Receiver(s) || s == Ready)
            && (DataState(t) ==> (DataState(s) || MetadataState(s)) && (Sender(s) <==> Sender(t)))
            && (t == SyncingStop ==> s == SyncingStop || DataState(s))
  {
  }

  /** The statuses a node may be advertising in a state; none is fixed for the exit state. */
  predicate Fits(s: State, status: Status) {
    if s == Ready then status == S100 || status == S150 || status == S410
    else if s == AnnouncingNewFile then status == S120
    else if s == AnnouncingNewFileWithMore then status == S124
    else if s == AnnouncingFileMetadataChange then status == S160
    else if s == AnnouncingFileMetadataChangeWithMore then status == S164
    else if s == SendingNewFileMetadata then status == S130
    else if s == SendingNewFileMetadataWithMore then status == S134
    else if s == SendingFileMetadataChange then status == S170
    else if s == SendingFileMetadataChangeWithMore then status == S174
    else if s == SendingNewFile then status == S110
    else if s == SendingNewFileWithMoreAlpha then status == S114
    else if s == SendingNewFileWithMoreBeta then status == S116
    else if s == AcknowledgingNewFile then status == S121
    else if s == AcknowledgingNewFileWithMore then status == S125
    else if s == AcknowledgingFileMetadataChange then status == S161
    else if s == AcknowledgingFileMetadataChangeWithMore then status == S165
    else if s == PromotingNewFileMetadata then status == S131
    else if s == PromotingNewFileMetadataWithMore then status == S131 || status == S135
    else if s == ReceivingFileMetadataChange then status == S171
    else if s == ReceivingFileMetadataChangeWithMore then status == S171 || status == S175
    else if s == SendingFakeFile then status == S111
    else if s == SendingFakeFileWithMoreAlpha then status == S115
    else if s == SendingFakeFileWithMoreBeta then status == S117
    else if s == BroadcastingAllReceived then status == S140
    else if s == BroadcastingAllReceivedWithMoreAlpha then status == S145
    else if s == BroadcastingAllReceivedWithMoreBeta then status == S147
    else if s == BroadcastingAllMetadataReceived then status == S141
    else if s == SyncingStop then status == S155
    else s == Exit
  }

  lemma AdvertRow(s: State, status: Status)
    requires CheckEvent(s, EventOf(status), status) && NewState(s, EventOf(status), status) != s
    ensures var t, a := NewState(s, EventOf(status), status), ActionOf(s, EventOf(status), status);
            if t == Exit then a != SendHeartbeat
            else a == SendHeartbeat && Fits(t, HeartbeatStatus(s, EventOf(status), status))
  {
  }

  // ---------- the step up to the state change ----------

  /** Status, event and fields right before the table decides on the next state. */
  function Settled(o: Office, m: Input): Mid {
    OnData(OnLocalFile(OnQuorum(Entered(o, m), m), m), m)
  }

  predicate Accepted(o: Office, m: Input) { CheckEvent(o.state, EventOf(m.status), m.status) }

  /** The mid-step state is consistent: the event is the one of the status, and the table has the row. */
  ghost predicate Consistent(s: State, a: Mid) {
    && a.office.state == s
    && a.event == EventOf(a.status)
    && (a.outcome == Done ==> CheckEvent(s, a.event, a.status))
  }

  /** The parts of the node that a heartbeat does not touch before the state changes. */
  predicate Same(o: Office, p: Office) {
    p.state == o.state && p.dataQueue == o.dataQueue && p.metaQueue == o.metaQueue
  }

  lemma RecordSame(o: Office, m: Input)
    requires m.status == S130 || m.status == S170 || m.status == S174
    ensures var a := if m.status == S130 then OnNewFileRecord(o, m) else OnMetadata(o, m);
            Same(o, a.office) && a.event == EventOf(a.status) && a.beats == []
  {
    MetadataFrame(o, m);
    NewFileFrame(o, m);
    hide Opened, Sized, EventOf, Applied;
  }

  lemma ReplySame(o: Office, m: Input)
    ensures var a := OnReply(o, m); Same(o, a.office) && a.event == EventOf(a.status) && a.beats == []
  {
    hide EventOf, Concluded;
  }

  lemma EndSame(o: Office, m: Input)
    ensures var a := OnEnd(o, m);
            && Same(o, a.office) && a.event == EventOf(a.status)
            && a.beats == (if m.status == S150 && o.state == Ready then [Beat(S100, None, None)] else [])
            && a.status == if m.status == S150 && o.state == Ready then S100 else m.status
  {
    hide EventOf;
  }

  lemma HeardSame(o: Office, m: Input)
    ensures var a := OnHeartbeat(o, m);
            && Same(o, a.office) && a.event == EventOf(a.status)
            && a.beats == if m.status == S150 && o.state == Ready then [Beat(S100, None, None)] else []
  {
    if m.status == S130 || m.status == S170 || m.status == S174 { RecordSame(o, m); }
    if Reply(m.status) { ReplySame(o, m); }
    if m.status == S150 || m.status == S155 { EndSame(o, m); }
    hide OnNewFileRecord, OnMetadata, EventOf, OnReply, OnEnd;
  }

  lemma HeardConsistent(o: Office, m: Input)
    requires Accepted(o, m)
    ensures Consistent(o.state, Entered(o, m))
    ensures Same(o, Entered(o, m).office)
  {
    hide CheckEvent, EventOf, Int16, OnHeartbeat;
    HeardSame(Timestamped(o, m), m);
  }

  lemma QuorumConsistent(s: State, a: Mid, m: Input)
    requires Consistent(s, a)
    ensures Consistent(s, OnQuorum(a, m)) && Same(a.office, OnQuorum(a, m).office)
  {
    hide CheckEvent, EventOf, StartTime;
  }

  lemma RepeatedRow()
    ensures CheckEvent(AnnouncingNewFile, EventOf(S301), S301)
  {
  }

  lemma LocalConsistent(s: State, a: Mid, m: Input)
    requires Consistent(s, a)
    ensures Consistent(s, OnLocalFile(a, m))
  {
    RepeatedRow();
    hide CheckEvent, EventOf;
  }

  lemma DataConsistent(s: State, a: Mid, m: Input)
    requires Consistent(s, a)
    ensures Consistent(s, OnData(a, m))
    ensures var b := OnData(a, m); Same(a.office, b.office) && b.beats == a.beats && b.orders == a.orders
  {
    hide CheckEvent, EventOf, Received;
  }

  lemma SettledConsistent(o: Office, m: Input)
    requires Accepted(o, m)
    ensures Consistent(o.state, Settled(o, m))
  {
    hide Consistent, Entered, OnQuorum, OnLocalFile, OnData;
    HeardConsistent(o, m);
    var a := Entered(o, m);
    QuorumConsistent(o.state, a, m);
    LocalConsistent(o.state, OnQuorum(a, m), m);
    DataConsistent(o.state, OnLocalFile(OnQuorum(a, m), m), m);
  }

  lemma ProcessSettles(o: Office, m: Input)
    ensures Process(o, m) == if Accepted(o, m) then Continue(Settled(o, m), m) else Result(o, [], [], Done)
  {
    hide Continue, CheckEvent, EventOf, OnData, OnLocalFile, OnQuorum, Entered;
  }

  // ---------- the state change ----------

  lemma PreparedBeat(o: Office, m: Input, status: Status, to: State)
    ensures var r := Prepare(o, m, status, to);
            && r.office.state == o.state && r.outcome != Rejected
            && (if r.outcome == Done then |r.beats| == 1 && r.beats[0].status == status else r.beats == [])
  {
    hide StopTime;
  }

  /** The state changes along the row, with one heartbeat that fits the new state. */
  lemma Continued(s: State, a: Mid, m: Input)
    requires Consistent(s, a)
    ensures var r := Continue(a, m);
            var t := r.office.state;
            && (t != s ==>
                  && Row(s, a.status, t) && t == NewState(s, EventOf(a.status), a.status)
                  && a.outcome == Done && r.outcome == Done)
            && (t == s || t == Exit ==> r.beats == a.beats)
            && (t != s && t != Exit ==> |r.beats| == |a.beats| + 1 && a.beats <= r.beats
                                        && Fits(t, r.beats[|a.beats|].status))
  {
    if a.outcome == Done && NewState(s, a.event, a.status) != s { AdvertRow(s, a.status); }
    PreparedBeat(a.office, m, HeartbeatStatus(s, a.event, a.status), NewState(s, a.event, a.status));
    hide CheckEvent, NewState, ActionOf, HeartbeatStatus, EventOf, Prepare, Fits;
  }

  lemma LocalBeats(a: Mid, m: Input)
    ensures OnLocalFile(a, m).beats == a.beats && OnQuorum(a, m).beats == a.beats
  {
    hide EventOf, StartTime;
  }

  lemma ReturnKept(o: Office, m: Input)
    requires m.status == S150 && o.state == Ready
    ensures Settled(o, m).status == S100 && NewState(Ready, EventOf(S100), S100) == Ready
  {
    EndSame(Timestamped(o, m), m);
    hide Int16, OnEnd;
  }

  lemma SettledBeats(o: Office, m: Input)
    requires Accepted(o, m)
    ensures Settled(o, m).beats == if m.status == S150 && o.state == Ready then [Beat(S100, None, None)] else []
  {
    hide Consistent, OnQuorum, OnLocalFile, OnData, OnHeartbeat, CheckEvent, Int16;
    HeardSame(Timestamped(o, m), m);
    SettledConsistent(o, m);
    var a := Entered(o, m);
    HeardConsistent(o, m);
    QuorumConsistent(o.state, a, m);
    LocalConsistent(o.state, OnQuorum(a, m), m);
    LocalBeats(a, m);
    LocalBeats(OnQuorum(a, m), m);
    DataConsistent(o.state, OnLocalFile(OnQuorum(a, m), m), m);
  }

  /** Every step: the state moves along a row of the table, and what is advertised fits it. */
  lemma StepTaken(o: Office, m: Input)
    ensures var r := Process(o, m);
            var t := r.office.state;
            && (t != o.state ==> Row(o.state, Settled(o, m).status, t) && r.outcome == Done)
            && (t == o.state || t == Exit ==>
                  r.beats == [] || (t == Ready && r.beats == [Beat(S100, None, None)]))
            && (t != o.state && t != Exit ==> r.beats != [] && Fits(t, r.beats[|r.beats| - 1].status))
  {
    hide Settled, Consistent, Continue, Process, Row, Accepted, Fits, NewState, EventOf;
    ProcessSettles(o, m);
    if Accepted(o, m) {
      SettledConsistent(o, m);
      SettledBeats(o, m);
      if m.status == S150 && o.state == Ready { ReturnKept(o, m); }
      Continued(o.state, Settled(o, m), m);
    }
  }
}
