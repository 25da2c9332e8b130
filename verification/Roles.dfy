/**
 * What one boxoffice step does in the two roles of an honest session: the node that
 * announces a file and the nodes that follow.  Each predicate lists the transitions
 * left when only the messages such a session can contain arrive, and each lemma
 * derives it from the full step.
 */
module Roles {
  import opened Fsm
  import opened Boxoffice
  import opened Stages

  /** Position of a status in the sequence an announcing node advertises within a session. */
  function LeadRank(s: Status): nat {
    if s == S120 || s == S160 then 1
    else if s == S164 then 2
    else if s == S170 || s == S174 then 3
    else if s == S130 || s == S134 then 4
    else if s == S110 then 5
    else if s == S155 then 6
    else if s == S150 then 7
    else if s == S100 then 8
    else 0
  }

  /** Position of a status in the sequence a following node advertises within a session. */
  function FollowRank(s: Status): nat {
    if s == S121 || s == S161 then 1
    else if s == S165 then 2
    else if s == S171 || s == S175 then 3
    else if s == S141 then 4
    else if s == S131 || s == S135 then 5
    else if s == S111 then 6
    else if s == S140 then 7
    else if s == S155 then 8
    else if s == S150 then 9
    else if s == S100 then 10
    else 0
  }

  predicate LeadStatus(s: Status) { LeadRank(s) > 0 }
  predicate FollowStatus(s: Status) { FollowRank(s) > 0 }

  /** The highest rank a node in this state can have advertised in its current session. */
  function LeadStateRank(s: State): nat {
    if s == Ready then 8
    else if s == AnnouncingNewFile || s == AnnouncingFileMetadataChange then 1
    else if s == AnnouncingFileMetadataChangeWithMore then 2
    else if s == SendingFileMetadataChange || s == SendingFileMetadataChangeWithMore then 3
    else if s == SendingNewFileMetadata || s == SendingNewFileMetadataWithMore then 4
    else if s == SendingNewFile then 5
    else if s == SyncingStop then 6
    else if s == Exit then 15
    else 0
  }

  function FollowStateRank(s: State): nat {
    if s == Ready then 10
    else if s == AcknowledgingNewFile || s == AcknowledgingFileMetadataChange then 1
    else if s == AcknowledgingFileMetadataChangeWithMore then 2
    else if s == ReceivingFileMetadataChange || s == ReceivingFileMetadataChangeWithMore then 3
    else if s == BroadcastingAllMetadataReceived then 4
    else if s == PromotingNewFileMetadata || s == PromotingNewFileMetadataWithMore then 5
    else if s == SendingFakeFile then 6
    else if s == BroadcastingAllReceived then 7
    else if s == SyncingStop then 8
    else if s == Exit then 15
    else 0
  }

  predicate LeadState(s: State) { LeadStateRank(s) > 0 }
  predicate FollowState(s: State) { FollowStateRank(s) > 0 }

  predicate Announcing(s: State) {
    s == AnnouncingNewFile || s == AnnouncingFileMetadataChange || s == AnnouncingFileMetadataChangeWithMore
  }

  predicate Acknowledging(s: State) {
    s == AcknowledgingNewFile || s == AcknowledgingFileMetadataChange
    || s == AcknowledgingFileMetadataChangeWithMore
  }

  // ---------- the announcing node ----------

  ghost predicate AllFalse(a: map<NodeId, bool>, b: map<NodeId, bool>) {
    b.Keys == a.Keys && forall n :: n in b ==> !b[n]
  }

  /** The reply an announcing or sending node counts in this state. */
  function Awaited(s: State): Status {
    if s == AnnouncingNewFile then S121
    else if s == AnnouncingFileMetadataChange then S161
    else if s == AnnouncingFileMetadataChangeWithMore then S165
    else if s == SendingFileMetadataChange || s == SendingFileMetadataChangeWithMore then S141
    else if s == SendingNewFile || s == SendingNewFileWithMoreAlpha || s == SendingNewFileWithMoreBeta then S140
    else NullStatus
  }

  /** Where a full round of replies leads, and the status advertised there. */
  predicate RoundEnds(s: State, to: State, status: Status) {
    || (s == AnnouncingNewFile && to == SendingNewFileMetadata && status == S130)
    || (s == AnnouncingFileMetadataChange && to == SendingFileMetadataChange && status == S170)
    || (s == AnnouncingFileMetadataChangeWithMore && to == SendingFileMetadataChangeWithMore && status == S174)
    || (s == SendingFileMetadataChange && to == Ready && status == S150)
    || (s == SendingFileMetadataChangeWithMore && to == SendingNewFileMetadata && status == S130)
    || (s == SendingFileMetadataChangeWithMore && to == SendingNewFileMetadataWithMore && status == S134)
    || (s == SendingNewFile && to == SyncingStop && status == S155)
  }

  /** At most a stop order for the dispatcher. */
  predicate OnlyStop(r: Result) { r.orders == [] || (|r.orders| == 1 && r.orders[0].Stop?) }

  ghost predicate Moves(r: Result, to: State, status: Status) {
    && r.outcome == Done
    && r.office.state == to
    && |r.beats| == 1 && r.beats[0].status == status
  }

  ghost predicate Full(o: Office, n: NodeId) {
    forall k :: k in o.replied ==> k == n || o.replied[k]
  }

  ghost predicate LeadQuiet(o: Office, m: Input, r: Result) {
    && r.office.state == o.state
    && OnlyStop(r)
    && r.beats == (if o.state == Ready && m.status == S150 then [Beat(S100, None, None)] else [])
    && (|| r.office.replied == o.replied
        || AllFalse(o.replied, r.office.replied)
        || (m.status == Awaited(o.state) && r.office.replied == o.replied[m.sender := true]))
  }

  ghost predicate LeadAnnounce(o: Office, m: Input, r: Result) {
    && (m.status == S300 || m.status == S320)
    && (|| (o.state == Ready && Moves(r, AnnouncingNewFile, S120))
        || (o.state == Ready && Moves(r, AnnouncingFileMetadataChange, S160))
        || (o.state == AnnouncingFileMetadataChange && Moves(r, AnnouncingFileMetadataChangeWithMore, S164)))
    && AllFalse(o.replied, r.office.replied)
    && r.orders == []
  }

  /** The beat that opens the next phase carries the file, and the dispatcher gets the same file and start. */
  ghost predicate LeadRound(o: Office, m: Input, r: Result) {
    && m.status == Awaited(o.state)
    && Full(o, m.sender)
    && AllFalse(o.replied, r.office.replied)
    && r.outcome == Done
    && |r.beats| == 1
    && RoundEnds(o.state, r.office.state, r.beats[0].status)
    && (CarriesFile(r.office.state) ==> r.beats[0].file.Some?)
    && (if r.beats[0].status == S130
        then
          && |r.orders| == 1 && r.orders[0].Send?
          && r.beats[0].file == Some(r.orders[0].file)
          && r.beats[0].deadline == Some(r.orders[0].start)
        else OnlyStop(r))
  }

  ghost predicate LeadTimer(o: Office, m: Input, r: Result) {
    && (|| (m.status == S132 && o.state == SendingNewFileMetadata && Moves(r, SendingNewFile, S110))
        || (m.status == S156 && o.state == SyncingStop && Moves(r, Ready, S100)))
    && r.office.replied == o.replied
    && r.orders == []
  }

  ghost predicate Leaves(o: Office, m: Input, r: Result) {
    && m.status == S500
    && r == Result(o.(state := Exit), [], [], Done)
  }

  ghost predicate LeadMove(o: Office, m: Input, r: Result) {
    || LeadQuiet(o, m, r)
    || LeadAnnounce(o, m, r)
    || LeadRound(o, m, r)
    || LeadTimer(o, m, r)
    || Leaves(o, m, r)
  }

  /** A message that can reach the announcing node while every peer is honest. */
  predicate LeadInput(o: Office, m: Input) {
    || (FollowStatus(m.status) && m.sender in o.replied)
    || m.status == S210 || m.status == S156 || m.status == S300 || m.status == S320 || m.status == S500
    || (m.status == S132 && o.state != SendingNewFileMetadataWithMore)
  }

  /** A reply is accepted where it is awaited, and by itself changes no state. */
  lemma AwaitedRow(s: State, status: Status)
    requires LeadState(s) && Reply(status) && CheckEvent(s, EventOf(status), status)
    ensures EventOf(status) == ReceivedHeartbeat
    ensures status == Awaited(s) && NewState(s, ReceivedHeartbeat, status) == s
  {
  }

  /** A reply while others are outstanding sets one flag. */
  lemma ReplyNoted(o: Office, m: Input)
    requires Reply(m.status) && m.sender in o.replied && !Full(o, m.sender)
    ensures var a := OnHeartbeat(Timestamped(o, m), m);
            && a == Plain(a.office, m.status)
            && a.office.state == o.state
            && a.office.replied == o.replied[m.sender := true]
  {
    var n :| n in o.replied && n != m.sender && !o.replied[n];
    assert !o.replied[m.sender := true][n];
    hide EventOf, Concluded, OnNewFileRecord, OnMetadata, OnEnd, OnNotice, Int16;
  }

  lemma LeadReplies(o: Office, m: Input)
    requires LeadState(o.state) && Reply(m.status) && m.sender in o.replied
    requires CheckEvent(o.state, EventOf(m.status), m.status)
    requires !Full(o, m.sender)
    ensures LeadQuiet(o, m, Process(o, m))
  {
    AwaitedRow(o.state, m.status);
    HeartbeatPath(o, m);
    ReplyNoted(o, m);
    hide Process, OnHeartbeat, Timestamped, CheckEvent, NewState, EventOf, Perform, Awaited, LeadState;
  }

  /** The last reply clears every flag and concludes the round. */
  lemma ReplyConcludes(o: Office, m: Input)
    requires Reply(m.status) && m.sender in o.replied && Full(o, m.sender)
    ensures var a := OnHeartbeat(Timestamped(o, m), m);
            && a == Plain(a.office, Concluded(o, m.status))
            && a.office.state == o.state
            && AllFalse(o.replied, a.office.replied)
  {
    var heard := o.replied[m.sender := true];
    assert forall n :: n in heard ==> heard[n];
    assert heard.Keys == o.replied.Keys;
    hide EventOf, OnNewFileRecord, OnMetadata, OnEnd, OnNotice, Int16;
  }

  /** What a concluded round does, if the table accepts it. */
  lemma RoundRow(s: State, c: Status)
    requires LeadState(s)
    requires c == S172 || c == S174 || c == S177 || c == S178 ==> Awaited(s) == S141
    requires c == S122 ==> Awaited(s) == S121
    requires c == S162 ==> Awaited(s) == S161
    requires c == S166 ==> Awaited(s) == S165
    requires c == S142 ==> Awaited(s) == S140
    requires c in {S172, S174, S177, S178, S122, S162, S166, S142}
    requires CheckEvent(s, EventOf(c), c)
    ensures NewState(s, EventOf(c), c) != s && ActionOf(s, EventOf(c), c) == SendHeartbeat
    ensures RoundEnds(s, NewState(s, EventOf(c), c), HeartbeatStatus(s, EventOf(c), c))
    ensures HeartbeatStatus(s, EventOf(c), c) == S130 <==> NewFileRound(EventOf(c), c)
  {
  }

  predicate CarriesFile(to: State) {
    to == SendingNewFileMetadata || to == SendingNewFileMetadataWithMore
    || to == SendingFileMetadataChange || to == SendingFileMetadataChangeWithMore
  }

  /** A heartbeat that opens a sending phase carries the file at the head of the queue. */
  lemma PreparedFile(o: Office, m: Input, status: Status, to: State)
    requires CarriesFile(to)
    ensures var r := Prepare(o, m, status, to);
            && r.office.replied == o.replied && r.office.state == o.state
            && r.outcome != Rejected
            && (r.outcome == Fault ==> r.beats == [] && r.orders == [])
            && (r.outcome == Done ==> |r.beats| == 1 && r.beats[0].status == status
                                      && r.beats[0].file.Some? && r.orders == [])
  {
  }

  lemma PreparedNewFile(o: Office, m: Input, status: Status)
    requires o.dataQueue != []
    ensures var r := Prepare(o, m, status, SendingNewFileMetadata);
            r.outcome == Done && r.beats == [Beat(status, Some(o.dataQueue[0]), Some(o.deadline))]
  {
  }

  /** Every other heartbeat leaves everything but the stop timer alone. */
  lemma PreparedPlain(o: Office, m: Input, status: Status, to: State)
    requires !CarriesFile(to)
    ensures var r := Prepare(o, m, status, to);
            && r.outcome == Done
            && r.office == o.(deadline := r.office.deadline, stopSent := r.office.stopSent)
            && |r.beats| == 1 && r.beats[0].status == status && OnlyStop(r)
            && (to != SyncingStop ==> r.orders == [] && r.office == o)
  {
    hide StopTime;
  }

  /** A step that performs a heartbeat action on the way to another state. */
  lemma Performed(a: Mid, m: Input, to: State, status: Status)
    requires a.outcome == Done
    requires NewState(a.office.state, a.event, a.status) == to && a.office.state != to
    requires ActionOf(a.office.state, a.event, a.status) == SendHeartbeat
    requires HeartbeatStatus(a.office.state, a.event, a.status) == status
    ensures var p := Prepare(a.office, m, status, to);
            var r := Continue(a, m);
            && r.outcome == p.outcome
            && r.beats == a.beats + p.beats && r.orders == a.orders + p.orders
            && r.office == if p.outcome == Done then p.office.(state := to) else p.office
  {
    hide CheckEvent, NewState, ActionOf, HeartbeatStatus, EventOf, StartTime, StopTime, Prepare;
  }

  /** A step that the new-state table leaves where it is. */
  lemma Stayed(a: Mid, m: Input)
    requires a.outcome != Done || NewState(a.office.state, a.event, a.status) == a.office.state
    ensures Continue(a, m) == Result(a.office, a.beats, a.orders, a.outcome)
  {
    hide CheckEvent, NewState, ActionOf, HeartbeatStatus, EventOf, Prepare;
  }

  lemma LeadRounds(o: Office, m: Input)
    requires LeadState(o.state) && Reply(m.status) && m.sender in o.replied
    requires CheckEvent(o.state, EventOf(m.status), m.status)
    requires Full(o, m.sender)
    ensures LeadMove(o, m, Process(o, m))
  {
    AwaitedRow(o.state, m.status);
    HeartbeatPath(o, m);
    ReplyConcludes(o, m);
    var a := OnHeartbeat(Timestamped(o, m), m);
    if CheckEvent(o.state, a.event, a.status) {
      RoundRow(o.state, a.status);
      hide Process, OnHeartbeat, Timestamped, CheckEvent, NewState, ActionOf, HeartbeatStatus, EventOf,
        Perform, Prepare, Continue, Awaited, LeadState, StartTime, StopTime, AfterMetadata;
      if NewFileRound(a.event, a.status) {
        LeadEntersNewFile(a, m);
      } else {
        LeadEntersOther(a, m, NewState(o.state, a.event, a.status), HeartbeatStatus(o.state, a.event, a.status));
      }
    } else {
      hide Process, OnHeartbeat, Timestamped, CheckEvent, NewState, ActionOf, HeartbeatStatus, EventOf,
        Perform, Prepare, Continue, Awaited, LeadState, StartTime, StopTime, AfterMetadata;
      Stayed(OnQuorum(Rechecked(a, m.status), m), m);
    }
  }

  predicate NewFileRound(event: Event, status: Status) {
    (event == AllNodesReplied && status == S122)
    || (event == AllNodesHaveAllMetadataChangesWithMore && status == S177)
  }

  lemma QuorumOrders(a: Mid, m: Input)
    requires a == Plain(a.office, a.status) && NewFileRound(a.event, a.status)
    ensures var q := OnQuorum(a, m);
            if a.office.dataQueue == [] then q == a.(outcome := Fault)
            else
              && q == a.(office := a.office.(deadline := q.office.deadline), orders := q.orders)
              && q.orders == [Send(a.status, q.office.deadline, a.office.dataQueue[0])]
  {
    hide EventOf, StartTime;
  }

  /** The round that starts a data transfer: the dispatcher gets what the heartbeat announces. */
  lemma LeadEntersNewFile(a: Mid, m: Input)
    requires a == Plain(a.office, a.status)
    requires NewState(a.office.state, a.event, a.status) == SendingNewFileMetadata != a.office.state
    requires ActionOf(a.office.state, a.event, a.status) == SendHeartbeat
    requires HeartbeatStatus(a.office.state, a.event, a.status) == S130
    requires NewFileRound(a.event, a.status)
    ensures var r := Continue(OnQuorum(a, m), m);
            && r.office.replied == a.office.replied
            && (r.outcome != Done ==> r.office.state == a.office.state && r.beats == [] && r.orders == [])
            && (r.outcome == Done ==>
                  && r.office.state == SendingNewFileMetadata
                  && |r.beats| == 1 && r.beats[0].status == S130
                  && |r.orders| == 1 && r.orders[0].Send?
                  && r.beats[0].file == Some(r.orders[0].file)
                  && r.beats[0].deadline == Some(r.orders[0].start))
  {
    QuorumOrders(a, m);
    hide CheckEvent, NewState, ActionOf, HeartbeatStatus, EventOf, OnQuorum, Prepare, Continue;
    var q := OnQuorum(a, m);
    if a.office.dataQueue == [] {
      Stayed(q, m);
    } else {
      Performed(q, m, SendingNewFileMetadata, S130);
      PreparedFile(q.office, m, S130, SendingNewFileMetadata);
      PreparedNewFile(q.office, m, S130);
    }
  }

  /** Any other full round. */
  lemma LeadEntersOther(a: Mid, m: Input, to: State, status: Status)
    requires a == Plain(a.office, a.status)
    requires NewState(a.office.state, a.event, a.status) == to && a.office.state != to
    requires ActionOf(a.office.state, a.event, a.status) == SendHeartbeat
    requires HeartbeatStatus(a.office.state, a.event, a.status) == status
    requires !NewFileRound(a.event, a.status)
    ensures var r := Continue(OnQuorum(a, m), m);
            && r.office.replied == a.office.replied
            && (r.outcome != Done ==> r.office.state == a.office.state && r.beats == [] && r.orders == [])
            && (r.outcome == Done ==>
                  && r.office.state == to
                  && |r.beats| == 1 && r.beats[0].status == status
                  && (CarriesFile(to) ==> r.beats[0].file.Some?)
                  && OnlyStop(r))
  {
    hide CheckEvent, NewState, ActionOf, HeartbeatStatus, EventOf, StartTime, StopTime, Prepare, Continue;
    assert OnQuorum(a, m) == a;
    Performed(a, m, to, status);
    if CarriesFile(to) {
      PreparedFile(a.office, m, status, to);
    } else {
      PreparedPlain(a.office, m, status, to);
    }
  }

  /** Heartbeats that are neither replies nor records: flags, the stop order, 150 in the ready state. */
  lemma Noticed(o: Office, m: Input)
    requires EventOf(m.status) == ReceivedHeartbeat && m.sender in o.replied
    requires !Reply(m.status) && m.status != S130 && m.status != S170 && m.status != S174
    ensures var a := OnHeartbeat(Timestamped(o, m), m);
            && a.outcome == Done
            && a.event == ReceivedHeartbeat
            && a.status == (if m.status == S150 && o.state == Ready then S100 else m.status)
            && a.beats == (if m.status == S150 && o.state == Ready then [Beat(S100, None, None)] else [])
            && (a.orders == [] || (a.orders == [Stop(m.deadline)] && m.status == S155))
            && a.office.state == o.state && a.office.replied == o.replied
            && a.office.disk == o.disk && a.office.current == o.current
            && a.office.notified == (o.notified && m.status != S120 && m.status != S124)
  {
    hide OnReply, OnNewFileRecord, OnMetadata, Int16;
  }

  lemma LeadNoticeRow(s: State, status: Status)
    requires LeadState(s) && FollowStatus(status) && !Reply(status)
    requires CheckEvent(s, EventOf(status), status)
    ensures EventOf(status) == ReceivedHeartbeat && status != S130 && status != S170 && status != S174
    ensures NewState(s, ReceivedHeartbeat, status) == s
    ensures s == Ready && status == S150 ==>
              CheckEvent(s, ReceivedHeartbeat, S100) && NewState(s, ReceivedHeartbeat, S100) == s
  {
  }

  lemma LeadNotices(o: Office, m: Input)
    requires LeadState(o.state) && FollowStatus(m.status) && !Reply(m.status) && m.sender in o.replied
    requires CheckEvent(o.state, EventOf(m.status), m.status)
    ensures LeadQuiet(o, m, Process(o, m))
  {
    LeadNoticeRow(o.state, m.status);
    HeartbeatPath(o, m);
    Noticed(o, m);
    hide Process, OnHeartbeat, Timestamped, CheckEvent, NewState, EventOf, Perform, Awaited, LeadState,
      FollowStatus, Continue;
    var a := OnHeartbeat(Timestamped(o, m), m);
    Stayed(OnQuorum(Rechecked(a, m.status), m), m);
  }

  lemma LeadTickRow(s: State, status: Status)
    requires LeadState(s) && (status == S210 || status == S156 || status == S132 || status == S500)
    requires CheckEvent(s, EventOf(status), status)
    requires status == S132 ==> s != SendingNewFileMetadataWithMore
    ensures var e := EventOf(status);
            && (e == TimingOffsetElapsed || e == Interrupt || e == ReceivedFakeFileData)
            && (status == S210 ==> NewState(s, e, status) == s)
            && (status == S500 ==> NewState(s, e, status) == Exit && ActionOf(s, e, status) == ExitProgram)
            && (status == S132 ==> s == SendingNewFileMetadata && NewState(s, e, status) == SendingNewFile
                                   && ActionOf(s, e, status) == SendHeartbeat
                                   && HeartbeatStatus(s, e, status) == S110)
            && (status == S156 ==> s == SyncingStop && NewState(s, e, status) == Ready
                                   && ActionOf(s, e, status) == SendHeartbeat
                                   && HeartbeatStatus(s, e, status) == S100)
  {
  }

  /** An interrupt only changes the state. */
  lemma Interrupted(o: Office, m: Input)
    requires m.status == S500 && CheckEvent(o.state, EventOf(S500), S500)
    requires NewState(o.state, EventOf(S500), S500) == Exit
    requires ActionOf(o.state, EventOf(S500), S500) == ExitProgram
    ensures Process(o, m) == Result(o.(state := Exit), [], [], Done)
  {
    TickPath(o, m);
    hide Process, CheckEvent, NewState, ActionOf, HeartbeatStatus, EventOf, Prepare;
  }

  lemma LeadTicks(o: Office, m: Input)
    requires LeadState(o.state) && LeadInput(o, m)
    requires m.status == S210 || m.status == S156 || m.status == S132 || m.status == S500
    requires CheckEvent(o.state, EventOf(m.status), m.status)
    ensures LeadMove(o, m, Process(o, m))
  {
    LeadTickRow(o.state, m.status);
    TickPath(o, m);
    hide Process, CheckEvent, NewState, ActionOf, HeartbeatStatus, EventOf, Prepare, Continue, LeadState,
      FollowStatus, Awaited;
    var a := Plain(o, m.status);
    if m.status == S210 {
      Stayed(a, m);
    } else if m.status == S500 {
      Interrupted(o, m);
    } else {
      var to := if m.status == S132 then SendingNewFile else Ready;
      var st := if m.status == S132 then S110 else S100;
      Performed(a, m, to, st);
      PreparedPlain(o, m, st, to);
    }
  }

  lemma LeadLocalRow(s: State, status: Status)
    requires LeadState(s) && (status == S300 || status == S320)
    requires CheckEvent(s, EventOf(status), status)
    ensures var e := EventOf(status);
            && LocalFileEvent(e)
            && (s == Ready ==> ActionOf(s, e, status) == SendHeartbeat)
            && (s == Ready && status == S300 ==> NewState(s, e, status) == AnnouncingNewFile
                                                 && HeartbeatStatus(s, e, status) == S120)
            && (s == Ready && status == S320 ==> NewState(s, e, status) == AnnouncingFileMetadataChange
                                                 && HeartbeatStatus(s, e, status) == S160)
            && (s == AnnouncingFileMetadataChange ==>
                  ActionOf(s, e, status) == SendHeartbeat && HeartbeatStatus(s, e, status) == S164
                  && NewState(s, e, status) == AnnouncingFileMetadataChangeWithMore)
            && (s == AnnouncingNewFile ==> NewState(s, EventOf(S301), S301) == s)
            && (s != Ready && s != AnnouncingNewFile && s != AnnouncingFileMetadataChange ==>
                  NewState(s, e, status) == s)
  {
  }

  lemma FlagsCleared(o: Office)
    ensures ResetReplied(o) == o.(replied := ResetReplied(o).replied)
    ensures AllFalse(o.replied, ResetReplied(o).replied)
  {
  }

  /** A local file event clears the flags and keeps the state and the files on disk. */
  lemma LocalFileNoted(o: Office, m: Input)
    requires LocalFileEvent(EventOf(m.status))
    ensures var a := OnLocalFile(Plain(o, m.status), m);
            && a.beats == [] && a.orders == []
            && a.office.state == o.state && a.office.disk == o.disk
            && a.office.current == o.current && a.office.notified == o.notified
            && (if |m.file.path| > MAXIMUM_PATH_LENGTH
                then a.outcome == Rejected && a.office == o
                else a.outcome == Done && AllFalse(o.replied, a.office.replied)
                     && a.status == (if o.state == AnnouncingNewFile then S301 else m.status)
                     && a.event == EventOf(a.status))
  {
    FlagsCleared(o);
    hide EventOf, ResetReplied, AllFalse;
  }

  lemma LeadOpens(o: Office, m: Input)
    requires (m.status == S300 || m.status == S320) && |m.file.path| <= MAXIMUM_PATH_LENGTH
    requires o.state == Ready || o.state == AnnouncingFileMetadataChange
    requires CheckEvent(o.state, EventOf(m.status), m.status)
    ensures LeadAnnounce(o, m, Process(o, m))
  {
    LeadLocalRow(o.state, m.status);
    LocalFilePath(o, m);
    LocalFileNoted(o, m);
    hide Process, CheckEvent, NewState, ActionOf, HeartbeatStatus, EventOf, Prepare, Continue, LeadState,
      OnLocalFile, AllFalse;
    var a := OnLocalFile(Plain(o, m.status), m);
    var to := NewState(o.state, a.event, a.status);
    var st := HeartbeatStatus(o.state, a.event, a.status);
    Performed(a, m, to, st);
    PreparedPlain(a.office, m, st, to);
  }

  lemma LeadLocals(o: Office, m: Input)
    requires LeadState(o.state) && (m.status == S300 || m.status == S320)
    requires CheckEvent(o.state, EventOf(m.status), m.status)
    ensures LeadAnnounce(o, m, Process(o, m)) || LeadQuiet(o, m, Process(o, m))
  {
    if |m.file.path| <= MAXIMUM_PATH_LENGTH && (o.state == Ready || o.state == AnnouncingFileMetadataChange) {
      LeadOpens(o, m);
    } else {
      LeadLocalRow(o.state, m.status);
      LocalFilePath(o, m);
      LocalFileNoted(o, m);
      hide Process, CheckEvent, NewState, ActionOf, HeartbeatStatus, EventOf, Prepare, Continue, LeadState,
        OnLocalFile, Awaited, LeadAnnounce, AllFalse;
      Stayed(OnLocalFile(Plain(o, m.status), m), m);
    }
  }

  /** Every step of the announcing node is one of the moves above. */
  lemma LeadSteps(o: Office, m: Input)
    requires LeadState(o.state) && LeadInput(o, m)
    ensures LeadMove(o, m, Process(o, m))
  {
    if !CheckEvent(o.state, EventOf(m.status), m.status) {
      Ignored(o, m);
      assert o.state == Ready ==> m.status != S150;
    } else if m.status == S300 || m.status == S320 {
      LeadLocals(o, m);
    } else if m.status == S210 || m.status == S156 || m.status == S132 || m.status == S500 {
      LeadTicks(o, m);
    } else if !Reply(m.status) {
      LeadNotices(o, m);
    } else if Full(o, m.sender) {
      LeadRounds(o, m);
    } else {
      LeadReplies(o, m);
    }
    hide Process, NewState, ActionOf, HeartbeatStatus;
  }

  // ---------- the following nodes ----------

  predicate Kept(o: Office, r: Result) { r.office.disk == o.disk && r.office.current == o.current }

  ghost predicate FollowQuiet(o: Office, m: Input, r: Result) {
    && r.office.state == o.state
    && OnlyStop(r)
    && r.beats == (if o.state == Ready && m.status == S150 then [Beat(S100, None, None)] else [])
    && Kept(o, r)
    && (r.office.notified == o.notified || (o.state == AcknowledgingNewFile && !r.office.notified))
  }

  /** Joining a session. */
  ghost predicate FollowAdopt(o: Office, m: Input, r: Result) {
    && o.state == Ready
    && (|| (m.status == S120 && Moves(r, AcknowledgingNewFile, S121) && !r.office.notified)
        || (m.status == S160 && Moves(r, AcknowledgingFileMetadataChange, S161))
        || (m.status == S164 && Moves(r, AcknowledgingFileMetadataChangeWithMore, S165)))
    && r.orders == []
    && Kept(o, r)
  }

  predicate Step(s: State, status: Status, to: State, advert: Status) {
    || (s == AcknowledgingNewFile && status == S130 && to == PromotingNewFileMetadata && advert == S131)
    || (s == AcknowledgingFileMetadataChange && status == S164
        && to == AcknowledgingFileMetadataChangeWithMore && advert == S165)
    || (s == AcknowledgingFileMetadataChange && status == S170
        && to == ReceivingFileMetadataChange && advert == S171)
    || (s == AcknowledgingFileMetadataChangeWithMore && status == S174
        && to == ReceivingFileMetadataChangeWithMore && advert == S175)
    || (s == BroadcastingAllMetadataReceived && status == S130
        && to == PromotingNewFileMetadata && advert == S131)
    || (s == BroadcastingAllMetadataReceived && status == S134
        && to == PromotingNewFileMetadataWithMore && advert == S135)
    || (s == PromotingNewFileMetadata && status == S134
        && to == PromotingNewFileMetadataWithMore && advert == S135)
    || (s == ReceivingFileMetadataChange && status == S175
        && to == ReceivingFileMetadataChangeWithMore && advert == S171)
    || (s == PromotingNewFileMetadata && status == S132 && to == SendingFakeFile && advert == S111)
    || (s == BroadcastingAllReceived && status == S155 && to == SyncingStop && advert == S155)
    || (s == BroadcastingAllMetadataReceived && status == S150 && to == Ready && advert == S150)
    || (s == SyncingStop && status == S156 && to == Ready && advert == S100)
  }

  /** Going on within a session, without touching any file. */
  ghost predicate FollowGoOn(o: Office, m: Input, r: Result) {
    && r.outcome == Done
    && |r.beats| == 1
    && Step(o.state, m.status, r.office.state, r.beats[0].status)
    && OnlyStop(r)
    && Kept(o, r)
    && r.office.notified == o.notified
  }

  /** Reading the record of a new file: it becomes current and the dispatcher is told once. */
  ghost predicate FollowRecord(o: Office, m: Input, r: Result) {
    && o.state == PromotingNewFileMetadata && m.status == S130 && !o.notified
    && r.office.state == o.state && r.beats == []
    && r.orders == [Pretend(m.deadline)]
    && r.office.current == Some(m.file) && r.office.notified
  }

  /** Reading a metadata record: it counts as received. */
  ghost predicate FollowApply(o: Office, m: Input, r: Result) {
    && (|| (o.state == ReceivingFileMetadataChange && m.status == S170)
        || (o.state == ReceivingFileMetadataChangeWithMore && m.status == S174 && !r.office.notified))
    && Moves(r, BroadcastingAllMetadataReceived, S141)
    && r.orders == []
  }

  /** Storing a data packet; only the last one moves on. */
  ghost predicate FollowData(o: Office, m: Input, r: Result) {
    && o.state == SendingFakeFile && m.status == S200 && o.current.Some?
    && r.office.current == None && r.office.disk == Received(o.disk, o.current.value, m)
    && r.orders == []
    && (if m.more then r.office.state == SendingFakeFile && r.beats == []
        else Moves(r, BroadcastingAllReceived, S140))
  }

  ghost predicate FollowMove(o: Office, m: Input, r: Result) {
    || FollowQuiet(o, m, r)
    || FollowAdopt(o, m, r)
    || FollowGoOn(o, m, r)
    || FollowRecord(o, m, r)
    || FollowApply(o, m, r)
    || FollowData(o, m, r)
    || Leaves(o, m, r)
  }

  /** A message that can reach a following node while every node is honest and only one announces. */
  predicate FollowInput(o: Office, m: Input) {
    || ((LeadStatus(m.status) || FollowStatus(m.status)) && m.sender in o.replied)
    || m.status == S200 || m.status == S210 || m.status == S132 || m.status == S156 || m.status == S500
    || ((m.status == S300 || m.status == S320) && o.state != Ready)
  }

  lemma FollowReplyRow(s: State, status: Status)
    requires FollowState(s) && Reply(status) && CheckEvent(s, EventOf(status), status)
    ensures EventOf(status) == ReceivedHeartbeat && NewState(s, ReceivedHeartbeat, status) == s
  {
  }

  /** A following node has no round to conclude: the table refuses it, or nothing changes. */
  lemma FollowRoundRow(s: State, c: Status)
    requires FollowState(s)
    requires c in {S172, S174, S177, S178, S122, S162, S166, S142}
    requires CheckEvent(s, EventOf(c), c)
    requires c == S174 ==> s != AcknowledgingFileMetadataChangeWithMore
    ensures c == S174 && s == ReceivingFileMetadataChangeWithMore && NewState(s, EventOf(c), c) == s
  {
  }

  lemma FollowReplies(o: Office, m: Input)
    requires FollowState(o.state) && Reply(m.status) && m.sender in o.replied
    requires CheckEvent(o.state, EventOf(m.status), m.status)
    ensures FollowQuiet(o, m, Process(o, m))
  {
    FollowReplyRow(o.state, m.status);
    HeartbeatPath(o, m);
    ReplyKeeps(o, m);
    var a := OnHeartbeat(Timestamped(o, m), m);
    assert m.status == S141 ==> o.state != AcknowledgingFileMetadataChangeWithMore;
    if CheckEvent(o.state, a.event, a.status) && a.status != m.status { FollowRoundRow(o.state, a.status); }
    hide Process, OnHeartbeat, Timestamped, CheckEvent, NewState, EventOf, Perform, FollowState, Continue, StartTime;
    Stayed(OnQuorum(Rechecked(a, m.status), m), m);
  }

  /** Whatever a reply does, it only touches flags. */
  lemma ReplyKeeps(o: Office, m: Input)
    requires Reply(m.status) && m.sender in o.replied
    ensures var a := OnHeartbeat(Timestamped(o, m), m);
            && a == Plain(a.office, a.status)
            && (a.status == m.status || a.status == Concluded(o, m.status))
            && a.office.state == o.state && a.office.disk == o.disk
            && a.office.current == o.current && a.office.notified == o.notified
  {
    hide EventOf, OnNewFileRecord, OnMetadata, OnEnd, OnNotice, Int16;
  }

  predicate Adoption(s: State, status: Status, to: State, advert: Status) {
    && s == Ready
    && (|| (status == S120 && to == AcknowledgingNewFile && advert == S121)
        || (status == S160 && to == AcknowledgingFileMetadataChange && advert == S161)
        || (status == S164 && to == AcknowledgingFileMetadataChangeWithMore && advert == S165))
  }

  lemma FollowHeartbeatRow(s: State, status: Status)
    requires FollowState(s) && (LeadStatus(status) || FollowStatus(status)) && !Reply(status)
    requires CheckEvent(s, EventOf(status), status)
    ensures EventOf(status) == ReceivedHeartbeat
    ensures var to := NewState(s, ReceivedHeartbeat, status);
            var advert := HeartbeatStatus(s, ReceivedHeartbeat, status);
            to != s ==>
              ActionOf(s, ReceivedHeartbeat, status) == SendHeartbeat
              && (Step(s, status, to, advert) || Adoption(s, status, to, advert))
    ensures s == Ready && status == S150 ==>
              CheckEvent(s, ReceivedHeartbeat, S100) && NewState(s, ReceivedHeartbeat, S100) == s
    ensures status == S120 ==>
              s == AcknowledgingNewFile || (s == Ready && NewState(s, ReceivedHeartbeat, status) != s)
    ensures status != S124
  {
  }

  /** The part after the message was taken in, for a heartbeat that is not rewritten. */
  lemma FollowContinues(o: Office, m: Input, a: Mid)
    requires a.outcome == Done && a.event == ReceivedHeartbeat && a.status == m.status && a.beats == []
    requires a.orders == [] || (|a.orders| == 1 && a.orders[0].Stop? && m.status == S155)
    requires a.office.state == o.state && a.office.disk == o.disk && a.office.current == o.current
    requires a.office.notified == (o.notified && m.status != S120)
    requires m.status == S155 ==> a.office.stopSent
    requires m.status == S120 ==>
               || o.state == AcknowledgingNewFile
               || (o.state == Ready && NewState(o.state, ReceivedHeartbeat, m.status) != o.state)
    requires o.state == Ready ==> m.status != S150
    requires var to := NewState(o.state, ReceivedHeartbeat, m.status);
             var advert := HeartbeatStatus(o.state, ReceivedHeartbeat, m.status);
             to != o.state ==>
               ActionOf(o.state, ReceivedHeartbeat, m.status) == SendHeartbeat
               && (Step(o.state, m.status, to, advert) || Adoption(o.state, m.status, to, advert))
    ensures FollowMove(o, m, Continue(a, m))
  {
    hide CheckEvent, NewState, ActionOf, HeartbeatStatus, EventOf, Prepare, Continue;
    var to := NewState(o.state, ReceivedHeartbeat, m.status);
    var advert := HeartbeatStatus(o.state, ReceivedHeartbeat, m.status);
    if to == o.state {
      Stayed(a, m);
    } else {
      Performed(a, m, to, advert);
      PreparedPlain(a.office, m, advert, to);
      PreparedStop(a.office, m, advert, to);
      var r := Continue(a, m);
      if Adoption(o.state, m.status, to, advert) {
        assert FollowAdopt(o, m, r);
      } else {
        assert FollowGoOn(o, m, r);
      }
    }
  }

  lemma PreparedStop(o: Office, m: Input, status: Status, to: State)
    requires !CarriesFile(to) && (to == SyncingStop ==> o.stopSent)
    ensures Prepare(o, m, status, to).orders == []
  {
    hide StopTime;
  }

  lemma FollowNotices(o: Office, m: Input)
    requires FollowState(o.state) && (LeadStatus(m.status) || FollowStatus(m.status))
    requires !Reply(m.status) && m.status != S130 && m.status != S170 && m.status != S174
    requires m.sender in o.replied && CheckEvent(o.state, EventOf(m.status), m.status)
    ensures FollowMove(o, m, Process(o, m))
  {
    FollowHeartbeatRow(o.state, m.status);
    HeartbeatPath(o, m);
    Noticed(o, m);
    if m.status == S155 { StopNoticed(o, m); }
    hide Process, OnHeartbeat, Timestamped, CheckEvent, NewState, ActionOf, HeartbeatStatus, EventOf, Perform,
      FollowState, LeadStatus, FollowStatus, Continue, FollowMove, Step, Adoption, StartTime;
    var a := OnHeartbeat(Timestamped(o, m), m);
    assert OnQuorum(Rechecked(a, m.status), m) == a;
    if o.state == Ready && m.status == S150 {
      Stayed(a, m);
      assert FollowQuiet(o, m, Process(o, m));
      FollowQuietMoves(o, m, Process(o, m));
    } else {
      FollowContinues(o, m, a);
    }
  }

  lemma FollowQuietMoves(o: Office, m: Input, r: Result)
    requires FollowQuiet(o, m, r)
    ensures FollowMove(o, m, r)
  {
  }

  lemma StopNoticed(o: Office, m: Input)
    requires m.status == S155
    ensures OnHeartbeat(Timestamped(o, m), m).office.stopSent
  {
    hide Int16, EventOf;
  }

  /** A record that is not read yet: the heartbeat only moves the state. */
  lemma RecordUnread(o: Office, m: Input)
    requires m.status == S130 ==> o.state != PromotingNewFileMetadata || o.notified
    requires m.status == S170 ==> o.state != ReceivingFileMetadataChange
    requires m.status == S174 ==> o.state != ReceivingFileMetadataChangeWithMore
    requires m.status == S130 || m.status == S170 || m.status == S174
    ensures var a := OnHeartbeat(Timestamped(o, m), m);
            && a == Plain(a.office, m.status)
            && a.office.state == o.state && a.office.disk == o.disk
            && a.office.current == o.current && a.office.notified == o.notified
  {
    hide OnReply, OnNewFileRecord, OnEnd, Applied, Int16, EventOf;
  }

  lemma NewFileRecordRead(o: Office, m: Input)
    requires m.status == S130 && o.state == PromotingNewFileMetadata && !o.notified
    ensures var a := OnHeartbeat(Timestamped(o, m), m);
            && a.event == EventOf(a.status) && a.status == S130 && a.beats == []
            && (if !o.written && m.file.deleted
                then a.outcome == Fault && a.orders == [] && a.office == Timestamped(o, m)
                else a.outcome == Done && a.orders == [Pretend(m.deadline)] && a.office.state == o.state
                     && a.office.current == Some(m.file) && a.office.notified)
  {
    hide OnReply, OnMetadata, OnEnd, OnNotice, Int16, EventOf, Sized, Opened, Timestamped;
    assert Timestamped(o, m) == o.(skew := Timestamped(o, m).skew, replied := Timestamped(o, m).replied) by {
      TimestampKeeps(o, m);
    }
  }

  lemma TimestampKeeps(o: Office, m: Input)
    ensures var t := Timestamped(o, m); t == o.(skew := t.skew, replied := t.replied)
  {
    hide Int16;
  }

  lemma MetadataRead(o: Office, m: Input)
    requires || (m.status == S170 && o.state == ReceivingFileMetadataChange)
             || (m.status == S174 && o.state == ReceivingFileMetadataChangeWithMore)
    ensures var a := OnHeartbeat(Timestamped(o, m), m);
            && a == Plain(a.office, S173)
            && a.office.state == o.state
            && (m.status == S174 ==> !a.office.notified)
  {
    TimestampKeeps(o, m);
    hide OnReply, OnNewFileRecord, OnEnd, OnNotice, Int16, EventOf, Sized, Opened, Timestamped;
  }

  lemma RecordRow(s: State)
    ensures s == PromotingNewFileMetadata ==> NewState(s, ReceivedHeartbeat, S130) == s
    ensures s == ReceivingFileMetadataChange || s == ReceivingFileMetadataChangeWithMore ==>
              && CheckEvent(s, AllMetadataReceived, S173)
              && NewState(s, AllMetadataReceived, S173) == BroadcastingAllMetadataReceived
              && ActionOf(s, AllMetadataReceived, S173) == SendHeartbeat
              && HeartbeatStatus(s, AllMetadataReceived, S173) == S141
    ensures EventOf(S173) == AllMetadataReceived && EventOf(S130) == ReceivedHeartbeat
  {
  }

  lemma FollowReadsNewFile(o: Office, m: Input)
    requires o.state == PromotingNewFileMetadata && m.status == S130 && !o.notified
    requires CheckEvent(o.state, EventOf(m.status), m.status)
    ensures FollowMove(o, m, Process(o, m))
  {
    RecordRow(o.state);
    HeartbeatPath(o, m);
    TimestampKeeps(o, m);
    NewFileRecordRead(o, m);
    hide Process, OnHeartbeat, Timestamped, CheckEvent, NewState, EventOf, Continue, FollowMove, StartTime;
    Stayed(OnQuorum(Rechecked(OnHeartbeat(Timestamped(o, m), m), m.status), m), m);
    FollowRecordMoves(o, m, Process(o, m));
  }

  lemma FollowReadsMetadata(o: Office, m: Input)
    requires || (m.status == S170 && o.state == ReceivingFileMetadataChange)
             || (m.status == S174 && o.state == ReceivingFileMetadataChangeWithMore)
    requires CheckEvent(o.state, EventOf(m.status), m.status) && EventOf(m.status) == ReceivedHeartbeat
    ensures FollowMove(o, m, Process(o, m))
  {
    RecordRow(o.state);
    HeartbeatPath(o, m);
    MetadataRead(o, m);
    hide Process, OnHeartbeat, Timestamped, CheckEvent, NewState, ActionOf, HeartbeatStatus, EventOf, Continue,
      Prepare, FollowMove, StartTime;
    var a := OnHeartbeat(Timestamped(o, m), m);
    assert OnQuorum(Rechecked(a, m.status), m) == a;
    Performed(a, m, BroadcastingAllMetadataReceived, S141);
    PreparedPlain(a.office, m, S141, BroadcastingAllMetadataReceived);
    FollowRecordMoves(o, m, Process(o, m));
  }

  lemma FollowReads(o: Office, m: Input)
    requires FollowState(o.state) && (m.status == S130 || m.status == S170 || m.status == S174)
    requires m.sender in o.replied && CheckEvent(o.state, EventOf(m.status), m.status)
    ensures FollowMove(o, m, Process(o, m))
  {
    FollowHeartbeatRow(o.state, m.status);
    if m.status == S130 && o.state == PromotingNewFileMetadata && !o.notified {
      FollowReadsNewFile(o, m);
    } else if (m.status == S170 && o.state == ReceivingFileMetadataChange)
           || (m.status == S174 && o.state == ReceivingFileMetadataChangeWithMore) {
      FollowReadsMetadata(o, m);
    } else {
      HeartbeatPath(o, m);
      RecordUnread(o, m);
      hide Process, OnHeartbeat, Timestamped, CheckEvent, NewState, ActionOf, HeartbeatStatus, EventOf,
        FollowState, LeadStatus, FollowStatus, Continue, FollowMove, Step, Adoption, StartTime;
      var a := OnHeartbeat(Timestamped(o, m), m);
      assert OnQuorum(Rechecked(a, m.status), m) == a;
      FollowContinues(o, m, a);
    }
  }

  lemma FollowRecordMoves(o: Office, m: Input, r: Result)
    requires FollowQuiet(o, m, r) || FollowRecord(o, m, r) || FollowApply(o, m, r)
    ensures FollowMove(o, m, r)
  {
  }

  lemma FollowOtherRow(s: State, status: Status)
    requires FollowState(s)
    requires status == S200 || status == S210 || status == S132 || status == S156 || status == S500
             || ((status == S300 || status == S320) && s != Ready)
    requires CheckEvent(s, EventOf(status), status)
    ensures var e := EventOf(status);
            && (status == S500 <==> e == Interrupt) && (status == S200 <==> e == ReceivedFileData)
            && (LocalFileEvent(e) <==> status == S300 || status == S320)
            && (e == TimingOffsetElapsed || e == Interrupt || e == ReceivedFileData
                || e == ReceivedFakeFileData || LocalFileEvent(e))
            && (status == S500 ==> NewState(s, e, status) == Exit && ActionOf(s, e, status) == ExitProgram)
            && (status == S200 ==> s == SendingFakeFile && NewState(s, e, status) == s)
            && (LocalFileEvent(e) ==> NewState(s, e, status) == s && s != AnnouncingNewFile)
            && (e == TimingOffsetElapsed || e == ReceivedFakeFileData ==>
                  ActionOf(s, e, status) == SendHeartbeat
                  && Step(s, status, NewState(s, e, status), HeartbeatStatus(s, e, status)))
  {
  }

  lemma FollowTicks(o: Office, m: Input)
    requires FollowState(o.state)
    requires m.status == S210 || m.status == S132 || m.status == S156 || m.status == S500
    requires CheckEvent(o.state, EventOf(m.status), m.status)
    ensures FollowMove(o, m, Process(o, m))
  {
    FollowOtherRow(o.state, m.status);
    TickPath(o, m);
    hide Process, CheckEvent, NewState, ActionOf, HeartbeatStatus, EventOf, Prepare, Continue, FollowState;
    var a := Plain(o, m.status);
    if m.status == S500 {
      Interrupted(o, m);
    } else {
      var to := NewState(o.state, a.event, a.status);
      var advert := HeartbeatStatus(o.state, a.event, a.status);
      Performed(a, m, to, advert);
      PreparedPlain(o, m, advert, to);
      assert FollowGoOn(o, m, Process(o, m));
    }
  }

  lemma FollowLocals(o: Office, m: Input)
    requires FollowState(o.state) && o.state != Ready && (m.status == S300 || m.status == S320)
    requires CheckEvent(o.state, EventOf(m.status), m.status)
    ensures FollowMove(o, m, Process(o, m))
  {
    FollowOtherRow(o.state, m.status);
    LocalFilePath(o, m);
    LocalFileNoted(o, m);
    hide Process, CheckEvent, NewState, ActionOf, HeartbeatStatus, EventOf, Prepare, Continue, FollowState,
      OnLocalFile, FollowMove;
    Stayed(OnLocalFile(Plain(o, m.status), m), m);
    FollowQuietMoves(o, m, Process(o, m));
  }

  lemma DataRow()
    ensures CheckEvent(SendingFakeFile, AllDataReceived, S113)
    ensures NewState(SendingFakeFile, AllDataReceived, S113) == BroadcastingAllReceived
    ensures ActionOf(SendingFakeFile, AllDataReceived, S113) == SendHeartbeat
    ensures HeartbeatStatus(SendingFakeFile, AllDataReceived, S113) == S140
    ensures EventOf(S113) == AllDataReceived
  {
  }

  lemma FollowStores(o: Office, m: Input)
    requires FollowState(o.state) && m.status == S200
    requires CheckEvent(o.state, EventOf(m.status), m.status)
    ensures FollowMove(o, m, Process(o, m))
  {
    FollowOtherRow(o.state, m.status);
    DataPath(o, m);
    DataRow();
    hide Process, CheckEvent, NewState, ActionOf, HeartbeatStatus, EventOf, Prepare, Continue, FollowState,
      FollowMove, Received;
    var a := OnData(Plain(o, m.status), m);
    if o.current.None? || m.more {
      Stayed(a, m);
    } else {
      Performed(a, m, BroadcastingAllReceived, S140);
      PreparedPlain(a.office, m, S140, BroadcastingAllReceived);
    }
    FollowDataMoves(o, m, Process(o, m));
  }

  lemma FollowDataMoves(o: Office, m: Input, r: Result)
    requires FollowQuiet(o, m, r) || FollowData(o, m, r)
    ensures FollowMove(o, m, r)
  {
  }

  /** Every step of a following node is one of the moves above. */
  lemma FollowSteps(o: Office, m: Input)
    requires FollowState(o.state) && FollowInput(o, m)
    ensures FollowMove(o, m, Process(o, m))
  {
    hide FollowMove, Process;
    if !CheckEvent(o.state, EventOf(m.status), m.status) {
      Ignored(o, m);
      assert o.state == Ready ==> m.status != S150;
      FollowQuietMoves(o, m, Process(o, m));
    } else if m.status == S300 || m.status == S320 {
      FollowLocals(o, m);
    } else if m.status == S200 {
      FollowStores(o, m);
    } else if m.status == S210 || m.status == S156 || m.status == S132 || m.status == S500 {
      FollowTicks(o, m);
    } else if Reply(m.status) {
      FollowReplies(o, m);
      FollowQuietMoves(o, m, Process(o, m));
    } else if m.status == S130 || m.status == S170 || m.status == S174 {
      FollowReads(o, m);
    } else {
      FollowNotices(o, m);
    }
  }
}
