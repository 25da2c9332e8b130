/**
 * Messages to the dispatcher, one step at a time: the start of a transfer, the fake
 * traffic that goes with it, and the stop.
 */
module Orders {
  import opened Fsm
  import opened Boxoffice
  import opened Steps
  import opened Counting
  import opened Queues

  predicate Notices(o: Office, m: Input, a: Mid) {
    || a.orders == []
    || (&& a.orders == [Pretend(m.deadline)] && m.status == S130 && o.state == PromotingNewFileMetadata
        && !o.notified && a.office.notified)
    || (a.orders == [Stop(m.deadline)] && m.status == S155 && !o.stopSent && a.office.stopSent)
  }

  /** When the two flags that hold back notices are cleared. */
  predicate Cleared(o: Office, m: Input, p: Office) {
    && (o.notified && !p.notified ==>
          m.status == S120 || m.status == S124
          || (m.status == S174 && o.state == ReceivingFileMetadataChangeWithMore))
    && (o.stopSent && !p.stopSent ==> m.status == S100)
  }

  lemma RecordNotices(o: Office, m: Input)
    requires m.status == S130 && o.state == PromotingNewFileMetadata && !o.notified
    ensures var a := OnNewFileRecord(o, m); Notices(o, m, a) && Cleared(o, m, a.office)
  {
    hide EventOf, Opened, Sized;
  }

  lemma MetadataNotices(o: Office, m: Input)
    requires m.status == S170 || m.status == S174
    ensures var a := OnMetadata(o, m); a.orders == [] && Cleared(o, m, a.office)
  {
    hide EventOf, Opened, Sized;
  }

  lemma ReplyNotices(o: Office, m: Input)
    ensures var a := OnReply(o, m); a.orders == [] && Cleared(o, m, a.office)
  {
    hide EventOf, Concluded;
  }

  lemma EndNotices(o: Office, m: Input)
    requires m.status == S150 || m.status == S155
    ensures var a := OnEnd(o, m); Notices(o, m, a) && Cleared(o, m, a.office)
  {
    hide EventOf;
  }

  lemma HeardNotices(o: Office, m: Input)
    ensures var a := OnHeartbeat(o, m); Notices(o, m, a) && Cleared(o, m, a.office)
    ensures Reply(m.status) ==> OnHeartbeat(o, m).orders == []
  {
    hide EventOf, OnReply, OnNewFileRecord, OnMetadata, OnEnd, Notices;
    ReplyNotices(o, m);
    NoNotice(o, m, OnHeartbeat(o, m));
    if m.status == S130 && o.state == PromotingNewFileMetadata && !o.notified { RecordNotices(o, m); }
    if m.status == S170 || m.status == S174 { MetadataNotices(o, m); }
    if m.status == S150 || m.status == S155 { EndNotices(o, m); }
  }

  lemma NoNotice(o: Office, m: Input, a: Mid)
    ensures a.orders == [] ==> Notices(o, m, a)
  {
  }

  lemma EnteredNotices(o: Office, m: Input)
    requires Accepted(o, m)
    ensures var a := Entered(o, m); Notices(o, m, a) && Cleared(o, m, a.office)
    ensures var a := Entered(o, m); (a.status == S122 || a.status == S177) ==> a.orders == []
  {
    hide EventOf, CheckEvent, OnHeartbeat, Int16;
    HeardNotices(Timestamped(o, m), m);
    HeardStatus(Timestamped(o, m), m);
  }

  lemma LocalNotices(a: Mid, m: Input)
    ensures var q := OnLocalFile(a, m);
            && q.orders == a.orders && q.office.notified == a.office.notified && q.office.stopSent == a.office.stopSent
            && q.office.deadline == a.office.deadline
  {
    hide EventOf;
  }

  lemma DataNotices(a: Mid, m: Input)
    ensures var q := OnData(a, m);
            && q.orders == a.orders && q.office.notified == a.office.notified && q.office.stopSent == a.office.stopSent
            && q.office.deadline == a.office.deadline
  {
    hide EventOf, CheckEvent, Received;
  }

  /** With the round over, the dispatcher gets the file at the head of the queue. */
  lemma StartNotice(a: Mid, m: Input)
    requires a.event == EventOf(a.status)
    ensures var q := OnQuorum(a, m);
            && q.office.notified == a.office.notified && q.office.stopSent == a.office.stopSent
            && (if a.outcome == Done && (a.status == S122 || a.status == S177) && a.office.dataQueue != []
                then q.outcome == Done
                     && q.orders == a.orders + [Send(a.status, q.office.deadline, a.office.dataQueue[0])]
                else q.orders == a.orders)
  {
    hide StartTime;
  }

  /** The orders before the state changes. */
  predicate Ordered(o: Office, m: Input, a: Mid) {
    || Notices(o, m, a)
    || (&& (a.status == S122 || a.status == S177) && o.dataQueue != []
        && a.orders == [Send(a.status, a.office.deadline, o.dataQueue[0])])
  }

  lemma SettledOrders(o: Office, m: Input)
    requires Accepted(o, m)
    ensures var a := Settled(o, m); Ordered(o, m, a) && Cleared(o, m, a.office)
    ensures var a := Settled(o, m); a.status == S122 || a.status == S177 ==> a.orders == [] || a.orders[0].Send?
  {
    hide Entered, OnQuorum, OnLocalFile, OnData, EventOf, CheckEvent, Accepted;
    var a := Entered(o, m);
    var b := OnQuorum(a, m);
    var c := OnLocalFile(b, m);
    HeardConsistent(o, m);
    EnteredNotices(o, m);
    EnteredStatus(o, m);
    StartNotice(a, m);
    QuorumFlags(a, m);
    LocalNotices(b, m);
    LocalStatus(b, m);
    DataNotices(c, m);
    DataStatus(c, m);
    QuorumConsistent(o.state, a, m);
    LocalConsistent(o.state, b, m);
    FileEvents(b.status);
    FileEvents(c.status);
  }

  // ---------- the whole step ----------

  lemma PreparedOrders(o: Office, m: Input, status: Status, to: State)
    ensures var r := Prepare(o, m, status, to);
            var stops := to == SyncingStop && !o.stopSent;
            && r.office.notified == o.notified
            && r.orders == (if stops then [Stop(StopTime(m))] else [])
            && r.office.stopSent == (o.stopSent || stops)
            && (stops ==> r.outcome == Done && r.office.deadline == StopTime(m)
                          && r.beats == [Beat(status, None, Some(StopTime(m)))])
  {
    hide StopTime;
  }

  lemma StopFits(status: Status)
    requires Fits(SyncingStop, status)
    ensures status == S155
  {
  }

  /** Entering the stop phase sends the stop time, once. */
  lemma ContinuedOrders(s: State, a: Mid, m: Input)
    requires Consistent(s, a)
    ensures var r := Continue(a, m);
            var stops := a.outcome == Done && NewState(s, a.event, a.status) == SyncingStop != s && !a.office.stopSent;
            && r.office.notified == a.office.notified
            && r.orders == a.orders + (if stops then [Stop(StopTime(m))] else [])
            && r.office.stopSent == (a.office.stopSent || stops)
            && (stops ==> r.office.state == SyncingStop && r.office.deadline == StopTime(m)
                          && r.beats == a.beats + [Beat(S155, None, Some(StopTime(m)))])
  {
    if a.outcome == Done && NewState(s, a.event, a.status) != s { AdvertRow(s, a.status); }
    hide CheckEvent, NewState, ActionOf, HeartbeatStatus, EventOf, Fits, StopTime, Prepare;
    var to, h := NewState(s, a.event, a.status), HeartbeatStatus(s, a.event, a.status);
    PreparedOrders(a.office, m, h, to);
    if a.outcome == Done && to == SyncingStop != s { StopFits(h); }
  }

  /** The file and the start that the dispatcher got are the ones advertised. */
  lemma ContinuedStart(s: State, a: Mid, m: Input)
    requires Consistent(s, a) && a.outcome == Done && (a.status == S122 || a.status == S177)
    requires a.office.dataQueue != [] && a.beats == []
    ensures var r := Continue(a, m);
            && r.office.state == SendingNewFileMetadata && r.office.deadline == a.office.deadline
            && r.orders == a.orders
            && r.beats == [Beat(S130, Some(a.office.dataQueue[0]), Some(a.office.deadline))]
  {
    StartRows(s, a.status);
    hide CheckEvent, NewState, ActionOf, HeartbeatStatus, EventOf;
  }

  ghost predicate OrderFits(o: Office, m: Input, r: Result, x: Order) {
    match x
    case Send(_, start, f) =>
      && o.dataQueue != [] && f == o.dataQueue[0]
      && r.beats == [Beat(S130, Some(f), Some(start))]
      && r.office.deadline == start && r.office.state == SendingNewFileMetadata
    case Pretend(start) =>
      && m.status == S130 && start == m.deadline && o.state == PromotingNewFileMetadata
      && !o.notified && r.office.notified
    case Stop(end) =>
      && !o.stopSent && r.office.stopSent
      && (|| (m.status == S155 && end == m.deadline)
          || (&& r.office.state == SyncingStop && r.beats == [Beat(S155, None, Some(end))]
              && end == r.office.deadline == StopTime(m)))
  }

  lemma PromotingRow(o: Office, m: Input)
    requires o.state == PromotingNewFileMetadata && m.status == S130
    ensures NewState(PromotingNewFileMetadata, EventOf(S130), S130) == PromotingNewFileMetadata
  {
  }

  lemma IdleRow(o: Office, m: Input)
    requires Accepted(o, m) && m.status == S100
    ensures Settled(o, m).status == S100 && NewState(o.state, EventOf(S100), S100) == o.state == Ready
  {
    SettledStatus(o, m);
    hide Settled;
  }

  lemma SettledSend(o: Office, m: Input)
    requires Accepted(o, m) && Settled(o, m).orders != [] && Settled(o, m).orders[0].Send?
    ensures var a := Settled(o, m);
            && a.outcome == Done && (a.status == S122 || a.status == S177) && a.beats == []
            && a.office.dataQueue != [] && o.dataQueue != [] && a.office.dataQueue[0] == o.dataQueue[0]
            && a.orders == [Send(a.status, a.office.deadline, o.dataQueue[0])]
  {
    hide Entered, OnQuorum, OnLocalFile, OnData, EventOf, CheckEvent, Accepted;
    SettledOrders(o, m);
    SettledQueues(o, m);
    SettledBeats(o, m);
    SettledStatus(o, m);
    var a := Entered(o, m);
    var b := OnQuorum(a, m);
    var c := OnLocalFile(b, m);
    HeardConsistent(o, m);
    EnteredNotices(o, m);
    StartNotice(a, m);
    QuorumFlags(a, m);
    LocalNotices(b, m);
    DataNotices(c, m);
    QuorumConsistent(o.state, a, m);
    FileEvents(b.status);
    LocalFlags(b, m);
    DataFlags(c, m);
  }

  lemma SettledPretend(o: Office, m: Input)
    requires Accepted(o, m) && m.status == S130
    ensures Settled(o, m).status == S130
  {
    SettledStatus(o, m);
    hide Settled, Accepted;
  }

  lemma OrderStep(o: Office, m: Input)
    ensures var r := Process(o, m);
            |r.orders| <= 1 && (r.orders != [] ==> Accepted(o, m) && OrderFits(o, m, r, r.orders[0]))
    ensures Cleared(o, m, Process(o, m).office)
    ensures !Accepted(o, m) ==> Process(o, m).office == o
    ensures Process(o, m).office.state == SyncingStop != o.state ==> Process(o, m).office.stopSent
  {
    hide Settled, Consistent, Continue, Process, NewState, EventOf, Accepted, StopTime, Row, Fits;
    ProcessSettles(o, m);
    if Accepted(o, m) {
      var a := Settled(o, m);
      SettledConsistent(o, m);
      SettledOrders(o, m);
      ConsistentRow(o.state, a);
      ContinuedOrders(o.state, a, m);
      Continued(o.state, a, m);
      SettledBeats(o, m);
      if m.status == S150 && o.state == Ready { ReturnKept(o, m); }
      if a.orders != [] && a.orders[0].Send? {
        SettledSend(o, m);
        ContinuedStart(o.state, a, m);
      } else if a.orders != [] && a.orders[0].Pretend? {
        SettledPretend(o, m);
        PromotingRow(o, m);
      } else if m.status == S100 {
        IdleRow(o, m);
      }
    }
  }

  // ---------- what lets the next notice through ----------

  lemma HeardClears(o: Office, m: Input)
    requires EventOf(m.status) == ReceivedHeartbeat
    ensures var p := OnHeartbeat(o, m).office;
            && (m.status == S120 || m.status == S124 ==> !p.notified)
            && (m.status == S174 && o.state == ReceivingFileMetadataChangeWithMore ==> !p.notified)
            && (m.status == S100 ==> !p.stopSent)
  {
    hide EventOf, Opened, Sized, Applied, OnReply, OnNewFileRecord, OnEnd;
  }

  lemma ClearingStatuses(status: Status)
    requires status == S100 || status == S120 || status == S124 || status == S174
    ensures EventOf(status) == ReceivedHeartbeat
  {
  }

  /** An announcement, a metadata record with more to come, and a 100 do clear the flags. */
  lemma ClearStep(o: Office, m: Input)
    requires Accepted(o, m)
    ensures var p := Process(o, m).office;
            && (m.status == S120 || m.status == S124 ==> !p.notified)
            && (m.status == S174 && o.state == ReceivingFileMetadataChangeWithMore ==> !p.notified)
            && (m.status == S100 ==> !p.stopSent)
  {
    if m.status == S100 || m.status == S120 || m.status == S124 || m.status == S174 {
      ClearingStatuses(m.status);
      HeardClears(Timestamped(o, m), m);
      if m.status == S100 { IdleRow(o, m); }
      hide Process, Continue, OnQuorum, OnLocalFile, OnData, OnHeartbeat, CheckEvent, NewState, Int16, StopTime;
      ProcessSettles(o, m);
      SettledConsistent(o, m);
      var a := Entered(o, m);
      var b := OnQuorum(a, m);
      HeardConsistent(o, m);
      StartNotice(a, m);
      LocalNotices(b, m);
      DataNotices(OnLocalFile(b, m), m);
      ContinuedOrders(o.state, Settled(o, m), m);
    }
  }
}
