/**
 * The stages of a boxoffice step, one message class at a time: which of them do
 * something for a heartbeat, a local file event, a data packet or a timer tick.
 */
module Stages {
  import opened Fsm
  import opened Boxoffice

  lemma Ignored(o: Office, m: Input)
    requires !CheckEvent(o.state, EventOf(m.status), m.status)
    ensures Process(o, m) == Result(o, [], [], Done)
  {
    hide Continue, OnData, OnLocalFile, OnQuorum, Entered, CheckEvent, EventOf;
  }

  /** What reading a record leaves alone. */
  predicate RecordFrame(o: Office, p: Office) {
    && p.state == o.state && p.replied == o.replied && p.skew == o.skew
    && p.dataQueue == o.dataQueue && p.metaQueue == o.metaQueue && p.deadline == o.deadline && p.stopSent == o.stopSent
  }

  lemma NewFileFrame(o: Office, m: Input)
    ensures RecordFrame(o, OnNewFileRecord(o, m).office)
  {
    hide Opened, Sized, EventOf;
  }

  lemma AppliedFrame(o: Office, f: Record)
    ensures RecordFrame(o, Applied(o, f))
  {
    hide Opened, Sized;
  }

  lemma MetadataFrame(o: Office, m: Input)
    ensures RecordFrame(o, OnMetadata(o, m).office)
  {
    AppliedFrame(o, m.file);
    hide Applied, EventOf;
  }

  lemma RecordEvent(o: Office, m: Input)
    requires m.status == S130 || m.status == S170 || m.status == S174
    ensures var a := if m.status == S130 then OnNewFileRecord(o, m) else OnMetadata(o, m);
            a.event == EventOf(a.status) && (a.status == m.status || a.status == S173)
  {
    hide Opened, Applied, Sized, EventOf;
  }

  /** Handling a heartbeat never turns it into a local file event or a data packet. */
  lemma HeartbeatEvent(o: Office, m: Input)
    requires EventOf(m.status) == ReceivedHeartbeat
    ensures var a := OnHeartbeat(o, m);
            && a.event == EventOf(a.status)
            && !LocalFileEvent(a.event) && a.event != ReceivedFileData
  {
    if m.status == S130 || m.status == S170 || m.status == S174 { RecordEvent(o, m); }
    hide OnNewFileRecord, OnMetadata, OnNotice;
  }

  lemma HeartbeatPath(o: Office, m: Input)
    requires CheckEvent(o.state, EventOf(m.status), m.status)
    requires EventOf(m.status) == ReceivedHeartbeat
    ensures Process(o, m)
         == Continue(OnQuorum(Rechecked(OnHeartbeat(Timestamped(o, m), m), m.status), m), m)
  {
    HeartbeatEvent(Timestamped(o, m), m);
    hide Continue, OnHeartbeat, StartTime, CheckEvent, EventOf, Timestamped;
  }

  lemma LocalFilePath(o: Office, m: Input)
    requires CheckEvent(o.state, EventOf(m.status), m.status)
    requires LocalFileEvent(EventOf(m.status))
    ensures Process(o, m) == Continue(OnLocalFile(Plain(o, m.status), m), m)
  {
    hide Continue, OnHeartbeat, StartTime, CheckEvent, Timestamped;
  }

  lemma DataPath(o: Office, m: Input)
    requires CheckEvent(o.state, EventOf(m.status), m.status)
    requires EventOf(m.status) == ReceivedFileData
    ensures Process(o, m) == Continue(OnData(Plain(o, m.status), m), m)
  {
    hide Continue, OnHeartbeat, OnData, StartTime, CheckEvent, EventOf;
  }

  lemma TickPath(o: Office, m: Input)
    requires CheckEvent(o.state, EventOf(m.status), m.status)
    requires var e := EventOf(m.status);
             e == TimingOffsetElapsed || e == Interrupt || e == ReceivedFakeFileData || e == FileSendTick
    ensures Process(o, m) == Continue(Plain(o, m.status), m)
  {
    hide Continue, OnHeartbeat, StartTime, CheckEvent, EventOf, Timestamped;
  }

  /** A heartbeat action leaves the reply flags alone. */
  lemma PrepareKeys(o: Office, m: Input, status: Status, to: State)
    ensures Prepare(o, m, status, to).office.replied == o.replied
  {
    hide StopTime;
  }

  lemma ContinueKeys(a: Mid, m: Input)
    ensures Continue(a, m).office.replied == a.office.replied
  {
    var to := NewState(a.office.state, a.event, a.status);
    PrepareKeys(a.office, m, HeartbeatStatus(a.office.state, a.event, a.status), to);
    hide Prepare, NewState, HeartbeatStatus, ActionOf;
  }

  /** Starting a transfer changes nothing of the node but the deadline. */
  lemma QuorumFrame(a: Mid, m: Input)
    ensures OnQuorum(a, m).office == a.office.(deadline := OnQuorum(a, m).office.deadline)
  {
    hide StartTime, SkewOf, UInt64;
    var q := OnQuorum(a, m);
    assert q.office == a.office || q.office == a.office.(deadline := StartTime(a.office, m));
  }
}
