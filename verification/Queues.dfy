/**
 * The two file queues and the notices to the dispatcher, one step at a time.
 */
module Queues {
  import opened Fsm
  import opened Boxoffice
  import opened Stages
  import opened Roles
  import opened Steps
  import opened Counting
  import opened ByNumber

  /**
   * New files that a message reports: 300 and 304 count in every state from 1 (ready) to 27, but
   * for 2 (announcing a new file), and up to a path of 128 characters.
   */
  function NewData(o: Office, m: Input): seq<Record> {
    if (m.status == 300 || m.status == 304) && 1 <= o.state <= 27 && o.state != 2 && |m.file.path| <= 128
    then [m.file] else []
  }

  /** Changes of metadata that a message reports: 320 and 324 count in 1 and 3 to 14, up to the same length. */
  function NewMeta(o: Office, m: Input): seq<Record> {
    if (m.status == 320 || m.status == 324) && 1 <= o.state <= 14 && o.state != 2 && |m.file.path| <= 128
    then [m.file] else []
  }

  /** Files advertised with one of two statuses. */
  function Advertised(beats: seq<Beat>, a: Status, b: Status): seq<Record> {
    if beats == [] then [] else FileOf(beats[0], a, b) + Advertised(beats[1..], a, b)
  }

  function FileOf(beat: Beat, a: Status, b: Status): seq<Record> {
    if beat.file.Some? && (beat.status == a || beat.status == b) then [beat.file.value] else []
  }

  function DataSent(beats: seq<Beat>): seq<Record> { Advertised(beats, S130, S134) }
  function MetaSent(beats: seq<Beat>): seq<Record> { Advertised(beats, S170, S174) }

  // ---------- enqueueing ----------

  predicate Joins(a: Mid, m: Input) {
    a.outcome == Done && |m.file.path| <= MAXIMUM_PATH_LENGTH && a.office.state != AnnouncingNewFile
  }

  function Joining(a: Mid, m: Input, e: Event, f: Event): seq<Record> {
    if Joins(a, m) && (a.event == e || a.event == f) then [m.file] else []
  }

  lemma LocalQueues(a: Mid, m: Input)
    ensures var p := OnLocalFile(a, m).office;
            && p.dataQueue == a.office.dataQueue + Joining(a, m, NewLocalFile, NewLocalFileWithMore)
            && p.metaQueue == a.office.metaQueue
                              + Joining(a, m, LocalFileMetadataChange, LocalFileMetadataChangeWithMore)
  {
    hide EventOf;
    if !Joins(a, m) || !LocalFileEvent(a.event) {
      assert OnLocalFile(a, m).office.dataQueue == a.office.dataQueue;
      assert OnLocalFile(a, m).office.metaQueue == a.office.metaQueue;
      hide OnLocalFile;
    }
  }

  lemma QueueEvents(s: Status)
    ensures (EventOf(s) == NewLocalFile || EventOf(s) == NewLocalFileWithMore) <==> (s == S300 || s == S304)
    ensures (EventOf(s) == LocalFileMetadataChange || EventOf(s) == LocalFileMetadataChangeWithMore)
            <==> (s == S320 || s == S324)
  {
  }

  lemma PlainEntry(o: Office, m: Input)
    requires FileEvent(m.status)
    ensures OnQuorum(Entered(o, m), m) == Plain(o, m.status)
  {
    hide CheckEvent;
  }

  lemma SettledQueues(o: Office, m: Input)
    requires Accepted(o, m)
    ensures var p := Settled(o, m).office;
            && p.state == o.state
            && p.dataQueue == o.dataQueue + NewData(o, m) && p.metaQueue == o.metaQueue + NewMeta(o, m)
  {
    TakenExactly(m.status, o.state);
    hide Entered, OnQuorum, OnLocalFile, OnData, EventOf, CheckEvent;
    var a := Entered(o, m);
    var b := OnQuorum(a, m);
    HeardConsistent(o, m);
    QuorumConsistent(o.state, a, m);
    QuorumFlags(a, m);
    LocalQueues(b, m);
    LocalConsistent(o.state, b, m);
    DataConsistent(o.state, OnLocalFile(b, m), m);
    QueueEvents(b.status);
    EnteredStatus(o, m);
    if FileEvent(m.status) { PlainEntry(o, m); }
  }

  // ---------- dequeueing ----------

  lemma AdvertisedOne(beat: Beat, a: Status, b: Status)
    ensures Advertised([beat], a, b) ==
            if beat.file.Some? && (beat.status == a || beat.status == b) then [beat.file.value] else []
  {
    assert [beat][1..] == [];
  }

  lemma FitsFile(to: State, status: Status)
    requires Fits(to, status)
    ensures to == SendingNewFileMetadata || to == SendingNewFileMetadataWithMore ==> status == S130 || status == S134
    ensures to == SendingFileMetadataChange || to == SendingFileMetadataChangeWithMore ==>
              status == S170 || status == S174
  {
  }

  lemma PreparedOther(o: Office, m: Input, status: Status, to: State)
    requires !CarriesFile(to)
    ensures var r := Prepare(o, m, status, to);
            && r.office.dataQueue == o.dataQueue && r.office.metaQueue == o.metaQueue
            && |r.beats| == 1 && r.beats[0].file.None?
  {
    hide StopTime;
  }

  lemma PreparedData(o: Office, m: Input, status: Status, to: State)
    requires to == SendingNewFileMetadata || to == SendingNewFileMetadataWithMore
    requires status == S130 || status == S134
    ensures var r := Prepare(o, m, status, to);
            && DataSent(r.beats) + r.office.dataQueue == o.dataQueue
            && MetaSent(r.beats) + r.office.metaQueue == o.metaQueue
  {
    if o.dataQueue != [] {
      var beat := Beat(status, Some(o.dataQueue[0]), Some(o.deadline));
      assert Prepare(o, m, status, to).beats == [beat];
      AdvertisedOne(beat, S130, S134);
      AdvertisedOne(beat, S170, S174);
    }
    hide Advertised;
  }

  lemma PreparedMeta(o: Office, m: Input, status: Status, to: State)
    requires to == SendingFileMetadataChange || to == SendingFileMetadataChangeWithMore
    requires status == S170 || status == S174
    ensures var r := Prepare(o, m, status, to);
            && DataSent(r.beats) + r.office.dataQueue == o.dataQueue
            && MetaSent(r.beats) + r.office.metaQueue == o.metaQueue
  {
    if o.metaQueue != [] {
      var beat := Beat(status, Some(o.metaQueue[0]), None);
      assert Prepare(o, m, status, to).beats == [beat];
      AdvertisedOne(beat, S130, S134);
      AdvertisedOne(beat, S170, S174);
    }
    hide Advertised;
  }

  lemma PreparedQueues(o: Office, m: Input, status: Status, to: State)
    requires Fits(to, status)
    ensures var r := Prepare(o, m, status, to);
            && DataSent(r.beats) + r.office.dataQueue == o.dataQueue
            && MetaSent(r.beats) + r.office.metaQueue == o.metaQueue
  {
    FitsFile(to, status);
    hide Prepare, Advertised, Fits;
    if to == SendingNewFileMetadata || to == SendingNewFileMetadataWithMore {
      PreparedData(o, m, status, to);
    } else if to == SendingFileMetadataChange || to == SendingFileMetadataChangeWithMore {
      PreparedMeta(o, m, status, to);
    } else {
      PreparedOther(o, m, status, to);
      var beat := Prepare(o, m, status, to).beats[0];
      AdvertisedOne(beat, S130, S134);
      AdvertisedOne(beat, S170, S174);
      assert Prepare(o, m, status, to).beats == [beat];
    }
  }

  lemma {:induction false} AdvertisedAppend(x: seq<Beat>, y: seq<Beat>, a: Status, b: Status)
    ensures Advertised(x + y, a, b) == Advertised(x, a, b) + Advertised(y, a, b)
  {
    hide FileOf;
    if x == [] {
      assert x + y == y;
    } else {
      AdvertisedAppend(x[1..], y, a, b);
      assert (x + y)[1..] == x[1..] + y;
    }
  }

  lemma ContinuedQueues(s: State, a: Mid, m: Input)
    requires Consistent(s, a) && DataSent(a.beats) == [] && MetaSent(a.beats) == []
    ensures var r := Continue(a, m);
            && DataSent(r.beats) + r.office.dataQueue == a.office.dataQueue
            && MetaSent(r.beats) + r.office.metaQueue == a.office.metaQueue
  {
    hide CheckEvent, NewState, ActionOf, HeartbeatStatus, EventOf, Prepare, Fits, Advertised;
    var to, h := NewState(s, a.event, a.status), HeartbeatStatus(s, a.event, a.status);
    if a.outcome == Done && to != s {
      AdvertRow(s, a.status);
      if to != Exit {
        PreparedQueues(a.office, m, h, to);
        var r := Prepare(a.office, m, h, to);
        AdvertisedAppend(a.beats, r.beats, S130, S134);
        AdvertisedAppend(a.beats, r.beats, S170, S174);
      } else {
        AdvertisedAppend(a.beats, [], S130, S134);
        AdvertisedAppend(a.beats, [], S170, S174);
        assert a.beats + [] == a.beats;
      }
    }
  }

  /** Nothing is lost or reordered: what goes out, then what is left, is what was there, then what came in. */
  lemma QueueStep(o: Office, m: Input)
    ensures var r := Process(o, m);
            && DataSent(r.beats) + r.office.dataQueue == o.dataQueue + NewData(o, m)
            && MetaSent(r.beats) + r.office.metaQueue == o.metaQueue + NewMeta(o, m)
  {
    ProcessSettles(o, m);
    TakenExactly(m.status, o.state);
    hide Settled, Process, Continue, CheckEvent, EventOf, Consistent;
    if Accepted(o, m) {
      SettledConsistent(o, m);
      SettledQueues(o, m);
      SettledBeats(o, m);
      AdvertisedOne(Beat(S100, None, None), S130, S134);
      AdvertisedOne(Beat(S100, None, None), S170, S174);
      assert DataSent(Settled(o, m).beats) == [] && MetaSent(Settled(o, m).beats) == [];
      ContinuedQueues(o.state, Settled(o, m), m);
    }
  }

  // ---------- no queue is read while empty ----------

  /** A node that announces has what it announces. */
  predicate Stocked(o: Office) {
    && (o.state == AnnouncingNewFile ==> o.dataQueue != [])
    && (o.state == AnnouncingFileMetadataChange || o.state == AnnouncingFileMetadataChangeWithMore ==>
          o.metaQueue != [])
  }

  /** Rows into the states that stock matters for. */
  lemma StockRows(s: State, status: Status)
    requires CheckEvent(s, EventOf(status), status) && NewState(s, EventOf(status), status) != s
    ensures var t := NewState(s, EventOf(status), status);
            && (t == AnnouncingNewFile ==> s == Ready && status == S300)
            && (t == AnnouncingFileMetadataChange ==> s == Ready && status == S320)
            && (t == AnnouncingFileMetadataChangeWithMore ==>
                  FileEvent(status) && (status == S320 || status == S324 || s == AnnouncingFileMetadataChange))
            && (t == SendingNewFileMetadata ==> (s == AnnouncingNewFile && status == S122) || status == S177)
            && (t == SendingNewFileMetadataWithMore ==> status == S126 || status == S178)
            && (t == SendingFileMetadataChange ==> s == AnnouncingFileMetadataChange)
            && (t == SendingFileMetadataChangeWithMore ==> s == AnnouncingFileMetadataChangeWithMore)
  {
  }

  lemma FitsOther(to: State, status: Status)
    requires Fits(to, status) && !CarriesFile(to) && to != Exit
    ensures status != S130 && status != S134 && status != S170 && status != S174
  {
  }

  /** A step into any other state sends no file. */
  lemma NothingSent(o: Office, m: Input)
    ensures var r := Process(o, m);
            r.office.state == o.state || !CarriesFile(r.office.state) ==>
              DataSent(r.beats) == [] && MetaSent(r.beats) == []
  {
    hide Settled, Process, Continue, Row, Accepted, Fits, NewState, EventOf, Advertised, CarriesFile;
    StepTaken(o, m);
    var r := Process(o, m);
    AdvertisedNone();
    if r.beats != [] && r.office.state != o.state && !CarriesFile(r.office.state) && r.office.state != Exit {
      OneBeat(o, m);
      var b := r.beats[0];
      assert r.beats == [b];
      FitsOther(r.office.state, b.status);
      AdvertisedOne(b, S130, S134);
      AdvertisedOne(b, S170, S174);
    }
  }

  lemma AdvertisedNone()
    ensures DataSent([]) == [] && MetaSent([]) == []
    ensures DataSent([Beat(S100, None, None)]) == [] && MetaSent([Beat(S100, None, None)]) == []
  {
    AdvertisedOne(Beat(S100, None, None), S130, S134);
    AdvertisedOne(Beat(S100, None, None), S170, S174);
  }

  /** A step advertises at most once. */
  lemma OneBeat(o: Office, m: Input)
    ensures |Process(o, m).beats| <= 1
  {
    hide Settled, Consistent, Continue, Process, Row, Accepted, Fits, NewState, EventOf;
    ProcessSettles(o, m);
    if Accepted(o, m) {
      SettledConsistent(o, m);
      SettledBeats(o, m);
      if m.status == S150 && o.state == Ready { ReturnKept(o, m); }
      Continued(o.state, Settled(o, m), m);
    }
  }

  lemma JoinedShort(o: Office, m: Input)
    requires Accepted(o, m) && FileEvent(m.status) && Settled(o, m).outcome == Done
    ensures |m.file.path| <= MAXIMUM_PATH_LENGTH && (o.state == AnnouncingNewFile <==> Settled(o, m).status == S301)
  {
    hide CheckEvent, Entered, OnQuorum, OnData, EventOf;
    PlainEntry(o, m);
    FileEvents(m.status);
    FileEvents(S301);
    var a := Plain(o, m.status);
    FileEvents(OnLocalFile(a, m).status);
    DataFlags(OnLocalFile(a, m), m);
  }

  lemma StockedStep(o: Office, m: Input)
    requires Honest(m) && Stocked(o)
    ensures Stocked(Process(o, m).office)
  {
    hide Settled, Consistent, Continue, Process, Fits, NewState, EventOf, CheckEvent, Advertised, Honest, Row;
    TakenExactly(m.status, o.state);
    QueueStep(o, m);
    NothingSent(o, m);
    ProcessSettles(o, m);
    var t := Process(o, m).office.state;
    if t != o.state {
      SettledConsistent(o, m);
      SettledStatus(o, m);
      HonestStatus(m);
      Continued(o.state, Settled(o, m), m);
      RowAccepted(o.state, Settled(o, m).status, t);
      StockRows(o.state, Settled(o, m).status);
      if FileEvent(m.status) { JoinedShort(o, m); }
    }
  }

  // ---------- when a step fails ----------

  /** A deleted record where one to write is expected: the metadata cannot be stored. */
  predicate NoSuchFile(o: Office, m: Input) {
    m.status == S130 && o.state == PromotingNewFileMetadata && !o.notified && !o.written && m.file.deleted
  }

  lemma RecordOutcome(o: Office, m: Input)
    ensures OnNewFileRecord(o, m).outcome == (if !o.written && m.file.deleted then Fault else Done)
    ensures OnReply(o, m).outcome == Done && OnMetadata(o, m).outcome == Done && OnEnd(o, m).outcome == Done
  {
    hide EventOf, Opened, Sized, Applied, Concluded;
  }

  lemma EnteredOutcome(o: Office, m: Input)
    requires Accepted(o, m)
    ensures Entered(o, m).outcome == Fault <==> NoSuchFile(o, m)
    ensures Entered(o, m).office.current == o.current || m.status != S200
  {
    RecordOutcome(Timestamped(o, m), m);
    assert EventOf(S130) == ReceivedHeartbeat && EventOf(S200) != ReceivedHeartbeat;
    hide EventOf, CheckEvent, Int16, OnReply, OnNewFileRecord, OnMetadata, OnEnd;
  }

  lemma QuorumOutcome(a: Mid, m: Input)
    requires a.event == EventOf(a.status)
    ensures OnQuorum(a, m).outcome == Fault <==>
            || a.outcome == Fault
            || (a.outcome == Done && (a.status == S122 || a.status == S177) && a.office.dataQueue == [])
  {
    hide StartTime;
  }

  lemma LocalOutcome(a: Mid, m: Input)
    ensures OnLocalFile(a, m).outcome == Fault <==> a.outcome == Fault
    ensures OnLocalFile(a, m).office.current == a.office.current
  {
    hide EventOf;
  }

  lemma DataOutcome(a: Mid, m: Input)
    ensures OnData(a, m).outcome == Fault <==>
            a.outcome == Fault || (a.outcome == Done && a.event == ReceivedFileData && a.office.current.None?)
  {
    hide EventOf, CheckEvent, Received;
  }

  lemma ContinuedOutcome(s: State, a: Mid, m: Input)
    requires Consistent(s, a)
    ensures var t := NewState(s, a.event, a.status);
            Continue(a, m).outcome == Fault <==>
              || a.outcome == Fault
              || (a.outcome == Done && t != s
                  && (|| ((t == SendingNewFileMetadata || t == SendingNewFileMetadataWithMore)
                          && a.office.dataQueue == [])
                      || ((t == SendingFileMetadataChange || t == SendingFileMetadataChangeWithMore)
                          && a.office.metaQueue == [])))
  {
    if a.outcome == Done && NewState(s, a.event, a.status) != s { AdvertRow(s, a.status); }
    hide CheckEvent, NewState, ActionOf, HeartbeatStatus, EventOf, Fits, StopTime;
  }

  /** The round after the metadata goes on to a new file only if there is one. */
  lemma RoundStock(o: Office, m: Input)
    requires Honest(m) && Accepted(o, m)
    requires Entered(o, m).status == S177 || Entered(o, m).status == S178
    ensures o.dataQueue != []
  {
    HonestStatus(m);
    HeardStatus(Timestamped(o, m), m);
    assert Reply(m.status);
    hide CheckEvent, Int16, OnNewFileRecord, OnMetadata, OnEnd;
  }

  lemma StartRows(s: State, status: Status)
    requires CheckEvent(s, EventOf(status), status) && (status == S122 || status == S177)
    ensures NewState(s, EventOf(status), status) == SendingNewFileMetadata && s != SendingNewFileMetadata
    ensures ActionOf(s, EventOf(status), status) == SendHeartbeat && HeartbeatStatus(s, EventOf(status), status) == S130
    ensures status == S122 ==> s == AnnouncingNewFile
    ensures status == S177 ==> s == SendingFileMetadataChangeWithMore
  {
  }

  lemma QuorumStocked(o: Office, m: Input)
    requires Honest(m) && Stocked(o) && Accepted(o, m)
    ensures OnQuorum(Entered(o, m), m).outcome == Fault <==> NoSuchFile(o, m)
  {
    hide Entered, OnQuorum, EventOf, CheckEvent, Honest, NoSuchFile;
    var a := Entered(o, m);
    EnteredOutcome(o, m);
    HeardConsistent(o, m);
    QuorumOutcome(a, m);
    if a.outcome == Done && a.status == S122 { StartRows(o.state, S122); }
    if a.status == S177 { RoundStock(o, m); }
  }

  lemma SettledStocked(o: Office, m: Input)
    requires Honest(m) && Stocked(o) && Accepted(o, m)
    ensures Settled(o, m).outcome == Fault <==> NoSuchFile(o, m) || (m.status == S200 && o.current.None?)
  {
    hide Entered, OnQuorum, OnLocalFile, OnData, EventOf, CheckEvent, Honest;
    var a := Entered(o, m);
    var b := OnQuorum(a, m);
    var c := OnLocalFile(b, m);
    QuorumStocked(o, m);
    LocalOutcome(b, m);
    DataOutcome(c, m);
    HeardConsistent(o, m);
    QuorumConsistent(o.state, a, m);
    LocalConsistent(o.state, b, m);
    QuorumFlags(a, m);
    LocalStatus(b, m);
    EnteredStatus(o, m);
    FileEvents(c.status);
    if m.status == S200 { DataEntry(o, m); }
  }

  lemma DataEntry(o: Office, m: Input)
    requires m.status == S200
    ensures OnLocalFile(OnQuorum(Entered(o, m), m), m) == Plain(o, S200)
  {
  }

  /**
   * A step fails only on a record of a deleted file where a new one is expected, or on data
   * without a record: never because a queue is empty.
   */
  lemma FaultStep(o: Office, m: Input)
    requires Honest(m) && Stocked(o)
    ensures Process(o, m).outcome == Fault <==>
            Accepted(o, m) && (NoSuchFile(o, m) || (m.status == S200 && o.current.None?))
  {
    hide Settled, Consistent, Continue, Process, NewState, EventOf, Honest, NoSuchFile, Accepted;
    ProcessSettles(o, m);
    if Accepted(o, m) {
      SettledStocked(o, m);
      SettledConsistent(o, m);
      var a := Settled(o, m);
      ContinuedOutcome(o.state, a, m);
      SettledQueues(o, m);
      ConsistentRow(o.state, a);
      if a.outcome == Done && NewState(o.state, a.event, a.status) != o.state {
        StockRows(o.state, a.status);
        StatusStock(o, m);
      }
    }
  }

  lemma ConsistentRow(s: State, a: Mid)
    requires Consistent(s, a)
    ensures a.office.state == s && a.event == EventOf(a.status)
    ensures a.outcome == Done ==> CheckEvent(s, EventOf(a.status), a.status)
  {
  }

  lemma StatusStock(o: Office, m: Input)
    requires Honest(m) && Accepted(o, m)
    ensures Settled(o, m).status == S177 || Settled(o, m).status == S178 ==> o.dataQueue != []
    ensures Settled(o, m).status != S126
  {
    hide Entered, OnQuorum, OnLocalFile, OnData, EventOf, CheckEvent, Honest;
    SettledStatus(o, m);
    HonestStatus(m);
    var a := Entered(o, m);
    QuorumFlags(a, m);
    LocalStatus(OnQuorum(a, m), m);
    DataStatus(OnLocalFile(OnQuorum(a, m), m), m);
    if a.status == S177 || a.status == S178 { RoundStock(o, m); }
  }

  lemma NoSuchRow()
    ensures EventOf(S141) == ReceivedHeartbeat && CheckEvent(SendingFileMetadataChangeWithMore, EventOf(S141), S141)
    ensures !CheckEvent(SendingFileMetadataChangeWithMore, EventOf(S172), S172)
    ensures !CheckEvent(SendingFileMetadataChangeWithMore, EventOf(S174), S174)
  {
  }

  /**
   * The last 141 of a metadata round with more to come is rejected, and the boxoffice stops, if and
   * only if another metadata change is queued or nothing is.
   */
  lemma RoundRejected(o: Office, m: Input)
    requires o.state == SendingFileMetadataChangeWithMore && m.status == S141
    requires m.sender in o.replied && Full(o, m.sender)
    ensures Process(o, m).outcome == Rejected <==> o.metaQueue != [] || o.dataQueue == []
  {
    NoSuchRow();
    ReplyConcludes(o, m);
    HeartbeatPath(o, m);
    hide Process, CheckEvent, EventOf, OnHeartbeat, Timestamped, Continue, OnQuorum, Full, AllFalse;
    var a := OnHeartbeat(Timestamped(o, m), m);
    if o.metaQueue != [] || o.dataQueue == [] {
      QuorumPasses(Rechecked(a, m.status), m);
      Stayed(Rechecked(a, m.status), m);
    } else {
      MoreRow();
      assert Rechecked(a, m.status) == a;
      NeverRejects(a, m);
    }
  }

  lemma MoreRow()
    ensures CheckEvent(SendingFileMetadataChangeWithMore, EventOf(S177), S177)
    ensures CheckEvent(SendingFileMetadataChangeWithMore, EventOf(S178), S178)
  {
  }

  lemma QuorumPasses(a: Mid, m: Input)
    requires a.outcome == Rejected
    ensures OnQuorum(a, m) == a
  {
  }

  lemma NeverRejects(a: Mid, m: Input)
    requires a.outcome == Done
    ensures Continue(OnQuorum(a, m), m).outcome != Rejected
  {
    hide NewState, ActionOf, HeartbeatStatus, StartTime, StopTime;
  }
}
