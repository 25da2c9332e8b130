/**
 * What a receiving node has on disk: after a file of one packet, from the record to the
 * data with anything in between, and after a metadata record.
 */
module Content {
  import opened Fsm
  import opened FileStore
  import opened Boxoffice
  import opened Stages
  import Roles
  import opened Steps
  import opened Counting
  import opened Queues
  import opened Orders
  import Runs
  import Transfer

  lemma RecordStep(o: Office, m: Input)
    requires o.state == PromotingNewFileMetadata && !o.notified && m.status == S130 && !m.file.deleted
    ensures var p := Process(o, m).office;
            var disk := Opened(o.disk, m.file);
            && p.state == PromotingNewFileMetadata && p.current == Some(m.file) && p.notified
            && p.written && Process(o, m) == Result(p, [], [Pretend(m.deadline)], Done)
            && p.disk == if o.written then disk else Sized(disk, m.file)
    ensures var f, disk, disk' := m.file, o.disk, Process(o, m).office.disk;
            var before := if f.path in disk then disk[f.path] else [];
            && (forall q :: q != f.path ==> (q in disk' <==> q in disk) && (q in disk ==> disk'[q] == disk[q]))
            && f.path in disk' && |disk'[f.path]| == (if o.written then |before| else f.size)
            && forall k :: 0 <= k < |disk'[f.path]| ==> disk'[f.path][k] == if k < |before| then before[k] else 0
  {
    assert CheckEvent(o.state, EventOf(S130), S130) && EventOf(S130) == ReceivedHeartbeat
        && NewState(o.state, EventOf(S130), S130) == o.state;
    HeartbeatPath(o, m);
    hide Process, CheckEvent, NewState, EventOf, Int16, Sized, Opened, OnReply, OnMetadata, OnEnd, Perform;
  }

  lemma DataStep(o: Office, m: Input)
    requires o.state == SendingFakeFile && m.status == S200 && !m.more && o.current.Some?
    ensures var p := Process(o, m).office;
            && p == o.(state := BroadcastingAllReceived, current := None, disk := Received(o.disk, o.current.value, m))
            && Process(o, m) == Result(p, [Beat(S140, None, None)], [], Done)
  {
    DataPath(o, m);
    DataRow();
    hide Process, CheckEvent, NewState, EventOf, ActionOf, HeartbeatStatus, Received;
  }

  lemma DataRow()
    ensures CheckEvent(SendingFakeFile, EventOf(S200), S200) && EventOf(S200) == ReceivedFileData
    ensures var e := EventOf(S113);
            && CheckEvent(SendingFakeFile, e, S113) && NewState(SendingFakeFile, e, S113) == BroadcastingAllReceived
            && ActionOf(SendingFakeFile, e, S113) == SendHeartbeat && HeartbeatStatus(SendingFakeFile, e, S113) == S140
  {
  }

  /** The node will resize the file when it reads the record, or has no longer version of it. */
  predicate Fitting(o: Office, f: Record) {
    !o.written || f.path !in o.disk || |o.disk[f.path]| <= f.size
  }

  /** What the record and then the data leave of a file. */
  lemma WholeCopy(o: Office, f: Record, disk: map<string, seq<byte>>, m: Input)
    requires !f.deleted && f.size <= 4096 && m.offset == 0 && |m.chunk| == f.size
    requires disk == if o.written then Opened(o.disk, f) else Sized(Opened(o.disk, f), f)
    ensures var d := Received(disk, f, m); f.path in d && (d[f.path] == m.chunk <==> Fitting(o, f))
  {
    assert Opened(disk, f) == disk;
    Transfer.WholeFile(disk[f.path], m.chunk);
  }

  // ---------- steps that leave the files alone ----------

  /** The messages that read a record or store data. */
  predicate Touches(o: Office, m: Input) {
    || (m.status == S130 && o.state == PromotingNewFileMetadata && !o.notified)
    || (m.status == S170 && o.state == ReceivingFileMetadataChange)
    || (m.status == S174 && o.state == ReceivingFileMetadataChangeWithMore)
    || m.status == S200
  }

  predicate SameFiles(o: Office, p: Office) { p.disk == o.disk && p.current == o.current }

  lemma HeardFiles(o: Office, m: Input)
    requires !Touches(o, m)
    ensures SameFiles(o, OnHeartbeat(o, m).office)
  {
    hide EventOf, OnNewFileRecord, Applied, Concluded;
  }

  lemma EnteredFiles(o: Office, m: Input)
    requires !Touches(o, m)
    ensures SameFiles(o, Entered(o, m).office)
  {
    hide EventOf, CheckEvent, OnHeartbeat, Int16;
    HeardFiles(Timestamped(o, m), m);
  }

  lemma LaterFiles(a: Mid, m: Input)
    ensures SameFiles(a.office, OnQuorum(a, m).office) && SameFiles(a.office, OnLocalFile(a, m).office)
    ensures a.event != ReceivedFileData ==> SameFiles(a.office, OnData(a, m).office)
  {
    hide EventOf, CheckEvent, StartTime, Received;
  }

  lemma PreparedFiles(o: Office, m: Input, status: Status, to: State)
    ensures var p := Prepare(o, m, status, to).office;
            p.disk == o.disk && (!Roles.CarriesFile(to) ==> p.current == o.current)
  {
    hide StopTime;
  }

  lemma ContinuedFiles(a: Mid, m: Input)
    ensures var p := Continue(a, m).office; p.disk == a.office.disk
    ensures !Roles.CarriesFile(NewState(a.office.state, a.event, a.status)) ==>
              SameFiles(a.office, Continue(a, m).office)
  {
    hide NewState, HeartbeatStatus, ActionOf, Prepare, Roles.CarriesFile;
    var s := a.office.state;
    PreparedFiles(a.office, m, HeartbeatStatus(s, a.event, a.status), NewState(s, a.event, a.status));
  }

  /** While a new file is received, only its record and its data touch the files. */
  lemma ReceivingRows(s: State, status: Status)
    requires s == PromotingNewFileMetadata || s == SendingFakeFile
    requires CheckEvent(s, EventOf(status), status)
    ensures var t := NewState(s, EventOf(status), status);
            && !Roles.CarriesFile(t) && (t == PromotingNewFileMetadata ==> s == PromotingNewFileMetadata)
            && status != S120 && status != S124
  {
  }

  lemma FilesKept(o: Office, m: Input)
    requires o.state == PromotingNewFileMetadata || o.state == SendingFakeFile
    requires !Touches(o, m)
    ensures var p := Process(o, m).office;
            && SameFiles(o, p)
            && (p.state == PromotingNewFileMetadata ==>
                  o.state == PromotingNewFileMetadata && (o.notified ==> p.notified))
  {
    hide Process, Continue, Entered, OnQuorum, OnLocalFile, OnData, CheckEvent, NewState, EventOf, Touches, Row, Fits,
      Roles.CarriesFile;
    ProcessSettles(o, m);
    OrderStep(o, m);
    if Accepted(o, m) {
      var a := Entered(o, m);
      var b := OnQuorum(a, m);
      var c := OnLocalFile(b, m);
      EnteredFiles(o, m);
      LaterFiles(a, m);
      LaterFiles(b, m);
      LaterFiles(c, m);
      NotData(o, m);
      ContinuedFiles(Settled(o, m), m);
      SettledConsistent(o, m);
      ConsistentRow(o.state, Settled(o, m));
      Continued(o.state, Settled(o, m), m);
      ReceivingRows(o.state, m.status);
      if Settled(o, m).outcome == Done { ReceivingRows(o.state, Settled(o, m).status); }
      Unperformed(Settled(o, m), m);
    }
  }

  /** A step that fails before the state change has no effect after it. */
  lemma Unperformed(a: Mid, m: Input)
    ensures a.outcome != Done ==> Continue(a, m).office == a.office
  {
    hide NewState, ActionOf, HeartbeatStatus, Prepare;
  }

  lemma NotData(o: Office, m: Input)
    requires Accepted(o, m) && !Touches(o, m)
    ensures OnLocalFile(OnQuorum(Entered(o, m), m), m).event != ReceivedFileData
  {
    hide Entered, OnQuorum, OnLocalFile, CheckEvent, EventOf;
    var a := Entered(o, m);
    var b := OnQuorum(a, m);
    HeardConsistent(o, m);
    QuorumConsistent(o.state, a, m);
    LocalConsistent(o.state, b, m);
    EnteredStatus(o, m);
    QuorumFlags(a, m);
    LocalStatus(b, m);
    FileEvents(OnLocalFile(b, m).status);
  }

  /** No other message changes any file. */
  lemma DiskUntouched(o: Office, m: Input)
    requires !Touches(o, m)
    ensures Process(o, m).office.disk == o.disk
  {
    hide Process, Continue, Entered, OnQuorum, OnLocalFile, OnData, CheckEvent, NewState, EventOf, Touches,
      Roles.CarriesFile;
    ProcessSettles(o, m);
    if Accepted(o, m) {
      var a := Entered(o, m);
      EnteredFiles(o, m);
      LaterFiles(a, m);
      LaterFiles(OnQuorum(a, m), m);
      LaterFiles(OnLocalFile(OnQuorum(a, m), m), m);
      NotData(o, m);
      ContinuedFiles(Settled(o, m), m);
    }
  }

  lemma DataRows(s: State)
    requires s == SendingFakeFile || s == SendingFakeFileWithMoreAlpha || s == SendingFakeFileWithMoreBeta
    ensures CheckEvent(s, EventOf(S200), S200) && EventOf(S200) == ReceivedFileData
  {
  }

  lemma PacketStep(o: Office, m: Input)
    requires 21 <= o.state <= 23 && m.status == 200 && o.current.Some?
    ensures Process(o, m).office.disk == Received(o.disk, o.current.value, m)
  {
    DataRows(o.state);
    hide Process, Continue, CheckEvent, EventOf, Received;
    DataPath(o, m);
    ContinuedFiles(OnData(Plain(o, m.status), m), m);
  }

  /** How much of a package is written: no more than the file is long, and no more than 4096 bytes. */
  function Written(f: Record, m: Input): nat {
    if f.size <= |m.chunk| && f.size <= 4096 then f.size else if |m.chunk| <= 4096 then |m.chunk| else 4096
  }

  lemma ReceivedAt(disk: map<string, seq<byte>>, f: Record, m: Input)
    requires !f.deleted
    ensures var disk' := Received(disk, f, m);
            var before := if f.path in disk then disk[f.path] else [];
            var end := m.offset + Written(f, m);
            && (forall q :: q != f.path ==> (q in disk' <==> q in disk) && (q in disk ==> disk'[q] == disk[q]))
            && f.path in disk' && |disk'[f.path]| == (if Written(f, m) == 0 || end <= |before| then |before| else end)
            && forall k :: 0 <= k < |disk'[f.path]| ==>
                 disk'[f.path][k] == if m.offset <= k < end then m.chunk[k - m.offset]
                                     else if k < |before| then before[k] else 0
  {
    hide Received, WriteAt, WriteLength, Written, StoreChunk;
    ReceivedIs(disk, f, m);
    var before := if f.path in disk then disk[f.path] else [];
    var data := m.chunk[..Written(f, m)];
    if data == [] {
      NothingWritten(before, m.offset);
    } else {
      WrittenAt(before, m.offset, data);
    }
  }

  lemma NothingWritten(before: seq<byte>, offset: nat)
    ensures WriteAt(before, offset, []) == before
  {
  }

  lemma ReceivedIs(disk: map<string, seq<byte>>, f: Record, m: Input)
    requires !f.deleted
    ensures Written(f, m) <= |m.chunk|
    ensures var before := if f.path in disk then disk[f.path] else [];
            Received(disk, f, m) == disk[f.path := WriteAt(before, m.offset, m.chunk[..Written(f, m)])]
  {
    hide WriteAt;
  }

  /**
   * A data packet of any state that takes one, byte by byte: the package goes where its offset says;
   * a gap in front is zero, the rest stays.
   */
  lemma PacketContent(o: Office, m: Input)
    requires 21 <= o.state <= 23 && m.status == 200 && o.current.Some? && !o.current.value.deleted
    ensures var f, disk, disk' := o.current.value, o.disk, Process(o, m).office.disk;
            var before := if f.path in disk then disk[f.path] else [];
            var end := m.offset + Written(f, m);
            && (forall q :: q != f.path ==> (q in disk' <==> q in disk) && (q in disk ==> disk'[q] == disk[q]))
            && f.path in disk' && |disk'[f.path]| == (if Written(f, m) == 0 || end <= |before| then |before| else end)
            && forall k :: 0 <= k < |disk'[f.path]| ==>
                 disk'[f.path][k] == if m.offset <= k < end then m.chunk[k - m.offset]
                                     else if k < |before| then before[k] else 0
  {
    hide Process, Received, Written;
    PacketStep(o, m);
    ReceivedAt(o.disk, o.current.value, m);
  }

  // ---------- from the record to the data, whatever comes in between ----------

  predicate Receiving(s: State) { s == PromotingNewFileMetadata || s == SendingFakeFile }

  lemma {:induction false} RecordHeld(o: Office, ms: seq<Input>, rs: seq<Result>, k: nat)
    requires Runs.Follows(o, ms, rs) && 0 < k <= |rs|
    requires o.state == PromotingNewFileMetadata && !o.notified
    requires ms[0].status == S130 && !ms[0].file.deleted
    requires forall q :: 0 < q < k ==> ms[q].status != S200
    requires forall q :: 0 < q <= k ==> Receiving(Runs.Before(o, rs, q).state)
    ensures var p := Runs.Before(o, rs, k);
            && p.current == Some(ms[0].file) && p.disk == rs[0].office.disk
            && (p.state == PromotingNewFileMetadata ==> p.notified)
  {
    hide Process;
    if k == 1 {
      RecordStep(o, ms[0]);
    } else {
      RecordHeld(o, ms, rs, k - 1);
      FilesKept(Runs.Before(o, rs, k - 1), ms[k - 1]);
    }
  }

  /**
   * A node reads the record of a file of one packet, gets any messages but data while it stays
   * in the session, and then the data: it ends up with exactly what was sent if and only if it
   * resized the file on the record, or had no longer version of it.
   */
  lemma SessionContent(o: Office, ms: seq<Input>, rs: seq<Result>)
    requires Runs.Follows(o, ms, rs) && |rs| == |ms| >= 2
    requires o.state == PromotingNewFileMetadata && !o.notified
    requires ms[0].status == S130 && !ms[0].file.deleted && ms[0].file.size <= 4096
    requires forall q :: 0 < q < |ms| - 1 ==> ms[q].status != S200
    requires forall q :: 0 < q < |ms| ==> Receiving(Runs.Before(o, rs, q).state)
    requires Runs.Before(o, rs, |ms| - 1).state == SendingFakeFile
    requires var data := ms[|ms| - 1];
             data.status == S200 && data.offset == 0 && !data.more && |data.chunk| == ms[0].file.size
    ensures var f, p := ms[0].file, Runs.Before(o, rs, |rs|);
            && p.state == BroadcastingAllReceived && f.path in p.disk
            && (p.disk[f.path] == ms[|ms| - 1].chunk <==> Fitting(o, f))
  {
    hide Process, Fitting, Opened, Sized;
    var n := |ms| - 1;
    RecordHeld(o, ms, rs, n);
    RecordStep(o, ms[0]);
    DataStep(Runs.Before(o, rs, n), ms[n]);
    WholeCopy(o, ms[0].file, rs[0].office.disk, ms[n]);
  }

  // ---------- a metadata record ----------

  lemma MetadataRow(s: State, status: Status)
    requires (s == ReceivingFileMetadataChange && status == S170)
          || (s == ReceivingFileMetadataChangeWithMore && status == S174)
    ensures CheckEvent(s, EventOf(status), status) && EventOf(status) == ReceivedHeartbeat
    ensures var e := EventOf(S173);
            && e == AllMetadataReceived && CheckEvent(s, e, S173)
            && NewState(s, e, S173) == BroadcastingAllMetadataReceived
            && ActionOf(s, e, S173) == SendHeartbeat && HeartbeatStatus(s, e, S173) == S141
  {
  }

  lemma MetadataHeard(o: Office, m: Input)
    requires (o.state == ReceivingFileMetadataChange && m.status == S170)
          || (o.state == ReceivingFileMetadataChangeWithMore && m.status == S174)
    ensures var a := OnHeartbeat(Timestamped(o, m), m);
            && a == Plain(a.office, S173) && a.office.state == o.state
            && a.office.disk == Applied(o, m.file).disk
            && a.office.current == if m.status == S174 then Some(m.file) else o.current
  {
    hide EventOf, Int16, Opened, Sized, OnReply, OnNewFileRecord, OnEnd;
  }

  lemma MetadataStep(o: Office, m: Input)
    requires (o.state == ReceivingFileMetadataChange && m.status == S170)
          || (o.state == ReceivingFileMetadataChangeWithMore && m.status == S174)
    ensures var p := Process(o, m).office;
            && p.state == BroadcastingAllMetadataReceived && p.disk == Applied(o, m.file).disk
            && p.current == if m.status == S174 then Some(m.file) else o.current
  {
    MetadataRow(o.state, m.status);
    hide Process, CheckEvent, NewState, EventOf, ActionOf, HeartbeatStatus, OnHeartbeat, Timestamped, Continue, Applied;
    MetadataHeard(o, m);
    HeartbeatPath(o, m);
    var a := OnHeartbeat(Timestamped(o, m), m);
    Roles.Performed(a, m, BroadcastingAllMetadataReceived, S141);
    Roles.PreparedPlain(a.office, m, S141, BroadcastingAllMetadataReceived);
  }

  /**
   * Handling a metadata record removes the file, or brings it to the size of the record; the
   * latter if and only if no record was written since the last reset, or the size is right already.
   * No other file changes, no byte that stays within the size does, and what is added is zero.
   */
  lemma MetadataContent(o: Office, m: Input)
    requires (o.state == ReceivingFileMetadataChange && m.status == S170)
          || (o.state == ReceivingFileMetadataChangeWithMore && m.status == S174)
    ensures var f, disk, disk' := m.file, o.disk, Process(o, m).office.disk;
            var before := if f.path in disk then disk[f.path] else [];
            && (forall q :: q != f.path ==> (q in disk' <==> q in disk) && (q in disk ==> disk'[q] == disk[q]))
            && (f.deleted <==> f.path !in disk')
            && (!f.deleted ==>
                  && (|disk'[f.path]| == f.size <==> !o.written || |before| == f.size)
                  && forall k :: 0 <= k < |disk'[f.path]| ==>
                       disk'[f.path][k] == if k < |before| then before[k] else 0)
  {
    hide Process;
    MetadataStep(o, m);
  }

  // ---------- when the next record will be resized ----------

  /** The messages that make the next record be resized again. */
  ghost predicate Resets(o: Office, m: Input) {
    && Accepted(o, m)
    && (|| m.status == S160
        || (m.status == S170 && o.state == ReceivingFileMetadataChange)
        || (m.status == S121 && Roles.Full(o, m.sender)))
  }

  lemma RecordWritten(o: Office, m: Input)
    requires o.written && (m.status == S130 || m.status == S170 || m.status == S174)
    ensures var a := if m.status == S130 then OnNewFileRecord(o, m) else OnMetadata(o, m);
            !a.office.written <==> m.status == S170 && o.state == ReceivingFileMetadataChange
  {
    hide Opened, Sized, EventOf;
  }

  lemma ReplyWritten(o: Office, m: Input)
    requires o.written
    ensures !OnReply(o, m).office.written <==> m.status == S121 && Roles.Full(o, m.sender)
  {
    var heard := o.replied[m.sender := true];
    if Roles.Full(o, m.sender) {
      assert forall n :: n in heard ==> heard[n];
    } else {
      var n :| n in o.replied && n != m.sender && !o.replied[n];
      assert n in heard && !heard[n];
    }
    hide EventOf, Concluded;
  }

  lemma HeardWritten(o: Office, m: Input)
    requires o.written
    ensures !OnHeartbeat(o, m).office.written <==>
              || m.status == S160 || (m.status == S170 && o.state == ReceivingFileMetadataChange)
              || (m.status == S121 && Roles.Full(o, m.sender))
  {
    if m.status == S130 || m.status == S170 || m.status == S174 { RecordWritten(o, m); }
    ReplyWritten(o, m);
    hide OnNewFileRecord, OnMetadata, OnReply, EventOf, Roles.Full;
  }

  lemma QuorumWritten(a: Mid, m: Input)
    ensures OnQuorum(a, m).office.written == a.office.written
  {
    hide OnQuorum;
    QuorumFrame(a, m);
  }

  lemma LocalWritten(a: Mid, m: Input)
    ensures OnLocalFile(a, m).office.written == a.office.written
  {
    hide EventOf;
  }

  lemma DataWritten(a: Mid, m: Input)
    ensures OnData(a, m).office.written == a.office.written
  {
    hide EventOf, CheckEvent, Received;
  }

  lemma PreparedWritten(o: Office, m: Input, status: Status, to: State)
    ensures Prepare(o, m, status, to).office.written == o.written
  {
    hide StopTime;
  }

  lemma ContinuedWritten(a: Mid, m: Input)
    ensures Continue(a, m).office.written == a.office.written
  {
    hide NewState, HeartbeatStatus, ActionOf, Prepare;
    var s := a.office.state;
    PreparedWritten(a.office, m, HeartbeatStatus(s, a.event, a.status), NewState(s, a.event, a.status));
  }

  lemma ResetStatuses(status: Status)
    requires status == S160 || status == S170 || status == S121
    ensures EventOf(status) == ReceivedHeartbeat
  {
  }

  /**
   * The note that a record was written is dropped exactly by a metadata announcement, a metadata
   * record received, or the node's own announcement being answered by all.
   */
  lemma WrittenExact(o: Office, m: Input)
    requires o.written
    ensures Process(o, m).office.written <==> !Resets(o, m)
  {
    hide Process, Continue, OnQuorum, OnLocalFile, OnData, OnHeartbeat, CheckEvent, EventOf, Int16, Roles.Full;
    if m.status == S160 || m.status == S170 || m.status == S121 { ResetStatuses(m.status); }
    StampedFlags(o, m);
    HeardWritten(Timestamped(o, m), m);
    ProcessSettles(o, m);
    if Accepted(o, m) {
      ContinuedWritten(Settled(o, m), m);
      var a := Entered(o, m);
      QuorumWritten(a, m);
      LocalWritten(OnQuorum(a, m), m);
      DataWritten(OnLocalFile(OnQuorum(a, m), m), m);
    }
  }

  /** So a node that gets none of these, whatever else it gets, resizes no further file. */
  lemma {:induction false} WrittenRun(o: Office, ms: seq<Input>, rs: seq<Result>, k: nat)
    requires Runs.Follows(o, ms, rs) && k <= |rs| && o.written
    requires forall q :: 0 <= q < k ==> !Resets(Runs.Before(o, rs, q), ms[q])
    ensures Runs.Before(o, rs, k).written
  {
    hide Process, Resets;
    if k > 0 {
      WrittenRun(o, ms, rs, k - 1);
      WrittenExact(Runs.Before(o, rs, k - 1), ms[k - 1]);
    }
  }

  // ---------- a 170 record always takes effect ----------

  /** The file is as the record says: gone, or of its size. */
  predicate InEffect(disk: map<string, seq<byte>>, f: Record) {
    if f.deleted then f.path !in disk else f.path in disk && |disk[f.path]| == f.size
  }

  /** The record is going to take effect when it is read. */
  predicate Applicable(o: Office, f: Record) {
    f.deleted || !o.written || |if f.path in o.disk then o.disk[f.path] else []| == f.size
  }

  lemma EffectExact(o: Office, m: Input)
    requires (o.state == ReceivingFileMetadataChange && m.status == S170)
          || (o.state == ReceivingFileMetadataChangeWithMore && m.status == S174)
    ensures InEffect(Process(o, m).office.disk, m.file) <==> Applicable(o, m.file)
  {
    hide Process;
    MetadataContent(o, m);
  }

  lemma HeardSets(o: Office, m: Input)
    requires !o.written && OnHeartbeat(o, m).office.written
    ensures (m.status == S130 && o.state == PromotingNewFileMetadata)
         || (m.status == S174 && o.state == ReceivingFileMetadataChangeWithMore)
  {
    hide Opened, Sized, EventOf, Concluded;
  }

  /** Only the record of a new file, and a metadata record with more to come, are noted. */
  lemma WrittenSet(o: Office, m: Input)
    requires !o.written && Process(o, m).office.written
    ensures o.state == PromotingNewFileMetadata || o.state == ReceivingFileMetadataChangeWithMore
  {
    hide Process, Continue, OnQuorum, OnLocalFile, OnData, OnHeartbeat, CheckEvent, EventOf, Int16;
    ProcessSettles(o, m);
    ContinuedWritten(Settled(o, m), m);
    var a := Entered(o, m);
    QuorumWritten(a, m);
    LocalWritten(OnQuorum(a, m), m);
    DataWritten(OnLocalFile(OnQuorum(a, m), m), m);
    if OnHeartbeat(Timestamped(o, m), m).office.written { HeardSets(Timestamped(o, m), m); }
  }

  /** Once a metadata change is announced with 160, no record is noted until the 170 record is read. */
  predicate Clean(o: Office) {
    o.state == AcknowledgingFileMetadataChange || o.state == ReceivingFileMetadataChange ==> !o.written
  }

  lemma CleanRows(s: State, status: Status)
    requires CheckEvent(s, EventOf(status), status) && NewState(s, EventOf(status), status) != s
    ensures var t := NewState(s, EventOf(status), status);
            && (t == AcknowledgingFileMetadataChange ==> s == Ready && status == S160)
            && (t == ReceivingFileMetadataChange ==> s == AcknowledgingFileMetadataChange)
  {
  }

  lemma CleanStep(o: Office, m: Input)
    requires Clean(o)
    ensures Clean(Process(o, m).office)
  {
    hide Process, Settled, CheckEvent, NewState, EventOf, Accepted, Row, Fits, Roles.Full;
    var p := Process(o, m).office;
    if p.state != o.state {
      StepTaken(o, m);
      RowAccepted(o.state, Settled(o, m).status, p.state);
      CleanRows(o.state, Settled(o, m).status);
      OrderStep(o, m);
      SettledStatus(o, m);
    }
    if o.written {
      WrittenExact(o, m);
    } else if p.written {
      WrittenSet(o, m);
    }
  }

  lemma {:induction false} CleanRun(start: Office, ms: seq<Input>, rs: seq<Result>, k: nat)
    requires Runs.Trace(start, ms, rs) && k <= |rs|
    ensures Clean(Runs.Before(start, rs, k))
  {
    hide Process, Runs.Trace;
    Runs.Begins(start, ms, rs);
    if k > 0 {
      CleanRun(start, ms, rs, k - 1);
      Runs.StepOf(start, ms, rs, k - 1);
      CleanStep(Runs.Before(start, rs, k - 1), ms[k - 1]);
    }
  }

  /** Over any run, for any messages: a 170 record read in the receiving state takes effect. */
  lemma RecordTakesEffect(start: Office, ms: seq<Input>, rs: seq<Result>, k: nat)
    requires Runs.Trace(start, ms, rs) && k < |rs| == |ms|
    requires Runs.Before(start, rs, k).state == ReceivingFileMetadataChange && ms[k].status == S170
    ensures InEffect(rs[k].office.disk, ms[k].file)
  {
    hide Process, Runs.Trace, InEffect;
    CleanRun(start, ms, rs, k);
    Runs.StepOf(start, ms, rs, k);
    EffectExact(Runs.Before(start, rs, k), ms[k]);
  }
}
