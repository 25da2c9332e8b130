/**
 * The boxoffice as the object it is: its fields, and `processEvent` and its helpers as
 * methods that update them.  `ProcessEvent` is proved to do what `Boxoffice.Process`
 * says, for every state of the object and every message.
 */
module Service {
  import opened Fsm
  import opened FileStore
  import opened Boxoffice
  import Runs

  /** The row of 100 in the ready state. */
  lemma ReturnRow()
    ensures CheckEvent(Ready, EventOf(S100), S100) && ActionOf(Ready, EventOf(S100), S100) == SendHeartbeat
    ensures HeartbeatStatus(Ready, EventOf(S100), S100) == S100
  {
  }

  lemma PlainEvents(o: Office, m: Input)
    ensures var a := OnHeartbeat(o, m); a.event == EventOf(a.status)
    ensures m.status == S130 ==> OnNewFileRecord(o, m).status == S130
  {
    hide EventOf, Applied, Opened, Sized, Concluded;
  }

  lemma NothingYet(start: Office, ms: seq<Input>)
    ensures Runs.Follows(start, ms, []) && Runs.Before(start, [], 0) == start
  {
  }

  /** Nothing follows a step that was rejected or failed. */
  lemma Halted(a: Mid, m: Input)
    requires a.outcome != Done
    ensures OnQuorum(a, m) == a && OnLocalFile(a, m) == a && OnData(a, m) == a
    ensures Continue(a, m) == Result(a.office, a.beats, a.orders, a.outcome)
  {
  }

  class BoxOffice {
    var state: State
    var replied: map<NodeId, bool>
    var skew: map<NodeId, int>
    var dataQueue: seq<Record>
    var metaQueue: seq<Record>
    var deadline: nat
    var notified: bool
    var current: Option<Record>
    var written: bool
    var stopSent: bool
    var disk: map<string, seq<byte>>
    var beats: seq<Beat>     // everything sent to the heartbeaters
    var orders: seq<Order>   // everything sent to the dispatcher

    ghost function View(): Office
      reads this
    {
      Office(state, replied, skew, dataQueue, metaQueue, deadline, notified, current, written, stopSent, disk)
    }

    /** The object stands at this point of a step that began with these logs. */
    ghost predicate At(a: Mid, beats0: seq<Beat>, orders0: seq<Order>)
      reads this
    {
      View() == a.office && beats == beats0 + a.beats && orders == orders0 + a.orders
    }

    constructor (subscribers: set<NodeId>, files: map<string, seq<byte>>)
      ensures View() == Initial(subscribers, files) && beats == [] && orders == []
    {
      state := Ready;
      replied := map n | n in subscribers :: false;
      skew := map n | n in subscribers :: 0;
      dataQueue, metaQueue := [], [];
      deadline := TWO_64 - 1;
      notified, written, stopSent := false, false, false;
      current := None;
      disk := files;
      beats, orders := [], [];
    }

    method UpdateTimestamp(m: Input)
      modifies this`skew, this`replied
      ensures View() == Timestamped(old(View()), m)
    {
      if m.sender !in replied { replied := replied[m.sender := false]; }
      skew := skew[m.sender := Int16(m.now - m.stamp)];
    }

    /** Looks for a subscriber that has not replied, up to the first one found. */
    method AllReplied() returns (all: bool)
      ensures all <==> forall n <- replied :: replied[n]
    {
      var rest := replied.Keys;
      while rest != {}
        invariant rest <= replied.Keys
        invariant forall n :: n in replied && n !in rest ==> replied[n]
      {
        var n :| n in rest;
        if !replied[n] { return false; }
        rest := rest - {n};
      }
      return true;
    }

    /** Clears the flags one by one. */
    method ClearReplied()
      modifies this`replied
      ensures View() == ResetReplied(old(View()))
    {
      var rest := replied.Keys;
      while rest != {}
        invariant replied.Keys == old(replied).Keys && rest <= replied.Keys
        invariant forall n :: n in replied && n !in rest ==> !replied[n]
      {
        var n :| n in rest;
        replied := replied[n := false];
        rest := rest - {n};
      }
      assert replied == map n | n in old(replied) :: false;
    }

    /** One reply; `status` is what it counts as once the round is over. */
    method NoteReply(m: Input) returns (status: Status)
      requires Reply(m.status)
      modifies this`replied, this`written
      ensures OnReply(old(View()), m) == Plain(View(), status)
    {
      status := m.status;
      replied := replied[m.sender := true];
      ghost var heard := replied;
      var all := AllReplied();
      if all {
        ClearReplied();
        assert replied == map n | n in heard :: false;
        if m.status == S121 {
          status := S122;
          written := false;
        } else if m.status == S161 {
          status := S162;
        } else if m.status == S165 {
          status := S166;
        } else if m.status == S140 {
          status := S142;
        } else if |metaQueue| > 0 {
          status := S174;
        } else if |dataQueue| > 1 {
          status := S178;
        } else if |dataQueue| > 0 {
          status := S177;
        } else {
          status := S172;
        }
      }
    }

    /** Reading a record from a stream: the file it names is removed or made to exist. */
    method OpenFile(f: Record)
      modifies this`disk
      ensures disk == Opened(old(disk), f)
    {
      if f.deleted {
        disk := disk - {f.path};
      } else if f.path !in disk {
        disk := disk[f.path := []];
      }
    }

    /** Opens the file of a record and, the first time since the last reset, gives it the record's size. */
    method WriteRecord(f: Record)
      requires written || !f.deleted
      modifies this`disk, this`written
      ensures written
      ensures disk == if old(written) then Opened(old(disk), f) else Sized(Opened(old(disk), f), f)
    {
      hide Resized;
      OpenFile(f);
      if !written {
        disk := disk[f.path := Resized(disk[f.path], f.size)];
        written := true;
      }
    }

    method ReadNewFile(m: Input) returns (ok: bool)
      modifies this`disk, this`written, this`current, this`notified, this`orders
      ensures var a := OnNewFileRecord(old(View()), m);
              (if ok then a.outcome == Done else a.outcome == Fault) && At(a, old(beats), old(orders))
    {
      hide Opened, Sized, EventOf;
      if !written && m.file.deleted { return false; }
      WriteRecord(m.file);
      current := Some(m.file);
      notified := false;
      orders := orders + [Pretend(m.deadline)];
      notified := true;
      return true;
    }

    method ApplyRecord(f: Record)
      modifies this`disk, this`written
      ensures View() == Applied(old(View()), f)
    {
      OpenFile(f);
      if !f.deleted && !written {
        disk := disk[f.path := Resized(disk[f.path], f.size)];
        written := true;
      }
    }

    /** A metadata record is applied where it is awaited, and then counts as received. */
    method ReadMetadata(m: Input) returns (status: Status)
      requires m.status == S170 || m.status == S174
      modifies this`disk, this`written, this`current, this`notified
      ensures OnMetadata(old(View()), m) == Plain(View(), status)
    {
      hide EventOf;
      status := m.status;
      if m.status == S170 {
        if state == ReceivingFileMetadataChange {
          ApplyRecord(m.file);
          status := S173;
          written := false;
        }
      } else if state == ReceivingFileMetadataChangeWithMore {
        ApplyRecord(m.file);
        current := Some(m.file);
        notified := false;
        status := S173;
      }
    }

    /** 150 makes a ready node advertise 100 again; 155 is passed on once. */
    method End(m: Input) returns (status: Status)
      requires m.status == S150 || m.status == S155
      modifies this
      ensures var a := OnEnd(old(View()), m);
              At(a, old(beats), old(orders)) && a.status == status && a.outcome == Done
    {
      status := m.status;
      if m.status == S150 {
        if state == Ready {
          status := S100;
          ReturnRow();
          hide EventOf, ActionOf, HeartbeatStatus;
          var event := EventOf(status);
          var _ := PerformAction(m, event, ActionOf(state, event, status), status, state);
        }
      } else if !stopSent {
        orders := orders + [Stop(m.deadline)];
        stopSent := true;
      }
    }

    /** The switch over the status of a heartbeat; a status of the node's own may take over. */
    method Switch(m: Input) returns (status: Status, outcome: Outcome)
      modifies this
      ensures var a := OnHeartbeat(old(View()), m);
              outcome == a.outcome && status == a.status && a.event == EventOf(status) && At(a, old(beats), old(orders))
    {
      hide OnReply, OnNewFileRecord, OnMetadata, OnEnd, EventOf;
      PlainEvents(View(), m);
      status, outcome := m.status, Done;
      if Reply(m.status) {
        status := NoteReply(m);
      } else if m.status == S100 {
        stopSent := false;
      } else if m.status == S120 || m.status == S124 {
        notified := false;
      } else if m.status == S130 {
        if state == PromotingNewFileMetadata && !notified {
          var ok := ReadNewFile(m);
          if !ok { outcome := Fault; }
        }
      } else if m.status == S160 {
        written := false;
      } else if m.status == S170 || m.status == S174 {
        status := ReadMetadata(m);
      } else if m.status == S150 || m.status == S155 {
        status := End(m);
      }
    }

    /** The part of `processEvent` for a heartbeat. */
    method Heartbeat(m: Input) returns (event: Event, status: Status, outcome: Outcome)
      modifies this
      ensures var a := Rechecked(OnHeartbeat(Timestamped(old(View()), m), m), m.status);
              outcome == a.outcome && event == a.event && status == a.status && At(a, old(beats), old(orders))
    {
      hide OnHeartbeat, Timestamped, CheckEvent, EventOf;
      UpdateTimestamp(m);
      status, outcome := Switch(m);
      event := EventOf(status);
      if outcome == Done && status != m.status && !CheckEvent(state, event, status) { outcome := Rejected; }
    }

    /** The dispatcher is given the file at the head of the queue and the moment to start. */
    method Dispatch(m: Input, event: Event, status: Status, ghost a: Mid, ghost b0: seq<Beat>, ghost o0: seq<Order>)
      returns (outcome: Outcome)
      requires At(a, b0, o0) && a.outcome == Done && a.event == event && a.status == status
      modifies this`deadline, this`orders
      ensures var q := OnQuorum(a, m);
              q.event == event && q.status == status && outcome == q.outcome && At(q, b0, o0)
    {
      outcome := Done;
      if (event == AllNodesReplied && status == S122)
         || (event == AllNodesHaveAllMetadataChangesWithMore && status == S177)
      {
        if dataQueue == [] { return Fault; }
        deadline := UInt64(m.now + m.random % (MAXIMUM_SEND_OFFSET - MINIMUM_SEND_OFFSET) + MINIMUM_SEND_OFFSET
                           - if m.sender in skew then skew[m.sender] else 0);
        orders := orders + [Send(status, deadline, dataQueue[0])];
      }
    }

    /** A local file event is queued, or while a new file is announced counted as a repetition. */
    method LocalFile(m: Input, event: Event, status: Status, ghost a: Mid, ghost b0: seq<Beat>, ghost o0: seq<Order>)
      returns (event': Event, status': Status, outcome: Outcome)
      requires At(a, b0, o0) && a.outcome == Done && a.event == event && a.status == status
      modifies this`dataQueue, this`metaQueue, this`replied
      ensures var q := OnLocalFile(a, m);
              q.event == event' && q.status == status' && outcome == q.outcome && At(q, b0, o0)
    {
      event', status', outcome := event, status, Done;
      if LocalFileEvent(event) {
        if |m.file.path| > MAXIMUM_PATH_LENGTH { return event, status, Rejected; }
        if state == AnnouncingNewFile {
          status' := S301;
          event' := EventOf(status');
        } else if event == NewLocalFile || event == NewLocalFileWithMore {
          dataQueue := dataQueue + [m.file];
        } else {
          metaQueue := metaQueue + [m.file];
        }
        ClearReplied();
      }
    }

    /** File data goes to the file whose record was read last. */
    method FileData(m: Input, event: Event, status: Status, ghost a: Mid, ghost b0: seq<Beat>, ghost o0: seq<Order>)
      returns (event': Event, status': Status, outcome: Outcome)
      requires At(a, b0, o0) && a.outcome == Done && a.event == event && a.status == status
      modifies this`current, this`disk
      ensures var q := OnData(a, m);
              q.event == event' && q.status == status' && outcome == q.outcome && At(q, b0, o0)
    {
      event', status', outcome := event, status, Done;
      if event == ReceivedFileData {
        if current.None? { return event, status, Fault; }
        var f := current.value;
        current := None;
        OpenFile(f);
        if !f.deleted { disk := disk[f.path := StoreChunk(disk[f.path], f.size, m.chunk, m.offset)]; }
        if !m.more {
          status' := S113;
          event' := EventOf(status');
          if status' != status && !CheckEvent(state, event', status') { outcome := Rejected; }
        }
      }
    }

    /** The file, or the stop time, that goes with a heartbeat. */
    method PrepareHeartbeatMessage(m: Input, status: Status, to: State) returns (beat: Beat, ok: bool)
      modifies this`current, this`dataQueue, this`metaQueue, this`deadline, this`orders, this`stopSent
      ensures var r := Prepare(old(View()), m, status, to);
              && ok == (r.outcome == Done) && View() == r.office && orders == old(orders) + r.orders
              && (ok ==> r.beats == [beat]) && (!ok ==> r.beats == [] && r.outcome == Fault)
    {
      beat, ok := Beat(status, None, None), true;
      if to == SendingNewFileMetadata || to == SendingNewFileMetadataWithMore {
        if dataQueue == [] { return beat, false; }
        current := Some(dataQueue[0]);
        beat := Beat(status, Some(dataQueue[0]), Some(deadline));
        dataQueue := dataQueue[1..];
      } else if to == SendingFileMetadataChange || to == SendingFileMetadataChangeWithMore {
        if metaQueue == [] { return beat, false; }
        current := Some(metaQueue[0]);
        beat := Beat(status, Some(metaQueue[0]), None);
        metaQueue := metaQueue[1..];
      } else if to == SyncingStop && !stopSent {
        deadline := UInt64(m.now + m.random % (MAXIMUM_STOP_OFFSET - MINIMUM_STOP_OFFSET) + MINIMUM_STOP_OFFSET);
        orders := orders + [Stop(deadline)];
        beat := Beat(status, None, Some(deadline));
        stopSent := true;
      }
    }

    method UpdateHeartbeat(m: Input, status: Status, to: State) returns (outcome: Outcome)
      modifies this`current, this`dataQueue, this`metaQueue, this`deadline, this`orders, this`stopSent, this`beats
      ensures var r := Prepare(old(View()), m, status, to);
              && outcome == r.outcome && View() == r.office
              && beats == old(beats) + r.beats && orders == old(orders) + r.orders
    {
      var beat, ok := PrepareHeartbeatMessage(m, status, to);
      if !ok { return Fault; }
      beats := beats + [beat];
      return Done;
    }

    method PerformAction(m: Input, event: Event, action: Action, status: Status, to: State) returns (outcome: Outcome)
      requires action == ActionOf(state, event, status)
      modifies this`current, this`dataQueue, this`metaQueue, this`deadline, this`orders, this`stopSent, this`beats
      ensures var r := Perform(old(View()), m, event, status, to);
              && outcome == r.outcome && View() == r.office
              && beats == old(beats) + r.beats && orders == old(orders) + r.orders
    {
      outcome := Done;
      if action == SendHeartbeat {
        outcome := UpdateHeartbeat(m, HeartbeatStatus(state, event, status), to);
      }
    }

    /** The move to the next state, with the heartbeat that goes with it. */
    method Advance(m: Input, event: Event, status: Status, ghost a: Mid, ghost b0: seq<Beat>, ghost o0: seq<Order>)
      returns (outcome: Outcome)
      requires At(a, b0, o0) && a.outcome == Done && a.event == event && a.status == status
      modifies this
      ensures var r := Continue(a, m);
              outcome == r.outcome && View() == r.office && beats == b0 + r.beats && orders == o0 + r.orders
    {
      hide NewState, ActionOf, Perform;
      outcome := Done;
      var to := NewState(state, event, status);
      if state != to {
        outcome := PerformAction(m, event, ActionOf(state, event, status), status, to);
        if outcome == Done { state := to; }
      }
    }

    /** Every message does to the object exactly what the specification does to its value. */
    method ProcessEvent(m: Input) returns (outcome: Outcome)
      modifies this
      ensures var r := Process(old(View()), m);
              && outcome == r.outcome && View() == r.office
              && beats == old(beats) + r.beats && orders == old(orders) + r.orders
    {
      hide OnHeartbeat, Timestamped, Rechecked, OnQuorum, OnLocalFile, OnData, Continue, CheckEvent, EventOf;
      var event, status := EventOf(m.status), m.status;
      if !CheckEvent(state, event, status) { return Done; }
      ghost var b0, o0 := beats, orders;
      ghost var a := Entered(View(), m);
      if event == ReceivedHeartbeat {
        event, status, outcome := Heartbeat(m);
        if outcome != Done {
          Halted(a, m);
          return;
        }
      }
      outcome := Dispatch(m, event, status, a, b0, o0);
      a := OnQuorum(a, m);
      if outcome != Done {
        Halted(a, m);
        return;
      }
      event, status, outcome := LocalFile(m, event, status, a, b0, o0);
      a := OnLocalFile(a, m);
      if outcome != Done {
        Halted(a, m);
        return;
      }
      event, status, outcome := FileData(m, event, status, a, b0, o0);
      a := OnData(a, m);
      if outcome != Done {
        Halted(a, m);
        return;
      }
      outcome := Advance(m, event, status, a, b0, o0);
    }

    /**
     * The router loop over the messages in the order in which they come in, until one of them
     * does not return 0: what the object goes through is a run of the specification.
     */
    method RunRouter(ms: seq<Input>) returns (outcome: Outcome, ghost rs: seq<Result>)
      modifies this
      ensures Runs.Follows(old(View()), ms, rs) && View() == Runs.Before(old(View()), rs, |rs|)
      ensures if outcome == Done then |rs| == |ms| else rs != [] && rs[|rs| - 1].outcome == outcome
    {
      hide Process, Runs.Follows;
      outcome, rs := Done, [];
      ghost var start := View();
      NothingYet(start, ms);
      var n := 0;
      while n < |ms|
        invariant |rs| == n <= |ms| && outcome == Done
        invariant Runs.Follows(start, ms, rs) && View() == Runs.Before(start, rs, n)
      {
        ghost var r := Process(View(), ms[n]);
        Runs.FollowsOn(start, ms, rs, r);
        outcome := ProcessEvent(ms[n]);
        rs := rs + [r];
        if outcome != Done { return; }
        n := n + 1;
      }
    }
  }
}
