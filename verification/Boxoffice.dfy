/**
 * One step of the boxoffice: what it does with one message from a subscriber, from
 * its own dispatcher or from a watched box.  `Process` is the specification of
 * `processEvent` on values, split into the stages of the program text.
 */
module Boxoffice {
  import opened Fsm
  import opened FileStore

  type NodeId = nat

  const MAXIMUM_PATH_LENGTH: nat := 128
  const MINIMUM_SEND_OFFSET: nat := 3000
  const MAXIMUM_SEND_OFFSET: nat := 6000
  const MINIMUM_STOP_OFFSET: nat := 1000
  const MAXIMUM_STOP_OFFSET: nat := 2000
  const TWO_16: int := 0x1_0000
  const TWO_64: int := 0x1_0000_0000_0000_0000

  datatype Option<+T> = None | Some(value: T)

  /** The metadata record of a regular file, or the notice that it was deleted. */
  datatype Record = Record(path: string, size: nat, deleted: bool)

  /** An update handed to the heartbeaters, which then repeat it until the next one. */
  datatype Beat = Beat(status: Status, file: Option<Record>, deadline: Option<nat>)

  /** A message to the dispatcher: send this file, play along with fake data, stop. */
  datatype Order =
    | Send(status: Status, start: nat, file: Record)
    | Pretend(start: nat)
    | Stop(end: nat)

  /**
   * A message to the boxoffice with everything its stream can hold, the local clock
   * and the random number drawn while it is processed.  A field that the status does
   * not carry is simply not read.
   */
  datatype Input = Input(
    status: Status, sender: NodeId, stamp: nat, now: nat, random: nat,
    file: Record, deadline: nat, offset: nat, chunk: seq<byte>, more: bool)

  datatype Office = Office(
    state: State,
    replied: map<NodeId, bool>,
    skew: map<NodeId, int>,
    dataQueue: seq<Record>,
    metaQueue: seq<Record>,
    deadline: nat,
    notified: bool,
    current: Option<Record>,
    written: bool,
    stopSent: bool,
    disk: map<string, seq<byte>>)

  /** Return value 0, return value 1, or a step that is undefined or throws. */
  datatype Outcome = Done | Rejected | Fault

  datatype Result = Result(office: Office, beats: seq<Beat>, orders: seq<Order>, outcome: Outcome)

  /** The locals of `processEvent` between two stages. */
  datatype Mid = Mid(office: Office, event: Event, status: Status,
                     beats: seq<Beat>, orders: seq<Order>, outcome: Outcome)

  function Initial(subscribers: set<NodeId>, disk: map<string, seq<byte>>): Office {
    Office(Ready, map n | n in subscribers :: false, map n | n in subscribers :: 0, [], [],
           (TWO_64 - 1), false, None, false, false, disk)
  }

  // ---------- clocks ----------

  /** Truncation to a signed 16-bit integer. */
  function Int16(x: int): int {
    var r := x % TWO_16;
    if r < TWO_16 / 2 then r else r - TWO_16
  }

  function UInt64(x: int): nat { x % TWO_64 }

  /** A heartbeat refreshes the clock offset of its sender, adding an unknown sender to the map. */
  function Timestamped(o: Office, m: Input): Office {
    o.(skew := o.skew[m.sender := Int16(m.now - m.stamp)],
       replied := if m.sender in o.replied then o.replied else o.replied[m.sender := false])
  }

  function SkewOf(o: Office, n: NodeId): int { if n in o.skew then o.skew[n] else 0 }

  function StartTime(o: Office, m: Input): nat {
    UInt64(m.now + m.random % (MAXIMUM_SEND_OFFSET - MINIMUM_SEND_OFFSET) + MINIMUM_SEND_OFFSET
           - SkewOf(o, m.sender))
  }

  function StopTime(m: Input): nat {
    UInt64(m.now + m.random % (MAXIMUM_STOP_OFFSET - MINIMUM_STOP_OFFSET) + MINIMUM_STOP_OFFSET)
  }

  // ---------- reply flags ----------

  function ResetReplied(o: Office): Office { o.(replied := map n | n in o.replied :: false) }

  function Plain(o: Office, status: Status): Mid { Mid(o, EventOf(status), status, [], [], Done) }

  /** A status that was rewritten is checked against the table again. */
  function Rechecked(a: Mid, before: Status): Mid {
    if a.outcome == Done && a.status != before && !CheckEvent(a.office.state, a.event, a.status)
    then a.(outcome := Rejected)
    else a
  }

  predicate Reply(s: Status) { s == S121 || s == S161 || s == S165 || s == S140 || s == S141 }

  function AfterMetadata(o: Office): Status {
    if |o.metaQueue| > 0 then S174
    else if |o.dataQueue| > 1 then S178
    else if |o.dataQueue| > 0 then S177
    else S172
  }

  /** What a reply turns into once every node has given it. */
  function Concluded(o: Office, reply: Status): Status {
    if reply == S121 then S122
    else if reply == S161 then S162
    else if reply == S165 then S166
    else if reply == S140 then S142
    else AfterMetadata(o)
  }

  /** Notes the sender's reply; the last one outstanding clears the flags and concludes the round. */
  function OnReply(o: Office, m: Input): Mid {
    var heard := o.replied[m.sender := true];
    if forall n <- heard :: heard[n]
    then Plain(o.(replied := map n | n in heard :: false, written := o.written && m.status != S121),
               Concluded(o, m.status))
    else Plain(o.(replied := heard), m.status)
  }

  // ---------- records ----------

  /** Reading a record removes a deleted file and creates a missing one. */
  function Opened(disk: map<string, seq<byte>>, f: Record): map<string, seq<byte>> {
    if f.deleted then disk - {f.path}
    else if f.path in disk then disk
    else disk[f.path := []]
  }

  function Sized(disk: map<string, seq<byte>>, f: Record): map<string, seq<byte>>
    requires f.path in disk
  {
    disk[f.path := Resized(disk[f.path], f.size)]
  }

  /** Metadata of a new file, read while promoting it: at most one notice to the dispatcher. */
  function OnNewFileRecord(o: Office, m: Input): Mid {
    var disk := Opened(o.disk, m.file);
    if !o.written && m.file.deleted then Mid(o, EventOf(m.status), m.status, [], [], Fault)
    else
      Mid(o.(disk := if o.written then disk else Sized(disk, m.file),
             written := true, current := Some(m.file), notified := true),
          EventOf(m.status), m.status, [], [Pretend(m.deadline)], Done)
  }

  /** A metadata change, applied unless one was already written since the last reset. */
  function Applied(o: Office, f: Record): Office {
    var disk := Opened(o.disk, f);
    if f.deleted || o.written then o.(disk := disk)
    else o.(disk := Sized(disk, f), written := true)
  }

  // ---------- stages of processEvent ----------

  /** Statuses that only touch a flag, or nothing at all. */
  function OnNotice(o: Office, s: Status): Office {
    if s == S100 then o.(stopSent := false)
    else if s == S120 || s == S124 then o.(notified := false)
    else if s == S160 then o.(written := false)
    else o
  }

  /** A metadata record counts as received once it is read in the receiving state. */
  function OnMetadata(o: Office, m: Input): Mid {
    if m.status == S170 && o.state == ReceivingFileMetadataChange then
      Plain(Applied(o, m.file).(written := false), S173)
    else if m.status == S174 && o.state == ReceivingFileMetadataChangeWithMore then
      Plain(Applied(o, m.file).(current := Some(m.file), notified := false), S173)
    else Plain(o, m.status)
  }

  /** 150 in the ready state goes back to advertising 100 (the table row of 100); 155 carries the stop time. */
  function OnEnd(o: Office, m: Input): Mid {
    if m.status == S150 && o.state == Ready then
      Mid(o, EventOf(S100), S100, [Beat(S100, None, None)], [], Done)
    else if m.status == S155 && !o.stopSent then
      Mid(o.(stopSent := true), EventOf(S155), S155, [], [Stop(m.deadline)], Done)
    else Plain(o, m.status)
  }

  function OnHeartbeat(o: Office, m: Input): Mid {
    var s := m.status;
    if Reply(s) then OnReply(o, m)
    else if s == S130 && o.state == PromotingNewFileMetadata && !o.notified then OnNewFileRecord(o, m)
    else if s == S170 || s == S174 then OnMetadata(o, m)
    else if s == S150 || s == S155 then OnEnd(o, m)
    else Plain(OnNotice(o, s), s)
  }

  /** With all replies in, the dispatcher gets the start time and the file at the head of the queue. */
  function OnQuorum(a: Mid, m: Input): Mid {
    if a.outcome == Done
       && ((a.event == AllNodesReplied && a.status == S122)
           || (a.event == AllNodesHaveAllMetadataChangesWithMore && a.status == S177))
    then
      if a.office.dataQueue == [] then a.(outcome := Fault)
      else
        var start := StartTime(a.office, m);
        a.(office := a.office.(deadline := start),
           orders := a.orders + [Send(a.status, start, a.office.dataQueue[0])])
    else a
  }

  predicate LocalFileEvent(e: Event) {
    e == NewLocalFile || e == NewLocalFileWithMore
    || e == LocalFileMetadataChange || e == LocalFileMetadataChangeWithMore
  }

  /**
   * A local file joins its queue and every reply is forgotten.  While a new file is
   * being announced the search for it compares the address of an object created in
   * this very step, so nothing is ever found: the event counts as reported twice.
   */
  function OnLocalFile(a: Mid, m: Input): Mid {
    if a.outcome == Done && LocalFileEvent(a.event) then
      if |m.file.path| > MAXIMUM_PATH_LENGTH then a.(outcome := Rejected)
      else
        var o := ResetReplied(a.office);
        if o.state == AnnouncingNewFile then
          a.(office := o, status := S301, event := EventOf(S301))
        else if a.event == NewLocalFile || a.event == NewLocalFileWithMore then
          a.(office := o.(dataQueue := o.dataQueue + [m.file]))
        else
          a.(office := o.(metaQueue := o.metaQueue + [m.file]))
    else a
  }

  function Received(disk': map<string, seq<byte>>, f: Record, m: Input): map<string, seq<byte>> {
    var disk := Opened(disk', f);
    if f.deleted then disk
    else disk[f.path := StoreChunk(disk[f.path], f.size, m.chunk, m.offset)]
  }

  /**
   * A data packet goes to the file whose record is in `current_file_`; reading the
   * record consumes the stream, so a second packet finds none.
   */
  function OnData(a: Mid, m: Input): Mid {
    if a.outcome == Done && a.event == ReceivedFileData then
      if a.office.current.None? then a.(outcome := Fault)
      else
        var o := a.office.(current := None, disk := Received(a.office.disk, a.office.current.value, m));
        var b := a.(office := o, status := S113, event := EventOf(S113));
        if m.more then a.(office := o) else Rechecked(b, a.status)
    else a
  }

  /** The heartbeat sent on entering `to`, with the file or the deadline that goes with it. */
  function Prepare(o: Office, m: Input, status: Status, to: State): Result {
    if to == SendingNewFileMetadata || to == SendingNewFileMetadataWithMore then
      if o.dataQueue == [] then Result(o, [], [], Fault)
      else Result(o.(current := Some(o.dataQueue[0]), dataQueue := o.dataQueue[1..]),
                  [Beat(status, Some(o.dataQueue[0]), Some(o.deadline))], [], Done)
    else if to == SendingFileMetadataChange || to == SendingFileMetadataChangeWithMore then
      if o.metaQueue == [] then Result(o, [], [], Fault)
      else Result(o.(current := Some(o.metaQueue[0]), metaQueue := o.metaQueue[1..]),
                  [Beat(status, Some(o.metaQueue[0]), None)], [], Done)
    else if to == SyncingStop && !o.stopSent then
      Result(o.(deadline := StopTime(m), stopSent := true),
             [Beat(status, None, Some(StopTime(m)))], [Stop(StopTime(m))], Done)
    else Result(o, [Beat(status, None, None)], [], Done)
  }

  function Perform(o: Office, m: Input, event: Event, status: Status, to: State): Result {
    if ActionOf(o.state, event, status) == SendHeartbeat
    then Prepare(o, m, HeartbeatStatus(o.state, event, status), to)
    else Result(o, [], [], Done)
  }

  function Continue(a: Mid, m: Input): Result {
    if a.outcome != Done then Result(a.office, a.beats, a.orders, a.outcome)
    else
      var to := NewState(a.office.state, a.event, a.status);
      if a.office.state == to then Result(a.office, a.beats, a.orders, Done)
      else
        var r := Perform(a.office, m, a.event, a.status, to);
        if r.outcome != Done then Result(r.office, a.beats + r.beats, a.orders + r.orders, r.outcome)
        else Result(r.office.(state := to), a.beats + r.beats, a.orders + r.orders, Done)
  }

  function Entered(o: Office, m: Input): Mid {
    if EventOf(m.status) == ReceivedHeartbeat then Rechecked(OnHeartbeat(Timestamped(o, m), m), m.status)
    else Plain(o, m.status)
  }

  function Process(o: Office, m: Input): Result {
    if CheckEvent(o.state, EventOf(m.status), m.status)
    then Continue(OnData(OnLocalFile(OnQuorum(Entered(o, m), m), m), m), m)
    else Result(o, [], [], Done)
  }
}
