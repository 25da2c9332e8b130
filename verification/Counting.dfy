/**
 * The reply flags, and the end of a round: what one step with an honest message does to
 * them.
 */
module Counting {
  import opened Fsm
  import opened Boxoffice
  import opened Stages
  import opened Roles
  import opened Steps

  /**
   * What can reach a boxoffice: heartbeats and file data of peers, timer ticks of its own
   * dispatcher, file events of its own boxes, an interrupt.
   */
  predicate Honest(m: Input) {
    || EventOf(m.status) == ReceivedHeartbeat
    || m.status == S132 || m.status == S156 || m.status == S200 || m.status == S210
    || FileEvent(m.status) || m.status == S500
  }

  predicate FileEvent(s: Status) { s == S300 || s == S304 || s == S320 || s == S324 }

  predicate Flag(replied: map<NodeId, bool>, n: NodeId) { n in replied && replied[n] }

  ghost predicate NoFlags(replied: map<NodeId, bool>) { forall n :: !Flag(replied, n) }

  /** The results of a full round. */
  predicate RoundStatus(s: Status) {
    s == S122 || s == S162 || s == S166 || s == S142 || s == S172 || s == S174 || s == S177 || s == S178
  }

  // ---------- statuses a step can end up with ----------

  /** Where the status after all rewrites comes from. */
  predicate Rewritten(o: Office, m: Input, status: Status) {
    || status == m.status
    || (Reply(m.status) && RoundStatus(status))
    || (status == S173 && (m.status == S170 || m.status == S174))
    || (status == S100 && m.status == S150)
    || (status == S301 && FileEvent(m.status) && o.state == AnnouncingNewFile)
    || (status == S113 && m.status == S200)
  }

  lemma HeardStatus(o: Office, m: Input)
    ensures var s := OnHeartbeat(o, m).status;
            || s == m.status || (Reply(m.status) && RoundStatus(s))
            || (s == S173 && (m.status == S170 || m.status == S174)) || (s == S100 && m.status == S150)
  {
    hide EventOf, Opened, Sized, Applied;
  }

  lemma FileEvents(status: Status)
    ensures LocalFileEvent(EventOf(status)) <==> FileEvent(status)
    ensures EventOf(status) == ReceivedFileData <==> status == S200
  {
  }

  lemma EnteredStatus(o: Office, m: Input)
    requires Accepted(o, m)
    ensures var s := Entered(o, m).status;
            || s == m.status || (Reply(m.status) && RoundStatus(s))
            || (s == S173 && (m.status == S170 || m.status == S174)) || (s == S100 && m.status == S150)
  {
    hide OnHeartbeat, Timestamped, CheckEvent, EventOf, RoundStatus, Reply;
    HeardStatus(Timestamped(o, m), m);
  }

  lemma LocalStatus(a: Mid, m: Input)
    ensures var s := OnLocalFile(a, m).status;
            s == a.status || (s == S301 && LocalFileEvent(a.event) && a.office.state == AnnouncingNewFile)
  {
    hide EventOf;
  }

  lemma DataStatus(a: Mid, m: Input)
    ensures var s := OnData(a, m).status;
            s == a.status || (s == S113 && a.event == ReceivedFileData)
  {
    hide EventOf, CheckEvent, Received;
  }

  lemma SettledStatus(o: Office, m: Input)
    requires Accepted(o, m)
    ensures Rewritten(o, m, Settled(o, m).status)
  {
    hide Entered, OnQuorum, OnLocalFile, OnData, CheckEvent, EventOf;
    var a := Entered(o, m);
    var b := OnQuorum(a, m);
    var c := OnLocalFile(b, m);
    EnteredStatus(o, m);
    HeardConsistent(o, m);
    QuorumConsistent(o.state, a, m);
    QuorumFlags(a, m);
    LocalStatus(b, m);
    LocalConsistent(o.state, b, m);
    DataStatus(c, m);
    FileEvents(a.status);
    FileEvents(c.status);
  }

  // ---------- reply flags ----------

  lemma ReplyFlags(o: Office, m: Input)
    ensures var a := OnReply(o, m);
            if Full(o, m.sender)
            then NoFlags(a.office.replied) && (Reply(m.status) ==> RoundStatus(a.status))
            else a.status == m.status && (forall n :: Flag(a.office.replied, n) ==> n == m.sender || Flag(o.replied, n))
  {
    hide EventOf;
    var heard := o.replied[m.sender := true];
    if Full(o, m.sender) {
      assert forall n :: n in heard ==> heard[n];
    } else {
      var n :| n in o.replied && n != m.sender && !o.replied[n];
      assert n in heard && !heard[n];
    }
  }

  lemma HeardFlags(o: Office, m: Input)
    requires !Reply(m.status)
    ensures OnHeartbeat(o, m).office.replied == o.replied
  {
    MetadataFrame(o, m);
    NewFileFrame(o, m);
    hide EventOf, OnMetadata, OnNewFileRecord;
  }

  lemma StampedFlags(o: Office, m: Input)
    ensures forall n :: Flag(Timestamped(o, m).replied, n) <==> Flag(o.replied, n)
    ensures Full(Timestamped(o, m), m.sender) <==> Full(o, m.sender)
  {
    var t := Timestamped(o, m);
    assert forall k :: k in t.replied ==> k == m.sender || (k in o.replied && t.replied[k] == o.replied[k]);
    assert forall k :: k in o.replied ==> k in t.replied && t.replied[k] == o.replied[k];
    hide Int16;
  }

  lemma EnteredFlags(o: Office, m: Input)
    ensures var a := Entered(o, m);
            && (forall n :: Flag(a.office.replied, n) ==> Flag(o.replied, n) || (Reply(m.status) && n == m.sender))
            && (Reply(m.status) && a.status != m.status ==> NoFlags(a.office.replied) && Full(o, m.sender))
  {
    hide CheckEvent, EventOf, Timestamped, OnNewFileRecord, OnMetadata, OnEnd, OnReply, Flag, Full;
    StampedFlags(o, m);
    if Reply(m.status) {
      ReplyFlags(Timestamped(o, m), m);
    } else {
      HeardFlags(Timestamped(o, m), m);
      hide OnHeartbeat;
    }
  }

  lemma QuorumFlags(a: Mid, m: Input)
    ensures var q := OnQuorum(a, m); q.office.replied == a.office.replied && q.status == a.status
  {
    hide StartTime;
  }

  lemma LocalFlags(a: Mid, m: Input)
    ensures var q := OnLocalFile(a, m);
            && (q.office.replied == a.office.replied || NoFlags(q.office.replied))
            && (q.outcome == Done && LocalFileEvent(a.event) ==> NoFlags(q.office.replied))
            && (!LocalFileEvent(a.event) ==> q == a)
  {
    hide EventOf;
  }

  lemma DataFlags(a: Mid, m: Input)
    ensures var q := OnData(a, m);
            && q.office.replied == a.office.replied
            && (q.outcome == Done ==> a.outcome == Done)
            && (a.event != ReceivedFileData ==> q == a)
  {
    hide EventOf, CheckEvent, Received;
  }

  /** Flags only get set by replies; a full round and a local file event clear them. */
  lemma SettledFlags(o: Office, m: Input)
    requires Accepted(o, m)
    ensures var a := Settled(o, m);
            && (forall n :: Flag(a.office.replied, n) ==> Flag(o.replied, n) || (Reply(m.status) && n == m.sender))
            && (Reply(m.status) && a.status != m.status ==> NoFlags(a.office.replied) && Full(o, m.sender))
            && (FileEvent(m.status) && a.outcome == Done ==> NoFlags(a.office.replied))
  {
    hide OnQuorum, OnLocalFile, OnData, CheckEvent, OnHeartbeat, Full, Timestamped;
    var a := Entered(o, m);
    EnteredFlags(o, m);
    HeardConsistent(o, m);
    QuorumFlags(a, m);
    QuorumConsistent(o.state, a, m);
    var b := OnQuorum(a, m);
    LocalFlags(b, m);
    DataFlags(OnLocalFile(b, m), m);
    HeardStatus(Timestamped(o, m), m);
    FileEvents(m.status);
    FileEvents(a.status);
    FileEvents(S301);
    hide Entered, EventOf;
  }

  // ---------- rows by which a sender-role state is entered ----------

  lemma SenderRow(s: State, status: Status)
    requires CheckEvent(s, EventOf(status), status)
    ensures var t := NewState(s, EventOf(status), status);
            && (t != s && Sender(t) ==>
                  || FileEvent(status) || (RoundStatus(status) && status != S174) || status == S126 || status == S146
                  || (status == S132 && (s == SendingNewFileMetadata || s == SendingNewFileMetadataWithMore)))
            && (Sender(s) && Reply(status) ==> status == Awaited(s) && t == s)
  {
  }

  /** While the record of a new file goes out no replies are counted. */
  ghost predicate Quiet(o: Office) {
    o.state == SendingNewFileMetadata || o.state == SendingNewFileMetadataWithMore ==> NoFlags(o.replied)
  }

  /**
   * In a sender-role state a set flag was set before in the same state, or is set in this
   * very step by the reply which that state counts.
   */
  lemma FlagStep(o: Office, m: Input)
    requires Honest(m) && Quiet(o)
    ensures var p := Process(o, m).office;
            && Quiet(p)
            && (forall n :: Sender(p.state) && Flag(p.replied, n) ==>
                  p.state == o.state && (Flag(o.replied, n) || (n == m.sender && m.status == Awaited(o.state))))
  {
    hide Settled, Process, Continue, CheckEvent, NewState, EventOf, Honest, Row, Accepted, Fits, NoFlags, Flag, Awaited;
    ProcessSettles(o, m);
    if Accepted(o, m) {
      var a, p := Settled(o, m), Process(o, m).office;
      SettledConsistent(o, m);
      SettledFlags(o, m);
      SettledStatus(o, m);
      HonestStatus(m);
      ContinueKeys(a, m);
      Continued(o.state, a, m);
      if p.state != o.state {
        RowAccepted(o.state, a.status, p.state);
        SenderRow(o.state, a.status);
      } else {
        if Reply(m.status) && Sender(o.state) { ReplyRow(o, m); }
      }
      NoFlagsAt(a.office.replied);
      NoFlagsAt(o.replied);
    }
  }

  lemma NoFlagsAt(f: map<NodeId, bool>)
    ensures NoFlags(f) <==> forall n :: !Flag(f, n)
  {
  }

  lemma RowAccepted(s: State, status: Status, t: State)
    requires Row(s, status, t)
    ensures CheckEvent(s, EventOf(status), status) && NewState(s, EventOf(status), status) == t
  {
  }

  lemma ReplyRow(o: Office, m: Input)
    requires Accepted(o, m) && Reply(m.status) && Sender(o.state)
    ensures m.status == Awaited(o.state)
    ensures o.state != SendingNewFileMetadata && o.state != SendingNewFileMetadataWithMore
  {
    SenderRow(o.state, m.status);
  }

  /** No peer says by itself that a round is over. */
  lemma HonestStatus(m: Input)
    requires Honest(m)
    ensures RoundStatus(m.status) ==> m.status == S174
    ensures m.status != S126 && m.status != S146
  {
  }

  // ---------- the end of a round ----------

  /** The step rewrites a reply: it takes the round to be over. */
  predicate Concluding(o: Office, m: Input) {
    Accepted(o, m) && Reply(m.status) && Settled(o, m).status != m.status
  }

  /** Moves of a sending node that need every subscriber's reply. */
  predicate NeedsAll(s: State, t: State) {
    || (s == AnnouncingNewFile && t == SendingNewFileMetadata)
    || (s == AnnouncingFileMetadataChange && t == SendingFileMetadataChange)
    || (s == AnnouncingFileMetadataChangeWithMore && t == SendingFileMetadataChangeWithMore)
    || (s == SendingFileMetadataChange && t == Ready)
    || (s == SendingFileMetadataChangeWithMore && (t == SendingNewFileMetadata || t == SendingNewFileMetadataWithMore))
    || (s == SendingNewFile && t == SyncingStop)
    || ((s == SendingNewFileWithMoreAlpha || s == SendingNewFileWithMoreBeta) && t == SendingNewFile)
  }

  lemma NeedsAllRow(s: State, status: Status)
    requires CheckEvent(s, EventOf(status), status) && NeedsAll(s, NewState(s, EventOf(status), status))
    ensures RoundStatus(status) && status != S174
  {
  }

  lemma ConcludingStep(o: Office, m: Input)
    requires Honest(m) && Sender(o.state)
    ensures NeedsAll(o.state, Process(o, m).office.state) ==> Concluding(o, m)
    ensures Concluding(o, m) ==>
              m.status == Awaited(o.state) && Full(o, m.sender) && NoFlags(Process(o, m).office.replied)
  {
    hide Settled, Process, Continue, CheckEvent, NewState, EventOf, Honest, Row, Accepted, Fits, NoFlags, Flag, Awaited,
      Full;
    ProcessSettles(o, m);
    if Accepted(o, m) {
      var a, p := Settled(o, m), Process(o, m).office;
      SettledConsistent(o, m);
      SettledFlags(o, m);
      SettledStatus(o, m);
      HonestStatus(m);
      ContinueKeys(a, m);
      Continued(o.state, a, m);
      if Reply(m.status) { ReplyRow(o, m); }
      if NeedsAll(o.state, p.state) {
        RowAccepted(o.state, a.status, p.state);
        NeedsAllRow(o.state, a.status);
      }
    }
  }
}
