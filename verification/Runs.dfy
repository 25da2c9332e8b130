/**
 * One node over a whole run, for any sequence of messages: safety of the state machine,
 * coherence of what is advertised, quorums, queues, and notices to the dispatcher.
 */
module Runs {
  import opened Fsm
  import opened Boxoffice
  import opened Roles
  import opened Steps
  import opened Counting
  import opened Queues
  import opened Orders

  /** The node before message k. */
  function Before(start: Office, rs: seq<Result>, k: nat): Office
    requires k <= |rs|
  {
    if k == 0 then start else rs[k - 1].office
  }

  /** The results of processing the first of these messages, in order. */
  ghost predicate Follows(start: Office, ms: seq<Input>, rs: seq<Result>) {
    && |rs| <= |ms|
    && forall k :: 0 <= k < |rs| ==> rs[k] == Process(Before(start, rs, k), ms[k])
  }

  lemma FollowsOn(start: Office, ms: seq<Input>, rs: seq<Result>, r: Result)
    requires Follows(start, ms, rs) && |rs| < |ms| && r == Process(Before(start, rs, |rs|), ms[|rs|])
    ensures Follows(start, ms, rs + [r]) && Before(start, rs + [r], |rs| + 1) == r.office
  {
    hide Process;
    assert forall k :: 0 <= k <= |rs| ==> Before(start, rs + [r], k) == Before(start, rs, k);
  }

  /** The results of processing all of these messages, starting fresh. */
  ghost predicate Trace(start: Office, ms: seq<Input>, rs: seq<Result>) {
    && start == Initial(start.replied.Keys, start.disk)
    && |rs| == |ms| && Follows(start, ms, rs)
  }

  ghost predicate HonestTrace(start: Office, ms: seq<Input>, rs: seq<Result>) {
    Trace(start, ms, rs) && forall k :: 0 <= k < |ms| ==> Honest(ms[k])
  }

  /** How a fresh boxoffice starts. */
  lemma Begins(start: Office, ms: seq<Input>, rs: seq<Result>)
    requires Trace(start, ms, rs)
    ensures start.state == 1 && !start.notified && !start.written && !start.stopSent && start.current == None
    ensures start.deadline == 0xFFFF_FFFF_FFFF_FFFF && forall n :: n in start.skew ==> start.skew[n] == 0
    ensures |ms| == |rs| && start.state == Ready && start.dataQueue == [] && start.metaQueue == [] && Stocked(start)
    ensures NoFlags(start.replied)
  {
    hide Process;
  }

  lemma StepOf(start: Office, ms: seq<Input>, rs: seq<Result>, k: nat)
    requires Trace(start, ms, rs) && k < |rs|
    ensures |ms| == |rs| && rs[k] == Process(Before(start, rs, k), ms[k]) && Before(start, rs, k + 1) == rs[k].office
  {
    hide Process;
  }

  // ---------- the state machine ----------

  /** Every state change follows a row of the table for the status after all rewrites. */
  lemma TableFollowed(start: Office, ms: seq<Input>, rs: seq<Result>, k: nat)
    requires Trace(start, ms, rs) && k < |rs|
    ensures |ms| == |rs|
    ensures var o := Before(start, rs, k);
            rs[k].office.state != o.state ==>
              rs[k].outcome == Done && Row(o.state, Settled(o, ms[k]).status, rs[k].office.state)
  {
    hide Process, Settled, Row;
    StepOf(start, ms, rs, k);
    StepTaken(Before(start, rs, k), ms[k]);
  }

  /** How the role can change in one step. */
  lemma RoleStep(start: Office, ms: seq<Input>, rs: seq<Result>, k: nat)
    requires Trace(start, ms, rs) && k < |rs|
    ensures var s, t := Before(start, rs, k).state, rs[k].office.state;
            && (s != NullState ==> t != NullState)
            && (s == Exit ==> t == Exit)
            && (Sender(t) ==> Sender(s) || s == Ready)
            && (Receiver(t) ==> Receiver(s) || s == Ready)
            && (DataState(t) ==> (DataState(s) || MetadataState(s)) && (Sender(s) <==> Sender(t)))
  {
    hide Process, Settled, CheckEvent, NewState, EventOf, Trace;
    TableFollowed(start, ms, rs, k);
    var o := Before(start, rs, k);
    if rs[k].office.state != o.state {
      RoleEdges(o.state, Settled(o, ms[k]).status);
      StateDefined(o.state, Settled(o, ms[k]).status);
    }
  }

  lemma {:induction false} NeverNull(start: Office, ms: seq<Input>, rs: seq<Result>, k: nat)
    requires Trace(start, ms, rs) && k <= |rs|
    ensures Before(start, rs, k).state != NullState
  {
    hide Trace;
    Begins(start, ms, rs);
    if k > 0 {
      NeverNull(start, ms, rs, k - 1);
      RoleStep(start, ms, rs, k - 1);
    }
  }

  lemma {:induction false} ExitAbsorbs(start: Office, ms: seq<Input>, rs: seq<Result>, i: nat, j: nat)
    requires Trace(start, ms, rs) && i <= j <= |rs| && Before(start, rs, i).state == Exit
    ensures Before(start, rs, j).state == Exit
  {
    hide Trace;
    if i < j {
      ExitAbsorbs(start, ms, rs, i, j - 1);
      RoleStep(start, ms, rs, j - 1);
    }
  }

  /** Without passing through ready, a node keeps its role until it stops or exits. */
  lemma {:induction false} RoleKept(start: Office, ms: seq<Input>, rs: seq<Result>, i: nat, j: nat)
    requires Trace(start, ms, rs) && i <= j <= |rs|
    requires forall r :: i < r < j ==> Before(start, rs, r).state != Ready
    requires Before(start, rs, i).state != Ready
    ensures Sender(Before(start, rs, j).state) ==> Sender(Before(start, rs, i).state)
    ensures Receiver(Before(start, rs, j).state) ==> Receiver(Before(start, rs, i).state)
  {
    hide Trace, Sender, Receiver;
    if i < j {
      RoleStep(start, ms, rs, j - 1);
      RoleKept(start, ms, rs, i, j - 1);
    }
  }

  /** Between sending and receiving, in either order, a node has been ready. */
  lemma RolesSeparated(start: Office, ms: seq<Input>, rs: seq<Result>, i: nat, j: nat)
    requires Trace(start, ms, rs) && i < j <= |rs|
    requires var s, t := Before(start, rs, i).state, Before(start, rs, j).state;
             (Sender(s) && Receiver(t)) || (Receiver(s) && Sender(t))
    ensures exists r :: i < r < j && Before(start, rs, r).state == Ready
  {
    hide Trace;
    if forall r :: i < r < j ==> Before(start, rs, r).state != Ready {
      RoleKept(start, ms, rs, i, j);
    }
  }

  /** Data is reached only through metadata, in the same role and without being ready in between. */
  lemma {:induction false} DataAfterMetadata(start: Office, ms: seq<Input>, rs: seq<Result>, j: nat) returns (r: nat)
    requires Trace(start, ms, rs) && j <= |rs| && DataState(Before(start, rs, j).state)
    ensures r < j && MetadataState(Before(start, rs, r).state)
    ensures Sender(Before(start, rs, r).state) <==> Sender(Before(start, rs, j).state)
    ensures forall q :: r <= q <= j ==> Before(start, rs, q).state != Ready
  {
    hide Trace;
    Begins(start, ms, rs);
    RoleStep(start, ms, rs, j - 1);
    if MetadataState(Before(start, rs, j - 1).state) {
      r := j - 1;
    } else {
      r := DataAfterMetadata(start, ms, rs, j - 1);
    }
  }

  // ---------- what is advertised ----------

  /** The status last handed to the heartbeaters, which start with 100. */
  function Advert(rs: seq<Result>, k: nat): Status
    requires k <= |rs|
  {
    if k == 0 then S100
    else
      var beats := rs[k - 1].beats;
      if beats != [] then beats[|beats| - 1].status else Advert(rs, k - 1)
  }

  /** The advertised status always fits the state; on exit it stays what it was. */
  lemma {:induction false} AdvertFits(start: Office, ms: seq<Input>, rs: seq<Result>, k: nat)
    requires Trace(start, ms, rs) && k <= |rs|
    ensures Fits(Before(start, rs, k).state, Advert(rs, k))
    ensures k > 0 && Before(start, rs, k).state == Exit ==> Advert(rs, k) == Advert(rs, k - 1)
  {
    hide Process, Trace, Settled, Row;
    Begins(start, ms, rs);
    if k > 0 {
      AdvertFits(start, ms, rs, k - 1);
      StepOf(start, ms, rs, k - 1);
      StepTaken(Before(start, rs, k - 1), ms[k - 1]);
    }
  }

  // ---------- quorums ----------

  /** Message i was n's reply to the round that is still being counted at message k. */
  ghost predicate Counts(start: Office, ms: seq<Input>, rs: seq<Result>, n: NodeId, i: nat, k: nat)
    requires |ms| == |rs| && k <= |rs|
  {
    && i < k && ms[i].sender == n
    && ms[i].status == Awaited(Before(start, rs, k).state)
    && (forall q :: i <= q <= k ==> Before(start, rs, q).state == Before(start, rs, k).state)
    && (forall q :: i < q <= k ==> Flag(Before(start, rs, q).replied, n))
  }

  lemma {:induction false} QuietRun(start: Office, ms: seq<Input>, rs: seq<Result>, k: nat)
    requires HonestTrace(start, ms, rs) && k <= |rs|
    ensures Quiet(Before(start, rs, k))
  {
    hide Process, Trace, Honest, Flag;
    Begins(start, ms, rs);
    if k > 0 {
      QuietRun(start, ms, rs, k - 1);
      StepOf(start, ms, rs, k - 1);
      FlagStep(Before(start, rs, k - 1), ms[k - 1]);
    }
  }

  lemma {:induction false} FlagMeansReply(start: Office, ms: seq<Input>, rs: seq<Result>, k: nat, n: NodeId)
    returns (i: nat)
    requires HonestTrace(start, ms, rs) && k <= |rs|
    requires Sender(Before(start, rs, k).state) && Flag(Before(start, rs, k).replied, n)
    ensures |ms| == |rs| && Counts(start, ms, rs, n, i, k)
  {
    hide Process, Trace, Honest, Quiet, Awaited, Flag;
    Begins(start, ms, rs);
    QuietRun(start, ms, rs, k - 1);
    StepOf(start, ms, rs, k - 1);
    FlagStep(Before(start, rs, k - 1), ms[k - 1]);
    if Flag(Before(start, rs, k - 1).replied, n) {
      i := FlagMeansReply(start, ms, rs, k - 1, n);
    } else {
      i := k - 1;
    }
  }

  /**
   * Whenever a sending node takes a round to be over, every subscriber has sent the awaited
   * reply in this very state, and its flag has not been reset since; the last reply is
   * message k itself.
   */
  lemma Quorum(start: Office, ms: seq<Input>, rs: seq<Result>, k: nat)
    requires HonestTrace(start, ms, rs) && k < |rs| && |ms| == |rs|
    requires Sender(Before(start, rs, k).state) && Concluding(Before(start, rs, k), ms[k])
    ensures ms[k].status == Awaited(Before(start, rs, k).state)
    ensures forall n :: n in Before(start, rs, k).replied && n != ms[k].sender ==>
              exists i :: Counts(start, ms, rs, n, i, k)
    ensures NoFlags(rs[k].office.replied)
  {
    var o := Before(start, rs, k);
    StepOf(start, ms, rs, k);
    ConcludingStep(o, ms[k]);
    hide Process, Trace, Honest, Quiet, Awaited, Concluding, Counts, NoFlags;
    forall n | n in o.replied && n != ms[k].sender
      ensures exists i :: Counts(start, ms, rs, n, i, k)
    {
      var i := FlagMeansReply(start, ms, rs, k, n);
    }
  }

  /** The moves of a sending node that need everyone: they happen only at the end of a round. */
  lemma NeedsQuorum(start: Office, ms: seq<Input>, rs: seq<Result>, k: nat)
    requires HonestTrace(start, ms, rs) && k < |rs| && |ms| == |rs|
    requires NeedsAll(Before(start, rs, k).state, rs[k].office.state)
    ensures Sender(Before(start, rs, k).state) && Concluding(Before(start, rs, k), ms[k])
  {
    StepOf(start, ms, rs, k);
    hide Process, Trace, Honest, Concluding;
    ConcludingStep(Before(start, rs, k), ms[k]);
  }

  // ---------- queues ----------

  function SentData(rs: seq<Result>, k: nat): seq<Record>
    requires k <= |rs|
  {
    if k == 0 then [] else SentData(rs, k - 1) + DataSent(rs[k - 1].beats)
  }

  function SentMeta(rs: seq<Result>, k: nat): seq<Record>
    requires k <= |rs|
  {
    if k == 0 then [] else SentMeta(rs, k - 1) + MetaSent(rs[k - 1].beats)
  }

  /** The new files, in the order in which local events reported them. */
  function ReportedData(start: Office, ms: seq<Input>, rs: seq<Result>, k: nat): seq<Record>
    requires k <= |rs| == |ms|
  {
    if k == 0 then []
    else ReportedData(start, ms, rs, k - 1) + NewData(Before(start, rs, k - 1), ms[k - 1])
  }

  function ReportedMeta(start: Office, ms: seq<Input>, rs: seq<Result>, k: nat): seq<Record>
    requires k <= |rs| == |ms|
  {
    if k == 0 then []
    else ReportedMeta(start, ms, rs, k - 1) + NewMeta(Before(start, rs, k - 1), ms[k - 1])
  }

  /** First in, first out, nothing lost: what was sent, then what waits, is what was reported. */
  lemma {:induction false} QueuesConserve(start: Office, ms: seq<Input>, rs: seq<Result>, k: nat)
    requires Trace(start, ms, rs) && k <= |rs|
    ensures |ms| == |rs|
    ensures SentData(rs, k) + Before(start, rs, k).dataQueue == ReportedData(start, ms, rs, k)
    ensures SentMeta(rs, k) + Before(start, rs, k).metaQueue == ReportedMeta(start, ms, rs, k)
  {
    hide Process, Trace, Advertised, DataSent, MetaSent, NewData, NewMeta;
    Begins(start, ms, rs);
    if k > 0 {
      QueuesConserve(start, ms, rs, k - 1);
      StepOf(start, ms, rs, k - 1);
      var o, r := Before(start, rs, k - 1), rs[k - 1];
      QueueStep(o, ms[k - 1]);
      Regroup(SentData(rs, k - 1), DataSent(r.beats), r.office.dataQueue, o.dataQueue, NewData(o, ms[k - 1]));
      Regroup(SentMeta(rs, k - 1), MetaSent(r.beats), r.office.metaQueue, o.metaQueue, NewMeta(o, ms[k - 1]));
    }
  }

  lemma Regroup(sent: seq<Record>, out: seq<Record>, queue': seq<Record>, queue: seq<Record>, arrived: seq<Record>)
    requires out + queue' == queue + arrived
    ensures sent + out + queue' == sent + queue + arrived
  {
    assert sent + out + queue' == sent + (out + queue');
    assert sent + queue + arrived == sent + (queue + arrived);
  }

  lemma {:induction false} StockedRun(start: Office, ms: seq<Input>, rs: seq<Result>, k: nat)
    requires HonestTrace(start, ms, rs) && k <= |rs|
    ensures Stocked(Before(start, rs, k))
  {
    hide Process, Trace, Honest;
    Begins(start, ms, rs);
    if k > 0 {
      StockedRun(start, ms, rs, k - 1);
      StepOf(start, ms, rs, k - 1);
      StockedStep(Before(start, rs, k - 1), ms[k - 1]);
    }
  }

  /** No step of any run reads or pops an empty queue: these are the only steps that fail. */
  lemma QueuesNeverRunDry(start: Office, ms: seq<Input>, rs: seq<Result>, k: nat)
    requires HonestTrace(start, ms, rs) && k < |rs| && |ms| == |rs|
    ensures var o := Before(start, rs, k);
            rs[k].outcome == Fault <==>
              Accepted(o, ms[k]) && (NoSuchFile(o, ms[k]) || (ms[k].status == S200 && o.current.None?))
  {
    StockedRun(start, ms, rs, k);
    StepOf(start, ms, rs, k);
    hide Process, Trace, Honest, Stocked, Accepted, NoSuchFile;
    FaultStep(Before(start, rs, k), ms[k]);
  }

  // ---------- notices to the dispatcher ----------

  /** The dispatcher is told to send exactly the file and the start advertised in the same step. */
  lemma StartAsAdvertised(start: Office, ms: seq<Input>, rs: seq<Result>, k: nat)
    requires Trace(start, ms, rs) && k < |rs|
    ensures |rs[k].orders| <= 1
    ensures forall x :: x in rs[k].orders && x.Send? ==>
              && rs[k].beats == [Beat(S130, Some(x.file), Some(x.start))]
              && DataSent(rs[k].beats) == [x.file]
              && [x.file] + rs[k].office.dataQueue == Before(start, rs, k).dataQueue
  {
    hide Process, Trace, Advertised, Accepted;
    StepOf(start, ms, rs, k);
    var o, r := Before(start, rs, k), rs[k];
    OrderStep(o, ms[k]);
    QueueStep(o, ms[k]);
    if r.orders != [] && r.orders[0].Send? {
      AdvertisedOne(r.beats[0], S130, S134);
      NoNewData(o, ms[k]);
    }
  }

  /** A stop that was not passed on from a heartbeat is advertised with 155 in the same step. */
  lemma StopAsAdvertised(start: Office, ms: seq<Input>, rs: seq<Result>, k: nat)
    requires Trace(start, ms, rs) && k < |rs| == |ms|
    ensures forall x :: x in rs[k].orders && x.Stop? ==>
              || (ms[k].status == S155 && x.end == ms[k].deadline)
              || (&& rs[k].office.state == SyncingStop && rs[k].beats == [Beat(S155, None, Some(x.end))]
                  && x.end == StopTime(ms[k]))
    ensures rs[k].office.state == SyncingStop != Before(start, rs, k).state ==> rs[k].office.stopSent
  {
    hide Process, Trace, Accepted, StopTime;
    StepOf(start, ms, rs, k);
    OrderStep(Before(start, rs, k), ms[k]);
  }

  /** A step that starts a transfer takes in no file. */
  lemma NoNewData(o: Office, m: Input)
    requires Process(o, m).orders != [] && Process(o, m).orders[0].Send?
    ensures NewData(o, m) == []
  {
    ProcessSettles(o, m);
    assert Accepted(o, m);
    OrderStep(o, m);
    SettledConsistent(o, m);
    ContinuedOrders(o.state, Settled(o, m), m);
    SettledOrders(o, m);
    hide Process, Settled, Accepted, Continue;
    SettledStatus(o, m);
  }

  ghost predicate Releases(o: Office, m: Input) {
    Accepted(o, m)
    && (m.status == S120 || m.status == S124 || (m.status == S174 && o.state == ReceivingFileMetadataChangeWithMore))
  }

  lemma {:induction false} HeldBack(start: Office, ms: seq<Input>, rs: seq<Result>, i: nat, j: nat)
    requires Trace(start, ms, rs) && i <= j <= |rs| == |ms|
    requires forall q :: i <= q < j ==> !Releases(Before(start, rs, q), ms[q])
    requires Before(start, rs, i).notified
    ensures Before(start, rs, j).notified
  {
    hide Process, Trace, Accepted;
    if i < j {
      HeldBack(start, ms, rs, i, j - 1);
      StepOf(start, ms, rs, j - 1);
      OrderStep(Before(start, rs, j - 1), ms[j - 1]);
    }
  }

  /** Two starts of fake traffic have a new announcement, or a metadata record with more, in between. */
  lemma PretendOnce(start: Office, ms: seq<Input>, rs: seq<Result>, i: nat, j: nat)
    requires Trace(start, ms, rs) && i < j < |rs| == |ms|
    requires (exists x :: x in rs[i].orders && x.Pretend?) && (exists x :: x in rs[j].orders && x.Pretend?)
    ensures exists q :: i < q < j && Releases(Before(start, rs, q), ms[q])
  {
    hide Process, Trace, Accepted, Releases;
    StepOf(start, ms, rs, i);
    StepOf(start, ms, rs, j);
    OrderStep(Before(start, rs, i), ms[i]);
    OrderStep(Before(start, rs, j), ms[j]);
    if forall q :: i < q < j ==> !Releases(Before(start, rs, q), ms[q]) {
      HeldBack(start, ms, rs, i + 1, j);
    }
  }

  lemma {:induction false} StopHeldBack(start: Office, ms: seq<Input>, rs: seq<Result>, i: nat, j: nat)
    requires Trace(start, ms, rs) && i <= j <= |rs| == |ms|
    requires forall q :: i <= q < j ==> !(ms[q].status == S100 && Before(start, rs, q).state == Ready)
    requires Before(start, rs, i).stopSent
    ensures Before(start, rs, j).stopSent
  {
    hide Process, Trace, Accepted;
    if i < j {
      StopHeldBack(start, ms, rs, i, j - 1);
      StepOf(start, ms, rs, j - 1);
      var o, m := Before(start, rs, j - 1), ms[j - 1];
      if Accepted(o, m) && m.status == S100 { IdleRow(o, m); }
      OrderStep(o, m);
    }
  }

  /** Two stop notices, whoever caused them, have a 100 heartbeat taken while ready in between. */
  lemma StopOnce(start: Office, ms: seq<Input>, rs: seq<Result>, i: nat, j: nat)
    requires Trace(start, ms, rs) && i < j < |rs| == |ms|
    requires (exists x :: x in rs[i].orders && x.Stop?) && (exists x :: x in rs[j].orders && x.Stop?)
    ensures exists q :: i < q < j && ms[q].status == S100 && Before(start, rs, q).state == Ready
  {
    hide Process, Trace, Accepted;
    StepOf(start, ms, rs, i);
    StepOf(start, ms, rs, j);
    OrderStep(Before(start, rs, i), ms[i]);
    OrderStep(Before(start, rs, j), ms[j]);
    if forall q :: i < q < j ==> !(ms[q].status == S100 && Before(start, rs, q).state == Ready) {
      StopHeldBack(start, ms, rs, i + 1, j);
    }
  }
}
