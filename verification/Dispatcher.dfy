/**
 * The dispatcher's clock work: when a transfer starts, and when the fake traffic that
 * follows it stops.  Times are unsigned 64-bit milliseconds.
 */
module Dispatcher {
  import opened Fsm
  import opened Boxoffice
  import opened Stages
  import opened Steps
  import opened Counting
  import opened Orders

  const STOP_WINDOW: nat := 1000000

  /** What one poll brings: an interrupt, some message, a stop time, or nothing by that time. */
  datatype Poll = Interrupted | Other | StopAt(deadline: nat) | Silent(now: nat)

  datatype End = Pending | Interrupt | Stopped(at: nat)

  predicate InRange(e: Poll) {
    (e.StopAt? ==> e.deadline < TWO_64) && (e.Silent? ==> e.now < TWO_64)
  }

  /** The stop time in force after these polls, if one was delivered among them. */
  function Delivered(polls: seq<Poll>): Option<nat> {
    if polls == [] then None
    else if polls[|polls| - 1].StopAt? then Some(polls[|polls| - 1].deadline)
    else Delivered(polls[..|polls| - 1])
  }

  /** The unsigned subtraction of the source, and the test on it. */
  predicate Due(now: nat, time: nat) { UInt64(now - time) <= STOP_WINDOW }

  /** Without wrapping, due means: from the stop time on, for a million milliseconds. */
  lemma DueMeans(now: nat, time: nat)
    requires now < 0x1_0000_0000_0000_0000 && time < 0x1_0000_0000_0000_0000
    ensures Due(now, time) <==>
            time <= now <= time + 1000000 || time - now >= 0x1_0000_0000_0000_0000 - 1000000
  {
  }

  /** The stop time in force is the one delivered last. */
  lemma {:induction false} DeliveredLast(polls: seq<Poll>, d: nat)
    ensures Delivered(polls) == Some(d) <==>
            exists k :: 0 <= k < |polls| && polls[k] == StopAt(d) && forall i :: k < i < |polls| ==> !polls[i].StopAt?
    ensures Delivered(polls).None? <==> forall i :: 0 <= i < |polls| ==> !polls[i].StopAt?
  {
    if polls != [] {
      var n := |polls| - 1;
      DeliveredLast(polls[..n], d);
      if polls[n].StopAt? {
        assert polls[n] == StopAt(polls[n].deadline);
      } else if Delivered(polls[..n]) == Some(d) {
        var k :| 0 <= k < n && polls[..n][k] == StopAt(d) && forall i :: k < i < n ==> !polls[..n][i].StopAt?;
        assert polls[k] == StopAt(d) && forall i :: k < i < |polls| ==> !polls[i].StopAt?;
      } else {
        forall k | 0 <= k < |polls| && polls[k] == StopAt(d)
          ensures exists i :: k < i < |polls| && polls[i].StopAt?
        {
          assert polls[..n][k] == StopAt(d);
          var i :| k < i < n && polls[..n][i].StopAt?;
          assert polls[i].StopAt?;
        }
      }
    }
  }

  /** The time to compare with: the stop time delivered last, or what was there before. */
  function InForce(before: nat, polls: seq<Poll>): nat {
    if Delivered(polls).Some? then Delivered(polls).value else before
  }

  /** Poll k is silent while a stop, of this call or of an earlier one, is due. */
  predicate Stops(waiting: bool, before: nat, polls: seq<Poll>, k: nat)
    requires k < |polls|
  {
    && polls[k].Silent?
    && (waiting || Delivered(polls[..k]).Some?)
    && Due(polls[k].now, InForce(before, polls[..k]))
  }

  class Dispatcher {
    var timingOffset: nat
    var waitingForStop: bool

    constructor ()
      ensures timingOffset == 0xFFFF_FFFF_FFFF_FFFF && !waitingForStop
    {
      timingOffset, waitingForStop := TWO_64 - 1, false;
    }

    /** Taking up an order: how long to sleep until the start. */
    method Arm(start: nat, now: nat)
      modifies this`timingOffset
      ensures timingOffset == UInt64(start - now)
    {
      timingOffset := UInt64(start - now);
    }

    /**
     * Sends fake data until an interrupt, or until a poll stays silent while the stop is due;
     * `rounds` is the number of polls taken.
     */
    method SynchronizingStop(polls: seq<Poll>) returns (end: End, rounds: nat)
      modifies this
      ensures rounds <= |polls|
      ensures waitingForStop == (old(waitingForStop) || Delivered(polls[..rounds]).Some?)
      ensures timingOffset == InForce(old(timingOffset), polls[..rounds])
      ensures match end
              case Pending => rounds == |polls|
              case Interrupt => rounds > 0 && polls[rounds - 1].Interrupted?
              case Stopped(at) =>
                && rounds > 0 && polls[rounds - 1] == Silent(at)
                && Stops(old(waitingForStop), old(timingOffset), polls, rounds - 1)
      ensures forall k :: 0 <= k < rounds - (if end.Pending? then 0 else 1) ==>
                !polls[k].Interrupted? && !Stops(old(waitingForStop), old(timingOffset), polls, k)
    {
      hide Due;
      rounds := 0;
      while rounds < |polls|
        invariant rounds <= |polls|
        invariant waitingForStop == (old(waitingForStop) || Delivered(polls[..rounds]).Some?)
        invariant timingOffset == InForce(old(timingOffset), polls[..rounds])
        invariant forall k :: 0 <= k < rounds ==>
                    !polls[k].Interrupted? && !Stops(old(waitingForStop), old(timingOffset), polls, k)
      {
        var p := polls[rounds];
        assert polls[..rounds + 1][..rounds] == polls[..rounds];
        if p.Interrupted? { return Interrupt, rounds + 1; }
        if p.StopAt? {
          timingOffset, waitingForStop := p.deadline, true;
        } else if p.Silent? {
          if waitingForStop && Due(p.now, timingOffset) { return Stopped(p.now), rounds + 1; }
        }
        rounds := rounds + 1;
      }
      end := Pending;
    }

    /**
     * One session: sleep until the start, then run until the stop.  It ends at the first poll that
     * is an interrupt, or is silent while a stop is due: one of this session, or one left over
     * from an earlier session, which is then compared with the start delay.
     */
    method Session(start: nat, now: nat, polls: seq<Poll>) returns (end: End, rounds: nat)
      requires start < TWO_64 && now < TWO_64 && forall k :: 0 <= k < |polls| ==> InRange(polls[k])
      modifies this
      ensures rounds <= |polls|
      ensures match end
              case Pending => rounds == |polls|
              case Interrupt => rounds > 0 && polls[rounds - 1].Interrupted?
              case Stopped(at) =>
                && rounds > 0 && polls[rounds - 1] == Silent(at)
                && Stops(old(waitingForStop), UInt64(start - now), polls, rounds - 1)
      ensures forall k :: 0 <= k < rounds - (if end.Pending? then 0 else 1) ==>
                !polls[k].Interrupted? && !Stops(old(waitingForStop), UInt64(start - now), polls, k)
      ensures forall k, d :: 0 <= k < |polls| && polls[k].Silent? && Delivered(polls[..k]) == Some(d)
                             && d <= polls[k].now <= d + 1000000 ==>
                rounds <= k + 1 && !end.Pending?
    {
      ghost var waiting := waitingForStop;
      Arm(start, now);
      end, rounds := SynchronizingStop(polls);
      forall k, d | 0 <= k < |polls| && polls[k].Silent? && Delivered(polls[..k]) == Some(d)
                    && d <= polls[k].now <= d + 1000000
        ensures rounds <= k + 1 && !end.Pending?
      {
        DeliveredInRange(polls, k);
        DueMeans(polls[k].now, d);
        assert Stops(waiting, UInt64(start - now), polls, k);
      }
    }
  }

  lemma {:induction false} DeliveredInRange(polls: seq<Poll>, k: nat)
    requires k <= |polls| && forall i :: 0 <= i < |polls| ==> InRange(polls[i])
    ensures Delivered(polls[..k]).Some? ==> Delivered(polls[..k]).value < 0x1_0000_0000_0000_0000
  {
    if k > 0 {
      assert polls[..k][..k - 1] == polls[..k - 1];
      DeliveredInRange(polls, k - 1);
    }
  }

  /** Clocks as they are: far from wrapping, and later than any start delay by more than the window. */
  ghost predicate Realistic(delay: nat, polls: seq<Poll>) {
    && (forall k :: 0 <= k < |polls| && polls[k].Silent? ==> delay + 1000000 < polls[k].now < 0x8000_0000_0000_0000)
    && (forall k :: 0 <= k < |polls| && polls[k].StopAt? ==> polls[k].deadline < 0x8000_0000_0000_0000)
  }

  /**
   * Whatever an earlier session left behind: with realistic clocks a session stops only after a
   * stop time was delivered in it, and within the window that begins at that time.
   */
  lemma StopSafe(waiting: bool, delay: nat, polls: seq<Poll>, k: nat)
    requires k < |polls| && Realistic(delay, polls)
    ensures Stops(waiting, delay, polls, k) <==>
            && polls[k].Silent? && Delivered(polls[..k]).Some?
            && var d := Delivered(polls[..k]).value; d <= polls[k].now <= d + 1000000
  {
    DeliveredHalf(polls, k);
    if polls[k].Silent? { DueMeans(polls[k].now, InForce(delay, polls[..k])); }
  }

  lemma {:induction false} DeliveredHalf(polls: seq<Poll>, k: nat)
    requires k <= |polls| && forall i :: 0 <= i < |polls| && polls[i].StopAt? ==> polls[i].deadline < TWO_64 / 2
    ensures Delivered(polls[..k]).Some? ==> Delivered(polls[..k]).value < TWO_64 / 2
  {
    if k > 0 {
      assert polls[..k][..k - 1] == polls[..k - 1];
      DeliveredHalf(polls, k - 1);
    }
  }

  /**
   * A stop left over from an earlier session, with none delivered in this one, ends the session at
   * a silent poll exactly if that poll falls into the window after the start delay itself.
   */
  lemma StaleStop(delay: nat, polls: seq<Poll>, k: nat)
    requires k < |polls| && delay < TWO_64 && InRange(polls[k]) && Delivered(polls[..k]).None?
    ensures Stops(true, delay, polls, k) <==>
            && polls[k].Silent?
            && (delay <= polls[k].now <= delay + 1000000
                || delay - polls[k].now >= 0x1_0000_0000_0000_0000 - 1000000)
    ensures !Stops(false, delay, polls, k)
  {
    if polls[k].Silent? { DueMeans(polls[k].now, delay); }
  }

  // ---------- start times ----------

  /** Whatever the difference, the offset is the one number of 16 bits that agrees with it modulo 65536. */
  lemma SkewWraps(x: int)
    ensures -32768 <= Int16(x) < 32768 && (x - Int16(x)) % 65536 == 0
  {
  }

  /** The 16-bit clock offset is exact if and only if the difference fits. */
  lemma SkewExact(now: int, stamp: int)
    ensures Int16(now - stamp) == now - stamp <==> -0x8000 <= now - stamp < 0x8000
  {
  }

  lemma SkewKept(o: Office, m: Input)
    ensures OnHeartbeat(o, m).office.skew == o.skew
  {
    NewFileFrame(o, m);
    MetadataFrame(o, m);
    ReplySkew(o, m);
    hide OnNewFileRecord, OnMetadata, OnReply, EventOf;
  }

  lemma ReplySkew(o: Office, m: Input)
    ensures OnReply(o, m).office.skew == o.skew
  {
    hide EventOf, Concluded;
  }

  lemma QuorumStart(a: Mid, m: Input)
    ensures var q := OnQuorum(a, m); |q.orders| == |a.orders| + 1 ==> q.office.deadline == StartTime(a.office, m)
  {
    hide StartTime;
  }

  /** The start that goes to the dispatcher is computed with the skew of the very reply that ends the round. */
  lemma StartSent(o: Office, m: Input)
    requires Honest(m) && Process(o, m).orders != [] && Process(o, m).orders[0].Send?
    ensures Process(o, m).orders[0].start == StartTime(Timestamped(o, m), m)
    ensures EventOf(m.status) == ReceivedHeartbeat
  {
    hide Process, Continue, OnQuorum, OnLocalFile, OnData, OnHeartbeat, CheckEvent, EventOf, Timestamped, StartTime,
      Honest, Row, Fits;
    ProcessSettles(o, m);
    assert Accepted(o, m);
    SettledOnly(o, m);
    SettledSend(o, m);
    SettledStatus(o, m);
    HonestStatus(m);
    ReplyStatus(m.status);
    var a := Entered(o, m);
    var b := OnQuorum(a, m);
    LocalNotices(b, m);
    DataNotices(OnLocalFile(b, m), m);
    EnteredNotices(o, m);
    HeardConsistent(o, m);
    StartNotice(a, m);
    QuorumFlags(a, m);
    StatusBefore(o, m);
    QuorumStart(a, m);
    SkewKept(Timestamped(o, m), m);
    SameSkew(a.office, Timestamped(o, m), m);
  }

  lemma SameSkew(o: Office, p: Office, m: Input)
    requires o.skew == p.skew
    ensures StartTime(o, m) == StartTime(p, m)
  {
  }

  lemma ReplyStatus(status: Status)
    requires Reply(status)
    ensures EventOf(status) == ReceivedHeartbeat
  {
  }

  /** What is sent is decided before the state changes. */
  lemma SettledOnly(o: Office, m: Input)
    requires Accepted(o, m) && Process(o, m).orders != [] && Process(o, m).orders[0].Send?
    ensures var a := Settled(o, m); a.orders != [] && a.orders[0] == Process(o, m).orders[0]
  {
    hide Process, Settled, Continue, CheckEvent, NewState, StopTime;
    ProcessSettles(o, m);
    SettledConsistent(o, m);
    ContinuedOrders(o.state, Settled(o, m), m);
  }

  lemma StatusBefore(o: Office, m: Input)
    requires Accepted(o, m) && (Settled(o, m).status == S122 || Settled(o, m).status == S177)
    ensures Entered(o, m).status == Settled(o, m).status
  {
    hide Entered, OnQuorum, OnLocalFile, OnData, CheckEvent;
    var a := Entered(o, m);
    QuorumFlags(a, m);
    LocalStatus(OnQuorum(a, m), m);
    DataStatus(OnLocalFile(OnQuorum(a, m), m), m);
  }

  /**
   * The start that a step hands to the dispatcher lies three to six seconds ahead, by the clock of
   * the last replier.
   */
  lemma StartWindow(o: Office, m: Input)
    requires Honest(m) && Process(o, m).orders != [] && Process(o, m).orders[0].Send?
    requires -0x8000 <= m.now - m.stamp < 0x8000 <= m.now < TWO_64 / 2
    ensures var skew, start := m.now - m.stamp, Process(o, m).orders[0].start;
            && m.now + 3000 - skew <= start <= m.now + 5999 - skew
            && start == m.now + 3000 + m.random % 3000 - skew
  {
    hide Process, Honest;
    StartSent(o, m);
    SkewExact(m.now, m.stamp);
    assert SkewOf(Timestamped(o, m), m.sender) == Int16(m.now - m.stamp);
    hide Int16, Timestamped;
  }

  /** The stop is set one to two seconds ahead. */
  lemma StopWindow(m: Input)
    requires m.now < TWO_64 / 2
    ensures m.now + 1000 <= StopTime(m) <= m.now + 1999
    ensures StopTime(m) == m.now + 1000 + m.random % 1000
  {
  }

  /**
   * The dispatcher's wait for a start in that window, `elapsed` milliseconds later: it does not
   * wrap exactly while the start is not past, and then it is short.
   */
  lemma WaitBounded(start: nat, now: nat, skew: int, elapsed: nat)
    requires now + 3000 - skew <= start <= now + 5999 - skew
    requires start < 0x1_0000_0000_0000_0000 && now + elapsed < 0x1_0000_0000_0000_0000
    ensures UInt64(start - (now + elapsed)) == start - (now + elapsed) <==> now + elapsed <= start
    ensures skew + elapsed <= 3000 ==>
              UInt64(start - (now + elapsed)) == start - (now + elapsed)
              && UInt64(start - (now + elapsed)) <= 5999 - skew - elapsed
  {
  }
}
