/**
  * What the timers of the background step come to, in true milliseconds: a silent peer's pipe goes, a
  * request is sent when it is due, and a visit to a channel ends when its time is over.
  */
module LinkTimers {
  import opened Bits
  import opened Bytes
  import opened HalTime
  import opened LinkPdu
  import opened LinkSpec
  import opened LinkInvariants
  import opened LinkRuns
  import opened LinkService
  import opened LinkFrames
  import LinkExchange
  import Handshake

  // --- which pipes are in use ---

  lemma MasksOfPipes(s: Link)
    requires Inv(s)
    ensures AllRaw(s.bitmask) <==> forall i :: 0 <= i < CONNECTION_COUNTER ==> s.peers[i].pipe != -1
    ensures AnyRaw(s.bitmask) <==> exists i :: 0 <= i < CONNECTION_COUNTER && s.peers[i].pipe != -1
    ensures forall i :: 0 <= i < CONNECTION_COUNTER ==>
              && (s.bitmask[i + 1] <==> s.peers[i].pipe != -1) && (s.radio.enRxAddr[i + 1] <==> s.peers[i].pipe != -1)
              && (s.peers[i].pipe == -1 || s.peers[i].pipe == i + 1)
  {
    hide Slots, GivenOk, KeepaliveOk, MailConserved, FreedOk, RequestOk, AirOk, VisitsOk, BcastOk, Pipe0Kept;
    assert s.bitmask[0 + 1] == (s.peers[0].pipe != -1) && s.bitmask[1 + 1] == (s.peers[1].pipe != -1);
    assert s.bitmask[2 + 1] == (s.peers[2].pipe != -1) && s.bitmask[3 + 1] == (s.peers[3].pipe != -1);
    assert s.bitmask[4 + 1] == (s.peers[4].pipe != -1);
  }

  // --- the end of a visit ---

  lemma VisitTimes(s: Link)
    requires Inv(s)
    ensures 10 <= s.sched.rawTimeout < 256 && s.sched.rtStamp < 256 && s.sched.rtOffset <= 37
    ensures s.sched.state == MGMT || s.sched.state == RAW ==> s.sched.start == Clock(s.hist.visitBegan)
  {
  }

  /** The clock is within the retransmission offset of the eight bits kept of the last turn's end. */
  predicate Retransmitting(s: Link, t: nat) {
    s.sched.rtStamp <= Clock(t) < s.sched.rtStamp + s.sched.rtOffset
  }

  lemma StampTimer(c: uint32, stamp: uint32, offset: uint32)
    requires stamp < 256 && offset <= 37
    ensures HalTimeout(c, stamp, offset) <==> !(stamp <= c < stamp + offset)
  {
    if c < stamp {
      WrappedElapsed(c, stamp);
    }
  }

  /**
    * The RAW state is left for the MGMT state exactly when its time is over, a pipe is free and no
    * retransmission is waited for; to the millisecond, but for the one a wrap of the clock may cost.
    */
  lemma RawLeavesIff(s: Link, e: Env)
    requires Inv(s) && EnvOk(e, s.hist.now) && s.sched.state == RAW && e.t1 < s.hist.visitBegan + TWO32
    ensures var free := exists i :: 0 <= i < CONNECTION_COUNTER && s.peers[i].pipe == -1;
            var over := e.t1 - s.hist.visitBegan;
            var left := Running(s, e).sched.state == START_MGMT;
            && (left ==> over >= s.sched.rawTimeout && free && !Retransmitting(s, e.t2))
            && (over > s.sched.rawTimeout && free && !Retransmitting(s, e.t2) ==> left)
            && (!left ==> Running(s, e).sched.state == RAW)
  {
    MasksOfPipes(s);
    VisitTimes(s);
    TimeoutExact(s.hist.visitBegan, e.t1, s.sched.rawTimeout);
    StampTimer(Clock(e.t2), s.sched.rtStamp, s.sched.rtOffset);
    StateAfterRaw(s, e);
    hide Inv, Running, HalTimeout;
  }

  lemma StateAfterRaw(s: Link, e: Env)
    requires Inv(s) && EnvOk(e, s.hist.now) && s.sched.state == RAW
    ensures Running(s, e).sched.state == if LeaveRaw(s, e) then START_MGMT else RAW
  {
    hide Facts, LeaveRaw, Serve;
    RawExitKeeps(s, e);
    ServeKeeps(RawExit(s, e), s.sched.sockIndex, e);
  }

  /** So with a pipe free the RAW state ends, whichever pipes are in use. */
  lemma RawEnds(s: Link, e: Env, i: nat)
    requires Inv(s) && EnvOk(e, s.hist.now) && s.sched.state == RAW
    requires i < CONNECTION_COUNTER && s.peers[i].pipe == -1
    requires s.hist.visitBegan + s.sched.rawTimeout < e.t1 < s.hist.visitBegan + TWO32 && Clock(e.t2) >= 300
    ensures Running(s, e).sched.state == START_MGMT
  {
    VisitTimes(s);
    hide Inv, Running;
    RawLeavesIff(s, e);
  }

  /** The MGMT state is left for the RAW state exactly when 10 ms are over and some data pipe is in use. */
  lemma MgmtLeavesIff(s: Link, e: Env)
    requires Inv(s) && EnvOk(e, s.hist.now) && s.sched.state == MGMT && e.t3 < s.hist.visitBegan + TWO32
    ensures var taken := exists i :: 0 <= i < CONNECTION_COUNTER && s.peers[i].pipe != -1;
            var over := e.t3 - s.hist.visitBegan;
            var left := Running(s, e).sched.state == START_RAW;
            && (left ==> over >= 10 && taken) && (over > 10 && taken ==> left)
            && (!left ==> Running(s, e).sched.state == MGMT)
  {
    MasksOfPipes(s);
    VisitTimes(s);
    TimeoutExact(s.hist.visitBegan, e.t3, 10);
    StateAfterMgmt(s, e);
    hide Inv, Running, HalTimeout;
  }

  lemma StateAfterMgmt(s: Link, e: Env)
    requires Shape(s) && EnvShape(e) && s.sched.state == MGMT
    ensures Running(s, e).sched.state == if LeaveMgmt(s, e) then START_RAW else MGMT
  {
    hide PresenceConnect, ReadMgmt, WriteMgmt, HalTimeout;
    ExchangeLeavesSched(s, e);
    PresenceLeavesSched(WriteMgmt(ReadMgmt(s, e.mgmtIn), e.ackMgmt), e);
  }

  /** Retuning takes one step: the visit begins with the clock reading of that step, on its channel. */
  lemma VisitBegins(s: Link, e: Env)
    requires Inv(s) && EnvOk(e, s.hist.now) && (s.sched.state == START_MGMT || s.sched.state == START_RAW)
    ensures var t := Running(s, e);
            && t.hist.visitBegan == e.t1
            && if s.sched.state == START_MGMT
               then t.sched.state == MGMT && t.radio.rfCh == 76 && t.radio.enAA == NO_PIPES
               else t.sched.state == RAW && t.radio.rfCh == 22 && t.radio.enAA == ALL_PIPES
  {
    RunningKeeps(s, e);
    hide Facts;
  }

  // --- what a turn hears ---

  /** When pipe fd is last heard by the end of the step in which it has its turn. */
  function LastHeard(s: Link, e: Env, fd: nat): (t: Option<nat>)
    requires Shape(s) && 1 <= fd <= CONNECTION_COUNTER
  {
    if e.rawIn == [] then s.hist.heard[fd - 1] else Some(e.rawIn[|e.rawIn| - 1].at)
  }

  /** The step is a turn of pipe fd on the data channel. */
  ghost predicate Turn(s: Link, e: Env, fd: nat) {
    && Inv(s) && EnvOk(e, s.hist.now) && 1 <= fd <= CONNECTION_COUNTER
    && s.sched.state == RAW && s.sched.sockIndex == fd && s.peers[fd - 1].pipe != -1
  }

  lemma FrameHeard(s: Link, fd: nat, f: Heard, junk: byte)
    requires Shape(s) && 1 <= fd <= CONNECTION_COUNTER && RawFrame(f)
    ensures var t := HandleFrame(s, fd, f, junk);
            && t.hist.heard == s.hist.heard[fd - 1 := Some(f.at)] && t.peers[fd - 1].anchor == Clock(f.at)
            && (s.peers[fd - 1].keepalive == 0 ==> t.peers[fd - 1].keepalive == 0)
            && (s.peers[fd - 1].keepalive != 0 && (IsData(f) || LinkExchange.IsAnswer(f)) ==>
                  t.peers[fd - 1].keepalive == 1)
            && (!(IsData(f) || LinkExchange.IsAnswer(f)) ==>
                  t.peers[fd - 1].keepalive == s.peers[fd - 1].keepalive)
  {
  }

  /** Any frame at all, even one that means nothing, is a sign of life. */
  lemma {:induction false} FramesHeard(s: Link, fd: nat, fs: seq<Heard>, junk: byte)
    requires Shape(s) && 1 <= fd <= CONNECTION_COUNTER && fs != []
    requires forall i :: 0 <= i < |fs| ==> RawFrame(fs[i])
    ensures var t := ReadRaw(s, fd, fs, junk);
            t.hist.heard[fd - 1] == Some(fs[|fs| - 1].at) && t.peers[fd - 1].anchor == Clock(fs[|fs| - 1].at)
  {
    hide HandleFrame;
    FrameHeard(ReadRaw(s, fd, fs[..|fs| - 1], junk), fd, fs[|fs| - 1], junk);
  }

  /** Data frames and answers put the attempts back to one. */
  predicate Resets(f: Heard) {
    RawFrame(f) && (IsData(f) || (Lid(f) == LID_CONTROL && f.buf[2] == OP_KEEPALIVE_RSP))
  }

  /** One of the frames puts the attempts back to one. */
  predicate AnyResets(fs: seq<Heard>) {
    fs != [] && (AnyResets(fs[..|fs| - 1]) || Resets(fs[|fs| - 1]))
  }

  lemma {:induction false} FramesReset(s: Link, fd: nat, fs: seq<Heard>, junk: byte)
    requires Shape(s) && 1 <= fd <= CONNECTION_COUNTER && forall i :: 0 <= i < |fs| ==> RawFrame(fs[i])
    ensures var k, n := s.peers[fd - 1].keepalive, ReadRaw(s, fd, fs, junk).peers[fd - 1].keepalive;
            n == if k != 0 && AnyResets(fs) then 1 else k
    decreases |fs|
  {
    if fs != [] {
      hide HandleFrame;
      var init, f := fs[..|fs| - 1], fs[|fs| - 1];
      FramesReset(s, fd, init, junk);
      FrameHeard(ReadRaw(s, fd, init, junk), fd, f, junk);
    }
  }

  /** One of the frames is a goodbye. */
  predicate AnyGoodbye(fs: seq<Heard>) {
    fs != [] && (AnyGoodbye(fs[..|fs| - 1]) || LinkExchange.IsGoodbye(fs[|fs| - 1]))
  }

  lemma FrameFills(s: Link, fd: nat, f: Heard, junk: byte)
    requires Shape(s) && 1 <= fd <= CONNECTION_COUNTER && RawFrame(f)
    ensures HandleFrame(s, fd, f, junk).mgmt.lenRx == 0 <==> s.mgmt.lenRx == 0 && !LinkExchange.IsGoodbye(f)
  {
  }

  /** A goodbye fills an empty mailbox, and nothing that is heard empties it. */
  lemma {:induction false} GoodbyeFills(s: Link, fd: nat, fs: seq<Heard>, junk: byte)
    requires Shape(s) && 1 <= fd <= CONNECTION_COUNTER && forall i :: 0 <= i < |fs| ==> RawFrame(fs[i])
    ensures ReadRaw(s, fd, fs, junk).mgmt.lenRx == 0 <==> s.mgmt.lenRx == 0 && !AnyGoodbye(fs)
    decreases |fs|
  {
    if fs != [] {
      hide HandleFrame, LinkExchange.IsGoodbye;
      GoodbyeFills(s, fd, fs[..|fs| - 1], junk);
      FrameFills(ReadRaw(s, fd, fs[..|fs| - 1], junk), fd, fs[|fs| - 1], junk);
    }
  }

  // --- the turn after reading and writing ---

  /** What supervision finds: the time last heard, the count, the mailbox. */
  lemma BeforeSupervision(s: Link, e: Env, fd: nat) returns (u: Link)
    requires Turn(s, e, fd)
    ensures Shape(u) && u.mac == s.mac && u.peers[fd - 1].pipe == fd && u.peers[fd - 1].mac == s.peers[fd - 1].mac
    ensures LastHeard(s, e, fd).Some? ==> u.peers[fd - 1].anchor == Clock(LastHeard(s, e, fd).value)
    ensures u.peers[fd - 1].keepalive
            == if s.peers[fd - 1].keepalive != 0 && AnyResets(e.rawIn) then 1 else s.peers[fd - 1].keepalive
    ensures u.mgmt.lenRx == 0 <==> s.mgmt.lenRx == 0 && !AnyGoodbye(e.rawIn)
    ensures SendsOnly(s, u, {KeepaliveRsp, DataFrame})
    ensures var v := Supervise(u, fd, e.t4, e.junk); Running(s, e) == NextSock(v).(hist := v.hist.(now := e.t4))
  {
    MasksOfPipes(s);
    AnchorOfHeard(s, fd);
    TurnStep(s, e, fd);
    hide Inv, Supervise, Traffic, LeaveRaw, SendsOnly, AnyResets, AnyGoodbye, Running, RawStep;
    var s1 := RawExit(s, e);
    AfterTraffic(s1, e, fd);
    u := Stamp(Traffic(s1, fd, e), e.t3);
    SameAir(s, s1);
    SendsChain(s, s1, Traffic(s1, fd, e), {}, {KeepaliveRsp, DataFrame});
    SameAir(Traffic(s1, fd, e), u);
    SendsChain(s, Traffic(s1, fd, e), u, {} + {KeepaliveRsp, DataFrame}, {});
    assert {} + {KeepaliveRsp, DataFrame} + {} == {KeepaliveRsp, DataFrame};
  }

  lemma AfterTraffic(s: Link, e: Env, fd: nat)
    requires Shape(s) && EnvShape(e) && 1 <= fd <= CONNECTION_COUNTER
    ensures var t, p := Traffic(s, fd, e), s.peers[fd - 1];
            var q := t.peers[fd - 1];
            && q.pipe == p.pipe && q.mac == p.mac
            && q.anchor == (if e.rawIn == [] then p.anchor else Clock(e.rawIn[|e.rawIn| - 1].at))
            && q.keepalive == (if p.keepalive != 0 && AnyResets(e.rawIn) then 1 else p.keepalive)
            && (t.mgmt.lenRx == 0 <==> s.mgmt.lenRx == 0 && !AnyGoodbye(e.rawIn))
            && SendsOnly(s, t, {KeepaliveRsp, DataFrame})
  {
    hide ReadRaw, WriteRaw, SendsOnly, AnyResets, AnyGoodbye;
    var r := ReadRaw(s, fd, e.rawIn, e.junk);
    if e.rawIn != [] {
      FramesHeard(s, fd, e.rawIn, e.junk);
    } else {
      NothingRead(s, fd, e.junk);
    }
    FramesReset(s, fd, e.rawIn, e.junk);
    GoodbyeFills(s, fd, e.rawIn, e.junk);
    ReadRawFreesNothing(s, fd, e.rawIn, e.junk);
    LinkExchange.WriteLeavesTimers(r, fd, e.acked, e.junk);
    WriteLeavesMail(r, fd, e.acked, e.junk);
    TrafficSends(s, fd, e);
  }

  lemma TurnStep(s: Link, e: Env, fd: nat)
    requires Shape(s) && EnvShape(e) && 1 <= fd <= CONNECTION_COUNTER && s.sched.state == RAW
    requires s.sched.sockIndex == fd && s.peers[fd - 1].pipe != -1
    ensures var v := Supervise(Stamp(Traffic(RawExit(s, e), fd, e), e.t3), fd, e.t4, e.junk);
            Running(s, e) == NextSock(v).(hist := v.hist.(now := e.t4))
  {
    hide Supervise, Traffic, LeaveRaw;
  }

  lemma {:induction false} NothingRead(s: Link, fd: nat, junk: byte)
    requires Shape(s) && 1 <= fd <= CONNECTION_COUNTER
    ensures ReadRaw(s, fd, [], junk) == s
  {
  }

  lemma AnchorOfHeard(s: Link, fd: nat)
    requires Inv(s) && 1 <= fd <= CONNECTION_COUNTER
    ensures var h := s.hist.heard[fd - 1]; h.Some? ==> h.value <= s.hist.now && s.peers[fd - 1].anchor == Clock(h.value)
    ensures s.peers[fd - 1].keepalive <= 10
  {
    EntryFits(s, fd);
    hide Facts;
  }

  lemma WriteLeavesMail(s: Link, fd: nat, acked: nat, junk: byte)
    requires Shape(s) && 1 <= fd <= CONNECTION_COUNTER
    ensures WriteRaw(s, fd, acked, junk).mgmt.lenRx == s.mgmt.lenRx
  {
    hide SendFrom;
    if s.peers[fd - 1].lenTx != 0 {
      SendFromLeavesMail(s, fd, s.peers[fd - 1].lenTx, 0, acked, junk);
    }
  }

  lemma {:induction false} SendFromLeavesMail(s: Link, fd: nat, left: nat, k: nat, acked: nat, junk: byte)
    requires Shape(s) && 1 <= fd <= CONNECTION_COUNTER && left <= s.peers[fd - 1].lenTx
    ensures SendFrom(s, fd, left, k, acked, junk).mgmt == s.mgmt
    decreases left
  {
    hide SendFrom;
    SendFromTurn(s, fd, left, k, acked, junk);
    if left != 0 && k < acked {
      var t := CountSent(SendOne(s, fd, left, junk), fd);
      SendFromLeavesMail(t, fd, left - Min(left, PW_MSG_SIZE), k + 1, acked, junk);
    }
  }

  lemma SuperviseLeavesStamp(s: Link, fd: nat, t: nat, junk: byte)
    requires Shape(s) && 1 <= fd <= CONNECTION_COUNTER && s.peers[fd - 1].pipe != -1
    ensures Supervise(s, fd, t, junk).sched.rtStamp == s.sched.rtStamp
  {
  }

  /** A turn leaves the low eight bits of the time its traffic ended, which the next exit test looks at. */
  lemma TurnStamps(s: Link, e: Env, fd: nat)
    requires Turn(s, e, fd)
    ensures Running(s, e).sched.rtStamp == Clock(e.t3) % 256
  {
    TurnStep(s, e, fd);
    hide Inv, Supervise, Traffic, LeaveRaw;
    SuperviseLeavesStamp(Stamp(Traffic(RawExit(s, e), fd, e), e.t3), fd, e.t4, e.junk);
    hide Running;
  }

  // --- the keepalive timeout ---

  /** Pipe fd is free in every table, and the mailbox holds the event that names its peer. */
  ghost predicate GivenUp(t: Link, fd: nat, mac: Mac)
    requires Shape(t) && 1 <= fd <= CONNECTION_COUNTER
  {
    && t.peers[fd - 1].pipe == -1 && !t.bitmask[fd] && !t.radio.enRxAddr[fd]
    && t.mgmt.lenRx == 11 && t.mgmt.bufferRx[..2] == [0x02, 0x02] && t.mgmt.bufferRx[3..11] == mac
  }

  lemma SilentSupervised(u: Link, fd: nat, A: nat, t: nat, junk: byte)
    requires Shape(u) && 1 <= fd <= CONNECTION_COUNTER && u.peers[fd - 1].pipe == fd
    requires A <= t < A + TWO32 && u.peers[fd - 1].anchor == Clock(A)
    ensures var v := Supervise(u, fd, t, junk);
            && (t >= A + 7501 && u.mgmt.lenRx == 0 ==>
                  v.peers[fd - 1].pipe == -1 && Reported(u, v, u.peers[fd - 1].mac))
            && (t < A + 7500 || u.mgmt.lenRx != 0 ==> v.peers[fd - 1].pipe == fd)
  {
    TimeoutExact(A, t, 7500);
    TimeOutReports(u, fd, t);
    hide HalTimeout;
  }

  /**
    * A pipe whose peer was last heard, accepted or connected at time A is given up by its turn from 7501 ms
    * on, and never before 7500 ms, however many attempts are counted; it is kept as long as an event is
    * waiting in the mailbox, one heard in this very turn included.
    */
  lemma SilenceEnds(s: Link, e: Env, fd: nat, A: nat)
    requires Turn(s, e, fd) && LastHeard(s, e, fd) == Some(A) && e.t4 < A + TWO32
    ensures var t, mailFree := Running(s, e), s.mgmt.lenRx == 0 && !AnyGoodbye(e.rawIn);
            && (e.t4 >= A + 7501 && mailFree ==> GivenUp(t, fd, s.peers[fd - 1].mac))
            && (e.t4 < A + 7500 || !mailFree ==> t.peers[fd - 1].pipe == fd)
  {
    var u := BeforeSupervision(s, e, fd);
    RunningKeeps(s, e);
    MasksOfPipes(Running(s, e));
    HeardBefore(s, e, fd, A);
    hide Inv, Running, Supervise, AnyGoodbye, SendsOnly, AnyResets;
    SilentSupervised(u, fd, A, e.t4, e.junk);
  }

  lemma HeardBefore(s: Link, e: Env, fd: nat, A: nat)
    requires Turn(s, e, fd) && LastHeard(s, e, fd) == Some(A)
    ensures A <= e.t4
  {
    AnchorOfHeard(s, fd);
    hide Inv;
  }

  /** A request of this node to its peer on pipe fd is the last frame on the air, and counted. */
  ghost predicate Asks(s: Link, t: Link, fd: nat, k: nat, junk: byte)
    requires Shape(s) && Shape(t) && 1 <= fd <= CONNECTION_COUNTER
  {
    && |t.hist.air| > |s.hist.air| && t.peers[fd - 1].keepalive == k + 1
    && var f := t.hist.air[|t.hist.air| - 1];
       f.kind == KeepaliveReq && f.pipe == fd && f.bytes == ControlPdu(1, s.mac, s.peers[fd - 1].mac, junk)
  }

  lemma DueSupervised(u: Link, fd: nat, A: nat, k: nat, t: nat, junk: byte)
    requires Shape(u) && 1 <= fd <= CONNECTION_COUNTER && u.peers[fd - 1].pipe == fd
    requires A <= t < A + TWO32 && u.peers[fd - 1].anchor == Clock(A) && u.peers[fd - 1].keepalive == k <= 10
    ensures var v := Supervise(u, fd, t, junk);
            && (1 <= k <= 9 && A + 750 * k < t < A + 7500 ==> Asks(u, v, fd, k, junk))
            && (k == 0 || t < A + 750 * k ==> SendsOnly(u, v, {}) && v.peers[fd - 1].keepalive == k)
  {
    TimeoutExact(A, t, 7500);
    if k != 0 {
      TimeoutExact(A, t, 750 * k);
    }
    hide HalTimeout, ControlPdu;
  }

  /**
    * The keepalive of a turn, to the millisecond: with k attempts counted a request goes out once 750 * k ms
    * have passed since the peer was last heard, and not before; an accepted pipe, whose count is 0, never
    * sends one; and a data frame or an answer puts the count back to one.
    */
  lemma RequestsWhenDue(s: Link, e: Env, fd: nat, A: nat, k: nat)
    requires Turn(s, e, fd) && LastHeard(s, e, fd) == Some(A) && e.t4 < A + TWO32
    requires k == if s.peers[fd - 1].keepalive != 0 && AnyResets(e.rawIn) then 1 else s.peers[fd - 1].keepalive
    ensures var t := Running(s, e);
            && (1 <= k <= 9 && A + 750 * k < e.t4 < A + 7500 ==> Asks(s, t, fd, k, e.junk))
            && (k == 0 || e.t4 < A + 750 * k ==>
                  SendsOnly(s, t, {KeepaliveRsp, DataFrame}) && t.peers[fd - 1].keepalive == k)
  {
    var u := BeforeSupervision(s, e, fd);
    AnchorOfHeard(s, fd);
    HeardBefore(s, e, fd, A);
    hide Inv, Running, Supervise, AnyGoodbye, SendsOnly, AnyResets;
    DueSupervised(u, fd, A, k, e.t4, e.junk);
    AfterSupervision(s, u, Supervise(u, fd, e.t4, e.junk), Running(s, e), fd, k, e.junk, e.t4);
  }

  lemma AfterSupervision(s: Link, u: Link, v: Link, t: Link, fd: nat, k: nat, junk: byte, at: nat)
    requires Shape(s) && Shape(u) && Shape(v) && Shape(t) && 1 <= fd <= CONNECTION_COUNTER
    requires SendsOnly(s, u, {KeepaliveRsp, DataFrame}) && t == NextSock(v).(hist := v.hist.(now := at))
    requires u.mac == s.mac && u.peers[fd - 1].mac == s.peers[fd - 1].mac
    ensures Asks(u, v, fd, k, junk) ==> Asks(s, t, fd, k, junk)
    ensures SendsOnly(u, v, {}) ==> SendsOnly(s, t, {KeepaliveRsp, DataFrame})
    ensures t.peers == v.peers
  {
    hide ControlPdu;
  }

  // --- over runs ---

  lemma FrameHeardOnly(s: Link, fd: nat, f: Heard, junk: byte, i: nat)
    requires Shape(s) && 1 <= fd <= CONNECTION_COUNTER && RawFrame(f) && i < CONNECTION_COUNTER && i != fd - 1
    ensures HandleFrame(s, fd, f, junk).hist.heard[i] == s.hist.heard[i]
  {
  }

  lemma {:induction false} ReadRawHeardOnly(s: Link, fd: nat, fs: seq<Heard>, junk: byte, i: nat)
    requires Shape(s) && 1 <= fd <= CONNECTION_COUNTER && forall j :: 0 <= j < |fs| ==> RawFrame(fs[j])
    requires i < CONNECTION_COUNTER && i != fd - 1
    ensures ReadRaw(s, fd, fs, junk).hist.heard[i] == s.hist.heard[i]
    decreases |fs|
  {
    if fs != [] {
      hide HandleFrame;
      ReadRawHeardOnly(s, fd, fs[..|fs| - 1], junk, i);
      FrameHeardOnly(ReadRaw(s, fd, fs[..|fs| - 1], junk), fd, fs[|fs| - 1], junk, i);
    }
  }

  lemma {:induction false} SendFromHears(s: Link, fd: nat, left: nat, k: nat, acked: nat, junk: byte)
    requires Shape(s) && 1 <= fd <= CONNECTION_COUNTER && left <= s.peers[fd - 1].lenTx
    ensures SendFrom(s, fd, left, k, acked, junk).hist.heard == s.hist.heard
    decreases left
  {
    hide SendFrom;
    SendFromTurn(s, fd, left, k, acked, junk);
    if left != 0 && k < acked {
      SendFromHears(CountSent(SendOne(s, fd, left, junk), fd), fd, left - Min(left, PW_MSG_SIZE), k + 1, acked, junk);
    }
  }

  lemma SuperviseHears(s: Link, fd: nat, t: nat, junk: byte)
    requires Shape(s) && 1 <= fd <= CONNECTION_COUNTER && s.peers[fd - 1].pipe != -1
    ensures Supervise(s, fd, t, junk).hist.heard == s.hist.heard
  {
  }

  lemma ServeHearsOnly(s: Link, fd: nat, e: Env, i: nat)
    requires Shape(s) && EnvShape(e) && 1 <= fd <= CONNECTION_COUNTER && i < CONNECTION_COUNTER && i != fd - 1
    ensures Serve(s, fd, e).hist.heard[i] == s.hist.heard[i]
  {
    hide ReadRaw, SendFrom, Supervise;
    if s.peers[fd - 1].pipe != -1 {
      ReadRawHeardOnly(s, fd, e.rawIn, e.junk, i);
      var r := ReadRaw(s, fd, e.rawIn, e.junk);
      SendFromHears(r, fd, r.peers[fd - 1].lenTx, 0, e.acked, e.junk);
      SuperviseHears(Stamp(Traffic(s, fd, e), e.t3), fd, e.t4, e.junk);
    }
  }

  lemma RawHearsOnly(s: Link, e: Env, i: nat)
    requires Shape(s) && EnvShape(e) && i < CONNECTION_COUNTER && s.sched.sockIndex != i + 1
    ensures RawStep(s, e).hist.heard[i] == s.hist.heard[i]
  {
    hide Serve;
    ServeHearsOnly(RawExit(s, e), s.sched.sockIndex, e, i);
  }

  lemma MgmtHearsNothing(s: Link, e: Env)
    requires Shape(s) && EnvShape(e)
    ensures MgmtStep(s, e).hist.heard == s.hist.heard
  {
    hide HalTimeout, LeaveMgmt;
    ExchangeHearsNothing(s, e);
    PresenceHearsNothing(WriteMgmt(ReadMgmt(s, e.mgmtIn), e.ackMgmt), e);
    hide PresenceConnect, ReadMgmt, WriteMgmt;
  }

  lemma ExchangeHearsNothing(s: Link, e: Env)
    requires Shape(s) && EnvShape(e)
    ensures WriteMgmt(ReadMgmt(s, e.mgmtIn), e.ackMgmt).hist.heard == s.hist.heard
  {
  }

  lemma PresenceHearsNothing(s: Link, e: Env)
    requires Shape(s)
    ensures PresenceConnect(s, e).hist.heard == s.hist.heard
  {
    hide HalTimeout;
  }

  /** Only the turn of a pipe changes when it was last heard. */
  lemma RunningHearsOnly(s: Link, e: Env, i: nat)
    requires Shape(s) && EnvShape(e) && i < CONNECTION_COUNTER && !(s.sched.state == RAW && s.sched.sockIndex == i + 1)
    ensures Running(s, e).hist.heard[i] == s.hist.heard[i]
  {
    hide RawStep, MgmtStep;
    if s.sched.state == RAW {
      RawHearsOnly(s, e, i);
    } else if s.sched.state == MGMT {
      MgmtHearsNothing(s, e);
    }
  }

  lemma PerformHearsOnly(s: Link, c: Call, e: Env, i: nat)
    requires Shape(s) && CallOk(c) && i < CONNECTION_COUNTER && s.peers[i].pipe != -1 && !(c.Connect? && c.fd == i + 1)
    ensures Perform(s, c, e).s.hist.heard[i] == s.hist.heard[i]
  {
    hide AcceptFrom, SocketCall;
    match c
    case AcceptCall => AcceptHearsOnly(s, e.t5, i);
    case Socket(raw) => SocketHearsOnly(s, raw, i);
    case _ =>
  }

  lemma AcceptHearsOnly(s: Link, t: nat, i: nat)
    requires Shape(s) && i < CONNECTION_COUNTER && s.peers[i].pipe != -1
    ensures AcceptFrom(s, t).s.hist.heard[i] == s.hist.heard[i]
  {
  }

  lemma SocketHearsOnly(s: Link, raw: bool, i: nat)
    requires Shape(s) && i < CONNECTION_COUNTER && s.peers[i].pipe != -1
    ensures SocketCall(s, raw).s.hist.heard[i] == s.hist.heard[i]
  {
  }

  /** A pipe that stays allocated, is not in turn and is not connected keeps the time it was last heard. */
  lemma HeardStays(s: Link, a: Act, fd: nat)
    requires Shape(s) && CallOk(a.call) && EnvShape(a.env) && 1 <= fd <= CONNECTION_COUNTER
    requires s.peers[fd - 1].pipe != -1 && Next(s, a).peers[fd - 1].pipe != -1
    requires !(IsRawStep(s, a) && s.sched.sockIndex == fd) && !(a.call.Connect? && a.call.fd == fd)
    ensures Next(s, a).hist.heard[fd - 1] == s.hist.heard[fd - 1]
  {
    hide Running, Perform;
    if Runs(a.call) {
      if Running(s, a.env).peers[fd - 1].pipe == -1 {
        Handshake.FreedStaysFree(s, a, fd);
      }
      RunningHearsOnly(s, a.env, fd - 1);
      PerformHearsOnly(Running(s, a.env), a.call, a.env, fd - 1);
    } else {
      PerformHearsOnly(s, a.call, a.env, fd - 1);
    }
  }

  /**
    * The peer of pipe fd stays silent: all calls lie between 7501 ms and 2^32 ms after it was last heard, none
    * connects the pipe again, and when the pipe has its turn nothing is heard and no event is waiting.
    */
  ghost predicate StaysSilent(s: Link, acts: seq<Act>, fd: nat, A: nat)
    requires Shape(s) && RunOk(s, acts)
    decreases |acts|
  {
    acts != [] ==>
      && A + 7501 <= acts[0].env.t4 < A + TWO32 && !(acts[0].call.Connect? && acts[0].call.fd == fd)
      && (IsRawStep(s, acts[0]) && s.sched.sockIndex == fd ==> acts[0].env.rawIn == [] && s.mgmt.lenRx == 0)
      && StaysSilent(Next(s, acts[0]), acts[1..], fd, A)
  }

  lemma SilentTurnFrees(s: Link, a: Act, fd: nat, A: nat)
    requires Inv(s) && CallOk(a.call) && EnvOk(a.env, s.hist.now) && 1 <= fd <= CONNECTION_COUNTER
    requires IsRawStep(s, a) && s.sched.sockIndex == fd && s.peers[fd - 1].pipe != -1
    requires s.hist.heard[fd - 1] == Some(A) && A + 7501 <= a.env.t4 < A + TWO32
    requires a.env.rawIn == [] && s.mgmt.lenRx == 0
    ensures Next(s, a).peers[fd - 1].pipe == -1
  {
    hide Facts, Running, Perform;
    SilenceEnds(s, a.env, fd, A);
    Handshake.FreedStaysFree(s, a, fd);
  }

  lemma {:induction false} SilentInTurn(s: Link, acts: seq<Act>, fd: nat, A: nat)
    requires Inv(s) && RunOk(s, acts) && 1 <= fd <= CONNECTION_COUNTER && s.hist.heard[fd - 1] == Some(A)
    requires StaysSilent(s, acts, fd, A) && RawSteps(s, acts) > Turns(s, fd)
    ensures !StaysAllocated(s, acts, fd)
    decreases |acts|
  {
    hide Facts, Running, Perform;
    if StaysAllocated(s, acts, fd) {
      assert StaysAllocated(Next(s, acts[0]), acts[1..], fd);
      if IsRawStep(s, acts[0]) && s.sched.sockIndex == fd {
        SilentTurnFrees(s, acts[0], fd, A);
      } else {
        HeardStays(s, acts[0], fd);
        OneTurn(s, acts[0], fd);
        SilentInTurn(Next(s, acts[0]), acts[1..], fd, A);
      }
    }
  }

  /** A peer that stays silent for 7501 ms loses its pipe within five RAW steps, whatever else is called. */
  lemma {:induction false} SilentPeerGoes(s: Link, acts: seq<Act>, fd: nat, A: nat)
    requires Reachable(s) && Shape(s) && RunOk(s, acts) && 1 <= fd <= CONNECTION_COUNTER
    requires s.hist.heard[fd - 1] == Some(A) && StaysSilent(s, acts, fd, A) && RawSteps(s, acts) >= 5
    ensures !StaysAllocated(s, acts, fd)
  {
    ReachableInv(s);
    SilentInTurn(s, acts, fd, A);
  }
}
