/**
  * The bound on unanswered keepalive requests is attained: for every number of connects a session whose
  * peer answers nothing sends nine requests for the last packet and nine for each connect since.
  */
module LinkKeepalive {
  import opened Bits
  import opened Bytes
  import opened HalTime
  import opened Nrf24l01
  import opened LinkPdu
  import opened LinkSpec
  import opened LinkInvariants
  import opened LinkRuns

  // --- one more step of a session ---

  lemma {:induction false} RunSnoc(s: Link, acts: seq<Act>, a: Act)
    requires Shape(s) && RunOk(s, acts) && CallOk(a.call) && EnvOk(a.env, Run(s, acts).hist.now)
    ensures RunOk(s, acts + [a]) && Run(s, acts + [a]) == Next(Run(s, acts), a)
    decreases |acts|
  {
    hide Next;
    var all := acts + [a];
    if acts == [] {
      assert all[0] == a && all[1..] == [];
    } else {
      assert all[0] == acts[0] && all[1..] == acts[1..] + [a];
      RunSnoc(Next(s, acts[0]), acts[1..], a);
    }
  }

  lemma {:induction false} ReachableNext(s: Link, a: Act)
    requires Reachable(s) && Shape(s) && CallOk(a.call) && EnvOk(a.env, s.hist.now)
    ensures Reachable(Next(s, a))
  {
    var mac: Mac, regs: Radio, acts: seq<Act> :| ReachedBy(s, mac, regs, acts);
    RunSnoc(Session(mac, regs), acts, a);
    assert ReachedBy(Next(s, a), mac, regs, acts + [a]);
  }

  // --- a node with one pipe, whose peer is silent ---

  /** Nothing is heard, and what goes out on the management channel is acknowledged. */
  function Quiet(t: nat): (e: Env)
    ensures EnvShape(e)
  {
    Env(t, t, t, t, t, None, [], true, false, 0, 0)
  }

  /** The application asks for an event and there is none: only the background step counts. */
  function Poll(e: Env): (a: Act) {
    Act(Read(0, 1), e)
  }

  /** Only pipe 1 is in use, nothing waits, and its peer was last heard or connected at time A. */
  ghost predicate Lone(s: Link, A: nat) {
    && Reachable(s) && Shape(s)
    && s.peers[0].pipe == 1 && (forall i :: 1 <= i < CONNECTION_COUNTER ==> s.peers[i].pipe == -1)
    && s.peers[0].lenTx == 0 && s.peers[0].anchor == Clock(A)
    && s.mgmt.lenRx == 0 && !s.listen && s.hist.mark[0] <= |s.hist.air|
    && s.sched.rtStamp < 256 && s.sched.rtOffset <= 37
  }

  /** k attempts are counted, c connects have succeeded since a packet was heard, and n requests went out. */
  ghost predicate Counts(s: Link, k: nat, c: nat, n: nat)
    requires Shape(s)
  {
    s.peers[0].keepalive == k && s.hist.connects[0] == c && RequestsSince(s, 1) == n
  }

  lemma LoneBits(s: Link, A: nat)
    requires Lone(s, A)
    ensures Inv(s) && !AllRaw(s.bitmask) && AnyRaw(s.bitmask) && 10 <= s.sched.rawTimeout < 256
  {
    ReachableInv(s);
    hide Slots, GivenOk, KeepaliveOk, MailConserved, FreedOk, RequestOk, AirOk, BcastOk, Pipe0Kept;
    assert s.bitmask[0 + 1] <==> s.peers[0].pipe != -1;
    assert s.bitmask[1 + 1] <==> s.peers[1].pipe != -1;
  }

  lemma PollIsRunning(s: Link, e: Env)
    requires Shape(s) && EnvShape(e) && e.t4 == e.t5 && Running(s, e).mgmt.lenRx == 0
    ensures Next(s, Poll(e)) == Running(s, e)
  {
    hide Running;
    assert Running(s, e).hist.now == e.t4 by {
      RunningSetsNow(s, e);
    }
  }

  lemma RunningSetsNow(s: Link, e: Env)
    requires Shape(s) && EnvShape(e)
    ensures Running(s, e).hist.now == e.t4
  {
    hide MgmtStep, RawStep;
  }

  /** A step that leaves the pipe's record and the counts alone. */
  ghost predicate Apart(s: Link, t: Link)
    requires Shape(s) && Shape(t)
  {
    && t.peers == s.peers && t.listen == s.listen && t.mgmt.lenRx == s.mgmt.lenRx
    && t.hist.mark == s.hist.mark && t.hist.connects == s.hist.connects
    && t.sched.rtStamp == s.sched.rtStamp && t.sched.rtOffset == s.sched.rtOffset
    && |s.hist.air| <= |t.hist.air| && RequestsSince(t, 1) == RequestsSince(s, 1)
  }

  lemma ApartKeeps(s: Link, t: Link, A: nat, k: nat, c: nat, n: nat)
    requires Lone(s, A) && Counts(s, k, c, n) && Shape(t) && Reachable(t) && Apart(s, t)
    ensures Lone(t, A) && Counts(t, k, c, n)
  {
  }

  lemma PollReachable(s: Link, A: nat, e: Env)
    requires Lone(s, A) && EnvOk(e, s.hist.now) && e.t4 == e.t5 && Running(s, e).mgmt.lenRx == 0
    ensures Reachable(Running(s, e))
  {
    PollIsRunning(s, e);
    hide Running;
    ReachableNext(s, Poll(e));
  }

  lemma EnterMgmt(s: Link, A: nat, k: nat, c: nat, n: nat, t: nat)
    requires Lone(s, A) && Counts(s, k, c, n) && s.sched.state == START_MGMT && s.hist.now <= t
    ensures var u := Running(s, Quiet(t));
            && Lone(u, A) && Counts(u, k, c, n) && u.sched.state == MGMT && u.hist.visitBegan == u.hist.now == t
            && u.sched.sockIndex == s.sched.sockIndex && u.mgmt == s.mgmt
  {
    var u := Running(s, Quiet(t));
    PollReachable(s, A, Quiet(t));
    hide Running;
    ApartKeeps(s, u, A, k, c, n);
  }

  lemma EnterRaw(s: Link, A: nat, k: nat, c: nat, n: nat, t: nat)
    requires Lone(s, A) && Counts(s, k, c, n) && s.sched.state == START_RAW && s.hist.now <= t
    ensures var u := Running(s, Quiet(t));
            && Lone(u, A) && Counts(u, k, c, n) && u.sched.state == RAW && u.hist.visitBegan == u.hist.now == t
            && u.sched.sockIndex == s.sched.sockIndex && u.mgmt == s.mgmt
  {
    var u := Running(s, Quiet(t));
    PollReachable(s, A, Quiet(t));
    hide Running;
    ApartKeeps(s, u, A, k, c, n);
  }

  lemma WriteApart(s: Link, acked: bool)
    requires Shape(s) && s.hist.mark[0] <= |s.hist.air|
    ensures Apart(s, WriteMgmt(s, acked)) && (acked ==> WriteMgmt(s, acked).mgmt.lenTx == 0)
    ensures WriteMgmt(s, acked).sched == s.sched && WriteMgmt(s, acked).bitmask == s.bitmask
  {
    if s.mgmt.lenTx != 0 {
      var t := WriteMgmt(s, acked);
      RequestsSnoc(s.hist.air, t.hist.air[|s.hist.air|], s.hist.mark[0], 1);
      assert t.hist.air == s.hist.air + [t.hist.air[|s.hist.air|]];
    }
  }

  /** A MGMT visit that has lasted ends, and a connect request that waited is gone. */
  lemma PassMgmt(s: Link, A: nat, k: nat, c: nat, n: nat, t: nat)
    requires Lone(s, A) && Counts(s, k, c, n) && s.sched.state == MGMT && s.hist.now <= t
    requires s.hist.visitBegan + 11 <= t < s.hist.visitBegan + TWO32
    ensures var u := Running(s, Quiet(t));
            && Lone(u, A) && Counts(u, k, c, n) && u.sched.state == START_RAW && u.hist.now == t
            && u.sched.sockIndex == s.sched.sockIndex && u.mgmt.lenTx == 0
  {
    hide Running, RequestsFrom, Reachable;
    PassState(s, A, t);
    WriteApart(s, true);
    hide WriteMgmt;
    PollReachable(s, A, Quiet(t));
    ApartKeeps(s, Running(s, Quiet(t)), A, k, c, n);
  }

  lemma PassState(s: Link, A: nat, t: nat)
    requires Lone(s, A) && s.sched.state == MGMT && s.hist.visitBegan + 11 <= t < s.hist.visitBegan + TWO32
    ensures var w := WriteMgmt(s, true);
            Running(s, Quiet(t)) ==
            w.(sched := w.sched.(state := START_RAW),
               hist := w.hist.(now := t, visits := w.hist.visits
                                                   + [Visit(false, w.hist.visitBegan, t, MGMT_TIMEOUT, false)]))
  {
    LoneBits(s, A);
    TimeoutExact(s.hist.visitBegan, t, MGMT_TIMEOUT);
    VisitStart(s);
    WriteApart(s, true);
    hide Inv, HalTimeout, WriteMgmt, Running;
    assert LeaveMgmt(WriteMgmt(s, true), Quiet(t));
    hide LeaveMgmt;
    MgmtTurn(s, t);
  }

  lemma MgmtTurn(s: Link, t: nat)
    requires Shape(s) && s.sched.state == MGMT && !s.listen && LeaveMgmt(WriteMgmt(s, true), Quiet(t))
    requires !WriteMgmt(s, true).listen
    ensures var w := WriteMgmt(s, true);
            Running(s, Quiet(t)) ==
            w.(sched := w.sched.(state := START_RAW),
               hist := w.hist.(now := t, visits := w.hist.visits
                                                   + [Visit(false, w.hist.visitBegan, t, MGMT_TIMEOUT, false)]))
  {
    hide WriteMgmt, LeaveMgmt;
  }

  lemma VisitStart(s: Link)
    requires Inv(s) && (s.sched.state == MGMT || s.sched.state == RAW)
    ensures s.sched.start == Clock(s.hist.visitBegan) && s.hist.visitBegan <= s.hist.now
  {
  }

  /** A pipe that is not in use is passed over, and the visit goes on. */
  lemma IdleTurn(s: Link, A: nat, k: nat, c: nat, n: nat, t: nat)
    requires Lone(s, A) && Counts(s, k, c, n) && s.sched.state == RAW && s.sched.sockIndex != 1
    requires s.hist.visitBegan == s.hist.now == t
    ensures var u := Running(s, Quiet(t));
            && Lone(u, A) && Counts(u, k, c, n) && u.sched.state == RAW && u.hist.visitBegan == u.hist.now == t
            && u.sched.sockIndex == (if s.sched.sockIndex == 5 then 1 else s.sched.sockIndex + 1) && u.mgmt == s.mgmt
  {
    hide Running, RequestsFrom, Reachable;
    IdleState(s, A, t);
    PollReachable(s, A, Quiet(t));
    ApartKeeps(s, Running(s, Quiet(t)), A, k, c, n);
  }

  lemma IdleState(s: Link, A: nat, t: nat)
    requires Lone(s, A) && s.sched.state == RAW && s.sched.sockIndex != 1 && s.hist.visitBegan == t
    ensures Running(s, Quiet(t)) == NextSock(s).(hist := s.hist.(now := t))
  {
    LoneBits(s, A);
    VisitStart(s);
    TimeoutExact(t, t, s.sched.rawTimeout);
    RawTurn(s, Quiet(t));
    hide Inv, HalTimeout, Traffic, Supervise, Running, RawStep;
  }

  /** A request that is due goes out and is counted. */
  lemma DueRequestCounts(s: Link, fd: nat, anchor: nat, t: nat, junk: byte) returns (a: Link)
    requires Shape(s) && 1 <= fd <= CONNECTION_COUNTER && s.peers[fd - 1].pipe != -1
    requires s.peers[fd - 1].anchor == Clock(anchor) && 1 <= s.peers[fd - 1].keepalive <= 9
    requires s.peers[fd - 1].keepalive * 750 < t - anchor < 7500 && s.hist.mark[fd - 1] <= |s.hist.air|
    ensures Shape(a) && a == Supervise(s, fd, t, junk) && RequestsSince(a, fd) == RequestsSince(s, fd) + 1
    ensures a.hist.mark == s.hist.mark && a.hist.connects == s.hist.connects && |s.hist.air| <= |a.hist.air|
    ensures a.mgmt == s.mgmt && a.sched == s.sched && a.listen == s.listen
    ensures a.peers == s.peers[fd - 1 := s.peers[fd - 1].(keepalive := s.peers[fd - 1].keepalive + 1)]
  {
    hide RequestsFrom, PhyDriverNrf24.Write, SetPtx, ControlPdu;
    TimeoutExact(anchor, t, KEEPALIVE_TIMEOUT_MS);
    TimeoutExact(anchor, t, s.peers[fd - 1].keepalive * KEEPALIVE_SEND_MS);
    hide HalTimeout;
    a := Request(s, fd, junk);
    assert a.hist.air == s.hist.air + [a.hist.air[|s.hist.air|]];
    RequestsSnoc(s.hist.air, a.hist.air[|s.hist.air|], s.hist.mark[fd - 1], fd);
  }

  /** The turn of pipe 1 when its request is due and the visit is over. */
  lemma DueTurn(s: Link, A: nat, k: nat, c: nat, n: nat, t: nat)
    requires Lone(s, A) && Counts(s, k, c, n) && s.sched.state == RAW && s.sched.sockIndex == 1 && 1 <= k <= 9
    requires s.hist.visitBegan + 300 <= t < s.hist.visitBegan + TWO32 && Clock(t) >= 300 && s.hist.now <= t
    requires k * 750 < t - A < 7500
    ensures var u := Running(s, Quiet(t));
            && Lone(u, A) && Counts(u, k + 1, c, n + 1) && u.sched.state == START_MGMT && u.hist.now == t
            && u.sched.sockIndex == 2 && u.mgmt == s.mgmt
  {
    hide Running, RequestsFrom, Reachable;
    var v := DueState(s, A, k, n, t);
    PollReachable(s, A, Quiet(t));
    DueKeeps(s, v, Running(s, Quiet(t)), A, k, c, n, t);
  }

  /** Where the turn leads but for the next pipe's turn and the time. */
  lemma DueState(s: Link, A: nat, k: nat, n: nat, t: nat) returns (v: Link)
    requires Lone(s, A) && s.sched.state == RAW && s.sched.sockIndex == 1 && 1 <= k <= 9
    requires s.peers[0].keepalive == k && RequestsSince(s, 1) == n
    requires s.hist.visitBegan + 300 <= t < s.hist.visitBegan + TWO32 && Clock(t) >= 300
    requires k * 750 < t - A < 7500
    ensures Shape(v) && v.sched.sockIndex == 1 && v.sched.state == START_MGMT
    ensures v.hist.mark == s.hist.mark && v.hist.connects == s.hist.connects && |s.hist.air| <= |v.hist.air|
    ensures v.mgmt == s.mgmt && v.listen == s.listen && RequestsSince(v, 1) == n + 1
    ensures v.peers == s.peers[0 := s.peers[0].(keepalive := k + 1)]
    ensures v.sched.rtStamp < 256 && v.sched.rtOffset == s.sched.rtOffset
    ensures Running(s, Quiet(t)) == NextSock(v).(hist := v.hist.(now := t))
  {
    hide Running, RequestsFrom, Reachable, Supervise, RawExit, Stamp;
    QuietTurn(s, t);
    LeavingTurn(s, A, t);
    v := DueRequestCounts(Stamp(RawExit(s, Quiet(t)), t), 1, A, t, 0);
  }

  lemma LeavingTurn(s: Link, A: nat, t: nat)
    requires Lone(s, A) && s.sched.state == RAW
    requires s.hist.visitBegan + 300 <= t < s.hist.visitBegan + TWO32 && Clock(t) >= 300
    ensures var r := Stamp(RawExit(s, Quiet(t)), t);
            && r.sched.state == START_MGMT && r.sched.sockIndex == s.sched.sockIndex
            && r.sched.rtStamp < 256 && r.sched.rtOffset == s.sched.rtOffset
            && r.peers == s.peers && r.mgmt == s.mgmt && r.listen == s.listen && r.hist.air == s.hist.air
            && r.hist.mark == s.hist.mark && r.hist.connects == s.hist.connects
  {
    LoneBits(s, A);
    Leaves(s, t);
    hide Inv, Lone, HalTimeout, LeaveRaw;
  }

  /** With nothing to hear or to send a turn is the supervision of the pipe. */
  lemma QuietTurn(s: Link, t: nat)
    requires Shape(s) && s.sched.state == RAW && s.sched.sockIndex == 1
    requires s.peers[0].pipe != -1 && s.peers[0].lenTx == 0
    ensures var v := Supervise(Stamp(RawExit(s, Quiet(t)), t), 1, t, 0);
            Running(s, Quiet(t)) == NextSock(v).(hist := v.hist.(now := t))
  {
    RawTurn(s, Quiet(t));
    EmptyTraffic(RawExit(s, Quiet(t)), Quiet(t));
    hide Running, RawStep, Traffic, Supervise, LeaveRaw;
  }

  /** A RAW step, piece by piece. */
  lemma RawTurn(s: Link, e: Env)
    requires Shape(s) && EnvShape(e) && s.sched.state == RAW
    ensures var t := NextSock(Serve(RawExit(s, e), s.sched.sockIndex, e));
            Running(s, e) == t.(hist := t.hist.(now := e.t4))
  {
    hide NextSock, Serve, RawExit;
  }

  lemma DueKeeps(s: Link, v: Link, u: Link, A: nat, k: nat, c: nat, n: nat, t: nat)
    requires Lone(s, A) && Counts(s, k, c, n) && Shape(v) && v.sched.sockIndex == 1 && v.sched.state == START_MGMT
    requires v.hist.mark == s.hist.mark && v.hist.connects == s.hist.connects && |s.hist.air| <= |v.hist.air|
    requires v.mgmt == s.mgmt && v.listen == s.listen && RequestsSince(v, 1) == n + 1
    requires v.peers == s.peers[0 := s.peers[0].(keepalive := k + 1)]
    requires v.sched.rtStamp < 256 && v.sched.rtOffset == s.sched.rtOffset
    requires u == NextSock(v).(hist := v.hist.(now := t)) && Reachable(u)
    ensures Lone(u, A) && Counts(u, k + 1, c, n + 1) && u.sched.state == START_MGMT && u.sched.sockIndex == 2
    ensures u.hist.now == t && u.mgmt == s.mgmt
  {
    hide RequestsFrom, Reachable;
  }

  lemma EmptyTraffic(s: Link, e: Env)
    requires Shape(s) && EnvShape(e) && e.rawIn == [] && s.peers[0].lenTx == 0
    ensures Traffic(s, 1, e) == s
  {
  }

  lemma Leaves(s: Link, t: nat)
    requires Inv(s) && s.sched.state == RAW && !AllRaw(s.bitmask) && s.sched.rtStamp < 256 && s.sched.rtOffset <= 37
    requires s.hist.visitBegan + 300 <= t < s.hist.visitBegan + TWO32 && Clock(t) >= 300
    ensures forall e: Env :: e.t1 == e.t2 == t ==> LeaveRaw(s, e)
  {
    VisitStart(s);
    TimeoutExact(s.hist.visitBegan, t, s.sched.rawTimeout);
    assert HalTimeout(Clock(t), s.sched.rtStamp, s.sched.rtOffset);
    hide Facts, HalTimeout;
  }

  /** A packet from the peer: an answer to a keepalive request, from whomever. */
  function Answer(t: nat): (f: Heard)
    ensures RawFrame(f) && Lid(f) == LID_CONTROL && f.buf[2] == OP_KEEPALIVE_RSP && f.at == t
  {
    Heard(t, 19, [3, 0, OP_KEEPALIVE_RSP] + Zeros(29))
  }

  function Hearing(t: nat): (e: Env)
    ensures EnvShape(e)
  {
    Quiet(t).(rawIn := [Answer(t)])
  }

  lemma AnswerHeard(s: Link, t: nat)
    requires Shape(s) && s.peers[0].keepalive != 0 && s.peers[0].lenTx == 0
    ensures var p, u := s.peers[0], Traffic(s, 1, Hearing(t));
            u == s.(peers := s.peers[0 := p.(anchor := Clock(t), keepalive := 1)],
                    hist := s.hist.(now := t, heard := s.hist.heard[0 := Some(t)],
                                    mark := s.hist.mark[0 := |s.hist.air|], connects := s.hist.connects[0 := 0]))
  {
    var f := Answer(t);
    assert [f][..0] == [];
    assert ReadRaw(s, 1, [f][..0], 0) == s;
    assert ReadRaw(s, 1, [f], 0) == HandleFrame(s, 1, f, 0);
  }

  lemma NotYet(p: Peer, t: nat)
    requires p.anchor == Clock(t) && p.keepalive == 1
    ensures !Silent(p, t) && !RequestDue(p, t)
  {
  }

  /** The turn of pipe 1 when its peer is heard and the visit is over. */
  lemma HearingTurn(s: Link, A: nat, k: nat, c: nat, n: nat, t: nat)
    requires Lone(s, A) && Counts(s, k, c, n) && s.sched.state == RAW && s.sched.sockIndex == 1 && k != 0
    requires s.hist.visitBegan + 300 <= t < s.hist.visitBegan + TWO32 && Clock(t) >= 300 && s.hist.now <= t
    ensures var u := Running(s, Hearing(t));
            && Lone(u, t) && Counts(u, 1, 0, 0) && u.sched.state == START_MGMT && u.hist.now == t
            && u.sched.sockIndex == 2 && u.mgmt == s.mgmt
  {
    hide Running, RequestsFrom, Reachable;
    var v := HearingState(s, A, t);
    PollReachable(s, A, Hearing(t));
    HeardKeeps(s, v, Running(s, Hearing(t)), A, k, t);
  }

  lemma HearingState(s: Link, A: nat, t: nat) returns (v: Link)
    requires Lone(s, A) && s.sched.state == RAW && s.sched.sockIndex == 1 && s.peers[0].keepalive != 0
    requires s.hist.visitBegan + 300 <= t < s.hist.visitBegan + TWO32 && Clock(t) >= 300
    ensures Shape(v) && v.sched.sockIndex == 1 && v.sched.state == START_MGMT
    ensures v.peers == s.peers[0 := s.peers[0].(anchor := Clock(t), keepalive := 1)]
    ensures v.hist.mark == s.hist.mark[0 := |v.hist.air|] && v.hist.connects == s.hist.connects[0 := 0]
    ensures v.mgmt == s.mgmt && v.listen == s.listen
    ensures v.sched.rtStamp < 256 && v.sched.rtOffset == s.sched.rtOffset
    ensures Running(s, Hearing(t)) == NextSock(v).(hist := v.hist.(now := t))
  {
    var e := Hearing(t);
    LoneBits(s, A);
    Leaves(s, t);
    RawTurn(s, e);
    hide Inv, Lone, HalTimeout, LeaveRaw, Silent, RequestDue, Running, RawStep;
    var s1 := RawExit(s, e);
    AnswerHeard(s1, t);
    hide Traffic;
    v := Stamp(Traffic(s1, 1, e), t);
    NotYet(v.peers[0], t);
  }

  lemma HeardKeeps(s: Link, v: Link, u: Link, A: nat, k: nat, t: nat)
    requires Lone(s, A) && Shape(v) && v.sched.sockIndex == 1 && v.sched.state == START_MGMT
    requires v.peers == s.peers[0 := s.peers[0].(anchor := Clock(t), keepalive := 1)]
    requires v.hist.mark == s.hist.mark[0 := |v.hist.air|] && v.hist.connects == s.hist.connects[0 := 0]
    requires v.mgmt == s.mgmt && v.listen == s.listen
    requires v.sched.rtStamp < 256 && v.sched.rtOffset == s.sched.rtOffset
    requires u == NextSock(v).(hist := v.hist.(now := t)) && Reachable(u)
    ensures Lone(u, t) && Counts(u, 1, 0, 0) && u.sched.state == START_MGMT && u.sched.sockIndex == 2
    ensures u.hist.now == t && u.mgmt == s.mgmt
  {
    hide Reachable;
  }

  /** hal_comm_connect, once its background step is over. */
  lemma ConnectCounts(u: Link, A: nat, k: nat, c: nat, n: nat, dst: Mac, t: nat)
    requires Lone(u, A) && Counts(u, k, c, n) && u.mgmt.lenTx == 0
    ensures var v := ConnectTo(u, 1, dst, t).s.(hist := ConnectTo(u, 1, dst, t).s.hist.(now := t));
            && (Reachable(v) ==> Lone(v, t)) && Counts(v, 1, c + 1, n)
            && v.sched == u.sched && v.hist.visitBegan == u.hist.visitBegan
  {
    hide RequestsFrom, Reachable;
  }

  function ConnectAct(dst: Mac, t: nat): (a: Act) {
    Act(Connect(1, dst), Quiet(t))
  }

  lemma ConnectStep(s: Link, dst: Mac, t: nat)
    requires Shape(s)
    ensures var o := ConnectTo(Running(s, Quiet(t)), 1, dst, t);
            Next(s, ConnectAct(dst, t)) == o.s.(hist := o.s.hist.(now := t))
  {
    hide Running;
  }

  // --- whole rounds of the scheduler ---

  /** Back on the data channel with pipe 1 in turn, soon after the (k-1)-th request. */
  ghost predicate Poised(s: Link, A: nat, k: nat, c: nat, n: nat) {
    && Lone(s, A) && Counts(s, k, c, n) && k >= 1
    && s.sched.state == RAW && s.sched.sockIndex == 1
    && s.hist.visitBegan == s.hist.now && A <= s.hist.now <= A + 750 * (k - 1) + 312
  }

  /** Through the management channel and past three pipes not in use. */
  lemma Round(s: Link, A: nat, k: nat, c: nat, n: nat, t: nat) returns (u: Link)
    requires Lone(s, A) && Counts(s, k, c, n) && s.sched.state == START_MGMT && s.sched.sockIndex == 2
    requires s.hist.now == t
    ensures Lone(u, A) && Counts(u, k, c, n) && u.sched.state == RAW && u.sched.sockIndex == 5 && u.mgmt.lenTx == 0
    ensures u.hist.visitBegan == u.hist.now == t + 11
  {
    hide Running, Counts, Reachable;
    EnterMgmt(s, A, k, c, n, t);
    var s1 := Running(s, Quiet(t));
    PassMgmt(s1, A, k, c, n, t + 11);
    var s2 := Running(s1, Quiet(t + 11));
    EnterRaw(s2, A, k, c, n, t + 11);
    var s3 := Running(s2, Quiet(t + 11));
    IdleTurn(s3, A, k, c, n, t + 11);
    var s4 := Running(s3, Quiet(t + 11));
    IdleTurn(s4, A, k, c, n, t + 11);
    var s5 := Running(s4, Quiet(t + 11));
    IdleTurn(s5, A, k, c, n, t + 11);
    u := Running(s5, Quiet(t + 11));
  }

  /** When the k-th request after time A is sent: as soon as it is due, clear of the clock's wrap. */
  function DueAt(A: nat, k: nat): (t: nat)
    ensures A + 750 * k + 1 <= t <= A + 750 * k + 301 && Clock(t) >= 300
  {
    var t := A + 750 * k + 1;
    if Clock(t) < 300 then assert Clock(t + 300) == Clock(t) + 300; t + 300 else t
  }

  /** One request, and the round it takes until the next can be sent; all but the last pipe's turn. */
  lemma Requested(s: Link, A: nat, k: nat, c: nat, n: nat) returns (u: Link)
    requires Poised(s, A, k, c, n) && k <= 9
    ensures Lone(u, A) && Counts(u, k + 1, c, n + 1) && u.sched.state == RAW && u.sched.sockIndex == 5
    ensures u.mgmt.lenTx == 0 && u.hist.visitBegan == u.hist.now == DueAt(A, k) + 11
  {
    hide Running, Counts, Reachable;
    var t := DueAt(A, k);
    DueTurn(s, A, k, c, n, t);
    u := Round(Running(s, Quiet(t)), A, k + 1, c, n + 1, t);
  }

  lemma Cycle(s: Link, A: nat, k: nat, c: nat, n: nat) returns (u: Link)
    requires Poised(s, A, k, c, n) && k <= 9
    ensures Poised(u, A, k + 1, c, n + 1)
  {
    hide Running, Counts, Reachable;
    var v := Requested(s, A, k, c, n);
    IdleTurn(v, A, k + 1, c, n + 1, v.hist.now);
    u := Running(v, Quiet(v.hist.now));
  }

  /** The application connects again once the ninth request has gone out. */
  lemma CycleAndConnect(s: Link, A: nat, c: nat, n: nat, dst: Mac) returns (u: Link, B: nat)
    requires Poised(s, A, 9, c, n)
    ensures Poised(u, B, 1, c + 1, n + 1)
  {
    hide Running, Counts, Reachable, ConnectTo;
    var v := Requested(s, A, 9, c, n);
    B := v.hist.now;
    IdleTurn(v, A, 10, c, n + 1, B);
    var w := Running(v, Quiet(B));
    ConnectCounts(w, A, 10, c, n + 1, dst, B);
    ConnectStep(v, dst, B);
    ReachableNext(v, ConnectAct(dst, B));
    u := Next(v, ConnectAct(dst, B));
  }

  lemma ManagementOpened(mac: Mac, regs: Radio) returns (s: Link)
    requires |regs.rxLow| == 4
    ensures Reachable(s) && Shape(s) && s.mgmt.pipe == 0 && s.hist.now == 0
    ensures var s0 := Session(mac, regs);
            && s.peers == s0.peers && s.sched == s0.sched && s.hist == s0.hist
            && s.mgmt == s0.mgmt.(pipe := 0) && !s.listen
  {
    hide Init, Reachable, Perform;
    FreshReachable(mac, regs);
    var s0 := Session(mac, regs);
    ReachableNext(s0, Act(Socket(false), Quiet(0)));
    NoPipe(s0);
    s := Next(s0, Act(Socket(false), Quiet(0)));
  }

  lemma FreshReachable(mac: Mac, regs: Radio)
    requires |regs.rxLow| == 4
    ensures Shape(Session(mac, regs)) && Reachable(Session(mac, regs))
  {
    SessionStarts(mac, regs);
    hide Session, Inv, Shape;
    assert ReachedBy(Session(mac, regs), mac, regs, []);
  }

  lemma NoPipe(s: Link)
    requires Shape(s) && s.mgmt.pipe == -1
    ensures var t := Perform(s, Socket(false), Quiet(0)).s;
            && t.mgmt == s.mgmt.(pipe := 0) && t.peers == s.peers && t.sched == s.sched && t.hist == s.hist
            && t.listen == s.listen
  {
  }

  /** A session opens the management socket and one data socket. */
  lemma Opened(mac: Mac, regs: Radio) returns (s: Link)
    requires |regs.rxLow| == 4
    ensures Lone(s, 0) && Counts(s, 0, 0, 0) && s.sched.state == START_MGMT && s.sched.sockIndex == 1
    ensures s.mgmt.lenTx == 0 && s.hist.now == 0
  {
    hide Init, Reachable, Perform;
    var s1 := ManagementOpened(mac, regs);
    ReachableNext(s1, Act(Socket(true), Quiet(0)));
    FirstPipe(s1);
    s := Next(s1, Act(Socket(true), Quiet(0)));
  }

  lemma FirstPipe(s: Link)
    requires Shape(s) && s.mgmt.pipe == 0 && forall i :: 0 <= i < CONNECTION_COUNTER ==> s.peers[i] == FRESH_PEER
    ensures var t := Perform(s, Socket(true), Quiet(0)).s;
            && t.peers == s.peers[0 := FRESH_PEER.(pipe := 1)] && t.sched == s.sched && t.mgmt == s.mgmt
            && t.listen == s.listen && t.hist.air == s.hist.air
            && t.hist.mark == s.hist.mark[0 := |s.hist.air|] && t.hist.connects == s.hist.connects[0 := 0]
  {
    assert s.peers[0].pipe == -1;
  }

  /** It connects, and hears its peer for the last time at 1000 ms. */
  lemma Prepared(mac: Mac, regs: Radio, dst: Mac) returns (s: Link)
    requires |regs.rxLow| == 4
    ensures Poised(s, 1000, 1, 0, 0)
  {
    hide Running, Counts, Reachable, ConnectTo;
    var s0 := Opened(mac, regs);
    EnterMgmt(s0, 0, 0, 0, 0, 0);
    ConnectCounts(Running(s0, Quiet(0)), 0, 0, 0, 0, dst, 0);
    ConnectStep(s0, dst, 0);
    ReachableNext(s0, ConnectAct(dst, 0));
    var s1 := Next(s0, ConnectAct(dst, 0));
    PassMgmt(s1, 0, 1, 1, 0, 11);
    var s2 := Running(s1, Quiet(11));
    EnterRaw(s2, 0, 1, 1, 0, 11);
    var s3 := Running(s2, Quiet(11));
    HearingTurn(s3, 0, 1, 1, 0, 1000);
    var s4 := Round(Running(s3, Hearing(1000)), 1000, 1, 0, 0, 1000);
    IdleTurn(s4, 1000, 1, 0, 0, 1011);
    s := Running(s4, Quiet(1011));
  }

  lemma Reaches(mac: Mac, regs: Radio, dst: Mac, c: nat, j: nat) returns (s: Link, A: nat)
    requires |regs.rxLow| == 4 && j <= 9
    ensures Poised(s, A, j + 1, c, 9 * c + j)
    decreases c, j
  {
    if j > 0 {
      s, A := Reaches(mac, regs, dst, c, j - 1);
      s := Cycle(s, A, j, c, 9 * c + j - 1);
    } else if c > 0 {
      s, A := Reaches(mac, regs, dst, c - 1, 8);
      s, A := CycleAndConnect(s, A, c - 1, 9 * (c - 1) + 8, dst);
    } else {
      s := Prepared(mac, regs, dst);
      A := 1000;
    }
  }

  /**
    * The bound is attained: on any node, for any number of connects since a packet was last heard, some
    * session has sent nine requests for the packet and nine for each connect.
    */
  lemma BoundAttained(mac: Mac, regs: Radio, dst: Mac, c: nat) returns (s: Link)
    requires |regs.rxLow| == 4
    ensures Reachable(s) && Shape(s) && s.hist.connects[0] == c && RequestsSince(s, 1) == 9 * (1 + c)
  {
    var A: nat;
    s, A := Reaches(mac, regs, dst, c, 9);
  }

  /** "At most nine requests between two packets" is false: with one connect in the silence there can be ten. */
  lemma TenRequests(mac: Mac, regs: Radio, dst: Mac) returns (s: Link)
    requires |regs.rxLow| == 4
    ensures Reachable(s) && Shape(s) && s.hist.connects[0] == 1 && RequestsSince(s, 1) == 10
  {
    var A: nat;
    s, A := Reaches(mac, regs, dst, 1, 1);
  }
}
