/** Whole sessions of one node: any sequence of interface calls under any surroundings. */
module LinkRuns {
  import opened Bits
  import opened Bytes
  import opened HalTime
  import opened Nrf24l01
  import opened LinkPdu
  import opened Reassembly
  import opened LinkSpec
  import opened LinkInvariants

  datatype Act = Act(call: Call, env: Env)

  function Next(s: Link, a: Act): (t: Link)
    requires Shape(s) && CallOk(a.call) && EnvShape(a.env)
    ensures Shape(t) && t.mac == s.mac
  {
    Step(s, a.call, a.env).s
  }

  /** The calls are legal and the clock never goes back. */
  ghost predicate RunOk(s: Link, acts: seq<Act>)
    requires Shape(s)
    decreases |acts|
  {
    acts != [] ==> CallOk(acts[0].call) && EnvOk(acts[0].env, s.hist.now) && RunOk(Next(s, acts[0]), acts[1..])
  }

  ghost function Run(s: Link, acts: seq<Act>): (t: Link)
    requires Shape(s) && RunOk(s, acts)
    ensures Shape(t) && t.mac == s.mac
    decreases |acts|
  {
    if acts == [] then s else Run(Next(s, acts[0]), acts[1..])
  }

  lemma {:induction false} RunKeeps(s: Link, acts: seq<Act>)
    requires Inv(s) && RunOk(s, acts)
    ensures Inv(Run(s, acts))
    decreases |acts|
  {
    if acts != [] {
      StepKeeps(s, acts[0].call, acts[0].env);
      RunKeeps(Next(s, acts[0]), acts[1..]);
    }
  }

  /** hal_comm_init on a radio fresh from power-on. */
  function Session(mac: Mac, regs: Radio): (s: Link)
    requires |regs.rxLow| == 4
  {
    Start(mac, Init(regs.(pipe0Open := false), 3))
  }

  lemma SessionStarts(mac: Mac, regs: Radio)
    requires |regs.rxLow| == 4
    ensures Shape(Session(mac, regs)) && Inv(Session(mac, regs))
  {
    assert SlotOk(EMPTY_SLOT);
  }

  /** A state some session reaches. */
  ghost predicate Reachable(s: Link) {
    exists mac: Mac, regs: Radio, acts: seq<Act> :: ReachedBy(s, mac, regs, acts)
  }

  ghost predicate ReachedBy(s: Link, mac: Mac, regs: Radio, acts: seq<Act>) {
    && |regs.rxLow| == 4 && Shape(Session(mac, regs))
    && RunOk(Session(mac, regs), acts) && s == Run(Session(mac, regs), acts)
  }

  lemma ReachableInv(s: Link)
    requires Reachable(s)
    ensures Inv(s)
  {
    var mac: Mac, regs: Radio, acts: seq<Act> :| ReachedBy(s, mac, regs, acts);
    SessionStarts(mac, regs);
    RunKeeps(Session(mac, regs), acts);
  }

  /**
    * In every reachable state bit i of the pipe bitmask, entry i - 1 of peers[] and bit i of EN_RXADDR
    * agree, every pipe field is -1 or its own index, and bit 0 stays set.
    */
  lemma PipeTablesAgree(s: Link, i: nat)
    requires Reachable(s) && 1 <= i <= CONNECTION_COUNTER
    ensures Shape(s)
    ensures s.bitmask[i] <==> s.peers[i - 1].pipe == i
    ensures s.radio.enRxAddr[i] <==> s.peers[i - 1].pipe == i
    ensures s.peers[i - 1].pipe == -1 || s.peers[i - 1].pipe == i
    ensures s.bitmask[0]
  {
    ReachableInv(s);
  }

  /**
    * Every presence and connect frame ever sent went out on channel 76 without auto-ack, every data and
    * keepalive frame on channel 22 with it.
    */
  lemma FramesOnTheirChannel(s: Link, k: nat)
    requires Reachable(s) && k < |s.hist.air|
    ensures var f := s.hist.air[k];
            && (f.kind == PresenceFrame || f.kind == ConnectFrame ==> f.rfCh == 76 && f.enAA == NO_PIPES)
            && (f.kind == DataFrame || f.kind == KeepaliveReq || f.kind == KeepaliveRsp ==>
                  f.rfCh == 22 && f.enAA == ALL_PIPES && 1 <= f.pipe <= CONNECTION_COUNTER)
  {
    ReachableInv(s);
  }

  /** A MGMT visit that ends lasted 10 ms, a RAW visit the raw timeout in force. */
  lemma VisitsLastLongEnough(s: Link, k: nat)
    requires Reachable(s) && k < |s.hist.visits|
    ensures var v := s.hist.visits[k];
            v.ended - v.began >= v.timeout && v.timeout >= 10 && (!v.raw ==> v.timeout == 10)
  {
    ReachableInv(s);
  }

  /** With all five pipes taken the RAW state is never left, however late it gets. */
  lemma FullMasterStaysRaw(s: Link, e: Env)
    requires Inv(s) && EnvOk(e, s.hist.now)
    requires s.sched.state == RAW && forall i :: 0 <= i < CONNECTION_COUNTER ==> s.peers[i].pipe != -1
    ensures Running(s, e).sched.state == RAW
  {
    assert AllRaw(s.bitmask) by {
      assert s.peers[0].pipe != -1 && s.peers[1].pipe != -1 && s.peers[2].pipe != -1;
      assert s.peers[3].pipe != -1 && s.peers[4].pipe != -1;
    }
    RawExitKeeps(s, e);
    ServeKeeps(s, s.sched.sockIndex, e);
  }

  /** Events queued are exactly the events consumed and the one pending: none is ever overwritten. */
  lemma MailboxConservation(s: Link)
    requires Reachable(s)
    ensures Shape(s)
    ensures s.hist.queued == s.hist.consumed
                             + if s.mgmt.lenRx == 0 then [] else [s.mgmt.bufferRx[..s.mgmt.lenRx]]
  {
    ReachableInv(s);
  }

  /** Keepalive requests put on the air for a pipe since a packet was last heard on it, or it was allocated. */
  function RequestsSince(s: Link, fd: nat): (n: nat)
    requires Shape(s) && 1 <= fd <= CONNECTION_COUNTER
  {
    RequestsFrom(s.hist.air, s.hist.mark[fd - 1], fd)
  }

  /**
    * The attempt counter never passes ten. Between two packets at most nine requests go out while no
    * hal_comm_connect succeeds on the pipe; each one that does allows nine more.
    */
  lemma KeepaliveBounds(s: Link, fd: nat)
    requires Reachable(s) && 1 <= fd <= CONNECTION_COUNTER
    ensures Shape(s)
    ensures s.peers[fd - 1].keepalive <= 10
    ensures s.hist.connects[fd - 1] == 0 ==> RequestsSince(s, fd) <= 9
    ensures RequestsSince(s, fd) <= 9 * (1 + s.hist.connects[fd - 1])
    ensures s.peers[fd - 1].keepalive != 0 ==>
              RequestsSince(s, fd) <= 9 * s.hist.connects[fd - 1] + s.peers[fd - 1].keepalive - 1
  {
    ReachableInv(s);
    EntryFits(s, fd);
  }

  /**
    * A pipe whose anchor was set is freed only after 7500 ms of silence, and an event naming its peer
    * was queued.
    */
  lemma FreedOnlyWhenSilent(s: Link, k: nat)
    requires Reachable(s) && k < |s.hist.freed|
    ensures var f := s.hist.freed[k];
            && (f.lastHeard.Some? ==> f.at - f.lastHeard.value >= 7500)
            && f.event < |s.hist.queued| && |s.hist.queued[f.event]| == DISCONNECTED_LEN
            && s.hist.queued[f.event][..2] == EVT_DISCONNECTED && s.hist.queued[f.event][3..] == f.mac
  {
    ReachableInv(s);
  }

  lemma FrameFreesNothing(s: Link, fd: nat, f: Heard, junk: byte)
    requires Shape(s) && 1 <= fd <= CONNECTION_COUNTER && RawFrame(f)
    ensures var t := HandleFrame(s, fd, f, junk);
            && t.hist.freed == s.hist.freed && |t.hist.queued| >= |s.hist.queued|
            && t.peers[fd - 1].mac == s.peers[fd - 1].mac
  {
  }

  lemma {:induction false} ReadRawFreesNothing(s: Link, fd: nat, fs: seq<Heard>, junk: byte)
    requires Shape(s) && 1 <= fd <= CONNECTION_COUNTER
    requires forall i :: 0 <= i < |fs| ==> RawFrame(fs[i])
    ensures var t := ReadRaw(s, fd, fs, junk);
            && t.hist.freed == s.hist.freed && |t.hist.queued| >= |s.hist.queued|
            && t.peers[fd - 1].mac == s.peers[fd - 1].mac
    decreases |fs|
  {
    if fs != [] {
      var init := fs[..|fs| - 1];
      ReadRawFreesNothing(s, fd, init, junk);
      FrameFreesNothing(ReadRaw(s, fd, init, junk), fd, fs[|fs| - 1], junk);
    }
  }

  lemma {:induction false} SendFromFreesNothing(s: Link, fd: nat, left: nat, k: nat, acked: nat, junk: byte)
    requires Shape(s) && 1 <= fd <= CONNECTION_COUNTER && left <= s.peers[fd - 1].lenTx
    ensures var t := SendFrom(s, fd, left, k, acked, junk);
            && t.hist.freed == s.hist.freed && t.hist.queued == s.hist.queued && t.hist.tries == s.hist.tries
            && t.peers[fd - 1].mac == s.peers[fd - 1].mac
    decreases left
  {
    hide SendFrom;
    SendFromTurn(s, fd, left, k, acked, junk);
    if left != 0 && k < acked {
      var t := CountSent(SendOne(s, fd, left, junk), fd);
      SendFromFreesNothing(t, fd, left - Min(left, PW_MSG_SIZE), k + 1, acked, junk);
    }
  }

  lemma TrafficFreesNothing(s: Link, fd: nat, e: Env)
    requires Shape(s) && EnvShape(e) && 1 <= fd <= CONNECTION_COUNTER
    ensures var t := Traffic(s, fd, e);
            && t.hist.freed == s.hist.freed && |t.hist.queued| >= |s.hist.queued|
            && t.peers[fd - 1].mac == s.peers[fd - 1].mac
  {
    ReadRawFreesNothing(s, fd, e.rawIn, e.junk);
    var s1 := ReadRaw(s, fd, e.rawIn, e.junk);
    SendFromFreesNothing(s1, fd, s1.peers[fd - 1].lenTx, 0, e.acked, e.junk);
  }

  lemma OnlyRawTouchesPeers(s: Link, e: Env)
    requires Shape(s) && EnvShape(e) && s.sched.state != RAW
    ensures Running(s, e).peers == s.peers
  {
  }

  /** From s to t one pipe was freed: recorded, and the pending event names the peer. */
  ghost predicate Reported(s: Link, t: Link, mac: Mac) {
    && |t.hist.freed| == |s.hist.freed| + 1 && t.hist.freed[|s.hist.freed|].mac == mac
    && |t.hist.queued| > |s.hist.queued|
    && t.mgmt.lenRx == DISCONNECTED_LEN && |t.mgmt.bufferRx| == MTU
    && t.mgmt.bufferRx[..2] == EVT_DISCONNECTED && t.mgmt.bufferRx[3..11] == mac
  }

  lemma TimeOutReports(s: Link, fd: nat, t: nat)
    requires Shape(s) && 1 <= fd <= CONNECTION_COUNTER && s.peers[fd - 1].pipe != -1
    ensures Reported(s, TimeOut(s, fd, t), s.peers[fd - 1].mac)
  {
    var mac := s.peers[fd - 1].mac;
    assert DisconnectedEvent(s.mgmt.bufferRx, mac)[3..11] == mac;
  }

  lemma OnlyTimeOutFrees(s: Link, fd: nat, t: nat, junk: byte)
    requires Shape(s) && 1 <= fd <= CONNECTION_COUNTER && s.peers[fd - 1].pipe != -1
    requires Supervise(s, fd, t, junk).peers[fd - 1].pipe == -1
    ensures Supervise(s, fd, t, junk) == TimeOut(s, fd, t)
  {
  }

  lemma ServeReports(s: Link, fd: nat, e: Env)
    requires Shape(s) && EnvShape(e) && 1 <= fd <= CONNECTION_COUNTER
    requires s.peers[fd - 1].pipe != -1 && Serve(s, fd, e).peers[fd - 1].pipe == -1
    ensures Reported(s, Serve(s, fd, e), s.peers[fd - 1].mac)
  {
    TrafficFreesNothing(s, fd, e);
    var u := Stamp(Traffic(s, fd, e), e.t3);
    OnlyTimeOutFrees(u, fd, e.t4, e.junk);
    TimeOutReports(u, fd, e.t4);
  }

  lemma RawStepReports(s: Link, e: Env, i: nat)
    requires Shape(s) && EnvShape(e) && 1 <= i <= CONNECTION_COUNTER
    requires s.peers[i - 1].pipe != -1 && RawStep(s, e).peers[i - 1].pipe == -1
    ensures s.sched.sockIndex == i
    ensures Reported(s, RawStep(s, e), s.peers[i - 1].mac)
  {
    hide Serve;
    var s1 := RawExit(s, e);
    assert OthersSame(s1, Serve(s1, s.sched.sockIndex, e), s.sched.sockIndex);
    ServeReports(s1, s.sched.sockIndex, e);
  }

  /** A background step frees a pipe only together with its record and the event naming its peer. */
  lemma FreedMeansReported(s: Link, e: Env, i: nat)
    requires Shape(s) && EnvShape(e) && 1 <= i <= CONNECTION_COUNTER
    requires s.peers[i - 1].pipe != -1 && Running(s, e).peers[i - 1].pipe == -1
    ensures s.sched.state == RAW && s.sched.sockIndex == i
    ensures Reported(s, Running(s, e), s.peers[i - 1].mac)
  {
    if s.sched.state != RAW {
      OnlyRawTouchesPeers(s, e);
    } else {
      RawStepReports(s, e, i);
    }
  }

  /** Burst windows of one session start at least 60 ms apart. */
  lemma BurstsSixtyApart(s: Link, k: nat)
    requires Reachable(s) && 0 < k < |s.hist.windows|
    ensures s.hist.windows[k] >= s.hist.windows[k - 1] + 60
  {
    ReachableInv(s);
  }

  /**
    * Disconnect frames are not tied to a channel: hal_comm_close sends on whichever is tuned. That is the
    * data channel exactly in the RAW state and once a RAW visit is over but the MGMT one not yet begun; it
    * is the management channel from the MGMT state to START_RAW, and the channel set at power-on before
    * the first MGMT visit.
    */
  lemma DisconnectOnTunedChannel(s: Link, fd: int, junk: byte)
    requires Inv(s) && 1 <= fd <= CONNECTION_COUNTER && s.peers[fd - 1].pipe != -1 && s.mac != NO_MAC
    ensures var air := CloseCall(s, fd, junk).s.hist.air;
            && |air| == |s.hist.air| + 1
            && var f, state := air[|s.hist.air|], s.sched.state;
               && f.kind == DisconnectFrame && f.pipe == fd
               && (f.rfCh == 22 && f.enAA == ALL_PIPES <==>
                     state == RAW || (state == START_MGMT && s.hist.visits != []))
               && (f.rfCh == 76 && f.enAA == NO_PIPES <==> state == MGMT || state == START_RAW)
               && (f.rfCh == 10 && f.enAA == NO_PIPES <==> state == START_MGMT && s.hist.visits == [])
  {
    hide Facts;
    var bytes := ControlPdu(OP_DISCONNECT, s.mac, s.peers[fd - 1].mac, junk);
    TransmitKeeps(s, DisconnectFrame, fd, bytes);
    assert CloseCall(s, fd, junk).s.hist.air == Transmit(s, DisconnectFrame, fd, bytes).hist.air;
    assert NO_PIPES[0] != ALL_PIPES[0];
  }

  /** A pipe opened and closed before any background step says goodbye on channel 10. */
  lemma DisconnectBeforeFirstVisit(mac: Mac, regs: Radio, junk: byte)
    requires |regs.rxLow| == 4 && mac != NO_MAC && Shape(Session(mac, regs))
    ensures var s := SocketCall(SocketCall(Session(mac, regs), false).s, true).s;
            var air := CloseCall(s, 1, junk).s.hist.air;
            |air| == 1 && air[0].kind == DisconnectFrame && air[0].rfCh == 10 && air[0].enAA == NO_PIPES
  {
    SessionStarts(mac, regs);
    hide Facts;
    var s1 := SocketCall(Session(mac, regs), false).s;
    SocketKeeps(Session(mac, regs), false);
    SocketKeeps(s1, true);
    var s := SocketCall(s1, true).s;
    assert s.hist.air == [] && s.hist.visits == [] && s.sched.state == START_MGMT;
    DisconnectOnTunedChannel(s, 1, junk);
  }

  // --- the RAW time slice ---

  /** raw_timeout is the sum of the windows of the pipes in use, or 10 if there are none. */
  predicate SliceFits(s: Link) {
    s.sched.rawTimeout == NewRawTime(s.bitmask)
  }

  /** The call opens a data pipe for a socket. */
  predicate OpensSocket(s: Link, c: Call) {
    c == Socket(true) && s.mgmt.pipe != -1 && !AllRaw(s.bitmask)
  }

  lemma AnotherPipeAnotherSum(m: Mask, i: nat)
    requires 1 <= i <= CONNECTION_COUNTER && !m[i]
    ensures NewRawTime(m[i := true]) > NewRawTime(m)
  {
  }

  /** What each pipe in use adds to the RAW time slice, in milliseconds. */
  const WINDOWS: seq<nat> := [15, 18, 22, 26, 30]

  /** raw_timeout pipe by pipe: each adds its own window, and none at all leaves 10 ms. */
  lemma PipeAddsItsWindow(m: Mask, i: nat)
    requires 1 <= i <= CONNECTION_COUNTER && !m[i]
    ensures NewRawTime(m[i := true]) == WINDOWS[i - 1] + if AnyRaw(m) then NewRawTime(m) else 0
    ensures !AnyRaw(m) ==> NewRawTime(m) == 10
  {
  }

  lemma FullTable(s: Link)
    requires Inv(s)
    ensures AllRaw(s.bitmask) <==> AllocPipe(s).1 == -1
  {
    hide Slots, GivenOk, KeepaliveOk, MailConserved, FreedOk, RequestOk, AirOk, VisitsOk, BcastOk, Pipe0Kept;
    assert forall i :: 0 <= i < CONNECTION_COUNTER ==> (s.bitmask[i + 1] <==> s.peers[i].pipe != -1);
    assert s.bitmask[1] == (s.peers[0].pipe != -1) && s.bitmask[2] == (s.peers[1].pipe != -1);
    assert s.bitmask[3] == (s.peers[2].pipe != -1) && s.bitmask[4] == (s.peers[3].pipe != -1);
    assert s.bitmask[5] == (s.peers[4].pipe != -1);
  }

  lemma SocketSlice(s: Link, raw: bool)
    requires Inv(s) && SliceFits(s)
    ensures SliceFits(SocketCall(s, raw).s) <==> !OpensSocket(s, Socket(raw))
  {
    FullTable(s);
    hide Slots, GivenOk, KeepaliveOk, MailConserved, FreedOk, RequestOk, AirOk, VisitsOk, BcastOk, Pipe0Kept;
    if OpensSocket(s, Socket(raw)) {
      var fd := AllocPipe(s).1;
      assert s.bitmask[fd - 1 + 1] <==> s.peers[fd - 1].pipe != -1;
      AnotherPipeAnotherSum(s.bitmask, fd);
    }
  }

  /** Every call leaves raw_timeout right, except the one that opens a data socket. */
  lemma CallSlice(s: Link, c: Call, e: Env)
    requires Inv(s) && CallOk(c) && SliceFits(s)
    ensures SliceFits(Perform(s, c, e).s) <==> !OpensSocket(s, c)
  {
    match c
    case Socket(raw) => SocketSlice(s, raw);
    case Listen => assert s.bitmask[0 := true] == s.bitmask;
    case _ => hide Facts;
  }

  /** Accepting a peer, or closing an open pipe, puts raw_timeout right whatever it was. */
  lemma SliceRestored(s: Link, c: Call, e: Env)
    requires Shape(s) && CallOk(c)
    requires Perform(s, c, e).s.bitmask != s.bitmask && (c.AcceptCall? || c.Close?)
    ensures SliceFits(Perform(s, c, e).s)
  {
  }

  /** So does a pipe that the background step frees. */
  lemma FreedSlice(s: Link, e: Env, i: nat)
    requires Shape(s) && EnvShape(e) && 1 <= i <= CONNECTION_COUNTER
    requires s.peers[i - 1].pipe != -1 && Running(s, e).peers[i - 1].pipe == -1
    ensures SliceFits(Running(s, e))
  {
    FreedMeansReported(s, e, i);
    hide Traffic, Supervise;
    var s1 := RawExit(s, e);
    TrafficFreesNothing(s1, i, e);
    var u := Stamp(Traffic(s1, i, e), e.t3);
    OnlyTimeOutFrees(u, i, e.t4, e.junk);
    assert SliceFits(TimeOut(u, i, e.t4));
  }

  lemma SuperviseSlice(s: Link, fd: nat, t: nat, junk: byte)
    requires Shape(s) && 1 <= fd <= CONNECTION_COUNTER && s.peers[fd - 1].pipe != -1 && SliceFits(s)
    ensures SliceFits(Supervise(s, fd, t, junk))
  {
  }

  lemma ServeSlice(s: Link, fd: nat, e: Env)
    requires Sound(s) && EnvOk(e, s.hist.now) && 1 <= fd <= CONNECTION_COUNTER
    requires Tuned(s.radio, RAW_CHANNEL, ALL_PIPES) && SliceFits(s)
    ensures SliceFits(Serve(s, fd, e))
  {
    if s.peers[fd - 1].pipe != -1 {
      TrafficKeeps(s, fd, e);
      hide Traffic;
      SuperviseSlice(Stamp(Traffic(s, fd, e), e.t3), fd, e.t4, e.junk);
    }
  }

  lemma PresenceLeavesSched(s: Link, e: Env)
    requires Shape(s)
    ensures PresenceConnect(s, e).sched == s.sched && PresenceConnect(s, e).bitmask == s.bitmask
  {
    hide HalTimeout;
  }

  lemma ExchangeLeavesSched(s: Link, e: Env)
    requires Shape(s) && EnvShape(e)
    ensures var t := WriteMgmt(ReadMgmt(s, e.mgmtIn), e.ackMgmt); t.sched == s.sched && t.bitmask == s.bitmask
  {
  }

  lemma MgmtLeavesTurn(s: Link, e: Env)
    requires Shape(s) && EnvShape(e)
    ensures var t := MgmtStep(s, e);
            && t.bitmask == s.bitmask
            && t.sched.rawTimeout == s.sched.rawTimeout && t.sched.sockIndex == s.sched.sockIndex
  {
    hide PresenceConnect, ReadMgmt, WriteMgmt;
    ExchangeLeavesSched(s, e);
    PresenceLeavesSched(WriteMgmt(ReadMgmt(s, e.mgmtIn), e.ackMgmt), e);
  }

  /** The background step keeps raw_timeout right: a pipe it frees is taken out of the sum. */
  lemma RunningSlice(s: Link, e: Env)
    requires Inv(s) && EnvOk(e, s.hist.now) && SliceFits(s)
    ensures SliceFits(Running(s, e))
  {
    hide Facts, Serve;
    match s.sched.state
    case RAW =>
      RawExitKeeps(s, e);
      ServeSlice(RawExit(s, e), s.sched.sockIndex, e);
    case MGMT => MgmtLeavesTurn(s, e);
    case _ =>
  }

  /**
    * "raw_timeout is the sum of the windows of the pipes in use" is kept by a call and its background
    * step exactly if the call does not open a data socket.
    */
  lemma SliceKeptIff(s: Link, a: Act)
    requires Inv(s) && CallOk(a.call) && EnvOk(a.env, s.hist.now) && SliceFits(s)
    ensures SliceFits(Next(s, a)) <==> !OpensSocket(s, a.call)
  {
    hide Facts, Running, Perform;
    if Runs(a.call) {
      RunningKeeps(s, a.env);
      RunningSlice(s, a.env);
      CallSlice(Running(s, a.env), a.call, a.env);
    } else {
      CallSlice(s, a.call, a.env);
    }
  }

  ghost predicate OpensNoSocket(s: Link, acts: seq<Act>)
    requires Shape(s) && RunOk(s, acts)
    decreases |acts|
  {
    acts != [] ==> !OpensSocket(s, acts[0].call) && OpensNoSocket(Next(s, acts[0]), acts[1..])
  }

  /** Along a run that opens no data socket, as on a node that only accepts, raw_timeout is always right. */
  lemma {:induction false} SliceKept(s: Link, acts: seq<Act>)
    requires Inv(s) && RunOk(s, acts) && SliceFits(s) && OpensNoSocket(s, acts)
    ensures SliceFits(Run(s, acts))
    decreases |acts|
  {
    hide Facts, Perform;
    if acts != [] {
      SliceKeptIff(s, acts[0]);
      StepKeeps(s, acts[0].call, acts[0].env);
      SliceKept(Next(s, acts[0]), acts[1..]);
    }
  }

  /** After the first socket the slice is 10 ms where the sum is 15. */
  lemma SocketLeavesRawTimeout(s: Link)
    requires Inv(s) && s.mgmt.pipe == 0 && s.sched.rawTimeout == NewRawTime(s.bitmask)
    requires forall i :: 0 <= i < CONNECTION_COUNTER ==> s.peers[i].pipe == -1
    ensures var t := SocketCall(s, true).s;
            t.peers[0].pipe == 1 && t.sched.rawTimeout == 10 && NewRawTime(t.bitmask) == 15
  {
    assert s.peers[0].pipe == -1 && s.peers[1].pipe == -1 && s.peers[2].pipe == -1;
    assert s.peers[3].pipe == -1 && s.peers[4].pipe == -1;
    AllocKeeps(s, AddressFor(s.mac, 1));
  }
}
