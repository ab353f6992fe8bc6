/** Over whole sessions the radio holds, for every allocated pipe, the address it was opened with. */
module LinkAddresses {
  import opened Bytes
  import opened Nrf24l01
  import opened PhyDriverNrf24
  import opened LinkPdu
  import opened LinkSpec
  import opened LinkRuns
  import RR = RadioRefinement

  predicate InUse(s: Link, p: nat)
    requires Shape(s)
  {
    1 <= p <= CONNECTION_COUNTER && s.peers[p - 1].pipe != -1
  }

  /** The plain map the link layer believes in. */
  function NodeMap(s: Link): (m: RR.PipeMap)
    requires Shape(s)
    ensures forall p :: p in m <==> InUse(s, p) || (p == 0 && s.mgmt.pipe == 0)
  {
    var data := map p: nat | p <= CONNECTION_COUNTER && InUse(s, p) :: s.hist.addrs[p - 1];
    if s.mgmt.pipe == 0 then data[0 := BROADCAST_ADDRESS] else data
  }

  ghost predicate Addressed(s: Link) {
    Shape(s) && RR.Refines(s.radio, NodeMap(s))
  }

  /** What the map depends on. */
  ghost predicate SameOpen(s: Link, t: Link)
    requires Shape(s) && Shape(t)
  {
    SamePipes(s, t) && t.hist.addrs == s.hist.addrs && t.mgmt.pipe == s.mgmt.pipe
  }

  lemma SameOpenSameMap(s: Link, t: Link)
    requires Shape(s) && Shape(t) && SameOpen(s, t)
    ensures NodeMap(t) == NodeMap(s)
  {
  }

  lemma TransmitCarries(s: Link, kind: Kind, pipe: nat, bytes: seq<byte>)
    requires Addressed(s)
    ensures Addressed(Transmit(s, kind, pipe, bytes)) && SameOpen(s, Transmit(s, kind, pipe, bytes))
  {
    RR.TransmissionInvisible(s.radio, NodeMap(s), pipe);
    SameOpenSameMap(s, Transmit(s, kind, pipe, bytes));
  }

  lemma QuietCarries(s: Link, t: Link)
    requires Addressed(s) && Shape(t) && SameOpen(s, t) && t.radio == s.radio
    ensures Addressed(t)
  {
    SameOpenSameMap(s, t);
  }

  lemma ClosedMap(s: Link, t: Link, fd: nat)
    requires Shape(s) && Shape(t) && 1 <= fd <= CONNECTION_COUNTER
    requires OthersSame(s, t, fd) && t.peers[fd - 1].pipe == -1
    requires t.hist.addrs == s.hist.addrs && t.mgmt.pipe == s.mgmt.pipe
    ensures NodeMap(t) == NodeMap(s) - {fd}
  {
    assert forall p: nat :: InUse(t, p) <==> InUse(s, p) && p != fd;
  }

  lemma FreeCarries(s: Link, fd: nat)
    requires Addressed(s) && 1 <= fd <= CONNECTION_COUNTER && s.peers[fd - 1].pipe != -1
    ensures Addressed(FreePipe(s, fd)) && FreePipe(s, fd).hist == s.hist
  {
    ClosedMap(s, FreePipe(s, fd), fd);
    RR.CloseRefines(s.radio, NodeMap(s), fd);
  }

  /** Opening pipe fd for address aa agrees on bytes 1 to 4 with the data pipes in use. */
  predicate TailFits(s: Link, aa: Addr)
    requires Shape(s)
  {
    forall i :: 0 <= i < CONNECTION_COUNTER && s.peers[i].pipe != -1 ==> s.hist.addrs[i][1..] == aa[1..]
  }

  lemma AllocMap(s: Link, aa: Addr)
    requires Shape(s) && AllocPipe(s).1 > 0
    ensures var (t, fd) := AllocPipe(s);
            && NodeMap(OpenFor(t, fd, aa)) == NodeMap(s)[fd := aa] && fd !in NodeMap(s)
            && OpenFor(t, fd, aa).radio == Ioctl(s.radio, SetPipe(fd, aa))
  {
    hide Ioctl, PeerShape;
    var (t, fd) := AllocPipe(s);
    var u := OpenFor(t, fd, aa);
    assert forall p: nat :: InUse(u, p) <==> InUse(s, p) || p == fd;
  }

  lemma AllocCarries(s: Link, aa: Addr)
    requires Addressed(s) && AllocPipe(s).1 > 0 && TailFits(s, aa)
    ensures var (t, fd) := AllocPipe(s); Addressed(OpenFor(t, fd, aa))
  {
    var fd := AllocPipe(s).1;
    AllocMap(s, aa);
    RR.OpenRefines(s.radio, NodeMap(s), fd, aa);
  }

  // --- the background step ---

  lemma FrameCarries(s: Link, fd: nat, f: Heard, junk: byte)
    requires Addressed(s) && 1 <= fd <= CONNECTION_COUNTER && RawFrame(f)
    ensures var t := HandleFrame(s, fd, f, junk); Addressed(t) && SameOpen(s, t)
  {
    var s1 := Alive(s, fd, f.at);
    QuietCarries(s, s1);
    var p := s1.peers[fd - 1];
    if Lid(f) == LID_CONTROL && f.buf[2] == OP_KEEPALIVE_REQ && f.buf[3..11] == p.mac && f.buf[11..19] == s.mac {
      TransmitCarries(s1, KeepaliveRsp, fd, ControlPdu(OP_KEEPALIVE_RSP, s.mac, p.mac, junk));
    } else {
      QuietCarries(s1, HandleFrame(s, fd, f, junk));
    }
  }

  lemma {:induction false} ReadRawCarries(s: Link, fd: nat, fs: seq<Heard>, junk: byte)
    requires Addressed(s) && 1 <= fd <= CONNECTION_COUNTER
    requires forall i :: 0 <= i < |fs| ==> RawFrame(fs[i])
    ensures var t := ReadRaw(s, fd, fs, junk); Addressed(t) && SameOpen(s, t)
    decreases |fs|
  {
    if fs != [] {
      var init := fs[..|fs| - 1];
      ReadRawCarries(s, fd, init, junk);
      FrameCarries(ReadRaw(s, fd, init, junk), fd, fs[|fs| - 1], junk);
    }
  }

  lemma SameOpenChain(s: Link, t: Link, u: Link)
    requires Shape(s) && Shape(t) && Shape(u) && SameOpen(s, t) && SameOpen(t, u)
    ensures SameOpen(s, u)
  {
  }

  lemma SendOneCarries(s: Link, fd: nat, left: nat, junk: byte)
    requires Addressed(s) && 1 <= fd <= CONNECTION_COUNTER && 1 <= left <= s.peers[fd - 1].lenTx
    ensures Addressed(SendOne(s, fd, left, junk)) && SameOpen(s, SendOne(s, fd, left, junk))
  {
    TransmitCarries(s, DataFrame, fd, DataBytes(s.peers[fd - 1], left, junk));
  }

  lemma CountSentCarries(s: Link, fd: nat)
    requires Addressed(s) && 1 <= fd <= CONNECTION_COUNTER
    ensures Addressed(CountSent(s, fd)) && SameOpen(s, CountSent(s, fd))
  {
    QuietCarries(s, CountSent(s, fd));
  }

  lemma ClearTxCarries(s: Link, fd: nat)
    requires Addressed(s) && 1 <= fd <= CONNECTION_COUNTER
    ensures Addressed(ClearTx(s, fd)) && SameOpen(s, ClearTx(s, fd))
  {
    QuietCarries(s, ClearTx(s, fd));
  }

  lemma {:induction false} SendFromCarries(s: Link, fd: nat, left: nat, k: nat, acked: nat, junk: byte)
    requires Addressed(s) && 1 <= fd <= CONNECTION_COUNTER && left <= s.peers[fd - 1].lenTx
    ensures var t := SendFrom(s, fd, left, k, acked, junk); Addressed(t) && SameOpen(s, t)
    decreases left
  {
    hide SendFrom, SendOne, CountSent, ClearTx, SameOpen;
    SendFromTurn(s, fd, left, k, acked, junk);
    if left == 0 {
      ClearTxCarries(s, fd);
    } else {
      SendOneCarries(s, fd, left, junk);
      var t := SendOne(s, fd, left, junk);
      if k >= acked {
        ClearTxCarries(t, fd);
      } else {
        CountSentCarries(t, fd);
        SameOpenChain(s, t, CountSent(t, fd));
        SendFromCarries(CountSent(t, fd), fd, left - Min(left, PW_MSG_SIZE), k + 1, acked, junk);
      }
      SameOpenChain(s, if k >= acked then t else CountSent(t, fd), SendFrom(s, fd, left, k, acked, junk));
    }
  }

  lemma TrafficCarries(s: Link, fd: nat, e: Env)
    requires Addressed(s) && EnvShape(e) && 1 <= fd <= CONNECTION_COUNTER
    ensures Addressed(Traffic(s, fd, e)) && SameOpen(s, Traffic(s, fd, e))
  {
    ReadRawCarries(s, fd, e.rawIn, e.junk);
    var t := ReadRaw(s, fd, e.rawIn, e.junk);
    SendFromCarries(t, fd, t.peers[fd - 1].lenTx, 0, e.acked, e.junk);
    if t.peers[fd - 1].lenTx != 0 {
      QuietCarries(SendFrom(t, fd, t.peers[fd - 1].lenTx, 0, e.acked, e.junk), Traffic(s, fd, e));
    }
  }

  /** Pipes may close, but those that stay keep their addresses. */
  ghost predicate OnlyCloses(s: Link, t: Link)
    requires Shape(s) && Shape(t)
  {
    && t.hist.addrs == s.hist.addrs && t.mgmt.pipe == s.mgmt.pipe
    && forall i :: 0 <= i < CONNECTION_COUNTER ==> t.peers[i].pipe == s.peers[i].pipe || t.peers[i].pipe == -1
  }

  lemma SuperviseCarries(s: Link, fd: nat, t: nat, junk: byte)
    requires Addressed(s) && 1 <= fd <= CONNECTION_COUNTER && s.peers[fd - 1].pipe != -1
    ensures Addressed(Supervise(s, fd, t, junk)) && OnlyCloses(s, Supervise(s, fd, t, junk))
  {
    if Silent(s.peers[fd - 1], t) {
      if s.mgmt.lenRx == 0 {
        TimeOutCarries(s, fd, t);
      }
    } else if RequestDue(s.peers[fd - 1], t) {
      RequestCarries(s, fd, junk);
    }
  }

  lemma RequestCarries(s: Link, fd: nat, junk: byte)
    requires Addressed(s) && 1 <= fd <= CONNECTION_COUNTER
    ensures Addressed(Request(s, fd, junk)) && SameOpen(s, Request(s, fd, junk))
  {
    var u := CountAttempt(s, fd);
    QuietCarries(s, u);
    TransmitCarries(u, KeepaliveReq, fd, ControlPdu(OP_KEEPALIVE_REQ, s.mac, s.peers[fd - 1].mac, junk));
  }

  lemma TimeOutCarries(s: Link, fd: nat, t: nat)
    requires Addressed(s) && 1 <= fd <= CONNECTION_COUNTER && s.peers[fd - 1].pipe != -1
    ensures Addressed(TimeOut(s, fd, t)) && OnlyCloses(s, TimeOut(s, fd, t))
  {
    var q := Queue(s, DisconnectedEvent(s.mgmt.bufferRx, s.peers[fd - 1].mac), DISCONNECTED_LEN);
    QuietCarries(s, q);
    FreeCarries(q, fd);
    QuietCarries(FreePipe(q, fd), TimeOut(s, fd, t));
  }

  lemma ServeCarries(s: Link, fd: nat, e: Env)
    requires Addressed(s) && EnvShape(e) && 1 <= fd <= CONNECTION_COUNTER
    ensures Addressed(Serve(s, fd, e)) && OnlyCloses(s, Serve(s, fd, e))
  {
    if s.peers[fd - 1].pipe != -1 {
      TrafficCarries(s, fd, e);
      var t := Traffic(s, fd, e);
      QuietCarries(t, Stamp(t, e.t3));
      SuperviseCarries(Stamp(t, e.t3), fd, e.t4, e.junk);
    }
  }

  lemma RawStepCarries(s: Link, e: Env)
    requires Addressed(s) && EnvShape(e)
    ensures Addressed(RawStep(s, e)) && OnlyCloses(s, RawStep(s, e))
  {
    var s1 := RawExit(s, e);
    QuietCarries(s, s1);
    ServeCarries(s1, s.sched.sockIndex, e);
    var s2 := Serve(s1, s.sched.sockIndex, e);
    QuietCarries(s2, NextSock(s2));
  }

  lemma IoctlCarries(s: Link, t: Link, cmd: Cmd)
    requires Addressed(s) && !cmd.SetPipe? && !cmd.ResetPipe?
    requires Shape(t) && SameOpen(s, t) && t.radio == Ioctl(s.radio, cmd)
    ensures Addressed(t)
  {
    RR.OtherControlRefines(s.radio, NodeMap(s), cmd);
    SameOpenSameMap(s, t);
  }

  lemma PresenceCarries(s: Link, e: Env)
    requires Addressed(s)
    ensures Addressed(PresenceConnect(s, e)) && SameOpen(s, PresenceConnect(s, e))
  {
    var t := PresenceConnect(s, e);
    match s.bcast.state
    case PRESENCE =>
      if s.mac != NO_MAC {
        var bytes := PresencePdu(s.mac, THING_NAME, e.junk);
        TransmitCarries(s, PresenceFrame, 0, bytes);
        QuietCarries(Transmit(s, PresenceFrame, 0, bytes), t);
      }
    case STANDBY => IoctlCarries(s, t, SetStandby);
    case _ => QuietCarries(s, t);
  }

  lemma ExchangeCarries(s: Link, e: Env)
    requires Addressed(s) && EnvShape(e)
    ensures var t := WriteMgmt(ReadMgmt(s, e.mgmtIn), e.ackMgmt); Addressed(t) && SameOpen(s, t)
  {
    var s1 := ReadMgmt(s, e.mgmtIn);
    QuietCarries(s, s1);
    if s1.mgmt.lenTx != 0 {
      TransmitCarries(s1, ConnectFrame, 0, s1.mgmt.bufferTx[..s1.mgmt.lenTx]);
      QuietCarries(Transmit(s1, ConnectFrame, 0, s1.mgmt.bufferTx[..s1.mgmt.lenTx]), WriteMgmt(s1, e.ackMgmt));
    }
  }

  lemma MgmtStepCarries(s: Link, e: Env)
    requires Addressed(s) && EnvShape(e)
    ensures Addressed(MgmtStep(s, e)) && OnlyCloses(s, MgmtStep(s, e))
  {
    ExchangeCarries(s, e);
    var s1 := WriteMgmt(ReadMgmt(s, e.mgmtIn), e.ackMgmt);
    var s2 := if s1.listen then PresenceConnect(s1, e) else s1;
    if s1.listen {
      PresenceCarries(s1, e);
    }
    QuietCarries(s2, MgmtStep(s, e));
  }

  lemma RunningCarries(s: Link, e: Env)
    requires Addressed(s) && EnvShape(e)
    ensures Addressed(Running(s, e)) && OnlyCloses(s, Running(s, e))
  {
    match s.sched.state {
      case START_MGMT => IoctlCarries(s, Running(s, e), SetCh(MGMT_CHANNEL, false));
      case MGMT => MgmtStepCarries(s, e); QuietCarries(MgmtStep(s, e), Running(s, e));
      case START_RAW => IoctlCarries(s, Running(s, e), SetCh(RAW_CHANNEL, true));
      case RAW => RawStepCarries(s, e); QuietCarries(RawStep(s, e), Running(s, e));
    }
  }

  // --- the interface ---

  /** The one thing a caller has to see to: a pipe is opened only for an address whose tail fits. */
  predicate TailsFit(s: Link, c: Call)
    requires Shape(s)
  {
    match c
    case Socket(raw) => raw && s.mgmt.pipe != -1 ==> TailFits(s, AddressFor(s.mac, 1))
    case AcceptCall => s.mgmt.lenRx != 0 && ConnectedPending(s) ==> TailFits(s, s.mgmt.bufferRx[20..25])
    case _ => true
  }

  lemma SocketCarries(s: Link, raw: bool)
    requires Addressed(s) && TailsFit(s, Socket(raw)) && (s.mgmt.pipe == -1 || s.mgmt.pipe == 0)
    ensures Addressed(SocketCall(s, raw).s)
  {
    if raw && s.mgmt.pipe != -1 {
      var fd := AllocPipe(s).1;
      if fd > 0 {
        assert AddressFor(s.mac, fd)[1..] == AddressFor(s.mac, 1)[1..];
        AllocCarries(s, AddressFor(s.mac, fd));
      }
    } else if s.mgmt.pipe != 0 {
      RR.OpenRefines(s.radio, NodeMap(s), 0, BROADCAST_ADDRESS);
      assert NodeMap(SocketCall(s, raw).s) == NodeMap(s)[0 := BROADCAST_ADDRESS];
    }
  }

  lemma AcceptCarries(s: Link, t: nat)
    requires Addressed(s) && TailsFit(s, AcceptCall)
    ensures Addressed(AcceptFrom(s, t).s)
  {
    hide RR.Refines, NodeMap;
    if s.mgmt.lenRx != 0 {
      var s1 := Consume(s);
      QuietCarries(s, s1);
      var (s2, fd) := AllocPipe(s1);
      if ConnectedPending(s) && fd > 0 {
        AllocCarries(s1, s.mgmt.bufferRx[20..25]);
        QuietCarries(OpenFor(s2, fd, s.mgmt.bufferRx[20..25]), AcceptFrom(s, t).s);
      }
    }
  }

  lemma CloseCarries(s: Link, fd: int, junk: byte)
    requires Addressed(s)
    ensures Addressed(CloseCall(s, fd, junk).s)
  {
    if 1 <= fd <= 5 && s.peers[fd - 1].pipe != -1 {
      var bytes := ControlPdu(OP_DISCONNECT, s.mac, s.peers[fd - 1].mac, junk);
      TransmitCarries(s, DisconnectFrame, fd, bytes);
      FreeCarries(if s.mac != NO_MAC then Transmit(s, DisconnectFrame, fd, bytes) else s, fd);
    }
  }

  lemma PerformCarries(s: Link, c: Call, e: Env)
    requires Addressed(s) && CallOk(c) && TailsFit(s, c) && (s.mgmt.pipe == -1 || s.mgmt.pipe == 0)
    ensures Addressed(Perform(s, c, e).s)
  {
    match c
    case Socket(raw) => SocketCarries(s, raw);
    case AcceptCall => AcceptCarries(s, e.t5);
    case Close(fd) => CloseCarries(s, fd, e.junk);
    case _ => QuietCallCarries(s, c, e);
  }

  lemma QuietCallCarries(s: Link, c: Call, e: Env)
    requires Addressed(s) && CallOk(c) && (c.Listen? || c.Read? || c.Write? || c.Connect?)
    ensures Addressed(Perform(s, c, e).s)
  {
    hide RR.Refines, NodeMap, Patch, ConnectPdu;
    match c
    case Read(_, count) => QuietCarries(s, ReadCall(s, c.fd, count).s);
    case Write(_, data) => QuietCarries(s, WriteCall(s, c.fd, data).s);
    case Connect(_, dst) => QuietCarries(s, ConnectTo(s, c.fd, dst, e.t5).s);
    case Listen => QuietCarries(s, ListenCall(s).s);
  }

  lemma MgmtPipeRange(s: Link, c: Call, e: Env)
    requires Shape(s) && CallOk(c) && (s.mgmt.pipe == -1 || s.mgmt.pipe == 0)
    ensures Perform(s, c, e).s.mgmt.pipe == -1 || Perform(s, c, e).s.mgmt.pipe == 0
  {
  }

  /** Where a call's own work starts: after the background step, if it runs one. */
  function Before(s: Link, a: Act): (t: Link)
    requires Shape(s) && EnvShape(a.env)
    ensures Shape(t)
  {
    if Runs(a.call) then Running(s, a.env) else s
  }

  ghost predicate FittingRun(s: Link, acts: seq<Act>)
    requires Shape(s) && RunOk(s, acts)
    decreases |acts|
  {
    acts != [] ==> TailsFit(Before(s, acts[0]), acts[0].call) && FittingRun(Next(s, acts[0]), acts[1..])
  }

  ghost predicate AddressedNode(s: Link) {
    Addressed(s) && (s.mgmt.pipe == -1 || s.mgmt.pipe == 0)
  }

  lemma StepCarries(s: Link, a: Act)
    requires AddressedNode(s) && CallOk(a.call) && EnvShape(a.env) && TailsFit(Before(s, a), a.call)
    ensures AddressedNode(Next(s, a))
  {
    if Runs(a.call) {
      RunningCarries(s, a.env);
    }
    var t := Before(s, a);
    PerformCarries(t, a.call, a.env);
    MgmtPipeRange(t, a.call, a.env);
    QuietCarries(Perform(t, a.call, a.env).s, Next(s, a));
  }

  lemma {:induction false} RunCarries(s: Link, acts: seq<Act>)
    requires AddressedNode(s) && RunOk(s, acts) && FittingRun(s, acts)
    ensures AddressedNode(Run(s, acts))
    decreases |acts|
  {
    if acts != [] {
      StepCarries(s, acts[0]);
      RunCarries(Next(s, acts[0]), acts[1..]);
    }
  }

  lemma SessionAddressed(mac: Mac, regs: Radio)
    requires |regs.rxLow| == 4 && Shape(Session(mac, regs))
    ensures AddressedNode(Session(mac, regs))
  {
    RR.PowerOnRefines(regs.(pipe0Open := false), 3);
    assert NodeMap(Session(mac, regs)) == map[];
  }

  lemma AddressedSends(s: Link, p: nat)
    requires Addressed(s) && 1 <= p <= CONNECTION_COUNTER
    ensures s.peers[p - 1].pipe != -1 ==> SetPtx(s.radio, p).txAddr == s.hist.addrs[p - 1]
    ensures s.mgmt.pipe == 0 ==> SetPtx(s.radio, 0).txAddr == BROADCAST_ADDRESS
  {
    if InUse(s, p) {
      RR.SendLoadsPipeAddress(s.radio, NodeMap(s), p);
    }
    if s.mgmt.pipe == 0 {
      RR.SendLoadsPipeAddress(s.radio, NodeMap(s), 0);
    }
  }

  /**
    * Over a whole session in which every pipe is opened for a fitting address: a frame on an allocated
    * pipe goes to the address that pipe was opened with, and management frames to the broadcast address.
    */
  lemma {:induction false} FramesGoWhereOpened(mac: Mac, regs: Radio, acts: seq<Act>, p: nat)
    requires |regs.rxLow| == 4 && Shape(Session(mac, regs)) && RunOk(Session(mac, regs), acts)
    requires FittingRun(Session(mac, regs), acts)
    requires 1 <= p <= CONNECTION_COUNTER
    ensures var s := Run(Session(mac, regs), acts);
            && (s.peers[p - 1].pipe != -1 ==> SetPtx(s.radio, p).txAddr == s.hist.addrs[p - 1])
            && (s.mgmt.pipe == 0 ==> SetPtx(s.radio, 0).txAddr == BROADCAST_ADDRESS)
  {
    SessionAddressed(mac, regs);
    RunCarries(Session(mac, regs), acts);
    AddressedSends(Run(Session(mac, regs), acts), p);
  }
}
