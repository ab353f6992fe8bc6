/**
  * A connect request over whole runs: how long the connecter repeats it on the air, and how long the
  * event it becomes waits in the mailbox of the node it is for.
  */
module LinkRequests {
  import opened Bytes
  import opened HalTime
  import opened LinkPdu
  import opened LinkSpec
  import opened LinkRuns

  /** The waiting request is untouched and none has gone out. */
  ghost predicate SameRequest(s: Link, t: Link) {
    && t.mgmt.bufferTx == s.mgmt.bufferTx && t.mgmt.lenTx == s.mgmt.lenTx
    && s.hist.air <= t.hist.air
    && forall k :: |s.hist.air| <= k < |t.hist.air| ==> t.hist.air[k].kind != ConnectFrame
  }

  /** A pending event is untouched. */
  ghost predicate SameEvent(s: Link, t: Link) {
    s.mgmt.lenRx != 0 ==> t.mgmt.lenRx == s.mgmt.lenRx && t.mgmt.bufferRx == s.mgmt.bufferRx
  }

  ghost predicate Apart(s: Link, t: Link) {
    SameRequest(s, t) && SameEvent(s, t)
  }

  lemma ApartChain(s: Link, t: Link, u: Link)
    requires Apart(s, t) && Apart(t, u)
    ensures Apart(s, u)
  {
  }

  lemma SameIsApart(s: Link, t: Link)
    requires t.mgmt.bufferTx == s.mgmt.bufferTx && t.mgmt.lenTx == s.mgmt.lenTx && t.hist.air == s.hist.air
    requires t.mgmt.bufferRx == s.mgmt.bufferRx && t.mgmt.lenRx == s.mgmt.lenRx
    ensures Apart(s, t)
  {
  }

  // --- the data channel has nothing to do with either ---

  lemma FrameApart(s: Link, fd: nat, f: Heard, junk: byte)
    requires Shape(s) && 1 <= fd <= CONNECTION_COUNTER && RawFrame(f)
    ensures Apart(s, HandleFrame(s, fd, f, junk))
  {
  }

  lemma {:induction false} ReadRawApart(s: Link, fd: nat, fs: seq<Heard>, junk: byte)
    requires Shape(s) && 1 <= fd <= CONNECTION_COUNTER
    requires forall i :: 0 <= i < |fs| ==> RawFrame(fs[i])
    ensures Apart(s, ReadRaw(s, fd, fs, junk))
    decreases |fs|
  {
    hide SameRequest, SameEvent, HandleFrame;
    if fs == [] {
      SameIsApart(s, s);
    } else {
      var init, f := fs[..|fs| - 1], fs[|fs| - 1];
      ReadRawApart(s, fd, init, junk);
      FrameApart(ReadRaw(s, fd, init, junk), fd, f, junk);
      ApartChain(s, ReadRaw(s, fd, init, junk), ReadRaw(s, fd, fs, junk));
    }
  }

  lemma TurnApart(s: Link, fd: nat, left: nat, junk: byte)
    requires Shape(s) && 1 <= fd <= CONNECTION_COUNTER && 1 <= left <= s.peers[fd - 1].lenTx
    ensures Apart(s, SendOne(s, fd, left, junk)) && Apart(s, CountSent(SendOne(s, fd, left, junk), fd))
    ensures Apart(s, ClearTx(SendOne(s, fd, left, junk), fd))
  {
  }

  lemma ClearApart(s: Link, fd: nat)
    requires Shape(s) && 1 <= fd <= CONNECTION_COUNTER
    ensures Apart(s, ClearTx(s, fd))
  {
  }

  lemma {:induction false} SendFromApart(s: Link, fd: nat, left: nat, k: nat, acked: nat, junk: byte)
    requires Shape(s) && 1 <= fd <= CONNECTION_COUNTER && left <= s.peers[fd - 1].lenTx
    ensures Apart(s, SendFrom(s, fd, left, k, acked, junk))
    decreases left
  {
    hide SendFrom, SendOne, CountSent, ClearTx, SameRequest, SameEvent, PeerShape;
    SendFromTurn(s, fd, left, k, acked, junk);
    if left == 0 {
      ClearApart(s, fd);
    } else {
      TurnApart(s, fd, left, junk);
      if k < acked {
        var t := CountSent(SendOne(s, fd, left, junk), fd);
        SendFromApart(t, fd, left - Min(left, PW_MSG_SIZE), k + 1, acked, junk);
        ApartChain(s, t, SendFrom(s, fd, left, k, acked, junk));
      }
    }
  }

  lemma TrafficApart(s: Link, fd: nat, e: Env)
    requires Shape(s) && EnvShape(e) && 1 <= fd <= CONNECTION_COUNTER
    ensures Apart(s, Traffic(s, fd, e))
  {
    hide SameRequest, SameEvent, ReadRaw, SendFrom;
    ReadRawApart(s, fd, e.rawIn, e.junk);
    var t := ReadRaw(s, fd, e.rawIn, e.junk);
    if t.peers[fd - 1].lenTx != 0 {
      var u := SendFrom(t, fd, t.peers[fd - 1].lenTx, 0, e.acked, e.junk);
      SendFromApart(t, fd, t.peers[fd - 1].lenTx, 0, e.acked, e.junk);
      ApartChain(s, t, u);
      SameIsApart(u, Traffic(s, fd, e));
      ApartChain(s, u, Traffic(s, fd, e));
    }
  }

  lemma SuperviseApart(s: Link, fd: nat, t: nat, junk: byte)
    requires Shape(s) && 1 <= fd <= CONNECTION_COUNTER && s.peers[fd - 1].pipe != -1
    ensures Apart(s, Supervise(s, fd, t, junk))
  {
  }

  lemma ServeApart(s: Link, fd: nat, e: Env)
    requires Shape(s) && EnvShape(e) && 1 <= fd <= CONNECTION_COUNTER
    ensures Apart(s, Serve(s, fd, e))
  {
    hide SameRequest, SameEvent, Traffic, Supervise;
    if s.peers[fd - 1].pipe == -1 {
      SameIsApart(s, s);
    } else {
      TrafficApart(s, fd, e);
      var t := Traffic(s, fd, e);
      SameIsApart(t, Stamp(t, e.t3));
      SuperviseApart(Stamp(t, e.t3), fd, e.t4, e.junk);
      ApartChain(s, t, Stamp(t, e.t3));
      ApartChain(s, Stamp(t, e.t3), Serve(s, fd, e));
    }
  }

  /** Away from the MGMT state the background step has nothing to do with requests and pending events. */
  lemma RunningApart(s: Link, e: Env)
    requires Shape(s) && EnvShape(e) && s.sched.state != MGMT
    ensures Apart(s, Running(s, e))
  {
    hide SameRequest, SameEvent, Serve;
    if s.sched.state == RAW {
      var s1 := RawExit(s, e);
      SameIsApart(s, s1);
      ServeApart(s1, s.sched.sockIndex, e);
      ApartChain(s, s1, Serve(s1, s.sched.sockIndex, e));
      SameIsApart(Serve(s1, s.sched.sockIndex, e), Running(s, e));
      ApartChain(s, Serve(s1, s.sched.sockIndex, e), Running(s, e));
    } else {
      SameIsApart(s, Running(s, e));
    }
  }

  lemma PresenceApart(s: Link, e: Env)
    requires Shape(s)
    ensures Apart(s, PresenceConnect(s, e))
  {
    hide HalTimeout;
  }

  /** Of one MGMT step, what comes after the exchange of frames. */
  lemma AfterExchange(s: Link, e: Env)
    requires Shape(s) && EnvShape(e) && s.sched.state == MGMT
    ensures Apart(WriteMgmt(ReadMgmt(s, e.mgmtIn), e.ackMgmt), Running(s, e))
  {
    hide SameRequest, SameEvent, ReadMgmt, WriteMgmt, PresenceConnect, LeaveMgmt;
    var s1 := WriteMgmt(ReadMgmt(s, e.mgmtIn), e.ackMgmt);
    SameIsApart(s1, s1);
    PresenceApart(s1, e);
    var s2 := if s1.listen then PresenceConnect(s1, e) else s1;
    SameIsApart(s2, Running(s, e));
    ApartChain(s1, s2, Running(s, e));
  }

  // --- the connecter ---

  /** A ConnectFrame with these bytes is on the air from the n-th frame on. */
  ghost predicate WentOut(air: seq<Sent>, n: nat, req: seq<byte>) {
    exists k :: n <= k < |air| && IsRequest(air[k], req)
  }

  predicate IsRequest(f: Sent, req: seq<byte>) {
    f.kind == ConnectFrame && f.bytes == req
  }

  /**
    * The request made when n frames were on the air: still in the buffer and waiting unless it has gone
    * out, and the only request to have gone out since.
    */
  ghost predicate Asking(s: Link, n: nat, req: seq<byte>)
    requires Shape(s)
  {
    && s.mgmt.bufferTx[..CONNECT_LEN] == req && n <= |s.hist.air|
    && (s.mgmt.lenTx == CONNECT_LEN || (s.mgmt.lenTx == 0 && WentOut(s.hist.air, n, req)))
    && forall k :: n <= k < |s.hist.air| && s.hist.air[k].kind == ConnectFrame ==> s.hist.air[k].bytes == req
  }

  lemma ApartKeepsAsking(s: Link, t: Link, n: nat, req: seq<byte>)
    requires Shape(s) && Shape(t) && Asking(s, n, req) && SameRequest(s, t)
    ensures Asking(t, n, req)
  {
    if s.mgmt.lenTx == 0 {
      var k :| n <= k < |s.hist.air| && IsRequest(s.hist.air[k], req);
      assert t.hist.air[k] == s.hist.air[k];
    }
  }

  /** One MGMT step repeats a waiting request, and drops it exactly if it was acknowledged. */
  lemma WriteMgmtAsks(s: Link, acked: bool, n: nat, req: seq<byte>)
    requires Shape(s) && Asking(s, n, req)
    ensures var t := WriteMgmt(s, acked);
            && Asking(t, n, req)
            && (s.mgmt.lenTx != 0 ==> WentOut(t.hist.air, |s.hist.air|, req) && (t.mgmt.lenTx == 0 <==> acked))
  {
    var t := WriteMgmt(s, acked);
    if s.mgmt.lenTx == 0 {
      assert t == s;
    } else {
      assert IsRequest(t.hist.air[|s.hist.air|], req);
    }
  }

  lemma MgmtStepAsks(s: Link, e: Env, n: nat, req: seq<byte>)
    requires Shape(s) && EnvShape(e) && s.sched.state == MGMT && Asking(s, n, req)
    ensures var t := Running(s, e);
            && Asking(t, n, req)
            && (s.mgmt.lenTx != 0 ==> WentOut(t.hist.air, |s.hist.air|, req) && (t.mgmt.lenTx == 0 <==> e.ackMgmt))
  {
    hide WriteMgmt, Asking, Running, IsRequest;
    var s0 := ReadMgmt(s, e.mgmtIn);
    ReadMgmtSends(s, e);
    ApartKeepsAsking(s, s0, n, req);
    WriteMgmtAsks(s0, e.ackMgmt, n, req);
    var s1, t := WriteMgmt(s0, e.ackMgmt), Running(s, e);
    AfterExchange(s, e);
    ApartKeepsAsking(s1, t, n, req);
    if s.mgmt.lenTx != 0 {
      var k :| |s.hist.air| <= k < |s1.hist.air| && IsRequest(s1.hist.air[k], req);
      assert t.hist.air[k] == s1.hist.air[k];
    }
  }

  lemma ReadMgmtSends(s: Link, e: Env)
    requires Shape(s) && EnvShape(e)
    ensures SameRequest(s, ReadMgmt(s, e.mgmtIn)) && ReadMgmt(s, e.mgmtIn).hist.air == s.hist.air
  {
  }

  /**
    * The background step: in the MGMT state a waiting request goes out once more, and stops waiting
    * exactly if it was acknowledged; in the other states nothing happens to it.
    */
  lemma RequestRepeated(s: Link, e: Env, n: nat, req: seq<byte>)
    requires Shape(s) && EnvShape(e) && Asking(s, n, req)
    ensures var t := Running(s, e);
            && Asking(t, n, req)
            && (s.mgmt.lenTx != 0 ==>
                  && (WentOut(t.hist.air, |s.hist.air|, req) <==> s.sched.state == MGMT)
                  && (t.mgmt.lenTx == 0 <==> s.sched.state == MGMT && e.ackMgmt))
  {
    if s.sched.state == MGMT {
      MgmtStepAsks(s, e, n, req);
    } else {
      RunningApart(s, e);
      hide Running;
      ApartKeepsAsking(s, Running(s, e), n, req);
    }
  }

  /** A connect that succeeds. */
  predicate Connects(s: Link, a: Act)
    requires Shape(s) && CallOk(a.call) && EnvShape(a.env)
  {
    a.call.Connect? && Step(s, a.call, a.env).r == 0
  }

  lemma SocketLeavesRequest(s: Link, raw: bool)
    requires Shape(s)
    ensures SameRequest(s, SocketCall(s, raw).s)
  {
  }

  lemma CloseLeavesRequest(s: Link, fd: int, junk: byte)
    requires Shape(s)
    ensures SameRequest(s, CloseCall(s, fd, junk).s)
  {
  }

  lemma AcceptLeavesRequest(s: Link, t: nat)
    requires Shape(s)
    ensures SameRequest(s, AcceptFrom(s, t).s)
  {
  }

  lemma CallApart(s: Link, c: Call, e: Env)
    requires Shape(s) && CallOk(c) && !(c.Connect? && Perform(s, c, e).r == 0)
    ensures SameRequest(s, Perform(s, c, e).s)
  {
    hide SocketCall, CloseCall, AcceptFrom;
    match c
    case Socket(raw) => SocketLeavesRequest(s, raw);
    case Close(fd) => CloseLeavesRequest(s, fd, e.junk);
    case AcceptCall => AcceptLeavesRequest(s, e.t5);
    case _ =>
  }

  lemma StepAsks(s: Link, a: Act, n: nat, req: seq<byte>)
    requires Shape(s) && CallOk(a.call) && EnvShape(a.env) && Asking(s, n, req) && !Connects(s, a)
    ensures Asking(Next(s, a), n, req)
  {
    hide Running, Perform, Asking;
    var s1 := if Runs(a.call) then Running(s, a.env) else s;
    if Runs(a.call) {
      RequestRepeated(s, a.env, n, req);
    }
    CallApart(s1, a.call, a.env);
    ApartKeepsAsking(s1, Next(s, a), n, req);
  }

  ghost predicate NoConnect(s: Link, acts: seq<Act>)
    requires Shape(s) && RunOk(s, acts)
    decreases |acts|
  {
    acts != [] ==> !Connects(s, acts[0]) && NoConnect(Next(s, acts[0]), acts[1..])
  }

  /**
    * Until the next connect succeeds, whatever else is called: the request stays as it was built, every
    * request that goes out is that one, and it is given up only after it went out.
    */
  lemma {:induction false} AskingLasts(s: Link, acts: seq<Act>, n: nat, req: seq<byte>)
    requires Shape(s) && RunOk(s, acts) && NoConnect(s, acts) && Asking(s, n, req)
    ensures Asking(Run(s, acts), n, req)
    decreases |acts|
  {
    hide Asking, Running, Perform;
    if acts != [] {
      StepAsks(s, acts[0], n, req);
      AskingLasts(Next(s, acts[0]), acts[1..], n, req);
    }
  }

  /** The bytes ask dst to connect to socket fd of the node src. */
  ghost predicate RequestFor(req: seq<byte>, src: Mac, fd: int, dst: Mac) {
    && |req| == CONNECT_LEN && req[0] % 16 == TYPE_CONNECT_REQ
    && req[1..9] == src && req[9..17] == dst && req[17] == RAW_CHANNEL && req[18..23] == AddressFor(src, fd)
  }

  /** hal_comm_connect starts asking: for the peer dst, with the socket's own address as the offer. */
  lemma ConnectAsks(s: Link, fd: int, dst: Mac, t: nat) returns (req: seq<byte>)
    requires Shape(s) && 1 <= fd <= CONNECTION_COUNTER && ConnectTo(s, fd, dst, t).r == 0
    ensures RequestFor(req, s.mac, fd, dst)
    ensures var u := ConnectTo(s, fd, dst, t).s;
            && u.mgmt.lenTx == CONNECT_LEN && Asking(u, |s.hist.air|, req)
            && u.peers[fd - 1].mac == dst && u.peers[fd - 1].keepalive == 1
  {
    RequestFields(s.mgmt.bufferTx, s.mac, dst, RAW_CHANNEL, AddressFor(s.mac, fd));
    req := ConnectPdu(s.mgmt.bufferTx, s.mac, dst, RAW_CHANNEL, AddressFor(s.mac, fd))[..CONNECT_LEN];
  }

  /** From frame n on, every request that went out asks dst for socket fd of src, and one did unless it still waits. */
  ghost predicate AskedOnly(n: nat, t: Link, src: Mac, fd: int, dst: Mac) {
    && n <= |t.hist.air|
    && (forall k :: n <= k < |t.hist.air| && t.hist.air[k].kind == ConnectFrame ==>
          RequestFor(t.hist.air[k].bytes, src, fd, dst))
    && (t.mgmt.lenTx == 0 ==> exists k :: n <= k < |t.hist.air| && t.hist.air[k].kind == ConnectFrame)
  }

  lemma AskingMeans(t: Link, n: nat, req: seq<byte>, src: Mac, fd: int, dst: Mac)
    requires Shape(t) && Asking(t, n, req) && RequestFor(req, src, fd, dst)
    ensures AskedOnly(n, t, src, fd, dst)
  {
    if t.mgmt.lenTx == 0 {
      var k :| n <= k < |t.hist.air| && IsRequest(t.hist.air[k], req);
    }
  }

  lemma ConnectStepAsks(s: Link, a: Act, fd: int, dst: Mac) returns (req: seq<byte>)
    requires Shape(s) && CallOk(a.call) && EnvShape(a.env) && a.call == Connect(fd, dst) && Connects(s, a)
    ensures RequestFor(req, s.mac, fd, dst) && Asking(Next(s, a), |Next(s, a).hist.air|, req)
  {
    hide Running, RequestFor;
    req := ConnectAsks(Running(s, a.env), fd, dst, a.env.t5);
  }

  /**
    * A whole run of the connecter, from the successful hal_comm_connect on: every connect frame it puts on
    * the air until its next connect asks dst for exactly that socket, and it stops only after one went out.
    */
  lemma {:induction false} ConnectIsAsked(s: Link, acts: seq<Act>, fd: int, dst: Mac)
    requires Shape(s) && RunOk(s, acts) && acts != [] && acts[0].call == Connect(fd, dst)
    requires Connects(s, acts[0]) && NoConnect(Next(s, acts[0]), acts[1..])
    ensures AskedOnly(|Next(s, acts[0]).hist.air|, Run(s, acts), s.mac, fd, dst)
  {
    hide Asking, AskedOnly, Running, RequestFor;
    var req := ConnectStepAsks(s, acts[0], fd, dst);
    var n := |Next(s, acts[0]).hist.air|;
    AskingLasts(Next(s, acts[0]), acts[1..], n, req);
    AskingMeans(Run(s, acts), n, req, s.mac, fd, dst);
  }

  // --- the node asked ---

  /** The frame is heard by the background step of a call. */
  ghost predicate HearsOnMgmt(s: Link, e: Env, f: Heard) {
    s.sched.state == MGMT && e.mgmtIn == Some(f)
  }

  /** The mailbox holds a connect request from src offering the address aa. */
  ghost predicate Offered(s: Link, src: Mac, aa: Addr)
    requires Shape(s)
  {
    && s.mgmt.lenRx == CONNECTED_LEN && ConnectedPending(s)
    && s.mgmt.bufferRx[3..11] == src && s.mgmt.bufferRx[20..25] == aa
  }

  /** The frame as heard: the bytes that went out, then leftovers. */
  ghost predicate HearsBytes(f: Heard, bytes: seq<byte>) {
    MgmtFrame(f) && f.len == |bytes| && f.buf[..f.len] == bytes
  }

  lemma HeardFields(f: Heard, req: seq<byte>, src: Mac, fd: int, dst: Mac)
    requires RequestFor(req, src, fd, dst) && HearsBytes(f, req)
    ensures f.buf[0] % 16 == TYPE_CONNECT_REQ && f.buf[1..9] == src && f.buf[9..17] == dst
    ensures f.buf[17] == RAW_CHANNEL && f.buf[18..23] == AddressFor(src, fd)
  {
    assert f.buf[1..9] == req[1..9] && f.buf[9..17] == req[9..17] && f.buf[18..23] == req[18..23];
    assert f.buf[0] == req[0] && f.buf[17] == req[17];
  }

  lemma EventFields(buf: seq<byte>, src: Mac, dst: Mac, channel: byte, aa: Addr)
    requires |buf| == MTU
    ensures var r := ConnectedEvent(buf, src, dst, channel, aa);
            r[..2] == EVT_CONNECTED && r[3..11] == src && r[11..19] == dst && r[20..25] == aa
  {
    var r := ConnectedEvent(buf, src, dst, channel, aa);
    assert forall i :: 0 <= i < 8 ==> r[3 + i] == src[i] && r[11 + i] == dst[i];
    assert forall i :: 0 <= i < 5 ==> r[20 + i] == aa[i];
  }

  /** read_mgmt takes a request for this node, and only for this node. */
  lemma RequestIsHeard(f: Heard, req: seq<byte>, src: Mac, fd: int, dst: Mac, b: Link)
    requires RequestFor(req, src, fd, dst) && HearsBytes(f, req)
    requires Shape(b) && b.mgmt.lenRx == 0
    ensures dst != b.mac ==> ReadMgmt(b, Some(f)) == b
    ensures dst == b.mac ==> Offered(ReadMgmt(b, Some(f)), src, AddressFor(src, fd))
  {
    HeardFields(f, req, src, fd, dst);
    if dst == b.mac {
      EventFields(b.mgmt.bufferRx, src, dst, f.buf[17], f.buf[18..23]);
    }
  }

  lemma SameEventKeepsOffer(s: Link, t: Link, src: Mac, aa: Addr)
    requires Shape(s) && Shape(t) && Offered(s, src, aa) && SameEvent(s, t) && t.mac == s.mac
    ensures Offered(t, src, aa)
  {
  }

  lemma AfterReadMgmt(s: Link, e: Env)
    requires Shape(s) && EnvShape(e) && s.sched.state == MGMT
    ensures SameEvent(ReadMgmt(s, e.mgmtIn), Running(s, e))
  {
    hide ReadMgmt, Running;
    assert SameEvent(ReadMgmt(s, e.mgmtIn), WriteMgmt(ReadMgmt(s, e.mgmtIn), e.ackMgmt));
    AfterExchange(s, e);
  }

  /** The background step leaves an offer in the mailbox. */
  lemma RunningKeepsOffer(s: Link, e: Env, src: Mac, aa: Addr)
    requires Shape(s) && EnvShape(e) && Offered(s, src, aa)
    ensures Offered(Running(s, e), src, aa)
  {
    if s.sched.state == MGMT {
      assert ReadMgmt(s, e.mgmtIn) == s;
      AfterReadMgmt(s, e);
    } else {
      RunningApart(s, e);
    }
    hide Running, Offered;
    SameEventKeepsOffer(s, Running(s, e), src, aa);
  }

  /** The call does not take the event: no read of the management socket, no accept. */
  predicate LeavesEvent(c: Call) {
    !c.AcceptCall? && !(c.Read? && c.fd == 0 && c.count != 0)
  }

  lemma CallKeepsEvent(s: Link, c: Call, e: Env)
    requires Shape(s) && CallOk(c) && LeavesEvent(c)
    ensures SameEvent(s, Perform(s, c, e).s)
  {
  }

  lemma StepKeepsOffer(s: Link, a: Act, src: Mac, aa: Addr)
    requires Shape(s) && CallOk(a.call) && EnvShape(a.env) && LeavesEvent(a.call)
    requires Offered(if Runs(a.call) then Running(s, a.env) else s, src, aa)
    ensures Offered(Next(s, a), src, aa)
  {
    hide Running, Perform, Offered;
    var s1 := if Runs(a.call) then Running(s, a.env) else s;
    CallKeepsEvent(s1, a.call, a.env);
    SameEventKeepsOffer(s1, Next(s, a), src, aa);
  }

  ghost predicate LeaveEvent(acts: seq<Act>) {
    forall i :: 0 <= i < |acts| ==> LeavesEvent(acts[i].call)
  }

  /** An offer waits until it is read or accepted. */
  lemma {:induction false} OfferLasts(s: Link, acts: seq<Act>, src: Mac, aa: Addr)
    requires Shape(s) && RunOk(s, acts) && LeaveEvent(acts) && Offered(s, src, aa)
    ensures Offered(Run(s, acts), src, aa)
    decreases |acts|
  {
    hide Offered, Running, Perform;
    if acts != [] {
      if Runs(acts[0].call) {
        RunningKeepsOffer(s, acts[0].env, src, aa);
      }
      StepKeepsOffer(s, acts[0], src, aa);
      OfferLasts(Next(s, acts[0]), acts[1..], src, aa);
    }
  }
}
