/** Which frames each piece of the link layer may put on the air, and which calls may. */
module LinkFrames {
  import opened Bytes
  import opened HalTime
  import opened LinkPdu
  import opened LinkSpec
  import opened LinkRuns

  /** From s to t only frames of these kinds went out. */
  ghost predicate SendsOnly(s: Link, t: Link, kinds: set<Kind>) {
    s.hist.air <= t.hist.air && forall k :: |s.hist.air| <= k < |t.hist.air| ==> t.hist.air[k].kind in kinds
  }

  lemma SendsChain(s: Link, t: Link, u: Link, kinds: set<Kind>, more: set<Kind>)
    requires SendsOnly(s, t, kinds) && SendsOnly(t, u, more)
    ensures SendsOnly(s, u, kinds + more)
  {
  }

  lemma SendsMore(s: Link, t: Link, u: Link, kinds: set<Kind>)
    requires SendsOnly(s, t, kinds) && SendsOnly(t, u, kinds)
    ensures SendsOnly(s, u, kinds)
  {
  }

  lemma SendsWider(s: Link, t: Link, kinds: set<Kind>, more: set<Kind>)
    requires SendsOnly(s, t, kinds) && kinds <= more
    ensures SendsOnly(s, t, more)
  {
  }

  lemma SameAir(s: Link, t: Link)
    requires t.hist.air == s.hist.air
    ensures SendsOnly(s, t, {})
  {
  }

  lemma FrameSends(s: Link, fd: nat, f: Heard, junk: byte)
    requires Shape(s) && 1 <= fd <= CONNECTION_COUNTER && RawFrame(f)
    ensures SendsOnly(s, HandleFrame(s, fd, f, junk), {KeepaliveRsp})
  {
  }

  lemma {:induction false} ReadRawSends(s: Link, fd: nat, fs: seq<Heard>, junk: byte)
    requires Shape(s) && 1 <= fd <= CONNECTION_COUNTER
    requires forall i :: 0 <= i < |fs| ==> RawFrame(fs[i])
    ensures SendsOnly(s, ReadRaw(s, fd, fs, junk), {KeepaliveRsp})
    decreases |fs|
  {
    hide SendsOnly, HandleFrame;
    if fs == [] {
      SameAir(s, s);
      SendsWider(s, s, {}, {KeepaliveRsp});
    } else {
      var t := ReadRaw(s, fd, fs[..|fs| - 1], junk);
      ReadRawSends(s, fd, fs[..|fs| - 1], junk);
      FrameSends(t, fd, fs[|fs| - 1], junk);
      SendsMore(s, t, ReadRaw(s, fd, fs, junk), {KeepaliveRsp});
    }
  }

  lemma TurnSends(s: Link, fd: nat, left: nat, junk: byte)
    requires Shape(s) && 1 <= fd <= CONNECTION_COUNTER && 1 <= left <= s.peers[fd - 1].lenTx
    ensures SendsOnly(s, CountSent(SendOne(s, fd, left, junk), fd), {DataFrame})
    ensures SendsOnly(s, ClearTx(SendOne(s, fd, left, junk), fd), {DataFrame})
  {
  }

  lemma ClearSends(s: Link, fd: nat)
    requires Shape(s) && 1 <= fd <= CONNECTION_COUNTER
    ensures SendsOnly(s, ClearTx(s, fd), {DataFrame})
  {
  }

  lemma {:induction false} SendFromSends(s: Link, fd: nat, left: nat, k: nat, acked: nat, junk: byte)
    requires Shape(s) && 1 <= fd <= CONNECTION_COUNTER && left <= s.peers[fd - 1].lenTx
    ensures SendsOnly(s, SendFrom(s, fd, left, k, acked, junk), {DataFrame})
    decreases left
  {
    hide SendFrom, SendOne, CountSent, ClearTx, SendsOnly, PeerShape;
    SendFromTurn(s, fd, left, k, acked, junk);
    if left == 0 {
      ClearSends(s, fd);
    } else {
      TurnSends(s, fd, left, junk);
      if k < acked {
        var t := CountSent(SendOne(s, fd, left, junk), fd);
        SendFromSends(t, fd, left - Min(left, PW_MSG_SIZE), k + 1, acked, junk);
        SendsMore(s, t, SendFrom(s, fd, left, k, acked, junk), {DataFrame});
      }
    }
  }

  lemma TrafficSends(s: Link, fd: nat, e: Env)
    requires Shape(s) && EnvShape(e) && 1 <= fd <= CONNECTION_COUNTER
    ensures SendsOnly(s, Traffic(s, fd, e), {KeepaliveRsp, DataFrame})
  {
    hide SendsOnly, ReadRaw, SendFrom;
    ReadRawSends(s, fd, e.rawIn, e.junk);
    var t := ReadRaw(s, fd, e.rawIn, e.junk);
    if t.peers[fd - 1].lenTx != 0 {
      var u := SendFrom(t, fd, t.peers[fd - 1].lenTx, 0, e.acked, e.junk);
      SendFromSends(t, fd, t.peers[fd - 1].lenTx, 0, e.acked, e.junk);
      SendsChain(s, t, u, {KeepaliveRsp}, {DataFrame});
      SameAir(u, Traffic(s, fd, e));
      SendsChain(s, u, Traffic(s, fd, e), {KeepaliveRsp} + {DataFrame}, {});
      assert {KeepaliveRsp} + {DataFrame} + {} == {KeepaliveRsp, DataFrame};
    } else {
      SendsWider(s, t, {KeepaliveRsp}, {KeepaliveRsp, DataFrame});
    }
  }

  lemma SuperviseSends(s: Link, fd: nat, t: nat, junk: byte)
    requires Shape(s) && 1 <= fd <= CONNECTION_COUNTER && s.peers[fd - 1].pipe != -1
    ensures SendsOnly(s, Supervise(s, fd, t, junk), {KeepaliveReq})
  {
  }

  lemma ServeSends(s: Link, fd: nat, e: Env)
    requires Shape(s) && EnvShape(e) && 1 <= fd <= CONNECTION_COUNTER
    ensures SendsOnly(s, Serve(s, fd, e), {DataFrame, KeepaliveReq, KeepaliveRsp})
  {
    hide SendsOnly, Traffic, Supervise;
    if s.peers[fd - 1].pipe == -1 {
      SameAir(s, s);
      SendsWider(s, s, {}, {DataFrame, KeepaliveReq, KeepaliveRsp});
    } else {
      var t := Traffic(s, fd, e);
      var u := Stamp(t, e.t3);
      TrafficSends(s, fd, e);
      SameAir(t, u);
      SendsChain(s, t, u, {KeepaliveRsp, DataFrame}, {});
      SuperviseSends(u, fd, e.t4, e.junk);
      SendsChain(s, u, Serve(s, fd, e), {KeepaliveRsp, DataFrame} + {}, {KeepaliveReq});
      assert {KeepaliveRsp, DataFrame} + {} + {KeepaliveReq} == {DataFrame, KeepaliveReq, KeepaliveRsp};
    }
  }

  lemma RawStepSends(s: Link, e: Env)
    requires Shape(s) && EnvShape(e)
    ensures SendsOnly(s, RawStep(s, e), {DataFrame, KeepaliveReq, KeepaliveRsp})
  {
    hide Serve;
    ServeSends(RawExit(s, e), s.sched.sockIndex, e);
  }

  lemma ExchangeSends(s: Link, e: Env)
    requires Shape(s) && EnvShape(e)
    ensures SendsOnly(s, WriteMgmt(ReadMgmt(s, e.mgmtIn), e.ackMgmt), {ConnectFrame})
    ensures WriteMgmt(ReadMgmt(s, e.mgmtIn), e.ackMgmt).listen == s.listen
  {
  }

  lemma PresenceSends(s: Link, e: Env)
    requires Shape(s)
    ensures SendsOnly(s, PresenceConnect(s, e), {PresenceFrame})
  {
    hide HalTimeout;
  }

  lemma MgmtStepSends(s: Link, e: Env)
    requires Shape(s) && EnvShape(e)
    ensures SendsOnly(s, MgmtStep(s, e), if s.listen then {ConnectFrame, PresenceFrame} else {ConnectFrame})
  {
    hide ReadMgmt, WriteMgmt, PresenceConnect, LeaveMgmt, SendsOnly;
    var s1 := WriteMgmt(ReadMgmt(s, e.mgmtIn), e.ackMgmt);
    ExchangeSends(s, e);
    if s1.listen {
      var s2 := PresenceConnect(s1, e);
      PresenceSends(s1, e);
      SendsChain(s, s1, s2, {ConnectFrame}, {PresenceFrame});
      SameAir(s2, MgmtStep(s, e));
      SendsChain(s, s2, MgmtStep(s, e), {ConnectFrame} + {PresenceFrame}, {});
      assert {ConnectFrame} + {PresenceFrame} + {} == {ConnectFrame, PresenceFrame};
    } else {
      SameAir(s1, MgmtStep(s, e));
      SendsChain(s, s1, MgmtStep(s, e), {ConnectFrame}, {});
      assert {ConnectFrame} + {} == {ConnectFrame};
    }
  }

  /** What the background step may send: by state, and presence only while listening. */
  function MaySend(s: Link): (kinds: set<Kind>) {
    match s.sched.state
    case RAW => {DataFrame, KeepaliveReq, KeepaliveRsp}
    case MGMT => if s.listen then {ConnectFrame, PresenceFrame} else {ConnectFrame}
    case _ => {}
  }

  /**
    * The background step sends data and keepalive frames in the RAW state only, connect and presence
    * frames in the MGMT state only, presence frames only while listening, and nothing while retuning.
    */
  lemma RunningSends(s: Link, e: Env)
    requires Shape(s) && EnvShape(e)
    ensures SendsOnly(s, Running(s, e), MaySend(s))
  {
    hide RawStep, MgmtStep;
    match s.sched.state
    case RAW => RawStepSends(s, e);
    case MGMT => MgmtStepSends(s, e);
    case _ =>
  }

  /** Of the calls themselves only hal_comm_close sends, and only a disconnect frame. */
  lemma CallSends(s: Link, c: Call, e: Env)
    requires Shape(s) && CallOk(c)
    ensures SendsOnly(s, Perform(s, c, e).s, if c.Close? then {DisconnectFrame} else {})
  {
    hide SocketCall, AcceptFrom;
    match c
    case Socket(raw) => SocketSends(s, raw);
    case AcceptCall => AcceptSends(s, e.t5);
    case _ =>
  }

  lemma SocketSends(s: Link, raw: bool)
    requires Shape(s)
    ensures SocketCall(s, raw).s.hist.air == s.hist.air
  {
  }

  lemma AcceptSends(s: Link, t: nat)
    requires Shape(s)
    ensures AcceptFrom(s, t).s.hist.air == s.hist.air
  {
  }

  /** A whole call. */
  lemma StepSends(s: Link, a: Act)
    requires Shape(s) && CallOk(a.call) && EnvShape(a.env)
    ensures SendsOnly(s, Next(s, a),
                      if Runs(a.call) then MaySend(s) else if a.call.Close? then {DisconnectFrame} else {})
  {
    hide Running, Perform, SendsOnly;
    var t := if Runs(a.call) then Running(s, a.env) else s;
    var o := Perform(t, a.call, a.env).s;
    CallSends(t, a.call, a.env);
    SameAir(o, Next(s, a));
    SendsChain(t, o, Next(s, a), if a.call.Close? then {DisconnectFrame} else {}, {});
    if Runs(a.call) {
      RunningSends(s, a.env);
      SendsChain(s, t, Next(s, a), MaySend(s), {} + {});
      assert MaySend(s) + ({} + {}) == MaySend(s);
    } else if a.call.Close? {
      assert {DisconnectFrame} + {} == {DisconnectFrame};
    } else {
      SendsWider(t, Next(s, a), {} + {}, {});
    }
  }
}
