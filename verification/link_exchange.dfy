/** Two nodes exchanging control and presence frames: what one puts on the air means to the other what it should. */
module LinkExchange {
  import opened Bytes
  import opened Bits
  import opened HalTime
  import opened LinkPdu
  import opened LinkSpec
  import opened LinkRuns
  import opened LinkRequests
  import opened LinkInvariants
  import opened LinkService
  import LinkRoles

  /** The frame as heard: these bytes, then whatever the buffer held before. */
  ghost predicate HearsPdu(f: Heard, bytes: seq<byte>) {
    WellSized(f) && f.len == |bytes| && f.buf[..f.len] == bytes
  }

  ghost predicate Hears(f: Heard, sent: Sent) {
    HearsPdu(f, sent.bytes)
  }

  ghost predicate Sends(s: Link, t: Link, kind: Kind, pipe: nat) {
    && |t.hist.air| == |s.hist.air| + 1 && t.hist.air[..|s.hist.air|] == s.hist.air
    && t.hist.air[|s.hist.air|].kind == kind && t.hist.air[|s.hist.air|].pipe == pipe
  }

  function LastSent(s: Link): (f: Sent)
    requires s.hist.air != []
  {
    s.hist.air[|s.hist.air| - 1]
  }

  lemma ControlFields(f: Heard, sent: Sent, op: byte, src: Mac, dst: Mac, junk: byte)
    requires Hears(f, sent) && sent.bytes == ControlPdu(op, src, dst, junk)
    ensures RawFrame(f) && Lid(f) == LID_CONTROL && f.buf[2] == op && f.buf[3..11] == src && f.buf[11..19] == dst
  {
    var pdu := ControlPdu(op, src, dst, junk);
    assert forall i :: 0 <= i < 19 ==> f.buf[i] == f.buf[..19][i] == pdu[i];
    assert f.buf[3..11] == pdu[3..11] == src;
    assert f.buf[11..19] == pdu[11..19] == dst;
  }

  /** A frame is answered if and only if it is a keepalive request of the known peer for this node. */
  lemma AnsweredIff(s: Link, fd: nat, f: Heard, junk: byte)
    requires Shape(s) && 1 <= fd <= CONNECTION_COUNTER && RawFrame(f)
    ensures var t := HandleFrame(s, fd, f, junk);
            if IsRequestFor(f, s.peers[fd - 1].mac, s.mac)
            then Sends(s, t, KeepaliveRsp, fd)
                 && LastSent(t).bytes == ControlPdu(OP_KEEPALIVE_RSP, s.mac, s.peers[fd - 1].mac, junk)
            else t.hist.air == s.hist.air
  {
    hide ControlPdu;
  }

  lemma RequestSends(a: Link, fd: nat, junk: byte)
    requires Shape(a) && 1 <= fd <= CONNECTION_COUNTER
    ensures Sends(a, Request(a, fd, junk), KeepaliveReq, fd)
    ensures LastSent(Request(a, fd, junk)).bytes == ControlPdu(OP_KEEPALIVE_REQ, a.mac, a.peers[fd - 1].mac, junk)
  {
  }

  /**
    * A keepalive request is answered by exactly the node it is for, if that node knows the sender as its
    * peer on the pipe; anyone else stays silent.
    */
  lemma RequestIsAnswered(a: Link, fd: nat, junk: byte, b: Link, gd: nat, f: Heard, junk2: byte)
    requires Shape(a) && 1 <= fd <= CONNECTION_COUNTER && Shape(b) && 1 <= gd <= CONNECTION_COUNTER
    requires Hears(f, LastSent(Request(a, fd, junk)))
    ensures Sends(a, Request(a, fd, junk), KeepaliveReq, fd)
    ensures RawFrame(f)
    ensures var t := HandleFrame(b, gd, f, junk2);
            if a.peers[fd - 1].mac == b.mac && b.peers[gd - 1].mac == a.mac
            then Sends(b, t, KeepaliveRsp, gd) && LastSent(t).bytes == ControlPdu(OP_KEEPALIVE_RSP, b.mac, a.mac, junk2)
            else t.hist.air == b.hist.air
  {
    hide Request;
    RequestSends(a, fd, junk);
    ControlFields(f, LastSent(Request(a, fd, junk)), OP_KEEPALIVE_REQ, a.mac, a.peers[fd - 1].mac, junk);
  }

  /** The answer ends the initiator's count: one attempt again, and silence measured from now. */
  lemma AnswerResetsCount(a: Link, fd: nat, f: Heard, sent: Sent, src: Mac, dst: Mac, junk: byte, junk2: byte)
    requires Shape(a) && 1 <= fd <= CONNECTION_COUNTER && a.peers[fd - 1].keepalive != 0
    requires Hears(f, sent) && sent.bytes == ControlPdu(OP_KEEPALIVE_RSP, src, dst, junk)
    ensures RawFrame(f)
    ensures var p := HandleFrame(a, fd, f, junk2).peers[fd - 1];
            p.keepalive == 1 && p.anchor == Clock(f.at) && !RequestDue(p, f.at) && !Silent(p, f.at)
  {
    ControlFields(f, sent, OP_KEEPALIVE_RSP, src, dst, junk);
  }

  /** One whole keepalive exchange between two nodes that know each other. */
  lemma KeepaliveRoundTrip(a: Link, fd: nat, b: Link, gd: nat, f: Heard, g: Heard, j1: byte, j2: byte, j3: byte)
    requires Shape(a) && 1 <= fd <= CONNECTION_COUNTER && Shape(b) && 1 <= gd <= CONNECTION_COUNTER
    requires a.peers[fd - 1].mac == b.mac && b.peers[gd - 1].mac == a.mac && 1 <= a.peers[fd - 1].keepalive <= 9
    requires Hears(f, LastSent(Request(a, fd, j1)))
    requires RawFrame(f) && HandleFrame(b, gd, f, j2).hist.air != [] && Hears(g, LastSent(HandleFrame(b, gd, f, j2)))
    ensures Request(a, fd, j1).peers[fd - 1].keepalive == a.peers[fd - 1].keepalive + 1
    ensures RawFrame(g) && HandleFrame(Request(a, fd, j1), fd, g, j3).peers[fd - 1].keepalive == 1
  {
    hide HandleFrame;
    RequestIsAnswered(a, fd, j1, b, gd, f, j2);
    AnswerResetsCount(Request(a, fd, j1), fd, g, LastSent(HandleFrame(b, gd, f, j2)), b.mac, a.mac, j2, j3);
  }

  /** Closing a pipe tells the other end, whose mailbox then names the node that closed it. */
  lemma CloseIsReported(a: Link, fd: int, junk: byte, b: Link, gd: nat, f: Heard, junk2: byte)
    requires Shape(a) && 1 <= fd <= CONNECTION_COUNTER && a.peers[fd - 1].pipe != -1 && a.mac != NO_MAC
    requires Shape(b) && 1 <= gd <= CONNECTION_COUNTER && b.mgmt.lenRx == 0
    requires Hears(f, LastSent(CloseCall(a, fd, junk).s))
    ensures Sends(a, CloseCall(a, fd, junk).s, DisconnectFrame, fd) && RawFrame(f)
    ensures var t := HandleFrame(b, gd, f, junk2);
            && t.mgmt.lenRx == DISCONNECTED_LEN && t.mgmt.bufferRx[..2] == EVT_DISCONNECTED
            && t.mgmt.bufferRx[3..11] == a.mac && t.peers[gd - 1].pipe == b.peers[gd - 1].pipe
  {
    ControlFields(f, LastSent(CloseCall(a, fd, junk).s), OP_DISCONNECT, a.mac, a.peers[fd - 1].mac, junk);
    assert DisconnectedEvent(b.mgmt.bufferRx, a.mac)[3..11] == a.mac;
  }

  /** A node that is not listening itself reports a presence with the sender's address and whole name. */
  lemma PresenceIsReported(a: Link, e: Env, b: Link, f: Heard)
    requires Shape(a) && a.bcast.state == PRESENCE && a.mac != NO_MAC
    requires Shape(b) && b.mgmt.lenRx == 0
    requires Hears(f, LastSent(PresenceConnect(a, e)))
    ensures Sends(a, PresenceConnect(a, e), PresenceFrame, 0) && MgmtFrame(f)
    ensures var t := ReadMgmt(b, Some(f));
            if b.listen then t == b
            else
              && t.mgmt.lenRx == 11 + |THING_NAME| && t.mgmt.bufferRx[..2] == EVT_PRESENCE
              && t.mgmt.bufferRx[3..11] == a.mac && t.mgmt.bufferRx[11..t.mgmt.lenRx] == THING_NAME
  {
    PresenceFields(f, a.mac, e.junk);
    if !b.listen {
      PresenceEventFields(b.mgmt.bufferRx, a.mac);
    }
  }

  lemma PresenceFields(f: Heard, mac: Mac, junk: byte)
    requires WellSized(f) && f.len == |PresencePdu(mac, THING_NAME, junk)|
    requires f.buf[..f.len] == PresencePdu(mac, THING_NAME, junk)
    ensures MgmtFrame(f) && f.buf[0] % 16 == TYPE_PRESENCE && f.len == 9 + |THING_NAME|
    ensures f.buf[1..9] == mac && f.buf[9..f.len] == THING_NAME
  {
    var pdu := PresencePdu(mac, THING_NAME, junk);
    assert THING_NAME[..Min(|THING_NAME|, MTU - 9)] == THING_NAME;
    assert f.buf[0] == f.buf[..f.len][0] == pdu[0];
    assert f.buf[1..9] == f.buf[..f.len][1..9] == pdu[1..9] == mac;
    assert f.buf[9..f.len] == f.buf[..f.len][9..] == pdu[9..] == THING_NAME;
  }

  lemma PresenceEventFields(buf: seq<byte>, mac: Mac)
    requires |buf| == MTU
    ensures var ev := PresenceEvent(buf, mac, THING_NAME);
            ev[..2] == EVT_PRESENCE && ev[3..11] == mac && ev[11..11 + |THING_NAME|] == THING_NAME
  {
  }

  // --- the same over whole steps ---

  /** From s to t a frame of this kind went out on the pipe with these bytes. */
  ghost predicate WentOutOn(s: Link, t: Link, kind: Kind, pipe: nat, bytes: seq<byte>) {
    exists k :: |s.hist.air| <= k < |t.hist.air| && IsFrame(t.hist.air[k], kind, pipe, bytes)
  }

  predicate IsFrame(f: Sent, kind: Kind, pipe: nat, bytes: seq<byte>) {
    f.kind == kind && f.pipe == pipe && f.bytes == bytes
  }

  lemma StaysOut(s: Link, t: Link, u: Link, kind: Kind, pipe: nat, bytes: seq<byte>)
    requires WentOutOn(s, t, kind, pipe, bytes) && t.hist.air <= u.hist.air
    ensures WentOutOn(s, u, kind, pipe, bytes)
  {
    var k :| |s.hist.air| <= k < |t.hist.air| && IsFrame(t.hist.air[k], kind, pipe, bytes);
    assert u.hist.air[k] == t.hist.air[k];
  }

  lemma GoesOutLater(s: Link, t: Link, u: Link, kind: Kind, pipe: nat, bytes: seq<byte>)
    requires WentOutOn(t, u, kind, pipe, bytes) && s.hist.air <= t.hist.air
    ensures WentOutOn(s, u, kind, pipe, bytes)
  {
    var k :| |t.hist.air| <= k < |u.hist.air| && IsFrame(u.hist.air[k], kind, pipe, bytes);
  }

  lemma PerformOnlySends(s: Link, c: Call, e: Env)
    requires Shape(s) && CallOk(c)
    ensures s.hist.air <= Perform(s, c, e).s.hist.air
  {
    if c.Connect? && Perform(s, c, e).r == 0 {
      assert Perform(s, c, e).s.hist.air == s.hist.air;
    } else {
      CallApart(s, c, e);
      hide Perform;
    }
  }

  /** A keepalive request from src for dst. */
  ghost predicate IsRequestFor(f: Heard, src: Mac, dst: Mac) {
    RawFrame(f) && Lid(f) == LID_CONTROL && f.buf[2] == OP_KEEPALIVE_REQ && f.buf[3..11] == src && f.buf[11..19] == dst
  }

  lemma FrameIsAnswered(s: Link, fd: nat, f: Heard, junk: byte)
    requires Shape(s) && 1 <= fd <= CONNECTION_COUNTER && IsRequestFor(f, s.peers[fd - 1].mac, s.mac)
    ensures WentOutOn(s, HandleFrame(s, fd, f, junk), KeepaliveRsp, fd,
                      ControlPdu(OP_KEEPALIVE_RSP, s.mac, s.peers[fd - 1].mac, junk))
  {
    hide ControlPdu;
    var t := HandleFrame(s, fd, f, junk);
    assert IsFrame(t.hist.air[|s.hist.air|], KeepaliveRsp, fd,
                   ControlPdu(OP_KEEPALIVE_RSP, s.mac, s.peers[fd - 1].mac, junk));
  }

  /** Every request among the frames of a turn is answered in that turn. */
  lemma {:induction false} ReadRawAnswers(s: Link, fd: nat, fs: seq<Heard>, i: nat, junk: byte)
    requires Shape(s) && 1 <= fd <= CONNECTION_COUNTER && i < |fs|
    requires (forall j :: 0 <= j < |fs| ==> RawFrame(fs[j])) && IsRequestFor(fs[i], s.peers[fd - 1].mac, s.mac)
    ensures WentOutOn(s, ReadRaw(s, fd, fs, junk), KeepaliveRsp, fd,
                      ControlPdu(OP_KEEPALIVE_RSP, s.mac, s.peers[fd - 1].mac, junk))
    decreases |fs|
  {
    hide HandleFrame, WentOutOn, ControlPdu, IsRequestFor;
    var init, f, pdu := fs[..|fs| - 1], fs[|fs| - 1], ControlPdu(OP_KEEPALIVE_RSP, s.mac, s.peers[fd - 1].mac, junk);
    var t := ReadRaw(s, fd, init, junk);
    ReadRawFreesNothing(s, fd, init, junk);
    ReadRawApart(s, fd, init, junk);
    FrameApart(t, fd, f, junk);
    if i < |init| {
      ReadRawAnswers(s, fd, init, i, junk);
      StaysOut(s, t, ReadRaw(s, fd, fs, junk), KeepaliveRsp, fd, pdu);
    } else {
      FrameIsAnswered(t, fd, f, junk);
      GoesOutLater(s, t, ReadRaw(s, fd, fs, junk), KeepaliveRsp, fd, pdu);
    }
  }

  /** The step's turn is that of pipe fd, on the data channel. */
  ghost predicate InTurn(s: Link, a: Act, fd: nat) {
    && Shape(s) && CallOk(a.call) && EnvShape(a.env) && Runs(a.call) && 1 <= fd <= CONNECTION_COUNTER
    && s.sched.state == RAW && s.sched.sockIndex == fd && s.peers[fd - 1].pipe != -1
  }

  /** A node hearing its peer's request in a turn of the pipe answers in that same call. */
  lemma StepAnswers(s: Link, a: Act, fd: nat, i: nat)
    requires InTurn(s, a, fd) && i < |a.env.rawIn| && IsRequestFor(a.env.rawIn[i], s.peers[fd - 1].mac, s.mac)
    ensures WentOutOn(s, Next(s, a), KeepaliveRsp, fd,
                      ControlPdu(OP_KEEPALIVE_RSP, s.mac, s.peers[fd - 1].mac, a.env.junk))
  {
    hide WentOutOn, ControlPdu, IsRequestFor, Traffic, Supervise, Perform, ReadRaw;
    var e, pdu := a.env, ControlPdu(OP_KEEPALIVE_RSP, s.mac, s.peers[fd - 1].mac, a.env.junk);
    var s1 := RawExit(s, e);
    var t, u := Traffic(s1, fd, e), Running(s, e);
    ReadRawAnswers(s1, fd, e.rawIn, i, e.junk);
    TrafficSends(s1, fd, e);
    SuperviseApart(Stamp(t, e.t3), fd, e.t4, e.junk);
    SameIsApart(s, s1);
    PerformOnlySends(u, a.call, e);
    StaysOut(s1, ReadRaw(s1, fd, e.rawIn, e.junk), Next(s, a), KeepaliveRsp, fd, pdu);
    GoesOutLater(s, s1, Next(s, a), KeepaliveRsp, fd, pdu);
  }

  lemma {:induction false} TrafficSends(s: Link, fd: nat, e: Env)
    requires Shape(s) && EnvShape(e) && 1 <= fd <= CONNECTION_COUNTER
    ensures ReadRaw(s, fd, e.rawIn, e.junk).hist.air <= Traffic(s, fd, e).hist.air
  {
    hide ReadRaw, SendFrom;
    var t := ReadRaw(s, fd, e.rawIn, e.junk);
    if t.peers[fd - 1].lenTx != 0 {
      SendFromApart(t, fd, t.peers[fd - 1].lenTx, 0, e.acked, e.junk);
    }
  }

  /** What supervision looks at. */
  ghost predicate SameTimers(p: Peer, q: Peer) {
    q.pipe == p.pipe && q.anchor == p.anchor && q.keepalive == p.keepalive && q.mac == p.mac
  }

  lemma TurnLeavesTimers(s: Link, fd: nat, left: nat, junk: byte)
    requires Shape(s) && 1 <= fd <= CONNECTION_COUNTER && 1 <= left <= s.peers[fd - 1].lenTx
    ensures SameTimers(s.peers[fd - 1], CountSent(SendOne(s, fd, left, junk), fd).peers[fd - 1])
    ensures SameTimers(s.peers[fd - 1], ClearTx(SendOne(s, fd, left, junk), fd).peers[fd - 1])
  {
  }

  lemma ClearLeavesTimers(s: Link, fd: nat)
    requires Shape(s) && 1 <= fd <= CONNECTION_COUNTER
    ensures SameTimers(s.peers[fd - 1], ClearTx(s, fd).peers[fd - 1])
  {
  }

  lemma {:induction false} SendFromLeavesTimers(s: Link, fd: nat, left: nat, k: nat, acked: nat, junk: byte)
    requires Shape(s) && 1 <= fd <= CONNECTION_COUNTER && left <= s.peers[fd - 1].lenTx
    ensures SameTimers(s.peers[fd - 1], SendFrom(s, fd, left, k, acked, junk).peers[fd - 1])
    decreases left
  {
    hide SendFrom, SendOne, CountSent, ClearTx, PeerShape;
    SendFromTurn(s, fd, left, k, acked, junk);
    if left == 0 {
      ClearLeavesTimers(s, fd);
    } else {
      TurnLeavesTimers(s, fd, left, junk);
      if k < acked {
        var t := CountSent(SendOne(s, fd, left, junk), fd);
        SendFromLeavesTimers(t, fd, left - Min(left, PW_MSG_SIZE), k + 1, acked, junk);
      }
    }
  }

  lemma WriteLeavesTimers(s: Link, fd: nat, acked: nat, junk: byte)
    requires Shape(s) && 1 <= fd <= CONNECTION_COUNTER
    ensures SameTimers(s.peers[fd - 1], WriteRaw(s, fd, acked, junk).peers[fd - 1])
  {
    hide SendFrom;
    if s.peers[fd - 1].lenTx != 0 {
      SendFromLeavesTimers(s, fd, s.peers[fd - 1].lenTx, 0, acked, junk);
    }
  }

  lemma RequestSent(s: Link, fd: nat, t: nat, junk: byte)
    requires Shape(s) && 1 <= fd <= CONNECTION_COUNTER && s.peers[fd - 1].pipe != -1
    requires !Silent(s.peers[fd - 1], t) && RequestDue(s.peers[fd - 1], t)
    ensures WentOutOn(s, Supervise(s, fd, t, junk), KeepaliveReq, fd,
                      ControlPdu(OP_KEEPALIVE_REQ, s.mac, s.peers[fd - 1].mac, junk))
  {
    hide ControlPdu, Silent, RequestDue;
    var r := Supervise(s, fd, t, junk);
    assert IsFrame(r.hist.air[|s.hist.air|], KeepaliveReq, fd,
                   ControlPdu(OP_KEEPALIVE_REQ, s.mac, s.peers[fd - 1].mac, junk));
  }

  /** A turn in which the peer is not heard and a request is due sends one. */
  lemma StepRequests(s: Link, a: Act, fd: nat)
    requires InTurn(s, a, fd) && a.env.rawIn == []
    requires !Silent(s.peers[fd - 1], a.env.t4) && RequestDue(s.peers[fd - 1], a.env.t4)
    ensures WentOutOn(s, Next(s, a), KeepaliveReq, fd,
                      ControlPdu(OP_KEEPALIVE_REQ, s.mac, s.peers[fd - 1].mac, a.env.junk))
  {
    hide WentOutOn, ControlPdu, Supervise, Perform, WriteRaw, HalTimeout;
    var e, pdu := a.env, ControlPdu(OP_KEEPALIVE_REQ, s.mac, s.peers[fd - 1].mac, a.env.junk);
    var s1 := RawExit(s, e);
    var t, u := Stamp(Traffic(s1, fd, e), e.t3), Running(s, e);
    WriteLeavesTimers(s1, fd, e.acked, e.junk);
    TrafficApart(s1, fd, e);
    RequestSent(t, fd, e.t4, e.junk);
    PerformOnlySends(u, a.call, e);
    StaysOut(t, Supervise(t, fd, e.t4, e.junk), Next(s, a), KeepaliveReq, fd, pdu);
    GoesOutLater(s, t, Next(s, a), KeepaliveReq, fd, pdu);
  }

  /** An answer to a keepalive request; the code does not ask whose. */
  ghost predicate IsAnswer(f: Heard) {
    RawFrame(f) && Lid(f) == LID_CONTROL && f.buf[2] == OP_KEEPALIVE_RSP
  }

  lemma {:induction false} AnswerTaken(s: Link, fd: nat, fs: seq<Heard>, junk: byte)
    requires Shape(s) && 1 <= fd <= CONNECTION_COUNTER && s.peers[fd - 1].keepalive != 0
    requires fs != [] && (forall j :: 0 <= j < |fs| ==> RawFrame(fs[j])) && IsAnswer(fs[|fs| - 1])
    ensures var p := ReadRaw(s, fd, fs, junk).peers[fd - 1];
            p.keepalive == 1 && p.anchor == Clock(fs[|fs| - 1].at) && p.pipe == s.peers[fd - 1].pipe
  {
    LinkRoles.ReadRawKeepsRole(s, fd, fs[..|fs| - 1], junk);
  }

  /** The answer is too fresh for another request or a timeout. */
  lemma FreshAnchor(p: Peer, at: nat, t: nat)
    requires p.keepalive == 1 && p.anchor == Clock(at) && at <= t < at + KEEPALIVE_SEND_MS
    ensures !Silent(p, t) && !RequestDue(p, t)
  {
    TimeoutExact(at, t, KEEPALIVE_TIMEOUT_MS);
    TimeoutExact(at, t, KEEPALIVE_SEND_MS);
    hide HalTimeout;
  }

  lemma PerformKeepsOne(s: Link, c: Call, e: Env, fd: nat)
    requires Shape(s) && CallOk(c) && Runs(c) && 1 <= fd <= CONNECTION_COUNTER
    requires s.peers[fd - 1].pipe != -1 && s.peers[fd - 1].keepalive == 1
    ensures Perform(s, c, e).s.peers[fd - 1].keepalive == 1
  {
    if c.AcceptCall? {
      AcceptLeavesPending(s, e.t5, fd);
      hide AcceptFrom;
    }
  }

  /** A turn whose last frame is an answer, heard less than 750 ms before, ends the count. */
  lemma StepTakesAnswer(s: Link, a: Act, fd: nat)
    requires InTurn(s, a, fd) && s.peers[fd - 1].keepalive != 0
    requires var fs := a.env.rawIn;
             fs != [] && IsAnswer(fs[|fs| - 1]) && fs[|fs| - 1].at <= a.env.t4 < fs[|fs| - 1].at + KEEPALIVE_SEND_MS
    ensures Next(s, a).peers[fd - 1].keepalive == 1
  {
    hide Perform, WriteRaw, ReadRaw, Silent, RequestDue, IsAnswer;
    var e := a.env;
    var s1 := RawExit(s, e);
    AnswerTaken(s1, fd, e.rawIn, e.junk);
    WriteLeavesTimers(ReadRaw(s1, fd, e.rawIn, e.junk), fd, e.acked, e.junk);
    var t := Stamp(Traffic(s1, fd, e), e.t3);
    FreshAnchor(t.peers[fd - 1], e.rawIn[|e.rawIn| - 1].at, e.t4);
    PerformKeepsOne(Running(s, e), a.call, e, fd);
  }

  lemma PduFields(f: Heard, op: byte, src: Mac, dst: Mac, junk: byte)
    requires HearsPdu(f, ControlPdu(op, src, dst, junk))
    ensures RawFrame(f) && Lid(f) == LID_CONTROL && f.buf[2] == op && f.buf[3..11] == src && f.buf[11..19] == dst
  {
    var sent := Sent(KeepaliveReq, 0, ControlPdu(op, src, dst, junk), 0, NO_PIPES, BROADCAST_ADDRESS);
    ControlFields(f, sent, op, src, dst, junk);
  }

  /**
    * A keepalive exchange over whole calls of two nodes that know each other. A call of a in whose turn a
    * request is due sends it; a call of b in whose turn it is heard, among whatever else, sends the answer;
    * and when, after any other calls that keep the pipe, a hears the answer, its count is back to one.
    */
  lemma {:induction false} ExchangeOverSteps(a: Link, x: Act, fd: nat, b: Link, y: Act, gd: nat, i: nat,
                                             mid: seq<Act>, z: Act)
    requires Inv(a) && InTurn(a, x, fd) && EnvOk(x.env, a.hist.now) && x.env.rawIn == []
    requires !Silent(a.peers[fd - 1], x.env.t4) && RequestDue(a.peers[fd - 1], x.env.t4)
    requires InTurn(b, y, gd) && a.peers[fd - 1].mac == b.mac && b.peers[gd - 1].mac == a.mac
    requires i < |y.env.rawIn| && HearsPdu(y.env.rawIn[i], ControlPdu(OP_KEEPALIVE_REQ, a.mac, b.mac, x.env.junk))
    requires RunOk(Next(a, x), mid) && StaysAllocated(Next(a, x), mid, fd)
    requires !(x.call.Connect? && x.call.fd == fd)
    requires forall j :: 0 <= j < |mid| ==> !(mid[j].call.Connect? && mid[j].call.fd == fd)
    requires InTurn(Run(Next(a, x), mid), z, fd)
    requires var fs := z.env.rawIn;
             && fs != [] && HearsPdu(fs[|fs| - 1], ControlPdu(OP_KEEPALIVE_RSP, b.mac, a.mac, y.env.junk))
             && fs[|fs| - 1].at <= z.env.t4 < fs[|fs| - 1].at + KEEPALIVE_SEND_MS
    ensures WentOutOn(a, Next(a, x), KeepaliveReq, fd, ControlPdu(OP_KEEPALIVE_REQ, a.mac, b.mac, x.env.junk))
    ensures WentOutOn(b, Next(b, y), KeepaliveRsp, gd, ControlPdu(OP_KEEPALIVE_RSP, b.mac, a.mac, y.env.junk))
    ensures Next(Run(Next(a, x), mid), z).peers[fd - 1].keepalive == 1
  {
    hide Next, Facts, WentOutOn, ControlPdu, HearsPdu, Silent;
    StepRequests(a, x, fd);
    PduFields(y.env.rawIn[i], OP_KEEPALIVE_REQ, a.mac, b.mac, x.env.junk);
    StepAnswers(b, y, gd, i);
    LinkRoles.StepKeepsRole(a, x, fd);
    KeepsInv(a, x);
    LinkRoles.RoleStays(Next(a, x), mid, fd);
    PduFields(z.env.rawIn[|z.env.rawIn| - 1], OP_KEEPALIVE_RSP, b.mac, a.mac, y.env.junk);
    StepTakesAnswer(Run(Next(a, x), mid), z, fd);
  }

  lemma KeepsInv(s: Link, a: Act)
    requires Inv(s) && CallOk(a.call) && EnvOk(a.env, s.hist.now)
    ensures Inv(Next(s, a))
  {
    hide Facts;
    StepKeeps(s, a.call, a.env);
  }

  predicate IsGoodbye(f: Heard) {
    RawFrame(f) && Lid(f) == LID_CONTROL && f.buf[2] == OP_DISCONNECT
  }

  /** The mailbox holds the event that names src. */
  ghost predicate ReportsClose(s: Link, src: Mac) {
    && s.mgmt.lenRx == DISCONNECTED_LEN && |s.mgmt.bufferRx| == MTU
    && s.mgmt.bufferRx[..2] == EVT_DISCONNECTED && s.mgmt.bufferRx[3..11] == src
  }

  lemma {:induction false} NoGoodbyeNoEvent(s: Link, fd: nat, fs: seq<Heard>, junk: byte)
    requires Shape(s) && 1 <= fd <= CONNECTION_COUNTER
    requires forall j :: 0 <= j < |fs| ==> RawFrame(fs[j]) && !IsGoodbye(fs[j])
    ensures ReadRaw(s, fd, fs, junk).mgmt == s.mgmt
    decreases |fs|
  {
    if fs != [] {
      var init, f := fs[..|fs| - 1], fs[|fs| - 1];
      NoGoodbyeNoEvent(s, fd, init, junk);
      PlainFrame(ReadRaw(s, fd, init, junk), fd, f, junk);
    }
  }

  lemma PlainFrame(s: Link, fd: nat, f: Heard, junk: byte)
    requires Shape(s) && 1 <= fd <= CONNECTION_COUNTER && RawFrame(f) && !IsGoodbye(f)
    ensures HandleFrame(s, fd, f, junk).mgmt == s.mgmt
  {
  }

  lemma GoodbyeIsReported(s: Link, fd: nat, f: Heard, junk: byte)
    requires Shape(s) && 1 <= fd <= CONNECTION_COUNTER && IsGoodbye(f) && s.mgmt.lenRx == 0
    ensures ReportsClose(HandleFrame(s, fd, f, junk), f.buf[3..11])
  {
    assert DisconnectedEvent(s.mgmt.bufferRx, f.buf[3..11])[3..11] == f.buf[3..11];
  }

  lemma EventStays(s: Link, t: Link, src: Mac)
    requires ReportsClose(s, src) && SameEvent(s, t)
    ensures ReportsClose(t, src)
  {
  }

  /** The first goodbye of a turn is reported, whatever is heard before and after. */
  lemma {:induction false} ReadRawReports(s: Link, fd: nat, fs: seq<Heard>, i: nat, junk: byte)
    requires Shape(s) && 1 <= fd <= CONNECTION_COUNTER && i < |fs| && s.mgmt.lenRx == 0
    requires (forall j :: 0 <= j < |fs| ==> RawFrame(fs[j])) && IsGoodbye(fs[i])
    requires forall j :: 0 <= j < i ==> !IsGoodbye(fs[j])
    ensures ReportsClose(ReadRaw(s, fd, fs, junk), fs[i].buf[3..11])
    decreases |fs|
  {
    hide HandleFrame, ReportsClose, IsGoodbye;
    var init, f := fs[..|fs| - 1], fs[|fs| - 1];
    var t := ReadRaw(s, fd, init, junk);
    if i < |init| {
      ReadRawReports(s, fd, init, i, junk);
      FrameApart(t, fd, f, junk);
      EventStays(t, ReadRaw(s, fd, fs, junk), fs[i].buf[3..11]);
    } else {
      NoGoodbyeNoEvent(s, fd, init, junk);
      IsControl(f);
      GoodbyeIsReported(t, fd, f, junk);
    }
  }

  lemma IsControl(f: Heard)
    requires IsGoodbye(f)
    ensures RawFrame(f) && f.buf[2] == OP_DISCONNECT
  {
  }

  lemma StepReports(s: Link, a: Act, fd: nat, i: nat)
    requires InTurn(s, a, fd) && LeavesEvent(a.call) && s.mgmt.lenRx == 0
    requires i < |a.env.rawIn| && IsGoodbye(a.env.rawIn[i]) && forall j :: 0 <= j < i ==> !IsGoodbye(a.env.rawIn[j])
    ensures ReportsClose(Next(s, a), a.env.rawIn[i].buf[3..11])
  {
    hide ReportsClose, IsGoodbye, Traffic, Supervise, Perform, ReadRaw, WriteRaw, SameEvent;
    var e, src: Mac := a.env, a.env.rawIn[i].buf[3..11];
    var s1 := RawExit(s, e);
    var r, t, u := ReadRaw(s1, fd, e.rawIn, e.junk), Traffic(s1, fd, e), Running(s, e);
    ReadRawReports(s1, fd, e.rawIn, i, e.junk);
    TrafficKeepsEvent(s1, fd, e);
    EventStays(r, t, src);
    SuperviseApart(Stamp(t, e.t3), fd, e.t4, e.junk);
    SameIsApart(t, Stamp(t, e.t3));
    EventStays(t, Stamp(t, e.t3), src);
    var v := Supervise(Stamp(t, e.t3), fd, e.t4, e.junk);
    EventStays(Stamp(t, e.t3), v, src);
    SameIsApart(v, u);
    EventStays(v, u, src);
    CallKeepsEvent(u, a.call, e);
    EventStays(u, Perform(u, a.call, e).s, src);
    SameIsApart(Perform(u, a.call, e).s, Next(s, a));
    EventStays(Perform(u, a.call, e).s, Next(s, a), src);
  }

  lemma {:induction false} TrafficKeepsEvent(s: Link, fd: nat, e: Env)
    requires Shape(s) && EnvShape(e) && 1 <= fd <= CONNECTION_COUNTER
    ensures SameEvent(ReadRaw(s, fd, e.rawIn, e.junk), Traffic(s, fd, e))
  {
    hide ReadRaw, SendFrom;
    var t := ReadRaw(s, fd, e.rawIn, e.junk);
    if t.peers[fd - 1].lenTx != 0 {
      SendFromApart(t, fd, t.peers[fd - 1].lenTx, 0, e.acked, e.junk);
    }
  }

  /**
    * Closing over whole calls: hal_comm_close puts the goodbye on the air, and a call of the other node in
    * whose turn it is the first one heard leaves the event that names the closer, unless it takes it itself.
    */
  lemma CloseOverSteps(a: Link, x: Act, fd: nat, b: Link, y: Act, gd: nat, i: nat)
    requires Shape(a) && EnvShape(x.env) && x.call == Close(fd) && 1 <= fd <= CONNECTION_COUNTER
    requires a.peers[fd - 1].pipe != -1 && a.mac != NO_MAC
    requires InTurn(b, y, gd) && LeavesEvent(y.call) && b.mgmt.lenRx == 0 && i < |y.env.rawIn|
    requires HearsPdu(y.env.rawIn[i], ControlPdu(OP_DISCONNECT, a.mac, a.peers[fd - 1].mac, x.env.junk))
    requires forall j :: 0 <= j < i ==> !IsGoodbye(y.env.rawIn[j])
    ensures WentOutOn(a, Next(a, x), DisconnectFrame, fd,
                      ControlPdu(OP_DISCONNECT, a.mac, a.peers[fd - 1].mac, x.env.junk))
    ensures ReportsClose(Next(b, y), a.mac)
  {
    ClosingSends(a, x, fd);
    PduFields(y.env.rawIn[i], OP_DISCONNECT, a.mac, a.peers[fd - 1].mac, x.env.junk);
    hide Next, WentOutOn, ControlPdu, HearsPdu, ReportsClose, InTurn;
    StepReports(b, y, gd, i);
  }

  lemma ClosingSends(a: Link, x: Act, fd: nat)
    requires Shape(a) && EnvShape(x.env) && x.call == Close(fd) && 1 <= fd <= CONNECTION_COUNTER
    requires a.peers[fd - 1].pipe != -1 && a.mac != NO_MAC
    ensures WentOutOn(a, Next(a, x), DisconnectFrame, fd,
                      ControlPdu(OP_DISCONNECT, a.mac, a.peers[fd - 1].mac, x.env.junk))
  {
    hide ControlPdu;
    assert IsFrame(Next(a, x).hist.air[|a.hist.air|], DisconnectFrame, fd,
                   ControlPdu(OP_DISCONNECT, a.mac, a.peers[fd - 1].mac, x.env.junk));
  }
}
