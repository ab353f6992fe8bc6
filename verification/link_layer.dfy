/**
  * comm_nrf24l01.c in its own form: the statics of the file are the fields of one object, changed in
  * place, and every function is a method proved against its specification on values in LinkSpec.
  */
module CommNrf24l01 {
  import opened Bits
  import opened Bytes
  import opened HalTime
  import opened Nrf24l01
  import opened PhyDriverNrf24
  import opened LinkPdu
  import opened Reassembly
  import opened LinkSpec
  import opened LinkRuns

  const ETIMEDOUT: int := -110

  /** One turn of write_raw's loop leads to where the loop was going to end. */
  lemma TurnLeadsOn(s: Link, fd: nat, left: nat, k: nat, acked: nat, junk: byte, t: Link)
    requires Shape(s) && 1 <= fd <= CONNECTION_COUNTER && 1 <= left <= s.peers[fd - 1].lenTx
    requires var u := SendOne(s, fd, left, junk); t == if k < acked then CountSent(u, fd) else ClearTx(u, fd)
    ensures Shape(t)
    ensures k >= acked ==> SendFrom(s, fd, left, k, acked, junk) == t
    ensures k < acked ==>
              && t.peers[fd - 1].lenTx == s.peers[fd - 1].lenTx
              && SendFrom(s, fd, left, k, acked, junk)
                 == SendFrom(t, fd, left - Min(left, PW_MSG_SIZE), k + 1, acked, junk)
  {
  }

  /** Bytes left after k full frames. */
  function Left(len: nat, k: nat): (left: nat)
    ensures left <= len && (left == 0 <==> PW_MSG_SIZE * k >= len)
  {
    if PW_MSG_SIZE * k < len then len - PW_MSG_SIZE * k else 0
  }

  lemma LeftNext(len: nat, k: nat)
    ensures Left(len, k + 1) == Left(len, k) - Min(Left(len, k), PW_MSG_SIZE)
  {
  }

  /** A call's own work after the background step, if it runs one, then the clock reading at its end. */
  lemma StepEnds(s: Link, c: Call, e: Env, o: Outcome)
    requires Shape(s) && CallOk(c) && EnvShape(e)
    requires o == Perform(if Runs(c) then LinkSpec.Running(s, e) else s, c, e)
    ensures Step(s, c, e) == o.(s := o.s.(hist := o.s.hist.(now := e.t5)))
  {
  }

  class LinkLayer {
    const mac: Mac
    var listen: bool
    var bitmask: Mask
    const peers: array<Peer>
    var mgmt: Mgmt
    var sched: Sched
    var bcast: Bcast
    const driver: Driver
    ghost var hist: Hist

    ghost function State(): (s: Link)
      reads this, peers, driver.dev
    {
      Link(mac, listen, bitmask, peers[..], mgmt, sched, bcast, driver.dev.chip, hist)
    }

    ghost predicate Valid()
      reads this, peers, driver.dev
    {
      Shape(State())
    }

    /** hal_comm_init on a radio fresh from power-on. */
    constructor (mac: Mac, regs: Radio)
      requires |regs.rxLow| == 4
      ensures fresh(peers) && fresh(driver) && fresh(driver.dev)
      ensures Valid() && State() == Session(mac, regs.(pipe0Address := [0, 0, 0, 0, 0]))
    {
      var dev := new Device(regs);
      dev.InitRadio(3);
      this.mac := mac;
      listen := false;
      bitmask := NO_PIPES[0 := true];
      peers := new Peer[CONNECTION_COUNTER](_ => FRESH_PEER);
      mgmt := Mgmt(-1, Zeros(MTU), 0, Zeros(MTU), 0);
      sched := Sched(START_MGMT, 0, 1, RAW_TIMEOUT_DEFAULT, 0, 0);
      bcast := Bcast(PRESENCE, TIMEOUT_INTERVAL, 0);
      driver := new Driver(dev);
      hist := Start(mac, dev.chip).hist;
      new;
      assert peers[..] == seq(CONNECTION_COUNTER, _ => FRESH_PEER);
    }

    /** phy_write; the registers the frame goes out under are recorded in the history. */
    method PhyWrite(ghost kind: Kind, pipe: nat, bytes: seq<byte>, acked: bool) returns (err: int)
      requires Valid()
      modifies this`hist, driver.dev
      ensures Valid() && State() == Transmit(old(State()), kind, pipe, bytes)
      ensures err == if 0 < |bytes| <= PAYLOAD_SIZE && acked then |bytes| else -1
    {
      ghost var tx := SetPtx(driver.dev.chip, pipe);
      err := driver.WriteFrame(pipe, |bytes|, false, acked);
      hist := hist.(air := hist.air + [Sent(kind, pipe, bytes, tx.rfCh, tx.enAA, tx.txAddr)]);
    }

    method NewRawTime() returns (newTime: nat)
      requires Valid()
      modifies this`sched
      ensures newTime == LinkSpec.NewRawTime(bitmask)
      ensures sched == old(sched).(rtOffset := NewRtOffset(bitmask))
    {
      newTime := 0;
      if bitmask[1] {
        newTime := newTime + 15;
      }
      if bitmask[2] {
        newTime := newTime + 18;
      }
      if bitmask[3] {
        newTime := newTime + 22;
      }
      if bitmask[4] {
        newTime := newTime + 26;
      }
      if bitmask[5] {
        newTime := newTime + 30;
      }
      var offset := newTime / 3;
      if offset > 20 {
        offset := offset - 5;
      }
      sched := sched.(rtOffset := offset);
      if newTime == 0 {
        newTime := RAW_TIMEOUT_DEFAULT;
      }
    }

    method AllocPipe() returns (fd: int)
      requires Valid()
      modifies this, peers
      ensures Valid() && (State(), fd) == LinkSpec.AllocPipe(old(State()))
    {
      var i := 0;
      while i < CONNECTION_COUNTER
        invariant 0 <= i <= CONNECTION_COUNTER && State() == old(State())
        invariant FirstFree(peers[..], i) == FirstFree(peers[..], 0)
      {
        if peers[i].pipe == -1 {
          peers[i] := FRESH_PEER.(pipe := i + 1);
          bitmask := bitmask[i + 1 := true];
          hist := hist.(heard := hist.heard[i := None], mark := hist.mark[i := |hist.air|],
                        connects := hist.connects[i := 0]);
          return i + 1;
        }
        i := i + 1;
      }
      return -1;
    }

    /** A pipe is given up, by hal_comm_close or after a silence, and the RAW time slice shrinks with it. */
    method FreePipe(sockfd: nat)
      requires Valid() && 1 <= sockfd <= CONNECTION_COUNTER && peers[sockfd - 1].pipe != -1
      modifies this, peers, driver.dev
      ensures Valid() && State() == LinkSpec.FreePipe(old(State()), sockfd)
    {
      var p := peers[sockfd - 1];
      bitmask := bitmask[p.pipe := false];
      peers[sockfd - 1] := p.(pipe := -1, keepalive := 0);
      var err := driver.Control(ResetPipe(sockfd));
      var newTime := NewRawTime();
      sched := sched.(rawTimeout := newTime);
    }

    // --- management channel ---

    method WriteMgmt(acked: bool) returns (err: int)
      requires Valid()
      modifies this, driver.dev
      ensures Valid() && State() == LinkSpec.WriteMgmt(old(State()), acked)
      ensures err == if old(mgmt.lenTx) == 0 then EAGAIN else if acked then old(mgmt.lenTx) else -1
    {
      if mgmt.lenTx == 0 {
        return EAGAIN;
      }
      err := PhyWrite(ConnectFrame, 0, mgmt.bufferTx[..mgmt.lenTx], acked);
      if err < 0 {
        return;
      }
      mgmt := mgmt.(lenTx := 0);
    }

    /** Bytes of an event written into the mailbox buffer. */
    method Put(off: nat, data: seq<byte>)
      requires off + |data| <= |mgmt.bufferRx|
      modifies this`mgmt
      ensures mgmt == old(mgmt).(bufferRx := Patch(old(mgmt).bufferRx, off, data))
    {
      mgmt := mgmt.(bufferRx := Patch(mgmt.bufferRx, off, data));
    }

    /** The event is complete. */
    method Post(len: nat)
      requires Valid() && len <= MTU
      modifies this`mgmt, this`hist
      ensures Valid() && State() == Queue(old(State()), old(mgmt.bufferRx), len)
    {
      mgmt := mgmt.(lenRx := len);
      hist := hist.(queued := hist.queued + [mgmt.bufferRx[..len]]);
    }

    method ReadMgmt(heard: Option<Heard>) returns (err: int)
      requires Valid() && (heard.Some? ==> MgmtFrame(heard.value))
      modifies this`mgmt, this`hist
      ensures Valid() && State() == LinkSpec.ReadMgmt(old(State()), heard)
      ensures err > 0 <==> hist.queued != old(hist.queued)
      ensures err > 0 ==> heard.Some? && err == heard.value.len
      ensures heard.None? ==> err == EAGAIN
      ensures heard.Some? && old(mgmt.lenRx) != 0 ==> err == EBUSY
      ensures heard.Some? && old(mgmt.lenRx) == 0 && err <= 0 ==>
                var f := heard.value;
                var notForUs := if f.buf[0] % 16 == TYPE_PRESENCE then listen
                                else f.buf[0] % 16 == TYPE_CONNECT_REQ && f.len == CONNECT_LEN && f.buf[9..17] != mac;
                err == if notForUs then EAGAIN else EINVAL
    {
      if heard.None? {
        return EAGAIN;
      }
      if mgmt.lenRx != 0 {
        return EBUSY;
      }
      var f := heard.value;
      if f.buf[0] % 16 == TYPE_PRESENCE {
        if listen {
          return EAGAIN;
        }
        if f.len < 9 {
          return EINVAL;
        }
        Put(0, EVT_PRESENCE + [0]);
        Put(3, f.buf[1..9]);
        Put(11, f.buf[9..f.len]);
        PresenceByFields(old(mgmt.bufferRx), f.buf[1..9], f.buf[9..f.len]);
        Post(f.len - 1 + 3);
      } else if f.buf[0] % 16 == TYPE_CONNECT_REQ {
        if f.len != CONNECT_LEN {
          return EINVAL;
        }
        if f.buf[9..17] != mac {
          return EAGAIN;
        }
        Put(0, EVT_CONNECTED + [0]);
        Put(3, f.buf[1..9]);
        Put(11, f.buf[9..17]);
        Put(19, [f.buf[17]]);
        Put(20, f.buf[18..23]);
        ConnectedByFields(old(mgmt.bufferRx), f.buf[1..9], f.buf[9..17], f.buf[17], f.buf[18..23]);
        Post(CONNECTED_LEN);
      } else {
        return EINVAL;
      }
      return f.len;
    }

    /** The DISCONNECTED event of read_raw and of the keepalive timeout. */
    method PostDisconnected(src: Mac)
      requires Valid()
      modifies this`mgmt, this`hist
      ensures Valid()
      ensures State() == Queue(old(State()), DisconnectedEvent(old(mgmt.bufferRx), src), DISCONNECTED_LEN)
    {
      Put(0, EVT_DISCONNECTED);
      Put(3, src);
      DisconnectedByFields(old(mgmt.bufferRx), src);
      Post(DISCONNECTED_LEN);
    }

    method PresenceConnect(e: Env)
      requires Valid()
      modifies this, driver.dev
      ensures Valid() && State() == LinkSpec.PresenceConnect(old(State()), e)
    {
      match bcast.state {
        case PRESENCE =>
          if mac == NO_MAC {
            return;
          }
          var err := PhyWrite(PresenceFrame, 0, PresencePdu(mac, THING_NAME, e.junk), e.ackPresence);
          if err < 0 {
            return;
          }
          if bcast.previous == TIMEOUT_INTERVAL {
            bcast := bcast.(start := Clock(e.t1));
            hist := hist.(windows := hist.windows + [e.t1]);
          }
          bcast := bcast.(state := BURST_WINDOW);
        case BURST_WINDOW =>
          if HalTimeout(Clock(e.t1), bcast.start, WINDOW_BCAST) {
            bcast := bcast.(state := STANDBY);
          } else if HalTimeout(Clock(e.t2), bcast.start, BURST_BCAST) {
            bcast := bcast.(state := PRESENCE);
          }
          bcast := bcast.(previous := BURST_WINDOW);
        case STANDBY =>
          var err := driver.Control(SetStandby);
          bcast := bcast.(state := TIMEOUT_INTERVAL);
        case TIMEOUT_INTERVAL =>
          if HalTimeout(Clock(e.t1), bcast.start, INTERVAL_BCAST) {
            bcast := bcast.(state := PRESENCE);
          }
          bcast := bcast.(previous := TIMEOUT_INTERVAL);
      }
    }

    // --- data channel ---

    /** write_disconnect and write_keepalive differ only in the opcode. */
    method WriteControl(ghost kind: Kind, sockfd: nat, op: byte, dst: Mac, junk: byte, acked: bool) returns (err: int)
      requires Valid()
      modifies this`hist, driver.dev
      ensures Valid() && State() == Transmit(old(State()), kind, sockfd, ControlPdu(op, mac, dst, junk))
      ensures err == if acked then 0 else -1
    {
      err := PhyWrite(kind, sockfd, ControlPdu(op, mac, dst, junk), acked);
      if err < 0 {
        return;
      }
      return 0;
    }

    /** The pipe has nothing to send and starts its next message at number 0. */
    method ClearTx(sockfd: nat)
      requires Valid() && 1 <= sockfd <= CONNECTION_COUNTER
      modifies peers
      ensures Valid() && State() == LinkSpec.ClearTx(old(State()), sockfd)
    {
      peers[sockfd - 1] := peers[sockfd - 1].(lenTx := 0, seqnumberTx := 0);
    }

    /** One turn of write_raw's loop; a frame that fails gives the message up. */
    method WriteFragment(sockfd: nat, left: nat, junk: byte, acked: bool) returns (err: int)
      requires Valid() && 1 <= sockfd <= CONNECTION_COUNTER && 1 <= left <= peers[sockfd - 1].lenTx
      modifies this`hist, peers, driver.dev
      ensures Valid() && (err < 0 <==> !acked) && (err < 0 ==> err == -1)
      ensures var t := SendOne(old(State()), sockfd, left, junk);
              State() == if acked then CountSent(t, sockfd) else LinkSpec.ClearTx(t, sockfd)
    {
      var p := peers[sockfd - 1];
      var plen := Min(left, PW_MSG_SIZE);
      var lid := if left > PW_MSG_SIZE then LID_DATA_FRAG else LID_DATA_END;
      var pdu := [lid + 4 * (p.seqnumberTx % 64), junk] + p.bufferTx[p.lenTx - left..p.lenTx - left + plen];
      err := PhyWrite(DataFrame, sockfd, pdu, acked);
      if err < 0 {
        ClearTx(sockfd);
        return;
      }
      peers[sockfd - 1] := p.(seqnumberTx := (p.seqnumberTx + 1) % 256);
    }

    /** Inside write_raw's loop: k frames out, left bytes to go, and `sent` is where it will end. */
    ghost predicate Sending(sockfd: nat, left: nat, k: nat, acked: nat, junk: byte, len: nat, sent: Link)
      reads this, peers, driver.dev
    {
      && Valid() && 1 <= sockfd <= CONNECTION_COUNTER && left <= peers[sockfd - 1].lenTx == len
      && SendFrom(State(), sockfd, left, k, acked, junk) == sent
    }

    method NextFragment(sockfd: nat, left: nat, k: nat, acked: nat, junk: byte, ghost len: nat, ghost sent: Link)
      returns (err: int)
      requires Sending(sockfd, left, k, acked, junk, len, sent) && left != 0
      modifies this`hist, peers, driver.dev
      ensures err < 0 <==> k >= acked
      ensures err < 0 ==> err == -1 && Valid() && State() == sent
      ensures err >= 0 ==> Sending(sockfd, left - Min(left, PW_MSG_SIZE), k + 1, acked, junk, len, sent)
    {
      err := WriteFragment(sockfd, left, junk, k < acked);
      TurnLeadsOn(old(State()), sockfd, left, k, acked, junk, State());
    }

    method ResetControls(sockfd: nat, k: nat, acked: nat, junk: byte, ghost len: nat, ghost sent: Link)
      returns (err: int)
      requires Sending(sockfd, 0, k, acked, junk, len, sent)
      modifies peers
      ensures err == len && Valid() && State() == sent
    {
      err := peers[sockfd - 1].lenTx;
      ClearTx(sockfd);
    }

    /** write_raw's loop: fragment after fragment until one fails or none is left. */
    method SendFragments(sockfd: nat, acked: nat, junk: byte, len: nat, ghost sent: Link) returns (err: int)
      requires Sending(sockfd, len, 0, acked, junk, len, sent)
      modifies this`hist, peers, driver.dev
      ensures Valid() && State() == sent
      ensures err == if Left(len, acked) == 0 then len else -1
    {
      hide LinkSpec.SendFrom;
      var left, k := len, 0;
      while left != 0
        invariant k <= acked && left == Left(len, k)
        invariant Sending(sockfd, left, k, acked, junk, len, sent)
        decreases left
      {
        LeftNext(len, k);
        err := NextFragment(sockfd, left, k, acked, junk, len, sent);
        if err < 0 {
          return;
        }
        left := left - Min(left, PW_MSG_SIZE);
        k := k + 1;
      }
      err := ResetControls(sockfd, k, acked, junk, len, sent);
    }

    method WriteRaw(sockfd: nat, acked: nat, junk: byte) returns (err: int)
      requires Valid() && 1 <= sockfd <= CONNECTION_COUNTER
      modifies this`hist, peers, driver.dev
      ensures Valid() && State() == LinkSpec.WriteRaw(old(State()), sockfd, acked, junk)
      ensures var p := old(peers[sockfd - 1]);
              err == if p.lenTx == 0 then EAGAIN
                     else if FrameCount(p.bufferTx[..p.lenTx]) <= acked then p.lenTx else -1
    {
      var len := peers[sockfd - 1].lenTx;
      if len == 0 {
        return EAGAIN;
      }
      ghost var m := peers[sockfd - 1].bufferTx[..len];
      err := SendFragments(sockfd, acked, junk, len, SendFrom(State(), sockfd, len, 0, acked, junk));
      hist := hist.(tries := hist.tries + [Try(sockfd, m, Min(acked + 1, FrameCount(m)))]);
    }

    method HandleControl(sockfd: nat, f: Heard, junk: byte)
      requires Valid() && 1 <= sockfd <= CONNECTION_COUNTER && RawFrame(f)
      modifies this`mgmt, this`hist, peers, driver.dev
      ensures Valid() && State() == LinkSpec.HandleControl(old(State()), sockfd, f, junk)
    {
      var p := peers[sockfd - 1];
      var op := f.buf[2];
      if op == OP_KEEPALIVE_REQ && f.buf[3..11] == p.mac && f.buf[11..19] == mac {
        var err := WriteControl(KeepaliveRsp, sockfd, OP_KEEPALIVE_RSP, p.mac, junk, true);
      } else if op == OP_KEEPALIVE_RSP {
        if p.keepalive != 0 {
          peers[sockfd - 1] := p.(keepalive := 1);
        }
      } else if op == OP_DISCONNECT && mgmt.lenRx == 0 {
        PostDisconnected(f.buf[3..11]);
      }
    }

    /** The branches on a data frame, on the receive side of one peers[] entry. */
    method Reassemble(slot: RxSlot, f: Heard) returns (r: RxSlot)
      requires |slot.buffer| == DATA_SIZE && slot.offset <= DATA_SIZE && slot.len <= DATA_SIZE
      requires RawFrame(f) && IsData(f)
      ensures r == Accept(slot, f) && r.len <= DATA_SIZE
    {
      hide Patch, Lid, Nseq;
      r := slot;
      if r.len != 0 {
        return;
      }
      if Nseq(f) == 0 {
        r := r.(offset := 0);
        r := r.(seqn := 0);
      }
      if r.seqn < Nseq(f) {
        return;
      }
      if r.seqn > Nseq(f) {
        return;
      }
      var plen := f.len - DATA_HDR_SIZE;
      if Lid(f) == LID_DATA_FRAG && plen < PW_MSG_SIZE {
        return;
      }
      if r.offset + plen > DATA_SIZE {
        plen := DATA_SIZE - r.offset;
      }
      r := r.(buffer := Patch(r.buffer, r.offset, f.buf[DATA_HDR_SIZE..DATA_HDR_SIZE + plen]));
      r := r.(offset := r.offset + plen);
      r := r.(seqn := r.seqn + 1);
      if Lid(f) == LID_DATA_END {
        r := r.(len := r.offset);
        r := r.(seqn := 0);
        r := r.(offset := 0);
      }
    }

    /** A data frame extends, completes or leaves alone the message being received. */
    method TakeData(sockfd: nat, f: Heard)
      requires Valid() && 1 <= sockfd <= CONNECTION_COUNTER && RawFrame(f) && IsData(f)
      modifies peers
      ensures Valid()
      ensures var p := old(peers[sockfd - 1]); State() == SetPeer(old(State()), sockfd, p.(rx := Accept(p.rx, f)))
    {
      var r := Reassemble(peers[sockfd - 1].rx, f);
      hide Accept;
      peers[sockfd - 1] := peers[sockfd - 1].(rx := r);
    }

    method HandleData(sockfd: nat, f: Heard)
      requires Valid() && 1 <= sockfd <= CONNECTION_COUNTER && RawFrame(f) && IsData(f)
      modifies peers
      ensures Valid()
      ensures var p := ResetKeepalive(old(peers[sockfd - 1]));
              State() == SetPeer(old(State()), sockfd, p.(rx := Accept(p.rx, f)))
    {
      if peers[sockfd - 1].keepalive != 0 {
        peers[sockfd - 1] := peers[sockfd - 1].(keepalive := 1);
      }
      TakeData(sockfd, f);
    }

    method HandleFrame(sockfd: nat, f: Heard, junk: byte)
      requires Valid() && 1 <= sockfd <= CONNECTION_COUNTER && RawFrame(f)
      modifies this`mgmt, this`hist, peers, driver.dev
      ensures Valid() && State() == LinkSpec.HandleFrame(old(State()), sockfd, f, junk)
    {
      peers[sockfd - 1] := peers[sockfd - 1].(anchor := Clock(f.at));
      hist := hist.(now := f.at, heard := hist.heard[sockfd - 1 := Some(f.at)],
                    mark := hist.mark[sockfd - 1 := |hist.air|], connects := hist.connects[sockfd - 1 := 0]);
      if Lid(f) == LID_CONTROL {
        HandleControl(sockfd, f, junk);
      } else if IsData(f) {
        HandleData(sockfd, f);
      }
    }

    method ReadRaw(sockfd: nat, frames: seq<Heard>, junk: byte)
      requires Valid() && 1 <= sockfd <= CONNECTION_COUNTER
      requires forall i :: 0 <= i < |frames| ==> RawFrame(frames[i])
      modifies this`mgmt, this`hist, peers, driver.dev
      ensures Valid() && State() == LinkSpec.ReadRaw(old(State()), sockfd, frames, junk)
    {
      hide LinkSpec.HandleFrame;
      var i := 0;
      while i < |frames|
        invariant 0 <= i <= |frames| && Valid()
        invariant State() == LinkSpec.ReadRaw(old(State()), sockfd, frames[..i], junk)
      {
        HandleFrame(sockfd, frames[i], junk);
        i := i + 1;
        assert frames[..i][..i - 1] == frames[..i - 1];
      }
      assert frames[..i] == frames;
    }

    /** ETIMEDOUT for a silent peer; otherwise a keepalive request if one is due. */
    method CheckKeepalive(sockfd: nat, t: nat, junk: byte) returns (err: int)
      requires Valid() && 1 <= sockfd <= CONNECTION_COUNTER
      modifies this`hist, peers, driver.dev
      ensures Valid()
      ensures err == ETIMEDOUT <==> Silent(old(peers[sockfd - 1]), t)
      ensures State() == if err != ETIMEDOUT && RequestDue(old(peers[sockfd - 1]), t)
                         then Request(old(State()), sockfd, junk) else old(State())
    {
      var p := peers[sockfd - 1];
      if HalTimeout(Clock(t), p.anchor, KEEPALIVE_TIMEOUT_MS) {
        return ETIMEDOUT;
      }
      if p.keepalive == 0 {
        return 0;
      }
      if !HalTimeout(Clock(t), p.anchor, p.keepalive * KEEPALIVE_SEND_MS) {
        return 0;
      }
      peers[sockfd - 1] := p.(keepalive := (p.keepalive + 1) % 256);
      err := WriteControl(KeepaliveReq, sockfd, OP_KEEPALIVE_REQ, p.mac, junk, true);
    }

    /** What running() does with the verdict. */
    method Supervise(sockfd: nat, t: nat, junk: byte)
      requires Valid() && 1 <= sockfd <= CONNECTION_COUNTER && peers[sockfd - 1].pipe != -1
      modifies this, peers, driver.dev
      ensures Valid() && State() == LinkSpec.Supervise(old(State()), sockfd, t, junk)
    {
      var err := CheckKeepalive(sockfd, t, junk);
      if err == ETIMEDOUT && mgmt.lenRx == 0 {
        ghost var freed := Freed(peers[sockfd - 1].mac, hist.heard[sockfd - 1], t, |hist.queued|);
        PostDisconnected(peers[sockfd - 1].mac);
        FreePipe(sockfd);
        hist := hist.(freed := hist.freed + [freed]);
      }
    }

    // --- running() ---

    method LeaveRawState(e: Env)
      requires Valid()
      modifies this`sched, this`hist
      ensures Valid() && State() == RawExit(old(State()), e)
    {
      if !AllRaw(bitmask) {
        if HalTimeout(Clock(e.t1), sched.start, sched.rawTimeout)
           && HalTimeout(Clock(e.t2), sched.rtStamp, sched.rtOffset) {
          ghost var visit := Visit(true, hist.visitBegan, e.t1, sched.rawTimeout, AllRaw(bitmask));
          hist := hist.(visits := hist.visits + [visit]);
          sched := sched.(state := START_MGMT);
        }
      }
    }

    /** The pipe in turn reads, writes and is supervised. */
    method Serve(sockfd: nat, e: Env)
      requires Valid() && EnvShape(e) && 1 <= sockfd <= CONNECTION_COUNTER
      modifies this, peers, driver.dev
      ensures Valid() && State() == LinkSpec.Serve(old(State()), sockfd, e)
    {
      if peers[sockfd - 1].pipe != -1 {
        ReadRaw(sockfd, e.rawIn, e.junk);
        var err := WriteRaw(sockfd, e.acked, e.junk);
        sched := sched.(rtStamp := Clock(e.t3) % 256);
        hist := hist.(now := e.t3);
        Supervise(sockfd, e.t4, e.junk);
      }
    }

    method RunRaw(e: Env)
      requires Valid() && EnvShape(e)
      modifies this, peers, driver.dev
      ensures Valid() && State() == RawStep(old(State()), e)
    {
      LeaveRawState(e);
      Serve(sched.sockIndex, e);
      var next := sched.sockIndex + 1;
      if next > CONNECTION_COUNTER {
        next := 1;
      }
      sched := sched.(sockIndex := next);
    }

    method RunMgmt(e: Env)
      requires Valid() && EnvShape(e)
      modifies this, driver.dev
      ensures Valid() && State() == MgmtStep(old(State()), e)
    {
      hide LinkSpec.ReadMgmt, LinkSpec.WriteMgmt, LinkSpec.PresenceConnect;
      var err := ReadMgmt(e.mgmtIn);
      err := WriteMgmt(e.ackMgmt);
      if listen {
        PresenceConnect(e);
      }
      if AnyRaw(bitmask) {
        if HalTimeout(Clock(e.t3), sched.start, MGMT_TIMEOUT) {
          hist := hist.(visits := hist.visits + [Visit(false, hist.visitBegan, e.t3, MGMT_TIMEOUT, false)]);
          sched := sched.(state := START_RAW);
        }
      }
    }

    method StartChannel(ch: byte, ack: bool, next: RunState, e: Env)
      requires Valid()
      modifies this, driver.dev
      ensures Valid() && State() == EnterChannel(old(State()), ch, ack, next, e)
    {
      var err := driver.Control(SetCh(ch, ack));
      sched := sched.(start := Clock(e.t1));
      sched := sched.(state := next);
      hist := hist.(visitBegan := e.t1);
    }

    method Running(e: Env)
      requires Valid() && EnvShape(e)
      modifies this, peers, driver.dev
      ensures Valid() && State() == LinkSpec.Running(old(State()), e)
    {
      hide LinkSpec.MgmtStep, LinkSpec.RawStep, Ioctl;
      match sched.state {
        case START_MGMT => StartChannel(MGMT_CHANNEL, false, MGMT, e);
        case MGMT => RunMgmt(e);
        case START_RAW => StartChannel(RAW_CHANNEL, true, RAW, e);
        case RAW => RunRaw(e);
      }
      hist := hist.(now := e.t4);
    }

    // --- the interface ---

    /** The socket's own access address: the tail of the node's address after the pipe number. */
    method OwnAddress(pipe: nat) returns (aa: Addr)
      requires 1 <= pipe <= CONNECTION_COUNTER
      ensures aa == AddressFor(mac, pipe)
    {
      aa := mac[3..];
      aa := aa[0 := pipe];
    }

    method OpenSocket(raw: bool) returns (retval: int)
      requires Valid()
      modifies this, peers, driver.dev
      ensures Valid() && Outcome(State(), retval, []) == SocketCall(old(State()), raw)
    {
      var aa: Addr := BROADCAST_ADDRESS;
      if !raw {
        if mgmt.pipe == 0 {
          return EUSERS;
        }
        retval := 0;
        mgmt := mgmt.(pipe := 0);
      } else if mgmt.pipe == -1 {
        mgmt := mgmt.(pipe := 0);
        retval := 0;
      } else {
        retval := AllocPipe();
        if retval < 0 {
          return EUSERS;
        }
        aa := OwnAddress(retval);
        hist := hist.(addrs := hist.addrs[retval - 1 := aa]);
      }
      var err := driver.Control(SetPipe(retval, aa));
    }

    /** hal_comm_socket; raw distinguishes HAL_COMM_PROTO_RAW from HAL_COMM_PROTO_MGMT. */
    method CommSocket(raw: bool, e: Env) returns (retval: int)
      requires Valid() && EnvShape(e)
      modifies this, peers, driver.dev
      ensures Valid() && Outcome(State(), retval, []) == Step(old(State()), Socket(raw), e)
    {
      hide SocketCall;
      retval := OpenSocket(raw);
      StepEnds(old(State()), Socket(raw), e, Outcome(State(), retval, []));
      hist := hist.(now := e.t5);
    }

    method ClosePipe(sockfd: int, junk: byte)
      requires Valid()
      modifies this, peers, driver.dev
      ensures Valid() && Outcome(State(), 0, []) == CloseCall(old(State()), sockfd, junk)
    {
      if sockfd >= 1 && sockfd <= 5 && peers[sockfd - 1].pipe != -1 {
        if mac != NO_MAC {
          var err := WriteControl(DisconnectFrame, sockfd, OP_DISCONNECT, peers[sockfd - 1].mac, junk, true);
        }
        FreePipe(sockfd);
      }
    }

    method CommClose(sockfd: int, e: Env) returns (r: int)
      requires Valid() && EnvShape(e)
      modifies this, peers, driver.dev
      ensures Valid() && Outcome(State(), r, []) == Step(old(State()), Close(sockfd), e)
    {
      hide CloseCall;
      ClosePipe(sockfd, e.junk);
      StepEnds(old(State()), Close(sockfd), e, Outcome(State(), 0, []));
      hist := hist.(now := e.t5);
      return 0;
    }

    method CommListen(e: Env) returns (r: int)
      requires Valid() && EnvShape(e)
      modifies this
      ensures Valid() && Outcome(State(), r, []) == Step(old(State()), Listen, e)
    {
      listen := true;
      bitmask := bitmask[0 := true];
      hist := hist.(now := e.t5);
      return 0;
    }

    /** hal_comm_read after the background step. */
    method Fetch(sockfd: int, count: nat) returns (length: int, buffer: seq<byte>)
      requires Valid()
      modifies this, peers
      ensures Valid() && Outcome(State(), length, buffer) == ReadCall(old(State()), sockfd, count)
    {
      buffer := [];
      if sockfd < 0 || sockfd > 5 || count == 0 {
        return EINVAL, [];
      }
      if sockfd == 0 {
        if mgmt.lenRx == 0 {
          return EAGAIN, [];
        }
        length := if mgmt.lenRx > count then count else mgmt.lenRx;
        buffer := mgmt.bufferRx[..length];
        hist := hist.(consumed := hist.consumed + [mgmt.bufferRx[..mgmt.lenRx]]);
        mgmt := mgmt.(lenRx := 0);
      } else if peers[sockfd - 1].rx.len != 0 {
        var r := peers[sockfd - 1].rx;
        length := if r.len > count then count else r.len;
        buffer := r.buffer[..length];
        peers[sockfd - 1] := peers[sockfd - 1].(rx := r.(len := 0));
      } else {
        return EAGAIN, [];
      }
    }

    method CommRead(sockfd: int, count: nat, e: Env) returns (length: int, buffer: seq<byte>)
      requires Valid() && EnvShape(e)
      modifies this, peers, driver.dev
      ensures Valid() && Outcome(State(), length, buffer) == Step(old(State()), Read(sockfd, count), e)
    {
      hide LinkSpec.Running, ReadCall;
      Running(e);
      length, buffer := Fetch(sockfd, count);
      StepEnds(old(State()), Read(sockfd, count), e, Outcome(State(), length, buffer));
      hist := hist.(now := e.t5);
    }

    /** hal_comm_write after the background step. */
    method Load(sockfd: int, data: seq<byte>) returns (r: int)
      requires Valid()
      modifies this`hist, peers
      ensures Valid() && Outcome(State(), r, []) == WriteCall(old(State()), sockfd, data)
    {
      if sockfd < 1 || sockfd > 5 || |data| == 0 || |data| > DATA_SIZE {
        return EINVAL;
      }
      var p := peers[sockfd - 1];
      if p.lenTx != 0 {
        return EBUSY;
      }
      peers[sockfd - 1] := p.(bufferTx := Patch(p.bufferTx, 0, data), lenTx := |data|);
      hist := hist.(given := hist.given + {(sockfd as nat, data)});
      return |data|;
    }

    method CommWrite(sockfd: int, data: seq<byte>, e: Env) returns (r: int)
      requires Valid() && EnvShape(e)
      modifies this, peers, driver.dev
      ensures Valid() && Outcome(State(), r, []) == Step(old(State()), Write(sockfd, data), e)
    {
      hide LinkSpec.Running, WriteCall;
      Running(e);
      r := Load(sockfd, data);
      StepEnds(old(State()), Write(sockfd, data), e, Outcome(State(), r, []));
      hist := hist.(now := e.t5);
    }

    /** The pipe of a peer whose request was accepted. */
    method Admit(pipe: nat, aa: Addr, src: Mac, t: nat)
      requires Valid() && 1 <= pipe <= CONNECTION_COUNTER
      modifies this, peers, driver.dev
      ensures Valid()
      ensures var s3 := ResizeRaw(OpenFor(old(State()), pipe, aa).(listen := false));
              var s4 := SetPeer(s3, pipe, s3.peers[pipe - 1].(mac := src, keepalive := 0, anchor := Clock(t)));
              State() == s4.(hist := s4.hist.(heard := s4.hist.heard[pipe - 1 := Some(t)]))
    {
      hide Ioctl, LinkSpec.NewRtOffset;
      listen := false;
      var err := driver.Control(SetPipe(pipe, aa));
      var newTime := NewRawTime();
      sched := sched.(rawTimeout := newTime);
      peers[pipe - 1] := peers[pipe - 1].(mac := src);
      peers[pipe - 1] := peers[pipe - 1].(keepalive := 0);
      peers[pipe - 1] := peers[pipe - 1].(anchor := Clock(t));
      hist := hist.(addrs := hist.addrs[pipe - 1 := aa], heard := hist.heard[pipe - 1 := Some(t)]);
    }

    /** hal_comm_accept after the background step. */
    method TakeRequest(t: nat) returns (pipe: int, src: seq<byte>)
      requires Valid()
      modifies this, peers, driver.dev
      ensures Valid() && Outcome(State(), pipe, src) == AcceptFrom(old(State()), t)
    {
      if mgmt.lenRx == 0 {
        return EAGAIN, [];
      }
      var event := mgmt.bufferRx;
      hist := hist.(consumed := hist.consumed + [event[..mgmt.lenRx]]);
      mgmt := mgmt.(lenRx := 0);
      if event[..2] != EVT_CONNECTED || event[11..19] != mac {
        return EAGAIN, [];
      }
      pipe := AllocPipe();
      if pipe < 0 {
        return EUSERS, [];
      }
      Admit(pipe, event[20..25], event[3..11], t);
      return pipe, event[3..11];
    }

    method CommAccept(e: Env) returns (pipe: int, src: seq<byte>)
      requires Valid() && EnvShape(e)
      modifies this, peers, driver.dev
      ensures Valid() && Outcome(State(), pipe, src) == Step(old(State()), AcceptCall, e)
    {
      hide LinkSpec.Running, AcceptFrom;
      Running(e);
      pipe, src := TakeRequest(e.t5);
      StepEnds(old(State()), AcceptCall, e, Outcome(State(), pipe, src));
      hist := hist.(now := e.t5);
    }

    method BuildRequest(sockfd: nat, dst: Mac) returns (buf: seq<byte>)
      requires |mgmt.bufferTx| == MTU && 1 <= sockfd <= CONNECTION_COUNTER
      ensures buf == ConnectPdu(mgmt.bufferTx, mac, dst, RAW_CHANNEL, AddressFor(mac, sockfd))
    {
      buf := mgmt.bufferTx;
      buf := Patch(buf, 0, [TYPE_CONNECT_REQ + buf[0] / 16 * 16]);
      buf := Patch(buf, 1, mac);
      buf := Patch(buf, 9, dst);
      buf := Patch(buf, 17, [RAW_CHANNEL]);
      var aa := OwnAddress(sockfd);
      buf := Patch(buf, 18, aa);
      RequestByFields(mgmt.bufferTx, mac, dst, RAW_CHANNEL, aa);
    }

    /** hal_comm_connect after the background step. */
    method PrepareRequest(sockfd: int, dst: Mac, t: nat) returns (r: int)
      requires Valid() && 1 <= sockfd <= CONNECTION_COUNTER
      modifies this, peers
      ensures Valid() && Outcome(State(), r, []) == ConnectTo(old(State()), sockfd, dst, t)
    {
      if mgmt.lenTx != 0 {
        return EBUSY;
      }
      var buf := BuildRequest(sockfd, dst);
      var p := peers[sockfd - 1];
      peers[sockfd - 1] := p.(mac := dst, anchor := Clock(t), keepalive := 1);
      mgmt := mgmt.(bufferTx := buf, lenTx := CONNECT_LEN);
      hist := hist.(heard := hist.heard[sockfd - 1 := Some(t)],
                    connects := hist.connects[sockfd - 1 := hist.connects[sockfd - 1] + 1]);
      return 0;
    }

    method CommConnect(sockfd: int, dst: Mac, e: Env) returns (r: int)
      requires Valid() && EnvShape(e) && 1 <= sockfd <= CONNECTION_COUNTER
      modifies this, peers, driver.dev
      ensures Valid() && Outcome(State(), r, []) == Step(old(State()), Connect(sockfd, dst), e)
    {
      hide LinkSpec.Running, ConnectTo;
      Running(e);
      r := PrepareRequest(sockfd, dst, e.t5);
      StepEnds(old(State()), Connect(sockfd, dst), e, Outcome(State(), r, []));
      hist := hist.(now := e.t5);
    }
  }
}
