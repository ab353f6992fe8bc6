/**
  * What the interface hands over and answers: every event in order and byte for byte, every message as it
  * was given, and the return value of each call.
  */
module LinkEvents {
  import opened Bytes
  import opened HalTime
  import opened Nrf24l01
  import opened PhyDriverNrf24
  import opened LinkPdu
  import opened LinkSpec
  import opened LinkInvariants
  import opened LinkRuns
  import opened LinkService
  import opened LinkAddresses
  import LinkTimers

  // --- events ---

  /** The event waiting in the mailbox, if any. */
  function Waiting(s: Link): (ev: Option<seq<byte>>)
    requires Shape(s)
  {
    if s.mgmt.lenRx == 0 then None else Some(s.mgmt.bufferRx[..s.mgmt.lenRx])
  }

  /** The calls that take an event: a read of the management socket with room, and hal_comm_accept. */
  predicate WantsEvent(c: Call) {
    c.AcceptCall? || (c.Read? && c.fd == 0 && c.count != 0)
  }

  /** The event a call takes, after its background step. */
  function Taken(s: Link, a: Act): (evs: seq<seq<byte>>)
    requires Shape(s) && EnvShape(a.env)
  {
    if WantsEvent(a.call) && Waiting(Before(s, a)).Some? then [Waiting(Before(s, a)).value] else []
  }

  lemma PerformTakes(s: Link, c: Call, e: Env)
    requires Shape(s) && CallOk(c)
    ensures var o := Perform(s, c, e);
            && (!WantsEvent(c) ==> Waiting(o.s) == Waiting(s) && o.s.hist.consumed == s.hist.consumed)
            && (WantsEvent(c) ==>
                  && Waiting(o.s).None?
                  && o.s.hist.consumed == s.hist.consumed + if Waiting(s).Some? then [Waiting(s).value] else [])
            && (WantsEvent(c) && c.Read? ==>
                  match Waiting(s)
                  case None => o.r == -11 && o.data == []
                  case Some(ev) => o.r == Min(c.count, |ev|) && o.r > 0 && o.data == ev[..o.r])
            && o.s.hist.queued == s.hist.queued
  {
    hide SocketCall, AcceptFrom;
    match c
    case Socket(raw) => SocketTakesNothing(s, raw);
    case AcceptCall => AcceptTakes(s, e.t5);
    case _ =>
  }

  lemma SocketTakesNothing(s: Link, raw: bool)
    requires Shape(s)
    ensures var t := SocketCall(s, raw).s;
            t.mgmt.bufferRx == s.mgmt.bufferRx && t.mgmt.lenRx == s.mgmt.lenRx
            && t.hist.consumed == s.hist.consumed && t.hist.queued == s.hist.queued
  {
  }

  lemma AcceptTakes(s: Link, t: nat)
    requires Shape(s)
    ensures var u := AcceptFrom(s, t).s;
            && u.mgmt.lenRx == 0 && u.hist.queued == s.hist.queued
            && u.hist.consumed == s.hist.consumed + if Waiting(s).Some? then [Waiting(s).value] else []
  {
  }

  lemma RunningConsumesNothing(s: Link, e: Env)
    requires Shape(s) && EnvShape(e)
    ensures Running(s, e).hist.consumed == s.hist.consumed
  {
    hide RawStep, MgmtStep;
    match s.sched.state
    case RAW => RawConsumesNothing(s, e);
    case MGMT => MgmtConsumesNothing(s, e);
    case _ =>
  }

  lemma FrameConsumesNothing(s: Link, fd: nat, f: Heard, junk: byte)
    requires Shape(s) && 1 <= fd <= CONNECTION_COUNTER && RawFrame(f)
    ensures HandleFrame(s, fd, f, junk).hist.consumed == s.hist.consumed
  {
  }

  lemma {:induction false} ReadRawConsumesNothing(s: Link, fd: nat, fs: seq<Heard>, junk: byte)
    requires Shape(s) && 1 <= fd <= CONNECTION_COUNTER && forall i :: 0 <= i < |fs| ==> RawFrame(fs[i])
    ensures ReadRaw(s, fd, fs, junk).hist.consumed == s.hist.consumed
    decreases |fs|
  {
    if fs != [] {
      hide HandleFrame;
      ReadRawConsumesNothing(s, fd, fs[..|fs| - 1], junk);
      FrameConsumesNothing(ReadRaw(s, fd, fs[..|fs| - 1], junk), fd, fs[|fs| - 1], junk);
    }
  }

  lemma {:induction false} SendFromConsumesNothing(s: Link, fd: nat, left: nat, k: nat, acked: nat, junk: byte)
    requires Shape(s) && 1 <= fd <= CONNECTION_COUNTER && left <= s.peers[fd - 1].lenTx
    ensures SendFrom(s, fd, left, k, acked, junk).hist.consumed == s.hist.consumed
    ensures SendFrom(s, fd, left, k, acked, junk).hist.given == s.hist.given
    decreases left
  {
    hide SendFrom;
    SendFromTurn(s, fd, left, k, acked, junk);
    if left != 0 && k < acked {
      var t := CountSent(SendOne(s, fd, left, junk), fd);
      SendFromConsumesNothing(t, fd, left - Min(left, PW_MSG_SIZE), k + 1, acked, junk);
    }
  }

  lemma SuperviseConsumesNothing(s: Link, fd: nat, t: nat, junk: byte)
    requires Shape(s) && 1 <= fd <= CONNECTION_COUNTER && s.peers[fd - 1].pipe != -1
    ensures Supervise(s, fd, t, junk).hist.consumed == s.hist.consumed
  {
  }

  lemma RawConsumesNothing(s: Link, e: Env)
    requires Shape(s) && EnvShape(e)
    ensures RawStep(s, e).hist.consumed == s.hist.consumed
  {
    hide ReadRaw, SendFrom, Supervise, LeaveRaw;
    var s1, fd := RawExit(s, e), s.sched.sockIndex;
    if s1.peers[fd - 1].pipe != -1 {
      ReadRawConsumesNothing(s1, fd, e.rawIn, e.junk);
      var r := ReadRaw(s1, fd, e.rawIn, e.junk);
      SendFromConsumesNothing(r, fd, r.peers[fd - 1].lenTx, 0, e.acked, e.junk);
      SuperviseConsumesNothing(Stamp(Traffic(s1, fd, e), e.t3), fd, e.t4, e.junk);
    }
  }

  lemma MgmtConsumesNothing(s: Link, e: Env)
    requires Shape(s) && EnvShape(e)
    ensures MgmtStep(s, e).hist.consumed == s.hist.consumed
  {
    hide PresenceConnect, LeaveMgmt;
    PresenceConsumesNothing(WriteMgmt(ReadMgmt(s, e.mgmtIn), e.ackMgmt), e);
  }

  lemma PresenceConsumesNothing(s: Link, e: Env)
    requires Shape(s)
    ensures PresenceConnect(s, e).hist.consumed == s.hist.consumed
  {
    hide HalTimeout;
  }

  /**
    * A read of the management socket hands out the waiting event, cut to its room, and answers EAGAIN
    * exactly if none is waiting; it and hal_comm_accept take the event, and no other call does.
    */
  lemma StepTakes(s: Link, a: Act)
    requires Shape(s) && CallOk(a.call) && EnvShape(a.env)
    ensures var o, w := Step(s, a.call, a.env), Waiting(Before(s, a));
            && o.s.hist.consumed == s.hist.consumed + Taken(s, a)
            && Waiting(o.s) == (if WantsEvent(a.call) then None else w)
            && (WantsEvent(a.call) && a.call.Read? ==>
                  match w
                  case None => o.r == -11 && o.data == []
                  case Some(ev) => o.r == Min(a.call.count, |ev|) && o.r > 0 && o.data == ev[..o.r])
  {
    hide Running, Perform;
    if Runs(a.call) {
      RunningConsumesNothing(s, a.env);
    }
    PerformTakes(Before(s, a), a.call, a.env);
  }

  /** The events taken along a run, in order. */
  ghost function TakenIn(s: Link, acts: seq<Act>): (evs: seq<seq<byte>>)
    requires Shape(s) && RunOk(s, acts)
    decreases |acts|
  {
    if acts == [] then [] else Taken(s, acts[0]) + TakenIn(Next(s, acts[0]), acts[1..])
  }

  lemma {:induction false} RunTakes(s: Link, acts: seq<Act>)
    requires Shape(s) && RunOk(s, acts)
    ensures Run(s, acts).hist.consumed == s.hist.consumed + TakenIn(s, acts)
    decreases |acts|
  {
    hide Running, Perform, Taken;
    if acts != [] {
      StepTakes(s, acts[0]);
      RunTakes(Next(s, acts[0]), acts[1..]);
      assert s.hist.consumed + Taken(s, acts[0]) + TakenIn(Next(s, acts[0]), acts[1..])
             == s.hist.consumed + TakenIn(s, acts);
    }
  }

  /**
    * Over a whole session: the events ever put into the mailbox are, in order, those the application took
    * by its calls and the one still waiting.
    */
  lemma {:induction false} EventsInOrder(mac: Mac, regs: Radio, acts: seq<Act>)
    requires |regs.rxLow| == 4 && Shape(Session(mac, regs)) && RunOk(Session(mac, regs), acts)
    ensures var s0 := Session(mac, regs);
            var s := Run(s0, acts);
            s.hist.queued == TakenIn(s0, acts) + if Waiting(s).Some? then [Waiting(s).value] else []
  {
    var s0 := Session(mac, regs);
    assert s0.hist.consumed == [];
    RunTakes(s0, acts);
    assert ReachedBy(Run(s0, acts), mac, regs, acts);
    MailboxConservation(Run(s0, acts));
  }

  /** The event a frame on the management channel becomes, if any. */
  function EventOf(s: Link, f: Heard): (ev: Option<seq<byte>>)
    requires MgmtFrame(f)
  {
    if f.buf[0] % 16 == 1 && !s.listen && f.len >= 9 then Some([0x05, 0x02, 0x00] + f.buf[1..9] + f.buf[9..f.len])
    else if f.buf[0] % 16 == 3 && f.len == 31 && f.buf[9..17] == s.mac
    then Some([0x01, 0x02, 0x00] + f.buf[1..9] + f.buf[9..17] + [f.buf[17]] + f.buf[18..23])
    else None
  }

  lemma PresenceEventBytes(buf: seq<byte>, mac: Mac, name: seq<byte>)
    requires |buf| == MTU && |name| <= MTU - 11
    ensures PresenceEvent(buf, mac, name)[..11 + |name|] == [0x05, 0x02, 0x00] + mac + name
  {
  }

  lemma ConnectedEventBytes(buf: seq<byte>, src: Mac, dst: Mac, channel: byte, aa: Addr)
    requires |buf| == MTU
    ensures ConnectedEvent(buf, src, dst, channel, aa)[..25] == [0x01, 0x02, 0x00] + src + dst + [channel] + aa
  {
  }

  lemma ReadMgmtHears(s: Link, heard: Option<Heard>)
    requires Shape(s) && (heard.Some? ==> MgmtFrame(heard.value))
    ensures Waiting(ReadMgmt(s, heard))
            == if Waiting(s).Some? || heard.None? then Waiting(s) else EventOf(s, heard.value)
  {
    if heard.Some? && s.mgmt.lenRx == 0 {
      var f := heard.value;
      if f.buf[0] % 16 == 1 && f.len >= 9 {
        PresenceEventBytes(s.mgmt.bufferRx, f.buf[1..9], f.buf[9..f.len]);
      } else if f.buf[0] % 16 == 3 && f.len == 31 {
        ConnectedEventBytes(s.mgmt.bufferRx, f.buf[1..9], f.buf[9..17], f.buf[17], f.buf[18..23]);
      }
      hide PresenceEvent, ConnectedEvent;
    }
  }

  /**
    * On the management channel a frame heard with an empty mailbox becomes its event: a presence, unless
    * the node is listening itself, with the sender's address and whole name; a connect request for this node
    * with both addresses, channel and access address; nothing else becomes an event.
    */
  lemma MgmtHears(s: Link, e: Env)
    requires Shape(s) && EnvShape(e) && s.sched.state == MGMT
    ensures Waiting(Running(s, e))
            == if Waiting(s).Some? || e.mgmtIn.None? then Waiting(s) else EventOf(s, e.mgmtIn.value)
  {
    hide PresenceConnect, LeaveMgmt, EventOf, ReadMgmt;
    ReadMgmtHears(s, e.mgmtIn);
    var s0 := ReadMgmt(s, e.mgmtIn);
    WriteLeavesEvent(s0, e.ackMgmt);
    hide WriteMgmt;
    PresenceLeavesMail(WriteMgmt(s0, e.ackMgmt), e);
  }

  lemma WriteLeavesEvent(s: Link, acked: bool)
    requires Shape(s)
    ensures WriteMgmt(s, acked).mgmt.bufferRx == s.mgmt.bufferRx && WriteMgmt(s, acked).mgmt.lenRx == s.mgmt.lenRx
  {
  }

  lemma PresenceLeavesMail(s: Link, e: Env)
    requires Shape(s)
    ensures PresenceConnect(s, e).mgmt == s.mgmt
  {
    hide HalTimeout;
  }

  // --- messages ---

  /** hal_comm_write takes a message of 1 to 128 bytes on an idle data pipe, whole and as given. */
  lemma WriteTakes(s: Link, fd: int, data: seq<byte>, e: Env)
    requires Shape(s)
    ensures var o := Perform(s, Write(fd, data), e);
            var fits := 1 <= fd <= 5 && 1 <= |data| <= 128;
            if fits && s.peers[fd - 1].lenTx == 0 then
              && o.r == |data| && Pending(o.s, fd) == data && o.s.hist.given == s.hist.given + {(fd, data)}
              && (forall i :: 0 <= i < CONNECTION_COUNTER && i != fd - 1 ==> o.s.peers[i] == s.peers[i])
            else o.r == (if fits then -16 else -22) && o.s == s
  {
  }

  lemma CallGivesNothing(s: Link, c: Call, e: Env)
    requires Shape(s) && CallOk(c) && !c.Write?
    ensures Perform(s, c, e).s.hist.given == s.hist.given
  {
    hide SocketCall, AcceptFrom;
    match c
    case Socket(raw) => SocketGivesNothing(s, raw);
    case AcceptCall => AcceptGivesNothing(s, e.t5);
    case _ =>
  }

  lemma SocketGivesNothing(s: Link, raw: bool)
    requires Shape(s)
    ensures SocketCall(s, raw).s.hist.given == s.hist.given
  {
  }

  lemma AcceptGivesNothing(s: Link, t: nat)
    requires Shape(s)
    ensures AcceptFrom(s, t).s.hist.given == s.hist.given
  {
  }

  lemma RunningGivesNothing(s: Link, e: Env)
    requires Inv(s) && EnvOk(e, s.hist.now)
    ensures Running(s, e).hist.given == s.hist.given
  {
    hide Facts, RawStep, MgmtStep;
    match s.sched.state
    case RAW => RawGivesNothing(s, e);
    case MGMT => MgmtGivesNothing(s, e);
    case _ =>
  }

  lemma RawGivesNothing(s: Link, e: Env)
    requires Inv(s) && EnvOk(e, s.hist.now) && s.sched.state == RAW
    ensures RawStep(s, e).hist.given == s.hist.given
  {
    hide Facts, Traffic, Supervise, LeaveRaw;
    RawExitKeeps(s, e);
    var s1, fd := RawExit(s, e), s.sched.sockIndex;
    if s.peers[fd - 1].pipe != -1 {
      TrafficKeeps(s1, fd, e);
      SuperviseGivesNothing(Stamp(Traffic(s1, fd, e), e.t3), fd, e.t4, e.junk);
    }
  }

  lemma SuperviseGivesNothing(s: Link, fd: nat, t: nat, junk: byte)
    requires Shape(s) && 1 <= fd <= CONNECTION_COUNTER && s.peers[fd - 1].pipe != -1
    ensures Supervise(s, fd, t, junk).hist.given == s.hist.given
  {
  }

  lemma MgmtGivesNothing(s: Link, e: Env)
    requires Shape(s) && EnvShape(e)
    ensures MgmtStep(s, e).hist.given == s.hist.given
  {
    hide PresenceConnect, LeaveMgmt;
    PresenceGivesNothing(WriteMgmt(ReadMgmt(s, e.mgmtIn), e.ackMgmt), e);
  }

  lemma PresenceGivesNothing(s: Link, e: Env)
    requires Shape(s)
    ensures PresenceConnect(s, e).hist.given == s.hist.given
  {
    hide HalTimeout;
  }

  /** Some call of the run is a hal_comm_write of m on socket fd that succeeds. */
  ghost predicate Wrote(s: Link, acts: seq<Act>, fd: nat, m: seq<byte>)
    requires Shape(s) && RunOk(s, acts)
    decreases |acts|
  {
    acts != [] &&
    ((acts[0].call == Write(fd, m) && Step(s, acts[0].call, acts[0].env).r > 0)
     || Wrote(Next(s, acts[0]), acts[1..], fd, m))
  }

  lemma StepGives(s: Link, a: Act)
    requires Inv(s) && CallOk(a.call) && EnvOk(a.env, s.hist.now)
    ensures var o := Step(s, a.call, a.env);
            var ok := a.call.Write? && o.r > 0 && a.call.fd >= 0;
            o.s.hist.given == s.hist.given + if ok then {(a.call.fd as nat, a.call.data)} else {}
    ensures a.call.Write? && Step(s, a.call, a.env).r > 0 ==> 1 <= a.call.fd <= 5
  {
    hide Facts, Running, Perform;
    if Runs(a.call) {
      RunningGivesNothing(s, a.env);
    }
    if a.call.Write? {
      WriteTakes(Before(s, a), a.call.fd, a.call.data, a.env);
    } else {
      CallGivesNothing(Before(s, a), a.call, a.env);
    }
  }

  lemma {:induction false} GivenAlong(s: Link, acts: seq<Act>, fd: nat, m: seq<byte>)
    requires Inv(s) && RunOk(s, acts)
    ensures (fd, m) in Run(s, acts).hist.given <==> (fd, m) in s.hist.given || Wrote(s, acts, fd, m)
    decreases |acts|
  {
    hide Facts, Running, Perform;
    if acts != [] {
      StepGives(s, acts[0]);
      StepKeeps(s, acts[0].call, acts[0].env);
      GivenAlong(Next(s, acts[0]), acts[1..], fd, m);
    }
  }

  /** The messages on record as given are exactly those the application wrote. */
  lemma {:induction false} GivenIsWritten(mac: Mac, regs: Radio, acts: seq<Act>, fd: nat, m: seq<byte>)
    requires |regs.rxLow| == 4 && Shape(Session(mac, regs)) && RunOk(Session(mac, regs), acts)
    ensures (fd, m) in Run(Session(mac, regs), acts).hist.given <==> Wrote(Session(mac, regs), acts, fd, m)
  {
    SessionStarts(mac, regs);
    assert Session(mac, regs).hist.given == {};
    hide Facts, Session;
    GivenAlong(Session(mac, regs), acts, fd, m);
  }

  // --- the other calls ---

  /** hal_comm_read of a data pipe: what is waiting, or why not. */
  lemma ReadAnswers(s: Link, fd: int, count: nat, e: Env)
    requires Shape(s) && fd != 0
    ensures var o := Perform(s, Read(fd, count), e);
            if !(1 <= fd <= 5) || count == 0 then o.r == -22 && o.s == s
            else
              var rx := s.peers[fd - 1].rx;
              if rx.len == 0 then o.r == -11 && o.s == s
              else o.r == Min(rx.len, count) && o.data == rx.buffer[..o.r] && o.s.peers[fd - 1].rx.len == 0
  {
  }

  /** hal_comm_socket: the management socket first and once, then the lowest free pipe, or EUSERS. */
  lemma SocketAnswers(s: Link, raw: bool, e: Env)
    requires Shape(s)
    ensures var o := Perform(s, Socket(raw), e);
            if !raw && s.mgmt.pipe == 0 then o.r == -87 && o.s == s
            else if !raw || s.mgmt.pipe == -1 then o.r == 0 && o.s.mgmt.pipe == 0 && o.s.peers == s.peers
            else if forall i :: 0 <= i < 5 ==> s.peers[i].pipe != -1 then o.r == -87 && o.s == s
            else LowestFree(s, o.r) && o.s.peers == s.peers[o.r - 1 := FRESH_PEER.(pipe := o.r)]
  {
  }

  ghost predicate LowestFree(s: Link, fd: int)
    requires Shape(s)
  {
    1 <= fd <= 5 && s.peers[fd - 1].pipe == -1 && forall i :: 0 <= i < fd - 1 ==> s.peers[i].pipe != -1
  }

  /** hal_comm_close: the pipe is free in every table, its peer is told if the node has an address. */
  lemma CloseAnswers(s: Link, fd: int, e: Env)
    requires Inv(s)
    ensures var o, open := Perform(s, Close(fd), e), 1 <= fd <= 5 && s.peers[fd - 1].pipe != -1;
            && o.r == 0 && (!open ==> o.s == s)
            && (open ==>
                  && o.s.peers == s.peers[fd - 1 := s.peers[fd - 1].(pipe := -1, keepalive := 0)]
                  && !o.s.bitmask[fd] && !o.s.radio.enRxAddr[fd]
                  && |o.s.hist.air| == |s.hist.air| + if s.mac != NO_MAC then 1 else 0)
  {
    CloseKeeps(s, fd, e.junk);
    LinkTimers.MasksOfPipes(CloseCall(s, fd, e.junk).s);
    hide Facts, Ioctl;
  }

  /** hal_comm_connect: refused while a request waits, else peer and count are set and its silence timed from now. */
  lemma ConnectAnswers(s: Link, fd: int, dst: Mac, e: Env)
    requires Shape(s) && 1 <= fd <= CONNECTION_COUNTER
    ensures var o := Perform(s, Connect(fd, dst), e);
            if s.mgmt.lenTx != 0 then o.r == -16 && o.s == s
            else
              && o.r == 0 && o.s.hist.heard == s.hist.heard[fd - 1 := Some(e.t5)]
              && o.s.peers == s.peers[fd - 1 := s.peers[fd - 1].(mac := dst, keepalive := 1, anchor := Clock(e.t5))]
  {
  }

  /**
    * hal_comm_accept: the waiting event is taken; a request for this node gets the lowest free pipe, whose
    * silence is timed from now and which never asks; without one the answer is EAGAIN, without a pipe EUSERS.
    */
  lemma AcceptAnswers(s: Link, e: Env)
    requires Shape(s)
    ensures var o := Perform(s, AcceptCall, e);
            var asked := s.mgmt.lenRx != 0 && s.mgmt.bufferRx[..2] == [0x01, 0x02] && s.mgmt.bufferRx[11..19] == s.mac;
            if !asked then o.r == -11 && o.s.peers == s.peers
            else if forall i :: 0 <= i < 5 ==> s.peers[i].pipe != -1 then o.r == -87 && o.s.peers == s.peers
            else
              && LowestFree(s, o.r) && o.data == s.mgmt.bufferRx[3..11] && !o.s.listen
              && o.s.hist.heard == s.hist.heard[o.r - 1 := Some(e.t5)]
              && o.s.peers == s.peers[o.r - 1 := FRESH_PEER.(pipe := o.r, mac := s.mgmt.bufferRx[3..11],
                                                             anchor := Clock(e.t5))]
  {
    hide Ioctl;
  }
}
