/** Who connects and who accepts: keepalive roles and socket addresses over whole runs. */
module LinkRoles {
  import opened Bytes
  import opened Nrf24l01
  import opened LinkPdu
  import opened LinkSpec
  import opened LinkInvariants
  import opened LinkRuns
  import opened LinkService
  import opened LinkAddresses
  import Handshake

  // --- the acceptor never counts, the initiator always does ---

  ghost predicate SameRole(s: Link, t: Link, fd: nat)
    requires Shape(s) && Shape(t) && 1 <= fd <= CONNECTION_COUNTER
  {
    t.peers[fd - 1].keepalive == 0 <==> s.peers[fd - 1].keepalive == 0
  }

  lemma FrameKeepsRole(s: Link, fd: nat, f: Heard, junk: byte)
    requires Shape(s) && 1 <= fd <= CONNECTION_COUNTER && RawFrame(f)
    ensures SameRole(s, HandleFrame(s, fd, f, junk), fd)
  {
  }

  lemma {:induction false} ReadRawKeepsRole(s: Link, fd: nat, fs: seq<Heard>, junk: byte)
    requires Shape(s) && 1 <= fd <= CONNECTION_COUNTER
    requires forall i :: 0 <= i < |fs| ==> RawFrame(fs[i])
    ensures SameRole(s, ReadRaw(s, fd, fs, junk), fd)
    decreases |fs|
  {
    if fs != [] {
      var init := fs[..|fs| - 1];
      ReadRawKeepsRole(s, fd, init, junk);
      FrameKeepsRole(ReadRaw(s, fd, init, junk), fd, fs[|fs| - 1], junk);
    }
  }

  lemma {:induction false} SendFromKeepsRole(s: Link, fd: nat, left: nat, k: nat, acked: nat, junk: byte)
    requires Shape(s) && 1 <= fd <= CONNECTION_COUNTER && left <= s.peers[fd - 1].lenTx
    ensures SendFrom(s, fd, left, k, acked, junk).peers[fd - 1].keepalive == s.peers[fd - 1].keepalive
    decreases left
  {
    hide SendFrom;
    SendFromTurn(s, fd, left, k, acked, junk);
    if left != 0 && k < acked {
      var t := CountSent(SendOne(s, fd, left, junk), fd);
      SendFromKeepsRole(t, fd, left - Min(left, PW_MSG_SIZE), k + 1, acked, junk);
    }
  }

  lemma TrafficKeepsRole(s: Link, fd: nat, e: Env)
    requires Shape(s) && EnvShape(e) && 1 <= fd <= CONNECTION_COUNTER
    ensures SameRole(s, Traffic(s, fd, e), fd)
  {
    ReadRawKeepsRole(s, fd, e.rawIn, e.junk);
    var t := ReadRaw(s, fd, e.rawIn, e.junk);
    SendFromKeepsRole(t, fd, t.peers[fd - 1].lenTx, 0, e.acked, e.junk);
  }

  lemma SuperviseKeepsRole(s: Link, fd: nat, t: nat, junk: byte)
    requires Shape(s) && 1 <= fd <= CONNECTION_COUNTER && s.peers[fd - 1].pipe != -1
    requires Supervise(s, fd, t, junk).peers[fd - 1].pipe != -1
    ensures SameRole(s, Supervise(s, fd, t, junk), fd)
  {
    hide Silent, RequestDue;
    if !Silent(s.peers[fd - 1], t) && RequestDue(s.peers[fd - 1], t) {
      AttemptsLeft(s.peers[fd - 1], t);
    }
  }

  lemma ServeKeepsRole(s: Link, fd: nat, e: Env)
    requires Shape(s) && EnvShape(e) && 1 <= fd <= CONNECTION_COUNTER
    requires Serve(s, fd, e).peers[fd - 1].pipe != -1
    ensures SameRole(s, Serve(s, fd, e), fd)
  {
    hide Traffic, Supervise;
    if s.peers[fd - 1].pipe != -1 {
      TrafficKeepsRole(s, fd, e);
      SuperviseKeepsRole(Stamp(Traffic(s, fd, e), e.t3), fd, e.t4, e.junk);
    }
  }

  lemma RawStepKeepsRole(s: Link, e: Env, fd: nat)
    requires Shape(s) && EnvShape(e) && 1 <= fd <= CONNECTION_COUNTER
    requires RawStep(s, e).peers[fd - 1].pipe != -1
    ensures SameRole(s, RawStep(s, e), fd)
  {
    hide Serve;
    var s1 := RawExit(s, e);
    if s.sched.sockIndex == fd {
      ServeKeepsRole(s1, fd, e);
    } else {
      assert OthersSame(s1, Serve(s1, s.sched.sockIndex, e), s.sched.sockIndex);
    }
  }

  lemma RunningKeepsRole(s: Link, e: Env, fd: nat)
    requires Shape(s) && EnvShape(e) && 1 <= fd <= CONNECTION_COUNTER
    requires Running(s, e).peers[fd - 1].pipe != -1
    ensures SameRole(s, Running(s, e), fd)
  {
    if s.sched.state == RAW {
      RawStepKeepsRole(s, e, fd);
    } else {
      OnlyRawTouchesPeers(s, e);
    }
  }

  lemma PerformKeepsRole(s: Link, c: Call, e: Env, fd: nat)
    requires Shape(s) && CallOk(c) && 1 <= fd <= CONNECTION_COUNTER && s.peers[fd - 1].pipe != -1
    requires Perform(s, c, e).s.peers[fd - 1].pipe != -1 && !(c.Connect? && c.fd == fd)
    ensures SameRole(s, Perform(s, c, e).s, fd)
  {
    match c
    case AcceptCall => AcceptLeavesPending(s, e.t5, fd);
    case Socket(raw) => SocketLeavesPending(s, raw, fd);
    case _ =>
  }

  lemma StepKeepsRole(s: Link, a: Act, fd: nat)
    requires Shape(s) && CallOk(a.call) && EnvShape(a.env) && 1 <= fd <= CONNECTION_COUNTER
    requires s.peers[fd - 1].pipe != -1 && Next(s, a).peers[fd - 1].pipe != -1
    requires !(a.call.Connect? && a.call.fd == fd)
    ensures SameRole(s, Next(s, a), fd)
  {
    hide Running, Perform;
    if Runs(a.call) {
      if Running(s, a.env).peers[fd - 1].pipe == -1 {
        Handshake.FreedStaysFree(s, a, fd);
      }
      RunningKeepsRole(s, a.env, fd);
    }
    PerformKeepsRole(Before(s, a), a.call, a.env, fd);
  }

  /**
    * While a pipe stays allocated and is not connected again its role stays: an accepted pipe keeps its
    * counter at 0, and so never sends a request; a connected one keeps it between 1 and 10.
    */
  lemma {:induction false} RoleStays(s: Link, acts: seq<Act>, fd: nat)
    requires Inv(s) && RunOk(s, acts) && 1 <= fd <= CONNECTION_COUNTER && StaysAllocated(s, acts, fd)
    requires forall i :: 0 <= i < |acts| ==> !(acts[i].call.Connect? && acts[i].call.fd == fd)
    ensures SameRole(s, Run(s, acts), fd)
    ensures Run(s, acts).peers[fd - 1].keepalive <= 10
    decreases |acts|
  {
    hide Facts, Perform, Running, RequestsFrom;
    RunKeeps(s, acts);
    EntryFits(Run(s, acts), fd);
    if acts != [] {
      StepKeepsRole(s, acts[0], fd);
      StepKeeps(s, acts[0].call, acts[0].env);
      RoleStays(Next(s, acts[0]), acts[1..], fd);
    }
  }

  // --- a node that only offers its own addresses ---

  /** Every open data pipe is open for the address of the socket with its number. */
  ghost predicate OwnAddresses(s: Link) {
    && Shape(s)
    && forall i :: 0 <= i < CONNECTION_COUNTER && s.peers[i].pipe != -1 ==> s.hist.addrs[i] == AddressFor(s.mac, i + 1)
  }

  lemma ClosingKeepsOwn(s: Link, t: Link)
    requires OwnAddresses(s) && Shape(t) && t.mac == s.mac && OnlyCloses(s, t)
    ensures OwnAddresses(t)
  {
  }

  lemma SocketKeepsOwn(s: Link, raw: bool)
    requires OwnAddresses(s)
    ensures OwnAddresses(SocketCall(s, raw).s)
  {
  }

  lemma PerformKeepsOwn(s: Link, c: Call, e: Env)
    requires OwnAddresses(s) && CallOk(c) && !c.AcceptCall?
    ensures OwnAddresses(Perform(s, c, e).s)
  {
    if c.Socket? {
      SocketKeepsOwn(s, c.raw);
    } else {
      OtherCallsOnlyClose(s, c, e);
      ClosingKeepsOwn(s, Perform(s, c, e).s);
    }
  }

  lemma OtherCallsOnlyClose(s: Link, c: Call, e: Env)
    requires Shape(s) && CallOk(c) && !c.AcceptCall? && !c.Socket?
    ensures OnlyCloses(s, Perform(s, c, e).s)
  {
    hide CloseCall;
    if c.Close? {
      CloseOnlyCloses(s, c.fd, e.junk);
    }
  }

  lemma CloseOnlyCloses(s: Link, fd: int, junk: byte)
    requires Shape(s)
    ensures OnlyCloses(s, CloseCall(s, fd, junk).s)
  {
  }

  lemma MasterStep(s: Link, a: Act)
    requires AddressedNode(s) && OwnAddresses(s) && CallOk(a.call) && EnvShape(a.env) && !a.call.AcceptCall?
    ensures TailsFit(Before(s, a), a.call) && OwnAddresses(Next(s, a))
  {
    hide Running, Perform;
    if Runs(a.call) {
      RunningCarries(s, a.env);
      ClosingKeepsOwn(s, Running(s, a.env));
    }
    PerformKeepsOwn(Before(s, a), a.call, a.env);
    assert forall fd :: AddressFor(s.mac, fd)[1..] == s.mac[4..];
  }

  /** A node that accepts nothing opens pipes only for fitting addresses: the address map's premise holds of itself. */
  lemma {:induction false} MasterFits(s: Link, acts: seq<Act>)
    requires AddressedNode(s) && OwnAddresses(s) && RunOk(s, acts)
    requires forall i :: 0 <= i < |acts| ==> !acts[i].call.AcceptCall?
    ensures FittingRun(s, acts) && OwnAddresses(Run(s, acts))
    decreases |acts|
  {
    if acts != [] {
      MasterStep(s, acts[0]);
      StepCarries(s, acts[0]);
      MasterFits(Next(s, acts[0]), acts[1..]);
    }
  }

  /** A whole session of a master: every frame on a socket's pipe goes to the address the socket was opened for. */
  lemma {:induction false} MasterFramesGoWhereOpened(mac: Mac, regs: Radio, acts: seq<Act>, p: nat)
    requires |regs.rxLow| == 4 && Shape(Session(mac, regs)) && RunOk(Session(mac, regs), acts)
    requires forall i :: 0 <= i < |acts| ==> !acts[i].call.AcceptCall?
    requires 1 <= p <= CONNECTION_COUNTER
    ensures var s := Run(Session(mac, regs), acts);
            s.peers[p - 1].pipe != -1 ==> SetPtx(s.radio, p).txAddr == s.hist.addrs[p - 1]
  {
    SessionAddressed(mac, regs);
    MasterFits(Session(mac, regs), acts);
    FramesGoWhereOpened(mac, regs, acts, p);
  }

  /**
    * A frame sent to the address of socket fd of such a node reaches its pipe fd, if that is open, and no
    * other pipe: neither another socket's nor the management channel's.
    */
  lemma OnlyItsPipeListens(s: Link, fd: nat, p: nat)
    requires Addressed(s) && OwnAddresses(s) && 1 <= fd <= CONNECTION_COUNTER && p <= PIPE_MAX
    ensures Handshake.ListensOn(s, p, AddressFor(s.mac, fd)) <==> p == fd && s.peers[fd - 1].pipe != -1
  {
    assert AddressFor(s.mac, p)[0] == p && AddressFor(s.mac, fd)[0] == fd && BROADCAST_ADDRESS[0] == 0x8D;
    assert InUse(s, p) ==> p in NodeMap(s) && NodeMap(s)[p] == s.hist.addrs[p - 1];
    assert 0 in NodeMap(s) ==> NodeMap(s)[0] == BROADCAST_ADDRESS;
  }

  /** Over a whole session of a master. */
  lemma {:induction false} MasterPipesApart(mac: Mac, regs: Radio, acts: seq<Act>, fd: nat, p: nat)
    requires |regs.rxLow| == 4 && Shape(Session(mac, regs)) && RunOk(Session(mac, regs), acts)
    requires forall i :: 0 <= i < |acts| ==> !acts[i].call.AcceptCall?
    requires 1 <= fd <= CONNECTION_COUNTER && p <= PIPE_MAX
    ensures var s := Run(Session(mac, regs), acts);
            Handshake.ListensOn(s, p, AddressFor(mac, fd)) <==> p == fd && s.peers[fd - 1].pipe != -1
  {
    SessionAddressed(mac, regs);
    MasterFits(Session(mac, regs), acts);
    RunCarries(Session(mac, regs), acts);
    OnlyItsPipeListens(Run(Session(mac, regs), acts), fd, p);
  }
}
