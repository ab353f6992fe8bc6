/** The two-party connection handshake, from hal_comm_socket on one node to hal_comm_accept on the other. */
module Handshake {
  import opened Bytes
  import opened Nrf24l01
  import opened LinkPdu
  import opened LinkSpec
  import opened LinkRuns
  import opened LinkRequests
  import opened LinkService
  import opened LinkAddresses

  /** hal_comm_socket opens the very address the request will offer. */
  lemma SocketOpensOffer(a: Link)
    requires Addressed(a) && TailsFit(a, Socket(true)) && a.mgmt.pipe == 0 && AllocPipe(a).1 > 0
    ensures var o := SocketCall(a, true);
            && 1 <= o.r <= CONNECTION_COUNTER
            && o.s.hist.addrs[o.r - 1] == AddressFor(a.mac, o.r)
            && o.s.radio.enRxAddr[o.r] && PipeAddress(o.s.radio, o.r) == AddressFor(a.mac, o.r)
  {
    var fd := AllocPipe(a).1;
    SocketCarries(a, true);
    var t := SocketCall(a, true).s;
    assert InUse(t, fd) && fd in NodeMap(t);
  }

  /** hal_comm_accept opens its pipe for the offered address and remembers who offered it. */
  lemma AcceptTakesOffer(b: Link, src: Mac, aa: Addr, t: nat)
    requires Addressed(b) && Offered(b, src, aa) && TailFits(b, aa) && AllocPipe(Consume(b)).1 > 0
    ensures var o := AcceptFrom(b, t);
            && 1 <= o.r <= CONNECTION_COUNTER && o.data == src
            && Addressed(o.s) && o.s.peers[o.r - 1].pipe == o.r && o.s.hist.addrs[o.r - 1] == aa
            && o.s.peers[o.r - 1].mac == src && o.s.peers[o.r - 1].keepalive == 0
            && !o.s.listen
  {
    AcceptCarries(b, t);
  }

  // --- and it stays that way ---

  /**
    * A pipe timed out by the background step of a call is still free when the call returns: the event
    * that reports it is the one hal_comm_accept would have had to find a request in.
    */
  lemma FreedStaysFree(s: Link, a: Act, fd: nat)
    requires Shape(s) && CallOk(a.call) && EnvShape(a.env) && 1 <= fd <= CONNECTION_COUNTER && Runs(a.call)
    requires s.peers[fd - 1].pipe != -1 && Running(s, a.env).peers[fd - 1].pipe == -1
    ensures Next(s, a).peers[fd - 1].pipe == -1
  {
    FreedMeansReported(s, a.env, fd);
    var t := Running(s, a.env);
    assert t.mgmt.bufferRx[..2] != EVT_CONNECTED;
    NothingReopened(t, a.call, a.env, fd);
  }

  lemma NothingReopened(s: Link, c: Call, e: Env, fd: nat)
    requires Shape(s) && CallOk(c) && Runs(c) && 1 <= fd <= CONNECTION_COUNTER
    requires s.peers[fd - 1].pipe == -1 && s.mgmt.bufferRx[..2] != EVT_CONNECTED
    ensures Perform(s, c, e).s.peers[fd - 1].pipe == -1
  {
  }

  lemma PerformKeepsAddress(s: Link, c: Call, e: Env, fd: nat)
    requires Shape(s) && CallOk(c) && 1 <= fd <= CONNECTION_COUNTER && s.peers[fd - 1].pipe != -1
    ensures Perform(s, c, e).s.hist.addrs[fd - 1] == s.hist.addrs[fd - 1]
  {
    hide SocketCall, AcceptFrom;
    if c.AcceptCall? {
      AcceptKeepsAddress(s, e.t5, fd);
    } else if c.Socket? {
      SocketKeepsAddress(s, c.raw, fd);
    } else {
      hide CloseCall, ReadCall, WriteCall, ConnectTo, ListenCall;
      OthersKeepAddress(s, c, e, fd);
    }
  }

  lemma AcceptKeepsAddress(s: Link, t: nat, fd: nat)
    requires Shape(s) && 1 <= fd <= CONNECTION_COUNTER && s.peers[fd - 1].pipe != -1
    ensures AcceptFrom(s, t).s.hist.addrs[fd - 1] == s.hist.addrs[fd - 1]
  {
  }

  lemma SocketKeepsAddress(s: Link, raw: bool, fd: nat)
    requires Shape(s) && 1 <= fd <= CONNECTION_COUNTER && s.peers[fd - 1].pipe != -1
    ensures SocketCall(s, raw).s.hist.addrs[fd - 1] == s.hist.addrs[fd - 1]
  {
  }

  lemma OthersKeepAddress(s: Link, c: Call, e: Env, fd: nat)
    requires Shape(s) && CallOk(c) && 1 <= fd <= CONNECTION_COUNTER && !c.AcceptCall? && !c.Socket?
    ensures Perform(s, c, e).s.hist.addrs == s.hist.addrs
  {
  }

  lemma StepKeepsAddress(s: Link, a: Act, fd: nat)
    requires Addressed(s) && CallOk(a.call) && EnvShape(a.env) && 1 <= fd <= CONNECTION_COUNTER
    requires s.peers[fd - 1].pipe != -1 && Next(s, a).peers[fd - 1].pipe != -1
    ensures Next(s, a).hist.addrs[fd - 1] == s.hist.addrs[fd - 1]
  {
    if Runs(a.call) {
      RunningCarries(s, a.env);
      if Running(s, a.env).peers[fd - 1].pipe == -1 {
        FreedStaysFree(s, a, fd);
      }
    }
    PerformKeepsAddress(Before(s, a), a.call, a.env, fd);
  }

  /** As long as a pipe stays allocated its address does not change. */
  lemma {:induction false} AddressStays(s: Link, acts: seq<Act>, fd: nat)
    requires AddressedNode(s) && RunOk(s, acts) && FittingRun(s, acts) && 1 <= fd <= CONNECTION_COUNTER
    requires StaysAllocated(s, acts, fd)
    ensures AddressedNode(Run(s, acts))
    ensures Run(s, acts).hist.addrs[fd - 1] == s.hist.addrs[fd - 1] && Run(s, acts).peers[fd - 1].pipe != -1
    decreases |acts|
  {
    if acts != [] {
      StepKeepsAddress(s, acts[0], fd);
      StepCarries(s, acts[0]);
      AddressStays(Next(s, acts[0]), acts[1..], fd);
    }
  }

  /** Any legal calls that open pipes only for fitting addresses and leave pipe fd allocated. */
  ghost predicate KeepsPipe(s: Link, acts: seq<Act>, fd: nat) {
    && AddressedNode(s) && 1 <= fd <= CONNECTION_COUNTER
    && RunOk(s, acts) && FittingRun(s, acts) && StaysAllocated(s, acts, fd)
  }

  /** The master's pipe fd is open for its own socket address. */
  ghost predicate OpenForOffer(a: Link, fd: nat) {
    && AddressedNode(a) && 1 <= fd <= CONNECTION_COUNTER
    && a.peers[fd - 1].pipe != -1 && a.hist.addrs[fd - 1] == AddressFor(a.mac, fd)
  }

  /** A socket can be opened: the management one is, a data pipe is free, and the address fits. */
  ghost predicate MayOpenSocket(a: Link) {
    AddressedNode(a) && TailsFit(a, Socket(true)) && a.mgmt.pipe == 0 && AllocPipe(a).1 > 0
  }

  lemma SocketOpensForOffer(a: Link, e: Env)
    requires MayOpenSocket(a) && EnvShape(e)
    ensures var o := Step(a, Socket(true), e); OpenForOffer(o.s, AllocPipe(a).1) && o.r == AllocPipe(a).1
  {
    SocketCarries(a, true);
    QuietCarries(SocketCall(a, true).s, Step(a, Socket(true), e).s);
  }

  lemma {:induction false} OfferStaysOpen(a: Link, acts: seq<Act>, fd: nat)
    requires OpenForOffer(a, fd) && KeepsPipe(a, acts, fd)
    ensures OpenForOffer(Run(a, acts), fd)
  {
    AddressStays(a, acts, fd);
  }

  lemma AddressedListens(s: Link, fd: nat)
    requires Addressed(s) && 1 <= fd <= CONNECTION_COUNTER && s.peers[fd - 1].pipe != -1
    ensures s.radio.enRxAddr[fd] && PipeAddress(s.radio, fd) == s.hist.addrs[fd - 1]
  {
    assert InUse(s, fd) && fd in NodeMap(s);
  }

  // --- accepting ---

  /** Opening a pipe for this address is possible and fits the pipes in use. */
  ghost predicate MayOpen(s: Link, aa: Addr)
    requires Shape(s)
  {
    TailFits(s, aa) && exists i :: 0 <= i < CONNECTION_COUNTER && s.peers[i].pipe == -1
  }

  lemma RunningMayOpen(s: Link, e: Env, aa: Addr)
    requires Addressed(s) && EnvShape(e) && MayOpen(s, aa)
    ensures Addressed(Running(s, e)) && MayOpen(Running(s, e), aa)
  {
    RunningCarries(s, e);
    hide Running;
    var i :| 0 <= i < CONNECTION_COUNTER && s.peers[i].pipe == -1;
    assert Running(s, e).peers[i].pipe == -1;
  }

  lemma MayOpenAllocates(s: Link, aa: Addr)
    requires Shape(s) && MayOpen(s, aa)
    ensures AllocPipe(Consume(s)).1 > 0
  {
    var i :| 0 <= i < CONNECTION_COUNTER && s.peers[i].pipe == -1;
    assert FirstFree(s.peers, 0) <= i;
  }

  /** The accept succeeded: it names src, its pipe is open for aa and its peer is src. */
  ghost predicate Accepted(b: Link, e: Env, src: Mac, aa: Addr)
    requires Shape(b) && EnvShape(e)
  {
    var o := Step(b, AcceptCall, e);
    && 1 <= o.r <= CONNECTION_COUNTER && o.data == src && Addressed(o.s)
    && o.s.peers[o.r - 1].pipe == o.r && o.s.peers[o.r - 1].mac == src && o.s.hist.addrs[o.r - 1] == aa
  }

  /** hal_comm_accept, background step included, takes an offer that is waiting when the step is over. */
  lemma AcceptStepTakes(b: Link, e: Env, src: Mac, aa: Addr)
    requires Addressed(b) && EnvShape(e) && MayOpen(b, aa) && Offered(Running(b, e), src, aa)
    ensures Accepted(b, e, src, aa)
  {
    hide Running, Offered, AcceptFrom;
    var s := Running(b, e);
    RunningMayOpen(b, e, aa);
    MayOpenAllocates(s, aa);
    AcceptTakesOffer(s, src, aa, e.t5);
    QuietCarries(AcceptFrom(s, e.t5).s, Step(b, AcceptCall, e).s);
  }

  /**
    * The node hears the frame with its mailbox empty: in the background step of the accept itself, or in
    * that of an earlier call, and nothing called in between takes the event.
    */
  ghost predicate HearsFirst(b: Link, quiet: seq<Act>, e: Env, f: Heard) {
    && LeaveEvent(quiet) && b.mgmt.lenRx == 0
    && if quiet == [] then HearsOnMgmt(b, e, f) else Runs(quiet[0].call) && HearsOnMgmt(b, quiet[0].env, f)
  }

  lemma HeardIsOffered(b: Link, e: Env, f: Heard, req: seq<byte>, src: Mac, fd: int)
    requires Shape(b) && EnvShape(e) && HearsOnMgmt(b, e, f) && b.mgmt.lenRx == 0
    requires RequestFor(req, src, fd, b.mac) && HearsBytes(f, req)
    ensures Offered(Running(b, e), src, AddressFor(src, fd))
  {
    RequestIsHeard(f, req, src, fd, b.mac, b);
    AfterReadMgmt(b, e);
    hide Running, ReadMgmt, Offered;
    SameEventKeepsOffer(ReadMgmt(b, e.mgmtIn), Running(b, e), src, AddressFor(src, fd));
  }

  /** From the frame heard to the end of the accept's background step the offer waits. */
  lemma {:induction false} OfferReachesAccept(b: Link, quiet: seq<Act>, e: Env, f: Heard, req: seq<byte>,
                                              src: Mac, fd: int)
    requires Shape(b) && RunOk(b, quiet) && EnvShape(e) && HearsFirst(b, quiet, e, f)
    requires RequestFor(req, src, fd, b.mac) && HearsBytes(f, req)
    ensures Offered(Running(Run(b, quiet), e), src, AddressFor(src, fd))
  {
    hide Running, Offered, Perform, RequestFor, HearsBytes;
    var aa := AddressFor(src, fd);
    if quiet == [] {
      HeardIsOffered(b, e, f, req, src, fd);
    } else {
      HeardIsOffered(b, quiet[0].env, f, req, src, fd);
      StepKeepsOffer(b, quiet[0], src, aa);
      OfferLasts(Next(b, quiet[0]), quiet[1..], src, aa);
      RunningKeepsOffer(Run(b, quiet), e, src, aa);
    }
  }

  lemma NothingHeard(s: Link)
    requires Shape(s)
    ensures ReadMgmt(s, None) == s
  {
  }

  lemma RestIgnoresFrame(s: Link, e: Env)
    requires Shape(s)
    ensures PresenceConnect(s, e) == PresenceConnect(s, e.(mgmtIn := None))
    ensures LeaveMgmt(s, e) == LeaveMgmt(s, e.(mgmtIn := None))
  {
    hide HalTime.HalTimeout, Transmit;
  }

  /** For any other node it is as if the frame had not been there. */
  lemma OthersHearNothing(b: Link, e: Env, f: Heard, req: seq<byte>, src: Mac, fd: int, dst: Mac)
    requires Shape(b) && EnvShape(e) && HearsOnMgmt(b, e, f) && dst != b.mac
    requires RequestFor(req, src, fd, dst) && HearsBytes(f, req)
    ensures Running(b, e) == Running(b, e.(mgmtIn := None))
  {
    HeardFields(f, req, src, fd, dst);
    assert ReadMgmt(b, Some(f)) == b;
    hide WriteMgmt, PresenceConnect, LeaveMgmt, ReadMgmt, RequestFor, HearsBytes;
    assert ReadMgmt(b, None) == b by {
      NothingHeard(b);
    }
    var s1 := WriteMgmt(b, e.ackMgmt);
    var s2 := if s1.listen then PresenceConnect(s1, e) else s1;
    RestIgnoresFrame(s1, e);
    RestIgnoresFrame(s2, e);
  }

  // --- both ends ---

  /** A node in whose run the frame is heard, up to the step of the accept. */
  ghost predicate Asked(b: Link, quiet: seq<Act>, e: Env, f: Heard) {
    AddressedNode(b) && RunOk(b, quiet) && FittingRun(b, quiet) && EnvShape(e) && HearsFirst(b, quiet, e, f)
  }

  /** The accept succeeds, and through the calls after it the node goes on sending to aa on the new pipe. */
  ghost predicate AcceptsAndSends(b: Link, e: Env, src: Mac, aa: Addr, after: seq<Act>)
    requires Shape(b) && EnvShape(e)
  {
    var o := Step(b, AcceptCall, e);
    Accepted(b, e, src, aa) && RunOk(o.s, after) && GoesOnSending(o.s, o.r, after, aa)
  }

  /** The calls after the accept leave the new pipe allocated. */
  ghost predicate AcceptedStays(b: Link, e: Env, after: seq<Act>)
    requires Shape(b) && EnvShape(e)
  {
    var o := Step(b, AcceptCall, e); o.r > 0 ==> KeepsPipe(o.s, after, o.r)
  }

  /** Through these later calls, which leave pipe gd allocated, the node goes on sending to aa on it. */
  ghost predicate GoesOnSending(t: Link, gd: int, after: seq<Act>, aa: Addr)
    requires Shape(t) && RunOk(t, after)
  {
    1 <= gd <= CONNECTION_COUNTER && SetPtx(Run(t, after).radio, gd).txAddr == aa
  }

  lemma AcceptedGoesOn(b: Link, e: Env, src: Mac, aa: Addr, after: seq<Act>)
    requires Shape(b) && EnvShape(e) && Accepted(b, e, src, aa)
    requires KeepsPipe(Step(b, AcceptCall, e).s, after, Step(b, AcceptCall, e).r)
    ensures GoesOnSending(Step(b, AcceptCall, e).s, Step(b, AcceptCall, e).r, after, aa)
  {
    hide Step, Addressed, KeepsPipe, GoesOnSending;
    SendsOn(Step(b, AcceptCall, e).s, Step(b, AcceptCall, e).r, aa, after);
  }

  lemma {:induction false} SendsOn(s: Link, gd: nat, aa: Addr, after: seq<Act>)
    requires KeepsPipe(s, after, gd) && s.hist.addrs[gd - 1] == aa
    ensures GoesOnSending(s, gd, after, aa)
  {
    AddressStays(s, after, gd);
    AddressedSends(Run(s, after), gd);
  }

  /** The first call connects socket fd, open for its own address, to dst; no later connect in the run succeeds. */
  ghost predicate MasterAsks(a: Link, acts: seq<Act>, fd: nat, dst: Mac) {
    OpenForOffer(a, fd) && Connecting(a, acts, fd, dst)
  }

  ghost predicate Connecting(a: Link, acts: seq<Act>, fd: nat, dst: Mac) {
    && KeepsPipe(a, acts, fd)
    && acts != [] && acts[0].call == Connect(fd, dst) && Connects(a, acts[0])
    && NoConnect(Next(a, acts[0]), acts[1..])
  }

  /** Frame k on the air is a connect frame sent since that call. */
  ghost predicate AskedWith(a: Link, acts: seq<Act>, k: nat)
    requires Shape(a) && RunOk(a, acts) && acts != []
  {
    && |Next(a, acts[0]).hist.air| <= k < |Run(a, acts).hist.air|
    && Run(a, acts).hist.air[k].kind == ConnectFrame
  }

  /** The radio listens on pipe fd, and for frames sent to aa. */
  predicate ListensOn(t: Link, fd: nat, aa: Addr)
    requires Shape(t) && fd <= PIPE_MAX
  {
    t.radio.enRxAddr[fd] && PipeAddress(t.radio, fd) == aa
  }

  lemma {:induction false} MasterListens(a: Link, acts: seq<Act>, fd: nat, dst: Mac, later: seq<Act>)
    requires MasterAsks(a, acts, fd, dst) && KeepsPipe(Run(a, acts), later, fd)
    ensures ListensOn(Run(Run(a, acts), later), fd, AddressFor(a.mac, fd))
  {
    OfferStaysOpen(a, acts, fd);
    OfferStaysOpen(Run(a, acts), later, fd);
    AddressedListens(Run(Run(a, acts), later), fd);
  }

  lemma {:induction false} FrameAsks(a: Link, acts: seq<Act>, fd: nat, dst: Mac, k: nat)
    requires MasterAsks(a, acts, fd, dst) && AskedWith(a, acts, k)
    ensures RequestFor(Run(a, acts).hist.air[k].bytes, a.mac, fd, dst)
  {
    hide RequestFor;
    ConnectIsAsked(a, acts, fd, dst);
  }

  lemma {:induction false} SlaveAccepts(b: Link, quiet: seq<Act>, e: Env, f: Heard, req: seq<byte>, src: Mac,
                                        fd: nat, after: seq<Act>)
    requires Asked(b, quiet, e, f) && AcceptedStays(Run(b, quiet), e, after)
    requires RequestFor(req, src, fd, b.mac) && HearsBytes(f, req)
    requires MayOpen(Run(b, quiet), AddressFor(src, fd))
    ensures AcceptsAndSends(Run(b, quiet), e, src, AddressFor(src, fd), after)
  {
    hide Step, Running, RequestFor, Perform, Offered, MayOpen;
    RunCarries(b, quiet);
    OfferReachesAccept(b, quiet, e, f, req, src, fd);
    AcceptStepTakes(Run(b, quiet), e, src, AddressFor(src, fd));
    AcceptedGoesOn(Run(b, quiet), e, src, AddressFor(src, fd), after);
  }

  /**
    * The whole handshake, over runs of both nodes. A master with a socket's pipe open connects it to dst
    * and goes on with any calls; some connect frame it has put on the air since is heard by a node whose
    * mailbox is empty. If that node is dst and accepts - in the same step, or after any calls that do not
    * take the event - it learns the master's address, and its frames go to exactly the address the
    * master's radio listens on for that socket. Both stay so through any later calls that leave the two
    * pipes allocated. At any other node it is as if nothing had been heard.
    */
  lemma {:induction false} ConnectedPairShareAnAddress(a: Link, acts: seq<Act>, fd: nat, dst: Mac, k: nat,
                                                       later: seq<Act>, b: Link, quiet: seq<Act>, e: Env,
                                                       f: Heard, after: seq<Act>)
    requires MasterAsks(a, acts, fd, dst) && AskedWith(a, acts, k) && KeepsPipe(Run(a, acts), later, fd)
    requires HearsBytes(f, Run(a, acts).hist.air[k].bytes)
    requires Asked(b, quiet, e, f) && AcceptedStays(Run(b, quiet), e, after)
    requires b.mac == dst ==> MayOpen(Run(b, quiet), AddressFor(a.mac, fd))
    ensures ListensOn(Run(Run(a, acts), later), fd, AddressFor(a.mac, fd))
    ensures b.mac == dst ==> AcceptsAndSends(Run(b, quiet), e, a.mac, AddressFor(a.mac, fd), after)
    ensures var h := if quiet == [] then e else quiet[0].env;
            b.mac != dst ==> Running(b, h) == Running(b, h.(mgmtIn := None))
  {
    hide Step, Running, RequestFor, HearsBytes, Perform, Offered, AcceptedStays, AcceptsAndSends, MayOpen, ListensOn;
    MasterListens(a, acts, fd, dst, later);
    FrameAsks(a, acts, fd, dst, k);
    var req := Run(a, acts).hist.air[k].bytes;
    if b.mac == dst {
      SlaveAccepts(b, quiet, e, f, req, a.mac, fd, after);
    } else {
      OthersHearNothing(b, if quiet == [] then e else quiet[0].env, f, req, a.mac, fd, dst);
    }
  }

  /**
    * The same from the very start: the master opens the socket with hal_comm_socket, does whatever keeps
    * the pipe, and then connects.
    */
  lemma {:induction false} SocketToAccept(a0: Link, e0: Env, before: seq<Act>, acts: seq<Act>, dst: Mac, k: nat,
                                          later: seq<Act>, b: Link, quiet: seq<Act>, e: Env, f: Heard, after: seq<Act>)
    requires MayOpenSocket(a0) && EnvShape(e0)
    requires var fd, s := AllocPipe(a0).1, Step(a0, Socket(true), e0).s;
             && KeepsPipe(s, before, fd)
             && var a := Run(s, before);
                && Connecting(a, acts, fd, dst) && AskedWith(a, acts, k) && KeepsPipe(Run(a, acts), later, fd)
                && HearsBytes(f, Run(a, acts).hist.air[k].bytes)
    requires Asked(b, quiet, e, f) && AcceptedStays(Run(b, quiet), e, after)
    requires b.mac == dst ==> MayOpen(Run(b, quiet), AddressFor(a0.mac, AllocPipe(a0).1))
    ensures var fd, s := AllocPipe(a0).1, Step(a0, Socket(true), e0).s;
            var aa, a := AddressFor(a0.mac, fd), Run(s, before);
            && Step(a0, Socket(true), e0).r == fd && ListensOn(Run(Run(a, acts), later), fd, aa)
            && (b.mac == dst ==> AcceptsAndSends(Run(b, quiet), e, a0.mac, aa, after))
  {
    hide Step, Running, Connecting, AskedWith, HearsBytes, Perform, AcceptedStays, AcceptsAndSends, MayOpen, ListensOn,
         Asked;
    var fd, s := AllocPipe(a0).1, Step(a0, Socket(true), e0).s;
    SocketOpensForOffer(a0, e0);
    OfferStaysOpen(s, before, fd);
    ConnectedPairShareAnAddress(Run(s, before), acts, fd, dst, k, later, b, quiet, e, f, after);
  }

  /** A node with no data pipe open may accept any offer, so the slave's premise above holds of it. */
  lemma IdleNodeMayAccept(b: Link, aa: Addr)
    requires Shape(b) && forall i :: 0 <= i < CONNECTION_COUNTER ==> b.peers[i].pipe == -1
    ensures MayOpen(b, aa)
  {
    assert b.peers[0].pipe == -1;
  }
}
