/** What every reachable state of the link layer satisfies, and that every step keeps it. */
module LinkInvariants {
  import opened Bits
  import opened Bytes
  import opened HalTime
  import opened Nrf24l01
  import opened PhyDriverNrf24
  import opened LinkPdu
  import opened Reassembly
  import opened LinkSpec

  /** Bitmask, peers[] and EN_RXADDR agree on which data pipes are in use. */
  ghost predicate Table(bitmask: Mask, peers: seq<Peer>, enRxAddr: Mask) {
    && |peers| == CONNECTION_COUNTER && bitmask[0]
    && forall i :: 0 <= i < CONNECTION_COUNTER ==>
         && (bitmask[i + 1] <==> peers[i].pipe != -1)
         && (enRxAddr[i + 1] <==> peers[i].pipe != -1)
  }

  /** Pipe 0 of the radio is as the driver remembers it. */
  predicate Pipe0Kept(r: Radio) {
    (r.enRxAddr[0] <==> r.pipe0Open) && (r.pipe0Open ==> r.rxP0 == r.pipe0Address)
  }

  ghost predicate Slots(peers: seq<Peer>) {
    forall i :: 0 <= i < |peers| ==> SlotOk(peers[i].rx) && peers[i].seqnumberTx == 0
  }

  /** Everything queued has been consumed, except the event still pending. */
  predicate MailConserved(bufferRx: seq<byte>, lenRx: nat, queued: seq<seq<byte>>, consumed: seq<seq<byte>>) {
    && lenRx <= |bufferRx|
    && queued == consumed + if lenRx == 0 then [] else [bufferRx[..lenRx]]
  }

  /** Keepalive requests on pipe fd among the frames on the air from the one numbered mark on. */
  function RequestsFrom(air: seq<Sent>, mark: nat, fd: nat): (n: nat) {
    if |air| <= mark then 0
    else
      var last := air[|air| - 1];
      RequestsFrom(air[..|air| - 1], mark, fd) + if last.kind == KeepaliveReq && last.pipe == fd then 1 else 0
  }

  /**
    * At most ten attempts are counted. Each one after the first is a request on the air; every connect
    * starts the count again, with the requests already sent still unanswered.
    */
  ghost predicate PeerAlive(p: Peer, heard: Option<nat>, sent: nat, connects: nat, now: nat) {
    && p.keepalive <= 10
    && sent <= 9 * connects + (if p.keepalive != 0 then p.keepalive - 1 else 9)
    && (heard.Some? ==> heard.value <= now && p.anchor == Clock(heard.value))
  }

  ghost predicate KeepaliveOk(peers: seq<Peer>, heard: seq<Option<nat>>, air: seq<Sent>, mark: seq<nat>,
                              connects: seq<nat>, now: nat)
  {
    && |peers| == |heard| == |mark| == |connects| == CONNECTION_COUNTER
    && forall i :: 0 <= i < CONNECTION_COUNTER ==>
         && mark[i] <= |air|
         && PeerAlive(peers[i], heard[i], RequestsFrom(air, mark[i], i + 1), connects[i], now)
  }

  /** Freed only after 7500 ms without a packet, and reported by an event with the peer's address. */
  ghost predicate FreedJustly(f: Freed, queued: seq<seq<byte>>) {
    && (f.lastHeard.Some? ==> f.at - f.lastHeard.value >= KEEPALIVE_TIMEOUT_MS)
    && f.event < |queued|
    && |queued[f.event]| == DISCONNECTED_LEN
    && queued[f.event][..2] == EVT_DISCONNECTED && queued[f.event][3..] == f.mac
  }

  ghost predicate FreedOk(freed: seq<Freed>, queued: seq<seq<byte>>) {
    forall k :: 0 <= k < |freed| ==> FreedJustly(freed[k], queued)
  }

  /** A connect request of this node offering one of its own socket addresses. */
  ghost predicate OwnRequest(mac: Mac, bytes: seq<byte>) {
    && |bytes| == CONNECT_LEN && bytes[0] % 16 == TYPE_CONNECT_REQ
    && bytes[1..9] == mac && bytes[17] == RAW_CHANNEL
    && exists fd :: 1 <= fd <= CONNECTION_COUNTER && bytes[18..23] == AddressFor(mac, fd)
  }

  ghost predicate RequestOk(mac: Mac, bufferTx: seq<byte>, lenTx: nat) {
    lenTx <= |bufferTx| && (lenTx != 0 ==> OwnRequest(mac, bufferTx[..lenTx]))
  }

  predicate Tuned(r: Radio, ch: byte, aa: Mask) {
    r.rfCh == ch && r.enAA == aa
  }

  /** Management frames only on channel 76 without auto-ack, data-channel frames only on 22 with it. */
  ghost predicate SentRight(mac: Mac, f: Sent) {
    match f.kind
    case PresenceFrame => f.pipe == 0 && f.rfCh == MGMT_CHANNEL && f.enAA == NO_PIPES
    case ConnectFrame => f.pipe == 0 && f.rfCh == MGMT_CHANNEL && f.enAA == NO_PIPES && OwnRequest(mac, f.bytes)
    case DisconnectFrame => true
    case _ => 1 <= f.pipe <= CONNECTION_COUNTER && f.rfCh == RAW_CHANNEL && f.enAA == ALL_PIPES
  }

  ghost predicate AirOk(mac: Mac, air: seq<Sent>) {
    forall k :: 0 <= k < |air| ==> SentRight(mac, air[k])
  }

  /**
    * Between steps the radio is tuned to the channel the scheduler thinks it is on; before its first MGMT
    * visit it is as power-on left it, and before a later one still on the data channel.
    */
  predicate ChannelOk(state: RunState, visits: seq<Visit>, r: Radio) {
    match state
    case START_MGMT => if visits == [] then Tuned(r, CHANNEL_DEFAULT, NO_PIPES) else Tuned(r, RAW_CHANNEL, ALL_PIPES)
    case MGMT | START_RAW => Tuned(r, MGMT_CHANNEL, NO_PIPES)
    case RAW => Tuned(r, RAW_CHANNEL, ALL_PIPES)
  }

  ghost predicate VisitLongEnough(v: Visit) {
    && v.ended - v.began >= v.timeout
    && (!v.raw ==> v.timeout == MGMT_TIMEOUT)
    && (v.raw ==> 10 <= v.timeout && !v.allTaken)
  }

  ghost predicate VisitsOk(sched: Sched, visits: seq<Visit>, visitBegan: nat, now: nat) {
    && 10 <= sched.rawTimeout < 256 && sched.rtStamp < 256 && sched.rtOffset <= 37
    && (forall k :: 0 <= k < |visits| ==> VisitLongEnough(visits[k]))
    && (sched.state == MGMT || sched.state == RAW ==> sched.start == Clock(visitBegan) && visitBegan <= now)
  }

  /** Burst windows start at least 60 ms apart. */
  ghost predicate BcastOk(b: Bcast, w: seq<nat>, now: nat) {
    && (forall k :: 0 < k < |w| ==> w[k] - w[k - 1] >= INTERVAL_BCAST)
    && (w != [] ==>
          && b.start == Clock(w[|w| - 1]) && w[|w| - 1] <= now
          && (b.state == PRESENCE && b.previous == TIMEOUT_INTERVAL ==> w[|w| - 1] + INTERVAL_BCAST <= now))
    && (w == [] ==> b.state == PRESENCE && b.previous == TIMEOUT_INTERVAL)
    && (b.state == STANDBY ==> b.previous == BURST_WINDOW)
  }

  /** Only messages given to hal_comm_write wait to be sent or are sent. */
  ghost predicate GivenOk(peers: seq<Peer>, given: set<(nat, seq<byte>)>, tries: seq<Try>) {
    && (forall i :: 0 <= i < |peers| && peers[i].lenTx != 0 ==> WaitingGiven(peers[i], i + 1, given))
    && (forall k :: 0 <= k < |tries| ==> TryOk(tries[k], given))
  }

  predicate WaitingGiven(p: Peer, fd: nat, given: set<(nat, seq<byte>)>) {
    p.lenTx <= |p.bufferTx| && (fd, p.bufferTx[..p.lenTx]) in given
  }

  ghost predicate TryOk(t: Try, given: set<(nat, seq<byte>)>) {
    && Message(t.m) && 1 <= t.frames <= FrameCount(t.m)
    && (t.fd, t.m) in given
  }

  ghost predicate Facts(s: Link)
    requires Shape(s)
  {
    && Table(s.bitmask, s.peers, s.radio.enRxAddr)
    && Pipe0Kept(s.radio)
    && Slots(s.peers)
    && MailConserved(s.mgmt.bufferRx, s.mgmt.lenRx, s.hist.queued, s.hist.consumed)
    && KeepaliveOk(s.peers, s.hist.heard, s.hist.air, s.hist.mark, s.hist.connects, s.hist.now)
    && FreedOk(s.hist.freed, s.hist.queued)
    && RequestOk(s.mac, s.mgmt.bufferTx, s.mgmt.lenTx)
    && AirOk(s.mac, s.hist.air)
    && VisitsOk(s.sched, s.hist.visits, s.hist.visitBegan, s.hist.now)
    && BcastOk(s.bcast, s.hist.windows, s.hist.now)
    && GivenOk(s.peers, s.hist.given, s.hist.tries)
  }

  /** Everything except which channel the radio is on. */
  ghost predicate Sound(s: Link) {
    Shape(s) && Facts(s)
  }

  ghost predicate Inv(s: Link) {
    Sound(s) && ChannelOk(s.sched.state, s.hist.visits, s.radio)
  }

  /** Clock readings within a call never go back. */
  ghost predicate EnvOk(e: Env, now: nat) {
    && EnvShape(e)
    && now <= e.t1 <= e.t2 <= e.t3 <= e.t4 <= e.t5
    && (forall i :: 0 <= i < |e.rawIn| ==> e.t2 <= e.rawIn[i].at <= e.t3)
    && (forall i, j :: 0 <= i < j < |e.rawIn| ==> e.rawIn[i].at <= e.rawIn[j].at)
  }

  // --- one peers[] entry changes ---

  lemma TableSet(bitmask: Mask, peers: seq<Peer>, enRxAddr: Mask, i: nat, p: Peer)
    requires Table(bitmask, peers, enRxAddr) && i < CONNECTION_COUNTER
    ensures p.pipe == peers[i].pipe ==> Table(bitmask, peers[i := p], enRxAddr)
    ensures var on := p.pipe != -1; Table(bitmask[i + 1 := on], peers[i := p], enRxAddr[i + 1 := on])
  {
  }

  lemma SlotsSet(peers: seq<Peer>, i: nat, p: Peer)
    requires Slots(peers) && i < |peers| && SlotOk(p.rx) && p.seqnumberTx == 0
    ensures Slots(peers[i := p])
  {
  }

  lemma GivenSet(peers: seq<Peer>, given: set<(nat, seq<byte>)>, tries: seq<Try>, i: nat, p: Peer)
    requires GivenOk(peers, given, tries) && i < |peers| && (p.lenTx != 0 ==> WaitingGiven(p, i + 1, given))
    ensures GivenOk(peers[i := p], given, tries)
  {
  }

  lemma AliveSet(peers: seq<Peer>, heard: seq<Option<nat>>, air: seq<Sent>, mark: seq<nat>, connects: seq<nat>,
                 now: nat, i: nat, p: Peer, h: Option<nat>, m: nat, c: nat)
    requires KeepaliveOk(peers, heard, air, mark, connects, now) && i < CONNECTION_COUNTER && m <= |air|
    requires PeerAlive(p, h, RequestsFrom(air, m, i + 1), c, now)
    ensures KeepaliveOk(peers[i := p], heard[i := h], air, mark[i := m], connects[i := c], now)
  {
    hide RequestsFrom, PeerAlive;
  }

  /** Entry fd keeps its pipe and satisfies what every entry does. */
  ghost predicate Fits(s: Link, fd: nat, p: Peer)
    requires Shape(s) && 1 <= fd <= CONNECTION_COUNTER
  {
    && PeerShape(p, fd - 1) && p.pipe == s.peers[fd - 1].pipe && SlotOk(p.rx) && p.seqnumberTx == 0
    && PeerAlive(p, s.hist.heard[fd - 1], RequestsFrom(s.hist.air, s.hist.mark[fd - 1], fd),
                 s.hist.connects[fd - 1], s.hist.now)
    && (p.lenTx != 0 ==> WaitingGiven(p, fd, s.hist.given))
  }

  lemma SetPeerKeeps(s: Link, fd: nat, p: Peer)
    requires Sound(s) && 1 <= fd <= CONNECTION_COUNTER && Fits(s, fd, p)
    ensures Sound(SetPeer(s, fd, p))
  {
    var i, h := fd - 1, s.hist;
    TableSet(s.bitmask, s.peers, s.radio.enRxAddr, i, p);
    SlotsSet(s.peers, i, p);
    GivenSet(s.peers, h.given, h.tries, i, p);
    AliveSet(s.peers, h.heard, h.air, h.mark, h.connects, h.now, i, p, h.heard[i], h.mark[i], h.connects[i]);
    hide Table, Slots, GivenOk, KeepaliveOk, MailConserved, FreedOk, RequestOk, AirOk, VisitsOk, BcastOk, Pipe0Kept;
    assert h.heard[i := h.heard[i]] == h.heard && h.mark[i := h.mark[i]] == h.mark;
    assert h.connects[i := h.connects[i]] == h.connects;
  }

  /** What an entry satisfies in a sound state. */
  lemma EntryFits(s: Link, fd: nat)
    requires Sound(s) && 1 <= fd <= CONNECTION_COUNTER
    ensures Fits(s, fd, s.peers[fd - 1])
  {
    hide MailConserved, FreedOk, RequestOk, AirOk, VisitsOk, BcastOk, Pipe0Kept, RequestsFrom;
  }

  // --- a frame goes on the air ---

  lemma {:induction false} RequestsSnoc(air: seq<Sent>, f: Sent, mark: nat, fd: nat)
    requires mark <= |air|
    ensures RequestsFrom(air + [f], mark, fd)
            == RequestsFrom(air, mark, fd) + if f.kind == KeepaliveReq && f.pipe == fd then 1 else 0
  {
    assert (air + [f])[..|air|] == air;
  }

  /** A keepalive request goes out only while its pipe has an attempt to spend on it. */
  ghost predicate RoomFor(s: Link, f: Sent)
    requires Shape(s)
  {
    f.kind == KeepaliveReq && 1 <= f.pipe <= CONNECTION_COUNTER ==>
      var i := f.pipe - 1;
      PeerAlive(s.peers[i], s.hist.heard[i], RequestsFrom(s.hist.air, s.hist.mark[i], f.pipe) + 1,
                s.hist.connects[i], s.hist.now)
  }

  lemma AirKeepsAlive(s: Link, f: Sent)
    requires Shape(s) && RoomFor(s, f)
    requires KeepaliveOk(s.peers, s.hist.heard, s.hist.air, s.hist.mark, s.hist.connects, s.hist.now)
    ensures KeepaliveOk(s.peers, s.hist.heard, s.hist.air + [f], s.hist.mark, s.hist.connects, s.hist.now)
  {
    hide RequestsFrom;
    forall i | 0 <= i < CONNECTION_COUNTER
      ensures PeerAlive(s.peers[i], s.hist.heard[i], RequestsFrom(s.hist.air + [f], s.hist.mark[i], i + 1),
                        s.hist.connects[i], s.hist.now)
    {
      RequestsSnoc(s.hist.air, f, s.hist.mark[i], i + 1);
    }
  }

  // --- each piece keeps the invariant ---

  lemma WriteKeepsRadio(r: Radio, p: nat)
    requires Initialised(r) && Pipe0Kept(r)
    ensures Pipe0Kept(PhyDriverNrf24.Write(r, p))
    ensures PhyDriverNrf24.Write(r, p).enRxAddr == r.enRxAddr
    ensures Tuned(PhyDriverNrf24.Write(r, p), r.rfCh, r.enAA) && Tuned(SetPtx(r, p), r.rfCh, r.enAA)
  {
  }

  lemma TransmitKeeps(s: Link, kind: Kind, pipe: nat, bytes: seq<byte>)
    requires Sound(s)
    requires var f := Sent(kind, pipe, bytes, s.radio.rfCh, s.radio.enAA, SetPtx(s.radio, pipe).txAddr);
             SentRight(s.mac, f) && RoomFor(s, f)
    ensures Sound(Transmit(s, kind, pipe, bytes))
    ensures Tuned(Transmit(s, kind, pipe, bytes).radio, s.radio.rfCh, s.radio.enAA)
  {
    WriteKeepsRadio(s.radio, pipe);
    AirKeepsAlive(s, Sent(kind, pipe, bytes, s.radio.rfCh, s.radio.enAA, SetPtx(s.radio, pipe).txAddr));
    hide Table, Slots, GivenOk, KeepaliveOk, MailConserved, FreedOk, RequestOk, SentRight, VisitsOk, BcastOk, Pipe0Kept;
  }

  /** The mailbox was empty: nothing is overwritten. */
  lemma QueueKeeps(s: Link, buffer: seq<byte>, len: nat)
    requires Sound(s) && s.mgmt.lenRx == 0 && |buffer| == MTU && 0 < len <= MTU
    ensures Sound(Queue(s, buffer, len))
  {
    hide Table, Slots, GivenOk, KeepaliveOk, RequestOk, AirOk, VisitsOk, BcastOk, Pipe0Kept;
  }

  lemma ConsumeKeeps(s: Link)
    requires Sound(s) && s.mgmt.lenRx != 0
    ensures Sound(Consume(s))
  {
    hide Table, Slots, GivenOk, KeepaliveOk, FreedOk, RequestOk, AirOk, VisitsOk, BcastOk, Pipe0Kept;
  }

  lemma OpenIoctlKeeps(r: Radio, p: nat, a: Addr)
    requires Initialised(r) && Pipe0Kept(r) && p <= PIPE_MAX
    ensures var t := Ioctl(r, SetPipe(p, a));
            Pipe0Kept(t) && t.enRxAddr == r.enRxAddr[p := true] && Tuned(t, r.rfCh, r.enAA)
  {
  }

  lemma CloseIoctlKeeps(r: Radio, p: nat)
    requires Initialised(r) && Pipe0Kept(r) && 1 <= p <= PIPE_MAX
    ensures var t := Ioctl(r, ResetPipe(p));
            Pipe0Kept(t) && t.enRxAddr == r.enRxAddr[p := false] && Tuned(t, r.rfCh, r.enAA)
  {
  }

  lemma RetuneIoctlKeeps(r: Radio, ch: byte, ack: bool)
    requires Initialised(r) && Pipe0Kept(r) && CH_MIN <= ch <= CH_MAX_1MBPS
    ensures var t := Ioctl(r, SetCh(ch, ack));
            Pipe0Kept(t) && t.enRxAddr == r.enRxAddr && Tuned(t, ch, if ack then ALL_PIPES else NO_PIPES)
  {
  }

  lemma FreePipeKeeps(s: Link, fd: nat)
    requires Sound(s) && 1 <= fd <= CONNECTION_COUNTER && s.peers[fd - 1].pipe != -1
    ensures Sound(FreePipe(s, fd))
    ensures Tuned(FreePipe(s, fd).radio, s.radio.rfCh, s.radio.enAA)
  {
    var i, p := fd - 1, s.peers[fd - 1].(pipe := -1, keepalive := 0);
    EntryFits(s, fd);
    CloseIoctlKeeps(s.radio, fd);
    TableSet(s.bitmask, s.peers, s.radio.enRxAddr, i, p);
    SlotsSet(s.peers, i, p);
    GivenSet(s.peers, s.hist.given, s.hist.tries, i, p);
    FreedAlive(s, i);
    hide Table, Slots, GivenOk, KeepaliveOk, MailConserved, FreedOk, RequestOk, AirOk, BcastOk, Pipe0Kept;
  }

  lemma FreedAlive(s: Link, i: nat)
    requires Sound(s) && i < CONNECTION_COUNTER
    ensures KeepaliveOk(s.peers[i := s.peers[i].(pipe := -1, keepalive := 0)], s.hist.heard, s.hist.air,
                        s.hist.mark, s.hist.connects, s.hist.now)
  {
    hide RequestsFrom;
  }

  lemma AllocKeeps(s: Link, aa: Addr)
    requires Sound(s) && AllocPipe(s).1 > 0
    ensures var (t, fd) := AllocPipe(s);
            var u := OpenFor(t, fd, aa);
            && Sound(u) && Tuned(u.radio, s.radio.rfCh, s.radio.enAA)
            && s.peers[fd - 1].pipe == -1 && u.peers[fd - 1] == FRESH_PEER.(pipe := fd) && JustHeard(u, fd)
            && u.hist.now == s.hist.now && u.sched == s.sched && u.hist.visits == s.hist.visits
  {
    var (t, fd) := AllocPipe(s);
    var i, p := fd - 1, FRESH_PEER.(pipe := fd);
    OpenIoctlKeeps(s.radio, fd, aa);
    assert SlotOk(EMPTY_SLOT);
    TableSet(s.bitmask, s.peers, s.radio.enRxAddr, i, p);
    SlotsSet(s.peers, i, p);
    GivenSet(s.peers, s.hist.given, s.hist.tries, i, p);
    AliveSet(s.peers, s.hist.heard, s.hist.air, s.hist.mark, s.hist.connects, s.hist.now, i, p, None, |s.hist.air|, 0);
    hide Table, Slots, GivenOk, KeepaliveOk, MailConserved, FreedOk, RequestOk, AirOk, VisitsOk, BcastOk, Pipe0Kept;
  }

  /** No request has gone out on pipe fd since the packet now being handled, and no connect succeeded. */
  ghost predicate JustHeard(s: Link, fd: nat)
    requires Shape(s) && 1 <= fd <= CONNECTION_COUNTER
  {
    s.hist.mark[fd - 1] == |s.hist.air| && s.hist.connects[fd - 1] == 0
  }

  lemma SoundLater(s: Link, t: nat)
    requires Sound(s) && s.hist.now <= t
    ensures Sound(s.(hist := s.hist.(now := t)))
  {
    hide Table, Slots, GivenOk, MailConserved, FreedOk, RequestOk, AirOk, Pipe0Kept, RequestsFrom;
  }

  lemma AliveKeeps(s: Link, fd: nat, at: nat)
    requires Sound(s) && 1 <= fd <= CONNECTION_COUNTER && s.hist.now <= at
    ensures Sound(Alive(s, fd, at)) && JustHeard(Alive(s, fd, at), fd)
  {
    SoundLater(s, at);
    var u := s.(hist := s.hist.(now := at));
    var i, p, h := fd - 1, s.peers[fd - 1].(anchor := Clock(at)), u.hist;
    EntryFits(s, fd);
    TableSet(s.bitmask, s.peers, s.radio.enRxAddr, i, p);
    SlotsSet(s.peers, i, p);
    GivenSet(s.peers, h.given, h.tries, i, p);
    AliveSet(u.peers, h.heard, h.air, h.mark, h.connects, h.now, i, p, Some(at), |h.air|, 0);
    hide Table, Slots, GivenOk, KeepaliveOk, MailConserved, FreedOk, RequestOk, AirOk, VisitsOk, BcastOk, Pipe0Kept;
  }

  lemma ResponseKeeps(s: Link, fd: nat)
    requires Sound(s) && 1 <= fd <= CONNECTION_COUNTER && JustHeard(s, fd)
    ensures Sound(SetPeer(s, fd, ResetKeepalive(s.peers[fd - 1])))
  {
    EntryFits(s, fd);
    hide Facts;
    SetPeerKeeps(s, fd, ResetKeepalive(s.peers[fd - 1]));
  }

  lemma ControlKeeps(s: Link, fd: nat, f: Heard, junk: byte)
    requires Sound(s) && 1 <= fd <= CONNECTION_COUNTER && RawFrame(f)
    requires JustHeard(s, fd) && Tuned(s.radio, RAW_CHANNEL, ALL_PIPES)
    ensures Sound(HandleControl(s, fd, f, junk))
    ensures Tuned(HandleControl(s, fd, f, junk).radio, RAW_CHANNEL, ALL_PIPES)
  {
    hide Facts;
    var p := s.peers[fd - 1];
    var op, src, dst := f.buf[2], f.buf[3..11], f.buf[11..19];
    if op == OP_KEEPALIVE_REQ && src == p.mac && dst == s.mac {
      TransmitKeeps(s, KeepaliveRsp, fd, ControlPdu(OP_KEEPALIVE_RSP, s.mac, p.mac, junk));
    } else if op == OP_KEEPALIVE_RSP {
      ResponseKeeps(s, fd);
    } else if op == OP_DISCONNECT && s.mgmt.lenRx == 0 {
      QueueKeeps(s, DisconnectedEvent(s.mgmt.bufferRx, src), DISCONNECTED_LEN);
    }
  }

  /** What serving a pipe never touches. */
  ghost predicate SameFrame(s: Link, t: Link) {
    && t.mac == s.mac && t.listen == s.listen && t.bitmask == s.bitmask
    && t.sched == s.sched && t.bcast == s.bcast && t.mgmt.pipe == s.mgmt.pipe
    && t.hist.visits == s.hist.visits && t.hist.visitBegan == s.hist.visitBegan
    && t.hist.windows == s.hist.windows && t.hist.given == s.hist.given
  }

  lemma DataKeeps(s: Link, fd: nat, f: Heard)
    requires Sound(s) && 1 <= fd <= CONNECTION_COUNTER && RawFrame(f) && IsData(f)
    requires JustHeard(s, fd)
    ensures var p := ResetKeepalive(s.peers[fd - 1]);
            Sound(SetPeer(s, fd, p.(rx := Accept(p.rx, f))))
  {
    hide Facts, Accept;
    var p := ResetKeepalive(s.peers[fd - 1]);
    EntryFits(s, fd);
    AcceptKeepsSlot(s.peers[fd - 1].rx, f);
    hide SlotOk;
    SetPeerKeeps(s, fd, p.(rx := Accept(p.rx, f)));
  }

  lemma FrameKeeps(s: Link, fd: nat, f: Heard, junk: byte)
    requires Sound(s) && 1 <= fd <= CONNECTION_COUNTER && RawFrame(f) && s.hist.now <= f.at
    requires Tuned(s.radio, RAW_CHANNEL, ALL_PIPES)
    ensures var t := HandleFrame(s, fd, f, junk);
            Sound(t) && Tuned(t.radio, RAW_CHANNEL, ALL_PIPES) && SameFrame(s, t) && t.hist.now == f.at
  {
    hide Facts, Accept;
    AliveKeeps(s, fd, f.at);
    var s1 := Alive(s, fd, f.at);
    if Lid(f) == LID_CONTROL {
      ControlKeeps(s1, fd, f, junk);
    } else if IsData(f) {
      DataKeeps(s1, fd, f);
    }
  }

  lemma {:induction false} ReadRawKeeps(s: Link, fd: nat, fs: seq<Heard>, junk: byte)
    requires Sound(s) && 1 <= fd <= CONNECTION_COUNTER && Tuned(s.radio, RAW_CHANNEL, ALL_PIPES)
    requires forall i :: 0 <= i < |fs| ==> RawFrame(fs[i]) && s.hist.now <= fs[i].at
    requires forall i, j :: 0 <= i < j < |fs| ==> fs[i].at <= fs[j].at
    ensures var t := ReadRaw(s, fd, fs, junk);
            && Sound(t) && Tuned(t.radio, RAW_CHANNEL, ALL_PIPES) && SameFrame(s, t)
            && t.hist.now == if fs == [] then s.hist.now else fs[|fs| - 1].at
    decreases |fs|
  {
    hide Facts;
    if fs != [] {
      var init := fs[..|fs| - 1];
      ReadRawKeeps(s, fd, init, junk);
      FrameKeeps(ReadRaw(s, fd, init, junk), fd, fs[|fs| - 1], junk);
    }
  }

  /** Sound, except that entry fd may have a message half way out. */
  ghost predicate SoundWhileSending(s: Link, fd: nat) {
    && Shape(s) && 1 <= fd <= CONNECTION_COUNTER
    && Sound(SetPeer(s, fd, s.peers[fd - 1].(seqnumberTx := 0)))
  }

  lemma SetPeerTwice(s: Link, fd: nat, p: Peer, q: Peer)
    requires Shape(s) && 1 <= fd <= CONNECTION_COUNTER && PeerShape(p, fd - 1) && PeerShape(q, fd - 1)
    ensures SetPeer(SetPeer(s, fd, p), fd, q) == SetPeer(s, fd, q)
  {
  }

  lemma EmptySlotKeeps(s: Link, fd: nat)
    requires Sound(s) && 1 <= fd <= CONNECTION_COUNTER
    ensures Sound(SetPeer(s, fd, s.peers[fd - 1].(lenTx := 0)))
  {
    EntryFits(s, fd);
    hide Facts;
    SetPeerKeeps(s, fd, s.peers[fd - 1].(lenTx := 0));
  }

  /** One data frame leaves the node sound, up to the sequence number in use. */
  lemma SendOneKeeps(s: Link, fd: nat, left: nat, junk: byte)
    requires SoundWhileSending(s, fd) && Tuned(s.radio, RAW_CHANNEL, ALL_PIPES)
    requires 1 <= left <= s.peers[fd - 1].lenTx
    ensures var t := SendOne(s, fd, left, junk);
            && SoundWhileSending(t, fd) && Tuned(t.radio, RAW_CHANNEL, ALL_PIPES)
            && SameFrame(s, t) && t.hist.now == s.hist.now
  {
    hide Facts;
    TransmitKeeps(SetPeer(s, fd, s.peers[fd - 1].(seqnumberTx := 0)), DataFrame, fd,
                  DataBytes(s.peers[fd - 1], left, junk));
  }

  lemma CountSentKeeps(s: Link, fd: nat)
    requires SoundWhileSending(s, fd)
    ensures SoundWhileSending(CountSent(s, fd), fd) && SameFrame(s, CountSent(s, fd))
    ensures CountSent(s, fd).radio == s.radio && CountSent(s, fd).hist == s.hist
  {
    hide Facts;
    var q := CountSent(s, fd).peers[fd - 1];
    SetPeerTwice(s, fd, q, q.(seqnumberTx := 0));
  }

  lemma ClearTxKeeps(s: Link, fd: nat)
    requires SoundWhileSending(s, fd)
    ensures Sound(ClearTx(s, fd)) && SameFrame(s, ClearTx(s, fd))
    ensures ClearTx(s, fd).radio == s.radio && ClearTx(s, fd).hist == s.hist
    ensures ClearTx(s, fd).peers[fd - 1].lenTx == 0
  {
    hide Facts;
    var p := s.peers[fd - 1].(seqnumberTx := 0);
    EmptySlotKeeps(SetPeer(s, fd, p), fd);
    SetPeerTwice(s, fd, p, p.(lenTx := 0));
  }

  lemma {:induction false} SendFromKeeps(s: Link, fd: nat, left: nat, k: nat, acked: nat, junk: byte)
    requires SoundWhileSending(s, fd) && left <= s.peers[fd - 1].lenTx
    requires Tuned(s.radio, RAW_CHANNEL, ALL_PIPES)
    ensures var t := SendFrom(s, fd, left, k, acked, junk);
            && Sound(t) && Tuned(t.radio, RAW_CHANNEL, ALL_PIPES) && SameFrame(s, t) && t.hist.now == s.hist.now
            && t.peers[fd - 1].lenTx == 0
    decreases left
  {
    hide SendFrom, SendOne, CountSent, ClearTx, Sound;
    SendFromTurn(s, fd, left, k, acked, junk);
    if left == 0 {
      ClearTxKeeps(s, fd);
    } else {
      SendOneKeeps(s, fd, left, junk);
      var t := SendOne(s, fd, left, junk);
      if k >= acked {
        ClearTxKeeps(t, fd);
      } else {
        CountSentKeeps(t, fd);
        SendFromKeeps(CountSent(t, fd), fd, left - Min(left, PW_MSG_SIZE), k + 1, acked, junk);
      }
    }
  }

  lemma LogTryKeeps(s: Link, t: Try)
    requires Sound(s) && TryOk(t, s.hist.given)
    ensures Sound(s.(hist := s.hist.(tries := s.hist.tries + [t])))
  {
    hide Table, Slots, KeepaliveOk, MailConserved, FreedOk, RequestOk, AirOk, VisitsOk, BcastOk, Pipe0Kept, TryOk;
  }

  lemma WriteRawKeeps(s: Link, fd: nat, acked: nat, junk: byte)
    requires Sound(s) && 1 <= fd <= CONNECTION_COUNTER && Tuned(s.radio, RAW_CHANNEL, ALL_PIPES)
    ensures var t := WriteRaw(s, fd, acked, junk);
            && Sound(t) && Tuned(t.radio, RAW_CHANNEL, ALL_PIPES) && SameFrame(s, t) && t.hist.now == s.hist.now
            && t.peers[fd - 1].lenTx == 0
  {
    hide Facts;
    EntryFits(s, fd);
    if s.peers[fd - 1].lenTx != 0 {
      var p := s.peers[fd - 1];
      var m := p.bufferTx[..p.lenTx];
      assert SetPeer(s, fd, p.(seqnumberTx := 0)) == s;
      SendFromKeeps(s, fd, p.lenTx, 0, acked, junk);
      LogTryKeeps(SendFrom(s, fd, p.lenTx, 0, acked, junk), Try(fd, m, Min(acked + 1, FrameCount(m))));
    }
  }

  /** The disconnect event names the silent peer, and its anchor is at least 7500 ms old. */
  lemma TimeoutJust(s: Link, fd: nat, t: nat)
    requires Sound(s) && 1 <= fd <= CONNECTION_COUNTER && s.hist.now <= t && Silent(s.peers[fd - 1], t)
    ensures var mac := s.peers[fd - 1].mac;
            var ev := DisconnectedEvent(s.mgmt.bufferRx, mac)[..DISCONNECTED_LEN];
            FreedJustly(Freed(mac, s.hist.heard[fd - 1], t, |s.hist.queued|), s.hist.queued + [ev])
  {
    hide Table, Slots, GivenOk, MailConserved, FreedOk, RequestOk, AirOk, VisitsOk, BcastOk, Pipe0Kept, RequestsFrom;
    var heard := s.hist.heard[fd - 1];
    if heard.Some? {
      NeverEarly(heard.value, t, KEEPALIVE_TIMEOUT_MS);
    }
    assert DisconnectedEvent(s.mgmt.bufferRx, s.peers[fd - 1].mac)[..DISCONNECTED_LEN][3..] == s.peers[fd - 1].mac;
  }

  lemma LogFreedKeeps(s: Link, f: Freed)
    requires Sound(s) && FreedJustly(f, s.hist.queued)
    ensures Sound(s.(hist := s.hist.(freed := s.hist.freed + [f])))
  {
    hide Table, Slots, GivenOk, KeepaliveOk, MailConserved, RequestOk, AirOk, VisitsOk, BcastOk, Pipe0Kept, FreedJustly;
  }

  /** The pipe goes, the event that says so is queued, and neither happens early. */
  lemma TimeoutKeeps(s: Link, fd: nat, t: nat)
    requires Sound(s) && 1 <= fd <= CONNECTION_COUNTER && s.peers[fd - 1].pipe != -1
    requires s.hist.now <= t && Silent(s.peers[fd - 1], t) && s.mgmt.lenRx == 0
    ensures var r := TimeOut(s, fd, t);
            && Sound(r) && Tuned(r.radio, s.radio.rfCh, s.radio.enAA) && r.hist.now == s.hist.now
            && r.sched.state == s.sched.state && r.sched.sockIndex == s.sched.sockIndex
            && r.hist.visits == s.hist.visits
            && r.peers[fd - 1].lenTx == s.peers[fd - 1].lenTx
  {
    hide Facts;
    var p := s.peers[fd - 1];
    var ev := DisconnectedEvent(s.mgmt.bufferRx, p.mac);
    QueueKeeps(s, ev, DISCONNECTED_LEN);
    TimeoutJust(s, fd, t);
    var q := Queue(s, ev, DISCONNECTED_LEN);
    FreePipeKeeps(q, fd);
    LogFreedKeeps(FreePipe(q, fd), Freed(p.mac, s.hist.heard[fd - 1], t, |s.hist.queued|));
  }

  /** A request is due only while there is an attempt left: both timers read the same clock value. */
  lemma AttemptsLeft(p: Peer, t: nat)
    requires !Silent(p, t) && RequestDue(p, t)
    ensures 1 <= p.keepalive <= 9
  {
    assert p.keepalive * KEEPALIVE_SEND_MS < KEEPALIVE_TIMEOUT_MS;
  }

  lemma {:induction false} AttemptKeeps(s: Link, fd: nat)
    requires Sound(s) && 1 <= fd <= CONNECTION_COUNTER && 1 <= s.peers[fd - 1].keepalive <= 9
    ensures var t, i := CountAttempt(s, fd), fd - 1;
            && Sound(t) && t.hist == s.hist && t.radio == s.radio
            && PeerAlive(t.peers[i], s.hist.heard[i], RequestsFrom(s.hist.air, s.hist.mark[i], fd) + 1,
                         s.hist.connects[i], s.hist.now)
  {
    hide Facts, RequestsFrom, SlotOk;
    EntryFits(s, fd);
    SetPeerKeeps(s, fd, s.peers[fd - 1].(keepalive := s.peers[fd - 1].keepalive + 1));
  }

  lemma RequestKeeps(s: Link, fd: nat, junk: byte)
    requires Sound(s) && 1 <= fd <= CONNECTION_COUNTER && 1 <= s.peers[fd - 1].keepalive <= 9
    requires Tuned(s.radio, RAW_CHANNEL, ALL_PIPES)
    ensures var r := Request(s, fd, junk);
            && Sound(r) && Tuned(r.radio, RAW_CHANNEL, ALL_PIPES) && SameFrame(s, r) && r.hist.now == s.hist.now
            && r.peers[fd - 1].lenTx == s.peers[fd - 1].lenTx
  {
    hide Facts, PeerAlive, RequestsFrom;
    AttemptKeeps(s, fd);
    TransmitKeeps(CountAttempt(s, fd), KeepaliveReq, fd,
                  ControlPdu(OP_KEEPALIVE_REQ, s.mac, s.peers[fd - 1].mac, junk));
  }

  lemma SuperviseKeeps(s: Link, fd: nat, t: nat, junk: byte)
    requires Sound(s) && 1 <= fd <= CONNECTION_COUNTER && s.peers[fd - 1].pipe != -1 && s.hist.now <= t
    requires Tuned(s.radio, RAW_CHANNEL, ALL_PIPES)
    ensures var r := Supervise(s, fd, t, junk);
            && Sound(r) && Tuned(r.radio, RAW_CHANNEL, ALL_PIPES) && r.hist.now == s.hist.now
            && r.sched.state == s.sched.state && r.sched.sockIndex == s.sched.sockIndex
            && r.hist.visits == s.hist.visits
            && r.peers[fd - 1].lenTx == s.peers[fd - 1].lenTx
  {
    hide Facts;
    if Silent(s.peers[fd - 1], t) {
      if s.mgmt.lenRx == 0 {
        TimeoutKeeps(s, fd, t);
      }
    } else if RequestDue(s.peers[fd - 1], t) {
      AttemptsLeft(s.peers[fd - 1], t);
      RequestKeeps(s, fd, junk);
    }
  }

  lemma RawExitKeeps(s: Link, e: Env)
    requires Sound(s) && EnvOk(e, s.hist.now) && s.sched.state == RAW
    ensures var t := RawExit(s, e);
            && Sound(t) && t.hist.now == s.hist.now && t.radio == s.radio && t.peers == s.peers
            && (t.sched.state == RAW || (t.sched.state == START_MGMT && t.hist.visits != []))
            && t.sched.sockIndex == s.sched.sockIndex
  {
    hide Table, Slots, GivenOk, KeepaliveOk, MailConserved, FreedOk, RequestOk, AirOk, BcastOk, Pipe0Kept;
    if LeaveRaw(s, e) {
      NeverEarly(s.hist.visitBegan, e.t1, s.sched.rawTimeout);
    }
  }

  lemma StampKeeps(s: Link, t: nat)
    requires Sound(s) && s.hist.now <= t
    ensures Sound(Stamp(s, t)) && Stamp(s, t).radio == s.radio && Stamp(s, t).hist.now == t
  {
    SoundLater(s, t);
    hide Table, Slots, GivenOk, KeepaliveOk, MailConserved, FreedOk, RequestOk, AirOk, BcastOk, Pipe0Kept;
  }

  /** Reading and writing on the pipe in turn. */
  lemma TrafficKeeps(s: Link, fd: nat, e: Env)
    requires Sound(s) && EnvOk(e, s.hist.now) && 1 <= fd <= CONNECTION_COUNTER
    requires Tuned(s.radio, RAW_CHANNEL, ALL_PIPES)
    ensures var t := Traffic(s, fd, e);
            && Sound(t) && Tuned(t.radio, RAW_CHANNEL, ALL_PIPES) && SameFrame(s, t) && t.hist.now <= e.t3
            && t.peers[fd - 1].lenTx == 0
  {
    hide Facts;
    ReadRawKeeps(s, fd, e.rawIn, e.junk);
    WriteRawKeeps(ReadRaw(s, fd, e.rawIn, e.junk), fd, e.acked, e.junk);
  }

  lemma ServeKeeps(s: Link, fd: nat, e: Env)
    requires Sound(s) && EnvOk(e, s.hist.now) && 1 <= fd <= CONNECTION_COUNTER
    requires Tuned(s.radio, RAW_CHANNEL, ALL_PIPES)
    ensures var t := Serve(s, fd, e);
            && Sound(t) && Tuned(t.radio, RAW_CHANNEL, ALL_PIPES) && t.hist.now <= e.t3
            && t.sched.state == s.sched.state && t.sched.sockIndex == s.sched.sockIndex
            && t.hist.visits == s.hist.visits
            && (s.peers[fd - 1].pipe != -1 ==> t.peers[fd - 1].lenTx == 0)
  {
    hide Facts;
    if s.peers[fd - 1].pipe != -1 {
      TrafficKeeps(s, fd, e);
      StampKeeps(Traffic(s, fd, e), e.t3);
      SuperviseKeeps(Stamp(Traffic(s, fd, e), e.t3), fd, e.t4, e.junk);
    }
  }

  lemma NextSockKeeps(s: Link)
    requires Sound(s)
    ensures Sound(NextSock(s))
  {
    hide Table, Slots, GivenOk, KeepaliveOk, MailConserved, FreedOk, RequestOk, AirOk, BcastOk, Pipe0Kept;
  }

  lemma RawStepKeeps(s: Link, e: Env)
    requires Inv(s) && EnvOk(e, s.hist.now) && s.sched.state == RAW
    ensures Inv(RawStep(s, e)) && RawStep(s, e).hist.now <= e.t4
    ensures var t := RawStep(s, e);
            && t.sched.sockIndex == (if s.sched.sockIndex == CONNECTION_COUNTER then 1 else s.sched.sockIndex + 1)
            && (s.peers[s.sched.sockIndex - 1].pipe != -1 ==> t.peers[s.sched.sockIndex - 1].lenTx == 0)
  {
    hide Facts;
    RawExitKeeps(s, e);
    var s1 := RawExit(s, e);
    ServeKeeps(s1, s.sched.sockIndex, e);
    NextSockKeeps(Serve(s1, s.sched.sockIndex, e));
  }

  lemma ReadMgmtKeeps(s: Link, heard: Option<Heard>)
    requires Sound(s) && (heard.Some? ==> MgmtFrame(heard.value))
    ensures Sound(ReadMgmt(s, heard))
    ensures ReadMgmt(s, heard).radio == s.radio && SameFrame(s, ReadMgmt(s, heard))
    ensures ReadMgmt(s, heard).hist.now == s.hist.now
  {
    hide Facts;
    if heard.Some? && s.mgmt.lenRx == 0 {
      var f := heard.value;
      if f.buf[0] % 16 == TYPE_PRESENCE {
        if !s.listen && f.len >= 9 {
          QueueKeeps(s, PresenceEvent(s.mgmt.bufferRx, f.buf[1..9], f.buf[9..f.len]), f.len + 2);
        }
      } else if f.buf[0] % 16 == TYPE_CONNECT_REQ && f.len == CONNECT_LEN && f.buf[9..17] == s.mac {
        QueueKeeps(s, ConnectedEvent(s.mgmt.bufferRx, f.buf[1..9], f.buf[9..17], f.buf[17], f.buf[18..23]),
                   CONNECTED_LEN);
      }
    }
  }

  lemma WriteMgmtKeeps(s: Link, acked: bool)
    requires Sound(s) && Tuned(s.radio, MGMT_CHANNEL, NO_PIPES)
    ensures var t := WriteMgmt(s, acked);
            Sound(t) && Tuned(t.radio, MGMT_CHANNEL, NO_PIPES) && SameFrame(s, t) && t.hist.now == s.hist.now
  {
    hide Table, Slots, GivenOk, KeepaliveOk, MailConserved, FreedOk, AirOk, VisitsOk, BcastOk, Pipe0Kept;
    if s.mgmt.lenTx != 0 {
      TransmitKeeps(s, ConnectFrame, 0, s.mgmt.bufferTx[..s.mgmt.lenTx]);
    }
  }

  /** A new burst window starts no sooner than 60 ms after the one before. */
  lemma WindowKeeps(s: Link, t1: nat, t2: nat)
    requires Sound(s) && s.hist.now <= t1 <= t2
    requires s.bcast.state == PRESENCE && s.bcast.previous == TIMEOUT_INTERVAL
    ensures Sound(s.(bcast := s.bcast.(state := BURST_WINDOW, start := Clock(t1)),
                     hist := s.hist.(windows := s.hist.windows + [t1], now := t2)))
  {
    SoundLater(s, t2);
    hide Table, Slots, GivenOk, KeepaliveOk, MailConserved, FreedOk, RequestOk, AirOk, VisitsOk, Pipe0Kept;
  }

  /** A second burst in the same window. */
  lemma RepeatBurstKeeps(s: Link)
    requires Sound(s) && s.bcast.state == PRESENCE && s.bcast.previous != TIMEOUT_INTERVAL
    ensures Sound(s.(bcast := s.bcast.(state := BURST_WINDOW)))
  {
    hide Table, Slots, GivenOk, KeepaliveOk, MailConserved, FreedOk, RequestOk, AirOk, VisitsOk, Pipe0Kept;
  }

  lemma BurstKeeps(s: Link, e: Env)
    requires Sound(s) && EnvOk(e, s.hist.now) && Tuned(s.radio, MGMT_CHANNEL, NO_PIPES)
    requires s.bcast.state == PRESENCE
    ensures var t := PresenceConnect(s, e).(hist := PresenceConnect(s, e).hist.(now := e.t2));
            Sound(t) && Tuned(t.radio, MGMT_CHANNEL, NO_PIPES) && t.sched == s.sched && t.bitmask == s.bitmask
            && t.hist.visitBegan == s.hist.visitBegan
  {
    hide Facts;
    if s.mac != NO_MAC {
      var bytes := PresencePdu(s.mac, THING_NAME, e.junk);
      TransmitKeeps(s, PresenceFrame, 0, bytes);
      var t := Transmit(s, PresenceFrame, 0, bytes);
      if !e.ackPresence {
        SoundLater(t, e.t2);
      } else if s.bcast.previous == TIMEOUT_INTERVAL {
        WindowKeeps(t, e.t1, e.t2);
      } else {
        RepeatBurstKeeps(t);
        SoundLater(t.(bcast := t.bcast.(state := BURST_WINDOW)), e.t2);
      }
    } else {
      SoundLater(s, e.t2);
    }
  }

  lemma BcastChangeKeeps(s: Link, b: Bcast, t: nat)
    requires Sound(s) && s.hist.now <= t
    requires BcastOk(b, s.hist.windows, t)
    ensures Sound(s.(bcast := b, hist := s.hist.(now := t)))
  {
    SoundLater(s, t);
    hide Table, Slots, GivenOk, KeepaliveOk, MailConserved, FreedOk, RequestOk, AirOk, VisitsOk, BcastOk, Pipe0Kept;
  }

  lemma StandbyKeeps(s: Link, t: nat)
    requires Sound(s) && s.hist.now <= t && s.bcast.state == STANDBY
    ensures Sound(s.(bcast := s.bcast.(state := TIMEOUT_INTERVAL), radio := Ioctl(s.radio, SetStandby),
                     hist := s.hist.(now := t)))
  {
    hide Table, Slots, GivenOk, KeepaliveOk, MailConserved, FreedOk, RequestOk, AirOk, VisitsOk;
    BcastChangeKeeps(s, s.bcast.(state := TIMEOUT_INTERVAL), t);
  }

  lemma WaitKeeps(s: Link, e: Env)
    requires Sound(s) && EnvOk(e, s.hist.now) && Tuned(s.radio, MGMT_CHANNEL, NO_PIPES)
    requires s.bcast.state != PRESENCE
    ensures var t := PresenceConnect(s, e).(hist := PresenceConnect(s, e).hist.(now := e.t2));
            Sound(t) && Tuned(t.radio, MGMT_CHANNEL, NO_PIPES) && t.sched == s.sched && t.bitmask == s.bitmask
            && t.hist.visitBegan == s.hist.visitBegan
  {
    hide Table, Slots, GivenOk, KeepaliveOk, MailConserved, FreedOk, RequestOk, AirOk, VisitsOk, Pipe0Kept;
    var w := s.hist.windows;
    if s.bcast.state == STANDBY {
      StandbyKeeps(s, e.t2);
    } else {
      if s.bcast.state == TIMEOUT_INTERVAL && HalTimeout(Clock(e.t1), s.bcast.start, INTERVAL_BCAST) {
        NeverEarly(w[|w| - 1], e.t1, INTERVAL_BCAST);
      }
      BcastChangeKeeps(s, PresenceConnect(s, e).bcast, e.t2);
    }
  }

  lemma PresenceKeeps(s: Link, e: Env)
    requires Sound(s) && EnvOk(e, s.hist.now) && Tuned(s.radio, MGMT_CHANNEL, NO_PIPES)
    ensures var t := PresenceConnect(s, e).(hist := PresenceConnect(s, e).hist.(now := e.t2));
            Sound(t) && Tuned(t.radio, MGMT_CHANNEL, NO_PIPES) && t.sched == s.sched && t.bitmask == s.bitmask
            && t.hist.visitBegan == s.hist.visitBegan
  {
    hide Facts;
    if s.bcast.state == PRESENCE {
      BurstKeeps(s, e);
    } else {
      WaitKeeps(s, e);
    }
  }

  lemma MgmtExchangeKeeps(s: Link, e: Env)
    requires Sound(s) && EnvOk(e, s.hist.now) && Tuned(s.radio, MGMT_CHANNEL, NO_PIPES)
    ensures var t := WriteMgmt(ReadMgmt(s, e.mgmtIn), e.ackMgmt);
            Sound(t) && Tuned(t.radio, MGMT_CHANNEL, NO_PIPES) && SameFrame(s, t) && t.hist.now == s.hist.now
  {
    hide Facts;
    ReadMgmtKeeps(s, e.mgmtIn);
    WriteMgmtKeeps(ReadMgmt(s, e.mgmtIn), e.ackMgmt);
  }

  /** The frame in, the frame out and the presence burst of one MGMT step. */
  lemma MgmtTrafficKeeps(s: Link, e: Env)
    requires Inv(s) && EnvOk(e, s.hist.now) && s.sched.state == MGMT
    ensures var s1 := WriteMgmt(ReadMgmt(s, e.mgmtIn), e.ackMgmt);
            var s2 := if s1.listen then PresenceConnect(s1, e) else s1;
            var t := s2.(hist := s2.hist.(now := e.t2));
            Sound(t) && Tuned(t.radio, MGMT_CHANNEL, NO_PIPES) && t.sched == s.sched
            && t.hist.visitBegan == s.hist.visitBegan
  {
    hide Facts;
    MgmtExchangeKeeps(s, e);
    var s1 := WriteMgmt(ReadMgmt(s, e.mgmtIn), e.ackMgmt);
    if s1.listen {
      PresenceKeeps(s1, e);
    } else {
      SoundLater(s1, e.t2);
    }
  }

  lemma LeaveMgmtKeeps(s: Link, e: Env)
    requires Sound(s.(hist := s.hist.(now := e.t2))) && Tuned(s.radio, MGMT_CHANNEL, NO_PIPES)
    requires EnvOk(e, 0) && s.sched.state == MGMT
    ensures Inv(s.(hist := s.hist.(now := e.t4)))
    ensures LeaveMgmt(s, e) ==>
              Inv(s.(sched := s.sched.(state := START_RAW),
                     hist := s.hist.(now := e.t4, visits := s.hist.visits
                                     + [Visit(false, s.hist.visitBegan, e.t3, MGMT_TIMEOUT, false)])))
  {
    SoundLater(s.(hist := s.hist.(now := e.t2)), e.t4);
    hide Table, Slots, GivenOk, KeepaliveOk, MailConserved, FreedOk, RequestOk, AirOk, BcastOk, Pipe0Kept;
    if LeaveMgmt(s, e) {
      NeverEarly(s.hist.visitBegan, e.t3, MGMT_TIMEOUT);
    }
  }

  lemma MgmtStepKeeps(s: Link, e: Env)
    requires Inv(s) && EnvOk(e, s.hist.now) && s.sched.state == MGMT
    ensures var t := MgmtStep(s, e); Inv(t.(hist := t.hist.(now := e.t4)))
  {
    hide Facts;
    MgmtTrafficKeeps(s, e);
    var s1 := WriteMgmt(ReadMgmt(s, e.mgmtIn), e.ackMgmt);
    LeaveMgmtKeeps(if s1.listen then PresenceConnect(s1, e) else s1, e);
  }

  lemma EnterKeeps(s: Link, ch: byte, ack: bool, next: RunState, e: Env)
    requires Inv(s) && EnvOk(e, s.hist.now)
    requires (ch, ack, next) == (MGMT_CHANNEL, false, MGMT) || (ch, ack, next) == (RAW_CHANNEL, true, RAW)
    ensures var t := EnterChannel(s, ch, ack, next, e); Inv(t.(hist := t.hist.(now := e.t4)))
  {
    RetuneIoctlKeeps(s.radio, ch, ack);
    SoundLater(s, e.t4);
    hide Table, Slots, GivenOk, KeepaliveOk, MailConserved, FreedOk, RequestOk, AirOk, BcastOk, Pipe0Kept;
  }

  lemma LaterKeeps(s: Link, t: nat)
    requires Inv(s) && s.hist.now <= t
    ensures Inv(s.(hist := s.hist.(now := t)))
  {
    SoundLater(s, t);
    hide Facts;
  }

  lemma RunningKeeps(s: Link, e: Env)
    requires Inv(s) && EnvOk(e, s.hist.now)
    ensures Inv(Running(s, e)) && Running(s, e).hist.now == e.t4
  {
    hide Facts;
    match s.sched.state
    case START_MGMT => EnterKeeps(s, MGMT_CHANNEL, false, MGMT, e);
    case MGMT => MgmtStepKeeps(s, e);
    case START_RAW => EnterKeeps(s, RAW_CHANNEL, true, RAW, e);
    case RAW =>
      RawStepKeeps(s, e);
      LaterKeeps(RawStep(s, e), e.t4);
  }

  // --- the interface ---

  lemma MgmtSocketKeeps(s: Link)
    requires Inv(s)
    ensures Inv(s.(mgmt := s.mgmt.(pipe := 0), radio := Ioctl(s.radio, SetPipe(0, BROADCAST_ADDRESS))))
  {
    hide Slots, GivenOk, KeepaliveOk, MailConserved, FreedOk, RequestOk, AirOk, VisitsOk, BcastOk, Pipe0Kept;
    OpenIoctlKeeps(s.radio, 0, BROADCAST_ADDRESS);
  }

  lemma RawSocketKeeps(s: Link)
    requires Inv(s) && AllocPipe(s).1 > 0
    ensures var (t, fd) := AllocPipe(s);
            Inv(OpenFor(t, fd, AddressFor(s.mac, fd))) && OpenFor(t, fd, AddressFor(s.mac, fd)).hist.now == s.hist.now
  {
    hide Facts;
    AllocKeeps(s, AddressFor(s.mac, AllocPipe(s).1));
  }

  lemma SocketKeeps(s: Link, raw: bool)
    requires Inv(s)
    ensures Inv(SocketCall(s, raw).s) && SocketCall(s, raw).s.hist.now == s.hist.now
  {
    hide Facts;
    if raw && s.mgmt.pipe != -1 {
      if AllocPipe(s).1 > 0 {
        RawSocketKeeps(s);
      }
    } else if raw || s.mgmt.pipe != 0 {
      MgmtSocketKeeps(s);
    }
  }

  lemma CloseKeeps(s: Link, fd: int, junk: byte)
    requires Inv(s)
    ensures Inv(CloseCall(s, fd, junk).s) && CloseCall(s, fd, junk).s.hist.now == s.hist.now
  {
    hide Facts;
    if 1 <= fd <= 5 && s.peers[fd - 1].pipe != -1 {
      if s.mac != NO_MAC {
        var bytes := ControlPdu(OP_DISCONNECT, s.mac, s.peers[fd - 1].mac, junk);
        TransmitKeeps(s, DisconnectFrame, fd, bytes);
        FreePipeKeeps(Transmit(s, DisconnectFrame, fd, bytes), fd);
      } else {
        FreePipeKeeps(s, fd);
      }
    }
  }

  lemma DrainKeeps(s: Link, fd: nat)
    requires Inv(s) && 1 <= fd <= CONNECTION_COUNTER
    ensures var p := s.peers[fd - 1]; Inv(SetPeer(s, fd, p.(rx := p.rx.(len := 0))))
  {
    var p := s.peers[fd - 1];
    EntryFits(s, fd);
    hide Facts;
    SetPeerKeeps(s, fd, p.(rx := p.rx.(len := 0)));
  }

  lemma ReadCallKeeps(s: Link, fd: int, count: nat)
    requires Inv(s)
    ensures Inv(ReadCall(s, fd, count).s) && ReadCall(s, fd, count).s.hist.now == s.hist.now
  {
    hide Facts;
    if count != 0 {
      if fd == 0 && s.mgmt.lenRx != 0 {
        ConsumeKeeps(s);
      } else if 1 <= fd <= 5 && s.peers[fd - 1].rx.len != 0 {
        DrainKeeps(s, fd);
      }
    }
  }

  /** The message handed over is waiting, and on record. */
  lemma LoadTxKeeps(s: Link, fd: nat, data: seq<byte>)
    requires Inv(s) && 1 <= fd <= CONNECTION_COUNTER && Message(data)
    ensures var p := s.peers[fd - 1];
            var t := SetPeer(s, fd, p.(bufferTx := Patch(p.bufferTx, 0, data), lenTx := |data|));
            Inv(t.(hist := t.hist.(given := t.hist.given + {(fd, data)})))
  {
    var p := s.peers[fd - 1];
    var q := p.(bufferTx := Patch(p.bufferTx, 0, data), lenTx := |data|);
    var u := s.(hist := s.hist.(given := s.hist.given + {(fd, data)}));
    assert q.bufferTx[..|data|] == data;
    GivenGrows(s, (fd, data));
    EntryFits(u, fd);
    hide Facts;
    SetPeerKeeps(u, fd, q);
  }

  lemma GivenGrows(s: Link, m: (nat, seq<byte>))
    requires Sound(s)
    ensures Sound(s.(hist := s.hist.(given := s.hist.given + {m})))
  {
    hide Table, Slots, KeepaliveOk, MailConserved, FreedOk, RequestOk, AirOk, VisitsOk, BcastOk, Pipe0Kept;
  }

  lemma WriteCallKeeps(s: Link, fd: int, data: seq<byte>)
    requires Inv(s)
    ensures Inv(WriteCall(s, fd, data).s) && WriteCall(s, fd, data).s.hist.now == s.hist.now
  {
    hide Facts;
    if 1 <= fd <= 5 && Message(data) && s.peers[fd - 1].lenTx == 0 {
      LoadTxKeeps(s, fd, data);
    }
  }

  /** The entry of a peer that is known and was heard of just now; c connects have succeeded in its silence. */
  lemma KnownPeerKeeps(s: Link, fd: nat, mac: Mac, keepalive: nat, t: nat, c: nat)
    requires Sound(s) && s.hist.now <= t && 1 <= fd <= CONNECTION_COUNTER && keepalive <= 1
    requires RequestsFrom(s.hist.air, s.hist.mark[fd - 1], fd) <= 9 * c
    ensures var p := s.peers[fd - 1].(mac := mac, keepalive := keepalive, anchor := Clock(t));
            Sound(SetPeer(s, fd, p).(hist := s.hist.(heard := s.hist.heard[fd - 1 := Some(t)],
                                                     connects := s.hist.connects[fd - 1 := c], now := t)))
  {
    SoundLater(s, t);
    var i, p, h := fd - 1, s.peers[fd - 1].(mac := mac, keepalive := keepalive, anchor := Clock(t)), s.hist;
    EntryFits(s, fd);
    TableSet(s.bitmask, s.peers, s.radio.enRxAddr, i, p);
    SlotsSet(s.peers, i, p);
    GivenSet(s.peers, h.given, h.tries, i, p);
    AliveSet(s.peers, h.heard, h.air, h.mark, h.connects, t, i, p, Some(t), h.mark[i], c);
    assert h.mark[i := h.mark[i]] == h.mark;
    hide Table, Slots, GivenOk, KeepaliveOk, MailConserved, FreedOk, RequestOk, AirOk, VisitsOk, BcastOk, Pipe0Kept;
  }

  /** The accepted pipe: peer known, no requests of its own. */
  lemma AcceptedKeeps(s: Link, fd: nat, src: Mac, t: nat)
    requires Inv(s) && s.hist.now <= t && 1 <= fd <= CONNECTION_COUNTER && JustHeard(s, fd)
    ensures var s3 := ResizeRaw(s.(listen := false));
            var s4 := SetPeer(s3, fd, s3.peers[fd - 1].(mac := src, keepalive := 0, anchor := Clock(t)));
            Inv(s4.(hist := s4.hist.(heard := s4.hist.heard[fd - 1 := Some(t)], now := t)))
  {
    ResizeKeeps(s);
    assert s.hist.connects[fd - 1 := 0] == s.hist.connects;
    assert RequestsFrom(s.hist.air, s.hist.mark[fd - 1], fd) == 0;
    hide Facts, RequestsFrom;
    KnownPeerKeeps(ResizeRaw(s.(listen := false)), fd, src, 0, t, 0);
  }

  lemma ResizeKeeps(s: Link)
    requires Sound(s)
    ensures Sound(ResizeRaw(s.(listen := false)))
  {
    hide Table, Slots, GivenOk, KeepaliveOk, MailConserved, FreedOk, RequestOk, AirOk, BcastOk, Pipe0Kept;
  }

  /** Allocating, opening and filling in the entry of the peer that asked to connect. */
  lemma AdmitKeeps(s: Link, aa: Addr, src: Mac, t: nat)
    requires Inv(s) && s.hist.now <= t && AllocPipe(s).1 > 0
    ensures var (s2, fd) := AllocPipe(s);
            var s3 := ResizeRaw(OpenFor(s2, fd, aa).(listen := false));
            var s4 := SetPeer(s3, fd, s3.peers[fd - 1].(mac := src, keepalive := 0, anchor := Clock(t)));
            Inv(s4.(hist := s4.hist.(heard := s4.hist.heard[fd - 1 := Some(t)], now := t)))
  {
    hide Facts;
    var (s2, fd) := AllocPipe(s);
    AllocKeeps(s, aa);
    AcceptedKeeps(OpenFor(s2, fd, aa), fd, src, t);
  }

  lemma AcceptFromKeeps(s: Link, t: nat)
    requires Inv(s) && s.hist.now <= t
    ensures var u := AcceptFrom(s, t).s; Inv(u.(hist := u.hist.(now := t)))
  {
    hide Facts;
    if s.mgmt.lenRx == 0 {
      LaterKeeps(s, t);
    } else {
      ConsumeKeeps(s);
      var s1 := Consume(s);
      if ConnectedPending(s) && AllocPipe(s1).1 > 0 {
        AdmitKeeps(s1, s.mgmt.bufferRx[20..25], s.mgmt.bufferRx[3..11], t);
      } else {
        LaterKeeps(s1, t);
      }
    }
  }

  lemma ConnectToKeeps(s: Link, fd: int, dst: Mac, t: nat)
    requires Inv(s) && s.hist.now <= t && 1 <= fd <= CONNECTION_COUNTER
    ensures var u := ConnectTo(s, fd, dst, t).s; Inv(u.(hist := u.hist.(now := t)))
  {
    if s.mgmt.lenTx == 0 {
      RequestBuilt(s, fd, dst);
      EntryFits(s, fd);
      hide Facts, RequestsFrom;
      var pdu := ConnectPdu(s.mgmt.bufferTx, s.mac, dst, RAW_CHANNEL, AddressFor(s.mac, fd));
      KnownPeerKeeps(s.(mgmt := s.mgmt.(bufferTx := pdu, lenTx := CONNECT_LEN)), fd, dst, 1, t,
                     s.hist.connects[fd - 1] + 1);
    } else {
      LaterKeeps(s, t);
    }
  }

  lemma RequestBuilt(s: Link, fd: int, dst: Mac)
    requires Sound(s) && 1 <= fd <= CONNECTION_COUNTER
    ensures var pdu := ConnectPdu(s.mgmt.bufferTx, s.mac, dst, RAW_CHANNEL, AddressFor(s.mac, fd));
            Sound(s.(mgmt := s.mgmt.(bufferTx := pdu, lenTx := CONNECT_LEN)))
  {
    var aa := AddressFor(s.mac, fd);
    var pdu := ConnectPdu(s.mgmt.bufferTx, s.mac, dst, RAW_CHANNEL, aa);
    RequestFields(s.mgmt.bufferTx, s.mac, dst, RAW_CHANNEL, aa);
    assert OwnRequest(s.mac, pdu[..CONNECT_LEN]);
    hide Table, Slots, GivenOk, KeepaliveOk, FreedOk, AirOk, VisitsOk, BcastOk, Pipe0Kept;
  }

  lemma ListenKeeps(s: Link)
    requires Inv(s)
    ensures Inv(ListenCall(s).s)
  {
    assert s.bitmask[0 := true] == s.bitmask;
  }

  lemma PerformKeeps(s: Link, c: Call, e: Env)
    requires Inv(s) && CallOk(c) && EnvShape(e) && s.hist.now <= e.t5
    ensures var t := Perform(s, c, e).s; Inv(t.(hist := t.hist.(now := e.t5)))
  {
    hide Facts;
    match c {
      case Socket(raw) => SocketKeeps(s, raw); LaterKeeps(SocketCall(s, raw).s, e.t5);
      case Close(fd) => CloseKeeps(s, fd, e.junk); LaterKeeps(CloseCall(s, fd, e.junk).s, e.t5);
      case Listen => ListenKeeps(s); LaterKeeps(ListenCall(s).s, e.t5);
      case Read(fd, count) => ReadCallKeeps(s, fd, count); LaterKeeps(ReadCall(s, fd, count).s, e.t5);
      case Write(fd, data) => WriteCallKeeps(s, fd, data); LaterKeeps(WriteCall(s, fd, data).s, e.t5);
      case AcceptCall => AcceptFromKeeps(s, e.t5);
      case Connect(fd, dst) => ConnectToKeeps(s, fd, dst, e.t5);
    }
  }

  lemma StepKeeps(s: Link, c: Call, e: Env)
    requires Inv(s) && CallOk(c) && EnvOk(e, s.hist.now)
    ensures Inv(Step(s, c, e).s) && Step(s, c, e).s.hist.now == e.t5
  {
    hide Facts;
    if Runs(c) {
      RunningKeeps(s, e);
      PerformKeeps(Running(s, e), c, e);
    } else {
      PerformKeeps(s, c, e);
    }
  }
}
