/**
  * comm_nrf24l01.c on values: the whole state of one node's link layer and what each step makes of it.
  * Inputs the firmware cannot choose (clock readings, frames heard, acknowledgements) come in an Env.
  */
module LinkSpec {
  import opened Bits
  import opened Bytes
  import opened HalTime
  import opened Nrf24l01
  import opened PhyDriverNrf24
  import opened LinkPdu
  import opened Reassembly

  const CONNECTION_COUNTER := 5
  const MGMT_CHANNEL: byte := 76
  const RAW_CHANNEL: byte := 22
  const MGMT_TIMEOUT: uint32 := 10
  const RAW_TIMEOUT_DEFAULT: nat := 10
  const WINDOW_BCAST: uint32 := 5
  const BURST_BCAST: uint32 := 5
  const INTERVAL_BCAST: uint32 := 60
  const KEEPALIVE_SEND_MS: nat := 750
  const KEEPALIVE_TIMEOUT_MS: nat := 7500
  const BROADCAST_ADDRESS: Addr := [0x8D, 0xD9, 0xBE, 0x96, 0xDE]
  const THING_NAME: seq<byte> := [116, 104, 105, 110, 103, 110, 97, 109, 101, 0]

  const EPERM: int := -1
  const EAGAIN: int := -11
  const EBUSY: int := -16
  const EINVAL: int := -22
  const EUSERS: int := -87

  datatype RunState = START_MGMT | MGMT | START_RAW | RAW
  datatype BcastState = PRESENCE | BURST_WINDOW | STANDBY | TIMEOUT_INTERVAL

  /** One peers[] entry. */
  datatype Peer = Peer(
    pipe: int, rx: RxSlot, bufferTx: seq<byte>, lenTx: nat, seqnumberTx: nat,
    anchor: uint32, keepalive: nat, mac: Mac)

  /** The mgmt context: a one-slot event mailbox and a one-slot transmit buffer. */
  datatype Mgmt = Mgmt(pipe: int, bufferRx: seq<byte>, lenRx: nat, bufferTx: seq<byte>, lenTx: nat)

  /** The statics of running(). */
  datatype Sched = Sched(
    state: RunState, start: uint32, sockIndex: nat, rawTimeout: nat, rtStamp: uint32, rtOffset: nat)

  /** The statics of presence_connect(). */
  datatype Bcast = Bcast(state: BcastState, previous: BcastState, start: uint32)

  datatype Kind = PresenceFrame | ConnectFrame | DataFrame | KeepaliveReq | KeepaliveRsp | DisconnectFrame

  /** A frame put on the air, with the registers it went out under. */
  datatype Sent = Sent(kind: Kind, pipe: nat, bytes: seq<byte>, rfCh: byte, enAA: Mask, txAddr: Addr)

  /** A stay on one channel that ended: when it began, when it was found over, the timeout in force. */
  datatype Visit = Visit(raw: bool, began: nat, ended: nat, timeout: nat, allTaken: bool)

  /** A pipe freed for silence: the peer, when last heard if ever, when freed, which queued event says so. */
  datatype Freed = Freed(mac: Mac, lastHeard: Option<nat>, at: nat, event: nat)

  /** A message write_raw tried to send on a pipe, and how many of its frames it put on the air. */
  datatype Try = Try(fd: nat, m: seq<byte>, frames: nat)

  /**
    * What has happened so far; no step of the link layer reads it. Per pipe: heard is when the anchor was
    * last set, mark how much was on the air when a packet was last heard or the pipe was allocated, and
    * connects the number of hal_comm_connect calls that succeeded since.
    */
  datatype Hist = Hist(
    now: nat, air: seq<Sent>, queued: seq<seq<byte>>, consumed: seq<seq<byte>>,
    visitBegan: nat, visits: seq<Visit>, windows: seq<nat>,
    heard: seq<Option<nat>>, mark: seq<nat>, connects: seq<nat>, freed: seq<Freed>,
    addrs: seq<Addr>, given: set<(nat, seq<byte>)>, tries: seq<Try>)

  datatype Link = Link(
    mac: Mac, listen: bool, bitmask: Mask, peers: seq<Peer>, mgmt: Mgmt,
    sched: Sched, bcast: Bcast, radio: Radio, hist: Hist)

  /**
    * What the surroundings contribute to one call: clock readings t1 to t5 in true milliseconds, the
    * frame waiting on the management pipe, the frames waiting on the data pipe being served, which
    * transmissions are acknowledged (data frames numbered below `acked`), and stack leftovers.
    */
  datatype Env = Env(
    t1: nat, t2: nat, t3: nat, t4: nat, t5: nat,
    mgmtIn: Option<Heard>, rawIn: seq<Heard>,
    ackMgmt: bool, ackPresence: bool, acked: nat, junk: byte)

  ghost predicate EnvShape(e: Env) {
    && (e.mgmtIn.Some? ==> MgmtFrame(e.mgmtIn.value))
    && (forall i :: 0 <= i < |e.rawIn| ==> RawFrame(e.rawIn[i]))
  }

  predicate PeerShape(p: Peer, i: nat) {
    && (p.pipe == -1 || p.pipe == i + 1)
    && |p.rx.buffer| == DATA_SIZE && p.rx.offset <= DATA_SIZE && p.rx.len <= DATA_SIZE
    && |p.bufferTx| == DATA_SIZE && p.lenTx <= DATA_SIZE && p.keepalive < 256
  }

  /** Array sizes and register sanity: what makes every step below well defined. */
  ghost predicate Shape(s: Link) {
    && |s.peers| == CONNECTION_COUNTER
    && (forall i :: 0 <= i < CONNECTION_COUNTER ==> PeerShape(s.peers[i], i))
    && |s.mgmt.bufferRx| == MTU && s.mgmt.lenRx <= MTU
    && |s.mgmt.bufferTx| == MTU && s.mgmt.lenTx <= MTU
    && 1 <= s.sched.sockIndex <= CONNECTION_COUNTER
    && s.sched.rawTimeout < 256 && s.sched.rtOffset < 256
    && Initialised(s.radio)
    && |s.hist.heard| == |s.hist.mark| == |s.hist.connects| == |s.hist.addrs| == CONNECTION_COUNTER
  }

  const FRESH_PEER := Peer(-1, EMPTY_SLOT, Zeros(DATA_SIZE), 0, 0, 0, 0, NO_MAC)

  /** The static initialisers, after hal_comm_init has opened the radio for the node with this address. */
  function Start(mac: Mac, radio: Radio): (s: Link)
  {
    Link(mac, false, NO_PIPES[0 := true], seq(CONNECTION_COUNTER, _ => FRESH_PEER),
         Mgmt(-1, Zeros(MTU), 0, Zeros(MTU), 0),
         Sched(START_MGMT, 0, 1, RAW_TIMEOUT_DEFAULT, 0, 0),
         Bcast(PRESENCE, TIMEOUT_INTERVAL, 0), radio,
         Hist(0, [], [], [], 0, [], [], [None, None, None, None, None], [0, 0, 0, 0, 0], [0, 0, 0, 0, 0], [],
              seq(CONNECTION_COUNTER, _ => BROADCAST_ADDRESS), {}, []))
  }

  ghost predicate SamePipes(s: Link, t: Link)
    requires Shape(s) && Shape(t)
  {
    forall i :: 0 <= i < CONNECTION_COUNTER ==> t.peers[i].pipe == s.peers[i].pipe
  }

  /** No entry but fd changes, and the node keeps its address. */
  ghost predicate OthersSame(s: Link, t: Link, fd: nat)
    requires Shape(s) && Shape(t)
  {
    && t.mac == s.mac
    && forall i :: 0 <= i < CONNECTION_COUNTER && i != fd - 1 ==> t.peers[i] == s.peers[i]
  }

  /** Only entry fd changes, and it stays allocated or free. */
  ghost predicate OnlyPeer(s: Link, t: Link, fd: nat)
    requires Shape(s) && Shape(t)
  {
    SamePipes(s, t) && OthersSame(s, t, fd)
  }

  // --- pieces ---

  function SetPeer(s: Link, fd: nat, p: Peer): (t: Link)
    requires Shape(s) && 1 <= fd <= CONNECTION_COUNTER && PeerShape(p, fd - 1)
    ensures Shape(t) && OthersSame(s, t, fd)
  {
    s.(peers := s.peers[fd - 1 := p])
  }

  /** phy_write: the frame goes out with the registers set_ptx leaves, then the radio listens again. */
  function Transmit(s: Link, kind: Kind, pipe: nat, bytes: seq<byte>): (t: Link)
    requires Shape(s)
    ensures Shape(t) && t.peers == s.peers && t.mac == s.mac
  {
    var tx := SetPtx(s.radio, pipe);
    s.(radio := PhyDriverNrf24.Write(s.radio, pipe),
       hist := s.hist.(air := s.hist.air + [Sent(kind, pipe, bytes, tx.rfCh, tx.enAA, tx.txAddr)]))
  }

  /** An event goes into the mailbox. */
  function Queue(s: Link, buffer: seq<byte>, len: nat): (t: Link)
    requires Shape(s) && |buffer| == MTU && len <= MTU
    ensures Shape(t) && t.peers == s.peers && t.mac == s.mac
  {
    s.(mgmt := s.mgmt.(bufferRx := buffer, lenRx := len),
       hist := s.hist.(queued := s.hist.queued + [buffer[..len]]))
  }

  /** The mailbox is emptied by a reader. */
  function Consume(s: Link): (t: Link)
    requires Shape(s)
    ensures Shape(t) && t.peers == s.peers && t.mac == s.mac
  {
    s.(mgmt := s.mgmt.(lenRx := 0),
       hist := s.hist.(consumed := s.hist.consumed + [s.mgmt.bufferRx[..s.mgmt.lenRx]]))
  }

  /** new_raw_time: the sum of the windows of the pipes in use, and the retransmission offset. */
  function NewRawTime(m: Mask): (t: nat)
    ensures 10 <= t <= 111
  {
    var sum := (if m[1] then 15 else 0) + (if m[2] then 18 else 0) + (if m[3] then 22 else 0)
               + (if m[4] then 26 else 0) + (if m[5] then 30 else 0);
    if sum == 0 then RAW_TIMEOUT_DEFAULT else sum
  }

  function NewRtOffset(m: Mask): (t: nat)
    ensures t <= 37
  {
    var sum := if AnyRaw(m) then NewRawTime(m) else 0;
    if sum / 3 > 20 then sum / 3 - 5 else sum / 3
  }

  function ResizeRaw(s: Link): (t: Link)
  {
    s.(sched := s.sched.(rawTimeout := NewRawTime(s.bitmask), rtOffset := NewRtOffset(s.bitmask)))
  }

  function FirstFree(peers: seq<Peer>, i: nat): (k: nat)
    requires i <= |peers|
    ensures i <= k <= |peers|
    ensures k < |peers| ==> peers[k].pipe == -1
    ensures forall j :: i <= j < k ==> peers[j].pipe != -1
    decreases |peers| - i
  {
    if i == |peers| || peers[i].pipe == -1 then i else FirstFree(peers, i + 1)
  }

  /** alloc_pipe: the first free entry, zeroed and numbered. */
  function AllocPipe(s: Link): (r: (Link, int))
    requires Shape(s)
    ensures Shape(r.0) && r.0.mac == s.mac
    ensures r.1 == -1 || 1 <= r.1 <= CONNECTION_COUNTER
  {
    var i := FirstFree(s.peers, 0);
    if i == CONNECTION_COUNTER then (s, -1)
    else
      (s.(peers := s.peers[i := FRESH_PEER.(pipe := i + 1)], bitmask := s.bitmask[i + 1 := true],
          hist := s.hist.(heard := s.hist.heard[i := None], mark := s.hist.mark[i := |s.hist.air|],
                          connects := s.hist.connects[i := 0])),
       i + 1)
  }

  /** A pipe is given up; the RAW time slice shrinks with it. */
  function FreePipe(s: Link, fd: nat): (t: Link)
    requires Shape(s) && 1 <= fd <= CONNECTION_COUNTER && s.peers[fd - 1].pipe != -1
    ensures Shape(t) && OthersSame(s, t, fd)
  {
    var p := s.peers[fd - 1];
    ResizeRaw(s.(bitmask := s.bitmask[p.pipe := false],
                 peers := s.peers[fd - 1 := p.(pipe := -1, keepalive := 0)],
                 radio := Ioctl(s.radio, ResetPipe(fd))))
  }

  // --- management channel ---

  function WriteMgmt(s: Link, acked: bool): (t: Link)
    requires Shape(s)
    ensures Shape(t) && t.peers == s.peers && t.mac == s.mac
  {
    if s.mgmt.lenTx == 0 then s
    else
      var t := Transmit(s, ConnectFrame, 0, s.mgmt.bufferTx[..s.mgmt.lenTx]);
      if acked then t.(mgmt := t.mgmt.(lenTx := 0)) else t
  }

  function ReadMgmt(s: Link, heard: Option<Heard>): (t: Link)
    requires Shape(s) && (heard.Some? ==> MgmtFrame(heard.value))
    ensures Shape(t) && t.peers == s.peers && t.mac == s.mac
  {
    if heard.None? || s.mgmt.lenRx != 0 then s
    else
      var f := heard.value;
      var mailbox := s.mgmt.bufferRx;
      if f.buf[0] % 16 == TYPE_PRESENCE then
        if s.listen || f.len < 9 then s
        else Queue(s, PresenceEvent(mailbox, f.buf[1..9], f.buf[9..f.len]), f.len + 2)
      else if f.buf[0] % 16 == TYPE_CONNECT_REQ then
        if f.len != CONNECT_LEN || f.buf[9..17] != s.mac then s
        else Queue(s, ConnectedEvent(mailbox, f.buf[1..9], f.buf[9..17], f.buf[17], f.buf[18..23]), CONNECTED_LEN)
      else s
  }

  function PresenceConnect(s: Link, e: Env): (t: Link)
    requires Shape(s)
    ensures Shape(t) && t.peers == s.peers && t.mac == s.mac
  {
    var b := s.bcast;
    match b.state
    case PRESENCE =>
      if s.mac == NO_MAC then s
      else
        var t := Transmit(s, PresenceFrame, 0, PresencePdu(s.mac, THING_NAME, e.junk));
        if !e.ackPresence then t
        else if b.previous == TIMEOUT_INTERVAL then
          t.(bcast := b.(state := BURST_WINDOW, start := Clock(e.t1)),
             hist := t.hist.(windows := t.hist.windows + [e.t1]))
        else t.(bcast := b.(state := BURST_WINDOW))
    case BURST_WINDOW =>
      var next := if HalTimeout(Clock(e.t1), b.start, WINDOW_BCAST) then STANDBY
                  else if HalTimeout(Clock(e.t2), b.start, BURST_BCAST) then PRESENCE
                  else BURST_WINDOW;
      s.(bcast := b.(state := next, previous := BURST_WINDOW))
    case STANDBY =>
      s.(bcast := b.(state := TIMEOUT_INTERVAL), radio := Ioctl(s.radio, SetStandby))
    case TIMEOUT_INTERVAL =>
      var next := if HalTimeout(Clock(e.t1), b.start, INTERVAL_BCAST) then PRESENCE else TIMEOUT_INTERVAL;
      s.(bcast := b.(state := next, previous := TIMEOUT_INTERVAL))
  }

  // --- data channel ---

  function DataBytes(p: Peer, left: nat, junk: byte): (f: seq<byte>)
    requires 1 <= left <= p.lenTx <= |p.bufferTx|
  {
    var plen := Min(left, PW_MSG_SIZE);
    var lid := if left > PW_MSG_SIZE then LID_DATA_FRAG else LID_DATA_END;
    [lid + 4 * (p.seqnumberTx % 64), junk] + p.bufferTx[p.lenTx - left..p.lenTx - left + plen]
  }

  /** One data frame on the air. */
  function SendOne(s: Link, fd: nat, left: nat, junk: byte): (t: Link)
    requires Shape(s) && 1 <= fd <= CONNECTION_COUNTER && 1 <= left <= s.peers[fd - 1].lenTx
    ensures Shape(t) && t.peers == s.peers && t.mac == s.mac
  {
    Transmit(s, DataFrame, fd, DataBytes(s.peers[fd - 1], left, junk))
  }

  function CountSent(s: Link, fd: nat): (t: Link)
    requires Shape(s) && 1 <= fd <= CONNECTION_COUNTER
    ensures Shape(t) && OnlyPeer(s, t, fd) && t.peers[fd - 1].lenTx == s.peers[fd - 1].lenTx
  {
    SetPeer(s, fd, s.peers[fd - 1].(seqnumberTx := (s.peers[fd - 1].seqnumberTx + 1) % 256))
  }

  /** The slot is free again, whether the message went out whole or was given up. */
  function ClearTx(s: Link, fd: nat): (t: Link)
    requires Shape(s) && 1 <= fd <= CONNECTION_COUNTER
    ensures Shape(t) && OnlyPeer(s, t, fd)
  {
    SetPeer(s, fd, s.peers[fd - 1].(lenTx := 0, seqnumberTx := 0))
  }

  /** write_raw's loop from the point where `left` bytes remain and k frames have gone out. */
  function SendFrom(s: Link, fd: nat, left: nat, k: nat, acked: nat, junk: byte): (t: Link)
    requires Shape(s) && 1 <= fd <= CONNECTION_COUNTER && left <= s.peers[fd - 1].lenTx
    ensures Shape(t) && OnlyPeer(s, t, fd)
    decreases left
  {
    if left == 0 then ClearTx(s, fd)
    else
      var t := SendOne(s, fd, left, junk);
      if k >= acked then ClearTx(t, fd)
      else SendFrom(CountSent(t, fd), fd, left - Min(left, PW_MSG_SIZE), k + 1, acked, junk)
  }

  /** The loop unfolded once. */
  lemma SendFromTurn(s: Link, fd: nat, left: nat, k: nat, acked: nat, junk: byte)
    requires Shape(s) && 1 <= fd <= CONNECTION_COUNTER && left <= s.peers[fd - 1].lenTx
    ensures left == 0 ==> SendFrom(s, fd, left, k, acked, junk) == ClearTx(s, fd)
    ensures left != 0 ==>
              var t := SendOne(s, fd, left, junk);
              SendFrom(s, fd, left, k, acked, junk) ==
              if k >= acked then ClearTx(t, fd)
              else SendFrom(CountSent(t, fd), fd, left - Min(left, PW_MSG_SIZE), k + 1, acked, junk)
  {
  }

  function WriteRaw(s: Link, fd: nat, acked: nat, junk: byte): (t: Link)
    requires Shape(s) && 1 <= fd <= CONNECTION_COUNTER
    ensures Shape(t) && OnlyPeer(s, t, fd)
  {
    var p := s.peers[fd - 1];
    if p.lenTx == 0 then s
    else
      var m := p.bufferTx[..p.lenTx];
      var t := SendFrom(s, fd, p.lenTx, 0, acked, junk);
      t.(hist := t.hist.(tries := t.hist.tries + [Try(fd, m, Min(acked + 1, FrameCount(m)))]))
  }

  /** Any packet is a sign of life. */
  function Alive(s: Link, fd: nat, at: nat): (t: Link)
    requires Shape(s) && 1 <= fd <= CONNECTION_COUNTER
    ensures Shape(t) && OnlyPeer(s, t, fd)
  {
    SetPeer(s, fd, s.peers[fd - 1].(anchor := Clock(at)))
      .(hist := s.hist.(now := at, heard := s.hist.heard[fd - 1 := Some(at)],
                        mark := s.hist.mark[fd - 1 := |s.hist.air|], connects := s.hist.connects[fd - 1 := 0]))
  }

  function ResetKeepalive(p: Peer): Peer {
    if p.keepalive != 0 then p.(keepalive := 1) else p
  }

  function HandleControl(s: Link, fd: nat, f: Heard, junk: byte): (t: Link)
    requires Shape(s) && 1 <= fd <= CONNECTION_COUNTER && RawFrame(f)
    ensures Shape(t) && OnlyPeer(s, t, fd)
  {
    var p := s.peers[fd - 1];
    var op, src, dst := f.buf[2], f.buf[3..11], f.buf[11..19];
    if op == OP_KEEPALIVE_REQ && src == p.mac && dst == s.mac then
      Transmit(s, KeepaliveRsp, fd, ControlPdu(OP_KEEPALIVE_RSP, s.mac, p.mac, junk))
    else if op == OP_KEEPALIVE_RSP then SetPeer(s, fd, ResetKeepalive(p))
    else if op == OP_DISCONNECT && s.mgmt.lenRx == 0 then
      Queue(s, DisconnectedEvent(s.mgmt.bufferRx, src), DISCONNECTED_LEN)
    else s
  }

  /** One turn of read_raw's loop. */
  function HandleFrame(s: Link, fd: nat, f: Heard, junk: byte): (t: Link)
    requires Shape(s) && 1 <= fd <= CONNECTION_COUNTER && RawFrame(f)
    ensures Shape(t) && OnlyPeer(s, t, fd)
  {
    var s1 := Alive(s, fd, f.at);
    if Lid(f) == LID_CONTROL then HandleControl(s1, fd, f, junk)
    else if IsData(f) then
      var p := ResetKeepalive(s1.peers[fd - 1]);
      SetPeer(s1, fd, p.(rx := Accept(p.rx, f)))
    else s1
  }

  function ReadRaw(s: Link, fd: nat, fs: seq<Heard>, junk: byte): (t: Link)
    requires Shape(s) && 1 <= fd <= CONNECTION_COUNTER
    requires forall i :: 0 <= i < |fs| ==> RawFrame(fs[i])
    ensures Shape(t) && OnlyPeer(s, t, fd)
    decreases |fs|
  {
    if fs == [] then s
    else HandleFrame(ReadRaw(s, fd, fs[..|fs| - 1], junk), fd, fs[|fs| - 1], junk)
  }

  /** check_keepalive says the peer has been silent for too long. */
  predicate Silent(p: Peer, t: nat) {
    HalTimeout(Clock(t), p.anchor, KEEPALIVE_TIMEOUT_MS)
  }

  predicate RequestDue(p: Peer, t: nat) {
    p.keepalive != 0 && p.keepalive < 256 && HalTimeout(Clock(t), p.anchor, p.keepalive * KEEPALIVE_SEND_MS)
  }

  /** The silent peer's pipe goes and the event that says so is queued. */
  function TimeOut(s: Link, fd: nat, t: nat): (r: Link)
    requires Shape(s) && 1 <= fd <= CONNECTION_COUNTER && s.peers[fd - 1].pipe != -1
    ensures Shape(r) && OthersSame(s, r, fd)
  {
    var mac := s.peers[fd - 1].mac;
    var r := FreePipe(Queue(s, DisconnectedEvent(s.mgmt.bufferRx, mac), DISCONNECTED_LEN), fd);
    r.(hist := r.hist.(freed := r.hist.freed + [Freed(mac, s.hist.heard[fd - 1], t, |s.hist.queued|)]))
  }

  /** One more attempt. */
  function CountAttempt(s: Link, fd: nat): (r: Link)
    requires Shape(s) && 1 <= fd <= CONNECTION_COUNTER
    ensures Shape(r) && OthersSame(s, r, fd)
  {
    var p := s.peers[fd - 1];
    SetPeer(s, fd, p.(keepalive := (p.keepalive + 1) % 256))
  }

  /** One more keepalive request. */
  function Request(s: Link, fd: nat, junk: byte): (r: Link)
    requires Shape(s) && 1 <= fd <= CONNECTION_COUNTER
    ensures Shape(r) && OthersSame(s, r, fd)
  {
    Transmit(CountAttempt(s, fd), KeepaliveReq, fd,
             ControlPdu(OP_KEEPALIVE_REQ, s.mac, s.peers[fd - 1].mac, junk))
  }

  /** check_keepalive and what running() does about its verdict. */
  function Supervise(s: Link, fd: nat, t: nat, junk: byte): (r: Link)
    requires Shape(s) && 1 <= fd <= CONNECTION_COUNTER && s.peers[fd - 1].pipe != -1
    ensures Shape(r) && OthersSame(s, r, fd)
  {
    var p := s.peers[fd - 1];
    if Silent(p, t) then if s.mgmt.lenRx != 0 then s else TimeOut(s, fd, t)
    else if RequestDue(p, t) then Request(s, fd, junk)
    else s
  }

  // --- running() ---

  predicate LeaveRaw(s: Link, e: Env) {
    && !AllRaw(s.bitmask)
    && s.sched.rawTimeout < 256 && s.sched.rtOffset < 256
    && HalTimeout(Clock(e.t1), s.sched.start, s.sched.rawTimeout)
    && HalTimeout(Clock(e.t2), s.sched.rtStamp, s.sched.rtOffset)
  }

  /** The exit test of the RAW state; the pipe in turn is still served in the same step. */
  function RawExit(s: Link, e: Env): (t: Link)
    requires Shape(s)
    ensures Shape(t) && t.peers == s.peers && t.mac == s.mac
  {
    if LeaveRaw(s, e) then
      s.(sched := s.sched.(state := START_MGMT),
         hist := s.hist.(visits := s.hist.visits + [Visit(true, s.hist.visitBegan, e.t1, s.sched.rawTimeout,
                                                          AllRaw(s.bitmask))]))
    else s
  }

  /** read_raw and write_raw of one turn. */
  function Traffic(s: Link, fd: nat, e: Env): (t: Link)
    requires Shape(s) && EnvShape(e) && 1 <= fd <= CONNECTION_COUNTER
    ensures Shape(t) && OnlyPeer(s, t, fd)
  {
    WriteRaw(ReadRaw(s, fd, e.rawIn, e.junk), fd, e.acked, e.junk)
  }

  /** rt_stamp is eight bits wide. */
  function Stamp(s: Link, at: nat): (t: Link)
    requires Shape(s)
    ensures Shape(t) && t.peers == s.peers && t.mac == s.mac
  {
    s.(sched := s.sched.(rtStamp := Clock(at) % 256), hist := s.hist.(now := at))
  }

  /** The pipe in turn reads, writes and is supervised. */
  function Serve(s: Link, fd: nat, e: Env): (t: Link)
    requires Shape(s) && EnvShape(e) && 1 <= fd <= CONNECTION_COUNTER
    ensures Shape(t) && OthersSame(s, t, fd)
  {
    if s.peers[fd - 1].pipe == -1 then s
    else Supervise(Stamp(Traffic(s, fd, e), e.t3), fd, e.t4, e.junk)
  }

  function NextSock(s: Link): (t: Link)
    requires Shape(s)
    ensures Shape(t) && t.peers == s.peers && t.mac == s.mac
  {
    s.(sched := s.sched.(sockIndex := if s.sched.sockIndex == CONNECTION_COUNTER then 1 else s.sched.sockIndex + 1))
  }

  function RawStep(s: Link, e: Env): (t: Link)
    requires Shape(s) && EnvShape(e)
    ensures Shape(t) && t.mac == s.mac
  {
    NextSock(Serve(RawExit(s, e), s.sched.sockIndex, e))
  }

  predicate LeaveMgmt(s: Link, e: Env) {
    AnyRaw(s.bitmask) && HalTimeout(Clock(e.t3), s.sched.start, MGMT_TIMEOUT)
  }

  function MgmtStep(s: Link, e: Env): (t: Link)
    requires Shape(s) && EnvShape(e)
    ensures Shape(t) && t.peers == s.peers && t.mac == s.mac
  {
    var s1 := WriteMgmt(ReadMgmt(s, e.mgmtIn), e.ackMgmt);
    var s2 := if s1.listen then PresenceConnect(s1, e) else s1;
    if LeaveMgmt(s2, e) then
      s2.(sched := s2.sched.(state := START_RAW),
          hist := s2.hist.(visits := s2.hist.visits + [Visit(false, s2.hist.visitBegan, e.t3, MGMT_TIMEOUT, false)]))
    else s2
  }

  /** START_MGMT and START_RAW: retune and start the visit timer. */
  function EnterChannel(s: Link, ch: byte, ack: bool, next: RunState, e: Env): (t: Link)
    requires Shape(s)
    ensures Shape(t) && t.peers == s.peers && t.mac == s.mac
  {
    s.(radio := Ioctl(s.radio, SetCh(ch, ack)),
       sched := s.sched.(start := Clock(e.t1), state := next),
       hist := s.hist.(visitBegan := e.t1))
  }

  function Running(s: Link, e: Env): (t: Link)
    requires Shape(s) && EnvShape(e)
    ensures Shape(t) && t.mac == s.mac
  {
    var r := match s.sched.state
             case START_MGMT => EnterChannel(s, MGMT_CHANNEL, false, MGMT, e)
             case MGMT => MgmtStep(s, e)
             case START_RAW => EnterChannel(s, RAW_CHANNEL, true, RAW, e)
             case RAW => RawStep(s, e);
    r.(hist := r.hist.(now := e.t4))
  }

  // --- the interface ---

  datatype Call =
    | Socket(raw: bool)
    | Close(fd: int)
    | Listen
    | Read(fd: int, count: nat)
    | Write(fd: int, data: seq<byte>)
    | AcceptCall
    | Connect(fd: int, dst: Mac)

  /** A call's result: the new state, the return value, and the bytes or address handed out. */
  datatype Outcome = Outcome(s: Link, r: int, data: seq<byte>)

  /** NRF24_CMD_SET_PIPE for a data pipe just allocated. */
  function OpenFor(s: Link, fd: nat, aa: Addr): (t: Link)
    requires Shape(s) && 1 <= fd <= CONNECTION_COUNTER
    ensures Shape(t) && t.mac == s.mac
  {
    s.(radio := Ioctl(s.radio, SetPipe(fd, aa)), hist := s.hist.(addrs := s.hist.addrs[fd - 1 := aa]))
  }

  function SocketCall(s: Link, raw: bool): (o: Outcome)
    requires Shape(s)
    ensures Shape(o.s) && o.s.mac == s.mac
  {
    if raw && s.mgmt.pipe != -1 then
      var (t, fd) := AllocPipe(s);
      if fd < 0 then Outcome(s, EUSERS, [])
      else Outcome(OpenFor(t, fd, AddressFor(s.mac, fd)), fd, [])
    else if !raw && s.mgmt.pipe == 0 then Outcome(s, EUSERS, [])
    else
      Outcome(s.(mgmt := s.mgmt.(pipe := 0), radio := Ioctl(s.radio, SetPipe(0, BROADCAST_ADDRESS))), 0, [])
  }

  function CloseCall(s: Link, fd: int, junk: byte): (o: Outcome)
    requires Shape(s)
    ensures Shape(o.s) && o.s.mac == s.mac
  {
    if 1 <= fd <= 5 && s.peers[fd - 1].pipe != -1 then
      var t := if s.mac != NO_MAC
               then Transmit(s, DisconnectFrame, fd, ControlPdu(OP_DISCONNECT, s.mac, s.peers[fd - 1].mac, junk))
               else s;
      Outcome(FreePipe(t, fd), 0, [])
    else Outcome(s, 0, [])
  }

  function ListenCall(s: Link): (o: Outcome)
    requires Shape(s)
    ensures Shape(o.s) && o.s.mac == s.mac
  {
    Outcome(s.(listen := true, bitmask := s.bitmask[0 := true]), 0, [])
  }

  function ReadCall(s: Link, fd: int, count: nat): (o: Outcome)
    requires Shape(s)
    ensures Shape(o.s) && o.s.mac == s.mac
  {
    if fd < 0 || fd > 5 || count == 0 then Outcome(s, EINVAL, [])
    else if fd == 0 then
      if s.mgmt.lenRx == 0 then Outcome(s, EAGAIN, [])
      else
        var n := Min(s.mgmt.lenRx, count);
        Outcome(Consume(s), n, s.mgmt.bufferRx[..n])
    else
      var p := s.peers[fd - 1];
      if p.rx.len == 0 then Outcome(s, EAGAIN, [])
      else
        var n := Min(p.rx.len, count);
        Outcome(SetPeer(s, fd, p.(rx := p.rx.(len := 0))), n, p.rx.buffer[..n])
  }

  function WriteCall(s: Link, fd: int, data: seq<byte>): (o: Outcome)
    requires Shape(s)
    ensures Shape(o.s) && o.s.mac == s.mac
  {
    if fd < 1 || fd > 5 || |data| == 0 || |data| > DATA_SIZE then Outcome(s, EINVAL, [])
    else if s.peers[fd - 1].lenTx != 0 then Outcome(s, EBUSY, [])
    else
      var p := s.peers[fd - 1];
      var t := SetPeer(s, fd, p.(bufferTx := Patch(p.bufferTx, 0, data), lenTx := |data|));
      Outcome(t.(hist := t.hist.(given := t.hist.given + {(fd as nat, data)})), |data|, [])
  }

  /** The mailbox holds a connect request for this node. */
  predicate ConnectedPending(s: Link)
    requires |s.mgmt.bufferRx| == MTU
  {
    s.mgmt.bufferRx[..2] == EVT_CONNECTED && s.mgmt.bufferRx[11..19] == s.mac
  }

  function AcceptFrom(s: Link, t: nat): (o: Outcome)
    requires Shape(s)
    ensures Shape(o.s) && o.s.mac == s.mac
  {
    if s.mgmt.lenRx == 0 then Outcome(s, EAGAIN, [])
    else
      var s1 := Consume(s);
      if !ConnectedPending(s) then Outcome(s1, EAGAIN, [])
      else
        var (s2, fd) := AllocPipe(s1);
        if fd < 0 then Outcome(s2, EUSERS, [])
        else
          var src, aa := s.mgmt.bufferRx[3..11], s.mgmt.bufferRx[20..25];
          var s3 := ResizeRaw(OpenFor(s2, fd, aa).(listen := false));
          var s4 := SetPeer(s3, fd, s3.peers[fd - 1].(mac := src, keepalive := 0, anchor := Clock(t)));
          Outcome(s4.(hist := s4.hist.(heard := s4.hist.heard[fd - 1 := Some(t)])), fd, src)
  }

  function ConnectTo(s: Link, fd: int, dst: Mac, t: nat): (o: Outcome)
    requires Shape(s) && 1 <= fd <= CONNECTION_COUNTER
    ensures Shape(o.s) && o.s.mac == s.mac
  {
    if s.mgmt.lenTx != 0 then Outcome(s, EBUSY, [])
    else
      var pdu := ConnectPdu(s.mgmt.bufferTx, s.mac, dst, RAW_CHANNEL, AddressFor(s.mac, fd));
      var s1 := SetPeer(s, fd, s.peers[fd - 1].(mac := dst, anchor := Clock(t), keepalive := 1));
      Outcome(s1.(mgmt := s1.mgmt.(bufferTx := pdu, lenTx := CONNECT_LEN),
                  hist := s1.hist.(heard := s1.hist.heard[fd - 1 := Some(t)],
                                   connects := s1.hist.connects[fd - 1 := s1.hist.connects[fd - 1] + 1])), 0, [])
  }

  /** The calls that first run the background step. */
  predicate Runs(c: Call) {
    c.Read? || c.Write? || c.AcceptCall? || c.Connect?
  }

  predicate CallOk(c: Call) {
    c.Connect? ==> 1 <= c.fd <= CONNECTION_COUNTER
  }

  /** What a call does once the background step is over. */
  function Perform(s: Link, c: Call, e: Env): (o: Outcome)
    requires Shape(s) && CallOk(c)
    ensures Shape(o.s) && o.s.mac == s.mac
  {
    match c
    case Socket(raw) => SocketCall(s, raw)
    case Close(fd) => CloseCall(s, fd, e.junk)
    case Listen => ListenCall(s)
    case Read(fd, count) => ReadCall(s, fd, count)
    case Write(fd, data) => WriteCall(s, fd, data)
    case AcceptCall => AcceptFrom(s, e.t5)
    case Connect(fd, dst) => ConnectTo(s, fd, dst, e.t5)
  }

  function Step(s: Link, c: Call, e: Env): (o: Outcome)
    requires Shape(s) && CallOk(c) && EnvShape(e)
    ensures Shape(o.s) && o.s.mac == s.mac
  {
    var o := Perform(if Runs(c) then Running(s, e) else s, c, e);
    o.(s := o.s.(hist := o.s.hist.(now := e.t5)))
  }
}
