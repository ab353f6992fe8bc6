/**
  * Two nodes and a data pipe between them: what one application reads is what the other one wrote.
  * Ties write_raw to fragmentation, read_raw to reassembly, and both to whole sessions.
  */
module EndToEnd {
  import opened Bytes
  import opened Nrf24l01
  import opened LinkPdu
  import opened Reassembly
  import opened LinkSpec
  import opened LinkRuns
  import opened LinkService
  import M = MessageStream
  import Handshake
  import LinkEvents

  // --- the sending side ---

  ghost predicate CarriesFragment(f: Sent, fd: nat, m: seq<byte>, k: int, rfu: byte)
    requires Message(m) && 0 <= k < FrameCount(m)
  {
    f.kind == DataFrame && f.pipe == fd && f.bytes == Fragment(m, k, rfu)
  }

  /** The frame write_raw puts on the air for fragment k of m, and the registers it goes out under. */
  function FragmentSent(r: Radio, fd: nat, m: seq<byte>, k: nat, junk: byte): (f: Sent)
    requires Initialised(r) && Message(m) && k < FrameCount(m)
  {
    var tx := SetPtx(r, fd);
    Sent(DataFrame, fd, Fragment(m, k, junk), tx.rfCh, tx.enAA, tx.txAddr)
  }

  /** Fragments k to n - 1 of m, one after the other. */
  function Burst(r: Radio, fd: nat, m: seq<byte>, k: nat, n: nat, junk: byte): (fs: seq<Sent>)
    requires Initialised(r) && Message(m) && k <= n <= FrameCount(m)
    ensures |fs| == n - k
    decreases n - k
  {
    if k == n then [] else [FragmentSent(r, fd, m, k, junk)] + Burst(PhyDriverNrf24.Write(r, fd), fd, m, k + 1, n, junk)
  }

  lemma {:induction false} BurstCarries(r: Radio, fd: nat, m: seq<byte>, k: nat, n: nat, junk: byte, i: nat)
    requires Initialised(r) && Message(m) && k <= n <= FrameCount(m) && i < n - k
    ensures CarriesFragment(Burst(r, fd, m, k, n, junk)[i], fd, m, k + i, junk)
    decreases n - k
  {
    hide Fragment, SetPtx, PhyDriverNrf24.Write;
    if i > 0 {
      BurstCarries(PhyDriverNrf24.Write(r, fd), fd, m, k + 1, n, junk, i - 1);
    }
  }

  lemma SliceOfPrefix(buf: seq<byte>, n: nat, i: nat, j: nat)
    requires i <= j <= n <= |buf|
    ensures buf[..n][i..j] == buf[i..j]
  {
  }

  /** The bytes write_raw assembles with `left` still to go are the next fragment. */
  lemma BytesAreFragment(p: Peer, m: seq<byte>, k: nat, junk: byte)
    requires |p.bufferTx| == DATA_SIZE && p.lenTx <= DATA_SIZE && m == p.bufferTx[..p.lenTx] && Message(m)
    requires k < FrameCount(m) && p.seqnumberTx == k
    ensures 1 <= |m| - PW_MSG_SIZE * k <= p.lenTx
    ensures DataBytes(p, |m| - PW_MSG_SIZE * k, junk) == Fragment(m, k, junk)
  {
    var n := FrameCount(m);
    assert n <= 5 && PW_MSG_SIZE * (n - 1) < |m| <= PW_MSG_SIZE * n;
    var from, to := PW_MSG_SIZE * k, Min(PW_MSG_SIZE * (k + 1), |m|);
    var left := |m| - from;
    assert from + Min(left, PW_MSG_SIZE) == to;
    SliceOfPrefix(p.bufferTx, p.lenTx, from, to);
    assert p.lenTx - left == from;
  }

  lemma SendOneFragment(s: Link, fd: nat, k: nat, junk: byte, m: seq<byte>)
    requires Shape(s) && 1 <= fd <= CONNECTION_COUNTER && Message(m) && m == Pending(s, fd)
    requires k < FrameCount(m) && s.peers[fd - 1].seqnumberTx == k
    ensures 1 <= |m| - PW_MSG_SIZE * k <= s.peers[fd - 1].lenTx
    ensures var t := SendOne(s, fd, |m| - PW_MSG_SIZE * k, junk);
            && t.hist.air == s.hist.air + [FragmentSent(s.radio, fd, m, k, junk)]
            && t.radio == PhyDriverNrf24.Write(s.radio, fd)
  {
    BytesAreFragment(s.peers[fd - 1], m, k, junk);
  }

  /** What is left of m once its first k fragments are out. */
  function LeftAfter(m: seq<byte>, k: nat): (left: nat)
    requires Message(m) && k <= FrameCount(m)
    ensures left <= |m| && (left == 0 <==> k == FrameCount(m))
    ensures k < FrameCount(m) ==> left == |m| - PW_MSG_SIZE * k
  {
    if k < FrameCount(m) then |m| - PW_MSG_SIZE * k else 0
  }

  lemma LeftShrinks(m: seq<byte>, k: nat)
    requires Message(m) && k < FrameCount(m)
    ensures LeftAfter(m, k + 1) == LeftAfter(m, k) - Min(LeftAfter(m, k), PW_MSG_SIZE)
  {
  }

  lemma CountSentOnly(s: Link, fd: nat, m: seq<byte>, k: nat)
    requires Shape(s) && 1 <= fd <= CONNECTION_COUNTER && Message(m) && m == Pending(s, fd)
    requires k < FrameCount(m) && s.peers[fd - 1].seqnumberTx == k
    ensures Pending(CountSent(s, fd), fd) == m && CountSent(s, fd).peers[fd - 1].seqnumberTx == k + 1
    ensures CountSent(s, fd).hist == s.hist
  {
  }

  lemma BurstStep(air: seq<Sent>, air1: seq<Sent>, after: seq<Sent>, r: Radio, fd: nat, m: seq<byte>, k: nat, n: nat,
                  junk: byte)
    requires Initialised(r) && Message(m) && k < n <= FrameCount(m)
    requires air1 == air + [FragmentSent(r, fd, m, k, junk)]
    requires after == air1 + Burst(PhyDriverNrf24.Write(r, fd), fd, m, k + 1, n, junk)
    ensures after == air + Burst(r, fd, m, k, n, junk)
  {
  }

  /** From fragment k on, the loop puts the rest of the burst on the air. */
  ghost predicate LoopSends(s: Link, fd: nat, k: nat, acked: nat, junk: byte, m: seq<byte>)
    requires Shape(s) && 1 <= fd <= CONNECTION_COUNTER && Message(m) && k <= FrameCount(m) && k <= acked
  {
    && LeftAfter(m, k) <= s.peers[fd - 1].lenTx
    && SendFrom(s, fd, LeftAfter(m, k), k, acked, junk).hist.air
       == s.hist.air + Burst(s.radio, fd, m, k, Min(acked + 1, FrameCount(m)), junk)
  }

  lemma NoTurn(s: Link, fd: nat, acked: nat, junk: byte, m: seq<byte>)
    requires Shape(s) && 1 <= fd <= CONNECTION_COUNTER && Message(m) && FrameCount(m) <= acked
    ensures LoopSends(s, fd, FrameCount(m), acked, junk, m)
  {
  }

  lemma LastTurn(s: Link, fd: nat, k: nat, junk: byte, m: seq<byte>)
    requires Shape(s) && 1 <= fd <= CONNECTION_COUNTER && Message(m) && m == Pending(s, fd)
    requires k < FrameCount(m) && s.peers[fd - 1].seqnumberTx == k
    ensures LoopSends(s, fd, k, k, junk, m)
  {
    SendOneFragment(s, fd, k, junk, m);
    SendFromTurn(s, fd, LeftAfter(m, k), k, k, junk);
  }

  /** A frame that is acknowledged leaves the node ready for the next turn. */
  lemma AckedTurn(s: Link, fd: nat, k: nat, acked: nat, junk: byte, m: seq<byte>) returns (t: Link)
    requires Shape(s) && 1 <= fd <= CONNECTION_COUNTER && Message(m) && m == Pending(s, fd)
    requires k < FrameCount(m) && k < acked && s.peers[fd - 1].seqnumberTx == k
    ensures LeftAfter(m, k) <= s.peers[fd - 1].lenTx
    ensures Shape(t) && m == Pending(t, fd) && t.peers[fd - 1].seqnumberTx == k + 1
    ensures LeftAfter(m, k + 1) <= t.peers[fd - 1].lenTx
    ensures t.hist.air == s.hist.air + [FragmentSent(s.radio, fd, m, k, junk)]
    ensures t.radio == PhyDriverNrf24.Write(s.radio, fd)
    ensures SendFrom(s, fd, LeftAfter(m, k), k, acked, junk).hist.air
            == SendFrom(t, fd, LeftAfter(m, k + 1), k + 1, acked, junk).hist.air
  {
    var left := LeftAfter(m, k);
    SendOneFragment(s, fd, k, junk, m);
    SendFromTurn(s, fd, left, k, acked, junk);
    LeftShrinks(m, k);
    CountSentOnly(SendOne(s, fd, left, junk), fd, m, k);
    t := CountSent(SendOne(s, fd, left, junk), fd);
  }

  lemma EarlierTurn(s: Link, fd: nat, k: nat, acked: nat, junk: byte, m: seq<byte>)
    requires Shape(s) && 1 <= fd <= CONNECTION_COUNTER && Message(m) && m == Pending(s, fd)
    requires k < FrameCount(m) && k < acked && s.peers[fd - 1].seqnumberTx == k
    ensures LoopSends(s, fd, k, acked, junk, m)
    decreases FrameCount(m) - k, 0
  {
    var t := AckedTurn(s, fd, k, acked, junk, m);
    SendFromBurst(t, fd, k + 1, acked, junk, m);
    BurstStep(s.hist.air, t.hist.air, SendFrom(t, fd, LeftAfter(m, k + 1), k + 1, acked, junk).hist.air,
              s.radio, fd, m, k, Min(acked + 1, FrameCount(m)), junk);
  }

  lemma SendFromBurst(s: Link, fd: nat, k: nat, acked: nat, junk: byte, m: seq<byte>)
    requires Shape(s) && 1 <= fd <= CONNECTION_COUNTER && Message(m) && m == Pending(s, fd)
    requires k <= FrameCount(m) && k <= acked && s.peers[fd - 1].seqnumberTx == k
    ensures LoopSends(s, fd, k, acked, junk, m)
    decreases FrameCount(m) - k, 1
  {
    if k == FrameCount(m) {
      NoTurn(s, fd, acked, junk, m);
    } else if k == acked {
      LastTurn(s, fd, k, junk, m);
    } else {
      EarlierTurn(s, fd, k, acked, junk, m);
    }
  }

  lemma {:induction false} WriteRawBursts(s: Link, fd: nat, acked: nat, junk: byte)
    requires Shape(s) && 1 <= fd <= CONNECTION_COUNTER
    requires s.peers[fd - 1].lenTx != 0 && s.peers[fd - 1].seqnumberTx == 0
    ensures Message(Pending(s, fd))
    ensures var m := Pending(s, fd);
            WriteRaw(s, fd, acked, junk).hist.air
            == s.hist.air + Burst(s.radio, fd, m, 0, Min(acked + 1, FrameCount(m)), junk)
  {
    hide SendFrom, FragmentSent, Fragment, Burst;
    SendFromBurst(s, fd, 0, acked, junk, Pending(s, fd));
  }

  /**
    * write_raw puts on the air exactly the first frames of the waiting message, in order, up to and
    * including the first one that fails; a message all of whose frames are acknowledged goes out whole.
    */
  lemma WriteRawSendsFragments(s: Link, fd: nat, acked: nat, junk: byte)
    requires Shape(s) && 1 <= fd <= CONNECTION_COUNTER
    requires s.peers[fd - 1].lenTx != 0 && s.peers[fd - 1].seqnumberTx == 0
    ensures var m, air := Pending(s, fd), WriteRaw(s, fd, acked, junk).hist.air;
            && Message(m) && s.hist.air <= air
            && var out := air[|s.hist.air|..];
               && |out| == Min(acked + 1, FrameCount(m))
               && forall i :: 0 <= i < |out| ==> CarriesFragment(out[i], fd, m, i, junk)
  {
    hide WriteRaw, CarriesFragment, Burst, FrameCount, PeerShape;
    var m := Pending(s, fd);
    WriteRawBursts(s, fd, acked, junk);
    var out := Burst(s.radio, fd, m, 0, Min(acked + 1, FrameCount(m)), junk);
    BurstIsCarried(s.radio, fd, m, Min(acked + 1, FrameCount(m)), junk);
    Appended(s.hist.air, WriteRaw(s, fd, acked, junk).hist.air, out);
  }

  lemma Appended(air0: seq<Sent>, air1: seq<Sent>, out: seq<Sent>)
    requires air1 == air0 + out
    ensures air0 <= air1 && air1[|air0|..] == out
  {
  }

  lemma {:induction false} BurstIsCarried(r: Radio, fd: nat, m: seq<byte>, n: nat, junk: byte)
    requires Initialised(r) && Message(m) && n <= FrameCount(m)
    ensures forall i :: 0 <= i < n ==> CarriesFragment(Burst(r, fd, m, 0, n, junk)[i], fd, m, i, junk)
  {
    hide CarriesFragment, Burst;
    forall i | 0 <= i < n ensures CarriesFragment(Burst(r, fd, m, 0, n, junk)[i], fd, m, i, junk) {
      BurstCarries(r, fd, m, 0, n, junk, i);
    }
  }

  // --- the receiving side ---

  /** The data frames among those read_raw takes in one turn. */
  function DataInputs(fs: seq<Heard>): (r: seq<Input>)
    requires forall i :: 0 <= i < |fs| ==> RawFrame(fs[i])
    ensures InputsOk(r)
  {
    if fs == [] then []
    else
      var f := fs[|fs| - 1];
      assert RawFrame(fs[|fs| - 1]);
      DataInputs(fs[..|fs| - 1]) + if IsData(f) then [Frame(f)] else []
  }

  lemma {:induction false} ReadRawFolds(s: Link, fd: nat, fs: seq<Heard>, junk: byte)
    requires Shape(s) && 1 <= fd <= CONNECTION_COUNTER
    requires forall i :: 0 <= i < |fs| ==> RawFrame(fs[i])
    ensures ReadRaw(s, fd, fs, junk).peers[fd - 1].rx == Fold(s.peers[fd - 1].rx, DataInputs(fs))
    decreases |fs|
  {
    if fs != [] {
      var init, f := fs[..|fs| - 1], fs[|fs| - 1];
      ReadRawFolds(s, fd, init, junk);
      FrameFolds(ReadRaw(s, fd, init, junk), fd, f, junk);
      FoldConcat(s.peers[fd - 1].rx, DataInputs(init), if IsData(f) then [Frame(f)] else []);
    }
  }

  lemma FrameFolds(s: Link, fd: nat, f: Heard, junk: byte)
    requires Shape(s) && 1 <= fd <= CONNECTION_COUNTER && RawFrame(f)
    ensures HandleFrame(s, fd, f, junk).peers[fd - 1].rx
            == Fold(s.peers[fd - 1].rx, if IsData(f) then [Frame(f)] else [])
  {
    assert [Frame(f)][..0] == [];
  }

  lemma {:induction false} SendFromLeavesRx(s: Link, fd: nat, left: nat, k: nat, acked: nat, junk: byte)
    requires Shape(s) && 1 <= fd <= CONNECTION_COUNTER && left <= s.peers[fd - 1].lenTx
    ensures SendFrom(s, fd, left, k, acked, junk).peers[fd - 1].rx == s.peers[fd - 1].rx
    decreases left
  {
    hide SendFrom;
    SendFromTurn(s, fd, left, k, acked, junk);
    if left != 0 && k < acked {
      var t := CountSent(SendOne(s, fd, left, junk), fd);
      SendFromLeavesRx(t, fd, left - Min(left, PW_MSG_SIZE), k + 1, acked, junk);
    }
  }

  lemma SuperviseLeavesRx(s: Link, fd: nat, t: nat, junk: byte)
    requires Shape(s) && 1 <= fd <= CONNECTION_COUNTER && s.peers[fd - 1].pipe != -1
    ensures Supervise(s, fd, t, junk).peers[fd - 1].rx == s.peers[fd - 1].rx
  {
  }

  lemma ServeFolds(s: Link, fd: nat, e: Env)
    requires Shape(s) && EnvShape(e) && 1 <= fd <= CONNECTION_COUNTER && s.peers[fd - 1].pipe != -1
    ensures Serve(s, fd, e).peers[fd - 1].rx == Fold(s.peers[fd - 1].rx, DataInputs(e.rawIn))
  {
    ReadRawFolds(s, fd, e.rawIn, e.junk);
    var t := ReadRaw(s, fd, e.rawIn, e.junk);
    SendFromLeavesRx(t, fd, t.peers[fd - 1].lenTx, 0, e.acked, e.junk);
    SuperviseLeavesRx(Stamp(Traffic(s, fd, e), e.t3), fd, e.t4, e.junk);
  }

  /** What the background step feeds the receive slot of pipe fd. */
  function RunningInputs(s: Link, e: Env, fd: nat): (r: seq<Input>)
    requires Shape(s) && EnvShape(e) && 1 <= fd <= CONNECTION_COUNTER
    ensures InputsOk(r)
  {
    if s.sched.state == RAW && s.sched.sockIndex == fd && s.peers[fd - 1].pipe != -1 then DataInputs(e.rawIn) else []
  }

  lemma RunningFolds(s: Link, e: Env, fd: nat)
    requires Shape(s) && EnvShape(e) && 1 <= fd <= CONNECTION_COUNTER
    ensures Running(s, e).peers[fd - 1].rx == Fold(s.peers[fd - 1].rx, RunningInputs(s, e, fd))
  {
    if s.sched.state != RAW {
      OnlyRawTouchesPeers(s, e);
    } else {
      RawStepFolds(s, e, fd);
    }
  }

  lemma RawStepFolds(s: Link, e: Env, fd: nat)
    requires Shape(s) && EnvShape(e) && 1 <= fd <= CONNECTION_COUNTER && s.sched.state == RAW
    ensures RawStep(s, e).peers[fd - 1].rx == Fold(s.peers[fd - 1].rx, RunningInputs(s, e, fd))
  {
    var s1 := RawExit(s, e);
    if s.sched.sockIndex == fd && s.peers[fd - 1].pipe != -1 {
      ServeFolds(s1, fd, e);
    } else {
      NotServedKeepsRx(s1, s.sched.sockIndex, e, fd);
    }
  }

  lemma NotServedKeepsRx(s: Link, sock: nat, e: Env, fd: nat)
    requires Shape(s) && EnvShape(e) && 1 <= fd <= CONNECTION_COUNTER && 1 <= sock <= CONNECTION_COUNTER
    requires sock != fd || s.peers[fd - 1].pipe == -1
    ensures Serve(s, sock, e).peers[fd - 1].rx == s.peers[fd - 1].rx
  {
    assert OthersSame(s, Serve(s, sock, e), sock);
  }

  /** What an interface call does to the receive slot of pipe fd. */
  function CallInputs(s: Link, c: Call, e: Env, fd: nat): (r: seq<Input>)
    requires Shape(s) && CallOk(c) && 1 <= fd <= CONNECTION_COUNTER
    ensures InputsOk(r)
  {
    if c.Read? && c.fd == fd && c.count != 0 then [Drain]
    else if (c.Socket? || c.AcceptCall?) && s.peers[fd - 1].pipe == -1 && Perform(s, c, e).s.peers[fd - 1].pipe != -1
    then [Reopen]
    else []
  }

  lemma SocketFolds(s: Link, raw: bool, fd: nat)
    requires Shape(s) && 1 <= fd <= CONNECTION_COUNTER
    ensures var t := SocketCall(s, raw).s.peers[fd - 1];
            if s.peers[fd - 1].pipe == -1 && t.pipe != -1 then t.rx == EMPTY_SLOT else t.rx == s.peers[fd - 1].rx
  {
  }

  lemma AcceptFolds(s: Link, t: nat, fd: nat)
    requires Shape(s) && 1 <= fd <= CONNECTION_COUNTER
    ensures var u := AcceptFrom(s, t).s.peers[fd - 1];
            if s.peers[fd - 1].pipe == -1 && u.pipe != -1 then u.rx == EMPTY_SLOT else u.rx == s.peers[fd - 1].rx
  {
  }

  lemma OtherCallsFold(s: Link, c: Call, e: Env, fd: nat)
    requires Shape(s) && CallOk(c) && 1 <= fd <= CONNECTION_COUNTER
    requires c.Close? || c.Listen? || c.Write? || c.Connect?
    ensures Perform(s, c, e).s.peers[fd - 1].rx == s.peers[fd - 1].rx
  {
    hide CloseCall;
    if c.Close? {
      CloseLeavesRx(s, c.fd, e.junk, fd);
    }
  }

  lemma CloseLeavesRx(s: Link, to: int, junk: byte, fd: nat)
    requires Shape(s) && 1 <= fd <= CONNECTION_COUNTER
    ensures CloseCall(s, to, junk).s.peers[fd - 1].rx == s.peers[fd - 1].rx
  {
  }

  lemma ReadFolds(s: Link, to: int, count: nat, fd: nat)
    requires Shape(s) && 1 <= fd <= CONNECTION_COUNTER
    ensures ReadCall(s, to, count).s.peers[fd - 1].rx
            == if to == fd && count != 0 then s.peers[fd - 1].rx.(len := 0) else s.peers[fd - 1].rx
  {
  }

  lemma CallFolds(s: Link, c: Call, e: Env, fd: nat)
    requires Shape(s) && CallOk(c) && 1 <= fd <= CONNECTION_COUNTER
    ensures Perform(s, c, e).s.peers[fd - 1].rx == Fold(s.peers[fd - 1].rx, CallInputs(s, c, e, fd))
  {
    assert [Drain][..0] == [] && [Reopen][..0] == [];
    match c
    case Socket(raw) => SocketFolds(s, raw, fd);
    case AcceptCall => AcceptFolds(s, e.t5, fd);
    case Read(_, count) => ReadFolds(s, c.fd, count, fd);
    case _ => OtherCallsFold(s, c, e, fd);
  }

  function ActInputs(s: Link, a: Act, fd: nat): (r: seq<Input>)
    requires Shape(s) && CallOk(a.call) && EnvShape(a.env) && 1 <= fd <= CONNECTION_COUNTER
    ensures InputsOk(r)
  {
    if Runs(a.call) then
      RunningInputs(s, a.env, fd) + CallInputs(Running(s, a.env), a.call, a.env, fd)
    else CallInputs(s, a.call, a.env, fd)
  }

  lemma ActFolds(s: Link, a: Act, fd: nat)
    requires Shape(s) && CallOk(a.call) && EnvShape(a.env) && 1 <= fd <= CONNECTION_COUNTER
    ensures Next(s, a).peers[fd - 1].rx == Fold(s.peers[fd - 1].rx, ActInputs(s, a, fd))
  {
    if Runs(a.call) {
      RunningFolds(s, a.env, fd);
      CallFolds(Running(s, a.env), a.call, a.env, fd);
      FoldConcat(s.peers[fd - 1].rx, RunningInputs(s, a.env, fd),
                 CallInputs(Running(s, a.env), a.call, a.env, fd));
    } else {
      CallFolds(s, a.call, a.env, fd);
    }
  }

  /** Everything a whole run feeds the receive slot of pipe fd. */
  ghost function RunInputs(s: Link, acts: seq<Act>, fd: nat): (r: seq<Input>)
    requires Shape(s) && RunOk(s, acts) && 1 <= fd <= CONNECTION_COUNTER
    ensures InputsOk(r)
    decreases |acts|
  {
    if acts == [] then [] else ActInputs(s, acts[0], fd) + RunInputs(Next(s, acts[0]), acts[1..], fd)
  }

  lemma {:induction false} RunFolds(s: Link, acts: seq<Act>, fd: nat)
    requires Shape(s) && RunOk(s, acts) && 1 <= fd <= CONNECTION_COUNTER
    ensures Run(s, acts).peers[fd - 1].rx == Fold(s.peers[fd - 1].rx, RunInputs(s, acts, fd))
    decreases |acts|
  {
    if acts != [] {
      var t := Next(s, acts[0]);
      ActFolds(s, acts[0], fd);
      RunFolds(t, acts[1..], fd);
      FoldConcat(s.peers[fd - 1].rx, ActInputs(s, acts[0], fd), RunInputs(t, acts[1..], fd));
    }
  }

  // --- both sides ---

  /** The receiver's events without the labels that say where a frame came from. */
  function Unlabelled(evs: seq<M.Event>): (r: seq<Input>)
    ensures |r| == |evs|
  {
    if evs == [] then []
    else
      var e := evs[|evs| - 1];
      Unlabelled(evs[..|evs| - 1])
      + [match e case Deliver(_, f) => Frame(f) case Read => Drain case Realloc => Reopen]
  }

  lemma {:induction false} StreamFolds(attempts: seq<M.Attempt>, evs: seq<M.Event>)
    requires M.LossyRun(attempts, evs) && InputsOk(Unlabelled(evs))
    ensures M.Receive(attempts, evs).slot == Fold(EMPTY_SLOT, Unlabelled(evs))
    decreases |evs|
  {
    if evs != [] {
      var init := evs[..|evs| - 1];
      var ins := Unlabelled(evs);
      assert ins[..|ins| - 1] == Unlabelled(init);
      M.SequenceSoFar(evs);
      StreamFolds(attempts, init);
    }
  }

  /** Attempt i of the channel is a try of the sender on pipe fd, frame for frame. */
  ghost predicate TriesOf(s: Link, fd: nat, attempts: seq<M.Attempt>) {
    && M.AllOk(attempts)
    && forall i :: 0 <= i < |attempts| ==> Try(fd, attempts[i].m, |attempts[i].copies|) in s.hist.tries
  }

  /** A message waiting in a receive slot fed by the stream is one of the stream's messages. */
  lemma WaitingWasSent(attempts: seq<M.Attempt>, evs: seq<M.Event>, slot: RxSlot) returns (i: nat)
    requires M.LossyRun(attempts, evs) && (M.HeadsFirst(M.Tags(evs)) || M.NoClash(M.Messages(attempts)))
    requires slot == M.Receive(attempts, evs).slot && slot.len != 0
    ensures i < |attempts| && slot.buffer[..slot.len] == attempts[i].m
  {
    M.RunInStep(attempts, evs);
    var ex := M.Receive(attempts, evs).exposed;
    M.NeverASplice(attempts, evs, |ex| - 1);
    i := ex[|ex| - 1].msg;
  }

  lemma TriedWasGiven(s: Link, t: Try)
    requires Reachable(s) && t in s.hist.tries
    ensures (t.fd, t.m) in s.hist.given
  {
    ReachableInv(s);
  }

  /** Some session that leads to this state has an application that wrote m to socket p. */
  ghost predicate WrittenBefore(a: Link, p: nat, m: seq<byte>) {
    exists mac: Mac, regs: Radio, acts: seq<Act> ::
      ReachedBy(a, mac, regs, acts) && LinkEvents.Wrote(Session(mac, regs), acts, p, m)
  }

  lemma {:induction false} GivenWasWritten(a: Link, p: nat, m: seq<byte>)
    requires Reachable(a) && (p, m) in a.hist.given
    ensures WrittenBefore(a, p, m)
  {
    var mac: Mac, regs: Radio, acts: seq<Act> :| ReachedBy(a, mac, regs, acts);
    LinkEvents.GivenIsWritten(mac, regs, acts, p, m);
  }

  /** Nothing so far, or the pipe has just been allocated again. */
  predicate Afresh(pre: seq<Input>) {
    pre == [] || pre[|pre| - 1] == Reopen
  }

  /**
    * A session's receive slot is where the stream's frames, reads and reallocations put it, whatever came
    * before the pipe was last allocated.
    */
  lemma {:induction false} SlotFollowsStream(mac: Mac, regs: Radio, acts: seq<Act>, q: nat, pre: seq<Input>,
                          attempts: seq<M.Attempt>, evs: seq<M.Event>)
    requires |regs.rxLow| == 4 && Shape(Session(mac, regs)) && RunOk(Session(mac, regs), acts)
    requires 1 <= q <= CONNECTION_COUNTER && M.LossyRun(attempts, evs)
    requires Afresh(pre) && RunInputs(Session(mac, regs), acts, q) == pre + Unlabelled(evs)
    ensures Run(Session(mac, regs), acts).peers[q - 1].rx == M.Receive(attempts, evs).slot
  {
    hide M.LossyRun, Run, RunInputs;
    var ins := RunInputs(Session(mac, regs), acts, q);
    RunFolds(Session(mac, regs), acts, q);
    assert InputsOk(pre) && InputsOk(Unlabelled(evs)) by {
      assert ins[..|pre|] == pre && ins[|pre|..] == Unlabelled(evs);
    }
    FoldConcat(EMPTY_SLOT, pre, Unlabelled(evs));
    StreamFolds(attempts, evs);
  }

  lemma ReadHandsOut(s: Link, q: nat, count: nat)
    requires Shape(s) && 1 <= q <= CONNECTION_COUNTER && ReadCall(s, q, count).r > 0
    ensures var slot, o := s.peers[q - 1].rx, ReadCall(s, q, count);
            slot.len != 0 && o.r == Min(slot.len, count) && o.data == slot.buffer[..slot.len][..o.r]
  {
  }

  /**
    * Two nodes in any two sessions. If what the receiver's pipe q has heard since it was last allocated are
    * frames of the sender's tries on pipe p, in order, each any number of times or not at all, then whatever
    * hal_comm_read hands to the receiving application is (a prefix, if its buffer is short, of) one message
    * the sending application gave to hal_comm_write - provided the first frame heard of each message is its
    * frame 0, or no two of the messages clash. What came before the allocation, from whatever peer, does
    * not matter.
    */
  lemma ReadsOnlyWhatWasWritten(a: Link, p: nat, mac: Mac, regs: Radio, acts: seq<Act>, q: nat, count: nat,
                                pre: seq<Input>, attempts: seq<M.Attempt>, evs: seq<M.Event>)
    returns (m: seq<byte>)
    requires Reachable(a) && TriesOf(a, p, attempts)
    requires |regs.rxLow| == 4 && Shape(Session(mac, regs)) && RunOk(Session(mac, regs), acts)
    requires 1 <= q <= CONNECTION_COUNTER && M.LossyRun(attempts, evs)
    requires M.HeadsFirst(M.Tags(evs)) || M.NoClash(M.Messages(attempts))
    requires Afresh(pre) && RunInputs(Session(mac, regs), acts, q) == pre + Unlabelled(evs)
    requires ReadCall(Run(Session(mac, regs), acts), q, count).r > 0
    ensures (p, m) in a.hist.given && WrittenBefore(a, p, m)
    ensures var o := ReadCall(Run(Session(mac, regs), acts), q, count);
            o.r == Min(|m|, count) && o.data == m[..o.r]
  {
    hide WrittenBefore, RunInputs, M.LossyRun;
    var b := Run(Session(mac, regs), acts);
    var slot := b.peers[q - 1].rx;
    SlotFollowsStream(mac, regs, acts, q, pre, attempts, evs);
    ReadHandsOut(b, q, count);
    var i := WaitingWasSent(attempts, evs, slot);
    m := attempts[i].m;
    TriedWasGiven(a, Try(p, m, |attempts[i].copies|));
    GivenWasWritten(a, p, m);
  }

  // --- delivery ---

  /**
    * The frames put on the air between two moments, each arriving one or more times, in order: hs[i] is
    * the frame numbered which[i].
    */
  ghost predicate AllArrive(air0: seq<Sent>, air1: seq<Sent>, hs: seq<Heard>, which: seq<nat>) {
    && air0 < air1 && |which| == |hs| && hs != []
    && which[0] == 0 && which[|which| - 1] == |air1| - |air0| - 1
    && (forall i :: 0 < i < |which| ==> which[i - 1] <= which[i] <= which[i - 1] + 1)
    && (forall i :: 0 <= i < |hs| ==>
          WellSized(hs[i]) && which[i] < |air1| - |air0|
          && hs[i].buf[..hs[i].len] == air1[|air0| + which[i]].bytes)
  }

  lemma ArrivalsRepeatInOrder(m: seq<byte>, air0: seq<Sent>, air1: seq<Sent>, fd: nat, hs: seq<Heard>, which: seq<nat>,
                              junk: byte)
    requires Message(m) && AllArrive(air0, air1, hs, which) && |air1| - |air0| == FrameCount(m)
    requires forall i :: 0 <= i < FrameCount(m) ==> CarriesFragment(air1[|air0|..][i], fd, m, i, junk)
    ensures RepeatedInOrder(m, hs, which)
  {
    forall i | 0 <= i < |hs| ensures Carries(hs[i], m, which[i]) {
      assert CarriesFragment(air1[|air0|..][which[i]], fd, m, which[i], junk);
      assert hs[i].buf[..hs[i].len] == Fragment(m, which[i], junk);
    }
  }

  /** What one hal_comm_read got: the room it offered and the bytes it was given. */
  datatype Got = Got(count: nat, data: seq<byte>)

  /** What a call reads from pipe fd, if it is a read and there is something. */
  function Gets(s: Link, a: Act, fd: nat): (out: seq<Got>)
    requires Shape(s) && CallOk(a.call) && EnvShape(a.env)
  {
    if a.call.Read? && a.call.fd == fd && Step(s, a.call, a.env).r > 0
    then [Got(a.call.count, Step(s, a.call, a.env).data)] else []
  }

  /** Everything the application reads from pipe fd along a run. */
  ghost function ReadsOf(s: Link, acts: seq<Act>, fd: nat): (out: seq<Got>)
    requires Shape(s) && RunOk(s, acts)
    decreases |acts|
  {
    if acts == [] then [] else Gets(s, acts[0], fd) + ReadsOf(Next(s, acts[0]), acts[1..], fd)
  }

  /** Each read got what was handed out, cut to its room. */
  ghost predicate Matches(got: seq<Got>, out: seq<seq<byte>>) {
    && |got| == |out|
    && forall x :: 0 <= x < |got| ==> got[x].data == out[x][..Min(got[x].count, |out[x]|)]
  }

  lemma {:induction false} FramesHandOutNothing(r: RxSlot, inputs: seq<Input>)
    requires InputsOk(inputs) && SlotOk(r) && forall x :: 0 <= x < |inputs| ==> inputs[x].Frame?
    ensures Handouts(r, inputs) == []
    decreases |inputs|
  {
    if inputs != [] {
      FramesHandOutNothing(r, inputs[..|inputs| - 1]);
    }
  }

  lemma {:induction false} DataInputsAreFrames(fs: seq<Heard>)
    requires forall i :: 0 <= i < |fs| ==> RawFrame(fs[i])
    ensures forall x :: 0 <= x < |DataInputs(fs)| ==> DataInputs(fs)[x].Frame?
    decreases |fs|
  {
    if fs != [] {
      DataInputsAreFrames(fs[..|fs| - 1]);
    }
  }

  lemma RunningHandsOutNothing(s: Link, e: Env, fd: nat)
    requires Shape(s) && EnvShape(e) && 1 <= fd <= CONNECTION_COUNTER && SlotOk(s.peers[fd - 1].rx)
    ensures Handouts(s.peers[fd - 1].rx, RunningInputs(s, e, fd)) == [] && NoReopen(RunningInputs(s, e, fd))
    ensures SlotOk(Running(s, e).peers[fd - 1].rx)
  {
    hide Running, SlotOk;
    RunningFolds(s, e, fd);
    FoldKeepsSlot(s.peers[fd - 1].rx, RunningInputs(s, e, fd));
    DataInputsAreFrames(e.rawIn);
    FramesHandOutNothing(s.peers[fd - 1].rx, RunningInputs(s, e, fd));
  }

  lemma {:induction false} OneHandout(r: RxSlot, i: Input)
    requires InputOk(i) && SlotOk(r)
    ensures InputsOk([i]) && Handouts(r, [i]) == HandedOut(r, i)
  {
    assert [i][..0] == [];
  }

  /** A call's own work hands out what it finds in the slot. */
  lemma CallHandsOut(s: Link, c: Call, e: Env, fd: nat)
    requires Shape(s) && CallOk(c) && 1 <= fd <= CONNECTION_COUNTER && SlotOk(s.peers[fd - 1].rx)
    ensures var o := Perform(s, c, e);
            var got := if c.Read? && c.fd == fd && o.r > 0 then [Got(c.count, o.data)] else [];
            Matches(got, Handouts(s.peers[fd - 1].rx, CallInputs(s, c, e, fd)))
  {
    var rx := s.peers[fd - 1].rx;
    OneHandout(rx, Drain);
    OneHandout(rx, Reopen);
    hide Handouts;
    if c.Read? && c.fd == fd {
      ReadFindsSlot(s, fd, c.count);
      hide ReadCall, SlotOk;
    } else {
      hide Perform, SlotOk;
      NoHandouts(rx);
    }
  }

  lemma ReadFindsSlot(s: Link, fd: nat, count: nat)
    requires Shape(s) && 1 <= fd <= CONNECTION_COUNTER && SlotOk(s.peers[fd - 1].rx)
    ensures var o, rx := ReadCall(s, fd, count), s.peers[fd - 1].rx;
            if count == 0 || rx.len == 0 then o.r < 0
            else o.r > 0 && HandedOut(rx, Drain) == [rx.buffer[..rx.len]]
                 && o.data == rx.buffer[..rx.len][..Min(count, rx.len)]
  {
  }

  lemma {:induction false} NoHandouts(r: RxSlot)
    requires SlotOk(r)
    ensures Handouts(r, []) == []
  {
  }

  lemma MatchesConcat(got: seq<Got>, out: seq<seq<byte>>, got2: seq<Got>, out2: seq<seq<byte>>)
    requires Matches(got, out) && Matches(got2, out2)
    ensures Matches(got + got2, out + out2)
  {
  }

  /** One call, background step included. */
  lemma ActHandsOut(s: Link, a: Act, fd: nat)
    requires Shape(s) && CallOk(a.call) && EnvShape(a.env) && 1 <= fd <= CONNECTION_COUNTER
    requires SlotOk(s.peers[fd - 1].rx)
    ensures Matches(Gets(s, a, fd), Handouts(s.peers[fd - 1].rx, ActInputs(s, a, fd)))
    ensures SlotOk(Next(s, a).peers[fd - 1].rx)
  {
    hide Running, Perform, SlotOk, Matches, Handouts, CallInputs, RunningInputs;
    var rx := s.peers[fd - 1].rx;
    ActFolds(s, a, fd);
    FoldKeepsSlot(rx, ActInputs(s, a, fd));
    if Runs(a.call) {
      var t := Running(s, a.env);
      RunningFolds(s, a.env, fd);
      RunningHandsOutNothing(s, a.env, fd);
      CallHandsOut(t, a.call, a.env, fd);
      HandoutsConcat(rx, RunningInputs(s, a.env, fd), CallInputs(t, a.call, a.env, fd));
      assert Handouts(rx, ActInputs(s, a, fd)) == Handouts(t.peers[fd - 1].rx, CallInputs(t, a.call, a.env, fd));
    } else {
      CallHandsOut(s, a.call, a.env, fd);
    }
  }

  /** A whole run: the application gets exactly what the reads among the slot's inputs find there. */
  lemma {:induction false} RunHandsOut(s: Link, acts: seq<Act>, fd: nat)
    requires Shape(s) && RunOk(s, acts) && 1 <= fd <= CONNECTION_COUNTER && SlotOk(s.peers[fd - 1].rx)
    ensures Matches(ReadsOf(s, acts, fd), Handouts(s.peers[fd - 1].rx, RunInputs(s, acts, fd)))
    decreases |acts|
  {
    if acts != [] {
      hide SlotOk, Matches, Handouts, ActInputs, Next, Gets;
      var t, rx := Next(s, acts[0]), s.peers[fd - 1].rx;
      ActHandsOut(s, acts[0], fd);
      ActFolds(s, acts[0], fd);
      RunHandsOut(t, acts[1..], fd);
      HandoutsConcat(rx, ActInputs(s, acts[0], fd), RunInputs(t, acts[1..], fd));
      MatchesConcat(Gets(s, acts[0], fd), Handouts(rx, ActInputs(s, acts[0], fd)),
                    ReadsOf(t, acts[1..], fd), Handouts(t.peers[fd - 1].rx, RunInputs(t, acts[1..], fd)));
    }
  }

  lemma ActReopensNothing(s: Link, a: Act, fd: nat)
    requires Shape(s) && CallOk(a.call) && EnvShape(a.env) && 1 <= fd <= CONNECTION_COUNTER
    requires s.peers[fd - 1].pipe != -1 && Next(s, a).peers[fd - 1].pipe != -1
    ensures NoReopen(ActInputs(s, a, fd))
  {
    hide Running, Perform;
    if Runs(a.call) {
      if Running(s, a.env).peers[fd - 1].pipe == -1 {
        Handshake.FreedStaysFree(s, a, fd);
      }
      DataInputsAreFrames(a.env.rawIn);
    }
  }

  /** While a pipe stays allocated its slot is not reset. */
  lemma {:induction false} StaysUnopened(s: Link, acts: seq<Act>, fd: nat)
    requires Shape(s) && RunOk(s, acts) && 1 <= fd <= CONNECTION_COUNTER && StaysAllocated(s, acts, fd)
    ensures NoReopen(RunInputs(s, acts, fd))
    decreases |acts|
  {
    hide ActInputs;
    if acts != [] {
      ActReopensNothing(s, acts[0], fd);
      StaysUnopened(Next(s, acts[0]), acts[1..], fd);
    }
  }

  /** The application has message m: every read that got something got it, and it waits if none did. */
  ghost predicate Delivered(m: seq<byte>, rx: RxSlot, got: seq<Got>, frames: nat) {
    && (forall x :: 0 <= x < |got| ==> got[x].data == m[..Min(got[x].count, |m|)])
    && (rx.len != 0 ==> Holds(rx, m))
    && var times := |got| + if rx.len != 0 then 1 else 0;
       1 <= times <= frames && (|m| > PW_MSG_SIZE ==> times == 1)
  }

  lemma ProgressDelivers(m: seq<byte>, rx: RxSlot, out: seq<seq<byte>>, got: seq<Got>, frames: nat)
    requires Message(m) && Progress(m, rx, out, FrameCount(m), frames) && Matches(got, out)
    ensures Delivered(m, rx, got, frames)
  {
  }

  /**
    * A message whose every frame is acknowledged is delivered. Its frames, heard one or more times each and
    * in order by a node with an empty slot, over any number of turns and whatever is called in the meantime,
    * reads of the very pipe included, while the pipe stays allocated: in the end the whole message waits or
    * has been given to exactly one hal_comm_read, and nothing else has been read. Only a message of a single
    * frame may be given out again, for a repeat heard after the read.
    */
  lemma {:induction false} AcknowledgedIsDelivered(a: Link, fd: nat, acked: nat, junk: byte,
                                b: Link, gd: nat, acts: seq<Act>, hs: seq<Heard>, which: seq<nat>)
    requires Shape(a) && 1 <= fd <= CONNECTION_COUNTER && Shape(b) && 1 <= gd <= CONNECTION_COUNTER
    requires Message(Pending(a, fd)) && a.peers[fd - 1].seqnumberTx == 0 && acked >= FrameCount(Pending(a, fd))
    requires AllArrive(a.hist.air, WriteRaw(a, fd, acked, junk).hist.air, hs, which)
    requires SlotOk(b.peers[gd - 1].rx) && b.peers[gd - 1].rx.len == 0
    requires RunOk(b, acts) && StaysAllocated(b, acts, gd) && FramesIn(RunInputs(b, acts, gd)) == hs
    ensures Delivered(Pending(a, fd), Run(b, acts).peers[gd - 1].rx, ReadsOf(b, acts, gd), |hs|)
  {
    hide WriteRaw, Run, RunInputs, ReadsOf, Delivered, SlotOk, Carries;
    var m, rx, ins := Pending(a, fd), b.peers[gd - 1].rx, RunInputs(b, acts, gd);
    WriteRawSendsFragments(a, fd, acked, junk);
    ArrivalsRepeatInOrder(m, a.hist.air, WriteRaw(a, fd, acked, junk).hist.air, fd, hs, which, junk);
    StaysUnopened(b, acts, gd);
    RunFolds(b, acts, gd);
    RunHandsOut(b, acts, gd);
    HandedOutWhole(rx, m, ins, which, FrameCount(m));
    ProgressDelivers(m, Fold(rx, ins), Handouts(rx, ins), ReadsOf(b, acts, gd), |hs|);
  }

  /** Frames put on the air between two moments that arrive, in order, each any number of times or not at all. */
  ghost predicate SomeArrive(air0: seq<Sent>, air1: seq<Sent>, hs: seq<Heard>, which: seq<nat>) {
    && air0 <= air1 && |which| == |hs| && Rising(which)
    && (forall i :: 0 <= i < |hs| ==>
          WellSized(hs[i]) && which[i] < |air1| - |air0|
          && hs[i].buf[..hs[i].len] == air1[|air0| + which[i]].bytes)
  }

  lemma ArrivalsAreFrames(m: seq<byte>, air0: seq<Sent>, air1: seq<Sent>, fd: nat, hs: seq<Heard>, which: seq<nat>,
                          junk: byte)
    requires Message(m) && SomeArrive(air0, air1, hs, which) && |air1| - |air0| <= FrameCount(m)
    requires forall i :: 0 <= i < |air1| - |air0| ==> CarriesFragment(air1[|air0|..][i], fd, m, i, junk)
    ensures FramesOf(m, hs, which) && Rising(which)
  {
    forall i | 0 <= i < |hs| ensures Carries(hs[i], m, which[i]) {
      assert CarriesFragment(air1[|air0|..][which[i]], fd, m, which[i], junk);
      assert hs[i].buf[..hs[i].len] == Fragment(m, which[i], junk);
    }
  }

  /**
    * Acknowledged or not, and whatever is lost on the way: a message reaches the application of a node with
    * a fresh slot exactly if each of its frames is heard. If one is not, nothing of the message is read.
    */
  lemma {:induction false} DeliveredIff(a: Link, fd: nat, acked: nat, junk: byte,
                                b: Link, gd: nat, acts: seq<Act>, hs: seq<Heard>, which: seq<nat>)
    requires Shape(a) && 1 <= fd <= CONNECTION_COUNTER && Shape(b) && 1 <= gd <= CONNECTION_COUNTER
    requires Message(Pending(a, fd)) && a.peers[fd - 1].seqnumberTx == 0
    requires SomeArrive(a.hist.air, WriteRaw(a, fd, acked, junk).hist.air, hs, which)
    requires SlotOk(b.peers[gd - 1].rx) && b.peers[gd - 1].rx.len == 0 && b.peers[gd - 1].rx.seqn == 0
    requires RunOk(b, acts) && StaysAllocated(b, acts, gd) && FramesIn(RunInputs(b, acts, gd)) == hs
    ensures var m, rx, got := Pending(a, fd), Run(b, acts).peers[gd - 1].rx, ReadsOf(b, acts, gd);
            if forall k :: 0 <= k < FrameCount(m) ==> k in which then Delivered(m, rx, got, |hs|)
            else rx.len == 0 && got == []
  {
    hide WriteRaw, Run, RunInputs, ReadsOf, Delivered, SlotOk, Carries;
    var m, rx, ins := Pending(a, fd), b.peers[gd - 1].rx, RunInputs(b, acts, gd);
    WriteRawSendsFragments(a, fd, acked, junk);
    ArrivalsAreFrames(m, a.hist.air, WriteRaw(a, fd, acked, junk).hist.air, fd, hs, which, junk);
    StaysUnopened(b, acts, gd);
    RunFolds(b, acts, gd);
    RunHandsOut(b, acts, gd);
    if k: nat :| k < FrameCount(m) && k !in which {
      MissingFrame(rx, m, ins, which, k);
    } else {
      NoneMissing(m, hs, which);
      HandedOutWhole(rx, m, ins, which, FrameCount(m));
      ProgressDelivers(m, Fold(rx, ins), Handouts(rx, ins), ReadsOf(b, acts, gd), |hs|);
    }
  }
}
