/**
  * The radio driver behaves like a plain map from open pipes to five-byte addresses, although pipes 2
  * to 5 store one byte each and pipe 0 is overwritten during every acknowledged transmission.
  */
module RadioRefinement {
  import opened Bits
  import opened Bytes
  import opened Nrf24l01
  import opened PhyDriverNrf24

  type PipeMap = map<nat, Addr>

  datatype Op = Control(cmd: Cmd) | Send(pipe: nat)

  function Apply(s: Radio, op: Op): (t: Radio)
    requires Initialised(s)
    ensures Initialised(t)
  {
    match op
    case Control(cmd) => Ioctl(s, cmd)
    case Send(p) => Write(s, p)
  }

  /** The plain map: opening an open pipe changes nothing, transmitting changes nothing. */
  function ApplyMap(m: PipeMap, op: Op): (r: PipeMap) {
    match op
    case Control(SetPipe(p, a)) => if p > PIPE_MAX || p in m then m else m[p := a]
    case Control(ResetPipe(p)) => if p < 0 then m else m - {p as nat}
    case _ => m
  }

  ghost predicate Refines(s: Radio, m: PipeMap) {
    && Initialised(s)
    && (forall p :: p in m ==> p <= PIPE_MAX)
    && (forall p :: 0 <= p <= PIPE_MAX ==> (s.enRxAddr[p] <==> p in m))
    && (s.pipe0Open <==> 0 in m)
    && (forall p :: p in m ==> PipeAddress(s, p) == m[p])
    && (0 in m ==> s.pipe0Address == m[0])
  }

  /** What a caller has to check before opening a data pipe: bytes 1 to 4 agree with every open data pipe. */
  predicate SameTail(m: PipeMap, op: Op) {
    match op
    case Control(SetPipe(p, a)) =>
      1 <= p <= PIPE_MAX && p !in m ==> forall q :: q in m && 1 <= q ==> m[q][1..] == a[1..]
    case _ => true
  }

  lemma PowerOnRefines(regs: Radio, txPower: byte)
    requires |regs.rxLow| == 4 && !regs.pipe0Open
    ensures Refines(Init(regs, txPower), map[])
  {
  }

  /** set_prx undoes everything set_ptx did to reception. */
  lemma TransmissionInvisible(s: Radio, m: PipeMap, p: nat)
    requires Refines(s, m)
    ensures Refines(Write(s, p), m)
    ensures Write(s, p).ce && Write(s, p).primRx
    ensures Write(s, p).enRxAddr == s.enRxAddr
    ensures Write(s, p).pipe0Open ==> Write(s, p).rxP0 == Write(s, p).pipe0Address == s.rxP0
    ensures Write(s, p).rxP1 == s.rxP1 && Write(s, p).rxLow == s.rxLow
    ensures (Write(s, p).rfCh, Write(s, p).enAA) == (s.rfCh, s.enAA)
  {
    var t := Write(s, p);
    assert t.enRxAddr == s.enRxAddr;
    forall q | q in m
      ensures PipeAddress(t, q) == m[q]
    {
      assert PipeAddress(s, q) == m[q];
    }
  }

  /**
    * The frame goes out to the address the pipe was opened with; with auto-ack on, pipe 0 listens on
    * that very address for the acknowledgement.
    */
  lemma SendLoadsPipeAddress(s: Radio, m: PipeMap, p: nat)
    requires Refines(s, m) && p in m
    ensures SetPtx(s, p).txAddr == m[p]
    ensures !SetPtx(s, p).ce && !SetPtx(s, p).primRx
    ensures s.enAA != NO_PIPES ==> SetPtx(s, p).rxP0 == m[p] && SetPtx(s, p).enRxAddr[0]
                                   && SetPtx(s, p).retrArc == ARC
    ensures s.enAA == NO_PIPES ==> SetPtx(s, p).retrArc == 0 && SetPtx(s, p).rxP0 == s.rxP0
  {
  }

  /** Pipe q still has its address after pipe p is opened. */
  lemma OpenKeepsAddress(s: Radio, m: PipeMap, p: nat, a: Addr, q: nat)
    requires Refines(s, m) && SameTail(m, Control(SetPipe(p, a)))
    requires p <= PIPE_MAX && p !in m && q in m
    ensures PipeAddress(Ioctl(s, SetPipe(p, a)), q) == m[q]
  {
    assert PipeAddress(s, q) == m[q];
    if 1 <= p && 2 <= q {
      assert m[q][1..] == a[1..];
      assert PipeAddress(s, q)[1..] == s.rxP1[1..];
    }
  }

  lemma OpenSetsAddress(s: Radio, m: PipeMap, p: nat, a: Addr)
    requires Refines(s, m) && SameTail(m, Control(SetPipe(p, a)))
    requires p <= PIPE_MAX && p !in m
    ensures PipeAddress(Ioctl(s, SetPipe(p, a)), p) == a
  {
    if 2 <= p {
      if 1 in m {
        assert m[1][1..] == a[1..] && PipeAddress(s, 1) == m[1];
      }
      assert [a[0]] + a[1..] == a;
    }
  }

  lemma OpenSetsOneBit(s: Radio, m: PipeMap, p: nat, a: Addr)
    requires Refines(s, m) && p <= PIPE_MAX && p !in m
    ensures var t := Ioctl(s, SetPipe(p, a));
            && t.enRxAddr == s.enRxAddr[p := true]
            && t.pipe0Open == (s.pipe0Open || p == 0)
            && t.pipe0Address == if p == 0 then a else s.pipe0Address
  {
  }

  lemma OpenRefines(s: Radio, m: PipeMap, p: nat, a: Addr)
    requires Refines(s, m) && SameTail(m, Control(SetPipe(p, a)))
    ensures Refines(Ioctl(s, SetPipe(p, a)), ApplyMap(m, Control(SetPipe(p, a))))
  {
    if p > PIPE_MAX || p in m {
      OtherControlRefines(s, m, Unsupported);
      assert Ioctl(s, SetPipe(p, a)) == Ioctl(s, Unsupported);
    } else {
      forall q | q in m
        ensures PipeAddress(Ioctl(s, SetPipe(p, a)), q) == m[q]
      {
        OpenKeepsAddress(s, m, p, a, q);
      }
      OpenSetsAddress(s, m, p, a);
      OpenSetsOneBit(s, m, p, a);
    }
  }

  lemma CloseRefines(s: Radio, m: PipeMap, p: int)
    requires Refines(s, m)
    ensures Refines(Ioctl(s, ResetPipe(p)), ApplyMap(m, Control(ResetPipe(p))))
  {
    var t, n := Ioctl(s, ResetPipe(p)), ApplyMap(m, Control(ResetPipe(p)));
    assert t.enRxAddr == if 0 <= p <= PIPE_MAX then s.enRxAddr[p := false] else s.enRxAddr;
    forall q | q in n
      ensures PipeAddress(t, q) == n[q]
    {
      assert PipeAddress(s, q) == m[q];
    }
  }

  lemma OtherControlRefines(s: Radio, m: PipeMap, cmd: Cmd)
    requires Refines(s, m) && !cmd.SetPipe? && !cmd.ResetPipe?
    ensures Refines(Ioctl(s, cmd), m)
  {
    var t := Ioctl(s, cmd);
    forall q | q in m
      ensures PipeAddress(t, q) == m[q]
    {
      assert PipeAddress(s, q) == m[q];
    }
  }

  lemma OpRefines(s: Radio, m: PipeMap, op: Op)
    requires Refines(s, m) && SameTail(m, op)
    ensures Refines(Apply(s, op), ApplyMap(m, op))
  {
    match op
    case Control(SetPipe(p, a)) => OpenRefines(s, m, p, a);
    case Control(ResetPipe(p)) => CloseRefines(s, m, p);
    case Control(cmd) => OtherControlRefines(s, m, cmd);
    case Send(p) => TransmissionInvisible(s, m, p);
  }

  /** Opening a pipe keeps the map meaning exactly when the address tails agree. */
  lemma OpenKeepsMapIff(s: Radio, m: PipeMap, p: nat, a: Addr)
    requires Refines(s, m)
    ensures Refines(Ioctl(s, SetPipe(p, a)), ApplyMap(m, Control(SetPipe(p, a))))
            <==> SameTail(m, Control(SetPipe(p, a)))
  {
    var op := Control(SetPipe(p, a));
    var t, n := Ioctl(s, SetPipe(p, a)), ApplyMap(m, op);
    if SameTail(m, op) {
      OpRefines(s, m, op);
    } else {
      var q :| q in m && 1 <= q && m[q][1..] != a[1..];
      assert PipeAddress(s, q)[1..] == s.rxP1[1..];
      assert n[q] == m[q] && n[p] == a;
      assert PipeAddress(t, q)[1..] == t.rxP1[1..];
      assert PipeAddress(t, p)[1..] == t.rxP1[1..];
    }
  }

  /** Two masters' addresses on one radio: the second open redirects the first pipe's traffic. */
  lemma MixedTailsExample(s: Radio)
    requires Refines(s, map[2 := [2, 9, 9, 9, 9]])
    ensures var t := Ioctl(s, SetPipe(3, [3, 7, 7, 7, 7]));
            SetPtx(t, 2).txAddr == [2, 7, 7, 7, 7]
  {
    assert PipeAddress(s, 2)[0] == 2;
  }

  function Run(s: Radio, ops: seq<Op>): (t: Radio)
    requires Initialised(s)
    ensures Initialised(t)
    decreases |ops|
  {
    if ops == [] then s else Apply(Run(s, ops[..|ops| - 1]), ops[|ops| - 1])
  }

  function RunMap(m: PipeMap, ops: seq<Op>): (r: PipeMap)
    decreases |ops|
  {
    if ops == [] then m else ApplyMap(RunMap(m, ops[..|ops| - 1]), ops[|ops| - 1])
  }

  /** Every open along the run agrees on bytes 1 to 4 with the data pipes open at that moment. */
  ghost predicate SharedTails(m: PipeMap, ops: seq<Op>) {
    forall k :: 0 <= k < |ops| ==> SameTail(RunMap(m, ops[..k]), ops[k])
  }

  lemma {:induction false} RunRefines(s: Radio, m: PipeMap, ops: seq<Op>)
    requires Refines(s, m) && SharedTails(m, ops)
    ensures Refines(Run(s, ops), RunMap(m, ops))
    decreases |ops|
  {
    if ops != [] {
      var init := ops[..|ops| - 1];
      forall k | 0 <= k < |init|
        ensures SameTail(RunMap(m, init[..k]), init[k])
      {
        assert init[..k] == ops[..k];
      }
      RunRefines(s, m, init);
      OpRefines(Run(s, init), RunMap(m, init), ops[|ops| - 1]);
    }
  }

  /**
    * Over a whole session from power-on, whatever was opened, closed, retuned and sent before, a frame
    * on an open pipe goes to exactly the address last used to open it, and afterwards the radio
    * receives as if nothing had been sent.
    */
  lemma {:induction false} SessionAddresses(regs: Radio, txPower: byte, ops: seq<Op>, p: nat)
    requires |regs.rxLow| == 4 && !regs.pipe0Open
    requires SharedTails(map[], ops)
    ensures var s := Run(Init(regs, txPower), ops);
            var m := RunMap(map[], ops);
            && (p in m ==> SetPtx(s, p).txAddr == m[p])
            && Refines(Write(s, p), m) && Write(s, p).ce && Write(s, p).primRx
            && Write(s, p).enRxAddr == s.enRxAddr
  {
    PowerOnRefines(regs, txPower);
    RunRefines(Init(regs, txPower), map[], ops);
    var s, m := Run(Init(regs, txPower), ops), RunMap(map[], ops);
    TransmissionInvisible(s, m, p);
    if p in m {
      SendLoadsPipeAddress(s, m, p);
    }
  }

  /** Every register-setting command ends in receive mode with pipe 0 as the driver remembers it. */
  lemma ControlEndsReceiving(s: Radio, m: PipeMap, cmd: Cmd)
    requires Refines(s, m) && !cmd.SetStandby?
    ensures var t := Ioctl(s, cmd);
            && t.ce && t.primRx && (t.enRxAddr[0] <==> t.pipe0Open)
            && (t.pipe0Open ==> t.rxP0 == t.pipe0Address)
  {
    if 0 in m {
      assert PipeAddress(s, 0) == m[0];
    }
  }

  /**
    * With auto-ack on a frame is repeated up to fifteen times, with a delay that differs from pipe to pipe;
    * without it there is one attempt.
    */
  lemma RetriesStaggered(s: Radio, p: nat, q: nat)
    requires Initialised(s) && p <= PIPE_MAX && q <= PIPE_MAX
    ensures var a, b := SetPtx(s, p), SetPtx(s, q);
            if s.enAA != NO_PIPES then a.retrArc == 15 && a.retrArd >= 1 && (a.retrArd == b.retrArd <==> p == q)
            else a.retrArc == 0 && a.retrArd == 0
  {
  }

  /** A channel from 10 to 116 is selected, with auto-ack on all pipes or none; any other changes neither. */
  lemma ChannelSelected(s: Radio, ch: byte, ack: bool)
    requires Initialised(s)
    ensures var t := Ioctl(s, SetCh(ch, ack));
            if 10 <= ch <= 116 then t.rfCh == ch && t.enAA == (if ack then ALL_PIPES else NO_PIPES)
            else t.rfCh == s.rfCh && t.enAA == s.enAA
  {
  }

  /** Powered up, 1 Mbps, five-byte addresses, this transmit power. */
  predicate Configured(s: Radio, power: nat) {
    s.pwrUp && !s.drLow && !s.drHigh && s.aw == 3 && s.rfPwr == power
  }

  lemma OpKeepsConfig(s: Radio, op: Op, power: nat)
    requires Initialised(s) && Configured(s, power)
    ensures Configured(Apply(s, op), power)
  {
  }

  /** What power-up programs stays programmed, whatever is opened, closed, retuned and sent. */
  lemma {:induction false} SessionConfig(regs: Radio, txPower: byte, ops: seq<Op>)
    requires |regs.rxLow| == 4
    ensures Configured(Run(Init(regs, txPower), ops), txPower % 4)
    decreases |ops|
  {
    if ops != [] {
      SessionConfig(regs, txPower, ops[..|ops| - 1]);
      OpKeepsConfig(Run(Init(regs, txPower), ops[..|ops| - 1]), ops[|ops| - 1], txPower % 4);
    }
  }
}
