/** Bounded service: RAW steps go round the pipes, so an accepted message soon leaves its slot. */
module LinkService {
  import opened Bytes
  import opened LinkPdu
  import opened Reassembly
  import opened LinkSpec
  import opened LinkInvariants
  import opened LinkRuns

  /** The call runs the background step while the scheduler is in the RAW state. */
  predicate IsRawStep(s: Link, a: Act) {
    Runs(a.call) && s.sched.state == RAW
  }

  ghost function RawSteps(s: Link, acts: seq<Act>): (n: nat)
    requires Shape(s) && RunOk(s, acts)
    decreases |acts|
  {
    if acts == [] then 0
    else (if IsRawStep(s, acts[0]) then 1 else 0) + RawSteps(Next(s, acts[0]), acts[1..])
  }

  /** RAW steps until pipe fd is the one in turn. */
  function Turns(s: Link, fd: nat): (d: nat)
    requires 1 <= fd <= CONNECTION_COUNTER && 1 <= s.sched.sockIndex <= CONNECTION_COUNTER
    ensures d < CONNECTION_COUNTER && (d == 0 <==> s.sched.sockIndex == fd)
  {
    if fd >= s.sched.sockIndex then fd - s.sched.sockIndex
    else fd + CONNECTION_COUNTER - s.sched.sockIndex
  }

  /** Pipe fd is allocated in every state the run passes through. */
  ghost predicate StaysAllocated(s: Link, acts: seq<Act>, fd: nat)
    requires Shape(s) && RunOk(s, acts) && 1 <= fd <= CONNECTION_COUNTER
    decreases |acts|
  {
    s.peers[fd - 1].pipe != -1 && (acts != [] ==> StaysAllocated(Next(s, acts[0]), acts[1..], fd))
  }

  function Pending(s: Link, fd: nat): (m: seq<byte>)
    requires Shape(s) && 1 <= fd <= CONNECTION_COUNTER
  {
    var p := s.peers[fd - 1];
    p.bufferTx[..p.lenTx]
  }

  function NextTurn(i: nat): nat {
    if i == CONNECTION_COUNTER then 1 else i + 1
  }

  lemma CallLeavesTurn(s: Link, c: Call, e: Env)
    requires Shape(s) && CallOk(c)
    ensures Perform(s, c, e).s.sched.sockIndex == s.sched.sockIndex
  {
  }

  lemma RunningTurns(s: Link, e: Env)
    requires Inv(s) && EnvOk(e, s.hist.now)
    ensures Running(s, e).sched.sockIndex
            == if s.sched.state == RAW then NextTurn(s.sched.sockIndex) else s.sched.sockIndex
  {
    if s.sched.state == RAW {
      RawStepKeeps(s, e);
    } else {
      MgmtLeavesTurn(s, e);
    }
  }

  /** The scheduler turns by one pipe per RAW step, and by nothing else. */
  lemma SchedTurns(s: Link, a: Act)
    requires Inv(s) && CallOk(a.call) && EnvOk(a.env, s.hist.now)
    ensures Next(s, a).sched.sockIndex
            == if IsRawStep(s, a) then NextTurn(s.sched.sockIndex) else s.sched.sockIndex
  {
    if Runs(a.call) {
      RunningTurns(s, a.env);
      CallLeavesTurn(Running(s, a.env), a.call, a.env);
    } else {
      CallLeavesTurn(s, a.call, a.env);
    }
  }

  lemma AcceptLeavesPending(s: Link, t: nat, fd: nat)
    requires Shape(s) && 1 <= fd <= CONNECTION_COUNTER && s.peers[fd - 1].pipe != -1
    ensures AcceptFrom(s, t).s.peers[fd - 1] == s.peers[fd - 1]
  {
  }

  lemma SocketLeavesPending(s: Link, raw: bool, fd: nat)
    requires Shape(s) && 1 <= fd <= CONNECTION_COUNTER && s.peers[fd - 1].pipe != -1
    ensures SocketCall(s, raw).s.peers[fd - 1] == s.peers[fd - 1]
  {
  }

  lemma CloseLeavesPending(s: Link, to: int, junk: byte, fd: nat)
    requires Shape(s) && 1 <= fd <= CONNECTION_COUNTER
    ensures Pending(CloseCall(s, to, junk).s, fd) == Pending(s, fd)
  {
  }

  lemma ConnectLeavesPending(s: Link, to: int, dst: Mac, t: nat, fd: nat)
    requires Shape(s) && 1 <= fd <= CONNECTION_COUNTER && 1 <= to <= CONNECTION_COUNTER
    ensures Pending(ConnectTo(s, to, dst, t).s, fd) == Pending(s, fd)
  {
  }

  lemma ReadLeavesPending(s: Link, to: int, count: nat, fd: nat)
    requires Shape(s) && 1 <= fd <= CONNECTION_COUNTER
    ensures Pending(ReadCall(s, to, count).s, fd) == Pending(s, fd)
  {
  }

  /** A busy slot refuses a second message. */
  lemma WriteLeavesPending(s: Link, to: int, data: seq<byte>, fd: nat)
    requires Shape(s) && 1 <= fd <= CONNECTION_COUNTER && s.peers[fd - 1].lenTx != 0
    ensures Pending(WriteCall(s, to, data).s, fd) == Pending(s, fd)
    ensures to == fd && 1 <= |data| <= DATA_SIZE ==> WriteCall(s, to, data).r == EBUSY
  {
  }

  /** An interface call never touches a message waiting on a pipe that is and stays allocated. */
  lemma CallLeavesPending(s: Link, c: Call, e: Env, fd: nat)
    requires Shape(s) && CallOk(c) && 1 <= fd <= CONNECTION_COUNTER
    requires s.peers[fd - 1].pipe != -1 && s.peers[fd - 1].lenTx != 0
    ensures Pending(Perform(s, c, e).s, fd) == Pending(s, fd)
  {
    match c
    case AcceptCall => AcceptLeavesPending(s, e.t5, fd);
    case Socket(raw) => SocketLeavesPending(s, raw, fd);
    case Write(_, data) => WriteLeavesPending(s, c.fd, data, fd);
    case Close(_) => CloseLeavesPending(s, c.fd, e.junk, fd);
    case Connect(_, dst) => ConnectLeavesPending(s, c.fd, dst, e.t5, fd);
    case Read(_, count) => ReadLeavesPending(s, c.fd, count, fd);
    case Listen =>
  }

  lemma StepLeavesPending(s: Link, a: Act, fd: nat)
    requires Shape(s) && CallOk(a.call) && EnvShape(a.env) && 1 <= fd <= CONNECTION_COUNTER
    requires s.peers[fd - 1].pipe != -1 && s.peers[fd - 1].lenTx != 0
    requires !(IsRawStep(s, a) && s.sched.sockIndex == fd)
    ensures Pending(Next(s, a), fd) == Pending(s, fd)
  {
    if Runs(a.call) {
      if s.sched.state != RAW {
        OnlyRawTouchesPeers(s, a.env);
      }
      CallLeavesPending(Running(s, a.env), a.call, a.env, fd);
    } else {
      CallLeavesPending(s, a.call, a.env, fd);
    }
  }

  /** The step at which pipe fd, in turn, sends or drops message m and empties its slot. */
  ghost predicate ServedAt(s: Link, a: Act, fd: nat, m: seq<byte>)
    requires Shape(s) && CallOk(a.call) && EnvShape(a.env) && 1 <= fd <= CONNECTION_COUNTER
  {
    var t := Running(s, a.env);
    && IsRawStep(s, a) && s.sched.sockIndex == fd && Pending(s, fd) == m
    && t.peers[fd - 1].lenTx == 0 && t.peers[fd - 1].seqnumberTx == 0
    && (exists frames :: t.hist.tries == s.hist.tries + [Try(fd, m, frames)])
  }

  lemma {:induction false} ReadRawLeavesTx(s: Link, fd: nat, fs: seq<Heard>, junk: byte)
    requires Shape(s) && 1 <= fd <= CONNECTION_COUNTER
    requires forall i :: 0 <= i < |fs| ==> RawFrame(fs[i])
    ensures var t := ReadRaw(s, fd, fs, junk);
            Pending(t, fd) == Pending(s, fd) && t.hist.tries == s.hist.tries
    decreases |fs|
  {
    if fs != [] {
      var init := fs[..|fs| - 1];
      ReadRawLeavesTx(s, fd, init, junk);
      FrameLeavesTx(ReadRaw(s, fd, init, junk), fd, fs[|fs| - 1], junk);
    }
  }

  lemma FrameLeavesTx(s: Link, fd: nat, f: Heard, junk: byte)
    requires Shape(s) && 1 <= fd <= CONNECTION_COUNTER && RawFrame(f)
    ensures var t := HandleFrame(s, fd, f, junk);
            Pending(t, fd) == Pending(s, fd) && t.hist.tries == s.hist.tries
  {
  }

  lemma WriteRawTries(s: Link, fd: nat, acked: nat, junk: byte)
    requires Shape(s) && 1 <= fd <= CONNECTION_COUNTER && s.peers[fd - 1].lenTx != 0
    ensures var m := Pending(s, fd);
            WriteRaw(s, fd, acked, junk).hist.tries
            == s.hist.tries + [Try(fd, m, Min(acked + 1, FrameCount(m)))]
  {
    SendFromFreesNothing(s, fd, s.peers[fd - 1].lenTx, 0, acked, junk);
  }

  lemma SuperviseLeavesTries(s: Link, fd: nat, t: nat, junk: byte)
    requires Shape(s) && 1 <= fd <= CONNECTION_COUNTER && s.peers[fd - 1].pipe != -1
    ensures Supervise(s, fd, t, junk).hist.tries == s.hist.tries
  {
  }

  lemma TrafficTries(s: Link, fd: nat, e: Env)
    requires Shape(s) && EnvShape(e) && 1 <= fd <= CONNECTION_COUNTER && s.peers[fd - 1].lenTx != 0
    ensures var m := Pending(s, fd);
            Traffic(s, fd, e).hist.tries == s.hist.tries + [Try(fd, m, Min(e.acked + 1, FrameCount(m)))]
  {
    ReadRawLeavesTx(s, fd, e.rawIn, e.junk);
    var t := ReadRaw(s, fd, e.rawIn, e.junk);
    assert |Pending(t, fd)| == t.peers[fd - 1].lenTx && |Pending(s, fd)| == s.peers[fd - 1].lenTx;
    WriteRawTries(t, fd, e.acked, e.junk);
  }

  lemma TurnServes(s: Link, a: Act, fd: nat)
    requires Inv(s) && CallOk(a.call) && EnvOk(a.env, s.hist.now) && 1 <= fd <= CONNECTION_COUNTER
    requires IsRawStep(s, a) && s.sched.sockIndex == fd
    requires s.peers[fd - 1].pipe != -1 && s.peers[fd - 1].lenTx != 0
    ensures ServedAt(s, a, fd, Pending(s, fd))
  {
    hide Facts, PeerAlive, SlotOk, WaitingGiven, RequestsFrom, Traffic, Supervise;
    var e := a.env;
    RawStepKeeps(s, e);
    RunningKeeps(s, e);
    EntryFits(Running(s, e), fd);
    var s1 := RawExit(s, e);
    TrafficTries(s1, fd, e);
    SuperviseLeavesTries(Stamp(Traffic(s1, fd, e), e.t3), fd, e.t4, e.junk);
  }

  /** Some step of the run serves pipe fd. */
  ghost predicate ServedDuring(s: Link, acts: seq<Act>, fd: nat, m: seq<byte>)
    requires Shape(s) && RunOk(s, acts) && 1 <= fd <= CONNECTION_COUNTER
    decreases |acts|
  {
    acts != [] && (ServedAt(s, acts[0], fd, m) || ServedDuring(Next(s, acts[0]), acts[1..], fd, m))
  }

  /** A step that does not serve pipe fd brings its turn nearer and leaves its message alone. */
  lemma NotYetServed(s: Link, a: Act, fd: nat)
    requires Inv(s) && CallOk(a.call) && EnvOk(a.env, s.hist.now) && 1 <= fd <= CONNECTION_COUNTER
    requires s.peers[fd - 1].pipe != -1 && s.peers[fd - 1].lenTx != 0
    requires !(IsRawStep(s, a) && s.sched.sockIndex == fd)
    ensures var t := Next(s, a);
            && Inv(t) && Pending(t, fd) == Pending(s, fd) && t.peers[fd - 1].lenTx != 0
            && Turns(t, fd) == Turns(s, fd) - if IsRawStep(s, a) then 1 else 0
  {
    hide Facts, Running, Perform;
    StepLeavesPending(s, a, fd);
    SchedTurns(s, a);
    StepKeeps(s, a.call, a.env);
    assert |Pending(Next(s, a), fd)| == |Pending(s, fd)|;
  }

  lemma {:induction false} ServedInTurn(s: Link, acts: seq<Act>, fd: nat)
    requires Inv(s) && RunOk(s, acts) && 1 <= fd <= CONNECTION_COUNTER
    requires StaysAllocated(s, acts, fd) && s.peers[fd - 1].lenTx != 0
    requires RawSteps(s, acts) > Turns(s, fd)
    ensures ServedDuring(s, acts, fd, Pending(s, fd))
    decreases |acts|
  {
    if IsRawStep(s, acts[0]) && s.sched.sockIndex == fd {
      TurnServes(s, acts[0], fd);
    } else {
      NotYetServed(s, acts[0], fd);
      ServedInTurn(Next(s, acts[0]), acts[1..], fd);
    }
  }

  /**
    * A message waiting on a pipe that stays allocated leaves its slot within five RAW steps, whatever
    * MGMT steps and other calls lie between: the very message is handed to write_raw, which sends it
    * whole or drops it, and slot and sequence number are back at 0.
    */
  lemma {:induction false} BoundedService(s: Link, acts: seq<Act>, fd: nat)
    requires Reachable(s) && RunOk(s, acts) && 1 <= fd <= CONNECTION_COUNTER
    requires StaysAllocated(s, acts, fd) && s.peers[fd - 1].lenTx != 0
    requires RawSteps(s, acts) >= CONNECTION_COUNTER
    ensures ServedDuring(s, acts, fd, Pending(s, fd))
  {
    ReachableInv(s);
    ServedInTurn(s, acts, fd);
  }

  /** How often pipe fd is the one served along a run. */
  ghost function TimesInTurn(s: Link, acts: seq<Act>, fd: nat): (n: nat)
    requires Shape(s) && RunOk(s, acts)
    decreases |acts|
  {
    if acts == [] then 0
    else (if IsRawStep(s, acts[0]) && s.sched.sockIndex == fd then 1 else 0)
         + TimesInTurn(Next(s, acts[0]), acts[1..], fd)
  }

  lemma OneTurn(s: Link, a: Act, fd: nat)
    requires Inv(s) && CallOk(a.call) && EnvOk(a.env, s.hist.now) && 1 <= fd <= CONNECTION_COUNTER
    ensures var t := Next(s, a);
            && Inv(t)
            && Turns(t, fd) == if !IsRawStep(s, a) then Turns(s, fd)
                               else if Turns(s, fd) == 0 then CONNECTION_COUNTER - 1 else Turns(s, fd) - 1
  {
    SchedTurns(s, a);
    StepKeeps(s, a.call, a.env);
  }

  lemma {:induction false} InTurnCount(s: Link, acts: seq<Act>, fd: nat)
    requires Inv(s) && RunOk(s, acts) && 1 <= fd <= CONNECTION_COUNTER
    requires RawSteps(s, acts) <= CONNECTION_COUNTER
    ensures TimesInTurn(s, acts, fd) == if RawSteps(s, acts) > Turns(s, fd) then 1 else 0
    decreases |acts|
  {
    if acts != [] {
      OneTurn(s, acts[0], fd);
      InTurnCount(Next(s, acts[0]), acts[1..], fd);
    }
  }

  /** Any stretch of five RAW steps has each pipe in turn exactly once. */
  lemma {:induction false} EachPipeOncePerRound(s: Link, acts: seq<Act>, fd: nat)
    requires Reachable(s) && RunOk(s, acts) && 1 <= fd <= CONNECTION_COUNTER
    requires RawSteps(s, acts) == CONNECTION_COUNTER
    ensures TimesInTurn(s, acts, fd) == 1
  {
    ReachableInv(s);
    InTurnCount(s, acts, fd);
  }
}
