/** The presence bursts of a listening node over whole runs: when it speaks, and that it is quiet in between. */
module LinkPresence {
  import opened Bytes
  import opened HalTime
  import opened Nrf24l01
  import opened LinkPdu
  import opened LinkSpec
  import opened LinkInvariants
  import opened LinkRuns
  import opened LinkFrames

  /** A step of the background work in which a listening node is on the management channel. */
  predicate PresenceTurn(s: Link, a: Act) {
    Runs(a.call) && s.sched.state == MGMT && s.listen
  }

  const ALL_BUT_PRESENCE: set<Kind> := {ConnectFrame, DataFrame, KeepaliveReq, KeepaliveRsp, DisconnectFrame}

  /** From s to t no presence frame went out. */
  ghost predicate NoneAnnounced(s: Link, t: Link) {
    SendsOnly(s, t, ALL_BUT_PRESENCE)
  }

  predicate IsPresence(f: Sent, mac: Mac) {
    f.kind == PresenceFrame && f.pipe == 0 && |f.bytes| >= 9 && f.bytes[1..9] == mac && f.bytes[9..] == THING_NAME
  }

  /** From s to t the node told its address and name. */
  ghost predicate Announced(s: Link, t: Link) {
    s.hist.air <= t.hist.air && exists k :: |s.hist.air| <= k < |t.hist.air| && IsPresence(t.hist.air[k], s.mac)
  }

  /** When the last burst window began. */
  ghost predicate WindowAt(s: Link, w: nat) {
    s.hist.windows != [] && s.hist.windows[|s.hist.windows| - 1] == w
  }

  lemma WindowClock(s: Link, w: nat)
    requires Inv(s) && WindowAt(s, w)
    ensures s.bcast.start == Clock(w) && w <= s.hist.now
  {
  }

  // --- one turn ---

  /** The exchange of frames before the presence work. */
  lemma ExchangeLeavesBcast(s: Link, e: Env)
    requires Shape(s) && EnvShape(e)
    ensures var t := WriteMgmt(ReadMgmt(s, e.mgmtIn), e.ackMgmt);
            && t.bcast == s.bcast && t.listen == s.listen && t.hist.windows == s.hist.windows && t.mac == s.mac
  {
  }

  /** What a presence turn amounts to. */
  lemma TurnOfPresence(s: Link, e: Env) returns (u: Link)
    requires Shape(s) && EnvShape(e) && s.sched.state == MGMT && s.listen
    ensures Shape(u) && u.bcast == s.bcast && u.hist.windows == s.hist.windows && u.mac == s.mac
    ensures SendsOnly(s, u, {ConnectFrame})
    ensures var v, t := PresenceConnect(u, e), Running(s, e);
            && t.bcast == v.bcast && t.hist.windows == v.hist.windows && t.hist.air == v.hist.air && t.radio == v.radio
  {
    u := WriteMgmt(ReadMgmt(s, e.mgmtIn), e.ackMgmt);
    ExchangeLeavesBcast(s, e);
    ExchangeSends(s, e);
    hide ReadMgmt, WriteMgmt, PresenceConnect, LeaveMgmt, SendsOnly;
  }

  lemma NoneThrough(s: Link, u: Link, t: Link)
    requires SendsOnly(s, u, {ConnectFrame}) && t.hist.air == u.hist.air
    ensures NoneAnnounced(s, t)
  {
  }

  /**
    * Within the burst window, five milliseconds long, nothing is sent and the node waits; when it is over
    * the node goes to standby.
    */
  lemma WindowTurn(s: Link, e: Env, w: nat)
    requires Inv(s) && EnvOk(e, s.hist.now) && s.sched.state == MGMT && s.listen
    requires s.bcast.state == BURST_WINDOW && WindowAt(s, w) && e.t2 < w + TWO32
    ensures var t := Running(s, e);
            && NoneAnnounced(s, t) && t.hist.windows == s.hist.windows
            && (e.t1 >= w + 6 ==> t.bcast.state == STANDBY)
            && (e.t2 < w + 5 ==> t.bcast.state == BURST_WINDOW)
            && (e.t1 < w + 5 && e.t2 >= w + 6 ==> t.bcast.state == PRESENCE)
  {
    WindowClock(s, w);
    hide Facts, Running;
    var u := TurnOfPresence(s, e);
    TimeoutExact(w, e.t1, 5);
    TimeoutExact(w, e.t2, 5);
    hide HalTimeout;
    NoneThrough(s, u, Running(s, e));
  }

  /** In standby the radio is switched off, and the wait begins. */
  lemma StandbyTurn(s: Link, e: Env)
    requires Shape(s) && EnvShape(e) && s.sched.state == MGMT && s.listen && s.bcast.state == STANDBY
    ensures var t := Running(s, e);
            && NoneAnnounced(s, t) && t.hist.windows == s.hist.windows
            && t.bcast.state == TIMEOUT_INTERVAL && !t.radio.ce
  {
    hide Running;
    var u := TurnOfPresence(s, e);
    NoneThrough(s, u, Running(s, e));
  }

  /** The wait lasts until 60 ms after the window began. */
  lemma WaitTurn(s: Link, e: Env, w: nat)
    requires Inv(s) && EnvOk(e, s.hist.now) && s.sched.state == MGMT && s.listen
    requires s.bcast.state == TIMEOUT_INTERVAL && WindowAt(s, w) && e.t1 < w + TWO32
    ensures var t := Running(s, e);
            && NoneAnnounced(s, t) && t.hist.windows == s.hist.windows && t.bcast.previous == TIMEOUT_INTERVAL
            && (e.t1 < w + 60 ==> t.bcast.state == TIMEOUT_INTERVAL)
            && (e.t1 >= w + 61 ==> t.bcast.state == PRESENCE)
  {
    WindowClock(s, w);
    hide Facts, Running;
    var u := TurnOfPresence(s, e);
    TimeoutExact(w, e.t1, 60);
    hide HalTimeout;
    NoneThrough(s, u, Running(s, e));
  }

  lemma PresenceBytes(mac: Mac, junk: byte)
    ensures var f := PresencePdu(mac, THING_NAME, junk); f[1..9] == mac && f[9..] == THING_NAME
  {
    assert THING_NAME[..Min(|THING_NAME|, MTU - 9)] == THING_NAME;
  }

  /**
    * A node with an address announces itself; acknowledged, it waits a window long, which is a new one if
    * the wait was over, and otherwise it announces itself again at the next turn.
    */
  lemma SpeakTurn(s: Link, e: Env)
    requires Shape(s) && EnvShape(e) && s.sched.state == MGMT && s.listen && s.bcast.state == PRESENCE
    ensures var t, begins := Running(s, e), s.bcast.previous == TIMEOUT_INTERVAL;
            if s.mac == NO_MAC then NoneAnnounced(s, t) && t.bcast == s.bcast && t.hist.windows == s.hist.windows
            else
              && Announced(s, t)
              && t.bcast.state == (if e.ackPresence then BURST_WINDOW else PRESENCE)
              && t.hist.windows == s.hist.windows + (if e.ackPresence && begins then [e.t1] else [])
  {
    hide Running;
    var u := TurnOfPresence(s, e);
    if s.mac == NO_MAC {
      NoneThrough(s, u, Running(s, e));
    } else {
      PresenceBytes(s.mac, e.junk);
      hide PresencePdu;
      assert IsPresence(Running(s, e).hist.air[|u.hist.air|], s.mac);
    }
  }

  // --- everything else leaves the bursts alone ---

  lemma RawLeavesBcast(s: Link, e: Env)
    requires Inv(s) && EnvOk(e, s.hist.now) && s.sched.state == RAW
    ensures RawStep(s, e).bcast == s.bcast && RawStep(s, e).hist.windows == s.hist.windows
    ensures RawStep(s, e).listen == s.listen
  {
    hide Facts, Traffic, Supervise, LeaveRaw;
    RawExitKeeps(s, e);
    var s1 := RawExit(s, e);
    if s.peers[s.sched.sockIndex - 1].pipe != -1 {
      TrafficKeeps(s1, s.sched.sockIndex, e);
      SuperviseLeavesBcast(Stamp(Traffic(s1, s.sched.sockIndex, e), e.t3), s.sched.sockIndex, e.t4, e.junk);
    }
  }

  lemma SuperviseLeavesBcast(s: Link, fd: nat, t: nat, junk: byte)
    requires Shape(s) && 1 <= fd <= CONNECTION_COUNTER && s.peers[fd - 1].pipe != -1
    ensures var v := Supervise(s, fd, t, junk);
            v.bcast == s.bcast && v.hist.windows == s.hist.windows && v.listen == s.listen
  {
  }

  lemma QuietMgmtLeavesBcast(s: Link, e: Env)
    requires Shape(s) && EnvShape(e) && !s.listen
    ensures var t := MgmtStep(s, e);
            t.bcast == s.bcast && t.hist.windows == s.hist.windows && t.listen == s.listen
  {
    hide ReadMgmt, WriteMgmt, LeaveMgmt;
    ExchangeLeavesBcast(s, e);
  }

  lemma RunningLeavesBcast(s: Link, e: Env)
    requires Inv(s) && EnvOk(e, s.hist.now) && !(s.sched.state == MGMT && s.listen)
    ensures var t := Running(s, e);
            && t.bcast == s.bcast && t.hist.windows == s.hist.windows && t.listen == s.listen && NoneAnnounced(s, t)
  {
    RunningSends(s, e);
    hide Facts, RawStep, MgmtStep;
    SendsWider(s, Running(s, e), MaySend(s), ALL_BUT_PRESENCE);
    match s.sched.state
    case RAW => RawLeavesBcast(s, e);
    case MGMT => QuietMgmtLeavesBcast(s, e);
    case _ =>
  }

  /** Calls leave the bursts alone; listening starts with hal_comm_listen and ends with a successful accept. */
  lemma CallLeavesBcast(s: Link, c: Call, e: Env)
    requires Shape(s) && CallOk(c)
    ensures var o := Perform(s, c, e);
            && o.s.bcast == s.bcast && o.s.hist.windows == s.hist.windows && NoneAnnounced(s, o.s)
            && o.s.listen == if c.Listen? then true else if c.AcceptCall? && o.r > 0 then false else s.listen
  {
    CallSends(s, c, e);
    SendsWider(s, Perform(s, c, e).s, if c.Close? then {DisconnectFrame} else {}, ALL_BUT_PRESENCE);
    hide SocketCall, AcceptFrom, SendsOnly;
    match c
    case Socket(raw) => SocketLeavesBcast(s, raw);
    case AcceptCall => AcceptLeavesBcast(s, e.t5);
    case _ =>
  }

  lemma SocketLeavesBcast(s: Link, raw: bool)
    requires Shape(s)
    ensures var t := SocketCall(s, raw).s;
            t.bcast == s.bcast && t.hist.windows == s.hist.windows && t.listen == s.listen
  {
  }

  lemma AcceptLeavesBcast(s: Link, t: nat)
    requires Shape(s)
    ensures var o := AcceptFrom(s, t);
            && o.s.bcast == s.bcast && o.s.hist.windows == s.hist.windows
            && o.s.listen == if o.r > 0 then false else s.listen
  {
  }

  // --- over runs ---

  lemma NoneChain(s: Link, t: Link, u: Link)
    requires NoneAnnounced(s, t) && NoneAnnounced(t, u)
    ensures NoneAnnounced(s, u)
  {
  }

  lemma NoneItself(s: Link)
    ensures NoneAnnounced(s, s)
  {
  }

  /** Between two bursts: the last window began at w. */
  ghost predicate Pausing(s: Link, w: nat) {
    WindowAt(s, w) && s.bcast.state != PRESENCE
  }

  /** One call while pausing, its clock readings from 6 to 60 ms after the window began. */
  lemma PauseStep(s: Link, a: Act, w: nat)
    requires Inv(s) && CallOk(a.call) && EnvOk(a.env, s.hist.now)
    requires Pausing(s, w) && w + 6 <= a.env.t1 && a.env.t5 < w + 60
    ensures NoneAnnounced(s, Next(s, a)) && Pausing(Next(s, a), w)
  {
    hide Facts, Running, Perform, NoneAnnounced;
    var e := a.env;
    var t := if Runs(a.call) then Running(s, e) else s;
    if PresenceTurn(s, a) {
      match s.bcast.state
      case BURST_WINDOW => WindowTurn(s, e, w);
      case STANDBY => StandbyTurn(s, e);
      case TIMEOUT_INTERVAL => WaitTurn(s, e, w);
    } else if Runs(a.call) {
      RunningLeavesBcast(s, e);
    } else {
      NoneItself(s);
    }
    CallLeavesBcast(t, a.call, e);
    var o := Perform(t, a.call, e).s;
    NoneChain(s, t, o);
    NoneLater(o, Next(s, a));
    NoneChain(s, o, Next(s, a));
  }

  lemma NoneLater(s: Link, t: Link)
    requires t.hist.air == s.hist.air
    ensures NoneAnnounced(s, t)
  {
  }

  /** All clock readings of the run lie in [lo, hi). */
  ghost predicate Within(acts: seq<Act>, lo: nat, hi: nat) {
    forall i :: 0 <= i < |acts| ==> lo <= acts[i].env.t1 && acts[i].env.t5 < hi
  }

  lemma {:induction false} PauseHolds(s: Link, acts: seq<Act>, w: nat)
    requires Inv(s) && RunOk(s, acts) && Pausing(s, w) && Within(acts, w + 6, w + 60)
    ensures NoneAnnounced(s, Run(s, acts)) && Pausing(Run(s, acts), w)
    decreases |acts|
  {
    hide Facts, Running, Perform, NoneAnnounced, Pausing;
    if acts == [] {
      NoneItself(s);
    } else {
      var t := Next(s, acts[0]);
      PauseStep(s, acts[0], w);
      StepKeeps(s, acts[0].call, acts[0].env);
      PauseHolds(t, acts[1..], w);
      NoneChain(s, t, Run(s, acts));
    }
  }

  /**
    * The pause between bursts: once a window is over nothing is announced until 60 ms after it began, by
    * whatever calls.
    */
  lemma {:induction false} QuietBetweenBursts(s: Link, acts: seq<Act>, w: nat)
    requires Reachable(s) && Shape(s) && RunOk(s, acts) && Pausing(s, w) && Within(acts, w + 6, w + 60)
    ensures forall k :: |s.hist.air| <= k < |Run(s, acts).hist.air| ==> Run(s, acts).hist.air[k].kind != PresenceFrame
  {
    ReachableInv(s);
    hide Facts, Running, Run, NoneAnnounced;
    PauseHolds(s, acts, w);
    NoneMeans(s, Run(s, acts));
  }

  lemma NoneMeans(s: Link, t: Link)
    requires NoneAnnounced(s, t)
    ensures forall k :: |s.hist.air| <= k < |t.hist.air| ==> t.hist.air[k].kind != PresenceFrame
  {
  }

  ghost function PresenceTurns(s: Link, acts: seq<Act>): (n: nat)
    requires Shape(s) && RunOk(s, acts)
    decreases |acts|
  {
    if acts == [] then 0
    else (if PresenceTurn(s, acts[0]) then 1 else 0) + PresenceTurns(Next(s, acts[0]), acts[1..])
  }

  /** How many turns it takes to the next announcement, once the wait is over. */
  function TurnsToSpeak(b: BcastState): (n: nat)
    ensures n >= 1
  {
    match b
    case PRESENCE => 1
    case TIMEOUT_INTERVAL => 2
    case STANDBY => 3
    case BURST_WINDOW => 4
  }

  ghost predicate Waited(s: Link, w: nat) {
    s.bcast.state == PRESENCE || WindowAt(s, w)
  }

  /** One call once the wait is over: a turn brings the next announcement nearer, or is it. */
  lemma ResumeStep(s: Link, a: Act, w: nat)
    requires Inv(s) && CallOk(a.call) && EnvOk(a.env, s.hist.now) && s.mac != NO_MAC
    requires Waited(s, w) && w + 61 <= a.env.t1 && a.env.t5 < w + TWO32
    ensures var t, n := Next(s, a), TurnsToSpeak(s.bcast.state);
            && s.hist.air <= t.hist.air
            && (PresenceTurn(s, a) && n == 1 ==> Announced(s, t))
            && (!(PresenceTurn(s, a) && n == 1) ==>
                  Waited(t, w) && TurnsToSpeak(t.bcast.state) == if PresenceTurn(s, a) then n - 1 else n)
  {
    hide Facts, Running, Perform;
    var e := a.env;
    var t := if Runs(a.call) then Running(s, e) else s;
    if PresenceTurn(s, a) {
      match s.bcast.state
      case BURST_WINDOW => WindowTurn(s, e, w);
      case STANDBY => StandbyTurn(s, e);
      case TIMEOUT_INTERVAL => WaitTurn(s, e, w);
      case PRESENCE => SpeakTurn(s, e);
    } else if Runs(a.call) {
      RunningLeavesBcast(s, e);
    }
    CallLeavesBcast(t, a.call, e);
    AnnouncedStays(s, t, Perform(t, a.call, e).s, Next(s, a));
  }

  lemma AnnouncedStays(s: Link, t: Link, o: Link, u: Link)
    requires s.hist.air <= t.hist.air && NoneAnnounced(t, o) && u.hist.air == o.hist.air
    ensures s.hist.air <= u.hist.air && (Announced(s, t) ==> Announced(s, u))
  {
    if Announced(s, t) {
      var k :| |s.hist.air| <= k < |t.hist.air| && IsPresence(t.hist.air[k], s.mac);
      assert u.hist.air[k] == t.hist.air[k];
    }
  }

  lemma AnnouncedLater(s: Link, t: Link, u: Link)
    requires s.hist.air <= t.hist.air <= u.hist.air && s.mac == t.mac && (Announced(s, t) || Announced(t, u))
    ensures Announced(s, u)
  {
    if Announced(s, t) {
      var k :| |s.hist.air| <= k < |t.hist.air| && IsPresence(t.hist.air[k], s.mac);
      assert u.hist.air[k] == t.hist.air[k];
    }
  }

  lemma {:induction false} RunOnlySends(s: Link, acts: seq<Act>)
    requires Shape(s) && RunOk(s, acts)
    ensures s.hist.air <= Run(s, acts).hist.air
    decreases |acts|
  {
    hide Running, Perform;
    if acts != [] {
      StepSends(s, acts[0]);
      RunOnlySends(Next(s, acts[0]), acts[1..]);
    }
  }

  lemma {:induction false} Resumes(s: Link, acts: seq<Act>, w: nat)
    requires Inv(s) && RunOk(s, acts) && s.mac != NO_MAC && Waited(s, w) && Within(acts, w + 61, w + TWO32)
    requires PresenceTurns(s, acts) >= TurnsToSpeak(s.bcast.state)
    ensures Announced(s, Run(s, acts))
    decreases |acts|
  {
    hide Facts, Running, Perform, Announced, Waited, TurnsToSpeak;
    var t := Next(s, acts[0]);
    ResumeStep(s, acts[0], w);
    RunOnlySends(t, acts[1..]);
    if !Announced(s, t) {
      StepKeeps(s, acts[0].call, acts[0].env);
      Resumes(t, acts[1..], w);
    }
    AnnouncedLater(s, t, Run(s, acts));
  }

  /**
    * A listening node with an address announces itself again: from 61 ms after the window began, at the
    * latest by its second turn on the management channel when it is waiting, the third when in standby, the
    * fourth when still in the window.
    */
  lemma {:induction false} BurstsResume(s: Link, acts: seq<Act>, w: nat)
    requires Reachable(s) && Shape(s) && RunOk(s, acts) && s.mac != NO_MAC
    requires Pausing(s, w) && Within(acts, w + 61, w + TWO32)
    requires PresenceTurns(s, acts) >= TurnsToSpeak(s.bcast.state)
    ensures Announced(s, Run(s, acts))
  {
    ReachableInv(s);
    Resumes(s, acts, w);
  }

  // --- and only listeners speak ---

  lemma {:induction false} DeafStep(s: Link, a: Act)
    requires Inv(s) && CallOk(a.call) && EnvOk(a.env, s.hist.now) && !s.listen && !a.call.Listen?
    ensures NoneAnnounced(s, Next(s, a)) && !Next(s, a).listen
  {
    hide Facts, Running, Perform, NoneAnnounced;
    var t := if Runs(a.call) then Running(s, a.env) else s;
    if Runs(a.call) {
      RunningLeavesBcast(s, a.env);
    } else {
      NoneItself(s);
    }
    CallLeavesBcast(t, a.call, a.env);
    var o := Perform(t, a.call, a.env).s;
    NoneChain(s, t, o);
    NoneLater(o, Next(s, a));
    NoneChain(s, o, Next(s, a));
  }

  lemma {:induction false} DeafRun(s: Link, acts: seq<Act>)
    requires Inv(s) && RunOk(s, acts) && !s.listen && forall i :: 0 <= i < |acts| ==> !acts[i].call.Listen?
    ensures NoneAnnounced(s, Run(s, acts))
    decreases |acts|
  {
    hide Facts, Running, Perform, NoneAnnounced;
    if acts == [] {
      NoneItself(s);
    } else {
      var t := Next(s, acts[0]);
      DeafStep(s, acts[0]);
      StepKeeps(s, acts[0].call, acts[0].env);
      DeafRun(t, acts[1..]);
      NoneChain(s, t, Run(s, acts));
    }
  }

  /** A node that never calls hal_comm_listen never announces itself. */
  lemma {:induction false} OnlyListenersSpeak(mac: Mac, regs: Radio, acts: seq<Act>, k: nat)
    requires |regs.rxLow| == 4 && Shape(Session(mac, regs)) && RunOk(Session(mac, regs), acts)
    requires forall i :: 0 <= i < |acts| ==> !acts[i].call.Listen?
    requires k < |Run(Session(mac, regs), acts).hist.air|
    ensures Run(Session(mac, regs), acts).hist.air[k].kind != PresenceFrame
  {
    SessionStarts(mac, regs);
    assert !Session(mac, regs).listen && Session(mac, regs).hist.air == [];
    hide Facts, Session, Run, NoneAnnounced;
    DeafRun(Session(mac, regs), acts);
    NoneMeans(Session(mac, regs), Run(Session(mac, regs), acts));
  }
}
