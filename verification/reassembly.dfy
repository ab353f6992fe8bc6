/** Fragmentation in write_raw and reassembly in read_raw, apart from the rest of the link state. */
module Reassembly {
  import opened Bytes
  import opened LinkPdu

  /** The receive side of one peers[] entry. */
  datatype RxSlot = RxSlot(buffer: seq<byte>, len: nat, seqn: nat, offset: nat)

  const EMPTY_SLOT := RxSlot(Zeros(DATA_SIZE), 0, 0, 0)

  /** What read_raw does with one data frame. */
  function Accept(r: RxSlot, f: Heard): (t: RxSlot)
    requires RawFrame(f) && IsData(f)
    requires |r.buffer| == DATA_SIZE && r.offset <= DATA_SIZE
    ensures |t.buffer| == DATA_SIZE && t.offset <= DATA_SIZE
  {
    if r.len != 0 then r
    else
      var r1 := if Nseq(f) == 0 then r.(offset := 0, seqn := 0) else r;
      var plen := f.len - DATA_HDR_SIZE;
      if r1.seqn != Nseq(f) || (Lid(f) == LID_DATA_FRAG && plen < PW_MSG_SIZE) then r1
      else
        var n := if r1.offset + plen > DATA_SIZE then DATA_SIZE - r1.offset else plen;
        var buffer := Patch(r1.buffer, r1.offset, f.buf[DATA_HDR_SIZE..DATA_HDR_SIZE + n]);
        if Lid(f) == LID_DATA_END then RxSlot(buffer, r1.offset + n, 0, 0)
        else RxSlot(buffer, 0, r1.seqn + 1, r1.offset + n)
  }

  /** The slot invariant of every peer. */
  ghost predicate SlotOk(r: RxSlot) {
    && |r.buffer| == DATA_SIZE && r.len <= DATA_SIZE && r.seqn <= 64
    && r.offset == Min(PW_MSG_SIZE * r.seqn, DATA_SIZE)
    && (r.len != 0 ==> r.seqn == 0)
  }

  lemma AcceptKeepsSlot(r: RxSlot, f: Heard)
    requires SlotOk(r) && RawFrame(f) && IsData(f)
    ensures SlotOk(Accept(r, f))
  {
  }

  // --- what the buffer holds: the frames accepted since the last restart ---

  /** What can happen to a receive slot: a data frame, the application reading it, the pipe reallocated. */
  datatype Input = Frame(f: Heard) | Drain | Reopen

  predicate InputOk(i: Input) {
    i.Frame? ==> RawFrame(i.f) && IsData(i.f)
  }

  function SlotStep(r: RxSlot, i: Input): (t: RxSlot)
    requires InputOk(i) && |r.buffer| == DATA_SIZE && r.offset <= DATA_SIZE
    ensures |t.buffer| == DATA_SIZE && t.offset <= DATA_SIZE
  {
    match i
    case Frame(f) => Accept(r, f)
    case Drain => r.(len := 0)
    case Reopen => EMPTY_SLOT
  }

  function Payload(f: Heard): seq<byte>
    requires RawFrame(f) && IsData(f)
  {
    f.buf[DATA_HDR_SIZE..f.len]
  }

  /**
    * The payloads the sender of a well-behaved stream would count as current: `parts` since the last
    * frame numbered 0 was taken, and the payloads that made up the message now waiting.
    */
  datatype Account = Account(parts: seq<byte>, waiting: seq<byte>)

  function Restarted(r: RxSlot, f: Heard, parts: seq<byte>): seq<byte>
    requires WellSized(f)
  {
    if Nseq(f) == 0 then [] else parts
  }

  /** An accepted frame: slot empty, number expected (or 0), and full if it is a fragment. */
  predicate Taken(r: RxSlot, f: Heard)
    requires RawFrame(f) && IsData(f)
  {
    r.len == 0 && (Nseq(f) == 0 || Nseq(f) == r.seqn) && (Lid(f) == LID_DATA_FRAG ==> f.len == MTU)
  }

  function AccountStep(r: RxSlot, a: Account, i: Input): Account
    requires InputOk(i)
  {
    match i
    case Drain => a.(waiting := [])
    case Reopen => Account([], [])
    case Frame(f) =>
      if r.len != 0 then a
      else
        var parts := Restarted(r, f, a.parts);
        if !Taken(r, f) then a.(parts := parts)
        else if Lid(f) == LID_DATA_END then Account([], parts + Payload(f))
        else a.(parts := parts + Payload(f))
  }

  predicate InputsOk(inputs: seq<Input>) {
    forall i :: 0 <= i < |inputs| ==> InputOk(inputs[i])
  }

  function Fold(r: RxSlot, inputs: seq<Input>): (t: RxSlot)
    requires InputsOk(inputs) && |r.buffer| == DATA_SIZE && r.offset <= DATA_SIZE
    ensures |t.buffer| == DATA_SIZE && t.offset <= DATA_SIZE
    decreases |inputs|
  {
    if inputs == [] then r
    else SlotStep(Fold(r, inputs[..|inputs| - 1]), inputs[|inputs| - 1])
  }

  lemma {:induction false} FoldConcat(r: RxSlot, a: seq<Input>, b: seq<Input>)
    requires InputsOk(a) && InputsOk(b) && |r.buffer| == DATA_SIZE && r.offset <= DATA_SIZE
    ensures InputsOk(a + b) && Fold(r, a + b) == Fold(Fold(r, a), b)
    decreases |b|
  {
    hide SlotStep;
    if b == [] {
      assert a + b == a;
    } else {
      var init := b[..|b| - 1];
      FoldConcat(r, a, init);
      assert (a + b)[..|a + b| - 1] == a + init;
    }
  }

  ghost function RunAccount(inputs: seq<Input>): (a: Account)
    requires InputsOk(inputs)
    decreases |inputs|
  {
    if inputs == [] then Account([], [])
    else
      var init := inputs[..|inputs| - 1];
      AccountStep(Fold(EMPTY_SLOT, init), RunAccount(init), inputs[|inputs| - 1])
  }

  function First(s: seq<byte>): seq<byte> {
    s[..Min(|s|, DATA_SIZE)]
  }

  ghost predicate Accounted(r: RxSlot, a: Account) {
    && SlotOk(r)
    && |a.parts| == PW_MSG_SIZE * r.seqn
    && r.buffer[..r.offset] == First(a.parts)
    && r.len == |First(a.waiting)| && r.buffer[..r.len] == First(a.waiting)
  }

  lemma FirstOfConcat(buf: seq<byte>, parts: seq<byte>, data: seq<byte>, n: nat)
    requires |buf| == DATA_SIZE
    requires var o := Min(|parts|, DATA_SIZE); buf[..o] == First(parts) && n == Min(|data|, DATA_SIZE - o)
    ensures var o := Min(|parts|, DATA_SIZE);
            o + n == |First(parts + data)| && Patch(buf, o, data[..n])[..o + n] == First(parts + data)
  {
    var o := Min(|parts|, DATA_SIZE);
    var p := Patch(buf, o, data[..n]);
    assert p[..o + n] == p[..o] + p[o..o + n];
    assert p[..o + n] == First(parts) + data[..n];
    assert First(parts + data) == First(parts) + data[..n];
  }

  lemma TakenAccounted(r: RxSlot, a: Account, f: Heard)
    requires Accounted(r, a) && RawFrame(f) && IsData(f) && Taken(r, f)
    ensures Accounted(Accept(r, f), AccountStep(r, a, Frame(f)))
  {
    var r1 := if Nseq(f) == 0 then r.(offset := 0, seqn := 0) else r;
    var parts := Restarted(r, f, a.parts);
    var data := Payload(f);
    var n := if r1.offset + |data| > DATA_SIZE then DATA_SIZE - r1.offset else |data|;
    assert r1.buffer[..r1.offset] == First(parts);
    FirstOfConcat(r1.buffer, parts, data, n);
    hide First, Patch;
    assert data[..n] == f.buf[DATA_HDR_SIZE..DATA_HDR_SIZE + n];
  }

  lemma SkippedAccounted(r: RxSlot, a: Account, f: Heard)
    requires Accounted(r, a) && RawFrame(f) && IsData(f) && !Taken(r, f)
    ensures Accounted(Accept(r, f), AccountStep(r, a, Frame(f)))
  {
  }

  lemma FrameAccounted(r: RxSlot, a: Account, f: Heard)
    requires Accounted(r, a) && RawFrame(f) && IsData(f)
    ensures Accounted(Accept(r, f), AccountStep(r, a, Frame(f)))
  {
    if Taken(r, f) {
      TakenAccounted(r, a, f);
    } else {
      SkippedAccounted(r, a, f);
    }
  }

  /**
    * For any sequence of well-sized frames, reads and reallocations: the counters obey the slot
    * invariant, and the buffer holds exactly the first 128 bytes of what was accepted since the last
    * restart (or of the complete message waiting to be read).
    */
  lemma {:induction false} BufferIsAccepted(inputs: seq<Input>)
    requires InputsOk(inputs)
    ensures Accounted(Fold(EMPTY_SLOT, inputs), RunAccount(inputs))
    decreases |inputs|
  {
    if inputs != [] {
      var init, last := inputs[..|inputs| - 1], inputs[|inputs| - 1];
      BufferIsAccepted(init);
      if last.Frame? {
        FrameAccounted(Fold(EMPTY_SLOT, init), RunAccount(init), last.f);
      }
    }
  }

  // --- fragmentation ---

  predicate Message(m: seq<byte>) {
    1 <= |m| <= DATA_SIZE
  }

  function FrameCount(m: seq<byte>): (n: nat)
    requires Message(m)
    ensures 1 <= n <= 5 && PW_MSG_SIZE * (n - 1) < |m| <= PW_MSG_SIZE * n
  {
    (|m| + PW_MSG_SIZE - 1) / PW_MSG_SIZE
  }

  /** Frame k of message m: every frame but the last is a full fragment. */
  function Fragment(m: seq<byte>, k: nat, rfu: byte): (f: seq<byte>)
    requires Message(m) && k < FrameCount(m)
    ensures 3 <= |f| <= MTU && (k + 1 < FrameCount(m) ==> |f| == MTU)
  {
    var lid := if k + 1 < FrameCount(m) then LID_DATA_FRAG else LID_DATA_END;
    [lid + 4 * k, rfu] + m[PW_MSG_SIZE * k..Min(PW_MSG_SIZE * (k + 1), |m|)]
  }

  /** The receiver's view of frame k: the frame, then leftovers. */
  ghost predicate Carries(f: Heard, m: seq<byte>, k: nat)
    requires Message(m) && k < FrameCount(m)
  {
    WellSized(f) && exists rfu: byte :: f.buf[..f.len] == Fragment(m, k, rfu)
  }

  lemma CarriedFields(f: Heard, m: seq<byte>, k: nat)
    requires Message(m) && k < FrameCount(m) && Carries(f, m, k)
    ensures RawFrame(f) && IsData(f) && Nseq(f) == k
    ensures Lid(f) == LID_DATA_END <==> k + 1 == FrameCount(m)
    ensures k + 1 < FrameCount(m) ==> f.len == MTU
    ensures Payload(f) == m[PW_MSG_SIZE * k..Min(PW_MSG_SIZE * (k + 1), |m|)]
  {
    var rfu: byte :| f.buf[..f.len] == Fragment(m, k, rfu);
    var g := Fragment(m, k, rfu);
    assert f.buf[0] == g[0];
    assert Payload(f) == g[2..];
  }

  /** The slot holds the first k frames of m. */
  ghost predicate Partial(r: RxSlot, m: seq<byte>, k: nat)
    requires Message(m) && k < FrameCount(m)
  {
    SlotOk(r) && r.len == 0 && r.seqn == k && r.buffer[..r.offset] == m[..PW_MSG_SIZE * k]
  }

  ghost predicate Holds(r: RxSlot, m: seq<byte>) {
    SlotOk(r) && r.len == |m| && r.buffer[..r.len] == m
  }

  /** The expected next frame of m extends the partial message or completes it. */
  lemma NextFrame(r: RxSlot, m: seq<byte>, k: nat, f: Heard)
    requires Message(m) && k < FrameCount(m) && Carries(f, m, k)
    requires SlotOk(r) && r.len == 0 && (k == 0 || Partial(r, m, k))
    ensures RawFrame(f) && IsData(f)
    ensures k + 1 < FrameCount(m) ==> Partial(Accept(r, f), m, k + 1)
    ensures k + 1 == FrameCount(m) ==> Holds(Accept(r, f), m)
  {
    CarriedFields(f, m, k);
    var o := PW_MSG_SIZE * k;
    var r1 := if k == 0 then r.(offset := 0, seqn := 0) else r;
    var data := Payload(f);
    assert r1.offset == o && o + |data| <= |m|;
    var p := Patch(r1.buffer, o, data);
    assert data == f.buf[DATA_HDR_SIZE..DATA_HDR_SIZE + |data|];
    assert p[..o + |data|] == p[..o] + p[o..o + |data|];
    assert p[..o] == m[..o];
    assert m[..o + |data|] == m[..o] + data;
  }

  /** A repeated or out-of-order frame of any message leaves the slot alone. */
  lemma StaleFrame(r: RxSlot, m: seq<byte>, k: nat, f: Heard)
    requires Message(m) && k < FrameCount(m) && Carries(f, m, k)
    requires SlotOk(r) && (r.len != 0 || (k != 0 && r.seqn != k))
    ensures RawFrame(f) && IsData(f) && Accept(r, f) == r
  {
    CarriedFields(f, m, k);
  }

  function AcceptAll(r: RxSlot, fs: seq<Heard>): (t: RxSlot)
    requires forall f :: f in fs ==> RawFrame(f) && IsData(f)
    requires |r.buffer| == DATA_SIZE && r.offset <= DATA_SIZE
    ensures |t.buffer| == DATA_SIZE && t.offset <= DATA_SIZE
    decreases |fs|
  {
    if fs == [] then r else Accept(AcceptAll(r, fs[..|fs| - 1]), fs[|fs| - 1])
  }

  /** Frame number carried by position i when every frame of m arrives once or several times in order. */
  ghost predicate RepeatedInOrder(m: seq<byte>, fs: seq<Heard>, which: seq<nat>)
    requires Message(m)
  {
    && |which| == |fs|
    && (forall i :: 0 <= i < |fs| ==> which[i] < FrameCount(m) && Carries(fs[i], m, which[i]))
    && (fs != [] ==> which[0] == 0)
    && (forall i :: 0 < i < |fs| ==> which[i - 1] <= which[i] <= which[i - 1] + 1)
  }

  lemma CarriedFramesAreData(m: seq<byte>, fs: seq<Heard>, which: seq<nat>)
    requires Message(m) && RepeatedInOrder(m, fs, which)
    ensures forall f :: f in fs ==> RawFrame(f) && IsData(f)
  {
    forall i | 0 <= i < |fs|
      ensures RawFrame(fs[i]) && IsData(fs[i])
    {
      CarriedFields(fs[i], m, which[i]);
    }
  }

  /** The frames of m numbered below k have arrived, in order, each one or more times. */
  ghost predicate UpTo(m: seq<byte>, fs: seq<Heard>, which: seq<nat>, k: nat)
    requires Message(m)
  {
    RepeatedInOrder(m, fs, which) && k == if fs == [] then 0 else which[|which| - 1] + 1
  }

  lemma OneFewer(m: seq<byte>, fs: seq<Heard>, f: Heard, which: seq<nat>, k: nat) returns (j: nat)
    requires Message(m) && UpTo(m, fs + [f], which, k)
    ensures |which| == |fs| + 1 && UpTo(m, fs, which[..|fs|], j) && k == which[|fs|] + 1
    ensures which[|fs|] < FrameCount(m) && (which[|fs|] == j || which[|fs|] + 1 == j) && Carries(f, m, which[|fs|])
  {
    hide Carries;
    var all, n := fs + [f], |fs|;
    j := if n == 0 then 0 else which[n - 1] + 1;
    assert all[n] == f && forall i :: 0 <= i < n ==> all[i] == fs[i];
  }

  lemma {:induction false} RepeatsAssemble(r: RxSlot, m: seq<byte>, fs: seq<Heard>, which: seq<nat>, k: nat)
    requires Message(m) && UpTo(m, fs, which, k)
    requires SlotOk(r) && r.len == 0
    ensures forall f :: f in fs ==> RawFrame(f) && IsData(f)
    ensures k <= FrameCount(m)
    ensures var t := AcceptAll(r, fs);
            if k == 0 then t == r else if k < FrameCount(m) then Partial(t, m, k) else Holds(t, m)
    decreases |fs|
  {
    CarriedFramesAreData(m, fs, which);
    if fs != [] {
      var n := |fs| - 1;
      assert fs == fs[..n] + [fs[n]];
      hide Accept, Carries, UpTo, SlotOk, RawFrame, IsData, FrameCount;
      var j := OneFewer(m, fs[..n], fs[n], which, k);
      RepeatsAssemble(r, m, fs[..n], which[..n], j);
      NextRepeat(AcceptAll(r, fs[..n]), m, which[n], j, fs[n]);
    }
  }

  lemma NextRepeat(s: RxSlot, m: seq<byte>, n: nat, j: nat, f: Heard)
    requires Message(m) && n < FrameCount(m) && Carries(f, m, n) && (n == j || n + 1 == j)
    requires if j == 0 then SlotOk(s) && s.len == 0 else if j < FrameCount(m) then Partial(s, m, j) else Holds(s, m)
    ensures RawFrame(f) && IsData(f) && |s.buffer| == DATA_SIZE && s.offset <= DATA_SIZE
    ensures if n + 1 < FrameCount(m) then Partial(Accept(s, f), m, n + 1) else Holds(Accept(s, f), m)
  {
    if s.len != 0 || (n != 0 && s.seqn != n) {
      StaleFrame(s, m, n, f);
    } else {
      NextFrame(s, m, n, f);
    }
  }

  /**
    * Round trip: the frames of a message, each repeated any positive number of times in order, drive
    * the receiver from any state with an empty slot - even one holding a stale partial message - to
    * exactly that message.
    */
  lemma {:induction false} RoundTrip(r: RxSlot, m: seq<byte>, fs: seq<Heard>, which: seq<nat>)
    requires Message(m) && RepeatedInOrder(m, fs, which)
    requires SlotOk(r) && r.len == 0
    requires fs != [] && which[|which| - 1] + 1 == FrameCount(m)
    ensures forall f :: f in fs ==> RawFrame(f) && IsData(f)
    ensures var t := AcceptAll(r, fs); t.len == |m| && t.buffer[..t.len] == m && t.seqn == 0 && t.offset == 0
  {
    RepeatsAssemble(r, m, fs, which, FrameCount(m));
  }

  // --- delivery, with the application reading at any time ---

  /** The frames among the inputs, in order. */
  function FramesIn(inputs: seq<Input>): (fs: seq<Heard>)
  {
    if inputs == [] then []
    else
      var last := inputs[|inputs| - 1];
      FramesIn(inputs[..|inputs| - 1]) + if last.Frame? then [last.f] else []
  }

  /** The pipe is not allocated again. */
  predicate NoReopen(inputs: seq<Input>) {
    forall x :: 0 <= x < |inputs| ==> inputs[x] != Reopen
  }

  /** What the reads among the inputs find in the slot. */
  function Handouts(r: RxSlot, inputs: seq<Input>): (out: seq<seq<byte>>)
    requires InputsOk(inputs) && SlotOk(r)
    decreases |inputs|
  {
    if inputs == [] then []
    else
      var init := inputs[..|inputs| - 1];
      Handouts(r, init) + HandedOut(Fold(r, init), inputs[|inputs| - 1])
  }

  function HandedOut(r: RxSlot, i: Input): (out: seq<seq<byte>>) {
    if i.Drain? && 0 < r.len <= |r.buffer| then [r.buffer[..r.len]] else []
  }

  lemma {:induction false} HandoutsSnoc(r: RxSlot, init: seq<Input>, i: Input)
    requires InputsOk(init) && InputOk(i) && SlotOk(r)
    ensures InputsOk(init + [i]) && Handouts(r, init + [i]) == Handouts(r, init) + HandedOut(Fold(r, init), i)
  {
    hide SlotOk, SlotStep, HandedOut;
    assert (init + [i])[..|init + [i]| - 1] == init;
  }

  lemma LastInput(inputs: seq<Input>)
    requires InputsOk(inputs) && inputs != []
    ensures var init, last := inputs[..|inputs| - 1], inputs[|inputs| - 1];
            && inputs == init + [last] && InputsOk(init) && InputOk(last)
            && (NoReopen(inputs) ==> NoReopen(init) && last != Reopen)
  {
  }

  lemma Joined(x: seq<seq<byte>>, y: seq<seq<byte>>, z: seq<seq<byte>>)
    ensures (x + y) + z == x + (y + z)
  {
  }

  lemma {:induction false} HandoutsConcat(r: RxSlot, a: seq<Input>, b: seq<Input>)
    requires InputsOk(a) && InputsOk(b) && SlotOk(r)
    ensures InputsOk(a + b) && SlotOk(Fold(r, a)) && Handouts(r, a + b) == Handouts(r, a) + Handouts(Fold(r, a), b)
    decreases |b|, 0
  {
    if b == [] {
      assert a + b == a;
      hide SlotOk, SlotStep, HandedOut;
      FoldKeepsSlot(r, a);
    } else {
      LastInput(b);
      hide *;
      HandoutsLast(r, a, b[..|b| - 1], b[|b| - 1]);
    }
  }

  lemma {:induction false} HandoutsLast(r: RxSlot, a: seq<Input>, init: seq<Input>, last: Input)
    requires InputsOk(a) && InputsOk(init) && InputOk(last) && SlotOk(r)
    ensures InputsOk(a + (init + [last])) && SlotOk(Fold(r, a))
    ensures Handouts(r, a + (init + [last])) == Handouts(r, a) + Handouts(Fold(r, a), init + [last])
    decreases |init|, 1
  {
    FoldKeepsSlot(r, a);
    FoldConcat(r, a, init);
    hide SlotOk, SlotStep, HandedOut;
    HandoutsConcat(r, a, init);
    HandoutsSnoc(r, a + init, last);
    HandoutsSnoc(Fold(r, a), init, last);
    assert (a + init) + [last] == a + (init + [last]);
    hide *;
    Joined(Handouts(r, a), Handouts(Fold(r, a), init), HandedOut(Fold(Fold(r, a), init), last));
  }

  lemma {:induction false} FoldKeepsSlot(r: RxSlot, inputs: seq<Input>)
    requires InputsOk(inputs) && SlotOk(r)
    ensures SlotOk(Fold(r, inputs))
    decreases |inputs|
  {
    if inputs != [] {
      var init, last := inputs[..|inputs| - 1], inputs[|inputs| - 1];
      FoldKeepsSlot(r, init);
      if last.Frame? {
        AcceptKeepsSlot(Fold(r, init), last.f);
      }
    }
  }

  /** Copies of m handed out so far and waiting in the slot. */
  function Copies(t: RxSlot, out: seq<seq<byte>>): (n: nat) {
    |out| + if t.len != 0 then 1 else 0
  }

  /** Frames numbered below k of m have been taken, fs of them with repeats, and `out` has been handed out. */
  ghost predicate Progress(m: seq<byte>, t: RxSlot, out: seq<seq<byte>>, k: nat, fs: nat)
    requires Message(m) && k <= FrameCount(m)
  {
    && SlotOk(t) && (forall x :: 0 <= x < |out| ==> out[x] == m)
    && if k < FrameCount(m) then t.len == 0 && out == [] && (k > 0 ==> Partial(t, m, k))
       else
         && t.seqn == 0 && (t.len != 0 ==> Holds(t, m))
         && 1 <= Copies(t, out) <= fs && (FrameCount(m) > 1 ==> Copies(t, out) == 1)
  }

  lemma ReadProgress(m: seq<byte>, t: RxSlot, out: seq<seq<byte>>, k: nat, fs: nat)
    requires Message(m) && k <= FrameCount(m) && Progress(m, t, out, k, fs)
    ensures Progress(m, t.(len := 0), out + HandedOut(t, Drain), k, fs)
  {
  }

  lemma FrameProgress(m: seq<byte>, t: RxSlot, out: seq<seq<byte>>, k: nat, fs: nat, n: nat, f: Heard)
    requires Message(m) && k <= FrameCount(m) && Progress(m, t, out, k, fs)
    requires n < FrameCount(m) && (n == k || n + 1 == k) && Carries(f, m, n)
    ensures RawFrame(f) && IsData(f) && Progress(m, Accept(t, f), out, n + 1, fs + 1)
  {
    if t.len != 0 || (n != 0 && t.seqn != n) {
      StaleFrame(t, m, n, f);
    } else {
      NextFrame(t, m, n, f);
      WholeEndsEmpty(t, m, n, f);
    }
  }

  lemma WholeEndsEmpty(t: RxSlot, m: seq<byte>, n: nat, f: Heard)
    requires Message(m) && n < FrameCount(m) && Carries(f, m, n)
    requires SlotOk(t) && t.len == 0 && (n == 0 || Partial(t, m, n))
    ensures RawFrame(f) && IsData(f) && SlotOk(Accept(t, f))
    ensures n + 1 == FrameCount(m) ==> Accept(t, f).seqn == 0
  {
    CarriedFields(f, m, n);
    AcceptKeepsSlot(t, f);
  }

  /**
    * The frames of a message, each repeated any positive number of times in order, with reads in between
    * and after: nothing is handed out before the last frame has come, and from then on the whole message
    * is waiting or has been handed out - once, or if it is a single frame at most once for every repeat.
    */
  lemma {:induction false} HandedOutWhole(r: RxSlot, m: seq<byte>, inputs: seq<Input>, which: seq<nat>, k: nat)
    requires Message(m) && SlotOk(r) && r.len == 0
    requires InputsOk(inputs) && NoReopen(inputs)
    requires UpTo(m, FramesIn(inputs), which, k)
    ensures k <= FrameCount(m)
    ensures Progress(m, Fold(r, inputs), Handouts(r, inputs), k, |FramesIn(inputs)|)
    decreases |inputs|, 0
  {
    if inputs != [] {
      LastInput(inputs);
      hide *;
      HandedOutNext(r, m, inputs[..|inputs| - 1], inputs[|inputs| - 1], which, k);
    } else {
      NothingYet(r, m);
    }
  }

  lemma {:induction false} HandedOutNext(r: RxSlot, m: seq<byte>, init: seq<Input>, last: Input,
                                         which: seq<nat>, k: nat)
    requires Message(m) && SlotOk(r) && r.len == 0
    requires InputsOk(init) && NoReopen(init) && InputOk(last) && last != Reopen
    requires UpTo(m, FramesIn(init + [last]), which, k)
    ensures InputsOk(init + [last]) && k <= FrameCount(m)
    ensures Progress(m, Fold(r, init + [last]), Handouts(r, init + [last]), k, |FramesIn(init + [last])|)
    decreases |init|, 1
  {
    hide Progress, Accept, Carries, UpTo, FrameCount, HandedOut;
    var all := init + [last];
    assert all[..|all| - 1] == init;
    HandoutsSnoc(r, init, last);
    if last.Frame? {
      var n := |FramesIn(init)|;
      assert FramesIn(all) == FramesIn(init) + [last.f];
      var j := OneFewer(m, FramesIn(init), last.f, which, k);
      HandedOutWhole(r, m, init, which[..n], j);
      FrameProgress(m, Fold(r, init), Handouts(r, init), j, n, which[n], last.f);
      NoneHandedOut(Fold(r, init), last, Handouts(r, init));
    } else {
      assert FramesIn(all) == FramesIn(init);
      HandedOutWhole(r, m, init, which, k);
      ReadProgress(m, Fold(r, init), Handouts(r, init), k, |FramesIn(init)|);
    }
  }

  lemma NoneHandedOut(t: RxSlot, i: Input, out: seq<seq<byte>>)
    requires i.Frame?
    ensures out + HandedOut(t, i) == out
  {
  }

  lemma NothingYet(r: RxSlot, m: seq<byte>)
    requires Message(m) && SlotOk(r) && r.len == 0
    ensures Progress(m, r, [], 0, 0)
  {
  }

  /** Every frame among these is one of m: fs[i] the one numbered which[i]. */
  ghost predicate FramesOf(m: seq<byte>, fs: seq<Heard>, which: seq<nat>)
    requires Message(m)
  {
    |which| == |fs| && forall i :: 0 <= i < |fs| ==> which[i] < FrameCount(m) && Carries(fs[i], m, which[i])
  }

  /** Frames of m have been taken up to some point before frame k, and nothing has been handed out. */
  predicate StuckBefore(t: RxSlot, k: nat) {
    t.len == 0 && t.seqn <= k
  }

  lemma FrameStuck(m: seq<byte>, t: RxSlot, k: nat, n: nat, f: Heard)
    requires Message(m) && k < FrameCount(m) && n < FrameCount(m) && n != k && Carries(f, m, n)
    requires SlotOk(t) && StuckBefore(t, k)
    ensures RawFrame(f) && IsData(f) && StuckBefore(Accept(t, f), k)
  {
    CarriedFields(f, m, n);
  }

  /** A message one of whose frames is not heard is not handed out, whatever is read and however it is repeated. */
  lemma {:induction false} MissingFrame(r: RxSlot, m: seq<byte>, inputs: seq<Input>, which: seq<nat>, k: nat)
    requires Message(m) && SlotOk(r) && StuckBefore(r, k) && k < FrameCount(m) && k !in which
    requires InputsOk(inputs) && NoReopen(inputs) && FramesOf(m, FramesIn(inputs), which)
    ensures StuckBefore(Fold(r, inputs), k) && Handouts(r, inputs) == []
    decreases |inputs|
  {
    if inputs != [] {
      hide SlotOk, Accept, Carries, StuckBefore, FrameCount;
      var init, last := inputs[..|inputs| - 1], inputs[|inputs| - 1];
      var fs, n := FramesIn(inputs), |FramesIn(init)|;
      FoldKeepsSlot(r, init);
      MissingFrame(r, m, init, which[..n], k);
      if last.Frame? {
        assert fs == FramesIn(init) + [last.f] && fs[n] == last.f;
        FrameStuck(m, Fold(r, init), k, which[n], last.f);
      } else {
        ReadStuck(Fold(r, init), k);
      }
    }
  }

  lemma ReadStuck(t: RxSlot, k: nat)
    requires StuckBefore(t, k)
    ensures StuckBefore(t.(len := 0), k) && HandedOut(t, Drain) == []
  {
  }

  /** Frame numbers that never go back. */
  predicate Rising(which: seq<nat>) {
    forall i :: 0 < i < |which| ==> which[i - 1] <= which[i]
  }

  lemma {:induction false} RisingBetween(which: seq<nat>, i: nat, j: nat)
    requires Rising(which) && i <= j < |which|
    ensures which[i] <= which[j]
    decreases j - i
  {
    if i < j {
      RisingBetween(which, i, j - 1);
    }
  }

  /** Frames in order with none missing are the frames repeated in order. */
  lemma NoneMissing(m: seq<byte>, fs: seq<Heard>, which: seq<nat>)
    requires Message(m) && FramesOf(m, fs, which) && Rising(which)
    requires forall k :: 0 <= k < FrameCount(m) ==> k in which
    ensures UpTo(m, fs, which, FrameCount(m))
  {
    hide Carries;
    var n := |which| - 1;
    var first := IndexIn(which, 0);
    var last := IndexIn(which, FrameCount(m) - 1);
    RisingBetween(which, 0, first);
    RisingBetween(which, last, n);
    forall i | 0 < i < |which| ensures which[i] <= which[i - 1] + 1 {
      if which[i] > which[i - 1] + 1 {
        var j := IndexIn(which, which[i - 1] + 1);
        if j < i {
          RisingBetween(which, j, i - 1);
        } else {
          RisingBetween(which, i, j);
        }
      }
    }
  }

  lemma IndexIn(which: seq<nat>, k: nat) returns (i: nat)
    requires k in which
    ensures i < |which| && which[i] == k
  {
    i :| i < |which| && which[i] == k;
  }
}
