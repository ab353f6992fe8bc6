/**
  * Sender, channel and receiver of one data pipe over whole runs. Frames arrive in the order they went
  * out, each any number of times, none at all included: the radio repeats a frame whose acknowledgement
  * was lost, and a change of channel throws away what has not been read. On the acknowledged channel
  * nothing is thrown away: a frame reported as sent arrives at least once, and the sender drops the rest
  * of a message whose frame failed. The receiver takes frames off the FIFO at its own pace.
  */
module MessageStream {
  import opened Bytes
  import opened LinkPdu
  import opened Reassembly

  /** One message given to the link, and how often each frame tried would arrive if nothing were thrown away. */
  datatype Attempt = Attempt(m: seq<byte>, copies: seq<nat>)

  /** The last attempted frame may be a failed one, so it alone may have arrived zero times. */
  predicate AttemptOk(a: Attempt) {
    && Message(a.m)
    && 1 <= |a.copies| <= FrameCount(a.m)
    && forall k :: 0 <= k < |a.copies| - 1 ==> a.copies[k] >= 1
  }

  ghost predicate AllOk(attempts: seq<Attempt>) {
    forall i :: 0 <= i < |attempts| ==> AttemptOk(attempts[i])
  }

  /** Which frame of which message an arrival is. */
  datatype Tag = Tag(msg: nat, k: nat)

  function Repeat(t: Tag, n: nat): (ts: seq<Tag>)
    ensures |ts| == n && forall i :: 0 <= i < n ==> ts[i] == t
  {
    seq(n, _ => t)
  }

  function AttemptTags(msg: nat, copies: seq<nat>): (ts: seq<Tag>)
  {
    if copies == [] then []
    else AttemptTags(msg, copies[..|copies| - 1]) + Repeat(Tag(msg, |copies| - 1), copies[|copies| - 1])
  }

  /** Every arrival on the acknowledged channel, in order. */
  function Stream(attempts: seq<Attempt>): (ts: seq<Tag>)
  {
    if attempts == [] then []
    else Stream(attempts[..|attempts| - 1]) + AttemptTags(|attempts| - 1, attempts[|attempts| - 1].copies)
  }

  predicate Follows(prev: Tag, next: Tag) {
    || next == prev
    || (next.msg == prev.msg && next.k == prev.k + 1)
    || (next.msg > prev.msg && next.k == 0)
  }

  ghost predicate Chain(ts: seq<Tag>) {
    && (ts != [] ==> ts[0].k == 0)
    && forall i :: 0 < i < |ts| ==> Follows(ts[i - 1], ts[i])
  }

  /** The tag names a frame of a message that was sent. */
  ghost predicate ValidTag(attempts: seq<Attempt>, t: Tag)
    requires AllOk(attempts)
  {
    t.msg < |attempts| && t.k < FrameCount(attempts[t.msg].m)
  }

  lemma {:induction false} AttemptChain(msg: nat, copies: seq<nat>)
    requires forall k :: 0 <= k < |copies| - 1 ==> copies[k] >= 1
    ensures Chain(AttemptTags(msg, copies))
    ensures forall t :: t in AttemptTags(msg, copies) ==> t.msg == msg && t.k < |copies|
    ensures copies != [] && copies[|copies| - 1] >= 1
            ==> AttemptTags(msg, copies) != []
                && AttemptTags(msg, copies)[|AttemptTags(msg, copies)| - 1] == Tag(msg, |copies| - 1)
  {
    if copies != [] {
      AttemptChain(msg, copies[..|copies| - 1]);
    }
  }

  /** Whatever was acknowledged, lost or aborted, arrivals only repeat, advance by one, or start afresh. */
  lemma {:induction false} StreamChain(attempts: seq<Attempt>)
    requires AllOk(attempts)
    ensures Chain(Stream(attempts))
    ensures forall t :: t in Stream(attempts) ==> ValidTag(attempts, t)
  {
    if attempts != [] {
      var init, last := attempts[..|attempts| - 1], attempts[|attempts| - 1];
      StreamChain(init);
      assert AllOk(init) && AttemptOk(last);
      AttemptChain(|init|, last.copies);
      var earlier, latest := Stream(init), AttemptTags(|init|, last.copies);
      forall t: Tag | t in earlier + latest
        ensures ValidTag(attempts, t)
      {
        if t in earlier {
          assert attempts[t.msg] == init[t.msg];
        }
      }
      forall i | 0 < i < |earlier + latest|
        ensures Follows((earlier + latest)[i - 1], (earlier + latest)[i])
      {
        if i == |earlier| {
          assert earlier[i - 1] in earlier && latest[0] in latest;
        }
      }
    }
  }

  /** What the receiver does: take the next arrival, hand the message to the application, reallocate. */
  datatype Event = Deliver(tag: Tag, f: Heard) | Read | Realloc

  function Tags(evs: seq<Event>): (ts: seq<Tag>)
  {
    if evs == [] then []
    else
      var e := evs[|evs| - 1];
      Tags(evs[..|evs| - 1]) + if e.Deliver? then [e.tag] else []
  }

  ghost predicate Genuine(attempts: seq<Attempt>, e: Event)
    requires AllOk(attempts)
  {
    e.Deliver? ==> ValidTag(attempts, e.tag) && Carries(e.f, attempts[e.tag.msg].m, e.tag.k)
  }

  ghost predicate AllGenuine(attempts: seq<Attempt>, evs: seq<Event>) {
    AllOk(attempts) && forall e :: e in evs ==> Genuine(attempts, e)
  }

  /** Later in the same message or in a later one, or a repeat. */
  predicate InSequence(prev: Tag, next: Tag) {
    prev.msg < next.msg || (prev.msg == next.msg && prev.k <= next.k)
  }

  ghost predicate Sequence(ts: seq<Tag>) {
    forall i :: 0 < i < |ts| ==> InSequence(ts[i - 1], ts[i])
  }

  /** The first arrival of each message is its frame 0. */
  ghost predicate HeadsFirst(ts: seq<Tag>) {
    && (ts != [] ==> ts[0].k == 0)
    && forall i :: 0 < i < |ts| && ts[i - 1].msg < ts[i].msg ==> ts[i].k == 0
  }

  /** A run of the receiver on arrivals of which any may be missing, with reads and reallocations anywhere. */
  ghost predicate LossyRun(attempts: seq<Attempt>, evs: seq<Event>) {
    AllGenuine(attempts, evs) && Sequence(Tags(evs))
  }

  /** The same on the acknowledged channel: the arrivals are some prefix of the stream. */
  ghost predicate AckedRun(attempts: seq<Attempt>, evs: seq<Event>) {
    AllGenuine(attempts, evs) && Tags(evs) <= Stream(attempts)
  }

  /** The acknowledged channel keeps the order and loses no head whose message arrives. */
  lemma {:induction false} AckedKeepsHeads(attempts: seq<Attempt>, evs: seq<Event>)
    requires AckedRun(attempts, evs)
    ensures LossyRun(attempts, evs) && HeadsFirst(Tags(evs))
  {
    StreamChain(attempts);
    var ts := Tags(evs);
    assert forall i :: 0 <= i < |ts| ==> ts[i] == Stream(attempts)[i];
    forall i | 0 < i < |ts| ensures Follows(ts[i - 1], ts[i]) {
    }
  }

  /**
    * Messages m and n are both longer than k frames and differ before the end of frame k - 1: the head of
    * one would fit the tail of the other.
    */
  predicate Clash(m: seq<byte>, n: seq<byte>, k: nat)
    requires Message(m) && Message(n)
  {
    1 <= k < FrameCount(m) && k < FrameCount(n) && m[..PW_MSG_SIZE * k] != n[..PW_MSG_SIZE * k]
  }

  ghost predicate AllMessages(msgs: seq<seq<byte>>) {
    forall i :: 0 <= i < |msgs| ==> Message(msgs[i])
  }

  /** No message clashes with a later one: for a sender to see to, and true if none is over 30 bytes long. */
  ghost predicate NoClash(msgs: seq<seq<byte>>)
    requires AllMessages(msgs)
  {
    forall i, j, k: nat :: 0 <= i < j < |msgs| ==> !Clash(msgs[i], msgs[j], k)
  }

  function Messages(attempts: seq<Attempt>): (msgs: seq<seq<byte>>)
    ensures |msgs| == |attempts| && forall i :: 0 <= i < |msgs| ==> msgs[i] == attempts[i].m
  {
    seq(|attempts|, i requires 0 <= i < |attempts| => attempts[i].m)
  }

  datatype Exposed = Exposed(msg: nat, bytes: seq<byte>)
  datatype Receiver = Receiver(slot: RxSlot, exposed: seq<Exposed>)

  /** A message is exposed when the empty slot gets a length; the tag only labels it for the proof. */
  ghost function React(r: Receiver, e: Event): (t: Receiver)
    requires SlotOk(r.slot) && (e.Deliver? ==> RawFrame(e.f) && IsData(e.f))
    ensures SlotOk(t.slot)
  {
    match e
    case Read => r.(slot := r.slot.(len := 0))
    case Realloc => r.(slot := EMPTY_SLOT)
    case Deliver(tag, f) =>
      AcceptKeepsSlot(r.slot, f);
      var slot := Accept(r.slot, f);
      Receiver(slot, if r.slot.len == 0 && slot.len != 0
                     then r.exposed + [Exposed(tag.msg, slot.buffer[..slot.len])] else r.exposed)
  }

  lemma GenuineIsData(attempts: seq<Attempt>, e: Event)
    requires AllOk(attempts) && Genuine(attempts, e) && e.Deliver?
    ensures RawFrame(e.f) && IsData(e.f)
  {
    CarriedFields(e.f, attempts[e.tag.msg].m, e.tag.k);
  }

  ghost function Receive(attempts: seq<Attempt>, evs: seq<Event>): (r: Receiver)
    requires AllGenuine(attempts, evs)
    ensures SlotOk(r.slot)
    decreases |evs|
  {
    if evs == [] then Receiver(EMPTY_SLOT, [])
    else
      var e := evs[|evs| - 1];
      assert e in evs;
      if e.Deliver? then
        GenuineIsData(attempts, e);
        React(Receive(attempts, evs[..|evs| - 1]), e)
      else
        React(Receive(attempts, evs[..|evs| - 1]), e)
  }

  // --- order ---

  /** Messages come out in sending order, one of several frames at most once. */
  ghost predicate InOrder(attempts: seq<Attempt>, ex: seq<Exposed>)
    requires AllOk(attempts)
  {
    && (forall i :: 0 <= i < |ex| ==> ex[i].msg < |attempts|)
    && (forall i :: 0 < i < |ex| ==>
          || ex[i - 1].msg < ex[i].msg
          || (ex[i - 1].msg == ex[i].msg && FrameCount(attempts[ex[i].msg].m) == 1))
  }

  /** The receiver when the last arrival it took was `last`. */
  ghost predicate Paced(attempts: seq<Attempt>, r: Receiver, last: Tag)
    requires AllOk(attempts) && ValidTag(attempts, last)
  {
    && SlotOk(r.slot)
    && InOrder(attempts, r.exposed)
    && (r.slot.len != 0 ==> r.exposed != [] && r.slot.buffer[..r.slot.len] == r.exposed[|r.exposed| - 1].bytes)
    && (r.exposed != [] ==>
          var e := r.exposed[|r.exposed| - 1];
          && e.msg <= last.msg
          && (e.msg == last.msg ==> last.k + 1 == FrameCount(attempts[last.msg].m) && r.slot.seqn == 0))
  }

  /** The frame is taken for the one the slot expects, or starts afresh. */
  predicate Wanted(slot: RxSlot, k: nat) {
    slot.len == 0 && (k == 0 || slot.seqn == k)
  }

  /** What a wanted frame does to the counters, whatever message the earlier ones were from. */
  lemma WantedCounts(slot: RxSlot, m: seq<byte>, k: nat, f: Heard)
    requires Message(m) && k < FrameCount(m) && Carries(f, m, k) && SlotOk(slot) && Wanted(slot, k)
    ensures RawFrame(f) && IsData(f)
    ensures var t := Accept(slot, f);
            if k + 1 < FrameCount(m) then t.len == 0 && t.seqn == k + 1 else t.len != 0 && t.seqn == 0
  {
    CarriedFields(f, m, k);
  }

  /** A repeat, or a frame the slot does not expect, changes nothing. */
  lemma UnwantedPaced(attempts: seq<Attempt>, r: Receiver, last: Tag, tag: Tag, f: Heard)
    requires AllOk(attempts) && ValidTag(attempts, last) && Genuine(attempts, Deliver(tag, f))
    requires Paced(attempts, r, last) && InSequence(last, tag) && !Wanted(r.slot, tag.k)
    ensures RawFrame(f) && IsData(f)
    ensures React(r, Deliver(tag, f)) == r && Paced(attempts, r, tag)
  {
    StaleFrame(r.slot, attempts[tag.msg].m, tag.k, f);
  }

  lemma ExposeInOrder(attempts: seq<Attempt>, ex: seq<Exposed>, e: Exposed)
    requires AllOk(attempts) && InOrder(attempts, ex) && e.msg < |attempts|
    requires ex != [] ==>
               ex[|ex| - 1].msg < e.msg || (ex[|ex| - 1].msg == e.msg && FrameCount(attempts[e.msg].m) == 1)
    ensures InOrder(attempts, ex + [e])
  {
  }

  /** The last message exposed leaves room for one that ends with this frame. */
  ghost predicate Later(attempts: seq<Attempt>, ex: seq<Exposed>, tag: Tag)
    requires AllOk(attempts) && ValidTag(attempts, tag)
  {
    ex != [] ==>
      var e := ex[|ex| - 1];
      e.msg < tag.msg || (e.msg == tag.msg && FrameCount(attempts[tag.msg].m) == 1)
  }

  lemma WantedPaced(attempts: seq<Attempt>, r: Receiver, tag: Tag, f: Heard)
    requires AllOk(attempts) && Genuine(attempts, Deliver(tag, f))
    requires SlotOk(r.slot) && InOrder(attempts, r.exposed) && Wanted(r.slot, tag.k)
    requires Later(attempts, r.exposed, tag)
    ensures RawFrame(f) && IsData(f)
    ensures Paced(attempts, React(r, Deliver(tag, f)), tag)
  {
    WantedCounts(r.slot, attempts[tag.msg].m, tag.k, f);
    hide Accept, InOrder;
    var slot := Accept(r.slot, f);
    if slot.len != 0 {
      ExposeInOrder(attempts, r.exposed, Exposed(tag.msg, slot.buffer[..slot.len]));
    }
  }

  lemma DeliverPaced(attempts: seq<Attempt>, r: Receiver, last: Tag, tag: Tag, f: Heard)
    requires AllOk(attempts) && ValidTag(attempts, last) && Genuine(attempts, Deliver(tag, f))
    requires Paced(attempts, r, last) && InSequence(last, tag)
    ensures RawFrame(f) && IsData(f)
    ensures Paced(attempts, React(r, Deliver(tag, f)), tag)
  {
    if Wanted(r.slot, tag.k) {
      WantedPaced(attempts, r, tag, f);
    } else {
      UnwantedPaced(attempts, r, last, tag, f);
    }
  }

  // --- content ---

  /** Every exposed message is byte for byte the one its last frame belongs to. */
  ghost predicate AllWhole(attempts: seq<Attempt>, ex: seq<Exposed>) {
    forall i :: 0 <= i < |ex| ==> ex[i].msg < |attempts| && ex[i].bytes == attempts[ex[i].msg].m
  }

  /** The partial message in the slot is the head of message i. */
  ghost predicate HeadOf(attempts: seq<Attempt>, slot: RxSlot, i: nat)
    requires AllOk(attempts)
  {
    i < |attempts| && slot.seqn < FrameCount(attempts[i].m) && Partial(slot, attempts[i].m, slot.seqn)
  }

  /** It is the head of the last message to arrive; or, if none clash, of some message up to that. */
  ghost predicate Owned(attempts: seq<Attempt>, slot: RxSlot, last: Tag, heads: bool)
    requires AllOk(attempts)
  {
    slot.seqn != 0 ==>
      if heads then HeadOf(attempts, slot, last.msg) else exists i: nat :: i <= last.msg && HeadOf(attempts, slot, i)
  }

  ghost predicate Whole(attempts: seq<Attempt>, r: Receiver, last: Tag, heads: bool)
    requires AllOk(attempts)
  {
    AllWhole(attempts, r.exposed) && Owned(attempts, r.slot, last, heads)
  }

  /** With heads first a message starts with its frame 0; without, no two clash. */
  ghost predicate Continues(attempts: seq<Attempt>, last: Tag, tag: Tag, heads: bool)
    requires AllOk(attempts)
  {
    && InSequence(last, tag)
    && if heads then last.msg < tag.msg ==> tag.k == 0 else NoClash(Messages(attempts))
  }

  /** The head in the slot is also the head of the message the wanted frame belongs to. */
  lemma HeadFits(attempts: seq<Attempt>, slot: RxSlot, last: Tag, tag: Tag, heads: bool)
    requires AllOk(attempts) && ValidTag(attempts, tag) && SlotOk(slot) && Wanted(slot, tag.k) && tag.k != 0
    requires Owned(attempts, slot, last, heads) && Continues(attempts, last, tag, heads)
    ensures Partial(slot, attempts[tag.msg].m, tag.k)
  {
    if !heads {
      var i: nat :| i <= last.msg && HeadOf(attempts, slot, i);
      if i < tag.msg {
        assert !Clash(Messages(attempts)[i], Messages(attempts)[tag.msg], tag.k);
      }
    }
  }

  lemma WantedWhole(attempts: seq<Attempt>, r: Receiver, tag: Tag, f: Heard, heads: bool)
    requires AllOk(attempts) && Genuine(attempts, Deliver(tag, f))
    requires SlotOk(r.slot) && Wanted(r.slot, tag.k) && AllWhole(attempts, r.exposed)
    requires tag.k != 0 ==> Partial(r.slot, attempts[tag.msg].m, tag.k)
    ensures RawFrame(f) && IsData(f)
    ensures Whole(attempts, React(r, Deliver(tag, f)), tag, heads)
  {
    var m := attempts[tag.msg].m;
    NextFrame(r.slot, m, tag.k, f);
    hide Accept;
    var slot := Accept(r.slot, f);
    if tag.k + 1 < FrameCount(m) {
      assert HeadOf(attempts, slot, tag.msg);
    }
  }

  lemma DeliverWhole(attempts: seq<Attempt>, r: Receiver, last: Tag, tag: Tag, f: Heard, heads: bool)
    requires AllOk(attempts) && ValidTag(attempts, last) && Genuine(attempts, Deliver(tag, f))
    requires Paced(attempts, r, last) && Whole(attempts, r, last, heads) && Continues(attempts, last, tag, heads)
    ensures RawFrame(f) && IsData(f)
    ensures Whole(attempts, React(r, Deliver(tag, f)), tag, heads)
  {
    if Wanted(r.slot, tag.k) {
      if tag.k != 0 {
        HeadFits(attempts, r.slot, last, tag, heads);
      }
      WantedWhole(attempts, r, tag, f, heads);
    } else {
      UnwantedPaced(attempts, r, last, tag, f);
      UnwantedWhole(attempts, r, last, tag, heads);
    }
  }

  lemma UnwantedWhole(attempts: seq<Attempt>, r: Receiver, last: Tag, tag: Tag, heads: bool)
    requires AllOk(attempts) && Whole(attempts, r, last, heads) && Continues(attempts, last, tag, heads)
    requires SlotOk(r.slot) && !Wanted(r.slot, tag.k)
    ensures Whole(attempts, r, tag, heads)
  {
  }

  // --- runs ---

  ghost predicate InStep(attempts: seq<Attempt>, r: Receiver, ts: seq<Tag>)
    requires AllOk(attempts) && forall t :: t in ts ==> ValidTag(attempts, t)
  {
    if ts == [] then SlotOk(r.slot) && r.slot.len == 0 && r.slot.seqn == 0 && r.exposed == []
    else Paced(attempts, r, ts[|ts| - 1])
  }

  lemma {:induction false} TagsValid(attempts: seq<Attempt>, evs: seq<Event>)
    requires AllGenuine(attempts, evs)
    ensures forall t :: t in Tags(evs) ==> ValidTag(attempts, t)
  {
    if evs != [] {
      TagsValid(attempts, evs[..|evs| - 1]);
      assert evs[|evs| - 1] in evs;
    }
  }

  lemma DeliverInStep(attempts: seq<Attempt>, r: Receiver, ts: seq<Tag>, tag: Tag, f: Heard)
    requires AllOk(attempts) && (forall t :: t in ts ==> ValidTag(attempts, t))
    requires Genuine(attempts, Deliver(tag, f)) && InStep(attempts, r, ts) && Sequence(ts + [tag])
    ensures RawFrame(f) && IsData(f)
    ensures Paced(attempts, React(r, Deliver(tag, f)), tag)
  {
    var all := ts + [tag];
    if ts != [] {
      assert InSequence(all[|ts| - 1], all[|ts|]);
      DeliverPaced(attempts, r, ts[|ts| - 1], tag, f);
    } else if Wanted(r.slot, tag.k) {
      WantedPaced(attempts, r, tag, f);
    } else {
      StaleFrame(r.slot, attempts[tag.msg].m, tag.k, f);
    }
  }

  lemma QuietInStep(attempts: seq<Attempt>, r: Receiver, ts: seq<Tag>, e: Event)
    requires AllOk(attempts) && (forall t :: t in ts ==> ValidTag(attempts, t))
    requires InStep(attempts, r, ts) && !e.Deliver?
    ensures SlotOk(r.slot) && InStep(attempts, React(r, e), ts)
  {
  }

  lemma {:induction false} SequenceSoFar(evs: seq<Event>)
    requires evs != [] && Sequence(Tags(evs))
    ensures var ts := Tags(evs[..|evs| - 1]);
            Sequence(ts) && Tags(evs) == ts + if evs[|evs| - 1].Deliver? then [evs[|evs| - 1].tag] else []
  {
    var ts := Tags(evs[..|evs| - 1]);
    forall i | 0 < i < |ts| ensures InSequence(ts[i - 1], ts[i]) {
      assert ts[i - 1] == Tags(evs)[i - 1] && ts[i] == Tags(evs)[i];
    }
  }

  /** Whatever is lost or repeated, after every event of a run the slot is in step with the last arrival. */
  lemma {:induction false} RunInStep(attempts: seq<Attempt>, evs: seq<Event>)
    requires LossyRun(attempts, evs)
    ensures forall t :: t in Tags(evs) ==> ValidTag(attempts, t)
    ensures InStep(attempts, Receive(attempts, evs), Tags(evs))
    decreases |evs|
  {
    TagsValid(attempts, evs);
    if evs != [] {
      hide Paced, React;
      var init, e := evs[..|evs| - 1], evs[|evs| - 1];
      assert e in evs;
      SequenceSoFar(evs);
      RunInStep(attempts, init);
      if e.Deliver? {
        DeliverInStep(attempts, Receive(attempts, init), Tags(init), e.tag, e.f);
      } else {
        QuietInStep(attempts, Receive(attempts, init), Tags(init), e);
      }
    }
  }

  /** What keeps messages whole when frames may be lost: heads come first, or no two messages clash. */
  ghost predicate Unspliced(attempts: seq<Attempt>, evs: seq<Event>, heads: bool) {
    LossyRun(attempts, evs) && if heads then HeadsFirst(Tags(evs)) else NoClash(Messages(attempts))
  }

  ghost predicate WholeStep(attempts: seq<Attempt>, r: Receiver, ts: seq<Tag>, heads: bool)
    requires AllOk(attempts)
  {
    if ts == [] then r.slot.seqn == 0 && r.exposed == [] else Whole(attempts, r, ts[|ts| - 1], heads)
  }

  lemma QuietWhole(attempts: seq<Attempt>, r: Receiver, ts: seq<Tag>, e: Event, heads: bool)
    requires AllOk(attempts) && SlotOk(r.slot) && WholeStep(attempts, r, ts, heads) && !e.Deliver?
    ensures WholeStep(attempts, React(r, e), ts, heads)
  {
    if ts != [] && !heads && r.slot.seqn != 0 {
      var i: nat :| i <= ts[|ts| - 1].msg && HeadOf(attempts, r.slot, i);
      assert e.Read? ==> HeadOf(attempts, React(r, e).slot, i);
    }
  }

  lemma DeliverWholeStep(attempts: seq<Attempt>, r: Receiver, ts: seq<Tag>, tag: Tag, f: Heard, heads: bool)
    requires AllOk(attempts) && (forall t :: t in ts ==> ValidTag(attempts, t))
    requires Genuine(attempts, Deliver(tag, f)) && InStep(attempts, r, ts) && WholeStep(attempts, r, ts, heads)
    requires Sequence(ts + [tag]) && if heads then HeadsFirst(ts + [tag]) else NoClash(Messages(attempts))
    ensures RawFrame(f) && IsData(f)
    ensures Whole(attempts, React(r, Deliver(tag, f)), tag, heads)
  {
    var all := ts + [tag];
    if ts != [] {
      assert InSequence(all[|ts| - 1], all[|ts|]);
      DeliverWhole(attempts, r, ts[|ts| - 1], tag, f, heads);
    } else if Wanted(r.slot, tag.k) {
      WantedWhole(attempts, r, tag, f, heads);
    } else {
      StaleFrame(r.slot, attempts[tag.msg].m, tag.k, f);
    }
  }

  lemma HeadsSoFar(ts: seq<Tag>, more: seq<Tag>)
    requires HeadsFirst(ts + more)
    ensures HeadsFirst(ts)
  {
    var all := ts + more;
    assert forall i :: 0 <= i < |ts| ==> ts[i] == all[i];
    forall i | 0 < i < |ts| && ts[i - 1].msg < ts[i].msg ensures ts[i].k == 0 {
      assert all[i - 1].msg < all[i].msg;
    }
  }

  lemma {:induction false} RunIsWhole(attempts: seq<Attempt>, evs: seq<Event>, heads: bool)
    requires Unspliced(attempts, evs, heads)
    ensures WholeStep(attempts, Receive(attempts, evs), Tags(evs), heads)
    decreases |evs|
  {
    if evs != [] {
      hide Paced, Whole, React;
      var init, e := evs[..|evs| - 1], evs[|evs| - 1];
      assert e in evs;
      SequenceSoFar(evs);
      if heads {
        HeadsSoFar(Tags(init), if e.Deliver? then [e.tag] else []);
      }
      RunInStep(attempts, init);
      RunIsWhole(attempts, init, heads);
      if e.Deliver? {
        DeliverWholeStep(attempts, Receive(attempts, init), Tags(init), e.tag, e.f, heads);
      } else {
        QuietWhole(attempts, Receive(attempts, init), Tags(init), e, heads);
      }
    }
  }

  /**
    * Over every run - frames and whole messages lost, aborted messages, repeats, frames discarded while
    * the slot was full, reads and reallocations at any time - every message the receiver exposes is byte
    * for byte one message given to the sender, never a splice of two, as long as the first arrival of
    * each message is its frame 0; and whatever is lost, if no two messages clash.
    */
  lemma {:induction false} NeverASplice(attempts: seq<Attempt>, evs: seq<Event>, i: nat)
    requires LossyRun(attempts, evs) && (HeadsFirst(Tags(evs)) || NoClash(Messages(attempts)))
    requires i < |Receive(attempts, evs).exposed|
    ensures var e := Receive(attempts, evs).exposed[i];
            e.msg < |attempts| && e.bytes == attempts[e.msg].m
  {
    RunIsWhole(attempts, evs, HeadsFirst(Tags(evs)));
  }

  /**
    * Whatever is lost, messages come out in the order their last frames were sent, and one of several
    * frames at most once.
    */
  lemma {:induction false} OrderedWithoutRepeats(attempts: seq<Attempt>, evs: seq<Event>, i: nat, j: nat)
    requires LossyRun(attempts, evs)
    requires i < j < |Receive(attempts, evs).exposed|
    ensures var ex := Receive(attempts, evs).exposed;
            && ex[i].msg <= ex[j].msg < |attempts|
            && (ex[i].msg == ex[j].msg ==> |attempts[ex[i].msg].m| <= PW_MSG_SIZE)
    decreases j - i
  {
    RunInStep(attempts, evs);
    if i + 1 < j {
      OrderedWithoutRepeats(attempts, evs, i + 1, j);
    }
  }

  /** A frame that carries fragment k of m. */
  function Carrier(m: seq<byte>, k: nat): (f: Heard)
    requires Message(m) && k < FrameCount(m)
    ensures Carries(f, m, k)
  {
    var bytes := Fragment(m, k, 0);
    var f := Heard(0, |bytes|, bytes + Zeros(MTU - |bytes|));
    assert f.buf[..f.len] == bytes;
    f
  }

  /** A repeat that arrives after the application has read the message is taken for a new one. */
  lemma ShortMessageTwice(m: seq<byte>, f: Heard)
    requires 1 <= |m| <= PW_MSG_SIZE && Carries(f, m, 0)
    ensures var attempts, evs := [Attempt(m, [2])], [Deliver(Tag(0, 0), f), Read, Deliver(Tag(0, 0), f)];
            && AckedRun(attempts, evs)
            && Receive(attempts, evs).exposed == [Exposed(0, m), Exposed(0, m)]
  {
    var attempts := [Attempt(m, [2])];
    var t := Tag(0, 0);
    var first, second := [Deliver(t, f)], [Deliver(t, f), Read];
    var evs := second + [Deliver(t, f)];
    assert AttemptTags(0, [2]) == [t, t] by {
      assert [2][..0] == [];
    }
    assert Stream(attempts) == [t, t];
    assert first[..0] == [] && second[..1] == first && evs[..2] == second;
    assert Tags(first) == [t];
    assert Tags(second) == [t];
    assert Tags(evs) == [t, t];
    NextFrame(EMPTY_SLOT, m, 0, f);
    assert Receive(attempts, []) == Receiver(EMPTY_SLOT, []);
    var r1 := Receive(attempts, first);
    assert r1.slot == Accept(EMPTY_SLOT, f) && r1.exposed == [Exposed(0, m)];
    var r2 := Receive(attempts, second);
    assert r2.slot == r1.slot.(len := 0) && r2.exposed == r1.exposed;
    NextFrame(r2.slot, m, 0, f);
    assert evs == [Deliver(t, f), Read, Deliver(t, f)];
  }

  /** One sending of m comes out as the i-th and again as the j-th message. */
  ghost predicate TwiceIn(m: seq<byte>, attempts: seq<Attempt>, evs: seq<Event>, i: nat, j: nat) {
    && LossyRun(attempts, evs) && i < j < |Receive(attempts, evs).exposed|
    && var ex := Receive(attempts, evs).exposed;
       ex[i].msg == ex[j].msg < |attempts| && attempts[ex[i].msg].m == m
  }

  ghost predicate MayComeTwice(m: seq<byte>) {
    exists attempts: seq<Attempt>, evs: seq<Event>, i: nat, j: nat :: TwiceIn(m, attempts, evs, i, j)
  }

  /** "At most once" is false of exactly the messages of one frame, even on the acknowledged channel. */
  lemma TwiceIff(m: seq<byte>)
    requires Message(m)
    ensures MayComeTwice(m) <==> |m| <= PW_MSG_SIZE
  {
    if |m| <= PW_MSG_SIZE {
      var f := Carrier(m, 0);
      ShortMessageTwice(m, f);
      var attempts, evs := [Attempt(m, [2])], [Deliver(Tag(0, 0), f), Read, Deliver(Tag(0, 0), f)];
      AckedKeepsHeads(attempts, evs);
      assert TwiceIn(m, attempts, evs, 0, 1);
    }
    if MayComeTwice(m) {
      var attempts: seq<Attempt>, evs: seq<Event>, i: nat, j: nat :| TwiceIn(m, attempts, evs, i, j);
      OrderedWithoutRepeats(attempts, evs, i, j);
    }
  }

  // --- when messages can be spliced ---

  /** Frame k of a message is also that of any message which agrees with it there and ends there or not alike. */
  lemma SameFragment(m: seq<byte>, n: seq<byte>, k: nat, f: Heard)
    requires Message(m) && Message(n) && k < FrameCount(m) && k < FrameCount(n) && Carries(f, m, k)
    requires k + 1 == FrameCount(m) <==> k + 1 == FrameCount(n)
    requires m[PW_MSG_SIZE * k..Min(PW_MSG_SIZE * (k + 1), |m|)] == n[PW_MSG_SIZE * k..Min(PW_MSG_SIZE * (k + 1), |n|)]
    ensures Carries(f, n, k)
  {
    var rfu: byte :| f.buf[..f.len] == Fragment(m, k, rfu);
    assert Fragment(n, k, rfu) == Fragment(m, k, rfu);
  }

  /** The head of one message and the tail of another. */
  function Spliced(m: seq<byte>, n: seq<byte>, k: nat): (r: seq<byte>)
    requires Message(m) && Message(n) && k < FrameCount(m) && k < FrameCount(n)
    ensures |r| == |n| && Message(r) && FrameCount(r) == FrameCount(n)
    ensures (k >= 1 && m[..PW_MSG_SIZE * k] != n[..PW_MSG_SIZE * k] ==> r != n)
  {
    m[..PW_MSG_SIZE * k] + n[PW_MSG_SIZE * k..]
  }

  lemma SameSlice(m: seq<byte>, n: seq<byte>, a: nat, b: nat, from: nat, to: nat)
    requires a <= from <= to <= b <= |m| && b <= |n| && m[a..b] == n[a..b]
    ensures m[from..to] == n[from..to]
  {
    forall k | from <= k < to ensures m[k] == n[k] {
      assert m[a..b][k - a] == m[k] && n[a..b][k - a] == n[k];
    }
  }

  /** Frame t of the spliced message carries what frame t of the first message carries. */
  lemma HeadFrame(m: seq<byte>, n: seq<byte>, k: nat, t: nat, f: Heard)
    requires Message(m) && Message(n) && k < FrameCount(m) && k < FrameCount(n)
    requires t < k && Carries(f, Spliced(m, n, k), t)
    ensures Carries(f, m, t)
  {
    var r, o := Spliced(m, n, k), PW_MSG_SIZE * k;
    assert r[0..o] == m[0..o];
    SameSlice(r, m, 0, o, PW_MSG_SIZE * t, PW_MSG_SIZE * (t + 1));
    SameFragment(r, m, t, f);
  }

  /** Or of the second. */
  lemma TailFrame(m: seq<byte>, n: seq<byte>, k: nat, t: nat, f: Heard)
    requires Message(m) && Message(n) && k < FrameCount(m) && k < FrameCount(n)
    requires k <= t < FrameCount(n) && Carries(f, Spliced(m, n, k), t)
    ensures Carries(f, n, t)
  {
    var r, o := Spliced(m, n, k), PW_MSG_SIZE * k;
    assert r[o..|n|] == n[o..|n|];
    SameSlice(r, n, o, |n|, PW_MSG_SIZE * t, Min(PW_MSG_SIZE * (t + 1), |n|));
    SameFragment(r, n, t, f);
  }

  function Ones(n: nat): (copies: seq<nat>)
    ensures |copies| == n && forall k :: 0 <= k < n ==> copies[k] == 1
  {
    seq(n, _ => 1)
  }

  /** Every frame of every message goes out once, and is acknowledged. */
  function AllSent(msgs: seq<seq<byte>>): (attempts: seq<Attempt>)
    requires AllMessages(msgs)
    ensures AllOk(attempts) && Messages(attempts) == msgs
  {
    seq(|msgs|, i requires 0 <= i < |msgs| => Attempt(msgs[i], Ones(FrameCount(msgs[i]))))
  }

  /** Of everything sent, only the first k frames of message i and the frames from k on of message j arrive. */
  function SplicedArrivals(msgs: seq<seq<byte>>, i: nat, j: nat, k: nat, n: nat): (evs: seq<Event>)
    requires AllMessages(msgs) && i < |msgs| && j < |msgs| && k < FrameCount(msgs[i]) && k < FrameCount(msgs[j])
    requires n <= FrameCount(msgs[j])
  {
    if n == 0 then []
    else
      SplicedArrivals(msgs, i, j, k, n - 1)
      + [Deliver(Tag(if n - 1 < k then i else j, n - 1), Carrier(Spliced(msgs[i], msgs[j], k), n - 1))]
  }

  lemma SentIsGenuine(msgs: seq<seq<byte>>, x: nat, k: nat, f: Heard)
    requires AllMessages(msgs) && x < |msgs| && k < FrameCount(msgs[x]) && Carries(f, msgs[x], k)
    ensures Genuine(AllSent(msgs), Deliver(Tag(x, k), f))
  {
    assert Messages(AllSent(msgs))[x] == msgs[x];
  }

  /** The first n frames of m have been taken; with the last of them it is handed over as message j. */
  ghost predicate Assembled(r: Receiver, m: seq<byte>, j: nat, n: nat)
    requires Message(m) && n <= FrameCount(m)
  {
    if n == FrameCount(m) then r.exposed == [Exposed(j, m)]
    else r.exposed == [] && SlotOk(r.slot) && r.slot.len == 0 && (n > 0 ==> Partial(r.slot, m, n))
  }

  lemma NextAssembled(r: Receiver, m: seq<byte>, j: nat, n: nat, tag: Tag, f: Heard)
    requires Message(m) && 0 < n <= FrameCount(m) && Carries(f, m, n - 1) && Assembled(r, m, j, n - 1) && SlotOk(r.slot)
    requires n == FrameCount(m) ==> tag.msg == j
    ensures RawFrame(f) && IsData(f) && Assembled(React(r, Deliver(tag, f)), m, j, n)
  {
    NextFrame(r.slot, m, n - 1, f);
  }

  lemma {:induction false} OneMore(attempts: seq<Attempt>, init: seq<Event>, evs: seq<Event>, tag: Tag, f: Heard)
    requires LossyRun(attempts, init) && evs == init + [Deliver(tag, f)] && Genuine(attempts, Deliver(tag, f))
    requires var ts := Tags(init); ts != [] ==> InSequence(ts[|ts| - 1], tag)
    ensures RawFrame(f) && IsData(f) && LossyRun(attempts, evs) && Tags(evs) == Tags(init) + [tag]
    ensures Receive(attempts, evs) == React(Receive(attempts, init), Deliver(tag, f))
  {
    assert evs[..|evs| - 1] == init;
    GenuineIsData(attempts, Deliver(tag, f));
  }

  /** A run on these n arrivals, and what it leaves: n frames of the spliced message taken. */
  ghost predicate Splicing(msgs: seq<seq<byte>>, i: nat, j: nat, k: nat, n: nat, evs: seq<Event>)
    requires AllMessages(msgs) && i < j < |msgs| && Clash(msgs[i], msgs[j], k) && n <= FrameCount(msgs[j])
  {
    && LossyRun(AllSent(msgs), evs)
    && (var ts := Tags(evs);
        if n == 0 then ts == []
        else ts != [] && ts[|ts| - 1] == Tag(if n - 1 < k then i else j, n - 1))
    && Assembled(Receive(AllSent(msgs), evs), Spliced(msgs[i], msgs[j], k), j, n)
  }

  lemma {:induction false} SplicingStep(msgs: seq<seq<byte>>, i: nat, j: nat, k: nat, n: nat, init: seq<Event>)
    requires AllMessages(msgs) && i < j < |msgs| && Clash(msgs[i], msgs[j], k) && 0 < n <= FrameCount(msgs[j])
    requires Splicing(msgs, i, j, k, n - 1, init)
    ensures var tag := Tag(if n - 1 < k then i else j, n - 1);
            Splicing(msgs, i, j, k, n, init + [Deliver(tag, Carrier(Spliced(msgs[i], msgs[j], k), n - 1))])
  {
    hide Assembled, Spliced, Receive, Sequence, AllGenuine, Genuine, Carries, AllSent, FrameCount;
    var m := Spliced(msgs[i], msgs[j], k);
    var tag, f := Tag(if n - 1 < k then i else j, n - 1), Carrier(m, n - 1);
    if n - 1 < k {
      HeadFrame(msgs[i], msgs[j], k, n - 1, f);
    } else {
      TailFrame(msgs[i], msgs[j], k, n - 1, f);
    }
    SentIsGenuine(msgs, tag.msg, n - 1, f);
    OneMore(AllSent(msgs), init, init + [Deliver(tag, f)], tag, f);
    NextAssembled(Receive(AllSent(msgs), init), m, j, n, tag, f);
  }

  lemma {:induction false} SplicedRun(msgs: seq<seq<byte>>, i: nat, j: nat, k: nat, n: nat)
    requires AllMessages(msgs) && i < j < |msgs| && Clash(msgs[i], msgs[j], k) && n <= FrameCount(msgs[j])
    ensures Splicing(msgs, i, j, k, n, SplicedArrivals(msgs, i, j, k, n))
  {
    if n > 0 {
      hide Splicing, Spliced, FrameCount, Clash;
      SplicedRun(msgs, i, j, k, n - 1);
      SplicingStep(msgs, i, j, k, n, SplicedArrivals(msgs, i, j, k, n - 1));
    }
  }

  /** The x-th message handed over is not the one its last frame belongs to. */
  ghost predicate SplicesAt(msgs: seq<seq<byte>>, attempts: seq<Attempt>, evs: seq<Event>, x: nat) {
    && LossyRun(attempts, evs) && Messages(attempts) == msgs && x < |Receive(attempts, evs).exposed|
    && var e := Receive(attempts, evs).exposed[x]; e.msg < |msgs| && e.bytes != msgs[e.msg]
  }

  ghost predicate MaySplice(msgs: seq<seq<byte>>) {
    exists attempts: seq<Attempt>, evs: seq<Event>, x: nat :: SplicesAt(msgs, attempts, evs, x)
  }

  /**
    * On a channel that keeps the order and may lose anything, a sender's messages can be spliced exactly if
    * one of them clashes with a later one.
    */
  lemma SpliceIff(msgs: seq<seq<byte>>)
    requires AllMessages(msgs)
    ensures MaySplice(msgs) <==> !NoClash(msgs)
  {
    if !NoClash(msgs) {
      var i, j, k: nat :| 0 <= i < j < |msgs| && Clash(msgs[i], msgs[j], k);
      SplicedRun(msgs, i, j, k, FrameCount(msgs[j]));
      assert SplicesAt(msgs, AllSent(msgs), SplicedArrivals(msgs, i, j, k, FrameCount(msgs[j])), 0);
    }
    if MaySplice(msgs) && NoClash(msgs) {
      var attempts: seq<Attempt>, evs: seq<Event>, x: nat :| SplicesAt(msgs, attempts, evs, x);
      NeverASplice(attempts, evs, x);
    }
  }

  /** A sender of messages of one frame is safe under any loss. */
  lemma ShortNeverClash(msgs: seq<seq<byte>>)
    requires AllMessages(msgs) && forall i :: 0 <= i < |msgs| ==> |msgs[i]| <= PW_MSG_SIZE
    ensures NoClash(msgs) && !MaySplice(msgs)
  {
    SpliceIff(msgs);
  }

  /**
    * Two messages of two frames each with different heads, all acknowledged: a change of channel flushes
    * the second frame of one and the first of the other, and what the application is handed is neither.
    */
  lemma SpliceUnderLoss(m1: seq<byte>, m2: seq<byte>)
    requires Message(m1) && Message(m2) && FrameCount(m1) == FrameCount(m2) == 2
    requires m1[..PW_MSG_SIZE] != m2[..PW_MSG_SIZE]
    ensures var attempts, evs := AllSent([m1, m2]), SplicedArrivals([m1, m2], 0, 1, 1, 2);
            var out := m1[..PW_MSG_SIZE] + m2[PW_MSG_SIZE..];
            && LossyRun(attempts, evs) && Tags(evs) == [Tag(0, 0), Tag(1, 1)]
            && Receive(attempts, evs).exposed == [Exposed(1, out)]
            && out != m2 && (m1[PW_MSG_SIZE..] != m2[PW_MSG_SIZE..] ==> out != m1)
  {
    var msgs, out := [m1, m2], m1[..PW_MSG_SIZE] + m2[PW_MSG_SIZE..];
    SplicedRun(msgs, 0, 1, 1, 2);
    assert out == Spliced(m1, m2, 1);
    assert out[PW_MSG_SIZE..] == m2[PW_MSG_SIZE..];
    var one, two := SplicedArrivals(msgs, 0, 1, 1, 1), SplicedArrivals(msgs, 0, 1, 1, 2);
    assert SplicedArrivals(msgs, 0, 1, 1, 0) == [] && |one| == 1 && |two| == 2 && two[..1] == one && one[..0] == [];
    assert Tags(one) == [Tag(0, 0)];
  }
}
