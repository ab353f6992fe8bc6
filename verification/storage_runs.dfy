/** Any sequence of storage calls: what was stored under one name stays until that name is written. */
module StorageRuns {
  import opened Bytes
  import opened Storage

  datatype Op =
    | WriteEnd(id: nat, value: seq<byte>)
    | ReadEnd(id: nat, len: nat)
    | ResetEnd
    | Write(addr: nat, data: seq<byte>)
    | Read(at: nat, count: nat)

  ghost predicate Sized(r: Record) {
    RecordOk(r) && CONFIG_MAX <= |Low(r)|
  }

  /** Every call leaves a record of the same size: room only moves between configuration and user area. */
  function Apply(r: Record, op: Op): (t: Record)
    requires Sized(r)
    ensures Sized(t) && |Low(t)| == |Low(r)|
  {
    match op
    case WriteEnd(id, v) => RecordWriteEnd(r, id, v).r
    case ReadEnd(id, len) => RecordReadEnd(r, id, len).r
    case ResetEnd => RecordReset(r)
    case Write(addr, v) => RecordWrite(r, addr, v).r
    case Read(addr, len) => RecordRead(r, addr, len).r
  }

  function Run(r: Record, ops: seq<Op>): (t: Record)
    requires Sized(r)
    ensures Sized(t) && |Low(t)| == |Low(r)|
    decreases |ops|
  {
    if ops == [] then r else Run(Apply(r, ops[0]), ops[1..])
  }

  /** The longest value the name takes, or -1 for an unknown name. */
  function Limit(id: nat): (n: int) {
    match EntryOf(id)
    case None => -1
    case Some(Fixed(f)) => FieldSize(f)
    case Some(Config) => CONFIG_MAX
  }

  /** Calls that may change what is stored under e: a reset, or a write under that name that succeeds. */
  predicate Touches(op: Op, e: Entry) {
    op.ResetEnd? || (op.WriteEnd? && EntryOf(op.id) == Some(e) && |op.value| <= Limit(op.id))
  }

  function Stored(r: Record, e: Entry): (v: Option<seq<byte>>)
    requires RecordOk(r)
  {
    match e
    case Fixed(f) => EveryField(f); Some(r.fields[f])
    case Config => r.config
  }

  lemma UntouchedByOne(r: Record, op: Op, e: Entry)
    requires Sized(r) && !Touches(op, e)
    ensures Stored(Apply(r, op), e) == Stored(r, e)
  {
  }

  lemma {:induction false} UntouchedStays(r: Record, ops: seq<Op>, e: Entry)
    requires Sized(r) && forall i :: 0 <= i < |ops| ==> !Touches(ops[i], e)
    ensures Stored(Run(r, ops), e) == Stored(r, e)
    decreases |ops|
  {
    hide Apply, Stored;
    if ops != [] {
      assert !Touches(ops[0], e);
      UntouchedByOne(r, ops[0], e);
      UntouchedStays(Apply(r, ops[0]), ops[1..], e);
    }
  }

  /** A write at the end succeeds exactly for a known name and a value that fits; a failed one changes nothing. */
  lemma WriteEndFails(r: Record, id: nat, v: seq<byte>)
    requires Sized(r)
    ensures var o := RecordWriteEnd(r, id, v);
            && (o.n == |v| <==> |v| <= Limit(id))
            && (o.n != |v| ==> o.n == Storage.EINVAL && o.r == r)
  {
  }

  /** read_end hands out the beginning of what is stored under the name. */
  lemma ReadsStored(r: Record, e: Entry, id: nat, len: nat, v: seq<byte>)
    requires Sized(r) && EntryOf(id) == Some(e)
    requires Stored(r, e).Some? && |v| <= |Stored(r, e).value| && Stored(r, e).value[..|v|] == v
    requires len == |v| || (|v| <= len && e == Config && Stored(r, e) == Some(v))
    requires e == Config ==> |v| <= CONFIG_MAX
    ensures RecordReadEnd(r, id, len).n == |v| && RecordReadEnd(r, id, len).data == v
  {
    if e.Fixed? {
      EveryField(e.field);
    }
  }

  lemma WriteStores(r: Record, e: Entry, id: nat, v: seq<byte>)
    requires Sized(r) && EntryOf(id) == Some(e) && RecordWriteEnd(r, id, v).n == |v|
    ensures var s := Stored(Apply(r, WriteEnd(id, v)), e);
            && s.Some? && |v| <= |s.value| && s.value[..|v|] == v && (e == Config ==> s == Some(v) && |v| <= CONFIG_MAX)
  {
    if e.Fixed? {
      EveryField(e.field);
      assert Over(r.fields[e.field], v)[..|v|] == v;
    } else {
      assert v[..|v|] == v;
    }
  }

  /**
    * What a successful write_end stored is read back exactly, whatever reads, user writes and writes
    * under other names come between. A configuration also reads back at its own length however much is
    * asked for.
    */
  lemma {:induction false} WrittenIsReadBack(r: Record, e: Entry, id: nat, v: seq<byte>, ops: seq<Op>, extra: nat)
    requires Sized(r) && EntryOf(id) == Some(e) && RecordWriteEnd(r, id, v).n == |v|
    requires forall i :: 0 <= i < |ops| ==> !Touches(ops[i], e)
    ensures var t := Run(Apply(r, WriteEnd(id, v)), ops);
            && RecordReadEnd(t, id, |v|).n == |v| && RecordReadEnd(t, id, |v|).data == v
            && (e == Config ==>
                  RecordReadEnd(t, id, |v| + extra).n == |v| && RecordReadEnd(t, id, |v| + extra).data == v)
  {
    hide *;
    var w := Apply(r, WriteEnd(id, v));
    WriteStores(r, e, id, v);
    UntouchedStays(w, ops, e);
    ReadsStored(Run(w, ops), e, id, |v|, v);
    if e == Config {
      ReadsStored(Run(w, ops), e, id, |v| + extra, v);
    }
  }

  /** What read_end answers: the stored bytes up to the room, EINVAL for no name, EFAULT for no configuration. */
  lemma ReadEndAnswers(r: Record, id: nat, len: nat)
    requires Sized(r)
    ensures var o := RecordReadEnd(r, id, len);
            match EntryOf(id)
            case None => o.n == -22 && o.data == []
            case Some(e) =>
              match Stored(r, e)
              case None => o.n == -14 && o.data == []
              case Some(v) =>
                o.n == Min(len, if e == Config then Min(|v|, 140) else |v|) && o.data == v[..o.n]
  {
    if EntryOf(id).Some? && EntryOf(id).value.Fixed? {
      EveryField(EntryOf(id).value.field);
    }
  }

  /** A value shorter than its field replaces the beginning and leaves the rest. */
  lemma ShortValueKeepsRest(r: Record, id: nat, f: Field, v: seq<byte>)
    requires Sized(r) && EntryOf(id) == Some(Fixed(f)) && |v| <= FieldSize(f) && f in r.fields
    ensures RecordReadEnd(Apply(r, WriteEnd(id, v)), id, FieldSize(f)).data == v + r.fields[f][|v|..]
  {
    EveryField(f);
    var w := Over(r.fields[f], v);
    assert w[..FieldSize(f)] == w;
  }

  lemma ResetStores(r: Record, e: Entry)
    requires Sized(r)
    ensures Stored(Apply(r, ResetEnd), e) == Some(if e.Fixed? then Zeros(FieldSize(e.field)) else [])
  {
    if e.Fixed? {
      EveryField(e.field);
    }
  }

  /**
    * After a reset, and any calls that do not touch the name, a field reads as zeros and the configuration
    * as nothing, however much is asked for and whatever the EEPROM held before, a senseless length word
    * included.
    */
  lemma {:induction false} ResetReads(r: Record, ops: seq<Op>, id: nat, e: Entry, len: nat)
    requires Sized(r) && EntryOf(id) == Some(e) && forall i :: 0 <= i < |ops| ==> !Touches(ops[i], e)
    ensures var o := RecordReadEnd(Run(Apply(r, ResetEnd), ops), id, len);
            match e
            case Fixed(f) => o.n == Min(len, FieldSize(f)) && o.data == Zeros(o.n)
            case Config => o.n == 0 && o.data == []
  {
    hide RecordReadEnd, Stored, Apply, Run, Touches;
    ResetStores(r, e);
    UntouchedStays(Apply(r, ResetEnd), ops, e);
    ReadEndAnswers(Run(Apply(r, ResetEnd), ops), id, len);
    if e.Fixed? {
      assert Zeros(FieldSize(e.field))[..Min(len, FieldSize(e.field))] == Zeros(Min(len, FieldSize(e.field)));
    }
  }

  /** And the user area is everything below, bytes of the old configuration included. */
  lemma ResetOpensUser(r: Record, addr: nat, len: nat)
    requires Sized(r)
    ensures var o, low := RecordRead(Apply(r, ResetEnd), addr, len), Low(r);
            && o.n == (if addr >= |low| then 0 else Min(len, |low| - addr))
            && o.data == (if o.n == 0 then [] else low[addr..addr + o.n])
  {
  }

  // --- the user area ---

  /** Calls that leave the bytes of the user area from addr to addr + n alone, and do not move its end. */
  predicate SparesUser(op: Op, addr: nat, n: nat) {
    match op
    case WriteEnd(id, v) => EntryOf(id) != Some(Config) || |v| > Limit(id)
    case ResetEnd => false
    case Write(a, v) => a + |v| <= addr || addr + n <= a
    case _ => true
  }

  lemma {:induction false} SparedStays(r: Record, ops: seq<Op>, addr: nat, n: nat)
    requires Sized(r) && addr + n <= |r.user| && forall i :: 0 <= i < |ops| ==> SparesUser(ops[i], addr, n)
    ensures var t := Run(r, ops);
            t.config == r.config && |t.user| == |r.user| && t.user[addr..addr + n] == r.user[addr..addr + n]
    decreases |ops|
  {
    if ops != [] {
      SparedByOne(r, ops[0], addr, n);
      SparedStays(Apply(r, ops[0]), ops[1..], addr, n);
    }
  }

  lemma SparedByOne(r: Record, op: Op, addr: nat, n: nat)
    requires Sized(r) && addr + n <= |r.user| && SparesUser(op, addr, n)
    ensures var t := Apply(r, op);
            t.config == r.config && |t.user| == |r.user| && t.user[addr..addr + n] == r.user[addr..addr + n]
  {
    if op.Write? {
      var k := Fits(r, op.addr, |op.data|);
      if k != 0 {
        SliceKept(r.user, op.addr, op.data[..k], addr, addr + n);
      }
    }
  }

  lemma WriteLands(r: Record, addr: nat, v: seq<byte>)
    requires Sized(r) && RecordWrite(r, addr, v).n > 0
    ensures var n, w := RecordWrite(r, addr, v).n, Apply(r, Write(addr, v));
            && r.config.Some? && w.config == r.config && |w.user| == |r.user| && addr + n <= |r.user|
            && w.user[addr..addr + n] == v[..n] && n == Clip(addr, |v|, |r.user|)
  {
  }

  lemma WriteCounts(r: Record, addr: nat, v: seq<byte>)
    ensures var o := RecordWrite(r, addr, v);
            && o.n == (if r.config.None? || addr >= |r.user| then 0 else Min(|v|, |r.user| - addr))
            && (o.n == 0 ==> o.r == r)
  {
  }

  lemma ReadsUser(r: Record, addr: nat, len: nat, n: nat)
    requires r.config.Some? && n > 0 && n == Clip(addr, len, |r.user|)
    ensures RecordRead(r, addr, len).n == n && RecordRead(r, addr, len).data == r.user[addr..addr + n]
  {
  }

  /**
    * A user write at any address and length reports how many bytes lay below the stored configuration,
    * and reading the same range returns exactly those, until a configuration write or a write over them.
    */
  lemma {:induction false} UserReadBack(r: Record, addr: nat, v: seq<byte>, ops: seq<Op>)
    requires Sized(r)
    requires var n := RecordWrite(r, addr, v).n; forall i :: 0 <= i < |ops| ==> SparesUser(ops[i], addr, n)
    ensures var o := RecordWrite(r, addr, v);
            var back := RecordRead(Run(Apply(r, Write(addr, v)), ops), addr, |v|);
            && (o.n > 0 ==> back.n == o.n && back.data == v[..o.n])
            && o.n == (if r.config.None? || addr >= |r.user| then 0 else Min(|v|, |r.user| - addr))
            && (o.n == 0 ==> o.r == r)
  {
    WriteCounts(r, addr, v);
    hide *;
    var n, w := RecordWrite(r, addr, v).n, Apply(r, Write(addr, v));
    if n > 0 {
      WriteLands(r, addr, v);
      SparedStays(w, ops, addr, n);
      ReadsUser(Run(w, ops), addr, |v|, n);
    }
  }

  /**
    * User bytes do not always outlive a configuration write: they do exactly when they lie below the new
    * configuration.
    */
  lemma UserSurvivesConfigIff(r: Record, addr: nat, v: seq<byte>, c: seq<byte>)
    requires Sized(r) && v != [] && RecordWrite(r, addr, v).n == |v| && |c| <= CONFIG_MAX
    ensures var t := RecordWriteEnd(RecordWrite(r, addr, v).r, 4, c).r;
            RecordRead(t, addr, |v|).data == v <==> addr + |v| <= |Low(r)| - |c|
  {
    var w := RecordWrite(r, addr, v).r;
    var t := RecordWriteEnd(w, 4, c).r;
    assert v[..|v|] == v;
    if addr + |v| <= |t.user| {
      SliceOfSlice(Low(w), 0, |t.user|, addr, addr + |v|);
      SliceOfSlice(Low(w), 0, |w.user|, addr, addr + |v|);
      assert Low(w)[..|w.user|] == w.user;
    }
  }

  /** The bytes a configuration gives up come back as user bytes, with what the configuration held in them. */
  lemma ShrinkExposes(r: Record, c: seq<byte>)
    requires Sized(r) && r.config.Some? && |c| <= |r.config.value| && |c| <= CONFIG_MAX
    ensures var t := RecordWriteEnd(r, 4, c).r;
            t.user == r.user + r.config.value[..|r.config.value| - |c|]
  {
  }
}
