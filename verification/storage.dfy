/**
  * storage_avr.cpp: one EEPROM byte array holding seven fixed fields, a length word, a configuration
  * that grows downward from it, and the user area below.
  */
module Storage {
  import opened Bytes

  /** HAL_STORAGE_ID_CONFIG may take 28 bytes for each of 5 configurations. */
  const CONFIG_MAX := 140
  const EINVAL: int := -22
  const EFAULT: int := -14

  datatype Field = Uuid | Token | MacAddress | SchemaFlag | PrivateKey | PublicKey | ForeignKey
  const FIELDS: set<Field> := {Uuid, Token, MacAddress, SchemaFlag, PrivateKey, PublicKey, ForeignKey}

  lemma EveryField(f: Field)
    ensures f in FIELDS
  {
    match f
    case _ =>
  }

  datatype Entry = Fixed(field: Field) | Config

  /** What a storage identifier names. */
  function EntryOf(id: nat): (e: Option<Entry>) {
    match id
    case 0 => Some(Fixed(Uuid))
    case 1 => Some(Fixed(Token))
    case 2 => Some(Fixed(MacAddress))
    case 3 => Some(Fixed(SchemaFlag))
    case 4 => Some(Config)
    case 5 => Some(Fixed(PrivateKey))
    case 6 => Some(Fixed(PublicKey))
    case 7 => Some(Fixed(ForeignKey))
    case _ => None
  }

  function FieldSize(f: Field): (n: nat) {
    match f
    case Uuid => 36
    case Token => 40
    case MacAddress => 8
    case SchemaFlag => 1
    case PrivateKey => 32
    case PublicKey => 64
    case ForeignKey => 64
  }

  /** How far a field starts below the end of the EEPROM. */
  function FromEnd(f: Field): (n: nat)
    ensures FieldSize(f) <= n <= 245
  {
    match f
    case Uuid => 36
    case Token => 36 + 40
    case MacAddress => 36 + 40 + 8
    case SchemaFlag => 36 + 40 + 8 + 1
    case PrivateKey => 36 + 40 + 8 + 1 + 32
    case PublicKey => 36 + 40 + 8 + 1 + 32 + 64
    case ForeignKey => 36 + 40 + 8 + 1 + 32 + 64 + 64
  }

  /** Room for the fixed part and the largest configuration; 16-bit addresses reach every byte. */
  predicate SizeOk(size: nat) {
    247 + CONFIG_MAX <= size <= 65536
  }

  /** ADDR_OFFSET_CONFIG, which is also EEPROM_SIZE_FREE. */
  function Free(size: nat): (a: nat)
    requires SizeOk(size)
  {
    size - 247
  }

  function FieldAddr(size: nat, f: Field): (a: nat)
    requires SizeOk(size)
    ensures Free(size) + 2 <= a && a + FieldSize(f) <= size
  {
    size - FromEnd(f)
  }

  // --- the record a caller thinks of ---

  /**
    * Independent fields, the configuration if the length word makes sense, and the user area below it.
    */
  datatype Record = Record(fields: map<Field, seq<byte>>, config: Option<seq<byte>>, user: seq<byte>)

  ghost predicate RecordOk(r: Record) {
    r.fields.Keys == FIELDS && forall f :: f in FIELDS ==> |r.fields[f]| == FieldSize(f)
  }

  /** A result: the new record, the number returned, the bytes handed out. */
  datatype Outcome = Outcome(r: Record, n: int, data: seq<byte>)

  /** Everything below the length word. */
  function Low(r: Record): seq<byte> {
    r.user + if r.config.Some? then r.config.value else []
  }

  function Over(was: seq<byte>, v: seq<byte>): (r: seq<byte>)
    requires |v| <= |was|
  {
    v + was[|v|..]
  }

  /** A short value replaces the beginning of a field; a new configuration takes its room from the user area. */
  function RecordWriteEnd(r: Record, id: nat, v: seq<byte>): (o: Outcome)
    requires RecordOk(r) && CONFIG_MAX <= |Low(r)|
  {
    match EntryOf(id)
    case None => Outcome(r, EINVAL, [])
    case Some(Fixed(f)) =>
      if |v| > FieldSize(f) then Outcome(r, EINVAL, [])
      else Outcome(r.(fields := r.fields[f := Over(r.fields[f], v)]), |v|, [])
    case Some(Config) =>
      if |v| > CONFIG_MAX then Outcome(r, EINVAL, [])
      else Outcome(r.(config := Some(v), user := Low(r)[..|Low(r)| - |v|]), |v|, [])
  }

  function RecordReadEnd(r: Record, id: nat, len: nat): (o: Outcome)
    requires RecordOk(r)
  {
    match EntryOf(id)
    case None => Outcome(r, EINVAL, [])
    case Some(Fixed(f)) =>
      var n := Min(len, FieldSize(f)); Outcome(r, n, r.fields[f][..n])
    case Some(Config) =>
      if r.config.None? then Outcome(r, EFAULT, [])
      else var n := Min(Min(len, CONFIG_MAX), |r.config.value|); Outcome(r, n, r.config.value[..n])
  }

  function RecordReset(r: Record): (t: Record)
  {
    Record(map f | f in FIELDS :: Zeros(FieldSize(f)), Some([]), Low(r))
  }

  /** max(0, min(len, limit - addr)) */
  function Clip(addr: nat, len: nat, limit: nat): (n: nat)
    ensures n <= len && (n != 0 ==> addr + n <= limit)
  {
    if addr >= limit then 0 else Min(len, limit - addr)
  }

  /** How many of len bytes at addr lie in the user area: none while the length word makes no sense. */
  function Fits(r: Record, addr: nat, len: nat): (n: nat)
    ensures n <= len && (n != 0 ==> addr + n <= |r.user|)
  {
    if r.config.None? then 0 else Clip(addr, len, |r.user|)
  }

  function RecordWrite(r: Record, addr: nat, v: seq<byte>): (o: Outcome)
  {
    var n := Fits(r, addr, |v|);
    Outcome(if n == 0 then r else r.(user := Patch(r.user, addr, v[..n])), n, [])
  }

  function RecordRead(r: Record, addr: nat, len: nat): (o: Outcome)
  {
    var n := Fits(r, addr, len);
    Outcome(r, n, if n == 0 then [] else r.user[addr..addr + n])
  }

  // --- what the bytes mean ---

  /** The 16-bit little-endian word at address a. */
  function Word(m: seq<byte>, a: nat): (w: nat)
    requires a + 1 < |m|
  {
    var low: int, high: int := m[a], m[a + 1];
    low + 256 * high
  }

  function ConfigLen(m: seq<byte>): (w: nat)
    requires SizeOk(|m|)
  {
    Word(m, Free(|m|))
  }

  function FieldBytes(m: seq<byte>, f: Field): (v: seq<byte>)
    requires SizeOk(|m|)
    ensures |v| == FieldSize(f)
  {
    m[FieldAddr(|m|, f)..FieldAddr(|m|, f) + FieldSize(f)]
  }

  function Fields(m: seq<byte>): (r: map<Field, seq<byte>>)
    requires SizeOk(|m|)
  {
    map f | f in FIELDS :: FieldBytes(m, f)
  }

  function Abs(m: seq<byte>): (r: Record)
    requires SizeOk(|m|)
    ensures RecordOk(r) && |Low(r)| == Free(|m|)
  {
    var free, w := Free(|m|), ConfigLen(m);
    Record(Fields(m),
           if w <= free then Some(m[free - w..free]) else None,
           if w <= free then m[..free - w] else m[..free])
  }

  lemma LowBytes(m: seq<byte>)
    requires SizeOk(|m|)
    ensures Low(Abs(m)) == m[..Free(|m|)]
  {
    var free, w := Free(|m|), ConfigLen(m);
    if w <= free {
      assert m[..free] == m[..free - w] + m[free - w..free];
    }
  }

  lemma SliceKept(m: seq<byte>, a: nat, v: seq<byte>, i: nat, j: nat)
    requires a + |v| <= |m| && i <= j <= |m| && (j <= a || a + |v| <= i)
    ensures Patch(m, a, v)[i..j] == m[i..j]
  {
    var p := Patch(m, a, v);
    forall k | i <= k < j ensures p[k] == m[k] {
      if k < a {
        assert p[..a][k] == m[..a][k];
      } else {
        assert p[a + |v|..][k - a - |v|] == m[a + |v|..][k - a - |v|];
      }
    }
  }

  lemma SliceOfSlice(m: seq<byte>, a: nat, b: nat, i: nat, j: nat)
    requires a <= b <= |m| && i <= j <= b - a
    ensures m[a..b][i..j] == m[a + i..a + j]
  {
    forall k | 0 <= k < j - i ensures m[a..b][i..j][k] == m[a + i..a + j][k] {
      assert m[a..b][i..j][k] == m[a..b][i + k] == m[a + i + k];
    }
  }

  lemma PatchedSlice(m: seq<byte>, a: nat, v: seq<byte>, n: nat)
    requires |v| <= n && a + n <= |m|
    ensures Patch(m, a, v)[a..a + n] == Over(m[a..a + n], v)
  {
    var p := Patch(m, a, v);
    SliceKept(m, a, v, a + |v|, a + n);
    assert p[a..a + n] == p[a..a + |v|] + p[a + |v|..a + n];
  }

  lemma FieldsDisjoint(size: nat, f: Field, g: Field)
    requires SizeOk(size) && f != g
    ensures var a, b := FieldAddr(size, f), FieldAddr(size, g); a + FieldSize(f) <= b || b + FieldSize(g) <= a
  {
  }

  /** The fields fill everything above the length word, each byte belonging to one of them. */
  lemma FieldsTile(size: nat, a: nat)
    requires SizeOk(size) && Free(size) + 2 <= a < size
    ensures exists f: Field :: FieldAddr(size, f) <= a < FieldAddr(size, f) + FieldSize(f)
  {
    var f := if a >= size - 36 then Uuid else if a >= size - 76 then Token else if a >= size - 84 then MacAddress
             else if a >= size - 85 then SchemaFlag else if a >= size - 117 then PrivateKey
             else if a >= size - 181 then PublicKey else ForeignKey;
    assert FieldAddr(size, f) <= a < FieldAddr(size, f) + FieldSize(f);
  }

  lemma PrefixSlice(m: seq<byte>, p: seq<byte>, n: nat, i: nat, j: nat)
    requires n <= |m| && n <= |p| && p[..n] == m[..n] && i <= j <= n
    ensures p[i..j] == m[i..j]
  {
    assert p[i..j] == p[..n][i..j] && m[i..j] == m[..n][i..j];
  }

  /** Length word, configuration and user area depend only on the bytes below the fields. */
  lemma LowPart(m: seq<byte>, p: seq<byte>)
    requires SizeOk(|m|) && |p| == |m| && p[..Free(|m|) + 2] == m[..Free(|m|) + 2]
    ensures Abs(p).config == Abs(m).config && Abs(p).user == Abs(m).user
  {
    var free := Free(|m|);
    assert p[free] == p[..free + 2][free] && p[free + 1] == p[..free + 2][free + 1];
    var w := ConfigLen(m);
    PrefixSlice(m, p, free + 2, 0, free);
    if w <= free {
      PrefixSlice(m, p, free + 2, free - w, free);
      PrefixSlice(m, p, free + 2, 0, free - w);
    }
  }

  lemma OtherFieldKept(m: seq<byte>, f: Field, v: seq<byte>, g: Field)
    requires SizeOk(|m|) && |v| <= FieldSize(f) && f != g
    ensures FieldBytes(Patch(m, FieldAddr(|m|, f), v), g) == FieldBytes(m, g)
  {
    FieldsDisjoint(|m|, f, g);
    SliceKept(m, FieldAddr(|m|, f), v, FieldAddr(|m|, g), FieldAddr(|m|, g) + FieldSize(g));
  }

  /** Writing inside one field touches that field and nothing else of the record. */
  lemma FieldWriteRefines(m: seq<byte>, f: Field, v: seq<byte>)
    requires SizeOk(|m|) && |v| <= FieldSize(f)
    ensures var p := Patch(m, FieldAddr(|m|, f), v);
            Abs(p) == Abs(m).(fields := Abs(m).fields[f := Over(FieldBytes(m, f), v)])
  {
    var p := Patch(m, FieldAddr(|m|, f), v);
    SliceKept(m, FieldAddr(|m|, f), v, 0, Free(|m|) + 2);
    LowPart(m, p);
    FieldsAfterWrite(m, f, v);
  }

  lemma OtherFieldsKept(m: seq<byte>, f: Field, v: seq<byte>)
    requires SizeOk(|m|) && |v| <= FieldSize(f)
    ensures forall g: Field :: g != f ==> FieldBytes(Patch(m, FieldAddr(|m|, f), v), g) == FieldBytes(m, g)
  {
    forall g: Field | g != f ensures FieldBytes(Patch(m, FieldAddr(|m|, f), v), g) == FieldBytes(m, g) {
      OtherFieldKept(m, f, v, g);
    }
  }

  lemma FieldsAfterWrite(m: seq<byte>, f: Field, v: seq<byte>)
    requires SizeOk(|m|) && |v| <= FieldSize(f)
    ensures Fields(Patch(m, FieldAddr(|m|, f), v)) == Fields(m)[f := Over(FieldBytes(m, f), v)]
  {
    hide Fields, Patch, FieldAddr;
    PatchedSlice(m, FieldAddr(|m|, f), v, FieldSize(f));
    OtherFieldsKept(m, f, v);
    OneFieldChanged(m, Patch(m, FieldAddr(|m|, f), v), f);
  }

  lemma OneFieldChanged(m: seq<byte>, p: seq<byte>, f: Field)
    requires SizeOk(|m|) && |p| == |m| && forall g :: g != f ==> FieldBytes(p, g) == FieldBytes(m, g)
    ensures Fields(p) == Fields(m)[f := FieldBytes(p, f)]
  {
    assert f in FIELDS;
  }

  /** The fields depend only on the bytes above the length word. */
  lemma FieldPart(m: seq<byte>, p: seq<byte>)
    requires SizeOk(|m|) && |p| == |m| && p[Free(|m|) + 2..] == m[Free(|m|) + 2..]
    ensures Abs(p).fields == Abs(m).fields
  {
    var b := Free(|m|) + 2;
    forall f: Field ensures FieldBytes(p, f) == FieldBytes(m, f) {
      var a := FieldAddr(|m|, f);
      assert FieldBytes(p, f) == p[b..][a - b..a - b + FieldSize(f)];
      assert FieldBytes(m, f) == m[b..][a - b..a - b + FieldSize(f)];
    }
  }

  function WordBytes(w: nat): (b: seq<byte>)
    requires w < 65536
  {
    [w % 256, w / 256]
  }

  /** The memory after the length word and the configuration below it are written. */
  function ConfigWritten(m: seq<byte>, v: seq<byte>): (p: seq<byte>)
    requires SizeOk(|m|) && |v| <= CONFIG_MAX
    ensures |p| == |m|
  {
    Patch(Patch(m, Free(|m|), WordBytes(|v|)), Free(|m|) - |v|, v)
  }

  lemma ConfigBytes(m: seq<byte>, v: seq<byte>)
    requires SizeOk(|m|) && |v| <= CONFIG_MAX
    ensures var p, free := ConfigWritten(m, v), Free(|m|);
            && ConfigLen(p) == |v| && p[free - |v|..free] == v
            && p[..free - |v|] == m[..free - |v|] && p[free + 2..] == m[free + 2..]
  {
    hide Patch;
    var free := Free(|m|);
    var p1 := Patch(m, free, WordBytes(|v|));
    var p := Patch(p1, free - |v|, v);
    SliceKept(p1, free - |v|, v, free, free + 2);
    assert p[free] == p[free..free + 2][0] && p[free + 1] == p[free..free + 2][1];
    SliceKept(p1, free - |v|, v, free + 2, |m|);
    SliceKept(m, free, WordBytes(|v|), 0, free - |v|);
  }

  /** A configuration write sets the configuration and trims the user area; the fields stay. */
  lemma ConfigWriteRefines(m: seq<byte>, v: seq<byte>)
    requires SizeOk(|m|) && |v| <= CONFIG_MAX
    ensures Abs(ConfigWritten(m, v)) == Abs(m).(config := Some(v), user := Low(Abs(m))[..Free(|m|) - |v|])
  {
    ConfigBytes(m, v);
    FieldPart(m, ConfigWritten(m, v));
    LowBytes(m);
    assert m[..Free(|m|)][..Free(|m|) - |v|] == m[..Free(|m|) - |v|];
  }

  lemma SuffixSlice(m: seq<byte>, p: seq<byte>, n: nat, i: nat, j: nat)
    requires |p| == |m| && n <= i <= j <= |m| && p[n..] == m[n..]
    ensures p[i..j] == m[i..j]
  {
    forall k | i <= k < j ensures p[k] == m[k] {
      assert p[k] == p[n..][k - n] && m[k] == m[n..][k - n];
    }
  }

  /** Where the user area ends, and the configuration above it. */
  lemma ConfigStart(m: seq<byte>)
    requires SizeOk(|m|)
    ensures var free, w, r := Free(|m|), ConfigLen(m), Abs(m);
            if w > free then r.config.None?
            else r.config == Some(m[free - w..free]) && r.user == m[..free - w]
  {
  }

  lemma FieldOf(m: seq<byte>, f: Field)
    requires SizeOk(|m|)
    ensures f in Abs(m).fields && Abs(m).fields[f] == FieldBytes(m, f)
  {
  }

  lemma OverWhole(was: seq<byte>, v: seq<byte>)
    requires |v| == |was|
    ensures Over(was, v) == v
  {
  }

  /** The bytes of a write below the stored configuration, seen part by part. */
  lemma UserBytes(m: seq<byte>, addr: nat, v: seq<byte>)
    requires SizeOk(|m|) && ConfigLen(m) <= Free(|m|) && addr + |v| <= Free(|m|) - ConfigLen(m)
    ensures var p, free := Patch(m, addr, v), Free(|m|);
            var limit := free - ConfigLen(m);
            && ConfigLen(p) == ConfigLen(m) && p[limit..free] == m[limit..free]
            && p[..limit] == Patch(m[..limit], addr, v) && Abs(p).fields == Abs(m).fields
  {
    hide Patch, Abs;
    var p, free := Patch(m, addr, v), Free(|m|);
    var limit := free - ConfigLen(m);
    SliceKept(m, addr, v, limit, |m|);
    assert p[limit..] == m[limit..];
    SuffixSlice(m, p, limit, free + 2, |m|);
    FieldPart(m, p);
    SuffixSlice(m, p, limit, free, free + 2);
    assert p[free] == p[free..free + 2][0] && m[free] == m[free..free + 2][0];
    assert p[free + 1] == p[free..free + 2][1] && m[free + 1] == m[free..free + 2][1];
    SuffixSlice(m, p, limit, limit, free);
    PatchedPrefix(m, addr, v, limit);
  }

  /** A write inside the user area changes nothing at or above the stored configuration. */
  lemma UserWriteRefines(m: seq<byte>, addr: nat, v: seq<byte>)
    requires SizeOk(|m|) && Abs(m).config.Some? && addr + |v| <= |Abs(m).user|
    ensures addr + |v| <= |m|
    ensures Abs(Patch(m, addr, v)) == Abs(m).(user := Patch(Abs(m).user, addr, v))
  {
    hide Patch, Fields, FieldBytes;
    UserBytes(m, addr, v);
  }

  /** What the byte loop of hal_storage_write leaves, as a record and byte for byte. */
  lemma UserWritten(m: seq<byte>, p: seq<byte>, addr: nat, v: seq<byte>, n: nat)
    requires SizeOk(|m|) && Abs(m).config.Some? && n == Clip(addr, |v|, |Abs(m).user|) && |Abs(m).user| <= |m|
    requires p == if n == 0 then m else Patch(m, addr, v[..n])
    ensures |p| == |m| && Outcome(Abs(p), n, []) == RecordWrite(Abs(m), addr, v)
    ensures p[|Abs(m).user|..] == m[|Abs(m).user|..]
  {
    hide Abs;
    if n != 0 {
      UserWriteRefines(m, addr, v[..n]);
      SliceKept(m, addr, v[..n], |Abs(m).user|, |m|);
    }
  }

  lemma PatchedPrefix(m: seq<byte>, a: nat, v: seq<byte>, n: nat)
    requires a + |v| <= n <= |m|
    ensures Patch(m, a, v)[..n] == Patch(m[..n], a, v)
  {
    var p := Patch(m, a, v);
    SliceKept(m, a, v, a + |v|, n);
    assert p[..n] == p[..a] + p[a..a + |v|] + p[a + |v|..n];
    assert m[..n][..a] == m[..a] && m[..n][a + |v|..] == m[a + |v|..n];
  }

  lemma ZeroedFields(fields: map<Field, seq<byte>>)
    requires fields.Keys == FIELDS && forall f :: f in FIELDS ==> |fields[f]| == FieldSize(f)
    ensures var z := (f: Field) => Zeros(FieldSize(f));
            fields[Uuid := z(Uuid)][Token := z(Token)][MacAddress := z(MacAddress)][SchemaFlag := z(SchemaFlag)]
                  [PrivateKey := z(PrivateKey)][PublicKey := z(PublicKey)][ForeignKey := z(ForeignKey)]
            == map f | f in FIELDS :: Zeros(FieldSize(f))
  {
  }

  /** The EEPROM itself. */
  class Eeprom {
    const mem: array<byte>

    constructor (bytes: array<byte>)
      ensures mem == bytes
    {
      mem := bytes;
    }

    ghost predicate Valid() {
      SizeOk(mem.Length)
    }

    ghost function Contents(): (r: Record)
      requires Valid()
      reads mem
    {
      Abs(mem[..])
    }

    method ReadWord(addr: nat) returns (w: nat)
      requires addr + 1 < mem.Length
      ensures w == Word(mem[..], addr)
    {
      var low: int, high: int := mem[addr], mem[addr + 1];
      return low + 256 * high;
    }

    method WriteWord(addr: nat, w: nat)
      requires addr + 1 < mem.Length && w < 65536
      modifies mem
      ensures mem[..] == Patch(old(mem[..]), addr, WordBytes(w))
    {
      mem[addr] := w % 256;
      mem[addr + 1] := w / 256;
    }

    method WriteBlock(addr: nat, value: seq<byte>)
      requires addr + |value| <= mem.Length
      modifies mem
      ensures mem[..] == Patch(old(mem[..]), addr, value)
    {
      forall i | 0 <= i < |value| {
        mem[addr + i] := value[i];
      }
    }

    method ReadBlock(addr: nat, n: nat) returns (value: seq<byte>)
      requires addr + n <= mem.Length
      ensures value == mem[..][addr..addr + n]
    {
      value := mem[addr..addr + n];
    }

    /** The byte loop of hal_storage_write. */
    method WriteBytes(addr: nat, value: seq<byte>, limit: nat) returns (i: nat)
      requires limit <= mem.Length
      modifies mem
      ensures i == Clip(addr, |value|, limit)
      ensures mem[..] == if i == 0 then old(mem[..]) else Patch(old(mem[..]), addr, value[..i])
    {
      i := 0;
      while i < |value| && addr + i < limit
        invariant i <= |value| && (i != 0 ==> addr + i <= limit)
        invariant mem[..] == if i == 0 then old(mem[..]) else Patch(old(mem[..]), addr, value[..i])
      {
        PatchOneMore(old(mem[..]), addr, value, i);
        mem[addr + i] := value[i];
        i := i + 1;
      }
    }

    /** hal_storage_write: up to the start of the stored configuration, and never beyond. */
    method Write(addr: nat, value: seq<byte>) returns (n: nat)
      requires Valid()
      modifies mem
      ensures Outcome(Contents(), n, []) == RecordWrite(old(Contents()), addr, value)
      ensures mem[..][|old(Contents()).user|..] == old(mem[..])[|old(Contents()).user|..]
      ensures var free := mem.Length - 247;
              var word := Word(old(mem[..]), free);
              n == if word > free || addr >= free - word then 0 else Min(|value|, free - word - addr)
      ensures n == 0 ==> mem[..] == old(mem[..])
    {
      hide Abs, Patch;
      n := 0;
      var w := ReadWord(Free(mem.Length));
      ConfigStart(mem[..]);
      if w > Free(mem.Length) {
        return 0;
      }
      var limit := Free(mem.Length) - w;
      n := WriteBytes(addr, value, limit);
      UserWritten(old(mem[..]), mem[..], addr, value, n);
    }

    /** The byte loop of hal_storage_read. */
    method ReadBytes(addr: nat, len: nat, limit: nat) returns (i: nat, value: seq<byte>)
      requires limit <= mem.Length
      ensures i == Clip(addr, len, limit)
      ensures value == if i == 0 then [] else mem[..][addr..addr + i]
    {
      i, value := 0, [];
      while i < len && addr + i < limit
        invariant i <= len && (i != 0 ==> addr + i <= limit)
        invariant value == if i == 0 then [] else mem[..][addr..addr + i]
      {
        value := value + [mem[addr + i]];
        i := i + 1;
      }
    }

    /** hal_storage_read. */
    method Read(addr: nat, len: nat) returns (i: nat, value: seq<byte>)
      requires Valid()
      ensures Outcome(Contents(), i, value) == RecordRead(Contents(), addr, len)
    {
      hide Abs;
      var w := ReadWord(Free(mem.Length));
      ConfigStart(mem[..]);
      if w > Free(mem.Length) {
        return 0, [];
      }
      var limit := Free(mem.Length) - w;
      i, value := ReadBytes(addr, len, limit);
      if i != 0 {
        SliceOfSlice(mem[..], 0, limit, addr, addr + i);
      }
    }

    method WriteField(f: Field, value: seq<byte>)
      requires Valid() && |value| <= FieldSize(f)
      modifies mem
      ensures var r := old(Contents()); Contents() == r.(fields := r.fields[f := Over(r.fields[f], value)])
    {
      WriteBlock(FieldAddr(mem.Length, f), value);
      FieldWriteRefines(old(mem[..]), f, value);
    }

    method WriteConfig(value: seq<byte>)
      requires Valid() && |value| <= CONFIG_MAX
      modifies mem
      ensures var r := old(Contents());
              Contents() == r.(config := Some(value), user := Low(r)[..|Low(r)| - |value|])
    {
      hide Abs;
      WriteWord(Free(mem.Length), |value|);
      if |value| != 0 {
        WriteBlock(Free(mem.Length) - |value|, value);
      }
      assert mem[..] == ConfigWritten(old(mem[..]), value);
      ConfigWriteRefines(old(mem[..]), value);
    }

    /** hal_storage_write_end. */
    method WriteEnd(id: nat, value: seq<byte>) returns (r: int)
      requires Valid()
      modifies mem
      ensures Outcome(Contents(), r, []) == RecordWriteEnd(old(Contents()), id, value)
      ensures r < 0 ==> mem[..] == old(mem[..])
    {
      hide Abs;
      var len := |value|;
      match EntryOf(id) {
        case None => return EINVAL;
        case Some(Fixed(f)) =>
          if len > FieldSize(f) {
            return EINVAL;
          }
          WriteField(f, value);
        case Some(Config) =>
          if len > CONFIG_MAX || len > mem.Length {
            return EINVAL;
          }
          WriteConfig(value);
      }
      return len;
    }

    /** hal_storage_read_end. */
    method ReadEnd(id: nat, len: nat) returns (r: int, value: seq<byte>)
      requires Valid()
      ensures Outcome(Contents(), r, value) == RecordReadEnd(Contents(), id, len)
    {
      hide Abs;
      value := [];
      var n := len;
      match EntryOf(id) {
        case None => r := EINVAL;
        case Some(Fixed(f)) =>
          if n > FieldSize(f) {
            n := FieldSize(f);
          }
          var src := FieldAddr(mem.Length, f);
          value := ReadBlock(src, n);
          r := n;
          FieldOf(mem[..], f);
          SliceOfSlice(mem[..], src, src + FieldSize(f), 0, n);
        case Some(Config) =>
          if n > CONFIG_MAX {
            n := CONFIG_MAX;
          }
          var size := ReadWord(Free(mem.Length));
          ConfigStart(mem[..]);
          if size > Free(mem.Length) {
            return EFAULT, [];
          }
          if n > size {
            n := size;
          }
          if size == 0 {
            return 0, [];
          }
          var src := Free(mem.Length) - size;
          value := ReadBlock(src, n);
          r := n;
          SliceOfSlice(mem[..], src, Free(mem.Length), 0, n);
      }
    }

    method ClearField(id: nat, f: Field)
      requires Valid() && EntryOf(id) == Some(Fixed(f))
      modifies mem
      ensures var r := old(Contents()); Contents() == r.(fields := r.fields[f := Zeros(FieldSize(f))])
    {
      hide Abs;
      var r := WriteEnd(id, Zeros(FieldSize(f)));
      OverWhole(old(Contents()).fields[f], Zeros(FieldSize(f)));
    }

    method ClearFields()
      requires Valid()
      modifies mem
      ensures var r := old(Contents()); Contents() == r.(fields := map f | f in FIELDS :: Zeros(FieldSize(f)))
    {
      hide Abs;
      ClearField(0, Uuid);
      ClearField(1, Token);
      ClearField(2, MacAddress);
      ClearField(3, SchemaFlag);
      ClearField(5, PrivateKey);
      ClearField(6, PublicKey);
      ClearField(7, ForeignKey);
      ZeroedFields(old(Contents()).fields);
    }

    /** hal_storage_reset_end. */
    method ResetEnd()
      requires Valid()
      modifies mem
      ensures Contents() == RecordReset(old(Contents()))
      ensures Contents().config == Some([]) && Contents().user == Low(old(Contents()))
      ensures forall f :: f in FIELDS ==> Contents().fields[f] == Zeros(FieldSize(f))
    {
      hide Abs;
      ClearFields();
      ghost var low := Low(Contents());
      WriteConfig([]);
      assert low[..|low|] == low;
    }
  }

  lemma PatchOneMore(m: seq<byte>, addr: nat, value: seq<byte>, i: nat)
    requires i < |value| && addr + i < |m|
    ensures (if i == 0 then m else Patch(m, addr, value[..i]))[addr + i := value[i]] == Patch(m, addr, value[..i + 1])
  {
    assert value[..i + 1] == value[..i] + [value[i]];
  }
}
