/** manager.c: the gateway's table of known devices. */
module KnownPeers {
  import opened Bytes
  import opened SlotTable

  const MAX_PEERS := 5
  const EPERM: int := -1
  const GUINT: nat := 0x1_0000_0000

  /** An entry; the all-zero address marks a free one. */
  datatype Known = Known(addr: Mac, status: bool)
  datatype Table = Table(slots: seq<Known>, size: nat)

  predicate Taken(k: Known) {
    k.addr != NO_MAC
  }

  function AddrOf(k: Known): Mac {
    k.addr
  }

  /** The devices the table stands for. */
  ghost function Members(slots: seq<Known>): (s: set<Mac>) {
    Keys(slots, Taken, AddrOf)
  }

  ghost predicate Ok(t: Table) {
    |t.slots| == MAX_PEERS && Distinct(t.slots, Taken, AddrOf) && t.size == Count(t.slots, Taken)
  }

  /** The first slot from i on that holds the address, or the number of slots. */
  function IndexOf(slots: seq<Known>, mac: Mac, i: nat): (k: nat)
    requires i <= |slots|
    ensures i <= k <= |slots|
    ensures k < |slots| ==> slots[k].addr == mac
    ensures forall j :: i <= j < k ==> slots[j].addr != mac
    decreases |slots| - i
  {
    if i == |slots| || slots[i].addr == mac then i else IndexOf(slots, mac, i + 1)
  }

  // --- the operations on values ---

  /** The scan of add_known_device meets the address; a free slot is address 0, if below the last device. */
  predicate Found(t: Table, mac: Mac)
    requires |t.slots| == MAX_PEERS
  {
    var at := IndexOf(t.slots, mac, 0);
    at < MAX_PEERS && (mac != NO_MAC || at < t.size)
  }

  /** `registered` is the answer of the bus; a failed file write changes nothing here. */
  function AddTo(t: Table, mac: Mac, registered: bool): (r: (Table, bool))
    requires |t.slots| == MAX_PEERS
  {
    var free := IndexOf(t.slots, NO_MAC, 0);
    if Found(t, mac) then (t, true)
    else if t.size < MAX_PEERS && registered && free < MAX_PEERS
    then (Table(t.slots[free := Known(mac, false)], t.size + 1), true)
    else (t, false)
  }

  function RemoveFrom(t: Table, mac: Mac, unregistered: bool): (r: (Table, bool))
    requires |t.slots| == MAX_PEERS
  {
    var at := IndexOf(t.slots, mac, 0);
    if at < MAX_PEERS && unregistered
    then (Table(t.slots[at := t.slots[at].(addr := NO_MAC)], (t.size + GUINT - 1) % GUINT), true)
    else (t, false)
  }

  // --- refinement of a bounded set ---

  lemma {:induction false} MemberIsIndexed(slots: seq<Known>, mac: Mac)
    requires mac != NO_MAC
    ensures mac in Members(slots) <==> IndexOf(slots, mac, 0) < |slots|
  {
    var at := IndexOf(slots, mac, 0);
    if at < |slots| {
      assert slots[at].addr == mac;
    }
  }

  /** There is a free slot exactly while the size is below MAX_PEERS. */
  lemma FreeWhileRoom(t: Table)
    requires Ok(t)
    ensures IndexOf(t.slots, NO_MAC, 0) < MAX_PEERS <==> t.size < MAX_PEERS
    ensures t.size == |Members(t.slots)| <= MAX_PEERS
  {
    CountIsCardinality(t.slots, Taken, AddrOf);
    RoomIff(t.slots, Taken, IndexOf(t.slots, NO_MAC, 0));
  }

  /** Adding succeeds exactly if the device is known, or there is room and registration succeeds. */
  lemma AddRefines(t: Table, mac: Mac, registered: bool)
    requires Ok(t) && mac != NO_MAC
    ensures var (u, r) := AddTo(t, mac, registered);
            var s := Members(t.slots);
            && Ok(u) && u.size == |Members(u.slots)|
            && (r <==> mac in s || (|s| < MAX_PEERS && registered))
            && Members(u.slots) == if r then s + {mac} else s
  {
    var u := AddTo(t, mac, registered).0;
    var free := IndexOf(t.slots, NO_MAC, 0);
    MemberIsIndexed(t.slots, mac);
    FreeWhileRoom(t);
    if u != t {
      DistinctAdd(t.slots, Taken, AddrOf, free, Known(mac, false));
      KeysAdd(t.slots, Taken, AddrOf, free, Known(mac, false));
      CountUpdate(t.slots, Taken, free, Known(mac, false));
    }
    FreeWhileRoom(u);
  }

  lemma RemoveRefines(t: Table, mac: Mac, unregistered: bool)
    requires Ok(t) && mac != NO_MAC
    ensures var (u, r) := RemoveFrom(t, mac, unregistered);
            var s := Members(t.slots);
            && Ok(u) && u.size == |Members(u.slots)|
            && (r <==> mac in s && unregistered)
            && Members(u.slots) == if r then s - {mac} else s
  {
    var (u, r) := RemoveFrom(t, mac, unregistered);
    var at := IndexOf(t.slots, mac, 0);
    MemberIsIndexed(t.slots, mac);
    if r {
      DistinctRemove(t.slots, Taken, AddrOf, at, t.slots[at].(addr := NO_MAC));
      KeysRemove(t.slots, Taken, AddrOf, at, t.slots[at].(addr := NO_MAC));
      CountUpdate(t.slots, Taken, at, t.slots[at].(addr := NO_MAC));
    }
    FreeWhileRoom(u);
  }

  /** The first entry with this address. */
  ghost predicate FirstWith(slots: seq<Known>, mac: Mac, i: nat) {
    i < |slots| && slots[i].addr == mac && forall j :: 0 <= j < i ==> slots[j].addr != mac
  }

  /** A new device takes the first free entry, offline, and no other entry changes; otherwise none does. */
  lemma AddRecords(t: Table, mac: Mac, registered: bool) returns (i: nat)
    requires Ok(t) && mac != NO_MAC
    ensures var (u, r) := AddTo(t, mac, registered);
            if r && mac !in Members(t.slots)
            then FirstWith(t.slots, NO_MAC, i) && u == Table(t.slots[i := Known(mac, false)], t.size + 1)
            else u == t
  {
    i := IndexOf(t.slots, NO_MAC, 0);
    MemberIsIndexed(t.slots, mac);
    FreeWhileRoom(t);
  }

  /** A removed device's entry becomes free, and no other entry changes. */
  lemma RemoveRecords(t: Table, mac: Mac, unregistered: bool) returns (i: nat)
    requires Ok(t) && mac != NO_MAC
    ensures var (u, r) := RemoveFrom(t, mac, unregistered);
            if r then
              && FirstWith(t.slots, mac, i) && u.slots == t.slots[i := t.slots[i].(addr := NO_MAC)]
              && u.size + 1 == t.size
            else u == t
  {
    i := IndexOf(t.slots, mac, 0);
    MemberIsIndexed(t.slots, mac);
    FreeWhileRoom(t);
  }

  datatype Call = Add(mac: Mac, registered: bool) | Remove(dev: Mac, unregistered: bool)

  function Step(t: Table, c: Call): (r: (Table, bool))
    requires |t.slots| == MAX_PEERS
    ensures |r.0.slots| == MAX_PEERS
  {
    match c
    case Add(mac, registered) => AddTo(t, mac, registered)
    case Remove(mac, unregistered) => RemoveFrom(t, mac, unregistered)
  }

  function Run(t: Table, calls: seq<Call>): (r: (Table, seq<bool>))
    requires |t.slots| == MAX_PEERS
    ensures |r.0.slots| == MAX_PEERS
    decreases |calls|
  {
    if calls == [] then (t, [])
    else
      var (u, b) := Step(t, calls[0]);
      var (v, bs) := Run(u, calls[1..]);
      (v, [b] + bs)
  }

  /** The same calls on a set that holds at most five addresses. */
  ghost function SetStep(s: set<Mac>, c: Call): (r: (set<Mac>, bool)) {
    match c
    case Add(mac, registered) =>
      if mac in s then (s, true)
      else if |s| < MAX_PEERS && registered then (s + {mac}, true)
      else (s, false)
    case Remove(mac, unregistered) => if mac in s && unregistered then (s - {mac}, true) else (s, false)
  }

  ghost function SetRun(s: set<Mac>, calls: seq<Call>): (r: (set<Mac>, seq<bool>))
    decreases |calls|
  {
    if calls == [] then (s, [])
    else
      var (t, b) := SetStep(s, calls[0]);
      var (u, bs) := SetRun(t, calls[1..]);
      (u, [b] + bs)
  }

  predicate Nonzero(c: Call) {
    match c
    case Add(mac, _) => mac != NO_MAC
    case Remove(mac, _) => mac != NO_MAC
  }

  lemma StepRefines(t: Table, c: Call)
    requires Ok(t) && Nonzero(c)
    ensures var (u, b) := Step(t, c); Ok(u) && (Members(u.slots), b) == SetStep(Members(t.slots), c)
  {
    match c
    case Add(mac, registered) => AddRefines(t, mac, registered);
    case Remove(mac, unregistered) => RemoveRefines(t, mac, unregistered);
  }

  /** Under every sequence of adds and removes the table answers and changes like the set. */
  lemma {:induction false} RunRefines(t: Table, calls: seq<Call>)
    requires Ok(t) && forall i :: 0 <= i < |calls| ==> Nonzero(calls[i])
    ensures var (u, bs) := Run(t, calls);
            && Ok(u) && (Members(u.slots), bs) == SetRun(Members(t.slots), calls)
            && u.size == |Members(u.slots)| <= MAX_PEERS
    decreases |calls|
  {
    if calls == [] {
      FreeWhileRoom(t);
    } else {
      assert Nonzero(calls[0]);
      StepRefines(t, calls[0]);
      RunRefines(Step(t, calls[0]).0, calls[1..]);
    }
  }

  // --- address 0 ---

  /** Adding address 0 breaks the table exactly when the scan finds no gap, there is room and the bus agrees. */
  lemma AddKeepsTableIff(t: Table, mac: Mac, registered: bool)
    requires Ok(t)
    ensures Ok(AddTo(t, mac, registered).0)
            <==> !(mac == NO_MAC && registered && t.size < MAX_PEERS && IndexOf(t.slots, NO_MAC, 0) >= t.size)
  {
    if mac != NO_MAC {
      AddRefines(t, mac, registered);
    } else {
      var free := IndexOf(t.slots, NO_MAC, 0);
      FreeWhileRoom(t);
      if free < MAX_PEERS {
        CountUpdate(t.slots, Taken, free, Known(mac, false));
      }
    }
  }

  /** Removing address 0 breaks it exactly when there is a free slot and the bus agrees. */
  lemma RemoveKeepsTableIff(t: Table, mac: Mac, unregistered: bool)
    requires Ok(t)
    ensures Ok(RemoveFrom(t, mac, unregistered).0) <==> !(mac == NO_MAC && unregistered && t.size < MAX_PEERS)
  {
    if mac != NO_MAC {
      RemoveRefines(t, mac, unregistered);
    } else {
      var at := IndexOf(t.slots, NO_MAC, 0);
      FreeWhileRoom(t);
      if at < MAX_PEERS {
        assert t.slots[at := t.slots[at].(addr := NO_MAC)] == t.slots;
      }
    }
  }

  lemma AddZeroExample()
    ensures var t := Table([Known(NO_MAC, false), Known(NO_MAC, false), Known(NO_MAC, false),
                            Known(NO_MAC, false), Known(NO_MAC, false)], 0);
            && Ok(t) && !Ok(AddTo(t, NO_MAC, true).0) && !Ok(RemoveFrom(t, NO_MAC, true).0)
  {
    var k := Known(NO_MAC, false);
    var t := Table([k, k, k, k, k], 0);
    CountFree(t.slots, Taken);
    AddKeepsTableIff(t, NO_MAC, true);
    RemoveKeepsTableIff(t, NO_MAC, true);
  }

  /** check_permission lets in the known devices, and address 0 while there is a free slot. */
  function Permission(slots: seq<Known>, mac: Mac): (r: int) {
    if IndexOf(slots, mac, 0) < |slots| then 0 else EPERM
  }

  lemma PermissionIff(t: Table, mac: Mac)
    requires Ok(t)
    ensures Permission(t.slots, mac) == 0
            <==> mac in Members(t.slots) || (mac == NO_MAC && t.size < MAX_PEERS)
  {
    FreeWhileRoom(t);
    if mac != NO_MAC {
      MemberIsIndexed(t.slots, mac);
    }
  }

  /** What a session for the device does to its entry. */
  function Marked(slots: seq<Known>, mac: Mac): (r: seq<Known>)
    ensures |r| == |slots|
  {
    var at := IndexOf(slots, mac, 0);
    if at < |slots| then slots[at := slots[at].(status := true)] else slots
  }

  lemma MarkKeepsTable(t: Table, mac: Mac)
    requires Ok(t)
    ensures var u := t.(slots := Marked(t.slots, mac)); Ok(u) && Members(u.slots) == Members(t.slots)
  {
    var at := IndexOf(t.slots, mac, 0);
    var u := Marked(t.slots, mac);
    if at < MAX_PEERS {
      CountUpdate(t.slots, Taken, at, u[at]);
    }
    assert forall i :: 0 <= i < MAX_PEERS ==> u[i].addr == t.slots[i].addr;
    SameMembers(t.slots, u);
    SameMembers(u, t.slots);
  }

  /** Exactly the device's entry goes online. */
  lemma MarkRecords(t: Table, mac: Mac, i: nat)
    requires Ok(t) && mac in Members(t.slots) && mac != NO_MAC && i < MAX_PEERS
    ensures Marked(t.slots, mac)[i] == if t.slots[i].addr == mac then Known(mac, true) else t.slots[i]
  {
    MemberIsIndexed(t.slots, mac);
    var at := IndexOf(t.slots, mac, 0);
    assert i != at && t.slots[i].addr == mac ==> AddrOf(t.slots[i]) == AddrOf(t.slots[at]);
  }

  lemma SameMembers(a: seq<Known>, b: seq<Known>)
    requires |a| == |b| && forall i :: 0 <= i < |a| ==> a[i].addr == b[i].addr
    ensures Members(a) <= Members(b)
  {
    forall m: Mac | m in Members(a) ensures m in Members(b) {
      var i :| 0 <= i < |a| && Taken(a[i]) && AddrOf(a[i]) == m;
      assert Taken(b[i]) && AddrOf(b[i]) == m;
    }
  }

  // --- the table as the daemon keeps it ---

  class Adapter {
    const known: array<Known>
    var size: nat

    ghost function Contents(): (t: Table)
      reads this, known
    {
      Table(known[..], size)
    }

    ghost predicate Valid()
      reads this, known
    {
      Ok(Contents())
    }

    /** Entries distinct apart from free ones, as the file on disk lists them. */
    constructor (entries: array<Known>, size: nat)
      requires Ok(Table(entries[..], size))
      ensures known == entries && Valid() && Contents() == Table(entries[..], size)
    {
      known := entries;
      this.size := size;
    }

    /** add_known_device: the scan stops once it has passed every device, and never leaves the array. */
    method AddKnownDevice(mac: Mac, registered: bool) returns (response: bool)
      requires Valid()
      modifies this, known
      ensures (Contents(), response) == AddTo(old(Contents()), mac, registered)
    {
      hide Ok, Count;
      var i, allocPos, freePos := 0, 0, -1;
      ghost var t := Contents();
      NothingPassed(t);
      while allocPos < size
        invariant Contents() == t && 0 <= i <= MAX_PEERS && allocPos == Count(t.slots[..i], Taken) <= size
        invariant forall k :: 0 <= k < i ==> t.slots[k].addr != mac
        invariant freePos == if IndexOf(t.slots, NO_MAC, 0) < i then IndexOf(t.slots, NO_MAC, 0) else -1
        decreases MAX_PEERS - i
      {
        ScanInside(t, i);
        if known[i].addr == mac {
          FoundAt(t, mac, i);
          return true;
        } else if known[i].addr != NO_MAC {
          allocPos := allocPos + 1;
        } else if freePos < 0 {
          freePos := i;
        }
        i := i + 1;
      }
      PassedAll(t, mac, i);
      if freePos < 0 {
        freePos := i;
      }
      if size < MAX_PEERS {
        if !registered {
          return false;
        }
        known[freePos] := known[freePos].(addr := mac);
        known[freePos] := known[freePos].(status := false);
        assert known[..] == t.slots[freePos := Known(mac, false)];
        size := size + 1;
        return true;
      }
      return false;
    }

    method RemoveKnownDevice(mac: Mac, unregistered: bool) returns (response: bool)
      requires Valid()
      modifies this, known
      ensures (Contents(), response) == RemoveFrom(old(Contents()), mac, unregistered)
    {
      var i := 0;
      while i < MAX_PEERS
        invariant 0 <= i <= MAX_PEERS && Contents() == old(Contents())
        invariant IndexOf(known[..], mac, i) == IndexOf(known[..], mac, 0)
      {
        if known[i].addr == mac {
          if !unregistered {
            return false;
          }
          known[i] := known[i].(addr := NO_MAC);
          size := (size + GUINT - 1) % GUINT;
          return true;
        }
        i := i + 1;
      }
      return false;
    }

    method MarkOnline(mac: Mac)
      requires known.Length == MAX_PEERS
      modifies known
      ensures Contents() == old(Contents()).(slots := Marked(old(known[..]), mac))
    {
      var i := 0;
      while i < MAX_PEERS
        invariant 0 <= i <= MAX_PEERS && known[..] == old(known[..])
        invariant IndexOf(known[..], mac, i) == IndexOf(known[..], mac, 0)
      {
        if mac == known[i].addr {
          known[i] := known[i].(status := true);
          break;
        }
        i := i + 1;
      }
    }

    method CheckPermission(mac: Mac) returns (r: int)
      requires known.Length == MAX_PEERS
      ensures r == Permission(known[..], mac)
    {
      var i := 0;
      while i < MAX_PEERS
        invariant 0 <= i <= MAX_PEERS && IndexOf(known[..], mac, i) == IndexOf(known[..], mac, 0)
      {
        if mac == known[i].addr {
          return 0;
        }
        i := i + 1;
      }
      return EPERM;
    }
  }

  lemma NothingPassed(t: Table)
    requires Ok(t)
    ensures |t.slots| == MAX_PEERS && Count(t.slots[..0], Taken) == 0 <= t.size
    ensures t.size < MAX_PEERS ==> IndexOf(t.slots, NO_MAC, 0) < MAX_PEERS
  {
    FreeWhileRoom(t);
  }

  lemma FoundAt(t: Table, mac: Mac, i: nat)
    requires Ok(t) && i < MAX_PEERS && t.slots[i].addr == mac && Count(t.slots[..i], Taken) < t.size
    requires forall k :: 0 <= k < i ==> t.slots[k].addr != mac
    ensures Found(t, mac)
  {
    assert IndexOf(t.slots, mac, 0) == i;
    if mac == NO_MAC {
      CountFull(t.slots, Taken, i);
    }
  }

  /** Past the last device: the address is not there, and the first free slot is known. */
  lemma PassedAll(t: Table, mac: Mac, i: nat)
    requires Ok(t) && i <= MAX_PEERS && Count(t.slots[..i], Taken) == t.size
    requires forall k :: 0 <= k < i ==> t.slots[k].addr != mac
    ensures !Found(t, mac)
    ensures var free := IndexOf(t.slots, NO_MAC, 0); free >= i ==> free == i
  {
    forall k | i <= k < MAX_PEERS ensures t.slots[k].addr == NO_MAC {
      TailFree(t.slots, i, k);
    }
    assert i < MAX_PEERS ==> t.slots[i].addr == NO_MAC;
    if mac == NO_MAC {
      CountFull(t.slots, Taken, i);
    }
  }

  /** While devices remain ahead the scan is inside the array. */
  lemma ScanInside(t: Table, i: nat)
    requires Ok(t) && i <= MAX_PEERS && Count(t.slots[..i], Taken) < t.size
    ensures i < MAX_PEERS
    ensures Count(t.slots[..i + 1], Taken) == Count(t.slots[..i], Taken) + if t.slots[i].addr != NO_MAC then 1 else 0
    ensures Count(t.slots[..i + 1], Taken) <= t.size
  {
    assert t.slots[..MAX_PEERS] == t.slots;
    CountPrefix(t.slots, Taken, i);
    CountPrefix(t.slots, Taken, i + 1);
  }

  lemma {:induction false} TailFree(slots: seq<Known>, i: nat, k: nat)
    requires i <= k < |slots| && Count(slots[..i], Taken) == Count(slots, Taken)
    ensures slots[k].addr == NO_MAC
  {
    CountMonotone(slots, Taken, i, k);
    CountPrefix(slots, Taken, k);
    CountPrefix(slots, Taken, k + 1);
  }
}
