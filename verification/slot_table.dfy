/** Fixed arrays of slots, some in use: how many, and which keys they hold. */
module SlotTable {
  function Count<T>(slots: seq<T>, used: T -> bool): (n: nat)
    ensures n <= |slots|
  {
    if slots == [] then 0
    else Count(slots[..|slots| - 1], used) + if used(slots[|slots| - 1]) then 1 else 0
  }

  ghost function Keys<T(!new), K(!new)>(slots: seq<T>, used: T -> bool, key: T -> K): (s: set<K>) {
    set i | 0 <= i < |slots| && used(slots[i]) :: key(slots[i])
  }

  /** No two slots in use hold the same key. */
  ghost predicate Distinct<T(!new), K(!new)>(slots: seq<T>, used: T -> bool, key: T -> K) {
    forall i, j :: 0 <= i < j < |slots| && used(slots[i]) && used(slots[j]) ==> key(slots[i]) != key(slots[j])
  }

  lemma {:induction false} CountPrefix<T>(slots: seq<T>, used: T -> bool, i: nat)
    requires i <= |slots|
    ensures Count(slots[..i], used) <= Count(slots, used)
    ensures i < |slots| ==> Count(slots[..i + 1], used) == Count(slots[..i], used) + if used(slots[i]) then 1 else 0
    decreases |slots|
  {
    if i < |slots| {
      assert slots[..i + 1][..i] == slots[..i];
      var init := slots[..|slots| - 1];
      CountPrefix(init, used, i);
      assert init[..i] == slots[..i];
    } else {
      assert slots[..i] == slots;
    }
  }

  lemma {:induction false} CountFull<T>(slots: seq<T>, used: T -> bool, i: nat)
    requires i <= |slots| && forall j :: 0 <= j < i ==> used(slots[j])
    ensures Count(slots[..i], used) == i
  {
    if i > 0 {
      CountFull(slots, used, i - 1);
      CountPrefix(slots, used, i - 1);
    }
  }

  lemma {:induction false} CountFree<T>(slots: seq<T>, used: T -> bool)
    requires forall j :: 0 <= j < |slots| ==> !used(slots[j])
    ensures Count(slots, used) == 0
  {
    if slots != [] {
      CountFree(slots[..|slots| - 1], used);
    }
  }

  /** Overwriting one slot. */
  lemma {:induction false} CountUpdate<T>(slots: seq<T>, used: T -> bool, i: nat, x: T)
    requires i < |slots|
    ensures Count(slots[i := x], used) == Count(slots, used) + (if used(x) then 1 else 0)
                                                             - (if used(slots[i]) then 1 else 0)
    decreases |slots|
  {
    var init := slots[..|slots| - 1];
    if i == |slots| - 1 {
      assert slots[i := x][..i] == init;
    } else {
      CountUpdate(init, used, i, x);
      assert slots[i := x][..|slots| - 1] == init[i := x];
    }
  }

  lemma {:induction false} CountMonotone<T>(slots: seq<T>, used: T -> bool, i: nat, k: nat)
    requires i <= k <= |slots|
    ensures Count(slots[..i], used) <= Count(slots[..k], used)
  {
    hide Count;
    if i < k {
      CountMonotone(slots, used, i, k - 1);
      CountPrefix(slots, used, k - 1);
    }
  }

  /** A free slot exists exactly while fewer are in use than there are. */
  lemma {:induction false} RoomIff<T>(slots: seq<T>, used: T -> bool, free: nat)
    requires free <= |slots| && (forall j :: 0 <= j < free ==> used(slots[j]))
    requires free < |slots| ==> !used(slots[free])
    ensures free < |slots| <==> Count(slots, used) < |slots|
  {
    CountFull(slots, used, free);
    if free < |slots| {
      CountPrefix(slots, used, free);
      CountSplit(slots, used, free + 1);
    } else {
      assert slots[..free] == slots;
    }
  }

  lemma {:induction false} CountSplit<T>(slots: seq<T>, used: T -> bool, i: nat)
    requires i <= |slots|
    ensures Count(slots, used) <= Count(slots[..i], used) + |slots| - i
    decreases |slots|
  {
    if i == |slots| {
      assert slots[..i] == slots;
    } else {
      var init := slots[..|slots| - 1];
      CountSplit(init, used, i);
      assert init[..i] == slots[..i];
    }
  }

  lemma {:induction false} CountIsCardinality<T(!new), K(!new)>(slots: seq<T>, used: T -> bool, key: T -> K)
    requires Distinct(slots, used, key)
    ensures |Keys(slots, used, key)| == Count(slots, used)
    decreases |slots|
  {
    if slots != [] {
      var init, last := slots[..|slots| - 1], slots[|slots| - 1];
      CountIsCardinality(init, used, key);
      KeysSnoc(init, last, used, key);
      assert init + [last] == slots;
      if used(last) {
        assert key(last) !in Keys(init, used, key);
      }
    }
  }

  lemma KeysSnoc<T(!new), K(!new)>(init: seq<T>, last: T, used: T -> bool, key: T -> K)
    ensures Keys(init + [last], used, key) == Keys(init, used, key) + if used(last) then {key(last)} else {}
  {
    var all := init + [last];
    forall m: K | m in Keys(init, used, key) ensures m in Keys(all, used, key) {
      var i :| 0 <= i < |init| && used(init[i]) && key(init[i]) == m;
      assert all[i] == init[i];
    }
    assert all[|init|] == last;
  }

  /** Taking a free slot for a new key. */
  lemma KeysAdd<T(!new), K(!new)>(slots: seq<T>, used: T -> bool, key: T -> K, i: nat, x: T)
    requires i < |slots| && !used(slots[i]) && used(x)
    ensures Keys(slots[i := x], used, key) == Keys(slots, used, key) + {key(x)}
  {
    var u := slots[i := x];
    forall m: K | m in Keys(slots, used, key) ensures m in Keys(u, used, key) {
      var j :| 0 <= j < |slots| && used(slots[j]) && key(slots[j]) == m;
      assert u[j] == slots[j];
    }
    assert u[i] == x;
  }

  lemma DistinctAdd<T(!new), K(!new)>(slots: seq<T>, used: T -> bool, key: T -> K, i: nat, x: T)
    requires i < |slots| && Distinct(slots, used, key) && key(x) !in Keys(slots, used, key)
    ensures Distinct(slots[i := x], used, key)
  {
    assert forall j :: 0 <= j < |slots| && used(slots[j]) ==> key(slots[j]) in Keys(slots, used, key);
  }

  lemma DistinctRemove<T(!new), K(!new)>(slots: seq<T>, used: T -> bool, key: T -> K, i: nat, x: T)
    requires i < |slots| && Distinct(slots, used, key) && !used(x)
    ensures Distinct(slots[i := x], used, key)
  {
  }

  /** Giving a slot back. */
  lemma KeysRemove<T(!new), K(!new)>(slots: seq<T>, used: T -> bool, key: T -> K, i: nat, x: T)
    requires i < |slots| && used(slots[i]) && !used(x) && Distinct(slots, used, key)
    ensures Keys(slots[i := x], used, key) == Keys(slots, used, key) - {key(slots[i])}
  {
    var u := slots[i := x];
    forall m: K | m in Keys(slots, used, key) && m != key(slots[i]) ensures m in Keys(u, used, key) {
      var j :| 0 <= j < |slots| && used(slots[j]) && key(slots[j]) == m;
      assert u[j] == slots[j];
    }
    forall m: K | m in Keys(u, used, key) ensures m in Keys(slots, used, key) && m != key(slots[i]) {
      var j :| 0 <= j < |u| && used(u[j]) && key(u[j]) == m;
      assert slots[j] == u[j];
    }
  }

  function Value<T, V>(x: T, used: T -> bool, val: T -> V): (m: multiset<V>) {
    if used(x) then multiset{val(x)} else multiset{}
  }

  /** What the slots in use hold, with repetitions. */
  function Values<T, V>(slots: seq<T>, used: T -> bool, val: T -> V): (m: multiset<V>) {
    if slots == [] then multiset{}
    else Values(slots[..|slots| - 1], used, val) + Value(slots[|slots| - 1], used, val)
  }

  lemma Regroup<V>(a: multiset<V>, b: multiset<V>, c: multiset<V>)
    ensures (a + b) + c == (a + c) + b
  {
  }

  lemma {:induction false} ValuesUpdate<T, V>(slots: seq<T>, used: T -> bool, val: T -> V, i: nat, x: T)
    requires i < |slots|
    ensures Values(slots[i := x], used, val) + Value(slots[i], used, val)
            == Values(slots, used, val) + Value(x, used, val)
    decreases |slots|
  {
    hide Value;
    var init, last := slots[..|slots| - 1], Value(slots[|slots| - 1], used, val);
    if i == |slots| - 1 {
      assert slots[i := x][..i] == init;
      Regroup(Values(init, used, val), last, Value(x, used, val));
    } else {
      ValuesUpdate(init, used, val, i, x);
      assert slots[i := x][..|slots| - 1] == init[i := x];
      Regroup(Values(init[i := x], used, val), last, Value(slots[i], used, val));
      Regroup(Values(init, used, val), last, Value(x, used, val));
    }
  }
}
