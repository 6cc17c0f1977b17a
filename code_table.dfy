/**
 * The shape shared by the seven error-code tables of
 * mathesar/rpc/exceptions/error_codes.py: a frozendict written as a dict
 * display whose first key is UNKNOWN_KEY at a round-number floor, followed by
 * exception class names whose codes run down from the floor one at a time.
 */
module CodeTable {

  /** The key of the fallback entry every table starts with. */
  const UNKNOWN_KEY: string := "UNKNOWN"

  datatype Option<T> = None | Some(value: T)

  /**
   * The display {UNKNOWN_KEY: floor, names[0]: floor - 1, ..., names[n-1]: floor - n}.
   * `names` keeps the source's order; a repeated name is kept too, since a dict
   * display resolves repeats itself (see Display).
   */
  datatype Table = Table(floor: int, names: seq<string>)

  /** The keys of a table's display, in the order they are written. */
  function Keys(t: Table): (keys: seq<string>)
    ensures |keys| == |t.names| + 1 && keys[0] == UNKNOWN_KEY && keys[1..] == t.names
  {
    [UNKNOWN_KEY] + t.names
  }

  /**
   * The mapping a dict display {keys[0]: start, keys[1]: start - 1, ...}
   * evaluates to: entries are inserted left to right, so a later occurrence of
   * a key overrides an earlier one.
   */
  function Display(keys: seq<string>, start: int): (m: map<string, int>)
    ensures |keys| > 0 ==> keys[|keys| - 1] in m && m[keys[|keys| - 1]] == start - (|keys| - 1)
    decreases |keys|
  {
    if |keys| == 0 then map[]
    else Display(keys[..|keys| - 1], start)[keys[|keys| - 1] := start - (|keys| - 1)]
  }

  /**
   * The table has the documented floor and number of names, and the fallback
   * key is written only once, at its head.
   */
  predicate Shaped(t: Table, floor: int, size: nat) {
    t.floor == floor && |t.names| == size && UNKNOWN_KEY !in t.names
  }

  /** The frozendict a table denotes. */
  function Dict(t: Table): (m: map<string, int>)
    ensures UNKNOWN_KEY in m
    ensures |t.names| > 0 ==> t.names[|t.names| - 1] in m && m[t.names[|t.names| - 1]] == t.floor - |t.names|
  {
    DisplayKeys(Keys(t), t.floor, UNKNOWN_KEY);
    Display(Keys(t), t.floor)
  }

  /** frozendict.get(key): the value, or None when the key is absent. */
  function Get(m: map<string, int>, key: string): (r: Option<int>)
    ensures r.Some? <==> key in m
    ensures r.Some? ==> r.value == m[key]
  {
    if key in m then Some(m[key]) else None
  }

  /** frozendict.get(key, default). */
  function GetOr(m: map<string, int>, key: string, default: int): (r: int)
    ensures key in m ==> r == m[key]
    ensures key !in m ==> r == default
  {
    if key in m then m[key] else default
  }

  // ----- The display: which keys it holds and which value each one gets -----

  /** A display holds exactly the keys written in it. */
  lemma {:induction false} DisplayKeys(keys: seq<string>, start: int, k: string)
    ensures k in Display(keys, start) <==> k in keys
    decreases |keys|
  {
    if |keys| > 0 {
      var init := keys[..|keys| - 1];
      DisplayKeys(init, start, k);
      assert keys == init + [keys[|keys| - 1]];
    }
  }

  /** Position i of s holds the last occurrence of its key. */
  predicate LastAt(s: seq<string>, i: nat) {
    i < |s| && forall q :: i < q < |s| ==> s[q] != s[i]
  }

  /** A key whose last occurrence is at position i gets the i-th code, start - i. */
  lemma {:induction false} DisplayLast(keys: seq<string>, start: int, i: nat)
    requires LastAt(keys, i)
    ensures keys[i] in Display(keys, start) && Display(keys, start)[keys[i]] == start - i
    decreases |keys|
  {
    var n := |keys| - 1;
    var init := keys[..n];
    if i < n {
      assert LastAt(init, i);
      DisplayLast(init, start, i);
    }
  }

  /** Every value of a display lies in (start - |keys|, start]. */
  lemma {:induction false} DisplayRange(keys: seq<string>, start: int, k: string)
    requires k in Display(keys, start)
    ensures start - |keys| < Display(keys, start)[k] <= start
    decreases |keys|
  {
    var n := |keys| - 1;
    if k != keys[n] {
      DisplayRange(keys[..n], start, k);
    }
  }

  /** Two different keys of a display never share a value. */
  lemma {:induction false} DisplayInjective(keys: seq<string>, start: int, k1: string, k2: string)
    requires k1 in Display(keys, start) && k2 in Display(keys, start) && k1 != k2
    ensures Display(keys, start)[k1] != Display(keys, start)[k2]
    decreases |keys|
  {
    var n := |keys| - 1;
    var init := keys[..n];
    if k1 == keys[n] {
      DisplayRange(init, start, k2);
    } else if k2 == keys[n] {
      DisplayRange(init, start, k1);
    } else {
      DisplayInjective(init, start, k1, k2);
    }
  }

  /** Every value of a display is the code of a position holding its key. */
  lemma {:induction false} DisplayValueAt(keys: seq<string>, start: int, k: string)
    requires k in Display(keys, start)
    ensures exists i :: 0 <= i < |keys| && keys[i] == k && Display(keys, start)[k] == start - i
    decreases |keys|
  {
    var n := |keys| - 1;
    if k != keys[n] {
      DisplayValueAt(keys[..n], start, k);
      var i :| 0 <= i < n && keys[..n][i] == k && Display(keys[..n], start)[k] == start - i;
      assert keys[i] == k;
    }
  }

  // ----- Tables -----

  /**
   * The fallback key is always present, and table["UNKNOWN"] is the floor
   * unless a later name repeats the key.
   */
  lemma UnknownEntry(t: Table)
    ensures UNKNOWN_KEY in Dict(t)
    ensures UNKNOWN_KEY !in t.names ==> Dict(t)[UNKNOWN_KEY] == t.floor
  {
    DisplayKeys(Keys(t), t.floor, UNKNOWN_KEY);
    if UNKNOWN_KEY !in t.names {
      assert LastAt(Keys(t), 0);
      DisplayLast(Keys(t), t.floor, 0);
    }
  }

  /** A table's keys are the fallback key and its names. */
  lemma DictKeys(t: Table, k: string)
    ensures k in Dict(t) <==> k == UNKNOWN_KEY || k in t.names
  {
    DisplayKeys(Keys(t), t.floor, k);
  }

  /** The name at position i, if it is not repeated later, maps to floor - (i + 1). */
  lemma DictAt(t: Table, i: nat)
    requires LastAt(t.names, i)
    ensures t.names[i] in Dict(t) && Dict(t)[t.names[i]] == t.floor - (i + 1)
  {
    var keys := Keys(t);
    assert keys[i + 1] == t.names[i];
    assert LastAt(keys, i + 1);
    DisplayLast(keys, t.floor, i + 1);
  }

  /** Every code of a table lies in [floor - |names|, floor]. */
  lemma DictRange(t: Table, k: string)
    requires k in Dict(t)
    ensures t.floor - |t.names| <= Dict(t)[k] <= t.floor
  {
    DisplayRange(Keys(t), t.floor, k);
  }

  /** No two keys of one table share a code. */
  lemma DictInjective(t: Table, k1: string, k2: string)
    requires k1 in Dict(t) && k2 in Dict(t) && k1 != k2
    ensures Dict(t)[k1] != Dict(t)[k2]
  {
    DisplayInjective(Keys(t), t.floor, k1, k2);
  }

  /** A name other than the fallback key never gets the floor when the fallback key is not repeated. */
  lemma DictNameBelowFloor(t: Table, k: string)
    requires UNKNOWN_KEY !in t.names && k in Dict(t) && k != UNKNOWN_KEY
    ensures Dict(t)[k] < t.floor
  {
    UnknownEntry(t);
    DictInjective(t, k, UNKNOWN_KEY);
    DictRange(t, k);
  }

  // ----- Last occurrences across blocks of names -----

  /** A key that is last in `block` is still last once `block` is appended to `front`. */
  lemma LastAfterFront(front: seq<string>, block: seq<string>, k: nat)
    requires LastAt(block, k)
    ensures (front + block)[|front| + k] == block[k] && LastAt(front + block, |front| + k)
  {
  }

  /** A key that is last in `s` stays last when a block without it follows. */
  lemma LastBeforeBack(s: seq<string>, back: seq<string>, i: nat)
    requires LastAt(s, i) && s[i] !in back
    ensures (s + back)[i] == s[i] && LastAt(s + back, i)
  {
    forall q | |s| <= q < |s + back|
      ensures (s + back)[q] != s[i]
    {
      assert (s + back)[q] == back[q - |s|];
    }
  }
}
