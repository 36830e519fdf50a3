/**
 * The PHP semantics the request builders rely on: nullable strings, the
 * `empty()` test, `strtoupper`, and ordered associative arrays with
 * assignment by key and `array_filter`.
 */
module Php {
  import opened Wrappers

  /** A nullable PHP string; `None` stands for `null`. */
  type Value = Option<string>

  /** `empty($v)`, and the falsiness `if ($v)` tests: null, "" and "0" are empty. */
  predicate Empty(v: Value) {
    v.None? || |v.value| == 0 || (|v.value| == 1 && v.value[0] == '0')
  }

  /** What survives `array_filter` of a value: the value itself when it is not empty. */
  function Kept(v: Value): Value {
    if Empty(v) then None else v
  }

  /** A value used in string concatenation with `.`, where null reads as "". */
  function Str(v: Value): string {
    if v.None? then "" else v.value
  }

  /** No element of `xs` occurs twice. */
  ghost predicate Distinct<T>(xs: seq<T>) {
    forall i, j :: 0 <= i < j < |xs| ==> xs[i] != xs[j]
  }

  /** A list whose every element names its own position has no repeated element. */
  lemma DistinctByPosition<T>(xs: seq<T>, pos: T -> int)
    requires forall i :: 0 <= i < |xs| ==> pos(xs[i]) == i
    ensures Distinct(xs)
  {
  }

  /** A list whose every element names its own position holds exactly the values found at their named position. */
  lemma MembersByPosition<T>(xs: seq<T>, pos: T -> int)
    requires forall i :: 0 <= i < |xs| ==> pos(xs[i]) == i
    ensures forall x :: x in xs <==> 0 <= pos(x) < |xs| && xs[pos(x)] == x
  {
  }

  /** `xs` is `ys` with some elements dropped and the rest in their original order. */
  ghost predicate SubseqOf<T>(xs: seq<T>, ys: seq<T>)
    decreases |ys|
  {
    if xs == [] then true
    else if ys == [] then false
    else if xs[0] == ys[0] then SubseqOf(xs[1..], ys[1..])
    else SubseqOf(xs, ys[1..])
  }

  /** One character through PHP's `strtoupper`: ASCII lower-case letters are raised. */
  function UpperChar(c: char): char {
    if IsLower(c) then (c as int - 32) as char else c
  }

  /** An ASCII lower-case letter. */
  predicate IsLower(c: char) {
    'a' <= c <= 'z'
  }

  /** PHP's `strtoupper` on a string. */
  function ToUpper(s: string): (r: string)
    ensures |r| == |s|
    ensures forall i :: 0 <= i < |s| ==> !IsLower(r[i])
    ensures forall i :: 0 <= i < |s| && !IsLower(s[i]) ==> r[i] == s[i]
    ensures forall i :: 0 <= i < |s| && IsLower(s[i]) ==> r[i] as int == s[i] as int - 32 && 'A' <= r[i] <= 'Z'
  {
    seq(|s|, i requires 0 <= i < |s| => UpperChar(s[i]))
  }

  /**
   * A PHP array with string keys: the keys in insertion order, and the value
   * each key holds. A key assigned `null` is still a key.
   */
  datatype PhpArray<K(!new)> = PhpArray(keys: seq<K>, vals: map<K, Value>) {

    /** Each key is listed once, and the listed keys are exactly the keys holding a value. */
    ghost predicate Valid() {
      && Distinct(keys)
      && (forall k :: k in vals <==> k in keys)
    }

    /** `isset`-free key test: `array_key_exists($k, $a)`. */
    predicate HasKey(k: K) {
      k in vals
    }

    /** `$a[$k]`, reading a missing key as null. */
    function Get(k: K): Value {
      if k in vals then vals[k] else None
    }

    /** `$a[$k] = $v`: overwrites in place when `k` is already a key, appends otherwise. */
    function Set(k: K, v: Value): (r: PhpArray<K>)
      ensures Valid() ==> r.Valid()
      ensures r.HasKey(k) && r.Get(k) == v
      ensures forall k' :: k' != k ==> r.Get(k') == Get(k') && (r.HasKey(k') <==> HasKey(k'))
      ensures r.keys == if HasKey(k) then keys else keys + [k]
    {
      PhpArray(if k in vals then keys else keys + [k], vals[k := v])
    }

    /** `array_filter($a)`: drops every entry whose value is empty and keeps the others in order. */
    function Filter(): (r: PhpArray<K>)
      ensures Valid() ==> r.Valid()
      ensures Valid() ==> SubseqOf(r.keys, keys)
      ensures forall k :: r.HasKey(k) <==> HasKey(k) && !Empty(Get(k))
      ensures forall k :: r.Get(k) == Kept(Get(k))
    {
      PhpArray(FilterKeys(keys, vals), map k | k in vals && !Empty(vals[k]) :: vals[k])
    }
  }

  /**
   * In a well-formed array whose every key names its own position, a key is
   * present exactly when the position it names holds it.
   */
  lemma KeysByPosition<K(!new)>(d: PhpArray<K>, xs: seq<K>, pos: K -> int, k: K)
    requires d.Valid() && d.keys == xs
    requires forall i :: 0 <= i < |xs| ==> pos(xs[i]) == i
    ensures d.HasKey(k) <==> 0 <= pos(k) < |xs| && xs[pos(k)] == k
  {
    MembersByPosition(xs, pos);
  }

  /** The empty PHP array `array()`. */
  function EmptyArray<K(!new)>(): (a: PhpArray<K>)
    ensures a.Valid()
    ensures forall k :: !a.HasKey(k)
  {
    PhpArray([], map[])
  }

  /** No key of `a` holds an empty value. */
  ghost predicate NoEmptyValues<K(!new)>(a: PhpArray<K>) {
    forall k :: a.HasKey(k) ==> !Empty(a.Get(k))
  }

  /**
   * `$a[k] = f(k)` for each key `k` of `ks` in turn, starting from `array()`.
   * A repeated key is assigned the same value again, so every listed key reads
   * back `f(k)`; with distinct keys the array lists them in assignment order.
   */
  function AssignAll<K(!new)>(ks: seq<K>, f: K -> Value): (a: PhpArray<K>)
    ensures forall k :: a.HasKey(k) <==> k in ks
    ensures forall k :: k in ks ==> a.Get(k) == f(k)
    ensures Distinct(ks) ==> a.Valid() && a.keys == ks
    decreases |ks|
  {
    if ks == [] then EmptyArray()
    else
      var init := ks[..|ks| - 1];
      var last := ks[|ks| - 1];
      assert ks == init + [last];
      assert Distinct(ks) ==> Distinct(init) && last !in init;
      AssignAll(init, f).Set(last, f(last))
  }

  /**
   * The assignments followed by `array_filter`: with distinct keys the
   * survivors keep their assignment order; no survivor holds an empty value;
   * each listed key reads back its value when that value is not empty, and
   * every other key reads back null.
   */
  function AssignFiltered<K(!new)>(ks: seq<K>, f: K -> Value): (a: PhpArray<K>)
    ensures Distinct(ks) ==> a.Valid() && SubseqOf(a.keys, ks)
    ensures NoEmptyValues(a)
    ensures forall k :: a.HasKey(k) <==> k in ks && !Empty(f(k))
    ensures forall k :: a.Get(k) == if k in ks then Kept(f(k)) else None
  {
    AssignAll(ks, f).Filter()
  }

  /** Assigning the same values to the same keys builds the same array. */
  lemma {:induction false} AssignAllCongruent<K(!new)>(ks: seq<K>, f: K -> Value, g: K -> Value)
    requires forall k :: k in ks ==> f(k) == g(k)
    ensures AssignAll(ks, f) == AssignAll(ks, g)
    decreases |ks|
  {
    if ks != [] {
      var init := ks[..|ks| - 1];
      assert forall k :: k in init ==> k in ks;
      AssignAllCongruent(init, f, g);
    }
  }

  /** The filtered array depends only on the values assigned to the listed keys. */
  lemma AssignFilteredCongruent<K(!new)>(ks: seq<K>, f: K -> Value, g: K -> Value)
    requires forall k :: k in ks ==> f(k) == g(k)
    ensures AssignFiltered(ks, f) == AssignFiltered(ks, g)
  {
    AssignAllCongruent(ks, f, g);
  }

  /** The keys of `ks` that `array_filter` keeps, in their original order. */
  function FilterKeys<K(!new)>(ks: seq<K>, m: map<K, Value>): (r: seq<K>)
    ensures forall x :: x in r <==> x in ks && x in m && !Empty(m[x])
    ensures Distinct(ks) ==> Distinct(r)
    ensures SubseqOf(r, ks)
  {
    if ks == [] then []
    else if ks[0] in m && !Empty(m[ks[0]]) then
      var rest := FilterKeys(ks[1..], m);
      assert Distinct(ks) ==> ks[0] !in ks[1..];
      assert ([ks[0]] + rest)[1..] == rest;
      [ks[0]] + rest
    else
      var rest := FilterKeys(ks[1..], m);
      assert rest != [] ==> rest[0] in rest;
      rest
  }
}
