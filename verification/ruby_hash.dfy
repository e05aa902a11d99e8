/**
  Ruby objects as they appear in a decoded event record, and the insertion-ordered
  Hash that holds them. A Hash keeps each key once; assigning to an existing key
  updates its value in place, assigning to a new key appends it at the end, and
  `keys` / `values` list the entries in insertion order.
 */
module RubyHash {

  /** The scalar Ruby objects a record can hold, as keys or as values. */
  datatype Value = Nil | Bool(b: bool) | Int(i: int) | Float(f: real) | Str(s: string)

  /** Ruby truthiness: only `nil` and `false` are falsy (0 and "" are truthy). */
  predicate Truthy(v: Value) {
    v != Nil && v != Bool(false)
  }

  type Pair = (Value, Value)

  predicate DistinctKeys(s: seq<Pair>) {
    forall i, j :: 0 <= i < j < |s| ==> s[i].0 != s[j].0
  }

  /** A Ruby Hash: its entries in insertion order, each key at most once. */
  type Hash = s: seq<Pair> | DistinctKeys(s) witness []

  /** `hash.keys` */
  function Keys(s: seq<Pair>): seq<Value> {
    seq(|s|, i requires 0 <= i < |s| => s[i].0)
  }

  /** `hash.values` */
  function Values(s: seq<Pair>): seq<Value> {
    seq(|s|, i requires 0 <= i < |s| => s[i].1)
  }

  /** `hash.has_key?(k)` */
  predicate HasKey(h: Hash, k: Value) {
    k in Keys(h)
  }

  /** `hash[k]`: the value stored under `k`, or `nil` when the key is absent. */
  function Get(h: Hash, k: Value): (v: Value)
    ensures !HasKey(h, k) ==> v == Nil
    ensures forall i :: 0 <= i < |h| && h[i].0 == k ==> v == h[i].1
  {
    if |h| == 0 then Nil
    else if h[0].0 == k then
      assert Keys(h)[0] == k;
      h[0].1
    else
      var rest: Hash := h[1..];
      assert Keys(h) == [h[0].0] + Keys(rest);
      assert forall i :: 1 <= i < |h| ==> h[i] == rest[i - 1];
      Get(rest, k)
  }

  /** Keys of a non-empty sequence: its first key, then the keys of the rest. */
  lemma KeysCons(s: seq<Pair>)
    requires |s| > 0
    ensures Keys(s) == [s[0].0] + Keys(s[1..])
  {
  }

  /** The first key of a Hash does not occur again after it. */
  lemma HeadKeyFresh(h: Hash)
    requires |h| > 0
    ensures h[0].0 !in Keys(h[1..])
  {
  }

  /** Putting a fresh key in front of a Hash gives a Hash. */
  lemma ConsDistinct(x: Pair, tail: Hash)
    requires x.0 !in Keys(tail)
    ensures DistinctKeys([x] + tail)
  {
    var r := [x] + tail;
    forall i, j | 0 <= i < j < |r|
      ensures r[i].0 != r[j].0
    {
      if i == 0 {
        assert Keys(tail)[j - 1] == r[j].0;
      } else {
        assert r[i] == tail[i - 1] && r[j] == tail[j - 1];
      }
    }
  }

  /**
    `hash[k] = v`: an existing key keeps its position and takes the new value,
    every other entry is untouched; a new key is appended as the last entry.
   */
  function Put(h: Hash, k: Value, v: Value): (r: Hash)
    ensures HasKey(h, k) ==> |r| == |h| && forall i :: 0 <= i < |h| ==> r[i] == (if h[i].0 == k then (k, v) else h[i])
    ensures !HasKey(h, k) ==> r == h + [(k, v)]
    ensures Keys(r) == if HasKey(h, k) then Keys(h) else Keys(h) + [k]
  {
    if |h| == 0 then [(k, v)]
    else
      KeysCons(h);
      HeadKeyFresh(h);
      var rest: Hash := h[1..];
      if h[0].0 == k then
        ConsDistinct((k, v), rest);
        var r: seq<Pair> := [(k, v)] + rest;
        KeysCons(r);
        assert r[1..] == rest;
        r
      else
        var tail := Put(rest, k, v);
        ConsDistinct(h[0], tail);
        var r: seq<Pair> := [h[0]] + tail;
        KeysCons(r);
        assert r[1..] == tail;
        r
  }

  /** The entries of `s` whose key is not in `drop`, in their original order. */
  function Without(s: seq<Pair>, drop: set<Value>): seq<Pair> {
    if |s| == 0 then []
    else if s[0].0 in drop then Without(s[1..], drop)
    else [s[0]] + Without(s[1..], drop)
  }

  /** The Hash read as an unordered finite map: the reference meaning of lookup and assignment. */
  function ToMap(s: seq<Pair>): map<Value, Value> {
    if |s| == 0 then map[] else ToMap(s[1..])[s[0].0 := s[0].1]
  }

  /** Lookup agrees with the map reading of the Hash, absent keys giving `nil`. */
  lemma {:induction false} GetMatchesMap(h: Hash, k: Value)
    ensures HasKey(h, k) <==> k in ToMap(h)
    ensures Get(h, k) == if k in ToMap(h) then ToMap(h)[k] else Nil
  {
    if |h| > 0 {
      var rest: Hash := h[1..];
      assert Keys(h) == [h[0].0] + Keys(rest);
      GetMatchesMap(rest, k);
    }
  }

  /** The map reading of an entry followed by more entries. */
  lemma ToMapCons(x: Pair, s: seq<Pair>)
    ensures ToMap([x] + s) == ToMap(s)[x.0 := x.1]
  {
  }

  /** Updates at two different keys commute. */
  lemma UpdatesCommute(m: map<Value, Value>, a: Value, x: Value, b: Value, y: Value)
    requires a != b
    ensures m[a := x][b := y] == m[b := y][a := x]
  {
  }

  /** Assignment agrees with map update: ordering aside, `hash[k] = v` is `m[k := v]`. */
  lemma {:induction false} PutMatchesMapUpdate(h: Hash, k: Value, v: Value)
    ensures ToMap(Put(h, k, v)) == ToMap(h)[k := v]
  {
    if |h| == 0 {
    } else {
      var rest: Hash := h[1..];
      assert h == [h[0]] + rest;
      ToMapCons(h[0], rest);
      if h[0].0 == k {
        assert Put(h, k, v) == [(k, v)] + rest;
        ToMapCons((k, v), rest);
      } else {
        var tail := Put(rest, k, v);
        assert Put(h, k, v) == [h[0]] + tail;
        ToMapCons(h[0], tail);
        PutMatchesMapUpdate(rest, k, v);
        UpdatesCommute(ToMap(rest), k, v, h[0].0, h[0].1);
      }
    }
  }

  /** Assigning to a key in `drop` leaves the entries outside `drop`, and their order, unchanged. */
  lemma {:induction false} PutTouchesOnlyItsKey(h: Hash, k: Value, v: Value, drop: set<Value>)
    requires k in drop
    ensures Without(Put(h, k, v), drop) == Without(h, drop)
  {
    if |h| == 0 {
      assert Without([(k, v)], drop) == Without([], drop);
    } else if h[0].0 == k {
      var r: seq<Pair> := [(k, v)] + h[1..];
      assert r[1..] == h[1..];
    } else {
      var rest: Hash := h[1..];
      PutTouchesOnlyItsKey(rest, k, v, drop);
      var r := Put(h, k, v);
      assert r[1..] == Put(rest, k, v);
    }
  }
}
