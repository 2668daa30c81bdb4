/**
 * The example application's in-memory store: an array of records searched by one field, appended to,
 * and shortened by `splice`.
 */
module VirtualDatabase {
  import opened Wrappers

  /** Index of the first element whose `key` field equals `value`, or -1 when there is none. */
  function FirstIndex<T, V(==)>(s: seq<T>, key: T -> V, value: V): (i: int)
    ensures -1 <= i < |s|
    ensures i >= 0 ==> key(s[i]) == value
    ensures i >= 0 ==> forall j :: 0 <= j < i ==> key(s[j]) != value
    ensures i == -1 <==> forall j :: 0 <= j < |s| ==> key(s[j]) != value
  {
    if s == [] then -1
    else if key(s[0]) == value then 0
    else
      var k := FirstIndex(s[1..], key, value);
      if k == -1 then -1 else k + 1
  }

  /** The first element whose `key` field equals `value`, if any. */
  function Find<T, V(==)>(s: seq<T>, key: T -> V, value: V): (r: Option<T>)
    ensures r.None? <==> forall j :: 0 <= j < |s| ==> key(s[j]) != value
    ensures r.Some? ==> r.value in s && key(r.value) == value
  {
    var i := FirstIndex(s, key, value);
    if i == -1 then None else Some(s[i])
  }

  /**
   * The array left by `splice(start, 1)`: a negative start counts from the end (and is clamped at 0),
   * and the element at the resulting position, if there is one, is removed.
   */
  function SpliceOne<T>(s: seq<T>, start: int): (r: seq<T>)
    ensures 0 <= start < |s| ==> r == s[..start] + s[start + 1..]
    ensures -|s| <= start < 0 ==> r == s[..|s| + start] + s[|s| + start + 1..]
    ensures start >= |s| ==> r == s
  {
    var k := if start >= 0 then start else if |s| + start >= 0 then |s| + start else 0;
    if k < |s| then s[..k] + s[k + 1..] else s
  }

  /**
   * A store of records of type `T`; searches compare one field of a record, chosen by a `key`
   * function, against a value.
   */
  class Database<T> {
    /** The stored records, in insertion order. */
    var data: seq<T>

    /** A new store is empty. */
    constructor()
      ensures data == []
    {
      data := [];
    }

    /** Scans from the front for the first record whose `key` field equals `value`. */
    method FindIndex<V(==)>(key: T -> V, value: V) returns (i: int)
      ensures i == FirstIndex(data, key, value)
    {
      i := 0;
      while i < |data|
        invariant 0 <= i <= |data|
        invariant forall j :: 0 <= j < i ==> key(data[j]) != value
      {
        if key(data[i]) == value {
          FirstIndexIsFirstMatch(data, key, value, i);
          return;
        }
        i := i + 1;
      }
      i := -1;
    }

    /** The first record whose `key` field equals `value`, or none. */
    method FindOne<V(==)>(key: T -> V, value: V) returns (item: Option<T>)
      ensures item == Find(data, key, value)
    {
      var i := FindIndex(key, value);
      item := if i == -1 then None else Some(data[i]);
    }

    /** Appends one record at the end. */
    method StoreOne(item: T)
      modifies this
      ensures data == old(data) + [item]
    {
      data := data + [item];
    }

    /** Removes the record at the index of the first match, with `splice` semantics for -1. */
    method DeleteOne<V(==)>(key: T -> V, value: V)
      modifies this
      ensures data == SpliceOne(old(data), FirstIndex(old(data), key, value))
    {
      var i := FindIndex(key, value);
      data := SpliceOne(data, i);
    }

    /** Whether some record's `key` field equals `value`. */
    method Exists<V(==)>(key: T -> V, value: V) returns (b: bool)
      ensures b <==> Find(data, key, value).Some?
      ensures b <==> exists j :: 0 <= j < |data| && key(data[j]) == value
    {
      var item := FindOne(key, value);
      b := item.Some?;
    }

    /** The number of stored records. */
    method Items() returns (n: nat)
      ensures n == |data|
    {
      n := |data|;
    }
  }

  /** A position that matches and has no match before it is the one `FirstIndex` finds. */
  lemma FirstIndexIsFirstMatch<T, V>(s: seq<T>, key: T -> V, value: V, i: int)
    requires 0 <= i < |s| && key(s[i]) == value
    requires forall j :: 0 <= j < i ==> key(s[j]) != value
    ensures FirstIndex(s, key, value) == i
  {
  }

  /** When some record matches, deleting removes exactly the first match and keeps the rest in order. */
  lemma DeleteRemovesFirstMatch<T, V>(s: seq<T>, key: T -> V, value: V)
    requires exists j :: 0 <= j < |s| && key(s[j]) == value
    ensures var i := FirstIndex(s, key, value);
      0 <= i && SpliceOne(s, i) == s[..i] + s[i + 1..] && key(s[i]) == value
      && |SpliceOne(s, i)| == |s| - 1
  {
  }

  /** When nothing matches, deleting drops the last record of a non-empty store and leaves an empty one alone. */
  lemma DeleteWithoutMatch<T, V>(s: seq<T>, key: T -> V, value: V)
    requires forall j :: 0 <= j < |s| ==> key(s[j]) != value
    ensures s != [] ==> SpliceOne(s, FirstIndex(s, key, value)) == s[..|s| - 1]
    ensures s == [] ==> SpliceOne(s, FirstIndex(s, key, value)) == []
  {
  }

  /** After a delete no record is gained, and a record that was not removed is still stored. */
  lemma DeleteKeepsOthers<T, V>(s: seq<T>, key: T -> V, value: V, j: int)
    requires 0 <= j < |s| && j != FirstIndex(s, key, value) && (j != |s| - 1 || FirstIndex(s, key, value) >= 0)
    ensures s[j] in SpliceOne(s, FirstIndex(s, key, value))
    ensures |SpliceOne(s, FirstIndex(s, key, value))| == if s == [] then 0 else |s| - 1
  {
    var i := FirstIndex(s, key, value);
    var r := SpliceOne(s, i);
    if i >= 0 {
      if j < i {
        assert r[j] == s[j];
      } else {
        assert r[j - 1] == s[j];
      }
    } else {
      assert r == s[..|s| - 1];
      assert r[j] == s[j];
    }
  }
}
