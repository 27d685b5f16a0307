/** The shared containers every editor reads and writes, as plain values:
    a Yjs array is a `seq`, a Yjs map a `map` from keys to values, a Yjs text
    a `string`. Only the sequential effect of each edit on one replica is
    modelled; merging concurrent edits belongs to the Yjs library. */
module Shared {

  datatype Option<T> = None | Some(value: T)

  datatype Result<T, E> = Ok(value: T) | Err(error: E)

  /** `s` with `count` items removed from position `index`. */
  function Removed<T>(s: seq<T>, index: nat, count: nat): (r: seq<T>)
    requires index + count <= |s|
    ensures |r| == |s| - count
    ensures forall k :: 0 <= k < index ==> r[k] == s[k]
    ensures forall k :: index <= k < |r| ==> r[k] == s[k + count]
  {
    s[..index] + s[index + count..]
  }

  /** `s` with `xs` inserted before position `index`. */
  function Inserted<T>(s: seq<T>, index: nat, xs: seq<T>): (r: seq<T>)
    requires index <= |s|
    ensures |r| == |s| + |xs|
    ensures r[..index] == s[..index] && r[index..index + |xs|] == xs && r[index + |xs|..] == s[index..]
  {
    s[..index] + xs + s[index..]
  }

  /** Deleting one item and inserting one at the same position replaces
      exactly that item: the edit every editor uses to update an item. */
  lemma DeleteThenInsertReplaces<T>(s: seq<T>, index: nat, x: T)
    requires index < |s|
    ensures Inserted(Removed(s, index, 1), index, [x]) == s[index := x]
  {
    var r := Inserted(Removed(s, index, 1), index, [x]);
    assert forall k :: 0 <= k < |s| ==> r[k] == s[index := x][k];
  }

  /** Deleting the whole text and inserting `v` leaves exactly `v`. */
  lemma DeleteAllThenInsert<T>(s: seq<T>, v: seq<T>)
    ensures Inserted(Removed(s, 0, |s|), 0, v) == v
  {
  }

  /** A Yjs array (`Y.Array`) of items; `push`, `insert` and `delete` edit it
      in place. Yjs rejects an insert or a delete outside the array. */
  class SharedArray<T> {
    var items: seq<T>

    constructor (init: seq<T>)
      ensures items == init
    {
      items := init;
    }

    method Push(xs: seq<T>)
      modifies this
      ensures items == old(items) + xs
    {
      items := items + xs;
    }

    method Insert(index: nat, xs: seq<T>)
      requires index <= |items|
      modifies this
      ensures items == Inserted(old(items), index, xs)
    {
      items := Inserted(items, index, xs);
    }

    method Delete(index: nat, count: nat)
      requires index + count <= |items|
      modifies this
      ensures items == Removed(old(items), index, count)
    {
      items := Removed(items, index, count);
    }
  }

  /** A Yjs map (`Y.Map`) from string keys to values; `set` writes one key. */
  class SharedMap<V> {
    var entries: map<string, V>

    constructor (init: map<string, V>)
      ensures entries == init
    {
      entries := init;
    }

    method Set(key: string, value: V)
      modifies this
      ensures entries == old(entries)[key := value]
    {
      entries := entries[key := value];
    }
  }

  /** A Yjs text (`Y.Text`); `insert` and `delete` edit it in place. */
  class SharedText {
    var text: string

    constructor (init: string)
      ensures text == init
    {
      text := init;
    }

    method Insert(index: nat, s: string)
      requires index <= |text|
      modifies this
      ensures text == Inserted(old(text), index, s)
    {
      text := Inserted(text, index, s);
    }

    method Delete(index: nat, count: nat)
      requires index + count <= |text|
      modifies this
      ensures text == Removed(old(text), index, count)
    {
      text := Removed(text, index, count);
    }
  }
}
