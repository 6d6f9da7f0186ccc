/** The two list reducers every dashboard table applies after a successful
    write, keyed by the row's `_id`:
    `list.map(x => x._id === id ? change(x) : x)` and `list.filter(x => x._id !== id)`. */
module Lists {

  /** `list.map(x => key(x) == id ? change(x) : x)` */
  function UpdateWhere<T>(list: seq<T>, key: T -> string, id: string, change: T -> T): (r: seq<T>)
    ensures |r| == |list|
    ensures forall i :: 0 <= i < |list| && key(list[i]) != id ==> r[i] == list[i]
    ensures forall i :: 0 <= i < |list| && key(list[i]) == id ==> r[i] == change(list[i])
  {
    seq(|list|, i requires 0 <= i < |list| => if key(list[i]) == id then change(list[i]) else list[i])
  }

  /** `list.filter(x => key(x) !== id)` */
  function RemoveWhere<T(!new)>(list: seq<T>, key: T -> string, id: string): (r: seq<T>)
    ensures |r| <= |list|
    ensures forall x :: x in r <==> x in list && key(x) != id
  {
    if list == [] then []
    else
      var rest := RemoveWhere(list[1..], key, id);
      assert forall x :: x in list <==> x == list[0] || x in list[1..];
      if key(list[0]) != id then [list[0]] + rest else rest
  }

  /** Removal keeps the surviving rows in their original order: it distributes over concatenation. */
  lemma {:induction false} RemoveWhereAppend<T(!new)>(a: seq<T>, b: seq<T>, key: T -> string, id: string)
    ensures RemoveWhere(a + b, key, id) == RemoveWhere(a, key, id) + RemoveWhere(b, key, id)
    decreases |a|
  {
    if a == [] {
      assert a + b == b;
    } else {
      assert (a + b)[1..] == a[1..] + b;
      RemoveWhereAppend(a[1..], b, key, id);
    }
  }

  /** When no row carries the id, removal changes nothing. */
  lemma {:induction false} RemoveWhereAbsent<T(!new)>(list: seq<T>, key: T -> string, id: string)
    requires forall i :: 0 <= i < |list| ==> key(list[i]) != id
    ensures RemoveWhere(list, key, id) == list
    decreases |list|
  {
    if list != [] {
      RemoveWhereAbsent(list[1..], key, id);
    }
  }

  /** Exactly the rows carrying the id are dropped: the length falls by their number. */
  lemma {:induction false} RemoveWhereCount<T(!new)>(list: seq<T>, key: T -> string, id: string)
    ensures |RemoveWhere(list, key, id)| == |list| - CountKey(list, key, id)
    decreases |list|
  {
    if list != [] {
      RemoveWhereCount(list[1..], key, id);
    }
  }

  /** The number of rows whose key is `id`. */
  function CountKey<T>(list: seq<T>, key: T -> string, id: string): (n: nat)
    ensures n <= |list|
  {
    if list == [] then 0 else (if key(list[0]) == id then 1 else 0) + CountKey(list[1..], key, id)
  }

  /** Removing after an update of the same row is the same as removing it. */
  lemma {:induction false} RemoveAfterUpdate<T(!new)>(list: seq<T>, key: T -> string, id: string, change: T -> T)
    requires forall x :: key(change(x)) == key(x)
    ensures RemoveWhere(UpdateWhere(list, key, id, change), key, id) == RemoveWhere(list, key, id)
    decreases |list|
  {
    if list != [] {
      var u := UpdateWhere(list, key, id, change);
      assert u[1..] == UpdateWhere(list[1..], key, id, change);
      RemoveAfterUpdate(list[1..], key, id, change);
    }
  }

  /** The keys, in order. */
  function Keys<T>(list: seq<T>, key: T -> string): (r: seq<string>)
    ensures |r| == |list| && forall i :: 0 <= i < |list| ==> r[i] == key(list[i])
  {
    seq(|list|, i requires 0 <= i < |list| => key(list[i]))
  }

  /** An update that keeps each row's key keeps the sequence of keys. */
  lemma UpdateWhereKeepsKeys<T>(list: seq<T>, key: T -> string, id: string, change: T -> T)
    requires forall x :: key(change(x)) == key(x)
    ensures Keys(UpdateWhere(list, key, id, change), key) == Keys(list, key)
  {
  }
}
