/** Option values and the few operations on ordered tables (sequences of rows)
    that both the local store and the gateway model are built from. A table is
    a `seq` rather than a `map` because listing order is observable: querysets
    iterate in row order and the gateway lists resources in storage order. */
module Tables {

  datatype Option<+T> = None | Some(value: T)

  /** True when some row satisfies `sel`. */
  predicate Any<T>(rows: seq<T>, sel: T -> bool)
  {
    exists i :: 0 <= i < |rows| && sel(rows[i])
  }

  /** The first row satisfying `sel`, if any. */
  function Find<T>(rows: seq<T>, sel: T -> bool): (r: Option<T>)
    ensures r.None? <==> !Any(rows, sel)
    ensures r.Some? ==> r.value in rows && sel(r.value)
    ensures r.Some? ==> exists i :: 0 <= i < |rows| && rows[i] == r.value
                                    && (forall j :: 0 <= j < i ==> !sel(rows[j]))
  {
    if |rows| == 0 then None
    else if sel(rows[0]) then Some(rows[0])
    else
      var r := Find(rows[1..], sel);
      assert forall i :: 0 < i < |rows| ==> rows[i] == rows[1..][i - 1];
      r
  }

  /** The rows satisfying `sel`, in their original order. */
  function Filter<T(!new)>(rows: seq<T>, sel: T -> bool): (r: seq<T>)
    ensures |r| <= |rows|
    ensures forall x :: x in r <==> x in rows && sel(x)
    ensures r == [] <==> !Any(rows, sel)
  {
    if |rows| == 0 then []
    else if sel(rows[0]) then [rows[0]] + Filter(rows[1..], sel)
    else Filter(rows[1..], sel)
  }

  /** Every row satisfying `sel` replaced by `f` of itself; the others are kept.
      This is the shape of a `filter(...).update(...)` on a table. */
  function UpdateWhere<T>(rows: seq<T>, sel: T -> bool, f: T -> T): (r: seq<T>)
    ensures |r| == |rows|
    ensures forall i :: 0 <= i < |rows| ==> r[i] == (if sel(rows[i]) then f(rows[i]) else rows[i])
  {
    seq(|rows|, i requires 0 <= i < |rows| => if sel(rows[i]) then f(rows[i]) else rows[i])
  }

  /** At most the first `n` rows. */
  function Take<T>(rows: seq<T>, n: nat): (r: seq<T>)
    ensures |r| == if |rows| <= n then |rows| else n
    ensures forall i :: 0 <= i < |r| ==> r[i] == rows[i]
  {
    if |rows| <= n then rows else rows[..n]
  }

  /** The concatenation of a sequence of sequences, in order. */
  function Concat<T(!new)>(parts: seq<seq<T>>): (r: seq<T>)
    ensures forall x :: x in r <==> exists k :: 0 <= k < |parts| && x in parts[k]
  {
    if |parts| == 0 then []
    else
      var rest := Concat(parts[1..]);
      assert forall k :: 0 < k < |parts| ==> parts[k] == parts[1..][k - 1];
      parts[0] + rest
  }

  /** Concatenating one more part at the end appends that part. */
  lemma {:induction false} ConcatSnoc<T(!new)>(parts: seq<seq<T>>, last: seq<T>)
    ensures Concat(parts + [last]) == Concat(parts) + last
  {
    if |parts| == 0 {
      assert parts + [last] == [last];
      assert Concat([last][1..]) == [];
    } else {
      assert (parts + [last])[1..] == parts[1..] + [last];
      ConcatSnoc(parts[1..], last);
    }
  }
}
