/** Values shared by the modules of this project. */
module Prelude {

  datatype Option<+T> = None | Some(value: T)

  /** The first `k` elements of `s`, or all of them when there are fewer. */
  function Take<T>(s: seq<T>, k: nat): (t: seq<T>)
  {
    if |s| <= k then s else s[..k]
  }

  /** `s` without its element at `i`. */
  function Drop<T>(s: seq<T>, i: nat): (t: seq<T>)
    requires i < |s|
  {
    s[..i] + s[i + 1..]
  }

  lemma SplitAt<T>(s: seq<T>, i: nat)
    requires i < |s|
    ensures s == s[..i] + [s[i]] + s[i + 1..]
  {
  }

  /** The total weight of the elements of `s`. */
  function Sum<T>(s: seq<T>, weight: T -> nat): nat
  {
    if s == [] then 0 else Sum(s[..|s| - 1], weight) + weight(s[|s| - 1])
  }

  lemma SumNone<T>(weight: T -> nat)
    ensures Sum([], weight) == 0
  {
  }

  lemma SumOne<T>(t: T, weight: T -> nat)
    ensures Sum([t], weight) == weight(t)
  {
    SumAppend([], t, weight);
    assert [] + [t] == [t];
  }

  lemma SumAppend<T>(s: seq<T>, t: T, weight: T -> nat)
    ensures Sum(s + [t], weight) == Sum(s, weight) + weight(t)
  {
    assert (s + [t])[..|s|] == s;
  }

  lemma {:induction false} SumConcat<T>(s: seq<T>, t: seq<T>, weight: T -> nat)
    ensures Sum(s + t, weight) == Sum(s, weight) + Sum(t, weight)
  {
    if t == [] {
      assert s + t == s;
    } else {
      var last := |t| - 1;
      SumConcat(s, t[..last], weight);
      assert s + t == (s + t[..last]) + [t[last]];
      SumAppend(s + t[..last], t[last], weight);
    }
  }

  /** What replacing or removing element `i` does to the total. */
  lemma SumAt<T>(s: seq<T>, i: nat, t: T, weight: T -> nat)
    requires i < |s|
    ensures Sum(s, weight) == Sum(Drop(s, i), weight) + weight(s[i])
    ensures Sum(s[i := t], weight) == Sum(Drop(s, i), weight) + weight(t)
  {
    SumAround(s[..i], s[i], s[i + 1..], weight);
    SumAround(s[..i], t, s[i + 1..], weight);
    SplitAt(s, i);
    assert s[i := t] == s[..i] + [t] + s[i + 1..];
  }

  lemma SumAround<T>(a: seq<T>, t: T, b: seq<T>, weight: T -> nat)
    ensures Sum(a + [t] + b, weight) == Sum(a + b, weight) + weight(t)
  {
    SumConcat(a + [t], b, weight);
    SumAppend(a, t, weight);
    SumConcat(a, b, weight);
  }

  lemma {:induction false} SumPositive<T>(s: seq<T>, weight: T -> nat)
    requires Sum(s, weight) > 0
    ensures exists i :: 0 <= i < |s| && weight(s[i]) > 0
  {
    var last := |s| - 1;
    if weight(s[last]) == 0 {
      SumPositive(s[..last], weight);
      var i :| 0 <= i < last && weight(s[..last][i]) > 0;
      assert weight(s[i]) > 0;
    }
  }

  /** Removing an element keeps the others. */
  lemma DropKeeps<T>(s: seq<T>, i: nat, t: T)
    requires i < |s| && t in s && t != s[i]
    ensures t in Drop(s, i)
  {
    var j :| 0 <= j < |s| && s[j] == t;
    assert Drop(s, i)[if j < i then j else j - 1] == t;
  }

  lemma PutKeeps<T>(s: seq<T>, i: nat, u: T, t: T)
    requires i < |s| && t in s && t != s[i]
    ensures t in s[i := u]
  {
    var j :| 0 <= j < |s| && s[j] == t;
    assert s[i := u][j] == t;
  }
}
