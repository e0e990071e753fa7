/**
 * Python dictionaries with string keys, as association lists: a Python `dict`
 * remembers the order in which its keys were first inserted, and the code that
 * prints the grading agent's metrics walks them in that order.
 */
module PyDict {
  import opened Outcomes

  type Dict<V> = seq<(string, V)>

  predicate UniqueKeys<V>(d: Dict<V>)
  {
    forall i, j :: 0 <= i < j < |d| ==> d[i].0 != d[j].0
  }

  function Keys<V>(d: Dict<V>): (r: seq<string>)
    ensures |r| == |d| && forall i :: 0 <= i < |d| ==> r[i] == d[i].0
  {
    seq(|d|, i requires 0 <= i < |d| => d[i].0)
  }

  function Values<V>(d: Dict<V>): (r: seq<V>)
    ensures |r| == |d| && forall i :: 0 <= i < |d| ==> r[i] == d[i].1
  {
    seq(|d|, i requires 0 <= i < |d| => d[i].1)
  }

  /** `d.get(k)`: the value stored under `k`, if any. */
  function Get<V>(d: Dict<V>, k: string): (r: Option<V>)
    ensures r.Some? <==> k in Keys(d)
  {
    if d == [] then None
    else if d[0].0 == k then Some(d[0].1)
    else
      assert Keys(d) == [d[0].0] + Keys(d[1..]);
      Get(d[1..], k)
  }

  /** `d[k] = v`: overwrites the value in place when `k` is present, appends `(k, v)` otherwise. */
  function Set<V>(d: Dict<V>, k: string, v: V): (r: Dict<V>)
    ensures k in Keys(d) ==> Keys(r) == Keys(d)
    ensures k !in Keys(d) ==> Keys(r) == Keys(d) + [k]
  {
    if d == [] then [(k, v)]
    else if d[0].0 == k then [(k, v)] + d[1..]
    else
      assert Keys(d) == [d[0].0] + Keys(d[1..]);
      var r := [d[0]] + Set(d[1..], k, v);
      assert Keys(r) == [d[0].0] + Keys(Set(d[1..], k, v));
      r
  }

  /** After `d[k] = v`, `d[k]` is `v`. */
  lemma {:induction false} GetSetSame<V>(d: Dict<V>, k: string, v: V)
    ensures Get(Set(d, k, v), k) == Some(v)
  {
    if d != [] && d[0].0 != k {
      GetSetSame(d[1..], k, v);
    }
  }

  /** After `d[k] = v`, every other key keeps its value. */
  lemma {:induction false} GetSetOther<V>(d: Dict<V>, k: string, v: V, k': string)
    requires k' != k
    ensures Get(Set(d, k, v), k') == Get(d, k')
  {
    if d != [] && d[0].0 != k {
      GetSetOther(d[1..], k, v, k');
    }
  }

  /** Assignment keeps the keys distinct. */
  lemma {:induction false} SetUnique<V>(d: Dict<V>, k: string, v: V)
    requires UniqueKeys(d)
    ensures UniqueKeys(Set(d, k, v))
  {
    if d != [] && d[0].0 != k {
      SetUnique(d[1..], k, v);
      var rest := Set(d[1..], k, v);
      HeadNotInTail(d);
      assert d[0].0 !in Keys(rest);
      ConsUnique(d[0], rest);
      assert Set(d, k, v) == [d[0]] + rest;
    } else if d != [] {
      var rest := d[1..];
      assert UniqueKeys(rest) by {
        forall i, j | 0 <= i < j < |rest| ensures rest[i].0 != rest[j].0 {
          assert rest[i] == d[i + 1] && rest[j] == d[j + 1];
        }
      }
      HeadNotInTail(d);
      ConsUnique((k, v), rest);
    }
  }

  /** Putting a new key in front of distinct keys keeps them distinct. */
  lemma ConsUnique<V>(x: (string, V), d: Dict<V>)
    requires UniqueKeys(d) && x.0 !in Keys(d)
    ensures UniqueKeys([x] + d)
  {
    var r := [x] + d;
    forall i, j | 0 <= i < j < |r| ensures r[i].0 != r[j].0 {
      assert r[j] == d[j - 1] && Keys(d)[j - 1] == d[j - 1].0;
      if i > 0 {
        assert r[i] == d[i - 1];
      }
    }
  }

  /** With distinct keys, the first key does not occur again. */
  lemma HeadNotInTail<V>(d: Dict<V>)
    requires UniqueKeys(d) && d != []
    ensures d[0].0 !in Keys(d[1..])
  {
    var tail := d[1..];
    forall m | 0 <= m < |tail| ensures Keys(tail)[m] != d[0].0 {
      assert tail[m] == d[m + 1];
    }
  }
}
