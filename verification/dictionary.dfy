/**
 * The .NET `Dictionary<string, V>` the dispatcher keeps its planes in, down to the order
 * in which it enumerates its values: entries live in an array of slots, a removal frees
 * its slot onto the front of a free list, and an insertion reuses the most recently freed
 * slot before it appends a new one. Enumeration visits the occupied slots in array order.
 */
module Dictionary {
  import opened Wrappers

  datatype Entry<V> = Entry(key: string, value: V)

  datatype Dict<V> = Dict(slots: seq<Option<Entry<V>>>, free: seq<nat>)

  /** Keys are unique, and the free list names distinct empty slots. */
  ghost predicate Valid<V>(d: Dict<V>) {
    && (forall i, j :: (0 <= i < |d.slots| && 0 <= j < |d.slots| && d.slots[i].Some? && d.slots[j].Some?
          && d.slots[i].value.key == d.slots[j].value.key) ==> i == j)
    && (forall n :: 0 <= n < |d.free| ==> d.free[n] < |d.slots| && d.slots[d.free[n]].None?)
    && (forall n, m :: 0 <= n < m < |d.free| ==> d.free[n] != d.free[m])
  }

  /** `new Dictionary<string, V>()`. */
  function Empty<V>(): (d: Dict<V>)
    ensures Valid(d) && Keys(d) == {} && Count(d) == 0 && Values(d) == []
  {
    Dict([], [])
  }

  function Keys<V>(d: Dict<V>): set<string> {
    set i | 0 <= i < |d.slots| && d.slots[i].Some? :: d.slots[i].value.key
  }

  /** The first slot holding `k`. */
  function Find<V>(s: seq<Option<Entry<V>>>, k: string): (r: Option<nat>)
    ensures r.Some? ==> r.value < |s| && s[r.value].Some? && s[r.value].value.key == k
    ensures r.Some? ==> forall i :: 0 <= i < r.value && s[i].Some? ==> s[i].value.key != k
    ensures r.None? ==> forall i :: 0 <= i < |s| && s[i].Some? ==> s[i].value.key != k
  {
    if |s| == 0 then None
    else if s[0].Some? && s[0].value.key == k then Some(0)
    else match Find(s[1..], k)
      case None => None
      case Some(j) => Some(j + 1)
  }

  lemma FindUnique<V>(d: Dict<V>, i: nat)
    requires Valid(d) && i < |d.slots| && d.slots[i].Some?
    ensures Find(d.slots, d.slots[i].value.key) == Some(i)
  {
  }

  lemma FindIffKey<V>(d: Dict<V>, k: string)
    ensures Find(d.slots, k).Some? <==> k in Keys(d)
  {
    if k in Keys(d) {
      var i :| 0 <= i < |d.slots| && d.slots[i].Some? && d.slots[i].value.key == k;
    }
  }

  /** `ContainsKey`. */
  function ContainsKey<V>(d: Dict<V>, k: string): (b: bool)
    ensures b <==> k in Keys(d)
  {
    FindIffKey(d, k);
    Find(d.slots, k).Some?
  }

  /** `TryGetValue`, with `None` for a missing key. */
  function Get<V>(d: Dict<V>, k: string): (r: Option<V>)
    ensures r.Some? <==> k in Keys(d)
  {
    FindIffKey(d, k);
    match Find(d.slots, k)
    case Some(i) => Some(d.slots[i].value.value)
    case None => None
  }

  lemma GetAt<V>(d: Dict<V>, i: nat)
    requires Valid(d) && i < |d.slots| && d.slots[i].Some?
    ensures Get(d, d.slots[i].value.key) == Some(d.slots[i].value.value)
  {
    FindUnique(d, i);
  }

  function CountSome<V>(s: seq<Option<Entry<V>>>): nat {
    if |s| == 0 then 0 else (if s[0].Some? then 1 else 0) + CountSome(s[1..])
  }

  /** `Count`. */
  function Count<V>(d: Dict<V>): nat {
    CountSome(d.slots)
  }

  function ValuesOf<V>(s: seq<Option<Entry<V>>>): (r: seq<V>)
    ensures |r| == CountSome(s)
  {
    if |s| == 0 then []
    else if s[0].Some? then [s[0].value.value] + ValuesOf(s[1..])
    else ValuesOf(s[1..])
  }

  /** `Values`, in enumeration order. */
  function Values<V>(d: Dict<V>): seq<V> {
    ValuesOf(d.slots)
  }

  /** `Values.FirstOrDefault()`. */
  function First<V>(d: Dict<V>): Option<V> {
    if |Values(d)| == 0 then None else Some(Values(d)[0])
  }

  lemma {:induction false} CountUpdate<V>(s: seq<Option<Entry<V>>>, i: nat, x: Option<Entry<V>>)
    requires i < |s|
    ensures CountSome(s[i := x]) + (if s[i].Some? then 1 else 0) == CountSome(s) + (if x.Some? then 1 else 0)
  {
    if i > 0 {
      assert s[i := x][1..] == s[1..][i - 1 := x];
      CountUpdate(s[1..], i - 1, x);
    }
  }

  lemma {:induction false} CountAppend<V>(s: seq<Option<Entry<V>>>, x: Option<Entry<V>>)
    ensures CountSome(s + [x]) == CountSome(s) + (if x.Some? then 1 else 0)
  {
    if |s| > 0 {
      assert (s + [x])[1..] == s[1..] + [x];
      CountAppend(s[1..], x);
    }
  }

  /** Replacing slot `i` by `x` changes the key set by exactly the key leaving and the key arriving. */
  lemma KeysUpdate<V>(d: Dict<V>, i: nat, x: Option<Entry<V>>, free: seq<nat>)
    requires Valid(d) && i < |d.slots|
    ensures Keys(Dict(d.slots[i := x], free))
         == (if d.slots[i].Some? then Keys(d) - {d.slots[i].value.key} else Keys(d))
            + (if x.Some? then {x.value.key} else {})
  {
    var d' := Dict(d.slots[i := x], free);
    var expected := (if d.slots[i].Some? then Keys(d) - {d.slots[i].value.key} else Keys(d))
                    + (if x.Some? then {x.value.key} else {});
    forall k | k in Keys(d')
      ensures k in expected
    {
      var j :| 0 <= j < |d'.slots| && d'.slots[j].Some? && d'.slots[j].value.key == k;
      if j != i {
        assert d.slots[j] == d'.slots[j];
      }
    }
    forall k | k in expected
      ensures k in Keys(d')
    {
      if x.Some? && k == x.value.key {
        assert d'.slots[i] == x;
      } else {
        var j :| 0 <= j < |d.slots| && d.slots[j].Some? && d.slots[j].value.key == k;
        assert j != i;
        assert d'.slots[j] == d.slots[j];
      }
    }
  }

  /** Lookups of every key other than the one in slot `i` survive replacing slot `i`. */
  lemma GetUpdate<V>(d: Dict<V>, i: nat, x: Option<Entry<V>>, free: seq<nat>, k: string)
    requires i < |d.slots| && Valid(d) && Valid(Dict(d.slots[i := x], free))
    requires d.slots[i].Some? ==> d.slots[i].value.key != k
    requires x.Some? ==> x.value.key != k
    ensures Get(Dict(d.slots[i := x], free), k) == Get(d, k)
  {
    var d' := Dict(d.slots[i := x], free);
    KeysUpdate(d, i, x, free);
    if k in Keys(d) {
      var j :| 0 <= j < |d.slots| && d.slots[j].Some? && d.slots[j].value.key == k;
      assert j != i && d'.slots[j] == d.slots[j];
      GetAt(d, j);
      GetAt(d', j);
    }
  }

  /** `Remove`: frees the slot of `k` and reports whether there was one. */
  function Remove<V>(d: Dict<V>, k: string): (r: (Dict<V>, bool))
    requires Valid(d)
    ensures Valid(r.0)
    ensures r.1 <==> k in Keys(d)
    ensures Keys(r.0) == Keys(d) - {k}
    ensures Count(r.0) == if r.1 then Count(d) - 1 else Count(d)
    ensures forall k' :: k' != k ==> Get(r.0, k') == Get(d, k')
  {
    FindIffKey(d, k);
    match Find(d.slots, k)
    case None => (d, false)
    case Some(i) =>
      var d' := Dict(d.slots[i := None], [i] + d.free);
      assert Valid(d') by {
        forall n | 0 <= n < |d'.free|
          ensures d'.free[n] < |d'.slots| && d'.slots[d'.free[n]].None?
        {
          if n > 0 {
            assert d'.free[n] == d.free[n - 1];
            assert d.slots[d.free[n - 1]].None?;
          }
        }
        forall n, m | 0 <= n < m < |d'.free|
          ensures d'.free[n] != d'.free[m]
        {
          if n == 0 {
            assert d'.free[m] == d.free[m - 1];
            assert d.slots[d.free[m - 1]].None?;
          } else {
            assert d'.free[n] == d.free[n - 1] && d'.free[m] == d.free[m - 1];
          }
        }
      }
      KeysUpdate(d, i, None, [i] + d.free);
      CountUpdate(d.slots, i, None);
      forall k' | k' != k
        ensures Get(d', k') == Get(d, k')
      {
        GetUpdate(d, i, None, [i] + d.free, k');
      }
      (d', true)
  }

  /** `Add` of a key known to be absent: reuse the most recently freed slot, else append. */
  function AddAbsent<V>(d: Dict<V>, k: string, v: V): (r: Dict<V>)
    requires Valid(d) && k !in Keys(d)
    ensures Valid(r)
    ensures Keys(r) == Keys(d) + {k}
    ensures Get(r, k) == Some(v)
    ensures Count(r) == Count(d) + 1
    ensures forall k' :: k' != k ==> Get(r, k') == Get(d, k')
  {
    var e := Some(Entry(k, v));
    if |d.free| > 0 then
      var i := d.free[0];
      var d' := Dict(d.slots[i := e], d.free[1..]);
      assert Valid(d') by {
        forall a, b | 0 <= a < |d'.slots| && 0 <= b < |d'.slots| && d'.slots[a].Some? && d'.slots[b].Some?
                      && d'.slots[a].value.key == d'.slots[b].value.key
          ensures a == b
        {
          if a != i && b != i {
            assert d.slots[a] == d'.slots[a] && d.slots[b] == d'.slots[b];
          }
        }
        forall n | 0 <= n < |d'.free|
          ensures d'.free[n] < |d'.slots| && d'.slots[d'.free[n]].None?
        {
          assert d'.free[n] == d.free[n + 1] && d.free[n + 1] != d.free[0];
        }
        forall n, m | 0 <= n < m < |d'.free|
          ensures d'.free[n] != d'.free[m]
        {
          assert d'.free[n] == d.free[n + 1] && d'.free[m] == d.free[m + 1];
        }
      }
      KeysUpdate(d, i, e, d.free[1..]);
      CountUpdate(d.slots, i, e);
      GetAt(d', i);
      forall k' | k' != k
        ensures Get(d', k') == Get(d, k')
      {
        GetUpdate(d, i, e, d.free[1..], k');
      }
      d'
    else
      var d' := Dict(d.slots + [e], d.free);
      assert d'.slots == (d.slots + [None])[|d.slots| := e];
      var pad := Dict(d.slots + [None], d.free);
      assert Valid(pad) by {
        forall a, b | 0 <= a < |pad.slots| && 0 <= b < |pad.slots| && pad.slots[a].Some? && pad.slots[b].Some?
                      && pad.slots[a].value.key == pad.slots[b].value.key
          ensures a == b
        {
          assert pad.slots[a] == d.slots[a] && pad.slots[b] == d.slots[b];
        }
      }
      assert Keys(pad) == Keys(d) by {
        forall key | key in Keys(pad)
          ensures key in Keys(d)
        {
          var j :| 0 <= j < |pad.slots| && pad.slots[j].Some? && pad.slots[j].value.key == key;
          assert d.slots[j] == pad.slots[j];
        }
        forall key | key in Keys(d)
          ensures key in Keys(pad)
        {
          var j :| 0 <= j < |d.slots| && d.slots[j].Some? && d.slots[j].value.key == key;
          assert pad.slots[j] == d.slots[j];
        }
      }
      assert Valid(d') by {
        forall a, b | 0 <= a < |d'.slots| && 0 <= b < |d'.slots| && d'.slots[a].Some? && d'.slots[b].Some?
                      && d'.slots[a].value.key == d'.slots[b].value.key
          ensures a == b
        {
          if a < |d.slots| && b < |d.slots| {
            assert d.slots[a] == d'.slots[a] && d.slots[b] == d'.slots[b];
          }
        }
      }
      KeysUpdate(pad, |d.slots|, e, d.free);
      CountAppend(d.slots, e);
      GetAt(d', |d.slots|);
      forall k' | k' != k
        ensures Get(d', k') == Get(d, k')
      {
        GetUpdate(pad, |d.slots|, e, d.free, k');
        assert Get(pad, k') == Get(d, k') by {
          if k' in Keys(d) {
            var j :| 0 <= j < |d.slots| && d.slots[j].Some? && d.slots[j].value.key == k';
            assert pad.slots[j] == d.slots[j];
            GetAt(d, j);
            GetAt(pad, j);
          }
        }
      }
      d'
  }

  /** The indexer `d[k] = v`: overwrite in place when present, else `Add`. */
  function Put<V>(d: Dict<V>, k: string, v: V): (r: Dict<V>)
    requires Valid(d)
    ensures Valid(r)
    ensures Keys(r) == Keys(d) + {k}
    ensures Get(r, k) == Some(v)
    ensures Count(r) == if k in Keys(d) then Count(d) else Count(d) + 1
    ensures forall k' :: k' != k ==> Get(r, k') == Get(d, k')
  {
    FindIffKey(d, k);
    match Find(d.slots, k)
    case None => AddAbsent(d, k, v)
    case Some(i) =>
      var e := Some(Entry(k, v));
      var d' := Dict(d.slots[i := e], d.free);
      assert Valid(d') by {
        forall a, b | 0 <= a < |d'.slots| && 0 <= b < |d'.slots| && d'.slots[a].Some? && d'.slots[b].Some?
                      && d'.slots[a].value.key == d'.slots[b].value.key
          ensures a == b
        {
          if a != i && b != i {
            assert d.slots[a] == d'.slots[a] && d.slots[b] == d'.slots[b];
          }
        }
        forall n | 0 <= n < |d'.free|
          ensures d'.free[n] < |d'.slots| && d'.slots[d'.free[n]].None?
        {
          assert d.slots[d.free[n]].None?;
        }
      }
      KeysUpdate(d, i, e, d.free);
      CountUpdate(d.slots, i, e);
      GetAt(d', i);
      forall k' | k' != k
        ensures Get(d', k') == Get(d, k')
      {
        GetUpdate(d, i, e, d.free, k');
      }
      d'
  }
}
