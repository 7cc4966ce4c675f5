/** The extension methods of `Utils/Extensions.cs`. */
module Extensions {
  import opened Wrappers
  import opened States
  import opened Dictionary

  /** `source ?? Enumerable.Empty<T>()`. */
  function MayBeNull<T>(source: Option<seq<T>>): (r: seq<T>)
    ensures source.None? ==> r == []
    ensures source.Some? ==> r == source.value
  {
    source.GetOr([])
  }

  /** `Dictionary.ForceAdd`: `Remove(key)` followed by `Add(key, value)`. */
  function ForceAdd<V>(d: Dict<V>, k: string, v: V): (r: Dict<V>)
    requires Valid(d)
    ensures Valid(r)
    ensures Get(r, k) == Some(v)
    ensures forall k' :: k' != k ==> Get(r, k') == Get(d, k')
    ensures Keys(r) == Keys(d) + {k}
    ensures Count(r) == if k in Keys(d) then Count(d) else Count(d) + 1
  {
    AddAbsent(Remove(d, k).0, k, v)
  }

  /**
   * Overwriting a present key hands it straight back the slot it just freed, so the entry
   * keeps its place in enumeration order and the free list is as before.
   */
  lemma ForceAddKeepsSlot<V>(d: Dict<V>, i: nat, v: V)
    requires Valid(d) && i < |d.slots| && d.slots[i].Some?
    ensures ForceAdd(d, d.slots[i].value.key, v) == Dict(d.slots[i := Some(Entry(d.slots[i].value.key, v))], d.free)
  {
    FindUnique(d, i);
    var k := d.slots[i].value.key;
    var removed := Remove(d, k).0;
    assert removed == Dict(d.slots[i := None], [i] + d.free);
    assert removed.slots[i := Some(Entry(k, v))] == d.slots[i := Some(Entry(k, v))];
  }

  /** Repeating the same `ForceAdd` changes nothing. */
  lemma ForceAddIdempotent<V>(d: Dict<V>, k: string, v: V)
    requires Valid(d)
    ensures ForceAdd(ForceAdd(d, k, v), k, v) == ForceAdd(d, k, v)
  {
    var d1 := ForceAdd(d, k, v);
    assert k in Keys(d1);
    var j :| 0 <= j < |d1.slots| && d1.slots[j].Some? && d1.slots[j].value.key == k;
    GetAt(d1, j);
    ForceAddKeepsSlot(d1, j, v);
    assert d1.slots[j := Some(Entry(k, v))] == d1.slots;
  }

  /** `IsFinalPlaneStatus`: the two terminal statuses. */
  predicate IsFinalPlaneStatus(s: PlaneStatus) {
    s == Crashed || s == Landed
  }
}
