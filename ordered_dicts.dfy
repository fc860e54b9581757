/**
 * collections.OrderedDict as the calibration code uses it: a dictionary that
 * remembers insertion order.  Assigning to a key already present replaces its
 * value in place; assigning to a new key appends it at the end.  Every key the
 * code uses is a string.
 */
module OrderedDicts {
  import opened Outcomes

  /** The keys of an association list, in order. */
  function Keys<V>(entries: seq<(string, V)>): (r: seq<string>)
    ensures |r| == |entries|
    ensures forall i :: 0 <= i < |entries| ==> r[i] == entries[i].0
  {
    if |entries| == 0 then [] else [entries[0].0] + Keys(entries[1..])
  }

  /** The value stored under k: the first entry with that key. */
  function Lookup<V>(entries: seq<(string, V)>, k: string): (r: Option<V>)
    ensures r.None? <==> k !in Keys(entries)
  {
    if |entries| == 0 then None
    else if entries[0].0 == k then Some(entries[0].1)
    else Lookup(entries[1..], k)
  }

  /** No key occurs twice. */
  predicate DistinctKeys<V>(entries: seq<(string, V)>)
  {
    forall i, j :: 0 <= i < j < |entries| ==> entries[i].0 != entries[j].0
  }

  /** d[k] = v on an OrderedDict whose items are `entries`. */
  function Put<V>(entries: seq<(string, V)>, k: string, v: V): seq<(string, V)>
  {
    if |entries| == 0 then [(k, v)]
    else if entries[0].0 == k then [(k, v)] + entries[1..]
    else [entries[0]] + Put(entries[1..], k, v)
  }

  /** After d[k] = v the keys are unchanged if k was present; otherwise k comes last. */
  lemma {:induction false} PutKeys<V>(entries: seq<(string, V)>, k: string, v: V)
    ensures Keys(Put(entries, k, v)) == if k in Keys(entries) then Keys(entries) else Keys(entries) + [k]
  {
    if |entries| > 0 && entries[0].0 != k {
      var tail := entries[1..];
      PutKeys(tail, k, v);
      assert Keys(entries) == [entries[0].0] + Keys(tail);
      assert Put(entries, k, v) == [entries[0]] + Put(tail, k, v);
      assert Keys(Put(entries, k, v)) == [entries[0].0] + Keys(Put(tail, k, v));
    }
  }

  /** After d[k] = v, k maps to v and every other key to what it mapped to before. */
  lemma {:induction false} PutLookup<V>(entries: seq<(string, V)>, k: string, v: V)
    ensures Lookup(Put(entries, k, v), k) == Some(v)
    ensures forall j :: j != k ==> Lookup(Put(entries, k, v), j) == Lookup(entries, j)
  {
    if |entries| > 0 {
      var tail := entries[1..];
      if entries[0].0 == k {
        assert Put(entries, k, v)[1..] == tail;
      } else {
        PutLookup(tail, k, v);
        assert Put(entries, k, v)[1..] == Put(tail, k, v);
      }
    }
  }

  /** A key that is not yet present is appended with its value. */
  lemma {:induction false} PutNew<V>(entries: seq<(string, V)>, k: string, v: V)
    requires k !in Keys(entries)
    ensures Put(entries, k, v) == entries + [(k, v)]
  {
    if |entries| > 0 {
      assert Keys(entries)[0] == entries[0].0;
      assert k !in Keys(entries[1..]) by {
        forall i | 0 <= i < |entries| - 1 ensures Keys(entries[1..])[i] != k {
          assert Keys(entries)[i + 1] == Keys(entries[1..])[i];
        }
      }
      PutNew(entries[1..], k, v);
      assert [entries[0]] + (entries[1..] + [(k, v)]) == entries + [(k, v)];
    }
  }

  /** A present key keeps its position; only its value changes. */
  lemma {:induction false} PutPresent<V>(entries: seq<(string, V)>, k: string, v: V, i: nat)
    requires i < |entries| && entries[i].0 == k && DistinctKeys(entries)
    ensures Put(entries, k, v) == entries[i := (k, v)]
  {
    if i > 0 {
      var tail := entries[1..];
      assert entries[0].0 != k;
      assert DistinctKeys(tail) by {
        forall a, b | 0 <= a < b < |tail| ensures tail[a].0 != tail[b].0 {
          assert tail[a] == entries[a + 1] && tail[b] == entries[b + 1];
        }
      }
      assert tail[i - 1] == entries[i];
      PutPresent(tail, k, v, i - 1);
      assert Put(entries, k, v) == [entries[0]] + tail[i - 1 := (k, v)];
      assert [entries[0]] + tail[i - 1 := (k, v)] == entries[i := (k, v)];
    }
  }

  /** Assignment keeps every key unique. */
  lemma {:induction false} PutDistinct<V>(entries: seq<(string, V)>, k: string, v: V)
    requires DistinctKeys(entries)
    ensures DistinctKeys(Put(entries, k, v))
  {
    var r := Put(entries, k, v);
    PutKeys(entries, k, v);
    forall i, j | 0 <= i < j < |r| ensures r[i].0 != r[j].0 {
      assert Keys(r)[i] == r[i].0 && Keys(r)[j] == r[j].0;
      assert Keys(entries) == Keys(entries[..|entries|]);
      if j < |entries| {
        assert Keys(entries)[i] == entries[i].0 && Keys(entries)[j] == entries[j].0;
      } else {
        assert r[j].0 == k && k !in Keys(entries);
        assert Keys(entries)[i] == entries[i].0;
      }
    }
  }

  /** The items after assigning each of `items` in turn to an empty OrderedDict. */
  function PutAll<V>(items: seq<(string, V)>): seq<(string, V)>
  {
    if |items| == 0 then []
    else Put(PutAll(items[..|items| - 1]), items[|items| - 1].0, items[|items| - 1].1)
  }

  /** Assigning distinct keys keeps every item, in order. */
  lemma {:induction false} PutAllDistinct<V>(items: seq<(string, V)>)
    requires DistinctKeys(items)
    ensures PutAll(items) == items
  {
    if |items| > 0 {
      var init := items[..|items| - 1];
      var last := items[|items| - 1];
      assert DistinctKeys(init);
      PutAllDistinct(init);
      assert last.0 !in Keys(init) by {
        forall i | 0 <= i < |init| ensures Keys(init)[i] != last.0 {
          assert Keys(init)[i] == items[i].0;
        }
      }
      PutNew(init, last.0, last.1);
      assert init + [last] == items;
    }
  }

  /** An OrderedDict: its items are `entries`, in insertion order. */
  class OrderedDict<V> {
    var entries: seq<(string, V)>

    ghost predicate Valid()
      reads this
    {
      DistinctKeys(entries)
    }

    /** OrderedDict(): no items. */
    constructor ()
      ensures entries == [] && Valid()
    {
      entries := [];
    }

    /** d[k] = v. */
    method Set(k: string, v: V)
      requires Valid()
      modifies this
      ensures Valid()
      ensures entries == Put(old(entries), k, v)
    {
      PutDistinct(entries, k, v);
      entries := Put(entries, k, v);
    }

    /** d[k], or None where Python raises KeyError. */
    function Get(k: string): (r: Option<V>)
      reads this
      ensures r.None? <==> k !in Keys(entries)
    {
      Lookup(entries, k)
    }

    /** list(d.items()). */
    function Items(): seq<(string, V)>
      reads this
    {
      entries
    }
  }
}
