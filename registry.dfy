/** A name-keyed JavaScript object used as a registry (`obj[name] = value`):
  * a map from names to entries plus the order in which the names were first
  * registered, which is the order `for (name in obj)` visits them. */
module Registries {
  import opened Base
  import opened Lists

  datatype Registry<V> = Registry(entries: map<string, V>, order: seq<string>) {

    ghost predicate Valid() {
      && NoDup(order)
      && (forall i :: 0 <= i < |order| ==> order[i] in entries)
      && (forall k :: k in entries ==> k in order)
    }

    /** `obj[name]`, absent (`undefined`) when never registered. */
    function Lookup(name: string): (r: Option<V>)
      ensures r.Some? <==> name in entries
    {
      if name in entries then Some(entries[name]) else None
    }

    /** `obj[name] = v`: registers or replaces one entry. */
    function Put(name: string, v: V): (r: Registry<V>)
      requires Valid()
      ensures r.Valid()
      ensures r.Lookup(name) == Some(v)
      ensures forall k :: k != name ==> r.Lookup(k) == Lookup(k)
      ensures name in entries ==> r.order == order
      ensures name !in entries ==> r.order == order + [name]
    {
      var order' := if name in entries then order else order + [name];
      assert forall i :: 0 <= i < |order| ==> order'[i] == order[i];
      Registry(entries[name := v], order')
    }

    /** Registering the names of `names` one by one, in order, keeps the
      * earlier registrations and extends the order. */
    lemma PutNext(names: seq<string>, i: nat, v: V)
      requires Valid() && NoDup(names) && i < |names|
      requires |order| == i && forall k :: 0 <= k < i ==> order[k] == names[k]
      ensures |Put(names[i], v).order| == i + 1
      ensures forall k :: 0 <= k <= i ==> Put(names[i], v).order[k] == names[k]
      ensures forall k :: 0 <= k < i ==> Put(names[i], v).entries[names[k]] == entries[names[k]]
      ensures Put(names[i], v).entries[names[i]] == v
    {
      forall j | 0 <= j < |order| ensures order[j] != names[i] {
        assert order[j] == names[j];
      }
      assert names[i] !in entries;
      forall k | 0 <= k < i ensures Put(names[i], v).entries[names[k]] == entries[names[k]] {
        assert names[k] != names[i];
        assert names[k] in entries by { assert order[k] == names[k]; }
        assert Put(names[i], v).Lookup(names[k]) == Lookup(names[k]);
      }
    }

    /** The entries in registration order, as a `for (name in obj)` loop lists them. */
    function Values(): (r: seq<V>)
      requires Valid()
      ensures |r| == |order|
      ensures forall i :: 0 <= i < |order| ==> r[i] == entries[order[i]]
    {
      seq(|order|, i requires 0 <= i < |order| => entries[order[i]])
    }
  }

  function Empty<V>(): (r: Registry<V>)
    ensures r.Valid() && r.entries == map[] && r.order == []
  {
    Registry(map[], [])
  }
}
