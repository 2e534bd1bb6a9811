/** The value-combining rule of `NodeInput.getValues`: every callback value
  * arrives once, in some order, and is folded into one list. */
module Fanin {
  import opened Js
  import opened Lists

  /** What one callback value adds to the result: nothing for `undefined`, the
    * elements of an array, any other value wrapped as a one-element list. */
  function Contribution(v: JsValue): seq<JsValue> {
    if v.Undefined? then []
    else if v.Array? then v.items
    else [v]
  }

  /** The list accumulated by `values = values.concat(value)` over the callback
    * values in arrival order. */
  function Aggregate(arrived: seq<JsValue>): seq<JsValue> {
    if arrived == [] then []
    else Aggregate(arrived[..|arrived| - 1]) + Contribution(arrived[|arrived| - 1])
  }

  lemma {:induction false} AggregateAppend(a: seq<JsValue>, b: seq<JsValue>)
    ensures Aggregate(a + b) == Aggregate(a) + Aggregate(b)
    decreases |b|
  {
    if b == [] {
      assert a + b == a;
    } else {
      var b', x := b[..|b| - 1], b[|b| - 1];
      assert (a + b)[..|a + b| - 1] == a + b';
      assert (a + b)[|a + b| - 1] == x;
      AggregateAppend(a, b');
      assert Aggregate(a + b) == Aggregate(a + b') + Contribution(x);
      assert Aggregate(b) == Aggregate(b') + Contribution(x);
    }
  }

  /** The aggregate around the value at `k`, and without it. */
  lemma AggregateSplit(b: seq<JsValue>, k: nat)
    requires k < |b|
    ensures Aggregate(b) == Aggregate(b[..k]) + Contribution(b[k]) + Aggregate(b[k + 1..])
    ensures Aggregate(b[..k] + b[k + 1..]) == Aggregate(b[..k]) + Aggregate(b[k + 1..])
  {
    var pre, x, post := b[..k], b[k], b[k + 1..];
    Around(b, k);
    AggregateAppend(pre + [x], post);
    AggregateAppend(pre, [x]);
    AggregateAppend(pre, post);
    assert Aggregate([x]) == Contribution(x) by { assert [x][..0] == []; }
  }

  /** Moving the middle part of a sequence to the front keeps its elements. */
  lemma MultisetMiddle(p: seq<JsValue>, c: seq<JsValue>, q: seq<JsValue>)
    ensures multiset(p + c + q) == multiset(c) + multiset(p + q)
  {
    calc {
      multiset(p + c + q);
      multiset(p) + multiset(c) + multiset(q);
      multiset(c) + (multiset(p) + multiset(q));
      multiset(c) + multiset(p + q);
    }
  }

  /** The contribution of the value at `k` can be taken out of the aggregate. */
  lemma AggregateRemove(b: seq<JsValue>, k: nat, v: JsValue, rest: seq<JsValue>)
    requires k < |b| && b[k] == v && rest == b[..k] + b[k + 1..]
    ensures multiset(Aggregate(b)) == multiset(Contribution(v)) + multiset(Aggregate(rest))
  {
    AggregateSplit(b, k);
    MultisetMiddle(Aggregate(b[..k]), Contribution(v), Aggregate(b[k + 1..]));
  }

  /** The contribution of the first value comes first. */
  lemma AggregateFirst(a: seq<JsValue>)
    requires 0 < |a|
    ensures multiset(Aggregate(a)) == multiset(Contribution(a[0])) + multiset(Aggregate(a[1..]))
  {
    assert a == [a[0]] + a[1..];
    AggregateAppend([a[0]], a[1..]);
    assert Aggregate([a[0]]) == Contribution(a[0]) by { assert [a[0]][..0] == []; }
  }

  /** Taking one copy of the same value out of two permutations of each
    * other leaves two permutations of each other. */
  lemma SameRest(a: seq<JsValue>, b: seq<JsValue>, k: nat)
    requires 0 < |a| && k < |b| && b[k] == a[0] && multiset(a) == multiset(b)
    ensures multiset(a[1..]) == multiset(b[..k] + b[k + 1..])
  {
    assert a == [a[0]] + a[1..];
    assert multiset(a[1..]) == multiset(a) - multiset{a[0]};
    SpliceMultiset(b, k);
  }

  /** Putting the same value back in front of both. */
  lemma PermutationStep(a: seq<JsValue>, b: seq<JsValue>, k: nat)
    requires 0 < |a| && k < |b| && b[k] == a[0]
    requires multiset(Aggregate(a[1..])) == multiset(Aggregate(b[..k] + b[k + 1..]))
    ensures multiset(Aggregate(a)) == multiset(Aggregate(b))
  {
    var restB := b[..k] + b[k + 1..];
    var v := a[0];
    AggregateFirst(a);
    AggregateRemove(b, k, v, restB);
    SameAdded(multiset(Aggregate(a)), multiset(Aggregate(b)), multiset(Contribution(v)),
              multiset(Aggregate(a[1..])), multiset(Aggregate(restB)));
  }

  lemma SameAdded(x: multiset<JsValue>, y: multiset<JsValue>, c: multiset<JsValue>, rx: multiset<JsValue>, ry: multiset<JsValue>)
    requires x == c + rx && y == c + ry && rx == ry
    ensures x == y
  {
  }

  /** Arrival order changes only the order of the result, never its contents:
    * the aggregate of any reordering is a permutation of the aggregate. */
  lemma {:induction false} AggregateOrderInsensitive(a: seq<JsValue>, b: seq<JsValue>)
    requires multiset(a) == multiset(b)
    ensures multiset(Aggregate(a)) == multiset(Aggregate(b))
    decreases |a|
  {
    if a == [] {
      assert b == [] by { assert |b| == |multiset(b)| == 0; }
    } else {
      var x := a[0];
      assert x in multiset(b);
      var k :| 0 <= k < |b| && b[k] == x;
      var rest := a[1..];
      var rest' := b[..k] + b[k + 1..];
      SameRest(a, b, k);
      AggregateOrderInsensitive(rest, rest');
      PermutationStep(a, b, k);
    }
  }

  /** The length of the result is the sum of the contributions' lengths. */
  function ContributedCount(arrived: seq<JsValue>): nat {
    if arrived == [] then 0
    else ContributedCount(arrived[..|arrived| - 1]) + |Contribution(arrived[|arrived| - 1])|
  }

  lemma {:induction false} AggregateLength(arrived: seq<JsValue>)
    ensures |Aggregate(arrived)| == ContributedCount(arrived)
  {
    if arrived != [] {
      AggregateLength(arrived[..|arrived| - 1]);
    }
  }

  /** When no callback value is `undefined` or an array, the result lists the
    * values themselves, in arrival order. */
  lemma {:induction false} AggregateOfScalars(arrived: seq<JsValue>)
    requires forall i :: 0 <= i < |arrived| ==> !arrived[i].Undefined? && !arrived[i].Array?
    ensures Aggregate(arrived) == arrived
  {
    if arrived != [] {
      AggregateOfScalars(arrived[..|arrived| - 1]);
    }
  }

  /** One callback invocation: the position of the connector whose origin
    * answered, and the value it passed. */
  datatype Arrival = Arrival(index: nat, value: JsValue)

  function Indices(arrivals: seq<Arrival>): (r: seq<nat>)
    ensures |r| == |arrivals|
    ensures forall k :: 0 <= k < |arrivals| ==> r[k] == arrivals[k].index
  {
    seq(|arrivals|, k requires 0 <= k < |arrivals| => arrivals[k].index)
  }

  function Values(arrivals: seq<Arrival>): (r: seq<JsValue>)
    ensures |r| == |arrivals|
    ensures forall k :: 0 <= k < |arrivals| ==> r[k] == arrivals[k].value
  {
    seq(|arrivals|, k requires 0 <= k < |arrivals| => arrivals[k].value)
  }

  /** Each of `n` origins calls its callback at most once. */
  predicate WellFormed(arrivals: seq<Arrival>, n: nat) {
    NoDup(Indices(arrivals)) && forall k :: 0 <= k < |arrivals| ==> arrivals[k].index < n
  }

  function ElementSet(s: seq<nat>): (r: set<nat>)
    ensures forall x :: x in r <==> x in s
    ensures NoDup(s) ==> |r| == |s|
  {
    if s == [] then {}
    else
      var s' := s[..|s| - 1];
      var last := s[|s| - 1];
      assert s == s' + [last];
      assert NoDup(s) ==> NoDup(s') && last !in s' by {
        if NoDup(s) {
          forall i, j | 0 <= i < j < |s'| ensures s'[i] != s'[j] { assert s'[i] == s[i] && s'[j] == s[j]; }
          forall i | 0 <= i < |s'| ensures s'[i] != last { assert s'[i] == s[i]; }
        }
      }
      ElementSet(s') + {last}
  }

  /** The index set `{0, ..., n - 1}`. */
  function Range(n: nat): (r: set<nat>)
    ensures forall i: int :: i in r <==> 0 <= i < n
    ensures |r| == n
  {
    if n == 0 then {} else Range(n - 1) + {n - 1}
  }

  /** At most `n` callbacks can arrive, and when `n` have arrived every
    * connector has answered: the aggregate resolves exactly when each origin
    * has called back once. */
  lemma {:induction false} ArrivalsComplete(arrivals: seq<Arrival>, n: nat)
    requires WellFormed(arrivals, n)
    ensures |arrivals| <= n
    ensures |arrivals| == n ==> forall i :: 0 <= i < n ==> i in Indices(arrivals)
  {
    var idx := Indices(arrivals);
    var seen := ElementSet(idx);
    var all := Range(n);
    assert seen <= all;
    assert |all - seen| == |all| - |seen|;
    if |arrivals| == n {
      assert all - seen == {};
      forall i | 0 <= i < n ensures i in idx {
        assert i in all;
      }
    }
  }
}
