/** List bookkeeping used throughout the source: `indexOf`, `splice(i, 1)`,
  * push-if-absent and first-occurrence de-duplication. */
module Lists {

  predicate NoDup<T(==)>(s: seq<T>) {
    forall i, j :: 0 <= i < j < |s| ==> s[i] != s[j]
  }

  /** JavaScript's `Array.prototype.indexOf`: the first position of `x`, or -1. */
  function IndexOf<T(==)>(s: seq<T>, x: T): (r: int)
    ensures -1 <= r < |s|
    ensures r == -1 <==> x !in s
    ensures 0 <= r ==> s[r] == x && x !in s[..r]
  {
    if s == [] then -1
    else if s[0] == x then 0
    else
      var k := IndexOf(s[1..], x);
      assert s[1..][..(if k < 0 then 0 else k)] == s[1..(if k < 0 then 0 else k) + 1];
      if k == -1 then -1 else k + 1
  }

  /** The two halves of a duplicate-free list are duplicate-free and disjoint. */
  lemma NoDupSplit<T>(a: seq<T>, b: seq<T>)
    requires NoDup(a + b)
    ensures NoDup(a) && NoDup(b)
    ensures forall x :: x in b ==> x !in a
  {
    forall i, j | 0 <= i < j < |a| ensures a[i] != a[j] {
      assert (a + b)[i] == a[i] && (a + b)[j] == a[j];
    }
    forall i, j | 0 <= i < j < |b| ensures b[i] != b[j] {
      assert (a + b)[|a| + i] == b[i] && (a + b)[|a| + j] == b[j];
    }
    forall x | x in b ensures x !in a {
      var j :| 0 <= j < |b| && b[j] == x;
      forall i | 0 <= i < |a| ensures a[i] != x {
        assert (a + b)[i] == a[i] && (a + b)[|a| + j] == b[j];
      }
    }
  }

  /** The first position holding `x` is what `indexOf` finds. */
  lemma IndexOfFirst<T>(s: seq<T>, x: T, i: nat)
    requires i < |s| && s[i] == x && x !in s[..i]
    ensures IndexOf(s, x) == i
  {
  }

  /** `i = s.indexOf(x); if (i > -1) s.splice(i, 1)`: drop the first `x`, if any. */
  function RemoveFirst<T(==)>(s: seq<T>, x: T): (r: seq<T>)
    ensures x !in s ==> r == s
    ensures x in s ==> |r| == |s| - 1 && multiset(r) == multiset(s) - multiset{x}
    ensures NoDup(s) ==> NoDup(r) && x !in r
  {
    var i := IndexOf(s, x);
    if i < 0 then s
    else
      SpliceMultiset(s, i);
      if NoDup(s) then
        SpliceNoDup(s, i);
        s[..i] + s[i + 1..]
      else s[..i] + s[i + 1..]
  }

  /** A sequence is the part before an index, the element there and the rest. */
  lemma Around<T>(s: seq<T>, i: nat)
    requires i < |s|
    ensures s == s[..i] + [s[i]] + s[i + 1..]
  {
  }

  /** `splice(i, 1)` removes exactly one copy of the element at `i`. */
  lemma SpliceMultiset<T>(s: seq<T>, i: nat)
    requires i < |s|
    ensures multiset(s[..i] + s[i + 1..]) == multiset(s) - multiset{s[i]}
  {
    Around(s, i);
    assert multiset(s) == multiset(s[..i]) + multiset{s[i]} + multiset(s[i + 1..]);
  }

  /** `splice(i, 1)` on a duplicate-free sequence keeps it duplicate-free and
    * drops the element at `i` entirely. */
  lemma SpliceNoDup<T>(s: seq<T>, i: nat)
    requires i < |s| && NoDup(s)
    ensures NoDup(s[..i] + s[i + 1..]) && s[i] !in s[..i] + s[i + 1..]
  {
    var r := s[..i] + s[i + 1..];
    forall a, b | 0 <= a < b < |r| ensures r[a] != r[b] {
      var a' := if a < i then a else a + 1;
      var b' := if b < i then b else b + 1;
      assert r[a] == s[a'] && r[b] == s[b'];
    }
    forall a | 0 <= a < |r| ensures r[a] != s[i] {
      var a' := if a < i then a else a + 1;
      assert r[a] == s[a'];
    }
  }

  /** The elements of `s` in order of first occurrence, each once: the result of
    * a loop that skips every element already recorded in a `seen` set. */
  function FirstOccurrences<T(==,!new)>(s: seq<T>): (r: seq<T>)
    ensures NoDup(r)
    ensures forall x :: x in r <==> x in s
    ensures |r| <= |s|
  {
    if s == [] then []
    else
      var r := FirstOccurrences(s[..|s| - 1]);
      var last := s[|s| - 1];
      assert s == s[..|s| - 1] + [last];
      if last in r then r else r + [last]
  }

  /** One more round of that loop. */
  lemma FirstOccurrencesSnoc<T(!new)>(s: seq<T>, x: T)
    ensures FirstOccurrences(s + [x]) == if x in s then FirstOccurrences(s) else FirstOccurrences(s) + [x]
  {
    assert (s + [x])[..|s|] == s;
  }

  /** The same round, stated on prefixes of one sequence. */
  lemma FirstOccurrencesStep<T(!new)>(s: seq<T>, i: nat)
    requires i < |s|
    ensures FirstOccurrences(s[..i + 1])
      == if s[i] in s[..i] then FirstOccurrences(s[..i]) else FirstOccurrences(s[..i]) + [s[i]]
  {
    assert s[..i + 1] == s[..i] + [s[i]];
    FirstOccurrencesSnoc(s[..i], s[i]);
  }
}
