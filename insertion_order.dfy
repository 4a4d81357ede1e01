/**
 * The key order of a plain JavaScript object whose keys are non-numeric
 * strings: `Object.keys` lists them in the order in which they were first
 * assigned.
 * Such an object is modelled as a sequence of (key, value) entries.
 */
module InsertionOrder {

  /**
   * The distinct elements of `s` in order of first appearance: the keys of an
   * object after assigning the keys `s[0]`, `s[1]`, ... in turn.
   */
  function Distinct(s: seq<string>): (d: seq<string>)
    ensures forall i :: 0 <= i < |d| ==> d[i] in s
    ensures |d| <= |s|
  {
    if |s| == 0 then []
    else
      var d0 := Distinct(s[..|s| - 1]);
      assert s == s[..|s| - 1] + [s[|s| - 1]];
      if s[|s| - 1] in d0 then d0 else d0 + [s[|s| - 1]]
  }

  /** Exactly the elements of `s` are keys. */
  lemma {:induction false} DistinctMember(s: seq<string>, x: string)
    ensures x in Distinct(s) <==> x in s
  {
    if |s| > 0 {
      var s0 := s[..|s| - 1];
      assert s == s0 + [s[|s| - 1]];
      DistinctMember(s0, x);
    }
  }

  /** Appending one element extends the key list only when that element is new. */
  lemma {:induction false} DistinctSnoc(s: seq<string>, x: string)
    ensures Distinct(s + [x]) == if x in s then Distinct(s) else Distinct(s) + [x]
  {
    DistinctMember(s, x);
    assert (s + [x])[..|s|] == s;
  }

  /** The number of times `x` occurs in `s`. */
  function Occurrences(s: seq<string>, x: string): (n: nat)
    ensures n > 0 <==> x in s
    ensures n <= |s|
  {
    if |s| == 0 then 0
    else
      assert s == s[..|s| - 1] + [s[|s| - 1]];
      Occurrences(s[..|s| - 1], x) + (if s[|s| - 1] == x then 1 else 0)
  }

  lemma {:induction false} OccurrencesSnoc(s: seq<string>, y: string, x: string)
    ensures Occurrences(s + [y], x) == Occurrences(s, x) + (if y == x then 1 else 0)
  {
    assert (s + [y])[..|s|] == s;
  }

  predicate NoDuplicates(s: seq<string>)
  {
    forall i, j :: 0 <= i < j < |s| ==> s[i] != s[j]
  }

  lemma {:induction false} DistinctHasNoDuplicates(s: seq<string>)
    ensures NoDuplicates(Distinct(s))
  {
    if |s| > 0 {
      DistinctHasNoDuplicates(s[..|s| - 1]);
    }
  }

  /** The position of the first occurrence of `x` in `s`. */
  function FirstIndex(s: seq<string>, x: string): (i: nat)
    requires x in s
    ensures i < |s| && s[i] == x
    ensures forall j :: 0 <= j < i ==> s[j] != x
  {
    if s[0] == x then 0 else 1 + FirstIndex(s[1..], x)
  }

  /** An occurrence before which `x` does not occur is the first one. */
  lemma {:induction false} FirstIndexUnique(s: seq<string>, x: string, i: nat)
    requires i < |s| && s[i] == x
    requires forall j :: 0 <= j < i ==> s[j] != x
    ensures FirstIndex(s, x) == i
  {
    var k := FirstIndex(s, x);
    assert !(k < i) && !(i < k);
  }

  /** Extending a sequence does not move first occurrences already in it. */
  lemma {:induction false} FirstIndexOfPrefix(s: seq<string>, t: seq<string>, x: string)
    requires x in s
    ensures FirstIndex(s + t, x) == FirstIndex(s, x)
  {
    var k := FirstIndex(s, x);
    FirstIndexUnique(s + t, x, k);
  }

  /**
   * The keys are listed in order of first appearance: an earlier key was first
   * seen earlier.
   */
  lemma {:induction false} DistinctInFirstAppearanceOrder(s: seq<string>, i: nat, j: nat)
    requires i < j < |Distinct(s)|
    ensures FirstIndex(s, Distinct(s)[i]) < FirstIndex(s, Distinct(s)[j])
    decreases |s|
  {
    var n := |s|;
    var s0 := s[..n - 1];
    var last := s[n - 1];
    assert s == s0 + [last];
    var d0 := Distinct(s0);
    var d := Distinct(s);
    assert d[i] in s0 by {
      assert i < |d0|;
      assert d[i] == d0[i];
    }
    FirstIndexOfPrefix(s0, [last], d[i]);
    if j < |d0| {
      assert d[j] == d0[j];
      DistinctInFirstAppearanceOrder(s0, i, j);
      FirstIndexOfPrefix(s0, [last], d[j]);
    } else {
      DistinctMember(s0, last);
      assert d[j] == last && last !in s0;
      FirstIndexUnique(s, last, n - 1);
    }
  }

  /**
   * The lookup `obj[key]` on an object given as entries: the position of the
   * entry for `key`, or -1 when there is none.
   */
  function IndexOfKey<V>(entries: seq<(string, V)>, key: string): (r: int)
    ensures -1 <= r < |entries|
    ensures r == -1 <==> forall i :: 0 <= i < |entries| ==> entries[i].0 != key
    ensures r >= 0 ==> entries[r].0 == key
  {
    if |entries| == 0 then -1
    else if entries[|entries| - 1].0 == key then |entries| - 1
    else IndexOfKey(entries[..|entries| - 1], key)
  }
}
