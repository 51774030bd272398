/** `Array.prototype.filter` and counting over sequences. */
module Lists {

  function Filter<T>(s: seq<T>, p: T -> bool): (r: seq<T>)
    ensures |r| <= |s|
    ensures forall x :: x in r ==> x in s && p(x)
    ensures forall x :: x in s && p(x) ==> x in r
  {
    if s == [] then []
    else
      assert s == [s[0]] + s[1..];
      (if p(s[0]) then [s[0]] else []) + Filter(s[1..], p)
  }

  lemma FilterConcat<T>(a: seq<T>, b: seq<T>, p: T -> bool)
    ensures Filter(a + b, p) == Filter(a, p) + Filter(b, p)
  {
    if a == [] {
      assert a + b == b;
    } else {
      assert (a + b)[0] == a[0];
      assert (a + b)[1..] == a[1..] + b;
      FilterConcat(a[1..], b, p);
    }
  }

  lemma FilterNone<T>(s: seq<T>, p: T -> bool)
    requires forall x :: x in s ==> !p(x)
    ensures Filter(s, p) == []
  {
  }

  /** Filtering with a predicate that holds of every element gives the sequence back. */
  lemma FilterAll<T>(s: seq<T>, p: T -> bool)
    requires forall x :: x in s ==> p(x)
    ensures Filter(s, p) == s
  {
  }

  lemma ConcatAssoc<T>(a: seq<T>, b: seq<T>, c: seq<T>)
    ensures a + (b + c) == (a + b) + c
  {
  }

  lemma SnocAssoc<T>(a: seq<T>, b: seq<T>, c: T)
    ensures (a + b) + [c] == a + (b + [c])
  {
  }

  lemma PrefixSnoc<T>(s: seq<T>, k: nat)
    requires 0 < k <= |s|
    ensures s[..k] == s[..k - 1] + [s[k - 1]]
  {
  }

  lemma InLastSplit<T>(s: seq<T>, y: T)
    requires s != []
    ensures s == s[..|s| - 1] + [s[|s| - 1]]
    ensures y in s <==> y in s[..|s| - 1] || y == s[|s| - 1]
  {
    assert s == s[..|s| - 1] + [s[|s| - 1]];
  }

  lemma JoinGrows<T>(a: seq<T>, a': seq<T>, b: seq<T>, b': seq<T>, da: multiset<T>, db: multiset<T>)
    requires multiset(a') == multiset(a) + da && multiset(b') == multiset(b) + db
    ensures multiset(a' + b') == multiset(a + b) + da + db
  {
  }

  lemma UpdateCommute<T>(s: seq<T>, i: nat, j: nat, x: T, y: T)
    requires i < |s| && j < |s| && i != j
    ensures s[i := x][j := y] == s[j := y][i := x]
  {
  }
}
