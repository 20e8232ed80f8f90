/** Facts about sequences and about sums over finite maps that several models share. */
module Collections {

  datatype Option<+T> = None | Some(value: T)

  function Last<T>(s: seq<T>): T
    requires s != []
  {
    s[|s| - 1]
  }

  function Front<T>(s: seq<T>): seq<T>
    requires s != []
  {
    s[..|s| - 1]
  }

  lemma Assoc<T>(a: seq<T>, b: seq<T>, c: seq<T>)
    ensures (a + b) + c == a + (b + c)
  {
  }

  /** A sequence, taken apart. */
  lemma Cons<T>(s: seq<T>)
    requires s != []
    ensures s == [s[0]] + s[1..]
  {
  }

  lemma Snoc<T>(s: seq<T>)
    requires s != []
    ensures s == Front(s) + [Last(s)]
  {
  }

  lemma ConsConcat<T>(a: seq<T>, b: seq<T>)
    requires a != []
    ensures a + b != [] && (a + b)[0] == a[0] && (a + b)[1..] == a[1..] + b
  {
  }

  lemma EmptyConcat<T>(a: seq<T>)
    ensures [] + a == a && a + [] == a
  {
  }

  function Reverse<T>(s: seq<T>): seq<T> {
    if s == [] then [] else Reverse(s[1..]) + [s[0]]
  }

  lemma {:induction false} ReverseIsPermutation<T>(s: seq<T>)
    ensures |Reverse(s)| == |s|
    ensures multiset(Reverse(s)) == multiset(s)
  {
    if s != [] {
      assert s == [s[0]] + s[1..];
      ReverseIsPermutation(s[1..]);
    }
  }

  lemma {:induction false} ReverseConcat<T>(a: seq<T>, b: seq<T>)
    ensures Reverse(a + b) == Reverse(b) + Reverse(a)
  {
    if a == [] {
      assert a + b == b;
    } else {
      assert (a + b)[1..] == a[1..] + b;
      ReverseConcat(a[1..], b);
    }
  }

  lemma ReverseSuffix<T>(s: seq<T>, n: nat)
    requires n < |s|
    ensures Reverse(s[n..]) == Reverse(s[n + 1..]) + [s[n]]
  {
    assert s[n..][1..] == s[n + 1..];
  }

  lemma ReverseOne<T>(a: seq<T>)
    requires |a| <= 1
    ensures Reverse(a) == a
  {
    if a != [] {
      assert Reverse(a[1..]) == [];
    }
  }

  lemma ReverseTwice<T>(a: seq<T>)
    ensures Reverse(Reverse(a)) == a
  {
    if a != [] {
      ReverseConcat(Reverse(a[1..]), [a[0]]);
      ReverseTwice(a[1..]);
    }
  }

  lemma {:induction false} ReverseAt<T>(a: seq<T>, i: nat)
    requires i < |a|
    ensures |Reverse(a)| == |a| && Reverse(a)[i] == a[|a| - 1 - i]
  {
    ReverseIsPermutation(a);
    if i < |a| - 1 {
      ReverseIsPermutation(a[1..]);
      ReverseAt(a[1..], i);
    } else {
      ReverseIsPermutation(a[1..]);
    }
  }

  /** The contents of all queues of a map, as one multiset. */
  ghost function Total<K, T>(m: map<K, seq<T>>): multiset<T>
    decreases m.Keys
  {
    if m.Keys == {} then
      multiset{}
    else
      var k :| k in m;
      multiset(m[k]) + Total(m - {k})
  }

  /** Any key may be taken out first. */
  lemma {:induction false} TotalExtract<K, T>(m: map<K, seq<T>>, k: K)
    requires k in m
    ensures Total(m) == multiset(m[k]) + Total(m - {k})
    decreases m.Keys
  {
    var j :| j in m && Total(m) == multiset(m[j]) + Total(m - {j});
    if j != k {
      TotalExtract(m - {j}, k);
      TotalExtract(m - {k}, j);
      assert m - {j} - {k} == m - {k} - {j};
    }
  }

  lemma TotalUpdate<K, T>(m: map<K, seq<T>>, k: K, q: seq<T>)
    ensures Total(m[k := q]) == multiset(q) + Total(m - {k})
  {
    TotalExtract(m[k := q], k);
    assert m[k := q] - {k} == m - {k};
  }

  /** The sum of all values of a map. */
  ghost function Sum<K>(m: map<K, nat>): nat
    decreases m.Keys
  {
    if m.Keys == {} then
      0
    else
      var k :| k in m;
      m[k] + Sum(m - {k})
  }

  lemma {:induction false} SumExtract<K>(m: map<K, nat>, k: K)
    requires k in m
    ensures Sum(m) == m[k] + Sum(m - {k})
    decreases m.Keys
  {
    var j :| j in m && Sum(m) == m[j] + Sum(m - {j});
    if j != k {
      SumExtract(m - {j}, k);
      SumExtract(m - {k}, j);
      assert m - {j} - {k} == m - {k} - {j};
    }
  }

  lemma SumChange<K>(m: map<K, nat>, m': map<K, nat>, k: K)
    requires k in m && m'.Keys == m.Keys
    requires forall j :: j in m && j != k ==> m'[j] == m[j]
    ensures Sum(m') + m[k] == Sum(m) + m'[k]
  {
    SumExtract(m, k);
    SumExtract(m', k);
    assert m - {k} == m' - {k};
  }

  lemma {:induction false} TotalOfEmpty<K, T>(m: map<K, seq<T>>)
    requires forall k :: k in m ==> m[k] == []
    ensures Total(m) == multiset{}
    decreases m.Keys
  {
    if m.Keys != {} {
      var k :| k in m;
      TotalExtract(m, k);
      TotalOfEmpty(m - {k});
    }
  }

  lemma {:induction false} SumOfConstant<K>(m: map<K, nat>, n: nat)
    requires forall k :: k in m ==> m[k] == n
    ensures Sum(m) == n * |m|
    decreases m.Keys
  {
    if m.Keys == {} {
      assert |m| == |m.Keys|;
    } else {
      var k :| k in m;
      SumExtract(m, k);
      SumOfConstant(m - {k}, n);
      assert (m - {k}).Keys == m.Keys - {k};
      assert |m| == |m.Keys| && |m - {k}| == |(m - {k}).Keys|;
      assert |m| == |m - {k}| + 1;
    }
  }

  /** A new array of the given size that holds the first `count` elements. */
  method Relocate<T>(from: array<T>, count: nat, size: nat, filler: T) returns (to: array<T>)
    requires count <= from.Length && count <= size
    ensures fresh(to) && to.Length == size && to[..count] == from[..count]
  {
    to := new T[size](_ => filler);
    for i := 0 to count
      invariant to[..i] == from[..i]
    {
      to[i] := from[i];
    }
  }
}
