/** The stable sort that the source takes from its standard library, as a function, with what callers rely on. */
module StableSort {
  import opened Sequences

  ghost predicate TotalPreorder<T(!new)>(leq: (T, T) -> bool) {
    && (forall x, y :: leq(x, y) || leq(y, x))
    && (forall x, y, z :: leq(x, y) && leq(y, z) ==> leq(x, z))
  }

  ghost predicate SortedBy<T>(s: seq<T>, leq: (T, T) -> bool) {
    forall i, j :: 0 <= i < j < |s| ==> leq(s[i], s[j])
  }

  /** Places `x` behind every element that may stay in front of it. */
  function Insert<T>(s: seq<T>, x: T, leq: (T, T) -> bool): (r: seq<T>)
    ensures |r| == |s| + 1
  {
    if s == [] then [x]
    else if leq(s[|s|-1], x) then s + [x]
    else Insert(s[..|s|-1], x, leq) + [s[|s|-1]]
  }

  function Sort<T>(s: seq<T>, leq: (T, T) -> bool): (r: seq<T>)
    ensures |r| == |s|
  {
    if s == [] then [] else Insert(Sort(s[..|s|-1], leq), s[|s|-1], leq)
  }

  lemma {:induction false} InsertKeepsElements<T>(s: seq<T>, x: T, leq: (T, T) -> bool)
    ensures multiset(Insert(s, x, leq)) == multiset(s) + multiset{x}
  {
    if s != [] && !leq(s[|s|-1], x) {
      InsertKeepsElements(s[..|s|-1], x, leq);
      assert s == s[..|s|-1] + [s[|s|-1]];
    }
  }

  lemma {:induction false} SortKeepsElements<T>(s: seq<T>, leq: (T, T) -> bool)
    ensures multiset(Sort(s, leq)) == multiset(s)
  {
    if s != [] {
      SortKeepsElements(s[..|s|-1], leq);
      InsertKeepsElements(Sort(s[..|s|-1], leq), s[|s|-1], leq);
      assert s == s[..|s|-1] + [s[|s|-1]];
    }
  }

  lemma {:induction false} InsertSorts<T(!new)>(s: seq<T>, x: T, leq: (T, T) -> bool)
    requires TotalPreorder(leq) && SortedBy(s, leq)
    ensures SortedBy(Insert(s, x, leq), leq)
  {
    if s != [] {
      var init, last := s[..|s|-1], s[|s|-1];
      if leq(last, x) {
        forall i | 0 <= i < |s| ensures leq(s[i], x) {
          if i < |s| - 1 { assert leq(s[i], last); }
        }
      } else {
        InsertSorts(init, x, leq);
        var r := Insert(init, x, leq);
        InsertKeepsElements(init, x, leq);
        forall i | 0 <= i < |r| ensures leq(r[i], last) {
          assert r[i] in multiset(r);
          if r[i] != x { assert r[i] in init; }
        }
      }
    }
  }

  lemma {:induction false} SortSorts<T(!new)>(s: seq<T>, leq: (T, T) -> bool)
    requires TotalPreorder(leq)
    ensures SortedBy(Sort(s, leq), leq)
  {
    if s != [] {
      SortSorts(s[..|s|-1], leq);
      InsertSorts(Sort(s[..|s|-1], leq), s[|s|-1], leq);
    }
  }

  lemma SortMembers<T>(s: seq<T>, leq: (T, T) -> bool)
    ensures forall x :: x in Sort(s, leq) <==> x in s
  {
    SortKeepsElements(s, leq);
    forall x ensures x in Sort(s, leq) <==> x in s {
      assert x in multiset(Sort(s, leq)) <==> x in multiset(s);
    }
  }

  /** Finds the last element of `s` in a permutation `t` and takes it out of both. */
  lemma TakeOut<T>(s: seq<T>, t: seq<T>) returns (a: seq<T>, b: seq<T>)
    requires multiset(s) == multiset(t) && s != []
    ensures t == a + [s[|s|-1]] + b && multiset(s[..|s|-1]) == multiset(a + b)
  {
    var n, x := |s| - 1, s[|s|-1];
    assert x in multiset(t);
    var i :| 0 <= i < |t| && t[i] == x;
    a, b := t[..i], t[i+1..];
    assert t == a + [x] + b;
    assert s == s[..n] + [x];
    DropOne(s[..n], x);
    WithoutMiddle(a, x, b);
  }

  lemma WithoutMiddle<T>(a: seq<T>, x: T, b: seq<T>)
    ensures multiset(a + [x] + b) - multiset{x} == multiset(a + b)
  {
    DropOne(a, x);
    assert multiset(a + [x] + b) == multiset(a + [x]) + multiset(b);
    assert multiset(a + b) == multiset(a) + multiset(b);
  }

  lemma DropOne<T>(s: seq<T>, x: T)
    ensures multiset(s + [x]) == multiset(s) + multiset{x} && multiset(s + [x]) - multiset{x} == multiset(s)
  {
  }

  lemma SortKeepsDistinct<T>(s: seq<T>, leq: (T, T) -> bool)
    requires Distinct(s)
    ensures Distinct(Sort(s, leq))
  {
    SortKeepsElements(s, leq);
    hide Sort;
    var t := Sort(s, leq);
    forall i, j | 0 <= i < j < |t| ensures t[i] != t[j] {
      if t[i] == t[j] {
        CountsTwice(t, i, j);
        CountsOnce(s, t[i]);
      }
    }
  }

  lemma CountsTwice<T>(t: seq<T>, i: nat, j: nat)
    requires i < j < |t| && t[i] == t[j]
    ensures multiset(t)[t[i]] >= 2
  {
    assert t == t[..j] + [t[j]] + t[j+1..];
    assert t[..j][i] in multiset(t[..j]);
  }

  lemma CountsOnce<T>(s: seq<T>, x: T)
    requires Distinct(s)
    ensures multiset(s)[x] <= 1
  {
    if x in s {
      var k :| 0 <= k < |s| && s[k] == x;
      assert s == s[..k] + [s[k]] + s[k+1..];
      assert x !in s[..k] && x !in s[k+1..];
      assert x !in multiset(s[..k]) && x !in multiset(s[k+1..]);
    }
  }

  /** No two elements of `s` are tied. */
  ghost predicate Untied<T>(s: seq<T>, leq: (T, T) -> bool) {
    forall x, y :: x in s && y in s && leq(x, y) && leq(y, x) ==> x == y
  }

  /** Elements that are not tied have one sorted list. */
  lemma {:induction false} SortedListIsUnique<T(!new)>(s: seq<T>, t: seq<T>, leq: (T, T) -> bool)
    requires TotalPreorder(leq) && Untied(s, leq)
    requires SortedBy(s, leq) && SortedBy(t, leq) && Distinct(s) && Distinct(t)
    requires forall x :: x in s <==> x in t
    ensures s == t
  {
    EmptyTogether(s, t);
    if s != [] {
      var m, n := |s| - 1, |t| - 1;
      assert s[m] in t && t[n] in t;
      LastIsGreatest(s, t[n], leq);
      LastIsGreatest(t, s[m], leq);
      assert s[m] == t[n];
      assert s == s[..m] + [s[m]] && t == t[..n] + [t[n]];
      WithoutLast(s);
      WithoutLast(t);
      forall x ensures x in s[..m] <==> x in t[..n] {
        assert x in s[..m] <==> x in s && x != s[m];
        assert x in t[..n] <==> x in t && x != t[n];
      }
      SortedListIsUnique(s[..m], t[..n], leq);
    }
  }

  lemma EmptyTogether<T>(s: seq<T>, t: seq<T>)
    requires forall x :: x in s <==> x in t
    ensures s == [] <==> t == []
  {
    assert (s != [] ==> s[0] in s) && (t != [] ==> t[0] in t);
  }

  lemma LastIsGreatest<T(!new)>(s: seq<T>, x: T, leq: (T, T) -> bool)
    requires TotalPreorder(leq) && SortedBy(s, leq) && x in s
    ensures leq(x, s[|s|-1])
  {
    var j :| 0 <= j < |s| && s[j] == x;
    assert j < |s| - 1 ==> leq(s[j], s[|s|-1]);
  }

  lemma WithoutLast<T>(s: seq<T>)
    requires Distinct(s) && s != []
    ensures forall x :: x in s[..|s|-1] <==> x in s && x != s[|s|-1]
  {
    forall x | x in s && x != s[|s|-1] ensures x in s[..|s|-1] {
      var j :| 0 <= j < |s| && s[j] == x;
      assert s[..|s|-1][j] == x;
    }
  }
}
