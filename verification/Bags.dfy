/** Bags of things spread over a sequence: the tasks in the hands of the workers,
    the waiters armed in the fd table, and so on. */
module Bags {

  /** The sum of the bags f(s[0]), f(s[1]), ... */
  function Gather<A, B>(s: seq<A>, f: A -> multiset<B>): multiset<B> {
    if s == [] then multiset{} else f(s[0]) + Gather(s[1..], f)
  }

  lemma {:induction false} GatherConcat<A, B>(s: seq<A>, t: seq<A>, f: A -> multiset<B>)
    ensures Gather(s + t, f) == Gather(s, f) + Gather(t, f)
  {
    if s == [] {
      assert s + t == t;
    } else {
      GatherConcat(s[1..], t, f);
      assert (s + t)[1..] == s[1..] + t;
    }
  }

  lemma GatherAppend<A, B>(s: seq<A>, x: A, f: A -> multiset<B>)
    ensures Gather(s + [x], f) == Gather(s, f) + f(x)
  {
    GatherConcat(s, [x], f);
  }

  /** Taking out position i takes out exactly its share. */
  lemma GatherSplit<A, B>(s: seq<A>, i: nat, f: A -> multiset<B>)
    requires i < |s|
    ensures Gather(s, f) == Gather(s[..i] + s[i + 1..], f) + f(s[i])
  {
    assert s == s[..i] + [s[i]] + s[i + 1..];
    GatherConcat(s[..i] + [s[i]], s[i + 1..], f);
    GatherConcat(s[..i], [s[i]], f);
    GatherConcat(s[..i], s[i + 1..], f);
  }

  lemma GatherUpdate<A, B>(s: seq<A>, i: nat, x: A, f: A -> multiset<B>)
    requires i < |s|
    ensures Gather(s[i := x], f) + f(s[i]) == Gather(s, f) + f(x)
  {
    GatherSplit(s, i, f);
    GatherSplit(s[i := x], i, f);
    assert s[i := x][..i] + s[i := x][i + 1..] == s[..i] + s[i + 1..];
  }

  /** GatherUpdate for one element. */
  lemma CountUpdate<A, B>(s: seq<A>, i: nat, x: A, f: A -> multiset<B>, b: B)
    requires i < |s|
    ensures Gather(s[i := x], f)[b] + f(s[i])[b] == Gather(s, f)[b] + f(x)[b]
  {
    GatherUpdate(s, i, x, f);
    var l, r := Gather(s[i := x], f) + f(s[i]), Gather(s, f) + f(x);
    assert l[b] == r[b];
  }

  lemma CountSplit<A, B>(s: seq<A>, i: nat, f: A -> multiset<B>, b: B)
    requires i < |s|
    ensures Gather(s, f)[b] == Gather(s[..i] + s[i + 1..], f)[b] + f(s[i])[b]
  {
    GatherSplit(s, i, f);
  }

  lemma GatherMember<A, B>(s: seq<A>, i: nat, f: A -> multiset<B>)
    requires i < |s|
    ensures f(s[i]) <= Gather(s, f)
  {
    GatherSplit(s, i, f);
  }

  lemma {:induction false} GatherEmpty<A, B>(s: seq<A>, f: A -> multiset<B>)
    ensures Gather(s, f) == multiset{} <==> forall i :: 0 <= i < |s| ==> f(s[i]) == multiset{}
  {
    if s != [] {
      GatherEmpty(s[1..], f);
      assert forall i :: 0 < i < |s| ==> s[i] == s[1..][i - 1];
      if Gather(s, f) == multiset{} {
        forall b ensures f(s[0])[b] == 0 && Gather(s[1..], f)[b] == 0 {
          assert Gather(s, f)[b] == f(s[0])[b] + Gather(s[1..], f)[b];
        }
      }
    }
  }

  lemma {:induction false} GatherWhere<A, B>(s: seq<A>, f: A -> multiset<B>, b: B) returns (i: nat)
    requires b in Gather(s, f)
    ensures i < |s| && b in f(s[i])
  {
    if b in f(s[0]) {
      i := 0;
    } else {
      var k := GatherWhere(s[1..], f, b);
      i := k + 1;
    }
  }

  function One(b: bool): nat {
    if b then 1 else 0
  }

  lemma SumSize<B>(a: multiset<B>, b: multiset<B>, c: multiset<B>, d: multiset<B>)
    requires a + b == c + d
    ensures |a| + |b| == |c| + |d|
  {
    assert |a + b| == |a| + |b| && |c + d| == |c| + |d|;
  }

  lemma CancelSum<B>(a: multiset<B>, b: multiset<B>, c: multiset<B>)
    requires a + c == b + c
    ensures a == b
  {
    assert a == (a + c) - c && b == (b + c) - c;
  }

  /** Replacing position i by something with more in it, or with less. */
  lemma GatherGains<A, B>(s: seq<A>, i: nat, x: A, f: A -> multiset<B>, more: multiset<B>)
    requires i < |s| && f(x) == f(s[i]) + more
    ensures Gather(s[i := x], f) == Gather(s, f) + more
  {
    GatherUpdate(s, i, x, f);
    CancelSum(Gather(s[i := x], f), Gather(s, f) + more, f(s[i]));
  }

  lemma GatherLoses<A, B>(s: seq<A>, i: nat, x: A, f: A -> multiset<B>, less: multiset<B>)
    requires i < |s| && f(s[i]) == f(x) + less
    ensures Gather(s, f) == Gather(s[i := x], f) + less
  {
    GatherUpdate(s, i, x, f);
    CancelSum(Gather(s[i := x], f) + less, Gather(s, f), f(x));
  }

  /** The sum of the numbers g(s[0]), g(s[1]), ... */
  function Sum<A>(s: seq<A>, g: A -> nat): nat {
    if s == [] then 0 else g(s[0]) + Sum(s[1..], g)
  }

  lemma {:induction false} SumConcat<A>(s: seq<A>, t: seq<A>, g: A -> nat)
    ensures Sum(s + t, g) == Sum(s, g) + Sum(t, g)
  {
    if s == [] {
      assert s + t == t;
    } else {
      SumConcat(s[1..], t, g);
      assert (s + t)[1..] == s[1..] + t;
    }
  }

  lemma SumSplit<A>(s: seq<A>, i: nat, g: A -> nat)
    requires i < |s|
    ensures Sum(s, g) == Sum(s[..i] + s[i + 1..], g) + g(s[i])
  {
    assert s == s[..i] + [s[i]] + s[i + 1..];
    SumConcat(s[..i] + [s[i]], s[i + 1..], g);
    SumConcat(s[..i], [s[i]], g);
    SumConcat(s[..i], s[i + 1..], g);
  }

  lemma SumUpdate<A>(s: seq<A>, i: nat, x: A, g: A -> nat)
    requires i < |s|
    ensures Sum(s[i := x], g) + g(s[i]) == Sum(s, g) + g(x)
  {
    SumSplit(s, i, g);
    SumSplit(s[i := x], i, g);
    assert s[i := x][..i] + s[i := x][i + 1..] == s[..i] + s[i + 1..];
  }
}
