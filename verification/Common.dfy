/** Types and counting lemmas shared by the models. */
module Common {

  datatype Option<+T> = None | Some(value: T)

  datatype Result<+T, +E> = Ok(value: T) | Err(error: E)

  type ReportId = nat

  type BuildingId = nat

  /** Sum of a weight over a sequence. */
  function Total<T>(s: seq<T>, w: T -> nat): nat {
    if s == [] then 0 else w(s[0]) + Total(s[1..], w)
  }

  lemma {:induction false} TotalConcat<T>(a: seq<T>, b: seq<T>, w: T -> nat)
    ensures Total(a + b, w) == Total(a, w) + Total(b, w)
  {
    if a == [] {
      assert a + b == b;
    } else {
      assert (a + b)[1..] == a[1..] + b;
      TotalConcat(a[1..], b, w);
    }
  }

  lemma TotalSmall<T>(a: T, b: T, w: T -> nat)
    ensures Total([a], w) == w(a)
    ensures Total([a, b], w) == w(a) + w(b)
  {
    TotalConcat([a], [b], w);
    assert [a] + [b] == [a, b];
  }

  lemma {:induction false} TotalUpdate<T>(s: seq<T>, i: nat, x: T, w: T -> nat)
    requires i < |s|
    ensures Total(s[i := x], w) + w(s[i]) == Total(s, w) + w(x)
    ensures w(s[i]) <= Total(s, w)
  {
    if i == 0 {
      assert s[i := x][1..] == s[1..];
    } else {
      assert s[i := x][1..] == s[1..][i - 1 := x];
      TotalUpdate(s[1..], i - 1, x, w);
    }
  }

  lemma {:induction false} TotalZero<T>(s: seq<T>, w: T -> nat)
    ensures Total(s, w) == 0 <==> forall i :: 0 <= i < |s| ==> w(s[i]) == 0
  {
    if s != [] {
      TotalZero(s[1..], w);
      if Total(s, w) == 0 {
        forall i | 0 <= i < |s|
          ensures w(s[i]) == 0
        {
          assert i > 0 ==> s[i] == s[1..][i - 1];
        }
      } else if w(s[0]) == 0 {
        var i :| 0 <= i < |s[1..]| && w(s[1..][i]) != 0;
        assert s[i + 1] == s[1..][i];
      }
    }
  }

  lemma Element<T>(s: set<T>) returns (x: T)
    requires s != {}
    ensures x in s
  {
    x :| x in s;
  }

  lemma {:induction false} HasGreatest(s: set<int>) returns (m: int)
    requires s != {}
    ensures m in s && forall t :: t in s ==> t <= m
    decreases s
  {
    m := Element(s);
    var first, rest := m, s - {m};
    if rest != {} {
      var other := HasGreatest(rest);
      m := if other <= first then first else other;
    }
    forall t | t in s
      ensures t <= m
    {
      assert t in rest || t == first;
    }
  }

  /** The greatest element of a finite set. */
  function Greatest(s: set<int>): (m: int)
    requires s != {}
    ensures m in s && forall t :: t in s ==> t <= m
  {
    assert exists m :: m in s && forall t :: t in s ==> t <= m by {
      var m := HasGreatest(s);
    }
    var m :| m in s && forall t :: t in s ==> t <= m;
    m
  }
}
