/** Names in the order that ORDER BY name and sort.Strings share: byte by byte. */
module Names {
  predicate Le(a: string, b: string) {
    a == "" || (b != "" && (a[0] < b[0] || (a[0] == b[0] && Le(a[1..], b[1..]))))
  }

  /** The order is by the first character in which the names differ, and a name comes before its continuations. */
  lemma {:induction false} LeSays(p: string, c: char, d: char, a: string, b: string)
    requires c < d
    ensures Le(p + [c] + a, p + [d] + b) && !Le(p + [d] + b, p + [c] + a) && Le(p, p + a)
    decreases |p|
  {
    if p != "" {
      LeSays(p[1..], c, d, a, b);
      assert (p + [c] + a)[1..] == p[1..] + [c] + a && (p + [d] + b)[1..] == p[1..] + [d] + b
        && (p + a)[1..] == p[1..] + a;
    }
  }

  lemma {:induction false} LeTotal(a: string, b: string)
    ensures Le(a, b) || Le(b, a)
    ensures Le(a, b) && Le(b, a) ==> a == b
    decreases |a|
  {
    if a != "" && b != "" && a[0] == b[0] {
      LeTotal(a[1..], b[1..]);
      assert a == [a[0]] + a[1..] && b == [b[0]] + b[1..];
    }
  }

  lemma {:induction false} LeTransitive(a: string, b: string, c: string)
    requires Le(a, b) && Le(b, c)
    ensures Le(a, c)
    decreases |a|
  {
    if a != "" && a[0] == b[0] == c[0] {
      LeTransitive(a[1..], b[1..], c[1..]);
    }
  }

  predicate IsLeast(m: string, s: set<string>) {
    m in s && forall x :: x in s ==> Le(m, x)
  }

  lemma {:induction false} LeastExists(s: set<string>) returns (m: string)
    requires s != {}
    ensures IsLeast(m, s)
    decreases s
  {
    var x :| x in s;
    if s - {x} == {} {
      m := x;
      LeTotal(x, x);
      assert forall y :: y in s ==> y in s - {x} || y == x;
    } else {
      var y := LeastExists(s - {x});
      LeTotal(x, y);
      LeTotal(x, x);
      m := if Le(x, y) then x else y;
      forall z | z in s
        ensures Le(m, z)
      {
        if z != x {
          if m == x {
            LeTransitive(x, y, z);
          }
        }
      }
    }
  }

  lemma LeastUnique(m: string, n: string, s: set<string>)
    requires IsLeast(m, s) && IsLeast(n, s)
    ensures m == n
  {
    LeTotal(m, n);
  }

  lemma HasLeast(s: set<string>)
    requires s != {}
    ensures exists m :: IsLeast(m, s)
    ensures forall m, n :: IsLeast(m, s) && IsLeast(n, s) ==> m == n
  {
    var x := LeastExists(s);
    forall m, n | IsLeast(m, s) && IsLeast(n, s)
      ensures m == n
    {
      LeastUnique(m, n, s);
    }
  }

  function Least(s: set<string>): (m: string)
    requires s != {}
    ensures IsLeast(m, s)
  {
    HasLeast(s);
    var m :| m in s && IsLeast(m, s);
    m
  }

  /** The names of s, each once, in order. */
  function Ordered(s: set<string>): seq<string> {
    if s == {} then [] else [Least(s)] + Ordered(s - {Least(s)})
  }

  ghost predicate Ascending(xs: seq<string>) {
    forall i, j :: 0 <= i < j < |xs| ==> Le(xs[i], xs[j]) && xs[i] != xs[j]
  }

  lemma {:induction false} OrderedIs(s: set<string>)
    ensures Ascending(Ordered(s))
    ensures forall x :: x in Ordered(s) <==> x in s
    ensures |Ordered(s)| == |s|
    decreases s
  {
    if s != {} {
      OrderedIs(s - {Least(s)});
      assert forall x :: x in s <==> x == Least(s) || x in s - {Least(s)};
    }
  }

  /** There is one ascending list of a set of names. */
  lemma {:induction false} OrderedUnique(xs: seq<string>, s: set<string>)
    requires Ascending(xs) && forall x :: x in xs <==> x in s
    ensures xs == Ordered(s)
    decreases |xs|
  {
    if xs == [] {
      assert s == {};
    } else {
      var m, rest := xs[0], xs[1..];
      forall x | x in s
        ensures Le(m, x)
      {
        var i :| 0 <= i < |xs| && xs[i] == x;
        LeTotal(m, m);
      }
      assert m in s;
      LeastUnique(m, Least(s), s);
      forall x
        ensures x in rest <==> x in s - {m}
      {
        if x in s && x != m {
          var i :| 0 <= i < |xs| && xs[i] == x;
          assert rest[i - 1] == x;
        }
      }
      OrderedUnique(rest, s - {m});
    }
  }
}
