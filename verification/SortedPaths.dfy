/** Paths in the order ORDER BY path and sort.Slice by name give: by character, shorter first. */
module SortedPaths {

  predicate Less(a: string, b: string) {
    b != "" && (a == "" || a[0] < b[0] || (a[0] == b[0] && Less(a[1..], b[1..])))
  }

  lemma {:induction false} LessTrans(a: string, b: string, c: string)
    requires Less(a, b) && Less(b, c)
    ensures Less(a, c)
  {
    if a != "" && a[0] == b[0] && b[0] == c[0] { LessTrans(a[1..], b[1..], c[1..]); }
  }

  lemma {:induction false} LessTotal(a: string, b: string)
    ensures a != b ==> Less(a, b) || Less(b, a)
    ensures !(Less(a, b) && Less(b, a)) && !Less(a, a)
  {
    if a != "" && b != "" {
      LessTotal(a[1..], b[1..]);
      if a[0] == b[0] && a[1..] == b[1..] {
        assert a == [a[0]] + a[1..] && b == [b[0]] + b[1..];
      }
      LessTotal(a[1..], a[1..]);
    } else if a != "" {
      LessTotal(a[1..], a[1..]);
    }
  }

  predicate IsLeast(m: string, s: set<string>) {
    m in s && forall x :: x in s && x != m ==> Less(m, x)
  }

  lemma {:induction false} LeastExists(s: set<string>) returns (m: string)
    requires s != {}
    ensures IsLeast(m, s)
    decreases |s|
  {
    var x :| x in s;
    if s == {x} {
      m := x;
    } else {
      var rest := s - {x};
      m := LeastExists(rest);
      LessTotal(x, m);
      if Less(x, m) {
        forall y | y in s && y != x ensures Less(x, y) {
          if y != m { LessTrans(x, m, y); }
        }
        m := x;
      }
    }
  }

  lemma OneLeast(s: set<string>)
    requires s != {}
    ensures exists m :: IsLeast(m, s)
    ensures forall m, n :: IsLeast(m, s) && IsLeast(n, s) ==> m == n
  {
    var m := LeastExists(s);
    forall n | IsLeast(n, s) ensures n == m { LessTotal(m, n); }
  }

  predicate StrictlySorted(xs: seq<string>) {
    forall i, j :: 0 <= i < j < |xs| ==> Less(xs[i], xs[j])
  }

  /** The members of s in order, each once. */
  function Sorted(s: set<string>): (xs: seq<string>)
    ensures |xs| == |s|
    ensures forall x :: x in xs <==> x in s
    ensures StrictlySorted(xs)
    decreases |s|
  {
    if s == {} then []
    else
      OneLeast(s);
      var m :| IsLeast(m, s);
      [m] + Sorted(s - {m})
  }

  lemma TailMembers(xs: seq<string>)
    requires StrictlySorted(xs) && xs != []
    ensures forall x :: x in xs[1..] <==> x in xs && x != xs[0]
    ensures StrictlySorted(xs[1..])
  {
    LessTotal(xs[0], xs[0]);
    assert xs == [xs[0]] + xs[1..];
    forall x ensures x in xs[1..] <==> x in xs && x != xs[0] {
      if x in xs[1..] {
        var i :| 0 <= i < |xs| - 1 && xs[1..][i] == x;
        assert xs[i + 1] == x && Less(xs[0], xs[i + 1]);
      }
    }
  }

  /** There is only one such list. */
  lemma {:induction false} SortedUnique(xs: seq<string>, ys: seq<string>)
    requires StrictlySorted(xs) && StrictlySorted(ys)
    requires forall x :: x in xs <==> x in ys
    ensures xs == ys
    decreases |xs|
  {
    if xs == [] {
      assert forall i :: 0 <= i < |ys| ==> ys[i] in ys;
    } else {
      assert xs[0] in ys && (ys != [] ==> ys[0] in xs);
      LessTotal(xs[0], ys[0]);
      assert xs[0] == ys[0];
      TailMembers(xs);
      TailMembers(ys);
      SortedUnique(xs[1..], ys[1..]);
    }
  }
}
