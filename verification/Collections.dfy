/** The ascending sequence of a finite set of integers, as Python's `sorted` returns it. */
module Collections {

  ghost predicate Ascending(s: seq<int>) {
    forall i, j :: 0 <= i < j < |s| ==> s[i] < s[j]
  }

  function Elements(s: seq<int>): set<int> { set x | x in s }

  method Any<T(0)>(xs: set<T>) returns (x: T)
    requires xs != {}
    ensures x in xs
  {
    x :| x in xs;
  }

  method Least(xs: set<int>) returns (m: int)
    requires xs != {}
    ensures m in xs && forall x :: x in xs ==> m <= x
  {
    m := Any(xs);
    var rest := xs - {m};
    while rest != {}
      invariant rest <= xs && m in xs && forall x :: x in xs && x !in rest ==> m <= x
      decreases rest
    {
      var x := Any(rest);
      if x < m { m := x; }
      rest := rest - {x};
    }
  }

  method Sorted(xs: set<int>) returns (s: seq<int>)
    ensures Ascending(s) && Elements(s) == xs && |s| == |xs|
  {
    s := [];
    var rest := xs;
    while rest != {}
      invariant rest <= xs && Ascending(s) && |s| + |rest| == |xs|
      invariant forall x :: x in s <==> x in xs && x !in rest
      invariant forall i, y :: 0 <= i < |s| && y in rest ==> s[i] < y
      decreases rest
    {
      var least := Least(rest);
      s := s + [least];
      rest := rest - {least};
    }
    assert forall x :: x in s <==> x in xs;
    assert forall x :: x in Elements(s) <==> x in xs;
  }

  lemma HeadIsElement(s: seq<int>)
    ensures s != [] ==> s[0] in Elements(s)
  {
  }

  /** An ascending sequence is determined by its elements. */
  lemma {:induction false} AscendingUnique(s: seq<int>, t: seq<int>)
    requires Ascending(s) && Ascending(t) && Elements(s) == Elements(t)
    ensures s == t
  {
    HeadIsElement(s);
    HeadIsElement(t);
    if s != [] {
      assert s[0] == t[0];
      assert Elements(s[1..]) == Elements(s) - {s[0]};
      assert Elements(t[1..]) == Elements(t) - {t[0]};
      AscendingUnique(s[1..], t[1..]);
    }
  }
}
