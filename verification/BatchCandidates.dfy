/** `batch_candidates` of `batch_calibration.py`: micro-batch sizes that keep the effective batch. */
module BatchCandidates {
  import opened Wrappers
  import opened NumberTheory
  import opened Collections

  datatype Failure = MaxCandidatesMustBePositive

  predicate IsDivisor(d: int, batch: int) { d > 0 && batch % d == 0 }

  function DivisorsOf(batch: nat): set<Size> { set d: Size | 1 <= d <= batch && IsDivisor(d, batch) }

  type Size = x: int | x > 0 witness 1

  /** How far apart two sizes are; |log2(a / b)| is its logarithm. */
  function Ratio(a: Size, b: Size): real {
    if a < b then b as real / a as real else a as real / b as real
  }

  /** The key (|log2(value / original)|, value) of `a` is smaller than that of `b`. */
  predicate Nearer(a: Size, b: Size, o: Size) {
    Ratio(a, o) < Ratio(b, o) || (Ratio(a, o) == Ratio(b, o) && a < b)
  }

  ghost predicate Ranked(s: seq<Size>, o: Size) {
    forall i, j :: 0 <= i < j < |s| ==> Nearer(s[i], s[j], o)
  }

  /** Everything left out ranks behind everything kept. */
  ghost predicate KeepsNearest(kept: set<Size>, all: set<Size>, o: Size) {
    forall a: Size, b: Size :: a in kept && b in all && b !in kept ==> Nearer(a, b, o)
  }

  // ---------------------------------------------------------------- divisors below the square root

  method SquareRoot(n: nat) returns (r: nat)
    ensures r * r <= n < (r + 1) * (r + 1)
  {
    r := 0;
    while (r + 1) * (r + 1) <= n
      invariant r * r <= n
      decreases n - r
    {
      r := r + 1;
      PositiveMultiple(r, r);
    }
  }

  /** One of a pair of co-divisors is at most the square root. */
  lemma CoDivisor(d: nat, batch: nat, root: nat)
    requires batch > 0 && IsDivisor(d, batch) && batch < (root + 1) * (root + 1)
    ensures d <= root || 1 <= batch / d <= root
    ensures batch / d >= 1 && IsDivisor(batch / d, batch) && batch / (batch / d) == d
  {
    var c := batch / d;
    assert batch == d * c;
    ModUnique(batch, d, 0, c);
    if d > root && c > root { ProductGrows(root + 1, root + 1, d, c); }
  }

  lemma DivisorAtMost(d: int, batch: nat)
    requires batch > 0 && IsDivisor(d, batch)
    ensures d <= batch
  {
    var c := batch / d;
    assert batch == d * c;
    PositiveMultiple(d, c);
  }

  method Divisors(batch: nat) returns (values: set<Size>)
    requires batch > 0
    ensures values == DivisorsOf(batch)
  {
    var root := SquareRoot(batch);
    values := {};
    for v := 1 to root + 1
      invariant forall d :: d in values ==> IsDivisor(d, batch)
      invariant forall d :: 1 <= d < v && IsDivisor(d, batch) ==> d in values && batch / d in values
    {
      if batch % v == 0 {
        CoDivisor(v, batch, root);
        values := values + {v, batch / v};
      }
    }
    forall d ensures d in values <==> d in DivisorsOf(batch) {
      if IsDivisor(d, batch) {
        DivisorAtMost(d, batch);
        CoDivisor(d, batch, root);
      }
    }
  }

  // ---------------------------------------------------------------- ranking

  lemma RatioAboveOne(a: Size, b: Size)
    requires a > b
    ensures a as real / b as real > 1.0
  {
    var q := a as real / b as real;
    assert q * b as real == a as real;
    assert q <= 1.0 ==> q * b as real <= b as real;
  }

  function Larger(a: Size, b: Size): Size { if a < b then b else a }

  function Lesser(a: Size, b: Size): Size { if a < b then a else b }

  lemma CrossMultiplied(p: Size, q: Size, r: Size, s: Size)
    ensures p as real / q as real < r as real / s as real <==> p * s < r * q
    ensures p as real / q as real == r as real / s as real <==> p * s == r * q
  {
    var x, y := p as real / q as real, r as real / s as real;
    assert x * q as real == p as real && y * s as real == r as real;
    var d := q as real * s as real;
    assert (p * s) as real == x * d && (r * q) as real == y * d;
    assert x < y ==> x * d < y * d;
    assert x > y ==> x * d > y * d;
  }

  /** Nearness in whole numbers: the larger over the lesser, multiplied out; ties go to the smaller. */
  lemma NearerExactly(a: Size, b: Size, o: Size)
    ensures var x, y := Larger(a, o) * Lesser(b, o), Larger(b, o) * Lesser(a, o);
            Nearer(a, b, o) <==> x < y || (x == y && a < b)
  {
    CrossMultiplied(Larger(a, o), Lesser(a, o), Larger(b, o), Lesser(b, o));
  }

  lemma OriginalIsNearest(b: Size, o: Size)
    requires b != o
    ensures Nearer(o, b, o)
  {
    if b < o { RatioAboveOne(o, b); } else { RatioAboveOne(b, o); }
    assert Ratio(o, o) == 1.0;
  }

  method Nearest(xs: set<Size>, o: Size) returns (m: Size)
    requires xs != {}
    ensures m in xs && forall x :: x in xs && x != m ==> Nearer(m, x, o)
  {
    m := Any(xs);
    var rest := xs - {m};
    while rest != {}
      invariant rest <= xs && m in xs
      invariant forall x :: x in xs && x !in rest && x != m ==> Nearer(m, x, o)
      decreases rest
    {
      var x := Any(rest);
      if Nearer(x, m, o) { m := x; }
      rest := rest - {x};
    }
  }

  method Rank(xs: set<Size>, o: Size) returns (s: seq<Size>)
    ensures |s| == |xs| && Ranked(s, o) && forall x :: x in s <==> x in xs
  {
    s := [];
    var rest := xs;
    while rest != {}
      invariant rest <= xs && |s| + |rest| == |xs|
      invariant forall x :: x in s <==> x in xs && x !in rest
      invariant Ranked(s, o)
      invariant forall i, y :: 0 <= i < |s| && y in rest ==> Nearer(s[i], y, o)
      decreases rest
    {
      var m := Nearest(rest, o);
      s := s + [m];
      rest := rest - {m};
    }
  }

  function Chosen(s: seq<Size>): set<Size> { set x | x in s }

  /** The head of a ranking keeps the nearest elements, the original among them. */
  lemma HeadOfRanking(s: seq<Size>, k: nat, o: Size)
    requires Ranked(s, o) && 0 < k <= |s| && o in s
    ensures o in s[..k] && KeepsNearest(Chosen(s[..k]), Chosen(s), o)
  {
    var first :| 0 <= first < |s| && s[first] == o;
    if s[0] != o { OriginalIsNearest(s[0], o); }
    forall a: Size, b: Size | a in s[..k] && b in s && b !in s[..k] ensures Nearer(a, b, o) {
      var i :| 0 <= i < k && s[i] == a;
      var j :| 0 <= j < |s| && s[j] == b;
    }
  }

  lemma {:induction false} HeadSize(s: seq<Size>, k: nat, o: Size)
    requires Ranked(s, o) && k <= |s|
    ensures |Chosen(s[..k])| == k
  {
    if k > 0 {
      HeadSize(s, k - 1, o);
      assert s[..k] == s[..k - 1] + [s[k - 1]];
      assert forall i :: 0 <= i < k - 1 ==> s[i] != s[k - 1];
      assert Chosen(s[..k]) == Chosen(s[..k - 1]) + {s[k - 1]};
    }
  }

  /** The sizes kept: nearest first, and always the original. */
  method Select(values: set<Size>, original: Size, most: nat) returns (selected: set<Size>)
    requires original in values && most > 0
    ensures selected <= values && original in selected && KeepsNearest(selected, values, original)
    ensures |selected| == if most < |values| then most else |values|
  {
    var ranked := Rank(values, original);
    var k := if most < |ranked| then most else |ranked|;
    selected := Chosen(ranked[..k]);
    assert values == Chosen(ranked);
    assert |ranked| > 0 by { assert original in ranked; }
    HeadOfRanking(ranked, k, original);
    HeadSize(ranked, k, original);
    assert selected + {original} == selected;
    selected := selected + {original};
  }

  ghost predicate Proposes(candidates: seq<int>, original: Size, all: set<Size>, most: nat) {
    && Ascending(candidates) && Elements(candidates) <= all && original in candidates
    && |candidates| == (if most < |all| then most else |all|)
    && KeepsNearest(Elements(candidates), all, original)
  }

  method BatchCandidates(micro: Size, accumulation: Size, maxCandidates: int)
    returns (r: Result<seq<int>, Failure>)
    ensures maxCandidates < 1 ==> r == Err(MaxCandidatesMustBePositive)
    ensures maxCandidates >= 1 ==>
              r.Ok? && Proposes(r.value, micro, DivisorsOf(micro * accumulation), maxCandidates)
  {
    if maxCandidates < 1 { return Err(MaxCandidatesMustBePositive); }
    var batch := micro * accumulation;
    PositiveMultiple(micro, accumulation);
    ModUnique(batch, accumulation, 0, micro);
    var values := Divisors(batch);
    var selected := Select(values, micro, maxCandidates);
    var s := Sorted(selected);
    r := Ok(s);
  }

  /** What is proposed is determined: one sequence only meets the description. */
  lemma ProposalIsUnique(s: seq<int>, t: seq<int>, o: Size, all: set<Size>, most: nat)
    requires Proposes(s, o, all, most) && Proposes(t, o, all, most)
    ensures s == t
  {
    AscendingSize(s);
    AscendingSize(t);
    var u, v := Elements(s), Elements(t);
    if b :| b in v && b !in u {
      forall a | a in u ensures a in v { }
      SubsetSize(u, v);
    } else {
      SubsetSize(v, u);
    }
    AscendingUnique(s, t);
  }

  lemma {:induction false} AscendingSize(s: seq<int>)
    requires Ascending(s)
    ensures |Elements(s)| == |s|
  {
    if s != [] {
      var k := |s| - 1;
      AscendingSize(s[..k]);
      assert Elements(s) == Elements(s[..k]) + {s[k]};
    }
  }

  lemma SubsetSize(u: set<int>, v: set<int>)
    requires u <= v && |u| == |v|
    ensures u == v
  {
    assert v == u + (v - u);
  }
}
