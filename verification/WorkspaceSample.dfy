/** `_sample_tree_once` of `operational_monitor.py`: entries and bytes of a workspace tree. */
module WorkspaceSample {
  import opened Wrappers
  import opened Basics
  import opened Collections

  type Path = seq<string>
  datatype Kind = DirectoryKind | RegularKind | OtherKind
  datatype Info = Info(kind: Kind, device: nat, inode: nat, links: nat, size: nat)
  type Tree = map<Path, Info>

  datatype Failure = NotADirectory | DeadlineExhausted

  // What one charge is for: a file by itself, or an inode with several names.
  datatype Charge = Alone(path: Path) | Shared(device: nat, inode: nat)

  /** The names of one regular inode agree on its size. */
  ghost predicate Consistent(t: Tree) {
    forall p, q :: p in t && q in t && ChargeOf(t, p) == ChargeOf(t, q) ==> t[p].size == t[q].size
  }

  // ---------------------------------------------------------------- what should be counted

  function Parent(p: Path): Path
    requires p != []
  {
    p[..|p| - 1]
  }

  function Children(t: Tree, p: Path): set<Path> { set q | q in t && q != [] && Parent(q) == p }

  predicate Foreign(t: Tree, root: Path, p: Path)
    requires root in t && p in t
  {
    t[p].kind == DirectoryKind && t[p].device != t[root].device
  }

  /** Listed when the walk enters no directory of another device. */
  predicate Listed(t: Tree, root: Path, p: Path)
    requires root in t
    decreases |p|
  {
    && p in t
    && (p == root
        || (|p| > |root| && Listed(t, root, Parent(p)) && t[Parent(p)].kind == DirectoryKind
            && !Foreign(t, root, Parent(p))))
  }

  function Visits(t: Tree, root: Path): set<Path>
    requires root in t
  {
    set p | p in t && Listed(t, root, p)
  }

  function Counted(t: Tree, root: Path): set<Path>
    requires root in t
  {
    set p | p in Visits(t, root) && !Foreign(t, root, p)
  }

  function ChargeOf(t: Tree, p: Path): Charge
    requires p in t
  {
    if t[p].kind == RegularKind && t[p].links > 1 then Shared(t[p].device, t[p].inode) else Alone(p)
  }

  /** One charge for each file that is not a directory, names of one inode together. */
  function Charges(t: Tree, paths: set<Path>): set<Charge> {
    set p | p in paths && p in t && t[p].kind != DirectoryKind :: ChargeOf(t, p)
  }

  ghost predicate Chargeable(t: Tree, charges: set<Charge>) {
    forall c :: c in charges ==> exists p :: p in t && ChargeOf(t, p) == c
  }

  ghost function Size(t: Tree, c: Charge): nat
    requires exists p :: p in t && ChargeOf(t, p) == c
  {
    var p :| p in t && ChargeOf(t, p) == c;
    t[p].size
  }

  ghost function Total(t: Tree, charges: set<Charge>): nat
    requires Chargeable(t, charges)
    decreases |charges|
  {
    if charges == {} then 0
    else
      var c :| c in charges;
      Size(t, c) + Total(t, charges - {c})
  }

  lemma {:induction false} TotalAdds(t: Tree, charges: set<Charge>, c: Charge)
    requires Chargeable(t, charges) && c in charges
    ensures Total(t, charges) == Size(t, c) + Total(t, charges - {c})
    decreases |charges|
  {
    var d :| d in charges && Total(t, charges) == Size(t, d) + Total(t, charges - {d});
    if d != c {
      TotalAdds(t, charges - {d}, c);
      TotalAdds(t, charges - {c}, d);
      assert charges - {d} - {c} == charges - {c} - {d};
    }
  }

  // ---------------------------------------------------------------- where the walk stands

  /** Below a directory that has been visited, everything is visited or waits; and nothing else. */
  ghost predicate Frontier(t: Tree, root: Path, visited: set<Path>, stack: seq<Path>)
    requires root in t
  {
    && Distinct(stack)
    && (forall p :: p in stack ==> p !in visited && Arrived(t, root, visited, p))
    && (forall p :: p in visited ==> Arrived(t, root, visited, p))
    && (root in visited || root in stack)
    && (forall p, q :: p in visited && p in t && Opens(t, root, p) && q in Children(t, p) ==>
          q in visited || q in stack)
  }

  predicate Opens(t: Tree, root: Path, p: Path)
    requires root in t && p in t
  {
    t[p].kind == DirectoryKind && !Foreign(t, root, p)
  }

  ghost predicate Arrived(t: Tree, root: Path, visited: set<Path>, p: Path)
    requires root in t
  {
    p in t && Listed(t, root, p) && (p == root || (|p| > |root| && Parent(p) in visited))
  }

  lemma {:induction false} ListedIsVisited(t: Tree, root: Path, visited: set<Path>, p: Path)
    requires root in t && Frontier(t, root, visited, []) && Listed(t, root, p)
    ensures p in visited
    decreases |p|
  {
    if p != root {
      ListedIsVisited(t, root, visited, Parent(p));
      assert Opens(t, root, Parent(p)) && p in Children(t, Parent(p));
    }
  }

  lemma Popped(t: Tree, root: Path, visited: set<Path>, stack: seq<Path>, p: Path, below: seq<Path>)
    requires root in t && Frontier(t, root, visited, stack + [p]) && p in t
    requires Distinct(below)
    requires forall q :: q in below <==> Opens(t, root, p) && q in Children(t, p)
    ensures Frontier(t, root, visited + {p}, stack + below)
  {
    var before, after := stack + [p], stack + below;
    assert before[|stack|] == p;
    assert forall q :: q in before <==> q in stack || q == p;
    forall q | q in below ensures q !in visited + {p} && q !in stack && Arrived(t, root, visited + {p}, q) {
      assert Parent(q) == p && p !in visited;
    }
    assert forall q :: q in after <==> q in stack || q in below;
    DistinctAppend(stack, p, below);
  }

  lemma DistinctAppend(stack: seq<Path>, p: Path, below: seq<Path>)
    requires Distinct(stack + [p]) && Distinct(below) && forall q :: q in below ==> q !in stack
    ensures Distinct(stack + below) && p !in stack
  {
    var s, u := stack + [p], stack + below;
    assert s[|stack|] == p;
    assert forall i :: 0 <= i < |stack| ==> s[i] == stack[i];
    forall i, j | 0 <= i < j < |u| ensures u[i] != u[j] {
      if i < |stack| <= j { assert u[i] in stack && u[j] in below; }
      if |stack| <= i { assert u[i] == below[i - |stack|] && u[j] == below[j - |stack|]; }
      if j < |stack| { assert u[i] == s[i] && u[j] == s[j]; }
    }
  }

  // ---------------------------------------------------------------- what it has added up

  ghost function Accepted(t: Tree, root: Path, visited: set<Path>): set<Path>
    requires root in t
  {
    set p | p in visited && p in t && !Foreign(t, root, p)
  }

  ghost predicate SeenAre(t: Tree, counted: set<Path>, seen: set<(nat, nat)>) {
    forall d: nat, i: nat :: (d, i) in seen <==> Shared(d, i) in Charges(t, counted)
  }

  ghost predicate Tally(t: Tree, counted: set<Path>, seen: set<(nat, nat)>, bytes: nat, entries: nat) {
    assert Chargeable(t, Charges(t, counted));
    && entries == |counted| && SeenAre(t, counted, seen)
    && bytes == Total(t, Charges(t, counted))
  }

  lemma DirectoryAdds(t: Tree, counted: set<Path>, seen: set<(nat, nat)>, bytes: nat, entries: nat, p: Path)
    requires Tally(t, counted, seen, bytes, entries) && p in t && p !in counted
    requires t[p].kind == DirectoryKind
    ensures Tally(t, counted + {p}, seen, bytes, entries + 1)
  {
    assert Charges(t, counted + {p}) == Charges(t, counted);
  }

  lemma ChargeAdds(t: Tree, counted: set<Path>, seen: set<(nat, nat)>, bytes: nat, entries: nat, p: Path)
    requires Consistent(t) && Tally(t, counted, seen, bytes, entries) && p in t && p !in counted
    requires t[p].kind != DirectoryKind && ChargeOf(t, p) !in Charges(t, counted)
    ensures Tally(t, counted + {p},
                  if ChargeOf(t, p).Shared? then seen + {(t[p].device, t[p].inode)} else seen,
                  bytes + t[p].size, entries + 1)
  {
    var c := ChargeOf(t, p);
    var charges := Charges(t, counted + {p});
    assert charges == Charges(t, counted) + {c};
    assert charges - {c} == Charges(t, counted);
    assert Chargeable(t, Charges(t, counted + {p}));
    TotalAdds(t, charges, c);
  }

  lemma NoChargeAdds(t: Tree, counted: set<Path>, seen: set<(nat, nat)>, bytes: nat, entries: nat, p: Path)
    requires Tally(t, counted, seen, bytes, entries) && p in t && p !in counted
    requires t[p].kind != DirectoryKind && ChargeOf(t, p) in Charges(t, counted)
    ensures Tally(t, counted + {p}, seen, bytes, entries + 1)
  {
    assert Charges(t, counted + {p}) == Charges(t, counted);
  }

  // ---------------------------------------------------------------- the walk

  /** A directory's entries, in whatever order the file system lists them. */
  method Listing(t: Tree, p: Path) returns (listing: seq<Path>)
    ensures Distinct(listing) && forall q :: q in listing <==> q in Children(t, p)
  {
    var rest := Children(t, p);
    listing := [];
    while rest != {}
      invariant rest <= Children(t, p) && Distinct(listing)
      invariant forall q :: q in listing <==> q in Children(t, p) && q !in rest
      decreases rest
    {
      var q := Any(rest);
      listing := listing + [q];
      rest := rest - {q};
    }
  }

  /** Adds one entry, and its bytes unless its inode has been charged already. */
  method Account(t: Tree, ghost counted: set<Path>, path: Path, bytes: nat, entries: nat,
                 seen: set<(nat, nat)>)
    returns (newBytes: nat, newEntries: nat, newSeen: set<(nat, nat)>)
    requires Consistent(t) && Tally(t, counted, seen, bytes, entries)
    requires path in t && path !in counted
    ensures Tally(t, counted + {path}, newSeen, newBytes, newEntries)
  {
    newBytes, newEntries, newSeen := bytes, entries + 1, seen;
    var info := t[path];
    var identity := (info.device, info.inode);
    if info.kind != DirectoryKind
       && (info.kind != RegularKind || info.links <= 1 || identity !in seen) {
      newBytes := bytes + info.size;
    }
    if info.kind == RegularKind && info.links > 1 {
      newSeen := seen + {identity};
    }
    Counts(t, counted, seen, bytes, entries, path);
  }

  /** The deadline has passed at one of the first `n` readings of the clock. */
  ghost predicate Overdue(late: nat -> bool, n: nat) { exists i: nat :: i < n && late(i) }

  /** While something waits, one reading more is one of those that the walk takes. */
  lemma OneReading(late: nat -> bool, t: Tree, root: Path, visited: set<Path>, stack: seq<Path>)
    requires root in t && stack != [] && Frontier(t, root, visited, stack)
    requires !Overdue(late, |visited|)
    ensures if late(|visited|) then Overdue(late, |Visits(t, root)|) else !Overdue(late, |visited| + 1)
  {
    var p := stack[0];
    assert |Visits(t, root)| == |visited| + |Visits(t, root) - visited|;
    assert p in stack && p in Visits(t, root) - visited;
  }

  /** When the stack is empty everything listed is accepted. */
  lemma AllCounted(t: Tree, root: Path, visited: set<Path>)
    requires root in t && Frontier(t, root, visited, [])
    ensures visited == Visits(t, root) && Accepted(t, root, visited) == Counted(t, root)
  {
    forall p | p in t && Listed(t, root, p) ensures p in visited {
      ListedIsVisited(t, root, visited, p);
    }
  }

  /** One path taken off the stack: accounted for and opened, unless it is foreign. */
  method Visit(t: Tree, root: Path, device: nat, rest: seq<Path>, path: Path,
               ghost visited: set<Path>, bytes: nat, entries: nat, seen: set<(nat, nat)>)
    returns (stack: seq<Path>, newBytes: nat, newEntries: nat, newSeen: set<(nat, nat)>)
    requires Consistent(t) && root in t && device == t[root].device
    requires Frontier(t, root, visited, rest + [path])
    requires Tally(t, Accepted(t, root, visited), seen, bytes, entries)
    ensures path in t && path !in visited && |visited + {path}| == |visited| + 1
    ensures Frontier(t, root, visited + {path}, stack)
    ensures Tally(t, Accepted(t, root, visited + {path}), newSeen, newBytes, newEntries)
  {
    assert path in rest + [path];
    assert Accepted(t, root, visited + {path})
        == if Foreign(t, root, path) then Accepted(t, root, visited)
           else Accepted(t, root, visited) + {path};
    var info := t[path];
    var listing := [];
    newBytes, newEntries, newSeen := bytes, entries, seen;
    if info.kind != DirectoryKind || info.device == device {
      newBytes, newEntries, newSeen :=
        Account(t, Accepted(t, root, visited), path, bytes, entries, seen);
      if info.kind == DirectoryKind { listing := Listing(t, path); }
    }
    Popped(t, root, visited, rest, path, listing);
    stack := rest + listing;
  }

  /**
    Whatever the order of listings: one entry for each path on the workspace's file system, and the
    bytes of its files with every inode charged once; unless `late` says that the deadline had
    passed when the clock was read for one of the paths.
   */
  method SampleTree(t: Tree, root: Path, late: nat -> bool) returns (r: Result<(nat, nat), Failure>)
    requires root in t && Consistent(t)
    ensures r == Err(NotADirectory) <==> t[root].kind != DirectoryKind
    ensures r == Err(DeadlineExhausted) <==>
            t[root].kind == DirectoryKind && Overdue(late, |Visits(t, root)|)
    ensures r.Ok? ==> Chargeable(t, Charges(t, Counted(t, root)))
    ensures r.Ok? ==> r.value == (Total(t, Charges(t, Counted(t, root))), |Counted(t, root)|)
  {
    if t[root].kind != DirectoryKind { return Err(NotADirectory); }
    var device := t[root].device;
    var stack := [root];
    var seen: set<(nat, nat)> := {};
    var bytes: nat, entries: nat, read: nat := 0, 0, 0;
    ghost var visited: set<Path> := {};
    while stack != []
      invariant Frontier(t, root, visited, stack)
      invariant Tally(t, Accepted(t, root, visited), seen, bytes, entries)
      invariant read == |visited| && !Overdue(late, read)
      decreases t.Keys - visited
    {
      OneReading(late, t, root, visited, stack);
      if late(read) { return Err(DeadlineExhausted); }
      read := read + 1;
      var path := stack[|stack| - 1];
      assert stack == stack[..|stack| - 1] + [path];
      stack, bytes, entries, seen :=
        Visit(t, root, device, stack[..|stack| - 1], path, visited, bytes, entries, seen);
      visited := visited + {path};
    }
    AllCounted(t, root, visited);
    assert Chargeable(t, Charges(t, Counted(t, root)));
    r := Ok((bytes, entries));
  }

  lemma Counts(t: Tree, counted: set<Path>, seen: set<(nat, nat)>, bytes: nat, entries: nat, p: Path)
    requires Consistent(t) && Tally(t, counted, seen, bytes, entries) && p in t && p !in counted
    ensures
      var info := t[p];
      var id := (info.device, info.inode);
      Tally(t, counted + {p},
            if info.kind == RegularKind && info.links > 1 then seen + {id} else seen,
            if info.kind != DirectoryKind
               && (info.kind != RegularKind || info.links <= 1 || id !in seen)
            then bytes + info.size else bytes,
            entries + 1)
  {
    var id := (t[p].device, t[p].inode);
    if t[p].kind == DirectoryKind {
      DirectoryAdds(t, counted, seen, bytes, entries, p);
    } else if ChargeOf(t, p).Alone? {
      ChargeAdds(t, counted, seen, bytes, entries, p);
    } else if id !in seen {
      ChargeAdds(t, counted, seen, bytes, entries, p);
    } else {
      NoChargeAdds(t, counted, seen, bytes, entries, p);
      assert seen + {id} == seen;
    }
  }

  // ---------------------------------------------------------------- one more name for an inode

  predicate SameInode(a: Info, b: Info) {
    a.kind == RegularKind && b.kind == RegularKind && a.device == b.device && a.inode == b.inode
  }

  /** Names of one regular inode show the same, and its link count counts them. */
  ghost predicate Inodes(t: Tree) {
    && (forall p :: p in t && t[p].kind == RegularKind ==> t[p].links > 0)
    && (forall p, q :: p in t && q in t && SameInode(t[p], t[q]) ==>
          t[p] == t[q] && (p != q ==> t[p].links > 1))
  }

  function Counting(a: Info, b: Info): Info { if SameInode(a, b) then b.(links := b.links + 1) else b }

  /** `link(p, q)`: another name, and one more link on every name the inode has. */
  function LinkTo(t: Tree, p: Path, q: Path): Tree
    requires p in t
  {
    map x | x in t.Keys + {q} :: Counting(t[p], if x == q then t[p] else t[x])
  }

  lemma {:induction false} ListedStays(t: Tree, root: Path, p: Path, q: Path, x: Path)
    requires root in t && p in t && q !in t && t[p].kind == RegularKind && x != q
    ensures Listed(LinkTo(t, p, q), root, x) <==> Listed(t, root, x)
    decreases |x|
  {
    if |x| > |root| && Parent(x) != q { ListedStays(t, root, p, q, Parent(x)); }
  }

  // A path by which both trees know the charge, with the same size.
  ghost predicate Carried(t: Tree, u: Tree, c: Charge) {
    exists p :: p in t && p in u && ChargeOf(t, p) == c && ChargeOf(u, p) == c && t[p].size == u[p].size
  }

  lemma {:induction false} TotalStays(t: Tree, u: Tree, charges: set<Charge>)
    requires Consistent(t) && Consistent(u) && forall c :: c in charges ==> Carried(t, u, c)
    ensures Chargeable(t, charges) && Chargeable(u, charges)
    ensures Total(u, charges) == Total(t, charges)
    decreases |charges|
  {
    if c :| c in charges {
      TotalStays(t, u, charges - {c});
      TotalAdds(t, charges, c);
      TotalAdds(u, charges, c);
      var p :| p in t && p in u && ChargeOf(t, p) == c && ChargeOf(u, p) == c && t[p].size == u[p].size;
    }
  }

  lemma LinkedInodes(t: Tree, p: Path, q: Path)
    requires Inodes(t) && p in t && q !in t && t[p].kind == RegularKind
    ensures Inodes(LinkTo(t, p, q))
  {
    var u := LinkTo(t, p, q);
    forall x, y | x in u && y in u && SameInode(u[x], u[y])
      ensures u[x] == u[y] && (x != y ==> u[x].links > 1)
    {
      var a, b := if x == q then p else x, if y == q then p else y;
      assert u[x] == Counting(t[p], t[a]) && u[y] == Counting(t[p], t[b]);
      assert SameInode(t[a], t[b]);
    }
  }

  lemma InodesAgree(t: Tree)
    requires Inodes(t)
    ensures Consistent(t)
  {
    forall p, q | p in t && q in t && ChargeOf(t, p) == ChargeOf(t, q) ensures t[p].size == t[q].size {
      if p != q { assert SameInode(t[p], t[q]); }
    }
  }

  lemma LinkedCounts(t: Tree, root: Path, p: Path, q: Path)
    requires root in t && p in t && q !in t && t[p].kind == RegularKind
    requires |q| > |root| && Parent(q) in Counted(t, root) && t[Parent(q)].kind == DirectoryKind
    ensures Counted(LinkTo(t, p, q), root) == Counted(t, root) + {q}
  {
    var u := LinkTo(t, p, q);
    forall x ensures x in Counted(u, root) <==> x in Counted(t, root) + {q} {
      if x != q { ListedStays(t, root, p, q, x); } else { ListedStays(t, root, p, q, Parent(q)); }
    }
  }

  /** The charge of the inode turns into a shared one; every other charge stays. */
  lemma LinkedCharges(t: Tree, p: Path, q: Path, counted: set<Path>)
    requires Inodes(t) && p in t && q !in t && t[p].kind == RegularKind && p in counted
    ensures var others := Charges(t, counted) - {ChargeOf(t, p)};
            var u := LinkTo(t, p, q);
            && Charges(u, counted + {q}) == others + {ChargeOf(u, p)} && ChargeOf(u, p) !in others
            && forall c :: c in others ==> Carried(t, u, c)
  {
    var u := LinkTo(t, p, q);
    var others := Charges(t, counted) - {ChargeOf(t, p)};
    assert ChargeOf(u, q) == ChargeOf(u, p);
    forall x | x in t
      ensures if SameInode(t[p], t[x])
              then ChargeOf(u, x) == ChargeOf(u, p) && ChargeOf(t, x) == ChargeOf(t, p)
              else ChargeOf(u, x) == ChargeOf(t, x) && ChargeOf(t, x) != ChargeOf(t, p)
                   && ChargeOf(t, x) != ChargeOf(u, p)
    {
    }
  }

  lemma SameTotal(t: Tree, p: Path, q: Path, counted: set<Path>)
    requires Inodes(t) && p in t && q !in t && t[p].kind == RegularKind && p in counted
    requires Inodes(LinkTo(t, p, q))
    ensures var u := LinkTo(t, p, q);
            && Chargeable(t, Charges(t, counted)) && Chargeable(u, Charges(u, counted + {q}))
            && Total(u, Charges(u, counted + {q})) == Total(t, Charges(t, counted))
  {
    var u := LinkTo(t, p, q);
    var before, now := Charges(t, counted), Charges(u, counted + {q});
    var others := before - {ChargeOf(t, p)};
    InodesAgree(t);
    InodesAgree(u);
    LinkedCharges(t, p, q, counted);
    assert now - {ChargeOf(u, p)} == others;
    assert Chargeable(t, before) && Chargeable(u, now);
    TotalStays(t, u, others);
    TotalAdds(t, before, ChargeOf(t, p));
    TotalAdds(u, now, ChargeOf(u, p));
  }

  /** One more name for a counted file is one more entry and no more bytes, be it the second or not. */
  lemma HardLinkIsFree(t: Tree, root: Path, p: Path, q: Path)
    requires root in t && Inodes(t) && p in Counted(t, root) && t[p].kind == RegularKind
    requires q !in t && |q| > |root| && Parent(q) in Counted(t, root)
    requires t[Parent(q)].kind == DirectoryKind
    ensures var u := LinkTo(t, p, q);
            && Inodes(u) && Consistent(t) && Consistent(u) && Counted(u, root) == Counted(t, root) + {q}
            && Chargeable(t, Charges(t, Counted(t, root)))
            && Chargeable(u, Charges(u, Counted(u, root)))
            && Total(u, Charges(u, Counted(u, root))) == Total(t, Charges(t, Counted(t, root)))
  {
    var u, counted := LinkTo(t, p, q), Counted(t, root);
    LinkedInodes(t, p, q);
    InodesAgree(t);
    InodesAgree(u);
    LinkedCounts(t, root, p, q);
    SameTotal(t, p, q, counted);
  }
}
