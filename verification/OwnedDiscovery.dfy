/**
  `_owned` of `operational_monitor.py`: discovery of the living descendants of a root from one
  process listing, and what it is worth on a host with a subreaper at the root.
 */
module OwnedDiscovery {
  import opened Wrappers
  import opened ProcessTree
  import opened Collections

  // What iterating over the processes shows of one: it may vanish, or deny access, meanwhile.
  datatype Observation = Gone | Denied(pid: Pid) | Seen(pid: Pid, created: nat, ppid: Pid, zombie: bool)
  datatype Entry = Entry(identity: Identity, ppid: Pid)
  datatype Failure = AttributionUnavailable(pid: Pid) | RootReused

  // ---------------------------------------------------------------- specification

  // Zombies other than the root, vanished and inaccessible processes leave no entry.
  function Note(snapshot: map<Pid, Entry>, root: Pid, o: Observation): map<Pid, Entry> {
    if o.Seen? && (o.pid == root || !o.zombie)
    then snapshot[o.pid := Entry(Identity(o.pid, o.created), o.ppid)]
    else snapshot
  }

  function Snapshot(root: Pid, listing: seq<Observation>): map<Pid, Entry> {
    if listing == [] then map[]
    else Note(Snapshot(root, listing[..|listing| - 1]), root, listing[|listing| - 1])
  }

  predicate KnownDenied(known: map<Pid, Identity>, listing: seq<Observation>) {
    exists o :: o in listing && o.Denied? && o.pid in known
  }

  predicate RootMismatch(root: Identity, snapshot: map<Pid, Entry>) {
    root.pid in snapshot && snapshot[root.pid].identity != root
  }

  /** Known pids that another process has now. */
  function Reused(known: map<Pid, Identity>, snapshot: map<Pid, Entry>): set<Pid> {
    set p | p in snapshot && p in known && known[p] != snapshot[p].identity
  }

  function Seeds(root: Identity, known: map<Pid, Identity>, snapshot: map<Pid, Entry>): set<Pid> {
    set p | p in snapshot && (p == root.pid || (p in known && known[p] == snapshot[p].identity))
  }

  /** `path` leads from a seed to `p` along parent links, never through a reused pid. */
  ghost predicate Lineage(snapshot: map<Pid, Entry>, seeds: set<Pid>, reused: set<Pid>,
                          path: seq<Pid>, p: Pid)
  {
    && |path| > 0 && path[0] in seeds && path[|path| - 1] == p
    && (forall i :: 0 <= i < |path| ==> path[i] in snapshot)
    && (forall i :: 0 < i < |path| ==>
          path[i] !in reused && snapshot[path[i]].ppid == path[i - 1])
  }

  ghost predicate Claimed(snapshot: map<Pid, Entry>, seeds: set<Pid>, reused: set<Pid>, p: Pid) {
    exists path :: Lineage(snapshot, seeds, reused, path, p)
  }

  ghost function Discovered(root: Identity, known: map<Pid, Identity>, snapshot: map<Pid, Entry>)
    : set<Pid>
  {
    set p | p in snapshot
            && Claimed(snapshot, Seeds(root, known, snapshot), Reused(known, snapshot), p)
  }

  /** Reused pids are forgotten; newly discovered ones are remembered. */
  function KnownAfter(known: map<Pid, Identity>, snapshot: map<Pid, Entry>, seeds: set<Pid>,
                      reused: set<Pid>, discovered: set<Pid>): map<Pid, Identity>
    requires discovered <= snapshot.Keys
  {
    map p | p in (known.Keys - reused) + (discovered - seeds) ::
      if p in discovered && p !in seeds then snapshot[p].identity else known[p]
  }

  // What `known` holds once `discovered` is found, before reused pids are dropped.
  function Learned(known: map<Pid, Identity>, snapshot: map<Pid, Entry>, seeds: set<Pid>,
                   discovered: set<Pid>): map<Pid, Identity>
  {
    known + map p | p in snapshot && p in discovered && p !in seeds :: snapshot[p].identity
  }

  ghost predicate AllClaimed(snapshot: map<Pid, Entry>, seeds: set<Pid>, reused: set<Pid>,
                             found: set<Pid>)
  {
    forall p :: p in found ==> p in snapshot && Claimed(snapshot, seeds, reused, p)
  }

  lemma LineageOn(snapshot: map<Pid, Entry>, seeds: set<Pid>, reused: set<Pid>, q: Pid, p: Pid)
    requires Claimed(snapshot, seeds, reused, q)
    requires p in snapshot && p !in reused && snapshot[p].ppid == q
    ensures Claimed(snapshot, seeds, reused, p)
  {
    var path :| Lineage(snapshot, seeds, reused, path, q);
    assert Lineage(snapshot, seeds, reused, path + [p], p);
  }

  lemma SeedClaimed(snapshot: map<Pid, Entry>, seeds: set<Pid>, reused: set<Pid>, p: Pid)
    requires p in seeds && p in snapshot
    ensures Claimed(snapshot, seeds, reused, p)
  {
    assert Lineage(snapshot, seeds, reused, [p], p);
  }

  // Adopting a process whose parent is found.
  lemma AdoptOne(snapshot: map<Pid, Entry>, seeds: set<Pid>, reused: set<Pid>, found: set<Pid>,
                 p: Pid)
    requires AllClaimed(snapshot, seeds, reused, found)
    requires p in snapshot && p !in reused && snapshot[p].ppid in found
    ensures AllClaimed(snapshot, seeds, reused, found + {p})
  {
    forall q | q in found + {p}
      ensures q in snapshot && Claimed(snapshot, seeds, reused, q)
    {
      if q == p {
        LineageOn(snapshot, seeds, reused, snapshot[p].ppid, p);
      }
    }
  }

  lemma LearnOne(known: map<Pid, Identity>, snapshot: map<Pid, Entry>, seeds: set<Pid>,
                 found: set<Pid>, p: Pid)
    requires seeds <= found && p in snapshot && p !in found
    ensures Learned(known, snapshot, seeds, found)[p := snapshot[p].identity]
              == Learned(known, snapshot, seeds, found + {p})
  {
  }

  // Closed under links, as far as the processes outside `rest` go.
  ghost predicate Closed(snapshot: map<Pid, Entry>, reused: set<Pid>, found: set<Pid>,
                         rest: set<Pid>)
  {
    forall q :: q in snapshot && q !in rest && q !in reused && snapshot[q].ppid in found
      ==> q in found
  }

  // A set with the seeds, closed under links, has everything claimed.
  lemma {:induction false} ClosedHasAll(snapshot: map<Pid, Entry>, seeds: set<Pid>,
      reused: set<Pid>, closed: set<Pid>, path: seq<Pid>, p: Pid)
    requires seeds <= closed
    requires Closed(snapshot, reused, closed, {})
    requires Lineage(snapshot, seeds, reused, path, p)
    ensures p in closed
    decreases |path|
  {
    if |path| > 1 {
      ClosedHasAll(snapshot, seeds, reused, closed, path[..|path| - 1], path[|path| - 2]);
    }
  }

  // ---------------------------------------------------------------- the loops

  /** The caller's `known` dictionary, which every discovery updates. */
  class Attribution {
    var known: map<Pid, Identity>

    constructor (root: Identity)
      ensures known == map[root.pid := root]
    {
      known := map[root.pid := root];
    }

    method Observe(root: Identity, listing: seq<Observation>)
      returns (r: Result<map<Pid, Entry>, Failure>)
      ensures r.Err? <==> KnownDenied(known, listing)
      ensures r.Err? ==> r.error.AttributionUnavailable? && r.error.pid in known
      ensures r.Ok? ==> r.value == Snapshot(root.pid, listing)
    {
      var snapshot: map<Pid, Entry> := map[];
      for i := 0 to |listing|
        invariant snapshot == Snapshot(root.pid, listing[..i])
        invariant forall j :: 0 <= j < i && listing[j].Denied? ==> listing[j].pid !in known
      {
        var o := listing[i];
        if o.Denied? && o.pid in known {
          return Err(AttributionUnavailable(o.pid));
        }
        assert listing[..i + 1][..i] == listing[..i];
        snapshot := Note(snapshot, root.pid, o);
      }
      assert listing[..|listing|] == listing;
      r := Ok(snapshot);
    }

    /** One pass over the snapshot, in any order. */
    method Pass(snapshot: map<Pid, Entry>, seeds: set<Pid>, reused: set<Pid>, before: set<Pid>,
                ghost known0: map<Pid, Identity>) returns (discovered: set<Pid>)
      requires seeds <= before && AllClaimed(snapshot, seeds, reused, before)
      requires known == Learned(known0, snapshot, seeds, before)
      modifies this
      ensures before <= discovered && AllClaimed(snapshot, seeds, reused, discovered)
      ensures known == Learned(known0, snapshot, seeds, discovered)
      ensures discovered == before ==> Closed(snapshot, reused, discovered, {})
    {
      discovered := before;
      var rest := snapshot.Keys;
      while rest != {}
        invariant rest <= snapshot.Keys && before <= discovered
        invariant AllClaimed(snapshot, seeds, reused, discovered)
        invariant known == Learned(known0, snapshot, seeds, discovered)
        invariant discovered == before ==> Closed(snapshot, reused, discovered, rest)
        decreases rest
      {
        var p := Any(rest);
        if p !in reused && snapshot[p].ppid in discovered && p !in discovered {
          AdoptOne(snapshot, seeds, reused, discovered, p);
          LearnOne(known0, snapshot, seeds, discovered, p);
          discovered := discovered + {p};
          known := known[p := snapshot[p].identity];
        } else {
        }
        rest := rest - {p};
      }
    }

    /** The least fixpoint over parent links. */
    method Grow(snapshot: map<Pid, Entry>, seeds: set<Pid>, reused: set<Pid>)
      returns (discovered: set<Pid>)
      requires seeds <= snapshot.Keys
      modifies this
      ensures forall p :: p in discovered <==> p in snapshot && Claimed(snapshot, seeds, reused, p)
      ensures known == Learned(old(known), snapshot, seeds, discovered)
    {
      discovered := seeds;
      var changed := true;
      forall p | p in seeds ensures Claimed(snapshot, seeds, reused, p) {
        SeedClaimed(snapshot, seeds, reused, p);
      }
      while changed
        invariant seeds <= discovered && AllClaimed(snapshot, seeds, reused, discovered)
        invariant !changed ==> Closed(snapshot, reused, discovered, {})
        invariant known == Learned(old(known), snapshot, seeds, discovered)
        decreases snapshot.Keys - discovered, changed
      {
        var before := discovered;
        discovered := Pass(snapshot, seeds, reused, before, old(known));
        changed := discovered != before;
      }
      forall p | p in snapshot && Claimed(snapshot, seeds, reused, p)
        ensures p in discovered
      {
        var path :| Lineage(snapshot, seeds, reused, path, p);
        ClosedHasAll(snapshot, seeds, reused, discovered, path, p);
      }
    }

    // `_owned` past its two refusals.
    method Adopt(root: Identity, snapshot: map<Pid, Entry>) returns (discovered: set<Pid>)
      modifies this
      ensures discovered == Discovered(root, old(known), snapshot)
      ensures discovered <= snapshot.Keys
      ensures known == KnownAfter(old(known), snapshot, Seeds(root, old(known), snapshot),
                                  Reused(old(known), snapshot), discovered)
    {
      var reused := Reused(known, snapshot);
      var seeds := Seeds(root, known, snapshot);
      discovered := Grow(snapshot, seeds, reused);
      known := map p | p in known && p !in reused :: known[p];
    }

    method Owned(root: Identity, listing: seq<Observation>) returns (r: Result<seq<int>, Failure>)
      modifies this
      ensures r.Err? <==> KnownDenied(old(known), listing)
                          || RootMismatch(root, Snapshot(root.pid, listing))
      ensures r.Err? ==> known == old(known)
      ensures r.Ok? ==>
          var snapshot := Snapshot(root.pid, listing);
          var all := Discovered(root, old(known), snapshot);
          && Ascending(r.value) && Elements(r.value) == all
          && known == KnownAfter(old(known), snapshot, Seeds(root, old(known), snapshot),
                                 Reused(old(known), snapshot), all)
    {
      var observed := Observe(root, listing);
      if observed.Err? {
        return Err(observed.error);
      }
      var snapshot := observed.value;
      if RootMismatch(root, snapshot) {
        return Err(RootReused);
      }
      var discovered := Adopt(root, snapshot);
      var pids := Sorted(discovered);
      r := Ok(pids);
    }
  }

  // ---------------------------------------------------------------- what it is worth

  /** The pids that deny access during a listing. */
  function Denials(listing: seq<Observation>): set<Pid> {
    set o | o in listing && o.Denied? :: o.pid
  }

  /** The pids that show themselves. */
  function Sightings(listing: seq<Observation>): set<Pid> {
    set o | o in listing && o.Seen? :: o.pid
  }

  predicate Shows(k: Kernel, o: Observation) {
    match o
    case Gone => true
    case Denied(p) => p in k.procs && p != k.root.pid
    case Seen(p, created, ppid, zombie) => p in k.procs && k.procs[p] == Proc(created, ppid, zombie)
  }

  /** A listing taken in one instant: whoever is there shows as it is, or denies access. */
  ghost predicate Lists(k: Kernel, listing: seq<Observation>) {
    && (forall o :: o in listing ==> Shows(k, o))
    && Sightings(listing) !! Denials(listing)
    && k.procs.Keys == Sightings(listing) + Denials(listing)
  }

  // Only identities that descend from the root are ever remembered.
  ghost predicate KnownMine(k: Kernel, known: map<Pid, Identity>) {
    forall p :: p in known ==> known[p].pid == p && known[p] in k.mine
  }

  // The snapshot shows exactly the living outside `denied`, with their identities and parents.
  ghost predicate Faithful(k: Kernel, snapshot: map<Pid, Entry>, denied: set<Pid>) {
    && k.root.pid !in denied
    && forall p :: (p in snapshot <==> Living(k.procs, p) && p !in denied)
         && (p in snapshot ==> snapshot[p] == Entry(IdentityOf(k.procs, p), k.procs[p].parent))
  }

  lemma {:induction false} SnapshotOf(k: Kernel, root: Pid, listing: seq<Observation>)
    requires forall o :: o in listing ==> Shows(k, o)
    requires Living(k.procs, root)
    ensures var snapshot := Snapshot(root, listing);
      forall p :: (p in snapshot <==> Living(k.procs, p) && p in Sightings(listing))
        && (p in snapshot ==> snapshot[p] == Entry(IdentityOf(k.procs, p), k.procs[p].parent))
  {
    if listing != [] {
      var front, last := listing[..|listing| - 1], listing[|listing| - 1];
      SnapshotOf(k, root, front);
      assert listing == front + [last];
      assert Sightings(listing) == Sightings(front) + if last.Seen? then {last.pid} else {};
    }
  }

  lemma ListsFaithful(k: Kernel, listing: seq<Observation>)
    requires Inv(k) && Lists(k, listing)
    ensures Faithful(k, Snapshot(k.root.pid, listing), Denials(listing))
  {
    SnapshotOf(k, k.root.pid, listing);
  }

  // Everything on a lineage is a living descendant.
  lemma {:induction false} LineageIsMine(k: Kernel, known: map<Pid, Identity>,
      snapshot: map<Pid, Entry>, denied: set<Pid>, path: seq<Pid>, p: Pid)
    requires Inv(k) && Faithful(k, snapshot, denied) && KnownMine(k, known)
    requires Lineage(snapshot, Seeds(k.root, known, snapshot), Reused(known, snapshot), path, p)
    ensures Living(k.procs, p) && IdentityOf(k.procs, p) in k.mine
    decreases |path|
  {
    if |path| > 1 {
      var q := path[|path| - 2];
      LineageIsMine(k, known, snapshot, denied, path[..|path| - 1], q);
      ChainOn(k.procs, k.root.pid, q, p);
    }
  }

  /** Nothing foreign is ever returned or remembered. */
  lemma OwnedIsSound(k: Kernel, known: map<Pid, Identity>, listing: seq<Observation>)
    requires Inv(k) && Lists(k, listing) && KnownMine(k, known)
    ensures var snapshot := Snapshot(k.root.pid, listing);
      var all := Discovered(k.root, known, snapshot);
      && (forall p :: p in all ==> Living(k.procs, p) && IdentityOf(k.procs, p) in k.mine)
      && KnownMine(k, KnownAfter(known, snapshot, Seeds(k.root, known, snapshot),
                                 Reused(known, snapshot), all))
  {
    var snapshot := Snapshot(k.root.pid, listing);
    ListsFaithful(k, listing);
    forall p | p in Discovered(k.root, known, snapshot)
      ensures Living(k.procs, p) && IdentityOf(k.procs, p) in k.mine
    {
      var path :| Lineage(snapshot, Seeds(k.root, known, snapshot), Reused(known, snapshot),
                          path, p);
      LineageIsMine(k, known, snapshot, Denials(listing), path, p);
    }
  }

  /** A process denies access, or sits on a pid that `known` holds for someone else. */
  predicate Hides(k: Kernel, known: map<Pid, Identity>, listing: seq<Observation>, p: Pid)
    requires p in k.procs
  {
    p in Denials(listing) || (p in known && known[p] != IdentityOf(k.procs, p))
  }

  /** All living descendants, by history. */
  function Descendants(k: Kernel): set<Pid> {
    set p | p in k.procs && !k.procs[p].zombie && IdentityOf(k.procs, p) in k.mine
  }

  // A chain on which nobody but the root may hide is a lineage.
  lemma {:induction false} ChainIsLineage(k: Kernel, known: map<Pid, Identity>,
      listing: seq<Observation>, path: seq<Pid>, p: Pid)
    requires Inv(k) && Lists(k, listing)
    requires forall q :: q in Descendants(k) && q != k.root.pid ==> !Hides(k, known, listing, q)
    requires Chain(k.procs, k.root.pid, path, p)
    ensures var snapshot := Snapshot(k.root.pid, listing);
      Claimed(snapshot, Seeds(k.root, known, snapshot), Reused(known, snapshot), p)
    decreases |path|
  {
    var snapshot := Snapshot(k.root.pid, listing);
    var seeds, reused := Seeds(k.root, known, snapshot), Reused(known, snapshot);
    ListsFaithful(k, listing);
    if p == k.root.pid {
      SeedClaimed(snapshot, seeds, reused, p);
    } else {
      assert Linked(k.procs, k.root.pid, p) && p in Descendants(k);
      assert Chain(k.procs, k.root.pid, path[..|path| - 1], k.procs[p].parent);
      ChainIsLineage(k, known, listing, path[..|path| - 1], k.procs[p].parent);
      LineageOn(snapshot, seeds, reused, k.procs[p].parent, p);
    }
  }

  // Whoever hides is not discovered.
  lemma HiddenIsMissed(k: Kernel, known: map<Pid, Identity>, listing: seq<Observation>, p: Pid)
    requires Inv(k) && Lists(k, listing)
    requires p in k.procs && p != k.root.pid && Hides(k, known, listing, p)
    ensures p !in Discovered(k.root, known, Snapshot(k.root.pid, listing))
  {
    ListsFaithful(k, listing);
  }

  /** Exactly the root and its living descendants are returned, if and only if none of them hides. */
  lemma OwnedIsComplete(k: Kernel, known: map<Pid, Identity>, listing: seq<Observation>)
    requires Inv(k) && Lists(k, listing) && KnownMine(k, known)
    ensures Discovered(k.root, known, Snapshot(k.root.pid, listing)) == Descendants(k)
       <==> forall p :: p in Descendants(k) && p != k.root.pid ==> !Hides(k, known, listing, p)
  {
    var all := Discovered(k.root, known, Snapshot(k.root.pid, listing));
    OwnedIsSound(k, known, listing);
    if forall p :: p in Descendants(k) && p != k.root.pid ==> !Hides(k, known, listing, p) {
      forall p | p in Descendants(k) ensures p in all {
        var path :| Chain(k.procs, k.root.pid, path, p);
        ChainIsLineage(k, known, listing, path, p);
      }
    } else {
      var p :| p in Descendants(k) && p != k.root.pid && Hides(k, known, listing, p);
      HiddenIsMissed(k, known, listing, p);
    }
  }

  /** A living child of the root hides. */
  ghost predicate HiddenChild(k: Kernel, known: map<Pid, Identity>, listing: seq<Observation>) {
    exists p :: Living(k.procs, p) && k.procs[p].parent == k.root.pid && Hides(k, known, listing, p)
  }

  // Whoever is not alone has a living child.
  lemma SomeChild(k: Kernel) returns (c: Pid)
    requires Inv(k) && !Alone(k)
    ensures Living(k.procs, c) && k.procs[c].parent == k.root.pid && c != k.root.pid
  {
    var p :| Living(k.procs, p) && IdentityOf(k.procs, p) in k.mine && p != k.root.pid;
    var path :| Chain(k.procs, k.root.pid, path, p);
    c := path[1];
  }

  // A living child of the root that does not hide is discovered.
  lemma ChildFound(k: Kernel, known: map<Pid, Identity>, listing: seq<Observation>, c: Pid)
    requires Inv(k) && Lists(k, listing)
    requires Living(k.procs, c) && k.procs[c].parent == k.root.pid && !Hides(k, known, listing, c)
    ensures c in Discovered(k.root, known, Snapshot(k.root.pid, listing))
  {
    var snapshot := Snapshot(k.root.pid, listing);
    var seeds, reused := Seeds(k.root, known, snapshot), Reused(known, snapshot);
    ListsFaithful(k, listing);
    SeedClaimed(snapshot, seeds, reused, k.root.pid);
    LineageOn(snapshot, seeds, reused, k.root.pid, c);
  }

  lemma HiddenIsAlive(k: Kernel, known: map<Pid, Identity>, listing: seq<Observation>)
    requires Inv(k) && HiddenChild(k, known, listing)
    ensures !Alone(k)
  {
    var p :| Living(k.procs, p) && k.procs[p].parent == k.root.pid && Hides(k, known, listing, p);
    ChainOn(k.procs, k.root.pid, k.root.pid, p);
  }

  /**
    When discovery finds nobody but the root, there is nobody else alive below it, except exactly
    if a living child of the root denies access or sits on a recycled pid.
   */
  lemma NobodyFound(k: Kernel, known: map<Pid, Identity>, listing: seq<Observation>)
    requires Inv(k) && Lists(k, listing)
    requires Discovered(k.root, known, Snapshot(k.root.pid, listing)) <= {k.root.pid}
    ensures !Alone(k) <==> HiddenChild(k, known, listing)
  {
    if !Alone(k) {
      var c := SomeChild(k);
      if !Hides(k, known, listing, c) { ChildFound(k, known, listing, c); }
    }
    if HiddenChild(k, known, listing) {
      HiddenIsAlive(k, known, listing);
    }
  }
}
